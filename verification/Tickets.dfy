// Ticket status: staff updates along a transition table, and the agent
// monitor, which raises and resolves its own tickets outside that table
// (backend/src/tickets/ticket-status.transitions.ts,
//  backend/src/tickets/tickets.service.ts,
//  backend/src/tinta-core/agent-monitor.scheduler.ts).
module Tickets {
  import opened Prelude

  type Client = string
  type User = string
  type Id = nat     // position in the ticket table

  const OFFLINE_THRESHOLD_MS := 5 * 60 * 1000

  datatype Status = New | InProgress | WaitingClient | Resolved | Closed

  // A status-change note is kept as the pair of statuses its text names.
  datatype Change = Change(before: Status, after: Status)

  // `alert`: the subject starts with the prefix of the offline alerts.
  // `raised`, which is no column, says that the monitor created the ticket.
  datatype Ticket = Ticket(
    status: Status, alert: bool, raised: bool, client: Option<Client>, email: string,
    assignedTo: Option<User>, internalNotes: Option<string>, changes: seq<Change>)

  datatype Session = Session(clientId: Client, email: Option<string>, connected: bool, lastHeartbeatAt: Option<int>)

  function AllowedNext(s: Status): set<Status> {
    match s
    case New => {InProgress, Closed}
    case InProgress => {WaitingClient, Resolved, Closed}
    case WaitingClient => {InProgress, Resolved, Closed}
    case Resolved => {Closed, InProgress}
    case Closed => {}
  }

  predicate Allowed(before: Status, after: Status) {
    before == after || after in AllowedNext(before)
  }

  // The table in one sentence: anything may change into anything else, but
  // nothing into NEW, nothing out of CLOSED, a new ticket not into a waiting or
  // resolved one, and a resolved one not into a waiting one.
  lemma WhatMayChange(before: Status, after: Status)
    ensures Allowed(before, after) <==>
            before == after ||
            (after != New && before != Closed
             && !(before == New && after in {WaitingClient, Resolved})
             && !(before == Resolved && after == WaitingClient))
  {
  }

  predicate IsOpen(s: Status) {
    s in {New, InProgress, WaitingClient}
  }

  lemma OpenOrEnded(s: Status)
    ensures IsOpen(s) <==> s !in {Resolved, Closed}
  {
  }

  // One unbroken path of allowed changes.
  predicate Path(changes: seq<Change>, start: Status, finish: Status) {
    if changes == [] then start == finish
    else
      var last := changes[|changes| - 1];
      && last.after == finish && last.before != finish && last.after in AllowedNext(last.before)
      && Path(changes[..|changes| - 1], start, last.before)
  }

  lemma PathGrows(changes: seq<Change>, start: Status, s: Status, t: Status)
    requires Path(changes, start, s) && s != t && Allowed(s, t)
    ensures Path(changes + [Change(s, t)], start, t)
  {
    assert (changes + [Change(s, t)])[..|changes|] == changes;
  }

  // Nothing leads back to NEW, and nothing out of CLOSED.
  lemma PathEnds(changes: seq<Change>, start: Status, finish: Status)
    requires Path(changes, start, finish)
    ensures finish == New ==> changes == [] && start == New
    ensures start == Closed ==> changes == [] && finish == Closed
  {
    if changes != [] {
      PathEnds(changes[..|changes| - 1], start, changes[|changes| - 1].before);
    }
  }

  // Whether the database takes the update: its assignee is one of the users,
  // and its notes have no NUL character.
  predicate Storable(assignee: Option<User>, internalNotes: Option<string>, users: set<User>) {
    && (assignee.Some? ==> assignee.value in users)
    && (internalNotes.Some? ==> '\0' !in internalNotes.value)
  }

  function Updated(t: Ticket, status: Status, assignee: Option<User>, internalNotes: Option<string>): Ticket {
    t.(status := status,
       assignedTo := if assignee.Some? then assignee else t.assignedTo,
       internalNotes := if internalNotes.Some? then internalNotes else t.internalNotes,
       changes := if status != t.status then t.changes + [Change(t.status, status)] else t.changes)
  }

  predicate OpenAlertOf(t: Ticket, c: Client) {
    t.client == Some(c) && t.alert && IsOpen(t.status)
  }

  function AlertFor(s: Session): Ticket {
    var email := if s.email.Some? then s.email.value else "auto@tinta-system";
    Ticket(New, true, true, Some(s.clientId), email, None, None, [])
  }

  function Raised(ts: seq<Ticket>, s: Session): seq<Ticket> {
    if exists i | 0 <= i < |ts| :: OpenAlertOf(ts[i], s.clientId) then ts else ts + [AlertFor(s)]
  }

  // Older alerts were saved without a client and are matched by email.
  predicate ClearedBy(t: Ticket, s: Session) {
    && t.alert && t.status == New
    && (t.client == Some(s.clientId) || (s.email.Some? && s.email.value != "" && t.email == s.email.value))
  }

  function AutoResolved(t: Ticket, note: string): Ticket {
    t.(status := Resolved,
       internalNotes := Some(if t.internalNotes.Some? && t.internalNotes.value != ""
                             then t.internalNotes.value + "\n" + note else note))
  }

  function Cleared(ts: seq<Ticket>, s: Session, note: string): seq<Ticket> {
    seq(|ts|, i requires 0 <= i < |ts| => if ClearedBy(ts[i], s) then AutoResolved(ts[i], note) else ts[i])
  }

  predicate Stale(s: Session, now: int) {
    s.connected && s.lastHeartbeatAt.Some? && s.lastHeartbeatAt.value < now - OFFLINE_THRESHOLD_MS
  }

  function Marked(s: Session, now: int): Session {
    if Stale(s, now) then s.(connected := false) else s
  }

  function AfterMarking(sessions: seq<Session>, now: int): seq<Session> {
    MarkedUpTo(sessions, |sessions|, now)
  }

  function MarkedUpTo(sessions: seq<Session>, n: nat, now: int): seq<Session> {
    seq(|sessions|, i requires 0 <= i < |sessions| => if i < n then Marked(sessions[i], now) else sessions[i])
  }

  lemma MarkNext(sessions: seq<Session>, n: nat, now: int)
    requires n < |sessions|
    ensures MarkedUpTo(sessions, 0, now) == sessions
    ensures MarkedUpTo(sessions, n, now)[n := Marked(sessions[n], now)] == MarkedUpTo(sessions, n + 1, now)
  {
  }

  // -------- runs --------

  datatype Event =
    | Create(alert: bool, client: Option<Client>, email: string)
    | Update(id: Id, status: Status, assignee: Option<User>, internalNotes: Option<string>, users: set<User>)
    | Raise(s: Session)
    | Clear(s: Session, note: string)

  function Step(ts: seq<Ticket>, e: Event): seq<Ticket> {
    match e
    case Create(alert, client, email) => ts + [Ticket(New, alert, false, client, email, None, None, [])]
    case Update(id, status, assignee, internalNotes, users) =>
      if id < |ts| && Allowed(ts[id].status, status) && Storable(assignee, internalNotes, users)
      then ts[id := Updated(ts[id], status, assignee, internalNotes)] else ts
    case Raise(s) => Raised(ts, s)
    case Clear(s, note) => Cleared(ts, s, note)
  }

  function Apply(ts: seq<Ticket>, es: seq<Event>): seq<Ticket> {
    if es == [] then ts else Step(Apply(ts, es[..|es| - 1]), es[|es| - 1])
  }

  function After(es: seq<Event>): seq<Ticket> {
    Apply([], es)
  }

  // One monitor pass: every stale session raises, every session still
  // connected clears.
  function PassRaises(sessions: seq<Session>, now: int): seq<Event> {
    if sessions == [] then []
    else
      var s := sessions[|sessions| - 1];
      PassRaises(sessions[..|sessions| - 1], now) + if Stale(s, now) then [Raise(s)] else []
  }

  function PassClears(sessions: seq<Session>, now: int, note: string): seq<Event> {
    if sessions == [] then []
    else
      var s := sessions[|sessions| - 1];
      PassClears(sessions[..|sessions| - 1], now, note) + if s.connected && !Stale(s, now) then [Clear(s, note)] else []
  }

  lemma {:induction false} ApplyConcat(ts: seq<Ticket>, a: seq<Event>, b: seq<Event>)
    ensures Apply(ts, a + b) == Apply(Apply(ts, a), b)
  {
    if b == [] {
      assert a + b == a;
    } else {
      ApplyConcat(ts, a, b[..|b| - 1]);
      assert (a + b)[..|a + b| - 1] == a + b[..|b| - 1];
    }
  }

  lemma ApplySnoc(ts: seq<Ticket>, es: seq<Event>, e: Event)
    ensures Apply(ts, es + [e]) == Step(Apply(ts, es), e)
  {
    assert (es + [e])[..|es|] == es;
  }

  lemma NextRaise(ts: seq<Ticket>, sessions: seq<Session>, i: nat, now: int)
    requires i < |sessions|
    ensures Apply(ts, PassRaises(sessions[..i + 1], now)) ==
            var done := Apply(ts, PassRaises(sessions[..i], now));
            if Stale(sessions[i], now) then Raised(done, sessions[i]) else done
  {
    var done := PassRaises(sessions[..i], now);
    assert sessions[..i + 1][..i] == sessions[..i];
    assert PassRaises(sessions[..i + 1], now) == done + if Stale(sessions[i], now) then [Raise(sessions[i])] else [];
    ApplySnoc(ts, done, Raise(sessions[i]));
    assert done + [] == done;
  }

  lemma NextClear(ts: seq<Ticket>, sessions: seq<Session>, i: nat, now: int, note: string)
    requires i < |sessions|
    ensures Apply(ts, PassClears(sessions[..i + 1], now, note)) ==
            var done := Apply(ts, PassClears(sessions[..i], now, note));
            if sessions[i].connected && !Stale(sessions[i], now) then Cleared(done, sessions[i], note) else done
  {
    var done := PassClears(sessions[..i], now, note);
    assert sessions[..i + 1][..i] == sessions[..i];
    assert PassClears(sessions[..i + 1], now, note)
        == done + if sessions[i].connected && !Stale(sessions[i], now) then [Clear(sessions[i], note)] else [];
    ApplySnoc(ts, done, Clear(sessions[i], note));
    assert done + [] == done;
  }

  // -------- the services --------

  class TicketTable {
    var rows: seq<Ticket>

    constructor ()
      ensures rows == []
    {
      rows := [];
    }
  }

  class TicketsService {
    const table: TicketTable

    constructor (table: TicketTable)
      ensures this.table == table
    {
      this.table := table;
    }

    // A ticket from the public form or the client portal.
    method CreateTicket(alert: bool, client: Option<Client>, email: string)
      modifies table
      ensures table.rows == Step(old(table.rows), Create(alert, client, email))
      ensures table.rows == old(table.rows) + [Ticket(New, alert, false, client, email, None, None, [])]
    {
      table.rows := table.rows + [Ticket(New, alert, false, client, email, None, None, [])];
    }

    // Refused, by the service or by the database, or stored; only a real change
    // leaves a note.
    method UpdateStatus(id: Id, status: Status, assignee: Option<User>, internalNotes: Option<string>, users: set<User>)
      returns (ok: bool)
      modifies table
      ensures table.rows == Step(old(table.rows), Update(id, status, assignee, internalNotes, users))
      ensures ok <==>
                && id < |old(table.rows)| && Allowed(old(table.rows)[id].status, status)
                && Storable(assignee, internalNotes, users)
      ensures ok ==>
                var was := old(table.rows)[id];
                |table.rows[id].changes| == |was.changes| + if status == was.status then 0 else 1
      // in words: what is stored, and for a real change the note that names it
      ensures !ok ==> table.rows == old(table.rows)
      ensures ok ==>
                var was := old(table.rows)[id];
                table.rows == old(table.rows)[id := was.(
                  status := status,
                  assignedTo := if assignee.Some? then assignee else was.assignedTo,
                  internalNotes := if internalNotes.Some? then internalNotes else was.internalNotes,
                  changes := was.changes + if status == was.status then [] else [Change(was.status, status)])]
      ensures assignee.Some? && assignee.value !in users ==> !ok
    {
      if id >= |table.rows| {
        return false;
      }
      var ticket := table.rows[id];
      if !(ticket.status == status || status in AllowedNext(ticket.status)) {
        return false;
      }
      var update := ticket.(status := status);
      if assignee.Some? {
        if assignee.value !in users {
          return false;
        }
        update := update.(assignedTo := assignee);
      }
      if internalNotes.Some? {
        if '\0' in internalNotes.value {
          return false;
        }
        update := update.(internalNotes := internalNotes);
      }
      table.rows := table.rows[id := update];
      if status != ticket.status {
        update := update.(changes := update.changes + [Change(ticket.status, status)]);
        table.rows := table.rows[id := update];
      }
      assert ticket.changes + [] == ticket.changes;
      assert table.rows == old(table.rows)[id := update];
      ok := true;
    }
  }

  class AgentMonitorScheduler {
    const table: TicketTable
    var sessions: seq<Session>

    constructor (table: TicketTable, sessions: seq<Session>)
      ensures this.table == table && this.sessions == sessions
    {
      this.table, this.sessions := table, sessions;
    }

    method RaiseOfflineTicket(session: Session)
      modifies table
      ensures table.rows == Raised(old(table.rows), session)
      // a new alert exactly when the client has none that is still open
      ensures table.rows == old(table.rows) <==>
                exists i | 0 <= i < |old(table.rows)| ::
                  && old(table.rows)[i].alert && old(table.rows)[i].client == Some(session.clientId)
                  && old(table.rows)[i].status !in {Resolved, Closed}
      ensures table.rows != old(table.rows) ==>
                && |table.rows| == |old(table.rows)| + 1 && table.rows[..|old(table.rows)|] == old(table.rows)
                && var t := table.rows[|old(table.rows)|];
                && t.status == New && t.alert && t.client == Some(session.clientId)
                && t.changes == [] && t.assignedTo == None && t.internalNotes == None
    {
      for i := 0 to |table.rows|
        invariant table.rows == old(table.rows)
        invariant forall k | 0 <= k < i :: !OpenAlertOf(table.rows[k], session.clientId)
      {
        if OpenAlertOf(table.rows[i], session.clientId) {
          assert table.rows[i].status !in {Resolved, Closed};
          return;
        }
      }
      forall k | 0 <= k < |table.rows| && table.rows[k].alert && table.rows[k].client == Some(session.clientId)
        ensures table.rows[k].status in {Resolved, Closed}
      {
        assert !OpenAlertOf(table.rows[k], session.clientId);
        OpenOrEnded(table.rows[k].status);
      }
      table.rows := table.rows + [AlertFor(session)];
      assert |table.rows| != |old(table.rows)|;
    }

    method ResolveOfflineTickets(session: Session, note: string)
      modifies table
      ensures table.rows == Cleared(old(table.rows), session, note)
      // exactly the new alerts of the client, or of its email, are resolved
      ensures |table.rows| == |old(table.rows)|
      ensures forall i | 0 <= i < |table.rows| ::
                var was := old(table.rows)[i];
                var mine := || was.client == Some(session.clientId)
                            || (session.email.Some? && session.email.value != "" && was.email == session.email.value);
                if was.alert && was.status == New && mine
                then
                  && table.rows[i] == was.(status := Resolved, internalNotes := table.rows[i].internalNotes)
                  && table.rows[i].internalNotes.Some?
                else table.rows[i] == was
    {
      for i := 0 to |table.rows|
        invariant |table.rows| == |old(table.rows)|
        invariant forall k | 0 <= k < i :: table.rows[k] == Cleared(old(table.rows), session, note)[k]
        invariant forall k | i <= k < |table.rows| :: table.rows[k] == old(table.rows)[k]
      {
        var ticket := table.rows[i];
        if ClearedBy(ticket, session) {
          table.rows := table.rows[i := AutoResolved(ticket, note)];
        }
      }
    }

    method MarkStale(now: int)
      modifies this`sessions, table
      ensures sessions == AfterMarking(old(sessions), now)
      ensures table.rows == Apply(old(table.rows), PassRaises(old(sessions), now))
    {
      ghost var was := sessions;
      assert MarkedUpTo(was, 0, now) == was;
      for i := 0 to |sessions|
        invariant sessions == MarkedUpTo(was, i, now)
        invariant table.rows == Apply(old(table.rows), PassRaises(was[..i], now))
      {
        NextRaise(old(table.rows), was, i, now);
        MarkNext(was, i, now);
        var session := sessions[i];
        if Stale(session, now) {
          sessions := sessions[i := session.(connected := false)];
          RaiseOfflineTicket(session);
        }
      }
      assert was[..|was|] == was;
    }

    method ClearOnline(ghost was: seq<Session>, ghost now: int, note: string)
      requires sessions == AfterMarking(was, now)
      modifies table
      ensures table.rows == Apply(old(table.rows), PassClears(was, now, note))
    {
      for i := 0 to |sessions|
        invariant table.rows == Apply(old(table.rows), PassClears(was[..i], now, note))
      {
        NextClear(old(table.rows), was, i, now, note);
        var session := sessions[i];
        if session.connected {
          ResolveOfflineTickets(session, note);
        }
      }
      assert was[..|was|] == was;
    }

    // Stale sessions are marked offline first, so none of them clears.
    method CheckAgentHealth(now: int, note: string)
      modifies this`sessions, table
      ensures sessions == AfterMarking(old(sessions), now)
      ensures table.rows ==
              Apply(old(table.rows), PassRaises(old(sessions), now) + PassClears(old(sessions), now, note))
      // offline is a connected session whose last heartbeat is over five minutes old
      ensures |sessions| == |old(sessions)|
      ensures forall i | 0 <= i < |sessions| ::
                var was := old(sessions)[i];
                var silent := was.lastHeartbeatAt.Some? && was.lastHeartbeatAt.value + 300_000 < now;
                sessions[i] == was.(connected := was.connected && !silent)
    {
      ghost var was := sessions;
      ghost var rows := table.rows;
      MarkStale(now);
      ClearOnline(was, now, note);
      ApplyConcat(rows, PassRaises(was, now), PassClears(was, now, note));
    }
  }

  // -------- what holds over runs --------

  // The monitor resolved this ticket while it was new.
  predicate MonitorTook(es: seq<Event>, id: Id) {
    es != [] && (
      var before := es[..|es| - 1];
      var e := es[|es| - 1];
      MonitorTook(before, id) || (e.Clear? && id < |After(before)| && ClearedBy(After(before)[id], e.s)))
  }

  function Origin(es: seq<Event>, id: Id): Status {
    if MonitorTook(es, id) then Resolved else New
  }

  lemma {:induction false} NoTicketNoMonitor(es: seq<Event>, id: Id)
    requires id >= |After(es)|
    ensures !MonitorTook(es, id)
  {
    if es == [] {
    } else {
      NoTicketNoMonitor(es[..|es| - 1], id);
    }
  }

  lemma UpdateKeepsPath(t: Ticket, status: Status, assignee: Option<User>, notes: Option<string>, origin: Status)
    requires Path(t.changes, origin, t.status) && Allowed(t.status, status)
    ensures Path(Updated(t, status, assignee, notes).changes, origin, status)
  {
    if status != t.status {
      PathGrows(t.changes, origin, t.status, status);
    }
  }

  // A ticket the monitor takes has no notes yet.
  lemma ClearStartsPath(t: Ticket, note: string, origin: Status)
    requires Path(t.changes, origin, t.status) && t.status == New
    ensures Path(AutoResolved(t, note).changes, Resolved, Resolved)
  {
    PathEnds(t.changes, origin, t.status);
  }

  lemma StepKeepsPath(ts: seq<Ticket>, e: Event, id: Id, origin: Status)
    requires id < |ts| && Path(ts[id].changes, origin, ts[id].status)
    ensures |Step(ts, e)| >= |ts|
    ensures var t := Step(ts, e)[id];
            Path(t.changes, if e.Clear? && ClearedBy(ts[id], e.s) then Resolved else origin, t.status)
  {
    match e
    case Update(i, status, assignee, notes, _) =>
      if i == id && Step(ts, e) != ts {
        UpdateKeepsPath(ts[id], status, assignee, notes, origin);
      }
    case Clear(s, note) =>
      if ClearedBy(ts[id], s) {
        ClearStartsPath(ts[id], note, origin);
      }
    case Create(_, _, _) =>
    case Raise(_) =>
  }

  // The notes of a ticket are one unbroken path from NEW, or from RESOLVED if
  // the monitor took the ticket first, to the status it has now.
  lemma {:induction false} NotesFormAPath(es: seq<Event>, id: Id)
    requires id < |After(es)|
    ensures Path(After(es)[id].changes, Origin(es, id), After(es)[id].status)
  {
    var (before, e) := (es[..|es| - 1], es[|es| - 1]);
    if id < |After(before)| {
      NotesFormAPath(before, id);
      StepKeepsPath(After(before), e, id, Origin(before, id));
    } else {
      NoTicketNoMonitor(before, id);
    }
  }

  lemma StepStatus(ts: seq<Ticket>, e: Event, id: Id)
    requires id < |ts|
    ensures id < |Step(ts, e)|
    ensures ts[id].status != New ==> Step(ts, e)[id].status != New
    ensures ts[id].status == Closed ==> Step(ts, e)[id].status == Closed
    ensures ts[id].changes <= Step(ts, e)[id].changes
  {
  }

  // NEW is never re-entered, CLOSED never left, and no note is lost.
  lemma {:induction false} NeverBackToNew(es: seq<Event>, i: nat, id: Id)
    requires i <= |es| && id < |After(es[..i])|
    ensures id < |After(es)|
    ensures After(es[..i])[id].status != New ==> After(es)[id].status != New
    ensures After(es[..i])[id].status == Closed ==> After(es)[id].status == Closed
    ensures After(es[..i])[id].changes <= After(es)[id].changes
  {
    if i == |es| {
      assert es[..i] == es;
    } else {
      var before := es[..|es| - 1];
      assert before[..i] == es[..i];
      NeverBackToNew(before, i, id);
      StepStatus(After(before), es[|es| - 1], id);
    }
  }

  ghost predicate OneRaisedEach(ts: seq<Ticket>) {
    && (forall i | 0 <= i < |ts| :: ts[i].raised ==> ts[i].alert && ts[i].client.Some?)
    && (forall i, j | 0 <= i < j < |ts| && ts[i].raised && ts[j].raised && ts[i].status == New && ts[j].status == New ::
          ts[i].client != ts[j].client)
  }

  lemma RaiseKeepsOneEach(ts: seq<Ticket>, s: Session)
    requires OneRaisedEach(ts)
    ensures OneRaisedEach(Raised(ts, s))
  {
    assert forall i | 0 <= i < |ts| :: ts[i].status == New ==> IsOpen(ts[i].status);
  }

  // However often the monitor runs, and whatever tickets others create, a
  // client has at most one unattended alert that the monitor raised.
  lemma {:induction false} OneRaisedAlertPerClient(es: seq<Event>)
    ensures OneRaisedEach(After(es))
  {
    if es == [] {
    } else {
      OneRaisedAlertPerClient(es[..|es| - 1]);
      if es[|es| - 1].Raise? {
        RaiseKeepsOneEach(After(es[..|es| - 1]), es[|es| - 1].s);
      }
    }
  }

  // No ticket created from outside bears the monitor's subject.
  predicate NoImitations(es: seq<Event>) {
    forall e | e in es :: e.Create? ==> !e.alert
  }

  ghost predicate OneNewAlertEach(ts: seq<Ticket>) {
    forall i, j | 0 <= i < j < |ts| ::
      ts[i].alert && ts[j].alert && ts[i].status == New && ts[j].status == New ==> ts[i].client != ts[j].client
  }

  predicate AlertsAreLinked(ts: seq<Ticket>) {
    forall i | 0 <= i < |ts| :: ts[i].alert ==> ts[i].client.Some?
  }

  // Then a client has at most one unattended alert altogether.
  lemma {:induction false} OneUnattendedAlertPerClient(es: seq<Event>)
    requires NoImitations(es)
    ensures OneNewAlertEach(After(es)) && AlertsAreLinked(After(es))
  {
    if es == [] {
    } else {
      var (before, e) := (es[..|es| - 1], es[|es| - 1]);
      assert forall x | x in before :: x in es;
      assert e in es;
      OneUnattendedAlertPerClient(before);
      StepKeepsOneAlert(After(before), e);
    }
  }

  lemma StepKeepsOneAlert(ts: seq<Ticket>, e: Event)
    requires OneNewAlertEach(ts) && AlertsAreLinked(ts) && (e.Create? ==> !e.alert)
    ensures OneNewAlertEach(Step(ts, e)) && AlertsAreLinked(Step(ts, e))
  {
    match e
    case Raise(s) => assert forall i | 0 <= i < |ts| :: ts[i].status == New ==> IsOpen(ts[i].status);
    case _ =>
  }

  lemma LastClear(ts: seq<Ticket>, sessions: seq<Session>, now: int, note: string)
    requires sessions != []
    ensures var (rest, last) := (sessions[..|sessions| - 1], sessions[|sessions| - 1]);
            var done := Apply(ts, PassClears(rest, now, note));
            Apply(ts, PassClears(sessions, now, note)) ==
            if last.connected && !Stale(last, now) then Cleared(done, last, note) else done
  {
    assert sessions[..|sessions|] == sessions;
    NextClear(ts, sessions, |sessions| - 1, now, note);
  }

  // After a pass no session that stayed connected has an unattended alert.
  lemma {:induction false} ClearsReachEveryTicket(ts: seq<Ticket>, sessions: seq<Session>, now: int, note: string,
                                                  s: Session, id: Id)
    requires s in sessions && s.connected && !Stale(s, now) && id < |ts|
    ensures id < |Apply(ts, PassClears(sessions, now, note))|
    ensures var t := Apply(ts, PassClears(sessions, now, note))[id];
            t.alert && t.status == New ==>
              t.client != Some(s.clientId) && (s.email.Some? && s.email.value != "" ==> t.email != s.email.value)
    decreases |sessions|
  {
    var (rest, last) := (sessions[..|sessions| - 1], sessions[|sessions| - 1]);
    LastClear(ts, sessions, now, note);
    PassKeepsLength(ts, rest, now, note);
    if s in rest {
      ClearsReachEveryTicket(ts, rest, now, note, s, id);
    }
  }

  lemma {:induction false} PassKeepsLength(ts: seq<Ticket>, sessions: seq<Session>, now: int, note: string)
    ensures |Apply(ts, PassClears(sessions, now, note))| == |ts|
  {
    if sessions == [] {
    } else {
      PassKeepsLength(ts, sessions[..|sessions| - 1], now, note);
      LastClear(ts, sessions, now, note);
    }
  }
}
