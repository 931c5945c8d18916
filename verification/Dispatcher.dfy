// One NotificationDispatcher: the run loop with its two flags, and the
// delivery of one claimed row
// (backend/src/notifications/notification-dispatcher.ts).
module Dispatcher {
  import opened Prelude
  import opened Outbox
  import TelegramSender

  const MAX_PER_TICK := 20

  // What happens while the run loop is suspended at one await: how many other
  // tick() calls arrive, and how the awaited operation ends.
  datatype Beat = Beat(
    ticks: nat,
    fails: bool,
    now: int,
    html: Option<string>,                    // None: rendering throws
    replies: seq<TelegramSender.Reply>)

  predicate UsableBeat(b: Beat) {
    |b.replies| >= TelegramSender.SEND_MAX_ATTEMPTS && forall r | r in b.replies :: r.took >= 0.0
  }

  // History of one dispatcher.
  datatype Mark = TickArrived | RunStarted | PassStarted | RunEnded(ok: bool)

  // Is a run active after this history?
  predicate Active(trace: seq<Mark>) {
    if trace == [] then false
    else
      var last := trace[|trace| - 1];
      last.RunStarted? || (!last.RunEnded? && Active(trace[..|trace| - 1]))
  }

  // Runs never overlap: each start finds none active, and passes lie in runs.
  predicate OneRunAtATime(trace: seq<Mark>) {
    forall i | 0 <= i < |trace| ::
      && (trace[i].RunStarted? ==> !Active(trace[..i]))
      && (trace[i].PassStarted? || trace[i].RunEnded? ==> Active(trace[..i]))
  }

  // A tick at position i >= from is followed by a fresh claim pass.
  predicate Served(trace: seq<Mark>, from: nat, i: nat) {
    from <= i < |trace| && trace[i].TickArrived? ==> exists k :: i < k < |trace| && trace[k].PassStarted?
  }

  ghost predicate NoTickLost(trace: seq<Mark>, from: nat) {
    forall i: nat :: Served(trace, from, i)
  }

  lemma Extended(trace: seq<Mark>, m: Mark)
    requires OneRunAtATime(trace)
    requires m.RunStarted? ==> !Active(trace)
    requires m.PassStarted? || m.RunEnded? ==> Active(trace)
    ensures OneRunAtATime(trace + [m])
    ensures Active(trace + [m]) == (m.RunStarted? || (!m.RunEnded? && Active(trace)))
  {
    var longer := trace + [m];
    assert longer[..|trace|] == trace;
    forall i | 0 <= i < |longer|
      ensures (longer[i].RunStarted? ==> !Active(longer[..i]))
           && (longer[i].PassStarted? || longer[i].RunEnded? ==> Active(longer[..i]))
    {
      if i < |trace| {
        assert longer[..i] == trace[..i];
      }
    }
  }

  lemma StillServed(trace: seq<Mark>, from: nat, m: Mark)
    requires m.PassStarted? || (!m.TickArrived? && NoTickLost(trace, from))
    ensures NoTickLost(trace + [m], from)
  {
    var longer := trace + [m];
    forall i: nat ensures Served(longer, from, i) {
      if from <= i < |longer| && longer[i].TickArrived? {
        if m.PassStarted? {
          assert longer[|trace|].PassStarted?;
        } else {
          assert Served(trace, from, i);
          var k :| i < k < |trace| && trace[k].PassStarted?;
          assert longer[k].PassStarted?;
        }
      }
    }
  }

  // The history has grown by one line for each of these rows, in this order.
  predicate Delivered(before: seq<Attempt>, after: seq<Attempt>, ids: seq<Id>) {
    && |after| == |before| + |ids| && after[..|before|] == before
    && forall k | 0 <= k < |ids| :: after[|before| + k].id == ids[k]
  }

  // Every row in processing now was so before, under the same lease.
  predicate NothingHeld(before: map<Id, Row>, after: map<Id, Row>) {
    && after.Keys == before.Keys
    && forall id | id in after && after[id].status == Processing :: after[id] == before[id]
  }

  lemma DeliveredOn(before: seq<Attempt>, lines: seq<Attempt>, after: seq<Attempt>, ids: seq<Id>, more: seq<Id>)
    requires Delivered(before, lines, ids) && Delivered(lines, after, more)
    ensures Delivered(before, after, ids + more)
  {
    assert after[..|before|] == lines[..|before|];
    forall k | 0 <= k < |ids| + |more|
      ensures after[|before| + k].id == (ids + more)[k]
    {
      if k < |ids| {
        assert after[|before| + k] == lines[|before| + k];
      } else {
        assert after[|lines| + (k - |ids|)].id == more[k - |ids|];
      }
    }
  }

  lemma HeldThrough(before: map<Id, Row>, rows: map<Id, Row>, after: map<Id, Row>)
    requires NothingHeld(before, rows) && NothingHeld(rows, after)
    ensures NothingHeld(before, after)
  {
  }

  // One round of a pass: no row, one delivered, an exception, or suspended.
  datatype Round = NoRow | Done | Threw | Waits

  datatype PassEnd = Drained | Broken | Suspended

  class NotificationDispatcher {
    var running: bool
    var rerun: bool
    const table: OutboxTable
    const configured: bool
    ghost var trace: seq<Mark>

    ghost predicate Valid()
      reads this
    {
      OneRunAtATime(trace) && (running <==> Active(trace))
    }

    constructor (table: OutboxTable, configured: bool)
      ensures Valid() && !running && trace == [] && this.table == table && this.configured == configured
    {
      this.table, this.configured := table, configured;
      running, rerun, trace := false, false, [];
    }

    // The part of tick() before its first await. True: the caller is to run.
    method Enter() returns (begin: bool)
      requires Valid()
      modifies this
      ensures Valid()
      ensures begin <==> !old(running) && configured
      ensures running == (old(running) || configured)
      ensures old(running) ==> rerun && trace == old(trace) + [TickArrived]
      ensures !old(running) ==> rerun == old(rerun)
      ensures begin ==> trace == old(trace) + [TickArrived, RunStarted]
      ensures !old(running) && !configured ==> trace == old(trace) + [TickArrived]
    {
      Extended(trace, TickArrived);
      trace := trace + [TickArrived];
      if running {
        rerun := true;
        return false;
      }
      if !configured {
        return false;
      }
      Extended(trace, RunStarted);
      assert trace + [RunStarted] == old(trace) + [TickArrived, RunStarted];
      running := true;
      trace := trace + [RunStarted];
      return true;
    }

    // Suspended at an await of the active run: other calls of tick() come in.
    method Await(ticks: nat, ghost from: nat)
      requires Valid() && running
      requires NoTickLost(trace, from) || rerun
      modifies this
      ensures Valid() && running
      ensures NoTickLost(trace, from) || rerun
      ensures ticks == 0 ==> trace == old(trace) && rerun == old(rerun)
      ensures |old(trace)| <= |trace| && trace[..|old(trace)|] == old(trace)
    {
      for i := 0 to ticks
        invariant Valid() && running
        invariant NoTickLost(trace, from) || rerun
        invariant i == 0 ==> trace == old(trace) && rerun == old(rerun)
        invariant |old(trace)| <= |trace| && trace[..|old(trace)|] == old(trace)
      {
        var _ := Enter();
      }
    }

    // One claimed row: abandoned, or sent and recorded.
    method Deliver(row: ClaimedRow, html: Option<string>, replies: seq<TelegramSender.Reply>, start: real, now: int)
      returns (committed: bool, report: SendReport, outcome: Outcome, ghost calls: seq<TelegramSender.Call>)
      requires row.attempts >= 1
      requires |replies| >= TelegramSender.SEND_MAX_ATTEMPTS && forall r | r in replies :: r.took >= 0.0
      modifies table
      ensures outcome == if row.attempts > row.maxAttempts then OutFailed else OutcomeOf(row, report.ok)
      ensures row.attempts > row.maxAttempts ==> report == SendReport(false, 0, Some("abandoned"))
      ensures row.attempts <= row.maxAttempts && html.None? ==> report == SendReport(false, 0, Some("render_error"))
      ensures report.httpAttempts <= TelegramSender.SEND_MAX_ATTEMPTS
      ensures report.ok ==> row.attempts <= row.maxAttempts && html.Some? && report.httpAttempts >= 1
      ensures committed <==> row.id in old(table.rows)
      ensures !committed ==> table.rows == old(table.rows)
      ensures committed ==>
                && table.rows == old(table.rows)[row.id :=
                     Recorded(old(table.rows)[row.id], row, outcome, if report.ok then None else report.errorCode, now)]
                && table.attempts == old(table.attempts) + [Attempt(row.id, outcome, report.httpAttempts, now)]
      // a row within its attempts is sent once, and ends as that send ended
      ensures row.attempts <= row.maxAttempts && html.Some? && configured ==>
                && TelegramSender.ValidCalls(html.value, start, calls) && |calls| == report.httpAttempts
                && (report.ok <==> exists i | 0 <= i < |calls| ::
                                     replies[i].took < calls[i].timeout && replies[i].error.None?)
      ensures outcome == OutSent <==> report.ok
      ensures outcome == OutSent ==>
                configured && html.Some? && exists k | 0 <= k < report.httpAttempts :: replies[k].error.None?
      ensures outcome == OutRetry <==> !report.ok && row.attempts < row.maxAttempts
      ensures outcome == OutFailed <==> !report.ok && row.attempts >= row.maxAttempts
      // the recorded row is out of processing, and only that row has changed
      ensures committed ==>
                && table.rows.Keys == old(table.rows).Keys
                && table.rows[row.id].status ==
                   (match outcome case OutSent => Sent case OutRetry => Pending case OutFailed => Failed)
                && forall id | id in table.rows && id != row.id :: table.rows[id] == old(table.rows)[id]
    {
      calls := [];
      if row.attempts > row.maxAttempts {
        report, outcome := SendReport(false, 0, Some("abandoned")), OutFailed;
        committed := table.Record(row, report, outcome, now);
        return;
      }
      match html {
        case None =>
          report := SendReport(false, 0, Some("render_error"));
        case Some(text) =>
          var result, made, end := TelegramSender.Send(configured, text, start, replies);
          calls := made;
          report := SendReport(result.ok, result.httpAttempts, result.errorCode);
      }
      outcome := if report.ok then OutSent else if row.attempts >= row.maxAttempts then OutFailed else OutRetry;
      committed := table.Record(row, report, outcome, now);
    }

    // The delivery of a row just claimed: its line in the history, and what
    // the line says.
    method DeliverClaimed(row: ClaimedRow, b: Beat) returns (committed: bool)
      requires UsableBeat(b) && row.attempts >= 1 && row.id in table.rows
      modifies table
      ensures committed && table.rows.Keys == old(table.rows).Keys && table.rows[row.id].status != Processing
      ensures forall id | id in table.rows && id != row.id :: table.rows[id] == old(table.rows)[id]
      ensures |table.attempts| == |old(table.attempts)| + 1 && old(table.attempts) <= table.attempts
      ensures var line := table.attempts[|old(table.attempts)|];
              && line.id == row.id && line.at == b.now && line.httpAttempts <= 3
              && (line.outcome == OutSent ==>
                    && configured && b.html.Some?
                    && exists k | 0 <= k < line.httpAttempts :: k < |b.replies| && b.replies[k].error.None?)
    {
      var report, outcome;
      ghost var calls;
      committed, report, outcome, calls := Deliver(row, b.html, b.replies, b.now as real, b.now);
    }

    // Claim, and deliver what was claimed.
    method ClaimAndDeliver(beats: seq<Beat>, at: nat, ghost from: nat)
      returns (beat: nat, round: Round, ghost ids: seq<Id>)
      requires Valid() && running && at < |beats|
      requires forall b | b in beats :: UsableBeat(b)
      requires NoTickLost(trace, from) || rerun
      modifies this, table
      ensures Valid() && running && at < beat <= |beats|
      ensures NoTickLost(trace, from) || rerun
      ensures old(trace) <= trace
      ensures Delivered(old(table.attempts), table.attempts, ids)
      ensures round == Done ==> |ids| == 1
      ensures round == Threw ==> |ids| <= 1
      ensures round == NoRow || round == Waits ==> ids == []
      ensures round == NoRow ==>
                table.rows == old(table.rows)
                && forall id | id in table.rows :: !Claimable(table.rows[id], beats[beat - 1].now)
      ensures round == Done ==> NothingHeld(old(table.rows), table.rows)
      // what is recorded as sent was answered in that delivery
      ensures ids != [] ==>
                var (line, b) := (table.attempts[|table.attempts| - 1], beats[beat - 1]);
                && line.at == b.now && line.httpAttempts <= 3
                && (line.outcome == OutSent ==>
                      && configured && b.html.Some?
                      && exists k | 0 <= k < line.httpAttempts :: k < |b.replies| && b.replies[k].error.None?)
    {
      ids := [];
      var b := beats[at];
      beat := at + 1;
      Await(b.ticks, from);
      if b.fails {
        round := Threw;
        return;
      }
      var row := table.Claim(b.now);
      if row.None? {
        round := NoRow;
        return;
      }
      if beat == |beats| {
        round := Waits;
        return;
      }
      b := beats[beat];
      beat := beat + 1;
      Await(b.ticks, from);
      assert UsableBeat(b);
      var committed := DeliverClaimed(row.value, b);
      ids := [row.value.id];
      round := if b.fails || !committed then Threw else Done;
    }

    // Up to MAX_PER_TICK claims, each delivered. A pass ends drained, broken
    // off by an exception, or suspended when the beats run out.
    method Pass(beats: seq<Beat>, start: nat, ghost from: nat)
      returns (beat: nat, handled: nat, end: PassEnd, ghost claimed: seq<Id>)
      requires Valid() && running && start <= |beats|
      requires forall b | b in beats :: UsableBeat(b)
      requires NoTickLost(trace, from) || rerun
      modifies this, table
      ensures Valid() && running && start <= beat <= |beats|
      ensures end == Drained ==> beat > start
      ensures handled <= MAX_PER_TICK
      ensures NoTickLost(trace, from) || rerun
      ensures old(trace) <= trace
      // every handled row has its line in the history, in the order of the claims
      ensures Delivered(old(table.attempts), table.attempts, claimed)
      ensures handled <= |claimed| <= handled + 1 && (end != Broken ==> |claimed| == handled)
      // a drained pass leaves no row leased that was not leased before
      ensures end == Drained ==> NothingHeld(old(table.rows), table.rows)
      // and short of its limit it leaves no row that could be claimed
      ensures end == Drained && handled < MAX_PER_TICK ==>
                forall id | id in table.rows :: !Claimable(table.rows[id], beats[beat - 1].now)
    {
      beat, handled, claimed := start, 0, [];
      while handled < MAX_PER_TICK
        invariant Valid() && running && start <= beat <= |beats| && handled <= MAX_PER_TICK
        invariant handled > 0 ==> beat > start
        invariant NoTickLost(trace, from) || rerun
        invariant old(trace) <= trace
        invariant Delivered(old(table.attempts), table.attempts, claimed) && |claimed| == handled
        invariant NothingHeld(old(table.rows), table.rows)
      {
        if beat == |beats| {
          end := Suspended;
          return;
        }
        ghost var (rows, lines) := (table.rows, table.attempts);
        var round;
        ghost var ids;
        beat, round, ids := ClaimAndDeliver(beats, beat, from);
        DeliveredOn(old(table.attempts), lines, table.attempts, claimed, ids);
        claimed := claimed + ids;
        if round == Done {
          HeldThrough(old(table.rows), rows, table.rows);
          handled := handled + 1;
        } else {
          end := if round == NoRow then Drained else if round == Threw then Broken else Suspended;
          return;
        }
      }
      end := Drained;
    }

    ghost method Note(m: Mark)
      requires OneRunAtATime(trace)
      requires m.RunStarted? ==> !Active(trace)
      requires m.PassStarted? || m.RunEnded? ==> Active(trace)
      modifies this`trace
      ensures trace == old(trace) + [m] && OneRunAtATime(trace)
      ensures Active(trace) == (m.RunStarted? || (!m.RunEnded? && Active(old(trace))))
    {
      Extended(trace, m);
      trace := trace + [m];
    }

    // The finally block.
    method Finish(ok: bool, ghost from: nat)
      requires Valid() && running && (ok ==> NoTickLost(trace, from))
      modifies this`running, this`trace
      ensures Valid() && !running && trace == old(trace) + [RunEnded(ok)]
      ensures ok ==> NoTickLost(trace, from)
    {
      if ok {
        StillServed(trace, from, RunEnded(true));
      }
      Note(RunEnded(ok));
      running := false;
    }

    // Passes until one ends without a tick having come in. `last` rows were
    // handled by the last pass, which ended at beat number `beat`.
    method Run(beats: seq<Beat>, ghost from: nat)
      returns (handled: nat, end: PassEnd, ghost claimed: seq<Id>, ghost last: nat, ghost beat: nat)
      requires Valid() && running
      requires forall b | b in beats :: UsableBeat(b)
      modifies this, table
      ensures Valid() && running
      ensures old(trace) <= trace
      ensures end == Drained ==> NoTickLost(trace, from)
      ensures end == Suspended ==> rerun || NoTickLost(trace, from)
      ensures Delivered(old(table.attempts), table.attempts, claimed)
      ensures handled <= |claimed| <= handled + 1 && (end != Broken ==> |claimed| == handled)
      ensures end == Drained ==> NothingHeld(old(table.rows), table.rows)
      ensures end == Drained ==>
                && 0 < beat <= |beats| && last <= handled
                && (last < MAX_PER_TICK ==>
                      forall id | id in table.rows :: !Claimable(table.rows[id], beats[beat - 1].now))
    {
      handled, end, claimed, last, beat := 0, Drained, [], 0, 0;
      var next := 0;
      var again := true;
      while again
        invariant Valid() && running && next <= |beats| && end == Drained && beat == next
        invariant old(trace) <= trace
        invariant !again ==> NoTickLost(trace, from)
        invariant Delivered(old(table.attempts), table.attempts, claimed) && |claimed| == handled
        invariant NothingHeld(old(table.rows), table.rows)
        invariant !again ==>
                    && 0 < beat <= |beats| && last <= handled
                    && (last < MAX_PER_TICK ==>
                          forall id | id in table.rows :: !Claimable(table.rows[id], beats[beat - 1].now))
        decreases |beats| - next, if again then 1 else 0
      {
        rerun := false;
        StillServed(trace, from, PassStarted);
        Note(PassStarted);
        ghost var (rows, lines) := (table.rows, table.attempts);
        var count;
        ghost var ids;
        next, count, end, ids := Pass(beats, next, from);
        DeliveredOn(old(table.attempts), lines, table.attempts, claimed, ids);
        claimed := claimed + ids;
        handled, last, beat := handled + count, count, next;
        if end != Drained {
          return;
        }
        HeldThrough(old(table.rows), rows, table.rows);
        again := rerun;
      }
    }

    // The run and its end, whether it drained or threw.
    method RunAndFinish(beats: seq<Beat>, ghost from: nat)
      returns (handled: nat, done: bool, ghost claimed: seq<Id>, ghost last: nat, ghost beat: nat)
      requires Valid() && running
      requires forall b | b in beats :: UsableBeat(b)
      modifies this, table
      ensures Valid() && (done <==> !running)
      ensures old(trace) <= trace && (done ==> |trace| > |old(trace)| && trace[|trace| - 1].RunEnded?)
      ensures done && trace[|trace| - 1] == RunEnded(true) ==> NoTickLost(trace, from)
      ensures !done ==> rerun || NoTickLost(trace, from)
      ensures Delivered(old(table.attempts), table.attempts, claimed) && handled <= |claimed| <= handled + 1
      ensures done && trace[|trace| - 1] == RunEnded(true) ==>
                && |claimed| == handled && NothingHeld(old(table.rows), table.rows)
                && 0 < beat <= |beats| && last <= handled
                && (last < MAX_PER_TICK ==>
                      forall id | id in table.rows :: !Claimable(table.rows[id], beats[beat - 1].now))
    {
      var end;
      handled, end, claimed, last, beat := Run(beats, from);
      done := end != Suspended;
      if done {
        Finish(end == Drained, from);
      }
    }

    // tick(), driven by the beats of its environment. `done` is false when the
    // beats ran out while the run was still suspended at an await.
    method Tick(beats: seq<Beat>)
      returns (handled: nat, done: bool, ghost claimed: seq<Id>, ghost last: nat, ghost beat: nat)
      requires Valid()
      requires forall b | b in beats :: UsableBeat(b)
      modifies this, table
      ensures Valid()
      ensures old(running) ==> done && handled == 0 && running && rerun
                               && table.rows == old(table.rows) && trace == old(trace) + [TickArrived]
      ensures !old(running) && !configured ==> done && handled == 0 && !running && table.rows == old(table.rows)
      ensures !old(running) && configured ==>
                && |trace| >= |old(trace)| + 2
                && trace[..|old(trace)| + 2] == old(trace) + [TickArrived, RunStarted]
                && (done <==> !running)
                && (done ==> trace[|trace| - 1].RunEnded?)
                && (done && trace[|trace| - 1] == RunEnded(true) ==> NoTickLost(trace, |old(trace)|))
                && (!done ==> rerun || NoTickLost(trace, |old(trace)|))
      // one line of history for each row claimed, in this order; an exception
      // may keep the last one out of the count
      ensures |table.attempts| == |old(table.attempts)| + |claimed|
      ensures table.attempts[..|old(table.attempts)|] == old(table.attempts)
      ensures forall k | 0 <= k < |claimed| :: table.attempts[|old(table.attempts)| + k].id == claimed[k]
      ensures handled <= |claimed| <= handled + 1
      // a run that ends well has delivered all it claimed: no row is left in
      // processing that was not so before, and unless its last pass reached the
      // limit no row could have been claimed when it looked last
      ensures !old(running) && configured && done && trace[|trace| - 1] == RunEnded(true) ==>
                && |claimed| == handled && table.rows.Keys == old(table.rows).Keys
                && (forall id | id in table.rows && table.rows[id].status == Processing ::
                      table.rows[id] == old(table.rows)[id])
                && 0 < beat <= |beats| && last <= handled
                && (last < 20 ==> forall id | id in table.rows ::
                      var (row, now) := (table.rows[id], beats[beat - 1].now);
                      && !(row.status == Pending && row.nextAttemptAt <= now)
                      && !(row.status == Processing && row.lockedUntil.Some? && row.lockedUntil.value < now))
    {
      handled, done, claimed, last, beat := 0, true, [], 0, 0;
      var begin := Enter();
      if begin {
        handled, done, claimed, last, beat := RunAndFinish(beats, |old(trace)|);
      }
    }
  }
}
