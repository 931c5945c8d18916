// Support access to a client's server: grant, connect, revoke, expiry sweep,
// retention hold and purge, and the deletion of servers and users, each as one
// call. Three of them can stop halfway, at a statement that the database
// refuses for its data: a grant at its log or at its audit event, the deletions
// at a server that is still referenced (backend/src/access/access.service.ts,
// backend/src/servers/servers.service.ts, backend/src/users/users.service.ts).
module AccessLifecycle {
  import opened Prelude

  type ServerId = nat
  type LogId = nat
  type UserId = string
  type TicketId = nat

  const MS_PER_MINUTE := 60_000
  const MS_PER_DAY := 24 * 60 * 60 * 1000

  datatype Server = Server(enabled: bool, expiresAt: Option<int>)

  datatype Log = Log(
    server: ServerId,
    grantedBy: UserId,
    createdAt: int,
    grantedAt: int,
    expiresAt: int,
    accessedBy: Option<UserId>,
    connectedAt: Option<int>,
    revokedAt: Option<int>,
    isRevoked: bool,
    password: Option<string>,
    hold: bool)

  // `Lost` is no event: it marks where a GRANTED event would be that the audit
  // trail refused.
  datatype Kind = Granted | Lost | Connected | Revoked | Expired | Activity | Anomaly

  datatype State = State(
    now: int,
    servers: map<ServerId, Server>,
    owners: map<ServerId, UserId>,  // the user of the server's client, if it has one
    tickets: set<TicketId>,
    pinned: set<ServerId>,          // servers that a ticket or a provisioning operation refers to
    logs: map<LogId, Log>,
    trail: seq<(LogId, Kind)>,      // audit events, in order
    issued: set<LogId>)

  datatype ConnectResult = NoSession | Claimed(holder: UserId) | Credentials(password: Option<string>)

  // -------- queries --------

  predicate Open(s: State, id: LogId, server: ServerId) {
    id in s.logs && s.logs[id].server == server && !s.logs[id].isRevoked
  }

  // The log the service takes for the active one: the open log granted last.
  predicate IsNewestOpen(s: State, id: LogId, server: ServerId) {
    Open(s, id, server) && forall other | other in s.logs && Open(s, other, server) ::
                             s.logs[other].grantedAt <= s.logs[id].grantedAt
  }

  ghost function NewestOpen(s: State, server: ServerId): (r: Option<LogId>)
    ensures r.Some? ==> IsNewestOpen(s, r.value, server)
    ensures r.None? ==> forall id | id in s.logs :: !Open(s, id, server)
  {
    var open := set id | id in s.logs && Open(s, id, server);
    if open == {} then
      assert forall id | id in s.logs && Open(s, id, server) :: id in open;
      None
    else
      NewestExists(s, open, server);
      var id :| id in s.logs && IsNewestOpen(s, id, server);
      Some(id)
  }

  lemma {:induction false} LatestOf(s: State, ids: set<LogId>) returns (id: LogId)
    requires ids != {} && ids <= s.logs.Keys
    ensures id in ids && forall other | other in ids :: s.logs[other].grantedAt <= s.logs[id].grantedAt
    decreases |ids|
  {
    var x :| x in ids;
    var rest := ids - {x};
    if rest == {} {
      id := x;
      assert ids == {x};
    } else {
      var y := LatestOf(s, rest);
      id := if s.logs[y].grantedAt < s.logs[x].grantedAt then x else y;
      forall other | other in ids ensures s.logs[other].grantedAt <= s.logs[id].grantedAt {
        assert other == x || other in rest;
      }
    }
  }

  lemma NewestExists(s: State, open: set<LogId>, server: ServerId)
    requires open != {} && open == set id | id in s.logs && Open(s, id, server)
    ensures exists id :: id in s.logs && IsNewestOpen(s, id, server)
  {
    var id := LatestOf(s, open);
    assert IsNewestOpen(s, id, server);
  }

  // -------- the calls --------

  // Strings come as UTF-16 code units, and not every pair of them is complete.
  type CodeUnit = n: int | 0 <= n < 0x1_0000

  predicate High(u: CodeUnit) { 0xD800 <= u < 0xDC00 }
  predicate Low(u: CodeUnit) { 0xDC00 <= u < 0xE000 }
  predicate StartsPair(d: seq<CodeUnit>) { |d| >= 2 && High(d[0]) && Low(d[1]) }

  function Characters(d: seq<CodeUnit>): nat {
    if d == [] then 0 else 1 + Characters(if StartsPair(d) then d[2..] else d[1..])
  }

  predicate WellFormed(d: seq<CodeUnit>) {
    d == [] || (if StartsPair(d) then WellFormed(d[2..]) else !High(d[0]) && !Low(d[0]) && WellFormed(d[1..]))
  }

  // What a grant asks for, with the password drawn for it.
  datatype Request = Request(
    minutes: int, password: string, grantedBy: UserId, ticket: Option<TicketId>,
    details: Option<seq<CodeUnit>>)

  datatype Op =
    | AddServer(id: ServerId, owner: Option<UserId>)
    | DeleteServer(id: ServerId)
    | DeleteUser(user: UserId)
    | FileTicket(ticket: TicketId, about: Option<ServerId>)
    | BindOperation(server: ServerId)
    | Grant(server: ServerId, id: LogId, request: Request)
    | Connect(server: ServerId, user: UserId)
    | Revoke(server: ServerId, expired: bool)
    | Sweep(order: seq<ServerId>)
    | Hold(id: LogId, hold: bool)
    | Purge(days: nat)
    | Note(id: LogId, anomaly: bool)       // activity log or security anomaly

  // Complete calls take time: each one starts after the previous one's instant.
  predicate Enabled(s: State, op: Op, at: int) {
    && at > s.now
    && match op
       case AddServer(id, _) => id !in s.servers
       case FileTicket(ticket, about) => ticket !in s.tickets && (about.Some? ==> about.value in s.servers)
       case BindOperation(about) => about in s.servers
       case Grant(_, id, _) => id !in s.issued
       case Sweep(order) => forall id | id in s.servers :: id in order
       case _ => true
  }

  function SetAccess(s: State, server: ServerId, access: Server): State {
    if server in s.servers then s.(servers := s.servers[server := access]) else s
  }

  function Log1(s: State, id: LogId, kind: Kind): State {
    s.(trail := s.trail + [(id, kind)])
  }

  const REASON_DETAILS_LENGTH := 280

  // Whether the database takes the log of this grant: its ticket exists, and
  // its details fit their column.
  predicate Storable(s: State, r: Request) {
    && (r.ticket.None? || r.ticket.value in s.tickets)
    && (r.details.None? || (Characters(r.details.value) <= REASON_DETAILS_LENGTH && 0 !in r.details.value))
  }

  // Whether it takes the audit event, whose metadata repeat the details: a
  // jsonb column refuses the escape of half a surrogate pair, which the log's
  // own column stores as a replacement character.
  predicate Loggable(r: Request) {
    r.details.None? || WellFormed(r.details.value)
  }

  function ExpiryOf(r: Request, now: int): int {
    now + r.minutes * MS_PER_MINUTE
  }

  // The access columns are written before the log is stored.
  function OpenColumns(s: State, server: ServerId, r: Request): State {
    SetAccess(s, server, Server(true, Some(ExpiryOf(r, s.now))))
  }

  // The log, and then its event.
  function StoreLog(s: State, server: ServerId, id: LogId, r: Request): State {
    var log := Log(server, r.grantedBy, s.now, s.now, ExpiryOf(r, s.now), None, None, None,
                   false, Some(r.password), false);
    var stored := s.(logs := s.logs[id := log], issued := s.issued + {id});
    Log1(stored, id, if Loggable(r) then Granted else Lost)
  }

  function DoGrant(s: State, server: ServerId, id: LogId, r: Request): State {
    // An unknown server: nothing is updated and the lookup throws.
    if server !in s.servers then s
    else
      var enabled := OpenColumns(s, server, r);
      if Storable(s, r) then StoreLog(enabled, server, id, r) else enabled
  }

  function Closed(log: Log, at: int): Log {
    log.(isRevoked := true, revokedAt := Some(at), password := None)
  }

  // Every open log of the server is closed; only the newest gets an event.
  ghost function DoRevoke(s: State, server: ServerId, expired: bool): State {
    var active := NewestOpen(s, server);
    var logs := map id | id in s.logs :: if Open(s, id, server) then Closed(s.logs[id], s.now) else s.logs[id];
    var s1 := SetAccess(s, server, Server(false, None)).(logs := logs);
    if active.Some? then Log1(s1, active.value, if expired then Expired else Revoked) else s1
  }

  ghost function ConnectAnswer(s: State, server: ServerId, user: UserId): ConnectResult {
    var active := NewestOpen(s, server);
    if active.None? then NoSession
    else
      var log := s.logs[active.value];
      if log.accessedBy.Some? && log.accessedBy.value != user then Claimed(log.accessedBy.value)
      else Credentials(log.password)
  }

  ghost function DoConnect(s: State, server: ServerId, user: UserId): State {
    var active := NewestOpen(s, server);
    if active.None? then s
    else
      var log := s.logs[active.value];
      if log.accessedBy.Some? && log.accessedBy.value != user then s
      else if log.connectedAt.Some? then s
      else Log1(s.(logs := s.logs[active.value := log.(accessedBy := Some(user), connectedAt := Some(s.now))]),
                active.value, Connected)
  }

  predicate Overdue(server: Server, now: int) {
    server.enabled && server.expiresAt.Some? && server.expiresAt.value < now
  }

  // The sweep decides on the servers as they were when it read them.
  ghost function DoSweep(s: State, read: map<ServerId, Server>, order: seq<ServerId>): State
    decreases |order|
  {
    if order == [] then s
    else
      var rest := DoSweep(s, read, order[..|order| - 1]);
      var id := order[|order| - 1];
      if id in read && Overdue(read[id], s.now) then DoRevoke(rest, id, true) else rest
  }

  predicate Purgeable(log: Log, cutoff: int) {
    log.isRevoked && !log.hold && log.createdAt < cutoff
  }

  function DoHold(s: State, id: LogId, hold: bool): State {
    if id in s.logs then s.(logs := s.logs[id := s.logs[id].(hold := hold)]) else s
  }

  function DoPurge(s: State, days: nat): State {
    s.(logs := map id | id in s.logs && !Purgeable(s.logs[id], s.now - days * MS_PER_DAY) :: s.logs[id])
  }

  function DoAddServer(s: State, id: ServerId, owner: Option<UserId>): State {
    s.(servers := s.servers[id := Server(false, None)],
       owners := if owner.Some? then s.owners[id := owner.value] else s.owners - {id})
  }

  function DoFileTicket(s: State, ticket: TicketId, about: Option<ServerId>): State {
    s.(tickets := s.tickets + {ticket}, pinned := if about.Some? then s.pinned + {about.value} else s.pinned)
  }

  function DoBindOperation(s: State, about: ServerId): State {
    s.(pinned := s.pinned + {about})
  }

  // The logs of the server go first; then the server, unless it is referenced.
  function DoDeleteServer(s: State, id: ServerId): State {
    var cleared := s.(logs := map x | x in s.logs && s.logs[x].server != id :: s.logs[x]);
    if id in s.pinned then cleared
    else cleared.(servers := s.servers - {id}, owners := s.owners - {id})
  }

  predicate Touches(log: Log, user: UserId) {
    log.grantedBy == user || log.accessedBy == Some(user)
  }

  predicate Owns(s: State, user: UserId, server: ServerId) {
    server in s.owners && s.owners[server] == user
  }

  // One of the user's servers is referenced, so their deletion is refused.
  predicate Blocked(s: State, user: UserId) {
    exists v | v in s.pinned :: v in s.servers && Owns(s, user, v)
  }

  function ClearOwned(s: State, user: UserId): State {
    s.(logs := map x | x in s.logs && !Owns(s, user, s.logs[x].server) :: s.logs[x])
  }

  // The user's own servers go with their logs, and so does every log that the
  // user granted or connected to, open or not. No other server is touched.
  function EraseUser(s: State, user: UserId): State {
    s.(servers := map v | v in s.servers && !Owns(s, user, v) :: s.servers[v],
       owners := map v | v in s.owners && s.owners[v] != user :: s.owners[v],
       logs := map x | x in s.logs && !Owns(s, user, s.logs[x].server) && !Touches(s.logs[x], user) :: s.logs[x])
  }

  // A refusal comes after the logs of the user's own servers are gone.
  function DoDeleteUser(s: State, user: UserId): State {
    if Blocked(s, user) then ClearOwned(s, user) else EraseUser(s, user)
  }

  ghost function Step(s: State, op: Op, at: int): State
    requires Enabled(s, op, at)
  {
    var s := s.(now := at);
    match op
    case AddServer(id, owner) => DoAddServer(s, id, owner)
    case DeleteServer(id) => DoDeleteServer(s, id)
    case DeleteUser(user) => DoDeleteUser(s, user)
    case FileTicket(ticket, about) => DoFileTicket(s, ticket, about)
    case BindOperation(about) => DoBindOperation(s, about)
    case Grant(server, id, request) => DoGrant(s, server, id, request)
    case Connect(server, user) => DoConnect(s, server, user)
    case Revoke(server, expired) => DoRevoke(s, server, expired)
    case Sweep(order) => DoSweep(s, s.servers, order)
    case Hold(id, hold) => DoHold(s, id, hold)
    case Purge(days) => DoPurge(s, days)
    case Note(id, anomaly) => Log1(s, id, if anomaly then Anomaly else Activity)
  }

  // -------- what every sequence of calls keeps --------

  // The lifecycle events of one log.
  function TrailOf(trail: seq<(LogId, Kind)>, id: LogId): seq<Kind> {
    if trail == [] then []
    else
      var (last, kind) := trail[|trail| - 1];
      TrailOf(trail[..|trail| - 1], id)
      + (if last == id && kind != Activity && kind != Anomaly then [kind] else [])
  }

  predicate Terminal(k: Kind) { k == Revoked || k == Expired }

  predicate Initial(k: Kind) { k == Granted || k == Lost }

  // GRANTED, or the mark of its loss, at most one CONNECTED, then at most one
  // REVOKED or EXPIRED.
  predicate Lifecycle(t: seq<Kind>) {
    && 1 <= |t| <= 3 && Initial(t[0])
    && (|t| == 2 ==> t[1] == Connected || Terminal(t[1]))
    && (|t| == 3 ==> t[1] == Connected && Terminal(t[2]))
  }

  ghost predicate LogOk(s: State, id: LogId)
    requires id in s.logs
  {
    var log, t := s.logs[id], TrailOf(s.trail, id);
    && id in s.issued && log.server in s.servers && log.grantedAt <= s.now
    && (!log.isRevoked ==> s.servers[log.server].enabled)
    && (log.isRevoked <==> log.password.None?)
    && (log.isRevoked <==> log.revokedAt.Some?)
    && (log.accessedBy.Some? <==> log.connectedAt.Some?)
    && (log.accessedBy.Some? <==> Connected in t)
    && (!log.isRevoked ==> |t| == 1 || (|t| == 2 && t[1] == Connected))
  }

  ghost predicate LogsOk(s: State) {
    forall id | id in s.logs :: LogOk(s, id)
  }

  predicate FlagsOk(s: State) {
    forall server | server in s.servers :: s.servers[server].enabled <==> s.servers[server].expiresAt.Some?
  }

  ghost predicate GrantsApart(s: State) {
    forall a, b | a in s.logs && b in s.logs && a != b :: s.logs[a].grantedAt != s.logs[b].grantedAt
  }

  ghost predicate TrailsOk(s: State) {
    forall id: LogId :: TrailOk(s, id)
  }

  ghost predicate Inv(s: State) {
    LogsOk(s) && GrantsApart(s) && FlagsOk(s) && TrailsOk(s)
  }

  lemma TrailGrows(trail: seq<(LogId, Kind)>, id: LogId, kind: Kind, x: LogId)
    ensures TrailOf(trail + [(id, kind)], x)
         == TrailOf(trail, x) + (if id == x && kind != Activity && kind != Anomaly then [kind] else [])
  {
    assert (trail + [(id, kind)])[..|trail|] == trail;
  }

  ghost predicate TrailOk(s: State, x: LogId) {
    if x in s.issued then Lifecycle(TrailOf(s.trail, x)) else TrailOf(s.trail, x) == []
  }

  lemma OpenColumnsKeeps(s: State, server: ServerId, r: Request)
    requires Inv(s) && server in s.servers
    ensures Inv(OpenColumns(s, server, r))
  {
    var s' := OpenColumns(s, server, r);
    forall x: LogId ensures TrailOk(s', x) && (x in s'.logs ==> LogOk(s', x)) {
      assert TrailOk(s, x) && (x in s.logs ==> LogOk(s, x));
    }
    Together(s, s');
  }

  lemma StoreKeepsLog(s: State, server: ServerId, id: LogId, r: Request, x: LogId)
    requires TrailOk(s, x) && (x in s.logs ==> LogOk(s, x)) && id !in s.issued
    requires server in s.servers && s.servers[server].enabled
    ensures var s' := StoreLog(s, server, id, r);
            TrailOk(s', x) && (x in s'.logs ==> LogOk(s', x))
  {
    TrailGrows(s.trail, id, if Loggable(r) then Granted else Lost, x);
    if x == id {
      assert TrailOf(s.trail, x) == [];
    }
  }

  lemma StoreLogKeeps(s: State, server: ServerId, id: LogId, r: Request)
    requires Inv(s) && id !in s.issued && forall x | x in s.logs :: s.logs[x].grantedAt < s.now
    requires server in s.servers && s.servers[server].enabled
    ensures Inv(StoreLog(s, server, id, r))
  {
    var s' := StoreLog(s, server, id, r);
    assert id in s.logs ==> LogOk(s, id);
    forall x: LogId ensures TrailOk(s', x) && (x in s'.logs ==> LogOk(s', x)) {
      StoreKeepsLog(s, server, id, r, x);
    }
  }

  lemma GrantKeeps(s: State, server: ServerId, id: LogId, r: Request)
    requires Inv(s) && id !in s.issued && forall x | x in s.logs :: s.logs[x].grantedAt < s.now
    ensures Inv(DoGrant(s, server, id, r))
  {
    if server in s.servers {
      OpenColumnsKeeps(s, server, r);
      if Storable(s, r) {
        StoreLogKeeps(OpenColumns(s, server, r), server, id, r);
      }
    }
  }

  lemma RevokeGrowsTrail(s: State, server: ServerId, expired: bool, x: LogId)
    ensures TrailOf(DoRevoke(s, server, expired).trail, x)
         == TrailOf(s.trail, x)
            + if NewestOpen(s, server) == Some(x) then [if expired then Expired else Revoked] else []
  {
    var active := NewestOpen(s, server);
    if active.Some? {
      TrailGrows(s.trail, active.value, if expired then Expired else Revoked, x);
    }
  }

  lemma RevokeKeepsLog(s: State, server: ServerId, expired: bool, x: LogId)
    requires TrailOk(s, x) && (x in s.logs ==> LogOk(s, x))
    ensures var s' := DoRevoke(s, server, expired);
            TrailOk(s', x) && (x in s'.logs ==> LogOk(s', x))
  {
    RevokeGrowsTrail(s, server, expired, x);
  }

  // The same rows, or fewer, with the grant times they had.
  ghost predicate SameGrants(s: State, s': State) {
    forall x | x in s'.logs :: x in s.logs && s'.logs[x].grantedAt == s.logs[x].grantedAt
  }

  lemma Together(s: State, s': State)
    requires GrantsApart(s) && SameGrants(s, s')
    requires TrailsOk(s') && LogsOk(s') && FlagsOk(s')
    ensures Inv(s')
  {
  }

  lemma RevokeFrame(s: State, server: ServerId, expired: bool)
    ensures var s' := DoRevoke(s, server, expired);
            && SameGrants(s, s') && (FlagsOk(s) ==> FlagsOk(s'))
            && s'.servers.Keys == s.servers.Keys && s'.issued == s.issued && s'.now == s.now
  {
  }

  lemma RevokeKeepsLogs(s: State, server: ServerId, expired: bool)
    requires Inv(s)
    ensures TrailsOk(DoRevoke(s, server, expired)) && LogsOk(DoRevoke(s, server, expired))
  {
    var s' := DoRevoke(s, server, expired);
    forall x: LogId ensures TrailOk(s', x) && (x in s'.logs ==> LogOk(s', x)) {
      RevokeKeepsLog(s, server, expired, x);
    }
  }

  lemma RevokeKeeps(s: State, server: ServerId, expired: bool)
    requires Inv(s)
    ensures Inv(DoRevoke(s, server, expired))
  {
    RevokeFrame(s, server, expired);
    RevokeKeepsLogs(s, server, expired);
    Together(s, DoRevoke(s, server, expired));
  }

  // The row of a first connect, with its event.
  function Bound(s: State, id: LogId, user: UserId): State
    requires id in s.logs
  {
    Log1(s.(logs := s.logs[id := s.logs[id].(accessedBy := Some(user), connectedAt := Some(s.now))]), id, Connected)
  }

  lemma BoundKeepsLog(s: State, id: LogId, user: UserId, x: LogId)
    requires id in s.logs && !s.logs[id].isRevoked && s.logs[id].connectedAt.None?
    requires TrailOk(s, x) && (x in s.logs ==> LogOk(s, x))
    ensures var s' := Bound(s, id, user);
            TrailOk(s', x) && (x in s'.logs ==> LogOk(s', x))
  {
    TrailGrows(s.trail, id, Connected, x);
  }

  lemma ConnectIsBinding(s: State, server: ServerId, user: UserId)
    ensures var active := NewestOpen(s, server);
            DoConnect(s, server, user) == s || (
              && active.Some? && s.logs[active.value].connectedAt.None?
              && DoConnect(s, server, user) == Bound(s, active.value, user))
  {
  }

  lemma ConnectKeepsLog(s: State, server: ServerId, user: UserId, x: LogId)
    requires TrailOk(s, x) && (x in s.logs ==> LogOk(s, x))
    ensures var s' := DoConnect(s, server, user);
            TrailOk(s', x) && (x in s'.logs ==> LogOk(s', x))
  {
    ConnectIsBinding(s, server, user);
    if DoConnect(s, server, user) != s {
      BoundKeepsLog(s, NewestOpen(s, server).value, user, x);
    }
  }

  lemma ConnectKeepsLogs(s: State, server: ServerId, user: UserId)
    requires Inv(s)
    ensures var s' := DoConnect(s, server, user);
            TrailsOk(s') && LogsOk(s')
  {
    var s' := DoConnect(s, server, user);
    forall x: LogId ensures TrailOk(s', x) && (x in s'.logs ==> LogOk(s', x)) {
      ConnectKeepsLog(s, server, user, x);
    }
  }

  lemma ConnectKeepsGrants(s: State, server: ServerId, user: UserId)
    ensures SameGrants(s, DoConnect(s, server, user))
  {
  }

  lemma ConnectKeeps(s: State, server: ServerId, user: UserId)
    requires Inv(s)
    ensures Inv(DoConnect(s, server, user))
  {
    ConnectKeepsLogs(s, server, user);
    ConnectKeepsGrants(s, server, user);
    Together(s, DoConnect(s, server, user));
  }

  lemma {:induction false} SweepKeeps(s: State, read: map<ServerId, Server>, order: seq<ServerId>)
    requires Inv(s)
    ensures Inv(DoSweep(s, read, order))
    ensures DoSweep(s, read, order).now == s.now
    decreases |order|
  {
    if order == [] {
    } else {
      SweepKeeps(s, read, order[..|order| - 1]);
      RevokeKeeps(DoSweep(s, read, order[..|order| - 1]), order[|order| - 1], true);
    }
  }

  // Fewer rows, other holds, new closed servers.
  lemma RestKeeps(s: State, s': State)
    requires Inv(s)
    requires s'.now >= s.now && s'.issued == s.issued
    requires forall x: LogId :: TrailOf(s'.trail, x) == TrailOf(s.trail, x)
    requires forall v | v in s'.servers :: s'.servers[v] == if v in s.servers then s.servers[v] else Server(false, None)
    requires forall x | x in s'.logs ::
               x in s.logs && s'.logs[x].(hold := s.logs[x].hold) == s.logs[x] && s.logs[x].server in s'.servers
    ensures Inv(s')
  {
    forall x: LogId ensures TrailOk(s', x) && (x in s'.logs ==> LogOk(s', x)) {
      assert TrailOk(s, x) && (x in s.logs ==> LogOk(s, x));
    }
    assert SameGrants(s, s');
    Together(s, s');
  }

  lemma TimeKeeps(s: State, at: int)
    requires Inv(s) && at > s.now
    ensures Inv(s.(now := at))
    ensures forall x | x in s.logs :: s.logs[x].grantedAt < at
  {
    assert forall x | x in s.logs :: LogOk(s, x);
    RestKeeps(s, s.(now := at));
  }

  lemma NoteKeeps(s: State, id: LogId, kind: Kind)
    requires Inv(s) && (kind == Activity || kind == Anomaly)
    ensures Inv(Log1(s, id, kind))
  {
    forall x: LogId ensures TrailOf(Log1(s, id, kind).trail, x) == TrailOf(s.trail, x) {
      TrailGrows(s.trail, id, kind, x);
    }
    assert forall x | x in s.logs :: LogOk(s, x);
    RestKeeps(s, Log1(s, id, kind));
  }

  lemma AddServerKeeps(s: State, id: ServerId, owner: Option<UserId>)
    requires Inv(s) && id !in s.servers
    ensures Inv(DoAddServer(s, id, owner))
  {
    assert forall x | x in s.logs :: LogOk(s, x);
    RestKeeps(s, DoAddServer(s, id, owner));
  }

  lemma FileTicketKeeps(s: State, ticket: TicketId, about: Option<ServerId>)
    requires Inv(s)
    ensures Inv(DoFileTicket(s, ticket, about))
  {
    assert forall x | x in s.logs :: LogOk(s, x);
    RestKeeps(s, DoFileTicket(s, ticket, about));
  }

  lemma BindOperationKeeps(s: State, about: ServerId)
    requires Inv(s)
    ensures Inv(DoBindOperation(s, about))
  {
    assert forall x | x in s.logs :: LogOk(s, x);
    RestKeeps(s, DoBindOperation(s, about));
  }

  lemma DeleteServerKeeps(s: State, id: ServerId)
    requires Inv(s)
    ensures Inv(DoDeleteServer(s, id))
  {
    assert forall x | x in s.logs :: LogOk(s, x);
    RestKeeps(s, DoDeleteServer(s, id));
  }

  lemma DeleteUserKeeps(s: State, user: UserId)
    requires Inv(s)
    ensures Inv(DoDeleteUser(s, user))
  {
    assert forall x | x in s.logs :: LogOk(s, x);
    RestKeeps(s, DoDeleteUser(s, user));
  }

  lemma HoldKeeps(s: State, id: LogId, hold: bool)
    requires Inv(s)
    ensures Inv(DoHold(s, id, hold))
  {
    assert forall x | x in s.logs :: LogOk(s, x);
    RestKeeps(s, DoHold(s, id, hold));
  }

  lemma PurgeKeeps(s: State, days: nat)
    requires Inv(s)
    ensures Inv(DoPurge(s, days))
  {
    assert forall x | x in s.logs :: LogOk(s, x);
    RestKeeps(s, DoPurge(s, days));
  }

  lemma StepKeepsInv(s: State, op: Op, at: int)
    requires Inv(s) && Enabled(s, op, at)
    ensures Inv(Step(s, op, at))
  {
    var s0 := s.(now := at);
    TimeKeeps(s, at);
    match op
    case AddServer(id, owner) => AddServerKeeps(s0, id, owner);
    case DeleteServer(id) => DeleteServerKeeps(s0, id);
    case DeleteUser(user) => DeleteUserKeeps(s0, user);
    case FileTicket(ticket, about) => FileTicketKeeps(s0, ticket, about);
    case BindOperation(about) => BindOperationKeeps(s0, about);
    case Grant(server, id, request) => GrantKeeps(s0, server, id, request);
    case Connect(server, user) => ConnectKeeps(s0, server, user);
    case Revoke(server, expired) => RevokeKeeps(s0, server, expired);
    case Sweep(order) => SweepKeeps(s0, s0.servers, order);
    case Hold(id, hold) => HoldKeeps(s0, id, hold);
    case Purge(days) => PurgeKeeps(s0, days);
    case Note(id, anomaly) => NoteKeeps(s0, id, if anomaly then Anomaly else Activity);
  }

  // -------- runs --------

  const Empty := State(0, map[], map[], {}, {}, map[], [], {})

  type Call = (Op, int)

  ghost predicate Possible(calls: seq<Call>)
    decreases |calls|, 0
  {
    calls == [] ||
    (Possible(calls[..|calls| - 1])
     && Enabled(After(calls[..|calls| - 1]), calls[|calls| - 1].0, calls[|calls| - 1].1))
  }

  ghost function After(calls: seq<Call>): State
    requires Possible(calls)
    decreases |calls|, 1
  {
    if calls == [] then Empty
    else Step(After(calls[..|calls| - 1]), calls[|calls| - 1].0, calls[|calls| - 1].1)
  }

  lemma {:induction false} RunsKeepInv(calls: seq<Call>)
    requires Possible(calls)
    ensures Inv(After(calls))
    decreases |calls|
  {
    if calls == [] {
      assert forall id: LogId :: TrailOk(Empty, id);
    } else {
      RunsKeepInv(calls[..|calls| - 1]);
      StepKeepsInv(After(calls[..|calls| - 1]), calls[|calls| - 1].0, calls[|calls| - 1].1);
    }
  }

  // Each log's events are GRANTED, at most one CONNECTED, then at most one
  // REVOKED or EXPIRED, with other events in between or after. A log whose
  // grant the audit trail refused lacks its GRANTED, and only that.
  lemma EveryLogHasALifecycle(calls: seq<Call>, id: LogId)
    requires Possible(calls)
    ensures var (s, t) := (After(calls), TrailOf(After(calls).trail, id));
            && (id in s.issued ==> Lifecycle(t))
            && (id !in s.issued ==> t == [])
    ensures id in After(calls).logs ==>
              var log := After(calls).logs[id];
              && id in After(calls).issued
              && (log.isRevoked <==> log.password.None?)
              && (log.accessedBy.Some? <==> Connected in TrailOf(After(calls).trail, id))
  {
    RunsKeepInv(calls);
    assert TrailOk(After(calls), id);
    assert id in After(calls).logs ==> LogOk(After(calls), id);
  }

  predicate IsLost(trail: seq<(LogId, Kind)>, id: LogId) {
    exists i | 0 <= i < |trail| :: trail[i] == (id, Lost)
  }

  lemma LostAdded(trail: seq<(LogId, Kind)>, x: LogId, kind: Kind, id: LogId)
    ensures IsLost(trail + [(x, kind)], id) <==> IsLost(trail, id) || (x == id && kind == Lost)
  {
    var longer := trail + [(x, kind)];
    if i :| 0 <= i < |trail| && trail[i] == (id, Lost) {
      assert longer[i] == trail[i];
    }
    assert longer[|trail|] == (x, kind);
  }

  // The run stored this log and then had its event refused.
  ghost predicate LostItsEvent(calls: seq<Call>, id: LogId)
    requires Possible(calls)
    decreases |calls|
  {
    calls != [] && (
      var (before, op) := (After(calls[..|calls| - 1]), calls[|calls| - 1].0);
      || LostItsEvent(calls[..|calls| - 1], id)
      || (op.Grant? && op.id == id && op.server in before.servers
          && Storable(before, op.request) && !Loggable(op.request)))
  }

  lemma RevokeLosesNone(s: State, server: ServerId, expired: bool, id: LogId)
    ensures IsLost(DoRevoke(s, server, expired).trail, id) <==> IsLost(s.trail, id)
  {
    var active := NewestOpen(s, server);
    if active.Some? {
      LostAdded(s.trail, active.value, if expired then Expired else Revoked, id);
    }
  }

  lemma {:induction false} SweepLosesNone(s: State, read: map<ServerId, Server>, order: seq<ServerId>, id: LogId)
    ensures IsLost(DoSweep(s, read, order).trail, id) <==> IsLost(s.trail, id)
    decreases |order|
  {
    if order == [] {
    } else {
      SweepLosesNone(s, read, order[..|order| - 1], id);
      RevokeLosesNone(DoSweep(s, read, order[..|order| - 1]), order[|order| - 1], true, id);
    }
  }

  lemma StepLoses(s: State, op: Op, at: int, id: LogId)
    requires Enabled(s, op, at)
    ensures IsLost(Step(s, op, at).trail, id) <==>
            || IsLost(s.trail, id)
            || (op.Grant? && op.id == id && op.server in s.servers && Storable(s, op.request) && !Loggable(op.request))
  {
    var s0 := s.(now := at);
    match op
    case Grant(_, x, r) => LostAdded(s.trail, x, if Loggable(r) then Granted else Lost, id);
    case Connect(server, _) =>
      if NewestOpen(s0, server).Some? {
        LostAdded(s.trail, NewestOpen(s0, server).value, Connected, id);
      }
    case Revoke(server, expired) => RevokeLosesNone(s0, server, expired, id);
    case Sweep(order) => SweepLosesNone(s0, s0.servers, order, id);
    case Note(x, anomaly) => LostAdded(s.trail, x, if anomaly then Anomaly else Activity, id);
    case _ =>
  }

  // A log lacks its GRANTED event if and only if its grant named details that
  // the log's column takes and the audit trail refuses.
  lemma {:induction false} LostIff(calls: seq<Call>, id: LogId)
    requires Possible(calls)
    ensures IsLost(After(calls).trail, id) <==> LostItsEvent(calls, id)
    decreases |calls|
  {
    if calls == [] {
    } else {
      LostIff(calls[..|calls| - 1], id);
      StepLoses(After(calls[..|calls| - 1]), calls[|calls| - 1].0, calls[|calls| - 1].1, id);
    }
  }

  lemma NewestIsUnique(s: State, server: ServerId, a: LogId, b: LogId)
    requires GrantsApart(s) && IsNewestOpen(s, a, server) && IsNewestOpen(s, b, server)
    ensures a == b
  {
    assert s.logs[a].grantedAt <= s.logs[b].grantedAt <= s.logs[a].grantedAt;
  }

  // -------- accessedBy --------

  ghost predicate KeepsHolder(s: State, s': State, id: LogId) {
    id in s.logs && s.logs[id].accessedBy.Some? && id in s'.logs ==>
      s'.logs[id].accessedBy == s.logs[id].accessedBy
  }

  lemma {:induction false} SweepKeepsHolder(s: State, read: map<ServerId, Server>, order: seq<ServerId>, id: LogId)
    ensures KeepsHolder(s, DoSweep(s, read, order), id)
    ensures DoSweep(s, read, order).logs.Keys == s.logs.Keys
    decreases |order|
  {
    if order == [] {
    } else {
      SweepKeepsHolder(s, read, order[..|order| - 1], id);
    }
  }

  lemma StepKeepsHolder(s: State, op: Op, at: int, id: LogId)
    requires Inv(s) && Enabled(s, op, at)
    ensures KeepsHolder(s, Step(s, op, at), id)
    ensures id in s.issued ==> id in Step(s, op, at).issued && (id !in s.logs ==> id !in Step(s, op, at).logs)
  {
    var s0 := s.(now := at);
    assert id in s.logs ==> LogOk(s, id);
    match op
    case AddServer(_, _) =>
    case DeleteServer(_) =>
    case DeleteUser(_) =>
    case FileTicket(_, _) =>
    case BindOperation(_) =>
    case Grant(_, _, _) =>
    case Connect(_, _) =>
    case Revoke(_, _) =>
    case Sweep(order) =>
      SweepKeepsHolder(s0, s0.servers, order, id);
      SweepKeepsIssued(s0, s0.servers, order);
    case Hold(_, _) =>
    case Purge(_) =>
    case Note(_, _) =>
  }

  lemma {:induction false} SweepKeepsIssued(s: State, read: map<ServerId, Server>, order: seq<ServerId>)
    ensures DoSweep(s, read, order).issued == s.issued
    decreases |order|
  {
    if order == [] {
    } else {
      SweepKeepsIssued(s, read, order[..|order| - 1]);
    }
  }

  // The employee bound to a session never changes, as long as its log exists;
  // and a purged log never comes back.
  lemma {:induction false} HolderNeverChanges(calls: seq<Call>, i: nat, id: LogId)
    requires i <= |calls| && Possible(calls) && Possible(calls[..i]) && id in After(calls[..i]).issued
    ensures id in After(calls).issued
    ensures id !in After(calls[..i]).logs ==> id !in After(calls).logs
    ensures KeepsHolder(After(calls[..i]), After(calls), id)
    decreases |calls|
  {
    if i == |calls| {
      assert calls[..i] == calls;
    } else {
      var before := calls[..|calls| - 1];
      assert before[..i] == calls[..i];
      HolderNeverChanges(before, i, id);
      RunsKeepInv(before);
      StepKeepsHolder(After(before), calls[|calls| - 1].0, calls[|calls| - 1].1, id);
    }
  }

  // Only the holder gets the credentials of a claimed session; a first
  // connect binds the caller.
  lemma ConnectIsExclusive(calls: seq<Call>, server: ServerId, user: UserId)
    requires Possible(calls)
    ensures var s := After(calls);
            var active, answer := NewestOpen(s, server), ConnectAnswer(s, server, user);
            && (answer.NoSession? <==> active.None?)
            && (answer.Claimed? <==> active.Some? && s.logs[active.value].accessedBy.Some?
                                     && s.logs[active.value].accessedBy.value != user)
            && (answer.Credentials? ==>
                  && answer.password.Some? && answer.password == s.logs[active.value].password
                  && DoConnect(s, server, user).logs[active.value].accessedBy == Some(user))
            && (!answer.Credentials? ==> DoConnect(s, server, user) == s)
  {
    RunsKeepInv(calls);
    var active := NewestOpen(After(calls), server);
    if active.Some? {
      assert LogOk(After(calls), active.value);
    }
  }

  lemma PurgeInWords(s: State, days: nat)
    ensures forall id | id in s.logs ::
              var log := s.logs[id];
              id !in DoPurge(s, days).logs <==>
              log.isRevoked && !log.hold && log.createdAt + days * 24 * 60 * 60 * 1000 < s.now
    ensures forall id | id in DoPurge(s, days).logs :: id in s.logs && DoPurge(s, days).logs[id] == s.logs[id]
  {
  }

  // What a connect does, in words: without an open log it is refused; else it
  // is about the open log granted last, which is refused to all but its holder,
  // and whose holder is the caller if it had none.
  lemma ConnectInWords(s: State, server: ServerId, user: UserId)
    ensures var (s', answer) := (DoConnect(s, server, user), ConnectAnswer(s, server, user));
            && s' == s.(logs := s'.logs, trail := s'.trail)
            && (answer.NoSession? <==> forall id | id in s.logs && s.logs[id].server == server :: s.logs[id].isRevoked)
            && (!answer.Credentials? ==> s' == s)
            && (!answer.NoSession? ==>
                  exists id | id in s.logs ::
                    && s.logs[id].server == server && !s.logs[id].isRevoked
                    && (forall x | x in s.logs && s.logs[x].server == server && !s.logs[x].isRevoked ::
                          s.logs[x].grantedAt <= s.logs[id].grantedAt)
                    && ConnectsTo(s, s', answer, id, user))
  {
    var active := NewestOpen(s, server);
    if active.Some? {
      assert ConnectsTo(s, DoConnect(s, server, user), ConnectAnswer(s, server, user), active.value, user);
    } else {
      assert forall id | id in s.logs :: !Open(s, id, server);
    }
  }

  predicate ConnectsTo(s: State, s': State, answer: ConnectResult, id: LogId, user: UserId)
    requires id in s.logs
    ensures ConnectsTo(s, s', answer, id, user) && answer.Claimed? ==>
              s.logs[id].accessedBy == Some(answer.holder) && answer.holder != user
    ensures ConnectsTo(s, s', answer, id, user) && answer.Credentials? ==>
              && answer.password == s.logs[id].password
              && (s.logs[id].accessedBy.Some? ==> s.logs[id].accessedBy == Some(user))
              && (s.logs[id].connectedAt.Some? ==> s' == s)
              && (s.logs[id].connectedAt.None? ==>
                    && s'.logs == s.logs[id := s.logs[id].(accessedBy := Some(user), connectedAt := Some(s.now))]
                    && s'.trail == s.trail + [(id, Connected)])
  {
    match answer
    case NoSession => false
    case Claimed(holder) => s.logs[id].accessedBy == Some(holder) && holder != user
    case Credentials(password) =>
      && password == s.logs[id].password
      && (s.logs[id].accessedBy.Some? ==> s.logs[id].accessedBy == Some(user))
      && if s.logs[id].connectedAt.Some? then s' == s
         else
           && s'.logs == s.logs[id := s.logs[id].(accessedBy := Some(user), connectedAt := Some(s.now))]
           && s'.trail == s.trail + [(id, Connected)]
  }

  // -------- the expiry sweep --------

  lemma {:induction false} SweepEffect(s: State, read: map<ServerId, Server>, order: seq<ServerId>, v: ServerId)
    requires v in s.servers
    ensures v in DoSweep(s, read, order).servers
    ensures DoSweep(s, read, order).servers[v]
         == if v in order && v in read && Overdue(read[v], s.now) then Server(false, None) else s.servers[v]
    ensures DoSweep(s, read, order).now == s.now
    decreases |order|
  {
    if order == [] {
    } else {
      SweepEffect(s, read, order[..|order| - 1], v);
      assert order == order[..|order| - 1] + [order[|order| - 1]];
    }
  }

  // After a sweep no server's access is past its expiry, and the access of
  // every server that was within it is untouched.
  lemma SweepClosesExactlyTheOverdue(s: State, order: seq<ServerId>, at: int, v: ServerId)
    requires Enabled(s, Sweep(order), at) && v in s.servers
    ensures var s' := Step(s, Sweep(order), at);
            && v in s'.servers && !Overdue(s'.servers[v], at)
            && var was := s.servers[v];
               s'.servers[v] == if was.enabled && was.expiresAt.Some? && was.expiresAt.value < at
                                then Server(false, None) else was
  {
    SweepEffect(s.(now := at), s.servers, order, v);
  }
}
