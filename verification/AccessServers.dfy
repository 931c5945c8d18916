// What a server's access columns say about its open logs, over whole runs, and
// which deletions of users break that (backend/src/access/access.service.ts,
// backend/src/users/users.service.ts, backend/src/diagnostics/diagnostic-checks.ts).
module AccessServers {
  import opened Prelude
  import opened AccessLifecycle

  // -------- when is the state of a server right? --------

  ghost predicate HasOpenLog(s: State, server: ServerId) {
    exists id | id in s.logs :: Open(s, id, server)
  }

  // Enabled only with an open log behind it.
  ghost predicate Backed(s: State, server: ServerId)
    requires server in s.servers
  {
    s.servers[server].enabled ==> HasOpenLog(s, server)
  }

  // And with the expiry of the newest one.
  ghost predicate UpToDate(s: State, server: ServerId)
    requires server in s.servers
  {
    && Backed(s, server)
    && forall id | id in s.logs && IsNewestOpen(s, id, server) ::
         s.servers[server].expiresAt == Some(s.logs[id].expiresAt)
  }

  ghost predicate StaysRight(s: State, s': State, server: ServerId)
    requires server in s.servers && server in s'.servers
  {
    (Backed(s, server) ==> Backed(s', server)) && (UpToDate(s, server) ==> UpToDate(s', server))
  }

  // Changes to other columns leave a server's view of its open logs alone.
  lemma SameOpenLogs(s: State, s': State, v: ServerId)
    requires v in s.servers && v in s'.servers && s'.servers[v] == s.servers[v]
    requires forall x | x in s.logs && Open(s, x, v) :: x in s'.logs && Open(s', x, v)
    requires forall x | x in s'.logs && Open(s', x, v) ::
               x in s.logs && Open(s, x, v)
               && s'.logs[x].grantedAt == s.logs[x].grantedAt && s'.logs[x].expiresAt == s.logs[x].expiresAt
    ensures StaysRight(s, s', v)
  {
    forall x | x in s'.logs && IsNewestOpen(s', x, v)
      ensures IsNewestOpen(s, x, v)
    {
      forall other | other in s.logs && Open(s, other, v) ensures s.logs[other].grantedAt <= s.logs[x].grantedAt {
        assert Open(s', other, v);
      }
    }
  }

  lemma GrantKeepsServer(s: State, server: ServerId, id: LogId, r: Request, v: ServerId)
    requires server in s.servers && v in s.servers && (v == server ==> Storable(s, r))
    requires id !in s.logs && forall x | x in s.logs :: s.logs[x].grantedAt < s.now
    ensures StaysRight(s, DoGrant(s, server, id, r), v)
  {
    var s' := DoGrant(s, server, id, r);
    forall x | x in s.logs ensures x in s'.logs && s'.logs[x] == s.logs[x] {
    }
    if v != server {
      assert forall x | x in s.logs :: Open(s', x, v) == Open(s, x, v);
      SameOpenLogs(s, s', v);
    } else {
      assert Open(s', id, server);
      forall x | x in s'.logs && IsNewestOpen(s', x, v)
        ensures s'.servers[v].expiresAt == Some(s'.logs[x].expiresAt)
      {
        assert x == id;
      }
    }
  }

  lemma RevokeKeepsServer(s: State, server: ServerId, expired: bool, v: ServerId)
    requires v in s.servers
    ensures StaysRight(s, DoRevoke(s, server, expired), v)
  {
    var s' := DoRevoke(s, server, expired);
    assert forall x | x in s.logs :: Open(s', x, v) == (v != server && Open(s, x, v));
    if v != server {
      SameOpenLogs(s, s', v);
    }
  }

  lemma ConnectKeepsServer(s: State, server: ServerId, user: UserId, v: ServerId)
    requires v in s.servers
    ensures StaysRight(s, DoConnect(s, server, user), v)
  {
    var s' := DoConnect(s, server, user);
    assert forall x | x in s.logs :: Open(s', x, v) == Open(s, x, v);
    SameOpenLogs(s, s', v);
  }

  lemma {:induction false} SweepKeepsServer(s: State, read: map<ServerId, Server>, order: seq<ServerId>, v: ServerId)
    requires v in s.servers
    ensures v in DoSweep(s, read, order).servers && StaysRight(s, DoSweep(s, read, order), v)
    decreases |order|
  {
    if order == [] {
    } else {
      SweepKeepsServer(s, read, order[..|order| - 1], v);
      RevokeKeepsServer(DoSweep(s, read, order[..|order| - 1]), order[|order| - 1], true, v);
    }
  }

  // The calls that can put the columns of a server wrong: a grant whose log is
  // refused, a deletion of the server that is refused, and any deletion of a user.
  predicate Risky(s: State, op: Op, server: ServerId) {
    match op
    case Grant(v, _, r) => v == server && !Storable(s, r)
    case DeleteServer(v) => v == server && v in s.pinned
    case DeleteUser(_) => true
    case _ => false
  }

  // The calls that leave the open logs and the columns of a server alone.
  predicate Quiet(op: Op, server: ServerId) {
    match op
    case AddServer(v, _) => v != server
    case DeleteServer(v) => v != server
    case FileTicket(_, _) => true
    case BindOperation(_) => true
    case Hold(_, _) => true
    case Purge(_) => true
    case Note(_, _) => true
    case _ => false
  }

  lemma QuietKeepsServer(s: State, op: Op, at: int, v: ServerId)
    requires Enabled(s, op, at) && Quiet(op, v) && v in s.servers
    ensures v in Step(s, op, at).servers && StaysRight(s, Step(s, op, at), v)
  {
    SameOpenLogs(s, Step(s, op, at), v);
  }

  // The calls that write both.
  lemma WriterKeepsServer(s: State, op: Op, at: int, v: ServerId)
    requires Enabled(s, op, at) && (op.Connect? || op.Revoke? || op.Sweep?) && v in s.servers
    ensures v in Step(s, op, at).servers && StaysRight(s, Step(s, op, at), v)
  {
    var s0 := s.(now := at);
    SameOpenLogs(s, s0, v);
    match op
    case Connect(server, user) => ConnectKeepsServer(s0, server, user, v);
    case Revoke(server, expired) => RevokeKeepsServer(s0, server, expired, v);
    case Sweep(order) => SweepKeepsServer(s0, s0.servers, order, v);
  }

  lemma NewServerIsRight(s: State, op: Op, at: int, v: ServerId)
    requires Inv(s) && Enabled(s, op, at) && v !in s.servers && v in Step(s, op, at).servers
    ensures UpToDate(Step(s, op, at), v)
  {
    assert forall x | x in s.logs :: LogOk(s, x);
    if op.Sweep? {
      SweepServers(s.(now := at), s.servers, op.order);
    }
  }

  // Every other call leaves a right server right, and a new one starts right.
  lemma StepKeepsServer(s: State, op: Op, at: int, v: ServerId)
    requires Inv(s) && Enabled(s, op, at) && !Risky(s, op, v) && v in Step(s, op, at).servers
    ensures if v in s.servers then StaysRight(s, Step(s, op, at), v) else UpToDate(Step(s, op, at), v)
  {
    if v !in s.servers {
      NewServerIsRight(s, op, at, v);
    } else if op.Grant? {
      StoredGrantKeepsServer(s, op.server, op.id, op.request, at, v);
    } else if Quiet(op, v) {
      QuietKeepsServer(s, op, at, v);
    } else {
      WriterKeepsServer(s, op, at, v);
    }
  }

  lemma StoredGrantKeepsServer(s: State, server: ServerId, id: LogId, r: Request, at: int, v: ServerId)
    requires Inv(s) && Enabled(s, Grant(server, id, r), at) && (v == server ==> Storable(s, r)) && v in s.servers
    ensures StaysRight(s, DoGrant(s.(now := at), server, id, r), v)
  {
    var s0 := s.(now := at);
    assert forall x | x in s.logs :: LogOk(s, x);
    SameOpenLogs(s, s0, v);
    if server in s.servers {
      GrantKeepsServer(s0, server, id, r, v);
    }
  }

  lemma {:induction false} SweepServers(s: State, read: map<ServerId, Server>, order: seq<ServerId>)
    ensures DoSweep(s, read, order).servers.Keys == s.servers.Keys
    decreases |order|
  {
    if order == [] {
    } else {
      SweepServers(s, read, order[..|order| - 1]);
    }
  }

  // -------- the risky calls --------

  // A refused grant writes the columns and stores no log. That is right exactly
  // when they say what an open log says anyway.
  lemma RefusedGrantIff(s: State, server: ServerId, id: LogId, r: Request)
    requires Inv(s) && server in s.servers && !Storable(s, r)
    ensures var s' := DoGrant(s, server, id, r);
            && (Backed(s', server) <==> HasOpenLog(s, server))
            && (UpToDate(s', server) <==> GrantsTheSame(s, server, r, s.now))
  {
    SameLogsSameOpen(s, OpenColumns(s, server, r), server);
  }

  lemma SameLogsSameOpen(s: State, s': State, server: ServerId)
    requires s'.logs == s.logs
    ensures forall x: LogId :: Open(s', x, server) <==> Open(s, x, server)
    ensures forall x: LogId :: IsNewestOpen(s', x, server) <==> IsNewestOpen(s, x, server)
    ensures HasOpenLog(s', server) <==> HasOpenLog(s, server)
  {
  }

  // The newest open log of the server expires just when this grant would.
  ghost predicate GrantsTheSame(s: State, server: ServerId, r: Request, at: int) {
    && HasOpenLog(s, server)
    && forall id | id in s.logs && IsNewestOpen(s, id, server) ::
         s.logs[id].expiresAt == ExpiryOf(r, at)
  }

  // A refused deletion takes the logs and leaves the columns. That is right
  // exactly when the server had no open log.
  lemma ClearedIff(s: State, s': State, v: ServerId)
    requires Inv(s) && v in s.servers && v in s'.servers && s'.servers[v] == s.servers[v]
    requires forall x: LogId :: !Open(s', x, v)
    ensures Backed(s, v) ==> (Backed(s', v) <==> !HasOpenLog(s, v))
    ensures UpToDate(s, v) ==> (UpToDate(s', v) <==> !HasOpenLog(s, v))
  {
    if id :| id in s.logs && Open(s, id, v) {
      assert LogOk(s, id);
    }
  }

  // An open log of the server that the deletion of the user leaves.
  predicate Remains(s: State, user: UserId, server: ServerId, id: LogId) {
    Open(s, id, server) && !Touches(s.logs[id], user)
  }

  // The deletion leaves the server an open log, if it has one.
  ghost predicate LeavesALog(s: State, user: UserId, server: ServerId) {
    HasOpenLog(s, server) ==> exists id | id in s.logs :: Remains(s, user, server, id)
  }

  predicate IsNewestRemaining(s: State, user: UserId, server: ServerId, id: LogId) {
    Remains(s, user, server, id) && forall other | other in s.logs && Remains(s, user, server, other) ::
                                      s.logs[other].grantedAt <= s.logs[id].grantedAt
  }

  // The newest open log of the server is none that the user granted or holds;
  // or an older one takes its place that expires at the same time.
  ghost predicate LeavesTheExpiry(s: State, user: UserId, server: ServerId) {
    forall id | id in s.logs && IsNewestOpen(s, id, server) ::
      || !Touches(s.logs[id], user)
      || exists heir | heir in s.logs :: IsNewestRemaining(s, user, server, heir)
                                         && s.logs[heir].expiresAt == s.logs[id].expiresAt
  }

  lemma RemainingAreOpen(s: State, user: UserId, v: ServerId)
    requires v in EraseUser(s, user).servers
    ensures var s' := EraseUser(s, user);
            && v in s.servers && s'.servers[v] == s.servers[v]
            && (forall x: LogId :: Open(s', x, v) <==> Remains(s, user, v, x))
            && (forall x: LogId :: IsNewestOpen(s', x, v) <==> IsNewestRemaining(s, user, v, x))
  {
    var s' := EraseUser(s, user);
    assert !Owns(s, user, v);
    forall x: LogId
      ensures IsNewestOpen(s', x, v) <==> IsNewestRemaining(s, user, v, x)
    {
      assert Open(s', x, v) <==> Remains(s, user, v, x);
      if Open(s', x, v) {
        assert forall other | other in s.logs && Remains(s, user, v, other) :: other in s'.logs && Open(s', other, v);
      }
    }
  }

  lemma DeletionLeavesALogIff(s: State, user: UserId, v: ServerId)
    requires Inv(s) && v in EraseUser(s, user).servers
    ensures v in s.servers
    ensures Backed(s, v) ==> (Backed(EraseUser(s, user), v) <==> LeavesALog(s, user, v))
  {
    RemainingAreOpen(s, user, v);
    var s' := EraseUser(s, user);
    if id :| id in s.logs && Remains(s, user, v, id) {
      assert id in s'.logs && Open(s', id, v);
    }
    if id :| id in s'.logs && Open(s', id, v) {
      assert id in s.logs && Remains(s, user, v, id);
    }
    if id :| id in s.logs && Open(s, id, v) {
      assert LogOk(s, id);
    }
  }

  // An open log that stays although the newest one goes, and is then the
  // newest, expires with it or not; that decides.
  lemma DeletionLeavesTheExpiryIff(s: State, user: UserId, v: ServerId)
    requires Inv(s) && v in EraseUser(s, user).servers
    ensures v in s.servers
    ensures UpToDate(s, v) ==> (UpToDate(EraseUser(s, user), v) <==> LeavesTheExpiry(s, user, v))
  {
    RemainingAreOpen(s, user, v);
    if UpToDate(s, v) {
      if HasOpenLog(s, v) {
        var newest := NewestOpen(s, v).value;
        assert LogOk(s, newest);
        if LeavesTheExpiry(s, user, v) {
          ExpiryIsLeft(s, user, v, newest);
        }
        if UpToDate(EraseUser(s, user), v) {
          HeirIsLeft(s, user, v, newest);
        }
      } else {
        assert forall x: LogId :: !Open(s, x, v);
      }
    }
  }

  lemma ExpiryIsLeft(s: State, user: UserId, v: ServerId, newest: LogId)
    requires Inv(s) && v in s.servers && UpToDate(s, v) && v in EraseUser(s, user).servers
    requires IsNewestOpen(s, newest, v) && LeavesTheExpiry(s, user, v)
    ensures UpToDate(EraseUser(s, user), v)
  {
    RemainingAreOpen(s, user, v);
    var s' := EraseUser(s, user);
    var heir: LogId;
    if !Touches(s.logs[newest], user) {
      heir := newest;
      assert IsNewestRemaining(s, user, v, newest);
    } else {
      heir :| heir in s.logs && IsNewestRemaining(s, user, v, heir)
              && s.logs[heir].expiresAt == s.logs[newest].expiresAt;
    }
    assert heir in s'.logs && Open(s', heir, v) && IsNewestOpen(s', heir, v);
    forall x | x in s'.logs && IsNewestOpen(s', x, v)
      ensures x == heir
    {
      assert s.logs[x].grantedAt == s.logs[heir].grantedAt;
    }
  }

  lemma HeirIsLeft(s: State, user: UserId, v: ServerId, newest: LogId)
    requires Inv(s) && v in s.servers && UpToDate(s, v) && v in EraseUser(s, user).servers
    requires IsNewestOpen(s, newest, v) && UpToDate(EraseUser(s, user), v)
    ensures LeavesTheExpiry(s, user, v)
  {
    RemainingAreOpen(s, user, v);
    var s' := EraseUser(s, user);
    assert LogOk(s, newest);
    var heir := NewestOpen(s', v).value;
    assert IsNewestRemaining(s, user, v, heir) && heir in s.logs;
    forall id | id in s.logs && IsNewestOpen(s, id, v)
      ensures s.logs[heir].expiresAt == s.logs[id].expiresAt
    {
      NewestIsUnique(s, v, id, newest);
    }
  }

  // -------- the state of a server over whole runs --------

  // The server's columns are what its open logs say.
  ghost predicate Matches(s: State, server: ServerId)
    requires server in s.servers
  {
    var active := NewestOpen(s, server);
    s.servers[server] == if active.Some? then Server(true, Some(s.logs[active.value].expiresAt))
                         else Server(false, None)
  }

  lemma MatchesIff(s: State, server: ServerId)
    requires Inv(s) && server in s.servers
    ensures Matches(s, server) <==> UpToDate(s, server)
  {
    var active := NewestOpen(s, server);
    if active.Some? {
      assert LogOk(s, active.value);
      forall id | id in s.logs && IsNewestOpen(s, id, server)
        ensures id == active.value
      {
        NewestIsUnique(s, server, id, active.value);
      }
    }
  }

  ghost predicate AlwaysMatches(calls: seq<Call>, server: ServerId)
    requires Possible(calls)
    decreases |calls|
  {
    && (server in After(calls).servers ==> Matches(After(calls), server))
    && (calls == [] || AlwaysMatches(calls[..|calls| - 1], server))
  }

  // What one call must find, for the server's columns to stay right.
  ghost predicate KeepsTheExpiry(s: State, op: Op, at: int, server: ServerId) {
    match op
    case Grant(v, _, r) => v == server && !Storable(s, r) ==> GrantsTheSame(s, server, r, at)
    case DeleteServer(v) => v == server && v in s.pinned ==> !HasOpenLog(s, server)
    case DeleteUser(user) =>
      if !Blocked(s, user) then LeavesTheExpiry(s, user, server)
      else Owns(s, user, server) ==> !HasOpenLog(s, server)
    case _ => true
  }

  ghost predicate CallsKeepTheExpiry(calls: seq<Call>, server: ServerId)
    requires Possible(calls)
    decreases |calls|
  {
    calls == [] || (
      var (before, call) := (After(calls[..|calls| - 1]), calls[|calls| - 1]);
      && CallsKeepTheExpiry(calls[..|calls| - 1], server)
      && (server in before.servers && server in After(calls).servers ==>
            KeepsTheExpiry(before, call.0, call.1, server)))
  }

  // All through a run a server is enabled exactly when it has an open log, and
  // then carries the expiry of the newest one, if and only if
  //  - every grant refused at its log came when the newest open log of the
  //    server expired at the very time granted,
  //  - every refused deletion of the server found it without an open log, and
  //  - every deletion of a user spared the newest open log or had an heir for it.
  lemma {:induction false} EnabledIffOpenLog(calls: seq<Call>, server: ServerId)
    requires Possible(calls)
    ensures AlwaysMatches(calls, server) <==> CallsKeepTheExpiry(calls, server)
    decreases |calls|
  {
    if calls == [] {
    } else {
      var (s, op, at) := (After(calls[..|calls| - 1]), calls[|calls| - 1].0, calls[|calls| - 1].1);
      EnabledIffOpenLog(calls[..|calls| - 1], server);
      RunsKeepInv(calls[..|calls| - 1]);
      RunsKeepInv(calls);
      if server in After(calls).servers && AlwaysMatches(calls[..|calls| - 1], server) {
        MatchesIff(After(calls), server);
        if server in s.servers {
          MatchesIff(s, server);
        }
        StepRightIff(s, op, at, server);
      }
    }
  }

  // One call, from a state in which the server's columns are right.
  lemma StepRightIff(s: State, op: Op, at: int, server: ServerId)
    requires Inv(s) && Enabled(s, op, at) && server in Step(s, op, at).servers
    ensures server !in s.servers ==> UpToDate(Step(s, op, at), server)
    ensures server in s.servers && UpToDate(s, server) ==>
              (UpToDate(Step(s, op, at), server) <==> KeepsTheExpiry(s, op, at, server))
    ensures server in s.servers && Backed(s, server) ==>
              (Backed(Step(s, op, at), server) <==> KeepsALog(s, op, server))
  {
    if !Risky(s, op, server) {
      StepKeepsServer(s, op, at, server);
    } else if op.DeleteUser? {
      DeleteUserIff(s, op.user, at, server);
    } else if server in s.servers {
      TimeKeeps(s, at);
      SameOpenLogs(s, s.(now := at), server);
      LaterIsTheSame(s, at, server);
      if op.Grant? {
        RefusedGrantIff(s.(now := at), op.server, op.id, op.request);
      } else {
        ClearedIff(s.(now := at), Step(s, op, at), server);
      }
    }
  }

  lemma DeleteUserIff(s: State, user: UserId, at: int, server: ServerId)
    requires Inv(s) && at > s.now && server in DoDeleteUser(s.(now := at), user).servers
    ensures server in s.servers
    ensures var s' := DoDeleteUser(s.(now := at), user);
            && (UpToDate(s, server) ==> (UpToDate(s', server) <==> KeepsTheExpiry(s, DeleteUser(user), at, server)))
            && (Backed(s, server) ==> (Backed(s', server) <==> KeepsALog(s, DeleteUser(user), server)))
  {
    var s0 := s.(now := at);
    TimeKeeps(s, at);
    LaterIsTheSame(s, at, server);
    LaterLeavesTheSame(s, at, user, server);
    SameOpenLogs(s, s0, server);
    if !Blocked(s, user) {
      DeletionLeavesALogIff(s0, user, server);
      DeletionLeavesTheExpiryIff(s0, user, server);
    } else if Owns(s, user, server) {
      ClearedIff(s0, ClearOwned(s0, user), server);
    } else {
      SameOpenLogs(s0, ClearOwned(s0, user), server);
    }
  }

  lemma LaterIsTheSame(s: State, at: int, server: ServerId)
    ensures HasOpenLog(s.(now := at), server) <==> HasOpenLog(s, server)
    ensures forall r, t :: GrantsTheSame(s.(now := at), server, r, t) <==> GrantsTheSame(s, server, r, t)
    ensures server in s.servers ==>
              && (Backed(s.(now := at), server) <==> Backed(s, server))
              && (UpToDate(s.(now := at), server) <==> UpToDate(s, server))
  {
    var u := s.(now := at);
    assert forall x: LogId :: Open(u, x, server) <==> Open(s, x, server);
    assert forall x: LogId :: IsNewestOpen(u, x, server) <==> IsNewestOpen(s, x, server);
  }

  lemma LaterLeavesTheSame(s: State, at: int, user: UserId, server: ServerId)
    ensures Blocked(s.(now := at), user) <==> Blocked(s, user)
    ensures LeavesTheExpiry(s.(now := at), user, server) <==> LeavesTheExpiry(s, user, server)
    ensures LeavesALog(s.(now := at), user, server) <==> LeavesALog(s, user, server)
  {
    var t := s.(now := at);
    assert forall x: LogId :: Open(t, x, server) <==> Open(s, x, server);
    assert forall x: LogId :: Remains(t, user, server, x) <==> Remains(s, user, server, x);
    assert forall x: LogId :: IsNewestOpen(t, x, server) <==> IsNewestOpen(s, x, server);
    assert forall x: LogId :: IsNewestRemaining(t, user, server, x) <==> IsNewestRemaining(s, user, server, x);
  }

  // -------- the observer in the diagnostics --------

  datatype AccessCheck = AccessClosed | AccessInconsistent | ExpiringSoon | AccessOpen

  const EXPIRING_SOON_MS := 15 * MS_PER_MINUTE

  // backend/src/diagnostics/diagnostic-checks.ts, checkSupportAccess
  function CheckSupportAccess(enabled: bool, expiresAt: Option<int>, hasActiveLog: bool, now: int): AccessCheck {
    if !enabled then AccessClosed
    else if !hasActiveLog || expiresAt.None? then AccessInconsistent
    else if expiresAt.value - now <= EXPIRING_SOON_MS then ExpiringSoon
    else AccessOpen
  }

  ghost function Diagnosis(s: State, server: ServerId, now: int): AccessCheck
    requires server in s.servers
  {
    CheckSupportAccess(s.servers[server].enabled, s.servers[server].expiresAt, NewestOpen(s, server).Some?, now)
  }

  lemma InconsistentIffNotBacked(s: State, server: ServerId, now: int)
    requires Inv(s) && server in s.servers
    ensures Diagnosis(s, server, now) == AccessInconsistent <==> !Backed(s, server)
  {
  }

  ghost predicate NeverDiagnosed(calls: seq<Call>, server: ServerId)
    requires Possible(calls)
    decreases |calls|
  {
    && (server in After(calls).servers ==> forall now :: Diagnosis(After(calls), server, now) != AccessInconsistent)
    && (calls == [] || NeverDiagnosed(calls[..|calls| - 1], server))
  }

  // What one call must find, for an enabled server to stay backed by an open log.
  ghost predicate KeepsALog(s: State, op: Op, server: ServerId) {
    match op
    case Grant(v, _, r) => v == server && !Storable(s, r) ==> HasOpenLog(s, server)
    case DeleteServer(v) => v == server && v in s.pinned ==> !HasOpenLog(s, server)
    case DeleteUser(user) =>
      if !Blocked(s, user) then LeavesALog(s, user, server)
      else Owns(s, user, server) ==> !HasOpenLog(s, server)
    case _ => true
  }

  ghost predicate CallsKeepALog(calls: seq<Call>, server: ServerId)
    requires Possible(calls)
    decreases |calls|
  {
    calls == [] || (
      var (before, op) := (After(calls[..|calls| - 1]), calls[|calls| - 1].0);
      && CallsKeepALog(calls[..|calls| - 1], server)
      && (server in before.servers && server in After(calls).servers ==> KeepsALog(before, op, server)))
  }

  // The diagnosis "inconsistent" never comes up in a run if and only if every
  // grant refused at its log fell on a server with an open log, every refused
  // deletion of the server found none, and no deletion of a user took the last
  // one from it.
  lemma {:induction false} NeverInconsistent(calls: seq<Call>, server: ServerId)
    requires Possible(calls)
    ensures NeverDiagnosed(calls, server) <==> CallsKeepALog(calls, server)
    decreases |calls|
  {
    if calls == [] {
    } else {
      var (s, op, at) := (After(calls[..|calls| - 1]), calls[|calls| - 1].0, calls[|calls| - 1].1);
      NeverInconsistent(calls[..|calls| - 1], server);
      RunsKeepInv(calls[..|calls| - 1]);
      RunsKeepInv(calls);
      if server in After(calls).servers && NeverDiagnosed(calls[..|calls| - 1], server) {
        if server in s.servers {
          InconsistentIffNotBacked(s, server, 0);
        }
        StepRightIff(s, op, at, server);
        forall now
          ensures Diagnosis(After(calls), server, now) == AccessInconsistent <==> !Backed(After(calls), server)
        {
          InconsistentIffNotBacked(After(calls), server, now);
        }
        assert Diagnosis(After(calls), server, 0) == AccessInconsistent <==> !Backed(After(calls), server);
      }
    }
  }

  // Where the columns are right, so is the observer: closed without an open
  // log, open while the newest one has more than 15 minutes.
  lemma DiagnosisIsRight(calls: seq<Call>, server: ServerId, now: int)
    requires Possible(calls) && server in After(calls).servers && CallsKeepTheExpiry(calls, server)
    ensures var (s, active) := (After(calls), NewestOpen(After(calls), server));
            && Diagnosis(s, server, now) != AccessInconsistent
            && (Diagnosis(s, server, now) == AccessClosed <==> active.None?)
            && (Diagnosis(s, server, now) == AccessOpen <==>
                  active.Some? && s.logs[active.value].expiresAt > now + EXPIRING_SOON_MS)
  {
    EnabledIffOpenLog(calls, server);
  }

  lemma RunOn(calls: seq<Call>, op: Op) returns (longer: seq<Call>)
    requires Possible(calls) && Enabled(After(calls), op, After(calls).now + 1)
    ensures longer == calls + [(op, After(calls).now + 1)] && Possible(longer)
    ensures After(longer) == Step(After(calls), op, After(calls).now + 1)
  {
    longer := calls + [(op, After(calls).now + 1)];
    assert longer[..|longer| - 1] == calls;
  }

  const ASK := Request(60, "pw", "ann", None, None)

  // Server 0 of client "ann" has one open log, which "ann" granted.
  lemma ReachGranted(id: LogId) returns (calls: seq<Call>, at: int)
    ensures Possible(calls) && at == After(calls).now
    ensures var s := After(calls);
            && s.servers == map[0 := Server(true, Some(at + 60 * MS_PER_MINUTE))] && s.owners == map[0 := "ann"]
            && s.tickets == {} && s.pinned == {}
            && s.logs == map[id := Log(0, "ann", at, at, at + 60 * MS_PER_MINUTE, None, None, None,
                                       false, Some("pw"), false)]
            && s.issued == {id} && s.trail == [(id, Granted)]
  {
    calls := RunOn([], AddServer(0, Some("ann")));
    assert After(calls).servers == map[0 := Server(false, None)];
    calls := RunOn(calls, Grant(0, id, ASK));
    at := After(calls).now;
  }

  // Employee "eve" has connected to it.
  lemma ReachConnected() returns (calls: seq<Call>)
    ensures Possible(calls)
    ensures var s := After(calls);
            && s.logs.Keys == {7} && Open(s, 7, 0) && s.logs[7].accessedBy == Some("eve")
            && s.servers.Keys == {0} && s.servers[0].enabled && s.owners == map[0 := "ann"] && s.pinned == {}
  {
    var before, at := ReachGranted(7);
    var s := After(before).(now := at + 1);
    assert Open(s, 7, 0) && IsNewestOpen(s, 7, 0);
    NewestIsUnique(s, 0, 7, NewestOpen(s, 0).value);
    calls := RunOn(before, Connect(0, "eve"));
  }

  lemma LastLogGoes(s: State, user: UserId, id: LogId)
    requires s.logs.Keys == {id} && Open(s, id, 0) && Touches(s.logs[id], user)
    ensures !LeavesALog(s, user, 0) && EraseUser(s, user).logs == map[]
  {
    assert HasOpenLog(s, 0);
  }

  // The run that fails: an employee connects and is deleted as a user; access
  // stays enabled without a log.
  lemma DeletingTheHolderIsInconsistent() returns (calls: seq<Call>)
    ensures Possible(calls) && 0 in After(calls).servers && !CallsKeepALog(calls, 0)
    ensures forall now :: Diagnosis(After(calls), 0, now) == AccessInconsistent
  {
    var before := ReachConnected();
    LastLogGoes(After(before), "eve", 7);
    LastLogGoes(After(before).(now := After(before).now + 1), "eve", 7);
    calls := RunOn(before, DeleteUser("eve"));
    assert calls[..|calls| - 1] == before;
    assert 0 in After(calls).servers && After(calls).servers[0].enabled;
    assert NewestOpen(After(calls), 0).None?;
  }

  // The second run that fails: a grant that names a ticket there is not. The
  // caller gets an error, and access is enabled without a log.
  lemma RefusedGrantIsInconsistent() returns (calls: seq<Call>)
    ensures Possible(calls) && 0 in After(calls).servers && !CallsKeepALog(calls, 0)
    ensures forall now :: Diagnosis(After(calls), 0, now) == AccessInconsistent
  {
    var before := RunOn([], AddServer(0, Some("ann")));
    calls := RunOn(before, Grant(0, 1, ASK.(ticket := Some(9))));
    assert calls[..|calls| - 1] == before;
    assert After(calls).logs == map[] && !HasOpenLog(After(before), 0);
    assert NewestOpen(After(calls), 0).None?;
  }

  // And the third: the server cannot be deleted because a ticket is about it,
  // but its open log is gone.
  lemma RefusedDeletionIsInconsistent() returns (calls: seq<Call>)
    ensures Possible(calls) && 0 in After(calls).servers && !CallsKeepALog(calls, 0)
    ensures forall now :: Diagnosis(After(calls), 0, now) == AccessInconsistent
  {
    var before, at := ReachGranted(7);
    before := RunOn(before, FileTicket(1, Some(0)));
    assert Open(After(before), 7, 0);
    calls := RunOn(before, DeleteServer(0));
    assert calls[..|calls| - 1] == before;
    assert After(calls).logs == map[] && HasOpenLog(After(before), 0);
    assert NewestOpen(After(calls), 0).None?;
  }
}
