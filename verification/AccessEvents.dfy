// Which access logs end with an event of their own
// (backend/src/access/access.service.ts, revokeAccess).
module AccessEvents {
  import opened Prelude
  import opened AccessLifecycle
  import opened AccessServers

  // -------- which logs end with an event --------

  predicate HasEnd(trail: seq<(LogId, Kind)>, id: LogId) {
    exists i | 0 <= i < |trail| :: trail[i].0 == id && Terminal(trail[i].1)
  }

  lemma EndAdded(trail: seq<(LogId, Kind)>, x: LogId, kind: Kind, id: LogId)
    ensures HasEnd(trail + [(x, kind)], id) <==> HasEnd(trail, id) || (x == id && Terminal(kind))
  {
    var longer := trail + [(x, kind)];
    if i :| 0 <= i < |trail| && trail[i].0 == id && Terminal(trail[i].1) {
      assert longer[i] == trail[i];
    }
    assert longer[|trail|] == (x, kind);
  }

  // The call closes this log as the newest open one of its server.
  ghost predicate ClosedAsNewest(s: State, s': State, id: LogId) {
    && id in s.logs && IsNewestOpen(s, id, s.logs[id].server)
    && id in s'.logs && s'.logs[id].isRevoked
  }

  lemma RevokeEnds(s: State, server: ServerId, expired: bool, id: LogId)
    requires GrantsApart(s)
    ensures HasEnd(DoRevoke(s, server, expired).trail, id) <==>
            HasEnd(s.trail, id) || ClosedAsNewest(s, DoRevoke(s, server, expired), id)
  {
    var active := NewestOpen(s, server);
    if active.Some? {
      EndAdded(s.trail, active.value, if expired then Expired else Revoked, id);
    }
    if id in s.logs && IsNewestOpen(s, id, server) {
      NewestIsUnique(s, server, id, active.value);
    }
  }

  // What a sweep does to one log: closed if its server was overdue.
  lemma {:induction false} SweepLog(s: State, read: map<ServerId, Server>, order: seq<ServerId>, id: LogId)
    requires id in s.logs
    ensures id in DoSweep(s, read, order).logs && DoSweep(s, read, order).now == s.now
    ensures var v := s.logs[id].server;
            DoSweep(s, read, order).logs[id] ==
            if Open(s, id, v) && v in order && v in read && Overdue(read[v], s.now)
            then Closed(s.logs[id], s.now) else s.logs[id]
    decreases |order|
  {
    if order == [] {
    } else {
      SweepLog(s, read, order[..|order| - 1], id);
      assert order == order[..|order| - 1] + [order[|order| - 1]];
    }
  }

  lemma SweepKeepsNewest(s: State, read: map<ServerId, Server>, order: seq<ServerId>, id: LogId)
    requires id in s.logs
    ensures var (rest, v) := (DoSweep(s, read, order), s.logs[id].server);
            IsNewestOpen(rest, id, v) <==>
            IsNewestOpen(s, id, v) && !(v in order && v in read && Overdue(read[v], s.now))
  {
    SweepKeepsKeys(s, read, order);
    forall x | x in s.logs
      ensures Open(DoSweep(s, read, order), x, s.logs[id].server) <==>
              var v := s.logs[id].server;
              Open(s, x, v) && !(v in order && v in read && Overdue(read[v], s.now))
      ensures DoSweep(s, read, order).logs[x].grantedAt == s.logs[x].grantedAt
    {
      SweepLog(s, read, order, x);
    }
  }

  lemma {:induction false} SweepKeepsKeys(s: State, read: map<ServerId, Server>, order: seq<ServerId>)
    ensures DoSweep(s, read, order).logs.Keys == s.logs.Keys
    decreases |order|
  {
    if order == [] {
    } else {
      SweepKeepsKeys(s, read, order[..|order| - 1]);
    }
  }

  lemma {:induction false} SweepEnds(s: State, read: map<ServerId, Server>, order: seq<ServerId>, id: LogId)
    requires Inv(s)
    ensures HasEnd(DoSweep(s, read, order).trail, id) <==>
            HasEnd(s.trail, id) || ClosedAsNewest(s, DoSweep(s, read, order), id)
    decreases |order|
  {
    if order == [] {
    } else {
      var (front, v) := (order[..|order| - 1], order[|order| - 1]);
      var rest := DoSweep(s, read, front);
      SweepEnds(s, read, front, id);
      SweepKeeps(s, read, front);
      SweepKeepsKeys(s, read, front);
      SweepKeepsKeys(s, read, order);
      assert order == front + [v];
      if v in read && Overdue(read[v], s.now) {
        RevokeEnds(rest, v, true, id);
      }
      if id in s.logs {
        SweepLog(s, read, front, id);
        SweepLog(s, read, order, id);
        SweepKeepsNewest(s, read, front, id);
      }
    }
  }

  lemma StepEnds(s: State, op: Op, at: int, id: LogId)
    requires Inv(s) && Enabled(s, op, at)
    ensures HasEnd(Step(s, op, at).trail, id) <==> HasEnd(s.trail, id) || ClosedAsNewest(s, Step(s, op, at), id)
  {
    var s0 := s.(now := at);
    TimeKeeps(s, at);
    assert id in s.logs ==>
        (IsNewestOpen(s0, id, s.logs[id].server) <==> IsNewestOpen(s, id, s.logs[id].server));
    match op
    case Revoke(server, expired) => RevokeEnds(s0, server, expired, id);
    case Sweep(order) => SweepEnds(s0, s0.servers, order, id);
    case AddServer(_, _) =>
    case DeleteServer(_) =>
    case DeleteUser(_) =>
    case FileTicket(_, _) =>
    case BindOperation(_) =>
    case Grant(server, x, r) => EndAdded(s.trail, x, if Loggable(r) then Granted else Lost, id);
    case Connect(server, _) =>
      if NewestOpen(s0, server).Some? {
        EndAdded(s.trail, NewestOpen(s0, server).value, Connected, id);
      }
    case Hold(_, _) =>
    case Purge(_) =>
    case Note(x, anomaly) => EndAdded(s.trail, x, if anomaly then Anomaly else Activity, id);
  }

  ghost predicate OnceClosedAsNewest(calls: seq<Call>, id: LogId)
    requires Possible(calls)
    decreases |calls|
  {
    calls != [] && (
      || OnceClosedAsNewest(calls[..|calls| - 1], id)
      || ClosedAsNewest(After(calls[..|calls| - 1]), After(calls), id))
  }

  // A log has its REVOKED or EXPIRED event if and only if it was the newest
  // open log of its server when a call closed it.
  lemma {:induction false} EndsWithEventIff(calls: seq<Call>, id: LogId)
    requires Possible(calls)
    ensures HasEnd(After(calls).trail, id) <==> OnceClosedAsNewest(calls, id)
    decreases |calls|
  {
    if calls == [] {
    } else {
      EndsWithEventIff(calls[..|calls| - 1], id);
      RunsKeepInv(calls[..|calls| - 1]);
      StepEnds(After(calls[..|calls| - 1]), calls[|calls| - 1].0, calls[|calls| - 1].1, id);
    }
  }

  // A grant does not close an earlier open log, and a revoke closes them all
  // but writes an event for the newest only: the others end without one.
  lemma OlderOpenLogsEndSilently(calls: seq<Call>, server: ServerId, expired: bool, id: LogId)
    requires Possible(calls) && Open(After(calls), id, server)
    ensures var s, s' := After(calls), DoRevoke(After(calls), server, expired);
            && id in s'.logs && s'.logs[id].isRevoked
            && (NewestOpen(s, server) == Some(id) ==>
                  TrailOf(s'.trail, id) == TrailOf(s.trail, id) + [if expired then Expired else Revoked])
            && (NewestOpen(s, server) != Some(id) ==> TrailOf(s'.trail, id) == TrailOf(s.trail, id))
  {
    var s := After(calls);
    var active := NewestOpen(s, server);
    TrailGrows(s.trail, active.value, if expired then Expired else Revoked, id);
  }

  lemma ReachTwoGrants() returns (calls: seq<Call>)
    ensures Possible(calls)
    ensures var s := After(calls);
            && Open(s, 1, 0) && IsNewestOpen(s, 2, 0) && s.logs[1].grantedAt < s.logs[2].grantedAt
            && TrailOf(s.trail, 1) == [Granted]
  {
    var at;
    calls, at := ReachGranted(1);
    assert [(1, Granted)][..0] == [];
    assert TrailOf([(1, Granted)], 1) == [Granted];
    TrailGrows(After(calls).trail, 2, Granted, 1);
    calls := RunOn(calls, Grant(0, 2, ASK));
  }

  // Such a run: two grants, one revoke, and the first log has ended with no
  // event but its GRANTED.
  lemma ASilentEnd() returns (calls: seq<Call>)
    ensures Possible(calls) && 1 in After(calls).logs && After(calls).logs[1].isRevoked
    ensures TrailOf(After(calls).trail, 1) == [Granted]
  {
    var before := ReachTwoGrants();
    var s := After(before).(now := After(before).now + 1);
    assert IsNewestOpen(s, 2, 0) && Open(s, 1, 0);
    RevokeGrowsTrail(s, 0, false, 1);
    calls := RunOn(before, Revoke(0, false));
  }

  lemma HalfAPair() returns (r: Request)
    ensures r.ticket == None && !Loggable(r) && forall s :: Storable(s, r)
  {
    var half: seq<CodeUnit> := [0xD800];
    assert half[1..] == [] && Characters(half) == 1 && !WellFormed(half);
    r := ASK.(details := Some(half));
  }

  // A grant whose details end in half a surrogate pair: the log is stored and
  // open, the event refused.
  lemma AGrantWithoutItsEvent() returns (calls: seq<Call>)
    ensures Possible(calls) && Open(After(calls), 1, 0)
    ensures TrailOf(After(calls).trail, 1) == [Lost]
  {
    var r := HalfAPair();
    var before := RunOn([], AddServer(0, Some("ann")));
    assert After(before).trail == [];
    TrailGrows(After(before).trail, 1, Lost, 1);
    calls := RunOn(before, Grant(0, 1, r));
  }
}
