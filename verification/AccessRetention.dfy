// What the retention purge takes and what it spares, told from the calls of a
// run (backend/src/access/access.service.ts, setRetentionHold and
// purgeExpiredLogs).
module AccessRetention {
  import opened Prelude
  import opened AccessLifecycle

  // The latest word on the hold of a log: false from its grant on, then what
  // the last hold call said.
  function HeldByCalls(calls: seq<Call>, id: LogId): bool {
    if calls == [] then false
    else match calls[|calls| - 1].0
      case Hold(x, hold) => if x == id then hold else HeldByCalls(calls[..|calls| - 1], id)
      case Grant(_, x, _) => if x == id then false else HeldByCalls(calls[..|calls| - 1], id)
      case _ => HeldByCalls(calls[..|calls| - 1], id)
  }

  // When the log's grant was made.
  function GrantedByCalls(calls: seq<Call>, id: LogId): Option<int> {
    if calls == [] then None
    else match calls[|calls| - 1].0
      case Grant(_, x, _) => if x == id then Some(calls[|calls| - 1].1) else GrantedByCalls(calls[..|calls| - 1], id)
      case _ => GrantedByCalls(calls[..|calls| - 1], id)
  }

  // What no call but a hold or the log's own grant changes.
  lemma StepKeepsHold(s: State, op: Op, at: int, id: LogId)
    requires Inv(s) && Enabled(s, op, at) && id in Step(s, op, at).logs
    requires !(op.Hold? && op.id == id) && !(op.Grant? && op.id == id)
    ensures id in s.logs
    ensures Step(s, op, at).logs[id].hold == s.logs[id].hold
    ensures Step(s, op, at).logs[id].createdAt == s.logs[id].createdAt
  {
    match op
    case Sweep(order) => SweepKeepsHold(s.(now := at), s.servers, order, id);
    case _ =>
  }

  lemma {:induction false} SweepKeepsHold(s: State, read: map<ServerId, Server>, order: seq<ServerId>, id: LogId)
    ensures id in DoSweep(s, read, order).logs <==> id in s.logs
    ensures id in s.logs ==>
              && DoSweep(s, read, order).logs[id].hold == s.logs[id].hold
              && DoSweep(s, read, order).logs[id].createdAt == s.logs[id].createdAt
    decreases |order|
  {
    if order == [] {
    } else {
      SweepKeepsHold(s, read, order[..|order| - 1], id);
    }
  }

  lemma {:induction false} CallsTell(calls: seq<Call>, id: LogId)
    requires Possible(calls) && id in After(calls).logs
    ensures After(calls).logs[id].hold == HeldByCalls(calls, id)
    ensures Some(After(calls).logs[id].createdAt) == GrantedByCalls(calls, id)
    decreases |calls|
  {
    var (before, op, at) := (calls[..|calls| - 1], calls[|calls| - 1].0, calls[|calls| - 1].1);
    RunsKeepInv(before);
    if op.Grant? && op.id == id {
      assert id in After(before).logs ==> LogOk(After(before), id);
    } else if op.Hold? && op.id == id {
      assert id in After(before).logs;
      CallsTell(before, id);
    } else {
      StepKeepsHold(After(before), op, at, id);
      CallsTell(before, id);
    }
  }

  // A purge takes a log exactly when it is closed, the latest hold call on it,
  // if any, lifted the hold, and it was granted longer ago than the window; the
  // others stay as they are.
  lemma PurgeTakesExactly(calls: seq<Call>, days: nat, at: int, id: LogId)
    requires Possible(calls) && at > After(calls).now && id in After(calls).logs
    ensures var (s, s') := (After(calls), Step(After(calls), Purge(days), at));
            var granted := GrantedByCalls(calls, id);
            && (id !in s'.logs <==>
                  && s.logs[id].isRevoked && !HeldByCalls(calls, id)
                  && granted.Some? && granted.value + days * 24 * 60 * 60 * 1000 < at)
            && (id in s'.logs ==> s'.logs[id] == s.logs[id])
  {
    CallsTell(calls, id);
  }

  // A log put on hold stays through every later purge until the hold is lifted.
  lemma {:induction false} HeldLogsStay(calls: seq<Call>, i: nat, id: LogId)
    requires i <= |calls| && Possible(calls) && Possible(calls[..i])
    requires id in After(calls[..i]).logs && HeldByCalls(calls[..i], id)
    requires forall k | i <= k < |calls| ::
               var op := calls[k].0;
               (op.Hold? && op.id == id ==> op.hold) && !op.DeleteServer? && !op.DeleteUser?
    ensures id in After(calls).logs && HeldByCalls(calls, id)
    decreases |calls|
  {
    if i == |calls| {
      assert calls[..i] == calls;
    } else {
      var (before, op, at) := (calls[..|calls| - 1], calls[|calls| - 1].0, calls[|calls| - 1].1);
      assert before[..i] == calls[..i];
      HeldLogsStay(before, i, id);
      CallsTell(before, id);
      RunsKeepInv(before);
      HeldLogStays(After(before), op, at, id);
    }
  }

  lemma HeldLogStays(s: State, op: Op, at: int, id: LogId)
    requires Inv(s) && Enabled(s, op, at) && id in s.logs && s.logs[id].hold
    requires !op.DeleteServer? && !op.DeleteUser?
    ensures id in Step(s, op, at).logs && !(op.Grant? && op.id == id)
  {
    assert LogOk(s, id);
    match op
    case Sweep(order) => SweepKeepsHold(s.(now := at), s.servers, order, id);
    case _ =>
  }
}
