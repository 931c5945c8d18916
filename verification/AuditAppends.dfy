// Appending to the ledger: one append as a transaction with an optional
// callback, the recording of a security anomaly, and every interleaving of
// concurrent appends under the advisory lock
// (backend/src/access/audit-log.service.ts,
//  backend/src/tinta-core/tinta-agent.gateway.ts).
module AuditAppends {
  import opened Prelude
  import opened AuditLedger

  const ANOMALY := "security_anomaly"

  function HonestRow(h: HashFn, ledger: seq<Row>, id: string, seqNo: nat, body: Body): Row {
    var prev := PrevOf(ledger, |ledger|);
    Row(id, seqNo, body, prev, ComputeHash(h, body, prev))
  }

  lemma HonestRowLinks(h: HashFn, ledger: seq<Row>, row: Row)
    requires Verified(h, ledger)
    requires row == HonestRow(h, ledger, row.id, row.seqNo, row.body)
    ensures Verified(h, ledger + [row])
  {
    var longer := ledger + [row];
    forall i | 0 <= i < |longer| ensures Linked(h, longer, i) {
      assert PrevOf(longer, i) == PrevOf(ledger, i);
      assert i < |ledger| ==> Linked(h, ledger, i);
    }
  }

  predicate SeqAscending(ledger: seq<Row>) {
    forall i, j | 0 <= i < j < |ledger| :: ledger[i].seqNo < ledger[j].seqNo
  }

  predicate SeqBelow(ledger: seq<Row>, bound: nat) {
    forall i | 0 <= i < |ledger| :: ledger[i].seqNo < bound
  }

  function SeqNos(ledger: seq<Row>): set<nat> {
    set i | 0 <= i < |ledger| :: ledger[i].seqNo
  }

  // -------- one writer --------

  // How the transaction of one append ends. `Unacknowledged`: it commits, but
  // the answer is lost and the caller sees an error.
  datatype Fate = Commits | CallbackThrows | CommitFails | Unacknowledged

  predicate Persists(fate: Fate, withAlert: bool) {
    fate.Commits? || fate.Unacknowledged? || (fate.CallbackThrows? && !withAlert)
  }

  predicate Returns(fate: Fate, withAlert: bool) {
    fate.Commits? || (fate.CallbackThrows? && !withAlert)
  }

  class AuditLog {
    const h: HashFn
    var ledger: seq<Row>
    var nextSeq: nat
    var alerts: set<nat>   // sequence numbers of the events that have an outbox row

    ghost predicate Valid()
      reads this
    {
      Verified(h, ledger) && SeqAscending(ledger) && SeqBelow(ledger, nextSeq) && alerts <= SeqNos(ledger)
    }

    constructor (h: HashFn)
      ensures Valid() && ledger == [] && alerts == {} && this.h == h
    {
      this.h := h;
      ledger, nextSeq, alerts := [], 0, {};
    }

    // An aborted transaction leaves nothing but a gap in the sequence.
    method Append(id: string, body: Body, withAlert: bool, fate: Fate) returns (ok: bool)
      requires Valid()
      modifies this
      ensures Valid() && nextSeq == old(nextSeq) + 1
      ensures ok <==> Returns(fate, withAlert)
      ensures Persists(fate, withAlert) ==>
                && ledger == old(ledger) + [HonestRow(h, old(ledger), id, old(nextSeq), body)]
                && alerts == old(alerts) + (if withAlert then {old(nextSeq)} else {})
      ensures !Persists(fate, withAlert) ==> ledger == old(ledger) && alerts == old(alerts)
      // in words: a return means that the event is there, and the last one
      ensures ok <==> fate == Commits || (fate == CallbackThrows && !withAlert)
      ensures ledger != old(ledger) ==>
                var prevHash := if old(ledger) == [] then None else Some(old(ledger)[|old(ledger)| - 1].hash);
                ledger == old(ledger) + [Row(id, old(nextSeq), body, prevHash, h(HashText(body, prevHash)))]
      ensures ledger == old(ledger) <==> fate == CommitFails || (fate == CallbackThrows && withAlert)
    {
      var seqNo := nextSeq;
      nextSeq := nextSeq + 1;
      var prevHash := if |ledger| == 0 then None else Some(ledger[|ledger| - 1].hash);
      var row := Row(id, seqNo, body, prevHash, ComputeHash(h, body, prevHash));
      if withAlert && fate.CallbackThrows? {
        return false;
      }
      if fate.CommitFails? {
        return false;
      }
      HonestRowLinks(h, ledger, row);
      SeqNosGrow(ledger, row);
      ledger := ledger + [row];
      if withAlert {
        alerts := alerts + {seqNo};
      }
      ok := !fate.Unacknowledged?;
    }

    // With the outbox: event and alert in one transaction, and on any error
    // the event once more on its own. Without: the event alone.
    method RecordSecurityAnomaly(id: string, body: Body, notifications: bool, first: Fate, second: Fate)
      returns (normal: bool)
      requires Valid() && body.eventType == ANOMALY
      modifies this
      ensures Valid()
      ensures |ledger| >= |old(ledger)| && ledger[..|old(ledger)|] == old(ledger)
      ensures forall i | |old(ledger)| <= i < |ledger| :: ledger[i].body == body
      ensures normal <==> (if notifications then Returns(first, true) || Returns(second, false)
                           else Returns(first, false))
      ensures normal ==> |ledger| > |old(ledger)|
      ensures normal && !(notifications && first.Unacknowledged?) ==> |ledger| == |old(ledger)| + 1
      ensures normal && notifications && first.Unacknowledged? ==> |ledger| == |old(ledger)| + 2
      ensures alerts == old(alerts) + (if notifications && Persists(first, true) then {old(nextSeq)} else {})
      ensures notifications && Persists(first, true) ==> ledger[|old(ledger)|].seqNo == old(nextSeq)
    {
      if !notifications {
        normal := Append(id, body, false, first);
        return;
      }
      normal := Append(id, body, true, first);
      if !normal {
        normal := Append(id, body, false, second);
      }
    }
  }

  // -------- any number of concurrent writers --------

  type Tx = nat

  datatype Phase =
    | Waiting(body: Body, alert: bool)
    | Locked(body: Body, alert: bool)
    | HasTip(body: Body, alert: bool, tip: Option<string>)
    | Written(row: Row, alert: bool, queued: bool)

  datatype State = State(ledger: seq<Row>, lock: Option<Tx>, txs: map<Tx, Phase>, nextSeq: nat, alerts: set<nat>)

  datatype Event =
    | Begin(t: Tx, body: Body, alert: bool)
    | Acquire(t: Tx)
    | ReadTip(t: Tx, tip: Option<string>)
    | Insert(t: Tx, id: string, createdAt: string)
    | Queue(t: Tx)
    | Commit(t: Tx)
    | Abort(t: Tx)

  const Empty := State([], None, map[], 0, {})

  // The hash of a row with the highest sequence number, if there is a row.
  predicate IsTip(ledger: seq<Row>, tip: Option<string>) {
    if ledger == [] then tip.None?
    else tip.Some? && exists i | 0 <= i < |ledger| ::
           ledger[i].hash == tip.value && forall k | 0 <= k < |ledger| :: ledger[k].seqNo <= ledger[i].seqNo
  }

  predicate Enabled(s: State, e: Event) {
    match e
    case Begin(t, _, _) => t !in s.txs
    case Acquire(t) => t in s.txs && s.txs[t].Waiting? && s.lock.None?
    case ReadTip(t, tip) => t in s.txs && s.txs[t].Locked? && IsTip(s.ledger, tip)
    case Insert(t, _, _) => t in s.txs && s.txs[t].HasTip?
    case Queue(t) => t in s.txs && s.txs[t].Written? && s.txs[t].alert && !s.txs[t].queued
    case Commit(t) => t in s.txs && s.txs[t].Written? && (s.txs[t].alert ==> s.txs[t].queued)
    case Abort(t) => t in s.txs
  }

  function Ended(s: State, t: Tx): State {
    s.(txs := s.txs - {t}, lock := if s.lock == Some(t) then None else s.lock)
  }

  function Step(h: HashFn, s: State, e: Event): State
    requires Enabled(s, e)
  {
    match e
    case Begin(t, body, alert) => s.(txs := s.txs[t := Waiting(body, alert)])
    case Acquire(t) => s.(txs := s.txs[t := Locked(s.txs[t].body, s.txs[t].alert)], lock := Some(t))
    case ReadTip(t, tip) => s.(txs := s.txs[t := HasTip(s.txs[t].body, s.txs[t].alert, tip)])
    case Insert(t, id, createdAt) =>
      var tx := s.txs[t];
      var body := tx.body.(createdAt := createdAt);
      var row := Row(id, s.nextSeq, body, tx.tip, ComputeHash(h, body, tx.tip));
      s.(txs := s.txs[t := Written(row, tx.alert, false)], nextSeq := s.nextSeq + 1)
    case Queue(t) => s.(txs := s.txs[t := s.txs[t].(queued := true)])
    case Commit(t) =>
      var tx := s.txs[t];
      Ended(s, t).(ledger := s.ledger + [tx.row],
                   alerts := s.alerts + (if tx.queued then {tx.row.seqNo} else {}))
    case Abort(t) => Ended(s, t)
  }

  predicate Possible(h: HashFn, es: seq<Event>)
    decreases |es|, 0
  {
    es == [] || (Possible(h, es[..|es| - 1]) && Enabled(After(h, es[..|es| - 1]), es[|es| - 1]))
  }

  function After(h: HashFn, es: seq<Event>): State
    requires Possible(h, es)
    decreases |es|, 1
  {
    if es == [] then Empty else Step(h, After(h, es[..|es| - 1]), es[|es| - 1])
  }

  ghost predicate LedgerOk(h: HashFn, s: State) {
    Verified(h, s.ledger) && SeqAscending(s.ledger) && SeqBelow(s.ledger, s.nextSeq)
  }

  // Only the lock holder is past Waiting, and what it has read or written
  // extends the committed ledger as it is now.
  ghost predicate TxOk(h: HashFn, s: State, t: Tx)
    requires t in s.txs
  {
    var tx := s.txs[t];
    && (!tx.Waiting? ==> s.lock == Some(t))
    && (tx.HasTip? ==> tx.tip == PrevOf(s.ledger, |s.ledger|))
    && (tx.Written? ==>
          && tx.row == HonestRow(h, s.ledger, tx.row.id, tx.row.seqNo, tx.row.body)
          && SeqBelow(s.ledger, tx.row.seqNo) && tx.row.seqNo < s.nextSeq
          && (tx.queued ==> tx.alert))
  }

  ghost predicate Inv(h: HashFn, s: State) {
    && LedgerOk(h, s)
    && (forall t | t in s.txs :: TxOk(h, s, t))
    && (forall n | n in s.alerts :: exists i | 0 <= i < |s.ledger| :: s.ledger[i].seqNo == n)
  }

  lemma TipIsLast(ledger: seq<Row>, tip: Option<string>)
    requires SeqAscending(ledger) && IsTip(ledger, tip)
    ensures tip == PrevOf(ledger, |ledger|)
  {
    if ledger != [] {
      var i :| 0 <= i < |ledger| && ledger[i].hash == tip.value
               && forall k | 0 <= k < |ledger| :: ledger[k].seqNo <= ledger[i].seqNo;
      assert ledger[|ledger| - 1].seqNo <= ledger[i].seqNo;
    }
  }

  lemma StepKeepsTx(h: HashFn, s: State, e: Event, t: Tx)
    requires Inv(h, s) && Enabled(s, e) && t in Step(h, s, e).txs
    ensures TxOk(h, Step(h, s, e), t)
  {
    assert t in s.txs ==> TxOk(h, s, t);
    assert e.t in s.txs ==> TxOk(h, s, e.t);
    if e.ReadTip? {
      TipIsLast(s.ledger, e.tip);
    }
  }

  lemma StepKeepsLedger(h: HashFn, s: State, e: Event)
    requires Inv(h, s) && Enabled(s, e)
    ensures LedgerOk(h, Step(h, s, e))
    ensures forall n | n in Step(h, s, e).alerts ::
              exists i | 0 <= i < |Step(h, s, e).ledger| :: Step(h, s, e).ledger[i].seqNo == n
  {
    if e.Commit? {
      assert TxOk(h, s, e.t);
      HonestRowLinks(h, s.ledger, s.txs[e.t].row);
      var s' := Step(h, s, e);
      forall n | n in s'.alerts ensures exists i | 0 <= i < |s'.ledger| :: s'.ledger[i].seqNo == n {
        if n in s.alerts {
          var i :| 0 <= i < |s.ledger| && s.ledger[i].seqNo == n;
          assert s'.ledger[i].seqNo == n;
        } else {
          assert s'.ledger[|s.ledger|].seqNo == n;
        }
      }
    }
  }

  // Every interleaving of any number of appends, aborts included, leaves a
  // committed ledger that verifies, in sequence order, with alerts only for
  // committed events.
  lemma {:induction false} InterleavedAppendsVerify(h: HashFn, es: seq<Event>)
    requires Possible(h, es)
    ensures Inv(h, After(h, es))
    ensures Verified(h, After(h, es).ledger) && SeqAscending(After(h, es).ledger)
    ensures After(h, es).alerts <= SeqNos(After(h, es).ledger)
    decreases |es|
  {
    if es == [] {
    } else {
      var before, e := es[..|es| - 1], es[|es| - 1];
      InterleavedAppendsVerify(h, before);
      StepKeepsLedger(h, After(h, before), e);
      forall t | t in After(h, es).txs ensures TxOk(h, After(h, es), t) {
        StepKeepsTx(h, After(h, before), e, t);
      }
    }
    var s := After(h, es);
    forall n | n in s.alerts ensures n in SeqNos(s.ledger) {
      var i :| 0 <= i < |s.ledger| && s.ledger[i].seqNo == n;
    }
  }

  // The lock is held by a transaction that is still at work, and given back
  // by every commit and every abort.
  lemma {:induction false} LockIsGivenBack(h: HashFn, es: seq<Event>)
    requires Possible(h, es)
    ensures var s := After(h, es);
            && (s.lock.Some? ==> s.lock.value in s.txs && !s.txs[s.lock.value].Waiting?)
            && (s.lock.None? ==> forall t | t in s.txs :: s.txs[t].Waiting? && Enabled(s, Acquire(t)))
    decreases |es|
  {
    if es == [] {
    } else {
      LockIsGivenBack(h, es[..|es| - 1]);
      InterleavedAppendsVerify(h, es);
      assert forall t | t in After(h, es).txs :: TxOk(h, After(h, es), t);
    }
  }

  // An event and its alert appear together or not at all: a commit publishes
  // both, and no other step publishes either.
  lemma EventAndAlertTogether(h: HashFn, es: seq<Event>, e: Event)
    requires Possible(h, es) && Enabled(After(h, es), e)
    ensures var s, s' := After(h, es), Step(h, After(h, es), e);
            && (s'.ledger == s.ledger <==> !e.Commit?)
            && (!e.Commit? ==> s'.alerts == s.alerts)
            && (e.Commit? ==>
                  var row := s.txs[e.t].row;
                  && s'.ledger == s.ledger + [row]
                  && row.seqNo !in s.alerts
                  && (row.seqNo in s'.alerts <==> s.txs[e.t].alert)
                  && s'.alerts - {row.seqNo} == s.alerts)
  {
    InterleavedAppendsVerify(h, es);
    var s := After(h, es);
    if e.Commit? {
      assert TxOk(h, s, e.t);
      assert |Step(h, s, e).ledger| == |s.ledger| + 1;
    }
  }

  // The events that have been committed, by sequence number, with an alert.
  function CommittedWithAlert(h: HashFn, es: seq<Event>): set<nat>
    requires Possible(h, es)
    decreases |es|
  {
    if es == [] then {}
    else
      var (s, e) := (After(h, es[..|es| - 1]), es[|es| - 1]);
      CommittedWithAlert(h, es[..|es| - 1])
      + if e.Commit? && s.txs[e.t].alert then {s.txs[e.t].row.seqNo} else {}
  }

  function Committed(h: HashFn, es: seq<Event>): set<nat>
    requires Possible(h, es)
    decreases |es|
  {
    if es == [] then {}
    else
      var (s, e) := (After(h, es[..|es| - 1]), es[|es| - 1]);
      Committed(h, es[..|es| - 1]) + if e.Commit? then {s.txs[e.t].row.seqNo} else {}
  }

  // Over any run the ledger holds exactly the committed events, and the
  // outbox exactly the alerts of those that were appended with one.
  lemma {:induction false} AlertsAreThoseCommitted(h: HashFn, es: seq<Event>)
    requires Possible(h, es)
    ensures SeqNos(After(h, es).ledger) == Committed(h, es)
    ensures After(h, es).alerts == CommittedWithAlert(h, es)
    decreases |es|
  {
    if es == [] {
    } else {
      var (before, e) := (es[..|es| - 1], es[|es| - 1]);
      AlertsAreThoseCommitted(h, before);
      EventAndAlertTogether(h, before, e);
      if e.Commit? {
        SeqNosGrow(After(h, before).ledger, After(h, before).txs[e.t].row);
      }
    }
  }

  lemma SeqNosGrow(ledger: seq<Row>, row: Row)
    ensures SeqNos(ledger + [row]) == SeqNos(ledger) + {row.seqNo}
  {
    var longer := ledger + [row];
    forall n | n in SeqNos(ledger) ensures n in SeqNos(longer) {
      var i :| 0 <= i < |ledger| && ledger[i].seqNo == n;
      assert longer[i].seqNo == n;
    }
    assert longer[|ledger|].seqNo == row.seqNo;
  }

  // The honest ledger read back: it verifies when (and, short of a collision,
  // only when) every event was written with its metadata keys in storage order.
  lemma InterleavedAppendsReload(h: HashFn, reload: Reload, es: seq<Event>)
    requires Possible(h, es) && StoresInKeyOrder(reload)
    ensures var rows := After(h, es).ledger;
            && (AllOrdered(rows) ==> Verified(h, ReloadedAll(reload, rows)))
            && (Verified(h, ReloadedAll(reload, rows)) ==>
                  AllOrdered(rows) || Collide(h, rows, ReloadedAll(reload, rows)))
  {
    InterleavedAppendsVerify(h, es);
    HonestLedgerVerifiesIffOrdered(h, reload, After(h, es).ledger);
  }
}
