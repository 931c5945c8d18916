// The notification_outbox table and the statements that run against it
// (backend/src/notifications/notification-dispatcher.ts,
//  backend/src/notifications/notifications.service.ts).
module Outbox {
  import opened Prelude
  import DeliveryPolicy

  const LEASE_MS := 120_000
  const RETENTION_MS := 90 * 24 * 60 * 60 * 1000

  type Id = nat

  datatype Status = Pending | Processing | Sent | Failed

  datatype Row = Row(
    eventType: string,
    priority: nat,
    status: Status,
    attempts: nat,
    maxAttempts: nat,
    nextAttemptAt: int,
    lockedUntil: Option<int>,
    sentAt: Option<int>,
    lastErrorCode: Option<string>)

  // What RETURNING hands to the dispatcher.
  datatype ClaimedRow = ClaimedRow(id: Id, eventType: string, attempts: nat, maxAttempts: nat)

  datatype Outcome = OutSent | OutRetry | OutFailed

  datatype SendReport = SendReport(ok: bool, httpAttempts: nat, errorCode: Option<string>)

  // -------- the statements, as functions on one row --------

  function NewRow(eventType: string, now: int): Row {
    var policy := DeliveryPolicy.PolicyFor(eventType);
    Row(eventType, policy.priority, Pending, 0, policy.maxAttempts, now, None, None, None)
  }

  predicate Claimable(row: Row, now: int) {
    || (row.status == Pending && row.nextAttemptAt <= now)
    || (row.status == Processing && row.lockedUntil.Some? && row.lockedUntil.value < now)
  }

  function ClaimedAt(row: Row, now: int): Row {
    row.(status := Processing, attempts := row.attempts + 1, lockedUntil := Some(now + LEASE_MS))
  }

  function Ticket(id: Id, row: Row): ClaimedRow {
    ClaimedRow(id, row.eventType, row.attempts, row.maxAttempts)
  }

  // ORDER BY priority, "nextAttemptAt".
  predicate NotAfter(a: Row, b: Row) {
    a.priority < b.priority || (a.priority == b.priority && a.nextAttemptAt <= b.nextAttemptAt)
  }

  function OutcomeOf(job: ClaimedRow, ok: bool): Outcome {
    if ok then OutSent else if job.attempts >= job.maxAttempts then OutFailed else OutRetry
  }

  function RetryWait(job: ClaimedRow, outcome: Outcome): nat {
    if outcome == OutRetry && job.attempts >= 1
    then DeliveryPolicy.BackoffMs(job.eventType, job.attempts) else 0
  }

  function Recorded(row: Row, job: ClaimedRow, outcome: Outcome, errorCode: Option<string>, now: int): Row {
    row.(
      status := match outcome case OutSent => Sent case OutRetry => Pending case OutFailed => Failed,
      sentAt := if outcome == OutSent then Some(now) else row.sentAt,
      nextAttemptAt := now + RetryWait(job, outcome),
      lockedUntil := None,
      lastErrorCode := errorCode)
  }

  predicate Purgeable(row: Row, now: int) {
    row.status == Sent && row.sentAt.Some? && row.sentAt.value < now - RETENTION_MS
  }

  predicate Finished(row: Row) {
    row.status == Sent || row.status == Failed
  }

  // -------- crash-free deliveries of one row --------

  // Claim at `now`, then record: the abandoned branch when the claim went past
  // maxAttempts, otherwise the outcome of the send.
  function Deliver(row: Row, id: Id, ok: bool, now: int): Row {
    var claimed := ClaimedAt(row, now);
    var job := Ticket(id, claimed);
    if job.attempts > job.maxAttempts
    then Recorded(claimed, job, OutFailed, Some("abandoned"), now)
    else Recorded(claimed, job, OutcomeOf(job, ok), None, now)
  }

  // One delivery per element of `oks`, none once the row is finished; each is
  // made as soon as the row has become due.
  function Deliveries(row: Row, id: Id, oks: seq<bool>, now: int): Row
    decreases |oks|
  {
    if oks == [] || Finished(row) then row
    else
      var due := DueAt(row, now);
      Deliveries(Deliver(row, id, oks[0], due), id, oks[1..], due)
  }

  function DueAt(row: Row, now: int): int {
    if row.status == Pending && row.nextAttemptAt > now then row.nextAttemptAt
    else if row.status == Processing && row.lockedUntil.Some? && row.lockedUntil.value >= now
    then row.lockedUntil.value + 1
    else now
  }

  function DeliveriesLeft(row: Row): nat {
    if row.maxAttempts > row.attempts + 1 then row.maxAttempts - row.attempts else 1
  }

  // The termination measure of the retry policy: however the sends turn out,
  // max(1, maxAttempts - attempts) crash-free deliveries finish the row, and a
  // row that ends in `failed` has used up its attempts.
  lemma {:induction false} DeliveriesFinish(row: Row, id: Id, oks: seq<bool>, now: int)
    requires row.status == Failed ==> row.attempts >= row.maxAttempts
    requires |oks| >= DeliveriesLeft(row)
    ensures Finished(Deliveries(row, id, oks, now))
    ensures Deliveries(row, id, oks, now).status == Failed ==>
              Deliveries(row, id, oks, now).attempts >= row.maxAttempts
    decreases |oks|
  {
    if !Finished(row) {
      var due := DueAt(row, now);
      var next := Deliver(row, id, oks[0], due);
      assert Deliveries(row, id, oks, now) == Deliveries(next, id, oks[1..], due);
      if Finished(next) {
        assert Deliveries(next, id, oks[1..], due) == next;
      } else {
        DeliveriesFinish(next, id, oks[1..], due);
      }
    }
  }

  // The bound is met: with a failing sender no shorter series finishes the row.
  lemma {:induction false} FewerDeliveriesDoNot(row: Row, id: Id, oks: seq<bool>, now: int)
    requires !Finished(row) && |oks| < DeliveriesLeft(row)
    requires forall i | 0 <= i < |oks| :: !oks[i]
    ensures !Finished(Deliveries(row, id, oks, now))
    decreases |oks|
  {
    if oks == [] {
    } else {
      var due := DueAt(row, now);
      FewerDeliveriesDoNot(Deliver(row, id, oks[0], due), id, oks[1..], due);
    }
  }

  // A row in which `processing` and the lease agree cannot get stuck: as long
  // as it is unfinished there is a time from which on it is claimable.
  lemma UnfinishedBecomesClaimable(row: Row, now: int) returns (from: int)
    requires row.status == Processing <==> row.lockedUntil.Some?
    ensures !Finished(row) ==> Claimable(row, DueAt(row, now)) && DueAt(row, now) >= now
    ensures !Finished(row) ==> forall t | t >= from :: Claimable(row, t)
    ensures Finished(row) ==> forall t :: !Claimable(row, t)
  {
    from := if row.status == Processing then row.lockedUntil.value + 1 else row.nextAttemptAt;
  }

  // -------- the table --------

  predicate IsFirst(rows: map<Id, Row>, due: set<Id>, id: Id)
    requires due <= rows.Keys
  {
    id in due && forall other | other in due :: NotAfter(rows[id], rows[other])
  }

  lemma {:induction false} FirstDueExists(rows: map<Id, Row>, due: set<Id>)
    requires due != {} && due <= rows.Keys
    ensures exists id :: id in due && IsFirst(rows, due, id)
    decreases |due|
  {
    var x :| x in due;
    var rest := due - {x};
    if rest == {} {
      assert due == {x};
      assert IsFirst(rows, due, x);
    } else {
      FirstDueExists(rows, rest);
      var y :| y in rest && IsFirst(rows, rest, y);
      var first := if NotAfter(rows[x], rows[y]) then x else y;
      forall other | other in due ensures NotAfter(rows[first], rows[other]) {
        if other != x {
          assert other in rest;
        }
      }
      assert IsFirst(rows, due, first);
    }
  }

  // A line of the attempt history.
  datatype Attempt = Attempt(id: Id, outcome: Outcome, httpAttempts: nat, at: int)

  // The history without lines before the cutoff and lines of rows that are gone.
  function Kept(attempts: seq<Attempt>, cutoff: int, ids: set<Id>): (kept: seq<Attempt>)
    ensures forall a :: a in kept <==> a in attempts && a.at >= cutoff && a.id in ids
    ensures |kept| <= |attempts|
  {
    if attempts == [] then []
    else
      var (front, a) := (attempts[..|attempts| - 1], attempts[|attempts| - 1]);
      assert attempts == front + [a];
      Kept(front, cutoff, ids) + if a.at >= cutoff && a.id in ids then [a] else []
  }

  class OutboxTable {
    var rows: map<Id, Row>
    var attempts: seq<Attempt>

    constructor ()
      ensures rows == map[] && attempts == []
    {
      rows, attempts := map[], [];
    }

    // A fresh row; the caller's transaction decides whether it stays.
    method Enqueue(id: Id, eventType: string, now: int)
      requires id !in rows
      modifies this`rows
      ensures rows == old(rows)[id := NewRow(eventType, now)]
      // due at once, never tried, with the columns of its type's policy
      ensures var policy := DeliveryPolicy.PolicyFor(eventType);
              rows[id] == Row(eventType, policy.priority, Pending, 0, policy.maxAttempts, now, None, None, None)
    {
      var policy := DeliveryPolicy.PolicyFor(eventType);
      rows := rows[id := Row(eventType, policy.priority, Pending, 0, policy.maxAttempts, now, None, None, None)];
    }

    // One statement picks the first claimable row, leases it and returns it.
    method Claim(now: int) returns (job: Option<ClaimedRow>)
      modifies this`rows
      ensures job.None? <==> forall id | id in old(rows) :: !Claimable(old(rows)[id], now)
      ensures job.None? ==> rows == old(rows)
      ensures job.Some? ==>
                && job.value.id in old(rows)
                && var row := old(rows)[job.value.id];
                && Claimable(row, now)
                && (forall id | id in old(rows) && Claimable(old(rows)[id], now) :: NotAfter(row, old(rows)[id]))
                && rows == old(rows)[job.value.id := ClaimedAt(row, now)]
                && job.value == Ticket(job.value.id, ClaimedAt(row, now))
      // column by column: pending and due, or with an expired lease; leased for
      // two minutes, with the number of the new attempt
      ensures job.Some? ==>
                && var (was, row) := (old(rows)[job.value.id], rows[job.value.id]);
                && (was.status == Pending || was.status == Processing)
                && (was.status == Pending ==> was.nextAttemptAt <= now)
                && (was.status == Processing ==> was.lockedUntil.Some? && was.lockedUntil.value < now)
                && row == was.(status := Processing, attempts := was.attempts + 1, lockedUntil := Some(now + 120_000))
                && job.value == ClaimedRow(job.value.id, was.eventType, was.attempts + 1, was.maxAttempts)
      // ahead of every other such row: more urgent, or as urgent and due no later
      ensures forall id | id in old(rows) ::
                var row := old(rows)[id];
                (row.status == Pending && row.nextAttemptAt <= now)
                || (row.status == Processing && row.lockedUntil.Some? && row.lockedUntil.value < now) ==>
                  && job.Some?
                  && var first := old(rows)[job.value.id];
                  && first.priority <= row.priority
                  && (first.priority == row.priority ==> first.nextAttemptAt <= row.nextAttemptAt)
    {
      var due := set id | id in rows && Claimable(rows[id], now);
      if due == {} {
        assert forall id | id in rows :: !Claimable(rows[id], now) by {
          forall id | id in rows ensures !Claimable(rows[id], now) { assert id !in due; }
        }
        return None;
      }
      FirstDueExists(rows, due);
      var first :| first in due && IsFirst(rows, due, first);
      var row := rows[first];
      assert forall id | id in rows && Claimable(rows[id], now) :: id in due;
      var locked := row.(status := Processing, attempts := row.attempts + 1, lockedUntil := Some(now + LEASE_MS));
      rows := rows[first := locked];
      return Some(ClaimedRow(first, locked.eventType, locked.attempts, locked.maxAttempts));
    }

    // The recording transaction: its history row carries
    // a foreign key to the outbox row, so without the row nothing is written.
    method Record(job: ClaimedRow, report: SendReport, outcome: Outcome, now: int) returns (committed: bool)
      requires job.attempts >= 1
      modifies this
      ensures committed <==> job.id in old(rows)
      ensures !committed ==> rows == old(rows) && attempts == old(attempts)
      ensures committed ==>
                && rows == old(rows)[job.id := Recorded(old(rows)[job.id], job, outcome,
                                     if report.ok then None else report.errorCode, now)]
                && attempts == old(attempts) + [Attempt(job.id, outcome, report.httpAttempts, now)]
      // column by column: whatever the row was before, its lease is gone
      ensures committed ==>
                && var (was, row) := (old(rows)[job.id], rows[job.id]);
                && (row.status == Sent <==> outcome == OutSent)
                && (row.status == Failed <==> outcome == OutFailed)
                && (row.status == Pending <==> outcome == OutRetry)
                && row.lockedUntil == None
                && row.sentAt == (if outcome == OutSent then Some(now) else was.sentAt)
                && row.lastErrorCode == (if report.ok then None else report.errorCode)
                && row.nextAttemptAt == now + (if outcome == OutRetry
                                              then DeliveryPolicy.BackoffMs(job.eventType, job.attempts) else 0)
                && (row.eventType, row.priority, row.attempts, row.maxAttempts)
                   == (was.eventType, was.priority, was.attempts, was.maxAttempts)
    {
      var nextInMs := if outcome == OutRetry then DeliveryPolicy.BackoffMs(job.eventType, job.attempts) else 0;
      if job.id !in rows {
        return false;
      }
      attempts := attempts + [Attempt(job.id, outcome, report.httpAttempts, now)];
      var row := rows[job.id];
      var status := match outcome case OutSent => Sent case OutRetry => Pending case OutFailed => Failed;
      rows := rows[job.id := row.(
        status := status,
        sentAt := if status == Sent then Some(now) else row.sentAt,
        nextAttemptAt := now + nextInMs,
        lockedUntil := None,
        lastErrorCode := if report.ok then None else report.errorCode)];
      return true;
    }

    // Removes history lines and sent rows past the retention window, with the
    // history of these rows; failed rows stay.
    method Purge(now: int)
      modifies this`rows, this`attempts
      ensures attempts == Kept(old(attempts), now - RETENTION_MS, rows.Keys)
      ensures rows.Keys == set id | id in old(rows) && !Purgeable(old(rows)[id], now)
      ensures forall id | id in rows :: rows[id] == old(rows)[id]
      // gone are the rows sent more than ninety days ago, and no others
      ensures forall id | id in old(rows) ::
                var row := old(rows)[id];
                id !in rows <==>
                row.status == Sent && row.sentAt.Some? && row.sentAt.value + 90 * 24 * 60 * 60 * 1000 < now
      ensures forall a :: a in attempts <==>
                a in old(attempts) && a.at + 90 * 24 * 60 * 60 * 1000 >= now && a.id in rows
    {
      rows := map id | id in rows && !Purgeable(rows[id], now) :: rows[id];
      attempts := Kept(attempts, now - RETENTION_MS, rows.Keys);
    }
  }
}
