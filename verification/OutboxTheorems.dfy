// What every run of the outbox keeps: first without any timing assumption,
// then under the assumption that a live dispatcher records before its lease
// ends, and how far the sender's time budget discharges that assumption.
module OutboxTheorems {
  import opened Prelude
  import opened Outbox
  import opened OutboxProtocol
  import DeliveryPolicy
  import TelegramSender

  function Count(es: seq<Event>, p: Event -> bool): nat {
    if es == [] then 0
    else Count(es[..|es| - 1], p) + (if p(es[|es| - 1]) then 1 else 0)
  }

  function IsSend(id: Id): Event -> bool { (e: Event) => e.BeginSend? && e.id == id }
  function IsHttpOf(id: Id, n: nat): Event -> bool { (e: Event) => e.Http? && e.id == id && e.n == n }
  function IsHttp(id: Id): Event -> bool { (e: Event) => e.Http? && e.id == id }
  function IsSuccess(id: Id): Event -> bool { (e: Event) => e.EndSend? && e.id == id && e.ok }
  function IsAbandon(id: Id): Event -> bool { (e: Event) => (e.Crash? || e.RecordFails?) && e.id == id }

  lemma {:induction false} RunsKeepInv(es: seq<Event>)
    requires Possible(es)
    ensures Inv(After(es))
    decreases |es|
  {
    if es == [] {
    } else {
      RunsKeepInv(es[..|es| - 1]);
      StepKeepsInv(After(es[..|es| - 1]), es[|es| - 1]);
    }
  }

  // In every reachable state `processing` goes with a lease, `failed` with
  // used-up attempts, and an unfinished row becomes claimable by itself.
  lemma NoRowGetsStuck(es: seq<Event>, id: Id) returns (from: int)
    requires Possible(es) && id in After(es).rows
    ensures var row := After(es).rows[id];
            && (row.status == Processing <==> row.lockedUntil.Some?)
            && (row.status == Failed ==> row.attempts >= row.maxAttempts)
            && (!Finished(row) ==> forall t | t >= from :: Claimable(row, t))
            && (forall oks: seq<bool>, now | |oks| >= DeliveriesLeft(row) ::
                  Finished(Deliveries(row, id, oks, now)))
  {
    RunsKeepInv(es);
    var row := After(es).rows[id];
    from := UnfinishedBecomesClaimable(row, After(es).now);
    forall oks: seq<bool>, now | |oks| >= DeliveriesLeft(row)
      ensures Finished(Deliveries(row, id, oks, now))
    {
      DeliveriesFinish(row, id, oks, now);
    }
  }

  // -------- sender.send is called at most maxAttempts times per row --------

  lemma {:induction false} SendsAreTries(es: seq<Event>, id: Id)
    requires Possible(es)
    ensures id in After(es).tried ==> Count(es, IsSend(id)) == |After(es).tried[id]|
    ensures id !in After(es).tried ==> Count(es, IsSend(id)) == 0
    decreases |es|
  {
    if es == [] {
    } else {
      var before, e := es[..|es| - 1], es[|es| - 1];
      SendsAreTries(before, id);
      RunsKeepInv(before);
      if e.BeginSend? && e.id == id {
        assert JobOk(After(before), After(before).jobs[e.w]);
      }
    }
  }

  // The counter in a sending job is the number of its HTTP events so far.
  ghost predicate CallsCounted(s: State, id: Id, n: nat, count: nat) {
    forall w | w in s.jobs && s.jobs[w].ticket.id == id && s.jobs[w].ticket.attempts == n :: 
      s.jobs[w].phase.Sending? ==> |s.jobs[w].phase.calls| == count
  }

  lemma CallsCountedStep(s: State, e: Event, id: Id, n: nat, count: nat)
    requires Inv(s) && Enabled(s, e) && CallsCounted(s, id, n, count) && count <= TelegramSender.SEND_MAX_ATTEMPTS
    requires id !in s.tried || n !in s.tried[id] ==> count == 0
    ensures var count' := count + (if IsHttpOf(id, n)(e) then 1 else 0);
            && CallsCounted(Step(s, e), id, n, count') && count' <= TelegramSender.SEND_MAX_ATTEMPTS
            && (id !in Step(s, e).tried || n !in Step(s, e).tried[id] ==> count' == 0)
  {
    var s' := Step(s, e);
    forall w | w in s'.jobs && s'.jobs[w].ticket.id == id && s'.jobs[w].ticket.attempts == n
      ensures s'.jobs[w].phase.Sending? ==>
                |s'.jobs[w].phase.calls| == count + (if IsHttpOf(id, n)(e) then 1 else 0)
    {
      assert w in s.jobs ==> JobOk(s, s.jobs[w]);
      if e.Http? && e.w != w && s.jobs[e.w].ticket.id == id {
        assert s.jobs[e.w].ticket.attempts != n;
      }
    }
    if IsHttpOf(id, n)(e) {
      assert JobOk(s, s.jobs[e.w]);
    }
  }

  lemma {:induction false} HttpPerAttempt(es: seq<Event>, id: Id, n: nat)
    requires Possible(es)
    ensures Count(es, IsHttpOf(id, n)) <= TelegramSender.SEND_MAX_ATTEMPTS
    ensures CallsCounted(After(es), id, n, Count(es, IsHttpOf(id, n)))
    ensures id !in After(es).tried || n !in After(es).tried[id] ==> Count(es, IsHttpOf(id, n)) == 0
    decreases |es|
  {
    if es == [] {
    } else {
      var before := es[..|es| - 1];
      HttpPerAttempt(before, id, n);
      RunsKeepInv(before);
      CallsCountedStep(After(before), es[|es| - 1], id, n, Count(before, IsHttpOf(id, n)));
    }
  }

  function SumHttp(es: seq<Event>, id: Id, k: nat): nat {
    if k == 0 then 0 else SumHttp(es, id, k - 1) + Count(es, IsHttpOf(id, k))
  }

  lemma {:induction false} SumHttpStep(es: seq<Event>, id: Id, k: nat)
    requires es != []
    ensures var e := es[|es| - 1];
            SumHttp(es, id, k) == SumHttp(es[..|es| - 1], id, k)
                                  + (if e.Http? && e.id == id && 1 <= e.n <= k then 1 else 0)
    decreases k
  {
    if k == 0 {
    } else {
      SumHttpStep(es, id, k - 1);
    }
  }

  lemma {:induction false} SumHttpEmpty(id: Id, k: nat)
    ensures SumHttp([], id, k) == 0
  {
    if k == 0 {
    } else {
      SumHttpEmpty(id, k - 1);
    }
  }

  lemma {:induction false} HttpIsSummed(es: seq<Event>, id: Id, k: nat)
    requires Possible(es)
    requires id in After(es).issued ==> k == DeliveryPolicy.PolicyFor(After(es).issued[id]).maxAttempts
    ensures Count(es, IsHttp(id)) == SumHttp(es, id, k)
    decreases |es|
  {
    if es == [] {
      SumHttpEmpty(id, k);
    } else {
      var before, e := es[..|es| - 1], es[|es| - 1];
      RunsKeepInv(before);
      HttpIsSummed(before, id, k);
      SumHttpStep(es, id, k);
      if e.Http? && e.id == id {
        assert JobOk(After(before), After(before).jobs[e.w]);
      }
    }
  }

  lemma {:induction false} SumHttpBounded(es: seq<Event>, id: Id, k: nat)
    requires Possible(es)
    ensures SumHttp(es, id, k) <= TelegramSender.SEND_MAX_ATTEMPTS * k
    decreases k
  {
    if k == 0 {
    } else {
      SumHttpBounded(es, id, k - 1);
      HttpPerAttempt(es, id, k);
    }
  }

  // No timing assumption: crashes, expired leases and late records included,
  // a row reaches sender.send at most maxAttempts times and causes at most
  // three HTTP calls per attempt.
  lemma SendsAndCallsBounded(es: seq<Event>, id: Id)
    requires Possible(es) && id in After(es).issued
    ensures var max := DeliveryPolicy.PolicyFor(After(es).issued[id]).maxAttempts;
            && Count(es, IsSend(id)) <= max
            && Count(es, IsHttp(id)) <= TelegramSender.SEND_MAX_ATTEMPTS * max
  {
    RunsKeepInv(es);
    var max := DeliveryPolicy.PolicyFor(After(es).issued[id]).maxAttempts;
    SendsAreTries(es, id);
    BoundedSetSize(After(es).tried[id], max);
    HttpIsSummed(es, id, max);
    SumHttpBounded(es, id, max);
  }

  // -------- nothing is marked as sent that was not --------

  ghost predicate SentIsTrue(s: State, id: Id, successes: nat) {
    && (id in s.rows && s.rows[id].status == Sent ==> successes >= 1)
    && (forall w | w in s.jobs && s.jobs[w].ticket.id == id && s.jobs[w].phase.Done? && s.jobs[w].phase.ok ::
          successes >= 1)
    && (id !in s.issued ==> id !in s.rows)
  }

  lemma StepKeepsSentTrue(s: State, e: Event, id: Id, successes: nat)
    requires Inv(s) && Enabled(s, e) && SentIsTrue(s, id, successes)
    ensures SentIsTrue(Step(s, e), id, successes + if IsSuccess(id)(e) then 1 else 0)
  {
    match e case _ => {}
  }

  // No timing assumption: a row is `sent` only after a send of it succeeded.
  lemma {:induction false} SentMeansAnswered(es: seq<Event>, id: Id)
    requires Possible(es)
    ensures SentIsTrue(After(es), id, Count(es, IsSuccess(id)))
    ensures id in After(es).rows && After(es).rows[id].status == Sent ==> Count(es, IsSuccess(id)) >= 1
    decreases |es|
  {
    if es == [] {
    } else {
      var before := es[..|es| - 1];
      SentMeansAnswered(before, id);
      RunsKeepInv(before);
      StepKeepsSentTrue(After(before), es[|es| - 1], id, Count(before, IsSuccess(id)));
    }
  }

  // What may happen to a row: it is enqueued, claimed, recorded or purged, and
  // nothing else changes it.
  lemma RowsChangeByStatements(s: State, e: Event, id: Id)
    requires Enabled(s, e)
    ensures var (was, now_) := (s.rows, Step(s, e).rows);
            match e
            case Enqueue(x, eventType) =>
              if x == id then id in now_ && now_[id].status == Pending && now_[id].eventType == eventType
              else id in now_ <==> id in was
            case Claim(_, x) =>
              && (id in now_ <==> id in was)
              && (x == id ==>
                    && was[id].status in {Pending, Processing}
                    && now_[id] == was[id].(status := Processing, attempts := was[id].attempts + 1,
                                           lockedUntil := Some(s.now + 120_000)))
            case Record(_, x, _) =>
              (id in now_ <==> id in was) && (x == id ==> now_[id].status != Processing && now_[id].lockedUntil == None)
            case Purge =>
              id in now_ <==> id in was && !(was[id].status == Sent && was[id].sentAt.Some?
                                            && was[id].sentAt.value + 90 * 24 * 60 * 60 * 1000 < s.now)
            case _ => now_ == was
    ensures id in s.rows && id in Step(s, e).rows && Step(s, e).rows[id] != s.rows[id] ==>
              (e.Enqueue? || e.Claim? || e.Record?) && e.id == id
  {
    match e case _ => {}
  }

  // A retry recorded by any job waits exactly its own table entry.
  lemma RetryWaitsItsTableEntry(es: seq<Event>, w: Worker, id: Id, code: Option<string>)
    requires Possible(es) && Enabled(After(es), Record(w, id, code))
    requires JobOutcome(After(es).jobs[w]) == OutRetry
    ensures id in After(es).issued
    ensures var s, s' := After(es), Step(After(es), Record(w, id, code));
            var n := s.jobs[w].ticket.attempts;
            var table := DeliveryPolicy.PolicyFor(s.issued[id]).backoffMinutes;
            && 1 <= n <= |table|
            && s'.rows[id].status == Pending
            && s'.rows[id].nextAttemptAt == s.now + table[n - 1] * DeliveryPolicy.MS_PER_MINUTE
  {
    RunsKeepInv(es);
    var s := After(es);
    assert JobOk(s, s.jobs[w]);
    DeliveryPolicy.RetryHasItsOwnBackoff(s.issued[id], s.jobs[w].ticket.attempts);
  }

  // -------- with live dispatchers recording before `lockedUntil` --------

  // Time does not pass the lease of a job that is still in the memory of a
  // live dispatcher.
  predicate TimelyStep(s: State, e: Event) {
    e.Advance? ==> forall w | w in s.jobs :: e.to <= s.jobs[w].lease
  }

  predicate Timely(es: seq<Event>)
    requires Possible(es)
    decreases |es|
  {
    es == [] || (Timely(es[..|es| - 1]) && TimelyStep(After(es[..|es| - 1]), es[|es| - 1]))
  }

  predicate LeasedJob(s: State, job: Job) {
    && job.ticket.id in s.rows
    && s.rows[job.ticket.id].status == Processing
    && s.rows[job.ticket.id].lockedUntil == Some(job.lease)
    && s.rows[job.ticket.id].attempts == job.ticket.attempts
    && s.now <= job.lease
  }

  ghost predicate Leased(s: State) {
    forall w | w in s.jobs :: LeasedJob(s, s.jobs[w])
  }

  lemma OneLeasePerRow(s: State, v: Worker, w: Worker)
    requires Inv(s) && Leased(s) && v in s.jobs && w in s.jobs
    ensures s.jobs[v].ticket.id == s.jobs[w].ticket.id ==> v == w
  {
    assert LeasedJob(s, s.jobs[v]) && LeasedJob(s, s.jobs[w]);
  }

  lemma StepKeepsLeased(s: State, e: Event)
    requires Inv(s) && Leased(s) && Enabled(s, e) && TimelyStep(s, e)
    ensures Leased(Step(s, e))
  {
    forall w | w in Step(s, e).jobs
      ensures LeasedJob(Step(s, e), Step(s, e).jobs[w])
    {
      if WritesRows(e) {
        RowWriterKeepsLeasedJob(s, e, w);
      } else {
        RowsAloneKeepLeasedJob(s, e, w);
      }
    }
  }

  // A worker's own lease is untouched by what happens to other rows and jobs.
  lemma OtherRowsKeepLeasedJob(s: State, s': State, w: Worker)
    requires Leased(s) && w in s.jobs && w in s'.jobs
    requires s'.jobs[w].ticket == s.jobs[w].ticket && s'.jobs[w].lease == s.jobs[w].lease
    requires var id := s.jobs[w].ticket.id;
             id in s.rows ==> id in s'.rows && s'.rows[id] == s.rows[id]
    requires s'.now <= s.jobs[w].lease
    ensures LeasedJob(s', s'.jobs[w])
  {
    assert LeasedJob(s, s.jobs[w]);
  }

  lemma ClaimKeepsLeasedJob(s: State, e: Event, w: Worker)
    requires Inv(s) && Leased(s) && Enabled(s, e) && e.Claim? && w in Step(s, e).jobs
    ensures LeasedJob(Step(s, e), Step(s, e).jobs[w])
  {
    if w != e.w {
      assert LeasedJob(s, s.jobs[w]);
      OtherRowsKeepLeasedJob(s, Step(s, e), w);
    }
  }

  lemma RecordKeepsLeasedJob(s: State, e: Event, w: Worker)
    requires Inv(s) && Leased(s) && Enabled(s, e) && e.Record? && w in Step(s, e).jobs
    ensures LeasedJob(Step(s, e), Step(s, e).jobs[w])
  {
    OneLeasePerRow(s, w, e.w);
    assert LeasedJob(s, s.jobs[w]);
    OtherRowsKeepLeasedJob(s, Step(s, e), w);
  }

  lemma PurgeKeepsLeasedJob(s: State, w: Worker)
    requires Inv(s) && Leased(s) && w in s.jobs
    ensures LeasedJob(Step(s, Purge), s.jobs[w])
  {
    assert LeasedJob(s, s.jobs[w]);
    OtherRowsKeepLeasedJob(s, Step(s, Purge), w);
  }

  lemma EnqueueKeepsLeasedJob(s: State, e: Event, w: Worker)
    requires Inv(s) && Leased(s) && Enabled(s, e) && e.Enqueue? && w in s.jobs
    ensures LeasedJob(Step(s, e), Step(s, e).jobs[w])
  {
    assert LeasedJob(s, s.jobs[w]) && JobOk(s, s.jobs[w]);
    OtherRowsKeepLeasedJob(s, Step(s, e), w);
  }

  lemma RowsAloneKeepLeasedJob(s: State, e: Event, w: Worker)
    requires Leased(s) && Enabled(s, e) && TimelyStep(s, e) && w in Step(s, e).jobs
    requires !WritesRows(e)
    ensures LeasedJob(Step(s, e), Step(s, e).jobs[w])
  {
    assert LeasedJob(s, s.jobs[w]);
    assert Step(s, e).rows == s.rows;
  }

  predicate WritesRows(e: Event) {
    e.Enqueue? || e.Claim? || e.Record? || e.Purge?
  }

  lemma RowWriterKeepsLeasedJob(s: State, e: Event, w: Worker)
    requires Inv(s) && Leased(s) && Enabled(s, e) && WritesRows(e) && w in Step(s, e).jobs
    ensures LeasedJob(Step(s, e), Step(s, e).jobs[w])
  {
    if e.Enqueue? {
      EnqueueKeepsLeasedJob(s, e, w);
    } else if e.Claim? {
      ClaimKeepsLeasedJob(s, e, w);
    } else if e.Record? {
      RecordKeepsLeasedJob(s, e, w);
    } else {
      PurgeKeepsLeasedJob(s, w);
    }
  }

  lemma {:induction false} TimelyRunsKeepLeased(es: seq<Event>)
    requires Possible(es) && Timely(es)
    ensures Leased(After(es))
    decreases |es|
  {
    if es == [] {
    } else {
      TimelyRunsKeepLeased(es[..|es| - 1]);
      RunsKeepInv(es[..|es| - 1]);
      StepKeepsLeased(After(es[..|es| - 1]), es[|es| - 1]);
    }
  }

  // At most one live dispatcher holds a row, and the row carries its lease.
  lemma OneHolderPerRow(es: seq<Event>, v: Worker, w: Worker, id: Id)
    requires Possible(es) && Timely(es)
    requires Holds(After(es), v, id) && Holds(After(es), w, id)
    ensures v == w
    ensures id in After(es).rows && After(es).rows[id].lockedUntil == Some(After(es).jobs[v].lease)
  {
    RunsKeepInv(es);
    TimelyRunsKeepLeased(es);
  }

  lemma {:induction false} PrefixOfTimely(es: seq<Event>, i: nat)
    requires i <= |es| && Possible(es) && Timely(es)
    ensures Possible(es[..i]) && Timely(es[..i])
    decreases |es|
  {
    if i == |es| {
      assert es[..i] == es;
    } else {
      PrefixOfTimely(es[..|es| - 1], i);
      assert es[..|es| - 1][..i] == es[..i];
    }
  }

  lemma FinishedStep(s: State, e: Event, id: Id)
    requires Inv(s) && Leased(s) && Enabled(s, e)
    requires id in s.issued && (id in s.rows ==> Finished(s.rows[id]))
    ensures var s' := Step(s, e);
            && id in s'.issued
            && (id in s'.rows ==> id in s.rows && s'.rows[id] == s.rows[id])
            && (id in s.rows && id !in s'.rows ==> s.rows[id].status == Sent)
  {
  }

  // A recorded `sent` or `failed` row never changes again; only the purge of
  // sent rows may remove it.
  lemma {:induction false} FinishedRowsFrozen(es: seq<Event>, i: nat, id: Id)
    requires i <= |es| && Possible(es) && Timely(es)
    requires Possible(es[..i]) && id in After(es[..i]).rows && Finished(After(es[..i]).rows[id])
    ensures id in After(es).rows ==> After(es).rows[id] == After(es[..i]).rows[id]
    ensures id !in After(es).rows ==> After(es[..i]).rows[id].status == Sent
    ensures id in After(es).issued
    decreases |es|
  {
    if i == |es| {
      assert es[..i] == es;
      RunsKeepInv(es);
    } else {
      var before := es[..|es| - 1];
      assert before[..i] == es[..i];
      FinishedRowsFrozen(before, i, id);
      RunsKeepInv(before);
      TimelyRunsKeepLeased(before);
      FinishedStep(After(before), es[|es| - 1], id);
    }
  }

  // -------- successful sends --------

  ghost predicate HasSuccess(s: State, id: Id) {
    exists w | w in s.jobs :: s.jobs[w].ticket.id == id && s.jobs[w].phase.Done? && s.jobs[w].phase.ok
  }

  ghost function DeliveredCount(s: State, id: Id): nat {
    if id in s.issued && (id !in s.rows || s.rows[id].status == Sent || HasSuccess(s, id)) then 1 else 0
  }

  // A success is reported for a leased row that has none yet.
  lemma FirstSuccess(s: State, e: Event, id: Id)
    requires Inv(s) && Leased(s) && Enabled(s, e) && IsSuccess(id)(e)
    ensures DeliveredCount(s, id) == 0 && DeliveredCount(Step(s, e), id) == 1
  {
    var s' := Step(s, e);
    assert JobOk(s, s.jobs[e.w]) && LeasedJob(s, s.jobs[e.w]);
    assert s'.jobs[e.w].phase.Done? && s'.jobs[e.w].phase.ok;
    assert HasSuccess(s', id);
    forall w | w in s.jobs && s.jobs[w].ticket.id == id
      ensures w == e.w
    {
      OneLeasePerRow(s, w, e.w);
    }
  }

  // A success held in memory stays so, is recorded, or is abandoned.
  lemma HeldSuccess(s: State, e: Event, id: Id, w: Worker)
    requires Inv(s) && Leased(s) && Enabled(s, e) && TimelyStep(s, e)
    requires w in s.jobs && s.jobs[w].ticket.id == id && s.jobs[w].phase.Done? && s.jobs[w].phase.ok
    ensures id in Step(s, e).issued
    ensures DeliveredCount(Step(s, e), id) == 1 || IsAbandon(id)(e)
  {
    assert JobOk(s, s.jobs[w]) && LeasedJob(s, s.jobs[w]);
    var s' := Step(s, e);
    if w in s'.jobs {
      assert s'.jobs[w] == s.jobs[w];
      assert HasSuccess(s', id);
    }
  }

  // A row that was sent, or is gone, stays so.
  lemma SentStays(s: State, e: Event, id: Id)
    requires Inv(s) && Leased(s) && Enabled(s, e) && id in s.issued
    requires id !in s.rows || s.rows[id].status == Sent
    ensures DeliveredCount(Step(s, e), id) == 1
  {
    FinishedStep(s, e, id);
  }

  lemma SuccessStep(s: State, e: Event, id: Id)
    requires Inv(s) && Leased(s) && Enabled(s, e) && TimelyStep(s, e)
    ensures DeliveredCount(s, id) + (if IsSuccess(id)(e) then 1 else 0)
         <= DeliveredCount(Step(s, e), id) + (if IsAbandon(id)(e) then 1 else 0)
  {
    if IsSuccess(id)(e) {
      FirstSuccess(s, e, id);
    } else if id in s.issued && (id !in s.rows || s.rows[id].status == Sent) {
      SentStays(s, e, id);
    } else if HasSuccess(s, id) {
      var w :| w in s.jobs && s.jobs[w].ticket.id == id && s.jobs[w].phase.Done? && s.jobs[w].phase.ok;
      HeldSuccess(s, e, id, w);
    }
  }

  // At-least-once, bounded: a row is delivered at most once more than it was
  // abandoned (by a crash or by a failed recording transaction).
  lemma {:induction false} SuccessesBounded(es: seq<Event>, id: Id)
    requires Possible(es) && Timely(es)
    ensures Count(es, IsSuccess(id)) <= 1 + Count(es, IsAbandon(id))
    ensures Count(es, IsSuccess(id)) <= DeliveredCount(After(es), id) + Count(es, IsAbandon(id))
    decreases |es|
  {
    if es == [] {
    } else {
      var before, e := es[..|es| - 1], es[|es| - 1];
      SuccessesBounded(before, id);
      RunsKeepInv(before);
      TimelyRunsKeepLeased(before);
      SuccessStep(After(before), e, id);
    }
  }

  // -------- discharging the timing assumption --------

  // A live dispatcher spends at most startLag between its claim and its send,
  // the sender's budget on the send, and recordLag until the record commits.
  predicate PromptStep(s: State, e: Event, startLag: nat, recordLag: nat) {
    e.Advance? ==> forall w | w in s.jobs :: e.to <= PhaseEnd(s.jobs[w], startLag, recordLag)
  }

  function PhaseEnd(job: Job, startLag: nat, recordLag: nat): int {
    match job.phase
    case Claimed => job.claimedAt + startLag
    case Sending(since, _, _) => since + TelegramSender.SEND_BUDGET_MS
    case Done(_, at) => at + recordLag
  }

  predicate Prompt(es: seq<Event>, startLag: nat, recordLag: nat)
    requires Possible(es)
    decreases |es|
  {
    es == [] || (Prompt(es[..|es| - 1], startLag, recordLag)
                 && PromptStep(After(es[..|es| - 1]), es[|es| - 1], startLag, recordLag))
  }

  ghost predicate OnSchedule(s: State, startLag: nat, recordLag: nat) {
    forall w | w in s.jobs ::
      var job := s.jobs[w];
      && job.lease == job.claimedAt + LEASE_MS
      && s.now <= PhaseEnd(job, startLag, recordLag)
      && (job.phase.Sending? ==> job.phase.since <= job.claimedAt + startLag)
      && (job.phase.Done? ==> job.phase.at <= job.claimedAt + startLag + TelegramSender.SEND_BUDGET_MS)
  }

  lemma PromptStepKeepsSchedule(s: State, e: Event, startLag: nat, recordLag: nat)
    requires OnSchedule(s, startLag, recordLag) && Enabled(s, e) && PromptStep(s, e, startLag, recordLag)
    requires startLag + TelegramSender.SEND_BUDGET_MS + recordLag <= LEASE_MS
    ensures OnSchedule(Step(s, e), startLag, recordLag) && TimelyStep(s, e)
  {
  }

  // The sender's 45 s budget lies inside the 120 s lease: as long as the two
  // database latencies around it stay within the other 75 s, no live
  // dispatcher ever outlasts its lease.
  lemma {:induction false} PromptRunsAreTimely(es: seq<Event>, startLag: nat, recordLag: nat)
    requires Possible(es) && Prompt(es, startLag, recordLag)
    requires startLag + TelegramSender.SEND_BUDGET_MS + recordLag <= LEASE_MS
    ensures Timely(es)
    ensures OnSchedule(After(es), startLag, recordLag)
    decreases |es|
  {
    if es == [] {
    } else {
      PromptRunsAreTimely(es[..|es| - 1], startLag, recordLag);
      PromptStepKeepsSchedule(After(es[..|es| - 1]), es[|es| - 1], startLag, recordLag);
    }
  }

  // -------- the bound on the latencies is exact --------

  lemma RunOn(es: seq<Event>, e: Event, startLag: nat, recordLag: nat) returns (longer: seq<Event>)
    requires Possible(es) && Enabled(After(es), e)
    requires Prompt(es, startLag, recordLag) && PromptStep(After(es), e, startLag, recordLag)
    ensures longer == es + [e] && Possible(longer) && After(longer) == Step(After(es), e)
    ensures Prompt(longer, startLag, recordLag)
    ensures Count(longer, IsSuccess(0)) == Count(es, IsSuccess(0)) + if IsSuccess(0)(e) then 1 else 0
    ensures Count(longer, IsAbandon(0)) == Count(es, IsAbandon(0)) + if IsAbandon(0)(e) then 1 else 0
  {
    longer := es + [e];
    assert longer[..|longer| - 1] == es;
  }

  const OFFLINE := "agent_offline"
  const NEW_ROW := NewRow(OFFLINE, 0)
  const LATE := LEASE_MS + 1

  // One call that is answered at once: with success, or with a rate limit too
  // long to wait for.
  function OnlyCall(start: int, ok: bool): TelegramSender.Call {
    var error := TelegramSender.SendError("", "ETELEGRAM", None, Some(31.0));
    TelegramSender.Call(start as real, 10_000.0, false, "", start as real, if ok then None else Some(error))
  }

  lemma OnlyCallIsAll(start: int, ok: bool)
    ensures [] + [OnlyCall(start, ok)] == [OnlyCall(start, ok)]
    ensures TelegramSender.ValidCalls("", start as real, [OnlyCall(start, ok)])
    ensures TelegramSender.StoppedForCause(start as real, [OnlyCall(start, ok)])
  {
    assert TelegramSender.WellTimed(start as real, OnlyCall(start, ok));
  }

  const FIRST := ClaimedAt(NEW_ROW, 0)
  const SECOND := ClaimedAt(FIRST, LATE)

  // Worker 1 has claimed row 0 at time 0.
  function WithFirst(now: int, phase: Phase, tried: set<nat>): State {
    State(now, map[0 := FIRST], map[1 := Job(Ticket(0, FIRST), 0, LEASE_MS, phase)], map[0 := OFFLINE], map[0 := tried])
  }

  // Its lease is over, and worker 2 has claimed the row again.
  function Reclaimed(phase: Phase): State {
    State(LATE, map[0 := SECOND],
          map[1 := Job(Ticket(0, FIRST), 0, LEASE_MS, phase),
              2 := Job(Ticket(0, SECOND), LATE, LATE + LEASE_MS, Claimed)],
          map[0 := OFFLINE], map[0 := {1}])
  }

  ghost predicate Reaches(es: seq<Event>, startLag: nat, recordLag: nat, s: State, successes: nat) {
    && Possible(es) && Prompt(es, startLag, recordLag) && After(es) == s
    && Count(es, IsSuccess(0)) == successes && Count(es, IsAbandon(0)) == 0
  }

  lemma ReachClaimed(startLag: nat, recordLag: nat) returns (es: seq<Event>)
    ensures Reaches(es, startLag, recordLag, WithFirst(0, Claimed, {}), 0)
  {
    es := RunOn([], Enqueue(0, OFFLINE), startLag, recordLag);
    assert After(es).rows == map[0 := NEW_ROW];
    es := RunOn(es, Claim(1, 0), startLag, recordLag);
    assert After(es).rows == map[0 := FIRST];
    assert After(es).tried == map[0 := {}];
  }

  lemma ReachSending(begin: int, startLag: nat, recordLag: nat) returns (es: seq<Event>)
    requires 0 <= begin <= startLag
    ensures Reaches(es, startLag, recordLag, WithFirst(begin, Sending(begin, "", []), {1}), 0)
  {
    es := ReachClaimed(startLag, recordLag);
    es := RunOn(es, Advance(begin), startLag, recordLag);
    es := RunOn(es, BeginSend(1, 0, ""), startLag, recordLag);
    assert FIRST.attempts == 1 && {} + {1} == {1};
    assert After(es).tried == map[0 := {1}];
    assert After(es).jobs == WithFirst(begin, Sending(begin, "", []), {1}).jobs;
  }

  lemma ReachCalled(begin: int, ok: bool, startLag: nat, recordLag: nat) returns (es: seq<Event>)
    requires 0 <= begin <= startLag
    ensures Reaches(es, startLag, recordLag, WithFirst(begin, Sending(begin, "", [OnlyCall(begin, ok)]), {1}), 0)
  {
    es := ReachSending(begin, startLag, recordLag);
    OnlyCallIsAll(begin, ok);
    es := RunOn(es, Http(1, 0, 1, OnlyCall(begin, ok)), startLag, recordLag);
    assert After(es).jobs == WithFirst(begin, Sending(begin, "", [OnlyCall(begin, ok)]), {1}).jobs;
  }

  lemma ReachAnswered(begin: int, finish: int, ok: bool, startLag: nat, recordLag: nat) returns (es: seq<Event>)
    requires 0 <= begin <= startLag && begin <= finish <= begin + TelegramSender.SEND_BUDGET_MS
    ensures Reaches(es, startLag, recordLag, WithFirst(finish, Sending(begin, "", [OnlyCall(begin, ok)]), {1}), 0)
  {
    es := ReachCalled(begin, ok, startLag, recordLag);
    es := RunOn(es, Advance(finish), startLag, recordLag);
  }

  lemma AnswerIsReported(begin: int, finish: int, ok: bool)
    requires 0 <= begin <= finish
    ensures Enabled(WithFirst(finish, Sending(begin, "", [OnlyCall(begin, ok)]), {1}), EndSend(1, 0, ok))
  {
    OnlyCallIsAll(begin, ok);
  }

  lemma ReachDone(begin: int, finish: int, ok: bool, startLag: nat, recordLag: nat) returns (es: seq<Event>)
    requires 0 <= begin <= startLag && begin <= finish <= begin + TelegramSender.SEND_BUDGET_MS
    ensures Reaches(es, startLag, recordLag, WithFirst(finish, Done(ok, finish), {1}), if ok then 1 else 0)
  {
    var before := ReachAnswered(begin, finish, ok, startLag, recordLag);
    AnswerIsReported(begin, finish, ok);
    es := RunOn(before, EndSend(1, 0, ok), startLag, recordLag);
    assert After(es).jobs == WithFirst(finish, Done(ok, finish), {1}).jobs;
  }

  lemma ReachLate(finish: int, ok: bool, es: seq<Event>, startLag: nat, recordLag: nat) returns (longer: seq<Event>)
    requires finish <= LATE <= finish + recordLag
    requires Reaches(es, startLag, recordLag, WithFirst(finish, Done(ok, finish), {1}), if ok then 1 else 0)
    ensures Reaches(longer, startLag, recordLag, WithFirst(LATE, Done(ok, finish), {1}), if ok then 1 else 0)
  {
    longer := RunOn(es, Advance(LATE), startLag, recordLag);
  }

  lemma ReachSecondClaim(finish: int, ok: bool, es: seq<Event>, startLag: nat, recordLag: nat)
    returns (longer: seq<Event>)
    requires Reaches(es, startLag, recordLag, WithFirst(LATE, Done(ok, finish), {1}), if ok then 1 else 0)
    ensures Reaches(longer, startLag, recordLag, Reclaimed(Done(ok, finish)), if ok then 1 else 0)
  {
    longer := RunOn(es, Claim(2, 0), startLag, recordLag);
    assert After(longer).jobs == Reclaimed(Done(ok, finish)).jobs;
    assert After(longer).rows == map[0 := SECOND];
  }

  // As soon as the latencies do not fit, a second dispatcher can hold the row
  // while the first, prompt as it is, still does.
  lemma ReachReclaimed(ok: bool, startLag: nat, recordLag: nat) returns (es: seq<Event>, finish: int)
    requires startLag + TelegramSender.SEND_BUDGET_MS + recordLag > LEASE_MS
    ensures Reaches(es, startLag, recordLag, Reclaimed(Done(ok, finish)), if ok then 1 else 0)
  {
    var begin := if startLag < LATE then startLag else LATE;
    finish := if begin + TelegramSender.SEND_BUDGET_MS < LATE then begin + TelegramSender.SEND_BUDGET_MS else LATE;
    es := ReachDone(begin, finish, ok, startLag, recordLag);
    es := ReachLate(finish, ok, es, startLag, recordLag);
    es := ReachSecondClaim(finish, ok, es, startLag, recordLag);
  }

  // Both dispatchers have work in hand; worker 2 goes on at once.
  function Both(first: Phase, second: Phase): State {
    State(LATE, map[0 := SECOND],
          map[1 := Job(Ticket(0, FIRST), 0, LEASE_MS, first),
              2 := Job(Ticket(0, SECOND), LATE, LATE + LEASE_MS, second)],
          map[0 := OFFLINE], map[0 := {1, 2}])
  }

  function Delivered(first: Phase): State {
    State(LATE, map[0 := Recorded(SECOND, Ticket(0, SECOND), OutSent, None, LATE)],
          map[1 := Job(Ticket(0, FIRST), 0, LEASE_MS, first)], map[0 := OFFLINE], map[0 := {1, 2}])
  }

  lemma ReachSecondSend(es: seq<Event>, first: Phase, n: nat, startLag: nat, recordLag: nat)
    returns (longer: seq<Event>)
    requires Reaches(es, startLag, recordLag, Reclaimed(first), n)
    ensures Reaches(longer, startLag, recordLag, Both(first, Sending(LATE, "", [])), n)
  {
    longer := RunOn(es, BeginSend(2, 0, ""), startLag, recordLag);
    assert SECOND.attempts == 2 && {1} + {2} == {1, 2};
    assert After(longer).tried == map[0 := {1, 2}];
    assert After(longer).jobs == Both(first, Sending(LATE, "", [])).jobs;
  }

  lemma ReachSecondSuccess(es: seq<Event>, first: Phase, n: nat, startLag: nat, recordLag: nat)
    returns (longer: seq<Event>)
    requires Reaches(es, startLag, recordLag, Both(first, Sending(LATE, "", [])), n)
    ensures Reaches(longer, startLag, recordLag, Both(first, Done(true, LATE)), n + 1)
  {
    OnlyCallIsAll(LATE, true);
    longer := RunOn(es, Http(2, 0, 2, OnlyCall(LATE, true)), startLag, recordLag);
    assert After(longer).jobs == Both(first, Sending(LATE, "", [OnlyCall(LATE, true)])).jobs;
    longer := RunOn(longer, EndSend(2, 0, true), startLag, recordLag);
    assert After(longer).jobs == Both(first, Done(true, LATE)).jobs;
  }

  lemma ReachDelivered(es: seq<Event>, first: Phase, n: nat, startLag: nat, recordLag: nat)
    returns (longer: seq<Event>)
    requires Reaches(es, startLag, recordLag, Reclaimed(first), n)
    ensures Reaches(longer, startLag, recordLag, Delivered(first), n + 1)
  {
    longer := ReachSecondSend(es, first, n, startLag, recordLag);
    longer := ReachSecondSuccess(longer, first, n, startLag, recordLag);
    longer := RunOn(longer, Record(2, 0, None), startLag, recordLag);
    assert After(longer).jobs == Delivered(first).jobs;
    assert After(longer).rows == Delivered(first).rows;
  }

  // `record` has no lease check: with larger latencies a late record turns a
  // row that another dispatcher has delivered back into a pending one, or is
  // the second success of a row that nobody abandoned.
  lemma LateRecordReopensSentRow(ok: bool, startLag: nat, recordLag: nat) returns (es: seq<Event>, i: nat)
    requires startLag + TelegramSender.SEND_BUDGET_MS + recordLag > LEASE_MS
    ensures i < |es| && Possible(es) && Prompt(es, startLag, recordLag) && Possible(es[..i])
    ensures 0 in After(es[..i]).rows && After(es[..i]).rows[0].status == Sent
    ensures 0 in After(es).rows && After(es).rows[0].status == if ok then Sent else Pending
    ensures ok ==> Count(es, IsSuccess(0)) == 2 && Count(es, IsAbandon(0)) == 0
  {
    var reclaimed, finish := ReachReclaimed(ok, startLag, recordLag);
    var delivered := ReachDelivered(reclaimed, Done(ok, finish), if ok then 1 else 0, startLag, recordLag);
    es := RunOn(delivered, Record(1, 0, None), startLag, recordLag);
    i := |delivered|;
    assert es[..i] == delivered;
  }

  // -------- each lease property, as a property of a run --------

  ghost predicate KeepsFinished(es: seq<Event>)
    requires Possible(es)
  {
    forall i: nat, id: Id |
      i <= |es| && Possible(es[..i]) && id in After(es[..i]).rows && Finished(After(es[..i]).rows[id]) ::
      if id in After(es).rows then After(es).rows[id] == After(es[..i]).rows[id]
      else After(es[..i]).rows[id].status == Sent
  }

  ghost predicate DeliversOncePlusAbandons(es: seq<Event>) {
    forall id: Id :: Count(es, IsSuccess(id)) <= 1 + Count(es, IsAbandon(id))
  }

  ghost predicate OneHolderEach(es: seq<Event>)
    requires Possible(es)
  {
    forall v: Worker, w: Worker, id: Id | Holds(After(es), v, id) && Holds(After(es), w, id) :: v == w
  }

  lemma LatenciesThatFit(es: seq<Event>, startLag: nat, recordLag: nat)
    requires Possible(es) && Prompt(es, startLag, recordLag)
    requires startLag + TelegramSender.SEND_BUDGET_MS + recordLag <= LEASE_MS
    ensures KeepsFinished(es) && DeliversOncePlusAbandons(es) && OneHolderEach(es)
  {
    PromptRunsAreTimely(es, startLag, recordLag);
    forall i: nat, id: Id |
      i <= |es| && Possible(es[..i]) && id in After(es[..i]).rows && Finished(After(es[..i]).rows[id])
      ensures if id in After(es).rows then After(es).rows[id] == After(es[..i]).rows[id]
              else After(es[..i]).rows[id].status == Sent
    {
      FinishedRowsFrozen(es, i, id);
    }
    forall id: Id
      ensures Count(es, IsSuccess(id)) <= 1 + Count(es, IsAbandon(id))
    {
      SuccessesBounded(es, id);
    }
    forall v: Worker, w: Worker, id: Id | Holds(After(es), v, id) && Holds(After(es), w, id)
      ensures v == w
    {
      OneHolderPerRow(es, v, w, id);
    }
  }

  lemma LatenciesThatDoNot(startLag: nat, recordLag: nat) returns (es: seq<Event>, fs: seq<Event>, gs: seq<Event>)
    requires startLag + TelegramSender.SEND_BUDGET_MS + recordLag > LEASE_MS
    ensures Possible(es) && Prompt(es, startLag, recordLag) && !KeepsFinished(es)
    ensures Possible(fs) && Prompt(fs, startLag, recordLag) && !DeliversOncePlusAbandons(fs)
    ensures Possible(gs) && Prompt(gs, startLag, recordLag) && !OneHolderEach(gs)
  {
    var i, j, finish;
    es, i := LateRecordReopensSentRow(false, startLag, recordLag);
    assert Finished(After(es[..i]).rows[0]);
    fs, j := LateRecordReopensSentRow(true, startLag, recordLag);
    assert Count(fs, IsSuccess(0)) > 1 + Count(fs, IsAbandon(0));
    gs, finish := ReachReclaimed(true, startLag, recordLag);
    assert Holds(After(gs), 1, 0) && Holds(After(gs), 2, 0);
  }

  // The exact condition for the lease to do its work, for all runs of prompt
  // dispatchers: the two latencies around a send fit in what its time budget
  // leaves of the lease. Each of the three properties holds if and only if
  // they do.
  lemma LeaseIsSafeIffLatenciesFit(startLag: nat, recordLag: nat)
    ensures var fit := startLag + TelegramSender.SEND_BUDGET_MS + recordLag <= LEASE_MS;
            && (fit <==> forall es | Possible(es) && Prompt(es, startLag, recordLag) :: KeepsFinished(es))
            && (fit <==> forall es | Possible(es) && Prompt(es, startLag, recordLag) :: DeliversOncePlusAbandons(es))
            && (fit <==> forall es | Possible(es) && Prompt(es, startLag, recordLag) :: OneHolderEach(es))
  {
    if startLag + TelegramSender.SEND_BUDGET_MS + recordLag <= LEASE_MS {
      forall es | Possible(es) && Prompt(es, startLag, recordLag)
        ensures KeepsFinished(es) && DeliversOncePlusAbandons(es) && OneHolderEach(es)
      {
        LatenciesThatFit(es, startLag, recordLag);
      }
    } else {
      var es, fs, gs := LatenciesThatDoNot(startLag, recordLag);
    }
  }
}
