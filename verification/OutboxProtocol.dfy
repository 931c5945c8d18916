// Any number of dispatchers working on one outbox table, with crashes, failed
// recording transactions, expired leases, late records and purges. A run is a
// sequence of events; every database statement or transaction is one event.
module OutboxProtocol {
  import opened Prelude
  import opened Outbox
  import DeliveryPolicy
  import TelegramSender

  type Worker = nat

  datatype Phase =
    | Claimed
    | Sending(since: int, html: string, calls: seq<TelegramSender.Call>)   // HTTP calls made so far
    | Done(ok: bool, at: int)

  // A claim held in the memory of a dispatcher that has not crashed.
  datatype Job = Job(ticket: ClaimedRow, claimedAt: int, lease: int, phase: Phase)

  datatype State = State(
    now: int,
    rows: map<Id, Row>,
    jobs: map<Worker, Job>,
    issued: map<Id, string>,       // every id ever enqueued, with its event type
    tried: map<Id, set<nat>>)      // attempt numbers that reached sender.send

  datatype Event =
    | Advance(to: int)
    | Enqueue(id: Id, eventType: string)
    | Claim(w: Worker, id: Id)
    | BeginSend(w: Worker, id: Id, html: string)
    | Http(w: Worker, id: Id, n: nat, call: TelegramSender.Call)
    | EndSend(w: Worker, id: Id, ok: bool)
    | RenderError(w: Worker, id: Id)
    | Record(w: Worker, id: Id, errorCode: Option<string>)
    | RecordFails(w: Worker, id: Id)
    | Crash(w: Worker, id: Id)
    | Purge

  const Start := State(0, map[], map[], map[], map[])

  predicate Holds(s: State, w: Worker, id: Id) {
    w in s.jobs && s.jobs[w].ticket.id == id
  }

  predicate Exhausted(job: Job) {
    job.ticket.attempts > job.ticket.maxAttempts
  }

  // A job reaches `record` after its send, or straight away when its claim
  // went past maxAttempts.
  predicate ReadyToRecord(job: Job) {
    job.phase.Done? || (job.phase.Claimed? && Exhausted(job))
  }

  function JobOutcome(job: Job): Outcome {
    if job.phase.Done? then OutcomeOf(job.ticket, job.phase.ok) else OutFailed
  }

  // The calls of a send are those its contract allows, and its answer is the
  // answer of the last one.
  predicate Continues(phase: Phase, call: TelegramSender.Call)
    requires phase.Sending?
  {
    TelegramSender.ValidCalls(phase.html, phase.since as real, phase.calls + [call])
  }

  predicate Reports(phase: Phase, ok: bool, now: int)
    requires phase.Sending?
  {
    && phase.calls != [] && TelegramSender.StoppedForCause(phase.since as real, phase.calls)
    && var last := phase.calls[|phase.calls| - 1];
       (ok <==> last.error.None?) && last.finish <= now as real
  }

  predicate Enabled(s: State, e: Event) {
    match e
    case Advance(t) => t >= s.now
    case Enqueue(id, _) => id !in s.issued
    case Claim(w, id) => w !in s.jobs && id in s.rows && Claimable(s.rows[id], s.now)
    case BeginSend(w, id, _) => Holds(s, w, id) && s.jobs[w].phase.Claimed? && !Exhausted(s.jobs[w])
    case Http(w, id, n, call) =>
      Holds(s, w, id) && s.jobs[w].phase.Sending? && n == s.jobs[w].ticket.attempts && Continues(s.jobs[w].phase, call)
    case EndSend(w, id, ok) =>
      Holds(s, w, id) && s.jobs[w].phase.Sending? && Reports(s.jobs[w].phase, ok, s.now)
    case RenderError(w, id) => Holds(s, w, id) && s.jobs[w].phase.Claimed? && !Exhausted(s.jobs[w])
    case Record(w, id, _) => Holds(s, w, id) && ReadyToRecord(s.jobs[w]) && id in s.rows
    case RecordFails(w, id) => Holds(s, w, id) && ReadyToRecord(s.jobs[w])
    case Crash(w, id) => Holds(s, w, id)
    case Purge => true
  }

  function WithPhase(s: State, w: Worker, phase: Phase): State
    requires w in s.jobs
  {
    s.(jobs := s.jobs[w := s.jobs[w].(phase := phase)])
  }

  function Step(s: State, e: Event): State
    requires Enabled(s, e)
  {
    match e
    case Advance(t) => s.(now := t)
    case Enqueue(id, eventType) =>
      s.(rows := s.rows[id := NewRow(eventType, s.now)],
         issued := s.issued[id := eventType],
         tried := s.tried[id := {}])
    case Claim(w, id) =>
      var row := ClaimedAt(s.rows[id], s.now);
      s.(rows := s.rows[id := row],
         jobs := s.jobs[w := Job(Ticket(id, row), s.now, s.now + LEASE_MS, Claimed)])
    case BeginSend(w, id, html) =>
      var before := if id in s.tried then s.tried[id] else {};
      WithPhase(s.(tried := s.tried[id := before + {s.jobs[w].ticket.attempts}]), w, Sending(s.now, html, []))
    case Http(w, id, n, call) => WithPhase(s, w, s.jobs[w].phase.(calls := s.jobs[w].phase.calls + [call]))
    case EndSend(w, id, ok) => WithPhase(s, w, Done(ok, s.now))
    case RenderError(w, id) => WithPhase(s, w, Done(false, s.now))
    case Record(w, id, errorCode) =>
      var job := s.jobs[w];
      s.(rows := s.rows[id := Recorded(s.rows[id], job.ticket, JobOutcome(job), errorCode, s.now)],
         jobs := s.jobs - {w})
    case RecordFails(w, id) => s.(jobs := s.jobs - {w})
    case Crash(w, id) => s.(jobs := s.jobs - {w})
    case Purge => s.(rows := map id | id in s.rows && !Purgeable(s.rows[id], s.now) :: s.rows[id])
  }

  predicate Possible(es: seq<Event>)
    decreases |es|, 0
  {
    es == [] || (Possible(es[..|es| - 1]) && Enabled(After(es[..|es| - 1]), es[|es| - 1]))
  }

  function After(es: seq<Event>): State
    requires Possible(es)
    decreases |es|, 1
  {
    if es == [] then Start else Step(After(es[..|es| - 1]), es[|es| - 1])
  }

  // -------- what needs no timing assumption --------

  ghost predicate RowsOk(s: State) {
    forall id | id in s.rows :: RowOk(s, id)
  }

  ghost predicate RowOk(s: State, id: Id)
    requires id in s.rows
  {
    var row := s.rows[id];
    && id in s.issued && id in s.tried
    && row.eventType == s.issued[id]
    && row.maxAttempts == DeliveryPolicy.PolicyFor(row.eventType).maxAttempts
    && (row.status == Processing <==> row.lockedUntil.Some?)
    && (row.status == Failed ==> row.attempts >= row.maxAttempts)
    && (row.status == Sent ==> row.sentAt.Some?)
    && (forall n | n in s.tried[id] :: n <= row.attempts)
  }

  ghost predicate JobOk(s: State, job: Job) {
    var t := job.ticket;
    && t.id in s.issued && t.id in s.tried
    && t.eventType == s.issued[t.id]
    && t.maxAttempts == DeliveryPolicy.PolicyFor(t.eventType).maxAttempts
    && t.attempts >= 1
    && (t.id in s.rows ==> t.attempts <= s.rows[t.id].attempts)
    && (!job.phase.Claimed? ==> t.attempts <= t.maxAttempts)
    && (job.phase.Claimed? ==> t.attempts !in s.tried[t.id])
    && (job.phase.Sending? ==> t.attempts in s.tried[t.id] && |job.phase.calls| <= TelegramSender.SEND_MAX_ATTEMPTS)
  }

  ghost predicate JobsOk(s: State) {
    && (forall w | w in s.jobs :: JobOk(s, s.jobs[w]))
    && (forall v, w | v in s.jobs && w in s.jobs && v != w && s.jobs[v].ticket.id == s.jobs[w].ticket.id ::
          s.jobs[v].ticket.attempts != s.jobs[w].ticket.attempts)
  }

  ghost predicate TriedOk(s: State) {
    && s.tried.Keys == s.issued.Keys
    && forall id | id in s.tried ::
         forall n | n in s.tried[id] :: 1 <= n <= DeliveryPolicy.PolicyFor(s.issued[id]).maxAttempts
  }

  ghost predicate Inv(s: State) {
    RowsOk(s) && JobsOk(s) && TriedOk(s)
  }

  lemma StepKeepsRows(s: State, e: Event)
    requires Inv(s) && Enabled(s, e)
    ensures RowsOk(Step(s, e))
  {
    forall id | id in Step(s, e).rows
      ensures RowOk(Step(s, e), id)
    {
      StepKeepsRow(s, e, id);
    }
  }

  lemma RecordKeepsRow(s: State, e: Event, id: Id)
    requires Inv(s) && Enabled(s, e) && e.Record? && id in Step(s, e).rows
    ensures RowOk(Step(s, e), id)
  {
    assert RowOk(s, id) && JobOk(s, s.jobs[e.w]);
  }

  lemma SendKeepsRow(s: State, e: Event, id: Id)
    requires Inv(s) && Enabled(s, e) && e.BeginSend? && id in Step(s, e).rows
    ensures RowOk(Step(s, e), id)
  {
    assert RowOk(s, id) && JobOk(s, s.jobs[e.w]);
  }

  lemma StepKeepsRow(s: State, e: Event, id: Id)
    requires Inv(s) && Enabled(s, e) && id in Step(s, e).rows
    ensures RowOk(Step(s, e), id)
  {
    if e.Record? {
      RecordKeepsRow(s, e, id);
      return;
    } else if e.BeginSend? {
      SendKeepsRow(s, e, id);
      return;
    }
    assert id in s.rows ==> RowOk(s, id);
    match e
    case Advance(_) =>
    case Enqueue(_, _) =>
    case Claim(_, _) =>
    case BeginSend(_, _, _) =>
    case Http(_, _, _, _) =>
    case EndSend(_, _, _) =>
    case RenderError(_, _) =>
    case Record(_, _, _) =>
    case RecordFails(_, _) =>
    case Crash(_, _) =>
    case Purge =>
  }

  lemma BeginKeepsJob(s: State, e: Event, w: Worker)
    requires Inv(s) && Enabled(s, e) && e.BeginSend? && w in s.jobs
    ensures JobOk(Step(s, e), Step(s, e).jobs[w])
  {
    assert JobOk(s, s.jobs[w]);
    if w != e.w && s.jobs[w].ticket.id == e.id {
      assert s.jobs[e.w].ticket.attempts != s.jobs[w].ticket.attempts;
    }
  }

  lemma RecordKeepsJob(s: State, e: Event, w: Worker)
    requires Inv(s) && Enabled(s, e) && e.Record? && w in Step(s, e).jobs
    ensures JobOk(Step(s, e), Step(s, e).jobs[w])
  {
    assert JobOk(s, s.jobs[w]);
  }

  lemma ClaimKeepsJob(s: State, e: Event, w: Worker)
    requires Inv(s) && Enabled(s, e) && e.Claim? && w in Step(s, e).jobs
    ensures JobOk(Step(s, e), Step(s, e).jobs[w])
  {
    assert w in s.jobs ==> JobOk(s, s.jobs[w]);
    assert RowOk(s, e.id);
  }

  lemma StepKeepsJob(s: State, e: Event, w: Worker)
    requires Inv(s) && Enabled(s, e) && w in Step(s, e).jobs
    ensures JobOk(Step(s, e), Step(s, e).jobs[w])
  {
    match e
    case BeginSend(_, _, _) => BeginKeepsJob(s, e, w);
    case Record(_, _, _) => RecordKeepsJob(s, e, w);
    case Claim(_, _) => ClaimKeepsJob(s, e, w);
    case _ => assert JobOk(s, s.jobs[w]);
  }

  lemma StepKeepsNumbersApart(s: State, e: Event, v: Worker, w: Worker)
    requires Inv(s) && Enabled(s, e) && v in Step(s, e).jobs && w in Step(s, e).jobs && v != w
    requires Step(s, e).jobs[v].ticket.id == Step(s, e).jobs[w].ticket.id
    ensures Step(s, e).jobs[v].ticket.attempts != Step(s, e).jobs[w].ticket.attempts
  {
    assert v in s.jobs ==> JobOk(s, s.jobs[v]);
    assert w in s.jobs ==> JobOk(s, s.jobs[w]);
  }

  lemma StepKeepsTried(s: State, e: Event)
    requires Inv(s) && Enabled(s, e)
    ensures TriedOk(Step(s, e))
  {
  }

  lemma StepKeepsInv(s: State, e: Event)
    requires Inv(s) && Enabled(s, e)
    ensures Inv(Step(s, e))
  {
    StepKeepsRows(s, e);
    forall w | w in Step(s, e).jobs ensures JobOk(Step(s, e), Step(s, e).jobs[w]) {
      StepKeepsJob(s, e, w);
    }
    forall v, w | v in Step(s, e).jobs && w in Step(s, e).jobs && v != w
                  && Step(s, e).jobs[v].ticket.id == Step(s, e).jobs[w].ticket.id
      ensures Step(s, e).jobs[v].ticket.attempts != Step(s, e).jobs[w].ticket.attempts
    {
      StepKeepsNumbersApart(s, e, v, w);
    }
    StepKeepsTried(s, e);
  }
}
