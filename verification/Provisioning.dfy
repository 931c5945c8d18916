// The idempotent provisioning claim: an atomic upsert guarded by a partial
// unique index, and a fallback SELECT
// (backend/src/provisioning/provisioning-operations.service.ts).
module Provisioning {
  import opened Prelude

  type OpId = nat
  type Key = (string, string)     // principal and non-null idempotency key

  datatype Status = InProgress | Succeeded | Failed

  datatype Operation = Operation(
    principal: string,
    key: Option<string>,
    fingerprint: string,
    status: Status,
    lastStep: Option<string>,
    clientId: Option<string>,
    serverId: Option<string>,
    failure: Option<string>,
    completed: bool,
    cachedResult: Option<string>)

  datatype Input = Input(principal: string, key: Option<string>, fingerprint: string)

  datatype Outcome = Created | Reopened | StillRunning | AlreadyDone | FingerprintMismatch | Throws

  // The table and its partial unique index on (principalUserId, idempotencyKey).
  datatype Table = Table(rows: map<OpId, Operation>, index: map<Key, OpId>)

  function NewOperation(input: Input): Operation {
    Operation(input.principal, input.key, input.fingerprint, InProgress, None, None, None, None, false, None)
  }

  function Conflict(t: Table, input: Input): Option<OpId> {
    if input.key.Some? && (input.principal, input.key.value) in t.index
    then Some(t.index[(input.principal, input.key.value)]) else None
  }

  // On a conflict the row is updated only under this guard.
  predicate Reopenable(op: Operation, input: Input) {
    op.status == Failed && op.fingerprint == input.fingerprint
  }

  ghost predicate TableOk(t: Table) {
    && (forall k | k in t.index ::
          t.index[k] in t.rows && t.rows[t.index[k]].principal == k.0 && t.rows[t.index[k]].key == Some(k.1))
    && (forall id | id in t.rows && t.rows[id].key.Some? ::
          (t.rows[id].principal, t.rows[id].key.value) in t.index
          && t.index[(t.rows[id].principal, t.rows[id].key.value)] == id)
    && (forall id | id in t.rows :: t.rows[id].status == Succeeded ==> t.rows[id].cachedResult.Some?)
  }

  // The insert that turns into a guarded update on a conflict: the new table, and the
  // outcome if a row was returned.
  function Upsert(t: Table, id: OpId, input: Input): (Table, Option<Outcome>) {
    match Conflict(t, input)
    case None =>
      (Table(t.rows[id := NewOperation(input)],
             if input.key.Some? then t.index[(input.principal, input.key.value) := id] else t.index),
       Some(Created))
    case Some(old_) =>
      if old_ in t.rows && Reopenable(t.rows[old_], input) then
        (t.(rows := t.rows[old_ := t.rows[old_].(status := InProgress, failure := None, completed := false)]),
         Some(Reopened))
      else (t, None)
  }

  // What the fallback SELECT makes of the row it finds.
  function Classify(op: Operation, input: Input): Outcome {
    if op.fingerprint != input.fingerprint then FingerprintMismatch
    else match op.status
      case InProgress => StillRunning
      case Succeeded => AlreadyDone
      case Failed => Throws
  }

  lemma UpsertKeepsTable(t: Table, id: OpId, input: Input)
    requires TableOk(t) && id !in t.rows
    ensures TableOk(Upsert(t, id, input).0)
    ensures Upsert(t, id, input).1.None? ==> Upsert(t, id, input).0 == t && Conflict(t, input).Some?
    ensures forall x | x in t.rows :: x in Upsert(t, id, input).0.rows
  {
  }

  // -------- the service --------

  class ProvisioningOperationsService {
    var rows: map<OpId, Operation>
    var index: map<Key, OpId>

    ghost function View(): Table
      reads this
    {
      Table(rows, index)
    }

    ghost predicate Valid()
      reads this
    {
      TableOk(View())
    }

    constructor ()
      ensures Valid() && rows == map[] && index == map[]
    {
      rows, index := map[], map[];
    }

    // claim() with nothing in between its two statements: it never throws.
    method Claim(id: OpId, input: Input) returns (outcome: Outcome, operation: OpId)
      requires Valid() && id !in rows
      modifies this
      ensures Valid()
      ensures outcome != Throws
      ensures View() == Upsert(old(View()), id, input).0
      ensures operation in rows
      ensures outcome == Created <==> Conflict(old(View()), input).None?
      ensures outcome == Created ==> operation == id && rows[id] == NewOperation(input)
      ensures input.key.None? ==> outcome == Created && index == old(index)
      ensures outcome != Created ==> Conflict(old(View()), input) == Some(operation) && operation in old(rows)
      ensures outcome == Reopened <==>
                Conflict(old(View()), input).Some? && operation in old(rows) && Reopenable(old(rows)[operation], input)
      ensures outcome in {StillRunning, AlreadyDone, FingerprintMismatch} ==>
                View() == old(View()) && outcome == Classify(rows[operation], input)
      // a new row holds the request, and is in progress with nothing done
      ensures outcome == Created ==>
                && operation == id && rows == old(rows)[id := rows[id]]
                && (rows[id].principal, rows[id].key, rows[id].fingerprint)
                   == (input.principal, input.key, input.fingerprint)
                && rows[id].status == InProgress && !rows[id].completed
                && rows[id].lastStep == rows[id].clientId == rows[id].serverId == rows[id].failure
                   == rows[id].cachedResult == None
      // a reopened one keeps what the failed execution had reached
      ensures outcome == Reopened ==>
                && old(rows)[operation].status == Failed && old(rows)[operation].fingerprint == input.fingerprint
                && rows == old(rows)[operation := old(rows)[operation].(
                                       status := InProgress, failure := None, completed := false)]
      // any other answer is read off the row of that principal and key
      ensures outcome !in {Created, Reopened} ==>
                && rows[operation].principal == input.principal && rows[operation].key == input.key
                && (outcome == FingerprintMismatch <==> rows[operation].fingerprint != input.fingerprint)
                && (outcome == StillRunning ==> rows[operation].status == InProgress)
                && (outcome == AlreadyDone ==> rows[operation].status == Succeeded)
    {
      UpsertKeepsTable(View(), id, input);
      if input.key.None? || (input.principal, input.key.value) !in index {
        rows := rows[id := Operation(input.principal, input.key, input.fingerprint,
                                     InProgress, None, None, None, None, false, None)];
        if input.key.Some? {
          index := index[(input.principal, input.key.value) := id];
        }
        return Created, id;
      }
      operation := index[(input.principal, input.key.value)];
      var existing := rows[operation];
      if existing.status == Failed && existing.fingerprint == input.fingerprint {
        rows := rows[operation := existing.(status := InProgress, failure := None, completed := false)];
        return Reopened, operation;
      }
      outcome := if existing.fingerprint != input.fingerprint then FingerprintMismatch
                 else if existing.status == InProgress then StillRunning
                 else if existing.status == Succeeded then AlreadyDone
                 else Throws;
    }

    method AdvanceStep(id: OpId, step: string, clientId: Option<string>, serverId: Option<string>)
      requires Valid()
      modifies this`rows
      ensures Valid()
      ensures id !in old(rows) ==> rows == old(rows)
      ensures id in old(rows) ==> rows == old(rows)[id := old(rows)[id].(
                lastStep := Some(step),
                clientId := if clientId.Some? then clientId else old(rows)[id].clientId,
                serverId := if serverId.Some? then serverId else old(rows)[id].serverId)]
    {
      if id in rows {
        var op := rows[id].(lastStep := Some(step));
        if clientId.Some? { op := op.(clientId := clientId); }
        if serverId.Some? { op := op.(serverId := serverId); }
        rows := rows[id := op];
      }
    }

    // One statement: nobody sees `succeeded` without a result to replay.
    method Complete(id: OpId, result: string)
      requires Valid()
      modifies this`rows
      ensures Valid()
      ensures id !in old(rows) ==> rows == old(rows)
      ensures id in old(rows) ==> rows == old(rows)[id := old(rows)[id].(
                cachedResult := Some(result), status := Succeeded, completed := true, lastStep := Some("complete"))]
    {
      if id in rows {
        rows := rows[id := rows[id].(cachedResult := Some(result), status := Succeeded,
                                     completed := true, lastStep := Some("complete"))];
      }
    }

    method Fail(id: OpId, code: string)
      requires Valid()
      modifies this`rows
      ensures Valid()
      ensures id !in old(rows) ==> rows == old(rows)
      ensures id in old(rows) ==> rows == old(rows)[id := old(rows)[id].(
                status := Failed, failure := Some(code), completed := true)]
    {
      if id in rows {
        rows := rows[id := rows[id].(status := Failed, failure := Some(code), completed := true)];
      }
    }
  }

  // -------- concurrent claims --------

  type Caller = nat

  // A claim whose upsert returned no row and whose SELECT is still to come.
  datatype State = State(table: Table, pending: map<Caller, Input>)

  // Advance, Complete and Fail are calls of the operation's owner: the caller
  // whose claim was answered `created` or `reopened`, once it is in progress.
  datatype Event =
    | DoUpsert(c: Caller, id: OpId, input: Input)
    | DoSelect(c: Caller)
    | Advance(id: OpId, step: string)
    | Complete(id: OpId, result: string)
    | Fail(id: OpId, code: string)

  const Start := State(Table(map[], map[]), map[])

  predicate Owned(s: State, id: OpId) {
    id in s.table.rows && s.table.rows[id].status == InProgress
  }

  predicate Enabled(s: State, e: Event) {
    match e
    case DoUpsert(c, id, _) => c !in s.pending && id !in s.table.rows
    case DoSelect(c) => c in s.pending
    case Advance(id, _) => Owned(s, id)
    case Complete(id, _) => Owned(s, id)
    case Fail(id, _) => Owned(s, id)
  }

  function Put(s: State, id: OpId, op: Operation): State {
    s.(table := s.table.(rows := s.table.rows[id := op]))
  }

  function Step(s: State, e: Event): State
    requires Enabled(s, e)
  {
    match e
    case DoUpsert(c, id, input) =>
      var (table, outcome) := Upsert(s.table, id, input);
      State(table, if outcome.None? then s.pending[c := input] else s.pending)
    case DoSelect(c) => s.(pending := s.pending - {c})
    case Advance(id, step) => Put(s, id, s.table.rows[id].(lastStep := Some(step)))
    case Complete(id, result) =>
      Put(s, id, s.table.rows[id].(cachedResult := Some(result), status := Succeeded,
                                   completed := true, lastStep := Some("complete")))
    case Fail(id, code) =>
      Put(s, id, s.table.rows[id].(status := Failed, failure := Some(code), completed := true))
  }

  predicate Possible(es: seq<Event>)
    decreases |es|, 0
  {
    es == [] || (Possible(es[..|es| - 1]) && Enabled(After(es[..|es| - 1]), es[|es| - 1]))
  }

  function After(es: seq<Event>): State
    requires Possible(es)
    decreases |es|, 1
  {
    if es == [] then Start else Step(After(es[..|es| - 1]), es[|es| - 1])
  }

  ghost predicate Inv(s: State) {
    TableOk(s.table) && forall c | c in s.pending :: Conflict(s.table, s.pending[c]).Some?
  }

  lemma StepKeepsInv(s: State, e: Event)
    requires Inv(s) && Enabled(s, e)
    ensures Inv(Step(s, e))
    ensures forall id | id in s.table.rows :: id in Step(s, e).table.rows
  {
    if e.DoUpsert? {
      UpsertKeepsTable(s.table, e.id, e.input);
    }
  }

  lemma {:induction false} RunsKeepInv(es: seq<Event>)
    requires Possible(es)
    ensures Inv(After(es))
    decreases |es|
  {
    if es == [] {
    } else {
      RunsKeepInv(es[..|es| - 1]);
      StepKeepsInv(After(es[..|es| - 1]), es[|es| - 1]);
    }
  }

  lemma {:induction false} PrefixPossible(es: seq<Event>, i: nat)
    requires i <= |es| && Possible(es)
    ensures Possible(es[..i])
    decreases |es|
  {
    if i == |es| {
      assert es[..i] == es;
    } else {
      PrefixPossible(es[..|es| - 1], i);
      assert es[..|es| - 1][..i] == es[..i];
    }
  }

  // In any run there is one row per principal and non-null key.
  lemma OneRowPerKey(es: seq<Event>, a: OpId, b: OpId)
    requires Possible(es) && a in After(es).table.rows && b in After(es).table.rows
    requires After(es).table.rows[a].principal == After(es).table.rows[b].principal
    requires After(es).table.rows[a].key == After(es).table.rows[b].key != None
    ensures a == b
  {
    RunsKeepInv(es);
  }

  // The event answers its caller `created` or `reopened` for that row.
  predicate HandsOut(t: Table, e: Event, id: OpId) {
    && e.DoUpsert?
    && match Upsert(t, e.id, e.input).1
       case Some(Created) => e.id == id
       case Some(Reopened) => Conflict(t, e.input) == Some(id)
       case _ => false
  }

  // Event i hands the operation of that row to its caller.
  ghost predicate GrantsAt(es: seq<Event>, i: nat, id: OpId)
    requires Possible(es)
  {
    i < |es| && Possible(es[..i]) && HandsOut(After(es[..i]).table, es[i], id)
  }

  lemma StepFromBusy(s: State, e: Event, id: OpId)
    requires Inv(s) && Enabled(s, e) && id in s.table.rows && s.table.rows[id].status != Failed
    ensures id in Step(s, e).table.rows
    ensures Step(s, e).table.rows[id].status == Failed <==> e.Fail? && e.id == id
    ensures s.table.rows[id].status == Succeeded ==> Step(s, e).table.rows[id] == s.table.rows[id]
    ensures e.DoUpsert? ==> e.id != id
    ensures e.DoUpsert? && Conflict(s.table, e.input) == Some(id) ==> Upsert(s.table, e.id, e.input).1.None?
  {
  }

  // The row stays busy or done until a fail, wherever one looks.
  lemma {:induction false} BusyUntilFail(es: seq<Event>, i: nat, id: OpId) returns (m: nat)
    requires i <= |es| && Possible(es) && Possible(es[..i])
    requires id in After(es[..i]).table.rows && After(es[..i]).table.rows[id].status != Failed
    ensures id in After(es).table.rows
    ensures After(es).table.rows[id].status != Failed || (i <= m < |es| && es[m].Fail? && es[m].id == id)
    decreases |es|
  {
    m := 0;
    if i == |es| {
      assert es[..i] == es;
    } else {
      var before := es[..|es| - 1];
      assert before[..i] == es[..i];
      m := BusyUntilFail(before, i, id);
      RunsKeepInv(before);
      StepKeepsInv(After(before), es[|es| - 1]);
      if After(before).table.rows[id].status != Failed {
        StepFromBusy(After(before), es[|es| - 1], id);
        m := |es| - 1;
      }
    }
  }

  // Only a row that does not exist yet, or that failed, is handed out.
  lemma GrantNeedsFreeRow(es: seq<Event>, j: nat, id: OpId)
    requires Possible(es) && GrantsAt(es, j, id)
    ensures id in After(es[..j]).table.rows ==> After(es[..j]).table.rows[id].status == Failed
  {
    PrefixPossible(es, j + 1);
    assert es[..j + 1][..j] == es[..j];
    RunsKeepInv(es[..j]);
  }

  // One live owner per row: between two answers `created` or `reopened` for
  // the same row its owner has reported a failure.
  lemma OwnersAreSeparatedByFail(es: seq<Event>, i: nat, j: nat, id: OpId) returns (m: nat)
    requires Possible(es) && i < j && GrantsAt(es, i, id) && GrantsAt(es, j, id)
    ensures i < m < j && es[m].Fail? && es[m].id == id
  {
    PrefixPossible(es, i + 1);
    assert es[..i + 1][..i] == es[..i];
    RunsKeepInv(es[..i]);
    assert es[..j][..i + 1] == es[..i + 1];
    m := BusyUntilFail(es[..j], i + 1, id);
    GrantNeedsFreeRow(es, j, id);
  }

  // Once succeeded, the row never changes again.
  lemma {:induction false} SucceededIsFinal(es: seq<Event>, i: nat, id: OpId)
    requires i <= |es| && Possible(es) && Possible(es[..i])
    requires id in After(es[..i]).table.rows && After(es[..i]).table.rows[id].status == Succeeded
    ensures id in After(es).table.rows && After(es).table.rows[id] == After(es[..i]).table.rows[id]
    decreases |es|
  {
    if i == |es| {
      assert es[..i] == es;
    } else {
      var before := es[..|es| - 1];
      assert before[..i] == es[..i];
      SucceededIsFinal(before, i, id);
      RunsKeepInv(before);
      StepFromBusy(After(before), es[|es| - 1], id);
    }
  }

  // The answer a pending claim gets from its SELECT.
  function Answer(s: State, c: Caller): Outcome
    requires c in s.pending
  {
    var hit := Conflict(s.table, s.pending[c]);
    if hit.Some? && hit.value in s.table.rows then Classify(s.table.rows[hit.value], s.pending[c]) else Throws
  }

  // A claim waits for its SELECT until it makes it.
  lemma {:induction false} PendingStays(es: seq<Event>, j: nat, c: Caller)
    requires j <= |es| && Possible(es) && Possible(es[..j]) && c in After(es[..j]).pending
    requires forall k | j <= k < |es| :: es[k] != DoSelect(c)
    ensures c in After(es).pending && After(es).pending[c] == After(es[..j]).pending[c]
    decreases |es|
  {
    if j == |es| {
      assert es[..j] == es;
    } else {
      assert es[..|es| - 1][..j] == es[..j];
      PendingStays(es[..|es| - 1], j, c);
    }
  }

  // -------- answers told from the events --------

  // What has become of an operation, told by the answers and the reports of
  // its owners alone.
  datatype Story = Absent | Running | Finished(result: string) | Broken

  function StoryAfter(story: Story, t: Table, e: Event, id: OpId): Story {
    match e
    case Complete(x, r) => if x == id then Finished(r) else story
    case Fail(x, _) => if x == id then Broken else story
    case DoUpsert(_, _, _) => if HandsOut(t, e, id) then Running else story
    case _ => story
  }

  function StoryOf(es: seq<Event>, id: OpId): Story
    requires Possible(es)
    decreases |es|
  {
    if es == [] then Absent
    else StoryAfter(StoryOf(es[..|es| - 1], id), After(es[..|es| - 1]).table, es[|es| - 1], id)
  }

  predicate Tells(t: Table, id: OpId, story: Story) {
    match story
    case Absent => id !in t.rows
    case Running => id in t.rows && t.rows[id].status == InProgress
    case Finished(r) => id in t.rows && t.rows[id].status == Succeeded && t.rows[id].cachedResult == Some(r)
    case Broken => id in t.rows && t.rows[id].status == Failed
  }

  lemma UpsertTells(s: State, e: Event, id: OpId, story: Story)
    requires Inv(s) && Enabled(s, e) && e.DoUpsert? && Tells(s.table, id, story)
    ensures Tells(Step(s, e).table, id, StoryAfter(story, s.table, e, id))
  {
  }

  lemma StepTells(s: State, e: Event, id: OpId, story: Story)
    requires Inv(s) && Enabled(s, e) && Tells(s.table, id, story)
    ensures Tells(Step(s, e).table, id, StoryAfter(story, s.table, e, id))
  {
    if e.DoUpsert? {
      UpsertTells(s, e, id, story);
    }
  }

  lemma {:induction false} StoryIsTrue(es: seq<Event>, id: OpId)
    requires Possible(es)
    ensures Tells(After(es).table, id, StoryOf(es, id))
    decreases |es|
  {
    if es == [] {
    } else {
      var before := es[..|es| - 1];
      StoryIsTrue(before, id);
      RunsKeepInv(before);
      StepTells(After(before), es[|es| - 1], id, StoryOf(before, id));
    }
  }

  // Event a created the operation for this request.
  ghost predicate CreatedAt(es: seq<Event>, a: nat)
    requires Possible(es)
  {
    && a < |es| && es[a].DoUpsert? && Possible(es[..a])
    && Conflict(After(es[..a]).table, es[a].input).None?
  }

  predicate SameKey(a: Input, b: Input) {
    a.key.Some? && a.key == b.key && a.principal == b.principal
  }

  // The row of an operation keeps the request it was created for.
  lemma {:induction false} RowKeepsItsRequest(es: seq<Event>, a: nat)
    requires Possible(es) && CreatedAt(es, a)
    ensures es[a].id in After(es).table.rows
    ensures After(es).table.rows[es[a].id].fingerprint == es[a].input.fingerprint
    ensures es[a].input.key.Some? ==> Conflict(After(es).table, es[a].input) == Some(es[a].id)
    decreases |es|
  {
    if a == |es| - 1 {
      RunsKeepInv(es[..a]);
    } else {
      var before := es[..|es| - 1];
      assert before[..a] == es[..a];
      RowKeepsItsRequest(before, a);
      StepKeepsKeys(After(before), es[|es| - 1]);
    }
  }

  lemma SameKeySameConflict(t: Table, a: Input, b: Input)
    requires SameKey(a, b)
    ensures Conflict(t, a) == Conflict(t, b)
  {
  }

  // Claim j asks for the operation that event a created, and has not made its
  // second statement yet.
  ghost predicate AsksAgain(es: seq<Event>, a: nat, j: nat)
    requires Possible(es)
  {
    && CreatedAt(es, a) && a < j < |es| && es[j].DoUpsert? && SameKey(es[a].input, es[j].input)
    && forall k | j < k < |es| :: es[k] != DoSelect(es[j].c)
  }

  lemma AsksForTheRow(es: seq<Event>, a: nat, j: nat)
    requires Possible(es) && AsksAgain(es, a, j)
    ensures Possible(es[..j]) && Possible(es[..j + 1]) && Enabled(After(es[..j]), es[j])
    ensures After(es[..j + 1]) == Step(After(es[..j]), es[j]) && Inv(After(es[..j]))
    ensures var t := After(es[..j]).table;
            && Conflict(t, es[j].input) == Some(es[a].id) && es[a].id in t.rows
            && t.rows[es[a].id].fingerprint == es[a].input.fingerprint
  {
    PrefixPossible(es, j);
    PrefixPossible(es, j + 1);
    assert es[..j][..a] == es[..a];
    assert es[..j + 1][..j] == es[..j];
    RunsKeepInv(es[..j]);
    RowKeepsItsRequest(es[..j], a);
    SameKeySameConflict(After(es[..j]).table, es[a].input, es[j].input);
  }

  // It is handed the operation exactly when it repeats the request and the
  // last execution failed; otherwise it waits for its second statement.
  lemma WaitsUnlessReopened(es: seq<Event>, a: nat, j: nat)
    requires Possible(es) && AsksAgain(es, a, j)
    ensures Possible(es[..j]) && Possible(es[..j + 1])
    ensures es[j].c in After(es[..j + 1]).pending <==>
            !(es[j].input.fingerprint == es[a].input.fingerprint && StoryOf(es[..j], es[a].id) == Broken)
    ensures es[j].c in After(es[..j + 1]).pending ==> After(es[..j + 1]).pending[es[j].c] == es[j].input
  {
    AsksForTheRow(es, a, j);
    StoryIsTrue(es[..j], es[a].id);
  }

  // And then it is answered by what the events say at that moment.
  lemma AnswersTellTheStory(es: seq<Event>, a: nat, j: nat)
    requires Possible(es) && AsksAgain(es, a, j)
    requires Possible(es[..j + 1]) && es[j].c in After(es[..j + 1]).pending
    ensures es[j].c in After(es).pending
    ensures var (answer, story) := (Answer(After(es), es[j].c), StoryOf(es, es[a].id));
            if es[j].input.fingerprint != es[a].input.fingerprint then answer == FingerprintMismatch
            else match story
                 case Absent => false
                 case Running => answer == StillRunning
                 case Finished(r) =>
                   && answer == AlreadyDone && es[a].id in After(es).table.rows
                   && After(es).table.rows[es[a].id].cachedResult == Some(r)
                 case Broken => answer == Throws
  {
    WaitsUnlessReopened(es, a, j);
    PendingStays(es, j + 1, es[j].c);
    RunsKeepInv(es);
    RowKeepsItsRequest(es, a);
    SameKeySameConflict(After(es).table, es[a].input, es[j].input);
    StoryIsTrue(es, es[a].id);
  }

  // A report of success is the end of the story.
  lemma {:induction false} FinishedForGood(es: seq<Event>, k: nat, id: OpId, result: string)
    requires Possible(es) && k < |es| && es[k] == Complete(id, result)
    ensures StoryOf(es, id) == Finished(result)
    decreases |es|
  {
    if k == |es| - 1 {
    } else {
      var before := es[..|es| - 1];
      FinishedForGood(before, k, id, result);
      StoryIsTrue(before, id);
      RunsKeepInv(before);
      StepFromBusy(After(before), es[|es| - 1], id);
    }
  }

  // Every retry of a request that begins after its operation was completed is
  // answered with the result reported then; a different request under the same
  // key is told apart.
  lemma RetriesReplayTheResult(es: seq<Event>, a: nat, k: nat, j: nat, result: string)
    requires Possible(es) && AsksAgain(es, a, j) && k < j && es[k] == Complete(es[a].id, result)
    ensures es[j].c in After(es).pending
    ensures if es[j].input.fingerprint == es[a].input.fingerprint then
              && Answer(After(es), es[j].c) == AlreadyDone && es[a].id in After(es).table.rows
              && After(es).table.rows[es[a].id].cachedResult == Some(result)
            else Answer(After(es), es[j].c) == FingerprintMismatch
  {
    PrefixPossible(es, j);
    FinishedForGood(es[..j], k, es[a].id, result);
    FinishedForGood(es, k, es[a].id, result);
    WaitsUnlessReopened(es, a, j);
    AnswersTellTheStory(es, a, j);
  }

  // Without an interruption the claim cannot throw.
  lemma AtomicClaimNeverThrows(s: State, c: Caller, id: OpId, input: Input)
    requires Inv(s) && Enabled(s, DoUpsert(c, id, input))
    ensures var s' := Step(s, DoUpsert(c, id, input));
            c in s'.pending ==> Answer(s', c) != Throws
  {
    UpsertKeepsTable(s.table, id, input);
  }

  // Event m fails the row, and no later answer hands it out again.
  ghost predicate FailsForGood(es: seq<Event>, m: nat, id: OpId)
    requires Possible(es)
  {
    && m < |es| && es[m].Fail? && es[m].id == id
    && forall k: nat | m < k < |es| :: !GrantsAt(es, k, id)
  }

  lemma StepFromFailed(s: State, e: Event, id: OpId)
    requires Inv(s) && Enabled(s, e) && id in s.table.rows && s.table.rows[id].status == Failed
    ensures id in Step(s, e).table.rows
    ensures Step(s, e).table.rows[id].status == Failed <==> !HandsOut(s.table, e, id)
    ensures !(e.Fail? && e.id == id)
  {
    match e case _ => {}
  }

  lemma GrantsInPrefix(es: seq<Event>, k: nat, id: OpId)
    requires Possible(es) && k + 1 < |es| && Possible(es[..|es| - 1])
    ensures GrantsAt(es, k, id) <==> GrantsAt(es[..|es| - 1], k, id)
  {
    assert es[..|es| - 1][..k] == es[..k];
    assert es[..|es| - 1][k] == es[k];
  }

  lemma FailsOnePast(es: seq<Event>, m: nat, id: OpId)
    requires Possible(es) && m + 1 < |es| && Possible(es[..|es| - 1])
    ensures FailsForGood(es, m, id) <==> FailsForGood(es[..|es| - 1], m, id) && !GrantsAt(es, |es| - 1, id)
  {
    if FailsForGood(es, m, id) {
      FailsOneLess(es, m, id);
    }
    if FailsForGood(es[..|es| - 1], m, id) && !GrantsAt(es, |es| - 1, id) {
      FailsOneMore(es, m, id);
    }
  }

  lemma FailsOneLess(es: seq<Event>, m: nat, id: OpId)
    requires Possible(es) && m + 1 < |es| && Possible(es[..|es| - 1]) && FailsForGood(es, m, id)
    ensures FailsForGood(es[..|es| - 1], m, id) && !GrantsAt(es, |es| - 1, id)
  {
    var before := es[..|es| - 1];
    forall k: nat | m < k < |before|
      ensures !GrantsAt(before, k, id)
    {
      GrantsInPrefix(es, k, id);
    }
  }

  lemma FailsOneMore(es: seq<Event>, m: nat, id: OpId)
    requires Possible(es) && m + 1 < |es| && Possible(es[..|es| - 1])
    requires FailsForGood(es[..|es| - 1], m, id) && !GrantsAt(es, |es| - 1, id)
    ensures FailsForGood(es, m, id)
  {
    assert es[..|es| - 1][m] == es[m];
    forall k: nat | m < k < |es|
      ensures !GrantsAt(es, k, id)
    {
      if k < |es| - 1 {
        GrantsInPrefix(es, k, id);
      }
    }
  }

  // A row that was not failed is failed later exactly when a fail of it came
  // after which nobody was handed the row again.
  lemma {:induction false} FailedIff(es: seq<Event>, i: nat, id: OpId)
    requires i <= |es| && Possible(es) && Possible(es[..i])
    requires id in After(es[..i]).table.rows && After(es[..i]).table.rows[id].status != Failed
    ensures id in After(es).table.rows
    ensures After(es).table.rows[id].status == Failed <==> exists m: nat :: i <= m && FailsForGood(es, m, id)
    decreases |es|
  {
    if i == |es| {
      assert es[..i] == es;
    } else {
      var (last, before) := (|es| - 1, es[..|es| - 1]);
      assert before[..i] == es[..i];
      FailedIff(before, i, id);
      RunsKeepInv(before);
      var s := After(before);
      if s.table.rows[id].status == Failed {
        StepFromFailed(s, es[last], id);
      } else {
        StepFromBusy(s, es[last], id);
      }
      forall m: nat | i <= m < last
        ensures FailsForGood(es, m, id) <==> FailsForGood(before, m, id) && !GrantsAt(es, last, id)
      {
        FailsOnePast(es, m, id);
      }
      assert FailsForGood(es, last, id) <==> es[last].Fail? && es[last].id == id;
      assert GrantsAt(es, last, id) <==> HandsOut(s.table, es[last], id);
    }
  }

  // Interrupted, a claim throws exactly when it came with the fingerprint of
  // the row, and the row's owner reported a failure between the two statements
  // after which nobody reopened the row.
  lemma ThrowsIffFailedBetween(es: seq<Event>, i: nat, c: Caller)
    requires i < |es| && Possible(es) && Possible(es[..i]) && es[i].DoUpsert? && es[i].c == c
    requires Possible(es[..i + 1]) && c in After(es[..i + 1]).pending
    requires c in After(es).pending && After(es).pending[c] == es[i].input
    ensures var row := Conflict(After(es[..i + 1]).table, es[i].input);
            && row.Some? && row.value in After(es[..i + 1]).table.rows
            && (Answer(After(es), c) == Throws <==>
                  && After(es[..i + 1]).table.rows[row.value].fingerprint == es[i].input.fingerprint
                  && exists m: nat :: i < m && FailsForGood(es, m, row.value))
  {
    var input := es[i].input;
    assert es[..i + 1][..i] == es[..i];
    RunsKeepInv(es[..i]);
    RunsKeepInv(es[..i + 1]);
    RunsKeepInv(es);
    var s := After(es[..i + 1]);
    var id := Conflict(s.table, input).value;
    AtomicClaimNeverThrows(After(es[..i]), c, es[i].id, input);
    ConflictStays(es, i + 1, input, id);
    FingerprintStays(es, i + 1, id);
    if s.table.rows[id].fingerprint == input.fingerprint {
      FailedIff(es, i + 1, id);
    }
  }

  lemma StepKeepsKeys(s: State, e: Event)
    requires Enabled(s, e)
    ensures forall id | id in s.table.rows ::
              id in Step(s, e).table.rows && Step(s, e).table.rows[id].fingerprint == s.table.rows[id].fingerprint
    ensures forall input | Conflict(s.table, input).Some? ::
              Conflict(Step(s, e).table, input) == Conflict(s.table, input)
  {
    match e case _ => {}
  }

  lemma {:induction false} ConflictStays(es: seq<Event>, i: nat, input: Input, id: OpId)
    requires i <= |es| && Possible(es) && Possible(es[..i])
    requires Conflict(After(es[..i]).table, input) == Some(id)
    ensures Conflict(After(es).table, input) == Some(id)
    decreases |es|
  {
    if i == |es| {
      assert es[..i] == es;
    } else {
      assert es[..|es| - 1][..i] == es[..i];
      ConflictStays(es[..|es| - 1], i, input, id);
      StepKeepsKeys(After(es[..|es| - 1]), es[|es| - 1]);
    }
  }

  lemma {:induction false} FingerprintStays(es: seq<Event>, i: nat, id: OpId)
    requires i <= |es| && Possible(es) && Possible(es[..i]) && id in After(es[..i]).table.rows
    ensures id in After(es).table.rows
    ensures After(es).table.rows[id].fingerprint == After(es[..i]).table.rows[id].fingerprint
    decreases |es|
  {
    if i == |es| {
      assert es[..i] == es;
    } else {
      assert es[..|es| - 1][..i] == es[..i];
      FingerprintStays(es[..|es| - 1], i, id);
      StepKeepsKeys(After(es[..|es| - 1]), es[|es| - 1]);
    }
  }

  lemma RunOn(es: seq<Event>, e: Event) returns (longer: seq<Event>)
    requires Possible(es) && Enabled(After(es), e)
    ensures longer == es + [e] && Possible(longer) && After(longer) == Step(After(es), e)
  {
    longer := es + [e];
    assert longer[..|longer| - 1] == es;
  }

  // That interleaving exists, so the "unreachable" branch is reachable.
  lemma ThrowIsReachable() returns (es: seq<Event>, c: Caller)
    ensures Possible(es) && c in After(es).pending && Answer(After(es), c) == Throws
  {
    var input := Input("p", Some("k"), "f");
    c := 1;
    es := RunOn([], DoUpsert(0, 0, input));
    assert After(es).table.index == map[("p", "k") := 0];
    es := RunOn(es, DoUpsert(1, 1, input));
    es := RunOn(es, Fail(0, "error"));
  }
}
