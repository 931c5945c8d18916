// The hash-chained audit ledger: hashing, chain verification and what a
// verified chain excludes (backend/src/access/audit-log.service.ts).
// The hash is any function on texts; results that would need it to be
// injective end in "or here are two texts of these ledgers that collide".
module AuditLedger {
  import opened Prelude
  import opened AuditJson

  type HashFn = string -> string

  // The columns of a row that the hash covers, prevHash apart.
  datatype Body = Body(
    accessLogId: string,
    eventType: string,
    actorUserId: Option<string>,
    metadata: Json,
    createdAt: string)

  datatype Row = Row(id: string, seqNo: nat, body: Body, prevHash: Option<string>, hash: string)

  function OrNull(s: Option<string>): Json {
    match s case Some(v) => Str(v) case None => Null
  }

  function HashedFields(b: Body, prevHash: Option<string>): Json {
    Obj(Member("accessLogId", Str(b.accessLogId),
        Member("eventType", Str(b.eventType),
        Member("actorUserId", OrNull(b.actorUserId),
        Member("metadata", b.metadata,
        Member("createdAt", Str(b.createdAt),
        Member("prevHash", OrNull(prevHash), NoMember)))))))
  }

  function HashText(b: Body, prevHash: Option<string>): string {
    Stringify(HashedFields(b, prevHash))
  }

  function ComputeHash(h: HashFn, b: Body, prevHash: Option<string>): string {
    h(HashText(b, prevHash))
  }

  function KeysOf(ms: Members): seq<string> {
    match ms case NoMember => [] case Member(key, _, rest) => [key] + KeysOf(rest)
  }

  function ValuesOf(ms: Members): seq<Json> {
    match ms case NoMember => [] case Member(_, val, rest) => [val] + ValuesOf(rest)
  }

  // The hashed object, member by member, in the order of the source.
  lemma HashedMembers(b: Body, prevHash: Option<string>)
    ensures var ms := HashedFields(b, prevHash).members;
            && KeysOf(ms) == ["accessLogId", "eventType", "actorUserId", "metadata", "createdAt", "prevHash"]
            && ValuesOf(ms) == [
                 Str(b.accessLogId), Str(b.eventType),
                 if b.actorUserId.Some? then Str(b.actorUserId.value) else Null,
                 b.metadata, Str(b.createdAt),
                 if prevHash.Some? then Str(prevHash.value) else Null]
    ensures HashText(b, prevHash) == "{" + MembersText(HashedFields(b, prevHash).members)
  {
    var m1 := HashedFields(b, prevHash).members;
    var m3 := m1.rest.rest;
    var m5 := m3.rest.rest;
    assert m5 == Member("createdAt", Str(b.createdAt), Member("prevHash", OrNull(prevHash), NoMember));
    assert KeysOf(m5.rest) == ["prevHash"] + KeysOf(NoMember) && KeysOf(m5) == ["createdAt"] + KeysOf(m5.rest);
    assert ValuesOf(m5.rest) == [OrNull(prevHash)] + ValuesOf(NoMember);
    assert KeysOf(m3) == ["actorUserId", "metadata"] + KeysOf(m5);
    assert KeysOf(m1) == ["accessLogId", "eventType"] + KeysOf(m3);
    assert ValuesOf(m5) == [Str(b.createdAt), OrNull(prevHash)];
    assert ValuesOf(m3) == [OrNull(b.actorUserId), b.metadata] + ValuesOf(m5);
    assert ValuesOf(m1) == [Str(b.accessLogId), Str(b.eventType)] + ValuesOf(m3);
  }

  // The hashed text determines every hashed field.
  lemma HashTextInjective(a: Body, p: Option<string>, b: Body, q: Option<string>)
    requires HashText(a, p) == HashText(b, q)
    ensures a == b && p == q
  {
    SameTextSameJson(HashedFields(a, p), HashedFields(b, q));
    FieldsInjective(a, p, b, q);
  }

  lemma FieldsInjective(a: Body, p: Option<string>, b: Body, q: Option<string>)
    requires HashedFields(a, p) == HashedFields(b, q)
    ensures a == b && p == q
  {
    var x, y := HashedFields(a, p).members, HashedFields(b, q).members;
    assert x.val == y.val && x.rest.val == y.rest.val;
    assert x.rest.rest.val == y.rest.rest.val;
    assert x.rest.rest.rest.val == y.rest.rest.rest.val;
    assert x.rest.rest.rest.rest.val == y.rest.rest.rest.rest.val;
    assert x.rest.rest.rest.rest.rest.val == y.rest.rest.rest.rest.rest.val;
  }

  // -------- verification --------

  function PrevOf(rows: seq<Row>, i: nat): Option<string>
    requires i <= |rows|
  {
    if i == 0 then None else Some(rows[i - 1].hash)
  }

  predicate Linked(h: HashFn, rows: seq<Row>, i: nat)
    requires i < |rows|
  {
    && rows[i].prevHash == PrevOf(rows, i)
    && rows[i].hash == ComputeHash(h, rows[i].body, PrevOf(rows, i))
  }

  predicate Verified(h: HashFn, rows: seq<Row>) {
    forall i | 0 <= i < |rows| :: Linked(h, rows, i)
  }

  // verifyChain: reports the first row that does not link up.
  method VerifyChain(h: HashFn, rows: seq<Row>) returns (valid: bool, brokenAt: Option<nat>)
    ensures valid <==> Verified(h, rows)
    ensures valid <==> brokenAt.None?
    ensures brokenAt.Some? ==>
              && brokenAt.value < |rows|
              && !Linked(h, rows, brokenAt.value)
              && Verified(h, rows[..brokenAt.value])
    // in words: every row names the hash before it, and its own hash is that of
    // its fields with that name
    ensures valid <==> forall i | 0 <= i < |rows| ::
              var prevHash := if i == 0 then None else Some(rows[i - 1].hash);
              rows[i].prevHash == prevHash && rows[i].hash == h(HashText(rows[i].body, prevHash))
  {
    forall i | 0 <= i < |rows|
      ensures Linked(h, rows, i) <==>
              var prevHash := if i == 0 then None else Some(rows[i - 1].hash);
              rows[i].prevHash == prevHash && rows[i].hash == h(HashText(rows[i].body, prevHash))
    {
    }
    var prevHash: Option<string> := None;
    for i := 0 to |rows|
      invariant prevHash == PrevOf(rows, i)
      invariant forall k | 0 <= k < i :: Linked(h, rows, k)
    {
      var expected := ComputeHash(h, rows[i].body, prevHash);
      if expected != rows[i].hash || rows[i].prevHash != prevHash {
        VerifiedPrefixOf(h, rows, i);
        assert !Linked(h, rows, i);
        return false, Some(i);
      }
      prevHash := Some(rows[i].hash);
    }
    return true, None;
  }

  lemma VerifiedPrefixOf(h: HashFn, rows: seq<Row>, n: nat)
    requires n <= |rows| && forall k | 0 <= k < n :: Linked(h, rows, k)
    ensures Verified(h, rows[..n])
  {
    forall i | 0 <= i < n ensures Linked(h, rows[..n], i) {
      assert Linked(h, rows, i);
      assert PrevOf(rows[..n], i) == PrevOf(rows, i);
    }
  }

  // Cutting off the tail is not detected: any prefix still verifies.
  lemma PrefixVerifies(h: HashFn, rows: seq<Row>, n: nat)
    requires n <= |rows| && Verified(h, rows)
    ensures Verified(h, rows[..n])
  {
    VerifiedPrefixOf(h, rows, n);
  }

  // -------- agreement or a collision --------

  function TextAt(rows: seq<Row>, i: nat): string
    requires i < |rows|
  {
    HashText(rows[i].body, PrevOf(rows, i))
  }

  // Two different hashed texts of these ledgers with the same hash.
  ghost predicate Collide(h: HashFn, a: seq<Row>, b: seq<Row>) {
    exists i, j | 0 <= i < |a| && 0 <= j < |b| ::
      TextAt(a, i) != TextAt(b, j) && h(TextAt(a, i)) == h(TextAt(b, j))
  }

  // Same content in every column the hash covers, and the same hash columns.
  predicate SameHashed(r: Row, s: Row) {
    r.body == s.body && r.prevHash == s.prevHash && r.hash == s.hash
  }

  predicate AgreeUpTo(a: seq<Row>, b: seq<Row>, n: nat)
    requires n <= |a| && n <= |b|
  {
    forall k | 0 <= k < n :: SameHashed(a[k], b[k])
  }

  // A row's hash fixes its position and everything before it.
  lemma {:induction false} HashFixesHistory(h: HashFn, a: seq<Row>, m: nat, b: seq<Row>, n: nat)
    requires Verified(h, a) && Verified(h, b)
    requires m < |a| && n < |b| && a[m].hash == b[n].hash
    ensures Collide(h, a, b) || (m == n && AgreeUpTo(a, b, m + 1))
    decreases m
  {
    assert Linked(h, a, m) && Linked(h, b, n);
    if TextAt(a, m) == TextAt(b, n) {
      HashTextInjective(a[m].body, PrevOf(a, m), b[n].body, PrevOf(b, n));
      if m == 0 {
      } else {
        HashFixesHistory(h, a, m - 1, b, n - 1);
      }
    }
  }

  // Two verified ledgers with the same tip are the same ledger.
  lemma SameTipSameLedger(h: HashFn, a: seq<Row>, b: seq<Row>)
    requires Verified(h, a) && Verified(h, b)
    requires a != [] && b != [] && a[|a| - 1].hash == b[|b| - 1].hash
    ensures Collide(h, a, b) || (|a| == |b| && AgreeUpTo(a, b, |a|))
  {
    HashFixesHistory(h, a, |a| - 1, b, |b| - 1);
  }

  // -------- tampering --------

  lemma DeletionDetected(h: HashFn, rows: seq<Row>, i: nat)
    requires Verified(h, rows) && i < |rows| - 1
    ensures var cut := rows[..i] + rows[i + 1..];
            !Verified(h, cut) || Collide(h, rows, cut)
  {
    var cut := rows[..i] + rows[i + 1..];
    if Verified(h, cut) {
      assert cut[i] == rows[i + 1];
      HashFixesHistory(h, rows, i + 1, cut, i);
    }
  }

  // Whatever the new row says, its own hash recomputed or not.
  lemma AlterationDetected(h: HashFn, rows: seq<Row>, i: nat, r: Row)
    requires Verified(h, rows) && i < |rows| - 1 && !SameHashed(rows[i], r)
    ensures !Verified(h, rows[i := r]) || Collide(h, rows, rows[i := r])
  {
    var altered := rows[i := r];
    assert !SameHashed(rows[i], altered[i]);
    if Verified(h, altered) {
      HashFixesHistory(h, rows, |rows| - 1, altered, |rows| - 1);
    }
  }

  lemma SwapDetected(h: HashFn, rows: seq<Row>, i: nat, j: nat)
    requires Verified(h, rows) && i < j < |rows|
    ensures var swapped := rows[i := rows[j]][j := rows[i]];
            !Verified(h, swapped) || Collide(h, rows, swapped)
  {
    var swapped := rows[i := rows[j]][j := rows[i]];
    if Verified(h, swapped) {
      HashFixesHistory(h, rows, j, swapped, i);
    }
  }

  // A row squeezed in anywhere but at the end.
  lemma InsertionDetected(h: HashFn, rows: seq<Row>, i: nat, r: Row)
    requires Verified(h, rows) && i < |rows|
    ensures var longer := rows[..i] + [r] + rows[i..];
            !Verified(h, longer) || Collide(h, rows, longer)
  {
    var longer := rows[..i] + [r] + rows[i..];
    if Verified(h, longer) {
      assert longer[i + 1] == rows[i];
      HashFixesHistory(h, rows, i, longer, i + 1);
    }
  }

  // The last row is the exception: whatever its new content, it verifies
  // exactly when it keeps its link and has its own hash redone.
  lemma LastRowCanBeRewritten(h: HashFn, rows: seq<Row>, r: Row)
    requires Verified(h, rows) && rows != []
    ensures Verified(h, rows[|rows| - 1 := r]) <==>
            r.prevHash == rows[|rows| - 1].prevHash && r.hash == ComputeHash(h, r.body, r.prevHash)
  {
    var (last, altered) := (|rows| - 1, rows[|rows| - 1 := r]);
    assert Linked(h, rows, last);
    assert PrevOf(altered, last) == PrevOf(rows, last);
    assert Linked(h, altered, last) <==>
        r.prevHash == rows[last].prevHash && r.hash == ComputeHash(h, r.body, r.prevHash);
    forall i | 0 <= i < last
      ensures Linked(h, altered, i)
    {
      assert Linked(h, rows, i);
      assert PrevOf(altered, i) == PrevOf(rows, i);
    }
  }

  // -------- what comes back from the jsonb column --------

  type Reload = Json -> Json

  // A row as a later read sees it: metadata has been through the column.
  function Reloaded(reload: Reload, r: Row): Row {
    r.(body := r.body.(metadata := reload(r.body.metadata)))
  }

  function ReloadedAll(reload: Reload, rows: seq<Row>): (out: seq<Row>)
    ensures |out| == |rows|
    ensures forall i | 0 <= i < |rows| :: out[i] == Reloaded(reload, rows[i])
  {
    seq(|rows|, i requires 0 <= i < |rows| => Reloaded(reload, rows[i]))
  }

  // The reloaded value serialises to the bytes that were hashed.
  predicate StableReload(reload: Reload, metadata: Json) {
    Stringify(reload(metadata)) == Stringify(metadata)
  }

  predicate AllStable(reload: Reload, rows: seq<Row>) {
    forall i | 0 <= i < |rows| :: StableReload(reload, rows[i].body.metadata)
  }

  // A ledger hashed from the values at insert time verifies after the reload
  // exactly when every row's metadata reloads stably (or texts collide).
  lemma VerifiesIffStable(h: HashFn, reload: Reload, rows: seq<Row>)
    requires Verified(h, rows)
    ensures AllStable(reload, rows) ==> Verified(h, ReloadedAll(reload, rows))
    ensures Verified(h, ReloadedAll(reload, rows)) ==>
              AllStable(reload, rows) || Collide(h, rows, ReloadedAll(reload, rows))
  {
    var loaded := ReloadedAll(reload, rows);
    forall i | 0 <= i < |rows| ensures PrevOf(loaded, i) == PrevOf(rows, i) && Linked(h, rows, i) {
    }
    if AllStable(reload, rows) {
      forall i | 0 <= i < |rows| ensures Linked(h, loaded, i) {
        assert StableReload(reload, rows[i].body.metadata);
        SameTextSameJson(reload(rows[i].body.metadata), rows[i].body.metadata);
      }
    }
    if Verified(h, loaded) && !AllStable(reload, rows) {
      var i: nat :| i < |rows| && !StableReload(reload, rows[i].body.metadata);
      assert Linked(h, loaded, i);
      if TextAt(loaded, i) == TextAt(rows, i) {
        HashTextInjective(loaded[i].body, PrevOf(loaded, i), rows[i].body, PrevOf(rows, i));
      }
      assert Collide(h, rows, loaded);
    }
  }

  // -------- key order --------

  predicate LexBefore(a: string, b: string)
    decreases |a|
  {
    b != "" && (a == "" || a[0] < b[0] || (a[0] == b[0] && LexBefore(a[1..], b[1..])))
  }

  // jsonb's storage order of object keys: shorter first (section 8.14.4 of the
  // PostgreSQL documentation), equally long ones by their characters.
  predicate KeyBefore(a: string, b: string) {
    |a| < |b| || (|a| == |b| && LexBefore(a, b))
  }

  predicate Ordered(j: Json) {
    match j
    case Arr(items) => ItemsOrdered(items)
    case Obj(members) => MembersOrdered(members)
    case _ => true
  }

  predicate ItemsOrdered(items: Items) {
    items.Item? ==> Ordered(items.first) && ItemsOrdered(items.more)
  }

  predicate MembersOrdered(ms: Members) {
    ms.Member? ==>
      && Ordered(ms.val) && MembersOrdered(ms.rest)
      && (ms.rest.Member? ==> KeyBefore(ms.key, ms.rest.key))
  }

  // What the column does to a value: it comes back in storage order, and one
  // that already was comes back as it went in.
  ghost predicate StoresInKeyOrder(reload: Reload) {
    forall j: Json :: Ordered(reload(j)) && (Ordered(j) ==> reload(j) == j)
  }

  lemma StableIffOrdered(reload: Reload, metadata: Json)
    requires StoresInKeyOrder(reload)
    ensures StableReload(reload, metadata) <==> Ordered(metadata)
  {
    if StableReload(reload, metadata) {
      SameTextSameJson(reload(metadata), metadata);
    }
  }

  predicate AllOrdered(rows: seq<Row>) {
    forall i | 0 <= i < |rows| :: Ordered(rows[i].body.metadata)
  }

  // The exact condition for an honest ledger to verify after its reload: every
  // metadata object was built with its keys in storage order.
  lemma HonestLedgerVerifiesIffOrdered(h: HashFn, reload: Reload, rows: seq<Row>)
    requires Verified(h, rows) && StoresInKeyOrder(reload)
    ensures AllOrdered(rows) ==> Verified(h, ReloadedAll(reload, rows))
    ensures Verified(h, ReloadedAll(reload, rows)) ==>
              AllOrdered(rows) || Collide(h, rows, ReloadedAll(reload, rows))
  {
    forall i | 0 <= i < |rows|
      ensures StableReload(reload, rows[i].body.metadata) <==> Ordered(rows[i].body.metadata)
    {
      StableIffOrdered(reload, rows[i].body.metadata);
    }
    VerifiesIffStable(h, reload, rows);
  }

  // -------- the metadata of the event types --------

  // In the order grantAccess builds it.
  function GrantedMetadata(serverId: string, minutes: NumText, reasonCode: Option<string>,
                           reasonDetails: Option<string>, ticketId: Option<string>,
                           source: Option<string>): Json
  {
    Obj(Member("serverId", Str(serverId),
        Member("durationMinutes", Num(minutes),
        Member("reasonCode", OrNull(reasonCode),
        Member("reasonDetails", OrNull(reasonDetails),
        Member("ticketId", OrNull(ticketId), SourceMember(source)))))))
  }

  function SourceMember(source: Option<string>): Members {
    match source case Some(s) => Member("source", Str(s), NoMember) case None => NoMember
  }

  function ClosedMetadata(reason: string, source: Option<string>): Json {
    Obj(Member("reason", Str(reason), SourceMember(source)))
  }

  function ActivityMetadata(entryCount: NumText): Json {
    Obj(Member("entryCount", Num(entryCount), NoMember))
  }

  lemma OtherMetadataIsOrdered(reason: string, source: Option<string>, entryCount: NumText)
    ensures Ordered(Obj(NoMember))
    ensures Ordered(ClosedMetadata(reason, source))
    ensures Ordered(ActivityMetadata(entryCount))
  {
    assert LexBefore("reason", "source");
    assert KeyBefore("reason", "source");
    assert MembersOrdered(NoMember);
    if source.Some? {
      assert Ordered(Str(source.value));
      assert MembersOrdered(Member("source", Str(source.value), NoMember));
      assert MembersOrdered(Member("reason", Str(reason), SourceMember(source)));
    }
  }

  // "durationMinutes" is written before the shorter "reasonCode", so no ledger
  // that contains a grant verifies after its reload, tampered with or not.
  lemma GrantBreaksTheChain(h: HashFn, reload: Reload, rows: seq<Row>, i: nat,
                            serverId: string, minutes: NumText, reasonCode: Option<string>,
                            reasonDetails: Option<string>, ticketId: Option<string>, source: Option<string>)
    requires Verified(h, rows) && StoresInKeyOrder(reload) && i < |rows|
    requires rows[i].body.metadata
          == GrantedMetadata(serverId, minutes, reasonCode, reasonDetails, ticketId, source)
    ensures !Verified(h, ReloadedAll(reload, rows)) || Collide(h, rows, ReloadedAll(reload, rows))
  {
    assert |"durationMinutes"| == 15 && |"reasonCode"| == 10;
    assert !KeyBefore("durationMinutes", "reasonCode");
    var ms := rows[i].body.metadata.members;
    assert !MembersOrdered(ms.rest);
    assert !Ordered(rows[i].body.metadata);
    HonestLedgerVerifiesIffOrdered(h, reload, rows);
  }
}
