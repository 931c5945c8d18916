// Whole runs of requests, logouts and password changes: tokens are minted
// again under one session id by every accepted request, revocation rows expire
// and are deleted, and requests may be in flight across a logout.
module SessionRuns {
  import opened Prelude
  import opened Sessions

  type Req = nat

  datatype Phase =
    | Arrived(at: nat)     // the token's signature and expiry were accepted
    | Passed(at: nat)      // the session check was read and accepted
    | Revoking(at: nat)    // a logout that has read its clock

  datatype Request = Request(token: Token, phase: Phase)

  // ttl: lifetime of every token (s). insertLag: from a logout's clock reading
  // to its row being stored. handling: from a check to the end of its request.
  datatype Bounds = Bounds(ttl: nat, insertLag: nat, handling: nat)

  datatype Ended = Ended(revokedAt: nat, insertedAt: nat)

  datatype State = State(
    now: nat,
    issued: set<Token>,
    rows: map<Sid, int>,
    users: map<User, Meta>,
    gone: set<User>,           // deleted users
    reqs: map<Req, Request>,
    ended: map<Sid, Ended>)    // first stored revocation of each session

  datatype Event =
    | Advance(to: nat)
    | Register(u: User)
    | Login(u: User, sid: Sid)
    | Arrive(r: Req, token: Token)
    | Check(r: Req)            // an accepted check
    | Drop(r: Req)             // rejected, timed out, failed, or ended without a cookie
    | Mint(r: Req)
    | LogoutStart(r: Req)
    | LogoutInsert(r: Req)
    | Cleanup(cutoff: nat)
    | ChangePassword(u: User)
    | SetActive(u: User, active: bool)
    | DeleteUser(u: User)

  // The clock is past its first second, so no issue time is 0.
  const Start := State(1000, {}, map[], map[], {}, map[], map[])

  function Fresh(b: Bounds, now: nat, u: User, sid: Sid): Token {
    Token(u, sid, now / 1000, now / 1000 + b.ttl)
  }

  function Seen(s: State, t: Token): Lookup {
    Found(if t.sub in s.users then Some(s.users[t.sub]) else None, t.sid in s.rows)
  }

  predicate Enabled(b: Bounds, s: State, e: Event) {
    match e
    case Advance(t) => t >= s.now
    case Register(u) => u !in s.users && u !in s.gone
    case Login(u, sid) =>
      u in s.users && s.users[u].isActive && sid != "" && forall t | t in s.issued :: t.sid != sid
    case Arrive(r, t) => r !in s.reqs && t in s.issued && s.now / 1000 < t.exp
    case Check(r) =>
      && r in s.reqs && s.reqs[r].phase.Arrived?
      && s.now <= s.reqs[r].phase.at + AUTH_CHECK_TIMEOUT_MS
      && Judge(s.reqs[r].token, Seen(s, s.reqs[r].token)) == Accepted
    case Drop(r) => r in s.reqs
    case Mint(r) => r in s.reqs && s.reqs[r].phase.Passed? && s.now <= s.reqs[r].phase.at + b.handling
    case LogoutStart(r) => r in s.reqs && s.reqs[r].phase.Passed?
    // the row refers to its user; without one it is refused, and the request ends
    case LogoutInsert(r) =>
      && r in s.reqs && s.reqs[r].phase.Revoking? && s.now <= s.reqs[r].phase.at + b.insertLag
      && s.reqs[r].token.sub in s.users
    case Cleanup(cutoff) => cutoff <= s.now
    case ChangePassword(u) => u in s.users
    case SetActive(u, _) => u in s.users
    case DeleteUser(u) => u in s.users
  }

  function WithPhase(s: State, r: Req, phase: Phase): State
    requires r in s.reqs
  {
    s.(reqs := s.reqs[r := s.reqs[r].(phase := phase)])
  }

  // Revocation rows go with their user.
  function WithoutUser(s: State, u: User): map<Sid, int> {
    map sid | sid in s.rows && (forall t | t in s.issued && t.sid == sid :: t.sub != u) :: s.rows[sid]
  }

  function Step(b: Bounds, s: State, e: Event): State
    requires Enabled(b, s, e)
  {
    match e
    case Advance(t) => s.(now := t)
    case Register(u) => s.(users := s.users[u := Meta(None, true)])
    case Login(u, sid) => s.(issued := s.issued + {Fresh(b, s.now, u, sid)})
    case Arrive(r, t) => s.(reqs := s.reqs[r := Request(t, Arrived(s.now))])
    case Check(r) => WithPhase(s, r, Passed(s.now))
    case Drop(r) => s.(reqs := s.reqs - {r})
    case Mint(r) =>
      var t := s.reqs[r].token;
      s.(issued := s.issued + {Fresh(b, s.now, t.sub, t.sid)}, reqs := s.reqs - {r})
    case LogoutStart(r) => WithPhase(s, r, Revoking(s.now))
    case LogoutInsert(r) =>
      var t, at := s.reqs[r].token, s.reqs[r].phase.at;
      s.(rows := InsertOrIgnore(s.rows, t.sid, at + TtlMs(t) + REVOCATION_MARGIN_MS),
         reqs := s.reqs - {r},
         ended := if t.sid in s.ended then s.ended else s.ended[t.sid := Ended(at, s.now)])
    case Cleanup(cutoff) => s.(rows := WithoutExpired(s.rows, cutoff))
    case ChangePassword(u) => s.(users := s.users[u := s.users[u].(passwordChangedAt := Some(s.now))])
    case SetActive(u, active) => s.(users := s.users[u := s.users[u].(isActive := active)])
    case DeleteUser(u) => s.(users := s.users - {u}, gone := s.gone + {u}, rows := WithoutUser(s, u))
  }

  predicate Possible(b: Bounds, es: seq<Event>)
    decreases |es|, 0
  {
    es == [] || (Possible(b, es[..|es| - 1]) && Enabled(b, After(b, es[..|es| - 1]), es[|es| - 1]))
  }

  function After(b: Bounds, es: seq<Event>): State
    requires Possible(b, es)
    decreases |es|, 1
  {
    if es == [] then Start else Step(b, After(b, es[..|es| - 1]), es[|es| - 1])
  }

  lemma {:induction false} PrefixPossible(b: Bounds, es: seq<Event>, i: nat)
    requires i <= |es| && Possible(b, es)
    ensures Possible(b, es[..i])
    decreases |es|
  {
    if i == |es| {
      assert es[..i] == es;
    } else {
      PrefixPossible(b, es[..|es| - 1], i);
      assert es[..|es| - 1][..i] == es[..i];
    }
  }

  // -------- what every run keeps --------

  ghost predicate IssuedOk(b: Bounds, s: State) {
    && (forall t | t in s.issued ::
          t.sid != "" && t.iat >= 1 && t.exp == t.iat + b.ttl && t.iat * 1000 <= s.now)
    && (forall t, u | t in s.issued && u in s.issued && t.sid == u.sid :: t.sub == u.sub)
  }

  ghost predicate ReqOk(s: State, req: Request) {
    && req.token in s.issued
    && req.phase.at <= s.now
    && (req.phase.Arrived? ==> req.phase.at < req.token.exp * 1000)
  }

  ghost predicate TokensOk(b: Bounds, s: State) {
    && s.now >= 1000
    && IssuedOk(b, s)
    && (forall r | r in s.reqs :: ReqOk(s, s.reqs[r]))
    && (forall sid | sid in s.ended :: exists t :: t in s.issued && t.sid == sid)
    && s.rows.Keys <= s.ended.Keys
    && s.users.Keys !! s.gone
    && (forall u | u in s.users && s.users[u].passwordChangedAt.Some? ::
          s.users[u].passwordChangedAt.value <= s.now)
  }

  // When the row of a session that ended at `revokedAt` is due for deletion.
  function RowEnd(b: Bounds, x: Ended): int {
    x.revokedAt + b.ttl * 1000 + REVOCATION_MARGIN_MS
  }

  // Tokens of an ended session are minted no later than `handling` after the
  // end was stored, by requests that had passed their check by then.
  ghost predicate EndedTokensOk(b: Bounds, s: State, sid: Sid, x: Ended) {
    && (forall t | t in s.issued && t.sid == sid :: t.iat * 1000 <= x.insertedAt + b.handling)
    && (forall r | r in s.reqs && s.reqs[r].token.sid == sid && s.reqs[r].phase.Passed? ::
          s.reqs[r].phase.at <= x.insertedAt)
  }

  // Its row is there until RowEnd, unless its user was deleted.
  ghost predicate EndedRowOk(b: Bounds, s: State, sid: Sid, x: Ended) {
    || s.now > RowEnd(b, x)
    || (sid in s.rows && s.rows[sid] >= RowEnd(b, x))
    || forall t | t in s.issued && t.sid == sid :: t.sub in s.gone
  }

  ghost predicate EndedOk(b: Bounds, s: State, sid: Sid)
    requires sid in s.ended
  {
    var x := s.ended[sid];
    && x.revokedAt <= x.insertedAt <= x.revokedAt + b.insertLag
    && x.insertedAt <= s.now
    && EndedTokensOk(b, s, sid, x)
    && EndedRowOk(b, s, sid, x)
  }

  ghost predicate Inv(b: Bounds, s: State) {
    TokensOk(b, s) && forall sid | sid in s.ended :: EndedOk(b, s, sid)
  }

  // The margin covers the insert, the longest request and the check; the one
  // millisecond is the strictness of the two comparisons involved.
  predicate MarginSuffices(b: Bounds) {
    b.insertLag + b.handling + AUTH_CHECK_TIMEOUT_MS <= REVOCATION_MARGIN_MS + 1
  }

  // In a state of such a run, no check of an ended session is accepted.
  lemma NoCheckAfterEnd(b: Bounds, s: State, r: Req)
    requires Inv(b, s) && MarginSuffices(b) && r in s.reqs
    ensures s.reqs[r].token.sid in s.ended ==> !Enabled(b, s, Check(r))
  {
    if s.reqs[r].token.sid in s.ended {
      var t := s.reqs[r].token;
      assert EndedOk(b, s, t.sid);
      AcceptsOnlyProven(t, Seen(s, t));
    }
  }

  lemma StepKeepsIssued(b: Bounds, s: State, e: Event)
    requires TokensOk(b, s) && Enabled(b, s, e)
    ensures IssuedOk(b, Step(b, s, e))
  {
    if e.Mint? {
      assert ReqOk(s, s.reqs[e.r]);
    }
  }

  lemma StepKeepsReq(b: Bounds, s: State, e: Event, r: Req)
    requires TokensOk(b, s) && Enabled(b, s, e) && r in Step(b, s, e).reqs
    ensures ReqOk(Step(b, s, e), Step(b, s, e).reqs[r])
  {
    assert r in s.reqs ==> ReqOk(s, s.reqs[r]);
  }

  lemma StepKeepsTokens(b: Bounds, s: State, e: Event)
    requires TokensOk(b, s) && Enabled(b, s, e)
    ensures TokensOk(b, Step(b, s, e))
  {
    var s' := Step(b, s, e);
    StepKeepsIssued(b, s, e);
    forall r | r in s'.reqs ensures ReqOk(s', s'.reqs[r]) {
      StepKeepsReq(b, s, e, r);
    }
    forall sid | sid in s'.ended ensures exists t :: t in s'.issued && t.sid == sid {
      EndedWasIssued(b, s, e, sid);
    }
  }

  lemma EndedWasIssued(b: Bounds, s: State, e: Event, sid: Sid)
    requires TokensOk(b, s) && Enabled(b, s, e) && sid in Step(b, s, e).ended
    ensures exists t :: t in Step(b, s, e).issued && t.sid == sid
  {
    var s' := Step(b, s, e);
    if sid in s.ended {
      var t :| t in s.issued && t.sid == sid;
      assert t in s'.issued;
    } else {
      assert ReqOk(s, s.reqs[e.r]);
      assert s.reqs[e.r].token in s'.issued;
    }
  }

  lemma EndBegins(b: Bounds, s: State, e: Event, sid: Sid)
    requires Inv(b, s) && Enabled(b, s, e) && e.LogoutInsert?
    requires sid !in s.ended && sid in Step(b, s, e).ended
    ensures EndedOk(b, Step(b, s, e), sid)
  {
    assert ReqOk(s, s.reqs[e.r]);
    var s' := Step(b, s, e);
    assert s'.rows[sid] == RowEnd(b, s'.ended[sid]);
    forall r | r in s'.reqs ensures s'.reqs[r].phase.at <= s.now {
      assert ReqOk(s, s.reqs[r]);
    }
  }

  lemma MintIsInTime(b: Bounds, s: State, e: Event, sid: Sid)
    requires Inv(b, s) && Enabled(b, s, e) && e.Mint? && sid in s.ended && s.reqs[e.r].token.sid == sid
    ensures s.now <= s.ended[sid].insertedAt + b.handling
  {
    assert EndedOk(b, s, sid);
  }

  lemma MintKeepsEndedTokens(b: Bounds, s: State, e: Event, sid: Sid)
    requires Inv(b, s) && Enabled(b, s, e) && e.Mint? && sid in s.ended
    ensures EndedTokensOk(b, Step(b, s, e), sid, s.ended[sid])
  {
    assert EndedOk(b, s, sid);
    if s.reqs[e.r].token.sid == sid {
      MintIsInTime(b, s, e, sid);
    }
  }

  lemma LoginIsElsewhere(b: Bounds, s: State, e: Event, sid: Sid)
    requires Inv(b, s) && Enabled(b, s, e) && e.Login? && sid in s.ended
    ensures e.sid != sid
  {
    var t :| t in s.issued && t.sid == sid;
  }

  lemma CheckKeepsEndedTokens(b: Bounds, s: State, e: Event, sid: Sid)
    requires Inv(b, s) && Enabled(b, s, e) && MarginSuffices(b) && e.Check? && sid in s.ended
    ensures EndedTokensOk(b, Step(b, s, e), sid, s.ended[sid])
  {
    assert EndedOk(b, s, sid);
    NoCheckAfterEnd(b, s, e.r);
  }

  lemma StepKeepsEndedTokens(b: Bounds, s: State, e: Event, sid: Sid)
    requires Inv(b, s) && Enabled(b, s, e) && MarginSuffices(b) && sid in s.ended
    ensures EndedTokensOk(b, Step(b, s, e), sid, s.ended[sid])
  {
    if e.Check? {
      CheckKeepsEndedTokens(b, s, e, sid);
    } else if e.Mint? {
      MintKeepsEndedTokens(b, s, e, sid);
    } else {
      assert EndedOk(b, s, sid);
      if e.Login? {
        LoginIsElsewhere(b, s, e, sid);
      }
    }
  }

  lemma StepKeepsEndedRow(b: Bounds, s: State, e: Event, sid: Sid)
    requires Inv(b, s) && Enabled(b, s, e) && sid in s.ended
    ensures EndedRowOk(b, Step(b, s, e), sid, s.ended[sid])
  {
    assert EndedOk(b, s, sid);
  }

  lemma EndGoesOn(b: Bounds, s: State, e: Event, sid: Sid)
    requires Inv(b, s) && Enabled(b, s, e) && MarginSuffices(b) && sid in s.ended
    ensures sid in Step(b, s, e).ended && EndedOk(b, Step(b, s, e), sid)
  {
    assert EndedOk(b, s, sid);
    StepKeepsEndedTokens(b, s, e, sid);
    StepKeepsEndedRow(b, s, e, sid);
  }

  lemma StepKeepsEnded(b: Bounds, s: State, e: Event, sid: Sid)
    requires Inv(b, s) && Enabled(b, s, e) && MarginSuffices(b)
    requires sid in Step(b, s, e).ended
    ensures EndedOk(b, Step(b, s, e), sid)
  {
    if sid in s.ended {
      EndGoesOn(b, s, e, sid);
    } else {
      EndBegins(b, s, e, sid);
    }
  }

  lemma {:induction false} RunsKeepInv(b: Bounds, es: seq<Event>)
    requires Possible(b, es) && MarginSuffices(b)
    ensures Inv(b, After(b, es))
    decreases |es|
  {
    if es == [] {
    } else {
      var before, e := es[..|es| - 1], es[|es| - 1];
      RunsKeepInv(b, before);
      StepKeepsTokens(b, After(b, before), e);
      forall sid | sid in After(b, es).ended ensures EndedOk(b, After(b, es), sid) {
        StepKeepsEnded(b, After(b, before), e, sid);
      }
    }
  }

  lemma EndedThroughStep(b: Bounds, s: State, e: Event, sid: Sid)
    requires Enabled(b, s, e) && sid in s.ended
    ensures sid in Step(b, s, e).ended
  {
    match e case _ => {}
  }

  lemma {:induction false} EndedStaysEnded(b: Bounds, es: seq<Event>, i: nat, sid: Sid)
    requires i <= |es| && Possible(b, es) && Possible(b, es[..i]) && sid in After(b, es[..i]).ended
    ensures sid in After(b, es).ended
    decreases |es|
  {
    if i == |es| {
      assert es[..i] == es;
    } else {
      assert es[..|es| - 1][..i] == es[..i];
      EndedStaysEnded(b, es[..|es| - 1], i, sid);
      EndedThroughStep(b, After(b, es[..|es| - 1]), es[|es| - 1], sid);
    }
  }

  // The session id a request's event is about.
  function SidOf(b: Bounds, es: seq<Event>, i: nat, r: Req): Sid
    requires i < |es| && Possible(b, es[..i]) && r in After(b, es[..i]).reqs
  {
    After(b, es[..i]).reqs[r].token.sid
  }

  // An accepted check at position j of the run, on session sid.
  ghost predicate AcceptsAt(b: Bounds, es: seq<Event>, j: nat, sid: Sid)
    requires Possible(b, es)
  {
    && j < |es| && es[j].Check? && Possible(b, es[..j])
    && es[j].r in After(b, es[..j]).reqs && SidOf(b, es, j, es[j].r) == sid
  }

  // A logout stored at position i of the run, for session sid.
  ghost predicate LoggedOutAt(b: Bounds, es: seq<Event>, i: nat, sid: Sid)
    requires Possible(b, es)
  {
    && i < |es| && es[i].LogoutInsert? && Possible(b, es[..i])
    && es[i].r in After(b, es[..i]).reqs && SidOf(b, es, i, es[i].r) == sid
  }

  // Once a logout is stored, no later check ever accepts a token of that
  // session, through re-minting by requests in flight, second logouts, expiry
  // of the row and its deletion.
  lemma NoAcceptAfterLogout(b: Bounds, es: seq<Event>, i: nat, j: nat, sid: Sid)
    requires Possible(b, es) && MarginSuffices(b)
    requires LoggedOutAt(b, es, i, sid) && i < j
    ensures !AcceptsAt(b, es, j, sid)
  {
    if AcceptsAt(b, es, j, sid) {
      PrefixPossible(b, es, i + 1);
      PrefixPossible(b, es, j + 1);
      assert es[..i + 1][..i] == es[..i];
      assert es[..j + 1][..j] == es[..j];
      assert sid in After(b, es[..i + 1]).ended;
      assert es[..j][..i + 1] == es[..i + 1];
      EndedStaysEnded(b, es[..j], i + 1, sid);
      RunsKeepInv(b, es[..j]);
      NoCheckAfterEnd(b, After(b, es[..j]), es[j].r);
    }
  }

  // -------- the margin is exact --------

  lemma RunOn(b: Bounds, es: seq<Event>, e: Event) returns (longer: seq<Event>)
    requires Possible(b, es) && Enabled(b, After(b, es), e)
    ensures longer == es + [e] && Possible(b, longer) && After(b, longer) == Step(b, After(b, es), e)
  {
    longer := es + [e];
    assert longer[..|longer| - 1] == es;
  }

  const ALICE := "alice"
  const SESSION := "s"
  const LOGOUT_AT := 1998
  const LATE_MINT_AT := 59_000

  const USERS := map[ALICE := Meta(None, true)]

  function First(b: Bounds): Token { Token(ALICE, SESSION, 1, 1 + b.ttl) }
  function Second(b: Bounds): Token { Token(ALICE, SESSION, 59, 59 + b.ttl) }
  function LookupAt(b: Bounds): nat { (59 + b.ttl) * 1000 + 2999 }
  function Logout(lag: nat): map<Sid, Ended> { map[SESSION := Ended(LOGOUT_AT, LOGOUT_AT + lag)] }

  // Before the logout is stored: request 1 is logging out, request 2 has just passed.
  function BeforeStore(b: Bounds, lag: nat): State {
    State(LOGOUT_AT + lag, {First(b)}, map[], USERS, {},
          map[1 := Request(First(b), Revoking(LOGOUT_AT)), 2 := Request(First(b), Passed(LOGOUT_AT + lag))],
          map[])
  }

  function AfterMint(b: Bounds, lag: nat): State {
    State(LATE_MINT_AT, {First(b), Second(b)},
          map[SESSION := LOGOUT_AT + b.ttl * 1000 + REVOCATION_MARGIN_MS], USERS, {}, map[], Logout(lag))
  }

  function BeforeLookup(b: Bounds, lag: nat): State {
    State(LookupAt(b), {First(b), Second(b)}, map[], USERS, {},
          map[3 := Request(Second(b), Arrived(LookupAt(b) - AUTH_CHECK_TIMEOUT_MS))], Logout(lag))
  }

  lemma ReachLogin(b: Bounds) returns (es: seq<Event>)
    ensures Possible(b, es) && After(b, es) == State(LOGOUT_AT, {First(b)}, map[], USERS, {}, map[], map[])
  {
    es := RunOn(b, [], Register(ALICE));
    assert After(b, es).users == USERS;
    es := RunOn(b, es, Advance(LOGOUT_AT));
    es := RunOn(b, es, Login(ALICE, SESSION));
    assert After(b, es).issued == {First(b)};
  }

  lemma ReachLogout(b: Bounds) returns (es: seq<Event>)
    requires b.ttl >= 60
    ensures Possible(b, es)
    ensures After(b, es) == State(LOGOUT_AT, {First(b)}, map[], USERS, {},
                                  map[1 := Request(First(b), Revoking(LOGOUT_AT))], map[])
  {
    es := ReachLogin(b);
    es := RunOn(b, es, Arrive(1, First(b)));
    es := RunOn(b, es, Check(1));
    es := RunOn(b, es, LogoutStart(1));
    assert After(b, es).reqs == map[1 := Request(First(b), Revoking(LOGOUT_AT))];
  }

  lemma ReachStore(b: Bounds, lag: nat) returns (es: seq<Event>)
    requires b.ttl >= 60 && lag <= b.insertLag && lag <= 57_002
    ensures Possible(b, es) && After(b, es) == BeforeStore(b, lag)
  {
    es := ReachLogout(b);
    es := RunOn(b, es, Advance(LOGOUT_AT + lag));
    es := RunOn(b, es, Arrive(2, First(b)));
    es := RunOn(b, es, Check(2));
    assert After(b, es).reqs == BeforeStore(b, lag).reqs;
  }

  lemma ReachMint(b: Bounds, lag: nat, es: seq<Event>) returns (longer: seq<Event>)
    requires b.ttl >= 60 && lag <= b.insertLag && lag <= 57_002 && 57_002 - lag <= b.handling
    requires Possible(b, es) && After(b, es) == BeforeStore(b, lag)
    ensures es + [LogoutInsert(1)] <= longer && Possible(b, longer) && After(b, longer) == AfterMint(b, lag)
  {
    longer := RunOn(b, es, LogoutInsert(1));
    assert After(b, longer) == State(LOGOUT_AT + lag, {First(b)},
      map[SESSION := LOGOUT_AT + b.ttl * 1000 + REVOCATION_MARGIN_MS], USERS, {},
      map[2 := Request(First(b), Passed(LOGOUT_AT + lag))], Logout(lag));
    longer := RunOn(b, longer, Advance(LATE_MINT_AT));
    longer := RunOn(b, longer, Mint(2));
    assert Fresh(b, LATE_MINT_AT, ALICE, SESSION) == Second(b);
  }

  lemma ReachArrival(b: Bounds, lag: nat, es: seq<Event>) returns (longer: seq<Event>)
    requires b.ttl >= 60 && Possible(b, es) && After(b, es) == AfterMint(b, lag)
    ensures es <= longer && Possible(b, longer)
    ensures var at := LookupAt(b) - AUTH_CHECK_TIMEOUT_MS;
            After(b, longer) == AfterMint(b, lag).(now := at, reqs := map[3 := Request(Second(b), Arrived(at))])
  {
    longer := RunOn(b, es, Advance(LookupAt(b) - AUTH_CHECK_TIMEOUT_MS));
    longer := RunOn(b, longer, Arrive(3, Second(b)));
  }

  lemma ReachLookup(b: Bounds, lag: nat, es: seq<Event>) returns (longer: seq<Event>)
    requires b.ttl >= 60 && Possible(b, es) && After(b, es) == AfterMint(b, lag)
    ensures es <= longer && Possible(b, longer) && After(b, longer) == BeforeLookup(b, lag)
  {
    longer := ReachArrival(b, lag, es);
    longer := RunOn(b, longer, Advance(LookupAt(b)));
    longer := RunOn(b, longer, Cleanup(LookupAt(b)));
    assert After(b, longer).rows == map[];
  }

  // With larger bounds a run accepts a logged-out session: a request that
  // passed its check just before the logout was stored mints a token as late
  // as the bounds allow; it is presented in its last millisecond and its
  // session is looked up 3 s later, when the row has just been deleted.
  lemma InsufficientMarginAccepts(b: Bounds) returns (es: seq<Event>, i: nat, j: nat)
    requires b.ttl >= 60 && !MarginSuffices(b)
    ensures Possible(b, es) && i < j && LoggedOutAt(b, es, i, SESSION) && AcceptsAt(b, es, j, SESSION)
  {
    var lag := if b.insertLag < 57_002 then b.insertLag else 57_002;
    var stored := ReachStore(b, lag);
    var minted := ReachMint(b, lag, stored);
    var ready := ReachLookup(b, lag, minted);
    es := RunOn(b, ready, Check(3));
    i, j := |stored|, |ready|;
    assert es[..j] == ready && es[..i] == stored;
    assert es[i] == minted[i] == (stored + [LogoutInsert(1)])[i];
  }

  // -------- password changes --------

  // What holds of a cut-off session from a password change at c on.
  ghost predicate CutOff(s: State, sid: Sid, u: User, c: nat) {
    && (exists t :: t in s.issued && t.sid == sid)
    && (forall t | t in s.issued && t.sid == sid :: t.sub == u && 1 <= t.iat < c / 1000)
    && (forall r | r in s.reqs && s.reqs[r].token.sid == sid :: !s.reqs[r].phase.Passed?)
    && (u in s.gone || (u in s.users && s.users[u].passwordChangedAt.Some? && s.users[u].passwordChangedAt.value >= c))
    && s.now >= c
  }

  lemma CutOffIsRefused(b: Bounds, s: State, r: Req, sid: Sid, u: User, c: nat)
    requires TokensOk(b, s) && CutOff(s, sid, u, c) && r in s.reqs
    ensures s.reqs[r].token.sid == sid ==> Judge(s.reqs[r].token, Seen(s, s.reqs[r].token)) != Accepted
  {
    assert ReqOk(s, s.reqs[r]);
    AcceptsOnlyProven(s.reqs[r].token, Seen(s, s.reqs[r].token));
  }

  lemma StepKeepsCutOff(b: Bounds, s: State, e: Event, sid: Sid, u: User, c: nat)
    requires TokensOk(b, s) && Enabled(b, s, e) && CutOff(s, sid, u, c)
    ensures CutOff(Step(b, s, e), sid, u, c)
    ensures e.Check? ==> s.reqs[e.r].token.sid != sid
  {
    var t :| t in s.issued && t.sid == sid;
    assert t in Step(b, s, e).issued;
    if e.Check? {
      CutOffIsRefused(b, s, e.r, sid, u, c);
    }
  }

  lemma {:induction false} RunsKeepTokens(b: Bounds, es: seq<Event>)
    requires Possible(b, es)
    ensures TokensOk(b, After(b, es))
    decreases |es|
  {
    if es == [] {
    } else {
      RunsKeepTokens(b, es[..|es| - 1]);
      StepKeepsTokens(b, After(b, es[..|es| - 1]), es[|es| - 1]);
    }
  }

  lemma {:induction false} CutOffStays(b: Bounds, es: seq<Event>, i: nat, sid: Sid, u: User, c: nat)
    requires i <= |es| && Possible(b, es) && Possible(b, es[..i]) && CutOff(After(b, es[..i]), sid, u, c)
    ensures CutOff(After(b, es), sid, u, c)
    decreases |es|
  {
    if i == |es| {
      assert es[..i] == es;
    } else {
      var before := es[..|es| - 1];
      assert before[..i] == es[..i];
      CutOffStays(b, before, i, sid, u, c);
      RunsKeepTokens(b, before);
      StepKeepsCutOff(b, After(b, before), es[|es| - 1], sid, u, c);
    }
  }

  lemma CheckWasAccepted(b: Bounds, es: seq<Event>, j: nat)
    requires j < |es| && Possible(b, es) && es[j].Check? && Possible(b, es[..j])
    ensures Enabled(b, After(b, es[..j]), es[j])
  {
    PrefixPossible(b, es, j + 1);
    assert es[..j + 1][..j] == es[..j];
  }

  lemma ChangeCutsOff(b: Bounds, es: seq<Event>, i: nat, u: User, sid: Sid)
    requires i < |es| && Possible(b, es) && es[i] == ChangePassword(u) && Possible(b, es[..i])
    requires var s := After(b, es[..i]);
             && (exists t :: t in s.issued && t.sid == sid)
             && (forall t | t in s.issued && t.sid == sid :: t.sub == u && t.iat < s.now / 1000)
             && (forall r | r in s.reqs && s.reqs[r].token.sid == sid :: !s.reqs[r].phase.Passed?)
    ensures Possible(b, es[..i + 1]) && CutOff(After(b, es[..i + 1]), sid, u, After(b, es[..i]).now)
  {
    PrefixPossible(b, es, i + 1);
    assert es[..i + 1][..i] == es[..i];
    RunsKeepTokens(b, es[..i]);
  }

  // Once a password change is stored, a session of that user with no request
  // past its check and no token issued in that second or later never gets
  // another request accepted. No bound on latencies is needed.
  lemma PasswordChangeCutsOff(b: Bounds, es: seq<Event>, i: nat, j: nat, u: User, sid: Sid)
    requires Possible(b, es) && i < j && i < |es| && es[i] == ChangePassword(u) && Possible(b, es[..i])
    requires var s := After(b, es[..i]);
             && (exists t :: t in s.issued && t.sid == sid)
             && (forall t | t in s.issued && t.sid == sid :: t.sub == u && t.iat < s.now / 1000)
             && (forall r | r in s.reqs && s.reqs[r].token.sid == sid :: !s.reqs[r].phase.Passed?)
    ensures !AcceptsAt(b, es, j, sid)
  {
    if AcceptsAt(b, es, j, sid) {
      var c := After(b, es[..i]).now;
      ChangeCutsOff(b, es, i, u, sid);
      assert es[..j][..i + 1] == es[..i + 1];
      CutOffStays(b, es[..j], i + 1, sid, u, c);
      RunsKeepTokens(b, es[..j]);
      CheckWasAccepted(b, es, j);
      CutOffIsRefused(b, After(b, es[..j]), es[j].r, sid, u, c);
    }
  }

  // -------- accounts that are switched off --------

  // What the calls last said of an account: there, and active.
  function ActiveByCalls(es: seq<Event>, u: User): bool {
    if es == [] then false
    else match es[|es| - 1]
      case Register(x) => x == u || ActiveByCalls(es[..|es| - 1], u)
      case SetActive(x, active) => if x == u then active else ActiveByCalls(es[..|es| - 1], u)
      case DeleteUser(x) => x != u && ActiveByCalls(es[..|es| - 1], u)
      case _ => ActiveByCalls(es[..|es| - 1], u)
  }

  lemma {:induction false} AccountsAsSaid(b: Bounds, es: seq<Event>, u: User)
    requires Possible(b, es)
    ensures u in After(b, es).users && After(b, es).users[u].isActive <==> ActiveByCalls(es, u)
    decreases |es|
  {
    if es == [] {
    } else {
      AccountsAsSaid(b, es[..|es| - 1], u);
    }
  }

  // A session of an account that was deactivated or deleted last is not
  // accepted, whatever tokens it has.
  lemma InactiveIsRefused(b: Bounds, es: seq<Event>, r: Req)
    requires Possible(b, es) && r in After(b, es).reqs && !ActiveByCalls(es, After(b, es).reqs[r].token.sub)
    ensures !Enabled(b, After(b, es), Check(r))
  {
    var s := After(b, es);
    AccountsAsSaid(b, es, s.reqs[r].token.sub);
    AcceptsOnlyProven(s.reqs[r].token, Seen(s, s.reqs[r].token));
  }

  // The session that changed the password keeps going: whatever the user's
  // latest change, the token minted for a response passes every check but
  // those for revocation and for an inactive account.
  lemma ReissuedTokenPasses(b: Bounds, es: seq<Event>, r: Req)
    requires Possible(b, es) && Enabled(b, After(b, es), Mint(r))
    ensures var s, s' := After(b, es), Step(b, After(b, es), Mint(r));
            var was := s.reqs[r].token;
            var t := Fresh(b, s.now, was.sub, was.sid);
            && t in s'.issued
            && (Judge(t, Seen(s', t)) == Accepted <==>
                  was.sub in s.users && s.users[was.sub].isActive && was.sid !in s.rows)
  {
    RunsKeepTokens(b, es);
    var s := After(b, es);
    var was := s.reqs[r].token;
    assert ReqOk(s, s.reqs[r]);
    AcceptsOnlyProven(Fresh(b, s.now, was.sub, was.sid), Seen(Step(b, s, Mint(r)), Fresh(b, s.now, was.sub, was.sid)));
  }
}
