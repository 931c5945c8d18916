// Pending diagnostics requests: one per client, ended by the agent's report,
// by a newer request or by a timer
// (backend/src/tinta-core/tinta-agent.gateway.ts:541-583).
module Diagnostics {
  import opened Prelude

  type Client = string
  type Report = string
  type Request = nat      // numbered in the order of the calls

  // A timer is named by the request that set it. Its callback knows the
  // client and the request, not what is pending by the time it runs.
  datatype Timer = Timer(client: Client, due: nat)

  datatype State = State(
    agents: set<Client>,
    pending: map<Client, Request>,
    armed: map<Request, Timer>,
    calls: seq<(Request, Option<Report>)>,    // every resolve(...) so far
    issued: nat,
    now: nat)

  datatype Event =
    | Join(client: Client)
    | Leave(client: Client)
    | Ask(client: Client, timeoutMs: nat)
    | Answer(reporter: Option<Client>, report: Report)
    | Fire(request: Request)
    | Pass(ms: nat)

  const Start := State({}, map[], map[], [], 0, 0)

  function Resolve(s: State, r: Request, x: Option<Report>): State {
    s.(calls := s.calls + [(r, x)])
  }

  // A timer fires when it is due, and time does not pass a due timer by.
  predicate Enabled(s: State, e: Event) {
    match e
    case Fire(r) => r in s.armed && s.armed[r].due <= s.now
    case Pass(ms) => forall r | r in s.armed :: s.now + ms <= s.armed[r].due
    case _ => true
  }

  function Asked(s: State, client: Client, timeoutMs: nat): State {
    var r := s.issued;
    if client !in s.agents then Resolve(s, r, None).(issued := r + 1)
    else
      var s1 := if client in s.pending
        then Resolve(s, s.pending[client], None).(armed := s.armed - {s.pending[client]}) else s;
      s1.(pending := s1.pending[client := r], armed := s1.armed[r := Timer(client, s.now + timeoutMs)], issued := r + 1)
  }

  function Answered(s: State, client: Option<Client>, report: Report): State {
    if client.None? || client.value !in s.pending then s
    else
      var r := s.pending[client.value];
      Resolve(s, r, Some(report)).(armed := s.armed - {r}, pending := s.pending - {client.value})
  }

  function Fired(s: State, r: Request): State
    requires r in s.armed
  {
    Resolve(s, r, None).(armed := s.armed - {r}, pending := s.pending - {s.armed[r].client})
  }

  function Step(s: State, e: Event): State
    requires Enabled(s, e)
  {
    match e
    case Join(c) => s.(agents := s.agents + {c})
    case Leave(c) => s.(agents := s.agents - {c})
    case Ask(c, timeoutMs) => Asked(s, c, timeoutMs)
    case Answer(c, report) => Answered(s, c, report)
    case Fire(r) => Fired(s, r)
    case Pass(ms) => s.(now := s.now + ms)
  }

  // What the resolve calls of one request were given.
  function AnswersTo(calls: seq<(Request, Option<Report>)>, r: Request): seq<Option<Report>> {
    if calls == [] then []
    else AnswersTo(calls[..|calls| - 1], r)
         + if calls[|calls| - 1].0 == r then [calls[|calls| - 1].1] else []
  }

  // The pending map and the armed timers are each other's inverse.
  ghost predicate Paired(s: State) {
    && (forall c | c in s.pending :: s.pending[c] in s.armed && s.armed[s.pending[c]].client == c)
    && (forall r | r in s.armed :: s.armed[r].client in s.pending && s.pending[s.armed[r].client] == r)
    && (forall r | r in s.armed :: r < s.issued && s.now <= s.armed[r].due)
  }

  ghost predicate OnceFor(s: State, r: Request) {
    |AnswersTo(s.calls, r)| == if r < s.issued && r !in s.armed then 1 else 0
  }

  ghost predicate OncePerRequest(s: State) {
    forall r :: OnceFor(s, r)
  }

  lemma ResolveAnswers(s: State, r: Request, x: Option<Report>)
    ensures AnswersTo(Resolve(s, r, x).calls, r) == AnswersTo(s.calls, r) + [x]
    ensures forall other | other != r :: AnswersTo(Resolve(s, r, x).calls, other) == AnswersTo(s.calls, other)
  {
    assert Resolve(s, r, x).calls[..|s.calls|] == s.calls;
  }

  lemma StepKeepsPairs(s: State, e: Event)
    requires Paired(s) && Enabled(s, e)
    ensures Paired(Step(s, e))
  {
    match e case _ => {}
  }

  lemma AskResolvesOnce(s: State, c: Client, timeoutMs: nat, r: Request)
    requires Paired(s) && OnceFor(s, r)
    ensures OnceFor(Asked(s, c, timeoutMs), r)
  {
    if c !in s.agents {
      ResolveAnswers(s, s.issued, None);
    } else if c in s.pending {
      ResolveAnswers(s, s.pending[c], None);
    }
  }

  lemma StepResolvesOnce(s: State, e: Event)
    requires Paired(s) && OncePerRequest(s) && Enabled(s, e)
    ensures OncePerRequest(Step(s, e))
  {
    forall r
      ensures OnceFor(Step(s, e), r)
    {
      assert OnceFor(s, r);
      match e
      case Ask(c, timeoutMs) => AskResolvesOnce(s, c, timeoutMs, r);
      case Answer(c, report) =>
        if c.Some? && c.value in s.pending {
          ResolveAnswers(s, s.pending[c.value], Some(report));
        }
      case Fire(t) => ResolveAnswers(s, t, None);
      case _ =>
    }
  }

  // -------- the gateway --------

  class TintaAgentGateway {
    var agents: set<Client>
    var pendingDiagnostics: map<Client, Request>
    var armed: map<Request, Timer>
    var calls: seq<(Request, Option<Report>)>
    var issued: nat
    var now: nat

    ghost function View(): State
      reads this
    {
      State(agents, pendingDiagnostics, armed, calls, issued, now)
    }

    ghost predicate Valid()
      reads this
    {
      Paired(View()) && OncePerRequest(View())
    }

    constructor ()
      ensures Valid() && View() == Start
    {
      agents, pendingDiagnostics, armed, calls, issued, now := {}, map[], map[], [], 0, 0;
    }

    method Ask(clientId: Client, timeoutMs: nat) returns (request: Request)
      requires clientId in pendingDiagnostics ==> pendingDiagnostics[clientId] < issued
      modifies this
      ensures View() == Asked(old(View()), clientId, timeoutMs) && request == old(issued)
    {
      request, issued := issued, issued + 1;
      if clientId !in agents {
        calls := calls + [(request, None)];
        return;
      }
      if clientId in pendingDiagnostics {
        var existing := pendingDiagnostics[clientId];
        armed := armed - {existing};
        calls := calls + [(existing, None)];
      }
      armed := armed[request := Timer(clientId, now + timeoutMs)];
      pendingDiagnostics := pendingDiagnostics[clientId := request];
    }

    // The promise of an offline agent's request is resolved at once; any
    // other becomes the client's one pending request.
    method RequestDiagnostics(clientId: Client, timeoutMs: nat) returns (request: Request)
      requires Valid()
      modifies this
      ensures Valid() && View() == Asked(old(View()), clientId, timeoutMs) && request == old(issued)
    {
      StepKeepsPairs(View(), Event.Ask(clientId, timeoutMs));
      StepResolvesOnce(View(), Event.Ask(clientId, timeoutMs));
      request := Ask(clientId, timeoutMs);
    }

    method TimerFires(request: Request)
      requires Valid() && request in armed
      modifies this`armed, this`pendingDiagnostics, this`calls
      ensures Valid() && View() == Fired(old(View()), request)
      // it removes its own request, and nobody else's
      ensures forall c | c in old(pendingDiagnostics) ::
                old(pendingDiagnostics)[c] != request ==>
                  c in pendingDiagnostics && pendingDiagnostics[c] == old(pendingDiagnostics)[c]
    {
      FireOnlyNeedsPairs(View(), request);
      var clientId := armed[request].client;
      armed := armed - {request};
      pendingDiagnostics := pendingDiagnostics - {clientId};
      calls := calls + [(request, None)];
    }

    method HandleDiagnosticsReport(clientId: Option<Client>, report: Report)
      requires Valid()
      modifies this`armed, this`pendingDiagnostics, this`calls
      ensures Valid() && View() == Answered(old(View()), clientId, report)
    {
      StepKeepsPairs(View(), Answer(clientId, report));
      StepResolvesOnce(View(), Answer(clientId, report));
      if clientId.None? || clientId.value !in pendingDiagnostics {
        return;
      }
      var pending := pendingDiagnostics[clientId.value];
      armed := armed - {pending};
      pendingDiagnostics := pendingDiagnostics - {clientId.value};
      calls := calls + [(pending, Some(report))];
    }
  }

  lemma FireOnlyNeedsPairs(s: State, r: Request)
    requires Paired(s) && OncePerRequest(s) && r in s.armed
    ensures Paired(Fired(s, r)) && OncePerRequest(Fired(s, r))
  {
    forall other
      ensures OnceFor(Fired(s, r), other)
    {
      assert OnceFor(s, other);
      ResolveAnswers(s, r, None);
    }
  }

  // -------- runs --------

  predicate Possible(es: seq<Event>)
    decreases |es|, 0
  {
    es == [] || (Possible(es[..|es| - 1]) && Enabled(After(es[..|es| - 1]), es[|es| - 1]))
  }

  function After(es: seq<Event>): State
    requires Possible(es)
    decreases |es|, 1
  {
    if es == [] then Start else Step(After(es[..|es| - 1]), es[|es| - 1])
  }

  lemma {:induction false} RunsKeepPairs(es: seq<Event>)
    requires Possible(es)
    ensures Paired(After(es)) && OncePerRequest(After(es))
    decreases |es|
  {
    if es == [] {
    } else {
      RunsKeepPairs(es[..|es| - 1]);
      StepKeepsPairs(After(es[..|es| - 1]), es[|es| - 1]);
      StepResolvesOnce(After(es[..|es| - 1]), es[|es| - 1]);
    }
  }

  // What becomes of the request made by event i, told from the events alone:
  // the first report of its client, the first newer request to the connected
  // client or the timer it set decides.
  function Fate(es: seq<Event>, i: nat): Option<Option<Report>>
    requires Possible(es) && i < |es| && es[i].Ask?
    decreases |es|
  {
    var before := es[..|es| - 1];
    var e := es[|es| - 1];
    if i == |es| - 1 then
      if e.client in After(before).agents then None else Some(None)
    else
      var fate := Fate(before, i);
      var c := es[i].client;
      if fate.Some? then fate
      else match e
        case Ask(other, _) => if other == c && c in After(before).agents then Some(None) else None
        case Answer(other, report) => if other == Some(c) then Some(Some(report)) else None
        case Fire(r) => if r == Asks(es[..i]) then Some(None) else None
        case _ => None
  }

  // Requests made so far: the number of the next one.
  function Asks(es: seq<Event>): nat {
    if es == [] then 0 else Asks(es[..|es| - 1]) + if es[|es| - 1].Ask? then 1 else 0
  }

  lemma {:induction false} IssuedIsAsks(es: seq<Event>)
    requires Possible(es)
    ensures After(es).issued == Asks(es)
    decreases |es|
  {
    if es == [] {
    } else {
      IssuedIsAsks(es[..|es| - 1]);
    }
  }

  lemma StepAnswers(s: State, e: Event, c: Client, r: Request)
    requires Paired(s) && OncePerRequest(s) && Enabled(s, e) && r < s.issued
    requires r in s.armed ==> s.armed[r].client == c
    ensures AnswersTo(Step(s, e).calls, r) ==
            AnswersTo(s.calls, r) +
            if r !in s.armed then []
            else match e
              case Ask(other, _) => if other == c && c in s.agents then [None] else []
              case Answer(other, report) => if other == Some(c) then [Some(report)] else []
              case Fire(t) => if t == r then [None] else []
              case _ => []
    ensures r in Step(s, e).armed ==> r in s.armed && Step(s, e).armed[r] == s.armed[r]
  {
    match e
    case Ask(d, _) => ResolveAnswers(s, if d !in s.agents || d !in s.pending then s.issued else s.pending[d], None);
    case Answer(d, report) =>
      if d.Some? && d.value in s.pending {
        ResolveAnswers(s, s.pending[d.value], Some(report));
      }
    case Fire(t) => ResolveAnswers(s, t, None);
    case _ =>
  }

  // Each request is resolved once, with what its fate says, and not before:
  // a later timer, report or request never answers in its place.
  lemma {:induction false} ResolvedOnceByItsFate(es: seq<Event>, i: nat)
    requires Possible(es) && i < |es| && es[i].Ask?
    ensures var r := Asks(es[..i]);
            && AnswersTo(After(es).calls, r) == (match Fate(es, i) case None => [] case Some(x) => [x])
            && (Fate(es, i).None? <==> r in After(es).armed)
            && (r in After(es).armed ==>
                  && After(es).armed[r].client == es[i].client
                  && es[i].client in After(es).pending && After(es).pending[es[i].client] == r)
    decreases |es|
  {
    var before := es[..|es| - 1];
    var e := es[|es| - 1];
    RunsKeepPairs(before);
    RunsKeepPairs(es);
    IssuedIsAsks(before);
    if i == |es| - 1 {
      AskStarts(After(before), es[i].client, es[i].timeoutMs);
    } else {
      assert before[..i] == es[..i];
      ResolvedOnceByItsFate(before, i);
      AsksGrow(before, i);
      StepAnswers(After(before), e, es[i].client, Asks(es[..i]));
    }
  }

  lemma AskStarts(s: State, c: Client, timeoutMs: nat)
    requires Paired(s) && OncePerRequest(s)
    ensures var t := Asked(s, c, timeoutMs);
            && (c in s.agents ==>
                  && AnswersTo(t.calls, s.issued) == [] && s.issued in t.armed
                  && t.armed[s.issued] == Timer(c, s.now + timeoutMs))
            && (c !in s.agents ==> AnswersTo(t.calls, s.issued) == [None] && s.issued !in t.armed)
  {
    assert OnceFor(s, s.issued);
    ResolveAnswers(s, if c !in s.agents || c !in s.pending then s.issued else s.pending[c], None);
  }

  lemma {:induction false} AsksGrow(es: seq<Event>, i: nat)
    requires i < |es| && es[i].Ask?
    ensures Asks(es[..i]) < Asks(es)
  {
    if i == |es| - 1 {
      assert es[..|es| - 1] == es[..i];
    } else {
      assert es[..|es| - 1][..i] == es[..i];
      AsksGrow(es[..|es| - 1], i);
    }
  }

  // No request is open longer than its timeout.
  lemma {:induction false} AnsweredInTime(es: seq<Event>, i: nat)
    requires i < |es| && Possible(es) && Possible(es[..i]) && es[i].Ask?
    ensures After(es).now > After(es[..i]).now + es[i].timeoutMs ==> Fate(es, i).Some?
    ensures Fate(es, i).None? ==>
              var r := Asks(es[..i]);
              r in After(es).armed && After(es).armed[r].due == After(es[..i]).now + es[i].timeoutMs
    decreases |es|
  {
    var before := es[..|es| - 1];
    RunsKeepPairs(es);
    RunsKeepPairs(before);
    ResolvedOnceByItsFate(es, i);
    IssuedIsAsks(before);
    if i == |es| - 1 {
      AskStarts(After(before), es[i].client, es[i].timeoutMs);
    } else {
      assert before[..i] == es[..i];
      AnsweredInTime(before, i);
      AsksGrow(before, i);
      ResolvedOnceByItsFate(before, i);
      StepAnswers(After(before), es[|es| - 1], es[i].client, Asks(es[..i]));
    }
  }

  // What the joins and leaves of a client last said.
  function LastSaid(es: seq<Event>, c: Client): bool {
    if es == [] then false
    else match es[|es| - 1]
      case Join(x) => x == c || LastSaid(es[..|es| - 1], c)
      case Leave(x) => x != c && LastSaid(es[..|es| - 1], c)
      case _ => LastSaid(es[..|es| - 1], c)
  }

  lemma {:induction false} ConnectedAsSaid(es: seq<Event>, c: Client)
    requires Possible(es)
    ensures c in After(es).agents <==> LastSaid(es, c)
    decreases |es|
  {
    if es == [] {
    } else {
      ConnectedAsSaid(es[..|es| - 1], c);
    }
  }

  // No request times out before its time.
  lemma NoEarlyTimeout(es: seq<Event>, i: nat, r: Request)
    requires Possible(es) && i < |es| && Possible(es[..i]) && es[i].Ask? && r == Asks(es[..i])
    requires Enabled(After(es), Fire(r))
    ensures After(es).now == After(es[..i]).now + es[i].timeoutMs
  {
    RunsKeepPairs(es);
    ResolvedOnceByItsFate(es, i);
    AnsweredInTime(es, i);
  }
}
