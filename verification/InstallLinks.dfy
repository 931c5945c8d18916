// Install links: provision, consent, preview, the one config fetch, agent
// registration and reissue, each as one complete call
// (backend/src/tinta-core/tinta-core.service.ts,
//  backend/src/provisioning/provisioning.service.ts,
//  backend/src/tinta-core/tinta-agent.gateway.ts).
module InstallLinks {
  import opened Prelude

  type Client = string
  type Link = string       // an install token
  type Jwt = string        // an agent token
  type Socket = nat

  const INSTALL_LINK_TTL_MS: nat := 7 * 24 * 60 * 60 * 1000

  datatype Session = Session(
    agentToken: Option<Jwt>,
    installToken: Option<Link>,
    expiresAt: Option<nat>,
    consentAt: Option<nat>,
    lastConnectedAt: Option<nat>,
    mismatchAt: Option<nat>)

  // What a registered socket carries: the client it speaks for, and the token
  // it proved that with.
  datatype Binding = Binding(client: Client, jwt: Jwt)

  // The sessions, the unique index on installToken, the open agent sockets,
  // registered or not, and the gateway's map, which has one socket per client.
  datatype Table = Table(
    sessions: map<Client, Session>,
    links: map<Link, Client>,
    sockets: map<Socket, Option<Binding>>,
    agents: map<Client, Socket>)

  datatype Reply =
    | NotFound | Gone | Forbidden | Enrolled | Unauthorized | Failed
    | Done
    | Issued(link: Link)
    | Preview(of: Client)
    | Config(clientId: Client, agentToken: Option<Jwt>)

  // Sessions without this install token.
  function Drop(t: Table, c: Client): map<Link, Client>
    requires c in t.sessions
  {
    if t.sessions[c].installToken.Some? then t.links - {t.sessions[c].installToken.value} else t.links
  }

  ghost predicate LinksOk(t: Table) {
    && (forall k | k in t.links ::
          t.links[k] in t.sessions && t.sessions[t.links[k]].installToken == Some(k))
    && (forall c | c in t.sessions && t.sessions[c].installToken.Some? ::
          t.sessions[c].installToken.value in t.links && t.links[t.sessions[c].installToken.value] == c)
  }

  ghost predicate TokensOk(t: Table) {
    forall c | c in t.sessions :: t.sessions[c].agentToken.Some?
  }

  ghost predicate TableOk(t: Table) {
    LinksOk(t) && TokensOk(t)
  }

  // The entry that a closing socket takes out of the map: the first one found
  // that points to it.
  predicate IsEntryOf(t: Table, s: Socket, hit: Option<Client>) {
    match hit
    case Some(c) => c in t.agents && t.agents[c] == s
    case None => forall c | c in t.agents :: t.agents[c] != s
  }

  // An open socket closes, and the gateway hears of it.
  function Disconnected(t: Table, s: Socket, hit: Option<Client>): Table {
    if s !in t.sockets then t
    else t.(sockets := t.sockets - {s}, agents := if hit.Some? then t.agents - {hit.value} else t.agents)
  }

  // disconnectAgent: closes the socket in the map, if there is one.
  function Dropped(t: Table, c: Client, hit: Option<Client>): Table {
    if c !in t.agents then t
    else
      var after := Disconnected(t, t.agents[c], hit);
      after.(agents := after.agents - {c})
  }

  // provisionAgent: a rotation first drops the running agent.
  function Provisioned(t: Table, c: Client, jwt: Jwt, link: Link, hit: Option<Client>, now: nat): Table {
    if c !in t.sessions then
      t.(sessions := t.sessions[c := Session(Some(jwt), Some(link), Some(now + INSTALL_LINK_TTL_MS), None, None, None)],
         links := t.links[link := c])
    else
      Dropped(t, c, hit)
        .(sessions := t.sessions[c := t.sessions[c].(agentToken := Some(jwt), installToken := Some(link),
                                                     expiresAt := Some(now + INSTALL_LINK_TTL_MS))],
          links := Drop(t, c)[link := c])
  }

  predicate Expired(s: Session, now: nat) {
    s.expiresAt.None? || s.expiresAt.value < now
  }

  // Done: the link leads to a session and has not expired.
  function Lookup(t: Table, k: Link, now: nat): Reply {
    if k !in t.links || t.links[k] !in t.sessions then NotFound
    else if Expired(t.sessions[t.links[k]], now) then Gone
    else Done
  }

  function Consented(t: Table, k: Link, now: nat): Table {
    if Lookup(t, k, now) != Done || t.sessions[t.links[k]].consentAt.Some? then t
    else t.(sessions := t.sessions[t.links[k] := t.sessions[t.links[k]].(consentAt := Some(now))])
  }

  // The checks shared by preview and config; `fieldsFail` stands for an error
  // while the display fields are looked up.
  function Reveal(t: Table, k: Link, now: nat, fieldsFail: bool): Reply {
    var found := Lookup(t, k, now);
    if found != Done then found
    else if t.sessions[t.links[k]].consentAt.None? then Forbidden
    else if fieldsFail then Failed
    else Done
  }

  function Consumed(t: Table, k: Link): Table {
    if k in t.links && t.links[k] in t.sessions then
      t.(sessions := t.sessions[t.links[k] := t.sessions[t.links[k]].(installToken := None, expiresAt := None)],
         links := t.links - {k})
    else t
  }

  // The session row of an agent that is in, its link used up.
  function RowEnrolled(t: Table, c: Client, now: nat): Table
    requires c in t.sessions
  {
    var stored := t.sessions[c];
    var expiresAt := if stored.installToken.Some? then None else stored.expiresAt;
    t.(sessions := t.sessions[c := stored.(lastConnectedAt := Some(now), installToken := None, expiresAt := expiresAt)],
       links := Drop(t, c))
  }

  // handleRegister; `genuine` says whether the token verifies for this client.
  // A refused socket is closed. A socket already in the map for the client is
  // replaced there and stays open. The map comes before the session row, which
  // the database may refuse for the versions sent along (`storable`).
  function Registered(t: Table, s: Socket, c: Client, jwt: Jwt, genuine: bool, storable: bool, hit: Option<Client>,
                      now: nat): (Table, Reply)
  {
    if !genuine then (Disconnected(t, s, hit), Unauthorized)
    else if c !in t.sessions then (Disconnected(t, s, hit), NotFound)
    else
      var stored := t.sessions[c];
      if stored.agentToken.Some? && stored.agentToken != Some(jwt) then
        (Disconnected(t, s, hit).(sessions := t.sessions[c := stored.(mismatchAt := Some(now))]), Unauthorized)
      else
        var bound := t.(sockets := t.sockets[s := Some(Binding(c, jwt))], agents := t.agents[c := s]);
        if storable then (RowEnrolled(bound, c, now), Done) else (bound, Failed)
  }

  // Deleting a user, or the last server of a client, deletes the session.
  function TornDown(t: Table, c: Client): Table {
    if c in t.sessions then t.(sessions := t.sessions - {c}, links := Drop(t, c)) else t
  }

  // Provisioning an existing client closes the socket in the map.
  predicate DropsEntry(t: Table, c: Client, hit: Option<Client>) {
    c in t.sessions && c in t.agents && t.agents[c] in t.sockets ==> IsEntryOf(t, t.agents[c], hit)
  }

  // Where a socket closes, `hit` is the entry its closing takes out of the map.
  datatype Call =
    | Provision(client: Client, jwt: Jwt, link: Link, hit: Option<Client>)
    | Reissue(client: Client, jwt: Jwt, link: Link, hit: Option<Client>)
    | Consent(token: Link)
    | ShowPreview(token: Link, fieldsFail: bool)
    | FetchConfig(token: Link, fieldsFail: bool)
    | Accept(s: Socket)
    | Register(s: Socket, client: Client, jwt: Jwt, genuine: bool, storable: bool, hit: Option<Client>)
    | Hangup(s: Socket, hit: Option<Client>)
    | Teardown(client: Client)

  function Made(t: Table, call: Call, now: nat): (Table, Reply) {
    match call
    case Provision(c, jwt, link, hit) => (Provisioned(t, c, jwt, link, hit, now), Issued(link))
    case Reissue(c, jwt, link, hit) =>
      if c !in t.sessions then (t, NotFound)
      else if t.sessions[c].lastConnectedAt.Some? then (t, Enrolled)
      else (Provisioned(t, c, jwt, link, hit, now), Issued(link))
    case Consent(k) => (Consented(t, k, now), Lookup(t, k, now))
    case ShowPreview(k, fieldsFail) =>
      var r := Reveal(t, k, now, fieldsFail);
      (t, if r == Done && k in t.links then Preview(t.links[k]) else r)
    case FetchConfig(k, fieldsFail) =>
      var r := Reveal(t, k, now, fieldsFail);
      if r == Done && k in t.links && t.links[k] in t.sessions
      then (Consumed(t, k), Config(t.links[k], t.sessions[t.links[k]].agentToken))
      else (t, r)
    case Accept(s) => (t.(sockets := t.sockets[s := None]), Done)
    case Register(s, c, jwt, genuine, storable, hit) => Registered(t, s, c, jwt, genuine, storable, hit, now)
    case Hangup(s, hit) => (Disconnected(t, s, hit), Done)
    case Teardown(c) => (TornDown(t, c), Done)
  }

  predicate Issues(call: Call) {
    call.Provision? || call.Reissue?
  }

  lemma DroppedKeepsRows(t: Table, c: Client, hit: Option<Client>)
    ensures Dropped(t, c, hit).sessions == t.sessions && Dropped(t, c, hit).links == t.links
  {
  }

  lemma ProvisionedIsOk(t: Table, c: Client, jwt: Jwt, link: Link, hit: Option<Client>, now: nat)
    requires TableOk(t) && link !in t.links
    ensures TableOk(Provisioned(t, c, jwt, link, hit, now))
  {
    var u := Provisioned(t, c, jwt, link, hit, now);
    DroppedKeepsRows(t, c, hit);
    assert TokensOk(u);
    ProvisionedLinksAreOk(t, c, jwt, link, hit, now);
  }

  lemma ProvisionedLinksAreOk(t: Table, c: Client, jwt: Jwt, link: Link, hit: Option<Client>, now: nat)
    requires LinksOk(t) && link !in t.links
    ensures LinksOk(Provisioned(t, c, jwt, link, hit, now))
  {
    var u := Provisioned(t, c, jwt, link, hit, now);
    forall k | k in u.links
      ensures u.links[k] in u.sessions && u.sessions[u.links[k]].installToken == Some(k)
    {
      assert k != link ==> k in t.links && t.links[k] == u.links[k] != c;
    }
    forall d | d in u.sessions && u.sessions[d].installToken.Some?
      ensures u.sessions[d].installToken.value in u.links && u.links[u.sessions[d].installToken.value] == d
    {
      assert d != c ==> d in t.sessions && u.sessions[d] == t.sessions[d];
    }
  }

  lemma RowEnrolledIsOk(t: Table, c: Client, now: nat)
    requires TableOk(t) && c in t.sessions
    ensures TableOk(RowEnrolled(t, c, now))
  {
    var u := RowEnrolled(t, c, now);
    assert forall d | d in t.sessions && d != c :: u.sessions[d] == t.sessions[d];
    assert forall k | k in u.links :: k in t.links && t.links[k] == u.links[k] != c;
  }

  lemma RegisteredIsOk(t: Table, s: Socket, c: Client, jwt: Jwt, genuine: bool, storable: bool, hit: Option<Client>,
                       now: nat)
    requires TableOk(t)
    ensures TableOk(Registered(t, s, c, jwt, genuine, storable, hit, now).0)
  {
    if genuine && storable && c in t.sessions && t.sessions[c].agentToken == Some(jwt) {
      RowEnrolledIsOk(t.(sockets := t.sockets[s := Some(Binding(c, jwt))], agents := t.agents[c := s]), c, now);
    }
  }

  lemma TornDownIsOk(t: Table, c: Client)
    requires TableOk(t)
    ensures TableOk(TornDown(t, c))
  {
    var u := TornDown(t, c);
    if c in t.sessions {
      assert forall k | k in u.links :: k in t.links && t.links[k] == u.links[k] != c;
    }
  }

  lemma ConsumedIsOk(t: Table, k: Link)
    requires TableOk(t)
    ensures TableOk(Consumed(t, k))
  {
  }

  lemma ConsentedIsOk(t: Table, k: Link, now: nat)
    requires TableOk(t)
    ensures TableOk(Consented(t, k, now))
  {
  }

  lemma CallKeepsTable(t: Table, call: Call, now: nat)
    requires TableOk(t)
    requires Issues(call) ==> call.link !in t.links
    ensures TableOk(Made(t, call, now).0)
  {
    match call
    case Provision(c, jwt, link, hit) => ProvisionedIsOk(t, c, jwt, link, hit, now);
    case Reissue(c, jwt, link, hit) => ProvisionedIsOk(t, c, jwt, link, hit, now);
    case Consent(k) => ConsentedIsOk(t, k, now);
    case ShowPreview(_, _) =>
    case FetchConfig(k, _) => ConsumedIsOk(t, k);
    case Accept(_) =>
    case Register(s, c, jwt, genuine, storable, hit) => RegisteredIsOk(t, s, c, jwt, genuine, storable, hit, now);
    case Hangup(_, _) =>
    case Teardown(c) => TornDownIsOk(t, c);
  }

  // Only a consent call on a live link sets a consent time, and only a first one.
  lemma ConsentIsSetOnce(t: Table, call: Call, now: nat, c: Client)
    requires TableOk(t) && c in Made(t, call, now).0.sessions
    ensures var (was, after) := (t.sessions, Made(t, call, now).0.sessions[c].consentAt);
            && (c in was && was[c].consentAt.Some? ==> after == was[c].consentAt)
            && (c !in was || was[c].consentAt.None? ==>
                  after.None? || (
                    && call.Consent? && Made(t, call, now).1 == Done && after == Some(now)
                    && call.token in t.links && t.links[call.token] == c && c in was))
  {
    match call case _ => {}
  }

  // A link as it was, with what it grants.
  predicate SameLink(t: Table, u: Table, k: Link) {
    && k in u.links && k in t.links && t.links[k] == u.links[k]
    && u.links[k] in t.sessions && u.links[k] in u.sessions
    && u.sessions[u.links[k]].agentToken == t.sessions[u.links[k]].agentToken
    && u.sessions[u.links[k]].expiresAt == t.sessions[u.links[k]].expiresAt
  }

  predicate FreshLink(u: Table, k: Link, c: Client, jwt: Jwt, now: nat) {
    && k in u.links && u.links[k] == c && c in u.sessions
    && u.sessions[c].agentToken == Some(jwt)
    && u.sessions[c].expiresAt == Some(now + INSTALL_LINK_TTL_MS)
  }

  lemma ProvisionedLinks(t: Table, c: Client, jwt: Jwt, link: Link, hit: Option<Client>, now: nat, k: Link)
    requires TableOk(t) && k in Provisioned(t, c, jwt, link, hit, now).links
    ensures var u := Provisioned(t, c, jwt, link, hit, now);
            if k == link then FreshLink(u, k, c, jwt, now) else SameLink(t, u, k)
  {
    DroppedKeepsRows(t, c, hit);
  }

  lemma RegisteredLinks(t: Table, s: Socket, c: Client, jwt: Jwt, genuine: bool, storable: bool, hit: Option<Client>,
                        now: nat, k: Link)
    requires TableOk(t) && k in Registered(t, s, c, jwt, genuine, storable, hit, now).0.links
    ensures SameLink(t, Registered(t, s, c, jwt, genuine, storable, hit, now).0, k)
  {
  }

  // Only issuing makes a link, and only issuing touches what a link grants.
  lemma LinksAreIssued(t: Table, call: Call, now: nat, k: Link)
    requires TableOk(t) && k in Made(t, call, now).0.links
    ensures var u := Made(t, call, now).0;
            if Issues(call) && call.link == k && Made(t, call, now).1 == Issued(k)
            then FreshLink(u, k, call.client, call.jwt, now) else SameLink(t, u, k)
  {
    match call
    case Provision(c, jwt, link, hit) => ProvisionedLinks(t, c, jwt, link, hit, now, k);
    case Reissue(c, jwt, link, hit) =>
      if c in t.sessions && t.sessions[c].lastConnectedAt.None? {
        ProvisionedLinks(t, c, jwt, link, hit, now, k);
      }
    case Register(s, c, jwt, genuine, storable, hit) =>
      RegisteredLinks(t, s, c, jwt, genuine, storable, hit, now, k);
    case _ =>
  }

  // No call but a teardown takes back that an agent has connected.
  lemma ConnectedBefore(t: Table, call: Call, now: nat, c: Client)
    requires c in t.sessions && t.sessions[c].lastConnectedAt.Some? && call != Teardown(c)
    ensures c in Made(t, call, now).0.sessions && Made(t, call, now).0.sessions[c].lastConnectedAt.Some?
    ensures call.Reissue? && call.client == c ==> Made(t, call, now) == (t, Enrolled)
  {
    match call case _ => {}
  }

  lemma ConsentStays(t: Table, call: Call, now: nat, c: Client)
    requires TableOk(t) && c in t.sessions && t.sessions[c].consentAt.Some? && call != Teardown(c)
    ensures c in Made(t, call, now).0.sessions && Made(t, call, now).0.sessions[c].consentAt == t.sessions[c].consentAt
  {
    match call case _ => {}
  }

  // -------- the services --------

  class InstallService {
    var sessions: map<Client, Session>
    var links: map<Link, Client>
    var sockets: map<Socket, Option<Binding>>
    var agents: map<Client, Socket>

    ghost function View(): Table
      reads this
    {
      Table(sessions, links, sockets, agents)
    }

    ghost predicate Valid()
      reads this
    {
      TableOk(View())
    }

    constructor ()
      ensures Valid() && View() == Table(map[], map[], map[], map[])
    {
      sessions, links, sockets, agents := map[], map[], map[], map[];
    }

    method HandleConnection(s: Socket)
      requires Valid()
      modifies this`sockets
      ensures Valid() && View() == Made(old(View()), Accept(s), 0).0
      ensures sockets == old(sockets)[s := None]
    {
      sockets := sockets[s := None];
    }

    // Takes out the first entry of the map that points to the socket.
    method HandleDisconnect(s: Socket) returns (hit: Option<Client>)
      modifies this`agents
      ensures IsEntryOf(old(View()), s, hit)
      ensures agents == if hit.Some? then old(agents) - {hit.value} else old(agents)
    {
      var entries := set c | c in agents && agents[c] == s;
      if entries == {} {
        assert forall c | c in agents && agents[c] == s :: c in entries;
        return None;
      }
      var c :| c in entries;
      agents := agents - {c};
      hit := Some(c);
    }

    method Disconnect(s: Socket) returns (hit: Option<Client>)
      modifies this`sockets, this`agents
      ensures View() == Disconnected(old(View()), s, hit) == Made(old(View()), Hangup(s, hit), 0).0
      ensures s in old(sockets) ==> IsEntryOf(old(View()), s, hit)
      ensures sockets == old(sockets) - {s}
      ensures s in old(sockets) && hit.Some? ==>
                hit.value in old(agents) && old(agents)[hit.value] == s && agents == old(agents) - {hit.value}
      ensures s in old(sockets) && hit.None? ==> s !in agents.Values && agents == old(agents)
    {
      hit := None;
      if s in sockets {
        sockets := sockets - {s};
        hit := HandleDisconnect(s);
      }
    }

    method DisconnectAgent(clientId: Client) returns (hit: Option<Client>)
      modifies this`sockets, this`agents
      ensures View() == Dropped(old(View()), clientId, hit)
      ensures clientId in old(agents) && old(agents)[clientId] in old(sockets) ==>
                IsEntryOf(old(View()), old(agents)[clientId], hit)
      ensures clientId !in agents
      ensures sockets == if clientId in old(agents) then old(sockets) - {old(agents)[clientId]} else old(sockets)
    {
      hit := None;
      if clientId in agents {
        hit := Disconnect(agents[clientId]);
        agents := agents - {clientId};
      }
    }

    method ProvisionAgent(clientId: Client, jwt: Jwt, link: Link, now: nat)
      returns (installToken: Link, hit: Option<Client>)
      requires Valid() && link !in links
      modifies this
      ensures Valid() && View() == Provisioned(old(View()), clientId, jwt, link, hit, now) && installToken == link
      ensures DropsEntry(old(View()), clientId, hit)
      // a new link for seven days and a new agent token; the rest of an
      // existing session stays
      ensures var expiresAt := Some(now + 7 * 24 * 60 * 60 * 1000);
              sessions == old(sessions)[clientId :=
                if clientId in old(sessions)
                then old(sessions)[clientId].(
                       agentToken := Some(jwt), installToken := Some(link), expiresAt := expiresAt)
                else Session(Some(jwt), Some(link), expiresAt, None, None, None)]
      ensures forall k :: k in links <==>
                k == link || (k in old(links) && old(links)[k] != clientId)
      ensures forall k | k in links :: links[k] == if k == link then clientId else old(links)[k]
      ensures sockets == if clientId in old(sessions) && clientId in old(agents)
                         then old(sockets) - {old(agents)[clientId]} else old(sockets)
    {
      installToken, hit := link, None;
      ghost var was := View();
      if clientId !in sessions {
        sessions := sessions[clientId := Session(Some(jwt), Some(link), Some(now + INSTALL_LINK_TTL_MS),
                                                 None, None, None)];
        links := links[link := clientId];
      } else {
        var existing := sessions[clientId];
        hit := DisconnectAgent(clientId);
        DroppedKeepsRows(was, clientId, hit);
        if existing.installToken.Some? {
          links := links - {existing.installToken.value};
        }
        links := links[link := clientId];
        sessions := sessions[clientId := existing.(agentToken := Some(jwt), installToken := Some(link),
                                                   expiresAt := Some(now + INSTALL_LINK_TTL_MS))];
      }
      ProvisionedIsOk(was, clientId, jwt, link, hit, now);
    }

    method ReissueInstallLink(clientId: Client, jwt: Jwt, link: Link, now: nat) returns (r: Reply, hit: Option<Client>)
      requires Valid() && link !in links
      modifies this
      ensures Valid() && (View(), r) == Made(old(View()), Reissue(clientId, jwt, link, hit), now)
      ensures r == NotFound <==> clientId !in old(sessions)
      ensures r == Enrolled <==> clientId in old(sessions) && old(sessions)[clientId].lastConnectedAt.Some?
      ensures r == Issued(link) <==> clientId in old(sessions) && old(sessions)[clientId].lastConnectedAt.None?
      ensures r != Issued(link) ==> View() == old(View())
      ensures r == Issued(link) ==>
                sessions == old(sessions)[clientId := old(sessions)[clientId].(
                  agentToken := Some(jwt), installToken := Some(link),
                  expiresAt := Some(now + 7 * 24 * 60 * 60 * 1000))]
    {
      hit := None;
      if clientId !in sessions {
        return NotFound, hit;
      }
      if sessions[clientId].lastConnectedAt.Some? {
        return Enrolled, hit;
      }
      var installToken;
      installToken, hit := ProvisionAgent(clientId, jwt, link, now);
      r := Issued(installToken);
    }

    method GetSessionByInstallToken(token: Link, now: nat) returns (r: Reply, clientId: Client)
      requires Valid()
      ensures r == Lookup(View(), token, now)
      ensures r == Done ==> token in links && links[token] == clientId && clientId in sessions
      ensures r == NotFound <==> token !in links
      ensures r == Done <==>
                && token in links
                && var expiresAt := sessions[links[token]].expiresAt;
                   expiresAt.Some? && now <= expiresAt.value
      ensures r in {NotFound, Gone, Done}
    {
      clientId := "";
      if token !in links {
        return NotFound, clientId;
      }
      clientId := links[token];
      if sessions[clientId].expiresAt.None? || sessions[clientId].expiresAt.value < now {
        return Gone, clientId;
      }
      r := Done;
    }

    method RecordServiceStartConsent(token: Link, now: nat) returns (r: Reply)
      requires Valid()
      modifies this`sessions
      ensures Valid() && (View(), r) == Made(old(View()), Consent(token), now)
      ensures token !in links ==> r == NotFound
      ensures token in links ==>
                var expiresAt := old(sessions)[links[token]].expiresAt;
                r == if expiresAt.Some? && now <= expiresAt.value then Done else Gone
      // the first consent on a live link is kept with its time, and nothing else changes
      ensures r == Done && old(sessions)[links[token]].consentAt.None? ==>
                sessions == old(sessions)[links[token] := old(sessions)[links[token]].(consentAt := Some(now))]
      ensures r != Done || old(sessions)[links[token]].consentAt.Some? ==> sessions == old(sessions)
    {
      CallKeepsTable(View(), Consent(token), now);
      var clientId;
      r, clientId := GetSessionByInstallToken(token, now);
      if r == Done && sessions[clientId].consentAt.None? {
        sessions := sessions[clientId := sessions[clientId].(consentAt := Some(now))];
      }
    }

    method ConsumeInstallToken(token: Link)
      requires Valid()
      modifies this`sessions, this`links
      ensures Valid() && View() == Consumed(old(View()), token)
      ensures token !in old(links) ==> sessions == old(sessions) && links == old(links)
      ensures token in old(links) ==>
                && links == old(links) - {token}
                && sessions == old(sessions)[old(links)[token] :=
                                 old(sessions)[old(links)[token]].(installToken := None, expiresAt := None)]
    {
      if token in links {
        sessions := sessions[links[token] := sessions[links[token]].(installToken := None, expiresAt := None)];
        links := links - {token};
      }
    }

    method GetInstallConfig(token: Link, now: nat, fieldsFail: bool) returns (r: Reply)
      requires Valid()
      modifies this`sessions, this`links
      ensures Valid() && (View(), r) == Made(old(View()), FetchConfig(token, fieldsFail), now)
      // a config exactly for a live link with a recorded consent, if nothing else fails
      ensures token !in old(links) ==> r == NotFound
      ensures token in old(links) ==>
                var (c, was) := (old(links)[token], old(sessions)[old(links)[token]]);
                && (r == Gone <==> was.expiresAt.None? || was.expiresAt.value < now)
                && (r == Forbidden <==> r != Gone && was.consentAt.None?)
                && (r == Failed <==> r != Gone && was.consentAt.Some? && fieldsFail)
                && (r.Config? <==> r != Gone && was.consentAt.Some? && !fieldsFail)
      ensures !r.Config? ==> sessions == old(sessions) && links == old(links)
      ensures r.Config? ==>
                var (c, was) := (old(links)[token], old(sessions)[old(links)[token]]);
                && r == Config(c, was.agentToken)
                && links == old(links) - {token}
                && sessions == old(sessions)[c := was.(installToken := None, expiresAt := None)]
    {
      var clientId;
      r, clientId := GetSessionByInstallToken(token, now);
      if r != Done {
        return;
      }
      if sessions[clientId].consentAt.None? {
        return Forbidden;
      }
      if fieldsFail {
        return Failed;
      }
      r := Config(clientId, sessions[clientId].agentToken);
      ConsumeInstallToken(token);
    }

    method GetInstallPreview(token: Link, now: nat, fieldsFail: bool) returns (r: Reply)
      requires Valid()
      ensures (View(), r) == Made(View(), ShowPreview(token, fieldsFail), now)
      // a preview exactly for a live link with a recorded consent, if nothing else fails
      ensures token !in links ==> r == NotFound
      ensures token in links ==>
                var s := sessions[links[token]];
                && (r == Gone <==> s.expiresAt.None? || s.expiresAt.value < now)
                && (r == Forbidden <==> r != Gone && s.consentAt.None?)
                && (r == Failed <==> r != Gone && s.consentAt.Some? && fieldsFail)
                && (r.Preview? <==> r != Gone && s.consentAt.Some? && !fieldsFail)
      ensures r.Preview? ==> r == Preview(links[token])
    {
      var clientId;
      r, clientId := GetSessionByInstallToken(token, now);
      if r != Done {
        return;
      }
      if sessions[clientId].consentAt.None? {
        return Forbidden;
      }
      if fieldsFail {
        return Failed;
      }
      r := Preview(clientId);
    }

    method HandleRegister(s: Socket, clientId: Client, jwt: Jwt, genuine: bool, storable: bool, now: nat)
      returns (r: Reply, hit: Option<Client>)
      requires Valid()
      modifies this
      ensures Valid() && (View(), r) == Registered(old(View()), s, clientId, jwt, genuine, storable, hit, now)
      // in with a genuine token that is the session's own, if the row is taken
      ensures r == NotFound <==> genuine && clientId !in old(sessions)
      ensures r == Unauthorized <==>
                !genuine || (clientId in old(sessions) && old(sessions)[clientId].agentToken != Some(jwt))
      ensures r == Failed <==> r !in {NotFound, Unauthorized} && !storable
      ensures r == Done <==> r !in {NotFound, Unauthorized} && storable
      ensures r in {NotFound, Unauthorized} ==> sockets == old(sockets) - {s}
      ensures r !in {NotFound, Unauthorized} ==>
                && sockets == old(sockets)[s := Some(Binding(clientId, jwt))] && agents == old(agents)[clientId := s]
      ensures r == Done ==>
                && var was := old(sessions)[clientId];
                && (was.installToken.Some? ==> links == old(links) - {was.installToken.value})
                && (was.installToken.None? ==> links == old(links))
                && sessions == old(sessions)[clientId := was.(
                     lastConnectedAt := Some(now), installToken := None,
                     expiresAt := if was.installToken.Some? then None else was.expiresAt)]
      ensures r == Unauthorized && genuine ==>
                sessions == old(sessions)[clientId := old(sessions)[clientId].(mismatchAt := Some(now))]
      ensures r != Done && !(r == Unauthorized && genuine) ==> sessions == old(sessions)
      ensures r != Done ==> links == old(links)
      ensures r in {Unauthorized, NotFound} && s in old(sockets) ==> IsEntryOf(old(View()), s, hit)
    {
      ghost var was := View();
      r, hit := Enroll(s, clientId, jwt, genuine, storable, now);
      RegisteredIsOk(was, s, clientId, jwt, genuine, storable, hit, now);
    }

    method Enroll(s: Socket, clientId: Client, jwt: Jwt, genuine: bool, storable: bool, now: nat)
      returns (r: Reply, hit: Option<Client>)
      modifies this
      ensures (View(), r) == Registered(old(View()), s, clientId, jwt, genuine, storable, hit, now)
      ensures r in {Unauthorized, NotFound} && s in old(sockets) ==> IsEntryOf(old(View()), s, hit)
    {
      hit := None;
      if !genuine {
        hit := Disconnect(s);
        return Unauthorized, hit;
      }
      if clientId !in sessions {
        hit := Disconnect(s);
        return NotFound, hit;
      }
      var stored := sessions[clientId];
      if stored.agentToken.Some? && stored.agentToken != Some(jwt) {
        sessions := sessions[clientId := stored.(mismatchAt := Some(now))];
        hit := Disconnect(s);
        return Unauthorized, hit;
      }
      sockets := sockets[s := Some(Binding(clientId, jwt))];
      agents := agents[clientId := s];
      if !storable {
        return Failed, hit;
      }
      Connect(clientId, now);
      r := Done;
    }

    // The session row once the agent is in: connected, its link used up.
    method Connect(clientId: Client, now: nat)
      requires clientId in sessions
      modifies this`sessions, this`links
      ensures View() == RowEnrolled(old(View()), clientId, now)
    {
      var stored := sessions[clientId];
      sessions := sessions[clientId := stored.(lastConnectedAt := Some(now))];
      if stored.installToken.Some? {
        sessions := sessions[clientId := sessions[clientId].(installToken := None, expiresAt := None)];
        links := links - {stored.installToken.value};
      }
    }

    // What deleting a user or a client's last server does to agent sessions.
    method DeleteSession(clientId: Client)
      requires Valid()
      modifies this`sessions, this`links
      ensures Valid() && View() == TornDown(old(View()), clientId)
      ensures sessions == old(sessions) - {clientId}
      ensures links == map k | k in old(links) && old(links)[k] != clientId :: old(links)[k]
    {
      TornDownIsOk(View(), clientId);
      if clientId in sessions {
        if sessions[clientId].installToken.Some? {
          links := links - {sessions[clientId].installToken.value};
        }
        sessions := sessions - {clientId};
      }
    }
  }

  // -------- runs of complete calls --------

  datatype Event = Event(at: nat, call: Call)

  // `issued` are the install tokens generated, and `seen` the sockets opened,
  // so far.
  datatype State = State(table: Table, issued: set<Link>, seen: set<Socket>, now: nat)

  const Start := State(Table(map[], map[], map[], map[]), {}, {}, 0)

  // Time does not run back, install tokens are random UUIDs, and a closed
  // socket does not come back.
  predicate Enabled(s: State, e: Event) {
    && e.at >= s.now
    && match e.call
       case Provision(c, _, link, hit) => link !in s.issued && DropsEntry(s.table, c, hit)
       case Reissue(c, _, link, hit) => link !in s.issued && DropsEntry(s.table, c, hit)
       case Accept(k) => k !in s.seen
       case Register(k, _, _, _, _, hit) => k in s.table.sockets && IsEntryOf(s.table, k, hit)
       case Hangup(k, hit) => k in s.table.sockets && IsEntryOf(s.table, k, hit)
       case _ => true
  }

  function Step(s: State, e: Event): State {
    State(Made(s.table, e.call, e.at).0,
          if Issues(e.call) then s.issued + {e.call.link} else s.issued,
          if e.call.Accept? then s.seen + {e.call.s} else s.seen,
          e.at)
  }

  predicate Possible(es: seq<Event>)
    decreases |es|
  {
    es == [] || (Possible(es[..|es| - 1]) && Enabled(After(es[..|es| - 1]), es[|es| - 1]))
  }

  function After(es: seq<Event>): State {
    if es == [] then Start else Step(After(es[..|es| - 1]), es[|es| - 1])
  }

  // What call number i of the run answered.
  function ReplyAt(es: seq<Event>, i: nat): Reply
    requires i < |es|
  {
    Made(After(es[..i]).table, es[i].call, es[i].at).1
  }

  ghost predicate Inv(s: State) {
    TableOk(s.table) && forall k | k in s.table.links :: k in s.issued
  }

  // Links are issued before they are there.
  lemma LinksComeFromIssuing(t: Table, call: Call, now: nat)
    ensures forall k | k in Made(t, call, now).0.links :: k in t.links || (Issues(call) && k == call.link)
  {
    match call case _ => {}
  }

  lemma StepKeepsInv(s: State, e: Event)
    requires Inv(s) && Enabled(s, e)
    ensures Inv(Step(s, e))
  {
    CallKeepsTable(s.table, e.call, e.at);
    LinksComeFromIssuing(s.table, e.call, e.at);
  }

  lemma {:induction false} RunsKeepInv(es: seq<Event>)
    requires Possible(es)
    ensures Inv(After(es))
  {
    if es == [] {
    } else {
      RunsKeepInv(es[..|es| - 1]);
      StepKeepsInv(After(es[..|es| - 1]), es[|es| - 1]);
    }
  }

  lemma {:induction false} PrefixPossible(es: seq<Event>, i: nat)
    requires i <= |es| && Possible(es)
    ensures Possible(es[..i])
  {
    if i == |es| {
      assert es[..i] == es;
    } else {
      PrefixPossible(es[..|es| - 1], i);
      assert es[..|es| - 1][..i] == es[..i];
    }
  }

  // -------- do sockets hold the current token? --------

  predicate Speaks(t: Table, s: Socket, c: Client) {
    s in t.sockets && t.sockets[s].Some? && t.sockets[s].value.client == c
  }

  // Every open socket that speaks for the client registered with the token
  // its session has now.
  ghost predicate Current(t: Table, c: Client) {
    forall s | s in t.sockets && Speaks(t, s, c) ::
      c in t.sessions && t.sessions[c].agentToken == Some(t.sockets[s].value.jwt)
  }

  // All sockets of the client but the one in the gateway's map have this token.
  ghost predicate NoneMissed(t: Table, c: Client, jwt: Jwt) {
    forall s | s in t.sockets && Speaks(t, s, c) ::
      (c in t.sessions && c in t.agents && t.agents[c] == s) || t.sockets[s].value.jwt == jwt
  }

  // What a caller would have to look at before the call.
  ghost predicate SafeCall(t: Table, call: Call, c: Client) {
    match call
    case Provision(d, jwt, _, _) => d == c ==> NoneMissed(t, c, jwt)
    case Reissue(d, jwt, _, _) =>
      d == c && c in t.sessions && t.sessions[c].lastConnectedAt.None? ==> NoneMissed(t, c, jwt)
    case Teardown(d) => d == c ==> forall s | s in t.sockets :: !Speaks(t, s, c)
    case _ => true
  }

  lemma ProvisionIsSafeIff(t: Table, d: Client, jwt: Jwt, link: Link, hit: Option<Client>, now: nat, c: Client)
    requires Current(t, c)
    ensures Current(Provisioned(t, d, jwt, link, hit, now), c) <==> (d == c ==> NoneMissed(t, c, jwt))
  {
    var u := Provisioned(t, d, jwt, link, hit, now);
    DroppedKeepsRows(t, d, hit);
    var gone := if d in t.sessions && d in t.agents then {t.agents[d]} else {};
    assert u.sockets == t.sockets - gone;
    forall s | s in t.sockets
      ensures s !in gone ==> Speaks(u, s, c) == Speaks(t, s, c)
    {
    }
    if d == c && !NoneMissed(t, c, jwt) {
      var s :| s in t.sockets && Speaks(t, s, c)
               && !((c in t.sessions && c in t.agents && t.agents[c] == s) || t.sockets[s].value.jwt == jwt);
      assert s in u.sockets && Speaks(u, s, c);
    }
  }

  lemma BindingIsSafe(t: Table, u: Table, s: Socket, d: Client, jwt: Jwt, c: Client)
    requires Current(t, c) && u.sockets == t.sockets[s := Some(Binding(d, jwt))]
    requires d in t.sessions && t.sessions[d].agentToken == Some(jwt)
    requires forall x | x in t.sessions :: x in u.sessions && u.sessions[x].agentToken == t.sessions[x].agentToken
    ensures Current(u, c)
  {
    forall x | x in u.sockets && Speaks(u, x, c)
      ensures c in u.sessions && u.sessions[c].agentToken == Some(u.sockets[x].value.jwt)
    {
      if x != s {
        assert Speaks(t, x, c);
      }
    }
  }

  lemma RegisterIsSafe(t: Table, s: Socket, d: Client, jwt: Jwt, genuine: bool, storable: bool, hit: Option<Client>,
                       now: nat, c: Client)
    requires TableOk(t) && Current(t, c)
    ensures Current(Registered(t, s, d, jwt, genuine, storable, hit, now).0, c)
  {
    var u := Registered(t, s, d, jwt, genuine, storable, hit, now).0;
    if genuine && d in t.sessions && t.sessions[d].agentToken == Some(jwt) {
      BindingIsSafe(t, u, s, d, jwt, c);
    } else {
      HangupIsSafe(t, s, hit, c);
      SameSocketsSameTokens(Disconnected(t, s, hit), u, c);
    }
  }

  lemma CallIsSafeIff(t: Table, call: Call, now: nat, c: Client)
    requires TableOk(t) && Current(t, c)
    ensures Current(Made(t, call, now).0, c) <==> SafeCall(t, call, c)
  {
    match call
    case Provision(d, jwt, link, hit) => ProvisionIsSafeIff(t, d, jwt, link, hit, now, c);
    case Reissue(d, jwt, link, hit) => ProvisionIsSafeIff(t, d, jwt, link, hit, now, c);
    case Register(s, d, jwt, genuine, storable, hit) => RegisterIsSafe(t, s, d, jwt, genuine, storable, hit, now, c);
    case Teardown(d) => TeardownIsSafeIff(t, d, c);
    case Consent(k) => SameSocketsSameTokens(t, Made(t, call, now).0, c);
    case ShowPreview(_, _) =>
    case FetchConfig(_, _) => SameSocketsSameTokens(t, Made(t, call, now).0, c);
    case Accept(s) => AcceptIsSafe(t, s, c);
    case Hangup(s, hit) => HangupIsSafe(t, s, hit, c);
  }

  lemma SameSocketsSameTokens(t: Table, u: Table, c: Client)
    requires Current(t, c) && u.sockets == t.sockets
    requires c in t.sessions ==> c in u.sessions && u.sessions[c].agentToken == t.sessions[c].agentToken
    ensures Current(u, c)
  {
    forall s | s in u.sockets && Speaks(u, s, c)
      ensures c in u.sessions && u.sessions[c].agentToken == Some(u.sockets[s].value.jwt)
    {
      assert Speaks(t, s, c);
    }
  }

  lemma AcceptIsSafe(t: Table, s: Socket, c: Client)
    requires Current(t, c)
    ensures Current(t.(sockets := t.sockets[s := None]), c)
  {
    var u := t.(sockets := t.sockets[s := None]);
    forall x | x in u.sockets && Speaks(u, x, c)
      ensures c in u.sessions && u.sessions[c].agentToken == Some(u.sockets[x].value.jwt)
    {
      assert Speaks(t, x, c);
    }
  }

  lemma HangupIsSafe(t: Table, s: Socket, hit: Option<Client>, c: Client)
    requires Current(t, c)
    ensures Current(Disconnected(t, s, hit), c)
  {
    var u := Disconnected(t, s, hit);
    forall x | x in u.sockets && Speaks(u, x, c)
      ensures c in u.sessions && u.sessions[c].agentToken == Some(u.sockets[x].value.jwt)
    {
      assert Speaks(t, x, c);
    }
  }

  lemma TeardownIsSafeIff(t: Table, d: Client, c: Client)
    requires Current(t, c)
    ensures Current(TornDown(t, d), c) <==> (d == c ==> forall s | s in t.sockets :: !Speaks(t, s, c))
  {
    var u := TornDown(t, d);
    assert u.sockets == t.sockets;
    assert forall s | s in t.sockets :: Speaks(u, s, c) == Speaks(t, s, c);
  }

  ghost predicate AlwaysCurrent(es: seq<Event>, c: Client) {
    Current(After(es).table, c) && (es == [] || AlwaysCurrent(es[..|es| - 1], c))
  }

  ghost predicate SafeCalls(es: seq<Event>, c: Client) {
    es == [] || (SafeCalls(es[..|es| - 1], c) && SafeCall(After(es[..|es| - 1]).table, es[|es| - 1].call, c))
  }

  // All through a run no agent of a client stays connected on a token that was
  // rotated away, if and only if each rotation found no socket of the client
  // but the one in the gateway's map, or none with another token, and each
  // teardown found none at all.
  lemma {:induction false} ConnectedAgentsHoldTheCurrentToken(es: seq<Event>, c: Client)
    requires Possible(es)
    ensures AlwaysCurrent(es, c) <==> SafeCalls(es, c)
  {
    if es == [] {
    } else {
      var before := es[..|es| - 1];
      ConnectedAgentsHoldTheCurrentToken(before, c);
      RunsKeepInv(before);
      if AlwaysCurrent(before, c) {
        assert Current(After(before).table, c);
        CallIsSafeIff(After(before).table, es[|es| - 1].call, es[|es| - 1].at, c);
      }
    }
  }

  lemma RunOn(es: seq<Event>, call: Call) returns (longer: seq<Event>)
    requires Possible(es) && After(es).now == 0 && Enabled(After(es), Event(0, call))
    ensures longer == es + [Event(0, call)] && Possible(longer) && After(longer) == Step(After(es), Event(0, call))
  {
    longer := es + [Event(0, call)];
    assert longer[..|longer| - 1] == es;
  }

  const FRESH := Session(Some("first"), Some("k1"), Some(INSTALL_LINK_TTL_MS), None, None, None)
  const ENROLLED := FRESH.(installToken := None, expiresAt := None, lastConnectedAt := Some(0))

  lemma ReachIssued() returns (es: seq<Event>)
    ensures Possible(es)
    ensures After(es) == State(Table(map["c" := FRESH], map["k1" := "c"], map[], map[]), {"k1"}, {}, 0)
  {
    es := RunOn([], Provision("c", "first", "k1", None));
    assert After(es).table.sessions == map["c" := FRESH];
    assert After(es).table.links == map["k1" := "c"];
    assert After(es).issued == {"k1"};
  }

  // Client "c" has registered socket 1 with its first token.
  lemma ReachEnrolled() returns (es: seq<Event>)
    ensures Possible(es)
    ensures After(es) == State(Table(map["c" := ENROLLED], map[], map[1 := Some(Binding("c", "first"))], map["c" := 1]),
                               {"k1"}, {1}, 0)
  {
    es := ReachIssued();
    es := RunOn(es, Accept(1));
    assert After(es).table == Table(map["c" := FRESH], map["k1" := "c"], map[1 := None], map[]);
    es := RunOn(es, Register(1, "c", "first", true, true, None));
    assert After(es).table == Table(map["c" := ENROLLED], map[], map[1 := Some(Binding("c", "first"))], map["c" := 1]);
    assert After(es).issued == {"k1"} && After(es).seen == {1};
  }

  // A second registration replaces the first socket in the map only, so the
  // next rotation misses it.
  lemma RotationMissesReplacedSocket() returns (es: seq<Event>)
    ensures Possible(es) && !Current(After(es).table, "c")
    ensures es[|es| - 1].call.Provision?
  {
    var before := ReachEnrolled();
    before := RunOn(before, Accept(2));
    before := RunOn(before, Register(2, "c", "first", true, true, None));
    assert After(before).table.agents == map["c" := 2];
    es := RunOn(before, Provision("c", "second", "k2", Some("c")));
    assert Speaks(After(es).table, 1, "c");
    assert After(es).table.sessions["c"].agentToken == Some("second");
  }

  // After a teardown the next provision finds no session, and drops nobody.
  lemma TeardownLeavesTheAgentConnected() returns (es: seq<Event>)
    ensures Possible(es) && !Current(After(es).table, "c")
    ensures es[|es| - 1].call.Provision? && "c" in After(es).table.sessions
  {
    var before := ReachEnrolled();
    before := RunOn(before, Teardown("c"));
    es := RunOn(before, Provision("c", "second", "k2", None));
    assert Speaks(After(es).table, 1, "c");
    assert After(es).table.sessions["c"].agentToken == Some("second");
  }

  // An install token that leads nowhere any more never does again.
  lemma {:induction false} DeadLinksStayDead(es: seq<Event>, i: nat, k: Link)
    requires i <= |es| && Possible(es) && k in After(es[..i]).issued && k !in After(es[..i]).table.links
    ensures k in After(es).issued && k !in After(es).table.links
    decreases |es|
  {
    if i == |es| {
      assert es[..i] == es;
    } else {
      var before := es[..|es| - 1];
      assert before[..i] == es[..i];
      DeadLinksStayDead(before, i, k);
    }
  }

  ghost predicate Fetched(es: seq<Event>, i: nat, k: Link) {
    i < |es| && es[i].call.FetchConfig? && es[i].call.token == k && ReplyAt(es, i).Config?
  }

  predicate Uses(call: Call, k: Link) {
    (call.Consent? || call.ShowPreview? || call.FetchConfig?) && call.token == k
  }

  lemma DeadLinkAnswers404(es: seq<Event>, i: nat, j: nat, k: Link)
    requires Possible(es) && i <= j < |es| && Uses(es[j].call, k)
    requires k in After(es[..i]).issued && k !in After(es[..i]).table.links
    ensures ReplyAt(es, j) == NotFound
  {
    PrefixPossible(es, j);
    assert es[..j][..i] == es[..i];
    DeadLinksStayDead(es[..j], i, k);
  }

  lemma AfterNext(es: seq<Event>, i: nat)
    requires i < |es|
    ensures After(es[..i + 1]) == Step(After(es[..i]), es[i])
  {
    assert es[..i + 1][..i] == es[..i];
  }

  // The config comes once: from then on the link answers nothing but 404.
  lemma FetchedLinkIsGone(es: seq<Event>, i: nat, j: nat, k: Link)
    requires Possible(es) && i < j < |es| && Fetched(es, i, k) && Uses(es[j].call, k)
    ensures ReplyAt(es, j) == NotFound
  {
    PrefixPossible(es, i);
    RunsKeepInv(es[..i]);
    AfterNext(es, i);
    DeadLinkAnswers404(es, i + 1, j, k);
  }

  lemma OneConfigPerLink(es: seq<Event>, i: nat, j: nat, k: Link)
    requires Possible(es) && Fetched(es, i, k) && Fetched(es, j, k)
    ensures i == j
  {
    if i < j {
      FetchedLinkIsGone(es, i, j, k);
    } else if j < i {
      FetchedLinkIsGone(es, j, i, k);
    }
  }

  // Once an agent has registered, the link it came by is dead as well.
  lemma RegisterKillsTheLink(es: seq<Event>, i: nat, j: nat, k: Link)
    requires Possible(es) && i < j < |es|
    requires es[i].call.Register? && ReplyAt(es, i) == Done
    requires k in After(es[..i]).table.links && After(es[..i]).table.links[k] == es[i].call.client
    requires Uses(es[j].call, k)
    ensures ReplyAt(es, j) == NotFound
  {
    PrefixPossible(es, i);
    RunsKeepInv(es[..i]);
    AfterNext(es, i);
    DeadLinkAnswers404(es, i + 1, j, k);
  }

  // Call i recorded the consent of this client.
  ghost predicate ConsentAt(es: seq<Event>, i: nat, c: Client) {
    && i < |es| && es[i].call.Consent? && ReplyAt(es, i) == Done
    && var k := es[i].call.token;
       && k in After(es[..i]).table.links && After(es[..i]).table.links[k] == c
       && c in After(es[..i]).table.sessions && After(es[..i]).table.sessions[c].consentAt.None?
  }

  // A recorded consent has one origin, a consent call on a live link of the
  // same client, and bears its time.
  lemma {:induction false} ConsentHasAnOrigin(es: seq<Event>, c: Client) returns (i: nat)
    requires Possible(es) && c in After(es).table.sessions && After(es).table.sessions[c].consentAt.Some?
    ensures ConsentAt(es, i, c) && After(es).table.sessions[c].consentAt == Some(es[i].at)
    decreases |es|
  {
    var last := |es| - 1;
    var before := es[..last];
    RunsKeepInv(before);
    ConsentIsSetOnce(After(before).table, es[last].call, es[last].at, c);
    if c in After(before).table.sessions && After(before).table.sessions[c].consentAt.Some? {
      i := ConsentHasAnOrigin(before, c);
      assert before[..i] == es[..i];
    } else {
      i := last;
    }
  }

  // The consent recorded at i is the one recorded at j.
  ghost predicate SameConsent(es: seq<Event>, i: nat, j: nat, c: Client)
    requires i <= j <= |es|
  {
    && c in After(es[..i]).table.sessions && c in After(es[..j]).table.sessions
    && After(es[..j]).table.sessions[c].consentAt == After(es[..i]).table.sessions[c].consentAt
  }

  lemma ConsentThroughCall(es: seq<Event>, i: nat, j: nat, c: Client)
    requires i <= j < |es| && Possible(es) && SameConsent(es, i, j, c)
    requires After(es[..i]).table.sessions[c].consentAt.Some?
    ensures SameConsent(es, i, j + 1, c) <==> es[j].call != Teardown(c)
  {
    PrefixPossible(es, j);
    RunsKeepInv(es[..j]);
    assert es[..j + 1][..j] == es[..j];
    if es[j].call != Teardown(c) {
      ConsentStays(After(es[..j]).table, es[j].call, es[j].at, c);
    }
  }

  // A recorded consent time is kept up to j if and only if the session was not
  // torn down on the way; no other call changes it.
  lemma {:induction false} ConsentTimeNeverChanges(es: seq<Event>, i: nat, j: nat, c: Client)
    requires i <= j <= |es| && Possible(es)
    requires c in After(es[..i]).table.sessions && After(es[..i]).table.sessions[c].consentAt.Some?
    ensures (forall k: nat | i <= k <= j :: SameConsent(es, i, k, c)) <==>
            (forall k: nat | i <= k < j :: es[k].call != Teardown(c))
    decreases j
  {
    if i == j {
      assert SameConsent(es, i, i, c);
    } else {
      var last := j - 1;
      ConsentTimeNeverChanges(es, i, last, c);
      if forall k: nat | i <= k <= last :: SameConsent(es, i, k, c) {
        assert SameConsent(es, i, last, c);
        ConsentThroughCall(es, i, last, c);
      }
    }
  }

  // A consent is the client's, not the link's: once recorded, any link issued
  // later opens without being asked for it again.
  lemma ConsentOutlivesItsLink(es: seq<Event>, c: Client, jwt: Jwt, link: Link, hit: Option<Client>, at: nat)
    requires Possible(es) && Enabled(After(es), Event(at, Provision(c, jwt, link, hit)))
    ensures c in After(es).table.sessions && After(es).table.sessions[c].consentAt.Some? <==>
            Made(Made(After(es).table, Provision(c, jwt, link, hit), at).0, FetchConfig(link, false), at).1
            == Config(c, Some(jwt))
  {
    RunsKeepInv(es);
    ProvisionedIsOk(After(es).table, c, jwt, link, hit, at);
  }

  // Call i issued this link for this client.
  ghost predicate IssuedAt(es: seq<Event>, i: nat, k: Link, c: Client, jwt: Jwt) {
    && i < |es| && Issues(es[i].call) && ReplyAt(es, i) == Issued(k)
    && es[i].call.client == c && es[i].call.jwt == jwt
  }

  // A live link was issued with the session's current agent token, and
  // expires the term after that.
  lemma {:induction false} LinkHasAnOrigin(es: seq<Event>, k: Link) returns (i: nat)
    requires Possible(es) && k in After(es).table.links
    ensures var c := After(es).table.links[k];
            && c in After(es).table.sessions && After(es).table.sessions[c].agentToken.Some?
            && IssuedAt(es, i, k, c, After(es).table.sessions[c].agentToken.value)
            && After(es).table.sessions[c].expiresAt == Some(es[i].at + INSTALL_LINK_TTL_MS)
    decreases |es|
  {
    var last := |es| - 1;
    var before := es[..last];
    RunsKeepInv(before);
    var (call, at) := (es[last].call, es[last].at);
    LinksAreIssued(After(before).table, call, at, k);
    if !(Issues(call) && call.link == k && Made(After(before).table, call, at).1 == Issued(k)) {
      i := LinkHasAnOrigin(before, k);
      assert before[..i] == es[..i];
    } else {
      i := last;
    }
  }

  // Call j revealed what the link leads to: its config, or its preview.
  ghost predicate RevealedAt(es: seq<Event>, j: nat, k: Link, c: Client) {
    && j < |es|
    && match es[j].call
       case FetchConfig(token, _) => token == k && ReplyAt(es, j).Config? && ReplyAt(es, j).clientId == c
       case ShowPreview(token, _) => token == k && ReplyAt(es, j) == Preview(c)
       case _ => false
  }

  // Whatever is revealed: the link was issued to that client at most seven
  // days before, and the client's consent was recorded earlier.
  lemma RevealComesAfterConsent(es: seq<Event>, j: nat, k: Link, c: Client)
    returns (issue: nat, consent: nat, jwt: Jwt)
    requires Possible(es) && RevealedAt(es, j, k, c)
    ensures issue < j && consent < j
    ensures IssuedAt(es, issue, k, c, jwt) && es[j].at <= es[issue].at + 7 * 24 * 60 * 60 * 1000
    ensures ConsentAt(es, consent, c) && es[consent].at <= es[j].at
    ensures c in After(es[..j]).table.sessions && After(es[..j]).table.sessions[c].agentToken == Some(jwt)
  {
    PrefixPossible(es, j + 1);
    assert es[..j + 1][..j] == es[..j];
    RunsKeepInv(es[..j]);
    issue := LinkHasAnOrigin(es[..j], k);
    consent := ConsentHasAnOrigin(es[..j], After(es[..j]).table.links[k]);
    assert es[..j][..issue] == es[..issue];
    assert es[..j][..consent] == es[..consent];
    TimesGrow(es[..j], consent);
    jwt := es[issue].call.jwt;
  }

  lemma PreviewComesAfterConsent(es: seq<Event>, j: nat, c: Client) returns (issue: nat, consent: nat, jwt: Jwt)
    requires Possible(es) && j < |es| && es[j].call.ShowPreview? && ReplyAt(es, j) == Preview(c)
    ensures issue < j && consent < j
    ensures IssuedAt(es, issue, es[j].call.token, c, jwt)
    ensures es[j].at <= es[issue].at + 7 * 24 * 60 * 60 * 1000
    ensures ConsentAt(es, consent, c) && es[consent].at <= es[j].at
  {
    issue, consent, jwt := RevealComesAfterConsent(es, j, es[j].call.token, c);
  }

  // And a config reveals the very agent token issued with its link.
  lemma ConfigComesAfterConsent(es: seq<Event>, j: nat, k: Link) returns (issue: nat, consent: nat)
    requires Possible(es) && Fetched(es, j, k)
    ensures issue < j && consent < j
    ensures var Config(c, jwt) := ReplyAt(es, j);
            && jwt.Some? && IssuedAt(es, issue, k, c, jwt.value)
            && es[j].at <= es[issue].at + 7 * 24 * 60 * 60 * 1000
            && ConsentAt(es, consent, c) && es[consent].at <= es[j].at
  {
    var jwt;
    issue, consent, jwt := RevealComesAfterConsent(es, j, k, ReplyAt(es, j).clientId);
  }

  lemma {:induction false} TimesGrow(es: seq<Event>, i: nat)
    requires Possible(es) && i < |es|
    ensures es[i].at <= After(es).now
  {
    if i == |es| - 1 {
    } else {
      TimesGrow(es[..|es| - 1], i);
    }
  }

  // Call i registered the client's agent, and no teardown followed it.
  ghost predicate EnrolledBy(es: seq<Event>, i: nat, c: Client) {
    && i < |es| && es[i].call.Register? && es[i].call.client == c && ReplyAt(es, i) == Done
    && forall k | i < k < |es| :: es[k].call != Teardown(c)
  }

  lemma ConnectionsAreMade(t: Table, call: Call, now: nat, c: Client)
    requires c in t.sessions ==> t.sessions[c].lastConnectedAt.None?
    ensures var u := Made(t, call, now);
            c in u.0.sessions && u.0.sessions[c].lastConnectedAt.Some? <==>
            call.Register? && call.client == c && u.1 == Done
  {
    match call case _ => {}
  }

  lemma EnrolledByPrefix(es: seq<Event>, i: nat, c: Client)
    requires es != []
    ensures i < |es| - 1 ==>
              (EnrolledBy(es, i, c) <==> EnrolledBy(es[..|es| - 1], i, c) && es[|es| - 1].call != Teardown(c))
    ensures EnrolledBy(es, |es| - 1, c) <==>
              var e := es[|es| - 1];
              e.call.Register? && e.call.client == c && ReplyAt(es, |es| - 1) == Done
  {
    if i < |es| - 1 {
      assert es[..|es| - 1][..i] == es[..i];
    }
  }

  lemma EnrolledByLast(es: seq<Event>, c: Client)
    requires es != []
    ensures var (before, e) := (es[..|es| - 1], es[|es| - 1]);
            (exists i: nat :: EnrolledBy(es, i, c)) <==>
            || (e.call.Register? && e.call.client == c && ReplyAt(es, |es| - 1) == Done)
            || (e.call != Teardown(c) && exists i: nat :: EnrolledBy(before, i, c))
  {
    var last := |es| - 1;
    EnrolledByPrefix(es, last, c);
    if i: nat :| EnrolledBy(es, i, c) {
      EnrolledByPrefix(es, i, c);
    }
    if i: nat :| EnrolledBy(es[..last], i, c) {
      EnrolledByPrefix(es, i, c);
    }
  }

  // The session says that its agent has connected exactly when one of the
  // calls since the last teardown registered it.
  lemma {:induction false} ConnectionsAreRemembered(es: seq<Event>, c: Client)
    requires Possible(es)
    ensures c in After(es).table.sessions && After(es).table.sessions[c].lastConnectedAt.Some? <==>
            exists i: nat :: EnrolledBy(es, i, c)
  {
    if es == [] {
    } else {
      var (before, e) := (es[..|es| - 1], es[|es| - 1]);
      var t := After(before).table;
      ConnectionsAreRemembered(before, c);
      EnrolledByLast(es, c);
      if c in t.sessions && t.sessions[c].lastConnectedAt.Some? {
        if e.call != Teardown(c) {
          ConnectedBefore(t, e.call, e.at, c);
        }
      } else {
        ConnectionsAreMade(t, e.call, e.at, c);
      }
    }
  }

  // A new link is refused, and nothing changes, exactly when the agent has
  // registered since the session was last torn down.
  lemma ReissueSparesEnrolledAgents(es: seq<Event>, j: nat)
    requires Possible(es) && j < |es| && es[j].call.Reissue?
    ensures ReplyAt(es, j) == Enrolled <==> exists i: nat :: EnrolledBy(es[..j], i, es[j].call.client)
    ensures ReplyAt(es, j) == Enrolled ==> After(es[..j + 1]).table == After(es[..j]).table
  {
    PrefixPossible(es, j);
    ConnectionsAreRemembered(es[..j], es[j].call.client);
    assert es[..j + 1][..j] == es[..j];
  }

  // The run with every preview taken out.
  function WithoutPreviews(es: seq<Event>): seq<Event> {
    if es == [] then []
    else WithoutPreviews(es[..|es| - 1]) + if es[|es| - 1].call.ShowPreview? then [] else [es[|es| - 1]]
  }

  // Previews change nothing any later call could notice.
  lemma {:induction false} PreviewsLeaveNoTrace(es: seq<Event>)
    requires Possible(es)
    ensures Possible(WithoutPreviews(es))
    ensures After(WithoutPreviews(es)).table == After(es).table
    ensures After(WithoutPreviews(es)).issued == After(es).issued && After(WithoutPreviews(es)).seen == After(es).seen
    ensures After(WithoutPreviews(es)).now <= After(es).now
  {
    if es == [] {
    } else {
      var (before, e) := (es[..|es| - 1], es[|es| - 1]);
      PreviewsLeaveNoTrace(before);
      var kept := WithoutPreviews(before);
      if e.call.ShowPreview? {
        assert WithoutPreviews(es) == kept;
        assert After(es).table == After(before).table;
      } else {
        assert WithoutPreviews(es) == kept + [e];
        assert WithoutPreviews(es)[..|WithoutPreviews(es)| - 1] == kept;
      }
    }
  }
}
