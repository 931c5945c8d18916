// Live dashboard sockets by session, and how many each user has
// (backend/src/servers/servers.gateway.ts, backend/src/presence/presence.service.ts).
module Presence {
  import opened Prelude

  type Socket = nat
  type User = string
  type Sid = string

  // client.data.user of an authenticated socket. A missing sid is "".
  datatype Login = Login(sub: User, sid: Sid)

  function CountUp(online: map<User, nat>, u: User): map<User, nat> {
    online[u := (if u in online then online[u] else 0) + 1]
  }

  function CountDown(online: map<User, nat>, u: User): map<User, nat> {
    var current: int := if u in online then online[u] else 0;
    var count := current - 1;
    if count <= 0 then online - {u} else online[u := count]
  }

  function SocketsOf(user: map<Socket, Login>, among: set<Socket>, u: User): set<Socket> {
    set s | s in among && s in user && user[s].sub == u
  }

  function SocketsIn(user: map<Socket, Login>, among: set<Socket>, sid: Sid): set<Socket> {
    set s | s in among && s in user && user[s].sid == sid
  }

  // How many of these sockets each user has; users without any are absent.
  function Tally(user: map<Socket, Login>, among: set<Socket>): map<User, nat> {
    map u | u in (set s | s in among && s in user :: user[s].sub) :: |SocketsOf(user, among, u)|
  }

  lemma TallyAt(user: map<Socket, Login>, among: set<Socket>, u: User)
    ensures u in Tally(user, among) <==> SocketsOf(user, among, u) != {}
    ensures u in Tally(user, among) ==> Tally(user, among)[u] == |SocketsOf(user, among, u)| > 0
  {
    if u in Tally(user, among) {
      var s :| s in among && s in user && user[s].sub == u;
      assert s in SocketsOf(user, among, u);
    }
    if s :| s in SocketsOf(user, among, u) {
      assert user[s].sub in Tally(user, among);
      assert SocketsOf(user, among, u) - {s} + {s} == SocketsOf(user, among, u);
    }
  }

  // A table with the right entry for every user is the tally.
  lemma TallyIs(user: map<Socket, Login>, among: set<Socket>, table: map<User, nat>)
    requires forall u :: u in table <==> SocketsOf(user, among, u) != {}
    requires forall u | u in table :: table[u] == |SocketsOf(user, among, u)|
    ensures table == Tally(user, among)
  {
    forall u
      ensures u in table <==> u in Tally(user, among)
      ensures u in table ==> table[u] == Tally(user, among)[u]
    {
      TallyAt(user, among, u);
    }
  }

  lemma CountUpTallies(user: map<Socket, Login>, among: set<Socket>, s: Socket, login: Login)
    requires s !in user && s !in among
    ensures Tally(user[s := login], among + {s}) == CountUp(Tally(user, among), login.sub)
  {
    var (user', among') := (user[s := login], among + {s});
    var table := CountUp(Tally(user, among), login.sub);
    forall u
      ensures u in table <==> SocketsOf(user', among', u) != {}
      ensures u in table ==> table[u] == |SocketsOf(user', among', u)|
    {
      TallyAt(user, among, u);
      if u == login.sub {
        assert SocketsOf(user', among', u) == SocketsOf(user, among, u) + {s};
      } else {
        assert SocketsOf(user', among', u) == SocketsOf(user, among, u);
      }
    }
    TallyIs(user', among', table);
  }

  lemma CountDownTallies(user: map<Socket, Login>, among: set<Socket>, s: Socket)
    requires s in user && s in among
    ensures Tally(user, among - {s}) == CountDown(Tally(user, among), user[s].sub)
  {
    var table := CountDown(Tally(user, among), user[s].sub);
    forall u
      ensures u in table <==> SocketsOf(user, among - {s}, u) != {}
      ensures u in table ==> table[u] == |SocketsOf(user, among - {s}, u)|
    {
      TallyAt(user, among, u);
      if u == user[s].sub {
        assert s in SocketsOf(user, among, u);
        assert SocketsOf(user, among - {s}, u) == SocketsOf(user, among, u) - {s};
        assert |SocketsOf(user, among - {s}, u)| == 0 <==> SocketsOf(user, among - {s}, u) == {};
      } else {
        assert SocketsOf(user, among - {s}, u) == SocketsOf(user, among, u);
      }
    }
    TallyIs(user, among - {s}, table);
  }

  // These sockets grouped by session; a session without any is absent.
  function Grouped(user: map<Socket, Login>, among: set<Socket>): map<Sid, set<Socket>> {
    map sid | sid in (set s | s in among && s in user :: user[s].sid) :: SocketsIn(user, among, sid)
  }

  function AddedTo(index: map<Sid, set<Socket>>, sid: Sid, s: Socket): map<Sid, set<Socket>> {
    index[sid := (if sid in index then index[sid] else {}) + {s}]
  }

  function RemovedFrom(index: map<Sid, set<Socket>>, sid: Sid, s: Socket): map<Sid, set<Socket>> {
    if sid !in index then index
    else if index[sid] - {s} == {} then index - {sid}
    else index[sid := index[sid] - {s}]
  }

  lemma GroupedAt(user: map<Socket, Login>, among: set<Socket>, sid: Sid)
    ensures sid in Grouped(user, among) <==> SocketsIn(user, among, sid) != {}
    ensures sid in Grouped(user, among) ==> Grouped(user, among)[sid] == SocketsIn(user, among, sid)
  {
    if sid in Grouped(user, among) {
      var s :| s in among && s in user && user[s].sid == sid;
      assert s in SocketsIn(user, among, sid);
    }
    if s :| s in SocketsIn(user, among, sid) {
      assert user[s].sid in Grouped(user, among);
    }
  }

  lemma GroupedIs(user: map<Socket, Login>, among: set<Socket>, index: map<Sid, set<Socket>>)
    requires forall sid :: sid in index <==> SocketsIn(user, among, sid) != {}
    requires forall sid | sid in index :: index[sid] == SocketsIn(user, among, sid)
    ensures index == Grouped(user, among)
  {
    forall sid
      ensures sid in index <==> sid in Grouped(user, among)
      ensures sid in index ==> index[sid] == Grouped(user, among)[sid]
    {
      GroupedAt(user, among, sid);
    }
  }

  lemma AddGroups(user: map<Socket, Login>, among: set<Socket>, s: Socket, login: Login)
    requires s !in user && s !in among
    ensures Grouped(user[s := login], among) == Grouped(user, among)
    ensures Grouped(user[s := login], among + {s}) == AddedTo(Grouped(user, among), login.sid, s)
  {
    var user' := user[s := login];
    forall sid
      ensures SocketsIn(user', among, sid) == SocketsIn(user, among, sid)
      ensures SocketsIn(user', among + {s}, sid) == SocketsIn(user, among, sid) + if sid == login.sid then {s} else {}
    {
    }
    assert s in SocketsIn(user', among + {s}, login.sid);
    forall sid
      ensures sid in Grouped(user, among) <==> SocketsIn(user, among, sid) != {}
      ensures sid in Grouped(user, among) ==> Grouped(user, among)[sid] == SocketsIn(user, among, sid)
    {
      GroupedAt(user, among, sid);
    }
    GroupedIs(user', among, Grouped(user, among));
    GroupedIs(user', among + {s}, AddedTo(Grouped(user, among), login.sid, s));
  }

  lemma RemoveGroups(user: map<Socket, Login>, among: set<Socket>, s: Socket)
    requires s in user
    ensures Grouped(user, among - {s}) == RemovedFrom(Grouped(user, among), user[s].sid, s)
  {
    forall sid
      ensures SocketsIn(user, among - {s}, sid) == SocketsIn(user, among, sid) - if sid == user[s].sid then {s} else {}
    {
    }
    forall sid
      ensures sid in Grouped(user, among) <==> SocketsIn(user, among, sid) != {}
      ensures sid in Grouped(user, among) ==> Grouped(user, among)[sid] == SocketsIn(user, among, sid)
    {
      GroupedAt(user, among, sid);
    }
    GroupedIs(user, among - {s}, RemovedFrom(Grouped(user, among), user[s].sid, s));
  }

  lemma DropGroup(user: map<Socket, Login>, among: set<Socket>, sid: Sid)
    ensures Grouped(user, among - SocketsIn(user, among, sid)) == Grouped(user, among) - {sid}
  {
    var rest := among - SocketsIn(user, among, sid);
    forall x
      ensures SocketsIn(user, rest, x) == if x == sid then {} else SocketsIn(user, among, x)
    {
    }
    forall x
      ensures x in Grouped(user, rest) <==> x in Grouped(user, among) - {sid}
    {
      GroupedAt(user, among, x);
      GroupedAt(user, rest, x);
    }
  }

  // -------- what the two maps stand for --------

  // `counted` are the sockets presence has been told of and not told off,
  // `indexed` those listed under their session.
  datatype Hub = Hub(
    open: set<Socket>, user: map<Socket, Login>, counted: set<Socket>, indexed: set<Socket>)

  function Opened(h: Hub, s: Socket): Hub {
    h.(open := h.open + {s})
  }

  // handleConnection, once the session check has passed
  function Registered(h: Hub, s: Socket, login: Login): Hub {
    h.(user := h.user[s := login], counted := h.counted + {s},
       indexed := if login.sid != "" then h.indexed + {s} else h.indexed)
  }

  function Closed(h: Hub, s: Socket): Hub {
    if s !in h.open then h
    else h.(open := h.open - {s}, counted := h.counted - {s}, indexed := h.indexed - {s})
  }

  // disconnectSession: no socket of the session stays open or listed.
  function Revoked(h: Hub, sid: Sid): Hub {
    var gone := SocketsIn(h.user, h.indexed, sid);
    h.(open := h.open - gone, counted := h.counted - (gone * h.open), indexed := h.indexed - gone)
  }

  predicate HubOk(h: Hub) {
    && (forall s | s in h.counted :: s in h.user)
    && (forall s | s in h.indexed :: s in h.user && h.user[s].sid != "")
    && (forall s | s in h.open && s in h.user :: s in h.counted)
  }

  lemma RegisteredIsOk(h: Hub, s: Socket, login: Login)
    requires HubOk(h) && s !in h.user
    ensures HubOk(Registered(h, s, login))
  {
  }

  lemma LeftIsOk(h: Hub, s: Socket)
    requires HubOk(h) && s !in h.open
    ensures HubOk(h.(counted := h.counted - {s}, indexed := h.indexed - {s}))
  {
  }

  // -------- the services --------

  class PresenceService {
    var online: map<User, nat>

    constructor ()
      ensures online == map[]
    {
      online := map[];
    }

    method MarkOnline(userId: User)
      modifies this
      ensures online == CountUp(old(online), userId)
    {
      online := online[userId := (if userId in online then online[userId] else 0) + 1];
    }

    method MarkOffline(userId: User)
      modifies this
      ensures online == CountDown(old(online), userId)
    {
      var current: int := if userId in online then online[userId] else 0;
      var count := current - 1;
      if count <= 0 {
        online := online - {userId};
      } else {
        online := online[userId := count];
      }
    }

    method GetConnectedUserIds() returns (users: set<User>)
      ensures users == online.Keys
    {
      users := online.Keys;
    }
  }

  // A set of sockets the index and a running loop may share.
  class SocketSet {
    var members: set<Socket>

    constructor ()
      ensures members == {}
    {
      members := {};
    }
  }

  class ServersGateway {
    const presence: PresenceService
    var socketsBySession: map<Sid, SocketSet>
    var open: set<Socket>              // sockets the transport holds open
    var user: map<Socket, Login>       // client.data.user
    ghost var counted: set<Socket>
    ghost var indexed: set<Socket>

    ghost function View(): Hub
      reads this
    {
      Hub(open, user, counted, indexed)
    }

    ghost function Listed(): map<Sid, set<Socket>>
      reads this, socketsBySession.Values
    {
      map sid | sid in socketsBySession :: socketsBySession[sid].members
    }

    ghost predicate Separate()
      reads this
    {
      forall a, b | a in socketsBySession && b in socketsBySession && a != b ::
        socketsBySession[a] != socketsBySession[b]
    }

    ghost predicate Valid()
      reads this, presence, socketsBySession.Values
    {
      && HubOk(View()) && Separate()
      && Listed() == Grouped(user, indexed)
      && presence.online == Tally(user, counted)
    }

    constructor (presence: PresenceService)
      requires presence.online == map[]
      ensures Valid() && this.presence == presence && socketsBySession == map[]
      ensures View() == Hub({}, map[], {}, {})
    {
      this.presence := presence;
      socketsBySession, open, user, counted, indexed := map[], {}, map[], {}, {};
    }

    // The transport opens a socket; it is not authenticated yet.
    method Accept(client: Socket)
      requires Valid() && client !in user
      modifies this`open
      ensures Valid() && View() == Opened(old(View()), client)
      ensures open == old(open) + {client}
    {
      open := open + {client};
    }

    method AddToIndex(client: Socket, sid: Sid)
      requires Separate()
      modifies this`socketsBySession, socketsBySession.Values
      ensures Separate() && Listed() == AddedTo(old(Listed()), sid, client)
      ensures fresh(socketsBySession.Values - old(socketsBySession.Values))
    {
      var sockets;
      if sid in socketsBySession {
        sockets := socketsBySession[sid];
      } else {
        sockets := new SocketSet();
      }
      sockets.members := sockets.members + {client};
      socketsBySession := socketsBySession[sid := sockets];
    }

    method RemoveFromIndex(client: Socket, sid: Sid)
      requires Separate()
      modifies this`socketsBySession, socketsBySession.Values
      ensures Separate() && Listed() == RemovedFrom(old(Listed()), sid, client)
      ensures forall x | x in socketsBySession ::
                x in old(socketsBySession) && socketsBySession[x] == old(socketsBySession)[x]
    {
      if sid in socketsBySession {
        var sockets := socketsBySession[sid];
        sockets.members := sockets.members - {client};
        if sockets.members == {} {
          socketsBySession := socketsBySession - {sid};
        }
      }
    }

    method Enter(client: Socket, payload: Login)
      requires Separate()
      modifies this, presence, socketsBySession.Values
      ensures Separate() && View() == Registered(old(View()), client, payload)
      ensures Listed() == if payload.sid != "" then AddedTo(old(Listed()), payload.sid, client) else old(Listed())
      ensures presence.online == CountUp(old(presence.online), payload.sub)
      ensures fresh(socketsBySession.Values - old(socketsBySession.Values))
    {
      user, counted := user[client := payload], counted + {client};
      presence.MarkOnline(payload.sub);
      if payload.sid != "" {
        indexed := indexed + {client};
        assert Listed() == old(Listed()) && socketsBySession == old(socketsBySession);
        AddToIndex(client, payload.sid);
      }
    }

    // What the session check lets through becomes part of both maps.
    method Register(client: Socket, payload: Login)
      requires Valid() && client !in user
      modifies this, presence, socketsBySession.Values
      ensures Valid()
      ensures View() == Registered(old(View()), client, payload)
      ensures fresh(socketsBySession.Values - old(socketsBySession.Values))
      ensures user == old(user)[client := payload] && open == old(open)
      ensures payload.sub in presence.online
      ensures payload.sid != "" ==> payload.sid in socketsBySession
    {
      CountUpTallies(user, counted, client, payload);
      AddGroups(user, indexed, client, payload);
      RegisteredIsOk(View(), client, payload);
      Enter(client, payload);
      assert payload.sid != "" ==> payload.sid in Listed();
    }

    method Leave(client: Socket)
      requires Separate() && client in user
      modifies this`socketsBySession, this`counted, this`indexed, presence, socketsBySession.Values
      ensures Separate()
      ensures View() == old(View()).(counted := old(counted) - {client}, indexed := old(indexed) - {client})
      ensures Listed() == RemovedFrom(old(Listed()), user[client].sid, client)
      ensures presence.online == CountDown(old(presence.online), user[client].sub)
      ensures forall sid | sid in socketsBySession ::
                sid in old(socketsBySession) && socketsBySession[sid] == old(socketsBySession)[sid]
    {
      counted, indexed := counted - {client}, indexed - {client};
      presence.MarkOffline(user[client].sub);
      assert Listed() == old(Listed());
      RemoveFromIndex(client, user[client].sid);
    }

    method HandleDisconnect(client: Socket)
      requires Valid() && client !in open && (client in user ==> client in counted)
      modifies this`socketsBySession, this`counted, this`indexed, presence, socketsBySession.Values
      ensures Valid()
      ensures View() == old(View()).(counted := old(counted) - {client}, indexed := old(indexed) - {client})
      ensures forall sid | sid in socketsBySession ::
                sid in old(socketsBySession) && socketsBySession[sid] == old(socketsBySession)[sid]
    {
      LeftIsOk(View(), client);
      if client in user {
        CountDownTallies(user, counted, client);
        RemoveGroups(user, indexed, client);
        Leave(client);
      } else {
        assert counted - {client} == counted && indexed - {client} == indexed;
      }
    }

    // The transport closes a socket once, and tells the gateway.
    method Disconnect(client: Socket)
      requires Valid()
      modifies this`open, this`socketsBySession, this`counted, this`indexed, presence, socketsBySession.Values
      ensures Valid() && View() == Closed(old(View()), client)
      ensures forall sid | sid in socketsBySession ::
                sid in old(socketsBySession) && socketsBySession[sid] == old(socketsBySession)[sid]
    {
      if client in open {
        open := open - {client};
        HandleDisconnect(client);
      }
    }

    method TakeEntry(sessionId: Sid) returns (sockets: SocketSet)
      requires Valid() && sessionId in socketsBySession
      modifies this`socketsBySession, this`indexed
      ensures Valid() && sockets == old(socketsBySession)[sessionId]
      ensures socketsBySession == old(socketsBySession) - {sessionId} && sockets !in socketsBySession.Values
      ensures sockets.members == SocketsIn(user, old(indexed), sessionId)
      ensures indexed == old(indexed) - sockets.members
    {
      GroupedAt(user, indexed, sessionId);
      DropGroup(user, indexed, sessionId);
      sockets := socketsBySession[sessionId];
      assert Listed()[sessionId] == sockets.members;
      socketsBySession := socketsBySession - {sessionId};
      indexed := indexed - sockets.members;
      assert Listed() == old(Listed()) - {sessionId};
    }

    // The entry goes first, so the loop's set stays whole while every close
    // re-enters HandleDisconnect.
    method DisconnectSession(sessionId: Sid) returns (closed: set<Socket>)
      requires Valid()
      modifies this, presence, socketsBySession.Values
      ensures Valid() && View() == Revoked(old(View()), sessionId)
      ensures closed == SocketsIn(old(user), old(indexed), sessionId)
      ensures open == old(open) - closed && user == old(user)
      ensures sessionId !in socketsBySession
    {
      closed := {};
      ghost var was := View();
      if sessionId !in socketsBySession {
        GroupedAt(user, indexed, sessionId);
        assert sessionId !in Listed();
        assert was == Revoked(was, sessionId);
        return;
      }
      var sockets := TakeEntry(sessionId);
      ghost var gone := sockets.members;
      while closed != sockets.members
        invariant Valid() && sockets.members == gone && closed <= gone
        invariant sockets !in socketsBySession.Values && socketsBySession.Values <= old(socketsBySession.Values)
        invariant sessionId !in socketsBySession
        invariant user == was.user && indexed == was.indexed - gone
        invariant open == was.open - closed && counted == was.counted - (closed * was.open)
        decreases gone - closed
      {
        SomethingLeft(closed, sockets.members);
        var socket :| socket in sockets.members - closed;
        Disconnect(socket);
        closed := closed + {socket};
      }
    }
  }

  // -------- runs --------

  // A handshake may still be running when its socket closes; nothing stops
  // it from registering the closed socket.
  datatype Event = Open(s: Socket) | Register(s: Socket, login: Login) | Close(s: Socket) | Revoke(sid: Sid)

  const Start := Hub({}, map[], {}, {})

  function Step(h: Hub, e: Event): Hub {
    match e
    case Open(s) => Opened(h, s)
    case Register(s, login) => Registered(h, s, login)
    case Close(s) => Closed(h, s)
    case Revoke(sid) => Revoked(h, sid)
  }

  // Sockets are used once, and one handshake runs per socket.
  predicate Possible(es: seq<Event>) {
    && (forall i, j | 0 <= i < j < |es| && es[i].Open? && es[j].Open? :: es[i].s != es[j].s)
    && (forall i, j | 0 <= i < j < |es| && es[i].Register? && es[j].Register? :: es[i].s != es[j].s)
    && (forall i, j | 0 <= i < j < |es| && es[i].Register? && es[j].Open? :: es[i].s != es[j].s)
  }

  function After(es: seq<Event>): Hub {
    if es == [] then Start else Step(After(es[..|es| - 1]), es[|es| - 1])
  }

  // Every handshake that registered did so while its socket was open.
  ghost predicate HandshakesFirst(es: seq<Event>) {
    forall i | 0 <= i < |es| && es[i].Register? :: es[i].s in After(es[..i]).open
  }

  function Live(h: Hub): set<Socket> {
    set s | s in h.open && s in h.user
  }

  lemma {:induction false} UsersAreRegistered(es: seq<Event>, s: Socket) returns (i: nat)
    requires s in After(es).user
    ensures i < |es| && es[i].Register? && es[i].s == s && es[i].login == After(es).user[s]
  {
    var last := |es| - 1;
    if es[last].Register? && es[last].s == s {
      i := last;
    } else {
      i := UsersAreRegistered(es[..last], s);
    }
  }

  lemma PrefixPossible(es: seq<Event>)
    requires Possible(es) && es != []
    ensures Possible(es[..|es| - 1])
  {
  }

  lemma LastIsNew(es: seq<Event>)
    requires Possible(es) && es != []
    ensures var e := es[|es| - 1];
            e.Open? || e.Register? ==> e.s !in After(es[..|es| - 1]).user
  {
    var e := es[|es| - 1];
    if e.Open? || e.Register? {
      if e.s in After(es[..|es| - 1]).user {
        var i := UsersAreRegistered(es[..|es| - 1], e.s);
        assert false;
      }
    }
  }

  // In every run: open authenticated sockets are counted, and listed under
  // their session.
  lemma {:induction false} RunsKeepHub(es: seq<Event>)
    requires Possible(es)
    ensures HubOk(After(es))
    ensures forall s | s in Live(After(es)) && After(es).user[s].sid != "" :: s in After(es).indexed
  {
    if es == [] {
    } else {
      RunsKeepHub(es[..|es| - 1]);
      LastIsNew(es);
    }
  }

  // A revocation leaves no registered socket of the session open, in any run.
  lemma RevokeClosesEverySocket(es: seq<Event>, sid: Sid)
    requires Possible(es) && sid != ""
    ensures SocketsIn(After(es).user, Live(Revoked(After(es), sid)), sid) == {}
    ensures SocketsIn(After(es).user, Revoked(After(es), sid).indexed, sid) == {}
    ensures forall s | s in Live(After(es)) && After(es).user[s].sid != sid :: s in Live(Revoked(After(es), sid))
  {
    RunsKeepHub(es);
  }

  ghost predicate Leaked(h: Hub) {
    exists s | s in h.counted :: s !in h.open
  }

  // A socket counted while closed stays counted for good: it is never told off.
  lemma LeaksStay(h: Hub, e: Event)
    requires HubOk(h) && Leaked(h)
    requires e.Open? || e.Register? ==> e.s !in h.user
    ensures Leaked(Step(h, e))
  {
    var s :| s in h.counted && s !in h.open;
    assert s in Step(h, e).counted && s !in Step(h, e).open;
  }

  lemma {:induction false} LeaksAreLateHandshakes(es: seq<Event>)
    requires Possible(es)
    ensures Leaked(After(es)) <==> !HandshakesFirst(es)
  {
    if es == [] {
    } else {
      var last := |es| - 1;
      var (before, e) := (es[..last], es[last]);
      LeaksAreLateHandshakes(before);
      RunsKeepHub(before);
      LastIsNew(es);
      assert forall i | 0 <= i < last :: before[..i] == es[..i];
      assert HandshakesFirst(es) <==> HandshakesFirst(before) && (e.Register? ==> e.s in After(before).open);
      if Leaked(After(before)) {
        LeaksStay(After(before), e);
      } else if e.Register? && e.s !in After(before).open {
        assert e.s in After(es).counted && e.s !in After(es).open;
      }
    }
  }

  // The count of each user is the number of that user's live sockets, for all
  // users at all times, exactly when no handshake outlives its socket.
  lemma PresenceIsExactIff(es: seq<Event>)
    requires Possible(es)
    ensures Tally(After(es).user, After(es).counted) == Tally(After(es).user, Live(After(es))) <==> HandshakesFirst(es)
  {
    CountedIsLiveIff(es);
    RunsKeepHub(es);
    var h := After(es);
    if s :| s in h.counted && s !in Live(h) {
      SmallerTally(h.user, Live(h), h.counted, s);
    }
  }

  lemma CountedIsLiveIff(es: seq<Event>)
    requires Possible(es)
    ensures Live(After(es)) <= After(es).counted
    ensures After(es).counted == Live(After(es)) <==> HandshakesFirst(es)
  {
    RunsKeepHub(es);
    LeaksAreLateHandshakes(es);
    var h := After(es);
    if Leaked(h) {
      var s :| s in h.counted && s !in h.open;
      assert s !in Live(h);
    } else {
      assert h.counted == Live(h);
    }
  }

  lemma SmallerTally(user: map<Socket, Login>, a: set<Socket>, b: set<Socket>, s: Socket)
    requires a <= b && s in b && s !in a && s in user
    ensures Tally(user, a) != Tally(user, b)
  {
    var u := user[s].sub;
    assert s in SocketsOf(user, b, u);
    SmallerSet(SocketsOf(user, a, u), SocketsOf(user, b, u));
    TallyAt(user, a, u);
    TallyAt(user, b, u);
  }

  lemma SomethingLeft(a: set<Socket>, b: set<Socket>)
    requires a < b
    ensures exists s :: s in b - a
  {
    var s :| s in b && s !in a;
    assert s in b - a;
  }

  lemma SmallerSet(a: set<Socket>, b: set<Socket>)
    requires a < b
    ensures |a| < |b|
  {
    assert b == a + (b - a);
    assert b - a != {};
  }

  // Then the online users are those with a live socket, and the index lists
  // the live sockets with a session and no others.
  lemma ExactMeans(es: seq<Event>, u: User)
    requires Possible(es) && HandshakesFirst(es)
    ensures u in Tally(After(es).user, After(es).counted) <==>
            exists s | s in Live(After(es)) :: After(es).user[s].sub == u
    ensures After(es).indexed == set s | s in Live(After(es)) && After(es).user[s].sid != ""
  {
    CountedIsLiveIff(es);
    RunsKeepHub(es);
    IndexedAreCounted(es);
    TallyAt(After(es).user, After(es).counted, u);
    var h := After(es);
    if s :| s in SocketsOf(h.user, h.counted, u) {
      assert s in Live(h) && h.user[s].sub == u;
    }
    if s :| s in Live(h) && h.user[s].sub == u {
      assert s in SocketsOf(h.user, h.counted, u);
    }
  }

  lemma {:induction false} IndexedAreCounted(es: seq<Event>)
    requires Possible(es)
    ensures After(es).indexed <= After(es).counted
  {
    if es == [] {
    } else {
      IndexedAreCounted(es[..|es| - 1]);
      RunsKeepHub(es[..|es| - 1]);
    }
  }

  lemma ClosedAtOnce()
    ensures After([Open(1), Close(1)]) == Start
  {
    assert [Open(1), Close(1)][..1] == [Open(1)] && [Open(1)][..0] == [];
    assert After([Open(1)]) == Opened(Start, 1);
    assert Closed(Opened(Start, 1), 1) == Start;
  }

  // Such a run: the socket closes before its handshake has finished, is
  // registered all the same, and its user stays online.
  lemma LateHandshakeLeaks() returns (es: seq<Event>)
    ensures Possible(es) && !HandshakesFirst(es)
    ensures Live(After(es)) == {} && "ann" in Tally(After(es).user, After(es).counted)
  {
    var login := Login("ann", "s");
    es := [Open(1), Close(1), Register(1, login)];
    assert es[..2] == [Open(1), Close(1)];
    ClosedAtOnce();
    assert After(es) == Registered(After(es[..2]), 1, login);
    assert 1 in SocketsOf(After(es).user, After(es).counted, "ann");
    TallyAt(After(es).user, After(es).counted, "ann");
    assert es[2].Register? && es[2].s !in After(es[..2]).open;
  }
}
