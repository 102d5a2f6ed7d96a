// The server and its clients together: every client has a mesh, an uplink the
// server reads in order, and a downlink the server writes in order. Clients come
// and go, reconnect, and may use each other's ids; queues may overflow, writers
// may die and library calls may fail.

module Network {
  import opened Wire
  import opened Rooms
  import opened RoomsProofs
  import opened Client
  import opened Links
  import M = Mesh

  /** A client on one socket: the room it wants to be in, its mesh with the uplink
      the server has not read yet, how much of its downlink it has handled, the
      base of each link, whether it still uses the socket, and the peers its link
      to which a failing library call has harmed. */
  datatype Peer = Peer(id: Identity, name: string, mesh: M.MeshState, seen: nat, base: map<UserId, nat>,
                       on: bool, ill: set<UserId>)

  datatype Net = Net(server: Server, peers: map<SockId, Peer>)

  const EMPTY_NET: Net := Net(INITIAL, map[])

  datatype NetEvent =
    | Open(s: SockId, id: Identity, name: string)
    | Reopen(s: SockId, before: SockId)
    | Serve(s: SockId, authOk: bool, roster: seq<PeerInfo>)
    | Finish(s: SockId, turn: Option<string>)
    | Take(s: SockId)
    | Quit(s: SockId)
    | Break(s: SockId)
    | Deliver(s: SockId, order: seq<UserId>, libs: map<UserId, M.Lib>)
    | Say(s: SockId, m: ClientMsg, at: nat)

  function JoinOf(id: Identity, name: string): ClientMsg {
    ClientMsg.Join(id.room, id.user, name, None)
  }

  function NewPeer(id: Identity, name: string): Peer {
    Peer(id, name, M.NewMesh(id.user).(out := [JoinOf(id, name)]), 0, map[], true, {})
  }

  /** A client that reconnects keeps its mesh and joins anew. */
  function Reconnected(p: Peer): Peer {
    p.(mesh := p.mesh.(out := [JoinOf(p.id, p.name)]), seen := 0, on := true)
  }

  ghost predicate Possible(net: Net, e: NetEvent) {
    match e
    case Open(s, _, _) => s !in net.peers && s !in net.server.socks
    case Reopen(s, before) => s !in net.peers && s !in net.server.socks && before in net.peers && net.peers[before].on
    case Serve(s, authOk, roster) =>
      && s in net.peers && net.peers[s].mesh.out != []
      && Enabled(net.server, Text(s, net.peers[s].mesh.out[0], authOk, roster))
    case Finish(s, turn) => Enabled(net.server, FinishJoin(s, turn))
    case Take(s) => Enabled(net.server, Drain(s))
    case Quit(s) => Enabled(net.server, Hangup(s))
    case Break(s) => Enabled(net.server, WriterDies(s))
    case Deliver(s, order, libs) =>
      && s in net.peers && s in net.server.socks && net.peers[s].on
      && net.peers[s].seen < net.server.socks[s].taken <= |net.server.socks[s].log|
      && (forall x :: x in order <==> x in net.peers[s].mesh.peers)
      && (forall i, j :: 0 <= i < j < |order| ==> order[i] != order[j])
    case Say(s, m, at) =>
      && s in net.peers && net.peers[s].on && (m.Ptt? || m.Rekey? || m.Ice?)
      && at <= |net.peers[s].mesh.out| && (at == 0 && net.peers[s].mesh.out != [] ==> !net.peers[s].mesh.out[0].Join?)
  }

  /** Commands go straight to the connection, so they can overtake what the mesh
      has sent: `at` says how much of it they do not. */
  function Inserted(ms: seq<ClientMsg>, m: ClientMsg, at: nat): seq<ClientMsg>
    requires at <= |ms|
  {
    ms[..at] + [m] + ms[at..]
  }

  /** The peers whose links a message with these library outcomes harms. */
  function Harmed(msg: ServerMsg, order: seq<UserId>, libs: map<UserId, M.Lib>): set<UserId> {
    set x | x in libs.Keys + (set y | y in order) && !Spares(msg, order, libs, x)
  }

  /** One client's links, with its side of the conversation so far. */
  function LocalOf(net: Net, s: SockId): Local
    requires s in net.peers && s in net.server.socks
  {
    LocalOn(net.peers[s], net.server.socks[s])
  }

  function LocalOn(p: Peer, k: Sock): Local {
    Local(p.mesh, k.submitted, if p.seen <= |k.log| then k.log[..p.seen] else k.log, p.base)
  }

  /** The events that are steps of the server on a socket it has. */
  predicate ServerSide(e: NetEvent) {
    e.Serve? || e.Finish? || e.Take? || e.Quit? || e.Break?
  }

  function ServerEvent(net: Net, e: NetEvent): Event
    requires ServerSide(e) && (e.Serve? ==> e.s in net.peers && net.peers[e.s].mesh.out != [])
  {
    match e
    case Serve(s, authOk, roster) => Text(s, net.peers[s].mesh.out[0], authOk, roster)
    case Finish(s, turn) => FinishJoin(s, turn)
    case Take(s) => Drain(s)
    case Quit(s) => Hangup(s)
    case Break(s) => WriterDies(s)
  }

  ghost function NetStep(net: Net, e: NetEvent): Net {
    if !Possible(net, e) then net
    else
      match e
      case Open(s, id, name) => Net(Step(net.server, Connect(s)), net.peers[s := NewPeer(id, name)])
      case Reopen(s, before) =>
        var p := net.peers[before];
        Net(Step(net.server, Connect(s)), net.peers[before := p.(on := false)][s := Reconnected(p)])
      case Deliver(s, order, libs) =>
        var p := net.peers[s];
        var l := Absorb(LocalOf(net, s), net.server.socks[s].log[p.seen], order, libs);
        net.(peers := net.peers[s := p.(mesh := l.mesh, seen := p.seen + 1, base := l.base,
                                        ill := p.ill + Harmed(net.server.socks[s].log[p.seen], order, libs))])
      case Say(s, m, at) =>
        var p := net.peers[s];
        net.(peers := net.peers[s := p.(mesh := p.mesh.(out := Inserted(p.mesh.out, m, at)))])
      case _ => Net(Step(net.server, ServerEvent(net, e)), map t | t in net.peers :: ServerPeer(net, e, t))
  }

  /** A frame the server reads leaves the uplink. */
  function ServerPeer(net: Net, e: NetEvent, t: SockId): Peer
    requires t in net.peers
  {
    var p := net.peers[t];
    if e.Serve? && t == e.s && p.mesh.out != [] then p.(mesh := p.mesh.(out := p.mesh.out[1..])) else p
  }

  ghost function NetRun(es: seq<NetEvent>): Net {
    if es == [] then EMPTY_NET else NetStep(NetRun(es[..|es| - 1]), es[|es| - 1])
  }

  // ----- what every state satisfies

  /** Uplink messages after the Join: no Join and no Leave. */
  predicate Polite(m: ClientMsg) {
    !m.Join? && !m.Leave?
  }

  predicate AllPolite(ms: seq<ClientMsg>) {
    forall i :: 0 <= i < |ms| ==> Polite(ms[i])
  }

  /** Nothing the server would find too long, but for what goes to `ill`. */
  predicate Short(m: ClientMsg, ill: set<UserId>) {
    m.Offer? || m.Answer? ==> m.to in ill || m.sdp.len <= MAX_SDP
  }

  predicate AllShort(ms: seq<ClientMsg>, ill: set<UserId>) {
    forall i :: 0 <= i < |ms| ==> Short(ms[i], ill)
  }

  /** Nothing too long for `x`. */
  predicate ShortTo(m: ClientMsg, x: UserId) {
    (m.Offer? || m.Answer?) && m.to == x ==> m.sdp.len <= MAX_SDP
  }

  predicate AllShortTo(ms: seq<ClientMsg>, x: UserId) {
    forall i :: 0 <= i < |ms| ==> ShortTo(ms[i], x)
  }

  predicate PeerShape(net: Net, s: SockId)
    requires s in net.peers && s in net.server.socks
  {
    var p, k := net.peers[s], net.server.socks[s];
    && p.mesh.me == p.id.user
    && p.seen <= k.taken <= |k.log|
    && (k.phase.Who().Some? ==> k.phase.Who() == Some(p.id))
    && AllShort(p.mesh.out, p.ill) && AllShort(k.submitted, p.ill)
    && (if k.phase == Reading(None) then
          && k.submitted == [] && p.mesh.out != []
          && p.mesh.out[0] == JoinOf(p.id, p.name)
          && AllPolite(p.mesh.out[1..])
        else k.phase.Done? || AllPolite(p.mesh.out))
  }

  /** A socket that has joined and not ended. */
  predicate Active(k: Sock) {
    k.phase.Who().Some? && !k.phase.Done?
  }

  predicate Joined(net: Net, s: SockId) {
    s in net.server.socks && Active(net.server.socks[s])
  }

  predicate Claims(st: Server, t: SockId, id: Identity) {
    t in st.socks && st.socks[t].phase.Who() == Some(id)
  }

  /** Some socket has joined under the identity. */
  ghost predicate Used(st: Server, id: Identity) {
    exists t :: Claims(st, t, id)
  }

  /** A socket that joined under the identity has ended. */
  ghost predicate Gone(st: Server, id: Identity) {
    exists t :: Claims(st, t, id) && st.socks[t].phase.Done?
  }

  /** No two sockets have ever joined under the identity. */
  ghost predicate Sole(st: Server, id: Identity) {
    forall t, u :: Claims(st, t, id) && Claims(st, u, id) ==> t == u
  }

  /** The socket has not ended, has lost nothing, and is alone under its id. */
  ghost predicate Fit(st: Server, t: SockId)
    requires t in st.socks
  {
    var k := st.socks[t];
    !k.phase.Done? && k.lost == 0 && (k.phase.Who().Some? ==> Sole(st, k.phase.Who().value))
  }

  /** No two clients have ever used the identity, and the one that does has been
      sent everything it was meant to get. */
  ghost predicate Clean(net: Net, id: Identity) {
    && (forall t :: t in net.peers && net.peers[t].id == id ==> Sound(net, t))
    && (forall t, u :: t in net.peers && u in net.peers && net.peers[t].id == id && net.peers[u].id == id ==> t == u)
  }

  predicate Sound(net: Net, t: SockId) {
    t in net.peers && t in net.server.socks && net.server.socks[t].lost == 0
  }

  /** No library call has harmed a link to `x` of whoever uses the identity. */
  ghost predicate WellTo(net: Net, id: Identity, x: UserId) {
    forall t :: t in net.peers && net.peers[t].id == id ==> x !in net.peers[t].ill
  }

  /** Both ends of a pair of ids are clean, and well to each other. */
  ghost predicate CleanIds(net: Net, room: RoomId, u: UserId, x: UserId) {
    && Clean(net, Identity(room, u)) && Clean(net, Identity(room, x))
    && WellTo(net, Identity(room, u), x) && WellTo(net, Identity(room, x), u)
  }

  ghost predicate Shape(net: Net) {
    && net.peers.Keys == net.server.socks.Keys
    && (forall s :: s in net.peers ==> PeerShape(net, s))
    && (forall s :: s in net.peers && Joined(net, s) && Sole(net.server, net.peers[s].id) ==> HasHandle(net, s))
    && (forall room, u :: Registered(net.server, room, u) ==> LenOk(u, MAX_ID))
  }

  /** A joined client is the registered member of its id. */
  predicate HasHandle(net: Net, s: SockId)
    requires s in net.peers
  {
    var id := net.peers[s].id;
    Registered(net.server, id.room, id.user) && HandleSock(net.server, id.room, id.user) == s
  }

  // ----- who knows whom

  /** The message names `x` as somebody to connect to. */
  predicate Introduces(m: ServerMsg, x: UserId) {
    match m
    case Roster(peers) => exists i :: 0 <= i < |peers| && peers[i].userId == x
    case PeerJoined(u, _) => u == x
    case Offer(from, _) => from == x
    case Answer(from, _) => from == x
    case _ => false
  }

  ghost predicate KnownMsg(st: Server, who: Option<Identity>, m: ServerMsg) {
    forall x :: Introduces(m, x) ==> who.Some? && Used(st, Identity(who.value.room, x))
  }

  /** A socket is only told of ids that have joined its room. */
  ghost predicate SockKnown(st: Server, s: SockId)
    requires s in st.socks
  {
    var k := st.socks[s];
    && (forall i :: 0 <= i < |k.log| ==> KnownMsg(st, k.phase.Who(), k.log[i]))
    && (k.phase.Joining? ==> KnownMsg(st, k.phase.Who(), Roster(k.phase.roster)))
  }

  /** What the message is for, if it is an offer or an answer, has joined. */
  ghost predicate KnownTarget(st: Server, room: RoomId, m: ClientMsg) {
    m.Offer? || m.Answer? ==> Used(st, Identity(room, m.to))
  }

  /** A client has entries for, and signals to, ids that have joined its room only. */
  ghost predicate PeerKnown(net: Net, s: SockId)
    requires s in net.peers && s in net.server.socks
  {
    var p, k := net.peers[s], net.server.socks[s];
    && (forall x :: x in p.mesh.peers ==> Used(net.server, Identity(p.id.room, x)))
    && (forall i :: 0 <= i < |p.mesh.out| ==> KnownTarget(net.server, p.id.room, p.mesh.out[i]))
    && (forall i :: 0 <= i < |k.submitted| ==> KnownTarget(net.server, p.id.room, k.submitted[i]))
  }

  ghost predicate ServerKnown(st: Server) {
    forall s :: s in st.socks ==> SockKnown(st, s)
  }

  ghost predicate KnownOk(net: Net) {
    ServerKnown(net.server) && forall s :: s in net.peers && s in net.server.socks ==> PeerKnown(net, s)
  }

  // ----- who is told of whom

  /** How often the client of `k` is, or is about to be, told of `x`. */
  function Told(k: Sock, x: UserId): nat {
    Mentions(k.log, x) + (if k.phase.Joining? then Listed(k.phase.roster, x) else 0)
  }

  predicate Roommate(st: Server, who: Option<Identity>, x: UserId) {
    who.Some? && Registered(st, who.value.room, x) && x != who.value.user
  }

  /** `t` is fit, and `x` is alone under its id in the room of `t`. */
  ghost predicate Hears(st: Server, t: SockId, x: UserId)
    requires t in st.socks
  {
    var who := st.socks[t].phase.Who();
    Fit(st, t) && (who.Some? ==> Sole(st, Identity(who.value.room, x)))
  }

  /** A member is told of each roommate exactly once, and of nobody twice. */
  ghost predicate ToldOnce(st: Server, t: SockId, x: UserId)
    requires t in st.socks
  {
    var k, who := st.socks[t], st.socks[t].phase.Who();
    Hears(st, t, x) ==>
      Told(k, x) <= 1 && (Roommate(st, who, x) ==> Told(k, x) == 1) && (Told(k, x) > 0 ==> who.Some?)
  }

  /** Whoever a socket was told has left is gone. */
  ghost predicate LeftOk(st: Server, s: SockId)
    requires s in st.socks
  {
    var k := st.socks[s];
    forall i :: 0 <= i < |k.log| && k.log[i].PeerLeft? ==>
      k.phase.Who().Some? && Gone(st, Identity(k.phase.Who().value.room, k.log[i].userId))
  }

  ghost predicate MentionsOk(st: Server) {
    && (forall s, x :: s in st.socks ==> ToldOnce(st, s, x))
    && (forall s :: s in st.socks ==> LeftOk(st, s))
  }

  // ----- what is relayed

  /** What `x` has sent to the member `who`, as far as the server has read it. */
  function SentBy(st: Server, who: Option<Identity>, k: Signal, x: UserId): seq<Sdp> {
    if who.Some? && Registered(st, who.value.room, x) && HandleSock(st, who.value.room, x) in st.socks
    then AllTo(k, st.socks[HandleSock(st, who.value.room, x)].submitted, who.value.user) else []
  }

  /** Whoever joined under the identity has sent nothing too long to `to`. */
  ghost predicate Brief(st: Server, id: Identity, to: UserId) {
    forall t :: Claims(st, t, id) ==> AllShortTo(st.socks[t].submitted, to)
  }

  /** `t` and `x` hear of each other, and `x` is not gone and has been brief to `t`. */
  ghost predicate Linked(st: Server, t: SockId, x: UserId)
    requires t in st.socks
  {
    var who := st.socks[t].phase.Who();
    && Hears(st, t, x)
    && (who.Some? ==> var id := Identity(who.value.room, x); !Gone(st, id) && Brief(st, id, who.value.user))
  }

  /** The relay between two members is a FIFO: what a queue got from `x` is what
      `x` sent to it. */
  ghost predicate RelayOk(st: Server, t: SockId, k: Signal, x: UserId)
    requires t in st.socks
  {
    Linked(st, t, x) ==> AllFrom(k, st.socks[t].log, x) == SentBy(st, st.socks[t].phase.Who(), k, x)
  }

  ghost predicate RelaysOk(st: Server) {
    forall t, k, x :: t in st.socks ==> RelayOk(st, t, k, x)
  }

  // ----- links

  /** Both ends of the pair are clean, `s` has not ended, and `x` is not gone from
      the room `s` is in or wants. */
  ghost predicate Together(net: Net, s: SockId, x: UserId)
    requires s in net.peers && s in net.server.socks
  {
    var id := net.peers[s].id;
    !net.server.socks[s].phase.Done? && CleanIds(net, id.room, id.user, x) && !Gone(net.server, Identity(id.room, x))
  }

  ghost predicate LinksOk(net: Net) {
    forall s, x :: s in net.peers && s in net.server.socks && Together(net, s, x) ==> LinkOk(LocalOf(net, s), x)
  }

  ghost predicate Inv(net: Net) {
    && Shape(net) && RoomsOk(net.server) && ViewsOk(net.server) && KnownOk(net)
    && MentionsOk(net.server) && RelaysOk(net.server) && LinksOk(net)
  }
}
