// One run of the server and two clients: they join one room, and then each frame
// and each message goes all the way before the next one.

module TwoClients {
  import opened Wire
  import opened RosterView
  import opened Rooms
  import opened RoomsProofs
  import opened RoomsTheorems
  import opened JoinRaces
  import opened Client
  import opened Links
  import opened Network
  import opened NetworkInvariant
  import opened Counting
  import M = Mesh

  /** Two clients with different ids, on the sockets 1 and 2. */
  datatype World = World(room: RoomId, a: PeerInfo, b: PeerInfo)
  {
    predicate Proper() {
      && a.userId != b.userId && JoinFieldsOk(room, a.userId, a.name, None)
      && JoinFieldsOk(room, b.userId, b.name, None)
    }

    function Of(s: SockId): PeerInfo {
      if s == 1 then a else b
    }

    function Id(s: SockId): Identity {
      Identity(room, Of(s).userId)
    }

    function Rooms(): map<RoomId, Room> {
      map[room := map[a.userId := Handle(a.name, 1), b.userId := Handle(b.name, 2)]]
    }
  }

  /** A joined client: what it was sent, how much of it has been taken from the
      queue and handled, what the server has read of it, and its mesh. */
  datatype Side = Side(log: seq<ServerMsg>, taken: nat, seen: nat, submitted: seq<ClientMsg>, mesh: M.MeshState)
  {
    /** All that was sent to it has been handled. */
    predicate Quiet() {
      taken == seen == |log|
    }
  }

  function Other(s: SockId): SockId {
    if s == 1 then 2 else 1
  }

  function SockOf(w: World, s: SockId, x: Side): Sock {
    Sock(Reading(Some(w.Id(s))), x.log, x.taken, true, 0, x.submitted)
  }

  predicate PeerIs(p: Peer, w: World, s: SockId, x: Side) {
    p.id == w.Id(s) && p.mesh == x.mesh && p.seen == x.seen && p.on && p.ill == {}
  }

  /** Both have joined; socket `s` is as in `x`, and the other one as in `y`. */
  predicate ServerShows(st: Server, w: World, s: SockId, x: Side, y: Side) {
    && s in {1, 2} && st.rooms == w.Rooms() && st.socks.Keys == {1, 2}
    && st.socks[s] == SockOf(w, s, x) && st.socks[Other(s)] == SockOf(w, Other(s), y)
  }

  predicate Shows(net: Net, w: World, s: SockId, x: Side, y: Side) {
    && ServerShows(net.server, w, s, x, y) && net.peers.Keys == {1, 2}
    && PeerIs(net.peers[s], w, s, x) && PeerIs(net.peers[Other(s)], w, Other(s), y)
  }

  lemma Swapped(net: Net, w: World, s: SockId, x: Side, y: Side)
    requires Shows(net, w, s, x, y)
    ensures Shows(net, w, Other(s), y, x)
  {
  }

  lemma NetSnoc(es: seq<NetEvent>, e: NetEvent)
    ensures NetRun(es + [e]) == NetStep(NetRun(es), e)
  {
    assert (es + [e])[..|es|] == es;
  }

  lemma ServerStepIs(net: Net, e: NetEvent)
    requires ServerSide(e) && Possible(net, e)
    ensures NetStep(net, e).server == Step(net.server, ServerEvent(net, e))
    ensures NetStep(net, e).peers.Keys == net.peers.Keys
    ensures forall t :: t in net.peers ==> NetStep(net, e).peers[t] == ServerPeer(net, e, t)
  {
    hide Step, Enabled, Lists;
  }

  lemma TakeServer(st: Server, w: World, s: SockId, x: Side, y: Side)
    requires ServerShows(st, w, s, x, y) && x.taken < |x.log|
    ensures Enabled(st, Drain(s)) && ServerShows(Step(st, Drain(s)), w, s, x.(taken := x.taken + 1), y)
  {
    hide Step, Mail;
    TwoSocks(st, Drain(s));
    ElsewhereMail(st.socks[1], 1, Empty);
    ElsewhereMail(st.socks[2], 2, Empty);
  }

  lemma TakeShows(net: Net, w: World, s: SockId, x: Side, y: Side)
    requires Shows(net, w, s, x, y) && x.taken < |x.log|
    ensures Shows(NetStep(net, Take(s)), w, s, x.(taken := x.taken + 1), y)
  {
    hide Step, NetStep, ServerShows, Enabled;
    TakeServer(net.server, w, s, x, y);
    ServerStepIs(net, Take(s));
    WhoShows(net.server, w, s, x, y);
  }

  lemma WhoShows(st: Server, w: World, s: SockId, x: Side, y: Side)
    requires ServerShows(st, w, s, x, y)
    ensures s in {1, 2}
  {
  }

  lemma DeliverShows(net: Net, w: World, s: SockId, x: Side, y: Side, order: seq<UserId>)
    requires Shows(net, w, s, x, y) && x.seen < x.taken <= |x.log|
    requires Distinct(order) && forall p :: p in order <==> p in x.mesh.peers
    ensures var msg := x.log[x.seen];
            var m' := OnMessage(x.mesh, msg, order, Disciplined(x.mesh, msg, map[]));
            Shows(NetStep(net, Deliver(s, order, map[])), w, s, x.(seen := x.seen + 1, mesh := m'), y)
  {
    hide NetStep, Absorb, OnMessage, Harmed;
    DeliverNet(net, Deliver(s, order, map[]));
    NoneHarmed(x.log[x.seen], order);
    AbsorbedMesh(LocalOf(net, s), x.log[x.seen], order, map[]);
  }

  lemma NoneHarmed(msg: ServerMsg, order: seq<UserId>)
    ensures Harmed(msg, order, map[]) == {}
  {
    forall x ensures Spares(msg, order, map[], x) { AllReached(order, x); }
  }

  lemma {:induction false} AllReached(order: seq<UserId>, x: UserId)
    ensures Reaches(order, map[], x)
    decreases |order|
  {
    if order != [] { AllReached(order[1..], x); }
  }

  lemma SayShows(net: Net, w: World, s: SockId, x: Side, y: Side)
    requires Shows(net, w, s, x, y)
    ensures Shows(NetStep(net, Say(s, ClientMsg.Rekey, |x.mesh.out|)), w, s,
                  x.(mesh := x.mesh.(out := x.mesh.out + [ClientMsg.Rekey])), y)
  {
    hide NetStep;
    SayNet(net, Say(s, ClientMsg.Rekey, |x.mesh.out|));
  }

  /** The side once the server has read the first frame of its uplink. */
  function Served(x: Side): Side
    requires x.mesh.out != []
  {
    x.(submitted := x.submitted + [x.mesh.out[0]], mesh := x.mesh.(out := x.mesh.out[1..]))
  }

  function Got(x: Side, m: ServerMsg): Side {
    x.(log := x.log + [m])
  }

  /** A short offer or answer for the other member. */
  predicate ForOther(w: World, s: SockId, m: ClientMsg) {
    (m.Offer? || m.Answer?) && m.to == w.Of(Other(s)).userId && m.sdp.len <= MAX_SDP
  }

  function Relayed(w: World, s: SockId, m: ClientMsg): ServerMsg
    requires m.Offer? || m.Answer?
  {
    if m.Offer? then ServerMsg.Offer(w.Of(s).userId, m.sdp) else ServerMsg.Answer(w.Of(s).userId, m.sdp)
  }

  lemma RelayServer(st: Server, w: World, s: SockId, x: Side, y: Side)
    requires ServerShows(st, w, s, x, y) && w.Proper() && y.Quiet()
    requires x.mesh.out != [] && ForOther(w, s, x.mesh.out[0])
    ensures var e := Text(s, x.mesh.out[0], true, []);
            Enabled(st, e) && ServerShows(Step(st, e), w, s, Served(x), Got(y, Relayed(w, s, x.mesh.out[0])))
  {
    hide Step, Mail, World.Proper, Relayed;
    var m := x.mesh.out[0];
    TwoSocks(st, Text(s, m, true, []));
    OutgoingSignal(w, s, m);
    OneMail(st.socks[Other(s)], Other(s), Relayed(w, s, m));
    NoMail(st.socks[s], s, {Other(s)}, Relayed(w, s, m));
  }

  lemma RelayShows(net: Net, w: World, s: SockId, x: Side, y: Side)
    requires Shows(net, w, s, x, y) && w.Proper() && y.Quiet()
    requires x.mesh.out != [] && ForOther(w, s, x.mesh.out[0])
    ensures Shows(NetStep(net, Serve(s, true, [])), w, s, Served(x), Got(y, Relayed(w, s, x.mesh.out[0])))
  {
    hide Step, NetStep, World.Proper, ServerShows, Enabled;
    WhoShows(net.server, w, s, x, y);
    RelayServer(net.server, w, s, x, y);
    ServerStepIs(net, Serve(s, true, []));
  }

  lemma OutgoingSignal(w: World, s: SockId, m: ClientMsg)
    requires w.Proper() && s in {1, 2} && ForOther(w, s, m)
    ensures Outgoing(w.Rooms(), w.Id(s), m) == Then(Empty, {Other(s)}, Relayed(w, s, m))
  {
  }

  lemma RekeyServer(st: Server, w: World, s: SockId, x: Side, y: Side)
    requires ServerShows(st, w, s, x, y) && w.Proper() && x.Quiet() && y.Quiet()
    requires x.mesh.out != [] && x.mesh.out[0].Rekey?
    ensures var e, rekey := Text(s, x.mesh.out[0], true, []), ServerMsg.Rekey(w.Of(s).name);
            Enabled(st, e) && ServerShows(Step(st, e), w, s, Got(Served(x), rekey), Got(y, rekey))
  {
    hide Step, Mail, World.Proper;
    var rekey := ServerMsg.Rekey(w.Of(s).name);
    TwoSocks(st, Text(s, x.mesh.out[0], true, []));
    OutgoingRekey(w, s);
    BothMail(st.socks[1], 1, rekey);
    BothMail(st.socks[2], 2, rekey);
  }

  lemma RekeyShows(net: Net, w: World, s: SockId, x: Side, y: Side)
    requires Shows(net, w, s, x, y) && w.Proper() && x.Quiet() && y.Quiet() && x.mesh.out != [] && x.mesh.out[0].Rekey?
    ensures var rekey := ServerMsg.Rekey(w.Of(s).name);
            Shows(NetStep(net, Serve(s, true, [])), w, s, Got(Served(x), rekey), Got(y, rekey))
  {
    hide Step, NetStep, World.Proper, ServerShows, Enabled;
    WhoShows(net.server, w, s, x, y);
    RekeyServer(net.server, w, s, x, y);
    ServerStepIs(net, Serve(s, true, []));
  }

  lemma BothMail(k: Sock, t: SockId, m: ServerMsg)
    requires t in {1, 2}
    ensures Mail(k, t, Then(Empty, {1, 2}, m)) == k.TrySend(m)
  {
    assert Mail(k, t, Empty) == k;
  }

  lemma OutgoingRekey(w: World, s: SockId)
    requires w.Proper() && s in {1, 2}
    ensures Outgoing(w.Rooms(), w.Id(s), ClientMsg.Rekey) == Then(Empty, {1, 2}, ServerMsg.Rekey(w.Of(s).name))
  {
    var r := w.Rooms()[w.room];
    assert SocksOf(r) == {1, 2} by { assert r[w.a.userId].sock == 1 && r[w.b.userId].sock == 2; }
  }

  /** A side once it has taken and handled a message that reached it at rest. */
  function Handling(x: Side, msg: ServerMsg, order: seq<UserId>): Side {
    Side(x.log + [msg], x.taken + 1, x.seen + 1, x.submitted,
         OnMessage(x.mesh, msg, order, Disciplined(x.mesh, msg, map[])))
  }

  ghost predicate ListsPeers(order: seq<UserId>, x: Side) {
    Distinct(order) && forall p :: p in order <==> p in x.mesh.peers
  }

  /** A side once it has taken and handled the next message in its queue. */
  function Taking(x: Side, order: seq<UserId>): Side
    requires x.seen < |x.log|
  {
    x.(taken := x.taken + 1, seen := x.seen + 1,
       mesh := OnMessage(x.mesh, x.log[x.seen], order, Disciplined(x.mesh, x.log[x.seen], map[])))
  }

  lemma Takes(es: seq<NetEvent>, w: World, s: SockId, x: Side, y: Side, order: seq<UserId>)
    returns (es': seq<NetEvent>)
    requires Shows(NetRun(es), w, s, x, y) && x.seen == x.taken < |x.log| && ListsPeers(order, x)
    ensures es <= es' && Shows(NetRun(es'), w, s, Taking(x, order), y)
  {
    hide Shows, NetRun, OnMessage;
    es' := es + [Take(s)];
    NetSnoc(es, Take(s));
    TakeShows(NetRun(es), w, s, x, y);
    NetSnoc(es', Deliver(s, order, map[]));
    DeliverShows(NetRun(es'), w, s, x.(taken := x.taken + 1), y, order);
    es' := es' + [Deliver(s, order, map[])];
  }

  /** The side takes and handles what has just reached it. */
  lemma Handles(es: seq<NetEvent>, w: World, s: SockId, x: Side, msg: ServerMsg, y: Side, order: seq<UserId>)
    returns (es': seq<NetEvent>)
    requires Shows(NetRun(es), w, s, Got(x, msg), y) && x.Quiet() && ListsPeers(order, x)
    ensures es <= es' && Shows(NetRun(es'), w, s, Handling(x, msg, order), y)
  {
    hide Shows, NetRun, OnMessage;
    es' := Takes(es, w, s, Got(x, msg), y, order);
    assert Taking(Got(x, msg), order) == Handling(x, msg, order);
  }

  /** An offer or answer goes all the way. */
  lemma Relay(es: seq<NetEvent>, w: World, s: SockId, x: Side, y: Side, order: seq<UserId>)
    returns (es': seq<NetEvent>)
    requires Shows(NetRun(es), w, s, x, y) && w.Proper() && x.Quiet() && y.Quiet() && ListsPeers(order, y)
    requires x.mesh.out != [] && ForOther(w, s, x.mesh.out[0])
    ensures es <= es' && Shows(NetRun(es'), w, s, Served(x), Handling(y, Relayed(w, s, x.mesh.out[0]), order))
  {
    hide Shows, NetRun, Handling;
    es' := es + [Serve(s, true, [])];
    NetSnoc(es, Serve(s, true, []));
    RelayShows(NetRun(es), w, s, x, y);
    var msg := Relayed(w, s, x.mesh.out[0]);
    SwapIn(es', w, s, Served(x), Got(y, msg));
    es' := Handles(es', w, Other(s), y, msg, Served(x), order);
    SwapIn(es', w, Other(s), Handling(y, msg, order), Served(x));
  }

  lemma SwapIn(es: seq<NetEvent>, w: World, s: SockId, x: Side, y: Side)
    requires Shows(NetRun(es), w, s, x, y)
    ensures Shows(NetRun(es), w, Other(s), y, x) && Other(Other(s)) == s
  {
    Swapped(NetRun(es), w, s, x, y);
  }

  /** The first client asks for a rekey, and both handle it. */
  lemma Rekey(es: seq<NetEvent>, w: World, x: Side, y: Side, xs: seq<UserId>, ys: seq<UserId>)
    returns (es': seq<NetEvent>)
    requires Shows(NetRun(es), w, 1, x, y) && w.Proper() && x.Quiet() && y.Quiet() && x.mesh.out == []
    requires ListsPeers(xs, x) && ListsPeers(ys, y)
    ensures es <= es'
    ensures var rekey := ServerMsg.Rekey(w.a.name);
            Shows(NetRun(es'), w, 1, Handling(x.(submitted := x.submitted + [ClientMsg.Rekey]), rekey, xs),
                  Handling(y, rekey, ys))
  {
    hide Shows, NetRun, Handling;
    var rekey, x1 := ServerMsg.Rekey(w.a.name), x.(submitted := x.submitted + [ClientMsg.Rekey]);
    var asked := x.(mesh := x.mesh.(out := [ClientMsg.Rekey]));
    assert x.mesh.out + [ClientMsg.Rekey] == [ClientMsg.Rekey];
    NetSnoc(es, Say(1, ClientMsg.Rekey, 0));
    SayShows(NetRun(es), w, 1, x, y);
    es' := es + [Say(1, ClientMsg.Rekey, 0)];
    NetSnoc(es', Serve(1, true, []));
    RekeyShows(NetRun(es'), w, 1, asked, y);
    assert Got(Served(asked), rekey) == Got(x1, rekey);
    es' := es' + [Serve(1, true, [])];
    es' := Handles(es', w, 1, x1, rekey, Got(y, rekey), xs);
    SwapIn(es', w, 1, Handling(x1, rekey, xs), Got(y, rekey));
    es' := Handles(es', w, 2, y, rekey, Handling(x1, rekey, xs), ys);
    SwapIn(es', w, 2, Handling(y, rekey, ys), Handling(x1, rekey, xs));
  }

  // ----- how the two come together

  function JoinFrame(w: World, s: SockId): ClientMsg {
    JoinOf(w.Id(s), w.Of(s).name)
  }

  /** A client whose Join the server has read, with nothing else to send. */
  function Reader(w: World, s: SockId): Peer {
    Peer(w.Id(s), w.Of(s).name, M.NewMesh(w.Of(s).userId), 0, map[], true, {})
  }

  lemma TwoOpen(w: World) returns (es: seq<NetEvent>)
    ensures NetRun(es) == Net(Server(map[], map[1 := NEW_SOCK, 2 := NEW_SOCK]),
                              map[1 := NewPeer(w.Id(1), w.a.name), 2 := NewPeer(w.Id(2), w.b.name)])
  {
    var one, two := Open(1, w.Id(1), w.a.name), Open(2, w.Id(2), w.b.name);
    es := [one, two];
    NetSnoc([], one);
    NetSnoc([one], two);
    assert [] + [one] == [one] && [one] + [two] == es;
  }

  /** A server-side step with two clients. */
  lemma TwoPeers(net: Net, e: NetEvent)
    requires ServerSide(e) && Possible(net, e) && net.peers.Keys == {1, 2}
    ensures NetStep(net, e) == Net(Step(net.server, ServerEvent(net, e)),
                                   map[1 := ServerPeer(net, e, 1), 2 := ServerPeer(net, e, 2)])
  {
    hide Step, NetStep, ServerPeer, Possible;
    ServerStepIs(net, e);
  }

  lemma JoinRead(w: World, s: SockId)
    ensures var p := NewPeer(w.Id(s), w.Of(s).name);
            p.mesh.out == [JoinFrame(w, s)] && p.(mesh := p.mesh.(out := p.mesh.out[1..])) == Reader(w, s)
  {
  }

  lemma FirstReads(w: World, net: Net)
    requires w.Proper()
    requires net == Net(Server(map[], map[1 := NEW_SOCK, 2 := NEW_SOCK]),
                        map[1 := NewPeer(w.Id(1), w.a.name), 2 := NewPeer(w.Id(2), w.b.name)])
    ensures NetStep(net, Serve(1, true, [])) ==
            Net(Server(map[w.room := map[w.a.userId := Handle(w.a.name, 1)]],
                       map[1 := Sock(Joining(w.Id(1), []), [], 0, true, 0, [JoinFrame(w, 1)]), 2 := NEW_SOCK]),
                map[1 := Reader(w, 1), 2 := NewPeer(w.Id(2), w.b.name)])
  {
    hide Step, NetStep, JoinFieldsOk, Enabled, NewPeer;
    JoinRead(w, 1);
    FirstJoin(w.room, w.a, net.server);
    FirstJoinEnabled(w.room, w.a, net.server);
    TwoPeers(net, Serve(1, true, []));
  }

  lemma FirstListed(w: World, net: Net)
    requires net == Net(Server(map[w.room := map[w.a.userId := Handle(w.a.name, 1)]],
                               map[1 := Sock(Joining(w.Id(1), []), [], 0, true, 0, [JoinFrame(w, 1)]), 2 := NEW_SOCK]),
                        map[1 := Reader(w, 1), 2 := NewPeer(w.Id(2), w.b.name)])
    ensures NetStep(net, Finish(1, None)) ==
            Net(Server(net.server.rooms,
                       map[1 := Sock(Reading(Some(w.Id(1))), [Roster([])], 0, true, 0, [JoinFrame(w, 1)]),
                           2 := NEW_SOCK]),
                net.peers)
  {
    hide Step, NetStep, NewPeer, JoinOf;
    FinishFirst(w.room, w.a, JoinFrame(w, 1));
    TwoPeers(net, Finish(1, None));
  }

  lemma FirstEnters(w: World) returns (es: seq<NetEvent>)
    requires w.Proper()
    ensures NetRun(es) == Net(Server(map[w.room := map[w.a.userId := Handle(w.a.name, 1)]],
                                     map[1 := Sock(Reading(Some(w.Id(1))), [Roster([])], 0, true, 0, [JoinFrame(w, 1)]),
                                         2 := NEW_SOCK]),
                              map[1 := Reader(w, 1), 2 := NewPeer(w.Id(2), w.b.name)])
  {
    hide NetRun, NetStep, NewPeer, JoinOf;
    es := TwoOpen(w);
    FirstReads(w, NetRun(es));
    NetSnoc(es, Serve(1, true, []));
    es := es + [Serve(1, true, [])];
    FirstListed(w, NetRun(es));
    NetSnoc(es, Finish(1, None));
    es := es + [Finish(1, None)];
  }

  /** Both are in, and have been sent who else is. */
  function FirstIn(w: World): Side {
    Side([Roster([]), PeerJoined(w.b.userId, w.b.name)], 0, 0, [JoinFrame(w, 1)], M.NewMesh(w.a.userId))
  }

  function SecondIn(w: World): Side {
    Side([Roster([w.a])], 0, 0, [JoinFrame(w, 2)], M.NewMesh(w.b.userId))
  }

  lemma SecondReads(w: World, net: Net)
    requires w.Proper()
    requires net == Net(Server(map[w.room := map[w.a.userId := Handle(w.a.name, 1)]],
                               map[1 := Sock(Reading(Some(w.Id(1))), [Roster([])], 0, true, 0, [JoinFrame(w, 1)]),
                                   2 := NEW_SOCK]),
                        map[1 := Reader(w, 1), 2 := NewPeer(w.Id(2), w.b.name)])
    ensures NetStep(net, Serve(2, true, [w.a])) ==
            Net(Server(w.Rooms(), map[1 := SockOf(w, 1, FirstIn(w)),
                                      2 := Sock(Joining(w.Id(2), [w.a]), [], 0, true, 0, [JoinFrame(w, 2)])]),
                map[1 := Reader(w, 1), 2 := Reader(w, 2)])
  {
    hide Step, NetStep, JoinFieldsOk, Enabled, NewPeer;
    JoinRead(w, 2);
    assert [Roster([])] + [PeerJoined(w.b.userId, w.b.name)] == FirstIn(w).log;
    SecondJoin(w.room, w.a, w.b, net.server);
    SecondJoinEnabled(w.room, w.a, w.b, net.server);
    TwoPeers(net, Serve(2, true, [w.a]));
  }

  lemma SecondListed(w: World, net: Net)
    requires w.Proper()
    requires net == Net(Server(w.Rooms(), map[1 := SockOf(w, 1, FirstIn(w)),
                                              2 := Sock(Joining(w.Id(2), [w.a]), [], 0, true, 0, [JoinFrame(w, 2)])]),
                        map[1 := Reader(w, 1), 2 := Reader(w, 2)])
    ensures Shows(NetStep(net, Finish(2, None)), w, 1, FirstIn(w), SecondIn(w))
  {
    hide Step, NetStep, JoinOf, JoinFieldsOk;
    FinishSecond(w, net.server);
    TwoPeers(net, Finish(2, None));
  }

  lemma BothEnter(w: World) returns (es: seq<NetEvent>)
    requires w.Proper()
    ensures Shows(NetRun(es), w, 1, FirstIn(w), SecondIn(w))
  {
    hide NetRun, NetStep, Shows, NewPeer, SockOf, JoinFieldsOk;
    es := FirstEnters(w);
    SecondReads(w, NetRun(es));
    NetSnoc(es, Serve(2, true, [w.a]));
    es := es + [Serve(2, true, [w.a])];
    SecondListed(w, NetRun(es));
    NetSnoc(es, Finish(2, None));
    es := es + [Finish(2, None)];
  }

  lemma FinishSecond(w: World, st: Server)
    requires w.Proper() && st.rooms == w.Rooms() && st.socks.Keys == {1, 2}
    requires st.socks[1] == SockOf(w, 1, FirstIn(w))
    requires st.socks[2] == Sock(Joining(w.Id(2), [w.a]), [], 0, true, 0, [JoinFrame(w, 2)])
    ensures var st' := Step(st, FinishJoin(2, None));
            && st'.rooms == w.Rooms() && st'.socks.Keys == {1, 2}
            && st'.socks[1] == SockOf(w, 1, FirstIn(w)) && st'.socks[2] == SockOf(w, 2, SecondIn(w))
  {
    hide Step, Mail, JoinFieldsOk;
    TwoSocks(st, FinishJoin(2, None));
    var k := st.socks[2];
    assert k.log + [Roster([w.a])] == [Roster([w.a])];
    RosterSent(k, 2, w.Id(2), [w.a], None, st.rooms);
    NoMail(st.socks[1], 1, {2}, Roster([w.a]));
  }
}
