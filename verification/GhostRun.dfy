// What an entry for somebody who is gone costs: a run of the server and two
// clients, where one leaves before the other's Roster is queued, and one rekey.

module GhostRun {
  import opened Wire
  import opened Rooms
  import opened RoomsProofs
  import opened RoomsTheorems
  import opened JoinRaces
  import opened Client
  import opened Links
  import opened Network
  import opened NetworkInvariant
  import opened Counting
  import opened NetworkCounting
  import opened NetworkRekeys
  import opened NetworkGhosts
  import opened TwoClients
  import opened Overlap
  import M = Mesh

  /** The client that stays has the smaller id. */
  predicate StayerSmaller(w: World) {
    w.Proper() && Less(w.b.userId, w.a.userId)
  }

  /** The room once the first client has left. */
  function LoneRooms(w: World): map<RoomId, Room> {
    map[w.room := map[w.b.userId := Handle(w.b.name, 2)]]
  }

  predicate LoneServer(st: Server, w: World, x: Side) {
    st.rooms == LoneRooms(w) && st.socks.Keys == {1, 2} && st.socks[2] == SockOf(w, 2, x)
  }

  /** The second client is alone in the room, and is as in `x`. */
  predicate Lone(net: Net, w: World, x: Side) {
    && LoneServer(net.server, w, x) && net.peers.Keys == {1, 2}
    && net.peers[1].id == w.Id(1) && PeerIs(net.peers[2], w, 2, x)
  }

  // ----- steps of the one that is left

  lemma LoneTakes(net: Net, w: World, x: Side)
    requires Lone(net, w, x) && x.taken < |x.log|
    ensures Lone(NetStep(net, Take(2)), w, x.(taken := x.taken + 1))
  {
    hide Step, NetStep, Mail;
    TwoSocks(net.server, Drain(2));
    ElsewhereMail(net.server.socks[2], 2, Empty);
    ServerStepIs(net, Take(2));
  }

  lemma LoneDelivers(net: Net, w: World, x: Side, order: seq<UserId>)
    requires Lone(net, w, x) && x.seen < x.taken <= |x.log| && ListsPeers(order, x)
    ensures Lone(NetStep(net, Deliver(2, order, map[])), w,
                 x.(seen := x.seen + 1, mesh := Next(x.mesh, x.log[x.seen], order)))
  {
    hide NetStep, Absorb, OnMessage, Harmed;
    DeliverNet(net, Deliver(2, order, map[]));
    NoneHarmed(x.log[x.seen], order);
    AbsorbedMesh(LocalOf(net, 2), x.log[x.seen], order, map[]);
  }

  lemma LoneSays(net: Net, w: World, x: Side)
    requires Lone(net, w, x)
    ensures Lone(NetStep(net, Say(2, ClientMsg.Rekey, |x.mesh.out|)), w,
                 x.(mesh := x.mesh.(out := x.mesh.out + [ClientMsg.Rekey])))
  {
    hide NetStep;
    SayNet(net, Say(2, ClientMsg.Rekey, |x.mesh.out|));
  }

  /** An offer to the one that is gone reaches nobody. */
  lemma LoneOffers(net: Net, w: World, x: Side)
    requires Lone(net, w, x) && w.Proper() && x.mesh.out != []
    requires x.mesh.out[0].Offer? && x.mesh.out[0].to == w.a.userId
    ensures Lone(NetStep(net, Serve(2, true, [])), w, Served(x))
  {
    hide Step, NetStep, Mail, World.Proper;
    var m := x.mesh.out[0];
    TwoSocks(net.server, Text(2, m, true, []));
    OfferToNobody(w, m);
    ElsewhereMail(net.server.socks[2], 2, Empty);
    ServerStepIs(net, Serve(2, true, []));
  }

  lemma OfferToNobody(w: World, m: ClientMsg)
    requires w.Proper() && m.Offer? && m.to == w.a.userId
    ensures Outgoing(LoneRooms(w), w.Id(2), m) == Empty
  {
  }

  /** A rekey of the only member comes back to it. */
  lemma LoneRekeys(net: Net, w: World, x: Side)
    requires Lone(net, w, x) && w.Proper() && x.Quiet() && x.mesh.out != [] && x.mesh.out[0].Rekey?
    ensures Lone(NetStep(net, Serve(2, true, [])), w, Got(Served(x), ServerMsg.Rekey(w.b.name)))
    ensures Broadcasts(net, Serve(2, true, []), w.room)
  {
    hide Step, NetStep, Mail, World.Proper;
    TwoSocks(net.server, Text(2, ClientMsg.Rekey, true, []));
    RekeyToOneself(w);
    OneMail(net.server.socks[2], 2, ServerMsg.Rekey(w.b.name));
    ServerStepIs(net, Serve(2, true, []));
  }

  lemma RekeyToOneself(w: World)
    requires w.Proper()
    ensures Outgoing(LoneRooms(w), w.Id(2), ClientMsg.Rekey) == Then(Empty, {2}, ServerMsg.Rekey(w.b.name))
  {
    var r := LoneRooms(w)[w.room];
    assert SocksOf(r) == {2} by { assert r[w.b.userId].sock == 2; }
  }

  // ----- how it comes to be alone

  function Waiting(w: World): Sock {
    Sock(Joining(w.Id(2), [w.a]), [], 0, true, 0, [TwoClients.JoinFrame(w, 2)])
  }

  /** It was told that the other has left, and then that the other is there. */
  function Misled(w: World): Side {
    Side([PeerLeft(w.a.userId), Roster([w.a])], 0, 0, [TwoClients.JoinFrame(w, 2)], M.NewMesh(w.b.userId))
  }

  predicate Deserted(net: Net, w: World) {
    && net.server.rooms == LoneRooms(w) && net.server.socks.Keys == {1, 2}
    && net.server.socks[2] == Waiting(w).(log := [PeerLeft(w.a.userId)])
    && net.peers == map[1 := Reader(w, 1), 2 := Reader(w, 2)]
  }

  lemma FirstQuits(w: World, net: Net)
    requires w.Proper()
    requires net == Net(Server(w.Rooms(), map[1 := SockOf(w, 1, FirstIn(w)), 2 := Waiting(w)]),
                        map[1 := Reader(w, 1), 2 := Reader(w, 2)])
    ensures Deserted(NetStep(net, Quit(1)), w)
  {
    hide Step, NetStep, JoinOf, JoinFieldsOk, Mail, Reader;
    FirstGoes(w.room, w.a, w.b, SockOf(w, 1, FirstIn(w)), Waiting(w));
    assert Waiting(w).log + [PeerLeft(w.a.userId)] == [PeerLeft(w.a.userId)];
    TwoPeers(net, Quit(1));
    TwoSocks(net.server, Hangup(1));
  }

  lemma ListedLate(w: World, net: Net)
    requires Deserted(net, w)
    ensures Lone(NetStep(net, Finish(2, None)), w, Misled(w))
  {
    hide Step, NetStep, Mail, JoinOf;
    var k := net.server.socks[2];
    TwoSocks(net.server, FinishJoin(2, None));
    RosterSent(k, 2, w.Id(2), [w.a], None, net.server.rooms);
    assert k.log + [Roster([w.a])] == Misled(w).log;
    TwoPeers(net, Finish(2, None));
  }

  lemma LeftAlone(w: World) returns (es: seq<NetEvent>)
    requires w.Proper()
    ensures Lone(NetRun(es), w, Misled(w))
  {
    hide NetRun, NetStep, Lone, Deserted, NewPeer, JoinOf, JoinFieldsOk;
    es := FirstEnters(w);
    SecondReads(w, NetRun(es));
    NetSnoc(es, Serve(2, true, [w.a]));
    es := es + [Serve(2, true, [w.a])];
    FirstQuits(w, NetRun(es));
    NetSnoc(es, Quit(1));
    es := es + [Quit(1)];
    ListedLate(w, NetRun(es));
    NetSnoc(es, Finish(2, None));
    es := es + [Finish(2, None)];
  }

  // ----- what it makes of it

  lemma MeetsTheLost(w: World)
    requires StayerSmaller(w)
    ensures var a, b := w.a.userId, w.b.userId;
            && Next(M.NewMesh(b), PeerLeft(a), []) == M.NewMesh(b)
            && Next(M.NewMesh(b), Roster([w.a]), []) == OneEntry(b, a, Dialing(0), 1, [ClientMsg.Offer(a, Numbered(0))])
  {
    hide JoinFieldsOk;
    var a, b := w.a.userId, w.b.userId;
    var m, m1 := M.NewMesh(b), OneEntry(b, a, Dialing(0), 1, [ClientMsg.Offer(a, Numbered(0))]);
    MapOnce(a, M.FreshPc(0), Dialing(0));
    NoneBelowZero();
    assert M.OnPeer(m, a, M.Lib({}, 0)).m == m1;
    assert [w.a][1..] == [] && MeetAll(m1, [], map[]) == m1;
    assert MeetAll(m, [w.a], map[]) == MeetAll(m1, [w.a][1..], map[]);
  }

  lemma Handled(es: seq<NetEvent>, w: World, x: Side, order: seq<UserId>) returns (es': seq<NetEvent>)
    requires Lone(NetRun(es), w, x) && x.seen == x.taken < |x.log| && ListsPeers(order, x)
    ensures es' == es + [Take(2)] + [Deliver(2, order, map[])]
    ensures Lone(NetRun(es'), w, x.(taken := x.taken + 1, seen := x.seen + 1,
                                    mesh := Next(x.mesh, x.log[x.seen], order)))
  {
    hide Lone, NetRun, NetStep, Next;
    NetSnoc(es, Take(2));
    LoneTakes(NetRun(es), w, x);
    NetSnoc(es + [Take(2)], Deliver(2, order, map[]));
    LoneDelivers(NetRun(es + [Take(2)]), w, x.(taken := x.taken + 1), order);
    es' := es + [Take(2)] + [Deliver(2, order, map[])];
  }

  /** It has one entry, which made the latest of its `n + 1` offers, all of them
      read by the server. */
  function Haunted(w: World, n: nat, past: seq<ClientMsg>, log: seq<ServerMsg>): Side {
    Side(log, |log|, |log|, past, OneEntry(w.b.userId, w.a.userId, Dialing(n), n + 1, []))
  }

  function Lost(w: World, n: nat): ClientMsg {
    ClientMsg.Offer(w.a.userId, Numbered(n))
  }

  lemma OfferRead(es: seq<NetEvent>, w: World, x: Side) returns (es': seq<NetEvent>)
    requires Lone(NetRun(es), w, x) && w.Proper() && exists n: nat :: x.mesh.out == [Lost(w, n)]
    ensures es' == es + [Serve(2, true, [])]
    ensures Lone(NetRun(es'), w, x.(submitted := x.submitted + x.mesh.out, mesh := x.mesh.(out := [])))
  {
    hide Lone, NetRun, NetStep, World.Proper;
    es' := es + [Serve(2, true, [])];
    NetSnoc(es, Serve(2, true, []));
    LoneOffers(NetRun(es), w, x);
    assert x.mesh.out[1..] == [] && [x.mesh.out[0]] == x.mesh.out;
  }

  lemma Haunting(w: World) returns (es: seq<NetEvent>)
    requires StayerSmaller(w)
    ensures Lone(NetRun(es), w, Haunted(w, 0, [TwoClients.JoinFrame(w, 2), Lost(w, 0)], Misled(w).log))
  {
    hide Lone, NetRun, NetStep, Next, JoinFieldsOk, JoinOf, Step;
    es := LeftAlone(w);
    var x := Misled(w);
    MeetsTheLost(w);
    es := Handled(es, w, x, []);
    var x1 := x.(taken := 1, seen := 1);
    es := Handled(es, w, x1, []);
    var x2 := x1.(taken := 2, seen := 2, mesh := OneEntry(w.b.userId, w.a.userId, Dialing(0), 1, [Lost(w, 0)]));
    es := OfferRead(es, w, x2);
    assert x2.submitted + [Lost(w, 0)] == [TwoClients.JoinFrame(w, 2), Lost(w, 0)];
  }

  /** One rekey, and what it makes the client do. */
  function OneRekey(w: World): seq<NetEvent> {
    [Say(2, ClientMsg.Rekey, 0), Serve(2, true, []), Take(2), Deliver(2, [w.a.userId], map[])]
  }

  /** The same after one rekey more, with the new offer on its way. */
  function Rekeyed(w: World, past: seq<ClientMsg>, log: seq<ServerMsg>): Side {
    var x := Haunted(w, 1, past + [ClientMsg.Rekey], log + [ServerMsg.Rekey(w.b.name)]);
    x.(mesh := x.mesh.(out := [Lost(w, 1)]))
  }

  lemma RekeyHaunts(es: seq<NetEvent>, w: World, past: seq<ClientMsg>, log: seq<ServerMsg>)
    requires StayerSmaller(w) && Lone(NetRun(es), w, Haunted(w, 0, past, log))
    ensures Lone(NetRun(es + OneRekey(w)), w, Rekeyed(w, past, log))
    ensures Broadcasts(NetRun(es + [OneRekey(w)[0]]), OneRekey(w)[1], w.room)
  {
    hide Lone, NetRun, NetStep, Next, JoinFieldsOk, Dialing, Broadcasts;
    var x, rekey := Haunted(w, 0, past, log), ServerMsg.Rekey(w.b.name);
    var asked := x.(mesh := x.mesh.(out := [ClientMsg.Rekey]));
    assert [] + [ClientMsg.Rekey] == [ClientMsg.Rekey] && asked.mesh.out[1..] == [];
    NetSnoc(es, Say(2, ClientMsg.Rekey, 0));
    LoneSays(NetRun(es), w, x);
    var es1 := es + [Say(2, ClientMsg.Rekey, 0)];
    NetSnoc(es1, Serve(2, true, []));
    LoneRekeys(NetRun(es1), w, asked);
    var x1 := x.(submitted := past + [ClientMsg.Rekey], log := log + [rekey]);
    var es3 := Handled(es1 + [Serve(2, true, [])], w, x1, [w.a.userId]);
    DialsAgain(w);
    assert es3 == es + OneRekey(w);
  }

  lemma DialsAgain(w: World)
    requires StayerSmaller(w)
    ensures var a, b := w.a.userId, w.b.userId;
            Next(OneEntry(b, a, Dialing(0), 1, []), ServerMsg.Rekey(w.b.name), [a]) ==
            OneEntry(b, a, Dialing(1), 2, [Lost(w, 1)])
  {
    hide JoinFieldsOk;
    CallerDialsAgain(w.b.userId, w.a.userId, Dialing(0), 0, w.b.name);
  }

  lemma CountSnoc(es: seq<NetEvent>, more: seq<NetEvent>, e: NetEvent, room: RoomId)
    ensures BroadcastCount(es, more + [e], room) ==
            BroadcastCount(es, more, room) + (if Broadcasts(NetRun(es + more), e, room) then 1 else 0)
  {
    hide NetRun, Broadcasts;
    assert (more + [e])[..|more|] == more;
  }

  lemma OneBroadcast(es: seq<NetEvent>, w: World)
    requires Broadcasts(NetRun(es + [OneRekey(w)[0]]), OneRekey(w)[1], w.room)
    ensures BroadcastCount(es, OneRekey(w), w.room) == 1
  {
    hide NetRun, NetStep, Possible, BroadcastCount;
    var r := OneRekey(w);
    CountSnoc(es, [], r[0], w.room);
    CountSnoc(es, [r[0]], r[1], w.room);
    CountSnoc(es, [r[0], r[1]], r[2], w.room);
    CountSnoc(es, [r[0], r[1], r[2]], r[3], w.room);
    assert [] + [r[0]] == [r[0]] && [r[0]] + [r[1]] == [r[0], r[1]];
    assert [r[0], r[1]] + [r[2]] == [r[0], r[1], r[2]] && [r[0], r[1], r[2]] + [r[3]] == r;
    assert BroadcastCount(es, [], w.room) == 0 by { NoBroadcasts(es, w.room); }
  }

  lemma NoBroadcasts(es: seq<NetEvent>, room: RoomId)
    ensures BroadcastCount(es, [], room) == 0
  {
  }

  // ----- the room

  lemma LoneRoom(net: Net, w: World, x: Side)
    requires Lone(net, w, x) && w.Proper() && x.seen == |x.log|
    ensures Roll(net, w.room, [2]) && CaughtUp(net, [2]) && CleanMembers(net, [2])
  {
    hide JoinFieldsOk;
    var r := LoneRooms(w)[w.room];
    forall u | Registered(net.server, w.room, u) ensures HandleSock(net.server, w.room, u) == 2 {
      assert u in r && u == w.b.userId;
    }
    assert Clean(net, w.Id(2));
  }

  /** Its one entry for a larger id is that of the one who is gone. */
  lemma HasGhost(net: Net, w: World, x: Side, n: nat)
    requires Lone(net, w, x) && StayerSmaller(w)
    requires x.mesh.peers == map[w.a.userId := Dialing(n)] && x.mesh.me == w.b.userId
    ensures !NoGhosts(net, [2]) && Sum(EntryCounts(net, [2])) == 1
  {
    hide JoinFieldsOk;
    var m := net.peers[2].mesh;
    assert LargerEntries(m) == {w.a.userId};
    assert Users(net, [2]) == [w.b.userId];
    assert w.a.userId in LargerEntries(m) && w.a.userId !in (set u | u in Users(net, [2]));
    assert EntryCounts(net, [2]) == [1];
    SumOfOne(1);
  }

  lemma SumOfOne(n: nat)
    ensures Sum([n]) == n
  {
    assert [n][..0] == [];
  }

  /** Nothing is lost, no call fails, and the member is alone in its room, where
      there is no pair to make an offer: a rekey makes it offer once more, to the
      one that has left. */
  lemma {:induction false} RekeyOffersToGhost(w: World) returns (es: seq<NetEvent>, more: seq<NetEvent>)
    requires StayerSmaller(w)
    ensures Roll(NetRun(es), w.room, [2]) && CaughtUp(NetRun(es), [2])
    ensures var net' := NetRun(es + more); Roll(net', w.room, [2]) && CaughtUp(net', [2]) && CleanMembers(net', [2])
    ensures Undisturbed(NetRun(es), NetRun(es + more), [2])
    ensures BroadcastCount(es, more, w.room) == 1 && !NoGhosts(NetRun(es), [2])
    ensures RoomOffers(NetRun(es + more), [2]) == RoomOffers(NetRun(es), [2]) + 1
  {
    hide NetRun, NetStep, Lone, JoinFieldsOk, BroadcastCount, Roll, CaughtUp, CleanMembers, NoGhosts, RoomOffers;
    es := Haunting(w);
    more := OneRekey(w);
    var past, log := [TwoClients.JoinFrame(w, 2), Lost(w, 0)], Misled(w).log;
    var x, x' := Haunted(w, 0, past, log), Rekeyed(w, past, log);
    RekeyHaunts(es, w, past, log);
    OneBroadcast(es, w);
    LoneRoom(NetRun(es), w, x);
    LoneRoom(NetRun(es + more), w, x');
    HasGhost(NetRun(es), w, x, 0);
    OnlyRekeyed(NetRun(es), NetRun(es + more), w, x, x');
    RekeyOffersOnePerPairIff(es, more, w.room, [2]);
  }

  lemma OnlyRekeyed(net: Net, net': Net, w: World, x: Side, x': Side)
    requires Lone(net, w, x) && Lone(net', w, x') && x'.log == x.log + [ServerMsg.Rekey(w.b.name)]
    ensures Undisturbed(net, net', [2])
  {
    assert News(net, net', 2) == [ServerMsg.Rekey(w.b.name)];
  }
}
