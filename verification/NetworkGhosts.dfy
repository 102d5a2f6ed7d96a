// All the offers a rekey makes: one per entry for a larger id, so n(n-1)/2 in a
// room of n if and only if no member has an entry left of somebody who is gone.

module NetworkGhosts {
  import opened Wire
  import opened RosterView
  import opened Rooms
  import opened Client
  import opened Links
  import opened Network
  import opened NetworkInvariant
  import opened NetworkTheorems
  import opened NetworkGlare
  import opened Counting
  import opened NetworkCounting
  import opened NetworkRekeys
  import M = Mesh

  /** The larger ids the mesh has entries for. */
  function LargerEntries(m: M.MeshState): set<UserId> {
    set x | x in m.peers && Less(m.me, x)
  }

  /** From `m` to `m'` the mesh made `n` offers, and has entries for the same
      larger ids. */
  predicate Offered(m: M.MeshState, m': M.MeshState, n: nat) {
    Extends(m, m') && LargerEntries(m') == LargerEntries(m) && OfferCount(Sent(m, m')) == n
  }

  // ----- one message

  lemma NoneOffered(m: M.MeshState, m': M.MeshState)
    requires Extends(m, m') && LargerEntries(m') == LargerEntries(m)
    requires m'.out == m.out || exists p, sdp :: m'.out == m.out + [ClientMsg.Answer(p, sdp)]
    ensures Offered(m, m', 0)
  {
    if m'.out == m.out {
      assert Sent(m, m') == [];
    } else {
      var p, sdp :| m'.out == m.out + [ClientMsg.Answer(p, sdp)];
      assert Sent(m, m') == [ClientMsg.Answer(p, sdp)];
      OfferCountOne(ClientMsg.Answer(p, sdp));
    }
  }

  lemma RekeyOneOffers(m: M.MeshState, p: UserId, lib: M.Lib)
    requires Benign(lib) && p in m.peers
    ensures var r := M.RekeyOne(m, p, lib);
            r.ok && r.m.peers.Keys == m.peers.Keys && Offered(m, r.m, if Less(m.me, p) then 1 else 0)
  {
    var r := M.RekeyOne(m, p, lib);
    if Less(m.me, p) {
      OnPeerMeets(M.OnLeft(m, p), p, lib);
      assert Connects(lib);
      assert r.m.peers.Keys == m.peers.Keys;
      var sdp := Sdp(m.next, None, lib.len);
      assert Sent(m, r.m) == [ClientMsg.Offer(p, sdp)];
      OfferCountOne(ClientMsg.Offer(p, sdp));
    } else {
      NoneOffered(m, m);
    }
  }

  /** A rekey makes one offer for each listed larger id. */
  lemma {:induction false} RekeyOffersEach(m: M.MeshState, order: seq<UserId>, libs: map<UserId, M.Lib>)
    requires AllBenign(libs) && forall i :: 0 <= i < |order| ==> order[i] in m.peers
    ensures Offered(m, M.Rekey(m, order, libs).m, Larger(order, m.me))
    decreases |order|
  {
    hide Larger, OfferCount;
    if order == [] {
      NoneOffered(m, m);
      assert Larger(order, m.me) == 0 by { LargerOfNone(m.me); }
    } else {
      var p, rest := order[0], order[1..];
      var lib := M.LibFor(libs, p);
      RekeyOneOffers(m, p, lib);
      var m1 := M.RekeyOne(m, p, lib).m;
      RekeyOffersEach(m1, rest, libs);
      LargerHead(order, m.me);
      var m2 := M.Rekey(m1, rest, libs).m;
      assert Sent(m, m2) == Sent(m, m1) + Sent(m1, m2);
      OfferCountAppend(Sent(m, m1), Sent(m1, m2));
    }
  }

  lemma LargerOfNone(u: UserId)
    ensures Larger([], u) == 0
  {
  }

  /** A rekey makes one offer for each entry of a larger id. */
  lemma RekeyOffersAll(m: M.MeshState, order: seq<UserId>, libs: map<UserId, M.Lib>)
    requires AllBenign(libs) && Distinct(order) && forall x :: x in order <==> x in m.peers
    ensures Offered(m, M.Rekey(m, order, libs).m, |LargerEntries(m)|)
  {
    RekeyOffersEach(m, order, libs);
    LargerIsSize(order, m.me);
    assert LargerIn(order, m.me) == LargerEntries(m);
  }

  /** No other message that is not about membership makes an offer. */
  lemma OthersOfferNone(m: M.MeshState, msg: ServerMsg, order: seq<UserId>, libs: map<UserId, M.Lib>)
    requires Neutral(msg) && !msg.Rekey? && (msg.Offer? ==> !Less(m.me, msg.from))
    ensures Offered(m, OnMessage(m, msg, order, libs), 0)
  {
    hide Offered;
    match msg
    case Offer(from, sdp) => AnsweringOffersNone(m, from, sdp, M.LibFor(libs, from));
    case Answer(from, sdp) => NoneOffered(m, M.OnAnswer(m, from, sdp, M.LibFor(libs, from)).m);
    case Ice(from, c) => NoneOffered(m, M.OnIce(m, from, c));
    case _ => NoneOffered(m, m);
  }

  lemma AnsweringOffersNone(m: M.MeshState, from: UserId, sdp: Sdp, lib: M.Lib)
    requires !Less(m.me, from)
    ensures Offered(m, M.OnOffer(m, from, sdp, lib).m, 0)
  {
    hide Offered, M.Accept;
    var m1 := if from in m.peers && m.peers[from].remoteSet then M.OnLeft(m, from) else m;
    var r := M.Ensure(m1, from, lib);
    assert LargerEntries(m1) == LargerEntries(m) && LargerEntries(r.m) == LargerEntries(m);
    if r.ok { AcceptKeepsEntries(r.m, from, sdp, lib); }
    NoneOffered(m, M.OnOffer(m, from, sdp, lib).m);
  }

  lemma AcceptKeepsEntries(m: M.MeshState, from: UserId, sdp: Sdp, lib: M.Lib)
    requires from in m.peers
    ensures var m' := M.Accept(m, from, sdp, lib).m;
            && Extends(m, m') && LargerEntries(m') == LargerEntries(m)
            && (m'.out == m.out || exists p, sdp :: m'.out == m.out + [ClientMsg.Answer(p, sdp)])
  {
    hide M.FlushIce;
    var m' := M.Accept(m, from, sdp, lib).m;
    if m'.out != m.out {
      assert m'.out == m.out + [ClientMsg.Answer(from, m'.peers[from].local.value)];
    }
  }

  // ----- any stretch of a run

  /** What the client has handled between two states. */
  function HandledSince(net: Net, net': Net, s: SockId): seq<ServerMsg>
    requires s in net.peers && s in net.server.socks && s in net'.peers && s in net'.server.socks
  {
    var a, b := LocalOf(net, s).seen, LocalOf(net', s).seen;
    if |a| <= |b| then b[|a|..] else []
  }

  /** From one state to the other the client has offered once per entry for a
      larger id with every rekey it handled, and has the same such entries. */
  predicate OfferedPerRekey(net: Net, net': Net, s: SockId)
    requires s in net.peers && s in net.server.socks && s in net'.peers && s in net'.server.socks
  {
    && LargerEntries(net'.peers[s].mesh) == LargerEntries(net.peers[s].mesh)
    && OfferCount(Uplink(net', s)) ==
       OfferCount(Uplink(net, s)) + Times(Rekeys(HandledSince(net, net', s)), |LargerEntries(net.peers[s].mesh)|)
  }

  lemma NothingHandled(net: Net, net': Net, s: SockId)
    requires s in net.peers && s in net.server.socks && s in net'.peers && s in net'.server.socks
    requires LocalOf(net', s).seen == LocalOf(net, s).seen
    requires LargerEntries(net'.peers[s].mesh) == LargerEntries(net.peers[s].mesh)
    requires OfferCount(Uplink(net', s)) == OfferCount(Uplink(net, s))
    ensures OfferedPerRekey(net, net', s)
  {
    assert HandledSince(net, net', s) == [];
  }

  ghost predicate OffersFromBelow(net: Net, s: SockId)
    requires s in net.peers && s in net.server.socks
  {
    forall i :: 0 <= i < |Log(net, s)| && Log(net, s)[i].Offer? ==> Less(Log(net, s)[i].from, User(net, s))
  }

  lemma StepOffers(net: Net, e: NetEvent, s: SockId)
    requires Inv(net) && s in net.peers && s in net.server.socks && OffersFromBelow(net, s)
    requires Later(net, NetStep(net, e), s) && NetStep(net, e).peers[s].ill == {}
    requires AllNeutral(HandledSince(net, NetStep(net, e), s))
    ensures net.peers[s].ill == {} && OfferedPerRekey(net, NetStep(net, e), s)
  {
    hide Inv, NetStep, OfferedPerRekey, LocalOf, Uplink, OfferCount, OffersFromBelow;
    InvShape(net);
    if !Possible(net, e) {
      IdleStep(net, e);
      NothingHandled(net, net, s);
    } else if Opens(e) {
      OpenOffersNone(net, e, s);
    } else if ServerSide(e) {
      ServerKeepsUplink(net, e, s);
      SameEntries(net.peers[s].mesh, NetStep(net, e).peers[s].mesh);
      NothingHandled(net, NetStep(net, e), s);
    } else if e.Say? {
      SayOffersNone(net, e, s);
    } else {
      DeliverOffers(net, e, s);
    }
  }

  lemma SameEntries(m: M.MeshState, m': M.MeshState)
    requires m' == m.(out := m'.out)
    ensures LargerEntries(m') == LargerEntries(m)
  {
  }

  lemma OpenOffersNone(net: Net, e: NetEvent, s: SockId)
    requires Shape(net) && Possible(net, e) && Opens(e) && s in net.peers && s in net.server.socks
    ensures s in NetStep(net, e).peers && s in NetStep(net, e).server.socks
    ensures NetStep(net, e).peers[s].ill == net.peers[s].ill && OfferedPerRekey(net, NetStep(net, e), s)
  {
    hide NetStep, Possible, Shape, OfferCount, OfferedPerRekey;
    OpenNet(net, e);
    NothingHandled(net, NetStep(net, e), s);
  }

  lemma SayOffersNone(net: Net, e: NetEvent, s: SockId)
    requires Shape(net) && Possible(net, e) && e.Say? && s in net.peers && s in net.server.socks
    ensures s in NetStep(net, e).peers && s in NetStep(net, e).server.socks
    ensures NetStep(net, e).peers[s].ill == net.peers[s].ill && OfferedPerRekey(net, NetStep(net, e), s)
  {
    hide NetStep, Possible, Shape, OfferCount, OfferedPerRekey, Inserted;
    SayNet(net, e);
    if s == e.s {
      InsertedOffers(net.server.socks[s].submitted, net.peers[s].mesh.out, e.m, e.at);
      SameEntries(net.peers[s].mesh, NetStep(net, e).peers[s].mesh);
    }
    NothingHandled(net, NetStep(net, e), s);
  }

  lemma InsertedOffers(past: seq<ClientMsg>, out: seq<ClientMsg>, m: ClientMsg, at: nat)
    requires at <= |out| && !m.Offer?
    ensures OfferCount(past + Inserted(out, m, at)) == OfferCount(past + out)
  {
    hide OfferCount;
    var before := past + out[..at];
    assert past + out == before + out[at..];
    assert past + Inserted(out, m, at) == (before + [m]) + out[at..];
    OfferCountAppend(before, out[at..]);
    OfferCountAppend(before + [m], out[at..]);
    OfferCountAppend(before, [m]);
    OfferCountOne(m);
  }

  lemma DeliverOffers(net: Net, e: NetEvent, s: SockId)
    requires Shape(net) && Possible(net, e) && e.Deliver? && s in net.peers && s in net.server.socks
    requires OffersFromBelow(net, s)
    requires Later(net, NetStep(net, e), s) && NetStep(net, e).peers[s].ill == {}
    requires AllNeutral(HandledSince(net, NetStep(net, e), s))
    ensures net.peers[s].ill == {} && OfferedPerRekey(net, NetStep(net, e), s)
  {
    hide NetStep, Shape, OfferCount, OfferedPerRekey, AllBenign, Harmed, Absorb, LocalOf, Uplink;
    ShapeOf(net, s);
    DeliverNet(net, e);
    DeliverLocal(net, e, s);
    if s != e.s {
      assert Uplink(NetStep(net, e), s) == Uplink(net, s) by { SameUplink(net, NetStep(net, e), s); }
      NothingHandled(net, NetStep(net, e), s);
    } else {
      var msg := Log(net, s)[net.peers[s].seen];
      SeenGrows(LocalOf(net, s), msg, e.order, e.libs);
      assert HandledSince(net, NetStep(net, e), s) == [msg];
      assert Neutral(HandledSince(net, NetStep(net, e), s)[0]);
      MeshOf(net, s);
      NobodyHarmed(msg, e.order, e.libs);
      MessageOffers(net.peers[s].mesh, msg, e.order, e.libs);
      AbsorbedMesh(LocalOf(net, s), msg, e.order, e.libs);
      CountedAgain(net, NetStep(net, e), s, msg);
    }
  }

  lemma SameUplink(net: Net, net': Net, s: SockId)
    requires net'.server == net.server && s in net.peers && s in net'.peers && s in net.server.socks
    requires net'.peers[s] == net.peers[s]
    ensures Uplink(net', s) == Uplink(net, s)
  {
  }

  lemma NobodyHarmed(msg: ServerMsg, order: seq<UserId>, libs: map<UserId, M.Lib>)
    requires Harmed(msg, order, libs) == {}
    ensures AllBenign(libs)
  {
    forall p | p in libs ensures Benign(libs[p]) { Unharmed(msg, order, libs, p); }
  }

  lemma MessageOffers(m: M.MeshState, msg: ServerMsg, order: seq<UserId>, libs: map<UserId, M.Lib>)
    requires AllBenign(libs) && Neutral(msg) && Distinct(order) && forall x :: x in order <==> x in m.peers
    requires msg.Offer? ==> Less(msg.from, m.me)
    ensures var m' := OnMessage(m, msg, order, Disciplined(m, msg, libs));
            Offered(m, m', if msg.Rekey? then |LargerEntries(m)| else 0)
  {
    hide Offered, OnMessage, AllBenign;
    if msg.Rekey? {
      RekeyOffersAll(m, order, libs);
      assert OnMessage(m, msg, order, libs) == M.Rekey(m, order, libs).m by { OnRekey(m, msg, order, libs); }
    } else {
      if msg.Offer? { ExactlyOneSideIsSmaller(msg.from, m.me); }
      OthersOfferNone(m, msg, order, Disciplined(m, msg, libs));
    }
  }

  lemma OnRekey(m: M.MeshState, msg: ServerMsg, order: seq<UserId>, libs: map<UserId, M.Lib>)
    requires msg.Rekey?
    ensures OnMessage(m, msg, order, libs) == M.Rekey(m, order, libs).m
  {
  }

  lemma CountedAgain(net: Net, net': Net, s: SockId, msg: ServerMsg)
    requires s in net.peers && s in net'.peers && s in net.server.socks && net'.server == net.server
    requires HandledSince(net, net', s) == [msg]
    requires Offered(net.peers[s].mesh, net'.peers[s].mesh,
                     if msg.Rekey? then |LargerEntries(net.peers[s].mesh)| else 0)
    ensures OfferedPerRekey(net, net', s)
  {
    hide OfferCount, LocalOf, LargerEntries;
    var k, m, m' := net.server.socks[s], net.peers[s].mesh, net'.peers[s].mesh;
    assert k.submitted + m'.out == (k.submitted + m.out) + Sent(m, m');
    OfferCountAppend(k.submitted + m.out, Sent(m, m'));
    RekeysOne(msg);
    assert Times(1, |LargerEntries(m)|) == |LargerEntries(m)| && Times(0, |LargerEntries(m)|) == 0;
  }

  lemma {:induction false} RunOffers(es: seq<NetEvent>, more: seq<NetEvent>, s: SockId)
    requires s in NetRun(es).peers && Later(NetRun(es), NetRun(es + more), s) && NetRun(es + more).peers[s].ill == {}
    requires AllNeutral(HandledSince(NetRun(es), NetRun(es + more), s))
    ensures OfferedPerRekey(NetRun(es), NetRun(es + more), s)
    decreases |more|
  {
    hide Inv, NetStep, OfferedPerRekey, LocalOf, Uplink, OffersFromBelow;
    if more == [] {
      assert es + more == es;
      NothingHandled(NetRun(es), NetRun(es), s);
    } else {
      var front, e := more[..|more| - 1], more[|more| - 1];
      assert (es + more)[..|es + more| - 1] == es + front;
      var net, mid, net' := NetRun(es), NetRun(es + front), NetRun(es + more);
      RunInv(es + front);
      RunKeepsHistory(es, front, s);
      StepKeepsHistory(mid, e, s);
      assert HandledSince(net, net', s) == HandledSince(net, mid, s) + HandledSince(mid, net', s);
      LogFromBelow(es + front, s);
      StepOffers(mid, e, s);
      RunOffers(es, front, s);
      OffersAddUp(net, mid, net', s);
    }
  }

  lemma LogFromBelow(es: seq<NetEvent>, s: SockId)
    requires s in NetRun(es).peers && s in NetRun(es).server.socks
    ensures OffersFromBelow(NetRun(es), s)
  {
    hide NetRun, Uplink;
    NoGlare(es, s);
  }

  lemma OffersAddUp(net: Net, mid: Net, net': Net, s: SockId)
    requires s in net.peers && s in net.server.socks && s in mid.peers && s in mid.server.socks
    requires s in net'.peers && s in net'.server.socks
    requires OfferedPerRekey(net, mid, s) && OfferedPerRekey(mid, net', s)
    requires HandledSince(net, net', s) == HandledSince(net, mid, s) + HandledSince(mid, net', s)
    ensures OfferedPerRekey(net, net', s)
  {
    hide OfferCount, Rekeys, HandledSince, Uplink, LargerEntries, Times;
    RekeysAppend(HandledSince(net, mid, s), HandledSince(mid, net', s));
    TimesAdds(Rekeys(HandledSince(net, mid, s)), Rekeys(HandledSince(mid, net', s)),
              |LargerEntries(net.peers[s].mesh)|);
  }

  lemma TimesAdds(a: nat, b: nat, n: nat)
    ensures Times(a + b, n) == Times(a, n) + Times(b, n)
  {
  }

  // ----- a room

  /** How many entries for larger ids each member has. */
  function EntryCounts(net: Net, members: seq<SockId>): seq<nat>
    requires forall i :: 0 <= i < |members| ==> members[i] in net.peers
  {
    seq(|members|, i requires 0 <= i < |members| => |LargerEntries(net.peers[members[i]].mesh)|)
  }

  /** No member has an entry for a larger id that is not a member's. */
  ghost predicate NoGhosts(net: Net, members: seq<SockId>)
    requires forall i :: 0 <= i < |members| ==> members[i] in net.peers
  {
    forall i :: 0 <= i < |members| ==> LargerEntries(net.peers[members[i]].mesh) <= set u | u in Users(net, members)
  }

  /** Nobody joined or left while the members were sent what is new, and no call of
      theirs has failed. */
  ghost predicate Undisturbed(net: Net, net': Net, members: seq<SockId>) {
    forall i :: 0 <= i < |members| ==>
      && members[i] in net.server.socks && members[i] in net'.server.socks && members[i] in net'.peers
      && AllNeutral(News(net, net', members[i])) && net'.peers[members[i]].ill == {}
  }

  lemma MemberOffers(es: seq<NetEvent>, more: seq<NetEvent>, room: RoomId, s: SockId)
    requires InRoom(NetRun(es), room, s) && UpToDate(NetRun(es), s)
    requires var net' := NetRun(es + more); InRoom(net', room, s) && UpToDate(net', s) && CleanMember(net', s)
    requires AllNeutral(News(NetRun(es), NetRun(es + more), s)) && NetRun(es + more).peers[s].ill == {}
    ensures OfferCount(Uplink(NetRun(es + more), s)) ==
            OfferCount(Uplink(NetRun(es), s))
            + Times(BroadcastCount(es, more, room), |LargerEntries(NetRun(es).peers[s].mesh)|)
  {
    hide NetRun, Inv, Clean, WellTo, OfferCount, Uplink, Rekeys, BroadcastCount, LargerEntries, Times;
    RunKeepsHistory(es, more, s);
    RunInv(es + more);
    InvShape(NetRun(es + more));
    CleanAttends(NetRun(es + more), room, s);
    RekeysAdded(es, more, room, s);
    RunOffers(es, more, s);
  }

  lemma RoomOffersAdded(es: seq<NetEvent>, more: seq<NetEvent>, room: RoomId, members: seq<SockId>)
    requires Roll(NetRun(es), room, members) && CaughtUp(NetRun(es), members)
    requires var net' := NetRun(es + more);
             Roll(net', room, members) && CaughtUp(net', members) && CleanMembers(net', members)
    requires Undisturbed(NetRun(es), NetRun(es + more), members)
    ensures RoomOffers(NetRun(es + more), members) ==
            RoomOffers(NetRun(es), members)
            + Times(BroadcastCount(es, more, room), Sum(EntryCounts(NetRun(es), members)))
  {
    hide NetRun, CleanMember, AllOffers, OfferCount, Uplink, BroadcastCount, LargerEntries, Times, Sum;
    var net, net', r := NetRun(es), NetRun(es + more), BroadcastCount(es, more, room);
    forall i | 0 <= i < |members|
      ensures OfferCount(Uplinks(net', members)[i]) ==
              OfferCount(Uplinks(net, members)[i]) + Times(r, EntryCounts(net, members)[i])
    {
      MemberOffers(es, more, room, members[i]);
    }
    GrowthBySum(Uplinks(net, members), Uplinks(net', members), EntryCounts(net, members), r);
  }

  /** A caught-up member has entries for all larger members. */
  lemma EntriesForMembers(net: Net, room: RoomId, members: seq<SockId>, i: nat)
    requires Inv(net) && AllUp(net) && Roll(net, room, members) && CaughtUp(net, members) && CleanMembers(net, members)
    requires i < |members|
    ensures var us, es := Users(net, members), LargerEntries(net.peers[members[i]].mesh);
            && Larger(us, us[i]) <= |es|
            && (|es| == Larger(us, us[i]) <==> es <= set u | u in us)
  {
    hide Inv, Clean, WellTo, AllUp;
    var s, us := members[i], Users(net, members);
    var entries, larger := LargerEntries(net.peers[s].mesh), LargerIn(us, us[i]);
    InvShape(net);
    ShapeOf(net, s);
    forall x | x in larger ensures x in entries {
      var j :| 0 <= j < |us| && us[j] == x;
      OffersMade(net, room, s, members[j]);
    }
    UsersDistinct(net, room, members);
    LargerIsSize(us, us[i]);
    SubsetSizes(larger, entries);
  }

  lemma SubsetSizes<T>(a: set<T>, b: set<T>)
    requires a <= b
    ensures |a| <= |b| && (|a| == |b| <==> b <= a)
  {
    assert b == a + (b - a);
  }

  lemma EntriesAreThePairsIff(net: Net, room: RoomId, members: seq<SockId>)
    requires Inv(net) && AllUp(net) && Roll(net, room, members) && CaughtUp(net, members) && CleanMembers(net, members)
    ensures 2 * Sum(EntryCounts(net, members)) == |members| * (|members| - 1) <==> NoGhosts(net, members)
  {
    hide Inv, AllUp, CleanMember, Larger, LargerEntries, Pairs, Sum;
    var us, sizes := Users(net, members), EntryCounts(net, members);
    forall i | 0 <= i < |members|
      ensures Larger(us, us[i]) <= sizes[i]
      ensures sizes[i] == Larger(us, us[i]) <==> LargerEntries(net.peers[members[i]].mesh) <= set u | u in us
    {
      EntriesForMembers(net, room, members, i);
    }
    UsersDistinct(net, room, members);
    PairCount(us);
    SumIsPairs(us, us, sizes);
  }

  /** While nobody joins or leaves and no call fails, rekeys broadcast in a room of
      n make n(n-1)/2 offers each if and only if no member has an entry left of somebody gone;
      otherwise they make more. Such an entry comes of a Roster that is queued
      after the notice that somebody on it has left. */
  lemma {:induction false} RekeyOffersOnePerPairIff(es: seq<NetEvent>, more: seq<NetEvent>, room: RoomId,
                                                    members: seq<SockId>)
    requires Roll(NetRun(es), room, members) && CaughtUp(NetRun(es), members)
    requires var net' := NetRun(es + more);
             Roll(net', room, members) && CaughtUp(net', members) && CleanMembers(net', members)
    requires Undisturbed(NetRun(es), NetRun(es + more), members)
    ensures RoomOffers(NetRun(es + more), members) ==
            RoomOffers(NetRun(es), members) + BroadcastCount(es, more, room) * Sum(EntryCounts(NetRun(es), members))
    ensures 2 * (RoomOffers(NetRun(es + more), members) - RoomOffers(NetRun(es), members)) ==
            BroadcastCount(es, more, room) * (|members| * (|members| - 1)) <==>
            BroadcastCount(es, more, room) == 0 || NoGhosts(NetRun(es), members)
  {
    hide NetRun, Inv, AllUp, RoomOffers, BroadcastCount, Sum, EntryCounts, NoGhosts, CleanMember;
    var net, r := NetRun(es), BroadcastCount(es, more, room);
    RoomOffersAdded(es, more, room, members);
    CleanMembersBefore(es, more, members);
    RunInv(es);
    RunGoesUp(es);
    EntriesAreThePairsIff(net, room, members);
    Halved(r, Sum(EntryCounts(net, members)), |members| * (|members| - 1));
  }

  lemma CleanMembersBefore(es: seq<NetEvent>, more: seq<NetEvent>, members: seq<SockId>)
    requires CleanMembers(NetRun(es + more), members)
    requires forall i :: 0 <= i < |members| ==> members[i] in NetRun(es).peers
    ensures CleanMembers(NetRun(es), members)
  {
    hide NetRun, CleanMember, WellToMember;
    forall i | 0 <= i < |members| ensures CleanMember(NetRun(es), members[i]) {
      CleanMemberBefore(es, more, members[i]);
    }
    forall i, j | 0 <= i < |members| && 0 <= j < |members| && i != j
      ensures WellToMember(NetRun(es), members[i], members[j])
    {
      WellToMemberBefore(es, more, members[i], members[j]);
    }
  }
}
