// Why a rekey in the middle of a negotiation leaves a pair unmatched, and why the
// next one mends it: a run of the server and two clients.

module Overlap {
  import opened Wire
  import opened Rooms
  import opened RoomsProofs
  import opened Client
  import opened Links
  import opened Network
  import opened NetworkInvariant
  import opened NetworkTheorems
  import opened NetworkGlare
  import opened NetworkCounting
  import opened TwoClients
  import M = Mesh

  // ----- a pair with nothing in transit

  /** The server has read all the client has sent, and the client has handled all
      it was sent. */
  predicate Idle(net: Net, s: SockId) {
    UpToDate(net, s) && net.peers[s].mesh.out == []
  }

  /** With nothing in transit a pair is settled, and has made an offer. */
  lemma {:induction false} IdlePairIsSettled(es: seq<NetEvent>, s: SockId, t: SockId)
    requires CleanPair(NetRun(es), s, t) && Less(User(NetRun(es), s), User(NetRun(es), t))
    requires Idle(NetRun(es), s) && Idle(NetRun(es), t)
    ensures Settled(NetRun(es), s, t)
    ensures LocalOf(NetRun(es), s).To(Offers, User(NetRun(es), t)) != []
  {
    hide NetRun, Inv, Clean, AllTo, AllFrom, Mentions, Due, AllUp;
    var net := NetRun(es);
    RunInv(es);
    RunGoesUp(es);
    AllArrived(net, t, s, Offers);
    AllArrived(net, s, t, Answers);
    OffersMade(net, net.peers[s].id.room, s, t);
    DueIffMentioned(net.server.socks[s].log, User(net, t));
  }

  lemma AllArrived(net: Net, s: SockId, t: SockId, k: Signal)
    requires Inv(net) && CleanPair(net, s, t) && Idle(net, s) && Idle(net, t)
    ensures LocalOf(net, s).From(k, User(net, t)) == LocalOf(net, t).To(k, User(net, s))
  {
    hide AllTo, AllFrom, Mentions, Due, ViewsOk, MentionsOk, LinksOk, KnownOk, Clean, Shape, Together, Linked;
    ShapeOf(net, s);
    LinkOfMember(net, s, t);
    TogetherIsLinked(net, s, User(net, t));
    assert RelayOk(net.server, s, k, User(net, t));
    HasItsHandle(net, t);
    LoneSocket(net, t, User(net, t));
    assert net.server.socks[t].submitted + [] == net.server.socks[t].submitted;
    assert LocalOf(net, s).seen == net.server.socks[s].log;
    assert net.server.socks[s].phase.Who() == Some(net.peers[s].id);
  }

  // ----- the two meshes

  function Numbered(n: nat): Sdp {
    Sdp(n, None, 0)
  }

  function Reply(n: nat): Sdp {
    Sdp(n, Some(n), 0)
  }

  /** The caller's entry while its offer is open, and once an answer is applied. */
  function Dialing(n: nat): M.Pc {
    M.FreshPc(n).(local := Some(Numbered(n)), outstanding := true)
  }

  function Connected(n: nat, answer: Sdp): M.Pc {
    Dialing(n).(remote := Some(answer), outstanding := false, remoteSet := true)
  }

  /** The callee's entry once it has answered. */
  function Replying(n: nat): M.Pc {
    M.FreshPc(n).(local := Some(Reply(n)), remote := Some(Numbered(n)), remoteSet := true)
  }

  /** A mesh with one entry, which made the latest of its `n` PeerConnections. */
  function OneEntry(me: UserId, peer: UserId, pc: M.Pc, n: nat, out: seq<ClientMsg>): M.MeshState
    requires n > 0
  {
    M.MeshState(me, map[peer := pc], M.Below(n - 1), {}, n, out)
  }

  function Next(m: M.MeshState, msg: ServerMsg, order: seq<UserId>): M.MeshState {
    OnMessage(m, msg, order, Disciplined(m, msg, map[]))
  }

  lemma MapOnce(k: UserId, x: M.Pc, y: M.Pc)
    ensures map[k := x][k := y] == map[k := y] && map[k := x] - {k} == map[]
    ensures var none: map<UserId, M.Pc> := map[]; none[k := y] == map[k := y]
  {
  }

  lemma NothingQueued(n: nat, sdp: Sdp)
    ensures M.FlushIce(M.FreshPc(n).(remote := Some(sdp))) == M.FreshPc(n).(remote := Some(sdp), remoteSet := true)
  {
    var none: seq<Candidate> := [];
    assert none + [] == none;
  }

  lemma NoneBelowZero()
    ensures M.Below(0) == {}
  {
  }

  lemma NobodyYet(me: UserId)
    ensures Next(M.NewMesh(me), Roster([]), []) == M.NewMesh(me)
  {
  }

  lemma CallerMeets(a: UserId, b: UserId, name: string)
    requires Less(a, b)
    ensures Next(Next(M.NewMesh(a), Roster([]), []), PeerJoined(b, name), []) ==
            OneEntry(a, b, Dialing(0), 1, [ClientMsg.Offer(b, Numbered(0))])
  {
    MapOnce(b, M.FreshPc(0), Dialing(0));
    NoneBelowZero();
  }

  lemma CalleeMeets(a: PeerInfo, b: UserId)
    requires Less(a.userId, b)
    ensures Next(M.NewMesh(b), Roster([a]), []) == OneEntry(b, a.userId, M.FreshPc(0), 1, [])
  {
    hide M.Below;
    ExactlyOneSideIsSmaller(a.userId, b);
    NoneBelowZero();
    var m, m1 := M.NewMesh(b), OneEntry(b, a.userId, M.FreshPc(0), 1, []);
    MapOnce(a.userId, M.FreshPc(0), M.FreshPc(0));
    assert M.OnPeer(m, a.userId, M.Lib({}, 0)).m == m1;
    assert [a][1..] == [] && MeetAll(m1, [], map[]) == m1;
    assert MeetAll(m, [a], map[]) == MeetAll(m1, [a][1..], map[]);
  }

  lemma CalleeAnswers(a: UserId, b: UserId, out: seq<ClientMsg>)
    ensures Next(OneEntry(b, a, M.FreshPc(0), 1, out), ServerMsg.Offer(a, Numbered(0)), [a]) ==
            OneEntry(b, a, Replying(0), 1, out + [ClientMsg.Answer(a, Reply(0))])
  {
    hide M.Below, M.FlushIce;
    NothingQueued(0, Numbered(0));
    MapOnce(a, M.FreshPc(0), Replying(0));
  }

  lemma CalleeAnswersAgain(a: UserId, b: UserId, n: nat, out: seq<ClientMsg>)
    ensures Next(OneEntry(b, a, Replying(n), n + 1, out), ServerMsg.Offer(a, Numbered(n + 1)), [a]) ==
            OneEntry(b, a, Replying(n + 1), n + 2, out + [ClientMsg.Answer(a, Reply(n + 1))])
  {
    hide M.FlushIce;
    NothingQueued(n + 1, Numbered(n + 1));
    var m, m' := OneEntry(b, a, Replying(n), n + 1, out), OneEntry(b, a, M.FreshPc(n + 1), n + 2, out);
    MapOnce(a, Replying(n), M.FreshPc(n + 1));
    assert M.Below(n) + {n} == M.Below(n + 1);
    assert M.Ensure(M.OnLeft(m, a), a, M.Lib({}, 0)).m == m';
    MapOnce(a, M.FreshPc(n + 1), Replying(n + 1));
  }

  lemma RekeyAlone(m: M.MeshState, p: UserId, name: string)
    requires M.RekeyOne(m, p, M.Lib({}, 0)).ok
    ensures Next(m, ServerMsg.Rekey(name), [p]) == M.RekeyOne(m, p, M.Lib({}, 0)).m
  {
    hide M.RekeyOne;
    var r := M.RekeyOne(m, p, M.Lib({}, 0));
    assert [p][1..] == [] && M.Rekey(r.m, [], map[]) == M.Outcome(r.m, true);
    assert M.Rekey(m, [p], map[]) == M.Rekey(r.m, [p][1..], map[]);
  }

  lemma CalleeWaits(a: UserId, b: UserId, pc: M.Pc, n: nat, out: seq<ClientMsg>, name: string)
    requires Less(a, b) && n > 0
    ensures Next(OneEntry(b, a, pc, n, out), ServerMsg.Rekey(name), [a]) == OneEntry(b, a, pc, n, out)
  {
    hide Next, OneEntry;
    ExactlyOneSideIsSmaller(a, b);
    RekeyAlone(OneEntry(b, a, pc, n, out), a, name);
    assert OneEntry(b, a, pc, n, out).me == b by { OwnerOf(b, a, pc, n, out); }
  }

  lemma OwnerOf(me: UserId, peer: UserId, pc: M.Pc, n: nat, out: seq<ClientMsg>)
    requires n > 0
    ensures OneEntry(me, peer, pc, n, out).me == me
  {
  }

  lemma CallerDialsAgain(a: UserId, b: UserId, pc: M.Pc, n: nat, name: string)
    requires Less(a, b) && pc.id == n
    ensures Next(OneEntry(a, b, pc, n + 1, []), ServerMsg.Rekey(name), [b]) ==
            OneEntry(a, b, Dialing(n + 1), n + 2, [ClientMsg.Offer(b, Numbered(n + 1))])
  {
    hide Next;
    var m := OneEntry(a, b, pc, n + 1, []);
    var m' := OneEntry(a, b, Dialing(n + 1), n + 2, [ClientMsg.Offer(b, Numbered(n + 1))]);
    MapOnce(b, pc, Dialing(n + 1));
    MapOnce(b, M.FreshPc(n + 1), Dialing(n + 1));
    assert M.Below(n) + {n} == M.Below(n + 1);
    assert M.RekeyOne(m, b, M.Lib({}, 0)) == M.Outcome(m', true);
    RekeyAlone(m, b, name);
  }

  /** An answer goes to the entry that is there, whichever offer it answers, and
      is refused if that has one already. */
  lemma CallerTakesAnswer(a: UserId, b: UserId, pc: M.Pc, n: nat, out: seq<ClientMsg>, answer: Sdp)
    requires n > 0 && (pc == Dialing(pc.id) || !pc.outstanding)
    ensures Next(OneEntry(a, b, pc, n, out), ServerMsg.Answer(b, answer), [b]) ==
            OneEntry(a, b, if pc.outstanding then Connected(pc.id, answer) else pc, n, out)
  {
    if pc.outstanding {
      assert M.FlushIce(pc.(remote := Some(answer), outstanding := false)) == Connected(pc.id, answer);
    }
  }

  // ----- the run

  /** The first client has the smaller id. */
  predicate Ordered(w: World) {
    w.Proper() && Less(w.a.userId, w.b.userId)
  }

  /** Both have joined and handled all they were sent, and have these meshes. */
  ghost predicate At(es: seq<NetEvent>, w: World, ma: M.MeshState, mb: M.MeshState) {
    exists x, y :: Shows(NetRun(es), w, 1, x, y) && x.Quiet() && y.Quiet() && x.mesh == ma && y.mesh == mb
  }

  lemma HaveMet(w: World) returns (es: seq<NetEvent>)
    requires Ordered(w)
    ensures At(es, w, OneEntry(w.a.userId, w.b.userId, Dialing(0), 1, [ClientMsg.Offer(w.b.userId, Numbered(0))]),
               OneEntry(w.b.userId, w.a.userId, M.FreshPc(0), 1, []))
  {
    hide NetRun, Shows, OnMessage, OneEntry, JoinFieldsOk;
    es := BothEnter(w);
    var x, y := FirstIn(w), SecondIn(w);
    es := Takes(es, w, 1, x, y, []);
    var x1 := Taking(x, []);
    NobodyYet(w.a.userId);
    es := Takes(es, w, 1, x1, y, []);
    var x2 := Taking(x1, []);
    SwapIn(es, w, 1, x2, y);
    es := Takes(es, w, 2, y, x2, []);
    SwapIn(es, w, 2, Taking(y, []), x2);
    CallerMeets(w.a.userId, w.b.userId, w.b.name);
    CalleeMeets(w.a, w.b.userId);
  }

  lemma Forth(es: seq<NetEvent>, w: World, ma: M.MeshState, mb: M.MeshState) returns (es': seq<NetEvent>)
    requires Ordered(w) && At(es, w, ma, mb) && ma.out != [] && ForOther(w, 1, ma.out[0])
    requires mb.peers.Keys == {w.a.userId}
    ensures es <= es' && At(es', w, ma.(out := ma.out[1..]), Next(mb, Relayed(w, 1, ma.out[0]), [w.a.userId]))
  {
    hide NetRun, Shows, OnMessage, JoinFieldsOk;
    var x, y :| Shows(NetRun(es), w, 1, x, y) && x.Quiet() && y.Quiet() && x.mesh == ma && y.mesh == mb;
    es' := Relay(es, w, 1, x, y, [w.a.userId]);
  }

  lemma Back(es: seq<NetEvent>, w: World, ma: M.MeshState, mb: M.MeshState) returns (es': seq<NetEvent>)
    requires Ordered(w) && At(es, w, ma, mb) && mb.out != [] && ForOther(w, 2, mb.out[0])
    requires ma.peers.Keys == {w.b.userId}
    ensures es <= es' && At(es', w, Next(ma, Relayed(w, 2, mb.out[0]), [w.b.userId]), mb.(out := mb.out[1..]))
  {
    hide NetRun, Shows, OnMessage, JoinFieldsOk;
    var x, y :| Shows(NetRun(es), w, 1, x, y) && x.Quiet() && y.Quiet() && x.mesh == ma && y.mesh == mb;
    SwapIn(es, w, 1, x, y);
    es' := Relay(es, w, 2, y, x, [w.b.userId]);
    SwapIn(es', w, 2, Served(y), Handling(x, Relayed(w, 2, mb.out[0]), [w.b.userId]));
  }

  lemma Rekeyed(es: seq<NetEvent>, w: World, ma: M.MeshState, mb: M.MeshState) returns (es': seq<NetEvent>)
    requires Ordered(w) && At(es, w, ma, mb) && ma.out == []
    requires ma.peers.Keys == {w.b.userId} && mb.peers.Keys == {w.a.userId}
    ensures var rekey := ServerMsg.Rekey(w.a.name);
            es <= es' && At(es', w, Next(ma, rekey, [w.b.userId]), Next(mb, rekey, [w.a.userId]))
  {
    hide NetRun, Shows, OnMessage, JoinFieldsOk;
    var x, y :| Shows(NetRun(es), w, 1, x, y) && x.Quiet() && y.Quiet() && x.mesh == ma && y.mesh == mb;
    es' := TwoClients.Rekey(es, w, x, y, [w.b.userId], [w.a.userId]);
  }

  function Offered(w: World, n: nat): ClientMsg {
    ClientMsg.Offer(w.b.userId, Numbered(n))
  }

  function Replied(w: World, n: nat): ClientMsg {
    ClientMsg.Answer(w.a.userId, Reply(n))
  }

  /** Both have made a second offer and a second answer before an answer is read. */
  lemma TwoOffers(w: World) returns (es: seq<NetEvent>)
    requires Ordered(w)
    ensures At(es, w, OneEntry(w.a.userId, w.b.userId, Dialing(1), 2, []),
               OneEntry(w.b.userId, w.a.userId, Replying(1), 2, [Replied(w, 0), Replied(w, 1)]))
  {
    hide NetRun, At, Next, JoinFieldsOk;
    var a, b := w.a.userId, w.b.userId;
    es := HaveMet(w);
    es := Forth(es, w, OneEntry(a, b, Dialing(0), 1, [Offered(w, 0)]), OneEntry(b, a, M.FreshPc(0), 1, []));
    CalleeAnswers(a, b, []);
    assert [Offered(w, 0)][1..] == [] && [] + [Replied(w, 0)] == [Replied(w, 0)];
    es := Rekeyed(es, w, OneEntry(a, b, Dialing(0), 1, []), OneEntry(b, a, Replying(0), 1, [Replied(w, 0)]));
    CallerDialsAgain(a, b, Dialing(0), 0, w.a.name);
    CalleeWaits(a, b, Replying(0), 1, [Replied(w, 0)], w.a.name);
    es := Forth(es, w, OneEntry(a, b, Dialing(1), 2, [Offered(w, 1)]), OneEntry(b, a, Replying(0), 1, [Replied(w, 0)]));
    CalleeAnswersAgain(a, b, 0, [Replied(w, 0)]);
    assert [Offered(w, 1)][1..] == [] && [Replied(w, 0)] + [Replied(w, 1)] == [Replied(w, 0), Replied(w, 1)];
  }

  /** A rekey while the first offer is being answered, and everything handled. */
  lemma OverlapRun(w: World) returns (es: seq<NetEvent>)
    requires Ordered(w)
    ensures At(es, w, OneEntry(w.a.userId, w.b.userId, Connected(1, Reply(0)), 2, []),
               OneEntry(w.b.userId, w.a.userId, Replying(1), 2, []))
  {
    hide NetRun, At, Next, JoinFieldsOk;
    var a, b, replies := w.a.userId, w.b.userId, [Replied(w, 0), Replied(w, 1)];
    es := TwoOffers(w);
    es := Back(es, w, OneEntry(a, b, Dialing(1), 2, []), OneEntry(b, a, Replying(1), 2, replies));
    CallerTakesAnswer(a, b, Dialing(1), 2, [], Reply(0));
    assert replies[1..] == [Replied(w, 1)];
    es := Back(es, w, OneEntry(a, b, Connected(1, Reply(0)), 2, []), OneEntry(b, a, Replying(1), 2, [Replied(w, 1)]));
    CallerTakesAnswer(a, b, Connected(1, Reply(0)), 2, [], Reply(1));
    assert [Replied(w, 1)][1..] == [];
  }

  /** One more rekey, with nothing under way. */
  lemma MendingRun(es: seq<NetEvent>, w: World) returns (es': seq<NetEvent>)
    requires Ordered(w)
    requires At(es, w, OneEntry(w.a.userId, w.b.userId, Connected(1, Reply(0)), 2, []),
                OneEntry(w.b.userId, w.a.userId, Replying(1), 2, []))
    ensures es <= es'
    ensures At(es', w, OneEntry(w.a.userId, w.b.userId, Connected(2, Reply(2)), 3, []),
               OneEntry(w.b.userId, w.a.userId, Replying(2), 3, []))
  {
    hide NetRun, At, Next, JoinFieldsOk;
    var a, b := w.a.userId, w.b.userId;
    var offer, reply := Offered(w, 2), Replied(w, 2);
    es' := Rekeyed(es, w, OneEntry(a, b, Connected(1, Reply(0)), 2, []), OneEntry(b, a, Replying(1), 2, []));
    CallerDialsAgain(a, b, Connected(1, Reply(0)), 1, w.a.name);
    CalleeWaits(a, b, Replying(1), 2, [], w.a.name);
    es' := Forth(es', w, OneEntry(a, b, Dialing(2), 3, [offer]), OneEntry(b, a, Replying(1), 2, []));
    CalleeAnswersAgain(a, b, 1, []);
    assert [offer][1..] == [] && [] + [reply] == [reply];
    es' := Back(es', w, OneEntry(a, b, Dialing(2), 3, []), OneEntry(b, a, Replying(2), 3, [reply]));
    CallerTakesAnswer(a, b, Dialing(2), 3, [], Reply(2));
    assert [reply][1..] == [];
  }

  lemma AtIsIdle(es: seq<NetEvent>, w: World, ma: M.MeshState, mb: M.MeshState)
    requires Ordered(w) && At(es, w, ma, mb) && ma.out == [] && mb.out == []
    ensures CleanPair(NetRun(es), 1, 2) && Less(User(NetRun(es), 1), User(NetRun(es), 2))
    ensures User(NetRun(es), 1) == w.a.userId && User(NetRun(es), 2) == w.b.userId
    ensures NetRun(es).peers[1].mesh == ma && NetRun(es).peers[2].mesh == mb
    ensures Idle(NetRun(es), 1) && Idle(NetRun(es), 2)
  {
    hide NetRun, JoinFieldsOk;
    ExactlyOneSideIsSmaller(w.a.userId, w.b.userId);
  }

  /** Two offers overlap: the first answer, to a PeerConnection that no longer
      exists, is applied to the new one, and the right answer is refused. Nothing
      is lost and everything has been handled, and the two ends do not match. One
      more rekey, and they do. */
  lemma {:induction false} OverlappingRekeyUnmatches(w: World) returns (es: seq<NetEvent>, more: seq<NetEvent>)
    requires Ordered(w)
    ensures CleanPair(NetRun(es), 1, 2) && Less(User(NetRun(es), 1), User(NetRun(es), 2))
    ensures Settled(NetRun(es), 1, 2) && LocalOf(NetRun(es), 1).To(Offers, User(NetRun(es), 2)) != []
    ensures !Matched(NetRun(es), 1, 2)
    ensures CleanPair(NetRun(es + more), 1, 2) && Settled(NetRun(es + more), 1, 2) && Matched(NetRun(es + more), 1, 2)
  {
    hide NetRun, At, Clean, Settled, JoinFieldsOk, AllTo, AllFrom;
    es := OverlapRun(w);
    var a, b := w.a.userId, w.b.userId;
    AtIsIdle(es, w, OneEntry(a, b, Connected(1, Reply(0)), 2, []), OneEntry(b, a, Replying(1), 2, []));
    IdlePairIsSettled(es, 1, 2);
    var all := MendingRun(es, w);
    more := all[|es|..];
    assert es + more == all;
    AtIsIdle(all, w, OneEntry(a, b, Connected(2, Reply(2)), 3, []), OneEntry(b, a, Replying(2), 3, []));
    IdlePairIsSettled(all, 1, 2);
  }
}
