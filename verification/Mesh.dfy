// The client's mesh (apps/companion-core/src/mesh.rs): one PeerConnection per
// peer, the glare rule, ICE queueing, and replacement on offer and on rekey.
// A PeerConnection is a numbered object; whether a library call fails is an
// input of the operation that makes the call.

module Mesh {
  import opened Wire

  datatype LibCall =
    | NewPc | AddTrack | DataChannel | CreateOffer | SetLocalOffer
    | ParseOffer | SetRemoteOffer | CreateAnswer | SetLocalAnswer
    | ParseAnswer | SetRemoteAnswer

  /** What the library does during one operation on one peer: the calls that
      fail, and the length of the description it makes. */
  datatype Lib = Lib(fails: set<LibCall>, len: nat)

  /** A PeerConnection with its wrapper. `handed` is what was passed to the
      library's add-candidate; `received` is every candidate that arrived. */
  datatype Pc = Pc(id: nat, local: Option<Sdp>, remote: Option<Sdp>, outstanding: bool,
                   handed: seq<Candidate>, pending: seq<Candidate>, remoteSet: bool,
                   received: seq<Candidate>)

  function FreshPc(id: nat): Pc {
    Pc(id, None, None, false, [], [], false, [])
  }

  /** `next` numbers the PeerConnections made so far; `abandoned` are those that
      a failing add-track left behind. */
  datatype MeshState = MeshState(me: UserId, peers: map<UserId, Pc>, closed: set<nat>,
                                 abandoned: set<nat>, next: nat, out: seq<ClientMsg>)

  function NewMesh(me: UserId): MeshState {
    MeshState(me, map[], {}, {}, 0, [])
  }

  /** The state after an operation, and whether it returned Ok. */
  datatype Outcome = Outcome(m: MeshState, ok: bool)

  function Parseable(cs: seq<Candidate>): seq<Candidate> {
    if cs == [] then []
    else
      var last := cs[|cs| - 1];
      Parseable(cs[..|cs| - 1]) + (if last.parses then [last] else [])
  }

  function AddOrQueueIce(pc: Pc, c: Candidate): Pc {
    var pc1 := pc.(received := pc.received + [c]);
    if pc.remoteSet then
      if c.parses then pc1.(handed := pc.handed + [c]) else pc1
    else pc1.(pending := pc.pending + [c])
  }

  function FlushIce(pc: Pc): Pc {
    pc.(remoteSet := true, handed := pc.handed + Parseable(pc.pending), pending := [])
  }

  function Put(m: MeshState, peer: UserId, pc: Pc): MeshState {
    m.(peers := m.peers[peer := pc])
  }

  /** Close the peer's PeerConnection, if there is one. */
  function OnLeft(m: MeshState, peer: UserId): MeshState {
    if peer in m.peers then m.(peers := m.peers - {peer}, closed := m.closed + {m.peers[peer].id}) else m
  }

  function Ensure(m: MeshState, peer: UserId, lib: Lib): Outcome {
    if peer in m.peers then Outcome(m, true)
    else if NewPc in lib.fails then Outcome(m, false)
    else if AddTrack in lib.fails then
      Outcome(m.(next := m.next + 1, abandoned := m.abandoned + {m.next}), false)
    else Outcome(Put(m, peer, FreshPc(m.next)).(next := m.next + 1), true)
  }

  function SendOffer(m: MeshState, peer: UserId, lib: Lib): Outcome
    requires peer in m.peers
  {
    if {DataChannel, CreateOffer, SetLocalOffer} * lib.fails != {} then Outcome(m, false)
    else
      var sdp := Sdp(m.peers[peer].id, None, lib.len);
      var pc := m.peers[peer].(local := Some(sdp), outstanding := true);
      Outcome(Put(m, peer, pc).(out := m.out + [ClientMsg.Offer(peer, sdp)]), true)
  }

  function OnPeer(m: MeshState, peer: UserId, lib: Lib): Outcome {
    var r := Ensure(m, peer, lib);
    if r.ok && Less(m.me, peer) then SendOffer(r.m, peer, lib) else r
  }

  function OnOffer(m: MeshState, from: UserId, sdp: Sdp, lib: Lib): Outcome {
    var m1 := if from in m.peers && m.peers[from].remoteSet then OnLeft(m, from) else m;
    var r := Ensure(m1, from, lib);
    if r.ok then Accept(r.m, from, sdp, lib) else r
  }

  /** Apply a remote offer to the peer's entry and answer it. */
  function Accept(m: MeshState, from: UserId, sdp: Sdp, lib: Lib): Outcome
    requires from in m.peers
  {
    if ParseOffer in lib.fails || SetRemoteOffer in lib.fails then Outcome(m, false)
    else
      var pc := FlushIce(m.peers[from].(remote := Some(sdp)));
      if CreateAnswer in lib.fails || SetLocalAnswer in lib.fails then Outcome(Put(m, from, pc), false)
      else
        var answer := Sdp(pc.id, Some(sdp.pc), lib.len);
        Outcome(Put(m, from, pc.(local := Some(answer))).(out := m.out + [ClientMsg.Answer(from, answer)]), true)
  }

  function OnAnswer(m: MeshState, from: UserId, sdp: Sdp, lib: Lib): Outcome {
    if from !in m.peers then Outcome(m, true)
    else if ParseAnswer in lib.fails || SetRemoteAnswer in lib.fails then Outcome(m, false)
    else Outcome(Put(m, from, FlushIce(m.peers[from].(remote := Some(sdp), outstanding := false))), true)
  }

  function OnIce(m: MeshState, from: UserId, c: Candidate): MeshState {
    if from in m.peers then Put(m, from, AddOrQueueIce(m.peers[from], c)) else m
  }

  function LibFor(libs: map<UserId, Lib>, peer: UserId): Lib {
    if peer in libs then libs[peer] else Lib({}, 0)
  }

  /** Re-handshake with the listed peers, up to the first failure: the smaller
      id of each pair closes, rebuilds and offers; the other side waits. */
  function Rekey(m: MeshState, order: seq<UserId>, libs: map<UserId, Lib>): Outcome
    decreases |order|
  {
    if order == [] then Outcome(m, true)
    else
      var r := RekeyOne(m, order[0], LibFor(libs, order[0]));
      if r.ok then Rekey(r.m, order[1..], libs) else r
  }

  function RekeyOne(m: MeshState, peer: UserId, lib: Lib): Outcome {
    if Less(m.me, peer) then OnPeer(OnLeft(m, peer), peer, lib) else Outcome(m, true)
  }

  /** The events a mesh sees, each with the library outcomes it meets. */
  datatype MeshEvent =
    | PeerSeen(peer: UserId, lib: Lib)
    | OfferIn(from: UserId, sdp: Sdp, lib: Lib)
    | AnswerIn(from: UserId, sdp: Sdp, lib: Lib)
    | IceIn(from: UserId, cand: Candidate)
    | PeerGone(peer: UserId)
    | RekeyAll(order: seq<UserId>, libs: map<UserId, Lib>)

  function Step(m: MeshState, e: MeshEvent): MeshState {
    match e
    case PeerSeen(p, lib) => OnPeer(m, p, lib).m
    case OfferIn(p, sdp, lib) => OnOffer(m, p, sdp, lib).m
    case AnswerIn(p, sdp, lib) => OnAnswer(m, p, sdp, lib).m
    case IceIn(p, c) => OnIce(m, p, c)
    case PeerGone(p) => OnLeft(m, p)
    case RekeyAll(order, libs) => Rekey(m, order, libs).m
  }

  function Run(me: UserId, es: seq<MeshEvent>): MeshState {
    if es == [] then NewMesh(me) else Step(Run(me, es[..|es| - 1]), es[|es| - 1])
  }

  // ----- offers go from smaller to larger ids only

  predicate OffersUp(me: UserId, ms: seq<ClientMsg>) {
    forall i :: 0 <= i < |ms| && ms[i].Offer? ==> Less(me, ms[i].to)
  }

  /** The operation kept the owner, and sent no offer to a smaller id. */
  predicate StaysUp(m: MeshState, m': MeshState) {
    m'.me == m.me && (OffersUp(m.me, m.out) ==> OffersUp(m.me, m'.out))
  }

  lemma OnPeerStaysUp(m: MeshState, p: UserId, lib: Lib)
    ensures StaysUp(m, OnPeer(m, p, lib).m)
  {
  }

  lemma OnOfferStaysUp(m: MeshState, p: UserId, sdp: Sdp, lib: Lib)
    ensures StaysUp(m, OnOffer(m, p, sdp, lib).m)
  {
    hide FlushIce;
  }

  lemma {:induction false} RekeyStaysUp(m: MeshState, order: seq<UserId>, libs: map<UserId, Lib>)
    ensures StaysUp(m, Rekey(m, order, libs).m)
    decreases |order|
  {
    hide OnPeer, LibFor;
    if order != [] {
      var p, lib := order[0], LibFor(libs, order[0]);
      OnPeerStaysUp(OnLeft(m, p), p, lib);
      RekeyStaysUp(RekeyOne(m, p, lib).m, order[1..], libs);
    }
  }

  /** In every run, whichever calls fail, a mesh offers to larger ids only. */
  lemma {:induction false} OffersGoUp(me: UserId, es: seq<MeshEvent>)
    ensures Run(me, es).me == me && OffersUp(me, Run(me, es).out)
  {
    hide OnPeer, OnOffer, Rekey, FlushIce, AddOrQueueIce;
    if es != [] {
      OffersGoUp(me, es[..|es| - 1]);
      var m := Run(me, es[..|es| - 1]);
      match es[|es| - 1]
      case PeerSeen(p, lib) => OnPeerStaysUp(m, p, lib);
      case OfferIn(p, sdp, lib) => OnOfferStaysUp(m, p, sdp, lib);
      case RekeyAll(order, libs) => RekeyStaysUp(m, order, libs);
      case _ =>
    }
  }

  // ----- every PeerConnection is open, closed or abandoned

  function Open(m: MeshState): set<nat> {
    set p | p in m.peers :: m.peers[p].id
  }

  ghost predicate Conserved(m: MeshState) {
    && (forall p, q :: p in m.peers && q in m.peers && m.peers[p].id == m.peers[q].id ==> p == q)
    && Open(m) !! m.closed && Open(m) !! m.abandoned && m.closed !! m.abandoned
    && Open(m) + m.closed + m.abandoned == Below(m.next)
  }

  /** The first `n` numbers. */
  function Below(n: nat): (r: set<nat>)
    ensures forall i: nat :: i in r <==> i < n
  {
    if n == 0 then {} else Below(n - 1) + {n - 1}
  }

  lemma ConservedLeft(m: MeshState, p: UserId)
    requires Conserved(m)
    ensures Conserved(OnLeft(m, p))
  {
    if p in m.peers {
      var m' := OnLeft(m, p);
      assert Open(m') == Open(m) - {m.peers[p].id} by {
        forall q | q in m'.peers ensures m'.peers[q].id in Open(m) - {m.peers[p].id} {
          assert m.peers[q].id in Open(m);
        }
        forall i | i in Open(m) - {m.peers[p].id} ensures i in Open(m') {
          var q :| q in m.peers && m.peers[q].id == i;
          assert q in m'.peers;
        }
      }
      assert m.peers[p].id in Open(m);
    }
  }

  lemma ConservedPut(m: MeshState, p: UserId, pc: Pc)
    requires Conserved(m) && p in m.peers && pc.id == m.peers[p].id
    ensures Conserved(Put(m, p, pc))
  {
    var m' := Put(m, p, pc);
    assert Open(m') == Open(m) by {
      forall q | q in m.peers ensures m'.peers[q].id in Open(m) && m.peers[q].id in Open(m') {
        assert m'.peers[q].id == m.peers[q].id;
      }
    }
  }

  lemma OpenBelow(m: MeshState, p: UserId)
    requires Conserved(m) && p in m.peers
    ensures m.peers[p].id < m.next
  {
    assert m.peers[p].id in Open(m);
    assert m.peers[p].id in Below(m.next);
  }

  lemma ConservedEnsure(m: MeshState, p: UserId, lib: Lib)
    requires Conserved(m)
    ensures Conserved(Ensure(m, p, lib).m)
    ensures Ensure(m, p, lib).ok ==> p in Ensure(m, p, lib).m.peers
  {
    var m' := Ensure(m, p, lib).m;
    if p !in m.peers && NewPc !in lib.fails && AddTrack !in lib.fails {
      assert Open(m') == Open(m) + {m.next} by {
        assert m'.peers[p].id == m.next;
        forall q | q in m.peers ensures m.peers[q].id in Open(m') { assert m'.peers[q].id == m.peers[q].id; }
        forall q | q in m'.peers ensures m'.peers[q].id in Open(m) + {m.next} {
          if q != p { assert m.peers[q].id in Open(m); }
        }
      }
      forall q | q in m.peers ensures m.peers[q].id != m.next { OpenBelow(m, q); }
    }
    assert m.next !in Below(m.next) && Below(m.next + 1) == Below(m.next) + {m.next};
    assert Open(m) <= Below(m.next) && m.closed <= Below(m.next) && m.abandoned <= Below(m.next);
  }

  lemma ConservedOnPeer(m: MeshState, p: UserId, lib: Lib)
    requires Conserved(m)
    ensures Conserved(OnPeer(m, p, lib).m)
  {
    ConservedEnsure(m, p, lib);
    var r := Ensure(m, p, lib);
    if r.ok && Less(m.me, p) {
      var r2 := SendOffer(r.m, p, lib);
      if r2.ok { ConservedPut(r.m, p, r2.m.peers[p]); }
    }
  }

  lemma ConservedOnOffer(m: MeshState, p: UserId, sdp: Sdp, lib: Lib)
    requires Conserved(m)
    ensures Conserved(OnOffer(m, p, sdp, lib).m)
  {
    var m1 := if p in m.peers && m.peers[p].remoteSet then OnLeft(m, p) else m;
    ConservedLeft(m, p);
    ConservedEnsure(m1, p, lib);
    var r, r' := Ensure(m1, p, lib), OnOffer(m, p, sdp, lib);
    if r.ok && ParseOffer !in lib.fails && SetRemoteOffer !in lib.fails {
      ConservedPut(r.m, p, r'.m.peers[p]);
    }
  }

  lemma {:induction false} ConservedRekey(m: MeshState, order: seq<UserId>, libs: map<UserId, Lib>)
    requires Conserved(m)
    ensures Conserved(Rekey(m, order, libs).m)
    decreases |order|
  {
    if order != [] {
      var lib := LibFor(libs, order[0]);
      ConservedLeft(m, order[0]);
      ConservedOnPeer(OnLeft(m, order[0]), order[0], lib);
      ConservedRekey(RekeyOne(m, order[0], lib).m, order[1..], libs);
    }
  }

  /** In every run, also when library calls fail, each PeerConnection ever made
      is the one entry of one peer, or closed, or was abandoned by a failing
      add-track, and never two of these. */
  lemma {:induction false} PcConservation(me: UserId, es: seq<MeshEvent>)
    ensures Conserved(Run(me, es))
  {
    hide Conserved, OnPeer, OnOffer, OnLeft, Rekey, FlushIce, AddOrQueueIce;
    if es == [] {
      NoneConserved(me);
    } else {
      PcConservation(me, es[..|es| - 1]);
      var m := Run(me, es[..|es| - 1]);
      match es[|es| - 1]
      case PeerSeen(p, lib) => ConservedOnPeer(m, p, lib);
      case OfferIn(p, sdp, lib) => ConservedOnOffer(m, p, sdp, lib);
      case AnswerIn(p, sdp, lib) =>
        if p in m.peers { SameNumber(m, p, sdp); }
      case IceIn(p, c) =>
        if p in m.peers { SameNumberIce(m, p, c); }
      case PeerGone(p) => ConservedLeft(m, p);
      case RekeyAll(order, libs) => ConservedRekey(m, order, libs);
    }
  }

  lemma SameNumber(m: MeshState, p: UserId, sdp: Sdp)
    requires Conserved(m) && p in m.peers
    ensures Conserved(Put(m, p, FlushIce(m.peers[p].(remote := Some(sdp), outstanding := false))))
  {
    hide Conserved;
    ConservedPut(m, p, FlushIce(m.peers[p].(remote := Some(sdp), outstanding := false)));
  }

  lemma SameNumberIce(m: MeshState, p: UserId, c: Candidate)
    requires Conserved(m) && p in m.peers
    ensures Conserved(Put(m, p, AddOrQueueIce(m.peers[p], c)))
  {
    hide Conserved;
    ConservedPut(m, p, AddOrQueueIce(m.peers[p], c));
  }

  lemma NoneConserved(me: UserId)
    ensures Conserved(NewMesh(me))
  {
  }

  predicate AddTrackFails(e: MeshEvent) {
    match e
    case PeerSeen(_, lib) => AddTrack in lib.fails
    case OfferIn(_, _, lib) => AddTrack in lib.fails
    case RekeyAll(_, libs) => exists p :: p in libs && AddTrack in libs[p].fails
    case _ => false
  }

  lemma {:induction false} RekeyAbandonsNothing(m: MeshState, order: seq<UserId>, libs: map<UserId, Lib>)
    requires forall p :: p in libs ==> AddTrack !in libs[p].fails
    ensures Rekey(m, order, libs).m.abandoned == m.abandoned
    decreases |order|
  {
    if order != [] {
      RekeyAbandonsNothing(RekeyOne(m, order[0], LibFor(libs, order[0])).m, order[1..], libs);
    }
  }

  /** If no add-track fails, every PeerConnection ever made is open as one
      peer's entry or has been closed, and not both. */
  lemma {:induction false} OpenOrClosed(me: UserId, es: seq<MeshEvent>)
    requires forall i :: 0 <= i < |es| ==> !AddTrackFails(es[i])
    ensures var m := Run(me, es);
            && (forall i: nat :: i < m.next <==> i in Open(m) || i in m.closed)
            && Open(m) !! m.closed
            && (forall p, q :: p in m.peers && q in m.peers && m.peers[p].id == m.peers[q].id ==> p == q)
  {
    PcConservation(me, es);
    NothingAbandoned(me, es);
    var m := Run(me, es);
    forall i: nat ensures i < m.next <==> i in Open(m) || i in m.closed {
      assert i in Below(m.next) <==> i in Open(m) + m.closed + m.abandoned;
    }
  }

  lemma {:induction false} NothingAbandoned(me: UserId, es: seq<MeshEvent>)
    requires forall i :: 0 <= i < |es| ==> !AddTrackFails(es[i])
    ensures Run(me, es).abandoned == {}
  {
    if es != [] {
      NothingAbandoned(me, es[..|es| - 1]);
      var e := es[|es| - 1];
      if e.RekeyAll? { RekeyAbandonsNothing(Run(me, es[..|es| - 1]), e.order, e.libs); }
    }
  }

  // ----- the ICE queue

  /** What the library got, then what is still queued, is exactly what arrived,
      in order and without what does not parse; nothing is handed over early,
      and nothing stays queued once the remote description is set. */
  ghost predicate IceOk(pc: Pc) {
    && pc.handed + Parseable(pc.pending) == Parseable(pc.received)
    && (!pc.remoteSet ==> pc.handed == [] && pc.pending == pc.received)
    && (pc.remoteSet ==> pc.pending == [])
    && (pc.remoteSet <==> pc.remote.Some?)
  }

  ghost predicate AllIceOk(m: MeshState) {
    forall p :: p in m.peers ==> IceOk(m.peers[p])
  }

  lemma NoneParseable()
    ensures Parseable([]) == []
  {
  }

  lemma ParseableSnoc(cs: seq<Candidate>, c: Candidate)
    ensures Parseable(cs + [c]) == Parseable(cs) + (if c.parses then [c] else [])
  {
    assert (cs + [c])[..|cs|] == cs;
  }

  lemma IceOkAdd(pc: Pc, c: Candidate)
    requires IceOk(pc)
    ensures IceOk(AddOrQueueIce(pc, c))
  {
    ParseableSnoc(pc.received, c);
    ParseableSnoc(pc.pending, c);
  }

  lemma IceOkFlush(pc: Pc, sdp: Sdp)
    requires IceOk(pc)
    ensures IceOk(FlushIce(pc.(remote := Some(sdp))))
  {
  }

  lemma IceOkAnswered(pc: Pc, sdp: Sdp)
    requires IceOk(pc)
    ensures IceOk(FlushIce(pc.(remote := Some(sdp), outstanding := false)))
  {
    IceOkFlush(pc.(outstanding := false), sdp);
  }

  lemma IceOkOnPeer(m: MeshState, p: UserId, lib: Lib)
    requires AllIceOk(m)
    ensures AllIceOk(OnPeer(m, p, lib).m)
  {
    var r := Ensure(m, p, lib);
    assert AllIceOk(r.m);
    if r.ok && Less(m.me, p) {
      var r2 := SendOffer(r.m, p, lib);
      assert r2.ok ==> IceOk(r2.m.peers[p]);
    }
  }

  lemma IceOkOnOffer(m: MeshState, p: UserId, sdp: Sdp, lib: Lib)
    requires AllIceOk(m)
    ensures AllIceOk(OnOffer(m, p, sdp, lib).m)
  {
    hide Parseable;
    var m1 := if p in m.peers && m.peers[p].remoteSet then OnLeft(m, p) else m;
    var r := Ensure(m1, p, lib);
    assert AllIceOk(m1);
    assert AllIceOk(r.m);
    if r.ok {
      IceOkFlush(r.m.peers[p], sdp);
      var pc := FlushIce(r.m.peers[p].(remote := Some(sdp)));
      assert IceOk(pc.(local := Some(Sdp(pc.id, Some(sdp.pc), lib.len))));
    }
  }

  lemma {:induction false} IceOkRekey(m: MeshState, order: seq<UserId>, libs: map<UserId, Lib>)
    requires AllIceOk(m)
    ensures AllIceOk(Rekey(m, order, libs).m)
    decreases |order|
  {
    if order != [] {
      var lib := LibFor(libs, order[0]);
      assert AllIceOk(OnLeft(m, order[0]));
      IceOkOnPeer(OnLeft(m, order[0]), order[0], lib);
      IceOkRekey(RekeyOne(m, order[0], lib).m, order[1..], libs);
    }
  }

  /** In every run the queue of every live PeerConnection is exact. */
  lemma {:induction false} QueuesInOrder(me: UserId, es: seq<MeshEvent>)
    ensures AllIceOk(Run(me, es))
  {
    hide Parseable, IceOk, OnPeer, OnOffer, Rekey, FlushIce, AddOrQueueIce;
    if es != [] {
      QueuesInOrder(me, es[..|es| - 1]);
      var m, e := Run(me, es[..|es| - 1]), es[|es| - 1];
      match e
      case PeerSeen(p, lib) => IceOkOnPeer(m, p, lib);
      case OfferIn(p, sdp, lib) => IceOkOnOffer(m, p, sdp, lib);
      case AnswerIn(p, sdp, lib) => if p in m.peers { IceOkAnswered(m.peers[p], sdp); }
      case IceIn(p, c) => if p in m.peers { IceOkAdd(m.peers[p], c); }
      case PeerGone(p) =>
      case RekeyAll(order, libs) => IceOkRekey(m, order, libs);
    }
  }
}
