// What the entries of a mesh are, told from the events alone: the candidates that
// arrived for each PeerConnection, the description it has applied and the one it
// has sent; and, call by call, when an operation makes an entry or sends something.

module MeshHistory {
  import opened Wire
  import opened Mesh

  /** The peer's entry is the one it had before the last event. */
  predicate Kept(me: UserId, es: seq<MeshEvent>, p: UserId)
    requires es != []
  {
    var m, m' := Run(me, es[..|es| - 1]), Run(me, es);
    p in m.peers && p in m'.peers && m'.peers[p].id == m.peers[p].id
  }

  /** The candidates that have come in for the peer's entry since it was made. */
  function Arrived(me: UserId, es: seq<MeshEvent>, p: UserId): seq<Candidate> {
    if es == [] || !Kept(me, es, p) then []
    else
      var e := es[|es| - 1];
      Arrived(me, es[..|es| - 1], p) + (if e.IceIn? && e.from == p then [e.cand] else [])
  }

  /** The description of the peer that the event applies, if the calls succeed. */
  function AppliedBy(e: MeshEvent, p: UserId): Option<Sdp> {
    match e
    case OfferIn(from, sdp, lib) =>
      if from == p && ParseOffer !in lib.fails && SetRemoteOffer !in lib.fails then Some(sdp) else None
    case AnswerIn(from, sdp, lib) =>
      if from == p && ParseAnswer !in lib.fails && SetRemoteAnswer !in lib.fails then Some(sdp) else None
    case _ => None
  }

  /** The description that was last applied to the peer's entry. */
  function Applied(me: UserId, es: seq<MeshEvent>, p: UserId): Option<Sdp> {
    if es == [] then None
    else if AppliedBy(es[|es| - 1], p).Some? then AppliedBy(es[|es| - 1], p)
    else if Kept(me, es, p) then Applied(me, es[..|es| - 1], p)
    else None
  }

  // ----- what each operation does to an entry

  /** The peer's entry is as it was, but for its local side, or is a new one. */
  predicate Evolves(m: MeshState, m': MeshState, p: UserId) {
    && m.next <= m'.next
    && (p in m.peers ==> m.peers[p].id < m.next)
    && (p in m'.peers ==>
          && m'.peers[p].id < m'.next
          && if p in m.peers && m'.peers[p].id == m.peers[p].id
             then m'.peers[p].received == m.peers[p].received && m'.peers[p].remote == m.peers[p].remote
             else m'.peers[p].id >= m.next && m'.peers[p].received == [] && m'.peers[p].remote == None)
  }

  lemma EvolvesChain(a: MeshState, b: MeshState, c: MeshState, p: UserId)
    requires Evolves(a, b, p) && Evolves(b, c, p)
    ensures Evolves(a, c, p)
  {
  }

  lemma OnPeerEvolves(m: MeshState, q: UserId, lib: Lib, p: UserId)
    requires p in m.peers ==> m.peers[p].id < m.next
    ensures Evolves(m, OnPeer(m, q, lib).m, p)
  {
  }

  lemma {:induction false} RekeyEvolves(m: MeshState, order: seq<UserId>, libs: map<UserId, Lib>, p: UserId)
    requires p in m.peers ==> m.peers[p].id < m.next
    ensures Evolves(m, Mesh.Rekey(m, order, libs).m, p)
    decreases |order|
  {
    hide OnPeer, LibFor;
    if order != [] {
      var q, lib := order[0], LibFor(libs, order[0]);
      var r := RekeyOne(m, q, lib);
      OnPeerEvolves(OnLeft(m, q), q, lib, p);
      assert Evolves(m, r.m, p) by { EvolvesChain(m, OnLeft(m, q), OnPeer(OnLeft(m, q), q, lib).m, p); }
      if r.ok {
        RekeyEvolves(r.m, order[1..], libs, p);
        EvolvesChain(m, r.m, Mesh.Rekey(r.m, order[1..], libs).m, p);
      }
    }
  }

  lemma OfferTells(m: MeshState, q: UserId, sdp: Sdp, lib: Lib, p: UserId)
    requires p in m.peers ==> m.peers[p].id < m.next
    ensures var m' := OnOffer(m, q, sdp, lib).m;
            && m.next <= m'.next
            && (p in m'.peers ==>
                  && m'.peers[p].id < m'.next
                  && var pc, same := m'.peers[p], p in m.peers && m'.peers[p].id == m.peers[p].id;
                     && pc.received == (if same then m.peers[p].received else [])
                     && pc.remote ==
                        (if p == q && ParseOffer !in lib.fails && SetRemoteOffer !in lib.fails then Some(sdp)
                         else if same then m.peers[p].remote else None))
  {
  }

  /** One event more, for an entry that has been told of so far. */
  lemma EventTells(m: MeshState, e: MeshEvent, p: UserId)
    requires p in m.peers ==> m.peers[p].id < m.next
    ensures var m' := Step(m, e);
            && m.next <= m'.next
            && (p in m'.peers ==>
                  && m'.peers[p].id < m'.next
                  && var pc, same := m'.peers[p], p in m.peers && m'.peers[p].id == m.peers[p].id;
                     && pc.received == (if !same then [] else if e.IceIn? && e.from == p
                                        then m.peers[p].received + [e.cand] else m.peers[p].received)
                     && pc.remote == (if AppliedBy(e, p).Some? then AppliedBy(e, p)
                                      else if same then m.peers[p].remote else None))
  {
    hide OnPeer, OnOffer, Mesh.Rekey;
    match e
    case PeerSeen(q, lib) => OnPeerEvolves(m, q, lib, p);
    case OfferIn(q, sdp, lib) => OfferTells(m, q, sdp, lib, p);
    case RekeyAll(order, libs) => RekeyEvolves(m, order, libs, p);
    case _ =>
  }

  /** In every run, whichever calls fail: an entry has received exactly the
      candidates that arrived for it, and its remote description is the one that
      was last applied to it. */
  lemma {:induction false} EntryHistory(me: UserId, es: seq<MeshEvent>, p: UserId)
    ensures var m := Run(me, es);
            p in m.peers ==>
              && m.peers[p].id < m.next && m.peers[p].received == Arrived(me, es, p)
              && m.peers[p].remote == Applied(me, es, p)
    decreases |es|
  {
    hide Step, AppliedBy;
    if es != [] {
      EntryHistory(me, es[..|es| - 1], p);
      EventTells(Run(me, es[..|es| - 1]), es[|es| - 1], p);
      assert Arrived(me, es[..|es| - 1], p) + [] == Arrived(me, es[..|es| - 1], p);
    }
  }

  /** In every run the library has been handed exactly the candidates that arrived
      for a PeerConnection and that parse, in order, once a description has been
      applied to it. Before that all of them are queued, and none is handed over. */
  lemma {:induction false} IceQueueExact(me: UserId, es: seq<MeshEvent>, p: UserId)
    requires p in Run(me, es).peers
    ensures var pc, arrived := Run(me, es).peers[p], Arrived(me, es, p);
            && pc.remoteSet == Applied(me, es, p).Some?
            && (if Applied(me, es, p).Some? then pc.handed == Parseable(arrived) && pc.pending == []
                else pc.handed == [] && pc.pending == arrived)
  {
    hide Run, Arrived, Applied;
    QueuesInOrder(me, es);
    EntryHistory(me, es, p);
    assert IceOk(Run(me, es).peers[p]);
    NoneParseable();
    var handed := Run(me, es).peers[p].handed;
    assert handed + [] == handed;
  }

  /** An offer that replaces an entry, whatever fails meanwhile, finds every
      candidate that arrived for it handed over, and closes it. */
  lemma {:induction false} ReplacementLosesNoCandidate(me: UserId, es: seq<MeshEvent>, from: UserId, sdp: Sdp, lib: Lib)
    requires from in Run(me, es).peers
    ensures var old', new' := Run(me, es).peers[from], OnOffer(Run(me, es), from, sdp, lib).m;
            (from !in new'.peers || new'.peers[from].id != old'.id) ==>
              old'.pending == [] && old'.handed == Parseable(Arrived(me, es, from)) && old'.id in new'.closed
  {
    hide Run, Arrived, Applied;
    IceQueueExact(me, es, from);
  }

  // ----- what has been sent

  /** The last offer or answer in `ms` that the PeerConnection sent to the peer. */
  function LastFrom(ms: seq<ClientMsg>, p: UserId, pc: nat): Option<Sdp> {
    if ms == [] then None
    else
      var m := ms[|ms| - 1];
      if (m.Offer? || m.Answer?) && m.to == p && m.sdp.pc == pc then Some(m.sdp)
      else LastFrom(ms[..|ms| - 1], p, pc)
  }

  /** Only PeerConnections made so far have sent something. */
  predicate SentBefore(ms: seq<ClientMsg>, next: nat) {
    forall i :: 0 <= i < |ms| && (ms[i].Offer? || ms[i].Answer?) ==> ms[i].sdp.pc < next
  }

  lemma {:induction false} NothingFrom(ms: seq<ClientMsg>, p: UserId, next: nat)
    requires SentBefore(ms, next)
    ensures forall pc: nat :: pc >= next ==> LastFrom(ms, p, pc) == None
  {
    if ms != [] { NothingFrom(ms[..|ms| - 1], p, next); }
  }

  /** Every entry's local description is the last one it sent. */
  ghost predicate Spoken(m: MeshState) {
    && SentBefore(m.out, m.next)
    && (forall p :: p in m.peers ==>
          m.peers[p].id < m.next && m.peers[p].local == LastFrom(m.out, p, m.peers[p].id))
  }

  lemma SpokenEnsure(m: MeshState, p: UserId, lib: Lib)
    requires Spoken(m)
    ensures Spoken(Ensure(m, p, lib).m)
  {
    NothingFrom(m.out, p, m.next);
  }

  /** One description more, sent as it becomes the local one. */
  lemma SpokenSend(m: MeshState, p: UserId, pc: Pc, msg: ClientMsg)
    requires Spoken(m) && p in m.peers && pc.id == m.peers[p].id
    requires (msg.Offer? || msg.Answer?) && msg.to == p && msg.sdp.pc == pc.id && pc.local == Some(msg.sdp)
    ensures Spoken(Put(m, p, pc).(out := m.out + [msg]))
  {
    var m' := Put(m, p, pc).(out := m.out + [msg]);
    assert m'.out[..|m.out|] == m.out;
    forall q | q in m'.peers ensures m'.peers[q].local == LastFrom(m'.out, q, m'.peers[q].id) {
      if q != p { assert LastFrom(m'.out, q, m.peers[q].id) == LastFrom(m.out, q, m.peers[q].id); }
    }
  }

  lemma SpokenOnPeer(m: MeshState, p: UserId, lib: Lib)
    requires Spoken(m)
    ensures Spoken(OnPeer(m, p, lib).m)
  {
    hide Spoken;
    SpokenEnsure(m, p, lib);
    var r := Ensure(m, p, lib);
    if r.ok && Less(m.me, p) && {DataChannel, CreateOffer, SetLocalOffer} * lib.fails == {} {
      var sdp := Sdp(r.m.peers[p].id, None, lib.len);
      SpokenSend(r.m, p, r.m.peers[p].(local := Some(sdp), outstanding := true), ClientMsg.Offer(p, sdp));
    }
  }

  lemma SpokenLeft(m: MeshState, p: UserId)
    requires Spoken(m)
    ensures Spoken(OnLeft(m, p))
  {
  }

  /** A change that leaves number and local description alone. */
  lemma SpokenPut(m: MeshState, p: UserId, pc: Pc)
    requires Spoken(m) && p in m.peers && pc.id == m.peers[p].id && pc.local == m.peers[p].local
    ensures Spoken(Put(m, p, pc))
  {
  }

  lemma SpokenOnOffer(m: MeshState, p: UserId, sdp: Sdp, lib: Lib)
    requires Spoken(m)
    ensures Spoken(OnOffer(m, p, sdp, lib).m)
  {
    hide Spoken, Accept;
    var m1 := if p in m.peers && m.peers[p].remoteSet then OnLeft(m, p) else m;
    SpokenLeft(m, p);
    SpokenEnsure(m1, p, lib);
    var r := Ensure(m1, p, lib);
    if r.ok { SpokenAccept(r.m, p, sdp, lib); }
  }

  lemma SpokenAccept(m: MeshState, p: UserId, sdp: Sdp, lib: Lib)
    requires Spoken(m) && p in m.peers
    ensures Spoken(Accept(m, p, sdp, lib).m)
  {
    hide Spoken, Put;
    var pc := FlushIce(m.peers[p].(remote := Some(sdp)));
    SpokenPut(m, p, pc);
    var answer := Sdp(pc.id, Some(sdp.pc), lib.len);
    SpokenSend(m, p, pc.(local := Some(answer)), ClientMsg.Answer(p, answer));
  }

  lemma {:induction false} SpokenRekey(m: MeshState, order: seq<UserId>, libs: map<UserId, Lib>)
    requires Spoken(m)
    ensures Spoken(Mesh.Rekey(m, order, libs).m)
    decreases |order|
  {
    hide Spoken, OnPeer, OnLeft, LibFor;
    if order != [] {
      var q, lib := order[0], LibFor(libs, order[0]);
      SpokenLeft(m, q);
      SpokenOnPeer(OnLeft(m, q), q, lib);
      SpokenRekey(RekeyOne(m, q, lib).m, order[1..], libs);
    }
  }

  /** In every run, whichever calls fail: an entry's local description is the last
      offer or answer it has sent to its peer, and none if it has sent none. */
  lemma {:induction false} LocalIsLastSent(me: UserId, es: seq<MeshEvent>)
    ensures Spoken(Run(me, es))
  {
    hide Spoken, OnPeer, OnOffer, OnLeft, Mesh.Rekey, FlushIce, AddOrQueueIce;
    if es == [] {
      NothingSpoken(me);
    } else {
      LocalIsLastSent(me, es[..|es| - 1]);
      var m := Run(me, es[..|es| - 1]);
      match es[|es| - 1]
      case PeerSeen(p, lib) => SpokenOnPeer(m, p, lib);
      case OfferIn(p, sdp, lib) => SpokenOnOffer(m, p, sdp, lib);
      case AnswerIn(p, sdp, lib) => if p in m.peers { SpokenAnswer(m, p, sdp); }
      case IceIn(p, c) => if p in m.peers { SpokenIce(m, p, c); }
      case PeerGone(p) => SpokenLeft(m, p);
      case RekeyAll(order, libs) => SpokenRekey(m, order, libs);
    }
  }

  lemma NothingSpoken(me: UserId)
    ensures Spoken(NewMesh(me))
  {
  }

  lemma SpokenAnswer(m: MeshState, p: UserId, sdp: Sdp)
    requires Spoken(m) && p in m.peers
    ensures Spoken(Put(m, p, FlushIce(m.peers[p].(remote := Some(sdp), outstanding := false))))
  {
    hide Spoken;
    SpokenPut(m, p, FlushIce(m.peers[p].(remote := Some(sdp), outstanding := false)));
  }

  lemma SpokenIce(m: MeshState, p: UserId, c: Candidate)
    requires Spoken(m) && p in m.peers
    ensures Spoken(Put(m, p, AddOrQueueIce(m.peers[p], c)))
  {
    hide Spoken;
    SpokenPut(m, p, AddOrQueueIce(m.peers[p], c));
  }

  // ----- which calls it takes

  /** The calls behind a new entry, an offer, and an answer. */
  const MAKING: set<LibCall> := {NewPc, AddTrack}
  const OFFERING: set<LibCall> := {DataChannel, CreateOffer, SetLocalOffer}
  const ANSWERING: set<LibCall> := {ParseOffer, SetRemoteOffer, CreateAnswer, SetLocalAnswer}

  lemma UnionDisjoint(a: set<LibCall>, b: set<LibCall>, fails: set<LibCall>)
    ensures a + b !! fails <==> a !! fails && b !! fails
    ensures a !! fails <==> a * fails == {}
    ensures a !! fails <==> forall c :: c in a ==> c !in fails
  {
    if a * fails == {} {
      forall c | c in a ensures c !in fails { assert c !in a * fails; }
    }
  }

  lemma CallsOf(fails: set<LibCall>)
    ensures MAKING !! fails <==> NewPc !in fails && AddTrack !in fails
    ensures OFFERING !! fails <==> OFFERING * fails == {}
    ensures ANSWERING !! fails <==>
              ParseOffer !in fails && SetRemoteOffer !in fails && CreateAnswer !in fails && SetLocalAnswer !in fails
    ensures MAKING + OFFERING !! fails <==> MAKING !! fails && OFFERING !! fails
  {
    UnionDisjoint(MAKING, OFFERING, fails);
    UnionDisjoint(OFFERING, MAKING, fails);
    UnionDisjoint(ANSWERING, {}, fails);
    assert ParseOffer in ANSWERING && SetRemoteOffer in ANSWERING;
    assert CreateAnswer in ANSWERING && SetLocalAnswer in ANSWERING;
    assert NewPc in MAKING && AddTrack in MAKING;
  }

  /** Meeting a peer gives it an entry if and only if it had one or one can be made,
      and sends it an offer if and only if it then has one, its id is the larger
      one, and no call for the offer fails. No other entry is touched. */
  lemma {:induction false} OfferSentIff(m: MeshState, p: UserId, lib: Lib)
    ensures var r := OnPeer(m, p, lib);
            var offers := p in r.m.peers && Less(m.me, p) && OFFERING !! lib.fails;
            && (p in r.m.peers <==> p in m.peers || MAKING !! lib.fails)
            && (p in m.peers ==> r.m.peers[p].id == m.peers[p].id)
            && (if offers then r.m.out == m.out + [ClientMsg.Offer(p, Sdp(r.m.peers[p].id, None, lib.len))]
                else r.m.out == m.out)
            && (r.ok <==> p in r.m.peers && (Less(m.me, p) ==> offers))
            && r.m.me == m.me && r.m.peers - {p} == m.peers - {p} && r.m.closed == m.closed
  {
    CallsOf(lib.fails);
  }

  /** An offer closes an established entry, whatever fails. It leaves the peer an
      entry if and only if there was an unused one or one can be made, and is
      answered if and only if it does and no call for the answer fails. */
  lemma {:induction false} AnswerSentIff(m: MeshState, p: UserId, sdp: Sdp, lib: Lib)
    ensures var r := OnOffer(m, p, sdp, lib);
            var unused := p in m.peers && !m.peers[p].remoteSet;
            var answers := p in r.m.peers && ANSWERING !! lib.fails;
            && (p in r.m.peers <==> unused || MAKING !! lib.fails)
            && (p in r.m.peers ==> r.m.peers[p].id == if unused then m.peers[p].id else m.next)
            && r.m.closed == m.closed + (if p in m.peers && !unused then {m.peers[p].id} else {})
            && (if answers then r.m.out == m.out + [ClientMsg.Answer(p, Sdp(r.m.peers[p].id, Some(sdp.pc), lib.len))]
                else r.m.out == m.out)
            && (r.ok <==> answers) && r.m.peers - {p} == m.peers - {p}
  {
    hide FlushIce, Accept;
    assert m.closed + {} == m.closed;
    CallsOf(lib.fails);
    var m1 := if p in m.peers && m.peers[p].remoteSet then OnLeft(m, p) else m;
    var r := Ensure(m1, p, lib);
    if r.ok { AcceptAnswersIff(r.m, p, sdp, lib); }
    assert r.m.peers - {p} == m.peers - {p};
  }

  lemma AcceptAnswersIff(m: MeshState, p: UserId, sdp: Sdp, lib: Lib)
    requires p in m.peers
    ensures var r, id := Accept(m, p, sdp, lib), m.peers[p].id;
            && p in r.m.peers && r.m.peers[p].id == id && r.m.closed == m.closed && r.m.peers - {p} == m.peers - {p}
            && (r.ok <==> ANSWERING !! lib.fails)
            && (if r.ok then r.m.out == m.out + [ClientMsg.Answer(p, Sdp(id, Some(sdp.pc), lib.len))]
                else r.m.out == m.out)
  {
    CallsOf(lib.fails);
  }

  /** An answer is applied if and only if there is an entry and the calls for it
      succeed; without an entry it is dropped. */
  lemma {:induction false} AnswerAppliedIff(m: MeshState, p: UserId, sdp: Sdp, lib: Lib)
    ensures var r := OnAnswer(m, p, sdp, lib);
            && (r.ok <==> p !in m.peers || AppliedBy(AnswerIn(p, sdp, lib), p).Some?)
            && (r.m == m || (r.ok && p in m.peers))
            && (r.ok && p in m.peers ==>
                  p in r.m.peers && r.m.peers[p].remote == Some(sdp) && !r.m.peers[p].outstanding
                  && r.m.peers - {p} == m.peers - {p} && r.m.out == m.out)
  {
  }

  /** A rekey in this order fails at an id before it gets to `x`. */
  predicate FailsBefore(me: UserId, order: seq<UserId>, libs: map<UserId, Lib>, x: UserId) {
    && order != [] && order[0] != x
    && ((Less(me, order[0]) && !(MAKING + OFFERING !! LibFor(libs, order[0]).fails))
        || FailsBefore(me, order[1..], libs, x))
  }

  predicate SendsNothingTo(ms: seq<ClientMsg>, ms': seq<ClientMsg>, x: UserId) {
    ms <= ms' && forall i :: |ms| <= i < |ms'| ==> ms'[i].Offer? && ms'[i].to != x
  }

  /** A rekey goes no further than its first failure: the entry of an id it has not
      got to is left alone, and nothing is sent to it. */
  lemma {:induction false} RekeyStopsAtFailure(m: MeshState, order: seq<UserId>, libs: map<UserId, Lib>, x: UserId)
    requires FailsBefore(m.me, order, libs, x)
    ensures var r := Mesh.Rekey(m, order, libs);
            && !r.ok && SendsNothingTo(m.out, r.m.out, x)
            && (x in m.peers <==> x in r.m.peers) && (x in m.peers ==> r.m.peers[x] == m.peers[x])
    decreases |order|
  {
    hide OnPeer, LibFor;
    var q, lib := order[0], LibFor(libs, order[0]);
    var r := RekeyOne(m, q, lib);
    OfferSentIff(OnLeft(m, q), q, lib);
    CallsOf(lib.fails);
    assert x in m.peers <==> x in r.m.peers by { assert x in m.peers - {q} <==> x in r.m.peers - {q}; }
    if x in m.peers { assert (m.peers - {q})[x] == (r.m.peers - {q})[x]; }
    if r.ok { RekeyStopsAtFailure(r.m, order[1..], libs, x); }
  }
}
