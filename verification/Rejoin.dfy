// What a rejoin does to a link: the smaller id offers from the PeerConnection it
// has kept, the larger id answers on a new one, and the two ends match.

module Rejoin {
  import opened Wire
  import opened Client
  import opened Links
  import M = Mesh

  /** One offer to `x` went out, from the entry that was there, or else a new one. */
  predicate Redialed(m: M.MeshState, m': M.MeshState, x: UserId) {
    && Extends(m, m') && x in m'.peers
    && var pc := m'.peers[x];
       && pc.local.Some? && pc.local.value.pc == pc.id && pc.outstanding
       && AllTo(Offers, Sent(m, m'), x) == [pc.local.value] && AllTo(Answers, Sent(m, m'), x) == []
       && (if x in m.peers then pc == m.peers[x].(local := pc.local, outstanding := true)
           else m.next <= pc.id < m'.next)
  }

  lemma OnPeerRedials(m: M.MeshState, x: UserId, lib: M.Lib)
    requires Benign(lib) && Less(m.me, x)
    ensures Redialed(m, M.OnPeer(m, x, lib).m, x)
  {
    var r := M.Ensure(m, x, lib);
    EnsureLink(m, x, lib, x);
    SendOfferLink(r.m, x, lib, x);
    SentChain(m, r.m, M.SendOffer(r.m, x, lib).m, x);
  }

  lemma SameThenRedialed(a: M.MeshState, b: M.MeshState, c: M.MeshState, x: UserId)
    requires Same(a, b, x) && Redialed(b, c, x)
    ensures Redialed(a, c, x)
  {
    SentChain(a, b, c, x);
  }

  lemma RedialedThenSame(a: M.MeshState, b: M.MeshState, c: M.MeshState, x: UserId)
    requires Redialed(a, b, x) && Same(b, c, x)
    ensures Redialed(a, c, x)
  {
    SentChain(a, b, c, x);
  }

  lemma {:induction false} MeetAllRedials(m: M.MeshState, peers: seq<PeerInfo>, libs: map<UserId, M.Lib>, x: UserId)
    requires Benign(M.LibFor(libs, x)) && Less(m.me, x) && Listed(peers, x) == 1
    ensures Redialed(m, MeetAll(m, peers, libs), x)
    decreases |peers|
  {
    hide Redialed, Same, M.LibFor, M.OnPeer, Benign;
    if peers != [] {
      var p := peers[0].userId;
      var lib := M.LibFor(libs, p);
      var m1 := M.OnPeer(m, p, lib).m;
      ListedHead(peers, x);
      KeepsOwner(m, p, lib);
      if p == x {
        OnPeerRedials(m, x, lib);
        MeetAllLink(m1, peers[1..], libs, x);
        RedialedThenSame(m, m1, MeetAll(m1, peers[1..], libs), x);
      } else {
        OnPeerElsewhere(m, p, lib, x);
        MeetAllRedials(m1, peers[1..], libs, x);
        SameThenRedialed(m, m1, MeetAll(m1, peers[1..], libs), x);
      }
    }
  }

  lemma KeepsOwner(m: M.MeshState, p: UserId, lib: M.Lib)
    ensures M.OnPeer(m, p, lib).m.me == m.me
  {
  }

  lemma MentionRedials(m: M.MeshState, msg: ServerMsg, order: seq<UserId>, libs: map<UserId, M.Lib>, x: UserId)
    requires Less(m.me, x) && MentionsIn(msg, x) == 1 && Benign(M.LibFor(libs, x))
    ensures Redialed(m, OnMessage(m, msg, order, libs), x)
  {
    hide Redialed;
    match msg
    case Roster(peers) => MeetAllRedials(m, peers, libs, x);
    case PeerJoined(u, _) => OnPeerRedials(m, x, M.LibFor(libs, x));
    case _ =>
  }

  /** The answer the mesh made to the offer, on the unused entry if there was one,
      and else on a new one, the old one being closed. */
  predicate AnsweredOnce(m: M.MeshState, m': M.MeshState, x: UserId, offer: Sdp) {
    && Extends(m, m') && x in m'.peers
    && var pc := m'.peers[x];
       && pc.local.Some? && pc.local.value.pc == pc.id && pc.local.value.answers == Some(offer.pc)
       && pc.remote == Some(offer)
       && AllTo(Answers, Sent(m, m'), x) == [pc.local.value] && AllTo(Offers, Sent(m, m'), x) == []
       && (if x in m.peers && !m.peers[x].remoteSet then pc.id == m.peers[x].id
           else m.next <= pc.id < m'.next && (x in m.peers ==> m.peers[x].id in m'.closed))
  }

  lemma OfferIsAnswered(m: M.MeshState, x: UserId, offer: Sdp, lib: M.Lib)
    requires Benign(lib)
    ensures AnsweredOnce(m, M.OnOffer(m, x, offer, lib).m, x, offer)
  {
    OnOfferAnswers(m, x, offer, lib);
  }

  /** The same entry, but for the candidates that have come in for it. */
  predicate SameButIce(p: M.Pc, q: M.Pc) {
    q == p.(handed := q.handed, pending := q.pending, received := q.received)
  }

  lemma AnswerCompletes(m: M.MeshState, x: UserId, answer: Sdp, order: seq<UserId>, libs: map<UserId, M.Lib>)
    requires x in m.peers && m.peers[x].outstanding && Benign(M.LibFor(libs, x))
    ensures var msg := ServerMsg.Answer(x, answer);
            var m' := OnMessage(m, msg, order, Disciplined(m, msg, libs));
            && x in m'.peers && !m'.peers[x].outstanding && m'.peers[x].remote == Some(answer)
            && m'.peers[x].id == m.peers[x].id && m'.peers[x].local == m.peers[x].local
  {
  }

  /** Whatever entries two meshes have for each other: when the smaller id is told
      of the larger one, it offers once, from the entry it has if it has one; that
      is answered once, on an unused entry; and once the answer is handled the two
      match. `m1` is the first mesh by then: candidates and whatever does not
      concern the entry may have come in between. */
  lemma {:induction false} RejoinMatches(m: M.MeshState, msg: ServerMsg, order: seq<UserId>, libs: map<UserId, M.Lib>,
                                         w: M.MeshState, libsW: map<UserId, M.Lib>,
                                         m1: M.MeshState, libs1: map<UserId, M.Lib>)
    requires Less(m.me, w.me) && MentionsIn(msg, w.me) == 1
    requires Benign(M.LibFor(libs, w.me)) && Benign(M.LibFor(libsW, m.me)) && Benign(M.LibFor(libs1, w.me))
    ensures var met := OnMessage(m, msg, order, libs);
            && Redialed(m, met, w.me)
            && var offer := met.peers[w.me].local.value;
               var taken := OnMessage(w, ServerMsg.Offer(m.me, offer), [], libsW);
               && AnsweredOnce(w, taken, m.me, offer)
               && var answer := ServerMsg.Answer(w.me, taken.peers[m.me].local.value);
                  var done := OnMessage(m1, answer, [], Disciplined(m1, answer, libs1));
                  w.me in m1.peers && SameButIce(met.peers[w.me], m1.peers[w.me]) ==>
                    w.me in done.peers && Matching(done.peers[w.me], taken.peers[m.me])
  {
    hide OnMessage, Redialed, Disciplined, AllTo;
    MentionRedials(m, msg, order, libs, w.me);
    var met := OnMessage(m, msg, order, libs);
    LocalIsOffer(m, met, w.me);
    var offer := met.peers[w.me].local.value;
    TakesOffer(w, m.me, offer, libsW);
    var taken := OnMessage(w, ServerMsg.Offer(m.me, offer), [], libsW);
    if w.me in m1.peers && SameButIce(met.peers[w.me], m1.peers[w.me]) {
      AnswerCompletes(m1, w.me, taken.peers[m.me].local.value, [], libs1);
    }
  }

  lemma LocalIsOffer(m: M.MeshState, m': M.MeshState, x: UserId)
    requires Redialed(m, m', x)
    ensures x in m'.peers && m'.peers[x].local.Some? && m'.peers[x].outstanding
    ensures m'.peers[x].local.value.pc == m'.peers[x].id
  {
  }

  lemma TakesOffer(w: M.MeshState, x: UserId, offer: Sdp, libs: map<UserId, M.Lib>)
    requires Benign(M.LibFor(libs, x))
    ensures AnsweredOnce(w, OnMessage(w, ServerMsg.Offer(x, offer), [], libs), x, offer)
  {
    hide AnsweredOnce;
    OfferIsAnswered(w, x, offer, M.LibFor(libs, x));
  }
}
