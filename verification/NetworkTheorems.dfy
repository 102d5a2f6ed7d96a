// What the composed system guarantees: how many offers are made and by whom,
// when a settled pair is matched, and that a rekey renews both sides.

module NetworkTheorems {
  import opened Wire
  import opened Rooms
  import opened RoomsProofs
  import opened Client
  import opened Links
  import opened Network
  import opened NetworkProofs
  import opened NetworkInvariant
  import M = Mesh

  function User(net: Net, s: SockId): UserId
    requires s in net.peers
  {
    net.peers[s].id.user
  }

  /** Two different clients that have joined the same room. */
  predicate Roommates(net: Net, s: SockId, t: SockId) {
    && s in net.peers && t in net.peers && s in net.server.socks && t in net.server.socks && s != t
    && Joined(net, s) && Joined(net, t) && net.peers[s].id.room == net.peers[t].id.room
  }

  /** Roommates whose identities nobody else has ever used, and that have lost
      nothing and seen no library call fail that bears on their link. Others may
      have done all of this, and calls for others may have failed. */
  ghost predicate CleanPair(net: Net, s: SockId, t: SockId) {
    Roommates(net, s, t) && CleanIds(net, net.peers[s].id.room, User(net, s), User(net, t))
  }

  lemma PairEnds(net: Net, s: SockId, t: SockId)
    requires CleanPair(net, s, t)
    ensures Clean(net, net.peers[s].id) && Clean(net, net.peers[t].id) && CleanPair(net, t, s)
    ensures CleanIds(net, net.peers[t].id.room, User(net, t), User(net, s))
  {
    hide Clean, WellTo;
    assert net.peers[s].id == Identity(net.peers[s].id.room, User(net, s));
    assert net.peers[t].id == Identity(net.peers[t].id.room, User(net, t));
  }

  /** All the client has asked its socket to send. */
  function Uplink(net: Net, s: SockId): seq<ClientMsg>
    requires s in net.peers && s in net.server.socks
  {
    net.server.socks[s].submitted + net.peers[s].mesh.out
  }

  // ----- one pair

  /** The two ends of a pair: each link is in order, and what one side has
      handled is a prefix of what the other side has sent. */
  lemma PairInOrder(net: Net, s: SockId, t: SockId)
    requires Inv(net) && CleanPair(net, s, t) && Less(User(net, s), User(net, t))
    ensures Offering(LinkOf(LocalOf(net, s), User(net, t))) && Answering(LinkOf(LocalOf(net, t), User(net, s)))
    ensures LocalOf(net, t).From(Offers, User(net, s)) <= LocalOf(net, s).To(Offers, User(net, t))
    ensures LocalOf(net, s).From(Answers, User(net, t)) <= LocalOf(net, t).To(Answers, User(net, s))
  {
    hide AllTo, AllFrom, Mentions, Due, Inv, Together, CleanIds, Offering, Answering;
    ExactlyOneSideIsSmaller(User(net, s), User(net, t));
    PairEnds(net, s, t);
    LinkOfMember(net, s, t);
    LinkOfMember(net, t, s);
    PrefixOfSent(net, t, s, Offers);
    PrefixOfSent(net, s, t, Answers);
  }

  lemma PrefixOfSent(net: Net, s: SockId, t: SockId, k: Signal)
    requires Inv(net) && CleanPair(net, s, t)
    ensures LocalOf(net, s).From(k, User(net, t)) <= LocalOf(net, t).To(k, User(net, s))
  {
    hide AllTo, AllFrom, Mentions, Due, Shape, RoomsOk, ViewsOk, MentionsOk, RelaysOk, LinksOk, KnownOk, Together,
         CleanIds;
    PairEnds(net, s, t);
    ShapeOf(net, s);
    FromWhole(LocalOf(net, s), net.server.socks[s].log, k, User(net, t));
    LinkOfMember(net, s, t);
    if AllFrom(k, net.server.socks[s].log, User(net, t)) != [] {
      FlowLink(net, s, k, User(net, t));
      LoneSocket(net, t, User(net, t));
    }
  }

  /** The smaller id has sent exactly the offers that are due for what it has
      handled, and the larger id never sends one: there is no glare. */
  lemma {:induction false} OffersPerPair(es: seq<NetEvent>, s: SockId, t: SockId)
    requires CleanPair(NetRun(es), s, t) && Less(User(NetRun(es), s), User(NetRun(es), t))
    ensures var net := NetRun(es);
            var l, r := LocalOf(net, s), LocalOf(net, t);
            && |l.To(Offers, User(net, t))| == Due(l.seen, User(net, t))
            && r.To(Offers, User(net, s)) == [] && l.To(Answers, User(net, t)) == []
            && |r.To(Answers, User(net, s))| == |r.From(Offers, User(net, s))|
  {
    hide AllTo, AllFrom, Mentions, Due, Inv, CleanIds;
    RunInv(es);
    PairInOrder(NetRun(es), s, t);
  }

  /** Every offer and answer of the pair has been handled at the other end. */
  predicate Settled(net: Net, s: SockId, t: SockId)
    requires Roommates(net, s, t)
  {
    && LocalOf(net, t).From(Offers, User(net, s)) == LocalOf(net, s).To(Offers, User(net, t))
    && LocalOf(net, s).From(Answers, User(net, t)) == LocalOf(net, t).To(Answers, User(net, s))
  }

  /** The two ends have entries for each other, and these match. */
  predicate Matched(net: Net, s: SockId, t: SockId)
    requires Roommates(net, s, t)
  {
    var m, w := net.peers[s].mesh.peers, net.peers[t].mesh.peers;
    User(net, t) in m && User(net, s) in w && Matching(m[User(net, t)], w[User(net, s)])
  }

  /** How many negotiations with `x` were unfinished when the client sent its
      latest offer to it. */
  function InFlightAtLastOffer(l: Local, x: UserId): int {
    |l.To(Offers, x)| - 1 - l.Base(x)
  }

  /** A settled pair with an offer is matched if and only if the latest offer was
      sent with no negotiation in flight. */
  lemma {:induction false} SettledMatchedIff(es: seq<NetEvent>, s: SockId, t: SockId)
    requires var net := NetRun(es);
             && CleanPair(net, s, t) && Less(User(net, s), User(net, t)) && Settled(net, s, t)
             && LocalOf(net, s).To(Offers, User(net, t)) != []
    ensures var net := NetRun(es);
            Matched(net, s, t) <==> InFlightAtLastOffer(LocalOf(net, s), User(net, t)) == 0
  {
    hide AllTo, AllFrom, Mentions, Due, Inv, Offering, Answering, NetRun, CleanIds;
    var net := NetRun(es);
    RunInv(es);
    PairInOrder(net, s, t);
    MatchedLinks(LinkOf(LocalOf(net, s), User(net, t)), LinkOf(LocalOf(net, t), User(net, s)));
  }

  lemma MatchedLinks(k: Link, w: Link)
    requires Offering(k) && Answering(w)
    requires w.offersIn == k.offersOut && k.answersIn == w.answersOut && k.offersOut != []
    ensures k.entry.Some? && w.entry.Some?
    ensures var p, q := k.entry.value, w.entry.value;
            && p.local.Some? && q.local.Some? && q.remote == p.local
            && p.local.value.pc == p.id && q.local.value.pc == q.id && q.local.value.answers == Some(p.id)
            && !p.outstanding && (p.remote == q.local <==> k.base == |k.offersOut| - 1)
  {
    var n := |k.offersOut|;
    assert w.answersOut[n - 1].answers == Some(k.offersOut[n - 1].pc);
  }

  // ----- two states of one run

  /** An identity and an end are for good. */
  predicate Goes(k: Sock, k': Sock) {
    (k.phase.Who().Some? ==> k'.phase.Who() == k.phase.Who()) && (k.phase.Done? ==> k'.phase.Done?)
  }

  /** Nothing in the first list of frames is missing in the second, and the offers
      and answers to each peer come first there, in the same order. */
  ghost predicate Resaid(up: seq<ClientMsg>, up': seq<ClientMsg>) {
    multiset(up) <= multiset(up') && forall k, x :: AllTo(k, up, x) <= AllTo(k, up', x)
  }

  /** The later of two states of one run extends the earlier: nothing a client has
      sent or handled is unsaid. */
  ghost predicate Later(net: Net, net': Net, s: SockId) {
    && s in net.peers && s in net.server.socks && s in net'.peers && s in net'.server.socks
    && net'.peers[s].id == net.peers[s].id && Goes(net.server.socks[s], net'.server.socks[s])
    && net.server.socks[s].submitted <= net'.server.socks[s].submitted
    && Resaid(Uplink(net, s), Uplink(net', s)) && LocalOf(net, s).seen <= LocalOf(net', s).seen
  }

  lemma SameResaid(up: seq<ClientMsg>)
    ensures Resaid(up, up)
  {
    hide AllTo;
  }

  lemma MoreResaid(up: seq<ClientMsg>, more: seq<ClientMsg>)
    ensures Resaid(up, up + more)
  {
    hide AllTo;
    forall k, x ensures AllTo(k, up, x) <= AllTo(k, up + more, x) { AllToAppend(k, up, more, x); }
  }

  lemma InsertedResaid(past: seq<ClientMsg>, out: seq<ClientMsg>, m: ClientMsg, at: nat)
    requires at <= |out| && (m.Ptt? || m.Rekey? || m.Ice?)
    ensures Resaid(past + out, past + Inserted(out, m, at))
  {
    hide AllTo, Inserted;
    forall k, x ensures AllTo(k, past + out, x) <= AllTo(k, past + Inserted(out, m, at), x) {
      InsertedSignals(past, out, m, at, k, x);
    }
    InsertedCount(past, out, m, at);
  }

  lemma InsertedCount(past: seq<ClientMsg>, out: seq<ClientMsg>, m: ClientMsg, at: nat)
    requires at <= |out|
    ensures multiset(past + Inserted(out, m, at)) == multiset(past + out) + multiset{m}
  {
    assert out == out[..at] + out[at..];
  }

  lemma ResaidChain(a: seq<ClientMsg>, b: seq<ClientMsg>, c: seq<ClientMsg>)
    requires Resaid(a, b) && Resaid(b, c)
    ensures Resaid(a, c)
  {
    hide AllTo;
    forall k, x ensures AllTo(k, a, x) <= AllTo(k, c, x) { assert AllTo(k, a, x) <= AllTo(k, b, x); }
  }

  lemma LaterChain(a: Net, b: Net, c: Net, s: SockId)
    requires Later(a, b, s) && Later(b, c, s)
    ensures Later(a, c, s)
  {
    hide Resaid, Uplink, LocalOf;
    ResaidChain(Uplink(a, s), Uplink(b, s), Uplink(c, s));
  }

  lemma StepKeepsHistory(net: Net, e: NetEvent, s: SockId)
    requires Inv(net) && s in net.peers
    ensures Later(net, NetStep(net, e), s)
  {
    hide Inv, Later;
    InvShape(net);
    if !Possible(net, e) {
      IdleStep(net, e);
      SelfLater(net, s);
    } else if ServerSide(e) {
      ServerKeepsHistory(net, e, s);
    } else if e.Deliver? {
      DeliverKeepsHistory(net, e, s);
    } else if e.Say? {
      SayKeepsHistory(net, e, s);
    } else {
      OpenKeepsHistory(net, e, s);
    }
  }

  lemma InvShape(net: Net)
    requires Inv(net)
    ensures Shape(net)
  {
  }

  lemma OpenKeepsHistory(net: Net, e: NetEvent, s: SockId)
    requires Shape(net) && Possible(net, e) && Opens(e) && s in net.peers
    ensures Later(net, NetStep(net, e), s)
  {
    hide Shape, NetStep, Possible, Resaid;
    OpenNet(net, e);
    ShapeOf(net, s);
    SameResaid(Uplink(net, s));
  }

  lemma SayKeepsHistory(net: Net, e: NetEvent, s: SockId)
    requires Shape(net) && Possible(net, e) && e.Say? && s in net.peers
    ensures Later(net, NetStep(net, e), s)
  {
    hide Shape, NetStep, Possible, Resaid, Inserted;
    SayNet(net, e);
    ShapeOf(net, s);
    if s == e.s { InsertedResaid(net.server.socks[s].submitted, net.peers[s].mesh.out, e.m, e.at); }
    else { SameResaid(Uplink(net, s)); }
  }

  lemma ServerKeepsHistory(net: Net, e: NetEvent, s: SockId)
    requires Shape(net) && Possible(net, e) && ServerSide(e) && s in net.peers
    ensures Later(net, NetStep(net, e), s)
  {
    hide Enabled, EffectOf, Step, NetStep, Possible, Shape, Resaid;
    ShapeOf(net, s);
    LocalMoved(net, e, s);
    ServerNet(net, e, s);
    PhaseStays(net.server, ServerEvent(net, e), s);
    assert Uplink(NetStep(net, e), s) == LocalOf(NetStep(net, e), s).past + LocalOf(NetStep(net, e), s).mesh.out;
    SameResaid(Uplink(net, s));
  }

  lemma DeliverKeepsHistory(net: Net, e: NetEvent, s: SockId)
    requires Shape(net) && Possible(net, e) && e.Deliver? && s in net.peers
    ensures Later(net, NetStep(net, e), s)
  {
    hide NetStep, Shape, AllTo, AllFrom, AllPolite, Absorb, LocalOn, Harmed, OnMessage, Introduces, Resaid;
    ShapeOf(net, s);
    DeliverNet(net, e);
    DeliverLocal(net, e, s);
    SameResaid(Uplink(net, s));
    if s == e.s {
      var everyone: iset<UserId> := iset x: UserId | |x| >= 0;
      DeliverAdds(net, e, everyone);
      var m, m' := net.peers[s].mesh, NetStep(net, e).peers[s].mesh;
      assert net.server.socks[s].submitted + m'.out == (net.server.socks[s].submitted + m.out) + Sent(m, m');
      MoreResaid(Uplink(net, s), Sent(m, m'));
      SeenGrows(LocalOf(net, s), net.server.socks[s].log[net.peers[s].seen], e.order, e.libs);
    }
  }

  lemma SeenGrows(l: Local, msg: ServerMsg, order: seq<UserId>, libs: map<UserId, M.Lib>)
    ensures Absorb(l, msg, order, libs).seen == l.seen + [msg]
  {
    hide OnMessage, AllTo, AllFrom;
  }

  /** In every run, over any continuation: what a client has sent and handled, its
      identity and its end are for good. */
  lemma {:induction false} RunKeepsHistory(es: seq<NetEvent>, more: seq<NetEvent>, s: SockId)
    requires s in NetRun(es).peers
    ensures Later(NetRun(es), NetRun(es + more), s)
    decreases |more|
  {
    hide Inv, NetStep, LocalOf, Uplink, Later;
    RunInv(es);
    if more == [] {
      assert es + more == es;
      SelfLater(NetRun(es), s);
    } else {
      var front, e := more[..|more| - 1], more[|more| - 1];
      assert (es + more)[..|es + more| - 1] == es + front;
      RunKeepsHistory(es, front, s);
      RunInv(es + front);
      StillThere(NetRun(es), NetRun(es + front), s);
      StepKeepsHistory(NetRun(es + front), e, s);
      LaterChain(NetRun(es), NetRun(es + front), NetRun(es + more), s);
    }
  }

  lemma StillThere(net: Net, net': Net, s: SockId)
    requires Later(net, net', s)
    ensures s in net'.peers
  {
  }

  lemma SelfLater(net: Net, s: SockId)
    requires Inv(net) && s in net.peers
    ensures Later(net, net, s)
  {
    hide RoomsOk, ViewsOk, MentionsOk, RelaysOk, LinksOk, KnownOk, PeerShape, HasHandle, Resaid;
    SameResaid(Uplink(net, s));
  }

  /** An identity that is clean now has always been. */
  lemma {:induction false} CleanAllAlong(es: seq<NetEvent>, more: seq<NetEvent>, id: Identity)
    requires Clean(NetRun(es + more), id)
    ensures Clean(NetRun(es), id)
    decreases |more|
  {
    hide NetStep, Inv, CleanIds;
    if more == [] {
      assert es + more == es;
    } else {
      var front, e := more[..|more| - 1], more[|more| - 1];
      assert (es + more)[..|es + more| - 1] == es + front;
      RunInv(es + front);
      InvShape(NetRun(es + front));
      CleanBefore(NetRun(es + front), e, id);
      CleanAllAlong(es, front, id);
    }
  }

  lemma {:induction false} WellAllAlong(es: seq<NetEvent>, more: seq<NetEvent>, id: Identity, x: UserId)
    requires WellTo(NetRun(es + more), id, x)
    ensures WellTo(NetRun(es), id, x)
    decreases |more|
  {
    hide NetStep, Inv, WellTo;
    if more == [] {
      assert es + more == es;
    } else {
      var front, e := more[..|more| - 1], more[|more| - 1];
      assert (es + more)[..|es + more| - 1] == es + front;
      RunInv(es + front);
      InvShape(NetRun(es + front));
      WellBefore(NetRun(es + front), e, id, x);
      WellAllAlong(es, front, id, x);
    }
  }

  /** Two members that are a clean pair later were one before. */
  lemma PairBeforehand(es: seq<NetEvent>, more: seq<NetEvent>, s: SockId, t: SockId)
    requires Roommates(NetRun(es), s, t) && CleanPair(NetRun(es + more), s, t)
    ensures CleanPair(NetRun(es), s, t)
    ensures Later(NetRun(es), NetRun(es + more), s) && Later(NetRun(es), NetRun(es + more), t)
    ensures User(NetRun(es + more), s) == User(NetRun(es), s) && User(NetRun(es + more), t) == User(NetRun(es), t)
  {
    hide NetRun, Clean, WellTo, Uplink, LocalOf, Resaid;
    RunKeepsHistory(es, more, s);
    RunKeepsHistory(es, more, t);
    var p, q := NetRun(es).peers[s].id, NetRun(es).peers[t].id;
    assert q == Identity(p.room, q.user) && p == Identity(p.room, p.user);
    CleanAllAlong(es, more, p);
    CleanAllAlong(es, more, q);
    WellAllAlong(es, more, p, q.user);
    WellAllAlong(es, more, q, p.user);
  }

  /** If a settled pair has an offer, and later, settled again, it has had
      another one, then both ends have new PeerConnections. */
  lemma {:induction false} NewOfferRenewsBothEnds(es: seq<NetEvent>, more: seq<NetEvent>, s: SockId, t: SockId)
    requires var net := NetRun(es);
             && Roommates(net, s, t) && Less(User(net, s), User(net, t)) && Settled(net, s, t)
             && LocalOf(net, s).To(Offers, User(net, t)) != []
    requires var net, net' := NetRun(es), NetRun(es + more);
             && CleanPair(net', s, t) && Settled(net', s, t)
             && |LocalOf(net', s).To(Offers, User(net, t))| > |LocalOf(net, s).To(Offers, User(net, t))|
    ensures var net, net' := NetRun(es), NetRun(es + more);
            var a, b := User(net, s), User(net, t);
            && b in net.peers[s].mesh.peers && b in net'.peers[s].mesh.peers
            && a in net.peers[t].mesh.peers && a in net'.peers[t].mesh.peers
            && net.peers[s].mesh.peers[b].id < net'.peers[s].mesh.peers[b].id
            && net.peers[t].mesh.peers[a].id < net'.peers[t].mesh.peers[a].id
  {
    hide AllTo, AllFrom, Mentions, Due, Inv, Offering, Answering, NetRun, CleanIds;
    var net, net' := NetRun(es), NetRun(es + more);
    PairBeforehand(es, more, s, t);
    RunInv(es);
    RunInv(es + more);
    PairInOrder(net, s, t);
    PairInOrder(net', s, t);
    assert AllTo(Offers, Uplink(net, s), User(net, t)) <= AllTo(Offers, Uplink(net', s), User(net, t));
    assert AllTo(Answers, Uplink(net, t), User(net, s)) <= AllTo(Answers, Uplink(net', t), User(net, s));
    NewerEntries(LinkOf(LocalOf(net, s), User(net, t)), LinkOf(LocalOf(net', s), User(net, t)),
                 LinkOf(LocalOf(net, t), User(net, s)), LinkOf(LocalOf(net', t), User(net, s)));
  }

  lemma NewerEntries(k: Link, k': Link, w: Link, w': Link)
    requires Offering(k) && Offering(k') && Answering(w) && Answering(w')
    requires k.offersOut != [] && |k.offersOut| < |k'.offersOut| && k.offersOut <= k'.offersOut
    requires w.answersOut <= w'.answersOut && |w.offersIn| == |k.offersOut| && |w'.offersIn| == |k'.offersOut|
    ensures k.entry.Some? && k'.entry.Some? && w.entry.Some? && w'.entry.Some?
    ensures k.entry.value.id < k'.entry.value.id && w.entry.value.id < w'.entry.value.id
  {
  }

  /** In every run, a client has sent offers and answers only to ids that have
      joined its room. */
  lemma {:induction false} SignalsToKnown(es: seq<NetEvent>, s: SockId, i: nat)
    requires s in NetRun(es).peers && s in NetRun(es).server.socks && i < |Uplink(NetRun(es), s)|
    requires Uplink(NetRun(es), s)[i].Offer? || Uplink(NetRun(es), s)[i].Answer?
    ensures Used(NetRun(es).server, Identity(NetRun(es).peers[s].id.room, Uplink(NetRun(es), s)[i].to))
  {
    hide NetRun, Used, Shape, RoomsOk, ViewsOk, MentionsOk, RelaysOk, LinksOk, ServerKnown;
    RunInv(es);
    var net := NetRun(es);
    assert PeerKnown(net, s);
    assert KnownTarget(net.server, net.peers[s].id.room, Uplink(net, s)[i]);
  }

  // ----- rekeys

  function Rekeys(ms: seq<ServerMsg>): nat {
    if ms == [] then 0 else Rekeys(ms[..|ms| - 1]) + (if ms[|ms| - 1].Rekey? then 1 else 0)
  }

  lemma {:induction false} RekeysAppend(a: seq<ServerMsg>, b: seq<ServerMsg>)
    ensures Rekeys(a + b) == Rekeys(a) + Rekeys(b)
    decreases |b|
  {
    if b == [] {
      assert a + b == a;
    } else {
      assert (a + b)[..|a + b| - 1] == a + b[..|b| - 1];
      RekeysAppend(a, b[..|b| - 1]);
    }
  }

  /** Once `x` has been mentioned, each rekey makes one more offer due. */
  lemma {:induction false} DueSinceMention(a: seq<ServerMsg>, b: seq<ServerMsg>, x: UserId)
    requires Mentions(a, x) > 0 && Mentions(a + b, x) == Mentions(a, x)
    ensures Due(a + b, x) == Due(a, x) + Rekeys(b)
    decreases |b|
  {
    if b == [] {
      assert a + b == a;
    } else {
      var front := b[..|b| - 1];
      assert (a + b)[..|a + b| - 1] == a + front;
      MentionsAppend(a, front, x);
      DueSinceMention(a, front, x);
    }
  }

  lemma {:induction false} DueWithoutRekey(ms: seq<ServerMsg>, x: UserId)
    requires Rekeys(ms) == 0
    ensures Due(ms, x) == Mentions(ms, x)
    decreases |ms|
  {
    if ms != [] { DueWithoutRekey(ms[..|ms| - 1], x); }
  }

  /** Each rekey the smaller id of a pair handles makes one more offer. */
  lemma {:induction false} OffersGrowByRekeys(es: seq<NetEvent>, more: seq<NetEvent>, s: SockId, t: SockId)
    requires var net := NetRun(es);
             && Roommates(net, s, t) && Less(User(net, s), User(net, t))
             && LocalOf(net, s).To(Offers, User(net, t)) != []
    requires CleanPair(NetRun(es + more), s, t)
    ensures var l, l', b := LocalOf(NetRun(es), s), LocalOf(NetRun(es + more), s), User(NetRun(es), t);
            |l'.To(Offers, b)| == |l.To(Offers, b)| + Rekeys(l'.seen) - Rekeys(l.seen)
  {
    hide AllTo, AllFrom, Mentions, Due, Inv, NetRun, Rekeys, CleanIds;
    var net, net' := NetRun(es), NetRun(es + more);
    PairBeforehand(es, more, s, t);
    OffersPerPair(es, s, t);
    OffersPerPair(es + more, s, t);
    var b, seen, seen' := User(net, t), LocalOf(net, s).seen, LocalOf(net', s).seen;
    DueIffMentioned(seen, b);
    var news := seen'[|seen|..];
    assert seen' == seen + news;
    RekeysAppend(seen, news);
    RunInv(es + more);
    MentionedOnce(net', s, t);
    MentionsAppend(seen, news, b);
    DueSinceMention(seen, news, b);
  }

  /** A rekey handled by the smaller id between two settled states renews both
      ends, whether or not the larger id has handled it, and whatever has become
      of everybody else in the room. */
  lemma {:induction false} RekeyRenewsBothEnds(es: seq<NetEvent>, more: seq<NetEvent>, s: SockId, t: SockId)
    requires var net := NetRun(es);
             && Roommates(net, s, t) && Less(User(net, s), User(net, t)) && Settled(net, s, t)
             && LocalOf(net, s).To(Offers, User(net, t)) != []
    requires var net, net' := NetRun(es), NetRun(es + more);
             && CleanPair(net', s, t) && Settled(net', s, t)
             && Rekeys(LocalOf(net', s).seen) > Rekeys(LocalOf(net, s).seen)
    ensures var net, net' := NetRun(es), NetRun(es + more);
            var a, b := User(net, s), User(net, t);
            && b in net.peers[s].mesh.peers && b in net'.peers[s].mesh.peers
            && a in net.peers[t].mesh.peers && a in net'.peers[t].mesh.peers
            && net.peers[s].mesh.peers[b].id < net'.peers[s].mesh.peers[b].id
            && net.peers[t].mesh.peers[a].id < net'.peers[t].mesh.peers[a].id
  {
    hide AllTo, AllFrom, NetRun, Rekeys, CleanIds;
    OffersGrowByRekeys(es, more, s, t);
    NewOfferRenewsBothEnds(es, more, s, t);
  }

  lemma MentionedOnce(net: Net, s: SockId, t: SockId)
    requires Inv(net) && CleanPair(net, s, t)
    ensures Mentions(LocalOf(net, s).seen, User(net, t)) <= 1
    ensures Told(net.server.socks[s], User(net, t)) == 1
  {
    hide AllTo, AllFrom, Mentions, Shape, RoomsOk, ViewsOk, RelaysOk, LinksOk, KnownOk, Listed, CleanIds, Hears,
         Linked, Together;
    PairEnds(net, s, t);
    ShapeOf(net, s);
    LinkOfMember(net, s, t);
    TogetherIsLinked(net, s, User(net, t));
    FromWhole(LocalOf(net, s), net.server.socks[s].log, Offers, User(net, t));
    assert ToldOnce(net.server, s, User(net, t));
    HasItsHandle(net, t);
    if User(net, s) == User(net, t) { TwiceIsNotClean(net, s, t); }
  }

  lemma HasItsHandle(net: Net, t: SockId)
    requires Shape(net) && t in net.peers && Joined(net, t) && Clean(net, net.peers[t].id)
    ensures Registered(net.server, net.peers[t].id.room, User(net, t))
  {
    hide Sole;
    CleanIsSole(net, net.peers[t].id);
    ShapeOf(net, t);
  }

  // ----- a rekey with nothing under way

  /** If the client has offered to `x` since the earlier state, it had by then
      received at least the answers it had then. */
  predicate Rebased(net: Net, net': Net, s: SockId, x: UserId)
    requires s in net.peers && s in net.server.socks && s in net'.peers && s in net'.server.socks
  {
    var l, l' := LocalOf(net, s), LocalOf(net', s);
    |l'.To(Offers, x)| > |l.To(Offers, x)| ==> l'.Base(x) >= |l.From(Answers, x)|
  }

  /** A step other than handling a message changes neither the offers made nor
      the base of a link. */
  predicate SameOffers(l: Local, l': Local, x: UserId) {
    l'.To(Offers, x) == l.To(Offers, x) && l'.Base(x) == l.Base(x)
  }

  lemma SayOffers(net: Net, e: NetEvent, s: SockId, x: UserId)
    requires Shape(net) && Possible(net, e) && e.Say? && s in net.peers
    ensures s in net.server.socks && s in NetStep(net, e).peers && s in NetStep(net, e).server.socks
    ensures SameOffers(LocalOf(net, s), LocalOf(NetStep(net, e), s), x)
  {
    hide NetStep, Possible, Shape, AllTo, AllFrom, Inserted;
    ShapeOf(net, s);
    SayNet(net, e);
    if s == e.s { InsertedSignals(net.server.socks[s].submitted, net.peers[s].mesh.out, e.m, e.at, Offers, x); }
  }

  lemma OtherStepOffers(net: Net, e: NetEvent, s: SockId, x: UserId)
    requires Shape(net) && s in net.peers && !(Possible(net, e) && e.Deliver? && e.s == s)
    ensures s in net.server.socks && s in NetStep(net, e).peers && s in NetStep(net, e).server.socks
    ensures SameOffers(LocalOf(net, s), LocalOf(NetStep(net, e), s), x)
  {
    hide NetStep, Possible, Shape, AllTo, AllFrom, Absorb;
    ShapeOf(net, s);
    if !Possible(net, e) { IdleStep(net, e); }
    else if ServerSide(e) { LocalMoved(net, e, s); }
    else if e.Say? { SayOffers(net, e, s, x); }
    else if e.Deliver? { DeliverLocal(net, e, s); }
    else { OpenNet(net, e); }
  }

  /** A new offer to `x` is based on all answers received so far. */
  lemma BaseOfNewOffer(l: Local, msg: ServerMsg, order: seq<UserId>, libs: map<UserId, M.Lib>, x: UserId)
    ensures var l' := Absorb(l, msg, order, libs);
            l'.Base(x) == if x !in l'.mesh.peers then 0
                          else if |l'.To(Offers, x)| > |l.To(Offers, x)| then |l'.From(Answers, x)| else l.Base(x)
    ensures |l.From(Answers, x)| <= |Absorb(l, msg, order, libs).From(Answers, x)|
  {
    hide OnMessage, AllTo, AllFrom, Disciplined;
    AllFromSnoc(Answers, l.seen, msg, x);
  }

  lemma RebasesOn(net: Net, mid: Net, e: NetEvent, s: SockId, x: UserId)
    requires Shape(mid) && s in net.peers && s in net.server.socks && Later(net, mid, s) && Rebased(net, mid, s, x)
    requires s in NetStep(mid, e).peers && s in NetStep(mid, e).server.socks
    requires x in NetStep(mid, e).peers[s].mesh.peers
    requires |LocalOf(net, s).From(Answers, x)| <= |LocalOf(mid, s).From(Answers, x)|
    ensures Rebased(net, NetStep(mid, e), s, x)
  {
    hide NetStep, Shape, AllTo, AllFrom, Absorb, LocalOn;
    if Possible(mid, e) && e.Deliver? && e.s == s {
      DeliverLocal(mid, e, s);
      BaseOfNewOffer(LocalOf(mid, s), mid.server.socks[s].log[mid.peers[s].seen], e.order, e.libs, x);
      MeshOf(NetStep(mid, e), s);
    } else {
      OtherStepOffers(mid, e, s, x);
    }
  }

  lemma MeshOf(net: Net, s: SockId)
    requires s in net.peers && s in net.server.socks
    ensures LocalOf(net, s).mesh == net.peers[s].mesh
  {
  }

  /** Two members that are together before and after were so all along. */
  lemma PairAllAlong(es: seq<NetEvent>, front: seq<NetEvent>, more: seq<NetEvent>, s: SockId, t: SockId)
    requires Roommates(NetRun(es), s, t) && CleanPair(NetRun(es + front + more), s, t)
    ensures CleanPair(NetRun(es + front), s, t)
    ensures User(NetRun(es + front), s) == User(NetRun(es), s) && User(NetRun(es + front), t) == User(NetRun(es), t)
  {
    hide NetRun, CleanIds, Uplink, LocalOf, Resaid;
    RunKeepsHistory(es, front, s);
    RunKeepsHistory(es, front, t);
    RunKeepsHistory(es + front, more, s);
    RunKeepsHistory(es + front, more, t);
    PairBeforehand(es + front, more, s, t);
  }

  lemma PrefixFrom(a: seq<ServerMsg>, b: seq<ServerMsg>, k: Signal, x: UserId)
    requires a <= b
    ensures AllFrom(k, a, x) <= AllFrom(k, b, x)
  {
    hide AllFrom;
    assert b == a + b[|a|..];
    AllFromAppend(k, a, b[|a|..], x);
  }

  lemma {:induction false} RunRebases(es: seq<NetEvent>, more: seq<NetEvent>, s: SockId, t: SockId)
    requires Roommates(NetRun(es), s, t) && CleanPair(NetRun(es + more), s, t)
    requires Less(User(NetRun(es), s), User(NetRun(es), t))
    ensures Rebased(NetRun(es), NetRun(es + more), s, User(NetRun(es), t))
    decreases |more|
  {
    hide NetStep, Inv, CleanIds, LocalOf, Uplink, AllTo, AllFrom, Rebased, Offering, Answering;
    var net, x := NetRun(es), User(NetRun(es), t);
    if more == [] {
      assert es + more == es;
      RebasedAtOnce(net, s, x);
    } else {
      var front, e := more[..|more| - 1], more[|more| - 1];
      assert (es + more)[..|es + more| - 1] == es + front && es + front + [e] == es + more;
      var mid, net' := NetRun(es + front), NetRun(es + more);
      PairAllAlong(es, front, [e], s, t);
      RunRebases(es, front, s, t);
      RunKeepsHistory(es, front, s);
      RunKeepsHistory(es, more, t);
      RunKeepsHistory(es, more, s);
      RunInv(es + front);
      InvShape(mid);
      RunInv(es + more);
      PrefixFrom(LocalOf(net, s).seen, LocalOf(mid, s).seen, Answers, x);
      PairInOrder(net', s, t);
      if LocalOf(net', s).To(Offers, x) == [] {
        NoOffersRebased(net, net', s, x);
      } else {
        OfferedHasEntry(net', s, x);
        RebasesOn(net, mid, e, s, x);
      }
    }
  }

  lemma RebasedAtOnce(net: Net, s: SockId, x: UserId)
    requires s in net.peers && s in net.server.socks
    ensures Rebased(net, net, s, x)
  {
  }

  lemma NoOffersRebased(net: Net, net': Net, s: SockId, x: UserId)
    requires s in net.peers && s in net.server.socks && s in net'.peers && s in net'.server.socks
    requires LocalOf(net', s).To(Offers, x) == []
    ensures Rebased(net, net', s, x)
  {
  }

  lemma OfferedHasEntry(net: Net, s: SockId, x: UserId)
    requires s in net.peers && s in net.server.socks && Offering(LinkOf(LocalOf(net, s), x))
    requires LocalOf(net, s).To(Offers, x) != []
    ensures x in net.peers[s].mesh.peers
  {
    hide AllTo, AllFrom;
    MeshOf(net, s);
    assert EntryOf(LocalOf(net, s).mesh, x).Some?;
  }

  /** A rekey that finds a pair settled leaves it matched: if the smaller id has
      handled one rekey between two settled states, then in the second one the two
      ends match, and both have new PeerConnections. */
  lemma {:induction false} OneRekeyMatches(es: seq<NetEvent>, more: seq<NetEvent>, s: SockId, t: SockId)
    requires var net := NetRun(es);
             && Roommates(net, s, t) && Less(User(net, s), User(net, t)) && Settled(net, s, t)
             && LocalOf(net, s).To(Offers, User(net, t)) != []
    requires var net, net' := NetRun(es), NetRun(es + more);
             && CleanPair(net', s, t) && Settled(net', s, t)
             && Rekeys(LocalOf(net', s).seen) == Rekeys(LocalOf(net, s).seen) + 1
    ensures var net, net' := NetRun(es), NetRun(es + more);
            var a, b := User(net, s), User(net, t);
            && Matched(net', s, t)
            && b in net.peers[s].mesh.peers && b in net'.peers[s].mesh.peers
            && a in net.peers[t].mesh.peers && a in net'.peers[t].mesh.peers
            && net.peers[s].mesh.peers[b].id < net'.peers[s].mesh.peers[b].id
            && net.peers[t].mesh.peers[a].id < net'.peers[t].mesh.peers[a].id
  {
    hide AllTo, AllFrom, Mentions, Due, Inv, NetRun, Rekeys, CleanIds, Rebased, Matched;
    var net, net' := NetRun(es), NetRun(es + more);
    RekeyRenewsBothEnds(es, more, s, t);
    OffersGrowByRekeys(es, more, s, t);
    RunRebases(es, more, s, t);
    PairBeforehand(es, more, s, t);
    AllAnswered(es, s, t);
    BasedOnAll(es, more, s, t);
    SettledMatchedIff(es + more, s, t);
  }

  lemma AllAnswered(es: seq<NetEvent>, s: SockId, t: SockId)
    requires CleanPair(NetRun(es), s, t) && Less(User(NetRun(es), s), User(NetRun(es), t)) && Settled(NetRun(es), s, t)
    ensures var l, b := LocalOf(NetRun(es), s), User(NetRun(es), t); |l.From(Answers, b)| == |l.To(Offers, b)|
  {
    hide AllTo, AllFrom, NetRun, CleanIds, Due;
    OffersPerPair(es, s, t);
  }

  /** One offer after all earlier ones were answered was made with none open. */
  lemma BasedOnAll(es: seq<NetEvent>, more: seq<NetEvent>, s: SockId, t: SockId)
    requires Roommates(NetRun(es), s, t) && CleanPair(NetRun(es + more), s, t)
    requires User(NetRun(es + more), s) == User(NetRun(es), s) && User(NetRun(es + more), t) == User(NetRun(es), t)
    requires Less(User(NetRun(es), s), User(NetRun(es), t))
    requires var l, l', b := LocalOf(NetRun(es), s), LocalOf(NetRun(es + more), s), User(NetRun(es), t);
             && |l.From(Answers, b)| == |l.To(Offers, b)| && |l'.To(Offers, b)| == |l.To(Offers, b)| + 1
             && Rebased(NetRun(es), NetRun(es + more), s, b)
    ensures InFlightAtLastOffer(LocalOf(NetRun(es + more), s), User(NetRun(es), t)) == 0
  {
    hide AllTo, AllFrom, NetRun, CleanIds, Due, Inv, Answering;
    RunInv(es + more);
    PairInOrder(NetRun(es + more), s, t);
    OfferedHasEntry(NetRun(es + more), s, User(NetRun(es), t));
  }
}
