// One client's side of its links, over any stream of server messages that obeys
// the room's rules: what it has offered and answered, and what its
// PeerConnections have applied.

module Links {
  import opened Wire
  import opened Client
  import M = Mesh

  /** The messages an operation added to the uplink. */
  function Sent(m: M.MeshState, m': M.MeshState): seq<ClientMsg>
    requires |m.out| <= |m'.out|
  {
    m'.out[|m.out|..]
  }

  predicate Extends(m: M.MeshState, m': M.MeshState) {
    m.out <= m'.out && m.next <= m'.next && m'.me == m.me
  }

  /** Nothing about the link to `x` changed. */
  predicate Same(m: M.MeshState, m': M.MeshState, x: UserId) {
    && Extends(m, m')
    && (x in m.peers <==> x in m'.peers)
    && (x in m.peers ==> m'.peers[x] == m.peers[x])
    && AllTo(Offers, Sent(m, m'), x) == [] && AllTo(Answers, Sent(m, m'), x) == []
  }

  /** One offer to `x` went out, from a PeerConnection made for it. */
  predicate Dialed(m: M.MeshState, m': M.MeshState, x: UserId) {
    && Extends(m, m')
    && AllTo(Answers, Sent(m, m'), x) == []
    && |AllTo(Offers, Sent(m, m'), x)| == 1
    && var sdp := AllTo(Offers, Sent(m, m'), x)[0];
       && m.next <= sdp.pc < m'.next
       && x in m'.peers
       && m'.peers[x] == M.FreshPc(sdp.pc).(local := Some(sdp), outstanding := true)
  }

  /** `x` has an entry: the one it had, or an unused new one. */
  predicate Met(m: M.MeshState, m': M.MeshState, x: UserId) {
    && Extends(m, m')
    && AllTo(Offers, Sent(m, m'), x) == [] && AllTo(Answers, Sent(m, m'), x) == []
    && x in m'.peers
    && (if x in m.peers then m'.peers[x] == m.peers[x]
        else m.next <= m'.peers[x].id < m'.next && m'.peers[x] == M.FreshPc(m'.peers[x].id))
  }

  lemma SentChain(a: M.MeshState, b: M.MeshState, c: M.MeshState, x: UserId)
    requires Extends(a, b) && Extends(b, c)
    ensures Extends(a, c)
    ensures forall k :: AllTo(k, Sent(a, c), x) == AllTo(k, Sent(a, b), x) + AllTo(k, Sent(b, c), x)
  {
    assert Sent(a, c) == Sent(a, b) + Sent(b, c);
    forall k ensures AllTo(k, Sent(a, c), x) == AllTo(k, Sent(a, b), x) + AllTo(k, Sent(b, c), x) {
      AllToAppend(k, Sent(a, b), Sent(b, c), x);
    }
  }

  lemma SentNothing(m: M.MeshState, m': M.MeshState, x: UserId)
    requires m'.out == m.out
    ensures AllTo(Offers, Sent(m, m'), x) == [] && AllTo(Answers, Sent(m, m'), x) == []
  {
    assert Sent(m, m') == [];
  }

  /** The library only fails on a stale answer, and makes short descriptions. */
  predicate Benign(lib: M.Lib) {
    lib.fails == {} && lib.len <= MAX_SDP
  }

  predicate AllBenign(libs: map<UserId, M.Lib>) {
    forall p :: p in libs ==> Benign(libs[p])
  }

  /** A rekey in this order gets as far as `x` without a failure. */
  predicate Reaches(order: seq<UserId>, libs: map<UserId, M.Lib>, x: UserId) {
    order != [] ==> Benign(M.LibFor(libs, order[0])) && (order[0] == x || Reaches(order[1..], libs, x))
  }

  /** The calls the client makes on a message succeed as far as its link to `x` is
      concerned: those for `x`, and, on a rekey, those before it gets to `x`. */
  predicate Spares(msg: ServerMsg, order: seq<UserId>, libs: map<UserId, M.Lib>, x: UserId) {
    Benign(M.LibFor(libs, x)) && (msg.Rekey? && x in order ==> Reaches(order, libs, x))
  }

  /** Each entry's remote description is the other's local one, and the answer is
      to the offer of this very PeerConnection. */
  predicate Matching(p: M.Pc, q: M.Pc) {
    && p.local.Some? && q.local.Some?
    && p.remote == q.local && q.remote == p.local
    && p.local.value.pc == p.id && q.local.value.pc == q.id && q.local.value.answers == Some(p.id)
    && !p.outstanding
  }

  // ----- single operations

  lemma EnsureLink(m: M.MeshState, p: UserId, lib: M.Lib, x: UserId)
    ensures var r := M.Ensure(m, p, lib);
            (x != p ==> Same(m, r.m, x)) && (Benign(lib) ==> r.ok && (x == p ==> Met(m, r.m, x)))
  {
    assert Sent(m, M.Ensure(m, p, lib).m) == [];
  }

  lemma SendOfferLink(m: M.MeshState, p: UserId, lib: M.Lib, x: UserId)
    requires Benign(lib) && p in m.peers
    ensures var r := M.SendOffer(m, p, lib);
            && r.ok && Extends(m, r.m)
            && (x != p ==> Same(m, r.m, x))
            && var sdp := Sdp(m.peers[p].id, None, lib.len);
               && r.m.peers == m.peers[p := m.peers[p].(local := Some(sdp), outstanding := true)]
               && AllTo(Offers, Sent(m, r.m), p) == [sdp] && AllTo(Answers, Sent(m, r.m), p) == []
  {
    var sdp := Sdp(m.peers[p].id, None, lib.len);
    var msg := ClientMsg.Offer(p, sdp);
    assert Sent(m, M.SendOffer(m, p, lib).m) == [msg];
    AllToOne(Offers, msg, x);
    AllToOne(Answers, msg, x);
    AllToOne(Offers, msg, p);
    AllToOne(Answers, msg, p);
  }

  lemma OnPeerLink(m: M.MeshState, p: UserId, lib: M.Lib, x: UserId)
    requires x == p ==> Benign(lib)
    ensures var r := M.OnPeer(m, p, lib);
            && Extends(m, r.m) && (Benign(lib) ==> r.ok)
            && (x != p ==> Same(m, r.m, x))
            && (x == p && !Less(m.me, x) ==> Met(m, r.m, x))
            && (x == p && Less(m.me, x) && x !in m.peers ==> Dialed(m, r.m, x))
  {
    var r := M.Ensure(m, p, lib);
    EnsureLink(m, p, lib, x);
    if Benign(lib) {
      if Less(m.me, p) {
        SendOfferLink(r.m, p, lib, x);
        SentChain(m, r.m, M.SendOffer(r.m, p, lib).m, x);
      }
    } else {
      OnPeerElsewhere(m, p, lib, x);
    }
  }

  lemma OnPeerElsewhere(m: M.MeshState, p: UserId, lib: M.Lib, x: UserId)
    requires x != p
    ensures Same(m, M.OnPeer(m, p, lib).m, x)
  {
    var r := M.Ensure(m, p, lib);
    EnsureLink(m, p, lib, x);
    if r.ok && Less(m.me, p) {
      OfferElsewhere(r.m, p, lib, x);
      SentChain(m, r.m, M.SendOffer(r.m, p, lib).m, x);
    }
  }

  lemma OfferElsewhere(m: M.MeshState, p: UserId, lib: M.Lib, x: UserId)
    requires x != p && p in m.peers
    ensures Same(m, M.SendOffer(m, p, lib).m, x)
  {
    var m' := M.SendOffer(m, p, lib).m;
    var msg := ClientMsg.Offer(p, Sdp(m.peers[p].id, None, lib.len));
    if m'.out == m.out { SentNothing(m, m', x); } else {
      assert Sent(m, m') == [msg];
      AllToOne(Offers, msg, x);
      AllToOne(Answers, msg, x);
    }
  }

  lemma RekeyOneLink(m: M.MeshState, p: UserId, lib: M.Lib, x: UserId)
    requires x == p && Less(m.me, x) ==> Benign(lib)
    ensures var r := M.RekeyOne(m, p, lib);
            && (Benign(lib) ==> r.ok)
            && (x != p || !Less(m.me, x) ==> Same(m, r.m, x))
            && (x == p && Less(m.me, x) ==> Dialed(m, r.m, x))
  {
    if Less(m.me, p) {
      OnPeerLink(M.OnLeft(m, p), p, lib, x);
    } else {
      assert Sent(m, m) == [];
    }
  }

  /** A rekey dials each listed larger id that it gets to once, and touches nothing
      else. */
  lemma {:induction false} RekeyLink(m: M.MeshState, order: seq<UserId>, libs: map<UserId, M.Lib>, x: UserId)
    requires x in order && Less(m.me, x) ==> Reaches(order, libs, x)
    requires forall i, j :: 0 <= i < j < |order| ==> order[i] != order[j]
    ensures var m' := M.Rekey(m, order, libs).m;
            if x in order && Less(m.me, x) then Dialed(m, m', x) else Same(m, m', x)
    decreases |order|
  {
    hide M.RekeyOne, M.LibFor, AllTo, Benign;
    if order == [] {
      SentNothing(m, m, x);
    } else {
      var p := order[0];
      var r := M.RekeyOne(m, p, M.LibFor(libs, p));
      RekeyOneLink(m, p, M.LibFor(libs, p), x);
      assert x in order <==> x == p || x in order[1..];
      if r.ok {
        RekeyLink(r.m, order[1..], libs, x);
        SentChain(m, r.m, M.Rekey(r.m, order[1..], libs).m, x);
      }
    }
  }

  /** A listing dials, or meets, each listed id and touches nothing else. */
  lemma {:induction false} MeetAllLink(m: M.MeshState, peers: seq<PeerInfo>, libs: map<UserId, M.Lib>, x: UserId)
    requires Listed(peers, x) <= 1 && (Listed(peers, x) == 1 ==> Benign(M.LibFor(libs, x)))
    ensures var m' := MeetAll(m, peers, libs);
            && Extends(m, m')
            && (Listed(peers, x) == 0 ==> Same(m, m', x))
            && (Listed(peers, x) == 1 && !Less(m.me, x) ==> Met(m, m', x))
            && (Listed(peers, x) == 1 && Less(m.me, x) && x !in m.peers ==> Dialed(m, m', x))
    decreases |peers|
  {
    hide M.OnPeer, M.LibFor, AllTo, Benign, Listed;
    if peers == [] {
      SentNothing(m, m, x);
      assert Listed(peers, x) == 0 by { ListedInNone(x); }
    } else {
      var p := peers[0].userId;
      var m1 := M.OnPeer(m, p, M.LibFor(libs, p)).m;
      ListedHead(peers, x);
      OnPeerLink(m, p, M.LibFor(libs, p), x);
      MeetAllLink(m1, peers[1..], libs, x);
      SentChain(m, m1, MeetAll(m1, peers[1..], libs), x);
    }
  }

  lemma ListedInNone(x: UserId)
    ensures Listed([], x) == 0
  {
  }

  lemma {:induction false} ListedHead(peers: seq<PeerInfo>, x: UserId)
    requires peers != []
    ensures Listed(peers, x) == Listed(peers[1..], x) + (if peers[0].userId == x then 1 else 0)
    decreases |peers|
  {
    if |peers| > 1 {
      assert peers[..|peers| - 1][1..] == peers[1..][..|peers| - 2];
      ListedHead(peers[..|peers| - 1], x);
    } else {
      assert peers[..0] == [] && peers[1..] == [];
    }
  }

  lemma OnOfferLink(m: M.MeshState, p: UserId, sdp: Sdp, lib: M.Lib, x: UserId)
    requires x != p
    ensures Same(m, M.OnOffer(m, p, sdp, lib).m, x)
  {
    hide M.Accept;
    var m1 := if p in m.peers && m.peers[p].remoteSet then M.OnLeft(m, p) else m;
    var r := M.Ensure(m1, p, lib);
    EnsureLink(m1, p, lib, x);
    if r.ok {
      AcceptElsewhere(r.m, p, sdp, lib, x);
      SentChain(m1, r.m, M.Accept(r.m, p, sdp, lib).m, x);
    }
  }

  lemma AcceptElsewhere(m: M.MeshState, p: UserId, sdp: Sdp, lib: M.Lib, x: UserId)
    requires x != p && p in m.peers
    ensures Same(m, M.Accept(m, p, sdp, lib).m, x)
  {
    hide M.FlushIce;
    var m' := M.Accept(m, p, sdp, lib).m;
    if m'.out == m.out {
      SentNothing(m, m', x);
    } else {
      var msg := m'.out[|m.out|];
      assert Sent(m, m') == [msg] && msg.Answer? && msg.to == p;
      AllToOne(Offers, msg, x);
      AllToOne(Answers, msg, x);
    }
  }

  /** Taking an offer from `p` answers it once, on the unused entry if there is
      one and on a new one otherwise. */
  lemma {:induction false} OnOfferAnswers(m: M.MeshState, p: UserId, sdp: Sdp, lib: M.Lib)
    requires Benign(lib)
    ensures var m' := M.OnOffer(m, p, sdp, lib).m;
            && Extends(m, m') && p in m'.peers
            && var pc := m'.peers[p];
               && AllTo(Offers, Sent(m, m'), p) == []
               && AllTo(Answers, Sent(m, m'), p) == [Sdp(pc.id, Some(sdp.pc), lib.len)]
               && pc.local == Some(Sdp(pc.id, Some(sdp.pc), lib.len)) && pc.remote == Some(sdp) && pc.remoteSet
               && (if p in m.peers && !m.peers[p].remoteSet then pc.id == m.peers[p].id else m.next <= pc.id < m'.next)
  {
    var m1 := if p in m.peers && m.peers[p].remoteSet then M.OnLeft(m, p) else m;
    var r := M.Ensure(m1, p, lib);
    EnsureLink(m1, p, lib, p);
    var m' := M.Accept(r.m, p, sdp, lib).m;
    var answer := Sdp(r.m.peers[p].id, Some(sdp.pc), lib.len);
    assert Sent(r.m, m') == [ClientMsg.Answer(p, answer)];
    AllToOne(Offers, ClientMsg.Answer(p, answer), p);
    AllToOne(Answers, ClientMsg.Answer(p, answer), p);
    SentChain(m1, r.m, m', p);
    assert Sent(m, m') == Sent(m1, m');
  }

  // ----- the state of one client's links

  /** A client: its mesh (whose `out` is the uplink not yet read by the server),
      the part of the uplink the server has read, what it has received, and, for
      each peer, how many of that peer's answers it had received when it sent
      its latest offer to it. */
  datatype Local = Local(mesh: M.MeshState, past: seq<ClientMsg>, seen: seq<ServerMsg>, base: map<UserId, nat>)
  {
    function To(k: Signal, x: UserId): seq<Sdp> {
      AllTo(k, past + mesh.out, x)
    }

    function From(k: Signal, x: UserId): seq<Sdp> {
      AllFrom(k, seen, x)
    }

    function Base(x: UserId): nat {
      if x in base && x in mesh.peers then base[x] else 0
    }
  }

  /** The outcome of a received answer follows the offer/answer discipline
      (section 4 of RFC 3264): it is refused unless an offer is outstanding. */
  function Disciplined(m: M.MeshState, msg: ServerMsg, libs: map<UserId, M.Lib>): map<UserId, M.Lib> {
    if msg.Answer? && msg.from in m.peers && !m.peers[msg.from].outstanding
    then libs[msg.from := M.Lib({M.SetRemoteAnswer}, 0)] else libs
  }

  function Absorb(l: Local, msg: ServerMsg, order: seq<UserId>, libs: map<UserId, M.Lib>): Local {
    After(l, msg, OnMessage(l.mesh, msg, order, Disciplined(l.mesh, msg, libs)))
  }

  /** The client once `msg` has turned its mesh into `m'`. */
  function After(l: Local, msg: ServerMsg, m': M.MeshState): Local {
    var seen' := l.seen + [msg];
    Local(m', l.past, seen',
          map x | x in m'.peers ::
            if |AllTo(Offers, l.past + m'.out, x)| > |l.To(Offers, x)| then |AllFrom(Answers, seen', x)| else l.Base(x))
  }

  lemma AbsorbedMesh(l: Local, msg: ServerMsg, order: seq<UserId>, libs: map<UserId, M.Lib>)
    ensures Absorb(l, msg, order, libs).mesh == OnMessage(l.mesh, msg, order, Disciplined(l.mesh, msg, libs))
  {
    hide OnMessage, AllTo, AllFrom;
  }

  predicate Increasing(sdps: seq<Sdp>, next: nat) {
    && (forall i, j :: 0 <= i < j < |sdps| ==> sdps[i].pc < sdps[j].pc)
    && (forall i :: 0 <= i < |sdps| ==> sdps[i].pc < next)
  }

  /** One link: the offers and answers sent and received on it, the offers due,
      the entry, the next PeerConnection number, and the base. */
  datatype Link = Link(offersOut: seq<Sdp>, answersOut: seq<Sdp>, offersIn: seq<Sdp>, answersIn: seq<Sdp>,
                       due: nat, entry: Option<M.Pc>, next: nat, base: nat)

  function LinkOf(l: Local, x: UserId): Link {
    Link(l.To(Offers, x), l.To(Answers, x), l.From(Offers, x), l.From(Answers, x), Due(l.seen, x),
         EntryOf(l.mesh, x), l.mesh.next, l.Base(x))
  }

  function EntryOf(m: M.MeshState, x: UserId): Option<M.Pc> {
    if x in m.peers then Some(m.peers[x]) else None
  }

  predicate Ok(offering: bool, k: Link) {
    if offering then Offering(k) else Answering(k)
  }

  /** A link after some sends, some receipts, and a new entry. */
  function NextLink(k: Link, offers: seq<Sdp>, answers: seq<Sdp>, msg: ServerMsg, x: UserId,
                    due: nat, entry: Option<M.Pc>, next: nat): Link
  {
    var answersIn := k.answersIn + SdpFrom(Answers, msg, x);
    Link(k.offersOut + offers, k.answersOut + answers, k.offersIn + SdpFrom(Offers, msg, x), answersIn, due, entry,
         next,
         if entry.None? then 0 else if offers != [] then |answersIn| else k.base)
  }

  /** The link to a larger id: this side offers. Its PeerConnection made the
      latest offer, and has applied the first answer received since, if any. */
  predicate Offering(k: Link) {
    && k.answersOut == [] && k.offersIn == []
    && |k.offersOut| == k.due
    && (k.entry.Some? <==> k.offersOut != [])
    && |k.answersIn| <= |k.offersOut|
    && Increasing(k.offersOut, k.next)
    && (k.entry.Some? ==>
          var pc, last := k.entry.value, k.offersOut[|k.offersOut| - 1];
          && pc.id == last.pc && pc.local == Some(last)
          && k.base <= |k.answersIn| && k.base < |k.offersOut|
          && (pc.outstanding <==> |k.answersIn| == k.base)
          && pc.remote == (if |k.answersIn| > k.base then Some(k.answersIn[k.base]) else None))
  }

  /** The link to a smaller id: this side answers each offer once, and its
      PeerConnection is the one that answered the latest. */
  predicate Answering(k: Link) {
    && k.offersOut == [] && k.answersIn == []
    && |k.answersOut| == |k.offersIn|
    && (forall i :: 0 <= i < |k.offersIn| ==> k.answersOut[i].answers == Some(k.offersIn[i].pc))
    && Increasing(k.answersOut, k.next)
    && (k.entry.Some? ==> k.entry.value.id < k.next)
    && (if k.offersIn == [] then k.entry.Some? ==> !k.entry.value.remoteSet
        else
          && k.entry.Some?
          && var pc, n := k.entry.value, |k.offersIn|;
             && pc.remoteSet && pc.remote == Some(k.offersIn[n - 1])
             && pc.local == Some(k.answersOut[n - 1]) && pc.id == k.answersOut[n - 1].pc)
  }

  predicate LinkOk(l: Local, x: UserId) {
    Ok(Less(l.mesh.me, x), LinkOf(l, x))
  }

  /** What the room's rules let the client receive next, as far as its link to
      `x` is concerned, while `x` stays in the room. */
  ghost predicate Obeys(l: Local, msg: ServerMsg, order: seq<UserId>, x: UserId) {
    && (msg.PeerLeft? ==> msg.userId != x)
    && Mentions(l.seen, x) + MentionsIn(msg, x) <= 1
    && (msg.Offer? && msg.from == x ==> Less(x, l.mesh.me))
    && (msg.Answer? && msg.from == x ==> Less(l.mesh.me, x) && |l.From(Answers, x)| < |l.To(Offers, x)|)
    && (msg.Rekey? ==>
          && (forall p :: p in order <==> p in l.mesh.peers)
          && (forall i, j :: 0 <= i < j < |order| ==> order[i] != order[j]))
  }

  // What each change does to a link that is in order.

  lemma SameLink(offering: bool, k: Link, msg: ServerMsg, x: UserId, due: nat, next: nat)
    requires Ok(offering, k) && Silent(msg, x) && k.next <= next && (offering ==> due == k.due)
    ensures Ok(offering, NextLink(k, [], [], msg, x, due, k.entry, next))
  {
    var k' := NextLink(k, [], [], msg, x, due, k.entry, next);
    assert k'.offersOut == k.offersOut && k'.answersOut == k.answersOut;
    assert k'.offersIn == k.offersIn && k'.answersIn == k.answersIn;
  }

  /** A new offer from a new PeerConnection. */
  lemma DialLink(k: Link, sdp: Sdp, msg: ServerMsg, x: UserId, next: nat)
    requires Offering(k) && Silent(msg, x) && k.next <= sdp.pc < next
    ensures Offering(NextLink(k, [sdp], [], msg, x, k.due + 1,
                              Some(M.FreshPc(sdp.pc).(local := Some(sdp), outstanding := true)), next))
  {
    assert k.answersIn + [] == k.answersIn;
  }

  lemma MeetLink(k: Link, msg: ServerMsg, x: UserId, id: nat, due: nat, next: nat)
    requires Answering(k) && Silent(msg, x) && k.entry.None? && k.next <= id < next
    ensures Answering(NextLink(k, [], [], msg, x, due, Some(M.FreshPc(id)), next))
  {
  }

  /** An answer applied, or refused because none is outstanding. */
  lemma AnswerLink(k: Link, from: UserId, sdp: Sdp)
    requires Offering(k) && k.entry.Some? && |k.answersIn| < |k.offersOut|
    ensures Offering(NextLink(k, [], [], ServerMsg.Answer(from, sdp), from, k.due,
                              Some(Answered(k.entry.value, sdp)), k.next))
  {
    var k' := NextLink(k, [], [], ServerMsg.Answer(from, sdp), from, k.due, Some(Answered(k.entry.value, sdp)), k.next);
    assert k'.offersOut == k.offersOut;
  }

  function Answered(pc: M.Pc, sdp: Sdp): M.Pc {
    if pc.outstanding then M.FlushIce(pc.(remote := Some(sdp), outstanding := false)) else pc
  }

  /** An offer taken and answered, on an unused or a new PeerConnection. */
  lemma OfferLink(k: Link, from: UserId, sdp: Sdp, answer: Sdp, due: nat, pc: M.Pc, next: nat)
    requires Answering(k) && k.next <= next && answer.answers == Some(sdp.pc)
    requires pc.remoteSet && pc.remote == Some(sdp) && pc.local == Some(answer) && pc.id == answer.pc
    requires if k.entry.Some? && !k.entry.value.remoteSet then pc.id == k.entry.value.id else k.next <= pc.id < next
    ensures Answering(NextLink(k, [], [answer], ServerMsg.Offer(from, sdp), from, due, Some(pc), next))
  {
    hide M.FlushIce;
    var k' := NextLink(k, [], [answer], ServerMsg.Offer(from, sdp), from, due, Some(pc), next);
    assert k'.offersIn == k.offersIn + [sdp];
    assert k.entry.Some? && !k.entry.value.remoteSet ==> k.offersIn == [];
    forall i | 0 <= i < |k'.offersIn| ensures k'.answersOut[i].answers == Some(k'.offersIn[i].pc) {
      if i < |k.offersIn| { assert k.answersOut[i].answers == Some(k.offersIn[i].pc); }
    }
  }

  lemma IceLink(offering: bool, k: Link, from: UserId, c: Candidate, x: UserId, due: nat, pc: M.Pc)
    requires Ok(offering, k) && k.entry.Some? && (offering ==> due == k.due)
    requires pc == k.entry.value.(handed := pc.handed, pending := pc.pending, received := pc.received)
    ensures Ok(offering, NextLink(k, [], [], ServerMsg.Ice(from, c), x, due, Some(pc), k.next))
  {
    SameLink(offering, k, ServerMsg.Ice(from, c), x, due, k.next);
  }

  // What each message does to the links.

  lemma ToAfter(l: Local, m': M.MeshState, k: Signal, x: UserId)
    requires Extends(l.mesh, m')
    ensures AllTo(k, l.past + m'.out, x) == l.To(k, x) + AllTo(k, Sent(l.mesh, m'), x)
  {
    assert l.past + m'.out == (l.past + l.mesh.out) + Sent(l.mesh, m');
    AllToAppend(k, l.past + l.mesh.out, Sent(l.mesh, m'), x);
  }

  lemma DueAfter(l: Local, msg: ServerMsg, x: UserId)
    ensures Due(l.seen + [msg], x) ==
            Due(l.seen, x) + MentionsIn(msg, x) + (if msg.Rekey? && Mentions(l.seen, x) > 0 then 1 else 0)
    ensures Mentions(l.seen + [msg], x) == Mentions(l.seen, x) + MentionsIn(msg, x)
  {
    assert (l.seen + [msg])[..|l.seen|] == l.seen;
  }

  /** The link after a message. */
  lemma LinkAfter(l: Local, msg: ServerMsg, m': M.MeshState, x: UserId)
    requires Extends(l.mesh, m')
    ensures LinkOf(After(l, msg, m'), x) ==
            NextLink(LinkOf(l, x), AllTo(Offers, Sent(l.mesh, m'), x), AllTo(Answers, Sent(l.mesh, m'), x),
                     msg, x, Due(l.seen + [msg], x), EntryOf(m', x), m'.next)
  {
    ToAfter(l, m', Offers, x);
    ToAfter(l, m', Answers, x);
    AllFromSnoc(Offers, l.seen, msg, x);
    AllFromSnoc(Answers, l.seen, msg, x);
  }

  predicate Silent(msg: ServerMsg, x: UserId) {
    SdpFrom(Offers, msg, x) == [] && SdpFrom(Answers, msg, x) == []
  }

  lemma SameKeeps(l: Local, msg: ServerMsg, m': M.MeshState, x: UserId)
    requires LinkOk(l, x) && Silent(msg, x) && Same(l.mesh, m', x)
    requires Less(l.mesh.me, x) ==> Due(l.seen + [msg], x) == Due(l.seen, x)
    ensures LinkOk(After(l, msg, m'), x)
  {
    hide AllTo, AllFrom, Due, Mentions;
    LinkAfter(l, msg, m', x);
    SameLink(Less(l.mesh.me, x), LinkOf(l, x), msg, x, Due(l.seen + [msg], x), m'.next);
  }

  lemma DialKeeps(l: Local, msg: ServerMsg, m': M.MeshState, x: UserId)
    requires Less(l.mesh.me, x) && LinkOk(l, x) && Silent(msg, x) && Dialed(l.mesh, m', x)
    requires Due(l.seen + [msg], x) == Due(l.seen, x) + 1
    ensures LinkOk(After(l, msg, m'), x)
  {
    hide AllTo, AllFrom, Due, Mentions;
    LinkAfter(l, msg, m', x);
    var sdp := AllTo(Offers, Sent(l.mesh, m'), x)[0];
    assert AllTo(Offers, Sent(l.mesh, m'), x) == [sdp];
    DialLink(LinkOf(l, x), sdp, msg, x, m'.next);
  }

  lemma MeetKeeps(l: Local, msg: ServerMsg, m': M.MeshState, x: UserId)
    requires !Less(l.mesh.me, x) && LinkOk(l, x) && Silent(msg, x) && Met(l.mesh, m', x)
    ensures LinkOk(After(l, msg, m'), x)
  {
    hide AllTo, AllFrom, Due, Mentions;
    LinkAfter(l, msg, m', x);
    var k := LinkOf(l, x);
    if k.entry.Some? { SameLink(false, k, msg, x, Due(l.seen + [msg], x), m'.next); }
    else { MeetLink(k, msg, x, m'.peers[x].id, Due(l.seen + [msg], x), m'.next); }
  }

  lemma OfferKeeps(l: Local, from: UserId, sdp: Sdp, lib: M.Lib)
    requires !Less(l.mesh.me, from) && LinkOk(l, from) && Benign(lib)
    ensures LinkOk(After(l, ServerMsg.Offer(from, sdp), M.OnOffer(l.mesh, from, sdp, lib).m), from)
  {
    hide AllTo, AllFrom, Due, Mentions;
    var m' := M.OnOffer(l.mesh, from, sdp, lib).m;
    OnOfferAnswers(l.mesh, from, sdp, lib);
    TakeOffer(l, from, sdp, lib, m');
  }

  lemma TakeOffer(l: Local, from: UserId, sdp: Sdp, lib: M.Lib, m': M.MeshState)
    requires !Less(l.mesh.me, from) && LinkOk(l, from)
    requires Extends(l.mesh, m') && from in m'.peers
    requires var pc := m'.peers[from];
             && AllTo(Offers, Sent(l.mesh, m'), from) == []
             && AllTo(Answers, Sent(l.mesh, m'), from) == [Sdp(pc.id, Some(sdp.pc), lib.len)]
             && pc.local == Some(Sdp(pc.id, Some(sdp.pc), lib.len)) && pc.remote == Some(sdp) && pc.remoteSet
             && (if from in l.mesh.peers && !l.mesh.peers[from].remoteSet then pc.id == l.mesh.peers[from].id
                 else l.mesh.next <= pc.id < m'.next)
    ensures LinkOk(After(l, ServerMsg.Offer(from, sdp), m'), from)
  {
    hide AllTo, AllFrom, Due, Mentions;
    var msg, pc := ServerMsg.Offer(from, sdp), m'.peers[from];
    LinkAfter(l, msg, m', from);
    OfferLink(LinkOf(l, from), from, sdp, Sdp(pc.id, Some(sdp.pc), lib.len), Due(l.seen + [msg], from), pc, m'.next);
  }

  /** An answer applied if an offer is outstanding, and refused otherwise. */
  lemma AnswerKeeps(l: Local, from: UserId, sdp: Sdp)
    requires Less(l.mesh.me, from) && LinkOk(l, from) && from in l.mesh.peers
    requires |l.From(Answers, from)| < |l.To(Offers, from)|
    ensures LinkOk(After(l, ServerMsg.Answer(from, sdp), M.Put(l.mesh, from, Answered(l.mesh.peers[from], sdp))), from)
  {
    hide AllTo, AllFrom, Due, Mentions;
    var msg, m' := ServerMsg.Answer(from, sdp), M.Put(l.mesh, from, Answered(l.mesh.peers[from], sdp));
    SentNothing(l.mesh, m', from);
    LinkAfter(l, msg, m', from);
    DueAfter(l, msg, from);
    AnswerLink(LinkOf(l, from), from, sdp);
  }

  lemma IceKeeps(l: Local, from: UserId, c: Candidate, x: UserId)
    requires LinkOk(l, x)
    ensures LinkOk(After(l, ServerMsg.Ice(from, c), M.OnIce(l.mesh, from, c)), x)
  {
    hide AllTo, AllFrom, Due, Mentions;
    var msg, m' := ServerMsg.Ice(from, c), M.OnIce(l.mesh, from, c);
    SentNothing(l.mesh, m', x);
    DueAfter(l, msg, x);
    if from == x && x in l.mesh.peers {
      LinkAfter(l, msg, m', x);
      IceLink(Less(l.mesh.me, x), LinkOf(l, x), from, c, x, Due(l.seen + [msg], x), m'.peers[x]);
    } else {
      SameKeeps(l, msg, m', x);
    }
  }

  lemma ByMention(l: Local, msg: ServerMsg, m': M.MeshState, x: UserId)
    requires LinkOk(l, x) && (msg.Roster? || msg.PeerJoined?)
    requires Mentions(l.seen, x) + MentionsIn(msg, x) <= 1
    requires var m, n := l.mesh, MentionsIn(msg, x);
             && (n == 0 ==> Same(m, m', x))
             && (n == 1 && !Less(m.me, x) ==> Met(m, m', x))
             && (n == 1 && Less(m.me, x) && x !in m.peers ==> Dialed(m, m', x))
    ensures LinkOk(After(l, msg, m'), x)
  {
    hide AllTo, AllFrom, Due, Mentions;
    DueAfter(l, msg, x);
    DueIffMentioned(l.seen, x);
    if MentionsIn(msg, x) == 0 { SameKeeps(l, msg, m', x); }
    else if Less(l.mesh.me, x) {
      assert LinkOf(l, x).entry.None?;
      DialKeeps(l, msg, m', x);
    }
    else { MeetKeeps(l, msg, m', x); }
  }

  lemma ByRekey(l: Local, who: string, order: seq<UserId>, libs: map<UserId, M.Lib>, x: UserId)
    requires LinkOk(l, x) && Obeys(l, ServerMsg.Rekey(who), order, x) && (x in order ==> Reaches(order, libs, x))
    ensures LinkOk(After(l, ServerMsg.Rekey(who), M.Rekey(l.mesh, order, libs).m), x)
  {
    hide AllTo, AllFrom, Due, Mentions;
    var msg, m' := ServerMsg.Rekey(who), M.Rekey(l.mesh, order, libs).m;
    RekeyLink(l.mesh, order, libs, x);
    DueAfter(l, msg, x);
    DueIffMentioned(l.seen, x);
    if x in order && Less(l.mesh.me, x) {
      assert LinkOf(l, x).entry.Some?;
      DialKeeps(l, msg, m', x);
    } else {
      assert Less(l.mesh.me, x) ==> LinkOf(l, x).entry.None?;
      SameKeeps(l, msg, m', x);
    }
  }

  lemma ByListing(l: Local, peers: seq<PeerInfo>, libs: map<UserId, M.Lib>, x: UserId)
    requires LinkOk(l, x) && Benign(M.LibFor(libs, x)) && Mentions(l.seen, x) + Listed(peers, x) <= 1
    ensures LinkOk(After(l, Roster(peers), MeetAll(l.mesh, peers, libs)), x)
  {
    hide AllTo, AllFrom, Due, Mentions;
    MeetAllLink(l.mesh, peers, libs, x);
    ByMention(l, Roster(peers), MeetAll(l.mesh, peers, libs), x);
  }

  lemma ByNotice(l: Local, u: UserId, name: string, lib: M.Lib, x: UserId)
    requires LinkOk(l, x) && (u == x ==> Benign(lib)) && Mentions(l.seen, x) + (if u == x then 1 else 0) <= 1
    ensures LinkOk(After(l, PeerJoined(u, name), M.OnPeer(l.mesh, u, lib).m), x)
  {
    hide AllTo, AllFrom, Due, Mentions;
    OnPeerLink(l.mesh, u, lib, x);
    ByMention(l, PeerJoined(u, name), M.OnPeer(l.mesh, u, lib).m, x);
  }

  lemma ByOffer(l: Local, from: UserId, sdp: Sdp, lib: M.Lib, x: UserId)
    requires LinkOk(l, x) && (from == x ==> Benign(lib) && Less(x, l.mesh.me))
    ensures LinkOk(After(l, ServerMsg.Offer(from, sdp), M.OnOffer(l.mesh, from, sdp, lib).m), x)
  {
    hide AllTo, AllFrom, Due, Mentions;
    if x == from {
      ExactlyOneSideIsSmaller(from, l.mesh.me);
      OfferKeeps(l, from, sdp, lib);
    } else {
      OnOfferLink(l.mesh, from, sdp, lib, x);
      DueAfter(l, ServerMsg.Offer(from, sdp), x);
      SameKeeps(l, ServerMsg.Offer(from, sdp), M.OnOffer(l.mesh, from, sdp, lib).m, x);
    }
  }

  /** The mesh after an answer that does not touch the link to `x`. */
  lemma ByOtherAnswer(l: Local, from: UserId, sdp: Sdp, order: seq<UserId>, libs: map<UserId, M.Lib>, x: UserId)
    requires LinkOk(l, x) && x != from
    ensures LinkOk(Absorb(l, ServerMsg.Answer(from, sdp), order, libs), x)
  {
    hide AllTo, AllFrom, Due, Mentions;
    var msg := ServerMsg.Answer(from, sdp);
    var m' := OnMessage(l.mesh, msg, order, Disciplined(l.mesh, msg, libs));
    SentNothing(l.mesh, m', x);
    DueAfter(l, msg, x);
    SameKeeps(l, msg, m', x);
  }

  lemma ByDeparture(l: Local, u: UserId, x: UserId)
    requires LinkOk(l, x) && x != u
    ensures LinkOk(After(l, PeerLeft(u), M.OnLeft(l.mesh, u)), x)
  {
    hide AllTo, AllFrom, Due, Mentions;
    SentNothing(l.mesh, M.OnLeft(l.mesh, u), x);
    DueAfter(l, PeerLeft(u), x);
    SameKeeps(l, PeerLeft(u), M.OnLeft(l.mesh, u), x);
  }

  lemma HasEntry(l: Local, x: UserId)
    requires LinkOk(l, x) && Less(l.mesh.me, x) && l.To(Offers, x) != []
    ensures x in l.mesh.peers
  {
    assert LinkOf(l, x).entry.Some?;
  }

  lemma DisciplinedAnswer(l: Local, from: UserId, sdp: Sdp, order: seq<UserId>, libs: map<UserId, M.Lib>)
    requires from in l.mesh.peers && Benign(M.LibFor(libs, from))
    ensures Absorb(l, ServerMsg.Answer(from, sdp), order, libs) ==
            After(l, ServerMsg.Answer(from, sdp), M.Put(l.mesh, from, Answered(l.mesh.peers[from], sdp)))
  {
    var msg := ServerMsg.Answer(from, sdp);
    var m' := OnMessage(l.mesh, msg, order, Disciplined(l.mesh, msg, libs));
    assert m' == M.Put(l.mesh, from, Answered(l.mesh.peers[from], sdp));
  }

  lemma ByOther(l: Local, msg: ServerMsg, x: UserId)
    requires LinkOk(l, x) && MentionsIn(msg, x) == 0 && !msg.Rekey? && Silent(msg, x)
    ensures LinkOk(After(l, msg, l.mesh), x)
  {
    hide AllTo, AllFrom, Due, Mentions;
    SentNothing(l.mesh, l.mesh, x);
    DueAfter(l, msg, x);
    SameKeeps(l, msg, l.mesh, x);
  }

  /** Every message the room's rules allow keeps the link in order, whatever fails
      on the links to others. */
  lemma {:induction false} LinkOkStep(l: Local, msg: ServerMsg, order: seq<UserId>, libs: map<UserId, M.Lib>, x: UserId)
    requires LinkOk(l, x) && Obeys(l, msg, order, x) && Spares(msg, order, libs, x)
    ensures LinkOk(Absorb(l, msg, order, libs), x)
  {
    hide AllTo, AllFrom, Due, Mentions;
    match msg
    case Roster(peers) =>
      assert MentionsIn(msg, x) == Listed(peers, x);
      ByListing(l, peers, libs, x);
    case PeerJoined(u, name) =>
      assert MentionsIn(msg, x) == if u == x then 1 else 0;
      ByNotice(l, u, name, M.LibFor(libs, u), x);
    case PeerLeft(u) => ByDeparture(l, u, x);
    case Rekey(who) => ByRekey(l, who, order, libs, x);
    case Offer(from, sdp) => ByOffer(l, from, sdp, M.LibFor(libs, from), x);
    case Answer(from, sdp) =>
      if x == from {
        HasEntry(l, from);
        DisciplinedAnswer(l, from, sdp, order, libs);
        AnswerKeeps(l, from, sdp);
      } else {
        ByOtherAnswer(l, from, sdp, order, libs, x);
      }
    case Ice(from, c) => IceKeeps(l, from, c, x);
    case _ => ByOther(l, msg, x);
  }
}
