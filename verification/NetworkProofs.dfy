// Facts about single steps that the proofs of the network's invariant share: what a
// client adds to its uplink, what a log gains, and who is who before and after.

module NetworkProofs {
  import opened Wire
  import opened RosterView
  import opened Rooms
  import opened RoomsProofs
  import opened Client
  import opened Links
  import opened Network
  import M = Mesh

  // ----- what a client adds to its mesh and to its uplink

  /** The peers the mesh has entries for. */
  ghost predicate Within(m: M.MeshState, known: iset<UserId>) {
    forall x :: x in m.peers ==> x in known
  }

  ghost predicate TargetsIn(ms: seq<ClientMsg>, known: iset<UserId>) {
    forall i :: 0 <= i < |ms| && (ms[i].Offer? || ms[i].Answer?) ==> ms[i].to in known
  }

  /** Entries and signals for known ids only; no Join, no Leave, and nothing too
      long but for what goes to `ill`. */
  ghost predicate Adds(m: M.MeshState, m': M.MeshState, ill: set<UserId>, known: iset<UserId>) {
    && Extends(m, m') && AllPolite(Sent(m, m')) && AllShort(Sent(m, m'), ill)
    && (Within(m, known) ==> Within(m', known) && TargetsIn(Sent(m, m'), known))
  }

  lemma AddsChain(a: M.MeshState, b: M.MeshState, c: M.MeshState, ill: set<UserId>, known: iset<UserId>)
    requires Adds(a, b, ill, known) && Adds(b, c, ill, known)
    ensures Adds(a, c, ill, known)
  {
    assert Sent(a, c) == Sent(a, b) + Sent(b, c);
  }

  predicate ShortLibs(libs: map<UserId, M.Lib>, ill: set<UserId>) {
    forall p :: p in libs ==> p in ill || libs[p].len <= MAX_SDP
  }

  lemma OnPeerAdds(m: M.MeshState, p: UserId, lib: M.Lib, ill: set<UserId>, known: iset<UserId>)
    requires p in known && (p in ill || lib.len <= MAX_SDP)
    ensures Adds(m, M.OnPeer(m, p, lib).m, ill, known)
  {
    var r := M.Ensure(m, p, lib);
    assert Sent(m, r.m) == [];
    if r.ok && Less(m.me, p) && {M.DataChannel, M.CreateOffer, M.SetLocalOffer} * lib.fails == {} {
      assert Sent(m, M.OnPeer(m, p, lib).m) == [ClientMsg.Offer(p, Sdp(r.m.peers[p].id, None, lib.len))];
    }
  }

  lemma {:induction false} MeetAllAdds(m: M.MeshState, peers: seq<PeerInfo>, libs: map<UserId, M.Lib>, ill: set<UserId>,
                                       known: iset<UserId>)
    requires ShortLibs(libs, ill) && forall i :: 0 <= i < |peers| ==> peers[i].userId in known
    ensures Adds(m, MeetAll(m, peers, libs), ill, known)
    decreases |peers|
  {
    if peers == [] {
      assert Sent(m, m) == [];
    } else {
      var p := peers[0].userId;
      OnPeerAdds(m, p, M.LibFor(libs, p), ill, known);
      var m1 := M.OnPeer(m, p, M.LibFor(libs, p)).m;
      MeetAllAdds(m1, peers[1..], libs, ill, known);
      AddsChain(m, m1, MeetAll(m1, peers[1..], libs), ill, known);
    }
  }

  lemma RekeyOneAdds(m: M.MeshState, p: UserId, lib: M.Lib, ill: set<UserId>, known: iset<UserId>)
    requires p in known && (p in ill || lib.len <= MAX_SDP)
    ensures Adds(m, M.RekeyOne(m, p, lib).m, ill, known)
  {
    if Less(m.me, p) {
      OnPeerAdds(M.OnLeft(m, p), p, lib, ill, known);
    } else {
      assert Sent(m, m) == [];
    }
  }

  lemma {:induction false} RekeyAdds(m: M.MeshState, order: seq<UserId>, libs: map<UserId, M.Lib>, ill: set<UserId>,
                                     known: iset<UserId>)
    requires ShortLibs(libs, ill) && forall i :: 0 <= i < |order| ==> order[i] in known
    ensures Adds(m, M.Rekey(m, order, libs).m, ill, known)
    decreases |order|
  {
    if order == [] {
      assert Sent(m, m) == [];
    } else {
      var lib := M.LibFor(libs, order[0]);
      RekeyOneAdds(m, order[0], lib, ill, known);
      var r := M.RekeyOne(m, order[0], lib);
      RekeyAdds(r.m, order[1..], libs, ill, known);
      AddsChain(m, r.m, M.Rekey(r.m, order[1..], libs).m, ill, known);
    }
  }

  lemma OnOfferAdds(m: M.MeshState, p: UserId, sdp: Sdp, lib: M.Lib, ill: set<UserId>, known: iset<UserId>)
    requires p in known && (p in ill || lib.len <= MAX_SDP)
    ensures Adds(m, M.OnOffer(m, p, sdp, lib).m, ill, known)
  {
    hide M.Accept;
    var m1 := if p in m.peers && m.peers[p].remoteSet then M.OnLeft(m, p) else m;
    var r := M.Ensure(m1, p, lib);
    assert Sent(m, r.m) == [];
    if r.ok {
      AcceptAdds(r.m, p, sdp, lib, ill, known);
      AddsChain(m, r.m, M.Accept(r.m, p, sdp, lib).m, ill, known);
    }
  }

  lemma AcceptAdds(m: M.MeshState, p: UserId, sdp: Sdp, lib: M.Lib, ill: set<UserId>, known: iset<UserId>)
    requires p in known && (p in ill || lib.len <= MAX_SDP) && p in m.peers
    ensures Adds(m, M.Accept(m, p, sdp, lib).m, ill, known)
  {
    hide M.FlushIce;
    var m' := M.Accept(m, p, sdp, lib).m;
    if m'.out != m.out {
      var answer := m'.out[|m.out|];
      assert answer.Answer? && answer.to == p && answer.sdp.len == lib.len;
      assert Sent(m, m') == [answer];
    } else {
      assert Sent(m, m') == [];
    }
  }

  lemma OnMessageAdds(m: M.MeshState, msg: ServerMsg, order: seq<UserId>, libs: map<UserId, M.Lib>, ill: set<UserId>,
                      known: iset<UserId>)
    requires ShortLibs(libs, ill)
    requires (forall x :: Introduces(msg, x) ==> x in known) && (forall i :: 0 <= i < |order| ==> order[i] in known)
    ensures Adds(m, OnMessage(m, msg, order, libs), ill, known)
  {
    match msg
    case Roster(peers) =>
      assert forall i :: 0 <= i < |peers| ==> Introduces(msg, peers[i].userId);
      MeetAllAdds(m, peers, libs, ill, known);
    case PeerJoined(u, _) =>
      assert Introduces(msg, u);
      OnPeerAdds(m, u, M.LibFor(libs, u), ill, known);
    case Rekey(_) => RekeyAdds(m, order, libs, ill, known);
    case Offer(from, sdp) =>
      assert Introduces(msg, from);
      OnOfferAdds(m, from, sdp, M.LibFor(libs, from), ill, known);
    case _ => assert Sent(m, OnMessage(m, msg, order, libs)) == [];
  }

  // ----- logs without loss

  lemma LossIsForever(st: Server, e: Event, t: SockId)
    requires t in st.socks
    ensures t in Step(st, e).socks && st.socks[t].lost <= Step(st, e).socks[t].lost
  {
    if Enabled(st, e) && !e.Connect? { MailOnly(st.socks[t], t, EffectOf(st, e).out); }
  }

  lemma {:induction false} MailWithoutLoss(k: Sock, t: SockId, out: Outbox)
    requires Mail(k, t, out).lost == 0
    ensures k.lost == 0 && Mail(k, t, out).log == k.log + out.For(t)
    decreases out
  {
    if out.Then? {
      MailOnly(k, t, out.before);
      MailWithoutLoss(k, t, out.before);
    }
  }

  /** Without loss every log grows by exactly what was sent to it. */
  lemma LogGrows(st: Server, e: Event, t: SockId)
    requires Enabled(st, e) && !e.Connect? && t in st.socks && Step(st, e).socks[t].lost == 0
    ensures Step(st, e).socks[t].log == st.socks[t].log + EffectOf(st, e).out.For(t)
  {
    MailWithoutLoss(st.socks[t], t, EffectOf(st, e).out);
  }

  // ----- mentions and relays in an outbox

  lemma {:induction false} MentionsAppend(a: seq<ServerMsg>, b: seq<ServerMsg>, x: UserId)
    ensures Mentions(a + b, x) == Mentions(a, x) + Mentions(b, x)
    decreases |b|
  {
    if b == [] {
      assert a + b == a;
    } else {
      assert (a + b)[..|a + b| - 1] == a + b[..|b| - 1];
      MentionsAppend(a, b[..|b| - 1], x);
    }
  }

  lemma MentionsOne(m: ServerMsg, x: UserId)
    ensures Mentions([m], x) == MentionsIn(m, x)
  {
    assert [m][..0] == [];
  }

  lemma {:induction false} NeutralMentions(ms: seq<ServerMsg>, x: UserId)
    requires AllNeutral(ms)
    ensures Mentions(ms, x) == 0
    decreases |ms|
  {
    if ms != [] { NeutralMentions(ms[..|ms| - 1], x); }
  }

  predicate Unsigned(m: ServerMsg) {
    !m.Offer? && !m.Answer?
  }

  predicate AllUnsigned(ms: seq<ServerMsg>) {
    forall i :: 0 <= i < |ms| ==> Unsigned(ms[i])
  }

  lemma {:induction false} UnsignedFrom(ms: seq<ServerMsg>, k: Signal, x: UserId)
    requires AllUnsigned(ms)
    ensures AllFrom(k, ms, x) == []
    decreases |ms|
  {
    if ms != [] { UnsignedFrom(ms[..|ms| - 1], k, x); }
  }

  lemma AllFromOne(k: Signal, m: ServerMsg, x: UserId)
    ensures AllFrom(k, [m], x) == SdpFrom(k, m, x)
  {
    assert [m][..0] == [];
  }

  lemma {:induction false} ListedOnce(peers: seq<PeerInfo>, v: View, x: UserId)
    requires RosterView.Lists(peers, v)
    ensures Listed(peers, x) == if x in v then 1 else 0
    decreases |peers|
  {
    if peers == [] {
      assert v == map[];
    } else {
      var front, last := peers[..|peers| - 1], peers[|peers| - 1];
      var w := v - {last.userId};
      assert w.Keys == v.Keys - {last.userId};
      ListedOnce(front, w, x);
    }
  }

  /** Every active socket that is alone under its identity holds its handle. */
  ghost predicate AllHandled(st: Server) {
    forall t :: t in st.socks && Active(st.socks[t]) && Sole(st, st.socks[t].phase.Who().value) ==> Handled(st, t)
  }

  predicate Handled(st: Server, t: SockId)
    requires t in st.socks && Active(st.socks[t])
  {
    var id := st.socks[t].phase.Who().value;
    Registered(st, id.room, id.user) && HandleSock(st, id.room, id.user) == t
  }

  /** A step of the network's server on a socket it has. */
  ghost predicate Calm(st: Server, e: Event) {
    Enabled(st, e) && !e.Connect? && HandlesOk(st) && AllHandled(st)
  }

  // ----- identities

  /** An identity, an end and a loss are for good. */
  lemma PhaseStays(st: Server, e: Event, t: SockId)
    requires Enabled(st, e) && !e.Connect? && t in st.socks
    ensures t in Step(st, e).socks
    ensures var k, k' := st.socks[t], Step(st, e).socks[t];
            && (k.phase.Who().Some? ==> k'.phase.Who() == k.phase.Who())
            && (k.phase.Done? ==> k'.phase == k.phase)
            && (t != e.s ==> k'.phase == k.phase)
            && k.submitted <= k'.submitted && k.lost <= k'.lost
  {
    hide EffectOf;
    MailOnly(st.socks[t], t, EffectOf(st, e).out);
    IdentityKept(st, e);
    if st.socks[e.s].phase.Done? { EndStays(st, e); }
  }

  lemma EndStays(st: Server, e: Event)
    requires Enabled(st, e) && !e.Connect? && st.socks[e.s].phase.Done?
    ensures EffectOf(st, e).phase == st.socks[e.s].phase
  {
  }

  lemma ClaimStays(st: Server, e: Event, t: SockId, id: Identity)
    requires Enabled(st, e) && !e.Connect? && Claims(st, t, id)
    ensures Claims(Step(st, e), t, id)
    ensures st.socks[t].phase.Done? ==> Step(st, e).socks[t].phase.Done?
    ensures forall x :: AllShortTo(Step(st, e).socks[t].submitted, x) ==> AllShortTo(st.socks[t].submitted, x)
  {
    hide Step;
    PhaseStays(st, e, t);
  }

  lemma UsedStays(st: Server, e: Event, id: Identity)
    requires Enabled(st, e) && !e.Connect?
    ensures Used(st, id) ==> Used(Step(st, e), id)
    ensures Gone(st, id) ==> Gone(Step(st, e), id)
  {
    hide Step, Enabled;
    if t :| Claims(st, t, id) { ClaimStays(st, e, t, id); }
    if t :| Claims(st, t, id) && st.socks[t].phase.Done? { ClaimStays(st, e, t, id); }
  }

  lemma SoleBefore(st: Server, e: Event, id: Identity)
    requires Enabled(st, e) && !e.Connect? && Sole(Step(st, e), id)
    ensures Sole(st, id)
  {
    hide Step, Enabled;
    forall t, u | Claims(st, t, id) && Claims(st, u, id) ensures t == u {
      ClaimStays(st, e, t, id);
      ClaimStays(st, e, u, id);
    }
  }

  lemma BriefBefore(st: Server, e: Event, id: Identity, to: UserId)
    requires Enabled(st, e) && !e.Connect? && Brief(Step(st, e), id, to)
    ensures Brief(st, id, to)
  {
    hide Step, Enabled, AllShortTo;
    forall t | Claims(st, t, id) ensures AllShortTo(st.socks[t].submitted, to) { ClaimStays(st, e, t, id); }
  }

  lemma FitBefore(st: Server, e: Event, t: SockId)
    requires Enabled(st, e) && !e.Connect? && t in st.socks
    ensures t in Step(st, e).socks
    ensures Fit(Step(st, e), t) ==> Fit(st, t)
  {
    hide Step, Enabled, Sole;
    PhaseStays(st, e, t);
    var who := st.socks[t].phase.Who();
    if Fit(Step(st, e), t) && who.Some? { SoleBefore(st, e, who.value); }
  }

  lemma HearsBefore(st: Server, e: Event, t: SockId, x: UserId)
    requires Enabled(st, e) && !e.Connect? && t in st.socks
    ensures t in Step(st, e).socks
    ensures Hears(Step(st, e), t, x) ==> Hears(st, t, x)
  {
    hide Step, Enabled, Sole, Fit;
    PhaseStays(st, e, t);
    FitBefore(st, e, t);
    var who := st.socks[t].phase.Who();
    if Hears(Step(st, e), t, x) && who.Some? { SoleBefore(st, e, Identity(who.value.room, x)); }
  }

  lemma RegisteredIsUsed(st: Server, room: RoomId, u: UserId)
    requires HandlesOk(st) && Registered(st, room, u)
    ensures Used(st, Identity(room, u))
  {
    assert HandleOk(st, room, u);
    assert Claims(st, HandleSock(st, room, u), Identity(room, u));
  }

  /** The identity of an active socket that is alone under it is not gone. */
  lemma ActiveNotGone(st: Server, t: SockId)
    requires t in st.socks && Active(st.socks[t]) && Sole(st, st.socks[t].phase.Who().value)
    ensures !Gone(st, st.socks[t].phase.Who().value)
  {
    assert Claims(st, t, st.socks[t].phase.Who().value);
  }

  /** A joining socket that is alone under its identity is the first to use it. */
  lemma NewcomerIsNew(st: Server, e: Event)
    requires Calm(st, e) && Kind(st, e).Enters? && Sole(Step(st, e), Kind(st, e).id)
    ensures !Used(st, Kind(st, e).id) && !Registered(st, Kind(st, e).id.room, Kind(st, e).id.user)
  {
    hide Step, AllHandled, HandlesOk;
    var id := Kind(st, e).id;
    NewIdentityUsed(st, e);
    if t :| Claims(st, t, id) {
      ClaimStays(st, e, t, id);
      EntersUnclaimed(st, e);
    }
    if Registered(st, id.room, id.user) { RegisteredIsUsed(st, id.room, id.user); }
  }

  lemma EntersUnclaimed(st: Server, e: Event)
    requires Enabled(st, e) && !e.Connect? && Kind(st, e).Enters?
    ensures e.s in st.socks && st.socks[e.s].phase == Reading(None)
  {
    hide JoinFieldsOk, Lists;
  }

  lemma NewIdentityUsed(st: Server, e: Event)
    requires Enabled(st, e) && !e.Connect? && Kind(st, e).Enters?
    ensures Claims(Step(st, e), e.s, Kind(st, e).id) && Used(Step(st, e), Kind(st, e).id)
  {
    hide Mail, Receive, JoinFieldsOk, Lists;
    EffectByKind(st, e);
    assert Claims(Step(st, e), e.s, Kind(st, e).id);
  }

  // ----- what joins, departures and rosters do

  lemma JoinUnsigned(st: Server, e: Event, t: SockId)
    requires Enabled(st, e) && !e.Connect? && Kind(st, e).Enters?
    ensures var ms := EffectOf(st, e).out.For(t);
            forall i :: 0 <= i < |ms| ==> Unsigned(ms[i]) && !ms[i].PeerLeft?
  {
    hide EnterRoom, Receive, JoinFieldsOk;
    EffectByKind(st, e);
    var Enters(id, name, roster) := Kind(st, e);
    EnterUnsigned(st.rooms, e.s, id, name, roster, t);
  }

  lemma EnterUnsigned(rooms: map<RoomId, Room>, s: SockId, id: Identity, name: string, roster: seq<PeerInfo>, t: SockId)
    requires !(|RoomOf(rooms, id.room)| >= HARD_CAP && id.user !in RoomOf(rooms, id.room))
    ensures var ms := EnterRoom(rooms, s, id, name, roster).out.For(t);
            forall i :: 0 <= i < |ms| ==> Unsigned(ms[i]) && !ms[i].PeerLeft?
  {
    hide EnterRoom;
    EnterMail(rooms, s, id, name, roster, t);
  }

  lemma OutsideRoom(st: Server, t: SockId, room: RoomId)
    requires HandlesOk(st) && t in st.socks
    requires st.socks[t].phase.Who() == None || st.socks[t].phase.Who().value.room != room
    ensures t !in SocksOf(RoomOf(st.rooms, room))
  {
    forall w | w in RoomOf(st.rooms, room) ensures RoomOf(st.rooms, room)[w].sock != t {
      assert Registered(st, room, w) && HandleOk(st, room, w);
    }
  }

  lemma NoticeMentions(user: UserId, name: string, n: nat, warned: bool, x: UserId)
    ensures Mentions([] + [PeerJoined(user, name)] + (if n >= WARN_CAP && warned then [Warn(n, WARN_CAP)] else []), x)
            == if x == user then 1 else 0
  {
    hide Mentions;
    var joined := [PeerJoined(user, name)];
    assert [] + joined == joined && joined + [] == joined;
    MentionsOne(PeerJoined(user, name), x);
    MentionsAppend(joined, [Warn(n, WARN_CAP)], x);
    MentionsOne(Warn(n, WARN_CAP), x);
  }

  /** What a departure tells a socket: the departure, if it is in the room. */
  lemma LeaveMail(st: Server, e: Event, t: SockId)
    requires HandlesOk(st) && Enabled(st, e) && !e.Connect? && Kind(st, e).Leaves?
    ensures var ms, me := EffectOf(st, e).out.For(t), Kind(st, e).me;
            && (ms == [] || ms == [PeerLeft(me.user)])
            && (ms != [] ==>
                  t in st.socks && Active(st.socks[t]) && st.socks[t].phase.Who().value.room == me.room && t != e.s)
  {
    hide Mail, Receive;
    EffectByKind(st, e);
    var me, out := Kind(st, e).me, EffectOf(st, e).out;
    ForThen(out, t);
    if out.For(t) != [] {
      var r := st.rooms[me.room] - {me.user};
      var u :| u in r && r[u].sock == t;
      assert Registered(st, me.room, u) && HandleOk(st, me.room, u);
    }
  }

  lemma NeutralOrLeft(ms: seq<ServerMsg>, u: UserId, x: UserId)
    requires ms == [] || ms == [PeerLeft(u)]
    ensures Mentions(ms, x) == 0
  {
    MentionsOne(PeerLeft(u), x);
  }

  lemma EnderGone(st: Server, e: Event)
    requires Enabled(st, e) && !e.Connect? && Kind(st, e).Leaves?
    ensures Gone(Step(st, e), Kind(st, e).me)
  {
    RoomsAfterLeave(st, e, "");
    assert Claims(Step(st, e), e.s, Kind(st, e).me);
  }

  lemma PostsNoLeave(rooms: map<RoomId, Room>, s: SockId, id: Identity, roster: seq<PeerInfo>, turn: Option<string>,
                     t: SockId)
    ensures var ms := SendRoster(rooms, s, id, roster, turn).out.For(t);
            forall i :: 0 <= i < |ms| ==> Unsigned(ms[i]) && !ms[i].PeerLeft?
  {
    var out := SendRoster(rooms, s, id, roster, turn).out;
    ForThen(out, t);
    if turn.Some? { ForThen(out.before, t); }
  }

  lemma RosterMentions(rooms: map<RoomId, Room>, s: SockId, id: Identity, roster: seq<PeerInfo>, turn: Option<string>,
                       t: SockId, x: UserId)
    ensures Mentions(SendRoster(rooms, s, id, roster, turn).out.For(t), x) == if t == s then Listed(roster, x) else 0
  {
    hide Mentions, Listed;
    var out := SendRoster(rooms, s, id, roster, turn).out;
    RosterMail(rooms, s, id, roster, turn, t);
    NeutralMentions([], x);
    ForThen(out, t);
    MentionsOne(Roster(roster), x);
    if turn.Some? {
      ForThen(out.before, t);
      MentionsAppend([Roster(roster)], [Turn(turn.value)], x);
      MentionsOne(Turn(turn.value), x);
    }
  }
}
