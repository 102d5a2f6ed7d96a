// Every reachable state of the network satisfies its invariant.

module NetworkInvariant {
  import opened Wire
  import opened RosterView
  import opened Rooms
  import opened RoomsProofs
  import opened Client
  import opened Links
  import opened Network
  import opened NetworkProofs
  import opened NetworkKnown
  import opened NetworkMentions
  import opened NetworkRelays
  import M = Mesh

  lemma FromWhole(l: Local, log: seq<ServerMsg>, k: Signal, x: UserId)
    requires l.seen <= log
    ensures l.From(k, x) <= AllFrom(k, log, x)
    ensures Mentions(l.seen, x) <= Mentions(log, x)
  {
    hide AllFrom, Mentions;
    assert log == l.seen + log[|l.seen|..];
    AllFromAppend(k, l.seen, log[|l.seen|..], x);
    MentionsAppend(l.seen, log[|l.seen|..], x);
  }

  lemma ToWhole(l: Local, k: Signal, x: UserId)
    ensures AllTo(k, l.past, x) <= l.To(k, x)
  {
    hide AllTo;
    AllToAppend(k, l.past, l.mesh.out, x);
  }

  lemma ShapeOf(net: Net, t: SockId)
    requires Shape(net) && t in net.peers
    ensures t in net.server.socks && PeerShape(net, t)
    ensures Joined(net, t) && Sole(net.server, net.peers[t].id) ==> HasHandle(net, t)
  {
  }

  lemma KnownOf(net: Net, t: SockId)
    requires KnownOk(net) && t in net.peers && t in net.server.socks
    ensures PeerKnown(net, t) && SockKnown(net.server, t)
  {
  }

  // ----- clean identities

  /** A clean identity is used by at most one socket. */
  lemma CleanIsSole(net: Net, id: Identity)
    requires Shape(net) && Clean(net, id)
    ensures Sole(net.server, id)
  {
    forall t, u | Claims(net.server, t, id) && Claims(net.server, u, id) ensures t == u {
      assert PeerShape(net, t) && PeerShape(net, u);
    }
  }

  /** Whoever is well to `x` has been brief to it. */
  lemma WellIsBrief(net: Net, id: Identity, x: UserId)
    requires Shape(net) && WellTo(net, id, x)
    ensures Brief(net.server, id, x)
  {
    forall t | Claims(net.server, t, id) ensures AllShortTo(net.server.socks[t].submitted, x) {
      assert PeerShape(net, t);
      ShortButIll(net.server.socks[t].submitted, net.peers[t].ill, x);
    }
  }

  lemma ShortButIll(ms: seq<ClientMsg>, ill: set<UserId>, x: UserId)
    requires AllShort(ms, ill) && x !in ill
    ensures AllShortTo(ms, x)
  {
    forall i | 0 <= i < |ms| ensures ShortTo(ms[i], x) { assert Short(ms[i], ill); }
  }

  lemma CleanIsFit(net: Net, s: SockId)
    requires Shape(net) && s in net.peers && Clean(net, net.peers[s].id)
    ensures s in net.server.socks && (!net.server.socks[s].phase.Done? ==> Fit(net.server, s))
  {
    hide Sole;
    ShapeOf(net, s);
    CleanIsSole(net, net.peers[s].id);
    assert Sound(net, s);
  }

  /** A client together with an id is linked to it on the server's side. */
  lemma TogetherIsLinked(net: Net, s: SockId, x: UserId)
    requires Shape(net) && s in net.peers && s in net.server.socks && Together(net, s, x)
    ensures Linked(net.server, s, x) && Hears(net.server, s, x)
  {
    hide Sole, Shape, Clean, WellTo, Gone, Brief, Fit;
    ShapeOf(net, s);
    CleanIsFit(net, s);
    WellIsBrief(net, Identity(net.peers[s].id.room, x), net.peers[s].id.user);
    CleanIsSole(net, Identity(net.peers[s].id.room, x));
  }

  // ----- the server's part

  lemma NetAllHandled(net: Net)
    requires Shape(net)
    ensures AllHandled(net.server)
  {
    hide Sole;
    forall t | t in net.server.socks && Active(net.server.socks[t])
               && Sole(net.server, net.server.socks[t].phase.Who().value)
      ensures Handled(net.server, t)
    {
      assert t in net.peers && PeerShape(net, t) && Joined(net, t) && HasHandle(net, t);
    }
  }

  /** What a server-side step does to the network: one step of the server, and
      the frame it reads leaves the uplink. */
  lemma ServerNet(net: Net, e: NetEvent, t: SockId)
    requires Possible(net, e) && ServerSide(e) && t in net.peers
    ensures var ev, net' := ServerEvent(net, e), NetStep(net, e);
            && Enabled(net.server, ev) && !ev.Connect? && ev.s == e.s
            && (ev.Text? <==> e.Serve?) && (ev.Drain? <==> e.Take?) && (ev.Hangup? <==> e.Quit?)
            && net'.server == Step(net.server, ev) && net'.peers.Keys == net.peers.Keys
            && net'.peers[t] == ServerPeer(net, e, t)
    ensures e.Serve? ==> e.s in net.peers && net.peers[e.s].mesh.out != []
                         && ServerEvent(net, e).msg == net.peers[e.s].mesh.out[0]
    ensures e.s in net.server.socks
    ensures e.Take? ==> net.server.socks[e.s].taken < |net.server.socks[e.s].log|
  {
    hide Lists, Step;
    assert Enabled(net.server, ServerEvent(net, e));
  }

  lemma SameKeys(net: Net, e: NetEvent)
    requires Shape(net) && Possible(net, e) && ServerSide(e)
    ensures NetStep(net, e).peers.Keys == net.peers.Keys
    ensures e.Serve? ==> e.s in net.peers && net.peers[e.s].mesh.out != []
    ensures NetStep(net, e).server == Step(net.server, ServerEvent(net, e))
    ensures NetStep(net, e).server.socks.Keys == net.server.socks.Keys
    ensures Enabled(net.server, ServerEvent(net, e)) && !ServerEvent(net, e).Connect?
  {
    hide EffectOf, Mail, OwnStep, Shape, Lists;
    assert !ServerEvent(net, e).Connect? && Enabled(net.server, ServerEvent(net, e));
  }

  lemma NetStepIsOrderly(net: Net, e: NetEvent)
    requires Inv(net) && Possible(net, e) && ServerSide(e)
    ensures Orderly(net.server, ServerEvent(net, e))
  {
    hide Enabled, EffectOf, Step, NetStep, Shape, SizesOk, HandlesOk, TakenOk, AllHandled, ViewsOk, MentionsOk,
         RelaysOk, LinksOk, KnownOk, NothingSentTo, Receive, JoinFieldsOk, Used;
    assert Enabled(net.server, ServerEvent(net, e));
    NetAllHandled(net);
    if e.Serve? {
      ShapeOf(net, e.s);
      FrameIsOrderly(net, e);
    } else {
      NoFrame(net.server, ServerEvent(net, e));
    }
  }

  lemma NoFrame(st: Server, e: Event)
    requires Enabled(st, e) && !e.Connect? && !e.Text?
    ensures !Kind(st, e).Enters?
  {
  }

  lemma FrameIsOrderly(net: Net, e: NetEvent)
    requires Inv(net) && Possible(net, e) && e.Serve?
    ensures var st, ev := net.server, ServerEvent(net, e);
            var me := st.socks[e.s].phase.me;
            && (Kind(st, ev).Enters? && !Used(st, Kind(st, ev).id) ==>
                  forall k, x :: NothingSentTo(st, Kind(st, ev).id, k, x))
            && (if me == None then ev.msg.Join? && st.socks[e.s].submitted == []
                else
                  && Polite(ev.msg)
                  && (ev.msg.Offer? || ev.msg.Answer? ==>
                        (Registered(st, me.value.room, ev.msg.to) ==> LenOk(ev.msg.to, MAX_ID))))
  {
    hide Shape, RoomsOk, ViewsOk, MentionsOk, RelaysOk, LinksOk, KnownOk, AllTo, NothingSentTo, Registered, Used;
    var st, p := net.server, net.peers[e.s];
    ShapeOf(net, e.s);
    FrameKind(net, e);
    if st.socks[e.s].phase.me == None {
      if !Used(st, p.id) {
        forall k, x ensures NothingSentTo(st, p.id, k, x) { NothingSentYet(net, p.id, k, x); }
      }
    } else if p.mesh.out[0].Offer? || p.mesh.out[0].Answer? {
      if Registered(st, p.id.room, p.mesh.out[0].to) { MemberLength(net, p.id.room, p.mesh.out[0].to); }
    }
  }

  lemma MemberLength(net: Net, room: RoomId, u: UserId)
    requires Shape(net) && Registered(net.server, room, u)
    ensures LenOk(u, MAX_ID)
  {
  }

  /** A frame is the Join with the client's own id, or not about membership. */
  lemma FrameKind(net: Net, e: NetEvent)
    requires Shape(net) && Possible(net, e) && e.Serve?
    ensures var st, ev := net.server, ServerEvent(net, e);
            var me := st.socks[e.s].phase.me;
            && !Kind(st, ev).Leaves?
            && (Kind(st, ev).Enters? ==> Kind(st, ev).id == net.peers[e.s].id && me == None)
            && (me.Some? ==> me.value == net.peers[e.s].id)
            && (if me == None then ev.msg.Join? && st.socks[e.s].submitted == [] else Polite(ev.msg))
  {
    hide Shape, JoinFieldsOk, Lists;
    ShapeOf(net, e.s);
  }

  lemma MemberIsPeer(net: Net, room: RoomId, u: UserId)
    requires Inv(net) && Registered(net.server, room, u)
    ensures var t := HandleSock(net.server, room, u);
            && t in net.peers && t in net.server.socks && net.peers[t].id == Identity(room, u) && Joined(net, t)
  {
    hide ViewsOk, MentionsOk, RelaysOk, LinksOk, KnownOk;
    assert HandleOk(net.server, room, u);
    assert PeerShape(net, HandleSock(net.server, room, u));
  }

  lemma {:induction false} NoneTo(k: Signal, ms: seq<ClientMsg>, x: UserId)
    requires forall i :: 0 <= i < |ms| && (ms[i].Offer? || ms[i].Answer?) ==> ms[i].to != x
    ensures AllTo(k, ms, x) == []
    decreases |ms|
  {
    if ms != [] { NoneTo(k, ms[..|ms| - 1], x); }
  }

  lemma NothingSentYet(net: Net, id: Identity, k: Signal, x: UserId)
    requires Inv(net) && !Used(net.server, id)
    ensures NothingSentTo(net.server, id, k, x)
  {
    hide AllTo, ViewsOk, MentionsOk, RelaysOk, LinksOk, Used, Shape, RoomsOk, KnownOk;
    var st := net.server;
    if Registered(st, id.room, x) && HandleSock(st, id.room, x) in st.socks {
      var t := HandleSock(st, id.room, x);
      MemberIsPeer(net, id.room, x);
      KnownOf(net, t);
      var ms := st.socks[t].submitted;
      forall i | 0 <= i < |ms| && (ms[i].Offer? || ms[i].Answer?) ensures ms[i].to != id.user {
        assert KnownTarget(st, id.room, ms[i]);
        assert Identity(id.room, id.user) == id;
      }
      NoneTo(k, ms, id.user);
    }
  }

  // ----- shape

  /** A server step keeps the handle of every member that is alone under its id. */
  lemma HandlesStay(net: Net, e: NetEvent, t: SockId)
    requires Inv(net) && Possible(net, e) && ServerSide(e)
    requires t in net.peers && Joined(NetStep(net, e), t) && Sole(NetStep(net, e).server, net.peers[t].id)
    ensures t in NetStep(net, e).peers && HasHandle(NetStep(net, e), t)
  {
    hide Enabled, EffectOf, Step, NetStep, Possible, Shape, RoomsOk, ViewsOk, MentionsOk, RelaysOk, LinksOk,
         KnownOk, Sole, RoomsProofs.Kind;
    ServerNet(net, e, t);
    var st, ev, id := net.server, ServerEvent(net, e), net.peers[t].id;
    NetStepIsOrderly(net, e);
    ShapeOf(net, t);
    PhaseStays(st, ev, t);
    SoleBefore(st, ev, id);
    WhoAfter(st, ev, t);
    if Kind(st, ev).Enters? {
      RegisteredAfterJoin(st, ev, id.user);
      if t == ev.s { EntersOwnId(net, e); } else { OtherClaim(st, ev, t); }
    } else if Kind(st, ev).Leaves? {
      RoomsAfterLeave(st, ev, id.user);
      SoleClaim(st, t, ev.s, id);
    } else {
      SameRooms(st, ev);
    }
  }

  lemma SoleClaim(st: Server, t: SockId, u: SockId, id: Identity)
    requires Sole(st, id) && Claims(st, t, id) && t != u
    ensures !Claims(st, u, id)
  {
  }

  lemma WhoAfter(st: Server, e: Event, t: SockId)
    requires Enabled(st, e) && !e.Connect? && t in st.socks
    ensures t in Step(st, e).socks
    ensures !Kind(st, e).Enters? ==> Step(st, e).socks[t].phase.Who() == st.socks[t].phase.Who()
  {
    hide Mail, Receive, Outgoing;
    MailOnly(st.socks[t], t, EffectOf(st, e).out);
    IdentityKept(st, e);
    EffectByKind(st, e);
    if Kind(st, e).Other? { OtherEffect(st, e); }
  }

  lemma EntersOwnId(net: Net, e: NetEvent)
    requires Inv(net) && Possible(net, e) && ServerSide(e) && Kind(net.server, ServerEvent(net, e)).Enters?
    ensures e.Serve? && Kind(net.server, ServerEvent(net, e)).id == net.peers[e.s].id
            && LenOk(net.peers[e.s].id.user, MAX_ID)
  {
    hide Shape, RoomsOk, ViewsOk, MentionsOk, RelaysOk, LinksOk, KnownOk, LenOk, Lists;
    ShapeOf(net, e.s);
  }

  lemma ServerShape(net: Net, e: NetEvent)
    requires Inv(net) && Possible(net, e) && ServerSide(e)
    ensures Shape(NetStep(net, e))
  {
    hide Enabled, EffectOf, Step, NetStep, Possible, RoomsOk, ViewsOk, MentionsOk, RelaysOk, LinksOk, KnownOk,
         PeerShape, HasHandle, Joined, Registered, Sole;
    var net' := NetStep(net, e);
    SameKeys(net, e);
    forall t | t in net.peers ensures PeerShape(net', t) && net'.peers[t].id == net.peers[t].id {
      ServerNet(net, e, t);
      ServerPeerShape(net, e, t);
    }
    forall t | t in net'.peers && Joined(net', t) && Sole(net'.server, net'.peers[t].id) ensures HasHandle(net', t) {
      HandlesStay(net, e, t);
    }
    forall room, u | Registered(net'.server, room, u) ensures LenOk(u, MAX_ID) { LengthsStay(net, e, room, u); }
  }

  lemma LengthsStay(net: Net, e: NetEvent, room: RoomId, u: UserId)
    requires Inv(net) && Possible(net, e) && ServerSide(e) && Registered(NetStep(net, e).server, room, u)
    ensures LenOk(u, MAX_ID)
  {
    hide EffectOf, Step, NetStep, RoomsOk, ViewsOk, MentionsOk, RelaysOk, LinksOk, KnownOk, RoomsProofs.Kind, PeerShape,
         HasHandle, Enabled, LenOk;
    var st, ev := net.server, ServerEvent(net, e);
    SameKeys(net, e);
    if Kind(st, ev).Enters? {
      RegisteredAfterJoin(st, ev, u);
      EntersOwnId(net, e);
      if room != net.peers[e.s].id.room || u != net.peers[e.s].id.user { assert Registered(st, room, u); }
    } else {
      if Kind(st, ev).Leaves? { RoomsAfterLeave(st, ev, u); } else { SameRooms(st, ev); }
      assert Registered(st, room, u);
    }
  }

  /** One socket after a step. */
  lemma SockAfter(st: Server, e: Event, t: SockId)
    requires Enabled(st, e) && !e.Connect? && t in st.socks
    ensures t in Step(st, e).socks
    ensures var k, k' := st.socks[t], Step(st, e).socks[t];
            && k.log <= k'.log
            && k'.taken == k.taken + (if t == e.s && e.Drain? then 1 else 0)
            && k'.submitted == k.submitted + (if t == e.s && e.Text? then [e.msg] else [])
            && k'.phase == (if t == e.s then EffectOf(st, e).phase else k.phase)
  {
    hide EffectOf;
    MailOnly(st.socks[t], t, EffectOf(st, e).out);
  }

  lemma ServerPeerShape(net: Net, e: NetEvent, t: SockId)
    requires Inv(net) && Possible(net, e) && ServerSide(e) && t in net.peers
    ensures t in NetStep(net, e).peers && t in NetStep(net, e).server.socks && PeerShape(NetStep(net, e), t)
  {
    hide Enabled, EffectOf, Step, NetStep, Possible, Shape, RoomsOk, ViewsOk, MentionsOk, RelaysOk, LinksOk, KnownOk,
         RoomsProofs.Kind, Orderly, AllShort, AllPolite;
    ServerNet(net, e, t);
    var st, ev := net.server, ServerEvent(net, e);
    NetStepIsOrderly(net, e);
    ShapeOf(net, t);
    SockAfter(st, ev, t);
    PhaseAfter(st, ev);
    if t == e.s && e.Serve? {
      EntersOwnIdIfAny(net, e);
      HeadMoved(net.peers[t].mesh.out, st.socks[t].submitted, net.peers[t].ill);
    } else {
      assert st.socks[t].submitted + [] == st.socks[t].submitted;
    }
  }

  lemma HeadMoved(out: seq<ClientMsg>, past: seq<ClientMsg>, ill: set<UserId>)
    requires out != []
    ensures AllShort(out, ill) && AllShort(past, ill) ==> AllShort(out[1..], ill) && AllShort(past + [out[0]], ill)
    ensures AllPolite(out) ==> AllPolite(out[1..])
  {
  }

  lemma EntersOwnIdIfAny(net: Net, e: NetEvent)
    requires Inv(net) && Possible(net, e) && e.Serve?
    ensures var st, ev := net.server, ServerEvent(net, e);
            && (Kind(st, ev).Enters? ==> Kind(st, ev).id == net.peers[e.s].id)
            && (st.socks[e.s].phase == Reading(None) ==>
                  EffectOf(st, ev).phase.Joining? || EffectOf(st, ev).phase == Done(None))
  {
    hide Shape, RoomsOk, ViewsOk, MentionsOk, RelaysOk, LinksOk, KnownOk, Lists, LenOk;
    ShapeOf(net, e.s);
  }

  /** The phase of the step's own socket. */
  lemma PhaseAfter(st: Server, e: Event)
    requires Orderly(st, e)
    ensures var phase, phase' := st.socks[e.s].phase, EffectOf(st, e).phase;
            || phase' == phase
            || (e.Text? && phase == Reading(None) && phase' == Done(None))
            || (e.Text? && phase == Reading(None) && Kind(st, e).Enters?
                && phase' == Joining(Kind(st, e).id, Kind(st, e).roster))
            || (phase.Joining? && phase' == Reading(Some(phase.id)))
            || (e.Hangup? && phase.Reading? && phase' == Done(phase.me))
  {
    hide Mail, Outgoing, AllTo, Lists, JoinFieldsOk, Notices, Step, NothingSentTo, Used;
    EffectByKind(st, e);
    if Kind(st, e).Other? { OtherEffect(st, e); }
    if e.Text? && st.socks[e.s].phase.me == None && Kind(st, e).Other? {
      RefusedJoin(st.rooms, e.s, None, e.msg, e.authOk, e.roster);
    }
  }

  // ----- known ids

  lemma TargetStays(st: Server, e: Event, room: RoomId, m: ClientMsg)
    requires Enabled(st, e) && !e.Connect? && KnownTarget(st, room, m)
    ensures KnownTarget(Step(st, e), room, m)
  {
    hide Step, Used, Enabled;
    if m.Offer? || m.Answer? { UsedStays(st, e, Identity(room, m.to)); }
  }

  lemma ServerPeerKnown(net: Net, e: NetEvent, t: SockId)
    requires Shape(net) && KnownOk(net) && Possible(net, e) && ServerSide(e) && t in net.peers
    ensures t in NetStep(net, e).peers && t in NetStep(net, e).server.socks && PeerKnown(NetStep(net, e), t)
  {
    hide Enabled, EffectOf, Step, NetStep, Possible, Shape, KnownOk, KnownTarget, Used;
    ServerNet(net, e, t);
    ShapeOf(net, t);
    KnownOf(net, t);
    var st, ev, net' := net.server, ServerEvent(net, e), NetStep(net, e);
    SockAfter(st, ev, t);
    var p, p', room := net.peers[t], net'.peers[t], net.peers[t].id.room;
    forall x | x in p'.mesh.peers ensures Used(net'.server, Identity(room, x)) { UsedStays(st, ev, Identity(room, x)); }
    forall i | 0 <= i < |p'.mesh.out| ensures KnownTarget(net'.server, room, p'.mesh.out[i]) {
      TargetStays(st, ev, room, p'.mesh.out[i]);
    }
    forall i | 0 <= i < |net'.server.socks[t].submitted|
      ensures KnownTarget(net'.server, room, net'.server.socks[t].submitted[i])
    {
      TargetStays(st, ev, room, net'.server.socks[t].submitted[i]);
    }
  }

  lemma ServerKnownOk(net: Net, e: NetEvent)
    requires Inv(net) && Possible(net, e) && ServerSide(e)
    ensures KnownOk(NetStep(net, e))
  {
    hide Enabled, EffectOf, Step, NetStep, Possible, Shape, ServerKnown, PeerKnown, ViewsOk, MentionsOk, RelaysOk,
         LinksOk, HandlesOk, SizesOk, TakenOk;
    SameKeys(net, e);
    ServerKnownStep(net.server, ServerEvent(net, e));
    var net' := NetStep(net, e);
    forall t | t in net'.peers && t in net'.server.socks ensures PeerKnown(net', t) { ServerPeerKnown(net, e, t); }
  }

  // ----- links

  /** Moving the head of the uplink to the server's side changes no link. */
  lemma LinkOkMoved(l: Local, l': Local, x: UserId)
    requires LinkOk(l, x) && Moved(l, l')
    ensures LinkOk(l', x)
  {
    hide AllTo, AllFrom, Due, Mentions, Ok;
    assert LinkOf(l', x) == LinkOf(l, x);
  }

  /** What is clean or together after any step was so before. */
  lemma CleanBefore(net: Net, e: NetEvent, id: Identity)
    requires Shape(net) && Clean(NetStep(net, e), id)
    ensures Clean(net, id)
  {
    hide NetStep, PeerShape, HasHandle;
    forall t | t in net.peers && net.peers[t].id == id ensures Sound(net, t) { SoundBefore(net, e, t); }
    forall t, u | t in net.peers && u in net.peers && net.peers[t].id == id && net.peers[u].id == id ensures t == u {
      SoundBefore(net, e, t);
      SoundBefore(net, e, u);
    }
  }

  /** A pair of ids that is clean after any step was so before. */
  lemma PairBefore(net: Net, e: NetEvent, room: RoomId, u: UserId, x: UserId)
    requires Shape(net) && CleanIds(NetStep(net, e), room, u, x)
    ensures CleanIds(net, room, u, x)
  {
    hide NetStep, Shape, Clean, WellTo;
    CleanBefore(net, e, Identity(room, u));
    CleanBefore(net, e, Identity(room, x));
    WellBefore(net, e, Identity(room, u), x);
    WellBefore(net, e, Identity(room, x), u);
  }

  lemma WellBefore(net: Net, e: NetEvent, id: Identity, x: UserId)
    requires Shape(net) && WellTo(NetStep(net, e), id, x)
    ensures WellTo(net, id, x)
  {
    hide NetStep, PeerShape, HasHandle;
    forall t | t in net.peers && net.peers[t].id == id ensures x !in net.peers[t].ill { SoundBefore(net, e, t); }
  }

  lemma SoundBefore(net: Net, e: NetEvent, t: SockId)
    requires Shape(net) && t in net.peers
    ensures t in net.server.socks && t in NetStep(net, e).peers && t in NetStep(net, e).server.socks
    ensures NetStep(net, e).peers[t].id == net.peers[t].id
    ensures Sound(NetStep(net, e), t) ==> Sound(net, t)
    ensures net.peers[t].ill <= NetStep(net, e).peers[t].ill
  {
    hide Step, Shape, Absorb, LocalOf, Harmed, Enabled;
    ShapeOf(net, t);
    if Possible(net, e) {
      if ServerSide(e) { LossIsForever(net.server, ServerEvent(net, e), t); }
      else if e.Open? || e.Reopen? { LossIsForever(net.server, Connect(e.s), t); }
    }
  }

  lemma ServerLinks(net: Net, e: NetEvent)
    requires Inv(net) && Possible(net, e) && ServerSide(e)
    ensures LinksOk(NetStep(net, e))
  {
    hide AllTo, AllFrom, LinkOk, LocalOf, NetStep, Shape, RoomsOk, ViewsOk, MentionsOk, RelaysOk, KnownOk, Together;
    var net' := NetStep(net, e);
    SameKeys(net, e);
    forall t, x | t in net'.peers && t in net'.server.socks && Together(net', t, x)
      ensures LinkOk(LocalOf(net', t), x)
    {
      LocalMoved(net, e, t);
      TogetherBefore(net, e, t, x);
      LinkOkMoved(LocalOf(net, t), LocalOf(net', t), x);
    }
  }

  lemma TogetherBefore(net: Net, e: NetEvent, t: SockId, x: UserId)
    requires Shape(net) && Possible(net, e) && ServerSide(e) && t in net.peers
    ensures var net' := NetStep(net, e);
            t in net.server.socks && t in net'.peers && t in net'.server.socks
            && (Together(net', t, x) ==> Together(net, t, x))
  {
    hide Enabled, EffectOf, Step, NetStep, Possible, Shape, Gone, CleanIds;
    ServerNet(net, e, t);
    ShapeOf(net, t);
    PhaseStays(net.server, ServerEvent(net, e), t);
    UsedStays(net.server, ServerEvent(net, e), Identity(net.peers[t].id.room, x));
    if Together(NetStep(net, e), t, x) { PairBefore(net, e, net.peers[t].id.room, net.peers[t].id.user, x); }
  }

  /** The server's reading and writing changes a client's conversation at most by
      moving the head of its uplink. */
  predicate Moved(l: Local, l': Local) {
    && l'.past + l'.mesh.out == l.past + l.mesh.out
    && l'.mesh == l.mesh.(out := l'.mesh.out) && l'.seen == l.seen && l'.base == l.base
  }

  lemma HeadMoves(p: Peer, k: Sock, k': Sock)
    requires p.mesh.out != [] && p.seen <= |k.log| && k.log <= k'.log && k'.submitted == k.submitted + [p.mesh.out[0]]
    ensures Moved(LocalOn(p, k), LocalOn(p.(mesh := p.mesh.(out := p.mesh.out[1..])), k'))
  {
    var out := p.mesh.out;
    assert out == [out[0]] + out[1..];
    assert (k.submitted + [out[0]]) + out[1..] == k.submitted + ([out[0]] + out[1..]);
  }

  lemma NothingMoves(p: Peer, k: Sock, k': Sock)
    requires p.seen <= |k.log| && k.log <= k'.log && k'.submitted == k.submitted
    ensures Moved(LocalOn(p, k), LocalOn(p, k'))
  {
  }

  lemma LocalMoved(net: Net, e: NetEvent, t: SockId)
    requires Shape(net) && Possible(net, e) && ServerSide(e) && t in net.peers
    ensures t in net.server.socks && t in NetStep(net, e).peers && t in NetStep(net, e).server.socks
    ensures Moved(LocalOf(net, t), LocalOf(NetStep(net, e), t))
  {
    hide Enabled, EffectOf, Step, NetStep, Possible, Shape, AllShort, AllPolite, LocalOn, Moved;
    ServerNet(net, e, t);
    ShapeOf(net, t);
    SockAfter(net.server, ServerEvent(net, e), t);
    var p, k, k' := net.peers[t], net.server.socks[t], NetStep(net, e).server.socks[t];
    if t == e.s && e.Serve? { HeadMoves(p, k, k'); } else { NothingMoves(p, k, k'); }
  }

  lemma ServerInv(net: Net, e: NetEvent)
    requires Inv(net) && Possible(net, e) && ServerSide(e)
    ensures Inv(NetStep(net, e))
  {
    hide Shape, SizesOk, HandlesOk, TakenOk, ViewsOk, MentionsOk, RelaysOk, LinksOk, ServerKnown, PeerKnown,
         Orderly, Calm, NetStep, RoomsProofs.Kind, EffectOf, Possible;
    SameKeys(net, e);
    var st, ev := net.server, ServerEvent(net, e);
    NetStepIsOrderly(net, e);
    OrderlyIsCalm(st, ev);
    ServerShape(net, e);
    ServerKnownOk(net, e);
    ServerLinks(net, e);
    RoomsOkStep(st, ev);
    ViewsOkStep(st, ev);
    MentionsOkStep(st, ev);
    RelaysOkStep(st, ev);
  }

  // ----- a client opens a connection, for the first time or again

  predicate Opens(e: NetEvent) {
    e.Open? || e.Reopen?
  }

  lemma OpenInv(net: Net, e: NetEvent)
    requires Inv(net) && Possible(net, e) && Opens(e)
    ensures Inv(NetStep(net, e))
  {
    hide Shape, SizesOk, HandlesOk, TakenOk, ViewsOk, MentionsOk, RelaysOk, LinksOk, ServerKnown, PeerKnown, Step;
    OpenShape(net, e);
    OpenServer(net.server, e.s);
    RoomsOkStep(net.server, Connect(e.s));
    ViewsOkStep(net.server, Connect(e.s));
    OpenKnown(net, e);
    OpenLinks(net, e);
  }

  /** What opening does: one new socket and one new client on it. */
  lemma OpenNet(net: Net, e: NetEvent)
    requires Possible(net, e) && Opens(e)
    ensures var net' := NetStep(net, e);
            && e.s !in net.peers && e.s !in net.server.socks
            && net'.server == net.server.(socks := net.server.socks[e.s := NEW_SOCK])
            && net'.peers.Keys == net.peers.Keys + {e.s}
            && (forall t :: t in net.peers ==> net'.peers[t] == net.peers[t].(on := net'.peers[t].on))
            && (e.Open? ==> net'.peers[e.s] == NewPeer(e.id, e.name))
            && (e.Reopen? ==> e.before in net.peers && net'.peers[e.s] == Reconnected(net.peers[e.before]))
  {
  }

  lemma OpenShape(net: Net, e: NetEvent)
    requires Shape(net) && Possible(net, e) && Opens(e)
    ensures Shape(NetStep(net, e))
  {
    hide LenOk, PeerShape, HasHandle, NetStep, Possible, Sole;
    var net' := NetStep(net, e);
    OpenNet(net, e);
    NewPeerShape(net, e);
    SameIdentities(net.server, e.s);
    forall t | t in net.peers
      ensures PeerShape(net', t) && (Joined(net', t) && Sole(net'.server, net'.peers[t].id) ==> HasHandle(net', t))
    {
      OldPeerShape(net, net', e.s, t);
    }
    forall room, u | Registered(net'.server, room, u) ensures LenOk(u, MAX_ID) {
      assert Registered(net.server, room, u);
    }
  }

  lemma NewPeerShape(net: Net, e: NetEvent)
    requires Shape(net) && Possible(net, e) && Opens(e)
    ensures var net' := NetStep(net, e);
            e.s in net'.peers && e.s in net'.server.socks && PeerShape(net', e.s) && !Joined(net', e.s)
  {
    hide Shape, NetStep, Possible;
    OpenNet(net, e);
    if e.Reopen? { ShapeOf(net, e.before); }
  }

  lemma OldPeerShape(net: Net, net': Net, s: SockId, t: SockId)
    requires Shape(net) && t in net.peers && s !in net.server.socks && t in net'.peers
    requires net'.server == net.server.(socks := net.server.socks[s := NEW_SOCK])
    requires net'.peers[t] == net.peers[t].(on := net'.peers[t].on)
    ensures t in net'.server.socks && PeerShape(net', t)
    ensures Joined(net', t) && Sole(net.server, net.peers[t].id) ==> HasHandle(net', t)
  {
    hide Shape, AllPolite, AllShort, Sole;
    ShapeOf(net, t);
  }

  lemma OpenServer(st: Server, s: SockId)
    requires RoomsOk(st) && MentionsOk(st) && RelaysOk(st) && s !in st.socks
    ensures MentionsOk(Step(st, Connect(s))) && RelaysOk(Step(st, Connect(s)))
  {
    hide AllTo, AllFrom, Mentions, Gone, Sole, Brief, SentBy, Roommate;
    var st' := Step(st, Connect(s));
    SameIdentities(st, s);
    forall t, x | t in st'.socks ensures ToldOnce(st', t, x) {
      if t == s {
        MentionsNone(x);
      } else {
        assert ToldOnce(st, t, x);
        SameRoommates(st, s, st.socks[t].phase.Who(), x);
      }
      NobodysRoommate(st', x);
    }
    forall t | t in st'.socks ensures LeftOk(st', t) {
      if t != s { assert LeftOk(st, t); }
    }
    forall t, k, x | t in st'.socks ensures RelayOk(st', t, k, x) {
      NothingFromAnyone(k, x);
      if t != s { assert RelayOk(st, t, k, x); SameSentBy(st, s, st.socks[t].phase.Who(), k, x); }
      NobodysMail(st', k, x);
    }
  }

  lemma SameIdentities(st: Server, s: SockId)
    requires s !in st.socks
    ensures forall id :: Used(Step(st, Connect(s)), id) <==> Used(st, id)
    ensures forall id :: Gone(Step(st, Connect(s)), id) <==> Gone(st, id)
    ensures forall id :: Sole(Step(st, Connect(s)), id) <==> Sole(st, id)
    ensures forall id, x :: Brief(Step(st, Connect(s)), id, x) <==> Brief(st, id, x)
  {
    var st' := Step(st, Connect(s));
    assert forall t, id :: Claims(st', t, id) <==> Claims(st, t, id);
  }

  lemma SameRoommates(st: Server, s: SockId, who: Option<Identity>, x: UserId)
    requires s !in st.socks
    ensures Roommate(Step(st, Connect(s)), who, x) == Roommate(st, who, x)
  {
  }

  lemma NobodysRoommate(st: Server, x: UserId)
    ensures !Roommate(st, None, x)
  {
  }

  lemma SameSentBy(st: Server, s: SockId, who: Option<Identity>, k: Signal, x: UserId)
    requires HandlesOk(st) && s !in st.socks
    ensures SentBy(Step(st, Connect(s)), who, k, x) == SentBy(st, who, k, x)
  {
    hide AllTo;
    if who.Some? && Registered(st, who.value.room, x) { assert HandleOk(st, who.value.room, x); }
  }

  lemma MentionsNone(x: UserId)
    ensures Mentions([], x) == 0
  {
  }

  lemma NothingFromAnyone(k: Signal, x: UserId)
    ensures AllFrom(k, [], x) == []
  {
  }

  lemma OpenKnown(net: Net, e: NetEvent)
    requires Shape(net) && KnownOk(net) && Possible(net, e) && Opens(e)
    ensures KnownOk(NetStep(net, e))
  {
    hide SockKnown, PeerKnown, NetStep, Possible, Shape;
    var net' := NetStep(net, e);
    OpenNet(net, e);
    forall t | t in net'.server.socks ensures SockKnown(net'.server, t) { OpenSockKnown(net.server, e.s, t); }
    forall t | t in net'.peers && t in net'.server.socks ensures PeerKnown(net', t) { OpenPeerKnown(net, e, t); }
  }

  lemma OpenSockKnown(st: Server, s: SockId, t: SockId)
    requires ServerKnown(st) && s !in st.socks && (t == s || t in st.socks)
    ensures SockKnown(Step(st, Connect(s)), t)
  {
    hide Introduces, Used;
    SameIdentities(st, s);
    if t != s { assert SockKnown(st, t); }
  }

  lemma OpenPeerKnown(net: Net, e: NetEvent, t: SockId)
    requires Shape(net) && KnownOk(net) && Possible(net, e) && Opens(e) && t in NetStep(net, e).peers
    ensures t in NetStep(net, e).server.socks && PeerKnown(NetStep(net, e), t)
  {
    hide Used, NetStep, Possible, Shape, ServerKnown;
    OpenNet(net, e);
    SameIdentities(net.server, e.s);
    if t != e.s {
      ShapeOf(net, t);
      assert PeerKnown(net, t);
    } else if e.Reopen? {
      ShapeOf(net, e.before);
      assert PeerKnown(net, e.before);
    }
  }

  lemma OpenLinks(net: Net, e: NetEvent)
    requires Shape(net) && LinksOk(net) && Possible(net, e) && Opens(e)
    ensures LinksOk(NetStep(net, e))
  {
    hide LinkOk, PeerShape, HasHandle, Gone, NetStep, Possible, Clean;
    var net' := NetStep(net, e);
    OpenNet(net, e);
    SameIdentities(net.server, e.s);
    forall t, x | t in net'.peers && t in net'.server.socks && Together(net', t, x)
      ensures LinkOk(LocalOf(net', t), x)
    {
      PairBefore(net, e, net'.peers[t].id.room, net'.peers[t].id.user, x);
      if t != e.s { assert LocalOf(net', t) == LocalOf(net, t) && Together(net, t, x); }
      else if e.Open? { NewLink(e.id, e.name, x); }
      else { TwiceIsNotClean(net', e.s, e.before); }
    }
  }

  lemma TwiceIsNotClean(net: Net, t: SockId, u: SockId)
    requires t in net.peers && u in net.peers && t != u && net.peers[t].id == net.peers[u].id
    ensures !Clean(net, net.peers[t].id)
  {
  }

  lemma NewLink(id: Identity, name: string, x: UserId)
    ensures LinkOk(Local(NewPeer(id, name).mesh, [], [], map[]), x)
  {
    var join := JoinOf(id, name);
    assert [] + [join] == [join];
    AllToOne(Offers, join, x);
    AllToOne(Answers, join, x);
  }

  // ----- a client says something that is no offer and no answer

  lemma SayInv(net: Net, e: NetEvent)
    requires Inv(net) && Possible(net, e) && e.Say?
    ensures Inv(NetStep(net, e))
  {
    hide RoomsOk, ViewsOk, MentionsOk, RelaysOk, PeerShape, HasHandle, LinkOk, NetStep, Possible, Clean, Gone, Sole,
         ServerKnown, PeerKnown, LenOk;
    var net' := NetStep(net, e);
    SayNet(net, e);
    forall t | t in net'.peers ensures PeerShape(net', t) { SayShape(net, e, t); }
    forall t, x | t in net'.peers && t in net'.server.socks && Together(net', t, x)
      ensures LinkOk(LocalOf(net', t), x)
    {
      PairBefore(net, e, net'.peers[t].id.room, net'.peers[t].id.user, x);
      SayLink(net, e, t, x);
    }
    forall t | t in net'.peers && Joined(net', t) && Sole(net'.server, net'.peers[t].id) ensures HasHandle(net', t) {
      ShapeOf(net, t);
      SayHandle(net, e, t);
    }
    forall t | t in net'.peers && t in net'.server.socks ensures PeerKnown(net', t) { SayKnown(net, e, t); }
  }

  lemma SayNet(net: Net, e: NetEvent)
    requires Possible(net, e) && e.Say?
    ensures var net' := NetStep(net, e);
            && net'.server == net.server && net'.peers.Keys == net.peers.Keys && e.s in net.peers
            && (forall t :: t in net.peers && t != e.s ==> net'.peers[t] == net.peers[t])
            && e.at <= |net.peers[e.s].mesh.out|
            && var out := net.peers[e.s].mesh.out;
               && net'.peers[e.s] == net.peers[e.s].(mesh := net.peers[e.s].mesh.(out := Inserted(out, e.m, e.at)))
               && (e.at == 0 && out != [] ==> !out[0].Join?)
    ensures e.m.Ptt? || e.m.Rekey? || e.m.Ice?
  {
    assert NetStep(net, e).peers.Keys == net.peers.Keys + {e.s};
  }

  lemma SayShape(net: Net, e: NetEvent, t: SockId)
    requires Shape(net) && Possible(net, e) && e.Say? && t in net.peers
    ensures t in net.server.socks && t in NetStep(net, e).peers && t in NetStep(net, e).server.socks
    ensures PeerShape(NetStep(net, e), t)
  {
    hide Shape, AllPolite, AllShort, NetStep, Possible, Inserted;
    SayNet(net, e);
    ShapeOf(net, t);
    if t == e.s { InsertedShape(net.peers[t].mesh.out, e.m, e.at, net.peers[t].ill); }
  }

  /** A command among the frames, and behind the Join if there is one. */
  lemma InsertedShape(out: seq<ClientMsg>, m: ClientMsg, at: nat, ill: set<UserId>)
    requires at <= |out| && (m.Ptt? || m.Rekey? || m.Ice?) && (at == 0 && out != [] ==> !out[0].Join?)
    ensures AllPolite(out) ==> AllPolite(Inserted(out, m, at))
    ensures AllShort(out, ill) ==> AllShort(Inserted(out, m, at), ill)
    ensures out != [] && out[0].Join? ==>
              var out' := Inserted(out, m, at);
              out' != [] && out'[0] == out[0] && (AllPolite(out[1..]) ==> AllPolite(out'[1..]))
  {
    var out' := Inserted(out, m, at);
    forall i | 0 <= i < |out'|
      ensures out'[i] == if i < at then out[i] else if i == at then m else out[i - 1]
    {
    }
    if out != [] && out[0].Join? && AllPolite(out[1..]) {
      forall i | 0 <= i < |out'[1..]| ensures Polite(out'[1..][i]) {
        var j := i + 1;
        if j < at { assert out[j] == out[1..][i]; } else if j > at { assert out[j - 1] == out[1..][i - 1]; }
      }
    }
  }

  lemma SayHandle(net: Net, e: NetEvent, t: SockId)
    requires Possible(net, e) && e.Say? && t in net.peers && HasHandle(net, t)
    ensures t in NetStep(net, e).peers && HasHandle(NetStep(net, e), t)
  {
    hide NetStep, Possible;
    SayNet(net, e);
  }

  lemma SayKnown(net: Net, e: NetEvent, t: SockId)
    requires KnownOk(net) && Possible(net, e) && e.Say? && t in net.peers && t in net.server.socks
    ensures t in NetStep(net, e).peers && t in NetStep(net, e).server.socks && PeerKnown(NetStep(net, e), t)
  {
    hide NetStep, Possible, Used, ServerKnown, Inserted;
    SayNet(net, e);
    assert PeerKnown(net, t);
    if t == e.s { InsertedOnly(net.peers[t].mesh.out, e.m, e.at); }
  }

  lemma InsertedOnly(out: seq<ClientMsg>, m: ClientMsg, at: nat)
    requires at <= |out|
    ensures var out' := Inserted(out, m, at); forall i :: 0 <= i < |out'| ==> out'[i] == m || out'[i] in out
  {
  }

  lemma SayLink(net: Net, e: NetEvent, t: SockId, x: UserId)
    requires LinksOk(net) && Possible(net, e) && e.Say? && t in net.peers && t in net.server.socks
    requires Together(net, t, x)
    ensures t in NetStep(net, e).peers && t in NetStep(net, e).server.socks && LinkOk(LocalOf(NetStep(net, e), t), x)
  {
    hide AllTo, AllFrom, Due, Ok, NetStep, Possible, Together, Inserted;
    SayNet(net, e);
    var l, l' := LocalOf(net, t), LocalOf(NetStep(net, e), t);
    assert LinkOk(l, x);
    if t == e.s {
      forall k ensures l'.To(k, x) == l.To(k, x) { InsertedSignals(l.past, l.mesh.out, e.m, e.at, k, x); }
      assert LinkOf(l', x) == LinkOf(l, x);
    }
  }

  /** A command among the frames changes no offer and no answer. */
  lemma InsertedSignals(past: seq<ClientMsg>, out: seq<ClientMsg>, m: ClientMsg, at: nat, k: Signal, x: UserId)
    requires at <= |out| && (m.Ptt? || m.Rekey? || m.Ice?)
    ensures AllTo(k, past + Inserted(out, m, at), x) == AllTo(k, past + out, x)
  {
    hide AllTo;
    var before := past + out[..at];
    assert past + out == before + out[at..];
    assert past + Inserted(out, m, at) == (before + [m]) + out[at..];
    AllToAppend(k, before, out[at..], x);
    AllToAppend(k, before + [m], out[at..], x);
    AllToAppend(k, before, [m], x);
    AllToOne(k, m, x);
    assert AllTo(k, before, x) + [] == AllTo(k, before, x);
  }

  // ----- a client handles a message

  /** Both directions of a pair: what one side has handled is a prefix of what
      it was sent by the server, which is a prefix of what the other has sent. */
  lemma {:induction false} Flow(net: Net, s: SockId, k: Signal, x: UserId)
    requires Inv(net) && s in net.peers && s in net.server.socks && Together(net, s, x)
    requires AllFrom(k, net.server.socks[s].log, x) != []
    ensures Joined(net, s) && Registered(net.server, net.peers[s].id.room, x)
    ensures var t := HandleSock(net.server, net.peers[s].id.room, x);
            && t in net.peers && net.peers[t].id == Identity(net.peers[s].id.room, x)
            && t in net.server.socks && Joined(net, t)
            && AllFrom(k, net.server.socks[s].log, x) == AllTo(k, net.server.socks[t].submitted, net.peers[s].id.user)
            && AllFrom(k, net.server.socks[s].log, x) <= LocalOf(net, t).To(k, net.peers[s].id.user)
  {
    hide AllTo, AllFrom, Mentions, ViewsOk, LinksOk, MentionsOk, KnownOk, Shape, HasHandle, Listed, Gone, Clean, Linked;
    ShapeOf(net, s);
    TogetherIsLinked(net, s, x);
    assert RelayOk(net.server, s, k, x);
    var room := net.peers[s].id.room;
    var t := HandleSock(net.server, room, x);
    MemberIsPeer(net, room, x);
    ToWhole(LocalOf(net, t), k, net.peers[s].id.user);
  }

  /** Two clean members are together, in both directions. */
  lemma MembersTogether(net: Net, s: SockId, t: SockId)
    requires Shape(net) && s in net.peers && t in net.peers && Joined(net, s) && Joined(net, t)
    requires net.peers[s].id.room == net.peers[t].id.room
    requires CleanIds(net, net.peers[s].id.room, net.peers[s].id.user, net.peers[t].id.user)
    ensures Together(net, s, net.peers[t].id.user)
  {
    hide HasHandle, LenOk, Gone, Clean, WellTo, Shape;
    ShapeOf(net, t);
    CleanIsSole(net, net.peers[t].id);
    ActiveNotGone(net.server, t);
    assert net.peers[t].id == Identity(net.peers[s].id.room, net.peers[t].id.user);
  }

  lemma LinkOfMember(net: Net, s: SockId, t: SockId)
    requires Inv(net) && s in net.peers && t in net.peers && Joined(net, s) && Joined(net, t)
    requires net.peers[s].id.room == net.peers[t].id.room
    requires CleanIds(net, net.peers[s].id.room, net.peers[s].id.user, net.peers[t].id.user)
    ensures Together(net, s, net.peers[t].id.user) && LinkOk(LocalOf(net, s), net.peers[t].id.user)
    ensures net.peers[s].mesh.me == net.peers[s].id.user
  {
    hide LinkOk, Together, Shape, RoomsOk, ViewsOk, MentionsOk, RelaysOk, KnownOk;
    MembersTogether(net, s, t);
    ShapeOf(net, s);
  }

  /** The two ends of a flow are linked both ways. */
  lemma FlowLink(net: Net, s: SockId, k: Signal, x: UserId)
    requires Inv(net) && s in net.peers && s in net.server.socks && Together(net, s, x)
    requires AllFrom(k, net.server.socks[s].log, x) != []
    ensures Registered(net.server, net.peers[s].id.room, x)
    ensures var t, u := HandleSock(net.server, net.peers[s].id.room, x), net.peers[s].id.user;
            && t in net.peers && t in net.server.socks && net.peers[t].id == Identity(net.peers[s].id.room, x)
            && net.peers[t].mesh.me == x && Together(net, t, u) && LinkOk(LocalOf(net, t), u)
            && AllFrom(k, net.server.socks[s].log, x) <= LocalOf(net, t).To(k, u)
  {
    hide AllTo, AllFrom, Mentions, ViewsOk, LinksOk, MentionsOk, KnownOk, Shape, RelaysOk, RoomsOk, Gone, Clean, LinkOk;
    Flow(net, s, k, x);
    LinkOfMember(net, HandleSock(net.server, net.peers[s].id.room, x), s);
  }

  /** An offer comes from a smaller id. */
  lemma {:induction false} OfferFromSmaller(net: Net, s: SockId, x: UserId)
    requires Inv(net) && s in net.peers && s in net.server.socks && Together(net, s, x)
    requires AllFrom(Offers, net.server.socks[s].log, x) != []
    ensures Less(x, net.peers[s].id.user)
  {
    hide AllTo, AllFrom, Mentions, Due, Inv, Together;
    FlowLink(net, s, Offers, x);
  }

  /** An answer comes from a larger id, and for every answer there is an offer. */
  lemma {:induction false} AnswerFromLarger(net: Net, s: SockId, x: UserId)
    requires Inv(net) && s in net.peers && s in net.server.socks && Together(net, s, x)
    requires AllFrom(Answers, net.server.socks[s].log, x) != []
    ensures Less(net.peers[s].id.user, x)
    ensures |AllFrom(Answers, net.server.socks[s].log, x)| <= |LocalOf(net, s).To(Offers, x)|
  {
    hide AllTo, AllFrom, Mentions, Due, Shape, ViewsOk, MentionsOk, RelaysOk, LinksOk, KnownOk, RoomsOk, Clean,
         Gone, Offering;
    FlowLink(net, s, Answers, x);
    var u, t := net.peers[s].id.user, HandleSock(net.server, net.peers[s].id.room, x);
    var l := LocalOf(net, t);
    AnswersMatchOffers(LinkOf(l, u), Less(x, u));
    ShapeOf(net, t);
    FromWhole(l, net.server.socks[t].log, Offers, u);
    FlowLink(net, t, Offers, u);
    LoneSocket(net, s, u);
    ExactlyOneSideIsSmaller(u, x);
    OfferFromSmaller(net, t, u);
  }

  lemma AnswersMatchOffers(k: Link, offering: bool)
    requires Ok(offering, k) && k.answersOut != []
    ensures !offering && |k.answersOut| == |k.offersIn|
  {
  }

  /** The handle of a clean client's identity is its own socket. */
  lemma LoneSocket(net: Net, s: SockId, u: UserId)
    requires Inv(net) && s in net.peers
    requires s in net.server.socks && Clean(net, net.peers[s].id) && u == net.peers[s].id.user
    requires Registered(net.server, net.peers[s].id.room, u)
    ensures HandleSock(net.server, net.peers[s].id.room, u) == s
  {
    hide Shape, ViewsOk, MentionsOk, RelaysOk, LinksOk, KnownOk, RoomsOk;
    MemberIsPeer(net, net.peers[s].id.room, u);
  }

  /** What a client is about to handle is what the room's rules allow. */
  lemma DeliveryObeys(net: Net, s: SockId, order: seq<UserId>, x: UserId)
    requires s in net.peers && s in net.server.socks && net.peers[s].seen < |net.server.socks[s].log|
    requires (forall p :: p in order <==> p in net.peers[s].mesh.peers)
             && (forall i, j :: 0 <= i < j < |order| ==> order[i] != order[j])
    requires Inv(net) && Together(net, s, x)
    ensures Obeys(LocalOf(net, s), net.server.socks[s].log[net.peers[s].seen], order, x)
  {
    hide AllTo, AllFrom, Mentions, Listed, MentionsIn, Due, Shape, RoomsOk, ViewsOk, RelaysOk, LinksOk, KnownOk, LinkOk,
         Roommate, Gone, CleanIds, Hears, Linked, Introduces;
    var l, k, n := LocalOf(net, s), net.server.socks[s], net.peers[s].seen;
    var msg := k.log[n];
    ShapeOf(net, s);
    TogetherIsLinked(net, s, x);
    var l' := l.(seen := l.seen + [msg]);
    assert l'.seen == k.log[..n + 1];
    DueAfter(l, msg, x);
    FromWhole(l', k.log, Offers, x);
    assert ToldOnce(net.server, s, x);
    assert LeftOk(net.server, s);
    if msg.Offer? && msg.from == x {
      HandledFrom(l, k.log, Offers, msg, msg.from);
      OfferFromSmaller(net, s, msg.from);
    }
    if msg.Answer? && msg.from == x {
      HandledFrom(l, k.log, Answers, msg, msg.from);
      AnswerFromLarger(net, s, msg.from);
    }
  }

  lemma HandledFrom(l: Local, log: seq<ServerMsg>, k: Signal, msg: ServerMsg, x: UserId)
    requires l.seen + [msg] <= log && SdpFrom(k, msg, x) != []
    ensures AllFrom(k, log, x) != [] && |l.From(k, x)| < |AllFrom(k, log, x)|
  {
    hide AllFrom, Mentions;
    FromWhole(l.(seen := l.seen + [msg]), log, k, x);
    AllFromSnoc(k, l.seen, msg, x);
  }

  lemma DeliverNet(net: Net, e: NetEvent)
    requires Possible(net, e) && e.Deliver?
    ensures var net' := NetStep(net, e);
            && net'.server == net.server && net'.peers.Keys == net.peers.Keys && e.s in net.peers
            && (forall t :: t in net.peers && t != e.s ==> net'.peers[t] == net.peers[t])
            && var p := net.peers[e.s];
               var l := Absorb(LocalOf(net, e.s), net.server.socks[e.s].log[p.seen], e.order, e.libs);
               net'.peers[e.s] == p.(mesh := l.mesh, seen := p.seen + 1, base := l.base,
                                     ill := p.ill + Harmed(net.server.socks[e.s].log[p.seen], e.order, e.libs))
  {
    hide Absorb, LocalOf, Harmed;
    assert NetStep(net, e).peers.Keys == net.peers.Keys + {e.s};
  }

  lemma DeliverLocal(net: Net, e: NetEvent, t: SockId)
    requires Shape(net) && Possible(net, e) && e.Deliver? && t in net.peers
    ensures t in net.server.socks && t in NetStep(net, e).peers && t in NetStep(net, e).server.socks
    ensures LocalOf(NetStep(net, e), t) ==
            if t == e.s then Absorb(LocalOf(net, t), net.server.socks[t].log[net.peers[t].seen], e.order, e.libs)
            else LocalOf(net, t)
  {
    hide OnMessage, Disciplined, AllTo, AllFrom, Harmed, Shape, NetStep;
    DeliverNet(net, e);
    ShapeOf(net, t);
    var p, log := net.peers[e.s], net.server.socks[e.s].log;
    if t == e.s { assert log[..p.seen + 1] == log[..p.seen] + [log[p.seen]]; }
  }

  lemma DeliverLinks(net: Net, e: NetEvent)
    requires Inv(net) && Possible(net, e) && e.Deliver?
    ensures LinksOk(NetStep(net, e))
  {
    hide NetStep, AllTo, AllFrom, Mentions, Due, Shape, RoomsOk, ViewsOk, MentionsOk, RelaysOk, KnownOk, LinkOk,
         Absorb, Obeys, LocalOf, Gone, Clean, Harmed, Spares;
    var net' := NetStep(net, e);
    DeliverNet(net, e);
    forall t, x | t in net'.peers && t in net'.server.socks && Together(net', t, x)
      ensures LinkOk(LocalOf(net', t), x)
    {
      PairBefore(net, e, net'.peers[t].id.room, net'.peers[t].id.user, x);
      DeliverLocal(net, e, t);
      assert Together(net, t, x) && LinkOk(LocalOf(net, t), x);
      if t == e.s {
        ShapeOf(net, t);
        Unharmed(net.server.socks[t].log[net.peers[t].seen], e.order, e.libs, x);
        DeliveryObeys(net, t, e.order, x);
        LinkOkStep(LocalOf(net, t), net.server.socks[t].log[net.peers[t].seen], e.order, e.libs, x);
      }
    }
  }

  /** A message harms no link but those it is said to harm. */
  lemma Unharmed(msg: ServerMsg, order: seq<UserId>, libs: map<UserId, M.Lib>, x: UserId)
    requires x !in Harmed(msg, order, libs)
    ensures Spares(msg, order, libs, x)
  {
    if x !in libs && x !in order { assert Benign(M.LibFor(libs, x)); }
  }

  lemma DeliverShape(net: Net, e: NetEvent)
    requires Shape(net) && Possible(net, e) && e.Deliver?
    ensures Shape(NetStep(net, e))
  {
    hide NetStep, Possible, PeerShape, HasHandle, LenOk, Sole, Absorb;
    var net' := NetStep(net, e);
    DeliverNet(net, e);
    forall t | t in net'.peers
      ensures PeerShape(net', t) && (Joined(net', t) && Sole(net'.server, net'.peers[t].id) ==> HasHandle(net', t))
    {
      ShapeOf(net, t);
      if t == e.s { DeliverPeerShape(net, e); }
      UntouchedPeer(net, net', t);
    }
  }

  lemma UntouchedPeer(net: Net, net': Net, t: SockId)
    requires net'.server == net.server && t in net.peers && t in net'.peers && t in net.server.socks
    requires net'.peers[t].id == net.peers[t].id
    ensures net'.peers[t] == net.peers[t] && PeerShape(net, t) ==> PeerShape(net', t)
    ensures Joined(net, t) == Joined(net', t) && HasHandle(net, t) == HasHandle(net', t)
  {
  }

  /** What handling a message adds to the mesh and to the uplink. */
  lemma DeliverAdds(net: Net, e: NetEvent, known: iset<UserId>)
    requires Shape(net) && Possible(net, e) && e.Deliver?
    requires forall x :: Introduces(net.server.socks[e.s].log[net.peers[e.s].seen], x) ==> x in known
    requires forall x :: x in net.peers[e.s].mesh.peers ==> x in known
    ensures e.s in NetStep(net, e).peers
    ensures Adds(net.peers[e.s].mesh, NetStep(net, e).peers[e.s].mesh, NetStep(net, e).peers[e.s].ill, known)
  {
    hide Shape, OnMessage, AllTo, AllFrom, NetStep, Adds, Introduces, Harmed, Disciplined;
    DeliverNet(net, e);
    var l, msg := LocalOf(net, e.s), net.server.socks[e.s].log[net.peers[e.s].seen];
    var ill := NetStep(net, e).peers[e.s].ill;
    HarmedIfLong(l.mesh, msg, e.order, e.libs, ill);
    OnMessageAdds(l.mesh, msg, e.order, Disciplined(l.mesh, msg, e.libs), ill, known);
  }

  lemma HarmedIfLong(m: M.MeshState, msg: ServerMsg, order: seq<UserId>, libs: map<UserId, M.Lib>, ill: set<UserId>)
    requires Harmed(msg, order, libs) <= ill
    ensures ShortLibs(Disciplined(m, msg, libs), ill)
  {
    forall p | p in libs ensures p in ill || libs[p].len <= MAX_SDP {
      if p !in Harmed(msg, order, libs) { Unharmed(msg, order, libs, p); }
    }
  }

  lemma DeliverPeerShape(net: Net, e: NetEvent)
    requires Shape(net) && Possible(net, e) && e.Deliver?
    ensures e.s in net.server.socks && e.s in NetStep(net, e).peers && e.s in NetStep(net, e).server.socks
    ensures PeerShape(NetStep(net, e), e.s)
  {
    hide Shape, OnMessage, AllTo, AllFrom, AllPolite, AllShort, Adds, NetStep, Absorb, LocalOf, Harmed, Introduces;
    ShapeOf(net, e.s);
    DeliverNet(net, e);
    var everyone: iset<UserId> := iset x: UserId | |x| >= 0;
    DeliverAdds(net, e, everyone);
    var p, ill := net.peers[e.s], NetStep(net, e).peers[e.s].ill;
    StillShort(p.mesh.out, p.ill, ill);
    StillShort(net.server.socks[e.s].submitted, p.ill, ill);
    GrownUplink(p.mesh, NetStep(net, e).peers[e.s].mesh, ill, everyone);
  }

  lemma StillShort(ms: seq<ClientMsg>, ill: set<UserId>, more: set<UserId>)
    requires AllShort(ms, ill) && ill <= more
    ensures AllShort(ms, more)
  {
    forall i | 0 <= i < |ms| ensures Short(ms[i], more) { assert Short(ms[i], ill); }
  }

  lemma GrownUplink(m: M.MeshState, m': M.MeshState, ill: set<UserId>, known: iset<UserId>)
    requires Adds(m, m', ill, known)
    ensures m'.me == m.me
    ensures AllPolite(m.out) ==> AllPolite(m'.out)
    ensures AllShort(m.out, ill) ==> AllShort(m'.out, ill)
    ensures m.out != [] ==>
              m'.out != [] && m'.out[0] == m.out[0] && (AllPolite(m.out[1..]) ==> AllPolite(m'.out[1..]))
  {
    assert m'.out == m.out + Sent(m, m');
    if m.out != [] { assert m'.out[1..] == m.out[1..] + Sent(m, m'); }
  }

  lemma DeliverKnown(net: Net, e: NetEvent)
    requires Shape(net) && KnownOk(net) && Possible(net, e) && e.Deliver?
    ensures KnownOk(NetStep(net, e))
  {
    hide NetStep, Possible, Shape, PeerKnown, ServerKnown, Absorb, LocalOf;
    var net' := NetStep(net, e);
    DeliverNet(net, e);
    forall t | t in net'.peers && t in net'.server.socks ensures PeerKnown(net', t) {
      KnownOf(net, t);
      if t == e.s { DeliverPeerKnown(net, e); } else { SamePeerKnown(net, net', t); }
    }
  }

  lemma SamePeerKnown(net: Net, net': Net, t: SockId)
    requires net'.server == net.server && t in net.peers && t in net'.peers && t in net.server.socks
    requires net'.peers[t] == net.peers[t] && PeerKnown(net, t)
    ensures PeerKnown(net', t)
  {
  }

  lemma DeliverPeerKnown(net: Net, e: NetEvent)
    requires Shape(net) && KnownOk(net) && Possible(net, e) && e.Deliver?
    ensures e.s in NetStep(net, e).peers && e.s in NetStep(net, e).server.socks && PeerKnown(NetStep(net, e), e.s)
  {
    hide Shape, AllTo, AllFrom, AllPolite, AllShort, NetStep, Absorb, LocalOf, Harmed, Introduces, Used;
    ShapeOf(net, e.s);
    KnownOf(net, e.s);
    DeliverNet(net, e);
    var st, p, room := net.server, net.peers[e.s], net.peers[e.s].id.room;
    var known := iset x | Used(st, Identity(room, x));
    assert KnownMsg(st, st.socks[e.s].phase.Who(), st.socks[e.s].log[p.seen]);
    DeliverAdds(net, e, known);
    var m' := NetStep(net, e).peers[e.s].mesh;
    assert m'.out == p.mesh.out + Sent(p.mesh, m');
  }

  lemma DeliverInv(net: Net, e: NetEvent)
    requires Inv(net) && Possible(net, e) && e.Deliver?
    ensures Inv(NetStep(net, e))
  {
    hide NetStep, Possible, Shape, RoomsOk, ViewsOk, MentionsOk, RelaysOk, LinksOk, KnownOk, Absorb;
    DeliverShape(net, e);
    DeliverKnown(net, e);
    DeliverLinks(net, e);
    DeliverNet(net, e);
  }

  // ----- all runs

  lemma EmptyNetInv()
    ensures Inv(EMPTY_NET)
  {
  }

  /** The invariant holds in every run, whatever is lost and whoever reconnects. */
  lemma {:induction false} RunInv(es: seq<NetEvent>)
    ensures Inv(NetRun(es))
  {
    hide Inv, NetStep, Possible;
    if es == [] {
      EmptyNetInv();
    } else {
      RunInv(es[..|es| - 1]);
      InvStep(NetRun(es[..|es| - 1]), es[|es| - 1]);
    }
  }

  lemma InvStep(net: Net, e: NetEvent)
    requires Inv(net)
    ensures Inv(NetStep(net, e))
  {
    hide Inv;
    if !Possible(net, e) {
      IdleStep(net, e);
    } else {
      hide Possible, NetStep;
      if Opens(e) { OpenInv(net, e); }
      else if e.Deliver? { DeliverInv(net, e); }
      else if e.Say? { SayInv(net, e); }
      else { ServerInv(net, e); }
    }
  }

  lemma IdleStep(net: Net, e: NetEvent)
    requires !Possible(net, e)
    ensures NetStep(net, e) == net
  {
  }
}
