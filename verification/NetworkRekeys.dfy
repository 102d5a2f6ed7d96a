// Rekey broadcasts: every member gets each one, and each makes one offer per
// entry for a larger id. That is one per unordered pair of members, and one more
// for each entry that is left of somebody who is gone.

module NetworkRekeys {
  import opened Wire
  import opened RosterView
  import opened Rooms
  import opened RoomsProofs
  import opened Client
  import opened Network
  import opened NetworkProofs
  import opened NetworkMentions
  import opened NetworkRelays
  import opened NetworkInvariant
  import opened NetworkTheorems
  import opened NetworkGlare
  import opened Counting
  import opened NetworkCounting

  /** The server reads a rekey of a member of the room. */
  ghost predicate Broadcasts(net: Net, e: NetEvent, room: RoomId) {
    && e.Serve? && Possible(net, e) && net.peers[e.s].mesh.out[0].Rekey?
    && net.server.socks[e.s].phase.me.Some? && net.server.socks[e.s].phase.me.value.room == room
  }

  /** How many rekeys of the room the server reads while `more` happens. */
  ghost function BroadcastCount(es: seq<NetEvent>, more: seq<NetEvent>, room: RoomId): nat {
    if more == [] then 0
    else
      var front := more[..|more| - 1];
      BroadcastCount(es, front, room) + (if Broadcasts(NetRun(es + front), more[|more| - 1], room) then 1 else 0)
  }

  /** A registered member of the room, to which no send was dropped. */
  predicate Attends(net: Net, room: RoomId, t: SockId) {
    InRoom(net, room, t) && net.server.socks[t].lost == 0 && HasHandle(net, t)
  }

  lemma AttendsBefore(net: Net, e: NetEvent, t: SockId, room: RoomId)
    requires Shape(net) && InRoom(net, room, t) && Attends(NetStep(net, e), room, t)
    ensures Attends(net, room, t)
  {
    hide Shape, NetStep, Possible;
    if !Possible(net, e) {
      IdleStep(net, e);
    } else if Opens(e) {
      OpenNet(net, e);
    } else if ServerSide(e) {
      SameKeys(net, e);
      ServerNet(net, e, t);
      PhaseStays(net.server, ServerEvent(net, e), t);
      ShapeOf(net, t);
      HandleBefore(net.server, ServerEvent(net, e), t, net.peers[t].id);
    } else if e.Deliver? {
      DeliverNet(net, e);
    } else {
      SayNet(net, e);
    }
  }

  /** A socket gets its handle when it joins, or never. */
  lemma HandleBefore(st: Server, e: Event, t: SockId, id: Identity)
    requires Enabled(st, e) && !e.Connect? && Claims(st, t, id)
    requires Registered(Step(st, e), id.room, id.user) && HandleSock(Step(st, e), id.room, id.user) == t
    ensures Registered(st, id.room, id.user) && HandleSock(st, id.room, id.user) == t
  {
    hide Step, RoomsProofs.Kind, Enabled;
    if Kind(st, e).Enters? {
      EntersUnclaimed(st, e);
      RegisteredAfterJoin(st, e, id.user);
    } else if Kind(st, e).Leaves? {
      RoomsAfterLeave(st, e, id.user);
    } else {
      SameRooms(st, e);
    }
  }

  /** What a server step adds to a member's log holds a rekey exactly when the
      step broadcasts one to its room. */
  lemma RekeysMailed(net: Net, e: NetEvent, t: SockId, room: RoomId)
    requires Inv(net) && Possible(net, e) && ServerSide(e) && InRoom(net, room, t) && Attends(NetStep(net, e), room, t)
    ensures Rekeys(NetStep(net, e).server.socks[t].log) ==
            Rekeys(net.server.socks[t].log) + (if Broadcasts(net, e, room) then 1 else 0)
  {
    hide Enabled, EffectOf, Step, NetStep, Possible, Inv, RoomsProofs.Kind, Rekeys;
    InvShape(net);
    SameKeys(net, e);
    var st, ev := net.server, ServerEvent(net, e);
    AttendsBefore(net, e, t, room);
    ServerNet(net, e, t);
    NetStepIsOrderly(net, e);
    HandledMember(net, room, t);
    LossFree(st, ev, t);
    RekeysAppend(st.socks[t].log, EffectOf(st, ev).out.For(t));
    RekeysSent(st, ev, t, room);
    if e.Serve? { FrameFacts(net, e); }
  }

  lemma FrameFacts(net: Net, e: NetEvent)
    requires Possible(net, e) && e.Serve?
    ensures e.s in net.server.socks && net.server.socks[e.s].phase.Reading?
  {
    hide Lists;
  }

  lemma HandledMember(net: Net, room: RoomId, t: SockId)
    requires Shape(net) && Attends(net, room, t)
    ensures Active(net.server.socks[t]) && Handled(net.server, t)
    ensures net.server.socks[t].phase.Who().value.room == room
  {
    hide Shape;
    ShapeOf(net, t);
  }

  predicate RekeyFrame(st: Server, e: Event, room: RoomId) {
    && e.Text? && e.msg.Rekey? && e.s in st.socks && st.socks[e.s].phase.Reading?
    && st.socks[e.s].phase.me.Some? && st.socks[e.s].phase.me.value.room == room
  }

  lemma RekeysOne(m: ServerMsg)
    ensures Rekeys([m]) == (if m.Rekey? then 1 else 0) && Rekeys([]) == 0
  {
    assert [m][..0] == [];
  }

  predicate Keyless(ms: seq<ServerMsg>) {
    forall i :: 0 <= i < |ms| ==> !ms[i].Rekey?
  }

  lemma {:induction false} NoRekeys(ms: seq<ServerMsg>)
    requires Keyless(ms)
    ensures Rekeys(ms) == 0
    decreases |ms|
  {
    if ms != [] { NoRekeys(ms[..|ms| - 1]); }
  }

  lemma RekeysSent(st: Server, e: Event, t: SockId, room: RoomId)
    requires Orderly(st, e) && t in st.socks && Active(st.socks[t]) && Handled(st, t)
    requires st.socks[t].phase.Who().value.room == room
    ensures Rekeys(EffectOf(st, e).out.For(t)) == if RekeyFrame(st, e, room) then 1 else 0
  {
    hide EffectOf, Mail, Rekeys, RoomsProofs.Kind, Orderly, Enabled, Handled;
    OrderlyIsCalm(st, e);
    if Kind(st, e).Other? {
      RekeysRelayed(st, e, t, room);
    } else {
      NoticesNoRekey(st, e, t);
      NoRekeys(EffectOf(st, e).out.For(t));
    }
  }

  lemma NoticesNoRekey(st: Server, e: Event, t: SockId)
    requires Orderly(st, e) && !Kind(st, e).Other? && t in st.socks
    ensures !(e.Text? && e.msg.Rekey?)
    ensures Keyless(EffectOf(st, e).out.For(t))
  {
    hide EffectOf, Mail, EnterRoom, SendRoster, Receive, Orderly, JoinFieldsOk;
    OrderlyIsCalm(st, e);
    EffectByKind(st, e);
    JoinFrame(st, e);
    match Kind(st, e)
    case Enters(id, name, roster) => EnterKeyless(st.rooms, e.s, id, name, roster, t);
    case Posts(id, roster) => PostsNoRekey(st.rooms, e.s, id, roster, e.turn, t);
    case Leaves(_) => LeaveMail(st, e, t);
  }

  lemma EnterKeyless(rooms: map<RoomId, Room>, s: SockId, id: Identity, name: string, roster: seq<PeerInfo>, t: SockId)
    requires !(|RoomOf(rooms, id.room)| >= HARD_CAP && id.user !in RoomOf(rooms, id.room))
    ensures Keyless(EnterRoom(rooms, s, id, name, roster).out.For(t))
  {
    hide EnterRoom;
    EnterMail(rooms, s, id, name, roster, t);
  }

  lemma JoinFrame(st: Server, e: Event)
    requires Enabled(st, e) && !e.Connect? && !Kind(st, e).Other?
    ensures !(e.Text? && e.msg.Rekey?)
  {
    hide EffectOf, JoinFieldsOk, Lists;
  }

  lemma PostsNoRekey(rooms: map<RoomId, Room>, s: SockId, id: Identity, roster: seq<PeerInfo>, turn: Option<string>,
                     t: SockId)
    ensures Keyless(SendRoster(rooms, s, id, roster, turn).out.For(t))
  {
    var out := SendRoster(rooms, s, id, roster, turn).out;
    ForThen(out, t);
    if turn.Some? { ForThen(out.before, t); }
  }

  lemma RekeysRelayed(st: Server, e: Event, t: SockId, room: RoomId)
    requires Orderly(st, e) && Kind(st, e).Other? && t in st.socks && Active(st.socks[t]) && Handled(st, t)
    requires st.socks[t].phase.Who().value.room == room
    ensures Rekeys(EffectOf(st, e).out.For(t)) == if RekeyFrame(st, e, room) then 1 else 0
  {
    hide Mail, Outgoing, Rekeys, EffectOf, Orderly, Handled, RoomsProofs.Kind;
    OrderlyIsCalm(st, e);
    if e.Text? && st.socks[e.s].phase.Who().Some? {
      MemberFrame(st, e);
      RekeyMail(st, st.socks[e.s].phase.me.value, e.msg, t);
    } else {
      AtMostRefusal(st, e);
      ForThen(EffectOf(st, e).out, t);
      NoRekeys(EffectOf(st, e).out.For(t));
    }
  }

  lemma RekeyMail(st: Server, me: Identity, m: ClientMsg, t: SockId)
    requires HandlesOk(st) && t in st.socks && Active(st.socks[t]) && Handled(st, t)
    ensures Rekeys(Outgoing(st.rooms, me, m).For(t)) ==
            if m.Rekey? && st.socks[t].phase.Who().value.room == me.room then 1 else 0
  {
    hide Rekeys;
    var out := Outgoing(st.rooms, me, m);
    ForThen(out, t);
    if m.Rekey? {
      var id := st.socks[t].phase.Who().value;
      if id.room == me.room {
        assert st.rooms[id.room][id.user].sock == t;
      } else {
        OutsideRoom(st, t, me.room);
      }
      RekeysOne(out.m);
    } else {
      NoRekeys(out.For(t));
    }
  }

  lemma RekeysAfterStep(net: Net, e: NetEvent, t: SockId, room: RoomId)
    requires Inv(net) && InRoom(net, room, t) && Attends(NetStep(net, e), room, t)
    ensures Rekeys(NetStep(net, e).server.socks[t].log) ==
            Rekeys(net.server.socks[t].log) + (if Broadcasts(net, e, room) then 1 else 0)
  {
    hide Inv, Rekeys, NetStep, Attends;
    if !Possible(net, e) {
      IdleStep(net, e);
    } else if ServerSide(e) {
      RekeysMailed(net, e, t, room);
    } else {
      hide Possible;
      if Opens(e) { OpenNet(net, e); } else if e.Deliver? { DeliverNet(net, e); } else { SayNet(net, e); }
    }
  }

  /** A member that is still registered has got every rekey broadcast to its room
      meanwhile, if no send to it was dropped. */
  lemma {:induction false} EveryMemberGetsEveryRekey(es: seq<NetEvent>, more: seq<NetEvent>, t: SockId, room: RoomId)
    requires InRoom(NetRun(es), room, t) && Attends(NetRun(es + more), room, t)
    ensures Rekeys(NetRun(es + more).server.socks[t].log) ==
            Rekeys(NetRun(es).server.socks[t].log) + BroadcastCount(es, more, room)
    decreases |more|
  {
    hide Inv, NetStep, Rekeys, Uplink, LocalOf, Broadcasts;
    if more == [] {
      assert es + more == es;
    } else {
      var front, e := more[..|more| - 1], more[|more| - 1];
      assert (es + more)[..|es + more| - 1] == es + front;
      RunInv(es + front);
      InvShape(NetRun(es + front));
      StillInRoom(es, front, e, t, room);
      AttendsBefore(NetRun(es + front), e, t, room);
      EveryMemberGetsEveryRekey(es, front, t, room);
      RekeysAfterStep(NetRun(es + front), e, t, room);
    }
  }

  /** Whoever is in the room before and after was in it all along. */
  lemma StillInRoom(es: seq<NetEvent>, front: seq<NetEvent>, e: NetEvent, t: SockId, room: RoomId)
    requires InRoom(NetRun(es), room, t) && InRoom(NetStep(NetRun(es + front), e), room, t)
    ensures InRoom(NetRun(es + front), room, t)
  {
    hide Inv, NetStep, NetRun, Uplink, LocalOf;
    RunKeepsHistory(es, front, t);
    RunInv(es + front);
    StepKeepsHistory(NetRun(es + front), e, t);
  }

  lemma CleanAttends(net: Net, room: RoomId, t: SockId)
    requires Shape(net) && InRoom(net, room, t) && CleanMember(net, t)
    ensures Attends(net, room, t)
  {
    hide Sole, Shape;
    CleanIsSole(net, net.peers[t].id);
    ShapeOf(net, t);
    assert Sound(net, t);
  }

  // ----- offers between members

  /** Between two caught-up states of a room with the same n members, each rekey
      broadcast has added n(n-1)/2 offers between them, whoever came and went. */
  lemma {:induction false} RekeyAddsOneOfferPerPair(es: seq<NetEvent>, more: seq<NetEvent>, room: RoomId,
                                                    members: seq<SockId>)
    requires Roll(NetRun(es), room, members) && CaughtUp(NetRun(es), members)
    requires var net' := NetRun(es + more);
             Roll(net', room, members) && CaughtUp(net', members) && CleanMembers(net', members)
    ensures 2 * (OffersBetween(NetRun(es + more), members) - OffersBetween(NetRun(es), members)) ==
            BroadcastCount(es, more, room) * (|members| * (|members| - 1))
  {
    hide AllTo, Mentions, Due, Inv, NetRun, Rekeys, Among, BroadcastCount, Uplink, User, LocalOf;
    var net, net', r := NetRun(es), NetRun(es + more), BroadcastCount(es, more, room);
    var us := Users(net, members);
    SameUsers(es, more, members);
    forall i, j | 0 <= i < |members| && 0 <= j < |members|
      ensures GrewTo(us[i], us[j], Uplinks(net, members)[i], Uplinks(net', members)[i], r)
    {
      OffersAdded(es, more, room, members[i], members[j]);
    }
    UsersDistinct(net', room, members);
    GrowthOfRoom(us, Uplinks(net, members), Uplinks(net', members), r);
  }

  lemma SameUsers(es: seq<NetEvent>, more: seq<NetEvent>, members: seq<SockId>)
    requires forall i :: 0 <= i < |members| ==> members[i] in NetRun(es).peers
    ensures forall i :: 0 <= i < |members| ==> members[i] in NetRun(es + more).peers
    ensures Users(NetRun(es + more), members) == Users(NetRun(es), members)
  {
    hide NetRun, LocalOf, Uplink;
    forall i | 0 <= i < |members|
      ensures members[i] in NetRun(es + more).peers
              && User(NetRun(es + more), members[i]) == User(NetRun(es), members[i])
    {
      RunKeepsHistory(es, more, members[i]);
    }
  }

  lemma OffersAdded(es: seq<NetEvent>, more: seq<NetEvent>, room: RoomId, s: SockId, t: SockId)
    requires var net := NetRun(es); InRoom(net, room, s) && InRoom(net, room, t) && UpToDate(net, s)
    requires var net' := NetRun(es + more);
             && InRoom(net', room, s) && InRoom(net', room, t) && UpToDate(net', s)
             && CleanMember(net', s) && CleanMember(net', t)
             && (s != t ==> WellToMember(net', s, t) && WellToMember(net', t, s))
    ensures var net, net' := NetRun(es), NetRun(es + more);
            GrewTo(User(net, s), User(net, t), Uplink(net, s), Uplink(net', s), BroadcastCount(es, more, room))
  {
    hide AllTo, Mentions, Due, Inv, NetRun, Rekeys, BroadcastCount, Uplink, AllUp, CleanMember, WellToMember;
    var net, net' := NetRun(es), NetRun(es + more);
    RunKeepsHistory(es, more, s);
    RunKeepsHistory(es, more, t);
    CleanMemberBefore(es, more, s);
    CleanMemberBefore(es, more, t);
    if s != t {
      WellToMemberBefore(es, more, s, t);
      WellToMemberBefore(es, more, t, s);
    }
    RunInv(es);
    RunInv(es + more);
    RunGoesUp(es);
    RunGoesUp(es + more);
    OffersMade(net, room, s, t);
    OffersMade(net', room, s, t);
    RekeysAdded(es, more, room, s);
    if Less(User(net, s), User(net, t)) { DueSinceMention(Log(net, s), News(net, net', s), User(net, t)); }
  }

  lemma CleanMemberBefore(es: seq<NetEvent>, more: seq<NetEvent>, s: SockId)
    requires s in NetRun(es).peers && CleanMember(NetRun(es + more), s)
    ensures CleanMember(NetRun(es), s)
  {
    hide NetRun, Clean, Uplink, LocalOf, Resaid;
    RunKeepsHistory(es, more, s);
    CleanAllAlong(es, more, NetRun(es).peers[s].id);
  }

  lemma WellToMemberBefore(es: seq<NetEvent>, more: seq<NetEvent>, s: SockId, t: SockId)
    requires s in NetRun(es).peers && t in NetRun(es).peers && WellToMember(NetRun(es + more), s, t)
    ensures WellToMember(NetRun(es), s, t)
  {
    hide NetRun, WellTo, Uplink, LocalOf, Resaid;
    RunKeepsHistory(es, more, s);
    RunKeepsHistory(es, more, t);
    WellAllAlong(es, more, NetRun(es).peers[s].id, NetRun(es).peers[t].id.user);
  }

  function Log(net: Net, s: SockId): seq<ServerMsg>
    requires s in net.server.socks
  {
    net.server.socks[s].log
  }

  /** What the socket has been sent between two states. */
  function News(net: Net, net': Net, s: SockId): seq<ServerMsg>
    requires s in net.server.socks && s in net'.server.socks
  {
    if |Log(net, s)| <= |Log(net', s)| then Log(net', s)[|Log(net, s)|..] else []
  }

  /** A member that is up to date twice has handled, in between, what it was sent
      in between, and that holds every rekey broadcast in between. */
  lemma RekeysAdded(es: seq<NetEvent>, more: seq<NetEvent>, room: RoomId, s: SockId)
    requires InRoom(NetRun(es), room, s) && UpToDate(NetRun(es), s)
    requires var net' := NetRun(es + more); InRoom(net', room, s) && UpToDate(net', s) && CleanMember(net', s)
    ensures var net, net' := NetRun(es), NetRun(es + more);
            && Log(net', s) == Log(net, s) + News(net, net', s)
            && LocalOf(net, s).seen == Log(net, s) && LocalOf(net', s).seen == Log(net', s)
            && Rekeys(News(net, net', s)) == BroadcastCount(es, more, room)
  {
    hide Inv, NetRun, Rekeys, BroadcastCount, Clean;
    var net, net' := NetRun(es), NetRun(es + more);
    RunKeepsHistory(es, more, s);
    RunInv(es + more);
    InvShape(net');
    CleanAttends(net', room, s);
    EveryMemberGetsEveryRekey(es, more, s, room);
    assert LocalOf(net, s).seen == Log(net, s) && LocalOf(net', s).seen == Log(net', s);
    RekeysAppend(Log(net, s), News(net, net', s));
  }
}
