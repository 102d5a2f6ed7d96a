// Sockets are only told of ids that have joined their room, and clients only
// connect to those.

module NetworkKnown {
  import opened Wire
  import opened RosterView
  import opened Rooms
  import opened RoomsProofs
  import opened RoomsTheorems
  import opened Client
  import opened Network
  import opened NetworkProofs

  // ----- what a socket knows, and its mentions

  lemma {:induction false} ListedIsIntroduced(peers: seq<PeerInfo>, x: UserId)
    ensures Listed(peers, x) > 0 ==> Introduces(Roster(peers), x)
    decreases |peers|
  {
    if peers != [] {
      var front := peers[..|peers| - 1];
      ListedIsIntroduced(front, x);
      if Introduces(Roster(front), x) {
        var i :| 0 <= i < |front| && front[i].userId == x;
        assert peers[i].userId == x;
      }
    }
  }

  lemma {:induction false} MentionedIsIntroduced(ms: seq<ServerMsg>, x: UserId) returns (i: nat)
    requires Mentions(ms, x) > 0
    ensures i < |ms| && Introduces(ms[i], x)
    decreases |ms|
  {
    var n := |ms| - 1;
    if MentionsIn(ms[n], x) > 0 {
      i := n;
      if ms[n].Roster? { ListedIsIntroduced(ms[n].peers, x); }
    } else {
      i := MentionedIsIntroduced(ms[..n], x);
    }
  }

  /** Whoever a socket is told of has joined its room. */
  lemma ToldIsUsed(st: Server, t: SockId, x: UserId)
    requires t in st.socks && SockKnown(st, t) && Told(st.socks[t], x) > 0
    ensures var who := st.socks[t].phase.Who(); who.Some? && Used(st, Identity(who.value.room, x))
  {
    hide Introduces, Mentions, Listed, Used;
    var k := st.socks[t];
    if Mentions(k.log, x) > 0 {
      var i := MentionedIsIntroduced(k.log, x);
    } else {
      ListedIsIntroduced(k.phase.roster, x);
    }
  }

  // ----- every step

  lemma KnownStays(st: Server, e: Event, t: SockId, m: ServerMsg)
    requires Enabled(st, e) && !e.Connect? && t in st.socks && KnownMsg(st, st.socks[t].phase.Who(), m)
    ensures t in Step(st, e).socks && KnownMsg(Step(st, e), Step(st, e).socks[t].phase.Who(), m)
  {
    hide Step, Introduces, Used, Enabled;
    PhaseStays(st, e, t);
    forall x | Introduces(m, x)
      ensures Step(st, e).socks[t].phase.Who().Some?
              && Used(Step(st, e), Identity(Step(st, e).socks[t].phase.Who().value.room, x))
    {
      UsedStays(st, e, Identity(st.socks[t].phase.Who().value.room, x));
    }
  }

  /** What a step sends is known to whom it is sent. */
  lemma KnownMail(st: Server, e: Event, t: SockId, m: ServerMsg)
    requires HandlesOk(st) && Enabled(st, e) && !e.Connect? && t in st.socks && SockKnown(st, e.s)
    requires m in EffectOf(st, e).out.For(t)
    ensures KnownMsg(Step(st, e), Step(st, e).socks[t].phase.Who(), m)
  {
    hide Step, EffectOf, Used, Enabled, HandlesOk, SockKnown, RoomsProofs.Kind;
    if m.Offer? || m.Answer? {
      RelayKnown(st, e, t, m);
    } else {
      match Kind(st, e)
      case Enters(_, _, _) => NoticeKnown(st, e, t, m);
      case Posts(_, _) => RosterKnown(st, e, t, m);
      case Leaves(_) => LeaveMail(st, e, t);
      case Other =>
        OtherEffect(st, e);
        QuietMail(EffectOf(st, e).out, t);
        NeutralIsQuiet(m);
    }
  }

  lemma NeutralIsQuiet(m: ServerMsg)
    ensures !m.Roster? && !m.PeerJoined? && !m.Offer? && !m.Answer? ==> forall x :: !Introduces(m, x)
  {
  }

  lemma RelayKnown(st: Server, e: Event, t: SockId, m: ServerMsg)
    requires HandlesOk(st) && Enabled(st, e) && !e.Connect? && t in st.socks && (m.Offer? || m.Answer?)
    requires m in EffectOf(st, e).out.For(t)
    ensures KnownMsg(Step(st, e), Step(st, e).socks[t].phase.Who(), m)
  {
    hide Step, EffectOf, Enabled, HandlesOk;
    PhaseStays(st, e, t);
    NewMailGenuine(st, e, t, m);
    var st' := Step(st, e);
    var who := st'.socks[t].phase.Who();
    var u :| u in st'.socks && st'.socks[u].phase.Who() == Some(Identity(who.value.room, m.from));
    assert Claims(st', u, Identity(who.value.room, m.from));
  }

  lemma NoticeKnown(st: Server, e: Event, t: SockId, m: ServerMsg)
    requires HandlesOk(st) && Enabled(st, e) && !e.Connect? && Kind(st, e).Enters? && t in st.socks
    requires m in EffectOf(st, e).out.For(t)
    ensures KnownMsg(Step(st, e), Step(st, e).socks[t].phase.Who(), m)
  {
    hide Step, Used, EnterRoom, Receive, JoinFieldsOk, HandlesOk;
    EffectByKind(st, e);
    var Enters(id, name, roster) := Kind(st, e);
    NoticeOrNeutral(st.rooms, e.s, id, name, roster, t, m);
    NewIdentityUsed(st, e);
    PhaseStays(st, e, t);
    if m.PeerJoined? {
      InRoomOf(st, t, id.room, id.user);
      assert id == Identity(id.room, m.userId);
    } else {
      NeutralIsQuiet(m);
    }
  }

  lemma NoticeOrNeutral(rooms: map<RoomId, Room>, s: SockId, id: Identity, name: string, roster: seq<PeerInfo>,
                        t: SockId, m: ServerMsg)
    requires !(|RoomOf(rooms, id.room)| >= HARD_CAP && id.user !in RoomOf(rooms, id.room))
    requires m in EnterRoom(rooms, s, id, name, roster).out.For(t)
    ensures m.Error? || m.Warn? || (m == PeerJoined(id.user, name) && t in SocksOf(RoomOf(rooms, id.room) - {id.user}))
  {
    hide EnterRoom;
    EnterMail(rooms, s, id, name, roster, t);
  }

  lemma InRoomOf(st: Server, t: SockId, room: RoomId, but: UserId)
    requires HandlesOk(st) && t in SocksOf(RoomOf(st.rooms, room) - {but})
    ensures t in st.socks && Active(st.socks[t]) && st.socks[t].phase.Who().value.room == room
  {
    var r := RoomOf(st.rooms, room) - {but};
    var u :| u in r && r[u].sock == t;
    assert Registered(st, room, u) && HandleOk(st, room, u);
  }

  lemma RosterKnown(st: Server, e: Event, t: SockId, m: ServerMsg)
    requires Enabled(st, e) && !e.Connect? && Kind(st, e).Posts? && t in st.socks && SockKnown(st, e.s)
    requires m in EffectOf(st, e).out.For(t)
    ensures KnownMsg(Step(st, e), Step(st, e).socks[t].phase.Who(), m)
  {
    hide Step, Used, SendRoster, Receive, JoinFieldsOk;
    EffectByKind(st, e);
    var Posts(id, roster) := Kind(st, e);
    RosterOrTurn(st.rooms, e.s, id, roster, e.turn, t, m);
    if m.Roster? { KnownStays(st, e, t, m); } else { NeutralIsQuiet(m); }
  }

  lemma RosterOrTurn(rooms: map<RoomId, Room>, s: SockId, id: Identity, roster: seq<PeerInfo>, turn: Option<string>,
                     t: SockId, m: ServerMsg)
    requires m in SendRoster(rooms, s, id, roster, turn).out.For(t)
    ensures t == s && (m == Roster(roster) || m.Turn?)
  {
    var out := SendRoster(rooms, s, id, roster, turn).out;
    ForThen(out, t);
    if turn.Some? { ForThen(out.before, t); }
  }

  lemma SockKnownStep(st: Server, e: Event, t: SockId)
    requires HandlesOk(st) && Enabled(st, e) && !e.Connect? && ServerKnown(st) && t in st.socks
    ensures t in Step(st, e).socks && SockKnown(Step(st, e), t)
  {
    hide KnownMsg, EffectOf, HandlesOk, Enabled;
    EnabledHas(st, e);
    LogNews(st, e, t);
    PhaseStays(st, e, t);
    var st' := Step(st, e);
    var k, k' := st.socks[t], st'.socks[t];
    forall i | 0 <= i < |k'.log| ensures KnownMsg(st', k'.phase.Who(), k'.log[i]) {
      if i < |k.log| { KnownStays(st, e, t, k.log[i]); } else { KnownMail(st, e, t, k'.log[i]); }
    }
    if k'.phase.Joining? {
      if k.phase == k'.phase { KnownStays(st, e, t, Roster(k.phase.roster)); }
      else { JoinerKnown(st, e, t); }
    }
  }

  lemma EnabledHas(st: Server, e: Event)
    requires Enabled(st, e) && !e.Connect?
    ensures e.s in st.socks
  {
  }

  lemma LogNews(st: Server, e: Event, t: SockId)
    requires Enabled(st, e) && !e.Connect? && t in st.socks
    ensures t in Step(st, e).socks
    ensures var log, log' := st.socks[t].log, Step(st, e).socks[t].log;
            log <= log' && forall i :: |log| <= i < |log'| ==> log'[i] in EffectOf(st, e).out.For(t)
  {
    hide EffectOf;
    MailLog(st.socks[t], t, EffectOf(st, e).out);
  }

  lemma JoinerKnown(st: Server, e: Event, t: SockId)
    requires HandlesOk(st) && Enabled(st, e) && !e.Connect? && t in st.socks
    requires var phase := Step(st, e).socks[t].phase; phase.Joining? && phase != st.socks[t].phase
    ensures var phase := Step(st, e).socks[t].phase; KnownMsg(Step(st, e), phase.Who(), Roster(phase.roster))
  {
    hide Mail, Used, HandlesOk;
    OnlyJoinsJoin(st, e, t);
    RegisteredAfterJoin(st, e, "");
    var Enters(id, name, roster) := Kind(st, e);
    forall x | Introduces(Roster(roster), x) ensures Used(Step(st, e), Identity(id.room, x)) {
      var i :| 0 <= i < |roster| && roster[i].userId == x;
      assert x in Others(RoomOf(st.rooms, id.room), id.user);
      RegisteredIsUsed(st, id.room, x);
      UsedStays(st, e, Identity(id.room, x));
    }
  }

  lemma OnlyJoinsJoin(st: Server, e: Event, t: SockId)
    requires Enabled(st, e) && !e.Connect? && t in st.socks
    requires var phase := Step(st, e).socks[t].phase; phase.Joining? && phase != st.socks[t].phase
    ensures Kind(st, e).Enters? && t == e.s && e.msg.Join?
            && Lists(Kind(st, e).roster, Others(RoomOf(st.rooms, Kind(st, e).id.room), Kind(st, e).id.user))
  {
    hide Mail, JoinFieldsOk, Lists, Outgoing, Notices, Receive;
    PhaseStays(st, e, t);
    MailOnly(st.socks[t], t, EffectOf(st, e).out);
    EffectByKind(st, e);
    if Kind(st, e).Other? { OtherEffect(st, e); }
  }

  lemma ServerKnownStep(st: Server, e: Event)
    requires HandlesOk(st) && Enabled(st, e) && !e.Connect? && ServerKnown(st)
    ensures ServerKnown(Step(st, e))
  {
    hide SockKnown, HandlesOk, Enabled, EffectOf, Mail;
    forall t | t in Step(st, e).socks ensures SockKnown(Step(st, e), t) {
      assert t in st.socks;
      SockKnownStep(st, e, t);
    }
  }
}
