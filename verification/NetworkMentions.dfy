// Every member is told of each roommate exactly once, and of a departure only
// when there was one.

module NetworkMentions {
  import opened Wire
  import opened RosterView
  import opened Rooms
  import opened RoomsProofs
  import opened Client
  import opened Network
  import opened NetworkProofs
  import opened NetworkKnown

  lemma LossFree(st: Server, e: Event, t: SockId)
    requires Enabled(st, e) && !e.Connect? && t in st.socks
    ensures t in Step(st, e).socks
    ensures Step(st, e).socks[t].lost == 0 ==>
              Step(st, e).socks[t].log == st.socks[t].log + EffectOf(st, e).out.For(t)
  {
    hide EffectOf, Mail, RoomsProofs.Kind, Enabled;
    assert t in Step(st, e).socks;
    if Step(st, e).socks[t].lost == 0 { LogGrows(st, e, t); }
  }

  /** Mentions that a step adds to a fit socket's log. */
  lemma MentionsAfter(st: Server, e: Event, t: SockId, x: UserId)
    requires Enabled(st, e) && !e.Connect? && t in st.socks
    ensures t in Step(st, e).socks
    ensures Step(st, e).socks[t].lost == 0 ==>
              Mentions(Step(st, e).socks[t].log, x) ==
              Mentions(st.socks[t].log, x) + Mentions(EffectOf(st, e).out.For(t), x)
  {
    hide EffectOf, Step, Mentions, Enabled;
    LossFree(st, e, t);
    MentionsAppend(st.socks[t].log, EffectOf(st, e).out.For(t), x);
  }

  lemma ToldByOther(st: Server, e: Event, t: SockId, x: UserId)
    requires Calm(st, e) && Kind(st, e).Other? && t in st.socks && ToldOnce(st, t, x)
    ensures ToldOnce(Step(st, e), t, x)
  {
    hide Mentions, Listed, Mail, EffectOf, RoomsProofs.Kind, Hears, HandlesOk, AllHandled;
    HearsBefore(st, e, t, x);
    var out := EffectOf(st, e).out;
    OtherEffect(st, e);
    QuietMail(out, t);
    MentionsAfter(st, e, t, x);
    NeutralMentions(out.For(t), x);
    PhaseStays(st, e, t);
    SameRooms(st, e);
    if Hears(Step(st, e), t, x) { HearsParts(Step(st, e), t, x); OtherPhase(st, e, t); }
  }

  lemma HearsParts(st: Server, t: SockId, x: UserId)
    requires t in st.socks && Hears(st, t, x)
    ensures !st.socks[t].phase.Done? && st.socks[t].lost == 0
    ensures var who := st.socks[t].phase.Who();
            who.Some? ==> Sole(st, who.value) && Sole(st, Identity(who.value.room, x))
  {
  }

  lemma OtherPhase(st: Server, e: Event, t: SockId)
    requires Enabled(st, e) && !e.Connect? && Kind(st, e).Other? && t in st.socks
    ensures t in Step(st, e).socks
    ensures !Step(st, e).socks[t].phase.Done? ==> Step(st, e).socks[t].phase == st.socks[t].phase
  {
    hide EffectOf, RoomsProofs.Kind;
    OtherEffect(st, e);
    MailOnly(st.socks[t], t, EffectOf(st, e).out);
  }

  lemma ToldByRoster(st: Server, e: Event, t: SockId, x: UserId)
    requires Calm(st, e) && Kind(st, e).Posts? && t in st.socks && ToldOnce(st, t, x)
    ensures ToldOnce(Step(st, e), t, x)
  {
    hide Mentions, Listed, Mail, Hears, HandlesOk, AllHandled;
    HearsBefore(st, e, t, x);
    EffectByKind(st, e);
    var Posts(id, roster) := Kind(st, e);
    MentionsAfter(st, e, t, x);
    MailOnly(st.socks[t], t, EffectOf(st, e).out);
    RosterMentions(st.rooms, e.s, id, roster, e.turn, t, x);
    if Hears(Step(st, e), t, x) { HearsParts(Step(st, e), t, x); }
  }

  lemma ToldByJoin(st: Server, e: Event, t: SockId, x: UserId)
    requires Calm(st, e) && Kind(st, e).Enters? && t in st.socks && ToldOnce(st, t, x) && SockKnown(st, t)
    ensures ToldOnce(Step(st, e), t, x)
  {
    hide Mentions, Listed, EffectOf, Step, Used, HandlesOk, AllHandled, Hears, SockKnown, JoinFieldsOk;
    var st', id := Step(st, e), Kind(st, e).id;
    HearsBefore(st, e, t, x);
    if Hears(st', t, x) {
      HearsParts(st', t, x);
      PhaseStays(st, e, t);
      RegisteredAfterJoin(st, e, x);
      MentionsAfter(st, e, t, x);
      EntersUnclaimed(st, e);
      JoinMentions(st, e, t, x);
      if t == e.s {
        JoinerListed(st, e, x);
      } else if x == id.user && st.socks[t].phase.Who().Some? && st.socks[t].phase.Who().value.room == id.room {
        assert id == Identity(id.room, x);
        UntoldOfNewcomer(st, e, t);
      }
    }
  }

  /** Nobody in the room has heard of a newcomer before. */
  lemma UntoldOfNewcomer(st: Server, e: Event, t: SockId)
    requires Calm(st, e) && Kind(st, e).Enters? && t in st.socks && SockKnown(st, t)
    requires var id, who := Kind(st, e).id, st.socks[t].phase.Who();
             Sole(Step(st, e), id) && who.Some? && who.value.room == id.room
    ensures var id := Kind(st, e).id;
            && Told(st.socks[t], id.user) == 0 && st.socks[t].phase.Who() != Some(id)
            && !Registered(st, id.room, id.user)
  {
    hide Told, Step, Used, Sole, SockKnown, HandlesOk, AllHandled, RoomsProofs.Kind;
    var id := Kind(st, e).id;
    NewcomerIsNew(st, e);
    if Told(st.socks[t], id.user) > 0 { ToldIsUsed(st, t, id.user); }
    if st.socks[t].phase.Who() == Some(id) { ClaimIsUse(st, t, id); }
  }

  lemma ClaimIsUse(st: Server, t: SockId, id: Identity)
    requires Claims(st, t, id)
    ensures Used(st, id)
  {
  }

  /** The newcomer's Roster lists exactly the other members of its room. */
  lemma JoinerListed(st: Server, e: Event, x: UserId)
    requires Enabled(st, e) && !e.Connect? && Kind(st, e).Enters?
    ensures var id, roster := Kind(st, e).id, Kind(st, e).roster;
            Listed(roster, x) == (if x != id.user && Registered(st, id.room, x) then 1 else 0)
  {
    hide Listed, Mail, JoinFieldsOk, Lists;
    var Enters(id, name, roster) := Kind(st, e);
    ListedOnce(roster, Others(RoomOf(st.rooms, id.room), id.user), x);
  }

  /** What a join tells a socket: the newcomer, if the socket is in its room. */
  lemma JoinMentions(st: Server, e: Event, t: SockId, x: UserId)
    requires Calm(st, e) && Kind(st, e).Enters? && t in st.socks && Hears(Step(st, e), t, x)
    ensures var id, out, who := Kind(st, e).id, EffectOf(st, e).out, st.socks[t].phase.Who();
            Mentions(out.For(t), x) ==
              if t != e.s && who.Some? && who.value.room == id.room && x == id.user then 1 else 0
  {
    hide Mentions, Listed, Mail, EnterRoom, Receive, Hears, Step, JoinFieldsOk, Sole;
    EffectByKind(st, e);
    EntersUnclaimed(st, e);
    PhaseStays(st, e, t);
    HearsParts(Step(st, e), t, x);
    var Enters(id, name, roster) := Kind(st, e);
    var who := st.socks[t].phase.Who();
    NeutralMentions([], x);
    if t == e.s {
      NotRegistered(st, t, id.room);
      JoinerMail(st.rooms, t, id, name, roster);
      NeutralMentions(EffectOf(st, e).out.For(t), x);
    } else if who.Some? && who.value.room == id.room {
      SoleBefore(st, e, who.value);
      assert Handled(st, t);
      OtherClaim(st, e, t);
      MemberNotice(st, e, t, x);
    } else {
      OutsideRoom(st, t, id.room);
      JoinerMailNone(st.rooms, e.s, t, id, name, roster);
    }
  }

  /** Whoever stays alone under its identity has not been superseded. */
  lemma OtherClaim(st: Server, e: Event, t: SockId)
    requires Enabled(st, e) && !e.Connect? && Kind(st, e).Enters? && t in st.socks && t != e.s
    requires st.socks[t].phase.Who().Some? && Sole(Step(st, e), st.socks[t].phase.Who().value)
    ensures st.socks[t].phase.Who() != Some(Kind(st, e).id)
  {
    hide Step;
    NewIdentityUsed(st, e);
    ClaimStays(st, e, t, st.socks[t].phase.Who().value);
  }

  lemma MemberNotice(st: Server, e: Event, t: SockId, x: UserId)
    requires Calm(st, e) && Kind(st, e).Enters? && t in st.socks && t != e.s && Active(st.socks[t])
    requires var who := st.socks[t].phase.Who(); who.value.room == Kind(st, e).id.room && who != Some(Kind(st, e).id)
    requires Handled(st, t)
    ensures Mentions(EffectOf(st, e).out.For(t), x) == if x == Kind(st, e).id.user then 1 else 0
  {
    hide Mentions, Listed, Mail, EnterRoom, Receive, AllHandled;
    EffectByKind(st, e);
    var Enters(id, name, roster) := Kind(st, e);
    var b := st.socks[t].phase.Who().value.user;
    var r0 := RoomOf(st.rooms, id.room);
    var r1 := r0 - {id.user};
    var r2 := r1[id.user := Handle(name, e.s)];
    assert r1[b].sock == t && t in SocksOf(r1);
    if id.user in r0 && r0[id.user].sock == t { OneHandlePerSocket(st, id.room, b, id.room, id.user); }
    EnterMail(st.rooms, e.s, id, name, roster, t);
    NoticeMentions(id.user, name, |r2|, t in SocksOf(r2), x);
  }

  lemma ToldByLeave(st: Server, e: Event, t: SockId, x: UserId)
    requires Calm(st, e) && Kind(st, e).Leaves? && t in st.socks && ToldOnce(st, t, x)
    ensures ToldOnce(Step(st, e), t, x)
  {
    hide Mentions, Listed, EffectOf, Step, HandlesOk, AllHandled, RoomsProofs.Kind, Hears;
    HearsBefore(st, e, t, x);
    PhaseStays(st, e, t);
    RoomsAfterLeave(st, e, x);
    MentionsAfter(st, e, t, x);
    LeaveMail(st, e, t);
    NeutralOrLeft(EffectOf(st, e).out.For(t), Kind(st, e).me.user, x);
    if Hears(Step(st, e), t, x) { HearsParts(Step(st, e), t, x); }
  }

  // ----- departures

  predicate NoLeft(ms: seq<ServerMsg>) {
    forall i :: 0 <= i < |ms| ==> !ms[i].PeerLeft?
  }

  /** Only a departure sends word of one. */
  lemma OnlyLeavesTellLeft(st: Server, e: Event, t: SockId)
    requires Enabled(st, e) && !e.Connect? && !Kind(st, e).Leaves? && t in st.socks
    ensures NoLeft(EffectOf(st, e).out.For(t))
  {
    hide Mail, EffectOf, EnterRoom, Receive, SendRoster;
    EffectByKind(st, e);
    match Kind(st, e)
    case Enters(_, _, _) => JoinUnsigned(st, e, t);
    case Posts(id, roster) => PostsNoLeave(st.rooms, e.s, id, roster, e.turn, t);
    case Other =>
      OtherEffect(st, e);
      QuietMail(EffectOf(st, e).out, t);
  }

  lemma {:induction false} LeftOkStep(st: Server, e: Event, t: SockId)
    requires HandlesOk(st) && Enabled(st, e) && !e.Connect? && t in st.socks && LeftOk(st, t)
    ensures t in Step(st, e).socks && LeftOk(Step(st, e), t)
  {
    hide Step, EffectOf, HandlesOk, Gone, RoomsProofs.Kind, Enabled;
    PhaseStays(st, e, t);
    LogNews(st, e, t);
    var ms, log, log' := EffectOf(st, e).out.For(t), st.socks[t].log, Step(st, e).socks[t].log;
    if Kind(st, e).Leaves? { LeaveMail(st, e, t); EnderGone(st, e); } else { OnlyLeavesTellLeft(st, e, t); }
    forall i | 0 <= i < |log'| && log'[i].PeerLeft?
      ensures Step(st, e).socks[t].phase.Who().Some?
              && Gone(Step(st, e), Identity(Step(st, e).socks[t].phase.Who().value.room, log'[i].userId))
    {
      if i < |log| {
        assert log[i].PeerLeft?;
        UsedStays(st, e, Identity(st.socks[t].phase.Who().value.room, log[i].userId));
      } else {
        assert log'[i] in ms;
      }
    }
  }

  lemma {:induction false} MentionsOkStep(st: Server, e: Event)
    requires Calm(st, e) && MentionsOk(st) && ServerKnown(st)
    ensures MentionsOk(Step(st, e))
  {
    hide Mail, EffectOf, Mentions, RoomsProofs.Kind, ToldOnce, LeftOk, SockKnown;
    forall t, x | t in st.socks ensures ToldOnce(Step(st, e), t, x) {
      match Kind(st, e)
      case Enters(_, _, _) => ToldByJoin(st, e, t, x);
      case Posts(_, _) => ToldByRoster(st, e, t, x);
      case Leaves(_) => ToldByLeave(st, e, t, x);
      case Other => ToldByOther(st, e, t, x);
    }
    forall t | t in st.socks ensures LeftOk(Step(st, e), t) { LeftOkStep(st, e, t); }
  }
}
