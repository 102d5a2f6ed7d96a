// The server relays offers and answers like a FIFO between any two members that
// are alone under their ids.

module NetworkRelays {
  import opened Wire
  import opened RosterView
  import opened Rooms
  import opened RoomsProofs
  import opened Client
  import opened Network
  import opened NetworkProofs
  import opened NetworkMentions

  /** The step's frame is one a client of the network would send: a Join first,
      then no other; and nobody has signaled to an id that was never used. */
  ghost predicate Orderly(st: Server, e: Event) {
    && Calm(st, e)
    && (e.Text? ==>
          var me := st.socks[e.s].phase.me;
          if me == None then e.msg.Join? && st.socks[e.s].submitted == []
          else
            && Polite(e.msg)
            && (e.msg.Offer? || e.msg.Answer? ==>
                  (Registered(st, me.value.room, e.msg.to) ==> LenOk(e.msg.to, MAX_ID))))
    && (Kind(st, e).Enters? && !Used(st, Kind(st, e).id) ==> forall k, x :: NothingSentTo(st, Kind(st, e).id, k, x))
  }

  predicate NothingSentTo(st: Server, id: Identity, k: Signal, x: UserId) {
    Registered(st, id.room, x) && HandleSock(st, id.room, x) in st.socks ==>
      AllTo(k, st.socks[HandleSock(st, id.room, x)].submitted, id.user) == []
  }

  lemma OrderlyIsCalm(st: Server, e: Event)
    requires Orderly(st, e)
    ensures Calm(st, e) && HandlesOk(st) && Enabled(st, e) && !e.Connect?
  {
  }

  /** A pair that is linked after a step was linked before. */
  lemma LinkedBefore(st: Server, e: Event, t: SockId, x: UserId)
    requires Enabled(st, e) && !e.Connect? && t in st.socks
    ensures t in Step(st, e).socks
    ensures Linked(Step(st, e), t, x) ==> Linked(st, t, x)
  {
    hide Step, Gone, Enabled, Hears, Brief;
    PhaseStays(st, e, t);
    HearsBefore(st, e, t, x);
    var who := st.socks[t].phase.Who();
    if Linked(Step(st, e), t, x) && who.Some? {
      UsedStays(st, e, Identity(who.value.room, x));
      BriefBefore(st, e, Identity(who.value.room, x), who.value.user);
    }
  }

  lemma LinkedParts(st: Server, t: SockId, x: UserId)
    requires t in st.socks && Linked(st, t, x)
    ensures Hears(st, t, x) && !st.socks[t].phase.Done? && st.socks[t].lost == 0
    ensures var who := st.socks[t].phase.Who();
            who.Some? ==> var id := Identity(who.value.room, x);
                          Sole(st, who.value) && Sole(st, id) && !Gone(st, id) && Brief(st, id, who.value.user)
  {
    hide Sole, Gone, Brief;
  }

  lemma SubmittedAfter(st: Server, e: Event, t: SockId)
    requires Enabled(st, e) && !e.Connect? && t in st.socks
    ensures t in Step(st, e).socks
    ensures Step(st, e).socks[t].submitted == st.socks[t].submitted + (if t == e.s && e.Text? then [e.msg] else [])
  {
    hide EffectOf;
    MailOnly(st.socks[t], t, EffectOf(st, e).out);
  }

  lemma AllToAfter(st: Server, e: Event, t: SockId, k: Signal, b: UserId)
    requires Enabled(st, e) && !e.Connect? && t in st.socks
    ensures t in Step(st, e).socks
    ensures AllTo(k, Step(st, e).socks[t].submitted, b) ==
            AllTo(k, st.socks[t].submitted, b) + (if t == e.s && e.Text? then SdpTo(k, e.msg, b) else [])
  {
    hide AllTo, Step, Enabled;
    SubmittedAfter(st, e, t);
    if t == e.s && e.Text? {
      AllToAppend(k, st.socks[t].submitted, [e.msg], b);
      AllToOne(k, e.msg, b);
    } else {
      assert st.socks[t].submitted + [] == st.socks[t].submitted;
    }
  }

  /** Mail without offers and answers relays nothing. */
  lemma UnsignedMail(st: Server, e: Event, t: SockId, k: Signal, x: UserId)
    requires Enabled(st, e) && !e.Connect? && t in st.socks
    requires AllUnsigned(EffectOf(st, e).out.For(t))
    ensures t in Step(st, e).socks
    ensures Step(st, e).socks[t].lost == 0 ==>
              AllFrom(k, Step(st, e).socks[t].log, x) == AllFrom(k, st.socks[t].log, x)
  {
    hide EffectOf, Step, AllFrom, Enabled, AllUnsigned;
    LossFree(st, e, t);
    var ms := EffectOf(st, e).out.For(t);
    UnsignedFrom(ms, k, x);
    AllFromAppend(k, st.socks[t].log, ms, x);
    assert AllFrom(k, st.socks[t].log, x) + [] == AllFrom(k, st.socks[t].log, x);
  }

  lemma RelayOkPosts(st: Server, e: Event, t: SockId, k: Signal, x: UserId)
    requires Calm(st, e) && Kind(st, e).Posts? && t in st.socks && RelayOk(st, t, k, x)
    ensures RelayOk(Step(st, e), t, k, x)
  {
    hide AllFrom, AllTo, Mail, Linked, HandlesOk, AllHandled;
    LinkedBefore(st, e, t, x);
    EffectByKind(st, e);
    var Posts(id, roster) := Kind(st, e);
    MailOnly(st.socks[t], t, EffectOf(st, e).out);
    PostsNoLeave(st.rooms, e.s, id, roster, e.turn, t);
    UnsignedMail(st, e, t, k, x);
    if Linked(Step(st, e), t, x) { LinkedParts(Step(st, e), t, x); }
    forall u | u in st.socks ensures Step(st, e).socks[u].submitted == st.socks[u].submitted {
      SubmittedAfter(st, e, u);
    }
  }

  lemma RelayOkEnters(st: Server, e: Event, t: SockId, k: Signal, x: UserId)
    requires Orderly(st, e) && Kind(st, e).Enters? && t in st.socks && RelayOk(st, t, k, x)
    ensures RelayOk(Step(st, e), t, k, x)
  {
    hide AllFrom, AllTo, Step, EffectOf, Linked, SentBy, Orderly, RoomsProofs.Kind;
    OrderlyIsCalm(st, e);
    LinkedBefore(st, e, t, x);
    JoinUnsigned(st, e, t);
    UnsignedMail(st, e, t, k, x);
    if Linked(Step(st, e), t, x) {
      LinkedParts(Step(st, e), t, x);
      SentByAfterJoin(st, e, t, k, x);
    }
  }

  lemma SentByAfterJoin(st: Server, e: Event, t: SockId, k: Signal, x: UserId)
    requires Orderly(st, e) && Kind(st, e).Enters? && t in st.socks
    requires t in Step(st, e).socks && Linked(Step(st, e), t, x)
    ensures SentBy(Step(st, e), Step(st, e).socks[t].phase.Who(), k, x) == SentBy(st, st.socks[t].phase.Who(), k, x)
  {
    hide AllTo, Step, EffectOf, Linked, Sole, Used, SentBy, Brief, Gone, NothingSentTo, Orderly;
    OrderlyIsCalm(st, e);
    LinkedParts(Step(st, e), t, x);
    PhaseStays(st, e, t);
    EntersUnclaimed(st, e);
    NewIdentityUsed(st, e);
    var who := Step(st, e).socks[t].phase.Who();
    if who.Some? {
      if t == e.s {
        NewcomerIsNew(st, e);
        NothingForNewcomer(st, e, k, x);
      } else {
        SenderAfterJoin(st, e, who.value, k, x);
      }
    } else {
      NobodysMail(st, k, x);
      NobodysMail(Step(st, e), k, x);
    }
  }

  lemma NobodysMail(st: Server, k: Signal, x: UserId)
    ensures SentBy(st, None, k, x) == []
  {
  }

  /** What has been sent to a member is not changed by somebody joining. */
  lemma SenderAfterJoin(st: Server, e: Event, to: Identity, k: Signal, x: UserId)
    requires Orderly(st, e) && Kind(st, e).Enters? && Sole(Step(st, e), Identity(to.room, x))
    ensures SentBy(Step(st, e), Some(to), k, x) == SentBy(st, Some(to), k, x)
  {
    hide AllTo, Step, EffectOf, Used, AllHandled, NothingSentTo, Enabled, Sole, RoomsProofs.Kind;
    OrderlyIsCalm(st, e);
    RegisteredAfterJoin(st, e, x);
    NothingSaidYet(st, e);
    var id := Kind(st, e).id;
    if to.room == id.room && x == id.user {
      assert id == Identity(to.room, x);
      NewcomerIsNew(st, e);
      PhaseStays(st, e, e.s);
      AllToAfter(st, e, e.s, k, to.user);
      NothingToAnyone(k, to.user);
    } else if Registered(st, to.room, x) {
      var u := HandleSock(st, to.room, x);
      assert HandleOk(st, to.room, x);
      PhaseStays(st, e, u);
      AllToAfter(st, e, u, k, to.user);
    }
  }

  /** Nobody has sent anything to an id before its first use. */
  lemma NothingForNewcomer(st: Server, e: Event, k: Signal, x: UserId)
    requires Orderly(st, e) && Kind(st, e).Enters? && !Used(st, Kind(st, e).id)
    ensures SentBy(Step(st, e), Some(Kind(st, e).id), k, x) == [] && SentBy(st, st.socks[e.s].phase.Who(), k, x) == []
  {
    hide AllTo, Step, EffectOf, Used, AllHandled, Enabled, Sole, RoomsProofs.Kind;
    OrderlyIsCalm(st, e);
    RegisteredAfterJoin(st, e, x);
    NothingSaidYet(st, e);
    NobodysMail(st, k, x);
    var id := Kind(st, e).id;
    assert NothingSentTo(st, id, k, x);
    if Registered(Step(st, e), id.room, x) {
      var u := HandleSock(Step(st, e), id.room, x);
      if x == id.user {
        AllToAfter(st, e, e.s, k, id.user);
        NothingToAnyone(k, id.user);
      } else {
        assert HandleOk(st, id.room, x);
        AllToAfter(st, e, u, k, id.user);
      }
    }
  }

  lemma NothingSaidYet(st: Server, e: Event)
    requires Orderly(st, e) && Kind(st, e).Enters?
    ensures e.s in st.socks && st.socks[e.s].phase == Reading(None) && st.socks[e.s].submitted == []
    ensures e.Text? && e.msg.Join?
  {
    hide JoinFieldsOk, Lists, NothingSentTo, Used;
  }

  lemma NothingToAnyone(k: Signal, x: UserId)
    ensures AllTo(k, [], x) == []
  {
  }

  /** A departure changes nothing between those who stay. */
  lemma RelayOkLeaves(st: Server, e: Event, t: SockId, k: Signal, x: UserId)
    requires Orderly(st, e) && Kind(st, e).Leaves? && t in st.socks && RelayOk(st, t, k, x)
    ensures RelayOk(Step(st, e), t, k, x)
  {
    hide AllFrom, AllTo, Mail, EffectOf, Step, Orderly, RoomsProofs.Kind, Linked, Enabled, SentBy;
    OrderlyIsCalm(st, e);
    LinkedBefore(st, e, t, x);
    PhaseStays(st, e, t);
    RoomsAfterLeave(st, e, x);
    LeaveMail(st, e, t);
    UnsignedMail(st, e, t, k, x);
    if Linked(Step(st, e), t, x) {
      LinkedParts(Step(st, e), t, x);
      var who := Step(st, e).socks[t].phase.Who();
      if who.Some? { SenderAfterLeave(st, e, who.value, k, x); } else {
        NobodysMail(st, k, x);
        NobodysMail(Step(st, e), k, x);
      }
    }
  }

  lemma SenderAfterLeave(st: Server, e: Event, to: Identity, k: Signal, x: UserId)
    requires Calm(st, e) && Kind(st, e).Leaves? && !Gone(Step(st, e), Identity(to.room, x))
    ensures SentBy(Step(st, e), Some(to), k, x) == SentBy(st, Some(to), k, x)
  {
    hide AllTo, EffectOf, Step, RoomsProofs.Kind, Gone, Enabled, AllHandled;
    RoomsAfterLeave(st, e, x);
    EnderGone(st, e);
    if Registered(st, to.room, x) {
      assert HandleOk(st, to.room, x);
      AllToAfter(st, e, HandleSock(st, to.room, x), k, to.user);
      NoSignalLeaves(st, e, k, to.user);
      assert SentBy(st, Some(to), k, x) + [] == SentBy(st, Some(to), k, x);
    }
  }

  lemma NoSignalLeaves(st: Server, e: Event, k: Signal, x: UserId)
    requires Enabled(st, e) && !e.Connect? && Kind(st, e).Leaves?
    ensures e.Text? ==> SdpTo(k, e.msg, x) == []
  {
  }

  lemma RelayOkOther(st: Server, e: Event, t: SockId, k: Signal, x: UserId)
    requires Orderly(st, e) && Kind(st, e).Other? && t in st.socks && RelayOk(st, t, k, x)
    ensures RelayOk(Step(st, e), t, k, x)
  {
    hide AllFrom, AllTo, Mail, EffectOf, Step, Linked, Orderly, Enabled, RoomsProofs.Kind;
    OrderlyIsCalm(st, e);
    LinkedBefore(st, e, t, x);
    if Linked(Step(st, e), t, x) {
      LinkedParts(Step(st, e), t, x);
      PhaseStays(st, e, t);
      OtherPhase(st, e, t);
      SameRooms(st, e);
      var ms, who := EffectOf(st, e).out.For(t), st.socks[t].phase.Who();
      LossFree(st, e, t);
      AllFromAppend(k, st.socks[t].log, ms, x);
      RelayedSignals(st, e, t, k, x);
      if who.Some? && Registered(st, who.value.room, x) {
        assert HandleOk(st, who.value.room, x);
        AllToAfter(st, e, HandleSock(st, who.value.room, x), k, who.value.user);
      }
    }
  }

  /** What a step relays to socket `t` from `x`: the frame, if `x` sent it and it
      is for the member of `t`. */
  lemma RelayedSignals(st: Server, e: Event, t: SockId, k: Signal, x: UserId)
    requires Orderly(st, e) && Kind(st, e).Other?
    requires t in st.socks && t in Step(st, e).socks && Linked(Step(st, e), t, x)
    ensures var who := st.socks[t].phase.Who();
            AllFrom(k, EffectOf(st, e).out.For(t), x) ==
              if who.Some? && Registered(st, who.value.room, x) && HandleSock(st, who.value.room, x) == e.s && e.Text?
              then SdpTo(k, e.msg, who.value.user) else []
  {
    hide AllFrom, AllTo, Step, Outgoing, EffectOf, RoomsProofs.Kind, Linked, Sole, Gone, Brief, NothingSentTo, Used;
    LinkedBefore(st, e, t, x);
    LinkedParts(st, t, x);
    var who := st.socks[t].phase.Who();
    var me := st.socks[e.s].phase.Who();
    if who.Some? && Registered(st, who.value.room, x) && HandleSock(st, who.value.room, x) == e.s {
      assert HandleOk(st, who.value.room, x);
    }
    if e.Text? && me.Some? {
      MemberFrame(st, e);
      if who.Some? {
        assert Handled(st, t);
        if me.value == Identity(who.value.room, x) {
          assert Handled(st, e.s);
          BriefFrame(st, e, t, x);
        }
      }
      RelayedByMember(st, me.value, e.msg, t, k, x);
    } else {
      NoSignals(st, e, t, k, x);
    }
  }

  /** The frame of a sender that has been brief is short. */
  lemma BriefFrame(st: Server, e: Event, t: SockId, x: UserId)
    requires Enabled(st, e) && !e.Connect? && e.Text? && t in st.socks && t in Step(st, e).socks
    requires Linked(Step(st, e), t, x)
    requires st.socks[t].phase.Who().Some?
    requires st.socks[e.s].phase.Who() == Some(Identity(st.socks[t].phase.Who().value.room, x))
    ensures ShortTo(e.msg, st.socks[t].phase.Who().value.user)
  {
    hide Step, Hears, Gone;
    PhaseStays(st, e, t);
    PhaseStays(st, e, e.s);
    SubmittedAfter(st, e, e.s);
    var id := Identity(st.socks[t].phase.Who().value.room, x);
    assert Claims(Step(st, e), e.s, id);
    var sub := Step(st, e).socks[e.s].submitted;
    assert sub[|sub| - 1] == e.msg;
  }

  lemma MemberFrame(st: Server, e: Event)
    requires Orderly(st, e) && e.Text? && st.socks[e.s].phase.Who().Some?
    ensures st.socks[e.s].phase.me == st.socks[e.s].phase.Who()
    ensures EffectOf(st, e).out == Outgoing(st.rooms, st.socks[e.s].phase.me.value, e.msg)
  {
    hide Mail, Outgoing, NothingSentTo, Used;
  }

  /** Without a member's frame a step sends at most a refusal. */
  lemma AtMostRefusal(st: Server, e: Event)
    requires Orderly(st, e) && Kind(st, e).Other? && !(e.Text? && st.socks[e.s].phase.Who().Some?)
    ensures var out := EffectOf(st, e).out;
            out.Empty? || (out.Then? && out.before.Empty? && (out.m.Error? || out.m.RoomFull?))
    ensures !(e.Text? && e.msg.Rekey?)
  {
    hide Mail, Outgoing, EnterRoom, NothingSentTo, Used, HandlesOk, AllHandled, Lists, JoinFieldsOk;
    if e.Text? {
      RefusedJoin(st.rooms, e.s, None, e.msg, e.authOk, e.roster);
    }
  }

  lemma NoSignals(st: Server, e: Event, t: SockId, k: Signal, x: UserId)
    requires Orderly(st, e) && Kind(st, e).Other? && t in st.socks
    requires !(e.Text? && st.socks[e.s].phase.Who().Some?)
    ensures AllFrom(k, EffectOf(st, e).out.For(t), x) == []
  {
    hide EffectOf, AllFrom, Orderly, RoomsProofs.Kind, Enabled;
    OrderlyIsCalm(st, e);
    AtMostRefusal(st, e);
    ForThen(EffectOf(st, e).out, t);
    UnsignedFrom(EffectOf(st, e).out.For(t), k, x);
  }

  /** A member's frame, as the socket `t` gets it. */
  lemma RelayedByMember(st: Server, me: Identity, m: ClientMsg, t: SockId, k: Signal, x: UserId)
    requires HandlesOk(st) && t in st.socks && !st.socks[t].phase.Done?
    requires Active(st.socks[t]) ==> Handled(st, t)
    requires m.Offer? || m.Answer? ==> (Registered(st, me.room, m.to) ==> LenOk(m.to, MAX_ID))
    requires Active(st.socks[t]) && me == Identity(st.socks[t].phase.Who().value.room, x) ==>
               ShortTo(m, st.socks[t].phase.Who().value.user)
    ensures AllFrom(k, Outgoing(st.rooms, me, m).For(t), x) ==
            (if x == me.user && st.socks[t].phase.Who().Some? && st.socks[t].phase.Who().value.room == me.room
             then SdpTo(k, m, st.socks[t].phase.Who().value.user) else [])
  {
    hide AllFrom, AllTo, Outgoing;
    UnsignedFrom([], k, x);
    if m.Offer? || m.Answer? {
      var msg := if m.Offer? then ServerMsg.Offer(me.user, m.sdp) else ServerMsg.Answer(me.user, m.sdp);
      AllFromOne(k, msg, x);
      SignalMail(st, me, m, t);
      if Registered(st, me.room, m.to) { assert HandleOk(st, me.room, m.to); }
    } else {
      NoSignalMail(st.rooms, me, m, t);
      UnsignedFrom(Outgoing(st.rooms, me, m).For(t), k, x);
    }
  }

  lemma SignalMail(st: Server, me: Identity, m: ClientMsg, t: SockId)
    requires m.Offer? || m.Answer?
    ensures var msg := if m.Offer? then ServerMsg.Offer(me.user, m.sdp) else ServerMsg.Answer(me.user, m.sdp);
            Outgoing(st.rooms, me, m).For(t) ==
            if LenOk(m.to, MAX_ID) && m.sdp.len <= MAX_SDP && Registered(st, me.room, m.to)
               && HandleSock(st, me.room, m.to) == t then [msg] else []
  {
    hide LenOk;
    ForThen(Outgoing(st.rooms, me, m), t);
  }

  lemma NoSignalMail(rooms: map<RoomId, Room>, me: Identity, m: ClientMsg, t: SockId)
    requires !m.Offer? && !m.Answer?
    ensures AllUnsigned(Outgoing(rooms, me, m).For(t))
  {
    hide LenOk, ByteLen;
    ForThen(Outgoing(rooms, me, m), t);
  }

  lemma {:induction false} RelaysOkStep(st: Server, e: Event)
    requires Orderly(st, e) && RelaysOk(st)
    ensures RelaysOk(Step(st, e))
  {
    hide Mail, EffectOf, AllTo, AllFrom, RelayOk;
    forall t, k, x | t in st.socks ensures RelayOk(Step(st, e), t, k, x) {
      match Kind(st, e)
      case Enters(_, _, _) => RelayOkEnters(st, e, t, k, x);
      case Posts(_, _) => RelayOkPosts(st, e, t, k, x);
      case Leaves(_) => RelayOkLeaves(st, e, t, k, x);
      case Other => RelayOkOther(st, e, t, k, x);
    }
  }
}
