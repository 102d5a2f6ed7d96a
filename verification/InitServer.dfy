// The socket loop's critical sections as they are written: the rooms and the
// queues are updated in place, with a loop for every broadcast. Each method is
// proved to take exactly one step of the state machine.

module InitServer {
  import opened Wire
  import opened Rooms
  import opened RoomsProofs

  /** All sockets after the sends of `out`. */
  function Mailed(socks: Socks, out: Outbox): Socks {
    map t | t in socks :: Mail(socks[t], t, out)
  }

  lemma MailedThen(socks: Socks, out: Outbox)
    requires out.Then?
    ensures Mailed(socks, out) == Posted(Mailed(socks, out.before), out.to, out.m)
  {
  }

  /** All sockets after one message to each of `targets`. */
  function Posted(socks: Socks, targets: set<SockId>, m: ServerMsg): Socks {
    map t | t in socks :: if t in targets then socks[t].TrySend(m) else socks[t]
  }

  lemma PostOneMore(socks: Socks, sent: set<SockId>, t: SockId, m: ServerMsg)
    requires t in socks && t !in sent
    ensures t in Posted(socks, sent, m)
    ensures Posted(socks, sent + {t}, m) == Posted(socks, sent, m)[t := Posted(socks, sent, m)[t].TrySend(m)]
  {
  }

  /** The handles of a room are different sockets that exist. */
  ghost predicate Deliverable(r: Room, socks: Socks) {
    && (forall u :: u in r ==> r[u].sock in socks)
    && (forall u, v :: u in r && v in r && r[u].sock == r[v].sock ==> u == v)
  }

  lemma DeliverableAfterJoin(r: Room, u: UserId, h: Handle, socks: Socks)
    requires Deliverable(r, socks) && h.sock in socks && h.sock !in SocksOf(r)
    ensures Deliverable(r - {u}, socks) && Deliverable((r - {u})[u := h], socks)
  {
    var r' := (r - {u})[u := h];
    forall v, w | v in r' && w in r' && r'[v].sock == r'[w].sock ensures v == w {
      if v != u { assert r[v].sock in SocksOf(r); }
      if w != u { assert r[w].sock in SocksOf(r); }
    }
  }

  class AppState {
    var rooms: map<RoomId, Room>
    var socks: Socks

    ghost function State(): Server
      reads this
    {
      Server(rooms, socks)
    }

    constructor ()
      ensures State() == INITIAL
    {
      rooms, socks := map[], map[];
    }

    method Connect(s: SockId)
      requires s !in socks
      modifies this`socks
      ensures State() == Step(old(State()), Event.Connect(s))
    {
      socks := socks[s := NEW_SOCK];
    }

    /** One message to one socket. */
    method Send(s: SockId, m: ServerMsg)
      requires s in socks
      modifies this`socks
      ensures socks == Posted(old(socks), {s}, m)
    {
      socks := socks[s := socks[s].TrySend(m)];
    }

    /** One message to every handle of a room, in any order. */
    method Broadcast(r: Room, m: ServerMsg)
      requires Deliverable(r, socks)
      modifies this`socks
      ensures socks == Posted(old(socks), SocksOf(r), m)
    {
      ghost var was := socks;
      var todo := r.Keys;
      ghost var sent: set<SockId> := {};
      while todo != {}
        invariant todo <= r.Keys
        invariant sent == set u | u in r && u !in todo :: r[u].sock
        invariant socks == Posted(was, sent, m)
        decreases todo
      {
        hide Posted;
        var u :| u in todo;
        todo := todo - {u};
        PostOneMore(was, sent, r[u].sock, m);
        assert r[u].sock !in sent;
        sent := sent + {r[u].sock};
        socks := socks[r[u].sock := socks[r[u].sock].TrySend(m)];
      }
      assert sent == SocksOf(r);
    }

    /** Mark the socket after a critical section. */
    method Settle(s: SockId, e: Event, phase: Phase)
      requires s in socks && e.s == s
      modifies this`socks
      ensures socks == old(socks)[s := OwnStep(old(socks)[s], e, phase)]
    {
      var k := socks[s];
      if e.Text? { k := k.(submitted := k.submitted + [e.msg]); }
      k := k.(phase := phase);
      if phase.Done? { k := k.(open := false); }
      if e.Drain? { k := k.(taken := k.taken + 1); }
      if e.WriterDies? { k := k.(open := false); }
      socks := socks[s := k];
    }

    /** List a room's members, in whatever order the map yields them. */
    method ListRoom(r: Room) returns (roster: seq<PeerInfo>)
      ensures RosterView.Lists(roster, Names(r))
    {
      roster := [];
      var todo := r.Keys;
      while todo != {}
        invariant todo <= r.Keys
        invariant |roster| + |todo| == |r.Keys|
        invariant forall i :: 0 <= i < |roster| ==>
                    roster[i].userId in r && roster[i].userId !in todo && roster[i].name == r[roster[i].userId].name
        invariant forall i, j :: 0 <= i < j < |roster| ==> roster[i].userId != roster[j].userId
        decreases todo
      {
        var u :| u in todo;
        roster := roster + [PeerInfo(u, r[u].name)];
        todo := todo - {u};
      }
      assert Names(r).Keys == r.Keys;
      assert |Names(r)| == |Names(r).Keys|;
    }

    /** A Join frame, up to the release of the room lock. `roster` is the order
        in which the room was listed. */
    method OnJoin(s: SockId, m: ClientMsg, authOk: bool) returns (roster: seq<PeerInfo>)
      requires RoomsOk(State()) && s in socks && socks[s].phase.Reading? && m.Join?
      modifies this
      ensures Enabled(old(State()), Text(s, m, authOk, roster))
      ensures State() == Step(old(State()), Text(s, m, authOk, roster))
    {
      var me := socks[s].phase.me;
      var r := RoomOf(rooms, m.room) - {m.userId};
      roster := ListRoom(r);
      assert Names(r) == Others(RoomOf(rooms, m.room), m.userId);
      var e := Text(s, m, authOk, roster);
      StepIs(State(), e);
      if me.Some? {
        Reply(s, Error("already_joined"));
        Settle(s, e, Reading(me));
      } else if !JoinFieldsOk(m.room, m.userId, m.name, m.token) {
        Reply(s, Error("bad_input"));
        Settle(s, e, Done(None));
      } else if !authOk {
        Reply(s, Error("bad_token"));
        Settle(s, e, Done(None));
      } else {
        var phase := Enter(s, Identity(m.room, m.userId), m.name, roster);
        Settle(s, e, phase);
      }
    }

    /** A message to one socket, as an outbox. */
    method Reply(s: SockId, m: ServerMsg)
      requires s in socks
      modifies this`socks
      ensures socks == Mailed(old(socks), Then(Empty, {s}, m))
    {
      MailedThen(socks, Then(Empty, {s}, m));
      assert Mailed(socks, Empty) == socks;
      Send(s, m);
    }

    /** A message to every handle of a room, after the sends of `sent`. */
    method Tell(r: Room, m: ServerMsg, ghost was: Socks, ghost sent: Outbox)
      requires socks == Mailed(was, sent)
      requires Deliverable(r, socks)
      modifies this`socks
      ensures socks == Mailed(was, Then(sent, SocksOf(r), m))
    {
      MailedThen(was, Then(sent, SocksOf(r), m));
      Broadcast(r, m);
    }

    /** The locked part of an accepted join. */
    method Enter(s: SockId, id: Identity, name: string, roster: seq<PeerInfo>) returns (phase: Phase)
      requires RoomsOk(State()) && s in socks && socks[s].phase == Reading(None)
      modifies this
      ensures var eff := EnterRoom(old(rooms), s, id, name, roster);
              rooms == eff.rooms && socks == Mailed(old(socks), eff.out) && phase == eff.phase
    {
      var r := RoomOf(rooms, id.room);
      if |r| >= HARD_CAP && id.user !in r {
        Reply(s, RoomFull(HARD_CAP));
        phase := Done(None);
      } else {
        Insert(s, id, name);
        phase := Joining(id, roster);
      }
    }

    /** Supersede, insert, and give notice. */
    method Insert(s: SockId, id: Identity, name: string)
      requires RoomsOk(State()) && s in socks && socks[s].phase == Reading(None)
      requires !(|RoomOf(rooms, id.room)| >= HARD_CAP && id.user !in RoomOf(rooms, id.room))
      modifies this
      ensures var eff := EnterRoom(old(rooms), s, id, name, []);
              rooms == eff.rooms && socks == Mailed(old(socks), eff.out)
    {
      ghost var was := socks;
      var r := RoomOf(rooms, id.room);
      DistinctHandles(State(), id.room);
      NotRegistered(State(), s, id.room);
      DeliverableAfterJoin(r, id.user, Handle(name, s), was);
      Supersede(r, id.user);
      var others := r - {id.user};
      var all := others[id.user := Handle(name, s)];
      rooms := rooms[id.room := all];
      GiveNotice(others, all, id.user, name, was, Superseded(r, id.user));
    }

    method Supersede(r: Room, user: UserId)
      requires Deliverable(r, socks)
      modifies this`socks
      ensures socks == Mailed(old(socks), Superseded(r, user))
    {
      assert Mailed(socks, Empty) == socks;
      if user in r { Reply(r[user].sock, Error("superseded")); }
    }

    method GiveNotice(others: Room, all: Room, user: UserId, name: string, ghost was: Socks, ghost sent: Outbox)
      requires Deliverable(others, socks) && Deliverable(all, socks)
      requires socks == Mailed(was, sent)
      modifies this`socks
      ensures socks == Mailed(was, Notices(sent, others, all, user, name))
    {
      Tell(others, PeerJoined(user, name), was, sent);
      if |all| >= WARN_CAP {
        Tell(all, Warn(|all|, WARN_CAP), was, Then(sent, SocksOf(others), PeerJoined(user, name)));
      }
    }

    /** After the lock: the Roster, then TURN credentials if there are any. */
    method FinishJoin(s: SockId, turn: Option<string>)
      requires s in socks && socks[s].phase.Joining?
      modifies this`socks
      ensures State() == Step(old(State()), Event.FinishJoin(s, turn))
    {
      StepIs(State(), Event.FinishJoin(s, turn));
      ghost var was := socks;
      var Joining(id, roster) := socks[s].phase;
      Reply(s, Roster(roster));
      if turn.Some? {
        MailedThen(was, Then(Then(Empty, {s}, Roster(roster)), {s}, Turn(turn.value)));
        Send(s, Turn(turn.value));
      }
      Settle(s, Event.FinishJoin(s, turn), Reading(Some(id)));
    }

    /** Relay a message to one member of the sender's room. */
    method Relay(me: Option<Identity>, to: UserId, m: ServerMsg)
      requires RoomsOk(State())
      modifies this`socks
      ensures socks == Mailed(old(socks), if me.Some? then RelayTo(rooms, me.value.room, to, m) else Empty)
    {
      assert Mailed(socks, Empty) == socks;
      if me.Some? {
        DistinctHandles(State(), me.value.room);
        var r := RoomOf(rooms, me.value.room);
        if to in r { Reply(r[to].sock, m); }
      }
    }

    /** Any frame of a socket but Join and Leave. */
    method OnFrame(s: SockId, m: ClientMsg, authOk: bool)
      requires RoomsOk(State()) && s in socks && socks[s].phase.Reading? && !m.Join? && !m.Leave?
      modifies this`socks
      ensures State() == Step(old(State()), Text(s, m, authOk, []))
    {
      var me, e := socks[s].phase.me, Text(s, m, authOk, []);
      StepIs(State(), e);
      assert Mailed(socks, Empty) == socks;
      match m {
        case Offer(to, sdp) =>
          if LenOk(to, MAX_ID) && sdp.len <= MAX_SDP {
            Relay(me, to, ServerMsg.Offer(if me.Some? then me.value.user else "", sdp));
          }
        case Answer(to, sdp) =>
          if LenOk(to, MAX_ID) && sdp.len <= MAX_SDP {
            Relay(me, to, ServerMsg.Answer(if me.Some? then me.value.user else "", sdp));
          }
        case Ice(to, cand) =>
          if LenOk(to, MAX_ID) && ByteLen(cand.text) <= MAX_ICE {
            Relay(me, to, ServerMsg.Ice(if me.Some? then me.value.user else "", cand));
          }
        case Ptt(active) =>
          if me.Some? { SpeakingState(me.value, active); }
        case Rekey =>
          if me.Some? { RekeyAll(me.value); }
      }
      Settle(s, e, Reading(me));
    }

    method SpeakingState(me: Identity, active: bool)
      requires RoomsOk(State())
      modifies this`socks
      ensures socks == Mailed(old(socks), Outgoing(rooms, me, ClientMsg.Ptt(active)))
    {
      DistinctHandles(State(), me.room);
      ghost var was := socks;
      assert Mailed(was, Empty) == was;
      Tell(RoomOf(rooms, me.room) - {me.user}, ServerMsg.Ptt(me.user, active), was, Empty);
    }

    method RekeyAll(me: Identity)
      requires RoomsOk(State())
      modifies this`socks
      ensures socks == Mailed(old(socks), Outgoing(rooms, me, ClientMsg.Rekey))
    {
      DistinctHandles(State(), me.room);
      ghost var was := socks;
      assert Mailed(was, Empty) == was;
      var r := RoomOf(rooms, me.room);
      Tell(r, ServerMsg.Rekey(if me.user in r then r[me.user].name else ""), was, Empty);
    }

    /** The end of a socket: Leave, close, or a lost connection. */
    method OnGone(s: SockId, e: Event)
      requires RoomsOk(State()) && s in socks && socks[s].phase.Reading?
      requires e == Hangup(s) || (e.Text? && e.s == s && e.msg == Leave)
      modifies this
      ensures State() == Step(old(State()), e)
    {
      var me := socks[s].phase.me;
      StepIs(State(), e);
      assert Mailed(socks, Empty) == socks;
      if me.Some? && me.value.room in rooms {
        Depart(me.value);
      }
      Settle(s, e, Done(me));
    }

    /** Drop the handle, tell the rest, drop an empty room. */
    method Depart(me: Identity)
      requires RoomsOk(State()) && me.room in rooms
      modifies this
      ensures var eff := Cleanup(old(rooms), Some(me));
              rooms == eff.rooms && socks == Mailed(old(socks), eff.out)
    {
      DistinctHandles(State(), me.room);
      ghost var was := socks;
      assert Mailed(was, Empty) == was;
      var r := RoomOf(rooms, me.room) - {me.user};
      rooms := rooms[me.room := r];
      Tell(r, PeerLeft(me.user), was, Empty);
      if r == map[] {
        assert old(rooms)[me.room := r] - {me.room} == old(rooms) - {me.room};
        rooms := rooms - {me.room};
      }
    }
  }

  /** A step is its outbox mailed, then the socket's own bookkeeping. */
  lemma StepIs(st: Server, e: Event)
    requires Enabled(st, e) && !e.Connect?
    ensures var eff := EffectOf(st, e);
            var socks := Mailed(st.socks, eff.out);
            Step(st, e) == Server(eff.rooms, socks[e.s := OwnStep(socks[e.s], e, eff.phase)])
  {
  }

  lemma DistinctHandles(st: Server, room: RoomId)
    requires RoomsOk(st)
    ensures Deliverable(RoomOf(st.rooms, room), st.socks)
  {
    var r := RoomOf(st.rooms, room);
    forall u | u in r ensures r[u].sock in st.socks {
      assert Registered(st, room, u) && HandleOk(st, room, u);
    }
    forall u, v | u in r && v in r && r[u].sock == r[v].sock ensures u == v {
      assert Registered(st, room, u) && Registered(st, room, v);
      OneHandlePerSocket(st, room, u, room, v);
    }
  }
}
