// What every step of the server sends to whom, seen from the receiving end: each
// socket gets what its seat in a room entitles it to, in order, and nothing else.
// The limits are written out as numbers here, so that they are said twice.

module Delivery {
  import opened Wire
  import opened RosterView
  import opened Rooms
  import opened RoomsProofs

  // ----- what a socket is owed

  /** The identity a socket is registered under, if it is. */
  function Seat(st: Server, t: SockId): Option<Identity>
    requires t in st.socks
  {
    var who := st.socks[t].phase.Who();
    if who.Some? && Registered(st, who.value.room, who.value.user)
       && HandleSock(st, who.value.room, who.value.user) == t
    then who else None
  }

  /** The socket is seated in the room. */
  predicate SeatedIn(st: Server, t: SockId, room: RoomId)
    requires t in st.socks
  {
    Seat(st, t).Some? && Seat(st, t).value.room == room
  }

  /** How a socket's Join is answered. */
  datatype Verdict = Refused(why: ServerMsg, closes: bool) | Admitted(id: Identity, size: nat)

  /** `size` is how many members the room has once the joiner is in. */
  function Judge(st: Server, s: SockId, m: ClientMsg, authOk: bool): Verdict
    requires s in st.socks && m.Join?
  {
    var r := RoomOf(st.rooms, m.room);
    if st.socks[s].phase.Who().Some? then Refused(Error("already_joined"), false)
    else if !(1 <= ByteLen(m.room) <= 64 && 1 <= ByteLen(m.userId) <= 64 && 1 <= ByteLen(m.name) <= 64
              && (m.token.Some? ==> ByteLen(m.token.value) <= 128)) then Refused(Error("bad_input"), true)
    else if !authOk then Refused(Error("bad_token"), true)
    else if m.userId in r then Admitted(Identity(m.room, m.userId), |r|)
    else if |r| == 16 then Refused(RoomFull(16), true)
    else Admitted(Identity(m.room, m.userId), |r| + 1)
  }

  /** A refusal goes to the joiner. A join is told to each other member, the socket
      that held the seat before is told that it is superseded, and from twelve
      members on all of them are warned. */
  function OwedByJoin(st: Server, s: SockId, m: ClientMsg, v: Verdict, t: SockId): seq<ServerMsg>
    requires t in st.socks && m.Join?
  {
    match v
    case Refused(why, _) => if t == s then [why] else []
    case Admitted(id, size) =>
      var warning := if size >= 12 then [Warn(size, 12)] else [];
      if t == s then warning
      else if Seat(st, t) == Some(id) then [Error("superseded")]
      else if SeatedIn(st, t, id.room) then [PeerJoined(id.user, m.name)] + warning
      else []
  }

  /** Whoever else is seated in the room is told of the end of a joined socket. */
  function OwedByEnd(st: Server, me: Option<Identity>, t: SockId): seq<ServerMsg>
    requires t in st.socks
  {
    if me.Some? && SeatedIn(st, t, me.value.room) && Seat(st, t) != me then [PeerLeft(me.value.user)] else []
  }

  /** The name a rekey is announced under. */
  function NameOf(st: Server, id: Identity): string {
    if Registered(st, id.room, id.user) then st.rooms[id.room][id.user].name else ""
  }

  /** What a member's frame is worth to another socket of its room. */
  function OwedByFrame(st: Server, me: Identity, m: ClientMsg, t: SockId): seq<ServerMsg>
    requires t in st.socks
  {
    if !SeatedIn(st, t, me.room) then []
    else
      var u := Seat(st, t).value.user;
      match m
      case Offer(to, sdp) =>
        if to == u && 1 <= ByteLen(u) <= 64 && sdp.len <= 16384 then [ServerMsg.Offer(me.user, sdp)] else []
      case Answer(to, sdp) =>
        if to == u && 1 <= ByteLen(u) <= 64 && sdp.len <= 16384 then [ServerMsg.Answer(me.user, sdp)] else []
      case Ice(to, c) =>
        if to == u && 1 <= ByteLen(u) <= 64 && ByteLen(c.text) <= 4096 then [ServerMsg.Ice(me.user, c)] else []
      case Ptt(active) => if u != me.user then [ServerMsg.Ptt(me.user, active)] else []
      case Rekey => [ServerMsg.Rekey(NameOf(st, me))]
      case _ => []
  }

  /** What a step owes a socket. */
  function Owed(st: Server, e: Event, t: SockId): seq<ServerMsg>
    requires Enabled(st, e) && t in st.socks
  {
    match e
    case Text(s, m, authOk, _) =>
      if m.Join? then OwedByJoin(st, s, m, Judge(st, s, m, authOk), t)
      else if m.Leave? then OwedByEnd(st, st.socks[s].phase.Who(), t)
      else if st.socks[s].phase.Who().Some? then OwedByFrame(st, st.socks[s].phase.Who().value, m, t)
      else []
    case BadJson(s) => if t == s then [Error("bad_json")] else []
    case FinishJoin(s, turn) =>
      if t == s then [Roster(st.socks[s].phase.roster)] + (if turn.Some? then [Turn(turn.value)] else []) else []
    case Hangup(s) => OwedByEnd(st, st.socks[s].phase.Who(), t)
    case _ => []
  }

  /** Several sends to one socket, each of which its queue takes or drops. */
  function SendAll(k: Sock, ms: seq<ServerMsg>): Sock {
    if ms == [] then k else SendAll(k, ms[..|ms| - 1]).TrySend(ms[|ms| - 1])
  }

  // ----- the outboxes

  lemma {:induction false} MailIsSendAll(k: Sock, t: SockId, out: Outbox)
    ensures Mail(k, t, out) == SendAll(k, out.For(t))
    decreases out
  {
    if out.Then? {
      MailIsSendAll(k, t, out.before);
      var ms := out.before.For(t);
      assert ms + [] == ms && (ms + [out.m])[..|ms|] == ms;
    }
  }

  /** The sockets of a room are those seated in it. */
  lemma SeatsAreHandles(st: Server, room: RoomId, t: SockId)
    requires HandlesOk(st) && t in st.socks
    ensures t in SocksOf(RoomOf(st.rooms, room)) <==> SeatedIn(st, t, room)
    ensures forall u :: Registered(st, room, u) ==>
              (HandleSock(st, room, u) == t <==> Seat(st, t) == Some(Identity(room, u)))
  {
    var r := RoomOf(st.rooms, room);
    forall u | Registered(st, room, u)
      ensures HandleSock(st, room, u) == t <==> Seat(st, t) == Some(Identity(room, u))
    {
      assert HandleOk(st, room, u);
    }
    if t in SocksOf(r) {
      var u :| u in r && r[u].sock == t;
      assert Registered(st, room, u);
    }
    if SeatedIn(st, t, room) {
      var u := Seat(st, t).value.user;
      assert u in r && r[u].sock == t;
    }
  }

  /** A room without one of its members. */
  lemma SeatsButOne(st: Server, id: Identity, t: SockId)
    requires HandlesOk(st) && t in st.socks
    ensures t in SocksOf(RoomOf(st.rooms, id.room) - {id.user}) <==> SeatedIn(st, t, id.room) && Seat(st, t) != Some(id)
  {
    var r := RoomOf(st.rooms, id.room);
    SeatsAreHandles(st, id.room, t);
    if t in SocksOf(r - {id.user}) {
      var u :| u in r - {id.user} && (r - {id.user})[u].sock == t;
      assert Registered(st, id.room, u);
    }
    if SeatedIn(st, t, id.room) && Seat(st, t) != Some(id) {
      var u := Seat(st, t).value.user;
      assert u in r - {id.user} && (r - {id.user})[u].sock == t;
    }
  }

  lemma FrameOwed(st: Server, me: Identity, m: ClientMsg, t: SockId)
    requires HandlesOk(st) && t in st.socks && !m.Join? && !m.Leave?
    ensures Outgoing(st.rooms, me, m).For(t) == OwedByFrame(st, me, m, t)
  {
    SeatsAreHandles(st, me.room, t);
    SeatsButOne(st, me, t);
    if m.Offer? || m.Answer? || m.Ice? { FieldLen(m.to); }
    ForThen(Outgoing(st.rooms, me, m), t);
    if m.Offer? || m.Answer? || m.Ice? {
      if !Registered(st, me.room, m.to) && SeatedIn(st, t, me.room) { assert Seat(st, t).value.user != m.to; }
    }
  }

  lemma EndOwed(st: Server, me: Option<Identity>, t: SockId)
    requires HandlesOk(st) && t in st.socks
    ensures Cleanup(st.rooms, me).out.For(t) == OwedByEnd(st, me, t)
  {
    if me.Some? {
      SeatsButOne(st, me.value, t);
      ForThen(Cleanup(st.rooms, me).out, t);
    }
  }

  /** The room with the joiner in it. */
  function Joined(st: Server, s: SockId, m: ClientMsg): Room
    requires m.Join?
  {
    (RoomOf(st.rooms, m.room) - {m.userId})[m.userId := Handle(m.name, s)]
  }

  lemma JoinedSize(st: Server, s: SockId, m: ClientMsg)
    requires m.Join?
    ensures var r := RoomOf(st.rooms, m.room); |Joined(st, s, m)| == |r| + (if m.userId in r then 0 else 1)
  {
    var r, u, r2 := RoomOf(st.rooms, m.room), m.userId, Joined(st, s, m);
    SizeOfUpdate(r.Keys, u);
    assert r2.Keys == r.Keys - {u} + {u} && |r2| == |r2.Keys| && |r| == |r.Keys|;
  }

  lemma RoomSize(st: Server, room: RoomId)
    requires SizesOk(st.rooms)
    ensures |RoomOf(st.rooms, room)| <= HARD_CAP
  {
  }

  lemma AdmittedSize(st: Server, s: SockId, m: ClientMsg, authOk: bool)
    requires s in st.socks && m.Join?
    ensures var v, r := Judge(st, s, m, authOk), RoomOf(st.rooms, m.room);
            v.Admitted? ==> v.size == |r| + (if m.userId in r then 0 else 1)
  {
    hide ByteLen;
  }

  /** A join is admitted exactly in the cases the rules name. */
  lemma AdmittedIffEnters(st: Server, e: Event)
    requires SizesOk(st.rooms) && Enabled(st, e) && e.Text? && e.msg.Join?
    ensures var v, k := Judge(st, e.s, e.msg, e.authOk), Kind(st, e);
            && (k.Enters? <==> v.Admitted?)
            && (v.Admitted? ==>
                  && k == Enters(v.id, e.msg.name, e.roster) && v.id == Identity(e.msg.room, e.msg.userId)
                  && v.size == |Joined(st, e.s, e.msg)|)
  {
    hide Judge, Joined, SizesOk, JoinFieldsOk, Lists;
    RoomSize(st, e.msg.room);
    JoinedSize(st, e.s, e.msg);
    JudgedBy(st, e.s, e.msg, e.authOk);
    AdmittedSize(st, e.s, e.msg, e.authOk);
  }

  lemma FullRoomRefuses(rooms: map<RoomId, Room>, s: SockId, id: Identity, name: string, roster: seq<PeerInfo>)
    requires |RoomOf(rooms, id.room)| >= HARD_CAP && id.user !in RoomOf(rooms, id.room)
    ensures EnterRoom(rooms, s, id, name, roster) == Effect(rooms, Done(None), Then(Empty, {s}, RoomFull(16)))
  {
  }

  /** A refusal changes nothing but the joiner's own socket. */
  lemma RefusalEffect(st: Server, e: Event)
    requires Enabled(st, e) && e.Text? && e.msg.Join? && Judge(st, e.s, e.msg, e.authOk).Refused?
    ensures var v, phase := Judge(st, e.s, e.msg, e.authOk), st.socks[e.s].phase;
            EffectOf(st, e) == Effect(st.rooms, if v.closes then Done(None) else phase, Then(Empty, {e.s}, v.why))
  {
    hide ByteLen, EnterRoom, Lists, Judge;
    var me, m := st.socks[e.s].phase.me, e.msg;
    JudgedBy(st, e.s, m, e.authOk);
    if me.None? && JoinFieldsOk(m.room, m.userId, m.name, m.token) && e.authOk {
      FullRoomRefuses(st.rooms, e.s, Identity(m.room, m.userId), m.name, e.roster);
    }
  }

  /** The verdict, case by case. */
  lemma JudgedBy(st: Server, s: SockId, m: ClientMsg, authOk: bool)
    requires s in st.socks && m.Join?
    ensures var v, who, r := Judge(st, s, m, authOk), st.socks[s].phase.Who(), RoomOf(st.rooms, m.room);
            var ok := JoinFieldsOk(m.room, m.userId, m.name, m.token);
            && (who.Some? ==> v == Refused(Error("already_joined"), false))
            && (who.None? && !ok ==> v == Refused(Error("bad_input"), true))
            && (who.None? && ok && !authOk ==> v == Refused(Error("bad_token"), true))
            && (who.None? && ok && authOk ==>
                  if m.userId !in r && |r| == HARD_CAP then v == Refused(RoomFull(HARD_CAP), true)
                  else v.Admitted? && v.id == Identity(m.room, m.userId))
  {
    hide ByteLen;
    FieldLen(m.room);
    FieldLen(m.userId);
    FieldLen(m.name);
  }

  lemma FieldLen(s: string)
    ensures s == [] <==> ByteLen(s) < 1
  {
  }

  lemma AdmissionOwed(st: Server, e: Event, t: SockId)
    requires HandlesOk(st) && SizesOk(st.rooms) && Enabled(st, e) && t in st.socks
    requires e.Text? && e.msg.Join? && Judge(st, e.s, e.msg, e.authOk).Admitted?
    ensures EffectOf(st, e).out.For(t) == OwedByJoin(st, e.s, e.msg, Judge(st, e.s, e.msg, e.authOk), t)
  {
    hide Judge, EffectOf, RoomsProofs.Kind, Enabled, HandlesOk, SizesOk;
    AdmittedIffEnters(st, e);
    EffectByKind(st, e);
    EntersWithinCap(st, e);
    var id := Identity(e.msg.room, e.msg.userId);
    EnterMail(st.rooms, e.s, id, e.msg.name, e.roster, t);
    JoinerUnseated(st, e, id.room);
    SeatsAreHandles(st, id.room, t);
    SeatsButOne(st, id, t);
    SocksWithJoiner(st, e.s, e.msg, t);
  }

  lemma EntersWithinCap(st: Server, e: Event)
    requires Enabled(st, e) && !e.Connect? && Kind(st, e).Enters?
    ensures var id := Kind(st, e).id;
            !(|RoomOf(st.rooms, id.room)| >= HARD_CAP && id.user !in RoomOf(st.rooms, id.room))
  {
    hide JoinFieldsOk, Lists;
  }

  lemma JoinerUnseated(st: Server, e: Event, room: RoomId)
    requires HandlesOk(st) && Enabled(st, e) && !e.Connect? && Kind(st, e).Enters?
    ensures e.s !in SocksOf(RoomOf(st.rooms, room))
  {
    hide JoinFieldsOk, Lists;
    NotRegistered(st, e.s, room);
  }

  lemma SocksWithJoiner(st: Server, s: SockId, m: ClientMsg, t: SockId)
    requires m.Join?
    ensures t in SocksOf(Joined(st, s, m)) <==> t == s || t in SocksOf(RoomOf(st.rooms, m.room) - {m.userId})
  {
    var r1, r2 := RoomOf(st.rooms, m.room) - {m.userId}, Joined(st, s, m);
    assert r2[m.userId].sock == s;
    if t in SocksOf(r1) {
      var u :| u in r1 && r1[u].sock == t;
      assert r2[u].sock == t;
    }
  }

  lemma RosterOwed(st: Server, e: Event, t: SockId)
    requires Enabled(st, e) && e.FinishJoin? && t in st.socks
    ensures EffectOf(st, e).out.For(t) == Owed(st, e, t)
  {
    var out := EffectOf(st, e).out;
    ForThen(out, t);
    if e.turn.Some? { ForThen(out.before, t); }
  }

  lemma StepOwes(st: Server, e: Event, t: SockId)
    requires HandlesOk(st) && SizesOk(st.rooms) && Enabled(st, e) && !e.Connect? && t in st.socks
    ensures EffectOf(st, e).out.For(t) == Owed(st, e, t)
  {
    hide HandlesOk, SizesOk, Judge, OwedByFrame, OwedByEnd, Outgoing, EnterRoom, Cleanup, JoinFieldsOk, Lists;
    match e
    case Text(s, m, authOk, roster) =>
      if m.Join? {
        if Judge(st, s, m, authOk).Refused? {
          RefusalEffect(st, e);
          ForThen(EffectOf(st, e).out, t);
        } else {
          AdmissionOwed(st, e, t);
        }
      } else if m.Leave? {
        EndOwed(st, st.socks[s].phase.me, t);
      } else if st.socks[s].phase.me.Some? {
        FrameOwed(st, st.socks[s].phase.me.value, m, t);
      }
    case FinishJoin(s, turn) => RosterOwed(st, e, t);
    case Hangup(s) => EndOwed(st, st.socks[s].phase.me, t);
    case BadJson(s) => ForThen(EffectOf(st, e).out, t);
    case _ =>
  }

  // ----- every step, and every run

  /** In every reachable state every step sends each socket exactly what it is
      owed, one after the other, and its queue takes or drops each of these. */
  lemma {:induction false} StepDelivers(es: seq<Event>, e: Event, t: SockId)
    requires Enabled(Run(es), e) && t in Run(es).socks
    ensures var k, k' := SendAll(Run(es).socks[t], Owed(Run(es), e, t)), Step(Run(es), e).socks[t];
            k'.log == k.log && k'.lost == k.lost
  {
    hide Owed, EffectOf, Mail;
    RunRoomsOk(es);
    if !e.Connect? {
      StepOwes(Run(es), e, t);
      MailIsSendAll(Run(es).socks[t], t, EffectOf(Run(es), e).out);
    } else {
      ConnectOwesNothing(Run(es), e, t);
    }
  }

  lemma ConnectOwesNothing(st: Server, e: Event, t: SockId)
    requires Enabled(st, e) && e.Connect? && t in st.socks
    ensures Owed(st, e, t) == []
  {
  }

  /** All a socket was owed in a run. */
  function OwedSoFar(es: seq<Event>, t: SockId): seq<ServerMsg> {
    if es == [] then []
    else
      var front, e := es[..|es| - 1], es[|es| - 1];
      OwedSoFar(front, t) + (if Enabled(Run(front), e) && t in Run(front).socks then Owed(Run(front), e, t) else [])
  }

  lemma {:induction false} SendAllLog(k: Sock, ms: seq<ServerMsg>)
    ensures SendAll(k, ms).lost >= k.lost
    ensures SendAll(k, ms).lost == k.lost ==> SendAll(k, ms).log == k.log + ms
    decreases |ms|
  {
    if ms != [] {
      SendAllLog(k, ms[..|ms| - 1]);
      assert ms == ms[..|ms| - 1] + [ms[|ms| - 1]];
    }
  }

  /** In every run a socket that has lost nothing was sent exactly what it was
      owed, in order. */
  lemma {:induction false} LosslessLogIsOwed(es: seq<Event>, t: SockId)
    requires t in Run(es).socks && Run(es).socks[t].lost == 0
    ensures Run(es).socks[t].log == OwedSoFar(es, t)
    decreases |es|
  {
    hide Owed, Step, Enabled;
    if es != [] {
      var front, e := es[..|es| - 1], es[|es| - 1];
      var st := Run(front);
      if t !in st.socks {
        NewSockLog(st, e, t);
        NothingOwedYet(front, t);
      } else if !Enabled(st, e) {
        IdleServer(st, e);
        LosslessLogIsOwed(front, t);
      } else {
        StepDelivers(front, e, t);
        SendAllLog(st.socks[t], Owed(st, e, t));
        LosslessLogIsOwed(front, t);
      }
    }
  }

  lemma IdleServer(st: Server, e: Event)
    requires !Enabled(st, e)
    ensures Step(st, e) == st
  {
  }

  lemma NewSockLog(st: Server, e: Event, t: SockId)
    requires t !in st.socks && t in Step(st, e).socks
    ensures Step(st, e).socks[t].log == []
  {
    hide EffectOf, Mail, OwnStep;
  }

  lemma {:induction false} NothingOwedYet(es: seq<Event>, t: SockId)
    requires t !in Run(es).socks
    ensures OwedSoFar(es, t) == []
    decreases |es|
  {
    hide EffectOf, Mail, OwnStep, Owed, Enabled;
    if es != [] { NothingOwedYet(es[..|es| - 1], t); }
  }

  // ----- frames between members

  /** The queue took or dropped these messages, and no others. */
  predicate Got(k: Sock, k': Sock, ms: seq<ServerMsg>) {
    k'.log == SendAll(k, ms).log && k'.lost == SendAll(k, ms).lost
  }

  lemma GotNothing(k: Sock, k': Sock)
    ensures Got(k, k', []) <==> k'.log == k.log && k'.lost == k.lost
  {
  }

  lemma GotOne(k: Sock, k': Sock, m: ServerMsg)
    ensures Got(k, k', [m]) <==> k'.log == k.TrySend(m).log && k'.lost == k.TrySend(m).lost
  {
    assert [m][..0] == [] && SendAll(k, []) == k;
    assert SendAll(k, [m]) == SendAll(k, [m][..0]).TrySend(m);
  }

  lemma SocksStay(st: Server, e: Event)
    requires Enabled(st, e) && !e.Connect?
    ensures Step(st, e).socks.Keys == st.socks.Keys
  {
  }

  /** What a signal becomes under the sender's stamp, if it is within the limits. */
  function Stamped(from: UserId, m: ClientMsg): Option<ServerMsg>
    requires m.Offer? || m.Answer? || m.Ice?
  {
    match m
    case Offer(_, sdp) => if sdp.len <= 16384 then Some(ServerMsg.Offer(from, sdp)) else None
    case Answer(_, sdp) => if sdp.len <= 16384 then Some(ServerMsg.Answer(from, sdp)) else None
    case Ice(_, c) => if ByteLen(c.text) <= 4096 then Some(ServerMsg.Ice(from, c)) else None
  }

  /** An offer, an answer or a candidate within the limits goes to the addressed
      member of the sender's room, under the sender's id, and to nobody else; one
      over the limits, or for somebody who is not there, to nobody at all. */
  lemma {:induction false} SignalReaches(es: seq<Event>, s: SockId, m: ClientMsg, me: Identity, t: SockId)
    requires m.Offer? || m.Answer? || m.Ice?
    requires s in Run(es).socks && Run(es).socks[s].phase == Reading(Some(me)) && t in Run(es).socks
    requires 1 <= ByteLen(m.to) <= 64
    ensures var st, stamped := Run(es), Stamped(me.user, m);
            var k, k' := st.socks[t], Step(st, Text(s, m, true, [])).socks[t];
            if stamped.Some? && Registered(st, me.room, m.to) && HandleSock(st, me.room, m.to) == t
            then k'.log == k.TrySend(stamped.value).log && k'.lost == k.TrySend(stamped.value).lost
            else k'.log == k.log && k'.lost == k.lost
  {
    hide Step, Run, ByteLen, LenOk;
    var st, e := Run(es), Text(s, m, true, []);
    SocksStay(st, e);
    var k, k' := st.socks[t], Step(st, e).socks[t];
    StepDelivers(es, e, t);
    RunRoomsOk(es);
    SeatsAreHandles(st, me.room, t);
    GotNothing(k, k');
    if Stamped(me.user, m).Some? { GotOne(k, k', Stamped(me.user, m).value); }
    assert Got(k, k', Owed(st, e, t));
    if SeatedIn(st, t, me.room) { assert Registered(st, me.room, Seat(st, t).value.user); }
  }

  /** A speaking state goes once to each other member of the room, and to nobody
      else. */
  lemma {:induction false} SpeakingReaches(es: seq<Event>, s: SockId, active: bool, me: Identity, t: SockId)
    requires s in Run(es).socks && Run(es).socks[s].phase == Reading(Some(me)) && t in Run(es).socks
    ensures var st, m := Run(es), ServerMsg.Ptt(me.user, active);
            var k, k' := st.socks[t], Step(st, Text(s, ClientMsg.Ptt(active), true, [])).socks[t];
            if exists u :: u != me.user && Registered(st, me.room, u) && HandleSock(st, me.room, u) == t
            then k'.log == k.TrySend(m).log && k'.lost == k.TrySend(m).lost
            else k'.log == k.log && k'.lost == k.lost
  {
    hide Step, Run, ByteLen;
    var st, e := Run(es), Text(s, ClientMsg.Ptt(active), true, []);
    SocksStay(st, e);
    var k, k' := st.socks[t], Step(st, e).socks[t];
    StepDelivers(es, e, t);
    RunRoomsOk(es);
    SeatsAreHandles(st, me.room, t);
    GotNothing(k, k');
    GotOne(k, k', ServerMsg.Ptt(me.user, active));
    assert Got(k, k', Owed(st, e, t));
    if SeatedIn(st, t, me.room) {
      var u := Seat(st, t).value.user;
      assert Registered(st, me.room, u) && HandleSock(st, me.room, u) == t;
    }
  }

  // ----- what becomes of the sockets and the rooms

  /** The phase a step leaves its own socket in. */
  function NextPhase(st: Server, e: Event): Phase
    requires Enabled(st, e) && !e.Connect?
  {
    var phase := st.socks[e.s].phase;
    if e.FinishJoin? then Reading(phase.Who())
    else if e.Hangup? || (e.Text? && e.msg.Leave?) then Done(phase.Who())
    else if e.Text? && e.msg.Join? then
      match Judge(st, e.s, e.msg, e.authOk)
      case Admitted(id, _) => Joining(id, e.roster)
      case Refused(_, closes) => if closes then Done(None) else phase
    else phase
  }

  /** A step moves its own socket on as the rules say, and no other. */
  lemma {:induction false} StepSettles(es: seq<Event>, e: Event, t: SockId)
    requires Enabled(Run(es), e) && !e.Connect? && t in Run(es).socks
    ensures var k, k' := Run(es).socks[t], Step(Run(es), e).socks[t];
            if t != e.s then
              k'.phase == k.phase && k'.open == k.open && k'.taken == k.taken && k'.submitted == k.submitted
            else
              && k'.phase == NextPhase(Run(es), e)
              && k'.open == (k.open && !NextPhase(Run(es), e).Done? && !e.WriterDies?)
              && k'.taken == k.taken + (if e.Drain? then 1 else 0)
              && k'.submitted == k.submitted + (if e.Text? then [e.msg] else [])
  {
    hide EffectOf, Mail, NextPhase, Enabled;
    RunRoomsOk(es);
    MailOnly(Run(es).socks[t], t, EffectOf(Run(es), e).out);
    EffectPhase(Run(es), e);
    assert Run(es).socks[t].submitted + [] == Run(es).socks[t].submitted;
  }

  lemma EffectPhase(st: Server, e: Event)
    requires SizesOk(st.rooms) && Enabled(st, e) && !e.Connect?
    ensures EffectOf(st, e).phase == NextPhase(st, e)
  {
    hide Judge, SizesOk, EnterRoom, JoinFieldsOk, Lists;
    if e.Text? && e.msg.Join? {
      if Judge(st, e.s, e.msg, e.authOk).Refused? {
        RefusalEffect(st, e);
      } else {
        AdmittedIffEnters(st, e);
        RegisteredAfterJoin(st, e, e.msg.userId);
        MailOnly(st.socks[e.s], e.s, EffectOf(st, e).out);
      }
    }
  }

  /** The step admits a joiner under the identity. */
  predicate JoinsAs(st: Server, e: Event, id: Identity)
    requires Enabled(st, e)
  {
    e.Text? && e.msg.Join? && Judge(st, e.s, e.msg, e.authOk).Admitted?
    && id == Identity(e.msg.room, e.msg.userId)
  }

  /** The step ends a socket that has joined under the identity. */
  predicate EndsFor(st: Server, e: Event, id: Identity)
    requires Enabled(st, e)
  {
    (e.Hangup? || (e.Text? && e.msg.Leave?)) && st.socks[e.s].phase.Who() == Some(id)
  }

  /** Membership changes by admitted joins and by the ends of joined sockets, and
      each of these concerns its own id only. */
  lemma {:induction false} MembersAfter(es: seq<Event>, e: Event, room: RoomId, u: UserId)
    requires Enabled(Run(es), e)
    ensures var st, st', id := Run(es), Step(Run(es), e), Identity(room, u);
            && (Registered(st', room, u) <==> JoinsAs(st, e, id) || (Registered(st, room, u) && !EndsFor(st, e, id)))
            && (Registered(st', room, u) ==>
                  st'.rooms[room][u] == if JoinsAs(st, e, id) then Handle(e.msg.name, e.s) else st.rooms[room][u])
  {
    hide JoinsAs, EndsFor, Step, SizesOk, HandlesOk, RoomsProofs.Kind;
    RunRoomsOk(es);
    var st := Run(es);
    if e.Connect? {
      ConnectRooms(st, e);
    } else {
      ByKind(st, e, Identity(room, u));
      match Kind(st, e)
      case Enters(_, _, _) =>
        RegisteredAfterJoin(st, e, u);
        if Registered(Step(st, e), room, u) { EntriesAfterJoin(st, e, room, u); }
      case Leaves(_) =>
        RoomsAfterLeave(st, e, u);
        if Registered(Step(st, e), room, u) { EntriesAfterLeave(st, e, room, u); }
      case _ => SameRooms(st, e);
    }
  }

  lemma ByKind(st: Server, e: Event, id: Identity)
    requires SizesOk(st.rooms) && Enabled(st, e) && !e.Connect?
    ensures JoinsAs(st, e, id) <==> Kind(st, e).Enters? && Kind(st, e).id == id
    ensures JoinsAs(st, e, id) ==> e.Text? && e.msg.Join? && Kind(st, e).name == e.msg.name
    ensures EndsFor(st, e, id) <==> Kind(st, e).Leaves? && Kind(st, e).me == id
  {
    hide Judge, SizesOk, RoomsProofs.Kind;
    if e.Text? && e.msg.Join? { AdmittedIffEnters(st, e); }
    EndIsLeave(st, e);
  }

  lemma ConnectRooms(st: Server, e: Event)
    requires Enabled(st, e) && e.Connect?
    ensures Step(st, e).rooms == st.rooms
    ensures forall id :: !JoinsAs(st, e, id) && !EndsFor(st, e, id)
  {
  }

  lemma EndIsLeave(st: Server, e: Event)
    requires Enabled(st, e) && !e.Connect?
    ensures Kind(st, e).Leaves? <==> (e.Hangup? || (e.Text? && e.msg.Leave?)) && st.socks[e.s].phase.Who().Some?
    ensures Kind(st, e).Leaves? ==> Some(Kind(st, e).me) == st.socks[e.s].phase.Who()
    ensures Kind(st, e).Enters? ==> e.Text? && e.msg.Join?
  {
    hide JoinFieldsOk, Lists;
  }

  lemma EntriesAfterJoin(st: Server, e: Event, room: RoomId, u: UserId)
    requires Enabled(st, e) && !e.Connect? && Kind(st, e).Enters? && Registered(Step(st, e), room, u)
    ensures var id := Kind(st, e).id;
            Step(st, e).rooms[room][u] ==
              if Identity(room, u) == id then Handle(Kind(st, e).name, e.s)
              else if Registered(st, room, u) then st.rooms[room][u] else Handle("", 0)
  {
    hide JoinFieldsOk, Lists, Mail, Notices, Superseded;
    EffectByKind(st, e);
  }

  lemma EntriesAfterLeave(st: Server, e: Event, room: RoomId, u: UserId)
    requires Enabled(st, e) && !e.Connect? && Kind(st, e).Leaves? && Registered(Step(st, e), room, u)
    ensures Registered(st, room, u) && Step(st, e).rooms[room][u] == st.rooms[room][u]
  {
    hide JoinFieldsOk, Lists, Mail;
    EffectByKind(st, e);
  }

  // ----- the queues

  predicate Fits(k: Sock) {
    |k.log| <= k.taken + 256
  }

  lemma {:induction false} MailFits(k: Sock, t: SockId, out: Outbox)
    requires Fits(k)
    ensures Fits(Mail(k, t, out)) && Mail(k, t, out).taken == k.taken
    decreases out
  {
    if out.Then? { MailFits(k, t, out.before); }
  }

  /** No queue ever holds more than 256 messages. */
  lemma {:induction false} QueuesBounded(es: seq<Event>, t: SockId)
    requires t in Run(es).socks
    ensures Run(es).socks[t].taken <= |Run(es).socks[t].log| <= Run(es).socks[t].taken + 256
    decreases |es|
  {
    hide EffectOf, Mail, Enabled;
    RunRoomsOk(es);
    var front, e := es[..|es| - 1], es[|es| - 1];
    if t in Run(front).socks {
      QueuesBounded(front, t);
      if Enabled(Run(front), e) && !e.Connect? { MailFits(Run(front).socks[t], t, EffectOf(Run(front), e).out); }
    }
  }
}
