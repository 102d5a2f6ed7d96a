// The signaling server (server/init/src/main.rs): rooms, per-peer bounded
// queues and the socket loop, as a state machine whose steps are the critical
// sections of the source. A join is two steps, because the source sends the
// Roster after it has released the room lock.

module Rooms {
  import opened Wire
  import opened RosterView

  const WARN_CAP: nat := 12
  const HARD_CAP: nat := 16
  const MAX_ID: nat := 64
  const MAX_NAME: nat := 64
  const MAX_TOKEN: nat := 128
  const MAX_ICE: nat := 4 * 1024
  const PEER_CHAN: nat := 256

  type SockId = nat

  datatype Identity = Identity(room: RoomId, user: UserId)

  datatype Handle = Handle(name: string, sock: SockId)

  type Room = map<UserId, Handle>

  /** Where a socket's task stands: reading frames (joined or not), between the
      locked part of a join and its Roster, or finished. */
  datatype Phase =
    | Reading(me: Option<Identity>)
    | Joining(id: Identity, roster: seq<PeerInfo>)
    | Done(was: Option<Identity>)
  {
    function Who(): Option<Identity> {
      match this
      case Reading(me) => me
      case Joining(id, _) => Some(id)
      case Done(was) => was
    }
  }

  /** A socket. `log` is every message its queue ever accepted, of which the
      writer has taken the first `taken`; the queue itself is the rest. `lost`
      counts the sends the queue refused; `submitted` is what the client sent. */
  datatype Sock = Sock(phase: Phase, log: seq<ServerMsg>, taken: nat, open: bool,
                       lost: nat, submitted: seq<ClientMsg>)
  {
    predicate HasRoom() {
      open && |log| - taken < PEER_CHAN
    }

    /** `try_send`: enqueue, or drop when the queue is full or its reader gone. */
    function TrySend(m: ServerMsg): Sock {
      if HasRoom() then this.(log := log + [m]) else this.(lost := lost + 1)
    }
  }

  type Socks = map<SockId, Sock>

  datatype Server = Server(rooms: map<RoomId, Room>, socks: Socks)

  const INITIAL: Server := Server(map[], map[])
  const NEW_SOCK: Sock := Sock(Reading(None), [], 0, true, 0, [])

  /** The sends of one critical section, first to last. */
  datatype Outbox = Empty | Then(before: Outbox, to: set<SockId>, m: ServerMsg)
  {
    /** What is addressed to socket `t`, in order. */
    function For(t: SockId): seq<ServerMsg> {
      match this
      case Empty => []
      case Then(before, to, m) => before.For(t) + (if t in to then [m] else [])
    }

    /** Nothing in it is about membership. */
    predicate Quiet() {
      Then? ==> before.Quiet() && Neutral(m)
    }
  }

  /** What a critical section does: the rooms after it, the phase its socket is
      in afterwards, and what it sends. */
  datatype Effect = Effect(rooms: map<RoomId, Room>, phase: Phase, out: Outbox)

  function SocksOf(r: Room): set<SockId> {
    set u | u in r :: r[u].sock
  }

  function Names(r: Room): View {
    map u | u in r :: r[u].name
  }

  /** The members of a room as one of them should see it. */
  function Others(r: Room, u: UserId): View {
    Names(r) - {u}
  }

  function RoomOf(rooms: map<RoomId, Room>, room: RoomId): Room {
    if room in rooms then rooms[room] else map[]
  }

  predicate JoinFieldsOk(room: RoomId, user: UserId, name: string, token: Option<string>) {
    && LenOk(room, MAX_ID) && LenOk(user, MAX_ID) && LenOk(name, MAX_NAME)
    && (token.Some? ==> ByteLen(token.value) <= MAX_TOKEN)
  }

  /** The locked part of a join: cap check, supersession, insertion, notices. */
  function EnterRoom(rooms: map<RoomId, Room>, s: SockId, id: Identity, name: string, roster: seq<PeerInfo>): Effect {
    var r0 := RoomOf(rooms, id.room);
    if |r0| >= HARD_CAP && id.user !in r0 then
      Effect(rooms, Done(None), Then(Empty, {s}, RoomFull(HARD_CAP)))
    else
      var r1 := r0 - {id.user};
      var r2 := r1[id.user := Handle(name, s)];
      Effect(rooms[id.room := r2], Joining(id, roster), Notices(Superseded(r0, id.user), r1, r2, id.user, name))
  }

  function Superseded(r: Room, user: UserId): Outbox {
    if user in r then Then(Empty, {r[user].sock}, Error("superseded")) else Empty
  }

  /** The notices of a join: the newcomer to the others, the soft cap to all. */
  function Notices(first: Outbox, others: Room, all: Room, user: UserId, name: string): Outbox {
    var joined := Then(first, SocksOf(others), PeerJoined(user, name));
    if |all| >= WARN_CAP then Then(joined, SocksOf(all), Warn(|all|, WARN_CAP)) else joined
  }

  /** The cleanup after the socket loop. */
  function Cleanup(rooms: map<RoomId, Room>, me: Option<Identity>): Effect {
    if me == None || me.value.room !in rooms then Effect(rooms, Done(me), Empty)
    else
      var room := me.value.room;
      var r := rooms[room] - {me.value.user};
      Effect(if r == map[] then rooms - {room} else rooms[room := r],
             Done(me),
             Then(Empty, SocksOf(r), PeerLeft(me.value.user)))
  }

  /** A message for one member of the sender's room, if it is there. */
  function RelayTo(rooms: map<RoomId, Room>, room: RoomId, to: UserId, m: ServerMsg): Outbox {
    var r := RoomOf(rooms, room);
    if to in r then Then(Empty, {r[to].sock}, m) else Empty
  }

  /** What a joined member's frame is turned into, if it is within the limits. */
  function Outgoing(rooms: map<RoomId, Room>, me: Identity, m: ClientMsg): Outbox {
    var r := RoomOf(rooms, me.room);
    match m
    case Offer(to, sdp) =>
      if LenOk(to, MAX_ID) && sdp.len <= MAX_SDP
      then RelayTo(rooms, me.room, to, ServerMsg.Offer(me.user, sdp)) else Empty
    case Answer(to, sdp) =>
      if LenOk(to, MAX_ID) && sdp.len <= MAX_SDP
      then RelayTo(rooms, me.room, to, ServerMsg.Answer(me.user, sdp)) else Empty
    case Ice(to, cand) =>
      if LenOk(to, MAX_ID) && ByteLen(cand.text) <= MAX_ICE
      then RelayTo(rooms, me.room, to, ServerMsg.Ice(me.user, cand)) else Empty
    case Ptt(active) => Then(Empty, SocksOf(r - {me.user}), ServerMsg.Ptt(me.user, active))
    case Rekey => Then(Empty, SocksOf(r), ServerMsg.Rekey(if me.user in r then r[me.user].name else ""))
    case _ => Empty
  }

  /** One parsed frame on a socket that is reading as `me`. */
  function Receive(rooms: map<RoomId, Room>, s: SockId, me: Option<Identity>, m: ClientMsg,
                   authOk: bool, roster: seq<PeerInfo>): Effect
  {
    match m
    case Join(room, user, name, token) =>
      if me.Some? then Effect(rooms, Reading(me), Then(Empty, {s}, Error("already_joined")))
      else if !JoinFieldsOk(room, user, name, token) then
        Effect(rooms, Done(None), Then(Empty, {s}, Error("bad_input")))
      else if !authOk then Effect(rooms, Done(None), Then(Empty, {s}, Error("bad_token")))
      else EnterRoom(rooms, s, Identity(room, user), name, roster)
    case Leave => Cleanup(rooms, me)
    case _ => Effect(rooms, Reading(me), if me.Some? then Outgoing(rooms, me.value, m) else Empty)
  }

  /** The end of a join: the Roster, then TURN credentials if there are any. */
  function SendRoster(rooms: map<RoomId, Room>, s: SockId, id: Identity, roster: seq<PeerInfo>,
                      turn: Option<string>): Effect {
    var out := Then(Empty, {s}, Roster(roster));
    Effect(rooms, Reading(Some(id)), if turn.Some? then Then(out, {s}, Turn(turn.value)) else out)
  }

  /** What can happen. Foreign results are part of the event: whether the room
      token checked out, the order in which the room map was listed, and the
      TURN credentials, if any. */
  datatype Event =
    | Connect(s: SockId)
    | Text(s: SockId, msg: ClientMsg, authOk: bool, roster: seq<PeerInfo>)
    | BadJson(s: SockId)
    | FinishJoin(s: SockId, turn: Option<string>)
    | Hangup(s: SockId)
    | Drain(s: SockId)
    | WriterDies(s: SockId)

  predicate Enabled(st: Server, e: Event) {
    match e
    case Connect(s) => s !in st.socks
    case Text(s, m, _, roster) =>
      && s in st.socks && st.socks[s].phase.Reading?
      && (m.Join? ==> Lists(roster, Others(RoomOf(st.rooms, m.room), m.userId)))
    case BadJson(s) => s in st.socks && st.socks[s].phase.Reading?
    case FinishJoin(s, _) => s in st.socks && st.socks[s].phase.Joining?
    case Hangup(s) => s in st.socks && st.socks[s].phase.Reading?
    case Drain(s) => s in st.socks && st.socks[s].open && st.socks[s].taken < |st.socks[s].log|
    case WriterDies(s) => s in st.socks && st.socks[s].open
  }

  /** The effect of an event on its socket and, through mail, on all others. */
  function EffectOf(st: Server, e: Event): Effect
    requires Enabled(st, e) && !e.Connect?
  {
    var phase := st.socks[e.s].phase;
    match e
    case Text(s, m, authOk, roster) => Receive(st.rooms, s, phase.me, m, authOk, roster)
    case BadJson(s) => Effect(st.rooms, phase, Then(Empty, {s}, Error("bad_json")))
    case FinishJoin(s, turn) => SendRoster(st.rooms, s, phase.id, phase.roster, turn)
    case Hangup(s) => Cleanup(st.rooms, phase.me)
    case _ => Effect(st.rooms, phase, Empty)
  }

  /** The socket's own bookkeeping around the effect. */
  function OwnStep(k: Sock, e: Event, phase: Phase): Sock {
    Sock(phase, k.log,
         if e.Drain? then k.taken + 1 else k.taken,
         k.open && !phase.Done? && !e.WriterDies?,
         k.lost,
         if e.Text? then k.submitted + [e.msg] else k.submitted)
  }

  function Mail(k: Sock, t: SockId, out: Outbox): Sock {
    match out
    case Empty => k
    case Then(before, to, m) =>
      if t in to then Mail(k, t, before).TrySend(m) else Mail(k, t, before)
  }

  /** One step; an event that cannot happen now changes nothing. */
  function Step(st: Server, e: Event): Server {
    if !Enabled(st, e) then st
    else if e.Connect? then st.(socks := st.socks[e.s := NEW_SOCK])
    else
      var eff := EffectOf(st, e);
      Server(eff.rooms,
             map t | t in st.socks ::
               var k := Mail(st.socks[t], t, eff.out);
               if t == e.s then OwnStep(k, e, eff.phase) else k)
  }

  /** The state after a whole run. */
  function Run(es: seq<Event>): Server {
    if es == [] then INITIAL else Step(Run(es[..|es| - 1]), es[|es| - 1])
  }
}
