// What every reachable state of the signaling server satisfies.

module RoomsProofs {
  import opened Wire
  import opened RosterView
  import opened Rooms

  predicate Registered(st: Server, room: RoomId, u: UserId) {
    room in st.rooms && u in st.rooms[room]
  }

  function HandleSock(st: Server, room: RoomId, u: UserId): SockId
    requires Registered(st, room, u)
  {
    st.rooms[room][u].sock
  }

  /** A registered handle belongs to a live socket of exactly that identity. */
  predicate HandleOk(st: Server, room: RoomId, u: UserId)
    requires Registered(st, room, u)
  {
    var s := HandleSock(st, room, u);
    && s in st.socks
    && !st.socks[s].phase.Done?
    && st.socks[s].phase.Who() == Some(Identity(room, u))
  }

  /** Every stored room has between one member and the hard cap. */
  ghost predicate SizesOk(rooms: map<RoomId, Room>) {
    forall room :: room in rooms ==> 1 <= |rooms[room]| <= HARD_CAP
  }

  ghost predicate HandlesOk(st: Server) {
    forall room, u :: Registered(st, room, u) ==> HandleOk(st, room, u)
  }

  ghost predicate TakenOk(socks: Socks) {
    forall s :: s in socks ==> socks[s].taken <= |socks[s].log|
  }

  ghost predicate RoomsOk(st: Server) {
    SizesOk(st.rooms) && HandlesOk(st) && TakenOk(st.socks)
  }

  lemma SizeAfterUpdate(r: Room, u: UserId, h: Handle)
    requires |r| < HARD_CAP || (u in r && |r| <= HARD_CAP)
    ensures 1 <= |(r - {u})[u := h]| <= HARD_CAP
  {
    var r2 := (r - {u})[u := h];
    assert r2.Keys == r.Keys - {u} + {u};
    assert |r| == |r.Keys| && |r2| == |r2.Keys|;
    SizeOfUpdate(r.Keys, u);
  }

  lemma SizeOfUpdate(us: set<UserId>, u: UserId)
    ensures |us - {u} + {u}| == |us| + (if u in us then 0 else 1)
  {
    if u in us { assert us - {u} + {u} == us; } else { assert us - {u} == us; }
  }

  lemma SizeAfterRemoval(r: Room, u: UserId)
    ensures |r - {u}| <= |r|
    ensures r - {u} != map[] ==> |r - {u}| >= 1
  {
    var r1 := r - {u};
    assert r1.Keys == r.Keys - {u} && |r| == |r.Keys| && |r1| == |r1.Keys|;
    if u in r { assert |r.Keys - {u}| == |r.Keys| - 1; } else { assert r1.Keys == r.Keys; }
    if r1 != map[] { assert r1.Keys != {}; }
  }

  lemma SizesOkCleanup(rooms: map<RoomId, Room>, me: Option<Identity>)
    requires SizesOk(rooms)
    ensures SizesOk(Cleanup(rooms, me).rooms)
  {
    if me.Some? && me.value.room in rooms {
      SizeAfterRemoval(rooms[me.value.room], me.value.user);
    }
  }

  lemma SizesOkEnter(rooms: map<RoomId, Room>, s: SockId, id: Identity, name: string, roster: seq<PeerInfo>)
    requires SizesOk(rooms)
    ensures SizesOk(EnterRoom(rooms, s, id, name, roster).rooms)
  {
    var r0 := RoomOf(rooms, id.room);
    if !(|r0| >= HARD_CAP && id.user !in r0) {
      SizeAfterUpdate(r0, id.user, Handle(name, s));
    }
  }

  lemma SizesOkEffect(st: Server, e: Event)
    requires SizesOk(st.rooms) && Enabled(st, e) && !e.Connect?
    ensures SizesOk(EffectOf(st, e).rooms)
  {
    EffectByKind(st, e);
    match Kind(st, e)
    case Leaves(me) => SizesOkCleanup(st.rooms, Some(me));
    case Enters(id, name, roster) => SizesOkEnter(st.rooms, e.s, id, name, roster);
    case Posts(_, _) =>
    case Other => OtherEffect(st, e);
  }

  lemma EffectByKind(st: Server, e: Event)
    requires Enabled(st, e) && !e.Connect?
    ensures match Kind(st, e)
            case Enters(id, name, roster) => EffectOf(st, e) == EnterRoom(st.rooms, e.s, id, name, roster)
            case Leaves(me) => EffectOf(st, e) == Cleanup(st.rooms, Some(me))
            case Posts(id, roster) => EffectOf(st, e) == SendRoster(st.rooms, e.s, id, roster, e.turn)
            case Other => true
  {
  }

  /** The four ways a step can bear on membership. */
  datatype EventKind = Enters(id: Identity, name: string, roster: seq<PeerInfo>) | Leaves(me: Identity)
                     | Posts(id: Identity, roster: seq<PeerInfo>) | Other

  function Kind(st: Server, e: Event): EventKind
    requires Enabled(st, e) && !e.Connect?
  {
    var phase := st.socks[e.s].phase;
    if e.Text? && e.msg.Join? && phase.me == None && e.authOk
       && JoinFieldsOk(e.msg.room, e.msg.userId, e.msg.name, e.msg.token)
       && !(|RoomOf(st.rooms, e.msg.room)| >= HARD_CAP && e.msg.userId !in RoomOf(st.rooms, e.msg.room)) then
      Enters(Identity(e.msg.room, e.msg.userId), e.msg.name, e.roster)
    else if (e.Hangup? || (e.Text? && e.msg.Leave?)) && phase.me.Some? then Leaves(phase.me.value)
    else if e.FinishJoin? then Posts(phase.id, phase.roster)
    else Other
  }

  lemma OtherEffect(st: Server, e: Event)
    requires Enabled(st, e) && !e.Connect? && Kind(st, e).Other?
    ensures EffectOf(st, e).rooms == st.rooms && EffectOf(st, e).out.Quiet()
    ensures !EffectOf(st, e).phase.Done? || !st.socks[e.s].phase.Reading? ==>
              EffectOf(st, e).phase == st.socks[e.s].phase
  {
    if e.Text? && e.msg.Join? {
      RefusedJoin(st.rooms, e.s, st.socks[e.s].phase.me, e.msg, e.authOk, e.roster);
    } else if e.Text? && st.socks[e.s].phase.me.Some? {
      RelayedIsQuiet(st.rooms, st.socks[e.s].phase.me.value, e.msg);
    }
  }

  lemma RefusedJoin(rooms: map<RoomId, Room>, s: SockId, me: Option<Identity>, m: ClientMsg,
                    authOk: bool, roster: seq<PeerInfo>)
    requires m.Join?
    requires me.Some? || !authOk || !JoinFieldsOk(m.room, m.userId, m.name, m.token)
             || (|RoomOf(rooms, m.room)| >= HARD_CAP && m.userId !in RoomOf(rooms, m.room))
    ensures var eff := Receive(rooms, s, me, m, authOk, roster);
            && eff.rooms == rooms && eff.out.Quiet() && (eff.phase == Reading(me) || eff.phase == Done(None))
            && eff.out == Then(Empty, {s}, eff.out.m) && (eff.out.m.Error? || eff.out.m.RoomFull?)
  {
  }

  lemma RelayedIsQuiet(rooms: map<RoomId, Room>, me: Identity, m: ClientMsg)
    ensures Outgoing(rooms, me, m).Quiet()
  {
  }

  /** Mail only appends to a log or counts drops. */
  predicate SameButMail(a: Sock, b: Sock) {
    && a.phase == b.phase && a.taken == b.taken && a.open == b.open && a.submitted == b.submitted
    && a.log <= b.log && a.lost <= b.lost
  }

  lemma {:induction false} MailOnly(k: Sock, t: SockId, out: Outbox)
    ensures SameButMail(k, Mail(k, t, out))
    ensures out.For(t) == [] ==> Mail(k, t, out) == k
    decreases out
  {
    if out.Then? { MailOnly(k, t, out.before); }
  }

  /** An effect leaves a handle alone, drops it, or makes it the joiner's. */
  predicate HandleFrom(rooms: map<RoomId, Room>, s: SockId, eff: Effect, room: RoomId, u: UserId) {
    room in eff.rooms && u in eff.rooms[room] ==>
      || (room in rooms && u in rooms[room] && eff.rooms[room][u] == rooms[room][u])
      || (eff.phase.Joining? && eff.phase.id == Identity(room, u) && eff.rooms[room][u].sock == s)
  }

  lemma HandleFromEffect(st: Server, e: Event, room: RoomId, u: UserId)
    requires Enabled(st, e) && !e.Connect?
    ensures HandleFrom(st.rooms, e.s, EffectOf(st, e), room, u)
  {
    hide Outgoing, Notices, Lists, JoinFieldsOk, Receive;
    EffectByKind(st, e);
    if Kind(st, e).Other? { OtherEffect(st, e); }
  }

  /** A socket's identity never changes once it has one, and a socket that ends
      takes the handle of its identity with it. */
  lemma {:induction false} IdentityKept(st: Server, e: Event)
    requires Enabled(st, e) && !e.Connect?
    ensures var eff, phase := EffectOf(st, e), st.socks[e.s].phase;
            && (phase.Who().Some? ==> eff.phase.Who() == phase.Who())
            && (eff.phase.Done? && eff.phase.was.Some? && !phase.Done? ==>
                  !(eff.phase.was.value.room in eff.rooms
                    && eff.phase.was.value.user in eff.rooms[eff.phase.was.value.room]))
            && (eff.phase.Done? && !phase.Done? ==> eff.phase.was == phase.Who())
  {
    hide Outgoing, Notices, Lists, JoinFieldsOk;
  }

  lemma HandlesOkStep(st: Server, e: Event)
    requires HandlesOk(st)
    ensures HandlesOk(Step(st, e))
  {
    var st' := Step(st, e);
    if Enabled(st, e) {
      forall room, u | Registered(st', room, u) ensures HandleOk(st', room, u) {
        if e.Connect? {
          assert HandleOk(st, room, u);
        } else {
          HandleFromEffect(st, e, room, u);
          IdentityKept(st, e);
          var t := HandleSock(st', room, u);
          MailOnly(st.socks[e.s], e.s, EffectOf(st, e).out);
          if room in st.rooms && u in st.rooms[room] && st'.rooms[room][u] == st.rooms[room][u] {
            assert HandleOk(st, room, u);
            MailOnly(st.socks[t], t, EffectOf(st, e).out);
          }
        }
      }
    }
  }

  lemma TakenOkStep(st: Server, e: Event)
    requires TakenOk(st.socks)
    ensures TakenOk(Step(st, e).socks)
  {
    if Enabled(st, e) && !e.Connect? {
      forall t | t in st.socks ensures Step(st, e).socks[t].taken <= |Step(st, e).socks[t].log| {
        MailOnly(st.socks[t], t, EffectOf(st, e).out);
      }
    }
  }

  lemma RoomsOkStep(st: Server, e: Event)
    requires RoomsOk(st)
    ensures RoomsOk(Step(st, e))
  {
    HandlesOkStep(st, e);
    TakenOkStep(st, e);
    if Enabled(st, e) && !e.Connect? { SizesOkEffect(st, e); }
  }

  lemma {:induction false} RunRoomsOk(es: seq<Event>)
    ensures RoomsOk(Run(es))
  {
    if es != [] {
      RunRoomsOk(es[..|es| - 1]);
      RoomsOkStep(Run(es[..|es| - 1]), es[|es| - 1]);
    }
  }

  // ----- who is registered after a step

  lemma EntryAfterJoin(rooms: map<RoomId, Room>, s: SockId, id: Identity, name: string, roster: seq<PeerInfo>,
                       room: RoomId, x: UserId)
    requires !(|RoomOf(rooms, id.room)| >= HARD_CAP && id.user !in RoomOf(rooms, id.room))
    ensures var rooms', own := EnterRoom(rooms, s, id, name, roster).rooms, room == id.room && x == id.user;
            && (room in rooms' && x in rooms'[room] <==> (room in rooms && x in rooms[room]) || own)
            && (room in rooms' && x in rooms'[room] ==>
                  rooms'[room][x].sock == if own then s else rooms[room][x].sock)
    ensures EnterRoom(rooms, s, id, name, roster).phase == Joining(id, roster)
  {
  }

  lemma RegisteredAfterJoin(st: Server, e: Event, x: UserId)
    requires Enabled(st, e) && !e.Connect? && Kind(st, e).Enters?
    ensures var id := Kind(st, e).id;
            forall room :: Registered(Step(st, e), room, x) <==>
              Registered(st, room, x) || (room == id.room && x == id.user)
    ensures var id := Kind(st, e).id;
            forall room :: Registered(Step(st, e), room, x) ==>
              HandleSock(Step(st, e), room, x) ==
                if room == id.room && x == id.user then e.s else HandleSock(st, room, x)
    ensures Step(st, e).socks[e.s].phase == Joining(Kind(st, e).id, Kind(st, e).roster)
  {
    hide EnterRoom, Mail, Receive, JoinFieldsOk;
    EffectByKind(st, e);
    var Enters(id, name, roster) := Kind(st, e);
    forall room
      ensures Registered(Step(st, e), room, x) <==> Registered(st, room, x) || (room == id.room && x == id.user)
      ensures Registered(Step(st, e), room, x) ==>
                HandleSock(Step(st, e), room, x) ==
                  if room == id.room && x == id.user then e.s else HandleSock(st, room, x)
    {
      EntryAfterJoin(st.rooms, e.s, id, name, roster, room, x);
    }
    EntryAfterJoin(st.rooms, e.s, id, name, roster, id.room, x);
  }

  lemma RoomsAfterLeave(st: Server, e: Event, x: UserId)
    requires Enabled(st, e) && !e.Connect? && Kind(st, e).Leaves?
    ensures var me := Kind(st, e).me;
            forall room :: Registered(Step(st, e), room, x) <==>
                           Registered(st, room, x) && !(room == me.room && x == me.user)
    ensures forall room :: Registered(Step(st, e), room, x) ==>
                             HandleSock(Step(st, e), room, x) == HandleSock(st, room, x)
    ensures Step(st, e).socks[e.s].phase == Done(Some(Kind(st, e).me))
    ensures st.socks[e.s].phase == Reading(Some(Kind(st, e).me))
  {
    hide Mail;
    EffectByKind(st, e);
    var me := Kind(st, e).me;
    if me.room in st.rooms {
      var r := st.rooms[me.room] - {me.user};
      assert x in r <==> x in st.rooms[me.room] && x != me.user;
    }
  }

  lemma SameRooms(st: Server, e: Event)
    requires Enabled(st, e) && !e.Connect? && !Kind(st, e).Enters? && !Kind(st, e).Leaves?
    ensures Step(st, e).rooms == st.rooms
  {
    hide Mail, Receive;
    EffectByKind(st, e);
    if Kind(st, e).Other? { OtherEffect(st, e); }
  }

  // ----- the roster: what a member's messages add up to

  /** The messages a joined socket received add up to `v`, if the Roster's place
      in the stream is disregarded: applying every other message to the Roster's
      listing gives `v`. */
  ghost predicate Tracks(k: Sock, v: View) {
    match k.phase
    case Reading(None) => true
    case Reading(Some(_)) => exists i :: RosterAt(k.log, i) && v == Truth(k.log, i)
    case Joining(_, roster) => NoRoster(k.log) && v == Fold(RosterMap(roster), k.log)
    case Done(_) => true
  }

  /** Message `i` is the one Roster of the stream. */
  predicate RosterAt(log: seq<ServerMsg>, i: nat) {
    i < |log| && log[i].Roster? && NoRoster(log[..i]) && NoRoster(log[i + 1..])
  }

  function Truth(log: seq<ServerMsg>, i: nat): View
    requires RosterAt(log, i)
  {
    Fold(RosterMap(log[i].peers), log[..i] + log[i + 1..])
  }

  lemma TruthAppend(log: seq<ServerMsg>, i: nat, m: ServerMsg)
    requires RosterAt(log, i) && !m.Roster?
    ensures RosterAt(log + [m], i) && Truth(log + [m], i) == ViewStep(Truth(log, i), m)
  {
    var log' := log + [m];
    assert log'[..i] == log[..i] && log'[i + 1..] == log[i + 1..] + [m];
    var all := log[..i] + log[i + 1..];
    assert log'[..i] + log'[i + 1..] == all + [m];
    assert (all + [m])[..|all|] == all;
  }

  lemma TracksSend(k: Sock, v: View, m: ServerMsg)
    requires k.phase.Who().Some? && !k.phase.Done?
    requires k.lost == 0 ==> Tracks(k, v)
    requires !m.Roster?
    ensures var k' := k.TrySend(m); k'.lost == 0 ==> Tracks(k', ViewStep(v, m))
  {
    if k.HasRoom() && k.lost == 0 {
      var k' := k.TrySend(m);
      match k.phase
      case Reading(_) =>
        var i :| RosterAt(k.log, i) && v == Truth(k.log, i);
        TruthAppend(k.log, i, m);
      case Joining(_, roster) =>
        assert (k.log + [m])[..|k.log|] == k.log;
      case Done(_) =>
    }
  }

  /** Every registered member's stream adds up to the others in its room, if
      nothing sent to it was dropped; a socket that has not joined has seen
      nothing about members. */
  ghost predicate ViewsOk(st: Server) {
    && (forall room, u :: Registered(st, room, u) ==> MemberTracks(st, room, u))
    && (forall s :: s in st.socks && st.socks[s].phase == Reading(None) ==> AllNeutral(st.socks[s].log))
  }

  ghost predicate MemberTracks(st: Server, room: RoomId, u: UserId)
    requires Registered(st, room, u)
  {
    var s := HandleSock(st, room, u);
    s in st.socks && (st.socks[s].lost == 0 ==> Tracks(st.socks[s], Others(st.rooms[room], u)))
  }

  lemma {:induction false} TracksMail(k: Sock, t: SockId, out: Outbox, v: View)
    requires k.phase.Who().Some? && !k.phase.Done?
    requires k.lost == 0 ==> Tracks(k, v)
    requires NoRoster(out.For(t))
    ensures var k' := Mail(k, t, out); k'.lost == 0 ==> Tracks(k', Fold(v, out.For(t)))
    decreases out
  {
    if out.Then? {
      var ms := out.before.For(t);
      assert forall i :: 0 <= i < |ms| ==> ms[i] == out.For(t)[i];
      TracksMail(k, t, out.before, v);
      MailOnly(k, t, out.before);
      if t in out.to {
        assert out.For(t)[|ms|] == out.m;
        assert (ms + [out.m])[..|ms|] == ms;
        TracksSend(Mail(k, t, out.before), Fold(v, ms), out.m);
      } else {
        assert ms + [] == ms;
      }
    }
  }

  lemma {:induction false} QuietMail(out: Outbox, t: SockId)
    requires out.Quiet()
    ensures AllNeutral(out.For(t))
    decreases out
  {
    if out.Then? { QuietMail(out.before, t); }
  }

  lemma NotRegistered(st: Server, t: SockId, room: RoomId)
    requires HandlesOk(st) && t in st.socks && (st.socks[t].phase.Done? || st.socks[t].phase.Who() == None)
    ensures t !in SocksOf(RoomOf(st.rooms, room))
  {
    forall w | w in RoomOf(st.rooms, room) ensures RoomOf(st.rooms, room)[w].sock != t {
      assert Registered(st, room, w) && HandleOk(st, room, w);
    }
  }

  /** Handles of different members are different sockets. */
  lemma OneHandlePerSocket(st: Server, room: RoomId, u: UserId, room2: RoomId, u2: UserId)
    requires HandlesOk(st) && Registered(st, room, u) && Registered(st, room2, u2)
    requires HandleSock(st, room, u) == HandleSock(st, room2, u2)
    ensures room == room2 && u == u2
  {
    assert HandleOk(st, room, u) && HandleOk(st, room2, u2);
  }

  lemma ForeignSocket(st: Server, room: RoomId, u: UserId, other: RoomId)
    requires HandlesOk(st) && Registered(st, room, u) && room != other
    ensures HandleSock(st, room, u) !in SocksOf(RoomOf(st.rooms, other))
  {
    forall w | w in RoomOf(st.rooms, other)
      ensures RoomOf(st.rooms, other)[w].sock != HandleSock(st, room, u)
    {
      assert Registered(st, other, w);
      if HandleSock(st, room, u) == HandleSock(st, other, w) { OneHandlePerSocket(st, room, u, other, w); }
    }
  }

  /** What a join sends to one socket. */
  lemma EnterMail(rooms: map<RoomId, Room>, s: SockId, id: Identity, name: string, roster: seq<PeerInfo>, t: SockId)
    requires !(|RoomOf(rooms, id.room)| >= HARD_CAP && id.user !in RoomOf(rooms, id.room))
    ensures var r0 := RoomOf(rooms, id.room);
            var r1 := r0 - {id.user};
            var r2 := r1[id.user := Handle(name, s)];
            EnterRoom(rooms, s, id, name, roster).out.For(t) ==
              (if id.user in r0 && t == r0[id.user].sock then [Error("superseded")] else [])
              + (if t in SocksOf(r1) then [PeerJoined(id.user, name)] else [])
              + (if |r2| >= WARN_CAP && t in SocksOf(r2) then [Warn(|r2|, WARN_CAP)] else [])
  {
    var out := EnterRoom(rooms, s, id, name, roster).out;
    ForThen(out, t);
    if out.m.Warn? { ForThen(out.before, t); }
  }

  lemma ForThen(out: Outbox, t: SockId)
    ensures out.Then? ==> out.For(t) == out.before.For(t) + (if t in out.to then [out.m] else [])
    ensures out.Then? && out.before.Empty? ==> out.For(t) == if t in out.to then [out.m] else []
  {
  }

  lemma RosterMail(rooms: map<RoomId, Room>, s: SockId, id: Identity, roster: seq<PeerInfo>, turn: Option<string>,
                   t: SockId)
    ensures t != s ==> SendRoster(rooms, s, id, roster, turn).out.For(t) == []
  {
    ForThen(SendRoster(rooms, s, id, roster, turn).out, t);
  }

  lemma RoomsShrink(rooms: map<RoomId, Room>, id: Identity, h: Handle)
    ensures var r0 := RoomOf(rooms, id.room);
            && SocksOf(r0 - {id.user}) <= SocksOf(r0)
            && SocksOf((r0 - {id.user})[id.user := h]) <= SocksOf(r0) + {h.sock}
            && (id.user in r0 ==> r0[id.user].sock in SocksOf(r0))
  {
  }

  lemma PeersToldOfJoin(st: Server, s: SockId, id: Identity, name: string, roster: seq<PeerInfo>, u: UserId)
    requires HandlesOk(st) && Registered(st, id.room, u) && u != id.user
    requires !(|RoomOf(st.rooms, id.room)| >= HARD_CAP && id.user !in RoomOf(st.rooms, id.room))
    ensures var eff, t := EnterRoom(st.rooms, s, id, name, roster), HandleSock(st, id.room, u);
            && NoRoster(eff.out.For(t))
            && id.room in eff.rooms
            && Fold(Others(st.rooms[id.room], u), eff.out.For(t)) == Others(eff.rooms[id.room], u)
  {
    hide Fold, Notices;
    var r0 := st.rooms[id.room];
    var t := HandleSock(st, id.room, u);
    var r1 := r0 - {id.user};
    var r2 := r1[id.user := Handle(name, s)];
    if id.user in r0 && r0[id.user].sock == t { OneHandlePerSocket(st, id.room, u, id.room, id.user); }
    assert r1[u].sock == t && t in SocksOf(r1);
    assert r2[u].sock == t && t in SocksOf(r2);
    assert Others(r2, u) == Others(r0, u)[id.user := name];
    EnterMail(st.rooms, s, id, name, roster, t);
    NoticeView(Others(r0, u), id.user, name, |r2|);
  }

  lemma NoticeView(v: View, user: UserId, name: string, n: nat)
    ensures var ms := [] + [PeerJoined(user, name)] + (if n >= WARN_CAP then [Warn(n, WARN_CAP)] else []);
            NoRoster(ms) && Fold(v, ms) == v[user := name]
  {
    var joined, warn := PeerJoined(user, name), Warn(n, WARN_CAP);
    assert [] + [joined] == [joined] && [joined] + [] == [joined];
    FoldOne(v, joined);
    FoldSnoc(v, [joined], warn);
  }

  lemma PeersToldOfLeave(st: Server, me: Identity, u: UserId)
    requires Registered(st, me.room, u) && u != me.user
    ensures var eff, t := Cleanup(st.rooms, Some(me)), HandleSock(st, me.room, u);
            && eff.out.For(t) == [PeerLeft(me.user)]
            && me.room in eff.rooms
            && Fold(Others(st.rooms[me.room], u), eff.out.For(t)) == Others(eff.rooms[me.room], u)
  {
    hide Fold, Others;
    var r := st.rooms[me.room] - {me.user};
    assert u in r && r[u].sock in SocksOf(r);
    ForThen(Cleanup(st.rooms, Some(me)).out, HandleSock(st, me.room, u));
    FoldOne(Others(st.rooms[me.room], u), PeerLeft(me.user));
    OthersWithout(st.rooms[me.room], u, me.user);
  }

  lemma OthersWithout(r: Room, u: UserId, x: UserId)
    ensures Others(r - {x}, u) == Others(r, u) - {x}
  {
  }

  /** A member that stays is told exactly how its room changed. */
  lemma ToldTheChange(st: Server, e: Event, room: RoomId, u: UserId)
    requires HandlesOk(st) && Enabled(st, e) && !e.Connect?
    requires Registered(st, room, u) && Registered(Step(st, e), room, u)
    requires Step(st, e).rooms[room][u] == st.rooms[room][u]
    requires !(Kind(st, e).Enters? && Kind(st, e).id == Identity(room, u))
    requires !(Kind(st, e).Leaves? && Kind(st, e).me == Identity(room, u))
    requires !(Kind(st, e).Posts? && HandleSock(st, room, u) == e.s)
    ensures var ms := EffectOf(st, e).out.For(HandleSock(st, room, u));
            NoRoster(ms) && Fold(Others(st.rooms[room], u), ms) == Others(Step(st, e).rooms[room], u)
  {
    hide Fold, Mail, Receive, Outgoing, Notices;
    EffectByKind(st, e);
    var ms := EffectOf(st, e).out.For(HandleSock(st, room, u));
    var v := Others(st.rooms[room], u);
    match Kind(st, e)
    case Enters(id, name, roster) =>
      if room == id.room { PeersToldOfJoin(st, e.s, id, name, roster, u); }
      else {
        OtherRoomJoin(st, e.s, id, name, roster, room, u);
        FoldNeutral(v, []);
      }
    case Leaves(me) =>
      if room == me.room { PeersToldOfLeave(st, me, u); }
      else {
        ForeignSocket(st, room, u, me.room);
        assert ms == [];
        FoldNeutral(v, []);
      }
    case Posts(id, roster) =>
      RosterMail(st.rooms, e.s, id, roster, e.turn, HandleSock(st, room, u));
      FoldNeutral(v, []);
    case Other =>
      OtherEffect(st, e);
      QuietMail(EffectOf(st, e).out, HandleSock(st, room, u));
      FoldNeutral(v, ms);
  }

  lemma OtherRoomJoin(st: Server, s: SockId, id: Identity, name: string, roster: seq<PeerInfo>,
                      room: RoomId, u: UserId)
    requires HandlesOk(st) && Registered(st, room, u) && room != id.room
    requires !(|RoomOf(st.rooms, id.room)| >= HARD_CAP && id.user !in RoomOf(st.rooms, id.room))
    requires HandleSock(st, room, u) != s
    ensures EnterRoom(st.rooms, s, id, name, roster).out.For(HandleSock(st, room, u)) == []
  {
    ForeignSocket(st, room, u, id.room);
    RoomsShrink(st.rooms, id, Handle(name, s));
    EnterMail(st.rooms, s, id, name, roster, HandleSock(st, room, u));
  }

  lemma JoinerTracks(st: Server, e: Event)
    requires HandlesOk(st) && ViewsOk(st) && Enabled(st, e) && !e.Connect? && Kind(st, e).Enters?
    ensures var st', id := Step(st, e), Kind(st, e).id;
            && Registered(st', id.room, id.user) && HandleSock(st', id.room, id.user) == e.s
            && Tracks(st'.socks[e.s], Others(st'.rooms[id.room], id.user))
  {
    hide Fold, RosterMap, Tracks;
    var Enters(id, name, roster) := Kind(st, e);
    EffectByKind(st, e);
    NotRegistered(st, e.s, id.room);
    JoinerMail(st.rooms, e.s, id, name, roster);
    NeutralMail(st.socks[e.s], e.s, EffectOf(st, e).out);
    JoinerOthers(st.rooms, e.s, id, name, roster);
    FreshlyListed(Step(st, e).socks[e.s], Others(RoomOf(st.rooms, id.room), id.user));
  }

  lemma FreshlyListed(k: Sock, v: View)
    requires k.phase.Joining? && AllNeutral(k.log) && RosterView.Lists(k.phase.roster, v)
    ensures Tracks(k, v)
  {
    FoldNeutral(RosterMap(k.phase.roster), k.log);
    RosterMapOfListing(k.phase.roster, v);
  }

  lemma JoinerOthers(rooms: map<RoomId, Room>, s: SockId, id: Identity, name: string, roster: seq<PeerInfo>)
    requires !(|RoomOf(rooms, id.room)| >= HARD_CAP && id.user !in RoomOf(rooms, id.room))
    ensures var eff := EnterRoom(rooms, s, id, name, roster);
            id.room in eff.rooms && Others(eff.rooms[id.room], id.user) == Others(RoomOf(rooms, id.room), id.user)
  {
  }

  lemma NeutralMail(k: Sock, t: SockId, out: Outbox)
    requires AllNeutral(k.log) && AllNeutral(out.For(t))
    ensures AllNeutral(Mail(k, t, out).log)
  {
    MailLog(k, t, out);
  }

  lemma JoinerMail(rooms: map<RoomId, Room>, s: SockId, id: Identity, name: string, roster: seq<PeerInfo>)
    requires !(|RoomOf(rooms, id.room)| >= HARD_CAP && id.user !in RoomOf(rooms, id.room))
    requires s !in SocksOf(RoomOf(rooms, id.room))
    ensures AllNeutral(EnterRoom(rooms, s, id, name, roster).out.For(s))
  {
    RoomsShrink(rooms, id, Handle(name, s));
    EnterMail(rooms, s, id, name, roster, s);
  }

  /** Everything a log gains was addressed to its socket. */
  lemma {:induction false} MailLog(k: Sock, t: SockId, out: Outbox)
    ensures var k' := Mail(k, t, out);
            && k.log <= k'.log
            && (forall i :: |k.log| <= i < |k'.log| ==> k'.log[i] in out.For(t))
    decreases out
  {
    if out.Then? { MailLog(k, t, out.before); }
  }

  lemma RosterSent(k: Sock, s: SockId, id: Identity, roster: seq<PeerInfo>, turn: Option<string>, rooms: map<RoomId,
                   Room>)
    ensures var k1 := k.TrySend(Roster(roster));
            Mail(k, s, SendRoster(rooms, s, id, roster, turn).out)
            == if turn.Some? then k1.TrySend(Turn(turn.value)) else k1
  {
    var first := Then(Empty, {s}, Roster(roster));
    assert Mail(k, s, first) == Mail(k, s, Empty).TrySend(Roster(roster));
  }

  lemma ListerTracks(st: Server, e: Event, u: UserId)
    requires HandlesOk(st) && Enabled(st, e) && !e.Connect? && Kind(st, e).Posts?
    requires var room := Kind(st, e).id.room;
             Registered(st, room, u) && HandleSock(st, room, u) == e.s && MemberTracks(st, room, u)
    ensures var room := Kind(st, e).id.room;
            Registered(Step(st, e), room, u) && MemberTracks(Step(st, e), room, u)
  {
    var Posts(id, roster) := Kind(st, e);
    EffectByKind(st, e);
    var st' := Step(st, e);
    assert HandleOk(st, id.room, u);
    var k, k' := st.socks[e.s], st'.socks[e.s];
    var v := Others(st.rooms[id.room], u);
    RosterSent(k, e.s, id, roster, e.turn, st.rooms);
    if k'.lost == 0 {
      var k1 := k.TrySend(Roster(roster)).(phase := Reading(Some(id)));
      var i := |k.log|;
      assert k1.log[..i] == k.log && k1.log[i + 1..] == [];
      assert RosterAt(k1.log, i) && k.log + [] == k.log;
      assert Truth(k1.log, i) == v;
      if e.turn.Some? { TracksSend(k1, v, Turn(e.turn.value)); }
    }
  }

  lemma MemberTracksStep(st: Server, e: Event, room: RoomId, u: UserId)
    requires HandlesOk(st) && ViewsOk(st) && Enabled(st, e) && Registered(Step(st, e), room, u)
    ensures MemberTracks(Step(st, e), room, u)
  {
    hide Fold, EnterRoom, Cleanup, Receive, Tracks, EffectOf;
    var st' := Step(st, e);
    if e.Connect? {
      assert HandleOk(st, room, u) && MemberTracks(st, room, u);
    } else {
      var kind := Kind(st, e);
      if kind.Enters? && kind.id == Identity(room, u) {
        JoinerTracks(st, e);
      } else {
        HandleFromEffect(st, e, room, u);
        StaysHandled(st, e, room, u);
        assert HandleOk(st, room, u) && MemberTracks(st, room, u);
        var t := HandleSock(st, room, u);
        if kind.Posts? && t == e.s {
          ListerTracks(st, e, u);
        } else {
          ToldTheChange(st, e, room, u);
          TracksMail(st.socks[t], t, EffectOf(st, e).out, Others(st.rooms[room], u));
          MailOnly(st.socks[t], t, EffectOf(st, e).out);
          TracksSame(Mail(st.socks[t], t, EffectOf(st, e).out), st'.socks[t],
                     Fold(Others(st.rooms[room], u), EffectOf(st, e).out.For(t)));
        }
      }
    }
  }

  lemma TracksSame(k: Sock, k': Sock, v: View)
    requires k'.phase == k.phase && k'.log == k.log && k'.lost == k.lost
    ensures Tracks(k, v) ==> Tracks(k', v)
  {
  }

  lemma StaysHandled(st: Server, e: Event, room: RoomId, u: UserId)
    requires HandlesOk(st) && Enabled(st, e) && !e.Connect? && Registered(Step(st, e), room, u)
    requires !(Kind(st, e).Enters? && Kind(st, e).id == Identity(room, u))
    ensures Registered(st, room, u) && Step(st, e).rooms[room][u] == st.rooms[room][u]
    ensures !(Kind(st, e).Leaves? && Kind(st, e).me == Identity(room, u))
    ensures HandleSock(st, room, u) == e.s && !Kind(st, e).Posts? ==> EffectOf(st, e).phase == st.socks[e.s].phase
  {
    hide Mail, Receive, Outgoing, Notices;
    EffectByKind(st, e);
    if Kind(st, e).Other? { OtherEffect(st, e); }
    assert HandleOk(st, room, u);
    IdentityKept(st, e);
  }

  lemma ViewsOkStep(st: Server, e: Event)
    requires HandlesOk(st) && ViewsOk(st)
    ensures ViewsOk(Step(st, e))
  {
    var st' := Step(st, e);
    if Enabled(st, e) {
      forall room, u | Registered(st', room, u) ensures MemberTracks(st', room, u) {
        MemberTracksStep(st, e, room, u);
      }
      forall t | t in st'.socks && st'.socks[t].phase == Reading(None) ensures AllNeutral(st'.socks[t].log) {
        if !e.Connect? { StillFresh(st, e, t); }
      }
    }
  }

  /** A socket that has not joined is told nothing about members. */
  lemma StillFresh(st: Server, e: Event, t: SockId)
    requires HandlesOk(st) && ViewsOk(st) && Enabled(st, e) && !e.Connect?
    requires t in st.socks && Step(st, e).socks[t].phase == Reading(None)
    ensures AllNeutral(Step(st, e).socks[t].log)
  {
    hide Mail, Receive, Cleanup, JoinFieldsOk, Lists, HandlesOk, SendRoster, Notices;
    EffectByKind(st, e);
    var out := EffectOf(st, e).out;
    IdentityKept(st, e);
    MailOnly(st.socks[t], t, out);
    assert AllNeutral(st.socks[t].log);
    UntoldIfFresh(st, e, t);
    NeutralMail(st.socks[t], t, out);
  }

  lemma UntoldIfFresh(st: Server, e: Event, t: SockId)
    requires HandlesOk(st) && Enabled(st, e) && !e.Connect? && t in st.socks && st.socks[t].phase == Reading(None)
    requires Kind(st, e).Enters? || Kind(st, e).Posts? ==> t != e.s
    ensures AllNeutral(EffectOf(st, e).out.For(t))
  {
    EffectByKind(st, e);
    match Kind(st, e)
    case Enters(id, name, roster) =>
      NotRegistered(st, t, id.room);
      JoinerMailNone(st.rooms, e.s, t, id, name, roster);
    case Leaves(me) =>
      NotRegistered(st, t, me.room);
      assert SocksOf(RoomOf(st.rooms, me.room) - {me.user}) <= SocksOf(RoomOf(st.rooms, me.room));
    case Posts(id, roster) => RosterMail(st.rooms, e.s, id, roster, e.turn, t);
    case Other =>
      OtherEffect(st, e);
      QuietMail(EffectOf(st, e).out, t);
  }

  lemma JoinerMailNone(rooms: map<RoomId, Room>, s: SockId, t: SockId, id: Identity, name: string,
                       roster: seq<PeerInfo>)
    requires !(|RoomOf(rooms, id.room)| >= HARD_CAP && id.user !in RoomOf(rooms, id.room))
    requires t !in SocksOf(RoomOf(rooms, id.room)) && t != s
    ensures EnterRoom(rooms, s, id, name, roster).out.For(t) == []
  {
    RoomsShrink(rooms, id, Handle(name, s));
    EnterMail(rooms, s, id, name, roster, t);
  }

  lemma {:induction false} RunViewsOk(es: seq<Event>)
    ensures ViewsOk(Run(es))
  {
    if es != [] {
      RunViewsOk(es[..|es| - 1]);
      RunRoomsOk(es[..|es| - 1]);
      ViewsOkStep(Run(es[..|es| - 1]), es[|es| - 1]);
    }
  }
}
