// Two clients that join and leave while a Roster is on its way: how a member can
// miss another for good, and how it can be left with an entry for one who is gone.

module JoinRaces {
  import opened Wire
  import opened RosterView
  import opened Rooms
  import opened RoomsProofs
  import opened RoomsTheorems
  import opened Client
  import M = Mesh

  /** Two clients joining one room, where `c` joins after the lock of `b`'s join
      is released and before `b`'s Roster is queued. */
  function Race(room: RoomId, b: PeerInfo, c: PeerInfo): seq<Event> {
    [Connect(1), Connect(2),
     Text(1, ClientMsg.Join(room, b.userId, b.name, None), true, []),
     Text(2, ClientMsg.Join(room, c.userId, c.name, None), true, [b]),
     FinishJoin(1, None)]
  }

  lemma FirstJoin(room: RoomId, b: PeerInfo, st: Server)
    requires JoinFieldsOk(room, b.userId, b.name, None)
    requires st == Server(map[], map[1 := NEW_SOCK, 2 := NEW_SOCK])
    ensures var m := ClientMsg.Join(room, b.userId, b.name, None);
            Step(st, Text(1, m, true, [])) ==
            Server(map[room := map[b.userId := Handle(b.name, 1)]],
                   map[1 := Sock(Joining(Identity(room, b.userId), []), [], 0, true, 0, [m]), 2 := NEW_SOCK])
  {
    hide JoinFieldsOk, Receive, Mail, EnterRoom, Step, EffectOf, OwnStep;
    var e := Text(1, ClientMsg.Join(room, b.userId, b.name, None), true, []);
    FirstJoinEnabled(room, b, st);
    EffectByKind(st, e);
    EmptyRoomJoin(room, b);
    TwoSocks(st, e);
    NoMail(NEW_SOCK, 1, {}, PeerJoined(b.userId, b.name));
    NoMail(NEW_SOCK, 2, {}, PeerJoined(b.userId, b.name));
    JoinedSock(e, Joining(Identity(room, b.userId), []));
  }

  lemma FirstJoinEnabled(room: RoomId, b: PeerInfo, st: Server)
    requires JoinFieldsOk(room, b.userId, b.name, None)
    requires st == Server(map[], map[1 := NEW_SOCK, 2 := NEW_SOCK])
    ensures var e := Text(1, ClientMsg.Join(room, b.userId, b.name, None), true, []);
            Enabled(st, e) && Kind(st, e) == Enters(Identity(room, b.userId), b.name, [])
  {
    hide JoinFieldsOk;
    var r0: Room := map[];
    assert Others(r0, b.userId) == map[];
  }

  lemma JoinedSock(e: Event, phase: Phase)
    requires e.Text? && phase.Joining?
    ensures OwnStep(NEW_SOCK, e, phase) == Sock(phase, [], 0, true, 0, [e.msg])
  {
    assert [] + [e.msg] == [e.msg];
  }

  lemma EmptyRoomJoin(room: RoomId, b: PeerInfo)
    ensures EnterRoom(map[], 1, Identity(room, b.userId), b.name, []) ==
            Effect(map[room := map[b.userId := Handle(b.name, 1)]], Joining(Identity(room, b.userId), []),
                   Then(Empty, {}, PeerJoined(b.userId, b.name)))
  {
    var r0: Room := map[];
    assert r0 - {b.userId} == r0 && SocksOf(r0) == {};
    var r2 := r0[b.userId := Handle(b.name, 1)];
    assert |r2| == 1;
  }

  /** A step of a server with two sockets. */
  lemma TwoSocks(st: Server, e: Event)
    requires Enabled(st, e) && !e.Connect? && st.socks.Keys == {1, 2}
    ensures var eff := EffectOf(st, e);
            var k1, k2 := Mail(st.socks[1], 1, eff.out), Mail(st.socks[2], 2, eff.out);
            Step(st, e) == Server(eff.rooms, map[1 := if e.s == 1 then OwnStep(k1, e, eff.phase) else k1,
                                                 2 := if e.s == 2 then OwnStep(k2, e, eff.phase) else k2])
  {
    hide EffectOf, Mail, OwnStep, Enabled;
    assert Step(st, e).socks.Keys == {1, 2};
  }

  lemma SecondJoin(room: RoomId, b: PeerInfo, c: PeerInfo, st: Server)
    requires JoinFieldsOk(room, c.userId, c.name, None) && b.userId != c.userId
    requires st.rooms == map[room := map[b.userId := Handle(b.name, 1)]]
    requires st.socks.Keys == {1, 2} && st.socks[1].HasRoom() && st.socks[2] == NEW_SOCK
    ensures var m := ClientMsg.Join(room, c.userId, c.name, None);
            Step(st, Text(2, m, true, [b])) ==
            Server(map[room := map[b.userId := Handle(b.name, 1), c.userId := Handle(c.name, 2)]],
                   map[1 := st.socks[1].(log := st.socks[1].log + [PeerJoined(c.userId, c.name)]),
                       2 := Sock(Joining(Identity(room, c.userId), [b]), [], 0, true, 0, [m])])
  {
    hide JoinFieldsOk, Receive, Mail, EnterRoom, Step, EffectOf, OwnStep;
    var e := Text(2, ClientMsg.Join(room, c.userId, c.name, None), true, [b]);
    SecondJoinEnabled(room, b, c, st);
    EffectByKind(st, e);
    SecondRoomJoin(room, b, c, st.rooms);
    TwoSocks(st, e);
    OneMail(st.socks[1], 1, PeerJoined(c.userId, c.name));
    NoMail(NEW_SOCK, 2, {1}, PeerJoined(c.userId, c.name));
    JoinedSock(e, Joining(Identity(room, c.userId), [b]));
    assert st.rooms[room][c.userId := Handle(c.name, 2)] ==
           map[b.userId := Handle(b.name, 1), c.userId := Handle(c.name, 2)];
  }

  lemma SecondJoinEnabled(room: RoomId, b: PeerInfo, c: PeerInfo, st: Server)
    requires JoinFieldsOk(room, c.userId, c.name, None) && b.userId != c.userId
    requires st.rooms == map[room := map[b.userId := Handle(b.name, 1)]]
    requires 2 in st.socks && st.socks[2] == NEW_SOCK
    ensures var e := Text(2, ClientMsg.Join(room, c.userId, c.name, None), true, [b]);
            Enabled(st, e) && Kind(st, e) == Enters(Identity(room, c.userId), c.name, [b])
  {
    hide JoinFieldsOk;
    assert Others(st.rooms[room], c.userId) == map[b.userId := b.name];
    assert |st.rooms[room]| == 1;
  }

  lemma NoMail(k: Sock, t: SockId, to: set<SockId>, m: ServerMsg)
    requires t !in to
    ensures Mail(k, t, Then(Empty, to, m)) == k
  {
    assert Mail(k, t, Empty) == k;
  }

  lemma SecondRoomJoin(room: RoomId, b: PeerInfo, c: PeerInfo, rooms: map<RoomId, Room>)
    requires b.userId != c.userId && rooms == map[room := map[b.userId := Handle(b.name, 1)]]
    ensures EnterRoom(rooms, 2, Identity(room, c.userId), c.name, [b]) ==
            Effect(map[room := rooms[room][c.userId := Handle(c.name, 2)]], Joining(Identity(room, c.userId), [b]),
                   Then(Empty, {1}, PeerJoined(c.userId, c.name)))
  {
    var r0 := rooms[room];
    assert r0 - {c.userId} == r0;
    assert SocksOf(r0) == {1} by { assert r0[b.userId].sock == 1; }
    assert |r0[c.userId := Handle(c.name, 2)]| == 2;
  }

  lemma OneMail(k: Sock, t: SockId, m: ServerMsg)
    ensures Mail(k, t, Then(Empty, {t}, m)) == k.TrySend(m)
  {
    assert Mail(k, t, Empty) == k;
  }

  lemma AfterTwoJoins(room: RoomId, b: PeerInfo, c: PeerInfo)
    requires JoinFieldsOk(room, b.userId, b.name, None) && JoinFieldsOk(room, c.userId, c.name, None)
    requires b.userId != c.userId
    ensures var st := Run(Race(room, b, c)[..4]);
            && st.rooms == map[room := map[b.userId := Handle(b.name, 1), c.userId := Handle(c.name, 2)]]
            && 1 in st.socks && st.socks[1].phase == Joining(Identity(room, b.userId), [])
            && st.socks[1].open && st.socks[1].taken == 0 && st.socks[1].lost == 0
            && st.socks[1].log == [PeerJoined(c.userId, c.name)]
  {
    hide Step, ByteLen, JoinFieldsOk;
    var race := Race(room, b, c);
    TwoConnected(race);
    RunSnoc(race[..2], race[2]);
    RunSnoc(race[..3], race[3]);
    assert race[..2] + [race[2]] == race[..3] && race[..3] + [race[3]] == race[..4];
    FirstJoin(room, b, Run(race[..2]));
    SecondJoin(room, b, c, Run(race[..3]));
  }

  lemma TwoConnected(es: seq<Event>)
    requires |es| >= 2 && es[0] == Connect(1) && es[1] == Connect(2)
    ensures Run(es[..2]) == Server(map[], map[1 := NEW_SOCK, 2 := NEW_SOCK])
  {
    assert es[..2] == [Connect(1)] + [Connect(2)] && [] + [Connect(1)] == [Connect(1)];
    RunSnoc([], Connect(1));
    RunSnoc([Connect(1)], Connect(2));
  }

  /** When a join and its Roster are not one step, a view can be wrong with nothing
      lost: after the race, `b` never learns of `c`. */
  lemma {:induction false} JoinRaceLeavesStaleView(room: RoomId, b: PeerInfo, c: PeerInfo, start: View)
    requires JoinFieldsOk(room, b.userId, b.name, None) && JoinFieldsOk(room, c.userId, c.name, None)
    requires b.userId != c.userId
    ensures var st := Run(Race(room, b, c));
            && Registered(st, room, b.userId) && Member(st, room, b.userId).lost == 0
            && Others(st.rooms[room], b.userId) == map[c.userId := c.name]
            && Fold(start, Member(st, room, b.userId).log) == map[]
  {
    hide Step, JoinFieldsOk, Fold;
    var race := Race(room, b, c);
    AfterTwoJoins(room, b, c);
    RunSnoc(race[..4], race[4]);
    assert race[..4] + [race[4]] == race;
    LateRoster(room, b, c, Run(race[..4]), start);
  }

  lemma LateRoster(room: RoomId, b: PeerInfo, c: PeerInfo, st: Server, start: View)
    requires b.userId != c.userId
    requires st.rooms == map[room := map[b.userId := Handle(b.name, 1), c.userId := Handle(c.name, 2)]]
    requires 1 in st.socks && st.socks[1].phase == Joining(Identity(room, b.userId), [])
    requires st.socks[1].open && st.socks[1].taken == 0 && st.socks[1].lost == 0
    requires st.socks[1].log == [PeerJoined(c.userId, c.name)]
    ensures var st' := Step(st, FinishJoin(1, None));
            && st'.rooms == st.rooms
            && Member(st', room, b.userId).lost == 0
            && Others(st'.rooms[room], b.userId) == map[c.userId := c.name]
            && Fold(start, Member(st', room, b.userId).log) == map[]
  {
    RosterSent(st.socks[1], 1, Identity(room, b.userId), [], None, st.rooms);
    FoldSnoc(start, [PeerJoined(c.userId, c.name)], Roster([]));
    assert Others(st.rooms[room], b.userId) == map[c.userId := c.name];
  }

  // ----- the other way round

  /** `c` joins while `b` is there, and `b` leaves before `c`'s Roster is queued. */
  function LateRace(room: RoomId, b: PeerInfo, c: PeerInfo): seq<Event> {
    [Connect(1), Connect(2),
     Text(1, ClientMsg.Join(room, b.userId, b.name, None), true, []), FinishJoin(1, None),
     Text(2, ClientMsg.Join(room, c.userId, c.name, None), true, [b]), Hangup(1),
     FinishJoin(2, None)]
  }

  lemma FinishFirst(room: RoomId, b: PeerInfo, m: ClientMsg)
    ensures var rooms := map[room := map[b.userId := Handle(b.name, 1)]];
            var k := Sock(Joining(Identity(room, b.userId), []), [], 0, true, 0, [m]);
            Step(Server(rooms, map[1 := k, 2 := NEW_SOCK]), FinishJoin(1, None)) ==
            Server(rooms, map[1 := Sock(Reading(Some(Identity(room, b.userId))), [Roster([])], 0, true, 0, [m]),
                              2 := NEW_SOCK])
  {
    hide Step, Mail;
    var rooms := map[room := map[b.userId := Handle(b.name, 1)]];
    var k := Sock(Joining(Identity(room, b.userId), []), [], 0, true, 0, [m]);
    TwoSocks(Server(rooms, map[1 := k, 2 := NEW_SOCK]), FinishJoin(1, None));
    assert k.log + [Roster([])] == [Roster([])];
    RosterSent(k, 1, Identity(room, b.userId), [], None, rooms);
    NoMail(NEW_SOCK, 2, {1}, Roster([]));
  }

  /** `b` goes: `c`, still waiting for its Roster, is told. */
  lemma FirstGoes(room: RoomId, b: PeerInfo, c: PeerInfo, k1: Sock, k2: Sock)
    requires b.userId != c.userId && k1.phase == Reading(Some(Identity(room, b.userId))) && k2.HasRoom()
    ensures var rooms := map[room := map[b.userId := Handle(b.name, 1), c.userId := Handle(c.name, 2)]];
            var st' := Step(Server(rooms, map[1 := k1, 2 := k2]), Hangup(1));
            && st'.rooms == map[room := map[c.userId := Handle(c.name, 2)]]
            && 2 in st'.socks && st'.socks[2] == k2.(log := k2.log + [PeerLeft(b.userId)])
  {
    hide Step, Mail;
    var rooms := map[room := map[b.userId := Handle(b.name, 1), c.userId := Handle(c.name, 2)]];
    TwoSocks(Server(rooms, map[1 := k1, 2 := k2]), Hangup(1));
    var r := rooms[room] - {b.userId};
    assert r == map[c.userId := Handle(c.name, 2)];
    assert SocksOf(r) == {2} by { assert r[c.userId].sock == 2; }
    OneMail(k2, 2, PeerLeft(b.userId));
  }

  lemma LateRaceLog(room: RoomId, b: PeerInfo, c: PeerInfo)
    requires JoinFieldsOk(room, b.userId, b.name, None) && JoinFieldsOk(room, c.userId, c.name, None)
    requires b.userId != c.userId
    ensures var st := Run(LateRace(room, b, c));
            && st.rooms == map[room := map[c.userId := Handle(c.name, 2)]]
            && 2 in st.socks && st.socks[2].lost == 0 && st.socks[2].log == [PeerLeft(b.userId), Roster([b])]
            && st.socks[2].phase == Reading(Some(Identity(room, c.userId)))
  {
    hide Step, JoinFieldsOk;
    var race := LateRace(room, b, c);
    var joinB, joinC := ClientMsg.Join(room, b.userId, b.name, None), ClientMsg.Join(room, c.userId, c.name, None);
    TwoConnected(race);
    FirstJoin(room, b, Run(race[..2]));
    FinishFirst(room, b, joinB);
    forall i | 2 <= i < 7 ensures Run(race[..i + 1]) == Step(Run(race[..i]), race[i]) {
      RunSnoc(race[..i], race[i]);
      assert race[..i] + [race[i]] == race[..i + 1];
    }
    SecondJoin(room, b, c, Run(race[..4]));
    var k2 := Sock(Joining(Identity(room, c.userId), [b]), [], 0, true, 0, [joinC]);
    FirstGoes(room, b, c, Run(race[..5]).socks[1], k2);
    RosterSent(k2.(log := [PeerLeft(b.userId)]), 2, Identity(room, c.userId), [b], None, Run(race[..6]).rooms);
    LastRoster(Run(race[..6]));
    assert race[..7] == race;
  }

  lemma LastRoster(st: Server)
    requires 2 in st.socks && st.socks[2].phase.Joining? && st.socks[2].HasRoom()
    ensures var k, st' := st.socks[2], Step(st, FinishJoin(2, None));
            && st'.rooms == st.rooms && 2 in st'.socks && st'.socks[2].lost == k.lost
            && st'.socks[2].log == k.log + [Roster(k.phase.roster)] && st'.socks[2].phase == Reading(Some(k.phase.id))
  {
    var k := st.socks[2];
    RosterSent(k, 2, k.phase.id, k.phase.roster, None, st.rooms);
  }

  /** After this race nothing is lost, `c` is alone in the room, and `c` sees `b`
      there and has an entry for it: the notice that `b` has left came before the
      Roster that lists it. */
  lemma {:induction false} LateRosterLeavesGhost(room: RoomId, b: PeerInfo, c: PeerInfo, start: View, ds: seq<Delivery>)
    requires JoinFieldsOk(room, b.userId, b.name, None) && JoinFieldsOk(room, c.userId, c.name, None)
    requires b.userId != c.userId
    requires forall i :: 0 <= i < |ds| ==> Connects(M.LibFor(ds[i].libs, b.userId))
    ensures var st := Run(LateRace(room, b, c));
            && Registered(st, room, c.userId) && Member(st, room, c.userId).lost == 0
            && Others(st.rooms[room], c.userId) == map[]
            && var log := Member(st, room, c.userId).log;
               && Fold(start, log) == map[b.userId := b.name]
               && (|ds| == |log| && (forall i :: 0 <= i < |ds| ==> ds[i].msg == log[i]) ==>
                     b.userId in MeshAfter(c.userId, ds).peers)
  {
    hide Run, JoinFieldsOk, Fold, MeshAfter;
    LateRaceLog(room, b, c);
    FoldSnoc(start, [PeerLeft(b.userId)], Roster([b]));
    assert [PeerLeft(b.userId)] + [Roster([b])] == [PeerLeft(b.userId), Roster([b])];
    assert RosterMap([b]) == map[b.userId := b.name] by { assert [b][..0] == []; }
    MembersHaveLinks(c.userId, ds, b.userId);
  }
}
