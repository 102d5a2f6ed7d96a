// The main results about the signaling server: which member view a client ends
// up with, when that view is right, and where relayed messages come from.

module RoomsTheorems {
  import opened Wire
  import opened RosterView
  import opened Rooms
  import opened RoomsProofs

  /** The socket registered for a member. */
  function Member(st: Server, room: RoomId, u: UserId): Sock
    requires Registered(st, room, u)
  {
    var s := HandleSock(st, room, u);
    if s in st.socks then st.socks[s] else NEW_SOCK
  }

  /** Place of the first Roster in a stream, or its length. */
  function RosterIndex(log: seq<ServerMsg>): nat {
    if log == [] || log[0].Roster? then 0 else 1 + RosterIndex(log[1..])
  }

  lemma {:induction false} RosterIndexIs(log: seq<ServerMsg>, i: nat)
    requires RosterAt(log, i)
    ensures RosterIndex(log) == i
    decreases i
  {
    if i > 0 {
      assert log[..i][0] == log[0];
      assert log[1..][..i - 1] == log[..i][1..] && log[1..][i..] == log[i + 1..];
      RosterIndexIs(log[1..], i - 1);
    }
  }

  /** In every reachable state, a joined member to which no send was dropped has
      received one Roster, and the room is that listing with every other message
      applied. A client folding its stream from any earlier view therefore sees
      its room exactly when each id announced only before the Roster ended up as
      the Roster lists it. */
  lemma {:induction false} RosterConvergence(es: seq<Event>, room: RoomId, u: UserId, start: View)
    requires Registered(Run(es), room, u)
    requires Member(Run(es), room, u).phase.Reading? && Member(Run(es), room, u).lost == 0
    ensures var st := Run(es);
            var log := Member(st, room, u).log;
            var i := RosterIndex(log);
            && RosterAt(log, i)
            && var listed := RosterMap(log[i].peers);
               && Others(st.rooms[room], u) == Fold(listed, log[..i] + log[i + 1..])
               && (Fold(start, log) == Others(st.rooms[room], u) <==>
                   forall id :: Announces(log[..i], id) && !Announces(log[i + 1..], id) ==>
                     SameEntry(Fold(listed, log[..i]), listed, id))
  {
    hide Run, Fold, Truth, RosterAt, RosterMap, Announces, SameEntry, Others;
    var i := MemberTruth(es, room, u);
    var log := Member(Run(es), room, u).log;
    RosterIndexIs(log, i);
    StreamView(log, i, start);
    TruthIs(log, i);
  }

  lemma MemberTruth(es: seq<Event>, room: RoomId, u: UserId) returns (i: nat)
    requires Registered(Run(es), room, u)
    requires Member(Run(es), room, u).phase.Reading? && Member(Run(es), room, u).lost == 0
    ensures var log := Member(Run(es), room, u).log;
            RosterAt(log, i) && Others(Run(es).rooms[room], u) == Truth(log, i)
  {
    hide Run, Truth, RosterAt, Others;
    var st := Run(es);
    RunRoomsOk(es);
    RunViewsOk(es);
    assert HandleOk(st, room, u) && MemberTracks(st, room, u);
    var log := st.socks[HandleSock(st, room, u)].log;
    i :| RosterAt(log, i) && Others(st.rooms[room], u) == Truth(log, i);
  }

  lemma TruthIs(log: seq<ServerMsg>, i: nat)
    requires RosterAt(log, i)
    ensures i < |log| && log[i].Roster? && Truth(log, i) == Fold(RosterMap(log[i].peers), log[..i] + log[i + 1..])
  {
  }

  /** What a client makes of a stream with one Roster, and when that agrees with
      the listing changed by everything else in the stream. */
  lemma StreamView(log: seq<ServerMsg>, i: nat, start: View)
    requires RosterAt(log, i)
    ensures Fold(start, log) == Fold(RosterMap(log[i].peers), log[i + 1..])
    ensures var listed := RosterMap(log[i].peers);
            Fold(start, log) == Truth(log, i) <==>
              forall id :: Announces(log[..i], id) && !Announces(log[i + 1..], id) ==>
                SameEntry(Fold(listed, log[..i]), listed, id)
  {
    assert log == log[..i] + ([Roster(log[i].peers)] + log[i + 1..]);
    FoldAppend(start, log[..i], [Roster(log[i].peers)] + log[i + 1..]);
    FoldRoster(Fold(start, log[..i]), log[i].peers, log[i + 1..]);
    EarlyAnnouncementsMatter(RosterMap(log[i].peers), log[..i], log[i + 1..]);
  }

  /** The hypothesis "the join of `s` and its Roster are one step": whenever the
      socket owes its Roster, that Roster is what happens next. */
  ghost predicate AtomicJoin(es: seq<Event>, s: SockId) {
    forall i :: 0 <= i <= |es| && Owes(es[..i], s) ==> i < |es| && es[i].FinishJoin? && es[i].s == s
  }

  predicate Owes(es: seq<Event>, s: SockId) {
    s in Run(es).socks && Run(es).socks[s].phase.Joining?
  }

  ghost predicate Prompt(k: Sock) {
    match k.phase
    case Joining(_, _) => AllNeutral(k.log)
    case Reading(Some(_)) => k.lost == 0 ==> exists i: nat :: RosterAt(k.log, i) && AllNeutral(k.log[..i])
    case _ => true
  }

  /** A client whose own join is atomic has its room as its view, from whatever
      view it started, however the others joined. */
  lemma {:induction false} AtomicRosterConvergence(es: seq<Event>, room: RoomId, u: UserId, start: View)
    requires Registered(Run(es), room, u) && AtomicJoin(es, HandleSock(Run(es), room, u))
    requires Member(Run(es), room, u).lost == 0
    ensures Fold(start, Member(Run(es), room, u).log) == Others(Run(es).rooms[room], u)
  {
    var st := Run(es);
    RunRoomsOk(es);
    assert HandleOk(st, room, u);
    var s := HandleSock(st, room, u);
    assert es[..|es|] == es;
    assert !Owes(es[..|es|], s);
    RunPrompt(es, s, |es|);
    var k := st.socks[s];
    assert Prompt(k);
    var i: nat :| RosterAt(k.log, i) && AllNeutral(k.log[..i]);
    RosterIndexIs(k.log, i);
    RosterConvergence(es, room, u, start);
    forall id ensures !Announces(k.log[..i], id) { }
  }

  lemma {:induction false} RunPrompt(es: seq<Event>, s: SockId, n: nat)
    requires AtomicJoin(es, s) && n <= |es|
    ensures s in Run(es[..n]).socks ==> Prompt(Run(es[..n]).socks[s])
    decreases n
  {
    if n > 0 {
      RunPrompt(es, s, n - 1);
      var before, e := es[..n - 1], es[n - 1];
      assert es[..n][..n - 1] == before;
      RunRoomsOk(before);
      RunViewsOk(before);
      var st := Run(before);
      assert Owes(before, s) ==> e.FinishJoin? && e.s == s;
      if Enabled(st, e) && !e.Connect? && s in st.socks { PromptStep(st, e, s); }
    }
  }

  lemma PromptStep(st: Server, e: Event, t: SockId)
    requires HandlesOk(st) && ViewsOk(st) && Enabled(st, e) && !e.Connect? && t in st.socks && Prompt(st.socks[t])
    requires st.socks[t].phase.Joining? ==> e.FinishJoin? && e.s == t
    ensures Prompt(Step(st, e).socks[t])
  {
    var k, k' := st.socks[t], Step(st, e).socks[t];
    IdentityKept(st, e);
    MailOnly(k, t, EffectOf(st, e).out);
    if k'.phase.Joining? {
      PromptJoiner(st, e, t);
    } else if k'.phase.Reading? && k'.phase.me.Some? && k'.lost == 0 {
      if k.phase.Joining? {
        PromptLister(st, e);
      } else {
        ReadingBefore(st, e, t);
        var i: nat :| RosterAt(k.log, i) && AllNeutral(k.log[..i]);
        NoSecondRoster(st, e, t);
        MailLog(k, t, EffectOf(st, e).out);
        RosterStays(k.log, k'.log, EffectOf(st, e).out.For(t), i);
      }
    }
  }

  lemma ReadingBefore(st: Server, e: Event, t: SockId)
    requires Enabled(st, e) && !e.Connect? && t in st.socks && !st.socks[t].phase.Joining?
    requires Step(st, e).socks[t].phase.Reading? && Step(st, e).socks[t].phase.me.Some?
    ensures st.socks[t].phase == Step(st, e).socks[t].phase
  {
    hide Mail, Outgoing, Notices, Lists, JoinFieldsOk;
    MailOnly(st.socks[t], t, EffectOf(st, e).out);
    EffectByKind(st, e);
    if Kind(st, e).Other? { OtherEffect(st, e); }
  }

  lemma RosterStays(log: seq<ServerMsg>, log': seq<ServerMsg>, news: seq<ServerMsg>, i: nat)
    requires log <= log' && NoRoster(news) && RosterAt(log, i)
    requires forall j :: |log| <= j < |log'| ==> log'[j] in news
    ensures RosterAt(log', i) && log'[..i] == log[..i]
  {
    var a, b := log[i + 1..], log'[i + 1..];
    forall j | |a| <= j < |b| ensures b[j] in news { assert b[j] == log'[i + 1 + j]; }
    NoRosterAppend(a, b, news);
  }

  lemma PromptLister(st: Server, e: Event)
    requires Enabled(st, e) && e.FinishJoin? && Prompt(st.socks[e.s])
    requires Step(st, e).socks[e.s].lost == 0
    ensures Prompt(Step(st, e).socks[e.s])
  {
    var k, k' := st.socks[e.s], Step(st, e).socks[e.s];
    var Joining(id, roster) := k.phase;
    RosterSent(k, e.s, id, roster, e.turn, st.rooms);
    var i := |k.log|;
    assert k'.log[..i] == k.log && k'.log[i].Roster?;
    assert NoRoster(k'.log[i + 1..]);
    assert RosterAt(k'.log, i);
  }

  lemma NoRosterAppend(a: seq<ServerMsg>, b: seq<ServerMsg>, news: seq<ServerMsg>)
    requires NoRoster(a) && a <= b && NoRoster(news)
    requires forall j :: |a| <= j < |b| ==> b[j] in news
    ensures NoRoster(b)
  {
  }

  lemma PromptJoiner(st: Server, e: Event, t: SockId)
    requires HandlesOk(st) && ViewsOk(st) && Enabled(st, e) && !e.Connect? && t in st.socks
    requires st.socks[t].phase.Joining? ==> e.FinishJoin? && e.s == t
    requires Step(st, e).socks[t].phase.Joining?
    ensures AllNeutral(Step(st, e).socks[t].log)
  {
    EffectByKind(st, e);
    MailOnly(st.socks[t], t, EffectOf(st, e).out);
    if Kind(st, e).Other? { OtherEffect(st, e); }
    var Enters(id, name, roster) := Kind(st, e);
    NotRegistered(st, t, id.room);
    JoinerMail(st.rooms, t, id, name, roster);
    NeutralMail(st.socks[t], t, EffectOf(st, e).out);
  }

  lemma NoSecondRoster(st: Server, e: Event, t: SockId)
    requires Enabled(st, e) && !e.Connect? && t in st.socks && st.socks[t].phase.Reading?
    ensures NoRoster(EffectOf(st, e).out.For(t))
  {
    hide Receive, EnterRoom, Cleanup, SendRoster, Outgoing, JoinFieldsOk, Lists;
    EffectByKind(st, e);
    match Kind(st, e)
    case Enters(id, name, roster) => EnterNoRoster(st.rooms, e.s, id, name, roster, t);
    case Leaves(me) => LeaveNoRoster(st.rooms, me, t);
    case Posts(id, roster) => RosterMail(st.rooms, e.s, id, roster, e.turn, t);
    case Other =>
      OtherEffect(st, e);
      QuietMail(EffectOf(st, e).out, t);
  }

  lemma LeaveNoRoster(rooms: map<RoomId, Room>, me: Identity, t: SockId)
    ensures NoRoster(Cleanup(rooms, Some(me)).out.For(t))
  {
    ForThen(Cleanup(rooms, Some(me)).out, t);
  }

  lemma EnterNoRoster(rooms: map<RoomId, Room>, s: SockId, id: Identity, name: string, roster: seq<PeerInfo>, t: SockId)
    requires !(|RoomOf(rooms, id.room)| >= HARD_CAP && id.user !in RoomOf(rooms, id.room))
    ensures NoRoster(EnterRoom(rooms, s, id, name, roster).out.For(t))
  {
    EnterMail(rooms, s, id, name, roster, t);
  }

  /** The client of `u` sees its room, if it started from `start`. */
  predicate SeesRoom(st: Server, room: RoomId, u: UserId, start: View)
    requires Registered(st, room, u)
  {
    Fold(start, Member(st, room, u).log) == Others(st.rooms[room], u)
  }

  /** The id is a member of the room already, under the same name. */
  predicate KnownAs(st: Server, id: Identity, name: string) {
    Registered(st, id.room, id.user) && st.rooms[id.room][id.user].name == name
  }

  /** When somebody joins the room of a member whose view is right, whether new or
      in place of a socket with its id, that view stays right exactly if the
      member's queue has room for the notice or the notice is no news. */
  lemma {:induction false} JoinSeenIffQueueHasRoom(es: seq<Event>, e: Event, u: UserId, start: View)
    requires Enabled(Run(es), e) && !e.Connect? && Kind(Run(es), e).Enters?
    requires var id := Kind(Run(es), e).id;
             id.user != u && Registered(Run(es), id.room, u) && SeesRoom(Run(es), id.room, u, start)
    ensures var st, st', id := Run(es), Step(Run(es), e), Kind(Run(es), e).id;
            && Registered(st', id.room, u)
            && (SeesRoom(st', id.room, u, start) <==>
                Member(st, id.room, u).HasRoom() || KnownAs(st, id, Kind(st, e).name))
  {
    RunRoomsOk(es);
    var st, st' := Run(es), Step(Run(es), e);
    var Enters(id, name, roster) := Kind(st, e);
    OneNoticeThenWarn(st, e, u);
    OthersAfterJoin(st, e, u);
    NoticeAndWarn(Member(st, id.room, u), start, Others(st.rooms[id.room], u), id.user, name, |st'.rooms[id.room]|);
  }

  /** When a socket of the room of a member whose view is right ends, that view
      stays right exactly if the member's queue has room for the notice or the
      socket's id was no member any more. */
  lemma {:induction false} LeaveSeenIffQueueHasRoom(es: seq<Event>, e: Event, u: UserId, start: View)
    requires Enabled(Run(es), e) && !e.Connect? && Kind(Run(es), e).Leaves?
    requires var me := Kind(Run(es), e).me;
             me.user != u && Registered(Run(es), me.room, u) && SeesRoom(Run(es), me.room, u, start)
    ensures var st, st', me := Run(es), Step(Run(es), e), Kind(Run(es), e).me;
            && Registered(st', me.room, u)
            && (SeesRoom(st', me.room, u, start) <==>
                Member(st, me.room, u).HasRoom() || !Registered(st, me.room, me.user))
  {
    hide Fold, Mail, Receive, EffectOf;
    RunRoomsOk(es);
    var st, st', me := Run(es), Step(Run(es), e), Kind(Run(es), e).me;
    var k, v := Member(st, me.room, u), Others(st.rooms[me.room], u);
    OneDeparture(st, e, u);
    FoldSnoc(start, k.log, PeerLeft(me.user));
    assert me.user !in v ==> v - {me.user} == v;
    assert me.user in v <==> Registered(st, me.room, me.user);
  }

  /** A departure sends a member that stays one notice. */
  lemma OneDeparture(st: Server, e: Event, u: UserId)
    requires HandlesOk(st) && Enabled(st, e) && !e.Connect? && Kind(st, e).Leaves?
    requires Kind(st, e).me.user != u && Registered(st, Kind(st, e).me.room, u)
    ensures var st', me := Step(st, e), Kind(st, e).me;
            && Registered(st', me.room, u)
            && Member(st', me.room, u) == Member(st, me.room, u).TrySend(PeerLeft(me.user))
            && Others(st'.rooms[me.room], u) == Others(st.rooms[me.room], u) - {me.user}
  {
    hide Receive;
    EffectByKind(st, e);
    var me := Kind(st, e).me;
    assert HandleOk(st, me.room, u);
    var s, r := HandleSock(st, me.room, u), st.rooms[me.room] - {me.user};
    assert r[u].sock == s && s in SocksOf(r);
    assert EffectOf(st, e).out == Then(Empty, SocksOf(r), PeerLeft(me.user));
    assert Mail(st.socks[s], s, Empty) == st.socks[s];
    assert Others(r, u) == Others(st.rooms[me.room], u) - {me.user};
  }

  lemma OthersAfterJoin(st: Server, e: Event, u: UserId)
    requires Enabled(st, e) && !e.Connect? && Kind(st, e).Enters?
    requires Kind(st, e).id.user != u && Registered(st, Kind(st, e).id.room, u)
    ensures var st', id := Step(st, e), Kind(st, e).id;
            && Registered(st', id.room, u)
            && Others(st'.rooms[id.room], u) == Others(st.rooms[id.room], u)[id.user := Kind(st, e).name]
  {
    hide Mail, Receive, Notices, Lists;
    EffectByKind(st, e);
  }

  lemma NoticeAndWarn(k: Sock, start: View, v: View, id: UserId, name: string, n: nat)
    requires Fold(start, k.log) == v
    ensures var k1 := k.TrySend(PeerJoined(id, name));
            var k2 := if n >= WARN_CAP then k1.TrySend(Warn(n, WARN_CAP)) else k1;
            Fold(start, k2.log) == v[id := name] <==> k.HasRoom() || (id in v && v[id] == name)
  {
    FoldSnoc(start, k.log, PeerJoined(id, name));
    FoldSnoc(start, k.log + [PeerJoined(id, name)], Warn(n, WARN_CAP));
    if !k.HasRoom() {
      assert k.TrySend(PeerJoined(id, name)).log == k.log;
      assert id in v[id := name] && v[id := name][id] == name;
    }
  }

  lemma OneNoticeThenWarn(st: Server, e: Event, u: UserId)
    requires HandlesOk(st) && Enabled(st, e) && !e.Connect? && Kind(st, e).Enters?
    requires Kind(st, e).id.user != u && Registered(st, Kind(st, e).id.room, u)
    ensures var st', id, name := Step(st, e), Kind(st, e).id, Kind(st, e).name;
            var s := HandleSock(st, id.room, u);
            && Registered(st', id.room, u) && HandleSock(st', id.room, u) == s && s in st'.socks
            && var k, n := Member(st, id.room, u), |st'.rooms[id.room]|;
               var k1 := k.TrySend(PeerJoined(id.user, name));
               Member(st', id.room, u) == if n >= WARN_CAP then k1.TrySend(Warn(n, WARN_CAP)) else k1
  {
    hide Receive, Outgoing, Lists, JoinFieldsOk;
    EffectByKind(st, e);
    assert HandleOk(st, Kind(st, e).id.room, u);
    var Enters(id, name, roster) := Kind(st, e);
    var s, r0 := HandleSock(st, id.room, u), st.rooms[id.room];
    var r1 := r0 - {id.user};
    var r2 := r1[id.user := Handle(name, e.s)];
    assert r1[u].sock == s && r2[u].sock == s;
    assert s in SocksOf(r1) && s in SocksOf(r2);
    if id.user in r0 && r0[id.user].sock == s { OneHandlePerSocket(st, id.room, u, id.room, id.user); }
    var first := Superseded(r0, id.user);
    assert Mail(st.socks[s], s, first) == st.socks[s] by { ElsewhereMail(st.socks[s], s, first); }
    var notice := Then(first, SocksOf(r1), PeerJoined(id.user, name));
    assert Mail(st.socks[s], s, notice) == st.socks[s].TrySend(PeerJoined(id.user, name));
    assert EffectOf(st, e).out == if |r2| >= WARN_CAP then Then(notice, SocksOf(r2), Warn(|r2|, WARN_CAP)) else notice;
  }

  lemma ElsewhereMail(k: Sock, t: SockId, out: Outbox)
    requires out.For(t) == []
    ensures Mail(k, t, out) == k
  {
    MailOnly(k, t, out);
  }

  lemma RunSnoc(es: seq<Event>, e: Event)
    ensures Run(es + [e]) == Step(Run(es), e)
  {
    assert (es + [e])[..|es|] == es;
  }

  // ----- who is a member

  /** The socket of the last join under the identity, unless a socket that had
      joined under it has ended since. */
  function LastWord(es: seq<Event>, id: Identity): Option<SockId> {
    if es == [] then None
    else
      var front, e := es[..|es| - 1], es[|es| - 1];
      var st := Run(front);
      if !Enabled(st, e) || e.Connect? then LastWord(front, id)
      else
        match Kind(st, e)
        case Enters(id', _, _) => if id' == id then Some(e.s) else LastWord(front, id)
        case Leaves(me) => if me == id then None else LastWord(front, id)
        case _ => LastWord(front, id)
  }

  /** In every run an id is registered exactly if the last word on it is a join,
      and then it is the joining socket's. A socket that has joined and not ended
      is therefore no member once another socket with its id has joined or ended. */
  lemma {:induction false} MemberIffLastWord(es: seq<Event>, room: RoomId, u: UserId)
    ensures Registered(Run(es), room, u) <==> LastWord(es, Identity(room, u)).Some?
    ensures Registered(Run(es), room, u) ==> LastWord(es, Identity(room, u)) == Some(HandleSock(Run(es), room, u))
    decreases |es|
  {
    hide EffectOf, Mail, RoomsProofs.Kind, Enabled, Step;
    if es != [] {
      var front, e := es[..|es| - 1], es[|es| - 1];
      var st := Run(front);
      MemberIffLastWord(front, room, u);
      if !Enabled(st, e) || e.Connect? {
        SameMembers(st, e);
      } else {
        match Kind(st, e)
        case Enters(_, _, _) => RegisteredAfterJoin(st, e, u);
        case Leaves(_) => RoomsAfterLeave(st, e, u);
        case _ => SameRooms(st, e);
      }
    }
  }

  lemma SameMembers(st: Server, e: Event)
    requires !Enabled(st, e) || e.Connect?
    ensures Step(st, e).rooms == st.rooms
  {
  }

  /** It does happen: when a socket takes over an id, and the socket it took it
      from ends, the new one is connected and joined, and no member. */
  lemma {:induction false} TakenOverThenDropped(es: seq<Event>, join: Event, id: Identity)
    requires Registered(Run(es), id.room, id.user) && Member(Run(es), id.room, id.user).phase.Reading?
    requires Enabled(Run(es), join) && !join.Connect? && Kind(Run(es), join).Enters? && Kind(Run(es), join).id == id
    ensures var prior := HandleSock(Run(es), id.room, id.user);
            var st := Run(es + [join, Hangup(prior)]);
            && prior != join.s && join.s in st.socks
            && st.socks[join.s].phase.Who() == Some(id) && !st.socks[join.s].phase.Done?
            && !Registered(st, id.room, id.user)
  {
    hide EffectOf, Mail, RoomsProofs.Kind, Enabled, Step;
    var st, prior := Run(es), HandleSock(Run(es), id.room, id.user);
    RunRoomsOk(es);
    assert HandleOk(st, id.room, id.user);
    var st1 := Step(st, join);
    RunSnoc(es, join);
    RunSnoc(es + [join], Hangup(prior));
    assert es + [join] + [Hangup(prior)] == es + [join, Hangup(prior)];
    RegisteredAfterJoin(st, join, id.user);
    TakesOver(st, join, prior);
    assert Enabled(st1, Hangup(prior)) && Kind(st1, Hangup(prior)) == Leaves(id) by { EndsAs(st1, prior, id); }
    RoomsAfterLeave(st1, Hangup(prior), id.user);
    OtherPhaseKept(st1, Hangup(prior), join.s);
  }

  lemma TakesOver(st: Server, join: Event, prior: SockId)
    requires Enabled(st, join) && !join.Connect? && Kind(st, join).Enters?
    requires prior in st.socks && st.socks[prior].phase.Who().Some?
    ensures prior != join.s && join.s in Step(st, join).socks && prior in Step(st, join).socks
    ensures Step(st, join).socks[prior].phase == st.socks[prior].phase
  {
    hide EffectOf, JoinFieldsOk, Lists;
    MailOnly(st.socks[prior], prior, EffectOf(st, join).out);
  }

  lemma EndsAs(st: Server, s: SockId, id: Identity)
    requires s in st.socks && st.socks[s].phase == Reading(Some(id))
    ensures Enabled(st, Hangup(s)) && Kind(st, Hangup(s)) == Leaves(id)
  {
  }

  lemma OtherPhaseKept(st: Server, e: Event, t: SockId)
    requires Enabled(st, e) && !e.Connect? && t in st.socks && t != e.s
    ensures t in Step(st, e).socks && Step(st, e).socks[t].phase == st.socks[t].phase
  {
    hide EffectOf;
    MailOnly(st.socks[t], t, EffectOf(st, e).out);
  }

  // ----- where relayed messages come from

  /** Socket `t` joined as `who` and its client sent `m`. */
  predicate Said(st: Server, t: SockId, who: Identity, m: ClientMsg) {
    t in st.socks && st.socks[t].phase.Who() == Some(who) && m in st.socks[t].submitted
  }

  /** A relayed message on the socket that joined as `to` was sent, to that very
      id, by a socket that joined the same room under the stamped id. */
  ghost predicate Genuine(st: Server, to: Option<Identity>, m: ServerMsg) {
    match m
    case Offer(from, sdp) =>
      to.Some? && exists t :: Said(st, t, Identity(to.value.room, from), ClientMsg.Offer(to.value.user, sdp))
    case Answer(from, sdp) =>
      to.Some? && exists t :: Said(st, t, Identity(to.value.room, from), ClientMsg.Answer(to.value.user, sdp))
    case Ice(from, cand) =>
      to.Some? && exists t :: Said(st, t, Identity(to.value.room, from), ClientMsg.Ice(to.value.user, cand))
    case Ptt(from, active) =>
      to.Some? && from != to.value.user && exists t :: Said(st, t, Identity(to.value.room, from), ClientMsg.Ptt(active))
    case _ => true
  }

  ghost predicate AllGenuine(st: Server) {
    forall s, i :: s in st.socks && 0 <= i < |st.socks[s].log| ==>
      Genuine(st, st.socks[s].phase.Who(), st.socks[s].log[i])
  }

  predicate Remembers(st: Server, st': Server) {
    forall t :: t in st.socks ==>
      && t in st'.socks
      && (st.socks[t].phase.Who().Some? ==> st'.socks[t].phase.Who() == st.socks[t].phase.Who())
      && st.socks[t].submitted <= st'.socks[t].submitted
  }

  lemma StepRemembers(st: Server, e: Event)
    ensures Remembers(st, Step(st, e))
  {
    if Enabled(st, e) && !e.Connect? {
      forall t | t in st.socks ensures SameButMail(st.socks[t], Mail(st.socks[t], t, EffectOf(st, e).out)) {
        MailOnly(st.socks[t], t, EffectOf(st, e).out);
      }
      IdentityKept(st, e);
    }
  }

  lemma SaidStays(st: Server, st': Server, t: SockId, who: Identity, m: ClientMsg)
    requires Remembers(st, st') && Said(st, t, who, m)
    ensures Said(st', t, who, m)
  {
  }

  lemma GenuineStays(st: Server, st': Server, to: Option<Identity>, m: ServerMsg)
    requires Remembers(st, st') && Genuine(st, to, m)
    ensures Genuine(st', to, m)
  {
    match m
    case Offer(from, sdp) =>
      var t :| Said(st, t, Identity(to.value.room, from), ClientMsg.Offer(to.value.user, sdp));
      SaidStays(st, st', t, Identity(to.value.room, from), ClientMsg.Offer(to.value.user, sdp));
    case Answer(from, sdp) =>
      var t :| Said(st, t, Identity(to.value.room, from), ClientMsg.Answer(to.value.user, sdp));
      SaidStays(st, st', t, Identity(to.value.room, from), ClientMsg.Answer(to.value.user, sdp));
    case Ice(from, cand) =>
      var t :| Said(st, t, Identity(to.value.room, from), ClientMsg.Ice(to.value.user, cand));
      SaidStays(st, st', t, Identity(to.value.room, from), ClientMsg.Ice(to.value.user, cand));
    case Ptt(from, active) =>
      var t :| Said(st, t, Identity(to.value.room, from), ClientMsg.Ptt(active));
      SaidStays(st, st', t, Identity(to.value.room, from), ClientMsg.Ptt(active));
    case _ =>
  }

  predicate Relayed(m: ServerMsg) {
    m.Offer? || m.Answer? || m.Ice? || m.Ptt?
  }

  /** What a step puts in a queue was said by the step's own socket. */
  lemma NewMailGenuine(st: Server, e: Event, s: SockId, m: ServerMsg)
    requires HandlesOk(st) && Enabled(st, e) && !e.Connect? && s in st.socks
    requires m in EffectOf(st, e).out.For(s)
    ensures Genuine(Step(st, e), Step(st, e).socks[s].phase.Who(), m)
  {
    hide Receive, Outgoing, Mail, EnterRoom, Cleanup;
    StepRemembers(st, e);
    if Relayed(m) {
      OnlyOthersRelay(st, e, s, m);
      RelayIsGenuine(st, e, s, m);
    }
  }

  lemma OnlyOthersRelay(st: Server, e: Event, s: SockId, m: ServerMsg)
    requires Enabled(st, e) && !e.Connect? && m in EffectOf(st, e).out.For(s)
    ensures Relayed(m) ==> Kind(st, e).Other?
  {
    hide Receive, Outgoing, Mail, EffectOf, Cleanup, EnterRoom, SendRoster;
    EffectByKind(st, e);
    match Kind(st, e)
    case Enters(id, name, roster) => OnlyNotices(st.rooms, e.s, id, name, roster, s, m);
    case Leaves(me) => OnlyDepartures(st.rooms, me, s, m);
    case Posts(id, roster) => OnlyRosterAndTurn(st.rooms, e.s, id, roster, e.turn, s, m);
    case Other =>
  }

  lemma OnlyNotices(rooms: map<RoomId, Room>, s: SockId, id: Identity, name: string, roster: seq<PeerInfo>,
                    t: SockId, m: ServerMsg)
    requires !(|RoomOf(rooms, id.room)| >= HARD_CAP && id.user !in RoomOf(rooms, id.room))
    requires m in EnterRoom(rooms, s, id, name, roster).out.For(t)
    ensures !Relayed(m)
  {
    hide EnterRoom;
    EnterMail(rooms, s, id, name, roster, t);
  }

  lemma OnlyDepartures(rooms: map<RoomId, Room>, me: Identity, t: SockId, m: ServerMsg)
    requires m in Cleanup(rooms, Some(me)).out.For(t)
    ensures m.PeerLeft?
  {
    ForThen(Cleanup(rooms, Some(me)).out, t);
  }

  lemma OnlyRosterAndTurn(rooms: map<RoomId, Room>, s: SockId, id: Identity, roster: seq<PeerInfo>,
                          turn: Option<string>, t: SockId, m: ServerMsg)
    requires m in SendRoster(rooms, s, id, roster, turn).out.For(t)
    ensures m.Roster? || m.Turn?
  {
    var out := SendRoster(rooms, s, id, roster, turn).out;
    ForThen(out, t);
    if turn.Some? { ForThen(out.before, t); }
  }

  lemma RelayIsGenuine(st: Server, e: Event, s: SockId, m: ServerMsg)
    requires HandlesOk(st) && Enabled(st, e) && !e.Connect? && s in st.socks && Kind(st, e).Other?
    requires Remembers(st, Step(st, e))
    requires m in EffectOf(st, e).out.For(s) && Relayed(m)
    ensures Genuine(Step(st, e), Step(st, e).socks[s].phase.Who(), m)
  {
    hide Outgoing, Mail, EffectOf, RoomsProofs.Kind, Genuine, Receive;
    OtherOut(st, e, s, m);
    var me := st.socks[e.s].phase.me.value;
    MailOnly(st.socks[e.s], e.s, EffectOf(st, e).out);
    OwnSaid(st, e, me);
    RelayTarget(st, me, e.msg, s, m);
    GenuineFrom(Step(st, e), e.s, me, e.msg, Step(st, e).socks[s].phase.Who().value, m);
  }

  lemma OwnSaid(st: Server, e: Event, me: Identity)
    requires Enabled(st, e) && e.Text? && st.socks[e.s].phase.Who() == Some(me) && Remembers(st, Step(st, e))
    ensures Said(Step(st, e), e.s, me, e.msg)
  {
    hide Mail, EffectOf;
    MailOnly(st.socks[e.s], e.s, EffectOf(st, e).out);
    assert e.msg in Step(st, e).socks[e.s].submitted;
  }

  /** At most one message, which relays nothing. */
  predicate Plain(out: Outbox) {
    out.Empty? || (out.before.Empty? && !Relayed(out.m))
  }

  lemma PlainOrRelayed(st: Server, e: Event)
    requires Enabled(st, e) && !e.Connect? && Kind(st, e).Other?
    ensures var out, phase := EffectOf(st, e).out, st.socks[e.s].phase;
            || Plain(out)
            || (e.Text? && phase.Reading? && phase.me.Some? && out == Outgoing(st.rooms, phase.me.value, e.msg))
  {
    hide Receive, EnterRoom, Lists, JoinFieldsOk, Outgoing;
    if e.Text? {
      if e.msg.Join? {
        RefusedJoin(st.rooms, e.s, st.socks[e.s].phase.me, e.msg, e.authOk, e.roster);
      } else {
        ReceivedFrame(st.rooms, e.s, st.socks[e.s].phase.me, e.msg, e.authOk, e.roster);
      }
    }
  }

  lemma ReceivedFrame(rooms: map<RoomId, Room>, s: SockId, me: Option<Identity>, m: ClientMsg, authOk: bool,
                      roster: seq<PeerInfo>)
    requires !m.Join? && !(m.Leave? && me.Some?)
    ensures Receive(rooms, s, me, m, authOk, roster).out == if me.Some? then Outgoing(rooms, me.value, m) else Empty
  {
    hide Outgoing, EnterRoom, JoinFieldsOk;
  }

  /** A step that relays is a joined socket's frame. */
  lemma OtherOut(st: Server, e: Event, s: SockId, m: ServerMsg)
    requires Enabled(st, e) && !e.Connect? && Kind(st, e).Other?
    requires m in EffectOf(st, e).out.For(s) && Relayed(m)
    ensures e.Text? && st.socks[e.s].phase.Reading? && st.socks[e.s].phase.me.Some?
    ensures EffectOf(st, e).out == Outgoing(st.rooms, st.socks[e.s].phase.me.value, e.msg)
  {
    hide Outgoing, EffectOf, Enabled, RoomsProofs.Kind;
    PlainOrRelayed(st, e);
    ForThen(EffectOf(st, e).out, s);
  }

  lemma GenuineFrom(st: Server, t: SockId, me: Identity, msg: ClientMsg, to: Identity, m: ServerMsg)
    requires Said(st, t, me, msg) && to.room == me.room && me == Identity(me.room, me.user)
    requires
      || (exists sdp :: m == ServerMsg.Offer(me.user, sdp) && msg == ClientMsg.Offer(to.user, sdp))
      || (exists sdp :: m == ServerMsg.Answer(me.user, sdp) && msg == ClientMsg.Answer(to.user, sdp))
      || (exists c :: m == ServerMsg.Ice(me.user, c) && msg == ClientMsg.Ice(to.user, c))
      || (exists b :: m == ServerMsg.Ptt(me.user, b) && msg == ClientMsg.Ptt(b) && me.user != to.user)
    ensures Genuine(st, Some(to), m)
  {
  }

  /** A relayed message goes to the socket registered under the named id, and
      speaking states go to members other than the speaker. */
  lemma RelayTarget(st: Server, me: Identity, msg: ClientMsg, s: SockId, m: ServerMsg)
    requires HandlesOk(st) && s in st.socks && m in Outgoing(st.rooms, me, msg).For(s) && Relayed(m)
    ensures st.socks[s].phase.Who().Some? && st.socks[s].phase.Who().value.room == me.room
    ensures var u := st.socks[s].phase.Who().value.user;
            || (exists sdp :: m == ServerMsg.Offer(me.user, sdp) && msg == ClientMsg.Offer(u, sdp))
            || (exists sdp :: m == ServerMsg.Answer(me.user, sdp) && msg == ClientMsg.Answer(u, sdp))
            || (exists c :: m == ServerMsg.Ice(me.user, c) && msg == ClientMsg.Ice(u, c))
            || (exists b :: m == ServerMsg.Ptt(me.user, b) && msg == ClientMsg.Ptt(b) && me.user != u)
  {
    var r := RoomOf(st.rooms, me.room);
    ForThen(Outgoing(st.rooms, me, msg), s);
    if msg.Ptt? {
      var u :| u in r - {me.user} && (r - {me.user})[u].sock == s;
      assert Registered(st, me.room, u) && HandleOk(st, me.room, u);
    } else if msg.Offer? || msg.Answer? || msg.Ice? {
      assert Registered(st, me.room, msg.to) && HandleOk(st, me.room, msg.to);
    }
  }

  lemma AllGenuineStep(st: Server, e: Event)
    requires HandlesOk(st) && AllGenuine(st)
    ensures AllGenuine(Step(st, e))
  {
    var st' := Step(st, e);
    StepRemembers(st, e);
    if Enabled(st, e) {
      forall s, i | s in st'.socks && 0 <= i < |st'.socks[s].log|
        ensures Genuine(st', st'.socks[s].phase.Who(), st'.socks[s].log[i])
      {
        if !e.Connect? {
          MailLog(st.socks[s], s, EffectOf(st, e).out);
          var m := st'.socks[s].log[i];
          if i < |st.socks[s].log| {
            assert Genuine(st, st.socks[s].phase.Who(), m);
            GenuineStays(st, st', st.socks[s].phase.Who(), m);
          } else {
            NewMailGenuine(st, e, s, m);
          }
        } else if s in st.socks {
          GenuineStays(st, st', st.socks[s].phase.Who(), st'.socks[s].log[i]);
        }
      }
    }
  }

  /** In every reachable state, also after supersession and double cleanup, no
      queue ever got a relayed message that was not said under its stamp. */
  lemma {:induction false} RelayProvenance(es: seq<Event>)
    ensures AllGenuine(Run(es))
  {
    if es != [] {
      RelayProvenance(es[..|es| - 1]);
      RunRoomsOk(es[..|es| - 1]);
      AllGenuineStep(Run(es[..|es| - 1]), es[|es| - 1]);
    }
  }
}
