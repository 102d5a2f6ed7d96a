// How many offers the members of a room have made: one per unordered pair once
// everybody has met, however many others have come and gone meanwhile.

module NetworkCounting {
  import opened Wire
  import opened Rooms
  import opened RoomsProofs
  import opened Client
  import opened Network
  import opened NetworkRelays
  import opened NetworkInvariant
  import opened NetworkTheorems
  import opened NetworkGlare
  import opened Counting
  import M = Mesh

  // ----- a room

  /** `members` lists the sockets of the room, each once. */
  ghost predicate Roll(net: Net, room: RoomId, members: seq<SockId>) {
    && Distinct(members)
    && (forall i :: 0 <= i < |members| ==> InRoom(net, room, members[i]))
    && (forall u :: Registered(net.server, room, u) ==> HandleSock(net.server, room, u) in members)
  }

  predicate InRoom(net: Net, room: RoomId, s: SockId) {
    s in net.peers && s in net.server.socks && Joined(net, s) && net.peers[s].id.room == room
  }

  /** The members are clean, and no call has harmed a link between two of them.
      Others may have lost messages, reconnected, left and been out of reach. */
  ghost predicate CleanMembers(net: Net, members: seq<SockId>) {
    && (forall i :: 0 <= i < |members| ==> CleanMember(net, members[i]))
    && (forall i, j :: 0 <= i < |members| && 0 <= j < |members| && i != j ==> WellToMember(net, members[i], members[j]))
  }

  ghost predicate CleanMember(net: Net, s: SockId) {
    s in net.peers && Clean(net, net.peers[s].id)
  }

  ghost predicate WellToMember(net: Net, s: SockId, t: SockId) {
    s in net.peers && t in net.peers && WellTo(net, net.peers[s].id, net.peers[t].id.user)
  }

  /** Whoever has joined the room is still registered there. */
  ghost predicate Whole(net: Net, room: RoomId) {
    forall u :: Used(net.server, Identity(room, u)) ==> Registered(net.server, room, u)
  }

  /** Every member has finished joining and handled all that was sent to it. */
  ghost predicate CaughtUp(net: Net, members: seq<SockId>) {
    forall i :: 0 <= i < |members| ==> UpToDate(net, members[i])
  }

  predicate UpToDate(net: Net, s: SockId) {
    && s in net.peers && s in net.server.socks && net.server.socks[s].phase.Reading?
    && net.peers[s].seen == |net.server.socks[s].log|
  }

  function Users(net: Net, members: seq<SockId>): seq<UserId>
    requires forall i :: 0 <= i < |members| ==> members[i] in net.peers
  {
    seq(|members|, i requires 0 <= i < |members| => User(net, members[i]))
  }

  function Uplinks(net: Net, members: seq<SockId>): seq<seq<ClientMsg>>
    requires forall i :: 0 <= i < |members| ==> members[i] in net.peers && members[i] in net.server.socks
  {
    seq(|members|, i requires 0 <= i < |members| => Uplink(net, members[i]))
  }

  /** All offers the members of a room have made, whoever they are for. */
  function RoomOffers(net: Net, members: seq<SockId>): nat
    requires forall i :: 0 <= i < |members| ==> members[i] in net.peers && members[i] in net.server.socks
  {
    AllOffers(Uplinks(net, members))
  }

  /** The offers the members have made to each other. */
  function OffersBetween(net: Net, members: seq<SockId>): nat
    requires forall i :: 0 <= i < |members| ==> members[i] in net.peers && members[i] in net.server.socks
  {
    Among(Uplinks(net, members), Users(net, members))
  }

  lemma UsersDistinct(net: Net, room: RoomId, members: seq<SockId>)
    requires Roll(net, room, members) && CleanMembers(net, members)
    ensures Distinct(Users(net, members))
  {
    hide Clean, WellTo;
    var us := Users(net, members);
    forall i, j | 0 <= i < j < |us| ensures us[i] != us[j] {
      assert InRoom(net, room, members[i]) && InRoom(net, room, members[j]) && CleanMember(net, members[i]);
      if us[i] == us[j] { TwiceIsNotClean(net, members[i], members[j]); }
    }
  }

  lemma MemberIsListed(net: Net, room: RoomId, members: seq<SockId>, u: UserId)
    requires Inv(net) && Roll(net, room, members) && Registered(net.server, room, u)
    ensures u in Users(net, members)
  {
    hide RoomsOk, ViewsOk, MentionsOk, RelaysOk, LinksOk, KnownOk, Shape;
    MemberIsPeer(net, room, u);
    var t := HandleSock(net.server, room, u);
    var i :| 0 <= i < |members| && members[i] == t;
    assert Users(net, members)[i] == u;
  }

  /** If whoever joined is still there, members have offered only to members. */
  lemma OffersStayInRoom(net: Net, room: RoomId, members: seq<SockId>, s: SockId)
    requires Inv(net) && Roll(net, room, members) && Whole(net, room) && InRoom(net, room, s)
    ensures OffersTo(Uplink(net, s), Users(net, members))
  {
    hide Shape, RoomsOk, ViewsOk, MentionsOk, RelaysOk, LinksOk, Used, Registered, ServerKnown;
    var ms, us := Uplink(net, s), Users(net, members);
    assert PeerKnown(net, s);
    forall i | 0 <= i < |ms| && ms[i].Offer? ensures ms[i].to in us {
      assert KnownTarget(net.server, room, ms[i]);
      MemberIsListed(net, room, members, ms[i].to);
    }
  }

  lemma AllOffersBetween(net: Net, room: RoomId, members: seq<SockId>)
    requires Inv(net) && Roll(net, room, members) && Whole(net, room) && CleanMembers(net, members)
    ensures RoomOffers(net, members) == OffersBetween(net, members)
  {
    hide Inv, OffersTo, Whole, AllOffers, Among, Uplink;
    UsersDistinct(net, room, members);
    forall i | 0 <= i < |members| ensures OffersTo(Uplinks(net, members)[i], Users(net, members)) {
      OffersStayInRoom(net, room, members, members[i]);
    }
    AllAmong(Uplinks(net, members), Users(net, members));
  }

  /** An up-to-date member has been told of exactly the others, once each. */
  lemma ToldOfAll(net: Net, s: SockId, t: SockId)
    requires Inv(net) && CleanPair(net, s, t) && UpToDate(net, s)
    ensures LocalOf(net, s).seen == net.server.socks[s].log
    ensures Mentions(LocalOf(net, s).seen, User(net, t)) == 1
  {
    hide Mentions, Listed, Inv, Clean, WellTo;
    MentionedOnce(net, s, t);
  }

  lemma {:induction false} NoneDown(me: UserId, ms: seq<ClientMsg>, x: UserId)
    requires M.OffersUp(me, ms) && !Less(me, x)
    ensures AllTo(Offers, ms, x) == []
    decreases |ms|
  {
    if ms != [] { NoneDown(me, ms[..|ms| - 1], x); }
  }

  lemma CleanTwo(net: Net, room: RoomId, s: SockId, t: SockId)
    requires InRoom(net, room, s) && InRoom(net, room, t) && s != t && CleanMember(net, s) && CleanMember(net, t)
    requires WellToMember(net, s, t) && WellToMember(net, t, s)
    ensures CleanPair(net, s, t)
  {
    hide Clean, WellTo;
    assert net.peers[s].id == Identity(room, User(net, s)) && net.peers[t].id == Identity(room, User(net, t));
  }

  /** The offers one up-to-date member has made to another. */
  lemma OffersMade(net: Net, room: RoomId, s: SockId, t: SockId)
    requires Inv(net) && AllUp(net) && InRoom(net, room, s) && InRoom(net, room, t) && UpToDate(net, s)
    requires CleanMember(net, s) && CleanMember(net, t)
    requires s != t ==> WellToMember(net, s, t) && WellToMember(net, t, s)
    ensures |AllTo(Offers, Uplink(net, s), User(net, t))| ==
            if Less(User(net, s), User(net, t)) then Due(net.server.socks[s].log, User(net, t)) else 0
    ensures Less(User(net, s), User(net, t)) ==>
              Mentions(net.server.socks[s].log, User(net, t)) == 1 && User(net, t) in net.peers[s].mesh.peers
  {
    hide AllTo, AllFrom, Mentions, Due, Inv, Clean, WellTo;
    if Less(User(net, s), User(net, t)) {
      ExactlyOneSideIsSmaller(User(net, s), User(net, t));
      CleanTwo(net, room, s, t);
      PairInOrder(net, s, t);
      ToldOfAll(net, s, t);
      DueIffMentioned(LocalOf(net, s).seen, User(net, t));
    } else {
      NoneDown(User(net, s), Uplink(net, s), User(net, t));
    }
  }

  /** Once the n members of a room have handled what they were sent, and no rekey
      has been among it, they have made n(n-1)/2 offers to each other: one for
      each unordered pair, from the smaller id. If all who joined are still
      there, these are all the offers they have made. */
  lemma {:induction false} OneOfferPerPair(es: seq<NetEvent>, room: RoomId, members: seq<SockId>)
    requires var net := NetRun(es); Roll(net, room, members) && CleanMembers(net, members) && CaughtUp(net, members)
    requires forall i :: 0 <= i < |members| ==> Rekeys(NetRun(es).server.socks[members[i]].log) == 0
    ensures 2 * OffersBetween(NetRun(es), members) == |members| * (|members| - 1)
    ensures Whole(NetRun(es), room) ==> RoomOffers(NetRun(es), members) == OffersBetween(NetRun(es), members)
    ensures forall i, j :: 0 <= i < |members| && 0 <= j < |members| ==>
              |AllTo(Offers, Uplink(NetRun(es), members[i]), User(NetRun(es), members[j]))| ==
              if Less(User(NetRun(es), members[i]), User(NetRun(es), members[j])) then 1 else 0
  {
    hide AllTo, Mentions, Due, Inv, NetRun, Rekeys, AllOffers, Among, AllUp, Whole, Uplink, User;
    var net := NetRun(es);
    RunInv(es);
    RunGoesUp(es);
    var us, ups := Users(net, members), Uplinks(net, members);
    var none := seq(|members|, _ => []);
    forall i, j | 0 <= i < |members| && 0 <= j < |members|
      ensures GrewTo(us[i], us[j], [], ups[i], 1)
      ensures |AllTo(Offers, Uplink(net, members[i]), User(net, members[j]))| ==
              if Less(User(net, members[i]), User(net, members[j])) then 1 else 0
    {
      OffersMade(net, room, members[i], members[j]);
      DueWithoutRekey(net.server.socks[members[i]].log, us[j]);
      NothingToAnyone(Offers, us[j]);
    }
    UsersDistinct(net, room, members);
    GrowthOfRoom(us, none, ups, 1);
    NoOffers(none, us);
    if Whole(net, room) { AllOffersBetween(net, room, members); }
  }
}
