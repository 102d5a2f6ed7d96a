// Who a client has an entry for, told from the messages it has handled: an entry
// is there from the first message that calls for it until its owner leaves.

module ClientHistory {
  import opened Wire
  import opened RosterView
  import opened Client
  import M = Mesh
  import H = MeshHistory

  /** The message calls for an entry for `x`: a listing or notice of `x`, or an
      offer from it. */
  predicate CallsFor(msg: ServerMsg, x: UserId) {
    match msg
    case Roster(peers) => x in RosterMap(peers)
    case PeerJoined(u, _) => u == x
    case Offer(from, _) => from == x
    case _ => false
  }

  /** Some message has called for an entry for `x` since `x` last left. */
  predicate Expected(ds: seq<Delivery>, x: UserId) {
    if ds == [] then false
    else
      var msg := ds[|ds| - 1].msg;
      if CallsFor(msg, x) then true
      else if msg == PeerLeft(x) then false
      else Expected(ds[..|ds| - 1], x)
  }

  /** Every rekey goes over a listing of entries there are. */
  ghost predicate ListsEntries(me: UserId, ds: seq<Delivery>) {
    forall i :: 0 <= i < |ds| && ds[i].msg.Rekey? ==>
      forall p :: p in ds[i].order ==> p in MeshAfter(me, ds[..i]).peers
  }

  lemma ListsEntriesBefore(me: UserId, ds: seq<Delivery>)
    requires ds != [] && ListsEntries(me, ds)
    ensures ListsEntries(me, ds[..|ds| - 1])
    ensures var d := ds[|ds| - 1];
            d.msg.Rekey? ==> forall p :: p in d.order ==> p in MeshAfter(me, ds[..|ds| - 1]).peers
  {
    var front := ds[..|ds| - 1];
    forall i | 0 <= i < |front| && front[i].msg.Rekey?
      ensures forall p :: p in front[i].order ==> p in MeshAfter(me, front[..i]).peers
    {
      assert front[..i] == ds[..i] && ds[i].msg.Rekey?;
    }
  }

  lemma {:induction false} RekeyAddsNone(m: M.MeshState, order: seq<UserId>, libs: map<UserId, M.Lib>, x: UserId)
    requires x !in order
    ensures x in M.Rekey(m, order, libs).m.peers ==> x in m.peers
    decreases |order|
  {
    hide M.OnPeer, M.LibFor;
    if order != [] {
      var p, lib := order[0], M.LibFor(libs, order[0]);
      OnPeerMeets(M.OnLeft(m, p), p, lib);
      RekeyAddsNone(M.RekeyOne(m, p, lib).m, order[1..], libs, x);
    }
  }

  lemma {:induction false} MeetAllAdds(m: M.MeshState, peers: seq<PeerInfo>, libs: map<UserId, M.Lib>, x: UserId)
    ensures x in MeetAll(m, peers, libs).peers ==> x in m.peers || x in RosterMap(peers)
    decreases |peers|
  {
    hide M.OnPeer, M.LibFor, RosterMap;
    RosterKeys(peers);
    if peers != [] {
      var p := peers[0].userId;
      OnPeerMeets(m, p, M.LibFor(libs, p));
      MeetAllAdds(M.OnPeer(m, p, M.LibFor(libs, p)).m, peers[1..], libs, x);
      RosterKeys(peers[1..]);
      if i :| 0 <= i < |peers[1..]| && peers[1..][i].userId == x { assert peers[i + 1].userId == x; }
    }
  }

  lemma MessageAdds(m: M.MeshState, msg: ServerMsg, order: seq<UserId>, libs: map<UserId, M.Lib>, x: UserId)
    requires msg.Rekey? ==> forall p :: p in order ==> p in m.peers
    ensures x in OnMessage(m, msg, order, libs).peers ==> CallsFor(msg, x) || (x in m.peers && msg != PeerLeft(x))
  {
    hide M.OnPeer, M.LibFor, M.Rekey, MeetAll, RosterMap, M.Accept;
    match msg
    case Roster(peers) => MeetAllAdds(m, peers, libs, x);
    case PeerJoined(u, _) => OnPeerMeets(m, u, M.LibFor(libs, u));
    case Rekey(_) => if x !in m.peers { RekeyAddsNone(m, order, libs, x); }
    case Offer(from, sdp) => if from != x { OfferAddsNone(m, from, sdp, M.LibFor(libs, from), x); }
    case _ =>
  }

  lemma OfferAddsNone(m: M.MeshState, from: UserId, sdp: Sdp, lib: M.Lib, x: UserId)
    requires from != x
    ensures x in M.OnOffer(m, from, sdp, lib).m.peers <==> x in m.peers
  {
  }

  lemma MessageKeeps(m: M.MeshState, msg: ServerMsg, order: seq<UserId>, libs: map<UserId, M.Lib>, x: UserId)
    requires Connects(M.LibFor(libs, x)) && (CallsFor(msg, x) || (x in m.peers && msg != PeerLeft(x)))
    ensures x in OnMessage(m, msg, order, libs).peers
  {
    hide M.OnPeer, M.LibFor, M.Rekey, MeetAll, RosterMap, M.Accept;
    match msg
    case Roster(peers) => MeetAllMeets(m, peers, libs, x);
    case PeerJoined(u, _) => OnPeerMeets(m, u, M.LibFor(libs, u));
    case Rekey(_) => RekeyKeeps(m, order, libs, x);
    case Offer(from, sdp) =>
      if from != x { OfferAddsNone(m, from, sdp, M.LibFor(libs, from), x); }
      else { OfferMeets(m, from, sdp, M.LibFor(libs, from)); }
    case _ =>
  }

  lemma OfferMeets(m: M.MeshState, from: UserId, sdp: Sdp, lib: M.Lib)
    requires Connects(lib)
    ensures from in M.OnOffer(m, from, sdp, lib).m.peers
  {
  }

  /** Whatever fails, a client has an entry for `x` only if some message has called
      for one since `x` last left: nothing is kept for those who are gone. */
  lemma {:induction false} EntryOnlyIfExpected(me: UserId, ds: seq<Delivery>, x: UserId)
    requires ListsEntries(me, ds)
    ensures x in MeshAfter(me, ds).peers ==> Expected(ds, x)
    decreases |ds|
  {
    hide OnMessage, ListsEntries, CallsFor;
    if ds != [] {
      var d := ds[|ds| - 1];
      ListsEntriesBefore(me, ds);
      EntryOnlyIfExpected(me, ds[..|ds| - 1], x);
      MessageAdds(MeshAfter(me, ds[..|ds| - 1]), d.msg, d.order, d.libs, x);
    }
  }

  /** If PeerConnections and tracks for `x` can always be made, it has one exactly
      then. */
  lemma {:induction false} EntryIffExpected(me: UserId, ds: seq<Delivery>, x: UserId)
    requires ListsEntries(me, ds) && forall i :: 0 <= i < |ds| ==> Connects(M.LibFor(ds[i].libs, x))
    ensures x in MeshAfter(me, ds).peers <==> Expected(ds, x)
    decreases |ds|
  {
    hide OnMessage, ListsEntries, CallsFor, M.LibFor;
    EntryOnlyIfExpected(me, ds, x);
    if ds != [] {
      var d, m := ds[|ds| - 1], MeshAfter(me, ds[..|ds| - 1]);
      ListsEntriesBefore(me, ds);
      EntryIffExpected(me, ds[..|ds| - 1], x);
      if CallsFor(d.msg, x) || (x in m.peers && d.msg != PeerLeft(x)) { MessageKeeps(m, d.msg, d.order, d.libs, x); }
    }
  }

  /** A departure leaves no entry behind, and closes the PeerConnection there was. */
  lemma {:induction false} DepartureCloses(me: UserId, ds: seq<Delivery>, x: UserId, order: seq<UserId>,
                                           libs: map<UserId, M.Lib>)
    ensures var m, m' := MeshAfter(me, ds), MeshAfter(me, ds + [Delivery(PeerLeft(x), order, libs)]);
            && m'.peers == m.peers - {x}
            && m'.closed == m.closed + (if x in m.peers then {m.peers[x].id} else {})
  {
    var d := Delivery(PeerLeft(x), order, libs);
    assert (ds + [d])[..|ds|] == ds;
    var m := MeshAfter(me, ds);
    if x !in m.peers { assert m.peers - {x} == m.peers && m.closed + {} == m.closed; }
  }

  // ----- the mesh of a client is in a run of the mesh

  /** What a message means for the mesh. */
  function EventsOf(d: Delivery): seq<M.MeshEvent> {
    match d.msg
    case Roster(peers) => seq(|peers|, i requires 0 <= i < |peers| => Seen(peers[i].userId, d.libs))
    case PeerJoined(u, _) => [Seen(u, d.libs)]
    case PeerLeft(u) => [M.PeerGone(u)]
    case Offer(from, sdp) => [M.OfferIn(from, sdp, M.LibFor(d.libs, from))]
    case Answer(from, sdp) => [M.AnswerIn(from, sdp, M.LibFor(d.libs, from))]
    case Ice(from, c) => [M.IceIn(from, c)]
    case Rekey(_) => [M.RekeyAll(d.order, d.libs)]
    case _ => []
  }

  function Seen(u: UserId, libs: map<UserId, M.Lib>): M.MeshEvent {
    M.PeerSeen(u, M.LibFor(libs, u))
  }

  function AllEvents(ds: seq<Delivery>): seq<M.MeshEvent> {
    if ds == [] then [] else AllEvents(ds[..|ds| - 1]) + EventsOf(ds[|ds| - 1])
  }

  /** The mesh after more events. */
  function Steps(m: M.MeshState, es: seq<M.MeshEvent>): M.MeshState
    decreases |es|
  {
    if es == [] then m else Steps(M.Step(m, es[0]), es[1..])
  }

  lemma {:induction false} RunSteps(me: UserId, es: seq<M.MeshEvent>, more: seq<M.MeshEvent>)
    ensures M.Run(me, es + more) == Steps(M.Run(me, es), more)
    decreases |more|
  {
    hide M.Step;
    if more == [] {
      assert es + more == es;
    } else {
      assert es + more == (es + [more[0]]) + more[1..] && (es + [more[0]])[..|es|] == es;
      RunSteps(me, es + [more[0]], more[1..]);
    }
  }

  lemma {:induction false} MeetAllSteps(m: M.MeshState, peers: seq<PeerInfo>, libs: map<UserId, M.Lib>)
    ensures MeetAll(m, peers, libs) == Steps(m, EventsOf(Delivery(Roster(peers), [], libs)))
    decreases |peers|
  {
    hide M.OnPeer, M.LibFor;
    var es := EventsOf(Delivery(Roster(peers), [], libs));
    if peers != [] {
      assert es[1..] == EventsOf(Delivery(Roster(peers[1..]), [], libs));
      assert M.Step(m, es[0]) == M.OnPeer(m, peers[0].userId, M.LibFor(libs, peers[0].userId)).m;
      MeetAllSteps(M.OnPeer(m, peers[0].userId, M.LibFor(libs, peers[0].userId)).m, peers[1..], libs);
    }
  }

  lemma MessageSteps(m: M.MeshState, d: Delivery)
    ensures OnMessage(m, d.msg, d.order, d.libs) == Steps(m, EventsOf(d))
  {
    hide M.Step, M.OnPeer, M.OnOffer, M.OnAnswer, M.OnIce, M.OnLeft, M.Rekey, MeetAll;
    if d.msg.Roster? {
      MeetAllSteps(m, d.msg.peers, d.libs);
      assert EventsOf(d) == EventsOf(Delivery(d.msg, [], d.libs));
    } else if EventsOf(d) != [] {
      StepsOne(m, EventsOf(d)[0]);
      assert EventsOf(d) == [EventsOf(d)[0]];
      OneStep(m, d);
    }
  }

  lemma StepsOne(m: M.MeshState, e: M.MeshEvent)
    ensures Steps(m, [e]) == M.Step(m, e)
  {
    assert [e][1..] == [];
  }

  lemma OneStep(m: M.MeshState, d: Delivery)
    requires !d.msg.Roster? && EventsOf(d) != []
    ensures OnMessage(m, d.msg, d.order, d.libs) == M.Step(m, EventsOf(d)[0])
  {
    hide M.OnPeer, M.OnOffer, M.OnAnswer, M.OnIce, M.OnLeft, M.Rekey;
  }

  /** A client's mesh is in a state of a run of the mesh, in which each message is
      the event it stands for; so all that holds in every run holds of it. */
  lemma {:induction false} MeshIsARun(me: UserId, ds: seq<Delivery>)
    ensures MeshAfter(me, ds) == M.Run(me, AllEvents(ds))
    decreases |ds|
  {
    hide OnMessage, EventsOf, M.Step;
    if ds != [] {
      var d := ds[|ds| - 1];
      MeshIsARun(me, ds[..|ds| - 1]);
      MessageSteps(MeshAfter(me, ds[..|ds| - 1]), d);
      RunSteps(me, AllEvents(ds[..|ds| - 1]), EventsOf(d));
    }
  }

  /** Once a description of `x` has been applied, the library has been handed
      exactly the candidates of `x` that arrived for the entry and that parse. */
  lemma {:induction false} CandidatesHandedOver(me: UserId, ds: seq<Delivery>, x: UserId)
    requires x in MeshAfter(me, ds).peers
    ensures var pc, arrived := MeshAfter(me, ds).peers[x], H.Arrived(me, AllEvents(ds), x);
            if H.Applied(me, AllEvents(ds), x).Some? then pc.handed == M.Parseable(arrived) && pc.pending == []
            else pc.handed == [] && pc.pending == arrived
  {
    MeshIsARun(me, ds);
    H.IceQueueExact(me, AllEvents(ds), x);
  }
}
