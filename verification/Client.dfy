// How the engine loop (apps/companion-core/src/lib.rs) feeds server messages to
// the member view and to the mesh, and the offers and answers in a stream.

module Client {
  import opened Wire
  import opened RosterView
  import M = Mesh

  /** `on_peer` for every listed peer; errors are ignored. */
  function MeetAll(m: M.MeshState, peers: seq<PeerInfo>, libs: map<UserId, M.Lib>): M.MeshState
    decreases |peers|
  {
    if peers == [] then m
    else
      var p := peers[0].userId;
      MeetAll(M.OnPeer(m, p, M.LibFor(libs, p)).m, peers[1..], libs)
  }

  /** What the engine does to the mesh on one server message. `order` is the
      order in which a rekey lists the peers. */
  function OnMessage(m: M.MeshState, msg: ServerMsg, order: seq<UserId>, libs: map<UserId, M.Lib>): M.MeshState {
    match msg
    case Roster(peers) => MeetAll(m, peers, libs)
    case PeerJoined(u, _) => M.OnPeer(m, u, M.LibFor(libs, u)).m
    case PeerLeft(u) => M.OnLeft(m, u)
    case Offer(from, sdp) => M.OnOffer(m, from, sdp, M.LibFor(libs, from)).m
    case Answer(from, sdp) => M.OnAnswer(m, from, sdp, M.LibFor(libs, from)).m
    case Ice(from, c) => M.OnIce(m, from, c)
    case Rekey(_) => M.Rekey(m, order, libs).m
    case _ => m
  }

  // ----- everyone in the member view has a PeerConnection

  datatype Delivery = Delivery(msg: ServerMsg, order: seq<UserId>, libs: map<UserId, M.Lib>)

  /** Neither making a PeerConnection nor adding the track fails. */
  predicate Connects(lib: M.Lib) {
    M.NewPc !in lib.fails && M.AddTrack !in lib.fails
  }

  function MeshAfter(me: UserId, ds: seq<Delivery>): M.MeshState {
    if ds == [] then M.NewMesh(me)
    else
      var d := ds[|ds| - 1];
      OnMessage(MeshAfter(me, ds[..|ds| - 1]), d.msg, d.order, d.libs)
  }

  function MembersAfter(ds: seq<Delivery>): View {
    if ds == [] then map[] else ViewStep(MembersAfter(ds[..|ds| - 1]), ds[|ds| - 1].msg)
  }

  lemma OnPeerMeets(m: M.MeshState, p: UserId, lib: M.Lib)
    ensures m.peers.Keys <= M.OnPeer(m, p, lib).m.peers.Keys <= m.peers.Keys + {p}
    ensures Connects(lib) ==> p in M.OnPeer(m, p, lib).m.peers
  {
    var r := M.Ensure(m, p, lib);
    assert m.peers.Keys <= r.m.peers.Keys <= m.peers.Keys + {p};
  }

  lemma {:induction false} MeetAllMeets(m: M.MeshState, peers: seq<PeerInfo>, libs: map<UserId, M.Lib>, x: UserId)
    ensures m.peers.Keys <= MeetAll(m, peers, libs).peers.Keys
    ensures x in RosterMap(peers) && Connects(M.LibFor(libs, x)) ==> x in MeetAll(m, peers, libs).peers
    decreases |peers|
  {
    hide M.OnPeer, M.LibFor, Connects;
    RosterKeys(peers);
    if peers != [] {
      var p := peers[0].userId;
      OnPeerMeets(m, p, M.LibFor(libs, p));
      MeetAllMeets(M.OnPeer(m, p, M.LibFor(libs, p)).m, peers[1..], libs, x);
      RosterKeys(peers[1..]);
      if i :| 0 < i < |peers| && peers[i].userId == x { assert peers[1..][i - 1] == peers[i]; }
    }
  }

  lemma {:induction false} RosterKeys(peers: seq<PeerInfo>)
    ensures forall u :: u in RosterMap(peers) <==> exists i :: 0 <= i < |peers| && peers[i].userId == u
    decreases |peers|
  {
    if peers != [] {
      var front := peers[..|peers| - 1];
      RosterKeys(front);
      forall u ensures u in RosterMap(peers) <==> exists i :: 0 <= i < |peers| && peers[i].userId == u {
        if u in RosterMap(front) {
          var i :| 0 <= i < |front| && front[i].userId == u;
          assert peers[i].userId == u;
        }
        if i :| 0 <= i < |peers| && peers[i].userId == u {
          if i < |front| { assert front[i].userId == u; }
        }
      }
    }
  }

  lemma OnOfferKeeps(m: M.MeshState, p: UserId, sdp: Sdp, lib: M.Lib, x: UserId)
    requires x == p ==> Connects(lib)
    ensures x in m.peers ==> x in M.OnOffer(m, p, sdp, lib).m.peers
  {
    var m1 := if p in m.peers && m.peers[p].remoteSet then M.OnLeft(m, p) else m;
    assert m.peers.Keys <= m1.peers.Keys + {p};
    assert m1.peers.Keys <= M.Ensure(m1, p, lib).m.peers.Keys;
  }

  lemma {:induction false} RekeyKeeps(m: M.MeshState, order: seq<UserId>, libs: map<UserId, M.Lib>, x: UserId)
    requires Connects(M.LibFor(libs, x))
    ensures x in m.peers ==> x in M.Rekey(m, order, libs).m.peers
    decreases |order|
  {
    if order != [] {
      var p, lib := order[0], M.LibFor(libs, order[0]);
      RekeyOneKeeps(m, p, lib, x);
      RekeyKeeps(M.RekeyOne(m, p, lib).m, order[1..], libs, x);
    }
  }

  lemma RekeyOneKeeps(m: M.MeshState, p: UserId, lib: M.Lib, x: UserId)
    requires x == p ==> Connects(lib)
    ensures x in m.peers ==> x in M.RekeyOne(m, p, lib).m.peers
  {
    hide M.OnPeer;
    OnPeerMeets(M.OnLeft(m, p), p, lib);
    assert m.peers.Keys <= M.OnLeft(m, p).peers.Keys + {p};
  }

  /** Whatever the server sends and whichever other library calls fail, an id in
      the member view has an entry in the mesh, if connecting to it never fails. */
  lemma {:induction false} MembersHaveLinks(me: UserId, ds: seq<Delivery>, x: UserId)
    requires forall i :: 0 <= i < |ds| ==> Connects(M.LibFor(ds[i].libs, x))
    ensures x in MembersAfter(ds) ==> x in MeshAfter(me, ds).peers
  {
    hide M.LibFor, M.Rekey, M.OnPeer, M.OnOffer, M.Ensure, MeetAll, Connects, RosterMap;
    if ds != [] {
      var before, d := ds[..|ds| - 1], ds[|ds| - 1];
      MembersHaveLinks(me, before, x);
      var m := MeshAfter(me, before);
      match d.msg
      case Roster(peers) => MeetAllMeets(m, peers, d.libs, x);
      case PeerJoined(u, _) => OnPeerMeets(m, u, M.LibFor(d.libs, u));
      case Offer(from, sdp) => OnOfferKeeps(m, from, sdp, M.LibFor(d.libs, from), x);
      case Rekey(_) => RekeyKeeps(m, d.order, d.libs, x);
      case _ =>
    }
  }

  // ----- offers and answers in a stream

  datatype Signal = Offers | Answers

  function SdpTo(k: Signal, m: ClientMsg, x: UserId): seq<Sdp> {
    if k.Offers? && m.Offer? && m.to == x then [m.sdp]
    else if k.Answers? && m.Answer? && m.to == x then [m.sdp]
    else []
  }

  function SdpFrom(k: Signal, m: ServerMsg, x: UserId): seq<Sdp> {
    if k.Offers? && m.Offer? && m.from == x then [m.sdp]
    else if k.Answers? && m.Answer? && m.from == x then [m.sdp]
    else []
  }

  /** The offers (answers) to `x` among the messages a client sent, in order. */
  function AllTo(k: Signal, ms: seq<ClientMsg>, x: UserId): seq<Sdp> {
    if ms == [] then [] else AllTo(k, ms[..|ms| - 1], x) + SdpTo(k, ms[|ms| - 1], x)
  }

  /** The offers (answers) stamped `x` among the messages a client got. */
  function AllFrom(k: Signal, ms: seq<ServerMsg>, x: UserId): seq<Sdp> {
    if ms == [] then [] else AllFrom(k, ms[..|ms| - 1], x) + SdpFrom(k, ms[|ms| - 1], x)
  }

  lemma {:induction false} AllToAppend(k: Signal, a: seq<ClientMsg>, b: seq<ClientMsg>, x: UserId)
    ensures AllTo(k, a + b, x) == AllTo(k, a, x) + AllTo(k, b, x)
    decreases |b|
  {
    if b == [] {
      assert a + b == a;
    } else {
      assert (a + b)[..|a + b| - 1] == a + b[..|b| - 1];
      AllToAppend(k, a, b[..|b| - 1], x);
    }
  }

  lemma {:induction false} AllFromAppend(k: Signal, a: seq<ServerMsg>, b: seq<ServerMsg>, x: UserId)
    ensures AllFrom(k, a + b, x) == AllFrom(k, a, x) + AllFrom(k, b, x)
    decreases |b|
  {
    if b == [] {
      assert a + b == a;
    } else {
      assert (a + b)[..|a + b| - 1] == a + b[..|b| - 1];
      AllFromAppend(k, a, b[..|b| - 1], x);
    }
  }

  lemma AllToOne(k: Signal, m: ClientMsg, x: UserId)
    ensures AllTo(k, [m], x) == SdpTo(k, m, x)
  {
    assert [m][..0] == [];
  }

  lemma AllFromSnoc(k: Signal, ms: seq<ServerMsg>, m: ServerMsg, x: UserId)
    ensures AllFrom(k, ms + [m], x) == AllFrom(k, ms, x) + SdpFrom(k, m, x)
  {
    assert (ms + [m])[..|ms|] == ms;
  }

  // ----- mentions: the messages on which the engine calls on_peer

  function Listed(peers: seq<PeerInfo>, x: UserId): nat {
    if peers == [] then 0
    else Listed(peers[..|peers| - 1], x) + (if peers[|peers| - 1].userId == x then 1 else 0)
  }

  function MentionsIn(m: ServerMsg, x: UserId): nat {
    match m
    case Roster(peers) => Listed(peers, x)
    case PeerJoined(u, _) => if u == x then 1 else 0
    case _ => 0
  }

  function Mentions(ms: seq<ServerMsg>, x: UserId): nat {
    if ms == [] then 0 else Mentions(ms[..|ms| - 1], x) + MentionsIn(ms[|ms| - 1], x)
  }

  /** The offers a client owes `x` for what it has received: one per mention, and
      one per rekey after a mention. */
  function Due(ms: seq<ServerMsg>, x: UserId): nat {
    if ms == [] then 0
    else
      var before, m := ms[..|ms| - 1], ms[|ms| - 1];
      Due(before, x) + MentionsIn(m, x) + (if m.Rekey? && Mentions(before, x) > 0 then 1 else 0)
  }

  lemma {:induction false} DueIffMentioned(ms: seq<ServerMsg>, x: UserId)
    ensures Due(ms, x) >= Mentions(ms, x)
    ensures Due(ms, x) > 0 <==> Mentions(ms, x) > 0
    decreases |ms|
  {
    if ms != [] { DueIffMentioned(ms[..|ms| - 1], x); }
  }
}
