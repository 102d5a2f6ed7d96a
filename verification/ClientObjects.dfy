// The engine loop's handling of one server message as it is written
// (apps/companion-core/src/lib.rs): the member table and the mesh are updated in
// place.

module ClientObjects {
  import opened Wire
  import opened RosterView
  import opened Client
  import M = Mesh
  import opened MeshObjects

  datatype Member = Member(name: string, badge: Option<string>, speaking: bool)

  type Members = map<UserId, Member>

  /** The member view: ids and names. */
  function NamesOf(ms: Members): View {
    map u | u in ms :: ms[u].name
  }

  /** A freshly listed or announced member has no badge and is not speaking. */
  function Newcomer(name: string): Member {
    Member(name, None, false)
  }

  function Collected(peers: seq<PeerInfo>): Members {
    if peers == [] then map[]
    else
      var last := peers[|peers| - 1];
      Collected(peers[..|peers| - 1])[last.userId := Newcomer(last.name)]
  }

  function MembersStep(ms: Members, msg: ServerMsg): Members {
    match msg
    case Roster(peers) => Collected(peers)
    case PeerJoined(u, name) => ms[u := Newcomer(name)]
    case PeerLeft(u) => ms - {u}
    case Ptt(u, active) => if u in ms then ms[u := ms[u].(speaking := active)] else ms
    case _ => ms
  }

  lemma {:induction false} CollectedNames(peers: seq<PeerInfo>)
    ensures NamesOf(Collected(peers)) == RosterMap(peers)
    decreases |peers|
  {
    if peers != [] { CollectedNames(peers[..|peers| - 1]); }
  }

  /** The names in the member table follow the view rules, whatever else the
      table records about the members. */
  lemma {:induction false} NamesFollowView(ms: Members, msg: ServerMsg)
    ensures NamesOf(MembersStep(ms, msg)) == ViewStep(NamesOf(ms), msg)
  {
    if msg.Roster? { CollectedNames(msg.peers); }
  }

  function TableAfter(ms: seq<ServerMsg>): Members {
    if ms == [] then map[] else MembersStep(TableAfter(ms[..|ms| - 1]), ms[|ms| - 1])
  }

  /** The last that was said of `u`'s voice since it was listed, announced, or gone. */
  predicate LastVoice(ms: seq<ServerMsg>, u: UserId) {
    if ms == [] then false
    else
      match ms[|ms| - 1]
      case Ptt(who, active) => if who == u then active else LastVoice(ms[..|ms| - 1], u)
      case Roster(_) => false
      case PeerJoined(who, _) => who != u && LastVoice(ms[..|ms| - 1], u)
      case PeerLeft(who) => who != u && LastVoice(ms[..|ms| - 1], u)
      case _ => LastVoice(ms[..|ms| - 1], u)
  }

  lemma {:induction false} CollectedFresh(peers: seq<PeerInfo>)
    ensures forall u :: u in Collected(peers) ==> Collected(peers)[u] == Newcomer(Collected(peers)[u].name)
    decreases |peers|
  {
    if peers != [] { CollectedFresh(peers[..|peers| - 1]); }
  }

  /** After any messages the table has the names of the view, and shows a member as
      speaking if and only if that is the last that was said of it since it came. */
  lemma {:induction false} TableIs(ms: seq<ServerMsg>)
    ensures var table := TableAfter(ms);
            && NamesOf(table) == Fold(map[], ms)
            && forall u :: u in table ==> (table[u].speaking <==> LastVoice(ms, u)) && table[u].badge.None?
    decreases |ms|
  {
    if ms != [] {
      var front, msg := ms[..|ms| - 1], ms[|ms| - 1];
      TableIs(front);
      NamesFollowView(TableAfter(front), msg);
      if msg.Roster? { CollectedFresh(msg.peers); }
    }
  }

  class ClientLoop {
    const mesh: Mesh
    var members: Members

    constructor (me: UserId)
      ensures fresh(mesh) && mesh.Valid() && mesh.State() == M.NewMesh(me) && members == map[]
    {
      mesh := new Mesh(me);
      members := map[];
    }

    /** One message from the server. `order` is the order in which a rekey lists
        the peers; errors of the mesh are ignored, as in the source. */
    method Handle(msg: ServerMsg, libs: map<UserId, M.Lib>) returns (order: seq<UserId>)
      requires mesh.Valid()
      modifies this, mesh, mesh.peers.Values
      ensures mesh.Valid() && mesh.State() == OnMessage(old(mesh.State()), msg, order, libs)
      ensures members == MembersStep(old(members), msg)
      ensures msg.Rekey? ==> ListsKeys(order, old(mesh.peers).Keys)
      ensures fresh(mesh.peers.Values - old(mesh.peers.Values))
    {
      hide OnMessage, MembersStep, ListsKeys;
      Track(msg);
      order := Signal(msg, libs);
    }

    /** What a message does to the member table. */
    method Track(msg: ServerMsg)
      modifies this`members
      ensures members == MembersStep(old(members), msg)
    {
      match msg {
        case Roster(peers) => members := Collect(peers);
        case PeerJoined(u, name) => members := members[u := Newcomer(name)];
        case PeerLeft(u) => members := members - {u};
        case Ptt(u, active) =>
          if u in members { members := members[u := members[u].(speaking := active)]; }
        case _ =>
      }
    }

    /** What a message does to the mesh. */
    method Signal(msg: ServerMsg, libs: map<UserId, M.Lib>) returns (order: seq<UserId>)
      requires mesh.Valid()
      modifies mesh, mesh.peers.Values
      ensures mesh.Valid() && mesh.State() == OnMessage(old(mesh.State()), msg, order, libs)
      ensures msg.Rekey? ==> ListsKeys(order, old(mesh.peers).Keys)
      ensures fresh(mesh.peers.Values - old(mesh.peers.Values))
    {
      hide M.OnPeer, M.OnOffer, M.OnAnswer, M.OnIce, M.OnLeft, M.Rekey, MeetAll, ListsKeys;
      order := [];
      match msg {
        case Roster(peers) => Meet(peers, libs);
        case PeerJoined(u, name) => var _ := mesh.OnPeer(u, M.LibFor(libs, u));
        case PeerLeft(u) => mesh.OnLeft(u);
        case Offer(from, sdp) => var _ := mesh.OnOffer(from, sdp, M.LibFor(libs, from));
        case Answer(from, sdp) => var _ := mesh.OnAnswer(from, sdp, M.LibFor(libs, from));
        case Ice(from, c) => mesh.OnIce(from, c);
        case Rekey(_) =>
          var _, listed := mesh.Rekey(libs);
          order := listed;
        case _ =>
      }
    }

    method Collect(peers: seq<PeerInfo>) returns (ms: Members)
      ensures ms == Collected(peers)
    {
      ms := map[];
      for i := 0 to |peers|
        invariant ms == Collected(peers[..i])
      {
        assert peers[..i + 1][..i] == peers[..i];
        ms := ms[peers[i].userId := Newcomer(peers[i].name)];
      }
      assert peers[..|peers|] == peers;
    }

    /** `on_peer` for every listed peer. */
    method Meet(peers: seq<PeerInfo>, libs: map<UserId, M.Lib>)
      requires mesh.Valid()
      modifies mesh, mesh.peers.Values
      ensures mesh.Valid() && mesh.State() == MeetAll(old(mesh.State()), peers, libs)
      ensures fresh(mesh.peers.Values - old(mesh.peers.Values))
    {
      ghost var goal := MeetAll(mesh.State(), peers, libs);
      assert peers[0..] == peers;
      for i := 0 to |peers|
        invariant mesh.Valid() && fresh(mesh.peers.Values - old(mesh.peers.Values))
        invariant MeetAll(mesh.State(), peers[i..], libs) == goal
      {
        hide M.OnPeer;
        assert peers[i..][0] == peers[i] && peers[i..][1..] == peers[i + 1..];
        var _ := mesh.OnPeer(peers[i].userId, M.LibFor(libs, peers[i].userId));
      }
    }
  }
}
