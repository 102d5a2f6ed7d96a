// The member view a client builds from the messages it receives (lib.rs), and
// how that view depends on where the Roster stands in the stream.

module RosterView {
  import opened Wire

  type View = map<UserId, string>

  /** Collecting a listed roster into a map: a later entry wins. */
  function RosterMap(peers: seq<PeerInfo>): View {
    if peers == [] then map[]
    else
      var last := peers[|peers| - 1];
      RosterMap(peers[..|peers| - 1])[last.userId := last.name]
  }

  /** What one server message does to the member view. */
  function ViewStep(v: View, m: ServerMsg): View {
    match m
    case Roster(peers) => RosterMap(peers)
    case PeerJoined(id, name) => v[id := name]
    case PeerLeft(id) => v - {id}
    case _ => v
  }

  /** The member view after a stream of messages. */
  function Fold(v: View, ms: seq<ServerMsg>): View {
    if ms == [] then v else ViewStep(Fold(v, ms[..|ms| - 1]), ms[|ms| - 1])
  }

  /** A message that says nothing about membership. */
  predicate Neutral(m: ServerMsg) {
    !m.Roster? && !m.PeerJoined? && !m.PeerLeft?
  }

  predicate AllNeutral(ms: seq<ServerMsg>) {
    forall i :: 0 <= i < |ms| ==> Neutral(ms[i])
  }

  predicate NoRoster(ms: seq<ServerMsg>) {
    forall i :: 0 <= i < |ms| ==> !ms[i].Roster?
  }

  /** The stream mentions the membership of `id` after any Roster in it. */
  predicate Announces(ms: seq<ServerMsg>, id: UserId) {
    exists i :: 0 <= i < |ms| && Announcement(ms[i], id)
  }

  predicate Announcement(m: ServerMsg, id: UserId) {
    (m.PeerJoined? && m.userId == id) || (m.PeerLeft? && m.userId == id)
  }

  /** The seq `peers` lists each entry of `v` exactly once, in some order. */
  predicate Lists(peers: seq<PeerInfo>, v: View) {
    && |peers| == |v|
    && (forall i :: 0 <= i < |peers| ==> peers[i].userId in v && v[peers[i].userId] == peers[i].name)
    && (forall i, j :: 0 <= i < j < |peers| ==> peers[i].userId != peers[j].userId)
  }

  lemma {:induction false} FoldAppend(v: View, a: seq<ServerMsg>, b: seq<ServerMsg>)
    ensures Fold(v, a + b) == Fold(Fold(v, a), b)
    decreases |b|
  {
    if b == [] {
      assert a + b == a;
    } else {
      var n := |b| - 1;
      assert (a + b)[..|a + b| - 1] == a + b[..n];
      FoldAppend(v, a, b[..n]);
    }
  }

  lemma {:induction false} FoldNeutral(v: View, ms: seq<ServerMsg>)
    requires AllNeutral(ms)
    ensures Fold(v, ms) == v
    decreases |ms|
  {
    if ms != [] { FoldNeutral(v, ms[..|ms| - 1]); }
  }

  lemma FoldOne(v: View, m: ServerMsg)
    ensures Fold(v, [m]) == ViewStep(v, m)
  {
    assert [m][..0] == [];
  }

  lemma FoldSnoc(v: View, ms: seq<ServerMsg>, m: ServerMsg)
    ensures Fold(v, ms + [m]) == ViewStep(Fold(v, ms), m)
  {
    assert (ms + [m])[..|ms|] == ms;
  }

  lemma {:induction false} FoldRoster(v: View, peers: seq<PeerInfo>, after: seq<ServerMsg>)
    ensures Fold(v, [Roster(peers)] + after) == Fold(RosterMap(peers), after)
  {
    FoldAppend(v, [Roster(peers)], after);
    FoldOne(v, Roster(peers));
  }

  /** Where two streams start from different views, the entry of an id that the
      stream announces no longer depends on the start; any other entry still does. */
  lemma {:induction false} FoldEntry(v: View, w: View, ms: seq<ServerMsg>, id: UserId)
    requires NoRoster(ms)
    ensures Announces(ms, id) ==> SameEntry(Fold(v, ms), Fold(w, ms), id)
    ensures !Announces(ms, id) ==> SameEntry(Fold(v, ms), v, id)
    decreases |ms|
  {
    if ms != [] {
      var front, last := ms[..|ms| - 1], ms[|ms| - 1];
      FoldEntry(v, w, front, id);
      assert Announces(ms, id) <==> Announces(front, id) || Announcement(last, id) by {
        if Announces(front, id) {
          var i :| 0 <= i < |front| && Announcement(front[i], id);
          assert Announcement(ms[i], id);
        }
      }
    }
  }

  predicate SameEntry(v: View, w: View, id: UserId) {
    (id in v <==> id in w) && (id in v ==> v[id] == w[id])
  }

  lemma SameEntriesSameView(v: View, w: View)
    requires forall id :: SameEntry(v, w, id)
    ensures v == w
  {
    forall id ensures (id in v <==> id in w) && (id in v ==> v[id] == w[id]) {
      assert SameEntry(v, w, id);
    }
  }

  /** A client that replaces its view on Roster agrees with a view that got the
      early announcements too exactly when each id announced only before the
      Roster ended up as the Roster lists it. */
  lemma {:induction false} EarlyAnnouncementsMatter(roster: View, early: seq<ServerMsg>, late: seq<ServerMsg>)
    requires NoRoster(early) && NoRoster(late)
    ensures Fold(roster, early + late) == Fold(roster, late) <==>
            forall id :: Announces(early, id) && !Announces(late, id) ==>
              SameEntry(Fold(roster, early), roster, id)
  {
    FoldAppend(roster, early, late);
    var mid := Fold(roster, early);
    forall id
      ensures SameEntry(Fold(mid, late), Fold(roster, late), id) <==>
              (Announces(early, id) && !Announces(late, id) ==> SameEntry(mid, roster, id))
    {
      FoldEntry(mid, roster, late, id);
      FoldEntry(roster, mid, late, id);
      FoldEntry(roster, roster, early, id);
    }
    if forall id :: Announces(early, id) && !Announces(late, id) ==> SameEntry(mid, roster, id) {
      SameEntriesSameView(Fold(mid, late), Fold(roster, late));
    }
  }

  /** Collecting a listing gives back the view it lists. */
  lemma {:induction false} RosterMapOfListing(peers: seq<PeerInfo>, v: View)
    requires Lists(peers, v)
    ensures RosterMap(peers) == v
    decreases |peers|
  {
    if peers == [] {
      assert v == map[];
    } else {
      var front, last := peers[..|peers| - 1], peers[|peers| - 1];
      var w := v - {last.userId};
      assert w.Keys == v.Keys - {last.userId};
      RosterMapOfListing(front, w);
      assert v == w[last.userId := last.name];
    }
  }
}
