// The mesh as it is written: wrapper objects in a map, updated in place. Each
// method is proved to do exactly what the function of the same name says.

module MeshObjects {
  import opened Wire
  import M = Mesh

  /** A peer's entry: the library object (number, descriptions, candidates it
      was given) and the wrapper's queue and flag. */
  class PeerConn {
    const id: nat
    var local: Option<Sdp>
    var remote: Option<Sdp>
    var outstanding: bool
    var handed: seq<Candidate>
    var pendingIce: seq<Candidate>
    var remoteSet: bool
    ghost var received: seq<Candidate>

    ghost function Value(): M.Pc
      reads this
    {
      M.Pc(id, local, remote, outstanding, handed, pendingIce, remoteSet, received)
    }

    constructor (id: nat)
      ensures Value() == M.FreshPc(id)
    {
      this.id := id;
      local, remote, outstanding, handed := None, None, false, [];
      pendingIce, remoteSet, received := [], false, [];
    }

    method AddOrQueueIce(c: Candidate)
      modifies this
      ensures Value() == M.AddOrQueueIce(old(Value()), c)
    {
      received := received + [c];
      if remoteSet {
        if c.parses { handed := handed + [c]; }
      } else {
        pendingIce := pendingIce + [c];
      }
    }

    method FlushIce()
      modifies this
      ensures Value() == M.FlushIce(old(Value()))
    {
      hide M.Parseable;
      M.NoneParseable();
      remoteSet := true;
      var pending := pendingIce;
      pendingIce := [];
      for i := 0 to |pending|
        invariant Value() == M.FlushIce(old(Value())).(handed := old(handed) + M.Parseable(pending[..i]))
      {
        assert pending[..i + 1] == pending[..i] + [pending[i]];
        M.ParseableSnoc(pending[..i], pending[i]);
        if pending[i].parses { handed := handed + [pending[i]]; }
      }
      assert pending[..|pending|] == pending;
    }

    method SetRemote(sdp: Sdp, isAnswer: bool)
      modifies this
      ensures Value() == old(Value()).(remote := Some(sdp), outstanding := if isAnswer then false else old(outstanding))
    {
      remote := Some(sdp);
      if isAnswer { outstanding := false; }
    }

    method SetLocal(sdp: Sdp, isOffer: bool)
      modifies this
      ensures Value() == old(Value()).(local := Some(sdp), outstanding := isOffer || old(outstanding))
    {
      local := Some(sdp);
      if isOffer { outstanding := true; }
    }
  }

  class Mesh {
    const myId: UserId
    var peers: map<UserId, PeerConn>
    var out: seq<ClientMsg>
    var made: nat
    ghost var closed: set<nat>
    ghost var abandoned: set<nat>

    /** Each entry owns its object. */
    ghost predicate Valid()
      reads this
    {
      forall p, q :: p in peers && q in peers && peers[p] == peers[q] ==> p == q
    }

    ghost function State(): M.MeshState
      reads this, peers.Values
    {
      M.MeshState(myId, map p | p in peers :: peers[p].Value(), closed, abandoned, made, out)
    }

    constructor (myId: UserId)
      ensures Valid() && State() == M.NewMesh(myId) && peers == map[]
    {
      this.myId := myId;
      peers, out, made := map[], [], 0;
      closed, abandoned := {}, {};
    }

    method OnLeft(peer: UserId)
      requires Valid()
      modifies this
      ensures Valid() && State() == M.OnLeft(old(State()), peer)
      ensures peers.Values <= old(peers.Values)
    {
      if peer in peers {
        closed := closed + {peers[peer].id};
        peers := peers - {peer};
        assert State().peers == old(State()).peers - {peer};
        forall p | p in peers ensures peers[p] in old(peers.Values) { assert old(peers)[p] == peers[p]; }
      }
    }

    method Ensure(peer: UserId, lib: M.Lib) returns (ok: bool)
      requires Valid()
      modifies this
      ensures Valid() && M.Outcome(State(), ok) == M.Ensure(old(State()), peer, lib)
      ensures fresh(peers.Values - old(peers.Values))
      ensures ok ==> peer in peers
    {
      if peer in peers { return true; }
      if M.NewPc in lib.fails { return false; }
      var pc := Make();
      if M.AddTrack in lib.fails {
        abandoned := abandoned + {pc.id};
        return false;
      }
      Insert(peer, pc);
      return true;
    }

    method Make() returns (pc: PeerConn)
      requires Valid()
      modifies this`made
      ensures Valid() && fresh(pc) && pc.Value() == M.FreshPc(old(made))
      ensures State() == old(State()).(next := old(made) + 1)
    {
      pc := new PeerConn(made);
      made := made + 1;
      assert State().peers == old(State()).peers;
    }

    method Insert(peer: UserId, pc: PeerConn)
      requires Valid() && pc !in peers.Values
      modifies this`peers
      ensures Valid() && peers == old(peers)[peer := pc]
      ensures State() == M.Put(old(State()), peer, pc.Value())
    {
      forall p | p in peers ensures peers[p] != pc { assert peers[p] in peers.Values; }
      peers := peers[peer := pc];
      assert State().peers == old(State()).peers[peer := pc.Value()];
    }

    method Offer(peer: UserId, lib: M.Lib) returns (ok: bool)
      requires Valid() && peer in peers
      modifies this`out, peers[peer]
      ensures Valid() && M.Outcome(State(), ok) == M.SendOffer(old(State()), peer, lib)
    {
      var p := peers[peer];
      if {M.DataChannel, M.CreateOffer, M.SetLocalOffer} * lib.fails != {} { return false; }
      var sdp := Sdp(p.id, None, lib.len);
      p.SetLocal(sdp, true);
      out := out + [ClientMsg.Offer(peer, sdp)];
      return true;
    }

    method OnPeer(peer: UserId, lib: M.Lib) returns (ok: bool)
      requires Valid()
      modifies this, peers.Values
      ensures Valid() && M.Outcome(State(), ok) == M.OnPeer(old(State()), peer, lib)
      ensures fresh(peers.Values - old(peers.Values))
    {
      ok := Ensure(peer, lib);
      if ok && Less(myId, peer) {
        ok := Offer(peer, lib);
      }
    }

    method OnOffer(from: UserId, sdp: Sdp, lib: M.Lib) returns (ok: bool)
      requires Valid()
      modifies this, peers.Values
      ensures Valid() && M.Outcome(State(), ok) == M.OnOffer(old(State()), from, sdp, lib)
      ensures fresh(peers.Values - old(peers.Values))
    {
      if from in peers && peers[from].remoteSet { OnLeft(from); }
      ok := Ensure(from, lib);
      if !ok { return false; }
      ok := Accept(from, sdp, lib);
    }

    /** Apply a remote offer to the peer's entry and answer it. */
    method Accept(from: UserId, sdp: Sdp, lib: M.Lib) returns (ok: bool)
      requires Valid() && from in peers
      modifies this`out, peers[from]
      ensures Valid() && M.Outcome(State(), ok) == M.Accept(old(State()), from, sdp, lib)
    {
      hide M.FlushIce, M.Put;
      if M.ParseOffer in lib.fails || M.SetRemoteOffer in lib.fails { return false; }
      ghost var m := State();
      ghost var pc := M.FlushIce(m.peers[from].(remote := Some(sdp)));
      ApplyRemote(from, sdp, false);
      PutTwice(m, from, pc, pc.(local := Some(Sdp(pc.id, Some(sdp.pc), lib.len))));
      if M.CreateAnswer in lib.fails || M.SetLocalAnswer in lib.fails { return false; }
      var answer := Sdp(peers[from].id, Some(sdp.pc), lib.len);
      SendAnswer(from, answer);
      return true;
    }

    /** Set the remote description, then release the queued candidates. */
    method ApplyRemote(from: UserId, sdp: Sdp, isAnswer: bool)
      requires Valid() && from in peers
      modifies peers[from]
      ensures Valid()
      ensures var pc := old(State()).peers[from].(remote := Some(sdp));
              State() == M.Put(old(State()), from, M.FlushIce(if isAnswer then pc.(outstanding := false) else pc))
    {
      hide M.FlushIce;
      var p := peers[from];
      p.SetRemote(sdp, isAnswer);
      p.FlushIce();
      assert State().peers == old(State()).peers[from := p.Value()];
    }

    method SendAnswer(from: UserId, answer: Sdp)
      requires Valid() && from in peers
      modifies this`out, peers[from]
      ensures Valid()
      ensures var m := old(State());
              State() == M.Put(m, from, m.peers[from].(local := Some(answer)))
                          .(out := m.out + [ClientMsg.Answer(from, answer)])
    {
      var p := peers[from];
      p.SetLocal(answer, false);
      out := out + [ClientMsg.Answer(from, answer)];
      assert State().peers == old(State()).peers[from := p.Value()];
    }

    method OnAnswer(from: UserId, sdp: Sdp, lib: M.Lib) returns (ok: bool)
      requires Valid()
      modifies peers.Values
      ensures Valid() && M.Outcome(State(), ok) == M.OnAnswer(old(State()), from, sdp, lib)
    {
      if from !in peers { return true; }
      if M.ParseAnswer in lib.fails || M.SetRemoteAnswer in lib.fails { return false; }
      ApplyRemote(from, sdp, true);
      return true;
    }

    method OnIce(from: UserId, c: Candidate)
      requires Valid()
      modifies peers.Values
      ensures Valid() && State() == M.OnIce(old(State()), from, c)
    {
      if from in peers { peers[from].AddOrQueueIce(c); }
    }

    /** Room-wide re-handshake over a snapshot of the peers; `order` is the order
        in which the map listed them. */
    method Rekey(libs: map<UserId, M.Lib>) returns (ok: bool, order: seq<UserId>)
      requires Valid()
      modifies this, peers.Values
      ensures Valid() && M.Outcome(State(), ok) == M.Rekey(old(State()), order, libs)
      ensures ListsKeys(order, old(peers).Keys)
      ensures fresh(peers.Values - old(peers.Values))
    {
      order := ListKeys(peers.Keys);
      ghost var goal := M.Rekey(State(), order, libs);
      var i := 0;
      while i < |order|
        invariant 0 <= i <= |order|
        invariant Valid() && fresh(peers.Values - old(peers.Values))
        invariant M.Rekey(State(), order[i..], libs) == goal
      {
        var id := order[i];
        assert order[i..][0] == id && order[i..][1..] == order[i + 1..];
        i := i + 1;
        if Less(myId, id) {
          OnLeft(id);
          ok := OnPeer(id, M.LibFor(libs, id));
          if !ok { return; }
        }
      }
      ok := true;
    }
  }

  lemma PutTwice(m: M.MeshState, p: UserId, a: M.Pc, b: M.Pc)
    ensures var m1 := M.Put(m, p, a);
            p in m1.peers && m1.peers[p] == a && m1.out == m.out && M.Put(m1, p, b) == M.Put(m, p, b)
  {
    assert m.peers[p := a][p := b] == m.peers[p := b];
  }

  /** `order` lists exactly the keys, each once. */
  ghost predicate ListsKeys(order: seq<UserId>, keys: set<UserId>) {
    && (forall k :: k in order <==> k in keys)
    && (forall i, j :: 0 <= i < j < |order| ==> order[i] != order[j])
  }

  method ListKeys(keys: set<UserId>) returns (order: seq<UserId>)
    ensures ListsKeys(order, keys)
  {
    order := [];
    var todo := keys;
    while todo != {}
      invariant todo <= keys
      invariant forall k :: k in order <==> k in keys && k !in todo
      invariant forall i, j :: 0 <= i < j < |order| ==> order[i] != order[j]
      decreases todo
    {
      var k :| k in todo;
      todo := todo - {k};
      order := order + [k];
    }
  }
}
