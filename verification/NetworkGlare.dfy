// In every run of the network an offer goes from the smaller id to the larger:
// no two clients ever offer to each other, whatever is lost, whoever reconnects,
// and whichever library calls fail.

module NetworkGlare {
  import opened Wire
  import opened Rooms
  import opened RoomsTheorems
  import opened Client
  import opened Links
  import opened Network
  import opened NetworkInvariant
  import opened NetworkTheorems
  import M = Mesh

  // ----- the server of a network run is a run of the server

  /** What the server went through. */
  ghost function Trace(es: seq<NetEvent>): seq<Event> {
    if es == [] then []
    else
      var front, e := es[..|es| - 1], es[|es| - 1];
      if !Possible(NetRun(front), e) then Trace(front)
      else if ServerSide(e) then Trace(front) + [ServerEvent(NetRun(front), e)]
      else if Opens(e) then Trace(front) + [Connect(e.s)]
      else Trace(front)
  }

  /** So everything that holds in every run of the server holds here. */
  lemma {:induction false} ServerIsARun(es: seq<NetEvent>)
    ensures NetRun(es).server == Rooms.Run(Trace(es))
  {
    hide Enabled, Step, Absorb, LocalOf;
    if es != [] {
      var front, e := es[..|es| - 1], es[|es| - 1];
      ServerIsARun(front);
      if Possible(NetRun(front), e) {
        if ServerSide(e) { RunSnoc(Trace(front), ServerEvent(NetRun(front), e)); }
        else if Opens(e) { RunSnoc(Trace(front), Connect(e.s)); }
      }
    }
  }

  // ----- what clients send

  lemma {:induction false} MeetAllStaysUp(m: M.MeshState, peers: seq<PeerInfo>, libs: map<UserId, M.Lib>)
    ensures M.StaysUp(m, MeetAll(m, peers, libs))
    decreases |peers|
  {
    hide M.OnPeer, M.LibFor;
    if peers != [] {
      var p := peers[0].userId;
      M.OnPeerStaysUp(m, p, M.LibFor(libs, p));
      MeetAllStaysUp(M.OnPeer(m, p, M.LibFor(libs, p)).m, peers[1..], libs);
    }
  }

  lemma OnMessageStaysUp(m: M.MeshState, msg: ServerMsg, order: seq<UserId>, libs: map<UserId, M.Lib>)
    ensures M.StaysUp(m, OnMessage(m, msg, order, libs))
  {
    hide M.OnPeer, M.OnOffer, M.Rekey, MeetAll, M.LibFor, M.FlushIce, M.AddOrQueueIce;
    match msg
    case Roster(peers) => MeetAllStaysUp(m, peers, libs);
    case PeerJoined(u, _) => M.OnPeerStaysUp(m, u, M.LibFor(libs, u));
    case Offer(from, sdp) => M.OnOfferStaysUp(m, from, sdp, M.LibFor(libs, from));
    case Rekey(_) => M.RekeyStaysUp(m, order, libs);
    case _ =>
  }

  ghost predicate AllUp(net: Net) {
    forall s :: s in net.peers && s in net.server.socks ==> M.OffersUp(User(net, s), Uplink(net, s))
  }

  lemma UpParts(me: UserId, a: seq<ClientMsg>, b: seq<ClientMsg>)
    ensures M.OffersUp(me, a + b) <==> M.OffersUp(me, a) && M.OffersUp(me, b)
  {
    if M.OffersUp(me, a + b) {
      forall i | 0 <= i < |a| && a[i].Offer? ensures Less(me, a[i].to) { assert (a + b)[i] == a[i]; }
      forall i | 0 <= i < |b| && b[i].Offer? ensures Less(me, b[i].to) { assert (a + b)[|a| + i] == b[i]; }
    }
  }

  lemma UpStep(net: Net, e: NetEvent, s: SockId)
    requires Inv(net) && AllUp(net) && s in NetStep(net, e).peers
    ensures s in NetStep(net, e).server.socks
    ensures M.OffersUp(User(NetStep(net, e), s), Uplink(NetStep(net, e), s))
  {
    hide Inv, Uplink;
    InvShape(net);
    InvStep(net, e);
    InvShape(NetStep(net, e));
    hide Shape, NetStep;
    ShapeOf(NetStep(net, e), s);
    if !Possible(net, e) { IdleStep(net, e); }
    else if Opens(e) { UpOnOpen(net, e, s); }
    else if ServerSide(e) { UpOnServer(net, e, s); }
    else { UpOnClient(net, e, s); }
  }

  lemma UpOnOpen(net: Net, e: NetEvent, s: SockId)
    requires Shape(net) && AllUp(net) && Possible(net, e) && Opens(e)
    requires s in NetStep(net, e).peers && s in NetStep(net, e).server.socks
    ensures M.OffersUp(User(NetStep(net, e), s), Uplink(NetStep(net, e), s))
  {
    hide NetStep, Possible, Shape;
    OpenNet(net, e);
    if s in net.peers { ShapeOf(net, s); }
  }

  lemma UpOnServer(net: Net, e: NetEvent, s: SockId)
    requires Shape(net) && AllUp(net) && Possible(net, e) && ServerSide(e)
    requires s in NetStep(net, e).peers && s in NetStep(net, e).server.socks
    ensures M.OffersUp(User(NetStep(net, e), s), Uplink(NetStep(net, e), s))
  {
    hide NetStep, Possible, Shape;
    SameKeys(net, e);
    ServerKeepsUplink(net, e, s);
  }

  /** The server's reading moves frames along an uplink, and changes none. */
  lemma ServerKeepsUplink(net: Net, e: NetEvent, s: SockId)
    requires Shape(net) && Possible(net, e) && ServerSide(e) && s in net.peers
    ensures var net' := NetStep(net, e);
            && s in net.server.socks && s in net'.peers && s in net'.server.socks
            && net'.peers[s].id == net.peers[s].id && Uplink(net', s) == Uplink(net, s)
            && net'.peers[s].mesh == net.peers[s].mesh.(out := net'.peers[s].mesh.out)
            && net'.peers[s].ill == net.peers[s].ill
            && LocalOf(net', s).seen == LocalOf(net, s).seen
  {
    hide NetStep, Possible, Shape, Enabled;
    ShapeOf(net, s);
    ServerNet(net, e, s);
    LocalMoved(net, e, s);
    assert Uplink(net, s) == LocalOf(net, s).past + LocalOf(net, s).mesh.out;
  }

  lemma UpOnClient(net: Net, e: NetEvent, s: SockId)
    requires Shape(net) && AllUp(net) && Possible(net, e) && (e.Deliver? || e.Say?)
    requires s in NetStep(net, e).peers && s in NetStep(net, e).server.socks
    ensures M.OffersUp(User(NetStep(net, e), s), Uplink(NetStep(net, e), s))
  {
    hide NetStep, Shape, OnMessage, AllTo, AllFrom, Harmed, Inserted, M.OffersUp;
    if e.Deliver? { DeliverNet(net, e); } else { SayNet(net, e); }
    ShapeOf(net, s);
    var k, m, m' := net.server.socks[s], net.peers[s].mesh, NetStep(net, e).peers[s].mesh;
    UpParts(m.me, k.submitted, m.out);
    UpParts(m.me, k.submitted, m'.out);
    if s == e.s {
      if e.Say? {
        InsertedUp(m.me, m.out, e.m, e.at);
      } else {
        var msg := k.log[net.peers[s].seen];
        OnMessageStaysUp(m, msg, e.order, Disciplined(m, msg, e.libs));
      }
    }
  }

  lemma InsertedUp(me: UserId, out: seq<ClientMsg>, m: ClientMsg, at: nat)
    requires at <= |out| && !m.Offer?
    ensures M.OffersUp(me, out) ==> M.OffersUp(me, Inserted(out, m, at))
  {
    if M.OffersUp(me, out) {
      InsertedOnly(out, m, at);
      forall i | 0 <= i < |Inserted(out, m, at)| && Inserted(out, m, at)[i].Offer?
        ensures Less(me, Inserted(out, m, at)[i].to)
      {
        assert Inserted(out, m, at)[i] in out;
      }
    }
  }

  lemma {:induction false} RunGoesUp(es: seq<NetEvent>)
    ensures AllUp(NetRun(es))
  {
    hide NetStep, Inv, Uplink, AllUp;
    if es == [] {
      NobodyUp();
    } else {
      var net, e := NetRun(es[..|es| - 1]), es[|es| - 1];
      RunGoesUp(es[..|es| - 1]);
      RunInv(es[..|es| - 1]);
      AllUpStep(net, e);
    }
  }

  lemma NobodyUp()
    ensures AllUp(EMPTY_NET)
  {
  }

  lemma AllUpStep(net: Net, e: NetEvent)
    requires Inv(net) && AllUp(net)
    ensures AllUp(NetStep(net, e))
  {
    hide NetStep, Inv;
    forall s | s in NetStep(net, e).peers && s in NetStep(net, e).server.socks
      ensures M.OffersUp(User(NetStep(net, e), s), Uplink(NetStep(net, e), s))
    {
      UpStep(net, e, s);
    }
  }

  // ----- what clients get

  /** In every run: what a client has ever wanted to send holds offers to larger
      ids only, and what a socket was ever sent, offers from smaller ids only. */
  lemma {:induction false} NoGlare(es: seq<NetEvent>, s: SockId)
    requires s in NetRun(es).peers && s in NetRun(es).server.socks
    ensures var net := NetRun(es);
            && M.OffersUp(User(net, s), Uplink(net, s))
            && forall i :: 0 <= i < |net.server.socks[s].log| && net.server.socks[s].log[i].Offer? ==>
                 Less(net.server.socks[s].log[i].from, User(net, s))
  {
    hide NetRun, Inv, AllGenuine;
    var net := NetRun(es);
    RunGoesUp(es);
    RunInv(es);
    InvShape(net);
    ServerIsARun(es);
    RelayProvenance(Trace(es));
    var log := net.server.socks[s].log;
    forall i | 0 <= i < |log| && log[i].Offer? ensures Less(log[i].from, User(net, s)) { FromBelow(net, s, i); }
  }

  lemma FromBelow(net: Net, s: SockId, i: nat)
    requires Shape(net) && AllUp(net) && AllGenuine(net.server) && s in net.peers && s in net.server.socks
    requires i < |net.server.socks[s].log| && net.server.socks[s].log[i].Offer?
    ensures Less(net.server.socks[s].log[i].from, User(net, s))
  {
    hide Shape, Uplink;
    ShapeOf(net, s);
    var st, m, to := net.server, net.server.socks[s].log[i], net.server.socks[s].phase.Who();
    assert Genuine(st, to, m);
    var said := ClientMsg.Offer(to.value.user, m.sdp);
    var t :| Said(st, t, Identity(to.value.room, m.from), said);
    HasPeer(net, t);
    ShapeOf(net, t);
    SubmittedUp(net, t);
    var j :| 0 <= j < |st.socks[t].submitted| && st.socks[t].submitted[j] == said;
  }

  lemma HasPeer(net: Net, t: SockId)
    requires Shape(net) && t in net.server.socks
    ensures t in net.peers
  {
  }

  lemma SubmittedUp(net: Net, t: SockId)
    requires AllUp(net) && t in net.peers && t in net.server.socks
    ensures M.OffersUp(User(net, t), net.server.socks[t].submitted)
  {
    UpParts(User(net, t), net.server.socks[t].submitted, net.peers[t].mesh.out);
  }
}
