// The signaling link of the client engine (apps/companion-core/src/lib.rs): one
// connection at a time, automatic reconnection with backoff, and manual resume.

module EngineLink {
  import opened Wire
  import opened Arith

  const FIRST_WAIT: nat := 2
  const LONGEST_WAIT: nat := 30
  const LAST_GENERATION: nat := 0xFFFF_FFFF

  type ConnId = nat

  /** The loop's variables. Connections are numbered; `sent` is what was sent on
      each, and `signals` the up/down events shown to the user. */
  datatype Link = Link(curIn: Option<ConnId>, curOut: Option<ConnId>, nextTry: Option<nat>, backoff: nat, keyGen: nat,
                       signals: seq<bool>, conns: nat, sent: map<ConnId, seq<ClientMsg>>, running: bool)

  function Start(join: ClientMsg): Link {
    Link(Some(0), Some(0), None, FIRST_WAIT, 1, [], 1, map[0 := [join]], true)
  }

  /** What wakes the loop up. `Uplink` stands for every message the mesh or the
      user wants sent; `Stop` for a full room or the end of the commands. */
  datatype Event =
    | Lost(now: nat)
    | Attempt(now: nat, connected: bool)
    | Resume(now: nat)
    | Uplink(m: ClientMsg)
    | Rekeyed
    | Stop

  predicate Possible(l: Link, e: Event) {
    l.running &&
    match e
    case Lost(_) => l.curIn.Some?
    case Attempt(now, _) => l.curIn.None? && l.nextTry.Some? && l.nextTry.value <= now
    case Rekeyed => l.curIn.Some?
    case _ => true
  }

  function Send(l: Link, m: ClientMsg): Link {
    if l.curOut.Some? && l.curOut.value in l.sent
    then l.(sent := l.sent[l.curOut.value := l.sent[l.curOut.value] + [m]]) else l
  }

  function Step(join: ClientMsg, l: Link, e: Event): Link {
    if !Possible(l, e) then l
    else
      match e
      case Lost(now) =>
        l.(curIn := None, curOut := None, backoff := FIRST_WAIT, nextTry := Some(now + FIRST_WAIT),
           signals := l.signals + [false])
      case Attempt(now, connected) =>
        if connected then
          l.(curIn := Some(l.conns), curOut := Some(l.conns), nextTry := None, backoff := FIRST_WAIT,
             signals := l.signals + [true], conns := l.conns + 1, sent := l.sent[l.conns := [join]])
        else
          var wait := Least(l.backoff * 2, LONGEST_WAIT);
          l.(backoff := wait, nextTry := Some(now + wait))
      case Resume(now) => if l.curIn.None? then l.(backoff := FIRST_WAIT, nextTry := Some(now)) else l
      case Uplink(m) => Send(l, m)
      case Rekeyed => l.(keyGen := Least(l.keyGen + 1, LAST_GENERATION))
      case Stop => l.(running := false)
  }

  function Run(join: ClientMsg, es: seq<Event>): Link {
    if es == [] then Start(join) else Step(join, Run(join, es[..|es| - 1]), es[|es| - 1])
  }

  // ----- what a run says

  /** Failed attempts since the link was last lost or resumed by hand. */
  function Failures(join: ClientMsg, es: seq<Event>): nat {
    if es == [] then 0
    else FailuresAfter(Failures(join, es[..|es| - 1]), Run(join, es[..|es| - 1]), es[|es| - 1])
  }

  function FailuresAfter(k: nat, l: Link, e: Event): nat {
    if !Possible(l, e) then k
    else
      match e
      case Lost(_) => 0
      case Attempt(_, connected) => if connected then 0 else k + 1
      case Resume(_) => if l.curIn.None? then 0 else k
      case _ => k
  }

  /** Rekeys handled so far. */
  function Rekeys(join: ClientMsg, es: seq<Event>): nat {
    if es == [] then 0
    else
      Rekeys(join, es[..|es| - 1])
      + (if es[|es| - 1].Rekeyed? && Possible(Run(join, es[..|es| - 1]), es[|es| - 1]) then 1 else 0)
  }

  function Pow2(n: nat): nat {
    if n == 0 then 1 else 2 * Pow2(n - 1)
  }

  /** The messages meant for connection `c`: those that came while it was current. */
  function MeantFor(join: ClientMsg, es: seq<Event>, c: ConnId): seq<ClientMsg> {
    if es == [] then []
    else
      var front, e := es[..|es| - 1], es[|es| - 1];
      MeantFor(join, front, c)
      + (if e.Uplink? && Run(join, front).running && Run(join, front).curIn == Some(c) then [e.m] else [])
  }

  /** Up and down alternate, starting with down. */
  predicate Alternating(signals: seq<bool>) {
    forall i :: 0 <= i < |signals| ==> (signals[i] <==> i % 2 == 1)
  }

  /** Both halves of the link belong to one connection, or both are gone; it is
      down exactly when a retry is scheduled; and what the user was shown says so. */
  ghost predicate LinkOk(l: Link) {
    && l.curIn == l.curOut
    && (l.curIn.None? <==> l.nextTry.Some?)
    && Alternating(l.signals)
    && (l.curIn.Some? <==> |l.signals| % 2 == 0)
    && (forall c: ConnId :: c in l.sent <==> c < l.conns)
    && (l.curIn.Some? ==> l.curIn.value == l.conns - 1)
  }

  lemma StepLinkOk(join: ClientMsg, l: Link, e: Event)
    requires LinkOk(l)
    ensures LinkOk(Step(join, l, e))
  {
    var l' := Step(join, l, e);
    if Possible(l, e) && (e.Lost? || (e.Attempt? && e.connected)) {
      assert l'.signals == l.signals + [e.Attempt?];
    }
  }

  /** In every run the two halves agree, a retry is scheduled exactly while the
      link is down, and the events shown alternate, down first. */
  lemma {:induction false} LinkAlwaysOk(join: ClientMsg, es: seq<Event>)
    ensures LinkOk(Run(join, es))
  {
    if es != [] {
      LinkAlwaysOk(join, es[..|es| - 1]);
      StepLinkOk(join, Run(join, es[..|es| - 1]), es[|es| - 1]);
    }
  }

  function WaitAfter(k: nat): nat {
    Least(Pow2(k + 1), LONGEST_WAIT)
  }

  lemma BackoffStep(join: ClientMsg, l: Link, k: nat, e: Event)
    requires l.backoff == WaitAfter(k)
    ensures Step(join, l, e).backoff == WaitAfter(FailuresAfter(k, l, e))
  {
    Doubling(k);
    assert Pow2(1) == 2;
  }

  lemma {:induction false} BackoffIs(join: ClientMsg, es: seq<Event>)
    ensures Run(join, es).backoff == WaitAfter(Failures(join, es))
  {
    hide Step, FailuresAfter, WaitAfter;
    if es == [] {
      FirstWait();
    } else {
      BackoffIs(join, es[..|es| - 1]);
      BackoffStep(join, Run(join, es[..|es| - 1]), Failures(join, es[..|es| - 1]), es[|es| - 1]);
    }
  }

  lemma FirstWait()
    ensures WaitAfter(0) == FIRST_WAIT
  {
    assert Pow2(1) == 2;
  }

  lemma Doubling(k: nat)
    ensures Least(Least(Pow2(k + 1), LONGEST_WAIT) * 2, LONGEST_WAIT) == Least(Pow2(k + 2), LONGEST_WAIT)
  {
    assert Pow2(k + 2) == 2 * Pow2(k + 1);
  }

  /** The k-th failed attempt in a row schedules the next one min(2^(k+1), 30)
      seconds later, and no attempt comes before it is due. */
  lemma {:induction false} KthFailureWaits(join: ClientMsg, es: seq<Event>, now: nat)
    requires Possible(Run(join, es), Attempt(now, false))
    ensures var k, l' := Failures(join, es) + 1, Run(join, es + [Attempt(now, false)]);
            && Failures(join, es + [Attempt(now, false)]) == k
            && l'.nextTry == Some(now + Least(Pow2(k + 1), LONGEST_WAIT))
            && forall t: nat, ok :: Possible(l', Attempt(t, ok)) ==> t >= now + Least(Pow2(k + 1), LONGEST_WAIT)
  {
    BackoffIs(join, es);
    Doubling(Failures(join, es));
    assert (es + [Attempt(now, false)])[..|es|] == es;
  }

  /** When the next attempt is due, from what has happened: two seconds after a
      loss, at once after a resume by hand while the link is down, and after the
      k-th failed attempt in a row min(2^(k+1), 30) seconds after it. */
  function DueAt(join: ClientMsg, es: seq<Event>): Option<nat> {
    if es == [] then None
    else
      var front, e := es[..|es| - 1], es[|es| - 1];
      var due := DueAt(join, front);
      if !Possible(Run(join, front), e) then due
      else
        match e
        case Lost(now) => Some(now + 2)
        case Attempt(now, connected) =>
          if connected then None else Some(now + Least(Pow2(Failures(join, es) + 1), 30))
        case Resume(now) => if due.Some? then Some(now) else None
        case _ => due
  }

  /** In every run an attempt is possible exactly from the time it is due on, unless
      the loop has stopped. */
  lemma {:induction false} AttemptsWhenDue(join: ClientMsg, es: seq<Event>)
    ensures var l, due := Run(join, es), DueAt(join, es);
            && l.nextTry == due
            && forall now: nat, ok :: Possible(l, Attempt(now, ok)) <==> l.running && due.Some? && due.value <= now
    decreases |es|
  {
    LinkAlwaysOk(join, es);
    if es != [] {
      var front, e := es[..|es| - 1], es[|es| - 1];
      AttemptsWhenDue(join, front);
      LinkAlwaysOk(join, front);
      BackoffIs(join, es);
    }
  }

  /** Once the loop has stopped nothing changes any more. */
  lemma {:induction false} StopsForGood(join: ClientMsg, es: seq<Event>, more: seq<Event>)
    ensures var l := Run(join, es + [Stop]); !l.running && Run(join, es + [Stop] + more) == l
    decreases |more|
  {
    hide Possible;
    if more == [] {
      assert es + [Stop] + more == es + [Stop] && (es + [Stop])[..|es|] == es;
      StopStops(join, Run(join, es));
    } else {
      var front, e := more[..|more| - 1], more[|more| - 1];
      StopsForGood(join, es, front);
      assert (es + [Stop] + more)[..|es + [Stop] + more| - 1] == es + [Stop] + front;
      NothingPossible(Run(join, es + [Stop]), e);
    }
  }

  lemma StopStops(join: ClientMsg, l: Link)
    ensures !Step(join, l, Stop).running
  {
  }

  lemma NothingPossible(l: Link, e: Event)
    requires !l.running
    ensures !Possible(l, e)
  {
  }

  /** Each connection carries the join first and then exactly the messages that
      came up while it was the current one, in order. */
  lemma {:induction false} ConnectionsBeginWithJoin(join: ClientMsg, es: seq<Event>, c: ConnId)
    ensures var l := Run(join, es);
            if c < l.conns then c in l.sent && l.sent[c] == [join] + MeantFor(join, es, c)
            else c !in l.sent && MeantFor(join, es, c) == []
    decreases |es|
  {
    if es != [] {
      var front, e := es[..|es| - 1], es[|es| - 1];
      ConnectionsBeginWithJoin(join, front, c);
      LinkAlwaysOk(join, front);
      var before := MeantFor(join, front, c);
      if e.Uplink? { assert [join] + (before + [e.m]) == ([join] + before) + [e.m]; }
      assert before + [] == before;
    }
  }

  /** The generation shown counts the rekeys, up to the largest 32-bit number. */
  lemma {:induction false} GenerationCounts(join: ClientMsg, es: seq<Event>)
    ensures Run(join, es).keyGen == Least(1 + Rekeys(join, es), LAST_GENERATION)
  {
    if es != [] { GenerationCounts(join, es[..|es| - 1]); }
  }

  /** The loop's variables as the source keeps them; `past` is what has happened. */
  class Engine {
    const join: ClientMsg
    var curIn: Option<ConnId>
    var curOut: Option<ConnId>
    var nextTry: Option<nat>
    var backoff: nat
    var keyGen: nat
    var signals: seq<bool>
    var conns: nat
    var sent: map<ConnId, seq<ClientMsg>>
    var running: bool
    ghost var past: seq<Event>

    function State(): Link
      reads this
    {
      Link(curIn, curOut, nextTry, backoff, keyGen, signals, conns, sent, running)
    }

    /** The variables are those of a run, and so in order. */
    ghost predicate Valid()
      reads this
    {
      State() == Run(join, past) && LinkOk(State())
    }

    constructor (join: ClientMsg)
      ensures this.join == join && past == [] && Valid()
    {
      this.join := join;
      curIn, curOut, nextTry, backoff, keyGen := Some(0), Some(0), None, FIRST_WAIT, 1;
      signals, conns, sent, running := [], 1, map[0 := [join]], true;
      past := [];
    }

    /** One turn of the loop. */
    method Handle(e: Event)
      requires Valid() && Possible(State(), e)
      modifies this
      ensures Valid() && past == old(past) + [e]
      ensures State() == Step(join, old(State()), e)
    {
      ghost var l := State();
      hide Alternating;
      StepLinkOk(join, l, e);
      past := past + [e];
      assert past[..|past| - 1] == old(past);
      match e
      case Lost(now) =>
        curIn := None;
        curOut := None;
        backoff := FIRST_WAIT;
        nextTry := Some(now + backoff);
        signals := signals + [false];
      case Attempt(now, connected) =>
        if connected {
          sent := sent[conns := [join]];
          curOut, curIn := Some(conns), Some(conns);
          conns := conns + 1;
          nextTry := None;
          backoff := FIRST_WAIT;
          signals := signals + [true];
        } else {
          backoff := Least(backoff * 2, LONGEST_WAIT);
          nextTry := Some(now + backoff);
        }
      case Resume(now) =>
        if curIn.None? {
          backoff := FIRST_WAIT;
          nextTry := Some(now);
        }
      case Uplink(m) =>
        if curOut.Some? {
          sent := sent[curOut.value := sent[curOut.value] + [m]];
        }
      case Rekeyed => keyGen := Least(keyGen + 1, LAST_GENERATION);
      case Stop => running := false;
    }
  }
}
