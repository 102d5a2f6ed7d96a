// PIN-protected sessions (server/init/src/sessions.rs): creation, joining with a
// PIN, and the periodic sweep, against a specification over whole histories.

module SessionStore {
  import opened Wire
  import opened Arith

  const MAX_AGE_SECS: nat := 24 * 3600
  const EMPTY_GRACE_SECS: nat := 5 * 60
  const MAX_ATTEMPTS: nat := 6

  type Pin = seq<bv8>

  datatype Session = Session(room: RoomId, token: Option<string>, pin: Pin, created: nat, lastActive: nat,
                             attempts: nat)

  type Store = map<string, Session>

  datatype JoinResult = Ok(room: RoomId, token: Option<string>) | NotFound | Locked | BadPin

  /** One call, with the clock reading it makes. `live` are the rooms that have
      members at the time of a sweep. */
  datatype Op =
    | Create(now: nat, code: string, room: RoomId, token: Option<string>, pin: Pin)
    | Join(now: nat, code: string, pin: Pin)
    | Reap(now: nat, live: set<RoomId>)

  function JoinOf(m: Store, code: string, pin: Pin): JoinResult {
    if code !in m then NotFound
    else if m[code].attempts >= MAX_ATTEMPTS then Locked
    else if m[code].pin == pin then Ok(m[code].room, m[code].token)
    else BadPin
  }

  predicate Kept(s: Session, now: nat, live: set<RoomId>) {
    SatSub(now, s.created) < MAX_AGE_SECS && (s.room in live || SatSub(now, s.lastActive) < EMPTY_GRACE_SECS)
  }

  function Swept(s: Session, now: nat, live: set<RoomId>): Session {
    if s.room in live then s.(lastActive := now) else s
  }

  /** The store after one call; a create whose code is taken changes nothing. */
  function Step(m: Store, op: Op): Store {
    match op
    case Create(now, code, room, token, pin) =>
      if code in m then m else m[code := Session(room, token, pin, now, now, 0)]
    case Join(now, code, pin) =>
      (match JoinOf(m, code, pin)
       case Ok(_, _) => m[code := m[code].(lastActive := now)]
       case BadPin => m[code := m[code].(attempts := m[code].attempts + 1)]
       case _ => m)
    case Reap(now, live) =>
      map code | code in m && Kept(m[code], now, live) :: Swept(m[code], now, live)
  }

  function After(ops: seq<Op>): Store {
    if ops == [] then map[] else Step(After(ops[..|ops| - 1]), ops[|ops| - 1])
  }

  // ----- what a history says

  /** The clock never runs backwards. */
  predicate Monotone(ops: seq<Op>) {
    forall i, j :: 0 <= i <= j < |ops| ==> ops[i].now <= ops[j].now
  }

  /** Call `i` made a session. */
  predicate Born(ops: seq<Op>, i: nat) {
    i < |ops| && ops[i].Create? && ops[i].code !in After(ops[..i])
  }

  /** How many wrong PINs were presented for the code after call `i` and before
      call `j`. */
  function Wrong(ops: seq<Op>, i: nat, j: nat): nat
    requires i < |ops| && ops[i].Create? && j <= |ops|
    decreases j
  {
    if j <= i + 1 then 0
    else Wrong(ops, i, j - 1) + (if WrongPin(ops[i], ops[j - 1]) then 1 else 0)
  }

  predicate WrongPin(birth: Op, op: Op)
    requires birth.Create?
  {
    op.Join? && op.code == birth.code && op.pin != birth.pin
  }

  /** Call `k` is a sign of life: the creation, an accepted join, or a sweep that
      saw members in the room. */
  predicate Sign(ops: seq<Op>, i: nat, k: nat)
    requires i <= k < |ops| && ops[i].Create?
  {
    || k == i
    || (ops[k].Join? && ops[k].code == ops[i].code && ops[k].pin == ops[i].pin && Wrong(ops, i, k) < 6)
    || (ops[k].Reap? && ops[i].room in ops[k].live)
  }

  predicate RecentSign(ops: seq<Op>, i: nat, k: nat, r: nat)
    requires i <= k < r < |ops| && ops[i].Create?
  {
    Sign(ops, i, k) && ops[r].now - ops[k].now < 300
  }

  /** The sweep at `r` spares the session born at `i`: it is younger than a day,
      and its room has members or there was a sign of life in the last 5 minutes. */
  ghost predicate Spared(ops: seq<Op>, i: nat, r: nat)
    requires i < r < |ops| && ops[i].Create? && ops[r].Reap?
  {
    && ops[r].now - ops[i].now < 86400
    && (ops[i].room in ops[r].live || exists k: nat :: i <= k < r && RecentSign(ops, i, k, r))
  }

  /** Every sweep after `i` and before `j` spares the session born at `i`. */
  ghost predicate SurvivesTo(ops: seq<Op>, i: nat, j: nat)
    requires i < |ops| && ops[i].Create? && j <= |ops|
  {
    forall r: nat :: i < r < j && ops[r].Reap? ==> Spared(ops, i, r)
  }

  /** `t` is the time of the latest sign of life before call `j`. */
  ghost predicate LatestSign(ops: seq<Op>, i: nat, j: nat, t: nat)
    requires i < j <= |ops| && ops[i].Create?
  {
    && (exists k: nat :: i <= k < j && Sign(ops, i, k) && ops[k].now == t)
    && (forall k: nat :: i <= k < j && Sign(ops, i, k) ==> ops[k].now <= t)
  }

  /** What the stored session must be, from the history alone. */
  ghost predicate Describes(ops: seq<Op>, i: nat, j: nat, s: Session)
    requires i < j <= |ops| && ops[i].Create?
  {
    && s.room == ops[i].room && s.token == ops[i].token && s.pin == ops[i].pin && s.created == ops[i].now
    && s.attempts == Least(Wrong(ops, i, j), 6)
    && LatestSign(ops, i, j, s.lastActive)
  }

  lemma SignAtBirth(ops: seq<Op>, i: nat)
    requires i < |ops| && ops[i].Create?
    ensures LatestSign(ops, i, i + 1, ops[i].now)
  {
    assert Sign(ops, i, i);
  }

  lemma NewSign(ops: seq<Op>, i: nat, j: nat, t: nat)
    requires Monotone(ops) && i < j < |ops| && ops[i].Create? && LatestSign(ops, i, j, t)
    ensures LatestSign(ops, i, j + 1, if Sign(ops, i, j) then ops[j].now else t)
  {
    hide Sign;
    var k: nat :| i <= k < j && Sign(ops, i, k) && ops[k].now == t;
    if Sign(ops, i, j) {
      assert forall k: nat :: i <= k <= j && Sign(ops, i, k) ==> ops[k].now <= ops[j].now;
    }
  }

  lemma KeptIffSpared(ops: seq<Op>, i: nat, r: nat, s: Session)
    requires Monotone(ops) && i < r < |ops| && ops[i].Create? && ops[r].Reap? && Describes(ops, i, r, s)
    ensures Kept(s, ops[r].now, ops[r].live) <==> Spared(ops, i, r)
  {
    hide Sign;
    var k: nat :| i <= k < r && Sign(ops, i, k) && ops[k].now == s.lastActive;
    assert s.lastActive <= ops[r].now && s.created <= ops[r].now;
    if ops[r].now - s.lastActive < 300 { assert RecentSign(ops, i, k, r); }
  }

  /** A session that every sweep so far has spared is in the store, exactly as its
      history describes it. */
  lemma {:induction false} StillThere(ops: seq<Op>, i: nat, j: nat)
    requires Monotone(ops) && Born(ops, i) && i < j <= |ops| && SurvivesTo(ops, i, j)
    ensures ops[i].code in After(ops[..j]) && Describes(ops, i, j, After(ops[..j])[ops[i].code])
    decreases j
  {
    hide Step, Spared, Describes;
    assert ops[..j][..j - 1] == ops[..j - 1];
    if j == i + 1 {
      AtBirth(ops, i, After(ops[..i]));
    } else {
      StillThere(ops, i, j - 1);
      CallKeeps(ops, i, j - 1, After(ops[..j - 1]));
    }
  }

  lemma AtBirth(ops: seq<Op>, i: nat, m: Store)
    requires i < |ops| && ops[i].Create? && ops[i].code !in m
    ensures ops[i].code in Step(m, ops[i]) && Describes(ops, i, i + 1, Step(m, ops[i])[ops[i].code])
  {
    hide Sign, LatestSign;
    SignAtBirth(ops, i);
  }

  lemma CallKeeps(ops: seq<Op>, i: nat, j: nat, m: Store)
    requires Monotone(ops) && i < j < |ops| && ops[i].Create? && (ops[j].Reap? ==> Spared(ops, i, j))
    requires ops[i].code in m && Describes(ops, i, j, m[ops[i].code])
    ensures ops[i].code in Step(m, ops[j]) && Describes(ops, i, j + 1, Step(m, ops[j])[ops[i].code])
  {
    hide LatestSign, Spared;
    NewSign(ops, i, j, m[ops[i].code].lastActive);
    if ops[j].Reap? { KeptIffSpared(ops, i, j, m[ops[i].code]); }
  }

  /** A session survives a sweep if and only if it survived all earlier ones, is
      younger than a day, and its room has members or has shown life within the
      grace period. */
  lemma {:induction false} SurvivesSweepIff(ops: seq<Op>, i: nat, r: nat)
    requires Monotone(ops) && Born(ops, i) && i < r < |ops| && ops[r].Reap? && SurvivesTo(ops, i, r)
    ensures ops[i].code in After(ops[..r + 1]) <==> Spared(ops, i, r)
  {
    hide Spared, Describes;
    StillThere(ops, i, r);
    KeptIffSpared(ops, i, r, After(ops[..r])[ops[i].code]);
    assert ops[..r + 1][..r] == ops[..r];
  }

  /** Whatever is stored was born and has been spared ever since. */
  lemma {:induction false} Origin(ops: seq<Op>, code: string) returns (i: nat)
    requires Monotone(ops) && code in After(ops)
    ensures Born(ops, i) && ops[i].code == code && SurvivesTo(ops, i, |ops|)
    decreases |ops|
  {
    hide Spared, Step;
    var front, n := ops[..|ops| - 1], |ops| - 1;
    if code !in After(front) {
      i := n;
      OnlyCreateAdds(After(front), ops[n], code);
    } else {
      i := Origin(front, code);
      assert ops[..i] == front[..i];
      forall r: nat | i < r < n && ops[r].Reap? ensures Spared(ops, i, r) { SparedEarlier(front, ops, i, r); }
      if ops[n].Reap? {
        assert ops[..n + 1] == ops;
        SurvivesSweepIff(ops, i, n);
      }
    }
  }

  lemma OnlyCreateAdds(m: Store, op: Op, code: string)
    requires code !in m && code in Step(m, op)
    ensures op.Create? && op.code == code
  {
  }

  lemma {:induction false} WrongEarlier(front: seq<Op>, ops: seq<Op>, i: nat, j: nat)
    requires front <= ops && i < |front| && front[i].Create? && j <= |front|
    ensures Wrong(front, i, j) == Wrong(ops, i, j)
    decreases j
  {
    if j > i + 1 { WrongEarlier(front, ops, i, j - 1); }
  }

  lemma SparedEarlier(front: seq<Op>, ops: seq<Op>, i: nat, r: nat)
    requires front <= ops && i < r < |front| && front[i].Create? && front[r].Reap?
    ensures Spared(front, i, r) <==> Spared(ops, i, r)
  {
    forall k: nat | i <= k < r ensures RecentSign(front, i, k, r) <==> RecentSign(ops, i, k, r) {
      WrongEarlier(front, ops, i, k);
    }
  }

  /** While a session is in the store, joining its code succeeds exactly when the
      PIN is right and fewer than six wrong ones have been presented since its
      creation; the sixth wrong PIN locks it for good. */
  lemma {:induction false} PinLock(ops: seq<Op>, i: nat, pin: Pin)
    requires Monotone(ops) && Born(ops, i) && SurvivesTo(ops, i, |ops|)
    ensures var r := JoinOf(After(ops), ops[i].code, pin);
            && (r == Ok(ops[i].room, ops[i].token) <==> pin == ops[i].pin && Wrong(ops, i, |ops|) < 6)
            && (r == Locked <==> Wrong(ops, i, |ops|) >= 6)
            && (r == BadPin <==> pin != ops[i].pin && Wrong(ops, i, |ops|) < 6)
  {
    StillThere(ops, i, |ops|);
    assert ops[..|ops|] == ops;
  }

  /** A join of any code succeeds only for a session that was born, has been
      spared by every sweep since, and has its PIN right and its lock open. */
  lemma {:induction false} JoinOkIff(ops: seq<Op>, code: string, pin: Pin)
    requires Monotone(ops)
    ensures JoinOf(After(ops), code, pin).Ok? <==>
            exists i: nat :: Born(ops, i) && ops[i].code == code && SurvivesTo(ops, i, |ops|)
                             && pin == ops[i].pin && Wrong(ops, i, |ops|) < 6
    ensures JoinOf(After(ops), code, pin).NotFound? <==>
            !exists i: nat :: Born(ops, i) && ops[i].code == code && SurvivesTo(ops, i, |ops|)
  {
    hide SurvivesTo, Born, Wrong;
    assert forall i: nat :: Born(ops, i) ==> i < |ops| && ops[i].Create? by { BornInside(ops); }
    if JoinOf(After(ops), code, pin).Ok? {
      var i := Origin(ops, code);
      PinLock(ops, i, pin);
    }
    if !JoinOf(After(ops), code, pin).NotFound? { var i := StoredOrigin(ops, code, pin); }
    if i: nat :| Born(ops, i) && ops[i].code == code && SurvivesTo(ops, i, |ops|) { PinLock(ops, i, pin); }
    if i: nat :| Born(ops, i) && ops[i].code == code && SurvivesTo(ops, i, |ops|)
                 && pin == ops[i].pin && Wrong(ops, i, |ops|) < 6
    {
      PinLock(ops, i, pin);
    }
  }

  lemma StoredOrigin(ops: seq<Op>, code: string, pin: Pin) returns (i: nat)
    requires Monotone(ops) && !JoinOf(After(ops), code, pin).NotFound?
    ensures Born(ops, i) && ops[i].code == code && SurvivesTo(ops, i, |ops|)
  {
    i := Origin(ops, code);
  }

  lemma BornInside(ops: seq<Op>)
    ensures forall i: nat :: Born(ops, i) ==> i < |ops| && ops[i].Create?
  {
  }

  /** The comparison that does not stop early: true exactly on equal sequences. */
  method CtEq(a: seq<bv8>, b: seq<bv8>) returns (equal: bool)
    ensures equal <==> a == b
  {
    if |a| != |b| {
      return false;
    }
    var diff: bv8 := 0;
    for i := 0 to |a|
      invariant diff == 0 <==> a[..i] == b[..i]
    {
      DiffStaysZeroIff(diff, a[i], b[i]);
      assert a[..i + 1] == a[..i] + [a[i]] && b[..i + 1] == b[..i] + [b[i]];
      diff := diff | (a[i] ^ b[i]);
    }
    assert a[..|a|] == a && b[..|b|] == b;
    return diff == 0;
  }

  lemma DiffStaysZeroIff(d: bv8, x: bv8, y: bv8)
    ensures d | (x ^ y) == 0 <==> d == 0 && x == y
  {
  }

  /** The store as the source keeps it. */
  class Sessions {
    var inner: Store

    constructor ()
      ensures inner == map[]
    {
      inner := map[];
    }

    /** Codes are drawn until one is free, so no live session is overwritten. */
    method Create(now: nat, draws: seq<string>, room: RoomId, token: Option<string>, pin: Pin) returns (code: string)
      requires exists i :: 0 <= i < |draws| && draws[i] !in inner
      modifies this
      ensures code in draws && code !in old(inner)
      ensures inner == Step(old(inner), Op.Create(now, code, room, token, pin))
      ensures inner == old(inner)[code := Session(room, token, pin, now, now, 0)]
    {
      var n := 0;
      code := draws[0];
      while code in inner
        invariant n < |draws| && code == draws[n]
        invariant exists i :: n <= i < |draws| && draws[i] !in inner
        decreases |draws| - n
      {
        n := n + 1;
        code := draws[n];
      }
      inner := inner[code := Session(room, token, pin, now, now, 0)];
    }

    method Join(now: nat, code: string, pin: Pin) returns (r: JoinResult)
      modifies this
      ensures r == JoinOf(old(inner), code, pin)
      ensures inner == Step(old(inner), Op.Join(now, code, pin))
    {
      if code !in inner {
        return NotFound;
      }
      var s := inner[code];
      if s.attempts >= MAX_ATTEMPTS {
        return Locked;
      }
      var equal := CtEq(s.pin, pin);
      if equal {
        inner := inner[code := s.(lastActive := now)];
        return Ok(s.room, s.token);
      } else {
        inner := inner[code := s.(attempts := s.attempts + 1)];
        return BadPin;
      }
    }

    method Reap(now: nat, live: set<RoomId>)
      modifies this
      ensures inner == Step(old(inner), Op.Reap(now, live))
    {
      var todo, kept: Store := inner.Keys, map[];
      while todo != {}
        invariant inner == old(inner) && todo <= inner.Keys
        invariant kept == map code | code in inner && code !in todo && Kept(inner[code], now, live)
                            :: Swept(inner[code], now, live)
        decreases todo
      {
        var code :| code in todo;
        var s := inner[code];
        todo := todo - {code};
        if SatSub(now, s.created) >= MAX_AGE_SECS {
          continue;
        }
        if s.room in live {
          kept := kept[code := s.(lastActive := now)];
        } else if SatSub(now, s.lastActive) < EMPTY_GRACE_SECS {
          kept := kept[code := s];
        }
      }
      inner := kept;
    }
  }
}
