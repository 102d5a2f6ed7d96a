// The per-IP fixed-window limiter (server/init/src/main.rs).

module RateLimiting {
  import opened Arith
  import opened Wire

  const U32: nat := 0x1_0000_0000

  /** When an IP's window began, and how many calls it has made in it. */
  datatype Entry = Entry(start: nat, count: nat)

  type Table = map<string, Entry>

  datatype Op = Allow(now: nat, ip: string, max: nat) | Prune(now: nat)

  /** The entry of an IP once a call at `now` has been counted. */
  function Counted(m: Table, ip: string, now: nat, window: nat): Entry {
    if ip in m && SatSub(now, m[ip].start) < window
    then Entry(m[ip].start, (m[ip].count + 1) % U32)
    else Entry(now, 1)
  }

  function Pruned(m: Table, now: nat, window: nat): Table {
    map ip | ip in m && SatSub(now, m[ip].start) < window :: m[ip]
  }

  function Step(m: Table, op: Op, window: nat): Table {
    match op
    case Allow(now, ip, _) => m[ip := Counted(m, ip, now, window)]
    case Prune(now) => Pruned(m, now, window)
  }

  function After(ops: seq<Op>, window: nat): Table {
    if ops == [] then map[] else Step(After(ops[..|ops| - 1], window), ops[|ops| - 1], window)
  }

  /** Whether a call made after `ops` is let through. */
  predicate Allowed(ops: seq<Op>, op: Op, window: nat)
    requires op.Allow?
  {
    Counted(After(ops, window), op.ip, op.now, window).count <= op.max
  }

  predicate Monotone(ops: seq<Op>) {
    forall i, j :: 0 <= i <= j < |ops| ==> ops[i].now <= ops[j].now
  }

  /** How many calls of `ip` with limit `max` were let through at times in
      [from, from + window). */
  function Permits(ops: seq<Op>, ip: string, max: nat, from: nat, window: nat): nat {
    if ops == [] then 0
    else
      var front, op := ops[..|ops| - 1], ops[|ops| - 1];
      Permits(front, ip, max, from, window)
      + (if op.Allow? && op.ip == ip && op.max == max && from <= op.now < from + window && Allowed(front, op, window)
         then 1 else 0)
  }

  /** How many calls `ip` makes at times in [from, from + window). */
  function CallsIn(ops: seq<Op>, ip: string, from: nat, window: nat): nat {
    if ops == [] then 0
    else
      var front, op := ops[..|ops| - 1], ops[|ops| - 1];
      CallsIn(front, ip, from, window) + (if op.Allow? && op.ip == ip && from <= op.now < from + window then 1 else 0)
  }

  function LastTime(ops: seq<Op>): nat {
    if ops == [] then 0 else ops[|ops| - 1].now
  }

  // ----- the answer to one call

  /** When the IP's latest window began: with the first of its calls that is not
      in the window before. */
  function WindowStart(ops: seq<Op>, ip: string, window: nat): Option<nat> {
    if ops == [] then None
    else
      var op, before := ops[|ops| - 1], WindowStart(ops[..|ops| - 1], ip, window);
      if !(op.Allow? && op.ip == ip) || (before.Some? && op.now < before.value + window) then before else Some(op.now)
  }

  /** The entry counts the calls of the latest window, modulo 2^32; without an
      entry that window is over. */
  predicate CountsWindow(ops: seq<Op>, ip: string, window: nat) {
    var m, w := After(ops, window), WindowStart(ops, ip, window);
    if ip in m then w == Some(m[ip].start) && m[ip].count == CallsIn(ops, ip, m[ip].start, window) % U32
    else w.Some? ==> w.value + window <= LastTime(ops)
  }

  /** The window began in the past, and no call comes after its end. */
  ghost predicate WindowIsLast(ops: seq<Op>, ip: string, window: nat) {
    var w := WindowStart(ops, ip, window);
    && (w.Some? ==> w.value <= LastTime(ops))
    && (forall t: nat :: (w.Some? ==> w.value + window <= t) ==> CallsIn(ops, ip, t, window) == 0)
  }

  lemma Snoc(front: seq<Op>, op: Op, ip: string, window: nat)
    ensures var ops, before := front + [op], WindowStart(front, ip, window);
            && After(ops, window) == Step(After(front, window), op, window) && LastTime(ops) == op.now
            && WindowStart(ops, ip, window) ==
               (if !(op.Allow? && op.ip == ip) || (before.Some? && op.now < before.value + window) then before
                else Some(op.now))
    ensures forall t: nat :: CallsIn(front + [op], ip, t, window) ==
              CallsIn(front, ip, t, window) + (if op.Allow? && op.ip == ip && t <= op.now < t + window then 1 else 0)
    ensures Monotone(front + [op]) ==> Monotone(front) && LastTime(front) <= op.now
  {
    var ops := front + [op];
    assert ops[..|front|] == front && ops[|front|] == op;
    if Monotone(ops) {
      forall i, j | 0 <= i <= j < |front| ensures front[i].now <= front[j].now { assert ops[i].now <= ops[j].now; }
      if front != [] { assert ops[|front| - 1].now <= ops[|front|].now; }
    }
  }

  lemma {:induction false} LastWindow(ops: seq<Op>, ip: string, window: nat)
    requires Monotone(ops)
    ensures WindowIsLast(ops, ip, window)
    decreases |ops|
  {
    hide WindowStart, Monotone, CallsIn;
    if ops == [] {
      NothingCounted(ip, window);
    } else {
      var front, op := ops[..|ops| - 1], ops[|ops| - 1];
      assert ops == front + [op];
      Snoc(front, op, ip, window);
      LastWindow(front, ip, window);
    }
  }

  lemma {:induction false} WindowCounted(ops: seq<Op>, ip: string, window: nat)
    requires Monotone(ops) && window > 0
    ensures CountsWindow(ops, ip, window)
    decreases |ops|
  {
    hide After, Step, CallsIn, WindowStart, Monotone, CountsWindow, WindowIsLast;
    if ops == [] {
      NothingCounted(ip, window);
    } else {
      var front, op := ops[..|ops| - 1], ops[|ops| - 1];
      assert ops == front + [op];
      Snoc(front, op, ip, window);
      LastWindow(front, ip, window);
      WindowCounted(front, ip, window);
      WindowCountedStep(front, op, ip, window);
    }
  }

  lemma NothingCounted(ip: string, window: nat)
    ensures WindowIsLast([], ip, window) && CountsWindow([], ip, window)
  {
  }

  lemma WindowCountedStep(front: seq<Op>, op: Op, ip: string, window: nat)
    requires Monotone(front + [op]) && window > 0 && WindowIsLast(front, ip, window) && CountsWindow(front, ip, window)
    ensures CountsWindow(front + [op], ip, window)
  {
    hide After, CallsIn, WindowStart, Monotone;
    Snoc(front, op, ip, window);
    var m := After(front, window);
    if ip in m { OneMoreModulo(CallsIn(front, ip, m[ip].start, window)); }
  }

  lemma OneMoreModulo(n: nat)
    ensures (n % U32 + 1) % U32 == (n + 1) % U32
  {
  }

  /** A call is let through exactly if the calls its IP has made in its window,
      itself included, are within the limit modulo 2^32. Past the limit it is
      refused, then, exactly until the counter has wrapped. */
  lemma {:induction false} AllowedIff(ops: seq<Op>, op: Op, window: nat)
    requires Monotone(ops + [op]) && op.Allow?
    ensures var w := WindowStart(ops + [op], op.ip, window);
            && w.Some? && w.value <= op.now
            && var n := if window == 0 then 1 else CallsIn(ops + [op], op.ip, w.value, window);
               && (Allowed(ops, op, window) <==> n % 0x1_0000_0000 <= op.max)
               && (n < 0x1_0000_0000 ==> (Allowed(ops, op, window) <==> n <= op.max))
  {
    hide After, CallsIn, WindowStart, Monotone;
    Snoc(ops, op, op.ip, window);
    LastWindow(ops + [op], op.ip, window);
    if window > 0 { WindowCounted(ops + [op], op.ip, window); }
  }

  // ----- permits in any interval

  /** How the permits so far relate to the IP's entry and the last clock reading.
      A window that began before the interval has spent at least one call outside
      it. */
  predicate Budget(p: nat, m: Table, ip: string, last: nat, max: nat, from: nat, window: nat) {
    && (if max == 0 then p == 0 else p <= 2 * max - 1)
    && (last < from ==> p == 0)
    && (ip !in m && last < from + window && max > 0 ==> p <= max - 1)
    && (ip in m ==>
          var e := m[ip];
          && e.start <= last && 1 <= e.count
          && (e.start < from && max > 0 ==> p <= Least(e.count, max) - 1)
          && (from <= e.start < from + window && max > 0 ==> p <= max - 1 + Least(e.count, max)))
  }

  lemma BudgetOnCall(p: nat, m: Table, ip: string, last: nat, op: Op, max: nat, from: nat, window: nat)
    requires Budget(p, m, ip, last, max, from, window) && op.Allow? && op.ip == ip && last <= op.now && window > 0
    requires ip in m && SatSub(op.now, m[ip].start) < window ==> m[ip].count + 1 < U32
    ensures var e := Counted(m, ip, op.now, window);
            var p' := p + (if op.max == max && from <= op.now < from + window && e.count <= op.max then 1 else 0);
            Budget(p', m[ip := e], ip, op.now, max, from, window)
  {
  }

  lemma BudgetOnOther(p: nat, m: Table, ip: string, last: nat, op: Op, max: nat, from: nat, window: nat)
    requires Budget(p, m, ip, last, max, from, window) && last <= op.now
    requires op.Prune? || op.ip != ip
    ensures Budget(p, Step(m, op, window), ip, op.now, max, from, window)
  {
  }

  /** In no stretch of one window's length does the IP make 2^32 calls. */
  ghost predicate Unhurried(ops: seq<Op>, ip: string, window: nat) {
    forall t: nat :: CallsIn(ops, ip, t, window) < U32
  }

  lemma {:induction false} BudgetKept(ops: seq<Op>, ip: string, max: nat, from: nat, window: nat)
    requires Monotone(ops) && Unhurried(ops, ip, window) && window > 0
    ensures Budget(Permits(ops, ip, max, from, window), After(ops, window), ip, LastTime(ops), max, from, window)
    decreases |ops|
  {
    hide Budget, Counted, Unhurried, After, Permits;
    NoOps(ip, max, from, window);
    if ops == [] {
      EmptyBudget(ip, max, from, window);
    } else {
      var front, op := ops[..|ops| - 1], ops[|ops| - 1];
      assert ops == front + [op];
      UnhurriedBefore(front, op, ip, window);
      BudgetKept(front, ip, max, from, window);
      BudgetStep(front, op, ip, max, from, window);
    }
  }

  lemma BudgetStep(front: seq<Op>, op: Op, ip: string, max: nat, from: nat, window: nat)
    requires Monotone(front + [op]) && Unhurried(front + [op], ip, window) && window > 0
    requires Budget(Permits(front, ip, max, from, window), After(front, window), ip, LastTime(front), max, from, window)
    ensures Budget(Permits(front + [op], ip, max, from, window), After(front + [op], window), ip, op.now, max, from,
                   window)
  {
    hide Budget, Counted, Unhurried, After, Permits;
    assert (front + [op])[..|front|] == front && (front + [op])[|front|] == op;
    if front != [] { assert (front + [op])[|front| - 1].now <= (front + [op])[|front|].now; }
    var p, m := Permits(front, ip, max, from, window), After(front, window);
    OneMore(front, op, ip, max, from, window);
    if op.Allow? && op.ip == ip {
      NoWrap(front, op, ip, window);
      BudgetOnCall(p, m, ip, LastTime(front), op, max, from, window);
    } else {
      BudgetOnOther(p, m, ip, LastTime(front), op, max, from, window);
    }
  }

  lemma UnhurriedBefore(front: seq<Op>, op: Op, ip: string, window: nat)
    requires Unhurried(front + [op], ip, window)
    ensures Unhurried(front, ip, window)
  {
    assert (front + [op])[..|front|] == front;
    forall t: nat ensures CallsIn(front, ip, t, window) < U32 {
      assert CallsIn(front, ip, t, window) <= CallsIn(front + [op], ip, t, window);
    }
  }

  /** While an IP is unhurried its counter does not wrap. */
  lemma NoWrap(front: seq<Op>, op: Op, ip: string, window: nat)
    requires Monotone(front + [op]) && Unhurried(front + [op], ip, window) && window > 0 && op.Allow? && op.ip == ip
    ensures var m := After(front, window);
            ip in m && SatSub(op.now, m[ip].start) < window ==> m[ip].count + 1 < U32
  {
    hide After, CallsIn, WindowStart, Monotone;
    Snoc(front, op, ip, window);
    LastWindow(front, ip, window);
    WindowCounted(front, ip, window);
    var m := After(front, window);
    if ip in m { assert CallsIn(front + [op], ip, m[ip].start, window) < U32; }
  }

  lemma EmptyBudget(ip: string, max: nat, from: nat, window: nat)
    ensures Budget(0, map[], ip, 0, max, from, window)
  {
  }

  lemma {:induction false} NoTimeNoPermits(ops: seq<Op>, ip: string, max: nat, from: nat)
    ensures Permits(ops, ip, max, from, 0) == 0
    decreases |ops|
  {
    if ops != [] { NoTimeNoPermits(ops[..|ops| - 1], ip, max, from); }
  }

  /** In any history with a clock that never runs backwards, and in any interval
      of one window's length, an IP gets fewer permits than twice the limit, if it
      never makes 2^32 calls within one window's length. */
  lemma {:induction false} SlidingBound(ops: seq<Op>, ip: string, max: nat, from: nat, window: nat)
    requires Monotone(ops) && Unhurried(ops, ip, window)
    ensures if max == 0 then Permits(ops, ip, max, from, window) == 0
            else Permits(ops, ip, max, from, window) <= 2 * max - 1
  {
    if window == 0 { NoTimeNoPermits(ops, ip, max, from); } else { BudgetKept(ops, ip, max, from, window); }
  }

  /** `n` calls at one time. */
  function Burst(now: nat, ip: string, max: nat, n: nat): seq<Op> {
    seq(n, _ => Op.Allow(now, ip, max))
  }

  lemma OneMore(ops: seq<Op>, op: Op, ip: string, max: nat, from: nat, window: nat)
    ensures After(ops + [op], window) == Step(After(ops, window), op, window)
    ensures Permits(ops + [op], ip, max, from, window) ==
            Permits(ops, ip, max, from, window)
            + (if op.Allow? && op.ip == ip && op.max == max && from <= op.now < from + window
                  && Allowed(ops, op, window) then 1 else 0)
  {
    assert (ops + [op])[..|ops|] == ops;
  }

  /** A burst inside an open window with room for it is let through whole. */
  lemma {:induction false} BurstPermitted(ops: seq<Op>, now: nat, ip: string, max: nat, n: nat, from: nat, window: nat)
    requires ip in After(ops, window) && SatSub(now, After(ops, window)[ip].start) < window
    requires After(ops, window)[ip].count + n <= max < U32 && from <= now < from + window
    ensures ip in After(ops + Burst(now, ip, max, n), window)
    ensures var e := After(ops, window)[ip];
            After(ops + Burst(now, ip, max, n), window)[ip] == Entry(e.start, e.count + n)
    ensures Permits(ops + Burst(now, ip, max, n), ip, max, from, window) == Permits(ops, ip, max, from, window) + n
    decreases n
  {
    hide After, Permits;
    if n == 0 {
      assert ops + Burst(now, ip, max, n) == ops;
    } else {
      var front, op := ops + Burst(now, ip, max, n - 1), Op.Allow(now, ip, max);
      BurstPermitted(ops, now, ip, max, n - 1, from, window);
      OneMore(front, op, ip, max, from, window);
      assert ops + Burst(now, ip, max, n) == front + [op];
    }
  }

  /** The bound is met: one call, the rest of its window's budget just before the
      window ends, and a full budget right after. */
  lemma {:induction false} SlidingBoundIsMet(ip: string, max: nat, window: nat)
    requires 0 < max < U32 && window >= 2
    ensures var ops := [Op.Allow(0, ip, max)] + Burst(window - 1, ip, max, max - 1)
                       + [Op.Allow(window, ip, max)] + Burst(window, ip, max, max - 1);
            Permits(ops, ip, max, window - 1, window) == 2 * max - 1
  {
    hide After, Permits, Burst;
    var from := window - 1;
    var first, again := Op.Allow(0, ip, max), Op.Allow(window, ip, max);
    NoOps(ip, max, from, window);
    OneMore([], first, ip, max, from, window);
    assert [] + [first] == [first];
    BurstPermitted([first], window - 1, ip, max, max - 1, from, window);
    var two := [first] + Burst(window - 1, ip, max, max - 1);
    OneMore(two, again, ip, max, from, window);
    BurstPermitted(two + [again], window, ip, max, max - 1, from, window);
  }

  lemma NoOps(ip: string, max: nat, from: nat, window: nat)
    ensures After([], window) == map[] && Permits([], ip, max, from, window) == 0
  {
  }

  /** What a burst on an empty table gets, past the point where the counter wraps. */
  lemma {:induction false} LongBurst(ip: string, max: nat, n: nat, window: nat)
    requires max < U32 && window > 0 && 0 < n <= U32 + max
    ensures After(Burst(0, ip, max, n), window) == map[ip := Entry(0, if n < U32 then n else n - U32)]
    ensures Permits(Burst(0, ip, max, n), ip, max, 0, window) == if n < U32 then Least(n, max) else max + n - U32 + 1
    decreases n
  {
    hide After, Permits, Burst, Counted;
    var front, op := Burst(0, ip, max, n - 1), Op.Allow(0, ip, max);
    BurstSnoc(0, ip, max, n - 1);
    OneMore(front, op, ip, max, 0, window);
    NextInBurst(ip, n, window);
    if n == 1 { NoOps(ip, max, 0, window); } else { LongBurst(ip, max, n - 1, window); }
  }

  lemma NextInBurst(ip: string, n: nat, window: nat)
    requires window > 0 && 0 < n < 2 * U32
    ensures n == 1 ==> Counted(map[], ip, 0, window) == Entry(0, 1)
    ensures n > 1 ==>
              Counted(map[ip := Entry(0, if n - 1 < U32 then n - 1 else n - 1 - U32)], ip, 0, window) ==
              Entry(0, if n < U32 then n else n - U32)
  {
  }

  lemma BurstSnoc(now: nat, ip: string, max: nat, n: nat)
    ensures Burst(now, ip, max, n + 1) == Burst(now, ip, max, n) + [Op.Allow(now, ip, max)]
    ensures Burst(now, ip, max, 0) == []
  {
  }

  lemma {:induction false} BurstCalls(ip: string, max: nat, n: nat, window: nat)
    requires window > 0
    ensures CallsIn(Burst(0, ip, max, n), ip, 0, window) == n
    decreases n
  {
    if n > 0 {
      BurstSnoc(0, ip, max, n - 1);
      assert Burst(0, ip, max, n)[..n - 1] == Burst(0, ip, max, n - 1);
      BurstCalls(ip, max, n - 1, window);
    }
  }

  /** With 2^32 calls in one window the counter wraps to zero and the bound fails:
      `max - 1` calls more and the IP has had 2*max permits. With the limit 1 the
      2^32 calls are enough. */
  lemma {:induction false} WrapBreaksBound(ip: string, max: nat, window: nat)
    requires 0 < max < U32 && window > 0
    ensures var ops := Burst(0, ip, max, U32 + max - 1);
            && Monotone(ops) && CallsIn(ops, ip, 0, window) == U32 + max - 1
            && Permits(ops, ip, max, 0, window) == 2 * max
  {
    LongBurst(ip, max, U32 + max - 1, window);
    BurstCalls(ip, max, U32 + max - 1, window);
  }

  // ----- pruning changes no answer

  function Calls(ops: seq<Op>): seq<Op> {
    if ops == [] then []
    else
      var front, op := ops[..|ops| - 1], ops[|ops| - 1];
      if op.Allow? then Calls(front) + [op] else Calls(front)
  }

  /** The answers to all calls, in order. */
  function Answers(ops: seq<Op>, window: nat): seq<bool> {
    if ops == [] then []
    else
      var front, op := ops[..|ops| - 1], ops[|ops| - 1];
      if op.Allow? then Answers(front, window) + [Allowed(front, op, window)] else Answers(front, window)
  }

  /** `m` is `w` without some entries whose window is over by `last`. */
  ghost predicate Trimmed(m: Table, w: Table, last: nat, window: nat) {
    && (forall ip :: ip in m ==> ip in w && m[ip] == w[ip])
    && (forall ip :: ip in w && ip !in m ==> SatSub(last, w[ip].start) >= window)
  }

  lemma TrimmedStep(m: Table, w: Table, last: nat, op: Op, window: nat)
    requires Trimmed(m, w, last, window) && last <= op.now
    ensures op.Allow? ==> Counted(m, op.ip, op.now, window) == Counted(w, op.ip, op.now, window)
    ensures op.Allow? ==> Trimmed(Step(m, op, window), Step(w, op, window), op.now, window)
    ensures op.Prune? ==> Trimmed(Step(m, op, window), w, op.now, window)
  {
  }

  lemma {:induction false} PruningIsTransparent(ops: seq<Op>, window: nat)
    requires Monotone(ops)
    ensures Answers(ops, window) == Answers(Calls(ops), window)
    ensures Trimmed(After(ops, window), After(Calls(ops), window), if ops == [] then 0 else ops[|ops| - 1].now, window)
    decreases |ops|
  {
    hide Counted, Step, Trimmed;
    if ops == [] {
      NothingTrimmed(window);
    } else {
      var front, op := ops[..|ops| - 1], ops[|ops| - 1];
      PruningIsTransparent(front, window);
      TrimmedStep(After(front, window), After(Calls(front), window),
                  if front == [] then 0 else front[|front| - 1].now, op, window);
      if op.Allow? { assert Calls(ops)[..|Calls(ops)| - 1] == Calls(front); }
    }
  }

  lemma NothingTrimmed(window: nat)
    ensures Trimmed(map[], map[], 0, window)
  {
  }

  // ----- one IP's answers depend on its own calls only

  function Own(ops: seq<Op>, ip: string): seq<Op> {
    if ops == [] then []
    else
      var front, op := ops[..|ops| - 1], ops[|ops| - 1];
      if op.Prune? || op.ip == ip then Own(front, ip) + [op] else Own(front, ip)
  }

  function AnswersTo(ops: seq<Op>, ip: string, window: nat): seq<bool> {
    if ops == [] then []
    else
      var front, op := ops[..|ops| - 1], ops[|ops| - 1];
      if op.Allow? && op.ip == ip then AnswersTo(front, ip, window) + [Allowed(front, op, window)]
      else AnswersTo(front, ip, window)
  }

  predicate SameEntry(m: Table, w: Table, ip: string) {
    (ip in m <==> ip in w) && (ip in m ==> m[ip] == w[ip])
  }

  lemma OwnStep(m: Table, w: Table, op: Op, ip: string, window: nat)
    requires SameEntry(m, w, ip)
    ensures SameEntry(Step(m, op, window), Step(w, op, window), ip)
    ensures op.Allow? && op.ip == ip ==> Counted(m, ip, op.now, window) == Counted(w, ip, op.now, window)
    ensures op.Allow? && op.ip != ip ==> SameEntry(Step(m, op, window), w, ip)
  {
  }

  lemma {:induction false} OtherIpsDoNotMatter(ops: seq<Op>, ip: string, window: nat)
    ensures AnswersTo(ops, ip, window) == AnswersTo(Own(ops, ip), ip, window)
    ensures SameEntry(After(ops, window), After(Own(ops, ip), window), ip)
    decreases |ops|
  {
    hide Counted, Step, SameEntry;
    if ops == [] {
      NothingYet(ip);
    } else {
      var front, op := ops[..|ops| - 1], ops[|ops| - 1];
      OtherIpsDoNotMatter(front, ip, window);
      OwnStep(After(front, window), After(Own(front, ip), window), op, ip, window);
      if op.Prune? || op.ip == ip { assert Own(ops, ip)[..|Own(ops, ip)| - 1] == Own(front, ip); }
    }
  }

  lemma NothingYet(ip: string)
    ensures SameEntry(map[], map[], ip)
  {
  }

  /** The limiter as the source keeps it. */
  class RateLimiter {
    var inner: Table

    constructor ()
      ensures inner == map[]
    {
      inner := map[];
    }

    method Allow(now: nat, ip: string, max: nat, window: nat) returns (ok: bool)
      modifies this
      ensures inner == Step(old(inner), Op.Allow(now, ip, max), window)
      ensures ok <==> Counted(old(inner), ip, now, window).count <= max
    {
      var e := if ip in inner then inner[ip] else Entry(now, 0);
      if SatSub(now, e.start) >= window {
        e := Entry(now, 0);
      }
      e := e.(count := (e.count + 1) % U32);
      inner := inner[ip := e];
      ok := e.count <= max;
    }

    method Prune(now: nat, window: nat)
      modifies this
      ensures inner == Step(old(inner), Op.Prune(now), window)
    {
      var todo, kept: Table := inner.Keys, map[];
      while todo != {}
        invariant inner == old(inner) && todo <= inner.Keys
        invariant kept == map ip | ip in inner && ip !in todo && SatSub(now, inner[ip].start) < window :: inner[ip]
        decreases todo
      {
        var ip :| ip in todo;
        todo := todo - {ip};
        if SatSub(now, inner[ip].start) < window {
          kept := kept[ip := inner[ip]];
        }
      }
      inner := kept;
    }
  }
}
