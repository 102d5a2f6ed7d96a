// The streaming linear resampler (apps/companion-core/src/audio.rs) with an exact
// rational phase: the source's floating-point phase t is phase / dst.

module Resampling {
  /** Least k with k * src >= m * dst. */
  function CeilRatio(m: nat, dst: nat, src: nat): (k: nat)
    requires src > 0
    ensures k * src >= m * dst && (k - 1) * src < m * dst
  {
    CeilRatioBounds(m * dst, src);
    (m * dst + src - 1) / src
  }

  lemma CeilRatioBounds(a: nat, src: nat)
    requires src > 0
    ensures (a + src - 1) / src >= 0
    ensures var k := (a + src - 1) / src; k * src >= a && (k - 1) * src < a
  {
    var k := (a + src - 1) / src;
    assert a + src - 1 == k * src + (a + src - 1) % src;
    assert (k - 1) * src == k * src - src;
  }

  /** How many samples `n` inputs make. */
  function Count(n: nat, src: nat, dst: nat): nat
    requires src > 0
  {
    if n == 0 then 0 else CeilRatio(n - 1, dst, src)
  }

  /** The input, linearly interpolated at position k * src / dst. */
  function At(xs: seq<real>, k: nat, src: nat, dst: nat): real
    requires dst > 0
    requires k * src / dst + 1 < |xs|
  {
    var i := k * src / dst;
    Lerp(xs[i], xs[i + 1], k * src % dst, dst)
  }

  /** The value `num / den` of the way from `a` to `b`. */
  function Lerp(a: real, b: real, num: nat, den: nat): real
    requires den > 0
  {
    a + (b - a) * (num as real / den as real)
  }

  /** Everything that a whole input is resampled to. */
  function Resampled(xs: seq<real>, src: nat, dst: nat): (r: seq<real>)
    requires src > 0 && dst > 0
    ensures |r| == Count(|xs|, src, dst)
  {
    seq(Count(|xs|, src, dst), k requires 0 <= k < Count(|xs|, src, dst) =>
      InRange(|xs|, k, src, dst);
      At(xs, k, src, dst))
  }

  lemma InRange(n: nat, k: nat, src: nat, dst: nat)
    requires src > 0 && dst > 0 && k < Count(n, src, dst)
    ensures n >= 2 && k * src / dst + 1 < n
  {
    var c := CeilRatio(n - 1, dst, src);
    MulMonotone(k, c - 1, src);
    DivBelow(k * src, n - 1, dst);
  }

  lemma MulMonotone(a: int, b: int, c: nat)
    requires a <= b
    ensures a * c <= b * c
  {
  }

  lemma DivBelow(a: nat, m: nat, d: nat)
    requires d > 0 && a < m * d
    ensures a / d < m
  {
    assert a == (a / d) * d + a % d;
    if a / d >= m { MulMonotone(m, a / d, d); }
  }

  lemma DivIs(a: nat, q: nat, r: nat, d: nat)
    requires d > 0 && a == q * d + r && r < d
    ensures a / d == q && a % d == r
  {
    assert a == (a / d) * d + a % d;
    if a / d < q { MulMonotone(a / d + 1, q, d); }
    if a / d > q { MulMonotone(q + 1, a / d, d); }
  }

  lemma CountMonotone(m: nat, n: nat, src: nat, dst: nat)
    requires src > 0 && m <= n
    ensures Count(m, src, dst) <= Count(n, src, dst)
  {
    if m > 0 {
      var a, b := Count(m, src, dst), Count(n, src, dst);
      MulMonotone(m - 1, n - 1, dst);
      if a > b { MulMonotone(b, a - 1, src); }
    }
  }

  /** More input never changes what has already been made. */
  lemma {:induction false} ResampledPrefix(xs: seq<real>, ys: seq<real>, src: nat, dst: nat)
    requires src > 0 && dst > 0
    ensures Resampled(xs, src, dst) <= Resampled(xs + ys, src, dst)
  {
    hide At, Count, CeilRatio;
    CountMonotone(|xs|, |xs + ys|, src, dst);
    var r, r' := Resampled(xs, src, dst), Resampled(xs + ys, src, dst);
    forall k: nat | k < |r| ensures r[k] == r'[k] {
      InRange(|xs|, k, src, dst);
      SameAt(xs, ys, k, src, dst);
    }
  }

  lemma SameAt(xs: seq<real>, ys: seq<real>, k: nat, src: nat, dst: nat)
    requires dst > 0 && k * src / dst + 1 < |xs|
    ensures At(xs + ys, k, src, dst) == At(xs, k, src, dst)
  {
    hide Lerp;
  }

  /** An output between two inputs: it is the one or the other at the ends, and
      lies on the line between them. */
  lemma LerpIs(a: real, b: real, num: nat, den: nat)
    requires num <= den && den > 0
    ensures Lerp(a, b, num, den) * den as real == a * (den - num) as real + b * num as real
  {
    var q := num as real / den as real;
    assert q * den as real == num as real;
    assert (b - a) * q * den as real == (b - a) * num as real;
  }

  /** A straight line comes out as the same straight line, at its own rate: output
      number k is the value at time k * src / dst. */
  lemma {:induction false} LinesStayLines(xs: seq<real>, a: real, b: real, src: nat, dst: nat, k: nat)
    requires src > 0 && dst > 0 && forall i :: 0 <= i < |xs| ==> xs[i] == a + b * i as real
    requires k < |Resampled(xs, src, dst)|
    ensures Resampled(xs, src, dst)[k] * dst as real == a * dst as real + b * (k * src) as real
  {
    hide Count, Lerp;
    InRange(|xs|, k, src, dst);
    var i, num := k * src / dst, k * src % dst;
    LerpIs(xs[i], xs[i + 1], num, dst);
    assert k * src == i * dst + num;
    LineBetween(a, b, i, num, dst);
  }

  lemma LineBetween(a: real, b: real, i: nat, num: nat, den: nat)
    requires num <= den
    ensures (a + b * i as real) * (den - num) as real + (a + b * (i + 1) as real) * num as real
            == a * den as real + b * (i * den + num) as real
  {
    var x, n, d := i as real, num as real, den as real;
    assert (i + 1) as real == x + 1.0 && (den - num) as real == d - n && (i * den + num) as real == x * d + n by {
      assert (i * den) as real == x * d;
    }
    assert (a + b * x) * (d - n) + (a + b * (x + 1.0)) * n == a * d + b * (x * d + n);
  }

  /** Where an output falls on an input it is that input, and at equal rates the
      output is the input, but for the last sample. */
  lemma {:induction false} InputsStay(xs: seq<real>, src: nat, dst: nat, k: nat)
    requires src > 0 && dst > 0 && k < |Resampled(xs, src, dst)| && k * src % dst == 0
    ensures k * src / dst < |xs| && Resampled(xs, src, dst)[k] == xs[k * src / dst]
  {
    hide Count;
    InRange(|xs|, k, src, dst);
  }

  /** What `n` more inputs make, give or take the phase: at most the ceiling of
      their exact share, and at least one less than its floor. */
  lemma {:induction false} CountOfChunk(m: nat, n: nat, src: nat, dst: nat)
    requires src > 0
    ensures Count(m + n, src, dst) - Count(m, src, dst) <= CeilRatio(n, dst, src)
    ensures m > 0 ==> (Count(m + n, src, dst) - Count(m, src, dst) + 1) * src > n * dst
  {
    hide CeilRatio;
    if m == 0 {
      if n > 0 {
        CountMonotone(n, n + 1, src, dst);
      }
    } else {
      assert (m + n - 1) * dst == (m - 1) * dst + n * dst;
      CeilingsDiffer(CeilRatio(m - 1, dst, src), CeilRatio(m + n - 1, dst, src), CeilRatio(n, dst, src),
                     (m - 1) * dst, n * dst, src);
    }
  }

  /** Of the ceilings of x/src, (x+y)/src and y/src, the third is at least the
      difference of the others, and that is less than one below y/src. */
  lemma CeilingsDiffer(a: nat, b: nat, c: nat, x: nat, y: nat, src: nat)
    requires a * src >= x && (a - 1) * src < x
    requires b * src >= x + y && (b - 1) * src < x + y
    requires c * src >= y
    ensures b - a <= c && (b - a + 1) * src > y
  {
    assert (b - a - 1) * src == (b - 1) * src - a * src;
    assert (b - a + 1) * src == b * src - (a - 1) * src;
    if b - a > c { MulMonotone(c, b - a - 1, src); }
  }

  /** The phase once `n` inputs have been taken. */
  predicate PhaseAfter(phase: nat, n: nat, src: nat, dst: nat)
    requires src > 0
  {
    phase == Count(n, src, dst) * src - (n - 1) * dst
  }

  class Resampler {
    const src: nat
    const dst: nat
    var phase: nat
    var prev: real
    var havePrev: bool
    // Everything fed to it so far.
    ghost var fed: seq<real>

    ghost predicate Valid()
      reads this
    {
      && src > 0 && dst > 0
      && (havePrev <==> fed != [])
      && (fed == [] ==> phase == 0)
      && (fed != [] ==>
            && prev == fed[|fed| - 1]
            && PhaseAfter(phase, |fed|, src, dst))
    }

    constructor (src: nat, dst: nat)
      requires src > 0 && dst > 0
      ensures Valid() && fed == [] && this.src == src && this.dst == dst
    {
      this.src, this.dst := src, dst;
      phase, prev, havePrev, fed := 0, 0.0, false, [];
    }

    /** One more input sample: what it adds is what the input so far is resampled
        to, less what has been made before. */
    method Feed(cur: real, out: seq<real>) returns (out': seq<real>)
      requires Valid()
      modifies this
      ensures Valid() && fed == old(fed) + [cur]
      ensures Count(|old(fed)|, src, dst) <= Count(|fed|, src, dst)
      ensures out' == out + Resampled(fed, src, dst)[Count(|old(fed)|, src, dst)..]
    {
      hide Makes, InPhase, Count, Resampled, PhaseAfter, Lerp;
      out' := out;
      ghost var n, xs, c0 := |fed|, fed + [cur], Count(|fed|, src, dst);
      CountMonotone(n, n + 1, src, dst);
      if !havePrev {
        prev, havePrev, fed := cur, true, xs;
        NothingFromOne(src, dst);
        assert fed == [cur] && Resampled(fed, src, dst)[c0..] == [];
        return;
      }
      ghost var made: seq<real> := [];
      MakesNone(xs, c0, src, dst);
      PhaseStart(phase, n, src, dst);
      while phase < dst
        invariant src > 0 && dst > 0 && havePrev && prev == xs[n - 1] && fed == xs[..n]
        invariant InPhase(phase, c0 + |made|, n, src, dst)
        invariant out' == out + made && Makes(xs, c0, made, src, dst)
        decreases dst - phase
      {
        PhaseStep(phase, c0 + |made|, n, src, dst);
        var v := Lerp(prev, cur, phase, dst);
        NextMade(xs, c0, made, n, phase, src, dst);
        made := made + [v];
        out' := out' + [v];
        phase := phase + src;
      }
      PhaseEnd(phase, c0 + |made|, n, src, dst);
      phase, prev, fed := phase - dst, cur, xs;
      Assembled(xs, c0, made, src, dst);
    }

    /** Each call appends what the whole input so far is resampled to, less what
        earlier calls have appended. */
    method Process(input: seq<real>, out: seq<real>) returns (out': seq<real>)
      requires Valid()
      modifies this
      ensures Valid() && fed == old(fed) + input
      ensures Count(|old(fed)|, src, dst) <= Count(|fed|, src, dst)
      ensures out' == out + Resampled(fed, src, dst)[Count(|old(fed)|, src, dst)..]
    {
      out' := out;
      ghost var c0 := Count(|fed|, src, dst);
      assert out' == out + Resampled(fed, src, dst)[c0..];
      for j := 0 to |input|
        invariant Valid() && fed == old(fed) + input[..j]
        invariant c0 <= Count(|fed|, src, dst) && out' == out + Resampled(fed, src, dst)[c0..]
      {
        ghost var before := fed;
        ResampledPrefix(before, [input[j]], src, dst);
        out' := Feed(input[j], out');
        assert old(fed) + input[..j + 1] == before + [input[j]];
        ghost var r, r' := Resampled(before, src, dst), Resampled(fed, src, dst);
        assert r[c0..] + r'[|r|..] == r'[c0..];
      }
      assert input[..|input|] == input;
    }
  }

  /** `made` is what the outputs from number `c0` on should be. */
  predicate Makes(xs: seq<real>, c0: nat, made: seq<real>, src: nat, dst: nat) {
    forall i :: 0 <= i < |made| ==> MadeAt(xs, c0 + i, src, dst, made[i])
  }

  predicate MadeAt(xs: seq<real>, k: nat, src: nat, dst: nat, v: real) {
    dst > 0 && k * src / dst + 1 < |xs| && v == At(xs, k, src, dst)
  }

  lemma MakesNone(xs: seq<real>, c0: nat, src: nat, dst: nat)
    ensures Makes(xs, c0, [], src, dst)
  {
  }

  lemma NothingFromOne(src: nat, dst: nat)
    requires src > 0
    ensures Count(0, src, dst) == 0 && Count(1, src, dst) == 0 && PhaseAfter(0, 1, src, dst)
  {
  }

  /** After `k` outputs, between inputs `n - 1` and `n`. */
  predicate InPhase(phase: nat, k: nat, n: nat, src: nat, dst: nat) {
    n > 0 && phase == k * src - (n - 1) * dst && (k - 1) * src < n * dst
  }

  lemma PhaseStart(phase: nat, n: nat, src: nat, dst: nat)
    requires src > 0 && dst > 0 && n > 0 && PhaseAfter(phase, n, src, dst)
    ensures InPhase(phase, Count(n, src, dst), n, src, dst)
  {
    MulMonotone(n - 1, n, dst);
  }

  lemma PhaseStep(phase: nat, k: nat, n: nat, src: nat, dst: nat)
    requires InPhase(phase, k, n, src, dst) && phase < dst
    ensures InPhase(phase + src, k + 1, n, src, dst)
  {
    assert (k + 1) * src == k * src + src;
    assert n * dst == (n - 1) * dst + dst;
  }

  lemma PhaseEnd(phase: nat, k: nat, n: nat, src: nat, dst: nat)
    requires src > 0 && InPhase(phase, k, n, src, dst) && phase >= dst
    ensures Count(n + 1, src, dst) == k && PhaseAfter(phase - dst, n + 1, src, dst)
  {
    assert n * dst == (n - 1) * dst + dst;
    CountIs(n + 1, k, src, dst);
  }

  lemma NextMade(xs: seq<real>, c0: nat, made: seq<real>, n: nat, phase: nat, src: nat, dst: nat)
    requires dst > 0 && |xs| == n + 1 && Makes(xs, c0, made, src, dst)
    requires InPhase(phase, c0 + |made|, n, src, dst) && phase < dst
    ensures Makes(xs, c0, made + [Lerp(xs[n - 1], xs[n], phase, dst)], src, dst)
  {
    DivIs((c0 + |made|) * src, n - 1, phase, dst);
    hide At, Lerp;
    Snoc(xs, c0, made, At(xs, c0 + |made|, src, dst), src, dst);
  }

  lemma Snoc(xs: seq<real>, c0: nat, made: seq<real>, v: real, src: nat, dst: nat)
    requires Makes(xs, c0, made, src, dst) && MadeAt(xs, c0 + |made|, src, dst, v)
    ensures Makes(xs, c0, made + [v], src, dst)
  {
    hide MadeAt;
  }

  lemma CountIs(n: nat, k: nat, src: nat, dst: nat)
    requires src > 0 && n > 0 && k * src >= (n - 1) * dst && (k - 1) * src < (n - 1) * dst
    ensures Count(n, src, dst) == k
  {
    var c := Count(n, src, dst);
    if c < k { MulMonotone(c, k - 1, src); }
    if k < c { MulMonotone(k, c - 1, src); }
  }

  lemma Assembled(xs: seq<real>, c0: nat, made: seq<real>, src: nat, dst: nat)
    requires src > 0 && dst > 0 && Makes(xs, c0, made, src, dst) && c0 + |made| == Count(|xs|, src, dst)
    ensures made == Resampled(xs, src, dst)[c0..]
  {
    hide At, Count;
    var r := Resampled(xs, src, dst);
    forall j | 0 <= j < |made| ensures made[j] == r[c0..][j] {
      assert MadeAt(xs, c0 + j, src, dst, made[j]);
    }
  }
}
