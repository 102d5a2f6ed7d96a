// The capture-path gate, compressor and limiter (apps/companion-core/src/audio.rs)
// in real arithmetic. The five smoothing coefficients are exponentials of
// negative numbers in the source; here they are any values between 0 and 1.

module DspChain {
  function Abs(x: real): real {
    if x < 0.0 then -x else x
  }

  function Max(a: real, b: real): real {
    if a < b then b else a
  }

  function Clamp(x: real, lo: real, hi: real): real
    requires lo <= hi
  {
    if x < lo then lo else if x > hi then hi else x
  }

  datatype Config = Config(gate: bool, gateThreshold: real, compressor: bool, compThreshold: real, compRatio: real,
                           compMakeup: real, limiter: bool, limiterCeiling: real)

  /** What the settings command lets through. */
  function Normalized(c: Config): (n: Config)
    ensures Sane(n) && (n == c <==> Sane(c))
  {
    c.(gateThreshold := Clamp(c.gateThreshold, 0.0, 0.5),
       compThreshold := Clamp(c.compThreshold, 0.01, 1.0),
       compRatio := Clamp(c.compRatio, 1.0, 20.0),
       compMakeup := Clamp(c.compMakeup, 0.1, 4.0),
       limiterCeiling := Clamp(c.limiterCeiling, 0.05, 1.0))
  }

  predicate Sane(c: Config) {
    && 0.0 <= c.gateThreshold <= 0.5 && 0.01 <= c.compThreshold <= 1.0 && 1.0 <= c.compRatio <= 20.0
    && 0.1 <= c.compMakeup <= 4.0 && 0.05 <= c.limiterCeiling <= 1.0
  }

  datatype Coefs = Coefs(atk: real, rel: real, gateOpen: real, gateClose: real, limRel: real)
  {
    predicate Smoothing() {
      0.0 < atk < 1.0 && 0.0 < rel < 1.0 && 0.0 < gateOpen < 1.0 && 0.0 < gateClose < 1.0 && 0.0 < limRel < 1.0
    }
  }

  /** The chain's memory: two envelopes and two gains. */
  datatype Memory = Memory(gateEnv: real, gateGain: real, compEnv: real, limGain: real)

  const REST: Memory := Memory(0.0, 1.0, 0.0, 1.0)

  function Mix(coef: real, a: real, b: real): real {
    coef * a + (1.0 - coef) * b
  }

  function Amplify(s: real, gain: real): real {
    s * gain
  }

  /** The gate: memory and output. */
  function Gate(m: Memory, k: Coefs, c: Config, s: real): (Memory, real) {
    if !c.gate then (m, s)
    else
      var a := Abs(s);
      var env := if a > m.gateEnv then a else Mix(k.rel, m.gateEnv, a);
      var target := if env >= c.gateThreshold then 1.0 else 0.0;
      var gain := Mix(if target > m.gateGain then k.gateOpen else k.gateClose, m.gateGain, target);
      (m.(gateEnv := env, gateGain := gain), Amplify(s, gain))
  }

  /** The gain of the compressor at a given envelope. */
  function CompGain(c: Config, env: real): real {
    if env > c.compThreshold
    then (c.compThreshold + (env - c.compThreshold) / Max(c.compRatio, 1.0)) / Max(env, 0.000001)
    else 1.0
  }

  function Compress(m: Memory, k: Coefs, c: Config, s: real): (Memory, real) {
    if !c.compressor then (m, s)
    else
      var a := Abs(s);
      var env := Mix(if a > m.compEnv then k.atk else k.rel, m.compEnv, a);
      (m.(compEnv := env), Amplify(Amplify(s, CompGain(c, env)), c.compMakeup))
  }

  function LimitTarget(peak: real, ceil: real): real {
    if peak > ceil && peak > 0.0 then ceil / peak else 1.0
  }

  function LimitGain(g: real, k: Coefs, c: Config, peak: real): real {
    var target := LimitTarget(peak, Clamp(c.limiterCeiling, 0.05, 1.0));
    if target < g then target else Mix(k.limRel, g, 1.0)
  }

  function Limit(m: Memory, k: Coefs, c: Config, s: real): (Memory, real) {
    if !c.limiter then (m, s)
    else
      var gain := LimitGain(m.limGain, k, c, Abs(s));
      (m.(limGain := gain), Amplify(s, gain))
  }

  /** One sample through the chain, and through the final clamp. */
  function Step(m: Memory, k: Coefs, c: Config, x: real): (Memory, real) {
    var g := Gate(m, k, c, x);
    var p := Compress(g.0, k, c, g.1);
    var l := Limit(p.0, k, c, p.1);
    (l.0, Clamp(l.1, -1.0, 1.0))
  }

  /** The sample the limiter sees, and what it makes of it. */
  function LimiterIn(m: Memory, k: Coefs, c: Config, x: real): real {
    var g := Gate(m, k, c, x);
    Compress(g.0, k, c, g.1).1
  }

  function LimiterOut(m: Memory, k: Coefs, c: Config, x: real): real {
    var g := Gate(m, k, c, x);
    var p := Compress(g.0, k, c, g.1);
    Limit(p.0, k, c, p.1).1
  }

  datatype Input = Input(x: real, c: Config)

  predicate Proper(i: Input) {
    -1.0 <= i.x <= 1.0 && Sane(i.c)
  }

  function After(k: Coefs, ins: seq<Input>): Memory {
    if ins == [] then REST
    else
      var last := ins[|ins| - 1];
      Step(After(k, ins[..|ins| - 1]), k, last.c, last.x).0
  }

  predicate InRange(m: Memory) {
    && 0.0 <= m.gateEnv <= 1.0 && 0.0 <= m.gateGain <= 1.0
    && 0.0 <= m.compEnv <= 1.0 && 0.0 < m.limGain <= 1.0
  }

  lemma Scale(a: real, b: real, c: real)
    requires a <= b && 0.0 <= c
    ensures a * c <= b * c && c * a <= c * b
  {
  }

  lemma SignOfProduct(x: real, d: real)
    requires d > 0.0
    ensures (x * d > 0.0 <==> x > 0.0) && (x * d < 0.0 <==> x < 0.0)
  {
  }

  lemma MixSame(coef: real, a: real)
    ensures Mix(coef, a, a) == a
  {
    assert coef * a + (1.0 - coef) * a == (coef + (1.0 - coef)) * a;
  }

  lemma MixBetween(coef: real, a: real, b: real, lo: real, hi: real)
    requires 0.0 < coef < 1.0 && lo <= a <= hi && lo <= b <= hi
    ensures lo <= Mix(coef, a, b) <= hi
  {
    MixSame(coef, lo);
    MixSame(coef, hi);
    MixMonotone(coef, lo, lo, a, b);
    MixMonotone(coef, a, b, hi, hi);
  }

  lemma MixMonotone(coef: real, a: real, b: real, a': real, b': real)
    requires 0.0 < coef < 1.0 && a <= a' && b <= b'
    ensures Mix(coef, a, b) <= Mix(coef, a', b')
  {
    var d := 1.0 - coef;
    var p, p', q, q' := coef * a, coef * a', d * b, d * b';
    assert p <= p' by { Scale(a, a', coef); }
    assert q <= q' by { Scale(b, b', d); }
    assert Mix(coef, a, b) == p + q && Mix(coef, a', b') == p' + q';
  }

  lemma MixPositive(coef: real, a: real)
    requires 0.0 < coef < 1.0 && 0.0 < a <= 1.0
    ensures 0.0 < Mix(coef, a, 1.0) <= 1.0
  {
    MixBetween(coef, a, 1.0, a, 1.0);
  }

  lemma ScaledDown(s: real, g: real)
    requires 0.0 <= g <= 1.0
    ensures Abs(Amplify(s, g)) <= Abs(s) && Abs(Amplify(s, g)) == Abs(s) * g
  {
    Scale(g, 1.0, Abs(s));
    assert (-s) * g == -(s * g);
    if g > 0.0 { SignOfProduct(s, g); }
  }

  /** The compressor only turns down, and never to nothing. */
  lemma {:induction false} CompGainRange(c: Config, env: real)
    requires Sane(c) && 0.0 <= env
    ensures 0.0 < CompGain(c, env) <= 1.0
  {
    if env > c.compThreshold {
      var over := env - c.compThreshold;
      DivShrinks(over, c.compRatio);
      DivRange(c.compThreshold + over / c.compRatio, env);
    }
  }

  lemma DivShrinks(a: real, d: real)
    requires a >= 0.0 && d >= 1.0
    ensures 0.0 <= a / d <= a
  {
    var q := a / d;
    assert q * d == a;
    SignOfProduct(q, d);
    Scale(1.0, d, q);
  }

  lemma DivRange(a: real, d: real)
    requires 0.0 < a <= d
    ensures 0.0 < a / d <= 1.0
  {
    var q := a / d;
    assert q * d == a;
    SignOfProduct(q, d);
    assert (q - 1.0) * d == a - d;
    SignOfProduct(q - 1.0, d);
  }

  lemma GateRange(m: Memory, k: Coefs, c: Config, s: real)
    requires InRange(m) && k.Smoothing() && Sane(c) && Abs(s) <= 1.0
    ensures InRange(Gate(m, k, c, s).0) && Abs(Gate(m, k, c, s).1) <= 1.0
  {
    if c.gate {
      var a := Abs(s);
      MixBetween(k.rel, m.gateEnv, a, 0.0, 1.0);
      MixBetween(k.gateOpen, m.gateGain, 1.0, 0.0, 1.0);
      MixBetween(k.gateClose, m.gateGain, 0.0, 0.0, 1.0);
      MixBetween(k.gateClose, m.gateGain, 1.0, 0.0, 1.0);
      hide Mix;
      ScaledDown(s, Gate(m, k, c, s).0.gateGain);
    }
  }

  lemma CompressRange(m: Memory, k: Coefs, c: Config, s: real)
    requires InRange(m) && k.Smoothing() && Sane(c) && Abs(s) <= 1.0
    ensures InRange(Compress(m, k, c, s).0)
    ensures Abs(Compress(m, k, c, s).1) <= Max(1.0, c.compMakeup)
  {
    hide Mix, CompGain, Amplify;
    if c.compressor {
      var env := Compress(m, k, c, s).0.compEnv;
      MixBetween(if Abs(s) > m.compEnv then k.atk else k.rel, m.compEnv, Abs(s), 0.0, 1.0);
      CompGainRange(c, env);
      CompressedBound(s, CompGain(c, env), c.compMakeup);
    }
  }

  lemma CompressedBound(s: real, gain: real, makeup: real)
    requires Abs(s) <= 1.0 && 0.0 < gain <= 1.0 && makeup > 0.0
    ensures Abs(Amplify(Amplify(s, gain), makeup)) <= makeup
  {
    ScaledDown(s, gain);
    MakeupBound(Amplify(s, gain), makeup);
  }

  lemma MakeupBound(s: real, makeup: real)
    requires Abs(s) <= 1.0 && makeup > 0.0
    ensures Abs(Amplify(s, makeup)) <= makeup
  {
    assert Abs(s * makeup) == Abs(s) * makeup;
    Scale(Abs(s), 1.0, makeup);
  }

  lemma LimitGainRange(g: real, k: Coefs, c: Config, peak: real)
    requires 0.0 < g <= 1.0 && k.Smoothing() && Sane(c) && 0.0 <= peak
    ensures 0.0 < LimitGain(g, k, c, peak) <= 1.0
  {
    MixPositive(k.limRel, g);
    if peak > c.limiterCeiling { DivRange(c.limiterCeiling, peak); }
  }

  /** For every input in [-1, 1] and every sequence of normalised settings the
      gains and envelopes stay in range. */
  lemma {:induction false} GainsInRange(k: Coefs, ins: seq<Input>)
    requires k.Smoothing() && forall i :: 0 <= i < |ins| ==> Proper(ins[i])
    ensures InRange(After(k, ins))
  {
    hide Gate, Compress, LimitGain;
    if ins != [] {
      GainsInRange(k, ins[..|ins| - 1]);
      var m, x, c := After(k, ins[..|ins| - 1]), ins[|ins| - 1].x, ins[|ins| - 1].c;
      assert Proper(ins[|ins| - 1]);
      GateRange(m, k, c, x);
      var g := Gate(m, k, c, x);
      CompressRange(g.0, k, c, g.1);
      var p := Compress(g.0, k, c, g.1);
      LimitGainRange(p.0.limGain, k, c, Abs(p.1));
    }
  }

  lemma UnderTarget(g: real, ceil: real, peak: real)
    requires 0.0 < peak && g <= ceil / peak
    ensures g * peak <= ceil
  {
    var t := ceil / peak;
    assert t * peak == ceil;
    Scale(g, t, peak);
  }

  lemma MixScaled(rel: real, g: real, peak: real)
    ensures peak * Mix(rel, g, 1.0) == rel * (g * peak) + (1.0 - rel) * peak
  {
    assert peak * (rel * g) == rel * (g * peak);
  }

  lemma ShareOfExcess(rel: real, ceil: real, peak: real)
    ensures rel * ceil + (1.0 - rel) * peak == ceil + (1.0 - rel) * (peak - ceil)
  {
  }

  lemma QuietRelease(g: real, rel: real, ceil: real, peak: real)
    requires 0.0 < rel < 1.0 && 0.0 <= peak <= ceil && 0.0 < g <= 1.0
    ensures peak * Mix(rel, g, 1.0) <= ceil
  {
    MixPositive(rel, g);
    Scale(Mix(rel, g, 1.0), 1.0, peak);
  }

  /** One release step towards 1 overshoots the ceiling by at most the share of
      the excess that the step lets through. */
  lemma ReleaseBound(g: real, rel: real, ceil: real, peak: real)
    requires 0.0 < rel < 1.0 && 0.0 < ceil <= 1.0 && 0.0 <= peak && 0.0 < g <= 1.0
    requires g <= LimitTarget(peak, ceil)
    ensures peak * Mix(rel, g, 1.0) <= ceil + (1.0 - rel) * Max(0.0, peak - ceil)
  {
    hide Mix;
    if peak > ceil {
      UnderTarget(g, ceil, peak);
      Scale(g * peak, ceil, rel);
      MixScaled(rel, g, peak);
      ShareOfExcess(rel, ceil, peak);
    } else {
      QuietRelease(g, rel, ceil, peak);
    }
  }

  lemma LimitBound(m: Memory, k: Coefs, c: Config, s: real)
    requires InRange(m) && k.Smoothing() && Sane(c) && c.limiter
    ensures Abs(Limit(m, k, c, s).1) <= c.limiterCeiling + (1.0 - k.limRel) * Max(0.0, Abs(s) - c.limiterCeiling)
  {
    var peak, ceil := Abs(s), c.limiterCeiling;
    LimitGainRange(m.limGain, k, c, peak);
    var gain := LimitGain(m.limGain, k, c, peak);
    ScaledDown(s, gain);
    if LimitTarget(peak, ceil) < m.limGain {
      assert peak > ceil && gain * peak == ceil;
      Scale(0.0, peak - ceil, 1.0 - k.limRel);
    } else {
      ReleaseBound(m.limGain, k.limRel, ceil, peak);
    }
  }

  /** After any history, the limiter's output is within the overshoot bound, and
      its input within the makeup gain. */
  lemma {:induction false} LimiterOvershoot(k: Coefs, ins: seq<Input>, x: real, c: Config)
    requires k.Smoothing() && (forall i :: 0 <= i < |ins| ==> Proper(ins[i])) && Proper(Input(x, c)) && c.limiter
    ensures var m := After(k, ins);
            var peak := Abs(LimiterIn(m, k, c, x));
            && peak <= Max(1.0, c.compMakeup)
            && Abs(LimiterOut(m, k, c, x)) <= c.limiterCeiling + (1.0 - k.limRel) * Max(0.0, peak - c.limiterCeiling)
            && Step(m, k, c, x).1 == Clamp(LimiterOut(m, k, c, x), -1.0, 1.0)
  {
    hide Gate, Compress, Limit;
    GainsInRange(k, ins);
    var m := After(k, ins);
    GateRange(m, k, c, x);
    var g := Gate(m, k, c, x);
    CompressRange(g.0, k, c, g.1);
    var p := Compress(g.0, k, c, g.1);
    LimitBound(p.0, k, c, p.1);
  }

  lemma OverCeiling(peak: real, gain: real, ceil: real)
    requires peak > 0.0
    ensures peak * gain > ceil <==> gain > ceil / peak
  {
    var target := ceil / peak;
    assert target * peak == ceil;
    assert (gain - target) * peak == peak * gain - ceil;
    SignOfProduct(gain - target, peak);
  }

  /** The limiter lets a peak through exactly when its gain is at or below the
      target and one release step takes it past the target. */
  lemma {:induction false} PeakGetsThroughIff(m: Memory, k: Coefs, c: Config, s: real)
    requires InRange(m) && k.Smoothing() && Sane(c) && c.limiter && Abs(s) > c.limiterCeiling
    ensures var target := c.limiterCeiling / Abs(s);
            Abs(Limit(m, k, c, s).1) > c.limiterCeiling <==>
              m.limGain <= target && Mix(k.limRel, m.limGain, 1.0) > target
  {
    hide Mix, Amplify;
    var peak := Abs(s);
    var gain := LimitGain(m.limGain, k, c, peak);
    LimitGainRange(m.limGain, k, c, peak);
    ScaledDown(s, gain);
    OverCeiling(peak, gain, c.limiterCeiling);
  }

  /** Only the limiter, with its ceiling at one half. */
  const HALF: Config := Config(false, 0.0, false, 1.0, 1.0, 1.0, true, 0.5)

  /** A steady full-scale input gets through on its second sample, by exactly the
      overshoot bound: the bound cannot be improved. */
  lemma {:induction false} SteadyPeakOvershoots(k: Coefs)
    requires k.Smoothing()
    ensures var m := After(k, [Input(1.0, HALF)]);
            && LimiterIn(m, k, HALF, 1.0) == 1.0
            && LimiterOut(m, k, HALF, 1.0) == 0.5 + (1.0 - k.limRel) * Max(0.0, 1.0 - 0.5)
            && LimiterOut(m, k, HALF, 1.0) > 0.5
  {
    var one := [Input(1.0, HALF)];
    assert one[..0] == [];
    assert After(k, one[..0]) == REST;
    var m := After(k, one);
    assert m == Step(REST, k, HALF, 1.0).0;
    assert LimitTarget(1.0, 0.5) == 0.5 && m.limGain == 0.5;
    assert LimitGain(0.5, k, HALF, 1.0) == Mix(k.limRel, 0.5, 1.0);
    assert Mix(k.limRel, 0.5, 1.0) == 0.5 + (1.0 - k.limRel) * 0.5;
  }

  // ----- what each stage does, sample by sample

  /** The level detector of the gate: it jumps up to a louder sample, and falls
      towards a quieter one by the release share. */
  predicate Detects(env: real, env': real, rel: real, level: real) {
    if level > env then env' == level else env' - level == rel * (env - level)
  }

  /** The gate opens while the detected level is at or above the threshold, and
      closes while it is below: the share left of the way is the coefficient. */
  predicate Gated(m: Memory, m': Memory, k: Coefs, threshold: real, level: real) {
    && Detects(m.gateEnv, m'.gateEnv, k.rel, level)
    && (if m'.gateEnv >= threshold then 1.0 - m'.gateGain == k.gateOpen * (1.0 - m.gateGain)
        else m'.gateGain == k.gateClose * m.gateGain)
  }

  /** The compressor's envelope follows the level, faster up than down or the other
      way round, as the two coefficients say. */
  predicate Follows(env: real, env': real, atk: real, rel: real, level: real) {
    level - env' == (if level > env then atk else rel) * (level - env)
  }

  /** The static curve: below the threshold a level stays as it is, and above it
      what is over is divided by the ratio. */
  predicate OnCurve(gain: real, c: Config, env: real) {
    if env > c.compThreshold then (gain * env - c.compThreshold) * c.compRatio == env - c.compThreshold
    else gain == 1.0
  }

  /** A peak that the old gain would let past the ceiling is put on it; otherwise
      the gain goes back towards 1 by the release share. */
  predicate Limited(g: real, g': real, rel: real, ceil: real, peak: real) {
    if peak * g > ceil then peak * g' == ceil else 1.0 - g' == rel * (1.0 - g)
  }

  lemma MixLaw(coef: real, a: real, b: real)
    ensures b - Mix(coef, a, b) == coef * (b - a)
    ensures Mix(coef, a, b) - b == coef * (a - b)
  {
    assert b - (coef * a + (1.0 - coef) * b) == coef * b - coef * a;
  }

  /** What a stage makes of a signal: with its gain if it is on, or as it is. */
  function Weighed(on: bool, s: real, gain: real): real {
    if on then s * gain else s
  }

  lemma GateLaw(m: Memory, k: Coefs, c: Config, x: real)
    requires InRange(m) && k.Smoothing()
    ensures var (m', y) := Gate(m, k, c, x);
            && y == Weighed(c.gate, x, m'.gateGain)
            && (if c.gate then Gated(m, m', k, c.gateThreshold, Abs(x))
                else m'.gateEnv == m.gateEnv && m'.gateGain == m.gateGain)
            && m'.compEnv == m.compEnv && m'.limGain == m.limGain
  {
    hide Mix;
    if c.gate {
      MixLaw(k.rel, m.gateEnv, Abs(x));
      MixLaw(k.gateOpen, m.gateGain, 1.0);
      MixLaw(k.gateClose, m.gateGain, 0.0);
      MixSame(k.gateClose, 1.0);
    }
  }

  lemma CurveLaw(c: Config, env: real)
    requires Sane(c)
    ensures OnCurve(CompGain(c, env), c, env)
  {
    if env > c.compThreshold {
      var over := c.compThreshold + (env - c.compThreshold) / c.compRatio;
      assert CompGain(c, env) == over / env;
      assert over / env * env == over;
      assert (env - c.compThreshold) / c.compRatio * c.compRatio == env - c.compThreshold;
    }
  }

  lemma CompressLaw(m: Memory, k: Coefs, c: Config, s: real)
    requires Sane(c)
    ensures var (m', y) := Compress(m, k, c, s);
            && y == Weighed(c.compressor, Weighed(c.compressor, s, CompGain(c, m'.compEnv)), c.compMakeup)
            && (if c.compressor then Follows(m.compEnv, m'.compEnv, k.atk, k.rel, Abs(s)) else m'.compEnv == m.compEnv)
            && m'.gateEnv == m.gateEnv && m'.gateGain == m.gateGain && m'.limGain == m.limGain
  {
    hide Mix, CompGain;
    if c.compressor { MixLaw(if Abs(s) > m.compEnv then k.atk else k.rel, m.compEnv, Abs(s)); }
  }

  lemma LimitLaw(m: Memory, k: Coefs, c: Config, s: real)
    requires 0.0 < m.limGain <= 1.0 && Sane(c)
    ensures var (m', y) := Limit(m, k, c, s);
            && y == Weighed(c.limiter, s, m'.limGain)
            && (if c.limiter then Limited(m.limGain, m'.limGain, k.limRel, c.limiterCeiling, Abs(s))
                else m'.limGain == m.limGain)
            && m'.gateEnv == m.gateEnv && m'.gateGain == m.gateGain && m'.compEnv == m.compEnv
  {
    hide Mix, Limited, LimitTarget, Abs;
    if c.limiter {
      assert Abs(s) >= 0.0 by { AbsSign(s); }
      LimitedBy(m.limGain, k.limRel, c.limiterCeiling, Abs(s));
    }
  }

  lemma AbsSign(x: real)
    ensures Abs(x) >= 0.0
  {
  }

  lemma LimitedBy(g: real, rel: real, ceil: real, peak: real)
    requires 0.0 < g <= 1.0 && 0.0 < ceil && 0.0 <= peak
    ensures var target := LimitTarget(peak, ceil);
            Limited(g, if target < g then target else Mix(rel, g, 1.0), rel, ceil, peak)
  {
    hide Mix;
    MixLaw(rel, g, 1.0);
    if peak > ceil {
      OverCeiling(peak, g, ceil);
      assert ceil / peak * peak == ceil;
    } else {
      Scale(g, 1.0, peak);
    }
  }

  lemma GatedBy(m: Memory, g: Memory, m': Memory, k: Coefs, c: Config, level: real)
    requires m'.gateEnv == g.gateEnv && m'.gateGain == g.gateGain
    ensures Gated(m, m', k, c.gateThreshold, level) <==> Gated(m, g, k, c.gateThreshold, level)
  {
  }

  /** Every sample, for every memory in range and all normalised settings: the gate
      weighs the input by the level of the input, the compressor what the gate
      leaves by the level of that, with the makeup gain, and the limiter what the
      compressor leaves by its peak; the result is cut off at full scale. A stage
      that is off passes the signal and keeps its memory. */
  lemma {:induction false} ChainLaws(m: Memory, k: Coefs, c: Config, x: real) returns (gain: real)
    requires InRange(m) && k.Smoothing() && Sane(c)
    ensures var (m', y) := Step(m, k, c, x);
            var gated := Weighed(c.gate, x, m'.gateGain);
            var pressed := Weighed(c.compressor, Weighed(c.compressor, gated, gain), c.compMakeup);
            var limited := Weighed(c.limiter, pressed, m'.limGain);
            && y == (if limited < -1.0 then -1.0 else if limited > 1.0 then 1.0 else limited)
            && OnCurve(gain, c, m'.compEnv)
            && (if c.gate then Gated(m, m', k, c.gateThreshold, Abs(x))
                else m'.gateEnv == m.gateEnv && m'.gateGain == m.gateGain)
            && (if c.compressor then Follows(m.compEnv, m'.compEnv, k.atk, k.rel, Abs(gated))
                else m'.compEnv == m.compEnv)
            && (if c.limiter then Limited(m.limGain, m'.limGain, k.limRel, c.limiterCeiling, Abs(pressed))
                else m'.limGain == m.limGain)
  {
    hide Gate, Compress, Limit, CompGain, OnCurve, Gated, Follows, Limited, Abs, Weighed;
    var g := Gate(m, k, c, x);
    GateLaw(m, k, c, x);
    var p := Compress(g.0, k, c, g.1);
    CompressLaw(g.0, k, c, g.1);
    gain := CompGain(c, p.0.compEnv);
    CurveLaw(c, p.0.compEnv);
    LimitLaw(p.0, k, c, p.1);
    GatedBy(m, g.0, Step(m, k, c, x).0, k, c, Abs(x));
  }

  function Pow(x: real, n: nat): real {
    if n == 0 then 1.0 else x * Pow(x, n - 1)
  }

  /** The gate is on, and the input is at or above its threshold. */
  predicate Loud(i: Input) {
    Proper(i) && i.c.gate && Abs(i.x) >= i.c.gateThreshold
  }

  /** The gate is on with this threshold, and the input is below it. */
  predicate Quiet(i: Input, threshold: real) {
    Proper(i) && i.c.gate && i.c.gateThreshold == threshold && Abs(i.x) < threshold
  }

  lemma AfterSnoc(k: Coefs, ins: seq<Input>, i: Input)
    ensures After(k, ins + [i]) == Step(After(k, ins), k, i.c, i.x).0
  {
    assert (ins + [i])[..|ins|] == ins;
  }

  lemma AllProper(ins: seq<Input>, more: seq<Input>)
    requires (forall i :: 0 <= i < |ins| ==> Proper(ins[i])) && (forall i :: 0 <= i < |more| ==> Proper(more[i]))
    ensures forall i :: 0 <= i < |ins + more| ==> Proper((ins + more)[i])
  {
  }

  /** What is at or above the threshold opens the gate: after n such samples the
      gain is short of 1 by what it was short before, times the n-th power of the
      opening coefficient. */
  lemma {:induction false} LoudOpensGate(k: Coefs, ins: seq<Input>, louds: seq<Input>)
    requires k.Smoothing() && (forall i :: 0 <= i < |ins| ==> Proper(ins[i]))
    requires forall i :: 0 <= i < |louds| ==> Loud(louds[i])
    ensures 1.0 - After(k, ins + louds).gateGain == Pow(k.gateOpen, |louds|) * (1.0 - After(k, ins).gateGain)
    decreases |louds|
  {
    hide Step, After, InRange, Proper;
    if louds == [] {
      assert ins + louds == ins;
    } else {
      var front, i := louds[..|louds| - 1], louds[|louds| - 1];
      assert ins + louds == (ins + front) + [i];
      LoudOpensGate(k, ins, front);
      AllProper(ins, front);
      GainsInRange(k, ins + front);
      AfterSnoc(k, ins + front, i);
      LoudStep(After(k, ins + front), k, i);
      TimesPow(k.gateOpen, |front|, 1.0 - After(k, ins).gateGain);
    }
  }

  /** At rest the gate is open: what is at or above the threshold from the start on
      is never turned down. */
  lemma {:induction false} LoudFromRestPasses(k: Coefs, louds: seq<Input>)
    requires k.Smoothing() && forall i :: 0 <= i < |louds| ==> Loud(louds[i])
    ensures After(k, louds).gateGain == 1.0
  {
    hide After, Pow;
    var none: seq<Input> := [];
    assert none + louds == louds;
    AtRest(k, none);
    LoudOpensGate(k, none, louds);
    TimesZero(Pow(k.gateOpen, |louds|), 1.0 - After(k, none).gateGain);
    assert 1.0 - After(k, none + louds).gateGain == 0.0;
  }

  lemma TimesZero(x: real, y: real)
    requires y == 0.0
    ensures x * y == 0.0
  {
  }

  lemma AtRest(k: Coefs, ins: seq<Input>)
    requires ins == []
    ensures After(k, ins).gateGain == 1.0
  {
  }

  lemma TimesPow(x: real, n: nat, y: real)
    ensures x * (Pow(x, n) * y) == Pow(x, n + 1) * y
  {
    assert Pow(x, n + 1) == x * Pow(x, n);
  }

  lemma LoudStep(m: Memory, k: Coefs, i: Input)
    requires InRange(m) && k.Smoothing() && Loud(i)
    ensures 1.0 - Step(m, k, i.c, i.x).0.gateGain == k.gateOpen * (1.0 - m.gateGain)
  {
    hide Step, Weighed, OnCurve, Follows, Limited, Gated, Abs;
    var gain := ChainLaws(m, k, i.c, i.x);
    OpensAt(m, Step(m, k, i.c, i.x).0, k, i.c.gateThreshold, Abs(i.x));
  }

  lemma OpensAt(m: Memory, m': Memory, k: Coefs, threshold: real, level: real)
    requires k.Smoothing() && Gated(m, m', k, threshold, level) && level >= threshold
    ensures 1.0 - m'.gateGain == k.gateOpen * (1.0 - m.gateGain)
  {
    if level <= m.gateEnv { ShareAbove(k.rel, m.gateEnv, level, m'.gateEnv); }
  }

  lemma ClosesAt(m: Memory, m': Memory, k: Coefs, threshold: real, level: real)
    requires k.Smoothing() && Gated(m, m', k, threshold, level) && level < threshold && m.gateEnv < threshold
    ensures m'.gateEnv < threshold && m'.gateGain == k.gateClose * m.gateGain
  {
    if level <= m.gateEnv { ShareAbove(k.rel, m.gateEnv, level, m'.gateEnv); }
  }

  lemma ShareAbove(rel: real, env: real, level: real, env': real)
    requires 0.0 < rel < 1.0 && level <= env && env' - level == rel * (env - level)
    ensures level <= env' <= env
  {
    Scale(rel, 1.0, env - level);
    Scale(0.0, rel, env - level);
  }

  /** What is below the threshold, once the detector is below it too, closes the
      gate: the gain falls with the n-th power of the closing coefficient. */
  lemma {:induction false} QuietClosesGate(k: Coefs, ins: seq<Input>, quiets: seq<Input>, threshold: real)
    requires k.Smoothing() && (forall i :: 0 <= i < |ins| ==> Proper(ins[i]))
    requires After(k, ins).gateEnv < threshold && forall i :: 0 <= i < |quiets| ==> Quiet(quiets[i], threshold)
    ensures After(k, ins + quiets).gateEnv < threshold
    ensures After(k, ins + quiets).gateGain == Pow(k.gateClose, |quiets|) * After(k, ins).gateGain
    decreases |quiets|
  {
    hide Step, After, InRange, Proper;
    if quiets == [] {
      assert ins + quiets == ins;
    } else {
      var front, i := quiets[..|quiets| - 1], quiets[|quiets| - 1];
      assert ins + quiets == (ins + front) + [i];
      QuietClosesGate(k, ins, front, threshold);
      AllProper(ins, front);
      GainsInRange(k, ins + front);
      AfterSnoc(k, ins + front, i);
      QuietStep(After(k, ins + front), k, i, threshold);
      TimesPow(k.gateClose, |front|, After(k, ins).gateGain);
    }
  }

  lemma QuietStep(m: Memory, k: Coefs, i: Input, threshold: real)
    requires InRange(m) && k.Smoothing() && Quiet(i, threshold) && m.gateEnv < threshold
    ensures var m' := Step(m, k, i.c, i.x).0; m'.gateEnv < threshold && m'.gateGain == k.gateClose * m.gateGain
  {
    hide Step, Weighed, OnCurve, Follows, Limited, Gated, Abs;
    var gain := ChainLaws(m, k, i.c, i.x);
    ClosesAt(m, Step(m, k, i.c, i.x).0, k, threshold, Abs(i.x));
  }

  /** The settings leave this input alone: it is at or above the gate's threshold,
      not above the compressor's, which adds nothing, and not above the ceiling. */
  predicate Between(i: Input, c: Config) {
    && Proper(i) && i.c == c && (c.gate ==> Abs(i.x) >= c.gateThreshold)
    && (c.compressor ==> Abs(i.x) <= c.compThreshold && c.compMakeup == 1.0)
    && (c.limiter ==> Abs(i.x) <= c.limiterCeiling)
  }

  predicate Untouched(m: Memory, c: Config) {
    InRange(m) && m.gateGain == 1.0 && m.limGain == 1.0 && (c.compressor ==> m.compEnv <= c.compThreshold)
  }

  lemma BetweenStep(m: Memory, k: Coefs, c: Config, i: Input)
    requires k.Smoothing() && Between(i, c) && Untouched(m, c) && InRange(Step(m, k, c, i.x).0)
    ensures Step(m, k, c, i.x).1 == i.x && Untouched(Step(m, k, c, i.x).0, c)
  {
    hide Step, Weighed, Follows, Limited, Gated, Abs;
    var gain := ChainLaws(m, k, c, i.x);
    var m' := Step(m, k, c, i.x).0;
    assert k.gateOpen * 0.0 == 0.0;
    if c.gate { LoudStep(m, k, Input(i.x, c)); }
    WeighedByOne(c.gate, i.x);
    if c.compressor {
      EnvelopeBetween(m.compEnv, m'.compEnv, k.atk, k.rel, Abs(i.x), c.compThreshold);
    }
    WeighedByOne(c.compressor, i.x);
    if c.limiter { StaysOpen(m'.limGain, k.limRel, c.limiterCeiling, Abs(i.x)); }
    WeighedByOne(c.limiter, i.x);
  }

  lemma WeighedByOne(on: bool, s: real)
    ensures Weighed(on, s, 1.0) == s && (!on ==> forall gain :: Weighed(on, s, gain) == s)
  {
  }

  lemma StaysOpen(g': real, rel: real, ceil: real, peak: real)
    requires Limited(1.0, g', rel, ceil, peak) && peak <= ceil
    ensures g' == 1.0
  {
  }

  lemma EnvelopeBetween(env: real, env': real, atk: real, rel: real, level: real, top: real)
    requires 0.0 < atk < 1.0 && 0.0 < rel < 1.0 && Follows(env, env', atk, rel, level) && env <= top && level <= top
    ensures env' <= top
  {
    if level > env {
      Scale(0.0, level - env, atk);
    } else {
      OtherWay(rel, level, env);
      ShareAbove(rel, env, level, env');
    }
  }

  lemma OtherWay(x: real, a: real, b: real)
    ensures x * (a - b) == -(x * (b - a))
  {
  }

  /** A signal between the thresholds comes through unchanged, sample by sample, from
      rest on. */
  lemma {:induction false} BetweenPassesUnchanged(k: Coefs, ins: seq<Input>, i: Input, c: Config)
    requires k.Smoothing() && Between(i, c) && forall j :: 0 <= j < |ins| ==> Between(ins[j], c)
    ensures Step(After(k, ins), k, c, i.x).1 == i.x
  {
    BetweenLeavesUntouched(k, ins, c);
    hide After, Step, InRange;
    AllBetweenProper(ins, c);
    GainsInRange(k, ins + [i]);
    AfterSnoc(k, ins, i);
    BetweenStep(After(k, ins), k, c, i);
  }

  lemma AllBetweenProper(ins: seq<Input>, c: Config)
    requires forall j :: 0 <= j < |ins| ==> Between(ins[j], c)
    ensures forall j :: 0 <= j < |ins| ==> Proper(ins[j])
  {
  }

  lemma {:induction false} BetweenLeavesUntouched(k: Coefs, ins: seq<Input>, c: Config)
    requires k.Smoothing() && Sane(c) && forall j :: 0 <= j < |ins| ==> Between(ins[j], c)
    ensures Untouched(After(k, ins), c)
    decreases |ins|
  {
    hide Step;
    if ins != [] {
      var front, i := ins[..|ins| - 1], ins[|ins| - 1];
      BetweenLeavesUntouched(k, front, c);
      AllBetweenProper(ins, c);
      GainsInRange(k, ins);
      BetweenStep(After(k, front), k, c, i);
    }
  }

  /** The chain as the source keeps it: fields updated in place, sample by sample. */
  class Dsp {
    const k: Coefs
    var gateEnv: real
    var gateGain: real
    var compEnv: real
    var limGain: real

    function Mem(): Memory
      reads this
    {
      Memory(gateEnv, gateGain, compEnv, limGain)
    }

    constructor (k: Coefs)
      ensures this.k == k && Mem() == REST
    {
      this.k := k;
      gateEnv, gateGain, compEnv, limGain := 0.0, 1.0, 0.0, 1.0;
    }

    method Process(x: real, c: Config) returns (y: real)
      modifies this
      ensures (Mem(), y) == Step(old(Mem()), k, c, x)
    {
      hide Mix, CompGain, LimitTarget, Amplify;
      ghost var m := Mem();
      var s := x;
      if c.gate {
        var a := Abs(s);
        gateEnv := if a > gateEnv then a else Mix(k.rel, gateEnv, a);
        var target := if gateEnv >= c.gateThreshold then 1.0 else 0.0;
        var coef := if target > gateGain then k.gateOpen else k.gateClose;
        gateGain := Mix(coef, gateGain, target);
        s := Amplify(s, gateGain);
      }
      ghost var g := Gate(m, k, c, x);
      assert (Mem(), s) == g;
      if c.compressor {
        var a := Abs(s);
        var coef := if a > compEnv then k.atk else k.rel;
        compEnv := Mix(coef, compEnv, a);
        s := Amplify(Amplify(s, CompGain(c, compEnv)), c.compMakeup);
      }
      ghost var p := Compress(g.0, k, c, g.1);
      assert (Mem(), s) == p;
      if c.limiter {
        var ceil := Clamp(c.limiterCeiling, 0.05, 1.0);
        var target := LimitTarget(Abs(s), ceil);
        if target < limGain {
          limGain := target;
        } else {
          limGain := Mix(k.limRel, limGain, 1.0);
        }
        s := Amplify(s, limGain);
      }
      assert (Mem(), s) == Limit(p.0, k, c, p.1);
      y := Clamp(s, -1.0, 1.0);
    }
  }
}
