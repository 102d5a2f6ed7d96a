// The capture path (encode_loop in apps/companion-core/src/audio.rs): chunks of
// any size are resampled to 48 kHz, denoised in blocks of 480, and cut into
// frames of 960. The denoiser is an arbitrary state-threading block function.

module CapturePath {
  import opened Resampling
  import D = DspChain

  const NS: nat := 480
  const FRAME: nat := 960
  const OPUS_SR: nat := 48000

  /** A denoiser: its state and a block, to its next state and a block. */
  type Denoiser<!S> = (S, seq<real>) -> (S, seq<real>)

  ghost predicate BlockFunction<S(!new)>(den: Denoiser<S>) {
    forall s, b :: |den(s, b).1| == |b|
  }

  /** The integer part, as a cast from float to integer takes it. */
  function Truncate(x: real): int {
    if x >= 0.0 then x.Floor else -((-x).Floor)
  }

  /** A cast to a 16-bit sample: truncated and saturated. */
  function ToI16(x: real): int {
    var v := Truncate(x);
    if v < -32768 then -32768 else if v > 32767 then 32767 else v
  }

  function FromI16(xs: seq<int>): seq<real> {
    seq(|xs|, i requires 0 <= i < |xs| => xs[i] as real / 32768.0)
  }

  function Up(b: seq<real>): seq<real> {
    seq(|b|, i requires 0 <= i < |b| => b[i] * 32768.0)
  }

  function Down(b: seq<real>): seq<real> {
    seq(|b|, i requires 0 <= i < |b| => D.Clamp(b[i] / 32768.0, -1.0, 1.0))
  }

  /** What the denoiser has become and made after the first `n` blocks of `r`. */
  function Denoised<S>(den: Denoiser<S>, s0: S, r: seq<real>, n: nat): (S, seq<real>)
    requires NS * n <= |r|
  {
    if n == 0 then (s0, [])
    else
      var before := Denoised(den, s0, r, n - 1);
      var now := den(before.0, Up(r[NS * (n - 1)..NS * n]));
      (now.0, before.1 + Down(now.1))
  }

  /** A run of samples through the gate, compressor and limiter, to 16 bits. */
  function Processed(k: D.Coefs, m: D.Memory, c: D.Config, xs: seq<real>): (D.Memory, seq<int>) {
    if xs == [] then (m, [])
    else
      var before := Processed(k, m, c, xs[..|xs| - 1]);
      var now := D.Step(before.0, k, c, xs[|xs| - 1]);
      (now.0, before.1 + [ToI16(now.1 * 32767.0)])
  }

  /** The first `n` frames of `c`; `cfg` is the settings in force at each frame. */
  function Framed(k: D.Coefs, cfg: nat -> D.Config, c: seq<real>, n: nat): (D.Memory, seq<seq<int>>)
    requires FRAME * n <= |c|
  {
    if n == 0 then (D.REST, [])
    else
      var before := Framed(k, cfg, c, n - 1);
      var now := Processed(k, before.0, cfg(n - 1), c[FRAME * (n - 1)..FRAME * n]);
      (now.0, before.1 + [now.1])
  }

  lemma {:induction false} DenoisedLength<S(!new)>(den: Denoiser<S>, s0: S, r: seq<real>, n: nat)
    requires BlockFunction(den) && NS * n <= |r|
    ensures |Denoised(den, s0, r, n).1| == NS * n
  {
    if n > 0 { DenoisedLength(den, s0, r, n - 1); }
  }

  lemma {:induction false} DenoisedPrefix<S>(den: Denoiser<S>, s0: S, r: seq<real>, r': seq<real>, n: nat)
    requires r <= r' && NS * n <= |r|
    ensures Denoised(den, s0, r, n) == Denoised(den, s0, r', n)
  {
    if n > 0 {
      DenoisedPrefix(den, s0, r, r', n - 1);
      assert r[NS * (n - 1)..NS * n] == r'[NS * (n - 1)..NS * n];
    }
  }

  /** The block of `r` at `at`, on the denoiser's scale. */
  predicate BlockAt(b: seq<real>, r: seq<real>, at: nat) {
    |b| == 480 && at + 480 <= |r| && forall j :: 0 <= j < 480 ==> b[j] == r[at + j] * 32768.0
  }

  /** A sample back from the denoiser's scale, cut off at full scale. */
  predicate BackFrom(y: real, x: real) {
    y == if x <= -32768.0 then -1.0 else if x >= 32768.0 then 1.0 else x / 32768.0
  }

  lemma DownIs(b: seq<real>, j: nat)
    requires j < |b|
    ensures BackFrom(Down(b)[j], b[j])
  {
    var q := b[j] / 32768.0;
    assert q * 32768.0 == b[j];
  }

  /** One denoiser goes through all blocks: it starts in its first state, is in each
      next block in the state the one before left it in, and block `i` of what it
      makes is what it makes of block `i` of the input. */
  ghost predicate Threads<S(!new)>(den: Denoiser<S>, s0: S, r: seq<real>, n: nat, states: seq<S>,
                                   blocks: seq<seq<real>>, made: seq<real>)
  {
    && |states| == n + 1 && |blocks| == n && |made| == 480 * n && states[0] == s0
    && (forall i :: 0 <= i < n ==> BlockAt(blocks[i], r, 480 * i) && den(states[i], blocks[i]).0 == states[i + 1])
    && (forall i, j :: 0 <= i < n && 0 <= j < 480 ==>
          var b := den(states[i], blocks[i]).1; |b| == 480 && BackFrom(made[480 * i + j], b[j]))
  }

  lemma {:induction false} DenoisedThreads<S(!new)>(den: Denoiser<S>, s0: S, r: seq<real>, n: nat)
    returns (states: seq<S>, blocks: seq<seq<real>>)
    requires BlockFunction(den) && 480 * n <= |r|
    ensures var (s, made) := Denoised(den, s0, r, n); Threads(den, s0, r, n, states, blocks, made) && states[n] == s
  {
    if n == 0 {
      states, blocks := [s0], [];
    } else {
      states, blocks := DenoisedThreads(den, s0, r, n - 1);
      ghost var before := Denoised(den, s0, r, n - 1);
      ghost var b := Up(r[480 * (n - 1)..480 * n]);
      OneMoreBlock(den, s0, r, n - 1, states, blocks, before.1, b);
      states, blocks := states + [den(before.0, b).0], blocks + [b];
    }
  }

  lemma OneMoreBlock<S(!new)>(den: Denoiser<S>, s0: S, r: seq<real>, n: nat, states: seq<S>, blocks: seq<seq<real>>,
                              made: seq<real>, b: seq<real>)
    requires BlockFunction(den) && Threads(den, s0, r, n, states, blocks, made) && BlockAt(b, r, 480 * n)
    ensures var now := den(states[n], b);
            Threads(den, s0, r, n + 1, states + [now.0], blocks + [b], made + Down(now.1))
  {
    hide Down;
    var now := den(states[n], b);
    var states', blocks', made' := states + [now.0], blocks + [b], made + Down(now.1);
    assert |now.1| == 480 && |Down(now.1)| == 480 by { DownLength(now.1); }
    forall i, j | 0 <= i < n + 1 && 0 <= j < 480
      ensures var b' := den(states'[i], blocks'[i]).1; |b'| == 480 && BackFrom(made'[480 * i + j], b'[j])
    {
      if i < n {
        assert made'[480 * i + j] == made[480 * i + j];
      } else {
        DownIs(now.1, j);
        assert made'[480 * n + j] == Down(now.1)[j];
      }
    }
  }

  lemma DownLength(b: seq<real>)
    ensures |Down(b)| == |b|
  {
  }

  /** Later blocks only append. */
  lemma {:induction false} DenoisedGrows<S>(den: Denoiser<S>, s0: S, r: seq<real>, m: nat, n: nat)
    requires m <= n && NS * n <= |r|
    ensures Denoised(den, s0, r, m).1 <= Denoised(den, s0, r, n).1
    decreases n - m
  {
    if m < n { DenoisedGrows(den, s0, r, m, n - 1); }
  }

  lemma {:induction false} FramedPrefix(k: D.Coefs, cfg: nat -> D.Config, c: seq<real>, c': seq<real>, n: nat)
    requires c <= c' && FRAME * n <= |c|
    ensures Framed(k, cfg, c, n) == Framed(k, cfg, c', n)
    decreases n
  {
    if n > 0 {
      FramedPrefix(k, cfg, c, c', n - 1);
      assert c[FRAME * (n - 1)..FRAME * n] == c'[FRAME * (n - 1)..FRAME * n];
    }
  }

  lemma {:induction false} ProcessedLength(k: D.Coefs, m: D.Memory, c: D.Config, xs: seq<real>)
    ensures |Processed(k, m, c, xs).1| == |xs|
    decreases |xs|
  {
    if xs != [] { ProcessedLength(k, m, c, xs[..|xs| - 1]); }
  }

  lemma {:induction false} FramedLength(k: D.Coefs, cfg: nat -> D.Config, c: seq<real>, n: nat)
    requires FRAME * n <= |c|
    ensures var fs := Framed(k, cfg, c, n).1; |fs| == n && forall i :: 0 <= i < n ==> |fs[i]| == FRAME
    decreases n
  {
    if n > 0 {
      FramedLength(k, cfg, c, n - 1);
      ProcessedLength(k, Framed(k, cfg, c, n - 1).0, cfg(n - 1), c[FRAME * (n - 1)..FRAME * n]);
    }
  }

  /** The chain goes through the samples one by one, each time with the memory the
      one before left it, and each output is turned into 16 bits. */
  ghost predicate Chained(k: D.Coefs, c: D.Config, xs: seq<real>, mems: seq<D.Memory>, out: seq<int>) {
    && |mems| == |xs| + 1 && |out| == |xs|
    && forall j :: 0 <= j < |xs| ==>
         var (m, y) := D.Step(mems[j], k, c, xs[j]); mems[j + 1] == m && out[j] == ToI16(y * 32767.0)
  }

  lemma {:induction false} ProcessedChains(k: D.Coefs, m: D.Memory, c: D.Config, xs: seq<real>)
    returns (mems: seq<D.Memory>)
    ensures var (last, out) := Processed(k, m, c, xs);
            Chained(k, c, xs, mems, out) && mems[0] == m && mems[|xs|] == last
    decreases |xs|
  {
    hide D.Step, ToI16, Chained;
    if xs == [] {
      mems := [m];
      NothingChained(k, c, m);
    } else {
      var front, x := xs[..|xs| - 1], xs[|xs| - 1];
      mems := ProcessedChains(k, m, c, front);
      ghost var before := Processed(k, m, c, front);
      ChainedSnoc(k, c, front, mems, before.1, x);
      assert front + [x] == xs;
      mems := mems + [D.Step(before.0, k, c, x).0];
    }
  }

  lemma NothingChained(k: D.Coefs, c: D.Config, m: D.Memory)
    ensures Chained(k, c, [], [m], [])
  {
  }

  lemma ChainedSnoc(k: D.Coefs, c: D.Config, xs: seq<real>, mems: seq<D.Memory>, out: seq<int>, x: real)
    requires Chained(k, c, xs, mems, out)
    ensures |mems| == |xs| + 1
    ensures var (m, y) := D.Step(mems[|xs|], k, c, x);
            && Chained(k, c, xs + [x], mems + [m], out + [ToI16(y * 32767.0)])
            && (mems + [m])[0] == mems[0] && (mems + [m])[|xs| + 1] == m
  {
    hide D.Step, ToI16;
    var (m, y) := D.Step(mems[|xs|], k, c, x);
    var xs', mems', out' := xs + [x], mems + [m], out + [ToI16(y * 32767.0)];
    forall j | 0 <= j < |xs'|
      ensures var (m', y') := D.Step(mems'[j], k, c, xs'[j]); mems'[j + 1] == m' && out'[j] == ToI16(y' * 32767.0)
    {
      if j < |xs| { assert mems'[j] == mems[j] && mems'[j + 1] == mems[j + 1] && xs'[j] == xs[j] && out'[j] == out[j]; }
    }
  }

  /** Through all frames runs one chain: it starts at rest, and frame `i` is made
      with the settings in force at it of the samples 960*i to 960*i + 959. */
  ghost predicate ChainedFrames(k: D.Coefs, cfg: nat -> D.Config, c: seq<real>, n: nat, mems: seq<D.Memory>,
                                frames: seq<seq<int>>)
  {
    && |mems| == 960 * n + 1 && |frames| == n && 960 * n <= |c| && mems[0] == D.REST
    && (forall i :: 0 <= i < n ==> |frames[i]| == 960)
    && (forall i, j :: 0 <= i < n && 0 <= j < 960 ==> SampleOf(k, cfg(i), c, 960 * i + j, mems, frames[i][j]))
  }

  predicate SampleOf(k: D.Coefs, c: D.Config, xs: seq<real>, at: nat, mems: seq<D.Memory>, v: int)
    requires at < |xs| && at + 1 < |mems|
  {
    var (m, y) := D.Step(mems[at], k, c, xs[at]); mems[at + 1] == m && v == ToI16(y * 32767.0)
  }

  lemma {:induction false} FramedChains(k: D.Coefs, cfg: nat -> D.Config, c: seq<real>, n: nat)
    returns (mems: seq<D.Memory>)
    requires 960 * n <= |c|
    ensures var (last, frames) := Framed(k, cfg, c, n);
            ChainedFrames(k, cfg, c, n, mems, frames) && mems[960 * n] == last
    decreases n
  {
    hide Processed;
    if n == 0 {
      mems := [D.REST];
    } else {
      mems := FramedChains(k, cfg, c, n - 1);
      ghost var before := Framed(k, cfg, c, n - 1);
      ghost var xs := c[960 * (n - 1)..960 * n];
      var more := ProcessedChains(k, before.0, cfg(n - 1), xs);
      OneMoreFrame(k, cfg, c, n - 1, mems, before.1, more, Processed(k, before.0, cfg(n - 1), xs).1);
      mems := mems + more[1..];
    }
  }

  lemma OneMoreFrame(k: D.Coefs, cfg: nat -> D.Config, c: seq<real>, n: nat, mems: seq<D.Memory>,
                     frames: seq<seq<int>>, more: seq<D.Memory>, frame: seq<int>)
    requires ChainedFrames(k, cfg, c, n, mems, frames) && 960 * (n + 1) <= |c|
    requires Chained(k, cfg(n), c[960 * n..960 * (n + 1)], more, frame) && more[0] == mems[960 * n]
    ensures ChainedFrames(k, cfg, c, n + 1, mems + more[1..], frames + [frame])
    ensures (mems + more[1..])[960 * (n + 1)] == more[960]
  {
    hide D.Step, ToI16;
    var mems', frames', xs := mems + more[1..], frames + [frame], c[960 * n..960 * (n + 1)];
    assert |xs| == 960;
    assert |more| == 961 && |mems'| == 960 * (n + 1) + 1;
    forall j | 0 <= j <= 960 ensures mems'[960 * n + j] == more[j] {
      if j > 0 { assert mems'[960 * n + j] == more[1..][j - 1]; }
    }
    assert mems'[960 * n + 960] == more[960] && mems'[0] == mems[0];
    forall i, j | 0 <= i < n + 1 && 0 <= j < 960 ensures SampleOf(k, cfg(i), c, 960 * i + j, mems', frames'[i][j]) {
      if i < n {
        assert SampleOf(k, cfg(i), c, 960 * i + j, mems, frames[i][j]);
        assert 960 * i + j + 1 < |mems|;
      } else {
        assert xs[j] == c[960 * n + j];
        assert mems'[960 * n + j] == more[j] && mems'[960 * n + (j + 1)] == more[j + 1];
      }
    }
  }

  /** The cast to 16 bits cuts off the fraction, towards zero, and what is out of
      range goes to the nearest end of it. */
  lemma {:induction false} CastIs(x: real)
    ensures var v := ToI16(x) as real;
            if x <= -32768.0 then v == -32768.0
            else if x >= 32767.0 then v == 32767.0
            else D.Abs(v) <= D.Abs(x) < D.Abs(v) + 1.0 && (v > 0.0 ==> x > 0.0) && (v < 0.0 ==> x < 0.0)
  {
    if x >= 0.0 {
      assert x.Floor as real <= x < x.Floor as real + 1.0;
    } else {
      assert (-x).Floor as real <= -x < (-x).Floor as real + 1.0;
    }
  }

  lemma FramedNext(k: D.Coefs, cfg: nat -> D.Config, c: seq<real>, n: nat)
    requires FRAME * (n + 1) <= |c|
    ensures var before := Framed(k, cfg, c, n);
            var now := Processed(k, before.0, cfg(n), c[FRAME * n..FRAME * (n + 1)]);
            |before.1| == n && Framed(k, cfg, c, n + 1) == (now.0, before.1 + [now.1])
  {
    hide Processed;
    FramedLength(k, cfg, c, n);
  }

  /** The resampled capture stream. */
  function Stream(rate: nat, xs: seq<real>): seq<real>
    requires rate > 0
  {
    Resampled(xs, rate, OPUS_SR)
  }

  /** Everything denoised once the whole input `xs` has been taken in. */
  function Clean<S>(den: Denoiser<S>, s0: S, rate: nat, xs: seq<real>): seq<real>
    requires rate > 0
  {
    Denoised(den, s0, Stream(rate, xs), |Stream(rate, xs)| / NS).1
  }

  /** All frames made of the whole input `xs`. */
  function Frames<S>(den: Denoiser<S>, s0: S, k: D.Coefs, cfg: nat -> D.Config, rate: nat, xs: seq<real>): seq<seq<int>>
    requires rate > 0
  {
    var c := Clean(den, s0, rate, xs);
    Framed(k, cfg, c, |c| / FRAME).1
  }

  lemma {:induction false} FramedGrows(k: D.Coefs, cfg: nat -> D.Config, c: seq<real>, m: nat, n: nat)
    requires m <= n && FRAME * n <= |c|
    ensures Framed(k, cfg, c, m).1 <= Framed(k, cfg, c, n).1
    decreases n - m
  {
    if m < n { FramedGrows(k, cfg, c, m, n - 1); }
  }

  /** A frame, once made, depends on nothing that is captured later. */
  lemma FramesGrow<S(!new)>(den: Denoiser<S>, s0: S, k: D.Coefs, cfg: nat -> D.Config, rate: nat, xs: seq<real>,
                     ys: seq<real>)
    requires rate > 0 && BlockFunction(den)
    ensures Frames(den, s0, k, cfg, rate, xs) <= Frames(den, s0, k, cfg, rate, xs + ys)
  {
    hide Denoised, Framed, Resampled;
    var r, r' := Stream(rate, xs), Stream(rate, xs + ys);
    ResampledPrefix(xs, ys, rate, OPUS_SR);
    DenoisedPrefix(den, s0, r, r', |r| / NS);
    DenoisedGrows(den, s0, r', |r| / NS, |r'| / NS);
    var c, c' := Clean(den, s0, rate, xs), Clean(den, s0, rate, xs + ys);
    assert c <= c';
    FramedPrefix(k, cfg, c, c', |c| / FRAME);
    FramedGrows(k, cfg, c', |c| / FRAME, |c'| / FRAME);
  }

  /** Every sample of every frame: the input is resampled, one denoiser goes through
      the blocks of that, one chain through what it makes, and the chain's outputs,
      cast to 16 bits, are the samples of the frames in order. */
  lemma {:induction false} FramesAre<S(!new)>(den: Denoiser<S>, s0: S, k: D.Coefs, cfg: nat -> D.Config, rate: nat,
                                              xs: seq<real>)
    returns (states: seq<S>, blocks: seq<seq<real>>, mems: seq<D.Memory>)
    requires rate > 0 && BlockFunction(den)
    ensures var r, c, fs := Resampled(xs, rate, 48000), Clean(den, s0, rate, xs), Frames(den, s0, k, cfg, rate, xs);
            && Threads(den, s0, r, |r| / 480, states, blocks, c)
            && |fs| == |c| / 960 && ChainedFrames(k, cfg, c, |c| / 960, mems, fs)
  {
    hide Denoised, Framed, Resampled, Threads, ChainedFrames;
    var r, c := Stream(rate, xs), Clean(den, s0, rate, xs);
    states, blocks := DenoisedThreads(den, s0, r, |r| / 480);
    mems := FramedChains(k, cfg, c, |c| / 960);
    FramedLength(k, cfg, c, |c| / 960);
  }

  /** One frame for every 960 resampled samples, each of 960 samples. */
  lemma FrameCount<S(!new)>(den: Denoiser<S>, s0: S, k: D.Coefs, cfg: nat -> D.Config, rate: nat, xs: seq<real>)
    requires rate > 0 && BlockFunction(den)
    ensures var fs := Frames(den, s0, k, cfg, rate, xs);
            |fs| == Count(|xs|, rate, OPUS_SR) / FRAME && forall i :: 0 <= i < |fs| ==> |fs[i]| == FRAME
  {
    hide Denoised, Framed, Resampled, Count, BlockFunction;
    var r, c := Stream(rate, xs), Clean(den, s0, rate, xs);
    DenoisedLength(den, s0, r, |r| / NS);
    WholeFrames(|r|);
    FramedLength(k, cfg, c, |c| / FRAME);
  }

  /** Cutting blocks first does not change how many frames there are. */
  lemma WholeFrames(n: nat)
    ensures NS * (n / NS) / FRAME == n / FRAME
  {
    var q, rest := n / FRAME, n % FRAME;
    if rest < NS {
      DivIs(n, 2 * q, rest, NS);
      DivIs(NS * (2 * q), q, 0, FRAME);
    } else {
      DivIs(n, 2 * q + 1, rest - NS, NS);
      DivIs(NS * (2 * q + 1), q, NS, FRAME);
    }
  }

  lemma WholePart(n: nat, d: nat)
    requires d > 0
    ensures n / d >= 0 && d * (n / d) <= n < d * (n / d) + d
  {
  }

  lemma DivMonotone(m: nat, n: nat, d: nat)
    requires d > 0 && m <= n
    ensures m / d <= n / d
  {
    WholePart(m, d);
    WholePart(n, d);
    if n / d < m / d { MulMonotone(n / d + 1, m / d, d); }
  }

  /** The capture thread's state between two passes. */
  class Capture<S(!new)> {
    const den: Denoiser<S>
    const s0: S
    const cfg: nat -> D.Config
    const up: Resampler
    const dsp: D.Dsp
    var denState: S
    var buf48: seq<real>
    var clean: seq<real>
    // Every frame made so far.
    var frames: seq<seq<int>>

    ghost predicate Valid()
      reads this, up, dsp
    {
      && up.Valid() && up.dst == OPUS_SR && BlockFunction(den)
      && InStep(Stream(up.src, up.fed), Clean(den, s0, up.src, up.fed))
    }

    /** What is left over, and what has been made, for a resampled stream `r` that
        was denoised to `c`. */
    ghost predicate InStep(r: seq<real>, c: seq<real>)
      reads this, dsp
    {
      && denState == Denoised(den, s0, r, |r| / NS).0
      && buf48 == r[NS * (|r| / NS)..]
      && clean == c[FRAME * (|c| / FRAME)..]
      && (dsp.Mem(), frames) == Framed(dsp.k, cfg, c, |c| / FRAME)
    }

    constructor (den: Denoiser<S>, s0: S, cfg: nat -> D.Config, rate: nat, k: D.Coefs)
      requires BlockFunction(den) && rate > 0
      ensures Valid() && fresh(up) && fresh(dsp) && up.fed == [] && up.src == rate && frames == []
      ensures this.den == den && this.s0 == s0 && this.cfg == cfg && dsp.k == k
    {
      this.den, this.s0, this.cfg, denState := den, s0, cfg, s0;
      up := new Resampler(rate, OPUS_SR);
      dsp := new D.Dsp(k);
      buf48, clean, frames := [], [], [];
      new;
      assert Stream(rate, []) == [];
      assert Clean(den, s0, rate, []) == [];
    }

    /** Denoise whole blocks while there are any. */
    method DenoiseAll(ghost r: seq<real>, ghost n0: nat, ghost done: nat)
      requires BlockFunction(den) && NS * n0 <= |r| && buf48 == r[NS * n0..]
      requires denState == Denoised(den, s0, r, n0).0
      requires done <= |Denoised(den, s0, r, n0).1| && clean == Denoised(den, s0, r, n0).1[done..]
      modifies this`denState, this`buf48, this`clean
      ensures denState == Denoised(den, s0, r, |r| / NS).0 && buf48 == r[NS * (|r| / NS)..]
      ensures done <= |Denoised(den, s0, r, |r| / NS).1| && clean == Denoised(den, s0, r, |r| / NS).1[done..]
    {
      ghost var n := n0;
      while |buf48| >= NS
        invariant NS * n <= |r| && buf48 == r[NS * n..]
        invariant denState == Denoised(den, s0, r, n).0
        invariant done <= |Denoised(den, s0, r, n).1| && clean == Denoised(den, s0, r, n).1[done..]
        decreases |buf48|
      {
        assert buf48[..NS] == r[NS * n..NS * (n + 1)];
        var next := den(denState, Up(buf48[..NS]));
        denState := next.0;
        buf48 := buf48[NS..];
        clean := clean + Down(next.1);
        n := n + 1;
      }
      assert n == |r| / NS;
    }

    /** Process and cut whole frames while there are any. */
    method FrameAll(ghost c: seq<real>, ghost n0: nat)
      requires FRAME * n0 <= |c| && clean == c[FRAME * n0..]
      requires (dsp.Mem(), frames) == Framed(dsp.k, cfg, c, n0)
      modifies this`clean, this`frames, dsp
      ensures clean == c[FRAME * (|c| / FRAME)..]
      ensures (dsp.Mem(), frames) == Framed(dsp.k, cfg, c, |c| / FRAME)
      ensures old(frames) <= frames
    {
      hide Processed, Framed, D.Step;
      ghost var n := n0;
      while |clean| >= FRAME
        invariant FRAME * n <= |c| && clean == c[FRAME * n..]
        invariant (dsp.Mem(), frames) == Framed(dsp.k, cfg, c, n)
        invariant old(frames) <= frames
        decreases |clean|
      {
        FramedNext(dsp.k, cfg, c, n);
        assert clean[..FRAME] == c[FRAME * n..FRAME * (n + 1)];
        var frame := OneFrame(clean[..FRAME], cfg(|frames|));
        clean := clean[FRAME..];
        frames := frames + [frame];
        n := n + 1;
      }
      assert n == |c| / FRAME;
    }

    method OneFrame(xs: seq<real>, snap: D.Config) returns (frame: seq<int>)
      modifies dsp
      ensures (dsp.Mem(), frame) == Processed(dsp.k, old(dsp.Mem()), snap, xs)
    {
      frame := [];
      for i := 0 to |xs|
        invariant (dsp.Mem(), frame) == Processed(dsp.k, old(dsp.Mem()), snap, xs[..i])
      {
        hide D.Step, ToI16;
        assert xs[..i + 1][..i] == xs[..i];
        var y := dsp.Process(xs[i], snap);
        frame := frame + [ToI16(y * 32767.0)];
      }
      assert xs[..|xs|] == xs;
    }

    /** Resample the chunk behind what is left of earlier ones. */
    method Resample(chunk: seq<int>)
      requires Valid()
      modifies this`buf48, up
      ensures up.Valid() && up.fed == old(up.fed) + FromI16(chunk)
      ensures old(Stream(up.src, up.fed)) <= Stream(up.src, up.fed)
      ensures buf48 == Stream(up.src, up.fed)[NS * (|old(Stream(up.src, up.fed))| / NS)..]
    {
      hide Denoised, Framed, Resampled, Count, BlockFunction, FromI16;
      ghost var r0 := Stream(up.src, up.fed);
      ResampledPrefix(up.fed, FromI16(chunk), up.src, OPUS_SR);
      WholePart(|r0|, NS);
      buf48 := up.Process(FromI16(chunk), buf48);
    }

    /** One pass over the captured chunk. Afterwards everything the thread holds
        and has made depends on the concatenation of all chunks only. */
    method Pass(chunk: seq<int>)
      requires Valid()
      modifies this, up, dsp
      ensures Valid() && up.fed == old(up.fed) + FromI16(chunk)
      ensures |up.fed| == |old(up.fed)| + |chunk|
      ensures forall i :: 0 <= i < |chunk| ==> up.fed[|old(up.fed)| + i] * 32768.0 == chunk[i] as real
      ensures |buf48| < NS && |clean| < FRAME
      ensures frames == Frames(den, s0, dsp.k, cfg, up.src, up.fed)
      ensures old(frames) <= frames
    {
      hide Denoised, Framed, Resampled, Count, BlockFunction, FromI16;
      ghost var r0, c0 := Stream(up.src, up.fed), Clean(den, s0, up.src, up.fed);
      WholePart(|r0|, NS);
      WholePart(|c0|, FRAME);
      ScaledDown(chunk);
      if chunk == [] {
        NothingCaptured();
        assert up.fed + FromI16(chunk) == up.fed;
        return;
      }
      Resample(chunk);
      ghost var r, c := Stream(up.src, up.fed), Clean(den, s0, up.src, up.fed);
      ghost var n0, f0 := |r0| / NS, |c0| / FRAME;
      DenoisedPrefix(den, s0, r0, r, n0);
      DenoiseAll(r, n0, FRAME * f0);
      WholePart(|r|, NS);
      WholePart(|c|, FRAME);
      DivMonotone(|r0|, |r|, NS);
      DenoisedGrows(den, s0, r, n0, |r| / NS);
      FramedPrefix(dsp.k, cfg, c0, c, f0);
      FrameAll(c, f0);
    }
  }

  lemma ScaledDown(xs: seq<int>)
    ensures |FromI16(xs)| == |xs| && forall i :: 0 <= i < |xs| ==> FromI16(xs)[i] * 32768.0 == xs[i] as real
  {
    forall i | 0 <= i < |xs| ensures FromI16(xs)[i] * 32768.0 == xs[i] as real {
      var q := xs[i] as real / 32768.0;
      assert q * 32768.0 == xs[i] as real;
    }
  }

  lemma NothingCaptured()
    ensures FromI16([]) == []
  {
  }
}
