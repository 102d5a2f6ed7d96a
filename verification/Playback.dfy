// The playback side of apps/companion-core/src/audio.rs: the jitter buffers that
// decoding fills, the mixer that empties them, and the playback ring.

module Playback {
  import opened Arith
  import opened Resampling
  import opened CapturePath
  import D = DspChain

  const JITTER_CAP: nat := 19200
  const SELF_CAP: nat := 9600

  /** Drop from the front until at most `cap` are left. */
  method DropOldest(b: seq<int>, cap: nat) returns (rest: seq<int>)
    ensures rest == b[Excess(b, cap)..] && |rest| <= cap
    ensures |b| <= cap ==> rest == b
  {
    rest := b;
    while |rest| > cap
      invariant |rest| <= |b| && rest == b[|b| - |rest|..]
      invariant rest == b || |rest| >= cap
    {
      rest := rest[1..];
    }
  }

  function Excess(b: seq<int>, cap: nat): (n: nat)
    ensures n <= |b|
  {
    if |b| > cap then |b| - cap else 0
  }

  // ----- jitter buffers

  /** What became of a decoded sample that has left its buffer. */
  datatype Fate = Mixed(v: int) | Dropped(v: int)

  function Values(fs: seq<Fate>): seq<int> {
    seq(|fs|, i requires 0 <= i < |fs| => fs[i].v)
  }

  /** The samples that were mixed, in order. */
  function Heard(fs: seq<Fate>): seq<int> {
    if fs == [] then []
    else
      var last := fs[|fs| - 1];
      Heard(fs[..|fs| - 1]) + (if last.Mixed? then [last.v] else [])
  }

  function Lost(fs: seq<Fate>): nat {
    if fs == [] then 0 else Lost(fs[..|fs| - 1]) + (if fs[|fs| - 1].Dropped? then 1 else 0)
  }

  function All(mixed: bool, vs: seq<int>): seq<Fate> {
    seq(|vs|, i requires 0 <= i < |vs| => if mixed then Mixed(vs[i]) else Dropped(vs[i]))
  }

  /** Mixed samples are an in-order selection of the consumed ones. */
  lemma {:induction false} HeardAndLost(fs: seq<Fate>)
    ensures |fs| == |Heard(fs)| + Lost(fs)
    decreases |fs|
  {
    if fs != [] { HeardAndLost(fs[..|fs| - 1]); }
  }

  lemma {:induction false} HeardAppend(fs: seq<Fate>, mixed: bool, vs: seq<int>)
    ensures Heard(fs + All(mixed, vs)) == Heard(fs) + (if mixed then vs else [])
    ensures Lost(fs + All(mixed, vs)) == Lost(fs) + (if mixed then 0 else |vs|)
    decreases |vs|
  {
    if vs == [] {
      assert fs + All(mixed, vs) == fs;
    } else {
      var front, last := vs[..|vs| - 1], vs[|vs| - 1];
      assert (fs + All(mixed, vs))[..|fs| + |vs| - 1] == fs + All(mixed, front);
      HeardAppend(fs, mixed, front);
      assert vs == front + [last];
    }
  }

  /** What one buffer adds to slot `i` of a mix. */
  function Share(b: seq<int>, gain: real, i: nat): int {
    if i < |b| then Gained(b[i], gain) else 0
  }

  function Gained(v: int, gain: real): int {
    Truncate(v as real * gain)
  }

  function GainOf(gains: map<string, real>, p: string): real {
    if p in gains then gains[p] else 1.0
  }

  /** A scaled sample is cut off towards zero. */
  lemma GainedIs(v: int, gain: real)
    ensures var r := Gained(v, gain) as real;
            && D.Abs(r) <= D.Abs(v as real * gain) < D.Abs(r) + 1.0
            && (r > 0.0 ==> v as real * gain > 0.0) && (r < 0.0 ==> v as real * gain < 0.0)
  {
    var x := v as real * gain;
    if x >= 0.0 {
      assert x.Floor as real <= x < x.Floor as real + 1.0;
    } else {
      assert (-x).Floor as real <= -x < (-x).Floor as real + 1.0;
    }
  }

  /** The sum over all buffers of a set of peers. */
  ghost function Sum(bufs: map<string, seq<int>>, ps: set<string>, gains: map<string, real>, i: nat): int
    requires ps <= bufs.Keys
    decreases |ps|
  {
    if ps == {} then 0
    else
      var p :| p in ps;
      Share(bufs[p], GainOf(gains, p), i) + Sum(bufs, ps - {p}, gains, i)
  }

  /** The sum does not depend on the order in which the peers are taken. */
  lemma {:induction false} SumOneOut(bufs: map<string, seq<int>>, ps: set<string>, gains: map<string, real>, i: nat,
                                     p: string)
    requires ps <= bufs.Keys && p in ps
    ensures Sum(bufs, ps, gains, i) == Share(bufs[p], GainOf(gains, p), i) + Sum(bufs, ps - {p}, gains, i)
    decreases |ps|
  {
    hide Share, GainOf;
    var q :| q in ps && Sum(bufs, ps, gains, i) == Share(bufs[q], GainOf(gains, q), i) + Sum(bufs, ps - {q}, gains, i);
    if p != q {
      SumOneOut(bufs, ps - {q}, gains, i, p);
      SumOneOut(bufs, ps - {p}, gains, i, q);
      assert ps - {q} - {p} == ps - {p} - {q};
    }
  }

  lemma NoneSummed(bufs: map<string, seq<int>>, gains: map<string, real>)
    ensures forall i: nat :: Sum(bufs, {}, gains, i) == 0
  {
  }

  lemma SumOneMore(bufs: map<string, seq<int>>, ps: set<string>, gains: map<string, real>, p: string)
    requires ps <= bufs.Keys && p in bufs && p !in ps
    ensures forall i: nat ::
              Sum(bufs, ps + {p}, gains, i) == Share(bufs[p], GainOf(gains, p), i) + Sum(bufs, ps, gains, i)
  {
    hide Share, GainOf;
    assert ps + {p} - {p} == ps;
    forall i: nat
      ensures Sum(bufs, ps + {p}, gains, i) == Share(bufs[p], GainOf(gains, p), i) + Sum(bufs, ps, gains, i)
    {
      SumOneOut(bufs, ps + {p}, gains, i, p);
    }
  }

  /** The plain sum of the buffers' samples at `i`, with silence past their ends. */
  ghost function PlainSum(bufs: map<string, seq<int>>, ps: set<string>, i: nat): int
    requires ps <= bufs.Keys
    decreases |ps|
  {
    if ps == {} then 0
    else
      var p :| p in ps;
      (if i < |bufs[p]| then bufs[p][i] else 0) + PlainSum(bufs, ps - {p}, i)
  }

  /** A peer's share of a slot is its sample times its volume, which is 1 unless it
      was set, cut off towards zero; past the end of its buffer it is nothing. */
  lemma {:induction false} ShareIs(b: seq<int>, gains: map<string, real>, p: string, i: nat)
    ensures var r, gain := Share(b, GainOf(gains, p), i) as real, if p in gains then gains[p] else 1.0;
            if i >= |b| then r == 0.0
            else
              var x := b[i] as real * gain;
              D.Abs(r) <= D.Abs(x) < D.Abs(r) + 1.0 && (r > 0.0 ==> x > 0.0) && (r < 0.0 ==> x < 0.0)
  {
    if i < |b| { GainedIs(b[i], if p in gains then gains[p] else 1.0); }
  }

  lemma UnsetIsPlain(b: seq<int>, gains: map<string, real>, p: string, i: nat)
    requires p !in gains || gains[p] == 1.0
    ensures Share(b, GainOf(gains, p), i) == if i < |b| then b[i] else 0
  {
    if i < |b| { assert b[i] as real * 1.0 == b[i] as real; }
  }

  /** Peers whose volume was never set, or is 1, are mixed as they are. */
  lemma {:induction false} UnsetGainsArePlain(bufs: map<string, seq<int>>, ps: set<string>, gains: map<string, real>,
                                              i: nat)
    requires ps <= bufs.Keys && forall p :: p in ps && p in gains ==> gains[p] == 1.0
    ensures Sum(bufs, ps, gains, i) == PlainSum(bufs, ps, i)
    decreases |ps|
  {
    hide Share, GainOf;
    if ps != {} {
      var p :| p in ps
               && PlainSum(bufs, ps, i) == (if i < |bufs[p]| then bufs[p][i] else 0) + PlainSum(bufs, ps - {p}, i);
      SumOneOut(bufs, ps, gains, i, p);
      UnsetIsPlain(bufs[p], gains, p, i);
      UnsetGainsArePlain(bufs, ps - {p}, gains, i);
    }
  }

  /** Every sample decoded for a peer, and what became of those that have left
      its buffer. */
  datatype History = History(decoded: seq<int>, consumed: seq<Fate>)

  const NO_HISTORY: History := History([], [])

  /** A buffer holds exactly what was decoded and has not left it, in order. */
  predicate Accounted(h: History, buf: seq<int>) {
    h.decoded == Values(h.consumed) + buf && |buf| <= JITTER_CAP
  }

  /** decoded = mixed + dropped + buffered, and the buffer is the newest part. */
  lemma {:induction false} AccountedSizes(h: History, buf: seq<int>)
    requires Accounted(h, buf)
    ensures |h.decoded| == |Heard(h.consumed)| + Lost(h.consumed) + |buf|
    ensures buf == h.decoded[|h.decoded| - |buf|..]
  {
    HeardAndLost(h.consumed);
  }

  /** The history after a packet has been appended and the excess dropped. */
  function Pushed(h: History, buf: seq<int>, samples: seq<int>, cap: nat): History {
    var b := buf + samples;
    History(h.decoded + samples, h.consumed + All(false, b[..Excess(b, cap)]))
  }

  /** The history after one frame has been taken for the mix. */
  function Pulled(h: History, buf: seq<int>): History {
    h.(consumed := h.consumed + All(true, buf[..Least(|buf|, FRAME)]))
  }

  /** What is left of a buffer when one frame has been taken. */
  function Rest(buf: seq<int>): seq<int> {
    buf[Least(|buf|, FRAME)..]
  }

  /** Add the first samples of a buffer, scaled, to the mix. */
  method AddScaled(mixed: array<int>, b: seq<int>, gain: real) returns (rest: seq<int>)
    modifies mixed
    ensures rest == b[Least(|b|, mixed.Length)..]
    ensures forall i :: 0 <= i < mixed.Length ==> mixed[i] == old(mixed[i]) + Share(b, gain, i)
  {
    hide Gained;
    rest := b;
    var n := Least(|b|, mixed.Length);
    for i := 0 to n
      invariant rest == b[i..]
      invariant forall j :: 0 <= j < i ==> mixed[j] == old(mixed[j]) + Share(b, gain, j)
      invariant forall j :: i <= j < mixed.Length ==> mixed[j] == old(mixed[j])
    {
      assert rest[0] == b[i] && mixed[i] == old(mixed[i]);
      mixed[i] := mixed[i] + Gained(rest[0], gain);
      rest := rest[1..];
    }
  }

  lemma NothingYet()
    ensures Accounted(NO_HISTORY, [])
  {
  }

  lemma ValuesOfAll(fs: seq<Fate>, mixed: bool, vs: seq<int>)
    ensures Values(fs + All(mixed, vs)) == Values(fs) + vs
  {
  }

  /** A push drops nothing that was mixed, and keeps the account. */
  lemma {:induction false} PushAccounted(h: History, buf: seq<int>, samples: seq<int>, cap: nat)
    requires Accounted(h, buf) && cap <= JITTER_CAP
    ensures var b := buf + samples;
            var h' := Pushed(h, buf, samples, cap);
            && Accounted(h', b[Excess(b, cap)..]) && Heard(h'.consumed) == Heard(h.consumed)
            && Lost(h'.consumed) == Lost(h.consumed) + Excess(b, cap)
  {
    hide All, Values, Heard, Lost;
    var b := buf + samples;
    var gone := b[..Excess(b, cap)];
    ValuesOfAll(h.consumed, false, gone);
    HeardAppend(h.consumed, false, gone);
    assert b == gone + b[Excess(b, cap)..];
    assert Heard(h.consumed) + [] == Heard(h.consumed);
  }

  /** A pull loses nothing, and what is mixed is the head of the buffer. */
  lemma {:induction false} PullAccounted(h: History, buf: seq<int>)
    requires Accounted(h, buf)
    ensures var n := Least(|buf|, FRAME);
            var h' := Pulled(h, buf);
            && Accounted(h', Rest(buf)) && Heard(h'.consumed) == Heard(h.consumed) + buf[..n]
            && Lost(h'.consumed) == Lost(h.consumed)
  {
    hide All, Values, Heard, Lost;
    var n := Least(|buf|, FRAME);
    ValuesOfAll(h.consumed, true, buf[..n]);
    HeardAppend(h.consumed, true, buf[..n]);
    assert buf == buf[..n] + buf[n..];
  }

  class MixMap {
    var bufs: map<string, seq<int>>
    ghost var past: map<string, History>

    ghost predicate Valid()
      reads this
    {
      past.Keys == bufs.Keys && forall p :: p in bufs ==> Accounted(past[p], bufs[p])
    }

    constructor ()
      ensures Valid() && bufs == map[]
    {
      bufs, past := map[], map[];
    }

    function Buf(p: string): seq<int>
      reads this
    {
      if p in bufs then bufs[p] else []
    }

    ghost function Past(p: string): History
      reads this
    {
      if p in past then past[p] else NO_HISTORY
    }

    /** A decoded packet is appended; what is over the cap goes from the front. */
    method Push(peer: string, samples: seq<int>, cap: nat)
      requires Valid() && cap <= JITTER_CAP
      modifies this
      ensures Valid() && peer in bufs && |bufs[peer]| <= cap
      ensures past == old(past)[peer := Pushed(old(Past(peer)), old(Buf(peer)), samples, cap)]
      ensures bufs == old(bufs)[peer := bufs[peer]]
    {
      hide Accounted, Pushed, Excess;
      ghost var h := Past(peer);
      var b := Buf(peer);
      if peer !in bufs { NothingYet(); }
      assert Accounted(h, b);
      PushAccounted(h, b, samples, cap);
      var rest := DropOldest(b + samples, cap);
      assert Accounted(Pushed(h, b, samples, cap), rest);
      past := past[peer := Pushed(h, b, samples, cap)];
      bufs := bufs[peer := rest];
    }

    /** What a peer's decoder makes of a packet; at most 400 ms are kept. */
    method Decoded(peer: string, samples: seq<int>)
      requires Valid()
      modifies this
      ensures Valid() && peer in bufs && |bufs[peer]| <= 19200
      ensures past == old(past)[peer := Pushed(old(Past(peer)), old(Buf(peer)), samples, 19200)]
      ensures bufs == old(bufs)[peer := bufs[peer]]
    {
      Push(peer, samples, JITTER_CAP);
    }

    /** The microphone check plays the processed frame back under its own name. */
    method Monitor(frame: seq<int>)
      requires Valid()
      modifies this
      ensures Valid() && "self" in bufs && |bufs["self"]| <= 9600
      ensures past == old(past)["self" := Pushed(old(Past("self")), old(Buf("self")), frame, 9600)]
      ensures bufs == old(bufs)["self" := bufs["self"]]
    {
      Push("self", frame, SELF_CAP);
    }

    /** Up to one frame is taken from every buffer and added up, slot by slot;
        past the end of a short buffer it adds silence. */
    method Pull(gains: map<string, real>) returns (mixed: array<int>)
      requires Valid()
      modifies this
      ensures Valid() && fresh(mixed) && mixed.Length == FRAME
      ensures forall i :: 0 <= i < FRAME ==> mixed[i] == Sum(old(bufs), old(bufs).Keys, gains, i)
      ensures bufs.Keys == old(bufs).Keys
      ensures forall p :: p in bufs ==>
                bufs[p] == Rest(old(bufs)[p]) && past[p] == Pulled(old(past)[p], old(bufs)[p])
    {
      hide Accounted, Pulled, Share, GainOf, Sum, Rest;
      NoneSummed(bufs, gains);
      mixed := new int[FRAME](i => 0);
      var todo := bufs.Keys;
      ghost var done: set<string> := {};
      while todo != {}
        invariant todo !! done && todo + done == old(bufs).Keys && bufs.Keys == old(bufs).Keys
        invariant Valid() && fresh(mixed)
        invariant forall i :: 0 <= i < FRAME ==> mixed[i] == Sum(old(bufs), done, gains, i)
        invariant forall p :: p in todo ==> bufs[p] == old(bufs)[p] && past[p] == old(past)[p]
        invariant forall p :: p in done ==>
                    bufs[p] == Rest(old(bufs)[p]) && past[p] == Pulled(old(past)[p], old(bufs)[p])
        decreases todo
      {
        var p :| p in todo;
        PullOne(p, GainOf(gains, p), mixed);
        SumOneMore(old(bufs), done, gains, p);
        todo := todo - {p};
        done := done + {p};
      }
      assert done == old(bufs).Keys;
    }

    /** Take up to one frame from one buffer. */
    method PullOne(p: string, gain: real, mixed: array<int>)
      requires Valid() && p in bufs && mixed.Length == FRAME
      modifies this, mixed
      ensures Valid() && bufs == old(bufs)[p := Rest(old(bufs)[p])]
      ensures past == old(past)[p := Pulled(old(past)[p], old(bufs)[p])]
      ensures forall i :: 0 <= i < FRAME ==> mixed[i] == old(mixed[i]) + Share(old(bufs)[p], gain, i)
    {
      hide Accounted, Pulled, Share;
      var rest := AddScaled(mixed, bufs[p], gain);
      PullAccounted(past[p], bufs[p]);
      past := past[p := Pulled(past[p], bufs[p])];
      bufs := bufs[p := rest];
    }
  }

  /** One frame of the resampler's input, from a mixed frame: the master gain and
      the soft limiter, an arbitrary function here. */
  function Shaped(mixed: seq<int>, master: real, soft: real -> real): seq<real> {
    seq(|mixed|, i requires 0 <= i < |mixed| => ShapeOne(mixed[i], master, soft))
  }

  function ShapeOne(v: int, master: real, soft: real -> real): real {
    soft(v as real * master / 32768.0)
  }

  function ToSamples(vs: seq<real>): seq<int> {
    seq(|vs|, i requires 0 <= i < |vs| => ToI16(vs[i] * 32767.0))
  }

  /** At full volume and with nothing to limit, a 16-bit sample comes through within
      one step, rounded towards zero. */
  lemma {:induction false} UnityMix(v: int)
    requires -32768 <= v <= 32767
    ensures var r := ToSamples([ShapeOne(v, 1.0, x => x)])[0];
            if v > 0 then v - 1 <= r <= v else if v < 0 then v <= r <= v + 1 else r == 0
  {
    var x := v as real / 32768.0;
    assert x * 32768.0 == v as real;
    CastIs(x * 32767.0);
    assert v as real * 1.0 == v as real;
  }

  /** The limiter gets the mixed sample times the volume, in units of full scale. */
  lemma {:induction false} VolumeScales(v: int, master: real, soft: real -> real, level: real)
    requires level * 32768.0 == v as real * master
    ensures ShapeOne(v, master, soft) == soft(level)
  {
    var x := v as real * master;
    assert x / 32768.0 * 32768.0 == x;
    assert level == x / 32768.0;
  }

  function Target(rate: nat): nat {
    rate * 60 / 1000
  }

  function RingCap(rate: nat): nat {
    rate / 2
  }

  /** What one frame of 20 ms can make at most. */
  function FrameYield(rate: nat): nat {
    CeilRatio(FRAME, rate, OPUS_SR)
  }

  lemma FrameYieldIs(rate: nat)
    ensures FrameYield(rate) == (rate + 49) / 50
  {
    assert FRAME * rate + OPUS_SR - 1 == 960 * rate + 47999;
    assert (960 * rate + 47999) / 48000 == (rate + 49) / 50;
  }

  /** The most the ring can ever hold. */
  function RingMax(rate: nat): nat {
    if Target(rate) == 0 then 0 else Target(rate) - 1 + FrameYield(rate)
  }

  /** It is within the cap, so the drop-oldest rule never applies. */
  lemma {:induction false} RingFits(rate: nat)
    ensures RingMax(rate) <= RingCap(rate)
    ensures RingMax(rate) * 1000 <= 80 * rate && 2 * RingCap(rate) <= rate < 2 * (RingCap(rate) + 1)
  {
    FrameYieldIs(rate);
  }

  lemma RingGrows(len: nat, added: nat, rate: nat)
    requires len < Target(rate) && added <= CeilRatio(FRAME, rate, OPUS_SR)
    ensures len + added <= RingMax(rate)
  {
  }

  class Mixer {
    const mix: MixMap
    const down: Resampler
    const soft: real -> real
    const rate: nat
    var ring: seq<int>
    // What the device has taken.
    ghost var played: seq<int>

    ghost predicate Valid()
      reads this, mix, down
    {
      && mix.Valid() && down.Valid() && down.src == OPUS_SR && down.dst == rate
      && played + ring == ToSamples(Resampled(down.fed, OPUS_SR, rate))
      && |ring| <= RingMax(rate)
    }

    constructor (mix: MixMap, rate: nat, soft: real -> real)
      requires mix.Valid() && rate > 0
      ensures Valid() && fresh(down) && this.mix == mix && this.rate == rate && ring == [] && down.fed == []
    {
      this.mix, this.rate, this.soft := mix, rate, soft;
      down := new Resampler(OPUS_SR, rate);
      ring, played := [], [];
    }

    /** One round of the refill loop: mix a frame, resample it and append it. The
        drop-oldest loop at the end finds nothing to drop. */
    method AddFrame(gains: map<string, real>, master: real)
      requires Valid() && |ring| < Target(rate)
      modifies this`ring, mix, down
      ensures Valid() && |down.fed| == |old(down.fed)| + FRAME && old(down.fed) <= down.fed
      ensures forall i :: 0 <= i < FRAME ==>
                (down.fed[|old(down.fed)| + i] ==
                 ShapeOne(Sum(old(mix.bufs), old(mix.bufs).Keys, gains, i), master, soft))
      ensures old(ring) <= ring
      ensures |ring| == |old(ring)| + Count(|down.fed|, OPUS_SR, rate) - Count(|old(down.fed)|, OPUS_SR, rate)
    {
      hide Resampled, Count, RingMax, RingCap, Target, CeilRatio, ToSamples, ShapeOne, Sum;
      var mixed := mix.Pull(gains);
      var f := Shaped(mixed[..], master, soft);
      ghost var before := down.fed;
      ResampledPrefix(before, f, OPUS_SR, rate);
      var o := down.Process(f, []);
      CountOfChunk(|before|, FRAME, OPUS_SR, rate);
      RingFits(rate);
      RingGrows(|ring|, |o|, rate);
      RingFollows(played, ring, Resampled(before, OPUS_SR, rate), Resampled(down.fed, OPUS_SR, rate), o);
      ring := DropOldest(ring + ToSamples(o), RingCap(rate));
    }

    /** The device takes `n` samples, or silence where there are none. */
    method Play(n: nat) returns (out: seq<int>)
      requires Valid()
      modifies this`ring, this`played
      ensures Valid() && |out| == n
      ensures old(ring) == out[..Least(n, |old(ring)|)] + ring
      ensures played == old(played) + out[..Least(n, |old(ring)|)]
      ensures forall i :: Least(n, |old(ring)|) <= i < n ==> out[i] == 0
    {
      out := [];
      for i := 0 to n
        invariant |out| == i && ring == old(ring)[Least(i, |old(ring)|)..]
        invariant out[..Least(i, |old(ring)|)] == old(ring)[..Least(i, |old(ring)|)]
        invariant played == old(played) + old(ring)[..Least(i, |old(ring)|)]
        invariant forall j :: Least(i, |old(ring)|) <= j < i ==> out[j] == 0
      {
        if ring == [] {
          out := out + [0];
        } else {
          out := out + [ring[0]];
          played := played + [ring[0]];
          ring := ring[1..];
        }
      }
    }

    /** A refill with nothing played meanwhile ends within four frames, at every
        rate from 50 Hz on; below that within nine. */
    method Refill(gains: map<string, real>, master: real) returns (frames: nat)
      requires Valid()
      modifies this`ring, mix, down
      ensures Valid() && |ring| >= Target(rate) && frames <= MostFrames(rate)
      ensures 60 * rate < (|ring| + 1) * 1000
      ensures old(ring) <= ring && |down.fed| == |old(down.fed)| + FRAME * frames
    {
      frames := 0;
      while |ring| < Target(rate)
        invariant Valid() && frames <= MostFrames(rate) && old(ring) <= ring
        invariant |down.fed| == |old(down.fed)| + FRAME * frames
        invariant |ring| == |old(ring)| + Count(|down.fed|, OPUS_SR, rate) - Count(|old(down.fed)|, OPUS_SR, rate)
        decreases MostFrames(rate) - frames
      {
        RefillSuffices(|old(down.fed)|, rate);
        AddFrame(gains, master);
        frames := frames + 1;
      }
    }
  }

  /** How many frames a refill can take. */
  function MostFrames(rate: nat): nat {
    if rate >= 50 then 4 else 9
  }

  /** What is appended to the ring carries on where the ring ends. */
  lemma RingFollows(played: seq<int>, ring: seq<int>, made: seq<real>, all: seq<real>, o: seq<real>)
    requires played + ring == ToSamples(made) && made <= all && o == all[|made|..]
    ensures played + (ring + ToSamples(o)) == ToSamples(all) && |ToSamples(o)| == |o|
  {
    hide ToSamples;
    SamplesAppend(made, o);
    assert all == made + o;
    assert played + (ring + ToSamples(o)) == (played + ring) + ToSamples(o);
  }

  lemma SamplesAppend(a: seq<real>, b: seq<real>)
    ensures ToSamples(a + b) == ToSamples(a) + ToSamples(b) && |ToSamples(b)| == |b|
  {
    hide ToI16;
  }

  /** That many frames fill the ring from empty, at any phase. */
  lemma {:induction false} RefillSuffices(m: nat, rate: nat)
    ensures Count(m + FRAME * MostFrames(rate), OPUS_SR, rate) - Count(m, OPUS_SR, rate) >= Target(rate)
  {
    var n := FRAME * MostFrames(rate);
    var made := Count(m + n, OPUS_SR, rate) - Count(m, OPUS_SR, rate);
    if m == 0 {
      assert made * OPUS_SR >= (n - 1) * rate;
    } else {
      CountOfChunk(m, n, OPUS_SR, rate);
      assert (made + 1) * OPUS_SR > n * rate;
    }
    if rate >= 50 {
      assert made * 48000 + 48000 > 3839 * rate;
    } else {
      CountMonotone(m, m + n, OPUS_SR, rate);
      assert made * 48000 + 48000 > 8639 * rate;
    }
  }
}
