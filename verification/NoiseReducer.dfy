/** The captured profile applied: a smoothed spectral mask, and the same-count interface over the streaming engine. */
module NoiseReducer {
  import opened Basics
  import opened Complex
  import opened Dft
  import opened Fft
  import opened IqGain
  import opened IqStft
  import opened Parseval

  // ---- The mask ----

  /** The operator's tunables, the floor as an amplitude; root stands for the square root. */
  datatype Tuning = Tuning(alpha: real, floor: real, smoothing: real, root: real -> real) {
    ghost predicate Valid() {
      && 0.0 <= alpha <= 6.0 && 0.0 <= floor <= 1.0 && 0.0 <= smoothing <= 0.99
      && forall x: real :: x >= 0.0 ==> root(x) >= 0.0 && root(x) * root(x) == x
    }
  }

  /** What is left of a bin's power when the over-weighted profile is taken out. */
  function PowerGain(c: Tuning, py: real, pn: real): real
    requires py >= 0.0
  {
    1.0 - c.alpha * pn / (py + 0.00000000000000000001)
  }

  /** As an amplitude gain, between the floor and one. */
  function Amplitude(c: Tuning, powerGain: real): real {
    var g := if powerGain > 0.0 then c.root(powerGain) else 0.0;
    var raised := if g < c.floor then c.floor else g;
    if raised > 1.0 then 1.0 else raised
  }

  function Wanted(c: Tuning, py: real, pn: real): real
    requires py >= 0.0
  {
    Amplitude(c, PowerGain(c, py, pn))
  }

  function Smoothed(s: real, before: real, g: real): real {
    s * before + (1.0 - s) * g
  }

  lemma NormNotNegative(a: Cplx)
    ensures Norm(a) >= 0.0
  {
  }

  function Gained(c: Tuning, before: real, a: Cplx, pn: real): real {
    NormNotNegative(a);
    Smoothed(c.smoothing, before, Wanted(c, Norm(a), pn))
  }

  /** The mask of one frame, from the mask before it. */
  function Mask(c: Tuning, before: seq<real>, profile: seq<real>, spec: Signal): (m: seq<real>)
    requires |before| == |profile| == |spec|
    ensures |m| == |spec|
  {
    seq(|spec|, k requires 0 <= k < |spec| => Gained(c, before[k], spec[k], profile[k]))
  }

  /** The spectrum under its mask: every bin keeps its phase. */
  function Masked(m: seq<real>, spec: Signal): (r: Signal)
    requires |m| == |spec|
    ensures |r| == |spec|
  {
    seq(|spec|, k requires 0 <= k < |spec| => Scale(m[k], spec[k]))
  }

  predicate Between(m: seq<real>, floor: real) {
    forall k :: 0 <= k < |m| ==> floor <= m[k] <= 1.0
  }

  lemma WantedBetween(c: Tuning, py: real, pn: real)
    requires c.Valid() && py >= 0.0
    ensures c.floor <= Wanted(c, py, pn) <= 1.0
  {
  }

  lemma SmoothedBetween(s: real, a: real, b: real, lo: real)
    requires 0.0 <= s <= 1.0 && lo <= a <= 1.0 && lo <= b <= 1.0
    ensures lo <= Smoothed(s, a, b) <= 1.0
  {
    NotNegative(s, a - lo);
    NotNegative(1.0 - s, b - lo);
    assert s * a + (1.0 - s) * b - lo == s * (a - lo) + (1.0 - s) * (b - lo);
    NotNegative(s, 1.0 - a);
    NotNegative(1.0 - s, 1.0 - b);
    assert 1.0 - (s * a + (1.0 - s) * b) == s * (1.0 - a) + (1.0 - s) * (1.0 - b);
  }

  lemma NotNegative(a: real, b: real)
    requires a >= 0.0 && b >= 0.0
    ensures a * b >= 0.0
  {
  }

  lemma Weighted(w: real, a: real, b: real)
    requires w >= 0.0 && a <= b
    ensures w * a <= w * b
  {
  }

  /** A mask between the floor and one is followed by such a mask, whatever the spectrum and the profile. */
  lemma MaskBetween(c: Tuning, before: seq<real>, profile: seq<real>, spec: Signal)
    requires c.Valid() && |before| == |profile| == |spec| && Between(before, c.floor)
    ensures Between(Mask(c, before, profile, spec), c.floor)
  {
    hide Wanted, Smoothed, Norm;
    forall k | 0 <= k < |spec| ensures c.floor <= Mask(c, before, profile, spec)[k] <= 1.0 {
      NormNotNegative(spec[k]);
      WantedBetween(c, Norm(spec[k]), profile[k]);
      SmoothedBetween(c.smoothing, before[k], Wanted(c, Norm(spec[k]), profile[k]), c.floor);
    }
  }

  /** The masks of the frames of a stream, from all ones. */
  function MaskAfter(c: Tuning, profile: seq<real>, specs: seq<Signal>): (m: seq<real>)
    requires forall s | s in specs :: |s| == |profile|
    ensures |m| == |profile|
    decreases |specs|
  {
    if specs == [] then seq(|profile|, _ => 1.0)
    else Mask(c, MaskAfter(c, profile, specs[..|specs| - 1]), profile, specs[|specs| - 1])
  }

  /** Over every stream no bin is ever amplified, and none attenuated beyond the floor. */
  lemma {:induction false} MasksStayBetween(c: Tuning, profile: seq<real>, specs: seq<Signal>)
    requires c.Valid() && forall s | s in specs :: |s| == |profile|
    ensures Between(MaskAfter(c, profile, specs), c.floor)
    decreases |specs|
  {
    if specs != [] {
      hide Mask, Between;
      MasksStayBetween(c, profile, specs[..|specs| - 1]);
      MaskBetween(c, MaskAfter(c, profile, specs[..|specs| - 1]), profile, specs[|specs| - 1]);
    }
  }

  /** The share of power a bin keeps: what the over-weighted profile leaves of it, between the floor's and all. */
  lemma SubtractsPower(c: Tuning, py: real, pn: real)
    requires c.Valid() && py >= 0.0
    ensures var d := py + 0.00000000000000000001; PowerGain(c, py, pn) * d == d - c.alpha * pn
    ensures var left, g := PowerGain(c, py, pn), Wanted(c, py, pn);
            g * g == if left < c.floor * c.floor then c.floor * c.floor else if left > 1.0 then 1.0 else left
  {
    hide Tuning.Valid, Amplitude;
    LeftOver(py + 0.00000000000000000001, c.alpha * pn);
    AmplitudeSquared(c, PowerGain(c, py, pn));
  }

  lemma LeftOver(d: real, taken: real)
    requires d > 0.0
    ensures (1.0 - taken / d) * d == d - taken
  {
  }

  lemma AmplitudeSquared(c: Tuning, left: real)
    requires c.Valid()
    ensures var g := Amplitude(c, left);
            g * g == if left < c.floor * c.floor then c.floor * c.floor else if left > 1.0 then 1.0 else left
  {
    var f := c.floor;
    NotNegative(f, f);
    if left <= 0.0 {
      assert Amplitude(c, left) == f;
      if left == 0.0 && f > 0.0 {
        SquareBelow(0.0, f);
      }
    } else {
      var r := c.root(left);
      assert r >= 0.0 && r * r == left;
      SameOrder(r, f, left, f * f);
      SameOrder(r, 1.0, left, 1.0);
      SameOrder(f, 1.0, f * f, 1.0);
      assert Amplitude(c, left) == if r < f then f else if r > 1.0 then 1.0 else r;
    }
  }

  /** Squares of what is not negative are ordered as it is. */
  lemma SameOrder(a: real, b: real, aa: real, bb: real)
    requires a >= 0.0 && b >= 0.0 && a * a == aa && b * b == bb
    ensures (a < b <==> aa < bb) && (a > b <==> aa > bb)
  {
    if a < b {
      SquareBelow(a, b);
    } else if a > b {
      SquareBelow(b, a);
    }
  }

  function Shrinking(s: real, n: nat): real {
    if n == 0 then 1.0 else s * Shrinking(s, n - 1)
  }

  /** On a steady spectrum each bin's gain closes in on the wanted one, by the smoothing factor each frame. */
  lemma {:induction false} MaskCloses(c: Tuning, profile: seq<real>, spec: Signal, n: nat, k: nat)
    requires |spec| == |profile| && k < |spec|
    ensures var g := (NormNotNegative(spec[k]); Wanted(c, Norm(spec[k]), profile[k]));
            MaskAfter(c, profile, seq(n, _ => spec))[k] - g == Shrinking(c.smoothing, n) * (1.0 - g)
    decreases n
  {
    hide Norm, Wanted;
    NormNotNegative(spec[k]);
    var g := Wanted(c, Norm(spec[k]), profile[k]);
    if n > 0 {
      MaskCloses(c, profile, spec, n - 1, k);
      assert seq(n, _ => spec)[..n - 1] == seq(n - 1, _ => spec);
      var before := MaskAfter(c, profile, seq(n - 1, _ => spec))[k];
      ClosesIn(c.smoothing, before, g, Shrinking(c.smoothing, n - 1));
    }
  }

  lemma ClosesIn(s: real, before: real, g: real, f: real)
    requires before - g == f * (1.0 - g)
    ensures Smoothed(s, before, g) - g == (s * f) * (1.0 - g)
  {
    assert s * before + (1.0 - s) * g - g == s * (before - g);
    assert s * (f * (1.0 - g)) == (s * f) * (1.0 - g);
  }

  /** A noisier profile never gives a bin more gain. */
  lemma NoisierIsQuieter(c: Tuning, py: real, pn: real, more: real)
    requires c.Valid() && py >= 0.0 && 0.0 <= pn <= more
    ensures Wanted(c, py, more) <= Wanted(c, py, pn)
  {
    var d := py + 0.00000000000000000001;
    Weighted(c.alpha, pn, more);
    Divided(c.alpha * pn, c.alpha * more, d);
    hide Amplitude, Tuning.Valid;
    AmplitudeGrows(c, PowerGain(c, py, more), PowerGain(c, py, pn));
  }

  lemma AmplitudeGrows(c: Tuning, a: real, b: real)
    requires c.Valid() && a <= b
    ensures Amplitude(c, a) <= Amplitude(c, b)
  {
    assert b >= 0.0 ==> c.root(b) >= 0.0;
    if a > 0.0 {
      RootGrows(c, a, b);
    }
  }

  lemma Divided(a: real, b: real, d: real)
    requires a <= b && d > 0.0
    ensures a / d <= b / d
  {
  }

  lemma RootGrows(c: Tuning, a: real, b: real)
    requires c.Valid() && 0.0 <= a <= b
    ensures c.root(a) <= c.root(b)
  {
    var x, y := c.root(a), c.root(b);
    assert x * x == a && y * y == b;
    if y < x {
      SquareBelow(y, x);
    }
  }

  /** A profile of nothing leaves a stream alone. */
  lemma {:induction false} EmptyProfilePasses(c: Tuning, profile: seq<real>, specs: seq<Signal>)
    requires c.Valid() && (forall k :: 0 <= k < |profile| ==> profile[k] == 0.0) && forall s | s in specs :: |s| == |profile|
    ensures forall k :: 0 <= k < |profile| ==> MaskAfter(c, profile, specs)[k] == 1.0
    decreases |specs|
  {
    if specs != [] {
      hide Norm, Wanted;
      EmptyProfilePasses(c, profile, specs[..|specs| - 1]);
      forall k | 0 <= k < |profile| ensures MaskAfter(c, profile, specs)[k] == 1.0 {
        var spec := specs[|specs| - 1];
        NormNotNegative(spec[k]);
        OpenGain(c, Norm(spec[k]));
      }
    }
  }

  lemma OpenGain(c: Tuning, py: real)
    requires c.Valid() && py >= 0.0
    ensures Wanted(c, py, 0.0) == 1.0
  {
    var d := py + 0.00000000000000000001;
    assert c.alpha * 0.0 / d == 0.0;
    assert c.root(1.0) >= 0.0 && c.root(1.0) * c.root(1.0) == 1.0;
    OneSquared(c.root(1.0));
  }

  // ---- What it does to a frame ----

  lemma ScaledNorm(m: real, a: Cplx)
    requires 0.0 <= m <= 1.0
    ensures Norm(Scale(m, a)) <= Norm(a)
  {
    Shrunk(m, a.re, Scale(m, a).re);
    Shrunk(m, a.im, Scale(m, a).im);
  }

  lemma Shrunk(m: real, x: real, y: real)
    requires 0.0 <= m <= 1.0 && y == m * x
    ensures y * y <= x * x
  {
    var size, small := if x < 0.0 then -x else x, if x < 0.0 then -y else y;
    Weighted(size, m, 1.0);
    assert size * m == small && size * 1.0 == size;
    NotNegative(m, size);
    NotNegative(size - small, size + small);
    assert size * size - small * small == (size - small) * (size + small);
  }

  lemma {:induction false} MaskedEnergy(m: seq<real>, spec: Signal, floor: real)
    requires |m| == |spec| && Between(m, floor) && floor >= 0.0
    ensures Energy(Masked(m, spec)) <= Energy(spec)
    decreases |spec|
  {
    hide Norm, Scale;
    if spec != [] {
      var n := |spec| - 1;
      MaskedEnergy(m[..n], spec[..n], floor);
      assert Masked(m, spec)[..n] == Masked(m[..n], spec[..n]);
      ScaledNorm(m[n], spec[n]);
    }
  }

  /** The modifier of one frame with the mask settled: each frame of a stream has its own. */
  function Masking(c: Tuning, before: seq<real>, profile: seq<real>): Signal -> Signal {
    spec => if |before| == |profile| == |spec| then Masked(Mask(c, before, profile, spec), spec) else spec
  }

  /** A frame never gains energy by it, whatever profile, tuning and mask before: the engine's own frame, heard in time. */
  lemma ReducesEnergy(c: Tuning, before: seq<real>, profile: seq<real>, x: Signal, plan: Plan, p: nat)
    requires c.Valid() && plan.Valid(p) && |before| == |profile| == |x| == plan.N() && Between(before, c.floor)
    ensures LengthPreserving(Gain(Masking(c, before, profile))) && |plan.win| == |x|
    ensures Energy(Frame(x, Gain(Masking(c, before, profile)), plan)) <= Energy(Windowed(x, plan))
  {
    hide Mask, Masked, Masking, Spectrum, Synthesis, Frame, Windowed, Energy, Norm, Between, Plan.Valid, Tuning.Valid, LengthPreserving, Analysed;
    WindowLength(plan, p);
    MaskingKeepsLength(c, before, profile);
    assert c.floor >= 0.0 by {
      FloorNotNegative(c);
    }
    var g, a := Gain(Masking(c, before, profile)), Analysed(x, plan);
    var y := Frame(x, g, plan);
    FrameCarriesModified(x, Masking(c, before, profile), plan, p);
    SignalEnergy(y, plan, p);
    SignalEnergy(Windowed(x, plan), plan, p);
    MaskBetween(c, before, profile, a);
    MaskedEnergy(Mask(c, before, profile, a), a, c.floor);
    MaskingIsMasked(c, before, profile, a);
    assert Energy(Spectrum(y, plan.fwd)) <= Energy(a);
    assert Energy(Spectrum(Windowed(x, plan), plan.fwd)) == Energy(a) by {
      AnalysedIsSpectrum(x, plan);
    }
    Cancelled(plan.N() as real, Energy(y), Energy(Windowed(x, plan)), Energy(Spectrum(y, plan.fwd)), Energy(a));
  }

  lemma AnalysedIsSpectrum(x: Signal, plan: Plan)
    requires |x| == |plan.win|
    ensures Analysed(x, plan) == Spectrum(Windowed(x, plan), plan.fwd)
  {
    hide Spectrum, Windowed;
  }

  lemma MaskingKeepsLength(c: Tuning, before: seq<real>, profile: seq<real>)
    ensures LengthPreserving(Gain(Masking(c, before, profile)))
  {
    hide Mask;
  }

  lemma MaskingIsMasked(c: Tuning, before: seq<real>, profile: seq<real>, spec: Signal)
    requires |before| == |profile| == |spec|
    ensures Masking(c, before, profile)(spec) == Masked(Mask(c, before, profile, spec), spec)
  {
    hide Mask, Masked;
  }

  lemma FloorNotNegative(c: Tuning)
    requires c.Valid()
    ensures c.floor >= 0.0
  {
  }

  lemma WindowLength(plan: Plan, p: nat)
    requires plan.Valid(p)
    ensures |plan.win| == plan.N() > 0
  {
  }

  lemma Cancelled(n: real, a: real, b: real, na: real, nb: real)
    requires n > 0.0 && na == n * a && nb == n * b && na <= nb
    ensures a <= b
  {
    if b < a {
      StrictlyWeighted(n, b, a);
    }
  }

  lemma StrictlyWeighted(w: real, a: real, b: real)
    requires w > 0.0 && a < b
    ensures w * a < w * b
  {
  }

  lemma SignalEnergy(y: Signal, plan: Plan, p: nat)
    requires plan.Valid(p) && |y| == plan.N()
    ensures Energy(Spectrum(y, plan.fwd)) == plan.N() as real * Energy(y)
  {
    hide RootFamily, Opposite, Spectrum, Energy, Pow2, Norm, Mul;
    SpectrumEnergy(y, plan.fwd, p);
  }

  // ---- The same-count interface ----

  /** One window of silence ahead is enough: what the engine holds back never exceeds it. */
  lemma PrimedEnough(total: nat, h: nat)
    requires h > 0
    ensures 2 * h + h * FrameCount(total, h) >= total
  {
    if total >= 2 * h {
      var q := (total - 2 * h) / h;
      assert h * q + (total - 2 * h) % h == total - 2 * h;
      assert h * (q + 1) == h * q + h;
    }
  }

  lemma {:induction false} InterleavedAt(s: Signal, k: nat)
    requires k < |s|
    ensures Interleaved(s)[2 * k] == s[k].re && Interleaved(s)[2 * k + 1] == s[k].im
    decreases |s|
  {
    if k < |s| - 1 {
      InterleavedAt(s[..|s| - 1], k);
    }
  }

  class Reducer {
    const stft: Engine
    var outFifo: seq<real>
    ghost var given: seq<real>     // everything written out since the last reset

    /** All that was written out and all that waits is one window of silence and what the engine emitted. */
    ghost predicate Valid()
      reads this, stft, stft.frame, stft.tail
    {
      && stft.Valid()
      && given + outFifo == Interleaved(Silence(stft.plan.N()) + stft.Emitted())
      && |given| == 2 * |stft.fed|
    }

    constructor (plan: Plan, ghost p: nat)
      requires plan.Valid(p)
      ensures Valid() && stft.plan == plan && given == [] && stft.gain == NoGain
      ensures fresh(stft) && fresh(stft.frame) && fresh(stft.tail)
    {
      stft := new Engine(plan, p);
      outFifo, given := Interleaved(Silence(plan.N())), [];
      new;
      assert Silence(plan.N()) + [] == Silence(plan.N());
    }

    method Reset()
      requires Valid()
      modifies this, stft, stft.tail
      ensures Valid() && given == [] && stft.fed == []
    {
      stft.Reset();
      outFifo, given := Interleaved(Silence(stft.plan.N())), [];
      assert Silence(stft.plan.N()) + [] == Silence(stft.plan.N());
    }

    /** As many frames out as in: the queue never runs dry, so its guard has nothing to fill in. */
    method Process(iq: seq<real>, nframes: int) returns (out: seq<real>)
      requires Valid() && 2 * nframes <= |iq|
      modifies this, stft, stft.frame, stft.tail
      ensures Valid()
      ensures if nframes <= 0 then out == [] && stft.fed == old(stft.fed) && given == old(given)
              else |out| == 2 * nframes && stft.fed == old(stft.fed) + Samples(iq, nframes) && given == old(given) + out
    {
      out := [];
      if nframes > 0 {
        hide Interleaved, Samples, Engine.Valid, Silence, Output, Streams, Holds;
        Absorb(iq, nframes);
        out := Pull(2 * nframes);
        Regrouped(given, out, outFifo);
        given := given + out;
      }
    }

    /** Runs the engine and queues what it emits. */
    method Absorb(iq: seq<real>, nframes: int)
      requires Valid() && 0 < 2 * nframes <= |iq|
      modifies this`outFifo, stft, stft.frame, stft.tail
      ensures stft.Valid() && stft.fed == old(stft.fed) + Samples(iq, nframes)
      ensures given + outFifo == Interleaved(Silence(stft.plan.N()) + stft.Emitted())
      ensures |stft.fed| == old(|stft.fed|) + nframes && |outFifo| >= 2 * nframes
    {
      hide Interleaved, Output, Queued, TailAfter, Streams, Samples, Plan.Valid;
      ghost var primed, before := Silence(stft.plan.N()), stft.Emitted();
      InterleavedConcat(primed, before);
      var scratch, spectra := stft.Process(iq, nframes);
      InterleavedConcat(primed, stft.Emitted());
      assert given + (outFifo + scratch) == (given + outFifo) + scratch;
      assert Interleaved(primed) + (Interleaved(before) + scratch) == (Interleaved(primed) + Interleaved(before)) + scratch;
      outFifo := outFifo + scratch;
      SamplesLength(iq, nframes);
      Enough(stft, given, outFifo);
    }

    /** Takes values off the queue, as many as are wanted and there. */
    method Pull(want: nat) returns (out: seq<real>)
      modifies this`outFifo
      ensures out + outFifo == old(outFifo)
      ensures |out| == if |old(outFifo)| < want then |old(outFifo)| else want
    {
      out := [];
      while |out| < want && outFifo != []
        invariant |out| <= want && out + outFifo == old(outFifo)
        decreases want - |out|
      {
        out := out + [outFifo[0]];
        outFifo := outFifo[1..];
      }
    }
  }

  lemma Regrouped(a: seq<real>, b: seq<real>, c: seq<real>)
    ensures (a + b) + c == a + (b + c)
  {
  }

  /** The queue holds what is owed for all that was fed. */
  lemma Enough(e: Engine, given: seq<real>, queue: seq<real>)
    requires e.Valid() && given + queue == Interleaved(Silence(e.plan.N()) + e.Emitted())
    ensures |given| + |queue| >= 2 * |e.fed|
  {
    hide Interleaved, Output, FrameCount, Queued, TailAfter, Streams, Plan.Valid;
    EmittedLength(e);
    PrimedEnough(|e.fed|, e.plan.h);
    assert |given + queue| == 2 * |Silence(e.plan.N()) + e.Emitted()|;
  }

  lemma {:induction false} SamplesLength(iq: seq<real>, nframes: int)
    requires 0 <= 2 * nframes <= |iq|
    ensures |Samples(iq, nframes)| == nframes
  {
    if nframes > 0 {
      SamplesLength(iq, nframes - 1);
    }
  }

  lemma EmittedLength(e: Engine)
    requires e.Valid()
    ensures |e.Emitted()| == e.plan.h * FrameCount(|e.fed|, e.plan.h) && e.plan.h > 0
  {
    hide Output, TailAfter, FrameCount, Plan.Valid;
    OutputLength(e.fed, Silence(e.plan.h), e.gains, e.plan);
    StartIsProduct(|e.gains|, e.plan.h);
    HoldsCounted(e.fed, e.gains, e.plan);
  }

  /** What comes out at frame t: silence for one window, then what the engine made of the stream, in order. */
  lemma GivenAt(r: Reducer, t: nat)
    requires r.Valid() && t < |r.stft.fed|
    ensures var n, e := r.stft.plan.N(), r.stft.Emitted();
            if t < n then r.given[2 * t] == 0.0 == r.given[2 * t + 1]
            else t - n < |e| && r.given[2 * t] == e[t - n].re && r.given[2 * t + 1] == e[t - n].im
  {
    hide Interleaved, Output, FrameCount, Queued, TailAfter, Streams;
    var n, e := r.stft.plan.N(), r.stft.Emitted();
    EmittedLength(r.stft);
    PrimedEnough(|r.stft.fed|, r.stft.plan.h);
    var all := Silence(n) + e;
    InterleavedAt(all, t);
    assert r.given + r.outFifo == Interleaved(all);
    assert (r.given + r.outFifo)[2 * t] == r.given[2 * t] && (r.given + r.outFifo)[2 * t + 1] == r.given[2 * t + 1];
  }

  /**
   * Without a profile, in blocks of any sizes, the reducer is a delay of exactly one window: after
   * the fade-in of the first hop, frame t out is frame t - N in.
   */
  lemma PassesDelayed(r: Reducer, t: nat)
    requires r.Valid() && r.stft.plan.PowerComplementary() && Unmodified(r.stft.gains)
    requires r.stft.plan.N() + r.stft.plan.h <= t < |r.stft.fed|
    ensures var x := r.stft.fed[t - r.stft.plan.N()]; r.given[2 * t] == x.re && r.given[2 * t + 1] == x.im
  {
    hide Interleaved, Output, FrameCount, Queued, TailAfter, Streams;
    GivenAt(r, t);
    EngineIsIdentity(r.stft);
  }
}
