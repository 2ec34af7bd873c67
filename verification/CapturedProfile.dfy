/** Capture of a noise profile: the per-bin mean power of the first frames of a stream. */
module CapturedProfile {
  import opened Basics
  import opened Complex
  import opened Dft
  import opened Fft
  import opened IqStft
  import opened Parseval

  /** Power of bin k summed over the first `frames` spectra. */
  function PowerSum(spectra: seq<Signal>, frames: nat, k: nat): real
    requires frames <= |spectra| && forall s | s in spectra :: k < |s|
  {
    if frames == 0 then 0.0 else PowerSum(spectra, frames - 1, k) + Norm(spectra[frames - 1][k])
  }

  /** The mean power per bin over the first `frames` frames of a stream. */
  function MeanPower(fed: Signal, frames: nat, plan: Plan): (r: seq<real>)
    requires frames > 0 && |plan.win| == plan.N() && Holds(|fed|, frames, plan.h)
    ensures |r| == plan.N()
  {
    var spectra := Spectra(fed, frames, plan);
    SpectraWidth(fed, frames, plan);
    seq(plan.N(), k requires 0 <= k < plan.N() => PowerSum(spectra, frames, k) / frames as real)
  }

  lemma {:induction false} SpectraWidth(fed: Signal, frames: nat, plan: Plan)
    requires |plan.win| == plan.N() && Holds(|fed|, frames, plan.h)
    ensures forall s | s in Spectra(fed, frames, plan) :: |s| == plan.N()
    decreases frames
  {
    if frames > 0 {
      SpectraWidth(fed[plan.h..], frames - 1, plan);
    }
  }

  lemma {:induction false} PowerSumPrefix(a: seq<Signal>, b: seq<Signal>, frames: nat, k: nat)
    requires frames <= |a| && frames <= |b| && a[..frames] == b[..frames]
    requires forall s | s in a :: k < |s|
    requires forall s | s in b :: k < |s|
    ensures PowerSum(a, frames, k) == PowerSum(b, frames, k)
  {
    if frames > 0 {
      assert a[..frames][..frames - 1] == a[..frames - 1] && b[..frames][..frames - 1] == b[..frames - 1];
      assert a[..frames][frames - 1] == a[frames - 1] && b[..frames][frames - 1] == b[frames - 1];
      PowerSumPrefix(a, b, frames - 1, k);
    }
  }

  lemma {:induction false} SpectraPrefix(fed: Signal, few: nat, many: nat, plan: Plan)
    requires |plan.win| == plan.N() && few <= many && Holds(|fed|, many, plan.h)
    ensures Holds(|fed|, few, plan.h)
    ensures Spectra(fed, many, plan)[..few] == Spectra(fed, few, plan)
    decreases few
  {
    if few > 0 {
      hide Analysed;
      SpectraPrefix(fed[plan.h..], few - 1, many - 1, plan);
    }
  }

  /** Surplus samples, in the same call or later, never bias the profile. */
  lemma SurplusIgnored(fed: Signal, more: Signal, frames: nat, plan: Plan)
    requires frames > 0 && |plan.win| == plan.N() && Holds(|fed|, frames, plan.h)
    ensures Holds(|fed + more|, frames, plan.h)
    ensures MeanPower(fed + more, frames, plan) == MeanPower(fed, frames, plan)
  {
    SpectraStable(fed, more, frames, plan);
    SpectraWidth(fed, frames, plan);
  }

  // ---- What the profile measures ----

  function Total(s: seq<real>): real {
    if s == [] then 0.0 else Total(s[..|s| - 1]) + s[|s| - 1]
  }

  /** The energy of the windowed stretches under the first frames. */
  function FramesEnergy(fed: Signal, frames: nat, plan: Plan): real
    requires |plan.win| == plan.N() && Holds(|fed|, frames, plan.h)
    decreases frames
  {
    if frames == 0 then 0.0
    else Energy(Windowed(fed[..plan.N()], plan)) + FramesEnergy(fed[plan.h..], frames - 1, plan)
  }

  /** The powers of the first bins, summed over the first frames. */
  function BinSums(spectra: seq<Signal>, frames: nat, bins: nat): (r: seq<real>)
    requires frames <= |spectra| && forall s | s in spectra :: bins <= |s|
    ensures |r| == bins
  {
    if bins == 0 then [] else BinSums(spectra, frames, bins - 1) + [PowerSum(spectra, frames, bins - 1)]
  }

  lemma TotalOfBins(spectra: seq<Signal>, frames: nat, bins: nat)
    requires frames <= |spectra| && 0 < bins && forall s | s in spectra :: bins <= |s|
    ensures Total(BinSums(spectra, frames, bins))
         == Total(BinSums(spectra, frames, bins - 1)) + PowerSum(spectra, frames, bins - 1)
  {
    hide PowerSum;
    var front := BinSums(spectra, frames, bins - 1);
    assert BinSums(spectra, frames, bins) == front + [PowerSum(spectra, frames, bins - 1)];
    hide BinSums;
    assert (front + [PowerSum(spectra, frames, bins - 1)])[..bins - 1] == front;
  }

  lemma EnergyOfBins(s: Signal, bins: nat)
    requires 0 < bins <= |s|
    ensures Energy(s[..bins]) == Energy(s[..bins - 1]) + Norm(s[bins - 1])
  {
    hide Norm;
    assert s[..bins][..bins - 1] == s[..bins - 1];
  }

  lemma NoBins(spectra: seq<Signal>, frames: nat, s: Signal)
    requires frames <= |spectra|
    ensures Total(BinSums(spectra, frames, 0)) == 0.0 && Energy(s[..0]) == 0.0
  {
  }

  lemma {:induction false} OneMoreInAll(spectra: seq<Signal>, frames: nat, bins: nat)
    requires 0 < frames <= |spectra| && forall s | s in spectra :: bins <= |s|
    ensures Total(BinSums(spectra, frames, bins))
         == Total(BinSums(spectra, frames - 1, bins)) + Energy(spectra[frames - 1][..bins])
    decreases bins
  {
    hide Norm, Total, BinSums, Energy;
    if bins == 0 {
      NoBins(spectra, frames, spectra[frames - 1]);
      NoBins(spectra, frames - 1, spectra[frames - 1]);
    } else {
      OneMoreInAll(spectra, frames, bins - 1);
      TotalOfBins(spectra, frames, bins);
      TotalOfBins(spectra, frames - 1, bins);
      EnergyOfBins(spectra[frames - 1], bins);
    }
  }

  /** The energies of the first spectra. */
  function SpectraEnergy(spectra: seq<Signal>, frames: nat): real
    requires frames <= |spectra|
  {
    if frames == 0 then 0.0 else SpectraEnergy(spectra, frames - 1) + Energy(spectra[frames - 1])
  }

  lemma {:induction false} NoFrames(spectra: seq<Signal>, bins: nat)
    requires forall s | s in spectra :: bins <= |s|
    ensures Total(BinSums(spectra, 0, bins)) == 0.0
  {
    hide Norm, Total, BinSums;
    if bins == 0 {
      NoBins(spectra, 0, []);
    } else {
      NoFrames(spectra, bins - 1);
      TotalOfBins(spectra, 0, bins);
    }
  }

  lemma {:induction false} BinsByFrames(spectra: seq<Signal>, frames: nat, bins: nat)
    requires frames <= |spectra| && forall s | s in spectra :: |s| == bins
    ensures Total(BinSums(spectra, frames, bins)) == SpectraEnergy(spectra, frames)
    decreases frames
  {
    hide Energy, Total, PowerSum;
    if frames == 0 {
      NoFrames(spectra, bins);
    } else {
      BinsByFrames(spectra, frames - 1, bins);
      OneMoreInAll(spectra, frames, bins);
      assert spectra[frames - 1] in spectra;
      assert spectra[frames - 1][..bins] == spectra[frames - 1];
    }
  }

  lemma {:induction false} EnergyFirst(spectra: seq<Signal>, frames: nat)
    requires 0 < frames <= |spectra|
    ensures SpectraEnergy(spectra, frames) == Energy(spectra[0]) + SpectraEnergy(spectra[1..], frames - 1)
    decreases frames
  {
    hide Energy;
    if frames > 1 {
      EnergyFirst(spectra, frames - 1);
      assert spectra[1..][frames - 2] == spectra[frames - 1];
    }
  }

  lemma {:induction false} SpectraCarryEnergy(fed: Signal, frames: nat, plan: Plan, p: nat)
    requires plan.Valid(p) && |plan.win| == plan.N() && Holds(|fed|, frames, plan.h)
    ensures SpectraEnergy(Spectra(fed, frames, plan), frames) == plan.N() as real * FramesEnergy(fed, frames, plan)
    decreases frames
  {
    hide Plan.Valid, Energy, Windowed, Analysed, SpectraEnergy, Norm;
    if frames == 0 {
      NoEnergy(Spectra(fed, frames, plan));
    } else {
      var x, later := fed[..plan.N()], fed[plan.h..];
      SpectraCarryEnergy(later, frames - 1, plan, p);
      EnergyFirst(Spectra(fed, frames, plan), frames);
      assert Spectra(fed, frames, plan)[1..] == Spectra(later, frames - 1, plan);
      AnalysedEnergy(x, plan, p);
      Factored(plan.N() as real, Energy(Windowed(x, plan)), FramesEnergy(later, frames - 1, plan));
    }
  }

  lemma NoEnergy(spectra: seq<Signal>)
    ensures SpectraEnergy(spectra, 0) == 0.0
  {
  }

  lemma AnalysedEnergy(x: Signal, plan: Plan, p: nat)
    requires plan.Valid(p) && |x| == |plan.win| == plan.N()
    ensures Energy(Analysed(x, plan)) == plan.N() as real * Energy(Windowed(x, plan))
  {
    hide RootFamily, Opposite, Spectrum, Windowed, Energy, Pow2, Norm, Mul;
    SpectrumEnergy(Windowed(x, plan), plan.fwd, p);
  }

  lemma Factored(n: real, a: real, b: real)
    ensures n * a + n * b == n * (a + b)
  {
  }

  /** Dividing every bin divides the total. */
  lemma {:induction false} TotalShared(sums: seq<real>, mean: seq<real>, d: real)
    requires |sums| == |mean| && d > 0.0 && forall k | 0 <= k < |sums| :: mean[k] == sums[k] / d
    ensures d * Total(mean) == Total(sums)
    decreases |sums|
  {
    if sums != [] {
      var n := |sums| - 1;
      TotalShared(sums[..n], mean[..n], d);
      Factored(d, Total(mean[..n]), mean[n]);
      assert d * mean[n] == sums[n];
    }
  }

  /**
   * What the profile measures: its bins together, times the number of frames, are the energy of the
   * windowed input under those frames times the transform length.
   */
  lemma ProfileEnergy(fed: Signal, frames: nat, plan: Plan, p: nat)
    requires plan.Valid(p) && frames > 0 && |plan.win| == plan.N() && Holds(|fed|, frames, plan.h)
    ensures frames as real * Total(MeanPower(fed, frames, plan)) == plan.N() as real * FramesEnergy(fed, frames, plan)
  {
    hide Plan.Valid, Total, SpectraEnergy, FramesEnergy, Spectra, BinSums, PowerSum;
    var spectra := Spectra(fed, frames, plan);
    SpectraWidth(fed, frames, plan);
    BinsByFrames(spectra, frames, plan.N());
    SpectraCarryEnergy(fed, frames, plan, p);
    forall k | 0 <= k < plan.N() ensures BinSums(spectra, frames, plan.N())[k] == PowerSum(spectra, frames, k) {
      BinSumAt(spectra, frames, plan.N(), k);
    }
    TotalShared(BinSums(spectra, frames, plan.N()), MeanPower(fed, frames, plan), frames as real);
  }

  lemma {:induction false} BinSumAt(spectra: seq<Signal>, frames: nat, bins: nat, k: nat)
    requires frames <= |spectra| && k < bins && forall s | s in spectra :: bins <= |s|
    ensures BinSums(spectra, frames, bins)[k] == PowerSum(spectra, frames, k)
    decreases bins
  {
    hide PowerSum;
    if k < bins - 1 {
      BinSumAt(spectra, frames, bins - 1, k);
    }
  }

  class Profile {
    const stft: Engine
    const powSum: array<real>
    const profile: array<real>
    var sampleRate: int
    var capturing: bool
    var valid: bool
    var frames: nat
    var target: nat
    ghost var measured: Signal     // the stream the finished profile was taken from

    /** The accumulator holds the first frames of the stream, and only those. */
    ghost predicate Accumulates(count: nat)
      requires stft.Consistent()
      reads this, powSum, stft, stft.frame, stft.tail
    {
      && count <= |stft.gains| && powSum.Length == stft.plan.N()
      && (SpectraWidth(stft.fed, |stft.gains|, stft.plan);
          forall k | 0 <= k < powSum.Length :: powSum[k] == PowerSum(stft.Seen(), count, k))
    }

    ghost predicate Valid()
      reads this, powSum, profile, stft, stft.frame, stft.tail
    {
      && stft.Valid()
      && powSum.Length == profile.Length == stft.plan.N()
      && powSum != profile
      && (capturing ==> !valid && frames < target && frames == |stft.gains| && Accumulates(frames))
      && (valid ==>
            && target > 0 && Holds(|measured|, target, stft.plan.h)
            && profile[..] == MeanPower(measured, target, stft.plan))
    }

    constructor (plan: Plan, ghost p: nat)
      requires plan.Valid(p)
      ensures Valid() && !capturing && !valid && stft.plan == plan
      ensures fresh(stft) && fresh(stft.frame) && fresh(stft.tail) && fresh(powSum) && fresh(profile)
    {
      stft := new Engine(plan, p);
      powSum := new real[plan.N()](_ => 0.0);
      profile := new real[plan.N()](_ => 0.0);
      sampleRate, capturing, valid, frames, target := 0, false, false, 0, 0;
      measured := [];
    }

    /** Arms a capture over `seconds` of I/Q at `rate`; at least one frame is always measured. */
    method Begin(rate: int, seconds: real)
      requires Valid()
      modifies this, powSum, stft, stft.tail
      ensures Valid() && capturing && !valid && frames == 0 && stft.fed == []
      ensures target >= 1 && sampleRate == rate
      ensures var wanted := seconds * rate as real / stft.plan.h as real;
              if wanted < 0.5 then target == 1 else target as real <= wanted + 0.5 < target as real + 1.0
    {
      sampleRate := rate;
      var framesF := seconds * rate as real / stft.plan.h as real;
      var rounded := (framesF + 0.5).Floor;
      target := if rounded < 1 then 1 else rounded;
      frames := 0;
      for k := 0 to powSum.Length
        invariant forall n | 0 <= n < k :: powSum[n] == 0.0
        modifies powSum
      {
        powSum[k] := 0.0;
      }
      valid := false;
      capturing := true;
      stft.Reset();
    }

    /** Aborts: nothing is measured any more, and the profile keeps its state. */
    method Cancel()
      requires Valid()
      modifies this`capturing, stft, stft.tail
      ensures Valid() && !capturing && valid == old(valid) && stft.fed == []
      ensures profile[..] == old(profile[..])
    {
      capturing := false;
      stft.Reset();
    }

    /** The per-frame hook: observe only, and deaf once the target is reached. */
    method Hook(spec: Signal, ghost seen: seq<Signal>)
      requires powSum.Length == |spec| && frames <= |seen|
      requires capturing && frames < target ==> frames < |seen| && spec == seen[frames]
      requires forall s | s in seen :: |s| == |spec|
      requires forall k | 0 <= k < powSum.Length :: powSum[k] == PowerSum(seen, frames, k)
      modifies this`frames, powSum
      ensures frames == old(frames) + (if capturing && old(frames) < target then 1 else 0)
      ensures forall k | 0 <= k < powSum.Length :: powSum[k] == PowerSum(seen, frames, k)
    {
      if !capturing || frames >= target {
        return;
      }
      hide Norm;
      for k := 0 to powSum.Length
        invariant forall n | 0 <= n < k :: powSum[n] == PowerSum(seen, frames + 1, n)
        invariant forall n | k <= n < powSum.Length :: powSum[n] == PowerSum(seen, frames, n)
        modifies powSum
      {
        powSum[k] := powSum[k] + Norm(spec[k]);
      }
      frames := frames + 1;
    }

    /** The closing loop: each bin's sum over the number of frames. */
    method Average()
      requires frames > 0 && powSum.Length == profile.Length && powSum != profile
      modifies profile
      ensures forall n | 0 <= n < profile.Length :: profile[n] == powSum[n] / frames as real
    {
      var inv := 1.0 / frames as real;
      for k := 0 to powSum.Length
        invariant forall n | 0 <= n < k :: profile[n] == powSum[n] / frames as real
      {
        profile[k] := powSum[k] * inv;
      }
    }

    /** The hook called once for each frame of a call, in order. */
    method Observe(spectra: seq<Signal>, ghost seen: seq<Signal>, ghost first: nat)
      requires capturing && frames == first < target && |seen| == first + |spectra| && spectra == seen[first..]
      requires forall s | s in seen :: |s| == powSum.Length
      requires forall k | 0 <= k < powSum.Length :: powSum[k] == PowerSum(seen, first, k)
      modifies this`frames, powSum
      ensures frames == if |seen| < target then |seen| else target
      ensures forall k | 0 <= k < powSum.Length :: powSum[k] == PowerSum(seen, frames, k)
    {
      for i := 0 to |spectra|
        invariant frames == if first + i < target then first + i else target
        invariant forall k | 0 <= k < powSum.Length :: powSum[k] == PowerSum(seen, frames, k)
      {
        assert spectra[i] == seen[first + i];
        Hook(spectra[i], seen);
      }
    }

    /** Runs the engine over the samples with the hook installed. */
    method Listen(iq: seq<real>, nframes: int)
      requires Valid() && capturing && 2 * nframes <= |iq|
      modifies this`frames, powSum, stft, stft.frame, stft.tail
      ensures stft.Valid() && stft.fed == old(stft.fed) + Samples(iq, nframes)
      ensures |stft.gains| == FrameCount(|stft.fed|, stft.plan.h)
      ensures frames == if |stft.gains| < target then |stft.gains| else target
      ensures Accumulates(frames)
    {
      hide PowerSum, Spectra, Output, TailAfter, FrameCount, Queued, Holds;
      ghost var seen0, first, plan := stft.Seen(), frames, stft.plan;
      SpectraWidth(stft.fed, |stft.gains|, plan);
      assert forall k | 0 <= k < powSum.Length :: powSum[k] == PowerSum(seen0, first, k);
      var scratch, spectra := stft.Process(iq, nframes);
      ghost var seen := stft.Seen();
      SpectraWidth(stft.fed, |stft.gains|, plan);
      PrefixSums(seen0, seen, first, powSum.Length);
      DrainedCount(stft.fed, |stft.gains|, plan.h);
      Observe(spectra, seen, first);
    }

    /** Turns the sums into the profile and closes the capture. */
    method Conclude()
      requires stft.Valid() && powSum.Length == profile.Length == stft.plan.N() && powSum != profile
      requires 0 < frames == target <= |stft.gains| && Accumulates(frames)
      modifies this`valid, this`capturing, this`measured, profile
      ensures Valid() && valid && !capturing && measured == stft.fed
    {
      hide PowerSum, Spectra, MeanPower, Output, TailAfter, Queued;
      ghost var plan, fed := stft.plan, stft.fed;
      SpectraWidth(fed, |stft.gains|, plan);
      Average();
      MeanOfSums(fed, plan, target, |stft.gains|, powSum[..], profile[..]);
      measured := fed;
      valid := true;
      capturing := false;
    }

    /**
     * Streams I/Q while capturing. The capture ends with the call in which the target is reached,
     * and the profile is then the mean over exactly the first `target` frames of the stream.
     */
    method Feed(iq: seq<real>, nframes: int)
      requires Valid() && 2 * nframes <= |iq|
      modifies this, powSum, profile, stft, stft.frame, stft.tail
      ensures Valid() && target == old(target)
      ensures !old(capturing) || nframes <= 0 ==>
                && capturing == old(capturing) && valid == old(valid) && frames == old(frames)
                && profile[..] == old(profile[..]) && stft.fed == old(stft.fed)
      ensures old(capturing) && nframes > 0 ==>
                && stft.fed == old(stft.fed) + Samples(iq, nframes)
                && valid == !capturing
                && (capturing <==> FrameCount(|stft.fed|, stft.plan.h) < target)
                && (valid ==> measured == stft.fed)
    {
      if !capturing || nframes <= 0 {
        return;
      }
      hide FrameCount;
      Listen(iq, nframes);
      if frames >= target {
        Conclude();
      }
    }
  }

  /** Averaging the sums over the frames seen gives the mean over the first ones. */
  lemma MeanOfSums(fed: Signal, plan: Plan, target: nat, many: nat, sums: seq<real>, mean: seq<real>)
    requires 0 < target <= many && |plan.win| == plan.N() == |sums| == |mean| && Holds(|fed|, many, plan.h)
    requires forall s | s in Spectra(fed, many, plan) :: |s| == plan.N()
    requires forall k | 0 <= k < |sums| :: sums[k] == PowerSum(Spectra(fed, many, plan), target, k)
    requires forall k | 0 <= k < |sums| :: mean[k] == sums[k] / target as real
    ensures Holds(|fed|, target, plan.h) && mean == MeanPower(fed, target, plan)
  {
    hide PowerSum, Spectra, Holds;
    SpectraPrefix(fed, target, many, plan);
    SpectraWidth(fed, target, plan);
    forall k | 0 <= k < |mean|
      ensures mean[k] == MeanPower(fed, target, plan)[k]
    {
      PowerSumPrefix(Spectra(fed, many, plan), Spectra(fed, target, plan), target, k);
    }
  }

  lemma PrefixSums(a: seq<Signal>, b: seq<Signal>, frames: nat, width: nat)
    requires a <= b && frames <= |a| && forall s | s in b :: |s| == width
    ensures forall s | s in a :: |s| == width
    ensures forall k | 0 <= k < width :: PowerSum(a, frames, k) == PowerSum(b, frames, k)
  {
    forall s | s in a ensures s in b {
      var i :| 0 <= i < |a| && a[i] == s;
      assert b[i] == s;
    }
    forall k | 0 <= k < width
      ensures PowerSum(a, frames, k) == PowerSum(b, frames, k)
    {
      PowerSumPrefix(a, b, frames, k);
    }
  }
}
