/** What an installed modifier does to the stream: the frame law, and overlap-add over modified frames. */
module IqGain {
  import opened Basics
  import opened Complex
  import opened Dft
  import opened Fft
  import opened IqStft

  lemma {:induction false} BinScaled(r: real, x: Signal, w: Cplx, k: nat, n: nat)
    requires n <= |x|
    ensures Bin(Scaled(r, x), w, k, n) == Scale(r, Bin(x, w, k, n))
    decreases n
  {
    hide Mul, Pow;
    if n > 0 {
      BinScaled(r, x, w, k, n - 1);
      ScaleMul(r, x[n - 1], Pow(w, (n - 1) * k));
    }
  }

  lemma TransformScaled(r: real, x: Signal, w: Cplx)
    ensures Transform(Scaled(r, x), w) == Scaled(r, Transform(x, w))
  {
    forall k | 0 <= k < |x| ensures Transform(Scaled(r, x), w)[k] == Scale(r, Transform(x, w)[k]) {
      BinScaled(r, x, w, k, |x|);
    }
  }

  // ---- One frame ----

  /** The forward transform of a synthesised frame is the spectrum it was made from. */
  lemma SynthesisKeeps(s: Signal, fwd: nat -> Cplx, inv: nat -> Cplx, p: nat)
    requires p >= 1 && |s| == Pow2(p) && ValidRoots(fwd, inv, p)
    ensures Spectrum(Synthesis(s, inv), fwd) == s
  {
    hide Mul, Scale, Transform;
    var w, v, n := fwd(Pow2(p)), inv(Pow2(p)), Pow2(p) as real;
    FamilyHalfTurn(inv, p);
    MulComm(w, v);
    Inversion(s, v, w, p);
    TransformScaled(1.0 / n, Transform(s, v), w);
    forall k | 0 <= k < |s| ensures Scaled(1.0 / n, Scaled(n, s))[k] == s[k] {
      Normalised(n, s[k]);
    }
  }

  /** What an installed modifier makes of the analysed spectrum is the spectrum of the frame. */
  lemma FrameCarriesModified(x: Signal, fn: Signal -> Signal, plan: Plan, p: nat)
    requires plan.Valid(p) && |x| == plan.N() && LengthPreserving(Gain(fn))
    ensures Spectrum(Frame(x, Gain(fn), plan), plan.fwd) == fn(Analysed(x, plan))
  {
    hide Spectrum, Synthesis;
    SynthesisKeeps(fn(Analysed(x, plan)), plan.fwd, plan.inv, p);
  }

  // ---- Overlap-add over any frames ----

  /** Where the i-th hop starts. */
  function Start(i: nat, h: nat): nat {
    if i == 0 then 0 else Start(i - 1, h) + h
  }

  lemma {:induction false} StartIsProduct(i: nat, h: nat)
    ensures Start(i, h) == h * i
  {
    if i > 0 {
      StartIsProduct(i - 1, h);
    }
  }

  lemma {:induction false} OutputLength(fed: Signal, tail: Signal, gains: seq<Gain>, plan: Plan)
    requires Streams(fed, gains, plan) && |tail| == plan.h
    ensures |Output(fed, tail, gains, plan)| == Start(|gains|, plan.h) <= |fed|
    decreases |gains|
  {
    if gains != [] {
      FirstTurn(fed, tail, gains, plan);
      hide Hop, Carry, LengthPreserving, Output, Streams;
      OutputLength(fed[plan.h..], Carry(fed[..plan.N()], gains[0], plan), gains[1..], plan);
    }
  }

  lemma FirstFrame(fed: Signal, gains: seq<Gain>, plan: Plan)
    requires Streams(fed, gains, plan) && gains != []
    ensures |plan.win| == plan.N() <= |fed| && Streams(fed[plan.h..], gains[1..], plan) && LengthPreserving(gains[0])
  {
    hide LengthPreserving;
    assert gains[0] in gains && forall g | g in gains[1..] :: g in gains;
  }

  lemma FirstTurn(fed: Signal, tail: Signal, gains: seq<Gain>, plan: Plan)
    requires Streams(fed, gains, plan) && |tail| == plan.h && gains != []
    ensures |fed| >= plan.N() == |plan.win| && Streams(fed[plan.h..], gains[1..], plan) && LengthPreserving(gains[0])
    ensures var x := fed[..plan.N()];
            Output(fed, tail, gains, plan)
            == Hop(x, tail, gains[0], plan) + Output(fed[plan.h..], Carry(x, gains[0], plan), gains[1..], plan)
  {
    FirstFrame(fed, gains, plan);
    hide Hop, Carry, LengthPreserving, Streams, Holds;
  }

  lemma {:induction false} HoldsFrame(total: nat, frames: nat, i: nat, h: nat)
    requires Holds(total, frames, h) && i < frames
    ensures Start(i, h) + 2 * h <= total
    decreases i
  {
    if i > 0 {
      HoldsFrame(total - h, frames - 1, i - 1, h);
    }
  }

  /** The stretch of input under the i-th frame. */
  function Stretch(fed: Signal, i: nat, h: nat): (r: Signal)
    requires Start(i, h) + 2 * h <= |fed|
    ensures |r| == 2 * h
  {
    fed[Start(i, h)..Start(i, h) + 2 * h]
  }

  lemma StretchLater(fed: Signal, i: nat, h: nat)
    requires i > 0 && Start(i, h) + 2 * h <= |fed|
    ensures h <= |fed| && Start(i - 1, h) + 2 * h <= |fed[h..]| && Stretch(fed[h..], i - 1, h) == Stretch(fed, i, h)
  {
  }

  lemma HopAt(x: Signal, tail: Signal, g: Gain, plan: Plan, k: nat)
    requires |x| == |plan.win| == plan.N() && LengthPreserving(g) && |tail| == plan.h && k < plan.h
    ensures Hop(x, tail, g, plan)[k] == Add(Scale(plan.win[k], Frame(x, g, plan)[k]), tail[k])
    ensures Carry(x, g, plan)[k] == Scale(plan.win[plan.h + k], Frame(x, g, plan)[plan.h + k])
  {
    hide Frame, LengthPreserving;
  }

  /** What position k of the i-th hop is made of. */
  ghost function Overlapped(fed: Signal, tail: Signal, gains: seq<Gain>, plan: Plan, i: nat, k: nat): Cplx
    requires |plan.win| == plan.N() && (forall g | g in gains :: LengthPreserving(g)) && |tail| == plan.h
    requires i < |gains| && k < plan.h && Start(i, plan.h) + plan.N() <= |fed|
  {
    Add(Scale(plan.win[k], Frame(Stretch(fed, i, plan.h), gains[i], plan)[k]),
        if i == 0 then tail[k]
        else Scale(plan.win[plan.h + k], Frame(Stretch(fed, i - 1, plan.h), gains[i - 1], plan)[plan.h + k]))
  }

  /** Overlap-add, whatever the modifiers: every hop is a front half on top of the back half before it. */
  lemma {:induction false} HopOverlaps(fed: Signal, tail: Signal, gains: seq<Gain>, plan: Plan, i: nat, k: nat)
    requires Streams(fed, gains, plan) && |tail| == plan.h && i < |gains| && k < plan.h
    ensures Start(i, plan.h) + plan.N() <= |fed| && Start(i, plan.h) + k < |Output(fed, tail, gains, plan)|
    ensures Output(fed, tail, gains, plan)[Start(i, plan.h) + k] == Overlapped(fed, tail, gains, plan, i, k)
    decreases i
  {
    hide Scale, Add, Frame, LengthPreserving, Hop, Carry, Holds, Output, Stretch;
    var h := plan.h;
    HoldsFrame(|fed|, |gains|, i, h);
    FirstTurn(fed, tail, gains, plan);
    var x := fed[..plan.N()];
    HopAt(x, if i == 0 then tail else Carry(x, gains[0], plan), gains[0], plan, k);
    if i == 0 {
      assert Stretch(fed, 0, h) == x by {
        StretchFirst(fed, h);
      }
    } else {
      HopOverlaps(fed[h..], Carry(x, gains[0], plan), gains[1..], plan, i - 1, k);
      StretchLater(fed, i, h);
      if i == 1 {
        StretchFirst(fed, h);
      } else {
        StretchLater(fed, i - 1, h);
      }
    }
  }

  lemma StretchFirst(fed: Signal, h: nat)
    requires 2 * h <= |fed|
    ensures Stretch(fed, 0, h) == fed[..2 * h]
  {
  }

  // ---- Modifiers that multiply ----

  /** A modifier that multiplies every bin alike. */
  ghost predicate Multiplies(g: Gain, c: real) {
    g.Gain? && forall s: Signal :: g.fn(s) == Scaled(c, s)
  }

  lemma FrameScaled(x: Signal, g: Gain, c: real, plan: Plan, p: nat)
    requires plan.Valid(p) && |x| == plan.N() && Multiplies(g, c) && LengthPreserving(g)
    ensures |plan.win| == |x| && Frame(x, g, plan) == Scaled(c, Windowed(x, plan))
  {
    hide Scale, Transform;
    var win, n := Windowed(x, plan), 1.0 / plan.N() as real;
    var spec := Spectrum(win, plan.fwd);
    RoundTrip(win, plan.fwd, plan.inv, p);
    TransformScaled(c, spec, plan.inv(|x|));
    forall k | 0 <= k < |x| ensures Frame(x, g, plan)[k] == Scale(c, win[k]) {
      var t := Transform(spec, plan.inv(|x|))[k];
      ScaleScale(n, c, t);
      ScaleScale(c, n, t);
      assert n * c == c * n;
      assert win[k] == Scale(n, t);
    }
  }

  lemma FrameSample(fed: Signal, g: Gain, c: real, plan: Plan, p: nat, i: nat, k: nat)
    requires plan.Valid(p) && Multiplies(g, c) && LengthPreserving(g)
    requires Start(i, plan.h) + plan.N() <= |fed| && |plan.win| == plan.N() && k < plan.N()
    ensures Frame(Stretch(fed, i, plan.h), g, plan)[k] == Scale(c, Scale(plan.win[k], fed[Start(i, plan.h) + k]))
  {
    hide Scale, Frame, Multiplies, LengthPreserving, Plan.Valid;
    FrameScaled(Stretch(fed, i, plan.h), g, c, plan, p);
  }

  lemma Sandwich(a: real, c: real, x: real)
    ensures a * (c * (a * x)) == (Square(a) * c) * x
  {
    assert c * (a * x) == (c * a) * x;
    assert a * ((c * a) * x) == (a * (c * a)) * x;
    assert a * (c * a) == (a * a) * c;
  }

  /** The share of a strength seen through a tap, on the way in and on the way out. */
  function Through(tap: real, c: real): real {
    Square(tap) * c
  }

  lemma Tapped(a: real, c: real, x: Cplx)
    ensures Scale(a, Scale(c, Scale(a, x))) == Scale(Through(a, c), x)
  {
    Sandwich(a, c, x.re);
    Sandwich(a, c, x.im);
  }

  lemma ScaleAdds(a: real, b: real, x: Cplx)
    ensures Add(Scale(a, x), Scale(b, x)) == Scale(a + b, x)
  {
  }

  /**
   * Frames of different strengths: past the first hop every sample comes out multiplied by the
   * strengths of the two frames over it, each by its squared tap.
   */
  lemma ScaledStream(fed: Signal, tail: Signal, gains: seq<Gain>, cs: seq<real>, plan: Plan, p: nat, i: nat, k: nat)
    requires plan.Valid(p) && Streams(fed, gains, plan) && |tail| == plan.h
    requires |cs| == |gains| && forall n | 0 <= n < |gains| :: Multiplies(gains[n], cs[n])
    requires i < |gains| && k < plan.h
    ensures Start(i, plan.h) + k < |Output(fed, tail, gains, plan)| <= |fed| && |plan.win| == plan.N()
    ensures var out, j, a, b := Output(fed, tail, gains, plan), Start(i, plan.h) + k, plan.win[k], plan.win[plan.h + k];
            out[j] == if i == 0 then Add(Scale(Through(a, cs[0]), fed[j]), tail[k])
                      else Scale(Through(a, cs[i]) + Through(b, cs[i - 1]), fed[j])
  {
    hide Frame, Output, Holds, Scale, Through, Multiplies, LengthPreserving, Stretch;
    assert gains[i] in gains && (i > 0 ==> gains[i - 1] in gains);
    HopOverlaps(fed, tail, gains, plan, i, k);
    OutputLength(fed, tail, gains, plan);
    FrontHalf(fed, gains, cs, plan, p, i, k);
    if i > 0 {
      BackHalf(fed, gains, cs, plan, p, i, k);
      ScaleAdds(Through(plan.win[k], cs[i]), Through(plan.win[plan.h + k], cs[i - 1]), fed[Start(i, plan.h) + k]);
    }
  }

  lemma FrontHalf(fed: Signal, gains: seq<Gain>, cs: seq<real>, plan: Plan, p: nat, i: nat, k: nat)
    requires plan.Valid(p) && |cs| == |gains| && i < |gains| && k < plan.h && Start(i, plan.h) + plan.N() <= |fed|
    requires Multiplies(gains[i], cs[i]) && LengthPreserving(gains[i])
    ensures |plan.win| == plan.N()
    ensures Scale(plan.win[k], Frame(Stretch(fed, i, plan.h), gains[i], plan)[k]) == Scale(Through(plan.win[k], cs[i]), fed[Start(i, plan.h) + k])
  {
    hide Scale, Frame, Multiplies, LengthPreserving, Through, Stretch;
    FrameSample(fed, gains[i], cs[i], plan, p, i, k);
    Tapped(plan.win[k], cs[i], fed[Start(i, plan.h) + k]);
  }

  lemma BackHalf(fed: Signal, gains: seq<Gain>, cs: seq<real>, plan: Plan, p: nat, i: nat, k: nat)
    requires plan.Valid(p) && |cs| == |gains| && 0 < i < |gains| && k < plan.h && Start(i, plan.h) + plan.N() <= |fed|
    requires Multiplies(gains[i - 1], cs[i - 1]) && LengthPreserving(gains[i - 1])
    ensures |plan.win| == plan.N()
    ensures Scale(plan.win[plan.h + k], Frame(Stretch(fed, i - 1, plan.h), gains[i - 1], plan)[plan.h + k])
         == Scale(Through(plan.win[plan.h + k], cs[i - 1]), fed[Start(i, plan.h) + k])
  {
    hide Scale, Frame, Multiplies, LengthPreserving, Through, Stretch;
    assert Start(i - 1, plan.h) + (plan.h + k) == Start(i, plan.h) + k;
    FrameSample(fed, gains[i - 1], cs[i - 1], plan, p, i - 1, plan.h + k);
    Tapped(plan.win[plan.h + k], cs[i - 1], fed[Start(i, plan.h) + k]);
  }

  /** Every position of the output lies in some hop. */
  lemma {:induction false} InSomeHop(j: nat, n: nat, h: nat) returns (i: nat, k: nat)
    requires j < Start(n, h)
    ensures i < n && k < h && j == Start(i, h) + k
  {
    if j >= Start(n - 1, h) {
      i, k := n - 1, j - Start(n - 1, h);
    } else {
      i, k := InSomeHop(j, n - 1, h);
    }
  }

  /** One and the same strength in every frame: the stream comes out multiplied by it. */
  lemma EvenlyScaledStream(fed: Signal, gains: seq<Gain>, c: real, plan: Plan, p: nat)
    requires plan.Valid(p) && plan.PowerComplementary() && Streams(fed, gains, plan)
    requires forall n | 0 <= n < |gains| :: Multiplies(gains[n], c)
    ensures var out := Output(fed, Silence(plan.h), gains, plan);
            |out| <= |fed| && forall j | plan.h <= j < |out| :: out[j] == Scale(c, fed[j])
  {
    hide Output, Streams, Multiplies, Scale, Add, Plan.Valid, Square, Through;
    var h, out := plan.h, Output(fed, Silence(plan.h), gains, plan);
    var cs := seq(|gains|, _ => c);
    OutputLength(fed, Silence(h), gains, plan);
    forall j | h <= j < |out| ensures out[j] == Scale(c, fed[j]) {
      var i, k := InSomeHop(j, |gains|, h);
      ScaledStream(fed, Silence(h), gains, cs, plan, p, i, k);
      assert i > 0 && cs[i] == cs[i - 1] == c;
      assert Square(plan.win[k]) + Square(plan.win[h + k]) == 1.0;
      Shared(plan.win[k], plan.win[h + k], c);
    }
  }

  lemma Shared(a: real, b: real, c: real)
    requires Square(a) + Square(b) == 1.0
    ensures Through(a, c) + Through(b, c) == c
  {
    assert Square(a) * c + Square(b) * c == (Square(a) + Square(b)) * c;
  }

  /** A muting modifier gives silence, from the first sample on when nothing was carried. */
  lemma MutedStream(fed: Signal, gains: seq<Gain>, plan: Plan, p: nat)
    requires plan.Valid(p) && Streams(fed, gains, plan)
    requires forall n | 0 <= n < |gains| :: Multiplies(gains[n], 0.0)
    ensures var out := Output(fed, Silence(plan.h), gains, plan); forall j | 0 <= j < |out| :: out[j] == ZERO
  {
    hide Output, Streams, Multiplies, Scale, Add, Plan.Valid, Square, Through;
    var h, out := plan.h, Output(fed, Silence(plan.h), gains, plan);
    var cs := seq(|gains|, _ => 0.0);
    OutputLength(fed, Silence(h), gains, plan);
    forall j | 0 <= j < |out| ensures out[j] == ZERO {
      var i, k := InSomeHop(j, |gains|, h);
      ScaledStream(fed, Silence(h), gains, cs, plan, p, i, k);
      Muted(plan.win[k], plan.win[h + k], fed[j]);
    }
  }

  lemma Muted(a: real, b: real, x: Cplx)
    ensures Scale(Through(a, 0.0) + Through(b, 0.0), x) == ZERO == Add(Scale(Through(a, 0.0), x), ZERO)
  {
  }

  /** An engine with a multiplying modifier installed throughout: what has come out of it so far. */
  lemma EngineFollowsGain(e: Engine, c: real)
    requires e.Valid() && e.plan.PowerComplementary()
    requires forall n | 0 <= n < |e.gains| :: Multiplies(e.gains[n], c)
    ensures var out := e.Emitted();
            && |out| == e.plan.h * FrameCount(|e.fed|, e.plan.h) <= |e.fed|
            && (forall j | e.plan.h <= j < |out| :: out[j] == Scale(c, e.fed[j]))
            && (c == 0.0 ==> forall j | 0 <= j < |out| :: out[j] == ZERO)
  {
    hide Output, TailAfter, Scale, Add, Square, FrameCount, Streams, Queued, Multiplies, Plan.Valid;
    OutputLength(e.fed, Silence(e.plan.h), e.gains, e.plan);
    StartIsProduct(|e.gains|, e.plan.h);
    HoldsCounted(e.fed, e.gains, e.plan);
    EvenlyScaledStream(e.fed, e.gains, c, e.plan, e.p);
    if c == 0.0 {
      MutedStream(e.fed, e.gains, e.plan, e.p);
    }
  }

  lemma HoldsCounted(fed: Signal, gains: seq<Gain>, plan: Plan)
    requires Streams(fed, gains, plan) && |Queued(fed, |gains|, plan.h)| < plan.N()
    ensures plan.h > 0 && |gains| == FrameCount(|fed|, plan.h)
  {
    DrainedCount(fed, |gains|, plan.h);
  }
}
