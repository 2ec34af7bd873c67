/** The streaming transform: windowed frames at half overlap, resynthesised by overlap-add. */
module IqStft {
  import opened Basics
  import opened Complex
  import opened Dft
  import opened Fft

  /** The per-frame spectrum modifier, or none. */
  datatype Gain = NoGain | Gain(fn: Signal -> Signal)

  function Square(a: real): real {
    a * a
  }

  /** Hop, window taps and twiddle tables of one engine; frames are two hops long. */
  datatype Plan = Plan(h: nat, win: seq<real>, fwd: nat -> Cplx, inv: nat -> Cplx) {
    function N(): nat { 2 * h }

    ghost predicate Valid(p: nat) {
      p >= 1 && N() == Pow2(p) && |win| == N() && ValidRoots(fwd, inv, p)
    }

    /** sqrt-Hann on both sides: the squared taps one hop apart sum to one. */
    ghost predicate PowerComplementary()
      requires |win| == N()
    {
      forall k | 0 <= k < h :: Square(win[k]) + Square(win[h + k]) == 1.0
    }
  }

  // ---- Interleaved I/Q ----

  function Interleaved(s: Signal): (r: seq<real>)
    ensures |r| == 2 * |s|
  {
    if |s| == 0 then [] else Interleaved(s[..|s| - 1]) + [s[|s| - 1].re, s[|s| - 1].im]
  }

  lemma {:induction false} InterleavedConcat(s: Signal, t: Signal)
    ensures Interleaved(s + t) == Interleaved(s) + Interleaved(t)
  {
    if |t| == 0 {
      assert s + t == s;
    } else {
      var last := |t| - 1;
      assert (s + t)[..|s + t| - 1] == s + t[..last];
      InterleavedConcat(s, t[..last]);
    }
  }

  // ---- One frame ----

  function Windowed(x: Signal, plan: Plan): (r: Signal)
    requires |x| == |plan.win|
    ensures |r| == |x|
  {
    seq(|x|, k requires 0 <= k < |x| => Scale(plan.win[k], x[k]))
  }

  /** The spectrum handed to the modifier for one stretch of input. */
  function Analysed(x: Signal, plan: Plan): (r: Signal)
    requires |x| == |plan.win|
    ensures |r| == |x|
  {
    Spectrum(Windowed(x, plan), plan.fwd)
  }

  ghost predicate LengthPreserving(g: Gain) {
    g.Gain? ==> forall s: Signal :: |g.fn(s)| == |s|
  }

  function Modified(s: Signal, g: Gain): Signal {
    match g
    case NoGain => s
    case Gain(fn) => fn(s)
  }

  /** One stretch of input after window, transform, modifier and inverse transform. */
  ghost function Frame(x: Signal, g: Gain, plan: Plan): (r: Signal)
    requires |x| == |plan.win| && LengthPreserving(g)
    ensures |r| == |x|
  {
    Synthesis(Modified(Analysed(x, plan), g), plan.inv)
  }

  /** The windowed back half of a frame, carried into the next hop. */
  ghost function Carry(x: Signal, g: Gain, plan: Plan): (r: Signal)
    requires |x| == |plan.win| == plan.N() && LengthPreserving(g)
    ensures |r| == plan.h
  {
    var y := Frame(x, g, plan);
    seq(plan.h, k requires 0 <= k < plan.h => Scale(plan.win[plan.h + k], y[plan.h + k]))
  }

  /** The hop a frame emits: its windowed front half on top of what was carried. */
  ghost function Hop(x: Signal, tail: Signal, g: Gain, plan: Plan): (r: Signal)
    requires |x| == |plan.win| == plan.N() && LengthPreserving(g) && |tail| == plan.h
    ensures |r| == plan.h
  {
    var y := Frame(x, g, plan);
    seq(plan.h, k requires 0 <= k < plan.h => Add(Scale(plan.win[k], y[k]), tail[k]))
  }

  // ---- The stream, as a function of everything fed and the modifier of each frame ----

  /** The stream holds enough samples for this many frames. */
  predicate Holds(total: nat, frames: nat, h: nat) {
    frames == 0 || (total >= 2 * h && Holds(total - h, frames - 1, h))
  }

  ghost predicate Streams(fed: Signal, gains: seq<Gain>, plan: Plan) {
    && plan.h > 0 && |plan.win| == plan.N()
    && (forall g | g in gains :: LengthPreserving(g))
    && Holds(|fed|, |gains|, plan.h)
  }

  /** What is still queued after this many frames. */
  function Queued(fed: Signal, frames: nat, h: nat): (r: Signal)
    requires Holds(|fed|, frames, h)
  {
    if frames == 0 then fed else Queued(fed[h..], frames - 1, h)
  }

  ghost function Output(fed: Signal, tail: Signal, gains: seq<Gain>, plan: Plan): (r: Signal)
    requires Streams(fed, gains, plan) && |tail| == plan.h
    decreases |gains|
  {
    if gains == [] then []
    else
      var x := fed[..plan.N()];
      Hop(x, tail, gains[0], plan) + Output(fed[plan.h..], Carry(x, gains[0], plan), gains[1..], plan)
  }

  ghost function TailAfter(fed: Signal, tail: Signal, gains: seq<Gain>, plan: Plan): (r: Signal)
    requires Streams(fed, gains, plan) && |tail| == plan.h
    ensures |r| == plan.h
    decreases |gains|
  {
    if gains == [] then tail
    else TailAfter(fed[plan.h..], Carry(fed[..plan.N()], gains[0], plan), gains[1..], plan)
  }

  function Silence(h: nat): (r: Signal)
    ensures |r| == h
  {
    seq(h, k => ZERO)
  }

  lemma {:induction false} HoldsMore(total: nat, more: nat, frames: nat, h: nat)
    requires Holds(total, frames, h)
    ensures Holds(total + more, frames, h)
  {
    if frames > 0 {
      HoldsMore(total - h, more, frames - 1, h);
    }
  }

  /** Samples fed later change neither what was emitted nor the carry; they only queue up. */
  lemma {:induction false} Stable(fed: Signal, more: Signal, tail: Signal, gains: seq<Gain>, plan: Plan)
    requires Streams(fed, gains, plan) && |tail| == plan.h
    ensures Streams(fed + more, gains, plan)
    ensures Output(fed + more, tail, gains, plan) == Output(fed, tail, gains, plan)
    ensures TailAfter(fed + more, tail, gains, plan) == TailAfter(fed, tail, gains, plan)
    ensures Queued(fed + more, |gains|, plan.h) == Queued(fed, |gains|, plan.h) + more
    decreases |gains|
  {
    HoldsMore(|fed|, |more|, |gains|, plan.h);
    if gains != [] {
      hide Hop, Carry, LengthPreserving;
      var x := fed[..plan.N()];
      assert (fed + more)[..plan.N()] == x && (fed + more)[plan.h..] == fed[plan.h..] + more;
      Stable(fed[plan.h..], more, Carry(x, gains[0], plan), gains[1..], plan);
    }
  }

  /** One more frame at the end: it works on the queue and the carry left by the others. */
  lemma {:induction false} OneMoreFrame(fed: Signal, tail: Signal, gains: seq<Gain>, g: Gain, plan: Plan)
    requires Streams(fed, gains, plan) && |tail| == plan.h && LengthPreserving(g)
    requires |Queued(fed, |gains|, plan.h)| >= plan.N()
    ensures Streams(fed, gains + [g], plan)
    ensures var q, t := Queued(fed, |gains|, plan.h), TailAfter(fed, tail, gains, plan);
            && Output(fed, tail, gains + [g], plan) == Output(fed, tail, gains, plan) + Hop(q[..plan.N()], t, g, plan)
            && TailAfter(fed, tail, gains + [g], plan) == Carry(q[..plan.N()], g, plan)
            && Queued(fed, |gains| + 1, plan.h) == q[plan.h..]
    decreases |gains|
  {
    hide Hop, Carry, LengthPreserving;
    if gains == [] {
      assert ([] + [g])[1..] == [] && Holds(|fed| - plan.h, 0, plan.h);
    } else {
      var x := fed[..plan.N()];
      assert (gains + [g])[1..] == gains[1..] + [g];
      OneMoreFrame(fed[plan.h..], Carry(x, gains[0], plan), gains[1..], g, plan);
    }
  }

  /** The spectra handed out for the first frames of a stream. */
  function Spectra(fed: Signal, frames: nat, plan: Plan): (r: seq<Signal>)
    requires |plan.win| == plan.N() && Holds(|fed|, frames, plan.h)
    ensures |r| == frames
    decreases frames
  {
    if frames == 0 then [] else [Analysed(fed[..plan.N()], plan)] + Spectra(fed[plan.h..], frames - 1, plan)
  }

  lemma {:induction false} SpectraStable(fed: Signal, more: Signal, frames: nat, plan: Plan)
    requires |plan.win| == plan.N() && Holds(|fed|, frames, plan.h)
    ensures Holds(|fed + more|, frames, plan.h)
    ensures Spectra(fed + more, frames, plan) == Spectra(fed, frames, plan)
    decreases frames
  {
    HoldsMore(|fed|, |more|, frames, plan.h);
    if frames > 0 {
      hide Analysed;
      assert (fed + more)[..plan.N()] == fed[..plan.N()] && (fed + more)[plan.h..] == fed[plan.h..] + more;
      SpectraStable(fed[plan.h..], more, frames - 1, plan);
    }
  }

  lemma {:induction false} OneMoreSpectrum(fed: Signal, frames: nat, plan: Plan)
    requires |plan.win| == plan.N() && Holds(|fed|, frames, plan.h)
    requires |Queued(fed, frames, plan.h)| >= plan.N()
    ensures Holds(|fed|, frames + 1, plan.h)
    ensures Spectra(fed, frames + 1, plan)
         == Spectra(fed, frames, plan) + [Analysed(Queued(fed, frames, plan.h)[..plan.N()], plan)]
    decreases frames
  {
    hide Analysed;
    if frames == 0 {
      assert Holds(|fed| - plan.h, 0, plan.h);
    } else {
      OneMoreSpectrum(fed[plan.h..], frames - 1, plan);
    }
  }

  // ---- Perfect reconstruction ----

  /** With no modifier a frame is just the windowed input. */
  lemma IdentityFrame(x: Signal, plan: Plan, p: nat)
    requires plan.Valid(p) && |x| == plan.N()
    ensures Frame(x, NoGain, plan) == Windowed(x, plan)
  {
    RoundTrip(Windowed(x, plan), plan.fwd, plan.inv, p);
  }

  /** The squared taps of overlapping frames sum to one. */
  lemma OverlapSum(a: real, b: real, x: Cplx)
    requires Square(a) + Square(b) == 1.0
    ensures Add(Scale(a, Scale(a, x)), Scale(b, Scale(b, x))) == x
  {
    ScaleScale(a, a, x);
    ScaleScale(b, b, x);
    assert (a * a) * x.re + (b * b) * x.re == x.re;
    assert (a * a) * x.im + (b * b) * x.im == x.im;
  }

  predicate Unmodified(gains: seq<Gain>) {
    forall i | 0 <= i < |gains| :: gains[i].NoGain?
  }

  /** What the unmodified engine emits at each position: the input, once the first hop is past. */
  function Expected(x: Signal, tail: Signal, plan: Plan, j: nat): Cplx
    requires j < |x| && |tail| == plan.h && |plan.win| == plan.N()
  {
    if j < plan.h then Add(Scale(plan.win[j], Scale(plan.win[j], x[j])), tail[j]) else x[j]
  }

  lemma IdentityHop(x: Signal, tail: Signal, plan: Plan, p: nat, k: nat)
    requires plan.Valid(p) && |x| == plan.N() && |tail| == plan.h && k < plan.h
    ensures Hop(x, tail, NoGain, plan)[k] == Add(Scale(plan.win[k], Scale(plan.win[k], x[k])), tail[k])
    ensures var t := plan.win[plan.h + k];
            Carry(x, NoGain, plan)[k] == Scale(t, Scale(t, x[plan.h + k]))
  {
    hide Scale, Add, Frame;
    IdentityFrame(x, plan, p);
  }

  /** Past the first hop, what the rest of the stream is expected to emit is the input too. */
  lemma ExpectedLater(fed: Signal, tail: Signal, plan: Plan, p: nat, j: nat)
    requires plan.Valid(p) && plan.PowerComplementary() && |tail| == plan.h
    requires plan.h <= j < |fed| && |fed| >= plan.N()
    ensures Expected(fed[plan.h..], Carry(fed[..plan.N()], NoGain, plan), plan, j - plan.h) == fed[j]
  {
    assert |plan.win| == plan.N();
    hide Scale, Add, Carry, Plan.Valid, Square;
    if j < plan.N() {
      IdentityHop(fed[..plan.N()], tail, plan, p, j - plan.h);
      OverlapSum(plan.win[j - plan.h], plan.win[j], fed[j]);
    }
  }

  lemma {:induction false} PerfectReconstruction(fed: Signal, tail: Signal, gains: seq<Gain>, plan: Plan, p: nat)
    requires plan.Valid(p) && plan.PowerComplementary()
    requires Streams(fed, gains, plan) && |tail| == plan.h
    requires Unmodified(gains)
    ensures |Output(fed, tail, gains, plan)| + |Queued(fed, |gains|, plan.h)| == |fed|
    ensures forall j | 0 <= j < |Output(fed, tail, gains, plan)| ::
              Output(fed, tail, gains, plan)[j] == Expected(fed, tail, plan, j)
    decreases |gains|
  {
    if gains != [] {
      assert gains[0] == NoGain && LengthPreserving(NoGain);
      hide Scale, Add, Hop, Carry, LengthPreserving, Plan.Valid, Square;
      var h, x, rest := plan.h, fed[..plan.N()], fed[plan.h..];
      var hop, carry := Hop(x, tail, NoGain, plan), Carry(x, NoGain, plan);
      PerfectReconstruction(rest, carry, gains[1..], plan, p);
      var later := Output(rest, carry, gains[1..], plan);
      assert Output(fed, tail, gains, plan) == hop + later;
      forall j | 0 <= j < |hop + later|
        ensures (hop + later)[j] == Expected(fed, tail, plan, j)
      {
        if j < h {
          IdentityHop(x, tail, plan, p, j);
        } else {
          assert (hop + later)[j] == later[j - h];
          ExpectedLater(fed, tail, plan, p, j);
        }
      }
    }
  }

  /** The number of frames in a stream that has been drained, in closed form. */
  function FrameCount(total: nat, h: nat): nat
    requires h > 0
  {
    if total < 2 * h then 0 else (total - 2 * h) / h + 1
  }

  lemma {:induction false} DrainedCount(fed: Signal, frames: nat, h: nat)
    requires h > 0 && Holds(|fed|, frames, h) && |Queued(fed, frames, h)| < 2 * h
    ensures frames == FrameCount(|fed|, h)
    ensures |Queued(fed, frames, h)| == |fed| - h * frames
    decreases frames
  {
    if frames > 0 {
      DrainedCount(fed[h..], frames - 1, h);
      assert h * frames == h * (frames - 1) + h;
      if |fed| >= 3 * h {
        assert (|fed| - 2 * h) / h == (|fed| - 3 * h) / h + 1 by {
          DivStep(|fed| - 3 * h, h);
        }
      } else {
        DivSmall(|fed| - 2 * h, h);
      }
    }
  }

  lemma DivStep(a: nat, h: nat)
    requires h > 0
    ensures (a + h) / h == a / h + 1
  {
    var q := a / h;
    assert a == q * h + a % h && (q + 1) * h == q * h + h;
    DivUnique(a + h, h, q + 1);
  }

  lemma DivSmall(a: nat, h: nat)
    requires a < h
    ensures a / h == 0
  {
  }

  lemma DivUnique(a: nat, h: nat, q: nat)
    requires h > 0 && q * h <= a < (q + 1) * h
    ensures a / h == q
  {
    var r := a / h;
    assert r * h <= a < (r + 1) * h;
    if r < q {
      MulMonotone(r + 1, q, h);
    } else if r > q {
      MulMonotone(q + 1, r, h);
    }
  }

  lemma MulMonotone(a: nat, b: nat, h: nat)
    requires a <= b
    ensures a * h <= b * h
  {
  }

  /**
   * The identity property of the engine: however the stream arrived, sample j comes out as sample j,
   * except for the first hop, which is still being faded in by the squared window.
   */
  lemma UnmodifiedStream(fed: Signal, gains: seq<Gain>, plan: Plan, p: nat)
    requires plan.Valid(p) && plan.PowerComplementary()
    requires Streams(fed, gains, plan) && Unmodified(gains)
    requires |Queued(fed, |gains|, plan.h)| < plan.N()
    ensures var out := Output(fed, Silence(plan.h), gains, plan);
            && |out| == plan.h * FrameCount(|fed|, plan.h) <= |fed|
            && (forall j | plan.h <= j < |out| :: out[j] == fed[j])
            && (forall j | 0 <= j < plan.h && j < |out| :: out[j] == Scale(Square(plan.win[j]), fed[j]))
  {
    hide Scale, Add, Square, Output, Queued, FrameCount, LengthPreserving;
    var h := plan.h;
    var out := Output(fed, Silence(h), gains, plan);
    PerfectReconstruction(fed, Silence(h), gains, plan, p);
    DrainedCount(fed, |gains|, h);
    forall j | 0 <= j < h && j < |out|
      ensures out[j] == Scale(Square(plan.win[j]), fed[j])
    {
      FirstHop(plan.win[j], fed[j]);
    }
  }

  lemma FirstHop(a: real, x: Cplx)
    ensures Add(Scale(a, Scale(a, x)), ZERO) == Scale(Square(a), x)
  {
    ScaleScale(a, a, x);
  }

  /**
   * The constructor's window, the root of a periodic Hann window: its taps square to (1 - c) / 2 for
   * the samples c of one period of a cosine, and half a period on a cosine changes its sign. That is
   * all the law of the squared taps takes.
   */
  lemma HannIsPowerComplementary(plan: Plan, cosine: seq<real>)
    requires |plan.win| == plan.N() == |cosine|
    requires forall k | 0 <= k < plan.h :: cosine[plan.h + k] == -cosine[k]
    requires forall k | 0 <= k < plan.N() :: Square(plan.win[k]) == 0.5 - 0.5 * cosine[k]
    ensures plan.PowerComplementary()
  {
    hide Square;
    forall k | 0 <= k < plan.h ensures Square(plan.win[k]) + Square(plan.win[plan.h + k]) == 1.0 {
      assert cosine[plan.h + k] == -cosine[k];
    }
  }

  /** An engine that never had a modifier, however it was fed: what has come out of it so far. */
  lemma EngineIsIdentity(e: Engine)
    requires e.Valid() && e.plan.PowerComplementary() && Unmodified(e.gains)
    ensures var out, h := e.Emitted(), e.plan.h;
            && |out| == h * FrameCount(|e.fed|, h) <= |e.fed|
            && |out| + |e.inQ| == |e.fed|
            && (forall j | h <= j < |out| :: out[j] == e.fed[j])
            && (forall j | 0 <= j < h && j < |out| :: out[j] == Scale(Square(e.plan.win[j]), e.fed[j]))
  {
    hide Output, TailAfter, Scale, Square, FrameCount, Streams, Unmodified, Queued;
    UnmodifiedStream(e.fed, e.gains, e.plan, e.p);
    PerfectReconstruction(e.fed, Silence(e.plan.h), e.gains, e.plan, e.p);
  }

  // ---- The engine ----

  class Engine {
    const plan: Plan
    ghost const p: nat
    const frame: array<Cplx>
    const tail: array<Cplx>
    var inQ: Signal
    var gain: Gain
    ghost var fed: Signal          // everything fed since the last reset
    ghost var gains: seq<Gain>     // the modifier each finished frame went through

    /** The buffers are what the stream so far makes them. */
    ghost predicate Consistent()
      reads this, frame, tail
    {
      && plan.Valid(p) && frame != tail && frame.Length == plan.N() && tail.Length == plan.h
      && LengthPreserving(gain) && Streams(fed, gains, plan)
      && inQ == Queued(fed, |gains|, plan.h)
      && tail[..] == TailAfter(fed, Silence(plan.h), gains, plan)
    }

    /** Between calls less than a frame is waiting. */
    ghost predicate Valid()
      reads this, frame, tail
    {
      Consistent() && |inQ| < plan.N()
    }

    /** Everything emitted since the last reset. */
    ghost function Emitted(): Signal
      requires Streams(fed, gains, plan)
      reads this
    {
      Output(fed, Silence(plan.h), gains, plan)
    }

    /** Every spectrum handed out since the last reset. */
    ghost function Seen(): seq<Signal>
      requires Streams(fed, gains, plan)
      reads this
    {
      Spectra(fed, |gains|, plan)
    }

    constructor (plan: Plan, ghost p: nat)
      requires plan.Valid(p)
      ensures Valid() && fresh(frame) && fresh(tail)
      ensures this.plan == plan && this.p == p && fed == [] && gains == [] && gain == NoGain
    {
      this.plan := plan;
      this.p := p;
      frame := new Cplx[plan.N()](_ => ZERO);
      tail := new Cplx[plan.h](_ => ZERO);
      inQ, gain := [], NoGain;
      fed, gains := [], [];
      new;
      assert plan.h > 0 by {
        assert Pow2(p) == plan.N();
      }
      assert tail[..] == Silence(plan.h);
    }

    method SetGain(g: Gain)
      requires Valid() && LengthPreserving(g)
      modifies this`gain
      ensures Valid() && gain == g
    {
      gain := g;
    }

    method Reset()
      requires Valid()
      modifies this`inQ, this`fed, this`gains, tail
      ensures Valid() && fed == [] && gains == [] && inQ == []
    {
      inQ := [];
      for k := 0 to tail.Length
        invariant forall n | 0 <= n < k :: tail[n] == ZERO
        modifies tail
      {
        tail[k] := ZERO;
      }
      fed, gains := [], [];
      assert tail[..] == Silence(plan.h);
    }

    /** Windows the head of the queue into the frame buffer. */
    method WindowFrame()
      requires |inQ| >= frame.Length == |plan.win|
      modifies frame
      ensures frame[..] == Windowed(inQ[..frame.Length], plan)
    {
      hide Scale;
      for k := 0 to frame.Length
        invariant forall n | 0 <= n < k :: frame[n] == Scale(plan.win[n], inQ[n])
      {
        frame[k] := Scale(plan.win[k], inQ[k]);
      }
    }

    method Store(s: Signal)
      requires |s| == frame.Length
      modifies frame
      ensures frame[..] == s
    {
      for k := 0 to frame.Length
        invariant forall n | 0 <= n < k :: frame[n] == s[n]
      {
        frame[k] := s[k];
      }
    }

    /** Emits the windowed front half on top of the carry, then carries the back half. */
    method OverlapAdd() returns (hop: Signal)
      requires frame != tail && frame.Length == |plan.win| == plan.N() && tail.Length == plan.h
      modifies tail
      ensures hop == seq(plan.h, k requires 0 <= k < plan.h =>
                         Add(Scale(plan.win[k], old(frame[..])[k]), old(tail[..])[k]))
      ensures tail[..] == seq(plan.h, k requires 0 <= k < plan.h =>
                              Scale(plan.win[plan.h + k], old(frame[..])[plan.h + k]))
    {
      hide Scale, Add;
      hop := [];
      for k := 0 to plan.h
        invariant |hop| == k
        invariant forall n | 0 <= n < k :: hop[n] == Add(Scale(plan.win[n], frame[n]), tail[n])
        invariant tail[..] == old(tail[..])
      {
        hop := hop + [Add(Scale(plan.win[k], frame[k]), tail[k])];
      }
      for k := 0 to plan.h
        invariant forall n | 0 <= n < k :: tail[n] == Scale(plan.win[plan.h + n], frame[plan.h + n])
        invariant frame[..] == old(frame[..])
      {
        tail[k] := Scale(plan.win[plan.h + k], frame[plan.h + k]);
      }
    }

    /** One turn of the frame loop: a hop of input is consumed and a hop of output emitted. */
    method ProcessFrame() returns (hop: Signal, spectrum: Signal)
      requires Consistent() && |inQ| >= plan.N()
      modifies this`inQ, this`gains, frame, tail
      ensures Consistent() && fed == old(fed) && gains == old(gains) + [gain]
      ensures |inQ| == |old(inQ)| - plan.h
      ensures Emitted() == old(Emitted()) + hop
      ensures spectrum == Analysed(old(inQ)[..plan.N()], plan)
      ensures Seen() == old(Seen()) + [spectrum]
    {
      hide Scale, Add, Spectrum, Synthesis, Windowed;
      ghost var x := inQ[..plan.N()];
      WindowFrame();
      Fft.Fft(frame, false, plan.fwd, plan.inv, p);
      spectrum := frame[..];
      if gain.Gain? {
        Store(gain.fn(spectrum));
      }
      Fft.Fft(frame, true, plan.fwd, plan.inv, p);
      assert frame[..] == Frame(x, gain, plan);
      hop := OverlapAdd();
      OneMoreFrame(fed, Silence(plan.h), gains, gain, plan);
      OneMoreSpectrum(fed, |gains|, plan);
      inQ := inQ[plan.h..];
      gains := gains + [gain];
    }

    /** Reads interleaved I/Q pairs into the queue. */
    method Enqueue(iq: seq<real>, nframes: int)
      requires Valid() && 2 * nframes <= |iq|
      modifies this`inQ, this`fed
      ensures Consistent() && fed == old(fed) + Samples(iq, nframes)
      ensures Emitted() == old(Emitted())
      ensures Seen() == old(Seen())
    {
      hide Spectra, Output, TailAfter, Plan.Valid, LengthPreserving, Holds, Queued;
      ghost var q := inQ;
      for i := 0 to if nframes < 0 then 0 else nframes
        invariant inQ == q + Samples(iq, i)
        modifies this`inQ
      {
        inQ := inQ + [Cplx(iq[2 * i], iq[2 * i + 1])];
      }
      ghost var more := Samples(iq, nframes);
      assert inQ == q + more;
      Stable(fed, more, Silence(plan.h), gains, plan);
      SpectraStable(fed, more, |gains|, plan);
      fed := fed + more;
    }

    /**
     * Streams samples in and appends what completes to the output. The spectra handed to the
     * per-frame hook are returned in order.
     */
    method Process(iq: seq<real>, nframes: int) returns (out: seq<real>, spectra: seq<Signal>)
      requires Valid() && 2 * nframes <= |iq|
      modifies this`inQ, this`fed, this`gains, frame, tail
      ensures Valid() && fed == old(fed) + Samples(iq, nframes)
      ensures gains == old(gains) + Repeat(gain, |spectra|)
      ensures Interleaved(Emitted()) == old(Interleaved(Emitted())) + out
      ensures Seen() == old(Seen()) + spectra
    {
      hide Interleaved, Spectra, Output, TailAfter, Analysed;
      Enqueue(iq, nframes);
      out, spectra := [], [];
      ghost var before := Emitted();
      while |inQ| >= plan.N()
        invariant Consistent() && fed == old(fed) + Samples(iq, nframes)
        invariant gains == old(gains) + Repeat(gain, |spectra|)
        invariant Interleaved(Emitted()) == Interleaved(before) + out
        invariant Seen() == old(Seen()) + spectra
        decreases |inQ|
      {
        var hop, spectrum := ProcessFrame();
        InterleavedConcat(Emitted()[..|Emitted()| - |hop|], hop);
        var pairs := Interleave(hop);
        out := out + pairs;
        spectra := spectra + [spectrum];
      }
    }
  }

  function Repeat(g: Gain, n: nat): seq<Gain> {
    if n == 0 then [] else Repeat(g, n - 1) + [g]
  }

  /** The complex samples of an interleaved buffer. */
  function Samples(iq: seq<real>, nframes: int): (r: Signal)
    requires 2 * nframes <= |iq|
  {
    if nframes <= 0 then [] else Samples(iq, nframes - 1) + [Cplx(iq[2 * nframes - 2], iq[2 * nframes - 1])]
  }

  method Interleave(s: Signal) returns (out: seq<real>)
    ensures out == Interleaved(s)
  {
    out := [];
    for k := 0 to |s|
      invariant out == Interleaved(s[..k])
    {
      assert s[..k + 1][..k] == s[..k];
      out := out + [s[k].re, s[k].im];
    }
    assert s[..|s|] == s;
  }
}
