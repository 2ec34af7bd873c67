/** Click-tune: the receiver's hardware centre stays put while the demodulator moves inside the captured span. */
module Ctune {

  const WORD := 0x1_0000_0000

  /** A store into an unsigned 32-bit field. */
  function U32(x: int): (r: int)
    ensures 0 <= r < WORD
  {
    x % WORD
  }

  /** A conversion to a signed 32-bit argument. */
  function I32(x: int): int {
    (x + 0x8000_0000) % WORD - 0x8000_0000
  }

  /** What is on screen: captured span, displayed span (nought before the first one) and filter edges. */
  datatype View = View(rate: real, span: real, filtLo: int, filtHi: int)

  const JUMP: real := 500000.0

  function Span(v: View): real {
    if v.span <= 0.0 then v.rate else v.span
  }

  /** The passband's reach below and above the demodulated frequency. */
  function LowMargin(v: View): real {
    if v.filtLo < 0 then -(v.filtLo as real) else 0.0
  }

  function HighMargin(v: View): real {
    if v.filtHi > 0 then v.filtHi as real else 0.0
  }

  predicate CanFit(v: View) {
    (v.filtHi - v.filtLo) as real < Span(v) * (1.0 - 2.0 * 0.05)
  }

  /** The display edges less the margin, as positions relative to the centre. */
  function LowEdge(v: View): real {
    -(Span(v) / 2.0) + Span(v) * 0.05
  }

  function HighEdge(v: View): real {
    Span(v) / 2.0 - Span(v) * 0.05
  }

  /** The passband lies in the captured span. */
  predicate Captured(p: real, v: View) {
    var usable := v.rate * 0.92 / 2.0;
    !(p < -usable + LowMargin(v) || p > usable - HighMargin(v))
  }

  /** The centre after scrolling or jumping at the display edges. */
  function Scrolled(cen: int, eff: int, v: View): int {
    var p := (eff - cen) as real;
    var lo, hi := p - LowMargin(v), p + HighMargin(v);
    if lo < LowEdge(v) - JUMP || hi > HighEdge(v) + JUMP then eff
    else if lo < LowEdge(v) then cen - (LowEdge(v) - lo).Floor
    else if hi > HighEdge(v) then cen + (hi - HighEdge(v)).Floor
    else cen
  }

  /** Where the centre belongs for a dial at eff. */
  function Centre(cen: int, eff: int, v: View): int {
    if !CanFit(v) then eff
    else
      var s := Scrolled(cen, eff, v);
      if Captured((eff - s) as real, v) then s else eff
  }

  /** The stored centre: clamped at nought, then cut to its 32-bit field. Nought means click-tune is off. */
  function Stored(cen: int): int {
    U32(if cen < 0 then 0 else cen)
  }

  // ---- Where the passband ends up ----

  /** Each side of the passband fits its half of the view, to less than one hertz. */
  ghost predicate Modest(v: View) {
    LowMargin(v) < Span(v) * 0.45 + 1.0 && HighMargin(v) < Span(v) * 0.45 + 1.0
  }

  /** Inside the display margins, to less than one hertz. */
  ghost predicate InView(p: real, v: View) {
    p - LowMargin(v) > LowEdge(v) - 1.0 && p + HighMargin(v) < HighEdge(v) + 1.0
  }

  /** The demodulator sits at the centre, or with its whole passband in the captured span. */
  lemma CentredOrCaptured(cen: int, eff: int, v: View)
    ensures var p := (eff - Centre(cen, eff, v)) as real; p == 0.0 || Captured(p, v)
  {
    hide Scrolled, CanFit, Captured;
  }

  lemma {:induction false} ScrollsIntoView(cen: int, eff: int, v: View)
    requires CanFit(v) && Modest(v)
    ensures InView((eff - Scrolled(cen, eff, v)) as real, v)
  {
    var p := (eff - cen) as real;
    var lo, hi := p - LowMargin(v), p + HighMargin(v);
    var s := Scrolled(cen, eff, v);
    if lo < LowEdge(v) - JUMP || hi > HighEdge(v) + JUMP {
    } else if lo < LowEdge(v) {
      assert (eff - s) as real == p + (LowEdge(v) - lo).Floor as real;
    } else if hi > HighEdge(v) {
      assert (eff - s) as real == p - (hi - HighEdge(v)).Floor as real;
    }
  }

  /** In the fits-in-view case the passband ends inside the display margins. */
  lemma LandsInView(cen: int, eff: int, v: View)
    requires CanFit(v) && Modest(v)
    ensures InView((eff - Centre(cen, eff, v)) as real, v)
  {
    ScrollsIntoView(cen, eff, v);
    hide Scrolled, CanFit, Captured;
  }

  /** For a view the passband fits: it always ends in view exactly when the filter is a modest one. */
  lemma AlwaysInViewIff(v: View)
    requires CanFit(v)
    ensures (forall cen, eff :: InView((eff - Centre(cen, eff, v)) as real, v)) <==> Modest(v)
  {
    if Modest(v) {
      forall cen, eff ensures InView((eff - Centre(cen, eff, v)) as real, v) {
        LandsInView(cen, eff, v);
      }
    } else {
      var far := -((HighEdge(v) + JUMP).Floor + 1);
      assert Scrolled(far, 0, v) == 0;
      assert !InView((0 - Centre(far, 0, v)) as real, v);
    }
  }

  /** The centre is left alone exactly when the passband is in view already, and centred or captured. */
  lemma StaysIff(cen: int, eff: int, v: View)
    requires CanFit(v) && Modest(v)
    ensures var p := (eff - cen) as real;
            Centre(cen, eff, v) == cen <==> InView(p, v) && (p == 0.0 || Captured(p, v))
  {
    var p := (eff - cen) as real;
    LandsInView(cen, eff, v);
    CentredOrCaptured(cen, eff, v);
    if InView(p, v) {
      var lo, hi := p - LowMargin(v), p + HighMargin(v);
      if lo < LowEdge(v) {
        assert (LowEdge(v) - lo).Floor == 0;
      } else if hi > HighEdge(v) {
        assert (hi - HighEdge(v)).Floor == 0;
      }
      assert Scrolled(cen, eff, v) == cen;
    }
  }

  // ---- The same in hertz ----

  /** What is on screen: the displayed span, or the captured one before the first display. */
  function Shown(v: View): real {
    if v.span > 0.0 then v.span else v.rate
  }

  /** The passband, as it lies around the centre, stays within 46 percent of the captured span. */
  predicate Within46(p: real, v: View) {
    && (if v.filtLo < 0 then p + v.filtLo as real >= -0.46 * v.rate else p >= -0.46 * v.rate)
    && (if v.filtHi > 0 then p + v.filtHi as real <= 0.46 * v.rate else p <= 0.46 * v.rate)
  }

  /** After every evaluation the demodulator is at the centre or has its passband in that part of the captured span. */
  lemma CentredOrWithin46(cen: int, eff: int, v: View)
    ensures var p := (eff - Centre(cen, eff, v)) as real; p == 0.0 || Within46(p, v)
  {
    CentredOrCaptured(cen, eff, v);
    hide Centre;
  }

  /** How far the centre must move to bring a passband beyond the margin back to it, to under one hertz and not beyond it. */
  function LeastScroll(lo: real, hi: real, edge: real): (moved: int)
    ensures lo < -edge ==> moved <= 0 && -edge - 1.0 < lo - moved as real <= -edge
    ensures lo >= -edge && hi > edge ==> moved >= 0 && edge <= hi - moved as real < edge + 1.0
    ensures lo >= -edge && hi <= edge ==> moved == 0
  {
    if lo < -edge then -((-edge - lo).Floor) else if hi > edge then (hi - edge).Floor else 0
  }

  /**
   * The decision in hertz. A passband of nine tenths of the screen or more is centred. One that lies
   * more than 500 kHz beyond the margin, a twentieth of the screen, is centred. Any other is moved by
   * the least there is, unless that would leave it outside the captured part: then it is centred.
   */
  lemma DecidesInHertz(cen: int, eff: int, v: View)
    ensures var p, c := (eff - cen) as real, Centre(cen, eff, v);
            var edge, lo, hi := 0.45 * Shown(v), p + (if v.filtLo < 0 then v.filtLo as real else 0.0), p + (if v.filtHi > 0 then v.filtHi as real else 0.0);
            && ((v.filtHi - v.filtLo) as real >= 0.9 * Shown(v) ==> c == eff)
            && (lo < -edge - 500000.0 || hi > edge + 500000.0 ==> c == eff)
            && ((v.filtHi - v.filtLo) as real < 0.9 * Shown(v) && lo >= -edge - 500000.0 && hi <= edge + 500000.0 ==>
                  var moved := LeastScroll(lo, hi, edge);
                  c == if Within46(p - moved as real, v) then cen + moved else eff)
  {
    EdgesInHertz(v);
    var p := (eff - cen) as real;
    CaptureInHertz((eff - Scrolled(cen, eff, v)) as real, v);
    CaptureInHertz(0.0, v);
    hide Captured, Within46, CanFit, LowEdge, HighEdge, Shown;
  }

  lemma EdgesInHertz(v: View)
    ensures LowEdge(v) == -(0.45 * Shown(v)) && HighEdge(v) == 0.45 * Shown(v)
    ensures CanFit(v) <==> (v.filtHi - v.filtLo) as real < 0.9 * Shown(v)
  {
  }

  lemma CaptureInHertz(p: real, v: View)
    ensures Captured(p, v) <==> Within46(p, v)
  {
  }

  // ---- A second evaluation ----

  /** The same decision on positions, which is all it depends on. */
  function Placed(p: int, v: View): int {
    var lo, hi := p as real - LowMargin(v), p as real + HighMargin(v);
    if lo < LowEdge(v) - JUMP || hi > HighEdge(v) + JUMP then 0
    else if lo < LowEdge(v) then p + (LowEdge(v) - lo).Floor
    else if hi > HighEdge(v) then p - (hi - HighEdge(v)).Floor
    else p
  }

  function Moved(p: int, v: View): int {
    if CanFit(v) && Captured(Placed(p, v) as real, v) then Placed(p, v) else 0
  }

  lemma CentreIsMove(cen: int, eff: int, v: View)
    ensures eff - Centre(cen, eff, v) == Moved(eff - cen, v)
  {
    hide CanFit, Captured;
  }

  /** One more evaluation leaves alone what one evaluation made of a position. */
  predicate Steady(p: int, v: View) {
    Moved(Moved(p, v), v) == Moved(p, v)
  }

  /** A second evaluation with the same dial and view never moves anything. */
  ghost predicate Settles(v: View) {
    forall cen, eff :: Centre(Centre(cen, eff, v), eff, v) == Centre(cen, eff, v)
  }

  lemma SettlesIsSteady(v: View)
    ensures Settles(v) <==> forall p: int :: Steady(p, v)
  {
    hide Centre, Moved;
    forall cen, eff ensures Centre(Centre(cen, eff, v), eff, v) == Centre(cen, eff, v) <==> Steady(eff - cen, v) {
      CentreIsMove(cen, eff, v);
      CentreIsMove(Centre(cen, eff, v), eff, v);
    }
    if Settles(v) {
      forall p: int ensures Steady(p, v) {
        assert Centre(Centre(-p, 0, v), 0, v) == Centre(-p, 0, v);
        assert 0 - (-p) == p;
      }
    }
  }

  function LowReach(v: View): int {
    if v.filtLo < 0 then -v.filtLo else 0
  }

  function HighReach(v: View): int {
    if v.filtHi > 0 then v.filtHi else 0
  }

  /** Where a scroll at the low edge stops, and at the high edge, from wherever it starts. */
  function LowRest(v: View): int {
    LowEdge(v).Floor + LowReach(v)
  }

  function HighRest(v: View): int {
    -LowEdge(v).Floor - HighReach(v)
  }

  /** The position next to the stop that scrolls there if any position does. */
  function LowProbe(v: View): int {
    var near, far := LowRest(v) - 1, (HighEdge(v) + JUMP).Floor - HighReach(v);
    if near < far then near else far
  }

  function HighProbe(v: View): int {
    var near, far := HighRest(v) + 1, LowReach(v) - HighEdge(v).Floor;
    if near > far then near else far
  }

  lemma FloorShift(x: real, k: int)
    ensures (x - k as real).Floor == x.Floor - k
  {
  }

  lemma Edges(v: View)
    ensures HighEdge(v) == -LowEdge(v)
    ensures LowMargin(v) == LowReach(v) as real && HighMargin(v) == HighReach(v) as real
    ensures LowReach(v) >= 0 && HighReach(v) >= 0
  {
  }

  predicate Far(p: int, v: View) {
    p as real - LowMargin(v) < LowEdge(v) - JUMP || p as real + HighMargin(v) > HighEdge(v) + JUMP
  }

  predicate ScrollsLow(p: int, v: View) {
    !Far(p, v) && p as real - LowMargin(v) < LowEdge(v)
  }

  predicate ScrollsHigh(p: int, v: View) {
    !Far(p, v) && p as real - LowMargin(v) >= LowEdge(v) && p as real + HighMargin(v) > HighEdge(v)
  }

  /** A scroll always ends at the stop of its side. */
  lemma PlacedAt(p: int, v: View)
    ensures Placed(p, v) == if Far(p, v) then 0 else if ScrollsLow(p, v) then LowRest(v) else if ScrollsHigh(p, v) then HighRest(v) else p
  {
    Edges(v);
    FloorShift(LowEdge(v), p - LowReach(v));
    FloorShift(LowEdge(v), -p - HighReach(v));
    hide LowEdge, HighEdge, LowMargin, HighMargin, LowReach, HighReach;
    assert LowEdge(v) - (p as real - LowMargin(v)) == LowEdge(v) - (p - LowReach(v)) as real;
    assert p as real + HighMargin(v) - HighEdge(v) == LowEdge(v) - (-p - HighReach(v)) as real;
  }

  lemma AtMostFloor(k: int, x: real)
    requires k as real <= x
    ensures k <= x.Floor
  {
  }

  lemma LowProbeReaches(p: int, v: View)
    requires ScrollsLow(p, v)
    ensures ScrollsLow(LowProbe(v), v)
  {
    Edges(v);
    hide LowEdge, HighEdge, LowMargin, HighMargin, LowReach, HighReach;
    AtMostFloor(p + HighReach(v), HighEdge(v) + JUMP);
    var far := (HighEdge(v) + JUMP).Floor - HighReach(v);
    assert p <= far;
    if LowProbe(v) == far {
      assert far as real >= p as real;
    }
  }

  lemma HighProbeReaches(p: int, v: View)
    requires ScrollsHigh(p, v)
    ensures ScrollsHigh(HighProbe(v), v)
  {
    Edges(v);
    hide LowEdge, HighEdge, LowMargin, HighMargin, LowReach, HighReach;
    AtMostFloor(LowReach(v) - p, HighEdge(v));
    var far := LowReach(v) - HighEdge(v).Floor;
    assert far <= p;
    if HighProbe(v) == far {
      assert far as real <= p as real;
    }
  }

  /** For every view: it settles exactly when it does so at the centre and next to the two stops. */
  lemma SettlesIffThree(v: View)
    ensures Settles(v) <==> Moved(0, v) == 0 && Steady(LowProbe(v), v) && Steady(HighProbe(v), v)
  {
    SettlesIsSteady(v);
    FarClick(v);
    if Moved(0, v) == 0 && Steady(LowProbe(v), v) && Steady(HighProbe(v), v) {
      forall p: int ensures Steady(p, v) {
        PlacedAt(p, v);
        PlacedAt(LowProbe(v), v);
        PlacedAt(HighProbe(v), v);
        if ScrollsLow(p, v) {
          LowProbeReaches(p, v);
        } else if ScrollsHigh(p, v) {
          HighProbeReaches(p, v);
        }
        hide Placed, Captured, CanFit, LowProbe, HighProbe, LowRest, HighRest, ScrollsLow, ScrollsHigh, Far;
      }
    } else {
      hide Moved, LowProbe, HighProbe;
      var far := FarPosition(v);
      assert Settles(v) ==> Steady(far, v);
    }
  }

  function FarPosition(v: View): int {
    (HighEdge(v) + JUMP).Floor + 1
  }

  /** A far click centres the dial. */
  lemma FarClick(v: View)
    ensures Moved(FarPosition(v), v) == 0
  {
    Edges(v);
    PlacedAt(FarPosition(v), v);
    hide LowEdge, HighEdge, LowMargin, HighMargin, LowReach, HighReach, Captured, CanFit;
  }

  /** The rates the receiver runs at: 96, 192 and 384 kHz. */
  const MAX_RATE: real := 384000.0

  predicate Rated(v: View) {
    0.0 < v.rate <= MAX_RATE
  }

  /** A captured passband is narrower than the jump. */
  lemma CapturedIsNarrow(q: real, v: View)
    requires Rated(v) && Captured(q, v)
    ensures LowMargin(v) + HighMargin(v) < JUMP
  {
  }

  /** Two-sided filters that fit have room to spare; a wider reach is all on one side. */
  lemma FitsOrOneSided(v: View)
    requires CanFit(v)
    ensures LowMargin(v) + HighMargin(v) < 2.0 * HighEdge(v) || LowReach(v) == 0 || HighReach(v) == 0
    ensures Span(v) > 0.0 ==> HighEdge(v) > 0.0
  {
    assert Span(v) * (1.0 - 2.0 * 0.05) == 2.0 * HighEdge(v);
  }

  lemma LowRestStays(v: View)
    requires CanFit(v) && Rated(v) && Moved(0, v) == 0 && Captured(LowRest(v) as real, v)
    ensures Placed(LowRest(v), v) == LowRest(v) || LowRest(v) == 0
  {
    CapturedIsNarrow(LowRest(v) as real, v);
    FitsOrOneSided(v);
    Edges(v);
    PlacedAt(LowRest(v), v);
    PlacedAt(0, v);
    hide LowEdge, HighEdge, LowMargin, HighMargin, LowReach, HighReach, CanFit, Placed;
  }

  lemma HighRestStays(v: View)
    requires CanFit(v) && Rated(v) && Moved(0, v) == 0 && Captured(HighRest(v) as real, v)
    ensures Placed(HighRest(v), v) == HighRest(v) || HighRest(v) == 0
  {
    CapturedIsNarrow(HighRest(v) as real, v);
    FitsOrOneSided(v);
    Edges(v);
    PlacedAt(HighRest(v), v);
    PlacedAt(0, v);
    hide LowEdge, HighEdge, LowMargin, HighMargin, LowReach, HighReach, CanFit, Placed;
  }

  /** From the centre: jumped straight back, not out of the margins by a hertz, or out of the captured span. */
  predicate CentreHolds(v: View) {
    || LowMargin(v) > HighEdge(v) + JUMP || HighMargin(v) > HighEdge(v) + JUMP
    || (if LowMargin(v) > HighEdge(v) then
          LowMargin(v) < HighEdge(v) + 1.0 || !Captured((LowMargin(v) - HighEdge(v)).Floor as real, v)
        else if HighMargin(v) > HighEdge(v) then
          HighMargin(v) < HighEdge(v) + 1.0 || !Captured(-(HighMargin(v) - HighEdge(v)).Floor as real, v)
        else true)
  }

  lemma CentreHoldsIff(v: View)
    requires CanFit(v)
    ensures Centre(0, 0, v) == 0 <==> CentreHolds(v)
  {
    CentreIsMove(0, 0, v);
    Edges(v);
    hide LowEdge, HighEdge, LowMargin, HighMargin, Captured, CanFit, Centre;
  }

  /**
   * At the receiver's rates, for a view the passband fits: a second evaluation never moves anything,
   * for all dials and centres, exactly when the centred dial holds.
   */
  lemma SettlesIff(v: View)
    requires CanFit(v) && Rated(v)
    ensures Settles(v) <==> Centre(0, 0, v) == 0
    ensures Settles(v) <==> CentreHolds(v)
  {
    CentreHoldsIff(v);
    CentreIsMove(0, 0, v);
    SettlesIffThree(v);
    if Moved(0, v) == 0 {
      SteadyEverywhere(LowProbe(v), v);
      SteadyEverywhere(HighProbe(v), v);
    }
    hide Centre, Settles, Moved, Steady, CentreHolds, LowProbe, HighProbe;
  }

  lemma SteadyEverywhere(p: int, v: View)
    requires CanFit(v) && Rated(v) && Moved(0, v) == 0
    ensures Steady(p, v)
  {
    PlacedAt(p, v);
    hide Placed, Captured, CanFit, Far, ScrollsLow, ScrollsHigh, LowRest, HighRest, Rated;
    var q := Placed(p, v);
    if Captured(q as real, v) {
      if q == LowRest(v) {
        LowRestStays(v);
      } else if q == HighRest(v) {
        HighRestStays(v);
      }
    }
  }

  /** A filter within its half of the view settles at any rate, and so does a view it cannot fit. */
  lemma SettlesAtOnce(cen: int, eff: int, v: View)
    requires Modest(v) || !CanFit(v)
    ensures var c := Centre(cen, eff, v); Centre(c, eff, v) == c
  {
    var c := Centre(cen, eff, v);
    if CanFit(v) {
      LandsInView(cen, eff, v);
      CentredOrCaptured(cen, eff, v);
      hide Centre, InView, CanFit, Captured, Modest;
      StaysIff(c, eff, v);
    }
  }

  /**
   * A filter wider than its half of the view: a far click centres the dial with the passband over
   * the edge, and the very next evaluation scrolls away from there.
   */
  lemma WideFilterHunts(eff: int)
    ensures var v := View(192000.0, 10000.0, 200, 6000);
            && CanFit(v) && Rated(v) && !Settles(v)
            && Centre(eff + 1000000, eff, v) == eff
            && Centre(eff, eff, v) == eff + 1500
            && !InView(0.0, v)
  {
    var v := View(192000.0, 10000.0, 200, 6000);
    assert HighEdge(v) == 4500.0 && LowEdge(v) == -4500.0;
    assert (6000.0 - HighEdge(v)).Floor == 1500;
    SettlesIff(v);
  }

  /** Five times the fastest rate, with a filter beyond the jump: the centre holds and yet the view hunts. */
  lemma FasterRateHunts()
    ensures var v := View(2000000.0, 10000.0, 500000, 505000);
            && CanFit(v) && Centre(0, 0, v) == 0 && !Settles(v)
  {
    var v := View(2000000.0, 10000.0, 500000, 505000);
    assert HighEdge(v) == 4500.0 && LowEdge(v) == -4500.0;
    assert Centre(4501, 0, v) == 4500;
    assert Centre(4500, 0, v) == 500500;
  }

  ghost predicate Tractable(v: View) {
    CanFit(v) ==> Modest(v)
  }

  /** From a live centre and a dial above nought, the new centre is live too: no clamp, no wrap. */
  lemma StaysLive(cen: int, eff: int, v: View)
    requires Tractable(v) && 0 < cen < WORD && 0 < eff < WORD
    ensures Stored(Centre(cen, eff, v)) == Centre(cen, eff, v) != 0
  {
    if CanFit(v) {
      var p := (eff - cen) as real;
      var lo, hi := p - LowMargin(v), p + HighMargin(v);
      var s := Scrolled(cen, eff, v);
      if lo < LowEdge(v) - JUMP || hi > HighEdge(v) + JUMP {
      } else if lo < LowEdge(v) {
        assert (s - eff) as real == -p - (LowEdge(v) - lo).Floor as real;
      } else if hi > HighEdge(v) {
        assert (s - eff) as real == -p + (hi - HighEdge(v)).Floor as real;
      }
      assert 0 < s < WORD;
    }
  }
}
