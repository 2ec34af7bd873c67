/** What the watts ceiling amounts to: its range, the power it allows, and the byte it lets through. */
module WattsCeiling {
  import opened Basics
  import opened TxPower
  import opened CapServo

  /** With something to learn, and learned within the runaway bound or not learned, the ceiling is in the walk's range. */
  lemma CeilingInRange(s: Servo)
    requires InRange(s) && !Idle(s) && (Tuned(s) ==> s.band.ceilRaw <= HardMax(s))
    ensures 1 <= CeilingRaw(s) <= HardMax(s) <= 255
  {
    SeedUnderHardMax(s);
    hide FallbackRaw, HardMax;
  }

  /** The band has learned a ceiling, for this cap to a hundredth of a watt. */
  predicate Learned(s: Servo) {
    s.band.ceilRaw >= 0 && -0.01 < s.band.ceilCapW - s.capW < 0.01
  }

  lemma LearnedIsTuned(s: Servo)
    ensures Learned(s) <==> Tuned(s)
  {
  }

  /** The runaway bound: full drive on the analog path, else the drive at which a cubic plant reaches the cap, to half a step. */
  lemma RunawayBound(s: Servo)
    requires RootsOrdered(s.band.fullW, s.capW, s.band.root2, s.band.root3)
    ensures s.p2 ==> HardMax(s) == 255
    ensures !s.p2 && 0.0 < s.capW < s.band.fullW ==>
              && 1 <= HardMax(s) <= 255 && (HardMax(s) > 1 ==> HardMax(s) as real - 0.5 <= 255.0 * s.band.root3)
              && 255.0 * s.band.root3 <= HardMax(s) as real + 0.5
  {
    if !s.p2 && 0.0 < s.capW < s.band.fullW {
      LRoundNearest(255.0 * s.band.root3);
      hide LRound;
    }
  }

  /** The share of full power the ceiling aims at on a band that has learned nothing. */
  function Aim(s: Servo): real
    requires s.band.fullW > 0.0
  {
    if s.p2 then 0.85 * (s.capW / s.band.fullW) else s.band.root2
  }

  /** No limit with the cap off or at full output; without a reference three tenths, else the aim, to half a step. */
  lemma UnlearnedCeiling(s: Servo)
    requires RootsOrdered(s.band.fullW, s.capW, s.band.root2, s.band.root3) && !Learned(s)
    ensures !s.armed || s.capW <= 0.0 ==> CeilingRaw(s) == 255
    ensures s.armed && s.capW > 0.0 && s.band.fullW <= 0.0 ==> CeilingRaw(s) == 76
    ensures s.armed && 0.0 < s.band.fullW <= s.capW ==> CeilingRaw(s) == 255
    ensures s.armed && 0.0 < s.capW < s.band.fullW ==>
              && 1 <= CeilingRaw(s) <= 255
              && (CeilingRaw(s) > 1 ==> CeilingRaw(s) as real - 0.5 <= 255.0 * Aim(s))
              && 255.0 * Aim(s) <= CeilingRaw(s) as real + 0.5
  {
    if s.armed && 0.0 < s.capW < s.band.fullW {
      var pct := if s.p2 then 100.0 * (s.capW / s.band.fullW) * 0.85 else 100.0 * s.band.root2;
      RatioBelowOne(s.capW, s.band.fullW);
      assert pct * 255.0 / 100.0 == 255.0 * Aim(s);
      LRoundNearest(pct * 255.0 / 100.0);
      hide LRound;
      assert 0.0 < 255.0 * Aim(s) < 255.0;
    }
  }

  lemma RatioBelowOne(a: real, b: real)
    requires 0.0 < a < b
    ensures 0.0 < a / b < 1.0
  {
    var q := a / b;
    PositiveFactor(q, b);
    PositiveFactor(1.0 - q, b);
  }

  lemma PositiveFactor(x: real, b: real)
    requires b > 0.0 && x * b > 0.0
    ensures x > 0.0
  {
    if x <= 0.0 {
      TimesMonotone(x, 0.0, b);
    }
  }

  /** A learned ceiling is itself the limit. */
  lemma LearnedCeiling(s: Servo)
    requires s.armed && s.capW > 0.0 && Learned(s)
    ensures CeilingRaw(s) == s.band.ceilRaw
  {
  }

  /** Watts at a share of full drive, on a plant that follows its square, or its first power. */
  function SquareLaw(fullW: real, share: real): real {
    Times(fullW, Times(share, share))
  }

  function Linear(fullW: real, share: real): real {
    Times(fullW, share)
  }

  /**
   * On the first drive path, with the square root exact: a plant no shallower than the square of the
   * drive stays at or under the cap up to half a step below the ceiling of an unlearned band.
   */
  lemma UnlearnedStaysUnderCap(s: Servo, plant: real -> real, raw: real)
    requires Roots(s.band.fullW, s.capW, s.band.root2, s.band.root3) && !Learned(s) && !s.p2
    requires s.armed && 0.0 < s.capW < s.band.fullW && CeilingRaw(s) > 1
    requires forall share | 0.0 <= share <= 1.0 :: plant(share) <= SquareLaw(s.band.fullW, share)
    requires 0.0 <= raw <= CeilingRaw(s) as real - 0.5
    ensures plant(raw / 255.0) <= s.capW
  {
    RootsAreOrdered(s.band.fullW, s.capW, s.band.root2, s.band.root3);
    UnlearnedCeiling(s);
    hide CeilingRaw, Learned, Times;
    var share := raw / 255.0;
    assert 0.0 <= share <= s.band.root2 < 1.0;
    SquareGrows(share, s.band.root2);
    TimesMonotone(Times(share, share), Times(s.band.root2, s.band.root2), s.band.fullW);
    Reaches(s.band.fullW, s.capW);
  }

  lemma SquareGrows(a: real, b: real)
    requires 0.0 <= a <= b
    ensures 0.0 <= Times(a, a) <= Times(b, b)
  {
  }

  lemma Reaches(fullW: real, capW: real)
    requires fullW > 0.0
    ensures Times(fullW, capW / fullW) == capW
  {
  }

  /** On the analog path a plant no shallower than linear stays at or under 85 percent of the cap there. */
  lemma UnlearnedAnalogStaysUnderCap(s: Servo, plant: real -> real, raw: real)
    requires RootsOrdered(s.band.fullW, s.capW, s.band.root2, s.band.root3) && !Learned(s) && s.p2
    requires s.armed && 0.0 < s.capW < s.band.fullW && CeilingRaw(s) > 1
    requires forall share | 0.0 <= share <= 1.0 :: plant(share) <= Linear(s.band.fullW, share)
    requires 0.0 <= raw <= CeilingRaw(s) as real - 0.5
    ensures plant(raw / 255.0) <= 0.85 * s.capW
  {
    UnlearnedCeiling(s);
    hide CeilingRaw, Learned, Times;
    var share, aim := raw / 255.0, 0.85 * (s.capW / s.band.fullW);
    RatioBelowOne(s.capW, s.band.fullW);
    assert 0.0 <= share <= aim < 1.0;
    TimesMonotone(share, aim, s.band.fullW);
    Headroom(s.band.fullW, s.capW);
  }

  lemma Headroom(fullW: real, capW: real)
    requires fullW > 0.0
    ensures Times(fullW, 0.85 * (capW / fullW)) == 0.85 * capW
  {
    Reaches(fullW, capW);
    assert fullW * (0.85 * (capW / fullW)) == 0.85 * (fullW * (capW / fullW));
  }

  // ---- The first tick ----

  /** There is nothing to learn: cap off, at or over full output, or the first path without a reference. */
  predicate Inert(s: Servo) {
    || !s.armed || s.capW <= 0.0
    || 0.0 < s.band.fullW <= s.capW
    || (!s.p2 && s.band.fullW <= 0.0)
  }

  /** Then no tick does anything; otherwise the first one on a band that has not learned takes its ceiling as the seed. */
  lemma TickSeeds(s: Servo, m: Meter)
    ensures Inert(s) ==> Tick(s, m) == s
    ensures !Inert(s) && !Learned(s) ==>
              Tick(s, m) == s.(band := s.band.(ceilRaw := CeilingRaw(s), ceilCapW := s.capW, settled := false), ticks := 0)
  {
    hide FallbackRaw, Unfold, Bounded, Decide;
  }

  // ---- Through the chokepoint ----

  /** The shape of the emitted power on a station with this servo. */
  function Shaped(s: Servo, c: Shape): Shape {
    c.(ceiling := CeilingRaw(s), p2 := s.p2, capActive := s.capW > 0.0 && s.armed)
  }

  /** Whatever is requested, in whatever mode, what is emitted is no more than the ceiling itself would emit. */
  lemma NothingOverTheCeiling(s: Servo, c: Shape, requested: int)
    requires InRange(s) && !Idle(s) && (Tuned(s) ==> s.band.ceilRaw <= HardMax(s))
    requires 0 <= requested <= 255 && 10 <= c.digitalPct <= 100
    ensures var e := Emitted(requested, Shaped(s, c));
            0 <= e <= Emitted(CeilingRaw(s), Shaped(s, c).(digitalOn := false)) <= 255
  {
    CeilingInRange(s);
    hide CeilingRaw, HardMax, Idle, Tuned, InRange;
    var shape := Shaped(s, c);
    ChokepointMonotone(requested, 255, shape);
    ChokepointMonotone(CeilingRaw(s), 255, shape.(digitalOn := false));
    SameByte(CeilingRaw(s), shape, shape.(digitalOn := false));
    hide ByteOf;
  }

  /** On the analog path with a neutral trim the byte itself stays at or under the ceiling. */
  lemma AnalogByteUnderTheCeiling(s: Servo, c: Shape, requested: int)
    requires InRange(s) && !Idle(s) && s.p2 && (Tuned(s) ==> s.band.ceilRaw <= HardMax(s))
    requires 0 <= requested <= 255 && 10 <= c.digitalPct <= 100 && c.paGain == 100.0
    ensures Emitted(requested, Shaped(s, c)) <= CeilingRaw(s)
  {
    NothingOverTheCeiling(s, c, requested);
    CeilingInRange(s);
    PlainByte(CeilingRaw(s), Shaped(s, c).(digitalOn := false));
    hide CeilingRaw, HardMax, Idle, Tuned, InRange, ByteOf;
  }
}
