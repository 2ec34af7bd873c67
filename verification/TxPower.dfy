/** The power chokepoint: from the requested drive to the emitted drive byte. */
module TxPower {
  import opened Basics

  /** `std::lround`: to the nearest integer, halves away from zero. */
  function LRound(x: real): int {
    if x >= 0.0 then (x + 0.5).Floor else -((0.5 - x).Floor)
  }

  /** The nearest integer, and the same on both sides of nought. */
  lemma LRoundNearest(x: real)
    ensures -0.5 <= LRound(x) as real - x <= 0.5 && LRound(-x) == -LRound(x)
    ensures x >= 0.0 ==> x - LRound(x) as real < 0.5
  {
  }

  lemma LRoundMonotone(x: real, y: real)
    requires x <= y
    ensures LRound(x) <= LRound(y)
  {
  }

  const MODE_CWL := 3
  const MODE_CWU := 4
  const MODE_DIGU := 7
  const MODE_DIGL := 9

  /** Everything but the request that shapes the emitted power. */
  datatype Shape = Shape(
    digitalOn: bool,
    digitalPct: int,      // 10..100
    mode: int,
    ceiling: int,         // the watts ceiling, 0..255
    paGain: real,         // per-band trim, percent
    p2: bool,             // analog drive path
    capActive: bool)

  predicate ValidShape(c: Shape) {
    10 <= c.digitalPct <= 100 && 0 <= c.ceiling <= 255
  }

  /** The transient cut of the digital modes; the setpoint itself is not touched. */
  function DigitalCut(requested: int, c: Shape): int {
    if c.digitalOn && (c.mode == MODE_DIGU || c.mode == MODE_DIGL)
    then requested * c.digitalPct / 100
    else requested
  }

  function Unit(x: real): real {
    if x < 0.0 then 0.0 else if x > 1.0 then 1.0 else x
  }

  /** A product the proofs below treat as a whole. */
  function Times(a: real, b: real): real {
    a * b
  }

  /** Drive percent times the band trim, over the correction of the coarse converter. */
  function RadioVolume(raw: int, c: Shape): real {
    var pct := raw as real * 100.0 / 255.0;
    Unit(Times(pct, c.paGain / 100.0) / (if c.p2 then 100.0 else 93.75))
  }

  predicate CwFold(c: Shape) {
    !c.p2 && c.capActive && (c.mode == MODE_CWL || c.mode == MODE_CWU)
  }

  /** The amplitude the byte carries: in capped CW the fine gain is folded in, with headroom. */
  function ByteVolume(rv: real, c: Shape): real {
    if CwFold(c) then Times(rv, rv) * 0.85 else rv
  }

  function ByteOf(capped: int, c: Shape): int {
    Clamp(LRound(255.0 * ByteVolume(RadioVolume(capped, c), c)), 0, 255)
  }

  function Emitted(requested: int, c: Shape): int {
    ByteOf(Min(DigitalCut(requested, c), c.ceiling), c)
  }

  /** The one place every drive, gain, band or cap change goes through. */
  class Chokepoint {
    var emitted: int      // the drive byte
    var fineGain: real    // the digital gain behind it

    method ApplyTxPower(requestedRaw: int, c: Shape)
      modifies this
      ensures emitted == Emitted(requestedRaw, c)
      ensures fineGain == if c.p2 then 1.0 else RadioVolume(Min(DigitalCut(requestedRaw, c), c.ceiling), c)
    {
      var effRaw := requestedRaw;
      if c.digitalOn {
        if c.mode == MODE_DIGU || c.mode == MODE_DIGL {
          effRaw := requestedRaw * c.digitalPct / 100;
        }
      }
      var rv := RadioVolume(Min(effRaw, c.ceiling), c);
      var byteRv := if CwFold(c) then Times(rv, rv) * 0.85 else rv;
      var byte := LRound(255.0 * byteRv);
      emitted := if byte < 0 then 0 else if byte > 255 then 255 else byte;
      if c.p2 {
        fineGain := 1.0;
      } else {
        fineGain := rv;
      }
    }
  }

  // ---- What the chokepoint guarantees ----

  lemma TimesMonotone(a: real, b: real, g: real)
    requires a <= b && g >= 0.0
    ensures Times(a, g) <= Times(b, g) && Times(g, a) <= Times(g, b)
  {
  }

  lemma TimesNegative(a: real, g: real)
    requires a >= 0.0 && g <= 0.0
    ensures Times(a, g) <= 0.0
  {
  }

  lemma TimesOne(a: real)
    ensures Times(1.0, a) == a && Times(0.0, a) == 0.0
  {
  }

  lemma VolumeMonotone(a: int, b: int, c: Shape)
    requires 0 <= a <= b
    ensures 0.0 <= RadioVolume(a, c) <= RadioVolume(b, c) <= 1.0
  {
    hide Times;
    var pa, pb, g := a as real * 100.0 / 255.0, b as real * 100.0 / 255.0, c.paGain / 100.0;
    if g >= 0.0 {
      TimesMonotone(pa, pb, g);
    } else {
      TimesNegative(pa, g);
      TimesNegative(pb, g);
    }
  }

  lemma ByteVolumeMonotone(x: real, y: real, c: Shape)
    requires 0.0 <= x <= y <= 1.0
    ensures 0.0 <= ByteVolume(x, c) <= ByteVolume(y, c) <= y
  {
    hide Times;
    TimesMonotone(0.0, x, x);
    TimesMonotone(x, y, x);
    TimesMonotone(x, y, y);
    TimesMonotone(y, 1.0, y);
    TimesOne(x);
    TimesOne(y);
  }

  lemma ByteMonotone(a: int, b: int, c: Shape)
    requires 0 <= a <= b
    ensures ByteOf(a, c) <= ByteOf(b, c)
    ensures ByteOf(b, c) == LRound(255.0 * ByteVolume(RadioVolume(b, c), c))
  {
    VolumeMonotone(a, b, c);
    ByteVolumeMonotone(RadioVolume(a, c), RadioVolume(b, c), c);
    hide ByteVolume, RadioVolume, Times;
    LRoundMonotone(255.0 * ByteVolume(RadioVolume(a, c), c), 255.0 * ByteVolume(RadioVolume(b, c), c));
    LRoundMonotone(0.0, 255.0 * ByteVolume(RadioVolume(b, c), c));
    LRoundMonotone(255.0 * ByteVolume(RadioVolume(b, c), c), 255.0);
  }

  lemma CutMonotone(a: int, b: int, c: Shape)
    requires 0 <= a <= b && ValidShape(c)
    ensures 0 <= DigitalCut(a, c) <= DigitalCut(b, c) <= b
  {
    MulUp(a, b, c.digitalPct);
    MulUp(c.digitalPct, 100, b);
    DivUp(a * c.digitalPct, b * c.digitalPct);
    DivUp(b * c.digitalPct, b * 100);
  }

  lemma MulUp(a: int, b: int, k: int)
    requires a <= b && k >= 0
    ensures a * k <= b * k && k * a <= k * b
  {
  }

  lemma DivUp(a: int, b: int)
    requires a <= b
    ensures a / 100 <= b / 100
  {
  }

  /**
   * For every shape: more request never emits less, nothing emits more than the watts ceiling
   * would, and the final clamp to a byte never has anything to cut.
   */
  lemma ChokepointMonotone(a: int, b: int, c: Shape)
    requires 0 <= a <= b <= 255 && ValidShape(c)
    ensures 0 <= Emitted(a, c) <= Emitted(b, c) <= ByteOf(c.ceiling, c) <= 255
    ensures var capped := Min(DigitalCut(b, c), c.ceiling);
            Emitted(b, c) == LRound(255.0 * ByteVolume(RadioVolume(capped, c), c))
  {
    CutMonotone(a, b, c);
    hide ByteOf, DigitalCut;
    ByteMonotone(Min(DigitalCut(a, c), c.ceiling), Min(DigitalCut(b, c), c.ceiling), c);
    ByteMonotone(Min(DigitalCut(b, c), c.ceiling), c.ceiling, c);
  }

  /** The CW fold never emits more than the same drive without the cap's fold. */
  lemma FoldOnlyReduces(requested: int, c: Shape)
    requires 0 <= requested <= 255 && ValidShape(c)
    ensures Emitted(requested, c) <= Emitted(requested, c.(capActive := false))
  {
    CutMonotone(requested, requested, c);
    hide ByteOf;
    FoldReduces(Min(DigitalCut(requested, c), c.ceiling), c);
  }

  /** The digital cut never emits more than no cut, and a deeper cut never more than a shallower one. */
  lemma CutOnlyReduces(requested: int, c: Shape, pct: int)
    requires 0 <= requested <= 255 && ValidShape(c) && c.digitalPct <= pct <= 100
    ensures Emitted(requested, c) <= Emitted(requested, c.(digitalPct := pct))
    ensures Emitted(requested, c) <= Emitted(requested, c.(digitalOn := false))
  {
    CutMonotone(requested, requested, c);
    MulUp(c.digitalPct, pct, requested);
    DivUp(requested * c.digitalPct, requested * pct);
    var shallow, off := c.(digitalPct := pct), c.(digitalOn := false);
    var cut := Min(DigitalCut(requested, c), c.ceiling);
    SameByte(Min(DigitalCut(requested, shallow), c.ceiling), c, shallow);
    SameByte(Min(requested, c.ceiling), c, off);
    hide ByteOf;
    ByteMonotone(cut, Min(DigitalCut(requested, shallow), c.ceiling), c);
    ByteMonotone(cut, Min(requested, c.ceiling), c);
  }

  /** On the analog path, otherwise neutral: a digital mode emits its percentage of the request, any other the request. */
  lemma DigitalShare(requested: int, c: Shape)
    requires 0 <= requested <= 255 && ValidShape(c) && c.paGain == 100.0 && c.ceiling == 255 && c.p2
    ensures if c.digitalOn && c.mode in {7, 9}
            then 100 * Emitted(requested, c) <= requested * c.digitalPct < 100 * (Emitted(requested, c) + 1)
            else Emitted(requested, c) == requested
  {
    CutMonotone(requested, requested, c);
    var cut := DigitalCut(requested, c);
    hide Times, LRound;
    PlainByte(Min(cut, 255), c);
  }

  lemma PlainByte(raw: int, c: Shape)
    requires 0 <= raw <= 255 && c.paGain == 100.0 && c.p2
    ensures ByteOf(raw, c) == raw
  {
    var pct := raw as real * 100.0 / 255.0;
    TimesOne(pct);
    assert Times(pct, c.paGain / 100.0) == pct;
    assert 255.0 * RadioVolume(raw, c) == raw as real;
  }

  /**
   * The byte carries the volume to half a step; in capped CW on the coarse path the volume's square,
   * at 85 percent, since the fine gain multiplies it once more.
   */
  lemma ByteCarriesVolume(requested: int, c: Shape)
    requires 0 <= requested <= 255 && ValidShape(c)
    ensures var v := RadioVolume(Min(DigitalCut(requested, c), c.ceiling), c);
            var carried := if !c.p2 && c.capActive && c.mode in {3, 4} then 0.85 * Times(v, v) else v;
            -0.5 <= Emitted(requested, c) as real - 255.0 * carried <= 0.5
  {
    ChokepointMonotone(requested, requested, c);
    var v := RadioVolume(Min(DigitalCut(requested, c), c.ceiling), c);
    LRoundNearest(255.0 * ByteVolume(v, c));
    hide LRound, RadioVolume, Times, ByteOf, DigitalCut;
  }

  predicate Neutral(c: Shape) {
    c.paGain == 100.0 && c.ceiling == 255 && !c.digitalOn && !c.capActive
  }

  /**
   * What the chain amounts to at neutral settings: on the analog path the byte is the request; on the
   * coarse one it is the request by sixteen fifteenths, full from 239 on.
   */
  lemma NeutralByte(requested: int, c: Shape)
    requires 0 <= requested <= 255 && Neutral(c)
    ensures Emitted(requested, c) == if c.p2 then requested else if requested >= 239 then 255 else LRound(requested as real * 16.0 / 15.0)
  {
    var pct := requested as real * 100.0 / 255.0;
    TimesOne(pct);
    assert Times(pct, c.paGain / 100.0) == pct;
    var rv := RadioVolume(requested, c);
    if c.p2 {
      assert 255.0 * rv == requested as real;
    } else if requested < 239 {
      assert 255.0 * rv == requested as real * 16.0 / 15.0;
    } else {
      assert 254.5 <= 255.0 * rv <= 255.0;
    }
  }

  lemma SameByte(raw: int, c: Shape, d: Shape)
    requires d == c.(digitalOn := d.digitalOn, digitalPct := d.digitalPct)
    ensures ByteOf(raw, c) == ByteOf(raw, d)
  {
    hide Times, LRound, Unit;
  }

  lemma FoldReduces(capped: int, c: Shape)
    requires 0 <= capped
    ensures ByteOf(capped, c) <= ByteOf(capped, c.(capActive := false))
  {
    var off := c.(capActive := false);
    var rv := RadioVolume(capped, c);
    assert RadioVolume(capped, off) == rv;
    VolumeMonotone(capped, capped, c);
    ByteVolumeMonotone(rv, rv, c);
    hide RadioVolume, Times;
    LRoundMonotone(255.0 * ByteVolume(rv, c), 255.0 * rv);
  }
}
