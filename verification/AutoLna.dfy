/** The overload monitor and the automatic gain loop in front of the converter. */
module AutoLna {
  import opened Basics

  const LNA_MIN_DB := -12
  const LNA_MAX_DB := 48
  const BACKOFF_MIN_DB := -9
  const CREEP_MAX_DB := 47

  datatype Loop = Loop(
    gain: int,            // dB
    level: int,           // overload counter, 0..5
    tier: int,            // lamp: 0 silent, 1 seen, 2 confirmed
    enabled: bool,
    bandChange: bool,     // fast acquire armed
    undo: bool,
    holdSec: int,
    elapsed: int,         // ms on the hold clock
    keyed: bool)

  function Count(level: int, ov: bool): int {
    if ov then (if level + 1 > 5 then 5 else level + 1)
    else (if level - 1 < 0 then 0 else level - 1)
  }

  function Sustained(level: int, ov: bool): bool {
    ov && level > 3
  }

  /** The three rungs of the overload lamp. */
  function Lamp(level: int, ov: bool): int {
    if Sustained(level, ov) then 2 else if level > 0 then 1 else 0
  }

  function SetGain(s: Loop, db: int): Loop {
    s.(gain := Clamp(db, LNA_MIN_DB, LNA_MAX_DB))
  }

  /** The gain half of a tick, with the counter already updated. */
  function Act(s: Loop, ov: bool): Loop {
    if !s.enabled || s.keyed then s
    else if Sustained(s.level, ov) then
      var t := if s.gain > BACKOFF_MIN_DB then SetGain(s, s.gain - 3) else s;
      t.(bandChange := false, elapsed := 0)
    else if s.bandChange || (s.undo && s.elapsed > s.holdSec * 1000) then
      var t := if s.gain < CREEP_MAX_DB then SetGain(s, s.gain + 1) else s;
      t.(elapsed := 0)
    else s
  }

  /** One poll: dt milliseconds after the last, ov if the converter clipped in between. */
  function Tick(s: Loop, dt: int, ov: bool): Loop {
    var level := Count(s.level, ov);
    Act(s.(level := level, tier := Lamp(level, ov), elapsed := s.elapsed + dt), ov)
  }

  // ---- The loop as the object's members ----

  class Monitor {
    var lnaGainDb: int
    var overloadLevel: int
    var adcOverloadTier: int
    var autoLnaEnabled: bool
    var bandChange: bool
    var autoLnaUndo: bool
    var autoLnaHoldSec: int
    var holdElapsedMs: int
    var mox: bool

    function State(): Loop
      reads this
    {
      Loop(lnaGainDb, overloadLevel, adcOverloadTier, autoLnaEnabled, bandChange, autoLnaUndo,
           autoLnaHoldSec, holdElapsedMs, mox)
    }

    method OnAutoLnaTick(dt: int, ov: bool)
      modifies `lnaGainDb, `overloadLevel, `adcOverloadTier, `bandChange, `holdElapsedMs
      ensures State() == Tick(old(State()), dt, ov)
    {
      hide Act;
      holdElapsedMs := holdElapsedMs + dt;
      overloadLevel := if ov then (if overloadLevel + 1 > 5 then 5 else overloadLevel + 1)
                       else (if overloadLevel - 1 < 0 then 0 else overloadLevel - 1);
      var sustained := ov && overloadLevel > 3;
      var tier := if sustained then 2 else if overloadLevel > 0 then 1 else 0;
      if tier != adcOverloadTier {
        adcOverloadTier := tier;
      }
      RideGain(ov);
    }

    /** The gain half of the tick. */
    method RideGain(ov: bool)
      modifies `lnaGainDb, `bandChange, `holdElapsedMs
      ensures State() == Act(old(State()), ov)
    {
      hide Clamp;
      if !autoLnaEnabled {
        return;
      }
      if mox {
        return;
      }
      var g := lnaGainDb;
      if ov && overloadLevel > 3 {
        bandChange := false;
        if g > BACKOFF_MIN_DB {
          lnaGainDb := Clamp(g - 3, LNA_MIN_DB, LNA_MAX_DB);
        }
        holdElapsedMs := 0;
      } else if bandChange || (autoLnaUndo && holdElapsedMs > autoLnaHoldSec * 1000) {
        if g < CREEP_MAX_DB {
          lnaGainDb := Clamp(g + 1, LNA_MIN_DB, LNA_MAX_DB);
        }
        holdElapsedMs := 0;
      }
    }

    /** Enabling arms the fast acquire and nothing else; disabling leaves the gain where it is. */
    method SetAutoLna(on: bool)
      modifies `autoLnaEnabled, `bandChange
      ensures State() == if on == old(autoLnaEnabled) then old(State())
                         else old(State()).(enabled := on, bandChange := on || old(bandChange))
    {
      if on == autoLnaEnabled {
        return;
      }
      autoLnaEnabled := on;
      if on {
        bandChange := true;
      }
    }

    method NoteBandChange()
      modifies `bandChange
      ensures State() == old(State()).(bandChange := true)
    {
      bandChange := true;
    }
  }

  // ---- Any polls ----

  /** What a poll hears: the time since the last one, and whether the converter clipped. */
  datatype Poll = Poll(dt: int, ov: bool)

  function Heard(s: Loop, ps: seq<Poll>): Loop
    decreases |ps|
  {
    if ps == [] then s else Tick(Heard(s, ps[..|ps| - 1]), ps[|ps| - 1].dt, ps[|ps| - 1].ov)
  }

  predicate All(ps: seq<Poll>, ov: bool) {
    forall i :: 0 <= i < |ps| ==> ps[i].ov == ov
  }

  /** Switched off or keyed the loop only listens: no poll moves the gain, disarms it or rewinds its clock. */
  lemma {:induction false} StandsBy(s: Loop, ps: seq<Poll>)
    requires !s.enabled || s.keyed
    ensures var t := Heard(s, ps);
            && t.gain == s.gain && t.bandChange == s.bandChange && t.enabled == s.enabled && t.keyed == s.keyed
            && t.undo == s.undo && t.holdSec == s.holdSec && t.elapsed == s.elapsed + Elapsed(ps)
    decreases |ps|
  {
    if ps != [] {
      StandsBy(s, ps[..|ps| - 1]);
      hide Count, Lamp;
    }
  }

  function Elapsed(ps: seq<Poll>): int {
    if ps == [] then 0 else Elapsed(ps[..|ps| - 1]) + ps[|ps| - 1].dt
  }

  /** With undo off and no acquire armed no poll ever raises the gain. */
  lemma {:induction false} WithoutUndoNeverRises(s: Loop, ps: seq<Poll>)
    requires !s.undo && !s.bandChange && LNA_MIN_DB <= s.gain <= LNA_MAX_DB
    ensures var t := Heard(s, ps); LNA_MIN_DB <= t.gain <= s.gain && !t.undo && !t.bandChange
    decreases |ps|
  {
    if ps != [] {
      WithoutUndoNeverRises(s, ps[..|ps| - 1]);
      hide Count, Lamp;
    }
  }

  /** No poll takes the gain beyond the creep limit from below it, nor under two steps past the back-off limit. */
  lemma {:induction false} GainStaysInRange(s: Loop, ps: seq<Poll>)
    requires -12 <= s.gain <= 48
    ensures var g := Heard(s, ps).gain; Min(s.gain, -11) <= g <= Max(s.gain, 47)
    decreases |ps|
  {
    if ps != [] {
      GainStaysInRange(s, ps[..|ps| - 1]);
      hide Count, Lamp;
    }
  }

  /** A fast acquire climbs a step with every clean poll, undo or not, hold time or not, up to the creep limit. */
  lemma {:induction false} AcquireClimbs(s: Loop, ps: seq<Poll>)
    requires s.enabled && !s.keyed && s.bandChange && -12 <= s.gain <= 47 && All(ps, false)
    ensures var t := Heard(s, ps);
            t.gain == Min(s.gain + |ps|, 47) && t.bandChange && t.enabled && !t.keyed && (ps != [] ==> t.elapsed == 0)
    decreases |ps|
  {
    if ps != [] {
      assert !ps[|ps| - 1].ov;
      AcquireClimbs(s, ps[..|ps| - 1]);
      hide Count, Lamp;
    }
  }

  /** Polls in a row that clip: the counter fills to five, and the fourth of a quiet start confirms. */
  lemma {:induction false} ClipsConfirm(s: Loop, ps: seq<Poll>)
    requires 0 <= s.level <= 5 && ps != [] && All(ps, true)
    ensures var t := Heard(s, ps); t.level == Min(5, s.level + |ps|) && t.tier == if s.level + |ps| >= 4 then 2 else 1
    decreases |ps|
  {
    var front := ps[..|ps| - 1];
    assert ps[|ps| - 1].ov;
    if front != [] {
      ClipsConfirm(s, front);
    }
    hide Act;
    ActKeepsLamp(Heard(s, front), ps[|ps| - 1]);
  }

  /** Clean polls in a row: the counter empties one by one, and the lamp is amber exactly until it is empty. */
  lemma {:induction false} CleanPollsFade(s: Loop, ps: seq<Poll>)
    requires 0 <= s.level <= 5 && ps != [] && All(ps, false)
    ensures var t := Heard(s, ps); t.level == Max(0, s.level - |ps|) && t.tier == if s.level > |ps| then 1 else 0
    decreases |ps|
  {
    var front := ps[..|ps| - 1];
    assert !ps[|ps| - 1].ov;
    if front != [] {
      CleanPollsFade(s, front);
    }
    hide Act;
    ActKeepsLamp(Heard(s, front), ps[|ps| - 1]);
  }

  lemma ActKeepsLamp(s: Loop, p: Poll)
    ensures var t := Tick(s, p.dt, p.ov); t.level == Count(s.level, p.ov) && t.tier == Lamp(t.level, p.ov)
  {
    hide Count, Lamp, Clamp;
  }

  // ---- The closed loop ----

  /** A running loop in front of a converter that clips above some gain. */
  ghost predicate Sane(s: Loop) {
    && LNA_MIN_DB <= s.gain <= LNA_MAX_DB && 0 <= s.level <= 5 && s.elapsed >= 0
    && s.enabled && !s.keyed && 1 <= s.holdSec <= 60
  }

  /** One poll of the closed loop: the clip flag tells whether the gain was above the edge. */
  function Closed(s: Loop, edge: int, dt: int): Loop {
    Tick(s, dt, s.gain > edge)
  }

  /** Polls come at most m milliseconds apart, three of them within a hold interval. */
  predicate Paced(s: Loop, m: int) {
    0 < m && 3 * m <= s.holdSec * 1000
  }

  /** The longest time in which the counter fills up to a level, or empties down to it. */
  function Filling(level: int, m: int): int {
    if level <= 0 then 0 else if level == 1 then m else if level == 2 then 2 * m else 3 * m
  }

  function Emptying(level: int, m: int): int {
    if level >= 5 then 0 else if level == 4 then m else if level == 3 then 2 * m else if level == 2 then 3 * m else 4 * m
  }

  /**
   * Riding the edge: below it while the counter decays faster than the hold clock can run out, or
   * one step above it, being counted.
   */
  ghost predicate Riding(s: Loop, edge: int, m: int) {
    && Sane(s) && !s.bandChange
    && ((edge - 2 <= s.gain <= edge && (s.level > 0 ==> s.elapsed <= Emptying(s.level, m)))
        || (s.gain == edge + 1 && s.level <= 3 && s.elapsed <= Filling(s.level, m)))
  }

  lemma SaneNext(s: Loop, edge: int, dt: int)
    requires Sane(s) && 0 < dt
    ensures Sane(Closed(s, edge, dt))
  {
  }

  /** Once there, the loop never leaves the band, whatever the jitter of the poll. */
  lemma RidingNext(s: Loop, edge: int, dt: int, m: int)
    requires BACKOFF_MIN_DB <= edge < CREEP_MAX_DB
    requires Riding(s, edge, m) && Paced(s, m) && 0 < dt <= m
    ensures Riding(Closed(s, edge, dt), edge, m) && Paced(Closed(s, edge, dt), m)
  {
  }

  /**
   * The pace is exact: with three of the longest intervals over the hold time, a loop at rest on the
   * edge steps up, and steps up again before the overload is confirmed.
   */
  lemma SlowPollsOvershoot(s: Loop, edge: int, m: int)
    requires BACKOFF_MIN_DB <= edge && edge + 1 < CREEP_MAX_DB
    requires Sane(s) && s.undo && !s.bandChange && s.gain == edge && s.level == 0 && s.elapsed == s.holdSec * 1000
    requires 0 < m && !Paced(s, m)
    ensures Riding(s, edge, m) && Polls(s, edge, [m, m, m, m]).gain > edge + 1
  {
    var dts := [m, m, m, m];
    var s1 := Closed(s, edge, m);
    var s2 := Closed(s1, edge, m);
    var s3 := Closed(s2, edge, m);
    var s4 := Closed(s3, edge, m);
    assert s4.gain > edge + 1;
    hide Closed;
    assert dts[1..] == [m, m, m] && dts[1..][1..] == [m, m] && dts[1..][1..][1..] == [m] && dts[1..][1..][1..][1..] == [];
    assert Polls(s3, edge, [m]) == Polls(s4, edge, []);
    assert Polls(s2, edge, [m, m]) == Polls(s3, edge, [m]);
    assert Polls(s1, edge, [m, m, m]) == Polls(s2, edge, [m, m]);
  }

  /** Polls left above the edge: the counter fills first, then every poll steps down. */
  function Above(s: Loop, edge: int): int {
    100 * (4 - (if s.level < 4 then s.level else 4)) + (s.gain - edge)
  }

  /** Polls for some steps up, each at most a hold interval and two more. */
  function Climb(hold: int, steps: int): int {
    (hold + 2) * steps
  }

  lemma OneStepUp(hold: int, steps: int)
    requires hold >= 0
    ensures Climb(hold, steps) == Climb(hold, steps - 1) + hold + 2
    ensures steps >= 0 ==> Climb(hold, steps) >= 0
  {
  }

  /** Polls left below the edge: one hold interval for each step up. */
  function Below(s: Loop, edge: int): int {
    var hold := s.holdSec * 1000;
    600 + Climb(hold, edge + 1 - s.gain) + (if s.bandChange || s.elapsed > hold then 0 else hold + 1 - s.elapsed)
  }

  function Distance(s: Loop, edge: int): int {
    if s.gain > edge then Above(s, edge) else Below(s, edge)
  }

  lemma AboveShrinks(s: Loop, edge: int, dt: int, m: int)
    requires BACKOFF_MIN_DB <= edge < CREEP_MAX_DB && 0 < dt && 0 < m
    requires Sane(s) && s.gain > edge
    ensures var t := Closed(s, edge, dt);
            Riding(t, edge, m) || (t.gain > edge && 0 <= Above(t, edge) < Above(s, edge))
  {
  }

  lemma BelowShrinks(s: Loop, edge: int, dt: int)
    requires BACKOFF_MIN_DB <= edge < CREEP_MAX_DB && 0 < dt
    requires Sane(s) && s.undo && s.gain <= edge
    ensures var t := Closed(s, edge, dt);
            if t.gain > edge then 0 <= Above(t, edge) < 600 <= Below(s, edge) else 0 <= Below(t, edge) < Below(s, edge)
  {
    var hold, room := s.holdSec * 1000, edge + 1 - s.gain;
    var t := Closed(s, edge, dt);
    OneStepUp(hold, room);
    OneStepUp(hold, room - 1);
    hide Climb;
    assert t.holdSec == s.holdSec && (t.gain == s.gain || t.gain == s.gain + 1);
  }

  lemma DistanceShrinks(s: Loop, edge: int, dt: int, m: int)
    requires BACKOFF_MIN_DB <= edge < CREEP_MAX_DB && 0 < dt && 0 < m
    requires Sane(s) && s.undo
    ensures var t := Closed(s, edge, dt); Riding(t, edge, m) || 0 <= Distance(t, edge) < Distance(s, edge)
  {
    hide Closed, Above, Below;
    if s.gain > edge {
      AboveShrinks(s, edge, dt, m);
    } else {
      BelowShrinks(s, edge, dt);
    }
  }

  /** The loop under a sequence of poll intervals. */
  function Polls(s: Loop, edge: int, dts: seq<int>): Loop
    decreases |dts|
  {
    if dts == [] then s else Polls(Closed(s, edge, dts[0]), edge, dts[1..])
  }

  predicate Jittered(dts: seq<int>, m: int) {
    forall i | 0 <= i < |dts| :: 0 < dts[i] <= m
  }

  /** The polls of the closed loop, as polls. */
  function AsPolls(s: Loop, edge: int, dts: seq<int>): seq<Poll>
    decreases |dts|
  {
    if dts == [] then [] else [Poll(dts[0], s.gain > edge)] + AsPolls(Closed(s, edge, dts[0]), edge, dts[1..])
  }

  lemma {:induction false} HeardFirst(s: Loop, p: Poll, ps: seq<Poll>)
    ensures Heard(s, [p] + ps) == Heard(Tick(s, p.dt, p.ov), ps)
    decreases |ps|
  {
    hide Tick;
    if ps == [] {
      assert [p] + ps == [p];
    } else {
      HeardFirst(s, p, ps[..|ps| - 1]);
      assert ([p] + ps)[..|ps|] == [p] + ps[..|ps| - 1];
    }
  }

  lemma {:induction false} ClosedIsHeard(s: Loop, edge: int, dts: seq<int>)
    ensures Polls(s, edge, dts) == Heard(s, AsPolls(s, edge, dts))
    decreases |dts|
  {
    hide Tick;
    if dts != [] {
      ClosedIsHeard(Closed(s, edge, dts[0]), edge, dts[1..]);
      HeardFirst(s, Poll(dts[0], s.gain > edge), AsPolls(Closed(s, edge, dts[0]), edge, dts[1..]));
    }
  }

  /** So does the closed loop in front of any converter. */
  lemma LoopStandsBy(s: Loop, edge: int, dts: seq<int>)
    requires !s.enabled || s.keyed
    ensures Polls(s, edge, dts).gain == s.gain && Polls(s, edge, dts).bandChange == s.bandChange
  {
    ClosedIsHeard(s, edge, dts);
    StandsBy(s, AsPolls(s, edge, dts));
  }

  lemma {:induction false} RidesOn(s: Loop, edge: int, dts: seq<int>, m: int)
    requires BACKOFF_MIN_DB <= edge < CREEP_MAX_DB && Riding(s, edge, m) && Paced(s, m) && Jittered(dts, m)
    ensures Riding(Polls(s, edge, dts), edge, m)
    decreases |dts|
  {
    if dts != [] {
      hide Closed, Riding;
      RidingNext(s, edge, dts[0], m);
      RidesOn(Closed(s, edge, dts[0]), edge, dts[1..], m);
    }
  }

  /**
   * From any state at all, fast acquire or not, the loop is riding after a bounded number of polls
   * and then stays within two steps below and one above the edge for ever.
   */
  lemma {:induction false} FindsTheEdge(s: Loop, edge: int, dts: seq<int>, m: int)
    requires BACKOFF_MIN_DB <= edge < CREEP_MAX_DB
    requires Sane(s) && s.undo && Paced(s, m) && Jittered(dts, m) && |dts| > Distance(s, edge)
    ensures Riding(Polls(s, edge, dts), edge, m)
    ensures edge - 2 <= Polls(s, edge, dts).gain <= edge + 1
    decreases |dts|
  {
    hide Distance;
    DistanceStarts(s, edge);
    var t := Closed(s, edge, dts[0]);
    DistanceShrinks(s, edge, dts[0], m);
    SaneNext(s, edge, dts[0]);
    assert t.undo && Paced(t, m);
    hide Closed, Riding;
    if Riding(t, edge, m) {
      RidesOn(t, edge, dts[1..], m);
    } else {
      FindsTheEdge(t, edge, dts[1..], m);
    }
    assert edge - 2 <= Polls(s, edge, dts).gain <= edge + 1 by {
      RidingBand(Polls(s, edge, dts), edge, m);
    }
  }

  lemma RidingBand(s: Loop, edge: int, m: int)
    requires Riding(s, edge, m)
    ensures edge - 2 <= s.gain <= edge + 1
  {
  }

  lemma AtMost59(h: int, room: int)
    requires h >= 0 && 0 <= room <= 59
    ensures 0 <= h * room <= h * 59
  {
    assert h * (59 - room) >= 0 && h * room >= 0;
  }

  lemma BelowStarts(s: Loop, edge: int)
    requires BACKOFF_MIN_DB <= edge < CREEP_MAX_DB && Sane(s) && s.gain <= edge
    ensures 0 <= Below(s, edge) <= 600 + 60 * (s.holdSec * 1000 + 2)
  {
    AtMost59(s.holdSec * 1000 + 2, edge + 1 - s.gain);
  }

  /** The bound itself: sixty steps of at most a hold interval each. */
  lemma DistanceStarts(s: Loop, edge: int)
    requires BACKOFF_MIN_DB <= edge < CREEP_MAX_DB && Sane(s)
    ensures 0 <= Distance(s, edge) <= 600 + 60 * (s.holdSec * 1000 + 2)
  {
    hide Below;
    if s.gain <= edge {
      BelowStarts(s, edge);
    }
  }

  // ---- Fast acquire ----

  /** Right after the first confirmed overload of an acquire. */
  ghost predicate Landed(s: Loop, edge: int) {
    Sane(s) && !s.bandChange && s.level >= 4 && s.elapsed == 0 && edge - 2 <= s.gain <= edge + 1
  }

  lemma LandedStays(s: Loop, edge: int, dts: seq<int>, m: int)
    requires BACKOFF_MIN_DB <= edge < CREEP_MAX_DB && Landed(s, edge) && Paced(s, m) && Jittered(dts, m)
    ensures Polls(s, edge, dts).gain <= edge + 1
  {
    if dts != [] && !Riding(s, edge, m) {
      assert Riding(Closed(s, edge, dts[0]), edge, m);
      RidesOn(Closed(s, edge, dts[0]), edge, dts[1..], m);
    } else if dts != [] {
      RidesOn(s, edge, dts, m);
    }
  }

  /** Climbing every poll: above the edge only as far as the counter has been filling. */
  ghost predicate Acquiring(s: Loop, edge: int) {
    && Sane(s) && s.bandChange && s.level <= 3
    && (if s.gain <= edge then s.level == 0 else s.gain <= edge + 1 + s.level)
  }

  lemma AcquireNext(s: Loop, edge: int, dt: int)
    requires BACKOFF_MIN_DB <= edge < CREEP_MAX_DB && 0 < dt && Acquiring(s, edge)
    ensures Acquiring(Closed(s, edge, dt), edge) || Landed(Closed(s, edge, dt), edge)
  {
  }

  /** From a quiet start below the edge, the whole acquire overshoots it by at most four steps. */
  lemma {:induction false} AcquireOvershoot(s: Loop, edge: int, dts: seq<int>, m: int)
    requires BACKOFF_MIN_DB <= edge < CREEP_MAX_DB && Paced(s, m) && Jittered(dts, m)
    requires Acquiring(s, edge)
    ensures Polls(s, edge, dts).gain <= edge + 4
    decreases |dts|
  {
    if dts != [] {
      var t := Closed(s, edge, dts[0]);
      assert Paced(t, m);
      hide Closed;
      AcquireNext(s, edge, dts[0]);
      if Acquiring(t, edge) {
        AcquireOvershoot(t, edge, dts[1..], m);
      } else {
        LandedStays(t, edge, dts[1..], m);
      }
    }
  }

  // ---- Below the travel limit ----

  /** A gain at or under the back-off limit that still clips is never reduced: the lamp stays red. */
  lemma {:induction false} PinnedForever(s: Loop, edge: int, dts: seq<int>, m: int)
    requires Sane(s) && edge < s.gain <= BACKOFF_MIN_DB && s.level >= 4 && Jittered(dts, m)
    ensures Polls(s, edge, dts).gain == s.gain
    ensures dts != [] ==> Polls(s, edge, dts).tier == 2
    decreases |dts|
  {
    if dts != [] {
      var t := Closed(s, edge, dts[0]);
      assert t.gain == s.gain && t.level >= 4 && t.tier == 2 && Sane(t);
      hide Closed, Sane;
      PinnedForever(t, edge, dts[1..], m);
    }
  }
}
