/** What the two protections look at and when they act, in watts, percent and milliseconds. */
module ProtectionScope {
  import opened Basics
  import opened TxPower
  import opened CapServo
  import opened SwrProtect

  // ---- What they look at ----

  /** The cap is armed and set, and the station not in a tune: the only time the watts check looks. */
  predicate WattsLooks(c: Chain) {
    c.servo.armed && c.servo.capW > 0.0 && !c.tune
  }

  /** Protection is on, and not set aside for a tune: the only time the reflected-power check looks. */
  predicate SwrLooks(c: Chain) {
    c.policy.enabled && (!c.tune || c.policy.duringTune)
  }

  /** Thirty percent over the cap, at or above the forward floor, on a meter that reads. */
  predicate TooMuch(c: Chain, s: Sample) {
    s.cal.Watts? && s.cal.fwd >= c.policy.fwdFloor && s.cal.fwd > 1.3 * c.servo.capW
  }

  /** A tick past the blanking with the evaluator running. */
  predicate Looking(c: Chain) {
    c.watch.running && (c.watch.ticks + 1) * 50 >= c.policy.blankMs
  }

  /** Exactly how a tick counts for the watts check, in those terms. */
  lemma WattsCounts(c: Chain, s: Sample)
    ensures WattsVerdict(c, s) ==
            if !Looking(c) then Skipped
            else if !WattsLooks(c) || !TooMuch(c, s) then Verdict.Quiet
            else if (c.watch.wattsOver + 1) * 50 >= c.policy.dwellMs then Acted
            else Loud
  {
  }

  lemma SwrCounts(c: Chain, s: Sample)
    ensures SwrVerdict(c, s) ==
            if !Looking(c) || WattsVerdict(c, s).Acted? || !SwrLooks(c) then Skipped
            else if !Reflects(c.policy, s) then Verdict.Quiet
            else if (c.watch.swrOver + 1) * 50 >= c.policy.dwellMs then Acted
            else Loud
  {
    hide Reflects, WattsVerdict;
  }

  /** A reading that neither check has anything against. */
  predicate Harmless(c: Chain, s: Sample) {
    (!WattsLooks(c) || !TooMuch(c, s)) && (!SwrLooks(c) || !Reflects(c.policy, s))
  }

  /** The floors: a meter without a reading, or one under its floor, is nothing against anybody. */
  lemma UnderTheFloors(c: Chain, s: Sample)
    ensures (s.fwd.NoReading? || s.fwd.fwd < c.policy.fwdFloor || s.rev.NoReading? || s.rev.fwd < c.policy.revFloor) ==> !Reflects(c.policy, s)
    ensures (s.cal.NoReading? || s.cal.fwd < c.policy.fwdFloor) ==> !TooMuch(c, s)
  {
  }

  /** Only the servo may touch the chain on such a reading, and only in a tune under an active cap. */
  lemma HarmlessTick(c: Chain, s: Sample)
    requires Harmless(c, s)
    ensures var t := Eval(c, s);
            && t.watch.running == c.watch.running && t.watch.cut == c.watch.cut && t.watch.tripped == c.watch.tripped
            && t.policy == c.policy && t.tune == c.tune
            && t.servo == if Looking(c) && c.tune && c.servo.armed && c.servo.capW > 0.0 then Tick(c.servo, s.cal) else c.servo
  {
    hide Fold, Tick, Reflects;
    WattsCounts(c, s);
    SwrCounts(c, s);
  }

  ghost predicate AllHarmless(c: Chain, samples: seq<Sample>)
    decreases |samples|
  {
    samples == [] || (AllHarmless(c, samples[..|samples| - 1]) && Harmless(Run(c, samples[..|samples| - 1]), samples[|samples| - 1]))
  }

  /** Over any run of harmless readings outside a tune nothing at all happens to drive, key, lamp and learning. */
  lemma {:induction false} HarmlessRun(c: Chain, samples: seq<Sample>)
    requires AllHarmless(c, samples) && !c.tune
    ensures var t := Run(c, samples);
            && t.servo == c.servo && t.policy == c.policy && !t.tune
            && t.watch.running == c.watch.running && t.watch.cut == c.watch.cut && t.watch.tripped == c.watch.tripped
    decreases |samples|
  {
    if samples != [] {
      hide Eval, Harmless;
      HarmlessRun(c, samples[..|samples| - 1]);
      HarmlessTick(Run(c, samples[..|samples| - 1]), samples[|samples| - 1]);
    }
  }

  /** With protection off and no cap armed and set, every reading is harmless, in a tune or not. */
  lemma {:induction false} OffMeansOff(c: Chain, samples: seq<Sample>)
    requires !c.policy.enabled && (!c.servo.armed || c.servo.capW <= 0.0)
    ensures var t := Run(c, samples);
            && t.servo == c.servo && t.policy == c.policy
            && t.watch.running == c.watch.running && t.watch.cut == c.watch.cut && t.watch.tripped == c.watch.tripped
    decreases |samples|
  {
    if samples != [] {
      hide Eval, Tick, Looking, TooMuch, Reflects;
      OffMeansOff(c, samples[..|samples| - 1]);
      HarmlessTick(Run(c, samples[..|samples| - 1]), samples[|samples| - 1]);
    }
  }

  // ---- The switches and the slider ----

  /** Switched on while keyed, protection starts a fresh window; switched off, it stops looking; unkeyed, only the setting moves. */
  lemma SwitchStartsFresh(c: Chain, on: bool, keyed: bool)
    ensures var t := SetEnabled(c, on, keyed);
            && t.servo == c.servo && t.tune == c.tune && t.policy == c.policy.(enabled := on)
            && (on == c.policy.enabled || !keyed ==> t.watch == c.watch)
            && (on && !c.policy.enabled && keyed ==> t.watch == c.watch.(running := true, ticks := 0, swrOver := 0))
            && (!on && c.policy.enabled && keyed ==> t.watch == c.watch.(running := false))
  {
  }

  /** Switching protection on in the middle of a transmission: nothing acts until the blanking is over again. */
  lemma {:induction false} FreshWindowIsBlanked(c: Chain, samples: seq<Sample>)
    requires !c.policy.enabled && 50 * |samples| < c.policy.blankMs
    ensures var t := Run(SetEnabled(c, true, true), samples);
            t.servo == c.servo && t.watch.running && t.watch.cut == c.watch.cut && t.watch.ticks == |samples|
            && t.policy == c.policy.(enabled := true)
    decreases |samples|
  {
    SwitchStartsFresh(c, true, true);
    if samples != [] {
      hide EvalAwake, SetEnabled;
      FreshWindowIsBlanked(c, samples[..|samples| - 1]);
    }
  }

  /** A tune that begins on the air puts the lamp out and keeps the counters; any other turn of the switch keeps them all. */
  lemma TuneResetsTheLamp(c: Chain, on: bool, onAir: bool)
    ensures var t := SetTune(c, on, onAir);
            && t.tune == on && t.policy == c.policy
            && t.watch == (if on && !c.tune && onAir then c.watch.(tripped := false) else c.watch)
  {
    hide RestoreFolded, CeilingRaw;
  }

  /** The slider takes effect at once within the maximum, and is stored unless it is where the drive is already. */
  lemma SliderTakesEffect(d: Drive, level: int)
    requires 0 <= level <= d.maxRaw <= 255
    ensures var t := SetDrive(d, level);
            t.level == level && t.folded == d.folded && t.maxRaw == d.maxRaw && t.stored == if level == d.level then d.stored else level
  {
  }

  // ---- When they act ----

  /** A fresh key-down. */
  ghost predicate JustArmed(c: Chain) {
    c.watch == Watch(true, 0, 0, 0, false, false)
  }

  /** After n ticks of a reading over the limit, none of them acting yet. */
  ghost predicate Building(c: Chain, t: Chain, n: nat) {
    && t == c.(watch := t.watch)
    && t.watch.running && t.watch.ticks == n && !t.watch.cut && !t.watch.tripped && t.watch.wattsOver == 0
    && t.watch.swrOver == Built(c.policy, n)
  }

  /** The ticks past the blanking among the first n. */
  function Built(p: Policy, n: nat): nat {
    if n == 0 then 0 else Built(p, n - 1) + (if n * 50 >= p.blankMs then 1 else 0)
  }

  lemma BuildingTick(c: Chain, t: Chain, s: Sample, n: nat)
    requires Building(c, t, n) && SwrLooks(c) && Reflects(c.policy, s) && (!WattsLooks(c) || !TooMuch(c, s)) && !c.tune
    requires (n + 1) * 50 < c.policy.blankMs || Built(c.policy, n + 1) * 50 < c.policy.dwellMs
    ensures Building(c, Eval(t, s), n + 1)
  {
    hide Fold, Tick, Reflects;
    WattsCounts(t, s);
    SwrCounts(t, s);
  }

  /** The first tick that acts: half the drive, but not below the floor, and the lamp; or, cutting, the key. */
  lemma ActingTick(c: Chain, t: Chain, s: Sample, n: nat)
    requires Building(c, t, n) && SwrLooks(c) && Reflects(c.policy, s) && (!WattsLooks(c) || !TooMuch(c, s)) && !c.tune
    requires (n + 1) * 50 >= c.policy.blankMs && Built(c.policy, n + 1) * 50 >= c.policy.dwellMs
    requires 1 <= c.policy.foldMinPct <= 90 && 0 <= c.servo.drive.level <= c.servo.drive.maxRaw <= 255
    ensures var u, floor := Eval(t, s), PercentOf(c.policy.foldMinPct);
            && u.watch.tripped
            && (if c.policy.fold && c.servo.drive.level > floor
                then u.watch.running && !u.watch.cut && u.servo.drive.folded
                     && u.servo.drive.level == Max(floor, c.servo.drive.level / 2)
                else u.watch.cut && !u.watch.running && u.servo.drive.level == c.servo.drive.level)
  {
    hide Tick, Reflects;
    WattsCounts(t, s);
    SwrCounts(t, s);
    FloorIsPercent(c.policy);
  }

  /** A percentage of full drive, rounded down, but one at the least. */
  function PercentOf(pct: int): int {
    Max(1, 255 * pct / 100)
  }

  lemma FloorIsPercent(p: Policy)
    requires 1 <= p.foldMinPct <= 90
    ensures FloorLevel(p) == PercentOf(p.foldMinPct)
  {
  }

  /** Every reading over the limit, none over the watts cap. */
  predicate Steadily(c: Chain, samples: seq<Sample>) {
    forall i :: 0 <= i < |samples| ==> Reflects(c.policy, samples[i]) && (!WattsLooks(c) || !TooMuch(c, samples[i]))
  }

  /**
   * From a key-down, with a steady reflection: exactly nothing until the ticks past the blanking make
   * up the dwell, and on that very tick the first action.
   */
  lemma {:induction false} FirstAction(c: Chain, samples: seq<Sample>)
    requires JustArmed(c) && !c.tune && c.policy.enabled && Steadily(c, samples)
    requires forall n: nat :: n < |samples| ==> Built(c.policy, n) * 50 < c.policy.dwellMs || Built(c.policy, n) == 0
    requires 1 <= c.policy.foldMinPct <= 90 && 0 <= c.servo.drive.level <= c.servo.drive.maxRaw <= 255
    ensures var n, t, floor := |samples|, Run(c, samples), PercentOf(c.policy.foldMinPct);
            if Built(c.policy, n) == 0 || Built(c.policy, n) * 50 < c.policy.dwellMs then
              t.servo == c.servo && t.watch.running && !t.watch.cut && !t.watch.tripped
            else if c.policy.fold && c.servo.drive.level > floor then
              t.watch.running && t.watch.tripped && t.servo.drive.folded && t.servo.drive.level == Max(floor, c.servo.drive.level / 2)
            else
              t.watch.cut && !t.watch.running && t.watch.tripped && t.servo.drive.level == c.servo.drive.level
  {
    hide Eval, Reflects, TooMuch;
    if samples != [] {
      var front, s := samples[..|samples| - 1], samples[|samples| - 1];
      StillBuilding(c, front);
      BuiltStep(c.policy, |front|);
      if Built(c.policy, |samples|) == 0 || Built(c.policy, |samples|) * 50 < c.policy.dwellMs {
        BuildingTick(c, Run(c, front), s, |front|);
      } else {
        ActingTick(c, Run(c, front), s, |front|);
      }
    }
  }

  lemma BuiltStep(p: Policy, n: nat)
    ensures Built(p, n + 1) == Built(p, n) + (if (n + 1) * 50 >= p.blankMs then 1 else 0)
  {
  }

  lemma {:induction false} StillBuilding(c: Chain, samples: seq<Sample>)
    requires JustArmed(c) && !c.tune && c.policy.enabled && Steadily(c, samples)
    requires forall n: nat :: n <= |samples| ==> Built(c.policy, n) * 50 < c.policy.dwellMs || Built(c.policy, n) == 0
    ensures Building(c, Run(c, samples), |samples|)
    decreases |samples|
  {
    hide Eval, Reflects, TooMuch;
    if samples != [] {
      StillBuilding(c, samples[..|samples| - 1]);
      BuiltStep(c.policy, |samples| - 1);
      assert Built(c.policy, |samples|) * 50 < c.policy.dwellMs || Built(c.policy, |samples|) == 0;
      BuildingTick(c, Run(c, samples[..|samples| - 1]), samples[|samples| - 1], |samples| - 1);
    }
  }
}
