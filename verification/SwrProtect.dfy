/** Reflected-power protection and the reactive watts cap: one evaluator, two dwell counters, one fold. */
module SwrProtect {
  import opened Basics
  import opened TxPower
  import opened CapServo

  const EVAL_MS := 50

  /** The operator's protection settings. */
  datatype Policy = Policy(
    blankMs: nat,
    dwellMs: nat,
    fwdFloor: real,
    revFloor: real,
    foldMinPct: int,      // 1..90
    limit: real,          // 1.5..10
    fold: bool,           // fold, or cut at once
    enabled: bool,
    duringTune: bool)

  datatype Watch = Watch(
    running: bool,        // the 50 ms evaluator
    ticks: nat,
    swrOver: nat,
    wattsOver: nat,
    tripped: bool,        // the lamp
    cut: bool)            // it has asked for the key to drop

  datatype Chain = Chain(servo: Servo, policy: Policy, tune: bool, watch: Watch)

  /** One set of meter readings; rho stands for the square root of rev over fwd. */
  datatype Sample = Sample(fwd: Meter, cal: Meter, rev: Meter, rho: real)

  predicate AtLeast(m: Meter, x: real) {
    m.Watts? && m.fwd >= x
  }

  predicate CapActive(s: Servo) {
    s.capW > 0.0 && s.armed
  }

  function Ratio(rho: real): real
    requires rho <= 0.999
  {
    (1.0 + rho) / (1.0 - rho)
  }

  /** A reflected-power reading at or over the limit. */
  predicate Reflects(p: Policy, s: Sample) {
    && AtLeast(s.fwd, p.fwdFloor) && AtLeast(s.rev, p.revFloor)
    && (s.fwd.fwd == 0.0 || !(Ratio(if s.rho > 0.999 then 0.999 else s.rho) < p.limit))
  }

  predicate OverPower(c: Chain, s: Sample) {
    !c.tune && CapActive(c.servo) && AtLeast(s.cal, c.policy.fwdFloor) && s.cal.fwd > c.servo.capW * 1.30
  }

  predicate FullDwell(p: Policy, count: nat) {
    count * EVAL_MS >= p.dwellMs
  }

  function FloorLevel(p: Policy): int {
    Clamp(255 * p.foldMinPct / 100, 1, 255)
  }

  function WithDrive(c: Chain, d: Drive): Chain {
    c.(servo := c.servo.(drive := d))
  }

  function Cut(c: Chain): Chain {
    c.(watch := c.watch.(running := false, tripped := true, cut := true))
  }

  /** One step of the fold: half the drive, not below the floor; at the floor, cut. */
  function Fold(c: Chain): (r: Chain)
    ensures r.watch.ticks == c.watch.ticks && r.watch.swrOver == c.watch.swrOver && r.watch.wattsOver == c.watch.wattsOver
    ensures r.watch.running == c.watch.running || r.watch.cut
    ensures r.policy == c.policy && r.tune == c.tune
  {
    var d := c.servo.drive.(folded := true);
    if d.level <= FloorLevel(c.policy) then Cut(WithDrive(c, d))
    else
      var t := WithDrive(c, ApplyLevel(d, Max(FloorLevel(c.policy), d.level / 2)));
      t.(watch := t.watch.(tripped := true))
  }

  function WattsCounted(c: Chain, over: nat): Chain {
    c.(watch := c.watch.(wattsOver := over))
  }

  function FoldWatts(c: Chain): Chain {
    Fold(WattsCounted(c, 0))
  }

  function ActOnSwr(c: Chain): Chain {
    var t := c.(watch := c.watch.(swrOver := 0));
    if c.policy.fold then Fold(t) else Cut(t)
  }

  predicate SwrWatched(c: Chain) {
    c.policy.enabled && !(c.tune && !c.policy.duringTune)
  }

  function EvalSwr(c: Chain, s: Sample): Chain {
    if !SwrWatched(c) then c
    else if !Reflects(c.policy, s) then c.(watch := c.watch.(swrOver := 0))
    else
      var t := c.(watch := c.watch.(swrOver := c.watch.swrOver + 1));
      if FullDwell(c.policy, t.watch.swrOver) then ActOnSwr(t) else t
  }

  /** In a tune under an active cap the servo learns from the same reading. */
  function Learn(c: Chain, m: Meter): Chain {
    if CapActive(c.servo) && c.tune then c.(servo := Tick(c.servo, m)) else c
  }

  /** The tick of the evaluator, past its key-down blanking. */
  function EvalAwake(c: Chain, s: Sample): Chain {
    if OverPower(c, s) && FullDwell(c.policy, c.watch.wattsOver + 1) then FoldWatts(c)
    else
      var t := WattsCounted(c, if OverPower(c, s) then c.watch.wattsOver + 1 else 0);
      EvalSwr(Learn(t, s.cal), s)
  }

  predicate Blanked(p: Policy, ticks: nat) {
    ticks * EVAL_MS < p.blankMs
  }

  function Eval(c: Chain, s: Sample): Chain {
    if !c.watch.running then c
    else
      var t := c.(watch := c.watch.(ticks := c.watch.ticks + 1));
      if Blanked(c.policy, t.watch.ticks) then t else EvalAwake(t, s)
  }

  /** Key-down: a fresh window, and whatever was folded away comes back. */
  function Arm(c: Chain): Chain {
    Chain(c.servo.(drive := RestoreFolded(c.servo.drive, CeilingRaw(c.servo))), c.policy, c.tune,
          Watch(true, 0, 0, 0, false, false))
  }

  function Disarm(c: Chain): Chain {
    c.(watch := c.watch.(running := false))
  }

  function SetEnabled(c: Chain, on: bool, keyed: bool): Chain {
    if on == c.policy.enabled then c
    else
      var t := c.(policy := c.policy.(enabled := on));
      if !keyed then t
      else if on then t.(watch := t.watch.(running := true, ticks := 0, swrOver := 0))
      else Disarm(t)
  }

  /** The tune switch: going into a tune on the air hands a fold back and puts the lamp out. */
  function SetTune(c: Chain, on: bool, onAir: bool): Chain {
    if on == c.tune then c
    else
      var t := c.(tune := on);
      if on && onAir then
        WithDrive(t, RestoreFolded(t.servo.drive, CeilingRaw(t.servo))).(watch := t.watch.(tripped := false))
      else t
  }

  /** The operator's slider: nothing is stored when the applied drive does not change. */
  function SetDrive(d: Drive, level: int): Drive {
    var clamped := Min(d.maxRaw, Clamp(level, 0, 255));
    if clamped == d.level then d else d.(level := clamped, stored := clamped)
  }

  function Run(c: Chain, samples: seq<Sample>): Chain
    decreases |samples|
  {
    if samples == [] then c else Eval(Run(c, samples[..|samples| - 1]), samples[|samples| - 1])
  }

  // ---- The drive under a fold ----

  ghost predicate Settings(c: Chain) {
    && 1 <= c.policy.foldMinPct <= 90
    && 0 <= c.servo.drive.level <= c.servo.drive.maxRaw <= 255
  }

  /** Folds left before the floor. */
  function Halvings(level: int, floor: int): nat
    requires floor >= 1
    decreases level
  {
    if level <= floor then 0 else 1 + Halvings(Max(floor, level / 2), floor)
  }

  function HalvingsLeft(c: Chain): nat {
    Halvings(c.servo.drive.level, FloorLevel(c.policy))
  }

  function FoldsIn(c: Chain, samples: seq<Sample>): nat
    decreases |samples|
  {
    if samples == [] then 0
    else
      var before := Run(c, samples[..|samples| - 1]);
      FoldsIn(c, samples[..|samples| - 1])
        + (if Eval(before, samples[|samples| - 1]).servo.drive.level < before.servo.drive.level then 1 else 0)
  }

  /** What one tick can do to the chain. */
  ghost predicate Steps(c: Chain, t: Chain) {
    && t.policy == c.policy && t.tune == c.tune
    && t.servo == c.servo.(drive := c.servo.drive.(level := t.servo.drive.level, folded := t.servo.drive.folded))
    && (c.servo.drive.folded ==> t.servo.drive.folded)
    && (t.watch.cut ==> c.watch.cut || !t.watch.running)
    && (t.servo.drive.level == c.servo.drive.level
        || (&& c.servo.drive.level > FloorLevel(c.policy) && t.servo.drive.folded
            && t.servo.drive.level == Max(FloorLevel(c.policy), c.servo.drive.level / 2)))
  }

  lemma FoldSteps(c: Chain)
    requires Settings(c)
    ensures Steps(c, Fold(c))
    ensures Settings(Fold(c))
    ensures c.servo.drive.level > FloorLevel(c.policy) ==> Fold(c).servo.drive.level < c.servo.drive.level
    ensures Fold(c).watch.cut == (c.watch.cut || c.servo.drive.level <= FloorLevel(c.policy))
  {
  }

  /** Counters do not matter to what a tick may do. */
  lemma StepsUnder(c: Chain, u: Chain, t: Chain)
    requires u == c.(watch := u.watch) && u.watch.cut == c.watch.cut && Steps(u, t) && Settings(t)
    ensures Steps(c, t)
  {
  }

  lemma EvalSwrSteps(c: Chain, s: Sample)
    requires Settings(c)
    ensures Steps(c, EvalSwr(c, s)) && Settings(EvalSwr(c, s))
  {
    hide Reflects, FullDwell, FloorLevel;
    var u := c.(watch := c.watch.(swrOver := 0));
    Recounted(c, c.watch);
    Recounted(c, u.watch);
    Recounted(c, c.watch.(swrOver := c.watch.swrOver + 1));
    FoldSteps(u);
    CutSteps(u);
    hide Fold, Cut, Settings;
    StepsUnder(c, u, Fold(u));
    StepsUnder(c, u, Cut(u));
    hide Steps;
  }

  lemma CutSteps(c: Chain)
    requires Settings(c)
    ensures Steps(c, Cut(c)) && Settings(Cut(c))
  {
  }

  lemma Recounted(c: Chain, w: Watch)
    requires Settings(c) && w.cut == c.watch.cut
    ensures var t := c.(watch := w); Steps(c, t) && Settings(t)
  {
  }

  lemma FoldWattsSteps(c: Chain)
    requires Settings(c)
    ensures Steps(c, FoldWatts(c)) && Settings(FoldWatts(c))
  {
    hide FloorLevel;
    var u := WattsCounted(c, 0);
    Recounted(c, u.watch);
    FoldSteps(u);
    hide Fold, Settings;
    StepsUnder(c, u, Fold(u));
    hide Steps;
  }

  lemma CountedSteps(c: Chain, over: nat, s: Sample)
    requires Settings(c)
    ensures var t := EvalSwr(WattsCounted(c, over), s);
            Steps(c, t) && Settings(t) && (!c.tune ==> t == EvalSwr(Learn(WattsCounted(c, over), s.cal), s))
  {
    hide FloorLevel;
    var v := WattsCounted(c, over);
    Recounted(c, v.watch);
    EvalSwrSteps(v, s);
    hide EvalSwr, Settings;
    StepsUnder(c, v, EvalSwr(v, s));
    hide Steps;
  }

  lemma EvalAwakeSteps(c: Chain, s: Sample)
    requires Settings(c) && !c.tune
    ensures Steps(c, EvalAwake(c, s)) && Settings(EvalAwake(c, s))
  {
    hide Steps, Settings, FoldWatts, EvalSwr, WattsCounted, OverPower, FullDwell, Learn;
    FoldWattsSteps(c);
    CountedSteps(c, if OverPower(c, s) then c.watch.wattsOver + 1 else 0, s);
  }

  lemma EvalSteps(c: Chain, s: Sample)
    requires Settings(c) && !c.tune
    ensures Steps(c, Eval(c, s)) && Settings(Eval(c, s))
  {
    hide EvalAwake, FloorLevel, Blanked;
    var t := c.(watch := c.watch.(ticks := c.watch.ticks + 1));
    Recounted(c, c.watch);
    Recounted(c, t.watch);
    EvalAwakeSteps(t, s);
    hide Settings;
    StepsUnder(c, t, EvalAwake(t, s));
    hide Steps;
  }

  /**
   * Over any readings of one keyed window without a tune: the drive never rises and is never folded
   * below the floor, the stored slider and everything learned stay, and folds made plus folds left
   * is constant.
   */
  lemma {:induction false} DriveOnlyFolds(c: Chain, samples: seq<Sample>)
    requires Settings(c) && !c.tune
    ensures var t := Run(c, samples);
            && Settings(t) && !t.tune && t.policy == c.policy
            && t.servo == c.servo.(drive := c.servo.drive.(level := t.servo.drive.level, folded := t.servo.drive.folded))
            && Min(c.servo.drive.level, FloorLevel(c.policy)) <= t.servo.drive.level <= c.servo.drive.level
            && (t.servo.drive.level < c.servo.drive.level ==> t.servo.drive.folded)
            && (c.servo.drive.folded ==> t.servo.drive.folded)
            && FoldsIn(c, samples) + HalvingsLeft(t) == HalvingsLeft(c)
  {
    if samples == [] {
    } else {
      var before, s := Run(c, samples[..|samples| - 1]), samples[|samples| - 1];
      DriveOnlyFolds(c, samples[..|samples| - 1]);
      EvalSteps(before, s);
      hide Eval, FloorLevel;
    }
  }

  /** Whatever the floor, at most seven folds come before the cut. */
  lemma SevenFolds(c: Chain, samples: seq<Sample>)
    requires Settings(c) && !c.tune
    ensures FoldsIn(c, samples) <= 7
  {
    DriveOnlyFolds(c, samples);
    HalvingsFit(c.servo.drive.level, FloorLevel(c.policy), 7);
  }

  lemma {:induction false} HalvingsFit(level: int, floor: int, k: nat)
    requires floor >= 1 && level < 2 * Pow2(k)
    ensures Halvings(level, floor) <= k
    decreases k
  {
    if level > floor && k > 0 {
      if level / 2 > floor {
        HalvingsFit(level / 2, floor, k - 1);
      }
    }
  }

  // ---- What it takes to act ----

  /** How one tick counts for one of the two checks. */
  datatype Verdict = Skipped | Quiet | Loud | Acted

  predicate Awake(c: Chain) {
    c.watch.running && !Blanked(c.policy, c.watch.ticks + 1)
  }

  function WattsVerdict(c: Chain, s: Sample): Verdict {
    if !Awake(c) then Skipped
    else if !OverPower(c, s) then Quiet
    else if FullDwell(c.policy, c.watch.wattsOver + 1) then Acted
    else Loud
  }

  function SwrVerdict(c: Chain, s: Sample): Verdict {
    if !Awake(c) || WattsVerdict(c, s).Acted? || !SwrWatched(c) then Skipped
    else if !Reflects(c.policy, s) then Quiet
    else if FullDwell(c.policy, c.watch.swrOver + 1) then Acted
    else Loud
  }

  function SwrTrace(c: Chain, samples: seq<Sample>): (tr: seq<Verdict>)
    ensures |tr| == |samples|
    decreases |samples|
  {
    if samples == [] then []
    else
      var front := samples[..|samples| - 1];
      SwrTrace(c, front) + [SwrVerdict(Run(c, front), samples[|samples| - 1])]
  }

  function WattsTrace(c: Chain, samples: seq<Sample>): (tr: seq<Verdict>)
    ensures |tr| == |samples|
    decreases |samples|
  {
    if samples == [] then []
    else
      var front := samples[..|samples| - 1];
      WattsTrace(c, front) + [WattsVerdict(Run(c, front), samples[|samples| - 1])]
  }

  /** Over-limit ticks since the last tick that was under the limit or acted. */
  function Streak(tr: seq<Verdict>): nat
    decreases |tr|
  {
    if tr == [] then 0
    else
      match tr[|tr| - 1]
      case Skipped => Streak(tr[..|tr| - 1])
      case Loud => Streak(tr[..|tr| - 1]) + 1
      case _ => 0
  }

  function LoudIn(tr: seq<Verdict>): nat
    decreases |tr|
  {
    if tr == [] then 0 else LoudIn(tr[..|tr| - 1]) + (if tr[|tr| - 1].Loud? then 1 else 0)
  }

  ghost predicate Unbroken(tr: seq<Verdict>) {
    forall i :: 0 <= i < |tr| ==> tr[i].Loud? || tr[i].Skipped?
  }

  lemma {:induction false} StreakWitness(tr: seq<Verdict>) returns (j: nat)
    ensures j <= |tr| && Unbroken(tr[j..]) && LoudIn(tr[j..]) == Streak(tr)
    decreases |tr|
  {
    if tr == [] || tr[|tr| - 1].Quiet? || tr[|tr| - 1].Acted? {
      j := |tr|;
    } else {
      var front := tr[..|tr| - 1];
      j := StreakWitness(front);
      assert tr[j..] == front[j..] + [tr[|tr| - 1]];
      assert tr[j..][..|tr[j..]| - 1] == front[j..];
    }
  }

  /** The reflected-power counter after one tick, from the verdict alone. */
  lemma SwrCounted(c: Chain, s: Sample)
    ensures Eval(c, s).watch.swrOver ==
            match SwrVerdict(c, s) { case Skipped => c.watch.swrOver case Loud => c.watch.swrOver + 1 case _ => 0 }
  {
    hide Fold, Reflects, FullDwell, Blanked, Tick, CapActive, AtLeast;
  }

  lemma WattsCountedBy(c: Chain, s: Sample)
    ensures Eval(c, s).watch.wattsOver ==
            match WattsVerdict(c, s) { case Skipped => c.watch.wattsOver case Loud => c.watch.wattsOver + 1 case _ => 0 }
  {
    hide Fold, Reflects, FullDwell, Blanked, Tick, CapActive, AtLeast;
  }

  lemma Concerns(c: Chain, s: Sample)
    ensures Eval(c, s).policy == c.policy && Eval(c, s).tune == c.tune
  {
    hide Fold, Reflects, FullDwell, Blanked, Tick, OverPower, SwrWatched;
  }

  /** Both dwell counters are the unbroken over-limit streaks of the run, tune or no tune. */
  lemma {:induction false} CountersAreStreaks(c: Chain, samples: seq<Sample>)
    requires c.watch.swrOver == 0 && c.watch.wattsOver == 0
    ensures var t := Run(c, samples);
            && t.watch.swrOver == Streak(SwrTrace(c, samples))
            && t.watch.wattsOver == Streak(WattsTrace(c, samples))
            && t.policy == c.policy && t.tune == c.tune
    decreases |samples|
  {
    if samples == [] {
    } else {
      hide Eval, SwrVerdict, WattsVerdict;
      var front := samples[..|samples| - 1];
      CountersAreStreaks(c, front);
      var before, s := Run(c, front), samples[|samples| - 1];
      SwrCounted(before, s);
      WattsCountedBy(before, s);
      Concerns(before, s);
      var a, b := SwrTrace(c, samples), WattsTrace(c, samples);
      assert a[..|a| - 1] == SwrTrace(c, front) && a[|a| - 1] == SwrVerdict(before, s);
      assert b[..|b| - 1] == WattsTrace(c, front) && b[|b| - 1] == WattsVerdict(before, s);
    }
  }

  /** A full dwell of over-limit ticks, with no counted under-limit tick and no action between. */
  ghost predicate Dwelt(p: Policy, tr: seq<Verdict>) {
    exists j :: 0 <= j <= |tr| && Unbroken(tr[j..]) && FullDwell(p, LoudIn(tr[j..]) + 1)
  }

  /** Neither protection ever acts on less than its full dwell. */
  lemma ActsOnlyAfterDwell(c: Chain, samples: seq<Sample>, s: Sample)
    requires c.watch.swrOver == 0 && c.watch.wattsOver == 0
    ensures SwrVerdict(Run(c, samples), s).Acted? ==> Dwelt(c.policy, SwrTrace(c, samples))
    ensures WattsVerdict(Run(c, samples), s).Acted? ==> Dwelt(c.policy, WattsTrace(c, samples))
  {
    CountersAreStreaks(c, samples);
    var i := StreakWitness(SwrTrace(c, samples));
    var j := StreakWitness(WattsTrace(c, samples));
  }

  /** The drive or the key is touched on exactly the ticks where a check acts. */
  lemma ChangesOnlyWhenActing(c: Chain, s: Sample)
    requires Settings(c) && !c.tune
    ensures Eval(c, s).servo == c.servo && Eval(c, s).watch.running == c.watch.running && Eval(c, s).watch.cut == c.watch.cut
            <==> !SwrVerdict(c, s).Acted? && !WattsVerdict(c, s).Acted?
  {
    hide Fold, Reflects, FullDwell, Blanked, Tick, CapActive, AtLeast, FloorLevel, Settings;
    var t := c.(watch := c.watch.(ticks := c.watch.ticks + 1));
    Recounted(c, t.watch);
    FoldActs(t, 0, t.watch.swrOver);
    FoldActs(t, if OverPower(t, s) then t.watch.wattsOver + 1 else 0, 0);
  }

  lemma FoldActs(c: Chain, wattsOver: nat, swrOver: nat)
    requires Settings(c)
    ensures var u := Fold(c.(watch := c.watch.(wattsOver := wattsOver, swrOver := swrOver)));
            c.watch.running ==> u.servo != c.servo || !u.watch.running
  {
  }

  lemma QuotientAtLeast(a: real, b: real, x: real)
    requires b > 0.0
    ensures a / b >= x <==> a >= Times(x, b)
  {
    assert a / b * b == a;
    if a / b >= x {
      TimesMonotone(x, a / b, b);
    } else {
      StrictTimes(a / b, x, b);
    }
  }

  lemma StrictTimes(a: real, b: real, g: real)
    requires a < b && g > 0.0
    ensures Times(a, g) < Times(b, g)
  {
    assert (b - a) * g > 0.0;
  }

  lemma RatioIff(r: real, limit: real)
    requires 0.0 <= r <= 0.999
    ensures Ratio(r) >= limit <==> Times(limit + 1.0, r) >= limit - 1.0
  {
    QuotientAtLeast(1.0 + r, 1.0 - r, limit);
    assert Times(limit, 1.0 - r) == limit - limit * r;
    assert Times(limit + 1.0, r) == limit * r + r;
  }

  lemma SquareIff(a: real, b: real)
    requires a >= 0.0 && b >= 0.0
    ensures Times(a, a) >= Times(b, b) <==> a >= b
  {
    if a >= b {
      TimesMonotone(b, a, b);
      TimesMonotone(b, a, a);
    } else {
      StrictTimes(a, b, b);
      TimesMonotone(a, b, a);
    }
  }

  lemma Regrouped(k: real, r: real, fwd: real)
    ensures Times(Times(k, k), Times(Times(r, r), fwd)) == Times(Times(Times(k, r), Times(k, r)), fwd)
  {
    assert k * k * (r * r * fwd) == (k * r) * (k * r) * fwd;
  }

  /**
   * The limit in watts: it is met exactly where reverse over forward power reaches the square of
   * (limit - 1) / (limit + 1). The cap on the reflection coefficient never hides an over-limit.
   */
  lemma ReflectsIff(p: Policy, fwd: real, rev: real, rho: real, cal: Meter)
    requires 1.5 <= p.limit <= 10.0 && fwd > 0.0
    requires rho >= 0.0 && Times(Times(rho, rho), fwd) == rev
    ensures Reflects(p, Sample(Watts(fwd), cal, Watts(rev), rho))
            <==> fwd >= p.fwdFloor && rev >= p.revFloor
                 && Times(Times(p.limit + 1.0, p.limit + 1.0), rev) >= Times(Times(p.limit - 1.0, p.limit - 1.0), fwd)
  {
    hide Times, Ratio;
    var r := if rho > 0.999 then 0.999 else rho;
    RatioIff(r, p.limit);
    var a, b := Times(p.limit + 1.0, rho), p.limit - 1.0;
    CapHidesNothing(p.limit, rho);
    SquareIff(a, b);
    Regrouped(p.limit + 1.0, rho, fwd);
    if Times(a, a) >= Times(b, b) {
      TimesMonotone(Times(b, b), Times(a, a), fwd);
    } else {
      StrictTimes(Times(a, a), Times(b, b), fwd);
    }
  }

  lemma CapHidesNothing(limit: real, rho: real)
    requires 1.5 <= limit <= 10.0 && rho >= 0.0
    ensures Times(limit + 1.0, rho) >= 0.0
    ensures rho > 0.999 ==> Times(limit + 1.0, rho) >= limit - 1.0 && Times(limit + 1.0, 0.999) >= limit - 1.0
  {
    TimesMonotone(0.0, rho, limit + 1.0);
    if rho > 0.999 {
      TimesMonotone(0.999, rho, limit + 1.0);
    }
  }

  // ---- A fault that persists is cut ----

  /** Ticks of dwell, at least one. */
  function Needed(p: Policy): nat {
    if p.dwellMs == 0 then 1 else (p.dwellMs + EVAL_MS - 1) / EVAL_MS
  }

  lemma NeededDwells(p: Policy, count: nat)
    requires count >= 1
    ensures FullDwell(p, count) <==> count >= Needed(p)
  {
  }

  function TicksToCut(c: Chain, over: nat): int {
    Product(Needed(c.policy), HalvingsLeft(c) + 1) - over
  }

  function Product(a: nat, b: nat): nat {
    a * b
  }

  lemma OneFewer(a: nat, b: nat)
    requires b > 0
    ensures Product(a, b) == Product(a, b - 1) + a
  {
  }

  ghost predicate Live(c: Chain) {
    && Settings(c) && !c.tune && Awake(c)
  }

  /** A tick of a live evaluator, as far as the folds left and the key are concerned. */
  lemma LiveStep(c: Chain, s: Sample)
    requires Live(c)
    ensures var t := Eval(c, s);
            && Settings(t) && t.policy == c.policy && !t.tune
            && (if t.watch.running then Live(t) && HalvingsLeft(t) <= HalvingsLeft(c) else t.watch.cut)
            && (t.watch.running && (SwrVerdict(c, s).Acted? || WattsVerdict(c, s).Acted?) ==> HalvingsLeft(t) < HalvingsLeft(c))
  {
    EvalSteps(c, s);
    TicksOn(c, s);
    ChangesOnlyWhenActing(c, s);
    LevelMovesWhenActing(c, s);
    hide Eval, SwrVerdict, WattsVerdict, FloorLevel;
  }

  lemma TicksOn(c: Chain, s: Sample)
    ensures c.watch.running ==> Eval(c, s).watch.ticks == c.watch.ticks + 1
    ensures c.watch.running && !Eval(c, s).watch.running ==> Eval(c, s).watch.cut
  {
    hide Fold, Reflects, FullDwell, Blanked, Tick, OverPower;
  }

  lemma LevelMovesWhenActing(c: Chain, s: Sample)
    requires Settings(c) && !c.tune
    ensures var t := Eval(c, s);
            t.watch.running && (SwrVerdict(c, s).Acted? || WattsVerdict(c, s).Acted?) ==> t.servo.drive.level != c.servo.drive.level
  {
    hide Reflects, FullDwell, Blanked, Tick, CapActive, AtLeast, FloorLevel, Fold;
    var t := c.(watch := c.watch.(ticks := c.watch.ticks + 1));
    FoldMoves(WattsCounted(t, 0));
    var over := if OverPower(t, s) then t.watch.wattsOver + 1 else 0;
    FoldMoves(WattsCounted(t, over).(watch := WattsCounted(t, over).watch.(swrOver := 0)));
  }

  lemma FoldMoves(c: Chain)
    requires Settings(c)
    ensures Fold(c).watch.running ==> Fold(c).servo.drive.level < c.servo.drive.level || !c.watch.running
    ensures Fold(c).watch.running ==> Fold(c).servo.drive.level != c.servo.drive.level
  {
  }

  /** With every reading over the limit, the key drops within one dwell per fold left, plus one. */
  lemma {:induction false} SustainedReflectionCuts(c: Chain, samples: seq<Sample>)
    requires Live(c) && c.policy.enabled && c.watch.swrOver < Needed(c.policy)
    requires forall i :: 0 <= i < |samples| ==> Reflects(c.policy, samples[i])
    ensures var t := Run(c, samples);
            && t.policy == c.policy
            && (if t.watch.running
                then Live(t) && t.watch.swrOver < Needed(t.policy) && 0 < TicksToCut(t, t.watch.swrOver) <= TicksToCut(c, c.watch.swrOver) - |samples|
                else t.watch.cut)
    ensures |samples| >= TicksToCut(c, c.watch.swrOver) ==> Run(c, samples).watch.cut && !Run(c, samples).watch.running
    decreases |samples|
  {
    if samples == [] {
      OneFewer(Needed(c.policy), HalvingsLeft(c) + 1);
    } else {
      var front, s := samples[..|samples| - 1], samples[|samples| - 1];
      assert Reflects(c.policy, s);
      SustainedReflectionCuts(c, front);
      var before := Run(c, front);
      hide Eval, Live, Reflects, FullDwell, Needed, HalvingsLeft, Product;
      if before.watch.running {
        ReflectionStep(before, s);
      } else {
        StaysDown(before, s);
      }
    }
  }

  lemma StaysDown(c: Chain, s: Sample)
    requires !c.watch.running
    ensures Eval(c, s) == c
  {
  }

  lemma ReflectionStep(c: Chain, s: Sample)
    requires Live(c) && c.policy.enabled && c.watch.swrOver < Needed(c.policy) && Reflects(c.policy, s)
    ensures var t := Eval(c, s);
            && t.policy == c.policy
            && (if t.watch.running
                then Live(t) && t.watch.swrOver < Needed(t.policy) && 0 < TicksToCut(t, t.watch.swrOver) < TicksToCut(c, c.watch.swrOver)
                else t.watch.cut)
  {
    hide Eval, Reflects, FullDwell, Needed, HalvingsLeft, Product;
    LiveStep(c, s);
    SwrCounted(c, s);
    NeededDwells(c.policy, c.watch.swrOver + 1);
    var t := Eval(c, s);
    if t.watch.running {
      OneFewer(Needed(c.policy), HalvingsLeft(t) + 1);
      OneFewer(Needed(c.policy), HalvingsLeft(c) + 1);
      ProductUp(Needed(c.policy), HalvingsLeft(t), HalvingsLeft(c));
    }
  }

  lemma {:induction false} ProductUp(a: nat, b: nat, c: nat)
    requires b <= c
    ensures Product(a, b) <= Product(a, c)
    ensures b < c ==> Product(a, b) + a <= Product(a, c)
    decreases c
  {
    if b < c {
      hide Product;
      ProductUp(a, b, c - 1);
      OneFewer(a, c);
    }
  }

  /** The watts cap needs no reflected-power protection: over its limit it cuts just the same. */
  lemma {:induction false} SustainedPowerCuts(c: Chain, samples: seq<Sample>)
    requires Live(c) && c.watch.wattsOver < Needed(c.policy)
    requires forall i :: 0 <= i < |samples| ==> OverPower(c, samples[i])
    ensures var t := Run(c, samples);
            && t.policy == c.policy && t.servo.capW == c.servo.capW && t.servo.armed == c.servo.armed
            && (if t.watch.running
                then Live(t) && t.watch.wattsOver < Needed(t.policy) && 0 < TicksToCut(t, t.watch.wattsOver) <= TicksToCut(c, c.watch.wattsOver) - |samples|
                else t.watch.cut)
    ensures |samples| >= TicksToCut(c, c.watch.wattsOver) ==> Run(c, samples).watch.cut && !Run(c, samples).watch.running
    decreases |samples|
  {
    if samples == [] {
      OneFewer(Needed(c.policy), HalvingsLeft(c) + 1);
    } else {
      var front, s := samples[..|samples| - 1], samples[|samples| - 1];
      assert OverPower(c, s);
      SustainedPowerCuts(c, front);
      var before := Run(c, front);
      hide Eval, FullDwell, Needed, HalvingsLeft, Product, Awake, Settings;
      if before.watch.running {
        assert OverPower(before, s);
        PowerStep(before, s);
      } else {
        StaysDown(before, s);
      }
    }
  }

  lemma PowerStep(c: Chain, s: Sample)
    requires Live(c) && c.watch.wattsOver < Needed(c.policy) && OverPower(c, s)
    ensures var t := Eval(c, s);
            && t.policy == c.policy && t.servo.capW == c.servo.capW && t.servo.armed == c.servo.armed
            && (if t.watch.running
                then Live(t) && t.watch.wattsOver < Needed(t.policy) && 0 < TicksToCut(t, t.watch.wattsOver) < TicksToCut(c, c.watch.wattsOver)
                else t.watch.cut)
  {
    LiveStep(c, s);
    EvalSteps(c, s);
    WattsCountedBy(c, s);
    NeededDwells(c.policy, c.watch.wattsOver + 1);
    hide Eval, OverPower, FullDwell, Needed, HalvingsLeft, Product;
    var t := Eval(c, s);
    OneFewer(Needed(c.policy), HalvingsLeft(t) + 1);
    OneFewer(Needed(c.policy), HalvingsLeft(c) + 1);
    ProductUp(Needed(c.policy), HalvingsLeft(t), HalvingsLeft(c));
  }

  /**
   * Turning reflected-power protection off while keyed stops the evaluator, and the watts cap with
   * it: whatever the meter reads, nothing is folded and nothing is cut until the next key-down.
   */
  lemma {:induction false} StandDownDropsTheWattsCap(c: Chain, samples: seq<Sample>)
    requires c.policy.enabled
    ensures var off := SetEnabled(c, false, true);
            Run(off, samples) == off && off.servo == c.servo && off.watch.cut == c.watch.cut
    decreases |samples|
  {
    if samples == [] {
    } else {
      StandDownDropsTheWattsCap(c, samples[..|samples| - 1]);
      StaysDown(SetEnabled(c, false, true), samples[|samples| - 1]);
      hide Eval;
    }
  }

  // ---- The next key-down ----

  /**
   * Whatever was folded in between, keying again restores the stored slider under the ceiling, with
   * the lamp out and both counters at nought.
   */
  lemma NextKeyDownRestores(c: Chain, samples: seq<Sample>)
    requires Settings(c) && !c.tune
    ensures var t := Arm(Run(c, samples));
            && t.watch == Watch(true, 0, 0, 0, false, false)
            && t.servo.drive.stored == c.servo.drive.stored && !t.servo.drive.folded
            && (if Run(c, samples).servo.drive.folded
                then t.servo.drive.level == Min(c.servo.drive.maxRaw, Clamp(Min(Clamp(c.servo.drive.stored, 0, 255), CeilingRaw(c.servo)), 0, 255))
                else t.servo.drive.level == c.servo.drive.level)
  {
    DriveOnlyFolds(c, samples);
    hide Run, FallbackRaw, FloorLevel, HalvingsLeft, FoldsIn;
  }

  /** Key-down, any readings, key-down: a drive that was the stored one under the ceiling comes back. */
  lemma FoldsAreUndone(c: Chain, samples: seq<Sample>)
    requires Settings(c) && !c.tune && !c.servo.drive.folded
    requires c.servo.drive.level == c.servo.drive.stored <= CeilingRaw(c.servo)
    ensures Arm(Run(c, samples)).servo == c.servo
  {
    NextKeyDownRestores(c, samples);
    DriveOnlyFolds(c, samples);
    hide Run, FallbackRaw, FloorLevel, HalvingsLeft, FoldsIn, CeilingRaw;
  }

  /**
   * The operator's request survives the next key-down except in one case: it asks for exactly the
   * folded level. That is taken for no change, is not stored, and the key-down undoes it.
   */
  lemma RequestKeptIff(d: Drive, level: int, ceiling: int)
    requires d.folded && 0 <= d.level <= d.maxRaw <= 255 && 0 <= d.stored <= d.maxRaw
    requires 0 <= level <= d.maxRaw && level <= ceiling
    ensures RestoreFolded(SetDrive(d, level), ceiling).level == level
            <==> level != d.level || Min(d.stored, ceiling) == level
  {
  }
}
