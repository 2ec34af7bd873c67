/** The watts cap: a conservative seed, a servo that walks the drive ceiling up to it, and a latch. */
module CapServo {
  import opened Basics
  import opened TxPower

  const STEP_TICKS := 3
  const STEP_RAW := 3           // fine step, and the coarse one of the first drive path
  const STEP_RAW_P2 := 12

  /** What is known of a band; root2 and root3 stand for the square and cube root of cap over full. */
  datatype Band = Band(
    fullW: real,          // measured full output, 0 if never measured
    ceilRaw: int,         // learned ceiling, negative if none
    ceilCapW: real,       // the cap it was learned for
    settled: bool,        // parked under the cap
    root2: real,
    root3: real)

  datatype Drive = Drive(
    level: int,           // applied drive
    stored: int,          // the operator's persisted slider
    folded: bool,         // a protection fold is in force
    maxRaw: int)

  datatype Servo = Servo(capW: real, armed: bool, p2: bool, band: Band, drive: Drive, ticks: int)

  /** The seed for a band with no learned ceiling. */
  function FallbackRaw(s: Servo): int {
    if s.band.fullW <= 0.0 then 255 * 30 / 100
    else if s.capW >= s.band.fullW then 255
    else
      var pct := if s.p2 then 100.0 * (s.capW / s.band.fullW) * 0.85 else 100.0 * s.band.root2;
      Clamp(LRound(pct * 255.0 / 100.0), 1, 255)
  }

  function HardMax(s: Servo): int {
    if s.p2 then 255 else Clamp(LRound(255.0 * s.band.root3), 1, 255)
  }

  function Near(a: real, b: real): bool {
    -0.01 < a - b < 0.01
  }

  predicate Tuned(s: Servo) {
    s.band.ceilRaw >= 0 && Near(s.band.ceilCapW, s.capW)
  }

  /** The ceiling the cap puts on the band; none while the cap is off. */
  function CeilingRaw(s: Servo): int {
    if !s.armed || s.capW <= 0.0 then 255
    else if Tuned(s) then s.band.ceilRaw else FallbackRaw(s)
  }

  function ApplyLevel(d: Drive, level: int): Drive {
    d.(level := Min(d.maxRaw, Clamp(level, 0, 255)))
  }

  /** Hands the persisted slider back after a fold, never above the ceiling. */
  function RestoreFolded(d: Drive, ceiling: int): Drive {
    if !d.folded then d else ApplyLevel(d.(folded := false), Min(Clamp(d.stored, 0, 255), ceiling))
  }

  /** Nothing to learn: the cap is at or above full output, or the first path has no reference. */
  predicate Idle(s: Servo) {
    !s.armed || s.capW <= 0.0 || (s.band.fullW > 0.0 && s.capW >= s.band.fullW) || (!s.p2 && s.band.fullW <= 0.0)
  }

  function WithCeil(s: Servo, ceil: int): Servo {
    s.(band := s.band.(ceilRaw := ceil))
  }

  function Seed(s: Servo): Servo {
    s.(band := s.band.(ceilRaw := FallbackRaw(s), ceilCapW := s.capW, settled := false), ticks := 0)
  }

  /** Brings a leftover ceiling back into the range of the walk. */
  function Bounded(s: Servo): Servo {
    var t := if s.band.ceilRaw > HardMax(s) then WithCeil(s, HardMax(s)) else s;
    if t.band.ceilRaw < FallbackRaw(t) && !t.band.settled then WithCeil(t, FallbackRaw(t)) else t
  }

  function Unfold(s: Servo): Servo {
    if !s.drive.folded then s
    else if s.band.settled then s.(drive := s.drive.(folded := false))
    else s.(drive := RestoreFolded(s.drive, CeilingRaw(s)))
  }

  /** One throttled decision on a reading. */
  function Decide(s: Servo, fwd: real): Servo {
    var ceil, requested, hardMax := s.band.ceilRaw, s.drive.level, HardMax(s);
    var pressing := requested >= ceil;
    var climb := if fwd >= s.capW * 0.85 then STEP_RAW else if s.p2 then STEP_RAW_P2 else STEP_RAW;
    if fwd > s.capW && ceil > 1 && pressing then
      s.(band := s.band.(ceilRaw := Max(1, ceil - STEP_RAW), settled := true))
    else if fwd >= s.capW * 0.97 && pressing then
      s.(band := s.band.(settled := true))
    else if !s.band.settled && pressing && requested > ceil && ceil < hardMax then
      WithCeil(s, Min(Min(hardMax, requested), ceil + climb))
    else s
  }

  datatype Meter = NoReading | Watts(fwd: real)

  function Tick(s: Servo, m: Meter): Servo {
    if Idle(s) then s
    else if !Tuned(s) then Seed(s)
    else
      var t := Unfold(Bounded(s));
      if m.NoReading? then t
      else if t.ticks + 1 < STEP_TICKS then t.(ticks := t.ticks + 1)
      else Decide(t.(ticks := 0), m.fwd)
  }

  // ---- The range of the walk ----

  /** Square and cube root of a ratio below one. */
  ghost predicate Roots(fullW: real, capW: real, root2: real, root3: real) {
    fullW > 0.0 && 0.0 < capW < fullW ==>
      && 0.0 < root2 < 1.0 && Times(root2, root2) == capW / fullW
      && 0.0 < root3 < 1.0 && Times(Times(root3, root3), root3) == capW / fullW
  }

  lemma SquareRootUnderCubeRoot(x: real, y: real)
    requires 0.0 < x < 1.0 && 0.0 < y < 1.0 && Times(x, x) == Times(Times(y, y), y)
    ensures x <= y
  {
    hide Times;
    Positive(y);
    TimesMonotone(y, 1.0, Times(y, y));
    TimesOne(Times(y, y));
    TimesCommutes(Times(y, y), y);
    TimesCommutes(Times(y, y), 1.0);
    if x > y {
      SquaresGrow(y, x);
    }
  }

  lemma Positive(y: real)
    requires y > 0.0
    ensures Times(y, y) >= 0.0
  {
  }

  lemma TimesCommutes(a: real, b: real)
    ensures Times(a, b) == Times(b, a)
  {
  }

  lemma SquaresGrow(y: real, x: real)
    requires 0.0 < y < x
    ensures Times(y, y) < Times(x, x)
  {
    assert y * y < y * x;
    assert y * x < x * x;
  }

  /** All the walk needs of the two roots of a cap below full output: their order. */
  ghost predicate RootsOrdered(fullW: real, capW: real, root2: real, root3: real) {
    fullW > 0.0 && 0.0 < capW < fullW ==> 0.0 < root2 <= root3 < 1.0
  }

  /** The square root of a ratio below one lies under its cube root. */
  lemma RootsAreOrdered(fullW: real, capW: real, root2: real, root3: real)
    requires Roots(fullW, capW, root2, root3)
    ensures RootsOrdered(fullW, capW, root2, root3)
  {
    hide Times;
    if fullW > 0.0 && 0.0 < capW < fullW {
      SquareRootUnderCubeRoot(root2, root3);
    }
  }

  /** On either drive path the walk starts at one or more, and not above the runaway bound. */
  lemma SeedUnderHardMax(s: Servo)
    requires RootsOrdered(s.band.fullW, s.capW, s.band.root2, s.band.root3) && !Idle(s)
    ensures 1 <= FallbackRaw(s) <= HardMax(s) <= 255
  {
    if !s.p2 {
      LRoundMonotone(255.0 * s.band.root2, 255.0 * s.band.root3);
      assert 100.0 * s.band.root2 * 255.0 / 100.0 == 255.0 * s.band.root2;
    }
  }

  /** The learned ceiling is a ceiling of the walk. */
  ghost predicate InRange(s: Servo) {
    RootsOrdered(s.band.fullW, s.capW, s.band.root2, s.band.root3) && 0 <= s.ticks < STEP_TICKS && (Tuned(s) ==> s.band.ceilRaw >= 1)
  }

  /** What a tick must leave alone: everything but the learning, the applied drive and the throttle. */
  ghost function Rig(s: Servo): Servo {
    Servo(s.capW, s.armed, s.p2, s.band.(ceilRaw := 0, ceilCapW := 0.0, settled := false), s.drive.(level := 0, folded := false), 0)
  }

  ghost predicate SameRig(s: Servo, t: Servo) {
    && Rig(s) == Rig(t)
    && FallbackRaw(t) == FallbackRaw(s) && HardMax(t) == HardMax(s) && Idle(t) == Idle(s)
  }

  lemma RigDecides(s: Servo, t: Servo)
    requires Rig(s) == Rig(t)
    ensures SameRig(s, t)
  {
    assert s.band.fullW == Rig(s).band.fullW && s.band.root2 == Rig(s).band.root2 && s.band.root3 == Rig(s).band.root3;
    assert t.band.fullW == Rig(t).band.fullW && t.band.root2 == Rig(t).band.root2 && t.band.root3 == Rig(t).band.root3;
  }

  lemma BoundedRig(s: Servo)
    ensures Rig(Bounded(s)) == Rig(s)
  {
    hide FallbackRaw, HardMax;
  }

  lemma UnfoldRig(s: Servo)
    ensures Rig(Unfold(s)) == Rig(s)
  {
    hide CeilingRaw, Min, Clamp;
  }

  lemma DecideRig(s: Servo, fwd: real)
    ensures Rig(Decide(s, fwd)) == Rig(s)
  {
    hide HardMax, Min, Max;
  }

  /** A tick touches the learned ceiling, its latch, the applied drive and the throttle, and nothing else. */
  lemma TickFrame(s: Servo, m: Meter)
    ensures SameRig(s, Tick(s, m))
  {
    BoundedRig(s);
    UnfoldRig(Bounded(s));
    var t := Unfold(Bounded(s));
    if m.Watts? {
      DecideRig(t.(ticks := 0), m.fwd);
    }
    hide Unfold, Bounded, Decide, Idle, Tuned, FallbackRaw;
    RigDecides(s, Tick(s, m));
  }

  /** A walk that is where it should be: from the seed up to the runaway bound. */
  ghost predicate Walking(s: Servo) {
    && InRange(s) && !Idle(s) && Tuned(s)
    && (s.band.settled || FallbackRaw(s) <= s.band.ceilRaw) && s.band.ceilRaw <= HardMax(s) <= 255
  }

  lemma DecideInRange(s: Servo, fwd: real)
    requires 1 <= s.band.ceilRaw <= HardMax(s)
    ensures var t := Decide(s, fwd);
            && 1 <= t.band.ceilRaw <= HardMax(s) && t.ticks == s.ticks && (t.band.settled || s.band.ceilRaw <= t.band.ceilRaw)
            && (s.band.settled ==> t.band.settled) && t.band.ceilCapW == s.band.ceilCapW
  {
    hide HardMax;
  }

  lemma BoundedInRange(s: Servo)
    requires 1 <= FallbackRaw(s) <= HardMax(s) && s.band.ceilRaw >= 1
    ensures var t := Bounded(s);
            && 1 <= t.band.ceilRaw <= HardMax(s) && t.ticks == s.ticks && t.band.settled == s.band.settled
            && (t.band.settled || FallbackRaw(s) <= t.band.ceilRaw) && t.band.ceilCapW == s.band.ceilCapW
  {
    RigDecides(s, WithCeil(s, HardMax(s)));
    hide FallbackRaw, HardMax, Idle;
  }

  lemma UnfoldKeeps(s: Servo)
    ensures Unfold(s).band == s.band && Unfold(s).ticks == s.ticks
  {
    hide RestoreFolded, CeilingRaw;
  }

  /** A state with the ceiling in its range is a walk. */
  lemma Walks(s: Servo, t: Servo)
    requires InRange(s) && !Idle(s) && Rig(s) == Rig(t) && 0 <= t.ticks < STEP_TICKS
    requires Near(t.band.ceilCapW, s.capW) && 1 <= t.band.ceilRaw <= HardMax(s) <= 255
    requires t.band.settled || FallbackRaw(s) <= t.band.ceilRaw
    ensures Walking(t) && 1 <= t.band.ceilRaw <= HardMax(t) == HardMax(s) <= 255
  {
    RigDecides(s, t);
    assert Rig(s).capW == Rig(t).capW && Rig(s).band == Rig(t).band;
    assert s.band.fullW == Rig(s).band.fullW && s.band.root2 == Rig(s).band.root2 && s.band.root3 == Rig(s).band.root3;
    assert t.band.fullW == Rig(t).band.fullW && t.band.root2 == Rig(t).band.root2 && t.band.root3 == Rig(t).band.root3;
    hide FallbackRaw, HardMax, Idle, Near, Rig;
  }

  lemma TunedTick(s: Servo, m: Meter)
    requires InRange(s) && !Idle(s) && Tuned(s) && 1 <= FallbackRaw(s) <= HardMax(s)
    ensures var t := Tick(s, m);
            && 0 <= t.ticks < STEP_TICKS && t.band.ceilCapW == s.band.ceilCapW
            && 1 <= t.band.ceilRaw <= HardMax(s) && (t.band.settled || FallbackRaw(s) <= t.band.ceilRaw)
  {
    hide FallbackRaw, HardMax, Idle, RootsOrdered, Unfold, Bounded, Decide, Near;
    BoundedInRange(s);
    UnfoldKeeps(Bounded(s));
    var u := Unfold(Bounded(s));
    BoundedRig(s);
    UnfoldRig(Bounded(s));
    RigDecides(s, u.(ticks := 0));
    if m.Watts? {
      DecideInRange(u.(ticks := 0), m.fwd);
    }
  }

  /** One tick with any reading, or none, puts the walk in its range: from one to the runaway bound. */
  lemma TickWalks(s: Servo, m: Meter)
    requires InRange(s) && !Idle(s)
    ensures var t := Tick(s, m);
            Walking(t) && 1 <= t.band.ceilRaw <= HardMax(t) == HardMax(s) <= 255
  {
    hide FallbackRaw, HardMax, Idle, RootsOrdered, Unfold, Bounded, Decide, Walking;
    SeedUnderHardMax(s);
    TickFrame(s, m);
    if Tuned(s) {
      TunedTick(s, m);
    }
    Walks(s, Tick(s, m));
  }

  /** Once parked for a cap, no reading and no drive ever raises the ceiling or undoes the latch. */
  lemma SettledNeverRises(s: Servo, m: Meter)
    requires InRange(s) && !Idle(s) && Tuned(s) && s.band.settled
    ensures var t := Tick(s, m); t.band.settled && t.band.ceilRaw <= s.band.ceilRaw && Tuned(t)
  {
    SeedUnderHardMax(s);
    hide FallbackRaw, HardMax, LRound, RootsOrdered;
  }

  /** The ceiling rises only on a reading under the cap, by one step, towards the pressing request. */
  lemma ClimbFromBelow(s: Servo, fwd: real)
    requires Walking(s) && !s.drive.folded
    ensures var t := Tick(s, Watts(fwd));
            && Walking(t) && !t.drive.folded && t.drive == s.drive
            && (t.band.ceilRaw > s.band.ceilRaw ==>
                  && fwd < s.capW * 0.97 && !s.band.settled
                  && t.band.ceilRaw <= Min(s.drive.level, HardMax(s))
                  && t.band.ceilRaw - s.band.ceilRaw <= (if s.p2 && fwd < s.capW * 0.85 then 12 else 3))
  {
    SeedUnderHardMax(s);
    TickFrame(s, Watts(fwd));
    hide FallbackRaw, HardMax, LRound, RootsOrdered;
  }

  // ---- On a plant ----

  /** A keyed tune into some plant: the meter reads what the emitted drive makes of it. */
  function OnPlant(s: Servo, plant: int -> real): Servo {
    Tick(s, Watts(plant(Min(s.drive.level, s.band.ceilRaw))))
  }

  /** Nothing will change any more at this drive. */
  ghost predicate Parked(s: Servo, plant: int -> real) {
    var w := plant(Min(s.drive.level, s.band.ceilRaw));
    && Walking(s)
    && (if s.drive.level < s.band.ceilRaw then true
        else if s.band.settled then w <= s.capW || s.band.ceilRaw == 1
        else w < s.capW * 0.97 && s.band.ceilRaw >= Min(HardMax(s), s.drive.level))
  }

  /** Steps left: up to the bound while learning, down to one once latched, three ticks each. */
  function StepsLeft(s: Servo): int {
    4 * (if s.band.settled then s.band.ceilRaw else 512 - s.band.ceilRaw) + (STEP_TICKS - s.ticks)
  }

  lemma PlantStep(s: Servo, plant: int -> real)
    requires Walking(s) && !s.drive.folded && s.capW > 0.0
    ensures var t := OnPlant(s, plant);
            && Walking(t) && !t.drive.folded && t.drive == s.drive && t.capW == s.capW
            && 0 <= StepsLeft(t)
            && (if Parked(s, plant) then Parked(t, plant) && t.band == s.band.(settled := t.band.settled)
                else StepsLeft(t) < StepsLeft(s))
  {
    SeedUnderHardMax(s);
    ClimbFromBelow(s, plant(Min(s.drive.level, s.band.ceilRaw)));
    TickFrame(s, Watts(plant(Min(s.drive.level, s.band.ceilRaw))));
    hide FallbackRaw, HardMax, LRound, RootsOrdered;
  }

  /** A run of ticks at one drive setting. */
  function OnPlantFor(s: Servo, plant: int -> real, n: nat): Servo
    decreases n
  {
    if n == 0 then s else OnPlant(OnPlantFor(s, plant, n - 1), plant)
  }

  /**
   * On any plant, at any drive: after a bounded number of ticks the servo is parked and stays so,
   * having touched nothing of the drive.
   */
  lemma {:induction false} Lands(s: Servo, plant: int -> real, n: nat)
    requires Walking(s) && !s.drive.folded && s.capW > 0.0
    ensures var t := OnPlantFor(s, plant, n);
            && Walking(t) && t.drive == s.drive && t.capW == s.capW && SameRig(s, t)
            && 0 <= StepsLeft(t)
            && (Parked(t, plant) || StepsLeft(t) + n <= StepsLeft(s))
            && (n > StepsLeft(s) ==> Parked(t, plant))
  {
    if n == 0 {
      PlantStep(s, plant);
    } else {
      Lands(s, plant, n - 1);
      var t := OnPlantFor(s, plant, n - 1);
      PlantStep(t, plant);
      TickFrame(t, Watts(plant(Min(t.drive.level, t.band.ceilRaw))));
      SameRigTrans(s, t, OnPlant(t, plant));
      hide Walking, Parked, StepsLeft, OnPlant, SameRig;
    }
  }

  lemma SameRigTrans(s: Servo, t: Servo, u: Servo)
    requires SameRig(s, t) && SameRig(t, u)
    ensures SameRig(s, u)
  {
  }

  /**
   * What it lands on: a reading at or under the cap, unless nothing is left to take away or the
   * drive stays below the ceiling. With the drive up to the bound the last case is out.
   */
  lemma LandsUnderTheCap(s: Servo, plant: int -> real, n: nat)
    requires Walking(s) && !s.drive.folded && s.capW > 0.0 && n > StepsLeft(s)
    ensures var t := OnPlantFor(s, plant, n);
            && (plant(Min(s.drive.level, t.band.ceilRaw)) <= s.capW || t.band.ceilRaw == 1 || s.drive.level < t.band.ceilRaw)
            && (!t.band.settled && s.drive.level >= t.band.ceilRaw ==> t.band.ceilRaw == Min(HardMax(s), s.drive.level))
            && (s.drive.level >= HardMax(s) ==> plant(t.band.ceilRaw) <= s.capW || t.band.ceilRaw == 1)
  {
    Lands(s, plant, n);
    hide OnPlantFor, Idle, InRange, FallbackRaw, HardMax;
  }

  /** A drive below the ceiling is not watched at all: whatever it makes of the power, no tick acts on it. */
  lemma {:induction false} BelowTheCeilingUnwatched(s: Servo, plant: int -> real, n: nat)
    requires Walking(s) && !s.drive.folded && s.drive.level < s.band.ceilRaw
    ensures var t := OnPlantFor(s, plant, n);
            Walking(t) && t.band == s.band && t.drive == s.drive
  {
    hide OnPlant, Walking;
    if n > 0 {
      BelowTheCeilingUnwatched(s, plant, n - 1);
      UnwatchedStep(OnPlantFor(s, plant, n - 1), plant);
    }
  }

  lemma UnwatchedStep(s: Servo, plant: int -> real)
    requires Walking(s) && !s.drive.folded && s.drive.level < s.band.ceilRaw
    ensures var t := OnPlant(s, plant); Walking(t) && t.band == s.band && t.drive == s.drive
  {
    var fwd := plant(Min(s.drive.level, s.band.ceilRaw));
    ClimbFromBelow(s, fwd);
    hide Walking, FallbackRaw, HardMax, LRound, RootsOrdered, Idle;
    assert s.band.ceilRaw <= HardMax(s) && (s.band.settled || FallbackRaw(s) <= s.band.ceilRaw) && Tuned(s) by {
      WalkingMeans(s);
    }
  }

  lemma WalkingMeans(s: Servo)
    requires Walking(s)
    ensures s.band.ceilRaw <= HardMax(s) && (s.band.settled || FallbackRaw(s) <= s.band.ceilRaw) && Tuned(s)
  {
  }

  /** A drive that presses against the ceiling goes on pressing: a climb ends at the request at the latest. */
  lemma PressingStep(s: Servo, plant: int -> real)
    requires Walking(s) && !s.drive.folded && s.drive.level >= s.band.ceilRaw
    ensures var t := OnPlant(s, plant); t.drive == s.drive && t.drive.level >= t.band.ceilRaw
  {
    hide Walking, Tick;
    ClimbFromBelow(s, plant(Min(s.drive.level, s.band.ceilRaw)));
  }

  lemma {:induction false} PressingStays(s: Servo, plant: int -> real, n: nat)
    requires Walking(s) && !s.drive.folded && s.capW > 0.0 && s.drive.level >= s.band.ceilRaw
    ensures OnPlantFor(s, plant, n).band.ceilRaw <= s.drive.level
  {
    hide Walking, OnPlant, Parked, StepsLeft, SameRig;
    if n > 0 {
      PressingStays(s, plant, n - 1);
      Lands(s, plant, n - 1);
      PressingStep(OnPlantFor(s, plant, n - 1), plant);
    }
  }

  /**
   * On any plant, at any drive: the servo lands on a reading at or under the cap, or on the lowest
   * ceiling, exactly when at its start the drive pressed against the ceiling, or was harmless by
   * itself, or the ceiling was the lowest one already.
   */
  lemma LandsUnderTheCapIff(s: Servo, plant: int -> real, n: nat)
    requires Walking(s) && !s.drive.folded && s.capW > 0.0 && n > StepsLeft(s)
    ensures var t := OnPlantFor(s, plant, n);
            plant(Min(s.drive.level, t.band.ceilRaw)) <= s.capW || t.band.ceilRaw == 1
            <==> s.drive.level >= s.band.ceilRaw || plant(s.drive.level) <= s.capW || s.band.ceilRaw == 1
  {
    hide OnPlantFor, Walking, StepsLeft;
    if s.drive.level >= s.band.ceilRaw {
      PressingStays(s, plant, n);
      LandsUnderTheCap(s, plant, n);
    } else {
      BelowTheCeilingUnwatched(s, plant, n);
    }
  }

  ghost predicate Monotone(plant: int -> real) {
    forall a, b :: a <= b ==> plant(a) <= plant(b)
  }

  function CoarseStep(s: Servo): int {
    if s.p2 then STEP_RAW_P2 else STEP_RAW
  }

  /** The ceiling is at most one climb above one that reads under the cap. */
  ghost predicate OneClimbPast(s: Servo, plant: int -> real) {
    exists g :: s.band.ceilRaw - CoarseStep(s) <= g <= s.band.ceilRaw && plant(Min(s.drive.level, g)) <= s.capW
  }

  lemma OneClimbKept(s: Servo, plant: int -> real)
    requires Walking(s) && !s.drive.folded && s.capW > 0.0 && Monotone(plant) && OneClimbPast(s, plant)
    ensures OneClimbPast(OnPlant(s, plant), plant)
  {
    var g :| s.band.ceilRaw - CoarseStep(s) <= g <= s.band.ceilRaw && plant(Min(s.drive.level, g)) <= s.capW;
    var fwd := plant(Min(s.drive.level, s.band.ceilRaw));
    ClimbFromBelow(s, fwd);
    TickFrame(s, Watts(fwd));
    var t := OnPlant(s, plant);
    SameP2(s, t);
    hide Walking, FallbackRaw, HardMax, OnPlant;
    if t.band.ceilRaw > s.band.ceilRaw {
      assert plant(Min(t.drive.level, s.band.ceilRaw)) <= t.capW;
    } else {
      StepDown(s, fwd);
      var h := Min(g, t.band.ceilRaw);
      assert plant(Min(t.drive.level, h)) <= plant(Min(s.drive.level, g));
    }
  }

  lemma SameP2(s: Servo, t: Servo)
    requires Rig(s) == Rig(t)
    ensures s.p2 == t.p2 && s.capW == t.capW
  {
  }

  lemma StepDown(s: Servo, fwd: real)
    requires Walking(s) && !s.drive.folded
    ensures Tick(s, Watts(fwd)).band.ceilRaw >= Min(s.band.ceilRaw, Max(1, s.band.ceilRaw - STEP_RAW))
  {
    SeedUnderHardMax(s);
    hide FallbackRaw, HardMax, LRound, RootsOrdered;
  }

  /** Approach from below: over a whole run on a monotone plant the overshoot is one climb at most. */
  lemma {:induction false} OvershootBounded(s: Servo, plant: int -> real, n: nat)
    requires Walking(s) && !s.drive.folded && s.capW > 0.0 && Monotone(plant)
    requires plant(Min(s.drive.level, s.band.ceilRaw)) <= s.capW
    ensures OneClimbPast(OnPlantFor(s, plant, n), plant)
  {
    if n == 0 {
      assert s.band.ceilRaw - CoarseStep(s) <= s.band.ceilRaw <= s.band.ceilRaw;
    } else {
      OvershootBounded(s, plant, n - 1);
      Lands(s, plant, n - 1);
      hide Walking, OneClimbPast, OnPlant, Parked, StepsLeft, SameRig;
      OneClimbKept(OnPlantFor(s, plant, n - 1), plant);
    }
  }

  // ---- After a protection fold ----

  /** Exactly when a tick raises the ceiling. */
  lemma ClimbsIff(s: Servo, fwd: real)
    requires Walking(s) && !s.drive.folded
    ensures Tick(s, Watts(fwd)).band.ceilRaw > s.band.ceilRaw
            <==> s.ticks == 2 && !s.band.settled && fwd < s.capW * 0.97
                 && s.drive.level > s.band.ceilRaw && s.band.ceilRaw < HardMax(s)
  {
    SeedUnderHardMax(s);
    hide FallbackRaw, HardMax, LRound, RootsOrdered;
  }

  /** How far: three, or twelve on the analog path well under the cap, never past request or runaway bound. */
  lemma ClimbsBy(s: Servo, fwd: real)
    requires Walking(s) && !s.drive.folded && Tick(s, Watts(fwd)).band.ceilRaw > s.band.ceilRaw
    ensures Tick(s, Watts(fwd)).band.ceilRaw
         == Min(Min(HardMax(s), s.drive.level), s.band.ceilRaw + (if s.p2 && fwd < 0.85 * s.capW then 12 else 3))
  {
    SeedUnderHardMax(s);
    hide FallbackRaw, HardMax, LRound, RootsOrdered;
  }

  /** Exactly when a tick lowers the ceiling, and how far; the latch closes with it, or on a reading at the cap from below. */
  lemma FallsIff(s: Servo, fwd: real)
    requires Walking(s) && !s.drive.folded
    ensures var t, deciding := Tick(s, Watts(fwd)), s.ticks == 2 && s.drive.level >= s.band.ceilRaw;
            && (t.band.ceilRaw < s.band.ceilRaw <==> deciding && fwd > s.capW && s.band.ceilRaw > 1)
            && (t.band.ceilRaw < s.band.ceilRaw ==> t.band.ceilRaw == Max(1, s.band.ceilRaw - 3))
            && (t.band.settled <==> s.band.settled
                                    || (deciding && ((fwd > s.capW && s.band.ceilRaw > 1) || fwd >= 0.97 * s.capW)))
            && t.ticks == (s.ticks + 1) % 3
  {
    SeedUnderHardMax(s);
    hide FallbackRaw, HardMax, LRound, RootsOrdered;
  }

  /**
   * A fold left over from a protected transmission hands the drive back at no more than the
   * ceiling. From there nothing presses into the ceiling from above, so the walk cannot climb any
   * further, on any plant, until the operator moves the drive.
   */
  lemma FoldStallsTheWalk(s: Servo, m: Meter, plant: int -> real, n: nat)
    requires Walking(s) && s.drive.folded && s.drive.maxRaw >= 0 && s.capW > 0.0 && !s.band.settled
    ensures var t := Tick(s, m);
            && Walking(t) && !t.drive.folded && t.drive.level <= s.band.ceilRaw
            && OnPlantFor(t, plant, n).band.ceilRaw <= s.band.ceilRaw
  {
    HandBack(s, m);
    TickFrame(s, m);
    SameP2(s, Tick(s, m));
    hide Tick, Walking, OnPlantFor;
    StallsUnder(Tick(s, m), plant, n, s.band.ceilRaw);
  }

  lemma HandBack(s: Servo, m: Meter)
    requires Walking(s) && s.drive.folded && s.drive.maxRaw >= 0 && !s.band.settled
    ensures var t := Tick(s, m);
            Walking(t) && !t.drive.folded && t.drive.level <= s.band.ceilRaw && t.band.ceilRaw <= s.band.ceilRaw
  {
    TickWalks(s, m);
    SeedUnderHardMax(s);
    hide FallbackRaw, HardMax, LRound, RootsOrdered, Times, Idle, Near;
  }

  lemma StallStep(s: Servo, plant: int -> real, ceiling: int)
    requires Walking(s) && !s.drive.folded && s.capW > 0.0 && s.drive.level <= ceiling && s.band.ceilRaw <= ceiling
    ensures OnPlant(s, plant).band.ceilRaw <= ceiling
  {
    hide Walking, Tick;
    ClimbFromBelow(s, plant(Min(s.drive.level, s.band.ceilRaw)));
  }

  lemma {:induction false} StallsUnder(s: Servo, plant: int -> real, n: nat, ceiling: int)
    requires Walking(s) && !s.drive.folded && s.capW > 0.0 && s.drive.level <= ceiling && s.band.ceilRaw <= ceiling
    ensures OnPlantFor(s, plant, n).band.ceilRaw <= ceiling
  {
    hide Walking, OnPlant, Parked, StepsLeft, SameRig;
    if n > 0 {
      StallsUnder(s, plant, n - 1, ceiling);
      Lands(s, plant, n - 1);
      StallStep(OnPlantFor(s, plant, n - 1), plant, ceiling);
    }
  }

  /**
   * What a tick does to a fold in force: nothing while there is nothing to learn or the walk is only
   * being seeded; under a locked ceiling the flag goes and the folded drive stays; otherwise the
   * stored slider comes back under the ceiling. A drive that is not folded is never touched.
   */
  lemma TickDrive(s: Servo, m: Meter)
    ensures Tick(s, m).drive ==
            if Idle(s) || !Tuned(s) || !s.drive.folded then s.drive
            else if s.band.settled then s.drive.(folded := false)
            else RestoreFolded(s.drive, CeilingRaw(Bounded(s)))
  {
    hide FallbackRaw, HardMax, Idle, Near, CeilingRaw, ApplyLevel;
  }

  lemma TunedStays(s: Servo, m: Meter)
    requires !Idle(s)
    ensures Tuned(Tick(s, m)) && !Idle(Tick(s, m))
  {
    TickFrame(s, m);
    HardMaxPositive(s);
    hide FallbackRaw, HardMax, Idle, CeilingRaw, RestoreFolded;
  }

  lemma HardMaxPositive(s: Servo)
    ensures HardMax(s) >= 1 && FallbackRaw(s) >= 1
  {
    hide LRound;
  }
}
