/** The power chain of the transmitter as the object that owns it: every method is one step of the model. */
module PowerChain {
  import opened Basics
  import opened TxPower
  import opened CapServo
  import opened SwrProtect

  lemma FoldTouches(c: Chain)
    ensures Fold(c).servo == c.servo.(drive := Fold(c).servo.drive)
  {
    hide FloorLevel, ApplyLevel;
  }

  lemma EvalSwrTouches(c: Chain, s: Sample)
    ensures EvalSwr(c, s).servo == c.servo.(drive := EvalSwr(c, s).servo.drive)
  {
    hide Fold, Reflects, SwrWatched, FullDwell;
    FoldTouches(c.(watch := c.watch.(swrOver := 0)));
  }

  class Transmitter {
    var capW: real
    var armed: bool
    var p2: bool
    var band: Band
    var level: int
    var stored: int
    var folded: bool
    var maxRaw: int
    var capTicks: int
    var policy: Policy
    var tune: bool
    var running: bool
    var swrTicks: nat
    var swrOver: nat
    var wattsOver: nat
    var tripped: bool
    var cut: bool

    constructor (s: Servo, p: Policy)
      ensures State() == Chain(s, p, false, Watch(false, 0, 0, 0, false, false))
    {
      capW, armed, p2, band, capTicks := s.capW, s.armed, s.p2, s.band, s.ticks;
      level, stored, folded, maxRaw := s.drive.level, s.drive.stored, s.drive.folded, s.drive.maxRaw;
      policy, tune, running, swrTicks, swrOver, wattsOver, tripped, cut := p, false, false, 0, 0, 0, false, false;
    }

    function Applied(): Drive
      reads this
    {
      Drive(level, stored, folded, maxRaw)
    }

    function Learning(): Servo
      reads this
    {
      Servo(capW, armed, p2, band, Applied(), capTicks)
    }

    function Watching(): Watch
      reads this
    {
      Watch(running, swrTicks, swrOver, wattsOver, tripped, cut)
    }

    function State(): Chain
      reads this
    {
      Chain(Learning(), policy, tune, Watching())
    }

    method ApplyDriveLevelNoPersist(raw: int)
      modifies this`level
      ensures Applied() == ApplyLevel(old(Applied()), raw)
    {
      level := Min(maxRaw, Clamp(raw, 0, 255));
    }

    method SetTxDriveLevel(raw: int)
      modifies this`level, this`stored
      ensures Applied() == SetDrive(old(Applied()), raw)
    {
      var clamped := Min(maxRaw, Clamp(raw, 0, 255));
      if level == clamped {
        return;
      }
      level := clamped;
      stored := clamped;
    }

    method RestoreFoldedDriveSafely()
      modifies this`level, this`folded
      ensures Applied() == RestoreFolded(old(Applied()), CeilingRaw(old(Learning())))
    {
      if !folded {
        return;
      }
      folded := false;
      var ceiling := CeilingRaw(Learning());
      ApplyDriveLevelNoPersist(Min(Clamp(stored, 0, 255), ceiling));
    }

    method TickCapServo(m: Meter)
      modifies this`band, this`level, this`folded, this`capTicks
      ensures Learning() == Tick(old(Learning()), m)
    {
      hide FallbackRaw, HardMax, Bounded, Decide, RestoreFolded, CeilingRaw, Near;
      if !armed || capW <= 0.0 {
        return;
      }
      if band.fullW > 0.0 && capW >= band.fullW {
        return;
      }
      if !p2 && band.fullW <= 0.0 {
        return;
      }
      if !Tuned(Learning()) {
        band := band.(ceilRaw := FallbackRaw(Learning()), ceilCapW := capW, settled := false);
        capTicks := 0;
        return;
      }
      BoundCeiling();
      if folded {
        if band.settled {
          folded := false;
        } else {
          RestoreFoldedDriveSafely();
        }
      }
      if m.NoReading? {
        return;
      }
      capTicks := capTicks + 1;
      if capTicks < STEP_TICKS {
        return;
      }
      capTicks := 0;
      StepCeiling(m.fwd);
    }

    /** Brings a leftover ceiling back into range. */
    method BoundCeiling()
      modifies this`band
      ensures Learning() == Bounded(old(Learning()))
    {
      hide FallbackRaw, HardMax;
      if band.ceilRaw > HardMax(Learning()) {
        band := band.(ceilRaw := HardMax(Learning()));
      }
      if band.ceilRaw < FallbackRaw(Learning()) && !band.settled {
        band := band.(ceilRaw := FallbackRaw(Learning()));
      }
    }

    /** Moves, latches or leaves the ceiling on a reading. */
    method StepCeiling(fwd: real)
      modifies this`band
      ensures Learning() == Decide(old(Learning()), fwd)
    {
      hide HardMax;
      var ceil, hardMax := band.ceilRaw, HardMax(Learning());
      var pressing := level >= ceil;
      var coarse := if p2 then STEP_RAW_P2 else STEP_RAW;
      var climbStep := if fwd >= capW * 0.85 then STEP_RAW else coarse;
      if fwd > capW && ceil > 1 && pressing {
        band := band.(ceilRaw := Max(1, ceil - STEP_RAW), settled := true);
      } else if fwd >= capW * 0.97 && pressing {
        if !band.settled {
          band := band.(settled := true);
        }
      } else if !band.settled && pressing && level > ceil && ceil < hardMax {
        band := band.(ceilRaw := Min(Min(hardMax, level), ceil + climbStep));
      }
    }

    method ArmSwrProtect()
      modifies this`level, this`folded, this`running, this`swrTicks, this`swrOver, this`wattsOver, this`tripped, this`cut
      ensures Applied() == Arm(old(State())).servo.drive && Watching() == Arm(old(State())).watch
    {
      hide RestoreFolded, CeilingRaw;
      ghost var d := RestoreFolded(Applied(), CeilingRaw(Learning()));
      tripped := false;
      RestoreFoldedDriveSafely();
      assert Applied() == d;
      cut := false;
      swrTicks, swrOver, wattsOver := 0, 0, 0;
      running := true;
    }

    method DisarmSwrProtect()
      modifies this`running
      ensures State() == Disarm(old(State()))
    {
      running := false;
    }

    /** The tune switch; going into a tune on the air hands a fold back. */
    method SetTuneEnabled(on: bool, onAir: bool)
      modifies this`tune, this`level, this`folded, this`tripped
      ensures tune == on && Applied() == SetTune(old(State()), on, onAir).servo.drive
      ensures Watching() == SetTune(old(State()), on, onAir).watch
    {
      hide RestoreFolded, CeilingRaw;
      var prev := tune;
      tune := on;
      if prev == on {
        return;
      }
      if on && onAir {
        RestoreFoldedDriveSafely();
        if tripped {
          tripped := false;
        }
      }
    }

    method SetSwrProtectEnabled(on: bool, keyed: bool)
      modifies this`policy, this`running, this`swrTicks, this`swrOver
      ensures State() == SetEnabled(old(State()), on, keyed)
    {
      if on == policy.enabled {
        return;
      }
      policy := policy.(enabled := on);
      if keyed {
        if on {
          swrTicks, swrOver := 0, 0;
          running := true;
        } else {
          running := false;
        }
      }
    }

    method TripSwrProtect()
      modifies this`swrOver, this`running, this`tripped, this`cut
      ensures Watching() == Watch(false, swrTicks, 0, wattsOver, true, true)
    {
      swrOver := 0;
      running := false;
      tripped := true;
      cut := true;
    }

    method FoldSwrProtect()
      modifies this`swrOver, this`folded, this`level, this`running, this`tripped, this`cut
      ensures var t := Fold(old(State()).(watch := old(Watching()).(swrOver := 0)));
              Applied() == t.servo.drive && Watching() == t.watch
    {
      hide Clamp, Max, Min;
      swrOver := 0;
      if !folded {
        folded := true;
      }
      var floorLevel := Clamp(255 * policy.foldMinPct / 100, 1, 255);
      var cur := level;
      if cur <= floorLevel {
        TripSwrProtect();
        return;
      }
      ApplyDriveLevelNoPersist(Max(floorLevel, cur / 2));
      tripped := true;
    }

    method FoldWattsProtect()
      modifies this`wattsOver, this`folded, this`level, this`running, this`tripped, this`cut
      ensures Applied() == FoldWatts(old(State())).servo.drive && Watching() == FoldWatts(old(State())).watch
    {
      hide Clamp, Max, Min;
      wattsOver := 0;
      if !folded {
        folded := true;
      }
      var floorLevel := Clamp(255 * policy.foldMinPct / 100, 1, 255);
      var cur := level;
      if cur <= floorLevel {
        running := false;
        tripped := true;
        cut := true;
        return;
      }
      ApplyDriveLevelNoPersist(Max(floorLevel, cur / 2));
      tripped := true;
    }

    /** What the evaluator's timer calls while it runs. */
    method EvalSwrProtect(s: Sample)
      requires running
      modifies this`band, this`level, this`folded, this`capTicks, this`running
      modifies this`swrTicks, this`swrOver, this`wattsOver, this`tripped, this`cut
      ensures Learning() == Eval(old(State()), s).servo && Watching() == Eval(old(State()), s).watch
    {
      hide EvalAwake;
      swrTicks := swrTicks + 1;
      if swrTicks * EVAL_MS < policy.blankMs {
        return;
      }
      EvalPower(s);
    }

    /** The watts cap, then the servo or the reflected power. */
    method EvalPower(s: Sample)
      modifies this`band, this`level, this`folded, this`capTicks, this`running
      modifies this`swrOver, this`wattsOver, this`tripped, this`cut
      ensures Learning() == EvalAwake(old(State()), s).servo && Watching() == EvalAwake(old(State()), s).watch
    {
      hide Fold, EvalSwr, Tick, OverPower, FullDwell, CapActive;
      ghost var c := State();
      if OverPower(State(), s) {
        if FullDwell(policy, wattsOver + 1) {
          FoldTouches(WattsCounted(c, 0));
          FoldWattsProtect();
          return;
        }
        wattsOver := wattsOver + 1;
      } else {
        wattsOver := 0;
      }
      assert State() == WattsCounted(c, wattsOver);
      if CapActive(Learning()) && tune {
        TickCapServo(s.cal);
      }
      assert State() == Learn(WattsCounted(c, if OverPower(c, s) then c.watch.wattsOver + 1 else 0), s.cal);
      EvalSwrTouches(State(), s);
      EvalReflected(s);
    }

    /** The second half of the evaluator. */
    method EvalReflected(s: Sample)
      modifies this`swrOver, this`folded, this`level, this`running, this`tripped, this`cut
      ensures Applied() == EvalSwr(old(State()), s).servo.drive && Watching() == EvalSwr(old(State()), s).watch
    {
      hide Fold;
      if !policy.enabled {
        return;
      }
      if tune && !policy.duringTune {
        return;
      }
      if !AtLeast(s.fwd, policy.fwdFloor) || !AtLeast(s.rev, policy.revFloor) {
        swrOver := 0;
        return;
      }
      if !Reflects(policy, s) {
        swrOver := 0;
        return;
      }
      swrOver := swrOver + 1;
      if swrOver * EVAL_MS < policy.dwellMs {
        return;
      }
      if policy.fold {
        FoldSwrProtect();
      } else {
        TripSwrProtect();
      }
    }
  }
}
