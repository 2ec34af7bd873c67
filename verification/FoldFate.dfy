/** What becomes of a protection fold in a session: handed back, kept for the next key-down, or forgotten. */
module FoldFate {
  import opened Basics
  import opened TxPower
  import opened CapServo
  import opened SwrProtect
  import opened KeyedProtection
  import M = MoxSequencer

  /** A check acts, and its action is a fold. */
  predicate MakesFold(st: Station, h: Happening) {
    h.Reading? && (WattsVerdict(st.chain, h.s).Acted? || (SwrVerdict(st.chain, h.s).Acted? && st.chain.policy.fold))
  }

  /** The servo runs on a band that has its ceiling. */
  predicate ServoAtWork(c: Chain) {
    Awake(c) && c.tune && CapActive(c.servo) && !Idle(c.servo) && Tuned(c.servo)
  }

  /** It takes a fold out of force: a key-down, the servo at work, or a tune that begins on the air. */
  predicate DropsFold(st: Station, h: Happening) {
    match h
    case Keying(e) => OnAirEdge(st.tx, e)
    case Reading(s) => ServoAtWork(st.chain)
    case TuneSwitch(on) => on && !st.chain.tune && st.tx.moxActive
    case Protect(on) => false
  }

  /** It does so without handing the drive back. */
  predicate Forgets(st: Station, h: Happening) {
    h.Reading? && ServoAtWork(st.chain) && st.chain.servo.band.settled
  }

  /** The ceiling under which a fold is handed back by it. */
  function HandBackCeiling(st: Station, h: Happening): int {
    CeilingRaw(if h.Reading? then Bounded(st.chain.servo) else st.chain.servo)
  }

  lemma FoldsFolded(c: Chain)
    ensures Fold(c).servo.drive.folded
  {
  }

  /** A tick that makes no fold leaves the drive to the servo. */
  lemma ReadingDrive(st: Station, s: Sample)
    requires !MakesFold(st, Reading(s))
    ensures var c := st.chain;
            Eval(c, s).servo.drive == if Awake(c) && c.tune && CapActive(c.servo) then Tick(c.servo, s.cal).drive else c.servo.drive
  {
    hide Fold, Tick, Reflects, FullDwell, Blanked, CapActive, AtLeast;
  }

  lemma ReadingFolds(st: Station, s: Sample)
    requires MakesFold(st, Reading(s))
    ensures Eval(st.chain, s).servo.drive.folded
  {
    hide Fold, Tick, Reflects, FullDwell, Blanked, CapActive, AtLeast;
    forall d: Chain ensures Fold(d).servo.drive.folded {
      FoldsFolded(d);
    }
  }

  /** Happening by happening, what becomes of the drive if no fold is made: the whole decision. */
  lemma MomentDrive(st: Station, h: Happening)
    requires !MakesFold(st, h)
    ensures Step(st, h).chain.servo.drive ==
            if !st.chain.servo.drive.folded || !DropsFold(st, h) then st.chain.servo.drive
            else if Forgets(st, h) then st.chain.servo.drive.(folded := false)
            else RestoreFolded(st.chain.servo.drive, HandBackCeiling(st, h))
  {
    hide Eval, Idle, Tuned, CeilingRaw, Bounded, MakesFold, RestoreFolded, Blanked, SetTune, SetEnabled, Edged, OnAirEdge, M.Next, M.Request;
    match h
    case Keying(e) => KeyingDrive(st, e);
    case Reading(s) =>
      ReadingDrive(st, s);
      TickDrive(st.chain.servo, s.cal);
      hide Tick;
    case TuneSwitch(on) => TuningDrive(st.chain, on, st.tx.moxActive);
    case Protect(on) => ProtectDrive(st.chain, on, st.tx.wire.mox);
  }

  lemma KeyingDrive(st: Station, e: M.Event)
    ensures Edged(st, e).servo.drive ==
            if OnAirEdge(st.tx, e) then RestoreFolded(st.chain.servo.drive, CeilingRaw(st.chain.servo)) else st.chain.servo.drive
    ensures !st.chain.servo.drive.folded ==> RestoreFolded(st.chain.servo.drive, CeilingRaw(st.chain.servo)) == st.chain.servo.drive
  {
    hide CeilingRaw, OnAirEdge, ReceiveEdge;
  }

  lemma TuningDrive(c: Chain, on: bool, onAir: bool)
    ensures SetTune(c, on, onAir).servo.drive ==
            if on && !c.tune && onAir then RestoreFolded(c.servo.drive, CeilingRaw(c.servo)) else c.servo.drive
    ensures !c.servo.drive.folded ==> RestoreFolded(c.servo.drive, CeilingRaw(c.servo)) == c.servo.drive
  {
    hide CeilingRaw;
  }

  lemma ProtectDrive(c: Chain, on: bool, keyed: bool)
    ensures SetEnabled(c, on, keyed).servo == c.servo
  {
  }

  lemma HandedBack(d: Drive, ceiling: int)
    requires d.folded
    ensures !RestoreFolded(d, ceiling).folded
  {
  }

  // ---- Over a whole session ----

  /** A fold is in force: made or there from the start, and not dropped since. */
  predicate InForce(st: Station, hs: seq<Happening>)
    decreases |hs|
  {
    if hs == [] then st.chain.servo.drive.folded
    else
      var before, h := Path(st, hs[..|hs| - 1]), hs[|hs| - 1];
      MakesFold(before, h) || (InForce(st, hs[..|hs| - 1]) && !DropsFold(before, h))
  }

  /** The flag is exactly that, over every session, keyed and unkeyed, in and out of tunes. */
  lemma {:induction false} FlagIsInForce(st: Station, hs: seq<Happening>)
    ensures Path(st, hs).chain.servo.drive.folded <==> InForce(st, hs)
    decreases |hs|
  {
    hide Step, MakesFold, DropsFold, Forgets, RestoreFolded, HandBackCeiling;
    if hs != [] {
      FlagIsInForce(st, hs[..|hs| - 1]);
      MomentFlag(Path(st, hs[..|hs| - 1]), hs[|hs| - 1]);
    }
  }

  lemma MomentFlag(st: Station, h: Happening)
    ensures Step(st, h).chain.servo.drive.folded <==> MakesFold(st, h) || (st.chain.servo.drive.folded && !DropsFold(st, h))
  {
    hide MakesFold, DropsFold, Forgets, RestoreFolded, HandBackCeiling, Eval, SetTune, SetEnabled, Edged, M.Next, M.Request;
    if MakesFold(st, h) {
      MakesReading(st, h);
      ReadingFolds(st, h.s);
    } else {
      MomentDrive(st, h);
      if st.chain.servo.drive.folded {
        HandedBack(st.chain.servo.drive, HandBackCeiling(st, h));
      }
    }
  }

  lemma MakesReading(st: Station, h: Happening)
    requires MakesFold(st, h)
    ensures h.Reading?
  {
  }

  /** Nothing in the session makes a fold. */
  ghost predicate NoNewFold(st: Station, hs: seq<Happening>)
    decreases |hs|
  {
    hs == [] || (NoNewFold(st, hs[..|hs| - 1]) && !MakesFold(Path(st, hs[..|hs| - 1]), hs[|hs| - 1]))
  }

  /** What dropped the fold did not hand the drive back. */
  predicate Forgotten(st: Station, hs: seq<Happening>)
    decreases |hs|
  {
    hs != [] && (Forgotten(st, hs[..|hs| - 1])
                 || (InForce(st, hs[..|hs| - 1]) && Forgets(Path(st, hs[..|hs| - 1]), hs[|hs| - 1])))
  }

  /** The ceiling at the moment that dropped the fold, or now while it is in force. */
  function UndoCeiling(st: Station, hs: seq<Happening>): int
    decreases |hs|
  {
    if InForce(st, hs) || hs == [] then CeilingRaw(Path(st, hs).chain.servo)
    else
      var front := hs[..|hs| - 1];
      if InForce(st, front) then HandBackCeiling(Path(st, front), hs[|hs| - 1]) else UndoCeiling(st, front)
  }

  /** After a fold and no further one, the drive at every later moment of the session. */
  lemma {:induction false} DriveAfterFold(st: Station, hs: seq<Happening>)
    requires st.chain.servo.drive.folded && NoNewFold(st, hs)
    ensures var d := Path(st, hs).chain.servo.drive;
            d == if InForce(st, hs) then st.chain.servo.drive
                 else if Forgotten(st, hs) then st.chain.servo.drive.(folded := false)
                 else RestoreFolded(st.chain.servo.drive, UndoCeiling(st, hs))
    ensures Forgotten(st, hs) ==> !InForce(st, hs)
    decreases |hs|
  {
    hide Step, MakesFold, DropsFold, Forgets, RestoreFolded, HandBackCeiling, CeilingRaw;
    if hs != [] {
      var front, h := hs[..|hs| - 1], hs[|hs| - 1];
      var before := Path(st, front);
      DriveAfterFold(st, front);
      FlagIsInForce(st, front);
      MomentDrive(before, h);
      ForgetsDrops(before, h);
      HandedBack(st.chain.servo.drive, UndoCeiling(st, front));
    }
  }

  lemma ForgetsDrops(st: Station, h: Happening)
    ensures Forgets(st, h) ==> DropsFold(st, h)
  {
  }

  /**
   * A fold in a session, whatever keying, readings, switches and tunes come after it, and an on-air
   * edge: the stored slider is back under the ceiling of the moment it was handed back, unless a
   * tick forgot the fold; then the folded drive stays.
   */
  lemma KeyDownAfterFold(st: Station, hs: seq<Happening>, e: M.Event)
    requires st.chain.servo.drive.folded && NoNewFold(st, hs) && OnAirEdge(Path(st, hs).tx, e)
    ensures var d := Step(Path(st, hs), Keying(e)).chain.servo.drive;
            var undone := RestoreFolded(st.chain.servo.drive, UndoCeiling(st, hs));
            && d == (if Forgotten(st, hs) then st.chain.servo.drive.(folded := false) else undone)
            && (d == undone <==> !Forgotten(st, hs) || undone.level == st.chain.servo.drive.level)
  {
    DriveAfterFold(st, hs);
    EdgeDrive(Path(st, hs), e);
    FlagIsInForce(st, hs);
    HandedBack(st.chain.servo.drive, UndoCeiling(st, hs));
    RestoredFields(st.chain.servo.drive, UndoCeiling(st, hs));
    hide Step, NoNewFold, Forgotten, RestoreFolded, CeilingRaw, Path, InForce, OnAirEdge;
  }

  lemma EdgeDrive(st: Station, e: M.Event)
    requires OnAirEdge(st.tx, e)
    ensures var t := Step(st, Keying(e)).chain;
            && t.servo.drive == RestoreFolded(st.chain.servo.drive, CeilingRaw(st.chain.servo))
            && (!st.chain.servo.drive.folded ==> t.servo.drive == st.chain.servo.drive)
  {
    KeyingDrive(st, e);
    hide CeilingRaw, RestoreFolded, OnAirEdge, Edged, M.Next;
  }

  lemma RestoredFields(d: Drive, ceiling: int)
    requires d.folded
    ensures var r := RestoreFolded(d, ceiling); r == d.(folded := false, level := r.level)
  {
  }

  // ---- In one tune ----

  predicate OnlyReadings(hs: seq<Happening>) {
    forall i :: 0 <= i < |hs| ==> hs[i].Reading?
  }

  /** Some tick of the run came past the blanking, with the evaluator running. */
  predicate AwakeIn(st: Station, hs: seq<Happening>)
    decreases |hs|
  {
    hs != [] && (AwakeIn(st, hs[..|hs| - 1]) || Awake(Path(st, hs[..|hs| - 1]).chain))
  }

  predicate CanLearn(c: Chain) {
    CapActive(c.servo) && !Idle(c.servo)
  }

  /** What is known of the servo along a tune with no new fold. */
  ghost predicate TuneKnown(c: Chain, t: Chain, awake: bool, inForce: bool, forgotten: bool) {
    && t.tune && CanLearn(t) == CanLearn(c)
    && (!awake || !CanLearn(c) ==> inForce && !forgotten)
    && (!awake ==> t.servo.band == c.servo.band && (Tuned(t.servo) <==> Tuned(c.servo)))
    && (awake && CanLearn(c) ==>
          && Tuned(t.servo)
          && (forgotten <==> Tuned(c.servo) && c.servo.band.settled)
          && (inForce ==> !Tuned(c.servo) && !t.servo.band.settled))
  }

  lemma {:induction false} TuneRun(st: Station, hs: seq<Happening>)
    requires st.chain.tune && st.chain.servo.drive.folded && OnlyReadings(hs) && NoNewFold(st, hs)
    ensures TuneKnown(st.chain, Path(st, hs).chain, AwakeIn(st, hs), InForce(st, hs), Forgotten(st, hs))
    decreases |hs|
  {
    hide Step, Awake, MakesFold, DropsFold, Forgets, TuneKnown;
    if hs == [] {
      TuneStarts(st.chain);
    } else {
      var front, h := hs[..|hs| - 1], hs[|hs| - 1];
      assert h.Reading?;
      TuneRun(st, front);
      TuneStep(st.chain, Path(st, front), h, AwakeIn(st, front), InForce(st, front), Forgotten(st, front));
    }
  }

  lemma TuneStarts(c: Chain)
    requires c.tune && c.servo.drive.folded
    ensures TuneKnown(c, c, false, true, false)
  {
  }

  /** A tick that makes no fold is nothing for the servo but its own tick. */
  lemma ReadingServo(st: Station, s: Sample)
    requires st.chain.tune && !MakesFold(st, Reading(s))
    ensures var c, t := st.chain, Eval(st.chain, s);
            && t.tune
            && t.servo == if Awake(c) && CapActive(c.servo) then Tick(c.servo, s.cal) else c.servo
  {
    hide Fold, Tick, Reflects, FullDwell, Blanked, CapActive, AtLeast;
  }

  lemma TuneStep(c: Chain, st: Station, h: Happening, awake: bool, inForce: bool, forgotten: bool)
    requires h.Reading? && !MakesFold(st, h) && TuneKnown(c, st.chain, awake, inForce, forgotten)
    ensures TuneKnown(c, Step(st, h).chain, awake || Awake(st.chain), inForce && !DropsFold(st, h), forgotten || (inForce && Forgets(st, h)))
  {
    hide MakesFold, Awake, Tick, Idle, Tuned, CapActive, Eval, M.Request;
    ReadingServo(st, h.s);
    if Awake(st.chain) && CapActive(st.chain.servo) {
      TickLearns(st.chain.servo, h.s.cal);
    }
  }

  /** A tick on a band without its ceiling seeds it, unlatched; with nothing to learn it does nothing. */
  lemma TickLearns(s: Servo, m: Meter)
    ensures var t := Tick(s, m);
            && CapActive(t) == CapActive(s) && Idle(t) == Idle(s)
            && (Idle(s) ==> t == s)
            && (!Idle(s) ==> Tuned(t) && (!Tuned(s) ==> !t.band.settled))
  {
    TickFrame(s, m);
    if !Idle(s) {
      TunedStays(s, m);
    }
    SameCap(s, Tick(s, m));
    hide FallbackRaw, HardMax, Idle, Bounded, Unfold, Decide, SameRig;
  }

  lemma SameCap(s: Servo, t: Servo)
    requires SameRig(s, t)
    ensures CapActive(t) == CapActive(s) && Idle(t) == Idle(s)
  {
    assert Rig(s).capW == Rig(t).capW && Rig(s).armed == Rig(t).armed;
    hide Idle, FallbackRaw, HardMax;
  }

  /**
   * A fold in force during a tune is forgotten exactly when some awake tick comes and the band has
   * its ceiling for the cap, locked. With the cap off or with nothing to learn it stays in force, and
   * while the ceiling is still being learned it is handed back.
   */
  lemma TuneForgetsIff(st: Station, hs: seq<Happening>)
    requires st.chain.tune && st.chain.servo.drive.folded && OnlyReadings(hs) && NoNewFold(st, hs)
    ensures var s := st.chain.servo;
            && (Forgotten(st, hs) <==> AwakeIn(st, hs) && CanLearn(st.chain) && Tuned(s) && s.band.settled)
            && (!AwakeIn(st, hs) || !CanLearn(st.chain) ==> InForce(st, hs))
            && (AwakeIn(st, hs) && CanLearn(st.chain) && Tuned(s) ==> !InForce(st, hs))
  {
    TuneRun(st, hs);
    hide Tuned, CanLearn, AwakeIn, NoNewFold, InForce, Forgotten;
  }
}
