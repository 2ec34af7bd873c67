/** The protection and the sequencer together: who arms the evaluator, and what its cut amounts to. */
module KeyedProtection {
  import opened Basics
  import opened CapServo
  import opened MoxSequencer
  import P = SwrProtect

  datatype Station = Station(tx: Tx, chain: P.Chain)

  datatype Happening =
    | Keying(e: Event)          // requests, timers, settings of the sequencer
    | Reading(s: P.Sample)      // a tick of the evaluator's timer
    | Protect(on: bool)         // the reflected-power switch
    | TuneSwitch(on: bool)

  /** The two edges of the on-the-air signal, from the guards of the steps that emit them. */
  predicate OnAirEdge(s: Tx, e: Event) {
    Fires(s, e, KeydownSettled) && s.requested
  }

  predicate ReceiveEdge(s: Tx, e: Event) {
    Fires(s, e, KeyupSettled) && !s.requested
  }

  /** The going-to-air edge arms the evaluator; the receive edge stops it and ends a tune. */
  function Edged(st: Station, e: Event): P.Chain {
    if OnAirEdge(st.tx, e) then P.Arm(st.chain)
    else if ReceiveEdge(st.tx, e) then P.Disarm(P.SetTune(st.chain, false, false))
    else st.chain
  }

  /** A tick that stops the evaluator has asked for the key to drop. */
  predicate Cuts(c: P.Chain, s: P.Sample) {
    c.watch.running && !P.Eval(c, s).watch.running
  }

  function Step(st: Station, h: Happening): Station {
    match h
    case Keying(e) => Station(Next(st.tx, e), Edged(st, e))
    case Reading(s) =>
      Station(if Cuts(st.chain, s) then Request(st.tx, false, Manual) else st.tx, P.Eval(st.chain, s))
    case Protect(on) => st.(chain := P.SetEnabled(st.chain, on, st.tx.wire.mox))
    case TuneSwitch(on) => st.(chain := P.SetTune(st.chain, on, st.tx.moxActive))
  }

  function Path(st: Station, hs: seq<Happening>): Station
    decreases |hs|
  {
    if hs == [] then st else Step(Path(st, hs[..|hs| - 1]), hs[|hs| - 1])
  }

  // ---- Who watches the carrier ----

  /** What happened to the evaluator since it was last started. */
  datatype Notes = Notes(
    stoodDown: bool,      // switched off while keyed
    cut: bool,            // stopped by its own cut
    collapsed: bool)      // since then a re-key ended a space delay: the keyup was called off

  function Noted(n: Notes, st: Station, h: Happening): Notes {
    match h
    case Keying(e) =>
      if OnAirEdge(st.tx, e) then Notes(false, false, false)
      else n.(collapsed := n.collapsed || (Fires(st.tx, e, PostSpace) && st.tx.requested))
    case Reading(s) => if Cuts(st.chain, s) then Notes(n.stoodDown, true, false) else n
    case Protect(on) =>
      if on == st.chain.policy.enabled || !st.tx.wire.mox then n
      else if on then Notes(false, false, false)
      else n.(stoodDown := true)
    case TuneSwitch(on) => n
  }

  function NotesOf(st: Station, hs: seq<Happening>): Notes
    decreases |hs|
  {
    if hs == [] then Notes(false, false, false)
    else Noted(NotesOf(st, hs[..|hs| - 1]), Path(st, hs[..|hs| - 1]), hs[|hs| - 1])
  }

  /** With the modulator's branch armed, the evaluator runs unless it stood down or cut. */
  ghost predicate Watched(n: Notes, st: Station) {
    && Safe(st.tx)
    && (st.tx.wire.inject ==> (st.chain.watch.running <==> !n.stoodDown && !n.cut))
    && (st.tx.wire.inject && n.cut ==> n.collapsed || At(st.tx, PostSpace) || At(st.tx, TxOff))
  }

  lemma EdgedRuns(st: Station, e: Event)
    ensures OnAirEdge(st.tx, e) ==> Edged(st, e).watch.running
    ensures !OnAirEdge(st.tx, e) && !ReceiveEdge(st.tx, e) ==> Edged(st, e) == st.chain
  {
    hide OnAirEdge, ReceiveEdge, RestoreFolded;
  }

  /** The two edges are what moves the on-the-air flag, and all that does. */
  lemma EdgesMoveTheFlag(s: Tx, e: Event)
    requires Safe(s)
    ensures Next(s, e).moxActive <==> OnAirEdge(s, e) || (s.moxActive && !ReceiveEdge(s, e))
  {
    hide Clamp, TxAttn, Fire;
    match e
    case Press(on, source) =>
    case Timeout(i, slot) =>
      if Due(s, i) {
        FireIsStep(s, i, slot);
      }
    case Inhibit(on) =>
    case Outside(edit) => ApplyKeepsChain(s, edit);
  }

  /** What an event of the sequencer can do to the armed branch. */
  lemma InjectMoves(s: Tx, e: Event)
    requires Safe(s)
    ensures var t := Next(s, e);
            && Safe(t)
            && (t.wire.inject ==> s.wire.inject || OnAirEdge(s, e))
            && (OnAirEdge(s, e) ==> t.wire.inject)
            && (t.wire.inject ==> !ReceiveEdge(s, e))
            && (t.wire.inject && (At(s, PostSpace) || At(s, TxOff)) ==>
                  At(t, PostSpace) || At(t, TxOff) || (Fires(s, e, PostSpace) && s.requested))
  {
    SafeNext(s, e);
    hide Clamp, TxAttn, Fire;
    match e
    case Press(on, source) =>
    case Timeout(i, slot) =>
      if Due(s, i) {
        FireIsStep(s, i, slot);
      }
    case Inhibit(on) =>
    case Outside(edit) => ApplyKeepsChain(s, edit);
  }

  lemma CutRequest(s: Tx)
    requires Safe(s)
    ensures var t := Request(s, false, Manual);
            && Safe(t) && t.wire == s.wire && !t.requested
            && (s.wire.inject ==> At(t, PostSpace) || At(t, TxOff))
            && (s.wire == ON_AIR ==> At(t, PostSpace))
  {
    SafeRequest(s, false, Manual);
    hide Clamp, TxAttn;
  }

  lemma WatchedKeying(n: Notes, st: Station, e: Event)
    requires Watched(n, st)
    ensures Watched(Noted(n, st, Keying(e)), Step(st, Keying(e)))
  {
    InjectMoves(st.tx, e);
    EdgedRuns(st, e);
    hide Next, Edged, Safe, OnAirEdge, ReceiveEdge, Fires, At;
  }

  lemma WatchedSwitch(n: Notes, st: Station, on: bool)
    requires Watched(n, st)
    ensures Watched(Noted(n, st, Protect(on)), Step(st, Protect(on)))
    ensures Watched(n, Step(st, TuneSwitch(on)))
  {
    WireNested(st.tx);
    hide Safe, At, RestoreFolded, CeilingRaw;
  }

  lemma WatchedReading(n: Notes, st: Station, s: P.Sample)
    requires Watched(n, st)
    ensures Watched(Noted(n, st, Reading(s)), Step(st, Reading(s)))
  {
    CutRequest(st.tx);
    StoppedStays(st.chain, s);
    hide P.Eval, Request, Safe, At;
  }

  lemma StoppedStays(c: P.Chain, s: P.Sample)
    ensures !c.watch.running ==> P.Eval(c, s) == c
    ensures Cuts(c, s) ==> P.Eval(c, s).watch.cut
  {
    P.TicksOn(c, s);
    hide P.EvalAwake, P.Blanked;
  }

  /** A session comes up in receive with the evaluator off. */
  ghost predicate StationUp(st: Station) {
    ComeUp(st.tx) && !st.chain.watch.running
  }

  lemma {:induction false} WatchedRun(st: Station, hs: seq<Happening>)
    requires StationUp(st)
    ensures Watched(NotesOf(st, hs), Path(st, hs))
    decreases |hs|
  {
    if hs == [] {
    } else {
      var front, h := hs[..|hs| - 1], hs[|hs| - 1];
      WatchedRun(st, front);
      var n, before := NotesOf(st, front), Path(st, front);
      hide Watched, Step, Noted, StationUp;
      WatchedStep(n, before, h);
    }
  }

  lemma WatchedStep(n: Notes, st: Station, h: Happening)
    requires Watched(n, st)
    ensures Watched(Noted(n, st, h), Step(st, h))
  {
    hide Watched, Step;
    match h
    case Keying(e) => WatchedKeying(n, st, e);
    case Reading(s) => WatchedReading(n, st, s);
    case Protect(on) => WatchedSwitch(n, st, on);
    case TuneSwitch(on) => WatchedSwitch(n, st, on);
  }

  /**
   * Over every session: at rest on the air the evaluator runs, except after a stand-down, or after a
   * cut of its own whose keyup was called off by a re-key in the space delay.
   */
  lemma OnAirIsWatched(st: Station, hs: seq<Happening>)
    requires StationUp(st)
    ensures var t, n := Path(st, hs), NotesOf(st, hs);
            IdleTx(t.tx) && t.tx.wire == ON_AIR ==>
              && (t.chain.watch.running <==> !n.stoodDown && !n.cut)
              && (n.cut ==> n.collapsed)
  {
    WatchedRun(st, hs);
  }

  /** The last PTT-out delay to end was ended by a re-key. */
  function LastRekeyed(st: Station, hs: seq<Happening>): bool
    decreases |hs|
  {
    if hs == [] then false
    else
      var front := hs[..|hs| - 1];
      if hs[|hs| - 1].Keying? && Fires(Path(st, front).tx, hs[|hs| - 1].e, KeyupSettled) then Path(st, front).tx.requested
      else LastRekeyed(st, front)
  }

  ghost predicate WatchedOnlyKeyed(st: Station, rekeyed: bool) {
    Safe(st.tx) && (st.chain.watch.running ==> st.tx.wire.mox || At(st.tx, KeyupSettled) || rekeyed)
  }

  /** What an event of the sequencer can do to a station that is not, or no longer, on the wire. */
  lemma OffWire(s: Tx, e: Event)
    requires Safe(s)
    ensures var t := Next(s, e);
            && Safe(t)
            && (s.wire.mox ==> t.wire.mox || At(t, KeyupSettled))
            && (At(s, KeyupSettled) ==> At(t, KeyupSettled) || Fires(s, e, KeyupSettled))
            && (OnAirEdge(s, e) ==> t.wire.mox)
  {
    SafeNext(s, e);
    hide Clamp, TxAttn, Fire;
    match e
    case Press(on, source) =>
    case Timeout(i, slot) =>
      if Due(s, i) {
        FireIsStep(s, i, slot);
      }
    case Inhibit(on) =>
    case Outside(edit) => ApplyKeepsChain(s, edit);
  }

  lemma EdgeStops(st: Station, e: Event)
    ensures ReceiveEdge(st.tx, e) ==> !Edged(st, e).watch.running
  {
    EdgesApart(st.tx, e);
    hide OnAirEdge, ReceiveEdge, RestoreFolded;
  }

  lemma OnlyKeyedKeying(st: Station, rekeyed: bool, e: Event)
    requires WatchedOnlyKeyed(st, rekeyed)
    ensures WatchedOnlyKeyed(Step(st, Keying(e)), if Fires(st.tx, e, KeyupSettled) then st.tx.requested else rekeyed)
  {
    OffWire(st.tx, e);
    EdgedRuns(st, e);
    EdgeStops(st, e);
    hide Next, Edged, Safe, OnAirEdge, Fires, At;
  }

  lemma OnlyKeyedOther(st: Station, rekeyed: bool, h: Happening)
    requires WatchedOnlyKeyed(st, rekeyed) && !h.Keying?
    ensures WatchedOnlyKeyed(Step(st, h), rekeyed)
  {
    CutRequest(st.tx);
    if h.Reading? {
      StoppedStays(st.chain, h.s);
      KeyupStays(st.tx);
    }
    hide P.Eval, Request, Safe, At, RestoreFolded, CeilingRaw;
  }

  lemma KeyupStays(s: Tx)
    requires Safe(s)
    ensures At(s, KeyupSettled) ==> At(Request(s, false, Manual), KeyupSettled)
  {
    hide TxAttn;
  }

  /** Over every session, at rest in receive nothing is evaluated, unless the last PTT-out delay was ended by a re-key. */
  lemma {:induction false} ReceiveIsUnwatched(st: Station, hs: seq<Happening>)
    requires StationUp(st)
    ensures WatchedOnlyKeyed(Path(st, hs), LastRekeyed(st, hs))
    ensures IdleRx(Path(st, hs).tx) && Path(st, hs).chain.watch.running ==> LastRekeyed(st, hs)
    decreases |hs|
  {
    if hs != [] {
      var front, h := hs[..|hs| - 1], hs[|hs| - 1];
      ReceiveIsUnwatched(st, front);
      hide Step, WatchedOnlyKeyed, Fires, StationUp;
      if h.Keying? {
        OnlyKeyedKeying(Path(st, front), LastRekeyed(st, front), h.e);
      } else {
        OnlyKeyedOther(Path(st, front), LastRekeyed(st, front), h);
      }
    }
    RestIsOffWire(Path(st, hs), LastRekeyed(st, hs));
  }

  lemma RestIsOffWire(st: Station, rekeyed: bool)
    ensures WatchedOnlyKeyed(st, rekeyed) && IdleRx(st.tx) && st.chain.watch.running ==> rekeyed
  {
  }

  // ---- What a cut amounts to ----

  ghost predicate NoTimer(hs: seq<Happening>) {
    forall i :: 0 <= i < |hs| ==> !(hs[i].Keying? && hs[i].e.Timeout?)
  }

  /** The last word on the key: a key-down counts if it is let through, a key-up always. */
  function Word(w: bool, st: Station, h: Happening): bool {
    match h
    case Keying(e) =>
      (match e
       case Press(on, source) => if on then w || !(st.tx.config.inhibit || st.tx.config.lockout) else false
       case Inhibit(on) => w && !(on && !st.tx.config.inhibit && st.tx.wire.mox)
       case _ => w)
    case Reading(s) => w && !Cuts(st.chain, s)
    case _ => w
  }

  function LastWord(w: bool, st: Station, hs: seq<Happening>): bool
    decreases |hs|
  {
    if hs == [] then w else Word(LastWord(w, st, hs[..|hs| - 1]), Path(st, hs[..|hs| - 1]), hs[|hs| - 1])
  }

  /** Between timers the wire stands still, a pending step stays pending, and the intent is the last word. */
  lemma StillStep(st: Station, h: Happening)
    requires Safe(st.tx) && !(h.Keying? && h.e.Timeout?)
    ensures var t := Step(st, h).tx;
            && Safe(t) && t.wire == st.tx.wire && t.requested == Word(st.tx.requested, st, h)
            && (st.tx.running ==> t.running && t.pending == st.tx.pending)
  {
    hide Clamp, TxAttn, P.Eval, P.SetTune, P.SetEnabled, Edged, Fire;
    if h.Keying? {
      SafeNext(st.tx, h.e);
      if h.e.Outside? {
        ApplyKeepsChain(st.tx, h.e.edit);
      }
    } else {
      SafeRequest(st.tx, false, Manual);
    }
  }

  lemma {:induction false} StillPath(st: Station, hs: seq<Happening>)
    requires Safe(st.tx) && NoTimer(hs)
    ensures var t := Path(st, hs).tx;
            && Safe(t) && t.wire == st.tx.wire && t.requested == LastWord(st.tx.requested, st, hs)
            && (st.tx.running ==> t.running && t.pending == st.tx.pending)
    decreases |hs|
  {
    if hs != [] {
      hide Step, Safe, Word;
      StillPath(st, hs[..|hs| - 1]);
      StillStep(Path(st, hs[..|hs| - 1]), hs[|hs| - 1]);
    }
  }

  lemma FireStep(s: Tx)
    requires Safe(s) && Due(s, 0)
    ensures var t := Next(s, FIRE);
            && Safe(t)
            && (At(s, PostSpace) ==> if s.requested then !t.running && t.wire == s.wire else At(t, TxOff) && !t.wire.txa)
            && (At(s, TxOff) ==> t.wire == DEAD)
            && (t.wire == DEAD ==> !At(s, PostSpace))
  {
    SafeNext(s, FIRE);
    hide Clamp, TxAttn, Fire;
    FireIsStep(s, 0, Quiet);
  }

  /** The station after a cut, whatever is asked before the space delay ends, and that timer. */
  function SpaceOver(st: Station, s: P.Sample, before: seq<Happening>): Station {
    Step(Path(Step(st, Reading(s)), before), Keying(FIRE))
  }

  /**
   * A cut on the air, anything but timers, the space timer, anything but timers, and the next timer:
   * the carrier has ended, and nothing asked meanwhile can prevent it, exactly when the last word
   * before the end of the space delay was not a key-down let through. With one, the station simply
   * stays on the air.
   */
  lemma CutEndsCarrierIff(st: Station, s: P.Sample, before: seq<Happening>, after: seq<Happening>)
    requires Safe(st.tx) && st.tx.wire == ON_AIR && Cuts(st.chain, s) && NoTimer(before) && NoTimer(after)
    requires Due(Path(Step(st, Reading(s)), before).tx, 0)
    requires var w := Path(SpaceOver(st, s, before), after).tx; At(w, TxOff) ==> Due(w, 0)
    ensures var rekeyed := LastWord(false, Step(st, Reading(s)), before);
            var mid, end := SpaceOver(st, s, before).tx, Step(Path(SpaceOver(st, s, before), after), Keying(FIRE)).tx;
            && (rekeyed ==> IdleTx(mid) && mid.wire == ON_AIR)
            && (!rekeyed ==> At(mid, TxOff) && !mid.wire.txa)
            && (end.wire == DEAD <==> !rekeyed)
  {
    CutRequest(st.tx);
    var cut := Step(st, Reading(s));
    StillPath(cut, before);
    var asked := Path(cut, before);
    assert At(asked.tx, PostSpace) && asked.tx.wire == ON_AIR;
    FireStep(asked.tx);
    var mid := SpaceOver(st, s, before);
    assert mid.tx == Next(asked.tx, FIRE);
    StillPath(mid, after);
    var w := Path(mid, after).tx;
    if At(mid.tx, TxOff) {
      assert At(w, TxOff);
      FireStep(w);
    } else {
      MoxStays(w);
    }
    hide Path, Step, Next, Safe, LastWord;
    assert Step(Path(mid, after), Keying(FIRE)).tx == Next(w, FIRE) by {
      KeyingNext(Path(mid, after));
    }
  }

  lemma KeyingNext(st: Station)
    ensures Step(st, Keying(FIRE)).tx == Next(st.tx, FIRE)
  {
  }

  lemma MoxStays(s: Tx)
    requires Safe(s) && s.wire == ON_AIR
    ensures Next(s, FIRE).wire != DEAD
  {
    hide Clamp, TxAttn, Fire;
    if Due(s, 0) {
      FireIsStep(s, 0, Quiet);
    }
  }

  /**
   * That one run, from every rest on the air: a cut, a press inside the space delay, and the station
   * is back at rest on the air with the evaluator stopped; then no reading does anything any more.
   */
  lemma {:induction false} RekeyedUnwatched(st: Station, s: P.Sample, readings: seq<P.Sample>)
    requires Open(st.tx) && OnAir(st.tx) && Cuts(st.chain, s)
    ensures var d := st.tx.config.delays.space;
            var t := Path(st, [Reading(s), Keying(DOWN), Keying(Later(d)), Keying(FIRE)]);
            && OnAir(t.tx) && !t.chain.watch.running && t.chain == P.Eval(st.chain, s)
            && P.Run(t.chain, readings) == t.chain
  {
    hide Clamp, TxAttn, P.Eval, P.SetTune, P.SetEnabled, P.Arm;
    var d := st.tx.config.delays.space;
    var hs := [Reading(s), Keying(DOWN), Keying(Later(d)), Keying(FIRE)];
    SafeRequest(st.tx, false, Manual);
    var s1 := Step(st, Reading(s));
    assert At(s1.tx, PostSpace) && !s1.tx.requested;
    var s2 := Step(s1, Keying(DOWN));
    var s3 := Step(s2, Keying(Later(d)));
    FireIsStep(s3.tx, 0, Quiet);
    var s4 := Step(s3, Keying(FIRE));
    assert OnAir(s4.tx) && s4.chain == P.Eval(st.chain, s);
    hide Step;
    PathOfFour(st, hs, s1, s2, s3, s4);
    Stopped(s4.chain, readings);
  }

  lemma PathOfFour(st: Station, hs: seq<Happening>, s1: Station, s2: Station, s3: Station, s4: Station)
    requires |hs| == 4 && s1 == Step(st, hs[0]) && s2 == Step(s1, hs[1]) && s3 == Step(s2, hs[2]) && s4 == Step(s3, hs[3])
    ensures Path(st, hs) == s4
  {
    hide Step;
    assert hs[..3][..2] == hs[..2] && hs[..2][..1] == hs[..1] && hs[..1][..0] == [];
    assert Path(st, hs[..1]) == s1;
    assert Path(st, hs[..2]) == s2;
    assert Path(st, hs[..3]) == s3;
  }

  lemma {:induction false} Stopped(c: P.Chain, readings: seq<P.Sample>)
    requires !c.watch.running
    ensures P.Run(c, readings) == c
    decreases |readings|
  {
    hide P.Eval;
    if readings != [] {
      Stopped(c, readings[..|readings| - 1]);
      StoppedStays(c, readings[|readings| - 1]);
    }
  }

  // ---- From a lasting fault to the key ----

  function Readings(samples: seq<P.Sample>): (hs: seq<Happening>)
    ensures |hs| == |samples|
  {
    seq(|samples|, i requires 0 <= i < |samples| => Reading(samples[i]))
  }

  /** Over ticks alone the chain runs as by itself, and its cut is one request to the sequencer. */
  lemma {:induction false} ReadingsPath(st: Station, samples: seq<P.Sample>)
    ensures var t := Path(st, Readings(samples));
            && t.chain == P.Run(st.chain, samples)
            && t.tx == (if st.chain.watch.running && !t.chain.watch.running then Request(st.tx, false, Manual) else st.tx)
    ensures !st.chain.watch.running ==> !P.Run(st.chain, samples).watch.running
    decreases |samples|
  {
    hide P.Eval, Request;
    if samples != [] {
      var front := samples[..|samples| - 1];
      assert Readings(samples)[..|samples| - 1] == Readings(front);
      ReadingsPath(st, front);
      StoppedStays(P.Run(st.chain, front), samples[|samples| - 1]);
    }
  }

  /** From rest on the air, a reflection that stays over the limit brings the keyup within the bound. */
  lemma ReflectionReleasesKey(st: Station, samples: seq<P.Sample>)
    requires Safe(st.tx) && OnAir(st.tx) && P.Live(st.chain)
    requires st.chain.policy.enabled && st.chain.watch.swrOver < P.Needed(st.chain.policy)
    requires forall i :: 0 <= i < |samples| ==> P.Reflects(st.chain.policy, samples[i])
    requires |samples| >= P.TicksToCut(st.chain, st.chain.watch.swrOver)
    ensures var t := Path(st, Readings(samples)); At(t.tx, PostSpace) && !t.tx.requested && !t.chain.watch.running
  {
    P.SustainedReflectionCuts(st.chain, samples);
    ReadingsPath(st, samples);
    CutRequest(st.tx);
    hide P.Run, Path, Request, P.Needed, P.TicksToCut;
  }

  /** So does a power that stays over the watts cap, with the reflected-power check on or off. */
  lemma PowerReleasesKey(st: Station, samples: seq<P.Sample>)
    requires Safe(st.tx) && OnAir(st.tx) && P.Live(st.chain) && st.chain.watch.wattsOver < P.Needed(st.chain.policy)
    requires forall i :: 0 <= i < |samples| ==> P.OverPower(st.chain, samples[i])
    requires |samples| >= P.TicksToCut(st.chain, st.chain.watch.wattsOver)
    ensures var t := Path(st, Readings(samples)); At(t.tx, PostSpace) && !t.tx.requested && !t.chain.watch.running
  {
    P.SustainedPowerCuts(st.chain, samples);
    ReadingsPath(st, samples);
    CutRequest(st.tx);
    hide P.Run, Path, Request, P.Needed, P.TicksToCut;
  }

  // ---- The switches ----

  function ProtectOf(start: bool, hs: seq<Happening>): bool
    decreases |hs|
  {
    if hs == [] then start else if hs[|hs| - 1].Protect? then hs[|hs| - 1].on else ProtectOf(start, hs[..|hs| - 1])
  }

  /** In a tune since it was last switched on, unless the station went to receive since. */
  function TuneOf(st: Station, hs: seq<Happening>): bool
    decreases |hs|
  {
    if hs == [] then st.chain.tune
    else
      var front := hs[..|hs| - 1];
      match hs[|hs| - 1]
      case TuneSwitch(on) => on
      case Keying(e) => TuneOf(st, front) && !ReceiveEdge(Path(st, front).tx, e)
      case _ => TuneOf(st, front)
  }

  /** The sequencer's share of a session: its own events, and the key-ups the cuts ask for. */
  function TxEvents(st: Station, hs: seq<Happening>): seq<Event>
    decreases |hs|
  {
    if hs == [] then []
    else
      var front := hs[..|hs| - 1];
      TxEvents(st, front) + (match hs[|hs| - 1]
                             case Keying(e) => [e]
                             case Reading(s) => if Cuts(Path(st, front).chain, s) then [UP] else []
                             case _ => [])
  }

  lemma SwitchStep(st: Station, h: Happening)
    ensures var t := Step(st, h);
            && t.chain.policy == st.chain.policy.(enabled := if h.Protect? then h.on else st.chain.policy.enabled)
            && t.chain.tune == (match h
                                case TuneSwitch(on) => on
                                case Keying(e) => st.chain.tune && !ReceiveEdge(st.tx, e)
                                case _ => st.chain.tune)
  {
    if h.Reading? {
      P.Concerns(st.chain, h.s);
    }
    hide P.Eval, Next, Request, Fires, RestoreFolded, CeilingRaw;
    if h.Keying? {
      EdgesApart(st.tx, h.e);
    }
  }

  lemma EdgesApart(s: Tx, e: Event)
    ensures !(OnAirEdge(s, e) && ReceiveEdge(s, e))
  {
  }

  /** Over every session protection is on as last switched, a tune lasts until switched off or back in receive, and nothing else of the policy moves. */
  lemma {:induction false} SwitchesAreHistory(st: Station, hs: seq<Happening>)
    ensures var c := Path(st, hs).chain;
            && c.policy == st.chain.policy.(enabled := ProtectOf(st.chain.policy.enabled, hs))
            && c.tune == TuneOf(st, hs)
    decreases |hs|
  {
    if hs != [] {
      hide Step, ReceiveEdge;
      SwitchesAreHistory(st, hs[..|hs| - 1]);
      SwitchStep(Path(st, hs[..|hs| - 1]), hs[|hs| - 1]);
    }
  }

  /** The sequencer in a session is the sequencer on its own share of it. */
  lemma {:induction false} TxRunsOnItsShare(st: Station, hs: seq<Happening>)
    ensures Path(st, hs).tx == Run(st.tx, TxEvents(st, hs))
    decreases |hs|
  {
    if hs != [] {
      var front, h := hs[..|hs| - 1], hs[|hs| - 1];
      TxRunsOnItsShare(st, front);
      var before, es := Path(st, front), TxEvents(st, front);
      hide P.Eval, Request, Fire, Edged, Path;
      assert Path(st, hs) == Step(before, h) by {
        PathStep(st, hs);
      }
      if h.Keying? {
        assert (es + [h.e])[..|es|] == es;
      } else if h.Reading? && Cuts(before.chain, h.s) {
        assert (es + [UP])[..|es|] == es;
      } else {
        assert es + [] == es;
      }
    }
  }

  lemma PathStep(st: Station, hs: seq<Happening>)
    requires hs != []
    ensures Path(st, hs) == Step(Path(st, hs[..|hs| - 1]), hs[|hs| - 1])
  {
  }
}
