/** The voice-operated key: a polling layer that may only hold a key it raised itself. */
module VoxGate {
  import opened Basics
  import opened MoxIntent
  import opened MoxSequencer

  datatype Gate = Gate(
    tx: Tx,
    owns: bool,       // the gate raised the current key
    keying: bool,     // its lamp
    enabled: bool,
    cw: bool)         // a CW mode is selected

  function Drop(v: Gate): Gate {
    v.(owns := false, keying := false)
  }

  predicate HoldsWire(v: Gate) {
    v.tx.wire.mox && v.tx.source == Vox
  }

  /** Gives up a key that vanished from under the gate. */
  function Reconcile(v: Gate): Gate {
    if v.owns && !HoldsWire(v) then Drop(v) else v
  }

  function Release(v: Gate): Gate {
    Drop(v.(tx := Request(v.tx, false, Vox)))
  }

  function Poll(v: Gate, want: bool): Gate {
    var r := Reconcile(v);
    if !r.enabled || r.cw || r.tx.config.inhibit then
      if r.owns then Release(r) else r
    else if want && !r.owns then
      if !r.tx.wire.mox && !r.tx.requested
      then r.(tx := Request(r.tx, true, Vox), owns := true, keying := true)
      else r
    else if !want && r.owns then
      if HoldsWire(r) then Release(r) else Drop(r)
    else r
  }

  function SetEnabled(v: Gate, on: bool): Gate {
    if on == v.enabled then v
    else
      var t := v.(enabled := on);
      if on then t
      else if t.owns && HoldsWire(t) then Release(t)
      else Drop(t)
  }

  datatype Happening =
    | Polled(want: bool)
    | Enable(on: bool)
    | SelectCw(on: bool)
    | Keying(e: Event)      // everything that is not the gate

  function Step(v: Gate, e: Happening): Gate {
    match e
    case Polled(want) => Poll(v, want)
    case Enable(on) => SetEnabled(v, on)
    case SelectCw(on) => v.(cw := on)
    case Keying(k) => v.(tx := Next(v.tx, k))
  }

  // ---- Whose key it is ----

  predicate Blocked(s: Tx) {
    s.config.inhibit || s.config.lockout
  }

  /** Who last got a key-down through the lockouts. */
  function LastKeyer(last: Option<Source>, s: Tx, e: Event): Option<Source> {
    match e
    case Press(on, source) => if on && !Blocked(s) then Some(source) else last
    case Timeout(i, slot) =>
      if slot.Asks? && slot.on && SlotRuns(s, i) && !Blocked(s) then Some(slot.source) else last
    case _ => last
  }

  /** The request the gate itself makes at a step, if any. */
  function GateAsks(v: Gate, e: Happening): Option<bool> {
    match e
    case Polled(want) =>
      var r := Reconcile(v);
      if !r.enabled || r.cw || r.tx.config.inhibit then (if r.owns then Some(false) else None)
      else if want && !r.owns && !r.tx.wire.mox && !r.tx.requested then Some(true)
      else if !want && r.owns && HoldsWire(r) then Some(false)
      else None
    case Enable(on) => if !on && v.enabled && v.owns && HoldsWire(v) then Some(false) else None
    case _ => None
  }

  function LastKey(last: Option<Source>, v: Gate, e: Happening): Option<Source> {
    if e.Keying? then LastKeyer(last, v.tx, e.e)
    else if GateAsks(v, e) == Some(true) then LastKeyer(last, v.tx, Press(true, Vox))
    else last
  }

  /** The recorded source is the last keyer's, or back to the default. */
  ghost predicate SourceTold(last: Option<Source>, s: Tx) {
    s.source != Manual ==> last == Some(s.source)
  }

  lemma SourceNext(last: Option<Source>, s: Tx, e: Event)
    requires Safe(s) && SourceTold(last, s)
    ensures SourceTold(LastKeyer(last, s, e), Next(s, e))
  {
    hide Clamp, Fire, TxAttn;
    match e
    case Press(on, source) =>
    case Timeout(i, slot) =>
      if Due(s, i) {
        FireIsStep(s, i, slot);
      }
    case Inhibit(on) =>
    case Outside(edit) => ApplyKeepsChain(s, edit);
  }

  /** A step of the gate is at most one request, with the gate's name on it. */
  lemma GateIsRequest(v: Gate, e: Happening)
    requires !e.Keying?
    ensures var t := Step(v, e).tx;
            match GateAsks(v, e)
            case None => t == v.tx
            case Some(on) => t == Request(v.tx, on, Vox)
  {
    hide Request;
  }

  lemma GateSafe(last: Option<Source>, v: Gate, e: Happening)
    requires Safe(v.tx) && SourceTold(last, v.tx)
    ensures Safe(Step(v, e).tx) && SourceTold(LastKey(last, v, e), Step(v, e).tx)
  {
    if e.Keying? {
      SafeNext(v.tx, e.e);
      SourceNext(last, v.tx, e.e);
    } else {
      GateIsRequest(v, e);
      if GateAsks(v, e).Some? {
        var press := Press(GateAsks(v, e).value, Vox);
        SafeNext(v.tx, press);
        SourceNext(last, v.tx, press);
      }
    }
  }

  function Path(v: Gate, es: seq<Happening>): Gate {
    if es == [] then v else Step(Path(v, es[..|es| - 1]), es[|es| - 1])
  }

  function LastOf(v: Gate, es: seq<Happening>): Option<Source> {
    if es == [] then None
    else
      var before := es[..|es| - 1];
      LastKey(LastOf(v, before), Path(v, before), es[|es| - 1])
  }

  lemma {:induction false} PathSafe(v: Gate, es: seq<Happening>)
    requires ComeUp(v.tx)
    ensures Safe(Path(v, es).tx) && SourceTold(LastOf(v, es), Path(v, es).tx)
  {
    if es != [] {
      hide Step, Safe, LastKey, SourceTold;
      PathSafe(v, es[..|es| - 1]);
      GateSafe(LastOf(v, es[..|es| - 1]), Path(v, es[..|es| - 1]), es[|es| - 1]);
    } else {
      assert SourceTold(None, v.tx);
    }
  }

  /**
   * Own-key discipline, over every interleaving with the other key sources: the gate keys only
   * with wire and intent both off, and lets go only of a key-down that was its own.
   */
  lemma OwnKeyOnly(v0: Gate, es: seq<Happening>, e: Happening)
    requires ComeUp(v0.tx)
    ensures var v := Path(v0, es);
            && (GateAsks(v, e) == Some(true) ==> !v.tx.wire.mox && !v.tx.requested)
            && (GateAsks(v, e) == Some(false) ==> v.owns && v.tx.wire.mox && LastOf(v0, es) == Some(Vox))
  {
    PathSafe(v0, es);
  }

  // ---- Keeping the key until the next poll ----

  const POLL_MS: nat := 50

  /** Between two polls nobody else keys: timers fire on time, and settings other than delays may change. */
  ghost predicate Undisturbed(s: Tx, e: Event) {
    match e
    case Press(on, source) => false
    case Timeout(i, slot) => slot == Quiet
    case Inhibit(on) => false
    case Outside(edit) =>
      && !edit.EditDelays?
      && (edit.Wait? && s.pending != [] ==> s.now + edit.ms <= s.pending[0].due)
  }

  ghost predicate Prompt(s: Tx) {
    s.pending != [] ==> s.now <= s.pending[0].due
  }

  /** A timer is never set further ahead than the delay it waits for. */
  ghost predicate Ahead(s: Tx) {
    && (At(s, PostMox) ==> s.pending[0].due <= s.now + s.config.delays.mox)
    && (At(s, KeyupSettled) ==> s.pending[0].due <= s.now + s.config.delays.pttOut)
  }

  lemma AheadRequest(s: Tx, on: bool, source: Source)
    requires Safe(s) && Ahead(s)
    ensures Ahead(Request(s, on, source))
  {
    hide Clamp, TxAttn;
  }

  lemma AheadStep(s: Tx, i: nat, slot: Slot)
    requires Safe(s) && Ahead(s) && Due(s, i)
    ensures Ahead(Fire(s, i, slot))
  {
    hide Clamp, TxAttn, Fire;
    FireIsStep(s, i, slot);
  }

  lemma AheadNext(s: Tx, e: Event)
    requires Safe(s) && Ahead(s) && (s.running ==> !(e.Outside? && e.edit.EditDelays?))
    ensures Ahead(Next(s, e))
  {
    hide Clamp, Fire, Request, TxAttn, Due;
    match e
    case Press(on, source) => AheadRequest(s, on, source);
    case Timeout(i, slot) =>
      if Due(s, i) {
        AheadStep(s, i, slot);
      }
    case Inhibit(on) => AheadRequest(s.(config := s.config.(inhibit := on)), false, Manual);
    case Outside(edit) => ApplyKeepsChain(s, edit);
  }

  /** Timers fire on time, and the delays are edited only between chains. */
  ghost predicate Timely(s: Tx, e: Event) {
    e.Outside? ==>
      && (e.edit.EditDelays? ==> !s.running)
      && (e.edit.Wait? && s.pending != [] ==> s.now + e.edit.ms <= s.pending[0].due)
  }

  ghost predicate TimelyPath(v: Gate, es: seq<Happening>) {
    es == [] || (TimelyPath(v, es[..|es| - 1])
                 && (es[|es| - 1].Keying? ==> Timely(Path(v, es[..|es| - 1]).tx, es[|es| - 1].e)))
  }

  lemma PromptNext(s: Tx, e: Event)
    requires Safe(s) && Prompt(s) && Timely(s, e)
    ensures Prompt(Next(s, e))
  {
    hide Clamp, Fire, TxAttn;
    match e
    case Press(on, source) =>
    case Timeout(i, slot) =>
      if Due(s, i) {
        FireIsStep(s, i, slot);
      }
    case Inhibit(on) =>
    case Outside(edit) => ApplyKeepsChain(s, edit);
  }

  /** In every timely session timers are on time and never set further ahead than their delay. */
  lemma {:induction false} AheadRun(v: Gate, es: seq<Happening>)
    requires ComeUp(v.tx) && TimelyPath(v, es)
    ensures Safe(Path(v, es).tx) && Prompt(Path(v, es).tx) && Ahead(Path(v, es).tx)
  {
    PathSafe(v, es);
    if es != [] {
      var before, e := Path(v, es[..|es| - 1]), es[|es| - 1];
      AheadRun(v, es[..|es| - 1]);
      hide Safe, Prompt, Ahead, Timely, Next, Request, Step, GateAsks;
      AheadHappening(before, e);
    }
  }

  lemma AheadHappening(v: Gate, e: Happening)
    requires Safe(v.tx) && Prompt(v.tx) && Ahead(v.tx) && (e.Keying? ==> Timely(v.tx, e.e))
    ensures Prompt(Step(v, e).tx) && Ahead(Step(v, e).tx)
  {
    hide Safe, Prompt, Ahead, Next, Request, Poll, SetEnabled;
    if e.Keying? {
      PromptNext(v.tx, e.e);
      AheadNext(v.tx, e.e);
    } else {
      GateIsRequest(v, e);
      if GateAsks(v, e).Some? {
        NextIsRequest(v.tx, GateAsks(v, e).value);
        PromptNext(v.tx, Press(GateAsks(v, e).value, Vox));
        AheadRequest(v.tx, GateAsks(v, e).value, Vox);
      }
    }
  }

  lemma NextIsRequest(s: Tx, on: bool)
    ensures Next(s, Press(on, Vox)) == Request(s, on, Vox)
  {
  }

  /** When an opened key will be on the wire: from rest, in a cancelled MOX delay, in a PTT-out delay. */
  function OnWireAt(s: Tx): nat {
    if s.pending == [] then s.now + s.config.delays.mox
    else if s.pending[0].step == KeyupSettled then s.pending[0].due + s.config.delays.mox
    else s.pending[0].due
  }

  /** On its way to the wire, due there at one moment; or there, and past it. */
  ghost predicate Arriving(s: Tx, at: nat) {
    && Safe(s) && Prompt(s) && s.requested && s.source == Vox
    && ((s.wire.mox && !At(s, TxOff) && s.now >= at)
        || (At(s, PostMox) && s.pending[0].due == at)
        || (At(s, KeyupSettled) && s.pending[0].due + s.config.delays.mox == at))
  }

  lemma ArrivingNext(s: Tx, e: Event, at: nat)
    requires Arriving(s, at) && Undisturbed(s, e)
    ensures Arriving(Next(s, e), at)
  {
    SafeNext(s, e);
    hide Clamp, TxAttn, Fire;
    match e
    case Timeout(i, slot) =>
      if Due(s, i) {
        FireIsStep(s, i, slot);
      }
    case Outside(edit) => ApplyKeepsChain(s, edit);
  }

  /** The poll that opens the gate, whatever part of a chain it met, sets the moment. */
  lemma OpeningArrives(v: Gate)
    requires Safe(v.tx) && Prompt(v.tx) && !Blocked(v.tx) && GateAsks(v, Polled(true)) == Some(true)
    ensures var r := Poll(v, true); Arriving(r.tx, OnWireAt(v.tx)) && r.owns && r.enabled && r.tx.now == v.tx.now
    ensures Ahead(v.tx) ==> OnWireAt(v.tx) <= v.tx.now + v.tx.config.delays.pttOut + v.tx.config.delays.mox
  {
    SafeRequest(v.tx, true, Vox);
    hide Clamp, TxAttn;
  }

  ghost predicate QuietPath(v: Gate, es: seq<Event>) {
    es == [] || (QuietPath(v, es[..|es| - 1]) && Undisturbed(After(v, es[..|es| - 1]).tx, es[|es| - 1]))
  }

  /** The gate while only the sequencer moves. */
  function After(v: Gate, es: seq<Event>): Gate {
    v.(tx := Run(v.tx, es))
  }

  lemma {:induction false} ArrivingPath(v: Gate, es: seq<Event>, at: nat)
    requires Arriving(v.tx, at) && QuietPath(v, es)
    ensures Arriving(After(v, es).tx, at)
  {
    if es != [] {
      hide Arriving, Next, Undisturbed;
      ArrivingPath(v, es[..|es| - 1], at);
      ArrivingNext(Run(v.tx, es[..|es| - 1]), es[|es| - 1], at);
    }
  }

  /** Nothing that is due is still waiting to fire. */
  ghost predicate Drained(s: Tx) {
    s.pending != [] ==> s.now < s.pending[0].due
  }

  /**
   * With nobody else keying, a key the gate opened, from whatever state, is on the wire and still its
   * own at a later poll exactly when the moment of its MOX bit has come.
   */
  lemma KeptIff(v: Gate, es: seq<Event>)
    requires Safe(v.tx) && Prompt(v.tx) && !Blocked(v.tx) && GateAsks(v, Polled(true)) == Some(true)
    requires QuietPath(Poll(v, true), es) && Drained(After(Poll(v, true), es).tx)
    ensures var w := After(Poll(v, true), es);
            && (Reconcile(w).owns <==> w.tx.now >= OnWireAt(v.tx))
            && (HoldsWire(w) <==> w.tx.now >= OnWireAt(v.tx))
  {
    OpeningArrives(v);
    ArrivingPath(Poll(v, true), es, OnWireAt(v.tx));
    hide OnWireAt, Poll, Run, QuietPath;
  }

  /**
   * In every timely session: if MOX delay and PTT-out delay together stay below the poll interval, a
   * key the gate raised is on the wire and still its own at the next poll, unless another source
   * stepped in.
   */
  lemma KeptToNextPoll(v0: Gate, hs: seq<Happening>, es: seq<Event>)
    requires ComeUp(v0.tx) && TimelyPath(v0, hs)
    requires var v := Path(v0, hs);
             && !Blocked(v.tx) && GateAsks(v, Polled(true)) == Some(true)
             && v.tx.config.delays.mox + v.tx.config.delays.pttOut < POLL_MS
             && QuietPath(Poll(v, true), es) && After(Poll(v, true), es).tx.now >= v.tx.now + POLL_MS
    ensures var w := After(Poll(Path(v0, hs), true), es); HoldsWire(w) && Reconcile(w).owns
  {
    var v := Path(v0, hs);
    AheadRun(v0, hs);
    OpeningArrives(v);
    ArrivingPath(Poll(v, true), es, OnWireAt(v.tx));
    hide OnWireAt, Poll, Run, Path, QuietPath, TimelyPath;
  }

  // ---- Losing it ----

  /** Keyed or keying in the gate's name, but no longer its own. */
  ghost predicate Orphaned(v: Gate) {
    Safe(v.tx) && v.tx.requested && !v.owns
  }

  /** Everything the gate and the passage of time can do. */
  ghost predicate NobodyElse(v: Gate, e: Happening) {
    e.Keying? ==> (e.e.Timeout? && e.e.slot == Quiet) || e.e.Outside?
  }

  /** An orphaned key stays: no poll, and not even switching the gate off, releases it. */
  lemma OrphanStays(v: Gate, e: Happening)
    requires Orphaned(v) && NobodyElse(v, e)
    ensures Orphaned(Step(v, e)) && GateAsks(v, e) == None
  {
    if e.Keying? {
      SafeNext(v.tx, e.e);
      hide Clamp;
      if e.e.Timeout? && Due(v.tx, e.e.i) {
        FireIsStep(v.tx, e.e.i, Quiet);
        hide Fire;
      } else if e.e.Outside? {
        ApplyKeepsChain(v.tx, e.e.edit);
      }
    }
  }

  ghost predicate NobodyElsePath(v: Gate, es: seq<Happening>) {
    es == [] || (NobodyElsePath(v, es[..|es| - 1]) && NobodyElse(Path(v, es[..|es| - 1]), es[|es| - 1]))
  }

  lemma {:induction false} OrphanForever(v: Gate, es: seq<Happening>)
    requires Orphaned(v) && NobodyElsePath(v, es)
    ensures Orphaned(Path(v, es))
  {
    if es != [] {
      hide Orphaned, Step;
      OrphanForever(v, es[..|es| - 1]);
      OrphanStays(Path(v, es[..|es| - 1]), es[|es| - 1]);
    }
  }

  /**
   * Before that moment every poll, and switching the gate off, loses the key while the key-down goes
   * on, as an orphan.
   */
  lemma LostBeforeMox(v: Gate, es: seq<Event>, want: bool)
    requires Safe(v.tx) && Prompt(v.tx) && !Blocked(v.tx) && GateAsks(v, Polled(true)) == Some(true)
    requires QuietPath(Poll(v, true), es) && After(Poll(v, true), es).tx.now < OnWireAt(v.tx)
    ensures var w := After(Poll(v, true), es);
            && !Reconcile(w).owns && Orphaned(Poll(w, want)) && Orphaned(SetEnabled(w, false))
  {
    OpeningArrives(v);
    ArrivingPath(Poll(v, true), es, OnWireAt(v.tx));
    var r := Poll(v, true);
    var w := After(r, es);
    assert w.owns && w.enabled && !w.tx.wire.mox && w.tx.requested && Safe(w.tx);
    hide OnWireAt, Run, QuietPath, Request, Safe;
  }

  // ---- The gate's own switches ----

  function EnabledOf(start: bool, es: seq<Happening>): bool
    decreases |es|
  {
    if es == [] then start else if es[|es| - 1].Enable? then es[|es| - 1].on else EnabledOf(start, es[..|es| - 1])
  }

  function CwOf(start: bool, es: seq<Happening>): bool
    decreases |es|
  {
    if es == [] then start else if es[|es| - 1].SelectCw? then es[|es| - 1].on else CwOf(start, es[..|es| - 1])
  }

  /** Over every session the gate is on and in voice as it was last told, and its lamp is its ownership. */
  lemma {:induction false} GateIsHistory(v: Gate, es: seq<Happening>)
    ensures var w := Path(v, es);
            && w.enabled == EnabledOf(v.enabled, es) && w.cw == CwOf(v.cw, es)
            && (v.keying == v.owns ==> w.keying == w.owns)
    decreases |es|
  {
    if es != [] {
      GateIsHistory(v, es[..|es| - 1]);
      hide Next, Request, EnabledOf, CwOf;
      GateStep(Path(v, es[..|es| - 1]), es[|es| - 1]);
      HistoryStep(v, es);
      hide Step;
    }
  }

  lemma HistoryStep(v: Gate, es: seq<Happening>)
    requires es != []
    ensures var e, front := es[|es| - 1], es[..|es| - 1];
            && EnabledOf(v.enabled, es) == (if e.Enable? then e.on else EnabledOf(v.enabled, front))
            && CwOf(v.cw, es) == (if e.SelectCw? then e.on else CwOf(v.cw, front))
  {
  }

  lemma GateStep(v: Gate, e: Happening)
    ensures var w := Step(v, e);
            && w.enabled == (if e.Enable? then e.on else v.enabled)
            && w.cw == (if e.SelectCw? then e.on else v.cw)
            && (v.keying == v.owns ==> w.keying == w.owns)
  {
    hide Next, Request;
  }

  /**
   * In every session: a poll opens the gate exactly when speech is heard with the gate on, in voice,
   * not inhibited, and wire and intent both off; it then owns the key.
   */
  lemma OpensIff(v0: Gate, es: seq<Happening>, want: bool)
    ensures var v := Path(v0, es);
            && (GateAsks(v, Polled(want)) == Some(true)
                <==> && want && EnabledOf(v0.enabled, es) && !CwOf(v0.cw, es)
                     && !v.tx.config.inhibit && !v.tx.wire.mox && !v.tx.requested)
            && (GateAsks(v, Polled(want)) == Some(true) ==> Step(v, Polled(want)).owns)
  {
    hide Path, Request;
    GateIsHistory(v0, es);
  }

  /** Silence, a switch to CW, the inhibit or switching off: an own key on the wire is let go and goes off the air. */
  lemma ClosingReleases(v: Gate, e: Happening)
    requires Safe(v.tx) && v.owns && HoldsWire(v)
    requires (e.Polled? && (!e.want || !v.enabled || v.cw || v.tx.config.inhibit)) || (e == Enable(false) && v.enabled)
    ensures var w := Step(v, e);
            Safe(w.tx) && !w.tx.requested && !w.owns && !w.keying && w.tx.running && !Settle(w.tx).wire.mox
  {
    SafeRequest(v.tx, false, Vox);
    hide TxAttn, Settle, Clamp;
    Converges(Step(v, e).tx);
  }

  /** A gate that stays switched off asks for no key-down, and not owning a key it leaves the sequencer alone. */
  lemma SwitchedOffNeverKeys(v: Gate, es: seq<Happening>, e: Happening)
    requires !v.enabled && Enable(true) !in es && !e.Keying?
    ensures GateAsks(Path(v, es), e) != Some(true)
    ensures !Path(v, es).owns ==> Step(Path(v, es), e).tx == Path(v, es).tx
  {
    NeverSwitchedOn(v.enabled, es);
    GateIsHistory(v, es);
    hide Path, Request, EnabledOf, CwOf;
  }

  lemma {:induction false} NeverSwitchedOn(start: bool, es: seq<Happening>)
    requires !start && Enable(true) !in es
    ensures !EnabledOf(start, es)
    decreases |es|
  {
    if es != [] {
      NeverSwitchedOn(start, es[..|es| - 1]);
      assert es[|es| - 1] in es;
    }
  }
}
