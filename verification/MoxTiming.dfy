/** The spacing between the edges of a transmission, over every run. */
module MoxTiming {
  import opened Basics
  import opened MoxSequencer

  /** When each edge was last seen; START stands for long ago. */
  datatype Log = Log(raisedAt: int, moxOnAt: int, txaOffAt: int, moxOffAt: int)

  const START := Log(-500, -500, -500, -500)

  /** Reads the edges off two successive states, without looking at how they came about. */
  function Observe(l: Log, s: Tx, t: Tx): Log {
    Log(
      if !s.front.ocTx && t.front.ocTx then t.now else l.raisedAt,
      if !s.wire.mox && t.wire.mox then t.now else l.moxOnAt,
      if s.wire.txa && !t.wire.txa then t.now else l.txaOffAt,
      if s.wire.mox && !t.wire.mox then t.now else l.moxOffAt)
  }

  ghost predicate AtLeast(d: Delays, lo: Delays) {
    d.mox >= lo.mox && d.rf >= lo.rf && d.space >= lo.space && d.pttOut >= lo.pttOut && d.txStop >= lo.txStop
  }

  /** No edge comes earlier than the delays allow. */
  ghost predicate Spaced(l: Log, s: Tx, t: Tx, lo: Delays) {
    && (!s.wire.mox && t.wire.mox ==>
          s.front.ocTx && s.front.stepAttn == TxAttn(s.config) && t.now >= l.raisedAt + lo.mox)
    && (!s.wire.txa && t.wire.txa ==> s.wire.mox && t.now >= l.moxOnAt + lo.rf)
    && (s.wire.mox && !t.wire.mox ==> !s.wire.txa && t.now >= l.txaOffAt + lo.txStop)
    && (s.front.ocTx && !t.front.ocTx ==> !s.wire.mox && t.now >= l.moxOffAt + lo.pttOut)
  }

  /** The operator leaves dial and attenuator alone during a chain, the dial also while keyed. */
  ghost predicate Orderly(s: Tx, e: Event, lo: Delays) {
    e.Outside? ==>
      && (e.edit == Retune ==> IdleRx(s))
      && (AttEdit(e) ==> !s.running)
      && (e.edit.EditDelays? ==> AtLeast(ClampDelays(e.edit.delays), lo))
  }

  ghost predicate Timed(l: Log, s: Tx, lo: Delays) {
    && AtLeast(s.config.delays, lo)
    && (s.front.ocTx <==> !IdleRx(s))
    && (s.front.ocTx ==> s.front.stepAttn == TxAttn(s.config))
    && l.raisedAt <= s.now && l.moxOnAt <= s.now && l.txaOffAt <= s.now && l.moxOffAt <= s.now
    && (At(s, PostMox) ==> s.pending[0].due >= l.raisedAt + lo.mox)
    && (At(s, KeydownSettled) ==> s.pending[0].due >= l.moxOnAt + lo.rf)
    && (At(s, TxOff) ==> s.pending[0].due >= l.txaOffAt + lo.txStop)
    && (At(s, KeyupSettled) ==> s.pending[0].due >= l.moxOffAt + lo.pttOut)
    && (At(s, PostMox) || IdleRx(s) ==> s.now >= l.moxOffAt + lo.pttOut)
  }

  lemma TimedStep(l: Log, s: Tx, i: nat, slot: Slot, lo: Delays)
    requires Safe(s) && Due(s, i) && Timed(l, s, lo)
    ensures var t := Next(s, Timeout(i, slot)); Spaced(l, s, t, lo) && Timed(Observe(l, s, t), t, lo)
  {
    hide Fire, Clamp, TxAttn;
    FireIsStep(s, i, slot);
    match s.pending[0].step
    case PostMox =>
    case KeydownSettled =>
    case PostSpace =>
    case TxOff =>
    case KeyupSettled =>
  }

  lemma TimedRequest(l: Log, s: Tx, on: bool, source: Source, lo: Delays)
    requires Safe(s) && Timed(l, s, lo)
    ensures var t := Request(s, on, source); Spaced(l, s, t, lo) && Timed(Observe(l, s, t), t, lo)
  {
    hide Clamp;
  }

  lemma TimedApply(l: Log, s: Tx, e: Edit, lo: Delays)
    requires Safe(s) && Timed(l, s, lo) && Orderly(s, Outside(e), lo)
    ensures var t := Apply(s, e); Spaced(l, s, t, lo) && Timed(Observe(l, s, t), t, lo)
  {
    ApplyKeepsChain(s, e);
    hide Clamp, ClampDelays;
  }

  /** The inhibit is a setting, and with MOX on a request. */
  lemma TimedInhibit(l: Log, s: Tx, on: bool, lo: Delays)
    requires Safe(s) && Timed(l, s, lo)
    ensures var t := SetInhibit(s, on); Spaced(l, s, t, lo) && Timed(Observe(l, s, t), t, lo)
  {
    hide Request, Clamp;
    var u := s.(config := s.config.(inhibit := on));
    assert Safe(u) && Timed(l, u, lo);
    TimedRequest(l, u, false, Manual, lo);
  }

  lemma TimedNext(l: Log, s: Tx, e: Event, lo: Delays)
    requires Safe(s) && Timed(l, s, lo) && Orderly(s, e, lo)
    ensures var t := Next(s, e); Spaced(l, s, t, lo) && Timed(Observe(l, s, t), t, lo)
  {
    hide Request, Fire, Apply, SetInhibit, Safe, Orderly, Clamp, ClampDelays, TxAttn;
    match e
    case Press(on, source) => TimedRequest(l, s, on, source, lo);
    case Timeout(i, slot) =>
      if Due(s, i) {
        TimedStep(l, s, i, slot, lo);
      }
    case Inhibit(on) => TimedInhibit(l, s, on, lo);
    case Outside(edit) => TimedApply(l, s, edit, lo);
  }

  function Logged(s: Tx, es: seq<Event>): Log {
    if es == [] then START
    else
      var before := es[..|es| - 1];
      Observe(Logged(s, before), Run(s, before), Run(s, es))
  }

  ghost predicate OrderlyRun(s: Tx, es: seq<Event>, lo: Delays) {
    es == [] || (OrderlyRun(s, es[..|es| - 1], lo) && Orderly(Run(s, es[..|es| - 1]), es[|es| - 1], lo))
  }

  lemma {:induction false} TimedRun(s: Tx, es: seq<Event>, lo: Delays)
    requires ComeUp(s) && AtLeast(s.config.delays, lo) && lo.pttOut <= MAX_FSM_DELAY_MS
    requires OrderlyRun(s, es, lo)
    ensures Safe(Run(s, es)) && Timed(Logged(s, es), Run(s, es), lo)
  {
    if es != [] {
      hide Timed, Next, Observe, Safe, Spaced;
      var before := es[..|es| - 1];
      TimedRun(s, before, lo);
      SafeNext(Run(s, before), es[|es| - 1]);
      TimedNext(Logged(s, before), Run(s, before), es[|es| - 1], lo);
    } else {
      assert Timed(START, s, lo);
    }
  }

  /**
   * The hot-switch guarantee: after any orderly run, whatever comes next keeps every edge at least
   * as far from its predecessor as the shortest delay the operator ever set.
   */
  lemma SpacingKept(s: Tx, es: seq<Event>, e: Event, lo: Delays)
    requires ComeUp(s) && AtLeast(s.config.delays, lo) && lo.pttOut <= MAX_FSM_DELAY_MS
    requires OrderlyRun(s, es, lo) && Orderly(Run(s, es), e, lo)
    ensures Spaced(Logged(s, es), Run(s, es), Next(Run(s, es), e), lo)
  {
    TimedRun(s, es, lo);
    TimedNext(Logged(s, es), Run(s, es), e, lo);
  }
}
