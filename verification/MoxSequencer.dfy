/** The TX/RX sequencer: one keying funnel and six timer-driven steps around the wire MOX bit. */
module MoxSequencer {
  import opened Basics

  datatype Source = Manual | HwPtt | Tci | Serial | Vox | Keyer

  datatype Step = PostMox | KeydownSettled | PostSpace | TxOff | KeyupSettled

  /** A single-shot timer: the step it runs and the time it may run at. */
  datatype Timer = Timer(step: Step, due: nat)

  datatype Delays = Delays(mox: nat, rf: nat, space: nat, pttOut: nat, txStop: nat)

  /** What slots connected to an edge signal request from inside it. */
  datatype Slot = Quiet | Asks(on: bool, source: Source)

  /** What the wire and the modulator see. */
  datatype Wire = Wire(
    mox: bool,        // MOX bit
    xmitBit: bool,    // gate of the packet writer
    inject: bool,     // TX I/Q branch armed
    txa: bool)        // modulator channel running

  /** The receive front end while transmitting. */
  datatype Front = Front(
    stepAttn: nat,    // step attenuator, dB
    savedAttn: nat,   // its value to go back to
    ocTx: bool)       // filter board in its TX pattern

  datatype Config = Config(attEnabled: bool, attDb: nat, inhibit: bool, lockout: bool, delays: Delays)

  datatype Tx = Tx(
    requested: bool,  // operator intent
    running: bool,    // a chain is in flight
    wire: Wire,
    front: Front,
    moxActive: bool,  // on-the-air flag shown to the operator
    source: Source,
    config: Config,
    pending: seq<Timer>,
    now: nat)

  const DEAD := Wire(false, false, false, false)
  const KEYED := Wire(true, true, false, false)
  const ON_AIR := Wire(true, true, true, true)
  const ATT_ON_TX_DISABLED_DB: nat := 31
  const MAX_ATTN_DB: nat := 31
  const MIN_FSM_DELAY_MS: nat := 1
  const MAX_FSM_DELAY_MS: nat := 500

  /** The attenuation forced while transmitting. */
  function TxAttn(c: Config): (db: nat)
    ensures db <= MAX_ATTN_DB
  {
    Clamp(if c.attEnabled then c.attDb else ATT_ON_TX_DISABLED_DB, 0, MAX_ATTN_DB)
  }

  function Raised(f: Front, c: Config): Front {
    Front(TxAttn(c), f.stepAttn, true)
  }

  function Restored(f: Front): Front {
    f.(stepAttn := Clamp(f.savedAttn, 0, MAX_ATTN_DB), ocTx := false)
  }

  function Arm(s: Tx, step: Step, delay: nat): Tx {
    s.(pending := s.pending + [Timer(step, s.now + delay)])
  }

  // ---- The steps ----

  /** Decides what to start from intent and wire state. */
  function Advance(s: Tx): Tx {
    if s.requested && !s.wire.mox then
      Arm(s.(running := true, front := Raised(s.front, s.config)), PostMox, s.config.delays.mox)
    else if !s.requested && s.wire.mox then
      Arm(s.(running := true), PostSpace, s.config.delays.space)
    else
      s.(running := false)
  }

  /** The keying funnel: key-downs pass only when neither lockout is on, key-ups always. */
  function Request(s: Tx, on: bool, source: Source): Tx {
    if on && (s.config.inhibit || s.config.lockout) then s
    else
      var t := s.(requested := on, source := if on then source else s.source);
      if t.running then t else Advance(t)
  }

  function RunSlot(s: Tx, slot: Slot): Tx {
    match slot
    case Quiet => s
    case Asks(on, source) => Request(s, on, source)
  }

  function AfterMoxDelay(s: Tx): Tx {
    if !s.requested then s.(front := Restored(s.front), running := false)
    else Arm(s.(wire := s.wire.(mox := true, xmitBit := true)), KeydownSettled, s.config.delays.rf)
  }

  function AfterRfDelay(s: Tx, slot: Slot): Tx {
    if !s.requested then Arm(s, PostSpace, s.config.delays.space)
    else
      var up := s.(wire := s.wire.(inject := true, txa := true), moxActive := true);
      var t := RunSlot(up, slot).(running := false);
      if t.requested then t else Advance(t)
  }

  function AfterSpace(s: Tx): Tx {
    if s.requested then s.(running := false)
    else Arm(s.(wire := s.wire.(txa := false)), TxOff, s.config.delays.txStop)
  }

  function AfterTxStop(s: Tx): Tx {
    Arm(s.(wire := s.wire.(inject := false, mox := false, xmitBit := false)), KeyupSettled, s.config.delays.pttOut)
  }

  function AfterPttOut(s: Tx, slot: Slot): Tx {
    if s.requested then Advance(s.(running := false))
    else RunSlot(s.(front := Restored(s.front), moxActive := false), slot).(source := Manual, running := false)
  }

  function RunStep(s: Tx, step: Step, slot: Slot): Tx {
    match step
    case PostMox => AfterMoxDelay(s)
    case KeydownSettled => AfterRfDelay(s, slot)
    case PostSpace => AfterSpace(s)
    case TxOff => AfterTxStop(s)
    case KeyupSettled => AfterPttOut(s, slot)
  }

  predicate Due(s: Tx, i: nat) {
    i < |s.pending| && s.pending[i].due <= s.now
  }

  /** A single-shot timer runs its step once and is gone. */
  function Fire(s: Tx, i: nat, slot: Slot): Tx
    requires Due(s, i)
  {
    RunStep(s.(pending := s.pending[..i] + s.pending[i + 1..]), s.pending[i].step, slot)
  }

  // ---- The operator surface around the chain ----

  function ClampDelay(ms: nat): nat {
    Clamp(ms, MIN_FSM_DELAY_MS, MAX_FSM_DELAY_MS)
  }

  function ClampDelays(d: Delays): Delays {
    Delays(ClampDelay(d.mox), ClampDelay(d.rf), ClampDelay(d.space), ClampDelay(d.pttOut), ClampDelay(d.txStop))
  }

  /** New settings of the attenuator: a relevant change acts at once while the wire bit is on. */
  function Reconfigure(s: Tx, c: Config, live: bool): Tx {
    s.(config := c, front := if live && s.wire.mox then s.front.(stepAttn := TxAttn(c)) else s.front)
  }

  /** Changes from outside the chain: time passing and the settings it reads. */
  datatype Edit =
    | Wait(ms: nat)
    | EditDelays(delays: Delays)
    | EditAttEnabled(on: bool)
    | EditAttDb(db: int)
    | Lockout(on: bool)
    | Retune                            // any other caller of the filter-board update

  function Apply(s: Tx, e: Edit): Tx {
    match e
    case Wait(ms) => s.(now := s.now + ms)
    case EditDelays(d) => s.(config := s.config.(delays := ClampDelays(d)))
    case EditAttEnabled(on) => Reconfigure(s, s.config.(attEnabled := on), on != s.config.attEnabled)
    case EditAttDb(db) =>
      var clamped := Clamp(db, 0, MAX_ATTN_DB);
      Reconfigure(s, s.config.(attDb := clamped), clamped != s.config.attDb && s.config.attEnabled)
    case Lockout(on) => s.(config := s.config.(lockout := on))
    case Retune => s.(front := s.front.(ocTx := false))
  }

  /** Engaging the inhibit drops a key that is already on the wire. */
  function SetInhibit(s: Tx, on: bool): Tx {
    if on == s.config.inhibit then s
    else
      var t := s.(config := s.config.(inhibit := on));
      if on && s.wire.mox then Request(t, false, Manual) else t
  }

  datatype Event =
    | Press(on: bool, source: Source)   // a request from any key source
    | Timeout(i: nat, slot: Slot)       // a due timer fires
    | Inhibit(on: bool)
    | Outside(edit: Edit)

  function Next(s: Tx, e: Event): Tx {
    match e
    case Press(on, source) => Request(s, on, source)
    case Timeout(i, slot) => if Due(s, i) then Fire(s, i, slot) else s
    case Inhibit(on) => SetInhibit(s, on)
    case Outside(edit) => Apply(s, edit)
  }

  function Run(s: Tx, es: seq<Event>): Tx {
    if es == [] then s else Next(Run(s, es[..|es| - 1]), es[|es| - 1])
  }

  /** A session comes up in receive, unkeyed. */
  ghost predicate ComeUp(s: Tx) {
    && !s.requested && !s.running && s.wire == DEAD && !s.moxActive && s.pending == []
    && !s.front.ocTx && s.front.stepAttn <= MAX_ATTN_DB && s.source == Manual
  }

  // ---- What every interleaving keeps ----

  /** The wire while a step is pending. */
  ghost predicate PhaseOk(w: Wire, step: Step) {
    match step
    case PostMox => w == DEAD
    case KeydownSettled => w == KEYED
    case PostSpace => w == KEYED || w == ON_AIR
    case TxOff => w == KEYED || w == ON_AIR.(txa := false)
    case KeyupSettled => w == DEAD
  }

  /** The wire with no chain in flight. */
  ghost predicate Settled(w: Wire) {
    w == DEAD || w == KEYED || w == ON_AIR
  }

  ghost predicate Safe(s: Tx) {
    && s.front.stepAttn <= MAX_ATTN_DB
    && (if s.running then |s.pending| == 1 && PhaseOk(s.wire, s.pending[0].step)
        else s.pending == [] && Settled(s.wire))
  }

  /** The nesting of the flags, at every moment of every run. */
  lemma WireNested(s: Tx)
    requires Safe(s)
    ensures s.wire.xmitBit == s.wire.mox
    ensures s.wire.txa ==> s.wire.inject
    ensures s.wire.inject ==> s.wire.mox
    ensures s.running <==> |s.pending| == 1
    ensures !s.running <==> s.pending == []
  {
  }

  /** A chain whose timer has just been taken off the queue, about to run its step. */
  ghost predicate Ready(s: Tx, step: Step) {
    s.running && s.pending == [] && PhaseOk(s.wire, step) && s.front.stepAttn <= MAX_ATTN_DB
  }

  lemma FireIsStep(s: Tx, i: nat, slot: Slot)
    requires Safe(s) && Due(s, i)
    ensures var p, step := s.(pending := []), s.pending[0].step;
            s.running && s.pending == [s.pending[0]] && s.pending[0].due <= s.now
            && Ready(p, step) && Fire(s, i, slot) == RunStep(p, step, slot)
  {
    assert i == 0 && s.pending[..0] + s.pending[1..] == [];
  }

  lemma SafeRequest(s: Tx, on: bool, source: Source)
    requires Safe(s)
    ensures Safe(Request(s, on, source))
  {
    hide Clamp;
  }

  lemma SafeStep(s: Tx, step: Step, slot: Slot)
    requires Ready(s, step)
    ensures Safe(RunStep(s, step, slot))
  {
    hide Clamp;
    match step
    case PostMox =>
    case KeydownSettled =>
    case PostSpace =>
    case TxOff =>
    case KeyupSettled =>
  }

  /** Outside changes leave the chain alone. */
  ghost predicate SameChain(s: Tx, t: Tx) {
    && t.requested == s.requested && t.running == s.running && t.wire == s.wire && t.pending == s.pending
    && t.moxActive == s.moxActive && t.source == s.source && t.front.savedAttn == s.front.savedAttn
    && (s.front.stepAttn <= MAX_ATTN_DB ==> t.front.stepAttn <= MAX_ATTN_DB)
  }

  lemma ApplyKeepsChain(s: Tx, e: Edit)
    ensures SameChain(s, Apply(s, e))
  {
    hide ClampDelays, Clamp;
  }

  /** Every event, in every order, keeps the wire flags nested and exactly one step pending. */
  lemma SafeNext(s: Tx, e: Event)
    requires Safe(s)
    ensures Safe(Next(s, e))
  {
    hide Request, RunStep, PhaseOk, Apply, Ready;
    match e
    case Press(on, source) => SafeRequest(s, on, source);
    case Timeout(i, slot) =>
      if Due(s, i) {
        FireIsStep(s, i, slot);
        SafeStep(s.(pending := []), s.pending[0].step, slot);
      }
    case Inhibit(on) => SafeRequest(s.(config := s.config.(inhibit := on)), false, Manual);
    case Outside(edit) => ApplyKeepsChain(s, edit);
  }

  lemma {:induction false} SafeRun(s: Tx, es: seq<Event>)
    requires ComeUp(s)
    ensures Safe(Run(s, es))
  {
    if es != [] {
      SafeRun(s, es[..|es| - 1]);
      SafeNext(Run(s, es[..|es| - 1]), es[|es| - 1]);
    }
  }

  // ---- Convergence ----

  /** How many timer steps are left before the chain ends, if nothing else is requested. */
  function Remaining(s: Tx): nat {
    if !s.running || s.pending == [] then 0
    else match s.pending[0].step
      case PostMox => if s.requested then 2 else 1
      case KeydownSettled => if s.requested then 1 else 4
      case PostSpace => if s.requested then 1 else 3
      case TxOff => if s.requested then 4 else 2
      case KeyupSettled => if s.requested then 3 else 1
  }

  /** Time runs up to the pending timer, which then fires. */
  function FireNext(s: Tx): Tx
    requires s.pending != []
  {
    var due := s.pending[0].due;
    Fire(s.(now := if s.now < due then due else s.now), 0, Quiet)
  }

  lemma FireNextProgress(s: Tx)
    requires Safe(s) && s.running
    ensures var t := FireNext(s);
            && Safe(t) && t.requested == s.requested && Remaining(t) == Remaining(s) - 1
            && (!t.running ==> t.wire.mox == t.requested)
  {
    hide Clamp;
    var due := s.pending[0].due;
    var late := s.(now := if s.now < due then due else s.now);
    FireIsStep(late, 0, Quiet);
    SafeStep(late.(pending := []), s.pending[0].step, Quiet);
  }

  ghost function Settle(s: Tx): (t: Tx)
    requires Safe(s)
    decreases Remaining(s)
  {
    if !s.running then s
    else
      FireNextProgress(s);
      Settle(FireNext(s))
  }

  /** From any state of a chain, once requests stop at most four timer steps end it, on the intent. */
  lemma {:induction false} Converges(s: Tx)
    requires Safe(s) && s.running
    ensures Remaining(s) <= 4
    ensures !Settle(s).running && Settle(s).pending == []
    ensures Settle(s).wire.mox == s.requested == Settle(s).requested
    decreases Remaining(s)
  {
    FireNextProgress(s);
    if FireNext(s).running {
      Converges(FireNext(s));
    }
  }

  /** An idle sequencer shows the intent on the wire. */
  ghost predicate Faithful(s: Tx) {
    !s.running ==> s.requested == s.wire.mox
  }

  /** A slot of the going-to-receive edge asks for the key again, and is let through. */
  ghost predicate LateKey(s: Tx, e: Event) {
    && e.Timeout? && Due(s, e.i) && s.pending[e.i].step == KeyupSettled && !s.requested
    && e.slot.Asks? && e.slot.on && !s.config.inhibit && !s.config.lockout
  }

  /** Intent and wire part company in exactly one way: a key-down asked for inside that edge is lost. */
  lemma FaithfulNext(s: Tx, e: Event)
    requires Safe(s) && Faithful(s)
    ensures Faithful(Next(s, e)) <==> !LateKey(s, e)
  {
    hide Clamp;
    match e
    case Press(on, source) =>
    case Timeout(i, slot) =>
      if Due(s, i) {
        FireIsStep(s, i, slot);
      }
    case Inhibit(on) =>
    case Outside(edit) => ApplyKeepsChain(s, edit);
  }

  /**
   * Engaging the inhibit ends in receive exactly when the wire bit is already on or nothing was
   * requested: a key-down still in its MOX delay, or waiting behind a keyup, goes on the air.
   */
  lemma InhibitOutcome(s: Tx)
    requires Safe(s) && !s.config.inhibit && SetInhibit(s, true).running
    ensures Safe(SetInhibit(s, true))
    ensures Settle(SetInhibit(s, true)).wire.mox <==> s.requested && !s.wire.mox
  {
    SafeNext(s, Inhibit(true));
    hide Clamp, Settle;
    Converges(SetInhibit(s, true));
  }

  // ---- Histories: which guards fired on the way ----

  /** What a run remembers, from each step's own guard. */
  datatype History = History(
    rfCancelled: bool,    // intent was off when the RF delay ended, in this keyed window
    pttRekeyed: bool,     // intent was on when a PTT-out delay ended, ever
    retuned: bool,        // the filter board was rewritten since the key-down
    lastRekeyed: bool,    // intent was on when the last PTT-out delay ended
    onAir: bool,          // an on-the-air edge since the last receive edge
    rest: nat)            // attenuation to go back to: what was in force at the last such re-key

  predicate Fires(s: Tx, e: Event, step: Step) {
    e.Timeout? && Due(s, e.i) && s.pending[e.i].step == step
  }

  predicate StartsKeydown(s: Tx, e: Event) {
    var t := Next(s, e);
    t.pending != [] && t.pending[0].step == PostMox && t.pending != s.pending
  }

  function Remember(h: History, s: Tx, e: Event): History {
    History(
      if Fires(s, e, KeydownSettled) then !s.requested else h.rfCancelled && !Fires(s, e, TxOff),
      h.pttRekeyed || (Fires(s, e, KeyupSettled) && s.requested),
      if StartsKeydown(s, e) then false else h.retuned || e == Outside(Retune),
      if Fires(s, e, KeyupSettled) then s.requested else h.lastRekeyed,
      if Fires(s, e, KeydownSettled) && s.requested then true
      else h.onAir && !(Fires(s, e, KeyupSettled) && !s.requested),
      if Fires(s, e, KeyupSettled) && s.requested then s.front.stepAttn else h.rest)
  }

  ghost predicate At(s: Tx, step: Step) {
    s.running && s.pending != [] && s.pending[0].step == step
  }

  /** In receive, with nothing going on. */
  ghost predicate IdleRx(s: Tx) {
    !s.running && !s.wire.mox
  }

  /** Keyed, with nothing going on. */
  ghost predicate IdleTx(s: Tx) {
    !s.running && s.wire.mox
  }

  ghost predicate Recorded(h: History, s: Tx) {
    && h.rest <= MAX_ATTN_DB && s.front.stepAttn <= MAX_ATTN_DB
    && (h.rfCancelled <==> s.wire == KEYED && !At(s, KeydownSettled))
    && (if IdleRx(s) then !s.front.ocTx else s.front.ocTx == !h.retuned)
    && (if IdleRx(s) then s.front.stepAttn else s.front.savedAttn) == h.rest
  }

  /** The on-the-air flag follows its edges, and outlives a transmission only over a re-key. */
  ghost predicate Lamp(h: History, s: Tx) {
    && s.moxActive == h.onAir
    && (s.wire.inject ==> h.onAir)
    && (h.onAir ==> s.wire.inject || At(s, KeyupSettled) || h.lastRekeyed)
  }

  lemma RecordedKeydown(h: History, s: Tx, i: nat, slot: Slot)
    requires Safe(s) && Due(s, i) && Recorded(h, s) && (s.pending[0].step.PostMox? || s.pending[0].step.KeydownSettled?)
    ensures var e := Timeout(i, slot); Recorded(Remember(h, s, e), Next(s, e))
  {
    hide Fire, TxAttn, SetInhibit, Apply;
    FireIsStep(s, i, slot);
  }

  lemma RecordedKeyup(h: History, s: Tx, i: nat, slot: Slot)
    requires Safe(s) && Due(s, i) && Recorded(h, s) && (s.pending[0].step.PostSpace? || s.pending[0].step.TxOff?)
    ensures var e := Timeout(i, slot); Recorded(Remember(h, s, e), Next(s, e))
  {
    hide Fire, TxAttn, SetInhibit, Apply;
    FireIsStep(s, i, slot);
  }

  lemma RecordedStep(h: History, s: Tx, i: nat, slot: Slot)
    requires Safe(s) && Due(s, i) && Recorded(h, s)
    ensures var e := Timeout(i, slot); Recorded(Remember(h, s, e), Next(s, e))
  {
    hide Fire, TxAttn, SetInhibit, Apply;
    FireIsStep(s, i, slot);
    match s.pending[0].step
    case PostMox => RecordedKeydown(h, s, i, slot);
    case KeydownSettled => RecordedKeydown(h, s, i, slot);
    case PostSpace => RecordedKeyup(h, s, i, slot);
    case TxOff => RecordedKeyup(h, s, i, slot);
    case KeyupSettled =>
  }

  lemma RecordedPress(h: History, s: Tx, e: Event)
    requires Safe(s) && Recorded(h, s) && (e.Press? || e.Inhibit?)
    ensures Recorded(Remember(h, s, e), Next(s, e))
  {
    hide Clamp, Fire, Apply, TxAttn;
  }

  lemma RecordedEdit(h: History, s: Tx, e: Event)
    requires Safe(s) && Recorded(h, s) && e.Outside?
    ensures Recorded(Remember(h, s, e), Next(s, e))
  {
    hide Clamp, ClampDelays, TxAttn, Fire, Request;
    ApplyKeepsChain(s, e.edit);
  }

  lemma RecordedNext(h: History, s: Tx, e: Event)
    requires Safe(s) && Recorded(h, s)
    ensures Recorded(Remember(h, s, e), Next(s, e))
  {
    hide Recorded, Safe, Fire, Request, Apply, SetInhibit;
    if e.Timeout? {
      if Due(s, e.i) {
        RecordedStep(h, s, e.i, e.slot);
      } else {
        assert Remember(h, s, e) == h;
      }
    } else if e.Outside? {
      RecordedEdit(h, s, e);
    } else {
      RecordedPress(h, s, e);
    }
  }

  function Memory(s: Tx, es: seq<Event>): History {
    if es == [] then History(false, false, false, false, false, s.front.stepAttn)
    else
      var before := es[..|es| - 1];
      Remember(Memory(s, before), Run(s, before), es[|es| - 1])
  }

  lemma LampNext(h: History, s: Tx, e: Event)
    requires Safe(s) && Lamp(h, s)
    ensures Lamp(Remember(h, s, e), Next(s, e))
  {
    hide Clamp, TxAttn, Fire, StartsKeydown;
    match e
    case Press(on, source) =>
    case Timeout(i, slot) =>
      if Due(s, i) {
        FireIsStep(s, i, slot);
      }
    case Inhibit(on) =>
    case Outside(edit) => ApplyKeepsChain(s, edit);
  }

  /** Over every session the state is tied to the guards that fired on the way. */
  lemma {:induction false} RecordedRun(s: Tx, es: seq<Event>)
    requires ComeUp(s)
    ensures var t, h := Run(s, es), Memory(s, es);
            Safe(t) && Recorded(h, t) && Lamp(h, t) && (!h.pttRekeyed ==> h.rest == s.front.stepAttn && !h.lastRekeyed)
  {
    hide Recorded, Next, Safe, Lamp, Fires, StartsKeydown;
    if es == [] {
      StartsRecorded(s);
    } else {
      var before := es[..|es| - 1];
      RecordedRun(s, before);
      SafeNext(Run(s, before), es[|es| - 1]);
      RecordedNext(Memory(s, before), Run(s, before), es[|es| - 1]);
      LampNext(Memory(s, before), Run(s, before), es[|es| - 1]);
    }
  }

  lemma StartsRecorded(s: Tx)
    requires ComeUp(s)
    ensures Safe(s) && Recorded(Memory(s, []), s) && Lamp(Memory(s, []), s)
  {
  }

  /** How every run that has come to rest looks, and exactly when it does not look as intended. */
  lemma IdleOutcome(s0: Tx, es: seq<Event>)
    requires ComeUp(s0)
    ensures var s, h := Run(s0, es), Memory(s0, es);
            && (IdleTx(s) ==> (s.wire == ON_AIR <==> !h.rfCancelled))
            && (IdleTx(s) && !h.rfCancelled ==> s.moxActive)
            && (IdleTx(s) && h.rfCancelled ==> (s.moxActive <==> h.onAir && h.lastRekeyed))
            && (IdleRx(s) ==> s.wire == DEAD && !s.front.ocTx)
            && (IdleRx(s) ==> (s.moxActive <==> h.onAir && h.lastRekeyed))
            && (s.wire.mox ==> (s.front.ocTx <==> !h.retuned))
  {
    RecordedRun(s0, es);
  }

  /**
   * In every session, settings edited or not: at rest in receive the attenuation is the one from
   * before the session, or the one in force when a PTT-out delay was last ended by a re-key.
   */
  lemma AttenuationAtRest(s0: Tx, es: seq<Event>)
    requires ComeUp(s0)
    ensures var s, h := Run(s0, es), Memory(s0, es);
            && (IdleRx(s) ==> s.front.stepAttn == h.rest)
            && (!h.pttRekeyed ==> h.rest == s0.front.stepAttn)
  {
    RecordedRun(s0, es);
    hide Lamp;
  }

  predicate AttEdit(e: Event) {
    e.Outside? && (e.edit.EditAttEnabled? || e.edit.EditAttDb?)
  }

  /** With the attenuator settings left alone, a re-key in the PTT-out delay saves the raised value. */
  ghost predicate Overwritten(h: History, s: Tx, c: Config) {
    && s.config.attEnabled == c.attEnabled && s.config.attDb == c.attDb
    && (!IdleRx(s) || h.pttRekeyed ==> s.front.stepAttn == TxAttn(c))
    && (!IdleRx(s) && h.pttRekeyed ==> s.front.savedAttn == TxAttn(c))
  }

  lemma OverwrittenStep(h: History, s: Tx, i: nat, slot: Slot, c: Config)
    requires Safe(s) && Due(s, i) && Overwritten(h, s, c)
    ensures var e := Timeout(i, slot); Overwritten(Remember(h, s, e), Next(s, e), c)
  {
    hide Fire, StartsKeydown, SetInhibit, Apply;
    FireIsStep(s, i, slot);
    match s.pending[0].step
    case PostMox =>
    case KeydownSettled =>
    case PostSpace =>
    case TxOff =>
    case KeyupSettled =>
  }

  lemma OverwrittenPress(h: History, s: Tx, e: Event, c: Config)
    requires Safe(s) && Overwritten(h, s, c) && (e.Press? || e.Inhibit?)
    ensures Overwritten(Remember(h, s, e), Next(s, e), c)
  {
    hide Clamp, Fire, Apply, StartsKeydown;
  }

  lemma OverwrittenEdit(h: History, s: Tx, e: Event, c: Config)
    requires Safe(s) && Overwritten(h, s, c) && e.Outside? && !AttEdit(e)
    ensures Overwritten(Remember(h, s, e), Next(s, e), c)
  {
    hide Clamp, ClampDelays, Fire, Request, StartsKeydown, SetInhibit, TxAttn, Reconfigure, Safe;
  }

  lemma OverwrittenNext(h: History, s: Tx, e: Event, c: Config)
    requires Safe(s) && Overwritten(h, s, c) && !AttEdit(e)
    ensures Overwritten(Remember(h, s, e), Next(s, e), c)
  {
    hide Safe, Fire, Request, Apply, SetInhibit, StartsKeydown, TxAttn;
    if e.Timeout? {
      if Due(s, e.i) {
        OverwrittenStep(h, s, e.i, e.slot, c);
      }
    } else if e.Outside? {
      OverwrittenEdit(h, s, e, c);
    } else {
      OverwrittenPress(h, s, e, c);
    }
  }

  lemma {:induction false} OverwrittenRun(s: Tx, es: seq<Event>)
    requires ComeUp(s) && forall e | e in es :: !AttEdit(e)
    ensures Overwritten(Memory(s, es), Run(s, es), s.config)
  {
    if es != [] {
      hide Overwritten, Remember, Next, Safe;
      var before := es[..|es| - 1];
      OverwrittenRun(s, before);
      SafeRun(s, before);
      OverwrittenNext(Memory(s, before), Run(s, before), es[|es| - 1], s.config);
    }
  }

  /** The pre-key attenuation comes back exactly when no re-key hit a PTT-out delay in the session. */
  lemma AttenuationRestored(s0: Tx, es: seq<Event>)
    requires ComeUp(s0) && forall e | e in es :: !AttEdit(e)
    requires TxAttn(s0.config) != s0.front.stepAttn
    ensures var s := Run(s0, es);
            IdleRx(s) ==> (s.front.stepAttn == s0.front.stepAttn <==> !Memory(s0, es).pttRekeyed)
  {
    RecordedRun(s0, es);
    OverwrittenRun(s0, es);
  }

  // ---- The two bad rests, as runs ----

  /** A run, listed state by state. */
  lemma {:induction false} RunIs(es: seq<Event>, states: seq<Tx>)
    requires |states| == |es| + 1
    requires forall i | 0 <= i < |es| :: states[i + 1] == Next(states[i], es[i])
    ensures Run(states[0], es) == states[|es|]
  {
    if es != [] {
      hide Next;
      RunIs(es[..|es| - 1], states[..|es|]);
    }
  }

  const DOWN := Press(true, Manual)
  const UP := Press(false, Manual)
  const FIRE := Timeout(0, Quiet)

  function Later(ms: nat): Event {
    Outside(Wait(ms))
  }

  ghost predicate Open(s: Tx) {
    Safe(s) && !s.config.inhibit && !s.config.lockout
  }

  /**
   * From every keydown whose RF delay has run out: released there and pressed again in the space
   * window, it rests with the MOX bit on and the modulator never started.
   */
  lemma DeadCarrier(s0: Tx)
    requires Open(s0) && At(s0, KeydownSettled) && Due(s0, 0)
    ensures var s := Run(s0, [UP, FIRE, DOWN, Later(s0.config.delays.space), FIRE]);
            IdleTx(s) && s.requested && s.wire == KEYED && s.moxActive == s0.moxActive
  {
    hide Clamp, TxAttn, SetInhibit;
    FireIsStep(s0, 0, Quiet);
    var s1 := Next(s0, UP);
    FireIsStep(s1, 0, Quiet);
    var s2 := Next(s1, FIRE);
    var s3 := Next(s2, DOWN);
    var s4 := Next(s3, Later(s0.config.delays.space));
    FireIsStep(s4, 0, Quiet);
    var s5 := Next(s4, FIRE);
    assert IdleTx(s5) && s5.requested && s5.wire == KEYED && s5.moxActive == s0.moxActive;
    hide Next;
    RunIs([UP, FIRE, DOWN, Later(s0.config.delays.space), FIRE], [s0, s1, s2, s3, s4, s5]);
  }

  /** Pressed at the end of a PTT-out delay: the key-down starts over from the raised attenuation. */
  lemma Repressed(s0: Tx) returns (s2: Tx)
    requires Open(s0) && At(s0, KeyupSettled) && Due(s0, 0)
    ensures s2 == Next(Next(s0, DOWN), FIRE) && Open(s2) && At(s2, PostMox) && s2.requested
    ensures s2.config == s0.config && s2.moxActive == s0.moxActive && s2.front.savedAttn == s0.front.stepAttn <= MAX_ATTN_DB
    ensures s2.pending[0].due == s2.now + s2.config.delays.mox
  {
    hide TxAttn, SetInhibit;
    var s1 := Next(s0, DOWN);
    FireIsStep(s1, 0, Quiet);
    s2 := Next(s1, FIRE);
  }

  /** Released before MOX comes on: the front end goes back to what was saved. */
  lemma Rereleased(s2: Tx) returns (s5: Tx)
    requires Open(s2) && At(s2, PostMox) && s2.requested && s2.front.savedAttn <= MAX_ATTN_DB
    requires s2.pending[0].due == s2.now + s2.config.delays.mox
    ensures s5 == Next(Next(Next(s2, UP), Later(s2.config.delays.mox)), FIRE)
    ensures IdleRx(s5) && !s5.requested && s5.moxActive == s2.moxActive && s5.front.stepAttn == s2.front.savedAttn
  {
    hide TxAttn, SetInhibit;
    var s3 := Next(s2, UP);
    var s4 := Next(s3, Later(s2.config.delays.mox));
    FireIsStep(s4, 0, Quiet);
    s5 := Next(s4, FIRE);
  }

  /**
   * From every keyup whose PTT-out delay has run out: pressed again there and released in the MOX
   * delay, it rests in receive with the on-the-air flag as it was, and the raised attenuation kept.
   */
  lemma StaleLamp(s0: Tx)
    requires Open(s0) && At(s0, KeyupSettled) && Due(s0, 0)
    ensures var s := Run(s0, [DOWN, FIRE, UP, Later(s0.config.delays.mox), FIRE]);
            IdleRx(s) && !s.requested && s.moxActive == s0.moxActive && s.front.stepAttn == s0.front.stepAttn
  {
    hide TxAttn, SetInhibit, Safe, Next;
    var s2 := Repressed(s0);
    var s1 := Next(s0, DOWN);
    var s5 := Rereleased(s2);
    var s3 := Next(s2, UP);
    var s4 := Next(s3, Later(s0.config.delays.mox));
    RunIs([DOWN, FIRE, UP, Later(s0.config.delays.mox), FIRE], [s0, s1, s2, s3, s4, s5]);
  }

  lemma {:induction false} RunConcat(s: Tx, a: seq<Event>, b: seq<Event>)
    ensures Run(s, a + b) == Run(Run(s, a), b)
    decreases |b|
  {
    hide Next;
    if b == [] {
      assert a + b == a;
    } else {
      RunConcat(s, a, b[..|b| - 1]);
      assert (a + b)[..|a + b| - 1] == a + b[..|b| - 1];
    }
  }

  /** Press, and wait out the two delays. */
  function Keydown(d: Delays): seq<Event> {
    [DOWN, Later(d.mox), FIRE, Later(d.rf), FIRE]
  }

  /** Release, and wait out the delays up to the end of the last one. */
  function Keyup(d: Delays): seq<Event> {
    [UP, Later(d.space), FIRE, Later(d.txStop), FIRE, Later(d.pttOut)]
  }

  /** On the air, with nothing going on. */
  ghost predicate OnAir(s: Tx) {
    IdleTx(s) && s.wire == ON_AIR && s.requested && s.moxActive
  }

  lemma KeydownRun(s0: Tx)
    requires Open(s0) && IdleRx(s0)
    ensures var s := Run(s0, Keydown(s0.config.delays)); OnAir(s) && Open(s) && s.config == s0.config
  {
    hide Clamp, TxAttn, SetInhibit;
    var s1 := Next(s0, DOWN);
    var s2 := Next(s1, Later(s0.config.delays.mox));
    FireIsStep(s2, 0, Quiet);
    var s3 := Next(s2, FIRE);
    assert At(s3, KeydownSettled) && s3.requested && Safe(s3) && s3.config == s0.config;
    var s4 := Next(s3, Later(s0.config.delays.rf));
    FireIsStep(s4, 0, Quiet);
    var s5 := Next(s4, FIRE);
    assert OnAir(s5) && Open(s5);
    hide Next;
    RunIs(Keydown(s0.config.delays), [s0, s1, s2, s3, s4, s5]);
  }

  lemma KeyupRun(s0: Tx)
    requires Open(s0) && OnAir(s0)
    ensures var s := Run(s0, Keyup(s0.config.delays));
            At(s, KeyupSettled) && Due(s, 0) && s.moxActive && Open(s) && s.config == s0.config
  {
    hide Clamp, TxAttn, SetInhibit;
    var s1 := Next(s0, UP);
    var s2 := Next(s1, Later(s0.config.delays.space));
    FireIsStep(s2, 0, Quiet);
    var s3 := Next(s2, FIRE);
    assert At(s3, TxOff) && Safe(s3) && s3.config == s0.config && s3.moxActive;
    var s4 := Next(s3, Later(s0.config.delays.txStop));
    FireIsStep(s4, 0, Quiet);
    var s5 := Next(s4, FIRE);
    var s6 := Next(s5, Later(s0.config.delays.pttOut));
    assert At(s6, KeyupSettled) && Due(s6, 0) && s6.moxActive && Open(s6);
    hide Next;
    RunIs(Keyup(s0.config.delays), [s0, s1, s2, s3, s4, s5, s6]);
  }

  /** A whole session from come-up that ends in receive, unrequested, with the on-the-air flag lit. */
  lemma LitInReceive(s0: Tx)
    requires ComeUp(s0) && Open(s0)
    ensures var d := s0.config.delays;
            var s := Run(s0, Keydown(d) + Keyup(d) + [DOWN, FIRE, UP, Later(d.mox), FIRE]);
            IdleRx(s) && !s.requested && s.moxActive
  {
    var d := s0.config.delays;
    KeydownRun(s0);
    var s1 := Run(s0, Keydown(d));
    KeyupRun(s1);
    RunConcat(s0, Keydown(d), Keyup(d));
    hide Keydown, Keyup, Run, OnAir, Open;
    var s2 := Run(s1, Keyup(d));
    StaleLamp(s2);
    RunConcat(s0, Keydown(d) + Keyup(d), [DOWN, FIRE, UP, Later(d.mox), FIRE]);
  }
}
