/** Settings and intent of the sequencer as the history of what was asked, and what the lockouts amount to. */
module MoxIntent {
  import opened Basics
  import opened MoxSequencer

  // ---- Settings: what was last asked for ----

  function InhibitOf(start: bool, es: seq<Event>): bool
    decreases |es|
  {
    if es == [] then start
    else if es[|es| - 1].Inhibit? then es[|es| - 1].on
    else InhibitOf(start, es[..|es| - 1])
  }

  function LockoutOf(start: bool, es: seq<Event>): bool
    decreases |es|
  {
    if es == [] then start
    else match es[|es| - 1]
      case Outside(Lockout(on)) => on
      case _ => LockoutOf(start, es[..|es| - 1])
  }

  function AttEnabledOf(start: bool, es: seq<Event>): bool
    decreases |es|
  {
    if es == [] then start
    else match es[|es| - 1]
      case Outside(EditAttEnabled(on)) => on
      case _ => AttEnabledOf(start, es[..|es| - 1])
  }

  function AttDbOf(start: nat, es: seq<Event>): nat
    decreases |es|
  {
    if es == [] then start
    else match es[|es| - 1]
      case Outside(EditAttDb(db)) => if db < 0 then 0 else if db > 31 then 31 else db
      case _ => AttDbOf(start, es[..|es| - 1])
  }

  function Within(ms: nat): nat {
    if ms < 1 then 1 else if ms > 500 then 500 else ms
  }

  function DelaysOf(start: Delays, es: seq<Event>): Delays
    decreases |es|
  {
    if es == [] then start
    else match es[|es| - 1]
      case Outside(EditDelays(d)) => Delays(Within(d.mox), Within(d.rf), Within(d.space), Within(d.pttOut), Within(d.txStop))
      case _ => DelaysOf(start, es[..|es| - 1])
  }

  function ClockOf(start: nat, es: seq<Event>): nat
    decreases |es|
  {
    if es == [] then start
    else match es[|es| - 1]
      case Outside(Wait(ms)) => ClockOf(start, es[..|es| - 1]) + ms
      case _ => ClockOf(start, es[..|es| - 1])
  }

  lemma RequestKeepsSettings(s: Tx, on: bool, source: Source)
    ensures Request(s, on, source).config == s.config && Request(s, on, source).now == s.now
  {
    hide TxAttn;
  }

  lemma FireKeepsSettings(s: Tx, i: nat, slot: Slot)
    requires Due(s, i)
    ensures Fire(s, i, slot).config == s.config && Fire(s, i, slot).now == s.now
  {
    hide RunStep;
    StepKeepsSettings(s.(pending := s.pending[..i] + s.pending[i + 1..]), s.pending[i].step, slot);
  }

  lemma AdvanceKeepsSettings(s: Tx)
    ensures Advance(s).config == s.config && Advance(s).now == s.now
  {
    hide Raised;
  }

  lemma SlotKeepsSettings(s: Tx, slot: Slot)
    ensures RunSlot(s, slot).config == s.config && RunSlot(s, slot).now == s.now
  {
    hide Request;
    match slot
    case Quiet =>
    case Asks(on, source) => RequestKeepsSettings(s, on, source);
  }

  lemma StepKeepsSettings(s: Tx, step: Step, slot: Slot)
    ensures RunStep(s, step, slot).config == s.config && RunStep(s, step, slot).now == s.now
  {
    hide Advance, RunSlot, Raised, Restored;
    match step
    case KeydownSettled =>
      var up := s.(wire := s.wire.(inject := true, txa := true), moxActive := true);
      SlotKeepsSettings(up, slot);
      AdvanceKeepsSettings(RunSlot(up, slot).(running := false));
    case KeyupSettled =>
      AdvanceKeepsSettings(s.(running := false));
      SlotKeepsSettings(s.(front := Restored(s.front), moxActive := false), slot);
    case _ =>
  }

  /** Over every session each setting is what was last asked for, within its limits, and the clock is the time waited. */
  lemma {:induction false} SettingsAreHistory(s: Tx, es: seq<Event>)
    ensures var c, t := s.config, Run(s, es);
            && t.config == Config(AttEnabledOf(c.attEnabled, es), AttDbOf(c.attDb, es), InhibitOf(c.inhibit, es),
                                  LockoutOf(c.lockout, es), DelaysOf(c.delays, es))
            && t.now == ClockOf(s.now, es)
    decreases |es|
  {
    if es != [] {
      var before, e := Run(s, es[..|es| - 1]), es[|es| - 1];
      SettingsAreHistory(s, es[..|es| - 1]);
      SettingStep(before, e);
      hide Next, Run;
      assert Run(s, es) == Next(before, e) by {
        LastStep(s, es);
      }
    }
  }

  lemma LastStep(s: Tx, es: seq<Event>)
    requires es != []
    ensures Run(s, es) == Next(Run(s, es[..|es| - 1]), es[|es| - 1])
  {
  }

  /** One event changes the setting it names, and no other. */
  lemma SettingStep(s: Tx, e: Event)
    ensures var t, c := Next(s, e), s.config;
            match e
            case Inhibit(on) => t.config == c.(inhibit := on) && t.now == s.now
            case Outside(Lockout(on)) => t.config == c.(lockout := on) && t.now == s.now
            case Outside(EditAttEnabled(on)) => t.config == c.(attEnabled := on) && t.now == s.now
            case Outside(EditAttDb(db)) => t.config == c.(attDb := if db < 0 then 0 else if db > 31 then 31 else db) && t.now == s.now
            case Outside(EditDelays(d)) =>
              t.config == c.(delays := Delays(Within(d.mox), Within(d.rf), Within(d.space), Within(d.pttOut), Within(d.txStop))) && t.now == s.now
            case Outside(Wait(ms)) => t.config == c && t.now == s.now + ms
            case _ => t.config == c && t.now == s.now
  {
    hide Request, Fire, TxAttn;
    match e
    case Press(on, source) => RequestKeepsSettings(s, on, source);
    case Timeout(i, slot) =>
      if Due(s, i) {
        FireKeepsSettings(s, i, slot);
      }
    case Inhibit(on) => RequestKeepsSettings(s.(config := s.config.(inhibit := on)), false, Manual);
    case Outside(edit) =>
  }

  // ---- The lockouts ----

  /** In every session a press gets through exactly when the last word on either lockout was off. */
  lemma PressThroughIff(s: Tx, es: seq<Event>, source: Source)
    ensures var t := Next(Run(s, es), Press(true, source));
            t.requested <==> Run(s, es).requested || (!InhibitOf(s.config.inhibit, es) && !LockoutOf(s.config.lockout, es))
  {
    hide Run, TxAttn;
    SettingsAreHistory(s, es);
  }

  /** And what gets through goes on the air, once nothing else is asked. */
  lemma PressGoesOut(s: Tx, source: Source)
    requires Safe(s) && !s.config.inhibit && !s.config.lockout
    ensures var t := Next(s, Press(true, source));
            Safe(t) && t.requested && t.source == source && Settle(t).wire.mox
  {
    SafeNext(s, Press(true, source));
    hide TxAttn, Settle;
    var t := Next(s, Press(true, source));
    if t.running {
      Converges(t);
    } else {
      assert Settle(t) == t by {
        IdleSettled(t);
      }
    }
  }

  lemma IdleSettled(s: Tx)
    requires Safe(s) && !s.running
    ensures Settle(s) == s
  {
  }

  /** Held off the air: nothing is wanted, and what is keyed is on its way down. */
  ghost predicate HeldOff(s: Tx) {
    Safe(s) && s.config.inhibit && !s.requested && (!s.running ==> !s.wire.mox)
  }

  lemma HeldOffNext(s: Tx, e: Event)
    requires HeldOff(s) && e != Inhibit(false)
    ensures HeldOff(Next(s, e))
  {
    SafeNext(s, e);
    FaithfulNext(s, e);
    SettingStep(s, e);
    hide Clamp, TxAttn, Next, Safe, Fire;
    assert !Next(s, e).requested by {
      StaysUnwanted(s, e);
    }
  }

  lemma StaysUnwanted(s: Tx, e: Event)
    requires Safe(s) && !s.requested && (s.config.inhibit || s.config.lockout)
    ensures !Next(s, e).requested
  {
    hide Clamp, TxAttn, Fire;
    match e
    case Press(on, source) =>
    case Timeout(i, slot) =>
      if Due(s, i) {
        FireIsStep(s, i, slot);
      }
    case Inhibit(on) =>
    case Outside(edit) => ApplyKeepsChain(s, edit);
  }

  lemma {:induction false} HeldOffRun(s: Tx, es: seq<Event>)
    requires HeldOff(s) && Inhibit(false) !in es
    ensures HeldOff(Run(s, es))
    decreases |es|
  {
    if es != [] {
      hide HeldOff, Next;
      HeldOffRun(s, es[..|es| - 1]);
      assert es[|es| - 1] in es;
      HeldOffNext(Run(s, es[..|es| - 1]), es[|es| - 1]);
    }
  }

  /**
   * Engaging the inhibit, unless a key-down is on its way out: whatever is asked afterwards, by
   * whomever, short of releasing it, nothing is wanted any more, and the station is in receive or
   * on the way there.
   */
  lemma InhibitHolds(s: Tx, es: seq<Event>)
    requires Safe(s) && !s.config.inhibit && (s.requested ==> s.wire.mox) && Inhibit(false) !in es
    ensures var t := Run(SetInhibit(s, true), es);
            && Safe(t) && t.config.inhibit && !t.requested
            && (t.running ==> !Settle(t).wire.mox) && (!t.running ==> t.wire == DEAD)
  {
    Engaged(s);
    HeldOffRun(SetInhibit(s, true), es);
    var t := Run(SetInhibit(s, true), es);
    hide SetInhibit, Run, Settle;
    if t.running {
      Converges(t);
    }
  }

  lemma Engaged(s: Tx)
    requires Safe(s) && !s.config.inhibit && (s.requested ==> s.wire.mox)
    ensures HeldOff(SetInhibit(s, true))
  {
    SafeNext(s, Inhibit(true));
    hide Clamp, TxAttn;
  }

  ghost predicate NoLockoutOff(es: seq<Event>) {
    forall i :: 0 <= i < |es| ==> es[i] != Outside(Lockout(false))
  }

  /** The converter's lockout lets go of no key, but no key-down gets through while it lasts. */
  lemma {:induction false} LockoutHolds(s: Tx, es: seq<Event>)
    requires Safe(s) && s.config.lockout && NoLockoutOff(es)
    ensures var t := Run(s, es);
            && Safe(t) && t.config.lockout && (t.requested ==> s.requested)
            && (!s.requested && (!s.running ==> !s.wire.mox) ==> if t.running then !Settle(t).wire.mox else t.wire == DEAD)
    decreases |es|
  {
    hide Settle;
    LockedRun(s, es);
    var t := Run(s, es);
    if t.running {
      Converges(t);
    }
  }

  lemma {:induction false} LockedRun(s: Tx, es: seq<Event>)
    requires Safe(s) && s.config.lockout && NoLockoutOff(es)
    ensures var t := Run(s, es);
            && Safe(t) && t.config.lockout && (t.requested ==> s.requested)
            && (!s.requested && (!s.running ==> !s.wire.mox) ==> !t.running ==> !t.wire.mox)
    decreases |es|
  {
    if es != [] {
      var before, e := Run(s, es[..|es| - 1]), es[|es| - 1];
      LockedRun(s, es[..|es| - 1]);
      SafeNext(before, e);
      SettingStep(before, e);
      hide Next, Safe;
      if !before.requested {
        StaysUnwanted(before, e);
        if !before.running ==> !before.wire.mox {
          FaithfulNext(before, e);
        }
      }
    }
  }

  // ---- The attenuation while keyed ----

  /** The attenuation a transmission gets: the set value, or all of it with the setting off. */
  function AttOf(c: Config): nat {
    if c.attEnabled then c.attDb else 31
  }

  ghost predicate AttInForce(s: Tx) {
    Safe(s) && s.config.attDb <= 31 && (s.wire.mox || At(s, PostMox) ==> s.front.stepAttn == AttOf(s.config))
  }

  /** The attenuator's settings are left alone in the one stretch in which they do not act: before MOX comes on. */
  ghost predicate AttTimely(s: Tx, es: seq<Event>)
    decreases |es|
  {
    es == [] || (AttTimely(s, es[..|es| - 1]) && (AttEdit(es[|es| - 1]) ==> !At(Run(s, es[..|es| - 1]), PostMox)))
  }

  lemma AttNext(s: Tx, e: Event)
    requires AttInForce(s) && (AttEdit(e) ==> !At(s, PostMox))
    ensures AttInForce(Next(s, e))
  {
    SafeNext(s, e);
    SettingStep(s, e);
    hide Fire, ClampDelays;
    match e
    case Press(on, source) =>
    case Timeout(i, slot) =>
      if Due(s, i) {
        FireIsStep(s, i, slot);
      }
    case Inhibit(on) =>
    case Outside(edit) => ApplyKeepsChain(s, edit);
  }

  /** In every such session the attenuator is where the settings last put it, from the raise to the end of MOX. */
  lemma {:induction false} AttenuationWhileKeyed(s: Tx, es: seq<Event>)
    requires ComeUp(s) && s.config.attDb <= 31 && AttTimely(s, es)
    ensures var t := Run(s, es);
            && AttInForce(t)
            && (t.wire.mox ==> t.front.stepAttn == if AttEnabledOf(s.config.attEnabled, es) then AttDbOf(s.config.attDb, es) else 31)
    decreases |es|
  {
    hide Next, AttInForce;
    if es == [] {
      NotYetKeyed(s);
    } else {
      AttenuationWhileKeyed(s, es[..|es| - 1]);
      AttNext(Run(s, es[..|es| - 1]), es[|es| - 1]);
    }
    SettingsAreHistory(s, es);
    InForceMeans(Run(s, es));
  }

  lemma NotYetKeyed(s: Tx)
    requires ComeUp(s) && s.config.attDb <= 31
    ensures AttInForce(s)
  {
  }

  lemma InForceMeans(s: Tx)
    requires AttInForce(s)
    ensures s.wire.mox ==> s.front.stepAttn == AttOf(s.config)
  {
  }

  // ---- The intent ----

  /** The slots of an edge signal run in two of the steps. */
  predicate SlotRuns(s: Tx, i: nat) {
    Due(s, i) && ((s.pending[i].step == KeydownSettled && s.requested)
                  || (s.pending[i].step == KeyupSettled && !s.requested))
  }

  predicate Passes(s: Tx, on: bool) {
    !on || (!s.config.inhibit && !s.config.lockout)
  }

  /** The last word on the key: requests let through, from a source, a slot or the inhibit. */
  function Intent(s: Tx, es: seq<Event>): bool
    decreases |es|
  {
    if es == [] then s.requested
    else
      var before, last := Run(s, es[..|es| - 1]), Intent(s, es[..|es| - 1]);
      match es[|es| - 1]
      case Press(on, source) => if Passes(before, on) then on else last
      case Timeout(i, slot) => if SlotRuns(before, i) && slot.Asks? && Passes(before, slot.on) then slot.on else last
      case Inhibit(on) => if on && !before.config.inhibit && before.wire.mox then false else last
      case Outside(edit) => last
  }

  lemma {:induction false} IntentIsLastWord(s: Tx, es: seq<Event>)
    requires Safe(s)
    ensures Safe(Run(s, es)) && Run(s, es).requested == Intent(s, es)
    decreases |es|
  {
    if es != [] {
      var before, e := Run(s, es[..|es| - 1]), es[|es| - 1];
      IntentIsLastWord(s, es[..|es| - 1]);
      SafeNext(before, e);
      WordStep(before, e);
      hide Next, Safe, SlotRuns;
    }
  }

  lemma WordStep(s: Tx, e: Event)
    requires Safe(s)
    ensures Next(s, e).requested ==
            match e
            case Press(on, source) => if Passes(s, on) then on else s.requested
            case Timeout(i, slot) => if SlotRuns(s, i) && slot.Asks? && Passes(s, slot.on) then slot.on else s.requested
            case Inhibit(on) => if on && !s.config.inhibit && s.wire.mox then false else s.requested
            case Outside(edit) => s.requested
  {
    hide Clamp, TxAttn, Fire;
    match e
    case Press(on, source) =>
    case Timeout(i, slot) =>
      if Due(s, i) {
        FireIsStep(s, i, slot);
      }
    case Inhibit(on) =>
    case Outside(edit) => ApplyKeepsChain(s, edit);
  }

  // ---- The source ----

  /** Who last got a key-down through since the station last went to receive; the operator's own by default. */
  function SourceOf(s: Tx, es: seq<Event>): Source
    decreases |es|
  {
    if es == [] then s.source
    else
      var before, last, e := Run(s, es[..|es| - 1]), SourceOf(s, es[..|es| - 1]), es[|es| - 1];
      match e
      case Press(on, source) => if on && Passes(before, true) then source else last
      case Timeout(i, slot) =>
        if Fires(before, e, KeyupSettled) && !before.requested then Manual
        else if SlotRuns(before, i) && slot.Asks? && slot.on && Passes(before, true) then slot.source
        else last
      case _ => last
  }

  lemma SourceStep(s: Tx, e: Event)
    requires Safe(s)
    ensures Next(s, e).source ==
            match e
            case Press(on, source) => if on && Passes(s, true) then source else s.source
            case Timeout(i, slot) =>
              if Fires(s, e, KeyupSettled) && !s.requested then Manual
              else if SlotRuns(s, i) && slot.Asks? && slot.on && Passes(s, true) then slot.source
              else s.source
            case _ => s.source
  {
    hide Clamp, TxAttn, Fire;
    match e
    case Press(on, source) =>
    case Timeout(i, slot) =>
      if Due(s, i) {
        FireIsStep(s, i, slot);
      }
    case Inhibit(on) =>
    case Outside(edit) => ApplyKeepsChain(s, edit);
  }

  /** Over every session the recorded source is that of the last key-down let through, and the default again after each return to receive. */
  lemma {:induction false} SourceIsLastKeyer(s: Tx, es: seq<Event>)
    requires Safe(s)
    ensures Safe(Run(s, es)) && Run(s, es).source == SourceOf(s, es)
    decreases |es|
  {
    if es != [] {
      var before, e := Run(s, es[..|es| - 1]), es[|es| - 1];
      SourceIsLastKeyer(s, es[..|es| - 1]);
      SafeNext(before, e);
      SourceStep(before, e);
      hide Next, Safe, SlotRuns, Passes, Fires;
    }
  }
}
