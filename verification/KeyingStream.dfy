/** The stream object's keying members, field by field, against the sequencer and gate they implement. */
module KeyingStream {
  import opened Basics
  import opened MoxSequencer
  import opened VoxGate

  class Stream {
    var requestedMox: bool
    var fsmRunning: bool
    var wire: Wire            // wire MOX bit, writer gate, TX I/Q branch, modulator channel
    var front: Front          // step attenuator, its saved value, filter board
    var moxActive: bool
    var pttSource: Source
    var config: Config        // attenuator settings, lockouts, TR delays
    var timers: seq<Timer>
    var clock: nat
    var voxOwnsKey: bool
    var voxKeying: bool
    var voxEnabled: bool
    var cwMode: bool

    function Sequencer(): Tx
      reads this
    {
      Tx(requestedMox, fsmRunning, wire, front, moxActive, pttSource, config, timers, clock)
    }

    function State(): Gate
      reads this
    {
      Gate(Sequencer(), voxOwnsKey, voxKeying, voxEnabled, cwMode)
    }

    constructor ()
      ensures ComeUp(Sequencer()) && !voxOwnsKey && !voxKeying && !voxEnabled
      ensures config.delays == Delays(15, 50, 13, 5, 10)
    {
      requestedMox, fsmRunning, wire := false, false, DEAD;
      front, moxActive, pttSource := Front(0, 0, false), false, Manual;
      config := Config(true, 31, false, false, Delays(15, 50, 13, 5, 10));
      timers, clock := [], 0;
      voxOwnsKey, voxKeying, voxEnabled, cwMode := false, false, false, false;
    }

    // ---- Leaf setters ----

    function WithAttn(db: int): Front
      reads this`front
    {
      front.(stepAttn := Clamp(db, 0, MAX_ATTN_DB))
    }

    function SingleShot(delay: nat, step: Step): seq<Timer>
      reads this`timers, this`clock
    {
      timers + [Timer(step, clock + delay)]
    }

    // ---- The chain ----

    method RequestMox(on: bool, source: Source)
      modifies `requestedMox, `fsmRunning, `wire, `front, `moxActive, `pttSource, `timers
      ensures Sequencer() == Request(old(Sequencer()), on, source)
    {
      if on && config.inhibit {
        return;
      }
      if on && config.lockout {
        return;
      }
      requestedMox := on;
      if on {
        pttSource := source;
      }
      if !fsmRunning {
        FsmAdvance();
      }
    }

    method FsmAdvance()
      modifies `requestedMox, `fsmRunning, `wire, `front, `moxActive, `pttSource, `timers
      ensures Sequencer() == Advance(old(Sequencer()))
    {
      var wireOn := wire.mox;
      if requestedMox && !wireOn {
        fsmRunning := true;
        front := front.(savedAttn := front.stepAttn);
        front := WithAttn(if config.attEnabled then config.attDb else ATT_ON_TX_DISABLED_DB);
        front := front.(ocTx := true);
        timers := SingleShot(config.delays.mox, PostMox);
      } else if !requestedMox && wireOn {
        fsmRunning := true;
        timers := SingleShot(config.delays.space, PostSpace);
      } else {
        fsmRunning := false;
      }
    }

    /** Emits the on-the-air edge: a connected slot may ask for the key from inside it. */
    method EmitMoxActive(slot: Slot)
      modifies `requestedMox, `fsmRunning, `wire, `front, `moxActive, `pttSource, `timers
      ensures Sequencer() == RunSlot(old(Sequencer()), slot)
    {
      match slot
      case Quiet =>
      case Asks(on, source) => RequestMox(on, source);
    }

    method FsmKeydownPostMox()
      modifies `requestedMox, `fsmRunning, `wire, `front, `moxActive, `pttSource, `timers
      ensures Sequencer() == AfterMoxDelay(old(Sequencer()))
    {
      if !requestedMox {
        front := WithAttn(front.savedAttn);
        front := front.(ocTx := false);
        fsmRunning := false;
        return;
      }
      wire := wire.(mox := true);
      wire := wire.(xmitBit := true);
      timers := SingleShot(config.delays.rf, KeydownSettled);
    }

    method FsmKeydownSettled(slot: Slot)
      modifies `requestedMox, `fsmRunning, `wire, `front, `moxActive, `pttSource, `timers
      ensures Sequencer() == AfterRfDelay(old(Sequencer()), slot)
    {
      if !requestedMox {
        timers := SingleShot(config.delays.space, PostSpace);
        return;
      }
      wire := wire.(inject := true);
      wire := wire.(txa := true);
      moxActive := true;
      EmitMoxActive(slot);
      fsmRunning := false;
      if !requestedMox {
        FsmAdvance();
      }
    }

    method FsmKeyupPostSpace()
      modifies `requestedMox, `fsmRunning, `wire, `front, `moxActive, `pttSource, `timers
      ensures Sequencer() == AfterSpace(old(Sequencer()))
    {
      if requestedMox {
        fsmRunning := false;
        return;
      }
      wire := wire.(txa := false);
      timers := SingleShot(config.delays.txStop, TxOff);
    }

    method FsmKeyupTxOff()
      modifies `requestedMox, `fsmRunning, `wire, `front, `moxActive, `pttSource, `timers
      ensures Sequencer() == AfterTxStop(old(Sequencer()))
    {
      wire := wire.(inject := false);
      wire := wire.(mox := false);
      wire := wire.(xmitBit := false);
      timers := SingleShot(config.delays.pttOut, KeyupSettled);
    }

    method FsmKeyupSettled(slot: Slot)
      modifies `requestedMox, `fsmRunning, `wire, `front, `moxActive, `pttSource, `timers
      ensures Sequencer() == AfterPttOut(old(Sequencer()), slot)
    {
      if requestedMox {
        fsmRunning := false;
        FsmAdvance();
        return;
      }
      front := WithAttn(front.savedAttn);
      front := front.(ocTx := false);
      moxActive := false;
      EmitMoxActive(slot);
      pttSource := Manual;
      fsmRunning := false;
    }

    /** A due single-shot timer is taken off the queue and its step runs. */
    method OnTimeout(i: nat, slot: Slot)
      requires Due(Sequencer(), i)
      modifies `requestedMox, `fsmRunning, `wire, `front, `moxActive, `pttSource, `timers
      ensures Sequencer() == Fire(old(Sequencer()), i, slot)
    {
      hide AfterMoxDelay, AfterRfDelay, AfterSpace, AfterTxStop, AfterPttOut;
      var step := timers[i].step;
      timers := timers[..i] + timers[i + 1..];
      match step
      case PostMox => FsmKeydownPostMox();
      case KeydownSettled => FsmKeydownSettled(slot);
      case PostSpace => FsmKeyupPostSpace();
      case TxOff => FsmKeyupTxOff();
      case KeyupSettled => FsmKeyupSettled(slot);
    }

    // ---- Settings the chain reads ----

    method SetTxInhibit(on: bool)
      modifies `requestedMox, `fsmRunning, `wire, `front, `moxActive, `pttSource, `timers, `config
      ensures Sequencer() == SetInhibit(old(Sequencer()), on)
    {
      hide Request;
      if on == config.inhibit {
        return;
      }
      config := config.(inhibit := on);
      if on && wire.mox {
        RequestMox(false, Manual);
      }
    }

    method SetAttOnTxEnabled(on: bool)
      modifies `config, `front
      ensures Sequencer() == Apply(old(Sequencer()), EditAttEnabled(on))
    {
      if on == config.attEnabled {
        return;
      }
      config := config.(attEnabled := on);
      if wire.mox {
        front := WithAttn(if on then config.attDb else ATT_ON_TX_DISABLED_DB);
      }
    }

    method SetAttOnTxDb(db: int)
      modifies `config, `front
      ensures Sequencer() == Apply(old(Sequencer()), EditAttDb(db))
    {
      var clamped := Clamp(db, 0, MAX_ATTN_DB);
      if clamped == config.attDb {
        return;
      }
      config := config.(attDb := clamped);
      if config.attEnabled && wire.mox {
        front := WithAttn(clamped);
      }
    }

    // ---- The voice gate ----

    method OnVoxPoll(want: bool)
      modifies this
      ensures State() == Poll(old(State()), want)
    {
      hide Request;
      if voxOwnsKey && (!wire.mox || pttSource != Vox) {
        voxOwnsKey := false;
        voxKeying := false;
      }
      if !voxEnabled || cwMode || config.inhibit {
        if voxOwnsKey {
          RequestMox(false, Vox);
          voxOwnsKey := false;
          voxKeying := false;
        }
        return;
      }
      if want && !voxOwnsKey {
        if !wire.mox && !requestedMox {
          RequestMox(true, Vox);
          voxOwnsKey := true;
          voxKeying := true;
        }
      } else if !want && voxOwnsKey {
        if wire.mox && pttSource == Vox {
          RequestMox(false, Vox);
        }
        voxOwnsKey := false;
        voxKeying := false;
      }
    }

    method SetVoxEnabled(on: bool)
      modifies this
      ensures State() == SetEnabled(old(State()), on)
    {
      hide Request;
      if voxEnabled == on {
        return;
      }
      voxEnabled := on;
      if !on {
        if voxOwnsKey && wire.mox && pttSource == Vox {
          RequestMox(false, Vox);
        }
        voxOwnsKey := false;
        voxKeying := false;
      }
    }
  }
}
