/** The VFO plan: two dials, a second receiver, split, the two incremental tunings, and click-tune. */
module VfoPlan {
  import opened Ctune

  datatype Dials = Dials(a: int, b: int, rx2: int, split: bool, sub: bool, focused: int)

  datatype Offsets = Offsets(ritOn: bool, rit: int, xitOn: bool, xit: int)

  /** What the radio and the demodulator were last told; centre nought means click-tune is off. */
  datatype Radio = Radio(centre: int, ddc0: int, ddc1: int, shift: int, tx: int)

  datatype Plan = Plan(dials: Dials, offsets: Offsets, view: View, radio: Radio)

  function Bound(hz: int): int {
    if hz < -9999 then -9999 else if hz > 9999 then 9999 else hz
  }

  function Received(d: Dials, o: Offsets): int {
    d.a + (if o.ritOn then o.rit else 0)
  }

  function Transmitted(d: Dials, o: Offsets): int {
    (if d.split then d.b else d.a) + (if o.xitOn then o.xit else 0)
  }

  function SecondReceiver(d: Dials, ddc0: int): int {
    if d.sub then I32(d.rx2) else ddc0
  }

  /** The one writer of the receive centre. */
  function PushRx(p: Plan): Plan {
    var eff := Received(p.dials, p.offsets);
    if p.radio.centre != 0 then
      var c := Stored(Centre(p.radio.centre, eff, p.view));
      p.(radio := Radio(c, I32(c), SecondReceiver(p.dials, I32(c)), eff - c, p.radio.tx))
    else
      p.(radio := p.radio.(ddc0 := I32(eff), ddc1 := SecondReceiver(p.dials, I32(eff))))
  }

  /** The one writer of the transmit frequency. */
  function PushTx(p: Plan): Plan {
    p.(radio := p.radio.(tx := U32(Transmitted(p.dials, p.offsets))))
  }

  datatype Op =
    | TuneA(hz: int)
    | TuneB(hz: int)
    | TuneRx2(hz: int)
    | SetSplit(on: bool)
    | SetSub(on: bool)
    | Focus(rx: int)
    | SetRit(on: bool)
    | RitOffset(hz: int)
    | SetXit(on: bool)
    | XitOffset(hz: int)
    | CtuneCentre(hz: int)
    | SetCtune(on: bool)
    | DisplaySpan(span: real)
    | FilterEdges(lo: int, hi: int)

  /** Frequencies arrive in unsigned 32-bit fields. */
  predicate Wellformed(op: Op) {
    match op
    case TuneA(hz) => 0 <= hz < WORD
    case TuneB(hz) => 0 <= hz < WORD
    case TuneRx2(hz) => 0 <= hz < WORD
    case CtuneCentre(hz) => 0 <= hz < WORD
    case _ => true
  }

  function WithDials(p: Plan, d: Dials): Plan {
    p.(dials := d)
  }

  function ApplyTuneA(p: Plan, hz: int): Plan {
    if p.dials.a == hz then p
    else
      var t := PushRx(WithDials(p, p.dials.(a := hz)));
      if p.dials.split then t else PushTx(t)
  }

  function ApplyTuneB(p: Plan, hz: int): Plan {
    if p.dials.b == hz then p
    else
      var t := WithDials(p, p.dials.(b := hz));
      var u := if p.dials.split then PushTx(t) else t;
      if p.dials.sub && p.dials.split then PushRx(WithDials(u, u.dials.(rx2 := hz))) else u
  }

  function ApplyTuneRx2(p: Plan, hz: int): Plan {
    if p.dials.rx2 == hz then p
    else
      var t := WithDials(p, p.dials.(rx2 := hz));
      var u := if p.dials.sub && p.dials.split && p.dials.b != hz then PushTx(WithDials(t, t.dials.(b := hz))) else t;
      if p.dials.sub then PushRx(u) else u
  }

  function ApplySplit(p: Plan, on: bool): Plan {
    if p.dials.split == on then p
    else
      var d := p.dials.(split := on, focused := if !on && !p.dials.sub then 1 else p.dials.focused);
      var t := PushTx(WithDials(p, d));
      if on && d.sub then PushRx(WithDials(t, d.(rx2 := d.b))) else t
  }

  function ApplySub(p: Plan, on: bool): Plan {
    if p.dials.sub == on then p
    else
      var d := p.dials.(sub := on, focused := if !on && !p.dials.split then 1 else p.dials.focused);
      PushRx(WithDials(p, if on && d.split then d.(rx2 := d.b) else d))
  }

  function ApplyFocus(p: Plan, rx: int): Plan {
    var wanted := if rx == 2 && (p.dials.sub || p.dials.split) then 2 else 1;
    WithDials(p, p.dials.(focused := wanted))
  }

  /** Engages, moves or, with nought, releases the locked centre. */
  function ApplyCentre(p: Plan, hz: int): Plan {
    if p.radio.centre == hz then p
    else
      var t := PushRx(p.(radio := p.radio.(centre := hz)));
      if hz == 0 then t.(radio := t.radio.(shift := 0)) else t
  }

  function Refit(p: Plan, v: View): Plan {
    var t := p.(view := v);
    if p.radio.centre != 0 then PushRx(t) else t
  }

  function Apply(p: Plan, op: Op): Plan {
    match op
    case TuneA(hz) => ApplyTuneA(p, hz)
    case TuneB(hz) => ApplyTuneB(p, hz)
    case TuneRx2(hz) => ApplyTuneRx2(p, hz)
    case SetSplit(on) => ApplySplit(p, on)
    case SetSub(on) => ApplySub(p, on)
    case Focus(rx) => ApplyFocus(p, rx)
    case SetRit(on) =>
      if p.offsets.ritOn == on then p else PushRx(p.(offsets := p.offsets.(ritOn := on)))
    case RitOffset(hz) =>
      if p.offsets.rit == Bound(hz) then p
      else
        var t := p.(offsets := p.offsets.(rit := Bound(hz)));
        if p.offsets.ritOn then PushRx(t) else t
    case SetXit(on) =>
      if p.offsets.xitOn == on then p else PushTx(p.(offsets := p.offsets.(xitOn := on)))
    case XitOffset(hz) =>
      if p.offsets.xit == Bound(hz) then p
      else
        var t := p.(offsets := p.offsets.(xit := Bound(hz)));
        if p.offsets.xitOn then PushTx(t) else t
    case CtuneCentre(hz) => ApplyCentre(p, hz)
    case SetCtune(on) =>
      if on == (p.radio.centre != 0) then p else ApplyCentre(p, if on then p.dials.a else 0)
    case DisplaySpan(span) => Refit(p, p.view.(span := if span < 0.0 then 0.0 else span))
    case FilterEdges(lo, hi) => Refit(p, p.view.(filtLo := lo, filtHi := hi))
  }

  function Run(p: Plan, ops: seq<Op>): Plan
    decreases |ops|
  {
    if ops == [] then p else Apply(Run(p, ops[..|ops| - 1]), ops[|ops| - 1])
  }

  // ---- Coherence ----

  /** The plan and the radio agree. */
  ghost predicate Coherent(p: Plan) {
    && 0 <= p.radio.centre < WORD && 0 <= p.dials.a < WORD
    && p.radio.tx == U32(Transmitted(p.dials, p.offsets))
    && p.radio.ddc1 == SecondReceiver(p.dials, p.radio.ddc0)
    && (p.radio.centre != 0 ==> p.radio.ddc0 == I32(p.radio.centre))
    && (p.radio.centre != 0 ==> p.radio.centre + p.radio.shift == Received(p.dials, p.offsets))
    && (p.dials.sub && p.dials.split ==> p.dials.rx2 == p.dials.b)
    && (p.dials.focused == 2 ==> p.dials.sub || p.dials.split)
  }

  /** Every setter leaves the plan and the radio in agreement. */
  lemma ApplyCoheres(p: Plan, op: Op)
    requires Coherent(p) && Wellformed(op)
    ensures Coherent(Apply(p, op))
  {
    hide Stored, Centre, U32, I32;
    StoredFits();
  }

  lemma StoredFits()
    ensures forall c :: 0 <= Stored(c) < WORD
  {
  }

  ghost predicate AllWellformed(ops: seq<Op>) {
    forall i :: 0 <= i < |ops| ==> Wellformed(ops[i])
  }

  /**
   * Over every sequence of setters: the transmitter is on its dial plus XIT, the second converter
   * on its receiver, split with a second receiver ties that one to VFO B, and the focus is live.
   */
  lemma {:induction false} RunCoheres(p: Plan, ops: seq<Op>)
    requires Coherent(p) && AllWellformed(ops)
    ensures Coherent(Run(p, ops))
    decreases |ops|
  {
    if ops == [] {
    } else {
      RunCoheres(p, ops[..|ops| - 1]);
      hide Coherent, Apply;
      ApplyCoheres(Run(p, ops[..|ops| - 1]), ops[|ops| - 1]);
    }
  }

  // ---- On the dial ----

  /** With click-tune off the demodulator's shift is off and the hardware is on the dial. */
  ghost predicate OnDial(p: Plan) {
    p.radio.centre == 0 ==> p.radio.shift == 0 && p.radio.ddc0 == I32(Received(p.dials, p.offsets))
  }

  ghost predicate Roomy(p: Plan) {
    Tractable(p.view) && 0 < Received(p.dials, p.offsets) < WORD
  }

  /** Exactly when an evaluation of the centre loses the dial: it clamps the centre away. */
  lemma PushOnDialIff(p: Plan)
    requires p.radio.centre == 0 ==> p.radio.shift == 0
    ensures var eff := Received(p.dials, p.offsets);
            OnDial(PushRx(p)) <==> p.radio.centre == 0 || Stored(Centre(p.radio.centre, eff, p.view)) != 0 || eff == 0
  {
    hide Centre;
  }

  /** The centre a setter means to have engaged. */
  function Meant(p: Plan, op: Op): int {
    match op
    case CtuneCentre(hz) => hz
    case SetCtune(on) => if on == (p.radio.centre != 0) then p.radio.centre else if on then p.dials.a else 0
    case _ => p.radio.centre
  }

  /** The setter's own guard for evaluating the centre. */
  predicate Evaluates(p: Plan, op: Op) {
    match op
    case TuneA(hz) => hz != p.dials.a
    case TuneB(hz) => hz != p.dials.b && p.dials.sub && p.dials.split
    case TuneRx2(hz) => hz != p.dials.rx2 && p.dials.sub
    case SetSplit(on) => on && !p.dials.split && p.dials.sub
    case SetSub(on) => on != p.dials.sub
    case SetRit(on) => on != p.offsets.ritOn
    case RitOffset(hz) => Bound(hz) != p.offsets.rit && p.offsets.ritOn
    case CtuneCentre(hz) => hz != p.radio.centre
    case SetCtune(on) => on != (p.radio.centre != 0)
    case DisplaySpan(span) => p.radio.centre != 0
    case FilterEdges(lo, hi) => p.radio.centre != 0
    case _ => false
  }

  /** Dial plus RIT as the setter's arguments have it. */
  function Wanted(p: Plan, op: Op): int {
    match op
    case TuneA(hz) => Received(p.dials.(a := hz), p.offsets)
    case SetRit(on) => Received(p.dials, p.offsets.(ritOn := on))
    case RitOffset(hz) => Received(p.dials, p.offsets.(rit := Bound(hz)))
    case _ => Received(p.dials, p.offsets)
  }

  /** The view as the setter's arguments have it. */
  function Shown(p: Plan, op: Op): View {
    match op
    case DisplaySpan(span) => p.view.(span := if span < 0.0 then 0.0 else span)
    case FilterEdges(lo, hi) => p.view.(filtLo := lo, filtHi := hi)
    case _ => p.view
  }

  /** Before the call: it will evaluate a centre, and clamp it away from under a dial that is not at nought. */
  predicate Loses(p: Plan, op: Op) {
    && Evaluates(p, op) && Meant(p, op) != 0 && Wanted(p, op) != 0
    && Stored(Centre(Meant(p, op), Wanted(p, op), Shown(p, op))) == 0
  }

  /** For every plan and setter: exactly then the dial is lost. */
  lemma ApplyOnDialIff(p: Plan, op: Op)
    requires Coherent(p) && Wellformed(op) && OnDial(p)
    ensures OnDial(Apply(p, op)) <==> !Loses(p, op)
  {
    hide Stored, Centre, U32, I32;
    NoughtStaysNought();
  }

  lemma NoughtStaysNought()
    ensures I32(0) == 0
  {
  }

  /** A dial above nought is never lost, with a filter that fits its half of the view. */
  lemma RoomyKeeps(p: Plan, op: Op)
    requires Coherent(p) && Wellformed(op) && Roomy(Apply(p, op))
    ensures !Loses(p, op)
  {
    if Evaluates(p, op) && Meant(p, op) != 0 {
      Installs(p, op);
      StaysLive(Meant(p, op), Wanted(p, op), Shown(p, op));
    }
    hide Stored, Centre, Apply, Tractable;
  }

  /** The setter that evaluates installs what it was asked for. */
  lemma Installs(p: Plan, op: Op)
    requires Coherent(p) && Wellformed(op) && Evaluates(p, op)
    ensures var q := Apply(p, op); Received(q.dials, q.offsets) == Wanted(p, op) && q.view == Shown(p, op)
    ensures 0 <= Meant(p, op) < WORD
  {
    hide Stored, Centre, U32, I32;
  }

  ghost predicate NeverLoses(p: Plan, ops: seq<Op>)
    decreases |ops|
  {
    ops == [] || (NeverLoses(p, ops[..|ops| - 1]) && !Loses(Run(p, ops[..|ops| - 1]), ops[|ops| - 1]))
  }

  ghost predicate RoomyThroughout(p: Plan, ops: seq<Op>) {
    forall k :: 0 <= k <= |ops| ==> Roomy(Run(p, ops[..k]))
  }

  lemma {:induction false} RoomyNeverLoses(p: Plan, ops: seq<Op>)
    requires Coherent(p) && AllWellformed(ops) && RoomyThroughout(p, ops)
    ensures NeverLoses(p, ops)
    decreases |ops|
  {
    hide Coherent, Apply, Roomy, Loses;
    if ops != [] {
      var front := ops[..|ops| - 1];
      assert forall k :: 0 <= k <= |front| ==> front[..k] == ops[..k];
      RoomyNeverLoses(p, front);
      RunCoheres(p, front);
      assert ops[..|ops|] == ops;
      RoomyKeeps(Run(p, front), ops[|ops| - 1]);
    }
  }

  /** Where the receiver listens, counting the demodulator's shift. */
  function Heard(p: Plan): int {
    p.radio.ddc0 + p.radio.shift
  }

  /**
   * Over every run in which no setter loses the dial, the receiver hears exactly dial plus RIT, up to
   * the wrap of the 32-bit argument; below its sign bit there is no wrap.
   */
  lemma {:induction false} RunHearsTheDial(p: Plan, ops: seq<Op>)
    requires Coherent(p) && OnDial(p) && AllWellformed(ops) && NeverLoses(p, ops)
    ensures var q := Run(p, ops); var eff := Received(q.dials, q.offsets);
            && OnDial(q) && U32(Heard(q)) == U32(eff)
            && (0 <= eff < 0x8000_0000 && q.radio.centre < 0x8000_0000 ==> Heard(q) == eff)
    decreases |ops|
  {
    hide Coherent, Apply, OnDial, Loses, U32, I32, Heard;
    RunCoheres(p, ops);
    if ops != [] {
      var front := ops[..|ops| - 1];
      RunHearsTheDial(p, front);
      RunCoheres(p, front);
      ApplyOnDialIff(Run(p, front), ops[|ops| - 1]);
    }
    Hears(Run(p, ops));
  }

  lemma Hears(p: Plan)
    requires Coherent(p) && OnDial(p)
    ensures var eff := Received(p.dials, p.offsets);
            && U32(Heard(p)) == U32(eff)
            && (0 <= eff < 0x8000_0000 && p.radio.centre < 0x8000_0000 ==> Heard(p) == eff)
  {
    var x := if p.radio.centre == 0 then Received(p.dials, p.offsets) else p.radio.centre;
    ConvertedWraps(x, p.radio.shift);
    if p.radio.centre == 0 && 0 <= x < 0x8000_0000 {
      NoWrap(x);
    } else if 0 <= p.radio.centre < 0x8000_0000 {
      NoWrap(p.radio.centre);
    }
    hide U32, I32;
  }

  lemma NoWrap(x: int)
    requires 0 <= x < 0x8000_0000
    ensures I32(x) == x
  {
  }

  lemma ConvertedWraps(x: int, k: int)
    ensures U32(I32(x) + k) == U32(x + k)
  {
    var turns := (x + 0x8000_0000) / WORD;
    assert I32(x) == x - turns * WORD;
    WholeTurns(x + k, turns);
  }

  lemma {:induction false} WholeTurns(x: int, turns: int)
    ensures U32(x - turns * WORD) == U32(x)
    decreases if turns < 0 then -turns else turns
  {
    if turns > 0 {
      WholeTurns(x, turns - 1);
      OneTurn(x - turns * WORD);
    } else if turns < 0 {
      WholeTurns(x, turns + 1);
      OneTurn(x - (turns + 1) * WORD);
    }
  }

  lemma OneTurn(x: int)
    ensures U32(x + WORD) == U32(x)
  {
  }

  // ---- Coming up ----

  /** The plan as it is restored, and the radio as it is first set: from the dials alone. */
  function ComeUp(stored: Dials, o: Offsets, v: View): Plan {
    var d := stored.(focused := if stored.sub && stored.focused >= 2 then 2 else 1,
                     rx2 := if stored.sub && stored.split then stored.b else stored.rx2);
    Plan(d, o, v, Radio(0, I32(d.a), SecondReceiver(d, I32(d.a)), 0, if d.split then d.b else d.a))
  }

  /** The plan comes up coherent exactly when XIT is off or nought, and on the dial when RIT is. */
  lemma ComesUpCoherentIff(stored: Dials, o: Offsets, v: View)
    requires 0 <= stored.a < WORD && 0 <= stored.b < WORD && -9999 <= o.rit <= 9999 && -9999 <= o.xit <= 9999
    ensures var p := ComeUp(stored, o, v);
            && (Coherent(p) <==> !o.xitOn || o.xit == 0)
            && (OnDial(p) <==> !o.ritOn || o.rit == 0)
  {
    var d := ComeUp(stored, o, v).dials;
    var tx := if d.split then d.b else d.a;
    assert U32(tx) == tx;
    WrapMoves(tx, o.xit);
    WrapMoves(stored.a + 0x8000_0000, o.rit);
  }

  lemma WrapMoves(x: int, k: int)
    requires -9999 <= k <= 9999
    ensures U32(x + k) == U32(x) <==> k == 0
  {
    if U32(x + k) == U32(x) {
      assert k == (x + k) / WORD * WORD - x / WORD * WORD;
    }
  }

  // ---- The centre clamped away ----

  predicate TouchesCtune(op: Op) {
    op.CtuneCentre? || op.SetCtune?
  }

  lemma ShiftStays(p: Plan, op: Op)
    requires p.radio.centre == 0 && !TouchesCtune(op)
    ensures Apply(p, op).radio.centre == 0 && Apply(p, op).radio.shift == p.radio.shift
  {
    hide Centre, U32, I32;
  }

  /**
   * When an evaluation clamps the centre to nought, click-tune reads as off but the demodulator
   * keeps the whole dial as its shift. No tuning and no other setter ever takes that shift back,
   * and switching click-tune off again does nothing.
   */
  lemma {:induction false} StrandedShift(p: Plan, ops: seq<Op>)
    requires p.radio.centre != 0 && Stored(Centre(p.radio.centre, Received(p.dials, p.offsets), p.view)) == 0
    requires forall i :: 0 <= i < |ops| ==> !TouchesCtune(ops[i])
    ensures var q := Run(PushRx(p), ops);
            && q.radio.centre == 0 && q.radio.shift == Received(p.dials, p.offsets)
            && Apply(q, SetCtune(false)) == q
    decreases |ops|
  {
    if ops == [] {
    } else {
      StrandedShift(p, ops[..|ops| - 1]);
      ShiftStays(Run(PushRx(p), ops[..|ops| - 1]), ops[|ops| - 1]);
      hide Apply, PushRx, Stored, Centre;
    }
  }

  /** Such a plan: a very low dial, RIT below nought, and a view too narrow for the passband. */
  lemma StrandedExample()
    ensures var p := Plan(Dials(5000, 0, 0, false, false, 1), Offsets(true, 0, false, 0),
                          View(192000.0, 2000.0, 200, 3000), Radio(5000, 5000, 5000, 0, 5000));
            && Coherent(p) && OnDial(p)
            && Run(p, [RitOffset(-9999), RitOffset(0)]).radio == Radio(0, 5000, 5000, -4999, 5000)
  {
    var p := Plan(Dials(5000, 0, 0, false, false, 1), Offsets(true, 0, false, 0),
                  View(192000.0, 2000.0, 200, 3000), Radio(5000, 5000, 5000, 0, 5000));
    var ops := [RitOffset(-9999), RitOffset(0)];
    assert ops[..1] == [RitOffset(-9999)] && ops[..1][..0] == [];
    assert Run(p, ops[..1]) == Apply(p, RitOffset(-9999));
    assert Run(p, ops) == Apply(Run(p, ops[..1]), RitOffset(0));
  }

  /** The object that owns the plan. */
  class Tuner {
    var a: int
    var b: int
    var rx2: int
    var split: bool
    var sub: bool
    var focused: int
    var ritOn: bool
    var rit: int
    var xitOn: bool
    var xit: int
    var view: View
    var centre: int
    var ddc0: int
    var ddc1: int
    var shift: int
    var tx: int

    function Dialled(): Dials
      reads this
    {
      Dials(a, b, rx2, split, sub, focused)
    }

    function Offset(): Offsets
      reads this
    {
      Offsets(ritOn, rit, xitOn, xit)
    }

    function Told(): Radio
      reads this
    {
      Radio(centre, ddc0, ddc1, shift, tx)
    }

    function State(): Plan
      reads this
    {
      Plan(Dialled(), Offset(), view, Told())
    }

    method PushEffectiveTxFreq()
      modifies this`tx
      ensures tx == PushTx(old(State())).radio.tx
    {
      var base := if split then b else a;
      tx := U32(base + (if xitOn then xit else 0));
    }

    method PushEffectiveRxFreq()
      modifies this`centre, this`ddc0, this`ddc1, this`shift
      ensures Told() == PushRx(old(State())).radio
    {
      hide Centre, I32;
      var eff := a + (if ritOn then rit else 0);
      if centre != 0 {
        var cen := Centre(centre, eff, view);
        if cen < 0 {
          cen := 0;
        }
        if U32(cen) != centre {
          centre := U32(cen);
        }
        ddc0 := I32(centre);
        WriteDdc1Hz(I32(centre));
        shift := eff - centre;
      } else {
        ddc0 := I32(eff);
        WriteDdc1Hz(I32(eff));
      }
    }

    method WriteDdc1Hz(ddc0Hz: int)
      modifies this`ddc1
      ensures ddc1 == SecondReceiver(Dialled(), ddc0Hz)
    {
      if sub {
        ddc1 := I32(rx2);
      } else {
        ddc1 := ddc0Hz;
      }
    }

    method SetRx1FreqHz(hz: int)
      modifies this`a, this`centre, this`ddc0, this`ddc1, this`shift, this`tx
      ensures Dialled() == Apply(old(State()), TuneA(hz)).dials && Told() == Apply(old(State()), TuneA(hz)).radio
    {
      hide Centre, U32, I32;
      if a != hz {
        a := hz;
        PushEffectiveRxFreq();
        if !split {
          PushEffectiveTxFreq();
        }
      }
    }

    method SetVfoBHz(hz: int)
      modifies this`b, this`rx2, this`centre, this`ddc0, this`ddc1, this`shift, this`tx
      ensures Dialled() == Apply(old(State()), TuneB(hz)).dials && Told() == Apply(old(State()), TuneB(hz)).radio
    {
      hide Centre, U32, I32;
      if b == hz {
        return;
      }
      b := hz;
      if split {
        PushEffectiveTxFreq();
      }
      if sub && split {
        rx2 := hz;
        PushEffectiveRxFreq();
      }
    }

    method SetRx2FreqHz(hz: int)
      modifies this`b, this`rx2, this`centre, this`ddc0, this`ddc1, this`shift, this`tx
      ensures Dialled() == Apply(old(State()), TuneRx2(hz)).dials && Told() == Apply(old(State()), TuneRx2(hz)).radio
    {
      hide Centre, U32, I32;
      if rx2 == hz {
        return;
      }
      rx2 := hz;
      if sub && split {
        if b != hz {
          b := hz;
          PushEffectiveTxFreq();
        }
      }
      if sub {
        PushEffectiveRxFreq();
      }
    }

    method SetSplitEnabled(on: bool)
      modifies this`split, this`focused, this`rx2, this`centre, this`ddc0, this`ddc1, this`shift, this`tx
      ensures Dialled() == ApplySplit(old(State()), on).dials && Told() == ApplySplit(old(State()), on).radio
    {
      hide Centre, U32, I32;
      if split == on {
        return;
      }
      split := on;
      if !on && !sub && focused != 1 {
        focused := 1;
      }
      PushEffectiveTxFreq();
      if on && sub {
        rx2 := b;
        PushEffectiveRxFreq();
      }
    }

    method SetSubEnabled(on: bool)
      modifies this`sub, this`focused, this`rx2, this`centre, this`ddc0, this`ddc1, this`shift
      ensures Dialled() == ApplySub(old(State()), on).dials && Told() == ApplySub(old(State()), on).radio
    {
      hide Centre, U32, I32;
      if sub == on {
        return;
      }
      sub := on;
      if !on && !split && focused != 1 {
        focused := 1;
      }
      if on && split {
        rx2 := b;
      }
      PushEffectiveRxFreq();
    }

    method SetFocusedRx(rx: int)
      modifies this`focused
      ensures Dialled() == ApplyFocus(old(State()), rx).dials
    {
      var wanted := if rx == 2 then 2 else 1;
      if wanted == 2 && !sub && !split {
        wanted := 1;
      }
      focused := wanted;
    }

    method SetCtuneCenterHz(hz: int)
      modifies this`centre, this`ddc0, this`ddc1, this`shift
      ensures Told() == ApplyCentre(old(State()), hz).radio
    {
      hide Centre, U32, I32;
      if centre == hz {
        return;
      }
      centre := hz;
      PushEffectiveRxFreq();
      if hz == 0 {
        shift := 0;
      }
    }

    method SetCtuneEnabled(on: bool)
      modifies this`centre, this`ddc0, this`ddc1, this`shift
      ensures Told() == Apply(old(State()), SetCtune(on)).radio
    {
      hide ApplyCentre;
      if on == (centre != 0) {
        return;
      }
      SetCtuneCenterHz(if on then a else 0);
    }

    method SetCtuneDisplaySpanHz(hz: real)
      modifies this`view, this`centre, this`ddc0, this`ddc1, this`shift
      ensures view == Apply(old(State()), DisplaySpan(hz)).view && Told() == Apply(old(State()), DisplaySpan(hz)).radio
    {
      hide Centre, U32, I32;
      view := view.(span := if hz < 0.0 then 0.0 else hz);
      if centre != 0 {
        PushEffectiveRxFreq();
      }
    }

    method SetCtuneFilterEdges(lowHz: int, highHz: int)
      modifies this`view, this`centre, this`ddc0, this`ddc1, this`shift
      ensures view == Apply(old(State()), FilterEdges(lowHz, highHz)).view
      ensures Told() == Apply(old(State()), FilterEdges(lowHz, highHz)).radio
    {
      hide Centre, U32, I32;
      view := view.(filtLo := lowHz, filtHi := highHz);
      if centre != 0 {
        PushEffectiveRxFreq();
      }
    }

    method SetRitEnabled(on: bool)
      modifies this`ritOn, this`centre, this`ddc0, this`ddc1, this`shift
      ensures Offset() == Apply(old(State()), SetRit(on)).offsets && Told() == Apply(old(State()), SetRit(on)).radio
    {
      hide Centre, U32, I32;
      if ritOn != on {
        ritOn := on;
        PushEffectiveRxFreq();
      }
    }

    method SetRitOffsetHz(hz: int)
      modifies this`rit, this`centre, this`ddc0, this`ddc1, this`shift
      ensures Offset() == Apply(old(State()), RitOffset(hz)).offsets && Told() == Apply(old(State()), RitOffset(hz)).radio
    {
      hide Centre, U32, I32;
      if rit == Bound(hz) {
        return;
      }
      rit := Bound(hz);
      if ritOn {
        PushEffectiveRxFreq();
      }
    }

    method SetXitEnabled(on: bool)
      modifies this`xitOn, this`tx
      ensures Offset() == Apply(old(State()), SetXit(on)).offsets && Told() == Apply(old(State()), SetXit(on)).radio
    {
      hide U32;
      if xitOn != on {
        xitOn := on;
        PushEffectiveTxFreq();
      }
    }

    method SetXitOffsetHz(hz: int)
      modifies this`xit, this`tx
      ensures Offset() == Apply(old(State()), XitOffset(hz)).offsets && Told() == Apply(old(State()), XitOffset(hz)).radio
    {
      hide U32;
      if xit == Bound(hz) {
        return;
      }
      xit := Bound(hz);
      if xitOn {
        PushEffectiveTxFreq();
      }
    }
  }
}
