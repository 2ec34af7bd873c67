/** The VFO plan and the radio as the history of what was dialled. */
module VfoHistory {
  import opened Ctune
  import opened VfoPlan

  // ---- What was last asked for ----

  function SplitOf(start: bool, ops: seq<Op>): bool
    decreases |ops|
  {
    if ops == [] then start else if ops[|ops| - 1].SetSplit? then ops[|ops| - 1].on else SplitOf(start, ops[..|ops| - 1])
  }

  function SubOf(start: bool, ops: seq<Op>): bool
    decreases |ops|
  {
    if ops == [] then start else if ops[|ops| - 1].SetSub? then ops[|ops| - 1].on else SubOf(start, ops[..|ops| - 1])
  }

  function AOf(start: int, ops: seq<Op>): int
    decreases |ops|
  {
    if ops == [] then start else if ops[|ops| - 1].TuneA? then ops[|ops| - 1].hz else AOf(start, ops[..|ops| - 1])
  }

  function RitOnOf(start: bool, ops: seq<Op>): bool
    decreases |ops|
  {
    if ops == [] then start else if ops[|ops| - 1].SetRit? then ops[|ops| - 1].on else RitOnOf(start, ops[..|ops| - 1])
  }

  function XitOnOf(start: bool, ops: seq<Op>): bool
    decreases |ops|
  {
    if ops == [] then start else if ops[|ops| - 1].SetXit? then ops[|ops| - 1].on else XitOnOf(start, ops[..|ops| - 1])
  }

  function Limited(hz: int): int {
    if hz < -9999 then -9999 else if hz > 9999 then 9999 else hz
  }

  function RitOf(start: int, ops: seq<Op>): int
    decreases |ops|
  {
    if ops == [] then start else if ops[|ops| - 1].RitOffset? then Limited(ops[|ops| - 1].hz) else RitOf(start, ops[..|ops| - 1])
  }

  function XitOf(start: int, ops: seq<Op>): int
    decreases |ops|
  {
    if ops == [] then start else if ops[|ops| - 1].XitOffset? then Limited(ops[|ops| - 1].hz) else XitOf(start, ops[..|ops| - 1])
  }

  function ViewOf(start: View, ops: seq<Op>): View
    decreases |ops|
  {
    if ops == [] then start
    else
      var v := ViewOf(start, ops[..|ops| - 1]);
      match ops[|ops| - 1]
      case DisplaySpan(span) => v.(span := if span < 0.0 then 0.0 else span)
      case FilterEdges(lo, hi) => v.(filtLo := lo, filtHi := hi)
      case _ => v
  }

  /** SUB and SPLIT together tie the second receiver to VFO B. */
  predicate Tied(start: Dials, ops: seq<Op>) {
    SplitOf(start.split, ops) && SubOf(start.sub, ops)
  }

  /** VFO B is where it was last tuned, itself or through the second receiver while tied. */
  function BOf(start: Dials, ops: seq<Op>): int
    decreases |ops|
  {
    if ops == [] then start.b
    else
      var front := ops[..|ops| - 1];
      match ops[|ops| - 1]
      case TuneB(hz) => hz
      case TuneRx2(hz) => if Tied(start, front) then hz else BOf(start, front)
      case _ => BOf(start, front)
  }

  /** The second receiver is where it was last tuned, itself or through VFO B, which it joins when the tie begins. */
  function Rx2Of(start: Dials, ops: seq<Op>): int
    decreases |ops|
  {
    if ops == [] then start.rx2
    else
      var front := ops[..|ops| - 1];
      match ops[|ops| - 1]
      case TuneRx2(hz) => hz
      case _ => if Tied(start, ops) then BOf(start, ops) else Rx2Of(start, front)
  }

  /** The focus is where it was last put, and falls back to A when neither SUB nor SPLIT is left. */
  function FocusOf(start: Dials, ops: seq<Op>): int
    decreases |ops|
  {
    if ops == [] then start.focused
    else
      var front := ops[..|ops| - 1];
      var live := SubOf(start.sub, ops) || SplitOf(start.split, ops);
      match ops[|ops| - 1]
      case Focus(rx) => if rx == 2 && live then 2 else 1
      case SetSplit(on) => if on != SplitOf(start.split, front) && !live then 1 else FocusOf(start, front)
      case SetSub(on) => if on != SubOf(start.sub, front) && !live then 1 else FocusOf(start, front)
      case _ => FocusOf(start, front)
  }

  // ---- The plan is its history ----

  lemma OffsetsStep(p: Plan, op: Op)
    ensures var o, t := p.offsets, Apply(p, op).offsets;
            t == match op
                 case SetRit(on) => o.(ritOn := on)
                 case RitOffset(hz) => o.(rit := Limited(hz))
                 case SetXit(on) => o.(xitOn := on)
                 case XitOffset(hz) => o.(xit := Limited(hz))
                 case _ => o
  {
    hide Centre, Stored, U32, I32, Received, Transmitted, SecondReceiver;
  }

  lemma ViewStep(p: Plan, op: Op)
    ensures Apply(p, op).view ==
            match op
            case DisplaySpan(span) => p.view.(span := if span < 0.0 then 0.0 else span)
            case FilterEdges(lo, hi) => p.view.(filtLo := lo, filtHi := hi)
            case _ => p.view
  {
    hide Centre, Stored, U32, I32, Received, Transmitted, SecondReceiver;
  }

  lemma DialsStep(p: Plan, op: Op)
    requires Coherent(p)
    ensures var d, t := p.dials, Apply(p, op).dials;
            t == match op
                 case TuneA(hz) => d.(a := hz)
                 case TuneB(hz) => if d.sub && d.split then d.(b := hz, rx2 := hz) else d.(b := hz)
                 case TuneRx2(hz) => if d.sub && d.split then d.(b := hz, rx2 := hz) else d.(rx2 := hz)
                 case SetSplit(on) =>
                   d.(split := on, rx2 := if on && d.sub then d.b else d.rx2,
                      focused := if d.split && !on && !d.sub then 1 else d.focused)
                 case SetSub(on) =>
                   d.(sub := on, rx2 := if on && d.split then d.b else d.rx2,
                      focused := if d.sub && !on && !d.split then 1 else d.focused)
                 case Focus(rx) => d.(focused := if rx == 2 && (d.sub || d.split) then 2 else 1)
                 case _ => d
  {
    hide Centre, Stored, U32, I32, Received, Transmitted, SecondReceiver;
  }

  lemma {:induction false} OffsetsAreHistory(p: Plan, ops: seq<Op>)
    ensures var o := p.offsets;
            Run(p, ops).offsets == Offsets(RitOnOf(o.ritOn, ops), RitOf(o.rit, ops), XitOnOf(o.xitOn, ops), XitOf(o.xit, ops))
    decreases |ops|
  {
    if ops != [] {
      hide Apply;
      OffsetsAreHistory(p, ops[..|ops| - 1]);
      OffsetsStep(Run(p, ops[..|ops| - 1]), ops[|ops| - 1]);
    }
  }

  lemma {:induction false} ViewIsHistory(p: Plan, ops: seq<Op>)
    ensures Run(p, ops).view == ViewOf(p.view, ops)
    decreases |ops|
  {
    if ops != [] {
      hide Apply;
      ViewIsHistory(p, ops[..|ops| - 1]);
      ViewStep(Run(p, ops[..|ops| - 1]), ops[|ops| - 1]);
    }
  }

  lemma {:induction false} DialsAreHistory(p: Plan, ops: seq<Op>)
    requires Coherent(p) && AllWellformed(ops)
    ensures var d := p.dials;
            Run(p, ops).dials == Dials(AOf(d.a, ops), BOf(d, ops), Rx2Of(d, ops), SplitOf(d.split, ops), SubOf(d.sub, ops), FocusOf(d, ops))
    decreases |ops|
  {
    if ops == [] {
      TieHolds(p);
    } else {
      hide Apply, Coherent;
      var front, op := ops[..|ops| - 1], ops[|ops| - 1];
      var q := Run(p, front);
      DialsAreHistory(p, front);
      RunCoheres(p, front);
      DialsStep(q, op);
      TieHolds(q);
    }
  }

  /** Over every sequence of setters each field of the plan is what was last asked for. */
  lemma PlanIsHistory(p: Plan, ops: seq<Op>)
    requires Coherent(p) && AllWellformed(ops)
    ensures var d, o, q := p.dials, p.offsets, Run(p, ops);
            && q.dials == Dials(AOf(d.a, ops), BOf(d, ops), Rx2Of(d, ops), SplitOf(d.split, ops), SubOf(d.sub, ops), FocusOf(d, ops))
            && q.offsets == Offsets(RitOnOf(o.ritOn, ops), RitOf(o.rit, ops), XitOnOf(o.xitOn, ops), XitOf(o.xit, ops))
            && q.view == ViewOf(p.view, ops)
  {
    hide Run;
    DialsAreHistory(p, ops);
    OffsetsAreHistory(p, ops);
    ViewIsHistory(p, ops);
  }

  lemma TieHolds(p: Plan)
    requires Coherent(p)
    ensures p.dials.sub && p.dials.split ==> p.dials.rx2 == p.dials.b
  {
  }

  /**
   * What is transmitted, from the history alone: VFO B under SPLIT, A otherwise, plus XIT while it is
   * on, in the 32 bits of the register. And what the second converter is given.
   */
  lemma TransmitsTheHistory(p: Plan, ops: seq<Op>)
    requires Coherent(p) && AllWellformed(ops)
    ensures var d, o, r := p.dials, p.offsets, Run(p, ops).radio;
            && r.tx == U32((if SplitOf(d.split, ops) then BOf(d, ops) else AOf(d.a, ops))
                           + (if XitOnOf(o.xitOn, ops) then XitOf(o.xit, ops) else 0))
            && r.ddc1 == (if SubOf(d.sub, ops) then I32(Rx2Of(d, ops)) else r.ddc0)
  {
    PlanIsHistory(p, ops);
    RunCoheres(p, ops);
    hide Run, BOf, Rx2Of, AOf, SplitOf, SubOf, FocusOf, U32, I32;
  }

  /** And what is heard, over every run in which no setter loses the dial: A plus RIT while it is on. */
  lemma HearsTheHistory(p: Plan, ops: seq<Op>)
    requires Coherent(p) && OnDial(p) && AllWellformed(ops) && NeverLoses(p, ops)
    ensures var o := p.offsets;
            U32(Heard(Run(p, ops))) == U32(AOf(p.dials.a, ops) + (if RitOnOf(o.ritOn, ops) then RitOf(o.rit, ops) else 0))
  {
    PlanIsHistory(p, ops);
    RunHearsTheDial(p, ops);
    hide Run, BOf, Rx2Of, AOf, SplitOf, SubOf, FocusOf, U32, I32, Heard, NeverLoses, Coherent;
  }

  // ---- What a setter leaves alone, in any plan ----

  /** The setter asks for what the plan already has. */
  predicate NoNews(p: Plan, op: Op) {
    match op
    case TuneA(hz) => hz == p.dials.a
    case TuneB(hz) => hz == p.dials.b
    case TuneRx2(hz) => hz == p.dials.rx2
    case SetSplit(on) => on == p.dials.split
    case SetSub(on) => on == p.dials.sub
    case Focus(rx) => p.dials.focused == if rx == 2 && (p.dials.sub || p.dials.split) then 2 else 1
    case SetRit(on) => on == p.offsets.ritOn
    case RitOffset(hz) => Limited(hz) == p.offsets.rit
    case SetXit(on) => on == p.offsets.xitOn
    case XitOffset(hz) => Limited(hz) == p.offsets.xit
    case CtuneCentre(hz) => hz == p.radio.centre
    case SetCtune(on) => on == (p.radio.centre != 0)
    case DisplaySpan(span) => p.radio.centre == 0 && p.view.span == (if span < 0.0 then 0.0 else span)
    case FilterEdges(lo, hi) => p.radio.centre == 0 && p.view.filtLo == lo && p.view.filtHi == hi
  }

  /** Then nothing is written, not even again, whether plan and radio agree or not. */
  lemma NoNewsNoWrite(p: Plan, op: Op)
    requires NoNews(p, op)
    ensures Apply(p, op) == p
  {
    hide Centre, Stored, U32, I32, Received, Transmitted, SecondReceiver;
  }

  /** The transmit offset moves only the transmitter, and only while it is on; the receive offset never moves it; the view nothing without click-tune. */
  lemma SidesApart(p: Plan, op: Op)
    ensures var r, t := p.radio, Apply(p, op).radio;
            && (op.SetXit? || op.XitOffset? ==> t == r.(tx := t.tx))
            && (op.XitOffset? && !p.offsets.xitOn ==> t == r)
            && (op.SetRit? || op.RitOffset? || op.SetSub? || op.CtuneCentre? || op.SetCtune? ==> t.tx == r.tx)
            && (op.RitOffset? && !p.offsets.ritOn ==> t == r)
            && (op.TuneA? && p.dials.split ==> t.tx == r.tx)
            && (op.TuneB? && !p.dials.split ==> t == r)
            && (op.TuneRx2? && !p.dials.sub ==> t == r)
            && ((op.DisplaySpan? || op.FilterEdges?) ==> t.tx == r.tx && (p.radio.centre == 0 ==> t == r))
            && (op.Focus? ==> t == r)
  {
    hide Centre, Stored, U32, I32, Received, Transmitted;
  }

  /** The restored plan is the stored one, but for the tie of SUB and SPLIT, and a focus on B only under SUB. */
  lemma ComesUpAsStored(stored: Dials, o: Offsets, v: View)
    ensures var p := ComeUp(stored, o, v);
            && p.offsets == o && p.view == v && p.radio.centre == 0 && p.radio.shift == 0
            && p.dials.a == stored.a && p.dials.b == stored.b && p.dials.split == stored.split && p.dials.sub == stored.sub
            && (stored.sub && stored.split ==> p.dials.rx2 == stored.b)
            && (!(stored.sub && stored.split) ==> p.dials.rx2 == stored.rx2)
            && p.dials.focused in {1, 2} && (p.dials.focused == 2 <==> stored.sub && stored.focused >= 2)
  {
    hide I32;
  }

  // ---- The locked centre ----

  /** The passband at a position is on screen within the margins, and centred or captured. */
  ghost predicate Comfortable(cen: int, eff: int, v: View) {
    var p := (eff - cen) as real;
    CanFit(v) && Modest(v) && InView(p, v) && (p == 0.0 || Captured(p, v))
  }

  /** Engaging click-tune where the passband is comfortable locks the radio exactly there. */
  lemma EngagesWhereAsked(p: Plan, hz: int)
    requires Coherent(p) && 0 < hz < WORD && hz != p.radio.centre && Comfortable(hz, Received(p.dials, p.offsets), p.view)
    ensures var r := Apply(p, CtuneCentre(hz)).radio;
            r.centre == hz && r.ddc0 == I32(hz) && r.shift == Received(p.dials, p.offsets) - hz
  {
    StaysIff(hz, Received(p.dials, p.offsets), p.view);
    Fits(hz);
    hide Centre, CanFit, Modest, InView, Captured, U32, I32, Stored;
  }

  lemma Fits(hz: int)
    requires 0 <= hz < WORD
    ensures Stored(hz) == hz
  {
  }

  /** Switched on it locks on the dial itself, if that is comfortable with RIT in force. */
  lemma SwitchesOnAtTheDial(p: Plan)
    requires Coherent(p) && p.radio.centre == 0 && 0 < p.dials.a
    requires Comfortable(p.dials.a, Received(p.dials, p.offsets), p.view)
    ensures Apply(p, SetCtune(true)).radio.centre == p.dials.a
  {
    EngagesWhereAsked(p, p.dials.a);
    hide Comfortable, Coherent, ApplyCentre;
  }

  /** Released, by the switch or with a centre of nought, the radio is back on dial plus RIT without a shift. */
  lemma ReleasesToTheDial(p: Plan)
    requires Coherent(p) && p.radio.centre != 0
    ensures Apply(p, SetCtune(false)) == Apply(p, CtuneCentre(0))
    ensures var r := Apply(p, CtuneCentre(0)).radio;
            r.centre == 0 && r.shift == 0 && r.ddc0 == I32(Received(p.dials, p.offsets))
  {
    hide Centre, U32, I32, Stored;
  }

  /** No setter touches click-tune itself, and after each the passband is comfortable around the centre. */
  ghost predicate StaysComfortable(p: Plan, ops: seq<Op>)
    decreases |ops|
  {
    ops == [] || (&& StaysComfortable(p, ops[..|ops| - 1])
                  && !TouchesCtune(ops[|ops| - 1])
                  && (var q := Run(p, ops); Comfortable(p.radio.centre, Received(q.dials, q.offsets), q.view)))
  }

  /** The point of click-tune: whatever is tuned meanwhile, the radio's centre does not move. */
  lemma {:induction false} LockedCentreStands(p: Plan, ops: seq<Op>)
    requires Coherent(p) && AllWellformed(ops) && p.radio.centre != 0 && StaysComfortable(p, ops)
    ensures var q := Run(p, ops);
            && q.radio.centre == p.radio.centre && q.radio.ddc0 == p.radio.ddc0
            && q.radio.shift == Received(q.dials, q.offsets) - p.radio.centre
    decreases |ops|
  {
    RunCoheres(p, ops);
    if ops != [] {
      var front, op := ops[..|ops| - 1], ops[|ops| - 1];
      var before, q := Run(p, front), Run(p, ops);
      LockedCentreStands(p, front);
      RunCoheres(p, front);
      assert q == Apply(before, op);
      hide Run, Comfortable, Apply;
      CentreStands(before, op);
    }
    hide Apply, Run;
    RadioTold(Run(p, ops), p);
  }

  lemma RadioTold(q: Plan, p: Plan)
    requires Coherent(q) && Coherent(p) && q.radio.centre == p.radio.centre != 0
    ensures q.radio.ddc0 == p.radio.ddc0 && q.radio.shift == Received(q.dials, q.offsets) - p.radio.centre
  {
  }

  lemma CentreStands(p: Plan, op: Op)
    requires Coherent(p) && Wellformed(op) && p.radio.centre != 0 && !TouchesCtune(op)
    requires var q := Apply(p, op); Comfortable(p.radio.centre, Received(q.dials, q.offsets), q.view)
    ensures Apply(p, op).radio.centre == p.radio.centre
  {
    var q := Apply(p, op);
    StaysIff(p.radio.centre, Received(q.dials, q.offsets), q.view);
    Fits(p.radio.centre);
    hide Centre, Comfortable, U32, I32, Stored, Received;
    assert Comfortable(p.radio.centre, Received(q.dials, q.offsets), q.view);
  }
}
