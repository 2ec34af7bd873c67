/** Per-band memory: a page of settings for every band, kept live while the band is tuned. */
module BandMemory {
  import opened Basics

  /** The band tables: a band's name for a frequency, empty outside all bands, and its usual mode. */
  datatype Tables = Tables(nameFor: int -> string, modeFor: string -> string)

  datatype Pair = Pair(lo: real, hi: real)

  /** The settings a band remembers; the panadapter and the waterfall each have a second pair for transmit. */
  datatype Live = Live(
    mode: string,
    rxDb: Pair,
    txDb: Pair,
    rxWf: Pair,
    txWf: Pair,
    keyed: bool,
    lna: int,
    drive: int,
    tune: int)

  datatype Look = Look(mode: string, db: Pair, wf: Pair)

  datatype Page = Page(
    freq: Option<int>,
    lna: Option<int>,
    drive: Option<int>,
    tune: Option<int>,
    look: Option<Look>,
    freqRx2: Option<int>,
    modeRx2: Option<string>)

  const Blank := Page(None, None, None, None, None, None, None)

  type Book = map<string, Page>

  datatype Rig = Rig(hz: int, band: string, live: Live, book: Book, rx2: Second, maxRaw: int)

  /** The second receiver's side. */
  datatype Second = Second(hz: int, band: string, mode: string)

  function PageOf(book: Book, band: string): Page {
    if band in book then book[band] else Blank
  }

  function Gain(db: int): int {
    Clamp(db, -12, 48)
  }

  function Driven(maxRaw: int, level: int): int {
    var c := Clamp(level, 0, 255);
    if c > maxRaw then maxRaw else c
  }

  function Percent(v: int): int {
    Clamp(v, 0, 100)
  }

  /** The waterfall pair in force, which is the one a save reads and a recall writes. */
  function Waterfall(l: Live): Pair {
    if l.keyed then l.txWf else l.rxWf
  }

  function WithWaterfall(l: Live, wf: Pair): Live {
    if l.keyed then l.(txWf := wf) else l.(rxWf := wf)
  }

  predicate Sideband(mode: string) {
    mode == "USB" || mode == "LSB"
  }

  /** A stored sideband follows the band's own convention. */
  function Conventional(t: Tables, band: string, mode: string): string {
    if Sideband(mode) && Sideband(t.modeFor(band)) then t.modeFor(band) else mode
  }

  function Changed(mode: string, wanted: string): string {
    if wanted == "" then mode else wanted
  }

  function Write(book: Book, band: string, page: Page): Book {
    book[band := page]
  }

  /** Saves the look of the current band. */
  function Save(r: Rig): Rig {
    if r.band == "" then r
    else
      var look := Look(r.live.mode, r.live.rxDb, Waterfall(r.live));
      r.(book := Write(r.book, r.band, PageOf(r.book, r.band).(look := Some(look))))
  }

  function SaveIf(changed: bool, r: Rig): Rig {
    if changed then Save(r) else r
  }

  /** What entering a band does to the live settings. */
  function Recalled(t: Tables, maxRaw: int, band: string, p: Page, l: Live): Live {
    var gained := l.(lna := if p.lna.Some? then Gain(p.lna.value) else l.lna,
                     drive := Driven(maxRaw, if p.drive.Some? then p.drive.value else 0),
                     tune := Percent(if p.tune.Some? then p.tune.value else l.tune));
    match p.look
    case None => gained.(mode := Changed(l.mode, t.modeFor(band)))
    case Some(k) =>
      WithWaterfall(gained.(mode := Changed(l.mode, Conventional(t, band, k.mode)), rxDb := k.db), k.wf)
  }

  datatype Event =
    | Tune(hz: int)
    | SetMode(mode: string)
    | DragDb(range: Pair)
    | DragWaterfall(range: Pair)
    | SetTune(pct: int)
    | SetDrive(raw: int)
    | Fold(raw: int)           // a protection fold or its restore, without the operator
    | SetLna(db: int)
    | AutoLna(db: int)         // a step of the automatic gain, without the operator
    | Key(on: bool)
    | TuneRx2(hz: int)
    | SetModeRx2(mode: string)
    | RecallRx2(band: string)

  function ApplyTune(t: Tables, r: Rig, hz: int): Rig {
    if hz == r.hz then r
    else
      var name := t.nameFor(hz);
      var live := if name != r.band && name != "" then Recalled(t, r.maxRaw, name, PageOf(r.book, name), r.live) else r.live;
      var book := if name != "" then Write(r.book, name, PageOf(r.book, name).(freq := Some(hz))) else r.book;
      Rig(hz, name, live, book, r.rx2, r.maxRaw)
  }

  function ApplyDrive(r: Rig, raw: int): Rig {
    var level := Driven(r.maxRaw, raw);
    if level == r.live.drive then r
    else
      var s := r.(live := r.live.(drive := level));
      if r.band == "" then s
      else s.(book := Write(r.book, r.band, PageOf(r.book, r.band).(drive := Some(level))))
  }

  /** The gain setter signals alike for the operator and for the automatic loop. */
  function ApplyGain(r: Rig, db: int): Rig {
    if Gain(db) == r.live.lna then r
    else
      var s := r.(live := r.live.(lna := Gain(db)));
      if r.band == "" then s
      else s.(book := Write(r.book, r.band, PageOf(r.book, r.band).(lna := Some(Gain(db)))))
  }

  function Apply(t: Tables, r: Rig, e: Event): Rig {
    match e
    case Tune(hz) => ApplyTune(t, r, hz)
    case SetMode(m) =>
      if m == "" || m == r.live.mode then r else Save(r.(live := r.live.(mode := m)))
    case DragDb(range) =>
      if r.live.keyed then SaveIf(range != r.live.txDb, r.(live := r.live.(txDb := range)))
      else SaveIf(range != r.live.rxDb, r.(live := r.live.(rxDb := range)))
    case DragWaterfall(range) =>
      SaveIf(range != Waterfall(r.live), r.(live := WithWaterfall(r.live, range)))
    case SetTune(pct) =>
      if Percent(pct) == r.live.tune then r
      else
        var s := r.(live := r.live.(tune := Percent(pct)));
        if r.band == "" then s
        else s.(book := Write(r.book, r.band, PageOf(r.book, r.band).(tune := Some(Percent(pct)))))
    case SetDrive(raw) => ApplyDrive(r, raw)
    case Fold(raw) => ApplyDrive(r, raw)
    case SetLna(db) => ApplyGain(r, db)
    case AutoLna(db) => ApplyGain(r, db)
    case Key(on) => SaveIf(on != r.live.keyed, r.(live := r.live.(keyed := on)))
    case TuneRx2(hz) =>
      if hz == r.rx2.hz then r
      else
        var name := t.nameFor(hz);
        var s := r.(rx2 := r.rx2.(hz := hz, band := name));
        if name == "" then s
        else s.(book := Write(r.book, name, PageOf(r.book, name).(freqRx2 := Some(hz))))
    case SetModeRx2(m) =>
      if m == "" || m == r.rx2.mode then r
      else
        var s := r.(rx2 := r.rx2.(mode := m));
        if r.rx2.band == "" then s
        else s.(book := Write(r.book, r.rx2.band, PageOf(r.book, r.rx2.band).(modeRx2 := Some(m))))
    case RecallRx2(band) =>
      if band == "" then r
      else
        var stored := PageOf(r.book, band).modeRx2;
        var wanted := if stored.Some? && stored.value != "" then stored.value else t.modeFor(band);
        r.(rx2 := r.rx2.(mode := Changed(r.rx2.mode, Conventional(t, band, wanted))))
  }

  function Run(t: Tables, r: Rig, es: seq<Event>): Rig
    decreases |es|
  {
    if es == [] then r else Apply(t, Run(t, r, es[..|es| - 1]), es[|es| - 1])
  }

  // ---- The book ----

  /** The first receiver's part of a page. */
  function Rx1Part(p: Page): Page {
    p.(freqRx2 := None, modeRx2 := None)
  }

  /** A step writes at most the first receiver's page of the band it ends up on; a recall only its frequency. */
  lemma OnlyCurrentBand(t: Tables, r: Rig, e: Event, band: string)
    ensures var s := Apply(t, r, e);
            && (band != s.band ==> Rx1Part(PageOf(s.book, band)) == Rx1Part(PageOf(r.book, band)))
            && (e.Tune? ==> PageOf(s.book, band).(freq := None) == PageOf(r.book, band).(freq := None))
            && (e.Tune? && s.band != r.band && s.band != "" ==> PageOf(s.book, s.band).freq == Some(s.hz))
            && s.maxRaw == r.maxRaw
  {
    hide Recalled, Conventional, Waterfall;
  }

  /** Over any run that is never on a band, the first receiver's page of that band stays as it was. */
  lemma {:induction false} AwayKeepsThePage(t: Tables, r: Rig, es: seq<Event>, band: string)
    requires forall k :: 1 <= k <= |es| ==> Run(t, r, es[..k]).band != band
    ensures var s := Run(t, r, es); Rx1Part(PageOf(s.book, band)) == Rx1Part(PageOf(r.book, band)) && s.maxRaw == r.maxRaw
    decreases |es|
  {
    if es != [] {
      var front := es[..|es| - 1];
      assert forall k :: 1 <= k <= |front| ==> front[..k] == es[..k];
      AwayKeepsThePage(t, r, front, band);
      assert es[..|es|] == es;
      hide Apply, PageOf;
      OnlyCurrentBand(t, Run(t, r, front), es[|es| - 1], band);
    }
  }

  /** The second receiver's part of a page. */
  function Rx2Part(p: Page): Page {
    Page(None, None, None, None, None, p.freqRx2, p.modeRx2)
  }

  predicate SecondReceiver(e: Event) {
    e.TuneRx2? || e.SetModeRx2? || e.RecallRx2?
  }

  /** The two receivers share the book and nothing else: neither touches the other's part of any page. */
  lemma ReceiversApart(t: Tables, r: Rig, e: Event, band: string)
    ensures var s := Apply(t, r, e);
            if SecondReceiver(e)
            then s.live == r.live && s.hz == r.hz && s.band == r.band && Rx1Part(PageOf(s.book, band)) == Rx1Part(PageOf(r.book, band))
            else s.rx2 == r.rx2 && Rx2Part(PageOf(s.book, band)) == Rx2Part(PageOf(r.book, band))
  {
    hide Recalled, Conventional, Waterfall, WithWaterfall, Driven, Gain, Percent;
  }

  ghost predicate WithoutSecond(es: seq<Event>) {
    forall i :: 0 <= i < |es| ==> !SecondReceiver(es[i])
  }

  lemma {:induction false} SecondUntouched(t: Tables, r: Rig, es: seq<Event>, band: string)
    requires WithoutSecond(es)
    ensures var s := Run(t, r, es); s.rx2 == r.rx2 && Rx2Part(PageOf(s.book, band)) == Rx2Part(PageOf(r.book, band))
    decreases |es|
  {
    hide Apply, PageOf, SecondReceiver, Rx2Part;
    if es != [] {
      SecondUntouched(t, r, es[..|es| - 1], band);
      ReceiversApart(t, Run(t, r, es[..|es| - 1]), es[|es| - 1], band);
    }
  }

  /** A mode set on the second receiver is what a recall of its band brings back, by the band's sideband. */
  lemma SecondModeRecalled(t: Tables, r: Rig, mode: string, es: seq<Event>)
    requires r.rx2.band != "" && mode != "" && mode != r.rx2.mode && WithoutSecond(es)
    ensures var band, s := r.rx2.band, Run(t, Apply(t, r, SetModeRx2(mode)), es);
            Conventional(t, band, mode) != "" ==> Apply(t, s, RecallRx2(band)).rx2.mode == Conventional(t, band, mode)
  {
    hide Run, Conventional;
    var q := Apply(t, r, SetModeRx2(mode));
    SecondUntouched(t, q, es, r.rx2.band);
    var s := Run(t, q, es);
    assert Rx2Part(PageOf(s.book, r.rx2.band)).modeRx2 == PageOf(s.book, r.rx2.band).modeRx2;
    assert Rx2Part(PageOf(q.book, r.rx2.band)).modeRx2 == PageOf(q.book, r.rx2.band).modeRx2 == Some(mode);
  }

  // ---- The current page mirrors the live settings ----

  ghost predicate Mirrors(t: Tables, r: Rig) {
    && r.band == t.nameFor(r.hz)
    && (r.band != "" ==> Mirrored(t, r))
  }

  ghost predicate Mirrored(t: Tables, r: Rig) {
    var p := PageOf(r.book, r.band);
    && r.live.drive == Driven(r.maxRaw, if p.drive.Some? then p.drive.value else 0)
    && (p.lna.Some? ==> r.live.lna == Gain(p.lna.value))
    && (p.tune.Some? ==> r.live.tune == Percent(p.tune.value))
    && (p.look.Some? ==> LooksLike(t, r.band, p.look.value, r.live))
  }

  ghost predicate LooksLike(t: Tables, band: string, k: Look, l: Live) {
    && l.rxDb == k.db && Waterfall(l) == k.wf && k.mode != "" && l.mode != ""
    && Conventional(t, band, l.mode) == Conventional(t, band, k.mode)
  }

  /** No page was ever stored with an empty mode, and the live mode is not empty. */
  ghost predicate Named(r: Rig) {
    && r.live.mode != ""
    && forall band | band in r.book :: r.book[band].look.Some? ==> r.book[band].look.value.mode != ""
  }

  lemma SaveMirrors(t: Tables, r: Rig)
    requires r.live.mode != "" && r.band == t.nameFor(r.hz)
    requires r.band != "" ==>
      var p := PageOf(r.book, r.band);
      && r.live.drive == Driven(r.maxRaw, if p.drive.Some? then p.drive.value else 0)
      && (p.lna.Some? ==> r.live.lna == Gain(p.lna.value))
      && (p.tune.Some? ==> r.live.tune == Percent(p.tune.value))
    ensures Mirrors(t, Save(r))
  {
    hide Driven, Gain, Percent, Conventional, Waterfall;
  }

  lemma RecallMirrors(t: Tables, r: Rig, hz: int)
    requires Mirrors(t, r) && Named(r)
    ensures Mirrors(t, ApplyTune(t, r, hz))
  {
    hide Driven, Gain;
  }

  lemma SettingMirrors(t: Tables, r: Rig, e: Event)
    requires Mirrors(t, r) && (e.SetTune? || e.SetDrive? || e.Fold? || e.SetLna? || e.AutoLna?)
    ensures Mirrors(t, Apply(t, r, e))
  {
    hide Conventional;
  }

  lemma SecondMirrors(t: Tables, r: Rig, e: Event)
    requires Mirrors(t, r) && (e.TuneRx2? || e.SetModeRx2? || e.RecallRx2?)
    ensures Mirrors(t, Apply(t, r, e))
  {
    hide Driven, Gain, Percent, Conventional, LooksLike;
  }

  lemma StepNamed(t: Tables, r: Rig, e: Event)
    requires Named(r)
    ensures Named(Apply(t, r, e))
  {
    hide Driven, Gain, Percent;
  }

  /** Every event keeps the current band's page and the live settings in step. */
  lemma StepMirrors(t: Tables, r: Rig, e: Event)
    requires Mirrors(t, r) && Named(r)
    ensures Mirrors(t, Apply(t, r, e)) && Named(Apply(t, r, e))
  {
    StepNamed(t, r, e);
    match e {
      case Tune(hz) => RecallMirrors(t, r, hz);
      case SetMode(m) =>
        if m != "" { SaveMirrors(t, r.(live := r.live.(mode := m))); }
        hide Save, Mirrors;
      case DragDb(range) =>
        SaveMirrors(t, r.(live := r.live.(rxDb := range)));
        SaveMirrors(t, r.(live := r.live.(txDb := range)));
        hide Save, Mirrors;
      case DragWaterfall(range) =>
        SaveMirrors(t, r.(live := WithWaterfall(r.live, range)));
        hide Save, Mirrors;
      case Key(on) =>
        SaveMirrors(t, r.(live := r.live.(keyed := on)));
        hide Save, Mirrors;
      case _ =>
        if e.SetTune? || e.SetDrive? || e.Fold? || e.SetLna? || e.AutoLna? {
          SettingMirrors(t, r, e);
        } else {
          SecondMirrors(t, r, e);
        }
        hide Apply;
    }
  }

  lemma {:induction false} RunMirrors(t: Tables, r: Rig, es: seq<Event>)
    requires Mirrors(t, r) && Named(r)
    ensures Mirrors(t, Run(t, r, es)) && Named(Run(t, r, es))
    decreases |es|
  {
    if es != [] {
      RunMirrors(t, r, es[..|es| - 1]);
      hide Apply, Mirrors, Named;
      StepMirrors(t, Run(t, r, es[..|es| - 1]), es[|es| - 1]);
    }
  }

  /** Start-up recalls the band of the restored frequency, and the page mirrors from there. */
  function ComeUp(t: Tables, hz: int, live: Live, book: Book, rx2: Second, maxRaw: int): Rig {
    var name := t.nameFor(hz);
    Rig(hz, name, if name == "" then live else Recalled(t, maxRaw, name, PageOf(book, name), live), book, rx2, maxRaw)
  }

  lemma ComeUpMirrors(t: Tables, hz: int, live: Live, book: Book, rx2: Second, maxRaw: int)
    requires live.mode != "" && forall band | band in book :: book[band].look.Some? ==> book[band].look.value.mode != ""
    ensures var r := ComeUp(t, hz, live, book, rx2, maxRaw); Mirrors(t, r) && Named(r) && r.book == book
  {
    hide Driven, Gain;
  }

  // ---- Coming back to a band ----

  /** Leaving a band, any events elsewhere, and tuning back into it. */
  ghost predicate Excursion(t: Tables, r: Rig, out: int, es: seq<Event>, back: int) {
    && r.band != "" && t.nameFor(out) != r.band && t.nameFor(back) == r.band
    && forall k :: 0 <= k <= |es| ==> Run(t, ApplyTune(t, r, out), es[..k]).band != r.band
  }

  function After(t: Tables, r: Rig, out: int, es: seq<Event>, back: int): Rig {
    ApplyTune(t, Run(t, ApplyTune(t, r, out), es), back)
  }

  /** What the band's page holds for the first receiver is untouched by the excursion. */
  lemma ExcursionKeepsThePage(t: Tables, r: Rig, out: int, es: seq<Event>, back: int)
    requires Mirrors(t, r) && Named(r) && Excursion(t, r, out, es, back)
    ensures var v := Run(t, ApplyTune(t, r, out), es);
            && Mirrors(t, v) && Named(v) && v.maxRaw == r.maxRaw && v.band != r.band && v.hz != back
            && Rx1Part(PageOf(v.book, r.band)) == Rx1Part(PageOf(r.book, r.band))
  {
    hide ApplyTune, PageOf, Named, Rx1Part;
    assert Apply(t, r, Tune(out)) == ApplyTune(t, r, out);
    StepMirrors(t, r, Tune(out));
    RunMirrors(t, ApplyTune(t, r, out), es);
    assert es[..|es|] == es && es[..0] == [];
    OnlyCurrentBand(t, r, Tune(out), r.band);
    AwayKeepsThePage(t, ApplyTune(t, r, out), es, r.band);
  }

  /**
   * Coming back reproduces what the band was left with: the drive (nought if it never had one), the
   * gain and the tune drive if ever set there, and the mode by the band's own sideband, the
   * panadapter range and the waterfall range in force, if any of them was ever saved.
   */
  lemma ComesBackAsLeft(t: Tables, r: Rig, out: int, es: seq<Event>, back: int)
    requires Mirrors(t, r) && Named(r) && Excursion(t, r, out, es, back)
    ensures var w, p := After(t, r, out, es, back), PageOf(r.book, r.band);
            && w.band == r.band
            && w.live.drive == r.live.drive
            && (p.drive.None? ==> w.live.drive == Driven(r.maxRaw, 0))
            && (p.lna.Some? ==> w.live.lna == r.live.lna)
            && (p.tune.Some? ==> w.live.tune == r.live.tune)
            && (p.look.Some? ==>
                  && w.live.mode == Conventional(t, r.band, r.live.mode)
                  && w.live.rxDb == r.live.rxDb && Waterfall(w.live) == Waterfall(r.live))
            && (p.look.None? && t.modeFor(r.band) != "" ==> w.live.mode == t.modeFor(r.band))
  {
    ExcursionKeepsThePage(t, r, out, es, back);
    var v := Run(t, ApplyTune(t, r, out), es);
    SamePage(PageOf(v.book, r.band), PageOf(r.book, r.band));
    hide Run, Excursion, PageOf, Driven, Gain, Percent;
  }

  lemma SamePage(p: Page, q: Page)
    requires Rx1Part(p) == Rx1Part(q)
    ensures p.freq == q.freq && p.lna == q.lna && p.drive == q.drive && p.tune == q.tune && p.look == q.look
  {
    assert p.freq == Rx1Part(p).freq && p.lna == Rx1Part(p).lna && p.drive == Rx1Part(p).drive;
    assert p.tune == Rx1Part(p).tune && p.look == Rx1Part(p).look;
    assert q.freq == Rx1Part(q).freq && q.lna == Rx1Part(q).lna && q.drive == Rx1Part(q).drive;
    assert q.tune == Rx1Part(q).tune && q.look == Rx1Part(q).look;
  }

  // ---- Changes the operator did not make ----

  /** Events that end on the same band, without a recall on the way. */
  ghost predicate Stays(t: Tables, r: Rig, es: seq<Event>)
    decreases |es|
  {
    r.band != "" && (es == [] || (Stays(t, r, es[..|es| - 1]) && Run(t, r, es).band == r.band))
  }

  predicate MovesDrive(e: Event) {
    e.SetDrive? || e.Fold?
  }

  predicate MovesGain(e: Event) {
    e.SetLna? || e.AutoLna?
  }

  /** What one event that stays on the band does to the drive, the gain and the gain's place on the page. */
  lemma StayStep(t: Tables, r: Rig, e: Event)
    requires r.band != "" && Apply(t, r, e).band == r.band
    ensures var s := Apply(t, r, e);
            && s.maxRaw == r.maxRaw
            && s.live.drive == (if MovesDrive(e) then Driven(r.maxRaw, e.raw) else r.live.drive)
            && s.live.lna == (if MovesGain(e) then Gain(e.db) else r.live.lna)
            && PageOf(s.book, s.band).lna
               == (if MovesGain(e) && Gain(e.db) != r.live.lna then Some(Gain(e.db)) else PageOf(r.book, r.band).lna)
  {
    hide Recalled, Waterfall, Driven, Gain, Percent, Conventional, Changed;
  }

  /** The drive the operator last asked for, and the last fold since. */
  function OperatorDrive(maxRaw: int, drive: int, es: seq<Event>): int
    decreases |es|
  {
    if es == [] then drive
    else if es[|es| - 1].SetDrive? then Driven(maxRaw, es[|es| - 1].raw)
    else OperatorDrive(maxRaw, drive, es[..|es| - 1])
  }

  function LastFold(es: seq<Event>): Option<int>
    decreases |es|
  {
    if es == [] || es[|es| - 1].SetDrive? then None
    else if es[|es| - 1].Fold? then Some(es[|es| - 1].raw)
    else LastFold(es[..|es| - 1])
  }

  /** The gain the operator last asked for, and the last step of the automatic loop since. */
  function OperatorGain(gain: int, es: seq<Event>): int
    decreases |es|
  {
    if es == [] then gain
    else if es[|es| - 1].SetLna? then Gain(es[|es| - 1].db)
    else OperatorGain(gain, es[..|es| - 1])
  }

  function LastAuto(es: seq<Event>): Option<int>
    decreases |es|
  {
    if es == [] || es[|es| - 1].SetLna? then None
    else if es[|es| - 1].AutoLna? then Some(es[|es| - 1].db)
    else LastAuto(es[..|es| - 1])
  }

  /** Some request, by whomever, asked for another gain than the one there was. */
  predicate GainMoved(gain: int, es: seq<Event>)
    decreases |es|
  {
    es != [] && (GainMoved(gain, es[..|es| - 1])
                 || (MovesGain(es[|es| - 1]) && Gain(es[|es| - 1].db) != GainAfter(gain, es[..|es| - 1])))
  }

  function GainAfter(gain: int, es: seq<Event>): int {
    if LastAuto(es).Some? then Gain(LastAuto(es).value) else OperatorGain(gain, es)
  }

  function DriveAfter(maxRaw: int, drive: int, es: seq<Event>): int {
    if LastFold(es).Some? then Driven(maxRaw, LastFold(es).value) else OperatorDrive(maxRaw, drive, es)
  }

  /** Over any events on one band: drive, gain, and the gain stored for the band. */
  lemma {:induction false} StayRun(t: Tables, r: Rig, es: seq<Event>)
    requires Stays(t, r, es)
    ensures var s := Run(t, r, es);
            && s.band == r.band && s.maxRaw == r.maxRaw
            && s.live.drive == DriveAfter(r.maxRaw, r.live.drive, es)
            && s.live.lna == GainAfter(r.live.lna, es)
            && PageOf(s.book, s.band).lna
               == (if GainMoved(r.live.lna, es) then Some(GainAfter(r.live.lna, es)) else PageOf(r.book, r.band).lna)
    decreases |es|
  {
    hide Apply, PageOf, Driven, Gain;
    if es != [] {
      var front := es[..|es| - 1];
      StayRun(t, r, front);
      StayStep(t, Run(t, r, front), es[|es| - 1]);
    }
  }

  /**
   * A protection fold is saved like the operator's own drive. If the band is left, whatever was done
   * there before, the drive the operator last asked for comes back exactly when no fold came since
   * or the last one left that very drive.
   */
  lemma FoldIsRemembered(t: Tables, r: Rig, on: seq<Event>, out: int, es: seq<Event>, back: int)
    requires Mirrors(t, r) && Named(r) && Stays(t, r, on) && Excursion(t, Run(t, r, on), out, es, back)
    ensures var wanted, fold := OperatorDrive(r.maxRaw, r.live.drive, on), LastFold(on);
            After(t, Run(t, r, on), out, es, back).live.drive == wanted
            <==> fold.None? || Driven(r.maxRaw, fold.value) == wanted
  {
    hide Mirrors, Named, Stays, Excursion, After, Driven, Gain, PageOf, LastFold, OperatorDrive, GainMoved, GainAfter;
    RunMirrors(t, r, on);
    StayRun(t, r, on);
    ComesBackAsLeft(t, Run(t, r, on), out, es, back);
  }

  /**
   * A step of the automatic gain is stored for the band like the operator's own set point: the
   * stored gain is untouched exactly outside the bands, or when the step changes nothing.
   */
  lemma AutoGainStoredIff(t: Tables, r: Rig, db: int)
    requires Mirrors(t, r)
    ensures PageOf(Apply(t, r, AutoLna(db)).book, r.band).lna == PageOf(r.book, r.band).lna
            <==> r.band == "" || Gain(db) == r.live.lna
  {
    hide LooksLike, Driven, Percent;
  }

  predicate OnlyAuto(es: seq<Event>) {
    forall i :: 0 <= i < |es| ==> es[i].AutoLna?
  }

  /** The automatic loop alone never leaves the band. */
  lemma {:induction false} AutoStays(t: Tables, r: Rig, es: seq<Event>)
    requires r.band != "" && OnlyAuto(es)
    ensures Stays(t, r, es)
    decreases |es|
  {
    if es != [] {
      hide PageOf, Gain;
      var front, e := es[..|es| - 1], es[|es| - 1];
      AutoStays(t, r, front);
      assert e.AutoLna?;
      assert Run(t, r, es) == ApplyGain(Run(t, r, front), e.db);
      assert front == [] || Run(t, r, front).band == r.band;
    }
  }

  /**
   * Over any steps of the automatic loop: the gain stored for the band is still the one from before
   * exactly when no step changed anything or the last one was back at it.
   */
  lemma AutoRunStoredIff(t: Tables, r: Rig, es: seq<Event>)
    requires r.band != "" && OnlyAuto(es) && es != []
    ensures PageOf(Run(t, r, es).book, r.band).lna == PageOf(r.book, r.band).lna
            <==> !GainMoved(r.live.lna, es) || PageOf(r.book, r.band).lna == Some(Gain(es[|es| - 1].db))
  {
    hide PageOf, Gain, GainMoved, Stays, Run;
    AutoStays(t, r, es);
    StayRun(t, r, es);
    assert es[|es| - 1].AutoLna?;
  }

  /**
   * Whatever was done on a band, by hand and by the loop, and whatever elsewhere after that: a band
   * with a gain to its name comes back with the gain the operator last asked for exactly when the
   * loop took no step since, or its last step was back there. A band without one comes back with
   * the gain of the band before.
   */
  lemma AutoGainRemembered(t: Tables, r: Rig, on: seq<Event>, out: int, es: seq<Event>, back: int)
    requires Mirrors(t, r) && Named(r) && Stays(t, r, on) && Excursion(t, Run(t, r, on), out, es, back)
    ensures var wanted, auto, w := OperatorGain(r.live.lna, on), LastAuto(on), After(t, Run(t, r, on), out, es, back);
            if PageOf(r.book, r.band).lna.Some? || GainMoved(r.live.lna, on)
            then w.live.lna == wanted <==> auto.None? || Gain(auto.value) == wanted
            else w.live.lna == Run(t, ApplyTune(t, Run(t, r, on), out), es).live.lna
  {
    hide Mirrors, Named, Stays, Excursion, Driven, Gain, PageOf, LastAuto, OperatorGain, GainMoved, DriveAfter, Run;
    RunMirrors(t, r, on);
    StayRun(t, r, on);
    ComesBackAsLeft(t, Run(t, r, on), out, es, back);
    if PageOf(r.book, r.band).lna.None? && !GainMoved(r.live.lna, on) {
      ComesBackUnset(t, Run(t, r, on), out, es, back);
    }
  }

  /** A band that never had a gain leaves the gain alone on coming back. */
  lemma ComesBackUnset(t: Tables, r: Rig, out: int, es: seq<Event>, back: int)
    requires Mirrors(t, r) && Named(r) && Excursion(t, r, out, es, back) && PageOf(r.book, r.band).lna.None?
    ensures After(t, r, out, es, back).live.lna == Run(t, ApplyTune(t, r, out), es).live.lna
  {
    ExcursionKeepsThePage(t, r, out, es, back);
    var v := Run(t, ApplyTune(t, r, out), es);
    SamePage(PageOf(v.book, r.band), PageOf(r.book, r.band));
    hide Run, Excursion, PageOf, Driven, Gain, Percent, Mirrors, Named;
    assert After(t, r, out, es, back) == ApplyTune(t, v, back);
  }

  // ---- Keyed across a band edge ----

  /**
   * Keying saves the transmit waterfall range as the band's own. Leaving the band keyed and coming
   * back unkeyed puts it in place of the receive range, unless the two are the same; the panadapter
   * range does not suffer so.
   */
  lemma LeftKeyedIff(t: Tables, r: Rig, out: int, es: seq<Event>, back: int)
    requires Mirrors(t, r) && Named(r) && Excursion(t, r, out, es, back)
    requires PageOf(r.book, r.band).look.Some? && !After(t, r, out, es, back).live.keyed
    ensures var w := After(t, r, out, es, back);
            && w.live.rxDb == r.live.rxDb
            && (w.live.rxWf == r.live.rxWf <==> !r.live.keyed || r.live.txWf == r.live.rxWf)
  {
    ComesBackAsLeft(t, r, out, es, back);
    hide After, Excursion, Mirrors;
  }

  /** Events on one band that leave the key as it is, and unkeyed also the waterfall range. */
  ghost predicate KeyHeld(t: Tables, r: Rig, es: seq<Event>)
    decreases |es|
  {
    es == [] || (&& KeyHeld(t, r, es[..|es| - 1])
                 && Run(t, r, es).live.keyed == r.live.keyed
                 && (es[|es| - 1].DragWaterfall? ==> r.live.keyed))
  }

  /** The receive pair stands, and what is stored is the pair in force. */
  lemma HeldStep(t: Tables, r: Rig, e: Event)
    requires r.band != "" && Apply(t, r, e).band == r.band && Apply(t, r, e).live.keyed == r.live.keyed
    requires PageOf(r.book, r.band).look.Some? && PageOf(r.book, r.band).look.value.wf == Waterfall(r.live)
    requires e.DragWaterfall? ==> r.live.keyed
    ensures var s := Apply(t, r, e);
            && s.live.rxWf == r.live.rxWf
            && PageOf(s.book, s.band).look.Some? && PageOf(s.book, s.band).look.value.wf == Waterfall(s.live)
  {
    hide Recalled, Driven, Gain, Percent, Conventional, Changed;
  }

  lemma {:induction false} HeldRun(t: Tables, r: Rig, es: seq<Event>)
    requires Stays(t, r, es) && KeyHeld(t, r, es)
    requires PageOf(r.book, r.band).look.Some? && PageOf(r.book, r.band).look.value.wf == Waterfall(r.live)
    ensures var s := Run(t, r, es);
            && s.live.rxWf == r.live.rxWf && s.live.keyed == r.live.keyed && s.band == r.band
            && PageOf(s.book, s.band).look.Some? && PageOf(s.book, s.band).look.value.wf == Waterfall(s.live)
    decreases |es|
  {
    hide Apply, PageOf, Waterfall;
    if es != [] {
      HeldRun(t, r, es[..|es| - 1]);
      HeldStep(t, Run(t, r, es[..|es| - 1]), es[|es| - 1]);
    }
  }

  /**
   * Entering a band keyed recalls its waterfall range into the transmit pair, and the next key-up,
   * whatever is done on the band before it, saves the receive pair, which is still the previous
   * band's. The band's own stored range survives exactly when it was not entered keyed or the two
   * ranges are the same.
   */
  lemma EnteredKeyedIff(t: Tables, r: Rig, hz: int, es: seq<Event>)
    requires t.nameFor(hz) != r.band && t.nameFor(hz) != "" && hz != r.hz
    requires PageOf(r.book, t.nameFor(hz)).look.Some?
    requires Stays(t, ApplyTune(t, r, hz), es) && KeyHeld(t, ApplyTune(t, r, hz), es)
    ensures var band, w := t.nameFor(hz), Apply(t, Run(t, ApplyTune(t, r, hz), es), Key(false));
            && w.band == band && PageOf(w.book, band).look.Some?
            && (PageOf(w.book, band).look.value.wf == PageOf(r.book, band).look.value.wf
                <==> !r.live.keyed || r.live.rxWf == PageOf(r.book, band).look.value.wf)
            && (r.live.keyed ==> PageOf(w.book, band).look.value.wf == r.live.rxWf)
  {
    Entered(t, r, hz);
    HeldRun(t, ApplyTune(t, r, hz), es);
    Released(t, Run(t, ApplyTune(t, r, hz), es));
    if !r.live.keyed {
      HeldUnkeyed(t, ApplyTune(t, r, hz), es);
    }
    hide Apply, ApplyTune, PageOf, Stays, KeyHeld, Run;
  }

  /** What entering a band makes of the ranges. */
  lemma Entered(t: Tables, r: Rig, hz: int)
    requires t.nameFor(hz) != r.band && t.nameFor(hz) != "" && hz != r.hz
    requires PageOf(r.book, t.nameFor(hz)).look.Some?
    ensures var s, k := ApplyTune(t, r, hz), PageOf(r.book, t.nameFor(hz)).look;
            && s.band == t.nameFor(hz) && PageOf(s.book, s.band).look == k && Waterfall(s.live) == k.value.wf
            && s.live.keyed == r.live.keyed && (r.live.keyed ==> s.live.rxWf == r.live.rxWf)
  {
    hide Driven, Gain, Percent, Conventional;
  }

  lemma Released(t: Tables, r: Rig)
    requires r.band != "" && PageOf(r.book, r.band).look.Some? && PageOf(r.book, r.band).look.value.wf == Waterfall(r.live)
    ensures var s := Apply(t, r, Key(false));
            s.band == r.band && PageOf(s.book, s.band).look.Some? && PageOf(s.book, s.band).look.value.wf == r.live.rxWf
  {
  }

  /** Unkeyed, the receive pair is the one in force. */
  lemma HeldUnkeyed(t: Tables, r: Rig, es: seq<Event>)
    requires Stays(t, r, es) && KeyHeld(t, r, es) && !r.live.keyed
    requires PageOf(r.book, r.band).look.Some? && PageOf(r.book, r.band).look.value.wf == Waterfall(r.live)
    ensures Run(t, r, es).live.rxWf == Waterfall(r.live)
  {
    HeldRun(t, r, es);
  }

  // ---- The object: setters that signal, callbacks that save, and the guard between them ----

  class Station {
    const tables: Tables
    const maxRaw: int
    var mode: string
    var rxDb: Pair
    var txDb: Pair
    var rxWf: Pair
    var txWf: Pair
    var keyed: bool
    var lna: int
    var drive: int
    var tune: int
    var hz: int
    var currentBand: string
    var applying: bool
    var applyingRx2: bool
    var book: Book
    var rx2: Second

    constructor (t: Tables, hz0: int, live: Live, stored: Book, second: Second, limit: int)
      ensures State() == ComeUp(t, hz0, live, stored, second, limit) && tables == t && !applying && !applyingRx2
    {
      tables, maxRaw := t, limit;
      mode, rxDb, txDb, rxWf, txWf, keyed := live.mode, live.rxDb, live.txDb, live.rxWf, live.txWf, live.keyed;
      lna, drive, tune := live.lna, live.drive, live.tune;
      hz, currentBand, applying, applyingRx2, book, rx2 := hz0, t.nameFor(hz0), false, false, stored, second;
      new;
      hide Recalled;
      if currentBand != "" {
        ApplyBand(currentBand);
      }
    }

    function Settings(): Live
      reads this
    {
      Live(mode, rxDb, txDb, rxWf, txWf, keyed, lna, drive, tune)
    }

    function State(): Rig
      reads this
    {
      Rig(hz, currentBand, Settings(), book, rx2, maxRaw)
    }

    method SaveCurrent()
      modifies this`book
      ensures book == if applying then old(book) else Save(old(State())).book
    {
      if applying || currentBand == "" {
        return;
      }
      var wf := if keyed then txWf else rxWf;
      book := Write(book, currentBand, PageOf(book, currentBand).(look := Some(Look(mode, rxDb, wf))));
    }

    method SetMode(m: string)
      modifies this`mode, this`book
      ensures mode == Changed(old(mode), m)
      ensures book == if applying then old(book) else Apply(tables, old(State()), Event.SetMode(m)).book
    {
      if m == "" || m == mode {
        return;
      }
      mode := m;
      SaveCurrent();
    }

    method SetRxDb(range: Pair)
      modifies this`rxDb, this`book
      ensures rxDb == range && (applying ==> book == old(book))
    {
      if range != rxDb {
        rxDb := range;
        if !keyed {
          SaveCurrent();
        }
      }
    }

    method SetDb(range: Pair)
      modifies this`rxDb, this`txDb, this`book
      ensures !applying ==> Settings() == Apply(tables, old(State()), DragDb(range)).live
      ensures !applying ==> book == Apply(tables, old(State()), DragDb(range)).book
    {
      if keyed {
        if range != txDb {
          txDb := range;
          SaveCurrent();
        }
      } else {
        if range != rxDb {
          rxDb := range;
          SaveCurrent();
        }
      }
    }

    method SetWaterfallDb(range: Pair)
      modifies this`rxWf, this`txWf, this`book
      ensures Settings() == WithWaterfall(old(Settings()), range)
      ensures book == if applying then old(book) else Apply(tables, old(State()), DragWaterfall(range)).book
    {
      if keyed {
        if range != txWf {
          txWf := range;
          SaveCurrent();
        }
      } else {
        if range != rxWf {
          rxWf := range;
          SaveCurrent();
        }
      }
    }

    method SetMoxActive(on: bool)
      modifies this`keyed, this`book
      ensures keyed == on
      ensures !applying ==> book == Apply(tables, old(State()), Key(on)).book
    {
      if on == keyed {
        return;
      }
      keyed := on;
      SaveCurrent();
    }

    method SetTuneDrivePct(pct: int)
      modifies this`tune, this`book
      ensures tune == Percent(pct)
      ensures book == if applying then old(book) else Apply(tables, old(State()), Event.SetTune(pct)).book
    {
      var v := Percent(pct);
      if v == tune {
        return;
      }
      tune := v;
      if applying || currentBand == "" {
        return;
      }
      book := Write(book, currentBand, PageOf(book, currentBand).(tune := Some(v)));
    }

    /** The operator's drive, and a protection fold, signal alike. */
    method SetTxDriveLevel(raw: int)
      modifies this`drive, this`book
      ensures drive == Driven(maxRaw, raw)
      ensures book == if applying then old(book) else ApplyDrive(old(State()), raw).book
    {
      var level := Driven(maxRaw, raw);
      if level == drive {
        return;
      }
      drive := level;
      if applying || currentBand == "" {
        return;
      }
      book := Write(book, currentBand, PageOf(book, currentBand).(drive := Some(level)));
    }

    method SetLnaGainDb(db: int)
      modifies this`lna, this`book
      ensures lna == Gain(db)
      ensures book == if applying then old(book) else ApplyGain(old(State()), db).book
    {
      if Gain(db) == lna {
        return;
      }
      lna := Gain(db);
      if applying || currentBand == "" {
        return;
      }
      book := Write(book, currentBand, PageOf(book, currentBand).(lna := Some(Gain(db))));
    }

    /** The automatic loop's own writer. */
    method ApplyLnaGainAuto(db: int)
      modifies this`lna, this`book
      ensures lna == Gain(db)
      ensures book == if applying then old(book) else Apply(tables, old(State()), Event.AutoLna(db)).book
    {
      if Gain(db) == lna {
        return;
      }
      lna := Gain(db);
      if applying || currentBand == "" {
        return;
      }
      book := Write(book, currentBand, PageOf(book, currentBand).(lna := Some(Gain(db))));
    }

    /** Restores a band's page through the same setters, with the guard up. */
    method ApplyBand(band: string)
      requires !applying
      modifies this`mode, this`rxDb, this`rxWf, this`txWf, this`lna, this`drive, this`tune, this`applying, this`book
      ensures !applying && book == old(book)
      ensures Settings() == Recalled(tables, maxRaw, band, PageOf(book, band), old(Settings()))
    {
      hide Driven, Gain, Percent, Conventional, Apply, Save, ApplyDrive;
      var p := PageOf(book, band);
      applying := true;
      if p.lna.Some? {
        SetLnaGainDb(p.lna.value);
      }
      SetTxDriveLevel(if p.drive.Some? then p.drive.value else 0);
      SetTuneDrivePct(if p.tune.Some? then p.tune.value else tune);
      match p.look {
        case None => SetMode(tables.modeFor(band));
        case Some(k) =>
          SetMode(Conventional(tables, band, k.mode));
          SetRxDb(k.db);
          SetWaterfallDb(k.wf);
      }
      applying := false;
    }

    /** What the stream's frequency signal runs. */
    method OnFreqChanged()
      requires !applying
      modifies this`currentBand, this`mode, this`rxDb, this`rxWf, this`txWf, this`lna, this`drive, this`tune, this`applying, this`book
      ensures !applying
      ensures var name, r := tables.nameFor(hz), old(State());
              && currentBand == name
              && Settings() == (if name != r.band && name != "" then Recalled(tables, maxRaw, name, PageOf(r.book, name), r.live) else r.live)
              && book == (if name != "" then Write(r.book, name, PageOf(r.book, name).(freq := Some(hz))) else r.book)
    {
      hide Recalled, Write;
      var name := tables.nameFor(hz);
      if name != currentBand {
        currentBand := name;
        if name != "" {
          ApplyBand(name);
        }
      }
      if name != "" {
        book := Write(book, name, PageOf(book, name).(freq := Some(hz)));
      }
    }

    method SetRx1FreqHz(to: int)
      requires !applying
      modifies this
      ensures !applying
      ensures Settings() == ApplyTune(tables, old(State()), to).live && book == ApplyTune(tables, old(State()), to).book
      ensures hz == to && currentBand == ApplyTune(tables, old(State()), to).band && rx2 == old(rx2)
    {
      hide Recalled, Write, PageOf;
      if to == hz {
        return;
      }
      hz := to;
      OnFreqChanged();
    }

    method OnRx2FreqChanged(to: int)
      modifies this`rx2, this`book
      ensures rx2 == Apply(tables, old(State()), TuneRx2(to)).rx2 && book == Apply(tables, old(State()), TuneRx2(to)).book
    {
      if to == rx2.hz {
        return;
      }
      var name := tables.nameFor(to);
      rx2 := rx2.(hz := to, band := name);
      if name != "" {
        book := Write(book, name, PageOf(book, name).(freqRx2 := Some(to)));
      }
    }
  
    method SetModeRx2(m: string)
      modifies this`rx2, this`book
      ensures rx2 == Apply(tables, old(State()), Event.SetModeRx2(m)).rx2
      ensures book == if applyingRx2 then old(book) else Apply(tables, old(State()), Event.SetModeRx2(m)).book
    {
      if m == "" || m == rx2.mode {
        return;
      }
      rx2 := rx2.(mode := m);
      if applyingRx2 || rx2.band == "" {
        return;
      }
      book := Write(book, rx2.band, PageOf(book, rx2.band).(modeRx2 := Some(m)));
    }

    method ApplyRx2Band(band: string)
      requires !applyingRx2
      modifies this`rx2, this`applyingRx2, this`book
      ensures !applyingRx2 && book == old(book) && rx2 == Apply(tables, old(State()), RecallRx2(band)).rx2
    {
      hide Save, SaveIf, ApplyTune, ApplyDrive, Waterfall, WithWaterfall;
      if band == "" {
        return;
      }
      var stored := PageOf(book, band).modeRx2;
      var wanted := if stored.Some? then stored.value else "";
      if wanted == "" {
        wanted := tables.modeFor(band);
      }
      if Sideband(wanted) {
        if Sideband(tables.modeFor(band)) {
          wanted := tables.modeFor(band);
        }
      }
      if wanted == "" {
        return;
      }
      applyingRx2 := true;
      SetModeRx2(wanted);
      applyingRx2 := false;
    }
  }
}
