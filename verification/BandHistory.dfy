/** The remembered settings and frequencies as the history of what was set. */
module BandHistory {
  import opened Basics
  import opened BandMemory

  function Limited(x: int, lo: int, hi: int): int {
    if x < lo then lo else if x > hi then hi else x
  }

  /** What one event asks of the settings, wherever they are remembered. */
  function Asked(l: Live, maxRaw: int, e: Event): Live {
    match e
    case SetMode(m) => if m == "" then l else l.(mode := m)
    case DragDb(range) => if l.keyed then l.(txDb := range) else l.(rxDb := range)
    case DragWaterfall(range) => if l.keyed then l.(txWf := range) else l.(rxWf := range)
    case SetTune(pct) => l.(tune := Limited(pct, 0, 100))
    case SetDrive(raw) => l.(drive := if Limited(raw, 0, 255) > maxRaw then maxRaw else Limited(raw, 0, 255))
    case Fold(raw) => l.(drive := if Limited(raw, 0, 255) > maxRaw then maxRaw else Limited(raw, 0, 255))
    case SetLna(db) => l.(lna := Limited(db, -12, 48))
    case AutoLna(db) => l.(lna := Limited(db, -12, 48))
    case Key(on) => l.(keyed := on)
    case _ => l
  }

  function LiveOf(l: Live, maxRaw: int, es: seq<Event>): Live
    decreases |es|
  {
    if es == [] then l else Asked(LiveOf(l, maxRaw, es[..|es| - 1]), maxRaw, es[|es| - 1])
  }

  lemma AskedStep(t: Tables, r: Rig, e: Event)
    requires r.band != "" && Apply(t, r, e).band == r.band
    ensures Apply(t, r, e).live == Asked(r.live, r.maxRaw, e) && Apply(t, r, e).maxRaw == r.maxRaw
  {
    hide Recalled, Conventional, PageOf;
  }

  /** On one band every setting is what was last asked for. */
  lemma {:induction false} SettingsAreHistory(t: Tables, r: Rig, es: seq<Event>)
    requires Stays(t, r, es)
    ensures var s := Run(t, r, es); s.live == LiveOf(r.live, r.maxRaw, es) && s.maxRaw == r.maxRaw && s.band == r.band
    decreases |es|
  {
    if es != [] {
      hide Apply, Asked;
      SettingsAreHistory(t, r, es[..|es| - 1]);
      AskedStep(t, Run(t, r, es[..|es| - 1]), es[|es| - 1]);
    }
  }

  /** A setting once stored for a band stays stored while the band is on. */
  lemma StoredStep(t: Tables, r: Rig, e: Event)
    requires r.band != "" && Apply(t, r, e).band == r.band
    ensures var p, q := PageOf(r.book, r.band), PageOf(Apply(t, r, e).book, r.band);
            (p.look.Some? ==> q.look.Some?) && (p.lna.Some? ==> q.lna.Some?) && (p.tune.Some? ==> q.tune.Some?)
  {
    hide Recalled, Conventional, Driven, Gain, Percent, Waterfall, WithWaterfall;
  }

  lemma {:induction false} StoredRun(t: Tables, r: Rig, es: seq<Event>)
    requires Stays(t, r, es)
    ensures var p, q := PageOf(r.book, r.band), PageOf(Run(t, r, es).book, r.band);
            (p.look.Some? ==> q.look.Some?) && (p.lna.Some? ==> q.lna.Some?) && (p.tune.Some? ==> q.tune.Some?)
    decreases |es|
  {
    if es != [] {
      hide Apply, PageOf;
      StoredRun(t, r, es[..|es| - 1]);
      SettingsAreHistory(t, r, es[..|es| - 1]);
      StoredStep(t, Run(t, r, es[..|es| - 1]), es[|es| - 1]);
    }
  }

  /** A remembered sideband gives way to the band's own; any other mode is kept as it is. */
  function ByConvention(usual: string, mode: string): string {
    if mode in {"USB", "LSB"} && usual in {"USB", "LSB"} then usual else mode
  }

  lemma ConventionIs(t: Tables, band: string, mode: string)
    ensures Conventional(t, band, mode) == ByConvention(t.modeFor(band), mode)
  {
  }

  /**
   * The promise of the whole memory: whatever was set on a band, and whatever was done elsewhere,
   * coming back gives each setting as it was last asked for there, the mode by the band's sideband,
   * the waterfall pair being the one in force.
   */
  lemma ComesBackAsAsked(t: Tables, r: Rig, on: seq<Event>, out: int, es: seq<Event>, back: int)
    requires Mirrors(t, r) && Named(r) && Stays(t, r, on) && Excursion(t, Run(t, r, on), out, es, back)
    requires var p := PageOf(r.book, r.band); p.look.Some? && p.lna.Some? && p.tune.Some?
    ensures var l, w := LiveOf(r.live, r.maxRaw, on), After(t, Run(t, r, on), out, es, back).live;
            && w.mode == ByConvention(t.modeFor(r.band), l.mode) && w.rxDb == l.rxDb
            && (if w.keyed then w.txWf else w.rxWf) == (if l.keyed then l.txWf else l.rxWf)
            && w.drive == l.drive && w.lna == l.lna && w.tune == l.tune
  {
    hide Mirrors, Named, Stays, Excursion, After, PageOf, LiveOf, Conventional;
    ConventionIs(t, r.band, LiveOf(r.live, r.maxRaw, on).mode);
    RunMirrors(t, r, on);
    SettingsAreHistory(t, r, on);
    StoredRun(t, r, on);
    ComesBackAsLeft(t, Run(t, r, on), out, es, back);
  }

  // ---- Frequencies ----

  function HzOf(start: int, es: seq<Event>): int
    decreases |es|
  {
    if es == [] then start else if es[|es| - 1].Tune? then es[|es| - 1].hz else HzOf(start, es[..|es| - 1])
  }

  function Rx2HzOf(start: int, es: seq<Event>): int
    decreases |es|
  {
    if es == [] then start else if es[|es| - 1].TuneRx2? then es[|es| - 1].hz else Rx2HzOf(start, es[..|es| - 1])
  }

  /** The last frequency a receiver moved to on a band. */
  function LastOn(t: Tables, band: string, start: int, stored: Option<int>, es: seq<Event>): Option<int>
    decreases |es|
  {
    if es == [] then stored
    else
      var front, e := es[..|es| - 1], es[|es| - 1];
      if e.Tune? && e.hz != HzOf(start, front) && t.nameFor(e.hz) == band then Some(e.hz)
      else LastOn(t, band, start, stored, front)
  }

  function LastRx2On(t: Tables, band: string, start: int, stored: Option<int>, es: seq<Event>): Option<int>
    decreases |es|
  {
    if es == [] then stored
    else
      var front, e := es[..|es| - 1], es[|es| - 1];
      if e.TuneRx2? && e.hz != Rx2HzOf(start, front) && t.nameFor(e.hz) == band then Some(e.hz)
      else LastRx2On(t, band, start, stored, front)
  }

  lemma TunedStep(t: Tables, r: Rig, e: Event, band: string)
    requires band != ""
    ensures var s := Apply(t, r, e);
            && s.hz == (if e.Tune? then e.hz else r.hz) && s.rx2.hz == (if e.TuneRx2? then e.hz else r.rx2.hz)
            && PageOf(s.book, band).freq == (if e.Tune? && e.hz != r.hz && t.nameFor(e.hz) == band then Some(e.hz) else PageOf(r.book, band).freq)
            && PageOf(s.book, band).freqRx2
               == (if e.TuneRx2? && e.hz != r.rx2.hz && t.nameFor(e.hz) == band then Some(e.hz) else PageOf(r.book, band).freqRx2)
  {
    hide Recalled, Conventional, Waterfall, WithWaterfall, Driven, Gain, Percent, Changed;
  }

  /** Over every run each receiver is where it was last tuned, and each band remembers the last place either moved to on it. */
  lemma {:induction false} FrequenciesAreHistory(t: Tables, r: Rig, es: seq<Event>, band: string)
    requires band != ""
    ensures var s := Run(t, r, es);
            && s.hz == HzOf(r.hz, es) && s.rx2.hz == Rx2HzOf(r.rx2.hz, es)
            && PageOf(s.book, band).freq == LastOn(t, band, r.hz, PageOf(r.book, band).freq, es)
            && PageOf(s.book, band).freqRx2 == LastRx2On(t, band, r.rx2.hz, PageOf(r.book, band).freqRx2, es)
    decreases |es|
  {
    if es != [] {
      hide Apply, PageOf;
      FrequenciesAreHistory(t, r, es[..|es| - 1], band);
      TunedStep(t, Run(t, r, es[..|es| - 1]), es[|es| - 1], band);
    }
  }

  // ---- The second receiver ----

  function Rx2ModeOf(t: Tables, r: Rig, es: seq<Event>): string
    decreases |es|
  {
    if es == [] then r.rx2.mode
    else
      var front, e := es[..|es| - 1], es[|es| - 1];
      var mode := Rx2ModeOf(t, r, front);
      match e
      case SetModeRx2(m) => if m == "" then mode else m
      case RecallRx2(band) =>
        if band == "" then mode
        else
          var stored := PageOf(Run(t, r, front).book, band).modeRx2;
          var wanted := ByConvention(t.modeFor(band), if stored.Some? && stored.value != "" then stored.value else t.modeFor(band));
          if wanted == "" then mode else wanted
      case _ => mode
  }

  function Rx2BandOf(t: Tables, r: Rig, es: seq<Event>): string
    decreases |es|
  {
    if es == [] then r.rx2.band
    else
      var front, e := es[..|es| - 1], es[|es| - 1];
      if e.TuneRx2? && e.hz != Rx2HzOf(r.rx2.hz, front) then t.nameFor(e.hz) else Rx2BandOf(t, r, front)
  }

  lemma SecondStep(t: Tables, r: Rig, e: Event)
    ensures var s := Apply(t, r, e).rx2;
            && s.band == (if e.TuneRx2? && e.hz != r.rx2.hz then t.nameFor(e.hz) else r.rx2.band)
            && s.mode == (match e
                          case SetModeRx2(m) => if m == "" then r.rx2.mode else m
                          case RecallRx2(band) =>
                            if band == "" then r.rx2.mode
                            else
                              var stored := PageOf(r.book, band).modeRx2;
                              var wanted := ByConvention(t.modeFor(band), if stored.Some? && stored.value != "" then stored.value else t.modeFor(band));
                              if wanted == "" then r.rx2.mode else wanted
                          case _ => r.rx2.mode)
  {
    hide Recalled, PageOf, Driven, Gain, Percent, Waterfall, WithWaterfall;
  }

  /** Over every run the second receiver's mode is the last one set or recalled on it, and its band the one of its frequency. */
  lemma {:induction false} SecondIsHistory(t: Tables, r: Rig, es: seq<Event>)
    ensures Run(t, r, es).rx2.mode == Rx2ModeOf(t, r, es) && Run(t, r, es).rx2.band == Rx2BandOf(t, r, es)
    decreases |es|
  {
    if es != [] {
      SecondIsHistory(t, r, es[..|es| - 1]);
      SecondHz(t, r, es[..|es| - 1]);
      hide Apply, ByConvention, PageOf;
      SecondStep(t, Run(t, r, es[..|es| - 1]), es[|es| - 1]);
    }
  }

  lemma SecondHz(t: Tables, r: Rig, es: seq<Event>)
    ensures Run(t, r, es).rx2.hz == Rx2HzOf(r.rx2.hz, es)
  {
    FrequenciesAreHistory(t, r, es, "any");
  }

  // ---- What is not written ----

  /** Asking for what is in force already. */
  predicate NoNews(r: Rig, e: Event) {
    match e
    case Tune(hz) => hz == r.hz
    case SetMode(m) => m == "" || m == r.live.mode
    case DragDb(range) => range == if r.live.keyed then r.live.txDb else r.live.rxDb
    case DragWaterfall(range) => range == if r.live.keyed then r.live.txWf else r.live.rxWf
    case SetTune(pct) => Limited(pct, 0, 100) == r.live.tune
    case SetDrive(raw) => r.live.drive == if Limited(raw, 0, 255) > r.maxRaw then r.maxRaw else Limited(raw, 0, 255)
    case Fold(raw) => r.live.drive == if Limited(raw, 0, 255) > r.maxRaw then r.maxRaw else Limited(raw, 0, 255)
    case SetLna(db) => Limited(db, -12, 48) == r.live.lna
    case AutoLna(db) => Limited(db, -12, 48) == r.live.lna
    case Key(on) => on == r.live.keyed
    case TuneRx2(hz) => hz == r.rx2.hz
    case SetModeRx2(m) => m == "" || m == r.rx2.mode
    case RecallRx2(band) => false
  }

  /** That neither changes nor stores anything. */
  lemma NoNewsNoSave(t: Tables, r: Rig, e: Event)
    requires NoNews(r, e)
    ensures Apply(t, r, e) == r
  {
    hide Recalled, Conventional, PageOf;
  }

  /** Outside all bands nothing is ever stored, and leaving them all changes no setting. */
  lemma OutsideStep(t: Tables, r: Rig, e: Event)
    ensures "" !in r.book ==> "" !in Apply(t, r, e).book
    ensures e.Tune? && t.nameFor(e.hz) == "" ==> Apply(t, r, e).live == r.live && Apply(t, r, e).book == r.book
    ensures e.RecallRx2? ==> Apply(t, r, e).book == r.book && (e.band == "" ==> Apply(t, r, e) == r)
  {
    hide Recalled, Conventional, Driven, Gain, Percent, Waterfall, WithWaterfall;
  }

  lemma {:induction false} NothingStoredOutside(t: Tables, r: Rig, es: seq<Event>)
    requires "" !in r.book
    ensures "" !in Run(t, r, es).book
    decreases |es|
  {
    if es != [] {
      hide Apply;
      NothingStoredOutside(t, r, es[..|es| - 1]);
      OutsideStep(t, Run(t, r, es[..|es| - 1]), es[|es| - 1]);
    }
  }

  /** Coming up outside all bands leaves the settings as they were restored. */
  lemma ComesUpOutside(t: Tables, hz: int, live: Live, book: Book, rx2: Second, maxRaw: int)
    requires t.nameFor(hz) == ""
    ensures ComeUp(t, hz, live, book, rx2, maxRaw) == Rig(hz, "", live, book, rx2, maxRaw)
  {
    hide Recalled;
  }

  /** On a band every change of mode, range or key stores the whole look as it then is. */
  lemma ChangeSavesTheLook(t: Tables, r: Rig, e: Event)
    requires r.band != "" && !NoNews(r, e) && (e.SetMode? || e.DragDb? || e.DragWaterfall? || e.Key?)
    ensures var s := Apply(t, r, e);
            PageOf(s.book, r.band).look == Some(Look(s.live.mode, s.live.rxDb, if s.live.keyed then s.live.txWf else s.live.rxWf))
  {
  }
}
