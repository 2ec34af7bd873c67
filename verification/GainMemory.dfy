/** The automatic gain loop on a remembered band: what its roaming leaves for the next visit. */
module GainMemory {
  import opened Basics
  import opened BandMemory
  import L = AutoLna

  /** What the polls of a loop send to the band's memory: the gain after each of them. */
  function Roaming(s: L.Loop, edge: int, dts: seq<int>): seq<Event>
    decreases |dts|
  {
    if dts == [] then []
    else
      var next := L.Closed(s, edge, dts[0]);
      [AutoLna(next.gain)] + Roaming(next, edge, dts[1..])
  }

  lemma {:induction false} RoamingEnds(s: L.Loop, edge: int, dts: seq<int>, m: int)
    requires L.Sane(s) && L.Jittered(dts, m)
    ensures var es, end := Roaming(s, edge, dts), L.Polls(s, edge, dts);
            && |es| == |dts| && OnlyAuto(es) && L.Sane(end) && Gain(end.gain) == end.gain
            && (dts != [] ==> es[|es| - 1] == AutoLna(end.gain))
    decreases |dts|
  {
    if dts != [] {
      L.SaneNext(s, edge, dts[0]);
      RoamingEnds(L.Closed(s, edge, dts[0]), edge, dts[1..], m);
      hide L.Closed;
    }
  }

  /** A gain that nothing moved is where it was. */
  lemma {:induction false} UnmovedStands(gain: int, es: seq<Event>)
    requires OnlyAuto(es) && !GainMoved(gain, es)
    ensures GainAfter(gain, es) == gain
    decreases |es|
  {
    hide Gain;
    if es != [] {
      assert es[|es| - 1].AutoLna?;
      UnmovedStands(gain, es[..|es| - 1]);
    }
  }

  /**
   * With the loop on, a set point does not outlive a visit to another band: once the loop has had
   * its bounded number of polls, the band comes back with the gain the loop left, which lies within
   * two steps under and one over the converter's edge, wherever the operator had put it.
   */
  lemma LoopOwnsTheBand(t: Tables, r: Rig, s: L.Loop, edge: int, dts: seq<int>, m: int, out: int, es: seq<Event>, back: int)
    requires Mirrors(t, r) && Named(r) && r.band != "" && s.gain == r.live.lna
    requires PageOf(r.book, r.band).lna.Some? || !(edge - 2 <= s.gain <= edge + 1)
    requires L.BACKOFF_MIN_DB <= edge < L.CREEP_MAX_DB
    requires L.Sane(s) && s.undo && L.Paced(s, m) && L.Jittered(dts, m) && |dts| > L.Distance(s, edge)
    requires Excursion(t, Run(t, r, Roaming(s, edge, dts)), out, es, back)
    ensures var w := After(t, Run(t, r, Roaming(s, edge, dts)), out, es, back);
            && w.live.lna == L.Polls(s, edge, dts).gain
            && edge - 2 <= w.live.lna <= edge + 1
  {
    hide Mirrors, Named, Excursion, After, Run, PageOf, Gain, L.Polls, L.Sane, L.Paced, L.Jittered, L.Distance, Roaming, Stays, GainMoved;
    var roaming, end := Roaming(s, edge, dts), L.Polls(s, edge, dts);
    L.DistanceStarts(s, edge);
    L.FindsTheEdge(s, edge, dts, m);
    RoamingEnds(s, edge, dts, m);
    AutoStays(t, r, roaming);
    RunMirrors(t, r, roaming);
    StayRun(t, r, roaming);
    assert GainAfter(r.live.lna, roaming) == end.gain;
    if !GainMoved(r.live.lna, roaming) {
      UnmovedStands(r.live.lna, roaming);
    }
    ComesBackAsLeft(t, Run(t, r, roaming), out, es, back);
  }
}
