/** The automatic dB range of the panadapter and the waterfall. */
module AutoScale {

  const NOISE_HEADROOM := 15.0
  const PEAK_HEADROOM := 15.0
  const MIN_SPAN := 50.0
  const PEAK_DECAY := 0.25
  const ALPHA := 0.10

  function Max(a: real, b: real): real {
    if a > b then a else b
  }

  // ---- Order statistics ----

  function LeastAt(s: seq<real>): (i: nat)
    requires s != []
    ensures i < |s| && forall j :: 0 <= j < |s| ==> s[i] <= s[j]
  {
    if |s| == 1 then 0
    else
      var i := LeastAt(s[..|s| - 1]);
      assert forall j :: 0 <= j < |s| - 1 ==> s[..|s| - 1][j] == s[j];
      if s[|s| - 1] < s[i] then |s| - 1 else i
  }

  function Without(s: seq<real>, i: nat): (r: seq<real>)
    requires i < |s|
    ensures |r| == |s| - 1
  {
    s[..i] + s[i + 1..]
  }

  /** What a partial sort leaves at position k: the least, once k leasts are taken out. */
  function Kth(s: seq<real>, k: nat): real
    requires k < |s|
    decreases k
  {
    if k == 0 then s[LeastAt(s)] else Kth(Without(s, LeastAt(s)), k - 1)
  }

  function Below(s: seq<real>, x: real): nat {
    if s == [] then 0 else Below(s[..|s| - 1], x) + (if s[|s| - 1] < x then 1 else 0)
  }

  function UpTo(s: seq<real>, x: real): nat {
    if s == [] then 0 else UpTo(s[..|s| - 1], x) + (if s[|s| - 1] <= x then 1 else 0)
  }

  lemma {:induction false} CountsWithout(s: seq<real>, i: nat, x: real)
    requires i < |s|
    ensures Below(s, x) == Below(Without(s, i), x) + (if s[i] < x then 1 else 0)
    ensures UpTo(s, x) == UpTo(Without(s, i), x) + (if s[i] <= x then 1 else 0)
    decreases |s|
  {
    var front := s[..|s| - 1];
    if i == |s| - 1 {
      assert Without(s, i) == front;
    } else {
      CountsWithout(front, i, x);
      var w := Without(s, i);
      assert w[..|w| - 1] == Without(front, i) && w[|w| - 1] == s[|s| - 1];
    }
  }

  lemma {:induction false} NoneBelowLeast(s: seq<real>, x: real)
    requires forall j :: 0 <= j < |s| ==> x <= s[j]
    ensures Below(s, x) == 0
    decreases |s|
  {
    if s != [] {
      NoneBelowLeast(s[..|s| - 1], x);
    }
  }

  lemma {:induction false} CountsFit(s: seq<real>, x: real)
    ensures Below(s, x) <= UpTo(s, x) <= |s|
    decreases |s|
  {
    if s != [] {
      CountsFit(s[..|s| - 1], x);
    }
  }

  /** At most k values are below the k-th, more than k are up to it, and it is one of them. */
  lemma {:induction false} KthIsOrderStatistic(s: seq<real>, k: nat)
    requires k < |s|
    ensures Kth(s, k) in s && Below(s, Kth(s, k)) <= k < UpTo(s, Kth(s, k))
    decreases k
  {
    var i := LeastAt(s);
    var x := Kth(s, k);
    CountsWithout(s, i, x);
    if k == 0 {
      NoneBelowLeast(s, x);
    } else {
      KthIsOrderStatistic(Without(s, i), k - 1);
      assert x in s;
      var j :| 0 <= j < |s| && s[j] == x;
    }
  }

  // ---- One feed ----

  function Peak(spec: seq<real>): real
    requires spec != []
  {
    if |spec| == 1 then spec[0] else Max(Peak(spec[..|spec| - 1]), spec[|spec| - 1])
  }

  /** The peak is one of the values, and none is higher. */
  lemma {:induction false} PeakIsHighest(spec: seq<real>)
    requires spec != []
    ensures Peak(spec) in spec && forall i :: 0 <= i < |spec| ==> spec[i] <= Peak(spec)
    decreases |spec|
  {
    if |spec| > 1 {
      PeakIsHighest(spec[..|spec| - 1]);
      assert forall i :: 0 <= i < |spec| - 1 ==> spec[..|spec| - 1][i] == spec[i];
    }
  }

  /** The twentieth percentile's position. */
  function Percentile(n: nat): nat
    requires n >= 4
  {
    var k := n / 5;
    if k < 1 then 1 else k
  }

  datatype Scale = Scale(floor: real, ceil: real, hold: real, seeded: bool)

  function FloorTarget(spec: seq<real>): real
    requires |spec| >= 4
  {
    Kth(spec, Percentile(|spec|)) - NOISE_HEADROOM
  }

  lemma PercentilePlace(n: nat)
    requires n >= 4
    ensures Percentile(n) < n
    ensures if n == 4 then Percentile(n) == 1 else 5 * Percentile(n) <= n < 5 * (Percentile(n) + 1)
  {
  }

  /** The floor target is fifteen under a value with at most a fifth of the spectrum below, and over a fifth up to it. */
  lemma FloorIsTwentyPercent(spec: seq<real>)
    requires |spec| >= 4
    ensures var x := FloorTarget(spec) + 15.0;
            x in spec && if |spec| == 4 then Below(spec, x) <= 1 < UpTo(spec, x) <= 4
                         else 5 * Below(spec, x) <= |spec| < 5 * UpTo(spec, x) && UpTo(spec, x) <= |spec|
  {
    hide Kth, Below, UpTo, Percentile;
    PercentilePlace(|spec|);
    KthIsOrderStatistic(spec, Percentile(|spec|));
    var x := Kth(spec, Percentile(|spec|));
    CountsFit(spec, x);
    assert FloorTarget(spec) + 15.0 == x;
  }

  function Hold(hold: real, peak: real): real {
    if peak >= hold then peak else Max(peak, hold - PEAK_DECAY)
  }

  function CeilTarget(spec: seq<real>, hold: real): real
    requires |spec| >= 4
  {
    var ceil := hold + PEAK_HEADROOM;
    if ceil - FloorTarget(spec) < MIN_SPAN then FloorTarget(spec) + MIN_SPAN else ceil
  }

  /** The first usable spectrum sets the range at once; before it the range is a fixed one. */
  lemma SeedsAtOnce(spec: seq<real>)
    requires |spec| >= 4
    ensures var s := Fed(Fresh, [spec]);
            s.seeded && s.hold == Max(Peak(spec), -200.25) && s.floor == FloorTarget(spec) && s.ceil == CeilTarget(spec, s.hold)
    ensures Fed(Fresh, []).floor == -130.0 && Fed(Fresh, []).ceil == -20.0 && !Fed(Fresh, []).seeded
  {
    hide FloorTarget, CeilTarget, Peak;
    assert [spec][..0] == [];
  }

  /** The ceiling target: fifteen over the hold, but fifty over the floor target at the least. */
  lemma CeilIsHigher(spec: seq<real>, hold: real)
    requires |spec| >= 4
    ensures CeilTarget(spec, hold) == Max(hold + 15.0, FloorTarget(spec) + 50.0)
  {
    hide FloorTarget;
  }

  function Eased(x: real, target: real): real {
    x + ALPHA * (target - x)
  }

  /** A spectrum of fewer than four points is not looked at. */
  function Follow(s: Scale, spec: seq<real>): Scale {
    if |spec| < 4 then s
    else
      var hold := Hold(s.hold, Peak(spec));
      var tFloor, tCeil := FloorTarget(spec), CeilTarget(spec, hold);
      if s.seeded then Scale(Eased(s.floor, tFloor), Eased(s.ceil, tCeil), hold, true)
      else Scale(tFloor, tCeil, hold, true)
  }

  const Fresh := Scale(-130.0, -20.0, -200.0, false)

  function Fed(s: Scale, specs: seq<seq<real>>): Scale
    decreases |specs|
  {
    if specs == [] then s else Follow(Fed(s, specs[..|specs| - 1]), specs[|specs| - 1])
  }

  class AutoScaler {
    var floor: real
    var ceil: real
    var peakHold: real
    var seeded: bool

    constructor ()
      ensures State() == Fresh
    {
      floor, ceil, peakHold, seeded := -130.0, -20.0, -200.0, false;
    }

    function State(): Scale
      reads this
    {
      Scale(floor, ceil, peakHold, seeded)
    }

    /** The largest value of a spectrum. */
    static method Largest(spec: array<real>) returns (pk: real)
      requires spec.Length >= 1
      ensures pk == Peak(spec[..])
      ensures pk in spec[..] && forall j :: 0 <= j < spec.Length ==> spec[j] <= pk
    {
      pk := spec[0];
      var i := 1;
      while i < spec.Length
        invariant 1 <= i <= spec.Length
        invariant pk == Peak(spec[..i])
        invariant exists j :: 0 <= j < i && spec[j] == pk
        invariant forall j :: 0 <= j < i ==> spec[j] <= pk
      {
        assert spec[..i + 1][..i] == spec[..i];
        pk := Max(pk, spec[i]);
        i := i + 1;
      }
      assert spec[..i] == spec[..];
    }

    method Feed(spec: array<real>)
      modifies this`floor, this`ceil, this`peakHold, this`seeded
      ensures State() == Follow(old(State()), spec[..])
    {
      hide Kth, Peak, LeastAt, Below, UpTo;
      var n := spec.Length;
      if n < 4 {
        return;
      }
      var noise := Kth(spec[..], Percentile(n));
      var pk := Largest(spec);
      if pk >= peakHold {
        peakHold := pk;
      } else {
        peakHold := Max(pk, peakHold - PEAK_DECAY);
      }
      var tFloor := noise - NOISE_HEADROOM;
      var tCeil := peakHold + PEAK_HEADROOM;
      if tCeil - tFloor < MIN_SPAN {
        tCeil := tFloor + MIN_SPAN;
      }
      if !seeded {
        floor := tFloor;
        ceil := tCeil;
        seeded := true;
      } else {
        floor := floor + ALPHA * (tFloor - floor);
        ceil := ceil + ALPHA * (tCeil - ceil);
      }
    }

    method Reset()
      modifies this`seeded, this`peakHold
      ensures State() == old(State()).(seeded := false, hold := -200.0)
    {
      seeded := false;
      peakHold := -200.0;
    }
  }

  // ---- Any history of feeds ----

  ghost predicate Usable(specs: seq<seq<real>>) {
    forall i :: 0 <= i < |specs| ==> |specs[i]| >= 4
  }

  /** What an old peak is still worth after some feeds. */
  function Faded(peak: real, feeds: nat): real {
    peak - 0.25 * feeds as real
  }

  lemma {:induction false} HoldOfUsable(s: Scale, specs: seq<seq<real>>)
    requires Usable(specs)
    ensures var h, n := Fed(s, specs).hold, |specs|;
            && h >= Faded(s.hold, n)
            && (forall i :: 0 <= i < n ==> h >= Faded(Peak(specs[i]), n - 1 - i))
            && (h == Faded(s.hold, n) || exists i :: 0 <= i < n && h == Faded(Peak(specs[i]), n - 1 - i))
    decreases |specs|
  {
    if specs != [] {
      var n := |specs|;
      var front := specs[..n - 1];
      HoldOfUsable(s, front);
      var before, h := Fed(s, front).hold, Fed(s, specs).hold;
      assert h == Max(Peak(specs[n - 1]), before - PEAK_DECAY) by {
        hide Kth, Peak, Percentile;
      }
      hide Fed, Peak;
      forall i | 0 <= i < n ensures h >= Faded(Peak(specs[i]), n - 1 - i) {
        if i < n - 1 {
          assert front[i] == specs[i];
          assert before >= Faded(Peak(front[i]), n - 2 - i);
        }
      }
      if h == Peak(specs[n - 1]) {
        assert h == Faded(Peak(specs[n - 1]), n - 1 - (n - 1));
      } else if before != Faded(s.hold, n - 1) {
        var i :| 0 <= i < n - 1 && before == Faded(Peak(front[i]), n - 2 - i);
        assert h == Faded(Peak(specs[i]), n - 1 - i);
      }
    }
  }

  /** Once seeded, the applied span never drops below its minimum. */
  lemma {:induction false} SpanNeverCollapses(specs: seq<seq<real>>)
    ensures var t := Fed(Fresh, specs); t.seeded ==> t.ceil - t.floor >= MIN_SPAN
    decreases |specs|
  {
    if specs != [] {
      SpanNeverCollapses(specs[..|specs| - 1]);
      hide Kth, Peak, Percentile, Hold, FloorTarget;
    }
  }

  lemma {:induction false} FloorOfUsable(specs: seq<seq<real>>, lo: real, hi: real)
    requires Usable(specs) && forall i :: 0 <= i < |specs| ==> lo <= FloorTarget(specs[i]) <= hi
    ensures specs != [] ==> lo <= Fed(Fresh, specs).floor <= hi && Fed(Fresh, specs).seeded
    decreases |specs|
  {
    if specs != [] {
      var front, last := specs[..|specs| - 1], specs[|specs| - 1];
      assert lo <= FloorTarget(last) <= hi;
      FloorOfUsable(front, lo, hi);
      hide Kth, Peak, Percentile, FloorTarget, CeilTarget, Hold;
    }
  }

  lemma {:induction false} CeilOfUsable(specs: seq<seq<real>>, lo: real, hi: real)
    requires Usable(specs)
    requires forall i :: 0 <= i < |specs| ==> lo <= CeilTarget(specs[i], Fed(Fresh, specs[..i + 1]).hold) <= hi
    ensures specs != [] ==> lo <= Fed(Fresh, specs).ceil <= hi && Fed(Fresh, specs).seeded
    decreases |specs|
  {
    if specs != [] {
      var n := |specs|;
      var front, last := specs[..n - 1], specs[n - 1];
      assert specs[..n - 1 + 1] == specs;
      assert lo <= CeilTarget(last, Fed(Fresh, specs).hold) <= hi;
      assert forall i :: 0 <= i < n - 1 ==> front[i] == specs[i] && front[..i + 1] == specs[..i + 1];
      CeilOfUsable(front, lo, hi);
      hide Kth, Peak, Percentile, FloorTarget, CeilTarget, Hold;
    }
  }

  /** The spectra a history consists of: the ones with fewer than four points are passed over. */
  function Heeded(specs: seq<seq<real>>): seq<seq<real>>
    decreases |specs|
  {
    if specs == [] then []
    else
      var front, last := Heeded(specs[..|specs| - 1]), specs[|specs| - 1];
      if |last| < 4 then front else front + [last]
  }

  lemma {:induction false} ShortOnesPassedOver(s: Scale, specs: seq<seq<real>>)
    ensures Usable(Heeded(specs)) && Fed(s, specs) == Fed(s, Heeded(specs))
    decreases |specs|
  {
    hide Kth, Peak, Percentile, Hold, FloorTarget, CeilTarget;
    if specs != [] {
      ShortOnesPassedOver(s, specs[..|specs| - 1]);
      var front, last := Heeded(specs[..|specs| - 1]), specs[|specs| - 1];
      assert (front + [last])[..|front|] == front;
    }
  }

  /** The hold is the highest of all peaks so far, each faded by its age, and the faded start. */
  lemma HoldIsFadedMaximum(s: Scale, specs: seq<seq<real>>)
    ensures Usable(Heeded(specs))
    ensures var h, heard, n := Fed(s, specs).hold, Heeded(specs), |Heeded(specs)|;
            && h >= Faded(s.hold, n)
            && (forall i :: 0 <= i < n ==> h >= Faded(Peak(heard[i]), n - 1 - i))
            && (h == Faded(s.hold, n) || exists i :: 0 <= i < n && h == Faded(Peak(heard[i]), n - 1 - i))
  {
    hide Heeded, Fed, Faded, Peak;
    ShortOnesPassedOver(s, specs);
    HoldOfUsable(s, Heeded(specs));
  }

  /** The applied floor stays within whatever bounds the floor targets since seeding obey. */
  lemma FloorInHull(specs: seq<seq<real>>, lo: real, hi: real)
    requires forall i :: 0 <= i < |Heeded(specs)| && |Heeded(specs)[i]| >= 4 ==> lo <= FloorTarget(Heeded(specs)[i]) <= hi
    ensures Heeded(specs) != [] ==> lo <= Fed(Fresh, specs).floor <= hi && Fed(Fresh, specs).seeded
  {
    hide Heeded, Fed, FloorTarget;
    ShortOnesPassedOver(Fresh, specs);
    FloorOfUsable(Heeded(specs), lo, hi);
  }

  /** So does the applied ceiling within the bounds of its own targets. */
  lemma CeilInHull(specs: seq<seq<real>>, lo: real, hi: real)
    requires forall i :: 0 <= i < |Heeded(specs)| && |Heeded(specs)[i]| >= 4
               ==> lo <= CeilTarget(Heeded(specs)[i], Fed(Fresh, Heeded(specs)[..i + 1]).hold) <= hi
    ensures Heeded(specs) != [] ==> lo <= Fed(Fresh, specs).ceil <= hi && Fed(Fresh, specs).seeded
  {
    hide Heeded, Fed, CeilTarget;
    ShortOnesPassedOver(Fresh, specs);
    CeilOfUsable(Heeded(specs), lo, hi);
  }

  function Decayed(x: real, n: nat): real {
    if n == 0 then x else (1.0 - ALPHA) * Decayed(x, n - 1)
  }

  /** On a steady spectrum the floor closes in on its target by a tenth of the distance each feed. */
  lemma {:induction false} ClosesIn(s: Scale, spec: seq<real>, n: nat)
    requires s.seeded && |spec| >= 4
    ensures var t := Fed(s, seq(n, _ => spec));
            t.seeded && t.floor - FloorTarget(spec) == Decayed(s.floor - FloorTarget(spec), n)
    decreases n
  {
    if n > 0 {
      ClosesIn(s, spec, n - 1);
      var all := seq(n, _ => spec);
      assert all[..n - 1] == seq(n - 1, _ => spec);
      hide Kth, Peak, Percentile, FloorTarget, CeilTarget, Hold;
    }
  }
}
