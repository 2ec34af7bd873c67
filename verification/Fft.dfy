/** The in-place radix-2 transform: bit reversal, then butterflies stage by stage. */
module Fft {
  import opened Basics
  import opened Complex
  import opened Dft

  // ---- Bit reversal ----

  /** The order the reversal loop must leave: all even samples first, recursively. */
  function Reversed(x: Signal): (r: Signal)
    ensures |r| <= |x|
    decreases |x|
  {
    if |x| <= 1 then x else Reversed(Evens(x)) + Reversed(Odds(x))
  }

  /** The reversal of the p low bits of i. */
  function RevIndex(p: nat, i: nat): (j: nat)
    requires i < Pow2(p)
    ensures j < Pow2(p)
  {
    if p == 0 then 0
    else if i < Pow2(p - 1) then 2 * RevIndex(p - 1, i)
    else 2 * RevIndex(p - 1, i - Pow2(p - 1)) + 1
  }

  lemma {:induction false} ReversedLength(x: Signal, p: nat)
    requires |x| == Pow2(p)
    ensures |Reversed(x)| == |x|
    decreases p
  {
    if p > 0 {
      ReversedLength(Evens(x), p - 1);
      ReversedLength(Odds(x), p - 1);
    }
  }

  lemma {:induction false} ReversedAt(x: Signal, p: nat, i: nat)
    requires |x| == Pow2(p) && i < |x|
    ensures |Reversed(x)| == |x| && Reversed(x)[i] == x[RevIndex(p, i)]
    decreases p
  {
    if p > 0 {
      var m := Pow2(p - 1);
      ReversedLength(Evens(x), p - 1);
      ReversedLength(Odds(x), p - 1);
      var e, o := Reversed(Evens(x)), Reversed(Odds(x));
      assert Reversed(x) == e + o;
      assert |x| == 2 * m && |e| == m && |o| == m;
      hide Pow2, Reversed;
      if i < m {
        ReversedAt(Evens(x), p - 1, i);
        assert (e + o)[i] == e[i] == Evens(x)[RevIndex(p - 1, i)];
      } else {
        ReversedAt(Odds(x), p - 1, i - m);
        assert (e + o)[i] == o[i - m] == Odds(x)[RevIndex(p - 1, i - m)];
      }
    }
  }

  /** Reversal also peels the low bit. */
  lemma {:induction false} RevLowBit(p: nat, r: nat, b: nat)
    requires p >= 1 && r < Pow2(p - 1) && b <= 1
    ensures RevIndex(p, 2 * r + b) == RevIndex(p - 1, r) + b * Pow2(p - 1)
  {
    if p >= 2 {
      var h := Pow2(p - 2);
      if r < h {
        RevLowBit(p - 1, r, b);
      } else {
        RevLowBit(p - 1, r - h, b);
        assert 2 * (r - h) + b == 2 * r + b - Pow2(p - 1);
      }
    }
  }

  lemma {:induction false} RevInvolution(p: nat, i: nat)
    requires i < Pow2(p)
    ensures RevIndex(p, RevIndex(p, i)) == i
  {
    if p > 0 {
      var m := Pow2(p - 1);
      if i < m {
        RevInvolution(p - 1, i);
        RevLowBit(p, RevIndex(p - 1, i), 0);
      } else {
        RevInvolution(p - 1, i - m);
        RevLowBit(p, RevIndex(p - 1, i - m), 1);
      }
    }
  }

  /** `j & bit` for a single-bit mask. */
  predicate BitSet(j: nat, bit: nat)
    requires bit > 0
  {
    (j / bit) % 2 == 1
  }

  /** `j ^ bit` for a single-bit mask. */
  function FlipBit(j: nat, bit: nat): nat
    requires bit > 0
  {
    if BitSet(j, bit) && j >= bit then j - bit else j + bit
  }

  lemma TopBit(j: nat, bit: nat)
    requires 0 < bit && j < 2 * bit
    ensures BitSet(j, bit) <==> j >= bit
  {
    if j >= bit {
      assert j / bit == 1 by {
        assert j == bit * 1 + (j - bit);
      }
    } else {
      assert j / bit == 0;
    }
  }

  /** One turn of the carry loop: either the carry moves one bit down, or it stops here. */
  lemma CarryStep(q: nat, r: nat)
    requires q >= 1 && r + 1 < Pow2(q)
    ensures var j, bit := RevIndex(q, r), Pow2(q - 1);
            if BitSet(j, bit) then
              && q >= 2 && r / 2 + 1 < Pow2(q - 1)
              && FlipBit(j, bit) == RevIndex(q - 1, r / 2)
              && RevIndex(q, r + 1) == RevIndex(q - 1, r / 2 + 1)
            else
              FlipBit(j, bit) == RevIndex(q, r + 1)
  {
    hide BitSet, RevIndex;
    var h, bit := r / 2, Pow2(q - 1);
    assert Pow2(q) == 2 * bit;
    TopBit(RevIndex(q, r), bit);
    if r == 2 * h + 1 {
      RevLowBit(q, h, 1);
      assert RevIndex(q, r) == RevIndex(q - 1, h) + bit;
      assert h + 1 < bit;
      RevLowBit(q, h + 1, 0);
      assert RevIndex(q, r + 1) == RevIndex(q - 1, h + 1);
    } else {
      assert r == 2 * h;
      RevLowBit(q, h, 0);
      assert RevIndex(q, r) == RevIndex(q - 1, h);
      RevLowBit(q, h, 1);
    }
  }

  /** Steps the reversed counter: from the reversal of i - 1 to the reversal of i. */
  method NextReversed(N: nat, j0: nat, ghost p: nat, ghost i: nat) returns (j: nat)
    requires N == Pow2(p) && 1 <= i < N && j0 == RevIndex(p, i - 1)
    ensures j == RevIndex(p, i)
  {
    hide BitSet, FlipBit, RevIndex;
    j := j0;
    var bit := N / 2;
    ghost var q: nat, r: nat := p, i - 1;
    while BitSet(j, bit)
      invariant 1 <= q && r + 1 < Pow2(q) && bit == Pow2(q - 1)
      invariant j == RevIndex(q, r) && RevIndex(q, r + 1) == RevIndex(p, i)
      decreases q
    {
      CarryStep(q, r);
      j := FlipBit(j, bit);
      bit := bit / 2;
      q, r := q - 1, r / 2;
    }
    CarryStep(q, r);
    j := FlipBit(j, bit);
  }

  /** What the swaps have done once every index below i has been visited. */
  ghost predicate Swapped(s: Signal, x: Signal, p: nat, i: nat) {
    && |s| == |x| == Pow2(p)
    && forall k | 0 <= k < |x| ::
      s[k] == if k < i || RevIndex(p, k) < i then x[RevIndex(p, k)] else x[k]
  }

  lemma {:induction false} RevZero(p: nat)
    ensures RevIndex(p, 0) == 0
  {
    if p > 0 {
      RevZero(p - 1);
    }
  }

  lemma SwappedStart(x: Signal, p: nat)
    requires |x| == Pow2(p)
    ensures Swapped(x, x, p, 1)
  {
    RevZero(p);
    forall k | 0 <= k < |x| && RevIndex(p, k) < 1 ensures k == 0 {
      RevInvolution(p, k);
    }
  }

  lemma SwappedStep(s: Signal, t: Signal, x: Signal, p: nat, i: nat)
    requires i < Pow2(p) && Swapped(s, x, p, i)
    requires t == if i < RevIndex(p, i) then s[i := s[RevIndex(p, i)]][RevIndex(p, i) := s[i]] else s
    ensures Swapped(t, x, p, i + 1)
  {
    RevInvolution(p, i);
    var j := RevIndex(p, i);
    forall k | 0 <= k < |x|
      ensures t[k] == if k < i + 1 || RevIndex(p, k) < i + 1 then x[RevIndex(p, k)] else x[k]
    {
      RevInvolution(p, k);
    }
  }

  lemma SwappedEnd(s: Signal, x: Signal, p: nat)
    requires Swapped(s, x, p, |x|)
    ensures s == Reversed(x)
  {
    ReversedAt(x, p, 0);
    forall k | 0 <= k < |x| ensures s[k] == Reversed(x)[k] {
      ReversedAt(x, p, k);
    }
  }

  method BitReverse(a: array<Cplx>, ghost p: nat)
    requires a.Length == Pow2(p) && p >= 1
    modifies a
    ensures a[..] == Reversed(old(a[..]))
  {
    ghost var x := a[..];
    var N := a.Length;
    var i, j := 1, 0;
    RevZero(p);
    SwappedStart(x, p);
    while i < N
      invariant 1 <= i <= N && j == RevIndex(p, i - 1)
      invariant Swapped(a[..], x, p, i)
    {
      ghost var s := a[..];
      j := NextReversed(N, j, p, i);
      if i < j {
        a[i], a[j] := a[j], a[i];
      }
      SwappedStep(s, a[..], x, p, i);
      i := i + 1;
    }
    SwappedEnd(a[..], x, p);
  }

  // ---- Butterflies ----

  /** One butterfly pass over a block: two half-length results become one of twice the length. */
  function Combine(e: Signal, o: Signal, w: Cplx): (r: Signal)
    requires |e| == |o|
    ensures |r| == 2 * |e|
  {
    seq(|e|, k requires 0 <= k < |e| => Add(e[k], Mul(o[k], Pow(w, k))))
    + seq(|e|, k requires 0 <= k < |e| => Sub(e[k], Mul(o[k], Pow(w, k))))
  }

  /** All passes over one block of 2^q samples, as a recursion. */
  function Fly(y: Signal, root: nat -> Cplx, q: nat): (r: Signal)
    requires |y| == Pow2(q)
    ensures |r| == |y|
    decreases q
  {
    if q == 0 then y
    else
      var m := Pow2(q - 1);
      Combine(Fly(y[..m], root, q - 1), Fly(y[m..], root, q - 1), root(2 * m))
  }

  lemma CombineAt(e: Signal, o: Signal, w: Cplx, k: nat)
    requires |e| == |o| && k < |e|
    ensures Combine(e, o, w)[k] == Add(e[k], Mul(o[k], Pow(w, k)))
    ensures Combine(e, o, w)[|e| + k] == Sub(e[k], Mul(o[k], Pow(w, k)))
  {
  }

  /** A butterfly pass builds the transform of a signal from those of its even and odd samples. */
  lemma CombineSpectra(x: Signal, w: Cplx, m: nat)
    requires |x| == 2 * m && HalfTurn(w, m)
    ensures Combine(Transform(Evens(x), Mul(w, w)), Transform(Odds(x), Mul(w, w)), w) == Transform(x, w)
  {
    hide Mul, Add, Sub, Pow, Bin, Combine;
    var e, o := Transform(Evens(x), Mul(w, w)), Transform(Odds(x), Mul(w, w));
    var c := Combine(e, o, w);
    forall n | 0 <= n < 2 * m
      ensures c[n] == Transform(x, w)[n]
    {
      var k := if n < m then n else n - m;
      CombineAt(e, o, w, k);
      DanielsonLanczos(x, w, m, k);
    }
  }

  /** The passes undo the shuffle of the reversal and leave the spectrum. */
  lemma {:induction false} FlyReversed(x: Signal, root: nat -> Cplx, p: nat)
    requires |x| == Pow2(p) && RootFamily(root, p)
    ensures |Reversed(x)| == |x|
    ensures Fly(Reversed(x), root, p) == Transform(x, root(Pow2(p)))
    decreases p
  {
    hide Mul, Combine, Transform, HalfTurn;
    ReversedAt(x, p, 0);
    if p == 0 {
      SingleSample(x, root(1));
    } else {
      var m, w := Pow2(p - 1), root(Pow2(p));
      FlyReversed(Evens(x), root, p - 1);
      FlyReversed(Odds(x), root, p - 1);
      assert Reversed(x)[..m] == Reversed(Evens(x)) && Reversed(x)[m..] == Reversed(Odds(x));
      FamilyHalfTurn(root, p);
      CombineSpectra(x, w, m);
      if p == 1 {
        SingleSample(Evens(x), root(1));
        SingleSample(Odds(x), root(1));
        SingleSample(Evens(x), Mul(w, w));
        SingleSample(Odds(x), Mul(w, w));
      }
    }
  }

  /** n is a multiple of len. */
  predicate Multiple(n: nat, len: nat)
    requires len > 0
  {
    n == 0 || (n >= len && Multiple(n - len, len))
  }

  lemma {:induction false} MultipleAdd(a: nat, b: nat, len: nat)
    requires len > 0 && Multiple(a, len) && Multiple(b, len)
    ensures Multiple(a + b, len)
  {
    if a > 0 {
      MultipleAdd(a - len, b, len);
    }
  }

  lemma {:induction false} PowersDivide(p: nat, q: nat)
    requires q <= p
    ensures Multiple(Pow2(p), Pow2(q))
    decreases p - q
  {
    if q == p {
      assert Multiple(0, Pow2(q));
    } else {
      PowersDivide(p - 1, q);
      MultipleAdd(Pow2(p - 1), Pow2(p - 1), Pow2(q));
    }
  }

  /** The array after the stages up to length 2^q: every block of that length is finished. */
  function Level(y: Signal, root: nat -> Cplx, q: nat): (r: Signal)
    requires Multiple(|y|, Pow2(q))
    ensures |r| == |y|
    decreases |y|
  {
    if |y| == 0 then []
    else Fly(y[..Pow2(q)], root, q) + Level(y[Pow2(q)..], root, q)
  }

  /** One stage over the whole array. */
  function StageOf(s: Signal, m: nat, w: Cplx): (r: Signal)
    requires m > 0 && Multiple(|s|, 2 * m)
    ensures |r| == |s|
    decreases |s|
  {
    if |s| == 0 then []
    else Combine(s[..m], s[m..2 * m], w) + StageOf(s[2 * m..], m, w)
  }

  lemma {:induction false} LevelZero(y: Signal, root: nat -> Cplx)
    requires Multiple(|y|, 1)
    ensures Level(y, root, 0) == y
    decreases |y|
  {
    if |y| > 0 {
      LevelZero(y[1..], root);
    }
  }

  lemma {:induction false} MultipleHalf(n: nat, len: nat)
    requires len > 0 && Multiple(n, 2 * len)
    ensures Multiple(n, len)
  {
    if n > 0 {
      MultipleHalf(n - 2 * len, len);
      assert Multiple(n - len, len);
    }
  }

  lemma ThreeParts(s: Signal, a: Signal, b: Signal, c: Signal)
    requires s == a + (b + c)
    ensures s[..|a|] == a && s[|a|..|a| + |b|] == b && s[|a| + |b|..] == c
  {
  }

  lemma TwoSlices(y: Signal, m: nat)
    requires 2 * m <= |y|
    ensures y[m..][..m] == y[m..2 * m] == y[..2 * m][m..]
    ensures y[m..][m..] == y[2 * m..] && y[..2 * m][..m] == y[..m]
  {
  }

  /** Peeling two blocks off a level, and the block they become at the next one. */
  lemma LevelPair(y: Signal, root: nat -> Cplx, q: nat)
    requires |y| > 0 && Multiple(|y|, Pow2(q + 1)) && Multiple(|y|, Pow2(q))
    ensures var m, s := Pow2(q), Level(y, root, q);
            && s[2 * m..] == Level(y[2 * m..], root, q)
            && Combine(s[..m], s[m..2 * m], root(2 * m)) == Fly(y[..2 * m], root, q + 1)
  {
    hide Combine, Level;
    var m := Pow2(q);
    TwoSlices(y, m);
    LevelUnfold(y, root, q);
    LevelUnfold(y[m..], root, q);
    ThreeParts(Level(y, root, q), Fly(y[..m], root, q), Fly(y[m..2 * m], root, q), Level(y[2 * m..], root, q));
  }

  lemma LevelUnfold(y: Signal, root: nat -> Cplx, q: nat)
    requires |y| > 0 && Multiple(|y|, Pow2(q))
    ensures Level(y, root, q) == Fly(y[..Pow2(q)], root, q) + Level(y[Pow2(q)..], root, q)
  {
  }

  /** A stage takes the array from one level to the next. */
  lemma {:induction false} LevelStep(y: Signal, root: nat -> Cplx, q: nat)
    requires Multiple(|y|, Pow2(q + 1))
    ensures Multiple(|y|, Pow2(q))
    ensures StageOf(Level(y, root, q), Pow2(q), root(Pow2(q + 1))) == Level(y, root, q + 1)
    decreases |y|
  {
    hide Combine, Fly;
    MultipleHalf(|y|, Pow2(q));
    if |y| > 0 {
      LevelStep(y[2 * Pow2(q)..], root, q);
      LevelPair(y, root, q);
    }
  }

  lemma LevelTop(y: Signal, root: nat -> Cplx, p: nat)
    requires |y| == Pow2(p)
    ensures Multiple(|y|, Pow2(p))
    ensures Level(y, root, p) == Fly(y, root, p)
  {
    PowersDivide(p, p);
    assert y[..Pow2(p)] == y;
  }

  /** The butterflies of one block, with the running twiddle `w *= wlen`. */
  method Butterflies(a: array<Cplx>, i: nat, m: nat, wlen: Cplx)
    requires i + 2 * m <= a.Length
    modifies a
    ensures a[..i] == old(a[..i]) && a[i + 2 * m..] == old(a[i + 2 * m..])
    ensures a[i..i + 2 * m] == Combine(old(a[i..i + m]), old(a[i + m..i + 2 * m]), wlen)
  {
    hide Mul, Add, Sub, Combine;
    ghost var e, o := a[i..i + m], a[i + m..i + 2 * m];
    ghost var c := Combine(e, o, wlen);
    var w := ONE;
    var k := 0;
    while k < m
      invariant 0 <= k <= m && w == Pow(wlen, k)
      invariant a[..i] == old(a[..i]) && a[i + 2 * m..] == old(a[i + 2 * m..])
      invariant forall n | i <= n < i + m :: a[n] == if n < i + k then c[n - i] else e[n - i]
      invariant forall n | i + m <= n < i + 2 * m :: a[n] == if n < i + m + k then c[n - i] else o[n - i - m]
    {
      CombineAt(e, o, wlen, k);
      var u := a[i + k];
      var v := Mul(a[i + k + m], w);
      a[i + k] := Add(u, v);
      a[i + k + m] := Sub(u, v);
      w := Mul(w, wlen);
      k := k + 1;
    }
  }

  lemma StageUnfold(done: Signal, s: Signal, i: nat, m: nat, w: Cplx)
    requires m > 0 && i < |s| && Multiple(|s| - i, 2 * m)
    ensures i + 2 * m <= |s| && Multiple(|s| - (i + 2 * m), 2 * m)
    ensures done + StageOf(s[i..], m, w)
         == (done + Combine(s[i..i + m], s[i + m..i + 2 * m], w)) + StageOf(s[i + 2 * m..], m, w)
  {
    hide Combine;
    var rest := s[i..];
    assert rest[..m] == s[i..i + m] && rest[m..2 * m] == s[i + m..i + 2 * m];
    assert rest[2 * m..] == s[i + 2 * m..];
  }

  lemma FrontGrows(x: Signal, i: nat, k: nat)
    requires i <= k <= |x|
    ensures x[..k] == x[..i] + x[i..k]
  {
  }

  method Stage(a: array<Cplx>, m: nat, wlen: Cplx)
    requires m > 0 && Multiple(a.Length, 2 * m)
    modifies a
    ensures a[..] == StageOf(old(a[..]), m, wlen)
  {
    hide Combine, StageOf, Multiple;
    ghost var s := a[..];
    ghost var done: Signal := [];
    var i := 0;
    assert s[0..] == s;
    while i < a.Length
      invariant i <= a.Length && Multiple(a.Length - i, 2 * m)
      invariant |done| == i && a[..i] == done && a[i..] == s[i..]
      invariant done + StageOf(s[i..], m, wlen) == StageOf(s, m, wlen)
    {
      StageUnfold(done, s, i, m, wlen);
      assert a[i..i + m] == s[i..i + m] && a[i + m..i + 2 * m] == s[i + m..i + 2 * m] by {
        assert a[i..][..m] == s[i..][..m] && a[i..][m..2 * m] == s[i..][m..2 * m];
      }
      ghost var after := a[i..][2 * m..];
      Butterflies(a, i, m, wlen);
      done := done + Combine(s[i..i + m], s[i + m..i + 2 * m], wlen);
      i := i + 2 * m;
      FrontGrows(a[..], i - 2 * m, i);
    }
    StageEnd(s, m, wlen);
  }

  lemma StageEnd(s: Signal, m: nat, w: Cplx)
    requires m > 0
    ensures StageOf(s[|s|..], m, w) == []
  {
  }

  // ---- The transform ----

  /** What the twiddle tables of both directions satisfy for lengths up to 2^p. */
  ghost predicate ValidRoots(fwd: nat -> Cplx, inv: nat -> Cplx, p: nat) {
    RootFamily(fwd, p) && RootFamily(inv, p) && Opposite(fwd, inv, p)
  }

  /** The naive transform, and its inverse with the division by the length. */
  function Spectrum(x: Signal, fwd: nat -> Cplx): (r: Signal)
    ensures |r| == |x|
  {
    Transform(x, fwd(|x|))
  }

  function Synthesis(x: Signal, inv: nat -> Cplx): (r: Signal)
    ensures |r| == |x|
  {
    if |x| == 0 then x else Scaled(1.0 / |x| as real, Transform(x, inv(|x|)))
  }

  /** The closing loop of the inverse direction. */
  method Normalise(a: array<Cplx>)
    requires a.Length > 0
    modifies a
    ensures a[..] == Scaled(1.0 / a.Length as real, old(a[..]))
  {
    hide Scale;
    var inv := 1.0 / a.Length as real;
    for i := 0 to a.Length
      invariant forall n | 0 <= n < i :: a[n] == Scale(inv, old(a[n]))
      invariant forall n | i <= n < a.Length :: a[n] == old(a[n])
    {
      a[i] := Scale(inv, a[i]);
    }
  }

  method Fft(a: array<Cplx>, inverse: bool, fwd: nat -> Cplx, inv: nat -> Cplx, ghost p: nat)
    requires a.Length == Pow2(p) && ValidRoots(fwd, inv, p)
    modifies a
    ensures a[..] == if inverse then Synthesis(old(a[..]), inv) else Spectrum(old(a[..]), fwd)
  {
    hide Mul, Add, Sub, Pow, Bin, Combine, Scale, Reversed, Level, Fly, Transform, RootFamily, BitSet;
    ghost var x, root := a[..], if inverse then inv else fwd;
    var N := a.Length;
    if N < 2 {
      SingleSample(x, fwd(1));
      SingleSample(x, inv(1));
      return;
    }
    BitReverse(a, p);
    ghost var y := a[..];
    PowersDivide(p, 0);
    LevelZero(y, root);
    var len := 2;
    ghost var q := 0;
    while len <= N
      invariant len == Pow2(q + 1) && q <= p
      invariant Multiple(N, Pow2(q)) && a[..] == Level(y, root, q)
      decreases p - q
    {
      var wlen := if inverse then inv(len) else fwd(len);
      PowersDivide(p, q + 1);
      LevelStep(y, root, q);
      Stage(a, len / 2, wlen);
      len := 2 * len;
      q := q + 1;
    }
    if q < p {
      PowersDivide(p, q + 1);
    }
    LevelTop(y, root, p);
    FlyReversed(x, root, p);
    if inverse {
      Normalise(a);
    }
  }

  /** The inverse call after the forward call gives the signal back. */
  lemma RoundTrip(x: Signal, fwd: nat -> Cplx, inv: nat -> Cplx, p: nat)
    requires |x| == Pow2(p) && ValidRoots(fwd, inv, p)
    ensures Synthesis(Spectrum(x, fwd), inv) == x
  {
    hide Mul, Scale, Transform;
    var w, v := fwd(Pow2(p)), inv(Pow2(p));
    if p == 0 {
      SingleSample(x, w);
      SingleSample(x, v);
    } else {
      FamilyHalfTurn(fwd, p);
      Inversion(x, w, v, p);
      forall n | 0 <= n < |x|
        ensures Synthesis(Spectrum(x, fwd), inv)[n] == x[n]
      {
        Normalised(Pow2(p) as real, x[n]);
      }
    }
  }

  lemma Normalised(r: real, a: Cplx)
    requires r > 0.0
    ensures Scale(1.0 / r, Scale(r, a)) == a
  {
    ScaleScale(1.0 / r, r, a);
  }

  // ---- The tables the root facts stand for ----

  function Radius(c: real, s: real): real {
    c * c + s * s
  }

  function CosDouble(c: real, s: real): real {
    c * c - s * s
  }

  function SinDouble(c: real, s: real): real {
    2.0 * (c * s)
  }

  /** Cosine and sine of a turn divided by 2, 4, ..., 2^p: half a turn, and the double angle at each. */
  ghost predicate HalvedAngles(cosine: nat -> real, sine: nat -> real, p: nat) {
    && cosine(2) == -1.0 && sine(2) == 0.0
    && forall q: nat | 2 <= q <= p ::
         && cosine(Pow2(q - 1)) == CosDouble(cosine(Pow2(q)), sine(Pow2(q)))
         && sine(Pow2(q - 1)) == SinDouble(cosine(Pow2(q)), sine(Pow2(q)))
  }

  lemma SquareBelow(x: real, y: real)
    requires 0.0 <= x < y
    ensures x * x < y * y
  {
    var a, b, c := x * x, x * y, y * y;
    assert a <= b;
    assert b < c;
  }

  lemma SquaresAddUp(a: real, b: real)
    requires a >= 0.0 && b >= 0.0 && (a - b) * (a - b) + 4.0 * (a * b) == 1.0
    ensures a + b == 1.0
  {
    var r := a + b;
    assert r * r == (a - b) * (a - b) + 4.0 * (a * b);
    if r < 1.0 {
      SquareBelow(r, 1.0);
    } else if r > 1.0 {
      SquareBelow(1.0, r);
    }
  }

  lemma OnCircle(c: real, s: real)
    requires Radius(CosDouble(c, s), SinDouble(c, s)) == 1.0
    ensures Radius(c, s) == 1.0
  {
    var a, b, m := c * c, s * s, c * s;
    assert m * m == a * b by {
      assert m * m == (c * s) * (c * s) == c * (s * (c * s)) == c * (c * (s * s)) == (c * c) * (s * s);
    }
    SquaresAddUp(a, b);
  }

  lemma {:induction false} UnitSteps(cosine: nat -> real, sine: nat -> real, p: nat, q: nat)
    requires HalvedAngles(cosine, sine, p) && 1 <= q <= p
    ensures Radius(cosine(Pow2(q)), sine(Pow2(q))) == 1.0
    decreases q
  {
    if q == 1 {
      assert Pow2(0) == 1 && Pow2(1) == 2;
    } else {
      hide Radius, CosDouble, SinDouble, Pow2;
      UnitSteps(cosine, sine, p, q - 1);
      OnCircle(cosine(Pow2(q)), sine(Pow2(q)));
    }
  }

  function Twiddles(cosine: nat -> real, sine: nat -> real, sign: real): nat -> Cplx {
    (len: nat) => Cplx(cosine(len), sign * sine(len))
  }

  lemma Turned(c: real, s: real, sign: real)
    requires sign * sign == 1.0
    ensures Mul(Cplx(c, sign * s), Cplx(c, sign * s)) == Cplx(CosDouble(c, s), sign * SinDouble(c, s))
  {
    assert (sign * s) * (sign * s) == (sign * sign) * (s * s);
  }

  lemma StepTurned(cosine: nat -> real, sine: nat -> real, sign: real, p: nat, q: nat)
    requires HalvedAngles(cosine, sine, p) && 2 <= q <= p && sign * sign == 1.0
    ensures var root := Twiddles(cosine, sine, sign); Mul(root(Pow2(q)), root(Pow2(q))) == root(Pow2(q - 1))
  {
    hide Mul, Pow2, CosDouble, SinDouble;
    var root, c, s := Twiddles(cosine, sine, sign), cosine(Pow2(q)), sine(Pow2(q));
    Turned(c, s, sign);
    assert root(Pow2(q)) == Cplx(c, sign * s);
    assert root(Pow2(q - 1)) == Cplx(CosDouble(c, s), sign * SinDouble(c, s));
  }

  lemma Unturned(c: real, s: real)
    requires Radius(c, s) == 1.0
    ensures Mul(Cplx(c, -1.0 * s), Cplx(c, 1.0 * s)) == ONE
  {
  }

  /** Twiddle steps built from such tables, the angle negative forward and positive back, meet the root facts. */
  lemma TwiddlesAreRoots(cosine: nat -> real, sine: nat -> real, p: nat)
    requires HalvedAngles(cosine, sine, p)
    ensures ValidRoots(Twiddles(cosine, sine, -1.0), Twiddles(cosine, sine, 1.0), p)
  {
    hide Mul, Pow2, Radius, CosDouble, SinDouble;
    assert -1.0 * sine(2) == 0.0;
    var fwd, inv := Twiddles(cosine, sine, -1.0), Twiddles(cosine, sine, 1.0);
    forall q: nat | 2 <= q <= p
      ensures Mul(fwd(Pow2(q)), fwd(Pow2(q))) == fwd(Pow2(q - 1)) && Mul(inv(Pow2(q)), inv(Pow2(q))) == inv(Pow2(q - 1))
    {
      StepTurned(cosine, sine, -1.0, p, q);
      StepTurned(cosine, sine, 1.0, p, q);
    }
    forall q: nat | 1 <= q <= p ensures Mul(fwd(Pow2(q)), inv(Pow2(q))) == ONE {
      UnitSteps(cosine, sine, p, q);
      Unturned(cosine(Pow2(q)), sine(Pow2(q)));
    }
  }

  function FourPointForward(len: nat): Cplx {
    if len == 2 then MINUS_ONE else Cplx(0.0, -1.0)
  }

  function FourPointInverse(len: nat): Cplx {
    if len == 2 then MINUS_ONE else Cplx(0.0, 1.0)
  }

  lemma QuarterTurns()
    ensures Mul(Cplx(0.0, -1.0), Cplx(0.0, -1.0)) == MINUS_ONE == Mul(Cplx(0.0, 1.0), Cplx(0.0, 1.0))
    ensures Mul(Cplx(0.0, -1.0), Cplx(0.0, 1.0)) == ONE == Mul(MINUS_ONE, MINUS_ONE)
  {
  }

  /** The root facts can be met: the four-point tables, with steps -i and i. */
  lemma FourPointRoots()
    ensures ValidRoots(FourPointForward, FourPointInverse, 2)
  {
    hide Mul;
    QuarterTurns();
    assert Pow2(0) == 1 && Pow2(1) == 2 && Pow2(2) == 4;
    forall q: nat | 2 <= q <= 2
      ensures Mul(FourPointForward(Pow2(q)), FourPointForward(Pow2(q))) == FourPointForward(Pow2(q - 1))
      ensures Mul(FourPointInverse(Pow2(q)), FourPointInverse(Pow2(q))) == FourPointInverse(Pow2(q - 1))
    {
    }
    forall q: nat | 1 <= q <= 2
      ensures Mul(FourPointForward(Pow2(q)), FourPointInverse(Pow2(q))) == ONE
    {
      assert q == 1 || q == 2;
    }
  }
}
