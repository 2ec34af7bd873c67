/** Energy in time and frequency: the transform keeps it up to the length. */
module Parseval {
  import opened Basics
  import opened Complex
  import opened Dft
  import opened Fft

  function Energy(x: Signal): real {
    if x == [] then 0.0 else Energy(x[..|x| - 1]) + Norm(x[|x| - 1])
  }

  lemma NormMul(a: Cplx, b: Cplx)
    ensures Norm(Mul(a, b)) == Norm(a) * Norm(b)
  {
    var ac, bd, ad, bc := a.re * b.re, a.im * b.im, a.re * b.im, a.im * b.re;
    assert (ac - bd) * (ac - bd) + (ad + bc) * (ad + bc) == ac * ac + bd * bd + ad * ad + bc * bc - 2.0 * (ac * bd) + 2.0 * (ad * bc);
    FourProduct(a.re, b.re, a.im, b.im);
    FourProduct(a.re, b.im, a.im, b.re);
    FourProduct(a.re, b.re, a.re, b.re);
    FourProduct(a.im, b.im, a.im, b.im);
    FourProduct(a.re, b.im, a.re, b.im);
    FourProduct(a.im, b.re, a.im, b.re);
    assert (a.re * a.im) * (b.re * b.im) == (a.re * a.im) * (b.im * b.re);
    SquaresOut(a.re * a.re, a.im * a.im, b.re * b.re, b.im * b.im);
  }

  lemma FourProduct(a: real, b: real, c: real, d: real)
    ensures (a * b) * (c * d) == (a * c) * (b * d)
  {
  }

  lemma SquaresOut(a: real, b: real, c: real, d: real)
    ensures (a + b) * (c + d) == a * c + a * d + b * c + b * d
  {
  }

  lemma {:induction false} UnitPow(w: Cplx, k: nat)
    requires Norm(w) == 1.0
    ensures Norm(Pow(w, k)) == 1.0
  {
    hide Mul, Norm;
    if k > 0 {
      UnitPow(w, k - 1);
      NormMul(Pow(w, k - 1), w);
    } else {
      assert Norm(ONE) == 1.0 by {
        NormOfOne();
      }
    }
  }

  lemma NormOfOne()
    ensures Norm(ONE) == 1.0 == Norm(MINUS_ONE)
  {
  }

  /** The steps of a family lie on the unit circle: their squares come down to -1. */
  lemma {:induction false} UnitRoot(root: nat -> Cplx, p: nat)
    requires p >= 1 && RootFamily(root, p)
    ensures Norm(root(Pow2(p))) == 1.0
    decreases p
  {
    hide Mul, Norm;
    if p == 1 {
      assert Pow2(0) == 1 && Pow2(1) == 2;
      NormOfOne();
    } else {
      UnitRoot(root, p - 1);
      var r := root(Pow2(p));
      assert Mul(r, r) == root(Pow2(p - 1));
      NormMul(r, r);
      NormPositive(r);
      OneSquared(Norm(r));
    }
  }

  lemma NormPositive(a: Cplx)
    ensures Norm(a) >= 0.0
  {
  }

  lemma OneSquared(r: real)
    requires r >= 0.0 && r * r == 1.0
    ensures r == 1.0
  {
    if r < 1.0 {
      SquareBelow(r, 1.0);
    } else if r > 1.0 {
      SquareBelow(1.0, r);
    }
  }

  // ---- Sums over halves ----

  lemma {:induction false} EnergyHalves(x: Signal, m: nat)
    requires m <= |x|
    ensures Energy(x) == Energy(x[..m]) + Energy(x[m..])
    decreases |x|
  {
    hide Norm;
    if m == |x| {
      assert x[..m] == x && x[m..] == [];
    } else {
      var front := x[..|x| - 1];
      EnergyHalves(front, m);
      assert front[..m] == x[..m] && front[m..] == x[m..][..|x[m..]| - 1];
    }
  }

  lemma {:induction false} EnergySplit(x: Signal, m: nat)
    requires |x| == 2 * m
    ensures Energy(x) == Energy(Evens(x)) + Energy(Odds(x))
    decreases m
  {
    hide Norm;
    if m > 0 {
      var front := x[..2 * m - 2];
      EnergySplit(front, m - 1);
      assert x[..2 * m - 1][..2 * m - 2] == front;
      assert Evens(x)[..m - 1] == Evens(front) && Odds(x)[..m - 1] == Odds(front);
    }
  }

  lemma PairEnergy(a: Cplx, b: Cplx)
    ensures Norm(Add(a, b)) + Norm(Sub(a, b)) == 2.0 * (Norm(a) + Norm(b))
  {
  }

  /** The two outputs of the butterflies carry twice the energy of the two inputs. */
  lemma {:induction false} PairsEnergy(y: Signal, e: Signal, o: Signal, w: Cplx, m: nat, n: nat)
    requires |y| == 2 * m && |e| == |o| == m && n <= m && Norm(w) == 1.0
    requires forall k | 0 <= k < m :: y[k] == Add(e[k], Mul(o[k], Pow(w, k))) && y[k + m] == Sub(e[k], Mul(o[k], Pow(w, k)))
    ensures Energy(y[..n]) + Energy(y[m..m + n]) == 2.0 * (Energy(e[..n]) + Energy(o[..n]))
    decreases n
  {
    hide Mul, Add, Sub, Pow, Norm;
    if n > 0 {
      var k := n - 1;
      PairsEnergy(y, e, o, w, m, k);
      assert y[..n][..k] == y[..k] && y[m..m + n][..k] == y[m..m + k] && e[..n][..k] == e[..k] && o[..n][..k] == o[..k];
      assert y[m..m + n][k] == y[k + m];
      PairEnergy(e[k], Mul(o[k], Pow(w, k)));
      NormMul(o[k], Pow(w, k));
      UnitPow(w, k);
    }
  }

  /** Parseval's law at every power of two. */
  lemma {:induction false} TransformEnergy(x: Signal, w: Cplx, p: nat)
    requires |x| == Pow2(p) && Norm(w) == 1.0
    requires p >= 1 ==> HalfTurn(w, Pow2(p - 1))
    ensures Energy(Transform(x, w)) == Pow2(p) as real * Energy(x)
    decreases p
  {
    hide Mul, Add, Sub, Pow, Norm, Bin, Energy;
    if p == 0 {
      SingleSample(x, w);
    } else {
      var m, ww, y := Pow2(p - 1), Mul(w, w), Transform(x, w);
      var e, o := Transform(Evens(x), ww), Transform(Odds(x), ww);
      NormMul(w, w);
      if p >= 2 {
        SquareHalfTurn(w, Pow2(p - 2));
      }
      TransformEnergy(Evens(x), ww, p - 1);
      TransformEnergy(Odds(x), ww, p - 1);
      forall k | 0 <= k < m
        ensures y[k] == Add(e[k], Mul(o[k], Pow(w, k))) && y[k + m] == Sub(e[k], Mul(o[k], Pow(w, k)))
      {
        DanielsonLanczos(x, w, m, k);
      }
      PairsEnergy(y, e, o, w, m, m);
      EnergyHalves(y, m);
      EnergySplit(x, m);
      assert y[m..m + m] == y[m..] && e[..m] == e && o[..m] == o;
    }
  }

  /** The spectrum of a signal carries its energy times its length. */
  lemma SpectrumEnergy(x: Signal, fwd: nat -> Cplx, p: nat)
    requires p >= 1 && |x| == Pow2(p) && RootFamily(fwd, p)
    ensures Energy(Spectrum(x, fwd)) == |x| as real * Energy(x)
  {
    hide Mul, Pow, Norm, Energy, Transform, RootFamily;
    FamilyHalfTurn(fwd, p);
    UnitRoot(fwd, p);
    TransformEnergy(x, fwd(|x|), p);
  }
}
