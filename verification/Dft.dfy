/** The textbook discrete Fourier transform, its radix-2 splitting and its inverse. */
module Dft {
  import opened Basics
  import opened Complex

  type Signal = seq<Cplx>

  /**
   * `root(len)` stands for the twiddle step `wlen` of a stage. The trigonometry is replaced by
   * the two facts the transform rests on: the step of length 2 is -1, and the square of a step
   * is the step of half the length.
   */
  ghost predicate RootFamily(root: nat -> Cplx, p: nat) {
    && root(2) == MINUS_ONE
    && forall q: nat | 2 <= q <= p :: Mul(root(Pow2(q)), root(Pow2(q))) == root(Pow2(q - 1))
  }

  /** The steps of the two directions are the exponentials of opposite angles. */
  ghost predicate Opposite(fwd: nat -> Cplx, inv: nat -> Cplx, p: nat) {
    forall q: nat | 1 <= q <= p :: Mul(fwd(Pow2(q)), inv(Pow2(q))) == ONE
  }

  /** The sum over `j < n` of `x[j] * w^(j*k)`. */
  function Bin(x: Signal, w: Cplx, k: nat, n: nat): Cplx
    requires n <= |x|
  {
    if n == 0 then ZERO else Add(Bin(x, w, k, n - 1), Mul(x[n - 1], Pow(w, (n - 1) * k)))
  }

  function Transform(x: Signal, w: Cplx): (r: Signal)
    ensures |r| == |x|
  {
    seq(|x|, k requires 0 <= k < |x| => Bin(x, w, k, |x|))
  }

  function Scaled(r: real, x: Signal): (s: Signal)
    ensures |s| == |x|
  {
    seq(|x|, k requires 0 <= k < |x| => Scale(r, x[k]))
  }

  // ---- A bin is a polynomial in w^k ----

  function Eval(x: Signal, z: Cplx, n: nat): Cplx
    requires n <= |x|
  {
    if n == 0 then ZERO else Add(Eval(x, z, n - 1), Mul(x[n - 1], Pow(z, n - 1)))
  }

  lemma {:induction false} BinIsEval(x: Signal, w: Cplx, k: nat, n: nat)
    requires n <= |x|
    ensures Bin(x, w, k, n) == Eval(x, Pow(w, k), n)
  {
    hide Mul, Add, Pow;
    if n > 0 {
      BinIsEval(x, w, k, n - 1);
      PowPow(w, k, n - 1);
      assert k * (n - 1) == (n - 1) * k;
    }
  }

  // ---- Decimation: even and odd samples ----

  function Evens(x: Signal): (r: Signal)
    ensures |r| == |x| / 2
  {
    seq(|x| / 2, i requires 0 <= i < |x| / 2 => x[2 * i])
  }

  function Odds(x: Signal): (r: Signal)
    ensures |r| == |x| / 2
  {
    seq(|x| / 2, i requires 0 <= i < |x| / 2 => x[2 * i + 1])
  }

  lemma {:induction false} PowEvenOdd(z: Cplx, j: nat)
    ensures Pow(z, 2 * j) == Pow(Mul(z, z), j)
    ensures Pow(z, 2 * j + 1) == Mul(z, Pow(Mul(z, z), j))
  {
    PowPow(z, 2, j);
    assert Pow(z, 2) == Mul(z, z) by {
      assert Pow(z, 1) == Mul(Pow(z, 0), z);
      MulOne(z);
    }
    hide Mul;
    MulComm(z, Pow(z, 2 * j));
  }

  lemma MulZero(z: Cplx)
    ensures Mul(z, ZERO) == ZERO && Mul(ZERO, z) == ZERO
  {
  }

  lemma {:induction false} EvalSplit(x: Signal, z: Cplx, j: nat)
    requires 2 * j <= |x|
    ensures Eval(x, z, 2 * j)
         == Add(Eval(Evens(x), Mul(z, z), j), Mul(z, Eval(Odds(x), Mul(z, z), j)))
  {
    if j == 0 {
      MulZero(z);
    } else {
      hide Mul, Eval;
      EvalSplit(x, z, j - 1);
      EvalSplitStep(x, z, j - 1);
      assert 2 * (j - 1) + 2 == 2 * j;
    }
  }

  lemma EvalSplitStep(x: Signal, z: Cplx, i: nat)
    requires 2 * i + 2 <= |x|
    requires Eval(x, z, 2 * i)
          == Add(Eval(Evens(x), Mul(z, z), i), Mul(z, Eval(Odds(x), Mul(z, z), i)))
    ensures Eval(x, z, 2 * i + 2)
         == Add(Eval(Evens(x), Mul(z, z), i + 1), Mul(z, Eval(Odds(x), Mul(z, z), i + 1)))
  {
    hide Mul, Add, Pow;
    var zz := Mul(z, z);
    var e, o := Eval(Evens(x), zz, i), Eval(Odds(x), zz, i);
    var a, b, t := x[2 * i], x[2 * i + 1], Pow(zz, i);
    PowEvenOdd(z, i);
    assert Eval(x, z, 2 * i + 1) == Add(Eval(x, z, 2 * i), Mul(a, t));
    assert Eval(x, z, 2 * i + 2) == Add(Eval(x, z, 2 * i + 1), Mul(b, Mul(z, t)));
    Rearrange(e, o, z, a, b, t);
  }

  lemma Rearrange(e: Cplx, o: Cplx, z: Cplx, a: Cplx, b: Cplx, t: Cplx)
    ensures Add(Add(Add(e, Mul(z, o)), Mul(a, t)), Mul(b, Mul(z, t)))
         == Add(Add(e, Mul(a, t)), Mul(z, Add(o, Mul(b, t))))
  {
    MulDistrib(z, o, Mul(b, t));
    MulAssoc(b, z, t);
    MulComm(b, z);
    MulAssoc(z, b, t);
    hide Mul;
  }

  // ---- The Danielson-Lanczos step ----

  /** Half a turn of the step of a signal of length 2m; it makes the two halves of the spectrum mirror. */
  ghost predicate HalfTurn(w: Cplx, m: nat) {
    Pow(w, m) == MINUS_ONE
  }

  lemma MulMinusOne(a: Cplx)
    ensures Mul(a, MINUS_ONE) == Neg(a) && Mul(MINUS_ONE, a) == Neg(a)
  {
  }

  lemma NegSquare(a: Cplx, b: Cplx)
    ensures Mul(Neg(a), Neg(a)) == Mul(a, a)
    ensures Mul(Neg(a), b) == Neg(Mul(a, b)) == Mul(a, Neg(b))
  {
  }

  lemma AddNeg(a: Cplx, b: Cplx)
    ensures Add(a, Neg(b)) == Sub(a, b)
  {
  }

  lemma DanielsonLanczos(x: Signal, w: Cplx, m: nat, k: nat)
    requires |x| == 2 * m && k < m && HalfTurn(w, m)
    ensures var e, o := Transform(Evens(x), Mul(w, w))[k], Mul(Transform(Odds(x), Mul(w, w))[k], Pow(w, k));
            && Transform(x, w)[k] == Add(e, o)
            && Transform(x, w)[k + m] == Sub(e, o)
  {
    hide Mul, Add, Pow, Eval, Bin;
    var z, ww := Pow(w, k), Mul(w, w);
    BinIsEval(x, w, k, 2 * m);
    BinIsEval(x, w, k + m, 2 * m);
    BinIsEval(Evens(x), ww, k, m);
    BinIsEval(Odds(x), ww, k, m);
    PowMulBase(w, w, k);
    EvalSplit(x, z, m);
    PowAdd(w, k, m);
    MulMinusOne(z);
    EvalSplit(x, Neg(z), m);
    NegSquare(z, Eval(Odds(x), Mul(z, z), m));
    MulComm(z, Eval(Odds(x), Mul(z, z), m));
    AddNeg(Eval(Evens(x), Mul(z, z), m), Mul(z, Eval(Odds(x), Mul(z, z), m)));
  }

  // ---- Roots: the half turn, for both directions and every length ----

  lemma {:induction false} FamilyHalfTurn(root: nat -> Cplx, p: nat)
    requires p >= 1 && RootFamily(root, p)
    ensures HalfTurn(root(Pow2(p)), Pow2(p - 1))
  {
    hide Mul;
    if p == 1 {
      assert Pow2(1) == 2 && Pow2(0) == 1;
      assert Pow(root(2), 1) == Mul(Pow(root(2), 0), root(2));
      MulOne(root(2));
    } else {
      FamilyHalfTurn(root, p - 1);
      PowEvenOdd(root(Pow2(p)), Pow2(p - 2));
    }
  }

  lemma InverseHalfTurn(w: Cplx, v: Cplx, m: nat)
    requires HalfTurn(w, m) && Mul(w, v) == ONE
    ensures HalfTurn(v, m)
  {
    hide Mul;
    PowMulBase(w, v, m);
    PowOfOne(m);
    MulMinusOne(Pow(v, m));
  }

  lemma SquareHalfTurn(w: Cplx, m: nat)
    requires HalfTurn(w, 2 * m)
    ensures HalfTurn(Mul(w, w), m)
  {
    PowEvenOdd(w, m);
  }

  // ---- Inversion ----

  lemma {:induction false} EvalHalves(x: Signal, z: Cplx, m: nat, i: nat)
    requires m + i <= |x|
    ensures Eval(x, z, m + i) == Add(Eval(x, z, m), Mul(Pow(z, m), Eval(x[m..], z, i)))
  {
    hide Mul, Pow;
    var zm := Pow(z, m);
    if i == 0 {
      MulZero(zm);
    } else {
      EvalHalves(x, z, m, i - 1);
      PowAdd(z, m, i - 1);
      var c, t := x[m + i - 1], Pow(z, i - 1);
      MulAssoc(c, zm, t);
      MulComm(c, zm);
      MulAssoc(zm, c, t);
      MulDistrib(zm, Eval(x[m..], z, i - 1), Mul(c, t));
    }
  }

  lemma {:induction false} EvalSums(x: Signal, y: Signal, e: Signal, z: Cplx, i: nat)
    requires i <= |x| && i <= |y| && i <= |e|
    requires forall k | 0 <= k < i :: Add(x[k], y[k]) == Scale(2.0, e[k])
    ensures Add(Eval(x, z, i), Eval(y, z, i)) == Scale(2.0, Eval(e, z, i))
  {
    if i > 0 {
      EvalSums(x, y, e, z, i - 1);
      var t := Pow(z, i - 1);
      assert Add(Mul(x[i - 1], t), Mul(y[i - 1], t)) == Scale(2.0, Mul(e[i - 1], t)) by {
        MulDistrib(t, x[i - 1], y[i - 1]);
        ScaleMul(2.0, e[i - 1], t);
      }
      hide Mul, Pow;
    }
  }

  lemma ScaleMul(r: real, a: Cplx, b: Cplx)
    ensures Mul(Scale(r, a), b) == Scale(r, Mul(a, b))
  {
  }

  lemma SubMul(a: Cplx, b: Cplx, t: Cplx)
    ensures Sub(Mul(a, t), Mul(b, t)) == Mul(Sub(a, b), t)
  {
  }

  lemma DifferenceTerm(a: Cplx, b: Cplx, c: Cplx, w: Cplx, v: Cplx, t: Cplx, k: nat)
    requires Mul(w, v) == ONE && Sub(a, b) == Scale(2.0, Mul(c, Pow(w, k)))
    ensures Sub(Mul(a, Pow(Mul(v, t), k)), Mul(b, Pow(Mul(v, t), k))) == Scale(2.0, Mul(c, Pow(t, k)))
  {
    hide Mul, Pow, Scale, Sub;
    var wk, vk, tk := Pow(w, k), Pow(v, k), Pow(t, k);
    PowMulBase(v, t, k);
    SubMul(a, b, Mul(vk, tk));
    ScaleMul(2.0, Mul(c, wk), Mul(vk, tk));
    MulAssoc(c, wk, Mul(vk, tk));
    MulAssoc(wk, vk, tk);
    PowMulBase(w, v, k);
    PowOfOne(k);
    MulOne(tk);
  }

  lemma SubSums(a: Cplx, a': Cplx, b: Cplx, b': Cplx, c: Cplx, c': Cplx)
    requires Sub(a, b) == Scale(2.0, c) && Sub(a', b') == Scale(2.0, c')
    ensures Sub(Add(a, a'), Add(b, b')) == Scale(2.0, Add(c, c'))
  {
  }

  lemma {:induction false} EvalDifferences(x: Signal, y: Signal, o: Signal, w: Cplx, v: Cplx, t: Cplx, i: nat)
    requires i <= |x| && i <= |y| && i <= |o|
    requires Mul(w, v) == ONE
    requires forall k | 0 <= k < i :: Sub(x[k], y[k]) == Scale(2.0, Mul(o[k], Pow(w, k)))
    ensures Sub(Eval(x, Mul(v, t), i), Eval(y, Mul(v, t), i)) == Scale(2.0, Eval(o, t, i))
  {
    hide Mul, Pow;
    if i == 0 {
      assert Sub(ZERO, ZERO) == Scale(2.0, ZERO);
    } else {
      hide Add, Sub, Scale;
      EvalDifferences(x, y, o, w, v, t, i - 1);
      DifferenceTerm(x[i - 1], y[i - 1], o[i - 1], w, v, t, i - 1);
      var z, j := Mul(v, t), i - 1;
      SubSums(Eval(x, z, j), Mul(x[j], Pow(z, j)), Eval(y, z, j), Mul(y[j], Pow(z, j)),
              Eval(o, t, j), Mul(o[j], Pow(t, j)));
    }
  }

  /** The butterflies give twice the half-length spectra as sum and difference. */
  lemma SumAndDifference(a: Cplx, b: Cplx)
    ensures Add(Add(a, b), Sub(a, b)) == Scale(2.0, a)
    ensures Sub(Add(a, b), Sub(a, b)) == Scale(2.0, b)
  {
  }

  lemma ScaleScale(r: real, s: real, a: Cplx)
    ensures Scale(r, Scale(s, a)) == Scale(r * s, a)
  {
  }

  /** A whole number of turns, and one half turn more. */
  lemma Turns(v: Cplx, m: nat, j: nat)
    requires HalfTurn(v, m)
    ensures Pow(Pow(v, 2 * j), m) == ONE
    ensures Pow(Pow(v, 2 * j + 1), m) == MINUS_ONE
  {
    hide Mul;
    PowPow(v, 2 * j, m);
    PowPow(v, m, 2 * j);
    assert 2 * j * m == m * (2 * j);
    PowPow(v, 2 * j + 1, m);
    PowPow(v, m, 2 * j + 1);
    assert (2 * j + 1) * m == m * (2 * j + 1);
    PowEvenOdd(MINUS_ONE, j);
    MulMinusOne(MINUS_ONE);
    PowOfOne(j);
    MulOne(MINUS_ONE);
  }

  /** An even sample of the inverse transform comes from the even samples alone. */
  lemma InverseEven(x: Signal, w: Cplx, v: Cplx, m: nat, j: nat)
    requires |x| == 2 * m && j < m && HalfTurn(w, m) && HalfTurn(v, m)
    ensures Transform(Transform(x, w), v)[2 * j]
         == Scale(2.0, Transform(Transform(Evens(x), Mul(w, w)), Mul(v, v))[j])
  {
    hide Mul, Add, Sub, Scale, Pow, Eval, Bin;
    var X, E := Transform(x, w), Transform(Evens(x), Mul(w, w));
    var z := Pow(v, 2 * j);
    forall k | 0 <= k < m
      ensures Add(X[k], X[m..][k]) == Scale(2.0, E[k])
    {
      DanielsonLanczos(x, w, m, k);
      SumAndDifference(E[k], Mul(Transform(Odds(x), Mul(w, w))[k], Pow(w, k)));
    }
    EvalSums(X, X[m..], E, z, m);
    EvalHalves(X, z, m, m);
    Turns(v, m, j);
    MulOne(Eval(X[m..], z, m));
    PowEvenOdd(v, j);
    BinIsEval(X, v, 2 * j, 2 * m);
    BinIsEval(E, Mul(v, v), j, m);
  }

  /** An odd sample comes from the odd samples alone: the twiddle and its inverse cancel. */
  lemma InverseOdd(x: Signal, w: Cplx, v: Cplx, m: nat, j: nat)
    requires |x| == 2 * m && j < m && HalfTurn(w, m) && HalfTurn(v, m) && Mul(w, v) == ONE
    ensures Transform(Transform(x, w), v)[2 * j + 1]
         == Scale(2.0, Transform(Transform(Odds(x), Mul(w, w)), Mul(v, v))[j])
  {
    hide Mul, Add, Sub, Scale, Pow, Eval, Bin;
    var X, O := Transform(x, w), Transform(Odds(x), Mul(w, w));
    var t := Pow(Mul(v, v), j);
    forall k | 0 <= k < m
      ensures Sub(X[k], X[m..][k]) == Scale(2.0, Mul(O[k], Pow(w, k)))
    {
      DanielsonLanczos(x, w, m, k);
      SumAndDifference(Transform(Evens(x), Mul(w, w))[k], Mul(O[k], Pow(w, k)));
    }
    EvalDifferences(X, X[m..], O, w, v, t, m);
    PowEvenOdd(v, j);
    EvalHalves(X, Mul(v, t), m, m);
    Turns(v, m, j);
    MulMinusOne(Eval(X[m..], Mul(v, t), m));
    AddNeg(Eval(X, Mul(v, t), m), Eval(X[m..], Mul(v, t), m));
    BinIsEval(X, v, 2 * j + 1, 2 * m);
    BinIsEval(O, Mul(v, v), j, m);
  }

  lemma MulSwap(w: Cplx, v: Cplx)
    requires Mul(w, v) == ONE
    ensures Mul(Mul(w, w), Mul(v, v)) == ONE
  {
    hide Mul;
    MulAssoc(w, w, Mul(v, v));
    MulAssoc(w, v, v);
    MulOne(v);
  }

  lemma InversionAt(x: Signal, w: Cplx, v: Cplx, m: nat, n: nat)
    requires |x| == 2 * m && n < |x| && HalfTurn(w, m) && HalfTurn(v, m) && Mul(w, v) == ONE
    requires Transform(Transform(Evens(x), Mul(w, w)), Mul(v, v)) == Scaled(m as real, Evens(x))
    requires Transform(Transform(Odds(x), Mul(w, w)), Mul(v, v)) == Scaled(m as real, Odds(x))
    ensures Transform(Transform(x, w), v)[n] == Scale((2 * m) as real, x[n])
  {
    hide Mul, Transform, HalfTurn, Scale;
    var j := n / 2;
    if n == 2 * j {
      InverseEven(x, w, v, m, j);
    } else {
      assert n == 2 * j + 1;
      InverseOdd(x, w, v, m, j);
    }
    ScaleScale(2.0, m as real, x[n]);
  }

  /** The opposite transform undoes the transform up to the length. */
  lemma {:induction false} Inversion(x: Signal, w: Cplx, v: Cplx, p: nat)
    requires |x| == Pow2(p) && Mul(w, v) == ONE
    requires p >= 1 ==> HalfTurn(w, Pow2(p - 1))
    ensures Transform(Transform(x, w), v) == Scaled(Pow2(p) as real, x)
    decreases p
  {
    if p == 0 {
      SingleSample(x, w);
      SingleSample(x, v);
    } else {
      hide Mul, Transform, HalfTurn, Scale;
      var m := Pow2(p - 1);
      InverseHalfTurn(w, v, m);
      MulSwap(w, v);
      if p >= 2 {
        SquareHalfTurn(w, Pow2(p - 2));
      }
      Inversion(Evens(x), Mul(w, w), Mul(v, v), p - 1);
      Inversion(Odds(x), Mul(w, w), Mul(v, v), p - 1);
      forall n | 0 <= n < |x|
        ensures Transform(Transform(x, w), v)[n] == Scale(Pow2(p) as real, x[n])
      {
        InversionAt(x, w, v, m, n);
      }
    }
  }

  lemma SingleSample(x: Signal, w: Cplx)
    requires |x| == 1
    ensures Transform(x, w) == x
    ensures Scaled(1.0, x) == x
  {
    assert Bin(x, w, 0, 1) == Add(Bin(x, w, 0, 0), Mul(x[0], Pow(w, 0)));
    MulOne(x[0]);
  }
}
