/** Exact complex arithmetic: the `std::complex<double>` of the transform, over the reals. */
module Complex {

  datatype Cplx = Cplx(re: real, im: real)

  const ZERO := Cplx(0.0, 0.0)
  const ONE := Cplx(1.0, 0.0)
  const MINUS_ONE := Cplx(-1.0, 0.0)

  function Add(a: Cplx, b: Cplx): Cplx {
    Cplx(a.re + b.re, a.im + b.im)
  }

  function Sub(a: Cplx, b: Cplx): Cplx {
    Cplx(a.re - b.re, a.im - b.im)
  }

  function Neg(a: Cplx): Cplx {
    Cplx(-a.re, -a.im)
  }

  function Mul(a: Cplx, b: Cplx): Cplx {
    Cplx(a.re * b.re - a.im * b.im, a.re * b.im + a.im * b.re)
  }

  /** Multiplication by a real (a window tap, the 1/N of the inverse transform). */
  function Scale(r: real, a: Cplx): Cplx {
    Cplx(r * a.re, r * a.im)
  }

  /** `std::norm`: the squared magnitude. */
  function Norm(a: Cplx): real {
    a.re * a.re + a.im * a.im
  }

  function Pow(z: Cplx, n: nat): Cplx {
    if n == 0 then ONE else Mul(Pow(z, n - 1), z)
  }

  lemma MulComm(a: Cplx, b: Cplx)
    ensures Mul(a, b) == Mul(b, a)
  {
  }

  lemma MulAssoc(a: Cplx, b: Cplx, c: Cplx)
    ensures Mul(Mul(a, b), c) == Mul(a, Mul(b, c))
  {
  }

  lemma MulDistrib(a: Cplx, b: Cplx, c: Cplx)
    ensures Mul(a, Add(b, c)) == Add(Mul(a, b), Mul(a, c))
    ensures Mul(Add(b, c), a) == Add(Mul(b, a), Mul(c, a))
  {
  }

  lemma {:induction false} MulOne(a: Cplx)
    ensures Mul(a, ONE) == a && Mul(ONE, a) == a
  {
  }

  lemma {:induction false} PowAdd(z: Cplx, m: nat, n: nat)
    ensures Pow(z, m + n) == Mul(Pow(z, m), Pow(z, n))
  {
    hide Mul;
    if n == 0 {
      MulOne(Pow(z, m));
    } else {
      PowAdd(z, m, n - 1);
      MulAssoc(Pow(z, m), Pow(z, n - 1), z);
    }
  }

  lemma {:induction false} PowMulBase(a: Cplx, b: Cplx, n: nat)
    ensures Pow(Mul(a, b), n) == Mul(Pow(a, n), Pow(b, n))
  {
    hide Mul;
    if n == 0 {
      MulOne(ONE);
    } else {
      PowMulBase(a, b, n - 1);
      var p, q := Pow(a, n - 1), Pow(b, n - 1);
      MulAssoc(p, q, Mul(a, b));
      MulAssoc(q, a, b);
      MulComm(q, a);
      MulAssoc(a, q, b);
      MulAssoc(p, a, Mul(q, b));
    }
  }

  lemma {:induction false} PowPow(z: Cplx, m: nat, n: nat)
    ensures Pow(Pow(z, m), n) == Pow(z, m * n)
  {
    hide Mul;
    if n == 0 {
      assert m * n == 0;
    } else {
      var below := m * (n - 1);
      assert m * n == below + m;
      PowPow(z, m, n - 1);
      PowAdd(z, below, m);
    }
  }

  lemma {:induction false} PowOfOne(n: nat)
    ensures Pow(ONE, n) == ONE
  {
    hide Mul;
    if n > 0 {
      PowOfOne(n - 1);
      MulOne(ONE);
    }
  }
}
