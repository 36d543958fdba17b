/** Complex numbers over the reals, as the live `number` module defines them,
    together with the `Number` wrapper and its additions.

    Every scalar type `F: Float` of the crate (f32, f64) becomes `real`, so a
    `Complex<F>` is a pair of reals. The binary operators are functions; the
    compound assignments, which update `re` and `im` in place, are methods of
    the class `ComplexPlace`. */
module Number {
  import opened Outcomes

  datatype Complex = Complex(re: real, im: real)

  /** `Complex::ZERO`. */
  const Zero := Complex(0.0, 0.0)

  /** `Complex::ONE`. */
  const One := Complex(1.0, 0.0)

  /** `re.powi(2) + im.powi(2)`: the squared modulus, the denominator of
      complex division. */
  function Norm(w: Complex): real
  {
    w.re * w.re + w.im * w.im
  }

  // ---------------------------------------------------------------------
  // Binary operators.
  // ---------------------------------------------------------------------

  /** `Complex + Complex`. */
  function Add(z: Complex, w: Complex): Complex
  {
    Complex(z.re + w.re, z.im + w.im)
  }

  /** `Complex + F`. */
  function AddScalar(z: Complex, s: real): Complex
  {
    Complex(z.re + s, z.im)
  }

  /** `f64 + Complex<f64>` and `f32 + Complex<f32>`. */
  function ScalarAdd(s: real, z: Complex): Complex
  {
    Complex(s + z.re, z.im)
  }

  /** `Complex - Complex`. */
  function Sub(z: Complex, w: Complex): Complex
  {
    Complex(z.re - w.re, z.im - w.im)
  }

  /** `Complex - F`. */
  function SubScalar(z: Complex, s: real): Complex
  {
    Complex(z.re - s, z.im)
  }

  /** `f64 - Complex<f64>` and `f32 - Complex<f32>`. */
  function ScalarSub(s: real, z: Complex): Complex
  {
    Complex(s - z.re, -z.im)
  }

  /** `Complex * Complex`. */
  function Mul(z: Complex, w: Complex): Complex
  {
    Complex(z.re * w.re - z.im * w.im, z.re * w.im + z.im * w.re)
  }

  /** `Complex * F`. */
  function MulScalar(z: Complex, s: real): Complex
  {
    Complex(z.re * s, z.im * s)
  }

  /** `f64 * Complex<f64>` and `f32 * Complex<f32>`. */
  function ScalarMul(s: real, z: Complex): Complex
  {
    Complex(s * z.re, s * z.im)
  }

  /** `Complex / Complex`, through the denominator `re.powi(2) + im.powi(2)`.
      In floating point that denominator is zero at ZERO and also wherever
      both squares underflow, and the quotient is then NaN or infinite; the
      model divides only where the denominator is nonzero. */
  function Div(z: Complex, w: Complex): Complex
    requires Norm(w) != 0.0
  {
    Complex((z.re * w.re + z.im * w.im) / Norm(w), (z.im * w.re - z.re * w.im) / Norm(w))
  }

  /** `Complex / F`. */
  function DivScalar(z: Complex, s: real): Complex
    requires s != 0.0
  {
    Complex(z.re / s, z.im / s)
  }

  /** `f64 / Complex<f64>` and `f32 / Complex<f32>`, over the same
      denominator as `Complex / Complex`. */
  function ScalarDiv(s: real, w: Complex): Complex
    requires Norm(w) != 0.0
  {
    Complex((s * w.re) / Norm(w), -(s * w.im) / Norm(w))
  }

  /** `-Complex`. */
  function Neg(z: Complex): Complex
  {
    Complex(-z.re, -z.im)
  }

  /** `From<F> for Complex<F>`. */
  function FromReal(s: real): Complex
  {
    Complex(s, 0.0)
  }

  /** `From<(F, F)> for Complex<F>`. */
  function FromPair(a: real, b: real): Complex
  {
    Complex(a, b)
  }

  /** `From<[F; 2]> for Complex<F>`. */
  function FromArray(b: seq<real>): Complex
    requires |b| == 2
  {
    Complex(b[0], b[1])
  }

  /** The conversions agree: an array and a pair of the same two reals give
      the same number, and a real is the pair with a zero imaginary part. */
  lemma ConversionsAgree(a: real, b: real)
    ensures FromArray([a, b]) == FromPair(a, b)
    ensures FromPair(a, b).re == a && FromPair(a, b).im == b
    ensures FromReal(a) == FromPair(a, 0.0)
  {
  }

  /** A nonzero square is positive. */
  lemma SquarePositive(x: real)
    requires x != 0.0
    ensures x * x > 0.0
  {
    if x < 0.0 {
      assert x * x == (-x) * (-x);
      assert (-x) * (-x) > 0.0;
    }
  }

  /** A square is never negative. */
  lemma SquareNonNegative(x: real)
    ensures x * x >= 0.0
  {
    if x != 0.0 {
      SquarePositive(x);
    }
  }

  /** The squared modulus is never negative. */
  lemma NormNonNegative(w: Complex)
    ensures Norm(w) >= 0.0
  {
    SquareNonNegative(w.re);
    SquareNonNegative(w.im);
  }

  /** Away from ZERO the sum of the squares of the components is positive. */
  lemma NormPositive(w: Complex)
    requires w != Zero
    ensures w.re * w.re + w.im * w.im > 0.0
  {
    if w.re != 0.0 {
      SquarePositive(w.re);
      SquareNonNegative(w.im);
    } else {
      SquarePositive(w.im);
      SquareNonNegative(w.re);
    }
  }

  // ---------------------------------------------------------------------
  // Magnitude, normalisation and powers.
  // ---------------------------------------------------------------------

  /** `magnitude`: `(re.powi(2) + im.powi(2)).powi(2)`, the square of the
      squared modulus, and never negative. */
  function Magnitude(z: Complex): (r: real)
    ensures r >= 0.0
  {
    SquareNonNegative(Norm(z));
    Norm(z) * Norm(z)
  }

  /** On the real axis the magnitude is the fourth power of the number. */
  lemma MagnitudeOfReal(x: real)
    ensures Magnitude(FromReal(x)) == x * x * x * x
  {
  }

  /** `normalize`: both components divided by the magnitude. At ZERO, or
      wherever the magnitude underflows, the crate divides by zero; the model
      divides only where the magnitude is nonzero. */
  function Normalize(z: Complex): Complex
    requires Magnitude(z) != 0.0
  {
    Complex(z.re / Magnitude(z), z.im / Magnitude(z))
  }

  /** `normalize` is scaling by the reciprocal of the magnitude, so it keeps
      the direction of `z`. */
  lemma {:induction false} NormalizeScales(z: Complex)
    requires Magnitude(z) != 0.0
    ensures Normalize(z) == MulScalar(z, 1.0 / Magnitude(z))
    ensures Mul(Normalize(z), FromReal(Magnitude(z))) == z
  {
    var m := Magnitude(z);
    assert z.re / m == z.re * (1.0 / m);
    assert z.im / m == z.im * (1.0 / m);
    assert (z.re / m) * m == z.re;
    assert (z.im / m) * m == z.im;
  }

  /** An example: the magnitude of 2 is 16, so `normalize` maps 2 to 1/8. */
  lemma NormalizeOfTwo()
    ensures Magnitude(FromReal(2.0)) == 16.0
    ensures Normalize(FromReal(2.0)) == FromReal(0.125)
  {
  }

  /** `z` multiplied by itself `k` times, starting from ONE. */
  function Pow(z: Complex, k: nat): Complex
  {
    if k == 0 then One else Mul(Pow(z, k - 1), z)
  }

  /** `powi`: starting from ONE, `result *= self` once for each step of
      `0..power`; for a power of zero or below the range is empty. */
  method Powi(z: Complex, power: int) returns (r: Complex)
    ensures r == Pow(z, if power > 0 then power else 0)
  {
    r := One;
    var k := 0;
    while k < power
      invariant 0 <= k && (k == 0 || k <= power)
      invariant r == Pow(z, k)
      decreases power - k
    {
      r := Mul(r, z);
      k := k + 1;
    }
  }

  /** ONE is a unit of the product. */
  lemma MulOne(z: Complex)
    ensures Mul(z, One) == z && Mul(One, z) == z
  {
  }

  /** The product is commutative. */
  lemma MulCommutes(z: Complex, w: Complex)
    ensures Mul(z, w) == Mul(w, z)
  {
  }

  /** The product is associative. */
  lemma MulAssociates(z: Complex, w: Complex, v: Complex)
    ensures Mul(Mul(z, w), v) == Mul(z, Mul(w, v))
  {
    var p, q := Mul(Mul(z, w), v), Mul(z, Mul(w, v));
    assert p.re == z.re * w.re * v.re - z.im * w.im * v.re - z.re * w.im * v.im - z.im * w.re * v.im;
    assert q.re == z.re * w.re * v.re - z.im * w.im * v.re - z.re * w.im * v.im - z.im * w.re * v.im;
    assert p.im == z.re * w.re * v.im - z.im * w.im * v.im + z.re * w.im * v.re + z.im * w.re * v.re;
    assert q.im == z.re * w.re * v.im - z.im * w.im * v.im + z.re * w.im * v.re + z.im * w.re * v.re;
  }

  /** The product distributes over the sum. */
  lemma MulDistributes(z: Complex, w: Complex, v: Complex)
    ensures Mul(z, Add(w, v)) == Add(Mul(z, w), Mul(z, v))
  {
  }

  /** `powi(0)` is ONE for every base, zero included. */
  lemma PowZero(z: Complex)
    ensures Pow(z, 0) == One
  {
  }

  /** `powi(1)` is the base itself. */
  lemma PowOne(z: Complex)
    ensures Pow(z, 1) == z
  {
    MulOne(z);
  }

  /** Exponents add: `z^(a + b) = z^a * z^b`. */
  lemma {:induction false} PowAdd(z: Complex, a: nat, b: nat)
    ensures Pow(z, a + b) == Mul(Pow(z, a), Pow(z, b))
  {
    if b == 0 {
      MulOne(Pow(z, a));
    } else {
      PowAdd(z, a, b - 1);
      MulAssociates(Pow(z, a), Pow(z, b - 1), z);
    }
  }

  /** A positive power of ZERO is ZERO. */
  lemma {:induction false} PowOfZero(k: nat)
    requires k >= 1
    ensures Pow(Zero, k) == Zero
  {
    if k > 1 {
      PowOfZero(k - 1);
    }
  }

  /** The crate's `powi` tests on (3, 7) and (-11, -47). */
  lemma PowExamples()
    ensures Pow(Complex(3.0, 7.0), 2) == Complex(-40.0, 42.0)
    ensures Pow(Complex(3.0, 7.0), 3) == Complex(-414.0, -154.0)
    ensures Pow(Complex(3.0, 7.0), 4) == Complex(-164.0, -3360.0)
    ensures Pow(Complex(-11.0, -47.0), 2) == Complex(-2088.0, 1034.0)
    ensures Pow(Complex(-11.0, -47.0), 3) == Complex(71566.0, 86762.0)
    ensures Pow(Complex(-11.0, -47.0), 4) == Complex(3290588.0, -4317984.0)
  {
    assert Pow(Complex(3.0, 7.0), 1) == Complex(3.0, 7.0);
    assert Pow(Complex(-11.0, -47.0), 1) == Complex(-11.0, -47.0);
  }

  // ---------------------------------------------------------------------
  // Laws of the binary operators.
  // ---------------------------------------------------------------------

  /** The sum is commutative and associative, with ZERO as its unit. */
  lemma AddLaws(z: Complex, w: Complex, v: Complex)
    ensures Add(z, w) == Add(w, z)
    ensures Add(Add(z, w), v) == Add(z, Add(w, v))
    ensures Add(z, Zero) == z
  {
  }

  /** Adding or subtracting a real, on either side, is the same as doing so
      with the real promoted to `(s, 0)`, and leaves `im` untouched except
      that `s - z` negates it. */
  lemma ScalarAddSub(z: Complex, s: real)
    ensures AddScalar(z, s) == Add(z, FromReal(s)) && AddScalar(z, s).im == z.im
    ensures ScalarAdd(s, z) == Add(FromReal(s), z) && ScalarAdd(s, z) == AddScalar(z, s)
    ensures SubScalar(z, s) == Sub(z, FromReal(s)) && SubScalar(z, s).im == z.im
    ensures ScalarSub(s, z) == Sub(FromReal(s), z) && ScalarSub(s, z).im == -z.im
  {
  }

  /** Multiplying by a real scales both components and agrees with the
      complex product by `(s, 0)`; dividing by a nonzero real is undone by
      multiplying back. */
  lemma ScalarMulDiv(z: Complex, s: real)
    ensures MulScalar(z, s) == Mul(z, FromReal(s)) && ScalarMul(s, z) == MulScalar(z, s)
    ensures s != 0.0 ==> Mul(DivScalar(z, s), FromReal(s)) == z
  {
    if s != 0.0 {
      DivCancels(z.re, s);
      DivCancels(z.im, s);
    }
  }

  /** A common factor cancels: `(a * s) / (s * s) = a / s`. */
  lemma Cancel(a: real, s: real, d: real)
    requires s != 0.0 && d == s * s && d != 0.0
    ensures (a * s) / d == a / s
  {
    DivCancels(a * s, d);
    DivCancels(a, s);
    assert (a / s) * d == ((a / s) * s) * s;
    MulCancel((a * s) / d, a / s, d);
  }

  /** Dividing by a real is dividing by `(s, 0)`, wherever the complex
      division is defined. */
  lemma DivScalarPromotes(z: Complex, s: real)
    requires Norm(FromReal(s)) != 0.0
    ensures s != 0.0 && DivScalar(z, s) == Div(z, FromReal(s))
  {
    var d := Norm(FromReal(s));
    assert d == s * s;
    assert z.re * s + z.im * 0.0 == z.re * s;
    assert z.im * s - z.re * 0.0 == z.im * s;
    Cancel(z.re, s, d);
    Cancel(z.im, s, d);
  }

  /** Subtraction is addition of the negation, and `z - z` is ZERO. */
  lemma SubIsAddNeg(z: Complex, w: Complex)
    ensures Sub(z, w) == Add(z, Neg(w))
    ensures Sub(z, z) == Zero
  {
  }

  /** Negation flips both components, is an involution and is `ZERO - z`. */
  lemma NegLaws(z: Complex)
    ensures Neg(z).re == -z.re && Neg(z).im == -z.im
    ensures Neg(Neg(z)) == z
    ensures Neg(z) == Sub(Zero, z)
  {
  }

  /** Dividing by `d` and multiplying back by `d` cancels. */
  lemma DivCancels(n: real, d: real)
    requires d != 0.0
    ensures (n / d) * d == n
  {
  }

  /** A nonzero factor cancels from both sides of an equation. */
  lemma MulCancel(x: real, y: real, d: real)
    requires d != 0.0 && x * d == y * d
    ensures x == y
  {
    assert (x - y) * d == 0.0;
  }

  /** The real part of `(z / w) * w` is the real part of `z`. */
  lemma DivMulInverseRe(z: Complex, w: Complex)
    requires Norm(w) != 0.0
    ensures Div(z, w).re * w.re - Div(z, w).im * w.im == z.re
  {
    var d := Norm(w);
    var qr, qi := Div(z, w).re, Div(z, w).im;
    DivCancels(z.re * w.re + z.im * w.im, d);
    DivCancels(z.im * w.re - z.re * w.im, d);
    assert (qr * w.re - qi * w.im) * d == (qr * d) * w.re - (qi * d) * w.im;
    assert (z.re * w.re + z.im * w.im) * w.re - (z.im * w.re - z.re * w.im) * w.im == z.re * d;
    MulCancel(qr * w.re - qi * w.im, z.re, d);
  }

  /** The imaginary part of `(z / w) * w` is the imaginary part of `z`. */
  lemma DivMulInverseIm(z: Complex, w: Complex)
    requires Norm(w) != 0.0
    ensures Div(z, w).re * w.im + Div(z, w).im * w.re == z.im
  {
    var d := Norm(w);
    var qr, qi := Div(z, w).re, Div(z, w).im;
    DivCancels(z.re * w.re + z.im * w.im, d);
    DivCancels(z.im * w.re - z.re * w.im, d);
    assert (qr * w.im + qi * w.re) * d == (qr * d) * w.im + (qi * d) * w.re;
    assert (z.re * w.re + z.im * w.im) * w.im + (z.im * w.re - z.re * w.im) * w.re == z.im * d;
    MulCancel(qr * w.im + qi * w.re, z.im, d);
  }

  /** Division undoes multiplication: `(z / w) * w = z`. */
  lemma DivMulInverse(z: Complex, w: Complex)
    requires Norm(w) != 0.0
    ensures Mul(Div(z, w), w) == z
  {
    DivMulInverseRe(z, w);
    DivMulInverseIm(z, w);
  }

  /** `w / w` is ONE for every `w` the crate can divide by. */
  lemma DivSelf(w: Complex)
    requires Norm(w) != 0.0
    ensures Div(w, w) == One
  {
    assert w.im * w.re - w.re * w.im == 0.0;
  }

  /** A real divided by `w` is `(s, 0) / w`. */
  lemma ScalarDivPromotes(s: real, w: Complex)
    requires Norm(w) != 0.0
    ensures ScalarDiv(s, w) == Div(FromReal(s), w)
  {
    assert s * w.re + 0.0 * w.im == s * w.re;
    assert 0.0 * w.re - s * w.im == -(s * w.im);
  }

  /** The crate's operator tests. */
  lemma OperatorExamples()
    ensures ScalarAdd(0.25, Complex(0.75, 0.66)) == Complex(1.0, 0.66)
    ensures ScalarSub(0.25, Complex(0.75, 0.66)) == Complex(-0.5, -0.66)
    ensures ScalarMul(3.0, Complex(7.0, 13.0)) == Complex(21.0, 39.0)
    ensures Mul(Complex(7.0, 13.0), Complex(7.0, 13.0)) == Complex(-120.0, 182.0)
    ensures ScalarDiv(24.0, Complex(12.0, 240.0)) == Complex(2.0 / 401.0, -40.0 / 401.0)
    ensures DivScalar(Complex(12.0, 240.0), 24.0) == Complex(0.5, 10.0)
    ensures Neg(Complex(3.0, 7.0)) == Complex(-3.0, -7.0)
  {
  }

  // ---------------------------------------------------------------------
  // Sum.
  // ---------------------------------------------------------------------

  /** `Sum`: `fold(ZERO, |a, b| a + b)` over the items in order. */
  function Sum(zs: seq<Complex>): Complex
  {
    if |zs| == 0 then Zero else Add(Sum(zs[..|zs| - 1]), zs[|zs| - 1])
  }

  /** The sum of a concatenation is the sum of the sums, so an empty sum is
      ZERO and a one-item sum is the item. */
  lemma {:induction false} SumAppend(xs: seq<Complex>, ys: seq<Complex>)
    ensures Sum(xs + ys) == Add(Sum(xs), Sum(ys))
    decreases |ys|
  {
    if |ys| == 0 {
      assert xs + ys == xs;
    } else {
      var zs := xs + ys;
      assert zs[..|zs| - 1] == xs + ys[..|ys| - 1];
      SumAppend(xs, ys[..|ys| - 1]);
    }
  }

  /** The real parts of a list of complex numbers. */
  function RealParts(zs: seq<Complex>): (rs: seq<real>)
    ensures |rs| == |zs| && forall k :: 0 <= k < |zs| ==> rs[k] == zs[k].re
  {
    seq(|zs|, k requires 0 <= k < |zs| => zs[k].re)
  }

  /** The imaginary parts of a list of complex numbers. */
  function ImagParts(zs: seq<Complex>): (rs: seq<real>)
    ensures |rs| == |zs| && forall k :: 0 <= k < |zs| ==> rs[k] == zs[k].im
  {
    seq(|zs|, k requires 0 <= k < |zs| => zs[k].im)
  }

  /** The sum of a list of reals. */
  function RealSum(rs: seq<real>): real
  {
    if |rs| == 0 then 0.0 else RealSum(rs[..|rs| - 1]) + rs[|rs| - 1]
  }

  /** `Sum` is component-wise. */
  lemma {:induction false} SumComponentwise(zs: seq<Complex>)
    ensures Sum(zs) == Complex(RealSum(RealParts(zs)), RealSum(ImagParts(zs)))
  {
    if |zs| > 0 {
      var init := zs[..|zs| - 1];
      SumComponentwise(init);
      assert RealParts(zs)[..|zs| - 1] == RealParts(init);
      assert ImagParts(zs)[..|zs| - 1] == ImagParts(init);
    }
  }

  // ---------------------------------------------------------------------
  // Compound assignment.
  // ---------------------------------------------------------------------

  /** A `Complex` variable that the `*Assign` operators update in place. */
  class ComplexPlace {
    var re: real
    var im: real

    constructor (z: Complex)
      ensures re == z.re && im == z.im
    {
      re := z.re;
      im := z.im;
    }

    /** The number the place holds. */
    function Value(): Complex
      reads this
    {
      Complex(re, im)
    }

    /** `+= Complex`. */
    method AddAssign(rhs: Complex)
      modifies this
      ensures Value() == Add(old(Value()), rhs)
    {
      re := re + rhs.re;
      im := im + rhs.im;
    }

    /** `+= F`: only `re` changes. */
    method AddAssignScalar(rhs: real)
      modifies this
      ensures Value() == AddScalar(old(Value()), rhs) && im == old(im)
    {
      re := re + rhs;
    }

    /** `-= Complex`. */
    method SubAssign(rhs: Complex)
      modifies this
      ensures Value() == Sub(old(Value()), rhs)
    {
      re := re - rhs.re;
      im := im - rhs.im;
    }

    /** `-= F`: only `re` changes. */
    method SubAssignScalar(rhs: real)
      modifies this
      ensures Value() == SubScalar(old(Value()), rhs) && im == old(im)
    {
      re := re - rhs;
    }

    /** `*= Complex`: both components are computed into temporaries before
        either field is written, so the result is the product of the old
        value, even when `rhs` is a copy of the place itself. */
    method MulAssign(rhs: Complex)
      modifies this
      ensures Value() == Mul(old(Value()), rhs)
    {
      var r := re * rhs.re - im * rhs.im;
      var i := re * rhs.im + im * rhs.re;
      re := r;
      im := i;
    }

    /** `*= F`. */
    method MulAssignScalar(rhs: real)
      modifies this
      ensures Value() == MulScalar(old(Value()), rhs)
    {
      re := re * rhs;
      im := im * rhs;
    }

    /** `/= Complex`: the denominator is `re * re + im * im` here, where `/`
        uses `powi(2)`; over the reals the two agree. */
    method DivAssign(rhs: Complex)
      requires Norm(rhs) != 0.0
      modifies this
      ensures Value() == Div(old(Value()), rhs)
    {
      ghost var before := Value();
      var denom := Norm(rhs);
      var r := (re * rhs.re + im * rhs.im) / denom;
      var i := (im * rhs.re - re * rhs.im) / denom;
      assert Complex(r, i) == Div(before, rhs);
      re := r;
      im := i;
    }

    /** `/= F`. */
    method DivAssignScalar(rhs: real)
      requires rhs != 0.0
      modifies this
      ensures Value() == DivScalar(old(Value()), rhs)
    {
      re := re / rhs;
      im := im / rhs;
    }
  }

  /** The crate's multiplication test on a variable: `b = (7, 13)`,
      `b *= 9`, then `b *= b`. */
  method MulAssignExample() returns (v: Complex)
    ensures v == Complex(-9720.0, 14742.0)
  {
    var b := new ComplexPlace(Complex(7.0, 13.0));
    b.MulAssignScalar(9.0);
    assert b.Value() == Complex(63.0, 117.0);
    b.MulAssign(b.Value());
    v := b.Value();
  }

  /** The crate's division test on a variable: `b = (12, 240)`, `b /= 2`,
      then `b /= b` gives ONE. */
  method DivAssignExample() returns (v: Complex)
    ensures v == One
  {
    var b := new ComplexPlace(Complex(12.0, 240.0));
    b.DivAssignScalar(2.0);
    assert b.Value() == Complex(6.0, 120.0);
    b.DivAssign(b.Value());
    DivSelf(Complex(6.0, 120.0));
    v := b.Value();
  }

  // ---------------------------------------------------------------------
  // Parsing.
  // ---------------------------------------------------------------------

  /** The part of `s` before the first `c`, or all of `s`. */
  function Before(s: string, c: char): (p: string)
    ensures c !in p && p <= s
    ensures |p| < |s| ==> s[|p|] == c
  {
    if |s| == 0 then [] else if s[0] == c then [] else [s[0]] + Before(s[1..], c)
  }

  /** The part of `s` after the first `c`, or nothing. */
  function After(s: string, c: char): (q: string)
    ensures c in s ==> s == Before(s, c) + [c] + q
    ensures c !in s ==> q == []
  {
    if |s| == 0 then [] else if s[0] == c then s[1..] else After(s[1..], c)
  }

  /** `s` with every occurrence of the characters in `cs` dropped. */
  function Without(s: string, cs: set<char>): (t: string)
    ensures forall k :: 0 <= k < |t| ==> t[k] !in cs
    ensures |t| <= |s|
  {
    if |s| == 0 then [] else (if s[0] in cs then [] else [s[0]]) + Without(s[1..], cs)
  }

  /** The text `From<&str>` hands to the parser for the real part: up to
      the first `i`, before the first `+`, without spaces. */
  function RealText(s: string): string
  {
    Without(Before(Before(s, 'i'), '+'), {' '})
  }

  /** The text for the imaginary part: up to the first `i`, after the first
      `+`, without spaces or further `+` signs. */
  function ImagText(s: string): string
  {
    Without(After(Before(s, 'i'), '+'), {' ', '+'})
  }

  /** `parse::<F>().unwrap_or(ZERO)`. */
  function ParseOrZero(parse: string -> Option<real>, t: string): real
  {
    match parse(t)
    case Some(v) => v
    case None => 0.0
  }

  lemma WithoutAppend(s: string, c: char, cs: set<char>)
    ensures Without(s + [c], cs) == Without(s, cs) + (if c in cs then [] else [c])
  {
    if |s| > 0 {
      assert (s + [c])[1..] == s[1..] + [c];
      WithoutAppend(s[1..], c, cs);
    }
  }

  lemma BeforeAppend(s: string, c: char, d: char)
    ensures Before(s + [c], d) == if d in s then Before(s, d) else if c == d then s else s + [c]
  {
    if |s| > 0 {
      assert (s + [c])[1..] == s[1..] + [c];
      BeforeAppend(s[1..], c, d);
    }
  }

  lemma AfterAppend(s: string, c: char, d: char)
    ensures After(s + [c], d) == if d in s then After(s, d) + [c] else []
  {
    if |s| > 0 {
      assert (s + [c])[1..] == s[1..] + [c];
      AfterAppend(s[1..], c, d);
    }
  }

  /** The real text as the scan of `From<&str>` builds it, one character
      at a time: a character that is not a space extends it until the first
      `+` has been seen. */
  function RealScan(p: string): string
  {
    if |p| == 0 then [] else
    var q := p[..|p| - 1];
    var c := p[|p| - 1];
    RealScan(q) + (if '+' in q || c == '+' || c == ' ' then [] else [c])
  }

  /** The imaginary text as the scan builds it: after the first `+`, a
      character that is neither a space nor a `+` extends it. */
  function ImagScan(p: string): string
  {
    if |p| == 0 then [] else
    var q := p[..|p| - 1];
    var c := p[|p| - 1];
    ImagScan(q) + (if '+' in q && c != '+' && c != ' ' then [c] else [])
  }

  /** The scan builds the real text: before the first `+`, without spaces. */
  lemma {:induction false} RealScanIsText(p: string)
    ensures RealScan(p) == Without(Before(p, '+'), {' '})
  {
    if |p| > 0 {
      var q := p[..|p| - 1];
      assert p == q + [p[|p| - 1]];
      RealScanIsText(q);
      ScanStepRe(q, p[|p| - 1]);
    }
  }

  /** The scan builds the imaginary text: after the first `+`, without
      spaces or further `+` signs. */
  lemma {:induction false} ImagScanIsText(p: string)
    ensures ImagScan(p) == Without(After(p, '+'), {' ', '+'})
  {
    if |p| > 0 {
      var q := p[..|p| - 1];
      assert p == q + [p[|p| - 1]];
      ImagScanIsText(q);
      ScanStepIm(q, p[|p| - 1]);
    }
  }

  /** `From<&str>`: a scan that skips spaces, switches from the real to the
      imaginary text at every `+`, and stops at the first `i`; each text is
      then parsed, with ZERO for a text that does not parse. The float
      parser is the parameter `parse`. */
  method FromStr(s: string, parse: string -> Option<real>) returns (z: Complex)
    ensures z == Complex(ParseOrZero(parse, RealText(s)), ParseOrZero(parse, ImagText(s)))
  {
    var re: string := [];
    var im: string := [];
    var isRe := true;
    var k := 0;
    while k < |s| && s[k] != 'i'
      invariant 0 <= k <= |s| && 'i' !in s[..k]
      invariant isRe <==> '+' !in s[..k]
      invariant re == RealScan(s[..k]) && im == ImagScan(s[..k])
    {
      var c := s[k];
      assert s[..k + 1][..k] == s[..k];
      if c == ' ' {
      } else if c == '+' {
        isRe := false;
      } else if isRe {
        re := re + [c];
      } else {
        im := im + [c];
      }
      k := k + 1;
    }
    ScanEnd(s, k);
    RealScanIsText(s[..k]);
    ImagScanIsText(s[..k]);
    z := Complex(ParseOrZero(parse, re), ParseOrZero(parse, im));
  }

  /** One character of the scan, for the real text: before the first `+`
      a character other than a space extends it; from the first `+` on it is
      complete. */
  lemma ScanStepRe(p: string, c: char)
    ensures Without(Before(p + [c], '+'), {' '}) ==
      Without(Before(p, '+'), {' '}) + (if '+' in p || c == '+' || c == ' ' then [] else [c])
  {
    BeforeAppend(p, c, '+');
    if '+' !in p {
      BeforeAbsent(p, '+');
      if c != '+' {
        WithoutAppend(p, c, {' '});
      }
    }
  }

  /** One character of the scan, for the imaginary text: after the first
      `+` a character other than a space or `+` extends it. */
  lemma ScanStepIm(p: string, c: char)
    ensures Without(After(p + [c], '+'), {' ', '+'}) ==
      Without(After(p, '+'), {' ', '+'}) + (if '+' in p && c != ' ' && c != '+' then [c] else [])
  {
    AfterAppend(p, c, '+');
    if '+' in p {
      WithoutAppend(After(p, '+'), c, {' ', '+'});
    }
  }

  /** The scan stops at the first `i`, or at the end of the text. */
  lemma ScanEnd(s: string, k: nat)
    requires k <= |s| && 'i' !in s[..k] && (k == |s| || s[k] == 'i')
    ensures Before(s, 'i') == s[..k]
  {
    if k < |s| {
      assert s == s[..k] + s[k..];
      BeforePrefix(s[..k], s[k..], 'i');
    } else {
      assert s[..k] == s;
      BeforeAbsent(s, 'i');
    }
  }

  lemma BeforeAbsent(s: string, c: char)
    requires c !in s
    ensures Before(s, c) == s
  {
    if |s| > 0 {
      BeforeAbsent(s[1..], c);
    }
  }

  lemma BeforePrefix(s: string, t: string, c: char)
    requires c !in s && |t| > 0 && t[0] == c
    ensures Before(s + t, c) == s
  {
    if |s| > 0 {
      assert (s + t)[1..] == s[1..] + t;
      BeforePrefix(s[1..], t, c);
    } else {
      assert s + t == t;
    }
  }

  lemma AfterPrefix(s: string, t: string, c: char)
    requires c !in s && |t| > 0 && t[0] == c
    ensures After(s + t, c) == t[1..]
  {
    if |s| > 0 {
      assert (s + t)[1..] == s[1..] + t;
      AfterPrefix(s[1..], t, c);
    } else {
      assert s + t == t;
    }
  }

  /** The shape of a text with an imaginary part: the real text is what
      precedes the first `+`, the imaginary text what follows it up to the
      first `i` (or the end), each without its spaces, and the imaginary text
      also without further `+` signs. */
  lemma {:induction false} SplitAtPlus(a: string, b: string, t: string)
    requires '+' !in a && 'i' !in a && 'i' !in b
    requires t == [] || t[0] == 'i'
    ensures RealText(a + ['+'] + b + t) == Without(a, {' '})
    ensures ImagText(a + ['+'] + b + t) == Without(b, {' ', '+'})
  {
    var head := a + ['+'] + b;
    assert 'i' !in head by {
      assert forall k :: 0 <= k < |head| ==> head[k] == '+' || head[k] in a || head[k] in b;
    }
    if t == [] {
      assert head + t == head;
      BeforeAbsent(head, 'i');
    } else {
      BeforePrefix(head, t, 'i');
    }
    assert head == a + (['+'] + b);
    BeforePrefix(a, ['+'] + b, '+');
    AfterPrefix(a, ['+'] + b, '+');
    assert (['+'] + b)[1..] == b;
  }

  /** The shape of a text without `+` before its first `i`: everything
      before the `i` is the real text, and the imaginary text is empty. */
  lemma {:induction false} SplitWithoutPlus(a: string, t: string)
    requires '+' !in a && 'i' !in a
    requires t == [] || t[0] == 'i'
    ensures RealText(a + t) == Without(a, {' '})
    ensures ImagText(a + t) == []
  {
    if t == [] {
      assert a + t == a;
      BeforeAbsent(a, 'i');
    } else {
      BeforePrefix(a, t, 'i');
    }
    BeforeAbsent(a, '+');
  }

  /** "3 + 4i" splits into "3" and "4". */
  lemma SplitExample(s: string)
    requires s == "3 + 4i"
    ensures RealText(s) == "3" && ImagText(s) == "4"
  {
    assert s == "3 " + ['+'] + " 4" + "i";
    SplitAtPlus("3 ", " 4", "i");
  }

  /** Text after the first `i` is ignored. */
  lemma SplitStopsAtI(s: string)
    requires s == "1+2i7"
    ensures RealText(s) == "1" && ImagText(s) == "2"
  {
    assert s == "1" + ['+'] + "2" + "i7";
    SplitAtPlus("1", "2", "i7");
  }

  /** A `+` after the first `i` does not start an imaginary text. */
  lemma SplitPlusAfterI(s: string)
    requires s == "2i+5"
    ensures RealText(s) == "2" && ImagText(s) == ""
  {
    assert s == "2" + "i+5";
    SplitWithoutPlus("2", "i+5");
  }

  /** A second `+` keeps feeding the imaginary text. */
  lemma SplitSecondPlus(s: string)
    requires s == "1+2+3"
    ensures RealText(s) == "1" && ImagText(s) == "23"
  {
    assert s == "1" + ['+'] + "2+3" + [];
    SplitAtPlus("1", "2+3", []);
  }

  // ---------------------------------------------------------------------
  // The `Number` wrapper.
  // ---------------------------------------------------------------------

  /** `Number<F>`, wrapping a real. */
  datatype RealNumber = RealNumber(v: real)

  /** `Number<Complex<F>>`, wrapping a complex number. */
  datatype ComplexNumber = ComplexNumber(v: Complex)

  /** `From<(F, F)> for Number<Complex<F>>`, through `Complex::new`. */
  function NumberFromPair(a: real, b: real): ComplexNumber
  {
    ComplexNumber(Complex(a, b))
  }

  /** `From<[F; 2]> for Number<Complex<F>>`, through `Complex::new`. */
  function NumberFromArray(b: seq<real>): ComplexNumber
    requires |b| == 2
  {
    ComplexNumber(Complex(b[0], b[1]))
  }

  /** The wrapper's conversions wrap the conversions of `Complex`. */
  lemma NumberConversionsAgree(a: real, b: real)
    ensures NumberFromPair(a, b) == ComplexNumber(FromPair(a, b))
    ensures NumberFromArray([a, b]) == ComplexNumber(FromArray([a, b]))
  {
  }

  /** `Number<F> + Number<F>`. */
  function AddReals(x: RealNumber, y: RealNumber): RealNumber
  {
    RealNumber(x.v + y.v)
  }

  /** `Number<Complex<F>> + Number<Complex<F>>`. */
  function AddComplexes(x: ComplexNumber, y: ComplexNumber): ComplexNumber
  {
    ComplexNumber(Add(x.v, y.v))
  }

  /** `Number<F> + Number<Complex<F>>`: the real is first promoted to `(x, 0)`. */
  function AddRealComplex(x: RealNumber, y: ComplexNumber): ComplexNumber
  {
    ComplexNumber(Add(FromReal(x.v), y.v))
  }

  /** `Number<Complex<F>> + Number<F>`: `Complex + F`. */
  function AddComplexReal(x: ComplexNumber, y: RealNumber): ComplexNumber
  {
    ComplexNumber(AddScalar(x.v, y.v))
  }

  /** The mixed additions agree in both orders, and each agrees with the
      all-complex addition after promoting the real. */
  lemma MixedAdditionsAgree(x: RealNumber, y: ComplexNumber)
    ensures AddRealComplex(x, y) == AddComplexReal(y, x)
    ensures AddRealComplex(x, y) == AddComplexes(ComplexNumber(FromReal(x.v)), y)
    ensures AddComplexReal(y, x).v.im == y.v.im
  {
  }

  /** A `Number<F>` variable. */
  class RealNumberPlace {
    var value: RealNumber

    constructor (x: RealNumber)
      ensures value == x
    {
      value := x;
    }

    /** `Number<F> += Number<F>`. */
    method AddAssign(rhs: RealNumber)
      modifies this
      ensures value == AddReals(old(value), rhs)
    {
      value := RealNumber(value.v + rhs.v);
    }

    /** `Number<F> += Number<Complex<F>>`: not implemented, the call panics
        with `todo!()` before anything is written. */
    method AddAssignComplex(rhs: ComplexNumber) returns (r: Outcome<()>)
      ensures r == Panic(Todo)
    {
      r := Panic(Todo);
    }
  }

  /** A `Number<Complex<F>>` variable. */
  class ComplexNumberPlace {
    var value: ComplexNumber

    constructor (x: ComplexNumber)
      ensures value == x
    {
      value := x;
    }

    /** `Number<Complex<F>> += Number<Complex<F>>`. */
    method AddAssign(rhs: ComplexNumber)
      modifies this
      ensures value == AddComplexes(old(value), rhs)
    {
      value := ComplexNumber(Add(value.v, rhs.v));
    }

    /** `Number<Complex<F>> += Number<F>`. */
    method AddAssignReal(rhs: RealNumber)
      modifies this
      ensures value == AddComplexReal(old(value), rhs)
    {
      value := ComplexNumber(AddScalar(value.v, rhs.v));
    }
  }
}
