/** What only the disabled `complex` module adds to the complex numbers of
    the live `number` module: the imaginary unit under its two names and
    the crate's tests of it. Every operator of that module is written as in
    `number`, and module `Number` models both. */
module DisabledComplex {
  import opened Number

  /** `Complex::i`: the imaginary unit. */
  const I := Complex(0.0, 1.0)

  /** `Complex::J`, the engineers' name for the same constant. */
  const J := I

  /** The constants the crate tests: ZERO, ONE, and `i` and `J` both `(0, 1)`. */
  lemma Constants()
    ensures Zero == Complex(0.0, 0.0) && One == Complex(1.0, 0.0)
    ensures I == Complex(0.0, 1.0) && J == Complex(0.0, 1.0)
  {
  }

  /** `i * i = -1`. */
  lemma ISquared()
    ensures Mul(I, I) == Neg(One)
  {
  }

  /** `i.powi(2)` is -1. */
  lemma IPowTwo()
    ensures Pow(I, 2) == Complex(-1.0, 0.0)
  {
  }

  /** `i.powi(3)` is -i. */
  lemma IPowThree()
    ensures Pow(I, 3) == Complex(0.0, -1.0)
  {
  }

  /** `i.powi(4)` is ONE. */
  lemma IPowFour()
    ensures Pow(I, 4) == One
  {
  }

  /** The powers of `i` repeat with period four. */
  lemma {:induction false} IPowPeriodic(k: nat)
    ensures Pow(I, k + 4) == Pow(I, k)
  {
    PowAdd(I, k, 4);
    IPowFour();
    MulOne(Pow(I, k));
  }

  /** `powi` on `i` for any exponent `4 * q + r` is its power `r`: the
      powers repeat as the cycle 1, i, -1, -i. */
  lemma {:induction false} IPowCycle(q: nat, r: nat)
    ensures Pow(I, 4 * q + r) == Pow(I, r)
  {
    if q > 0 {
      var j: nat := 4 * (q - 1) + r;
      IPowPeriodic(j);
      assert j + 4 == 4 * q + r;
      IPowCycle(q - 1, r);
    }
  }

  /** The crate's `powi` tests on `(0, 1)`, with the values computed by the `Powi` loop. */
  method PowiOfI() returns (i2: Complex, i3: Complex, i4: Complex)
    ensures i2 == Complex(-1.0, 0.0) && i3 == Complex(0.0, -1.0) && i4 == One
  {
    i2 := Powi(I, 2);
    IPowTwo();
    i3 := Powi(I, 3);
    IPowThree();
    i4 := Powi(I, 4);
    IPowFour();
  }

  /** `powi` on ZERO, which the crate tests with the exponents 0 and 3: ONE
      for a non-positive exponent and ZERO otherwise. */
  method PowiOfZero(power: int) returns (z: Complex)
    ensures z == (if power > 0 then Zero else One)
  {
    z := Powi(Zero, power);
    if power > 0 {
      PowOfZero(power);
    }
  }
}
