/** Polynomials of a fixed degree `N` with real coefficients, leading
    coefficient first: `c[0]*x^N + c[1]*x^(N-1) + ... + c[N]`. The crate
    lets `eval` handle degrees up to four and `roots` degrees up to one;
    every other degree reaches a `todo!()`. */
module Polynomials {
  import opened Outcomes

  /** A polynomial of degree `N`: the coefficient array holds `N + 1`
      entries (`from` and `new` both build one from its array). */
  datatype Polynomial = Polynomial(c: seq<real>)

  /** The type `[T; N + 1]` never holds fewer than one coefficient. */
  predicate Valid(p: Polynomial)
  {
    |p.c| >= 1
  }

  /** The const parameter `N`. */
  function Degree(p: Polynomial): (n: nat)
    requires Valid(p)
    ensures n + 1 == |p.c|
  {
    |p.c| - 1
  }

  /** `x.powi(k)` for a non-negative exponent. */
  function PowReal(x: real, k: nat): real
  {
    if k == 0 then 1.0 else x * PowReal(x, k - 1)
  }

  /** The polynomial the coefficients stand for, `c[0]*x^(|c|-1) + ... + c[|c|-1]`:
      the sum the commented-out general branch of `eval` would compute. */
  function PolySum(c: seq<real>, x: real): real
  {
    if |c| == 0 then 0.0 else c[0] * PowReal(x, |c| - 1) + PolySum(c[1..], x)
  }

  lemma PowRealOne(x: real)
    ensures PowReal(x, 1) == x
  {
  }

  /** The sum written out for one to five coefficients. */
  lemma PolySumOne(c: seq<real>, x: real)
    requires |c| == 1
    ensures PolySum(c, x) == c[0]
  {
    assert c[1..] == [];
  }

  lemma PolySumTwo(c: seq<real>, x: real)
    requires |c| == 2
    ensures PolySum(c, x) == c[0] * x + c[1]
  {
    PowRealOne(x);
    PolySumOne(c[1..], x);
  }

  lemma PolySumThree(c: seq<real>, x: real)
    requires |c| == 3
    ensures PolySum(c, x) == c[0] * PowReal(x, 2) + c[1] * x + c[2]
  {
    PolySumTwo(c[1..], x);
  }

  lemma PolySumFour(c: seq<real>, x: real)
    requires |c| == 4
    ensures PolySum(c, x) == c[0] * PowReal(x, 3) + c[1] * PowReal(x, 2) + c[2] * x + c[3]
  {
    PolySumThree(c[1..], x);
  }

  lemma PolySumFive(c: seq<real>, x: real)
    requires |c| == 5
    ensures PolySum(c, x) == c[0] * PowReal(x, 4) + c[1] * PowReal(x, 3) + c[2] * PowReal(x, 2)
                             + c[3] * x + c[4]
  {
    PolySumFour(c[1..], x);
  }

  /** `eval_quadratic`: it reads `c[0]`, `c[1]` and `c[2]`, and panics on
      an array with fewer than three entries. */
  function EvalQuadratic(p: Polynomial, x: real): (r: Outcome<real>)
    ensures r.Done? <==> |p.c| >= 3
  {
    if |p.c| < 3 then Panic(IndexOutOfBounds)
    else Done(p.c[0] * PowReal(x, 2) + p.c[1] * x + p.c[2])
  }

  /** `eval_cubic`: it reads `c[0]` to `c[3]`. */
  function EvalCubic(p: Polynomial, x: real): (r: Outcome<real>)
    ensures r.Done? <==> |p.c| >= 4
  {
    if |p.c| < 4 then Panic(IndexOutOfBounds)
    else Done(p.c[0] * PowReal(x, 3) + p.c[1] * PowReal(x, 2) + p.c[2] * x + p.c[3])
  }

  /** `eval_quartic`: it reads `c[0]` to `c[4]`. */
  function EvalQuartic(p: Polynomial, x: real): (r: Outcome<real>)
    ensures r.Done? <==> |p.c| >= 5
  {
    if |p.c| < 5 then Panic(IndexOutOfBounds)
    else Done(p.c[0] * PowReal(x, 4) + p.c[1] * PowReal(x, 3) + p.c[2] * PowReal(x, 2) + p.c[3] * x + p.c[4])
  }

  /** Each fixed-degree evaluator computes the polynomial its leading
      coefficients make, whatever the degree of the array it is called on. */
  lemma EvalQuadraticIsSum(p: Polynomial, x: real)
    requires |p.c| >= 3
    ensures EvalQuadratic(p, x).value == PolySum(p.c[..3], x)
  {
    PolySumThree(p.c[..3], x);
  }

  lemma EvalCubicIsSum(p: Polynomial, x: real)
    requires |p.c| >= 4
    ensures EvalCubic(p, x).value == PolySum(p.c[..4], x)
  {
    PolySumFour(p.c[..4], x);
  }

  lemma EvalQuarticIsSum(p: Polynomial, x: real)
    requires |p.c| >= 5
    ensures EvalQuartic(p, x).value == PolySum(p.c[..5], x)
  {
    PolySumFive(p.c[..5], x);
  }

  /** `eval`: a branch per degree up to four; a higher degree is `todo!()`. */
  function Eval(p: Polynomial, x: real): (r: Outcome<real>)
    requires Valid(p)
    ensures r.Done? <==> Degree(p) <= 4
  {
    match Degree(p)
    case 0 => Done(p.c[0])
    case 1 => Done(p.c[0] * x + p.c[1])
    case 2 => EvalQuadratic(p, x)
    case 3 => EvalCubic(p, x)
    case 4 => EvalQuartic(p, x)
    case _ => Panic(Todo)
  }

  /** Up to degree four `eval` computes the polynomial; above it panics
      rather than returning a truncated sum. */
  lemma EvalIsSum(p: Polynomial, x: real)
    requires Valid(p)
    ensures Degree(p) <= 4 ==> Eval(p, x).value == PolySum(p.c, x)
    ensures Degree(p) > 4 ==> Eval(p, x) == Panic(Todo)
  {
    var c := p.c;
    match Degree(p)
    case 0 => PolySumOne(c, x);
    case 1 => PolySumTwo(c, x);
    case 2 =>
      assert c[..3] == c;
      EvalQuadraticIsSum(p, x);
    case 3 =>
      assert c[..4] == c;
      EvalCubicIsSum(p, x);
    case 4 =>
      assert c[..5] == c;
      EvalQuarticIsSum(p, x);
    case _ =>
  }

  /** The crate's evaluation tests on `[1]`, `[1, 2]`, `[1, 2, 3]` and
      `[1, 2, 3, 4]`, one polynomial at a time. */
  lemma EvalConstantExample(x: real)
    ensures Eval(Polynomial([1.0]), x) == Done(1.0)
  {
  }

  lemma EvalLinearExamples()
    ensures Eval(Polynomial([1.0, 2.0]), -3.0) == Done(-1.0)
    ensures Eval(Polynomial([1.0, 2.0]), 0.0) == Done(2.0)
    ensures Eval(Polynomial([1.0, 2.0]), 1.0) == Done(3.0)
    ensures Eval(Polynomial([1.0, 2.0]), 2.0) == Done(4.0)
  {
  }

  lemma EvalQuadraticExamples()
    ensures Eval(Polynomial([1.0, 2.0, 3.0]), -3.0) == Done(6.0)
    ensures Eval(Polynomial([1.0, 2.0, 3.0]), 0.0) == Done(3.0)
    ensures Eval(Polynomial([1.0, 2.0, 3.0]), 1.0) == Done(6.0)
    ensures Eval(Polynomial([1.0, 2.0, 3.0]), 2.0) == Done(11.0)
  {
  }

  lemma EvalCubicExamples()
    ensures Eval(Polynomial([1.0, 2.0, 3.0, 4.0]), -3.0) == Done(-14.0)
    ensures Eval(Polynomial([1.0, 2.0, 3.0, 4.0]), 0.0) == Done(4.0)
    ensures Eval(Polynomial([1.0, 2.0, 3.0, 4.0]), 1.0) == Done(10.0)
    ensures Eval(Polynomial([1.0, 2.0, 3.0, 4.0]), 2.0) == Done(26.0)
  {
  }

  // ---------------------------------------------------------------------
  // Roots of degree zero and one.
  // ---------------------------------------------------------------------

  /** `abs` on a float. */
  function Abs(v: real): (r: real)
    ensures r >= 0.0 && (r == v || r == -v)
  {
    if v < 0.0 then -v else v
  }

  /** `b.pow(e)` on `usize`. */
  function NatPow(b: nat, e: nat): nat
  {
    if e == 0 then 1 else b * NatPow(b, e - 1)
  }

  /** The length `N + 0_usize.pow(N as u32)` of a root array; `N as u32`
      keeps the low 32 bits of `N`. */
  function RootCount(n: nat): nat
  {
    n + NatPow(0, n % 0x1_0000_0000)
  }

  /** `0.pow(e)` is one for `e == 0` and zero otherwise. */
  lemma ZeroPow(e: nat)
    ensures NatPow(0, e) == if e == 0 then 1 else 0
  {
  }

  /** One slot for degree zero and `N` slots for every degree that fits in
      32 bits; the degrees that are non-zero multiples of `2^32` get an
      extra slot. */
  lemma RootCountValues(n: nat)
    ensures RootCount(n) == n + (if n % 0x1_0000_0000 == 0 then 1 else 0)
    ensures n == 0 ==> RootCount(n) == 1
    ensures 0 < n < 0x1_0000_0000 ==> RootCount(n) == n
  {
    var e := n % 0x1_0000_0000;
    ZeroPow(e);
    if n < 0x1_0000_0000 {
      assert e == n;
    }
  }

  /** The array `root_constant` returns: NaN everywhere except slot 0, which
      holds zero when `|c[0]| <= tol`. */
  function ConstantRoots(p: Polynomial, tol: real): (r: seq<Scalar>)
    requires Valid(p)
  {
    seq(RootCount(Degree(p)), k => if k == 0 && Abs(p.c[0]) <= tol then Finite(0.0) else NonFinite)
  }

  /** `root_constant`: a NaN-filled array whose slot 0 is overwritten. */
  method RootConstant(p: Polynomial, tol: real) returns (roots: seq<Scalar>)
    requires Valid(p)
    ensures roots == ConstantRoots(p, tol)
  {
    RootCountValues(Degree(p));
    var output := new Scalar[RootCount(Degree(p))](_ => NonFinite);
    if Abs(p.c[0]) <= tol {
      output[0] := Finite(0.0);
    }
    roots := output[..];
  }

  /** A constant polynomial has its one root slot filled exactly when its
      value is within `tol` of zero, and then the slot holds zero; every
      other slot is NaN, whatever the degree. */
  lemma ConstantRootsMeaning(p: Polynomial, tol: real)
    requires Valid(p)
    ensures |ConstantRoots(p, tol)| >= 1
    ensures ConstantRoots(p, tol)[0].Finite? <==> Abs(p.c[0]) <= tol
    ensures ConstantRoots(p, tol)[0].Finite? ==> ConstantRoots(p, tol)[0].v == 0.0
    ensures forall k :: 1 <= k < |ConstantRoots(p, tol)| ==> ConstantRoots(p, tol)[k] == NonFinite
    ensures Degree(p) == 0 ==> |ConstantRoots(p, tol)| == 1
    ensures Degree(p) == 0 ==> forall x :: (ConstantRoots(p, tol)[0].Finite? <==> Abs(Eval(p, x).value) <= tol)
  {
    RootCountValues(Degree(p));
  }

  /** `[v; n]`: an array of `n` copies of `v`. */
  function Fill(n: nat, v: Scalar): (r: seq<Scalar>)
    ensures |r| == n && forall k :: 0 <= k < n ==> r[k] == v
  {
    if n == 0 then [] else [v] + Fill(n - 1, v)
  }

  /** `root_linear`: every slot holds `-c[1] / c[0]`; an array without
      `c[1]` panics. */
  function RootLinear(p: Polynomial, tol: real): (r: Outcome<seq<Scalar>>)
    requires Valid(p)
    ensures r.Done? <==> |p.c| >= 2
    ensures r.Done? ==> |r.value| == RootCount(Degree(p))
  {
    if |p.c| < 2 then Panic(IndexOutOfBounds)
    else Done(Fill(RootCount(Degree(p)), Quotient(-p.c[1], p.c[0])))
  }

  /** A linear polynomial has one root slot, holding `-c[1] / c[0]`. */
  lemma LinearRootSlots(p: Polynomial, tol: real)
    requires Valid(p) && Degree(p) == 1
    ensures RootLinear(p, tol) == Done([Quotient(-p.c[1], p.c[0])])
  {
    RootLinearOfLinear(p, tol);
    FillOneSlot(Quotient(-p.c[1], p.c[0]));
  }

  /** The slot of a linear polynomial is finite exactly when the leading
      coefficient is non-zero, and then the polynomial vanishes there. */
  lemma LinearRootIsRoot(p: Polynomial)
    requires Valid(p) && Degree(p) == 1
    ensures Quotient(-p.c[1], p.c[0]).Finite? <==> p.c[0] != 0.0
    ensures Quotient(-p.c[1], p.c[0]).Finite? ==> Eval(p, Quotient(-p.c[1], p.c[0]).v).value == 0.0
  {
    var q := Quotient(-p.c[1], p.c[0]);
    if q.Finite? {
      EvalLinear(p, q.v);
      LinearZero(p.c[0], p.c[1], q.v);
    }
  }

  lemma RootLinearOfLinear(p: Polynomial, tol: real)
    requires Valid(p) && Degree(p) == 1
    ensures RootLinear(p, tol) == Done(Fill(RootCount(1), Quotient(-p.c[1], p.c[0])))
  {
  }

  lemma FillOneSlot(q: Scalar)
    ensures Fill(RootCount(1), q) == [q]
  {
    RootCountValues(1);
    assert Fill(1, q) == [q];
  }

  lemma EvalLinear(p: Polynomial, x: real)
    requires Valid(p) && Degree(p) == 1
    ensures Eval(p, x).value == p.c[0] * x + p.c[1]
  {
  }

  lemma LinearZero(a: real, b: real, v: real)
    requires v * a == -b
    ensures a * v + b == 0.0
  {
  }

  /** `roots`: degree zero and one go to their helpers; every other degree
      is `todo!()`. */
  method Roots(p: Polynomial, tol: real) returns (r: Outcome<seq<Scalar>>)
    requires Valid(p)
    ensures Degree(p) == 0 ==> r == Done(ConstantRoots(p, tol))
    ensures Degree(p) == 1 ==> r == RootLinear(p, tol)
    ensures Degree(p) >= 2 ==> r == Panic(Todo)
  {
    if Degree(p) == 0 {
      var roots := RootConstant(p, tol);
      r := Done(roots);
    } else if Degree(p) == 1 {
      r := RootLinear(p, tol);
    } else {
      r := Panic(Todo);
    }
  }

  /** The crate's root tests: `[1]` has no root and `[0]` has the root 0,
      and `[1, 1]` has the root -1. */
  method ConstantRootExamples() returns (none: seq<Scalar>, zero: seq<Scalar>)
    ensures none == [NonFinite] && zero == [Finite(0.0)]
  {
    none := RootConstant(Polynomial([1.0]), 0.0000001);
    zero := RootConstant(Polynomial([0.0]), 0.0000001);
    RootCountValues(0);
  }

  lemma LinearRootExample()
    ensures RootLinear(Polynomial([1.0, 1.0]), 0.0000001) == Done([Finite(-1.0)])
  {
    LinearRootSlots(Polynomial([1.0, 1.0]), 0.0000001);
  }
}

/** `Display` for polynomials: the text `to_string` builds. */
module PolynomialDisplay {
  import opened Polynomials

  /** The decimal digit of `d`. */
  function DigitChar(d: nat): (ch: char)
    requires d < 10
    ensures '0' <= ch <= '9'
  {
    (('0' as int) + d) as char
  }

  /** `usize` in decimal, as `{}` formats it: no sign, no leading zero. */
  function NatText(n: nat): (t: string)
    ensures |t| >= 1 && (|t| == 1 || t[0] != '0')
    ensures forall k :: 0 <= k < |t| ==> '0' <= t[k] <= '9'
  {
    if n < 10 then [DigitChar(n)] else NatText(n / 10) + [DigitChar(n % 10)]
  }

  /** The number a string of decimal digits stands for. */
  function NatValue(t: string): nat
    requires forall k :: 0 <= k < |t| ==> '0' <= t[k] <= '9'
  {
    if |t| == 0 then 0 else 10 * NatValue(t[..|t| - 1]) + ((t[|t| - 1] as int) - ('0' as int))
  }

  /** Reading the decimal text back gives the number. */
  lemma {:induction false} NatTextRoundTrip(n: nat)
    ensures NatValue(NatText(n)) == n
  {
    var t := NatText(n);
    if n < 10 {
      assert t[..0] == [];
    } else {
      NatTextRoundTrip(n / 10);
      var d := n % 10;
      assert t[..|t| - 1] == NatText(n / 10);
    }
  }

  /** The text the loop appends for coefficient `i`: `c[i]×x^(N-i) + ` for
      every coefficient but the last, and the bare `c[N]` for the last. The
      float formatter is the parameter `show`. */
  function Term(p: Polynomial, show: real -> string, i: nat): string
    requires Valid(p)
  {
    if i < Degree(p) then show(p.c[i]) + "×x^" + NatText(Degree(p) - i) + " + "
    else if i == Degree(p) then show(p.c[i])
    else []
  }

  /** The terms of `p`, indexed by coefficient. */
  function Terms(p: Polynomial, show: real -> string): nat -> string
    requires Valid(p)
  {
    (i: nat) => Term(p, show, i)
  }

  /** The pieces `term(0)` to `term(k-1)` written one after the other. */
  function Joined(term: nat -> string, k: nat): string
  {
    if k == 0 then [] else Joined(term, k - 1) + term(k - 1)
  }

  /** The whole text of `to_string`. */
  function Layout(p: Polynomial, show: real -> string): string
    requires Valid(p)
  {
    Joined(Terms(p, show), Degree(p) + 1)
  }

  /** `Display::fmt`: one pass over the coefficients, appending to a
      `String`. */
  method Display(p: Polynomial, show: real -> string) returns (output: string)
    requires Valid(p)
    ensures output == Layout(p, show)
  {
    output := [];
    var n := Degree(p);
    for i := 0 to n + 1
      invariant output == Joined(Terms(p, show), i)
    {
      var piece := FormatTerm(p, show, i);
      output := output + piece;
    }
  }

  /** The `format!` of one pass of the loop: the term with its exponent,
      or the bare last coefficient. */
  method FormatTerm(p: Polynomial, show: real -> string, i: nat) returns (piece: string)
    requires Valid(p) && i <= Degree(p)
    ensures piece == Terms(p, show)(i)
  {
    if i != Degree(p) {
      piece := show(p.c[i]) + "×x^" + NatText(Degree(p) - i) + " + ";
      TermInner(p, show, i);
    } else {
      piece := show(p.c[i]);
      TermLast(p, show);
    }
  }

  lemma TermInner(p: Polynomial, show: real -> string, i: nat)
    requires Valid(p) && i < Degree(p)
    ensures Terms(p, show)(i) == show(p.c[i]) + "×x^" + NatText(Degree(p) - i) + " + "
  {
  }

  lemma TermLast(p: Polynomial, show: real -> string)
    requires Valid(p)
    ensures Terms(p, show)(Degree(p)) == show(p.c[Degree(p)])
  {
  }

  /** Joining `k + 1` pieces is the first piece followed by the join of the
      `k` pieces after it. */
  lemma {:induction false} JoinedFirst(term: nat -> string, k: nat)
    ensures Joined(term, k + 1) == term(0) + Joined((i: nat) => term(i + 1), k)
  {
    var rest := (i: nat) => term(i + 1);
    if k == 0 {
      assert Joined(term, 1) == [] + term(0);
    } else {
      JoinedFirst(term, k - 1);
      var a, b, c := term(0), Joined(rest, k - 1), term(k);
      assert c == rest(k - 1);
      assert Joined(term, k + 1) == (a + b) + c;
      assert Joined(rest, k) == b + c;
    }
  }

  /** Joins of pieces that agree below `k` agree. */
  lemma {:induction false} JoinedAgree(f: nat -> string, g: nat -> string, k: nat)
    requires forall i: nat :: i < k ==> f(i) == g(i)
    ensures Joined(f, k) == Joined(g, k)
  {
    if k > 0 {
      JoinedAgree(f, g, k - 1);
    }
  }

  /** A constant prints as its coefficient alone. */
  lemma LayoutConstant(p: Polynomial, show: real -> string)
    requires Valid(p) && Degree(p) == 0
    ensures Layout(p, show) == show(p.c[0])
  {
    assert Joined(Terms(p, show), 1) == [] + Term(p, show, 0);
  }

  /** Above degree zero the text starts with the leading term, carrying the
      full degree as its exponent, and goes on with the text of the
      polynomial of the remaining coefficients. */
  lemma LayoutLeading(p: Polynomial, show: real -> string)
    requires Valid(p) && Degree(p) >= 1
    ensures Layout(p, show) ==
      show(p.c[0]) + "×x^" + NatText(Degree(p)) + " + " + Layout(Polynomial(p.c[1..]), show)
  {
    JoinedFirst(Terms(p, show), Degree(p));
    JoinedTail(p, show);
  }

  /** The later terms of `p` written out are the text of its tail. */
  lemma JoinedTail(p: Polynomial, show: real -> string)
    requires Valid(p) && Degree(p) >= 1
    ensures Joined((i: nat) => Terms(p, show)(i + 1), Degree(p)) == Layout(Polynomial(p.c[1..]), show)
  {
    var q := Polynomial(p.c[1..]);
    var f := Terms(p, show);
    forall i: nat | i < Degree(p)
      ensures ((j: nat) => f(j + 1))(i) == Terms(q, show)(i)
    {
      TermShift(p, show, i + 1);
    }
    JoinedAgree((j: nat) => f(j + 1), Terms(q, show), Degree(p));
  }

  /** Every later term of `p` is the term of the tail at one index less,
      with the same exponent. */
  lemma TermShift(p: Polynomial, show: real -> string, k: nat)
    requires Valid(p) && 1 <= k && 1 <= Degree(p)
    ensures Term(p, show, k) == Term(Polynomial(p.c[1..]), show, k - 1)
  {
  }
  /** A linear polynomial prints as `c0×x^1 + c1`. */
  lemma LayoutLinear(p: Polynomial, show: real -> string)
    requires |p.c| == 2
    ensures Layout(p, show) == show(p.c[0]) + "×x^1 + " + show(p.c[1])
  {
    LayoutLeading(p, show);
    LayoutConstant(Polynomial(p.c[1..]), show);
    assert NatText(1) == "1";
  }

  /** The crate's display tests, for a formatter that prints `1.0` as `1`
      and so on: the constant and the linear polynomial. */
  lemma LayoutExamples(show: real -> string)
    requires show(1.0) == "1" && show(2.0) == "2"
    ensures Layout(Polynomial([1.0]), show) == "1"
    ensures Layout(Polynomial([1.0, 2.0]), show) == "1×x^1 + 2"
  {
    LayoutConstant(Polynomial([1.0]), show);
    LayoutLinear(Polynomial([1.0, 2.0]), show);
  }

  /** The quadratic display test. */
  lemma LayoutQuadraticExample(show: real -> string)
    requires show(1.0) == "1" && show(2.0) == "2" && show(3.0) == "3"
    ensures Layout(Polynomial([1.0, 2.0, 3.0]), show) == "1×x^2 + 2×x^1 + 3"
  {
    var p := Polynomial([1.0, 2.0, 3.0]);
    LayoutLeading(p, show);
    assert p.c[1..] == [2.0, 3.0];
    LayoutLinear(Polynomial([2.0, 3.0]), show);
    assert NatText(2) == "2";
    QuadraticText();
  }

  lemma QuadraticText()
    ensures "1" + "×x^" + "2" + " + " + ("2" + "×x^1 + " + "3") == "1×x^2 + 2×x^1 + 3"
  {
  }

  /** The text of the cubic test polynomial after its leading term. */
  lemma LayoutCubicTail(show: real -> string)
    requires show(2.0) == "2" && show(3.0) == "3" && show(4.0) == "4"
    ensures Layout(Polynomial([2.0, 3.0, 4.0]), show) == "2×x^2 + 3×x^1 + 4"
  {
    var p := Polynomial([2.0, 3.0, 4.0]);
    LayoutLeading(p, show);
    assert p.c[1..] == [3.0, 4.0];
    LayoutLinear(Polynomial([3.0, 4.0]), show);
    assert NatText(2) == "2";
    CubicTailText();
  }

  lemma CubicTailText()
    ensures "2" + "×x^" + "2" + " + " + ("3" + "×x^1 + " + "4") == "2×x^2 + 3×x^1 + 4"
  {
  }

  /** The cubic display test. */
  lemma LayoutCubicExample(show: real -> string)
    requires show(1.0) == "1" && show(2.0) == "2" && show(3.0) == "3" && show(4.0) == "4"
    ensures Layout(Polynomial([1.0, 2.0, 3.0, 4.0]), show) == "1×x^3 + 2×x^2 + 3×x^1 + 4"
  {
    var p := Polynomial([1.0, 2.0, 3.0, 4.0]);
    LayoutLeading(p, show);
    assert p.c[1..] == [2.0, 3.0, 4.0];
    LayoutCubicTail(show);
    assert NatText(3) == "3";
    CubicText();
  }

  lemma CubicText()
    ensures "1" + "×x^" + "3" + " + " + "2×x^2 + 3×x^1 + 4" == "1×x^3 + 2×x^2 + 3×x^1 + 4"
  {
  }
}
