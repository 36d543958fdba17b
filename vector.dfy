/** Fixed-size vectors of reals: `Vector<N>` holds `b: [f64; N]`. A Rust
    array is a value, so a vector is kept as a `seq` whose length plays the
    part of `N`; the operators clone `b` into a buffer and update it entry
    by entry, and the model does the same on a fresh `array`. */
module Vectors {
  import opened Matrix

  datatype Vector = Vector(b: seq<real>)

  // ---------------------------------------------------------------------
  // Reference definitions.
  // ---------------------------------------------------------------------

  /** `Vector::<N>::ZERO`: N zeros. */
  function Zero(n: nat): (z: Vector)
    ensures |z.b| == n && forall i :: 0 <= i < n ==> z.b[i] == 0.0
  {
    Vector(seq(n, _ => 0.0))
  }

  /** The element-wise sum. */
  function Plus(v: Vector, w: Vector): (s: Vector)
    requires |v.b| == |w.b|
    ensures |s.b| == |v.b| && forall i :: 0 <= i < |v.b| ==> s.b[i] == v.b[i] + w.b[i]
  {
    Vector(seq(|v.b|, i requires 0 <= i < |v.b| => v.b[i] + w.b[i]))
  }

  /** The element-wise difference. */
  function Minus(v: Vector, w: Vector): (d: Vector)
    requires |v.b| == |w.b|
    ensures |d.b| == |v.b| && forall i :: 0 <= i < |v.b| ==> d.b[i] == v.b[i] - w.b[i]
  {
    Vector(seq(|v.b|, i requires 0 <= i < |v.b| => v.b[i] - w.b[i]))
  }

  /** Every entry multiplied by `s`. */
  function Scaled(v: Vector, s: real): (r: Vector)
    ensures |r.b| == |v.b| && forall i :: 0 <= i < |v.b| ==> r.b[i] == v.b[i] * s
  {
    Vector(seq(|v.b|, i requires 0 <= i < |v.b| => v.b[i] * s))
  }

  /** Two vectors of one length with the same entries are equal. */
  lemma VectorExt(v: Vector, w: Vector)
    requires |v.b| == |w.b| && forall i :: 0 <= i < |v.b| ==> v.b[i] == w.b[i]
    ensures v == w
  {
  }

  // ---------------------------------------------------------------------
  // Conversions to matrices.
  // ---------------------------------------------------------------------

  /** `row`: the `Matrix<N, 1>` whose single row is `b`. */
  function Row(v: Vector): (m: Matrix)
    ensures Shaped(m, 1, |v.b|) && m.e[0] == v.b
  {
    Matrix([v.b])
  }

  /** `column`: a loop writing `b[i]` into row `i` of an N x 1 zero matrix. */
  method Column(v: Vector) returns (m: Matrix)
    ensures Shaped(m, |v.b|, 1)
    ensures forall i :: 0 <= i < |v.b| ==> m.e[i][0] == v.b[i]
  {
    var n := |v.b|;
    var e := new real[n, 1]((_, _) => 0.0);
    for i := 0 to n
      invariant forall j :: 0 <= j < n ==> e[j, 0] == if j < i then v.b[j] else 0.0
    {
      e[i, 0] := v.b[i];
    }
    m := Freeze(e);
  }

  /** The inner product of the first `k` entries. */
  function Inner(v: Vector, w: Vector, k: nat): real
    requires k <= |v.b| && k <= |w.b|
  {
    if k == 0 then 0.0 else Inner(v, w, k - 1) + v.b[k - 1] * w.b[k - 1]
  }

  /** The row of `v` times a column holding `w` is the 1 x 1 matrix of
      their inner product. */
  lemma RowTimesColumn(v: Vector, w: Vector, c: Matrix)
    requires |v.b| == |w.b|
    requires Shaped(c, |w.b|, 1) && forall i :: 0 <= i < |w.b| ==> c.e[i][0] == w.b[i]
    ensures Product(Row(v), c, |v.b|, 1, 1) == Matrix([[Inner(v, w, |v.b|)]])
  {
    var n := |v.b|;
    DotRowColumn(v, w, c, n);
    var p := Product(Row(v), c, n, 1, 1);
    assert p.e[0] == [Inner(v, w, n)];
  }

  lemma {:induction false} DotRowColumn(v: Vector, w: Vector, c: Matrix, k: nat)
    requires |v.b| == |w.b| && k <= |v.b|
    requires Shaped(c, |w.b|, 1) && forall i :: 0 <= i < |w.b| ==> c.e[i][0] == w.b[i]
    ensures DotDefined(Row(v), c, 0, 0, k) && Dot(Row(v), c, 0, 0, k) == Inner(v, w, k)
  {
    if k > 0 {
      DotRowColumn(v, w, c, k - 1);
      assert Row(v).e[0][k - 1] == v.b[k - 1];
      assert c.e[k - 1][0] == w.b[k - 1];
    }
  }

  // ---------------------------------------------------------------------
  // The 2-D cross product.
  // ---------------------------------------------------------------------

  /** `cross` on `Vector<2>`: the signed area `b0*r1 - b1*r0`. */
  function Cross(v: Vector, w: Vector): (z: real)
    requires |v.b| == 2 && |w.b| == 2
  {
    v.b[0] * w.b[1] - v.b[1] * w.b[0]
  }

  /** Swapping the operands flips the sign. */
  lemma CrossAntisymmetric(v: Vector, w: Vector)
    requires |v.b| == 2 && |w.b| == 2
    ensures Cross(v, w) == -Cross(w, v)
  {
  }

  /** A vector crossed with itself, or with any multiple of itself, is zero. */
  lemma CrossParallel(v: Vector, s: real)
    requires |v.b| == 2
    ensures Cross(v, Scaled(v, s)) == 0.0
  {
    var w := Scaled(v, s);
    assert w.b[0] == v.b[0] * s && w.b[1] == v.b[1] * s;
  }

  /** The crate's tests: (1,2)x(3,4) = -2 and (3,4)x(1,2) = 2. */
  lemma CrossExamples()
    ensures Cross(Vector([1.0, 2.0]), Vector([3.0, 4.0])) == -2.0
    ensures Cross(Vector([3.0, 4.0]), Vector([1.0, 2.0])) == 2.0
  {
  }

  // ---------------------------------------------------------------------
  // The operators.
  // ---------------------------------------------------------------------

  /** `Add`: clone `b`, then `b[i] += rhs.b[i]` for every `i`. */
  method Add(v: Vector, w: Vector) returns (r: Vector)
    requires |v.b| == |w.b|
    ensures r == Plus(v, w)
  {
    var b := new real[|v.b|](i requires 0 <= i < |v.b| => v.b[i]);
    for i := 0 to b.Length
      invariant forall k :: 0 <= k < b.Length ==> b[k] == if k < i then v.b[k] + w.b[k] else v.b[k]
    {
      b[i] := b[i] + w.b[i];
    }
    r := Vector(b[..]);
    VectorExt(r, Plus(v, w));
  }

  /** `Sub`: clone `b`, then `b[i] -= rhs.b[i]` for every `i`. */
  method Sub(v: Vector, w: Vector) returns (r: Vector)
    requires |v.b| == |w.b|
    ensures r == Minus(v, w)
  {
    var b := new real[|v.b|](i requires 0 <= i < |v.b| => v.b[i]);
    for i := 0 to b.Length
      invariant forall k :: 0 <= k < b.Length ==> b[k] == if k < i then v.b[k] - w.b[k] else v.b[k]
    {
      b[i] := b[i] - w.b[i];
    }
    r := Vector(b[..]);
    VectorExt(r, Minus(v, w));
  }

  /** `Mul<f64> for Vector`, `v * s`: clone `b`, then `b[i] *= s`. */
  method Scale(v: Vector, s: real) returns (r: Vector)
    ensures r == Scaled(v, s)
  {
    var b := new real[|v.b|](i requires 0 <= i < |v.b| => v.b[i]);
    for i := 0 to b.Length
      invariant forall k :: 0 <= k < b.Length ==> b[k] == if k < i then v.b[k] * s else v.b[k]
    {
      b[i] := b[i] * s;
    }
    r := Vector(b[..]);
    VectorExt(r, Scaled(v, s));
  }

  /** `Mul<Vector> for f64`, `s * v`: clone the vector's `b`, then
      `b[i] *= s`, the same updates as `v * s`. */
  method ScaleLeft(s: real, v: Vector) returns (r: Vector)
    ensures r == Scaled(v, s)
  {
    var b := new real[|v.b|](i requires 0 <= i < |v.b| => v.b[i]);
    for i := 0 to b.Length
      invariant forall k :: 0 <= k < b.Length ==> b[k] == if k < i then v.b[k] * s else v.b[k]
    {
      b[i] := b[i] * s;
    }
    r := Vector(b[..]);
    VectorExt(r, Scaled(v, s));
  }

  // ---------------------------------------------------------------------
  // Laws.
  // ---------------------------------------------------------------------

  /** ZERO is a unit of addition. */
  lemma PlusZero(v: Vector)
    ensures Plus(v, Zero(|v.b|)) == v
  {
    VectorExt(Plus(v, Zero(|v.b|)), v);
  }

  /** Addition is commutative. */
  lemma PlusCommutes(v: Vector, w: Vector)
    requires |v.b| == |w.b|
    ensures Plus(v, w) == Plus(w, v)
  {
    VectorExt(Plus(v, w), Plus(w, v));
  }

  /** A vector minus itself is ZERO. */
  lemma MinusSelf(v: Vector)
    ensures Minus(v, v) == Zero(|v.b|)
  {
    VectorExt(Minus(v, v), Zero(|v.b|));
  }

  /** Subtraction undoes addition. */
  lemma MinusUndoesPlus(v: Vector, w: Vector)
    requires |v.b| == |w.b|
    ensures Minus(Plus(v, w), w) == v
  {
    VectorExt(Minus(Plus(v, w), w), v);
  }

  /** Scaling by one changes nothing. */
  lemma ScaledOne(v: Vector)
    ensures Scaled(v, 1.0) == v
  {
    VectorExt(Scaled(v, 1.0), v);
  }

  /** Scaling distributes over addition. */
  lemma ScaledDistributes(v: Vector, w: Vector, s: real)
    requires |v.b| == |w.b|
    ensures Scaled(Plus(v, w), s) == Plus(Scaled(v, s), Scaled(w, s))
  {
    var l, r := Scaled(Plus(v, w), s), Plus(Scaled(v, s), Scaled(w, s));
    forall i | 0 <= i < |v.b|
      ensures l.b[i] == r.b[i]
    {
      assert l.b[i] == (v.b[i] + w.b[i]) * s;
      assert r.b[i] == v.b[i] * s + w.b[i] * s;
    }
    VectorExt(l, r);
  }

  /** The crate's tests on (1,2,3) and (4,5,6), with the results computed by the loop methods. */
  method OperatorExamples() returns (sum: Vector, difference: Vector, twice: Vector, twiceLeft: Vector)
    ensures sum.b == [5.0, 7.0, 9.0] && difference.b == [-3.0, -3.0, -3.0]
    ensures twice.b == [2.0, 4.0, 6.0] && twiceLeft.b == [8.0, 10.0, 12.0]
  {
    var v1 := Vector([1.0, 2.0, 3.0]);
    var v2 := Vector([4.0, 5.0, 6.0]);
    sum := Add(v1, v2);
    difference := Sub(v1, v2);
    twice := Scale(v1, 2.0);
    twiceLeft := ScaleLeft(2.0, v2);
  }

  /** The crate's `row` and `column` tests on (1,2,3). */
  method ConversionExamples() returns (row: Matrix, column: Matrix)
    ensures row == Matrix([[1.0, 2.0, 3.0]])
    ensures column.e == [[1.0], [2.0], [3.0]]
  {
    var v1 := Vector([1.0, 2.0, 3.0]);
    row := Row(v1);
    column := Column(v1);
    assert column.e[0] == [1.0] && column.e[1] == [2.0] && column.e[2] == [3.0];
  }
}
