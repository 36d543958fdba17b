/** Dense matrices over the reals and their ring operations.

    `Matrix<T, M, N>` stores `e: [[T; M]; N]`: N rows of M columns, so
    `e[j][i]` is row j, column i. A Rust array is a value, so the model keeps
    a matrix as a `seq` of rows and checks its shape with `Shaped`; the
    buffers the operations fill in place are fresh `array2`s, except in the
    49-product branch, which updates a row-sequence value entry by entry. */
module Matrix {
  import opened Outcomes

  datatype Matrix = Matrix(e: seq<seq<real>>)

  /** `a` has `rows` rows of `cols` entries each. */
  predicate Shaped(a: Matrix, rows: nat, cols: nat)
  {
    |a.e| == rows && forall j :: 0 <= j < rows ==> |a.e[j]| == cols
  }

  /** Two matrices of one shape with the same entries are equal. */
  lemma MatrixExt(a: Matrix, b: Matrix, rows: nat, cols: nat)
    requires Shaped(a, rows, cols) && Shaped(b, rows, cols)
    requires forall j, i :: 0 <= j < rows && 0 <= i < cols ==> a.e[j][i] == b.e[j][i]
    ensures a == b
  {
    assert forall j | 0 <= j < rows :: a.e[j] == b.e[j];
  }

  /** The value held by a filled `rows x cols` buffer. */
  method Freeze(e: array2<real>) returns (r: Matrix)
    ensures Shaped(r, e.Length0, e.Length1)
    ensures forall j, i :: 0 <= j < e.Length0 && 0 <= i < e.Length1 ==> r.e[j][i] == e[j, i]
  {
    r := Matrix(seq(e.Length0, j requires 0 <= j < e.Length0 reads e =>
                  seq(e.Length1, i requires 0 <= i < e.Length1 reads e => e[j, i])));
  }

  // ---------------------------------------------------------------------
  // Bitwise AND on `usize`, as used by the branch guards.
  // ---------------------------------------------------------------------

  /** `a & b` on unsigned integers, bit by bit from the least significant. */
  function BitAnd(a: nat, b: nat): nat
  {
    if a == 0 || b == 0 then 0
    else 2 * BitAnd(a / 2, b / 2) + (if a % 2 == 1 && b % 2 == 1 then 1 else 0)
  }

  /** `a & b` never exceeds either operand. */
  lemma {:induction false} BitAndBound(a: nat, b: nat)
    ensures BitAnd(a, b) <= a && BitAnd(a, b) <= b
  {
    if a != 0 && b != 0 {
      BitAndBound(a / 2, b / 2);
    }
  }

  /** `2 & n` keeps exactly bit 1 of `n`. */
  lemma BitAndTwo(n: nat)
    ensures BitAnd(2, n) == if n % 4 >= 2 then 2 else 0
  {
    if n != 0 {
      var h := n / 2;
      assert BitAnd(2, n) == 2 * BitAnd(1, h);
      if h != 0 {
        assert BitAnd(1, h) == 2 * BitAnd(0, h / 2) + (if h % 2 == 1 then 1 else 0);
      }
      assert n % 4 >= 2 <==> h % 2 == 1;
    }
  }

  // ---------------------------------------------------------------------
  // Reference definitions.
  // ---------------------------------------------------------------------

  /** Row `j` of `a` has at least `k` entries and column `i` of `x` at least `k`. */
  predicate DotDefined(a: Matrix, x: Matrix, j: nat, i: nat, k: nat)
  {
    j < |a.e| && k <= |a.e[j]| && k <= |x.e| && forall t :: 0 <= t < k ==> i < |x.e[t]|
  }

  /** The partial dot product `a[j][0]*x[0][i] + ... + a[j][k-1]*x[k-1][i]`. */
  function Dot(a: Matrix, x: Matrix, j: nat, i: nat, k: nat): real
    requires DotDefined(a, x, j, i, k)
  {
    if k == 0 then 0.0 else Dot(a, x, j, i, k - 1) + a.e[j][k - 1] * x.e[k - 1][i]
  }

  /** The definitional product of an N x M matrix and an M x O matrix. */
  function Product(a: Matrix, x: Matrix, m: nat, n: nat, o: nat): (p: Matrix)
    requires Shaped(a, n, m) && Shaped(x, m, o)
    ensures Shaped(p, n, o)
  {
    Matrix(seq(n, j requires 0 <= j < n => seq(o, i requires 0 <= i < o => Dot(a, x, j, i, m))))
  }

  /** `p` with every entry outside its leading `k x k` block set to zero. */
  function LeadingBlock(p: Matrix, k: nat, n: nat, o: nat): (b: Matrix)
    requires Shaped(p, n, o)
    ensures Shaped(b, n, o)
  {
    Matrix(seq(n, j requires 0 <= j < n =>
             seq(o, i requires 0 <= i < o => if j < k && i < k then p.e[j][i] else 0.0)))
  }

  /** The `k x k` matrix with one on the diagonal and zero elsewhere. */
  function IdentityMatrix(k: nat): (id: Matrix)
    ensures Shaped(id, k, k)
  {
    Matrix(seq(k, j => seq(k, i => if i == j then 1.0 else 0.0)))
  }

  /** Element-wise sum of two N x M matrices. */
  function Plus(a: Matrix, b: Matrix, m: nat, n: nat): (s: Matrix)
    requires Shaped(a, n, m) && Shaped(b, n, m)
    ensures Shaped(s, n, m)
  {
    Matrix(seq(n, j requires 0 <= j < n => seq(m, i requires 0 <= i < m => a.e[j][i] + b.e[j][i])))
  }

  // ---------------------------------------------------------------------
  // Constants.
  // ---------------------------------------------------------------------

  /** `Matrix::<T, M, N>::ZERO`: N rows of M zeros. */
  function Zero(m: nat, n: nat): (z: Matrix)
    ensures Shaped(z, n, m)
    ensures forall j, i :: 0 <= j < n && 0 <= i < m ==> z.e[j][i] == 0.0
  {
    Matrix(seq(n, _ => seq(m, _ => 0.0)))
  }

  /** `Matrix::identity`, the value of `IDENTITY`: it panics unless the matrix
      is square, and otherwise writes ONE along the diagonal of a zero matrix. */
  method Identity(m: nat, n: nat) returns (r: Outcome<Matrix>)
    ensures m != n ==> r == Panic(ExplicitPanic)
    ensures m == n ==> r.Done? && Shaped(r.value, n, m)
    ensures m == n ==> forall j, i :: 0 <= j < n && 0 <= i < m ==>
                         r.value.e[j][i] == if i == j then 1.0 else 0.0
    ensures m == n ==> r == Done(IdentityMatrix(m))
  {
    if m != n {
      return Panic(ExplicitPanic);
    }
    var e := new real[n, m]((_, _) => 0.0);
    var i := 0;
    while i < m
      invariant 0 <= i <= m
      invariant forall j', i' :: 0 <= j' < n && 0 <= i' < m ==>
                  e[j', i'] == if j' == i' && j' < i then 1.0 else 0.0
    {
      e[i, i] := 1.0;
      i := i + 1;
    }
    var z := Freeze(e);
    MatrixExt(z, IdentityMatrix(m), n, m);
    r := Done(z);
  }

  // ---------------------------------------------------------------------
  // Determinant.
  // ---------------------------------------------------------------------

  /** `determinant`. The guard `M == 2 & N` reads `M == (2 & N)`: it holds for
      two columns and a row count whose bit 1 is set (2, 3, 6, 7, ...), and
      also for zero columns and a row count whose bit 1 is clear, where the
      first index is already out of bounds. Every other shape is `todo!()`. */
  function Determinant(a: Matrix, m: nat, n: nat): (r: Outcome<real>)
    requires Shaped(a, n, m)
    ensures r.Done? <==> m == 2 && n % 4 >= 2
    ensures r.Done? ==> r.value == a.e[0][0] * a.e[1][1] - a.e[0][1] * a.e[1][0]
    ensures m == 0 && n % 4 < 2 ==> r == Panic(IndexOutOfBounds)
    ensures !(m == 2 && n % 4 >= 2) && !(m == 0 && n % 4 < 2) ==> r == Panic(Todo)
  {
    BitAndTwo(n);
    if m == BitAnd(2, n) then
      if m == 2 then Done(a.e[0][0] * a.e[1][1] - a.e[0][1] * a.e[1][0])
      else Panic(IndexOutOfBounds)
    else Panic(Todo)
  }

  /** The 2 x 2 determinant is multiplicative. */
  lemma DeterminantOfProduct(a: Matrix, b: Matrix)
    requires Shaped(a, 2, 2) && Shaped(b, 2, 2)
    ensures Determinant(Product(a, b, 2, 2, 2), 2, 2).value
            == Determinant(a, 2, 2).value * Determinant(b, 2, 2).value
  {
    var p := Product(a, b, 2, 2, 2);
    forall j, i | 0 <= j < 2 && 0 <= i < 2 {
      DotSmall(a, b, j, i, 2);
    }
    assert p.e[0][0] == a.e[0][0] * b.e[0][0] + a.e[0][1] * b.e[1][0];
    assert p.e[0][1] == a.e[0][0] * b.e[0][1] + a.e[0][1] * b.e[1][1];
    assert p.e[1][0] == a.e[1][0] * b.e[0][0] + a.e[1][1] * b.e[1][0];
    assert p.e[1][1] == a.e[1][0] * b.e[0][1] + a.e[1][1] * b.e[1][1];
  }

  /** The crate's test: det [[1, 2], [3, 4]] = -2. */
  lemma DeterminantExample()
    ensures Determinant(Matrix([[1.0, 2.0], [3.0, 4.0]]), 2, 2) == Done(-2.0)
  {
  }

  // ---------------------------------------------------------------------
  // Multiplication.
  // ---------------------------------------------------------------------

  /** What `Mul::mul` returns for an N x M matrix `a` times an M x O matrix `x`.
      Each guard `M == k & N & O` reads `M == (k & N & O)`. When it holds with
      M = k the branch computes the leading `k x k` block of the product and
      leaves the rest zero; when it holds with another M the branch indexes
      past the end of a row. */
  function MulSpec(a: Matrix, x: Matrix, m: nat, n: nat, o: nat): Outcome<Matrix>
    requires Shaped(a, n, m) && Shaped(x, m, o)
  {
    var p := Product(a, x, m, n, o);
    if m == BitAnd(BitAnd(2, n), o) then
      (if m == 2 then Done(LeadingBlock(p, 2, n, o)) else Panic(IndexOutOfBounds))
    else if m == BitAnd(BitAnd(3, n), o) then
      (if m == 3 then Done(LeadingBlock(p, 3, n, o)) else Panic(IndexOutOfBounds))
    else if m == BitAnd(BitAnd(4, n), o) then
      (if m == 4 then Done(LeadingBlock(p, 4, n, o)) else Panic(IndexOutOfBounds))
    else
      Done(p)
  }

  /** `Mul::mul`, with its four branches and their guards as written. */
  method Mul(a: Matrix, x: Matrix, m: nat, n: nat, o: nat) returns (r: Outcome<Matrix>)
    requires Shaped(a, n, m) && Shaped(x, m, o)
    ensures r == MulSpec(a, x, m, n, o)
  {
    BitAndBound(2, n);
    BitAndBound(BitAnd(2, n), o);
    BitAndBound(3, n);
    BitAndBound(BitAnd(3, n), o);
    BitAndBound(4, n);
    BitAndBound(BitAnd(4, n), o);
    if m == BitAnd(BitAnd(2, n), o) {
      if m != 2 {
        return Panic(IndexOutOfBounds);
      }
      var p := Strassen(a, x, n, o);
      r := Done(p);
    } else if m == BitAnd(BitAnd(3, n), o) {
      if m != 3 {
        return Panic(IndexOutOfBounds);
      }
      var p := Laderman(a, x, n, o);
      r := Done(p);
    } else if m == BitAnd(BitAnd(4, n), o) {
      if m != 4 {
        return Panic(IndexOutOfBounds);
      }
      var p := AlphaTensor(a, x, n, o);
      r := Done(p);
    } else {
      var p := Standard(a, x, m, n, o);
      r := Done(p);
    }
  }

  /** Dot products of length 2, 3 and 4 written out. */
  lemma DotSmall(a: Matrix, x: Matrix, j: nat, i: nat, k: nat)
    requires 2 <= k <= 4 && DotDefined(a, x, j, i, k)
    ensures k == 2 ==> Dot(a, x, j, i, k) == a.e[j][0] * x.e[0][i] + a.e[j][1] * x.e[1][i]
    ensures k == 3 ==> Dot(a, x, j, i, k)
                       == a.e[j][0] * x.e[0][i] + a.e[j][1] * x.e[1][i] + a.e[j][2] * x.e[2][i]
    ensures k == 4 ==> Dot(a, x, j, i, k)
                       == a.e[j][0] * x.e[0][i] + a.e[j][1] * x.e[1][i] + a.e[j][2] * x.e[2][i]
                          + a.e[j][3] * x.e[3][i]
  {
    assert DotDefined(a, x, j, i, 1) && DotDefined(a, x, j, i, 2);
    assert Dot(a, x, j, i, 1) == a.e[j][0] * x.e[0][i];
    if k >= 3 {
      assert DotDefined(a, x, j, i, 3);
      assert Dot(a, x, j, i, 3) == Dot(a, x, j, i, 2) + a.e[j][2] * x.e[2][i];
    }
  }

  /** A real equal to the four products written out is the dot product of
      length four. */
  lemma DotFour(a: Matrix, x: Matrix, j: nat, i: nat, p: real)
    requires DotDefined(a, x, j, i, 4)
    requires p == a.e[j][0] * x.e[0][i] + a.e[j][1] * x.e[1][i] + a.e[j][2] * x.e[2][i] + a.e[j][3] * x.e[3][i]
    ensures p == Dot(a, x, j, i, 4)
  {
    DotSmall(a, x, j, i, 4);
  }

  /** A matrix holding the dot products of length `k` in its leading block
      and zero elsewhere is the leading block of the product. */
  lemma BlockOfProduct(r: Matrix, a: Matrix, x: Matrix, k: nat, n: nat, o: nat)
    requires Shaped(a, n, k) && Shaped(x, k, o) && Shaped(r, n, o)
    requires forall j, i :: 0 <= j < n && 0 <= i < o ==>
               r.e[j][i] == if j < k && i < k then Dot(a, x, j, i, k) else 0.0
    ensures r == LeadingBlock(Product(a, x, k, n, o), k, n, o)
  {
    MatrixExt(r, LeadingBlock(Product(a, x, k, n, o), k, n, o), n, o);
  }

  /** The entries of a `2 x 2` product, written out, fill the leading block. */
  lemma StrassenBlock(r: Matrix, a: Matrix, x: Matrix, n: nat, o: nat)
    requires Shaped(a, n, 2) && Shaped(x, 2, o) && Shaped(r, n, o) && 2 <= n && 2 <= o
    requires r.e[0][0] == a.e[0][0] * x.e[0][0] + a.e[0][1] * x.e[1][0]
    requires r.e[0][1] == a.e[0][0] * x.e[0][1] + a.e[0][1] * x.e[1][1]
    requires r.e[1][0] == a.e[1][0] * x.e[0][0] + a.e[1][1] * x.e[1][0]
    requires r.e[1][1] == a.e[1][0] * x.e[0][1] + a.e[1][1] * x.e[1][1]
    requires forall j, i :: 0 <= j < n && 0 <= i < o && !(j < 2 && i < 2) ==> r.e[j][i] == 0.0
    ensures r == LeadingBlock(Product(a, x, 2, n, o), 2, n, o)
  {
    forall j, i | 0 <= j < 2 && 0 <= i < 2 ensures r.e[j][i] == Dot(a, x, j, i, 2) {
      DotSmall(a, x, j, i, 2);
    }
    BlockOfProduct(r, a, x, 2, n, o);
  }

  /** The entries of a `3 x 3` product, written out, fill the leading block. */
  lemma LadermanBlock(r: Matrix, a: Matrix, x: Matrix, n: nat, o: nat)
    requires Shaped(a, n, 3) && Shaped(x, 3, o) && Shaped(r, n, o) && 3 <= n && 3 <= o
    requires r.e[0][0] == a.e[0][0] * x.e[0][0] + a.e[0][1] * x.e[1][0] + a.e[0][2] * x.e[2][0]
    requires r.e[0][1] == a.e[0][0] * x.e[0][1] + a.e[0][1] * x.e[1][1] + a.e[0][2] * x.e[2][1]
    requires r.e[0][2] == a.e[0][0] * x.e[0][2] + a.e[0][1] * x.e[1][2] + a.e[0][2] * x.e[2][2]
    requires r.e[1][0] == a.e[1][0] * x.e[0][0] + a.e[1][1] * x.e[1][0] + a.e[1][2] * x.e[2][0]
    requires r.e[1][1] == a.e[1][0] * x.e[0][1] + a.e[1][1] * x.e[1][1] + a.e[1][2] * x.e[2][1]
    requires r.e[1][2] == a.e[1][0] * x.e[0][2] + a.e[1][1] * x.e[1][2] + a.e[1][2] * x.e[2][2]
    requires r.e[2][0] == a.e[2][0] * x.e[0][0] + a.e[2][1] * x.e[1][0] + a.e[2][2] * x.e[2][0]
    requires r.e[2][1] == a.e[2][0] * x.e[0][1] + a.e[2][1] * x.e[1][1] + a.e[2][2] * x.e[2][1]
    requires r.e[2][2] == a.e[2][0] * x.e[0][2] + a.e[2][1] * x.e[1][2] + a.e[2][2] * x.e[2][2]
    requires forall j, i :: 0 <= j < n && 0 <= i < o && !(j < 3 && i < 3) ==> r.e[j][i] == 0.0
    ensures r == LeadingBlock(Product(a, x, 3, n, o), 3, n, o)
  {
    forall j, i | 0 <= j < 3 && 0 <= i < 3 ensures r.e[j][i] == Dot(a, x, j, i, 3) {
      DotSmall(a, x, j, i, 3);
    }
    BlockOfProduct(r, a, x, 3, n, o);
  }

  /** The sixteen dot products, with zeros elsewhere, fill the leading block. */
  lemma AlphaTensorBlock(r: Matrix, a: Matrix, x: Matrix, n: nat, o: nat)
    requires Shaped(a, n, 4) && Shaped(x, 4, o) && Shaped(r, n, o) && 4 <= n && 4 <= o
    requires r.e[0][0] == Dot(a, x, 0, 0, 4)
    requires r.e[0][1] == Dot(a, x, 0, 1, 4)
    requires r.e[0][2] == Dot(a, x, 0, 2, 4)
    requires r.e[0][3] == Dot(a, x, 0, 3, 4)
    requires r.e[1][0] == Dot(a, x, 1, 0, 4)
    requires r.e[1][1] == Dot(a, x, 1, 1, 4)
    requires r.e[1][2] == Dot(a, x, 1, 2, 4)
    requires r.e[1][3] == Dot(a, x, 1, 3, 4)
    requires r.e[2][0] == Dot(a, x, 2, 0, 4)
    requires r.e[2][1] == Dot(a, x, 2, 1, 4)
    requires r.e[2][2] == Dot(a, x, 2, 2, 4)
    requires r.e[2][3] == Dot(a, x, 2, 3, 4)
    requires r.e[3][0] == Dot(a, x, 3, 0, 4)
    requires r.e[3][1] == Dot(a, x, 3, 1, 4)
    requires r.e[3][2] == Dot(a, x, 3, 2, 4)
    requires r.e[3][3] == Dot(a, x, 3, 3, 4)
    requires forall j, i :: 0 <= j < n && 0 <= i < o && !(j < 4 && i < 4) ==> r.e[j][i] == 0.0
    ensures r == LeadingBlock(Product(a, x, 4, n, o), 4, n, o)
  {
    BlockOfProduct(r, a, x, 4, n, o);
  }

  /** The sixteen entries of the 49-product scheme as polynomial identities,
      each of which makes the entry a dot product. */
  lemma AlphaTensorEntry00(a: Matrix, x: Matrix, n: nat, o: nat, h1: real, h2: real, h5: real, h9: real, h15: real, h33: real)
    requires Shaped(a, n, 4) && Shaped(x, 4, o) && 4 <= n && 4 <= o
    requires h1 == (a.e[0][0] + a.e[2][0]) * (x.e[0][0] + x.e[2][0])
    requires h2 == (a.e[0][0] - a.e[0][2] + a.e[2][0]) * (x.e[0][0] - x.e[0][2] + x.e[2][0])
    requires h5 == (-a.e[2][0]) * (-x.e[0][2])
    requires h9 == (a.e[0][0] - a.e[0][2]) * (x.e[0][0] - x.e[0][2])
    requires h15 == (-a.e[0][1] - a.e[0][3]) * (-x.e[1][0])
    requires h33 == a.e[0][3] * (-x.e[1][0] + x.e[3][0])
    ensures h1 - h2 - h5 + h9 + h15 + h33 == a.e[0][0] * x.e[0][0] + a.e[0][1] * x.e[1][0] + a.e[0][2] * x.e[2][0] + a.e[0][3] * x.e[3][0]
    ensures h1 - h2 - h5 + h9 + h15 + h33 == Dot(a, x, 0, 0, 4)
  {
    DotFour(a, x, 0, 0, h1 - h2 - h5 + h9 + h15 + h33);
  }

  lemma AlphaTensorEntry01(a: Matrix, x: Matrix, n: nat, o: nat, h7: real, h8: real, h10: real, h11: real, h14: real, h15: real, h16: real, h17: real, h18: real, h21: real, h31: real, h33: real, h35: real, h36: real)
    requires Shaped(a, n, 4) && Shaped(x, 4, o) && 4 <= n && 4 <= o
    requires h7 == (-a.e[1][0] + a.e[1][1] - a.e[1][2] - a.e[1][3]) * (-x.e[1][0] + x.e[1][1] - x.e[1][2] - x.e[1][3])
    requires h8 == (-a.e[1][0] + a.e[1][1] - a.e[1][2] - a.e[1][3] - a.e[3][0] + a.e[3][1]) * (-x.e[1][0] + x.e[1][1] - x.e[1][2] - x.e[1][3] - x.e[3][0] + x.e[3][1])
    requires h10 == (-a.e[1][0] + a.e[1][1] - a.e[3][0] + a.e[3][1]) * (-x.e[1][0] + x.e[1][1] - x.e[3][0] + x.e[3][1])
    requires h11 == (a.e[3][0] - a.e[3][1]) * (-x.e[1][2] - x.e[1][3])
    requires h14 == (a.e[0][0] - a.e[0][1] + a.e[1][0] - a.e[1][1]) * (-x.e[0][1] - x.e[0][3])
    requires h15 == (-a.e[0][1] - a.e[0][3]) * (-x.e[1][0])
    requires h16 == (a.e[0][1] + a.e[0][3] - a.e[1][0] + a.e[1][1] + a.e[1][2] + a.e[1][3]) * (x.e[0][1] + x.e[0][3] - x.e[1][0] + x.e[1][1] + x.e[1][2] + x.e[1][3])
    requires h17 == (a.e[0][1] + a.e[0][3] - a.e[1][0] + a.e[1][1] + a.e[1][2] + a.e[1][3] + a.e[2][1] + a.e[3][0] - a.e[3][1]) * (x.e[0][1] + x.e[0][3] - x.e[1][0] + x.e[1][1] + x.e[1][2] + x.e[1][3] + x.e[2][1] + x.e[3][0] - x.e[3][1])
    requires h18 == (a.e[0][1] - a.e[1][0] + a.e[1][1] + a.e[2][1] + a.e[3][0] - a.e[3][1]) * (x.e[0][1] - x.e[1][0] + x.e[1][1] + x.e[2][1] + x.e[3][0] - x.e[3][1])
    requires h21 == (a.e[2][1] + a.e[3][0] - a.e[3][1]) * (x.e[0][3] + x.e[1][2] + x.e[1][3])
    requires h31 == (a.e[0][0] - a.e[0][1] - a.e[0][2] - a.e[0][3] + a.e[1][0] - a.e[1][1] - a.e[1][2] - a.e[1][3] + a.e[2][0] - a.e[2][1] - a.e[2][2] - a.e[2][3] - a.e[3][0] + a.e[3][1] + a.e[3][2] + a.e[3][3]) * x.e[0][3]
    requires h33 == a.e[0][3] * (-x.e[1][0] + x.e[3][0])
    requires h35 == (a.e[0][2] + a.e[0][3] + a.e[1][2] + a.e[1][3] - a.e[2][0] + a.e[2][1] + a.e[2][2] + a.e[2][3] + a.e[3][0] - a.e[3][1] - a.e[3][2] - a.e[3][3]) * (x.e[0][3] - x.e[2][1])
    requires h36 == (-a.e[2][0] + a.e[2][1] + a.e[2][2] + a.e[2][3] + a.e[3][0] - a.e[3][1] - a.e[3][2] - a.e[3][3]) * x.e[2][1]
    ensures -h7 + h8 - h10 + h11 - h14 + h15 + h16 - h17 + h18 + h21 - h31 + h33 - h35 - h36 == a.e[0][0] * x.e[0][1] + a.e[0][1] * x.e[1][1] + a.e[0][2] * x.e[2][1] + a.e[0][3] * x.e[3][1]
    ensures -h7 + h8 - h10 + h11 - h14 + h15 + h16 - h17 + h18 + h21 - h31 + h33 - h35 - h36 == Dot(a, x, 0, 1, 4)
  {
    DotFour(a, x, 0, 1, -h7 + h8 - h10 + h11 - h14 + h15 + h16 - h17 + h18 + h21 - h31 + h33 - h35 - h36);
  }

  lemma AlphaTensorEntry02(a: Matrix, x: Matrix, n: nat, o: nat, h1: real, h2: real, h3: real, h5: real, h33: real, h34: real, h37: real, h40: real)
    requires Shaped(a, n, 4) && Shaped(x, 4, o) && 4 <= n && 4 <= o
    requires h1 == (a.e[0][0] + a.e[2][0]) * (x.e[0][0] + x.e[2][0])
    requires h2 == (a.e[0][0] - a.e[0][2] + a.e[2][0]) * (x.e[0][0] - x.e[0][2] + x.e[2][0])
    requires h3 == (-a.e[0][2]) * (x.e[0][0] - x.e[0][2] + x.e[2][0] - x.e[2][2])
    requires h5 == (-a.e[2][0]) * (-x.e[0][2])
    requires h33 == a.e[0][3] * (-x.e[1][0] + x.e[3][0])
    requires h34 == (a.e[0][3] - a.e[2][1]) * (-x.e[1][0] + x.e[3][0] - x.e[3][2])
    requires h37 == (a.e[0][1] + a.e[2][1]) * (x.e[1][2])
    requires h40 == a.e[2][1] * (-x.e[1][0] + x.e[1][2] + x.e[3][0] - x.e[3][2])
    ensures h1 - h2 + h3 - h5 + h33 - h34 + h37 - h40 == a.e[0][0] * x.e[0][2] + a.e[0][1] * x.e[1][2] + a.e[0][2] * x.e[2][2] + a.e[0][3] * x.e[3][2]
    ensures h1 - h2 + h3 - h5 + h33 - h34 + h37 - h40 == Dot(a, x, 0, 2, 4)
  {
    DotFour(a, x, 0, 2, h1 - h2 + h3 - h5 + h33 - h34 + h37 - h40);
  }

  lemma AlphaTensorEntry03(a: Matrix, x: Matrix, n: nat, o: nat, h8: real, h10: real, h11: real, h13: real, h17: real, h18: real, h19: real, h21: real, h31: real, h33: real, h34: real, h35: real, h36: real, h37: real, h39: real, h40: real)
    requires Shaped(a, n, 4) && Shaped(x, 4, o) && 4 <= n && 4 <= o
    requires h8 == (-a.e[1][0] + a.e[1][1] - a.e[1][2] - a.e[1][3] - a.e[3][0] + a.e[3][1]) * (-x.e[1][0] + x.e[1][1] - x.e[1][2] - x.e[1][3] - x.e[3][0] + x.e[3][1])
    requires h10 == (-a.e[1][0] + a.e[1][1] - a.e[3][0] + a.e[3][1]) * (-x.e[1][0] + x.e[1][1] - x.e[3][0] + x.e[3][1])
    requires h11 == (a.e[3][0] - a.e[3][1]) * (-x.e[1][2] - x.e[1][3])
    requires h13 == (-a.e[1][2] - a.e[1][3]) * (-x.e[1][0] + x.e[1][1] - x.e[1][2] - x.e[1][3] - x.e[3][0] + x.e[3][1] - x.e[3][2] - x.e[3][3])
    requires h17 == (a.e[0][1] + a.e[0][3] - a.e[1][0] + a.e[1][1] + a.e[1][2] + a.e[1][3] + a.e[2][1] + a.e[3][0] - a.e[3][1]) * (x.e[0][1] + x.e[0][3] - x.e[1][0] + x.e[1][1] + x.e[1][2] + x.e[1][3] + x.e[2][1] + x.e[3][0] - x.e[3][1])
    requires h18 == (a.e[0][1] - a.e[1][0] + a.e[1][1] + a.e[2][1] + a.e[3][0] - a.e[3][1]) * (x.e[0][1] - x.e[1][0] + x.e[1][1] + x.e[2][1] + x.e[3][0] - x.e[3][1])
    requires h19 == (a.e[0][3] + a.e[1][2] + a.e[1][3]) * (x.e[0][1] + x.e[0][3] - x.e[1][0] + x.e[1][1] + x.e[1][2] + x.e[1][3] + x.e[2][1] + x.e[2][3] + x.e[3][0] - x.e[3][1] - x.e[3][2] - x.e[3][3])
    requires h21 == (a.e[2][1] + a.e[3][0] - a.e[3][1]) * (x.e[0][3] + x.e[1][2] + x.e[1][3])
    requires h31 == (a.e[0][0] - a.e[0][1] - a.e[0][2] - a.e[0][3] + a.e[1][0] - a.e[1][1] - a.e[1][2] - a.e[1][3] + a.e[2][0] - a.e[2][1] - a.e[2][2] - a.e[2][3] - a.e[3][0] + a.e[3][1] + a.e[3][2] + a.e[3][3]) * x.e[0][3]
    requires h33 == a.e[0][3] * (-x.e[1][0] + x.e[3][0])
    requires h34 == (a.e[0][3] - a.e[2][1]) * (-x.e[1][0] + x.e[3][0] - x.e[3][2])
    requires h35 == (a.e[0][2] + a.e[0][3] + a.e[1][2] + a.e[1][3] - a.e[2][0] + a.e[2][1] + a.e[2][2] + a.e[2][3] + a.e[3][0] - a.e[3][1] - a.e[3][2] - a.e[3][3]) * (x.e[0][3] - x.e[2][1])
    requires h36 == (-a.e[2][0] + a.e[2][1] + a.e[2][2] + a.e[2][3] + a.e[3][0] - a.e[3][1] - a.e[3][2] - a.e[3][3]) * x.e[2][1]
    requires h37 == (a.e[0][1] + a.e[2][1]) * (x.e[1][2])
    requires h39 == (-a.e[0][2] - a.e[0][3] - a.e[1][2] - a.e[1][3]) * (x.e[2][1] + x.e[2][3])
    requires h40 == a.e[2][1] * (-x.e[1][0] + x.e[1][2] + x.e[3][0] - x.e[3][2])
    ensures h8 - h10 + h11 - h13 + h17 - h18 - h19 - h21 + h31 - h33 + h34 + h35 + h36 - h37 - h39 + h40 == a.e[0][0] * x.e[0][3] + a.e[0][1] * x.e[1][3] + a.e[0][2] * x.e[2][3] + a.e[0][3] * x.e[3][3]
    ensures h8 - h10 + h11 - h13 + h17 - h18 - h19 - h21 + h31 - h33 + h34 + h35 + h36 - h37 - h39 + h40 == Dot(a, x, 0, 3, 4)
  {
    DotFour(a, x, 0, 3, h8 - h10 + h11 - h13 + h17 - h18 - h19 - h21 + h31 - h33 + h34 + h35 + h36 - h37 - h39 + h40);
  }

  lemma AlphaTensorEntry10(a: Matrix, x: Matrix, n: nat, o: nat, h15: real, h16: real, h17: real, h18: real, h21: real, h22: real, h23: real, h26: real, h33: real, h41: real, h44: real, h49: real)
    requires Shaped(a, n, 4) && Shaped(x, 4, o) && 4 <= n && 4 <= o
    requires h15 == (-a.e[0][1] - a.e[0][3]) * (-x.e[1][0])
    requires h16 == (a.e[0][1] + a.e[0][3] - a.e[1][0] + a.e[1][1] + a.e[1][2] + a.e[1][3]) * (x.e[0][1] + x.e[0][3] - x.e[1][0] + x.e[1][1] + x.e[1][2] + x.e[1][3])
    requires h17 == (a.e[0][1] + a.e[0][3] - a.e[1][0] + a.e[1][1] + a.e[1][2] + a.e[1][3] + a.e[2][1] + a.e[3][0] - a.e[3][1]) * (x.e[0][1] + x.e[0][3] - x.e[1][0] + x.e[1][1] + x.e[1][2] + x.e[1][3] + x.e[2][1] + x.e[3][0] - x.e[3][1])
    requires h18 == (a.e[0][1] - a.e[1][0] + a.e[1][1] + a.e[2][1] + a.e[3][0] - a.e[3][1]) * (x.e[0][1] - x.e[1][0] + x.e[1][1] + x.e[2][1] + x.e[3][0] - x.e[3][1])
    requires h21 == (a.e[2][1] + a.e[3][0] - a.e[3][1]) * (x.e[0][3] + x.e[1][2] + x.e[1][3])
    requires h22 == (a.e[0][1] + a.e[0][3] + a.e[1][1] + a.e[1][3]) * (x.e[0][1] + x.e[0][3] + x.e[1][1] + x.e[1][3])
    requires h23 == (a.e[0][1] + a.e[0][3] + a.e[1][1] + a.e[1][3] + a.e[2][1] - a.e[3][1]) * (x.e[0][1] + x.e[0][3] + x.e[1][1] + x.e[1][3] + x.e[2][1] - x.e[3][1])
    requires h26 == (a.e[2][1] - a.e[3][1]) * (x.e[0][3] + x.e[1][3])
    requires h33 == a.e[0][3] * (-x.e[1][0] + x.e[3][0])
    requires h41 == (-a.e[1][0]) * (x.e[0][0] - x.e[0][1] + x.e[1][0] - x.e[1][1])
    requires h44 == (a.e[0][1] + a.e[1][1] + a.e[2][1] - a.e[3][1]) * (x.e[0][1] + x.e[1][1] + x.e[2][1] - x.e[3][1])
    requires h49 == (-a.e[1][2]) * (-x.e[2][0] + x.e[2][1] + x.e[3][0] - x.e[3][1])
    ensures -h15 - h16 + h17 - h18 - h21 + h22 - h23 + h26 - h33 - h41 + h44 + h49 == a.e[1][0] * x.e[0][0] + a.e[1][1] * x.e[1][0] + a.e[1][2] * x.e[2][0] + a.e[1][3] * x.e[3][0]
    ensures -h15 - h16 + h17 - h18 - h21 + h22 - h23 + h26 - h33 - h41 + h44 + h49 == Dot(a, x, 1, 0, 4)
  {
    DotFour(a, x, 1, 0, -h15 - h16 + h17 - h18 - h21 + h22 - h23 + h26 - h33 - h41 + h44 + h49);
  }

  lemma AlphaTensorEntry11(a: Matrix, x: Matrix, n: nat, o: nat, h7: real, h8: real, h10: real, h11: real, h15: real, h16: real, h17: real, h18: real, h21: real, h22: real, h23: real, h26: real, h33: real, h44: real)
    requires Shaped(a, n, 4) && Shaped(x, 4, o) && 4 <= n && 4 <= o
    requires h7 == (-a.e[1][0] + a.e[1][1] - a.e[1][2] - a.e[1][3]) * (-x.e[1][0] + x.e[1][1] - x.e[1][2] - x.e[1][3])
    requires h8 == (-a.e[1][0] + a.e[1][1] - a.e[1][2] - a.e[1][3] - a.e[3][0] + a.e[3][1]) * (-x.e[1][0] + x.e[1][1] - x.e[1][2] - x.e[1][3] - x.e[3][0] + x.e[3][1])
    requires h10 == (-a.e[1][0] + a.e[1][1] - a.e[3][0] + a.e[3][1]) * (-x.e[1][0] + x.e[1][1] - x.e[3][0] + x.e[3][1])
    requires h11 == (a.e[3][0] - a.e[3][1]) * (-x.e[1][2] - x.e[1][3])
    requires h15 == (-a.e[0][1] - a.e[0][3]) * (-x.e[1][0])
    requires h16 == (a.e[0][1] + a.e[0][3] - a.e[1][0] + a.e[1][1] + a.e[1][2] + a.e[1][3]) * (x.e[0][1] + x.e[0][3] - x.e[1][0] + x.e[1][1] + x.e[1][2] + x.e[1][3])
    requires h17 == (a.e[0][1] + a.e[0][3] - a.e[1][0] + a.e[1][1] + a.e[1][2] + a.e[1][3] + a.e[2][1] + a.e[3][0] - a.e[3][1]) * (x.e[0][1] + x.e[0][3] - x.e[1][0] + x.e[1][1] + x.e[1][2] + x.e[1][3] + x.e[2][1] + x.e[3][0] - x.e[3][1])
    requires h18 == (a.e[0][1] - a.e[1][0] + a.e[1][1] + a.e[2][1] + a.e[3][0] - a.e[3][1]) * (x.e[0][1] - x.e[1][0] + x.e[1][1] + x.e[2][1] + x.e[3][0] - x.e[3][1])
    requires h21 == (a.e[2][1] + a.e[3][0] - a.e[3][1]) * (x.e[0][3] + x.e[1][2] + x.e[1][3])
    requires h22 == (a.e[0][1] + a.e[0][3] + a.e[1][1] + a.e[1][3]) * (x.e[0][1] + x.e[0][3] + x.e[1][1] + x.e[1][3])
    requires h23 == (a.e[0][1] + a.e[0][3] + a.e[1][1] + a.e[1][3] + a.e[2][1] - a.e[3][1]) * (x.e[0][1] + x.e[0][3] + x.e[1][1] + x.e[1][3] + x.e[2][1] - x.e[3][1])
    requires h26 == (a.e[2][1] - a.e[3][1]) * (x.e[0][3] + x.e[1][3])
    requires h33 == a.e[0][3] * (-x.e[1][0] + x.e[3][0])
    requires h44 == (a.e[0][1] + a.e[1][1] + a.e[2][1] - a.e[3][1]) * (x.e[0][1] + x.e[1][1] + x.e[2][1] - x.e[3][1])
    ensures h7 - h8 + h10 - h11 - h15 - h16 + h17 - h18 - h21 + h22 - h23 + h26 - h33 + h44 == a.e[1][0] * x.e[0][1] + a.e[1][1] * x.e[1][1] + a.e[1][2] * x.e[2][1] + a.e[1][3] * x.e[3][1]
    ensures h7 - h8 + h10 - h11 - h15 - h16 + h17 - h18 - h21 + h22 - h23 + h26 - h33 + h44 == Dot(a, x, 1, 1, 4)
  {
    DotFour(a, x, 1, 1, h7 - h8 + h10 - h11 - h15 - h16 + h17 - h18 - h21 + h22 - h23 + h26 - h33 + h44);
  }

  lemma AlphaTensorEntry12(a: Matrix, x: Matrix, n: nat, o: nat, h17: real, h18: real, h19: real, h21: real, h23: real, h24: real, h26: real, h33: real, h34: real, h37: real, h40: real, h43: real, h44: real, h45: real, h47: real, h49: real)
    requires Shaped(a, n, 4) && Shaped(x, 4, o) && 4 <= n && 4 <= o
    requires h17 == (a.e[0][1] + a.e[0][3] - a.e[1][0] + a.e[1][1] + a.e[1][2] + a.e[1][3] + a.e[2][1] + a.e[3][0] - a.e[3][1]) * (x.e[0][1] + x.e[0][3] - x.e[1][0] + x.e[1][1] + x.e[1][2] + x.e[1][3] + x.e[2][1] + x.e[3][0] - x.e[3][1])
    requires h18 == (a.e[0][1] - a.e[1][0] + a.e[1][1] + a.e[2][1] + a.e[3][0] - a.e[3][1]) * (x.e[0][1] - x.e[1][0] + x.e[1][1] + x.e[2][1] + x.e[3][0] - x.e[3][1])
    requires h19 == (a.e[0][3] + a.e[1][2] + a.e[1][3]) * (x.e[0][1] + x.e[0][3] - x.e[1][0] + x.e[1][1] + x.e[1][2] + x.e[1][3] + x.e[2][1] + x.e[2][3] + x.e[3][0] - x.e[3][1] - x.e[3][2] - x.e[3][3])
    requires h21 == (a.e[2][1] + a.e[3][0] - a.e[3][1]) * (x.e[0][3] + x.e[1][2] + x.e[1][3])
    requires h23 == (a.e[0][1] + a.e[0][3] + a.e[1][1] + a.e[1][3] + a.e[2][1] - a.e[3][1]) * (x.e[0][1] + x.e[0][3] + x.e[1][1] + x.e[1][3] + x.e[2][1] - x.e[3][1])
    requires h24 == (a.e[0][3] + a.e[1][3]) * (x.e[0][1] + x.e[0][3] + x.e[1][1] + x.e[1][3] + x.e[2][1] + x.e[2][3] - x.e[3][1] - x.e[3][3])
    requires h26 == (a.e[2][1] - a.e[3][1]) * (x.e[0][3] + x.e[1][3])
    requires h33 == a.e[0][3] * (-x.e[1][0] + x.e[3][0])
    requires h34 == (a.e[0][3] - a.e[2][1]) * (-x.e[1][0] + x.e[3][0] - x.e[3][2])
    requires h37 == (a.e[0][1] + a.e[2][1]) * (x.e[1][2])
    requires h40 == a.e[2][1] * (-x.e[1][0] + x.e[1][2] + x.e[3][0] - x.e[3][2])
    requires h43 == (-a.e[1][0] + a.e[3][0] - a.e[3][2]) * (x.e[0][2] + x.e[0][3] + x.e[1][2] + x.e[1][3] - x.e[2][0] + x.e[2][1] + x.e[2][2] + x.e[2][3] + x.e[3][0] - x.e[3][1] - x.e[3][2] - x.e[3][3])
    requires h44 == (a.e[0][1] + a.e[1][1] + a.e[2][1] - a.e[3][1]) * (x.e[0][1] + x.e[1][1] + x.e[2][1] - x.e[3][1])
    requires h45 == (-a.e[1][0] + a.e[1][2] + a.e[3][0] - a.e[3][2]) * (-x.e[2][0] + x.e[2][1] + x.e[2][2] + x.e[2][3] + x.e[3][0] - x.e[3][1] - x.e[3][2] - x.e[3][3])
    requires h47 == (a.e[3][0] - a.e[3][2]) * (-x.e[0][2] - x.e[0][3] - x.e[1][2] - x.e[1][3])
    requires h49 == (-a.e[1][2]) * (-x.e[2][0] + x.e[2][1] + x.e[3][0] - x.e[3][1])
    ensures h17 - h18 - h19 - h21 - h23 + h24 + h26 - h33 + h34 - h37 + h40 - h43 + h44 + h45 - h47 + h49 == a.e[1][0] * x.e[0][2] + a.e[1][1] * x.e[1][2] + a.e[1][2] * x.e[2][2] + a.e[1][3] * x.e[3][2]
    ensures h17 - h18 - h19 - h21 - h23 + h24 + h26 - h33 + h34 - h37 + h40 - h43 + h44 + h45 - h47 + h49 == Dot(a, x, 1, 2, 4)
  {
    DotFour(a, x, 1, 2, h17 - h18 - h19 - h21 - h23 + h24 + h26 - h33 + h34 - h37 + h40 - h43 + h44 + h45 - h47 + h49);
  }

  lemma AlphaTensorEntry13(a: Matrix, x: Matrix, n: nat, o: nat, h8: real, h10: real, h11: real, h13: real, h17: real, h18: real, h19: real, h21: real, h23: real, h24: real, h26: real, h33: real, h34: real, h37: real, h40: real, h44: real)
    requires Shaped(a, n, 4) && Shaped(x, 4, o) && 4 <= n && 4 <= o
    requires h8 == (-a.e[1][0] + a.e[1][1] - a.e[1][2] - a.e[1][3] - a.e[3][0] + a.e[3][1]) * (-x.e[1][0] + x.e[1][1] - x.e[1][2] - x.e[1][3] - x.e[3][0] + x.e[3][1])
    requires h10 == (-a.e[1][0] + a.e[1][1] - a.e[3][0] + a.e[3][1]) * (-x.e[1][0] + x.e[1][1] - x.e[3][0] + x.e[3][1])
    requires h11 == (a.e[3][0] - a.e[3][1]) * (-x.e[1][2] - x.e[1][3])
    requires h13 == (-a.e[1][2] - a.e[1][3]) * (-x.e[1][0] + x.e[1][1] - x.e[1][2] - x.e[1][3] - x.e[3][0] + x.e[3][1] - x.e[3][2] - x.e[3][3])
    requires h17 == (a.e[0][1] + a.e[0][3] - a.e[1][0] + a.e[1][1] + a.e[1][2] + a.e[1][3] + a.e[2][1] + a.e[3][0] - a.e[3][1]) * (x.e[0][1] + x.e[0][3] - x.e[1][0] + x.e[1][1] + x.e[1][2] + x.e[1][3] + x.e[2][1] + x.e[3][0] - x.e[3][1])
    requires h18 == (a.e[0][1] - a.e[1][0] + a.e[1][1] + a.e[2][1] + a.e[3][0] - a.e[3][1]) * (x.e[0][1] - x.e[1][0] + x.e[1][1] + x.e[2][1] + x.e[3][0] - x.e[3][1])
    requires h19 == (a.e[0][3] + a.e[1][2] + a.e[1][3]) * (x.e[0][1] + x.e[0][3] - x.e[1][0] + x.e[1][1] + x.e[1][2] + x.e[1][3] + x.e[2][1] + x.e[2][3] + x.e[3][0] - x.e[3][1] - x.e[3][2] - x.e[3][3])
    requires h21 == (a.e[2][1] + a.e[3][0] - a.e[3][1]) * (x.e[0][3] + x.e[1][2] + x.e[1][3])
    requires h23 == (a.e[0][1] + a.e[0][3] + a.e[1][1] + a.e[1][3] + a.e[2][1] - a.e[3][1]) * (x.e[0][1] + x.e[0][3] + x.e[1][1] + x.e[1][3] + x.e[2][1] - x.e[3][1])
    requires h24 == (a.e[0][3] + a.e[1][3]) * (x.e[0][1] + x.e[0][3] + x.e[1][1] + x.e[1][3] + x.e[2][1] + x.e[2][3] - x.e[3][1] - x.e[3][3])
    requires h26 == (a.e[2][1] - a.e[3][1]) * (x.e[0][3] + x.e[1][3])
    requires h33 == a.e[0][3] * (-x.e[1][0] + x.e[3][0])
    requires h34 == (a.e[0][3] - a.e[2][1]) * (-x.e[1][0] + x.e[3][0] - x.e[3][2])
    requires h37 == (a.e[0][1] + a.e[2][1]) * (x.e[1][2])
    requires h40 == a.e[2][1] * (-x.e[1][0] + x.e[1][2] + x.e[3][0] - x.e[3][2])
    requires h44 == (a.e[0][1] + a.e[1][1] + a.e[2][1] - a.e[3][1]) * (x.e[0][1] + x.e[1][1] + x.e[2][1] - x.e[3][1])
    ensures -h8 + h10 + -h11 + h13 + -h17 + h18 + h19 + h21 + h23 - h24 - h26 + h33 - h34 + h37 - h40 - h44 == a.e[1][0] * x.e[0][3] + a.e[1][1] * x.e[1][3] + a.e[1][2] * x.e[2][3] + a.e[1][3] * x.e[3][3]
    ensures -h8 + h10 + -h11 + h13 + -h17 + h18 + h19 + h21 + h23 - h24 - h26 + h33 - h34 + h37 - h40 - h44 == Dot(a, x, 1, 3, 4)
  {
    DotFour(a, x, 1, 3, -h8 + h10 + -h11 + h13 + -h17 + h18 + h19 + h21 + h23 - h24 - h26 + h33 - h34 + h37 - h40 - h44);
  }

  lemma AlphaTensorEntry20(a: Matrix, x: Matrix, n: nat, o: nat, h2: real, h5: real, h6: real, h9: real, h29: real, h33: real, h34: real, h38: real)
    requires Shaped(a, n, 4) && Shaped(x, 4, o) && 4 <= n && 4 <= o
    requires h2 == (a.e[0][0] - a.e[0][2] + a.e[2][0]) * (x.e[0][0] - x.e[0][2] + x.e[2][0])
    requires h5 == (-a.e[2][0]) * (-x.e[0][2])
    requires h6 == (a.e[0][0] - a.e[0][2] + a.e[2][0] - a.e[2][2]) * (-x.e[2][0])
    requires h9 == (a.e[0][0] - a.e[0][2]) * (x.e[0][0] - x.e[0][2])
    requires h29 == (a.e[0][3] + a.e[2][3]) * (-x.e[3][2])
    requires h33 == a.e[0][3] * (-x.e[1][0] + x.e[3][0])
    requires h34 == (a.e[0][3] - a.e[2][1]) * (-x.e[1][0] + x.e[3][0] - x.e[3][2])
    requires h38 == (a.e[2][1] + a.e[2][3]) * (x.e[3][0] - x.e[3][2])
    ensures h2 + h5 + h6 - h9 - h29 - h33 + h34 + h38 == a.e[2][0] * x.e[0][0] + a.e[2][1] * x.e[1][0] + a.e[2][2] * x.e[2][0] + a.e[2][3] * x.e[3][0]
    ensures h2 + h5 + h6 - h9 - h29 - h33 + h34 + h38 == Dot(a, x, 2, 0, 4)
  {
    DotFour(a, x, 2, 0, h2 + h5 + h6 - h9 - h29 - h33 + h34 + h38);
  }

  lemma AlphaTensorEntry21(a: Matrix, x: Matrix, n: nat, o: nat, h7: real, h8: real, h11: real, h12: real, h16: real, h17: real, h20: real, h21: real, h29: real, h33: real, h34: real, h36: real, h38: real, h46: real)
    requires Shaped(a, n, 4) && Shaped(x, 4, o) && 4 <= n && 4 <= o
    requires h7 == (-a.e[1][0] + a.e[1][1] - a.e[1][2] - a.e[1][3]) * (-x.e[1][0] + x.e[1][1] - x.e[1][2] - x.e[1][3])
    requires h8 == (-a.e[1][0] + a.e[1][1] - a.e[1][2] - a.e[1][3] - a.e[3][0] + a.e[3][1]) * (-x.e[1][0] + x.e[1][1] - x.e[1][2] - x.e[1][3] - x.e[3][0] + x.e[3][1])
    requires h11 == (a.e[3][0] - a.e[3][1]) * (-x.e[1][2] - x.e[1][3])
    requires h12 == (-a.e[1][0] + a.e[1][1] - a.e[1][2] - a.e[1][3] - a.e[3][0] + a.e[3][1] - a.e[3][2] - a.e[3][3]) * (x.e[3][0] - x.e[3][1])
    requires h16 == (a.e[0][1] + a.e[0][3] - a.e[1][0] + a.e[1][1] + a.e[1][2] + a.e[1][3]) * (x.e[0][1] + x.e[0][3] - x.e[1][0] + x.e[1][1] + x.e[1][2] + x.e[1][3])
    requires h17 == (a.e[0][1] + a.e[0][3] - a.e[1][0] + a.e[1][1] + a.e[1][2] + a.e[1][3] + a.e[2][1] + a.e[3][0] - a.e[3][1]) * (x.e[0][1] + x.e[0][3] - x.e[1][0] + x.e[1][1] + x.e[1][2] + x.e[1][3] + x.e[2][1] + x.e[3][0] - x.e[3][1])
    requires h20 == (a.e[0][1] + a.e[0][3] - a.e[1][0] + a.e[1][1] + a.e[1][2] + a.e[1][3] + a.e[2][1] + a.e[2][3] + a.e[3][0] - a.e[3][1] - a.e[3][2] - a.e[3][3]) * (x.e[2][1] + x.e[3][0] - x.e[3][1])
    requires h21 == (a.e[2][1] + a.e[3][0] - a.e[3][1]) * (x.e[0][3] + x.e[1][2] + x.e[1][3])
    requires h29 == (a.e[0][3] + a.e[2][3]) * (-x.e[3][2])
    requires h33 == a.e[0][3] * (-x.e[1][0] + x.e[3][0])
    requires h34 == (a.e[0][3] - a.e[2][1]) * (-x.e[1][0] + x.e[3][0] - x.e[3][2])
    requires h36 == (-a.e[2][0] + a.e[2][1] + a.e[2][2] + a.e[2][3] + a.e[3][0] - a.e[3][1] - a.e[3][2] - a.e[3][3]) * x.e[2][1]
    requires h38 == (a.e[2][1] + a.e[2][3]) * (x.e[3][0] - x.e[3][2])
    requires h46 == (-a.e[2][0] + a.e[2][1] + a.e[3][0] - a.e[3][1]) * (-x.e[0][1] - x.e[2][1])
    ensures -h7 + h8 + h11 + h12 - h16 + h17 - h20 - h21 - h29 - h33 + h34 + h36 + h38 + h46 == a.e[2][0] * x.e[0][1] + a.e[2][1] * x.e[1][1] + a.e[2][2] * x.e[2][1] + a.e[2][3] * x.e[3][1]
    ensures -h7 + h8 + h11 + h12 - h16 + h17 - h20 - h21 - h29 - h33 + h34 + h36 + h38 + h46 == Dot(a, x, 2, 1, 4)
  {
    DotFour(a, x, 2, 1, -h7 + h8 + h11 + h12 - h16 + h17 - h20 - h21 - h29 - h33 + h34 + h36 + h38 + h46);
  }

  lemma AlphaTensorEntry22(a: Matrix, x: Matrix, n: nat, o: nat, h4: real, h5: real, h29: real, h33: real, h34: real, h40: real)
    requires Shaped(a, n, 4) && Shaped(x, 4, o) && 4 <= n && 4 <= o
    requires h4 == a.e[2][2] * x.e[2][2]
    requires h5 == (-a.e[2][0]) * (-x.e[0][2])
    requires h29 == (a.e[0][3] + a.e[2][3]) * (-x.e[3][2])
    requires h33 == a.e[0][3] * (-x.e[1][0] + x.e[3][0])
    requires h34 == (a.e[0][3] - a.e[2][1]) * (-x.e[1][0] + x.e[3][0] - x.e[3][2])
    requires h40 == a.e[2][1] * (-x.e[1][0] + x.e[1][2] + x.e[3][0] - x.e[3][2])
    ensures h4 + h5 - h29 - h33 + h34 + h40 == a.e[2][0] * x.e[0][2] + a.e[2][1] * x.e[1][2] + a.e[2][2] * x.e[2][2] + a.e[2][3] * x.e[3][2]
    ensures h4 + h5 - h29 - h33 + h34 + h40 == Dot(a, x, 2, 2, 4)
  {
    DotFour(a, x, 2, 2, h4 + h5 - h29 - h33 + h34 + h40);
  }

  lemma AlphaTensorEntry23(a: Matrix, x: Matrix, n: nat, o: nat, h11: real, h21: real, h28: real, h29: real, h30: real, h33: real, h34: real, h35: real, h36: real, h39: real, h40: real, h48: real)
    requires Shaped(a, n, 4) && Shaped(x, 4, o) && 4 <= n && 4 <= o
    requires h11 == (a.e[3][0] - a.e[3][1]) * (-x.e[1][2] - x.e[1][3])
    requires h21 == (a.e[2][1] + a.e[3][0] - a.e[3][1]) * (x.e[0][3] + x.e[1][2] + x.e[1][3])
    requires h28 == (a.e[2][3] - a.e[3][2] - a.e[3][3]) * (x.e[2][3] - x.e[3][2] - x.e[3][3])
    requires h29 == (a.e[0][3] + a.e[2][3]) * (-x.e[3][2])
    requires h30 == (a.e[0][2] + a.e[0][3] + a.e[1][2] + a.e[1][3] + a.e[2][2] + a.e[2][3] - a.e[3][2] - a.e[3][3]) * (x.e[0][3] + x.e[2][3])
    requires h33 == a.e[0][3] * (-x.e[1][0] + x.e[3][0])
    requires h34 == (a.e[0][3] - a.e[2][1]) * (-x.e[1][0] + x.e[3][0] - x.e[3][2])
    requires h35 == (a.e[0][2] + a.e[0][3] + a.e[1][2] + a.e[1][3] - a.e[2][0] + a.e[2][1] + a.e[2][2] + a.e[2][3] + a.e[3][0] - a.e[3][1] - a.e[3][2] - a.e[3][3]) * (x.e[0][3] - x.e[2][1])
    requires h36 == (-a.e[2][0] + a.e[2][1] + a.e[2][2] + a.e[2][3] + a.e[3][0] - a.e[3][1] - a.e[3][2] - a.e[3][3]) * x.e[2][1]
    requires h39 == (-a.e[0][2] - a.e[0][3] - a.e[1][2] - a.e[1][3]) * (x.e[2][1] + x.e[2][3])
    requires h40 == a.e[2][1] * (-x.e[1][0] + x.e[1][2] + x.e[3][0] - x.e[3][2])
    requires h48 == (-a.e[3][2] - a.e[3][3]) * (-x.e[3][2] - x.e[3][3])
    ensures h11 + h21 - h28 + h29 + h30 + h33 - h34 - h35 - h36 + h39 - h40 + h48 == a.e[2][0] * x.e[0][3] + a.e[2][1] * x.e[1][3] + a.e[2][2] * x.e[2][3] + a.e[2][3] * x.e[3][3]
    ensures h11 + h21 - h28 + h29 + h30 + h33 - h34 - h35 - h36 + h39 - h40 + h48 == Dot(a, x, 2, 3, 4)
  {
    DotFour(a, x, 2, 3, h11 + h21 - h28 + h29 + h30 + h33 - h34 - h35 - h36 + h39 - h40 + h48);
  }

  lemma AlphaTensorEntry30(a: Matrix, x: Matrix, n: nat, o: nat, h16: real, h17: real, h20: real, h21: real, h22: real, h23: real, h25: real, h26: real, h29: real, h32: real, h33: real, h34: real, h38: real, h41: real, h42: real, h43: real)
    requires Shaped(a, n, 4) && Shaped(x, 4, o) && 4 <= n && 4 <= o
    requires h16 == (a.e[0][1] + a.e[0][3] - a.e[1][0] + a.e[1][1] + a.e[1][2] + a.e[1][3]) * (x.e[0][1] + x.e[0][3] - x.e[1][0] + x.e[1][1] + x.e[1][2] + x.e[1][3])
    requires h17 == (a.e[0][1] + a.e[0][3] - a.e[1][0] + a.e[1][1] + a.e[1][2] + a.e[1][3] + a.e[2][1] + a.e[3][0] - a.e[3][1]) * (x.e[0][1] + x.e[0][3] - x.e[1][0] + x.e[1][1] + x.e[1][2] + x.e[1][3] + x.e[2][1] + x.e[3][0] - x.e[3][1])
    requires h20 == (a.e[0][1] + a.e[0][3] - a.e[1][0] + a.e[1][1] + a.e[1][2] + a.e[1][3] + a.e[2][1] + a.e[2][3] + a.e[3][0] - a.e[3][1] - a.e[3][2] - a.e[3][3]) * (x.e[2][1] + x.e[3][0] - x.e[3][1])
    requires h21 == (a.e[2][1] + a.e[3][0] - a.e[3][1]) * (x.e[0][3] + x.e[1][2] + x.e[1][3])
    requires h22 == (a.e[0][1] + a.e[0][3] + a.e[1][1] + a.e[1][3]) * (x.e[0][1] + x.e[0][3] + x.e[1][1] + x.e[1][3])
    requires h23 == (a.e[0][1] + a.e[0][3] + a.e[1][1] + a.e[1][3] + a.e[2][1] - a.e[3][1]) * (x.e[0][1] + x.e[0][3] + x.e[1][1] + x.e[1][3] + x.e[2][1] - x.e[3][1])
    requires h25 == (a.e[0][1] + a.e[0][3] + a.e[1][1] + a.e[1][3] + a.e[2][1] + a.e[2][3] - a.e[3][1] - a.e[3][3]) * (x.e[2][1] - x.e[3][1])
    requires h26 == (a.e[2][1] - a.e[3][1]) * (x.e[0][3] + x.e[1][3])
    requires h29 == (a.e[0][3] + a.e[2][3]) * (-x.e[3][2])
    requires h32 == -a.e[3][2] * (x.e[0][2] + x.e[0][3] + x.e[1][2] + x.e[1][3] + x.e[2][2] + x.e[2][3] - x.e[3][2] - x.e[3][3])
    requires h33 == a.e[0][3] * (-x.e[1][0] + x.e[3][0])
    requires h34 == (a.e[0][3] - a.e[2][1]) * (-x.e[1][0] + x.e[3][0] - x.e[3][2])
    requires h38 == (a.e[2][1] + a.e[2][3]) * (x.e[3][0] - x.e[3][2])
    requires h41 == (-a.e[1][0]) * (x.e[0][0] - x.e[0][1] + x.e[1][0] - x.e[1][1])
    requires h42 == (-a.e[1][0] + a.e[3][0]) * (x.e[0][0] - x.e[0][1] - x.e[0][2] - x.e[0][3] + x.e[1][0] - x.e[1][1] - x.e[1][2] - x.e[1][3] + x.e[2][0] - x.e[2][1] - x.e[2][2] - x.e[2][3] - x.e[3][0] + x.e[3][1] + x.e[3][2] + x.e[3][3])
    requires h43 == (-a.e[1][0] + a.e[3][0] - a.e[3][2]) * (x.e[0][2] + x.e[0][3] + x.e[1][2] + x.e[1][3] - x.e[2][0] + x.e[2][1] + x.e[2][2] + x.e[2][3] + x.e[3][0] - x.e[3][1] - x.e[3][2] - x.e[3][3])
    ensures -h16 + h17 - h20 - h21 + h22 - h23 + h25 + h26 - h29 - h32 - h33 + h34 + h38 - h41 + h42 + h43 == a.e[3][0] * x.e[0][0] + a.e[3][1] * x.e[1][0] + a.e[3][2] * x.e[2][0] + a.e[3][3] * x.e[3][0]
    ensures -h16 + h17 - h20 - h21 + h22 - h23 + h25 + h26 - h29 - h32 - h33 + h34 + h38 - h41 + h42 + h43 == Dot(a, x, 3, 0, 4)
  {
    DotFour(a, x, 3, 0, -h16 + h17 - h20 - h21 + h22 - h23 + h25 + h26 - h29 - h32 - h33 + h34 + h38 - h41 + h42 + h43);
  }

  lemma AlphaTensorEntry31(a: Matrix, x: Matrix, n: nat, o: nat, h7: real, h8: real, h11: real, h12: real, h16: real, h17: real, h20: real, h21: real, h22: real, h23: real, h25: real, h26: real, h29: real, h33: real, h34: real, h38: real)
    requires Shaped(a, n, 4) && Shaped(x, 4, o) && 4 <= n && 4 <= o
    requires h7 == (-a.e[1][0] + a.e[1][1] - a.e[1][2] - a.e[1][3]) * (-x.e[1][0] + x.e[1][1] - x.e[1][2] - x.e[1][3])
    requires h8 == (-a.e[1][0] + a.e[1][1] - a.e[1][2] - a.e[1][3] - a.e[3][0] + a.e[3][1]) * (-x.e[1][0] + x.e[1][1] - x.e[1][2] - x.e[1][3] - x.e[3][0] + x.e[3][1])
    requires h11 == (a.e[3][0] - a.e[3][1]) * (-x.e[1][2] - x.e[1][3])
    requires h12 == (-a.e[1][0] + a.e[1][1] - a.e[1][2] - a.e[1][3] - a.e[3][0] + a.e[3][1] - a.e[3][2] - a.e[3][3]) * (x.e[3][0] - x.e[3][1])
    requires h16 == (a.e[0][1] + a.e[0][3] - a.e[1][0] + a.e[1][1] + a.e[1][2] + a.e[1][3]) * (x.e[0][1] + x.e[0][3] - x.e[1][0] + x.e[1][1] + x.e[1][2] + x.e[1][3])
    requires h17 == (a.e[0][1] + a.e[0][3] - a.e[1][0] + a.e[1][1] + a.e[1][2] + a.e[1][3] + a.e[2][1] + a.e[3][0] - a.e[3][1]) * (x.e[0][1] + x.e[0][3] - x.e[1][0] + x.e[1][1] + x.e[1][2] + x.e[1][3] + x.e[2][1] + x.e[3][0] - x.e[3][1])
    requires h20 == (a.e[0][1] + a.e[0][3] - a.e[1][0] + a.e[1][1] + a.e[1][2] + a.e[1][3] + a.e[2][1] + a.e[2][3] + a.e[3][0] - a.e[3][1] - a.e[3][2] - a.e[3][3]) * (x.e[2][1] + x.e[3][0] - x.e[3][1])
    requires h21 == (a.e[2][1] + a.e[3][0] - a.e[3][1]) * (x.e[0][3] + x.e[1][2] + x.e[1][3])
    requires h22 == (a.e[0][1] + a.e[0][3] + a.e[1][1] + a.e[1][3]) * (x.e[0][1] + x.e[0][3] + x.e[1][1] + x.e[1][3])
    requires h23 == (a.e[0][1] + a.e[0][3] + a.e[1][1] + a.e[1][3] + a.e[2][1] - a.e[3][1]) * (x.e[0][1] + x.e[0][3] + x.e[1][1] + x.e[1][3] + x.e[2][1] - x.e[3][1])
    requires h25 == (a.e[0][1] + a.e[0][3] + a.e[1][1] + a.e[1][3] + a.e[2][1] + a.e[2][3] - a.e[3][1] - a.e[3][3]) * (x.e[2][1] - x.e[3][1])
    requires h26 == (a.e[2][1] - a.e[3][1]) * (x.e[0][3] + x.e[1][3])
    requires h29 == (a.e[0][3] + a.e[2][3]) * (-x.e[3][2])
    requires h33 == a.e[0][3] * (-x.e[1][0] + x.e[3][0])
    requires h34 == (a.e[0][3] - a.e[2][1]) * (-x.e[1][0] + x.e[3][0] - x.e[3][2])
    requires h38 == (a.e[2][1] + a.e[2][3]) * (x.e[3][0] - x.e[3][2])
    ensures -h7 + h8 + h11 + h12 - h16 + h17 - h20 - h21 + h22 - h23 + h25 + h26 - h29 - h33 + h34 + h38 == a.e[3][0] * x.e[0][1] + a.e[3][1] * x.e[1][1] + a.e[3][2] * x.e[2][1] + a.e[3][3] * x.e[3][1]
    ensures -h7 + h8 + h11 + h12 - h16 + h17 - h20 - h21 + h22 - h23 + h25 + h26 - h29 - h33 + h34 + h38 == Dot(a, x, 3, 1, 4)
  {
    DotFour(a, x, 3, 1, -h7 + h8 + h11 + h12 - h16 + h17 - h20 - h21 + h22 - h23 + h25 + h26 - h29 - h33 + h34 + h38);
  }

  lemma AlphaTensorEntry32(a: Matrix, x: Matrix, n: nat, o: nat, h21: real, h26: real, h27: real, h28: real, h29: real, h32: real, h33: real, h34: real, h40: real, h47: real)
    requires Shaped(a, n, 4) && Shaped(x, 4, o) && 4 <= n && 4 <= o
    requires h21 == (a.e[2][1] + a.e[3][0] - a.e[3][1]) * (x.e[0][3] + x.e[1][2] + x.e[1][3])
    requires h26 == (a.e[2][1] - a.e[3][1]) * (x.e[0][3] + x.e[1][3])
    requires h27 == (a.e[2][3] - a.e[3][3]) * (x.e[2][3] - x.e[3][3])
    requires h28 == (a.e[2][3] - a.e[3][2] - a.e[3][3]) * (x.e[2][3] - x.e[3][2] - x.e[3][3])
    requires h29 == (a.e[0][3] + a.e[2][3]) * (-x.e[3][2])
    requires h32 == -a.e[3][2] * (x.e[0][2] + x.e[0][3] + x.e[1][2] + x.e[1][3] + x.e[2][2] + x.e[2][3] - x.e[3][2] - x.e[3][3])
    requires h33 == a.e[0][3] * (-x.e[1][0] + x.e[3][0])
    requires h34 == (a.e[0][3] - a.e[2][1]) * (-x.e[1][0] + x.e[3][0] - x.e[3][2])
    requires h40 == a.e[2][1] * (-x.e[1][0] + x.e[1][2] + x.e[3][0] - x.e[3][2])
    requires h47 == (a.e[3][0] - a.e[3][2]) * (-x.e[0][2] - x.e[0][3] - x.e[1][2] - x.e[1][3])
    ensures (-h21) + h26 - h27 + h28 - h29 - h32 - h33 + h34 + h40 - h47 == a.e[3][0] * x.e[0][2] + a.e[3][1] * x.e[1][2] + a.e[3][2] * x.e[2][2] + a.e[3][3] * x.e[3][2]
    ensures (-h21) + h26 - h27 + h28 - h29 - h32 - h33 + h34 + h40 - h47 == Dot(a, x, 3, 2, 4)
  {
    DotFour(a, x, 3, 2, (-h21) + h26 - h27 + h28 - h29 - h32 - h33 + h34 + h40 - h47);
  }

  lemma AlphaTensorEntry33(a: Matrix, x: Matrix, n: nat, o: nat, h11: real, h21: real, h26: real, h27: real, h28: real, h29: real, h33: real, h34: real, h40: real, h48: real)
    requires Shaped(a, n, 4) && Shaped(x, 4, o) && 4 <= n && 4 <= o
    requires h11 == (a.e[3][0] - a.e[3][1]) * (-x.e[1][2] - x.e[1][3])
    requires h21 == (a.e[2][1] + a.e[3][0] - a.e[3][1]) * (x.e[0][3] + x.e[1][2] + x.e[1][3])
    requires h26 == (a.e[2][1] - a.e[3][1]) * (x.e[0][3] + x.e[1][3])
    requires h27 == (a.e[2][3] - a.e[3][3]) * (x.e[2][3] - x.e[3][3])
    requires h28 == (a.e[2][3] - a.e[3][2] - a.e[3][3]) * (x.e[2][3] - x.e[3][2] - x.e[3][3])
    requires h29 == (a.e[0][3] + a.e[2][3]) * (-x.e[3][2])
    requires h33 == a.e[0][3] * (-x.e[1][0] + x.e[3][0])
    requires h34 == (a.e[0][3] - a.e[2][1]) * (-x.e[1][0] + x.e[3][0] - x.e[3][2])
    requires h40 == a.e[2][1] * (-x.e[1][0] + x.e[1][2] + x.e[3][0] - x.e[3][2])
    requires h48 == (-a.e[3][2] - a.e[3][3]) * (-x.e[3][2] - x.e[3][3])
    ensures h11 + h21 - h26 + h27 - h28 + h29 + h33 - h34 - h40 + h48 == a.e[3][0] * x.e[0][3] + a.e[3][1] * x.e[1][3] + a.e[3][2] * x.e[2][3] + a.e[3][3] * x.e[3][3]
    ensures h11 + h21 - h26 + h27 - h28 + h29 + h33 - h34 - h40 + h48 == Dot(a, x, 3, 3, 4)
  {
    DotFour(a, x, 3, 3, h11 + h21 - h26 + h27 - h28 + h29 + h33 - h34 - h40 + h48);
  }

  /** The Strassen branch: seven products give the leading 2 x 2 block. */
  method Strassen(a: Matrix, x: Matrix, n: nat, o: nat) returns (r: Matrix)
    requires Shaped(a, n, 2) && Shaped(x, 2, o) && 2 <= n && 2 <= o
    ensures r == LeadingBlock(Product(a, x, 2, n, o), 2, n, o)
  {
    var m1 := (a.e[0][0] + a.e[1][1]) * (x.e[0][0] + x.e[1][1]);
    var m2 := (a.e[1][0] + a.e[1][1]) * x.e[0][0];
    var m3 := a.e[0][0] * (x.e[0][1] - x.e[1][1]);
    var m4 := a.e[1][1] * (x.e[1][0] - x.e[0][0]);
    var m5 := (a.e[0][0] + a.e[0][1]) * x.e[1][1];
    var m6 := (a.e[1][0] - a.e[0][0]) * (x.e[0][0] + x.e[0][1]);
    var m7 := (a.e[0][1] - a.e[1][1]) * (x.e[1][0] + x.e[1][1]);
    var e := new real[n, o]((_, _) => 0.0);
    e[0, 0] := m1 + m4 - m5 + m7;
    e[0, 1] := m3 + m5;
    e[1, 0] := m2 + m4;
    e[1, 1] := m1 - m2 + m3 + m6;
    assert e[0, 0] == a.e[0][0] * x.e[0][0] + a.e[0][1] * x.e[1][0];
    assert e[0, 1] == a.e[0][0] * x.e[0][1] + a.e[0][1] * x.e[1][1];
    assert e[1, 0] == a.e[1][0] * x.e[0][0] + a.e[1][1] * x.e[1][0];
    assert e[1, 1] == a.e[1][0] * x.e[0][1] + a.e[1][1] * x.e[1][1];
    r := Freeze(e);
    StrassenBlock(r, a, x, n, o);
  }

  /** The Laderman branch: 23 products give the leading 3 x 3 block. */
  method Laderman(a: Matrix, x: Matrix, n: nat, o: nat) returns (r: Matrix)
    requires Shaped(a, n, 3) && Shaped(x, 3, o) && 3 <= n && 3 <= o
    ensures r == LeadingBlock(Product(a, x, 3, n, o), 3, n, o)
  {
    var m1 := (a.e[0][0] + a.e[0][1] + a.e[0][2] - a.e[1][0] - a.e[1][1] - a.e[2][1] - a.e[2][2]) * x.e[1][1];
    var m2 := (a.e[0][0] - a.e[1][0]) * (x.e[1][1] - x.e[0][1]);
    var m3 := a.e[1][1] * (-x.e[0][0] + x.e[0][1] + x.e[1][0] - x.e[1][1] - x.e[1][2] - x.e[2][0] + x.e[2][2]);
    var m4 := (-a.e[0][0] + a.e[1][0] + a.e[1][1]) * (x.e[0][0] - x.e[0][1] + x.e[1][1]);
    var m5 := (a.e[1][0] + a.e[1][1]) * (-x.e[0][0] + x.e[0][1]);
    var m6 := a.e[0][0] * x.e[0][0];
    var m7 := (-a.e[0][0] + a.e[2][0] + a.e[2][1]) * (x.e[0][0] - x.e[0][2] + x.e[1][2]);
    var m8 := (-a.e[0][0] + a.e[2][0]) * (x.e[0][2] - x.e[1][2]);
    var m9 := (a.e[2][0] + a.e[2][1]) * (-x.e[0][0] + x.e[0][2]);
    var m10 := (a.e[0][0] + a.e[0][1] + a.e[0][2] - a.e[1][1] - a.e[1][2] - a.e[2][0] - a.e[2][1]) * x.e[1][2];
    var m11 := a.e[2][1] * (-x.e[0][0] + x.e[0][2] + x.e[1][0] - x.e[1][1] - x.e[1][2] - x.e[2][0] + x.e[2][1]);
    var m12 := (-a.e[0][2] + a.e[2][1] + a.e[2][2]) * (x.e[1][1] + x.e[2][0] - x.e[2][1]);
    var m13 := (a.e[0][2] - a.e[2][2]) * (x.e[1][1] - x.e[2][1]);
    var m14 := a.e[0][2] * x.e[2][0];
    var m15 := (a.e[2][1] + a.e[2][2]) * (-x.e[2][0] + x.e[2][1]);
    var m16 := (-a.e[0][2] + a.e[1][1] + a.e[1][2]) * (x.e[1][2] + x.e[2][0] - x.e[2][2]);
    var m17 := (a.e[0][2] - a.e[1][2]) * (x.e[1][2] - x.e[2][2]);
    var m18 := (a.e[1][1] + a.e[1][2]) * (-x.e[2][0] + x.e[2][2]);
    var m19 := a.e[0][1] * x.e[1][0];
    var m20 := a.e[1][2] * x.e[2][1];
    var m21 := a.e[1][0] * x.e[0][2];
    var m22 := a.e[2][0] * x.e[0][1];
    var m23 := a.e[2][2] * x.e[2][2];
    var e := new real[n, o]((_, _) => 0.0);
    e[0, 0] := m6 + m14 + m19;
    e[0, 1] := m1 + m4 + m5 + m6 + m12 + m14 + m15;
    e[0, 2] := m6 + m7 + m9 + m10 + m14 + m16 + m18;
    e[1, 0] := m2 + m3 + m4 + m6 + m14 + m16 + m17;
    e[1, 1] := m2 + m4 + m5 + m6 + m20;
    e[1, 2] := m14 + m16 + m17 + m18 + m21;
    e[2, 0] := m6 + m7 + m8 + m11 + m12 + m13 + m14;
    e[2, 1] := m12 + m13 + m14 + m15 + m22;
    e[2, 2] := m6 + m7 + m8 + m9 + m23;
    assert e[0, 0] == a.e[0][0] * x.e[0][0] + a.e[0][1] * x.e[1][0] + a.e[0][2] * x.e[2][0];
    assert e[0, 1] == a.e[0][0] * x.e[0][1] + a.e[0][1] * x.e[1][1] + a.e[0][2] * x.e[2][1];
    assert e[0, 2] == a.e[0][0] * x.e[0][2] + a.e[0][1] * x.e[1][2] + a.e[0][2] * x.e[2][2];
    assert e[1, 0] == a.e[1][0] * x.e[0][0] + a.e[1][1] * x.e[1][0] + a.e[1][2] * x.e[2][0];
    assert e[1, 1] == a.e[1][0] * x.e[0][1] + a.e[1][1] * x.e[1][1] + a.e[1][2] * x.e[2][1];
    assert e[1, 2] == a.e[1][0] * x.e[0][2] + a.e[1][1] * x.e[1][2] + a.e[1][2] * x.e[2][2];
    assert e[2, 0] == a.e[2][0] * x.e[0][0] + a.e[2][1] * x.e[1][0] + a.e[2][2] * x.e[2][0];
    assert e[2, 1] == a.e[2][0] * x.e[0][1] + a.e[2][1] * x.e[1][1] + a.e[2][2] * x.e[2][1];
    assert e[2, 2] == a.e[2][0] * x.e[0][2] + a.e[2][1] * x.e[1][2] + a.e[2][2] * x.e[2][2];
    r := Freeze(e);
    LadermanBlock(r, a, x, n, o);
  }

  /** The 49-product branch: it gives the leading 4 x 4 block. Its buffer is
      a value of rows updated one entry at a time rather than an `array2`. */
  method AlphaTensor(a: Matrix, x: Matrix, n: nat, o: nat) returns (r: Matrix)
    requires Shaped(a, n, 4) && Shaped(x, 4, o) && 4 <= n && 4 <= o
    ensures r == LeadingBlock(Product(a, x, 4, n, o), 4, n, o)
  {
    var h1 := (a.e[0][0] + a.e[2][0]) * (x.e[0][0] + x.e[2][0]);
    var h2 := (a.e[0][0] - a.e[0][2] + a.e[2][0]) * (x.e[0][0] - x.e[0][2] + x.e[2][0]);
    var h3 := (-a.e[0][2]) * (x.e[0][0] - x.e[0][2] + x.e[2][0] - x.e[2][2]);
    var h4 := a.e[2][2] * x.e[2][2];
    var h5 := (-a.e[2][0]) * (-x.e[0][2]);
    var h6 := (a.e[0][0] - a.e[0][2] + a.e[2][0] - a.e[2][2]) * (-x.e[2][0]);
    var h7 := (-a.e[1][0] + a.e[1][1] - a.e[1][2] - a.e[1][3]) * (-x.e[1][0] + x.e[1][1] - x.e[1][2] - x.e[1][3]);
    var h8 := (-a.e[1][0] + a.e[1][1] - a.e[1][2] - a.e[1][3] - a.e[3][0] + a.e[3][1]) * (-x.e[1][0] + x.e[1][1] - x.e[1][2] - x.e[1][3] - x.e[3][0] + x.e[3][1]);
    var h9 := (a.e[0][0] - a.e[0][2]) * (x.e[0][0] - x.e[0][2]);
    var h10 := (-a.e[1][0] + a.e[1][1] - a.e[3][0] + a.e[3][1]) * (-x.e[1][0] + x.e[1][1] - x.e[3][0] + x.e[3][1]);
    var h11 := (a.e[3][0] - a.e[3][1]) * (-x.e[1][2] - x.e[1][3]);
    var h12 := (-a.e[1][0] + a.e[1][1] - a.e[1][2] - a.e[1][3] - a.e[3][0] + a.e[3][1] - a.e[3][2] - a.e[3][3]) * (x.e[3][0] - x.e[3][1]);
    var h13 := (-a.e[1][2] - a.e[1][3]) * (-x.e[1][0] + x.e[1][1] - x.e[1][2] - x.e[1][3] - x.e[3][0] + x.e[3][1] - x.e[3][2] - x.e[3][3]);
    var h14 := (a.e[0][0] - a.e[0][1] + a.e[1][0] - a.e[1][1]) * (-x.e[0][1] - x.e[0][3]);
    var h15 := (-a.e[0][1] - a.e[0][3]) * (-x.e[1][0]);
    var h16 := (a.e[0][1] + a.e[0][3] - a.e[1][0] + a.e[1][1] + a.e[1][2] + a.e[1][3]) * (x.e[0][1] + x.e[0][3] - x.e[1][0] + x.e[1][1] + x.e[1][2] + x.e[1][3]);
    var h17 := (a.e[0][1] + a.e[0][3] - a.e[1][0] + a.e[1][1] + a.e[1][2] + a.e[1][3] + a.e[2][1] + a.e[3][0] - a.e[3][1]) * (x.e[0][1] + x.e[0][3] - x.e[1][0] + x.e[1][1] + x.e[1][2] + x.e[1][3] + x.e[2][1] + x.e[3][0] - x.e[3][1]);
    var h18 := (a.e[0][1] - a.e[1][0] + a.e[1][1] + a.e[2][1] + a.e[3][0] - a.e[3][1]) * (x.e[0][1] - x.e[1][0] + x.e[1][1] + x.e[2][1] + x.e[3][0] - x.e[3][1]);
    var h19 := (a.e[0][3] + a.e[1][2] + a.e[1][3]) * (x.e[0][1] + x.e[0][3] - x.e[1][0] + x.e[1][1] + x.e[1][2] + x.e[1][3] + x.e[2][1] + x.e[2][3] + x.e[3][0] - x.e[3][1] - x.e[3][2] - x.e[3][3]);
    var h20 := (a.e[0][1] + a.e[0][3] - a.e[1][0] + a.e[1][1] + a.e[1][2] + a.e[1][3] + a.e[2][1] + a.e[2][3] + a.e[3][0] - a.e[3][1] - a.e[3][2] - a.e[3][3]) * (x.e[2][1] + x.e[3][0] - x.e[3][1]);
    var h21 := (a.e[2][1] + a.e[3][0] - a.e[3][1]) * (x.e[0][3] + x.e[1][2] + x.e[1][3]);
    var h22 := (a.e[0][1] + a.e[0][3] + a.e[1][1] + a.e[1][3]) * (x.e[0][1] + x.e[0][3] + x.e[1][1] + x.e[1][3]);
    var h23 := (a.e[0][1] + a.e[0][3] + a.e[1][1] + a.e[1][3] + a.e[2][1] - a.e[3][1]) * (x.e[0][1] + x.e[0][3] + x.e[1][1] + x.e[1][3] + x.e[2][1] - x.e[3][1]);
    var h24 := (a.e[0][3] + a.e[1][3]) * (x.e[0][1] + x.e[0][3] + x.e[1][1] + x.e[1][3] + x.e[2][1] + x.e[2][3] - x.e[3][1] - x.e[3][3]);
    var h25 := (a.e[0][1] + a.e[0][3] + a.e[1][1] + a.e[1][3] + a.e[2][1] + a.e[2][3] - a.e[3][1] - a.e[3][3]) * (x.e[2][1] - x.e[3][1]);
    var h26 := (a.e[2][1] - a.e[3][1]) * (x.e[0][3] + x.e[1][3]);
    var h27 := (a.e[2][3] - a.e[3][3]) * (x.e[2][3] - x.e[3][3]);
    var h28 := (a.e[2][3] - a.e[3][2] - a.e[3][3]) * (x.e[2][3] - x.e[3][2] - x.e[3][3]);
    var h29 := (a.e[0][3] + a.e[2][3]) * (-x.e[3][2]);
    var h30 := (a.e[0][2] + a.e[0][3] + a.e[1][2] + a.e[1][3] + a.e[2][2] + a.e[2][3] - a.e[3][2] - a.e[3][3]) * (x.e[0][3] + x.e[2][3]);
    var h31 := (a.e[0][0] - a.e[0][1] - a.e[0][2] - a.e[0][3] + a.e[1][0] - a.e[1][1] - a.e[1][2] - a.e[1][3] + a.e[2][0] - a.e[2][1] - a.e[2][2] - a.e[2][3] - a.e[3][0] + a.e[3][1] + a.e[3][2] + a.e[3][3]) * x.e[0][3];
    var h32 := -a.e[3][2] * (x.e[0][2] + x.e[0][3] + x.e[1][2] + x.e[1][3] + x.e[2][2] + x.e[2][3] - x.e[3][2] - x.e[3][3]);
    var h33 := a.e[0][3] * (-x.e[1][0] + x.e[3][0]);
    var h34 := (a.e[0][3] - a.e[2][1]) * (-x.e[1][0] + x.e[3][0] - x.e[3][2]);
    var h35 := (a.e[0][2] + a.e[0][3] + a.e[1][2] + a.e[1][3] - a.e[2][0] + a.e[2][1] + a.e[2][2] + a.e[2][3] + a.e[3][0] - a.e[3][1] - a.e[3][2] - a.e[3][3]) * (x.e[0][3] - x.e[2][1]);
    var h36 := (-a.e[2][0] + a.e[2][1] + a.e[2][2] + a.e[2][3] + a.e[3][0] - a.e[3][1] - a.e[3][2] - a.e[3][3]) * x.e[2][1];
    var h37 := (a.e[0][1] + a.e[2][1]) * (x.e[1][2]);
    var h38 := (a.e[2][1] + a.e[2][3]) * (x.e[3][0] - x.e[3][2]);
    var h39 := (-a.e[0][2] - a.e[0][3] - a.e[1][2] - a.e[1][3]) * (x.e[2][1] + x.e[2][3]);
    var h40 := a.e[2][1] * (-x.e[1][0] + x.e[1][2] + x.e[3][0] - x.e[3][2]);
    var h41 := (-a.e[1][0]) * (x.e[0][0] - x.e[0][1] + x.e[1][0] - x.e[1][1]);
    var h42 := (-a.e[1][0] + a.e[3][0]) * (x.e[0][0] - x.e[0][1] - x.e[0][2] - x.e[0][3] + x.e[1][0] - x.e[1][1] - x.e[1][2] - x.e[1][3] + x.e[2][0] - x.e[2][1] - x.e[2][2] - x.e[2][3] - x.e[3][0] + x.e[3][1] + x.e[3][2] + x.e[3][3]);
    var h43 := (-a.e[1][0] + a.e[3][0] - a.e[3][2]) * (x.e[0][2] + x.e[0][3] + x.e[1][2] + x.e[1][3] - x.e[2][0] + x.e[2][1] + x.e[2][2] + x.e[2][3] + x.e[3][0] - x.e[3][1] - x.e[3][2] - x.e[3][3]);
    var h44 := (a.e[0][1] + a.e[1][1] + a.e[2][1] - a.e[3][1]) * (x.e[0][1] + x.e[1][1] + x.e[2][1] - x.e[3][1]);
    var h45 := (-a.e[1][0] + a.e[1][2] + a.e[3][0] - a.e[3][2]) * (-x.e[2][0] + x.e[2][1] + x.e[2][2] + x.e[2][3] + x.e[3][0] - x.e[3][1] - x.e[3][2] - x.e[3][3]);
    var h46 := (-a.e[2][0] + a.e[2][1] + a.e[3][0] - a.e[3][1]) * (-x.e[0][1] - x.e[2][1]);
    var h47 := (a.e[3][0] - a.e[3][2]) * (-x.e[0][2] - x.e[0][3] - x.e[1][2] - x.e[1][3]);
    var h48 := (-a.e[3][2] - a.e[3][3]) * (-x.e[3][2] - x.e[3][3]);
    var h49 := (-a.e[1][2]) * (-x.e[2][0] + x.e[2][1] + x.e[3][0] - x.e[3][1]);
    var e := Zero(o, n).e;
    e := e[0 := e[0][0 := h1 - h2 - h5 + h9 + h15 + h33]];
    e := e[0 := e[0][1 := -h7 + h8 - h10 + h11 - h14 + h15 + h16 - h17 + h18 + h21 - h31 + h33 - h35 - h36]];
    e := e[0 := e[0][2 := h1 - h2 + h3 - h5 + h33 - h34 + h37 - h40]];
    e := e[0 := e[0][3 := h8 - h10 + h11 - h13 + h17 - h18 - h19 - h21 + h31 - h33 + h34 + h35 + h36 - h37 - h39 + h40]];
    e := e[1 := e[1][0 := -h15 - h16 + h17 - h18 - h21 + h22 - h23 + h26 - h33 - h41 + h44 + h49]];
    e := e[1 := e[1][1 := h7 - h8 + h10 - h11 - h15 - h16 + h17 - h18 - h21 + h22 - h23 + h26 - h33 + h44]];
    e := e[1 := e[1][2 := h17 - h18 - h19 - h21 - h23 + h24 + h26 - h33 + h34 - h37 + h40 - h43 + h44 + h45 - h47 + h49]];
    e := e[1 := e[1][3 := -h8 + h10 + -h11 + h13 + -h17 + h18 + h19 + h21 + h23 - h24 - h26 + h33 - h34 + h37 - h40 - h44]];
    e := e[2 := e[2][0 := h2 + h5 + h6 - h9 - h29 - h33 + h34 + h38]];
    e := e[2 := e[2][1 := -h7 + h8 + h11 + h12 - h16 + h17 - h20 - h21 - h29 - h33 + h34 + h36 + h38 + h46]];
    e := e[2 := e[2][3 := h11 + h21 - h28 + h29 + h30 + h33 - h34 - h35 - h36 + h39 - h40 + h48]];
    e := e[2 := e[2][2 := h4 + h5 - h29 - h33 + h34 + h40]];
    e := e[3 := e[3][0 := -h16 + h17 - h20 - h21 + h22 - h23 + h25 + h26 - h29 - h32 - h33 + h34 + h38 - h41 + h42 + h43]];
    e := e[3 := e[3][1 := -h7 + h8 + h11 + h12 - h16 + h17 - h20 - h21 + h22 - h23 + h25 + h26 - h29 - h33 + h34 + h38]];
    e := e[3 := e[3][2 := (-h21) + h26 - h27 + h28 - h29 - h32 - h33 + h34 + h40 - h47]];
    e := e[3 := e[3][3 := h11 + h21 - h26 + h27 - h28 + h29 + h33 - h34 - h40 + h48]];

    AlphaTensorEntry00(a, x, n, o, h1, h2, h5, h9, h15, h33);
    AlphaTensorEntry01(a, x, n, o, h7, h8, h10, h11, h14, h15, h16, h17, h18, h21, h31, h33, h35, h36);
    AlphaTensorEntry02(a, x, n, o, h1, h2, h3, h5, h33, h34, h37, h40);
    AlphaTensorEntry03(a, x, n, o, h8, h10, h11, h13, h17, h18, h19, h21, h31, h33, h34, h35, h36, h37, h39, h40);
    AlphaTensorEntry10(a, x, n, o, h15, h16, h17, h18, h21, h22, h23, h26, h33, h41, h44, h49);
    AlphaTensorEntry11(a, x, n, o, h7, h8, h10, h11, h15, h16, h17, h18, h21, h22, h23, h26, h33, h44);
    AlphaTensorEntry12(a, x, n, o, h17, h18, h19, h21, h23, h24, h26, h33, h34, h37, h40, h43, h44, h45, h47, h49);
    AlphaTensorEntry13(a, x, n, o, h8, h10, h11, h13, h17, h18, h19, h21, h23, h24, h26, h33, h34, h37, h40, h44);
    AlphaTensorEntry20(a, x, n, o, h2, h5, h6, h9, h29, h33, h34, h38);
    AlphaTensorEntry21(a, x, n, o, h7, h8, h11, h12, h16, h17, h20, h21, h29, h33, h34, h36, h38, h46);
    AlphaTensorEntry22(a, x, n, o, h4, h5, h29, h33, h34, h40);
    AlphaTensorEntry23(a, x, n, o, h11, h21, h28, h29, h30, h33, h34, h35, h36, h39, h40, h48);
    AlphaTensorEntry30(a, x, n, o, h16, h17, h20, h21, h22, h23, h25, h26, h29, h32, h33, h34, h38, h41, h42, h43);
    AlphaTensorEntry31(a, x, n, o, h7, h8, h11, h12, h16, h17, h20, h21, h22, h23, h25, h26, h29, h33, h34, h38);
    AlphaTensorEntry32(a, x, n, o, h21, h26, h27, h28, h29, h32, h33, h34, h40, h47);
    AlphaTensorEntry33(a, x, n, o, h11, h21, h26, h27, h28, h29, h33, h34, h40, h48);
    r := Matrix(e);
    AlphaTensorBlock(r, a, x, n, o);
  }

  /** The generic branch: a triple loop accumulating into a zero matrix. */
  method Standard(a: Matrix, x: Matrix, m: nat, n: nat, o: nat) returns (r: Matrix)
    requires Shaped(a, n, m) && Shaped(x, m, o)
    ensures r == Product(a, x, m, n, o)
  {
    var e := new real[n, o]((_, _) => 0.0);
    for i := 0 to o
      invariant forall j', i' :: 0 <= j' < n && 0 <= i' < o ==>
                  e[j', i'] == if i' < i then Dot(a, x, j', i', m) else 0.0
    {
      for j := 0 to n
        invariant forall j', i' :: 0 <= j' < n && 0 <= i' < o ==>
                    e[j', i'] == if i' < i || (i' == i && j' < j) then Dot(a, x, j', i', m) else 0.0
      {
        for k := 0 to m
          invariant forall j', i' :: 0 <= j' < n && 0 <= i' < o ==>
                      e[j', i'] == if i' < i || (i' == i && j' < j) then Dot(a, x, j', i', m)
                                   else if i' == i && j' == j then Dot(a, x, j, i, k)
                                   else 0.0
        {
          e[j, i] := e[j, i] + a.e[j][k] * x.e[k][i];
        }
      }
    }
    r := Freeze(e);
    MatrixExt(r, Product(a, x, m, n, o), n, o);
  }

  /** On a `k x k` matrix the leading `k x k` block is the whole matrix. */
  lemma LeadingBlockWhole(p: Matrix, k: nat)
    requires Shaped(p, k, k)
    ensures LeadingBlock(p, k, k, k) == p
  {
    MatrixExt(LeadingBlock(p, k, k, k), p, k, k);
  }

  /** The three guards evaluated on a square shape `k x k x k`. */
  lemma SquareGuards(k: nat)
    ensures k == 0 ==> BitAnd(BitAnd(2, k), k) == 0
    ensures k == 1 ==> BitAnd(BitAnd(2, k), k) == 0 && BitAnd(BitAnd(3, k), k) == 1
    ensures k == 2 ==> BitAnd(BitAnd(2, k), k) == 2
    ensures k == 3 ==> BitAnd(BitAnd(2, k), k) == 2 && BitAnd(BitAnd(3, k), k) == 3
    ensures k == 4 ==> BitAnd(BitAnd(2, k), k) == 0 && BitAnd(BitAnd(3, k), k) == 0
                       && BitAnd(BitAnd(4, k), k) == 4
    ensures k >= 5 ==> BitAnd(BitAnd(2, k), k) < k && BitAnd(BitAnd(3, k), k) < k
                       && BitAnd(BitAnd(4, k), k) < k
  {
    if k >= 5 {
      BitAndBound(2, k);
      BitAndBound(BitAnd(2, k), k);
      BitAndBound(3, k);
      BitAndBound(BitAnd(3, k), k);
      BitAndBound(4, k);
      BitAndBound(BitAnd(4, k), k);
    } else if k == 1 {
      assert BitAnd(2, 1) == 0 && BitAnd(3, 1) == 1 && BitAnd(1, 1) == 1;
    } else if k == 2 {
      assert BitAnd(2, 2) == 2;
    } else if k == 3 {
      assert BitAnd(2, 3) == 2 && BitAnd(3, 3) == 3;
    } else if k == 4 {
      assert BitAnd(2, 4) == 0 && BitAnd(3, 4) == 0 && BitAnd(4, 4) == 4;
    }
  }

  /** For square operands the branches agree with the definitional product
      from size 2 up; sizes 0 and 1 enter a fast branch and panic. */
  lemma MulSquare(a: Matrix, x: Matrix, k: nat)
    requires Shaped(a, k, k) && Shaped(x, k, k)
    ensures MulSpec(a, x, k, k, k) == if k >= 2 then Done(Product(a, x, k, k, k))
                                      else Panic(IndexOutOfBounds)
  {
    SquareGuards(k);
    if 2 <= k <= 4 {
      LeadingBlockWhole(Product(a, x, k, k, k), k);
    }
  }

  /** The crate's 2 x 2 test: [[1, 2], [3, 4]] * [[5, 6], [7, 8]] = [[19, 22], [43, 50]]. */
  lemma MulExample2()
    ensures MulSpec(Matrix([[1.0, 2.0], [3.0, 4.0]]), Matrix([[5.0, 6.0], [7.0, 8.0]]), 2, 2, 2)
            == Done(Matrix([[19.0, 22.0], [43.0, 50.0]]))
  {
    var a, x := Matrix([[1.0, 2.0], [3.0, 4.0]]), Matrix([[5.0, 6.0], [7.0, 8.0]]);
    MulSquare(a, x, 2);
    forall j, i | 0 <= j < 2 && 0 <= i < 2 {
      DotSmall(a, x, j, i, 2);
    }
    MatrixExt(Product(a, x, 2, 2, 2), Matrix([[19.0, 22.0], [43.0, 50.0]]), 2, 2);
  }

  /** The crate's 3 x 3 test. */
  lemma MulExample3()
    ensures MulSpec(Matrix([[1.0, 2.0, 3.0], [4.0, 5.0, 6.0], [7.0, 8.0, 9.0]]),
                    Matrix([[9.0, 8.0, 7.0], [6.0, 5.0, 4.0], [3.0, 2.0, 1.0]]), 3, 3, 3)
            == Done(Matrix([[30.0, 24.0, 18.0], [84.0, 69.0, 54.0], [138.0, 114.0, 90.0]]))
  {
    var a := Matrix([[1.0, 2.0, 3.0], [4.0, 5.0, 6.0], [7.0, 8.0, 9.0]]);
    var x := Matrix([[9.0, 8.0, 7.0], [6.0, 5.0, 4.0], [3.0, 2.0, 1.0]]);
    MulSquare(a, x, 3);
    forall j, i | 0 <= j < 3 && 0 <= i < 3 {
      DotSmall(a, x, j, i, 3);
    }
    MatrixExt(Product(a, x, 3, 3, 3),
              Matrix([[30.0, 24.0, 18.0], [84.0, 69.0, 54.0], [138.0, 114.0, 90.0]]), 3, 3);
  }

  /** The crate's 4 x 4 test. */
  lemma MulExample4()
    ensures MulSpec(Matrix([[1.0, 2.0, 3.0, 4.0], [5.0, 6.0, 7.0, 8.0],
                            [9.0, 10.0, 11.0, 12.0], [13.0, 14.0, 15.0, 16.0]]),
                    Matrix([[17.0, 18.0, 19.0, 20.0], [21.0, 22.0, 23.0, 24.0],
                            [25.0, 26.0, 27.0, 28.0], [29.0, 30.0, 31.0, 32.0]]), 4, 4, 4)
            == Done(Matrix([[250.0, 260.0, 270.0, 280.0], [618.0, 644.0, 670.0, 696.0],
                            [986.0, 1028.0, 1070.0, 1112.0], [1354.0, 1412.0, 1470.0, 1528.0]]))
  {
    var a := Matrix([[1.0, 2.0, 3.0, 4.0], [5.0, 6.0, 7.0, 8.0],
                     [9.0, 10.0, 11.0, 12.0], [13.0, 14.0, 15.0, 16.0]]);
    var x := Matrix([[17.0, 18.0, 19.0, 20.0], [21.0, 22.0, 23.0, 24.0],
                     [25.0, 26.0, 27.0, 28.0], [29.0, 30.0, 31.0, 32.0]]);
    MulSquare(a, x, 4);
    forall j, i | 0 <= j < 4 && 0 <= i < 4 {
      DotSmall(a, x, j, i, 4);
    }
    MatrixExt(Product(a, x, 4, 4, 4),
              Matrix([[250.0, 260.0, 270.0, 280.0], [618.0, 644.0, 670.0, 696.0],
                      [986.0, 1028.0, 1070.0, 1112.0], [1354.0, 1412.0, 1470.0, 1528.0]]), 4, 4);
  }

  /** From two columns up `mul` never panics; its result is the product, or,
      when a fast branch is taken, the product's leading `M x M` block inside
      a result at least that large in both directions. */
  lemma MulFromTwo(a: Matrix, x: Matrix, m: nat, n: nat, o: nat)
    requires Shaped(a, n, m) && Shaped(x, m, o) && m >= 2
    ensures MulSpec(a, x, m, n, o).Done?
    ensures var p := Product(a, x, m, n, o);
            MulSpec(a, x, m, n, o).value == p
            || (m <= 4 && m <= n && m <= o && MulSpec(a, x, m, n, o).value == LeadingBlock(p, m, n, o))
  {
    BitAndBound(2, n);
    BitAndBound(BitAnd(2, n), o);
    BitAndBound(3, n);
    BitAndBound(BitAnd(3, n), o);
    BitAndBound(4, n);
    BitAndBound(BitAnd(4, n), o);
  }

  /** A 3 x 2 matrix times the 2 x 2 identity enters the two-column fast
      branch, which fills only the leading 2 x 2 block: row 2 comes back zero. */
  lemma MulTallExample()
    ensures Product(Matrix([[1.0, 2.0], [3.0, 4.0], [5.0, 6.0]]), IdentityMatrix(2), 2, 3, 2)
            == Matrix([[1.0, 2.0], [3.0, 4.0], [5.0, 6.0]])
    ensures MulSpec(Matrix([[1.0, 2.0], [3.0, 4.0], [5.0, 6.0]]), IdentityMatrix(2), 2, 3, 2)
            == Done(Matrix([[1.0, 2.0], [3.0, 4.0], [0.0, 0.0]]))
  {
    var a := Matrix([[1.0, 2.0], [3.0, 4.0], [5.0, 6.0]]);
    ProductIdentityRight(a, 2, 3);
    assert BitAnd(2, 3) == 2 && BitAnd(2, 2) == 2;
    MatrixExt(LeadingBlock(a, 2, 3, 2), Matrix([[1.0, 2.0], [3.0, 4.0], [0.0, 0.0]]), 3, 2);
  }

  /** `mul` with the guards its branches need (all three sizes equal to the
      branch size): the product for every shape. */
  method MulCorrected(a: Matrix, x: Matrix, m: nat, n: nat, o: nat) returns (r: Matrix)
    requires Shaped(a, n, m) && Shaped(x, m, o)
    ensures r == Product(a, x, m, n, o)
  {
    if m == 2 && n == 2 && o == 2 {
      r := Strassen(a, x, n, o);
    } else if m == 3 && n == 3 && o == 3 {
      r := Laderman(a, x, n, o);
    } else if m == 4 && n == 4 && o == 4 {
      r := AlphaTensor(a, x, n, o);
    } else {
      r := Standard(a, x, m, n, o);
      return;
    }
    LeadingBlockWhole(Product(a, x, m, n, o), m);
  }

  /** Multiplying by the identity on the right contributes only the diagonal term. */
  lemma {:induction false} DotIdentity(a: Matrix, j: nat, i: nat, k: nat, m: nat)
    requires j < |a.e| && k <= m <= |a.e[j]| && i < m
    ensures DotDefined(a, IdentityMatrix(m), j, i, k)
    ensures Dot(a, IdentityMatrix(m), j, i, k) == if i < k then a.e[j][i] else 0.0
  {
    if k > 0 {
      DotIdentity(a, j, i, k - 1, m);
    }
  }

  /** The identity is a right unit of the product. */
  lemma ProductIdentityRight(a: Matrix, m: nat, n: nat)
    requires Shaped(a, n, m)
    ensures Product(a, IdentityMatrix(m), m, n, m) == a
  {
    forall j, i | 0 <= j < n && 0 <= i < m
      ensures Product(a, IdentityMatrix(m), m, n, m).e[j][i] == a.e[j][i]
    {
      DotIdentity(a, j, i, m, m);
    }
    MatrixExt(Product(a, IdentityMatrix(m), m, n, m), a, n, m);
  }

  /** The crate's test `(y * IDENTITY).determinant() == -2` with y = [[1, 2], [3, 4]]. */
  lemma IdentityDeterminantExample()
    ensures var y := Matrix([[1.0, 2.0], [3.0, 4.0]]);
            MulSpec(y, IdentityMatrix(2), 2, 2, 2) == Done(y)
            && Determinant(y, 2, 2) == Done(-2.0)
  {
    var y := Matrix([[1.0, 2.0], [3.0, 4.0]]);
    MulSquare(y, IdentityMatrix(2), 2);
    ProductIdentityRight(y, 2, 2);
  }

  /** The crate's 3 x 3 determinant test reaches `todo!()`: the guard
      `3 == 2 & 3` is false. */
  lemma DeterminantThreeByThree()
    ensures Determinant(Matrix([[1.0, 2.0, 3.0], [4.0, 5.0, 3.0], [7.0, 8.0, 9.0]]), 3, 3)
            == Panic(Todo)
  {
  }

  /** A 3 x 2 matrix passes the guard `2 == 2 & 3` and gets the determinant
      of its top 2 x 2 block. */
  lemma DeterminantTallExample()
    ensures Determinant(Matrix([[1.0, 2.0], [3.0, 4.0], [5.0, 6.0]]), 2, 3) == Done(-2.0)
  {
    assert BitAnd(2, 3) == 2;
  }

  /** `determinant` as its guard and its commented-out 3 x 3 branch intend it:
      the 2 x 2 formula on square 2 x 2 matrices, the cofactor expansion along
      the first row, through the same temporaries, on square 3 x 3 matrices,
      and `todo!()` otherwise. */
  function DeterminantCorrected(a: Matrix, m: nat, n: nat): (r: Outcome<real>)
    requires Shaped(a, n, m)
    ensures r.Done? <==> m == n && (m == 2 || m == 3)
    ensures !r.Done? ==> r == Panic(Todo)
  {
    if m == 2 && n == 2 then
      Done(a.e[0][0] * a.e[1][1] - a.e[0][1] * a.e[1][0])
    else if m == 3 && n == 3 then
      var m1 := a.e[1][1] * a.e[2][0];
      var ma1 := a.e[1][0] * a.e[2][1] - m1;
      var m2 := a.e[1][2] * a.e[2][0];
      var ma2 := a.e[1][0] * a.e[2][2] - m2;
      var m3 := a.e[1][2] * a.e[2][1];
      var ma3 := a.e[1][1] * a.e[2][2] - m3;
      var m4 := a.e[0][2] * ma1;
      var ma4 := a.e[0][1] * ma2 - m4;
      Done(a.e[0][0] * ma3 - ma4)
    else
      Panic(Todo)
  }

  /** The Leibniz formula: the signed sum over the six permutations. */
  function Leibniz3(a: Matrix): real
    requires Shaped(a, 3, 3)
  {
    a.e[0][0] * a.e[1][1] * a.e[2][2] + a.e[0][1] * a.e[1][2] * a.e[2][0]
    + a.e[0][2] * a.e[1][0] * a.e[2][1] - a.e[0][2] * a.e[1][1] * a.e[2][0]
    - a.e[0][1] * a.e[1][0] * a.e[2][2] - a.e[0][0] * a.e[1][2] * a.e[2][1]
  }

  /** The corrected determinant agrees with the written one on 2 x 2
      matrices, and on 3 x 3 matrices it is the Leibniz formula. */
  lemma DeterminantCorrectedMeaning(a: Matrix, k: nat)
    requires Shaped(a, k, k) && (k == 2 || k == 3)
    ensures k == 2 ==> DeterminantCorrected(a, 2, 2) == Determinant(a, 2, 2)
    ensures k == 3 ==> DeterminantCorrected(a, 3, 3).value == Leibniz3(a)
  {
  }

  /** The crate's 3 x 3 test, det [[1, 2, 3], [4, 5, 3], [7, 8, 9]] = -18,
      holds for the corrected determinant; the identity has determinant one,
      and a non-square matrix is rejected. */
  lemma DeterminantCorrectedExamples()
    ensures DeterminantCorrected(Matrix([[1.0, 2.0, 3.0], [4.0, 5.0, 3.0], [7.0, 8.0, 9.0]]), 3, 3).value
            == -18.0
    ensures DeterminantCorrected(IdentityMatrix(3), 3, 3).value == 1.0
    ensures DeterminantCorrected(Matrix([[1.0, 2.0], [3.0, 4.0], [5.0, 6.0]]), 2, 3) == Panic(Todo)
  {
    var id := IdentityMatrix(3);
    assert id.e[0] == [1.0, 0.0, 0.0] && id.e[1] == [0.0, 1.0, 0.0] && id.e[2] == [0.0, 0.0, 1.0];
  }

  // ---------------------------------------------------------------------
  // Addition.
  // ---------------------------------------------------------------------

  /** `Add::add`: a double loop writing each entry's sum into a zero matrix. */
  method Add(a: Matrix, x: Matrix, m: nat, n: nat) returns (r: Matrix)
    requires Shaped(a, n, m) && Shaped(x, n, m)
    ensures r == Plus(a, x, m, n)
  {
    var e := new real[n, m]((_, _) => 0.0);
    for i := 0 to m
      invariant forall j', i' :: 0 <= j' < n && 0 <= i' < m ==>
                  e[j', i'] == if i' < i then a.e[j'][i'] + x.e[j'][i'] else 0.0
    {
      for j := 0 to n
        invariant forall j', i' :: 0 <= j' < n && 0 <= i' < m ==>
                    e[j', i'] == if i' < i || (i' == i && j' < j) then a.e[j'][i'] + x.e[j'][i'] else 0.0
      {
        e[j, i] := a.e[j][i] + x.e[j][i];
      }
    }
    r := Freeze(e);
    MatrixExt(r, Plus(a, x, m, n), n, m);
  }

  /** ZERO is a unit of addition (the crate's `x + ZERO == x`). */
  lemma PlusZero(a: Matrix, m: nat, n: nat)
    requires Shaped(a, n, m)
    ensures Plus(a, Zero(m, n), m, n) == a
  {
    MatrixExt(Plus(a, Zero(m, n), m, n), a, n, m);
  }

  /** Addition is commutative. */
  lemma PlusCommutes(a: Matrix, b: Matrix, m: nat, n: nat)
    requires Shaped(a, n, m) && Shaped(b, n, m)
    ensures Plus(a, b, m, n) == Plus(b, a, m, n)
  {
    MatrixExt(Plus(a, b, m, n), Plus(b, a, m, n), n, m);
  }

  /** Addition is associative. */
  lemma PlusAssociates(a: Matrix, b: Matrix, c: Matrix, m: nat, n: nat)
    requires Shaped(a, n, m) && Shaped(b, n, m) && Shaped(c, n, m)
    ensures Plus(Plus(a, b, m, n), c, m, n) == Plus(a, Plus(b, c, m, n), m, n)
  {
    MatrixExt(Plus(Plus(a, b, m, n), c, m, n), Plus(a, Plus(b, c, m, n), m, n), n, m);
  }
}
