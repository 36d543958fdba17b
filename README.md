# talrost exact-algebra core in Dafny

This project models the exact-algebra layer of the Rust crate talrost, the part that sits under its root finders:

- `Matrix<T, M, N>`: N rows of M columns, with `ZERO`, `IDENTITY`, the determinant, element-wise `+`, and the four-branch `*`. The branches are Strassen for 2×2, Laderman for 3×3, a 49-product scheme for 4×4, and a triple loop for everything else. The guards that pick a branch also send 0×0, 1×1 and some non-square shapes to a fast branch; see "## Findings".
- `Complex<F>`: the operators, the compound assignments, `powi`, `Sum`, the `From` conversions and the character-splitting parser. The same code appears twice in the crate: in the live `number` module and in the disabled `complex` module.
- The `Number<N>` wrapper and its additions.
- `Polynomial<T, N>`: per-degree evaluation, the constant and linear root helpers with their `N + 0^N` result length, and the coefficient display.
- `Vector<N>`: element-wise `+`, `-` and scaling loops, the 2-D cross product, and conversion to row and column matrices.

How the model is built:

- **Floats.** Every float is a Dafny `real`, so arithmetic is exact.
- **Panics.** A panic (`panic!()`, `todo!()`, an array index past the end) is `Outcome.Panic(kind)`.
- **NaN.** The NaN the root helpers use as a "no root" marker is `Scalar.NonFinite`.
- **Fixed-size arrays** (`[[T; M]; N]`, `[f64; N]`) are values, and are modelled as datatypes over `seq`.
- **Shapes.** The const generics M, N and O are explicit `nat` parameters with a `Shaped` precondition.
- **Local buffers.** The buffers the Rust code fills in place are fresh `array2`/`array` objects in the methods that model those loops.
- **Mutation.** `*Assign` works on a `&mut self`. It is modelled by classes whose fields `re`/`im`, or `value`, the methods update.
- **Float text.** Float-to-text formatting is a parameter `show: real -> string`, and `str::parse::<F>()` is a parameter `parse: string -> Option<real>`.

The two `Complex` files are identical in every operation modelled here. Module `Number` models them once, and its rows cite `src/number.rs`. Where a row's code also appears in `src/complex.rs`, the third column gives the matching lines there. Module `DisabledComplex` holds what only `src/complex.rs` has: `i`, `J` and their tests.

Where the code and the crate's own tests disagree, the model follows the code. The disagreements:

- **`det_3x3`** expects −18, but the determinant's 3×3 branch is commented out and the call reaches `todo!()`.
- **`roots_2` and `roots_3`** expect roots for degrees 2 and 3, but `roots` reaches `todo!()` there.
- **The multiplication guards** `M == 2 & N & O` parse as `M == (2 & N & O)` and are modelled that way (see Findings).

## Model

| member | source | states |
|---|---|---|
| `Outcomes.Quotient` | src/polynomial.rs:83 | A float quotient is finite exactly when the divisor is nonzero, and then multiplies back to the dividend. |
| `Matrix.Zero` | src/matrix.rs:11-13 | `ZERO` has N rows of M columns, all zero. |
| `Matrix.Identity` | src/matrix.rs:15-27 | It panics when M ≠ N. `identity()` is a private `const fn` reached only through `pub const IDENTITY` (src/matrix.rs:15-19), so in the crate that panic fires during constant evaluation and is a compile-time error; `Panic(ExplicitPanic)` stands for it. Otherwise the loop leaves ONE on the diagonal and ZERO elsewhere, which is `IdentityMatrix(M)`. |
| `Matrix.BitAndTwo` | src/matrix.rs:41 | `2 & n` is 2 when bit 1 of n is set and 0 otherwise. This is what the determinant guard `M == 2 & N` compares M with. |
| `Matrix.Determinant` | src/matrix.rs:40-57 | A result comes back iff M = 2 and bit 1 of N is set, and it is `e00·e11 − e01·e10`. M = 0 with the guard true (bit 1 of N clear) indexes out of bounds. Every other shape, including M = 0 with bit 1 of N set, reaches `todo!()`. |
| `Matrix.DeterminantExample` | src/matrix.rs:412-417 | det [[1,2],[3,4]] = −2. |
| `Matrix.DeterminantOfProduct` | src/matrix.rs:41-42 | For 2×2 matrices the determinant of the definitional product is the product of the determinants. |
| `Matrix.DeterminantThreeByThree` | src/matrix.rs:419-424 | The crate's 3×3 determinant test reaches `todo!()` rather than −18. |
| `Matrix.DeterminantTallExample` | src/matrix.rs:41 | The guard lets a 3-row, 2-column matrix through: it returns −2 from its top 2×2 block. |
| `Matrix.DeterminantCorrected` | src/matrix.rs:40-57 | With the guards the branches need, a result comes back exactly for square 2×2 and 3×3 input. Any other shape is `todo!()`. |
| `Matrix.DeterminantCorrectedMeaning` | src/matrix.rs:43-52 | The corrected 2×2 case agrees with the code as written. The restored 3×3 branch, which goes through the commented-out temporaries, equals the six-term Leibniz formula. |
| `Matrix.DeterminantCorrectedExamples` | src/matrix.rs:419-424 | The corrected determinant gives −18 for the crate's test matrix and 1 for the 3×3 identity. It refuses the 3×2 matrix. |
| `Matrix.Mul` | src/matrix.rs:64-369 | The four branches behind their guards as written compute `MulSpec`. A true guard with M equal to the branch size gives the product's leading block. A true guard with another M indexes out of bounds. Otherwise the result is the full product. |
| `Matrix.Strassen` | src/matrix.rs:65-80 | The seven-product scheme writes the leading 2×2 block of the definitional product into a zero N×O buffer. |
| `Matrix.Laderman` | src/matrix.rs:81-135 | The 23-product scheme writes the leading 3×3 block of the definitional product. |
| `Matrix.AlphaTensor` | src/matrix.rs:136-355 | The 49-product scheme writes the leading 4×4 block of the definitional product. |
| `Matrix.Standard` | src/matrix.rs:356-366 | The triple `+=` loop from ZERO computes `Σ_k a[j][k]·x[k][i]` for every entry. |
| `Matrix.SquareGuards` | src/matrix.rs:65 | For square k×k input, the value of each guard: k = 2, 3 and 4 reach their own branch; 0 and 1 hit a guard that is true with the wrong M; from 5 up all guards are false. |
| `Matrix.MulSquare` | src/matrix.rs:64-369 | For square input of size at least 2, `*` is the definitional product. 0×0 and 1×1 products index out of bounds. |
| `Matrix.MulFromTwo` | src/matrix.rs:64-369 | From two columns of the left operand up, `*` never panics. It returns the product, or, in a fast branch, the product's leading M×M block. |
| `Matrix.MulExample2` | src/matrix.rs:426-432 | [[1,2],[3,4]]·[[5,6],[7,8]] = [[19,22],[43,50]]. |
| `Matrix.MulExample3` | src/matrix.rs:434-440 | The crate's 3×3 product test gives [[30,24,18],[84,69,54],[138,114,90]]. |
| `Matrix.MulExample4` | src/matrix.rs:442-463 | The crate's 4×4 product test gives [[250,…],[618,…],[986,…],[1354,…,1528]]. The matching test is repeated at src/matrix.rs:473-491. |
| `Matrix.MulTallExample` | src/matrix.rs:65-80 | A 3×2 matrix times the 2×2 identity enters Strassen and comes back with row 2 zeroed, though the product is the matrix itself. |
| `Matrix.MulCorrected` | src/matrix.rs:356-366 | With each guard requiring all three sizes equal to the branch size, `*` is the definitional product for every shape. |
| `Matrix.ProductIdentityRight` | src/matrix.rs:471 | The definitional product of `a` by `IdentityMatrix(M)` gives `a` back for every shape. The crate's `*` agrees with it for square sizes of at least 2 (`Matrix.MulSquare`). |
| `Matrix.IdentityDeterminantExample` | src/matrix.rs:470-471 | `(y * IDENTITY).determinant()` is −2 for y = [[1,2],[3,4]]. |
| `Matrix.Add` | src/matrix.rs:376-384 | The double loop computes the element-wise sum. |
| `Matrix.PlusZero` | src/matrix.rs:468 | `x + ZERO = x`. |
| `Matrix.PlusCommutes` | src/matrix.rs:376-384 | Element-wise addition is commutative. |
| `Matrix.PlusAssociates` | src/matrix.rs:376-384 | Element-wise addition is associative. |
| `Number.ConversionsAgree` | src/number.rs:132-149 | `From<(F, F)>` and `From<[F; 2]>` both give (a, b). `From<F>` (src/number.rs:383-393) gives (x, 0). Same code in src/complex.rs:245-264, 496-507. |
| `Number.NormNonNegative` | src/number.rs:256 | The division denominator `re² + im²` is never negative. |
| `Number.NormPositive` | src/number.rs:256 | The division denominator is positive for every nonzero complex number. |
| `Number.Magnitude` | src/number.rs:39-41 | `magnitude` is the literal `(re² + im²)²`, which is never negative. |
| `Number.MagnitudeOfReal` | src/number.rs:39-41 | On a real x, `magnitude` is x⁴, not \|x\|. |
| `Number.NormalizeScales` | src/number.rs:57-63 | `normalize` scales both parts by `1 / magnitude`, and multiplying back by the magnitude restores the number. |
| `Number.NormalizeOfTwo` | src/number.rs:57-63 | `normalize` of 2 is 1/8, not 1: its magnitude is 16. |
| `Number.Powi` | src/number.rs:65-72 | The loop from ONE multiplies by self `power` times, a non-positive power giving ONE. This is `z^max(power, 0)`. Same loop in src/complex.rs:102-109. |
| `Number.MulOne` | src/number.rs:222-234 | ONE is a two-sided unit of the complex product. |
| `Number.MulCommutes` | src/number.rs:222-234 | `(ac − bd, ad + bc)` is commutative. |
| `Number.MulAssociates` | src/number.rs:222-234 | The complex product is associative. |
| `Number.MulDistributes` | src/number.rs:222-234 | The complex product distributes over addition. |
| `Number.PowZero` | src/number.rs:65-72 | `powi(0)` is ONE for every base, ZERO included. |
| `Number.PowOne` | src/number.rs:65-72 | `powi(1)` is self. |
| `Number.PowAdd` | src/number.rs:65-72 | Powers add: `z^(a+b) = z^a · z^b`. |
| `Number.PowOfZero` | src/number.rs:65-72 | A positive power of ZERO is ZERO. |
| `Number.PowExamples` | src/number.rs:888-917 | The crate's `powi` tests on (3, 7) and (−11, −47) for the powers 2, 3 and 4. |
| `Number.AddLaws` | src/number.rs:166-178 | Complex addition is commutative and associative, with ZERO as its unit. |
| `Number.ScalarAddSub` | src/number.rs:180-219 | Adding or subtracting a real scalar on either side changes only `re`. `f64 − z` negates `im`. The scalar forms agree with promoting the real to (x, 0). Also covers src/number.rs:645-664 and src/complex.rs:293-332, 514-535. |
| `Number.ScalarMulDiv` | src/number.rs:236-277 | `z * s` and `s * z` (the latter at src/number.rs:667-676 and 712-721) scale both parts and agree with the product by (s, 0). `z / s` undoes `* s` for nonzero s. |
| `Number.DivScalarPromotes` | src/number.rs:265-277 | Dividing by a real scalar equals dividing by (s, 0). |
| `Number.SubIsAddNeg` | src/number.rs:194-206 | `z − w = z + (−w)`, and `z − z = ZERO`. |
| `Number.NegLaws` | src/number.rs:370-381 | Negation flips both parts, is an involution, and equals `ZERO − z`. Same code in src/complex.rs:483-494. |
| `Number.DivMulInverse` | src/number.rs:250-263 | For a nonzero denominator, `(z / w) · w = z`. Same code in src/complex.rs:363-376. |
| `Number.DivSelf` | src/number.rs:250-263 | `w / w = ONE` for a nonzero denominator. |
| `Number.ScalarDivPromotes` | src/number.rs:678-688 | Real ÷ complex gives `(a·re/d, −a·im/d)` with `d = re² + im²`, which is the complex quotient of (a, 0) by w. |
| `Number.OperatorExamples` | src/number.rs:739-886 | The crate's operator tests: 0.25 + (0.75, 0.66), 0.25 − (0.75, 0.66), 3·(7, 13), (7, 13)², 24 / (12, 240) = (2/401, −40/401), (12, 240) / 24, and −(3, 7). |
| `Number.SumAppend` | src/number.rs:89-97 | The fold from ZERO splits over concatenation, and the empty sum is ZERO. Same code in src/complex.rs:202-210. |
| `Number.SumComponentwise` | src/number.rs:89-97 | A sum is the sum of the real parts paired with the sum of the imaginary parts. |
| `Number.ComplexPlace.constructor` | src/number.rs:35-37 | `Complex::new(re, im)` holds the two parts as given. |
| `Number.ComplexPlace.AddAssign` | src/number.rs:279-288 | `+=` leaves `self + rhs` in place. |
| `Number.ComplexPlace.AddAssignScalar` | src/number.rs:290-298 | `+= s` adds s to `re`, and `im` is unchanged. |
| `Number.ComplexPlace.SubAssign` | src/number.rs:300-309 | `-=` leaves `self − rhs` in place. |
| `Number.ComplexPlace.SubAssignScalar` | src/number.rs:311-319 | `-= s` subtracts s from `re`, and `im` is unchanged. |
| `Number.ComplexPlace.MulAssign` | src/number.rs:321-332 | `*=` computes through temporaries, so the result is the product of the old value and rhs even when rhs is the old value. Same code in src/complex.rs:434-444. |
| `Number.ComplexPlace.MulAssignScalar` | src/number.rs:334-343 | `*= s` scales both parts. |
| `Number.ComplexPlace.DivAssign` | src/number.rs:345-357 | `/=` computes what `/` computes. Same code in src/complex.rs:458-470. |
| `Number.ComplexPlace.DivAssignScalar` | src/number.rs:359-368 | `/= s` divides both parts by s. |
| `Number.MulAssignExample` | src/number.rs:819-837 | The crate's sequence `b *= a` then `b *= b` on (7, 13) with a = 9 ends at (−9720, 14742). The same test is at src/complex.rs:703-721. |
| `Number.DivAssignExample` | src/number.rs:859-877 | The crate's `b /= a` then `b /= b` on (12, 240) with a = 2 ends at ONE. The same test is at src/complex.rs:743-760. |
| `Number.Before` | src/number.rs:103-128 | The text before the first occurrence of a character has no such character and is a prefix of the input. |
| `Number.After` | src/number.rs:103-128 | The text after the first occurrence of a character completes the split of the input around it. |
| `Number.Without` | src/number.rs:103-128 | Dropping a set of characters keeps none of them and never lengthens the text. |
| `Number.RealScanIsText` | src/number.rs:104-123 | The character loop's real buffer is the text before the first '+' with the spaces removed. |
| `Number.ImagScanIsText` | src/number.rs:104-123 | The loop's imaginary buffer is the text after the first '+' with the spaces and later '+' removed. |
| `Number.FromStr` | src/number.rs:99-129 | The loop stops at the first 'i'. Each buffer is parsed, and an unparsable part becomes zero. Same code in src/complex.rs:212-243. |
| `Number.SplitAtPlus` | src/number.rs:104-123 | For any text `a + "+" + b` followed by nothing or by an 'i' tail, the real text is `a` without spaces and the imaginary text is `b` without spaces and without '+'. |
| `Number.SplitWithoutPlus` | src/number.rs:104-123 | Without a '+', everything before the 'i' is the real text and the imaginary text is empty. |
| `Number.SplitExample` | src/number.rs:104-123 | "3 + 4i" splits into "3" and "4". |
| `Number.SplitStopsAtI` | src/number.rs:110-114 | "1+2i7" splits into "1" and "2": scanning stops at 'i'. |
| `Number.SplitPlusAfterI` | src/number.rs:110-114 | "2i+5" splits into "2" and "": the '+' after the 'i' is never seen. |
| `Number.SplitSecondPlus` | src/number.rs:104-123 | "1+2+3" splits into "1" and "23": a second '+' is dropped. |
| `Number.NumberConversionsAgree` | src/number.rs:609-627 | `Number<Complex>` from a pair or an array wraps `Complex` from the same pair or array. |
| `Number.MixedAdditionsAgree` | src/number.rs:525-545 | `Number<F> + Number<Complex<F>>` promotes the real to (x, 0). It agrees with the reverse-order addition, which leaves `im` unchanged. |
| `Number.RealNumberPlace.constructor` | src/number.rs:589-597 | `Number::<F>::from(x)` wraps x. |
| `Number.RealNumberPlace.AddAssign` | src/number.rs:547-555 | `+=` on two `Number<F>` leaves their sum. |
| `Number.RealNumberPlace.AddAssignComplex` | src/number.rs:557-565 | `Number<F> += Number<Complex<F>>` is `todo!()`. |
| `Number.ComplexNumberPlace.constructor` | src/number.rs:599-607 | `Number::<Complex<F>>::from(z)` wraps z. |
| `Number.ComplexNumberPlace.AddAssign` | src/number.rs:547-555 | `+=` on two `Number<Complex<F>>` leaves their sum. |
| `Number.ComplexNumberPlace.AddAssignReal` | src/number.rs:567-575 | `Number<Complex<F>> += Number<F>` adds the real to `re`. |
| `DisabledComplex.Constants` | src/complex.rs:607-620 | ZERO = (0, 0), ONE = (1, 0), and `i` = `J` = (0, 1). |
| `DisabledComplex.ISquared` | src/complex.rs:64-70 | `i · i = −ONE`. |
| `DisabledComplex.IPowTwo` | src/complex.rs:787-792 | `i.powi(2) = (−1, 0)`. |
| `DisabledComplex.IPowThree` | src/complex.rs:787-792 | `i.powi(3) = (0, −1)`. |
| `DisabledComplex.IPowFour` | src/complex.rs:787-792 | `i.powi(4) = ONE`. |
| `DisabledComplex.IPowPeriodic` | src/complex.rs:102-109 | The powers of `i` repeat with period four. |
| `DisabledComplex.IPowCycle` | src/complex.rs:102-109 | `i^(4q + r) = i^r` for every q and r. |
| `DisabledComplex.PowiOfI` | src/complex.rs:787-792 | The `powi` loop on (0, 1) gives (−1, 0), (0, −1) and ONE for the powers 2, 3 and 4. |
| `DisabledComplex.PowiOfZero` | src/complex.rs:772-800 | The `powi` loop on ZERO gives ONE for a non-positive power and ZERO otherwise. |
| `Polynomials.Degree` | src/polynomial.rs:6-13 | A polynomial of degree N holds N + 1 coefficients. |
| `Polynomials.PolySumFive` | src/polynomial.rs:36-42 | The reference sum `Σ c[i]·x^(N−i)` written out for five coefficients. |
| `Polynomials.EvalQuadratic` | src/polynomial.rs:28-30 | It indexes `c[2]`, so it panics exactly when there are fewer than three coefficients. |
| `Polynomials.EvalCubic` | src/polynomial.rs:32-34 | It panics exactly when there are fewer than four coefficients. |
| `Polynomials.EvalQuartic` | src/polynomial.rs:36-42 | It panics exactly when there are fewer than five coefficients. |
| `Polynomials.EvalQuadraticIsSum` | src/polynomial.rs:28-30 | It equals the reference sum over the first three coefficients. |
| `Polynomials.EvalCubicIsSum` | src/polynomial.rs:32-34 | It equals the reference sum over the first four coefficients. |
| `Polynomials.EvalQuarticIsSum` | src/polynomial.rs:36-42 | It equals the reference sum over the first five coefficients. |
| `Polynomials.Eval` | src/polynomial.rs:44-59 | `eval` returns a value exactly for degrees 0 to 4. |
| `Polynomials.EvalIsSum` | src/polynomial.rs:44-59 | Up to degree 4, `eval` is `Σ c[i]·x^(N−i)` with `c[0]` leading. Above that it fails with `todo!()` instead of truncating. |
| `Polynomials.EvalConstantExample` | src/polynomial.rs:125-128 | [1] evaluates to 1 at every x. |
| `Polynomials.EvalLinearExamples` | src/polynomial.rs:130-133 | [1,2] at −3, 0, 1 and 2 gives −1, 2, 3 and 4. |
| `Polynomials.EvalQuadraticExamples` | src/polynomial.rs:135-138 | [1,2,3] at −3, 0, 1 and 2 gives 6, 3, 6 and 11. |
| `Polynomials.EvalCubicExamples` | src/polynomial.rs:140-143 | [1,2,3,4] at −3, 0, 1 and 2 gives −14, 4, 10 and 26. |
| `Polynomials.Abs` | src/polynomial.rs:74 | `abs` is non-negative and is v or −v. |
| `Polynomials.RootCountValues` | src/polynomial.rs:61 | The root array length `N + 0_usize.pow(N as u32)` is 1 for degree 0 and N otherwise, with the `u32` truncation of N written out. |
| `Polynomials.RootConstant` | src/polynomial.rs:70-78 | It fills a NaN array and overwrites slot 0 with zero when `\|c0\| ≤ tol`. |
| `Polynomials.ConstantRootsMeaning` | src/polynomial.rs:70-78 | Slot 0 holds 0 iff `\|c0\| ≤ tol`, and NaN otherwise. Every other slot is NaN. For degree 0 there is one slot, and it is 0 iff the polynomial is within tol of zero at every x. |
| `Polynomials.RootLinear` | src/polynomial.rs:80-84 | It fills all `N + 0^N` slots with `−c1/c0`. It indexes `c[1]`, so it panics with fewer than two coefficients. |
| `Polynomials.LinearRootSlots` | src/polynomial.rs:80-84 | For degree 1 the result is the single slot `−c1/c0`. |
| `Polynomials.LinearRootIsRoot` | src/polynomial.rs:80-84 | `−c1/c0` is finite iff c0 ≠ 0, and then `eval` is zero there. |
| `Polynomials.RootLinearOfLinear` | src/polynomial.rs:80-84 | For degree 1, every one of the `RootCount(1)` slots holds `−c1/c0`. |
| `Polynomials.Roots` | src/polynomial.rs:61-68 | Degree 0 goes to `root_constant`, degree 1 to `root_linear`, and higher degrees reach `todo!()`. |
| `Polynomials.ConstantRootExamples` | src/polynomial.rs:146-161 | [1] gives a single NaN, and [0] a single 0. |
| `Polynomials.LinearRootExample` | src/polynomial.rs:163-172 | x + 1 has the single root −1. |
| `PolynomialDisplay.NatText` | src/polynomial.rs:96 | The exponent is printed as decimal digits without a leading zero. |
| `PolynomialDisplay.NatTextRoundTrip` | src/polynomial.rs:96 | Reading the printed exponent back gives the exponent. |
| `PolynomialDisplay.Display` | src/polynomial.rs:92-102 | The loop appends one term per coefficient, and the result is `Layout`. |
| `PolynomialDisplay.FormatTerm` | src/polynomial.rs:95-99 | Term i < N is `c[i]×x^(N−i) + `. The last term is the bare `c[N]`. |
| `PolynomialDisplay.LayoutConstant` | src/polynomial.rs:98 | A constant prints as its coefficient alone. |
| `PolynomialDisplay.LayoutLeading` | src/polynomial.rs:94-100 | From degree 1 up, the text is the leading term `c0×x^N + ` followed by the text of the remaining coefficients. |
| `PolynomialDisplay.LayoutLinear` | src/polynomial.rs:94-100 | Degree 1 prints `c0×x^1 + c1`. |
| `PolynomialDisplay.LayoutExamples` | src/polynomial.rs:120-121 | [1] prints "1", and [1,2] prints "1×x^1 + 2". |
| `PolynomialDisplay.LayoutQuadraticExample` | src/polynomial.rs:122 | [1,2,3] prints "1×x^2 + 2×x^1 + 3". |
| `PolynomialDisplay.LayoutCubicExample` | src/polynomial.rs:123 | [1,2,3,4] prints "1×x^3 + 2×x^2 + 3×x^1 + 4". |
| `Vectors.Zero` | src/vector.rs:12 | `ZERO` has N entries, all zero. |
| `Vectors.Row` | src/vector.rs:18-20 | `row` is a single row equal to b. |
| `Vectors.Column` | src/vector.rs:22-28 | The loop gives an N×1 matrix whose row i holds b[i]. |
| `Vectors.RowTimesColumn` | src/vector.rs:18-28 | The row of v times a column holding w is the 1×1 matrix of their inner product, which ties `row`, `column` and the definitional matrix product together. |
| `Vectors.CrossAntisymmetric` | src/vector.rs:50-52 | `b0·r1 − b1·r0` changes sign when the operands swap. |
| `Vectors.CrossParallel` | src/vector.rs:50-52 | A vector crossed with any multiple of itself is zero. |
| `Vectors.CrossExamples` | src/vector.rs:143-150 | (1,2)×(3,4) = −2 and (3,4)×(1,2) = 2. |
| `Vectors.Add` | src/vector.rs:69-80 | The clone-and-update loop computes the element-wise sum. |
| `Vectors.Sub` | src/vector.rs:82-93 | The loop computes the element-wise difference. |
| `Vectors.Scale` | src/vector.rs:95-106 | `v * s` scales every entry by s. |
| `Vectors.ScaleLeft` | src/vector.rs:108-119 | `s * v` scales every entry by s, the same as `v * s`. |
| `Vectors.PlusZero` | src/vector.rs:12 | ZERO is a unit of vector addition. |
| `Vectors.PlusCommutes` | src/vector.rs:69-80 | Vector addition is commutative. |
| `Vectors.MinusSelf` | src/vector.rs:82-93 | `v − v = ZERO`. |
| `Vectors.MinusUndoesPlus` | src/vector.rs:82-93 | Subtraction undoes addition. |
| `Vectors.ScaledOne` | src/vector.rs:95-106 | Scaling by one changes nothing. |
| `Vectors.ScaledDistributes` | src/vector.rs:95-106 | Scaling distributes over vector addition. |
| `Vectors.OperatorExamples` | src/vector.rs:136-139 | (1,2,3) + (4,5,6) = (5,7,9), (1,2,3) − (4,5,6) = (−3,−3,−3), (1,2,3)·2 = (2,4,6), and 2·(4,5,6) = (8,10,12). |
| `Vectors.ConversionExamples` | src/vector.rs:133-134 | (1,2,3) gives the row [[1,2,3]] and the column [[1],[2],[3]]. |

## Left out

- Floating point:
  - f32 and f64 rounding, their widths, NaN and infinity propagation, and the constants `NAN`, `INFINITY`, `EPSILON`, `MIN` and `MAX` of src/complex.rs:25-41, 52-60. Scalars are exact reals.
  - The `f32` and `f64` operator families are one model.
- Transcendental functions: `Complex::sqrt` (src/number.rs:43-55, src/complex.rs:80-92) and the `Natural` impl for `Complex` (src/complex.rs:111-185, mostly `todo!()`). They need `atan2`, `sin` and `cos`, which have no exact model.
- Number.Div: requires the float denominator `re² + im²` to be nonzero. The code divides anyway and yields infinities or NaN, which reals cannot represent. `Number.NormPositive` proves that the condition holds for every nonzero number over the reals.
- Number.ScalarDiv: requires a nonzero denominator `re² + im²`, for the same reason as `Number.Div`.
- Number.DivScalar: requires a nonzero real divisor. The code yields infinities or NaN for a zero divisor.
- Number.DivScalarPromotes: requires a nonzero denominator for (s, 0), for the same reason.
- Number.DivMulInverse: requires a nonzero denominator. With a zero denominator the Rust quotient is NaN or infinite, and no inverse law holds.
- Number.DivSelf: requires a nonzero denominator, for the same reason.
- Number.ScalarDivPromotes: requires a nonzero denominator, for the same reason.
- Number.ComplexPlace.DivAssign: requires a nonzero denominator `re² + im²`. The code divides anyway and stores infinities or NaN in `re` and `im`.
- Number.ComplexPlace.DivAssignScalar: requires a nonzero real divisor. The code stores infinities or NaN for a zero divisor.
- Number.Normalize: requires a nonzero magnitude, for the same reason.
- Number.NormalizeScales: requires a nonzero magnitude, for the same reason.
- Matrix entries: `Matrix<T, M, N>` is generic over `NumberTrait`, which `Complex<F>` also implements (src/number.rs:459). So `+`, `*` and `determinant` on matrices of complex numbers are part of the crate. The model fixes matrix entries to `real`. The branch identities and the determinant facts are therefore proved over the reals only, not over complex entries.
- Display formatting:
  - `Display` for `Complex`, `Number`, `Matrix` and `Vector` is string formatting of floats.
  - Vector's version also calls a `format_f64` that is not part of this model.
  - The polynomial display is modelled, with float formatting as the `show` parameter.
- Float parsing: `str::parse::<F>()` in `From<&str>` is the `parse` parameter and is left abstract.
- Vector `magnitude` and `normalize` (src/vector.rs:31-45) need `sqrt`.
- The `todo!()` operations.
  - Modelled as panics: the non-2×2 determinant, and `roots` for degree 2 and up.
  - Not modelled: `Matrix::transpose` and `Matrix::inverse` (src/matrix.rs:32-38), because their bodies are just `todo!()`.
  - The root finders that `roots` would call are not part of this model.
- Trait plumbing:
  - the `NumberTrait`, `Float`, `Natural` and other trait scaffolding;
  - `Number::new`;
  - the generic `From<F>`/`From<Complex<F>>` wrappers. These are the datatype constructors `RealNumber` and `ComplexNumber`, and `RealNumberPlace`/`ComplexNumberPlace` construct from them.
- The trivial constructors `Vector::new`, `Polynomial::from`/`new` and `Matrix::new` are the datatype constructors.
- Matrix.AlphaTensor: the Rust code writes the 16 entries into a zeroed `[[T; O]; N]` in place. The model builds the same entries as a sequence of rows, so it does not capture the in-place update of that one buffer.
- Matrix.Mul: M, N and O are compile-time constants in Rust. The model takes them as arguments with a shape precondition.

## Findings

| source | as written | input that shows it | evidently intended | confidence | as-written member | corrected member |
|---|---|---|---|---|---|---|
| src/matrix.rs:65 | The guard `M == 2 & N & O` parses as `M == (2 & N & O)`, so the Strassen branch also fires for non-square shapes and fills only the leading 2×2 block. | A 3×2 matrix times the 2×2 identity: row 2 of the result is zero. | Take the fast branch only when M = N = O = 2, and the same for 3 and 4. | not executed | `Matrix.MulTallExample` | `Matrix.MulCorrected` |
| src/matrix.rs:65, :81 | For 0×0 input `0 == 2 & 0 & 0` holds and Strassen indexes `e[0][0]`. For 1×1 input `1 == 3 & 1 & 1` holds and Laderman indexes past the end of the one-entry rows. | Any 0×0 or 1×1 product. | The plain triple loop, giving the product. | not executed | `Matrix.MulSquare` | `Matrix.MulCorrected` |
| src/matrix.rs:41 | The guard `M == 2 & N` lets through every 2-column matrix whose row count has bit 1 set. | A 3-row, 2-column matrix gets the "determinant" −2. | A determinant only for square input. | not executed | `Matrix.DeterminantTallExample` | `Matrix.DeterminantCorrected` |
| src/matrix.rs:43-55 | The 3×3 branch is commented out, so a 3×3 determinant reaches `todo!()`, although test `det_3x3` expects −18. | [[1,2,3],[4,5,3],[7,8,9]]. | The Leibniz formula through the commented-out temporaries, giving −18. | not executed | `Matrix.DeterminantThreeByThree` | `Matrix.DeterminantCorrectedExamples` |
