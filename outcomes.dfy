/** Results shared by the modules of this model.

    The crate reports failure in two ways: a Rust panic (an explicit `panic!()`,
    a `todo!()` placeholder, or an array index out of bounds), which aborts the
    call, and IEEE-754 non-finite values, which flow on as ordinary floats.
    `Outcome` models the first; `Scalar` models the second where the crate
    uses NaN as a sentinel (the root arrays of `Polynomial`). */
module Outcomes {

  /** Why a call panicked. */
  datatype PanicKind =
    | ExplicitPanic     // `panic!()`
    | Todo              // `todo!()`: an operation the crate has not implemented
    | IndexOutOfBounds  // a fixed index past the end of a Rust array

  /** The result of a call that may panic. */
  datatype Outcome<+T> = Done(value: T) | Panic(kind: PanicKind)

  /** The result of a call that may fail softly, such as `str::parse`. */
  datatype Option<+T> = None | Some(value: T)

  /** A floating-point value as the root finders return it: either a finite
      number or one of the non-finite values (NaN, +inf, -inf), which the
      callers cannot tell apart and which mean "no real root in this slot". */
  datatype Scalar = Finite(v: real) | NonFinite

  /** `a / b` on floats: a finite quotient, or NaN/inf when `b` is zero. */
  function Quotient(a: real, b: real): (r: Scalar)
    ensures r.Finite? <==> b != 0.0
    ensures r.Finite? ==> r.v * b == a
  {
    if b == 0.0 then NonFinite else Finite(a / b)
  }
}
