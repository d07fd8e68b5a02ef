/** Small shared vocabulary: optional values, real-number helpers and the
    inclusive day window that both the price table and the benchmark table
    are filtered with. */
module Common {

  datatype Option<+T> = None | Some(value: T)

  /** The larger of two reals (Python's built-in `max`). */
  function Max(a: real, b: real): (m: real)
    ensures m >= a && m >= b
    ensures m == a || m == b
  {
    if a >= b then a else b
  }

  /** Absolute value (Python's built-in `abs`). */
  function Abs(x: real): (a: real)
    ensures a >= 0.0
    ensures a == x || a == -x
  {
    if x >= 0.0 then x else -x
  }

  /** Sum of a sequence of reals, first element first. */
  function Sum(xs: seq<real>): real
  {
    if |xs| == 0 then 0.0 else xs[0] + Sum(xs[1..])
  }

  /** A day ordinal lies in the window `[start, end]`, both ends included. */
  predicate InRange(day: int, start: int, end: int)
  {
    start <= day <= end
  }

  /** A product of two non-negative reals is non-negative. */
  lemma MulNonNegativeReal(a: real, b: real)
    requires a >= 0.0 && b >= 0.0
    ensures a * b >= 0.0
  {
  }

  /** Scaling a non-negative amount by a factor of at least 1 never shrinks it. */
  lemma ScaleAtLeast(a: real, f: real)
    ensures a >= 0.0 && f >= 1.0 ==> a * f >= a
  {
    if a >= 0.0 && f >= 1.0 {
      MulNonNegativeReal(a, f - 1.0);
    }
  }
}
