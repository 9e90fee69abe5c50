/** Vocabulary shared by every module: optional values, outcomes, and time. */
module Base {

  datatype Option<+T> = None | Some(value: T)

  datatype Result<+T, +E> = Ok(value: T) | Err(error: E)
  {
    predicate IsFailure() { Err? }
    function PropagateFailure<U>(): Result<U, E> requires Err? { Err(error) }
    function Extract(): T requires Ok? { value }
  }

  /** An `Instant`, in nanoseconds on one monotonic clock. */
  type Time = real

  /** A `Duration`, in nanoseconds; never negative. */
  type Duration = d: real | d >= 0.0

  /** `Instant` subtraction: the elapsed time, zero when `earlier` is in fact later. */
  function Since(later: Time, earlier: Time): (d: Duration)
    ensures earlier <= later ==> d == later - earlier
    ensures later <= earlier ==> d == 0.0
  {
    if later >= earlier then later - earlier else 0.0
  }

  /** An octet. */
  type Byte = b: int | 0 <= b < 256

  type Bytes = seq<Byte>

  function Abs(x: real): (a: real)
    ensures a >= 0.0 && (a == x || a == -x)
  {
    if x < 0.0 then -x else x
  }

  function Power(b: real, n: nat): real {
    if n == 0 then 1.0 else b * Power(b, n - 1)
  }

  function MaxReal(a: real, b: real): (m: real)
    ensures m >= a && m >= b && (m == a || m == b)
  {
    if a >= b then a else b
  }
}
