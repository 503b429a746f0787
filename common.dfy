/** Failure-carrying results shared by the modules: the Python exceptions the
    core raises become `Err` values carrying the exception class and message. */
module Common {

  datatype Option<T> = None | Some(value: T)

  datatype Failure = ValueError(message: string) | RuntimeError(message: string) | ZeroDivisionError

  datatype Result<T> = Ok(value: T) | Err(error: Failure)

  function Min(a: real, b: real): real { if a <= b then a else b }

  function Max(a: real, b: real): real { if a >= b then a else b }

  function Abs(a: real): real { if a >= 0.0 then a else -a }

  lemma AppendAssoc<T>(a: seq<T>, b: seq<T>, c: seq<T>)
    ensures a + b + c == a + (b + c)
  {
  }

  /** Python `int(x)` on a float: truncation toward zero, the integer next
      to `x` on the side of 0 (at most `x` when it is not negative, at least
      `x` when it is). */
  function Trunc(x: real): (n: int)
    ensures x >= 0.0 ==> n as real <= x < n as real + 1.0
    ensures x < 0.0 ==> n as real - 1.0 < x <= n as real
  {
    if x >= 0.0 then x.Floor else -((-x).Floor)
  }
}
