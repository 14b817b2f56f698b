/** Values shared by every service model: optional values (Java's nullable
    references and `Optional`), results of operations that may throw, and the
    exception kinds the services throw or catch. */
module Common {

  /** A nullable Java reference or an `Optional`. */
  datatype Option<+T> = None | Some(value: T) {
    function GetOr(default: T): T {
      match this
      case Some(v) => v
      case None => default
    }
  }

  /** The exception classes the modelled services throw. */
  datatype Failure =
    | NotFound             // RuntimeException("... no encontrado/a ...") after findById
    | IllegalArgument      // IllegalArgumentException
    | IllegalState         // IllegalStateException
    | NumberFormat         // NumberFormatException from Long.parseLong
    | IndexOutOfBounds     // ArrayIndexOutOfBoundsException
    | RemoteCallFailed     // an exception raised by a Feign or WebClient call
    | MissingData          // RuntimeException for absent related data: a missing row, or no legs
    | NullReference        // NullPointerException from dereferencing a null field

  /** The outcome of a service operation: its value, or the exception it throws. */
  datatype Result<+T> = Ok(value: T) | Err(error: Failure) {
    predicate IsFailure() { Err? }
    function PropagateFailure<U>(): Result<U>
      requires Err?
    {
      Err(error)
    }
    function Extract(): T
      requires Ok?
    {
      value
    }
  }

  /** `findById` over an IDENTITY table: row `i` has id `i + 1`. */
  function FindById<T>(rows: seq<T>, id: int): (r: Option<T>)
    ensures r.Some? <==> 1 <= id <= |rows|
    ensures r.Some? ==> r.value == rows[id - 1]
  {
    if 1 <= id <= |rows| then Some(rows[id - 1]) else None
  }

  /** Sum of a sequence of reals, folded from the left as `stream().sum()` and a
      `for` accumulator do. */
  function Sum(xs: seq<real>): real
  {
    if xs == [] then 0.0 else Sum(xs[..|xs| - 1]) + xs[|xs| - 1]
  }

  lemma {:induction false} SumAppend(xs: seq<real>, x: real)
    ensures Sum(xs + [x]) == Sum(xs) + x
  {
    assert (xs + [x])[..|xs + [x]| - 1] == xs;
  }

  lemma {:induction false} SumNonNegative(xs: seq<real>)
    requires forall i :: 0 <= i < |xs| ==> xs[i] >= 0.0
    ensures Sum(xs) >= 0.0
  {
    if xs != [] {
      SumNonNegative(xs[..|xs| - 1]);
    }
  }

  /** Summing `k * x` is `k` times the sum. */
  lemma {:induction false} SumScale(xs: seq<real>, ys: seq<real>, k: real)
    requires |xs| == |ys|
    requires forall i :: 0 <= i < |xs| ==> ys[i] == k * xs[i]
    ensures Sum(ys) == k * Sum(xs)
  {
    if xs != [] {
      SumScale(xs[..|xs| - 1], ys[..|ys| - 1], k);
    }
  }

  /** Java's integer `/` on longs truncates toward zero. */
  function TruncDiv(a: int, b: int): (q: int)
    requires b > 0
    ensures a >= 0 ==> q == a / b
    ensures a < 0 ==> q == -((-a) / b)
  {
    if a >= 0 then a / b else -((-a) / b)
  }
}
