/** Failure-carrying values shared by every module: an optional value, the
    Python exception kinds the core can raise, and a result that is either a
    value or one of those exceptions. */
module Wrappers {

  datatype Option<+T> = None | Some(value: T)

  /** The Python exception classes raised by the modelled code. */
  datatype Error =
    | TypeError
    | ValueError
    | IndexError
    | KeyError
    | ZeroDivisionError
    | NotImplementedError

  datatype Result<+T> = Ok(value: T) | Err(error: Error)

  /** Python (and numpy) sequence indexing: a negative index counts from the
      end, anything outside [-n, n) raises IndexError. */
  function PyIndex(i: int, n: nat): (r: Option<nat>)
    ensures r.Some? <==> -(n as int) <= i < n
    ensures r.Some? ==> r.value < n && r.value as int == (if i < 0 then i + n else i)
  {
    if 0 <= i < n then Some(i as nat)
    else if -(n as int) <= i < 0 then Some((i + n) as nat)
    else None
  }

  /** `xs[i]` with Python semantics. */
  function PyGet<T>(xs: seq<T>, i: int): (r: Result<T>)
    ensures r.Ok? <==> -(|xs| as int) <= i < |xs|
    ensures r.Ok? ==> r.value == xs[PyIndex(i, |xs|).value]
  {
    match PyIndex(i, |xs|)
    case Some(k) => Ok(xs[k])
    case None => Err(IndexError)
  }

  /** `xs[:n]` with Python slice semantics for a non-negative bound. */
  function TakePrefix<T>(xs: seq<T>, n: nat): (r: seq<T>)
    ensures |r| == if n < |xs| then n else |xs|
    ensures r <= xs
  {
    if n < |xs| then xs[..n] else xs
  }
}
