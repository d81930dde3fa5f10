/** Optional values and the exceptions the status feeder can raise.

    A Python exception anywhere in one poll cycle ends the program, so the
    model carries it as `Err(fault)` up to the cycle, which then fails. */
module Wrappers {

  /** A value that may be missing: a dictionary key never set, a pattern that did not match. */
  datatype Option<+T> = None | Some(value: T) {
    predicate IsFailure() { None? }

    function PropagateFailure<U>(): Option<U>
      requires None?
    {
      None
    }

    function Extract(): T
      requires Some?
    {
      value
    }
  }

  /** The Python exception that a computation raises. */
  datatype Fault =
    | KeyError            // a dictionary lookup of a key that was never stored
    | ZeroDivisionError   // a float division by zero
    | ValueError          // float() of text that is not a number
    | AttributeError      // a method called on the None of an unmatched pattern
    | UnboundLocalError   // a local read before any branch assigned it
    | TypeError           // `in` applied to the None an unmatched pattern stored
    | CalledProcessError  // a shell command that exited with a non-zero status

  /** The outcome of a computation that may raise. */
  datatype Result<+T> = Ok(value: T) | Err(fault: Fault) {
    predicate IsFailure() { Err? }

    function PropagateFailure<U>(): Result<U>
      requires Err?
    {
      Err(fault)
    }

    function Extract(): T
      requires Ok?
    {
      value
    }
  }

  /** A missing dictionary entry read with `d[key]`. */
  function Lookup<T>(o: Option<T>): (r: Result<T>)
    ensures r.Ok? <==> o.Some?
    ensures r.Ok? ==> r.value == o.value
    ensures r.Err? ==> r.fault == KeyError
  {
    match o
    case Some(v) => Ok(v)
    case None => Err(KeyError)
  }
}
