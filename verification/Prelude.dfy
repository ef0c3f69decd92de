/** Small datatypes shared by every module of the model. */
module Prelude {

  datatype Option<+T> = None | Some(value: T)

  /**
   The outcome of code that may raise. A refusal is the server rejecting the request
   itself; any other exception is a request that did not get through.
   */
  datatype Outcome<+T> = Ok(value: T) | Raised(refusal: bool) {
    predicate IsFailure() {
      Raised?
    }

    function PropagateFailure<U>(): Outcome<U>
      requires Raised?
    {
      Raised(refusal)
    }

    function Extract(): T
      requires Ok?
    {
      value
    }
  }

  function Pow2(e: nat): (p: nat)
    ensures p > 0
  {
    if e == 0 then 1 else 2 * Pow2(e - 1)
  }

  /** The numbers below `n`. */
  function Upto(n: nat): (r: set<nat>)
    ensures |r| == n && forall k: nat :: k in r <==> k < n
  {
    if n == 0 then {} else Upto(n - 1) + {n - 1}
  }
}
