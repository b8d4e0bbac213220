/** Absent values, server replies and the error record the stores keep. */
module Outcomes {

  /** A value that may be `undefined`/`null` in the original program. */
  datatype Option<+T> = None | Some(value: T) {
    /** `x ?? d` and `x || d` for a value that is never falsy when present. */
    function GetOr(default: T): T {
      match this
      case Some(v) => v
      case None => default
    }
  }

  /** The error object an API call rejects with (`ApiError` of the types folder). */
  datatype ApiError = ApiError(message: string, status: Option<int>, serverMessage: Option<string>)

  /** What one awaited server call produced: the response data, or the error it threw. */
  datatype Reply<+T> = Ok(value: T) | Err(error: ApiError)

  /**
   * Which call into secure storage throws, counted from 0 within one store
   * operation; `Healthy` means none does.
   */
  datatype StorageFault = Healthy | FailsAt(op: nat) {
    predicate Fails(k: nat) {
      FailsAt? && op == k
    }

    /** None of the first `n` storage calls throws. */
    predicate Survives(n: nat) {
      !(FailsAt? && op < n)
    }
  }
}
