/** Small value types shared by every module of the model. */
module Wrappers {

  /** An optional value: `undefined`/`null` in the source is `None`. */
  datatype Option<+T> = None | Some(value: T) {
    function GetOr(default: T): T {
      match this
      case Some(v) => v
      case None => default
    }
  }

  /** A failure-carrying result, for code paths where the source throws. */
  datatype Result<+R, +E> = Success(value: R) | Failure(error: E)

  /**
   * A JavaScript value that a guard inspects with `typeof` and `isNaN`.
   * Finite numbers are modelled as integers; `NaN` and values whose
   * `typeof` is not 'number' are kept apart because the guards treat them
   * differently (`typeof NaN` is 'number').
   */
  datatype Numeric = Int(value: int) | NaN | NotNumber

  /** JavaScript truthiness of an optional string: absent and "" are falsy. */
  predicate TruthyString(s: Option<string>) {
    s.Some? && s.value != ""
  }
}
