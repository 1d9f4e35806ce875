/**
 * JavaScript values the widgets' code relies on: `undefined`, thrown errors
 * and the two kinds of number a percentage can produce.
 */
module Js {

  /** A value that may be `undefined`. */
  datatype Maybe<+T> = Undefined | Defined(value: T)

  /** The errors the modelled code throws. */
  datatype Error =
    | NotInitialized      // "The chart has not been initialized!"
    | ReduceOfEmptyArray  // `reduce` without a seed on an empty array
    | UndefinedProperty   // a property read on `undefined`
    | NotAConstructor     // `new` applied to a value that is not a constructor
    | NotAFunction        // a call of a property that is not a function

  /** The outcome of code that may throw. */
  datatype Result<+T> = Ok(value: T) | Throw(error: Error)

  /** An operation that returns nothing but may throw. */
  datatype Outcome = Done | Failed(error: Error)

  /**
   * A number computed by percentage arithmetic: a finite value (an ideal
   * real, rounding is not modelled) or NaN (0 / 0).
   */
  datatype Num = Finite(r: real) | NaN

  /** `"" + x` of a possibly missing element: JavaScript prints "undefined". */
  function TextOf(s: seq<string>, i: nat): string
  {
    if i < |s| then s[i] else "undefined"
  }
}
