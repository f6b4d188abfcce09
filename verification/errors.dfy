/** The exceptions the Hermite-function routines raise, with the Python
    exception class and the message each one carries. */
module Errors {

  datatype ExceptionClass = ValueError | TypeError | IndexError

  datatype Error =
    | MethodNotRecognized      // `method` is not one of the three names
    | NotAnInteger             // `n` is neither an `int` nor a numpy integer
    | NegativeOrder            // `n < 0`
    | AnalyticLimitExceeded    // the dispatcher's analytic method with `n > 5`
    | NoAnalyticExpression     // `_H_analytic` called with an order outside 0..5
    | AnalyticRange            // the older analytic routine with `n` outside 0..5
    | TooManyIndices           // numpy's `psi[m, :]` on an array with one axis
  {
    function Class(): ExceptionClass {
      if NotAnInteger? then TypeError
      else if TooManyIndices? then IndexError
      else ValueError
    }

    function Message(): string {
      match this
      case MethodNotRecognized => "Method not recognized."
      case NotAnInteger => "n must be an integer."
      case NegativeOrder => "n must be non-negative."
      case AnalyticLimitExceeded => "n must not be greater than 5 for analytic calculation."
      case NoAnalyticExpression => "n must be an integer between 0 and 5"
      case AnalyticRange => "n must be between 0 and 5"
      case TooManyIndices => "too many indices for array"
    }

    /** The older routines word the two order checks without the final
        full stop. */
    function LegacyMessage(): string {
      match this
      case NotAnInteger => "n must be an integer"
      case NegativeOrder => "n must be non-negative"
      case _ => Message()
    }
  }

  /** `pattern` matches at the start of `message`, as the tests' `match=`
      patterns do. */
  predicate Begins(message: string, pattern: string) {
    |pattern| <= |message| && message[..|pattern|] == pattern
  }
}
