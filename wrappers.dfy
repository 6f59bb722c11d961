/** Error results for the exceptions the pricer raises. */
module Wrappers {

  /** The exceptions of the pricer, one constructor per cause. */
  datatype Error =
    | InvalidModel        // ValueError: model tag other than CRR, JR, TRG or BS
    | ZeroSteps           // ZeroDivisionError: step size tenor / n with n == 0
    | InvalidOptionKind   // ValueError: option kind other than call or put
    | PrecisionError      // PrecisionError: h * h below the comparison tolerance
    | NegativeTolerance   // ValueError from math.isclose: abs_tol below zero

  datatype Result<+T> = Success(value: T) | Failure(error: Error)
}
