/**
 * The per-motor error bitmask (Motor::error_) restricted to the four error bits
 * this board layer raises. The bitmask is a set of flags; OR-ing a bit in is
 * set union, and nothing in this layer ever clears a bit.
 */
module MotorErrors {
  datatype MotorError =
    | CurrentSenseSaturation
    | TimerUpdateMissed
    | BadTiming
    | ControlDeadlineMissed

  type ErrorSet = set<MotorError>

  /** Motor::disarm_with_error as seen from this layer: the error bit is OR-ed in. */
  function DisarmWithError(errors: ErrorSet, e: MotorError): (r: ErrorSet)
    ensures e in r
    ensures errors <= r
    ensures r - errors <= {e}
  {
    errors + {e}
  }

  /** Conditionally OR an error bit in: the firmware's `if (cond) disarm_with_error(e)`. */
  function RaiseIf(errors: ErrorSet, cond: bool, e: MotorError): (r: ErrorSet)
    ensures errors <= r
    ensures e in r <==> e in errors || cond
    ensures r - errors <= {e}
  {
    if cond then DisarmWithError(errors, e) else errors
  }
}
