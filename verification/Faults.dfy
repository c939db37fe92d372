/**
 How an effect on the outside world can turn out, for protocols that may be killed at any moment.
 */
module Faults {

  /** The effect completes, raises an error, or is the last thing its process does. */
  datatype End = Completes | Raises | Dies

  /** How far an unfinished service command got. */
  datatype Progress = Untouched | Halted | Reached

  /** What the caller sees; after `Died` there is no caller any more. */
  datatype Status = Good | Raised | Died

  function Reports(end: End): Status {
    match end
    case Completes => Good
    case Raises => Raised
    case Dies => Died
  }
}
