/** Results shared by every component.

    An operation of the store ends in one of three ways: it returns a value, it raises its own
    error, or the process stops (power loss, kill) between two disk steps. */
module Outcomes {
  datatype Option<+T> = None | Some(value: T)

  datatype Outcome<+T> = Done(value: T) | Raised | Crashed {
    predicate IsFailure() {
      !Done?
    }

    function PropagateFailure<U>(): Outcome<U>
      requires IsFailure()
    {
      if Raised? then Raised else Crashed
    }

    function Extract(): T
      requires Done?
    {
      value
    }
  }
}
