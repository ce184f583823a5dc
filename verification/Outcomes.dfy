/** Results shared by every component: a value, a refusal with its reason, or
    the death of the process between two system calls. */
module Outcomes {

  datatype Option<+T> = None | Some(value: T)

  /** What a call that touches durable state can end in.  Killed means that the
      process died: nothing after that point of the call was executed. */
  datatype Outcome<+T, +E> = Done(value: T) | Killed | Failed(error: E) {

    predicate IsFailure() {
      !Done?
    }

    function PropagateFailure<U>(): Outcome<U, E>
      requires !Done?
    {
      match this
      case Killed => Killed
      case Failed(error) => Failed(error)
    }

    function Extract(): T
      requires Done?
    {
      value
    }
  }

  datatype Result<+T, +E> = Ok(value: T) | Err(error: E) {

    predicate IsFailure() {
      Err?
    }

    function PropagateFailure<U>(): Result<U, E>
      requires Err?
    {
      Err(error)
    }

    function Extract(): T
      requires Ok?
    {
      value
    }
  }
}

module ByteStrings {

  type Byte = x: int | 0 <= x < 256

  type Bytes = seq<Byte>
}
