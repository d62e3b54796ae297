/** Failure-aware results shared by every module: the Python program signals
    its failures by raising exceptions, which the model returns as values. */
module Wrappers {

  datatype Option<+T> = None | Some(value: T)

  /** The exception classes the modelled code can raise. */
  datatype Error =
    | IndexError          // list index out of range, `[]`.choice, `[-1]` on an empty list
    | ValueError          // Vec operator with an unsupported operand, float() of a bad token
    | ZeroDivisionError   // float division by zero
    | AssertionError      // the KCL magic-number assertion
    | AttributeError      // a method called on None (an object without collision data)
    | TypeError           // reduce() of an empty sequence
    | StructError         // struct.unpack on a short read
    | SeekError           // seek to a negative file offset
    | SearchExhausted     // `raise Exception(...)` after a bounded retry loop
    | InvalidDifficulty   // `raise Exception(f'Invalid difficulty {d}')`
    | KeyError            // `dict.pop` or `d[k]` of a missing key
    | OutOfFuel           // the model's bound on a loop or a recursion the program leaves unbounded

  datatype Result<+T> = Ok(value: T) | Err(error: Error) {
    predicate IsFailure() { Err? }
    function PropagateFailure<U>(): Result<U>
      requires Err?
    {
      Err(error)
    }
    function Extract(): T
      requires Ok?
    {
      value
    }
  }
}
