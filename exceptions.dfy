/** The exceptions the Predictor throws or lets through, written as values. */
module Exceptions {

  /** One constructor per exception type that can leave a Predictor operation. */
  datatype Error =
    | ArgumentError      // System.ArgumentException
    | InvalidOperation   // System.InvalidOperationException
    | BrainFlowError     // brainflow.BrainFlowError, raised by any call into BrainFlow
    | IndexOutOfRange    // System.IndexOutOfRangeException, reading [0] of an empty array
    | ListenerFault      // an exception raised by a subscriber of the score event

  datatype Option<+T> = None | Some(value: T)

  /** A value, or the exception that was thrown instead of producing it. */
  datatype Result<+T> = Success(value: T) | Failure(error: Error) {
    function ToOption(): (o: Option<T>)
      ensures o.Some? <==> Success?
      ensures o.Some? ==> o.value == value
    {
      match this
      case Success(v) => Some(v)
      case Failure(_) => None
    }
  }

  /** The way a void operation ends: normally, or with an exception. */
  datatype Outcome = Pass | Fail(error: Error)
}
