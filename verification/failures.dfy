/** How the client's calls end: with a value, or with a Python exception. */
module Failures {

  /** The message of the exception `push_task` raises when the queue is full. */
  const MaxTasksMessage := "maximum tasks exceeded"

  datatype Option<+T> = None | Some(value: T)

  /** The exceptions the client raises, catches or passes on. */
  datatype Exn =
    /** A bare `Exception(message)`, as raised by the capacity guard. */
    | Exception(message: string)
    /** A lookup of a key the task dictionary does not hold. */
    | KeyError(key: string)
    /** An item assignment on a decoded reply that is not a dictionary. */
    | TypeError(message: string)
    /** Anything the HTTP session or the JSON decoder raises; opaque here. */
    | Foreign(kind: string, message: string)

  /** A Python call either returns a value or raises an exception. */
  datatype Result<+T> = Ok(value: T) | Raised(exn: Exn)
}
