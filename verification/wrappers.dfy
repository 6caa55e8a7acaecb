/** Failure-compatible wrappers: a JavaScript `null`/`undefined` becomes `None`,
    a thrown exception or rejected promise becomes `Failure`. */
module Wrappers {

  datatype Option<+T> = None | Some(value: T)

  datatype Result<+R, +E> = Success(value: R) | Failure(error: E) {
    predicate IsFailure() {
      Failure?
    }

    function PropagateFailure<U>(): Result<U, E>
      requires Failure?
    {
      Failure(error)
    }

    function Extract(): R
      requires Success?
    {
      value
    }
  }

  /** The outcome of a step that returns nothing but may throw. */
  datatype Outcome<+E> = Pass | Fail(error: E)
}

/** The errors a call into the client or the loader can reject with. */
module Errors {

  datatype Error =
    | NotFound                    // `new Error('Not Found')`
    | ReadError(path: string)     // fs.readFile failed
    | ParseError(message: string) // JSON or ThingTalk parse failure
    | TypeError(message: string)  // a JavaScript TypeError raised by the code itself
    | External(message: string)   // thrown by a collaborator (install hook, metadata builder)
}
