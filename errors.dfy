/** The exceptions the run store can raise, and the failure-carrying return
    types that stand for Python's raise/return. */
module Errors {

  datatype Option<+T> = None | Some(value: T)

  datatype Error =
    | FileNotFound          // FileNotFoundError (open, mkdir, rename, and `load`'s own check)
    | FileExists            // FileExistsError (mkdir with exist_ok=False, or onto a file)
    | NotADirectory         // NotADirectoryError (a path goes through a regular file)
    | IsADirectory          // IsADirectoryError (opening a directory as a file)
    | OsError               // any other OSError (renaming the root)
    | AssertionFailed       // a failed `assert` in the serializer
    | Unpickling            // the blob at the path is not a pickle
    | ProcedureError(reason: string)  // whatever the wrapped procedure raised

  /** A value-returning call: it returns `value` or raises `error`. */
  datatype Result<+T> = Ok(value: T) | Err(error: Error)

  /** A call that returns None: it completes or raises `error`. */
  datatype Outcome = Done | Failed(error: Error)
}
