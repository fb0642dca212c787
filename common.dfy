/** Small value types shared by every module of the model. */
module Common {

  datatype Option<T> = None | Some(value: T)

  /** A computation that either succeeds or raises one of the wrapper's errors. */
  datatype Result<T, E> = Ok(value: T) | Err(error: E)

  /** How one invocation of the wrapper ends: `wcompile` returning `rc` to its
      caller, or the process being terminated by `sys.exit(code)` somewhere
      below it (which the `except Exception` in `wcompile` does not catch). */
  datatype Outcome = Return(rc: int) | Exit(code: int)
}
