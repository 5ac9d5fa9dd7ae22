/** Result shapes shared by the whole model. */
module Wrappers {

  /** Rust's `Option<T>`. */
  datatype Option<T> = None | Some(value: T) {
    function GetOr(default: T): T {
      if Some? then value else default
    }
  }

  /** What a Rust expression of type `Result<T, _>` does when it is evaluated:
      it yields a value, returns an `Err`, or panics (an index out of range,
      an `unwrap` on `None`, an unsigned subtraction that underflows). */
  datatype Outcome<T> = Ok(value: T) | Err | Panic

  /** A kernel helper result: a value, or the negative error code the helper returned. */
  datatype Fallible<T> = Done(value: T) | Failed(code: int)
}
