/** Rust's `Option` and `Result`, as far as the tag adapter uses them. */
module Wrappers {

  /** `Option<T>`: a value that may be absent. */
  datatype Option<+T> = None | Some(value: T) {

    /** `Option::or_else` with a side-effect-free alternative: this value when present, otherwise `other`. */
    function OrElse(other: Option<T>): Option<T> {
      if Some? then this else other
    }
  }

  /** `Result<T, E>`: a value or the error that prevented it. */
  datatype Result<+T, +E> = Ok(value: T) | Err(error: E)
}
