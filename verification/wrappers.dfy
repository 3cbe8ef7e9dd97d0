/** Failure-compatible result types shared by every module of the model.
    A Rust `panic!`/`assert!` on a builder becomes a `Failure` carrying the
    reason, and a Rust `Option` becomes `Option`. */
module Wrappers {

  datatype Option<+T> = None | Some(value: T)

  datatype Result<+R, +E> = Success(value: R) | Failure(error: E)
}
