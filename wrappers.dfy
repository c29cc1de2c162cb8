/** The two sum types the Rust code uses: `Option` for absent values and
    `Result` for the `Ok`/`Err` outcome of `compare_exchange`. */
module Wrappers {

  datatype Option<+T> = None | Some(value: T)

  datatype Result<+R, +E> = Success(value: R) | Failure(error: E)
}
