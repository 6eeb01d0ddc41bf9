/** Option and Result, the two failure-carrying shapes the Rust code uses
    (`Option<T>` for absent fields and `unwrap`ped lookups, `Result<T, E>` for
    calls into the Docker API). */
module Wrappers {

  datatype Option<+T> = None | Some(value: T)

  datatype Result<+R, +E> = Success(value: R) | Failure(error: E)
}
