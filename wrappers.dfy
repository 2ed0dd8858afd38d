/** Option and Result, shared by the profiler-analysis modules. */
module Wrappers {

  datatype Option<+T> = None | Some(value: T)

  /** A Python call either returns a value or raises; `Failure` carries the raised error. */
  datatype Result<+R, +E> = Success(value: R) | Failure(error: E)
}
