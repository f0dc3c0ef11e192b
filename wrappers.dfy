/** Optional values and results with an error side, for the lookups and exceptions of the orchestrator. */
module Wrappers {

  datatype Option<+T> = None | Some(value: T)

  datatype Result<+T, +E> = Success(value: T) | Failure(error: E)
}
