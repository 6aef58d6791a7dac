/** Optional values and success/failure results shared by the whole model.
    JavaScript `null` becomes `None`; a thrown `Error` becomes `Failure`. */
module Outcomes {

  datatype Option<+T> = None | Some(value: T)

  datatype Result<+T, +E> = Success(value: T) | Failure(error: E)
}
