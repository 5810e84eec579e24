/** Optional values and results shared by every module of the model. */
module Wrappers {
  datatype Option<T> = None | Some(value: T)

  /** A settled promise or a thrown exception: `Ok` resolves, `Err` rejects or throws. */
  datatype Result<T, E> = Ok(value: T) | Err(error: E)
}
