/** Optional values, and results that are either a value or one of the store's errors. */
module Results {

  datatype Option<+T> = None | Some(value: T)

  /** The sentinel errors of the store, and `Internal` for every other failed statement. */
  datatype Error = Unauthorized | Forbidden | NotFound | Invalid | Conflict | MFARequired | Internal

  datatype Result<+T> = Ok(value: T) | Err(error: Error)
}
