/** Failure-carrying wrappers shared by every module: an optional value and
    the outcome of a Python call that either returns or raises. */
module Outcomes {

  datatype Option<+T> = None | Some(value: T)

  /** What a Python statement sequence ends in: a value, or an exception whose
      `str(e)` is `error`. */
  datatype Result<+T> = Ok(value: T) | Err(error: string)

  /** The outcome of a call into code outside the model (Jinja rendering,
      `save_artifact`, the filesystem). */
  datatype Call<+T> = Returned(value: T) | Raised(error: string)
}
