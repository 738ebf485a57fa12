/** Result and option types shared by every module, and the classes of HTTP errors the services raise. */
module Results {

  datatype Option<+T> = None | Some(value: T)

  /** `Internal` is an exception that no service turns into an answer. */
  datatype Error = NotFound | BadRequest | Conflict | Forbidden | Internal

  datatype Result<+T> = Ok(value: T) | Err(error: Error)

  /** Counts one case of a sum. */
  function Bit(b: bool): nat {
    if b then 1 else 0
  }
}
