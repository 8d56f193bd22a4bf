/** Values shared by every module of the model: JavaScript's "maybe absent"
    and "returned or threw". A thrown JavaScript Error is represented by its
    message. */
module Common {

  datatype Option<+T> = None | Some(value: T)

  /** The outcome of an awaited call: a value, or an Error with this message. */
  datatype Result<+T> = Ok(value: T) | Err(message: string)

  /** 2^k, for the exponential backoff delays. */
  function Pow2(k: nat): (r: nat)
    ensures r >= 1
  {
    if k == 0 then 1 else 2 * Pow2(k - 1)
  }
}
