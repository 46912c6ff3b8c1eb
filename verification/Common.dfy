/** Result and option types shared by every module. */
module Common {

  datatype Option<+T> = None | Some(value: T)

  /** What a call gives back: a value, or the error it raised. */
  datatype Result<+T, +E> = Ok(value: T) | Err(error: E)

  /** The DER content of a certificate: which one it is, and its expiry date in seconds. */
  datatype Der = Der(serial: nat, expires: int)
}
