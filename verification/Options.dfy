/** The stand-in for SQL NULL and JavaScript null or undefined. */
module Options {
  datatype Option<+T> = None | Some(value: T) {
    function GetOr(fallback: T): T {
      match this
      case None => fallback
      case Some(v) => v
    }
  }

  /** A row id, token, hash, stamp or ciphertext: the code only ever compares these for equality. */
  type Id = nat
}
