/** Option and Result values shared by every module, and the three-way comparison
    result the source's comparators return (Rust's std::cmp::Ordering). */
module Wrappers {

  datatype Option<+T> = None | Some(value: T) {
    function GetOr(default: T): T {
      match this
      case Some(v) => v
      case None => default
    }
  }

  /** A Rust `Result<T, String>`, carrying the error text the source reports. */
  datatype Result<+T> = Ok(value: T) | Err(msg: string)

  datatype Ordering = Less | Equal | Greater {
    /** The ordering seen from the other side (`Ordering::reverse`). */
    function Reverse(): Ordering {
      match this
      case Less => Greater
      case Equal => Equal
      case Greater => Less
    }
  }
}
