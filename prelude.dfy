/** Small types shared by every module: optional values and bytes. */
module Prelude {

  /** `None` stands for JavaScript's `undefined` / `null` wherever the JavaScript
      tests a value for presence. */
  datatype Option<+T> = None | Some(value: T) {

    /** The value when present, otherwise the given default. */
    function GetOr(default: T): T {
      match this
      case Some(v) => v
      case None => default
    }
  }

  /** An unsigned 8-bit value, as held by a `Uint8Array` element. */
  type Byte = x: int | 0 <= x < 256
}
