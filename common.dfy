/** Types shared by every module of the model. */
module Common {

  /** An unsigned 8-bit value: the element type of the controller's byte arrays. */
  newtype Byte = b: int | 0 <= b < 0x100

  /** A value that may be absent: the model's rendering of a C# nullable reference. */
  datatype Option<+T> = None | Some(value: T)
}
