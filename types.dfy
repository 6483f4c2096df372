/** Values shared by every part of the driver model: bytes, frames and the
    ways a driver call can end (return normally or raise). */
module Types {

  /** One element of a Python `bytes` object. */
  type Byte = x: int | 0 <= x < 256

  /** A command frame as handed to the bus: an opcode followed by its payload. */
  type Frame = seq<Byte>

  /** The exceptions the driver raises, named after their cause. */
  datatype Error =
    | InvalidColor          // ValueError: neither an int nor a 3-element sequence
    | ByteOutOfRange        // ValueError from bytes(): an element outside 0..255
    | ColorOverflow         // OverflowError from int.to_bytes(3, "big")
    | PixelOutOfRange       // ValueError: pixel position outside 0..num_pixels-1
    | BrightnessOutOfRange  // ValueError: hardware brightness outside 0..31
    | UndefinedName         // NameError: a name read that is bound nowhere

  /** A value, or the exception raised while computing it. */
  datatype Result<T> = Ok(value: T) | Err(error: Error)

  /** A value that may be absent. */
  datatype Option<T> = None | Some(value: T)

  /** How a driver method that returns None ends. */
  datatype Outcome = Returned | Raised(error: Error)
}
