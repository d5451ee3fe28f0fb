/** Small value types shared by every module of the model. */
module Basics {

  /** A value that may be absent; `None` stands for C#'s `null`. */
  datatype Option<T> = None | Some(value: T)

  /** The outcome of an operation that either returns a value or throws. */
  datatype Result<T, E> = Ok(value: T) | Err(error: E)

  /** An unsigned 8-bit integer (C# `byte`). */
  type byte = x: int | 0 <= x < 0x100

  /** An unsigned 16-bit integer (C# `ushort`). */
  type ushort = x: int | 0 <= x < 0x1_0000

  /** A thrown `System.Exception`, known only by its message. */
  datatype Exception = Exception(message: string)
}
