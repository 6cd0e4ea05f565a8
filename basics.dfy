/** Shared vocabulary of the model: bytes, optional values, results, and
    the ASCII text the multiplexer writes to serial lines. */
module Basics {

  /** An 8-bit value as carried by a Go `byte` channel. */
  type Byte = x: int | 0 <= x < 256

  datatype Option<+T> = None | Some(value: T)

  datatype Result<+R, +E> = Success(value: R) | Failure(error: E)

  /** The bytes of a string literal whose characters all fit in one byte
      (every literal the source writes is plain ASCII). */
  function Ascii(s: string): (r: seq<Byte>)
    requires forall i | 0 <= i < |s| :: s[i] as int < 256
    ensures |r| == |s|
    ensures forall i | 0 <= i < |s| :: r[i] == s[i] as int
  {
    seq(|s|, i requires 0 <= i < |s| => s[i] as int as Byte)
  }

  /** The byte 13 (carriage return) that ends a monitor command line. */
  const CR: Byte := 13

  /** The byte 10 (line feed) that ends every line the source writes. */
  const LF: Byte := 10

  /** The byte 32 (space) used for padding and joining words. */
  const SPACE: Byte := 32
}
