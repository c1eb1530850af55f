/** Octets, 32-bit numbers and the audio packet that every part of the relay passes on. */
module Packets {

  const TWO32: int := 0x1_0000_0000

  type byte = n: int | 0 <= n < 0x100

  type uint32 = n: int | 0 <= n < TWO32

  datatype Option<+T> = None | Some(value: T)

  datatype AudioPacket = AudioPacket(sessionId: uint32, sequence: uint32, signal: byte, opus: seq<byte>)

  /** Unsigned 32-bit addition, which wraps around. */
  function Add32(a: uint32, b: uint32): uint32
  {
    if a + b < TWO32 then a + b else a + b - TWO32
  }

  /** The conversion of a non-negative int to uint32, which truncates. */
  function Truncate32(n: nat): uint32
  {
    n % TWO32
  }
}
