/** Fixed-width integer fields of byte buffers, as DataView and Buffer read and write them. */
module ByteFields {

  type byte = b: int | 0 <= b < 256

  const U16_LIMIT: nat := 0x1_0000
  const U32_LIMIT: nat := 0x1_0000_0000

  function U16LE(b: seq<byte>, at: nat): (v: nat)
    requires at + 2 <= |b|
    ensures v < U16_LIMIT
  {
    b[at] as int + 0x100 * b[at + 1] as int
  }

  function U32LE(b: seq<byte>, at: nat): (v: nat)
    requires at + 4 <= |b|
    ensures v < U32_LIMIT
  {
    b[at] as int + 0x100 * b[at + 1] as int + 0x1_0000 * b[at + 2] as int + 0x100_0000 * b[at + 3] as int
  }

  function U32BE(b: seq<byte>, at: nat): (v: nat)
    requires at + 4 <= |b|
    ensures v < U32_LIMIT
  {
    0x100_0000 * b[at] as int + 0x1_0000 * b[at + 1] as int + 0x100 * b[at + 2] as int + b[at + 3] as int
  }

  function PutU16LE(v: nat): (b: seq<byte>)
    requires v < U16_LIMIT
    ensures |b| == 2 && U16LE(b, 0) == v
  {
    [v % 0x100, v / 0x100]
  }

  function PutU32LE(v: nat): (b: seq<byte>)
    requires v < U32_LIMIT
    ensures |b| == 4 && U32LE(b, 0) == v
  {
    var q1 := v / 0x100;
    var q2 := q1 / 0x100;
    [v % 0x100, q1 % 0x100, q2 % 0x100, q2 / 0x100]
  }

  function PutU32BE(v: nat): (b: seq<byte>)
    requires v < U32_LIMIT
    ensures |b| == 4 && U32BE(b, 0) == v
  {
    var q1 := v / 0x100;
    var q2 := q1 / 0x100;
    [q2 / 0x100, q2 % 0x100, q1 % 0x100, v % 0x100]
  }

  /** A field does not depend on the bytes around the window it is read from. */
  lemma U16Window(b: seq<byte>, lo: nat, hi: nat, at: nat)
    requires lo <= hi <= |b| && lo + at + 2 <= hi
    ensures U16LE(b, lo + at) == U16LE(b[lo..hi], at)
  {
  }

  lemma U32Window(b: seq<byte>, lo: nat, hi: nat, at: nat)
    requires lo <= hi <= |b| && lo + at + 4 <= hi
    ensures U32LE(b, lo + at) == U32LE(b[lo..hi], at)
  {
  }

  /** Writes a 16-bit field into a buffer in place. */
  method WriteU16LE(buffer: array<byte>, v: nat, at: nat)
    requires v < U16_LIMIT && at + 2 <= buffer.Length
    modifies buffer
    ensures buffer[..] == old(buffer[..at]) + PutU16LE(v) + old(buffer[at + 2..])
  {
    buffer[at] := v % 0x100;
    buffer[at + 1] := v / 0x100;
  }

  /** Writes a 32-bit field into a buffer in place. */
  method WriteU32LE(buffer: array<byte>, v: nat, at: nat)
    requires v < U32_LIMIT && at + 4 <= buffer.Length
    modifies buffer
    ensures buffer[..] == old(buffer[..at]) + PutU32LE(v) + old(buffer[at + 4..])
  {
    var q1 := v / 0x100;
    var q2 := q1 / 0x100;
    buffer[at], buffer[at + 1] := v % 0x100, q1 % 0x100;
    buffer[at + 2], buffer[at + 3] := q2 % 0x100, q2 / 0x100;
  }
}
