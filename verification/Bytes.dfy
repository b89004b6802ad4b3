/** Bytes, fixed-width unsigned integers and their big-endian encodings. */
module Bytes {
  type byte = x: int | 0 <= x < 0x100
  type uint16 = x: int | 0 <= x < 0x1_0000
  type uint32 = x: int | 0 <= x < 0x1_0000_0000

  const TWO_32: int := 0x1_0000_0000

  datatype Option<+T> = None | Some(value: T)

  datatype Result<+T, +E> = Success(value: T) | Failure(error: E)

  function Min(a: int, b: int): int {
    if a < b then a else b
  }

  function PutUint16(v: uint16): (b: seq<byte>)
    ensures |b| == 2 && GetUint16(b) == v
  {
    [v / 0x100, v % 0x100]
  }

  function GetUint16(b: seq<byte>): uint16
    requires |b| == 2
  {
    var hi: int := b[0];
    var lo: int := b[1];
    hi * 0x100 + lo
  }

  function PutUint32(v: uint32): (b: seq<byte>)
    ensures |b| == 4 && GetUint32(b) == v
  {
    PutUint16(v / 0x1_0000) + PutUint16(v % 0x1_0000)
  }

  function GetUint32(b: seq<byte>): uint32
    requires |b| == 4
  {
    var hi: int := GetUint16(b[..2]);
    var lo: int := GetUint16(b[2..]);
    hi * 0x1_0000 + lo
  }

  /** Big-endian decoding is injective: four bytes are recovered from their value. */
  lemma PutGetUint32(b: seq<byte>)
    requires |b| == 4
    ensures PutUint32(GetUint32(b)) == b
  {
    hide PutUint16, GetUint16;
    assert b == b[..2] + b[2..];
    PutGetUint16(b[..2]);
    PutGetUint16(b[2..]);
  }

  lemma PutGetUint16(b: seq<byte>)
    requires |b| == 2
    ensures PutUint16(GetUint16(b)) == b
  {
  }
}
