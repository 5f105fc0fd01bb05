/** encoding/binary's LittleEndian byte order for the widths the core writes. */
module LittleEndian {
  import opened Types

  function Pow256(n: nat): (p: nat)
    ensures p >= 1
  {
    if n == 0 then 1 else 0x100 * Pow256(n - 1)
  }

  /** The n low-order bytes of v, least significant first: byte(v), byte(v >> 8), ... */
  function LeBytes(v: nat, n: nat): (b: seq<uint8>)
    ensures |b| == n
  {
    if n == 0 then [] else [v % 0x100] + LeBytes(v / 0x100, n - 1)
  }

  /** The unsigned value of bytes read least significant first. */
  function LeValue(b: seq<uint8>): (v: nat)
    ensures v < Pow256(|b|)
  {
    if |b| == 0 then 0 else b[0] as int + 0x100 * LeValue(b[1..])
  }

  /** Reading back the bytes written for a value that fits gives the value. */
  lemma {:induction false} LeRoundTrip(v: nat, n: nat)
    requires v < Pow256(n)
    ensures LeValue(LeBytes(v, n)) == v
  {
    if n > 0 {
      var b := LeBytes(v, n);
      assert b[1..] == LeBytes(v / 0x100, n - 1);
      LeRoundTrip(v / 0x100, n - 1);
    }
  }

  /** The two bytes of a uint16, least significant first. */
  function PutUint16(v: uint16): (b: seq<uint8>)
    ensures |b| == 2 && Uint16(b) == v
  {
    assert Pow256(2) == TwoTo16;
    LeRoundTrip(v, 2);
    LeBytes(v, 2)
  }

  function Uint16(b: seq<uint8>): uint16
    requires |b| == 2
  {
    assert Pow256(2) == TwoTo16;
    LeValue(b)
  }

  /** The four bytes of a uint32, least significant first. */
  function PutUint32(v: uint32): (b: seq<uint8>)
    ensures |b| == 4 && Uint32(b) == v
  {
    assert Pow256(4) == TwoTo32;
    LeRoundTrip(v, 4);
    LeBytes(v, 4)
  }

  function Uint32(b: seq<uint8>): uint32
    requires |b| == 4
  {
    assert Pow256(4) == TwoTo32;
    LeValue(b)
  }

  /** A signed 16-bit value as two's complement, least significant byte first. */
  function PutInt16(v: int): (b: seq<uint8>)
    requires -0x8000 <= v < 0x8000
    ensures |b| == 2 && Int16(b) == v
  {
    PutUint16(if v < 0 then v + TwoTo16 else v)
  }

  function Int16(b: seq<uint8>): int
    requires |b| == 2
  {
    var u := Uint16(b);
    if u < 0x8000 then u else u - TwoTo16
  }
}
