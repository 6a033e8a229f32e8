// Bytes and the big-endian integers of encoding/binary.
module Bytes {

  newtype byte = x: int | 0 <= x < 256

  function PutUint16(n: nat): (b: seq<byte>)
    requires n < 0x1_0000
    ensures |b| == 2 && Uint16(b) == n
  {
    [(n / 256) as byte, (n % 256) as byte]
  }

  function Uint16(b: seq<byte>): (n: nat)
    requires |b| == 2
    ensures n < 0x1_0000
  {
    b[0] as nat * 256 + b[1] as nat
  }

  function PutUint32(n: nat): (b: seq<byte>)
    requires n < 0x1_0000_0000
    ensures |b| == 4 && Uint32(b) == n
  {
    PutUint16(n / 0x1_0000) + PutUint16(n % 0x1_0000)
  }

  function Uint32(b: seq<byte>): (n: nat)
    requires |b| == 4
    ensures n < 0x1_0000_0000
  {
    Uint16(b[..2]) * 0x1_0000 + Uint16(b[2..])
  }

  /** Encoding loses nothing in the other direction either. */
  lemma Uint16Onto(b: seq<byte>)
    requires |b| == 2
    ensures PutUint16(Uint16(b)) == b
  {}

  /** Two's-complement reading of a value modulo 2^32, as Go's int32 arithmetic wraps. */
  function Wrap32(n: int): (r: int)
    ensures -0x8000_0000 <= r < 0x8000_0000
    ensures -0x8000_0000 <= n < 0x8000_0000 ==> r == n
  {
    (n + 0x8000_0000) % 0x1_0000_0000 - 0x8000_0000
  }

  /** It is the one value in the int32 range that differs from n by a multiple of 2^32. */
  lemma Wrap32Is(n: int, r: int, k: int)
    requires -0x8000_0000 <= r < 0x8000_0000 && n == r + k * 0x1_0000_0000
    ensures Wrap32(n) == r
  {}

  /** Big-endian: the first byte is the most significant one. */
  lemma BigEndian(n: nat)
    requires n < 0x1_0000_0000
    ensures var b := PutUint32(n);
            b[0] as int * 0x100_0000 + b[1] as int * 0x1_0000 + b[2] as int * 0x100 + b[3] as int == n
    ensures n < 0x1_0000 ==> var b := PutUint16(n); b[0] as int * 0x100 + b[1] as int == n
  {}

  /** Go's copy: as many bytes as both sides allow. */
  method Copy(p: array<byte>, data: seq<byte>) returns (n: nat)
    modifies p
    ensures n == if p.Length < |data| then p.Length else |data|
    ensures p[..] == data[..n] + old(p[..])[n..]
  {
    n := if p.Length < |data| then p.Length else |data|;
    for i := 0 to n
      invariant p[..i] == data[..i]
      invariant p[i..] == old(p[..])[i..]
    {
      p[i] := data[i];
    }
  }
}
