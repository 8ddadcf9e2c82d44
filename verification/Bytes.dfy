/** Little-endian numbers in bytes. */
module Bytes {
  type Byte = b: int | 0 <= b < 256

  function U16(b: seq<Byte>): (n: nat)
    requires |b| >= 2
    ensures n < 0x1_0000
  {
    (b[0] as int) + 256 * (b[1] as int)
  }

  function U32(b: seq<Byte>): (n: nat)
    requires |b| >= 4
    ensures n < 0x1_0000_0000
  {
    (b[0] as int) + 256 * (b[1] as int) + 65536 * (b[2] as int) + 16777216 * (b[3] as int)
  }

  /** A two's complement number of the modulus. */
  function Signed(n: nat, modulus: nat): int
    requires n < modulus
  {
    if 2 * n >= modulus then n - modulus else n
  }

  function PutU16(n: nat): (b: seq<Byte>)
    requires n < 0x1_0000
    ensures |b| == 2
  {
    [n % 256, n / 256]
  }

  function PutU32(n: nat): (b: seq<Byte>)
    requires n < 0x1_0000_0000
    ensures |b| == 4
  {
    [n % 256, n / 256 % 256, n / 65536 % 256, n / 16777216]
  }

  lemma PutGet16(n: nat)
    requires n < 0x1_0000
    ensures U16(PutU16(n)) == n
  {}

  lemma PutGet32(n: nat)
    requires n < 0x1_0000_0000
    ensures U32(PutU32(n)) == n
  {
    assert n / 65536 == n / 256 / 256 && n / 16777216 == n / 256 / 256 / 256;
  }

  function Concat<T>(parts: seq<seq<T>>): seq<T> {
    if parts == [] then [] else Concat(parts[..|parts| - 1]) + parts[|parts| - 1]
  }
}
