/** Writing a mono 16-bit WAV file: internal/audio/wavenc.go. */
module WaveWriter {
  import opened Bytes

  const MAX_UINT32: nat := 0xFFFF_FFFF

  function Min(a: nat, b: nat): nat { if a < b then a else b }

  const RIFF: seq<Byte> := [82, 73, 70, 70]
  const WAVE: seq<Byte> := [87, 65, 86, 69]
  const FMT: seq<Byte> := [102, 109, 116, 32]
  const DATA: seq<Byte> := [100, 97, 116, 97]

  /** The body of the fmt chunk: PCM, one channel, 16 bits. */
  function FmtBody(rate: nat): (b: seq<Byte>)
    ensures |b| == 16
  {
    PutU16(1) + PutU16(1) + PutU32(rate % 0x1_0000_0000) + PutU32(rate * 2 % 0x1_0000_0000) + PutU16(2) + PutU16(16)
  }

  function Header(rate: nat, dataBytes: nat): (h: seq<Byte>)
    ensures |h| == 44
  {
    RIFF + PutU32(Min(dataBytes + 36, MAX_UINT32)) + WAVE + FMT + PutU32(16) + FmtBody(rate) + DATA + PutU32(Min(dataBytes, MAX_UINT32))
  }

  /** The bytes go behind what is there so far. */
  method Put(h: array<Byte>, at: nat, b: seq<Byte>, ghost before: seq<Byte>)
    requires at + |b| <= h.Length && h[..at] == before
    modifies h
    ensures h[..at + |b|] == before + b
  {
    var i := 0;
    while i < |b|
      invariant 0 <= i <= |b| && h[..at + i] == before + b[..i]
    {
      h[at + i] := b[i];
      assert h[..at + i + 1] == h[..at + i] + [b[i]];
      i := i + 1;
    }
    assert b[..i] == b;
  }

  /** WAVHeader, byte range by byte range. */
  method WavHeader(rate: nat, dataBytes: nat) returns (header: seq<Byte>)
    ensures header == Header(rate, dataBytes)
  {
    var h := new Byte[44](_ => 0);
    Put(h, 0, RIFF, []);
    Put(h, 4, PutU32(Min(dataBytes + 44 - 8, MAX_UINT32)), h[..4]);
    Put(h, 8, WAVE + FMT, h[..8]);
    Put(h, 16, PutU32(16), h[..16]);
    PutFormat(h, rate, h[..20]);
    Put(h, 36, DATA, h[..36]);
    Put(h, 40, PutU32(Min(dataBytes, MAX_UINT32)), h[..40]);
    assert h[..] == h[..44];
    header := h[..];
  }

  /** The fmt chunk's fields. */
  method PutFormat(h: array<Byte>, rate: nat, ghost before: seq<Byte>)
    requires h.Length == 44 && h[..20] == before
    modifies h
    ensures h[..36] == before + FmtBody(rate)
  {
    Put(h, 20, PutU16(1), before);
    Put(h, 22, PutU16(1), h[..22]);
    Put(h, 24, PutU32(rate % 0x1_0000_0000), h[..24]);
    Put(h, 28, PutU32(rate * 1 * 16 / 8 % 0x1_0000_0000), h[..28]);
    Put(h, 32, PutU16(1 * 16 / 8), h[..32]);
    Put(h, 34, PutU16(16), h[..34]);
  }

  /** math.Round: half away from zero. */
  function Round(x: real): int {
    if x >= 0.0 then (x + 0.5).Floor else -((-x + 0.5).Floor)
  }

  function Clip(v: int): (c: int)
    ensures -32768 <= c <= 32767
  {
    if v < -32768 then -32768 else if v > 32767 then 32767 else v
  }

  /** The two bytes of a sample. */
  function Encoded(s: real): (b: seq<Byte>)
    ensures |b| == 2
  {
    PutU16(Clip(Round(s * 32767.0)) % 0x1_0000)
  }

  function EncodedAll(samples: seq<real>): (b: seq<Byte>)
    ensures |b| == 2 * |samples|
  {
    if samples == [] then [] else EncodedAll(samples[..|samples| - 1]) + Encoded(samples[|samples| - 1])
  }

  /** Sample i is in bytes 2i and 2i + 1. */
  lemma {:induction false} EncodedAt(samples: seq<real>, i: nat)
    requires i < |samples|
    ensures EncodedAll(samples)[2 * i..2 * i + 2] == Encoded(samples[i])
  {
    var front := samples[..|samples| - 1];
    if i < |front| {
      EncodedAt(front, i);
      assert EncodedAll(samples)[2 * i..2 * i + 2] == EncodedAll(front)[2 * i..2 * i + 2];
    }
  }

  /** EncodePCM16 */
  method EncodePCM16(samples: seq<real>) returns (out: seq<Byte>)
    ensures out == EncodedAll(samples)
    ensures |out| == 2 * |samples| && forall i :: 0 <= i < |samples| ==> out[2 * i..2 * i + 2] == Encoded(samples[i])
  {
    var a := new Byte[2 * |samples|](_ => 0);
    var i := 0;
    while i < |samples|
      invariant 0 <= i <= |samples| && a.Length == 2 * |samples|
      invariant a[..2 * i] == EncodedAll(samples[..i])
    {
      var two := Encoded(samples[i]);
      assert samples[..i + 1][..i] == samples[..i];
      a[2 * i], a[2 * i + 1] := two[0], two[1];
      assert a[..2 * (i + 1)] == a[..2 * i] + two;
      i := i + 1;
    }
    assert samples[..i] == samples && a[..] == a[..2 * i];
    out := a[..];
    forall k | 0 <= k < |samples| ensures out[2 * k..2 * k + 2] == Encoded(samples[k]) { EncodedAt(samples, k); }
  }

  /** WriteWAV */
  function Written(rate: nat, samples: seq<real>): seq<Byte> {
    Header(rate, 2 * |samples|) + EncodedAll(samples)
  }

  method WriteWav(rate: nat, samples: seq<real>) returns (file: seq<Byte>)
    ensures file == Written(rate, samples)
  {
    var data := EncodePCM16(samples);
    var header := WavHeader(rate, |data|);
    file := header + data;
  }
}
