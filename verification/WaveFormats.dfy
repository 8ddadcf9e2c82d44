/** The numbers in a WAVE file, one by one: a format chunk's fields, a sample's bytes, a header's lengths. */
module WaveFormats {
  import opened Options
  import opened Bytes
  import opened Sums
  import opened WaveWriter
  import opened WaveReader

  /** A format chunk: the fields in their places, with any bytes for the average byte rate, which nobody reads. */
  function FmtChunkBody(tag: nat, f: Format, blockAlign: nat, average: seq<Byte>): (b: seq<Byte>)
    requires tag < 0x1_0000 && f.channels < 0x1_0000 && f.rate < 0x1_0000_0000 && blockAlign < 0x1_0000 && f.bits < 0x1_0000 && |average| == 4
    ensures |b| == 16
  {
    PutU16(tag) + PutU16(f.channels) + PutU32(f.rate) + average + PutU16(blockAlign) + PutU16(f.bits)
  }

  lemma FieldsOf(tag: nat, f: Format, blockAlign: nat, average: seq<Byte>, more: seq<Byte>)
    requires tag < 0x1_0000 && f.channels < 0x1_0000 && f.rate < 0x1_0000_0000 && blockAlign < 0x1_0000 && f.bits < 0x1_0000 && |average| == 4
    ensures var b := FmtChunkBody(tag, f, blockAlign, average) + more;
      && U16(b[0..2]) == tag && U16(b[2..4]) == f.channels && U32(b[4..8]) == f.rate && U16(b[12..14]) == blockAlign && U16(b[14..16]) == f.bits
  {
    var b := FmtChunkBody(tag, f, blockAlign, average) + more;
    assert b[0..2] == PutU16(tag) && b[2..4] == PutU16(f.channels) && b[4..8] == PutU32(f.rate);
    assert b[12..14] == PutU16(blockAlign) && b[14..16] == PutU16(f.bits);
    PutGet16(tag);
    PutGet16(f.channels);
    PutGet32(f.rate);
    PutGet16(blockAlign);
    PutGet16(f.bits);
  }

  predicate Tagged(f: Format) { f.tag == 1 || f.tag == 3 || f.tag == 6 || f.tag == 7 }

  /** Any format there is reads back from its chunk, also when the chunk leaves the stride to be worked out. */
  lemma FormatReadsBack(f: Format, average: seq<Byte>, more: seq<Byte>)
    requires Sound(f) && Tagged(f) && |average| == 4
    ensures ParseFmt(FmtChunkBody(f.tag, f, f.blockAlign, average) + more) == Ok(f)
    ensures ParseFmt(FmtChunkBody(f.tag, f, 0, average) + more) == Ok(f)
  {
    FieldsOf(f.tag, f, f.blockAlign, average, more);
    FieldsOf(f.tag, f, 0, average, more);
  }

  /** An extensible chunk's format is under the tag in its extension. */
  lemma ExtensibleReadsBack(f: Format, average: seq<Byte>, between: seq<Byte>, more: seq<Byte>)
    requires Sound(f) && Tagged(f) && |average| == 4 && |between| == 8 && |more| >= 14
    ensures ParseFmt(FmtChunkBody(0xFFFE, f, f.blockAlign, average) + (between + PutU16(f.tag) + more)) == Ok(f)
  {
    FieldsOf(0xFFFE, f, f.blockAlign, average, between + PutU16(f.tag) + more);
    var b := FmtChunkBody(0xFFFE, f, f.blockAlign, average) + (between + PutU16(f.tag) + more);
    assert b[24..26] == PutU16(f.tag);
    PutGet16(f.tag);
  }

  // --- samples ----------------------------------------------------------------------------

  /** A number's low three bytes, the lowest first. */
  function PutU24(n: nat): (b: seq<Byte>)
    requires n < 0x100_0000
    ensures |b| == 3
  {
    [n % 256, n / 256 % 256, n / 65536]
  }

  /** Eight bits are an offset from 128. */
  lemma EightBits(k: Codecs, f: Format, v: int)
    requires Sound(f) && f.tag == 1 && f.bits == 8 && -128 <= v < 128
    ensures SampleToFloat(k, [v + 128], f) == v as real / 128.0
  {}

  /** More bits are two's complement, lowest byte first, over half their range. */
  lemma SixteenBits(k: Codecs, f: Format, v: int)
    requires Sound(f) && f.tag == 1 && f.bits == 16 && -0x8000 <= v < 0x8000
    ensures SampleToFloat(k, PutU16(v % 0x1_0000), f) == v as real / 32768.0
  {
    PutGet16(v % 0x1_0000);
  }

  lemma TwentyFourBits(k: Codecs, f: Format, v: int)
    requires Sound(f) && f.tag == 1 && f.bits == 24 && -0x80_0000 <= v < 0x80_0000
    ensures SampleToFloat(k, PutU24(v % 0x100_0000), f) == v as real / 8388608.0
  {
    PutGet24(v % 0x100_0000);
  }

  lemma ThirtyTwoBits(k: Codecs, f: Format, v: int)
    requires Sound(f) && f.tag == 1 && f.bits == 32 && -0x8000_0000 <= v < 0x8000_0000
    ensures SampleToFloat(k, PutU32(v % 0x1_0000_0000), f) == v as real / 2147483648.0
  {
    PutGet32(v % 0x1_0000_0000);
  }

  lemma PutGet24(n: nat)
    requires n < 0x100_0000
    ensures U16(PutU24(n)) + 65536 * (PutU24(n)[2] as int) == n
  {
    assert n / 65536 == n / 256 / 256;
  }

  /** Companded and float samples go through their own tables. */
  lemma OtherSamples(k: Codecs, f: Format, b: Byte, n: nat)
    requires Sound(f) && n < 0x1_0000_0000
    ensures f.tag == 6 ==> SampleToFloat(k, [b], f) == k.alaw(b) as real / 32768.0
    ensures f.tag == 7 ==> SampleToFloat(k, [b], f) == k.mulaw(b) as real / 32768.0
    ensures f.tag == 3 ==> SampleToFloat(k, PutU32(n), f) == k.float32(n)
  {
    PutGet32(n);
  }

  // --- the header -------------------------------------------------------------------------

  lemma Parts(a: seq<Byte>, b: seq<Byte>, c: seq<Byte>, d: seq<Byte>, e: seq<Byte>, rest: seq<Byte>)
    requires |a| == 4 && |b| == 4 && |c| == 12 && |d| == 16 && |e| == 8
    ensures var all := a + b + c + d + e + rest; all[4..8] == b && all[20..36] == d && all[40..44] == e[4..8]
  {}

  lemma SixParts(a: seq<Byte>, b: seq<Byte>, c: seq<Byte>, d: seq<Byte>, e: seq<Byte>, f: seq<Byte>)
    requires |a| == 2 && |b| == 2 && |c| == 4 && |d| == 4 && |e| == 2 && |f| == 2
    ensures var all := a + b + c + d + e + f; all[4..8] == c && all[8..12] == d && all[12..14] == e && all[14..16] == f
  {}

  lemma FmtParts(rate: nat)
    requires rate * 2 < 0x1_0000_0000
    ensures var d := FmtBody(rate); d[4..8] == PutU32(rate) && d[8..12] == PutU32(rate * 2) && d[12..14] == PutU16(2) && d[14..16] == PutU16(16)
  {
    assert rate % 0x1_0000_0000 == rate && rate * 2 % 0x1_0000_0000 == rate * 2;
    SixParts(PutU16(1), PutU16(1), PutU32(rate), PutU32(rate * 2), PutU16(2), PutU16(16));
  }

  /** The written header states the file's length and the data's, each cut off where it no longer fits, and the bytes a
   *  second and a frame. */
  lemma HeaderStates(rate: nat, samples: seq<real>)
    requires rate * 2 < 0x1_0000_0000
    ensures var file := Written(rate, samples);
      && |file| == 44 + 2 * |samples|
      && (|file| - 8 <= MAX_UINT32 ==> U32(file[4..8]) == |file| - 8 && U32(file[40..44]) == |file| - 44)
      && (|file| - 44 >= MAX_UINT32 ==> U32(file[4..8]) == MAX_UINT32 && U32(file[40..44]) == MAX_UINT32)
      && var d := file[20..36]; U32(d[4..8]) == rate && U32(d[8..12]) == rate * 2 && U16(d[12..14]) == 2 && U16(d[14..16]) == 16
  {
    var n := 2 * |samples|;
    var riff, data := PutU32(Min(n + 36, MAX_UINT32)), PutU32(Min(n, MAX_UINT32));
    var middle, end := WAVE + FMT + PutU32(16), DATA + data;
    assert Written(rate, samples) == RIFF + riff + middle + FmtBody(rate) + end + EncodedAll(samples);
    Parts(RIFF, riff, middle, FmtBody(rate), end, EncodedAll(samples));
    assert end[4..8] == data;
    PutGet32(Min(n + 36, MAX_UINT32));
    PutGet32(Min(n, MAX_UINT32));
    FmtParts(rate);
    PutGet32(rate);
    PutGet32(rate * 2);
    PutGet16(2);
    PutGet16(16);
  }

  // --- frames -------------------------------------------------------------------------------

  /** The bytes of channel c. */
  function ChannelBytes(f: Format, frame: seq<Byte>, c: nat): (b: seq<Byte>)
    requires Sound(f) && c < f.channels && |frame| == f.blockAlign
    ensures |b| == SampleWidth(f).value
  {
    Within(SampleWidth(f).value, f.channels, c);
    frame[c * SampleWidth(f).value..c * SampleWidth(f).value + SampleWidth(f).value]
  }

  /** What a frame is worth: to each of several outputs its channel; to one output the first channel, when that is asked for
   *  or there is no other; otherwise the channels' mean. */
  lemma FrameIsWorth(k: Codecs, f: Format, mix: Mixdown, frame: seq<Byte>, c: nat)
    requires Sound(f) && c < mix.outputs <= f.channels && |frame| == f.blockAlign
    ensures mix.outputs > 1 ==> FrameValue(k, f, mix, c)(frame) == SampleToFloat(k, ChannelBytes(f, frame, c), f)
    ensures mix.outputs == 1 && (mix.first || f.channels == 1) ==> FrameValue(k, f, mix, c)(frame) == SampleToFloat(k, frame[..SampleWidth(f).value], f)
    ensures mix.outputs == 1 && !mix.first && f.channels == 2 ==>
        FrameValue(k, f, mix, c)(frame) == (SampleToFloat(k, ChannelBytes(f, frame, 0), f) + SampleToFloat(k, ChannelBytes(f, frame, 1), f)) / 2.0
  {
    assert ChannelBytes(f, frame, 0) == frame[..SampleWidth(f).value];
    if f.channels == 2 {
      assert ChannelSum(k, frame, f, 1) == ChannelSum(k, frame, f, 0) + ChannelSample(k, frame, f, 0);
      assert ChannelSum(k, frame, f, 2) == ChannelSum(k, frame, f, 1) + ChannelSample(k, frame, f, 1);
    }
  }

  /** The mean is between the least and the greatest channel. */
  lemma DownmixIsBetween(k: Codecs, f: Format, mix: Mixdown, frame: seq<Byte>, lo: real, hi: real)
    requires Sound(f) && mix.outputs == 1 && !mix.first && |frame| == f.blockAlign
    requires forall c :: 0 <= c < f.channels ==> lo <= SampleToFloat(k, ChannelBytes(f, frame, c), f) <= hi
    ensures lo <= FrameValue(k, f, mix, 0)(frame) <= hi
  {
    if f.channels == 1 {
      assert FrameValue(k, f, mix, 0)(frame) == ChannelSample(k, frame, f, 0) == SampleToFloat(k, ChannelBytes(f, frame, 0), f);
    } else {
      assert FrameValue(k, f, mix, 0)(frame) == ChannelSum(k, frame, f, f.channels) / f.channels as real;
      SumIsBetween(k, f, frame, lo, hi, f.channels);
      Sums.MeanIsBetween(ChannelSum(k, frame, f, f.channels), f.channels, lo, hi);
    }
  }

  lemma {:induction false} SumIsBetween(k: Codecs, f: Format, frame: seq<Byte>, lo: real, hi: real, n: nat)
    requires Sound(f) && |frame| == f.blockAlign && n <= f.channels
    requires forall c :: 0 <= c < f.channels ==> lo <= SampleToFloat(k, ChannelBytes(f, frame, c), f) <= hi
    ensures Repeated(lo, n) <= ChannelSum(k, frame, f, n) <= Repeated(hi, n)
  {
    if n > 0 {
      SumIsBetween(k, f, frame, lo, hi, n - 1);
      assert ChannelSample(k, frame, f, n - 1) == SampleToFloat(k, ChannelBytes(f, frame, n - 1), f);
    }
  }

  lemma Smaller(x: real, y: real, z: real)
    requires x < y && z > 0.0
    ensures x * z < y * z
  {}

  /** The frame limit refuses exactly what is longer than a positive duration. */
  lemma MaxFramesIs(maxDuration: real, rate: nat, bytes: int, frames: nat)
    requires rate > 0
    ensures !LongEnough(Limits(MaxFrames(maxDuration, rate), bytes), frames) <==> maxDuration > 0.0 && frames as real > maxDuration * rate as real
  {
    if maxDuration > 0.0 { Smaller(0.0, maxDuration, rate as real); }
  }
}
