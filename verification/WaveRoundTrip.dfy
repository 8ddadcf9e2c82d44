/** What WriteWAV writes, the reader reads back, whatever other chunks stand before the samples. */
module WaveRoundTrip {
  import opened Options
  import opened Bytes
  import opened SampleStream
  import opened WaveWriter
  import opened WaveReader

  /** A chunk, padded when odd. */
  function Chunk(id: seq<Byte>, body: seq<Byte>): seq<Byte>
    requires |id| == 4 && |body| <= MAX_UINT32
  {
    id + PutU32(|body|) + body + if |body| % 2 == 1 then [0] else []
  }

  datatype Other = Other(id: seq<Byte>, body: seq<Byte>)

  /** A chunk the reader has no use for. */
  predicate Ignored(c: Other) {
    |c.id| == 4 && c.id != FMT && c.id != DATA && |c.body| <= MAX_UINT32
  }

  predicate AllIgnored(others: seq<Other>) {
    others == [] || (Ignored(others[0]) && AllIgnored(others[1..]))
  }

  function OtherChunks(others: seq<Other>): seq<Byte>
    requires AllIgnored(others)
  {
    if others == [] then [] else Chunk(others[0].id, others[0].body) + OtherChunks(others[1..])
  }

  /** What the reader sees of a chunk at the front: its id, its length, its body and what follows its padding. */
  lemma ChunkInFront(id: seq<Byte>, body: seq<Byte>, rest: seq<Byte>)
    requires |id| == 4 && |body| <= MAX_UINT32
    ensures var data := Chunk(id, body) + rest;
      && |data| >= 8 + |body| && data[..4] == id && U32(data[4..8]) == |body|
      && data[8..][..|body|] == body && AfterBody(data[8..], |body|) == rest
  {
    var data := Chunk(id, body) + rest;
    PutGet32(|body|);
    assert data[4..8] == PutU32(|body|);
    var pad: seq<Byte> := if |body| % 2 == 1 then [0] else [];
    assert data[8..] == body + (pad + rest);
  }

  /** One chunk more or less before the data changes nothing. */
  lemma IgnoredChunk(c: Other, rest: seq<Byte>, format: Option<Format>)
    requires Ignored(c)
    ensures Chunks(Chunk(c.id, c.body) + rest, format) == Chunks(rest, format)
  {
    ChunkInFront(c.id, c.body, rest);
  }

  lemma {:induction false} IgnoredChunks(others: seq<Other>, rest: seq<Byte>, format: Option<Format>)
    requires AllIgnored(others)
    ensures Chunks(OtherChunks(others) + rest, format) == Chunks(rest, format)
  {
    if others == [] {
      assert OtherChunks(others) + rest == rest;
    } else {
      var first := Chunk(others[0].id, others[0].body);
      assert OtherChunks(others) + rest == first + (OtherChunks(others[1..]) + rest);
      IgnoredChunk(others[0], OtherChunks(others[1..]) + rest, format);
      IgnoredChunks(others[1..], rest, format);
    }
  }

  /** The format WAVHeader writes. */
  function Mono16(rate: nat): Format { Format(PCM, 1, rate, 16, 2) }

  lemma Fields(a: seq<Byte>, b: seq<Byte>, c: seq<Byte>, d: seq<Byte>, e: seq<Byte>, f: seq<Byte>)
    requires |a| == 2 && |b| == 2 && |c| == 4 && |d| == 4 && |e| == 2 && |f| == 2
    ensures var all := a + b + c + d + e + f;
      all[0..2] == a && all[2..4] == b && all[4..8] == c && all[12..14] == e && all[14..16] == f
  {}

  lemma FmtReadsBack(rate: nat)
    requires 1000 <= rate <= 384000
    ensures ParseFmt(FmtBody(rate)) == Ok(Mono16(rate)) && Sound(Mono16(rate))
  {
    Fields(PutU16(1), PutU16(1), PutU32(rate), PutU32(rate * 2), PutU16(2), PutU16(16));
    PutGet16(1);
    PutGet16(2);
    PutGet16(16);
    PutGet32(rate);
    ParseFields(FmtBody(rate), rate);
  }

  lemma ParseFields(b: seq<Byte>, rate: nat)
    requires 1000 <= rate <= 384000 && |b| == 16 && U16(b[0..2]) == 1 && U16(b[2..4]) == 1 && U32(b[4..8]) == rate
    requires U16(b[12..14]) == 2 && U16(b[14..16]) == 16
    ensures ParseFmt(b) == Ok(Mono16(rate)) && Sound(Mono16(rate))
  {}

  lemma FmtChunk(rate: nat, rest: seq<Byte>, format: Option<Format>)
    requires 1000 <= rate <= 384000
    ensures Chunks(Chunk(FMT, FmtBody(rate)) + rest, format) == Chunks(rest, Some(Mono16(rate)))
  {
    ChunkInFront(FMT, FmtBody(rate), rest);
    FmtReadsBack(rate);
  }

  /** The header of the data chunk, and then the samples. */
  function DataChunk(samples: seq<real>): seq<Byte> {
    DATA + PutU32(Min(2 * |samples|, MAX_UINT32)) + EncodedAll(samples)
  }

  lemma DataHead(samples: seq<real>, f: Format)
    requires 0 < 2 * |samples| < MAX_UINT32
    ensures Chunks(DataChunk(samples), Some(f)) == Ok(Head(f, 2 * |samples|, EncodedAll(samples)))
  {
    var d := DataChunk(samples);
    PutGet32(2 * |samples|);
    assert d[..4] == DATA && d[4..8] == PutU32(2 * |samples|) && d[8..] == EncodedAll(samples);
  }

  /** A file as WriteWAV writes it, with other chunks before and after the fmt chunk, and any length in the RIFF header. */
  function WithOthers(riffSize: nat, before: seq<Other>, rate: nat, after: seq<Other>, samples: seq<real>): seq<Byte>
    requires riffSize <= MAX_UINT32 && AllIgnored(before) && AllIgnored(after)
  {
    RIFF + PutU32(riffSize) + WAVE + (OtherChunks(before) + (Chunk(FMT, FmtBody(rate)) + (OtherChunks(after) + DataChunk(samples))))
  }

  lemma WrittenIsPlain(rate: nat, samples: seq<real>)
    ensures Written(rate, samples) == WithOthers(Min(2 * |samples| + 36, MAX_UINT32), [], rate, [], samples)
  {
    assert Chunk(FMT, FmtBody(rate)) == FMT + PutU32(16) + FmtBody(rate);
    var head := RIFF + PutU32(Min(2 * |samples| + 36, MAX_UINT32)) + WAVE;
    assert Header(rate, 2 * |samples|) == head + Chunk(FMT, FmtBody(rate)) + DATA + PutU32(Min(2 * |samples|, MAX_UINT32));
    assert WithOthers(Min(2 * |samples| + 36, MAX_UINT32), [], rate, [], samples) == head + (Chunk(FMT, FmtBody(rate)) + DataChunk(samples));
  }

  /** Whatever chunks are inserted, the header reads the same. */
  lemma OthersChangeNothing(riffSize: nat, before: seq<Other>, rate: nat, after: seq<Other>, samples: seq<real>)
    requires riffSize <= MAX_UINT32 && AllIgnored(before) && AllIgnored(after)
    requires 1000 <= rate <= 384000 && 0 < 2 * |samples| < MAX_UINT32
    ensures HeadOf(WithOthers(riffSize, before, rate, after, samples)) == Ok(Head(Mono16(rate), 2 * |samples|, EncodedAll(samples)))
  {
    var data := DataChunk(samples);
    var tail := OtherChunks(after) + data;
    RiffHead(riffSize, OtherChunks(before) + (Chunk(FMT, FmtBody(rate)) + tail));
    IgnoredChunks(before, Chunk(FMT, FmtBody(rate)) + tail, None);
    FmtChunk(rate, tail, None);
    IgnoredChunks(after, data, Some(Mono16(rate)));
    DataHead(samples, Mono16(rate));
  }

  lemma RiffHead(riffSize: nat, chunks: seq<Byte>)
    requires riffSize <= MAX_UINT32
    ensures HeadOf(RIFF + PutU32(riffSize) + WAVE + chunks) == Chunks(chunks, None)
  {
    var file := RIFF + PutU32(riffSize) + WAVE + chunks;
    assert file[..4] == RIFF && file[8..12] == WAVE && file[12..] == chunks;
  }

  // --- one sample -------------------------------------------------------------------

  function Distance(x: real, y: real): real { if x < y then y - x else x - y }

  function Decoded16(b: seq<Byte>): real
    requires |b| == 2
  {
    Signed(U16(b), 0x1_0000) as real / 32768.0
  }

  lemma SignedBack(v: int)
    requires -32768 <= v <= 32767
    ensures Signed(U16(PutU16(v % 0x1_0000)), 0x1_0000) == v
  {
    PutGet16(v % 0x1_0000);
  }

  lemma RoundIsNear(x: real)
    ensures Distance(x, Round(x) as real) <= 0.5
  {}

  /** Encoding clips and never wraps: what is decoded is the nearest step to the clipped sample. */
  lemma SampleReadsBack(s: real)
    requires -1.0 <= s <= 1.0
    ensures Distance(s, Decoded16(Encoded(s))) <= 1.5 / 32768.0
  {
    var x := s * 32767.0;
    RoundIsNear(x);
    assert -32767.0 <= x <= 32767.0;
    assert -32768 <= Round(x) <= 32767;
    SignedBack(Clip(Round(x)));
  }

  /** Out of range is clipped: above to the last step, and below to one of the first two, whichever is nearer. */
  lemma LoudIsClipped(s: real)
    ensures s > 1.0 ==> Decoded16(Encoded(s)) == 32767.0 / 32768.0
    ensures s < -1.0 ==> Decoded16(Encoded(s)) == if s * 32767.0 <= -32767.5 then -1.0 else -32767.0 / 32768.0
  {
    RoundIsNear(s * 32767.0);
    SignedBack(Clip(Round(s * 32767.0)));
  }

  // --- the whole file -----------------------------------------------------------------

  /** The one track of a mono file. */
  function ReadBack(k: Codecs, rate: nat, samples: seq<real>): seq<real>
    requires Sound(Mono16(rate))
  {
    Track(k, Mono16(rate), Mixdown(1, false), 0, EncodedAll(samples))
  }

  lemma {:induction false} SamplesReadBack(k: Codecs, rate: nat, samples: seq<real>, i: nat)
    requires Sound(Mono16(rate)) && i < |samples|
    ensures |ReadBack(k, rate, samples)| == |samples| && ReadBack(k, rate, samples)[i] == Decoded16(Encoded(samples[i]))
    decreases |samples|
  {
    var front, last := samples[..|samples| - 1], samples[|samples| - 1];
    var sample := FrameValue(k, Mono16(rate), Mixdown(1, false), 0);
    Append2(sample, EncodedAll(front), Encoded(last));
    var b := Encoded(last);
    assert b[..2] == b && b[2..] == [] && Samples(sample, 2, b) == [sample(b)];
    assert sample(b) == Decoded16(b) by { assert b[0 * 2..0 * 2 + 2] == b; }
    if front == [] {
      assert EncodedAll(front) == [];
    } else {
      SamplesReadBack(k, rate, front, if i < |front| then i else 0);
    }
  }

  /** Decoding what WriteWAV wrote gives back the rate and the stated length, and other chunks change nothing. */
  lemma HeadRoundTrip(rate: nat, samples: seq<real>, riffSize: nat, before: seq<Other>, after: seq<Other>)
    requires 1000 <= rate <= 384000 && 0 < 2 * |samples| < MAX_UINT32
    requires riffSize <= MAX_UINT32 && AllIgnored(before) && AllIgnored(after)
    ensures HeadOf(Written(rate, samples)) == Ok(Head(Mono16(rate), 2 * |samples|, EncodedAll(samples)))
    ensures HeadOf(WithOthers(riffSize, before, rate, after, samples)) == HeadOf(Written(rate, samples))
  {
    WrittenIsPlain(rate, samples);
    OthersChangeNothing(Min(2 * |samples| + 36, MAX_UINT32), [], rate, [], samples);
    OthersChangeNothing(riffSize, before, rate, after, samples);
  }

  /** With no limit set, reading the samples gives back as many, each within a step and a half. */
  lemma SamplesRoundTrip(k: Codecs, rate: nat, samples: seq<real>, r: Result<seq<seq<real>>>)
    requires Sound(Mono16(rate)) && samples != [] && forall s :: s in samples ==> -1.0 <= s <= 1.0
    requires ReadAs(k, EncodedAll(samples), Mono16(rate), 2 * |samples|, Limits(-1, 0), Mixdown(1, false), r)
    ensures r.Ok? && |r.value| == 1 && |r.value[0]| == |samples|
    ensures forall i :: 0 <= i < |samples| ==> Distance(samples[i], r.value[0][i]) <= 1.5 / 32768.0
  {
    OneTrack(k, rate, samples, r);
    SamplesReadBack(k, rate, samples, 0);
    AllNear(k, rate, samples);
  }

  lemma AllNear(k: Codecs, rate: nat, samples: seq<real>)
    requires Sound(Mono16(rate)) && (forall s :: s in samples ==> -1.0 <= s <= 1.0) && |ReadBack(k, rate, samples)| == |samples|
    ensures forall i :: 0 <= i < |samples| ==> Distance(samples[i], ReadBack(k, rate, samples)[i]) <= 1.5 / 32768.0
  {
    forall i | 0 <= i < |samples| ensures Distance(samples[i], ReadBack(k, rate, samples)[i]) <= 1.5 / 32768.0 {
      SamplesReadBack(k, rate, samples, i);
      assert samples[i] in samples;
      SampleReadsBack(samples[i]);
    }
  }

  lemma OneTrack(k: Codecs, rate: nat, samples: seq<real>, r: Result<seq<seq<real>>>)
    requires Sound(Mono16(rate)) && samples != []
    requires ReadAs(k, EncodedAll(samples), Mono16(rate), 2 * |samples|, Limits(-1, 0), Mixdown(1, false), r)
    ensures r.Ok? && |r.value| == 1 && r.value[0] == ReadBack(k, rate, samples)
  {
    NoLimitNoRefusal(k, EncodedAll(samples), Mono16(rate), Mixdown(1, false), r);
    assert TrackAt(k, Mono16(rate), Mixdown(1, false), r.value, EncodedAll(samples), 0);
  }

  lemma NoLimitNoRefusal(k: Codecs, body: seq<Byte>, f: Format, mix: Mixdown, r: Result<seq<seq<real>>>)
    requires Sound(f) && 1 <= mix.outputs <= f.channels && |body| >= f.blockAlign
    requires ReadAs(k, body, f, |body|, Limits(-1, 0), mix, r)
    ensures r.Ok? && TracksOf(k, f, mix, r.value, body)
  {}

  /** Writing and reading, end to end. */
  method WriteAndRead(k: Codecs, rate: nat, samples: seq<real>) returns (f: Format, track: seq<real>)
    requires 1000 <= rate <= 384000 && 0 < 2 * |samples| < MAX_UINT32 && forall s :: s in samples ==> -1.0 <= s <= 1.0
    ensures f == Mono16(rate) && |track| == |samples|
    ensures forall i :: 0 <= i < |samples| ==> Distance(samples[i], track[i]) <= 1.5 / 32768.0
  {
    var file := WriteWav(rate, samples);
    HeadRoundTrip(rate, samples, 0, [], []);
    FmtReadsBack(rate);
    var head := ReadHeader(file);
    var r := ReadSamples(k, head.value.rest, head.value.format, head.value.size, Limits(-1, 0), Mixdown(1, false));
    SamplesRoundTrip(k, rate, samples, r);
    return head.value.format, r.value[0];
  }

  // --- what is not there ----------------------------------------------------------------

  /** Without a format before it a data chunk is refused, and so is a file without a data chunk. */
  lemma {:induction false} BothAreNeeded(others: seq<Other>, samples: seq<real>, format: Option<Format>)
    requires AllIgnored(others)
    ensures Chunks(OtherChunks(others) + DataChunk(samples), None) == Err(Invalid)
    ensures Chunks(OtherChunks(others), format) == Err(Invalid)
  {
    IgnoredChunks(others, DataChunk(samples), None);
    IgnoredChunks(others, [], format);
    assert OtherChunks(others) + [] == OtherChunks(others);
    var d := DataChunk(samples);
    assert d[..4] == DATA;
  }

  /** What stands behind the data chunk does not matter. */
  lemma TheRestDoesNotMatter(k: Codecs, body: seq<Byte>, more: seq<Byte>, f: Format, limits: Limits, mix: Mixdown, r: Result<seq<seq<real>>>)
    requires Sound(f) && 1 <= mix.outputs <= f.channels && body != []
    ensures ReadAs(k, body + more, f, |body|, limits, mix, r) <==> ReadAs(k, body, f, |body|, limits, mix, r)
  {
    assert Body(body + more, |body|) == body == Body(body, |body|) by { assert (body + more)[..|body|] == body; }
  }
}
