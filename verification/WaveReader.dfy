/** Reading RIFF/WAVE: internal/audio/wav.go. */
module WaveReader {
  import opened Options
  import opened Bytes
  import opened SampleStream
  import opened WaveWriter

  datatype Error = Invalid | Unsupported | TooLong | TooLarge
  datatype Result<+T> = Ok(value: T) | Err(error: Error)

  const PCM: nat := 1
  const IEEE_FLOAT: nat := 3
  const ALAW: nat := 6
  const MULAW: nat := 7
  const EXTENSIBLE: nat := 0xFFFE
  const MAX_FMT_CHUNK: nat := 4096

  datatype Format = Format(tag: nat, channels: nat, rate: nat, bits: nat, blockAlign: nat)

  /** sampleWidth */
  function SampleWidth(f: Format): (r: Result<nat>)
    ensures r.Ok? ==> 1 <= r.value <= 4 && 8 * r.value == f.bits
    ensures r.Err? <==> f.bits !in {8, 16, 24, 32} || (f.tag in {ALAW, MULAW} && f.bits != 8) || (f.tag == IEEE_FLOAT && f.bits != 32)
  {
    if f.tag == ALAW || f.tag == MULAW then if f.bits == 8 then Ok(1) else Err(Invalid)
    else if f.tag == IEEE_FLOAT then if f.bits == 32 then Ok(4) else Err(Invalid)
    else if f.bits == 8 || f.bits == 16 || f.bits == 24 || f.bits == 32 then Ok(f.bits / 8) else Err(Invalid)
  }

  /** parseFmt */
  function ParseFmt(b: seq<Byte>): (r: Result<Format>)
    requires |b| >= 16
    ensures r.Ok? ==> Sound(r.value)
  {
    var f := Format(U16(b[0..2]), U16(b[2..4]), U32(b[4..8]), U16(b[14..16]), U16(b[12..14]));
    if f.tag == EXTENSIBLE && |b| < 40 then Err(Invalid)
    else
      var g := if f.tag == EXTENSIBLE then f.(tag := U16(b[24..26])) else f;
      if g.tag != PCM && g.tag != IEEE_FLOAT && g.tag != ALAW && g.tag != MULAW then Err(Unsupported)
      else if g.channels < 1 || g.channels > 64 then Err(Invalid)
      else if g.rate < 1000 || g.rate > 384000 then Err(Invalid)
      else
        var w := SampleWidth(g);
        if w.Err? then Err(w.error)
        else
          var h := if g.blockAlign == 0 then g.(blockAlign := w.value * g.channels) else g;
          if h.blockAlign != w.value * h.channels then Err(Invalid) else Ok(h)
  }

  /** What every accepted format is. */
  predicate Sound(f: Format) {
    && 1 <= f.channels <= 64 && 1000 <= f.rate <= 384000
    && SampleWidth(f).Ok? && f.blockAlign == SampleWidth(f).value * f.channels && f.blockAlign > 0
  }

  /** The format, the length the data chunk states (0 for none that is usable), and what follows its header. */
  datatype Head = Head(format: Format, size: nat, rest: seq<Byte>)

  /** What is left after a chunk's body; an odd one carries a pad byte, which the end of the file may swallow. */
  function AfterBody(rest: seq<Byte>, size: nat): seq<Byte>
    requires size <= |rest|
  {
    if size % 2 == 1 && size < |rest| then rest[size + 1..] else rest[size..]
  }

  /** The chunk list from here to the data chunk. */
  function Chunks(data: seq<Byte>, format: Option<Format>): Result<Head>
    decreases |data|
  {
    if |data| < 8 then Err(Invalid)
    else
      var id, size, rest := data[..4], U32(data[4..8]), data[8..];
      if id == FMT then
        if size < 16 || size > MAX_FMT_CHUNK || |rest| < size then Err(Invalid)
        else
          var f := ParseFmt(rest[..size]);
          if f.Err? then Err(f.error) else Chunks(AfterBody(rest, size), Some(f.value))
      else if id == DATA then
        if format.None? then Err(Invalid)
        else Ok(Head(format.value, if size == MAX_UINT32 then 0 else size, rest))
      else if |rest| < size then Err(Invalid)
      else Chunks(AfterBody(rest, size), format)
  }

  function HeadOf(file: seq<Byte>): Result<Head> {
    if |file| < 12 || file[..4] != RIFF || file[8..12] != WAVE then Err(Invalid) else Chunks(file[12..], None)
  }

  /** readWAVHeader */
  method ReadHeader(file: seq<Byte>) returns (r: Result<Head>)
    ensures r == HeadOf(file)
  {
    if |file| < 12 {
      return Err(Invalid);
    }
    if file[..4] != RIFF || file[8..12] != WAVE {
      return Err(Invalid);
    }
    var format: Option<Format> := None;
    var left := file[12..];
    while true
      invariant Chunks(left, format) == HeadOf(file)
      decreases |left|
    {
      if |left| < 8 {
        return Err(Invalid);
      }
      var id, size := left[..4], U32(left[4..8]);
      left := left[8..];
      if id == FMT {
        if size < 16 || size > MAX_FMT_CHUNK {
          return Err(Invalid);
        }
        if |left| < size {
          return Err(Invalid);
        }
        var f := ParseFmt(left[..size]);
        if f.Err? {
          return Err(f.error);
        }
        format := Some(f.value);
      } else if id == DATA {
        if format.None? {
          return Err(Invalid);
        }
        if size == 0 || size == MAX_UINT32 {
          size := 0;
        }
        return Ok(Head(format.value, size, left));
      } else if |left| < size {
        return Err(Invalid);
      }
      left := AfterBody(left, size);
    }
  }

  lemma {:induction false} HeadIsSound(data: seq<Byte>, format: Option<Format>)
    requires format.Some? ==> Sound(format.value)
    ensures Chunks(data, format).Ok? ==> Sound(Chunks(data, format).value.format) && |Chunks(data, format).value.rest| <= |data|
    decreases |data|
  {
    if |data| >= 8 {
      var id, size, rest := data[..4], U32(data[4..8]), data[8..];
      if id == FMT {
        if 16 <= size <= MAX_FMT_CHUNK && |rest| >= size && ParseFmt(rest[..size]).Ok? {
          HeadIsSound(AfterBody(rest, size), Some(ParseFmt(rest[..size]).value));
        }
      } else if id != DATA && |rest| >= size {
        HeadIsSound(AfterBody(rest, size), format);
      }
    }
  }

  // --- samples ------------------------------------------------------------------

  /** The companding tables and the float decoder, which are not modelled. */
  datatype Codecs = Codecs(alaw: Byte -> int, mulaw: Byte -> int, float32: nat -> real)

  /** sampleToFloat */
  function SampleToFloat(k: Codecs, b: seq<Byte>, f: Format): real
    requires Sound(f) && |b| == SampleWidth(f).value
  {
    if f.tag == ALAW then k.alaw(b[0]) as real / 32768.0
    else if f.tag == MULAW then k.mulaw(b[0]) as real / 32768.0
    else if f.tag == IEEE_FLOAT then k.float32(U32(b))
    else if f.bits == 8 then (b[0] as real - 128.0) / 128.0
    else if f.bits == 16 then Signed(U16(b), 0x1_0000) as real / 32768.0
    else if f.bits == 24 then Signed(U16(b) + 65536 * (b[2] as int), 0x100_0000) as real / 8388608.0
    else Signed(U32(b), 0x1_0000_0000) as real / 2147483648.0
  }

  /** Outputs tracks: one mixed down or the first channel, or one a channel. */
  datatype Mixdown = Mixdown(outputs: nat, first: bool)

  /** The duration limit in frames, negative for none, and the memory limit in bytes, none if not positive. */
  datatype Limits = Limits(maxFrames: int, maxDecodedBytes: int)

  lemma Within(w: nat, channels: nat, c: nat)
    requires c < channels
    ensures c * w + w <= w * channels
  {
    var more := channels - c - 1;
    assert w * channels == c * w + w + more * w by { assert channels == c + 1 + more; }
    Multiples(more, w);
  }

  lemma Multiples(a: nat, b: nat)
    ensures a * b >= 0
  {}

  function ChannelSample(k: Codecs, frame: seq<Byte>, f: Format, c: nat): real
    requires Sound(f) && c < f.channels && |frame| == f.blockAlign
  {
    var w := SampleWidth(f).value;
    Within(w, f.channels, c);
    SampleToFloat(k, frame[c * w..c * w + w], f)
  }

  function ChannelSum(k: Codecs, frame: seq<Byte>, f: Format, n: nat): real
    requires Sound(f) && n <= f.channels && |frame| == f.blockAlign
  {
    if n == 0 then 0.0 else ChannelSum(k, frame, f, n - 1) + ChannelSample(k, frame, f, n - 1)
  }

  /** What a frame is worth to output c. */
  function FrameValue(k: Codecs, f: Format, mix: Mixdown, c: nat): seq<Byte> -> real
    requires Sound(f) && c < mix.outputs <= f.channels
  {
    frame =>
      if |frame| != f.blockAlign then 0.0
      else if mix.outputs > 1 then ChannelSample(k, frame, f, c)
      else if mix.first || f.channels == 1 then ChannelSample(k, frame, f, 0)
      else ChannelSum(k, frame, f, f.channels) / f.channels as real
  }

  /** One output's track of the bytes; an incomplete last frame is dropped. */
  function Track(k: Codecs, f: Format, mix: Mixdown, c: nat, body: seq<Byte>): seq<real>
    requires Sound(f) && c < mix.outputs <= f.channels
  {
    Samples(FrameValue(k, f, mix, c), f.blockAlign, body)
  }

  /** mixdown.frame */
  method AddFrame(k: Codecs, f: Format, mix: Mixdown, frame: seq<Byte>, tracks: seq<seq<real>>) returns (more: seq<seq<real>>)
    requires Sound(f) && 1 <= mix.outputs <= f.channels && |frame| == f.blockAlign && |tracks| == mix.outputs
    ensures |more| == |tracks| && forall c :: 0 <= c < |more| ==> more[c] == tracks[c] + [FrameValue(k, f, mix, c)(frame)]
  {
    more := tracks;
    if mix.outputs > 1 {
      for c := 0 to mix.outputs
        invariant |more| == |tracks|
        invariant forall d :: 0 <= d < |more| ==> more[d] == if d < c then tracks[d] + [FrameValue(k, f, mix, d)(frame)] else tracks[d]
      {
        more := more[c := more[c] + [ChannelSample(k, frame, f, c)]];
      }
      return;
    }
    if mix.first || f.channels == 1 {
      return [tracks[0] + [ChannelSample(k, frame, f, 0)]];
    }
    var sum := 0.0;
    for c := 0 to f.channels
      invariant sum == ChannelSum(k, frame, f, c)
    {
      sum := sum + ChannelSample(k, frame, f, c);
    }
    return [tracks[0] + [sum / f.channels as real]];
  }

  /** The limit in seconds as frames. */
  function MaxFrames(maxDuration: real, rate: nat): int {
    if maxDuration > 0.0 then (maxDuration * rate as real).Floor else -1
  }

  predicate LongEnough(limits: Limits, frames: nat) { limits.maxFrames < 0 || frames <= limits.maxFrames }

  /** Four bytes a sample, a sample an output for every frame. */
  function Memory(frames: nat, outputs: nat): nat {
    if frames == 0 then 0 else Memory(frames - 1, outputs) + outputs * 4
  }

  lemma {:induction false} MemoryIs(frames: nat, outputs: nat)
    ensures Memory(frames, outputs) == frames * outputs * 4
  {
    if frames > 0 {
      MemoryIs(frames - 1, outputs);
      assert frames * outputs == (frames - 1) * outputs + outputs;
    }
  }

  /** checkDecodedBytes passes exactly what four bytes a sample keep within a positive cap. */
  lemma SmallEnoughIs(limits: Limits, frames: nat, outputs: nat)
    ensures SmallEnough(limits, frames, outputs) <==> limits.maxDecodedBytes <= 0 || frames * outputs * 4 <= limits.maxDecodedBytes
  {
    MemoryIs(frames, outputs);
  }

  lemma {:induction false} MemoryGrows(frames: nat, more: nat, outputs: nat)
    requires frames <= more
    ensures Memory(frames, outputs) <= Memory(more, outputs)
  {
    if frames < more { MemoryGrows(frames, more - 1, outputs); }
  }

  /** checkDecodedBytes */
  predicate SmallEnough(limits: Limits, frames: nat, outputs: nat) {
    limits.maxDecodedBytes <= 0 || Memory(frames, outputs) <= limits.maxDecodedBytes
  }

  predicate Fits(limits: Limits, frames: nat, outputs: nat) {
    LongEnough(limits, frames) && SmallEnough(limits, frames, outputs)
  }

  lemma MoreDoNotFit(limits: Limits, frames: nat, more: nat, outputs: nat)
    requires frames <= more && !Fits(limits, frames, outputs)
    ensures !Fits(limits, more, outputs)
  {
    MemoryGrows(frames, more, outputs);
  }

  /** The bytes of the data chunk that are there. */
  function Body(rest: seq<Byte>, size: nat): seq<Byte> {
    if 0 < size < |rest| then rest[..size] else rest
  }

  ghost predicate TrackAt(k: Codecs, f: Format, mix: Mixdown, tracks: seq<seq<real>>, body: seq<Byte>, c: int)
    requires Sound(f) && mix.outputs <= f.channels
  {
    0 <= c < |tracks| && c < mix.outputs ==> tracks[c] == Track(k, f, mix, c, body)
  }

  ghost predicate TracksOf(k: Codecs, f: Format, mix: Mixdown, tracks: seq<seq<real>>, body: seq<Byte>)
    requires Sound(f) && mix.outputs <= f.channels
  {
    |tracks| == mix.outputs && forall c :: TrackAt(k, f, mix, tracks, body, c)
  }

  /** The frames of one block. */
  method AddBlock(k: Codecs, f: Format, mix: Mixdown, block: seq<Byte>, tracks: seq<seq<real>>, ghost seen: seq<Byte>)
    returns (more: seq<seq<real>>)
    requires Sound(f) && 1 <= mix.outputs <= f.channels && WholeSamples(|block|, f.blockAlign) && WholeSamples(|seen|, f.blockAlign)
    requires TracksOf(k, f, mix, tracks, seen)
    ensures TracksOf(k, f, mix, more, seen + block) && WholeSamples(|seen + block|, f.blockAlign)
  {
    more := tracks;
    var left := block;
    ghost var done := seen;
    assert seen + [] == seen;
    while |left| != 0
      invariant WholeSamples(|left|, f.blockAlign) && WholeSamples(|done|, f.blockAlign) && done + left == seen + block
      invariant TracksOf(k, f, mix, more, done)
      decreases |left|
    {
      var frame := left[..f.blockAlign];
      ghost var was := more;
      more := AddFrame(k, f, mix, frame, more);
      OneFrame(k, f, mix, was, more, done, frame);
      done := done + frame;
      assert left == frame + left[f.blockAlign..];
      left := left[f.blockAlign..];
    }
    assert done == seen + block;
  }

  lemma OneFrame(k: Codecs, f: Format, mix: Mixdown, was: seq<seq<real>>, more: seq<seq<real>>, done: seq<Byte>, frame: seq<Byte>)
    requires Sound(f) && 1 <= mix.outputs <= f.channels && |frame| == f.blockAlign && WholeSamples(|done|, f.blockAlign)
    requires TracksOf(k, f, mix, was, done)
    requires |more| == |was| && forall c :: 0 <= c < |more| ==> more[c] == was[c] + [FrameValue(k, f, mix, c)(frame)]
    ensures TracksOf(k, f, mix, more, done + frame) && WholeSamples(|done + frame|, f.blockAlign)
  {
    WholeGrows(|done|, f.blockAlign);
    assert frame[..f.blockAlign] == frame && frame[f.blockAlign..] == [];
    forall c ensures TrackAt(k, f, mix, more, done + frame, c) {
      assert TrackAt(k, f, mix, was, done, c);
      if 0 <= c < mix.outputs { SamplesAppend(FrameValue(k, f, mix, c), f.blockAlign, done, frame); }
    }
  }

  lemma {:induction false} WholeGrows(n: nat, width: nat)
    requires width > 0 && WholeSamples(n, width)
    ensures WholeSamples(n + width, width)
  {}

  // --- whole frames -----------------------------------------------------------------

  function Count(n: nat, width: nat): nat
    requires width > 0
  {
    if n < width then 0 else 1 + Count(n - width, width)
  }

  lemma DivisionIsUnique(n: nat, width: nat, q: nat, r: nat)
    requires width > 0 && n == q * width + r && r < width
    ensures n / width == q && n % width == r
  {
    var d := n / width - q;
    assert n == (n / width) * width + n % width;
    assert d * width == r - n % width;
    Multiple(d, width);
  }

  lemma Multiple(d: int, width: nat)
    ensures d >= 1 ==> d * width >= width
    ensures d <= -1 ==> d * width + width <= 0
  {}

  /** Division by repeated subtraction. */
  lemma {:induction false} CountIsDivision(n: nat, width: nat)
    requires width > 0
    ensures n % width < width && n % width <= n && Count(n, width) == n / width && WholeSamples(n - n % width, width)
    ensures Count(n - n % width, width) == n / width
  {
    if n < width {
      DivisionIsUnique(n, width, 0, n);
    } else {
      var m := n - width;
      CountIsDivision(m, width);
      assert m == (m / width) * width + m % width;
      assert n == (m / width + 1) * width + m % width;
      DivisionIsUnique(n, width, m / width + 1, m % width);
    }
  }

  lemma {:induction false} CountAppend(a: nat, b: nat, width: nat)
    requires width > 0 && WholeSamples(a, width)
    ensures Count(a + b, width) == Count(a, width) + Count(b, width)
    ensures WholeSamples(b, width) ==> WholeSamples(a + b, width)
  {
    if a > 0 { CountAppend(a - width, b, width); }
  }

  lemma {:induction false} TrackLength(sample: seq<Byte> -> real, width: nat, data: seq<Byte>)
    requires width > 0
    ensures |Samples(sample, width, data)| == Count(|data|, width)
    decreases |data|
  {
    if |data| >= width { TrackLength(sample, width, data[width..]); }
  }

  // --- readSamples --------------------------------------------------------------------

  const BLOCK_FRAMES: nat := 8192

  /** The error for too many frames: the duration is looked at first. */
  function Why(limits: Limits, frames: nat): Error { if LongEnough(limits, frames) then TooLarge else Error.TooLong }

  /** The first n blocks fit and one block more does not. */
  ghost predicate StopsAfter(limits: Limits, outputs: nat, frames: nat, n: nat) {
    && BLOCK_FRAMES * n < frames && Fits(limits, BLOCK_FRAMES * n, outputs)
    && !Fits(limits, Min(BLOCK_FRAMES * (n + 1), frames), outputs)
  }

  ghost predicate RefusedFor(limits: Limits, outputs: nat, frames: nat, e: Error) {
    exists n: nat :: StopsAfter(limits, outputs, frames, n) && e == Why(limits, Min(BLOCK_FRAMES * (n + 1), frames))
  }

  lemma {:induction false} FitsBelow(limits: Limits, frames: nat, more: nat, outputs: nat)
    requires frames <= more && Fits(limits, more, outputs)
    ensures Fits(limits, frames, outputs)
  {
    MemoryGrows(frames, more, outputs);
  }

  /** There is one such block, so one error. */
  lemma RefusedForOne(limits: Limits, outputs: nat, frames: nat, e: Error, f: Error)
    requires RefusedFor(limits, outputs, frames, e) && RefusedFor(limits, outputs, frames, f)
    ensures e == f
  {
    var n: nat :| StopsAfter(limits, outputs, frames, n) && e == Why(limits, Min(BLOCK_FRAMES * (n + 1), frames));
    var k: nat :| StopsAfter(limits, outputs, frames, k) && f == Why(limits, Min(BLOCK_FRAMES * (k + 1), frames));
    if n < k { FitsBelow(limits, Min(BLOCK_FRAMES * (n + 1), frames), BLOCK_FRAMES * k, outputs); }
    if k < n { FitsBelow(limits, Min(BLOCK_FRAMES * (k + 1), frames), BLOCK_FRAMES * n, outputs); }
  }

  /** A sample for every whole frame. */
  ghost predicate LengthAt(tracks: seq<seq<real>>, frames: nat, c: int) { 0 <= c < |tracks| ==> |tracks[c]| == frames }

  lemma TracksHaveLength(k: Codecs, f: Format, mix: Mixdown, tracks: seq<seq<real>>, body: seq<Byte>)
    requires Sound(f) && mix.outputs <= f.channels && TracksOf(k, f, mix, tracks, body)
    ensures forall c :: LengthAt(tracks, Count(|body|, f.blockAlign), c)
  {
    forall c ensures LengthAt(tracks, Count(|body|, f.blockAlign), c) {
      assert TrackAt(k, f, mix, tracks, body, c);
      if 0 <= c < mix.outputs { TrackLength(FrameValue(k, f, mix, c), f.blockAlign, body); }
    }
  }

  /** What readSamples makes of the bytes behind the data chunk's header. */
  ghost predicate ReadAs(k: Codecs, rest: seq<Byte>, f: Format, size: nat, limits: Limits, mix: Mixdown, r: Result<seq<seq<real>>>)
    requires Sound(f) && 1 <= mix.outputs <= f.channels
  {
    var body := Body(rest, size);
    var stated, frames := Count(size, f.blockAlign), Count(|body|, f.blockAlign);
    if size > 0 && !Fits(limits, stated, mix.outputs) then r == Err(Why(limits, stated))
    else if !Fits(limits, frames, mix.outputs) then r.Err? && RefusedFor(limits, mix.outputs, frames, r.error)
    else if |body| < f.blockAlign then r == Err(Invalid)
    else r.Ok? && TracksOf(k, f, mix, r.value, body) && forall c :: LengthAt(r.value, frames, c)
  }

  /** readSamples: every whole frame of the data chunk, refused exactly when a limit is crossed or there is none, and
   *  for the limit that the length stated, or else the first block too many, crosses. */
  method ReadSamples(k: Codecs, rest: seq<Byte>, f: Format, size: nat, limits: Limits, mix: Mixdown) returns (r: Result<seq<seq<real>>>)
    requires Sound(f) && 1 <= mix.outputs <= f.channels
    ensures ReadAs(k, rest, f, size, limits, mix, r)
  {
    if size > 0 {
      var declared := size / f.blockAlign;
      CountIsDivision(size, f.blockAlign);
      if !LongEnough(limits, declared) {
        return Err(Error.TooLong);
      }
      if !SmallEnough(limits, declared, mix.outputs) {
        return Err(TooLarge);
      }
    }
    var body := Body(rest, size);
    var tracks, error := ReadBlocks(k, body, f, limits, mix);
    if error.Some? {
      return Err(error.value);
    }
    NoFrames(k, f, mix, tracks, body);
    if |tracks[0]| == 0 {
      return Err(Invalid);
    }
    TracksHaveLength(k, f, mix, tracks, body);
    return Ok(tracks);
  }

  lemma NoFrames(k: Codecs, f: Format, mix: Mixdown, tracks: seq<seq<real>>, body: seq<Byte>)
    requires Sound(f) && 1 <= mix.outputs <= f.channels && TracksOf(k, f, mix, tracks, body)
    ensures tracks[0] == [] <==> |body| < f.blockAlign
  {
    assert TrackAt(k, f, mix, tracks, body, 0);
  }

  /** What the block loop knows: the frames of seen are in the tracks, and fit. */
  ghost predicate Read(k: Codecs, f: Format, limits: Limits, mix: Mixdown, tracks: seq<seq<real>>, seen: seq<Byte>, frames: nat)
    requires Sound(f) && 1 <= mix.outputs <= f.channels
  {
    && WholeSamples(|seen|, f.blockAlign) && TracksOf(k, f, mix, tracks, seen) && frames == Count(|seen|, f.blockAlign)
    && Fits(limits, frames, mix.outputs)
  }

  /** What io.ReadFull into the block buffer gives of what is left: whole frames, and whether the buffer was filled. */
  method NextBlock(left: nat, align: nat) returns (whole: nat, count: nat, full: bool)
    requires align > 0 && left > 0
    ensures whole <= left && WholeSamples(whole, align) && count == Count(whole, align)
    ensures if full then whole > 0 && count == BLOCK_FRAMES else left - whole < align
    ensures count == Min(BLOCK_FRAMES, Count(left, align))
  {
    var buffer := BLOCK_FRAMES * align;
    var n := if left < buffer then left else buffer;
    full := n == buffer;
    CountIsDivision(n, align);
    if full {
      DivisionIsUnique(n, align, BLOCK_FRAMES, 0);
      assert buffer > 0;
    } else {
      FewerFrames(n, align);
    }
    whole, count := n - n % align, n / align;
    CountAppend(whole, left - whole, align);
  }

  lemma FewerFrames(n: nat, align: nat)
    requires 0 < align && n < BLOCK_FRAMES * align
    ensures n / align < BLOCK_FRAMES
  {
    assert n == (n / align) * align + n % align;
    Scaled(BLOCK_FRAMES, n / align, align);
  }

  lemma Scaled(a: nat, b: nat, width: nat)
    ensures a <= b ==> a * width <= b * width
  {
    if a <= b { assert (b - a) * width >= 0; }
  }

  lemma Stops(limits: Limits, outputs: nat, total: nat, n: nat, frames: nat)
    requires BLOCK_FRAMES * n < total && Fits(limits, BLOCK_FRAMES * n, outputs)
    requires frames == Min(BLOCK_FRAMES * (n + 1), total) && !Fits(limits, frames, outputs)
    ensures !Fits(limits, total, outputs) && RefusedFor(limits, outputs, total, Why(limits, frames))
  {
    MoreDoNotFit(limits, frames, total, outputs);
    assert StopsAfter(limits, outputs, total, n);
  }

  /** What a turn of the loop makes of the counts. */
  lemma OneBlock(seen: nat, left: nat, whole: nat, count: nat, n: nat, align: nat)
    requires align > 0 && WholeSamples(seen, align) && Count(seen, align) == BLOCK_FRAMES * n && whole <= left
    requires WholeSamples(whole, align) && count == Count(whole, align) == Min(BLOCK_FRAMES, Count(left, align))
    ensures WholeSamples(seen + whole, align) && Count(seen + whole, align) == Count(seen, align) + count
    ensures Count(seen, align) + count == Min(BLOCK_FRAMES * (n + 1), Count(seen + left, align))
  {
    CountAppend(seen, left, align);
    CountAppend(seen, whole, align);
  }

  /** One turn of the loop: a block, as far as there is one, into the tracks. */
  method ReadBlock(k: Codecs, f: Format, mix: Mixdown, left: seq<Byte>, tracks: seq<seq<real>>, ghost seen: seq<Byte>, ghost n: nat)
    returns (more: seq<seq<real>>, whole: nat, count: nat, full: bool)
    requires Sound(f) && 1 <= mix.outputs <= f.channels && |left| > 0 && WholeSamples(|seen|, f.blockAlign)
    requires TracksOf(k, f, mix, tracks, seen) && Count(|seen|, f.blockAlign) == BLOCK_FRAMES * n
    ensures whole <= |left| && TracksOf(k, f, mix, more, seen + left[..whole]) && WholeSamples(|seen| + whole, f.blockAlign)
    ensures Count(|seen| + whole, f.blockAlign) == BLOCK_FRAMES * n + count == Min(BLOCK_FRAMES * (n + 1), Count(|seen| + |left|, f.blockAlign))
    ensures if full then whole > 0 && count == BLOCK_FRAMES else |left| - whole < f.blockAlign
  {
    whole, count, full := NextBlock(|left|, f.blockAlign);
    more := AddBlock(k, f, mix, left[..whole], tracks, seen);
    OneBlock(|seen|, |left|, whole, count, n, f.blockAlign);
  }

  /** The block loop: whole blocks as the reader gives them, and a last one that may be short. */
  method ReadBlocks(k: Codecs, body: seq<Byte>, f: Format, limits: Limits, mix: Mixdown)
    returns (tracks: seq<seq<real>>, error: Option<Error>)
    requires Sound(f) && 1 <= mix.outputs <= f.channels
    ensures error.None? <==> Fits(limits, Count(|body|, f.blockAlign), mix.outputs)
    ensures error.None? ==> TracksOf(k, f, mix, tracks, body)
    ensures error.Some? ==> RefusedFor(limits, mix.outputs, Count(|body|, f.blockAlign), error.value)
  {
    tracks, error := seq(mix.outputs, _ => []), None;
    var left, frames, more := body, 0, true;
    ghost var seen: seq<Byte>, n := [], 0;
    Nothing(k, f, limits, mix, tracks);
    while more && |left| != 0
      invariant frames >= 0 && n >= 0 && (more ==> frames == BLOCK_FRAMES * n) && Read(k, f, limits, mix, tracks, seen, frames)
      invariant body == seen + left && (!more ==> |left| < f.blockAlign)
      decreases more, |left|
    {
      var whole, count;
      tracks, whole, count, more := ReadBlock(k, f, mix, left, tracks, seen, n);
      seen := seen + left[..whole];
      left := left[whole..];
      frames := frames + count;
      if !Fits(limits, frames, mix.outputs) {
        Stops(limits, mix.outputs, Count(|body|, f.blockAlign), n, frames);
        return tracks, Some(if !LongEnough(limits, frames) then Error.TooLong else TooLarge);
      }
      n := n + 1;
    }
    TailDoesNotMatter(k, f, mix, tracks, seen, left);
    CountAppend(|seen|, |left|, f.blockAlign);
  }

  lemma Nothing(k: Codecs, f: Format, limits: Limits, mix: Mixdown, tracks: seq<seq<real>>)
    requires Sound(f) && 1 <= mix.outputs <= f.channels && tracks == seq(mix.outputs, _ => [])
    ensures Read(k, f, limits, mix, tracks, [], 0)
  {
    forall c ensures TrackAt(k, f, mix, tracks, [], c) {}
  }

  lemma TailDoesNotMatter(k: Codecs, f: Format, mix: Mixdown, tracks: seq<seq<real>>, seen: seq<Byte>, tail: seq<Byte>)
    requires Sound(f) && 1 <= mix.outputs <= f.channels && WholeSamples(|seen|, f.blockAlign) && |tail| < f.blockAlign
    requires TracksOf(k, f, mix, tracks, seen)
    ensures TracksOf(k, f, mix, tracks, seen + tail)
  {
    forall c ensures TrackAt(k, f, mix, tracks, seen + tail, c) {
      assert TrackAt(k, f, mix, tracks, seen, c);
      if 0 <= c < mix.outputs { SamplesAppend(FrameValue(k, f, mix, c), f.blockAlign, seen, tail); }
    }
  }
}
