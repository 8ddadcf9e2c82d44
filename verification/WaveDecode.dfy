/** WAVDecoder.Decode of internal/audio/wav.go: header, channels, samples, and the rate that was asked for. */
module WaveDecode {
  import opened Options
  import opened Bytes
  import opened WaveReader
  import FilterBank
  import Resample

  datatype ChannelMode = Mix | First | Split
  datatype DecodeOptions = DecodeOptions(mode: ChannelMode, maxSplitChannels: int, maxDuration: real, maxDecodedBytes: int, targetRate: int)

  const DEFAULT_RATE: int := 16000

  function Target(opts: DecodeOptions): (rate: int)
    ensures rate > 0
  {
    if opts.targetRate <= 0 then DEFAULT_RATE else opts.targetRate
  }

  /** splitChannels: how many tracks a source of n channels makes. */
  function SplitChannels(opts: DecodeOptions, n: nat): (r: Result<nat>)
    requires n >= 1
    ensures r.Ok? ==> 1 <= r.value <= n && (opts.mode != Split ==> r.value == 1)
    ensures r.Err? <==> opts.mode == Split && n > 1 && 0 < opts.maxSplitChannels < n
  {
    if opts.mode != Split || n <= 1 then Ok(1)
    else if opts.maxSplitChannels > 0 && n > opts.maxSplitChannels then Err(Invalid)
    else Ok(n)
  }

  function LimitsOf(opts: DecodeOptions, f: Format): Limits { Limits(MaxFrames(opts.maxDuration, f.rate), opts.maxDecodedBytes) }

  /** One track at the target rate. */
  ghost predicate Resampled(kernel: FilterBank.Kernel, f: Format, target: int, raw: seq<real>, track: seq<real>) {
    if f.rate <= 0 || target <= 0 || f.rate == target || raw == [] then track == raw
    else
      var r := FilterBank.Rates(kernel, f.rate, target);
      |track| == FilterBank.OutputLen(r, |raw|)
      && forall n :: 0 <= n < |track| ==> track[n] == FilterBank.Direct(r, raw, n, 0, |raw|)
  }

  ghost predicate ResampledAt(kernel: FilterBank.Kernel, f: Format, target: int, raw: seq<seq<real>>, tracks: seq<seq<real>>, c: int) {
    0 <= c < |tracks| && c < |raw| ==> Resampled(kernel, f, target, raw[c], tracks[c])
  }

  /** What Decode makes of a file. */
  ghost predicate DecodedAs(k: Codecs, kernel: FilterBank.Kernel, file: seq<Byte>, opts: DecodeOptions, r: Result<seq<seq<real>>>) {
    var head := HeadOf(file);
    if head.Err? then r == Err(head.error)
    else
      var f := head.value.format;
      Sound(f)
      && var outputs := SplitChannels(opts, f.channels);
         if outputs.Err? then r == Err(outputs.error)
         else
           var mix := Mixdown(outputs.value, opts.mode == First);
           exists raw ::
             && ReadAs(k, head.value.rest, f, head.value.size, LimitsOf(opts, f), mix, raw)
             && match raw
                case Err(e) => r == Err(e)
                case Ok(tracks) =>
                  r.Ok? && |r.value| == |tracks| && forall c :: ResampledAt(kernel, f, Target(opts), tracks, r.value, c)
  }

  /** Decode: every error of its parts, or a track an output, each the direct convolution of its channel's samples. */
  method Decode(k: Codecs, kernel: FilterBank.Kernel, file: seq<Byte>, opts: DecodeOptions) returns (r: Result<seq<seq<real>>>)
    ensures DecodedAs(k, kernel, file, opts, r)
  {
    var head := ReadHeader(file);
    if head.Err? {
      return Err(head.error);
    }
    var f := head.value.format;
    if |file| >= 12 { HeadIsSound(file[12..], None); }
    var outputs := SplitChannels(opts, f.channels);
    if outputs.Err? {
      return Err(outputs.error);
    }
    var mix := Mixdown(outputs.value, opts.mode == First);
    var raw := ReadSamples(k, head.value.rest, f, head.value.size, LimitsOf(opts, f), mix);
    if raw.Err? {
      return Err(raw.error);
    }
    var tracks := ConvertAll(kernel, f, Target(opts), raw.value);
    r := Ok(tracks);
  }

  method ConvertAll(kernel: FilterBank.Kernel, f: Format, target: int, raw: seq<seq<real>>) returns (tracks: seq<seq<real>>)
    requires f.rate > 0 && target > 0
    ensures |tracks| == |raw| && forall c :: ResampledAt(kernel, f, target, raw, tracks, c)
  {
    tracks := [];
    var c := 0;
    while c < |raw|
      invariant 0 <= c <= |raw| && |tracks| == c && forall d :: ResampledAt(kernel, f, target, raw, tracks, d)
    {
      var track := raw[c];
      if f.rate != target {
        track := Resample.Convert(kernel, track, f.rate, target);
      }
      ghost var was := tracks;
      tracks := tracks + [track];
      forall d ensures ResampledAt(kernel, f, target, raw, tracks, d) { assert ResampledAt(kernel, f, target, raw, was, d); }
      c := c + 1;
    }
  }
}
