/** Samples that arrive in pieces: readFloat32LE of internal/audio/ffmpeg.go and DecodePCM16LE of internal/audio/raw.go.
 *  How the bytes were cut must not matter.
 */
module SampleStream {
  import opened Bytes

  /** The whole samples of a stream, width bytes at a time; trailing bytes that make none are dropped. */
  function Samples<T>(sample: seq<Byte> -> T, width: nat, data: seq<Byte>): (s: seq<T>)
    requires width > 0
    decreases |data|
  {
    if |data| < width then [] else [sample(data[..width])] + Samples(sample, width, data[width..])
  }

  /** n bytes are whole samples. */
  predicate WholeSamples(n: nat, width: nat)
    requires width > 0
  {
    n == 0 || (n >= width && WholeSamples(n - width, width))
  }

  lemma {:induction false} WholeByRemainder(n: nat)
    ensures WholeSamples(n, 4) <==> n % 4 == 0
    ensures WholeSamples(n, 2) <==> n % 2 == 0
  {
    if n >= 4 {
      WholeByRemainder(n - 4);
      WholeByRemainder(n - 2);
    }
  }

  lemma {:induction false} SamplesCount<T>(sample: seq<Byte> -> T, data: seq<Byte>)
    ensures |Samples(sample, 4, data)| == |data| / 4
    decreases |data|
  {
    if |data| >= 4 { SamplesCount(sample, data[4..]); }
  }

  /** Whole samples first: what follows is decoded on its own. */
  lemma {:induction false} SamplesAppend<T>(sample: seq<Byte> -> T, width: nat, a: seq<Byte>, b: seq<Byte>)
    requires width > 0 && WholeSamples(|a|, width)
    ensures Samples(sample, width, a + b) == Samples(sample, width, a) + Samples(sample, width, b)
    decreases |a|
  {
    if a == [] {
      assert a + b == b;
    } else {
      assert (a + b)[..width] == a[..width] && (a + b)[width..] == a[width..] + b;
      SamplesAppend(sample, width, a[width..], b);
    }
  }

  lemma Append4<T>(sample: seq<Byte> -> T, a: seq<Byte>, b: seq<Byte>)
    requires |a| % 4 == 0
    ensures Samples(sample, 4, a + b) == Samples(sample, 4, a) + Samples(sample, 4, b)
  {
    WholeByRemainder(|a|);
    SamplesAppend(sample, 4, a, b);
  }

  lemma Append2<T>(sample: seq<Byte> -> T, a: seq<Byte>, b: seq<Byte>)
    requires |a| % 2 == 0
    ensures Samples(sample, 2, a + b) == Samples(sample, 2, a) + Samples(sample, 2, b)
  {
    WholeByRemainder(|a|);
    SamplesAppend(sample, 2, a, b);
  }

  // --- readFloat32LE -----------------------------------------------------------------

  /** How a read ends. */
  datatype End = More | EndOfFile | Broken

  /** What an io.Reader gives: its chunks, its end, and whether the end comes with the last chunk or after it. */
  datatype Reader = Reader(chunks: seq<seq<Byte>>, end: End, together: bool) {
    predicate Valid() { end != More }

    /** The i-th read. */
    function Read(i: nat): (seq<Byte>, End) {
      if i + 1 < |chunks| then (chunks[i], More)
      else if i + 1 == |chunks| then (chunks[i], if together then end else More)
      else ([], end)
    }
  }

  datatype Outcome<T> = Decoded(samples: seq<T>) | TooLong | ReadFailed

  /** The sample limit: the duration, and under it the memory. A negative limit is none. */
  function Limit(rate: int, maxDuration: real, maxBytes: int): int {
    var byTime := if maxDuration > 0.0 then (maxDuration * rate as real).Floor else -1;
    if maxBytes > 0 && (byTime < 0 || maxBytes / 4 < byTime) then maxBytes / 4 else byTime
  }

  /** What a reader's whole stream decodes to, however it is cut. */
  function Whole<T>(sample: seq<Byte> -> T, r: Reader, limit: int): Outcome<T> {
    var all := Samples(sample, 4, Concat(r.chunks));
    if limit >= 0 && |all| > limit then TooLong else if r.end.Broken? then ReadFailed else Decoded(all)
  }

  /** out are the whole samples of seen, and rest the bytes after them. */
  ghost predicate Caught<T>(sample: seq<Byte> -> T, seen: seq<Byte>, out: seq<T>, rest: seq<Byte>) {
    && |rest| < 4 && |rest| <= |seen| && rest == seen[|seen| - |rest|..] && (|seen| - |rest|) % 4 == 0
    && out == Samples(sample, 4, seen[..|seen| - |rest|])
  }

  lemma CaughtAll<T>(sample: seq<Byte> -> T, seen: seq<Byte>, out: seq<T>, rest: seq<Byte>)
    requires Caught(sample, seen, out, rest)
    ensures out == Samples(sample, 4, seen)
  {
    assert seen == seen[..|seen| - |rest|] + rest;
    Append4(sample, seen[..|seen| - |rest|], rest);
  }

  /** The next bytes: those carried and enough to make whole samples are decoded, and the others carried. */
  lemma CatchMore<T>(sample: seq<Byte> -> T, seen: seq<Byte>, out: seq<T>, rest: seq<Byte>, data: seq<Byte>, whole: nat)
    requires Caught(sample, seen, out, rest) && whole <= |rest + data| && whole % 4 == 0 && |rest + data| - whole < 4
    ensures Caught(sample, seen + data, out + Samples(sample, 4, (rest + data)[..whole]), (rest + data)[whole..])
  {
    var at := |seen| - |rest|;
    var both := rest + data;
    Cut(seen, rest, data, at, whole);
    Append4(sample, seen[..at], both[..whole]);
  }

  lemma CatchWhole<T>(sample: seq<Byte> -> T, seen: seq<Byte>, out: seq<T>, data: seq<Byte>, whole: nat)
    requires Caught(sample, seen, out, []) && whole <= |data| && whole % 4 == 0 && |data| - whole < 4
    ensures Caught(sample, seen + data, out + Samples(sample, 4, data[..whole]), data[whole..])
  {
    assert [] + data == data;
    CatchMore(sample, seen, out, [], data, whole);
  }

  lemma Cut(seen: seq<Byte>, rest: seq<Byte>, data: seq<Byte>, at: nat, whole: nat)
    requires at <= |seen| && rest == seen[at..] && whole <= |rest + data|
    ensures (seen + data)[..at + whole] == seen[..at] + (rest + data)[..whole]
    ensures (seen + data)[at + whole..] == (rest + data)[whole..]
  {
    assert seen + data == seen[..at] + (rest + data);
  }

  /** One read's bytes. */
  method Take<T>(sample: seq<Byte> -> T, out: seq<T>, carry: array<Byte>, carried: nat, chunk: seq<Byte>, ghost seen: seq<Byte>)
    returns (more: seq<T>, left: nat, skipped: bool)
    requires carry.Length == 4 && carried < 4 && Caught(sample, seen, out, carry[..carried])
    modifies carry
    ensures left < 4 && Caught(sample, seen + chunk, more, carry[..left])
    ensures skipped ==> more == out
  {
    if carried > 0 {
      var need := 4 - carried;
      if |chunk| < need {
        left := Keep(sample, out, carry, carried, chunk, seen);
        return out, left, true;
      }
      more := FillCarry(sample, out, carry, carried, chunk[..need], seen);
      assert seen + chunk[..need] + chunk[need..] == seen + chunk;
      more, left := TakeWhole(sample, more, carry, chunk[need..], seen + chunk[..need]);
    } else {
      assert carry[..0] == [];
      more, left := TakeWhole(sample, out, carry, chunk, seen);
    }
    skipped := false;
  }

  /** Bytes that do not complete the carried sample. */
  method Keep<T>(sample: seq<Byte> -> T, ghost out: seq<T>, carry: array<Byte>, carried: nat, few: seq<Byte>, ghost seen: seq<Byte>)
    returns (left: nat)
    requires carry.Length == 4 && carried + |few| < 4 && Caught(sample, seen, out, carry[..carried])
    modifies carry
    ensures left < 4 && Caught(sample, seen + few, out, carry[..left])
  {
    CatchMore(sample, seen, out, carry[..carried], few, 0);
    ghost var both := carry[..carried] + few;
    assert both[..0] == [] && both[0..] == both;
    Copy(carry, carried, few);
    left := carried + |few|;
    assert carry[..left] == both;
  }

  /** The bytes that complete the carried sample. */
  method FillCarry<T>(sample: seq<Byte> -> T, out: seq<T>, carry: array<Byte>, carried: nat, missing: seq<Byte>, ghost seen: seq<Byte>)
    returns (more: seq<T>)
    requires carry.Length == 4 && carried + |missing| == 4 && carried < 4 && Caught(sample, seen, out, carry[..carried])
    modifies carry
    ensures Caught(sample, seen + missing, more, [])
  {
    CatchMore(sample, seen, out, carry[..carried], missing, 4);
    ghost var four := carry[..carried] + missing;
    Copy(carry, carried, missing);
    assert carry[..] == four == four[..4] && four[4..] == [];
    OneSample(sample, four);
    more := out + [sample(carry[..])];
  }

  /** With nothing carried: the whole samples, and what is left over into the carry. */
  method TakeWhole<T>(sample: seq<Byte> -> T, out: seq<T>, carry: array<Byte>, data: seq<Byte>, ghost seen: seq<Byte>)
    returns (more: seq<T>, left: nat)
    requires carry.Length == 4 && Caught(sample, seen, out, [])
    modifies carry
    ensures left < 4 && Caught(sample, seen + data, more, carry[..left])
  {
    var whole := |data| - |data| % 4;
    CatchWhole(sample, seen, out, data, whole);
    var block := Block(sample, data, whole);
    more := out + block;
    var rest := data[whole..];
    left := 0;
    if |rest| > 0 {
      Copy(carry, 0, rest);
      left := |rest|;
    }
    assert carry[..left] == rest;
  }

  lemma OneSample<T>(sample: seq<Byte> -> T, four: seq<Byte>)
    requires |four| == 4
    ensures Samples(sample, 4, four) == [sample(four)]
  {
    assert four[..4] == four && four[4..] == [];
  }

  /** The whole samples of a block. */
  method Block<T>(sample: seq<Byte> -> T, data: seq<Byte>, whole: nat) returns (out: seq<T>)
    requires whole <= |data| && whole % 4 == 0
    ensures out == Samples(sample, 4, data[..whole])
  {
    out := [];
    var i := 0;
    while i < whole
      invariant 0 <= i <= whole && i % 4 == 0 && out == Samples(sample, 4, data[..i])
    {
      assert data[..i + 4] == data[..i] + data[i..i + 4];
      Append4(sample, data[..i], data[i..i + 4]);
      OneSample(sample, data[i..i + 4]);
      out := out + [sample(data[i..i + 4])];
      i := i + 4;
    }
  }

  method Copy(dst: array<Byte>, at: nat, src: seq<Byte>)
    requires at + |src| <= dst.Length
    modifies dst
    ensures forall k :: 0 <= k < dst.Length ==> dst[k] == if at <= k < at + |src| then src[k - at] else old(dst[k])
  {
    var i := 0;
    while i < |src|
      invariant 0 <= i <= |src|
      invariant forall k :: 0 <= k < dst.Length ==> dst[k] == if at <= k < at + i then src[k - at] else old(dst[k])
    {
      dst[at + i] := src[i];
      i := i + 1;
    }
  }

  /** The bytes of the first i reads. */
  function SeenBy(r: Reader, i: nat): seq<Byte> {
    if i == 0 then [] else SeenBy(r, i - 1) + r.Read(i - 1).0
  }

  lemma {:induction false} SeenSome(r: Reader, i: nat)
    requires i <= |r.chunks|
    ensures SeenBy(r, i) == Concat(r.chunks[..i])
  {
    if i > 0 {
      SeenSome(r, i - 1);
      assert r.chunks[..i][..i - 1] == r.chunks[..i - 1];
    }
  }

  lemma {:induction false} SeenAll(r: Reader, i: nat)
    requires i >= |r.chunks|
    ensures SeenBy(r, i) == Concat(r.chunks)
  {
    if i > |r.chunks| {
      SeenAll(r, i - 1);
    } else {
      SeenSome(r, i);
      assert r.chunks[..i] == r.chunks;
    }
  }

  lemma {:induction false} SeenIsPart(r: Reader, i: nat)
    ensures |SeenBy(r, i)| <= |Concat(r.chunks)|
    decreases |r.chunks| - i
  {
    if i < |r.chunks| { SeenIsPart(r, i + 1); } else { SeenAll(r, i); }
  }

  /** What the loop of readFloat32LE knows after i reads. */
  ghost predicate Loop<T>(sample: seq<Byte> -> T, r: Reader, limit: int, i: nat, out: seq<T>, rest: seq<Byte>) {
    i <= |r.chunks| && Caught(sample, SeenBy(r, i), out, rest) && (limit >= 0 ==> |out| <= limit)
  }

  lemma Begins<T>(sample: seq<Byte> -> T, r: Reader, limit: int)
    ensures Loop(sample, r, limit, 0, [], [])
  {}

  /** The loop goes on only after a read that was not the last. */
  lemma GoesOn<T>(sample: seq<Byte> -> T, r: Reader, limit: int, i: nat, out: seq<T>, rest: seq<Byte>)
    requires r.Valid() && (r.Read(i).1 == More || r.Read(i).0 != [])
    requires Caught(sample, SeenBy(r, i) + r.Read(i).0, out, rest) && (limit >= 0 ==> |out| <= limit)
    ensures Loop(sample, r, limit, i + 1, out, rest)
  {}

  /** The samples so far are already too many: so are all of them. */
  lemma AlreadyTooMany<T>(sample: seq<Byte> -> T, r: Reader, limit: int, i: nat, out: seq<T>, rest: seq<Byte>)
    requires limit >= 0 && |out| > limit && Caught(sample, SeenBy(r, i) + r.Read(i).0, out, rest)
    ensures Whole(sample, r, limit).TooLong?
  {
    CaughtAll(sample, SeenBy(r, i + 1), out, rest);
    SeenIsPart(r, i + 1);
    SamplesCount(sample, SeenBy(r, i + 1));
    SamplesCount(sample, Concat(r.chunks));
  }

  lemma AtTheEnd<T>(sample: seq<Byte> -> T, r: Reader, limit: int, i: nat, out: seq<T>, rest: seq<Byte>)
    requires r.Valid() && r.Read(i).1 != More && (limit >= 0 ==> |out| <= limit)
    requires Caught(sample, SeenBy(r, i) + r.Read(i).0, out, rest)
    ensures Whole(sample, r, limit) == if r.Read(i).1.EndOfFile? then Decoded(out) else ReadFailed
  {
    CaughtAll(sample, SeenBy(r, i) + r.Read(i).0, out, rest);
    SeenAll(r, i + 1);
    WholeIs(sample, r, limit, out);
  }

  lemma WholeIs<T>(sample: seq<Byte> -> T, r: Reader, limit: int, out: seq<T>)
    requires out == Samples(sample, 4, Concat(r.chunks)) && (limit >= 0 ==> |out| <= limit)
    ensures Whole(sample, r, limit) == if r.end.Broken? then ReadFailed else Decoded(out)
  {}

  ghost predicate Pending<T>(sample: seq<Byte> -> T, r: Reader, limit: int, i: nat, out: seq<T>, rest: seq<Byte>, done: bool, res: Outcome<T>) {
    if done then res == Whole(sample, r, limit) else Loop(sample, r, limit, i, out, rest)
  }

  /** One turn of readFloat32LE's loop. */
  method Turn<T>(sample: seq<Byte> -> T, r: Reader, limit: int, i: nat, out: seq<T>, carry: array<Byte>, carried: nat)
    returns (more: seq<T>, left: nat, done: bool, res: Outcome<T>)
    requires r.Valid() && carry.Length == 4 && carried < 4 && Loop(sample, r, limit, i, out, carry[..carried])
    modifies carry
    ensures left < 4 && Pending(sample, r, limit, i + 1, more, carry[..left], done, res)
  {
    var (chunk, end) := r.Read(i);
    more, left, done, res := out, carried, false, ReadFailed;
    assert SeenBy(r, i) + [] == SeenBy(r, i);
    if |chunk| > 0 {
      var skipped;
      more, left, skipped := Take(sample, out, carry, carried, chunk, SeenBy(r, i));
      if skipped {
        GoesOn(sample, r, limit, i, more, carry[..left]);
        return;
      }
      if limit >= 0 && |more| > limit {
        AlreadyTooMany(sample, r, limit, i, more, carry[..left]);
        return more, left, true, TooLong;
      }
    }
    if end != More {
      AtTheEnd(sample, r, limit, i, more, carry[..left]);
      return more, left, true, if end.EndOfFile? then Decoded(more) else ReadFailed;
    }
    GoesOn(sample, r, limit, i, more, carry[..left]);
  }

  /** readFloat32LE: the whole stream four bytes at a time, refused exactly when it holds more samples than the limit,
   *  wherever the reads cut it and whichever read brings the end. */
  method ReadFloat32LE<T>(sample: seq<Byte> -> T, r: Reader, rate: int, maxDuration: real, maxBytes: int) returns (res: Outcome<T>)
    requires r.Valid()
    ensures res == Whole(sample, r, Limit(rate, maxDuration, maxBytes))
  {
    var maxSamples := -1;
    if maxDuration > 0.0 {
      maxSamples := (maxDuration * rate as real).Floor;
    }
    if maxBytes > 0 {
      var byBytes := maxBytes / 4;
      if maxSamples < 0 || byBytes < maxSamples {
        maxSamples := byBytes;
      }
    }
    res := ReadUpTo(sample, r, maxSamples);
  }

  /** The limit stands for both ceilings: the duration, and four bytes a sample. */
  lemma LimitIsBoth(rate: int, maxDuration: real, maxBytes: int, n: nat)
    requires rate > 0
    ensures var limit := Limit(rate, maxDuration, maxBytes);
      limit >= 0 && n > limit <==> (maxDuration > 0.0 && n as real > maxDuration * rate as real) || (maxBytes > 0 && 4 * n > maxBytes)
  {
    if maxDuration > 0.0 { Positive(maxDuration, rate as real); }
  }

  lemma Positive(x: real, y: real)
    requires x > 0.0 && y > 0.0
    ensures x * y > 0.0
  {}

  /** The loop of readFloat32LE. */
  method ReadUpTo<T>(sample: seq<Byte> -> T, r: Reader, limit: int) returns (res: Outcome<T>)
    requires r.Valid()
    ensures res == Whole(sample, r, limit)
  {
    var out: seq<T> := [];
    var carry := new Byte[4](_ => 0);
    var carried, i, done := 0, 0, false;
    Begins(sample, r, limit);
    assert carry[..0] == [];
    res := ReadFailed;
    while !done
      invariant carry.Length == 4 && 0 <= carried < 4 && 0 <= i
      invariant Pending(sample, r, limit, i, out, carry[..carried], done, res)
      decreases if done then 0 else |r.chunks| + 1 - i
    {
      out, carried, done, res := Turn(sample, r, limit, i, out, carry, carried);
      i := i + 1;
    }
  }

  /** Two readers of the same bytes and the same end decode the same. */
  lemma CutDoesNotMatter<T>(sample: seq<Byte> -> T, a: Reader, b: Reader, limit: int)
    requires Concat(a.chunks) == Concat(b.chunks) && a.end == b.end
    ensures Whole(sample, a, limit) == Whole(sample, b, limit)
    ensures Whole(sample, a, limit).TooLong? <==> limit >= 0 && |Concat(a.chunks)| / 4 > limit
  {
    SamplesCount(sample, Concat(a.chunks));
  }

  // --- DecodePCM16LE -----------------------------------------------------------------

  function Sample16(b: seq<Byte>): real { if |b| < 2 then 0.0 else Signed(U16(b), 0x1_0000) as real / 32768.0 }

  /** The trailing byte of an odd buffer. */
  function Rest(b: seq<Byte>): seq<Byte> { if |b| % 2 == 1 then b[|b| - 1..] else [] }

  /** The trailing byte of an odd buffer is the caller's to put before the next one. */
  method DecodePCM16LE(b: seq<Byte>) returns (samples: seq<real>, rest: seq<Byte>)
    ensures samples == Samples(Sample16, 2, b) && rest == Rest(b)
  {
    var n := |b| / 2;
    var a := new real[n];
    var i := 0;
    while i < n
      invariant 0 <= i <= n && a[..i] == Samples(Sample16, 2, b[..2 * i])
    {
      a[i] := Sample16(b[2 * i..]);
      Append16(b[..2 * i], b[2 * i..2 * i + 2]);
      assert b[..2 * (i + 1)] == b[..2 * i] + b[2 * i..2 * i + 2];
      assert a[..i + 1] == a[..i] + [a[i]];
      i := i + 1;
    }
    Append16(b[..2 * n], b[2 * n..]);
    assert b == b[..2 * n] + b[2 * n..] && a[..n] == a[..];
    return a[..], if |b| % 2 == 1 then b[|b| - 1..] else [];
  }

  /** After whole samples, one more or none. */
  lemma Append16(whole: seq<Byte>, b: seq<Byte>)
    requires |whole| % 2 == 0 && |b| <= 2
    ensures Samples(Sample16, 2, whole + b) == Samples(Sample16, 2, whole) + if |b| == 2 then [Sample16(b)] else []
  {
    Append2(Sample16, whole, b);
    if |b| == 2 { assert b[..2] == b && b[2..] == []; }
  }

  /** A session's frames, each decoded with what the one before left: the same samples as all of them at once. */
  method DecodeFrames(frames: seq<seq<Byte>>) returns (samples: seq<real>, carry: seq<Byte>)
    ensures samples == Samples(Sample16, 2, Concat(frames)) && carry == Rest(Concat(frames))
  {
    samples, carry := [], [];
    var i := 0;
    while i < |frames|
      invariant 0 <= i <= |frames|
      invariant samples == Samples(Sample16, 2, Concat(frames[..i])) && carry == Rest(Concat(frames[..i]))
    {
      assert frames[..i + 1][..i] == frames[..i];
      NextFrame(Concat(frames[..i]), frames[i]);
      var more, rest := DecodePCM16LE(carry + frames[i]);
      samples := samples + more;
      carry := rest;
      i := i + 1;
    }
    assert frames[..i] == frames;
  }

  lemma NextFrame(seen: seq<Byte>, frame: seq<Byte>)
    ensures Samples(Sample16, 2, seen + frame) == Samples(Sample16, 2, seen) + Samples(Sample16, 2, Rest(seen) + frame)
    ensures Rest(seen + frame) == Rest(Rest(seen) + frame)
  {
    var whole, rest := seen[..|seen| - |Rest(seen)|], Rest(seen);
    assert seen == whole + rest;
    NextSamples(whole, rest, frame);
    NextRest(whole, rest, frame);
  }

  lemma NextSamples(whole: seq<Byte>, rest: seq<Byte>, frame: seq<Byte>)
    requires |whole| % 2 == 0 && |rest| < 2
    ensures Samples(Sample16, 2, whole + rest + frame) == Samples(Sample16, 2, whole + rest) + Samples(Sample16, 2, rest + frame)
  {
    Append16(whole, rest);
    assert whole + rest + frame == whole + (rest + frame);
    Append2(Sample16, whole, rest + frame);
  }

  lemma NextRest(whole: seq<Byte>, rest: seq<Byte>, frame: seq<Byte>)
    requires |whole| % 2 == 0
    ensures Rest(whole + rest + frame) == Rest(rest + frame)
  {
    assert whole + rest + frame == whole + (rest + frame);
    SameRest(whole, rest + frame);
  }

  lemma SameRest(whole: seq<Byte>, b: seq<Byte>)
    requires |whole| % 2 == 0
    ensures Rest(whole + b) == Rest(b)
  {
    if |b| % 2 == 1 { assert (whole + b)[|whole + b| - 1..] == b[|b| - 1..]; }
  }

  // --- which bytes a sample is --------------------------------------------------------------

  /** Sample i is bytes 4i to 4i + 3. */
  lemma {:induction false} SampleAtFour<T>(sample: seq<Byte> -> T, data: seq<Byte>, i: nat)
    requires 4 * i + 4 <= |data|
    ensures i < |Samples(sample, 4, data)| && Samples(sample, 4, data)[i] == sample(data[4 * i..4 * i + 4])
    decreases |data|
  {
    if i > 0 {
      SampleAtFour(sample, data[4..], i - 1);
      assert data[4..][4 * (i - 1)..4 * (i - 1) + 4] == data[4 * i..4 * i + 4];
    }
  }

  /** Or bytes 2i and 2i + 1. */
  lemma {:induction false} SampleAtTwo<T>(sample: seq<Byte> -> T, data: seq<Byte>, i: nat)
    requires 2 * i + 2 <= |data|
    ensures i < |Samples(sample, 2, data)| && Samples(sample, 2, data)[i] == sample(data[2 * i..2 * i + 2])
    decreases |data|
  {
    if i > 0 {
      SampleAtTwo(sample, data[2..], i - 1);
      assert data[2..][2 * (i - 1)..2 * (i - 1) + 2] == data[2 * i..2 * i + 2];
    }
  }

  /** Sixteen-bit samples are two's complement, lowest byte first, over half their range. */
  lemma SixteenBitSample(v: int)
    requires -0x8000 <= v < 0x8000
    ensures Sample16(PutU16(v % 0x1_0000)) == v as real / 32768.0
  {
    PutGet16(v % 0x1_0000);
  }
}
