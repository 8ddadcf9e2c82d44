/** Rewritten words go back into the segments they came from: internal/postproc/segments.go. */
module Scatter {
  import opened Options
  import opened Words
  import opened SpanVectors

  function Layout(segs: seq<Segment>): (l: seq<nat>) {
    seq(|segs|, i requires 0 <= i < |segs| => |segs[i].words|)
  }

  lemma {:induction false} LayoutCounts(segs: seq<Segment>)
    ensures Prefix(Layout(segs), |segs|) == |Flat(segs)|
  {
    if segs != [] {
      var front := segs[..|segs| - 1];
      LayoutCounts(front);
      assert Layout(segs)[..|front|] == Layout(front);
      PrefixOfPart(Layout(segs), Layout(front), |front|);
    }
  }

  method Flatten(segs: seq<Segment>) returns (flat: seq<Word>, layout: seq<nat>)
    ensures flat == Flat(segs) && layout == Layout(segs)
  {
    flat, layout := [], [];
    var i := 0;
    while i < |segs|
      invariant 0 <= i <= |segs| && flat == Flat(segs[..i]) && layout == Layout(segs)[..i]
    {
      assert segs[..i + 1][..i] == segs[..i];
      flat := flat + segs[i].words;
      layout := layout + [|segs[i].words|];
      i := i + 1;
    }
    assert segs[..i] == segs;
  }

  /** The c-th original word is the segment's own. */
  predicate Owns(layout: seq<nat>, s: int, c: nat) {
    0 <= s < |layout| && Prefix(layout, s) <= c < Prefix(layout, s + 1)
  }

  lemma OneOwner(layout: seq<nat>, s: nat, t: nat, c: nat)
    requires Owns(layout, s, c) && Owns(layout, t, c)
    ensures s == t
  {
    if s < t { PrefixGrows(layout, s + 1, t); }
    if t < s { PrefixGrows(layout, t + 1, s); }
  }

  /** Of the first n output words, in order, those whose first original word is the segment's own. */
  function Select(out: seq<Word>, v: seq<nat>, layout: seq<nat>, s: int, n: nat): seq<Word>
    requires n <= |out| == |v|
  {
    if n == 0 then []
    else Select(out, v, layout, s, n - 1) + if Owns(layout, s, Prefix(v, n - 1)) then [out[n - 1]] else []
  }

  ghost predicate BucketAt(buckets: seq<seq<Word>>, out: seq<Word>, v: seq<nat>, layout: seq<nat>, s: int, n: nat)
    requires n <= |out| == |v|
  {
    0 <= s < |buckets| ==> buckets[s] == Select(out, v, layout, s, n)
  }

  /** The walk never counts past a segment's own words, unless it is the last. */
  predicate InStep(layout: seq<nat>, seg: nat, seen: nat) {
    seg < |layout| && (seg < |layout| - 1 ==> seen <= layout[seg])
  }

  /** scatter's walk over segments and words: every word goes to the segment that owned its first input. */
  method Distribute(out: seq<Word>, spans: Option<seq<nat>>, layout: seq<nat>) returns (buckets: seq<seq<Word>>)
    requires |layout| > 0 && Covers(Vector(spans, |out|), Prefix(layout, |layout|), |out|)
    ensures |buckets| == |layout| && forall s :: BucketAt(buckets, out, Vector(spans, |out|), layout, s, |out|)
  {
    ghost var v := Vector(spans, |out|);
    buckets := seq(|layout|, _ => []);
    var seg, seen, i := 0, 0, 0;
    while i < |out|
      invariant 0 <= i <= |out| && |buckets| == |layout| && seg >= 0 && seen >= 0 && InStep(layout, seg, seen)
      invariant Prefix(layout, seg) + seen == Prefix(v, i)
      invariant forall s :: BucketAt(buckets, out, v, layout, s, i)
    {
      var n := if spans.None? then 1 else spans.value[i];
      seg, seen := Advance(layout, seg, seen);
      AtOwner(layout, v, seg, seen, i);
      ghost var was := buckets;
      buckets := buckets[seg := buckets[seg] + [out[i]]];
      OneMore(was, buckets, out, v, layout, seg, i, i + 1);
      var k := 0;
      while k < n
        invariant 0 <= k <= n && seg >= 0 && seen >= 0 && InStep(layout, seg, seen) && (seg < |layout| - 1 ==> seen < layout[seg])
        invariant Prefix(layout, seg) + seen == Prefix(v, i) + k
      {
        seen := seen + 1;
        seg, seen := Advance(layout, seg, seen);
        k := k + 1;
      }
      i := i + 1;
    }
  }

  lemma OneMore(buckets: seq<seq<Word>>, after: seq<seq<Word>>, out: seq<Word>, v: seq<nat>, layout: seq<nat>, seg: nat, i: nat, next: nat)
    requires next == i + 1 <= |out| == |v| && |buckets| == |layout| && Owns(layout, seg, Prefix(v, i))
    requires after == buckets[seg := buckets[seg] + [out[i]]]
    requires forall s :: BucketAt(buckets, out, v, layout, s, i)
    ensures forall s :: BucketAt(after, out, v, layout, s, next)
  {
    forall s ensures BucketAt(after, out, v, layout, s, next) {
      assert BucketAt(buckets, out, v, layout, s, i);
      if 0 <= s < |layout| && Owns(layout, s, Prefix(v, i)) { OneOwner(layout, s, seg, Prefix(v, i)); }
    }
  }

  /** Advance over the segments whose words are all seen, but never past the last. */
  method Advance(layout: seq<nat>, seg: nat, seen: nat) returns (s: nat, n: nat)
    requires InStep(layout, seg, seen)
    ensures InStep(layout, s, n) && (s < |layout| - 1 ==> n < layout[s])
    ensures Prefix(layout, s) + n == Prefix(layout, seg) + seen
  {
    s, n := seg, seen;
    while s < |layout| - 1 && n >= layout[s]
      invariant InStep(layout, s, n) && Prefix(layout, s) + n == Prefix(layout, seg) + seen
    {
      s := s + 1;
      n := 0;
    }
  }

  lemma AtOwner(layout: seq<nat>, v: seq<nat>, seg: nat, seen: nat, i: nat)
    requires seg < |layout| && i < |v| && Positive(v) && Prefix(v, |v|) == Prefix(layout, |layout|)
    requires Prefix(layout, seg) + seen == Prefix(v, i) && (seg < |layout| - 1 ==> seen < layout[seg])
    ensures Owns(layout, seg, Prefix(v, i))
  {
    StrictlyGrows(v, i, |v|);
  }

  // --- every word once, in order ------------------------------------------------

  function Concat(buckets: seq<seq<Word>>, n: nat): seq<Word>
    requires n <= |buckets|
  {
    if n == 0 then [] else Concat(buckets, n - 1) + buckets[n - 1]
  }

  lemma {:induction false} ConcatOfEmpty(buckets: seq<seq<Word>>, a: nat, n: nat)
    requires a <= n <= |buckets| && forall s :: a <= s < n ==> buckets[s] == []
    ensures Concat(buckets, n) == Concat(buckets, a)
  {
    if a < n { ConcatOfEmpty(buckets, a, n - 1); }
  }

  lemma {:induction false} ConcatOfSame(a: seq<seq<Word>>, b: seq<seq<Word>>, n: nat)
    requires n <= |a| && n <= |b| && forall s :: 0 <= s < n ==> a[s] == b[s]
    ensures Concat(a, n) == Concat(b, n)
  {
    if n > 0 { ConcatOfSame(a, b, n - 1); }
  }

  /** The segment that owns the c-th original word. */
  lemma {:induction false} SomeOwner(layout: seq<nat>, c: nat, n: nat) returns (s: nat)
    requires n <= |layout| && c < Prefix(layout, n)
    ensures s < n && Owns(layout, s, c)
  {
    if c >= Prefix(layout, n - 1) { s := n - 1; } else { s := SomeOwner(layout, c, n - 1); }
  }

  function Selected(out: seq<Word>, v: seq<nat>, layout: seq<nat>, n: nat): (b: seq<seq<Word>>)
    requires n <= |out| == |v|
  {
    seq(|layout|, s => Select(out, v, layout, s, n))
  }

  /** Nothing after the owner of a word has words yet. */
  lemma {:induction false} LaterIsEmpty(out: seq<Word>, v: seq<nat>, layout: seq<nat>, s: nat, n: nat, c: nat)
    requires n <= |out| == |v| && s < |layout| && c < Prefix(layout, s) && (forall i :: 0 <= i < n ==> Prefix(v, i) <= c)
    ensures Select(out, v, layout, s, n) == []
  {
    if n > 0 { LaterIsEmpty(out, v, layout, s, n - 1, c); }
  }

  lemma ConcatGrows(before: seq<seq<Word>>, q: nat, w: Word)
    requires q < |before| && forall s :: q < s < |before| ==> before[s] == []
    ensures Concat(before[q := before[q] + [w]], |before|) == Concat(before, |before|) + [w]
  {
    var after := before[q := before[q] + [w]];
    ConcatOfEmpty(before, q + 1, |before|);
    ConcatOfEmpty(after, q + 1, |after|);
    ConcatOfSame(before, after, q);
    assert Concat(after, q + 1) == Concat(before, q) + (before[q] + [w]);
  }

  /** Every output word is in exactly one segment, and the segments hold them in order. */
  lemma {:induction false} EveryWordOnce(out: seq<Word>, v: seq<nat>, layout: seq<nat>, n: nat)
    requires n <= |out| && Covers(v, Prefix(layout, |layout|), |out|)
    ensures Concat(Selected(out, v, layout, n), |layout|) == out[..n]
  {
    var after := Selected(out, v, layout, n);
    if n == 0 {
      ConcatOfEmpty(after, 0, |layout|);
    } else {
      var before, c := Selected(out, v, layout, n - 1), Prefix(v, n - 1);
      StrictlyGrows(v, n - 1, |v|);
      var q := SomeOwner(layout, c, |layout|);
      EveryWordOnce(out, v, layout, n - 1);
      assert after == before[q := before[q] + [out[n - 1]]] by {
        forall s | 0 <= s < |layout| ensures after[s] == before[q := before[q] + [out[n - 1]]][s] {
          if Owns(layout, s, c) { OneOwner(layout, s, q, c); }
        }
      }
      forall s | q < s < |layout| ensures before[s] == [] {
        forall i | 0 <= i < n - 1 ensures Prefix(v, i) <= c { PrefixGrows(v, i, n - 1); }
        PrefixGrows(layout, q + 1, s);
        LaterIsEmpty(out, v, layout, s, n - 1, c);
      }
      ConcatGrows(before, q, out[n - 1]);
      assert out[..n] == out[..n - 1] + [out[n - 1]];
    }
  }

  // --- the segments again ----------------------------------------------------------

  /** retime: the outer edges stay unless a word fell outside them. */
  method Retime(s: Segment) returns (r: Segment)
    ensures r == s.(start := r.start, end := r.end)
    ensures r.start <= s.start && (s.words != [] ==> r.start <= s.words[0].start)
    ensures r.start == s.start || (s.words != [] && r.start == s.words[0].start)
    ensures r.end >= s.end && (s.words != [] ==> r.end >= s.words[|s.words| - 1].end)
    ensures r.end == s.end || (s.words != [] && r.end == s.words[|s.words| - 1].end)
  {
    r := s;
    if |s.words| == 0 {
      return;
    }
    if s.words[0].start < r.start {
      r := r.(start := s.words[0].start);
    }
    if s.words[|s.words| - 1].end > r.end {
      r := r.(end := s.words[|s.words| - 1].end);
    }
  }

  /** r is s with the words ws and edges that take them in. */
  ghost predicate Dressed(r: Segment, s: Segment, ws: seq<Word>) {
    && r.words == ws && r.text == Text(ws) && r.confidence == Average(ws) && r.channel == s.channel && r.speaker == s.speaker
    && (ws != [] ==>
          && r.start == (if ws[0].start < s.start then ws[0].start else s.start)
          && r.end == (if ws[|ws| - 1].end > s.end then ws[|ws| - 1].end else s.end))
  }

  method Dress(s: Segment, ws: seq<Word>) returns (r: Segment)
    ensures Dressed(r, s, ws)
  {
    var avg := AverageConfidence(ws);
    r := Retime(s.(words := ws, text := Text(ws), confidence := avg));
  }

  /** The segments of the first n that have words left. */
  function Left(buckets: seq<seq<Word>>, n: nat): (l: seq<nat>)
    requires n <= |buckets|
  {
    if n == 0 then [] else Left(buckets, n - 1) + if buckets[n - 1] == [] then [] else [n - 1]
  }

  /** left names, in order, exactly those of the first n segments that have words. */
  ghost predicate HaveWords(left: seq<nat>, buckets: seq<seq<Word>>, n: nat)
    requires n <= |buckets|
  {
    && (forall k :: 0 <= k < |left| ==> left[k] < n && buckets[left[k]] != [])
    && (forall j, k :: 0 <= j < k < |left| ==> left[j] < left[k])
    && (forall s :: 0 <= s < n && buckets[s] != [] ==> s in left)
  }

  lemma {:induction false} LeftInOrder(buckets: seq<seq<Word>>, n: nat)
    requires n <= |buckets|
    ensures HaveWords(Left(buckets, n), buckets, n)
  {
    if n > 0 { LeftInOrder(buckets, n - 1); }
  }

  /** The k-th segment of the result comes from segment i. */
  ghost predicate RebuiltAt(result: seq<Segment>, left: seq<nat>, segs: seq<Segment>, buckets: seq<seq<Word>>, k: int) {
    0 <= k < |result| && k < |left| && left[k] < |segs| && left[k] < |buckets| ==>
      Dressed(result[k], segs[left[k]], buckets[left[k]])
  }

  method Rebuild(segs: seq<Segment>, buckets: seq<seq<Word>>) returns (result: seq<Segment>)
    requires |segs| == |buckets|
    ensures |result| == |Left(buckets, |buckets|)| && Flat(result) == Concat(buckets, |buckets|)
    ensures forall k :: RebuiltAt(result, Left(buckets, |buckets|), segs, buckets, k)
  {
    result := [];
    var i := 0;
    while i < |segs|
      invariant 0 <= i <= |segs| && |result| == |Left(buckets, i)| && Flat(result) == Concat(buckets, i)
      invariant forall k :: RebuiltAt(result, Left(buckets, i), segs, buckets, k)
    {
      var ws := buckets[i];
      if |ws| != 0 {
        var s := Dress(segs[i], ws);
        Another(result, Left(buckets, i), segs, buckets, i, s);
        result := result + [s];
      }
      assert Left(buckets, i + 1) == if |ws| != 0 then Left(buckets, i) + [i] else Left(buckets, i);
      i := i + 1;
    }
  }

  lemma Another(result: seq<Segment>, left: seq<nat>, segs: seq<Segment>, buckets: seq<seq<Word>>, i: nat, s: Segment)
    requires i < |segs| == |buckets| && |result| == |left| && Dressed(s, segs[i], buckets[i])
    requires forall k :: RebuiltAt(result, left, segs, buckets, k)
    ensures forall k :: RebuiltAt(result + [s], left + [i], segs, buckets, k)
    ensures Flat(result + [s]) == Flat(result) + buckets[i]
  {
    assert (result + [s])[..|result|] == result;
    forall k ensures RebuiltAt(result + [s], left + [i], segs, buckets, k) { assert RebuiltAt(result, left, segs, buckets, k); }
  }

  // --- order ----------------------------------------------------------------------

  /** One turn of enforceOrder: the segment after one that ends at e. */
  function Pushed(s: Segment, e: real): Segment {
    var start := if s.start < e then e else s.start;
    s.(start := start, end := if s.end < start then start else s.end)
  }

  ghost predicate PushedAt(now: seq<Segment>, was: seq<Segment>, i: int) {
    0 <= i < |now| == |was| ==> now[i] == if i == 0 then was[0] else Pushed(was[i], now[i - 1].end)
  }

  /** enforceOrder, in place. */
  method EnforceOrder(a: array<Segment>)
    modifies a
    ensures forall i :: PushedAt(a[..], old(a[..]), i)
  {
    ghost var was := a[..];
    var i := 0;
    while i + 1 < a.Length
      invariant 0 <= i && (a.Length > 0 ==> i < a.Length)
      invariant forall k :: i < k < a.Length ==> a[k] == was[k]
      invariant forall k :: k <= i ==> PushedAt(a[..], was, k)
    {
      ghost var before := a[..];
      if a[i + 1].start < a[i].end {
        a[i + 1] := a[i + 1].(start := a[i].end);
      }
      if a[i + 1].end < a[i + 1].start {
        a[i + 1] := a[i + 1].(end := a[i + 1].start);
      }
      forall k | k <= i + 1 ensures PushedAt(a[..], was, k) { if k <= i { assert PushedAt(before, was, k); } }
      i := i + 1;
    }
  }

  ghost predicate AllPushed(now: seq<Segment>, was: seq<Segment>) {
    |now| == |was| && forall i :: PushedAt(now, was, i)
  }

  /** Afterwards no segment overlaps a later one. */
  lemma {:induction false} NoOverlap(now: seq<Segment>, was: seq<Segment>, i: nat, j: nat)
    requires AllPushed(now, was) && i < j < |now|
    ensures now[i].end <= now[j].start <= now[j].end
  {
    assert PushedAt(now, was, j);
    if i < j - 1 { NoOverlap(now, was, i, j - 1); }
  }

  ghost predicate InLine(segs: seq<Segment>, j: int) {
    0 < j < |segs| ==> segs[j - 1].end <= segs[j].start <= segs[j].end
  }

  /** A segment is moved only as far as it has to be, and its words stay its own. */
  lemma {:induction false} PushedKeeps(now: seq<Segment>, was: seq<Segment>, i: nat)
    requires AllPushed(now, was) && i < |now|
    ensures now[i] == was[i].(start := now[i].start, end := now[i].end)
    ensures now[i].start >= was[i].start && now[i].end >= was[i].end
    ensures (forall j :: 0 < j <= i ==> InLine(was, j)) ==> now[i] == was[i]
  {
    assert PushedAt(now, was, i);
    if i > 0 {
      PushedKeeps(now, was, i - 1);
      if forall j :: 0 < j <= i ==> InLine(was, j) { assert InLine(was, i); }
    }
  }

  /** Segment k of the result is the k-th rebuilt one, pushed behind the one before it and numbered. */
  ghost predicate ResultAt(result: seq<Segment>, rebuilt: seq<Segment>, k: int) {
    0 <= k < |result| && k < |rebuilt| ==>
      result[k] == (if k == 0 then rebuilt[0] else Pushed(rebuilt[k], result[k - 1].end)).(id := k)
  }

  /** What scatter makes: the rewritten words, each once and in order, in the old segments that have words left, in their
   *  order, dressed in their words, pushed apart and numbered. */
  ghost predicate Scattered(result: seq<Segment>, rebuilt: seq<Segment>, segs: seq<Segment>, out: seq<Word>, v: seq<nat>)
    requires |out| == |v|
  {
    var buckets := Selected(out, v, Layout(segs), |out|);
    && Flat(result) == out
    && |result| == |rebuilt| == |Left(buckets, |segs|)|
    && HaveWords(Left(buckets, |segs|), buckets, |segs|)
    && (forall k :: RebuiltAt(rebuilt, Left(buckets, |segs|), segs, buckets, k))
    && (forall k :: ResultAt(result, rebuilt, k))
    && (forall i, j :: 0 <= i < j < |result| ==> result[i].end <= result[j].start <= result[j].end)
  }

  method Number(a: array<Segment>)
    modifies a
    ensures forall k :: 0 <= k < a.Length ==> a[k] == old(a[k]).(id := k)
  {
    var i := 0;
    while i < a.Length
      invariant 0 <= i <= a.Length
      invariant forall k :: 0 <= k < a.Length ==> a[k] == if k < i then old(a[k]).(id := k) else old(a[k])
    {
      a[i] := a[i].(id := i);
      i := i + 1;
    }
  }

  /** scatter */
  method Scatter(segs: seq<Segment>, out: seq<Word>, spans: Option<seq<nat>>, layout: seq<nat>)
    returns (result: seq<Segment>, ghost rebuilt: seq<Segment>)
    requires |segs| > 0 && layout == Layout(segs) && Covers(Vector(spans, |out|), |Flat(segs)|, |out|)
    ensures Scattered(result, rebuilt, segs, out, Vector(spans, |out|))
  {
    ghost var v := Vector(spans, |out|);
    LayoutCounts(segs);
    var buckets := Distribute(out, spans, layout);
    ghost var spec := Selected(out, v, layout, |out|);
    assert buckets == spec by {
      forall s | 0 <= s < |layout| ensures buckets[s] == spec[s] { assert BucketAt(buckets, out, v, layout, s, |out|); }
    }
    EveryWordOnce(out, v, layout, |out|);
    var kept := Rebuild(segs, buckets);
    rebuilt := kept;
    var a := new Segment[|kept|](i requires 0 <= i < |kept| => kept[i]);
    assert a[..] == kept;
    EnforceOrder(a);
    ghost var pushed := a[..];
    Number(a);
    result := a[..];
    Finished(result, pushed, rebuilt);
    LeftInOrder(spec, |segs|);
    assert out[..|out|] == out;
  }

  lemma Finished(result: seq<Segment>, pushed: seq<Segment>, rebuilt: seq<Segment>)
    requires AllPushed(pushed, rebuilt) && |result| == |pushed|
    requires forall k :: 0 <= k < |result| ==> result[k] == pushed[k].(id := k)
    ensures Flat(result) == Flat(rebuilt) && forall k :: ResultAt(result, rebuilt, k)
    ensures forall i, j :: 0 <= i < j < |result| ==> result[i].end <= result[j].start <= result[j].end
  {
    forall k | 0 <= k < |rebuilt| ensures result[k].words == rebuilt[k].words { PushedKeeps(pushed, rebuilt, k); }
    SameWordsSameFlat(result, rebuilt);
    forall k ensures ResultAt(result, rebuilt, k) { assert PushedAt(pushed, rebuilt, k); }
    forall i, j | 0 <= i < j < |result| ensures result[i].end <= result[j].start <= result[j].end { NoOverlap(pushed, rebuilt, i, j); }
  }

  /** Apply: nothing to do leaves the segments as they are; a failing chain fails; otherwise the chain's words. */
  method Apply(c: seq<Stage>, segs: seq<Segment>) returns (ok: bool, result: seq<Segment>)
    ensures c == [] || Flat(segs) == [] ==> ok && result == segs
    ensures c != [] && Flat(segs) != [] ==> (ok <==> SpanVectors.After(c, Flat(segs), |c|).Some?)
    ensures c != [] && Flat(segs) != [] && ok ==>
        var out := SpanVectors.After(c, Flat(segs), |c|).value;
        exists v, rebuilt :: |v| == |out| && Scattered(result, rebuilt, segs, out, v) && TracesAllBack(c, Flat(segs), |c|, v)
  {
    if |c| == 0 || |segs| == 0 {
      return true, segs;
    }
    var flat, layout := Flatten(segs);
    if |flat| == 0 {
      return true, segs;
    }
    var good, out, spans := SpanVectors.Apply(c, flat);
    if !good {
      return false, [];
    }
    ghost var rebuilt;
    result, rebuilt := Scatter(segs, out, spans, layout);
    return true, result;
  }

  // --- whose a word is --------------------------------------------------------------------

  /** Who owns the c-th original word has it. */
  lemma {:induction false} OwnerHasTheWord(segs: seq<Segment>, s: nat, c: nat)
    requires s < |segs| && Owns(Layout(segs), s, c)
    ensures c < |Flat(segs)| && c - Prefix(Layout(segs), s) < |segs[s].words| && Flat(segs)[c] == segs[s].words[c - Prefix(Layout(segs), s)]
  {
    var front := segs[..|segs| - 1];
    assert Layout(segs)[..|front|] == Layout(front);
    LayoutCounts(front);
    PrefixOfPart(Layout(segs), Layout(front), |front|);
    PrefixOfPart(Layout(segs), Layout(front), s);
    if s < |front| {
      var next := s + 1;
      PrefixOfPart(Layout(segs), Layout(front), next);
      OwnerHasTheWord(front, s, c);
    }
  }

  /** An output word is among the words of the segment whose original word was the first it replaces, and no other's. */
  lemma {:induction false} WordIsWithItsFirst(segs: seq<Segment>, out: seq<Word>, v: seq<nat>, n: nat, i: nat, s: nat)
    requires i < n <= |out| == |v| && s < |segs| && Owns(Layout(segs), s, Prefix(v, i))
    ensures out[i] in Select(out, v, Layout(segs), s, n)
    ensures |Select(out, v, Layout(segs), s, i + 1)| == |Select(out, v, Layout(segs), s, i)| + 1
    ensures forall other :: 0 <= other < |segs| && other != s ==> Select(out, v, Layout(segs), other, i + 1) == Select(out, v, Layout(segs), other, i)
  {
    forall other | 0 <= other < |segs| && other != s ensures !Owns(Layout(segs), other, Prefix(v, i)) {
      if Owns(Layout(segs), other, Prefix(v, i)) { OneOwner(Layout(segs), s, other, Prefix(v, i)); }
    }
    if i < n - 1 { WordIsWithItsFirst(segs, out, v, n - 1, i, s); }
  }

  /** A rebuilt segment has its new words, and times that take in theirs and its own and no more. */
  lemma DressedTakesIn(r: Segment, s: Segment, ws: seq<Word>)
    requires Dressed(r, s, ws) && ws != []
    ensures r.words == ws && r.start <= s.start && r.start <= ws[0].start && r.end >= s.end && r.end >= ws[|ws| - 1].end
    ensures r.start in {s.start, ws[0].start} && r.end in {s.end, ws[|ws| - 1].end}
  {}

  /** Nothing is moved further than it has to be: any times from the old ones on that overlap nowhere are later still. */
  lemma {:induction false} PushedIsTheLeast(now: seq<Segment>, was: seq<Segment>, other: seq<Segment>, i: nat)
    requires AllPushed(now, was) && |other| == |was| && i < |was|
    requires forall j :: 0 <= j < |was| ==> other[j].start >= was[j].start && other[j].end >= was[j].end
    requires forall j :: 0 < j < |was| ==> other[j - 1].end <= other[j].start <= other[j].end
    ensures now[i].start <= other[i].start && now[i].end <= other[i].end
  {
    assert PushedAt(now, was, i);
    if i > 0 { PushedIsTheLeast(now, was, other, i - 1); }
  }
}
