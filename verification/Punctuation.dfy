/** Putting a punctuated text back onto the words it came from: internal/postproc/punct.go. */
module Punctuation {
  import opened Options
  import opened Words
  import opened Letters

  /** The words' texts, one after the other. */
  function Joined(ws: seq<Word>): string {
    if ws == [] then "" else Joined(ws[..|ws| - 1]) + ws[|ws| - 1].text
  }

  ghost predicate WordKept(a: Alphabet, was: seq<Word>, now: seq<Word>, i: int) {
    0 <= i < |was| && i < |now| ==> now[i] == was[i].(text := now[i].text) && Core(a, now[i].text) == Core(a, was[i].text)
  }

  /** As many words, each with its times and its letters. */
  ghost predicate Kept(a: Alphabet, was: seq<Word>, now: seq<Word>) {
    |now| == |was| && forall i :: WordKept(a, was, now, i)
  }

  /** Each word has something to anchor it, and the text begins with the words' letters. */
  ghost predicate LinesUp(a: Alphabet, ws: seq<Word>, text: string) {
    (forall i :: 0 <= i < |ws| ==> Core(a, ws[i].text) != "") && Core(a, Joined(ws)) <= Core(a, text)
  }

  /** Where a word ends in the text: marks belong to the word before them. */
  ghost predicate AtEnd(a: Alphabet, text: string, pos: nat) {
    pos <= |text| && (pos < |text| ==> !a.Mark(text[pos]))
  }

  /** now is was, with the text up to pos dealt out to it. */
  ghost predicate DealtOut(a: Alphabet, was: seq<Word>, now: seq<Word>, text: string, pos: nat) {
    pos <= |text| && Kept(a, was, now) && Joined(now) == Dense(a, text[..pos]) && Core(a, text[..pos]) == Core(a, Joined(was))
  }

  /** From the letter at q on there are only marks up to p. */
  ghost predicate OnlyMarks(a: Alphabet, text: string, q: int, p: nat) {
    0 <= q < p <= |text| && a.Solid(text[q]) && forall j :: q < j < p ==> a.Mark(text[j])
  }

  /** A word ends behind its last letter and the marks that follow it without a space. */
  ghost predicate EndsAt(a: Alphabet, text: string, p: nat) {
    AtEnd(a, text, p) && exists q :: OnlyMarks(a, text, q, p)
  }

  /** Word i carries the text between its cuts, spaces aside. */
  ghost predicate SliceAt(a: Alphabet, was: seq<Word>, now: seq<Word>, text: string, cuts: seq<nat>, i: int) {
    0 <= i < |was| && i < |now| && i + 1 < |cuts| ==>
      && cuts[i] < cuts[i + 1] <= |text| && EndsAt(a, text, cuts[i + 1])
      && now[i] == was[i].(text := Dense(a, text[cuts[i]..cuts[i + 1]]))
      && Core(a, text[cuts[i]..cuts[i + 1]]) == Core(a, was[i].text)
  }

  /** The text is cut once a word, each cut where its word ends. */
  ghost predicate Sliced(a: Alphabet, was: seq<Word>, now: seq<Word>, text: string, cuts: seq<nat>) {
    && |now| == |was| && |cuts| == |was| + 1 && cuts[0] == 0 && (forall i :: SliceAt(a, was, now, text, cuts, i))
    && DealtOut(a, was, now, text, cuts[|was|])
  }

  /** From from to pos the text holds no letter, and b is everything since start but the spaces. */
  ghost predicate Skipped(a: Alphabet, src: string, start: nat, from: nat, pos: nat, b: string) {
    && start <= from <= pos <= |src| && b == Dense(a, src[start..pos])
    && Core(a, src[from..pos]) == "" && Core(a, src[from..]) == Core(a, src[pos..])
  }

  lemma SkipOn(a: Alphabet, src: string, start: nat, from: nat, pos: nat, b: string)
    requires Skipped(a, src, start, from, pos, b) && pos < |src| && !a.Solid(src[pos])
    ensures Skipped(a, src, start, from, pos + 1, b + if a.isSpace(src[pos]) then "" else [src[pos]])
  {
    OneMore(a, src, from, pos);
    OneMore(a, src, start, pos);
  }

  /** The next letter of the text is at pos, and is the wanted one or is not. */
  lemma Meets(a: Alphabet, src: string, start: nat, from: nat, pos: nat, b: string, want: char)
    requires a.Sound() && Skipped(a, src, start, from, pos, b) && pos < |src| && a.Solid(src[pos])
    ensures [a.toLower(want)] <= Core(a, src[from..]) <==> a.Same(src[pos], want)
    ensures b + [src[pos]] == Dense(a, src[start..pos + 1]) && Core(a, src[from..pos + 1]) == [a.toLower(src[pos])]
  {
    OneMore(a, src, from, pos);
    OneMore(a, src, start, pos);
    assert Core(a, src[pos..])[0] == a.toLower(src[pos]);
  }

  lemma NothingAhead(a: Alphabet, src: string, start: nat, from: nat, b: string)
    requires Skipped(a, src, start, from, |src|, b)
    ensures Core(a, src[from..]) == ""
  {
    assert src[|src|..] == "";
  }

  /** The walk to one wanted letter. Marks on the way are the word's. */
  method SkipTo(a: Alphabet, want: char, src: string, from: nat, b: string, ghost start: nat) returns (ok: bool, text: string, pos: nat)
    requires a.Sound() && a.Solid(want) && start <= from <= |src| && b == Dense(a, src[start..from])
    ensures ok <==> [a.toLower(want)] <= Core(a, src[from..])
    ensures ok ==> from < pos <= |src| && text == Dense(a, src[start..pos]) && Core(a, src[from..pos]) == [a.toLower(want)] && a.Solid(src[pos - 1])
  {
    pos, text := from, b;
    assert src[from..from] == "";
    while pos < |src| && !a.Same(src[pos], want)
      invariant Skipped(a, src, start, from, pos, text)
      decreases |src| - pos
    {
      if a.isSpace(src[pos]) {
        SkipOn(a, src, start, from, pos, text);
        pos := pos + 1;
        continue;
      }
      if a.Solid(src[pos]) {
        Meets(a, src, start, from, pos, text, want);
        return false, "", pos;
      }
      SkipOn(a, src, start, from, pos, text);
      text := text + [src[pos]];
      pos := pos + 1;
    }
    if pos >= |src| {
      NothingAhead(a, src, start, from, text);
      return false, "", pos;
    }
    assert a.Same(want, src[pos]);
    Meets(a, src, start, from, pos, text, want);
    return true, text + [src[pos]], pos + 1;
  }

  lemma {:induction false} CoreIsDense(a: Alphabet, s: string)
    requires a.Sound() && Dense(a, s) == ""
    ensures Core(a, s) == ""
  {
    if s != "" { CoreIsDense(a, s[1..]); }
  }

  /** Leaving out the spaces leaves out no letter. */
  lemma {:induction false} CoreOfDense(a: Alphabet, s: string)
    requires a.Sound()
    ensures Core(a, Dense(a, s)) == Core(a, s)
  {
    if s != "" {
      CoreOfDense(a, s[1..]);
      var first := if a.isSpace(s[0]) then "" else [s[0]];
      CoreAppend(a, first, Dense(a, s[1..]));
      assert Core(a, first) == if a.Solid(s[0]) then [a.toLower(s[0])] else "";
    }
  }

  /** A wanted letter the text does not come to next keeps the whole word from lining up. */
  lemma TooFar(done: string, want: char, rest: string, ahead: string)
    requires !([want] <= ahead)
    ensures !(done + ([want] + rest) <= done + ahead)
  {
    PrefixAfter(done, [want] + rest, ahead);
    PrefixOfPrefix([want], rest, ahead);
  }

  lemma PrefixOfPrefix(x: string, y: string, z: string)
    ensures x + y <= z ==> x <= z
  {
    if x + y <= z { assert z[..|x|] == (x + y)[..|x|] == x; }
  }

  /** One word of reattach, without its trailing marks. */
  method MatchWord(a: Alphabet, word: string, src: string, from: nat) returns (ok: bool, text: string, pos: nat)
    requires a.Sound() && from <= |src|
    ensures ok <==> Core(a, word) != "" && Core(a, word) <= Core(a, src[from..])
    ensures ok ==> from < pos <= |src| && text == Dense(a, src[from..pos]) && Core(a, src[from..pos]) == Core(a, word) && a.Solid(src[pos - 1])
  {
    pos, text := from, "";
    var i := 0;
    while i < |word|
      invariant 0 <= i <= |word| && from <= pos <= |src| && text == Dense(a, src[from..pos])
      invariant Core(a, src[from..pos]) == Core(a, word[..i]) && (Core(a, word[..i]) == "" ==> pos == from)
      invariant pos > from ==> a.Solid(src[pos - 1])
    {
      OneMore(a, word, 0, i);
      assert word[0..i + 1] == word[..i + 1] && word[0..i] == word[..i];
      if a.Solid(word[i]) {
        ghost var at := pos;
        ok, text, pos := SkipTo(a, word[i], src, pos, text, from);
        if !ok {
          Diverged(a, word, i, src, from, at);
          return false, "", pos;
        }
        Stretch(a, src, from, at, pos);
      }
      i := i + 1;
    }
    assert word[..i] == word;
    if |text| == 0 {
      CoreIsDense(a, src[from..pos]);
      return false, "", pos;
    }
    ok := true;
    Stretch(a, src, from, pos, |src|);
    assert src[from..|src|] == src[from..];
  }

  lemma Diverged(a: Alphabet, word: string, i: nat, src: string, from: nat, at: nat)
    requires i < |word| && a.Solid(word[i]) && from <= at <= |src|
    requires Core(a, src[from..at]) == Core(a, word[..i]) && !([a.toLower(word[i])] <= Core(a, src[at..]))
    ensures !(Core(a, word) <= Core(a, src[from..]))
  {
    Stretch(a, src, from, at, |src|);
    assert src[from..|src|] == src[from..] && src[at..|src|] == src[at..];
    Stretch(a, word, 0, i, |word|);
    assert word[0..|word|] == word && word[i..|word|] == word[i..] && word[0..i] == word[..i];
    OneMore(a, word, 0, i);
    TooFar(Core(a, word[..i]), a.toLower(word[i]), Core(a, word[i + 1..]), Core(a, src[at..]));
  }

  /** Trailing marks belong to this word, not to the next one. */
  method TakeMarks(a: Alphabet, b: string, src: string, from: nat, ghost start: nat) returns (text: string, pos: nat)
    requires start <= from <= |src| && b == Dense(a, src[start..from])
    ensures from <= pos && AtEnd(a, src, pos) && (forall j :: from <= j < pos ==> a.Mark(src[j]))
    ensures text == Dense(a, src[start..pos]) && Core(a, src[start..pos]) == Core(a, src[start..from])
  {
    text, pos := b, from;
    while pos < |src| && a.Mark(src[pos])
      invariant from <= pos <= |src| && text == Dense(a, src[start..pos]) && Core(a, src[start..pos]) == Core(a, src[start..from])
      invariant forall j :: from <= j < pos ==> a.Mark(src[j])
    {
      OneMore(a, src, start, pos);
      text := text + [src[pos]];
      pos := pos + 1;
    }
  }

  lemma DealAnother(a: Alphabet, ws: seq<Word>, now: seq<Word>, i: nat, src: string, from: nat, text: string, pos: nat)
    requires a.Sound() && i < |ws| && DealtOut(a, ws[..i], now, src, from) && from <= pos <= |src|
    requires text == Dense(a, src[from..pos]) && Core(a, src[from..pos]) == Core(a, ws[i].text)
    ensures DealtOut(a, ws[..i + 1], now + [ws[i].(text := text)], src, pos)
  {
    var was, longer := ws[..i + 1], now + [ws[i].(text := text)];
    assert was[..i] == ws[..i] && longer[..i] == now;
    Stretch(a, src, 0, from, pos);
    assert src[0..pos] == src[..pos] && src[0..from] == src[..from];
    CoreAppend(a, Joined(ws[..i]), ws[i].text);
    CoreOfDense(a, src[from..pos]);
    forall k ensures WordKept(a, was, longer, k) { assert WordKept(a, ws[..i], now, k); }
  }

  /** When the words line up with the text, the next word lines up with what is ahead. */
  lemma NextLinesUp(a: Alphabet, ws: seq<Word>, now: seq<Word>, i: nat, src: string, from: nat)
    requires i < |ws| && DealtOut(a, ws[..i], now, src, from)
    ensures Core(a, Joined(ws)) <= Core(a, src) ==> Core(a, ws[i].text) <= Core(a, src[from..])
  {
    assert ws == ws[..i] + ws[i..];
    JoinedAppend(ws[..i], ws[i..]);
    JoinedFirst(ws[i..]);
    var rest := Joined(ws[i + 1..]);
    assert ws[i..][1..] == ws[i + 1..];
    CoreAppend(a, Joined(ws[..i]), ws[i].text + rest);
    CoreAppend(a, ws[i].text, rest);
    CoreAppend(a, src[..from], src[from..]);
    assert src == src[..from] + src[from..];
    PrefixAfter(Core(a, src[..from]), Core(a, ws[i].text) + Core(a, rest), Core(a, src[from..]));
    PrefixOfPrefix(Core(a, ws[i].text), Core(a, rest), Core(a, src[from..]));
  }

  lemma {:induction false} JoinedAppend(x: seq<Word>, y: seq<Word>)
    ensures Joined(x + y) == Joined(x) + Joined(y)
  {
    if y == [] {
      assert x + y == x;
    } else {
      assert (x + y)[..|x + y| - 1] == x + y[..|y| - 1];
      JoinedAppend(x, y[..|y| - 1]);
    }
  }

  lemma JoinedFirst(ws: seq<Word>)
    requires ws != []
    ensures Joined(ws) == ws[0].text + Joined(ws[1..])
  {
    assert ws == [ws[0]] + ws[1..];
    JoinedAppend([ws[0]], ws[1..]);
    assert [ws[0]][..0] == [];
  }

  lemma AllDealt(a: Alphabet, ws: seq<Word>, now: seq<Word>, src: string, pos: nat)
    requires DealtOut(a, ws, now, src, pos) && forall i :: 0 <= i < |ws| ==> Core(a, ws[i].text) != ""
    ensures LinesUp(a, ws, src)
  {
    assert src == src[..pos] + src[pos..];
    CoreAppend(a, src[..pos], src[pos..]);
  }

  /** One word more is cut off. */
  lemma SliceAnother(a: Alphabet, ws: seq<Word>, now: seq<Word>, i: nat, src: string, cuts: seq<nat>, text: string, pos: nat)
    requires a.Sound() && i < |ws| && Sliced(a, ws[..i], now, src, cuts) && cuts[i] < pos <= |src| && EndsAt(a, src, pos)
    requires text == Dense(a, src[cuts[i]..pos]) && Core(a, src[cuts[i]..pos]) == Core(a, ws[i].text)
    ensures Sliced(a, ws[..i + 1], now + [ws[i].(text := text)], src, cuts + [pos])
  {
    DealAnother(a, ws, now, i, src, cuts[i], text, pos);
    var was, longer, more := ws[..i + 1], now + [ws[i].(text := text)], cuts + [pos];
    forall k ensures SliceAt(a, was, longer, src, more, k) { assert SliceAt(a, ws[..i], now, src, cuts, k); }
  }

  /** reattach: it succeeds exactly when the words line up with the text; then the words keep their number, times and
   *  letters, and each carries its slice of the text, spaces aside, the slices following one another. */
  method Reattach(a: Alphabet, ws: seq<Word>, punctuated: string) returns (ok: bool, out: seq<Word>, ghost cuts: seq<nat>)
    requires a.Sound()
    ensures ok <==> LinesUp(a, ws, punctuated)
    ensures ok ==> Sliced(a, ws, out, punctuated, cuts)
  {
    var at, i := 0, 0;
    out, cuts := [], [0];
    while i < |ws|
      invariant 0 <= i <= |ws| && Sliced(a, ws[..i], out, punctuated, cuts) && at == cuts[i]
      invariant forall k :: 0 <= k < i ==> Core(a, ws[k].text) != ""
    {
      var good, text, letters := MatchWord(a, ws[i].text, punctuated, at);
      if !good {
        NextLinesUp(a, ws, out, i, punctuated, at);
        return false, [], [];
      }
      var end;
      text, end := TakeMarks(a, text, punctuated, letters, at);
      assert OnlyMarks(a, punctuated, letters - 1, end);
      SliceAnother(a, ws, out, i, punctuated, cuts, text, end);
      out := out + [ws[i].(text := text)];
      at, cuts := end, cuts + [end];
      i := i + 1;
    }
    assert ws[..i] == ws;
    AllDealt(a, ws, out, punctuated, at);
    ok := true;
  }

  lemma {:induction false} HasLetter(a: Alphabet, s: string, i: nat)
    requires i < |s| && a.Solid(s[i])
    ensures Core(a, s) != ""
  {
    if i > 0 { HasLetter(a, s[1..], i - 1); }
  }

  /** A word that has its letters ends in one place only. */
  lemma OneEnd(a: Alphabet, text: string, from: nat, p: nat, r: nat)
    requires from <= p < r <= |text| && AtEnd(a, text, p) && EndsAt(a, text, r)
    ensures Core(a, text[from..p]) != Core(a, text[from..r])
  {
    var q :| OnlyMarks(a, text, q, r);
    assert q >= p;
    HasLetter(a, text[p..r], q - p);
    Stretch(a, text, from, p, r);
  }

  lemma SameEnd(a: Alphabet, text: string, from: nat, p: nat, r: nat)
    requires from < p <= |text| && from < r <= |text| && EndsAt(a, text, p) && EndsAt(a, text, r)
    requires Core(a, text[from..p]) == Core(a, text[from..r])
    ensures p == r
  {
    if p < r { OneEnd(a, text, from, p, r); }
    if r < p { OneEnd(a, text, from, r, p); }
  }

  /** The cuts, and with them the words, are determined by the text. */
  lemma {:induction false} CutsAreDetermined(a: Alphabet, was: seq<Word>, now: seq<Word>, other: seq<Word>, text: string, c: seq<nat>, d: seq<nat>, i: nat)
    requires Sliced(a, was, now, text, c) && Sliced(a, was, other, text, d) && i <= |was|
    ensures c[..i + 1] == d[..i + 1] && now[..i] == other[..i]
  {
    if i == 0 {
      assert c[..1] == [0] && d[..1] == [0];
    } else {
      CutsAreDetermined(a, was, now, other, text, c, d, i - 1);
      assert c[i - 1] == c[..i][i - 1] == d[..i][i - 1] == d[i - 1];
      SameSlice(a, was, now, other, text, c, d, i - 1);
      assert c[..i + 1] == c[..i] + [c[i]] && d[..i + 1] == d[..i] + [d[i]];
      assert now[..i] == now[..i - 1] + [now[i - 1]] && other[..i] == other[..i - 1] + [other[i - 1]];
    }
  }

  lemma SameSlice(a: Alphabet, was: seq<Word>, now: seq<Word>, other: seq<Word>, text: string, c: seq<nat>, d: seq<nat>, i: nat)
    requires Sliced(a, was, now, text, c) && Sliced(a, was, other, text, d) && i < |was| && c[i] == d[i]
    ensures c[i + 1] == d[i + 1] && now[i] == other[i]
  {
    assert SliceAt(a, was, now, text, c, i) && SliceAt(a, was, other, text, d, i);
    SameEnd(a, text, c[i], c[i + 1], d[i + 1]);
  }

  /** A model that changes nothing but case, spacing and marks always lines up, if every word has a letter or digit. */
  lemma MarksAndCapitalsLineUp(a: Alphabet, ws: seq<Word>, text: string)
    requires Core(a, text) == Core(a, Joined(ws)) && forall i :: 0 <= i < |ws| ==> Core(a, ws[i].text) != ""
    ensures LinesUp(a, ws, text)
  {}

  /** The spaces between the words carry no letter. */
  lemma {:induction false} TextHasTheLetters(a: Alphabet, ws: seq<Word>)
    requires a.Sound() && a.isSpace(' ')
    ensures Core(a, Text(ws)) == Core(a, Joined(ws))
  {
    if |ws| == 1 {
      assert Joined(ws[..0]) == "" && Joined(ws) == "" + ws[0].text == ws[0].text;
    } else if |ws| > 1 {
      var front, last := ws[..|ws| - 1], ws[|ws| - 1];
      TextHasTheLetters(a, front);
      CoreAppend(a, Text(front) + " ", last.text);
      CoreAppend(a, Text(front), " ");
      CoreAppend(a, Joined(front), last.text);
      assert " "[1..] == "" && Core(a, " ") == "";
    }
  }

  /** However the model respells what it was given, in case, spaces and marks, it lines up when each word has a letter or
   *  digit, and only then. */
  lemma RespellingLinesUp(a: Alphabet, ws: seq<Word>, text: string)
    requires a.Sound() && a.isSpace(' ') && Respelled(a, Text(ws), text)
    ensures LinesUp(a, ws, text) <==> forall i :: 0 <= i < |ws| ==> Core(a, ws[i].text) != ""
  {
    RespelledHasTheLetters(a, Text(ws), text);
    TextHasTheLetters(a, ws);
    if forall i :: 0 <= i < |ws| ==> Core(a, ws[i].text) != "" { MarksAndCapitalsLineUp(a, ws, text); }
  }

  // --- the stage --------------------------------------------------------------------

  const CHUNK_WORDS: nat := 200
  const OVERLAP: nat := 20

  /** The model: the text with marks and capitals, or an error. */
  type Model = string -> Option<string>

  function ChunkEnd(n: nat, start: nat): nat { if start + CHUNK_WORDS < n then start + CHUNK_WORDS else n }

  function ContextStart(start: nat): nat { if start < OVERLAP then 0 else start - OVERLAP }

  /** What the model is given for the chunk at start. */
  function Chunk(ws: seq<Word>, start: nat): seq<Word>
    requires start <= |ws|
  {
    ws[ContextStart(start)..ChunkEnd(|ws|, start)]
  }

  function Heard(model: Model, ws: seq<Word>, start: nat): Option<string>
    requires start <= |ws|
  {
    model(Text(Chunk(ws, start)))
  }

  function Start(k: nat): nat { CHUNK_WORDS * k }

  /** The model has an answer for the k-th chunk, if there is one. */
  predicate HeardAt(model: Model, ws: seq<Word>, k: nat) {
    Start(k) < |ws| ==> Heard(model, ws, Start(k)).Some?
  }

  /** The words of the chunk at start: the model's, or its own where the model lost the thread. */
  ghost predicate ChunkAt(a: Alphabet, model: Model, ws: seq<Word>, out: seq<Word>, k: int) {
    k >= 0 ==>
    var start := Start(k);
    start < |ws| && ChunkEnd(|ws|, start) <= |out| ==>
      && Heard(model, ws, start).Some?
      && exists got :: ChunkGot(a, Chunk(ws, start), Heard(model, ws, start).value, got)
                       && out[start..ChunkEnd(|ws|, start)] == got[start - ContextStart(start)..]
  }

  ghost predicate ChunkGot(a: Alphabet, chunk: seq<Word>, text: string, got: seq<Word>) {
    && |got| == |chunk|
    && if LinesUp(a, chunk, text) then exists cuts :: Sliced(a, chunk, got, text, cuts) else got == chunk
  }

  lemma KeptItself(a: Alphabet, ws: seq<Word>)
    ensures Kept(a, ws, ws)
  {
    forall i ensures WordKept(a, ws, ws, i) {}
  }

  lemma GotIsKept(a: Alphabet, chunk: seq<Word>, text: string, got: seq<Word>)
    requires ChunkGot(a, chunk, text, got)
    ensures Kept(a, chunk, got)
  {
    KeptItself(a, chunk);
  }

  /** One turn of the stage's loop. */
  method OneChunk(a: Alphabet, model: Model, ws: seq<Word>, start: nat) returns (ok: bool, got: seq<Word>)
    requires a.Sound() && start < |ws|
    ensures ok <==> Heard(model, ws, start).Some?
    ensures ok ==> ChunkGot(a, Chunk(ws, start), Heard(model, ws, start).value, got)
  {
    var chunk := Chunk(ws, start);
    var text := model(Text(chunk));
    if text.None? {
      return false, [];
    }
    var good, words, cuts := Reattach(a, chunk, text.value);
    ok, got := true, if good then words else chunk;
    if good { assert Sliced(a, chunk, got, text.value, cuts); }
  }

  /** Punctuator.Apply: unless the model fails, as many words as before, each with its own times and letters. */
  method Apply(a: Alphabet, model: Model, ws: seq<Word>) returns (ok: bool, out: seq<Word>)
    requires a.Sound()
    ensures ok <==> forall k: nat :: HeardAt(model, ws, k)
    ensures ok ==> Kept(a, ws, out) && forall k :: ChunkAt(a, model, ws, out, k)
  {
    out := [];
    var start := 0;
    ghost var k := 0;
    while start < |ws|
      invariant 0 <= k && start == (if Start(k) < |ws| then Start(k) else |ws|)
      invariant Kept(a, ws[..start], out)
      invariant forall j: nat :: j < k ==> HeardAt(model, ws, j)
      invariant ChunksBelow(a, model, ws, out, k)
      decreases |ws| - start
    {
      var good, got := OneChunk(a, model, ws, start);
      if !good {
        assert !HeardAt(model, ws, k);
        return false, [];
      }
      assert HeardAt(model, ws, k);
      var end := ChunkEnd(|ws|, start);
      ghost var was := out;
      out := out + got[start - ContextStart(start)..];
      Grown(a, model, ws, was, out, k, got);
      start := end;
      k := k + 1;
    }
    assert ws[..start] == ws;
    forall j: nat ensures HeardAt(model, ws, j) { if j >= k { assert Start(k) <= Start(j); } }
    forall j ensures ChunkAt(a, model, ws, out, j) { if j < k { assert ChunkAt(a, model, ws, out, j); } }
    ok := true;
  }

  ghost predicate ChunksBelow(a: Alphabet, model: Model, ws: seq<Word>, out: seq<Word>, k: nat) {
    forall j :: j < k ==> ChunkAt(a, model, ws, out, j)
  }

  lemma Grown(a: Alphabet, model: Model, ws: seq<Word>, was: seq<Word>, out: seq<Word>, k: nat, got: seq<Word>)
    requires Start(k) < |ws| && Heard(model, ws, Start(k)).Some?
    requires Kept(a, ws[..Start(k)], was) && ChunksBelow(a, model, ws, was, k)
    requires ChunkGot(a, Chunk(ws, Start(k)), Heard(model, ws, Start(k)).value, got)
    requires out == was + got[Start(k) - ContextStart(Start(k))..]
    ensures Kept(a, ws[..ChunkEnd(|ws|, Start(k))], out) && ChunksBelow(a, model, ws, out, k + 1)
  {
    var start := Start(k);
    var end, ctx := ChunkEnd(|ws|, start), ContextStart(start);
    GotIsKept(a, Chunk(ws, start), Heard(model, ws, start).value, got);
    KeptOn(a, ws, start, end, ctx, was, got, out);
    ThisChunk(a, model, ws, was, out, k, got);
    assert out[..|was|] == was;
    AllChunks(a, model, ws, was, out, k);
  }

  lemma AllChunks(a: Alphabet, model: Model, ws: seq<Word>, was: seq<Word>, out: seq<Word>, k: nat)
    requires ChunksBelow(a, model, ws, was, k) && ChunkAt(a, model, ws, out, k)
    requires |was| == Start(k) && |was| <= |out| && was == out[..|was|]
    ensures ChunksBelow(a, model, ws, out, k + 1)
  {
    forall j | j < k + 1 ensures ChunkAt(a, model, ws, out, j) {
      if 0 <= j < k { EarlierChunk(a, model, ws, was, out, j, Start(k)); }
    }
  }

  lemma ThisChunk(a: Alphabet, model: Model, ws: seq<Word>, was: seq<Word>, out: seq<Word>, k: nat, got: seq<Word>)
    requires Start(k) < |ws| && Heard(model, ws, Start(k)).Some? && |was| == Start(k)
    requires ChunkGot(a, Chunk(ws, Start(k)), Heard(model, ws, Start(k)).value, got)
    requires out == was + got[Start(k) - ContextStart(Start(k))..]
    ensures ChunkAt(a, model, ws, out, k)
  {
    var start := Start(k);
    TailIs(was, got[start - ContextStart(start)..]);
    OwnWords(a, model, ws, out, k, got);
  }

  lemma TailIs(was: seq<Word>, own: seq<Word>)
    ensures (was + own)[|was|..|was| + |own|] == own
  {}

  lemma OwnWords(a: Alphabet, model: Model, ws: seq<Word>, out: seq<Word>, k: nat, got: seq<Word>)
    requires Start(k) < |ws| && Heard(model, ws, Start(k)).Some? && ChunkEnd(|ws|, Start(k)) <= |out|
    requires ChunkGot(a, Chunk(ws, Start(k)), Heard(model, ws, Start(k)).value, got)
    requires out[Start(k)..ChunkEnd(|ws|, Start(k))] == got[Start(k) - ContextStart(Start(k))..]
    ensures ChunkAt(a, model, ws, out, k)
  {}

  lemma KeptOn(a: Alphabet, ws: seq<Word>, start: nat, end: nat, ctx: nat, was: seq<Word>, got: seq<Word>, out: seq<Word>)
    requires ctx <= start <= end <= |ws| && Kept(a, ws[..start], was) && Kept(a, ws[ctx..end], got) && out == was + got[start - ctx..]
    ensures Kept(a, ws[..end], out)
  {
    forall i ensures WordKept(a, ws[..end], out, i) {
      assert WordKept(a, ws[..start], was, i) && WordKept(a, ws[ctx..end], got, i - ctx);
    }
  }

  lemma EarlierChunk(a: Alphabet, model: Model, ws: seq<Word>, was: seq<Word>, out: seq<Word>, j: nat, start: nat)
    requires ChunkAt(a, model, ws, was, j) && Start(j + 1) <= start <= |was| <= |out| && was == out[..|was|]
    ensures ChunkAt(a, model, ws, out, j)
  {
    var end := ChunkEnd(|ws|, Start(j));
    if Start(j) < |ws| { assert out[Start(j)..end] == was[Start(j)..end]; }
  }

  /** A word ends at a letter, a digit, a space or the end of the text, and behind its last letter or digit there are none
   *  of these: the marks that follow a word without a space are its own. */
  lemma WordsTakeTheirMarks(a: Alphabet, was: seq<Word>, now: seq<Word>, text: string, cuts: seq<nat>, i: nat) returns (q: nat)
    requires Sliced(a, was, now, text, cuts) && i < |was|
    ensures q < cuts[i + 1] <= |text| && (a.isLetter(text[q]) || a.isDigit(text[q]))
    ensures forall j :: q < j < cuts[i + 1] ==> !a.isLetter(text[j]) && !a.isDigit(text[j]) && !a.isSpace(text[j])
    ensures cuts[i + 1] < |text| ==> a.isLetter(text[cuts[i + 1]]) || a.isDigit(text[cuts[i + 1]]) || a.isSpace(text[cuts[i + 1]])
  {
    assert SliceAt(a, was, now, text, cuts, i);
    q :| OnlyMarks(a, text, q, cuts[i + 1]);
    assert forall j :: q < j < cuts[i + 1] ==> a.Mark(text[j]);
  }

  /** Every word is in one chunk of two hundred, which the model hears with the twenty words before it, or with what there
   *  is before it. */
  lemma EveryWordIsInOneChunk(n: nat, i: nat, k: nat)
    requires i < n
    ensures Start(k) <= i < ChunkEnd(n, Start(k)) <==> k == i / 200
    ensures Start(k) - ContextStart(Start(k)) == if k == 0 then 0 else 20
  {}
}
