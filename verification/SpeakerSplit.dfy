/** Cutting segments where the speaker changes: Split of internal/diarize/split.go. */
module SpeakerSplit {
  import opened Options
  import opened Words
  import opened SpeakerRuns

  const TIE_BREAK: real := 0.01

  /** What a word counts for its speaker. */
  function Vote(w: Word): real { (if w.end - w.start <= 0.0 then 0.0 else w.end - w.start) + TIE_BREAK }

  /** A speaker's votes among the first n words. */
  function Votes(ws: seq<Word>, speaker: string, n: nat): real
    requires n <= |ws|
  {
    if n == 0 then 0.0 else Votes(ws, speaker, n - 1) + if ws[n - 1].speaker == Some(speaker) then Vote(ws[n - 1]) else 0.0
  }

  /** Strings in Go's order. */
  predicate Less(a: string, b: string) {
    b != "" && (a == "" || a[0] < b[0] || (a[0] == b[0] && Less(a[1..], b[1..])))
  }

  lemma {:induction false} LessIsTotal(a: string, b: string)
    ensures Less(a, b) || Less(b, a) || a == b
    ensures !(Less(a, b) && Less(b, a)) && !Less(a, a)
  {
    if a != "" && b != "" {
      LessIsTotal(a[1..], b[1..]);
      if a[0] == b[0] && a[1..] == b[1..] { assert a == [a[0]] + a[1..] && b == [b[0]] + b[1..]; }
    }
    if a != "" { LessIsTotal(a[1..], a[1..]); }
  }

  lemma {:induction false} LessChains(a: string, b: string, c: string)
    requires Less(a, b) && Less(b, c)
    ensures Less(a, c)
  {
    if a != "" && a[0] == b[0] && b[0] == c[0] { LessChains(a[1..], b[1..], c[1..]); }
  }

  /** a, with its votes, comes before b. */
  predicate Beats(a: string, av: real, b: string, bv: real) { av > bv || (av == bv && Less(a, b)) }

  predicate Speaks(ws: seq<Word>, speaker: string) { exists i :: 0 <= i < |ws| && ws[i].speaker == Some(speaker) }

  /** The speaker who holds most of the time; of equals, the first by id. */
  ghost predicate Dominant(ws: seq<Word>, speaker: Option<string>) {
    match speaker
    case None => forall i :: 0 <= i < |ws| ==> ws[i].speaker.None?
    case Some(best) => Speaks(ws, best) && forall other :: NotBeaten(ws, best, other)
  }

  ghost predicate NotBeaten(ws: seq<Word>, best: string, other: string) {
    Speaks(ws, other) && other != best ==> Beats(best, Votes(ws, best, |ws|), other, Votes(ws, other, |ws|))
  }

  /** The order in which a map is walked does not matter: there is one dominant speaker. */
  lemma DominantIsOne(ws: seq<Word>, a: Option<string>, b: Option<string>)
    requires Dominant(ws, a) && Dominant(ws, b)
    ensures a == b
  {
    if a.Some? && b.Some? && a != b {
      assert NotBeaten(ws, a.value, b.value) && NotBeaten(ws, b.value, a.value);
      LessIsTotal(a.value, b.value);
    }
  }

  method CountVotes(ws: seq<Word>) returns (byId: map<string, real>)
    ensures forall id :: id in byId <==> Speaks(ws, id)
    ensures forall id :: id in byId ==> byId[id] == Votes(ws, id, |ws|) && byId[id] > 0.0
  {
    byId := map[];
    var i := 0;
    while i < |ws|
      invariant 0 <= i <= |ws|
      invariant forall id :: id in byId <==> exists j :: 0 <= j < i && ws[j].speaker == Some(id)
      invariant forall id :: (if id in byId then byId[id] else 0.0) == Votes(ws, id, i) && (id in byId ==> byId[id] > 0.0)
    {
      if ws[i].speaker.Some? {
        var id := ws[i].speaker.value;
        var sofar := if id in byId then byId[id] else 0.0;
        byId := byId[id := sofar + Vote(ws[i])];
      }
      i := i + 1;
    }
  }

  /** dominantSpeaker */
  method DominantSpeaker(ws: seq<Word>) returns (speaker: Option<string>)
    ensures Dominant(ws, speaker)
  {
    var byId := CountVotes(ws);
    if |byId| == 0 {
      forall i | 0 <= i < |ws| ensures ws[i].speaker.None? {
        assert ws[i].speaker.Some? ==> Speaks(ws, ws[i].speaker.value);
      }
      return None;
    }
    var best := Walk(byId);
    forall other ensures NotBeaten(ws, best, other) {}
    return Some(best);
  }

  /** The walk over the map, in whatever order. */
  method Walk(byId: map<string, real>) returns (best: string)
    requires |byId| > 0 && forall id :: id in byId ==> byId[id] > 0.0
    ensures best in byId && forall id :: id in byId && id != best ==> Beats(best, byId[best], id, byId[id])
  {
    var todo := byId.Keys;
    var bestTime := -1.0;
    best := "";
    while todo != {}
      invariant todo <= byId.Keys
      invariant if todo == byId.Keys then bestTime == -1.0 else best in byId && best !in todo && bestTime == byId[best]
      invariant forall id :: id in byId && id !in todo && id != best ==> Beats(best, bestTime, id, byId[id])
      decreases todo
    {
      var id :| id in todo;
      todo := todo - {id};
      if byId[id] > bestTime || (byId[id] == bestTime && Less(id, best)) {
        forall other | other in byId && other !in todo && other != id ensures Beats(id, byId[id], other, byId[other]) {
          if other != best && byId[other] == bestTime == byId[id] { LessChains(id, best, other); }
        }
        best, bestTime := id, byId[id];
      } else {
        LessIsTotal(id, best);
      }
    }
  }

  // --- one segment ------------------------------------------------------------------

  /** What child i of a segment cut into these runs is. */
  ghost predicate ChildAt(s: Segment, runs: seq<Run>, children: seq<Segment>, i: int) {
    0 <= i < |children| && i < |runs| && runs[i].from < runs[i].to <= |s.words| ==>
      var c, ws := children[i], s.words[runs[i].from..runs[i].to];
      && c.words == ws && c.text == Text(ws) && c.confidence == Average(ws) && c.channel == s.channel && Dominant(ws, c.speaker)
      && c.start == (if i == 0 then s.start else ws[0].start)
      && c.end == if i == |runs| - 1 then s.end else ws[|ws| - 1].end
  }

  /** A segment's pieces: itself, or a child for every one of several runs. */
  ghost predicate Pieces(s: Segment, runs: seq<Run>, out: seq<Segment>) {
    if |runs| <= 1 then
      && |out| == 1 && out[0] == s.(speaker := out[0].speaker)
      && (if s.words == [] then out[0] == s else Dominant(s.words, out[0].speaker))
    else |out| == |runs| && forall i :: ChildAt(s, runs, out, i)
  }

  /** splitOne */
  method SplitOne(s: Segment) returns (out: seq<Segment>)
    ensures Pieces(s, RunsOf(s.words), out)
  {
    RunsAreTurns(s.words);
    if |s.words| == 0 {
      return [s];
    }
    var cut := SpeakerRuns.SpeakerRuns(s.words);
    if |cut| <= 1 {
      var speaker := DominantSpeaker(s.words);
      return [s.(speaker := speaker)];
    }
    out := [];
    var i := 0;
    while i < |cut|
      invariant 0 <= i <= |cut| && |out| == i && (forall k :: ChildAt(s, cut, out, k))
    {
      InBounds(cut, |s.words|, i);
      var child := Child(s, cut, i);
      ghost var was := out;
      out := out + [child];
      forall k ensures ChildAt(s, cut, out, k) { assert ChildAt(s, cut, was, k); }
      i := i + 1;
    }
  }

  method Child(s: Segment, runs: seq<Run>, i: nat) returns (child: Segment)
    requires i < |runs| && runs[i].from < runs[i].to <= |s.words|
    ensures ChildAt(s, runs, seq(i + 1, _ => child), i)
  {
    var ws := s.words[runs[i].from..runs[i].to];
    var speaker := DominantSpeaker(ws);
    var avg := AverageConfidence(ws);
    child := Segment(0, ws[0].start, ws[|ws| - 1].end, Text(ws), s.channel, speaker, avg, ws);
    if i == 0 {
      child := child.(start := s.start);
    }
    if i == |runs| - 1 {
      child := child.(end := s.end);
    }
    assert seq(i + 1, _ => child)[i] == child;
  }

  /** The pieces hold the segment's words in order, begin where it began and end where it ended. */
  lemma PiecesCover(s: Segment, runs: seq<Run>, out: seq<Segment>)
    requires Partition(runs, |s.words|) && Pieces(s, runs, out)
    ensures out != [] && Flat(out) == s.words && out[0].start == s.start && out[|out| - 1].end == s.end
  {
    if |runs| <= 1 {
      assert out == [out[0]] && out[..0] == [];
    } else {
      FlatOfFirst(s, runs, out, |runs|);
      assert out[..|runs|] == out && s.words[..|s.words|] == s.words;
      OuterEdges(s, runs, out);
    }
  }

  lemma OuterEdges(s: Segment, runs: seq<Run>, out: seq<Segment>)
    requires Partition(runs, |s.words|) && |out| == |runs| > 1 && forall i :: ChildAt(s, runs, out, i)
    ensures out[0].start == s.start && out[|out| - 1].end == s.end
  {
    InBounds(runs, |s.words|, 0);
    InBounds(runs, |s.words|, |runs| - 1);
    assert ChildAt(s, runs, out, 0) && ChildAt(s, runs, out, |runs| - 1);
  }

  lemma {:induction false} FlatOfFirst(s: Segment, runs: seq<Run>, out: seq<Segment>, n: nat)
    requires Partition(runs, |s.words|) && |out| == |runs| && n <= |runs| && (forall i :: ChildAt(s, runs, out, i))
    requires n > 0 ==> runs[n - 1].to <= |s.words|
    ensures Flat(out[..n]) == if n == 0 then [] else s.words[..runs[n - 1].to]
  {
    if n > 0 {
      assert out[..n][..n - 1] == out[..n - 1];
      assert LinkAt(runs, n - 1) && LinkAt(runs, n - 2) && ChildAt(s, runs, out, n - 1);
      if n > 1 { InBounds(runs, |s.words|, n - 2); }
      FlatOfFirst(s, runs, out, n - 1);
      assert s.words[..runs[n - 1].from] + s.words[runs[n - 1].from..runs[n - 1].to] == s.words[..runs[n - 1].to];
    }
  }

  // --- the transcript ------------------------------------------------------------------

  lemma {:induction false} FlatAppend(a: seq<Segment>, b: seq<Segment>)
    ensures Flat(a + b) == Flat(a) + Flat(b)
  {
    if b == [] {
      assert a + b == a;
    } else {
      assert (a + b)[..|a + b| - 1] == a + b[..|b| - 1];
      FlatAppend(a, b[..|b| - 1]);
    }
  }

  /** The pieces of one segment: its words in order, its outer edges, and turns where there are several. */
  ghost predicate Cut(s: Segment, pieces: seq<Segment>) {
    && pieces != [] && Flat(pieces) == s.words && pieces[0].start == s.start && pieces[|pieces| - 1].end == s.end
    && (|pieces| > 1 && Ordered(s.words) ==> forall i :: PieceIsTurn(pieces, i))
  }

  ghost predicate PieceIsTurn(pieces: seq<Segment>, i: int) {
    0 <= i < |pieces| ==>
      var ws := pieces[i].words;
      |ws| >= MIN_TURN_WORDS && ws[|ws| - 1].end - ws[0].start >= MIN_TURN_SEC
  }

  lemma PiecesAreCut(s: Segment, pieces: seq<Segment>)
    requires Pieces(s, RunsOf(s.words), pieces)
    ensures Cut(s, pieces)
  {
    var runs := RunsOf(s.words);
    RunsAreTurns(s.words);
    PiecesCover(s, runs, pieces);
    if |pieces| > 1 && Ordered(s.words) {
      forall j ensures PieceIsTurn(pieces, j) {
        if 0 <= j < |runs| {
          InBounds(runs, |s.words|, j);
          assert TurnAt(s.words, runs, j) && ChildAt(s, runs, pieces, j);
        }
      }
    }
  }

  function Joined(groups: seq<seq<Segment>>): seq<Segment> {
    if groups == [] then [] else Joined(groups[..|groups| - 1]) + groups[|groups| - 1]
  }

  ghost predicate GroupAt(segs: seq<Segment>, groups: seq<seq<Segment>>, k: int) {
    0 <= k < |segs| && k < |groups| ==> Pieces(segs[k], RunsOf(segs[k].words), groups[k]) && Cut(segs[k], groups[k])
  }

  /** Split: every segment becomes the pieces of its group, one group after the other, numbered; the words stay. */
  method Split(segs: seq<Segment>) returns (out: seq<Segment>, ghost groups: seq<seq<Segment>>)
    ensures |groups| == |segs| && forall k :: GroupAt(segs, groups, k)
    ensures |out| == |Joined(groups)| && forall i :: 0 <= i < |out| ==> out[i] == Joined(groups)[i].(id := i)
    ensures Flat(out) == Flat(segs)
  {
    var all: seq<Segment> := [];
    groups := [];
    var i := 0;
    while i < |segs|
      invariant 0 <= i <= |segs| && |groups| == i && all == Joined(groups) && Flat(all) == Flat(segs[..i])
      invariant forall k :: GroupAt(segs, groups, k)
    {
      var pieces := SplitOne(segs[i]);
      PiecesAreCut(segs[i], pieces);
      FlatAppend(all, pieces);
      assert segs[..i + 1][..i] == segs[..i];
      ghost var was := groups;
      all, groups := all + pieces, groups + [pieces];
      assert groups[..i] == was;
      forall k ensures GroupAt(segs, groups, k) { assert GroupAt(segs, was, k); }
      i := i + 1;
    }
    assert segs[..i] == segs;
    out := Number(all);
    SameWordsSameFlat(out, all);
  }

  method Number(all: seq<Segment>) returns (out: seq<Segment>)
    ensures |out| == |all| && forall i :: 0 <= i < |out| ==> out[i] == all[i].(id := i)
  {
    out := all;
    var i := 0;
    while i < |out|
      invariant 0 <= i <= |out| == |all|
      invariant forall k :: 0 <= k < |out| ==> out[k] == if k < i then all[k].(id := k) else all[k]
    {
      out := out[i := out[i].(id := i)];
      i := i + 1;
    }
  }

  // --- two children of one speaker ------------------------------------------------------

  /** The speaker holds most of the run's time, or nobody has any and there is none. */
  ghost predicate Leads(words: seq<Word>, r: Run, speaker: Option<string>) {
    r.from < r.to <= |words| && Dominant(words[r.from..r.to], speaker)
  }

  /** Child k is called after whoever leads its run, and after nobody else. */
  lemma CalledAfterTheLeader(s: Segment, out: seq<Segment>, k: nat, speaker: Option<string>)
    requires Pieces(s, RunsOf(s.words), out) && k < |out| == |RunsOf(s.words)| && |out| > 1
    ensures out[k].speaker == speaker <==> Leads(s.words, RunsOf(s.words)[k], speaker)
  {
    var runs := RunsOf(s.words);
    RunsAreTurns(s.words);
    InBounds(runs, |s.words|, k);
    assert ChildAt(s, runs, out, k);
    var ws := s.words[runs[k].from..runs[k].to];
    if Dominant(ws, speaker) { DominantIsOne(ws, out[k].speaker, speaker); }
  }

  /** Two adjacent children are called after one speaker exactly when one speaker leads both runs. */
  lemma SharedExactlyWhenOneLeadsBoth(s: Segment, out: seq<Segment>, k: nat)
    requires Pieces(s, RunsOf(s.words), out) && k + 1 < |out| == |RunsOf(s.words)|
    ensures out[k].speaker == out[k + 1].speaker
            <==> exists x :: Leads(s.words, RunsOf(s.words)[k], x) && Leads(s.words, RunsOf(s.words)[k + 1], x)
  {
    CalledAfterTheLeader(s, out, k, out[k].speaker);
    CalledAfterTheLeader(s, out, k + 1, out[k + 1].speaker);
    forall x | Leads(s.words, RunsOf(s.words)[k], x) && Leads(s.words, RunsOf(s.words)[k + 1], x)
      ensures out[k].speaker == x == out[k + 1].speaker
    {
      CalledAfterTheLeader(s, out, k, x);
      CalledAfterTheLeader(s, out, k + 1, x);
    }
  }

  /** The speaker that made run k a run of its own. */
  function Opener(words: seq<Word>, k: nat): Option<string>
    requires k < |RunsOf(words)|
  {
    words[Opened(words)[k].from].speaker
  }

  /** Where both runs are led by their openers the children are called differently: two of them share a speaker only where
   *  words taken in from elsewhere lead a run. */
  lemma OpenersThatLeadKeepApart(s: Segment, out: seq<Segment>, k: nat)
    requires Pieces(s, RunsOf(s.words), out) && k + 1 < |out| == |RunsOf(s.words)|
    requires Leads(s.words, RunsOf(s.words)[k], Opener(s.words, k)) && Leads(s.words, RunsOf(s.words)[k + 1], Opener(s.words, k + 1))
    ensures out[k].speaker != out[k + 1].speaker
  {
    RunsAreApart(s.words);
    assert ApartAt(s.words, Opened(s.words), k);
    CalledAfterTheLeader(s, out, k, Opener(s.words, k));
    CalledAfterTheLeader(s, out, k + 1, Opener(s.words, k + 1));
  }

  lemma OneVoiceLeads(ws: seq<Word>, speaker: Option<string>)
    requires ws != [] && forall i :: 0 <= i < |ws| ==> ws[i].speaker == speaker
    ensures Dominant(ws, speaker)
  {
    assert ws[0].speaker == speaker;
  }

  /** When every stretch of one speaker is a turn, every child is called after the one who speaks in it, and no two
   *  adjacent ones share a speaker. */
  lemma TurnsAreNeverShared(s: Segment, out: seq<Segment>, k: nat)
    requires forall j :: TurnAt(s.words, Grouped(s.words, |s.words|), j)
    requires Pieces(s, RunsOf(s.words), out) && k < |out| == |RunsOf(s.words)| && |out| > 1
    ensures forall i :: 0 <= i < |out[k].words| ==> out[k].words[i].speaker == out[k].speaker
    ensures k + 1 < |out| ==> out[k].speaker != out[k + 1].speaker
  {
    SpokenByOne(s, out, k);
    if k + 1 < |out| {
      SpokenByOne(s, out, k + 1);
      TurnsAreKept(s.words);
      GroupedCuts(s.words, |s.words|);
      InBounds(RunsOf(s.words), |s.words|, k);
      InBounds(RunsOf(s.words), |s.words|, k + 1);
      assert SpeakerAt(s.words, RunsOf(s.words), k);
    }
  }

  lemma SpokenByOne(s: Segment, out: seq<Segment>, k: nat)
    requires forall j :: TurnAt(s.words, Grouped(s.words, |s.words|), j)
    requires Pieces(s, RunsOf(s.words), out) && k < |out| == |RunsOf(s.words)| && |out| > 1
    ensures RunsOf(s.words)[k].from < |s.words| && out[k].speaker == s.words[RunsOf(s.words)[k].from].speaker
    ensures forall i :: 0 <= i < |out[k].words| ==> out[k].words[i].speaker == out[k].speaker
  {
    var r := RunsOf(s.words)[k];
    TurnsAreKept(s.words);
    GroupedCuts(s.words, |s.words|);
    InBounds(RunsOf(s.words), |s.words|, k);
    assert SpeakerAt(s.words, RunsOf(s.words), k) && ChildAt(s, RunsOf(s.words), out, k);
    OneVoiceLeads(s.words[r.from..r.to], s.words[r.from].speaker);
    CalledAfterTheLeader(s, out, k, s.words[r.from].speaker);
  }

  /** Six words of a, a, b, c, b, b: the first b and the c are no turns, and go to a's run. */
  ghost predicate Swallowed(w: seq<Word>, a: string, b: string, c: string) {
    && |w| == 6 && a != b && b != c && a != c
    && w[0].speaker == w[1].speaker == Some(a) && w[2].speaker == w[4].speaker == w[5].speaker == Some(b) && w[3].speaker == Some(c)
    && IsTurn(w, Run(0, 2)) && IsTurn(w, Run(4, 6))
  }

  lemma SwallowedRuns(w: seq<Word>, a: string, b: string, c: string)
    requires Swallowed(w, a, b, c) && IsTurn(w, Run(0, 4))
    ensures RunsOf(w) == [Run(0, 4), Run(4, 6)]
  {
    assert Grouped(w, 1) == [Run(0, 1)];
    assert Grouped(w, 2) == [Run(0, 2)];
    assert Grouped(w, 3) == [Run(0, 2)] + [Run(2, 3)];
    assert Grouped(w, 4) == [Run(0, 2), Run(2, 3), Run(3, 4)];
    assert Grouped(w, 5) == [Run(0, 2), Run(2, 3), Run(3, 4), Run(4, 5)];
    assert Grouped(w, 6) == [Run(0, 2), Run(2, 3), Run(3, 4), Run(4, 6)];
    var groups := Grouped(w, 6);
    assert Absorb(w, groups, 1) == [Run(0, 2)];
    assert Absorb(w, groups, 3) == [Run(0, 4)];
    assert Absorb(w, groups, 4) == [Run(0, 4), Run(4, 6)];
  }

  /** So both children are called b when the first b speaks longer than a and c. */
  lemma BothAreCalledOne(s: Segment, a: string, b: string, c: string, out: seq<Segment>)
    requires Swallowed(s.words, a, b, c) && IsTurn(s.words, Run(0, 4)) && Pieces(s, RunsOf(s.words), out)
    requires Vote(s.words[2]) > Vote(s.words[0]) + Vote(s.words[1]) && Vote(s.words[2]) > Vote(s.words[3])
    ensures |out| == 2 && out[0].speaker == out[1].speaker == Some(b)
  {
    SwallowedRuns(s.words, a, b, c);
    assert ChildAt(s, RunsOf(s.words), out, 0) && ChildAt(s, RunsOf(s.words), out, 1);
    var w, first, second := s.words, s.words[0..4], s.words[4..6];
    assert first == [w[0], w[1], w[2], w[3]] && second == [w[4], w[5]];
    forall other ensures NotBeaten(first, b, other) && NotBeaten(second, b, other) {
      Four(first, b);
      Four(first, other);
    }
    assert first[2].speaker == Some(b) && second[0].speaker == Some(b);
    assert Dominant(first, Some(b)) && Dominant(second, Some(b));
    DominantIsOne(first, out[0].speaker, Some(b));
    DominantIsOne(second, out[1].speaker, Some(b));
  }

  /** Or five of a, a, nobody, nobody, a, the first two stretches turns: the second run's opener has no name and no vote,
   *  and the a it absorbed has one. */
  lemma NobodyHasNoVote(s: Segment, a: string, out: seq<Segment>)
    requires |s.words| == 5 && IsTurn(s.words, Run(0, 2)) && IsTurn(s.words, Run(2, 4)) && Pieces(s, RunsOf(s.words), out)
    requires s.words[0].speaker == s.words[1].speaker == s.words[4].speaker == Some(a) && s.words[2].speaker == s.words[3].speaker == None
    ensures |out| == 2 && out[0].speaker == out[1].speaker == Some(a)
  {
    var w := s.words;
    TwoRunsOfFive(w);
    assert ChildAt(s, RunsOf(w), out, 0) && ChildAt(s, RunsOf(w), out, 1);
    OneVoiceLeads(w[0..2], Some(a));
    assert w[2..5][2].speaker == Some(a);
    assert Dominant(w[2..5], Some(a));
    DominantIsOne(w[0..2], out[0].speaker, Some(a));
    DominantIsOne(w[2..5], out[1].speaker, Some(a));
  }

  lemma TwoRunsOfFive(w: seq<Word>)
    requires |w| == 5 && SameSpeaker(w[0], w[1]) && !SameSpeaker(w[1], w[2]) && SameSpeaker(w[2], w[3]) && !SameSpeaker(w[3], w[4])
    requires IsTurn(w, Run(0, 2)) && IsTurn(w, Run(2, 4))
    ensures RunsOf(w) == [Run(0, 2), Run(2, 5)]
  {
    assert Grouped(w, 1) == [Run(0, 1)];
    assert Grouped(w, 2) == [Run(0, 2)];
    assert Grouped(w, 3) == [Run(0, 2)] + [Run(2, 3)];
    assert Grouped(w, 4) == [Run(0, 2), Run(2, 4)];
    var groups := Grouped(w, 5);
    assert groups == [Run(0, 2), Run(2, 4), Run(4, 5)];
    assert Absorb(w, groups, 1) == [Run(0, 2)];
    assert Absorb(w, groups, 2) == [Run(0, 2), Run(2, 4)];
    assert Absorb(w, groups, 3) == [Run(0, 2), Run(2, 5)];
  }

  lemma Four(ws: seq<Word>, id: string)
    requires |ws| == 4
    ensures Votes(ws, id, 4) == (if ws[0].speaker == Some(id) then Vote(ws[0]) else 0.0) + (if ws[1].speaker == Some(id) then Vote(ws[1]) else 0.0)
                                + (if ws[2].speaker == Some(id) then Vote(ws[2]) else 0.0) + (if ws[3].speaker == Some(id) then Vote(ws[3]) else 0.0)
  {
    assert Votes(ws, id, 1) == if ws[0].speaker == Some(id) then Vote(ws[0]) else 0.0;
    assert Votes(ws, id, 2) == Votes(ws, id, 1) + if ws[1].speaker == Some(id) then Vote(ws[1]) else 0.0;
    assert Votes(ws, id, 3) == Votes(ws, id, 2) + if ws[2].speaker == Some(id) then Vote(ws[2]) else 0.0;
  }

  // --- times that go back ---------------------------------------------------------------

  /** Two turns and one more word, whose time goes back: the word joins the second run, which is then no turn. */
  lemma TimesThatGoBackShrinkATurn(w: seq<Word>, a: string, b: string, c: string)
    requires |w| == 5 && a != b && b != c && w[0].speaker == w[1].speaker == Some(a) && w[2].speaker == w[3].speaker == Some(b)
    requires w[4].speaker == Some(c) && IsTurn(w, Run(0, 2)) && IsTurn(w, Run(2, 4)) && w[4].end < w[2].start + MIN_TURN_SEC
    ensures RunsOf(w) == [Run(0, 2), Run(2, 5)] && !IsTurn(w, Run(2, 5)) && !Ordered(w)
  {
    TwoRunsOfFive(w);
    assert !InTime(w, 3, 4);
  }

  // --- what a vote is ---------------------------------------------------------------------

  /** How long a speaker speaks in the first n words, and in how many of them. */
  function Spoken(ws: seq<Word>, speaker: string, n: nat): (p: (real, nat))
    requires n <= |ws|
  {
    if n == 0 then (0.0, 0)
    else
      var (time, words) := Spoken(ws, speaker, n - 1);
      var w := ws[n - 1];
      if w.speaker != Some(speaker) then (time, words) else (time + if w.end > w.start then w.end - w.start else 0.0, words + 1)
  }

  /** A speaker's votes are the time spoken and a hundredth of a second a word. */
  lemma {:induction false} VotesAreTime(ws: seq<Word>, speaker: string, n: nat)
    requires n <= |ws|
    ensures Votes(ws, speaker, n) == Spoken(ws, speaker, n).0 + Spoken(ws, speaker, n).1 as real / 100.0
  {
    if n > 0 { VotesAreTime(ws, speaker, n - 1); }
  }

  /** So whoever speaks longest, by a hundredth of a second a word of anybody else's, is who the segment is called after. */
  lemma LongestSpokenIsDominant(ws: seq<Word>, best: string)
    requires Speaks(ws, best)
    requires forall other :: Speaks(ws, other) && other != best ==>
        Spoken(ws, best, |ws|).0 > Spoken(ws, other, |ws|).0 + Spoken(ws, other, |ws|).1 as real / 100.0
    ensures forall speaker :: Dominant(ws, speaker) <==> speaker == Some(best)
  {
    forall other ensures NotBeaten(ws, best, other) {
      VotesAreTime(ws, best, |ws|);
      VotesAreTime(ws, other, |ws|);
    }
    assert Dominant(ws, Some(best));
    forall speaker | Dominant(ws, speaker) ensures speaker == Some(best) { DominantIsOne(ws, speaker, Some(best)); }
  }

  /** The order of strings, character by character, a beginning before what it begins. */
  lemma LessIsLexicographic(c: char, d: char, a: string, b: string)
    ensures Less("", [c] + a) && !Less(a, "")
    ensures c < d ==> Less([c] + a, [d] + b)
    ensures Less([c] + a, [c] + b) <==> Less(a, b)
  {
    assert ([c] + a)[1..] == a && ([c] + b)[1..] == b && ([d] + b)[1..] == b;
  }

  /** Between two pieces, the one ends with its last word and the other begins with its first. */
  lemma PiecesMeetAtWords(s: Segment, out: seq<Segment>, k: nat)
    requires Pieces(s, RunsOf(s.words), out) && k < |out| == |RunsOf(s.words)| && |out| > 1
    ensures var ws := out[k].words;
      && RunsOf(s.words)[k].from < RunsOf(s.words)[k].to <= |s.words|
      && ws == s.words[RunsOf(s.words)[k].from..RunsOf(s.words)[k].to] && out[k].text == Text(ws) && out[k].channel == s.channel
      && (k > 0 ==> out[k].start == ws[0].start) && (k < |out| - 1 ==> out[k].end == ws[|ws| - 1].end)
  {
    RunsAreTurns(s.words);
    InBounds(RunsOf(s.words), |s.words|, k);
    assert ChildAt(s, RunsOf(s.words), out, k);
  }
}
