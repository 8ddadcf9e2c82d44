/** Grouping a segment's words by speaker: speakerRuns of internal/diarize/split.go, which compacts in place. */
module SpeakerRuns {
  import opened Words

  datatype Run = Run(from: nat, to: nat)

  const MIN_TURN_SEC: real := 0.5
  const MIN_TURN_WORDS: nat := 2

  predicate SameSpeaker(a: Word, b: Word) { a.speaker == b.speaker }

  /** isTurn of words[from..to]. */
  predicate IsTurn(words: seq<Word>, r: Run)
    requires r.from < r.to <= |words|
  {
    r.to - r.from >= MIN_TURN_WORDS && words[r.to - 1].end - words[r.from].start >= MIN_TURN_SEC
  }

  ghost predicate LinkAt(runs: seq<Run>, i: int) {
    && (0 <= i < |runs| ==> runs[i].from < runs[i].to)
    && (0 <= i && i + 1 < |runs| ==> runs[i].to == runs[i + 1].from)
  }

  /** The runs cut the first n words into contiguous pieces, none empty. */
  ghost predicate Partition(runs: seq<Run>, n: nat) {
    && (runs == [] <==> n == 0)
    && (runs != [] ==> runs[0].from == 0 && runs[|runs| - 1].to == n)
    && (forall i :: LinkAt(runs, i))
  }

  lemma {:induction false} InBounds(runs: seq<Run>, n: nat, i: nat)
    requires Partition(runs, n) && i < |runs|
    ensures runs[i].from < runs[i].to <= n
    decreases |runs| - i
  {
    assert LinkAt(runs, i);
    if i + 1 < |runs| { InBounds(runs, n, i + 1); }
  }

  /** Word times do not go back. */
  ghost predicate InTime(words: seq<Word>, i: int, j: int) {
    0 <= i <= j < |words| ==> words[i].start <= words[j].start && words[i].end <= words[j].end
  }

  ghost predicate Ordered(words: seq<Word>) { forall i, j :: InTime(words, i, j) }

  ghost predicate TurnAt(words: seq<Word>, runs: seq<Run>, i: int) {
    0 <= i < |runs| && runs[i].from < runs[i].to <= |words| ==> IsTurn(words, runs[i])
  }

  /** A longer run of a turn is a turn. */
  lemma GrownTurn(words: seq<Word>, r: Run, s: Run)
    requires Ordered(words) && s.from <= r.from < r.to <= s.to <= |words| && IsTurn(words, r)
    ensures IsTurn(words, s)
  {
    assert InTime(words, r.to - 1, s.to - 1) && InTime(words, s.from, r.from);
  }

  // --- the runs of one speaker --------------------------------------------------------

  /** The first n words, cut at every change of speaker. */
  function Grouped(words: seq<Word>, n: nat): (runs: seq<Run>)
    requires n <= |words|
    ensures n > 0 ==> runs != []
  {
    if n == 0 then []
    else
      var runs := Grouped(words, n - 1);
      if n > 1 && SameSpeaker(words[n - 2], words[n - 1]) then runs[|runs| - 1 := runs[|runs| - 1].(to := n)]
      else runs + [Run(n - 1, n)]
  }

  /** Within a run the speaker stays; between one and the next it changes. */
  ghost predicate SpeakerAt(words: seq<Word>, runs: seq<Run>, k: int) {
    0 <= k < |runs| && runs[k].from < runs[k].to <= |words| ==>
      && (forall i :: runs[k].from <= i < runs[k].to ==> SameSpeaker(words[runs[k].from], words[i]))
      && (k + 1 < |runs| && runs[k + 1].from < |words| ==> !SameSpeaker(words[runs[k].from], words[runs[k + 1].from]))
  }

  lemma {:induction false} GroupedCuts(words: seq<Word>, n: nat)
    requires n <= |words|
    ensures Partition(Grouped(words, n), n) && forall k :: SpeakerAt(words, Grouped(words, n), k)
  {
    if n > 0 {
      GroupedCuts(words, n - 1);
      var before, runs := Grouped(words, n - 1), Grouped(words, n);
      if n > 1 { InBounds(before, n - 1, |before| - 1); }
      forall k ensures LinkAt(runs, k) { assert LinkAt(before, k); }
      forall k ensures SpeakerAt(words, runs, k) {
        if 0 <= k < |before| { InBounds(before, n - 1, k); }
        assert SpeakerAt(words, before, k);
      }
    }
  }

  method Group(words: seq<Word>) returns (runs: seq<Run>)
    ensures runs == Grouped(words, |words|)
  {
    runs := [];
    var i := 0;
    while i < |words|
      invariant 0 <= i <= |words| && runs == Grouped(words, i)
    {
      if i > 0 && SameSpeaker(words[i - 1], words[i]) {
        var last := |runs| - 1;
        runs := runs[last := runs[last].(to := i + 1)];
      } else {
        runs := runs + [Run(i, i + 1)];
      }
      i := i + 1;
    }
  }

  // --- absorbing, in place --------------------------------------------------------------

  /** The second loop: what the first n runs become. */
  function Absorb(words: seq<Word>, runs: seq<Run>, n: nat): (out: seq<Run>)
    requires n <= |runs| && forall k :: 0 <= k < n ==> runs[k].from < runs[k].to <= |words|
    ensures |out| <= n && (n > 0 ==> out != []) && forall k :: 0 <= k < |out| ==> out[k].from < |words|
  {
    if n == 0 then []
    else
      var out := Absorb(words, runs, n - 1);
      var r := runs[n - 1];
      if out == [] then [r]
      else if !IsTurn(words, r) || SameSpeaker(words[out[|out| - 1].from], words[r.from]) then
        out[|out| - 1 := out[|out| - 1].(to := r.to)]
      else out + [r]
  }

  /** The same in place: out shares the runs' array and never overtakes what is still to be read. */
  method Compact(words: seq<Word>, a: array<Run>) returns (m: nat)
    requires forall k :: 0 <= k < a.Length ==> a[k].from < a[k].to <= |words|
    modifies a
    ensures m <= a.Length && a[..m] == Absorb(words, old(a[..]), a.Length)
  {
    ghost var was := a[..];
    m := 0;
    var i := 0;
    while i < a.Length
      invariant 0 <= i <= a.Length && m <= i && a[..m] == Absorb(words, was, i)
      invariant forall k :: i <= k < a.Length ==> a[k] == was[k]
    {
      var r := a[i];
      if m == 0 {
        a[m] := r;
        m := 1;
      } else {
        var last := a[..m][m - 1];
        if !IsTurn(words, r) || SameSpeaker(words[last.from], words[r.from]) {
          a[m - 1] := last.(to := r.to);
        } else {
          a[m] := r;
          m := m + 1;
        }
      }
      i := i + 1;
    }
  }

  lemma {:induction false} AbsorbPartitions(words: seq<Word>, runs: seq<Run>, n: nat)
    requires n <= |runs| && forall k :: 0 <= k < |runs| ==> runs[k].from < runs[k].to <= |words|
    requires Partition(runs, |words|)
    ensures Partition(Absorb(words, runs, n), if n == 0 then 0 else runs[n - 1].to)
  {
    if n > 0 {
      AbsorbPartitions(words, runs, n - 1);
      var before, out := Absorb(words, runs, n - 1), Absorb(words, runs, n);
      assert LinkAt(runs, n - 2) && LinkAt(runs, n - 1);
      forall k ensures LinkAt(out, k) { assert LinkAt(before, k); }
    }
  }

  lemma {:induction false} AbsorbedAreTurns(words: seq<Word>, runs: seq<Run>, n: nat, i: int)
    requires n <= |runs| && forall k :: 0 <= k < |runs| ==> runs[k].from < runs[k].to <= |words|
    requires Partition(runs, |words|) && Ordered(words) && i >= 1
    ensures TurnAt(words, Absorb(words, runs, n), i)
  {
    if n > 0 {
      var before, out, r := Absorb(words, runs, n - 1), Absorb(words, runs, n), runs[n - 1];
      AbsorbPartitions(words, runs, n - 1);
      AbsorbedAreTurns(words, runs, n - 1, i);
      if 0 <= i < |out| && i < |before| {
        if n > 1 { InBounds(before, runs[n - 2].to, i); assert LinkAt(runs, n - 2); }
        if out[i] != before[i] { GrownTurn(words, before[i], out[i]); }
      }
    }
  }

  /** The opening run, too short to be a turn, joins the run that follows. */
  function JoinFirst(words: seq<Word>, runs: seq<Run>): seq<Run> {
    if |runs| > 1 && runs[0].from < runs[0].to <= |words| && !IsTurn(words, runs[0]) then
      [Run(runs[0].from, runs[1].to)] + runs[2..]
    else runs
  }

  lemma GroupedInBounds(words: seq<Word>)
    ensures forall k :: 0 <= k < |Grouped(words, |words|)| ==>
        Grouped(words, |words|)[k].from < Grouped(words, |words|)[k].to <= |words|
  {
    var groups := Grouped(words, |words|);
    GroupedCuts(words, |words|);
    forall k | 0 <= k < |groups| ensures groups[k].from < groups[k].to <= |words| { InBounds(groups, |words|, k); }
  }

  /** speakerRuns as a function: cut, absorb, join. */
  function RunsOf(words: seq<Word>): seq<Run> {
    GroupedInBounds(words);
    var groups := Grouped(words, |words|);
    JoinFirst(words, Absorb(words, groups, |groups|))
  }

  /** speakerRuns */
  method SpeakerRuns(words: seq<Word>) returns (runs: seq<Run>)
    ensures runs == RunsOf(words)
  {
    GroupedInBounds(words);
    GroupedCuts(words, |words|);
    var groups := Group(words);
    var a := new Run[|groups|](k requires 0 <= k < |groups| => groups[k]);
    assert a[..] == groups;
    var m := Compact(words, a);
    if m > 1 {
      AbsorbedInBounds(words, groups, a[..m]);
      if !IsTurn(words, a[0]) {
        ghost var absorbed := a[..m];
        a[1] := a[1].(from := a[0].from);
        runs := a[1..m];
        assert runs == JoinFirst(words, absorbed);
        return;
      }
    }
    runs := a[..m];
  }

  lemma AbsorbedInBounds(words: seq<Word>, groups: seq<Run>, absorbed: seq<Run>)
    requires groups == Grouped(words, |words|) && forall k :: 0 <= k < |groups| ==> groups[k].from < groups[k].to <= |words|
    requires absorbed == Absorb(words, groups, |groups|) && absorbed != []
    ensures absorbed[0].from < absorbed[0].to <= |words|
  {
    GroupedCuts(words, |words|);
    AbsorbPartitions(words, groups, |groups|);
    InBounds(absorbed, |words|, 0);
  }

  /** The runs partition the words; with several, and word times that do not go back, each is a turn. */
  lemma RunsAreTurns(words: seq<Word>)
    ensures Partition(RunsOf(words), |words|)
    ensures Ordered(words) && |RunsOf(words)| > 1 ==> forall i :: TurnAt(words, RunsOf(words), i)
  {
    GroupedInBounds(words);
    GroupedCuts(words, |words|);
    var groups := Grouped(words, |words|);
    var absorbed := Absorb(words, groups, |groups|);
    AbsorbPartitions(words, groups, |groups|);
    if absorbed != [] { InBounds(absorbed, |words|, 0); }
    if |absorbed| > 1 && !IsTurn(words, absorbed[0]) {
      FirstJoins(words, groups, absorbed, JoinFirst(words, absorbed));
    } else if Ordered(words) && |absorbed| > 1 {
      forall i ensures TurnAt(words, absorbed, i) { if i >= 1 { AbsorbedAreTurns(words, groups, |groups|, i); } }
    }
  }

  lemma FirstJoins(words: seq<Word>, groups: seq<Run>, absorbed: seq<Run>, runs: seq<Run>)
    requires Partition(groups, |words|) && forall k :: 0 <= k < |groups| ==> groups[k].from < groups[k].to <= |words|
    requires absorbed == Absorb(words, groups, |groups|) && |absorbed| > 1 && Partition(absorbed, |words|)
    requires runs == [Run(absorbed[0].from, absorbed[1].to)] + absorbed[2..]
    ensures Partition(runs, |words|)
    ensures Ordered(words) ==> forall i :: TurnAt(words, runs, i)
  {
    assert LinkAt(absorbed, 0) && LinkAt(absorbed, 1);
    forall i ensures LinkAt(runs, i) { assert LinkAt(absorbed, i + 1); }
    if Ordered(words) {
      forall i ensures TurnAt(words, runs, i) {
        if 0 <= i < |runs| {
          AbsorbedAreTurns(words, groups, |groups|, i + 1);
          InBounds(absorbed, |words|, i + 1);
          if i == 0 { GrownTurn(words, absorbed[1], runs[0]); }
        }
      }
    }
  }

  /** Of several runs each has the words of a turn, whatever their times, so it is one exactly when it lasts. */
  lemma RunsAreTurnsWhenTheyLast(words: seq<Word>, i: nat)
    requires |RunsOf(words)| > 1 && i < |RunsOf(words)|
    ensures var r := RunsOf(words)[i];
      r.to <= |words| && r.to - r.from >= 2 && (IsTurn(words, r) <==> words[r.to - 1].end - words[r.from].start >= 0.5)
  {
    RunsAreTurns(words);
    InBounds(RunsOf(words), |words|, i);
    GroupedInBounds(words);
    GroupedCuts(words, |words|);
    var groups := Grouped(words, |words|);
    var absorbed := Absorb(words, groups, |groups|);
    AbsorbPartitions(words, groups, |groups|);
    InBounds(absorbed, |words|, 0);
    if !IsTurn(words, absorbed[0]) {
      AbsorbedAreLong(words, groups, |groups|, i + 1);
      assert LinkAt(absorbed, 0);
    } else if i > 0 {
      AbsorbedAreLong(words, groups, |groups|, i);
    }
  }

  lemma {:induction false} AbsorbedAreLong(words: seq<Word>, runs: seq<Run>, n: nat, i: nat)
    requires n <= |runs| && forall k :: 0 <= k < |runs| ==> runs[k].from < runs[k].to <= |words|
    requires Partition(runs, |words|) && 1 <= i < |Absorb(words, runs, n)|
    ensures Absorb(words, runs, n)[i].to - Absorb(words, runs, n)[i].from >= MIN_TURN_WORDS
  {
    var before := Absorb(words, runs, n - 1);
    AbsorbPartitions(words, runs, n - 1);
    if n > 1 { assert LinkAt(runs, n - 2); }
    if i < |before| { AbsorbedAreLong(words, runs, n - 1, i); }
  }

  /** Nothing is absorbed that deserves to stand: when every stretch of one speaker is a turn, the runs are exactly
   *  those stretches. */
  lemma TurnsAreKept(words: seq<Word>)
    requires forall k :: TurnAt(words, Grouped(words, |words|), k)
    ensures RunsOf(words) == Grouped(words, |words|)
  {
    GroupedInBounds(words);
    var groups := Grouped(words, |words|);
    AbsorbsNothing(words, |groups|);
    assert groups[..|groups|] == groups && TurnAt(words, groups, 0);
  }

  lemma {:induction false} AbsorbsNothing(words: seq<Word>, n: nat)
    requires n <= |Grouped(words, |words|)| && forall k :: TurnAt(words, Grouped(words, |words|), k)
    requires forall k :: 0 <= k < n ==> Grouped(words, |words|)[k].from < Grouped(words, |words|)[k].to <= |words|
    ensures Absorb(words, Grouped(words, |words|), n) == Grouped(words, |words|)[..n]
  {
    var groups := Grouped(words, |words|);
    if n > 0 {
      AbsorbsNothing(words, n - 1);
      GroupedCuts(words, |words|);
      assert TurnAt(words, groups, n - 1) && SpeakerAt(words, groups, n - 2);
      if n > 1 { assert Absorb(words, groups, n - 1)[n - 2] == groups[n - 2]; }
    }
  }

  // --- who a run belongs to ---------------------------------------------------------------

  /** Two adjacent runs begin with different speakers. */
  ghost predicate ApartAt(words: seq<Word>, runs: seq<Run>, k: int) {
    0 <= k && k + 1 < |runs| && runs[k].from < |words| && runs[k + 1].from < |words| ==>
      !SameSpeaker(words[runs[k].from], words[runs[k + 1].from])
  }

  lemma {:induction false} AbsorbedApart(words: seq<Word>, runs: seq<Run>, n: nat)
    requires n <= |runs| && forall k :: 0 <= k < |runs| ==> runs[k].from < runs[k].to <= |words|
    ensures forall k :: ApartAt(words, Absorb(words, runs, n), k)
  {
    if n > 0 {
      AbsorbedApart(words, runs, n - 1);
      forall k ensures ApartAt(words, Absorb(words, runs, n), k) { assert ApartAt(words, Absorb(words, runs, n - 1), k); }
    }
  }

  /** The absorbed runs from the one that gives the first result its speaker. */
  function Opened(words: seq<Word>): (runs: seq<Run>)
    ensures |runs| == |RunsOf(words)|
    ensures forall k :: 0 <= k < |runs| ==> runs[k].from < |words| && runs[k].to == RunsOf(words)[k].to
    ensures forall k :: 0 < k < |runs| ==> runs[k] == RunsOf(words)[k]
  {
    GroupedInBounds(words);
    var groups := Grouped(words, |words|);
    var absorbed := Absorb(words, groups, |groups|);
    if JoinFirst(words, absorbed) != absorbed then absorbed[1..] else absorbed
  }

  /** Adjacent runs are opened by different speakers, also when the first took in a short opening. */
  lemma RunsAreApart(words: seq<Word>)
    ensures forall k :: ApartAt(words, Opened(words), k)
  {
    GroupedInBounds(words);
    var groups := Grouped(words, |words|);
    var absorbed := Absorb(words, groups, |groups|);
    AbsorbedApart(words, groups, |groups|);
    forall k ensures ApartAt(words, Opened(words), k) { assert ApartAt(words, absorbed, k) && ApartAt(words, absorbed, k + 1); }
  }

  ghost predicate Inside(g: Run, r: Run) { r.from <= g.from < r.to }

  /** Stretch j, if it is a turn and went into run k, is the run's opening speaker's. */
  ghost predicate OwnTurnAt(words: seq<Word>, groups: seq<Run>, n: nat, runs: seq<Run>, j: int, k: int) {
    0 <= j < n <= |groups| && groups[j].from < groups[j].to <= |words| && 0 <= k < |runs| && runs[k].from < |words|
    && Inside(groups[j], runs[k]) && IsTurn(words, groups[j]) ==>
      SameSpeaker(words[runs[k].from], words[groups[j].from])
  }

  lemma {:induction false} InARow(runs: seq<Run>, i: nat, j: nat)
    requires i < j < |runs| && forall k :: LinkAt(runs, k)
    ensures runs[i].to <= runs[j].from
  {
    assert LinkAt(runs, j - 1);
    if i < j - 1 { InARow(runs, i, j - 1); }
  }

  lemma {:induction false} AbsorbedOwnTurns(words: seq<Word>, groups: seq<Run>, n: nat)
    requires n <= |groups| && forall k :: 0 <= k < |groups| ==> groups[k].from < groups[k].to <= |words|
    requires Partition(groups, |words|)
    ensures forall j, k :: OwnTurnAt(words, groups, n, Absorb(words, groups, n), j, k)
  {
    if n > 0 {
      var before, out := Absorb(words, groups, n - 1), Absorb(words, groups, n);
      AbsorbedOwnTurns(words, groups, n - 1);
      AbsorbPartitions(words, groups, n - 1);
      assert LinkAt(groups, n - 2) && LinkAt(groups, n - 1);
      forall j, k ensures OwnTurnAt(words, groups, n, out, j, k) {
        assert OwnTurnAt(words, groups, n - 1, before, j, k);
        if 0 <= j < n - 1 { InARow(groups, j, n - 1); }
        if 0 <= k < |before| && n > 1 { InBounds(before, groups[n - 2].to, k); }
      }
    }
  }

  /** A turn that ended up in another's run is the run's own: only stretches too short to be turns lose their speaker. */
  lemma OnlyShortStretchesAreLost(words: seq<Word>, j: nat, k: nat)
    requires Ordered(words) && j < |Grouped(words, |words|)| && k < |RunsOf(words)|
    requires var g := Grouped(words, |words|)[j]; Inside(g, RunsOf(words)[k]) && g.from < g.to <= |words| && IsTurn(words, g)
    ensures SameSpeaker(words[Opened(words)[k].from], words[Grouped(words, |words|)[j].from])
  {
    GroupedInBounds(words);
    GroupedCuts(words, |words|);
    var groups := Grouped(words, |words|);
    var absorbed := Absorb(words, groups, |groups|);
    AbsorbPartitions(words, groups, |groups|);
    AbsorbedOwnTurns(words, groups, |groups|);
    assert OwnTurnAt(words, groups, |groups|, absorbed, j, k) && OwnTurnAt(words, groups, |groups|, absorbed, j, k + 1);
    if k == 0 && Opened(words) == absorbed[1..] { ShortOpening(words, groups, absorbed, j); }
  }

  /** A run starts where a stretch does. */
  lemma {:induction false} StartsAt(words: seq<Word>, groups: seq<Run>, n: nat, k: nat) returns (i: nat)
    requires n <= |groups| && forall k :: 0 <= k < |groups| ==> groups[k].from < groups[k].to <= |words|
    requires k < |Absorb(words, groups, n)|
    ensures i < n && Absorb(words, groups, n)[k].from == groups[i].from
  {
    if k < |Absorb(words, groups, n - 1)| { i := StartsAt(words, groups, n - 1, k); } else { i := n - 1; }
  }

  /** An opening run too short to be a turn has no turn in it. */
  lemma ShortOpening(words: seq<Word>, groups: seq<Run>, absorbed: seq<Run>, j: nat)
    requires Ordered(words) && Partition(groups, |words|) && Partition(absorbed, |words|) && |absorbed| > 1 && j < |groups|
    requires forall k :: 0 <= k < |groups| ==> groups[k].from < groups[k].to <= |words|
    requires absorbed == Absorb(words, groups, |groups|) && IsTurn(words, groups[j])
    requires absorbed[0].from < absorbed[0].to <= |words| && !IsTurn(words, absorbed[0])
    ensures absorbed[1].from <= groups[j].from
  {
    if groups[j].from < absorbed[1].from {
      var i := StartsAt(words, groups, |groups|, 1);
      if i < j { InARow(groups, i, j); }
      InARow(groups, j, i);
      assert LinkAt(absorbed, 0);
      GrownTurn(words, groups[j], absorbed[0]);
      assert false;
    }
  }

  ghost predicate TurnOf(words: seq<Word>, r: Run, w: Word, j: int) {
    0 <= j < |Grouped(words, |words|)| && var g := Grouped(words, |words|)[j];
    Inside(g, r) && g.from < g.to <= |words| && IsTurn(words, g) && SameSpeaker(words[g.from], w)
  }

  /** Somewhere in the run the word's speaker speaks for a turn. */
  ghost predicate HasATurn(words: seq<Word>, r: Run, w: Word) { exists j :: TurnOf(words, r, w, j) }

  /** No speaker has a turn on both sides of a cut. */
  lemma NobodyHasTurnsOnBothSides(words: seq<Word>, k: nat, w: Word)
    requires Ordered(words) && k + 1 < |RunsOf(words)|
    ensures !HasATurn(words, RunsOf(words)[k], w) || !HasATurn(words, RunsOf(words)[k + 1], w)
  {
    var runs := RunsOf(words);
    RunsAreApart(words);
    assert ApartAt(words, Opened(words), k);
    if HasATurn(words, runs[k], w) && HasATurn(words, runs[k + 1], w) {
      var i :| TurnOf(words, runs[k], w, i);
      var j :| TurnOf(words, runs[k + 1], w, j);
      OnlyShortStretchesAreLost(words, i, k);
      OnlyShortStretchesAreLost(words, j, k + 1);
    }
  }
}
