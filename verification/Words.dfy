/** The words and segments of a transcript, as far as the stages after recognition read them. Times are exact. */
module Words {
  import opened Options
  import opened Sums

  datatype Word = Word(text: string, start: real, end: real, confidence: real, speaker: Option<string>, channel: int)
  datatype Segment = Segment(id: int, start: real, end: real, text: string, channel: int, speaker: Option<string>,
                             confidence: real, words: seq<Word>)

  /** words.Text: the words with a space between. */
  function Text(ws: seq<Word>): string {
    if ws == [] then "" else if |ws| == 1 then ws[0].text else Text(ws[..|ws| - 1]) + " " + ws[|ws| - 1].text
  }

  /** Every word in transcript order. */
  function Flat(segs: seq<Segment>): seq<Word> {
    if segs == [] then [] else Flat(segs[..|segs| - 1]) + segs[|segs| - 1].words
  }

  /** The sum and the number of the confidences that are there. */
  function Sure(ws: seq<Word>, n: nat): (p: (real, nat))
    requires n <= |ws|
  {
    if n == 0 then (0.0, 0)
    else
      var (sum, k) := Sure(ws, n - 1);
      if ws[n - 1].confidence > 0.0 then (sum + ws[n - 1].confidence, k + 1) else (sum, k)
  }

  function Average(ws: seq<Word>): real {
    var (sum, k) := Sure(ws, |ws|);
    if k == 0 then 0.0 else sum / k as real
  }

  method AverageConfidence(ws: seq<Word>) returns (avg: real)
    ensures avg == Average(ws)
  {
    var sum, n := 0.0, 0;
    var i := 0;
    while i < |ws|
      invariant 0 <= i <= |ws| && n >= 0 && Sure(ws, i) == (sum, n)
    {
      if ws[i].confidence > 0.0 {
        sum := sum + ws[i].confidence;
        n := n + 1;
      }
      i := i + 1;
    }
    return if n == 0 then 0.0 else sum / n as real;
  }

  /** Segments with the same words hold the same stream. */
  lemma {:induction false} SameWordsSameFlat(a: seq<Segment>, b: seq<Segment>)
    requires |a| == |b| && forall k :: 0 <= k < |a| ==> a[k].words == b[k].words
    ensures Flat(a) == Flat(b)
  {
    if a != [] { SameWordsSameFlat(a[..|a| - 1], b[..|b| - 1]); }
  }

  /** A text is its words, a space between any two. */
  lemma {:induction false} TextJoins(a: seq<Word>, b: seq<Word>)
    requires a != [] && b != []
    ensures Text(a + b) == Text(a) + " " + Text(b) && (|a| == 1 ==> Text(a) == a[0].text)
  {
    if |b| == 1 {
      assert (a + b)[..|a + b| - 1] == a;
    } else {
      assert (a + b)[..|a + b| - 1] == a + b[..|b| - 1];
      TextJoins(a, b[..|b| - 1]);
    }
  }

  /** The average is over the words that have a confidence: without one it is zero, and otherwise between the least and the
   *  greatest there is. */
  lemma AverageIsOfTheSure(ws: seq<Word>, lo: real, hi: real)
    ensures (forall i :: 0 <= i < |ws| ==> ws[i].confidence <= 0.0) ==> Average(ws) == 0.0
    ensures (exists i :: 0 <= i < |ws| && ws[i].confidence > 0.0) && (forall i :: 0 <= i < |ws| && ws[i].confidence > 0.0 ==> lo <= ws[i].confidence <= hi)
            ==> lo <= Average(ws) <= hi
  {
    SureCounts(ws, |ws|, lo, hi);
    var (sum, k) := Sure(ws, |ws|);
    if k > 0 && Repeated(lo, k) <= sum <= Repeated(hi, k) { MeanIsBetween(sum, k, lo, hi); }
  }

  lemma {:induction false} SureCounts(ws: seq<Word>, n: nat, lo: real, hi: real)
    requires n <= |ws|
    ensures Sure(ws, n).1 == 0 <==> forall i :: 0 <= i < n ==> ws[i].confidence <= 0.0
    ensures (forall i :: 0 <= i < n && ws[i].confidence > 0.0 ==> lo <= ws[i].confidence <= hi) ==>
        Repeated(lo, Sure(ws, n).1) <= Sure(ws, n).0 <= Repeated(hi, Sure(ws, n).1)
  {
    if n > 0 { SureCounts(ws, n - 1, lo, hi); }
  }
}
