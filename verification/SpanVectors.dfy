/** How many consecutive input words each output word covers, stage by stage. */
module SpanVectors {
  import opened Options
  import opened Words

  /** The sum of the first n. */
  function Prefix(v: seq<nat>, n: nat): nat
    requires n <= |v|
  {
    if n == 0 then 0 else Prefix(v, n - 1) + v[n - 1]
  }

  lemma {:induction false} PrefixGrows(v: seq<nat>, a: nat, b: nat)
    requires a <= b <= |v|
    ensures Prefix(v, a) <= Prefix(v, b)
  {
    if a < b { PrefixGrows(v, a, b - 1); }
  }

  lemma {:induction false} PrefixOfPart(v: seq<nat>, w: seq<nat>, n: nat)
    requires n <= |v| && n <= |w| && v[..n] == w[..n]
    ensures Prefix(v, n) == Prefix(w, n)
  {
    if n > 0 {
      assert v[..n][..n - 1] == v[..n - 1] && w[..n][..n - 1] == w[..n - 1];
      assert v[n - 1] == v[..n][n - 1] && w[n - 1] == w[..n][n - 1];
      PrefixOfPart(v, w, n - 1);
    }
  }

  predicate Positive(v: seq<nat>) { forall i :: 0 <= i < |v| ==> v[i] >= 1 }

  /** A vector of m entries, each at least one, over n words. */
  predicate Covers(v: seq<nat>, n: nat, m: nat) {
    |v| == m && Positive(v) && Prefix(v, m) == n
  }

  function Ones(n: nat): (v: seq<nat>) { seq(n, _ => 1) }

  lemma {:induction false} PrefixOfOnes(n: nat, k: nat)
    requires k <= n
    ensures Prefix(Ones(n), k) == k
  {
    if k > 0 { PrefixOfOnes(n, k - 1); }
  }

  /** What a span vector, or the lack of one, says of m output words. */
  function Vector(spans: Option<seq<nat>>, m: nat): (v: seq<nat>) {
    if spans.Some? then spans.value else Ones(m)
  }

  datatype Outcome = Error | Made(words: seq<Word>, spans: Option<seq<int>>)

  /** A stage of the chain, whatever it does. */
  type Stage = seq<Word> -> Outcome

  /** What checkSpans accepts. */
  predicate Accounts(spans: Option<seq<int>>, inputs: nat, outputs: nat) {
    match spans
    case None => outputs == inputs
    case Some(v) => |v| == outputs && (forall i :: 0 <= i < |v| ==> v[i] >= 1) && Total(v, |v|) == inputs
  }

  function Total(v: seq<int>, n: nat): int
    requires n <= |v|
  {
    if n == 0 then 0 else Total(v, n - 1) + v[n - 1]
  }

  /** checkSpans */
  method CheckSpans(inputs: nat, outputs: nat, spans: Option<seq<int>>) returns (ok: bool)
    ensures ok <==> Accounts(spans, inputs, outputs)
  {
    if spans.None? {
      return outputs == inputs;
    }
    var v := spans.value;
    if |v| != outputs {
      return false;
    }
    var total, i := 0, 0;
    while i < |v|
      invariant 0 <= i <= |v| && total == Total(v, i)
      invariant forall j :: 0 <= j < i ==> v[j] >= 1
    {
      if v[i] < 1 {
        return false;
      }
      total := total + v[i];
      i := i + 1;
    }
    return total == inputs;
  }

  function Nats(v: seq<int>): (n: seq<nat>)
    requires forall i :: 0 <= i < |v| ==> v[i] >= 1
    ensures |n| == |v| && forall i :: 0 <= i < |v| ==> n[i] == v[i]
  {
    if v == [] then [] else Nats(v[..|v| - 1]) + [v[|v| - 1]]
  }

  lemma {:induction false} TotalIsPrefix(v: seq<int>, n: nat)
    requires (forall i :: 0 <= i < |v| ==> v[i] >= 1) && n <= |v|
    ensures Total(v, n) == Prefix(Nats(v), n)
  {
    if n > 0 { TotalIsPrefix(v, n - 1); }
  }

  function Checked(spans: Option<seq<int>>): Option<seq<nat>>
    requires spans.Some? ==> forall i :: 0 <= i < |spans.value| ==> spans.value[i] >= 1
  {
    if spans.None? then None else Some(Nats(spans.value))
  }

  /** What an accepted vector is. */
  lemma AccountsCovers(spans: Option<seq<int>>, inputs: nat, outputs: nat)
    requires Accounts(spans, inputs, outputs)
    ensures Covers(Vector(Checked(spans), outputs), inputs, outputs)
  {
    if spans.Some? { TotalIsPrefix(spans.value, outputs); } else { PrefixOfOnes(outputs, outputs); }
  }

  /** The vector to the words before both stages: each boundary goes back through inner, then through outer. */
  ghost predicate Composes(v: seq<nat>, outer: seq<nat>, inner: seq<nat>) {
    |v| == |inner| && Prefix(inner, |inner|) == |outer| && forall i :: BoundaryBack(v, outer, inner, i)
  }

  ghost predicate BoundaryBack(v: seq<nat>, outer: seq<nat>, inner: seq<nat>, i: int) {
    0 <= i <= |v| && i <= |inner| ==> Prefix(inner, i) <= |outer| && Prefix(v, i) == Prefix(outer, Prefix(inner, i))
  }

  /** composeSpans */
  method ComposeSpans(outer: Option<seq<nat>>, inner: Option<seq<nat>>, ghost inputs: nat, ghost middle: nat, outputs: nat)
    returns (spans: Option<seq<nat>>)
    requires Covers(Vector(outer, middle), inputs, middle) && Covers(Vector(inner, outputs), middle, outputs)
    ensures Composes(Vector(spans, outputs), Vector(outer, middle), Vector(inner, outputs))
    ensures spans.None? <==> outer.None? && inner.None?
  {
    match inner
    case None =>
      PrefixOfOnes(outputs, outputs);
      forall i ensures BoundaryBack(Vector(outer, outputs), Vector(outer, middle), Ones(outputs), i) {
        if 0 <= i <= outputs { PrefixOfOnes(outputs, i); }
      }
      return outer;
    case Some(v) =>
      if outer.None? {
        forall i ensures BoundaryBack(v, Ones(middle), v, i) {
          if 0 <= i <= |v| {
            PrefixGrows(v, i, |v|);
            PrefixOfOnes(middle, Prefix(v, i));
          }
        }
        return inner;
      }
      var out := Fold(outer.value, v);
      return Some(out);
  }

  /** composeSpans' loops: the cursor never runs off outer. */
  method Fold(outer: seq<nat>, inner: seq<nat>) returns (out: seq<nat>)
    requires Prefix(inner, |inner|) == |outer|
    ensures Composes(out, outer, inner)
  {
    out := [];
    var cursor, i := 0, 0;
    while i < |inner|
      invariant 0 <= i <= |inner| && |out| == i && cursor == Prefix(inner, i) <= |outer|
      invariant forall k :: k <= i ==> BoundaryBack(out, outer, inner, k)
    {
      PrefixGrows(inner, i + 1, |inner|);
      var total, j := 0, 0;
      while j < inner[i]
        invariant 0 <= j <= inner[i] && cursor == Prefix(inner, i) + j
        invariant Prefix(outer, Prefix(inner, i)) + total == Prefix(outer, cursor)
      {
        total := total + outer[cursor];
        cursor := cursor + 1;
        j := j + 1;
      }
      ghost var was := out;
      out := out + [total];
      forall k | k <= i + 1 ensures BoundaryBack(out, outer, inner, k) {
        if 0 <= k {
          assert BoundaryBack(was, outer, inner, if k <= i then k else i);
          PrefixOfPart(was, out, if k <= i then k else i);
        }
      }
      i := i + 1;
    }
    forall k ensures BoundaryBack(out, outer, inner, k) { if k <= i { assert BoundaryBack(out, outer, inner, k); } }
  }

  /** Composition keeps a vector a vector. */
  lemma ComposedCovers(v: seq<nat>, outer: seq<nat>, inner: seq<nat>, inputs: nat)
    requires Composes(v, outer, inner) && Positive(inner) && Covers(outer, inputs, |outer|)
    ensures Covers(v, inputs, |inner|)
  {
    forall i | 0 <= i < |v| ensures v[i] >= 1 {
      assert BoundaryBack(v, outer, inner, i) && BoundaryBack(v, outer, inner, i + 1);
      StrictlyGrows(outer, Prefix(inner, i), Prefix(inner, i + 1));
    }
    assert BoundaryBack(v, outer, inner, |v|);
  }

  lemma {:induction false} StrictlyGrows(v: seq<nat>, a: nat, b: nat)
    requires a < b <= |v| && Positive(v)
    ensures Prefix(v, a) < Prefix(v, b)
  {
    if a < b - 1 { StrictlyGrows(v, a, b - 1); }
  }

  // --- the chain ------------------------------------------------------------------

  /** The words after k stages; None once a stage failed or did not account for its words. */
  function After(c: seq<Stage>, input: seq<Word>, k: nat): Option<seq<Word>>
    requires k <= |c|
  {
    if k == 0 then Some(input)
    else
      var before := After(c, input, k - 1);
      if before.None? then None
      else
        var made := c[k - 1](before.value);
        if made.Made? && Accounts(made.spans, |before.value|, |made.words|) then Some(made.words) else None
  }

  lemma {:induction false} FailedStaysFailed(c: seq<Stage>, input: seq<Word>, j: nat, k: nat)
    requires j <= k <= |c| && After(c, input, j).None?
    ensures After(c, input, k).None?
  {
    if j < k { FailedStaysFailed(c, input, j, k - 1); }
  }

  /** Stage k's own vector. */
  function StageVector(c: seq<Stage>, input: seq<Word>, k: nat): seq<nat>
    requires k < |c| && After(c, input, k + 1).Some?
  {
    var made := c[k](After(c, input, k).value);
    Vector(Checked(made.spans), |made.words|)
  }

  lemma StageVectorCovers(c: seq<Stage>, input: seq<Word>, k: nat)
    requires k < |c| && After(c, input, k + 1).Some?
    ensures Covers(StageVector(c, input, k), |After(c, input, k).value|, |After(c, input, k + 1).value|)
  {
    var made := c[k](After(c, input, k).value);
    AccountsCovers(made.spans, |After(c, input, k).value|, |made.words|);
  }

  /** Where the boundary i of the words after k stages lies in the words the chain began with: back through one
   *  stage after the other. */
  function Origin(c: seq<Stage>, input: seq<Word>, k: nat, i: nat): nat
    requires k <= |c| && After(c, input, k).Some? && i <= |After(c, input, k).value|
    decreases k
  {
    if k == 0 then i
    else
      StageVectorCovers(c, input, k - 1);
      PrefixGrows(StageVector(c, input, k - 1), i, |StageVector(c, input, k - 1)|);
      Origin(c, input, k - 1, Prefix(StageVector(c, input, k - 1), i))
  }

  /** The vector's boundaries are the origins of the boundaries. */
  ghost predicate TracesBack(c: seq<Stage>, input: seq<Word>, k: nat, v: seq<nat>, i: int)
    requires k <= |c| && After(c, input, k).Some?
  {
    0 <= i <= |v| && i <= |After(c, input, k).value| ==> Prefix(v, i) == Origin(c, input, k, i)
  }

  ghost predicate TracesAllBack(c: seq<Stage>, input: seq<Word>, k: nat, v: seq<nat>)
    requires k <= |c| && After(c, input, k).Some?
  {
    forall i :: TracesBack(c, input, k, v, i)
  }

  /** Chain.Apply: it fails exactly when a stage fails or does not add up; otherwise one vector, an entry for every
   *  word, leads straight back to the words it began with. */
  method Apply(c: seq<Stage>, input: seq<Word>) returns (ok: bool, out: seq<Word>, spans: Option<seq<nat>>)
    ensures ok <==> After(c, input, |c|).Some?
    ensures ok ==> out == After(c, input, |c|).value && Covers(Vector(spans, |out|), |input|, |out|)
    ensures ok ==> TracesAllBack(c, input, |c|, Vector(spans, |out|))
  {
    out, spans := input, None;
    PrefixOfOnes(|input|, |input|);
    forall i ensures TracesBack(c, input, 0, Ones(|input|), i) { if 0 <= i <= |input| { PrefixOfOnes(|input|, i); } }
    var k := 0;
    while k < |c|
      invariant 0 <= k <= |c| && After(c, input, k) == Some(out)
      invariant Covers(Vector(spans, |out|), |input|, |out|)
      invariant TracesAllBack(c, input, k, Vector(spans, |out|))
    {
      var made := c[k](out);
      if made.Error? {
        FailedStaysFailed(c, input, k + 1, |c|);
        return false, [], None;
      }
      var adds := CheckSpans(|out|, |made.words|, made.spans);
      if !adds {
        FailedStaysFailed(c, input, k + 1, |c|);
        return false, [], None;
      }
      AccountsCovers(made.spans, |out|, |made.words|);
      var composed := ComposeSpans(spans, Checked(made.spans), |input|, |out|, |made.words|);
      StepBack(c, input, k, Vector(spans, |out|), StageVector(c, input, k), Vector(composed, |made.words|));
      out, spans := made.words, composed;
      k := k + 1;
    }
    return true, out, spans;
  }

  lemma StepBack(c: seq<Stage>, input: seq<Word>, k: nat, outer: seq<nat>, inner: seq<nat>, v: seq<nat>)
    requires k < |c| && After(c, input, k + 1).Some? && inner == StageVector(c, input, k)
    requires Covers(outer, |input|, |After(c, input, k).value|) && Composes(v, outer, inner)
    requires TracesAllBack(c, input, k, outer)
    ensures Covers(v, |input|, |After(c, input, k + 1).value|)
    ensures TracesAllBack(c, input, k + 1, v)
  {
    StageVectorCovers(c, input, k);
    ComposedCovers(v, outer, inner, |input|);
    var next := k + 1;
    forall i ensures TracesBack(c, input, next, v, i) {
      if 0 <= i <= |v| {
        assert BoundaryBack(v, outer, inner, i) && TracesBack(c, input, k, outer, Prefix(inner, i));
      }
    }
  }

  lemma {:induction false} TotalOf(v: seq<int>, w: seq<nat>, n: nat)
    requires n <= |v| == |w| && forall i :: 0 <= i < |v| ==> v[i] == w[i]
    ensures Total(v, n) == Prefix(w, n)
  {
    if n > 0 { TotalOf(v, w, n - 1); }
  }

  /** A vector passes exactly when it has an entry for every output word, each at least one, that add up to the inputs;
   *  without one a stage must return as many words as it was given. */
  lemma AccountsExactly(v: seq<int>, inputs: nat, outputs: nat)
    ensures Accounts(Some(v), inputs, outputs) <==> exists w: seq<nat> :: |w| == |v| && (forall i :: 0 <= i < |v| ==> v[i] == w[i]) && Covers(w, inputs, outputs)
    ensures Accounts(None, inputs, outputs) <==> inputs == outputs
  {
    if Accounts(Some(v), inputs, outputs) {
      var w := Nats(v);
      TotalOf(v, w, |v|);
      assert |w| == |v| && (forall i :: 0 <= i < |v| ==> v[i] == w[i]) && Covers(w, inputs, outputs);
    }
    if w: seq<nat> :| |w| == |v| && (forall i :: 0 <= i < |v| ==> v[i] == w[i]) && Covers(w, inputs, outputs) { TotalOf(v, w, |v|); }
  }

  /** The stages run in the order of the chain: the first on the input, the others on what it makes. */
  lemma {:induction false} FirstStageFirst(c: seq<Stage>, input: seq<Word>, k: nat)
    requires 1 <= k <= |c|
    ensures After(c, input, k) ==
            match c[0](input)
            case Error => None
            case Made(words, spans) => if Accounts(spans, |input|, |words|) then After(c[1..], words, k - 1) else None
  {
    if k > 1 { FirstStageFirst(c, input, k - 1); }
    assert After(c, input, 0) == Some(input);
  }
}
