/** What sort.SliceStable promises for the queue's order: sorted, nothing lost, equals left in their order. */
module StableSort {
  datatype Item = Item(id: string, priority: int, enqueued: int)

  /** The sort's less function. */
  predicate Ahead(a: Item, b: Item) {
    if a.priority != b.priority then a.priority > b.priority else a.enqueued < b.enqueued
  }

  ghost predicate InOrder(s: seq<Item>, i: int, j: int) {
    0 <= i < j < |s| ==> !Ahead(s[j], s[i])
  }

  ghost predicate Sorted(s: seq<Item>) {
    forall i, j :: InOrder(s, i, j)
  }

  /** Looking back from n: the place behind everything that is not behind x. */
  function Place(s: seq<Item>, x: Item, n: nat): (k: nat)
    requires n <= |s|
    ensures k <= n
  {
    if n == 0 || !Ahead(x, s[n - 1]) then n else Place(s, x, n - 1)
  }

  lemma {:induction false} PlaceIsBehind(s: seq<Item>, x: Item, n: nat)
    requires n <= |s|
    ensures var k := Place(s, x, n); (k > 0 ==> !Ahead(x, s[k - 1])) && forall i :: k <= i < n ==> Ahead(x, s[i])
  {
    if n > 0 && Ahead(x, s[n - 1]) { PlaceIsBehind(s, x, n - 1); }
  }

  function Insert(s: seq<Item>, x: Item): seq<Item> {
    var k := Place(s, x, |s|);
    s[..k] + [x] + s[k..]
  }

  /** The first n in order. */
  function SortFirst(s: seq<Item>, n: nat): seq<Item>
    requires n <= |s|
  {
    if n == 0 then [] else Insert(SortFirst(s, n - 1), s[n - 1])
  }

  function Sort(s: seq<Item>): seq<Item> {
    SortFirst(s, |s|)
  }

  lemma PutIn(a: seq<Item>, x: Item, b: seq<Item>)
    requires Sorted(a + b) && (a != [] ==> !Ahead(x, a[|a| - 1])) && (forall i :: 0 <= i < |b| ==> Ahead(x, b[i]))
    ensures Sorted(a + [x] + b)
  {
    var s, t := a + b, a + [x] + b;
    forall i, j ensures InOrder(t, i, j) {
      assert InOrder(s, i, j) && InOrder(s, i, j - 1) && InOrder(s, i - 1, j - 1) && InOrder(s, i, |a| - 1);
    }
  }

  lemma InsertSorted(s: seq<Item>, x: Item)
    requires Sorted(s)
    ensures Sorted(Insert(s, x)) && multiset(Insert(s, x)) == multiset(s) + multiset{x}
  {
    var k := Place(s, x, |s|);
    assert s == s[..k] + s[k..];
    PlaceIsBehind(s, x, |s|);
    PutIn(s[..k], x, s[k..]);
  }

  lemma {:induction false} SortFirstSorts(s: seq<Item>, n: nat)
    requires n <= |s|
    ensures Sorted(SortFirst(s, n)) && multiset(SortFirst(s, n)) == multiset(s[..n])
  {
    if n > 0 {
      SortFirstSorts(s, n - 1);
      InsertSorted(SortFirst(s, n - 1), s[n - 1]);
      assert s[..n] == s[..n - 1] + [s[n - 1]];
    }
  }

  lemma SortSorts(s: seq<Item>)
    ensures Sorted(Sort(s)) && multiset(Sort(s)) == multiset(s) && |Sort(s)| == |s|
  {
    SortFirstSorts(s, |s|);
    assert s[..|s|] == s && |multiset(Sort(s))| == |multiset(s)|;
  }

  /** The items of one priority and one age, in order. */
  function Class(s: seq<Item>, priority: int, enqueued: int): seq<Item> {
    if s == [] then []
    else (if s[0].priority == priority && s[0].enqueued == enqueued then [s[0]] else []) + Class(s[1..], priority, enqueued)
  }

  lemma {:induction false} ClassAppend(a: seq<Item>, b: seq<Item>, priority: int, enqueued: int)
    ensures Class(a + b, priority, enqueued) == Class(a, priority, enqueued) + Class(b, priority, enqueued)
  {
    if a == [] {
      assert a + b == b;
    } else {
      assert (a + b)[1..] == a[1..] + b;
      ClassAppend(a[1..], b, priority, enqueued);
    }
  }

  lemma {:induction false} NoneOfTheClass(s: seq<Item>, x: Item)
    requires forall i :: 0 <= i < |s| ==> Ahead(x, s[i])
    ensures Class(s, x.priority, x.enqueued) == []
  {
    if s != [] { NoneOfTheClass(s[1..], x); }
  }

  lemma InsertIsStable(s: seq<Item>, x: Item, priority: int, enqueued: int)
    ensures Class(Insert(s, x), priority, enqueued) == Class(s, priority, enqueued) + Class([x], priority, enqueued)
  {
    var k := Place(s, x, |s|);
    PlaceIsBehind(s, x, |s|);
    assert s == s[..k] + s[k..];
    NoneOfTheClass(s[k..], x);
    ClassOfThree(s[..k], x, s[k..], priority, enqueued);
  }

  lemma ClassOfThree(a: seq<Item>, x: Item, b: seq<Item>, priority: int, enqueued: int)
    requires Class(b, x.priority, x.enqueued) == []
    ensures Class(a + [x] + b, priority, enqueued) == Class(a + b, priority, enqueued) + Class([x], priority, enqueued)
  {
    ClassAppend(a + [x], b, priority, enqueued);
    ClassAppend(a, [x], priority, enqueued);
    ClassAppend(a, b, priority, enqueued);
    if x.priority != priority || x.enqueued != enqueued {
      assert Class([x], priority, enqueued) == [];
    }
  }

  lemma {:induction false} SortFirstIsStable(s: seq<Item>, n: nat, priority: int, enqueued: int)
    requires n <= |s|
    ensures Class(SortFirst(s, n), priority, enqueued) == Class(s[..n], priority, enqueued)
  {
    if n > 0 {
      SortFirstIsStable(s, n - 1, priority, enqueued);
      InsertIsStable(SortFirst(s, n - 1), s[n - 1], priority, enqueued);
      ClassAppend(s[..n - 1], [s[n - 1]], priority, enqueued);
      assert s[..n] == s[..n - 1] + [s[n - 1]];
    }
  }

  lemma SortIsStable(s: seq<Item>, priority: int, enqueued: int)
    ensures Class(Sort(s), priority, enqueued) == Class(s, priority, enqueued)
  {
    SortFirstIsStable(s, |s|, priority, enqueued);
    assert s[..|s|] == s;
  }

  lemma {:induction false} SortFirstOfSorted(s: seq<Item>, t: seq<Item>, n: nat)
    requires Sorted(s) && n <= |s|
    ensures SortFirst(s + t, n) == s[..n]
  {
    if n > 0 {
      SortFirstOfSorted(s, t, n - 1);
      var front, x := s[..n - 1], s[n - 1];
      assert (s + t)[n - 1] == x;
      assert InOrder(s, n - 2, n - 1);
      assert Place(front, x, n - 1) == n - 1;
      assert Insert(front, x) == front + [x] == s[..n];
    }
  }

  /** Appending to a sorted line and sorting is one insertion. */
  lemma SortAfterAppend(s: seq<Item>, x: Item)
    requires Sorted(s)
    ensures Sort(s + [x]) == Insert(s, x)
  {
    SortFirstOfSorted(s, [x], |s|);
    assert s[..|s|] == s;
  }
}
