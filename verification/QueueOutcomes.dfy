/** What each step of the job queue does to the line, the reservations and the workers. */
module QueueOutcomes {
  import opened StableSort
  import opened QueueProtocol

  /** A waiting job that is cancelled leaves the line: the first under the id, and nobody else moves. */
  lemma CancelTakesTheOneAsked(s: State, id: string) returns (x: seq<Item>, it: Item, y: seq<Item>)
    requires Inv(s) && Enabled(s, CancelWaiting(id))
    ensures var s' := Apply(s, CancelWaiting(id));
      && s.items == x + [it] + y && s'.items == x + y
      && it.id == id && (forall i :: 0 <= i < |x| ==> x[i].id != id)
      && s' == s.(items := x + y, dropped := s.dropped + multiset{it})
  {
    var i := IndexOf(s.items, id);
    x, it, y := s.items[..i], s.items[i], s.items[i + 1..];
    assert s.items == x + [it] + y;
  }

  /** A waiting job can be cancelled, and no other. */
  lemma CancelNeedsOneWaiting(s: State, id: string)
    ensures Enabled(s, CancelWaiting(id)) <==> exists i :: 0 <= i < |s.items| && s.items[i].id == id
  {}

  /** The item joins the line behind whoever it is not ahead of and ahead of whoever it is; the others keep their order. */
  lemma EnqueueJoinsTheLine(s: State, sub: SubmitId, item: Item) returns (x: seq<Item>, y: seq<Item>)
    requires Inv(s) && Enabled(s, Enqueue(sub, item))
    ensures var s' := Apply(s, Enqueue(sub, item));
      && s.items == x + y && s'.items == x + [item] + y
      && (forall i :: 0 <= i < |x| ==> x[i].priority > item.priority || (x[i].priority == item.priority && x[i].enqueued <= item.enqueued))
      && (forall i :: 0 <= i < |y| ==> item.priority > y[i].priority || (item.priority == y[i].priority && item.enqueued < y[i].enqueued))
  {
    SortAfterAppend(s.items, item);
    x, y := InsertSplits(s.items, item);
  }

  lemma InsertSplits(items: seq<Item>, item: Item) returns (x: seq<Item>, y: seq<Item>)
    requires Sorted(items)
    ensures items == x + y && Insert(items, item) == x + [item] + y
    ensures (forall i :: 0 <= i < |x| ==> x[i].priority > item.priority || (x[i].priority == item.priority && x[i].enqueued <= item.enqueued))
    ensures (forall i :: 0 <= i < |y| ==> item.priority > y[i].priority || (item.priority == y[i].priority && item.enqueued < y[i].enqueued))
  {
    var k := Place(items, item, |items|);
    PlaceIsBehind(items, item, |items|);
    x, y := items[..k], items[k..];
    assert items == x + y;
    forall i | 0 <= i < |x| ensures !Ahead(item, x[i]) && !Ahead(x[k - 1], x[i]) { if i < k - 1 { assert InOrder(items, i, k - 1); } }
  }

  /** The reservation is used up, every sleeper is woken, and nothing else about the queue changes. */
  lemma EnqueueUsesTheSlot(s: State, sub: SubmitId, item: Item)
    requires Inv(s) && Enabled(s, Enqueue(sub, item))
    ensures var s' := Apply(s, Enqueue(sub, item));
      && s'.admitted == s.admitted - 1 && s'.window == s.window - {sub}
      && s'.arrived == s.arrived + multiset{item} && s'.taken == s.taken && s'.dropped == s.dropped && s'.running == s.running
      && s'.workers.Keys == s.workers.Keys
      && (forall w :: w in s.workers ==> s'.workers[w] == if s.workers[w].Asleep? then Awake else s.workers[w])
  {
    EnqueueInv(s, sub, item);
  }

  /** A worker takes the head of the line and runs it. */
  lemma TakeGivesTheHead(s: State, w: WorkerId)
    requires Inv(s) && Enabled(s, Take(w))
    ensures var s' := Apply(s, Take(w));
      s.items != [] && var it := s.items[0];
      && [it] + s'.items == s.items
      && s' == s.(items := s'.items, workers := s.workers[w := Busy(it)], running := s.running[it.id := it], taken := s.taken + multiset{it})
  {}

  /** A slot is promised exactly while the queue accepts and has one that is neither taken nor promised. */
  lemma ReserveTakesASlot(s: State, sub: SubmitId)
    requires Inv(s) && sub !in s.window
    ensures Enabled(s, Reserve(sub)) <==> !s.stopped && |s.items| + |s.window| < s.size
    ensures Enabled(s, Reserve(sub)) ==>
        var s' := Apply(s, Reserve(sub)); s'.admitted == s.admitted + 1 && s'.window == s.window + {sub} && s'.items == s.items && s'.stopped == s.stopped
    ensures Enabled(s, Resume(sub)) &&
        var s' := Apply(s, Resume(sub)); s'.admitted == s.admitted + 1 && s'.window == s.window + {sub} && s'.items == s.items
  {}

  /** A submission that fails gives its slot back, and only that. */
  lemma UnreserveGivesItBack(s: State, sub: SubmitId)
    requires Inv(s) && Enabled(s, Unreserve(sub))
    ensures Apply(s, Unreserve(sub)) == s.(admitted := s.admitted - 1, window := s.window - {sub})
  {
    StepInv(s, Unreserve(sub));
  }

  /** A worker that is done is free again; its job is out of running unless it was cancelled on the way. */
  lemma DoneFreesTheWorker(s: State, w: WorkerId, keepRunning: bool)
    requires Inv(s) && Enabled(s, Done(w, keepRunning))
    ensures var s' := Apply(s, Done(w, keepRunning));
      && w in s.workers && s.workers[w].Busy? && s'.workers == s.workers[w := Awake] && s'.items == s.items && s'.admitted == s.admitted
      && (keepRunning ==> s'.running == s.running) && (!keepRunning ==> s'.running == s.running - {s.workers[w].item.id})
  {
    assert Apply(s, Done(w, false)).running == s.running - {s.workers[w].item.id};
  }

  /** Once the queue stops nothing is reserved, nobody sleeps and nobody takes; what waits stays in line but for cancels,
   *  and for what was promised before. */
  lemma {:induction false} StoppedForGood(s: State, evs: seq<Event>)
    requires Inv(s) && s.stopped && Legal(s, evs)
    ensures Run(s, evs).stopped && (forall w :: w in Run(s, evs).workers ==> !Run(s, evs).workers[w].Asleep?)
    ensures forall i :: 0 <= i < |evs| ==> !evs[i].Reserve? && !evs[i].Take? && !evs[i].Doze?
    decreases |evs|
  {
    if evs == [] {
      forall w | w in s.workers ensures !s.workers[w].Asleep? { assert WorkerOk(s, w); }
    } else {
      StepInv(s, evs[0]);
      StoppedForGood(Apply(s, evs[0]), evs[1..]);
      forall i | 0 <= i < |evs| ensures !evs[i].Reserve? && !evs[i].Take? && !evs[i].Doze? { if i > 0 { assert evs[i] == evs[1..][i - 1]; } }
    }
  }

  /** Stop stops, and wakes everybody. */
  lemma StopStops(s: State)
    requires Inv(s)
    ensures var s' := Apply(s, Stop); s'.stopped && s'.items == s.items && s'.running == s.running && s'.window == s.window
  {}
}
