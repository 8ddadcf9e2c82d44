/** The job queue of internal/job/queue.go: reservation-based admission, a sorted waiting line, workers that sleep
 *  on a condition variable.
 *
 *  window, resumed, served, arrived, taken and dropped are bookkeeping: the submissions that hold a reservation,
 *  how many jobs start-up carried forward, whether new work has been admitted, and every item's fate.
 */
module QueueProtocol {
  import opened StableSort

  type SubmitId = nat
  type WorkerId = nat

  datatype Worker = Awake | Asleep | Busy(item: Item) | Gone

  datatype State = State(
    size: int, items: seq<Item>, running: map<string, Item>, admitted: int, stopped: bool, workers: map<WorkerId, Worker>,
    window: set<SubmitId>, resumed: nat, served: bool, arrived: multiset<Item>, taken: multiset<Item>, dropped: multiset<Item>)

  function Init(size: int): State {
    State(if size < 1 then 1 else size, [], map[], 0, false, map[], {}, 0, false, multiset{}, multiset{}, multiset{})
  }

  datatype Event =
    | Reserve(sub: SubmitId)
    | Resume(sub: SubmitId)
    | Unreserve(sub: SubmitId)
    | Enqueue(sub: SubmitId, item: Item)
    | CancelWaiting(id: string)
    | StartWorker(w: WorkerId)
    | Doze(w: WorkerId)
    | Take(w: WorkerId)
    | Done(w: WorkerId, keepRunning: bool)   // run returns early, without its delete, when the job was cancelled
    | Leave(w: WorkerId)
    | Stop

  /** The first waiting item under the id, or the length of the line. */
  function IndexOf(items: seq<Item>, id: string): (i: nat)
    ensures i <= |items|
    ensures i < |items| ==> items[i].id == id
    ensures forall j :: 0 <= j < i ==> items[j].id != id
  {
    if items == [] || items[0].id == id then 0 else 1 + IndexOf(items[1..], id)
  }

  /** Position: one-based, 0 for a job that is not waiting. */
  function Position(items: seq<Item>, id: string): nat {
    var i := IndexOf(items, id);
    if i < |items| then i + 1 else 0
  }

  predicate Enabled(s: State, ev: Event) {
    match ev
    case Reserve(sub) => sub !in s.window && !s.stopped && |s.items| + s.admitted < s.size
    case Resume(sub) => sub !in s.window
    case Unreserve(sub) => sub in s.window
    case Enqueue(sub, _) => sub in s.window
    case CancelWaiting(id) => IndexOf(s.items, id) < |s.items|
    case StartWorker(w) => w !in s.workers
    case Doze(w) => w in s.workers && s.workers[w].Awake? && s.items == [] && !s.stopped
    case Take(w) => w in s.workers && s.workers[w].Awake? && s.items != [] && !s.stopped
    case Done(w, _) => w in s.workers && s.workers[w].Busy?
    case Leave(w) => w in s.workers && s.workers[w].Awake? && s.stopped
    case Stop => true
  }

  function WakeAll(workers: map<WorkerId, Worker>): map<WorkerId, Worker> {
    map w | w in workers :: if workers[w].Asleep? then Awake else workers[w]
  }

  function Less(admitted: int): int { if admitted > 0 then admitted - 1 else admitted }

  function RemoveAt(items: seq<Item>, i: nat): seq<Item>
    requires i < |items|
  {
    items[..i] + items[i + 1..]
  }

  function Apply(s: State, ev: Event): State
    requires Enabled(s, ev)
  {
    match ev
    case Reserve(sub) => s.(admitted := s.admitted + 1, window := s.window + {sub}, served := true)
    case Resume(sub) => s.(admitted := s.admitted + 1, window := s.window + {sub}, resumed := s.resumed + 1)
    case Unreserve(sub) => s.(admitted := Less(s.admitted), window := s.window - {sub})
    case Enqueue(sub, item) =>
      s.(admitted := Less(s.admitted), window := s.window - {sub}, items := Sort(s.items + [item]),
         workers := WakeAll(s.workers), arrived := s.arrived + multiset{item})
    case CancelWaiting(id) =>
      var i := IndexOf(s.items, id);
      s.(items := RemoveAt(s.items, i), dropped := s.dropped + multiset{s.items[i]})
    case StartWorker(w) => s.(workers := s.workers[w := Awake])
    case Doze(w) => s.(workers := s.workers[w := Asleep])
    case Take(w) =>
      s.(items := s.items[1..], running := s.running[s.items[0].id := s.items[0]], workers := s.workers[w := Busy(s.items[0])],
         taken := s.taken + multiset{s.items[0]})
    case Done(w, keepRunning) =>
      s.(workers := s.workers[w := Awake],
         running := if keepRunning then s.running else map id | id in s.running && id != s.workers[w].item.id :: s.running[id])
    case Leave(w) => s.(workers := s.workers[w := Gone])
    case Stop => s.(stopped := true, workers := WakeAll(s.workers))
  }

  function Max(a: int, b: int): int { if a < b then b else a }

  /** Nobody sleeps while there is work, or while the queue shuts down. */
  ghost predicate WorkerOk(s: State, w: WorkerId) {
    w in s.workers && s.workers[w].Asleep? ==> s.items == [] && !s.stopped
  }

  ghost predicate Inv(s: State) {
    && s.size >= 1
    && s.admitted == |s.window|
    && Sorted(s.items)
    && s.arrived == multiset(s.items) + s.taken + s.dropped
    && |s.items| + s.admitted <= s.size + s.resumed
    && (forall w :: WorkerOk(s, w))
  }

  lemma StepInv(s: State, ev: Event)
    requires Inv(s) && Enabled(s, ev)
    ensures Inv(Apply(s, ev))
    ensures ev.Unreserve? || ev.Enqueue? ==> s.admitted > 0   // the guards against going negative never fire
  {
    match ev
    case Unreserve(sub) => UnreserveInv(s, sub);
    case Enqueue(sub, item) => EnqueueInv(s, sub, item);
    case CancelWaiting(id) => CancelInv(s, id);
    case Take(w) => TakeInv(s, w);
    case _ => QuietInv(s, ev);
  }

  lemma QuietInv(s: State, ev: Event)
    requires Inv(s) && Enabled(s, ev) && !ev.Unreserve? && !ev.Enqueue? && !ev.CancelWaiting? && !ev.Take?
    ensures Inv(Apply(s, ev))
  {
    forall w ensures WorkerOk(Apply(s, ev), w) { assert WorkerOk(s, w); }
  }

  lemma UnreserveInv(s: State, sub: SubmitId)
    requires Inv(s) && sub in s.window
    ensures Inv(Apply(s, Unreserve(sub))) && s.admitted > 0
  {
    assert |s.window - {sub}| == |s.window| - 1;
    forall w ensures WorkerOk(Apply(s, Unreserve(sub)), w) { assert WorkerOk(s, w); }
  }

  lemma CancelInv(s: State, id: string)
    requires Inv(s) && Enabled(s, CancelWaiting(id))
    ensures Inv(Apply(s, CancelWaiting(id)))
  {
    Removed(s.items, IndexOf(s.items, id));
    forall w ensures WorkerOk(Apply(s, CancelWaiting(id)), w) { assert WorkerOk(s, w); }
  }

  lemma EnqueueInv(s: State, sub: SubmitId, item: Item)
    requires Inv(s) && sub in s.window
    ensures Inv(Apply(s, Enqueue(sub, item))) && s.admitted > 0
  {
    assert |s.window - {sub}| == |s.window| - 1;
    SortSorts(s.items + [item]);
    assert multiset(s.items + [item]) == multiset(s.items) + multiset{item};
  }

  lemma TakeInv(s: State, w: WorkerId)
    requires Inv(s) && Enabled(s, Take(w))
    ensures Inv(Apply(s, Take(w)))
  {
    assert s.items == [s.items[0]] + s.items[1..];
    forall i, j ensures InOrder(s.items[1..], i, j) { assert InOrder(s.items, i + 1, j + 1); }
    forall v ensures WorkerOk(Apply(s, Take(w)), v) { assert WorkerOk(s, v); }
  }

  lemma Removed(items: seq<Item>, i: nat)
    requires i < |items| && Sorted(items)
    ensures Sorted(RemoveAt(items, i)) && multiset(items) == multiset(RemoveAt(items, i)) + multiset{items[i]}
  {
    assert items == items[..i] + [items[i]] + items[i + 1..];
    forall j, k ensures InOrder(RemoveAt(items, i), j, k) {
      assert InOrder(items, j, k) && InOrder(items, j, k + 1) && InOrder(items, j + 1, k + 1);
    }
  }

  predicate Legal(s: State, evs: seq<Event>)
    decreases |evs|
  {
    evs == [] || (Enabled(s, evs[0]) && Legal(Apply(s, evs[0]), evs[1..]))
  }

  function Run(s: State, evs: seq<Event>): State
    requires Legal(s, evs)
    decreases |evs|
  {
    if evs == [] then s else Run(Apply(s, evs[0]), evs[1..])
  }

  lemma {:induction false} RunAppend(s: State, evs: seq<Event>, ev: Event)
    requires Legal(s, evs) && Enabled(Run(s, evs), ev)
    ensures Legal(s, evs + [ev]) && Run(s, evs + [ev]) == Apply(Run(s, evs), ev)
    decreases |evs|
  {
    if evs == [] {
      assert (evs + [ev])[1..] == [];
    } else {
      assert (evs + [ev])[1..] == evs[1..] + [ev];
      RunAppend(Apply(s, evs[0]), evs[1..], ev);
    }
  }

  lemma {:induction false} RunInv(s: State, evs: seq<Event>)
    requires Inv(s) && Legal(s, evs)
    ensures Inv(Run(s, evs))
    decreases |evs|
  {
    if evs != [] {
      StepInv(s, evs[0]);
      RunInv(Apply(s, evs[0]), evs[1..]);
    }
  }

  /** In every interleaving: admitted counts the submissions in their window; the line is in order; nobody sleeps
   *  while there is work or a shutdown; and every item that arrived is waiting, was taken once, or was cancelled. */
  lemma AdmissionIsExact(size: int, evs: seq<Event>)
    requires Legal(Init(size), evs)
    ensures var s := Run(Init(size), evs);
      && s.admitted == |s.window| && Sorted(s.items)
      && s.arrived == multiset(s.items) + s.taken + s.dropped
      && |s.items| + s.admitted <= s.size + s.resumed
      && (forall w :: WorkerOk(s, w))
  {
    RunInv(Init(size), evs);
  }

  /** Start-up resumes everything before it serves, so a Resume never follows a Reserve. */
  predicate StartupFirst(s: State, evs: seq<Event>)
    requires Legal(s, evs)
    decreases |evs|
  {
    evs == [] || ((evs[0].Resume? ==> !s.served) && StartupFirst(Apply(s, evs[0]), evs[1..]))
  }

  ghost predicate Bounded(s: State) {
    |s.items| + s.admitted <= if s.served then Max(s.size, s.resumed) else s.resumed
  }

  lemma StepBounded(s: State, ev: Event)
    requires Inv(s) && Bounded(s) && Enabled(s, ev) && (ev.Resume? ==> !s.served)
    ensures Bounded(Apply(s, ev))
  {
    StepInv(s, ev);
    if ev.Enqueue? { SortSorts(s.items + [ev.item]); }
  }

  /** No more than the size, or than what was carried forward if that was more. */
  predicate Within(s: State) { |s.items| + s.admitted <= Max(s.size, s.resumed) }

  predicate AlwaysWithin(s: State, evs: seq<Event>)
    requires Legal(s, evs)
    decreases |evs|
  {
    Within(s) && (evs == [] || AlwaysWithin(Apply(s, evs[0]), evs[1..]))
  }

  /** A job carried forward fits the bound it makes. */
  predicate HasRoom(s: State) { |s.items| + s.admitted < Max(s.size, s.resumed + 1) }

  predicate ResumesHaveRoom(s: State, evs: seq<Event>)
    requires Legal(s, evs)
    decreases |evs|
  {
    evs == [] || ((evs[0].Resume? ==> HasRoom(s)) && ResumesHaveRoom(Apply(s, evs[0]), evs[1..]))
  }

  lemma StepWithin(s: State, ev: Event)
    requires Inv(s) && Within(s) && Enabled(s, ev)
    ensures Within(Apply(s, ev)) <==> (ev.Resume? ==> HasRoom(s))
  {
    StepInv(s, ev);
    if ev.Enqueue? { SortSorts(s.items + [ev.item]); }
  }

  /** In any run the bound holds throughout exactly when every job carried forward finds room. */
  lemma {:induction false} WithinExactlyWhenResumesHaveRoom(s: State, evs: seq<Event>)
    requires Inv(s) && Within(s) && Legal(s, evs)
    ensures AlwaysWithin(s, evs) <==> ResumesHaveRoom(s, evs)
    decreases |evs|
  {
    if evs != [] {
      var next := Apply(s, evs[0]);
      StepInv(s, evs[0]);
      StepWithin(s, evs[0]);
      if Within(next) { WithinExactlyWhenResumesHaveRoom(next, evs[1..]); }
    }
  }

  lemma {:induction false} WithinAtTheEnd(s: State, evs: seq<Event>)
    requires Legal(s, evs) && AlwaysWithin(s, evs)
    ensures Within(Run(s, evs))
    decreases |evs|
  {
    if evs != [] { WithinAtTheEnd(Apply(s, evs[0]), evs[1..]); }
  }

  /** While nothing new is served, what is there was carried forward, so the next one has room. */
  lemma {:induction false} StartupHasRoom(s: State, evs: seq<Event>)
    requires Inv(s) && Bounded(s) && Legal(s, evs) && StartupFirst(s, evs)
    ensures ResumesHaveRoom(s, evs)
    decreases |evs|
  {
    if evs != [] {
      StepInv(s, evs[0]);
      StepBounded(s, evs[0]);
      StartupHasRoom(Apply(s, evs[0]), evs[1..]);
    }
  }

  /** The queue never holds more than its size, or than what start-up carried forward if that was more. */
  lemma QueueIsBounded(size: int, evs: seq<Event>)
    requires Legal(Init(size), evs) && StartupFirst(Init(size), evs)
    ensures AlwaysWithin(Init(size), evs)
    ensures var s := Run(Init(size), evs); |s.items| + s.admitted <= Max(s.size, s.resumed)
  {
    StartupHasRoom(Init(size), evs);
    WithinExactlyWhenResumesHaveRoom(Init(size), evs);
    WithinAtTheEnd(Init(size), evs);
  }

  /** The condition is not idle: a Resume after a Reserve, which start-up rules out, finds a queue of one full. */
  lemma LateResumeBreaksTheBound()
    ensures var evs := [Reserve(0)] + ([Resume(1)] + []);
      Legal(Init(1), evs) && var s := Run(Init(1), evs); |s.items| + s.admitted == 2 && Max(s.size, s.resumed) == 1
  {
    var evs := [Reserve(0)] + ([Resume(1)] + []);
    assert evs[0] == Reserve(0) && evs[1..] == [Resume(1)] + [];
    assert evs[1..][0] == Resume(1) && evs[1..][1..] == [];
    var s1 := Apply(Init(1), Reserve(0));
    assert Legal(s1, evs[1..]);
    var s2 := Apply(s1, Resume(1));
    assert Run(s1, evs[1..]) == s2 && Run(Init(1), evs) == s2;
  }

  /** What a worker takes is behind nobody left waiting: highest priority first, then the oldest. */
  lemma TakesTheFirst(s: State, w: WorkerId, other: Item)
    requires Inv(s) && Enabled(s, Take(w)) && other in Apply(s, Take(w)).items
    ensures !Ahead(other, s.items[0])
    ensures other.priority <= s.items[0].priority && (other.priority == s.items[0].priority ==> s.items[0].enqueued <= other.enqueued)
  {
    var j :| 0 <= j < |s.items[1..]| && s.items[1..][j] == other;
    assert InOrder(s.items, 0, j + 1) && s.items[j + 1] == other;
  }

  /** After k workers took an item each. */
  function AfterTakes(items: seq<Item>, k: nat): seq<Item>
    requires k <= |items|
  {
    if k == 0 then items else AfterTakes(items[1..], k - 1)
  }

  /** Position says when a job's turn comes: the job at position p is what the p-th worker from now takes, and
   *  whoever is taken before it is not behind it. */
  lemma {:induction false} PositionIsTheTurn(items: seq<Item>, id: string)
    requires Sorted(items) && Position(items, id) > 0
    ensures var p := Position(items, id);
      && p <= |items| && items[p - 1].id == id
      && AfterTakes(items, p - 1) != [] && AfterTakes(items, p - 1)[0] == items[p - 1]
      && (forall i :: 0 <= i < p - 1 ==> items[i].id != id && !Ahead(items[p - 1], items[i]))
  {
    var p := Position(items, id);
    TakesShift(items, p - 1);
    forall i | 0 <= i < p - 1 ensures !Ahead(items[p - 1], items[i]) { assert InOrder(items, i, p - 1); }
  }

  lemma {:induction false} TakesShift(items: seq<Item>, k: nat)
    requires k <= |items|
    ensures AfterTakes(items, k) == items[k..]
  {
    if k > 0 {
      TakesShift(items[1..], k - 1);
    }
  }

  /** A later arrival passes a waiting job only by priority or age: whoever was ahead of the job stays ahead. */
  lemma ArrivalKeepsOrder(items: seq<Item>, x: Item, i: nat)
    requires Sorted(items) && i < |items| && !Ahead(x, items[i])
    ensures i < |Sort(items + [x])| && Sort(items + [x])[..i + 1] == items[..i + 1]
  {
    SortAfterAppend(items, x);
    var k := Place(items, x, |items|);
    PlaceIsBehind(items, x, |items|);
    assert i < k;
    assert Insert(items, x)[..i + 1] == items[..k][..i + 1];
  }
}
