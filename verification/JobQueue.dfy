/** The queue's object: each method is one stretch of internal/job/queue.go under Queue.mu. */
module JobQueue {
  import opened Options
  import opened StableSort
  import P = QueueProtocol

  datatype Refusal = Draining | QueueFull
  datatype Answer = Accepted | Refused(why: Refusal)

  /** How one turn of next ends. */
  datatype Turn = Got(item: Item) | ShutDown | MustWait

  /** A stored job of the previous process; readable says whether its audio is still on disk. */
  datatype Pending = Pending(id: string, priority: int, created: int, readable: bool) {
    /** Its place in the line is by its priority and by when it was created, not by when it is resumed. */
    function item(): Item { Item(id, priority, created) }
  }

  /** Of the first n, in order. */
  function Survivors(pending: seq<Pending>, n: nat): seq<Item>
    requires n <= |pending|
  {
    if n == 0 then []
    else Survivors(pending, n - 1) + (if pending[n - 1].readable then [pending[n - 1].item()] else [])
  }

  /** Of the first n, the jobs that cannot run, in order. */
  function Lost(pending: seq<Pending>, n: nat): seq<Item>
    requires n <= |pending|
  {
    if n == 0 then [] else Lost(pending, n - 1) + (if pending[n - 1].readable then [] else [pending[n - 1].item()])
  }

  /** The survivors' ids. */
  function Live(pending: seq<Pending>, n: nat): set<string>
    requires n <= |pending|
  {
    if n == 0 then {} else Live(pending, n - 1) + (if pending[n - 1].readable then {pending[n - 1].id} else {})
  }

  /** Item i, the first under the id, is gone from the line. */
  predicate Leaves(was: seq<Item>, now: seq<Item>, i: nat, id: string)
    requires i < |was|
  {
    was[i].id == id && now == was[..i] + was[i + 1..] && forall j :: 0 <= j < i ==> was[j].id != id
  }

  class Queue {
    const size: int
    var items: seq<Item>
    var running: map<string, Item>
    var admitted: int
    var stopped: bool
    var asleep: set<P.WorkerId>   // the condition variable's notify list
    ghost var m: P.State

    ghost predicate InList(w: P.WorkerId)
      reads this
    {
      w in asleep <==> w in m.workers && m.workers[w].Asleep?
    }

    ghost predicate Valid()
      reads this
    {
      && m.size == size && m.items == items && m.running == running && m.admitted == admitted && m.stopped == stopped
      && (forall w :: InList(w)) && P.Inv(m)
    }

    ghost predicate Takes(before: P.State, ev: P.Event)
      reads this
    {
      P.Enabled(before, ev) && m == P.Apply(before, ev)
    }

    constructor (size: int)
      ensures Valid() && m == P.Init(size)
    {
      this.size := if size < 1 then 1 else size;
      items, running, admitted, stopped, asleep, m := [], map[], 0, false, {}, P.Init(size);
    }

    /** reserve: refused exactly when the queue drains, or when what waits and what was promised fill it. */
    method Reserve(ghost sub: P.SubmitId) returns (answer: Answer)
      requires Valid() && sub !in m.window
      modifies this
      ensures Valid()
      ensures answer == (if old(stopped) then Refused(Draining)
                         else if |old(items)| + |old(m).window| >= size then Refused(QueueFull) else Accepted)
      ensures if answer.Accepted? then Takes(old(m), P.Reserve(sub)) else m == old(m)
    {
      if stopped {
        return Refused(Draining);
      }
      if |items| + admitted >= size {
        return Refused(QueueFull);
      }
      P.StepInv(m, P.Reserve(sub));
      admitted := admitted + 1;
      m := P.Apply(m, P.Reserve(sub));
      forall w ensures InList(w) { assert old(InList(w)); }
      return Accepted;
    }

    method Resume(ghost sub: P.SubmitId)
      requires Valid() && sub !in m.window
      modifies this
      ensures Valid() && Takes(old(m), P.Resume(sub))
    {
      P.StepInv(m, P.Resume(sub));
      admitted := admitted + 1;
      m := P.Apply(m, P.Resume(sub));
      forall w ensures InList(w) { assert old(InList(w)); }
    }

    method Unreserve(ghost sub: P.SubmitId)
      requires Valid() && sub in m.window
      modifies this
      ensures Valid() && Takes(old(m), P.Unreserve(sub)) && admitted == old(admitted) - 1
    {
      P.StepInv(m, P.Unreserve(sub));
      if admitted > 0 {
        admitted := admitted - 1;
      }
      m := P.Apply(m, P.Unreserve(sub));
      forall w ensures InList(w) { assert old(InList(w)); }
    }

    method SortLocked()
      modifies this`items
      ensures items == Sort(old(items))
    {
      items := Sort(items);
    }

    /** A reservation becomes a place in the line, and everybody asleep is woken. */
    method Place(item: Item)
      modifies this`items, this`admitted, this`asleep
      ensures items == Sort(old(items) + [item]) && admitted == P.Less(old(admitted)) && asleep == {}
    {
      if admitted > 0 {
        admitted := admitted - 1;
      }
      items := items + [item];
      SortLocked();
      asleep := {};
    }

    method Enqueue(item: Item, ghost sub: P.SubmitId)
      requires Valid() && sub in m.window
      modifies this
      ensures Valid() && Takes(old(m), P.Enqueue(sub, item)) && asleep == {}
    {
      P.EnqueueInv(m, sub, item);
      Place(item);
      m := P.Apply(m, P.Enqueue(sub, item));
      forall w ensures InList(w) { assert old(InList(w)); }
    }

    /** The first place under the id, or the length of the line. */
    method Find(id: string) returns (i: nat)
      ensures i == P.IndexOf(items, id)
    {
      i := 0;
      while i < |items| && items[i].id != id
        invariant i <= |items| && P.IndexOf(items, id) == i + P.IndexOf(items[i..], id)
      {
        assert items[i..][1..] == items[i + 1..];
        i := i + 1;
      }
    }

    method Position(id: string) returns (p: nat)
      ensures p == P.Position(items, id)
      ensures p > 0 ==> p <= |items| && items[p - 1].id == id
    {
      var i := Find(id);
      p := if i < |items| then i + 1 else 0;
    }

    /** One turn of next's loop. */
    method Next(w: P.WorkerId) returns (t: Turn)
      requires Valid() && w in m.workers && m.workers[w].Awake?
      modifies this
      ensures Valid()
      ensures match t
              case Got(item) => Takes(old(m), P.Take(w)) && item == old(items)[0]
              case ShutDown => Takes(old(m), P.Leave(w))
              case MustWait => Takes(old(m), P.Doze(w))
    {
      assert InList(w);
      if |items| == 0 && !stopped {
        P.StepInv(m, P.Doze(w));
        asleep := asleep + {w};
        m := P.Apply(m, P.Doze(w));
        t := MustWait;
      } else if stopped {
        P.StepInv(m, P.Leave(w));
        m := P.Apply(m, P.Leave(w));
        t := ShutDown;
      } else {
        P.StepInv(m, P.Take(w));
        var item := items[0];
        items := items[1..];
        running := running[item.id := item];
        m := P.Apply(m, P.Take(w));
        t := Got(item);
      }
      forall v ensures InList(v) { assert old(InList(v)); }
    }

    /** The worker is through with its item; finish deletes it from running, an early return of run does not. */
    method Done(w: P.WorkerId, item: Item, finished: bool)
      requires Valid() && w in m.workers && m.workers[w] == P.Busy(item)
      modifies this
      ensures Valid() && Takes(old(m), P.Done(w, !finished))
    {
      P.StepInv(m, P.Done(w, !finished));
      if finished {
        running := map id | id in running && id != item.id :: running[id];
      }
      m := P.Apply(m, P.Done(w, !finished));
      forall v ensures InList(v) { assert old(InList(v)); }
    }

    /** Cancel's first section: a waiting job leaves the line, and nobody else moves. */
    method CancelWaiting(id: string) returns (waiting: bool)
      requires Valid()
      modifies this
      ensures Valid()
      ensures waiting <==> exists i :: 0 <= i < |old(items)| && old(items)[i].id == id
      ensures if waiting then Takes(old(m), P.CancelWaiting(id)) else m == old(m)
      ensures waiting ==> exists i :: 0 <= i < |old(items)| && Leaves(old(items), items, i, id)
    {
      var i := Find(id);
      waiting := i < |items|;
      if waiting {
        P.StepInv(m, P.CancelWaiting(id));
        assert Leaves(items, items[..i] + items[i + 1..], i, id);
        items := items[..i] + items[i + 1..];
        m := P.Apply(m, P.CancelWaiting(id));
        forall v ensures InList(v) { assert old(InList(v)); }
      }
    }

    method Stop()
      requires Valid()
      modifies this
      ensures Valid() && Takes(old(m), P.Stop) && asleep == {}
    {
      P.StepInv(m, P.Stop);
      stopped := true;
      asleep := {};
      m := P.Apply(m, P.Stop);
      forall v ensures InList(v) { assert old(InList(v)); }
    }

    /** Since first, the events evs put exactly these items in the line, and took no reservation for good. */
    ghost predicate Carried(first: P.State, evs: seq<P.Event>, carried: seq<Item>)
      reads this
    {
      && P.Legal(first, evs) && m == P.Run(first, evs)
      && (forall ev :: ev in evs ==> ev.Resume? || ev.Enqueue?)
      && multiset(items) == multiset(first.items) + multiset(carried)
      && m.window == first.window && m.resumed == first.resumed + |carried|
    }

    /** A job of the previous process goes from its row into the line. */
    method Carry(item: Item, ghost sub: P.SubmitId, ghost first: P.State, ghost evs: seq<P.Event>, ghost carried: seq<Item>)
      returns (ghost after: seq<P.Event>)
      requires Valid() && sub !in first.window && Carried(first, evs, carried)
      modifies this
      ensures Valid() && Carried(first, after, carried + [item])
    {
      SortSorts(items + [item]);
      Resume(sub);
      P.RunAppend(first, evs, P.Resume(sub));
      Enqueue(item, sub);
      P.RunAppend(first, evs + [P.Resume(sub)], P.Enqueue(sub, item));
      after := evs + [P.Resume(sub)] + [P.Enqueue(sub, item)];
    }

    /** What Recover has done with the first n. */
    ghost predicate Recovered(first: P.State, evs: seq<P.Event>, pending: seq<Pending>, n: nat, live: set<string>)
      requires n <= |pending|
      reads this
    {
      Carried(first, evs, Survivors(pending, n)) && live == Live(pending, n)
    }

    method RecoverOne(pending: seq<Pending>, i: nat, live: set<string>, ghost sub: P.SubmitId, ghost first: P.State, ghost evs: seq<P.Event>)
      returns (after: set<string>, ghost longer: seq<P.Event>)
      requires Valid() && sub !in first.window && i < |pending| && Recovered(first, evs, pending, i, live)
      modifies this
      ensures Valid() && Recovered(first, longer, pending, i + 1, after)
    {
      after, longer := live, evs;
      if pending[i].readable {
        after := live + {pending[i].id};
        longer := Carry(pending[i].item(), sub, first, evs, Survivors(pending, i));
      }
    }

    /** failRecovered, for a job whose audio is gone. */
    method Failing(p: Pending, failed: seq<Item>) returns (more: seq<Item>)
      ensures more == failed + if p.readable then [] else [p.item()]
    {
      more := failed;
      if !p.readable {
        more := failed + [p.item()];
      }
    }

    /** Recover: every job whose audio survived is back in line, whatever the size, live names exactly those, and the
     *  others are failed; with no answer from the store nothing happens at all. */
    method Recover(stored: Option<seq<Pending>>, ghost sub: P.SubmitId)
      returns (live: Option<set<string>>, failed: seq<Item>, ghost evs: seq<P.Event>)
      requires Valid() && sub !in m.window
      modifies this
      ensures Valid() && (live.None? <==> stored.None?) && (stored.None? ==> m == old(m) && failed == [])
      ensures stored.Some? ==> Recovered(old(m), evs, stored.value, |stored.value|, live.value)
      ensures stored.Some? ==> failed == Lost(stored.value, |stored.value|)
    {
      if stored.None? {
        return None, [], [];
      }
      var names;
      names, failed, evs := RecoverAll(stored.value, sub);
      live := Some(names);
    }

    method RecoverAll(pending: seq<Pending>, ghost sub: P.SubmitId) returns (live: set<string>, failed: seq<Item>, ghost evs: seq<P.Event>)
      requires Valid() && sub !in m.window
      modifies this
      ensures Valid() && Recovered(old(m), evs, pending, |pending|, live) && failed == Lost(pending, |pending|)
    {
      live, failed, evs := {}, [], [];
      for i := 0 to |pending|
        invariant Valid() && Recovered(old(m), evs, pending, i, live)
        invariant failed == Lost(pending, i)
      {
        live, evs := RecoverOne(pending, i, live, sub, old(m), evs);
        failed := Failing(pending[i], failed);
      }
    }
  }

  /** What Recover calls live is the id of every job whose audio is still there, and no other. */
  lemma {:induction false} LiveIsWhatSurvived(pending: seq<Pending>, n: nat, id: string)
    requires n <= |pending|
    ensures id in Live(pending, n) <==> exists item :: item in Survivors(pending, n) && item.id == id
    ensures id in Live(pending, n) <==> exists i :: 0 <= i < n && pending[i].readable && pending[i].id == id
  {
    if n > 0 {
      LiveIsWhatSurvived(pending, n - 1, id);
      var before, p := Survivors(pending, n - 1), pending[n - 1];
      assert forall item :: item in Survivors(pending, n) <==> item in before || (p.readable && item == p.item());
      assert p.item().id == p.id && (p.readable ==> p.item() in Survivors(pending, n));
    }
  }

  /** Who is back in line is a stored job whose audio is there, under its own priority and age. */
  lemma {:induction false} SurvivorsKeepTheirPlace(pending: seq<Pending>, n: nat, it: Item)
    requires n <= |pending|
    ensures it in Survivors(pending, n) <==>
            exists i :: 0 <= i < n && pending[i].readable && it.id == pending[i].id && it.priority == pending[i].priority && it.enqueued == pending[i].created
    ensures it in Lost(pending, n) <==>
            exists i :: 0 <= i < n && !pending[i].readable && it.id == pending[i].id && it.priority == pending[i].priority && it.enqueued == pending[i].created
    ensures |Survivors(pending, n)| + |Lost(pending, n)| == n
  {
    if n > 0 { SurvivorsKeepTheirPlace(pending, n - 1, it); }
  }
}
