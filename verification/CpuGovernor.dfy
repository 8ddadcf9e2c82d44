/** The governor's object: each method is one stretch of Acquire or Release under the lock. */
module CpuGovernor {
  import P = GovernorProtocol

  /** How one turn of Acquire's loop ends. */
  datatype Turn = Granted | ContextOver | MustWait

  class Governor {
    const capacity: int
    var used: int
    var asleep: set<P.CallId>   // the condition variable's notify list
    ghost var m: P.State

    ghost predicate InList(c: P.CallId)
      reads this
    {
      c in asleep <==> c in m.calls && m.calls[c].phase.Asleep?
    }

    ghost predicate Valid()
      reads this
    {
      m.capacity == capacity && m.used == used && (forall c :: InList(c)) && P.Inv(m)
    }

    constructor (capacity: int)
      ensures Valid() && m == P.Init(capacity)
    {
      this.capacity := if capacity < 1 then 1 else capacity;
      used, asleep, m := 0, {}, P.Init(capacity);
    }

    ghost predicate Takes(before: P.State, ev: P.Event)
      reads this
    {
      P.Enabled(before, ev) && m == P.Apply(before, ev)
    }

    /** Acquire up to its lock: the weight is clamped, and a callback waits for the context to end, or is on its way if it
     *  has. */
    method Begin(n: int, cancelled: bool, ghost c: P.CallId) returns (k: int)
      requires Valid() && c !in m.calls && c !in m.callbacks
      modifies this`m
      ensures Valid() && Takes(old(m), P.Register(c, n, cancelled))
      ensures 1 <= k <= capacity && (1 <= n <= capacity ==> k == n) && (n < 1 ==> k == 1) && (n > capacity ==> k == capacity)
      ensures c in m.calls && m.calls[c].n == k
    {
      k := n;
      if k < 1 {
        k := 1;
      }
      if k > capacity {
        k := capacity;
      }
      P.StepInv(m, P.Register(c, n, cancelled));
      m := P.Apply(m, P.Register(c, n, cancelled));
      forall d ensures InList(d) { assert old(InList(d)); }
    }

    /** mu.Lock, before the loop or on the way out of Wait. */
    method Lock(ghost c: P.CallId)
      requires Valid() && P.Enabled(m, P.Lock(c))
      modifies this`m
      ensures Valid() && Takes(old(m), P.Lock(c)) && m.calls[c].n == old(m).calls[c].n
    {
      P.StepInv(m, P.Lock(c));
      m := P.Apply(m, P.Lock(c));
      forall d ensures InList(d) { assert old(InList(d)); }
    }

    /** One turn of Acquire's loop, for a weight already clamped. */
    method TestRoom(n: int, cancelled: bool, ghost c: P.CallId) returns (t: Turn)
      requires Valid() && P.Enabled(m, P.Test(c)) && n == m.calls[c].n && cancelled == m.calls[c].cancelled
      modifies this
      ensures Valid() && Takes(old(m), P.Test(c))
      ensures t.Granted? <==> old(used) + n <= capacity
      ensures t.ContextOver? <==> old(used) + n > capacity && cancelled
      ensures used == old(used) + if t.Granted? then n else 0
    {
      P.StepInv(m, P.Test(c));
      if used + n > capacity {
        t := if cancelled then ContextOver else MustWait;
      } else {
        used := used + n;
        t := Granted;
      }
      m := P.Apply(m, P.Test(c));
      forall d ensures InList(d) { assert old(InList(d)); }
    }

    /** cond.Wait: into the notify list and off the lock in one step. */
    method Wait(c: P.CallId)
      requires Valid() && P.Enabled(m, P.Sleep(c))
      modifies this
      ensures Valid() && Takes(old(m), P.Sleep(c)) && used == old(used)
    {
      P.StepInv(m, P.Sleep(c));
      asleep := asleep + {c};
      m := P.Apply(m, P.Sleep(c));
      forall d ensures InList(d) { assert old(InList(d)); }
    }

    /** The AfterFunc callback. */
    method Wake(ghost c: P.CallId)
      requires Valid() && P.Enabled(m, P.Broadcast(c))
      modifies this
      ensures Valid() && Takes(old(m), P.Broadcast(c)) && asleep == {} && used == old(used)
    {
      P.StepInv(m, P.Broadcast(c));
      asleep := {};
      m := P.Apply(m, P.Broadcast(c));
      forall d ensures InList(d) { assert old(InList(d)); }
    }

    /** Release for a call that holds its weight: exactly that weight comes back and everybody is woken. */
    method Release(n: int, ghost c: P.CallId)
      requires Valid() && P.Enabled(m, P.Release(c, n))
      modifies this
      ensures Valid() && Takes(old(m), P.Release(c, n))
      ensures used == old(used) - P.Clamp(n, capacity) && asleep == {}
    {
      var k := n;
      if k < 1 {
        k := 1;
      }
      if k > capacity {
        k := capacity;
      }
      used := used - k;
      if used < 0 {
        used := 0;
      }
      asleep := {};
      P.StepInv(m, P.Release(c, n));
      m := P.Apply(m, P.Release(c, n));
      forall d ensures InList(d) { assert old(InList(d)); }
    }
  }
}
