/** The CPU governor of internal/pool/governor.go: a weighted semaphore on a condition variable.
 *
 *  Cancelling a context takes no lock, so Acquire's critical section is cut where a cancellation can fall:
 *  between the test of ctx.Err and the Wait that follows it.
 */
module GovernorProtocol {
  import opened Options
  import opened Sums

  type CallId = nat

  datatype Phase =
    | Registered   // context.AfterFunc is set, the lock is still to come
    | Testing      // holds the lock, at the head of the loop
    | Refused      // holds the lock, saw no room and no cancellation, about to Wait
    | Asleep       // in cond.Wait
    | Woken        // out of the notify list, waiting for the lock
    | Holding      // Acquire returned nil

  datatype Call = Call(n: int, phase: Phase, cancelled: bool)

  /** callbacks are the AfterFunc functions that have been started and not yet broadcast. */
  datatype State = State(capacity: int, used: int, lock: Option<CallId>, calls: map<CallId, Call>, callbacks: set<CallId>)

  function Init(capacity: int): State {
    State(if capacity < 1 then 1 else capacity, 0, None, map[], {})
  }

  /** What Acquire and Release both make of a request for n threads. */
  function Clamp(n: int, capacity: int): int {
    var n := if n < 1 then 1 else n;
    if n > capacity then capacity else n
  }

  datatype Event =
    | Register(c: CallId, n: int, cancelled: bool)
    | Lock(c: CallId)
    | Test(c: CallId)
    | Sleep(c: CallId)
    | Cancel(c: CallId)
    | Broadcast(c: CallId)
    | Release(c: CallId, n: int)

  predicate Enabled(s: State, ev: Event) {
    match ev
    case Register(c, _, _) => c !in s.calls && c !in s.callbacks
    case Lock(c) => s.lock.None? && c in s.calls && (s.calls[c].phase.Registered? || s.calls[c].phase.Woken?)
    case Test(c) => c in s.calls && s.calls[c].phase.Testing?
    case Sleep(c) => c in s.calls && s.calls[c].phase.Refused?
    case Cancel(c) => c in s.calls && !s.calls[c].cancelled && !s.calls[c].phase.Holding?
    case Broadcast(c) => s.lock.None? && c in s.callbacks
    case Release(c, n) => s.lock.None? && c in s.calls && s.calls[c].phase.Holding? && Clamp(n, s.capacity) == s.calls[c].n
  }

  function WakeAll(calls: map<CallId, Call>): map<CallId, Call> {
    map c | c in calls :: if calls[c].phase.Asleep? then calls[c].(phase := Woken) else calls[c]
  }

  function Forget(calls: map<CallId, Call>, c: CallId): map<CallId, Call> {
    map d | d in calls && d != c :: calls[d]
  }

  function SetPhase(s: State, c: CallId, phase: Phase): State
    requires c in s.calls
  {
    s.(calls := s.calls[c := s.calls[c].(phase := phase)])
  }

  function Apply(s: State, ev: Event): State
    requires Enabled(s, ev)
  {
    match ev
    case Register(c, n, cancelled) =>
      s.(calls := s.calls[c := Call(Clamp(n, s.capacity), Registered, cancelled)],
         callbacks := if cancelled then s.callbacks + {c} else s.callbacks)
    case Lock(c) => SetPhase(s, c, Testing).(lock := Some(c))
    case Test(c) =>
      if s.used + s.calls[c].n <= s.capacity then SetPhase(s, c, Holding).(used := s.used + s.calls[c].n, lock := None)
      else if s.calls[c].cancelled then s.(calls := Forget(s.calls, c), lock := None)
      else SetPhase(s, c, Refused)
    case Sleep(c) => SetPhase(s, c, Asleep).(lock := None)
    case Cancel(c) => s.(calls := s.calls[c := s.calls[c].(cancelled := true)], callbacks := s.callbacks + {c})
    case Broadcast(c) => s.(calls := WakeAll(s.calls), callbacks := s.callbacks - {c})
    case Release(c, n) =>
      var used := s.used - Clamp(n, s.capacity);
      s.(used := if used < 0 then 0 else used, calls := WakeAll(Forget(s.calls, c)))
  }

  /** What each call keeps out of the semaphore. */
  function Held(calls: map<CallId, Call>): map<CallId, int> {
    map c | c in calls :: if calls[c].phase.Holding? then calls[c].n else 0
  }

  ghost predicate CallOk(s: State, c: CallId) {
    c in s.calls ==>
      var k := s.calls[c];
      && 1 <= k.n <= s.capacity
      && (k.phase.Testing? || k.phase.Refused? <==> s.lock == Some(c))
      && (k.phase.Refused? || k.phase.Asleep? ==> s.used + k.n > s.capacity && (k.cancelled ==> c in s.callbacks))
  }

  ghost predicate Inv(s: State) {
    && s.used == Sum(Held(s.calls)) && 0 <= s.used <= s.capacity && 1 <= s.capacity
    && (s.lock.Some? ==> s.lock.value in s.calls)
    && (forall c :: CallOk(s, c))
  }

  lemma SameHeld(a: map<CallId, Call>, b: map<CallId, Call>)
    requires a.Keys == b.Keys && forall c :: c in a ==> a[c].n == b[c].n && (a[c].phase.Holding? <==> b[c].phase.Holding?)
    ensures Held(a) == Held(b)
  {}

  lemma ForgetHeld(calls: map<CallId, Call>, c: CallId)
    requires c in calls
    ensures Sum(Held(calls)) == Sum(Held(Forget(calls, c))) + (if calls[c].phase.Holding? then calls[c].n else 0)
  {
    SumStep(Held(calls), c);
    assert Drop(Held(calls), c) == Held(Forget(calls, c));
  }

  lemma StepInv(s: State, ev: Event)
    requires Inv(s) && Enabled(s, ev)
    ensures Inv(Apply(s, ev))
    ensures ev.Release? ==> s.used - Clamp(ev.n, s.capacity) >= 0   // the clamp below zero never fires
  {
    StepCounts(s, ev);
    if s.lock.Some? { assert CallOk(s, s.lock.value); }
    forall c ensures CallOk(Apply(s, ev), c) { StepCallOk(s, ev, c); }
  }

  lemma StepCallOk(s: State, ev: Event, c: CallId)
    requires Inv(s) && Enabled(s, ev)
    ensures CallOk(Apply(s, ev), c)
  {
    assert CallOk(s, c) && CallOk(s, ev.c);
  }

  lemma StepCounts(s: State, ev: Event)
    requires Inv(s) && Enabled(s, ev)
    ensures var s' := Apply(s, ev); s'.used == Sum(Held(s'.calls)) && 0 <= s'.used <= s'.capacity
    ensures ev.Release? ==> s.used - Clamp(ev.n, s.capacity) >= 0
  {
    var s' := Apply(s, ev);
    assert CallOk(s, ev.c);
    match ev
    case Register(c, n, cancelled) => SumUpdate(Held(s.calls), c, 0); assert Held(s'.calls) == Held(s.calls)[c := 0];
    case Test(c) => TestCounts(s, c);
    case Release(c, n) =>
      HeldIsUsed(s, c);
      ForgetHeld(s.calls, c);
      SameHeld(Forget(s.calls, c), s'.calls);
    case _ => SameHeld(s.calls, s'.calls);
  }

  lemma TestCounts(s: State, c: CallId)
    requires Inv(s) && Enabled(s, Test(c))
    ensures var s' := Apply(s, Test(c)); s'.used == Sum(Held(s'.calls)) && 0 <= s'.used <= s'.capacity
  {
    var s' := Apply(s, Test(c));
    assert CallOk(s, c);
    if s.used + s.calls[c].n <= s.capacity {
      SumUpdate(Held(s.calls), c, s.calls[c].n);
      assert Held(s'.calls) == Held(s.calls)[c := s.calls[c].n];
    } else if s.calls[c].cancelled {
      ForgetHeld(s.calls, c);
    } else {
      SameHeld(s.calls, s'.calls);
    }
  }

  lemma HeldIsUsed(s: State, c: CallId)
    requires Inv(s) && c in s.calls && s.calls[c].phase.Holding?
    ensures s.calls[c].n <= s.used
  {
    forall d | d in s.calls ensures Held(s.calls)[d] >= 0 { assert CallOk(s, d); }
    SumBounds(Held(s.calls));
    assert Held(s.calls)[c] == s.calls[c].n;
  }

  ghost predicate Legal(s: State, evs: seq<Event>)
    decreases |evs|
  {
    evs == [] || (Enabled(s, evs[0]) && Legal(Apply(s, evs[0]), evs[1..]))
  }

  function Run(s: State, evs: seq<Event>): State
    requires Legal(s, evs)
    decreases |evs|
  {
    if evs == [] then s else Run(Apply(s, evs[0]), evs[1..])
  }

  lemma {:induction false} RunInv(s: State, evs: seq<Event>)
    requires Inv(s) && Legal(s, evs)
    ensures Inv(Run(s, evs))
    decreases |evs|
  {
    if evs != [] {
      StepInv(s, evs[0]);
      RunInv(Apply(s, evs[0]), evs[1..]);
    }
  }

  /** No wake-up is lost: who sleeps does not fit, and who sleeps cancelled has its broadcast still coming. The
   *  semaphore counts what is held, exactly, so with nothing held nobody sleeps. */
  lemma NoLostWakeUps(capacity: int, evs: seq<Event>)
    requires Legal(Init(capacity), evs)
    ensures var s := Run(Init(capacity), evs);
      && s.used == Sum(Held(s.calls)) && 0 <= s.used <= s.capacity
      && (forall c :: c in s.calls && s.calls[c].phase.Asleep? ==>
            s.used + s.calls[c].n > s.capacity && (s.calls[c].cancelled ==> c in s.callbacks))
      && ((forall c :: c in s.calls ==> !s.calls[c].phase.Holding?) ==> forall c :: c in s.calls ==> !s.calls[c].phase.Asleep?)
  {
    var s := Run(Init(capacity), evs);
    RunInv(Init(capacity), evs);
    forall c | c in s.calls && s.calls[c].phase.Asleep?
      ensures s.used + s.calls[c].n > s.capacity && (s.calls[c].cancelled ==> c in s.callbacks)
    { assert CallOk(s, c); }
    if forall c :: c in s.calls ==> !s.calls[c].phase.Holding? {
      SumZero(Held(s.calls));
      forall c | c in s.calls ensures !s.calls[c].phase.Asleep? { assert CallOk(s, c); }
    }
  }

  /** One more broadcast and every sleeper is awake: releasing leaves nobody in the notify list. */
  lemma ReleaseWakesEverybody(s: State, ev: Event)
    requires Enabled(s, ev) && (ev.Release? || ev.Broadcast?)
    ensures forall c :: c in Apply(s, ev).calls ==> !Apply(s, ev).calls[c].phase.Asleep?
  {}

  ghost predicate NoneRegisters(evs: seq<Event>, c: CallId) {
    forall i :: 0 <= i < |evs| ==> !(evs[i].Register? && evs[i].c == c)
  }

  /** A call's weight is settled when it begins. */
  lemma {:induction false} WeightStays(s: State, evs: seq<Event>, c: CallId)
    requires Legal(s, evs) && NoneRegisters(evs, c)
    ensures Run(s, evs).capacity == s.capacity
    ensures c in Run(s, evs).calls ==> c in s.calls && Run(s, evs).calls[c].n == s.calls[c].n
    decreases |evs|
  {
    if evs != [] {
      assert !(evs[0].Register? && evs[0].c == c);
      WeightStays(Apply(s, evs[0]), evs[1..], c);
    }
  }

  /** Whatever happens between, a call that acquired with n can release with the same n, and that gives back exactly what
   *  it took. */
  lemma WhatWasTakenComesBack(s: State, c: CallId, n: int, cancelled: bool, evs: seq<Event>)
    requires Inv(s) && Enabled(s, Register(c, n, cancelled)) && Legal(Apply(s, Register(c, n, cancelled)), evs) && NoneRegisters(evs, c)
    ensures var now := Run(Apply(s, Register(c, n, cancelled)), evs);
      c in now.calls && now.calls[c].phase.Holding? && now.lock.None? ==>
        Enabled(now, Release(c, n)) && Apply(now, Release(c, n)).used == now.used - now.calls[c].n
  {
    var s1 := Apply(s, Register(c, n, cancelled));
    var now := Run(s1, evs);
    StepInv(s, Register(c, n, cancelled));
    RunInv(s1, evs);
    WeightStays(s1, evs, c);
    if c in now.calls && now.calls[c].phase.Holding? && now.lock.None? { StepInv(now, Release(c, n)); }
  }
}
