/** Whole runs of the model pool: any interleaving of critical sections, and what holds in all of them. */
module PoolRuns {
  import opened Options
  import opened PoolProtocol

  // ---------------------------------------------------------------- eviction

  predicate IsVariant(e: Entry) { e.id != e.baseID }

  /** Neither pinned, nor leased, nor still loading. */
  predicate Idle(s: State, u: EntryId)
    requires u in s.entries
  {
    !s.entries[u].pinned && s.entries[u].refs <= 0 && s.entries[u].state == Ready
  }

  predicate Candidate(s: State, u: EntryId) {
    u in s.entries && Serving(s, u) && Idle(s, u)
  }

  /** The order evictLocked takes its victims in: variants first, then the least recently used. */
  predicate Sooner(a: Entry, b: Entry) {
    if IsVariant(a) != IsVariant(b) then IsVariant(a) else a.lastUsed <= b.lastUsed
  }

  ghost predicate IsVictim(s: State, u: EntryId) {
    Candidate(s, u) && forall w :: Candidate(s, w) ==> Sooner(s.entries[u], s.entries[w])
  }

  ghost function TotalRss(current: map<string, EntryId>, entries: map<EntryId, Entry>): int {
    if current == map[] then 0
    else
      var k :| k in current;
      (if current[k] in entries then entries[current[k]].rss else 0) + TotalRss(RemoveKey(current, k), entries)
  }

  ghost predicate OverLimit(s: State) {
    |s.current| > s.limits.maxResident || TotalRss(s.current, s.entries) > s.limits.maxRss
  }

  /** evictLocked removed exactly these entries, in this order. */
  ghost predicate EvictionRun(s: State, us: seq<EntryId>)
    ensures EvictionRun(s, us) ==> forall u :: u in us ==> u in s.entries
    decreases |us|
  {
    if us == [] then !OverLimit(s) || forall u :: !Candidate(s, u)
    else OverLimit(s) && IsVictim(s, us[0]) && EvictionRun(Evict(s, us[0]), us[1..])
  }

  function EvictAll(s: State, us: seq<EntryId>): (s': State)
    requires forall u :: u in us ==> u in s.entries
    ensures s'.entries.Keys == s.entries.Keys
    decreases |us|
  {
    if us == [] then s else EvictAll(Evict(s, us[0]), us[1..])
  }

  function RetireAll(s: State, us: seq<EntryId>): (s': State)
    requires forall u :: u in us ==> u in s.entries
    ensures s'.entries.Keys == s.entries.Keys
    decreases |us|
  {
    if us == [] then s else RetireAll(Retire(s, us[0]), us[1..])
  }

  function AbandonAll(s: State, us: seq<EntryId>): (s': State)
    requires forall u :: u in us ==> u in s.entries
    ensures s'.entries.Keys == s.entries.Keys
    decreases |us|
  {
    if us == [] then s else AbandonAll(Abandon(s, us[0]), us[1..])
  }

  /** us lists, once each and in the order some map iteration found them, the entries satisfying the test. */
  ghost predicate Lists(us: seq<EntryId>, all: iset<EntryId>) {
    && (forall u :: u in us <==> u in all)
    && (forall i, j :: 0 <= i < j < |us| ==> us[i] != us[j])
  }

  ghost function VariantsOf(s: State, id: string): iset<EntryId> {
    iset u | u in s.entries && Serving(s, u) && s.entries[u].baseID == id && s.entries[u].id != id
  }

  ghost function ModelEntries(s: State, id: string): iset<EntryId> {
    iset u | u in s.entries && Serving(s, u) && s.entries[u].baseID == id
  }

  // ---------------------------------------------------------------- events and runs

  datatype Event =
    | Hit(key: string, l: LeaseId, now: int)                        // Acquire finds a ready entry
    | Wait(p: ProcId, key: string)                                  // Acquire finds a load in flight
    | Wake(p: ProcId)                                               // the awaited ready channel is closed
    | GiveUp(p: ProcId)                                             // the waiting caller's context ended
    | Claimed(p: ProcId, id: string, v: string, u: EntryId, now: int)
    | LoadReturned(p: ProcId, r: RecId)
    | LoadFailed(p: ProcId)
    | LoadSettled(p: ProcId, l: LeaseId, now: int, rss: int, evicted: seq<EntryId>)
    | Released(l: LeaseId, now: int, evicted: seq<EntryId>)
    | ReloadReturned(p: ProcId, id: string, r: RecId)
    | ReloadRefused(p: ProcId)
    | Swapped(p: ProcId, u: EntryId, now: int, rss: int, retired: seq<EntryId>, evicted: seq<EntryId>)
    | Unloaded(id: string, retired: seq<EntryId>)
    | Swept(now: int, ttl: int, swept: seq<EntryId>)
    | Pinned(id: string, pinned: bool)
    | CloseBegan
    | CloseEnded(dropped: seq<EntryId>)

  /** LoadSettled before any eviction: the three ways AcquireVariant ends a load that succeeded. */
  function Settle(s: State, p: ProcId, l: LeaseId, now: int, rss: int): State
    requires p in s.procs && s.procs[p].Loaded? && s.procs[p].of in s.entries
    requires forall k :: k in s.current ==> s.current[k] in s.entries && (s.entries[s.current[k]].state == Ready ==> s.entries[s.current[k]].rec.Some?)
  {
    var u := s.procs[p].of;
    var key := s.entries[u].id;
    if Serving(s, u) then SettleReady(s, p, l, now, rss)
    else if key in s.current && s.entries[s.current[key]].state == Ready then
      Grant(SettleRetired(s, p, false), s.current[key], l, now)
    else SettleRetired(s, p, true)
  }

  /** The retirements of a Reload or an Unload: the base entry, then every variant of the model. */
  function RetireModel(s: State, id: string, retired: seq<EntryId>): (s': State)
    requires id in s.current ==> s.current[id] in s.entries
    requires forall u :: u in retired ==> u in s.entries
    ensures s'.entries.Keys == s.entries.Keys
  {
    RetireAll(if id in s.current then Retire(s, s.current[id]) else s, retired)
  }

  function Swap(s: State, p: ProcId, u: EntryId, now: int, rss: int, retired: seq<EntryId>): State
    requires p in s.procs && s.procs[p].Swapper?
    requires s.procs[p].id in s.current ==> s.current[s.procs[p].id] in s.entries
    requires forall w :: w in retired ==> w in s.entries
  {
    var id := s.procs[p].id;
    var s' := RetireModel(s, id, retired);
    if p in s'.procs && s'.procs[p].Swapper? then
      InstallFresh(s', p, u, id in s.current && s.entries[s.current[id]].pinned, rss, now)
    else s'
  }

  function DropAll(s: State, dropped: seq<EntryId>): State
    requires forall u :: u in dropped ==> u in s.entries
  {
    AbandonAll(s.(shut := true), dropped).(draining := {})
  }

  ghost predicate Enabled(s: State, ev: Event)
    requires Inv(s)
  {
    InvFiles(s);
    match ev
    case Hit(key, l, now) =>
      !s.closed && key in s.current && s.entries[s.current[key]].state == Ready && l !in s.leases
    case Wait(p, key) =>
      !s.closed && key in s.current && s.entries[s.current[key]].state == Loading && p !in s.procs
    case Wake(p) => p in s.procs && s.procs[p].Waiting? && s.entries[s.procs[p].on].readyCloses > 0
    case GiveUp(p) => p in s.procs && s.procs[p].Waiting?
    case Claimed(p, id, v, u, now) =>
      var key := VariantKey(id, v);
      && !s.closed && p !in s.procs && u !in s.entries
      && (key in s.current ==> s.entries[s.current[key]].state == Draining)
    case LoadReturned(p, r) => p in s.procs && s.procs[p].Loader? && r !in s.where
    case LoadFailed(p) => p in s.procs && s.procs[p].Loader?
    case LoadSettled(p, l, now, rss, evicted) =>
      && p in s.procs && s.procs[p].Loaded? && l !in s.leases
      && (if Serving(s, s.procs[p].of) then
            EvictionRun(Settle(s, p, l, now, rss), evicted)
          else evicted == [])
    case Released(l, now, evicted) =>
      && l in s.leases && EvictionRun(Release(s, l, now), evicted)
    case ReloadReturned(p, id, r) => p !in s.procs && r !in s.where
    case ReloadRefused(p) => p in s.procs && s.procs[p].Swapper?
    case Swapped(p, u, now, rss, retired, evicted) =>
      && p in s.procs && s.procs[p].Swapper? && u !in s.entries
      && Lists(retired, VariantsOf(s, s.procs[p].id))
      && EvictionRun(Swap(s, p, u, now, rss, retired), evicted)
    case Unloaded(id, retired) => id in s.current && Lists(retired, VariantsOf(s, id))
    case Swept(now, ttl, swept) =>
      ttl > 0 && Lists(swept, iset u | Candidate(s, u) && now - s.entries[u].lastUsed > ttl)
    case Pinned(id, pinned) => id in s.current
    case CloseBegan => true
    case CloseEnded(dropped) => s.closed && Lists(dropped, iset u | u in s.entries && Serving(s, u))
  }

  ghost function Apply(s: State, ev: Event): State
    requires Inv(s) && Enabled(s, ev)
  {
    InvFiles(s);
    match ev
    case Hit(key, l, now) => Grant(s, s.current[key], l, now)
    case Wait(p, key) => s.(procs := s.procs[p := Waiting(s.current[key])])
    case Wake(p) => s.(procs := Without(s.procs, p))
    case GiveUp(p) => s.(procs := Without(s.procs, p))
    case Claimed(p, id, v, u, now) => Claim(s, p, id, v, u, now)
    case LoadReturned(p, r) => HandOver(s, p, Loaded(s.procs[p].of, r), r)
    case LoadFailed(p) => SettleFailed(s, p)
    case LoadSettled(p, l, now, rss, evicted) =>
      if Serving(s, s.procs[p].of) then EvictAll(Settle(s, p, l, now, rss), evicted) else Settle(s, p, l, now, rss)
    case Released(l, now, evicted) => EvictAll(Release(s, l, now), evicted)
    case ReloadReturned(p, id, r) => HandOver(s, p, Swapper(id, r), r)
    case ReloadRefused(p) => ThrowAway(s, p)
    case Swapped(p, u, now, rss, retired, evicted) => EvictAll(Swap(s, p, u, now, rss, retired), evicted)
    case Unloaded(id, retired) => RetireModel(s, id, retired)
    case Swept(now, ttl, swept) => EvictAll(s, swept)
    case Pinned(id, pinned) =>
      SetEntry(s, s.current[id], s.entries[s.current[id]].(pinned := pinned))
    case CloseBegan => s.(closed := true)
    case CloseEnded(dropped) => DropAll(s, dropped)
  }

  /** The invariant, in the form the definitions above look entries up by. */
  lemma InvFiles(s: State)
    requires Inv(s)
    ensures forall k :: k in s.current ==>
        s.current[k] in s.entries && s.entries[s.current[k]].id == k && (s.entries[s.current[k]].state == Ready ==> s.entries[s.current[k]].rec.Some?)
        && s.entries[s.current[k]].state != Draining
    ensures forall p :: p in s.procs && !s.procs[p].Swapper? ==>
        (match s.procs[p] case Waiting(u) => u in s.entries case Loader(u) => u in s.entries case Loaded(u, _) => u in s.entries case Swapper(_, _) => true)
    ensures forall l :: l in s.leases ==> s.leases[l].on in s.entries
  {
    forall k | k in s.current ensures s.current[k] in s.entries && s.entries[s.current[k]].id == k && (s.entries[s.current[k]].state == Ready ==> s.entries[s.current[k]].rec.Some?)
        && s.entries[s.current[k]].state != Draining {
      assert KeyOk(s, k);
      assert EntryOk(s, s.current[k]);
    }
    forall p | p in s.procs && !s.procs[p].Swapper?
      ensures match s.procs[p] case Waiting(u) => u in s.entries case Loader(u) => u in s.entries case Loaded(u, _) => u in s.entries case Swapper(_, _) => true
    { assert ProcOk(s, p); }
    forall l | l in s.leases ensures s.leases[l].on in s.entries { assert LeaseOk(s, l); }
  }

  // ---------------------------------------------------------------- the invariant over runs

  lemma StillServing(s: State, s': State, u: EntryId, w: EntryId)
    requires u in s.entries && Serving(s, u) && w in s.entries && w != u
    requires s' == Evict(s, u) || s' == Retire(s, u) || s' == Abandon(s, u)
    ensures Serving(s', w) <==> Serving(s, w)
    ensures s'.entries[w] == s.entries[w]
    ensures s'.current.Keys <= s.current.Keys && s'.procs == s.procs && s'.shut == s.shut
  {
    assert s'.current == RemoveKey(s.current, s.entries[u].id);
  }

  lemma {:induction false} EvictionRunInv(s: State, us: seq<EntryId>)
    requires Inv(s) && EvictionRun(s, us)
    ensures Inv(EvictAll(s, us))
    decreases |us|
  {
    if us != [] {
      assert EntryOk(s, us[0]);
      EvictInv(s, us[0]);
      EvictionRunInv(Evict(s, us[0]), us[1..]);
    }
  }

  lemma {:induction false} SweepInv(s: State, us: seq<EntryId>)
    requires Inv(s) && (forall u :: u in us ==> u in s.entries && Candidate(s, u))
    requires forall i, j :: 0 <= i < j < |us| ==> us[i] != us[j]
    ensures Inv(EvictAll(s, us))
    decreases |us|
  {
    if us != [] {
      assert EntryOk(s, us[0]);
      EvictInv(s, us[0]);
      forall w | w in us[1..] ensures Candidate(Evict(s, us[0]), w) { StillServing(s, Evict(s, us[0]), us[0], w); }
      SweepInv(Evict(s, us[0]), us[1..]);
    }
  }

  lemma {:induction false} RetireAllInv(s: State, us: seq<EntryId>)
    requires Inv(s) && (forall u :: u in us ==> u in s.entries && Serving(s, u))
    requires forall i, j :: 0 <= i < j < |us| ==> us[i] != us[j]
    ensures Inv(RetireAll(s, us))
    ensures RetireAll(s, us).current.Keys <= s.current.Keys && RetireAll(s, us).procs == s.procs
    decreases |us|
  {
    if us != [] {
      RetireInv(s, us[0]);
      forall w | w in us[1..] ensures Serving(Retire(s, us[0]), w) { StillServing(s, Retire(s, us[0]), us[0], w); }
      RetireAllInv(Retire(s, us[0]), us[1..]);
    }
  }

  lemma {:induction false} AbandonAllInv(s: State, us: seq<EntryId>)
    requires Inv(s) && s.shut && (forall u :: u in us ==> u in s.entries && Serving(s, u))
    requires forall i, j :: 0 <= i < j < |us| ==> us[i] != us[j]
    ensures Inv(AbandonAll(s, us)) && AbandonAll(s, us).shut
    decreases |us|
  {
    if us != [] {
      AbandonInv(s, us[0]);
      forall w | w in us[1..] ensures Serving(Abandon(s, us[0]), w) { StillServing(s, Abandon(s, us[0]), us[0], w); }
      AbandonAllInv(Abandon(s, us[0]), us[1..]);
    }
  }

  lemma RetireModelInv(s: State, id: string, retired: seq<EntryId>)
    requires Inv(s) && Lists(retired, VariantsOf(s, id))
    requires id in s.current ==> s.current[id] in s.entries
    ensures Inv(RetireModel(s, id, retired))
    ensures id !in RetireModel(s, id, retired).current && RetireModel(s, id, retired).procs == s.procs
  {
    if id in s.current {
      assert KeyOk(s, id);
      var s1 := Retire(s, s.current[id]);
      RetireInv(s, s.current[id]);
      forall w | w in retired ensures w in s1.entries && Serving(s1, w) { StillServing(s, s1, s.current[id], w); }
      assert id !in s1.current;
      RetireAllInv(s1, retired);
    } else {
      RetireAllInv(s, retired);
    }
  }

  lemma PinInv(s: State, u: EntryId, pinned: bool)
    requires Inv(s) && u in s.entries
    ensures Inv(SetEntry(s, u, s.entries[u].(pinned := pinned)))
  {
    var s' := SetEntry(s, u, s.entries[u].(pinned := pinned));
    forall k ensures KeyOk(s', k) { assert KeyOk(s, k); }
    forall w ensures EntryOk(s', w) { assert EntryOk(s, w); }
    forall l ensures LeaseOk(s', l) { assert LeaseOk(s, l); }
    forall p ensures ProcOk(s', p) { assert ProcOk(s, p); }
    forall r ensures RecOk(s', r) { assert RecOk(s, r); }
  }

  lemma SettleInv(s: State, p: ProcId, l: LeaseId, now: int, rss: int)
    requires Inv(s) && p in s.procs && s.procs[p].Loaded? && l !in s.leases && s.procs[p].of in s.entries
    requires forall k :: k in s.current ==> s.current[k] in s.entries && (s.entries[s.current[k]].state == Ready ==> s.entries[s.current[k]].rec.Some?)
    ensures Inv(Settle(s, p, l, now, rss))
  {
    InvFiles(s);
    var u := s.procs[p].of;
    var key := s.entries[u].id;
    if Serving(s, u) {
      SettleReadyInv(s, p, l, now, rss);
    } else {
      SettleRetiredInv(s, p, true);
      SettleRetiredInv(s, p, false);
      if key in s.current && s.entries[s.current[key]].state == Ready {
        GrantInv(SettleRetired(s, p, false), s.current[key], l, now);
      }
    }
  }

  lemma SwapInv(s: State, p: ProcId, u: EntryId, now: int, rss: int, retired: seq<EntryId>)
    requires Inv(s) && p in s.procs && s.procs[p].Swapper? && u !in s.entries && Lists(retired, VariantsOf(s, s.procs[p].id))
    requires s.procs[p].id in s.current ==> s.current[s.procs[p].id] in s.entries
    ensures Inv(Swap(s, p, u, now, rss, retired))
  {
    var id := s.procs[p].id;
    RetireModelInv(s, id, retired);
    InstallFreshInv(RetireModel(s, id, retired), p, u, id in s.current && s.entries[s.current[id]].pinned, rss, now);
  }

  lemma DropAllInv(s: State, dropped: seq<EntryId>)
    requires Inv(s) && Lists(dropped, iset u | u in s.entries && Serving(s, u))
    ensures Inv(DropAll(s, dropped))
  {
    var s1 := s.(shut := true);
    QuietInv(s, s1);
    AbandonAllInv(s1, dropped);
    QuietInv(AbandonAll(s1, dropped), DropAll(s, dropped));
  }

  lemma StepInv(s: State, ev: Event)
    requires Inv(s) && Enabled(s, ev)
    ensures Inv(Apply(s, ev))
  {
    InvFiles(s);
    match ev
    case Hit(key, l, now) => GrantInv(s, s.current[key], l, now);
    case Wait(p, key) => QuietInv(s, Apply(s, ev));
    case Wake(p) => QuietInv(s, Apply(s, ev));
    case GiveUp(p) => QuietInv(s, Apply(s, ev));
    case Claimed(p, id, v, u, now) => ClaimInv(s, p, id, v, u, now);
    case LoadReturned(p, r) => HandOverInv(s, p, Loaded(s.procs[p].of, r), r);
    case LoadFailed(p) => SettleFailedInv(s, p);
    case LoadSettled(p, l, now, rss, evicted) =>
      SettleInv(s, p, l, now, rss);
      if Serving(s, s.procs[p].of) { EvictionRunInv(Settle(s, p, l, now, rss), evicted); }
    case Released(l, now, evicted) => ReleaseInv(s, l, now); EvictionRunInv(Release(s, l, now), evicted);
    case ReloadReturned(p, id, r) => HandOverInv(s, p, Swapper(id, r), r);
    case ReloadRefused(p) => ThrowAwayInv(s, p);
    case Swapped(p, u, now, rss, retired, evicted) =>
      SwapInv(s, p, u, now, rss, retired); EvictionRunInv(Swap(s, p, u, now, rss, retired), evicted);
    case Unloaded(id, retired) => RetireModelInv(s, id, retired);
    case Swept(now, ttl, swept) => SweepInv(s, swept);
    case Pinned(id, pinned) => PinInv(s, s.current[id], pinned);
    case CloseBegan => QuietInv(s, Apply(s, ev));
    case CloseEnded(dropped) => DropAllInv(s, dropped);
  }

  /** Every event of the run was possible where it happened. */
  ghost predicate Legal(s: State, evs: seq<Event>)
    requires Inv(s)
    decreases |evs|
  {
    evs == [] || (Enabled(s, evs[0]) && (StepInv(s, evs[0]); Legal(Apply(s, evs[0]), evs[1..])))
  }

  ghost function Run(s: State, evs: seq<Event>): (s': State)
    requires Inv(s) && Legal(s, evs)
    ensures Inv(s')
    decreases |evs|
  {
    if evs == [] then s else (StepInv(s, evs[0]); Run(Apply(s, evs[0]), evs[1..]))
  }

  // ---------------------------------------------------------------- what holds in every run

  /** A recogniser behind an unreleased lease is never closed; none is closed twice; refs counts leases. */
  lemma LeasesAreSafe(limits: Limits, evs: seq<Event>)
    requires Legal(Init(limits), evs)
    ensures var s := Run(Init(limits), evs);
      && (forall l :: l in s.leases ==> s.closings[s.leases[l].rec] == 0)
      && (forall r :: s.closings[r] <= 1)
      && (forall u :: u in s.entries ==> s.entries[u].refs == |LeasesOn(s.leases, u)|)
  {
    var s := Run(Init(limits), evs);
    forall l | l in s.leases ensures s.closings[s.leases[l].rec] == 0 {
      assert LeaseOk(s, l);
      assert EntryOk(s, s.leases[l].on);
      assert RecOk(s, s.leases[l].rec);
    }
    forall r ensures s.closings[r] <= 1 { assert RecOk(s, r); }
    forall u | u in s.entries ensures s.entries[u].refs == |LeasesOn(s.leases, u)| { assert EntryOk(s, u); }
  }

  datatype Home = WithCall(p: ProcId) | InCurrent(u: EntryId) | InDraining(u: EntryId)

  /** Everywhere the pool or one of its calls still holds a recogniser. */
  ghost function Homes(s: State, r: RecId): set<Home> {
    (set p | p in s.procs && Holds(s.procs[p], r) :: WithCall(p))
    + (set u | u in s.entries && s.entries[u].rec == Some(r) && Serving(s, u) :: InCurrent(u))
    + (set u | u in s.entries && s.entries[u].rec == Some(r) && u in s.draining && s.entries[u].refs > 0 :: InDraining(u))
  }

  /** Until Close, what materialise returned is closed, once, or held in exactly one place. */
  lemma NothingLeaks(limits: Limits, evs: seq<Event>, r: RecId)
    requires Legal(Init(limits), evs)
    requires var s := Run(Init(limits), evs); !s.shut && r in s.where
    ensures var s := Run(Init(limits), evs);
      || (s.closings[r] == 1 && Homes(s, r) == {})
      || (s.closings[r] == 0 && exists h :: Homes(s, r) == {h})
  {
    OnePlace(Run(Init(limits), evs), r);
  }

  lemma OnePlace(s: State, r: RecId)
    requires Inv(s) && !s.shut && r in s.where
    ensures (s.closings[r] == 1 && Homes(s, r) == {}) || (s.closings[r] == 0 && exists h :: Homes(s, r) == {h})
  {
    assert RecOk(s, r);
    forall p | p in s.procs && Holds(s.procs[p], r) ensures s.where[r] == InHands(p) { assert ProcOk(s, p); }
    forall u | u in s.entries && s.entries[u].rec == Some(r) ensures s.where[r] == InEntry(u) { assert EntryOk(s, u); }
    match s.where[r]
    case Disposed =>
    case InHands(p) => assert Homes(s, r) == {WithCall(p)};
    case InEntry(u) =>
      assert EntryOk(s, u);
      assert Homes(s, r) == {if Serving(s, u) then InCurrent(u) else InDraining(u)};
  }

  /** Nobody waits on a channel that no call will close; and a channel is closed at most once. */
  lemma NoWaiterIsStranded(limits: Limits, evs: seq<Event>)
    requires Legal(Init(limits), evs)
    ensures var s := Run(Init(limits), evs);
      && (forall u :: u in s.entries ==>
            && s.entries[u].readyCloses <= 1
            && (s.entries[u].readyCloses == 0 <==> exists p :: p in s.procs && LoadsFor(s.procs[p], u))
            && (forall p, q :: p in s.procs && q in s.procs && LoadsFor(s.procs[p], u) && LoadsFor(s.procs[q], u) ==> p == q))
      && (forall p :: p in s.procs && s.procs[p].Waiting? ==>
            Enabled(s, Wake(p)) || exists q :: q in s.procs && LoadsFor(s.procs[q], s.procs[p].on))
  {
    var s := Run(Init(limits), evs);
    InvFiles(s);
    forall u | u in s.entries
      ensures s.entries[u].readyCloses <= 1
      ensures s.entries[u].readyCloses == 0 <==> exists p :: p in s.procs && LoadsFor(s.procs[p], u)
      ensures forall p, q :: p in s.procs && q in s.procs && LoadsFor(s.procs[p], u) && LoadsFor(s.procs[q], u) ==> p == q
    {
      assert EntryOk(s, u);
      forall p | p in s.procs && LoadsFor(s.procs[p], u) ensures s.entries[u].loader == Some(p) { assert ProcOk(s, p); }
    }
  }

  /** What no event undoes: entries stay, channels stay closed, a retired entry never serves again. */
  ghost predicate Onward(s: State, s': State, u: EntryId, l: LeaseId) {
    u in s.entries ==>
      && u in s'.entries && s'.entries[u].id == s.entries[u].id && s'.entries[u].baseID == s.entries[u].baseID
      && s.entries[u].readyCloses <= s'.entries[u].readyCloses
      && (!Serving(s, u) ==>
            && !Serving(s', u)
            && (l in s'.leases && s'.leases[l].on == u ==> l in s.leases && s.leases[l] == s'.leases[l]))
  }

  lemma OnwardTwice(s: State, s1: State, s2: State, u: EntryId, l: LeaseId)
    requires Onward(s, s1, u, l) && Onward(s1, s2, u, l)
    ensures Onward(s, s2, u, l)
  {}

  lemma MoveOnward(s: State, s': State, w: EntryId, u: EntryId, l: LeaseId)
    requires w in s.entries && (s' == Evict(s, w) || s' == Retire(s, w) || s' == Abandon(s, w))
    ensures Onward(s, s', u, l) && s'.leases == s.leases && s'.procs == s.procs && (u == w ==> !Serving(s', u))
  {
    EvictOnward(s, w, u, l);
    if s.entries[w].refs != 0 && u in s.entries {
      assert s'.leases == s.leases && s'.current == RemoveKey(s.current, s.entries[w].id);
      assert s'.entries[u].id == s.entries[u].id;
    }
  }

  lemma EvictOnward(s: State, w: EntryId, u: EntryId, l: LeaseId)
    requires w in s.entries
    ensures Onward(s, Evict(s, w), u, l) && Evict(s, w).leases == s.leases && (u == w ==> !Serving(Evict(s, w), u))
  {
    var s' := Evict(s, w);
    assert s'.leases == s.leases && s'.current == RemoveKey(s.current, s.entries[w].id);
    assert u in s.entries ==> s'.entries[u] == s.entries[u].(rec := s'.entries[u].rec);
  }

  lemma {:induction false} EvictAllOnward(s: State, us: seq<EntryId>, u: EntryId, l: LeaseId)
    requires forall w :: w in us ==> w in s.entries
    ensures Onward(s, EvictAll(s, us), u, l)
    decreases |us|
  {
    if us != [] {
      MoveOnward(s, Evict(s, us[0]), us[0], u, l);
      EvictAllOnward(Evict(s, us[0]), us[1..], u, l);
      OnwardTwice(s, Evict(s, us[0]), EvictAll(s, us), u, l);
    }
  }

  lemma {:induction false} RetireAllOnward(s: State, us: seq<EntryId>, u: EntryId, l: LeaseId)
    requires forall w :: w in us ==> w in s.entries
    ensures Onward(s, RetireAll(s, us), u, l) && (u in us ==> !Serving(RetireAll(s, us), u))
    ensures RetireAll(s, us).procs == s.procs && RetireAll(s, us).leases == s.leases
    decreases |us|
  {
    if us != [] {
      var s1 := Retire(s, us[0]);
      MoveOnward(s, s1, us[0], u, l);
      RetireAllOnward(s1, us[1..], u, l);
      OnwardTwice(s, s1, RetireAll(s, us), u, l);
    }
  }

  lemma {:induction false} AbandonAllOnward(s: State, us: seq<EntryId>, u: EntryId, l: LeaseId)
    requires forall w :: w in us ==> w in s.entries
    ensures Onward(s, AbandonAll(s, us), u, l)
    decreases |us|
  {
    if us != [] {
      MoveOnward(s, Abandon(s, us[0]), us[0], u, l);
      AbandonAllOnward(Abandon(s, us[0]), us[1..], u, l);
      OnwardTwice(s, Abandon(s, us[0]), AbandonAll(s, us), u, l);
    }
  }

  /** Base or variant, loading or ready: no entry of the model is left serving. */
  lemma RetireModelOnward(s: State, id: string, retired: seq<EntryId>, u: EntryId, l: LeaseId)
    requires Inv(s) && Lists(retired, VariantsOf(s, id))
    requires id in s.current ==> s.current[id] in s.entries
    ensures Onward(s, RetireModel(s, id, retired), u, l)
    ensures u in ModelEntries(s, id) ==> !Serving(RetireModel(s, id, retired), u)
    ensures RetireModel(s, id, retired).leases == s.leases && RetireModel(s, id, retired).procs == s.procs
  {
    assert KeyOk(s, id);
    assert u in ModelEntries(s, id) && s.entries[u].id != id ==> u in retired by {
      assert u in ModelEntries(s, id) && s.entries[u].id != id ==> u in VariantsOf(s, id);
    }
    if id in s.current {
      var s1 := Retire(s, s.current[id]);
      MoveOnward(s, s1, s.current[id], u, l);
      RetireAllOnward(s1, retired, u, l);
      OnwardTwice(s, s1, RetireAll(s1, retired), u, l);
    } else {
      RetireAllOnward(s, retired, u, l);
    }
  }

  lemma SwapOnward(s: State, p: ProcId, n: EntryId, now: int, rss: int, retired: seq<EntryId>, u: EntryId, l: LeaseId)
    requires Inv(s) && p in s.procs && s.procs[p].Swapper? && n !in s.entries && Lists(retired, VariantsOf(s, s.procs[p].id))
    requires s.procs[p].id in s.current ==> s.current[s.procs[p].id] in s.entries
    ensures Onward(s, Swap(s, p, n, now, rss, retired), u, l)
    ensures u in ModelEntries(s, s.procs[p].id) ==> !Serving(Swap(s, p, n, now, rss, retired), u)
  {
    RetireModelOnward(s, s.procs[p].id, retired, u, l);
    OnwardTwice(s, RetireModel(s, s.procs[p].id, retired), Swap(s, p, n, now, rss, retired), u, l);
  }

  lemma SettleOnward(s: State, p: ProcId, l: LeaseId, now: int, rss: int, u: EntryId, m: LeaseId)
    requires Inv(s) && p in s.procs && s.procs[p].Loaded? && s.procs[p].of in s.entries
    requires forall k :: k in s.current ==> s.current[k] in s.entries && (s.entries[s.current[k]].state == Ready ==> s.entries[s.current[k]].rec.Some?)
    ensures Onward(s, Settle(s, p, l, now, rss), u, m)
  {
    var w := s.procs[p].of;
    var key := s.entries[w].id;
    if !Serving(s, w) && key in s.current && s.entries[s.current[key]].state == Ready {
      assert KeyOk(s, key);
      var s1 := SettleRetired(s, p, false);
      RetiredOnward(s, p, false, u, m);
      GrantOnward(s1, s.current[key], l, now, u, m);
      OnwardTwice(s, s1, Grant(s1, s.current[key], l, now), u, m);
    } else if !Serving(s, w) {
      RetiredOnward(s, p, true, u, m);
    } else {
      ReadyOnward(s, p, l, now, rss, u, m);
    }
  }

  lemma RetiredOnward(s: State, p: ProcId, failed: bool, u: EntryId, m: LeaseId)
    requires p in s.procs && s.procs[p].Loaded? && s.procs[p].of in s.entries
    ensures Onward(s, SettleRetired(s, p, failed), u, m)
  {}

  lemma ReadyOnward(s: State, p: ProcId, l: LeaseId, now: int, rss: int, u: EntryId, m: LeaseId)
    requires p in s.procs && s.procs[p].Loaded? && s.procs[p].of in s.entries && Serving(s, s.procs[p].of)
    ensures Onward(s, SettleReady(s, p, l, now, rss), u, m)
  {}

  lemma GrantOnward(s: State, w: EntryId, l: LeaseId, now: int, u: EntryId, m: LeaseId)
    requires w in s.entries && s.entries[w].rec.Some? && Serving(s, w)
    ensures Onward(s, Grant(s, w, l, now), u, m)
  {}

  lemma StepOnward(s: State, ev: Event, u: EntryId, l: LeaseId)
    requires Inv(s) && Enabled(s, ev)
    ensures Onward(s, Apply(s, ev), u, l)
  {
    match ev
    case LoadSettled(p, m, now, rss, evicted) => SettledOnward(s, ev, u, l);
    case Released(m, now, evicted) => ReleasedOnward(s, ev, u, l);
    case Swapped(p, n, now, rss, retired, evicted) => ReloadedOnward(s, ev, u, l);
    case Unloaded(id, retired) => assert KeyOk(s, id); RetireModelOnward(s, id, retired, u, l);
    case Swept(now, ttl, swept) => EvictAllOnward(s, swept, u, l);
    case CloseEnded(dropped) => AbandonAllOnward(s.(shut := true), dropped, u, l);
    case _ => PlainOnward(s, ev, u, l);
  }

  lemma SettledOnward(s: State, ev: Event, u: EntryId, l: LeaseId)
    requires Inv(s) && Enabled(s, ev) && ev.LoadSettled?
    ensures Onward(s, Apply(s, ev), u, l)
  {
    InvFiles(s);
    SettleOnward(s, ev.p, ev.l, ev.now, ev.rss, u, l);
    if Serving(s, s.procs[ev.p].of) {
      var s1 := Settle(s, ev.p, ev.l, ev.now, ev.rss);
      EvictAllOnward(s1, ev.evicted, u, l);
      OnwardTwice(s, s1, EvictAll(s1, ev.evicted), u, l);
    }
  }

  lemma ReleaseOnward(s: State, m: LeaseId, now: int, u: EntryId, l: LeaseId)
    requires m in s.leases && s.leases[m].on in s.entries
    ensures Onward(s, Release(s, m, now), u, l)
  {}

  lemma ReleasedOnward(s: State, ev: Event, u: EntryId, l: LeaseId)
    requires Inv(s) && Enabled(s, ev) && ev.Released?
    ensures Onward(s, Apply(s, ev), u, l)
  {
    InvFiles(s);
    var s1 := Release(s, ev.l, ev.now);
    ReleaseOnward(s, ev.l, ev.now, u, l);
    EvictAllOnward(s1, ev.evicted, u, l);
    OnwardTwice(s, s1, EvictAll(s1, ev.evicted), u, l);
  }

  lemma ReloadedOnward(s: State, ev: Event, u: EntryId, l: LeaseId)
    requires Inv(s) && Enabled(s, ev) && ev.Swapped?
    ensures Onward(s, Apply(s, ev), u, l)
  {
    InvFiles(s);
    var s1 := Swap(s, ev.p, ev.u, ev.now, ev.rss, ev.retired);
    SwapOnward(s, ev.p, ev.u, ev.now, ev.rss, ev.retired, u, l);
    EvictAllOnward(s1, ev.evicted, u, l);
    OnwardTwice(s, s1, EvictAll(s1, ev.evicted), u, l);
  }

  lemma PlainOnward(s: State, ev: Event, u: EntryId, l: LeaseId)
    requires Inv(s) && Enabled(s, ev)
    requires !ev.LoadSettled? && !ev.Released? && !ev.Swapped? && !ev.Unloaded? && !ev.Swept? && !ev.CloseEnded?
    ensures Onward(s, Apply(s, ev), u, l)
  {
    InvFiles(s);
  }

  lemma {:induction false} RunOnward(s: State, evs: seq<Event>, u: EntryId, l: LeaseId)
    requires Inv(s) && Legal(s, evs)
    ensures Onward(s, Run(s, evs), u, l)
    decreases |evs|
  {
    if evs != [] {
      var s1 := Apply(s, evs[0]);
      StepOnward(s, evs[0], u, l);
      StepInv(s, evs[0]);
      RunOnward(s1, evs[1..], u, l);
      OnwardTwice(s, s1, Run(s1, evs[1..]), u, l);
    }
  }

  /** Hot swap is complete: when after any run a Reload or Unload of id takes effect, then, whatever happens next, no
   *  lease is granted on an entry of id that was in current before it, and none of those entries serves again. */
  lemma HotSwapIsComplete(limits: Limits, before: seq<Event>, ev: Event, evs: seq<Event>, u: EntryId)
    requires Legal(Init(limits), before)
    requires var s := Run(Init(limits), before);
      Enabled(s, ev) && (ev.Swapped? || ev.Unloaded?) && (StepInv(s, ev); Legal(Apply(s, ev), evs))
    requires var s := Run(Init(limits), before); u in ModelEntries(s, if ev.Swapped? then s.procs[ev.p].id else ev.id)
    ensures var s := Run(Init(limits), before);
      var s' := (StepInv(s, ev); Run(Apply(s, ev), evs));
      && u in s'.entries && !Serving(s', u)
      && forall l :: l in s'.leases && s'.leases[l].on == u ==> l in s.leases && s.leases[l] == s'.leases[l]
  {
    StepInv(Run(Init(limits), before), ev);
    HotSwapFrom(Run(Init(limits), before), ev, evs, u);
  }

  lemma HotSwapFrom(s: State, ev: Event, evs: seq<Event>, u: EntryId)
    requires Inv(s) && Enabled(s, ev) && Inv(Apply(s, ev)) && Legal(Apply(s, ev), evs)
    requires ev.Swapped? || ev.Unloaded?
    requires u in ModelEntries(s, if ev.Swapped? then s.procs[ev.p].id else ev.id)
    ensures var s' := Run(Apply(s, ev), evs);
      && u in s'.entries && !Serving(s', u)
      && forall l :: l in s'.leases && s'.leases[l].on == u ==> l in s.leases && s.leases[l] == s'.leases[l]
  {
    var s' := Run(Apply(s, ev), evs);
    forall l ensures u in s'.entries && !Serving(s', u)
      ensures l in s'.leases && s'.leases[l].on == u ==> l in s.leases && s.leases[l] == s'.leases[l]
    {
      SwappedOut(s, ev, u, l);
      RunOnward(Apply(s, ev), evs, u, l);
    }
  }

  lemma SwappedOut(s: State, ev: Event, u: EntryId, l: LeaseId)
    requires Inv(s) && Enabled(s, ev) && (ev.Swapped? || ev.Unloaded?)
    requires u in ModelEntries(s, if ev.Swapped? then s.procs[ev.p].id else ev.id)
    ensures u in Apply(s, ev).entries && !Serving(Apply(s, ev), u) && Apply(s, ev).leases == s.leases
  {
    InvFiles(s);
    if ev.Swapped? {
      var t := Swap(s, ev.p, ev.u, ev.now, ev.rss, ev.retired);
      SwapOnward(s, ev.p, ev.u, ev.now, ev.rss, ev.retired, u, l);
      RetireModelOnward(s, s.procs[ev.p].id, ev.retired, u, l);
      EvictAllOnward(t, ev.evicted, u, l);
      EvictAllLeases(t, ev.evicted);
    } else {
      RetireModelOnward(s, ev.id, ev.retired, u, l);
    }
  }

  lemma {:induction false} EvictAllLeases(s: State, us: seq<EntryId>)
    requires forall w :: w in us ==> w in s.entries
    ensures EvictAll(s, us).leases == s.leases
    decreases |us|
  {
    if us != [] { EvictAllLeases(Evict(s, us[0]), us[1..]); }
  }

  // ---------------------------------------------------------------- what eviction achieves

  predicate Held(e: Entry) { e.pinned || e.refs > 0 || e.state == Loading }

  /** evictLocked leaves the pool inside both limits, or with nothing it may evict. */
  lemma {:induction false} EvictionSuffices(s: State, us: seq<EntryId>)
    requires Inv(s) && EvictionRun(s, us)
    ensures var s' := EvictAll(s, us);
      || (|s'.current| <= s'.limits.maxResident && TotalRss(s'.current, s'.entries) <= s'.limits.maxRss)
      || (forall k :: k in s'.current ==> s'.current[k] in s'.entries && Held(s'.entries[s'.current[k]]))
    decreases |us|
  {
    if us != [] {
      assert EntryOk(s, us[0]);
      EvictInv(s, us[0]);
      EvictionSuffices(Evict(s, us[0]), us[1..]);
    } else {
      forall k | k in s.current ensures s.current[k] in s.entries && (Held(s.entries[s.current[k]]) || Candidate(s, s.current[k])) {
        assert KeyOk(s, k) && EntryOk(s, s.current[k]);
      }
    }
  }

  /** Victims leave in order, variants before bases and oldest first; none was pinned, leased or loading;
   *  and whatever could still be evicted afterwards comes later in that order than all of them. */
  lemma {:induction false} EvictionOrder(s: State, us: seq<EntryId>)
    requires Inv(s) && EvictionRun(s, us)
    ensures forall i :: 0 <= i < |us| ==> us[i] in s.entries && Candidate(s, us[i])
    ensures forall i, j :: 0 <= i < j < |us| ==> us[i] != us[j] && Sooner(s.entries[us[i]], s.entries[us[j]])
    ensures forall i, w :: 0 <= i < |us| && w in s.entries && Candidate(EvictAll(s, us), w) ==> Sooner(s.entries[us[i]], s.entries[w])
    decreases |us|
  {
    if us != [] {
      var s1, rest := Evict(s, us[0]), us[1..];
      assert EntryOk(s, us[0]);
      EvictInv(s, us[0]);
      EvictionOrder(s1, rest);
      forall w | w in s1.entries && Candidate(s1, w)
        ensures w != us[0] && Candidate(s, w) && s1.entries[w] == s.entries[w] && Sooner(s.entries[us[0]], s.entries[w])
      { CandidateBefore(s, us[0], w); }
      forall i | 0 <= i < |us| ensures us[i] in s.entries && Candidate(s, us[i]) { if i > 0 { assert us[i] == rest[i - 1]; } }
      forall i, j | 0 <= i < j < |us| ensures us[i] != us[j] && Sooner(s.entries[us[i]], s.entries[us[j]]) {
        assert us[j] == rest[j - 1];
        if i > 0 { assert us[i] == rest[i - 1]; }
      }
      forall i, w | 0 <= i < |us| && w in s.entries && Candidate(EvictAll(s, us), w) ensures Sooner(s.entries[us[i]], s.entries[w]) {
        StillCandidate(s1, rest, w);
        if i > 0 { assert us[i] == rest[i - 1]; }
      }
    }
  }

  lemma CandidateBefore(s: State, u: EntryId, w: EntryId)
    requires IsVictim(s, u) && w in s.entries && Candidate(Evict(s, u), w)
    ensures w != u && Candidate(s, w) && Evict(s, u).entries[w] == s.entries[w] && Sooner(s.entries[u], s.entries[w])
  {
    assert Candidate(s, w);
  }

  lemma {:induction false} StillCandidate(s: State, us: seq<EntryId>, w: EntryId)
    requires forall v :: v in us ==> v in s.entries
    requires Candidate(EvictAll(s, us), w)
    ensures Candidate(s, w)
    decreases |us|
  {
    if us != [] { StillCandidate(Evict(s, us[0]), us[1..], w); }
  }

  // ---------------------------------------------------------------- loops, one turn at a time

  /** The turns evictLocked has taken so far. */
  ghost predicate EvictionSteps(s: State, us: seq<EntryId>)
    ensures EvictionSteps(s, us) ==> forall u :: u in us ==> u in s.entries
    decreases |us|
  {
    us == [] || (OverLimit(s) && IsVictim(s, us[0]) && EvictionSteps(Evict(s, us[0]), us[1..]))
  }

  lemma {:induction false} EvictAllAppend(s: State, us: seq<EntryId>, u: EntryId)
    requires (forall w :: w in us ==> w in s.entries) && u in s.entries
    ensures EvictAll(s, us + [u]) == Evict(EvictAll(s, us), u)
    decreases |us|
  {
    if us == [] {
      assert us + [u] == [u];
    } else {
      EvictAllAppend(Evict(s, us[0]), us[1..], u);
      assert (us + [u])[1..] == us[1..] + [u];
    }
  }

  lemma {:induction false} EvictOneMore(s: State, us: seq<EntryId>, u: EntryId)
    requires EvictionSteps(s, us) && OverLimit(EvictAll(s, us)) && IsVictim(EvictAll(s, us), u)
    ensures EvictionSteps(s, us + [u])
    decreases |us|, 1
  {
    if us == [] {
      EvictedBefore(s, u, []);
      assert us + [u] == [u] + [];
    } else {
      EvictTheRest(s, us, u);
      EvictedBefore(s, us[0], us[1..] + [u]);
      assert us + [u] == [us[0]] + (us[1..] + [u]);
    }
  }

  lemma {:induction false} EvictTheRest(s: State, us: seq<EntryId>, u: EntryId)
    requires us != [] && EvictionSteps(s, us) && OverLimit(EvictAll(s, us)) && IsVictim(EvictAll(s, us), u)
    ensures OverLimit(s) && IsVictim(s, us[0]) && EvictionSteps(Evict(s, us[0]), us[1..] + [u])
    decreases |us|, 0
  {
    EvictOneMore(Evict(s, us[0]), us[1..], u);
  }

  lemma EvictedBefore(s: State, first: EntryId, rest: seq<EntryId>)
    requires OverLimit(s) && IsVictim(s, first) && EvictionSteps(Evict(s, first), rest)
    ensures EvictionSteps(s, [first] + rest)
  {
    assert ([first] + rest)[1..] == rest;
  }

  lemma {:induction false} EvictionDone(s: State, us: seq<EntryId>)
    requires EvictionSteps(s, us)
    requires !OverLimit(EvictAll(s, us)) || forall u :: !Candidate(EvictAll(s, us), u)
    ensures EvictionRun(s, us)
    decreases |us|
  {
    if us != [] { EvictionDone(Evict(s, us[0]), us[1..]); }
  }

  lemma {:induction false} RetireAllAppend(s: State, us: seq<EntryId>, u: EntryId)
    requires (forall w :: w in us ==> w in s.entries) && u in s.entries
    ensures RetireAll(s, us + [u]) == Retire(RetireAll(s, us), u)
    decreases |us|
  {
    if us == [] {
      assert us + [u] == [u];
    } else {
      RetireAllAppend(Retire(s, us[0]), us[1..], u);
      assert (us + [u])[1..] == us[1..] + [u];
    }
  }

  lemma {:induction false} AbandonAllAppend(s: State, us: seq<EntryId>, u: EntryId)
    requires (forall w :: w in us ==> w in s.entries) && u in s.entries
    ensures AbandonAll(s, us + [u]) == Abandon(AbandonAll(s, us), u)
    decreases |us|
  {
    if us == [] {
      assert us + [u] == [u];
    } else {
      AbandonAllAppend(Abandon(s, us[0]), us[1..], u);
      assert (us + [u])[1..] == us[1..] + [u];
    }
  }

  /** The sum does not depend on the order current is iterated in. */
  lemma {:induction false} TotalRssStep(current: map<string, EntryId>, entries: map<EntryId, Entry>, k: string)
    requires k in current && current[k] in entries
    ensures TotalRss(current, entries) == entries[current[k]].rss + TotalRss(RemoveKey(current, k), entries)
    decreases |current|
  {
    var j :| j in current && TotalRss(current, entries) ==
      (if current[j] in entries then entries[current[j]].rss else 0) + TotalRss(RemoveKey(current, j), entries);
    if j != k {
      var a, b := RemoveKey(current, j), RemoveKey(current, k);
      assert a.Keys == current.Keys - {j} && b.Keys == current.Keys - {k};
      TotalRssStep(a, entries, k);
      if current[j] in entries {
        TotalRssStep(b, entries, j);
      } else {
        TotalRssSkip(b, entries, j);
      }
      assert RemoveKey(a, k) == RemoveKey(b, j);
    }
  }

  lemma {:induction false} TotalRssSkip(current: map<string, EntryId>, entries: map<EntryId, Entry>, k: string)
    requires k in current && current[k] !in entries
    ensures TotalRss(current, entries) == TotalRss(RemoveKey(current, k), entries)
    decreases |current|
  {
    var j :| j in current && TotalRss(current, entries) ==
      (if current[j] in entries then entries[current[j]].rss else 0) + TotalRss(RemoveKey(current, j), entries);
    if j != k {
      var a, b := RemoveKey(current, j), RemoveKey(current, k);
      assert a.Keys == current.Keys - {j} && b.Keys == current.Keys - {k};
      TotalRssSkip(a, entries, k);
      if current[j] in entries {
        TotalRssStep(b, entries, j);
      } else {
        TotalRssSkip(b, entries, j);
      }
      assert RemoveKey(a, k) == RemoveKey(b, j);
    }
  }

  /** A key the walk over current has not come to yet still files what it filed at the start. */
  ghost predicate Unvisited(start: State, s: State, us: seq<EntryId>, left: set<string>, k: string) {
    k in left ==> k in start.current && start.current[k] !in us && k in s.current && s.current[k] == start.current[k]
  }

  /** A target has been taken out already or is still to come, and nothing else has been touched. */
  ghost predicate Accounted(start: State, s: State, targets: iset<EntryId>, us: seq<EntryId>, left: set<string>, u: EntryId) {
    && (u in us ==> u in targets)
    && (u in targets ==> u in start.entries && (u in us || start.entries[u].id in left))
    && (u in start.entries <==> u in s.entries)
    && (u in start.entries && u !in us ==> s.entries[u] == start.entries[u])
    && (u in start.entries ==> s.entries[u].id == start.entries[u].id && s.entries[u].baseID == start.entries[u].baseID)
  }

  /** A walk over current that takes targets out of it, half way: us are gone, left is still to be looked at. */
  ghost predicate Walk(start: State, s: State, targets: iset<EntryId>, us: seq<EntryId>, left: set<string>) {
    && (forall u :: u in us ==> u in start.entries)
    && (forall i, j :: 0 <= i < j < |us| ==> us[i] != us[j])
    && (forall k :: Unvisited(start, s, us, left, k))
    && (forall u :: Accounted(start, s, targets, us, left, u))
  }

  lemma WalkBegins(start: State, s: State, targets: iset<EntryId>, left: set<string>)
    requires left == s.current.Keys && s.current == start.current && s.entries == start.entries
    requires forall u :: u in targets ==> u in start.entries && Serving(start, u)
    ensures Walk(start, s, targets, [], left)
  {}

  lemma WalkEnds(start: State, s: State, targets: iset<EntryId>, us: seq<EntryId>)
    requires Walk(start, s, targets, us, {})
    ensures Lists(us, targets)
  {
    forall u ensures u in us <==> u in targets { assert Accounted(start, s, targets, us, {}, u); }
  }

  lemma WalkSkips(start: State, s: State, targets: iset<EntryId>, us: seq<EntryId>, left: set<string>, k: string)
    requires Walk(start, s, targets, us, left) && k in left && k in start.current && start.current[k] !in targets
    requires start.current[k] in start.entries && start.entries[start.current[k]].id == k
    requires forall u :: u in targets ==> u in start.entries && Serving(start, u)
    ensures Walk(start, s, targets, us, left - {k})
  {
    forall j ensures Unvisited(start, s, us, left - {k}, j) { assert Unvisited(start, s, us, left, j); }
    forall w ensures Accounted(start, s, targets, us, left - {k}, w) { assert Accounted(start, s, targets, us, left, w); }
  }

  lemma WalkHits(start: State, s: State, s': State, targets: iset<EntryId>, us: seq<EntryId>, left: set<string>, k: string, u: EntryId)
    requires Inv(start) && Walk(start, s, targets, us, left) && k in left && k in s.current && s.current[k] == u && u in targets
    requires s'.current == RemoveKey(s.current, k) && u in s.entries && u in s'.entries && s'.entries == s.entries[u := s'.entries[u]]
    requires s'.entries[u].id == s.entries[u].id == k && s'.entries[u].baseID == s.entries[u].baseID
    requires forall w :: w in targets ==> w in start.entries && Serving(start, w)
    ensures Walk(start, s', targets, us + [u], left - {k})
  {
    assert Unvisited(start, s, us, left, k) && Accounted(start, s, targets, us, left, u);
    forall j ensures Unvisited(start, s', us + [u], left - {k}, j) {
      assert Unvisited(start, s, us, left, j) && KeyOk(start, j);
    }
    forall w ensures Accounted(start, s', targets, us + [u], left - {k}, w) {
      assert Accounted(start, s, targets, us, left, w);
    }
  }

  lemma RetireShape(s: State, u: EntryId, w: EntryId)
    requires u in s.entries
    ensures Retire(s, u).current == RemoveKey(s.current, s.entries[u].id)
    ensures w in s.entries ==> Retire(s, u).entries[w].id == s.entries[w].id && Retire(s, u).entries[w].baseID == s.entries[w].baseID
  {}

  lemma SameVariants(s: State, u: EntryId, id: string)
    requires u in s.entries && s.entries[u].id == id
    ensures VariantsOf(Retire(s, u), id) == VariantsOf(s, id)
  {
    forall w ensures w in VariantsOf(Retire(s, u), id) <==> w in VariantsOf(s, id) { RetireShape(s, u, w); }
  }

  // What the three sections that end in an eviction are, as events.

  lemma SwapIsEvent(s: State, p: ProcId, u: EntryId, now: int, rss: int, retired: seq<EntryId>, evicted: seq<EntryId>)
    requires Inv(s) && p in s.procs && s.procs[p].Swapper? && u !in s.entries
    requires s.procs[p].id in s.current ==> s.current[s.procs[p].id] in s.entries
    requires Lists(retired, VariantsOf(s, s.procs[p].id)) && EvictionRun(Swap(s, p, u, now, rss, retired), evicted)
    ensures var ev := Swapped(p, u, now, rss, retired, evicted);
      Enabled(s, ev) && Apply(s, ev) == EvictAll(Swap(s, p, u, now, rss, retired), evicted)
  {}

  lemma ReleaseIsEvent(s: State, l: LeaseId, now: int, evicted: seq<EntryId>)
    requires Inv(s) && l in s.leases && s.leases[l].on in s.entries && EvictionRun(Release(s, l, now), evicted)
    ensures var ev := Released(l, now, evicted);
      Enabled(s, ev) && Apply(s, ev) == EvictAll(Release(s, l, now), evicted)
  {}

  lemma SettleIsEvent(s: State, p: ProcId, l: LeaseId, now: int, rss: int, evicted: seq<EntryId>)
    requires Inv(s) && p in s.procs && s.procs[p].Loaded? && l !in s.leases && s.procs[p].of in s.entries && Serving(s, s.procs[p].of)
    requires EvictionRun(SettleReady(s, p, l, now, rss), evicted)
    ensures var ev := LoadSettled(p, l, now, rss, evicted);
      Enabled(s, ev) && Apply(s, ev) == EvictAll(SettleReady(s, p, l, now, rss), evicted)
  {
    InvFiles(s);
  }
}
