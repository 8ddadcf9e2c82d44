/** What each event of the model pool does for the caller who asked for it, in the caller's terms: which model, which
 *  entry, which lease. */
module PoolOutcomes {
  import opened Options
  import opened PoolProtocol
  import opened PoolRuns

  /** current no longer names the entry under any key. */
  ghost predicate Gone(s: State, u: EntryId) { forall k :: k in s.current ==> s.current[k] != u }

  /** The model a Reload or an Unload is of. */
  function ModelOf(s: State, ev: Event): string
    requires ev.Unloaded? || (ev.Swapped? && ev.p in s.procs && s.procs[ev.p].Swapper?)
  {
    if ev.Unloaded? then ev.id else s.procs[ev.p].id
  }

  // --- acquiring ------------------------------------------------------------------------

  /** What was asked for stays what an entry is of. */
  lemma EntryIsOfWhatWasAsked(s: State, claim: Event, evs: seq<Event>)
    requires Inv(s) && claim.Claimed? && Enabled(s, claim) && Inv(Apply(s, claim)) && Legal(Apply(s, claim), evs)
    ensures var s' := Run(Apply(s, claim), evs);
      claim.u in s'.entries && s'.entries[claim.u].baseID == claim.id && s'.entries[claim.u].id == VariantKey(claim.id, claim.v)
  {
    RunOnward(Apply(s, claim), evs, claim.u, 0);
  }

  /** Hot swap over what was asked for: once a caller has claimed an entry for a model and variant, and a Reload or Unload
   *  of that model has taken effect since, the entry never serves again and no lease is granted on it any more. */
  lemma HotSwapReachesWhatWasAsked(limits: Limits, before: seq<Event>, claim: Event, between: seq<Event>, swap: Event, after: seq<Event>)
    requires Legal(Init(limits), before)
    requires var s := Run(Init(limits), before);
      claim.Claimed? && Enabled(s, claim) && (StepInv(s, claim); Legal(Apply(s, claim), between))
    requires var s := Run(Init(limits), before);
      var s1 := (StepInv(s, claim); Run(Apply(s, claim), between));
      Enabled(s1, swap) && (swap.Swapped? || swap.Unloaded?) && ModelOf(s1, swap) == claim.id
      && (StepInv(s1, swap); Legal(Apply(s1, swap), after))
    ensures var s := Run(Init(limits), before);
      var s1 := (StepInv(s, claim); Run(Apply(s, claim), between));
      var s2 := (StepInv(s1, swap); Run(Apply(s1, swap), after));
      Gone(s2, claim.u) && forall l :: l in s2.leases && s2.leases[l].on == claim.u ==> l in s1.leases && s1.leases[l] == s2.leases[l]
  {
    var s := Run(Init(limits), before);
    StepInv(s, claim);
    EntryIsOfWhatWasAsked(s, claim, between);
    var s1 := Run(Apply(s, claim), between);
    StepInv(s1, swap);
    SwapReaches(s1, swap, after, claim.u);
  }

  lemma SwapReaches(s: State, swap: Event, after: seq<Event>, u: EntryId)
    requires Inv(s) && Enabled(s, swap) && (swap.Swapped? || swap.Unloaded?) && Inv(Apply(s, swap)) && Legal(Apply(s, swap), after)
    requires u in s.entries && s.entries[u].baseID == ModelOf(s, swap)
    ensures var s' := Run(Apply(s, swap), after);
      Gone(s', u) && forall l :: l in s'.leases && s'.leases[l].on == u ==> l in s.leases && s.leases[l] == s'.leases[l]
  {
    if Serving(s, u) {
      assert u in ModelEntries(s, ModelOf(s, swap));
      HotSwapFrom(s, swap, after, u);
    } else {
      NeverAgain(s, swap, after, u);
    }
    NotServing(Run(Apply(s, swap), after), u);
  }

  lemma NotServing(s: State, u: EntryId)
    requires Inv(s) && u in s.entries && !Serving(s, u)
    ensures Gone(s, u)
  {
    forall k | k in s.current ensures s.current[k] != u { assert KeyOk(s, k); }
  }

  /** An entry that does not serve never will. */
  lemma NeverAgain(s: State, ev: Event, after: seq<Event>, u: EntryId)
    requires Inv(s) && Enabled(s, ev) && Inv(Apply(s, ev)) && Legal(Apply(s, ev), after) && u in s.entries && !Serving(s, u)
    ensures var s' := Run(Apply(s, ev), after);
      u in s'.entries && !Serving(s', u)
      && forall l :: l in s'.leases && s'.leases[l].on == u ==> l in s.leases && s.leases[l] == s'.leases[l]
  {
    var s1, s' := Apply(s, ev), Run(Apply(s, ev), after);
    forall l ensures u in s'.entries && !Serving(s', u)
      ensures l in s'.leases && s'.leases[l].on == u ==> l in s.leases && s.leases[l] == s'.leases[l]
    {
      StepOnward(s, ev, u, l);
      RunOnward(s1, after, u, l);
      OnwardTwice(s, s1, s', u, l);
    }
  }

  /** Who finds nothing serving claims the key with a placeholder, for the model and variant asked for, unpinned and
   *  unleased; nothing else changes. */
  lemma ClaimTakesTheKey(s: State, p: ProcId, id: string, v: string, u: EntryId, now: int)
    requires Inv(s) && Enabled(s, Claimed(p, id, v, u, now))
    ensures VariantKey(id, v) !in s.current
    ensures var s', key := Apply(s, Claimed(p, id, v, u, now)), VariantKey(id, v);
      && s' == s.(current := s.current[key := u], entries := s'.entries, procs := s.procs[p := Loader(u)])
      && s'.entries == s.entries[u := Entry(key, id, Loading, 0, false, 0, now, None, 0, false, Some(p))]
  {
    InvFiles(s);
  }

  /** A ready entry under the key asked for serves one more lease, on its own recogniser, and nothing else changes. */
  lemma HitServesTheKey(s: State, key: string, l: LeaseId, now: int)
    requires Inv(s) && Enabled(s, Hit(key, l, now))
    ensures var s' := Apply(s, Hit(key, l, now));
      && l in s'.leases && key in s.current && s'.leases[l].on == s.current[key] && s.current[key] in s.entries
      && var u := s.current[key];
         s.entries[u].id == key && s.entries[u].rec == Some(s'.leases[l].rec)
         && s' == s.(leases := s.leases[l := Lease(u, s'.leases[l].rec)],
                     entries := s.entries[u := s.entries[u].(refs := s.entries[u].refs + 1, lastUsed := now)])
  {
    InvFiles(s);
  }

  /** Who waits waits for the load of the key asked for. */
  lemma WaitIsForTheKey(s: State, p: ProcId, key: string)
    requires Inv(s) && Enabled(s, Wait(p, key))
    ensures key in s.current && s.current[key] in s.entries && s.entries[s.current[key]].id == key
    ensures Apply(s, Wait(p, key)) == s.(procs := s.procs[p := Waiting(s.current[key])])
  {
    InvFiles(s);
  }

  /** Different variants of a model, the base among them, are different entries. */
  lemma VariantsAreApart(id: string, v: string, w: string)
    ensures VariantKey(id, v) == VariantKey(id, w) <==> v == w
    ensures VariantKey(id, "") == id
  {
    if v != "" && w != "" && VariantKey(id, v) == VariantKey(id, w) {
      assert v == (id + "!" + v)[|id| + 1..] == (id + "!" + w)[|id| + 1..] == w;
    }
    assert v == "" && w != "" ==> |VariantKey(id, w)| > |id|;
    assert w == "" && v != "" ==> |VariantKey(id, v)| > |id|;
  }

  /** What a finished load gives its caller: a lease on the entry it loaded or, when a reload came between, on the one now
   *  under the same key; and its recogniser is in the first or closed. */
  lemma SettledServesTheKey(s: State, p: ProcId, l: LeaseId, now: int, rss: int, evicted: seq<EntryId>)
    requires Inv(s) && Enabled(s, LoadSettled(p, l, now, rss, evicted))
    ensures var s' := Apply(s, LoadSettled(p, l, now, rss, evicted));
      && p in s.procs && s.procs[p].Loaded? && s.procs[p].of in s.entries
      && var u, r := s.procs[p].of, s.procs[p].rec;
         && (l in s'.leases ==> s'.leases[l].on in s.entries && s.entries[s'.leases[l].on].id == s.entries[u].id)
         && (if exists k :: k in s.current && s.current[k] == u then
               l in s'.leases && s'.leases[l] == Lease(u, r) && u in s'.entries
               && var e := s'.entries[u]; e.state == Ready && e.refs == 1 && e.rss == rss && e.lastUsed == now && e.pinned == s.entries[u].pinned
             else s'.closings == s.closings + multiset{r}
                  && (l in s'.leases <==> s.entries[u].id in s.current && s.current[s.entries[u].id] in s.entries
                                          && s.entries[s.current[s.entries[u].id]].state == Ready))
  {
    InvFiles(s);
    var u := s.procs[p].of;
    forall k | k in s.current && s.current[k] == u ensures Serving(s, u) { assert KeyOk(s, k); }
    if Serving(s, u) {
      EvictAllLeases(Settle(s, p, l, now, rss), evicted);
      EvictAllFields(Settle(s, p, l, now, rss), evicted, u);
    }
  }

  /** A failed load leaves its key to the next caller, and every other key as it is. */
  lemma FailedLoadLeavesTheKey(s: State, p: ProcId)
    requires Inv(s) && Enabled(s, LoadFailed(p))
    ensures var s' := Apply(s, LoadFailed(p)); var u := s.procs[p].of;
      && Gone(s', u) && u in s'.entries && s'.entries[u].loadErr && s'.leases == s.leases && s'.closings == s.closings
      && (forall k :: k in s.current && s.current[k] != u ==> k in s'.current && s'.current[k] == s.current[k])
      && s'.current.Keys <= s.current.Keys
  {
    InvFiles(s);
    var s', u := Apply(s, LoadFailed(p)), s.procs[p].of;
    forall k | k in s.current ensures s.current[k] == u ==> k == s.entries[u].id { assert KeyOk(s, k); }
  }

  /** A lease given back is gone, its entry has one fewer, and every other lease stays. */
  lemma ReleaseEndsTheLease(s: State, l: LeaseId, now: int, evicted: seq<EntryId>)
    requires Inv(s) && Enabled(s, Released(l, now, evicted))
    ensures var s' := Apply(s, Released(l, now, evicted));
      l in s.leases && s'.leases == s.leases - {l}
  {
    ReleaseInv(s, l, now);
    ReleaseDrops(s, l, now);
    EvictAllLeases(Release(s, l, now), evicted);
  }

  lemma ReleaseDrops(s: State, l: LeaseId, now: int)
    requires l in s.leases && s.leases[l].on in s.entries
    ensures Release(s, l, now).leases == s.leases - {l}
  {}

  // --- leaving --------------------------------------------------------------------------

  /** The key is none of theirs. */
  ghost predicate Spared(s: State, us: seq<EntryId>, k: string) { forall u :: u in us && u in s.entries ==> s.entries[u].id != k }

  lemma {:induction false} EvictAllKeys(s: State, us: seq<EntryId>, k: string)
    requires forall u :: u in us ==> u in s.entries
    ensures k in EvictAll(s, us).current <==> k in s.current && Spared(s, us, k)
    ensures k in EvictAll(s, us).current ==> EvictAll(s, us).current[k] == s.current[k]
    decreases |us|
  {
    if us != [] { EvictAllKeys(Evict(s, us[0]), us[1..], k); }
  }

  lemma {:induction false} RetireAllKeys(s: State, us: seq<EntryId>, k: string)
    requires forall u :: u in us ==> u in s.entries
    ensures k in RetireAll(s, us).current <==> k in s.current && Spared(s, us, k)
    ensures k in RetireAll(s, us).current ==> RetireAll(s, us).current[k] == s.current[k]
    decreases |us|
  {
    if us != [] { RetireAllKeys(Retire(s, us[0]), us[1..], k); }
  }

  lemma RetiredAre(s: State, id: string, retired: seq<EntryId>, k: string)
    requires Inv(s) && Lists(retired, VariantsOf(s, id)) && k in s.current && k != id
    ensures s.current[k] in s.entries && (Spared(s, retired, k) <==> s.entries[s.current[k]].baseID != id)
  {
    assert KeyOk(s, k);
    assert s.current[k] in VariantsOf(s, id) <==> s.entries[s.current[k]].baseID == id;
    forall u | u in retired && s.entries[u].id == k ensures u == s.current[k] { assert u in VariantsOf(s, id); }
  }

  lemma RetireModelKeys(s: State, id: string, retired: seq<EntryId>, k: string)
    requires Inv(s) && Lists(retired, VariantsOf(s, id)) && (id in s.current ==> s.current[id] in s.entries)
    requires k in s.current ==> s.current[k] in s.entries
    ensures var s' := RetireModel(s, id, retired);
      && (k in s'.current <==> k in s.current && k != id && s.entries[s.current[k]].baseID != id)
      && (k in s'.current ==> s'.current[k] == s.current[k])
  {
    if k in s.current && k != id { RetiredAre(s, id, retired, k); }
    forall u | u in retired ensures u in s.entries { assert u in VariantsOf(s, id); }
    if id in s.current {
      assert KeyOk(s, id);
      RetiredFirst(s, s.current[id], retired, k);
    } else {
      RetireAllKeys(s, retired, k);
    }
  }

  lemma RetiredFirst(s: State, b: EntryId, retired: seq<EntryId>, k: string)
    requires b in s.entries && forall u :: u in retired ==> u in s.entries
    ensures var s' := RetireAll(Retire(s, b), retired);
      && (k in s'.current <==> k in s.current && k != s.entries[b].id && Spared(s, retired, k))
      && (k in s'.current ==> s'.current[k] == s.current[k])
  {
    RetireAllKeys(Retire(s, b), retired, k);
    assert Spared(Retire(s, b), retired, k) <==> Spared(s, retired, k);
  }

  /** Unload takes the model's base and every variant out of current, and no other model's entry. */
  lemma UnloadTakesTheModel(s: State, id: string, retired: seq<EntryId>, k: string)
    requires Inv(s) && Enabled(s, Unloaded(id, retired)) && k in s.current
    ensures var s' := Apply(s, Unloaded(id, retired));
      && s.current[k] in s.entries
      && (k in s'.current <==> k != id && s.entries[s.current[k]].baseID != id)
      && (k in s'.current ==> s'.current[k] == s.current[k]) && s'.current.Keys <= s.current.Keys
  {
    InvFiles(s);
    RetireModelKeys(s, id, retired, k);
    forall j | j in Apply(s, Unloaded(id, retired)).current ensures j in s.current { RetireModelKeys(s, id, retired, j); }
  }

  /** Reload puts the recogniser it brought under the model's key, with the pin of the one before; other models' entries
   *  leave only by eviction. */
  lemma ReloadServesTheNew(s: State, p: ProcId, u: EntryId, now: int, rss: int, retired: seq<EntryId>, evicted: seq<EntryId>, k: string)
    requires Inv(s) && Enabled(s, Swapped(p, u, now, rss, retired, evicted))
    ensures var s' := Apply(s, Swapped(p, u, now, rss, retired, evicted));
      p in s.procs && s.procs[p].Swapper? && u in s'.entries && var id := s.procs[p].id;
      && (k in s'.current && k == id ==> s'.current[k] == u && s'.entries[u].rec == Some(s.procs[p].rec) && s'.entries[u].state == Ready
                                         && s'.entries[u].rss == rss && s'.entries[u].lastUsed == now && s'.entries[u].refs == 0
                                         && s'.entries[u].id == s'.entries[u].baseID == id
                                         && (s'.entries[u].pinned <==> id in s.current && s.current[id] in s.entries && s.entries[s.current[id]].pinned))
      && (k == id && k !in s'.current ==> u in evicted)
      && (k in s'.current && k != id ==> k in s.current && s'.current[k] == s.current[k] && s.current[k] in s.entries && s.entries[s.current[k]].baseID != id)
      && (k in s.current && k != id && s.current[k] in s.entries && s.entries[s.current[k]].baseID != id && s.current[k] !in evicted ==> k in s'.current)
  {
    InvFiles(s);
    var id := s.procs[p].id;
    var s1 := Swap(s, p, u, now, rss, retired);
    SwapInv(s, p, u, now, rss, retired);
    RetireModelInv(s, id, retired);
    RetireModelKeys(s, id, retired, k);
    EvictionRunKeys(s1, evicted, k);
    EvictAllFields(s1, evicted, u);
    RetireModelOnward(s, id, retired, u, 0);
    if k in s.current { RetireModelOnward(s, id, retired, s.current[k], 0); }
  }

  /** Eviction leaves what stays as it was. */
  lemma {:induction false} EvictAllFields(s: State, us: seq<EntryId>, u: EntryId)
    requires (forall w :: w in us ==> w in s.entries) && u in s.entries
    ensures var e, e' := s.entries[u], EvictAll(s, us).entries[u];
      e' == e.(rec := e'.rec) && (u !in us ==> e' == e)
    decreases |us|
  {
    if us != [] { EvictAllFields(Evict(s, us[0]), us[1..], u); }
  }

  lemma {:induction false} EvictionRunKeys(s: State, us: seq<EntryId>, k: string)
    requires Inv(s) && EvictionRun(s, us)
    ensures k in EvictAll(s, us).current <==> k in s.current && s.current[k] !in us
    ensures k in EvictAll(s, us).current ==> EvictAll(s, us).current[k] == s.current[k]
    decreases |us|
  {
    EvictAllKeys(s, us, k);
    EvictionOrder(s, us);
    assert KeyOk(s, k);
    forall u | u in us ensures u in s.entries && Serving(s, u) {
      var i :| 0 <= i < |us| && us[i] == u;
      assert Candidate(s, us[i]);
    }
  }

  /** Sweep takes exactly what nobody pinned, leased or loads and nobody used for longer than the time to live. */
  lemma SweepTakesTheIdle(s: State, now: int, ttl: int, swept: seq<EntryId>, k: string)
    requires Inv(s) && Enabled(s, Swept(now, ttl, swept)) && k in s.current
    ensures var s' := Apply(s, Swept(now, ttl, swept)); s.current[k] in s.entries && var e := s.entries[s.current[k]];
      && (k !in s'.current <==> !e.pinned && e.refs == 0 && e.state == Ready && now - e.lastUsed > ttl)
      && (k in s'.current ==> s'.current[k] == s.current[k] && s'.entries[s.current[k]] == e)
      && s'.leases == s.leases
  {
    InvFiles(s);
    assert KeyOk(s, k) && EntryOk(s, s.current[k]);
    EvictAllKeys(s, swept, k);
    EvictAllFields(s, swept, s.current[k]);
    EvictAllLeases(s, swept);
    assert s.current[k] in swept <==> Candidate(s, s.current[k]) && now - s.entries[s.current[k]].lastUsed > ttl;
    forall u | u in swept ensures u in s.entries && Serving(s, u) { assert Candidate(s, u); }
  }

  /** Close takes everything out of current, and closes every recogniser nobody leases. */
  lemma CloseEmptiesThePool(s: State, dropped: seq<EntryId>, k: string)
    requires Inv(s) && Enabled(s, CloseEnded(dropped))
    ensures var s' := Apply(s, CloseEnded(dropped));
      && k !in s'.current && s'.draining == {} && s'.leases == s.leases
      && (k in s.current ==> s.current[k] in s.entries)
      && (k in s.current && s.entries[s.current[k]].refs == 0 && s.entries[s.current[k]].rec.Some? ==>
            s'.closings[s.entries[s.current[k]].rec.value] == 1)
  {
    InvFiles(s);
    var s0 := s.(shut := true);
    var u := if k in s.current then s.current[k] else 0;
    assert KeyOk(s, k) && EntryOk(s, u);
    assert k in s.current ==> u in dropped;
    forall w | w in dropped ensures w in s.entries && Serving(s, w) {}
    AbandonAllKeys(s0, dropped, k);
    StepInv(s, CloseEnded(dropped));
    if k in s.current && s.entries[u].refs == 0 && s.entries[u].rec.Some? {
      AbandonedIsClosed(s0, dropped, u);
      assert RecOk(Apply(s, CloseEnded(dropped)), s.entries[u].rec.value);
    }
  }

  lemma {:induction false} AbandonAllKeys(s: State, us: seq<EntryId>, k: string)
    requires forall u :: u in us ==> u in s.entries
    ensures k in AbandonAll(s, us).current <==> k in s.current && Spared(s, us, k)
    ensures AbandonAll(s, us).leases == s.leases
    decreases |us|
  {
    if us != [] { AbandonAllKeys(Abandon(s, us[0]), us[1..], k); }
  }

  lemma {:induction false} AbandonedIsClosed(s: State, us: seq<EntryId>, u: EntryId)
    requires (forall w :: w in us ==> w in s.entries) && u in us && s.entries[u].refs == 0 && s.entries[u].rec.Some?
    ensures AbandonAll(s, us).closings[s.entries[u].rec.value] > 0
    decreases |us|
  {
    if u == us[0] {
      AbandonClosings(Abandon(s, us[0]), us[1..], s.entries[u].rec.value);
    } else {
      AbandonedIsClosed(Abandon(s, us[0]), us[1..], u);
    }
  }

  lemma {:induction false} AbandonClosings(s: State, us: seq<EntryId>, r: RecId)
    requires forall w :: w in us ==> w in s.entries
    ensures AbandonAll(s, us).closings[r] >= s.closings[r]
    decreases |us|
  {
    if us != [] { AbandonClosings(Abandon(s, us[0]), us[1..], r); }
  }

  ghost predicate SameClosed(s: State, s': State) { s'.closed == s.closed }

  lemma {:induction false} MovesKeepClosed(s: State, us: seq<EntryId>)
    requires forall w :: w in us ==> w in s.entries
    ensures SameClosed(s, EvictAll(s, us)) && SameClosed(s, RetireAll(s, us)) && SameClosed(s, AbandonAll(s, us))
    decreases |us|
  {
    if us != [] {
      MovesKeepClosed(Evict(s, us[0]), us[1..]);
      MovesKeepClosed(Retire(s, us[0]), us[1..]);
      MovesKeepClosed(Abandon(s, us[0]), us[1..]);
    }
  }

  lemma StaysClosed(s: State, ev: Event)
    requires Inv(s) && Enabled(s, ev) && s.closed
    ensures Apply(s, ev).closed
  {
    InvFiles(s);
    match ev
    case LoadSettled(p, l, now, rss, evicted) => if Serving(s, s.procs[p].of) { MovesKeepClosed(Settle(s, p, l, now, rss), evicted); }
    case Released(l, now, evicted) => MovesKeepClosed(Release(s, l, now), evicted);
    case Swapped(p, u, now, rss, retired, evicted) =>
      var id := s.procs[p].id;
      MovesKeepClosed(if id in s.current then Retire(s, s.current[id]) else s, retired);
      MovesKeepClosed(Swap(s, p, u, now, rss, retired), evicted);
    case Unloaded(id, retired) => MovesKeepClosed(Retire(s, s.current[id]), retired);
    case Swept(now, ttl, swept) => MovesKeepClosed(s, swept);
    case CloseEnded(dropped) => MovesKeepClosed(s.(shut := true), dropped);
    case _ =>
  }

  /** Once Close has begun nobody acquires any more. */
  lemma CloseStopsAcquiring(s: State, evs: seq<Event>)
    requires Inv(s) && Inv(Apply(s, CloseBegan)) && Legal(Apply(s, CloseBegan), evs)
    ensures forall i :: 0 <= i < |evs| ==> !evs[i].Hit? && !evs[i].Wait? && !evs[i].Claimed?
    ensures var s' := Apply(s, CloseBegan); s'.current == s.current && s'.entries == s.entries && s'.leases == s.leases
  {
    ClosedForGood(Apply(s, CloseBegan), evs);
  }

  lemma {:induction false} ClosedForGood(s: State, evs: seq<Event>)
    requires Inv(s) && s.closed && Legal(s, evs)
    ensures Run(s, evs).closed && forall i :: 0 <= i < |evs| ==> !evs[i].Hit? && !evs[i].Wait? && !evs[i].Claimed?
    decreases |evs|
  {
    if evs != [] {
      StepInv(s, evs[0]);
      StaysClosed(s, evs[0]);
      ClosedForGood(Apply(s, evs[0]), evs[1..]);
      forall i | 0 <= i < |evs| ensures !evs[i].Hit? && !evs[i].Wait? && !evs[i].Claimed? { if i > 0 { assert evs[i] == evs[1..][i - 1]; } }
    }
  }

  // --- staying ---------------------------------------------------------------------------

  /** A ready base entry that is pinned serves the model. */
  ghost predicate PinnedHere(s: State, id: string) {
    id in s.current && s.current[id] in s.entries
    && var e := s.entries[s.current[id]]; e.pinned && e.state == Ready && e.id == id && e.baseID == id
  }

  /** What takes a pinned model away: an Unload, an unpinning, or Close. */
  predicate Unpins(ev: Event, id: string) {
    (ev.Unloaded? && ev.id == id) || (ev.Pinned? && ev.id == id && !ev.pinned) || ev.CloseEnded?
  }

  lemma EvictionSparesThePinned(s: State, us: seq<EntryId>, id: string)
    requires Inv(s) && EvictionRun(s, us) && PinnedHere(s, id)
    ensures PinnedHere(EvictAll(s, us), id)
  {
    EvictionRunKeys(s, us, id);
    EvictionOrder(s, us);
    EvictAllFields(s, us, s.current[id]);
  }

  lemma {:induction false} RetireAllSpares(s: State, us: seq<EntryId>, u: EntryId)
    requires (forall w :: w in us ==> w in s.entries) && u in s.entries && u !in us
    ensures RetireAll(s, us).entries[u] == s.entries[u]
    decreases |us|
  {
    if us != [] { RetireAllSpares(Retire(s, us[0]), us[1..], u); }
  }

  /** Another model's retirement leaves the entry alone. */
  lemma OthersStayPinned(s: State, other: string, retired: seq<EntryId>, id: string)
    requires Inv(s) && Lists(retired, VariantsOf(s, other)) && (other in s.current ==> s.current[other] in s.entries)
    requires PinnedHere(s, id) && other != id
    ensures PinnedHere(RetireModel(s, other, retired), id)
  {
    RetireModelKeys(s, other, retired, id);
    assert KeyOk(s, other) && KeyOk(s, id);
    var u := s.current[id];
    assert u !in VariantsOf(s, other);
    RetireAllSpares(if other in s.current then Retire(s, s.current[other]) else s, retired, u);
  }

  lemma StepKeepsPinned(s: State, ev: Event, id: string)
    requires Inv(s) && Enabled(s, ev) && PinnedHere(s, id) && !Unpins(ev, id)
    ensures PinnedHere(Apply(s, ev), id)
  {
    if ev.LoadSettled? {
      SettledKeepsPinned(s, ev, id);
    } else if ev.Released? {
      ReleasedKeepsPinned(s, ev, id);
    } else if ev.Swapped? {
      SwapKeepsPinned(s, ev, id);
    } else if ev.Unloaded? || ev.Swept? {
      LeavingKeepsPinned(s, ev, id);
    } else {
      PlainKeepsPinned(s, ev, id);
    }
  }

  lemma LeavingKeepsPinned(s: State, ev: Event, id: string)
    requires Inv(s) && Enabled(s, ev) && PinnedHere(s, id) && ((ev.Unloaded? && ev.id != id) || ev.Swept?)
    ensures PinnedHere(Apply(s, ev), id)
  {
    InvFiles(s);
    if ev.Unloaded? { OthersStayPinned(s, ev.id, ev.retired, id); } else { SweepTakesTheIdle(s, ev.now, ev.ttl, ev.swept, id); }
  }

  lemma SettledKeepsPinned(s: State, ev: Event, id: string)
    requires Inv(s) && Enabled(s, ev) && ev.LoadSettled? && PinnedHere(s, id)
    ensures PinnedHere(Apply(s, ev), id)
  {
    InvFiles(s);
    SettleInv(s, ev.p, ev.l, ev.now, ev.rss);
    SettleKeepsPinned(s, ev.p, ev.l, ev.now, ev.rss, id);
    if Serving(s, s.procs[ev.p].of) { EvictionSparesThePinned(Settle(s, ev.p, ev.l, ev.now, ev.rss), ev.evicted, id); }
  }

  lemma ReleasedKeepsPinned(s: State, ev: Event, id: string)
    requires Inv(s) && Enabled(s, ev) && ev.Released? && PinnedHere(s, id)
    ensures PinnedHere(Apply(s, ev), id)
  {
    InvFiles(s);
    ReleaseInv(s, ev.l, ev.now);
    ReleaseKeepsPinned(s, ev.l, ev.now, id);
    EvictionSparesThePinned(Release(s, ev.l, ev.now), ev.evicted, id);
  }

  lemma SettleKeepsPinned(s: State, p: ProcId, l: LeaseId, now: int, rss: int, id: string)
    requires Inv(s) && p in s.procs && s.procs[p].Loaded? && s.procs[p].of in s.entries && PinnedHere(s, id)
    requires forall k :: k in s.current ==> s.current[k] in s.entries && (s.entries[s.current[k]].state == Ready ==> s.entries[s.current[k]].rec.Some?)
    ensures PinnedHere(Settle(s, p, l, now, rss), id)
  {
    assert ProcOk(s, p) && EntryOk(s, s.procs[p].of);
  }

  lemma ReleaseKeepsPinned(s: State, l: LeaseId, now: int, id: string)
    requires l in s.leases && s.leases[l].on in s.entries && PinnedHere(s, id)
    ensures PinnedHere(Release(s, l, now), id)
  {}

  lemma InstallKeepsPinned(s: State, p: ProcId, u: EntryId, pinned: bool, rss: int, now: int, id: string)
    requires p in s.procs && s.procs[p].Swapper? && u !in s.entries && if s.procs[p].id == id then pinned else PinnedHere(s, id)
    ensures PinnedHere(InstallFresh(s, p, u, pinned, rss, now), id)
  {}

  lemma SwapKeepsPinned(s: State, ev: Event, id: string)
    requires Inv(s) && Enabled(s, ev) && ev.Swapped? && PinnedHere(s, id)
    ensures PinnedHere(Apply(s, ev), id)
  {
    InvFiles(s);
    var model := s.procs[ev.p].id;
    SwapInv(s, ev.p, ev.u, ev.now, ev.rss, ev.retired);
    RetireModelInv(s, model, ev.retired);
    if model != id { OthersStayPinned(s, model, ev.retired, id); }
    InstallKeepsPinned(RetireModel(s, model, ev.retired), ev.p, ev.u, model in s.current && s.entries[s.current[model]].pinned, ev.rss, ev.now, id);
    EvictionSparesThePinned(Swap(s, ev.p, ev.u, ev.now, ev.rss, ev.retired), ev.evicted, id);
  }

  lemma PlainKeepsPinned(s: State, ev: Event, id: string)
    requires Inv(s) && Enabled(s, ev) && PinnedHere(s, id) && !Unpins(ev, id)
    requires !ev.LoadSettled? && !ev.Released? && !ev.Swapped? && !ev.Unloaded? && !ev.Swept?
    ensures PinnedHere(Apply(s, ev), id)
  {
    InvFiles(s);
    if ev.LoadFailed? { assert ProcOk(s, ev.p) && EntryOk(s, s.procs[ev.p].of); }
  }

  /** A pinned model stays: neither eviction nor a sweep takes it, and a reload puts its new recogniser under the same pin.
   *  Pinning a ready one pins it. */
  lemma {:induction false} PinnedStays(s: State, id: string, evs: seq<Event>)
    requires Inv(s) && PinnedHere(s, id) && Legal(s, evs) && forall i :: 0 <= i < |evs| ==> !Unpins(evs[i], id)
    ensures PinnedHere(Run(s, evs), id)
    decreases |evs|
  {
    if evs != [] {
      assert !Unpins(evs[0], id);
      StepInv(s, evs[0]);
      StepKeepsPinned(s, evs[0], id);
      forall i | 0 <= i < |evs[1..]| ensures !Unpins(evs[1..][i], id) { assert evs[1..][i] == evs[i + 1]; }
      PinnedStays(Apply(s, evs[0]), id, evs[1..]);
    }
  }

  lemma PinPins(s: State, id: string, pinned: bool)
    requires Inv(s) && Enabled(s, Pinned(id, pinned))
    ensures var s' := Apply(s, Pinned(id, pinned)); 
      && id in s.current && s.current[id] in s.entries && s.current == s'.current && s'.leases == s.leases
      && s'.entries == s.entries[s.current[id] := s.entries[s.current[id]].(pinned := pinned)]
  {
    InvFiles(s);
  }

  // --- use -----------------------------------------------------------------------------

  /** No event of the run is earlier than t. */
  predicate NotBefore(ev: Event, t: int) {
    match ev
    case Hit(_, _, now) => now >= t
    case LoadSettled(_, _, now, _, _) => now >= t
    case Released(_, now, _) => now >= t
    case _ => true
  }

  ghost predicate UsedSince(s: State, u: EntryId, t: int) { u in s.entries && s.entries[u].lastUsed >= t }

  lemma {:induction false} MovesKeepUse(s: State, us: seq<EntryId>, u: EntryId, t: int)
    requires (forall w :: w in us ==> w in s.entries) && UsedSince(s, u, t)
    ensures UsedSince(EvictAll(s, us), u, t) && UsedSince(RetireAll(s, us), u, t) && UsedSince(AbandonAll(s, us), u, t)
    decreases |us|
  {
    if us != [] {
      MovesKeepUse(Evict(s, us[0]), us[1..], u, t);
      MovesKeepUse(Retire(s, us[0]), us[1..], u, t);
      MovesKeepUse(Abandon(s, us[0]), us[1..], u, t);
    }
  }

  lemma StepKeepsUse(s: State, ev: Event, u: EntryId, t: int)
    requires Inv(s) && Enabled(s, ev) && UsedSince(s, u, t) && NotBefore(ev, t)
    ensures UsedSince(Apply(s, ev), u, t)
  {
    if ev.LoadSettled? {
      SettledKeepsUse(s, ev, u, t);
    } else if ev.Released? {
      ReleasedKeepsUse(s, ev, u, t);
    } else if ev.Swapped? {
      SwapKeepsUse(s, ev, u, t);
    } else if ev.Unloaded? || ev.Swept? || ev.CloseEnded? {
      LeavingKeepsUse(s, ev, u, t);
    } else {
      PlainKeepsUse(s, ev, u, t);
    }
  }

  lemma LeavingKeepsUse(s: State, ev: Event, u: EntryId, t: int)
    requires Inv(s) && Enabled(s, ev) && (ev.Unloaded? || ev.Swept? || ev.CloseEnded?) && UsedSince(s, u, t)
    ensures UsedSince(Apply(s, ev), u, t)
  {
    InvFiles(s);
    if ev.Unloaded? {
      MovesKeepUse(Retire(s, s.current[ev.id]), ev.retired, u, t);
    } else if ev.Swept? {
      MovesKeepUse(s, ev.swept, u, t);
    } else {
      MovesKeepUse(s.(shut := true), ev.dropped, u, t);
    }
  }

  lemma SettledKeepsUse(s: State, ev: Event, u: EntryId, t: int)
    requires Inv(s) && Enabled(s, ev) && ev.LoadSettled? && UsedSince(s, u, t) && NotBefore(ev, t)
    ensures UsedSince(Apply(s, ev), u, t)
  {
    InvFiles(s);
    SettleKeepsUse(s, ev.p, ev.l, ev.now, ev.rss, u, t);
    if Serving(s, s.procs[ev.p].of) { MovesKeepUse(Settle(s, ev.p, ev.l, ev.now, ev.rss), ev.evicted, u, t); }
  }

  lemma ReleasedKeepsUse(s: State, ev: Event, u: EntryId, t: int)
    requires Inv(s) && Enabled(s, ev) && ev.Released? && UsedSince(s, u, t) && NotBefore(ev, t)
    ensures UsedSince(Apply(s, ev), u, t)
  {
    InvFiles(s);
    ReleaseKeepsUse(s, ev.l, ev.now, u, t);
    MovesKeepUse(Release(s, ev.l, ev.now), ev.evicted, u, t);
  }

  lemma SettleKeepsUse(s: State, p: ProcId, l: LeaseId, now: int, rss: int, u: EntryId, t: int)
    requires p in s.procs && s.procs[p].Loaded? && s.procs[p].of in s.entries && UsedSince(s, u, t) && now >= t
    requires forall k :: k in s.current ==> s.current[k] in s.entries && (s.entries[s.current[k]].state == Ready ==> s.entries[s.current[k]].rec.Some?)
    ensures UsedSince(Settle(s, p, l, now, rss), u, t)
  {}

  lemma ReleaseKeepsUse(s: State, l: LeaseId, now: int, u: EntryId, t: int)
    requires l in s.leases && s.leases[l].on in s.entries && now >= t && (u == s.leases[l].on || UsedSince(s, u, t))
    ensures UsedSince(Release(s, l, now), u, t)
  {}

  lemma InstallKeepsUse(s: State, p: ProcId, w: EntryId, pinned: bool, rss: int, now: int, u: EntryId, t: int)
    requires u != w && UsedSince(s, u, t)
    ensures p in s.procs && s.procs[p].Swapper? ==> UsedSince(InstallFresh(s, p, w, pinned, rss, now), u, t)
  {}

  lemma SwapKeepsUse(s: State, ev: Event, u: EntryId, t: int)
    requires Inv(s) && Enabled(s, ev) && ev.Swapped? && UsedSince(s, u, t)
    ensures UsedSince(Apply(s, ev), u, t)
  {
    InvFiles(s);
    var id := s.procs[ev.p].id;
    MovesKeepUse(if id in s.current then Retire(s, s.current[id]) else s, ev.retired, u, t);
    InstallKeepsUse(RetireModel(s, id, ev.retired), ev.p, ev.u, id in s.current && s.entries[s.current[id]].pinned, ev.rss, ev.now, u, t);
    MovesKeepUse(Swap(s, ev.p, ev.u, ev.now, ev.rss, ev.retired), ev.evicted, u, t);
  }

  lemma PlainKeepsUse(s: State, ev: Event, u: EntryId, t: int)
    requires Inv(s) && Enabled(s, ev) && UsedSince(s, u, t) && NotBefore(ev, t)
    requires !ev.LoadSettled? && !ev.Released? && !ev.Swapped? && !ev.Unloaded? && !ev.Swept? && !ev.CloseEnded?
    ensures UsedSince(Apply(s, ev), u, t)
  {
    InvFiles(s);
  }

  lemma {:induction false} RunKeepsUse(s: State, evs: seq<Event>, u: EntryId, t: int)
    requires Inv(s) && Legal(s, evs) && UsedSince(s, u, t) && forall i :: 0 <= i < |evs| ==> NotBefore(evs[i], t)
    ensures UsedSince(Run(s, evs), u, t)
    decreases |evs|
  {
    if evs != [] {
      StepInv(s, evs[0]);
      StepKeepsUse(s, evs[0], u, t);
      forall i | 0 <= i < |evs[1..]| ensures NotBefore(evs[1..][i], t) { assert evs[1..][i] == evs[i + 1]; }
      RunKeepsUse(Apply(s, evs[0]), evs[1..], u, t);
    }
  }

  /** An entry leased, or given back, at t is not swept while no more than the time to live has passed since. */
  lemma UsedIsNotSwept(s: State, use: Event, evs: seq<Event>, now: int, ttl: int, swept: seq<EntryId>, k: string)
    requires Inv(s) && Enabled(s, use) && (use.Hit? || use.Released?) && Inv(Apply(s, use)) && Legal(Apply(s, use), evs)
    requires forall i :: 0 <= i < |evs| ==> NotBefore(evs[i], use.now)
    requires var s1 := Run(Apply(s, use), evs); Enabled(s1, Swept(now, ttl, swept)) && now - use.now <= ttl
    requires var s1 := Run(Apply(s, use), evs); k in s1.current && s1.current[k] == UsedEntry(s, use)
    ensures var s1 := Run(Apply(s, use), evs); k in Apply(s1, Swept(now, ttl, swept)).current
  {
    var u := UsedEntry(s, use);
    UseIsNoted(s, use);
    RunKeepsUse(Apply(s, use), evs, u, use.now);
    SweepTakesTheIdle(Run(Apply(s, use), evs), now, ttl, swept, k);
  }

  lemma UseIsNoted(s: State, use: Event)
    requires Inv(s) && Enabled(s, use) && (use.Hit? || use.Released?)
    ensures UsedSince(Apply(s, use), UsedEntry(s, use), use.now)
  {
    InvFiles(s);
    if use.Released? {
      ReleaseKeepsUse(s, use.l, use.now, s.leases[use.l].on, use.now);
      MovesKeepUse(Release(s, use.l, use.now), use.evicted, s.leases[use.l].on, use.now);
    }
  }

  ghost function UsedEntry(s: State, use: Event): EntryId
    requires Inv(s) && Enabled(s, use) && (use.Hit? || use.Released?)
  {
    InvFiles(s);
    if use.Hit? then s.current[use.key] else s.leases[use.l].on
  }

  // --- eviction ---------------------------------------------------------------------------

  /** Each victim went while the pool was over a limit, was of nobody's lease or pin, and of those it could have taken was
   *  no base while there was a variant, and of its kind the one unused for longest. */
  lemma EvictionTakesTheOldest(s: State, us: seq<EntryId>, i: nat, w: EntryId)
    requires Inv(s) && EvictionRun(s, us) && i < |us|
    ensures us[i] in s.entries && var e := s.entries[us[i]];
      && !e.pinned && e.refs == 0 && e.state == Ready
      && (w in s.entries && w !in us[..i + 1] && (exists k :: k in s.current && s.current[k] == w) ==>
            var f := s.entries[w];
            f.pinned || f.refs > 0 || f.state != Ready
            || (e.id != e.baseID && f.id == f.baseID)
            || ((e.id == e.baseID <==> f.id == f.baseID) && e.lastUsed <= f.lastUsed))
  {
    EvictionOrder(s, us);
    assert EntryOk(s, us[i]) && EntryOk(s, w) && Candidate(s, us[i]);
    if w in s.entries && w !in us[..i + 1] && (exists k :: k in s.current && s.current[k] == w) && !Held(s.entries[w]) && s.entries[w].state == Ready {
      var k :| k in s.current && s.current[k] == w;
      assert KeyOk(s, k);
      if w in us {
        var j :| 0 <= j < |us| && us[j] == w;
      } else {
        EvictionRunKeys(s, us, k);
        EvictAllFields(s, us, w);
        assert Candidate(EvictAll(s, us), w);
      }
    }
  }

  ghost predicate OverALimit(s: State) {
    |s.current| > s.limits.maxResident || TotalRss(s.current, s.entries) > s.limits.maxRss
  }

  /** Nothing is evicted from a pool within its limits, and no more than it takes to come within them. */
  lemma {:induction false} EvictionOnlyWhileOver(s: State, us: seq<EntryId>, i: nat)
    requires EvictionRun(s, us) && i < |us|
    ensures (forall u :: u in us[..i] ==> u in s.entries) && OverALimit(EvictAll(s, us[..i]))
    decreases |us|
  {
    if i > 0 {
      EvictionOnlyWhileOver(Evict(s, us[0]), us[1..], i - 1);
      assert us[..i][1..] == us[1..][..i - 1];
    }
  }
}
