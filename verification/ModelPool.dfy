/** The pool itself: entries are objects updated in place, every method is one critical section of Pool.mu.
 *
 *  m is the protocol's picture of the pool. Coupled says the objects and fields are what m says, and every
 *  method is proved to take m through one event of PoolRuns; what PoolRuns proves of all runs therefore holds
 *  of every interleaving of these methods.
 */
module ModelPool {
  import opened Options
  import P = PoolProtocol
  import R = PoolRuns

  class Entry {
    ghost const uid: P.EntryId   // the object's identity, as the protocol names it
    const id: string
    const baseID: string
    var state: P.EntryState
    var refs: int
    var pinned: bool
    var rss: int
    var lastUsed: int
    var rec: Option<P.RecId>
    var readyCloses: nat         // how often the ready channel has been closed
    var loadErr: bool

    constructor (ghost uid: P.EntryId, id: string, baseID: string, state: P.EntryState, pinned: bool, rss: int,
                 now: int, rec: Option<P.RecId>, readyCloses: nat)
      ensures this.uid == uid && forall loader :: Is(P.Entry(id, baseID, state, 0, pinned, rss, now, rec, readyCloses, false, loader))
    {
      this.uid, this.id, this.baseID, this.state, this.refs, this.pinned := uid, id, baseID, state, 0, pinned;
      this.rss, this.lastUsed, this.rec, this.readyCloses, this.loadErr := rss, now, rec, readyCloses, false;
    }

    ghost predicate Is(v: P.Entry)
      reads this
    {
      v == P.Entry(id, baseID, state, refs, pinned, rss, lastUsed, rec, readyCloses, loadErr, v.loader)
    }
  }

  /** A borrowed model; the pool takes it back once. */
  class Lease {
    const e: Entry
    const rec: P.RecId
    ghost const lid: P.LeaseId
    var released: bool

    constructor (e: Entry, rec: P.RecId, ghost lid: P.LeaseId)
      ensures this.e == e && this.rec == rec && this.lid == lid && !released
    {
      this.e, this.rec, this.lid, this.released := e, rec, lid, false;
    }
  }

  /** How one turn of AcquireVariant's loop ends. */
  datatype Turn = Refused | Leased(lease: Lease) | AwaitReady(on: Entry) | MustLoad(placeholder: Entry)

  class Pool {
    const maxResident: int
    const maxRss: int
    const idleTTL: int
    var current: map<string, Entry>
    var draining: seq<Entry>
    var closed: bool
    var closeCalls: seq<P.RecId>             // the native Close calls made so far

    ghost var made: map<P.EntryId, Entry>    // every entry there has been
    ghost var m: P.State

    ghost predicate Knows(e: Entry)
      reads this
    {
      e.uid in made && made[e.uid] == e && e.uid in m.entries
    }

    ghost predicate EntryAt(u: P.EntryId)
      reads this, made.Values
    {
      && (u in made <==> u in m.entries)
      && (u in made ==> made[u].uid == u && made[u].Is(m.entries[u]))
      && (u in m.draining <==> u in made && made[u] in draining)
    }

    ghost predicate KeyAt(k: string)
      reads this
    {
      && (k in current <==> k in m.current)
      && (k in current ==> Knows(current[k]) && current[k].uid == m.current[k])
    }

    ghost predicate Filed()
      reads this
    {
      && (forall e :: e in draining ==> Knows(e))
      && (forall i, j :: 0 <= i < j < |draining| ==> draining[i] != draining[j])
    }

    ghost predicate Coupled()
      reads this, made.Values
    {
      && m.limits == P.Limits(maxResident, maxRss) && m.closed == closed && m.closings == multiset(closeCalls)
      && (forall u :: EntryAt(u))
      && (forall k :: KeyAt(k))
      && Filed()
    }

    ghost predicate Valid()
      reads this, made.Values
    {
      Coupled() && P.Inv(m)
    }

    constructor (maxResident: int, maxRss: int, idleTTL: int)
      ensures Valid() && m == P.Init(P.Limits(if maxResident < 1 then 1 else maxResident, if maxRss < 1 then 1024 else maxRss))
    {
      this.maxResident := if maxResident < 1 then 1 else maxResident;
      this.maxRss := if maxRss < 1 then 1024 else maxRss;
      this.idleTTL := idleTTL;
      current, draining, closed, closeCalls, made := map[], [], false, [], map[];
      m := P.Init(P.Limits(if maxResident < 1 then 1 else maxResident, if maxRss < 1 then 1024 else maxRss));
    }

    method CloseLocked(e: Entry)
      requires Coupled() && Knows(e)
      modifies e`rec, this`closeCalls, this`m
      ensures Coupled() && m == P.CloseRec(old(m), e.uid)
    {
      assert EntryAt(e.uid);
      m := P.CloseRec(m, e.uid);
      if e.rec.Some? {
        closeCalls := closeCalls + [e.rec.value];
        e.rec := None;
      }
      forall u ensures EntryAt(u) { assert old(EntryAt(u)); }
      forall k ensures KeyAt(k) { assert old(KeyAt(k)); }
    }

    /** delete(p.current, key) */
    method Delete(key: string)
      requires Coupled()
      modifies this`current, this`m
      ensures Coupled() && m == old(m).(current := P.RemoveKey(old(m).current, key))
      ensures current == map k | k in old(current) && k != key :: old(current)[k]
    {
      current := map k | k in current && k != key :: current[k];
      m := m.(current := P.RemoveKey(m.current, key));
      forall u ensures EntryAt(u) { assert old(EntryAt(u)); }
      forall k ensures KeyAt(k) { assert old(KeyAt(k)); }
    }

    method Drain(e: Entry)
      requires Coupled() && Knows(e) && e !in draining
      modifies this`draining, this`m, e`state
      ensures Coupled() && Knows(e)
      ensures m == old(m).(entries := old(m).entries[e.uid := old(m).entries[e.uid].(state := P.Draining)], draining := old(m).draining + {e.uid})
    {
      e.state := P.Draining;
      draining := draining + [e];
      m := m.(entries := m.entries[e.uid := m.entries[e.uid].(state := P.Draining)], draining := m.draining + {e.uid});
      forall u ensures EntryAt(u) { assert old(EntryAt(u)); }
      forall k ensures KeyAt(k) { assert old(KeyAt(k)); }
    }

    method RetireLocked(e: Entry)
      requires Coupled() && Knows(e) && e !in draining
      modifies this`current, this`draining, this`closeCalls, this`m, e
      ensures Coupled() && m == P.Retire(old(m), e.uid)
      ensures current == map k | k in old(current) && k != e.id :: old(current)[k]
    {
      assert EntryAt(e.uid);
      Delete(e.id);
      if e.refs == 0 {
        CloseLocked(e);
      } else {
        Drain(e);
      }
    }

    method OverLimitLocked() returns (over: bool)
      requires Coupled()
      ensures over <==> R.OverLimit(m)
    {
      assert current.Keys == m.current.Keys by { SameKeys(); }
      if |current| > maxResident {
        return true;
      }
      var total, left := 0, current;
      ghost var mleft := m.current;
      while left != map[]
        invariant left.Keys == mleft.Keys
        invariant forall k :: k in left ==> k in current && left[k] == current[k]
        invariant forall k :: k in mleft ==> k in m.current && mleft[k] == m.current[k]
        invariant total + R.TotalRss(mleft, m.entries) == R.TotalRss(m.current, m.entries)
        decreases |left|
      {
        var k :| k in left;
        assert KeyAt(k) && EntryAt(m.current[k]);
        R.TotalRssStep(mleft, m.entries, k);
        total := total + left[k].rss;
        ghost var shrunk := left.Keys - {k};
        left := map j | j in left && j != k :: left[j];
        assert left.Keys == shrunk;
        mleft := P.RemoveKey(mleft, k);
      }
      assert mleft == map[];
      return total > maxRss;
    }

    lemma SameKeys()
      requires Coupled()
      ensures current.Keys == m.current.Keys && |current| == |m.current|
    {
      forall k ensures k in current <==> k in m.current { assert KeyAt(k); }
      assert current.Keys == m.current.Keys;
      assert |current| == |current.Keys| && |m.current| == |m.current.Keys|;
    }

    predicate IsIdle(e: Entry)
      reads e
    {
      !(e.pinned || e.refs > 0 || e.state != P.Ready)
    }

    /** cands[0] after the sort: a least element of the order the sort uses. */
    method LruVictimLocked() returns (victim: Entry?)
      requires Valid()
      ensures victim == null ==> forall u :: !R.Candidate(m, u)
      ensures victim != null ==> Knows(victim) && R.IsVictim(m, victim.uid)
    {
      victim := null;
      var left := current.Keys;
      while left != {}
        invariant left <= current.Keys
        invariant victim == null ==> forall k :: k in current && k !in left ==> !IsIdle(current[k])
        invariant victim != null ==> victim.id in current && current[victim.id] == victim && IsIdle(victim)
        invariant victim != null ==> forall k :: k in current && k !in left && IsIdle(current[k]) ==> Before(victim, current[k])
        decreases |left|
      {
        var k :| k in left;
        assert KeyAt(k) && EntryAt(m.current[k]) && P.KeyOk(m, k);
        if IsIdle(current[k]) && (victim == null || !Before(victim, current[k])) {
          victim := current[k];
        }
        left := left - {k};
      }
      if victim == null {
        forall u ensures !R.Candidate(m, u) { CandidateIsIdle(u); }
      } else {
        assert KeyAt(victim.id) && EntryAt(victim.uid);
        forall w | R.Candidate(m, w) ensures R.Sooner(m.entries[victim.uid], m.entries[w]) { CandidateIsIdle(w); }
        assert R.Candidate(m, victim.uid);
      }
    }

    /** The sort's less-or-equal. */
    predicate Before(a: Entry, b: Entry)
      reads a, b
    {
      var iv, jv := a.id != a.baseID, b.id != b.baseID;
      if iv != jv then iv else a.lastUsed <= b.lastUsed
    }

    lemma CandidateIsIdle(u: P.EntryId)
      requires Coupled()
      ensures R.Candidate(m, u) ==>
          u in made && made[u].id in current && current[made[u].id] == made[u] && IsIdle(made[u])
          && made[u].id == m.entries[u].id && made[u].baseID == m.entries[u].baseID && made[u].lastUsed == m.entries[u].lastUsed
    {
      assert EntryAt(u);
      if R.Candidate(m, u) { assert KeyAt(m.entries[u].id); }
    }

    method EvictEntry(e: Entry)
      requires Valid() && Knows(e) && R.Candidate(m, e.uid)
      modifies this`current, this`closeCalls, this`m, e`rec
      ensures Valid() && m == P.Evict(old(m), e.uid)
      ensures |current| < |old(current)|
    {
      assert EntryAt(e.uid) && KeyAt(e.id) && P.EntryOk(m, e.uid);
      P.EvictInv(m, e.uid);
      ghost var before := current;
      Delete(e.id);
      assert current.Keys == before.Keys - {e.id};
      CloseLocked(e);
    }

    /** One turn of evictLocked's loop; false when there is nobody to evict. */
    method EvictNext(ghost start: P.State, ghost us: seq<P.EntryId>) returns (went: bool, ghost us': seq<P.EntryId>)
      requires Valid() && R.OverLimit(m) && R.EvictionSteps(start, us) && m == R.EvictAll(start, us)
      modifies this`current, this`closeCalls, this`m, made.Values
      ensures Valid() && R.EvictionSteps(start, us') && m == R.EvictAll(start, us')
      ensures !went ==> us' == us && forall u :: !R.Candidate(m, u)
      ensures went ==> |current| < |old(current)|
    {
      var victim := LruVictimLocked();
      if victim == null {
        return false, us;
      }
      R.EvictOneMore(start, us, victim.uid);
      R.EvictAllAppend(start, us, victim.uid);
      EvictEntry(victim);
      return true, us + [victim.uid];
    }

    method EvictLocked() returns (ghost us: seq<P.EntryId>)
      requires Valid()
      modifies this`current, this`closeCalls, this`m, made.Values
      ensures Valid() && R.EvictionRun(old(m), us) && m == R.EvictAll(old(m), us)
    {
      us := [];
      ghost var start := m;
      var over := OverLimitLocked();
      while over
        invariant Valid() && (over <==> R.OverLimit(m))
        invariant R.EvictionSteps(start, us) && m == R.EvictAll(start, us)
        decreases |current|
      {
        var went;
        went, us := EvictNext(start, us);
        if !went {
          break;
        }
        over := OverLimitLocked();
      }
      R.EvictionDone(start, us);
    }

    // -------------------------------------------------------------- AcquireVariant

    /** The lease is one the pool still counts. */
    ghost predicate Outstanding(l: Lease)
      reads this
    {
      Knows(l.e) && l.lid in m.leases && m.leases[l.lid] == P.Lease(l.e.uid, l.rec)
    }

    method GrantTo(e: Entry, now: int, ghost lid: P.LeaseId) returns (l: Lease)
      requires Coupled() && Knows(e) && e.rec.Some? && m.entries[e.uid].rec.Some?
      modifies this`m, e`refs, e`lastUsed
      ensures Coupled() && m == P.Grant(old(m), e.uid, lid, now)
      ensures fresh(l) && !l.released && l.lid == lid && Outstanding(l) && l.e == e && m.entries[e.uid].rec == Some(l.rec)
    {
      assert EntryAt(e.uid);
      l := new Lease(e, e.rec.value, lid);
      e.refs := e.refs + 1;
      e.lastUsed := now;
      m := P.Grant(m, e.uid, lid, now);
      forall u ensures EntryAt(u) { assert old(EntryAt(u)); }
      forall k ensures KeyAt(k) { assert old(KeyAt(k)); }
    }

    /** Nothing serves this key: a placeholder claims the slot. */
    method ClaimSlot(id: string, v: string, now: int, ghost p: P.ProcId, ghost uid: P.EntryId) returns (e: Entry)
      requires Coupled() && uid !in made
      modifies this`current, this`m, this`made
      ensures Coupled() && m == P.Claim(old(m), p, id, v, uid, now) && fresh(e) && Knows(e) && e.uid == uid
      ensures made == old(made)[uid := e] && e.id == P.VariantKey(id, v) && e.baseID == id
    {
      var key := P.VariantKey(id, v);
      e := new Entry(uid, key, id, P.Loading, false, 0, now, None, 0);
      assert EntryAt(uid) && e !in draining;
      made := made[uid := e];
      current := current[key := e];
      m := P.Claim(m, p, id, v, uid, now);
      forall u ensures EntryAt(u) { assert old(EntryAt(u)); }
      forall k ensures KeyAt(k) { assert old(KeyAt(k)); }
    }

    /** One turn of AcquireVariant's loop, up to the point where it waits, loads or returns. */
    method AcquireTurn(id: string, v: string, now: int, ghost p: P.ProcId, ghost lid: P.LeaseId, ghost uid: P.EntryId)
      returns (t: Turn)
      requires Valid() && p !in m.procs && lid !in m.leases && uid !in made
      modifies this`current, this`m, this`made, made.Values
      ensures Valid()
      ensures t.Refused? <==> closed
      ensures t.Refused? ==> m == old(m)
      ensures t.Leased? ==> Outstanding(t.lease) && t.lease.lid == lid && !t.lease.released && Takes(old(m), R.Hit(P.VariantKey(id, v), lid, now))
      ensures t.AwaitReady? ==> Knows(t.on) && Takes(old(m), R.Wait(p, P.VariantKey(id, v))) && m.procs[p] == P.Waiting(t.on.uid)
      ensures t.Leased? ==> t.lease.e.id == P.VariantKey(id, v)
      ensures t.MustLoad? ==> t.placeholder.id == P.VariantKey(id, v) && t.placeholder.baseID == id
      ensures t.MustLoad? ==> Knows(t.placeholder) && t.placeholder.uid == uid && Takes(old(m), R.Claimed(p, id, v, uid, now))
    {
      if closed {
        return Refused;
      }
      var key := P.VariantKey(id, v);
      assert KeyAt(key) && P.KeyOk(m, key);
      ghost var before := m;
      R.InvFiles(m);
      if key in current {
        var e := current[key];
        assert EntryAt(e.uid) && P.EntryOk(m, e.uid);
        if e.state == P.Ready {
          R.StepInv(m, R.Hit(key, lid, now));
          var l := GrantTo(e, now, lid);
          return Leased(l);
        } else if e.state == P.Loading {
          R.StepInv(m, R.Wait(p, key));
          m := m.(procs := m.procs[p := P.Waiting(e.uid)]);
          SameObjects(before);
          return AwaitReady(e);
        }
      }
      assert EntryAt(uid);
      R.StepInv(m, R.Claimed(p, id, v, uid, now));
      var e := ClaimSlot(id, v, now, p, uid);
      return MustLoad(e);
    }

    /** m took this event. */
    ghost predicate Takes(before: P.State, ev: R.Event)
      reads this
      requires P.Inv(before)
    {
      R.Enabled(before, ev) && m == R.Apply(before, ev)
    }

    /** Only the calls in flight changed, which no object records. */
    twostate lemma SameObjects(before: P.State)
      requires old(Coupled()) && before == old(m)
      requires unchanged(this`current, this`draining, this`closed, this`closeCalls, this`made)
      requires forall u :: u in made ==> unchanged(made[u])
      requires m.limits == before.limits && m.current == before.current && m.draining == before.draining && m.entries == before.entries
      requires m.closed == before.closed && m.closings == before.closings
      ensures Coupled()
    {
      forall u ensures EntryAt(u) { assert old(EntryAt(u)); }
      forall k ensures KeyAt(k) { assert old(KeyAt(k)); }
    }

    /** materialise returned without the lock held: only the call's hands changed. */
    ghost method LoadReturned(p: P.ProcId, r: P.RecId)
      requires Valid() && p in m.procs && m.procs[p].Loader? && r !in m.where
      modifies this`m
      ensures Valid() && Takes(old(m), R.LoadReturned(p, r))
    {
      ghost var before := m;
      R.InvFiles(m);
      R.StepInv(m, R.LoadReturned(p, r));
      m := P.HandOver(m, p, P.Loaded(m.procs[p].of, r), r);
      SameObjects(before);
    }

    method MarkFailed(e: Entry, ghost p: P.ProcId)
      requires Coupled() && Knows(e)
      modifies this`m, e`loadErr, e`readyCloses
      ensures Coupled()
      ensures m == old(m).(procs := P.Without(old(m).procs, p), entries := old(m).entries[e.uid := old(m).entries[e.uid].(
        loadErr := true, readyCloses := old(m).entries[e.uid].readyCloses + 1, loader := None)])
    {
      assert EntryAt(e.uid);
      e.loadErr := true;
      e.readyCloses := e.readyCloses + 1;
      m := m.(procs := P.Without(m.procs, p), entries := m.entries[e.uid := m.entries[e.uid].(
        loadErr := true, readyCloses := m.entries[e.uid].readyCloses + 1, loader := None)]);
      forall u ensures EntryAt(u) { assert old(EntryAt(u)); }
      forall k ensures KeyAt(k) { assert old(KeyAt(k)); }
    }

    /** The load failed. */
    method LoadFailed(e: Entry, ghost p: P.ProcId)
      requires Valid() && Knows(e) && p in m.procs && m.procs[p] == P.Loader(e.uid)
      modifies this`current, this`m, e`loadErr, e`readyCloses
      ensures Valid() && Takes(old(m), R.LoadFailed(p))
    {
      R.StepInv(m, R.LoadFailed(p));
      assert EntryAt(e.uid) && KeyAt(e.id);
      ghost var serving := e.id in current && current[e.id] == e;
      assert serving ==> P.Serving(m, e.uid);
      assert P.Serving(m, e.uid) ==> serving;
      if e.id in current && current[e.id] == e {
        Delete(e.id);
      }
      MarkFailed(e, p);
    }

    method CloseOrphan(e: Entry, rec: P.RecId, failed: bool, ghost p: P.ProcId)
      requires Coupled() && Knows(e) && p in m.procs && m.procs[p] == P.Loaded(e.uid, rec)
      modifies this`closeCalls, this`m, e`loadErr, e`readyCloses
      ensures Coupled() && m == P.SettleRetired(old(m), p, failed)
    {
      assert EntryAt(e.uid);
      closeCalls := closeCalls + [rec];
      e.loadErr := failed;
      e.readyCloses := e.readyCloses + 1;
      m := P.SettleRetired(m, p, failed);
      forall u ensures EntryAt(u) { assert old(EntryAt(u)); }
      forall k ensures KeyAt(k) { assert old(KeyAt(k)); }
    }

    method ServePlaceholder(e: Entry, rec: P.RecId, rss: int, now: int, ghost p: P.ProcId, ghost lid: P.LeaseId) returns (l: Lease)
      requires Coupled() && Knows(e) && e !in draining && p in m.procs && m.procs[p] == P.Loaded(e.uid, rec)
      modifies this`m, e
      ensures Coupled() && m == P.SettleReady(old(m), p, lid, now, rss)
      ensures fresh(l) && !l.released && l.lid == lid && Outstanding(l) && l.rec == rec
    {
      assert EntryAt(e.uid);
      ghost var v := m.entries[e.uid];
      assert e.Is(v);
      l := new Lease(e, rec, lid);
      m := P.SettleReady(m, p, lid, now, rss);
      e.rec, e.rss, e.state, e.refs, e.lastUsed := Some(rec), rss, P.Ready, 1, now;
      e.readyCloses := e.readyCloses + 1;
      assert e.Is(m.entries[e.uid]);
      forall u ensures EntryAt(u) { assert old(EntryAt(u)); }
      forall k ensures KeyAt(k) { assert old(KeyAt(k)); }
    }

    /** The placeholder was retired during its load: close what was built and borrow from the entry a
      * Reload left behind, if there is one. None is the model_unavailable answer. */
    method SettleElsewhere(e: Entry, rec: P.RecId, rss: int, now: int, ghost p: P.ProcId, ghost lid: P.LeaseId) returns (l: Option<Lease>)
      requires Valid() && Knows(e) && p in m.procs && m.procs[p] == P.Loaded(e.uid, rec) && lid !in m.leases
      requires e.id !in current || current[e.id] != e
      modifies this`current, this`closeCalls, this`m, made.Values
      ensures Valid() && Takes(old(m), R.LoadSettled(p, lid, now, rss, []))
      ensures l.Some? ==> l.value.lid == lid && !l.value.released && fresh(l.value) && Outstanding(l.value)
    {
      R.InvFiles(m);
      assert EntryAt(e.uid) && KeyAt(e.id) && !P.Serving(m, e.uid);
      R.StepInv(m, R.LoadSettled(p, lid, now, rss, []));
      if e.id in current {
        var other := current[e.id];
        assert EntryAt(other.uid) && P.EntryOk(m, other.uid);
        if other.state == P.Ready {
          CloseOrphan(e, rec, false, p);
          var lease := GrantTo(other, now, lid);
          return Some(lease);
        }
      }
      CloseOrphan(e, rec, true, p);
      return None;
    }

    /** The placeholder still holds its slot: it serves, and the pool makes room for it. */
    method SettleHere(e: Entry, rec: P.RecId, rss: int, now: int, ghost p: P.ProcId, ghost lid: P.LeaseId)
      returns (l: Lease, ghost evicted: seq<P.EntryId>)
      requires Valid() && Knows(e) && p in m.procs && m.procs[p] == P.Loaded(e.uid, rec) && lid !in m.leases
      requires e.id in current && current[e.id] == e
      modifies this`current, this`closeCalls, this`m, made.Values
      ensures Valid() && Takes(old(m), R.LoadSettled(p, lid, now, rss, evicted))
      ensures l.lid == lid && !l.released && fresh(l) && l.e == e && l.rec == rec
    {
      R.InvFiles(m);
      assert EntryAt(e.uid) && KeyAt(e.id) && P.EntryOk(m, e.uid) && P.Serving(m, e.uid);
      R.SettleInv(m, p, lid, now, rss);
      ghost var start := m;
      l := ServePlaceholder(e, rec, rss, now, p, lid);
      evicted := EvictLocked();
      R.SettleIsEvent(start, p, lid, now, rss, evicted);
    }

    // -------------------------------------------------------------- Release

    /** Release before the entry is possibly closed. */
    ghost function Returned(s: P.State, lid: P.LeaseId, now: int): P.State
      requires lid in s.leases && s.leases[lid].on in s.entries
    {
      var e := s.entries[s.leases[lid].on];
      s.(entries := s.entries[s.leases[lid].on := e.(refs := if e.refs - 1 < 0 then 0 else e.refs - 1, lastUsed := now)],
         leases := map k | k in s.leases && k != lid :: s.leases[k])
    }

    method Unborrow(e: Entry, now: int, ghost lid: P.LeaseId)
      requires Coupled() && Knows(e) && lid in m.leases && m.leases[lid].on == e.uid
      modifies this`m, e`refs, e`lastUsed
      ensures Coupled() && m == Returned(old(m), lid, now)
    {
      assert EntryAt(e.uid);
      ghost var v := m.entries[e.uid];
      assert e.Is(v);
      m := Returned(m, lid, now);
      e.refs := e.refs - 1;
      if e.refs < 0 {
        e.refs := 0;
      }
      e.lastUsed := now;
      assert e.Is(m.entries[e.uid]);
      forall u ensures EntryAt(u) { assert old(EntryAt(u)); }
      forall k ensures KeyAt(k) { assert old(KeyAt(k)); }
    }

    method RemoveDraining(e: Entry)
      requires Coupled() && Knows(e)
      modifies this`draining, this`m
      ensures Coupled() && m == old(m).(draining := old(m).draining - {e.uid})
    {
      var i := 0;
      while i < |draining| && draining[i] != e
        invariant 0 <= i <= |draining|
        invariant e !in draining[..i]
      {
        i := i + 1;
      }
      ghost var before := draining;
      if i < |draining| {
        draining := draining[..i] + draining[i + 1..];
      }
      assert forall x :: x in draining <==> x in before && x != e by { Cut(before, i, e); }
      m := m.(draining := m.draining - {e.uid});
      forall u ensures EntryAt(u) { assert old(EntryAt(u)); }
      forall k ensures KeyAt(k) { assert old(KeyAt(k)); }
    }

    static lemma Cut(s: seq<Entry>, i: nat, e: Entry)
      requires i <= |s| && e !in s[..i] && (i < |s| ==> s[i] == e)
      requires forall j, k :: 0 <= j < k < |s| ==> s[j] != s[k]
      ensures var t := if i < |s| then s[..i] + s[i + 1..] else s;
        (forall x :: x in t <==> x in s && x != e) && (forall j, k :: 0 <= j < k < |t| ==> t[j] != t[k])
    {
      if i < |s| {
        assert s == s[..i] + [e] + s[i + 1..];
      } else {
        assert s[..i] == s;
      }
    }

    /** release, up to its eviction. */
    method GiveBack(e: Entry, now: int, ghost lid: P.LeaseId)
      requires Coupled() && Knows(e) && lid in m.leases && m.leases[lid].on == e.uid
      modifies this`draining, this`closeCalls, this`m, e
      ensures Coupled() && m == P.Release(old(m), lid, now)
    {
      assert EntryAt(e.uid);
      Unborrow(e, now, lid);
      assert EntryAt(e.uid);
      if e.state == P.Draining && e.refs == 0 {
        CloseLocked(e);
        RemoveDraining(e);
      }
    }

    method EvictIfOver() returns (ghost us: seq<P.EntryId>)
      requires Valid()
      modifies this`current, this`closeCalls, this`m, made.Values
      ensures Valid() && R.EvictionRun(old(m), us) && m == R.EvictAll(old(m), us) && m.leases == old(m).leases
    {
      us := [];
      var over := OverLimitLocked();
      if over {
        us := EvictLocked();
        R.EvictAllLeases(old(m), us);
      }
    }

    /** release, all of it. */
    method ReleaseEntry(e: Entry, now: int, ghost lid: P.LeaseId) returns (ghost evicted: seq<P.EntryId>)
      requires Valid() && Knows(e) && lid in m.leases && m.leases[lid].on == e.uid
      modifies this`current, this`draining, this`closeCalls, this`m, made.Values
      ensures Valid() && Takes(old(m), R.Released(lid, now, evicted)) && lid !in m.leases
    {
      R.InvFiles(m);
      P.ReleaseInv(m, lid, now);
      ghost var start := m;
      GiveBack(e, now, lid);
      evicted := EvictIfOver();
      R.ReleaseIsEvent(start, lid, now, evicted);
    }

    /** Lease.Release: the first call returns the lease, later ones do nothing. */
    method Release(l: Lease, now: int) returns (ghost evicted: seq<P.EntryId>)
      requires Valid() && (!l.released ==> Outstanding(l))
      modifies this`current, this`draining, this`closeCalls, this`m, made.Values, l`released
      ensures Valid() && l.released
      ensures old(l.released) ==> m == old(m)
      ensures !old(l.released) ==> Takes(old(m), R.Released(l.lid, now, evicted)) && l.lid !in m.leases
    {
      evicted := [];
      if !l.released {
        evicted := ReleaseEntry(l.e, now, l.lid);
        l.released := true;
      }
    }

    // -------------------------------------------------------------- Reload and Unload

    predicate IsVariantOf(e: Entry, baseID: string) {
      e.baseID == baseID && e.id != baseID
    }

    /** One turn of retireVariantsLocked's loop: the key k, when the walk has come as far as left. */
    method RetireIfVariant(baseID: string, k: string, ghost start: P.State, ghost targets: iset<P.EntryId>, ghost us: seq<P.EntryId>,
                           ghost left: set<string>) returns (ghost us': seq<P.EntryId>)
      requires Valid() && P.Inv(start) && k in left && targets == R.VariantsOf(start, baseID)
      requires R.Walk(start, m, targets, us, left) && m == R.RetireAll(start, us)
      modifies this`current, this`draining, this`closeCalls, this`m, made.Values
      ensures Valid() && R.Walk(start, m, targets, us', left - {k}) && m == R.RetireAll(start, us')
    {
      ghost var before := m;
      assert R.Unvisited(start, m, us, left, k) && KeyAt(k);
      var e := current[k];
      assert EntryAt(e.uid) && P.KeyOk(m, k) && P.EntryOk(m, e.uid) && R.Accounted(start, m, targets, us, left, e.uid);
      if IsVariantOf(e, baseID) {
        P.RetireInv(m, e.uid);
        R.RetireAllAppend(start, us, e.uid);
        RetireLocked(e);
        R.WalkHits(start, before, m, targets, us, left, k, e.uid);
        us' := us + [e.uid];
      } else {
        R.WalkSkips(start, m, targets, us, left, k);
        us' := us;
      }
    }

    /** retireVariantsLocked. */
    method RetireVariantsLocked(baseID: string) returns (ghost us: seq<P.EntryId>)
      requires Valid()
      modifies this`current, this`draining, this`closeCalls, this`m, made.Values
      ensures Valid() && R.Lists(us, R.VariantsOf(old(m), baseID)) && m == R.RetireAll(old(m), us)
    {
      ghost var start, targets := m, R.VariantsOf(m, baseID);
      SameKeys();
      R.WalkBegins(start, m, targets, current.Keys);
      us := WalkVariants(baseID, start, targets);
      R.WalkEnds(start, m, targets, us);
    }

    /** The range over current: entries leave the map while it is walked. */
    method WalkVariants(baseID: string, ghost start: P.State, ghost targets: iset<P.EntryId>) returns (ghost us: seq<P.EntryId>)
      requires Valid() && start == m && targets == R.VariantsOf(start, baseID) && R.Walk(start, m, targets, [], current.Keys)
      modifies this`current, this`draining, this`closeCalls, this`m, made.Values
      ensures Valid() && R.Walk(start, m, targets, us, {}) && m == R.RetireAll(start, us)
    {
      us := [];
      var left := current.Keys;
      while left != {}
        invariant Valid() && R.Walk(start, m, targets, us, left) && m == R.RetireAll(start, us)
        decreases left
      {
        var k :| k in left;
        us := RetireIfVariant(baseID, k, start, targets, us, left);
        left := left - {k};
      }
    }

    /** The base entry of a model, if it is resident, then its variants. */
    method RetireModel(id: string) returns (ghost us: seq<P.EntryId>)
      requires Valid()
      modifies this`current, this`draining, this`closeCalls, this`m, made.Values
      ensures Valid() && (id in old(m).current ==> old(m).current[id] in old(m).entries)
      ensures R.Lists(us, R.VariantsOf(old(m), id)) && m == R.RetireModel(old(m), id, us)
      ensures made == old(made)
    {
      ghost var start := m;
      assert KeyAt(id) && P.KeyOk(m, id);
      if id in current {
        var e := current[id];
        assert EntryAt(e.uid) && P.EntryOk(m, e.uid);
        P.RetireInv(m, e.uid);
        RetireLocked(e);
        R.SameVariants(start, e.uid, id);
      }
      us := RetireVariantsLocked(id);
    }

    /** Unload. False is the model_not_found answer. */
    method Unload(id: string) returns (ok: bool, ghost retired: seq<P.EntryId>)
      requires Valid()
      modifies this`current, this`draining, this`closeCalls, this`m, made.Values
      ensures Valid() && (ok <==> id in old(current))
      ensures if ok then Takes(old(m), R.Unloaded(id, retired)) else m == old(m)
    {
      assert KeyAt(id);
      if id !in current {
        return false, [];
      }
      retired := RetireModel(id);
      ok := true;
    }

    /** Reload's materialise returned without the lock held. */
    ghost method ReloadReturned(p: P.ProcId, id: string, r: P.RecId)
      requires Valid() && p !in m.procs && r !in m.where
      modifies this`m
      ensures Valid() && Takes(old(m), R.ReloadReturned(p, id, r))
    {
      ghost var before := m;
      R.StepInv(m, R.ReloadReturned(p, id, r));
      m := P.HandOver(m, p, P.Swapper(id, r), r);
      SameObjects(before);
    }

    /** Reload resolved another revision: the new recogniser is closed and nothing else happens. */
    method ReloadRefused(rec: P.RecId, ghost p: P.ProcId)
      requires Valid() && p in m.procs && m.procs[p].Swapper? && m.procs[p].rec == rec
      modifies this`closeCalls, this`m
      ensures Valid() && Takes(old(m), R.ReloadRefused(p))
    {
      R.StepInv(m, R.ReloadRefused(p));
      closeCalls := closeCalls + [rec];
      m := P.ThrowAway(m, p);
      forall u ensures EntryAt(u) { assert old(EntryAt(u)); }
      forall k ensures KeyAt(k) { assert old(KeyAt(k)); }
    }

    method InstallFresh(id: string, rec: P.RecId, pinned: bool, rss: int, now: int, ghost p: P.ProcId, ghost uid: P.EntryId)
      requires Coupled() && uid !in made && p in m.procs && m.procs[p] == P.Swapper(id, rec)
      modifies this`current, this`m, this`made
      ensures Coupled() && m == P.InstallFresh(old(m), p, uid, pinned, rss, now)
      ensures uid in made && fresh(made[uid]) && made == old(made)[uid := made[uid]]
    {
      var e := new Entry(uid, id, id, P.Ready, pinned, rss, now, Some(rec), 1);
      assert EntryAt(uid) && e !in draining;
      made := made[uid := e];
      current := current[id := e];
      m := P.InstallFresh(m, p, uid, pinned, rss, now);
      forall u ensures EntryAt(u) { assert old(EntryAt(u)); }
      forall k ensures KeyAt(k) { assert old(KeyAt(k)); }
    }

    /** The swap: the new entry stands where everything of its model stood. */
    method SwapIn(id: string, rec: P.RecId, rss: int, now: int, ghost p: P.ProcId, ghost uid: P.EntryId)
      returns (ghost retired: seq<P.EntryId>)
      requires Valid() && uid !in made && p in m.procs && m.procs[p] == P.Swapper(id, rec)
      modifies this`current, this`draining, this`closeCalls, this`m, this`made, made.Values
      ensures Valid() && uid in made && (forall u :: u in made && u != uid ==> u in old(made) && made[u] == old(made)[u]) && fresh(made[uid])
      ensures (id in old(m).current ==> old(m).current[id] in old(m).entries) && R.Lists(retired, R.VariantsOf(old(m), id))
      ensures m == R.Swap(old(m), p, uid, now, rss, retired) && uid !in old(m).entries
    {
      assert KeyAt(id) && EntryAt(uid) && P.KeyOk(m, id);
      var pinned := false;
      if id in current {
        assert EntryAt(current[id].uid);
        pinned := current[id].pinned;
      }
      ghost var start := m;
      retired := RetireModel(id);
      R.RetireModelInv(start, id, retired);
      R.SwapInv(start, p, uid, now, rss, retired);
      InstallFresh(id, rec, pinned, rss, now, p, uid);
    }

    /** Reload once the new revision is loaded. */
    method Reload(id: string, rec: P.RecId, rss: int, now: int, ghost p: P.ProcId, ghost uid: P.EntryId)
      returns (ghost retired: seq<P.EntryId>, ghost evicted: seq<P.EntryId>)
      requires Valid() && uid !in made && p in m.procs && m.procs[p] == P.Swapper(id, rec)
      modifies this`current, this`draining, this`closeCalls, this`m, this`made, made.Values
      ensures Valid() && Takes(old(m), R.Swapped(p, uid, now, rss, retired, evicted))
    {
      ghost var start := m;
      retired := SwapIn(id, rec, rss, now, p, uid);
      evicted := EvictLocked();
      R.SwapIsEvent(start, p, uid, now, rss, retired, evicted);
    }

    method Pin(id: string, pinned: bool) returns (ok: bool)
      requires Valid()
      modifies this`m, made.Values
      ensures Valid() && (ok <==> id in old(current))
      ensures if ok then Takes(old(m), R.Pinned(id, pinned)) else m == old(m)
    {
      assert KeyAt(id);
      if id !in current {
        return false;
      }
      var e := current[id];
      R.StepInv(m, R.Pinned(id, pinned));
      assert EntryAt(e.uid);
      e.pinned := pinned;
      m := P.SetEntry(m, e.uid, m.entries[e.uid].(pinned := pinned));
      forall u ensures EntryAt(u) { assert old(EntryAt(u)); }
      forall k ensures KeyAt(k) { assert old(KeyAt(k)); }
      return true;
    }

    // -------------------------------------------------------------- Sweep and Close

    ghost function Expired(s: P.State, now: int): iset<P.EntryId> {
      iset u | R.Candidate(s, u) && now - s.entries[u].lastUsed > idleTTL
    }

    /** A sweep begun at start has evicted us, and has the keys left still to look at. */
    ghost predicate Sweeping(start: P.State, now: int, targets: iset<P.EntryId>, us: seq<P.EntryId>, left: set<string>)
      reads this, made.Values
    {
      && Valid() && P.Inv(start) && targets == Expired(start, now)
      && R.Walk(start, m, targets, us, left) && m == R.EvictAll(start, us)
    }

    method SweepOne(now: int, k: string, ghost start: P.State, ghost targets: iset<P.EntryId>, ghost us: seq<P.EntryId>,
                    ghost left: set<string>) returns (gone: bool, ghost us': seq<P.EntryId>)
      requires Sweeping(start, now, targets, us, left) && k in left
      modifies this`current, this`closeCalls, this`m, made.Values
      ensures Sweeping(start, now, targets, us', left - {k})
      ensures |us'| == |us| + (if gone then 1 else 0)
    {
      ghost var before := m;
      assert R.Unvisited(start, m, us, left, k) && KeyAt(k);
      var e := current[k];
      assert EntryAt(e.uid) && P.KeyOk(m, k) && P.EntryOk(m, e.uid) && R.Accounted(start, m, targets, us, left, e.uid);
      assert P.KeyOk(start, k);
      gone := IsIdle(e) && now - e.lastUsed > idleTTL;
      us' := us;
      CandidateIsIdle(e.uid);
      assert R.Candidate(m, e.uid) <==> IsIdle(e);
      assert R.Candidate(start, e.uid) <==> IsIdle(e);
      if gone {
        R.EvictAllAppend(start, us, e.uid);
        EvictEntry(e);
        R.WalkHits(start, before, m, targets, us, left, k, e.uid);
        us' := us + [e.uid];
      } else {
        R.WalkSkips(start, m, targets, us, left, k);
      }
    }

    /** Sweep: the number of models unloaded. */
    method Sweep(now: int) returns (n: nat, ghost us: seq<P.EntryId>)
      requires Valid()
      modifies this`current, this`closeCalls, this`m, made.Values
      ensures Valid() && n == |us|
      ensures if idleTTL > 0 then Takes(old(m), R.Swept(now, idleTTL, us)) else m == old(m)
    {
      if idleTTL <= 0 {
        return 0, [];
      }
      ghost var start, targets := m, Expired(m, now);
      SameKeys();
      R.WalkBegins(start, m, targets, current.Keys);
      n, us := WalkExpired(now, start, targets);
      R.WalkEnds(start, m, targets, us);
    }

    method WalkExpired(now: int, ghost start: P.State, ghost targets: iset<P.EntryId>) returns (n: nat, ghost us: seq<P.EntryId>)
      requires Sweeping(start, now, targets, [], current.Keys)
      modifies this`current, this`closeCalls, this`m, made.Values
      ensures Sweeping(start, now, targets, us, {}) && n == |us|
    {
      n, us := 0, [];
      var left := current.Keys;
      while left != {}
        invariant Sweeping(start, now, targets, us, left) && n == |us|
        decreases left
      {
        var k :| k in left;
        var gone;
        gone, us := SweepOne(now, k, start, targets, us, left);
        n := n + if gone then 1 else 0;
        left := left - {k};
      }
    }

    /** Close takes the lock for the first time: no new Acquire gets past it. The wait that follows gives the
      * lock away, so it is no part of this section. */
    method BeginClose()
      requires Valid()
      modifies this`closed, this`m
      ensures Valid() && Takes(old(m), R.CloseBegan)
    {
      R.StepInv(m, R.CloseBegan);
      closed := true;
      m := m.(closed := true);
      forall u ensures EntryAt(u) { assert old(EntryAt(u)); }
      forall k ensures KeyAt(k) { assert old(KeyAt(k)); }
    }

    ghost function EveryServing(s: P.State): iset<P.EntryId> {
      iset u | u in s.entries && P.Serving(s, u)
    }

    method AbandonLocked(e: Entry)
      requires Coupled() && Knows(e)
      modifies this`current, this`closeCalls, this`m, e
      ensures Coupled() && m == P.Abandon(old(m), e.uid)
      ensures current.Keys == old(current).Keys - {e.id}
    {
      assert EntryAt(e.uid);
      if e.refs == 0 {
        P.CloseThenDelete(m, e.uid);
        CloseLocked(e);
      }
      ghost var before := current;
      Delete(e.id);
      assert current.Keys == before.Keys - {e.id};
    }

    /** Close's second section has abandoned us of what start held, and has the keys left still to drop. */
    ghost predicate Closing(start: P.State, targets: iset<P.EntryId>, us: seq<P.EntryId>, left: set<string>)
      reads this, made.Values
    {
      && Valid() && m.shut && P.Inv(start) && targets == EveryServing(start) && current.Keys == left
      && R.Walk(start, m, targets, us, left) && m == R.AbandonAll(start, us)
    }

    method DropOne(k: string, ghost start: P.State, ghost targets: iset<P.EntryId>, ghost us: seq<P.EntryId>, ghost left: set<string>)
      returns (ghost us': seq<P.EntryId>)
      requires Closing(start, targets, us, left) && k in left
      modifies this`current, this`closeCalls, this`m, made.Values
      ensures Closing(start, targets, us', left - {k})
    {
      ghost var before := m;
      assert R.Unvisited(start, m, us, left, k) && KeyAt(k);
      var e := current[k];
      assert EntryAt(e.uid) && P.KeyOk(m, k) && P.EntryOk(m, e.uid) && R.Accounted(start, m, targets, us, left, e.uid);
      assert P.KeyOk(start, k);
      P.AbandonInv(m, e.uid);
      R.AbandonAllAppend(start, us, e.uid);
      AbandonLocked(e);
      R.WalkHits(start, before, m, targets, us, left, k, e.uid);
      us' := us + [e.uid];
    }

    /** Close, once the wait is over: what nobody holds is closed, and the rest is left to the system. */
    method EndClose() returns (ghost dropped: seq<P.EntryId>)
      requires Valid() && closed
      modifies this`current, this`draining, this`closeCalls, this`m, made.Values
      ensures Valid() && Takes(old(m), R.CloseEnded(dropped)) && current == map[] && draining == []
    {
      dropped := DropCurrent();
      DropDraining();
    }

    method DropCurrent() returns (ghost us: seq<P.EntryId>)
      requires Valid()
      modifies this`current, this`closeCalls, this`m, made.Values
      ensures Valid() && m.shut && current == map[] && R.Lists(us, EveryServing(old(m)))
      ensures m == R.AbandonAll(old(m).(shut := true), us)
    {
      ghost var before := m;
      P.QuietInv(m, m.(shut := true));
      m := m.(shut := true);
      SameObjects(before);
      ghost var start, targets := m, EveryServing(m);
      assert targets == EveryServing(before);
      SameKeys();
      R.WalkBegins(start, m, targets, current.Keys);
      us := WalkCurrent(start, targets);
      R.WalkEnds(start, m, targets, us);
    }

    method WalkCurrent(ghost start: P.State, ghost targets: iset<P.EntryId>) returns (ghost us: seq<P.EntryId>)
      requires Closing(start, targets, [], current.Keys)
      modifies this`current, this`closeCalls, this`m, made.Values
      ensures Closing(start, targets, us, {}) && current == map[]
    {
      us := [];
      var left := current.Keys;
      while left != {}
        invariant Closing(start, targets, us, left)
        decreases left
      {
        var k :| k in left;
        us := DropOne(k, start, targets, us, left);
        left := left - {k};
      }
      assert current.Keys == {};
    }

    /** Close clears draining and then closes what nobody holds. A draining entry is held, always, so the loop
      * only ever finds leased ones. */
    method DropDraining()
      requires Valid() && m.shut
      modifies this`draining, this`m
      ensures Valid() && m == old(m).(draining := {}) && draining == []
    {
      var was := draining;
      forall e | e in was ensures e.refs > 0 {
        assert EntryAt(e.uid) && P.EntryOk(m, e.uid);
      }
      P.QuietInv(m, m.(draining := {}));
      draining := [];
      m := m.(draining := {});
      forall u ensures EntryAt(u) { assert old(EntryAt(u)); }
      forall k ensures KeyAt(k) { assert old(KeyAt(k)); }
      for i := 0 to |was| {
        if was[i].refs == 0 {
          assert false;
        }
      }
    }
  }
}
