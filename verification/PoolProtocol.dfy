/** The model pool of internal/pool/pool.go as a transition system.
 *
 *  Every event is one critical section of Pool.mu (or one of the two things callers do without
 *  the lock: a load that returns, a Reload that throws its recogniser away). Loads, leases and
 *  recognisers carry identities, so a run is a sequence of events over one value of State.
 */
module PoolProtocol {
  import opened Options

  type EntryId = nat
  type RecId = nat
  type ProcId = nat
  type LeaseId = nat

  datatype EntryState = Loading | Ready | Draining

  /** loader is bookkeeping of the model: the call that will still finish this placeholder. */
  datatype Entry = Entry(
    id: string, baseID: string, state: EntryState, refs: int, pinned: bool, rss: int, lastUsed: int,
    rec: Option<RecId>, readyCloses: nat, loadErr: bool, loader: Option<ProcId>)

  datatype Lease = Lease(on: EntryId, rec: RecId)

  /** A call that is between two critical sections. */
  datatype Proc =
    | Waiting(on: EntryId)                // Acquire blocked on entry.ready
    | Loader(of: EntryId)                 // Acquire inside materialise
    | Loaded(of: EntryId, rec: RecId)     // Acquire back from materialise, lock not yet taken
    | Swapper(id: string, rec: RecId)     // Reload back from materialise

  /** where is bookkeeping of the model: the one party answerable for a recogniser. */
  datatype Place = InHands(p: ProcId) | InEntry(u: EntryId) | Disposed

  datatype Limits = Limits(maxResident: int, maxRss: int)

  datatype State = State(
    limits: Limits, current: map<string, EntryId>, draining: set<EntryId>, entries: map<EntryId, Entry>,
    closed: bool, shut: bool, leases: map<LeaseId, Lease>, procs: map<ProcId, Proc>,
    closings: multiset<RecId>, where: map<RecId, Place>)

  function Init(limits: Limits): (s: State)
    ensures Inv(s)
  {
    State(limits, map[], {}, map[], false, false, map[], map[], multiset{}, map[])
  }

  function VariantKey(id: string, v: string): string {
    if v == "" then id else id + "!" + v
  }

  // ---------------------------------------------------------------- the invariant

  function LeasesOn(leases: map<LeaseId, Lease>, u: EntryId): set<LeaseId> {
    set l | l in leases && leases[l].on == u
  }

  predicate LoadsFor(p: Proc, u: EntryId) {
    (p.Loader? || p.Loaded?) && p.of == u
  }

  predicate Holds(p: Proc, r: RecId) {
    (p.Loaded? || p.Swapper?) && p.rec == r
  }

  predicate Serving(s: State, u: EntryId)
    requires u in s.entries
  {
    s.entries[u].id in s.current && s.current[s.entries[u].id] == u
  }

  /** current files an entry under its own key. */
  ghost predicate KeyOk(s: State, k: string) {
    k in s.current ==> s.current[k] in s.entries && s.entries[s.current[k]].id == k
  }

  ghost predicate EntryOk(s: State, u: EntryId) {
    && (u in s.draining ==> u in s.entries && s.entries[u].state == Draining && s.entries[u].refs > 0 && s.entries[u].rec.Some?)
    && (u in s.entries ==>
          var e := s.entries[u];
          && e.refs == |LeasesOn(s.leases, u)|
          && (e.loader.Some? ==> e.state == Loading && e.loader.value in s.procs && LoadsFor(s.procs[e.loader.value], u))
          && e.readyCloses == (if e.loader.Some? then 0 else 1)
          && (e.state == Loading ==> e.rec.None? && e.refs == 0)
          && (Serving(s, u) ==> (e.state == Loading && e.loader.Some?) || (e.state == Ready && e.rec.Some?))
          && (e.rec.Some? ==> s.shut || Serving(s, u) || u in s.draining)
          && (e.rec.Some? ==> e.rec.value in s.where && s.where[e.rec.value] == InEntry(u)))
  }

  ghost predicate LeaseOk(s: State, l: LeaseId) {
    l in s.leases ==> s.leases[l].on in s.entries && s.entries[s.leases[l].on].rec == Some(s.leases[l].rec)
  }

  ghost predicate ProcOk(s: State, p: ProcId) {
    p in s.procs ==>
      match s.procs[p]
      case Waiting(u) => u in s.entries
      case Loader(u) => u in s.entries && s.entries[u].loader == Some(p)
      case Loaded(u, r) => u in s.entries && s.entries[u].loader == Some(p) && r in s.where && s.where[r] == InHands(p)
      case Swapper(_, r) => r in s.where && s.where[r] == InHands(p)
  }

  ghost predicate RecOk(s: State, r: RecId) {
    if r !in s.where then s.closings[r] == 0
    else match s.where[r]
      case Disposed => s.closings[r] == 1
      case InEntry(u) => s.closings[r] == 0 && u in s.entries && s.entries[u].rec == Some(r)
      case InHands(p) => s.closings[r] == 0 && p in s.procs && Holds(s.procs[p], r)
  }

  ghost predicate Inv(s: State) {
    && (forall k :: KeyOk(s, k))
    && (forall u :: EntryOk(s, u))
    && (forall l :: LeaseOk(s, l))
    && (forall p :: ProcOk(s, p))
    && (forall r :: RecOk(s, r))
  }

  // ---------------------------------------------------------------- single moves

  function SetEntry(s: State, u: EntryId, e: Entry): State {
    s.(entries := s.entries[u := e])
  }

  /** closeLocked: Close the recogniser, once, and forget it. */
  function CloseRec(s: State, u: EntryId): (s': State)
    requires u in s.entries
    ensures s' == s.(entries := s.entries[u := s.entries[u].(rec := None)], closings := s'.closings, where := s'.where)
  {
    var e := s.entries[u];
    match e.rec
    case None => s
    case Some(r) =>
      s.(entries := s.entries[u := e.(rec := None)], closings := s.closings + multiset{r},
         where := s.where[r := Disposed])
  }

  function RemoveKey(m: map<string, EntryId>, k: string): map<string, EntryId> {
    map k' | k' in m && k' != k :: m[k']
  }

  /** retireLocked */
  function Retire(s: State, u: EntryId): (s': State)
    requires u in s.entries
    ensures s'.entries.Keys == s.entries.Keys && s'.current == RemoveKey(s.current, s.entries[u].id)
    ensures s' == s.(current := s'.current, entries := s.entries[u := s.entries[u].(rec := s'.entries[u].rec, state := s'.entries[u].state)],
                     draining := s'.draining, closings := s'.closings, where := s'.where)
  {
    var e := s.entries[u];
    var s' := s.(current := RemoveKey(s.current, e.id));
    if e.refs == 0 then CloseRec(s', u)
    else s'.(entries := s'.entries[u := e.(state := Draining)], draining := s'.draining + {u})
  }

  /** The body of evictLocked's loop, and of Sweep's. */
  function Evict(s: State, u: EntryId): (s': State)
    requires u in s.entries
    ensures s'.entries.Keys == s.entries.Keys && s'.current == RemoveKey(s.current, s.entries[u].id)
    ensures s' == s.(current := s'.current, entries := s.entries[u := s.entries[u].(rec := s'.entries[u].rec, state := s'.entries[u].state)],
                     draining := s'.draining, closings := s'.closings, where := s'.where)
  {
    CloseRec(s.(current := RemoveKey(s.current, s.entries[u].id)), u)
  }

  /** A ready entry serves one more lease. */
  function Grant(s: State, u: EntryId, l: LeaseId, now: int): State
    requires u in s.entries && s.entries[u].rec.Some?
  {
    var e := s.entries[u];
    s.(entries := s.entries[u := e.(refs := e.refs + 1, lastUsed := now)],
       leases := s.leases[l := Lease(u, e.rec.value)])
  }

  lemma NoLease(s: State, u: EntryId, l: LeaseId)
    requires EntryOk(s, u) && u in s.entries && s.entries[u].refs == 0 && l in s.leases
    ensures s.leases[l].on != u
  {
    assert LeasesOn(s.leases, u) == {};
    assert l in LeasesOn(s.leases, s.leases[l].on);
  }

  lemma EvictInv(s: State, u: EntryId)
    requires Inv(s) && u in s.entries && s.entries[u].refs == 0 && Serving(s, u)
    ensures Inv(Evict(s, u))
  {
    var s' := Evict(s, u);
    assert EntryOk(s, u);
    forall k ensures KeyOk(s', k) { assert KeyOk(s, k); }
    forall w ensures EntryOk(s', w) { EvictEntryOk(s, u, w); }
    forall l ensures LeaseOk(s', l) { assert LeaseOk(s, l); if l in s.leases { NoLease(s, u, l); } }
    forall p ensures ProcOk(s', p) { assert ProcOk(s, p); }
    forall r ensures RecOk(s', r) { assert RecOk(s, r); }
  }

  lemma EvictEntryOk(s: State, u: EntryId, w: EntryId)
    requires u in s.entries && s.entries[u].refs == 0 && Serving(s, u) && EntryOk(s, u) && EntryOk(s, w)
    ensures EntryOk(Evict(s, u), w)
  {}

  lemma RetireInv(s: State, u: EntryId)
    requires Inv(s) && u in s.entries && Serving(s, u)
    ensures Inv(Retire(s, u))
  {
    assert EntryOk(s, u);
    if s.entries[u].refs == 0 {
      EvictInv(s, u);
    } else {
      var s' := Retire(s, u);
      forall k ensures KeyOk(s', k) { assert KeyOk(s, k); }
      forall w ensures EntryOk(s', w) { assert EntryOk(s, w); }
      forall l ensures LeaseOk(s', l) { assert LeaseOk(s, l); }
      forall p ensures ProcOk(s', p) { assert ProcOk(s, p); }
      forall r ensures RecOk(s', r) { assert RecOk(s, r); }
    }
  }

  lemma GrantInv(s: State, u: EntryId, l: LeaseId, now: int)
    requires Inv(s) && u in s.entries && s.entries[u].state == Ready && Serving(s, u) && l !in s.leases
    ensures s.entries[u].rec.Some? && Inv(Grant(s, u, l, now))
  {
    assert EntryOk(s, u);
    var s' := Grant(s, u, l, now);
    forall k ensures KeyOk(s', k) { assert KeyOk(s, k); }
    forall w ensures EntryOk(s', w) { assert EntryOk(s, w); AddLease(s.leases, l, s'.leases[l], w); }
    forall m ensures LeaseOk(s', m) { assert LeaseOk(s, m); }
    forall p ensures ProcOk(s', p) { assert ProcOk(s, p); }
    forall r ensures RecOk(s', r) { assert RecOk(s, r); }
  }

  lemma AddLease(m: map<LeaseId, Lease>, l: LeaseId, x: Lease, u: EntryId)
    requires l !in m
    ensures |LeasesOn(m[l := x], u)| == |LeasesOn(m, u)| + (if u == x.on then 1 else 0)
  {
    assert LeasesOn(m[l := x], u) == LeasesOn(m, u) + (if u == x.on then {l} else {});
  }

  /** release, up to its eviction. A lease that is not outstanding releases nothing (sync.Once). */
  function Release(s: State, l: LeaseId, now: int): State
    requires l in s.leases && s.leases[l].on in s.entries
  {
    var u := s.leases[l].on;
    var e := s.entries[u];
    var refs := if e.refs - 1 < 0 then 0 else e.refs - 1;
    var s' := s.(entries := s.entries[u := e.(refs := refs, lastUsed := now)],
                 leases := map m | m in s.leases && m != l :: s.leases[m]);
    if e.state == Draining && refs == 0 then CloseRec(s', u).(draining := s.draining - {u}) else s'
  }

  lemma DropLease(m: map<LeaseId, Lease>, l: LeaseId, u: EntryId)
    requires l in m
    ensures |LeasesOn(map k | k in m && k != l :: m[k], u)| == |LeasesOn(m, u)| - (if u == m[l].on then 1 else 0)
  {
    assert LeasesOn(map k | k in m && k != l :: m[k], u) == LeasesOn(m, u) - {l};
  }

  lemma ReleaseInv(s: State, l: LeaseId, now: int)
    requires Inv(s) && l in s.leases
    ensures s.leases[l].on in s.entries && s.entries[s.leases[l].on].refs > 0
    ensures Inv(Release(s, l, now))
  {
    assert LeaseOk(s, l);
    var u := s.leases[l].on;
    assert EntryOk(s, u);
    assert l in LeasesOn(s.leases, u);
    if s.entries[u].state == Draining && s.entries[u].refs == 1 {
      LastReleaseInv(s, l, now);
    } else {
      var s' := Release(s, l, now);
      forall k ensures KeyOk(s', k) { assert KeyOk(s, k); }
      forall w ensures EntryOk(s', w) { assert EntryOk(s, w); DropLease(s.leases, l, w); }
      forall m ensures LeaseOk(s', m) { assert LeaseOk(s, m); }
      forall p ensures ProcOk(s', p) { assert ProcOk(s, p); }
      forall r ensures RecOk(s', r) { assert RecOk(s, r); }
    }
  }

  lemma LastReleaseInv(s: State, l: LeaseId, now: int)
    requires Inv(s) && l in s.leases && s.leases[l].on in s.entries
    requires s.entries[s.leases[l].on].state == Draining && s.entries[s.leases[l].on].refs == 1
    ensures Inv(Release(s, l, now))
  {
    var u := s.leases[l].on;
    assert EntryOk(s, u) && LeaseOk(s, l) && RecOk(s, s.leases[l].rec);
    assert LeasesOn(s.leases, u) == {l} by { OnlyLease(s, l); }
    var s' := Release(s, l, now);
    forall k ensures KeyOk(s', k) { assert KeyOk(s, k); }
    forall w ensures EntryOk(s', w) { assert EntryOk(s, w); DropLease(s.leases, l, w); }
    forall m ensures LeaseOk(s', m) { assert LeaseOk(s, m); assert m in s.leases && s.leases[m].on == u ==> m in LeasesOn(s.leases, u); }
    forall p ensures ProcOk(s', p) { assert ProcOk(s, p); }
    forall r ensures RecOk(s', r) { assert RecOk(s, r); }
  }

  lemma OnlyLease(s: State, l: LeaseId)
    requires l in s.leases && |LeasesOn(s.leases, s.leases[l].on)| == 1
    ensures LeasesOn(s.leases, s.leases[l].on) == {l}
  {
    var on := LeasesOn(s.leases, s.leases[l].on);
    assert l in on && |on - {l}| == 0;
  }

  function Without(procs: map<ProcId, Proc>, p: ProcId): map<ProcId, Proc> {
    map q | q in procs && q != p :: procs[q]
  }

  /** The slot is claimed with a placeholder before the lock is dropped for the load. */
  function Claim(s: State, p: ProcId, id: string, v: string, u: EntryId, now: int): State {
    var key := VariantKey(id, v);
    s.(entries := s.entries[u := Entry(key, id, Loading, 0, false, 0, now, None, 0, false, Some(p))],
       current := s.current[key := u], procs := s.procs[p := Loader(u)])
  }

  lemma FreshHasNoLease(s: State, u: EntryId)
    requires Inv(s) && u !in s.entries
    ensures LeasesOn(s.leases, u) == {} && u !in s.draining && (forall k :: k in s.current ==> s.current[k] != u)
  {
    assert EntryOk(s, u);
    forall l | l in s.leases ensures s.leases[l].on != u { assert LeaseOk(s, l); }
    forall k | k in s.current ensures s.current[k] != u { assert KeyOk(s, k); }
  }

  lemma ClaimInv(s: State, p: ProcId, id: string, v: string, u: EntryId, now: int)
    requires Inv(s) && u !in s.entries && p !in s.procs && VariantKey(id, v) !in s.current
    ensures Inv(Claim(s, p, id, v, u, now))
  {
    var s' := Claim(s, p, id, v, u, now);
    FreshHasNoLease(s, u);
    forall k ensures KeyOk(s', k) { assert KeyOk(s, k); }
    forall w ensures EntryOk(s', w) { assert EntryOk(s, w); }
    forall l ensures LeaseOk(s', l) { assert LeaseOk(s, l); }
    forall q ensures ProcOk(s', q) { assert ProcOk(s, q); }
    forall r ensures RecOk(s', r) { assert RecOk(s, r); }
  }

  /** materialise returned a recogniser to a call that holds no lock yet. */
  function HandOver(s: State, p: ProcId, q: Proc, r: RecId): State {
    s.(procs := s.procs[p := q], where := s.where[r := InHands(p)])
  }

  lemma HandOverInv(s: State, p: ProcId, q: Proc, r: RecId)
    requires Inv(s) && r !in s.where
    requires (q.Swapper? && p !in s.procs) || (q.Loaded? && p in s.procs && s.procs[p] == Loader(q.of))
    requires q.rec == r
    ensures Inv(HandOver(s, p, q, r))
  {
    var s' := HandOver(s, p, q, r);
    assert RecOk(s, r) && ProcOk(s, p);
    forall k ensures KeyOk(s', k) { assert KeyOk(s, k); }
    forall w ensures EntryOk(s', w) { assert EntryOk(s, w); }
    forall l ensures LeaseOk(s', l) { assert LeaseOk(s, l); }
    forall p' ensures ProcOk(s', p') { assert ProcOk(s, p'); }
    forall r' ensures RecOk(s', r') { assert RecOk(s, r'); }
  }

  /** The load failed: only our own placeholder is removed from current. */
  function SettleFailed(s: State, p: ProcId): State
    requires p in s.procs && s.procs[p].Loader? && s.procs[p].of in s.entries
  {
    var u := s.procs[p].of;
    var e := s.entries[u];
    s.(current := if Serving(s, u) then RemoveKey(s.current, e.id) else s.current,
       entries := s.entries[u := e.(loadErr := true, readyCloses := e.readyCloses + 1, loader := None)],
       procs := Without(s.procs, p))
  }

  lemma SettleFailedInv(s: State, p: ProcId)
    requires Inv(s) && p in s.procs && s.procs[p].Loader?
    ensures s.procs[p].of in s.entries && Inv(SettleFailed(s, p))
  {
    assert ProcOk(s, p);
    var u := s.procs[p].of;
    assert EntryOk(s, u);
    var s' := SettleFailed(s, p);
    forall k ensures KeyOk(s', k) { assert KeyOk(s, k); }
    forall w ensures EntryOk(s', w) { assert EntryOk(s, w); }
    forall l ensures LeaseOk(s', l) { assert LeaseOk(s, l); }
    forall q ensures ProcOk(s', q) { assert ProcOk(s, q); }
    forall r ensures RecOk(s', r) { assert RecOk(s, r); }
  }

  /** The placeholder was retired during the load: the recogniser belongs to no entry. */
  function SettleRetired(s: State, p: ProcId, failed: bool): State
    requires p in s.procs && s.procs[p].Loaded? && s.procs[p].of in s.entries
  {
    var Loaded(u, r) := s.procs[p];
    var e := s.entries[u];
    s.(entries := s.entries[u := e.(loadErr := failed, readyCloses := e.readyCloses + 1, loader := None)],
       procs := Without(s.procs, p), closings := s.closings + multiset{r}, where := s.where[r := Disposed])
  }

  lemma SettleRetiredInv(s: State, p: ProcId, failed: bool)
    requires Inv(s) && p in s.procs && s.procs[p].Loaded?
    ensures s.procs[p].of in s.entries
    ensures !Serving(s, s.procs[p].of) ==> Inv(SettleRetired(s, p, failed))
  {
    assert ProcOk(s, p);
    var u := s.procs[p].of;
    if !Serving(s, u) {
      assert EntryOk(s, u) && RecOk(s, s.procs[p].rec);
      var s' := SettleRetired(s, p, failed);
      forall k ensures KeyOk(s', k) { assert KeyOk(s, k); }
      forall w ensures EntryOk(s', w) { assert EntryOk(s, w); }
      forall l ensures LeaseOk(s', l) { assert LeaseOk(s, l); }
      forall q ensures ProcOk(s', q) { assert ProcOk(s, q); }
      forall r ensures RecOk(s', r) { assert RecOk(s, r); }
    }
  }

  /** The placeholder still holds its slot: it starts serving, with the loader's lease on it. */
  function SettleReady(s: State, p: ProcId, l: LeaseId, now: int, rss: int): State
    requires p in s.procs && s.procs[p].Loaded? && s.procs[p].of in s.entries
  {
    var Loaded(u, r) := s.procs[p];
    var e := s.entries[u];
    s.(entries := s.entries[u := e.(rec := Some(r), rss := rss, state := Ready, refs := 1, lastUsed := now,
                                    readyCloses := e.readyCloses + 1, loader := None)],
       procs := Without(s.procs, p), where := s.where[r := InEntry(u)], leases := s.leases[l := Lease(u, r)])
  }

  lemma SettleReadyInv(s: State, p: ProcId, l: LeaseId, now: int, rss: int)
    requires Inv(s) && p in s.procs && s.procs[p].Loaded? && l !in s.leases
    ensures s.procs[p].of in s.entries
    ensures Serving(s, s.procs[p].of) ==> Inv(SettleReady(s, p, l, now, rss))
  {
    assert ProcOk(s, p);
    var u := s.procs[p].of;
    if Serving(s, u) {
      assert EntryOk(s, u) && RecOk(s, s.procs[p].rec);
      var s' := SettleReady(s, p, l, now, rss);
      forall k ensures KeyOk(s', k) { assert KeyOk(s, k); }
      forall w ensures EntryOk(s', w) { assert EntryOk(s, w); AddLease(s.leases, l, s'.leases[l], w); }
      forall m ensures LeaseOk(s', m) { assert LeaseOk(s, m); if m in s.leases { NoLease(s, u, m); } }
      forall q ensures ProcOk(s', q) { assert ProcOk(s, q); }
      forall r ensures RecOk(s', r) { assert RecOk(s, r); }
    }
  }

  /** Reload resolved another revision than the one asked for. */
  function ThrowAway(s: State, p: ProcId): State
    requires p in s.procs && s.procs[p].Swapper?
  {
    var r := s.procs[p].rec;
    s.(procs := Without(s.procs, p), closings := s.closings + multiset{r}, where := s.where[r := Disposed])
  }

  lemma ThrowAwayInv(s: State, p: ProcId)
    requires Inv(s) && p in s.procs && s.procs[p].Swapper?
    ensures Inv(ThrowAway(s, p))
  {
    var s' := ThrowAway(s, p);
    assert ProcOk(s, p) && RecOk(s, s.procs[p].rec);
    forall k ensures KeyOk(s', k) { assert KeyOk(s, k); }
    forall w ensures EntryOk(s', w) { assert EntryOk(s, w); }
    forall l ensures LeaseOk(s', l) { assert LeaseOk(s, l); }
    forall q ensures ProcOk(s', q) { assert ProcOk(s, q); }
    forall r ensures RecOk(s', r) { assert RecOk(s, r); }
  }

  /** Reload's fresh entry takes the key its predecessor was retired from. */
  function InstallFresh(s: State, p: ProcId, u: EntryId, pinned: bool, rss: int, now: int): State
    requires p in s.procs && s.procs[p].Swapper?
  {
    var Swapper(id, r) := s.procs[p];
    s.(entries := s.entries[u := Entry(id, id, Ready, 0, pinned, rss, now, Some(r), 1, false, None)],
       current := s.current[id := u], procs := Without(s.procs, p), where := s.where[r := InEntry(u)])
  }

  lemma InstallFreshInv(s: State, p: ProcId, u: EntryId, pinned: bool, rss: int, now: int)
    requires Inv(s) && p in s.procs && s.procs[p].Swapper? && u !in s.entries && s.procs[p].id !in s.current
    ensures Inv(InstallFresh(s, p, u, pinned, rss, now))
  {
    var s' := InstallFresh(s, p, u, pinned, rss, now);
    FreshHasNoLease(s, u);
    assert ProcOk(s, p) && RecOk(s, s.procs[p].rec);
    forall k ensures KeyOk(s', k) { assert KeyOk(s, k); }
    forall w ensures EntryOk(s', w) { assert EntryOk(s, w); }
    forall l ensures LeaseOk(s', l) { assert LeaseOk(s, l); }
    forall q ensures ProcOk(s', q) { assert ProcOk(s, q); }
    forall r ensures RecOk(s', r) { assert RecOk(s, r); }
  }

  /** Close, for one entry of current. */
  function Abandon(s: State, u: EntryId): (s': State)
    requires u in s.entries
    ensures s'.entries.Keys == s.entries.Keys && s'.current == RemoveKey(s.current, s.entries[u].id)
    ensures s' == s.(current := s'.current, entries := s.entries[u := s.entries[u].(rec := s'.entries[u].rec, state := s'.entries[u].state)],
                     draining := s'.draining, closings := s'.closings, where := s'.where)
  {
    if s.entries[u].refs == 0 then Evict(s, u) else s.(current := RemoveKey(s.current, s.entries[u].id))
  }

  lemma CloseThenDelete(s: State, u: EntryId)
    requires u in s.entries
    ensures Evict(s, u) == CloseRec(s, u).(current := RemoveKey(s.current, s.entries[u].id))
  {}

  lemma AbandonInv(s: State, u: EntryId)
    requires Inv(s) && s.shut && u in s.entries && Serving(s, u)
    ensures Inv(Abandon(s, u))
  {
    if s.entries[u].refs == 0 {
      EvictInv(s, u);
    } else {
      var s' := Abandon(s, u);
      assert EntryOk(s, u);
      forall k ensures KeyOk(s', k) { assert KeyOk(s, k); }
      forall w ensures EntryOk(s', w) { assert EntryOk(s, w); }
      forall l ensures LeaseOk(s', l) { assert LeaseOk(s, l); }
      forall p ensures ProcOk(s', p) { assert ProcOk(s, p); }
      forall r ensures RecOk(s', r) { assert RecOk(s, r); }
    }
  }

  /** Moves that touch no entry, lease or recogniser: waiting, giving up, and Close's two flags. */
  lemma QuietInv(s: State, s': State)
    requires Inv(s)
    requires s'.current == s.current && s'.entries == s.entries && s'.leases == s.leases
    requires s'.where == s.where && s'.closings == s.closings
    requires s'.draining <= s.draining && (s.shut ==> s'.shut) && (s'.shut || s'.draining == s.draining)
    requires forall p :: p in s.procs && !s.procs[p].Waiting? ==> p in s'.procs && s'.procs[p] == s.procs[p]
    requires forall p :: p in s'.procs ==> (p in s.procs && s'.procs[p] == s.procs[p]) || (s'.procs[p].Waiting? && s'.procs[p].on in s.entries)
    ensures Inv(s')
  {
    forall k ensures KeyOk(s', k) { assert KeyOk(s, k); }
    forall w ensures EntryOk(s', w) { assert EntryOk(s, w); }
    forall l ensures LeaseOk(s', l) { assert LeaseOk(s, l); }
    forall p ensures ProcOk(s', p) { assert ProcOk(s, p); }
    forall r ensures RecOk(s', r) { assert RecOk(s, r); }
  }
}
