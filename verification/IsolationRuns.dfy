/** Every event keeps the invariant, and what that means for whole runs, crashes and restarts included. */
module IsolationRuns {
  import opened Options
  import opened TrackOrder
  import opened IsolationProtocol

  lemma SaveInv(s: State, id: Id, wrote: bool)
    requires Inv(s)
    ensures Inv(Save(s, id, wrote))
  {
    var s' := Save(s, id, wrote);
    assert OwnerOk(s, id);
    forall i ensures OwnerOk(s', i) { assert OwnerOk(s, i); }
    forall p, i ensures PartyOk(s', p, i) { assert PartyOk(s, p, i); }
    forall t ensures TaskOk(s', t) { assert TaskOk(s, t); }
    forall t, i ensures VoiceOk(s', t, i) { assert VoiceOk(s, t, i); }
    forall w ensures WorkOk(s', w) { assert WorkOk(s, w); }
    forall i ensures SavedOk(s', i) { assert SavedOk(s, i); }
  }

  // --- counting -----------------------------------------------------------------

  lemma CountSet(sessions: map<Id, Session>, id: Id, x: Session, keep: bool)
    requires id in sessions ==> sessions[id].keep == x.keep
    ensures id in sessions ==> WithKeep(sessions[id := x], keep) == WithKeep(sessions, keep)
    ensures id !in sessions ==> |WithKeep(sessions[id := x], keep)| == |WithKeep(sessions, keep)| + (if x.keep == keep then 1 else 0)
  {
    if id !in sessions {
      if x.keep == keep { assert WithKeep(sessions[id := x], keep) == WithKeep(sessions, keep) + {id}; }
      else { assert WithKeep(sessions[id := x], keep) == WithKeep(sessions, keep); }
    } else {
      assert WithKeep(sessions[id := x], keep) == WithKeep(sessions, keep);
    }
  }

  lemma CountDrop(sessions: map<Id, Session>, id: Id, keep: bool)
    ensures |WithKeep(sessions - {id}, keep)| <= |WithKeep(sessions, keep)|
  {
    assert WithKeep(sessions - {id}, keep) == WithKeep(sessions, keep) - {id};
  }

  lemma CountToggle(sessions: map<Id, Session>, id: Id, keep: bool)
    requires id in sessions && sessions[id].keep != keep
    ensures var after := sessions[id := sessions[id].(keep := keep)];
      |WithKeep(after, keep)| == |WithKeep(sessions, keep)| + 1 && |WithKeep(after, !keep)| == |WithKeep(sessions, !keep)| - 1
  {
    var after := sessions[id := sessions[id].(keep := keep)];
    assert WithKeep(after, keep) == WithKeep(sessions, keep) + {id};
    assert WithKeep(after, !keep) == WithKeep(sessions, !keep) - {id};
  }

  /** A session that was there stays counted as it was. */
  lemma SameCount(s: State, id: Id, x: Session)
    requires LimitOk(s) && id in s.sessions && s.sessions[id].keep == x.keep
    ensures LimitOk(SetSession(s, id, x))
  {
    CountSet(s.sessions, id, x, true);
    CountSet(s.sessions, id, x, false);
  }

  // --- a person's events ----------------------------------------------------------

  lemma CreateInv(s: State, id: Id, keep: bool)
    requires Inv(s) && !s.loading && id !in s.used && Room(s, keep)
    ensures Inv(AddSession(s, id, keep))
  {
    var s' := AddSession(s, id, keep);
    var x := Session(keep, Queued, [], [], None);
    assert OwnerOk(s, id);
    CountSet(s.sessions, id, x, true);
    CountSet(s.sessions, id, x, false);
    forall i ensures OwnerOk(s', i) { assert OwnerOk(s, i); }
    forall p, i ensures PartyOk(s', p, i) { assert PartyOk(s, p, i) && PartyOk(s, p, id); }
    forall t ensures TaskOk(s', t) { assert TaskOk(s, t); }
    forall t, i ensures VoiceOk(s', t, i) { assert VoiceOk(s, t, i) && TaskOk(s, t); }
    forall w ensures WorkOk(s', w) { assert WorkOk(s, w); }
    forall i ensures SavedOk(s', i) { assert SavedOk(s, i); }
  }

  lemma {:induction false} WithoutTasksOfIs(pending: seq<TaskId>, tasks: map<TaskId, Task>, id: Id, t: TaskId)
    ensures multiset(WithoutTasksOf(pending, tasks, id))[t] ==
            if t in tasks && tasks[t].id == id then 0 else multiset(pending)[t]
  {
    if pending != [] {
      assert pending == [pending[0]] + pending[1..];
      WithoutTasksOfIs(pending[1..], tasks, id, t);
    }
  }

  lemma DropInv(s: State, id: Id, wiped: bool)
    requires Inv(s) && !s.loading
    ensures Inv(Drop(s, id, wiped))
  {
    var s' := Drop(s, id, wiped);
    if id in s.sessions {
      CountDrop(s.sessions, id, true);
      CountDrop(s.sessions, id, false);
      forall t ensures TaskOk(s', t) && (t in s'.pending <==> t in s.pending && !(t in s.tasks && s.tasks[t].id == id)) {
        assert TaskOk(s, t);
        WithoutTasksOfIs(s.pending, s.tasks, id, t);
      }
      forall i ensures OwnerOk(s', i) { assert OwnerOk(s, i); }
      forall p, i ensures PartyOk(s', p, i) { assert PartyOk(s, p, i); }
      forall t, i ensures VoiceOk(s', t, i) { assert VoiceOk(s, t, i); }
      forall w ensures WorkOk(s', w) { assert WorkOk(s, w); }
      forall i ensures SavedOk(s', i) { assert SavedOk(s, i); }
    }
  }

  lemma ForgetCopyInv(s: State, id: Id)
    requires Inv(s) && id !in s.sessions
    ensures Inv(s.(copying := s.copying - {id}))
  {
    var s' := s.(copying := s.copying - {id});
    forall i ensures OwnerOk(s', i) { assert OwnerOk(s, i); }
    forall p, i ensures PartyOk(s', p, i) { assert PartyOk(s, p, i); }
    forall t ensures TaskOk(s', t) { assert TaskOk(s, t); }
    forall t, i ensures VoiceOk(s', t, i) { assert VoiceOk(s, t, i); }
    forall w ensures WorkOk(s', w) { assert WorkOk(s, w); }
    forall i ensures SavedOk(s', i) { assert SavedOk(s, i); }
  }

  lemma QueueCopiedParties(s: State, id: Id, t: TaskId)
    requires Inv(s) && !s.loading && id in s.copying && t !in s.tasks
    ensures forall p, i :: PartyOk(QueueCopied(s, id, t), p, i)
  {
    var s' := QueueCopied(s, id, t);
    assert TaskOk(s, t) && PartyOk(s, Creator(id), id);
    forall p, i ensures PartyOk(s', p, i) {
      assert PartyOk(s, p, i) && (p.AtWork? ==> WorkOk(s, p.w));
      if Owns(s', p, i) && p != Waiting(t) { assert Owns(s, p, i); }
    }
  }

  lemma QueueCopiedInv(s: State, id: Id, t: TaskId)
    requires Inv(s) && !s.loading && id in s.copying && t !in s.tasks
    ensures Inv(QueueCopied(s, id, t))
  {
    var s' := QueueCopied(s, id, t);
    QueueCopiedParties(s, id, t);
    assert TaskOk(s, t) && OwnerOk(s, id) && PartyOk(s, Creator(id), id);
    assert t !in s.pending && t in s'.pending;
    forall i ensures OwnerOk(s', i) { assert OwnerOk(s, i) && (i in s.owner ==> PartyOk(s, s.owner[i], i)); }
    forall u ensures TaskOk(s', u) { assert TaskOk(s, u); }
    forall u, i ensures VoiceOk(s', u, i) { assert VoiceOk(s, u, i); }
    forall w ensures WorkOk(s', w) { assert WorkOk(s, w); }
    forall i ensures SavedOk(s', i) { assert SavedOk(s, i); }
  }

  lemma SetKeepInv(s: State, id: Id, keep: bool, disk: bool)
    requires Inv(s) && !s.loading && id in s.sessions && s.sessions[id].keep != keep && Room(s, keep)
    ensures Inv(SetKeep(s, id, keep, disk))
  {
    var s' := SetKeep(s, id, keep, disk);
    CountToggle(s.sessions, id, keep);
    forall i ensures OwnerOk(s', i) { assert OwnerOk(s, i); }
    forall p, i ensures PartyOk(s', p, i) { assert PartyOk(s, p, i); }
    forall t ensures TaskOk(s', t) { assert TaskOk(s, t); }
    forall t, i ensures VoiceOk(s', t, i) { assert VoiceOk(s, t, i); }
    forall w ensures WorkOk(s', w) { assert WorkOk(s, w); }
    forall i ensures SavedOk(s', i) { assert SavedOk(s, i); }
  }

  // --- work is started --------------------------------------------------------------

  lemma {:induction false} DropTracksKeeps(x: Session, voices: seq<string>)
    requires Ordered(x.voices, x.tracks)
    ensures var y := DropTracks(x, voices);
      && y.voices == x.voices && y.keep == x.keep && y.status == x.status && Ordered(y.voices, y.tracks)
      && (Unfinished(y) <==> Unfinished(x))
      && (forall tr :: tr in y.tracks <==> tr in x.tracks && tr !in voices)
    decreases |voices|
  {
    if voices != [] {
      WithoutOrdered(x.voices, x.tracks, voices[0]);
      DropTracksKeeps(DropTrack(x, voices[0]), voices[1..]);
      assert voices == [voices[0]] + voices[1..];
    }
  }

  lemma {:induction false} MissingAreKnown(voices: seq<Voice>, tracks: seq<string>, i: nat)
    requires i < |Missing(voices, tracks)|
    ensures Known(voices, Missing(voices, tracks)[i]) && Missing(voices, tracks)[i] !in tracks
  {
    var first := if voices[0].speaker !in tracks && voices[0].sample then [voices[0].speaker] else [];
    assert Missing(voices, tracks) == first + Missing(voices[1..], tracks);
    if i >= |first| {
      MissingAreKnown(voices[1..], tracks, i - |first|);
      var j :| 0 <= j < |voices[1..]| && voices[1..][j].speaker == Missing(voices[1..], tracks)[i - |first|];
      assert voices[j + 1].speaker == Missing(voices, tracks)[i];
    }
  }

  /** What the three requests that start work have in common. */
  ghost predicate Startable(s: State, t: TaskId, task: Task, x: Session) {
    && CanStart(s, task.id, t) && !task.kind.Analyse? && (task.kind.Extract? ==> task.voices != [])
    && (x == s.sessions[task.id] || (task.kind.Transcribe? && x == s.sessions[task.id].(transcript := x.transcript)))
    && (forall i :: 0 <= i < |task.voices| ==> Known(x.voices, task.voices[i]))
  }

  lemma RequeueParties(s: State, t: TaskId, task: Task, x: Session)
    requires Inv(s) && !s.loading && Startable(s, t, task, x)
    ensures forall p, i :: PartyOk(Requeue(s, t, task, x), p, i)
  {
    var s' := Requeue(s, t, task, x);
    assert OwnerOk(s, task.id) && TaskOk(s, t);
    forall p, i ensures PartyOk(s', p, i) {
      assert PartyOk(s, p, i) && PartyOk(s, p, task.id) && (p.AtWork? ==> WorkOk(s, p.w));
      if Owns(s', p, i) && p != Waiting(t) { assert Owns(s, p, i); }
    }
  }

  lemma RequeueOwners(s: State, t: TaskId, task: Task, x: Session)
    requires Inv(s) && !s.loading && Startable(s, t, task, x)
    ensures forall i :: OwnerOk(Requeue(s, t, task, x), i)
    ensures LimitOk(Requeue(s, t, task, x))
  {
    var s' := Requeue(s, t, task, x);
    assert OwnerOk(s, task.id) && TaskOk(s, t) && t !in s.pending && t in s'.pending;
    DropTracksKeeps(x, task.voices);
    SameCount(s, task.id, s'.sessions[task.id]);
    forall i ensures OwnerOk(s', i) { assert OwnerOk(s, i) && (i in s.owner ==> PartyOk(s, s.owner[i], i)); }
  }

  lemma RequeueInv(s: State, t: TaskId, task: Task, x: Session)
    requires Inv(s) && !s.loading && Startable(s, t, task, x)
    ensures Inv(Requeue(s, t, task, x))
  {
    var s' := Requeue(s, t, task, x);
    RequeueParties(s, t, task, x);
    RequeueOwners(s, t, task, x);
    assert OwnerOk(s, task.id) && TaskOk(s, t);
    DropTracksKeeps(x, task.voices);
    forall u ensures TaskOk(s', u) { assert TaskOk(s, u); }
    forall u, i ensures VoiceOk(s', u, i) { assert VoiceOk(s, u, i); }
    forall w ensures WorkOk(s', w) { assert WorkOk(s, w); }
    forall i ensures SavedOk(s', i) { assert SavedOk(s, i); }
  }

  // --- the workers --------------------------------------------------------------------

  lemma PopInv(s: State, w: WorkerId)
    requires Inv(s) && !s.loading && w in s.workers && s.workers[w].Idle? && s.pending != []
    ensures Inv(PopTask(s, w))
  {
    var s' := PopTask(s, w);
    var t := s.pending[0];
    assert s.pending == [t] + s.pending[1..] && t in s.pending && TaskOk(s, t);
    assert PartyOk(s, Waiting(t), s.tasks[t].id);
    forall u ensures TaskOk(s', u) && (u in s'.pending <==> u in s.pending && u != t) {
      assert TaskOk(s, u);
      assert multiset(s.pending)[u] == multiset(s'.pending)[u] + if u == t then 1 else 0;
    }
    forall i ensures OwnerOk(s', i) { assert OwnerOk(s, i) && (i in s.owner ==> PartyOk(s, s.owner[i], i)); }
    forall p, i ensures PartyOk(s', p, i) { assert PartyOk(s, p, i); }
    forall u, i ensures VoiceOk(s', u, i) { assert VoiceOk(s, u, i); }
    forall v ensures WorkOk(s', v) { assert WorkOk(s, v); }
    forall i ensures SavedOk(s', i) { assert SavedOk(s, i); }
  }

  /** A worker that goes on owning what it owned, or owned nothing live and stops. */
  lemma MoveWorkerInv(s: State, w: WorkerId, k: Worker)
    requires Inv(s) && !s.loading
    requires w in s.workers ==> s.workers[w].Idle? || s.workers[w].Resting? || Holds(s, w, k) || OfTheDead(s, w)
    requires !k.Idle? ==> w in s.workers && Holds(s, w, k)
    ensures Inv(SetWorker(s, w, k))
  {
    var s' := SetWorker(s, w, k);
    forall i ensures OwnerOk(s', i) { assert OwnerOk(s, i) && (i in s.owner ==> PartyOk(s, s.owner[i], i)); }
    forall p, i ensures PartyOk(s', p, i) { assert PartyOk(s, p, i); }
    forall u ensures TaskOk(s', u) { assert TaskOk(s, u); }
    forall u, i ensures VoiceOk(s', u, i) { assert VoiceOk(s, u, i); }
    forall v ensures WorkOk(s', v) { assert WorkOk(s, v) && WorkOk(s, w); }
    forall i ensures SavedOk(s', i) { assert SavedOk(s, i); }
  }

  ghost predicate OfTheDead(s: State, w: WorkerId) {
    w in s.workers && !s.workers[w].Idle? && s.workers[w].t in s.tasks && s.tasks[s.workers[w].t].id !in s.sessions
  }

  ghost predicate Holds(s: State, w: WorkerId, k: Worker) {
    && w in s.workers && !s.workers[w].Idle? && !s.workers[w].Resting? && !k.Idle? && k.t == s.workers[w].t && k.t in s.tasks
    && (k.Resting? ==> s.tasks[k.t].id !in s.sessions)
    && (k.Working? ==> k.made <= |s.tasks[k.t].voices|)
    && (k.Extracted? ==> s.tasks[k.t].kind.Transcribe?)
  }

  /** The owner of a busy session changes it without letting go. */
  lemma ChangeInv(s: State, id: Id, x: Session)
    requires Inv(s) && id in s.sessions && Busy(s.sessions[id].status) && Busy(x.status)
    requires x.keep == s.sessions[id].keep && x.voices == s.sessions[id].voices && Ordered(x.voices, x.tracks)
    requires x.transcript == s.sessions[id].transcript
    ensures Inv(SetSession(s, id, x))
  {
    var s' := SetSession(s, id, x);
    SameCount(s, id, x);
    forall i ensures OwnerOk(s', i) { assert OwnerOk(s, i); }
    forall p, i ensures PartyOk(s', p, i) { assert PartyOk(s, p, i); }
    forall u ensures TaskOk(s', u) { assert TaskOk(s, u); }
    forall u, i ensures VoiceOk(s', u, i) { assert VoiceOk(s, u, i); }
    forall v ensures WorkOk(s', v) { assert WorkOk(s, v); }
    forall i ensures SavedOk(s', i) { assert SavedOk(s, i); }
  }

  ghost predicate Held(s: State, w: WorkerId, t: TaskId, id: Id) {
    && w in s.workers && (s.workers[w].Working? || s.workers[w].Extracted? || s.workers[w].Erred?)
    && s.workers[w].t == t && t in s.tasks && s.tasks[t].id == id
  }

  /** A worker lets go of its session, which comes to rest with its transcript finished. */
  lemma LetGoInv(s: State, w: WorkerId, t: TaskId, k: Worker, id: Id, x: Session)
    requires Inv(s) && !s.loading && Held(s, w, t, id) && (k.Idle? || k == Resting(t)) && id in s.sessions
    requires !Busy(x.status) && !Unfinished(x) && x.keep == s.sessions[id].keep && Ordered(x.voices, x.tracks)
    requires x.voices == s.sessions[id].voices || s.sessions[id].voices == []
    ensures Inv(SetSession(SetWorker(s, w, k), id, x))
  {
    var s' := SetSession(SetWorker(s, w, k), id, x);
    SameCount(s, id, x);
    assert PartyOk(s, AtWork(w), id);
    forall i ensures OwnerOk(s', i) { assert OwnerOk(s, i) && (i in s.owner ==> PartyOk(s, s.owner[i], i)); }
    forall p, i ensures PartyOk(s', p, i) { assert PartyOk(s, p, i); }
    forall u ensures TaskOk(s', u) { assert TaskOk(s, u); }
    forall u, i ensures VoiceOk(s', u, i) { assert VoiceOk(s, u, i); }
    forall v ensures WorkOk(s', v) { assert WorkOk(s, v); }
    forall i ensures SavedOk(s', i) { assert SavedOk(s, i); }
  }

  lemma SubmitJobsInv(s: State, w: WorkerId, t: TaskId, id: Id, f: FollowerId)
    requires Inv(s) && !s.loading && Held(s, w, t, id) && s.workers[w].Extracted? && f !in s.followers
    ensures Inv(SubmitJobs(s, w, id, f))
  {
    var s' := SubmitJobs(s, w, id, f);
    if id !in s.sessions {
      MoveWorkerInv(s, w, Idle);
    } else {
      SameCount(s, id, s'.sessions[id]);
      SubmitJobsParties(s, w, t, id, f);
      assert PartyOk(s, AtWork(w), id);
      forall i ensures OwnerOk(s', i) { assert OwnerOk(s, i) && (i in s.owner ==> PartyOk(s, s.owner[i], i)); }
      forall u ensures TaskOk(s', u) { assert TaskOk(s, u); }
      forall u, i ensures VoiceOk(s', u, i) { assert VoiceOk(s, u, i); }
      forall v ensures WorkOk(s', v) { assert WorkOk(s, v); }
      forall i ensures SavedOk(s', i) { assert SavedOk(s, i); }
    }
  }

  lemma SubmitJobsParties(s: State, w: WorkerId, t: TaskId, id: Id, f: FollowerId)
    requires Inv(s) && !s.loading && Held(s, w, t, id) && s.workers[w].Extracted? && f !in s.followers && id in s.sessions
    ensures forall p, i :: PartyOk(SubmitJobs(s, w, id, f), p, i)
  {
    assert PartyOk(s, AtWork(w), id) && PartyOk(s, Following(f), id);
    forall p, i ensures PartyOk(SubmitJobs(s, w, id, f), p, i) { assert PartyOk(s, p, i) && PartyOk(s, p, id); }
  }

  lemma EndJobsInv(s: State, f: FollowerId, succeeded: bool)
    requires Inv(s) && !s.loading && f in s.followers
    ensures Inv(EndJobs(s, f, s.followers[f], succeeded))
  {
    var id := s.followers[f];
    var s' := EndJobs(s, f, id, succeeded);
    assert PartyOk(s, Following(f), id);
    if id in s.sessions {
      assert OwnerOk(s, id);
      SameCount(s, id, s'.sessions[id]);
    }
    EndJobsOwners(s, f, succeeded);
    forall u ensures TaskOk(s', u) { assert TaskOk(s, u); }
    forall u, i ensures VoiceOk(s', u, i) { assert VoiceOk(s, u, i); }
    forall v ensures WorkOk(s', v) { assert WorkOk(s, v); }
    forall i ensures SavedOk(s', i) { assert SavedOk(s, i); }
  }

  lemma EndJobsOwners(s: State, f: FollowerId, succeeded: bool)
    requires Inv(s) && !s.loading && f in s.followers
    ensures var s' := EndJobs(s, f, s.followers[f], succeeded); (forall i :: OwnerOk(s', i)) && (forall p, i :: PartyOk(s', p, i))
  {
    var id := s.followers[f];
    var s' := EndJobs(s, f, id, succeeded);
    assert PartyOk(s, Following(f), id);
    EndJobsParties(s, f, succeeded);
    forall i ensures OwnerOk(s', i) { assert OwnerOk(s, i) && (i in s.owner ==> PartyOk(s, s.owner[i], i)); }
  }

  lemma EndJobsParties(s: State, f: FollowerId, succeeded: bool)
    requires Inv(s) && !s.loading && f in s.followers
    ensures forall p, i :: PartyOk(EndJobs(s, f, s.followers[f], succeeded), p, i)
  {
    var id := s.followers[f];
    assert PartyOk(s, Following(f), id);
    forall p, i ensures PartyOk(EndJobs(s, f, id, succeeded), p, i) { assert PartyOk(s, p, i); }
  }

  // --- a crash and the restart after it -----------------------------------------------

  lemma CrashInv(s: State)
    requires Inv(s)
    ensures Inv(LoseMemory(s))
  {
    var s' := LoseMemory(s);
    assert WithKeep(s'.sessions, true) == {} && WithKeep(s'.sessions, false) == {};
    forall t ensures TaskOk(s', t) { assert TaskOk(s, t); }
    forall i ensures SavedOk(s', i) { assert SavedOk(s, i); }
  }

  ghost predicate Reloads(s: State, id: Id, t: TaskId) {
    s.loading && id in s.saved && id !in s.sessions && t !in s.tasks
  }

  lemma ReloadParties(s: State, id: Id, upload: bool, files: set<string>, t: TaskId)
    requires Inv(s) && Reloads(s, id, t)
    ensures forall p, i :: PartyOk(Reload(s, id, upload, files, t), p, i)
  {
    var s' := Reload(s, id, upload, files, t);
    assert TaskOk(s, t) && SavedOk(s, id);
    forall p, i ensures PartyOk(s', p, i) {
      assert PartyOk(s, p, i) && PartyOk(s, p, id) && (p.AtWork? ==> WorkOk(s, p.w));
      if Owns(s', p, i) && p != Waiting(t) { assert Owns(s, p, i); }
    }
  }

  lemma RestoredIsSound(x: Session, upload: bool, files: set<string>)
    requires Ordered(x.voices, x.tracks) && (Unfinished(x) ==> Busy(x.status))
    ensures var y := Restored(x, upload, files);
      && Ordered(y.voices, y.tracks) && !Unfinished(y) && y.keep && y.voices == x.voices
      && (Busy(y.status) <==> Requeues(x, upload))
  {
    KeptOrdered(x.voices, x.tracks, files);
  }

  lemma ReloadInv(s: State, id: Id, upload: bool, files: set<string>, t: TaskId)
    requires Inv(s) && Reloads(s, id, t)
    ensures Inv(Reload(s, id, upload, files, t))
  {
    var s' := Reload(s, id, upload, files, t);
    var y := Restored(s.saved[id], upload, files);
    assert SavedOk(s, id) && TaskOk(s, t);
    RestoredIsSound(s.saved[id], upload, files);
    CountSet(s.sessions, id, y, true);
    CountSet(s.sessions, id, y, false);
    ReloadParties(s, id, upload, files, t);
    forall i ensures OwnerOk(s', i) { assert OwnerOk(s, i) && (i in s.owner ==> PartyOk(s, s.owner[i], i)); }
    forall u ensures TaskOk(s', u) { assert TaskOk(s, u); }
    forall u, i ensures VoiceOk(s', u, i) { assert VoiceOk(s, u, i) && TaskOk(s, u); }
    forall v ensures WorkOk(s', v) { assert WorkOk(s, v); }
    forall i ensures SavedOk(s', i) { assert SavedOk(s, i); }
  }

  lemma BootInv(s: State)
    requires Inv(s) && s.loading
    ensures Inv(s.(loading := false))
  {
    var s' := s.(loading := false);
    forall i ensures OwnerOk(s', i) { assert OwnerOk(s, i); }
    forall p, i ensures PartyOk(s', p, i) { assert PartyOk(s, p, i); }
    forall t ensures TaskOk(s', t) { assert TaskOk(s, t); }
    forall t, i ensures VoiceOk(s', t, i) { assert VoiceOk(s, t, i); }
    forall w ensures WorkOk(s', w) { assert WorkOk(s, w); }
    forall i ensures SavedOk(s', i) { assert SavedOk(s, i); }
  }

  // --- runs -----------------------------------------------------------------------------

  lemma AskInv(s: State, req: Request)
    requires Inv(s) && !s.loading && CanAsk(s, req)
    ensures Inv(Answer(s, req))
  {
    match req
    case Create(id, keep) => CreateInv(s, id, keep);
    case CopyFailed(id, wiped) =>
      DropInv(s, id, wiped);
      ForgetCopyInv(Drop(s, id, wiped), id);
      assert Answer(s, req) == Drop(s, id, wiped).(copying := s.copying - {id});
    case CopyDone(id, t, wrote) =>
      QueueCopiedInv(s, id, t);
      SaveInv(QueueCopied(s, id, t), id, wrote);
    case Keep(id, keep, disk) =>
      SetKeepInv(s, id, keep, disk);
      SaveInv(SetKeep(s, id, keep, disk), id, disk);
    case ExtractOne(id, speaker, _, t, wrote) => StartInv(s, t, Task(id, Extract, [speaker]), s.sessions[id], wrote);
    case ExtractAll(id, t, wrote) => StartMissingInv(s, t, Extract, id, s.sessions[id], wrote);
    case TranscribeAll(id, t, wrote) =>
      StartMissingInv(s, t, Transcribe, id, s.sessions[id].(transcript := Some(Transcript(JobQueued, false))), wrote);
    case Delete(id, wiped) => DropInv(s, id, wiped);
    case Expire(id, wiped) => DropInv(s, id, wiped);
    case SaveAgain(id, wrote) => SaveInv(s, id, wrote);
  }

  lemma StartInv(s: State, t: TaskId, task: Task, x: Session, wrote: bool)
    requires Inv(s) && !s.loading && Startable(s, t, task, x)
    ensures Inv(Start(s, t, task, x, wrote))
  {
    RequeueInv(s, t, task, x);
    SaveInv(Requeue(s, t, task, x), task.id, wrote);
  }

  lemma StartMissingInv(s: State, t: TaskId, kind: Kind, id: Id, x: Session, wrote: bool)
    requires Inv(s) && !s.loading && CanStart(s, id, t) && !kind.Analyse?
    requires kind.Extract? ==> MissingOf(s.sessions[id]) != []
    requires x == s.sessions[id] || (kind.Transcribe? && x == s.sessions[id].(transcript := x.transcript))
    ensures Inv(Start(s, t, Task(id, kind, MissingOf(s.sessions[id])), x, wrote))
  {
    var missing := MissingOf(s.sessions[id]);
    forall i | 0 <= i < |missing| ensures Known(x.voices, missing[i]) { MissingAreKnown(x.voices, x.tracks, i); }
    StartInv(s, t, Task(id, kind, missing), x, wrote);
  }

  lemma WorkInv(s: State, w: WorkerId, step: Step)
    requires Inv(s) && !s.loading && CanWork(s, w, step)
    ensures Inv(Advance(s, w, step))
  {
    if step.Hire? {
      MoveWorkerInv(s, w, Idle);
    } else if step.Pop? {
      PopInv(s, w);
    } else {
      assert WorkOk(s, w) && OwnerOk(s, TaskOf(s, w).id) && PartyOk(s, AtWork(w), TaskOf(s, w).id) && TaskOk(s, s.workers[w].t);
      match step
      case MakeTrack(wrote) => MakeTrackInv(s, w, wrote);
      case LeaveFailed(wrote) => LeaveFailedInv(s, w, wrote);
      case HandToJobs(f, wrote) =>
        SubmitJobsInv(s, w, s.workers[w].t, TaskOf(s, w).id, f);
        SaveInv(SubmitJobs(s, w, TaskOf(s, w).id, f), TaskOf(s, w).id, wrote);
      case LeaveResting(wrote) =>
        MoveWorkerInv(s, w, Idle);
        SaveInv(SetWorker(s, w, Idle), TaskOf(s, w).id, wrote);
      case _ => PlainWorkInv(s, w, step);
    }
  }

  lemma PlainWorkInv(s: State, w: WorkerId, step: Step)
    requires Inv(s) && !s.loading && CanWork(s, w, step)
    requires step.Begin? || step.Stage? || step.FindVoices? || step.EndExtract? || step.Fail?
    ensures Inv(Advance(s, w, step))
  {
    var t, task := s.workers[w].t, TaskOf(s, w);
    assert WorkOk(s, w) && OwnerOk(s, task.id) && PartyOk(s, AtWork(w), task.id) && TaskOk(s, t);
    match step
    case Begin => MoveWorkerInv(s, w, if task.id in s.sessions then Working(t, 0) else Idle);
    case Stage => if task.id in s.sessions { ChangeInv(s, task.id, StageOf(task, s.sessions[task.id])); }
    case FindVoices(voices) =>
      if task.id in s.sessions {
        var x := s.sessions[task.id].(voices := voices, status := AwaitingSelection);
        NoVoicesNoTracks(s.sessions[task.id]);
        LetGoInv(s, w, t, Resting(t), task.id, x);
      } else {
        MoveWorkerInv(s, w, Resting(t));
      }
    case EndExtract =>
      if task.kind.Transcribe? {
        MoveWorkerInv(s, w, Extracted(t));
      } else if task.id in s.sessions {
        LetGoInv(s, w, t, Resting(t), task.id, s.sessions[task.id].(status := Done));
      } else {
        MoveWorkerInv(s, w, Resting(t));
      }
    case Fail => MoveWorkerInv(s, w, Erred(t));
  }

  lemma NoVoicesNoTracks(x: Session)
    requires x.voices == [] && Ordered(x.voices, x.tracks)
    ensures forall voices :: Ordered(voices, x.tracks)
  {
    assert InOrder(x.voices, x.tracks, 0, 0);
    forall voices ensures Ordered(voices, x.tracks) {
      forall i, j ensures InOrder(voices, x.tracks, i, j) {}
    }
  }

  lemma MakeTrackInv(s: State, w: WorkerId, wrote: bool)
    requires Inv(s) && !s.loading && CanWork(s, w, MakeTrack(wrote))
    ensures Inv(Advance(s, w, MakeTrack(wrote)))
  {
    var t, task, made := s.workers[w].t, TaskOf(s, w), s.workers[w].made;
    assert WorkOk(s, w) && OwnerOk(s, task.id) && PartyOk(s, AtWork(w), task.id) && VoiceOk(s, t, made);
    if task.id in s.sessions {
      var x := s.sessions[task.id];
      PutTrackOrdered(x.voices, x.tracks, task.voices[made]);
      var y := x.(tracks := PutTrack(x.voices, x.tracks, task.voices[made]));
      ChangeInv(s, task.id, y);
      MoveWorkerInv(SetSession(s, task.id, y), w, Working(t, made + 1));
    } else {
      MoveWorkerInv(s, w, Resting(t));
    }
    SaveInv(AddTrack(s, w, t, task, made), task.id, wrote);
  }

  lemma LeaveFailedInv(s: State, w: WorkerId, wrote: bool)
    requires Inv(s) && !s.loading && CanWork(s, w, LeaveFailed(wrote))
    ensures Inv(Advance(s, w, LeaveFailed(wrote)))
  {
    var t, task := s.workers[w].t, TaskOf(s, w);
    assert WorkOk(s, w) && OwnerOk(s, task.id) && PartyOk(s, AtWork(w), task.id);
    if task.id in s.sessions {
      LetGoInv(s, w, t, Idle, task.id, MarkFailed(s, w, task).sessions[task.id]);
    } else {
      MoveWorkerInv(s, w, Idle);
    }
    SaveInv(MarkFailed(s, w, task), task.id, wrote);
  }

  lemma StepInv(s: State, ev: Event)
    requires Inv(s) && Enabled(s, ev)
    ensures Inv(Apply(s, ev))
  {
    match ev
    case Ask(req) => AskInv(s, req);
    case Work(w, step) => WorkInv(s, w, step);
    case FollowEnd(f, succeeded, wrote) =>
      EndJobsInv(s, f, succeeded);
      SaveInv(EndJobs(s, f, s.followers[f], succeeded), s.followers[f], wrote);
    case Crash => CrashInv(s);
    case Restore(id, upload, files, t) => ReloadInv(s, id, upload, files, t);
    case Boot => BootInv(s);
  }

  predicate Legal(s: State, evs: seq<Event>)
    decreases |evs|
  {
    evs == [] || (Enabled(s, evs[0]) && Legal(Apply(s, evs[0]), evs[1..]))
  }

  function Run(s: State, evs: seq<Event>): State
    requires Legal(s, evs)
    decreases |evs|
  {
    if evs == [] then s else Run(Apply(s, evs[0]), evs[1..])
  }

  lemma {:induction false} RunAppend(s: State, evs: seq<Event>, ev: Event)
    requires Legal(s, evs) && Enabled(Run(s, evs), ev)
    ensures Legal(s, evs + [ev]) && Run(s, evs + [ev]) == Apply(Run(s, evs), ev)
    decreases |evs|
  {
    if evs == [] {
      assert (evs + [ev])[1..] == [];
    } else {
      assert (evs + [ev])[1..] == evs[1..] + [ev];
      RunAppend(Apply(s, evs[0]), evs[1..], ev);
    }
  }

  lemma InitInv(maxOpen: int, maxKept: int)
    ensures Inv(Init(maxOpen, maxKept))
  {
    assert WithKeep(map[], true) == {} && WithKeep(map[], false) == {};
  }

  lemma {:induction false} RunInv(s: State, evs: seq<Event>)
    requires Inv(s) && Legal(s, evs)
    ensures Inv(Run(s, evs))
    decreases |evs|
  {
    if evs != [] {
      StepInv(s, evs[0]);
      RunInv(Apply(s, evs[0]), evs[1..]);
    }
  }

  /** In every run, crashes and restarts at any step included: a session is busy exactly when somebody owns it, and
   *  then nobody else does. */
  lemma BusyIsOwnedByExactlyOne(maxOpen: int, maxKept: int, evs: seq<Event>, id: Id)
    requires Legal(Init(maxOpen, maxKept), evs) && id in Run(Init(maxOpen, maxKept), evs).sessions
    ensures var s := Run(Init(maxOpen, maxKept), evs);
      && (Busy(s.sessions[id].status) <==> exists p :: Owns(s, p, id))
      && (forall p, q :: Owns(s, p, id) && Owns(s, q, id) ==> p == q)
      && (forall t :: t in s.pending && t in s.tasks && s.tasks[t].id == id ==> multiset(s.pending)[t] == 1)
  {
    InitInv(maxOpen, maxKept);
    RunInv(Init(maxOpen, maxKept), evs);
    var s := Run(Init(maxOpen, maxKept), evs);
    assert OwnerOk(s, id);
    forall p, q | Owns(s, p, id) && Owns(s, q, id) ensures p == q { assert PartyOk(s, p, id) && PartyOk(s, q, id); }
    if p :| Owns(s, p, id) { assert PartyOk(s, p, id); }
    forall t | t in s.pending ensures multiset(s.pending)[t] == 1 { assert TaskOk(s, t); }
  }

  /** An unfinished transcript exists only on a busy session, in memory and in every saved copy, and whoever owns that
   *  session is on its way to finish the transcript. */
  lemma UnfinishedTranscriptIsWorkedOn(maxOpen: int, maxKept: int, evs: seq<Event>, id: Id)
    requires Legal(Init(maxOpen, maxKept), evs)
    ensures var s := Run(Init(maxOpen, maxKept), evs);
      && (id in s.sessions && Unfinished(s.sessions[id]) ==>
            Busy(s.sessions[id].status) && exists p :: Owns(s, p, id) && KindOf(s, p).Transcribe?)
      && (id in s.saved && Unfinished(s.saved[id]) ==> Busy(s.saved[id].status))
  {
    InitInv(maxOpen, maxKept);
    RunInv(Init(maxOpen, maxKept), evs);
    var s := Run(Init(maxOpen, maxKept), evs);
    assert OwnerOk(s, id) && SavedOk(s, id);
  }

  /** What a restart finds of a saved copy: nothing is left half done but an analysis, which is queued again. */
  lemma RestartSettlesEverything(maxOpen: int, maxKept: int, evs: seq<Event>, id: Id, upload: bool, files: set<string>)
    requires Legal(Init(maxOpen, maxKept), evs) && id in Run(Init(maxOpen, maxKept), evs).saved
    ensures var x := Run(Init(maxOpen, maxKept), evs).saved[id];
      var y := Restored(x, upload, files);
      && !Unfinished(y)
      && (Busy(y.status) <==> Busy(x.status) && x.voices == [] && upload)
      && (!Busy(x.status) ==> y.status == x.status && y.transcript == x.transcript)
      && y.voices == x.voices && (forall tr :: tr in y.tracks <==> tr in x.tracks && tr in files)
  {
    InitInv(maxOpen, maxKept);
    RunInv(Init(maxOpen, maxKept), evs);
    assert SavedOk(Run(Init(maxOpen, maxKept), evs), id);
    var x := Run(Init(maxOpen, maxKept), evs).saved[id];
    RestoredIsSound(x, upload, files);
    KeptOrdered(x.voices, x.tracks, files);
  }

  /** Tracks are one a voice and in the order of the voices; the limits hold, but for what a restart brought back. */
  lemma TracksAndLimits(maxOpen: int, maxKept: int, evs: seq<Event>)
    requires Legal(Init(maxOpen, maxKept), evs)
    ensures var s := Run(Init(maxOpen, maxKept), evs);
      && (forall id :: id in s.sessions ==> Ordered(s.sessions[id].voices, s.sessions[id].tracks))
      && |WithKeep(s.sessions, false)| <= s.maxOpen
      && |WithKeep(s.sessions, true)| <= Max(s.maxKept, s.restored)
  {
    InitInv(maxOpen, maxKept);
    RunInv(Init(maxOpen, maxKept), evs);
    var s := Run(Init(maxOpen, maxKept), evs);
    forall id | id in s.sessions ensures Ordered(s.sessions[id].voices, s.sessions[id].tracks) { assert OwnerOk(s, id); }
  }

  /** extract returns before its last section when it is given nothing to isolate, so a plain extraction of no voice
   *  would leave its session busy with nobody to finish it; ExtractAll never starts one. */
  lemma IsolatingNothingWouldStrand(s: State, w: WorkerId, t: TaskId, id: Id)
    requires Inv(s) && !s.loading && Held(s, w, t, id) && s.workers[w].Working? && id in s.sessions
    ensures var s' := EndTracks(s, w, t, Task(id, Extract, []));
      Busy(s'.sessions[id].status) && forall p :: !Owns(s', p, id)
    ensures s.tasks[t].kind.Extract? ==> s.tasks[t].voices != []
  {
    var s' := EndTracks(s, w, t, Task(id, Extract, []));
    assert PartyOk(s, AtWork(w), id) && TaskOk(s, t);
    forall p ensures !Owns(s', p, id) { assert PartyOk(s, p, id); }
  }
}
