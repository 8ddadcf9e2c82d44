/** What a request to the isolation service comes to: which voices its task isolates, and what every step does to the
 *  session it is for. */
module IsolationOutcomes {
  import opened Options
  import opened TrackOrder
  import opened IsolationProtocol
  import opened IsolationRuns

  // --- the tracks a task makes ----------------------------------------------------------

  /** The voice has a track exactly when it had one that the task was not to remake, or is of the first made voices. */
  ghost predicate TrackAt(tracks: seq<string>, was: seq<string>, voices: seq<string>, made: nat, v: string) {
    made <= |voices| && (v in tracks <==> (v in was && v !in voices) || v in voices[..made])
  }

  ghost predicate Made(tracks: seq<string>, was: seq<string>, voices: seq<string>, made: nat) {
    forall v :: TrackAt(tracks, was, voices, made, v)
  }

  /** How many of the voices of its task a worker has made. */
  function DoneBy(k: Worker): nat { if k.Working? then k.made else 0 }

  predicate OnTask(s: State, w: WorkerId, t: TaskId) {
    w in s.workers && (s.workers[w].Popped? || s.workers[w].Working?) && s.workers[w].t == t
  }

  ghost predicate WorkerMade(s: State, t: TaskId, task: Task, was: seq<string>, w: WorkerId) {
    OnTask(s, w, t) && task.id in s.sessions ==> Made(s.sessions[task.id].tracks, was, task.voices, DoneBy(s.workers[w]))
  }

  /** The task, since it was accepted on a session with the tracks was. */
  ghost predicate OnTheWay(s: State, t: TaskId, task: Task, was: seq<string>) {
    && !s.loading && t in s.tasks && s.tasks[t] == task
    && (t in s.pending && task.id in s.sessions ==> Made(s.sessions[task.id].tracks, was, task.voices, 0))
    && (forall w :: WorkerMade(s, t, task, was, w))
  }

  lemma {:induction false} DropTracksAre(x: Session, voices: seq<string>, v: string)
    requires Ordered(x.voices, x.tracks)
    ensures v in DropTracks(x, voices).tracks <==> v in x.tracks && v !in voices
    decreases |voices|
  {
    if voices != [] {
      WithoutOrdered(x.voices, x.tracks, voices[0]);
      DropTracksAre(DropTrack(x, voices[0]), voices[1..], v);
      assert voices == [voices[0]] + voices[1..];
    }
  }

  /** Once accepted, the task is pending, on exactly these voices, and their old tracks are gone. */
  lemma StartedOnTheWay(s: State, t: TaskId, task: Task, x: Session, wrote: bool)
    requires Inv(s) && !s.loading && Startable(s, t, task, x)
    ensures OnTheWay(Start(s, t, task, x, wrote), t, task, x.tracks)
  {
    var s' := Start(s, t, task, x, wrote);
    assert OwnerOk(s, task.id);
    forall v ensures TrackAt(s'.sessions[task.id].tracks, x.tracks, task.voices, 0, v) { DropTracksAre(x, task.voices, v); }
    forall w ensures WorkerMade(s', t, task, x.tracks, w) { assert WorkOk(s, w); }
  }

  /** What a step must leave alone for the task to stay as it was. */
  ghost predicate Undisturbed(s: State, s': State, t: TaskId, id: Id) {
    && s'.loading == s.loading && (t in s.tasks ==> t in s'.tasks && s'.tasks[t] == s.tasks[t])
    && (t in s'.pending ==> t in s.pending)
    && (id in s'.sessions ==> id in s.sessions && s'.sessions[id].tracks == s.sessions[id].tracks)
    && (forall w :: SameProgress(s, s', t, w))
  }

  ghost predicate SameProgress(s: State, s': State, t: TaskId, w: WorkerId) {
    OnTask(s', w, t) ==> OnTask(s, w, t) && DoneBy(s'.workers[w]) == DoneBy(s.workers[w])
  }

  /** Saving to disk disturbs nothing. */
  lemma SaveUndisturbed(s: State, s1: State, t: TaskId, id: Id, saved: Id, wrote: bool)
    requires Undisturbed(s, s1, t, id)
    ensures Undisturbed(s, Save(s1, saved, wrote), t, id)
  {
    forall w ensures SameProgress(s, Save(s1, saved, wrote), t, w) { assert SameProgress(s, s1, t, w); }
  }

  lemma UndisturbedStays(s: State, s': State, t: TaskId, task: Task, was: seq<string>)
    requires OnTheWay(s, t, task, was) && Undisturbed(s, s', t, task.id)
    ensures OnTheWay(s', t, task, was)
  {
    forall w ensures WorkerMade(s', t, task, was, w) { assert WorkerMade(s, t, task, was, w) && SameProgress(s, s', t, w); }
  }

  /** While the task waits or is worked on nobody can start another on its session. */
  lemma BusyWithTheTask(s: State, t: TaskId, w: WorkerId)
    requires Inv(s) && t in s.tasks && (t in s.pending || OnTask(s, w, t)) && s.tasks[t].id in s.sessions
    ensures Busy(s.sessions[s.tasks[t].id].status)
  {
    assert PartyOk(s, Waiting(t), s.tasks[t].id) && PartyOk(s, AtWork(w), s.tasks[t].id);
  }

  /** Somebody's session is started on another task: not this one's, unless this one is over. */
  lemma OtherStart(s: State, t: TaskId, task: Task, was: seq<string>, t': TaskId, other: Task, x: Session, wrote: bool)
    requires Inv(s) && OnTheWay(s, t, task, was) && Startable(s, t', other, x)
    ensures OnTheWay(Start(s, t', other, x, wrote), t, task, was)
  {
    var s' := Start(s, t', other, x, wrote);
    if task.id in s.sessions && t in s.pending { BusyWithTheTask(s, t, 0); }
    forall w ensures WorkerMade(s', t, task, was, w) {
      assert WorkerMade(s, t, task, was, w);
      if task.id in s.sessions && OnTask(s, w, t) { BusyWithTheTask(s, t, w); }
    }
  }

  lemma DroppedPending(pending: seq<TaskId>, tasks: map<TaskId, Task>, id: Id, t: TaskId)
    ensures t in WithoutTasksOf(pending, tasks, id) ==> t in pending
  {
    WithoutTasksOfIs(pending, tasks, id, t);
  }

  lemma AskOnTheWay(s: State, req: Request, t: TaskId, task: Task, was: seq<string>)
    requires Inv(s) && !s.loading && CanAsk(s, req) && OnTheWay(s, t, task, was)
    ensures OnTheWay(Answer(s, req), t, task, was)
  {
    assert TaskOk(s, t);
    match req
    case ExtractOne(id, speaker, _, t', wrote) => OtherStart(s, t, task, was, t', Task(id, Extract, [speaker]), s.sessions[id], wrote);
    case ExtractAll(id, t', wrote) => OtherMissing(s, t, task, was, t', Extract, id, s.sessions[id], wrote);
    case TranscribeAll(id, t', wrote) =>
      OtherMissing(s, t, task, was, t', Transcribe, id, s.sessions[id].(transcript := Some(Transcript(JobQueued, false))), wrote);
    case _ =>
      AskUndisturbed(s, req, t, task.id);
      UndisturbedStays(s, Answer(s, req), t, task, was);
  }

  lemma AskUndisturbed(s: State, req: Request, t: TaskId, id: Id)
    requires Inv(s) && CanAsk(s, req) && !req.ExtractOne? && !req.ExtractAll? && !req.TranscribeAll? && t in s.tasks && id in s.used
    ensures Undisturbed(s, Answer(s, req), t, id)
  {
    match req
    case Create(i, keep) => CreateUndisturbed(s, i, keep, t, id);
    case CopyFailed(i, wiped) => DropUndisturbed(s.(copying := s.copying - {i}), i, wiped, t, id);
    case CopyDone(i, t', wrote) =>
      CopiedUndisturbed(s, i, t', t, id);
      SaveUndisturbed(s, QueueCopied(s, i, t'), t, id, i, wrote);
    case Keep(i, keep, disk) =>
      KeepUndisturbed(s, i, keep, disk, t, id);
      SaveUndisturbed(s, SetKeep(s, i, keep, disk), t, id, i, disk);
    case Delete(i, wiped) => DropUndisturbed(s, i, wiped, t, id);
    case Expire(i, wiped) => DropUndisturbed(s, i, wiped, t, id);
    case SaveAgain(i, wrote) => SaveUndisturbed(s, s, t, id, i, wrote);
  }

  lemma CreateUndisturbed(s: State, i: Id, keep: bool, t: TaskId, id: Id)
    requires i !in s.used && id in s.used
    ensures Undisturbed(s, AddSession(s, i, keep), t, id)
  {
    forall v ensures SameProgress(s, AddSession(s, i, keep), t, v) {}
  }

  lemma CopiedUndisturbed(s: State, i: Id, u: TaskId, t: TaskId, id: Id)
    requires t in s.tasks && u !in s.tasks
    ensures Undisturbed(s, QueueCopied(s, i, u), t, id)
  {
    forall v ensures SameProgress(s, QueueCopied(s, i, u), t, v) {}
  }

  lemma KeepUndisturbed(s: State, i: Id, keep: bool, disk: bool, t: TaskId, id: Id)
    requires i in s.sessions
    ensures Undisturbed(s, SetKeep(s, i, keep, disk), t, id)
  {
    forall v ensures SameProgress(s, SetKeep(s, i, keep, disk), t, v) {}
  }

  lemma DropUndisturbed(s: State, i: Id, wiped: bool, t: TaskId, id: Id)
    ensures Undisturbed(s, Drop(s, i, wiped), t, id)
  {
    DroppedPending(s.pending, s.tasks, i, t);
    forall w ensures SameProgress(s, Drop(s, i, wiped), t, w) {}
  }

  lemma OtherMissing(s: State, t: TaskId, task: Task, was: seq<string>, t': TaskId, kind: Kind, id: Id, x: Session, wrote: bool)
    requires Inv(s) && OnTheWay(s, t, task, was) && CanStart(s, id, t') && !kind.Analyse?
    requires kind.Extract? ==> MissingOf(s.sessions[id]) != []
    requires x == s.sessions[id] || (kind.Transcribe? && x == s.sessions[id].(transcript := x.transcript))
    ensures OnTheWay(Start(s, t', Task(id, kind, MissingOf(s.sessions[id])), x, wrote), t, task, was)
  {
    var missing := MissingOf(s.sessions[id]);
    forall i | 0 <= i < |missing| ensures Known(x.voices, missing[i]) { MissingAreKnown(x.voices, x.tracks, i); }
    OtherStart(s, t, task, was, t', Task(id, kind, missing), x, wrote);
  }

  /** The worker on the task makes its next track. */
  lemma NextTrack(s: State, w: WorkerId, t: TaskId, task: Task, was: seq<string>, wrote: bool)
    requires Inv(s) && OnTheWay(s, t, task, was) && CanWork(s, w, MakeTrack(wrote)) && s.workers[w].t == t && task.id in s.sessions
    ensures WorkerMade(Advance(s, w, MakeTrack(wrote)), t, task, was, w)
  {
    var x, made := s.sessions[task.id], s.workers[w].made;
    assert OwnerOk(s, task.id) && VoiceOk(s, t, made) && WorkerMade(s, t, task, was, w);
    PutTrackOrdered(x.voices, x.tracks, task.voices[made]);
    var tracks := PutTrack(x.voices, x.tracks, task.voices[made]);
    var next := made + 1;
    assert task.voices[..next] == task.voices[..made] + [task.voices[made]];
    forall v ensures TrackAt(tracks, was, task.voices, next, v) { assert TrackAt(x.tracks, was, task.voices, made, v); }
  }

  lemma TrackOnTheWay(s: State, w: WorkerId, wrote: bool, t: TaskId, task: Task, was: seq<string>)
    requires Inv(s) && OnTheWay(s, t, task, was) && CanWork(s, w, MakeTrack(wrote))
    ensures OnTheWay(Advance(s, w, MakeTrack(wrote)), t, task, was)
  {
    var s', mine := Advance(s, w, MakeTrack(wrote)), TaskOf(s, w);
    assert PartyOk(s, AtWork(w), mine.id) && PartyOk(s, Waiting(t), task.id);
    forall v ensures WorkerMade(s', t, task, was, v) {
      assert WorkerMade(s, t, task, was, v) && PartyOk(s, AtWork(v), task.id);
      if v == w && s.workers[w].t == t && task.id in s.sessions { NextTrack(s, w, t, task, was, wrote); }
    }
  }

  lemma WorkOnTheWay(s: State, w: WorkerId, step: Step, t: TaskId, task: Task, was: seq<string>)
    requires Inv(s) && !s.loading && CanWork(s, w, step) && OnTheWay(s, t, task, was)
    ensures OnTheWay(Advance(s, w, step), t, task, was)
  {
    if step.MakeTrack? {
      TrackOnTheWay(s, w, step.wrote, t, task, was);
    } else if step.Pop? {
      PopOnTheWay(s, w, t, task, was);
    } else {
      StepUndisturbed(s, w, step, t, task.id);
      UndisturbedStays(s, Advance(s, w, step), t, task, was);
    }
  }

  lemma StepUndisturbed(s: State, w: WorkerId, step: Step, t: TaskId, id: Id)
    requires CanWork(s, w, step) && !step.MakeTrack? && !step.Pop?
    ensures Undisturbed(s, Advance(s, w, step), t, id)
  {
    if step.Hire? {
      WorkerUndisturbed(s, w, Idle, t, id);
    } else {
      var u, task := s.workers[w].t, TaskOf(s, w);
      match step
      case Begin => WorkerUndisturbed(s, w, if task.id in s.sessions then Working(u, 0) else Idle, t, id);
      case Stage => StageUndisturbed(s, task, t, id);
      case FindVoices(voices) => VoicesUndisturbed(s, w, u, task.id, voices, t, id);
      case EndExtract => EndUndisturbed(s, w, u, task, t, id);
      case Fail => WorkerUndisturbed(s, w, Erred(u), t, id);
      case LeaveResting(wrote) =>
        WorkerUndisturbed(s, w, Idle, t, id);
        SaveUndisturbed(s, SetWorker(s, w, Idle), t, id, task.id, wrote);
      case LeaveFailed(wrote) =>
        FailedUndisturbed(s, w, task, t, id);
        SaveUndisturbed(s, MarkFailed(s, w, task), t, id, task.id, wrote);
      case HandToJobs(f, wrote) =>
        JobsUndisturbed(s, w, task.id, f, t, id);
        SaveUndisturbed(s, SubmitJobs(s, w, task.id, f), t, id, task.id, wrote);
    }
  }

  /** Undisturbed twice is undisturbed. */
  lemma Twice(s: State, s1: State, s2: State, t: TaskId, id: Id)
    requires Undisturbed(s, s1, t, id) && Undisturbed(s1, s2, t, id)
    ensures Undisturbed(s, s2, t, id)
  {
    forall v ensures SameProgress(s, s2, t, v) { assert SameProgress(s, s1, t, v) && SameProgress(s1, s2, t, v); }
  }

  predicate LetsGo(s: State, w: WorkerId, k: Worker) {
    k.Idle? || k.Erred? || k.Resting? || k.Extracted? || (k == Working(k.t, 0) && w in s.workers && s.workers[w] == Popped(k.t))
  }

  lemma WorkerUndisturbed(s: State, w: WorkerId, k: Worker, t: TaskId, id: Id)
    requires LetsGo(s, w, k)
    ensures Undisturbed(s, SetWorker(s, w, k), t, id)
  {
    forall v ensures SameProgress(s, SetWorker(s, w, k), t, v) {}
  }

  lemma SessionUndisturbed(s: State, i: Id, x: Session, t: TaskId, id: Id)
    requires i in s.sessions && x.tracks == s.sessions[i].tracks
    ensures Undisturbed(s, SetSession(s, i, x), t, id)
  {
    forall v ensures SameProgress(s, SetSession(s, i, x), t, v) {}
  }

  /** A worker moves on and its session, if it is still there, is written but for its tracks. */
  lemma BothUndisturbed(s: State, w: WorkerId, k: Worker, i: Id, x: Session, t: TaskId, id: Id)
    requires LetsGo(s, w, k) && i in s.sessions && x.tracks == s.sessions[i].tracks
    ensures Undisturbed(s, SetSession(SetWorker(s, w, k), i, x), t, id)
  {
    WorkerUndisturbed(s, w, k, t, id);
    SessionUndisturbed(SetWorker(s, w, k), i, x, t, id);
    Twice(s, SetWorker(s, w, k), SetSession(SetWorker(s, w, k), i, x), t, id);
  }

  lemma StageUndisturbed(s: State, task: Task, t: TaskId, id: Id)
    ensures Undisturbed(s, SetStage(s, task), t, id)
  {
    if task.id in s.sessions {
      SessionUndisturbed(s, task.id, StageOf(task, s.sessions[task.id]), t, id);
    } else {
      forall v ensures SameProgress(s, s, t, v) {}
    }
  }

  lemma VoicesUndisturbed(s: State, w: WorkerId, u: TaskId, i: Id, voices: seq<Voice>, t: TaskId, id: Id)
    ensures Undisturbed(s, SetVoices(s, w, u, i, voices), t, id)
  {
    WorkerUndisturbed(s, w, Resting(u), t, id);
    if i in s.sessions { BothUndisturbed(s, w, Resting(u), i, s.sessions[i].(voices := voices, status := AwaitingSelection), t, id); }
  }

  lemma EndUndisturbed(s: State, w: WorkerId, u: TaskId, task: Task, t: TaskId, id: Id)
    ensures Undisturbed(s, EndTracks(s, w, u, task), t, id)
  {
    WorkerUndisturbed(s, w, if task.kind.Transcribe? then Extracted(u) else Resting(u), t, id);
    if task.id in s.sessions { BothUndisturbed(s, w, Resting(u), task.id, s.sessions[task.id].(status := Done), t, id); }
  }

  lemma FailedUndisturbed(s: State, w: WorkerId, task: Task, t: TaskId, id: Id)
    ensures Undisturbed(s, MarkFailed(s, w, task), t, id)
  {
    WorkerUndisturbed(s, w, Idle, t, id);
    if task.id in s.sessions {
      var x := s.sessions[task.id];
      BothUndisturbed(s, w, Idle, task.id,
        x.(status := Failed, transcript := if task.kind.Transcribe? then Finish(x.transcript, JobFailed) else x.transcript), t, id);
    }
  }

  lemma JobsUndisturbed(s: State, w: WorkerId, i: Id, f: FollowerId, t: TaskId, id: Id)
    ensures Undisturbed(s, SubmitJobs(s, w, i, f), t, id)
  {
    WorkerUndisturbed(s, w, Idle, t, id);
    if i in s.sessions {
      var s1 := SetSession(SetWorker(s, w, Idle), i, s.sessions[i].(status := Transcribing, transcript := Some(Transcript(JobRunning, false))));
      BothUndisturbed(s, w, Idle, i, s1.sessions[i], t, id);
      forall v ensures SameProgress(s, SubmitJobs(s, w, i, f), t, v) { assert SameProgress(s, s1, t, v); }
    }
  }

  lemma PopOnTheWay(s: State, w: WorkerId, t: TaskId, task: Task, was: seq<string>)
    requires Inv(s) && !s.loading && CanWork(s, w, Pop) && OnTheWay(s, t, task, was)
    ensures OnTheWay(Advance(s, w, Pop), t, task, was)
  {
    var s' := Advance(s, w, Pop);
    forall v ensures WorkerMade(s', t, task, was, v) { assert WorkerMade(s, t, task, was, v); }
  }

  lemma FollowUndisturbed(s: State, f: FollowerId, succeeded: bool, wrote: bool, t: TaskId, id: Id)
    requires f in s.followers
    ensures Undisturbed(s, Save(EndJobs(s, f, s.followers[f], succeeded), s.followers[f], wrote), t, id)
  {
    var s1 := EndJobs(s, f, s.followers[f], succeeded);
    forall v ensures SameProgress(s, s1, t, v) {}
    SaveUndisturbed(s, s1, t, id, s.followers[f], wrote);
  }

  lemma StepOnTheWay(s: State, ev: Event, t: TaskId, task: Task, was: seq<string>)
    requires Inv(s) && Enabled(s, ev) && !ev.Crash? && OnTheWay(s, t, task, was)
    ensures OnTheWay(Apply(s, ev), t, task, was)
  {
    if ev.Ask? {
      AskOnTheWay(s, ev.req, t, task, was);
    } else if ev.Work? {
      WorkOnTheWay(s, ev.w, ev.step, t, task, was);
    } else if ev.FollowEnd? {
      FollowUndisturbed(s, ev.f, ev.succeeded, ev.wrote, t, task.id);
      UndisturbedStays(s, Apply(s, ev), t, task, was);
    }
  }

  lemma {:induction false} RunOnTheWay(s: State, evs: seq<Event>, t: TaskId, task: Task, was: seq<string>)
    requires Inv(s) && Legal(s, evs) && OnTheWay(s, t, task, was) && forall i :: 0 <= i < |evs| ==> !evs[i].Crash?
    ensures OnTheWay(Run(s, evs), t, task, was)
    decreases |evs|
  {
    if evs != [] {
      StepInv(s, evs[0]);
      StepOnTheWay(s, evs[0], t, task, was);
      forall i | 0 <= i < |evs[1..]| ensures !evs[1..][i].Crash? { assert evs[1..][i] == evs[i + 1]; }
      RunOnTheWay(Apply(s, evs[0]), evs[1..], t, task, was);
    }
  }

  /** When its worker is through with it, on a session that is still there, the tracks are those from before and those of
   *  the task's voices. */
  lemma TaskMakesItsTracks(s: State, evs: seq<Event>, t: TaskId, task: Task, was: seq<string>, w: WorkerId, v: string)
    requires Inv(s) && Legal(s, evs) && OnTheWay(s, t, task, was) && forall i :: 0 <= i < |evs| ==> !evs[i].Crash?
    requires var s' := Run(s, evs); CanWork(s', w, EndExtract) && s'.workers[w].t == t && task.id in s'.sessions
    ensures v in Run(s, evs).sessions[task.id].tracks <==> v in was || v in task.voices
  {
    var s' := Run(s, evs);
    RunOnTheWay(s, evs, t, task, was);
    assert WorkerMade(s', t, task, was, w) && TrackAt(s'.sessions[task.id].tracks, was, task.voices, |task.voices|, v);
    assert task.voices[..|task.voices|] == task.voices;
  }

  /** Afterwards, in a run without a crash, a worker is about to end the task t on a session that is still there. */
  ghost predicate Ends(s: State, evs: seq<Event>, t: TaskId, id: Id, w: WorkerId)
    requires Legal(s, evs)
  {
    && (forall i :: 0 <= i < |evs| ==> !evs[i].Crash?)
    && var s' := Run(s, evs); CanWork(s', w, EndExtract) && s'.workers[w].t == t && id in s'.sessions
  }

  /** The voice that was asked for is the one isolated: when the task of an accepted ExtractOne ends, the speaker has a
   *  track, and every other voice has one exactly when it had one before. */
  lemma ExtractMakesThatTrack(s: State, req: Request, evs: seq<Event>, w: WorkerId, v: string)
    requires Inv(s) && !s.loading && req.ExtractOne? && CanAsk(s, req) && Legal(Answer(s, req), evs)
    requires Ends(Answer(s, req), evs, req.t, req.id, w)
    ensures var tracks := Run(Answer(s, req), evs).sessions[req.id].tracks;
      && req.speaker in tracks
      && (v != req.speaker ==> (v in tracks <==> v in s.sessions[req.id].tracks))
  {
    var task, x := Task(req.id, Extract, [req.speaker]), s.sessions[req.id];
    StepInv(s, Ask(req));
    StartedOnTheWay(s, req.t, task, x, req.wrote);
    TaskMakesItsTracks(Answer(s, req), evs, req.t, task, x.tracks, w, v);
    TaskMakesItsTracks(Answer(s, req), evs, req.t, task, x.tracks, w, req.speaker);
  }

  /** Voice i is that speaker's and has a sample. */
  predicate SampledAt(voices: seq<Voice>, i: int, v: string) { 0 <= i < |voices| && voices[i].speaker == v && voices[i].sample }

  lemma {:induction false} MissingAre(voices: seq<Voice>, tracks: seq<string>, v: string)
    ensures v in Missing(voices, tracks) <==> v !in tracks && exists i :: SampledAt(voices, i, v)
  {
    if voices != [] {
      MissingAre(voices[1..], tracks, v);
      if i :| SampledAt(voices[1..], i, v) { assert SampledAt(voices, i + 1, v); }
      if i :| SampledAt(voices, i, v) {
        if i > 0 { assert SampledAt(voices[1..], i - 1, v); }
      }
      assert SampledAt(voices, 0, v) <==> voices[0].speaker == v && voices[0].sample;
    }
  }

  /** ExtractAll and TranscribeSpeakers isolate every voice with a sample, and leave the tracks there are. */
  lemma ExtractAllMakesTheMissing(s: State, req: Request, evs: seq<Event>, w: WorkerId, v: string)
    requires Inv(s) && !s.loading && (req.ExtractAll? || req.TranscribeAll?) && CanAsk(s, req) && Legal(Answer(s, req), evs)
    requires Ends(Answer(s, req), evs, req.t, req.id, w)
    ensures var tracks, x := Run(Answer(s, req), evs).sessions[req.id].tracks, s.sessions[req.id];
      v in tracks <==> v in x.tracks || exists i :: SampledAt(x.voices, i, v)
  {
    var x := s.sessions[req.id];
    var y := if req.ExtractAll? then x else x.(transcript := Some(Transcript(JobQueued, false)));
    var task := Task(req.id, if req.ExtractAll? then Extract else Transcribe, MissingOf(x));
    forall i | 0 <= i < |task.voices| ensures Known(x.voices, task.voices[i]) { MissingAreKnown(x.voices, x.tracks, i); }
    StepInv(s, Ask(req));
    StartedOnTheWay(s, req.t, task, y, req.wrote);
    TaskMakesItsTracks(Answer(s, req), evs, req.t, task, x.tracks, w, v);
    MissingAre(x.voices, x.tracks, v);
  }

  // --- one step -------------------------------------------------------------------------

  /** Everybody's session but this one is as before. */
  ghost predicate OthersStay(s: State, s': State, id: Id) {
    forall i :: i != id ==> SameSession(s, s', i)
  }

  ghost predicate SameSession(s: State, s': State, i: Id) {
    (i in s.sessions <==> i in s'.sessions) && (i in s.sessions ==> s'.sessions[i] == s.sessions[i])
  }

  /** The session is written to disk, if it is kept and the write gets there, as it is now; nobody else's copy changes. */
  ghost predicate Saved(s: State, s': State, id: Id, wrote: bool) {
    && (forall i :: i != id ==> SameCopy(s, s', i))
    && (id in s'.sessions && s'.sessions[id].keep && wrote ==> id in s'.saved && s'.saved[id] == s'.sessions[id])
    && (!(id in s'.sessions && s'.sessions[id].keep && wrote) ==> SameCopy(s, s', id))
  }

  ghost predicate SameCopy(s: State, s': State, i: Id) {
    (i in s.saved <==> i in s'.saved) && (i in s.saved ==> s'.saved[i] == s.saved[i])
  }

  /** Create opens a session with nothing in it yet; its creator is the one who copies. */
  lemma CreateOpens(s: State, id: Id, keep: bool)
    requires CanAsk(s, Create(id, keep))
    ensures var s' := Answer(s, Create(id, keep));
      && id in s'.sessions && s'.sessions[id] == Session(keep, Queued, [], [], None) && s'.copying == s.copying + {id}
      && OthersStay(s, s', id) && s'.pending == s.pending && s'.saved == s.saved
  {
    var s' := Answer(s, Create(id, keep));
    forall i | i != id ensures SameSession(s, s', i) {}
  }

  /** When the copy is done its analysis is the last thing pending. */
  lemma CopyDoneQueuesTheAnalysis(s: State, id: Id, t: TaskId, wrote: bool)
    requires CanAsk(s, CopyDone(id, t, wrote))
    ensures var s' := Answer(s, CopyDone(id, t, wrote));
      && s'.pending == s.pending + [t] && t in s'.tasks && s'.tasks[t] == Task(id, Analyse, []) && id !in s'.copying
      && s'.sessions == s.sessions && Saved(s, s', id, wrote)
  {}

  /** What a session is started on, and what that does to its transcript: a transcript that succeeded is stale as soon as
   *  a track it was made from goes. */
  lemma StartQueuesTheTask(s: State, t: TaskId, task: Task, x: Session, wrote: bool)
    requires Inv(s) && !s.loading && Startable(s, t, task, x)
    ensures var s' := Start(s, t, task, x, wrote); task.id in s'.sessions && var y := s'.sessions[task.id];
      && s'.pending == s.pending + [t] && t in s'.tasks && s'.tasks[t] == task
      && y.status == Queued && y.voices == x.voices && y.keep == x.keep
      && y.transcript == (if x.transcript.Some? && x.transcript.value.status.JobSucceeded? && exists v :: v in task.voices && v in x.tracks
                          then Some(Transcript(JobSucceeded, true)) else x.transcript)
  {
    assert OwnerOk(s, task.id);
    DroppedIsStale(x, task.voices);
  }

  lemma {:induction false} DroppedIsStale(x: Session, voices: seq<string>)
    requires Ordered(x.voices, x.tracks)
    ensures var y := DropTracks(x, voices);
      && y.voices == x.voices && y.keep == x.keep
      && y.transcript == if x.transcript.Some? && x.transcript.value.status.JobSucceeded? && exists v :: v in voices && v in x.tracks
                         then Some(Transcript(JobSucceeded, true)) else x.transcript
    decreases |voices|
  {
    if voices != [] {
      var z := DropTrack(x, voices[0]);
      WithoutOrdered(x.voices, x.tracks, voices[0]);
      DroppedIsStale(z, voices[1..]);
      assert voices == [voices[0]] + voices[1..];
    }
  }

  /** Keeping keeps, and releasing takes the copy off the disk. */
  lemma KeepKeeps(s: State, id: Id, keep: bool, disk: bool)
    requires CanAsk(s, IsolationProtocol.Keep(id, keep, disk))
    ensures var s' := Answer(s, IsolationProtocol.Keep(id, keep, disk));
      && id in s.sessions && id in s'.sessions && s'.sessions[id] == s.sessions[id].(keep := keep) && OthersStay(s, s', id)
      && (keep && disk ==> id in s'.saved && s'.saved[id] == s'.sessions[id]) && (!keep && disk ==> id !in s'.saved)
      && (!disk ==> s'.saved == s.saved) && forall i :: i != id ==> SameCopy(s, s', i)
  {
    var s' := Answer(s, IsolationProtocol.Keep(id, keep, disk));
    forall i | i != id ensures SameSession(s, s', i) && SameCopy(s, s', i) {}
  }

  /** Deleting, or expiring, takes the session and its pending tasks away, in memory and on disk, and nobody else's. */
  lemma DropForgets(s: State, req: Request, id: Id, wiped: bool, t: TaskId)
    requires Inv(s) && !s.loading && (req == Delete(id, wiped) || req == Expire(id, wiped)) && CanAsk(s, req)
    ensures var s' := Answer(s, req);
      && id !in s'.sessions && OthersStay(s, s', id)
      && (t in s'.pending <==> t in s.pending && t in s.tasks && s.tasks[t].id != id)
      && (wiped ==> s'.saved == s.saved - {id}) && (!wiped ==> s'.saved == s.saved)
  {
    var s' := Answer(s, req);
    assert TaskOk(s, t);
    WithoutTasksOfIs(s.pending, s.tasks, id, t);
    assert t in s'.pending <==> multiset(s'.pending)[t] > 0;
    forall i | i != id ensures SameSession(s, s', i) {}
  }

  /** A worker takes the oldest pending task, and begins it if its session is still there. */
  lemma WorkersTakeTheOldest(s: State, w: WorkerId)
    requires Inv(s) && !s.loading && CanWork(s, w, Pop)
    ensures var s' := Advance(s, w, Pop);
      s.pending != [] && [s.pending[0]] + s'.pending == s.pending && s'.workers == s.workers[w := Popped(s.pending[0])] && s'.sessions == s.sessions
  {}

  lemma BeginNeedsTheSession(s: State, w: WorkerId)
    requires CanWork(s, w, Begin)
    ensures var s' := Advance(s, w, Begin);
      s'.workers == s.workers[w := if s.tasks[s.workers[w].t].id in s.sessions then Working(s.workers[w].t, 0) else Idle] && s'.sessions == s.sessions
  {}

  /** The analysis gives its session the voices it found, to choose from. */
  lemma VoicesAreToBeChosen(s: State, w: WorkerId, voices: seq<Voice>)
    requires CanWork(s, w, FindVoices(voices))
    ensures var s', id := Advance(s, w, FindVoices(voices)), s.tasks[s.workers[w].t].id;
      && (id in s'.sessions <==> id in s.sessions) && OthersStay(s, s', id)
      && (id in s.sessions ==> s'.sessions[id] == s.sessions[id].(voices := voices, status := AwaitingSelection))
  {
    var s', id := Advance(s, w, FindVoices(voices)), s.tasks[s.workers[w].t].id;
    forall i | i != id ensures SameSession(s, s', i) {}
  }

  /** A plain extraction ends done; one for a transcription hands on to the jobs with the session as it is. */
  lemma ExtractionEnds(s: State, w: WorkerId)
    requires Inv(s) && !s.loading && CanWork(s, w, EndExtract)
    ensures var s', t, task := Advance(s, w, EndExtract), s.workers[w].t, s.tasks[s.workers[w].t];
      && (task.id in s'.sessions <==> task.id in s.sessions) && OthersStay(s, s', task.id)
      && (task.id in s.sessions && task.kind.Extract? ==> s'.sessions[task.id] == s.sessions[task.id].(status := Done) && s'.workers[w] == Resting(t))
      && (task.kind.Transcribe? ==> s'.sessions == s.sessions && s'.workers[w] == Extracted(t))
  {
    var s', task := Advance(s, w, EndExtract), s.tasks[s.workers[w].t];
    assert TaskOk(s, s.workers[w].t);
    forall i | i != task.id ensures SameSession(s, s', i) {}
  }

  /** After an error the session has failed, and a transcription's transcript with it. */
  lemma ErrorsFailTheSession(s: State, w: WorkerId, wrote: bool)
    requires CanWork(s, w, LeaveFailed(wrote))
    ensures var s', task := Advance(s, w, LeaveFailed(wrote)), s.tasks[s.workers[w].t]; var id := task.id;
      && (id in s'.sessions <==> id in s.sessions) && OthersStay(s, s', id) && Saved(s, s', id, wrote) && s'.workers[w] == Idle
      && (id in s.sessions ==>
            var x, y := s.sessions[id], s'.sessions[id];
            && y == x.(status := Failed, transcript := y.transcript)
            && (task.kind.Transcribe? && x.transcript.Some? ==> y.transcript == Some(Transcript(JobFailed, x.transcript.value.stale)))
            && (!task.kind.Transcribe? || x.transcript.None? ==> y.transcript == x.transcript))
  {
    var s', id := Advance(s, w, LeaveFailed(wrote)), s.tasks[s.workers[w].t].id;
    forall i | i != id ensures SameSession(s, s', i) && SameCopy(s, s', i) {}
  }

  /** With the tracks made the jobs run, and a follower waits for them. */
  lemma JobsTakeOver(s: State, w: WorkerId, f: FollowerId, wrote: bool)
    requires CanWork(s, w, HandToJobs(f, wrote))
    ensures var s', id := Advance(s, w, HandToJobs(f, wrote)), s.tasks[s.workers[w].t].id;
      && (id in s'.sessions <==> id in s.sessions) && OthersStay(s, s', id) && Saved(s, s', id, wrote) && s'.workers[w] == Idle
      && (id in s.sessions ==> f in s'.followers && s'.followers[f] == id)
      && (id in s.sessions ==> s'.sessions[id] == s.sessions[id].(status := Transcribing, transcript := Some(Transcript(JobRunning, false))))
  {
    var s', id := Advance(s, w, HandToJobs(f, wrote)), s.tasks[s.workers[w].t].id;
    forall i | i != id ensures SameSession(s, s', i) && SameCopy(s, s', i) {}
  }

  /** What became of the jobs is what became of the transcript; the session is done either way. */
  lemma JobsDecideTheTranscript(s: State, f: FollowerId, succeeded: bool, wrote: bool)
    requires Enabled(s, FollowEnd(f, succeeded, wrote))
    ensures var s', id := Apply(s, FollowEnd(f, succeeded, wrote)), s.followers[f];
      && f !in s'.followers && (id in s'.sessions <==> id in s.sessions) && OthersStay(s, s', id)
      && (id in s.sessions ==>
            var x, y := s.sessions[id], s'.sessions[id];
            && y == x.(status := Done, transcript := y.transcript) && (x.transcript.None? <==> y.transcript.None?)
            && (x.transcript.Some? ==> y.transcript == Some(Transcript(if succeeded then JobSucceeded else JobFailed, x.transcript.value.stale))))
  {
    var s', id := Apply(s, FollowEnd(f, succeeded, wrote)), s.followers[f];
    forall i | i != id ensures SameSession(s, s', i) {}
  }

  lemma JobsDecisionIsSaved(s: State, f: FollowerId, succeeded: bool, wrote: bool)
    requires Enabled(s, FollowEnd(f, succeeded, wrote))
    ensures Saved(s, Apply(s, FollowEnd(f, succeeded, wrote)), s.followers[f], wrote)
  {
    var s', id := Apply(s, FollowEnd(f, succeeded, wrote)), s.followers[f];
    forall i | i != id ensures SameCopy(s, s', i) {}
  }

  /** The stage a task shows: analysing, or extracting what it is to extract. */
  lemma StageShows(s: State, w: WorkerId)
    requires CanWork(s, w, Stage)
    ensures var s', task := Advance(s, w, Stage), s.tasks[s.workers[w].t];
      && (task.id in s'.sessions <==> task.id in s.sessions) && OthersStay(s, s', task.id) && s'.workers == s.workers
      && (task.id in s.sessions ==> s'.sessions[task.id] == s.sessions[task.id].(status :=
            if task.kind.Analyse? then Analysing else if task.voices != [] then Extracting else s.sessions[task.id].status))
  {
    var s', task := Advance(s, w, Stage), s.tasks[s.workers[w].t];
    forall i | i != task.id ensures SameSession(s, s', i) {}
  }

  // --- what may be asked ------------------------------------------------------------------

  /** Nothing is running, and there are voices to choose from. */
  predicate Choosable(s: State, id: Id) {
    id in s.sessions && (s.sessions[id].status in {AwaitingSelection, Done} || (s.sessions[id].status == Failed && s.sessions[id].voices != []))
  }

  /** Voice i is the first of that speaker. */
  ghost predicate FirstAt(voices: seq<Voice>, i: int, speaker: string) {
    0 <= i < |voices| && voices[i].speaker == speaker && forall j :: 0 <= j < i ==> voices[j].speaker != speaker
  }

  lemma {:induction false} HasSampleIs(voices: seq<Voice>, speaker: string)
    ensures HasSample(voices, speaker) <==> exists i :: FirstAt(voices, i, speaker) && voices[i].sample
    ensures Known(voices, speaker) <==> exists i :: FirstAt(voices, i, speaker)
  {
    if voices != [] {
      if voices[0].speaker == speaker {
        assert FirstAt(voices, 0, speaker);
      } else {
        HasSampleIs(voices[1..], speaker);
        forall i ensures FirstAt(voices[1..], i, speaker) <==> FirstAt(voices, i + 1, speaker) { Shifted(voices, i, speaker); }
        assert forall i :: FirstAt(voices, i, speaker) ==> FirstAt(voices[1..], i - 1, speaker);
      }
    }
  }

  lemma Shifted(voices: seq<Voice>, i: int, speaker: string)
    requires voices != [] && voices[0].speaker != speaker
    ensures FirstAt(voices[1..], i, speaker) <==> FirstAt(voices, i + 1, speaker) && i >= 0
  {
    if FirstAt(voices, i + 1, speaker) && i >= 0 {
      forall j | 0 <= j < i ensures voices[1..][j].speaker != speaker { assert voices[1..][j] == voices[j + 1]; }
    }
    if FirstAt(voices[1..], i, speaker) {
      forall j | 0 <= j < i + 1 ensures voices[j].speaker != speaker { if j > 0 { assert voices[1..][j - 1] == voices[j]; } }
    }
  }

  /** A voice may be chosen exactly while the session is to be chosen from, the voice is one of its own, and its sample is
   *  there or comes from a place the caller gives. */
  lemma ExtractIsAllowedWhen(s: State, id: Id, speaker: string, placed: bool, t: TaskId, wrote: bool)
    requires t !in s.tasks
    ensures CanAsk(s, ExtractOne(id, speaker, placed, t, wrote)) <==>
        Choosable(s, id) && exists i :: FirstAt(s.sessions[id].voices, i, speaker) && (placed || s.sessions[id].voices[i].sample)
  {
    if id in s.sessions { HasSampleIs(s.sessions[id].voices, speaker); }
  }

  /** All are isolated when one is missing; they are transcribed when one is missing or has its track. */
  lemma AllIsAllowedWhen(s: State, id: Id, t: TaskId, wrote: bool)
    requires t !in s.tasks
    ensures CanAsk(s, ExtractAll(id, t, wrote)) <==>
        Choosable(s, id) && exists i :: 0 <= i < |s.sessions[id].voices| && s.sessions[id].voices[i].sample && s.sessions[id].voices[i].speaker !in s.sessions[id].tracks
    ensures CanAsk(s, TranscribeAll(id, t, wrote)) <==>
        Choosable(s, id) && (s.sessions[id].tracks != []
          || exists i :: 0 <= i < |s.sessions[id].voices| && s.sessions[id].voices[i].sample && s.sessions[id].voices[i].speaker !in s.sessions[id].tracks)
  {
    if id in s.sessions {
      var x := s.sessions[id];
      forall i | 0 <= i < |x.voices| && x.voices[i].sample && x.voices[i].speaker !in x.tracks ensures MissingOf(x) != [] {
        assert SampledAt(x.voices, i, x.voices[i].speaker);
        MissingAre(x.voices, x.tracks, x.voices[i].speaker);
      }
      if MissingOf(x) != [] {
        MissingAre(x.voices, x.tracks, MissingOf(x)[0]);
        var i :| SampledAt(x.voices, i, MissingOf(x)[0]);
      }
    }
  }

  /** Sessions of a kind are opened, or taken over, below that kind's limit; one that is kept or at work never expires. */
  lemma RoomIsAllowedWhen(s: State, id: Id, keep: bool)
    ensures CanAsk(s, Create(id, keep)) <==> id !in s.used && |set i | i in s.sessions && s.sessions[i].keep == keep| < if keep then s.maxKept else s.maxOpen
    ensures CanAsk(s, Expire(id, keep)) <==>
        id in s.sessions && !s.sessions[id].keep && s.sessions[id].status !in {Queued, Analysing, Extracting, Transcribing}
  {}

  // --- a restart ----------------------------------------------------------------------------

  /** What a restored session comes to: kept, with the voices it had and the tracks whose files are there; if it was at
   *  work, back to the start with its upload, failed without one, and otherwise done with any track or to be chosen from,
   *  its unfinished transcript failed. */
  lemma RestoredComesToRest(x: Session, upload: bool, files: set<string>)
    requires Ordered(x.voices, x.tracks)
    ensures var y := Restored(x, upload, files);
      && y.keep && y.voices == x.voices && (forall v :: v in y.tracks <==> v in x.tracks && v in files)
      && (x.status in {AwaitingSelection, Done, Failed} ==> y.status == x.status && y.transcript == x.transcript)
      && (x.status in {Queued, Analysing, Extracting, Transcribing} ==>
            && (x.voices == [] && upload ==> y.status == Queued)
            && (x.voices == [] && !upload ==> y.status == Failed)
            && (x.voices != [] && y.tracks != [] ==> y.status == Done)
            && (x.voices != [] && y.tracks == [] ==> y.status == AwaitingSelection)
            && y.transcript == (if x.transcript.Some? && x.transcript.value.status in {JobQueued, JobRunning}
                                then Some(Transcript(JobFailed, x.transcript.value.stale)) else x.transcript))
  {
    KeptOrdered(x.voices, x.tracks, files);
  }

  /** Restoring brings back one session, and its analysis when that is all there was of it; the disk stays as it is. */
  lemma RestoreBringsBack(s: State, id: Id, upload: bool, files: set<string>, t: TaskId)
    requires Enabled(s, Restore(id, upload, files, t))
    ensures var s' := Apply(s, Restore(id, upload, files, t)); var x := s.saved[id];
      var again := x.status in {Queued, Analysing, Extracting, Transcribing} && x.voices == [] && upload;
      && id in s'.sessions && s'.sessions[id] == Restored(x, upload, files) && OthersStay(s, s', id) && s'.saved == s.saved
      && s'.pending == s.pending + (if again then [t] else [])
      && (again ==> t in s'.tasks && s'.tasks[t] == Task(id, Analyse, []))
  {
    var s' := Apply(s, Restore(id, upload, files, t));
    forall i | i != id ensures SameSession(s, s', i) {}
  }

  /** A crash loses everything but the disk. */
  lemma CrashLeavesTheDisk(s: State)
    ensures var s' := Apply(s, Crash);
      s'.saved == s.saved && s'.loading && s'.sessions == map[] && s'.pending == [] && s'.workers == map[] && s'.followers == map[] && s'.copying == {}
  {}
}
