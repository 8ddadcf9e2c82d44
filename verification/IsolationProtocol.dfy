/** The voice-isolation service of internal/isolation: sessions, their pending work, workers, job followers, and the
 *  saved copies a restart reads. One event is one stretch under Service.mu, or a step of a party between two.
 *
 *  A boolean called wrote, disk or wiped says whether a write the code does not wait on or check got to the disk.
 *  used, owner and restored are bookkeeping.
 */
module IsolationProtocol {
  import opened Options
  import opened TrackOrder

  type Id = string
  type TaskId = nat
  type WorkerId = nat
  type FollowerId = nat

  datatype Status = Queued | Analysing | AwaitingSelection | Extracting | Transcribing | Done | Failed
  datatype JobStatus = JobQueued | JobRunning | JobSucceeded | JobFailed
  datatype Transcript = Transcript(status: JobStatus, stale: bool)
  datatype Session = Session(keep: bool, status: Status, voices: seq<Voice>, tracks: seq<string>, transcript: Option<Transcript>)

  predicate Busy(st: Status) { st.Queued? || st.Analysing? || st.Extracting? || st.Transcribing? }

  predicate Unfinished(x: Session) {
    x.transcript.Some? && (x.transcript.value.status.JobQueued? || x.transcript.value.status.JobRunning?)
  }

  datatype Kind = Analyse | Extract | Transcribe
  datatype Task = Task(id: Id, kind: Kind, voices: seq<string>)

  /** Resting is a worker that has let go of its session's status and only saves on its way out. */
  datatype Worker = Idle | Popped(t: TaskId) | Working(t: TaskId, made: nat) | Extracted(t: TaskId) | Erred(t: TaskId) | Resting(t: TaskId)

  /** Whoever may be about to finish a session's work. */
  datatype Party = Creator(id: Id) | Waiting(t: TaskId) | AtWork(w: WorkerId) | Following(f: FollowerId)

  datatype State = State(
    maxOpen: int, maxKept: int, loading: bool, sessions: map<Id, Session>, pending: seq<TaskId>, tasks: map<TaskId, Task>,
    copying: set<Id>, workers: map<WorkerId, Worker>, followers: map<FollowerId, Id>, saved: map<Id, Session>,
    used: set<Id>, owner: map<Id, Party>, restored: nat)

  function Init(maxOpen: int, maxKept: int): State {
    State(if maxOpen < 1 then 1 else maxOpen, if maxKept < 1 then 1 else maxKept, true,
          map[], [], map[], {}, map[], map[], map[], {}, map[], 0)
  }

  predicate Owns(s: State, p: Party, id: Id) {
    match p
    case Creator(i) => i == id && i in s.copying
    case Waiting(t) => t in s.pending && t in s.tasks && s.tasks[t].id == id
    case AtWork(w) =>
      && w in s.workers && !s.workers[w].Idle? && !s.workers[w].Resting?
      && s.workers[w].t in s.tasks && s.tasks[s.workers[w].t].id == id
    case Following(f) => f in s.followers && s.followers[f] == id
  }

  function KindOf(s: State, p: Party): Kind {
    match p
    case Creator(_) => Analyse
    case Waiting(t) => if t in s.tasks then s.tasks[t].kind else Analyse
    case AtWork(w) => if w in s.workers && !s.workers[w].Idle? && s.workers[w].t in s.tasks then s.tasks[s.workers[w].t].kind else Analyse
    case Following(_) => Transcribe
  }

  // --- what the locked helpers do ---------------------------------------------

  /** saveLocked */
  function Save(s: State, id: Id, wrote: bool): State {
    if id in s.sessions && s.sessions[id].keep && wrote then s.(saved := s.saved[id := s.sessions[id]]) else s
  }

  function SetSession(s: State, id: Id, x: Session): (s': State)
    ensures s' == s.(sessions := s.sessions[id := x])
  {
    s.(sessions := s.sessions[id := x])
  }

  function WithKeep(sessions: map<Id, Session>, keep: bool): set<Id> {
    set id | id in sessions && sessions[id].keep == keep
  }

  /** roomLocked */
  predicate Room(s: State, keep: bool) {
    |WithKeep(s.sessions, keep)| < if keep then s.maxKept else s.maxOpen
  }

  /** idleLocked */
  predicate Free(x: Session) {
    x.status.AwaitingSelection? || x.status.Done? || (x.status.Failed? && x.voices != [])
  }

  /** The sample of the first voice of that speaker. */
  predicate HasSample(voices: seq<Voice>, speaker: string) {
    voices != [] && if voices[0].speaker == speaker then voices[0].sample else HasSample(voices[1..], speaker)
  }

  /** missingLocked, without its warning. */
  function Missing(voices: seq<Voice>, tracks: seq<string>): seq<string> {
    if voices == [] then []
    else (if voices[0].speaker !in tracks && voices[0].sample then [voices[0].speaker] else []) + Missing(voices[1..], tracks)
  }

  function MissingOf(x: Session): seq<string> { Missing(x.voices, x.tracks) }

  function DropTrack(x: Session, speaker: string): Session {
    if speaker !in x.tracks then x
    else
      x.(tracks := Without(x.tracks, speaker),
         transcript := if x.transcript.Some? && x.transcript.value.status.JobSucceeded? then Some(x.transcript.value.(stale := true))
                       else x.transcript)
  }

  function DropTracks(x: Session, voices: seq<string>): Session
    decreases |voices|
  {
    if voices == [] then x else DropTracks(DropTrack(x, voices[0]), voices[1..])
  }

  /** enqueueLocked */
  function Enqueue(s: State, t: TaskId, task: Task): State {
    s.(pending := s.pending + [t], tasks := s.tasks[t := task], owner := s.owner[task.id := Waiting(t)])
  }

  function Requeue(s: State, t: TaskId, task: Task, x: Session): State {
    Enqueue(SetSession(s, task.id, DropTracks(x, task.voices).(status := Queued)), t, task)
  }

  /** startLocked */
  function Start(s: State, t: TaskId, task: Task, x: Session, wrote: bool): State {
    Save(Requeue(s, t, task, x), task.id, wrote)
  }

  function WithoutTasksOf(pending: seq<TaskId>, tasks: map<TaskId, Task>, id: Id): seq<TaskId> {
    if pending == [] then []
    else
      (if pending[0] in tasks && tasks[pending[0]].id == id then [] else [pending[0]]) + WithoutTasksOf(pending[1..], tasks, id)
  }

  /** dropLocked */
  function Drop(s: State, id: Id, wiped: bool): State {
    if id !in s.sessions then s
    else
      s.(sessions := s.sessions - {id}, pending := WithoutTasksOf(s.pending, s.tasks, id),
         saved := if wiped then s.saved - {id} else s.saved)
  }

  function Finish(tr: Option<Transcript>, status: JobStatus): Option<Transcript> {
    if tr.Some? then Some(tr.value.(status := status)) else tr
  }

  /** restore: what a saved copy becomes. */
  function Restored(x: Session, upload: bool, files: set<string>): Session {
    var y := x.(keep := true, tracks := Kept(x.tracks, files));
    if !Busy(y.status) then y
    else
      y.(status := if y.voices == [] then (if upload then Queued else Failed)
                   else if y.tracks != [] then Done else AwaitingSelection,
         transcript := if Unfinished(y) then Finish(y.transcript, JobFailed) else y.transcript)
  }

  predicate Requeues(x: Session, upload: bool) { Busy(x.status) && x.voices == [] && upload }

  // --- events -----------------------------------------------------------------

  datatype Request =
    | Create(id: Id, keep: bool)
    | CopyFailed(id: Id, wiped: bool)
    | CopyDone(id: Id, t: TaskId, wrote: bool)
    | Keep(id: Id, keep: bool, disk: bool)
    | ExtractOne(id: Id, speaker: string, placed: bool, t: TaskId, wrote: bool)
    | ExtractAll(id: Id, t: TaskId, wrote: bool)
    | TranscribeAll(id: Id, t: TaskId, wrote: bool)
    | Delete(id: Id, wiped: bool)
    | Expire(id: Id, wiped: bool)
    | SaveAgain(id: Id, wrote: bool)

  datatype Step =
    | Hire
    | Pop
    | Begin
    | Stage
    | MakeTrack(wrote: bool)
    | FindVoices(voices: seq<Voice>)
    | EndExtract
    | Fail
    | LeaveResting(wrote: bool)
    | LeaveFailed(wrote: bool)
    | HandToJobs(f: FollowerId, wrote: bool)

  datatype Event =
    | Ask(req: Request)
    | Work(w: WorkerId, step: Step)
    | FollowEnd(f: FollowerId, succeeded: bool, wrote: bool)
    | Crash
    | Restore(id: Id, upload: bool, files: set<string>, t: TaskId)
    | Boot

  function TaskOf(s: State, w: WorkerId): Task
    requires w in s.workers && !s.workers[w].Idle? && s.workers[w].t in s.tasks
  {
    s.tasks[s.workers[w].t]
  }

  predicate CanStart(s: State, id: Id, t: TaskId) {
    id in s.sessions && Free(s.sessions[id]) && t !in s.tasks
  }

  predicate CanAsk(s: State, req: Request) {
    match req
    case Create(id, keep) => id !in s.used && Room(s, keep)
    case CopyFailed(id, _) => id in s.copying
    case CopyDone(id, t, _) => id in s.copying && t !in s.tasks
    case Keep(id, keep, _) => id in s.sessions && s.sessions[id].keep != keep && Room(s, keep)
    case ExtractOne(id, speaker, placed, t, _) =>
      CanStart(s, id, t) && Known(s.sessions[id].voices, speaker) && (placed || HasSample(s.sessions[id].voices, speaker))
    case ExtractAll(id, t, _) => CanStart(s, id, t) && MissingOf(s.sessions[id]) != []
    case TranscribeAll(id, t, _) => CanStart(s, id, t) && !(MissingOf(s.sessions[id]) == [] && s.sessions[id].tracks == [])
    case Delete(id, _) => id in s.sessions
    case Expire(id, _) => id in s.sessions && !s.sessions[id].keep && !Busy(s.sessions[id].status)
    case SaveAgain(id, _) => true
  }

  predicate CanWork(s: State, w: WorkerId, step: Step) {
    if step.Hire? then w !in s.workers
    else if step.Pop? then w in s.workers && s.workers[w].Idle? && s.pending != []
    else
      && w in s.workers && !s.workers[w].Idle? && s.workers[w].t in s.tasks
      && var k, task := s.workers[w], TaskOf(s, w);
      match step
      case Begin => k.Popped?
      case Stage => k.Working?
      case MakeTrack(_) => k.Working? && !task.kind.Analyse? && k.made < |task.voices|
      case FindVoices(_) => k.Working? && task.kind.Analyse?
      case EndExtract => k.Working? && !task.kind.Analyse? && k.made == |task.voices|
      case Fail => k.Working?
      case LeaveResting(_) => k.Resting?
      case LeaveFailed(_) => k.Erred?
      case HandToJobs(f, _) => k.Extracted? && f !in s.followers
      case _ => false
  }

  predicate Enabled(s: State, ev: Event) {
    match ev
    case Ask(req) => !s.loading && CanAsk(s, req)
    case Work(w, step) => !s.loading && CanWork(s, w, step)
    case FollowEnd(f, _, _) => !s.loading && f in s.followers
    case Crash => true
    case Restore(id, _, _, t) => s.loading && id in s.saved && id !in s.sessions && t !in s.tasks
    case Boot => s.loading
  }

  function SetWorker(s: State, w: WorkerId, k: Worker): (s': State)
    ensures s' == s.(workers := s.workers[w := k])
  {
    s.(workers := s.workers[w := k])
  }

  function AddSession(s: State, id: Id, keep: bool): State {
    SetSession(s, id, Session(keep, Queued, [], [], None))
      .(copying := s.copying + {id}, used := s.used + {id}, owner := s.owner[id := Creator(id)])
  }

  function QueueCopied(s: State, id: Id, t: TaskId): State {
    Enqueue(s.(copying := s.copying - {id}), t, Task(id, Analyse, []))
  }

  function SetKeep(s: State, id: Id, keep: bool, disk: bool): State
    requires id in s.sessions
  {
    var s1 := SetSession(s, id, s.sessions[id].(keep := keep));
    if keep || !disk then s1 else s1.(saved := s1.saved - {id})
  }

  function PopTask(s: State, w: WorkerId): State
    requires s.pending != []
  {
    var t := s.pending[0];
    var s1 := SetWorker(s, w, Popped(t)).(pending := s.pending[1..]);
    if t in s.tasks then s1.(owner := s.owner[s.tasks[t].id := AtWork(w)]) else s1
  }

  /** What the task's stage calls make of the status. */
  function StageOf(task: Task, x: Session): Session {
    if task.kind.Analyse? then x.(status := Analysing)
    else if task.voices != [] then x.(status := Extracting) else x
  }

  function SetStage(s: State, task: Task): State {
    if task.id in s.sessions then SetSession(s, task.id, StageOf(task, s.sessions[task.id])) else s
  }

  function AddTrack(s: State, w: WorkerId, t: TaskId, task: Task, made: nat): State
    requires made < |task.voices|
  {
    if task.id !in s.sessions then SetWorker(s, w, Resting(t))
    else
      var x := s.sessions[task.id];
      SetWorker(SetSession(s, task.id, x.(tracks := PutTrack(x.voices, x.tracks, task.voices[made]))), w, Working(t, made + 1))
  }

  function SetVoices(s: State, w: WorkerId, t: TaskId, id: Id, voices: seq<Voice>): State {
    var s1 := SetWorker(s, w, Resting(t));
    if id in s.sessions then SetSession(s1, id, s.sessions[id].(voices := voices, status := AwaitingSelection)) else s1
  }

  /** extract's last section; called to isolate nothing, extract returns before it. */
  function EndTracks(s: State, w: WorkerId, t: TaskId, task: Task): State {
    if task.kind.Transcribe? then SetWorker(s, w, Extracted(t))
    else
      var s1 := SetWorker(s, w, Resting(t));
      if task.voices != [] && task.id in s.sessions then SetSession(s1, task.id, s.sessions[task.id].(status := Done)) else s1
  }

  /** run's epilogue after an error. */
  function MarkFailed(s: State, w: WorkerId, task: Task): State {
    var s1 := SetWorker(s, w, Idle);
    if task.id !in s.sessions then s1
    else
      var x := s.sessions[task.id];
      SetSession(s1, task.id, x.(status := Failed, transcript :=
        if task.kind.Transcribe? then Finish(x.transcript, JobFailed) else x.transcript))
  }

  /** run's epilogue of a transcription: transcribeLocked. */
  function SubmitJobs(s: State, w: WorkerId, id: Id, f: FollowerId): State {
    var s1 := SetWorker(s, w, Idle);
    if id !in s.sessions then s1
    else
      SetSession(s1, id, s.sessions[id].(status := Transcribing, transcript := Some(Transcript(JobRunning, false))))
        .(followers := s.followers[f := id], owner := s.owner[id := Following(f)])
  }

  function EndJobs(s: State, f: FollowerId, id: Id, succeeded: bool): State {
    var s1 := s.(followers := s.followers - {f});
    if id !in s.sessions then s1
    else
      var x := s.sessions[id];
      SetSession(s1, id, x.(status := Done, transcript := Finish(x.transcript, if succeeded then JobSucceeded else JobFailed)))
  }

  function LoseMemory(s: State): State {
    s.(loading := true, sessions := map[], pending := [], tasks := map[], copying := {}, workers := map[], followers := map[],
       owner := map[], restored := 0)
  }

  function Reload(s: State, id: Id, upload: bool, files: set<string>, t: TaskId): State
    requires id in s.saved
  {
    var s1 := SetSession(s, id, Restored(s.saved[id], upload, files)).(restored := s.restored + 1, owner := s.owner[id := Creator(id)]);
    if Requeues(s.saved[id], upload) then Enqueue(s1, t, Task(id, Analyse, [])) else s1
  }

  function Answer(s: State, req: Request): State
    requires CanAsk(s, req)
  {
    match req
    case Create(id, keep) => AddSession(s, id, keep)
    case CopyFailed(id, wiped) => Drop(s.(copying := s.copying - {id}), id, wiped)
    case CopyDone(id, t, wrote) => Save(QueueCopied(s, id, t), id, wrote)
    case Keep(id, keep, disk) => Save(SetKeep(s, id, keep, disk), id, disk)
    case ExtractOne(id, speaker, _, t, wrote) => Start(s, t, Task(id, Extract, [speaker]), s.sessions[id], wrote)
    case ExtractAll(id, t, wrote) => Start(s, t, Task(id, Extract, MissingOf(s.sessions[id])), s.sessions[id], wrote)
    case TranscribeAll(id, t, wrote) =>
      Start(s, t, Task(id, Transcribe, MissingOf(s.sessions[id])),
            s.sessions[id].(transcript := Some(Transcript(JobQueued, false))), wrote)
    case Delete(id, wiped) => Drop(s, id, wiped)
    case Expire(id, wiped) => Drop(s, id, wiped)
    case SaveAgain(id, wrote) => Save(s, id, wrote)
  }

  function Advance(s: State, w: WorkerId, step: Step): State
    requires CanWork(s, w, step)
  {
    if step.Hire? then SetWorker(s, w, Idle)
    else if step.Pop? then PopTask(s, w)
    else
      var t, task := s.workers[w].t, TaskOf(s, w);
      match step
      case Begin => SetWorker(s, w, if task.id in s.sessions then Working(t, 0) else Idle)
      case Stage => SetStage(s, task)
      case MakeTrack(wrote) => Save(AddTrack(s, w, t, task, s.workers[w].made), task.id, wrote)
      case FindVoices(voices) => SetVoices(s, w, t, task.id, voices)
      case EndExtract => EndTracks(s, w, t, task)
      case Fail => SetWorker(s, w, Erred(t))
      case LeaveResting(wrote) => Save(SetWorker(s, w, Idle), task.id, wrote)
      case LeaveFailed(wrote) => Save(MarkFailed(s, w, task), task.id, wrote)
      case HandToJobs(f, wrote) => Save(SubmitJobs(s, w, task.id, f), task.id, wrote)
  }

  function Apply(s: State, ev: Event): State
    requires Enabled(s, ev)
  {
    match ev
    case Ask(req) => Answer(s, req)
    case Work(w, step) => Advance(s, w, step)
    case FollowEnd(f, succeeded, wrote) => Save(EndJobs(s, f, s.followers[f], succeeded), s.followers[f], wrote)
    case Crash => LoseMemory(s)
    case Restore(id, upload, files, t) => Reload(s, id, upload, files, t)
    case Boot => s.(loading := false)
  }

  // --- the invariant ----------------------------------------------------------

  /** A busy session is owned; an unfinished transcript hangs on work that will finish it; nothing is found before the analysis. */
  ghost predicate OwnerOk(s: State, id: Id) {
    id in s.sessions ==>
      var x := s.sessions[id];
      && id in s.used && id in s.owner
      && (Busy(x.status) ==> Owns(s, s.owner[id], id))
      && (Unfinished(x) ==> Busy(x.status) && KindOf(s, s.owner[id]).Transcribe?)
      && (Busy(x.status) && KindOf(s, s.owner[id]).Analyse? ==> x.voices == [])
      && Ordered(x.voices, x.tracks)
  }

  /** Nobody but the owner holds a session, and nobody holds one at rest. */
  ghost predicate PartyOk(s: State, p: Party, id: Id) {
    Owns(s, p, id) ==>
      && id in s.used
      && (id in s.sessions ==> Busy(s.sessions[id].status) && id in s.owner && s.owner[id] == p)
      && (s.loading ==> id in s.sessions)
  }

  ghost predicate TaskOk(s: State, t: TaskId) {
    && multiset(s.pending)[t] <= 1
    && (t in s.pending ==> t in s.tasks)
    && (t in s.tasks ==> s.tasks[t].id in s.used && (s.tasks[t].kind.Extract? ==> s.tasks[t].voices != []))
    && (s.loading && t in s.tasks ==> s.tasks[t].id in s.sessions)
  }

  /** The voices a task is to isolate are voices of its session. */
  ghost predicate VoiceOk(s: State, t: TaskId, i: int) {
    t in s.tasks && 0 <= i < |s.tasks[t].voices| && s.tasks[t].id in s.sessions ==>
      Known(s.sessions[s.tasks[t].id].voices, s.tasks[t].voices[i])
  }

  ghost predicate WorkOk(s: State, w: WorkerId) {
    w in s.workers && !s.workers[w].Idle? ==>
      && !s.loading && s.workers[w].t in s.tasks
      && (s.workers[w].Working? ==> s.workers[w].made <= |s.tasks[s.workers[w].t].voices|)
      && (s.workers[w].Extracted? ==> s.tasks[s.workers[w].t].kind.Transcribe?)
  }

  ghost predicate SavedOk(s: State, id: Id) {
    id in s.saved ==>
      && id in s.used && s.saved[id].keep && Ordered(s.saved[id].voices, s.saved[id].tracks)
      && (Unfinished(s.saved[id]) ==> Busy(s.saved[id].status))
  }

  function Max(a: int, b: int): int { if a < b then b else a }

  ghost predicate LimitOk(s: State) {
    && s.maxOpen >= 1 && s.maxKept >= 1
    && |WithKeep(s.sessions, false)| <= s.maxOpen
    && |WithKeep(s.sessions, true)| <= if s.loading then s.restored else Max(s.maxKept, s.restored)
  }

  ghost predicate Inv(s: State) {
    && (forall id :: OwnerOk(s, id)) && (forall p, id :: PartyOk(s, p, id))
    && (forall t :: TaskOk(s, t)) && (forall t, i :: VoiceOk(s, t, i)) && (forall w :: WorkOk(s, w))
    && (forall id :: SavedOk(s, id)) && LimitOk(s)
  }
}
