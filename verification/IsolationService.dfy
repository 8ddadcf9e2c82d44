/** The service's objects: sessions updated in place, one method per stretch under Service.mu. Each public method is an
 *  event of the protocol, or refuses and changes nothing.
 */
module IsolationService {
  import opened Options
  import opened TrackOrder
  import P = IsolationProtocol
  import R = IsolationRuns

  datatype Refusal = NotFound | NoKeeping | QueueFull | SessionBusy | NoSuchVoice | BadPlace | NoSample
  datatype Answer = Accepted | NothingToDo | Refused(why: Refusal)

  /** Three seconds from the place lie in the recording. */
  predicate Placeable(at: real, duration: real) { 0.0 <= at && at + 3.0 <= duration + 0.000001 }

  /** What stands under the directory: not an isolation's directory, one without a state, or one with a state that can or
   *  cannot be read. */
  datatype What = Stray | Bare | Unreadable | Copy
  datatype Found = Found(id: P.Id, what: What)

  /** Of the first n, the isolations to restore. */
  function Copies(dir: seq<Found>, n: nat): seq<P.Id>
    requires n <= |dir|
  {
    if n == 0 then [] else Copies(dir, n - 1) + (if dir[n - 1].what.Copy? then [dir[n - 1].id] else [])
  }

  /** Of the first n, what belonged to a process that is gone. */
  function Rubbish(dir: seq<Found>, n: nat): seq<P.Id>
    requires n <= |dir|
  {
    if n == 0 then [] else Rubbish(dir, n - 1) + (if dir[n - 1].what.Stray? || dir[n - 1].what.Bare? then [dir[n - 1].id] else [])
  }

  /** A copy was saved, and a directory's names differ. */
  predicate Loadable(disk: map<P.Id, P.Session>, dir: seq<Found>, i: nat)
    requires i < |dir|
  {
    dir[i].what.Copy? ==> dir[i].id in disk && dir[i].id !in Copies(dir, i)
  }

  class Sess {
    const id: P.Id
    var keep: bool
    var status: P.Status
    var voices: seq<Voice>
    var tracks: seq<string>
    var transcript: Option<P.Transcript>
    var deleted: bool

    constructor (x: P.Session, id: P.Id)
      ensures this.id == id && View() == x && !deleted
    {
      this.id, keep, status, voices, tracks, transcript, deleted := id, x.keep, x.status, x.voices, x.tracks, x.transcript, false;
    }

    function View(): (x: P.Session)
      reads this
    {
      P.Session(keep, status, voices, tracks, transcript)
    }
  }

  class Service {
    const maxOpen: int
    const maxKept: int
    const allowKeep: bool
    var sessions: map<P.Id, Sess>
    var pending: seq<P.Task>
    var disk: map<P.Id, P.Session>   // every state.json there is
    ghost var made: map<P.Id, Sess>  // every session this process had
    ghost var m: P.State

    ghost predicate SessAt(id: P.Id)
      reads this, made.Values
    {
      && (id in sessions <==> id in m.sessions)
      && (id in sessions ==> id in made && made[id] == sessions[id] && sessions[id].View() == m.sessions[id])
      && (id in made ==> made[id].id == id && id in m.used && (made[id].deleted <==> id !in sessions))
    }

    ghost predicate TaskAt(i: int)
      reads this
    {
      0 <= i < |pending| && i < |m.pending| ==> m.pending[i] in m.tasks && pending[i] == m.tasks[m.pending[i]]
    }

    ghost predicate Coupled()
      reads this, made.Values
    {
      && m.maxOpen == maxOpen && m.maxKept == maxKept && m.saved == disk && |pending| == |m.pending|
      && (forall id :: SessAt(id)) && (forall i :: TaskAt(i))
    }

    ghost predicate Valid()
      reads this, made.Values
    {
      Coupled() && P.Inv(m)
    }

    ghost predicate Takes(before: P.State, ev: P.Event)
      reads this
    {
      P.Enabled(before, ev) && m == P.Apply(before, ev)
    }

    constructor (maxOpen: int, maxKept: int, allowKeep: bool)
      ensures Valid() && m == P.Init(maxOpen, maxKept)
    {
      this.maxOpen := if maxOpen < 1 then 1 else maxOpen;
      this.maxKept := if maxKept < 1 then 1 else maxKept;
      this.allowKeep := allowKeep;
      sessions, pending, disk, made, m := map[], [], map[], map[], P.Init(maxOpen, maxKept);
      new;
      R.InitInv(maxOpen, maxKept);
    }

    // --- what the locked helpers do ---------------------------------------------

    method SaveLocked(sess: Sess, wrote: bool)
      requires Coupled() && sess.id in made && made[sess.id] == sess
      modifies this`disk, this`m
      ensures Coupled() && m == P.Save(old(m), sess.id, wrote)
    {
      assert SessAt(sess.id);
      if sess.keep && !sess.deleted && wrote {
        disk := disk[sess.id := sess.View()];
      }
      m := P.Save(m, sess.id, wrote);
      forall i ensures SessAt(i) { assert old(SessAt(i)); }
      forall i ensures TaskAt(i) { assert old(TaskAt(i)); }
    }

    method EnqueueLocked(task: P.Task, ghost t: P.TaskId)
      requires Coupled() && t !in m.tasks
      modifies this`pending, this`m
      ensures Coupled() && m == P.Enqueue(old(m), t, task) && pending == old(pending) + [task]
    {
      pending := pending + [task];
      m := P.Enqueue(m, t, task);
      forall i ensures SessAt(i) { assert old(SessAt(i)); }
      forall i ensures TaskAt(i) { assert old(TaskAt(i)); }
    }

    method DeleteTasks(id: P.Id)
      requires Coupled()
      modifies this`pending, this`m
      ensures Coupled() && m == old(m).(pending := P.WithoutTasksOf(old(m).pending, old(m).tasks, id))
    {
      var out: seq<P.Task> := [];
      ghost var ids: seq<P.TaskId> := [];
      var i := 0;
      assert m.pending[0..] == m.pending;
      while i < |pending|
        invariant 0 <= i <= |pending| == |m.pending| && |out| == |ids|
        invariant ids + P.WithoutTasksOf(m.pending[i..], m.tasks, id) == P.WithoutTasksOf(m.pending, m.tasks, id)
        invariant forall k :: 0 <= k < |out| ==> ids[k] in m.tasks && out[k] == m.tasks[ids[k]]
      {
        assert TaskAt(i) && m.pending[i..][1..] == m.pending[i + 1..];
        if pending[i].id != id {
          out := out + [pending[i]];
          ids := ids + [m.pending[i]];
        }
        i := i + 1;
      }
      pending := out;
      m := m.(pending := ids);
      forall k ensures SessAt(k) { assert old(SessAt(k)); }
    }

    method DropLocked(sess: Sess, wiped: bool)
      requires Coupled() && sess.id in made && made[sess.id] == sess
      modifies this`sessions, this`pending, this`disk, this`m, sess`deleted
      ensures Coupled() && m == P.Drop(old(m), sess.id, wiped)
    {
      assert SessAt(sess.id);
      if sess.deleted {
        return;
      }
      DeleteTasks(sess.id);
      label Filtered:
      sess.deleted := true;
      sessions := sessions - {sess.id};
      if wiped {
        disk := disk - {sess.id};
      }
      m := m.(sessions := m.sessions - {sess.id}, saved := if wiped then m.saved - {sess.id} else m.saved);
      forall i ensures SessAt(i) { assert old@Filtered(SessAt(i)); }
      forall i ensures TaskAt(i) { assert old@Filtered(TaskAt(i)); }
    }

    /** sess is live in this process under its id. */
    ghost predicate Live(sess: Sess)
      reads this
    {
      sess.id in sessions && sessions[sess.id] == sess && sess.id in made && made[sess.id] == sess && sess.id in m.sessions && sess.id in m.used
    }

    /** Coupled but for the fields of one live session. */
    ghost predicate CoupledBut(sess: Sess)
      reads this, made.Values, sess
    {
      && m.maxOpen == maxOpen && m.maxKept == maxKept && m.saved == disk && |pending| == |m.pending| && (forall i :: TaskAt(i))
      && Live(sess) && !sess.deleted && (forall i :: i != sess.id ==> SessAt(i))
    }

    /** Fields of a live session were assigned, and nothing else: the model follows. */
    ghost method Follow(sess: Sess)
      requires CoupledBut(sess)
      modifies this`m
      ensures Coupled() && m == P.SetSession(old(m), sess.id, sess.View())
    {
      m := P.SetSession(m, sess.id, sess.View());
      forall i ensures SessAt(i) { assert i != sess.id ==> old(SessAt(i)); }
      forall i ensures TaskAt(i) { assert old(TaskAt(i)); }
    }

    method Count(keep: bool) returns (n: nat)
      requires Coupled()
      ensures n == |P.WithKeep(m.sessions, keep)|
    {
      n := 0;
      var todo := sessions.Keys;
      ghost var seen: set<P.Id> := {};
      while todo != {}
        invariant todo <= sessions.Keys && n == |seen|
        invariant forall id :: id in seen <==> id in sessions && id !in todo && sessions[id].keep == keep
        decreases todo
      {
        var id :| id in todo;
        todo := todo - {id};
        if sessions[id].keep == keep {
          n := n + 1;
          seen := seen + {id};
        }
      }
      forall id ensures id in seen <==> id in P.WithKeep(m.sessions, keep) { assert SessAt(id); }
      assert seen == P.WithKeep(m.sessions, keep);
    }

    method RoomLocked(keep: bool) returns (room: bool)
      requires Coupled()
      ensures room <==> P.Room(m, keep)
    {
      var n := Count(keep);
      room := n < if keep then maxKept else maxOpen;
    }

    method DropTrackLocked(sess: Sess, speaker: string)
      requires Ordered(sess.voices, sess.tracks)
      modifies sess`tracks, sess`transcript
      ensures sess.View() == P.DropTrack(old(sess.View()), speaker)
    {
      var i := 0;
      while i < |sess.tracks| && sess.tracks[i] != speaker
        invariant 0 <= i <= |sess.tracks| && speaker !in sess.tracks[..i]
      {
        i := i + 1;
      }
      if i == |sess.tracks| {
        assert sess.tracks == sess.tracks[..i];
        return;
      }
      WithoutAt(sess.voices, sess.tracks, i);
      sess.tracks := sess.tracks[..i] + sess.tracks[i + 1..];
      if sess.transcript.Some? && sess.transcript.value.status.JobSucceeded? {
        sess.transcript := Some(sess.transcript.value.(stale := true));
      }
    }

    method DropTracks(sess: Sess, speakers: seq<string>)
      requires Ordered(sess.voices, sess.tracks)
      modifies sess`tracks, sess`transcript
      ensures sess.View() == P.DropTracks(old(sess.View()), speakers)
    {
      var i := 0;
      while i < |speakers|
        invariant 0 <= i <= |speakers| && Ordered(sess.voices, sess.tracks)
        invariant P.DropTracks(sess.View(), speakers[i..]) == P.DropTracks(old(sess.View()), speakers)
      {
        assert speakers[i..][1..] == speakers[i + 1..];
        WithoutOrdered(sess.voices, sess.tracks, speakers[i]);
        DropTrackLocked(sess, speakers[i]);
        i := i + 1;
      }
    }

    method StartLocked(sess: Sess, task: P.Task, ghost t: P.TaskId, wrote: bool)
      requires CoupledBut(sess) && task.id == sess.id && t !in m.tasks && Ordered(sess.voices, sess.tracks)
      modifies this`pending, this`disk, this`m, sess
      ensures Coupled() && m == P.Start(old(m), t, task, old(sess.View()), wrote) && pending == old(pending) + [task]
    {
      DropTracks(sess, task.voices);
      sess.status := P.Queued;
      forall i | i != sess.id ensures SessAt(i) { assert old(SessAt(i)); }
      forall i ensures TaskAt(i) { assert old(TaskAt(i)); }
      Follow(sess);
      EnqueueLocked(task, t);
      SaveLocked(sess, wrote);
    }

    method IdleLocked(sess: Sess) returns (free: bool)
      ensures free <==> P.Free(sess.View())
    {
      match sess.status
      case AwaitingSelection => free := true;
      case Done => free := true;
      case Failed => free := |sess.voices| != 0;
      case _ => free := false;
    }

    method MissingLocked(sess: Sess) returns (out: seq<string>, ok: bool)
      ensures out == P.MissingOf(sess.View())
      ensures ok <==> !(out == [] && sess.tracks == [])
    {
      out := [];
      var i := 0;
      while i < |sess.voices|
        invariant 0 <= i <= |sess.voices|
        invariant out + P.Missing(sess.voices[i..], sess.tracks) == P.Missing(sess.voices, sess.tracks)
      {
        assert sess.voices[i..][1..] == sess.voices[i + 1..];
        var v := sess.voices[i];
        if v.speaker !in sess.tracks && v.sample {
          out := out + [v.speaker];
        }
        i := i + 1;
      }
      ok := |out| != 0 || |sess.tracks| != 0;
    }

    method VoiceLocked(sess: Sess, speaker: string) returns (i: nat)
      ensures i <= |sess.voices| && (i < |sess.voices| <==> Known(sess.voices, speaker))
      ensures i < |sess.voices| ==> (sess.voices[i].sample <==> P.HasSample(sess.voices, speaker))
    {
      i := 0;
      while i < |sess.voices|
        invariant i <= |sess.voices| && (forall j :: 0 <= j < i ==> sess.voices[j].speaker != speaker)
        invariant P.HasSample(sess.voices, speaker) == P.HasSample(sess.voices[i..], speaker)
      {
        assert sess.voices[i..][1..] == sess.voices[i + 1..];
        if sess.voices[i].speaker == speaker {
          return;
        }
        i := i + 1;
      }
    }

    // --- requests ---------------------------------------------------------------

    /** Create's first section. */
    method Admit(id: P.Id, keep: bool) returns (a: Answer, sess: Sess?)
      requires Valid() && !m.loading && id !in m.used
      modifies this`sessions, this`made, this`m
      ensures Valid()
      ensures a == (if keep && !allowKeep then Refused(NoKeeping) else if P.Room(old(m), keep) then Accepted else Refused(QueueFull))
      ensures if a.Accepted? then Takes(old(m), P.Ask(P.Create(id, keep))) && sess != null && fresh(sess) && Live(sess) else m == old(m)
    {
      if keep && !allowKeep {
        return Refused(NoKeeping), null;
      }
      var room := RoomLocked(keep);
      if !room {
        return Refused(QueueFull), null;
      }
      assert SessAt(id);
      R.StepInv(m, P.Ask(P.Create(id, keep)));
      var x := new Sess(P.Session(keep, P.Queued, [], [], None), id);
      sessions := sessions[id := x];
      made := made[id := x];
      m := P.AddSession(m, id, keep);
      forall i ensures SessAt(i) { assert old(SessAt(i)); }
      forall i ensures TaskAt(i) { assert old(TaskAt(i)); }
      return Accepted, x;
    }

    /** Create's last section: the upload is on disk, whether or not the session still is. */
    method CopyDone(sess: Sess, ghost t: P.TaskId, wrote: bool)
      requires Valid() && P.Enabled(m, P.Ask(P.CopyDone(sess.id, t, wrote))) && sess.id in made && made[sess.id] == sess
      modifies this`pending, this`disk, this`m
      ensures Valid() && Takes(old(m), P.Ask(P.CopyDone(sess.id, t, wrote)))
    {
      R.StepInv(m, P.Ask(P.CopyDone(sess.id, t, wrote)));
      m := m.(copying := m.copying - {sess.id});
      forall i ensures SessAt(i) { assert old(SessAt(i)); }
      forall i ensures TaskAt(i) { assert old(TaskAt(i)); }
      EnqueueLocked(P.Task(sess.id, P.Analyse, []), t);
      SaveLocked(sess, wrote);
    }

    method CopyFailed(sess: Sess, wiped: bool)
      requires Valid() && P.Enabled(m, P.Ask(P.CopyFailed(sess.id, wiped))) && sess.id in made && made[sess.id] == sess
      modifies this`sessions, this`pending, this`disk, this`m, sess`deleted
      ensures Valid() && Takes(old(m), P.Ask(P.CopyFailed(sess.id, wiped))) && sess.id !in sessions
    {
      R.StepInv(m, P.Ask(P.CopyFailed(sess.id, wiped)));
      m := m.(copying := m.copying - {sess.id});
      forall i ensures SessAt(i) { assert old(SessAt(i)); }
      forall i ensures TaskAt(i) { assert old(TaskAt(i)); }
      DropLocked(sess, wiped);
      assert SessAt(sess.id);
    }

    method Update(id: P.Id, keep: bool, wrote: bool) returns (a: Answer)
      requires Valid() && !m.loading
      modifies this`disk, this`m, made.Values
      ensures Valid()
      ensures a == (if id !in old(m).sessions then Refused(NotFound)
                    else if keep == old(m).sessions[id].keep then Accepted
                    else if keep && !allowKeep then Refused(NoKeeping)
                    else if P.Room(old(m), keep) then Accepted else Refused(QueueFull))
      ensures a != Accepted ==> m == old(m)
      ensures a == Accepted ==> Takes(old(m), P.Ask(if keep == old(m).sessions[id].keep then P.SaveAgain(id, wrote) else P.Keep(id, keep, wrote)))
    {
      assert SessAt(id);
      if id !in sessions {
        return Refused(NotFound);
      }
      var sess := sessions[id];
      if keep != sess.keep {
        if keep && !allowKeep {
          return Refused(NoKeeping);
        }
        var room := RoomLocked(keep);
        if !room {
          return Refused(QueueFull);
        }
        R.StepInv(m, P.Ask(P.Keep(id, keep, wrote)));
        SetKeep(sess, keep, wrote);
      } else {
        R.StepInv(m, P.Ask(P.SaveAgain(id, wrote)));
      }
      SaveLocked(sess, wrote);
      return Accepted;
    }

    method SetKeep(sess: Sess, keep: bool, removed: bool)
      requires Coupled() && Live(sess)
      modifies this`disk, this`m, sess
      ensures Coupled() && m == P.SetKeep(old(m), sess.id, keep, removed)
    {
      assert SessAt(sess.id);
      sess.keep := keep;
      forall i | i != sess.id ensures SessAt(i) { assert old(SessAt(i)); }
      forall i ensures TaskAt(i) { assert old(TaskAt(i)); }
      Follow(sess);
      label Kept:
      if !keep && removed {
        disk := disk - {sess.id};
        m := m.(saved := m.saved - {sess.id});
      }
      forall i ensures SessAt(i) { assert old@Kept(SessAt(i)); }
      forall i ensures TaskAt(i) { assert old@Kept(TaskAt(i)); }
    }

    /** at is where the caller wants the sample taken from, in a recording of the duration. */
    method Extract(id: P.Id, speaker: string, at: Option<real>, duration: real, ghost t: P.TaskId, wrote: bool) returns (a: Answer)
      requires Valid() && !m.loading && t !in m.tasks
      modifies this`pending, this`disk, this`m, made.Values
      ensures Valid()
      ensures a.Accepted? <==> P.CanAsk(old(m), P.ExtractOne(id, speaker, at.Some?, t, wrote)) && (at.Some? ==> Placeable(at.value, duration))
      ensures if a.Accepted? then Takes(old(m), P.Ask(P.ExtractOne(id, speaker, at.Some?, t, wrote))) else m == old(m)
      ensures pending == old(pending) + if a.Accepted? then [P.Task(id, P.Extract, [speaker])] else []
    {
      assert SessAt(id) && P.OwnerOk(m, id);
      if id !in sessions {
        return Refused(NotFound);
      }
      var sess := sessions[id];
      var free := IdleLocked(sess);
      if !free {
        return Refused(SessionBusy);
      }
      var i := VoiceLocked(sess, speaker);
      if i == |sess.voices| {
        return Refused(NoSuchVoice);
      }
      if at.Some? {
        if !Placeable(at.value, duration) {
          return Refused(BadPlace);
        }
      } else if !sess.voices[i].sample {
        return Refused(NoSample);
      }
      R.StepInv(m, P.Ask(P.ExtractOne(id, speaker, at.Some?, t, wrote)));
      StartLocked(sess, P.Task(id, P.Extract, [speaker]), t, wrote);
      return Accepted;
    }

    method ExtractAll(id: P.Id, ghost t: P.TaskId, wrote: bool) returns (a: Answer)
      requires Valid() && !m.loading && t !in m.tasks
      modifies this`pending, this`disk, this`m, made.Values
      ensures Valid()
      ensures a.Accepted? <==> P.CanAsk(old(m), P.ExtractAll(id, t, wrote))
      ensures if a.Accepted? then Takes(old(m), P.Ask(P.ExtractAll(id, t, wrote))) else m == old(m)
    {
      assert SessAt(id) && P.OwnerOk(m, id);
      if id !in sessions {
        return Refused(NotFound);
      }
      var sess := sessions[id];
      var free := IdleLocked(sess);
      if !free {
        return Refused(SessionBusy);
      }
      var missing, ok := MissingLocked(sess);
      if !ok {
        return Refused(NoSample);
      }
      if |missing| == 0 {
        return NothingToDo;
      }
      R.StepInv(m, P.Ask(P.ExtractAll(id, t, wrote)));
      StartLocked(sess, P.Task(id, P.Extract, missing), t, wrote);
      return Accepted;
    }

    method TranscribeSpeakers(id: P.Id, ghost t: P.TaskId, wrote: bool) returns (a: Answer)
      requires Valid() && !m.loading && t !in m.tasks
      modifies this`pending, this`disk, this`m, made.Values
      ensures Valid()
      ensures a.Accepted? <==> P.CanAsk(old(m), P.TranscribeAll(id, t, wrote))
      ensures if a.Accepted? then Takes(old(m), P.Ask(P.TranscribeAll(id, t, wrote))) else m == old(m)
    {
      assert SessAt(id) && P.OwnerOk(m, id);
      if id !in sessions {
        return Refused(NotFound);
      }
      var sess := sessions[id];
      var free := IdleLocked(sess);
      if !free {
        return Refused(SessionBusy);
      }
      var missing, ok := MissingLocked(sess);
      if !ok {
        return Refused(NoSample);
      }
      R.StepInv(m, P.Ask(P.TranscribeAll(id, t, wrote)));
      sess.transcript := Some(P.Transcript(P.JobQueued, false));
      forall i | i != sess.id ensures SessAt(i) { assert old(SessAt(i)); }
      forall i ensures TaskAt(i) { assert old(TaskAt(i)); }
      StartLocked(sess, P.Task(id, P.Transcribe, missing), t, wrote);
      return Accepted;
    }

    method Delete(id: P.Id, wiped: bool) returns (a: Answer)
      requires Valid() && !m.loading
      modifies this`sessions, this`pending, this`disk, this`m, made.Values
      ensures Valid() && made == old(made)
      ensures a == (if id in old(m).sessions then Accepted else Refused(NotFound))
      ensures if a.Accepted? then Takes(old(m), P.Ask(P.Delete(id, wiped))) else m == old(m)
    {
      assert SessAt(id);
      if id !in sessions {
        return Refused(NotFound);
      }
      R.StepInv(m, P.Ask(P.Delete(id, wiped)));
      DropLocked(sessions[id], wiped);
      return Accepted;
    }
  
    /** One turn of expire's loop. A session that is kept or working is never cut short. */
    method ExpireOne(id: P.Id, now: real, expiresAt: Option<real>, wiped: bool) returns (gone: bool)
      requires Valid() && !m.loading && id in sessions && id in m.sessions
      modifies this`sessions, this`pending, this`disk, this`m, made.Values
      ensures Valid() && made == old(made)
      ensures gone <==> expiresAt.Some? && now > expiresAt.value && !old(m).sessions[id].keep && !P.Busy(old(m).sessions[id].status)
      ensures if gone then Takes(old(m), P.Ask(P.Expire(id, wiped))) else m == old(m)
    {
      assert SessAt(id);
      var sess := sessions[id];
      gone := false;
      if sess.keep || P.Busy(sess.status) || expiresAt.None? {
        return;
      }
      if now > expiresAt.value {
        gone := true;
        R.StepInv(m, P.Ask(P.Expire(id, wiped)));
        DropLocked(sess, wiped);
      }
    }

    // --- the workers ------------------------------------------------------------

    /** next, when there is something to take. */
    method Next(ghost w: P.WorkerId) returns (task: P.Task)
      requires Valid() && !m.loading && P.CanWork(m, w, P.Pop)
      modifies this`pending, this`m
      ensures Valid() && Takes(old(m), P.Work(w, P.Pop))
      ensures P.CanWork(m, w, P.Begin) && task == P.TaskOf(m, w)
    {
      assert TaskAt(0) && P.TaskOk(m, m.pending[0]);
      R.StepInv(m, P.Work(w, P.Pop));
      task := pending[0];
      pending := pending[1..];
      m := P.PopTask(m, w);
      forall i ensures SessAt(i) { assert old(SessAt(i)); }
      forall i ensures TaskAt(i) { assert old(TaskAt(i + 1)); }
    }

    /** run's first section. The session is null when it was deleted meanwhile. */
    method Begin(task: P.Task, ghost w: P.WorkerId) returns (sess: Sess?)
      requires Valid() && !m.loading && P.CanWork(m, w, P.Begin) && task == P.TaskOf(m, w)
      modifies this`m
      ensures Valid() && Takes(old(m), P.Work(w, P.Begin))
      ensures sess == null <==> task.id !in m.sessions
      ensures sess != null ==> Live(sess) && sess.id == task.id
    {
      assert SessAt(task.id);
      R.StepInv(m, P.Work(w, P.Begin));
      m := P.Advance(m, w, P.Begin);
      forall i ensures SessAt(i) { assert old(SessAt(i)); }
      forall i ensures TaskAt(i) { assert old(TaskAt(i)); }
      sess := if task.id in sessions then sessions[task.id] else null;
    }

    /** The worker w is on the task, with the session it began with. */
    ghost predicate At(w: P.WorkerId, step: P.Step, sess: Sess, task: P.Task)
      reads this
    {
      && !m.loading && !step.Hire? && !step.Pop? && P.CanWork(m, w, step) && task == P.TaskOf(m, w)
      && sess.id == task.id && sess.id in made && made[sess.id] == sess
    }

    /** The worker's own place moves, which only the model sees. */
    ghost method Move(w: P.WorkerId, k: P.Worker)
      requires Coupled()
      modifies this`m
      ensures Coupled() && m == P.SetWorker(old(m), w, k)
    {
      m := P.SetWorker(m, w, k);
      forall i ensures SessAt(i) { assert old(SessAt(i)); }
      forall i ensures TaskAt(i) { assert old(TaskAt(i)); }
    }

    /** A live session's status and transcript are written. */
    method SetStatus(sess: Sess, status: P.Status, transcript: Option<P.Transcript>)
      requires Coupled() && Live(sess)
      modifies this`m, sess`status, sess`transcript
      ensures Coupled() && sess.status == status
      ensures m == P.SetSession(old(m), sess.id, old(sess.View()).(status := status, transcript := transcript))
    {
      assert SessAt(sess.id);
      sess.status, sess.transcript := status, transcript;
      forall i | i != sess.id ensures SessAt(i) { assert old(SessAt(i)); }
      forall i ensures TaskAt(i) { assert old(TaskAt(i)); }
      Follow(sess);
    }

    /** stage */
    method Stage(sess: Sess, task: P.Task, ghost w: P.WorkerId)
      requires Valid() && At(w, P.Stage, sess, task) && (task.kind.Analyse? || task.voices != [])
      modifies this`m, sess
      ensures Valid() && Takes(old(m), P.Work(w, P.Stage))
    {
      assert SessAt(sess.id);
      R.StepInv(m, P.Work(w, P.Stage));
      if sess.deleted {
        return;
      }
      SetStatus(sess, if task.kind.Analyse? then P.Analysing else P.Extracting, sess.transcript);
    }

    method PutTrackLocked(sess: Sess, speaker: string)
      modifies sess`tracks
      ensures sess.tracks == PutTrack(sess.voices, old(sess.tracks), speaker)
    {
      var out: seq<string> := [];
      var i := 0;
      while i < |sess.tracks|
        invariant 0 <= i <= |sess.tracks| && out + Without(sess.tracks[i..], speaker) == Without(sess.tracks, speaker)
      {
        assert sess.tracks[i..][1..] == sess.tracks[i + 1..];
        if sess.tracks[i] != speaker {
          out := out + [sess.tracks[i]];
        }
        i := i + 1;
      }
      assert out == Without(sess.tracks, speaker);
      out := out + [speaker];
      sess.tracks := SortFirst(sess.voices, out, |out|);
    }

    /** A live session gets a track. */
    method ShowTrack(sess: Sess, speaker: string)
      requires Coupled() && Live(sess)
      modifies this`m, sess`tracks
      ensures Coupled()
      ensures m == P.SetSession(old(m), sess.id, old(sess.View()).(tracks := PutTrack(sess.voices, old(sess.tracks), speaker)))
    {
      assert SessAt(sess.id);
      PutTrackLocked(sess, speaker);
      forall i | i != sess.id ensures SessAt(i) { assert old(SessAt(i)); }
      forall i ensures TaskAt(i) { assert old(TaskAt(i)); }
      Follow(sess);
    }

    /** A track was made: published at once, or dropped with its session. */
    method MakeTrack(sess: Sess, task: P.Task, ghost w: P.WorkerId, done: nat, wrote: bool)
      requires Valid() && At(w, P.MakeTrack(wrote), sess, task) && m.workers[w].Working? && done == m.workers[w].made < |task.voices|
      modifies this`m, this`disk, sess`tracks
      ensures Valid() && Takes(old(m), P.Work(w, P.MakeTrack(wrote)))
      ensures sess.deleted ==> m.workers[w].Resting?
    {
      assert SessAt(sess.id);
      R.StepInv(m, P.Work(w, P.MakeTrack(wrote)));
      ghost var t := m.workers[w].t;
      if sess.deleted {
        Move(w, P.Resting(t));
      } else {
        KeepTrack(sess, task.voices[done], w, P.Working(t, done + 1), wrote);
      }
    }

    method KeepTrack(sess: Sess, speaker: string, ghost w: P.WorkerId, ghost k: P.Worker, wrote: bool)
      requires Coupled() && Live(sess)
      modifies this`m, this`disk, sess`tracks
      ensures Coupled()
      ensures var x := old(sess.View()).(tracks := PutTrack(sess.voices, old(sess.tracks), speaker));
        m == P.Save(P.SetWorker(P.SetSession(old(m), sess.id, x), w, k), sess.id, wrote)
    {
      ShowTrack(sess, speaker);
      Move(w, k);
      SaveLocked(sess, wrote);
    }

    /** analyse's last section. */
    method FindVoices(sess: Sess, task: P.Task, ghost w: P.WorkerId, voices: seq<Voice>)
      requires Valid() && At(w, P.FindVoices(voices), sess, task)
      modifies this`m, sess
      ensures Valid() && Takes(old(m), P.Work(w, P.FindVoices(voices)))
    {
      assert SessAt(sess.id);
      R.StepInv(m, P.Work(w, P.FindVoices(voices)));
      Move(w, P.Resting(m.workers[w].t));
      label Moved:
      if sess.deleted {
        return;
      }
      assert SessAt(sess.id);
      sess.voices := voices;
      sess.status := P.AwaitingSelection;
      forall i | i != sess.id ensures SessAt(i) { assert old@Moved(SessAt(i)); }
      forall i ensures TaskAt(i) { assert old@Moved(TaskAt(i)); }
      Follow(sess);
    }

    /** extract's last section, and its early return. */
    method EndExtract(sess: Sess, task: P.Task, ghost w: P.WorkerId)
      requires Valid() && At(w, P.EndExtract, sess, task)
      modifies this`m, sess
      ensures Valid() && Takes(old(m), P.Work(w, P.EndExtract))
    {
      assert SessAt(sess.id);
      R.StepInv(m, P.Work(w, P.EndExtract));
      var finish := task.kind != P.Transcribe;
      ghost var t := m.workers[w].t;
      Move(w, if finish then P.Resting(t) else P.Extracted(t));
      if |task.voices| == 0 {
        return;
      }
      assert SessAt(sess.id);
      if finish && !sess.deleted {
        SetStatus(sess, P.Done, sess.transcript);
      }
    }

    /** run's epilogue when work returned no error and there is nothing to transcribe. */
    method Leave(sess: Sess, task: P.Task, ghost w: P.WorkerId, wrote: bool)
      requires Valid() && At(w, P.LeaveResting(wrote), sess, task)
      modifies this`m, this`disk
      ensures Valid() && Takes(old(m), P.Work(w, P.LeaveResting(wrote)))
    {
      R.StepInv(m, P.Work(w, P.LeaveResting(wrote)));
      Move(w, P.Idle);
      SaveLocked(sess, wrote);
    }

    /** run's epilogue after an error. */
    method LeaveFailed(sess: Sess, task: P.Task, ghost w: P.WorkerId, wrote: bool)
      requires Valid() && At(w, P.LeaveFailed(wrote), sess, task)
      modifies this`m, this`disk, sess
      ensures Valid() && Takes(old(m), P.Work(w, P.LeaveFailed(wrote)))
      ensures !sess.deleted ==> sess.status.Failed?
    {
      assert SessAt(sess.id);
      R.StepInv(m, P.Work(w, P.LeaveFailed(wrote)));
      Move(w, P.Idle);
      assert SessAt(sess.id);
      if sess.deleted {
        return;
      }
      var tr := sess.transcript;
      if task.kind.Transcribe? && tr.Some? {
        tr := Some(tr.value.(status := P.JobFailed));
      }
      SetStatus(sess, P.Failed, tr);
      SaveLocked(sess, wrote);
    }

    /** run's epilogue of a transcription: the jobs take over. */
    method HandToJobs(sess: Sess, task: P.Task, ghost w: P.WorkerId, ghost f: P.FollowerId, wrote: bool)
      requires Valid() && At(w, P.HandToJobs(f, wrote), sess, task)
      modifies this`m, this`disk, sess
      ensures Valid() && Takes(old(m), P.Work(w, P.HandToJobs(f, wrote)))
    {
      assert SessAt(sess.id);
      R.StepInv(m, P.Work(w, P.HandToJobs(f, wrote)));
      Move(w, P.Idle);
      assert SessAt(sess.id);
      if sess.deleted {
        return;
      }
      SetStatus(sess, P.Transcribing, Some(P.Transcript(P.JobRunning, false)));
      label Set:
      m := m.(followers := m.followers[f := sess.id], owner := m.owner[sess.id := P.Following(f)]);
      forall i ensures SessAt(i) { assert old@Set(SessAt(i)); }
      forall i ensures TaskAt(i) { assert old@Set(TaskAt(i)); }
      SaveLocked(sess, wrote);
    }

    /** followJobs' last section. */
    method FollowEnd(sess: Sess, ghost f: P.FollowerId, succeeded: bool, wrote: bool)
      requires Valid() && !m.loading && f in m.followers && m.followers[f] == sess.id && sess.id in made && made[sess.id] == sess
      modifies this`m, this`disk, sess
      ensures Valid() && Takes(old(m), P.FollowEnd(f, succeeded, wrote))
    {
      R.StepInv(m, P.FollowEnd(f, succeeded, wrote));
      m := m.(followers := m.followers - {f});
      forall i ensures SessAt(i) { assert old(SessAt(i)); }
      forall i ensures TaskAt(i) { assert old(TaskAt(i)); }
      assert SessAt(sess.id);
      if sess.deleted {
        return;
      }
      var tr := sess.transcript;
      if tr.Some? {
        tr := Some(tr.value.(status := if succeeded then P.JobSucceeded else P.JobFailed));
      }
      SetStatus(sess, P.Done, tr);
      SaveLocked(sess, wrote);
    }

    // --- a restart --------------------------------------------------------------

    /** The process is gone, and New has just been called: only the disk is left. */
    method Forget()
      requires Valid()
      modifies this
      ensures Valid() && Takes(old(m), P.Crash) && disk == old(disk)
    {
      R.StepInv(m, P.Crash);
      sessions, pending, made := map[], [], map[];
      m := P.LoseMemory(m);
    }

    /** restore, for a copy that can be read. */
    method Restore(id: P.Id, upload: bool, files: set<string>, ghost t: P.TaskId)
      requires Valid() && P.Enabled(m, P.Restore(id, upload, files, t))
      modifies this`sessions, this`pending, this`made, this`m
      ensures Valid() && Takes(old(m), P.Restore(id, upload, files, t))
    {
      R.StepInv(m, P.Restore(id, upload, files, t));
      assert P.SavedOk(m, id) && SessAt(id);
      var sess := new Sess(disk[id], id);
      sess.keep := true;
      var requeue := Revive(sess, upload, files);
      Enter(sess);
      if requeue {
        EnqueueLocked(P.Task(id, P.Analyse, []), t);
      }
    }

    method Enter(sess: Sess)
      requires Coupled() && sess.id !in sessions && sess.id in m.used && !sess.deleted && sess !in made.Values
      modifies this`sessions, this`made, this`m
      ensures Coupled()
      ensures m == P.SetSession(old(m), sess.id, sess.View()).(restored := old(m).restored + 1, owner := old(m).owner[sess.id := P.Creator(sess.id)])
    {
      assert SessAt(sess.id);
      sessions := sessions[sess.id := sess];
      made := made[sess.id := sess];
      m := P.SetSession(m, sess.id, sess.View()).(restored := m.restored + 1, owner := m.owner[sess.id := P.Creator(sess.id)]);
      forall i ensures SessAt(i) { assert old(SessAt(i)); }
      forall i ensures TaskAt(i) { assert old(TaskAt(i)); }
    }

    /** load: every copy that can be read is restored, one that cannot is left alone, and everything else under the
     *  directory is removed; with no answer from the directory nothing happens. */
    method Load(dir: Option<seq<Found>>, uploads: set<P.Id>, files: map<P.Id, set<string>>)
      returns (ok: bool, removed: seq<P.Id>, ghost evs: seq<P.Event>)
      requires Valid() && m.loading && m.tasks == map[] && m.sessions == map[]
      requires dir.Some? ==> forall i :: 0 <= i < |dir.value| ==> Loadable(disk, dir.value, i)
      modifies this`sessions, this`pending, this`made, this`m
      ensures Valid() && disk == old(disk) && (ok <==> dir.Some?) && (!ok ==> m == old(m) && removed == [])
      ensures ok ==> Loaded(old(m), evs, m, Copies(dir.value, |dir.value|)) && removed == Rubbish(dir.value, |dir.value|)
    {
      ok, removed, evs := dir.Some?, [], [];
      if !ok {
        return;
      }
      var entries := dir.value;
      for i := 0 to |entries|
        invariant Valid() && Loaded(old(m), evs, m, Copies(entries, i)) && removed == Rubbish(entries, i) && disk == old(disk)
      {
        match entries[i].what
        case Copy =>
          assert Loadable(disk, entries, i);
          evs := LoadOne(entries[i].id, uploads, files, old(m), evs, Copies(entries, i));
        case Stray => removed := removed + [entries[i].id];
        case Bare => removed := removed + [entries[i].id];
        case Unreadable =>
      }
    }

    method LoadOne(id: P.Id, uploads: set<P.Id>, files: map<P.Id, set<string>>, ghost first: P.State, ghost evs: seq<P.Event>, ghost ids: seq<P.Id>)
      returns (ghost more: seq<P.Event>)
      requires Valid() && Loaded(first, evs, m, ids) && id in disk && id !in ids
      modifies this`sessions, this`pending, this`made, this`m
      ensures Valid() && Loaded(first, more, m, ids + [id]) && disk == old(disk)
    {
      var has := if id in files then files[id] else {};
      assert P.SavedOk(m, id) && SessAt(id);
      LoadedOneMore(first, evs, m, ids, id, id in uploads, has);
      more := evs + [P.Restore(id, id in uploads, has, |evs|)];
      Restore(id, id in uploads, has, |evs|);
    }

    /** What restore does to the copied fields. */
    method Revive(sess: Sess, upload: bool, files: set<string>) returns (requeue: bool)
      requires sess.keep
      modifies sess
      ensures sess.View() == P.Restored(old(sess.View()), upload, files) && !sess.deleted == old(!sess.deleted)
      ensures requeue <==> P.Requeues(old(sess.View()), upload)
    {
      var tracks: seq<string> := [];
      var i := 0;
      while i < |sess.tracks|
        invariant 0 <= i <= |sess.tracks| && tracks + Kept(sess.tracks[i..], files) == Kept(sess.tracks, files)
      {
        assert sess.tracks[i..][1..] == sess.tracks[i + 1..];
        if sess.tracks[i] in files {
          tracks := tracks + [sess.tracks[i]];
        }
        i := i + 1;
      }
      sess.tracks := tracks;
      requeue := false;
      if P.Busy(sess.status) {
        if |sess.voices| == 0 && upload {
          sess.status := P.Queued;
          requeue := true;
        } else if |sess.voices| == 0 {
          sess.status := P.Failed;
        } else if |sess.tracks| > 0 {
          sess.status := P.Done;
        } else {
          sess.status := P.AwaitingSelection;
        }
        if sess.transcript.Some? && (sess.transcript.value.status.JobQueued? || sess.transcript.value.status.JobRunning?) {
          sess.transcript := Some(sess.transcript.value.(status := P.JobFailed));
        }
      }
    }
  }

  /** What has been done with these copies: one Restore each, in the order of the directory. */
  ghost predicate Loaded(first: P.State, evs: seq<P.Event>, s: P.State, ids: seq<P.Id>) {
    && R.Legal(first, evs) && s == R.Run(first, evs) && |evs| == |ids| && s.loading && s.saved == first.saved
    && (forall i :: 0 <= i < |ids| ==> evs[i].Restore? && evs[i].id == ids[i])
    && (forall id :: id in s.sessions ==> id in ids)
    && (forall u :: u in s.tasks ==> u < |ids|)
  }

  lemma LoadedOneMore(first: P.State, evs: seq<P.Event>, s: P.State, ids: seq<P.Id>, id: P.Id, upload: bool, files: set<string>)
    requires Loaded(first, evs, s, ids) && id in s.saved && id !in ids
    ensures var ev := P.Restore(id, upload, files, |evs|);
      P.Enabled(s, ev) && Loaded(first, evs + [ev], P.Apply(s, ev), ids + [id])
  {
    R.RunAppend(first, evs, P.Restore(id, upload, files, |evs|));
    ReloadAdds(s, id, upload, files, |evs|);
  }

  lemma ReloadAdds(s: P.State, id: P.Id, upload: bool, files: set<string>, t: P.TaskId)
    requires s.loading && id in s.saved
    ensures var s' := P.Reload(s, id, upload, files, t);
      && s'.loading && s'.saved == s.saved
      && (forall i :: i in s'.sessions ==> i in s.sessions || i == id)
      && (forall u :: u in s'.tasks ==> u in s.tasks || u == t)
  {}

  lemma {:induction false} WithoutNone(tracks: seq<string>, speaker: string)
    requires speaker !in tracks
    ensures Without(tracks, speaker) == tracks
  {
    if tracks != [] { WithoutNone(tracks[1..], speaker); }
  }

  /** With one track a voice, deleting the first of a speaker deletes them all. */
  lemma {:induction false} WithoutAt(voices: seq<Voice>, tracks: seq<string>, i: nat)
    requires i < |tracks| && Ordered(voices, tracks)
    ensures Without(tracks, tracks[i]) == tracks[..i] + tracks[i + 1..]
  {
    if i == 0 {
      forall j | 0 <= j < |tracks[1..]| ensures tracks[1..][j] != tracks[0] { OneTrackAVoice(voices, tracks, 0, j + 1); }
      WithoutNone(tracks[1..], tracks[0]);
    } else {
      OneTrackAVoice(voices, tracks, 0, i);
      SubOrdered(voices, tracks);
      WithoutAt(voices, tracks[1..], i - 1);
    }
  }
}
