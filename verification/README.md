# NanoASR, verified

NanoASR is a speech-recognition server. Around the native recognisers it has a handful of small engines of its own, and
this project models those and proves what they are for. Every file is Dafny 4.11; `dafny verify dfyconfig.toml` checks all.

Two shapes recur. A component that many goroutines share is a **protocol**: a value type for its state, one event per
stretch of code under the lock, an invariant every event keeps, and theorems over all runs. Beside it stands a **class**
whose fields are the component's fields, whose methods are those stretches, and whose ghost field `m` is the protocol's
state: a `Coupled` predicate ties the fields to `m`, and each method is proved to be one event, so what is proved of all
runs holds of every interleaving of the methods. A module called after
its outcomes says of each event, from the states before and after alone, what it does for the caller who asked for it and
that it does nothing to anybody else. Code without sharing is a method over arrays, sequences or maps with its
loops, proved against a function about which lemmas are proved.

- **Model pool** (`PoolProtocol`, `PoolRuns`, `PoolOutcomes`, `ModelPool`): a reference-counted, bounded cache with hot swap that gives its
  lock away while a model loads. Calls, leases, recognisers and ready channels have identities of their own.
- **CPU governor** (`GovernorProtocol`, `CpuGovernor`): a weighted semaphore on a condition variable with cancellation; the
  critical section is cut where a cancellation can fall. A sleeping caller is woken only by a broadcast.
- **Event hub** (`HubProtocol`, `HubOutcomes`, `JobHub`) and **job queue** (`QueueProtocol`, `QueueOutcomes`, `JobQueue`,
  `StableSort`).
- **Voice isolation** (`IsolationProtocol`, `IsolationRuns`, `IsolationOutcomes`, `IsolationService`, `TrackOrder`): sessions pass between a
  creator, a pending queue, workers and job followers, and survive crashes through saved copies. Every write to disk that
  the code does not check may succeed or fail.
- **Resampler** (`FilterBank`, `Resample`): exact reals; the windowed sinc inside its window is any function.
- **Text stages** (`SpanVectors`, `Scatter`, `Letters`, `Punctuation`, `Words`): span vectors, segments, and marks. Letters,
  digits, spaces and the case map are any that keep a letter a letter and no letter a space.
- **Rate limiter** (`TokenBucket`, `TokenRefusals`, `RateLimiter`): exact reals.
- **Streams and files** (`Bytes`, `SampleStream`, `WaveWriter`, `WaveReader`, `WaveRoundTrip`, `WaveFormats`, `WaveDecode`,
  `ProtoReader`,
  `SentencePieces`). RIFF/WAVE follows the section "Waveform Audio File Format (WAVE)" of the IBM/Microsoft Multimedia
  Programming Interface and Data Specifications 1.0; varints and records follow the sections "Base 128 Varints" and
  "Length-Delimited Records" of the Protocol Buffers Encoding guide.
- **Speaker runs** (`SpeakerRuns`, `SpeakerSplit`).

`Options` and `Sums` are shared helpers.

Where the code keeps less than its comments say, the code is followed and the difference is a lemma: a subscriber can be sent
a number it asked to be past (`HubProtocol.AheadOfTheTopic`, and exactly when in `HubProtocol.PastAfterIff`), two adjacent
segments can carry one speaker (`SpeakerSplit.BothAreCalledOne`, `SpeakerSplit.NobodyHasNoVote`, and exactly when in
`SpeakerSplit.SharedExactlyWhenOneLeadsBoth`), and
below half a request a second no wait is ever enough (`TokenBucket.RetryAfterTheWait`).

## Model

| member | source | states |
|---|---|---|
| PoolRuns.LeasesAreSafe | internal/pool/pool.go:40-45 | In every run of the locked sections: no recogniser behind an unreleased lease is closed, none is closed twice, and an entry's refs are its outstanding leases. |
| PoolRuns.NothingLeaks | internal/pool/pool.go:193-247 | Until Close, everything materialise returned is closed exactly once or held in exactly one place: a call's hands, one entry in current, or one draining entry with refs above zero. |
| PoolRuns.NoWaiterIsStranded | internal/pool/pool.go:165-180 | A ready channel is closed at most once; it is open exactly while one call, and only one, will still close it; every waiter can wake or waits for such a call. |
| PoolRuns.HotSwapIsComplete | internal/pool/pool.go:323-335 | After any run, once a Reload or Unload of a model takes effect no lease is ever granted on an entry of that model, base or variant, loading or ready, that was in current before. |
| PoolOutcomes.HotSwapReachesWhatWasAsked | internal/pool/pool.go:187-191 | Once a call has claimed an entry for a model and a variant, and a Reload or Unload of that model has taken effect since, in any run, the entry never serves again and no later lease is on it. |
| PoolOutcomes.HitServesTheKey | internal/pool/pool.go:157-164 | A ready entry under the key asked for gives one lease on its own recogniser, is used now, and nothing else changes. |
| PoolOutcomes.WaitIsForTheKey | internal/pool/pool.go:165-180 | Who waits waits for the load of the key asked for. |
| PoolOutcomes.ClaimTakesTheKey | internal/pool/pool.go:184-194 | Who finds nothing serving claims the key for the model and variant asked for, unpinned and unleased. |
| PoolOutcomes.VariantsAreApart | internal/pool/pool.go:589-594 | Two variants of a model, the base among them, have different keys. |
| PoolOutcomes.SettledServesTheKey | internal/pool/pool.go:214-247 | A finished load gives a lease on its own entry, or on the one now under the same key with its own recogniser closed. |
| PoolOutcomes.FailedLoadLeavesTheKey | internal/pool/pool.go:199-213 | A failed load frees its key, records the error and leaves every other key alone. |
| PoolOutcomes.ReleaseEndsTheLease | internal/pool/pool.go:272-292 | A lease given back is gone and every other stays. |
| PoolOutcomes.UnloadTakesTheModel | internal/pool/pool.go:339-370 | Unload takes the base and every variant of the model out of current, and no other model's entry. |
| PoolOutcomes.ReloadServesTheNew | internal/pool/pool.go:310-336 | After a Reload the model's key is the new recogniser's, with the pin of the one before; other models' entries leave only by eviction. |
| PoolOutcomes.SweepTakesTheIdle | internal/pool/pool.go:385-403 | Sweep takes an entry exactly when it is unpinned, unleased, ready and unused for longer than the time to live. |
| PoolOutcomes.UsedIsNotSwept | internal/pool/pool.go:385-403 | In any run, what was leased or given back at a time is not swept within the time to live after it. |
| PoolOutcomes.PinnedStays | internal/pool/pool.go:373-382 | In any run a ready pinned model stays, reloads included, until it is unpinned, unloaded or the pool closes. |
| PoolOutcomes.PinPins | internal/pool/pool.go:373-382 | Pinning changes the pin of the entry under the id and nothing else. |
| PoolOutcomes.EvictionTakesTheOldest | internal/pool/pool.go:431-453 | Every victim was unpinned, unleased and ready, no base while a variant could go, and of its kind the one unused for longest. |
| PoolOutcomes.EvictionOnlyWhileOver | internal/pool/pool.go:408-429 | Every victim went while the pool was over a limit. |
| PoolOutcomes.CloseStopsAcquiring | internal/pool/pool.go:150-156 | Once Close has begun no call finds, awaits or claims an entry in any run. |
| PoolOutcomes.CloseEmptiesThePool | internal/pool/pool.go:535-556 | Close takes everything out and closes every recogniser nobody leases. |
| PoolRuns.EvictionSuffices | internal/pool/pool.go:405-418 | evictLocked ends inside both limits, or with every remaining entry pinned, leased or loading. |
| PoolRuns.EvictionOrder | internal/pool/pool.go:431-453 | Victims were idle, went variants first and oldest first, and everything still evictable comes later in that order than every one of them. |
| PoolRuns.StepInv | internal/pool/pool.go:139-294 | Every event, whatever it interleaves with, keeps the invariant that ties entries, leases, calls, recognisers and channels together. |
| PoolProtocol.ReleaseInv | internal/pool/pool.go:272-285 | Giving a lease back keeps the invariant; the below-zero guard never fires and the last lease on a draining entry closes it once. |
| PoolRuns.SettleInv | internal/pool/pool.go:214-242 | However a load ends, the invariant is kept: it still owns its place and serves; a reload put a fresh entry there, so it closes its own recogniser and serves the fresh one when that is ready; or nothing is left to serve. |
| PoolProtocol.SettleReadyInv | internal/pool/pool.go:235-242 | A load whose placeholder still holds its place makes it ready with one lease and wakes the waiters, keeping the invariant. |
| PoolProtocol.SettleRetiredInv | internal/pool/pool.go:228-233 | A load whose placeholder was retired closes its recogniser and wakes the waiters with an error, keeping the invariant. |
| PoolProtocol.InstallFreshInv | internal/pool/pool.go:313-332 | Installing the reloaded entry keeps the invariant. |
| ModelPool.Pool.constructor | internal/pool/pool.go:93-109 | A new pool is the protocol's initial state, with the limits raised to their least values. |
| ModelPool.Pool.AcquireTurn | internal/pool/pool.go:150-194 | One turn of AcquireVariant's loop is exactly one event: refused when closed, a hit, a wait on the placeholder, or a claimed placeholder. |
| ModelPool.Pool.LoadFailed | internal/pool/pool.go:199-213 | A failed load removes its own placeholder only, records the error and closes ready. |
| ModelPool.Pool.SettleHere | internal/pool/pool.go:235-247 | A load that still owns its place becomes ready with one lease and then evicts. |
| ModelPool.Pool.SettleElsewhere | internal/pool/pool.go:214-233 | A load that lost its place closes its recogniser and serves the fresh entry if a ready one is there. |
| ModelPool.Pool.Release | internal/pool/pool.go:122-128 | The first Release of a lease is one event of the protocol and a second one does nothing. |
| ModelPool.Pool.GiveBack | internal/pool/pool.go:276-285 | The entry loses one reference; a draining entry without references is closed and leaves draining. |
| ModelPool.Pool.EvictIfOver | internal/pool/pool.go:290-292 | The eviction after a release happens exactly over a limit. |
| ModelPool.Pool.Unload | internal/pool/pool.go:339-349 | Unload is the event that retires the base entry and every variant, or refuses and changes nothing. |
| ModelPool.Pool.Reload | internal/pool/pool.go:310-336 | Reload's locked section retires the old entry and its variants, installs the fresh one with the old pin, and evicts. |
| ModelPool.Pool.RetireLocked | internal/pool/pool.go:353-361 | Out of current; closed now when nobody holds it, draining otherwise. |
| ModelPool.Pool.RetireVariantsLocked | internal/pool/pool.go:364-370 | The walk over current retires exactly the variants of the model, each once, in whatever order the map gives them. |
| ModelPool.Pool.Pin | internal/pool/pool.go:373-382 | Pin changes the pin of the current entry only. |
| ModelPool.Pool.Sweep | internal/pool/pool.go:385-403 | Sweep removes exactly the idle entries whose time is up and counts them, whatever the order of the walk. |
| ModelPool.Pool.EvictLocked | internal/pool/pool.go:408-418 | The loop terminates and its victims are an eviction run of the protocol. |
| ModelPool.Pool.OverLimitLocked | internal/pool/pool.go:420-429 | True exactly over the count or the memory limit. |
| ModelPool.Pool.LruVictimLocked | internal/pool/pool.go:431-453 | The first evictable entry in the order, or null exactly when there is none. |
| ModelPool.Pool.BeginClose | internal/pool/pool.go:524-534 | Close's first section stops new acquisitions. |
| ModelPool.Pool.EndClose | internal/pool/pool.go:535-556 | Close's last section closes what nobody holds, abandons the rest, and empties the pool. |
| GovernorProtocol.StepInv | internal/pool/governor.go:36-79 | Every step of Acquire, Release, cancellation and the cancellation callback keeps the invariant; the clamp below zero never fires for matched calls. |
| GovernorProtocol.NoLostWakeUps | internal/pool/governor.go:44-62 | In every run used is the sum of the held weights and within capacity; who sleeps does not fit; who sleeps cancelled has its broadcast still coming; with nothing held nobody sleeps. |
| GovernorProtocol.ReleaseWakesEverybody | internal/pool/governor.go:72-78 | After a Release or a callback nobody is left in the notify list. |
| GovernorProtocol.WhatWasTakenComesBack | internal/pool/governor.go:36-79 | Whatever happens between, a call that acquired with n can release with the same n, and exactly the clamped weight it took comes back. |
| CpuGovernor.Governor.Begin | internal/pool/governor.go:36-50 | Acquire up to its lock: the weight becomes at least one and at most the capacity, and the callback is set, or started at once for a context that is over. |
| CpuGovernor.Governor.TestRoom | internal/pool/governor.go:54-60 | One turn of the loop takes the weight when there is room, gives up when there is none and the context is over, and otherwise waits. |
| CpuGovernor.Governor.Wait | internal/pool/governor.go:58 | Waiting enters the notify list and gives up the lock in one step. |
| CpuGovernor.Governor.Wake | internal/pool/governor.go:45-49 | The callback wakes every sleeper. |
| CpuGovernor.Governor.Release | internal/pool/governor.go:65-79 | Exactly the clamped weight comes back and everybody asleep is woken. |
| HubProtocol.StreamsHaveNoGap | internal/job/hub.go:113-152 | In every run a subscriber has been sent consecutive numbers from the first retained one past after, no gap and no repeat, the very events published under them; an open one has everything so far; a channel is closed at most once. |
| HubProtocol.RingIsTheTail | internal/job/hub.go:66-73 | The ring is always the last events published, as many as it has room for, and a live topic's last event is not terminal. |
| HubProtocol.ReplayIsWhatIsRetained | internal/job/hub.go:127-139 | A new subscriber is sent exactly the retained events past after, and continues without a gap from a number still retained. |
| HubProtocol.ReplayFits | internal/job/hub.go:127-138 | The replay never overflows a new channel, so its default branch loses nothing. |
| HubProtocol.PastAfterIff | internal/job/hub.go:113-133 | A subscriber sees only numbers past after if and only if after is not ahead of the topic it subscribed to. |
| HubProtocol.AheadOfTheTopic | internal/job/hub.go:55-64 | A topic made anew under the same id: a client that asks to continue after event 2 is sent event 2. |
| HubProtocol.ClosedIsSilent | internal/job/hub.go:75-92 | Nothing is sent on a channel once it is closed, whatever happens next. |
| HubOutcomes.CancelEndsTheSubscription | internal/job/hub.go:141-150 | After the cancel function, in any run, the channel is closed once and in no topic's list, and nothing more is sent on it whatever happens next. |
| HubOutcomes.CancelTouchesNobodyElse | internal/job/hub.go:141-150 | Every other channel and subscription, and every topic's numbers and ring, stay. |
| HubOutcomes.PublishReachesTheSubscribers | internal/job/hub.go:66-92 | Every open subscriber of the job gets the event under the next number, or is closed for want of room; a terminal one closes all; nobody else hears of it. |
| HubOutcomes.PublishKeepsTheTopic | internal/job/hub.go:55-73 | The topic goes on with the event last in its ring, or ends with a terminal one; other topics stay. |
| HubOutcomes.SubscribeJoins | internal/job/hub.go:118-139 | A subscriber joins its topic with an open channel and nobody else is touched. |
| HubOutcomes.ReceiveTakesTheOldest | internal/job/hub.go:113-117 | A reader takes the oldest event not yet read. |
| HubProtocol.TerminalEndsTheTopic | internal/job/hub.go:87-92 | A terminal event is the last of its topic and closes every subscriber. |
| HubProtocol.PublishInv | internal/job/hub.go:51-93 | Publish keeps the invariant of ring, streams and links. |
| HubProtocol.UnsubscribeInv | internal/job/hub.go:141-150 | The cancel function keeps it too, also when its topic was replaced under the same id. |
| JobHub.Hub.Publish | internal/job/hub.go:51-93 | Publish on the objects is Publish of the protocol. |
| JobHub.Hub.SendAll | internal/job/hub.go:75-85 | Every subscriber with room gets the event; one without is dropped and closed; nobody else changes. |
| JobHub.Hub.StageCopy | internal/job/hub.go:98-110 | Stage publishes a copy of the last event of a running job only. |
| JobHub.Hub.Subscribe | internal/job/hub.go:118-139 | No channel for a job that is not tracked; otherwise the protocol's subscription. |
| JobHub.Hub.Refill | internal/job/hub.go:130-138 | The replay loop with its non-blocking send. |
| JobHub.Hub.Cancel | internal/job/hub.go:141-150 | The cancel function is the protocol's Unsubscribe. |
| QueueProtocol.AdmissionIsExact | internal/job/queue.go:210-263 | In every run admitted counts exactly the submissions between reserve and enqueue or unreserve, the line is in order, no worker sleeps while there is work, and every item waits, was taken once or was cancelled. |
| QueueProtocol.QueueIsBounded | cmd/nanoasr/wire.go:259-284 | When start-up resumes before it serves, waiting and admitted together never exceed the size, or what was resumed if that was more, at any step. |
| QueueProtocol.WithinExactlyWhenResumesHaveRoom | internal/job/queue.go:214-263 | In any run, in whatever order, waiting and admitted together stay within the size, or what was resumed if that was more, at every step if and only if each resume finds room for one more under the bound it makes. |
| QueueProtocol.LateResumeBreaksTheBound | internal/job/queue.go:229-239 | The condition is not idle: a reservation and then a resume, an order start-up rules out, passes the bound. |
| QueueProtocol.StepInv | internal/job/queue.go:214-330 | Every step keeps the invariant, and the guards of unreserve and enqueue against going negative never fire. |
| QueueOutcomes.CancelTakesTheOneAsked | internal/job/queue.go:439-451 | A waiting job that is cancelled is the first under its id: it alone leaves the line, and the others stay in order. |
| QueueOutcomes.CancelNeedsOneWaiting | internal/job/queue.go:439-451 | A job can be cancelled from the line exactly when one under its id waits. |
| QueueOutcomes.EnqueueJoinsTheLine | internal/job/queue.go:251-275 | An item joins behind whoever has a higher priority, or the same and is as old, and before everybody else; the others keep their order. |
| QueueOutcomes.EnqueueUsesTheSlot | internal/job/queue.go:251-263 | Its reservation is used up and every sleeper is woken. |
| QueueOutcomes.TakeGivesTheHead | internal/job/queue.go:326-330 | A worker takes the head of the line and runs it. |
| QueueOutcomes.ReserveTakesASlot | internal/job/queue.go:214-239 | A slot is promised exactly while the queue accepts and has one neither taken nor promised; a resume is never refused. |
| QueueOutcomes.UnreserveGivesItBack | internal/job/queue.go:242-248 | A failed submission gives back its slot and nothing else. |
| QueueOutcomes.DoneFreesTheWorker | internal/job/queue.go:345-352 | A finished worker is free; its job leaves running unless it was cancelled on the way. |
| QueueOutcomes.StoppedForGood | internal/job/queue.go:313-330 | Once the queue stops, in any run, nothing is reserved or taken and nobody sleeps. |
| QueueOutcomes.StopStops | internal/job/queue.go:553-561 | Stop stops the queue and leaves the line, the running and the reservations as they are. |
| QueueProtocol.TakesTheFirst | internal/job/queue.go:326-329 | What a worker takes is behind nobody left waiting: highest priority, then oldest. |
| QueueProtocol.PositionIsTheTurn | internal/job/queue.go:277-287 | A job at position p is what the p-th worker from now takes, and nobody ahead of it is behind it in order. |
| QueueProtocol.ArrivalKeepsOrder | internal/job/queue.go:251-263 | A later arrival leaves everything ahead of a job it does not precede exactly where it was. |
| StableSort.SortSorts | internal/job/queue.go:265-275 | The sort yields a sorted permutation. |
| StableSort.SortIsStable | internal/job/queue.go:268-275 | Items of one priority and age keep their order. |
| StableSort.SortAfterAppend | internal/job/queue.go:256-257 | Appending to a sorted line and sorting it is one insertion. |
| JobQueue.Queue.Reserve | internal/job/queue.go:214-227 | Refused exactly when draining, or when the waiting and the promised fill the size. |
| JobQueue.Queue.Enqueue | internal/job/queue.go:251-263 | A reservation becomes a place in the line and wakes everybody. |
| JobQueue.Queue.Unreserve | internal/job/queue.go:242-248 | A slot comes back. |
| JobQueue.Queue.Position | internal/job/queue.go:278-287 | The one-based place of the first item under the id, or zero. |
| JobQueue.Queue.Next | internal/job/queue.go:313-330 | One turn: sleep with no work, leave when stopping, or take the head into running. |
| JobQueue.Queue.CancelWaiting | internal/job/queue.go:439-451 | A waiting job leaves the line and nobody else moves; otherwise nothing changes. |
| JobQueue.Queue.Recover | internal/job/queue.go:490-530 | With no answer from the store nothing happens; otherwise every stored job whose audio survived is back in line whatever the size, live names exactly those, and the others, in order, are failed. |
| JobQueue.LiveIsWhatSurvived | internal/job/queue.go:500-512 | An id is live exactly when a stored job of that id has its audio. |
| JobQueue.SurvivorsKeepTheirPlace | internal/job/queue.go:500-519 | Who is back in line is a stored job with its audio under its own priority and creation time, and every other is failed. |
| IsolationRuns.BusyIsOwnedByExactlyOne | internal/isolation/isolation.go:239-291 | In every run, crashes and restarts at any step included, a session is busy exactly when somebody owns it (its creator copying, one pending task, one worker not yet at rest, one job follower), and then nobody else does. |
| IsolationRuns.UnfinishedTranscriptIsWorkedOn | internal/isolation/transcript.go:26-76 | An unfinished transcript exists only on a busy session, in memory and in every saved copy, and its owner is on the way to finishing it. |
| IsolationRuns.RestartSettlesEverything | internal/isolation/store.go:117-187 | After any run a restored session has no unfinished transcript, is busy only as a re-queued analysis with its upload still there, keeps its voices, and keeps exactly the tracks whose files exist. |
| IsolationRuns.TracksAndLimits | internal/isolation/isolation.go:293-312 | Tracks stay one a voice and in the order of the voices; open sessions never exceed their limit, nor kept ones theirs unless a restart brought back more. |
| IsolationRuns.IsolatingNothingWouldStrand | internal/isolation/work.go:235-238 | A plain extraction of no voice would leave its session busy with no owner; no such task is ever queued. |
| IsolationOutcomes.ExtractMakesThatTrack | internal/isolation/isolation.go:530-563 | In every run without a crash, when the task of an accepted Extract ends on a live session the voice asked for has a track and every other voice has one exactly when it had one before. |
| IsolationOutcomes.ExtractAllMakesTheMissing | internal/isolation/isolation.go:565-616 | Likewise, isolating or transcribing all ends with the tracks there were and one for every voice with a sample. |
| IsolationOutcomes.StartQueuesTheTask | internal/isolation/isolation.go:621-642 | The task is last in line on a queued session, and a succeeded transcript is stale exactly when a track it was made from goes. |
| IsolationOutcomes.ExtractIsAllowedWhen | internal/isolation/isolation.go:514-557 | A voice may be chosen exactly on a session at rest with voices to choose from, when it is one of them and its sample is there or placed. |
| IsolationOutcomes.AllIsAllowedWhen | internal/isolation/isolation.go:565-616 | All may be isolated exactly when one is missing, and transcribed when one is missing or any has its track. |
| IsolationOutcomes.RoomIsAllowedWhen | internal/isolation/isolation.go:296-312 | A session is opened exactly below the limit of its kind; one that is kept or at work never expires. |
| IsolationOutcomes.CreateOpens | internal/isolation/isolation.go:246-276 | Create opens an empty queued session and changes no other. |
| IsolationOutcomes.CopyDoneQueuesTheAnalysis | internal/isolation/isolation.go:285-290 | The analysis is last in line when the copy is done. |
| IsolationOutcomes.KeepKeeps | internal/isolation/isolation.go:482-510 | Keeping saves the session; releasing takes its copy away. |
| IsolationOutcomes.DropForgets | internal/isolation/isolation.go:891-910 | A dropped session, its pending tasks and its copy are gone, and nobody else's. |
| IsolationOutcomes.WorkersTakeTheOldest | internal/isolation/work.go:28-54 | A worker takes the task that waited longest. |
| IsolationOutcomes.BeginNeedsTheSession | internal/isolation/work.go:56-75 | It begins when the session is still there and drops the task otherwise. |
| IsolationOutcomes.StageShows | internal/isolation/work.go:123-137 | The session shows that it is analysed, or extracted when there is something to extract. |
| IsolationOutcomes.VoicesAreToBeChosen | internal/isolation/work.go:139-233 | The analysis gives the session the voices it found, to be chosen from. |
| IsolationOutcomes.ExtractionEnds | internal/isolation/work.go:235-309 | A plain extraction leaves the session done; one for a transcription leaves it as it is, for the jobs. |
| IsolationOutcomes.ErrorsFailTheSession | internal/isolation/work.go:76-104 | After an error the session has failed, and its transcript with it when that was what failed. |
| IsolationOutcomes.JobsTakeOver | internal/isolation/transcript.go:62-76 | The session transcribes with a running transcript and a follower. |
| IsolationOutcomes.JobsDecideTheTranscript | internal/isolation/transcript.go:167-194 | The transcript has succeeded exactly when the jobs did, and the session is done either way. |
| IsolationOutcomes.JobsDecisionIsSaved | internal/isolation/transcript.go:167-194 | A kept session is saved as it then is, and nobody else's copy changes. |
| IsolationOutcomes.RestoredComesToRest | internal/isolation/store.go:157-187 | A restored session keeps its voices and the tracks with files, and comes to rest in exactly the status its voices, tracks and upload call for, an unfinished transcript failed. |
| IsolationOutcomes.RestoreBringsBack | internal/isolation/store.go:166-187 | Restoring brings back one session and its analysis when that is all there was of it. |
| IsolationOutcomes.CrashLeavesTheDisk | internal/isolation/store.go:85-115 | Nothing but the saved copies outlives a crash. |
| IsolationRuns.StepInv | internal/isolation/work.go:27-104 | Every request, worker step, follower step, save that may fail, crash and restore keeps the invariant. |
| IsolationRuns.RequeueInv | internal/isolation/isolation.go:621-630 | startLocked hands an idle session to its new task and to nobody else. |
| IsolationRuns.DropInv | internal/isolation/isolation.go:891-910 | dropLocked takes the session and its pending tasks away and keeps the invariant for everybody else. |
| IsolationRuns.LetGoInv | internal/isolation/work.go:217-229 | A worker that lets go leaves the session at rest with its transcript finished. |
| IsolationRuns.SubmitJobsInv | internal/isolation/transcript.go:62-76 | Ownership passes from the worker to the follower in one step. |
| IsolationRuns.EndJobsInv | internal/isolation/transcript.go:167-194 | The follower ends with the session done, its transcript finished, and no owner left. |
| IsolationRuns.CrashInv | internal/isolation/store.go:82-115 | A crash leaves nobody owning anything. |
| IsolationRuns.ReloadInv | internal/isolation/store.go:166-186 | Restoring a saved copy keeps the invariant, whatever else was restored before it. |
| TrackOrder.PutTrackOrdered | internal/isolation/work.go:312-328 | A new track replaces the voice's previous one; tracks stay ordered and exactly that track is new. |
| TrackOrder.KeptOrdered | internal/isolation/store.go:157-164 | Dropping tracks without a file keeps exactly the others, in order. |
| IsolationService.Service.Admit | internal/isolation/isolation.go:246-276 | Create's first section is refused exactly when keeping is not allowed or the limit of its kind is reached. |
| IsolationService.Service.CopyDone | internal/isolation/isolation.go:285-290 | The copy is done: the analysis is queued, also for a session deleted meanwhile, which the worker will ignore. |
| IsolationService.Service.CopyFailed | internal/isolation/isolation.go:278-283 | A failed copy drops the session. |
| IsolationService.Service.Update | internal/isolation/isolation.go:482-510 | Keeping and releasing obey the limit of the other kind; a released session loses its saved copy. |
| IsolationService.Service.IdleLocked | internal/isolation/isolation.go:514-528 | Free exactly when awaiting a selection, done, or failed with its voices known. |
| IsolationService.Service.MissingLocked | internal/isolation/isolation.go:593-616 | The voices with a sample and no track, in order; an error exactly when there are none and no track either. |
| IsolationService.Service.Extract | internal/isolation/isolation.go:530-563 | Accepted exactly when the session is live and free, the voice known, and a sample there, or placed with three seconds of the recording after it; refusals change nothing. |
| IsolationService.Service.ExtractAll | internal/isolation/isolation.go:565-588 | Starts the missing voices, and does nothing when none is missing. |
| IsolationService.Service.TranscribeSpeakers | internal/isolation/transcript.go:26-57 | The transcript is queued and the missing voices started, as one event. |
| IsolationService.Service.DropTrackLocked | internal/isolation/isolation.go:632-642 | Only the voice's track goes, and a succeeded transcript becomes stale. |
| IsolationService.Service.DropLocked | internal/isolation/isolation.go:891-910 | The session, its pending tasks and its files go, once. |
| IsolationService.Service.ExpireOne | internal/isolation/isolation.go:943-956 | Exactly a session that is neither kept nor busy and whose time is past expires. |
| IsolationService.Service.RoomLocked | internal/isolation/isolation.go:296-312 | The count of sessions of the kind against its limit. |
| IsolationService.Service.Next | internal/isolation/work.go:28-54 | The oldest pending task goes to the worker. |
| IsolationService.Service.Begin | internal/isolation/work.go:57-66 | A task of a session that is gone is dropped. |
| IsolationService.Service.MakeTrack | internal/isolation/work.go:286-301 | A track is published as soon as it is made, unless its session is gone. |
| IsolationService.Service.FindVoices | internal/isolation/work.go:217-229 | The analysis ends with the voices and the session at rest in one section. |
| IsolationService.Service.EndExtract | internal/isolation/work.go:235-309 | A plain extraction ends done; one for a transcription keeps the session busy. |
| IsolationService.Service.LeaveFailed | internal/isolation/work.go:87-103 | After an error the session has failed and a transcript in work with it. |
| IsolationService.Service.HandToJobs | internal/isolation/work.go:76-84 | The tracks are made and the jobs take over. |
| IsolationService.Service.FollowEnd | internal/isolation/transcript.go:167-194 | The session is done whatever became of its transcript. |
| IsolationService.Service.SaveLocked | internal/isolation/store.go:51-80 | A kept, live session is written as it is; nothing else is. |
| IsolationService.Service.Restore | internal/isolation/store.go:117-187 | A saved copy becomes a session field by field and its analysis pending again if that was all that was left. |
| IsolationService.Service.Load | internal/isolation/store.go:85-115 | Every readable copy is restored once, in the order of the directory; one that cannot be read is left alone, and everything else there is removed. |
| Resample.Resampler.Run | internal/audio/resample.go:104-138 | For every input and positive rate pair each output sample equals the direct windowed convolution over the whole input, with every index in bounds, and there are OutputLen of them. |
| FilterBank.OutputLenCounts | internal/audio/resample.go:94-102 | OutputLen counts exactly the output instants strictly inside the input's duration. |
| FilterBank.WindowIsEnough | internal/audio/resample.go:115-119 | The taps of a phase, moved by its unit, are the filter at every sample of that phase, and outside them the filter is zero. |
| FilterBank.OffsetRepeats | internal/audio/resample.go:34-37 | One unit later in input and output the time offset is the same. |
| FilterBank.OutsideIsZero | internal/audio/resample.go:64-66 | Beyond the first and last tap the window is zero. |
| FilterBank.WindowIsThere | internal/audio/resample.go:69 | The tap count of a phase is never negative. |
| FilterBank.CutoffIsBelowHalfOfBoth | internal/audio/resample.go:19-64 | The cutoff is 0.495 of the lower rate, so below half of both, and the window holds six zero crossings a side. |
| FilterBank.WeightIs | internal/audio/resample.go:66-94 | An input sample counts with the kernel at its distance in time over the input rate, and not at all beyond the window. |
| FilterBank.OneSampleAlone | internal/audio/resample.go:104-137 | The direct convolution of one sample alone is its weight times itself. |
| FilterBank.SignalsAdd | internal/audio/resample.go:104-137 | And of a sum the sum: so every output is the weighted sum over all input samples. |
| Resample.Resampler.constructor | internal/audio/resample.go:44-77 | Every phase of the bank holds the direct filter's weights. |
| Resample.Resampler.Convolve | internal/audio/resample.go:121-135 | Clipping the taps to the input leaves out nothing but zeros. |
| Resample.Gcd | internal/audio/resample.go:150-158 | The greatest common divisor: it divides both, every common divisor divides it, and of two zeros it is one. |
| Resample.Convert | internal/audio/resample.go:143-148 | Equal rates or an empty input pass through; otherwise the convolution. |
| SpanVectors.Apply | internal/postproc/postproc.go:30-45 | A chain fails exactly when a stage fails or does not account for its words; otherwise one vector, an entry of at least one for every word and summing to the input, whose every boundary leads back through all stages. |
| SpanVectors.FirstStageFirst | internal/postproc/postproc.go:30-52 | The stages run in the order of the chain, each on what the one before made, and one that fails or does not add up ends it. |
| SpanVectors.CheckSpans | internal/postproc/postproc.go:53-79 | Accepts exactly the vectors that have an entry a word, each at least one, and add up; no vector means as many words. |
| SpanVectors.AccountsExactly | internal/postproc/postproc.go:54-77 | What passes is exactly a vector of as many entries as words, each at least one, that adds up, or none for as many words out as in. |
| SpanVectors.ComposeSpans | internal/postproc/postproc.go:84-102 | The composed vector's boundaries go back through the inner and then the outer vector, absent ones included. |
| SpanVectors.Fold | internal/postproc/postproc.go:91-101 | The cursor never runs off the outer vector. |
| SpanVectors.ComposedCovers | internal/postproc/postproc.go:81-83 | Composition of vectors is a vector over the words the pipeline began with. |
| Scatter.Scatter | internal/postproc/segments.go:59-105 | Every rewritten word is placed once, in order, in the segment that owned its first original word; emptied segments go; the rest are numbered, hold their words and do not overlap. |
| Scatter.Distribute | internal/postproc/segments.go:60-84 | The walk of segments and words puts each word where its first input was. |
| Scatter.EveryWordOnce | internal/postproc/segments.go:52-58 | The buckets one after the other are the words in order, none lost and none twice. |
| Scatter.Flatten | internal/postproc/segments.go:38-50 | All words in order, and how many each segment has. |
| Scatter.LayoutCounts | internal/postproc/segments.go:36-44 | The layout adds up to the words. |
| Scatter.Retime | internal/postproc/segments.go:110-120 | Edges move only outwards, and only to a word's own edge. |
| Scatter.EnforceOrder | internal/postproc/segments.go:124-133 | In place, each segment is pushed behind the one before it. |
| Scatter.NoOverlap | internal/postproc/segments.go:122-133 | Afterwards no segment overlaps any later one. |
| Scatter.PushedKeeps | internal/postproc/segments.go:122-133 | A segment that was in line stays as it was, and words never change. |
| Scatter.PushedIsTheLeast | internal/postproc/segments.go:122-133 | No segment is moved further than it has to be: any other times that overlap nowhere are as late or later. |
| Scatter.OwnerHasTheWord | internal/postproc/segments.go:59-84 | The segment that owns an original word holds it. |
| Scatter.WordIsWithItsFirst | internal/postproc/segments.go:59-84 | A rewritten word is in the segment of the first word it replaces and in no other. |
| Scatter.DressedTakesIn | internal/postproc/segments.go:85-120 | A rebuilt segment takes in its words' times and its own and no more. |
| Words.AverageIsOfTheSure | internal/postproc/segments.go:135-147 | The average confidence is over the words that have one: zero without any, and otherwise between the least and the greatest. |
| Words.TextJoins | internal/words/words.go:255-261 | A text is its words with a space between any two. |
| Scatter.Apply | internal/postproc/segments.go:19-34 | Nothing to do leaves the segments alone; a failing chain fails; otherwise the chain's words, scattered. |
| Punctuation.Reattach | internal/postproc/punct.go:98-147 | Succeeds exactly when each word has a letter or digit and the text begins with the words' letters; then words keep number, times and letters and carry the consumed text without its spaces, each the stretch between the end of the word before and its own end. |
| Punctuation.CutsAreDetermined | internal/postproc/punct.go:98-147 | Those stretches, and so the words, are determined by the text: no other reading of it meets what Reattach promises. |
| Punctuation.RespellingLinesUp | internal/postproc/punct.go:88-93 | However the model respells what it was given, with marks and spaces put in or taken out and letters in another case, it lines up if and only if each word has a letter or digit. |
| Letters.RespelledHasTheLetters | internal/postproc/punct.go:113-132 | One text is a respelling of another exactly when the letters and digits are the same, in order, case aside. |
| Punctuation.NextLinesUp | internal/postproc/punct.go:120-130 | If the whole lines up so does the next word with what is ahead. |
| Punctuation.MatchWord | internal/postproc/punct.go:105-137 | One word matches exactly when its letters come next. |
| Punctuation.SkipTo | internal/postproc/punct.go:113-132 | The walk to a wanted letter passes spaces and marks only. |
| Punctuation.TakeMarks | internal/postproc/punct.go:139-144 | Trailing marks belong to the word before them. |
| Punctuation.WordsTakeTheirMarks | internal/postproc/punct.go:139-144 | Every word ends before a letter, digit, space or the end, and has none of these behind its last letter. |
| Punctuation.EveryWordIsInOneChunk | internal/postproc/punct.go:49-78 | Every word is in one chunk of two hundred, heard with the twenty words before it or what there is. |
| Punctuation.Apply | internal/postproc/punct.go:49-78 | Unless the model fails, as many words with their times and letters, each chunk the model's or its own. |
| TokenBucket.WindowIsBounded | internal/httpx/ratelimit.go:50-82 | Over any run of requests with a clock that does not go back, the number allowed in any window is at most twice the rate plus the rate times the window. |
| TokenBucket.TokensStayInRange | internal/httpx/ratelimit.go:69-80 | Tokens stay within zero and the capacity, whatever the clock does. |
| TokenBucket.RetryAfterTheWait | internal/httpx/ratelimit.go:74-78 | A retry after the advised wait with nothing in between is allowed if and only if the rate is at least one half. |
| TokenBucket.TooSlowForAnything | internal/httpx/ratelimit.go:57-74 | Below half a request a second nothing is ever allowed. |
| TokenRefusals.RefusedExactlyWhenItWouldBreakTheBound | internal/httpx/ratelimit.go:52-82 | In any run with a forward clock a request is refused exactly when, with it, more would be allowed since some request than twice the rate and the rate times the time since. |
| TokenRefusals.BurstIsTwiceTheRate | internal/httpx/ratelimit.go:57-67 | Of any number of requests at one instant a new key is allowed twice its rate, rounded down, and no fewer. |
| TokenRefusals.WaitIsTheLeast | internal/httpx/ratelimit.go:74-78 | The advised wait is the least in whole milliseconds: a retry a millisecond earlier is refused. |
| TokenBucket.AnyClockIsBounded | internal/httpx/ratelimit.go:52-82 | Whatever the clock does, the window bound holds of time measured as the highest reading so far, which is the reading itself when the clock does not go back. |
| TokenBucket.OnlyHighsCount | internal/httpx/ratelimit.go:69-72 | A request is answered as if the clock read the highest it ever read. |
| TokenBucket.BackwardsClockBreaksTheBound | internal/httpx/ratelimit.go:69-72 | Why the highest reading: measured by the readings themselves a window can hold more once the clock goes back, as one run shows. |
| RateLimiter.RateLimiter.Allow | internal/httpx/ratelimit.go:52-82 | The bucket of the key moves by one step, the answer and the wait are its own, and other keys stay. |
| RateLimiter.RateLimiter.Forget | internal/httpx/ratelimit.go:86-90 | Only the key's bucket goes. |
| SampleStream.ReadFloat32LE | internal/audio/ffmpeg.go:255-316 | The whole stream four bytes at a time, wherever the reads cut it; refused exactly when it holds more samples than the limit. |
| SampleStream.LimitIsBoth | internal/audio/ffmpeg.go:256-266 | The limit refuses exactly what is longer than a positive duration or larger than a positive byte cap. |
| SampleStream.ReadUpTo | internal/audio/ffmpeg.go:274-315 | The loop over the reads, its carried bytes and its early refusal, decodes as the whole stream at once would. |
| SampleStream.CutDoesNotMatter | internal/audio/ffmpeg.go:282-302 | Two readers of the same bytes and end decode the same, and refuse by the byte count alone. |
| SampleStream.Take | internal/audio/ffmpeg.go:280-302 | After a read the samples are the whole ones of everything seen, and the carry the bytes after them. |
| SampleStream.DecodePCM16LE | internal/audio/raw.go:20-30 | Every whole sample, and the trailing byte of an odd buffer. |
| SampleStream.SampleAtFour | internal/audio/ffmpeg.go:295-301 | Sample i is bytes 4i to 4i + 3 of the stream. |
| SampleStream.SampleAtTwo | internal/audio/raw.go:23-25 | Of sixteen bits, sample i is bytes 2i and 2i + 1. |
| SampleStream.SixteenBitSample | internal/audio/raw.go:23-25 | Sixteen-bit samples are two's complement, lowest byte first, over half their range. |
| SampleStream.DecodeFrames | internal/api/realtime/realtime.go:378-385 | Frames decoded with the byte carried over give the samples of all frames at once. |
| WaveRoundTrip.WriteAndRead | internal/audio/wavenc.go:47-55 | Written and read back: the same rate, as many samples, each within one and a half steps. |
| WaveRoundTrip.HeadRoundTrip | internal/audio/wav.go:97-159 | What WriteWAV writes is read with its format and length, and other chunks before the data, padded when odd, change nothing. |
| WaveRoundTrip.IgnoredChunk | internal/audio/wav.go:146-157 | A chunk that is neither format nor data is skipped with its pad byte. |
| WaveRoundTrip.BothAreNeeded | internal/audio/wav.go:97-159 | Without a format before the data, or without a data chunk, a file is refused whatever else it holds. |
| WaveRoundTrip.TheRestDoesNotMatter | internal/audio/wav.go:259-262 | What stands behind the data chunk does not matter. |
| WaveRoundTrip.SamplesRoundTrip | internal/audio/wav.go:238-315 | With no limit the samples come back, each within one and a half steps. |
| WaveRoundTrip.SampleReadsBack | internal/audio/wavenc.go:39-43 | A sample in range is encoded to within one and a half steps. |
| WaveRoundTrip.LoudIsClipped | internal/audio/wavenc.go:35-43 | Every sample out of range is clipped, not wrapped: above to the last step, below to the nearer of the first two. |
| WaveRoundTrip.FmtReadsBack | internal/audio/wavenc.go:23-29 | The written format chunk is a mono 16-bit PCM format. |
| WaveWriter.WavHeader | internal/audio/wavenc.go:16-33 | The canonical header, range by range. |
| WaveWriter.EncodePCM16 | internal/audio/wavenc.go:37-45 | Sample i is bytes 2i and 2i + 1, little-endian, and there are no others. |
| WaveReader.ReadHeader | internal/audio/wav.go:97-159 | The chunk walk, its errors included. |
| WaveReader.ParseFmt | internal/audio/wav.go:161-207 | An accepted format has 1 to 64 channels, a rate in 1000 to 384000, a supported width and a stride that matches. |
| WaveReader.HeadIsSound | internal/audio/wav.go:97-159 | A header that is read carries an accepted format. |
| WaveReader.ReadSamples | internal/audio/wav.go:238-315 | Every whole frame of the data chunk, one sample a frame in every track; refused exactly when the stated length or the frames there cross a limit, or there is no frame, and for the limit that the stated length, or else the first block too many, crosses. |
| WaveReader.RefusedForOne | internal/audio/wav.go:276-307 | There is one block at which a reading that is too long stops, so one error it stops with. |
| WaveReader.SmallEnoughIs | internal/audio/audio.go:140-150 | The memory check passes exactly what stays, at four bytes a sample, within a positive cap. |
| WaveReader.AddFrame | internal/audio/wav.go:346-364 | A frame adds one sample to every track: its channel's, the first channel's, or the mean. |
| WaveDecode.Decode | internal/audio/wav.go:53-89 | A file is refused with the error of its header, its channel count or its samples; otherwise each track is the direct convolution of its channel at the target rate. |
| WaveDecode.SplitChannels | internal/audio/audio.go:127-138 | One track unless splitting; refused exactly when splitting more channels than a positive cap. |
| WaveReader.SampleWidth | internal/audio/wav.go:209-229 | The bytes of the stated bits, refused exactly for a width the format does not have. |
| WaveFormats.FormatReadsBack | internal/audio/wav.go:161-207 | Every acceptable format reads back from its chunk, field by field, also with the stride left out. |
| WaveFormats.ExtensibleReadsBack | internal/audio/wav.go:170-177 | An extensible chunk is read under the tag in its extension. |
| WaveFormats.EightBits | internal/audio/wav.go:377-379 | Eight-bit samples are offset from 128. |
| WaveFormats.SixteenBits | internal/audio/wav.go:380-381 | Sixteen-bit samples are two's complement, lowest byte first, over half their range. |
| WaveFormats.TwentyFourBits | internal/audio/wav.go:382-387 | Twenty-four-bit samples likewise. |
| WaveFormats.ThirtyTwoBits | internal/audio/wav.go:388-389 | Thirty-two-bit samples likewise. |
| WaveFormats.OtherSamples | internal/audio/wav.go:366-373 | Companded and float samples go through their own tables. |
| WaveFormats.FrameIsWorth | internal/audio/wav.go:346-364 | An output is its channel, the first channel, or for two channels their mean. |
| WaveFormats.DownmixIsBetween | internal/audio/wav.go:355-364 | A downmixed sample is between the least and the greatest channel. |
| WaveFormats.MaxFramesIs | internal/audio/wav.go:244-247 | The frame limit refuses exactly what is longer than a positive duration. |
| WaveFormats.HeaderStates | internal/audio/wavenc.go:16-33 | The header states the length of the file and of the data, cut off where they no longer fit, and the bytes a second and a frame. |
| SpeakerSplit.Split | internal/diarize/split.go:57-66 | The words stay, in order; every segment becomes pieces that keep its outer edges and, where there are several and times do not go back, are turns; pieces are numbered. |
| SpeakerSplit.SplitOne | internal/diarize/split.go:68-103 | One segment is kept whole or cut into a child a run. |
| SpeakerSplit.PiecesCover | internal/diarize/split.go:79-102 | The pieces hold the segment's words, begin where it began and end where it ended. |
| SpeakerRuns.RunsAreTurns | internal/diarize/split.go:109-146 | The runs partition the words; with several and times that do not go back, each is long and wordy enough to be a turn. |
| SpeakerRuns.TurnsAreKept | internal/diarize/split.go:119-134 | When every stretch of one speaker is a turn, the runs are exactly those stretches: nothing else is absorbed. |
| SpeakerRuns.GroupedCuts | internal/diarize/split.go:110-117 | The first grouping is a partition that cuts exactly where the speaker changes. |
| SpeakerRuns.SpeakerRuns | internal/diarize/split.go:109-146 | The whole function, compaction over its own input included, gives what grouping, absorbing into a new list and joining the first run would. |
| SpeakerRuns.Compact | internal/diarize/split.go:122-134 | Compacting in place over the array being read gives what absorbing into a new list would. |
| SpeakerRuns.AbsorbPartitions | internal/diarize/split.go:119-134 | Absorbing keeps a partition. |
| SpeakerRuns.AbsorbedAreTurns | internal/diarize/split.go:119-134 | Every run but the first is a turn. |
| SpeakerRuns.Group | internal/diarize/split.go:110-117 | The loop gives the grouping that GroupedCuts is about. |
| SpeakerSplit.DominantSpeaker | internal/diarize/split.go:170-196 | The speaker with most time; of equals the first by id; none exactly when no word has one. |
| SpeakerSplit.DominantIsOne | internal/diarize/split.go:185-193 | The order in which the map is walked does not matter. |
| SpeakerSplit.LongestSpokenIsDominant | internal/diarize/split.go:170-196 | Who speaks longest by more than a hundredth of a second a word of anybody else is the dominant speaker, and nobody else is. |
| SpeakerSplit.VotesAreTime | internal/diarize/split.go:172-180 | A speaker's votes are the time spoken and a hundredth of a second a word. |
| SpeakerSplit.LessIsLexicographic | internal/diarize/split.go:190 | Ids are compared character by character, a beginning before what it begins. |
| SpeakerSplit.PiecesMeetAtWords | internal/diarize/split.go:82-99 | Inside, a piece begins with its first word and ends with its last. |
| SpeakerSplit.TimesThatGoBackShrinkATurn | internal/diarize/split.go:119-134 | Two turns and one more word whose time goes back: the second of the runs that come out is no turn. |
| SpeakerRuns.RunsAreTurnsWhenTheyLast | internal/diarize/split.go:119-152 | Whatever the times, of several runs each has words enough, so it is a turn exactly when its last word ends half a second after its first begins. |
| SpeakerRuns.RunsAreApart | internal/diarize/split.go:119-143 | Adjacent runs are opened by different speakers, also when the first took in a short opening. |
| SpeakerRuns.OnlyShortStretchesAreLost | internal/diarize/split.go:119-143 | A turn that ends up in a run is its opening speaker's: only stretches too short to be turns are absorbed by another. |
| SpeakerRuns.NobodyHasTurnsOnBothSides | internal/diarize/split.go:119-143 | No speaker has a turn on both sides of a cut, whoever the segments there are called after. |
| SpeakerSplit.SharedExactlyWhenOneLeadsBoth | internal/diarize/split.go:119-121 | Two adjacent children carry one speaker if and only if one speaker holds most of the time in both runs. |
| SpeakerSplit.OpenersThatLeadKeepApart | internal/diarize/split.go:119-121 | Where the opening speaker of each of two adjacent runs holds most of its time, the children carry different speakers. |
| SpeakerSplit.TurnsAreNeverShared | internal/diarize/split.go:119-121 | When every stretch of one speaker is a turn, each child is called after the one speaker in it, and no two adjacent children share one. |
| SpeakerSplit.CalledAfterTheLeader | internal/diarize/split.go:82-94 | A child carries exactly the speaker who holds most of its run. |
| SpeakerSplit.BothAreCalledOne | internal/diarize/split.go:119-121 | It does happen: where a long single word of b and a c are absorbed into a's run before a turn of b, both children are called b. |
| SpeakerSplit.NobodyHasNoVote | internal/diarize/split.go:159-168 | And where the second run is opened by words of nobody and absorbed a word of the first run's speaker, both are called after that one. |
| SentencePieces.ModelReadsBack | internal/asr/bpevocab.go:105-150 | The pieces of an encoded model come back exactly, in order, whatever well-formed fields of wire types 0, 1, 2 and 5 stand between them at either level; refused exactly when a piece has no text. |
| SentencePieces.PieceReadsBack | internal/asr/bpevocab.go:152-197 | A piece message is read as meant, the last of a repeated field counting. |
| SentencePieces.TextIsTheLast | internal/asr/bpevocab.go:160-170 | A piece's text is its last length-delimited field numbered 1. |
| SentencePieces.ScoreIsTheLast | internal/asr/bpevocab.go:171-178 | Its score is its last four-byte field numbered 2. |
| SentencePieces.KeysInTheFile | internal/asr/bpevocab.go:113-131 | In the file a piece and its text stand under the key 10 and a score under 21. |
| ProtoReader.VarintInverts | internal/asr/bpevocab.go:207-216 | protoVarint inverts base-128 encoding for every 64-bit number and consumes exactly its bytes. |
| ProtoReader.GroupsOfSeven | internal/asr/bpevocab.go:207-216 | The encoding is the standard's: seven bits a byte, the lowest first, the top bit on all but the last; 300 is 172, 2. |
| ProtoReader.KeyReadsBack | internal/asr/bpevocab.go:199-205 | A key gives back its field number and wire type. |
| ProtoReader.FieldReadsBack | internal/asr/bpevocab.go:113-147 | A well-formed field of any of the four wire types is read whole and nothing after it is touched. |
| ProtoReader.ProtoVarint | internal/asr/bpevocab.go:207-216 | At most ten bytes, and what does not fit 64 bits is lost. |
| SentencePieces.Pieces | internal/asr/bpevocab.go:105-150 | The loop over the model, its refusals included. |
| SentencePieces.OnePiece | internal/asr/bpevocab.go:152-197 | The loop over a piece, its refusals included. |

## Left out

- The variant budget of the pool (`admitVariant`): it gives the lock away before the placeholder is claimed, so it is not a step invariant.
- The wait between Close's two sections, and a Reload after Close, which does not look at `closed`: nothing is claimed about leaks after Close.
- The pool's registry, downloads, load time-outs and events: a load is any call that later returns or fails.
- JobHub.Hub.StageCopy: covers only the copy; between copy and publication anything may happen, and the protocol publishes any job at all.
- The final status of a job: a cancellation and a worker can both write it, so no claim is made that a terminal status stays.
- The spool, the job store and the notifier: jobs are items, and a stored job either has its audio or not.
- A session's cancel handle: a finishing worker can clear its successor's, so it is no part of the ownership invariant.
- Random ids: an id made for a session, task, job or lease is taken to be one never used before.
- Isolation stages, percentages, warnings, names, watchers and expiry times; merging, leak and echo removal of transcripts; who may see a session.
- IsolationService.Service.ExpireOne: one turn of the sweep; the clock and the session's expiry time are parameters.
- IsolationService.Service.Update: the names a request may give to voices, which have no part in any status.
- IsolationService.Service.Extract: the recording's duration is a parameter, not a field of the session.
- JobQueue.Queue.Recover: the failed jobs are handed back; writing them to the store, which may fail and is then only logged, is not modelled.
- A directory that dropLocked could not remove comes back at the next start; the model allows it, and nothing is claimed about deleted sessions staying deleted.
- Floating point: resampling, rates, confidences and times are exact reals, so rounding to float32 or to two digits is not captured; samples are never NaN.
- Resample.Resampler.constructor: rates are positive, as every caller's are.
- Splitting post-processing by channel (`applyPerChannel`) runs the same chain on each channel and merges by start time.
- The companding tables, the float32 decoder and the recogniser, diarizer and extraction engines are parameters.
- The reader's context checks, which can stop a decode between blocks.
- RateLimiter.RateLimiter.Forget: gives a key a full bucket, so the window bound is about runs without it.
- RetryAfter in whole seconds, HTTP, streaming, authentication, configuration, dialects and the command line.
