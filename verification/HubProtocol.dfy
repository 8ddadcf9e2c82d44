/** The event hub of internal/job/hub.go: one replay ring per active job, and subscribers that may be dropped.
 *
 *  A channel keeps, for the model's sake, everything ever sent on it and the log of the topic it belongs to.
 */
module HubProtocol {
  type ChanId = nat

  datatype Status = Queued | Running | Succeeded | Failed | Canceled | Expired

  datatype Job = Job(id: string, status: Status, stage: string, percent: int)

  datatype Event = Event(seqNo: int, job: Job)

  /** log is bookkeeping: every job published on this topic, so the event numbered n carries log[n - 1]. */
  datatype Topic = Topic(seqNo: nat, ring: seq<Event>, last: Job, subs: set<ChanId>, log: seq<Job>)

  /** buf and closes are the channel; the rest is bookkeeping: what was sent, to whose topic, and the place in the
   *  topic's numbering the subscription starts from. */
  datatype Chan = Chan(buf: seq<Event>, closes: nat, sent: seq<Event>, id: string, after: int, born: nat, log: seq<Job>)

  datatype State = State(ring: nat, topics: map<string, Topic>, chans: map<ChanId, Chan>)

  predicate Terminal(s: Status) {
    s.Succeeded? || s.Failed? || s.Canceled? || s.Expired?
  }

  function Min(a: int, b: int): int { if a < b then a else b }
  function Max(a: int, b: int): int { if a < b then b else a }

  function Init(ring: int): State {
    State(if ring < 1 then 16 else ring, map[], map[])
  }

  /** Room for the replay plus the transitions still to come. */
  function Cap(ring: nat): nat { ring + 8 }

  /** The ring after one more event. */
  function Push(ring: seq<Event>, ev: Event, size: nat): seq<Event> {
    var r := ring + [ev];
    if |r| > size then r[|r| - size..] else r
  }

  /** A send that does not block: into the buffer, or the subscriber is gone. */
  function Send(c: Chan, ev: Event, size: nat): Chan {
    if |c.buf| < Cap(size) then c.(buf := c.buf + [ev], sent := c.sent + [ev], log := c.log + [ev.job])
    else c.(closes := c.closes + 1)
  }

  function Delivered(c: Chan, ev: Event, size: nat): Chan {
    var c' := Send(c, ev, size);
    if Terminal(ev.job.status) && |c.buf| < Cap(size) then c'.(closes := c'.closes + 1) else c'
  }

  function Fresh(j: Job): Topic { Topic(0, [], j, {}, []) }

  function RemoveTopic(topics: map<string, Topic>, id: string): map<string, Topic> {
    map k | k in topics && k != id :: topics[k]
  }

  /** Publish */
  function Publish(s: State, j: Job): State {
    if j.id !in s.topics && Terminal(j.status) then s
    else
      var t := if j.id in s.topics then s.topics[j.id] else Fresh(j);
      var ev := Event(t.seqNo + 1, j);
      var subs := set ch | ch in t.subs && ch in s.chans && |s.chans[ch].buf| < Cap(s.ring);
      var t' := Topic(t.seqNo + 1, Push(t.ring, ev, s.ring), j, subs, t.log + [j]);
      s.(topics := if Terminal(j.status) then RemoveTopic(s.topics, j.id) else s.topics[j.id := t'],
         chans := map ch | ch in s.chans :: if ch in t.subs then Delivered(s.chans[ch], ev, s.ring) else s.chans[ch])
  }

  /** The events of the ring a new subscriber is sent. */
  function Replay(ring: seq<Event>, after: int): seq<Event> {
    if ring == [] then [] else (if ring[0].seqNo <= after then [] else [ring[0]]) + Replay(ring[1..], after)
  }

  /** Replay into a channel of limited room: what does not fit is silently left out. */
  function Fill(buf: seq<Event>, evs: seq<Event>, cap: nat): seq<Event>
    decreases |evs|
  {
    if evs == [] then buf else Fill(if |buf| < cap then buf + [evs[0]] else buf, evs[1..], cap)
  }

  function Subscribe(s: State, id: string, after: int, ch: ChanId): State
    requires id in s.topics
  {
    var t := s.topics[id];
    var buf := Fill([], Replay(t.ring, after), Cap(s.ring));
    s.(topics := s.topics[id := t.(subs := t.subs + {ch})],
       chans := s.chans[ch := Chan(buf, 0, buf, id, after, t.seqNo, t.log)])
  }

  /** The function Subscribe returns. It goes by the job's id, whatever topic that names by now. */
  function Unsubscribe(s: State, id: string, ch: ChanId): State {
    if id in s.topics && ch in s.topics[id].subs && ch in s.chans then
      var t := s.topics[id];
      s.(topics := s.topics[id := t.(subs := t.subs - {ch})],
         chans := s.chans[ch := s.chans[ch].(closes := s.chans[ch].closes + 1)])
    else s
  }

  function Receive(s: State, ch: ChanId): State
    requires ch in s.chans && s.chans[ch].buf != []
  {
    s.(chans := s.chans[ch := s.chans[ch].(buf := s.chans[ch].buf[1..])])
  }

  // ---------------------------------------------------------------- the invariant

  /** The first number the subscriber is owed: the first retained one past after, or, when after is ahead of
   *  the topic, the next one to be published. */
  function First(c: Chan, ring: nat): int {
    Max(Min(c.after, c.born), c.born - Min(c.born, ring)) + 1
  }

  /** The ring is the last events of the log, under consecutive numbers. */
  ghost predicate RingOk(ring: seq<Event>, log: seq<Job>, size: nat) {
    && |ring| == Min(|log|, size)
    && (forall i :: 0 <= i < |ring| ==> ring[i] == Event(|log| - |ring| + 1 + i, log[|log| - |ring| + i]))
  }

  ghost predicate TopicOk(s: State, id: string) {
    id in s.topics ==>
      var t := s.topics[id];
      && t.seqNo == |t.log| && t.seqNo >= 1 && RingOk(t.ring, t.log, s.ring)
      && t.last == t.log[t.seqNo - 1] && !Terminal(t.last.status) && t.last.id == id
      && (forall ch :: ch in t.subs ==> ch in s.chans && s.chans[ch].id == id)
  }

  /** Everything sent is the log, from the first number owed on. */
  ghost predicate SentOk(c: Chan, ring: nat) {
    && |c.log| == First(c, ring) - 1 + |c.sent| && First(c, ring) >= 1
    && (forall i :: 0 <= i < |c.sent| ==>
          c.sent[i] == Event(First(c, ring) + i, c.log[First(c, ring) + i - 1]))
  }

  /** What is buffered is the end of what was sent. */
  ghost predicate StreamOk(c: Chan, ring: nat) {
    && SentOk(c, ring)
    && |c.buf| <= Cap(ring) && |c.buf| <= |c.sent| && c.buf == c.sent[|c.sent| - |c.buf|..]
    && c.closes <= 1
  }

  /** Open exactly while its topic sends to it, and then it has everything. */
  ghost predicate LinkOk(s: State, ch: ChanId)
    requires ch in s.chans
  {
    var c := s.chans[ch];
    && (c.closes == 0 <==> c.id in s.topics && ch in s.topics[c.id].subs)
    && (c.closes == 0 ==> c.log == s.topics[c.id].log)
  }

  ghost predicate ChanOk(s: State, ch: ChanId) {
    ch in s.chans ==> StreamOk(s.chans[ch], s.ring) && LinkOk(s, ch)
  }

  ghost predicate Inv(s: State) {
    && s.ring >= 1
    && (forall id :: TopicOk(s, id))
    && (forall ch :: ChanOk(s, ch))
  }

  // ---------------------------------------------------------------- every step keeps it

  lemma {:induction false} ReplayIsSuffix(ring: seq<Event>, base: int, after: int)
    requires forall i :: 0 <= i < |ring| ==> ring[i].seqNo == base + i
    ensures var k := Max(0, Min(after - base + 1, |ring|)); Replay(ring, after) == ring[k..]
    decreases |ring|
  {
    if ring != [] {
      ReplayIsSuffix(ring[1..], base + 1, after);
      var k := Max(0, Min(after - base + 1, |ring|));
      if ring[0].seqNo <= after {
        assert ring[1..][k - 1..] == ring[k..];
      } else {
        assert ring == [ring[0]] + ring[1..];
      }
    }
  }

  lemma {:induction false} FillTakesAll(buf: seq<Event>, evs: seq<Event>, cap: nat)
    requires |buf| + |evs| <= cap
    ensures Fill(buf, evs, cap) == buf + evs
    decreases |evs|
  {
    if evs != [] {
      FillTakesAll(buf + [evs[0]], evs[1..], cap);
    }
  }

  /** Replay never overflows a new channel. */
  lemma ReplayFits(s: State, id: string, after: int)
    requires Inv(s) && id in s.topics
    ensures var t := s.topics[id]; var k := Max(0, Min(after - t.seqNo + |t.ring|, |t.ring|));
      Fill([], Replay(t.ring, after), Cap(s.ring)) == t.ring[k..]
  {
    assert TopicOk(s, id);
    var t := s.topics[id];
    ReplayIsSuffix(t.ring, t.seqNo - |t.ring| + 1, after);
    FillTakesAll([], Replay(t.ring, after), Cap(s.ring));
  }

  lemma SubscribeInv(s: State, id: string, after: int, ch: ChanId)
    requires Inv(s) && id in s.topics && ch !in s.chans
    ensures Inv(Subscribe(s, id, after, ch))
  {
    var s' := Subscribe(s, id, after, ch);
    assert TopicOk(s, id);
    forall k ensures TopicOk(s', k) { assert TopicOk(s, k); }
    forall c ensures ChanOk(s', c) {
      assert ChanOk(s, c);
      if c == ch { NewChan(s, id, after, ch); }
    }
  }

  lemma NewChan(s: State, id: string, after: int, ch: ChanId)
    requires Inv(s) && id in s.topics && ch !in s.chans
    ensures ChanOk(Subscribe(s, id, after, ch), ch)
  {
    assert TopicOk(s, id);
    ReplayFits(s, id, after);
  }

  lemma UnsubscribeInv(s: State, id: string, ch: ChanId)
    requires Inv(s) && (ch in s.chans ==> s.chans[ch].id == id)
    ensures Inv(Unsubscribe(s, id, ch))
  {
    var s' := Unsubscribe(s, id, ch);
    assert TopicOk(s, id) && ChanOk(s, ch);
    forall k ensures TopicOk(s', k) { assert TopicOk(s, k); }
    forall c ensures ChanOk(s', c) { assert ChanOk(s, c); }
  }

  lemma ReceiveInv(s: State, ch: ChanId)
    requires Inv(s) && ch in s.chans && s.chans[ch].buf != []
    ensures Inv(Receive(s, ch))
  {
    var s' := Receive(s, ch);
    forall k ensures TopicOk(s', k) { assert TopicOk(s, k); }
    forall c ensures ChanOk(s', c) { assert ChanOk(s, c); }
  }

  lemma PushRing(ring: seq<Event>, log: seq<Job>, j: Job, size: nat)
    requires size >= 1 && RingOk(ring, log, size)
    ensures RingOk(Push(ring, Event(|log| + 1, j), size), log + [j], size)
  {}

  lemma PublishInv(s: State, j: Job)
    requires Inv(s)
    ensures Inv(Publish(s, j))
  {
    if j.id in s.topics || !Terminal(j.status) {
      var s' := Publish(s, j);
      forall k ensures TopicOk(s', k) { PublishTopic(s, j, k); }
      forall c ensures ChanOk(s', c) { PublishChan(s, j, c); }
    }
  }

  lemma PublishTopic(s: State, j: Job, k: string)
    requires Inv(s) && (j.id in s.topics || !Terminal(j.status))
    ensures TopicOk(Publish(s, j), k)
  {
    assert TopicOk(s, k);
    if k == j.id {
      var t := if j.id in s.topics then s.topics[j.id] else Fresh(j);
      PushRing(t.ring, t.log, j, s.ring);
    }
  }

  lemma PublishChan(s: State, j: Job, ch: ChanId)
    requires Inv(s) && (j.id in s.topics || !Terminal(j.status))
    ensures ChanOk(Publish(s, j), ch)
  {
    assert ChanOk(s, ch) && TopicOk(s, j.id);
    if ch in s.chans {
      if j.id in s.topics && ch in s.topics[j.id].subs {
        DeliveredStream(s.chans[ch], Event(s.topics[j.id].seqNo + 1, j), s.ring);
      }
      PublishLink(s, j, ch);
    }
  }

  lemma PublishLink(s: State, j: Job, ch: ChanId)
    requires s.ring >= 1 && TopicOk(s, j.id) && ch in s.chans && ChanOk(s, ch) && (j.id in s.topics || !Terminal(j.status))
    ensures LinkOk(Publish(s, j), ch)
  {}

  /** One event more, in the stream and in the buffer. */
  lemma SendGrows(c: Chan, ev: Event, ring: nat)
    requires StreamOk(c, ring) && ev.seqNo == |c.log| + 1
    ensures var c' := Send(c, ev, ring);
      SentOk(c', ring) && |c'.buf| <= |c'.sent| && |c'.buf| <= Cap(ring) && c'.buf == c'.sent[|c'.sent| - |c'.buf|..]
  {
    var n := |c.sent| - |c.buf|;
    assert c.sent[n..] + [ev] == (c.sent + [ev])[n..];
  }

  lemma DeliveredStream(c: Chan, ev: Event, ring: nat)
    requires StreamOk(c, ring) && ev.seqNo == |c.log| + 1 && c.closes == 0
    ensures StreamOk(Delivered(c, ev, ring), ring)
  {
    SendGrows(c, ev, ring);
  }

  // ---------------------------------------------------------------- runs

  /** What callers, workers and readers may do next. Stage publishes a copy of the last job after giving the lock
   *  away, so it is a Published of any job at all, one whose topic is gone included. */
  datatype Step =
    | Published(j: Job)
    | Subscribed(id: string, after: int, ch: ChanId)
    | Cancelled(ch: ChanId)
    | Received(ch: ChanId)

  predicate Enabled(s: State, st: Step) {
    match st
    case Published(_) => true
    case Subscribed(id, _, ch) => id in s.topics && ch !in s.chans
    case Cancelled(ch) => ch in s.chans
    case Received(ch) => ch in s.chans && s.chans[ch].buf != []
  }

  function Apply(s: State, st: Step): State
    requires Enabled(s, st)
  {
    match st
    case Published(j) => Publish(s, j)
    case Subscribed(id, after, ch) => Subscribe(s, id, after, ch)
    case Cancelled(ch) => Unsubscribe(s, s.chans[ch].id, ch)
    case Received(ch) => Receive(s, ch)
  }

  lemma StepInv(s: State, st: Step)
    requires Inv(s) && Enabled(s, st)
    ensures Inv(Apply(s, st))
  {
    match st
    case Published(j) => PublishInv(s, j);
    case Subscribed(id, after, ch) => SubscribeInv(s, id, after, ch);
    case Cancelled(ch) => UnsubscribeInv(s, s.chans[ch].id, ch);
    case Received(ch) => ReceiveInv(s, ch);
  }

  predicate Legal(s: State, steps: seq<Step>)
    decreases |steps|
  {
    steps == [] || (Enabled(s, steps[0]) && Legal(Apply(s, steps[0]), steps[1..]))
  }

  function Run(s: State, steps: seq<Step>): State
    requires Legal(s, steps)
    decreases |steps|
  {
    if steps == [] then s else Run(Apply(s, steps[0]), steps[1..])
  }

  lemma {:induction false} RunInv(s: State, steps: seq<Step>)
    requires Inv(s) && Legal(s, steps)
    ensures Inv(Run(s, steps))
    decreases |steps|
  {
    if steps != [] {
      StepInv(s, steps[0]);
      RunInv(Apply(s, steps[0]), steps[1..]);
    }
  }

  /** A subscriber gets consecutive numbers from the first one owed, no gap and no repeat, each event the one
   *  published under that number; while its channel is open it has been sent everything published so far; what
   *  it has read and what is still buffered make up what was sent; and a channel is closed at most once. */
  lemma StreamsHaveNoGap(ring: int, steps: seq<Step>, ch: ChanId)
    requires Legal(Init(ring), steps) && ch in Run(Init(ring), steps).chans
    ensures var s := Run(Init(ring), steps); var c := s.chans[ch];
      && |c.buf| <= |c.sent| && c.sent == c.sent[..|c.sent| - |c.buf|] + c.buf && |c.buf| <= Cap(s.ring)
      && (forall i :: 0 <= i < |c.sent| ==> c.sent[i].seqNo == First(c, s.ring) + i && 1 <= c.sent[i].seqNo <= |c.log|
                                            && c.sent[i].job == c.log[c.sent[i].seqNo - 1])
      && c.closes <= 1
      && (c.closes == 0 ==> c.id in s.topics && ch in s.topics[c.id].subs && c.log == s.topics[c.id].log
                            && s.topics[c.id].seqNo == First(c, s.ring) - 1 + |c.sent|)
  {
    var s := Run(Init(ring), steps);
    RunInv(Init(ring), steps);
    assert ChanOk(s, ch);
    assert TopicOk(s, s.chans[ch].id);
  }

  /** The ring is always the last events published, as many as it has room for. */
  lemma RingIsTheTail(ring: int, steps: seq<Step>, id: string)
    requires Legal(Init(ring), steps) && id in Run(Init(ring), steps).topics
    ensures var s := Run(Init(ring), steps); var t := s.topics[id];
      RingOk(t.ring, t.log, s.ring) && t.seqNo == |t.log| && !Terminal(t.last.status)
  {
    RunInv(Init(ring), steps);
    assert TopicOk(Run(Init(ring), steps), id);
  }

  /** A new subscriber is sent exactly the retained events past after, so a client that reconnects with the last
   *  number it saw, while that number is still retained, goes on with the next one. */
  lemma ReplayIsWhatIsRetained(s: State, id: string, after: int, ch: ChanId)
    requires Inv(s) && id in s.topics && ch !in s.chans
    ensures var c := Subscribe(s, id, after, ch).chans[ch]; var t := s.topics[id];
      && (forall ev :: ev in c.sent <==> ev in t.ring && ev.seqNo > after)
      && (t.seqNo - |t.ring| <= after <= t.seqNo ==> First(c, s.ring) == after + 1)
      && t.ring != [] && (after < t.seqNo - |t.ring| ==> First(c, s.ring) == t.ring[0].seqNo)
  {
    assert TopicOk(s, id);
    ReplayFits(s, id, after);
    var t := s.topics[id];
    SentIsPastAfter(s, id, after, ch, Max(0, Min(after - t.seqNo + |t.ring|, |t.ring|)));
  }

  lemma SentIsPastAfter(s: State, id: string, after: int, ch: ChanId, k: nat)
    requires Inv(s) && id in s.topics && ch !in s.chans
    requires var t := s.topics[id]; k == Max(0, Min(after - t.seqNo + |t.ring|, |t.ring|))
    ensures var c := Subscribe(s, id, after, ch).chans[ch]; forall ev :: ev in c.sent <==> ev in s.topics[id].ring && ev.seqNo > after
  {
    assert TopicOk(s, id);
    ReplayFits(s, id, after);
    var t, c := s.topics[id], Subscribe(s, id, after, ch).chans[ch];
    forall ev ensures ev in c.sent <==> ev in t.ring && ev.seqNo > after {
      if ev in t.ring {
        var i :| 0 <= i < |t.ring| && t.ring[i] == ev;
        if i >= k { assert c.sent[i - k] == ev; }
      }
    }
  }

  /** Subscribe promises only events past after. It keeps the promise exactly when after is not ahead of the topic
   *  it subscribed to: a number learnt from an earlier topic under the same id is. */
  lemma PastAfterIff(ring: int, steps: seq<Step>, ch: ChanId)
    requires Legal(Init(ring), steps) && ch in Run(Init(ring), steps).chans
    requires Run(Init(ring), steps).chans[ch].sent != []
    ensures var c := Run(Init(ring), steps).chans[ch];
      (forall i :: 0 <= i < |c.sent| ==> c.sent[i].seqNo > c.after) <==> c.after <= c.born
  {
    var s := Run(Init(ring), steps);
    RunInv(Init(ring), steps);
    assert ChanOk(s, ch);
    var c := s.chans[ch];
    assert c.sent[0].seqNo == First(c, s.ring);
  }

  lemma RunCons(s: State, st: Step, rest: seq<Step>)
    requires Enabled(s, st)
    ensures Legal(s, [st] + rest) <==> Legal(Apply(s, st), rest)
    ensures Legal(s, [st] + rest) ==> Run(s, [st] + rest) == Run(Apply(s, st), rest)
  {
    assert ([st] + rest)[1..] == rest;
  }

  /** A finished topic is replaced by a new one under the same id; the client asks to go on after event 2. */
  lemma AheadOfTheTopic()
    ensures var q, f := Job("a", Queued, "", 0), Job("a", Failed, "", 0);
      var steps := [Published(q)] + ([Published(f)] + ([Published(q)] + ([Subscribed("a", 2, 7)] + ([Published(q)] + []))));
      && Legal(Init(4), steps) && 7 in Run(Init(4), steps).chans
      && var c := Run(Init(4), steps).chans[7];
         c.after == 2 && c.sent == [Event(2, q)]
  {
    var q, f := Job("a", Queued, "", 0), Job("a", Failed, "", 0);
    var s1 := Publish(Init(4), q);
    assert s1.topics.Keys == {"a"} && s1.chans == map[];
    var s2 := Publish(s1, f);
    assert forall k :: k in s2.topics ==> k in s1.topics && k != "a";
    assert s2.topics == map[] && s2.chans == map[];
    var s3 := Publish(s2, q);
    var t3 := s3.topics["a"];
    assert t3.ring == [Event(1, q)] && t3.subs == {} && t3.log == [q];
    assert s3.topics.Keys == {"a"} && s3.chans == map[];
    var s4 := Subscribe(s3, "a", 2, 7);
    assert Replay([Event(1, q)], 2) == [];
    assert s4.chans == map[7 := Chan([], 0, [], "a", 2, 1, [q])];
    var s5 := Publish(s4, q);
    assert s5.chans[7].sent == [Event(2, q)];
    RunCons(s4, Published(q), []);
    RunCons(s3, Subscribed("a", 2, 7), [Published(q)] + []);
    RunCons(s2, Published(q), [Subscribed("a", 2, 7)] + ([Published(q)] + []));
    RunCons(s1, Published(f), [Published(q)] + ([Subscribed("a", 2, 7)] + ([Published(q)] + [])));
    RunCons(Init(4), Published(q), [Published(f)] + ([Published(q)] + ([Subscribed("a", 2, 7)] + ([Published(q)] + []))));
  }

  /** Once a channel is closed nothing is sent on it and nothing closes it again, whatever happens next. */
  lemma {:induction false} ClosedIsSilent(s: State, steps: seq<Step>, ch: ChanId)
    requires Inv(s) && Legal(s, steps) && ch in s.chans && s.chans[ch].closes == 1
    ensures var s' := Run(s, steps); ch in s'.chans && s'.chans[ch].sent == s.chans[ch].sent && s'.chans[ch].closes == 1
    decreases |steps|
  {
    if steps != [] {
      StepInv(s, steps[0]);
      StepIsSilent(s, steps[0], ch);
      ClosedIsSilent(Apply(s, steps[0]), steps[1..], ch);
    }
  }

  lemma StepIsSilent(s: State, st: Step, ch: ChanId)
    requires Inv(s) && Enabled(s, st) && ch in s.chans && s.chans[ch].closes == 1
    ensures ch in Apply(s, st).chans && Apply(s, st).chans[ch].sent == s.chans[ch].sent && Apply(s, st).chans[ch].closes == 1
  {
    assert ChanOk(s, ch);
    if st.Published? {
      assert TopicOk(s, st.j.id);
    }
  }

  /** A terminal status ends the topic: every subscriber that kept up has the final event, and all are closed. */
  lemma TerminalEndsTheTopic(s: State, j: Job, ch: ChanId)
    requires Inv(s) && Terminal(j.status) && j.id in s.topics && ch in s.topics[j.id].subs
    ensures var s' := Publish(s, j);
      && j.id !in s'.topics && ch in s.chans && ch in s'.chans && s'.chans[ch].closes == 1
      && (|s.chans[ch].buf| < Cap(s.ring) ==> s'.chans[ch].sent == s.chans[ch].sent + [Event(s.topics[j.id].seqNo + 1, j)])
  {
    assert TopicOk(s, j.id) && ChanOk(s, ch);
  }

  // ---------------------------------------------------------------- Publish, part by part

  function WithTopic(s: State, j: Job): State {
    if j.id in s.topics then s else s.(topics := s.topics[j.id := Fresh(j)])
  }

  /** The event is numbered and put in the ring. */
  function Record(s: State, j: Job): State {
    var t := if j.id in s.topics then s.topics[j.id] else Fresh(j);
    s.(topics := s.topics[j.id := Topic(t.seqNo + 1, Push(t.ring, Event(t.seqNo + 1, j), s.ring), j, t.subs, t.log + [j])])
  }

  lemma RecordInParts(s: State, j: Job)
    ensures Record(WithTopic(s, j), j) == Record(s, j)
  {}

  function HasRoom(s: State, ch: ChanId): bool {
    ch in s.chans && |s.chans[ch].buf| < Cap(s.ring)
  }

  /** The event is sent to everybody with room, and the rest are dropped. */
  function Deliver(s: State, id: string, ev: Event): State
    requires id in s.topics
  {
    var t := s.topics[id];
    s.(topics := s.topics[id := t.(subs := set ch | ch in t.subs && HasRoom(s, ch))],
       chans := map ch | ch in s.chans :: if ch in t.subs then Send(s.chans[ch], ev, s.ring) else s.chans[ch])
  }

  /** A terminal status closes whoever is left and drops the topic. */
  function EndTopic(s: State, id: string): State
    requires id in s.topics
  {
    s.(topics := RemoveTopic(s.topics, id),
       chans := map ch | ch in s.chans :: if ch in s.topics[id].subs then s.chans[ch].(closes := s.chans[ch].closes + 1) else s.chans[ch])
  }

  lemma PublishInParts(s: State, j: Job)
    requires j.id in s.topics || !Terminal(j.status)
    ensures var ev := Event((if j.id in s.topics then s.topics[j.id].seqNo else 0) + 1, j);
      var s1 := Deliver(Record(s, j), j.id, ev);
      Publish(s, j) == if Terminal(j.status) then EndTopic(s1, j.id) else s1
  {
    var t := if j.id in s.topics then s.topics[j.id] else Fresh(j);
    var ev := Event(t.seqNo + 1, j);
    var s1 := Deliver(Record(s, j), j.id, ev);
    var s' := if Terminal(j.status) then EndTopic(s1, j.id) else s1;
    assert s1.topics[j.id].subs == set ch | ch in t.subs && ch in s.chans && |s.chans[ch].buf| < Cap(s.ring);
    forall ch | ch in s.chans ensures s'.chans[ch] == Publish(s, j).chans[ch] {
      if ch in t.subs { assert ch in s1.topics[j.id].subs <==> HasRoom(s, ch); }
    }
    assert s'.chans == Publish(s, j).chans;
    forall k ensures k in s'.topics <==> k in Publish(s, j).topics
      ensures k in s'.topics ==> s'.topics[k] == Publish(s, j).topics[k] {}
    assert s'.topics == Publish(s, j).topics;
  }
}
