/** What each call of the event hub does for those it is for, and that it does nothing to the others. */
module HubOutcomes {
  import opened HubProtocol

  /** The channel is in no topic's subscriptions. */
  ghost predicate Unlisted(s: State, ch: ChanId) { forall id :: id in s.topics ==> ch !in s.topics[id].subs }

  /** The topic is as before, but for who subscribes. */
  ghost predicate SameTopic(s: State, s': State, id: string) {
    (id in s.topics <==> id in s'.topics) && (id in s.topics ==> s'.topics[id] == s.topics[id].(subs := s'.topics[id].subs))
  }

  ghost predicate SameChan(s: State, s': State, ch: ChanId) {
    (ch in s.chans <==> ch in s'.chans) && (ch in s.chans ==> s'.chans[ch] == s.chans[ch])
  }

  /** Cancelling closes the channel and takes it off every list, so whatever happens next nothing more is sent on it. */
  lemma CancelEndsTheSubscription(ring: int, before: seq<Step>, ch: ChanId, after: seq<Step>)
    requires Legal(Init(ring), before) && Enabled(Run(Init(ring), before), Cancelled(ch))
    requires Legal(Apply(Run(Init(ring), before), Cancelled(ch)), after)
    ensures var s := Run(Init(ring), before);
      var s1 := Apply(s, Cancelled(ch));
      var s2 := Run(s1, after);
      && ch in s.chans && ch in s1.chans && s1.chans[ch].closes == 1 && s1.chans[ch].sent == s.chans[ch].sent && Unlisted(s1, ch)
      && ch in s2.chans && s2.chans[ch].closes == 1 && s2.chans[ch].sent == s.chans[ch].sent
  {
    var s := Run(Init(ring), before);
    RunInv(Init(ring), before);
    StepInv(s, Cancelled(ch));
    CancelCloses(s, ch);
    ClosedIsSilent(Apply(s, Cancelled(ch)), after, ch);
  }

  lemma CancelCloses(s: State, ch: ChanId)
    requires Inv(s) && Enabled(s, Cancelled(ch))
    ensures var s' := Apply(s, Cancelled(ch));
      ch in s'.chans && s'.chans[ch].closes == 1 && s'.chans[ch].sent == s.chans[ch].sent && s'.chans[ch].buf == s.chans[ch].buf && Unlisted(s', ch)
  {
    assert ChanOk(s, ch);
    forall id | id in s.topics && id != s.chans[ch].id ensures ch !in s.topics[id].subs { assert TopicOk(s, id); }
  }

  /** And it touches nobody else: every other channel, every other subscription, every topic's numbers and ring. */
  lemma CancelTouchesNobodyElse(s: State, ch: ChanId, other: ChanId, id: string)
    requires Inv(s) && Enabled(s, Cancelled(ch)) && other != ch
    ensures var s' := Apply(s, Cancelled(ch));
      SameChan(s, s', other) && SameTopic(s, s', id) && (id in s.topics ==> (other in s.topics[id].subs <==> other in s'.topics[id].subs))
  {}

  /** The topic of a job, as its next event finds it. */
  ghost predicate Next(s: State, j: Job, n: int) { n == if j.id in s.topics then s.topics[j.id].seqNo + 1 else 1 }

  /** Publishing sends every open subscriber of the job the event under the next number; one whose buffer is full is closed
   *  instead, and after a terminal event all are. Nobody else hears of it. */
  lemma PublishReachesTheSubscribers(s: State, j: Job, n: int, ch: ChanId)
    requires Inv(s) && Next(s, j, n) && ch in s.chans
    ensures var s' := Apply(s, Published(j)); var c := s.chans[ch];
      ch in s'.chans && var c' := s'.chans[ch];
      if j.id in s.topics && ch in s.topics[j.id].subs then
        if |c.buf| < s.ring + 8 then
          c'.sent == c.sent + [Event(n, j)] && c'.buf == c.buf + [Event(n, j)] && c'.closes == (if Terminal(j.status) then 1 else 0)
        else c'.sent == c.sent && c'.buf == c.buf && c'.closes == 1
      else c' == c
  {
    assert ChanOk(s, ch);
    if j.id in s.topics { assert TopicOk(s, j.id); }
  }

  /** The topic goes on with the event as its last, or ends with it; a terminal event of a job not tracked is nothing. */
  lemma PublishKeepsTheTopic(s: State, j: Job, n: int, id: string)
    requires Inv(s) && Next(s, j, n)
    ensures var s' := Apply(s, Published(j));
      && (id != j.id ==> (id in s.topics <==> id in s'.topics) && (id in s.topics ==> s'.topics[id] == s.topics[id]))
      && (id == j.id ==> (id in s'.topics <==> !Terminal(j.status)))
      && (id == j.id && !Terminal(j.status) ==>
            var t' := s'.topics[id];
            && t'.seqNo == n && t'.last == j && t'.ring != [] && t'.ring[|t'.ring| - 1] == Event(n, j)
            && forall ch :: ch in t'.subs <==> id in s.topics && ch in s.topics[id].subs && ch in s.chans && |s.chans[ch].buf| < s.ring + 8)
      && s'.chans.Keys == s.chans.Keys
  {
    if j.id in s.topics { assert TopicOk(s, j.id); }
  }

  /** A subscriber joins its topic with an open channel; everything else is as before. */
  lemma SubscribeJoins(s: State, id: string, after: int, ch: ChanId, other: ChanId, k: string)
    requires Inv(s) && Enabled(s, Subscribed(id, after, ch)) && other != ch
    ensures var s' := Apply(s, Subscribed(id, after, ch));
      && ch in s'.chans && s'.chans[ch].closes == 0 && s'.chans[ch].buf == s'.chans[ch].sent
      && id in s'.topics && ch in s'.topics[id].subs
      && SameChan(s, s', other) && SameTopic(s, s', k) && (k in s.topics ==> (other in s.topics[k].subs <==> other in s'.topics[k].subs))
  {
    assert ChanOk(s, ch);
  }

  /** A reader takes the oldest event of its buffer, and what it has read so far is what was sent but for what is left. */
  lemma ReceiveTakesTheOldest(s: State, ch: ChanId)
    requires Inv(s) && Enabled(s, Received(ch))
    ensures var s' := Apply(s, Received(ch)); var c := s.chans[ch];
      && c.buf != [] && ch in s'.chans && [c.buf[0]] + s'.chans[ch].buf == c.buf && s'.chans[ch].sent == c.sent && s'.chans[ch].closes == c.closes
      && |c.buf| <= |c.sent| && c.buf[0] == c.sent[|c.sent| - |c.buf|] && s'.topics == s.topics
      && forall other :: other != ch ==> SameChan(s, s', other)
  {
    assert ChanOk(s, ch);
  }
}
