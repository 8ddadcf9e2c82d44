/** The hub's objects: topics and channels updated in place, one method per critical section of Hub.mu. */
module JobHub {
  import P = HubProtocol

  /** A buffered Go channel, as far as the hub and its readers go. */
  class Channel {
    ghost const cid: P.ChanId
    const cap: nat
    var buf: seq<P.Event>
    var closes: nat

    constructor (ghost cid: P.ChanId, cap: nat)
      ensures this.cid == cid && this.cap == cap && buf == [] && closes == 0
    {
      this.cid, this.cap, buf, closes := cid, cap, [], 0;
    }

    /** select { case ch <- ev: default: } */
    method TrySend(ev: P.Event) returns (sent: bool)
      modifies this`buf
      ensures sent <==> |old(buf)| < cap
      ensures buf == if sent then old(buf) + [ev] else old(buf)
    {
      sent := |buf| < cap;
      if sent {
        buf := buf + [ev];
      }
    }

    method Close()
      modifies this`closes
      ensures closes == old(closes) + 1
    {
      closes := closes + 1;
    }
  }

  class Topic {
    ghost const id: string
    var seqNo: nat
    var ring: seq<P.Event>
    var last: P.Job
    var subs: set<Channel>

    constructor (ghost id: string, last: P.Job)
      ensures this.id == id && seqNo == 0 && ring == [] && subs == {} && this.last == last
    {
      this.id, seqNo, ring, this.last, subs := id, 0, [], last, {};
    }
  }

  class Hub {
    const ring: nat
    var topics: map<string, Topic>
    ghost var made: map<P.ChanId, Channel>
    ghost var m: P.State

    ghost predicate TopicAt(id: string)
      reads this, topics.Values
    {
      && (id in topics <==> id in m.topics)
      && (id in topics ==>
            var t, v := topics[id], m.topics[id];
            t.id == id && t.seqNo == v.seqNo && t.ring == v.ring && t.last == v.last)
    }

    ghost predicate SubsAt(id: string)
      reads this, topics.Values
    {
      id in topics && id in m.topics ==>
        && (forall c :: c in topics[id].subs ==> c.cid in made && made[c.cid] == c && c.cid in m.topics[id].subs)
        && (forall ch :: ch in m.topics[id].subs ==> ch in made && made[ch].cid == ch && made[ch] in topics[id].subs)
    }

    ghost predicate ChanAt(ch: P.ChanId)
      reads this, made.Values
    {
      && (ch in made <==> ch in m.chans)
      && (ch in made ==>
            var c, v := made[ch], m.chans[ch];
            c.cid == ch && c.cap == P.Cap(ring) && c.buf == v.buf && c.closes == v.closes)
    }

    ghost predicate Coupled()
      reads this, topics.Values, made.Values
    {
      m.ring == ring && (forall id :: TopicAt(id)) && (forall id :: SubsAt(id)) && (forall ch :: ChanAt(ch))
    }

    ghost predicate Valid()
      reads this, topics.Values, made.Values
    {
      Coupled() && P.Inv(m)
    }

    constructor (ring: int)
      ensures Valid() && m == P.Init(ring)
    {
      this.ring := if ring < 1 then 16 else ring;
      topics, made, m := map[], map[], P.Init(ring);
    }

    /** Deliver to everybody with room; a subscriber without is dropped and closed. */
    method SendAll(t: Topic, ev: P.Event)
      requires forall c :: c in t.subs ==> c.cap == P.Cap(ring)
      modifies t`subs, t.subs
      ensures forall c :: c in old(t.subs) ==>
          if |old(c.buf)| < P.Cap(ring) then c.buf == old(c.buf) + [ev] && c.closes == old(c.closes)
          else c.buf == old(c.buf) && c.closes == old(c.closes) + 1
      ensures forall c :: c in t.subs <==> c in old(t.subs) && |old(c.buf)| < P.Cap(ring)
    {
      var todo := t.subs;
      while todo != {}
        invariant todo <= old(t.subs)
        invariant forall c :: c in todo ==> c.buf == old(c.buf) && c.closes == old(c.closes) && c in t.subs
        invariant forall c :: c in old(t.subs) && c !in todo ==>
            if |old(c.buf)| < P.Cap(ring) then c.buf == old(c.buf) + [ev] && c.closes == old(c.closes) && c in t.subs
            else c.buf == old(c.buf) && c.closes == old(c.closes) + 1 && c !in t.subs
        invariant t.subs <= old(t.subs)
        decreases todo
      {
        var ch :| ch in todo;
        var sent := ch.TrySend(ev);
        if !sent {
          t.subs := t.subs - {ch};
          ch.Close();
        }
        todo := todo - {ch};
      }
    }

    method CloseAll(t: Topic)
      modifies t.subs
      ensures forall c :: c in t.subs ==> c.closes == old(c.closes) + 1 && c.buf == old(c.buf)
    {
      var todo := t.subs;
      while todo != {}
        invariant todo <= t.subs
        invariant forall c :: c in t.subs ==> c.buf == old(c.buf) && c.closes == old(c.closes) + (if c in todo then 0 else 1)
        decreases todo
      {
        var ch :| ch in todo;
        ch.Close();
        todo := todo - {ch};
      }
    }

    /** The topic of a job, made when there is none. */
    method TopicFor(j: P.Job) returns (t: Topic)
      requires Coupled()
      modifies this`topics, this`m
      ensures Coupled() && m == P.WithTopic(old(m), j) && j.id in topics && t == topics[j.id]
      ensures if j.id in old(topics) then topics == old(topics) else fresh(t) && topics == old(topics)[j.id := t]
    {
      assert TopicAt(j.id);
      if j.id in topics {
        return topics[j.id];
      }
      t := new Topic(j.id, j);
      topics := topics[j.id := t];
      m := P.WithTopic(m, j);
      forall k ensures TopicAt(k) { assert old(TopicAt(k)); }
      forall k ensures SubsAt(k) { assert old(SubsAt(k)) && old(TopicAt(k)); }
      forall ch ensures ChanAt(ch) { assert old(ChanAt(ch)); }
    }

    /** The event is numbered and put in the ring. */
    method Number(t: Topic, j: P.Job) returns (ev: P.Event)
      requires Coupled() && j.id in topics && t == topics[j.id] && j.id in m.topics
      modifies this`m, t`seqNo, t`last, t`ring
      ensures Coupled() && m == P.Record(old(m), j) && ev == P.Event(old(m).topics[j.id].seqNo + 1, j)
    {
      assert TopicAt(j.id);
      t.seqNo := t.seqNo + 1;
      t.last := j;
      ev := P.Event(t.seqNo, j);
      t.ring := t.ring + [ev];
      if |t.ring| > ring {
        t.ring := t.ring[|t.ring| - ring..];
      }
      m := P.Record(m, j);
      forall k ensures TopicAt(k) { assert old(TopicAt(k)); }
      forall k ensures SubsAt(k) { assert old(SubsAt(k)); }
      forall ch ensures ChanAt(ch) { assert old(ChanAt(ch)); }
    }

    method Deliver(t: Topic, ev: P.Event, ghost id: string)
      requires Coupled() && id in topics && t == topics[id] && id in m.topics
      modifies this`m, t`subs, made.Values
      ensures Coupled() && m == P.Deliver(old(m), id, ev)
    {
      assert TopicAt(id) && SubsAt(id);
      forall c | c in t.subs ensures c.cap == P.Cap(ring) && c in made.Values && (P.HasRoom(m, c.cid) <==> |c.buf| < P.Cap(ring)) {
        assert ChanAt(c.cid) && c.cid in made;
      }
      SendAll(t, ev);
      m := P.Deliver(m, id, ev);
      forall k ensures TopicAt(k) { assert old(TopicAt(k)); }
      forall k ensures SubsAt(k) { assert old(SubsAt(k)) && old(TopicAt(k)); }
      forall ch ensures ChanAt(ch) { assert old(ChanAt(ch)); }
    }

    method EndTopic(t: Topic, id: string)
      requires Coupled() && id in topics && t == topics[id] && id in m.topics
      modifies this`m, this`topics, made.Values
      ensures Coupled() && m == P.EndTopic(old(m), id)
      ensures topics == map k | k in old(topics) && k != id :: old(topics)[k]
    {
      assert TopicAt(id) && SubsAt(id);
      forall c | c in t.subs ensures c in made.Values { assert ChanAt(c.cid); }
      CloseAll(t);
      topics := map k | k in topics && k != id :: topics[k];
      m := P.EndTopic(m, id);
      forall k ensures TopicAt(k) { assert old(TopicAt(k)); }
      forall k ensures SubsAt(k) { assert old(SubsAt(k)) && old(TopicAt(k)); }
      forall ch ensures ChanAt(ch) { assert old(ChanAt(ch)); }
    }

    method Publish(j: P.Job)
      requires Valid()
      modifies this`topics, this`m, topics.Values, made.Values
      ensures Valid() && m == P.Publish(old(m), j)
    {
      assert TopicAt(j.id);
      P.PublishInv(m, j);
      if j.id !in topics && P.Terminal(j.status) {
        return;
      }
      P.PublishInParts(m, j);
      P.RecordInParts(m, j);
      var t := TopicFor(j);
      var ev := Number(t, j);
      Deliver(t, ev, j.id);
      if P.Terminal(j.status) {
        EndTopic(t, j.id);
      }
    }

    /** Stage in its two sections: the copy is taken under the lock, and published after it was given away. */
    method StageCopy(jobID: string, stage: string, percent: int) returns (copied: bool, j: P.Job)
      requires Valid()
      ensures copied <==> jobID in m.topics && m.topics[jobID].last.status.Running?
      ensures copied ==> j == m.topics[jobID].last.(stage := stage, percent := percent) && j.id == jobID
    {
      assert TopicAt(jobID) && P.TopicOk(m, jobID);
      if jobID !in topics || !topics[jobID].last.status.Running? {
        return false, P.Job("", P.Queued, "", 0);
      }
      return true, topics[jobID].last.(stage := stage, percent := percent);
    }

    /** Subscribe. The channel is null when the job is not tracked. */
    method Subscribe(jobID: string, after: int, ghost cid: P.ChanId) returns (ch: Channel?)
      requires Valid() && cid !in made
      modifies this`made, this`m, topics.Values
      ensures Valid()
      ensures (ch == null <==> jobID !in old(m).topics) && (ch == null ==> m == old(m))
      ensures ch != null ==> m == P.Subscribe(old(m), jobID, after, cid) && fresh(ch) && cid in made && made[cid] == ch
    {
      assert TopicAt(jobID) && ChanAt(cid);
      if jobID !in topics {
        return null;
      }
      P.SubscribeInv(m, jobID, after, cid);
      var t := topics[jobID];
      var c := new Channel(cid, P.Cap(ring));
      Refill(c, t.ring, after);
      Enrol(c, t, jobID, after);
      return c;
    }

    method Refill(c: Channel, ring: seq<P.Event>, after: int)
      modifies c`buf
      ensures c.buf == P.Fill(old(c.buf), P.Replay(ring, after), c.cap)
    {
      var i := 0;
      while i < |ring|
        invariant 0 <= i <= |ring|
        invariant P.Fill(c.buf, P.Replay(ring[i..], after), c.cap) == P.Fill(old(c.buf), P.Replay(ring, after), c.cap)
      {
        ghost var before := c.buf;
        assert ring[i..][1..] == ring[i + 1..];
        if ring[i].seqNo > after {
          var sent := c.TrySend(ring[i]);
          assert P.Replay(ring[i..], after) == [ring[i]] + P.Replay(ring[i + 1..], after);
          assert P.Replay(ring[i..], after)[1..] == P.Replay(ring[i + 1..], after);
        } else {
          assert P.Replay(ring[i..], after) == P.Replay(ring[i + 1..], after);
        }
        i := i + 1;
      }
    }

    method Enrol(c: Channel, t: Topic, id: string, after: int)
      requires Coupled() && id in topics && t == topics[id] && id in m.topics
      requires c.cid !in made && c !in made.Values && c.cap == P.Cap(ring) && c.closes == 0 && (forall k :: k in topics ==> c !in topics[k].subs)
      requires c.buf == P.Fill([], P.Replay(t.ring, after), P.Cap(ring))
      modifies this`made, this`m, t`subs
      ensures Coupled() && m == P.Subscribe(old(m), id, after, c.cid) && made == old(made)[c.cid := c]
    {
      assert TopicAt(id) && SubsAt(id);
      t.subs := t.subs + {c};
      made := made[c.cid := c];
      m := P.Subscribe(m, id, after, c.cid);
      forall k ensures TopicAt(k) { assert old(TopicAt(k)); }
      forall k ensures SubsAt(k) { assert old(SubsAt(k)) && old(TopicAt(k)); }
      forall ch ensures ChanAt(ch) { assert old(ChanAt(ch)); }
    }

    /** The cancel function Subscribe returned for this channel. */
    method Cancel(ch: Channel, jobID: string)
      requires Valid() && ch.cid in made && made[ch.cid] == ch && ch.cid in m.chans && m.chans[ch.cid].id == jobID
      modifies this`m, topics.Values, ch
      ensures Valid() && m == P.Unsubscribe(old(m), jobID, ch.cid)
      ensures ch.closes == 1 && (jobID in topics ==> ch !in topics[jobID].subs)
    {
      P.UnsubscribeInv(m, jobID, ch.cid);
      assert TopicAt(jobID) && SubsAt(jobID) && ChanAt(ch.cid) && P.ChanOk(m, ch.cid);
      if jobID in topics && ch in topics[jobID].subs {
        topics[jobID].subs := topics[jobID].subs - {ch};
        ch.Close();
      }
      m := P.Unsubscribe(m, jobID, ch.cid);
      forall k ensures TopicAt(k) { assert old(TopicAt(k)); }
      forall k ensures SubsAt(k) { assert old(SubsAt(k)) && old(TopicAt(k)); }
      forall c ensures ChanAt(c) { assert old(ChanAt(c)); }
    }
  }
}
