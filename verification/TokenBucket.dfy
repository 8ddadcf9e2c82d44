/** One key's bucket over a run of requests: internal/httpx/ratelimit.go in exact arithmetic. Times are in seconds. */
module TokenBucket {
  import opened Options

  datatype Bucket = Bucket(tokens: real, last: real)

  const BURST_FACTOR := 2.0

  /** What a stretch of time earns, and how much a bucket holds. */
  datatype Limit = Limit(earn: real -> real, capacity: real)

  function PerSecond(rate: real): Limit { Limit(elapsed => elapsed * rate, rate * BURST_FACTOR) }

  ghost predicate Adds(l: Limit, x: real, y: real) { l.earn(x) + l.earn(y) == l.earn(x + y) }

  ghost predicate Earns(l: Limit, x: real) { x >= 0.0 ==> l.earn(x) >= 0.0 }

  /** Time earns evenly, and never takes. */
  ghost predicate Even(l: Limit) {
    l.capacity > 0.0 && (forall x, y :: Adds(l, x, y)) && (forall x :: Earns(l, x))
  }

  lemma Product(x: real, y: real)
    requires x >= 0.0 && y >= 0.0
    ensures x * y >= 0.0
  {}

  lemma Distribute(x: real, y: real, rate: real)
    ensures x * rate + y * rate == (x + y) * rate
  {}

  lemma RateIsEven(rate: real)
    requires rate > 0.0
    ensures Even(PerSecond(rate))
  {
    var l := PerSecond(rate);
    forall x, y ensures Adds(l, x, y) { Distribute(x, y, rate); }
    forall x ensures Earns(l, x) { if x >= 0.0 { Product(x, rate); } }
  }

  function Min(a: real, b: real): real { if a < b then a else b }

  /** The bucket as a request at now finds it. */
  function Refilled(b: Option<Bucket>, l: Limit, now: real): Bucket {
    match b
    case None => Bucket(l.capacity, now)
    case Some(k) => if now - k.last > 0.0 then Bucket(Min(l.capacity, k.tokens + l.earn(now - k.last)), now) else k
  }

  predicate Allows(b: Option<Bucket>, l: Limit, now: real) { Refilled(b, l, now).tokens >= 1.0 }

  function After(b: Option<Bucket>, l: Limit, now: real): Bucket {
    var k := Refilled(b, l, now);
    if k.tokens < 1.0 then k else k.(tokens := k.tokens - 1.0)
  }

  function Ceil(x: real): int { -((-x).Floor) }

  /** The advised wait, in milliseconds. */
  function Wait(b: Option<Bucket>, rate: real, now: real): int
    requires rate > 0.0
  {
    Ceil((1.0 - Refilled(b, PerSecond(rate), now).tokens) / rate * 1000.0)
  }

  predicate Level(b: Option<Bucket>, l: Limit) {
    b.Some? ==> 0.0 <= b.value.tokens <= l.capacity
  }

  function Run(b: Option<Bucket>, l: Limit, ts: seq<real>): Option<Bucket>
    decreases |ts|
  {
    if ts == [] then b else Run(Some(After(b, l, ts[0])), l, ts[1..])
  }

  /** How many of the requests at ts are allowed, of those no earlier than x and no later than y. */
  function AllowedIn(b: Option<Bucket>, l: Limit, ts: seq<real>, x: real, y: real): nat
    decreases |ts|
  {
    if ts == [] then 0
    else
      (if Allows(b, l, ts[0]) && x <= ts[0] <= y then 1 else 0) + AllowedIn(Some(After(b, l, ts[0])), l, ts[1..], x, y)
  }

  /** The clock's readings do not go back. */
  predicate Forward(ts: seq<real>) { |ts| < 2 || (ts[0] <= ts[1] && Forward(ts[1..])) }

  lemma LevelKept(b: Option<Bucket>, l: Limit, now: real)
    requires Even(l) && Level(b, l)
    ensures 0.0 <= Refilled(b, l, now).tokens <= l.capacity && Level(Some(After(b, l, now)), l)
  {
    if b.Some? { assert Earns(l, now - b.value.last); }
  }

  /** The tokens never leave [0, 2 rate], whatever the clock does. */
  lemma {:induction false} TokensStayInRange(b: Option<Bucket>, l: Limit, ts: seq<real>)
    requires Even(l) && Level(b, l)
    ensures Level(Run(b, l, ts), l)
    decreases |ts|
  {
    if ts != [] {
      LevelKept(b, l, ts[0]);
      TokensStayInRange(Some(After(b, l, ts[0])), l, ts[1..]);
    }
  }

  /** A refill earns no more than the time that passed. */
  lemma RefillEarns(k: Bucket, l: Limit, now: real)
    requires Even(l) && k.last <= now
    ensures Refilled(Some(k), l, now).tokens <= k.tokens + l.earn(now - k.last)
    ensures Refilled(Some(k), l, now).last == now
  {
    assert Earns(l, now - k.last);
  }

  lemma {:induction false} NoneLater(b: Option<Bucket>, l: Limit, ts: seq<real>, x: real, y: real)
    requires Forward(ts) && (ts != [] ==> ts[0] > y)
    ensures AllowedIn(b, l, ts, x, y) == 0
    decreases |ts|
  {
    if ts != [] { NoneLater(Some(After(b, l, ts[0])), l, ts[1..], x, y); }
  }

  /** From one bucket on: what is in it and what it earns until the end of the window. */
  lemma {:induction false} SpendsWhatItHas(k: Bucket, l: Limit, ts: seq<real>, x: real, y: real)
    requires Even(l) && Level(Some(k), l) && Forward(ts) && k.last <= y && (ts != [] ==> k.last <= ts[0])
    ensures AllowedIn(Some(k), l, ts, x, y) as real <= k.tokens + l.earn(y - k.last)
    decreases |ts|
  {
    assert Earns(l, y - k.last);
    if ts != [] {
      var now := ts[0];
      if now > y {
        NoneLater(Some(k), l, ts, x, y);
      } else {
        LevelKept(Some(k), l, now);
        RefillEarns(k, l, now);
        assert Adds(l, now - k.last, y - now) && now - k.last + (y - now) == y - k.last;
        SpendsWhatItHas(After(Some(k), l, now), l, ts[1..], x, y);
      }
    }
  }

  lemma {:induction false} WindowOf(b: Option<Bucket>, l: Limit, ts: seq<real>, x: real, y: real)
    requires Even(l) && Level(b, l) && Forward(ts) && x <= y && (b.Some? && ts != [] ==> b.value.last <= ts[0])
    ensures AllowedIn(b, l, ts, x, y) as real <= l.capacity + l.earn(y - x)
    decreases |ts|
  {
    assert Earns(l, y - x);
    if ts != [] {
      var now := ts[0];
      LevelKept(b, l, now);
      if now < x {
        WindowOf(Some(After(b, l, now)), l, ts[1..], x, y);
      } else if now > y {
        NoneLater(b, l, ts, x, y);
      } else {
        var k := Refilled(b, l, now);
        assert k.last == now && Refilled(Some(k), l, now) == k;
        SpendsWhatItHas(k, l, ts, x, y);
        assert Adds(l, now - x, y - now) && now - x + (y - now) == y - x && Earns(l, now - x);
      }
    }
  }

  /** Over any run of requests for a key, the number allowed in any window of time is at most twice the rate and the
   *  rate times the length of the window. */
  lemma WindowIsBounded(rate: real, ts: seq<real>, x: real, y: real)
    requires rate > 0.0 && Forward(ts) && x <= y
    ensures AllowedIn(None, PerSecond(rate), ts, x, y) as real <= 2.0 * rate + rate * (y - x)
  {
    RateIsEven(rate);
    WindowOf(None, PerSecond(rate), ts, x, y);
  }

  // --- a clock that may go back -------------------------------------------------

  predicate InWindow(t: real, x: real, y: real) { x <= t <= y }

  /** Which of the requests are allowed. */
  function Answers(b: Option<Bucket>, l: Limit, ts: seq<real>): (allowed: seq<bool>)
    ensures |allowed| == |ts|
    decreases |ts|
  {
    if ts == [] then [] else [Allows(b, l, ts[0])] + Answers(Some(After(b, l, ts[0])), l, ts[1..])
  }

  /** How many of them were allowed at a time in the window. */
  function Count(allowed: seq<bool>, ts: seq<real>, x: real, y: real): nat
    requires |allowed| == |ts|
  {
    if ts == [] then 0 else (if allowed[0] && InWindow(ts[0], x, y) then 1 else 0) + Count(allowed[1..], ts[1..], x, y)
  }

  lemma {:induction false} AllowedIsCount(b: Option<Bucket>, l: Limit, ts: seq<real>, x: real, y: real)
    ensures AllowedIn(b, l, ts, x, y) == Count(Answers(b, l, ts), ts, x, y)
    decreases |ts|
  {
    if ts != [] { AllowedIsCount(Some(After(b, l, ts[0])), l, ts[1..], x, y); }
  }

  function Later(top: Option<real>, t: real): real { if top.Some? && t < top.value then top.value else t }

  /** At each request, the highest reading of the clock so far. */
  function Highs(top: Option<real>, ts: seq<real>): (hs: seq<real>)
    ensures |hs| == |ts|
    decreases |ts|
  {
    if ts == [] then [] else [Later(top, ts[0])] + Highs(Some(Later(top, ts[0])), ts[1..])
  }

  lemma {:induction false} HighsGoForward(top: Option<real>, ts: seq<real>)
    ensures Forward(Highs(top, ts)) && (top.Some? && ts != [] ==> top.value <= Highs(top, ts)[0])
    decreases |ts|
  {
    if ts != [] { HighsGoForward(Some(Later(top, ts[0])), ts[1..]); }
  }

  function Last(b: Option<Bucket>): Option<real> { if b.Some? then Some(b.value.last) else None }

  /** A reading behind the highest is answered as the highest would be. */
  lemma {:induction false} OnlyHighsCount(b: Option<Bucket>, l: Limit, ts: seq<real>)
    ensures Answers(b, l, ts) == Answers(b, l, Highs(Last(b), ts))
    decreases |ts|
  {
    if ts != [] {
      var high := Later(Last(b), ts[0]);
      assert Refilled(b, l, ts[0]) == Refilled(b, l, high);
      OnlyHighsCount(Some(After(b, l, ts[0])), l, ts[1..]);
    }
  }

  /** Whatever the clock does, the window bound holds of time measured as the highest reading so far; and that is the
   *  reading itself when the clock does not go back. */
  lemma AnyClockIsBounded(rate: real, ts: seq<real>, x: real, y: real)
    requires rate > 0.0 && x <= y
    ensures Count(Answers(None, PerSecond(rate), ts), Highs(None, ts), x, y) as real <= 2.0 * rate + rate * (y - x)
    ensures Forward(ts) ==> Highs(None, ts) == ts
  {
    HighsGoForward(None, ts);
    OnlyHighsCount(None, PerSecond(rate), ts);
    AllowedIsCount(None, PerSecond(rate), Highs(None, ts), x, y);
    WindowIsBounded(rate, Highs(None, ts), x, y);
    if Forward(ts) { ForwardIsHigh(None, ts); }
  }

  lemma {:induction false} ForwardIsHigh(top: Option<real>, ts: seq<real>)
    requires Forward(ts) && (top.Some? && ts != [] ==> top.value <= ts[0])
    ensures Highs(top, ts) == ts
    decreases |ts|
  {
    if ts != [] { ForwardIsHigh(Some(ts[0]), ts[1..]); }
  }

  /** Measured by the readings themselves, a window can hold more once the clock goes back. */
  lemma BackwardsClockBreaksTheBound()
    ensures AllowedIn(None, PerSecond(1.0), [0.0] + ([0.0] + ([2.0] + ([0.0] + []))), 0.0, 0.0) == 3
  {
    var l := PerSecond(1.0);
    var s3: seq<real> := [0.0] + [];
    var s2, k3 := [2.0] + s3, Some(Bucket(1.0, 2.0));
    var s1, k2 := [0.0] + s2, Some(Bucket(0.0, 0.0));
    var s0, k1 := [0.0] + s1, Some(Bucket(1.0, 0.0));
    assert s3[1..] == [] && s2[1..] == s3 && s1[1..] == s2 && s0[1..] == s1;
    assert AllowedIn(k3, l, s3, 0.0, 0.0) == 1;
    assert AllowedIn(k2, l, s2, 0.0, 0.0) == 1;
    assert AllowedIn(k1, l, s1, 0.0, 0.0) == 2;
  }

  lemma CeilIsEnough(x: real)
    ensures Ceil(x) as real >= x
  {}

  /** A wait of at least short / rate seconds earns at least short. */
  lemma WaitEarns(short: real, rate: real, elapsed: real)
    requires rate > 0.0 && elapsed >= short / rate
    ensures elapsed * rate >= short
  {
    var exact := short / rate;
    assert exact * rate == short;
    Product(elapsed - exact, rate);
    Distribute(elapsed - exact, exact, rate);
  }

  /** A retry after the advised wait, with nothing in between, is allowed exactly when the rate is half a request a
   *  second or more. */
  lemma RetryAfterTheWait(b: Option<Bucket>, rate: real, now: real, later: real)
    requires rate > 0.0 && Level(b, PerSecond(rate)) && (b.Some? ==> b.value.last <= now) && !Allows(b, PerSecond(rate), now)
    requires later >= now + Wait(b, rate, now) as real / 1000.0
    ensures Allows(Some(After(b, PerSecond(rate), now)), PerSecond(rate), later) <==> rate >= 0.5
  {
    var l := PerSecond(rate);
    RateIsEven(rate);
    LevelKept(b, l, now);
    var k := After(b, l, now);
    var short := 1.0 - k.tokens;
    assert k == Refilled(b, l, now) && k.last == now;
    CeilIsEnough(short / rate * 1000.0);
    WaitEarns(short, rate, later - now);
    assert later > now by { if later <= now { Product(now - later, rate); Distribute(now - later, later - now, rate); } }
    assert l.earn(later - now) == (later - now) * rate;
  }

  /** Below half a request a second nothing is ever allowed. */
  lemma TooSlowForAnything(b: Option<Bucket>, rate: real, now: real)
    requires 0.0 < rate < 0.5 && Level(b, PerSecond(rate))
    ensures !Allows(b, PerSecond(rate), now)
  {
    RateIsEven(rate);
    LevelKept(b, PerSecond(rate), now);
  }
}
