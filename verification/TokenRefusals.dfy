/** The limiter refuses nothing it could allow: a request is refused exactly when allowing it would break the window bound,
 *  and the wait it advises is the least that helps. */
module TokenRefusals {
  import opened Options
  import opened TokenBucket

  /** The bucket as request i finds it, before it is refilled. */
  function Before(l: Limit, ts: seq<real>, i: nat): Option<Bucket>
    requires i <= |ts|
  {
    Run(None, l, ts[..i])
  }

  function Tokens(l: Limit, ts: seq<real>, i: nat): real
    requires i < |ts|
  {
    Refilled(Before(l, ts, i), l, ts[i]).tokens
  }

  /** How many of the requests from j to before i are allowed. */
  function Spent(l: Limit, ts: seq<real>, j: nat, i: nat): nat
    requires j <= i <= |ts|
    decreases i
  {
    if j == i then 0 else Spent(l, ts, j, i - 1) + if Tokens(l, ts, i - 1) >= 1.0 then 1 else 0
  }

  lemma {:induction false} RunAppend(b: Option<Bucket>, l: Limit, ts: seq<real>, t: real)
    ensures Run(b, l, ts + [t]) == Some(After(Run(b, l, ts), l, t))
    decreases |ts|
  {
    if ts == [] {
      assert (ts + [t])[1..] == [];
    } else {
      assert (ts + [t])[1..] == ts[1..] + [t];
      RunAppend(Some(After(b, l, ts[0])), l, ts[1..], t);
    }
  }

  lemma {:induction false} InTime(ts: seq<real>, i: nat, j: nat)
    requires Forward(ts) && i <= j < |ts|
    ensures ts[i] <= ts[j]
    decreases |ts|
  {
    if i > 0 {
      InTime(ts[1..], i - 1, j - 1);
    } else if j > 0 {
      InTime(ts[1..], 0, j - 1);
    }
  }

  /** Request i leaves what it found, less its token, and its time. */
  lemma {:induction false} AfterRequest(l: Limit, ts: seq<real>, i: nat)
    requires Even(l) && Forward(ts) && i < |ts|
    ensures Before(l, ts, i + 1) == Some(Bucket(Tokens(l, ts, i) - if Tokens(l, ts, i) >= 1.0 then 1.0 else 0.0, ts[i]))
    ensures 0.0 <= Tokens(l, ts, i) <= l.capacity
  {
    assert ts[..i + 1] == ts[..i] + [ts[i]];
    RunAppend(None, l, ts[..i], ts[i]);
    TokensStayInRange(None, l, ts[..i]);
    LevelKept(Before(l, ts, i), l, ts[i]);
    if i > 0 {
      AfterRequest(l, ts, i - 1);
      InTime(ts, i - 1, i);
    }
  }

  /** The refill is what the time earned, up to the capacity. */
  lemma NextTokens(l: Limit, ts: seq<real>, i: nat)
    requires Even(l) && Forward(ts) && i + 1 < |ts|
    ensures Tokens(l, ts, i + 1) ==
            Min(l.capacity, Tokens(l, ts, i) - (if Tokens(l, ts, i) >= 1.0 then 1.0 else 0.0) + l.earn(ts[i + 1] - ts[i]))
  {
    AfterRequest(l, ts, i);
    InTime(ts, i, i + 1);
    assert Adds(l, 0.0, 0.0);
  }

  /** What the requests since j leave of what was there and what was earned. */
  function Headroom(l: Limit, ts: seq<real>, j: nat, i: nat): real
    requires j <= i < |ts|
  {
    l.capacity + l.earn(ts[i] - ts[j]) - Spent(l, ts, j, i) as real
  }

  lemma HeadroomMoves(l: Limit, ts: seq<real>, j: nat, i: nat)
    requires Even(l) && j <= i && i + 1 < |ts|
    ensures Headroom(l, ts, j, i + 1) == Headroom(l, ts, j, i) - (if Tokens(l, ts, i) >= 1.0 then 1.0 else 0.0) + l.earn(ts[i + 1] - ts[i])
  {
    assert Adds(l, ts[i] - ts[j], ts[i + 1] - ts[i]);
    assert ts[i] - ts[j] + (ts[i + 1] - ts[i]) == ts[i + 1] - ts[j];
  }

  lemma HeadroomNow(l: Limit, ts: seq<real>, i: nat)
    requires Even(l) && i < |ts|
    ensures Headroom(l, ts, i, i) == l.capacity
  {
    assert Adds(l, 0.0, 0.0);
  }

  /** The tokens are the least headroom since any request so far. */
  lemma {:induction false} TokensAreTheLeastHeadroom(l: Limit, ts: seq<real>, i: nat) returns (k: nat)
    requires Even(l) && Forward(ts) && i < |ts|
    ensures k <= i && Tokens(l, ts, i) == Headroom(l, ts, k, i)
    ensures forall j :: 0 <= j <= i ==> Tokens(l, ts, i) <= Headroom(l, ts, j, i)
  {
    HeadroomNow(l, ts, i);
    if i == 0 {
      k := 0;
      assert ts[..0] == [];
    } else {
      k := TokensAreTheLeastHeadroom(l, ts, i - 1);
      NextTokens(l, ts, i - 1);
      HeadroomMoves(l, ts, k, i - 1);
      forall j | 0 <= j <= i ensures Tokens(l, ts, i) <= Headroom(l, ts, j, i) { if j < i { HeadroomMoves(l, ts, j, i - 1); } }
      if Tokens(l, ts, i) == l.capacity { k := i; }
    }
  }

  // --- counting in a window ------------------------------------------------------------

  lemma {:induction false} CountAppend(allowed: seq<bool>, ts: seq<real>, a: bool, t: real, x: real, y: real)
    requires |allowed| == |ts|
    ensures Count(allowed + [a], ts + [t], x, y) == Count(allowed, ts, x, y) + if a && x <= t <= y then 1 else 0
    decreases |ts|
  {
    if ts == [] {
      assert (ts + [t])[1..] == [] && (allowed + [a])[1..] == [];
    } else {
      assert (ts + [t])[1..] == ts[1..] + [t] && (allowed + [a])[1..] == allowed[1..] + [a];
      CountAppend(allowed[1..], ts[1..], a, t, x, y);
    }
  }

  lemma {:induction false} AnswerAt(b: Option<Bucket>, l: Limit, ts: seq<real>, i: nat)
    requires i < |ts|
    ensures Answers(b, l, ts)[i] <==> Refilled(Run(b, l, ts[..i]), l, ts[i]).tokens >= 1.0
    decreases |ts|
  {
    if i > 0 {
      AnswerAt(Some(After(b, l, ts[0])), l, ts[1..], i - 1);
      assert ts[..i][1..] == ts[1..][..i - 1];
    }
  }

  /** The allowed among the first n, in the window. */
  function AllowedFirst(l: Limit, ts: seq<real>, n: nat, x: real, y: real): nat
    requires n <= |ts|
  {
    Count(Answers(None, l, ts)[..n], ts[..n], x, y)
  }

  lemma OneMoreAllowed(l: Limit, ts: seq<real>, n: nat, x: real, y: real)
    requires n < |ts|
    ensures AllowedFirst(l, ts, n + 1, x, y) == AllowedFirst(l, ts, n, x, y) + if Tokens(l, ts, n) >= 1.0 && x <= ts[n] <= y then 1 else 0
  {
    var allowed := Answers(None, l, ts);
    AnswerAt(None, l, ts, n);
    assert allowed[..n + 1] == allowed[..n] + [allowed[n]] && ts[..n + 1] == ts[..n] + [ts[n]];
    CountAppend(allowed[..n], ts[..n], allowed[n], ts[n], x, y);
  }

  /** In the window from request j's time on, the requests since j and those before it count. */
  lemma {:induction false} WindowSince(l: Limit, ts: seq<real>, j: nat, n: nat, y: real)
    requires Forward(ts) && j <= n <= |ts| && (n > 0 ==> ts[n - 1] <= y) && j < |ts|
    ensures AllowedFirst(l, ts, n, ts[j], y) == AllowedFirst(l, ts, j, ts[j], y) + Spent(l, ts, j, n)
  {
    if j < n {
      InTime(ts, j, n - 1);
      if n > 1 { InTime(ts, n - 2, n - 1); }
      WindowSince(l, ts, j, n - 1, y);
      OneMoreAllowed(l, ts, n - 1, ts[j], y);
    }
  }

  lemma {:induction false} NoneBefore(l: Limit, ts: seq<real>, n: nat, x: real, y: real)
    requires n <= |ts| && forall k :: 0 <= k < n ==> ts[k] < x
    ensures AllowedFirst(l, ts, n, x, y) == 0
  {
    if n > 0 {
      NoneBefore(l, ts, n - 1, x, y);
      OneMoreAllowed(l, ts, n - 1, x, y);
    }
  }

  /** The first request at a time. */
  lemma {:induction false} FirstAt(ts: seq<real>, x: real, n: nat) returns (j: nat)
    requires Forward(ts) && n < |ts| && ts[n] == x
    ensures j <= n && ts[j] == x && forall k :: 0 <= k < j ==> ts[k] < x
  {
    if n > 0 && ts[n - 1] == x {
      j := FirstAt(ts, x, n - 1);
    } else {
      j := n;
      forall k | 0 <= k < n ensures ts[k] < x { InTime(ts, k, n - 1); InTime(ts, n - 1, n); }
    }
  }

  // --- refusals -------------------------------------------------------------------------

  /** Twice the rate, and the rate times the time. */
  function Bound(rate: real, elapsed: real): real { 2.0 * rate + rate * elapsed }

  /** Since the request at x so much was allowed that one more at request i would be more than the bound. */
  ghost predicate WouldBreak(rate: real, allowed: seq<bool>, ts: seq<real>, i: nat, x: real)
    requires |allowed| == |ts| && i < |ts|
  {
    Over(allowed, ts, i, x, Bound(rate, ts[i] - x))
  }

  /** With request i more would be allowed since the request at x than the bound. */
  ghost predicate Over(allowed: seq<bool>, ts: seq<real>, i: nat, x: real, bound: real)
    requires |allowed| == |ts| && i < |ts|
  {
    x in ts[..i + 1] && Count(allowed[..i], ts[..i], x, ts[i]) as real + 1.0 > bound
  }

  ghost predicate Breaks(l: Limit, ts: seq<real>, i: nat, x: real)
    requires i < |ts|
  {
    x in ts[..i + 1] && AllowedFirst(l, ts, i, x, ts[i]) as real + 1.0 > l.capacity + l.earn(ts[i] - x)
  }

  lemma HeadroomBreaks(l: Limit, ts: seq<real>, k: nat, i: nat)
    requires Forward(ts) && k <= i < |ts| && Headroom(l, ts, k, i) < 1.0
    ensures Breaks(l, ts, i, ts[k])
  {
    if i > 0 { InTime(ts, i - 1, i); }
    WindowSince(l, ts, k, i, ts[i]);
    assert ts[..i + 1][k] == ts[k];
  }

  lemma RefusedBreaks(l: Limit, ts: seq<real>, i: nat)
    requires Even(l) && Forward(ts) && i < |ts| && Tokens(l, ts, i) < 1.0
    ensures exists x :: Breaks(l, ts, i, x)
  {
    var k := TokensAreTheLeastHeadroom(l, ts, i);
    HeadroomBreaks(l, ts, k, i);
  }

  lemma BreaksHeadroom(l: Limit, ts: seq<real>, j: nat, i: nat)
    requires Forward(ts) && j <= i < |ts| && Breaks(l, ts, i, ts[j]) && forall k :: 0 <= k < j ==> ts[k] < ts[j]
    ensures Headroom(l, ts, j, i) < 1.0
  {
    if i > 0 { InTime(ts, i - 1, i); }
    NoneBefore(l, ts, j, ts[j], ts[i]);
    WindowSince(l, ts, j, i, ts[i]);
  }

  lemma BreaksRefuses(l: Limit, ts: seq<real>, i: nat, x: real)
    requires Even(l) && Forward(ts) && i < |ts| && Breaks(l, ts, i, x)
    ensures Tokens(l, ts, i) < 1.0
  {
    var n :| 0 <= n < |ts[..i + 1]| && ts[..i + 1][n] == x;
    var j := FirstAt(ts, x, n);
    BreaksHeadroom(l, ts, j, i);
    var k := TokensAreTheLeastHeadroom(l, ts, i);
  }

  lemma BoundPerSecond(rate: real, elapsed: real)
    ensures PerSecond(rate).capacity + PerSecond(rate).earn(elapsed) == Bound(rate, elapsed)
  {}

  lemma WouldBreakIs(l: Limit, rate: real, ts: seq<real>, i: nat, x: real)
    requires i < |ts| && l.capacity + l.earn(ts[i] - x) == Bound(rate, ts[i] - x)
    ensures WouldBreak(rate, Answers(None, l, ts), ts, i, x) <==> Breaks(l, ts, i, x)
  {
    OverIs(l, ts, i, x, Bound(rate, ts[i] - x));
  }

  lemma OverIs(l: Limit, ts: seq<real>, i: nat, x: real, bound: real)
    requires i < |ts| && l.capacity + l.earn(ts[i] - x) == bound
    ensures Over(Answers(None, l, ts), ts, i, x, bound) <==> Breaks(l, ts, i, x)
  {}

  /** A request is refused exactly when, with it, more would be allowed since some request, this one or one before it, than
   *  twice the rate and the rate times the time since. */
  lemma RefusedExactlyWhenItWouldBreakTheBound(rate: real, ts: seq<real>, i: nat)
    requires rate > 0.0 && Forward(ts) && i < |ts|
    ensures var allowed := Answers(None, PerSecond(rate), ts); !allowed[i] <==> exists x :: WouldBreak(rate, allowed, ts, i, x)
  {
    RateIsEven(rate);
    RefusedExactly(PerSecond(rate), ts, i);
    forall x ensures WouldBreak(rate, Answers(None, PerSecond(rate), ts), ts, i, x) <==> Breaks(PerSecond(rate), ts, i, x) {
      BoundPerSecond(rate, ts[i] - x);
      WouldBreakIs(PerSecond(rate), rate, ts, i, x);
    }
  }

  lemma RefusedExactly(l: Limit, ts: seq<real>, i: nat)
    requires Even(l) && Forward(ts) && i < |ts|
    ensures !Answers(None, l, ts)[i] <==> exists x :: Breaks(l, ts, i, x)
  {
    AnswerAt(None, l, ts, i);
    if Tokens(l, ts, i) < 1.0 { RefusedBreaks(l, ts, i); }
    if x :| Breaks(l, ts, i, x) { BreaksRefuses(l, ts, i, x); }
  }

  function AtOnce(n: nat, t: real): (ts: seq<real>) { seq(n, _ => t) }

  lemma {:induction false} SpendsAllItHas(tokens: real, l: Limit, n: nat, t: real)
    requires tokens >= 0.0
    ensures AllowedIn(Some(Bucket(tokens, t)), l, AtOnce(n, t), t, t) == if n < tokens.Floor then n else tokens.Floor
  {
    if n > 0 {
      assert AtOnce(n, t)[1..] == AtOnce(n - 1, t);
      if tokens >= 1.0 { SpendsAllItHas(tokens - 1.0, l, n - 1, t); } else { SpendsAllItHas(tokens, l, n - 1, t); }
    }
  }

  /** Of any number of requests at one instant a new key is allowed as many as twice its rate, whole ones, and no fewer. */
  lemma BurstIsTwiceTheRate(rate: real, n: nat, t: real)
    requires rate > 0.0
    ensures AllowedIn(None, PerSecond(rate), AtOnce(n, t), t, t) == if n < (2.0 * rate).Floor then n else (2.0 * rate).Floor
  {
    if n > 0 {
      var cap := 2.0 * rate;
      assert AtOnce(n, t)[1..] == AtOnce(n - 1, t);
      if cap >= 1.0 { SpendsAllItHas(cap - 1.0, PerSecond(rate), n - 1, t); } else { SpendsAllItHas(cap, PerSecond(rate), n - 1, t); }
    }
  }

  lemma CeilIsTight(x: real)
    ensures (Ceil(x) - 1) as real < x
  {}

  lemma TooShort(short: real, rate: real, elapsed: real)
    requires rate > 0.0 && elapsed <= (Ceil(short / rate * 1000.0) - 1) as real / 1000.0
    ensures elapsed * rate < short
  {
    var exact := short / rate;
    assert exact * rate == short;
    CeilIsTight(exact * 1000.0);
    assert elapsed < exact;
    Scaled(elapsed, exact, rate);
  }

  lemma Scaled(x: real, y: real, z: real)
    requires x < y && z > 0.0
    ensures x * z < y * z
  {}

  /** The advised wait is the least in whole milliseconds: a retry a millisecond earlier is refused. */
  lemma WaitIsTheLeast(b: Option<Bucket>, rate: real, now: real, later: real)
    requires rate > 0.0 && Level(b, PerSecond(rate)) && (b.Some? ==> b.value.last <= now) && !Allows(b, PerSecond(rate), now)
    requires later <= now + (Wait(b, rate, now) - 1) as real / 1000.0
    ensures !Allows(Some(After(b, PerSecond(rate), now)), PerSecond(rate), later)
  {
    var k := After(b, PerSecond(rate), now);
    assert k == Refilled(b, PerSecond(rate), now) && k.last == now;
    TooShort(1.0 - k.tokens, rate, later - now);
    StillShort(k, PerSecond(rate), later);
  }

  lemma StillShort(k: Bucket, l: Limit, later: real)
    requires k.tokens < 1.0 && k.tokens + l.earn(later - k.last) < 1.0
    ensures !Allows(Some(k), l, later)
  {}
}
