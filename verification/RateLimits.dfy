/**
 Fixed-window rate limiting (apps/guess/src/http/rate-limit.ts). Times are milliseconds;
 the peppered, daily rotated hash of a client address is taken to be collision-free.
 */
module RateLimits {

  datatype Endpoint = CreateSession | CreateGame | Hint | Guess | Advance | ShareResults | AdminLogin | AdminMutation

  type Client = int

  const SECOND := 1000
  const DAY := 86_400_000

  function WindowSeconds(e: Endpoint): int {
    if e == AdminLogin then 300 else 60
  }

  function Limit(e: Endpoint): int {
    match e
    case CreateSession => 10
    case CreateGame => 10
    case Hint => 60
    case Guess => 60
    case Advance => 30
    case ShareResults => 30
    case AdminLogin => 10
    case AdminMutation => 30
  }

  function Window(e: Endpoint): int {
    WindowSeconds(e) * SECOND
  }

  /** What a bucket is keyed by: the client under the day's hash, the endpoint and the window. */
  datatype Bucket = Bucket(client: Client, day: int, endpoint: Endpoint, start: int)

  datatype Request = Request(client: Client, endpoint: Endpoint, now: int)

  function WindowStart(now: int, e: Endpoint): int {
    if e == AdminLogin then now / 300_000 * 300_000 else now / 60_000 * 60_000
  }

  function BucketOf(r: Request): Bucket {
    Bucket(r.client, r.now / DAY, r.endpoint, WindowStart(r.now, r.endpoint))
  }

  type Buckets = map<Bucket, int>

  function CountIn(buckets: Buckets, b: Bucket): int {
    if b in buckets then buckets[b] else 0
  }

  datatype Verdict = Allowed | RetryAfter(seconds: int)

  /** `Math.max(1, Math.ceil((windowEnd - now) / 1000))` */
  function RetrySeconds(r: Request): int {
    var left := WindowStart(r.now, r.endpoint) + Window(r.endpoint) - r.now;
    var seconds := (left + SECOND - 1) / SECOND;
    if seconds < 1 then 1 else seconds
  }

  function VerdictOn(buckets: Buckets, r: Request): Verdict {
    if CountIn(buckets, BucketOf(r)) + 1 > Limit(r.endpoint) then RetryAfter(RetrySeconds(r)) else Allowed
  }

  function Incremented(buckets: Buckets, b: Bucket): Buckets {
    buckets[b := CountIn(buckets, b) + 1]
  }

  class RateLimiter {
    var buckets: Buckets

    constructor ()
      ensures buckets == map[]
    {
      buckets := map[];
    }

    method IncrementAndCheck(b: Bucket) returns (count: int)
      modifies this
      ensures buckets == Incremented(old(buckets), b) && count == buckets[b]
    {
      count := 1;
      if b in buckets {
        count := buckets[b] + 1;
      }
      buckets := buckets[b := count];
    }

    method Enforce(r: Request) returns (v: Verdict)
      modifies this
      ensures buckets == Incremented(old(buckets), BucketOf(r)) && v == VerdictOn(old(buckets), r)
    {
      var count := IncrementAndCheck(BucketOf(r));
      if count > Limit(r.endpoint) {
        v := RetryAfter(RetrySeconds(r));
      } else {
        v := Allowed;
      }
    }
  }

  // --------------------------------------------------------------------
  // Windows and waiting
  // --------------------------------------------------------------------

  /** No window straddles a day, so the day in a bucket's key adds nothing to its window. */
  lemma WindowsStayInsideDays(client: Client, e: Endpoint, t: int, u: int)
    requires WindowStart(t, e) == WindowStart(u, e)
    ensures BucketOf(Request(client, e, t)) == BucketOf(Request(client, e, u))
  {
    DayOfWindow(t, e);
    DayOfWindow(u, e);
  }

  /** A window lies in the day it starts in. */
  lemma DayOfWindow(t: int, e: Endpoint)
    ensures t / DAY == WindowStart(t, e) / DAY
  {
    var day, rest := t / DAY, t % DAY;
    assert t == day * DAY + rest;
    if e == AdminLogin {
      assert t / 300_000 == day * 288 + rest / 300_000;
    } else {
      assert t / 60_000 == day * 1440 + rest / 60_000;
    }
  }

  lemma WindowStartIs(x: int, e: Endpoint, k: int)
    requires k * Window(e) <= x < (k + 1) * Window(e)
    ensures WindowStart(x, e) == k * Window(e)
  {
  }

  lemma WindowContains(x: int, e: Endpoint) returns (k: int)
    ensures WindowStart(x, e) == k * Window(e) && k * Window(e) <= x < (k + 1) * Window(e)
  {
    k := if e == AdminLogin then x / 300_000 else x / 60_000;
  }

  /** The wait is between one second and the window's length, reaches the next window, and one second less would not. */
  lemma WaitReachesNextWindow(r: Request)
    ensures var wait := RetrySeconds(r);
      && 1 <= wait <= WindowSeconds(r.endpoint)
      && WindowStart(r.now + wait * SECOND, r.endpoint) == WindowStart(r.now, r.endpoint) + Window(r.endpoint)
      && WindowStart(r.now + (wait - 1) * SECOND, r.endpoint) == WindowStart(r.now, r.endpoint)
  {
    var e := r.endpoint;
    var k := WindowContains(r.now, e);
    var left := (k + 1) * Window(e) - r.now;
    assert 0 < left <= Window(e);
    var wait := RetrySeconds(r);
    assert wait == (left + SECOND - 1) / SECOND;
    assert wait * SECOND >= left && (wait - 1) * SECOND < left;
    WindowStartIs(r.now + wait * SECOND, e, k + 1);
    WindowStartIs(r.now + (wait - 1) * SECOND, e, k);
  }

  // --------------------------------------------------------------------
  // Whole runs
  // --------------------------------------------------------------------

  /** The buckets after a run of requests. */
  function After(rs: seq<Request>): Buckets {
    if rs == [] then map[]
    else Incremented(After(rs[..|rs| - 1]), BucketOf(rs[|rs| - 1]))
  }

  /** How many requests of the run fell into the bucket. */
  function Hits(rs: seq<Request>, b: Bucket): int {
    if rs == [] then 0
    else Hits(rs[..|rs| - 1], b) + if BucketOf(rs[|rs| - 1]) == b then 1 else 0
  }

  /** How many of those that satisfy `counts` were let through. */
  function Passed(rs: seq<Request>, counts: Request -> bool): int {
    if rs == [] then 0
    else
      var n := |rs| - 1;
      Passed(rs[..n], counts) + if counts(rs[n]) && VerdictOn(After(rs[..n]), rs[n]).Allowed? then 1 else 0
  }

  lemma {:induction false} BucketsCountHits(rs: seq<Request>, b: Bucket)
    ensures CountIn(After(rs), b) == Hits(rs, b)
  {
    if rs != [] {
      BucketsCountHits(rs[..|rs| - 1], b);
    }
  }

  function InBucket(b: Bucket): Request -> bool {
    (r: Request) => BucketOf(r) == b
  }

  /** Of one bucket exactly the first `limit` requests pass. */
  lemma {:induction false} BucketPassesLimit(rs: seq<Request>, b: Bucket)
    ensures Passed(rs, InBucket(b)) == if Hits(rs, b) < Limit(b.endpoint) then Hits(rs, b) else Limit(b.endpoint)
  {
    if rs != [] {
      BucketPassesLimit(rs[..|rs| - 1], b);
      BucketsCountHits(rs[..|rs| - 1], b);
    }
  }

  function InSpan(client: Client, e: Endpoint, from: int, to: int): Request -> bool {
    (r: Request) => r.client == client && r.endpoint == e && from <= r.now < to
  }

  /** A span of one window meets two windows at most. */
  lemma SpanMeetsTwoWindows(r: Request, from: int)
    requires from <= r.now < from + Window(r.endpoint)
    ensures BucketOf(r) == BucketOf(r.(now := from)) || BucketOf(r) == BucketOf(r.(now := from + Window(r.endpoint)))
  {
    var e := r.endpoint;
    var k := WindowContains(from, e);
    WindowStartIs(from + Window(e), e, k + 1);
    if r.now < (k + 1) * Window(e) {
      WindowStartIs(r.now, e, k);
      WindowsStayInsideDays(r.client, e, r.now, from);
    } else {
      WindowStartIs(r.now, e, k + 1);
      WindowsStayInsideDays(r.client, e, r.now, from + Window(e));
    }
  }

  lemma {:induction false} SpanIsCovered(rs: seq<Request>, client: Client, e: Endpoint, from: int)
    ensures var b1, b2 := BucketOf(Request(client, e, from)), BucketOf(Request(client, e, from + Window(e)));
      Passed(rs, InSpan(client, e, from, from + Window(e))) <= Passed(rs, InBucket(b1)) + Passed(rs, InBucket(b2))
  {
    if rs != [] {
      var r := rs[|rs| - 1];
      SpanIsCovered(rs[..|rs| - 1], client, e, from);
      if InSpan(client, e, from, from + Window(e))(r) {
        SpanMeetsTwoWindows(r, from);
      }
    }
  }

  /** Whatever is requested and when, in any span of one window a client gets at most twice the limit through. */
  lemma AtMostTwiceTheLimit(rs: seq<Request>, client: Client, e: Endpoint, from: int)
    ensures Passed(rs, InSpan(client, e, from, from + Window(e))) <= 2 * Limit(e)
  {
    SpanIsCovered(rs, client, e, from);
    BucketPassesLimit(rs, BucketOf(Request(client, e, from)));
    BucketPassesLimit(rs, BucketOf(Request(client, e, from + Window(e))));
  }

  /** n requests of a client at one moment. */
  function Burst(n: int, r: Request): (rs: seq<Request>)
    requires n >= 0
    ensures |rs| == n
  {
    if n == 0 then [] else Burst(n - 1, r) + [r]
  }

  lemma BurstEnds(before: seq<Request>, n: int, r: Request)
    requires n > 0
    ensures var rs := before + Burst(n, r);
      rs != [] && rs[..|rs| - 1] == before + Burst(n - 1, r) && rs[|rs| - 1] == r
  {
  }

  lemma {:induction false} BurstHits(before: seq<Request>, n: int, r: Request)
    requires 0 <= n
    ensures Hits(before + Burst(n, r), BucketOf(r)) == Hits(before, BucketOf(r)) + n
    decreases n
  {
    if n == 0 {
      assert before + Burst(0, r) == before;
    } else {
      BurstEnds(before, n, r);
      BurstHits(before, n - 1, r);
    }
  }

  lemma {:induction false} BurstPasses(before: seq<Request>, n: int, r: Request, counts: Request -> bool)
    requires 0 <= n && Hits(before, BucketOf(r)) == 0 && n <= Limit(r.endpoint) && counts(r)
    ensures Passed(before + Burst(n, r), counts) == Passed(before, counts) + n
    decreases n
  {
    if n == 0 {
      assert before + Burst(0, r) == before;
    } else {
      BurstEnds(before, n, r);
      BurstPasses(before, n - 1, r, counts);
      BurstHits(before, n - 1, r);
      OneMorePasses(before + Burst(n, r), before + Burst(n - 1, r), r, counts);
    }
  }

  lemma OneMorePasses(rs: seq<Request>, init: seq<Request>, r: Request, counts: Request -> bool)
    requires rs != [] && rs[..|rs| - 1] == init && rs[|rs| - 1] == r && counts(r)
    requires Hits(init, BucketOf(r)) < Limit(r.endpoint)
    ensures Passed(rs, counts) == Passed(init, counts) + 1
  {
    BucketsCountHits(init, BucketOf(r));
  }

  lemma {:induction false} BurstElsewhere(n: int, r: Request, b: Bucket)
    requires n >= 0 && BucketOf(r) != b
    ensures Hits(Burst(n, r), b) == 0
    decreases n
  {
    if n > 0 {
      assert Burst(n, r)[..n - 1] == Burst(n - 1, r);
      BurstElsewhere(n - 1, r, b);
    }
  }

  /** The bound is reached: a burst at the end of a window and one at the start of the next all pass. */
  lemma TwiceTheLimitIsReached(client: Client, e: Endpoint) returns (rs: seq<Request>, from: int)
    ensures Passed(rs, InSpan(client, e, from, from + Window(e))) == 2 * Limit(e)
  {
    from := Window(e) - 1;
    var last, first := Request(client, e, from), Request(client, e, from + 1);
    var counts := InSpan(client, e, from, from + Window(e));
    assert [] + Burst(Limit(e), last) == Burst(Limit(e), last);
    BurstPasses([], Limit(e), last, counts);
    BurstElsewhere(Limit(e), last, BucketOf(first));
    BurstPasses(Burst(Limit(e), last), Limit(e), first, counts);
    rs := Burst(Limit(e), last) + Burst(Limit(e), first);
  }
}
