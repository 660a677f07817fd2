/**
  The fixed-window rate limit: one Redis counter per client and window bucket, which expires a
  window after its first hit. Times in milliseconds; one clock for the API and Redis.
*/
module RateLimit {
  import opened Shared
  import Runs

  /** `window` is RATE_LIMIT_WINDOW_SECONDS. */
  datatype Config = Config(limit: nat, window: Positive)

  type Positive = n: nat | n > 0 witness 1

  datatype Counter = Counter(count: nat, expiresAt: nat)

  datatype Hit = Hit(client: nat, at: nat, admitted: bool)

  /** `hits`: every request so far, in order. */
  datatype State = State(now: nat, counters: map<(nat, nat), Counter>, hits: seq<Hit>)

  const QUIET := State(0, map[], [])

  datatype Step = Wait(ms: nat) | Request(client: nat)

  function Span(c: Config): nat { 1000 * c.window }

  function Bucket(c: Config, t: nat): nat {
    Divided(t, Span(c));
    t / Span(c)
  }

  lemma Divided(t: nat, p: nat)
    requires p > 0
    ensures 0 <= t / p
  {
  }

  predicate Visible(s: State, k: (nat, nat)) { k in s.counters && s.now < s.counters[k].expiresAt }

  /** INCR, and EXPIRE if it answers 1. */
  function Bumped(c: Config, s: State, k: (nat, nat)): Counter {
    if Visible(s, k) then s.counters[k].(count := s.counters[k].count + 1) else Counter(1, s.now + Span(c))
  }

  function Next(c: Config, s: State, step: Step): State {
    match step
    case Wait(ms) => s.(now := s.now + ms)
    case Request(client) =>
      var k := (client, Bucket(c, s.now));
      var counter := Bumped(c, s, k);
      s.(counters := s.counters[k := counter], hits := s.hits + [Hit(client, s.now, counter.count <= c.limit)])
  }

  // ---------------------------------------------------------------- counting requests

  predicate InBucket(c: Config, h: Hit, client: nat, b: nat) {
    h.client == client && Bucket(c, h.at) == b
  }

  function CountIn(c: Config, hits: seq<Hit>, client: nat, b: nat): nat {
    if hits == [] then 0
    else CountIn(c, hits[..|hits| - 1], client, b) + if InBucket(c, hits[|hits| - 1], client, b) then 1 else 0
  }

  function AdmittedIn(c: Config, hits: seq<Hit>, client: nat, b: nat): nat {
    if hits == [] then 0
    else
      var h := hits[|hits| - 1];
      AdmittedIn(c, hits[..|hits| - 1], client, b) + if InBucket(c, h, client, b) && h.admitted then 1 else 0
  }

  function AdmittedBetween(hits: seq<Hit>, client: nat, from: nat, to: nat): nat {
    if hits == [] then 0
    else
      var h := hits[|hits| - 1];
      AdmittedBetween(hits[..|hits| - 1], client, from, to)
        + if h.client == client && from <= h.at < to && h.admitted then 1 else 0
  }

  lemma CountSnoc(c: Config, hits: seq<Hit>, h: Hit, client: nat, b: nat)
    ensures CountIn(c, hits + [h], client, b) ==
      CountIn(c, hits, client, b) + if InBucket(c, h, client, b) then 1 else 0
  {
    assert (hits + [h])[..|hits|] == hits;
  }

  // ---------------------------------------------------------------- the invariant

  /** Request `i` is the first of its client in its bucket. */
  ghost predicate IsFirst(c: Config, hits: seq<Hit>, client: nat, b: nat, i: nat) {
    i < |hits| && InBucket(c, hits[i], client, b) && forall j | 0 <= j < i :: !InBucket(c, hits[j], client, b)
  }

  lemma {:induction false} FirstExists(c: Config, hits: seq<Hit>, client: nat, b: nat)
    ensures CountIn(c, hits, client, b) == 0 <==> forall j | 0 <= j < |hits| :: !InBucket(c, hits[j], client, b)
    decreases |hits|
  {
    if hits != [] { FirstExists(c, hits[..|hits| - 1], client, b); }
  }

  lemma OneFirst(c: Config, hits: seq<Hit>, client: nat, b: nat, i: nat, j: nat)
    requires IsFirst(c, hits, client, b, i) && IsFirst(c, hits, client, b, j)
    ensures i == j
  {
  }

  /** In the present bucket the counter is the number of requests, and it expires a window after the first of them. */
  ghost predicate CounterOk(c: Config, s: State, client: nat) {
    var b := Bucket(c, s.now);
    var n := CountIn(c, s.hits, client, b);
    if n == 0 then (client, b) !in s.counters
    else
      && (client, b) in s.counters && s.counters[(client, b)].count == n
      && exists i :: ExpiresWith(c, s, client, b, i)
  }

  /** The counter was made by request `i`, the first of its bucket. */
  ghost predicate ExpiresWith(c: Config, s: State, client: nat, b: nat, i: nat) {
    && IsFirst(c, s.hits, client, b, i) && s.hits[i].at <= s.now
    && (client, b) in s.counters && s.counters[(client, b)].expiresAt == s.hits[i].at + Span(c)
  }

  /** The counter of the present bucket outlives it. */
  lemma OutlivesBucket(c: Config, s: State, client: nat, i: nat)
    requires ExpiresWith(c, s, client, Bucket(c, s.now), i)
    ensures (Bucket(c, s.now) + 1) * Span(c) <= s.counters[(client, Bucket(c, s.now))].expiresAt <= s.now + Span(c)
    ensures Visible(s, (client, Bucket(c, s.now)))
  {
    var b := Bucket(c, s.now);
    BucketBounds(c, s.hits[i].at);
    BucketBounds(c, s.now);
    assert (b + 1) * Span(c) == b * Span(c) + Span(c);
  }

  /** Nothing has been counted for a bucket that has not begun. */
  ghost predicate FutureOk(c: Config, s: State, client: nat, b: nat) {
    b > Bucket(c, s.now) ==> (client, b) !in s.counters && CountIn(c, s.hits, client, b) == 0
  }

  /** A request is admitted exactly if fewer than `limit` of its client came before it in its bucket. */
  ghost predicate HitOk(c: Config, hits: seq<Hit>, i: nat)
    requires i < |hits|
  {
    hits[i].admitted <==> CountIn(c, hits[..i], hits[i].client, Bucket(c, hits[i].at)) < c.limit
  }

  ghost predicate Inv(c: Config, s: State) {
    && (forall client: nat :: CounterOk(c, s, client))
    && (forall client: nat, b: nat :: FutureOk(c, s, client, b))
    && (forall i | 0 <= i < |s.hits| :: HitOk(c, s.hits, i))
  }

  lemma BucketBounds(c: Config, t: nat)
    ensures Bucket(c, t) * Span(c) <= t < (Bucket(c, t) + 1) * Span(c)
  {
  }

  lemma BucketMonotone(c: Config, t: nat, u: nat)
    requires t <= u
    ensures Bucket(c, t) <= Bucket(c, u)
  {
    BucketBounds(c, t);
    BucketBounds(c, u);
    if Bucket(c, u) < Bucket(c, t) { MulMonotone(Bucket(c, u) + 1, Bucket(c, t), Span(c)); }
  }

  lemma WaitStep(c: Config, s: State, ms: nat)
    requires Inv(c, s)
    ensures Inv(c, Next(c, s, Wait(ms)))
  {
    var s' := Next(c, s, Wait(ms));
    var b := Bucket(c, s'.now);
    BucketMonotone(c, s.now, s'.now);
    forall client: nat ensures CounterOk(c, s', client) {
      assert CounterOk(c, s, client) && FutureOk(c, s, client, b);
      if CountIn(c, s.hits, client, b) > 0 {
        var i: nat :| ExpiresWith(c, s, client, b, i);
        assert ExpiresWith(c, s', client, b, i);
      }
    }
    forall client: nat, b: nat ensures FutureOk(c, s', client, b) { assert FutureOk(c, s, client, b); }
  }

  /** The first request makes the counter, later ones only count. */
  lemma RequestCounter(c: Config, s: State, client: nat, x: nat)
    requires CounterOk(c, s, x)
    ensures CounterOk(c, Next(c, s, Request(client)), x)
  {
    var s' := Next(c, s, Request(client));
    var b := Bucket(c, s.now);
    CountSnoc(c, s.hits, s'.hits[|s.hits|], x, b);
    if CountIn(c, s.hits, x, b) > 0 {
      var i: nat :| ExpiresWith(c, s, x, b, i);
      OutlivesBucket(c, s, x, i);
      assert ExpiresWith(c, s', x, b, i);
    } else if x == client {
      FirstExists(c, s.hits, x, b);
      assert ExpiresWith(c, s', x, b, |s.hits|);
    }
  }

  lemma RequestStep(c: Config, s: State, client: nat)
    requires Inv(c, s)
    ensures Inv(c, Next(c, s, Request(client)))
  {
    var s' := Next(c, s, Request(client));
    var b := Bucket(c, s.now);
    var h := s'.hits[|s.hits|];
    BucketBounds(c, s.now);
    forall x: nat ensures CounterOk(c, s', x) {
      assert CounterOk(c, s, x);
      RequestCounter(c, s, client, x);
    }
    forall x: nat, y: nat ensures FutureOk(c, s', x, y) {
      assert FutureOk(c, s, x, y);
      CountSnoc(c, s.hits, h, x, y);
    }
    forall i | 0 <= i < |s'.hits| ensures HitOk(c, s'.hits, i) {
      if i < |s.hits| {
        assert HitOk(c, s.hits, i) && s'.hits[..i] == s.hits[..i];
      } else {
        assert CounterOk(c, s, client) && s'.hits[..i] == s.hits;
      }
    }
  }

  ghost function Machine(c: Config): Runs.System<State, Step> {
    Runs.System(s => s == QUIET, (s, step) => true, (s, step) => Next(c, s, step))
  }

  ghost predicate Reachable(c: Config, s: State) { Runs.Reaches(Machine(c), s) }

  lemma ReachableInit(c: Config)
    ensures Reachable(c, QUIET)
  {
    Runs.Start(Machine(c), QUIET);
  }

  lemma ReachableStep(c: Config, s: State, step: Step, s': State)
    requires Reachable(c, s) && Next(c, s, step) == s'
    ensures Reachable(c, s')
  {
    Runs.Go(Machine(c), s, step, s');
  }

  lemma InvStep(c: Config, s: State, step: Step)
    requires Inv(c, s)
    ensures Inv(c, Next(c, s, step))
  {
    match step
    case Wait(ms) => WaitStep(c, s, ms);
    case Request(client) => RequestStep(c, s, client);
  }

  lemma InvReachable(c: Config, s: State)
    requires Reachable(c, s)
    ensures Inv(c, s)
  {
    forall x, step | Inv(c, x) ensures Inv(c, Next(c, x, step)) { InvStep(c, x, step); }
    Runs.Invariant(Machine(c), x => Inv(c, x), s);
  }

  // ---------------------------------------------------------------- theorems

  lemma {:induction false} AdmittedCount(c: Config, hits: seq<Hit>, client: nat, b: nat)
    requires forall i | 0 <= i < |hits| :: HitOk(c, hits, i)
    ensures AdmittedIn(c, hits, client, b) == Min(c.limit, CountIn(c, hits, client, b))
  {
    if hits != [] {
      var before := hits[..|hits| - 1];
      forall i | 0 <= i < |before| ensures HitOk(c, before, i) { assert HitOk(c, hits, i) && before[..i] == hits[..i]; }
      AdmittedCount(c, before, client, b);
      assert HitOk(c, hits, |hits| - 1);
    }
  }

  /** Bucket `b` holds the times from `b` windows on to the next. */
  lemma BucketIs(c: Config, t: nat, b: nat)
    ensures Bucket(c, t) == b <==> b * Span(c) <= t < (b + 1) * Span(c)
  {
    BucketBounds(c, t);
    if Bucket(c, t) < b { MulMonotone(Bucket(c, t) + 1, b, Span(c)); }
    if b < Bucket(c, t) { MulMonotone(b + 1, Bucket(c, t), Span(c)); }
  }

  /** In each bucket a client gets its first `limit` requests through, no more and no fewer. */
  lemma AdmittedPerBucket(c: Config, s: State, client: nat, b: nat)
    requires Reachable(c, s)
    ensures AdmittedIn(c, s.hits, client, b) == Min(c.limit, CountIn(c, s.hits, client, b))
    ensures forall h: Hit :: InBucket(c, h, client, b) <==>
      h.client == client && b * (1000 * c.window) <= h.at < (b + 1) * (1000 * c.window)
  {
    forall h: Hit
      ensures InBucket(c, h, client, b) <==>
        h.client == client && b * (1000 * c.window) <= h.at < (b + 1) * (1000 * c.window)
    {
      BucketIs(c, h.at, b);
    }
    InvReachable(c, s);
    AdmittedCount(c, s.hits, client, b);
  }

  /** A span of one window length touches two buckets at most. */
  lemma TwoBuckets(c: Config, from: nat, t: nat)
    requires from <= t < from + Span(c)
    ensures Bucket(c, t) == Bucket(c, from) || Bucket(c, t) == Bucket(c, from) + 1
  {
    BucketMonotone(c, from, t);
    BucketBounds(c, from);
    BucketBounds(c, t);
    if Bucket(c, t) >= Bucket(c, from) + 2 { MulMonotone(Bucket(c, from) + 2, Bucket(c, t), Span(c)); }
  }

  lemma {:induction false} BetweenBuckets(c: Config, hits: seq<Hit>, client: nat, from: nat)
    ensures AdmittedBetween(hits, client, from, from + Span(c))
         <= AdmittedIn(c, hits, client, Bucket(c, from)) + AdmittedIn(c, hits, client, Bucket(c, from) + 1)
  {
    if hits != [] {
      BetweenBuckets(c, hits[..|hits| - 1], client, from);
      var h := hits[|hits| - 1];
      if from <= h.at < from + Span(c) { TwoBuckets(c, from, h.at); }
    }
  }

  /** In any span of one window length, wherever it begins, at most twice the limit. */
  lemma AdmittedPerSpan(c: Config, s: State, client: nat, from: nat)
    requires Reachable(c, s)
    ensures AdmittedBetween(s.hits, client, from, from + 1000 * c.window) <= 2 * c.limit
  {
    BetweenBuckets(c, s.hits, client, from);
    AdmittedPerBucket(c, s, client, Bucket(c, from));
    AdmittedPerBucket(c, s, client, Bucket(c, from) + 1);
  }

  // ---------------------------------------------------------------- Retry-After

  /** TTL answers the remaining life in whole seconds, rounded to the nearest. */
  function TtlSeconds(remaining: nat): nat { (remaining + 500) / 1000 }

  function RetryAfter(remaining: nat): nat { if TtlSeconds(remaining) > 1 then TtlSeconds(remaining) else 1 }

  /** What is left of the counter of `client` in the present bucket. */
  function Remaining(c: Config, s: State, client: nat): nat {
    var k := (client, Bucket(c, s.now));
    if Visible(s, k) then s.counters[k].expiresAt - s.now else 0
  }

  /** What the answer of TTL falls short of the remaining life. */
  lemma CutOff(r: nat)
    ensures r - 1000 * RetryAfter(r) == if r < 500 then r - 1000 else (r + 500) % 1000 - 500
  {
  }

  /**
    The counter expires a window after the first request of its client in the bucket. Waiting
    Retry-After seconds leaves the client in that bucket exactly if TTL rounds the remaining life down,
    to a whole number of seconds of at least one, by more than how far into the bucket that first
    request came. It never rounds down by half a second, so half a second more is always enough.
  */
  lemma RetryReachesLaterBucket(c: Config, s: State, client: nat, first: nat)
    requires Reachable(c, s) && IsFirst(c, s.hits, client, Bucket(c, s.now), first)
    ensures Remaining(c, s, client) == s.hits[first].at + 1000 * c.window - s.now
    ensures var r := s.hits[first].at + 1000 * c.window - s.now;
      var offset := s.hits[first].at - Bucket(c, s.now) * (1000 * c.window);
      var retry := 1000 * RetryAfter(Remaining(c, s, client));
      && 0 <= offset
      && (Bucket(c, s.now + retry) == Bucket(c, s.now) <==> r >= 500 && (r + 500) % 1000 > 500 + offset)
      && Bucket(c, s.now + retry + 500) > Bucket(c, s.now)
  {
    InvReachable(c, s);
    assert CounterOk(c, s, client);
    var b := Bucket(c, s.now);
    FirstExists(c, s.hits, client, b);
    var i: nat :| ExpiresWith(c, s, client, b, i);
    OneFirst(c, s.hits, client, b, i, first);
    OutlivesBucket(c, s, client, i);
    var retry := 1000 * RetryAfter(Remaining(c, s, client));
    CutOff(Remaining(c, s, client));
    assert (b + 1) * Span(c) == b * Span(c) + Span(c);
    Reaches(c, b, s.now + retry);
    Reaches(c, b, s.now + retry + 500);
    BucketMonotone(c, s.now, s.now + retry);
  }

  lemma Reaches(c: Config, b: nat, t: nat)
    ensures Bucket(c, t) > b <==> (b + 1) * Span(c) <= t
  {
    BucketBounds(c, t);
    if Bucket(c, t) > b { MulMonotone(b + 1, Bucket(c, t), Span(c)); }
    if Bucket(c, t) <= b { MulMonotone(Bucket(c, t) + 1, b + 1, Span(c)); }
  }

  const SIXTY := Config(0, 60)

  /** It can happen: refused 600 ms into a bucket of 60 s, told to wait 59 s, still in the bucket after that. */
  lemma RetryTooEarly() returns (s: State, later: nat)
    ensures Reachable(SIXTY, s) && CountIn(SIXTY, s.hits, 0, Bucket(SIXTY, s.now)) == 1
    ensures later == s.now + 1000 * RetryAfter(Remaining(SIXTY, s, 0)) && Bucket(SIXTY, later) == Bucket(SIXTY, s.now)
  {
    ReachableInit(SIXTY);
    var s1 := Next(SIXTY, QUIET, Request(0));
    ReachableStep(SIXTY, QUIET, Request(0), s1);
    s := Next(SIXTY, s1, Wait(600));
    ReachableStep(SIXTY, s1, Wait(600), s);
    assert s == State(600, map[(0, 0) := Counter(1, 60_000)], [Hit(0, 0, false)]);
    var h := Hit(0, 0, false);
    assert [h][..0] == [] && CountIn(SIXTY, [h], 0, 0) == 1;
    assert Span(SIXTY) == 60_000 && Remaining(SIXTY, s, 0) == 59_400 && RetryAfter(59_400) == 59;
    assert Bucket(SIXTY, 600) == 0 && Bucket(SIXTY, 59_600) == 0;
    later := 59_600;
  }

  /** The bound of twice the limit is attained: one request at the end of a bucket, one at the start of the next. */
  lemma TwiceTheLimit() returns (s: State)
    ensures var c := Config(1, 1); Reachable(c, s) && AdmittedBetween(s.hits, 0, 999, 999 + Span(c)) == 2
  {
    var c := Config(1, 1);
    ReachableInit(c);
    var s1 := State(999, map[], []);
    ReachableStep(c, QUIET, Wait(999), s1);
    var s2 := State(999, map[(0, 0) := Counter(1, 1999)], [Hit(0, 999, true)]);
    assert s2 == Next(c, s1, Request(0));
    ReachableStep(c, s1, Request(0), s2);
    var s3 := Next(c, s2, Wait(1));
    ReachableStep(c, s2, Wait(1), s3);
    s := Next(c, s3, Request(0));
    ReachableStep(c, s3, Request(0), s);
    var first, second := Hit(0, 999, true), Hit(0, 1000, true);
    assert s.hits == [first, second];
    assert [first, second][..1] == [first] && [first][..0] == [];
    assert AdmittedBetween([first], 0, 999, 1999) == 1;
  }

  // ---------------------------------------------------------------- the hook

  /** The headers, and whether the request goes on. */
  datatype Answer = Answer(limit: nat, remaining: nat, reset: nat, admitted: bool)

  class Limiter {
    const config: Config
    var st: State

    ghost predicate Ok()
      reads this
    {
      Reachable(config, st)
    }

    constructor (config: Config)
      ensures Ok() && st == QUIET && this.config == config
    {
      this.config := config;
      st := QUIET;
      new;
      ReachableInit(config);
    }

    method Do(step: Step)
      requires Ok()
      modifies this
      ensures Ok() && st == Next(config, old(st), step)
    {
      ReachableStep(config, st, step, Next(config, st, step));
      st := Next(config, st, step);
    }

    /** `enforceRateLimit`: what the headers promise is what the bucket has left. */
    method Enforce(client: nat) returns (a: Answer)
      requires Ok()
      modifies this
      ensures Ok() && st.now == old(st.now) && |st.hits| == old(|st.hits|) + 1
        && st.hits[..old(|st.hits|)] == old(st.hits)
      ensures var earlier := CountIn(config, old(st.hits), client, Bucket(config, st.now));
        && (a.admitted <==> earlier < config.limit)
        && a.remaining == (if earlier + 1 <= config.limit then config.limit - earlier - 1 else 0)
      ensures st.hits[old(|st.hits|)] == Hit(client, st.now, a.admitted)
      ensures a.limit == config.limit && a.reset == RetryAfter(Remaining(config, st, client))
        && 1 <= a.reset <= config.window + 1
    {
      InvReachable(config, st);
      assert CounterOk(config, st, client);
      RequestCounter(config, st, client, client);
      var k := (client, Bucket(config, st.now));
      Do(Request(client));
      var count := st.counters[k].count;
      var ttl := TtlSeconds(st.counters[k].expiresAt - st.now);
      var reset := if ttl > 1 then ttl else 1;
      a := Answer(config.limit, if config.limit > count then config.limit - count else 0, reset, count <= config.limit);
    }
  }
}
