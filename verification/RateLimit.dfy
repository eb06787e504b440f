/** The per-client rate limit: one counter per client and window of W seconds, shared by the two ways an API client
    can authenticate. Time is in nanoseconds. */
module RateLimit {
  import opened Text
  import opened TimedCache

  const SECOND: nat := 1_000_000_000

  // RateLimitMax and RateLimitWindowSeconds
  datatype Limit = Limit(max: nat, window: nat)

  // Clients are stored with a window of at least one second.
  type Limits = m: map<string, Limit> | forall id :: id in m ==> m[id].window > 0

  // time.Now().Unix() / window
  function Bucket(now: nat, window: nat): nat
    requires window > 0
  {
    now / SECOND / window
  }

  function Key(id: string, bucket: nat): string {
    "apiclient_rl:" + id + ":" + Decimal(bucket)
  }

  // The window in nanoseconds
  function Span(window: nat): nat {
    window * SECOND
  }

  function Admit(limit: Limit, store: Store<()>, id: string, now: nat): (Store<()>, bool)
    requires limit.window > 0
  {
    var key := Key(id, Bucket(now, limit.window));
    var store' := Incremented(store, key, Span(limit.window), now, ());
    (store', store'[key].counter <= limit.max)
  }

  // The request is counted under its client and window, on the live counter or a new one that lasts as long as the
  // window, nothing else changes, and it passes while the count is within the limit.
  predicate CountedOnce(limit: Limit, before: Store<()>, after: Store<()>, id: string, now: nat, allowed: bool)
    requires limit.window > 0
  {
    var key := "apiclient_rl:" + id + ":" + Decimal(now / 1_000_000_000 / limit.window);
    && key in after && SameElsewhere(before, after, [key])
    && (if key in before && LivesAt(before[key], now)
        then after[key].counter == before[key].counter + 1 && after[key].expires == before[key].expires
        else after[key].counter == 1 && Expires(after[key], limit.window * 1_000_000_000, now))
    && (allowed <==> after[key].counter <= limit.max)
  }

  class Server {
    const cache: MemoryCache<()>
    const limits: Limits

    constructor (c: MemoryCache<()>, l: Limits)
      ensures cache == c && limits == l
    {
      cache, limits := c, l;
    }

    // The limit in authenticateAny, for the admin API
    method AuthenticateAny(id: string, now: nat) returns (allowed: bool)
      requires id in limits && cache.blank == ()
      modifies cache
      ensures (cache.data, allowed) == Admit(limits[id], old(cache.data), id, now)
      ensures CountedOnce(limits[id], old(cache.data), cache.data, id, now, allowed)
    {
      var limit := limits[id];
      var count := cache.Increment(Key(id, now / SECOND / limit.window), limit.window * SECOND, now);
      if count > limit.max { return false; }
      return true;
    }

    // The limit in requireAPIClient, for the field-filtered API
    method RequireAPIClient(id: string, now: nat) returns (allowed: bool)
      requires id in limits && cache.blank == ()
      modifies cache
      ensures (cache.data, allowed) == Admit(limits[id], old(cache.data), id, now)
      ensures CountedOnce(limits[id], old(cache.data), cache.data, id, now, allowed)
    {
      var limit := limits[id];
      var count := cache.Increment(Key(id, now / SECOND / limit.window), limit.window * SECOND, now);
      if count > limit.max { return false; }
      return true;
    }
  }

  /* ---- Runs ---- */

  datatype Path = AdminApi | ExternalApi

  datatype Visit = Visit(id: string, path: Path, at: nat, allowed: bool)

  datatype State = State(now: nat, store: Store<()>, log: seq<Visit>)

  datatype Event = Request(id: string, path: Path) | Elapse(time: nat) | Reap

  function Apply(limits: Limits, s: State, e: Event): State {
    match e
    case Request(id, path) =>
      if id !in limits then s else
      var (store, allowed) := Admit(limits[id], s.store, id, s.now);
      s.(store := store, log := s.log + [Visit(id, path, s.now, allowed)])
    case Elapse(time) => s.(now := s.now + time)
    case Reap => s.(store := Reaped(s.store, s.now))
  }

  function Run(limits: Limits, s: State, events: seq<Event>): State
    decreases |events|
  {
    if events == [] then s else Run(limits, Apply(limits, s, events[0]), events[1..])
  }

  // How many visits of `id` fall in lo <= at < hi, over both paths; all of them or the allowed ones only
  function Tally(log: seq<Visit>, id: string, lo: int, hi: int, allowedOnly: bool): nat {
    if log == [] then 0 else
    var v := log[|log| - 1];
    Tally(log[..|log| - 1], id, lo, hi, allowedOnly)
    + if v.id == id && lo <= v.at < hi && (allowedOnly ==> v.allowed) then 1 else 0
  }

  // All visits of `id` in bucket `b`
  function InBucket(limits: Limits, log: seq<Visit>, id: string, b: nat): nat
    requires id in limits
  {
    var span := Span(limits[id].window);
    Tally(log, id, b * span, (b + 1) * span, false)
  }

  lemma KeyInjective(id: string, b: nat, id': string, b': nat)
    ensures Key(id, b) == Key(id', b') ==> id == id' && b == b'
  {
    var k, k' := Key(id, b), Key(id', b');
    if k == k' {
      var d, d' := Decimal(b), Decimal(b');
      assert k[|k| - |d| - 1] == ':' && k[|k| - |d'| - 1] == ':';
      assert forall i :: |k| - |d| <= i < |k| ==> k[i] == d[i - (|k| - |d|)];
      assert forall i :: |k| - |d'| <= i < |k| ==> k[i] == d'[i - (|k| - |d'|)];
      assert |d| == |d'|;
      assert d == k[|k| - |d|..] == d';
      DecimalInjective(b, b');
      assert id == k[|"apiclient_rl:"|..|k| - |d| - 1] == id';
    }
  }

  // A bucket is the half-open interval between two multiples of the window.
  lemma BucketBounds(now: nat, window: nat)
    requires window > 0
    ensures var b, span := Bucket(now, window), Span(window);
            b * span <= now < (b + 1) * span
  {
  }

  lemma MultipleMonotone(a: nat, b: nat, span: nat)
    requires a <= b
    ensures a * span <= b * span
  {
  }

  lemma BucketUnique(now: nat, window: nat, b: nat)
    requires window > 0 && b * Span(window) <= now < (b + 1) * Span(window)
    ensures b == Bucket(now, window)
  {
    var c, span := Bucket(now, window), Span(window);
    BucketBounds(now, window);
    if b < c {
      MultipleMonotone(b + 1, c, span);
    } else if c < b {
      MultipleMonotone(c + 1, b, span);
    }
  }

  lemma BucketMonotone(t: nat, u: nat, window: nat)
    requires window > 0 && t <= u
    ensures Bucket(t, window) <= Bucket(u, window)
  {
    var b, c, span := Bucket(t, window), Bucket(u, window), Span(window);
    BucketBounds(t, window);
    BucketBounds(u, window);
    if c < b { MultipleMonotone(c + 1, b, span); }
  }

  /* ---- The counter counts its bucket ---- */

  // The counter of a bucket that is not over stands at the visits in the bucket and outlives the bucket.
  ghost predicate CounterSound(limits: Limits, s: State, id: string, b: nat)
    requires id in limits
  {
    var key, n := Key(id, b), InBucket(limits, s.log, id, b);
    && (key in s.store <==> n > 0)
    && (key in s.store ==>
          && s.store[key].counter == n
          && s.store[key].expires.Some?
          && (b + 1) * Span(limits[id].window) <= s.store[key].expires.value)
  }

  ghost predicate CountersSound(limits: Limits, s: State) {
    forall id, b: nat :: id in limits && Bucket(s.now, limits[id].window) <= b ==> CounterSound(limits, s, id, b)
  }

  // A visit was allowed exactly when fewer than `max` visits of the client, on either path, came before it in its
  // bucket.
  ghost predicate Judged(limits: Limits, log: seq<Visit>, k: nat)
    requires k < |log|
  {
    var v := log[k];
    v.id in limits
    && (v.allowed <==> InBucket(limits, log[..k], v.id, Bucket(v.at, limits[v.id].window)) < limits[v.id].max)
  }

  ghost predicate AllJudged(limits: Limits, log: seq<Visit>) {
    forall k :: 0 <= k < |log| ==> Judged(limits, log, k)
  }

  ghost predicate Inv(limits: Limits, s: State) {
    CountersSound(limits, s) && AllJudged(limits, s.log)
  }

  lemma RequestCounts(limits: Limits, s: State, id: string, path: Path, id': string, b: nat)
    requires CountersSound(limits, s) && id in limits && id' in limits
    requires Bucket(s.now, limits[id'].window) <= b
    ensures CounterSound(limits, Apply(limits, s, Request(id, path)), id', b)
  {
    var s' := Apply(limits, s, Request(id, path));
    var window := limits[id].window;
    var c := Bucket(s.now, window);
    assert CounterSound(limits, s, id', b);
    assert s'.log[..|s'.log| - 1] == s.log;
    KeyInjective(id, c, id', b);
    BucketBounds(s.now, window);
    if id == id' && b != c && b * Span(window) <= s.now < (b + 1) * Span(window) {
      BucketUnique(s.now, window, b);
    }
    if id == id' && b == c {
      assert (b + 1) * Span(window) == b * Span(window) + Span(window);
      assert Span(window) > 0;
    }
  }

  lemma RequestJudged(limits: Limits, s: State, id: string, path: Path)
    requires Inv(limits, s) && id in limits
    ensures AllJudged(limits, Apply(limits, s, Request(id, path)).log)
  {
    var s' := Apply(limits, s, Request(id, path));
    var b := Bucket(s.now, limits[id].window);
    assert CounterSound(limits, s, id, b);
    BucketBounds(s.now, limits[id].window);
    forall k | 0 <= k < |s'.log| ensures Judged(limits, s'.log, k) {
      if k < |s.log| {
        assert Judged(limits, s.log, k);
        assert s'.log[..k] == s.log[..k];
      } else {
        assert s'.log[..k] == s.log;
      }
    }
  }

  lemma StepKeepsInv(limits: Limits, s: State, e: Event)
    requires Inv(limits, s)
    ensures Inv(limits, Apply(limits, s, e))
  {
    var s' := Apply(limits, s, e);
    match e
    case Request(id, path) =>
      if id in limits {
        RequestJudged(limits, s, id, path);
        forall id', b: nat | id' in limits && Bucket(s'.now, limits[id'].window) <= b
          ensures CounterSound(limits, s', id', b)
        {
          RequestCounts(limits, s, id, path, id', b);
        }
      }
    case Elapse(time) =>
      forall id, b: nat | id in limits && Bucket(s'.now, limits[id].window) <= b
        ensures CounterSound(limits, s', id, b)
      {
        BucketMonotone(s.now, s'.now, limits[id].window);
        assert CounterSound(limits, s, id, b);
      }
    case Reap =>
      forall id, b: nat | id in limits && Bucket(s'.now, limits[id].window) <= b
        ensures CounterSound(limits, s', id, b)
      {
        assert CounterSound(limits, s, id, b);
        BucketBounds(s.now, limits[id].window);
        MultipleMonotone(Bucket(s.now, limits[id].window) + 1, b + 1, Span(limits[id].window));
      }
  }

  lemma {:induction false} RunKeepsInv(limits: Limits, s: State, events: seq<Event>)
    requires Inv(limits, s)
    ensures Inv(limits, Run(limits, s, events))
    decreases |events|
  {
    if events != [] {
      StepKeepsInv(limits, s, events[0]);
      RunKeepsInv(limits, Apply(limits, s, events[0]), events[1..]);
    }
  }

  predicate Initial(s: State) {
    s.store == map[] && s.log == []
  }

  // The counter never expires inside its bucket, so every decision is the exact one.
  lemma DecisionsAreExact(limits: Limits, s: State, events: seq<Event>)
    requires Initial(s)
    ensures AllJudged(limits, Run(limits, s, events).log)
  {
    RunKeepsInv(limits, s, events);
  }

  /* ---- The bounds ---- */

  lemma {:induction false} AllowedPerBucket(limits: Limits, log: seq<Visit>, id: string, b: nat)
    requires id in limits && AllJudged(limits, log)
    ensures var span, max, all := Span(limits[id].window), limits[id].max, InBucket(limits, log, id, b);
            Tally(log, id, b * span, (b + 1) * span, true) == if all <= max then all else max
  {
    if log != [] {
      var k := |log| - 1;
      var v, shorter := log[k], log[..k];
      assert Judged(limits, log, k);
      forall i | 0 <= i < k ensures Judged(limits, shorter, i) {
        assert Judged(limits, log, i) && shorter[..i] == log[..i];
      }
      AllowedPerBucket(limits, shorter, id, b);
      if v.id == id && b * Span(limits[id].window) <= v.at < (b + 1) * Span(limits[id].window) {
        BucketUnique(v.at, limits[id].window, b);
      }
    }
  }

  lemma {:induction false} TallyWithin(log: seq<Visit>, id: string, lo: int, hi: int, from: int, mid: int, to: int)
    requires from <= lo && hi <= to && from <= mid <= to
    ensures Tally(log, id, lo, hi, true) <= Tally(log, id, from, mid, true) + Tally(log, id, mid, to, true)
  {
    if log != [] {
      TallyWithin(log[..|log| - 1], id, lo, hi, from, mid, to);
    }
  }

  // At most `max` visits of a client are allowed per bucket, and at most twice that in any closed span of W seconds,
  // counted over both paths.
  lemma RateIsBounded(limits: Limits, s: State, events: seq<Event>, id: string, b: nat, t: nat)
    requires Initial(s) && id in limits
    ensures var log, span, max := Run(limits, s, events).log, limits[id].window * 1_000_000_000, limits[id].max;
            && Tally(log, id, b * span, (b + 1) * span, true) <= max
            && Tally(log, id, t, t + span + 1, true) <= 2 * max
  {
    var log, span := Run(limits, s, events).log, Span(limits[id].window);
    DecisionsAreExact(limits, s, events);
    AllowedPerBucket(limits, log, id, b);
    var c := Bucket(t, limits[id].window);
    AllowedPerBucket(limits, log, id, c);
    AllowedPerBucket(limits, log, id, c + 1);
    BucketBounds(t, limits[id].window);
    assert (c + 1) * span == c * span + span && (c + 2) * span == c * span + span + span;
    TallyWithin(log, id, t, t + span + 1, c * span, (c + 1) * span, (c + 2) * span);
  }

  /* ---- The bound is exact ---- */

  function Burst(id: string, path: Path, n: nat): seq<Event> {
    if n == 0 then [] else [Request(id, path)] + Burst(id, path, n - 1)
  }

  lemma {:induction false} RunAppend(limits: Limits, s: State, first: seq<Event>, rest: seq<Event>)
    ensures Run(limits, s, first + rest) == Run(limits, Run(limits, s, first), rest)
    decreases |first|
  {
    if first == [] {
      assert first + rest == rest;
    } else {
      assert (first + rest)[1..] == first[1..] + rest;
      RunAppend(limits, Apply(limits, s, first[0]), first[1..], rest);
    }
  }

  // While the bucket has room, a request is allowed and counted in its own bucket only.
  lemma RoomAllows(limits: Limits, s: State, id: string, path: Path, c: nat)
    requires Inv(limits, s) && id in limits
    requires InBucket(limits, s.log, id, Bucket(s.now, limits[id].window)) < limits[id].max
    ensures var s', b := Apply(limits, s, Request(id, path)), Bucket(s.now, limits[id].window);
            && s'.now == s.now && s'.log == s.log + [Visit(id, path, s.now, true)] && Inv(limits, s')
            && InBucket(limits, s'.log, id, c) == InBucket(limits, s.log, id, c) + if c == b then 1 else 0
  {
    var s', w := Apply(limits, s, Request(id, path)), limits[id].window;
    StepKeepsInv(limits, s, Request(id, path));
    assert Judged(limits, s'.log, |s.log|);
    assert s'.log[..|s.log|] == s.log;
    BucketBounds(s.now, w);
    if c * Span(w) <= s.now < (c + 1) * Span(w) { BucketUnique(s.now, w, c); }
  }

  lemma {:induction false} BurstAllowed(
      limits: Limits, s: State, id: string, path: Path, n: nat, c: nat, lo: int, hi: int)
    requires Inv(limits, s) && id in limits && lo <= s.now < hi
    requires InBucket(limits, s.log, id, Bucket(s.now, limits[id].window)) + n <= limits[id].max
    ensures var s', b := Run(limits, s, Burst(id, path, n)), Bucket(s.now, limits[id].window);
            && s'.now == s.now && Inv(limits, s')
            && InBucket(limits, s'.log, id, c) == InBucket(limits, s.log, id, c) + (if c == b then n else 0)
            && Tally(s'.log, id, lo, hi, true) == Tally(s.log, id, lo, hi, true) + n
    decreases n
  {
    if n > 0 {
      var s' := Apply(limits, s, Request(id, path));
      RoomAllows(limits, s, id, path, c);
      RoomAllows(limits, s, id, path, Bucket(s.now, limits[id].window));
      assert s'.log[..|s.log|] == s.log;
      assert Burst(id, path, n)[1..] == Burst(id, path, n - 1);
      BurstAllowed(limits, s', id, path, n - 1, c, lo, hi);
    }
  }

  function TwoBursts(limits: Limits, id: string): seq<Event>
    requires id in limits
  {
    Burst(id, AdminApi, limits[id].max) + [Elapse(1)] + Burst(id, ExternalApi, limits[id].max)
  }

  // The last tick of the first bucket
  function LastTick(limits: Limits, id: string): nat
    requires id in limits
  {
    Span(limits[id].window) - 1
  }

  lemma FirstBurst(limits: Limits, id: string, lo: int, hi: int)
    requires id in limits && lo <= LastTick(limits, id) < hi
    ensures var s := Run(limits, State(LastTick(limits, id), map[], []), Burst(id, AdminApi, limits[id].max));
            && s.now == LastTick(limits, id) && Inv(limits, s)
            && InBucket(limits, s.log, id, 1) == 0 && Tally(s.log, id, lo, hi, true) == limits[id].max
  {
    BucketUnique(LastTick(limits, id), limits[id].window, 0);
    BurstAllowed(limits, State(LastTick(limits, id), map[], []), id, AdminApi, limits[id].max, 1, lo, hi);
  }

  lemma BurstsFill(limits: Limits, id: string, lo: int, hi: int)
    requires id in limits && lo <= LastTick(limits, id) && LastTick(limits, id) + 1 < hi
    ensures Tally(Run(limits, State(LastTick(limits, id), map[], []), TwoBursts(limits, id)).log, id, lo, hi, true)
         == 2 * limits[id].max
  {
    var max, s := limits[id].max, State(LastTick(limits, id), map[], []);
    var first, second := Burst(id, AdminApi, max), Burst(id, ExternalApi, max);
    FirstBurst(limits, id, lo, hi);
    var s1 := Run(limits, s, first);
    var s2 := Apply(limits, s1, Elapse(1));
    StepKeepsInv(limits, s1, Elapse(1));
    BucketUnique(s2.now, limits[id].window, 1);
    BurstAllowed(limits, s2, id, ExternalApi, max, 1, lo, hi);
    RunAppend(limits, s, first, [Elapse(1)]);
    RunAppend(limits, s, first + [Elapse(1)], second);
    assert [Elapse(1)][1..] == [];
    assert Run(limits, s1, [Elapse(1)]) == s2;
  }

  // For every client twice the limit is reached, even within two ticks: the limit on one path at the end of a bucket,
  // and the limit on the other path at the beginning of the next.
  lemma RateBoundIsReached(limits: Limits, id: string) returns (s: State, events: seq<Event>, t: nat)
    requires id in limits
    ensures Initial(s)
    ensures var log := Run(limits, s, events).log;
            && Tally(log, id, t, t + 2, true) == 2 * limits[id].max
            && Tally(log, id, t, t + limits[id].window * 1_000_000_000 + 1, true) == 2 * limits[id].max
  {
    t := LastTick(limits, id);
    s, events := State(t, map[], []), TwoBursts(limits, id);
    BurstsFill(limits, id, t, t + 2);
    BurstsFill(limits, id, t, t + Span(limits[id].window) + 1);
  }
}
