/** The lockout bound is exact: for every configuration there is a run that fills one window up to it. */
module LockoutBound {
  import opened Text
  import opened TimedCache
  import opened Lockout

  const WRONG_PASSWORD := Checks(true, true, false, true, false, false)

  function Level(tracked: string, s: State): int {
    if LiveAt(s.store, FailKey(tracked), s.now) then s.store[FailKey(tracked)].counter else 0
  }

  predicate Open(tracked: string, s: State) {
    !LiveAt(s.store, LockKey(tracked), s.now)
  }

  // Whatever lock there is runs out within the configured time.
  predicate LockEnds(cfg: Config, tracked: string, s: State) {
    LockKey(tracked) in s.store ==>
      s.store[LockKey(tracked)].expires.Some? && s.store[LockKey(tracked)].expires.value <= s.now + cfg.duration
  }

  predicate CounterEnds(tracked: string, s: State, at: int) {
    FailKey(tracked) in s.store && s.store[FailKey(tracked)].expires == Some(at)
  }

  lemma CountInAppend(failures: seq<int>, t: int, a: int, b: int)
    ensures CountIn(failures + [t], a, b) == CountIn(failures, a, b) + if a <= t <= b then 1 else 0
  {
    assert (failures + [t])[..|failures|] == failures;
  }

  lemma OneFailure(cfg: Config, tracked: string, s: State)
    requires Configured(cfg) && Open(tracked, s)
    ensures var s' := Apply(cfg, tracked, s, Attempt(tracked, WRONG_PASSWORD));
            && s'.now == s.now && s'.failures == s.failures + [s.now]
            && Level(tracked, s') == Level(tracked, s) + 1
            && (Level(tracked, s') < cfg.maxAttempts ==> Open(tracked, s'))
            && (cfg.duration > 0 && LockEnds(cfg, tracked, s) ==> LockEnds(cfg, tracked, s'))
            && (forall at :: CounterEnds(tracked, s, at) && s.now <= at ==> CounterEnds(tracked, s', at))
            && (FailKey(tracked) !in s.store ==> CounterEnds(tracked, s', s.now + cfg.window))
  {
    KeysApart(tracked, tracked);
  }

  // n wrong passwords one after another
  function Failures(tracked: string, n: nat): seq<Event> {
    if n == 0 then [] else [Attempt(tracked, WRONG_PASSWORD)] + Failures(tracked, n - 1)
  }

  // n times one more wrong password as soon as the lock has run out
  function Retries(cfg: Config, tracked: string, n: nat): seq<Event>
    requires cfg.duration > 0
  {
    if n == 0 then [] else [Elapse(cfg.duration + 1), Attempt(tracked, WRONG_PASSWORD)] + Retries(cfg, tracked, n - 1)
  }

  predicate OnlyWrong(events: seq<Event>) {
    forall i :: 0 <= i < |events| && events[i].Attempt? ==> events[i].checks == WRONG_PASSWORD
  }

  lemma {:induction false} FailuresAreWrong(tracked: string, n: nat)
    ensures OnlyWrong(Failures(tracked, n))
  {
    if n > 0 { FailuresAreWrong(tracked, n - 1); }
  }

  lemma {:induction false} RetriesAreWrong(cfg: Config, tracked: string, n: nat)
    requires cfg.duration > 0
    ensures OnlyWrong(Retries(cfg, tracked, n))
  {
    if n > 0 { RetriesAreWrong(cfg, tracked, n - 1); }
  }

  // As long as the limit is not passed, a burst of n failures counts n times.
  lemma {:induction false} BurstCounts(cfg: Config, tracked: string, s: State, n: nat, a: int, b: int)
    requires Configured(cfg) && Level(tracked, s) + n <= cfg.maxAttempts && (n > 0 ==> Open(tracked, s))
    ensures var s' := Run(cfg, tracked, s, Failures(tracked, n));
            && s'.now == s.now && Level(tracked, s') == Level(tracked, s) + n
            && CountIn(s'.failures, a, b) == CountIn(s.failures, a, b) + (if a <= s.now <= b then n else 0)
            && (Open(tracked, s) && Level(tracked, s') < cfg.maxAttempts ==> Open(tracked, s'))
            && (cfg.duration > 0 && LockEnds(cfg, tracked, s) ==> LockEnds(cfg, tracked, s'))
            && (forall at :: CounterEnds(tracked, s, at) && s.now <= at ==> CounterEnds(tracked, s', at))
    decreases n
  {
    if n > 0 {
      var e := Attempt(tracked, WRONG_PASSWORD);
      assert Failures(tracked, n)[1..] == Failures(tracked, n - 1);
      OneFailure(cfg, tracked, s);
      CountInAppend(s.failures, s.now, a, b);
      BurstCounts(cfg, tracked, Apply(cfg, tracked, s, e), n - 1, a, b);
    }
  }

  lemma Multiple(n: nat, d: nat)
    ensures n * d >= 0
  {
  }

  // Every retry counts, whether it goes on counting or begins anew.
  lemma {:induction false} RetriesCount(cfg: Config, tracked: string, s: State, n: nat, a: int, b: int)
    requires Configured(cfg) && cfg.duration > 0 && LockEnds(cfg, tracked, s)
    requires a <= s.now && s.now + n * (cfg.duration + 1) <= b
    ensures CountIn(Run(cfg, tracked, s, Retries(cfg, tracked, n)).failures, a, b) == CountIn(s.failures, a, b) + n
    decreases n
  {
    if n > 0 {
      var wait, e := Elapse(cfg.duration + 1), Attempt(tracked, WRONG_PASSWORD);
      var s1 := Apply(cfg, tracked, s, wait);
      var s2 := Apply(cfg, tracked, s1, e);
      assert n * (cfg.duration + 1) == (n - 1) * (cfg.duration + 1) + (cfg.duration + 1);
      Multiple(n - 1, cfg.duration + 1);
      OneFailure(cfg, tracked, s1);
      CountInAppend(s1.failures, s1.now, a, b);
      RetriesCount(cfg, tracked, s2, n - 1, a, b);
      assert Retries(cfg, tracked, n)[1..][1..] == Retries(cfg, tracked, n - 1);
      assert Retries(cfg, tracked, n)[1..][0] == e;
      assert Run(cfg, tracked, s1, Retries(cfg, tracked, n)[1..])
          == Run(cfg, tracked, s2, Retries(cfg, tracked, n - 1));
    }
  }

  /* ---- The runs ---- */

  const START := State(0, map[], [], [])

  // A burst up to the limit, and then retries
  lemma BurstAndRetries(cfg: Config, tracked: string, s: State, retries: nat, a: int, b: int)
    returns (events: seq<Event>)
    requires Configured(cfg) && Open(tracked, s) && Level(tracked, s) == 0
    requires retries > 0 ==> cfg.duration > 0
    requires cfg.duration > 0 ==> LockEnds(cfg, tracked, s)
    requires a <= s.now && s.now + retries * (cfg.duration + 1) <= b && s.now <= b
    ensures OnlyWrong(events)
    ensures CountIn(Run(cfg, tracked, s, events).failures, a, b)
         == CountIn(s.failures, a, b) + cfg.maxAttempts + retries
  {
    var burst := Failures(tracked, cfg.maxAttempts);
    FailuresAreWrong(tracked, cfg.maxAttempts);
    BurstCounts(cfg, tracked, s, cfg.maxAttempts, a, b);
    events := burst;
    if retries > 0 {
      var more := Retries(cfg, tracked, retries);
      RetriesAreWrong(cfg, tracked, retries);
      RetriesCount(cfg, tracked, Run(cfg, tracked, s, burst), retries, a, b);
      RunAppend(cfg, tracked, s, burst, more);
      events := burst + more;
    }
  }

  // The counter begins with one failure, a window later it takes x more in its last instant, and `gap` later a new
  // one begins.
  function Opening(cfg: Config, tracked: string, x: nat, gap: nat): seq<Event>
    requires Configured(cfg)
  {
    Failures(tracked, 1) + [Elapse(cfg.window)] + Failures(tracked, x) + [Elapse(gap)]
  }

  lemma OneEvent(cfg: Config, tracked: string, s: State, e: Event)
    ensures Run(cfg, tracked, s, [e]) == Apply(cfg, tracked, s, e)
  {
    assert [e][1..] == [];
  }

  lemma FirstCounter(cfg: Config, tracked: string)
    requires Configured(cfg) && cfg.maxAttempts > 2
    ensures var s := Run(cfg, tracked, START, Failures(tracked, 1) + [Elapse(cfg.window)]);
            && s.now == cfg.window && CountIn(s.failures, cfg.window, 2 * cfg.window) == 0
            && Open(tracked, s) && Level(tracked, s) == 1 && CounterEnds(tracked, s, cfg.window)
            && (cfg.duration > 0 ==> LockEnds(cfg, tracked, s))
  {
    var e := Attempt(tracked, WRONG_PASSWORD);
    assert Failures(tracked, 1) == [e];
    OneEvent(cfg, tracked, START, e);
    OneFailure(cfg, tracked, START);
    CountInAppend([], 0, cfg.window, 2 * cfg.window);
    var s1 := Apply(cfg, tracked, START, e);
    assert s1.failures == [] + [0];
    RunAppend(cfg, tracked, START, [e], [Elapse(cfg.window)]);
    OneEvent(cfg, tracked, s1, Elapse(cfg.window));
  }

  lemma SecondCounter(cfg: Config, tracked: string, x: nat, gap: nat)
    requires Configured(cfg) && cfg.maxAttempts > 2 && 1 + x <= cfg.maxAttempts && gap > 0
    requires 1 + x == cfg.maxAttempts ==> gap > cfg.duration > 0
    ensures var s := Run(cfg, tracked, START, Opening(cfg, tracked, x, gap));
            && s.now == cfg.window + gap && CountIn(s.failures, cfg.window, 2 * cfg.window) == x
            && Open(tracked, s) && Level(tracked, s) == 0 && (cfg.duration > 0 ==> LockEnds(cfg, tracked, s))
    ensures OnlyWrong(Opening(cfg, tracked, x, gap))
  {
    var first := Failures(tracked, 1) + [Elapse(cfg.window)];
    FirstCounter(cfg, tracked);
    var s1 := Run(cfg, tracked, START, first);
    BurstCounts(cfg, tracked, s1, x, cfg.window, 2 * cfg.window);
    RunAppend(cfg, tracked, START, first, Failures(tracked, x));
    RunAppend(cfg, tracked, START, first + Failures(tracked, x), [Elapse(gap)]);
    OneEvent(cfg, tracked, Run(cfg, tracked, s1, Failures(tracked, x)), Elapse(gap));
    FailuresAreWrong(tracked, x);
    FailuresAreWrong(tracked, 1);
  }

  /* ---- The bound is exact ---- */

  lemma FewAttempts(cfg: Config, tracked: string) returns (events: seq<Event>)
    requires Configured(cfg) && cfg.maxAttempts <= 2
    ensures OnlyWrong(events) && InWindow(cfg, tracked, START, events, 0) == Bound(cfg)
  {
    if Relocks(cfg) > 0 { RelocksFill(cfg, Relocks(cfg)); }
    events := BurstAndRetries(cfg, tracked, START, Relocks(cfg), 0, cfg.window);
  }

  lemma ManyAttempts(cfg: Config, tracked: string, x: nat, gap: nat, retries: nat) returns (events: seq<Event>)
    requires Configured(cfg) && cfg.maxAttempts > 2 && 1 + x <= cfg.maxAttempts && gap > 0
    requires 1 + x == cfg.maxAttempts ==> gap > cfg.duration > 0
    requires retries > 0 ==> cfg.duration > 0
    requires gap + retries * (cfg.duration + 1) <= cfg.window && gap <= cfg.window
    ensures OnlyWrong(events)
    ensures InWindow(cfg, tracked, START, events, cfg.window) == x + cfg.maxAttempts + retries
  {
    SecondCounter(cfg, tracked, x, gap);
    var opening := Opening(cfg, tracked, x, gap);
    var s := Run(cfg, tracked, START, opening);
    var rest := BurstAndRetries(cfg, tracked, s, retries, cfg.window, 2 * cfg.window);
    RunAppend(cfg, tracked, START, opening, rest);
    events := opening + rest;
  }

  lemma RetriesFit(cfg: Config)
    requires Configured(cfg) && Relocks(cfg) > 0
    ensures cfg.duration > 0 && cfg.duration + 1 <= cfg.window
    ensures cfg.duration + 1 + (Relocks(cfg) - 1) * (cfg.duration + 1) <= cfg.window
  {
    var q, d := Relocks(cfg), cfg.duration + 1;
    RelocksFill(cfg, q);
    assert q * d == d + (q - 1) * d;
    Multiple(q - 1, d);
  }

  // For every configuration some run without a success fills some window up to the bound.
  lemma BoundIsReached(cfg: Config, tracked: string) returns (s: State, events: seq<Event>, a: int)
    requires Configured(cfg)
    ensures Initial(tracked, s) && NoSuccess(events, tracked)
    ensures InWindow(cfg, tracked, s, events, a) == Bound(cfg)
  {
    s := START;
    var q := Relocks(cfg);
    if cfg.maxAttempts <= 2 {
      a := 0;
      events := FewAttempts(cfg, tracked);
    } else if q == 0 {
      a := cfg.window;
      events := ManyAttempts(cfg, tracked, cfg.maxAttempts - 2, 1, 0);
    } else {
      a := cfg.window;
      RetriesFit(cfg);
      events := ManyAttempts(cfg, tracked, cfg.maxAttempts - 1, cfg.duration + 1, q - 1);
    }
  }

  // At most M failures ever fit into a window exactly when M is 1 or 2 and the lock lasts at least as long as the
  // window, or for good.
  lemma AtMostMIff(cfg: Config, tracked: string)
    requires Configured(cfg)
    ensures (forall s, events, a :: Initial(tracked, s) && NoSuccess(events, tracked) ==>
               InWindow(cfg, tracked, s, events, a) <= cfg.maxAttempts)
            <==> cfg.maxAttempts <= 2 && (cfg.duration >= cfg.window || cfg.duration <= 0)
  {
    var s0, events0, a0 := BoundIsReached(cfg, tracked);
    forall s, events, a | Initial(tracked, s) && NoSuccess(events, tracked)
      ensures InWindow(cfg, tracked, s, events, a) <= Bound(cfg)
    {
      FailuresAreBounded(cfg, tracked, s, events, a);
    }
    if cfg.duration > 0 { RelocksFill(cfg, 1); RelocksFill(cfg, Relocks(cfg)); }
  }
}
