/** Account lockout: failed logins are counted per username in a window that starts at the first failure, and
    reaching the limit locks the name for a while. */
module Lockout {
  import opened Text
  import opened TimedCache

  datatype Config = Config(maxAttempts: int, window: int, duration: int)

  // What the rest of the login finds out about a request, in the order it asks
  datatype Checks = Checks(captchaOK: bool, known: bool, passwordOK: bool, loaded: bool, mfaEnabled: bool, mfaOK: bool)

  datatype Reply = TooManyAttempts | CaptchaFailed | Unauthorized | LoggedIn

  const FAIL_PREFIX := "login_fail:"
  const LOCK_PREFIX := "login_lock:"

  function FailKey(user: string): string {
    FAIL_PREFIX + user
  }

  function LockKey(user: string): string {
    LOCK_PREFIX + user
  }

  lemma KeysApart(u: string, v: string)
    ensures FailKey(u) == FailKey(v) ==> u == v
    ensures LockKey(u) == LockKey(v) ==> u == v
    ensures FailKey(u) != LockKey(v)
  {
    assert u == FailKey(u)[|FAIL_PREFIX|..] && v == FailKey(v)[|FAIL_PREFIX|..];
    assert u == LockKey(u)[|LOCK_PREFIX|..] && v == LockKey(v)[|LOCK_PREFIX|..];
    assert FailKey(u)[6] == 'f' && LockKey(v)[6] == 'l';
  }

  /* ---- One login ---- */

  // The cached value "1" of a lock is modelled as true.
  function Failed(cfg: Config, store: Store<bool>, user: string, now: int): Store<bool> {
    if cfg.maxAttempts <= 0 then store else
    var store' := Incremented(store, FailKey(user), cfg.window, now, false);
    if store'[FailKey(user)].counter < cfg.maxAttempts then store'
    else Put(store', LockKey(user), true, cfg.duration, now)
  }

  // A request that gets past the lock and the captcha and is then refused for wrong credentials
  predicate Counts(checks: Checks) {
    checks.captchaOK && (!checks.known || !checks.passwordOK || (checks.loaded && checks.mfaEnabled && !checks.mfaOK))
  }

  predicate Succeeds(checks: Checks) {
    checks.captchaOK && checks.known && checks.passwordOK && checks.loaded && (checks.mfaEnabled ==> checks.mfaOK)
  }

  function Login(cfg: Config, store: Store<bool>, user: string, checks: Checks, now: int): (Store<bool>, Reply) {
    if LiveAt(store, LockKey(user), now) then (store, TooManyAttempts)
    else if !checks.captchaOK then (store, CaptchaFailed)
    else if Counts(checks) then (Failed(cfg, store, user, now), Unauthorized)
    else if Succeeds(checks) then (Without(store, [FailKey(user), LockKey(user)]), LoggedIn)
    else (store, Unauthorized)
  }

  /* ---- What a login promises ---- */

  predicate IsLocked(store: Store<bool>, user: string, now: int) {
    var key := "login_lock:" + user;
    key in store && LivesAt(store[key], now)
  }

  // One more failure is counted, on the live counter or a new one, and at the limit the name is locked.
  predicate CountedUp(cfg: Config, before: Store<bool>, after: Store<bool>, user: string, now: int) {
    var counter, lock := "login_fail:" + user, "login_lock:" + user;
    && counter in after && SameElsewhere(before, after, [counter, lock])
    && (if counter in before && LivesAt(before[counter], now)
        then after[counter].counter == before[counter].counter + 1 && after[counter].expires == before[counter].expires
        else after[counter].counter == 1 && Expires(after[counter], cfg.window, now))
    && (if after[counter].counter >= cfg.maxAttempts then lock in after && Expires(after[lock], cfg.duration, now)
        else (lock in after <==> lock in before) && (lock in before ==> after[lock] == before[lock]))
  }

  lemma FailedCountsUp(cfg: Config, store: Store<bool>, user: string, now: int)
    requires cfg.maxAttempts > 0
    ensures CountedUp(cfg, store, Failed(cfg, store, user, now), user, now)
  {
    KeysApart(user, user);
  }

  class Server {
    const cfg: Config
    const cache: MemoryCache<bool>

    constructor (config: Config, c: MemoryCache<bool>)
      ensures cfg == config && cache == c
    {
      cfg, cache := config, c;
    }

    method AccountLocked(user: string, now: int) returns (locked: bool)
      ensures locked == LiveAt(cache.data, LockKey(user), now)
    {
      var found := cache.Get("login_lock:" + user, now);
      return found.Some?;
    }

    method RecordLoginFailure(user: string, now: int)
      requires !cache.blank
      modifies cache
      ensures cache.data == Failed(cfg, old(cache.data), user, now)
      ensures cfg.maxAttempts <= 0 ==> cache.data == old(cache.data)
      ensures cfg.maxAttempts > 0 ==> CountedUp(cfg, old(cache.data), cache.data, user, now)
    {
      if cfg.maxAttempts <= 0 { return; }
      FailedCountsUp(cfg, cache.data, user, now);
      var n := cache.Increment("login_fail:" + user, cfg.window, now);
      if n < cfg.maxAttempts { return; }
      cache.Set("login_lock:" + user, true, cfg.duration, now);
    }

    method ClearLoginFailures(user: string)
      modifies cache
      ensures cache.data == Without(old(cache.data), [FailKey(user), LockKey(user)])
      ensures KeysGone(old(cache.data), cache.data, ["login_fail:" + user, "login_lock:" + user])
    {
      cache.Delete(["login_fail:" + user, "login_lock:" + user]);
    }

    method HandleLogin(user: string, checks: Checks, now: int) returns (reply: Reply)
      requires !cache.blank
      modifies cache
      ensures (cache.data, reply) == Login(cfg, old(cache.data), user, checks, now)
      ensures reply.TooManyAttempts? <==> IsLocked(old(cache.data), user, now)
      ensures reply.CaptchaFailed? <==> !IsLocked(old(cache.data), user, now) && !checks.captchaOK
      ensures reply.LoggedIn? <==>
                && !IsLocked(old(cache.data), user, now) && checks.captchaOK && checks.known && checks.passwordOK
                && checks.loaded && (checks.mfaEnabled ==> checks.mfaOK)
      ensures reply.LoggedIn? ==>
                KeysGone(old(cache.data), cache.data, ["login_fail:" + user, "login_lock:" + user])
      ensures reply.TooManyAttempts? || reply.CaptchaFailed? ==> cache.data == old(cache.data)
      ensures reply.Unauthorized? ==>
                if cfg.maxAttempts > 0 && (checks.known && checks.passwordOK ==> checks.loaded)
                then CountedUp(cfg, old(cache.data), cache.data, user, now)
                else cache.data == old(cache.data)
    {
      var locked := AccountLocked(user, now);
      if locked { return TooManyAttempts; }
      if !checks.captchaOK { return CaptchaFailed; }
      if !checks.known {
        RecordLoginFailure(user, now);
        return Unauthorized;
      }
      if !checks.passwordOK {
        RecordLoginFailure(user, now);
        return Unauthorized;
      }
      if !checks.loaded { return Unauthorized; }
      if checks.mfaEnabled {
        if !checks.mfaOK {
          RecordLoginFailure(user, now);
          return Unauthorized;
        }
      }
      ClearLoginFailures(user);
      return LoggedIn;
    }
  }

  /* ---- Runs ---- */

  datatype Event = Attempt(user: string, checks: Checks) | Elapse(time: nat) | Reap

  // `failures` are the times of the failures counted for one username, `counts` what each of them brought the
  // counter to.
  datatype State = State(now: int, store: Store<bool>, failures: seq<int>, counts: seq<int>)

  function Apply(cfg: Config, tracked: string, s: State, e: Event): State {
    match e
    case Elapse(time) => s.(now := s.now + time)
    case Reap => s.(store := Reaped(s.store, s.now))
    case Attempt(user, checks) =>
      var s' := s.(store := Login(cfg, s.store, user, checks, s.now).0);
      if user == tracked && cfg.maxAttempts > 0 && Counts(checks) && !LiveAt(s.store, LockKey(user), s.now)
      then s'.(failures := s.failures + [s.now], counts := s.counts + [s'.store[FailKey(user)].counter])
      else s'
  }

  function Run(cfg: Config, tracked: string, s: State, events: seq<Event>): State
    decreases |events|
  {
    if events == [] then s else Run(cfg, tracked, Apply(cfg, tracked, s, events[0]), events[1..])
  }

  lemma {:induction false} RunAppend(cfg: Config, tracked: string, s: State, first: seq<Event>, rest: seq<Event>)
    ensures Run(cfg, tracked, s, first + rest) == Run(cfg, tracked, Run(cfg, tracked, s, first), rest)
    decreases |first|
  {
    if first == [] {
      assert first + rest == rest;
    } else {
      assert (first + rest)[1..] == first[1..] + rest;
      RunAppend(cfg, tracked, Apply(cfg, tracked, s, first[0]), first[1..], rest);
    }
  }

  // A failure is recorded, at its time, exactly when an attempt on the name gets past lock and captcha with a wrong
  // name, password or second factor, and then it is counted.
  lemma StepRecordsFailures(cfg: Config, tracked: string, s: State, e: Event)
    ensures var s' := Apply(cfg, tracked, s, e);
            if && e.Attempt? && e.user == tracked && cfg.maxAttempts > 0 && !IsLocked(s.store, tracked, s.now)
               && var c := e.checks;
                  c.captchaOK && (c.known && c.passwordOK ==> c.loaded && c.mfaEnabled && !c.mfaOK)
            then && s'.failures == s.failures + [s.now] && CountedUp(cfg, s.store, s'.store, tracked, s.now)
                 && s'.counts == s.counts + [s'.store["login_fail:" + tracked].counter]
            else s'.failures == s.failures && s'.counts == s.counts
  {
    if cfg.maxAttempts > 0 { FailedCountsUp(cfg, s.store, tracked, s.now); }
  }

  predicate NoSuccess(events: seq<Event>, tracked: string) {
    forall i :: 0 <= i < |events| && events[i].Attempt? && events[i].user == tracked ==> !Succeeds(events[i].checks)
  }

  lemma OthersKeepCache(cfg: Config, tracked: string, s: State, user: string, checks: Checks)
    requires user != tracked
    ensures var store' := Login(cfg, s.store, user, checks, s.now).0;
            && (FailKey(tracked) in store' <==> FailKey(tracked) in s.store)
            && (LockKey(tracked) in store' <==> LockKey(tracked) in s.store)
            && (FailKey(tracked) in s.store ==> store'[FailKey(tracked)] == s.store[FailKey(tracked)])
            && (LockKey(tracked) in s.store ==> store'[LockKey(tracked)] == s.store[LockKey(tracked)])
  {
    KeysApart(tracked, user);
    KeysApart(user, tracked);
  }

  /* ---- While a name is locked ---- */

  // The answers to the attempts on the name
  function RepliesTo(cfg: Config, tracked: string, s: State, events: seq<Event>): seq<Reply>
    decreases |events|
  {
    if events == [] then [] else
    (if events[0].Attempt? && events[0].user == tracked
     then [Login(cfg, s.store, tracked, events[0].checks, s.now).1] else [])
    + RepliesTo(cfg, tracked, Apply(cfg, tracked, s, events[0]), events[1..])
  }

  lemma {:induction false} TimePasses(cfg: Config, tracked: string, s: State, events: seq<Event>)
    ensures s.now <= Run(cfg, tracked, s, events).now
    decreases |events|
  {
    if events != [] {
      TimePasses(cfg, tracked, Apply(cfg, tracked, s, events[0]), events[1..]);
    }
  }

  // Until a lock expires, whatever is tried for this name or any other, with right or wrong credentials, every
  // attempt on the name is turned away, nothing is counted for it, and the lock stays as it was set.
  lemma {:induction false} LockedThroughout(cfg: Config, tracked: string, s: State, events: seq<Event>)
    requires LiveAt(s.store, LockKey(tracked), s.now)
    requires var expires := s.store[LockKey(tracked)].expires;
             expires.Some? ==> Run(cfg, tracked, s, events).now <= expires.value
    ensures var s' := Run(cfg, tracked, s, events);
            && LiveAt(s'.store, LockKey(tracked), s'.now)
            && s'.store[LockKey(tracked)] == s.store[LockKey(tracked)]
            && s'.failures == s.failures
    ensures forall r :: r in RepliesTo(cfg, tracked, s, events) ==> r == TooManyAttempts
    decreases |events|
  {
    if events != [] {
      var s' := Apply(cfg, tracked, s, events[0]);
      TimePasses(cfg, tracked, s', events[1..]);
      if events[0].Attempt? && events[0].user != tracked {
        OthersKeepCache(cfg, tracked, s, events[0].user, events[0].checks);
      }
      LockedThroughout(cfg, tracked, s', events[1..]);
    }
  }

  /* ---- Only correct credentials log in ---- */

  // In any run a name without a fully correct attempt is never told that it is logged in.
  lemma {:induction false} WrongNeverLogsIn(cfg: Config, tracked: string, s: State, events: seq<Event>)
    requires forall e :: e in events && e.Attempt? && e.user == tracked ==>
               var c := e.checks;
               !c.captchaOK || !c.known || !c.passwordOK || !c.loaded || (c.mfaEnabled && !c.mfaOK)
    ensures LoggedIn !in RepliesTo(cfg, tracked, s, events)
    decreases |events|
  {
    if events != [] {
      assert events[0] in events;
      WrongNeverLogsIn(cfg, tracked, Apply(cfg, tracked, s, events[0]), events[1..]);
    }
  }

  /* ---- How counted failures follow each other ---- */

  // The window of the counter has a length; the lock may last any time, and for good if its length is not positive.
  predicate Configured(cfg: Config) {
    cfg.maxAttempts >= 1 && cfg.window > 0
  }

  predicate Ascending(failures: seq<int>) {
    forall i, k :: 0 <= i < k < |failures| ==> failures[i] <= failures[k]
  }

  predicate CountsSound(counts: seq<int>) {
    forall i :: 0 <= i < |counts| ==> 1 <= counts[i] <= i + 1
  }

  // The failure that created the counter the i-th one was counted on
  function First(counts: seq<int>, i: nat): int
    requires i < |counts|
  {
    i + 1 - counts[i]
  }

  // Failure i + 1 goes on counting, or begins anew after the window; if failure i set a lock, it comes after that.
  predicate Follows(cfg: Config, failures: seq<int>, counts: seq<int>, i: nat)
    requires |failures| == |counts| && CountsSound(counts) && i + 1 < |counts|
  {
    && (if counts[i + 1] == 1 then failures[First(counts, i)] + cfg.window < failures[i + 1]
        else counts[i + 1] == counts[i] + 1)
    && (counts[i] >= cfg.maxAttempts ==> cfg.duration > 0 && failures[i] + cfg.duration < failures[i + 1])
  }

  predicate Shape(cfg: Config, failures: seq<int>, counts: seq<int>) {
    && |failures| == |counts| && CountsSound(counts) && Ascending(failures)
    && forall i {:trigger Follows(cfg, failures, counts, i)} :: 0 <= i < |counts| - 1 ==>
         Follows(cfg, failures, counts, i)
  }

  lemma ShapeGrows(cfg: Config, failures: seq<int>, counts: seq<int>, t: int, n: int)
    requires Shape(cfg, failures, counts)
    requires failures == [] ==> n == 1
    requires failures != [] ==>
               var last := |failures| - 1;
               && failures[last] <= t
               && (if n == 1 then failures[First(counts, last)] + cfg.window < t else n == counts[last] + 1)
               && (counts[last] >= cfg.maxAttempts ==> cfg.duration > 0 && failures[last] + cfg.duration < t)
    ensures Shape(cfg, failures + [t], counts + [n])
  {
    forall i | 0 <= i < |failures| ensures Follows(cfg, failures + [t], counts + [n], i) {
      if i < |failures| - 1 { assert Follows(cfg, failures, counts, i); }
    }
  }

  /* ---- The cache knows the last failure ---- */

  predicate CounterSound(cfg: Config, key: string, store: Store<bool>, now: int, failures: seq<int>, counts: seq<int>)
    requires |failures| == |counts| && CountsSound(counts)
  {
    if failures == [] then key !in store else
    var last := |failures| - 1;
    var start := failures[First(counts, last)];
    if key in store then store[key].counter == counts[last] && store[key].expires == Some(start + cfg.window)
    else start + cfg.window < now
  }

  // After a failure at or above the limit the lock is set, or its time is over.
  predicate LockSound(cfg: Config, key: string, store: Store<bool>, now: int, failures: seq<int>, counts: seq<int>)
    requires |failures| == |counts|
  {
    if failures == [] then key !in store else
    var last := |failures| - 1;
    counts[last] >= cfg.maxAttempts ==>
      if key in store then store[key].expires == ExpiryAfter(cfg.duration, failures[last])
      else cfg.duration > 0 && failures[last] + cfg.duration < now
  }

  ghost predicate Inv(cfg: Config, tracked: string, s: State) {
    && Shape(cfg, s.failures, s.counts)
    && (s.failures != [] ==> s.failures[|s.failures| - 1] <= s.now)
    && CounterSound(cfg, FailKey(tracked), s.store, s.now, s.failures, s.counts)
    && LockSound(cfg, LockKey(tracked), s.store, s.now, s.failures, s.counts)
  }

  predicate Initial(tracked: string, s: State) {
    FailKey(tracked) !in s.store && LockKey(tracked) !in s.store && s.failures == [] && s.counts == []
  }

  // The count a failure of the name gets now
  function NextCount(tracked: string, s: State): int {
    if LiveAt(s.store, FailKey(tracked), s.now) then s.store[FailKey(tracked)].counter + 1 else 1
  }

  lemma CountedKeepsShape(cfg: Config, tracked: string, s: State)
    requires Configured(cfg) && Inv(cfg, tracked, s) && !LiveAt(s.store, LockKey(tracked), s.now)
    ensures Shape(cfg, s.failures + [s.now], s.counts + [NextCount(tracked, s)])
  {
    ShapeGrows(cfg, s.failures, s.counts, s.now, NextCount(tracked, s));
  }

  lemma CountedKeepsCache(cfg: Config, tracked: string, s: State)
    requires Configured(cfg) && Inv(cfg, tracked, s)
    requires Shape(cfg, s.failures + [s.now], s.counts + [NextCount(tracked, s)])
    ensures var failures, counts := s.failures + [s.now], s.counts + [NextCount(tracked, s)];
            var store' := Failed(cfg, s.store, tracked, s.now);
            && FailKey(tracked) in store' && store'[FailKey(tracked)].counter == NextCount(tracked, s)
            && CounterSound(cfg, FailKey(tracked), store', s.now, failures, counts)
            && LockSound(cfg, LockKey(tracked), store', s.now, failures, counts)
  {
    KeysApart(tracked, tracked);
  }

  lemma TrackedKeepsInv(cfg: Config, tracked: string, s: State, checks: Checks)
    requires Configured(cfg) && Inv(cfg, tracked, s) && !Succeeds(checks)
    ensures Inv(cfg, tracked, Apply(cfg, tracked, s, Attempt(tracked, checks)))
  {
    if Counts(checks) && !LiveAt(s.store, LockKey(tracked), s.now) {
      CountedKeepsShape(cfg, tracked, s);
      CountedKeepsCache(cfg, tracked, s);
    }
  }

  lemma WaitingKeepsInv(cfg: Config, tracked: string, s: State, e: Event)
    requires Inv(cfg, tracked, s) && !e.Attempt?
    ensures Inv(cfg, tracked, Apply(cfg, tracked, s, e))
  {
  }

  lemma StepKeepsInv(cfg: Config, tracked: string, s: State, e: Event)
    requires Configured(cfg) && Inv(cfg, tracked, s) && NoSuccess([e], tracked)
    ensures Inv(cfg, tracked, Apply(cfg, tracked, s, e))
  {
    assert [e][0] == e;
    if !e.Attempt? {
      WaitingKeepsInv(cfg, tracked, s, e);
    } else if e.user == tracked {
      TrackedKeepsInv(cfg, tracked, s, e.checks);
    } else {
      OthersKeepCache(cfg, tracked, s, e.user, e.checks);
    }
  }

  lemma {:induction false} RunKeepsInv(cfg: Config, tracked: string, s: State, events: seq<Event>)
    requires Configured(cfg) && Inv(cfg, tracked, s) && NoSuccess(events, tracked)
    ensures Inv(cfg, tracked, Run(cfg, tracked, s, events))
    decreases |events|
  {
    if events != [] {
      StepKeepsInv(cfg, tracked, s, events[0]);
      RunKeepsInv(cfg, tracked, Apply(cfg, tracked, s, events[0]), events[1..]);
    }
  }

  /* ---- The bound ---- */

  // How often a lock can be set, run out and be set again within one window
  function Relocks(cfg: Config): nat
    requires cfg.window > 0
  {
    if cfg.duration > 0 then cfg.window / (cfg.duration + 1) else 0
  }

  function Bound(cfg: Config): nat
    requires Configured(cfg)
  {
    Relocks(cfg) + if cfg.maxAttempts > 2 then 2 * cfg.maxAttempts - 2 else cfg.maxAttempts
  }

  // How many of the failures from i up to j set no lock
  function Free(cfg: Config, counts: seq<int>, i: nat, j: nat): (n: nat)
    requires i <= j <= |counts|
    ensures n <= j - i
  {
    if i == j then 0 else Free(cfg, counts, i, j - 1) + if counts[j - 1] < cfg.maxAttempts then 1 else 0
  }

  lemma {:induction false} FreeSplits(cfg: Config, counts: seq<int>, i: nat, r: nat, j: nat)
    requires i <= r <= j <= |counts|
    ensures Free(cfg, counts, i, j) == Free(cfg, counts, i, r) + Free(cfg, counts, r, j)
  {
    if r < j { FreeSplits(cfg, counts, i, r, j - 1); }
  }

  // On one counter only the failures below the limit set no lock.
  lemma {:induction false} FreeOnOneCounter(cfg: Config, counts: seq<int>, i: nat, j: nat)
    requires i < j <= |counts| && forall m :: i <= m < j ==> counts[m] == counts[i] + (m - i)
    ensures Free(cfg, counts, i, j) <= if counts[i] < cfg.maxAttempts then cfg.maxAttempts - counts[i] else 0
    ensures counts[j - 1] < cfg.maxAttempts ==> Free(cfg, counts, i, j) == j - i
  {
    if i < j - 1 { FreeOnOneCounter(cfg, counts, i, j - 1); }
  }

  lemma {:induction false} OneCounter(cfg: Config, failures: seq<int>, counts: seq<int>, m: nat, j: nat)
    requires Shape(cfg, failures, counts) && j < |counts| && First(counts, j) <= m <= j
    ensures First(counts, m) == First(counts, j)
    decreases j
  {
    if m < j {
      assert Follows(cfg, failures, counts, j - 1);
      OneCounter(cfg, failures, counts, m, j - 1);
    }
  }

  // Each failure that set a lock puts the lock's length between itself and the next.
  lemma {:induction false} LocksSpread(cfg: Config, failures: seq<int>, counts: seq<int>, i: nat, j: nat)
    requires Shape(cfg, failures, counts) && i <= j < |counts|
    ensures var locks := j - i - Free(cfg, counts, i, j);
            (locks > 0 ==> cfg.duration > 0) && failures[i] + locks * (cfg.duration + 1) <= failures[j]
    decreases j
  {
    if i < j {
      LocksSpread(cfg, failures, counts, i, j - 1);
      assert Follows(cfg, failures, counts, j - 1);
      var locks := j - 1 - i - Free(cfg, counts, i, j - 1);
      assert (locks + 1) * (cfg.duration + 1) == locks * (cfg.duration + 1) + (cfg.duration + 1);
    }
  }

  // Within one window at most two counters are in use, and the second one cannot begin before all its failures.
  lemma FreeIsBounded(cfg: Config, failures: seq<int>, counts: seq<int>, i: nat, j: nat)
    requires Configured(cfg) && Shape(cfg, failures, counts) && i < j < |counts|
    requires failures[j] <= failures[i] + cfg.window
    ensures Free(cfg, counts, i, j) < Bound(cfg) - Relocks(cfg)
  {
    var r := First(counts, j);
    forall m | r <= m <= j ensures counts[m] == m + 1 - r { OneCounter(cfg, failures, counts, m, j); }
    if r <= i {
      FreeOnOneCounter(cfg, counts, i, j);
    } else {
      assert Follows(cfg, failures, counts, r - 1);
      var start := First(counts, r - 1);
      assert failures[r] <= failures[j];
      assert start < i;
      forall m | start <= m < r ensures counts[m] == m + 1 - start { OneCounter(cfg, failures, counts, m, r - 1); }
      FreeOnOneCounter(cfg, counts, i, r);
      if r < j { FreeOnOneCounter(cfg, counts, r, j); }
      FreeSplits(cfg, counts, i, r, j);
    }
  }

  lemma MultipleMonotone(a: nat, b: nat, d: nat)
    requires a <= b
    ensures a * d <= b * d
  {
  }

  lemma QuotientBounds(w: nat, d: nat)
    requires d > 0
    ensures (w / d) * d <= w < (w / d + 1) * d
  {
    assert w == (w / d) * d + w % d;
    assert (w / d + 1) * d == (w / d) * d + d;
  }

  lemma RelocksFill(cfg: Config, locks: nat)
    requires cfg.window > 0 && cfg.duration > 0
    ensures locks > Relocks(cfg) ==> locks * (cfg.duration + 1) > cfg.window
    ensures Relocks(cfg) * (cfg.duration + 1) <= cfg.window
  {
    QuotientBounds(cfg.window, cfg.duration + 1);
    if locks > Relocks(cfg) {
      MultipleMonotone(Relocks(cfg) + 1, locks, cfg.duration + 1);
    }
  }

  // Among any `Bound` + 1 failures in a row, the last comes more than a window after the first.
  lemma FarApart(cfg: Config, failures: seq<int>, counts: seq<int>, i: nat)
    requires Configured(cfg) && Shape(cfg, failures, counts) && i + Bound(cfg) < |counts|
    ensures failures[i] + cfg.window < failures[i + Bound(cfg)]
  {
    var j := i + Bound(cfg);
    if failures[j] <= failures[i] + cfg.window {
      FreeIsBounded(cfg, failures, counts, i, j);
      LocksSpread(cfg, failures, counts, i, j);
      var locks := j - i - Free(cfg, counts, i, j);
      RelocksFill(cfg, locks);
    }
  }

  function CountIn(failures: seq<int>, a: int, b: int): nat {
    if failures == [] then 0 else
    CountIn(failures[..|failures| - 1], a, b) + if a <= failures[|failures| - 1] <= b then 1 else 0
  }

  // `first` is the first failure at or after a.
  lemma {:induction false} CountFrom(failures: seq<int>, a: int, w: int, bound: nat, first: nat, n: nat)
    requires Ascending(failures) && n <= |failures|
    requires forall i :: 0 <= i < |failures| ==> (failures[i] < a <==> i < first)
    requires forall i :: 0 <= i && i + bound < |failures| ==> failures[i] + w < failures[i + bound]
    ensures CountIn(failures[..n], a, a + w)
         <= if n <= first then 0 else if n <= first + bound then n - first else bound
  {
    if n > 0 {
      CountFrom(failures, a, w, bound, first, n - 1);
      assert failures[..n][..n - 1] == failures[..n - 1];
      if first + bound < n {
        assert failures[first] + w < failures[first + bound] <= failures[n - 1];
      }
    }
  }

  function FirstFrom(failures: seq<int>, a: int): (first: nat)
    requires Ascending(failures)
    ensures first <= |failures| && forall i :: 0 <= i < |failures| ==> (failures[i] < a <==> i < first)
  {
    if failures == [] || a <= failures[0] then 0 else
    var rest := FirstFrom(failures[1..], a);
    assert forall i :: 1 <= i < |failures| ==> failures[i] == failures[1..][i - 1];
    1 + rest
  }

  lemma RunSpreadsFailures(cfg: Config, tracked: string, s: State, events: seq<Event>)
    requires Configured(cfg) && Initial(tracked, s) && NoSuccess(events, tracked)
    ensures var failures := Run(cfg, tracked, s, events).failures;
            && Ascending(failures)
            && forall i :: 0 <= i && i + Bound(cfg) < |failures| ==>
                 failures[i] + cfg.window < failures[i + Bound(cfg)]
  {
    RunKeepsInv(cfg, tracked, s, events);
    var s' := Run(cfg, tracked, s, events);
    forall i | 0 <= i && i + Bound(cfg) < |s'.failures|
      ensures s'.failures[i] + cfg.window < s'.failures[i + Bound(cfg)]
    {
      FarApart(cfg, s'.failures, s'.counts, i);
    }
  }

  // The failures counted for the name in the window that begins at `a`
  function InWindow(cfg: Config, tracked: string, s: State, events: seq<Event>, a: int): nat {
    CountIn(Run(cfg, tracked, s, events).failures, a, a + cfg.window)
  }

  // In a run without a successful login for the name, no closed interval of the length of the window holds more
  // counted failures for it than the larger of M and 2M - 2, plus one for every time a lock can run out in it.
  lemma FailuresAreBounded(cfg: Config, tracked: string, s: State, events: seq<Event>, a: int)
    requires Configured(cfg) && Initial(tracked, s) && NoSuccess(events, tracked)
    ensures InWindow(cfg, tracked, s, events, a) <= Bound(cfg)
  {
    RunSpreadsFailures(cfg, tracked, s, events);
    var failures := Run(cfg, tracked, s, events).failures;
    CountFrom(failures, a, cfg.window, Bound(cfg), FirstFrom(failures, a), |failures|);
    assert failures[..|failures|] == failures;
  }
}
