/** The in-memory cache: values and counters under string keys, each with an optional expiry. An entry is dead
    strictly after its expiry; dead entries stay in the map until an operation or the reaper removes them. */
module TimedCache {
  import opened Text

  datatype Entry<+V> = Entry(value: V, expires: Option<int>, counter: int)

  type Store<V> = map<string, Entry<V>>

  predicate Expired<V>(e: Entry<V>, now: int) {
    e.expires.Some? && e.expires.value < now
  }

  predicate LiveAt<V>(store: Store<V>, key: string, now: int) {
    key in store && !Expired(store[key], now)
  }

  // A lifetime that is not positive means "never expires".
  function ExpiryAfter(ttl: int, now: int): Option<int> {
    if ttl > 0 then Some(now + ttl) else None
  }

  /* ---- What each operation does to the map ---- */

  function Lookup<V>(store: Store<V>, key: string, now: int): Option<V> {
    if LiveAt(store, key, now) then Some(store[key].value) else None
  }

  function Put<V>(store: Store<V>, key: string, value: V, ttl: int, now: int): Store<V> {
    store[key := Entry(value, ExpiryAfter(ttl, now), 0)]
  }

  function Without<V>(store: Store<V>, keys: seq<string>): Store<V> {
    map k | k in store && k !in keys :: store[k]
  }

  function WithoutPrefix<V>(store: Store<V>, prefix: string): Store<V> {
    map k | k in store && !HasPrefix(k, prefix) :: store[k]
  }

  // The entry Increment counts up: the live one, or a new one with value `blank`.
  function Counted<V>(store: Store<V>, key: string, ttl: int, now: int, blank: V): Entry<V> {
    if LiveAt(store, key, now) then store[key] else Entry(blank, ExpiryAfter(ttl, now), 0)
  }

  function Incremented<V>(store: Store<V>, key: string, ttl: int, now: int, blank: V): Store<V> {
    var e := Counted(store, key, ttl, now, blank);
    store[key := e.(counter := e.counter + 1)]
  }

  function Reaped<V>(store: Store<V>, now: int): Store<V> {
    map k | k in store && !Expired(store[k], now) :: store[k]
  }

  /* ---- Reading the changes off two states of the map ---- */

  predicate SameElsewhere<V(==)>(a: Store<V>, b: Store<V>, keys: seq<string>) {
    && (forall k :: k in a && k !in keys ==> k in b && b[k] == a[k])
    && (forall k :: k in b && k !in keys ==> k in a)
  }

  // Exactly the keys are gone.
  predicate KeysGone<V(==)>(a: Store<V>, b: Store<V>, keys: seq<string>) {
    SameElsewhere(a, b, keys) && forall k :: k in keys ==> k !in b
  }

  // Exactly the keys with the prefix are gone.
  predicate PrefixGone<V(==)>(a: Store<V>, b: Store<V>, prefix: string) {
    && (forall k :: k in a && !(prefix <= k) ==> k in b && b[k] == a[k])
    && (forall k :: k in b ==> k in a && !(prefix <= k))
  }

  // An entry is live up to and including its expiry, and for good without one.
  predicate LivesAt<V>(e: Entry<V>, t: int) {
    e.expires.None? || t <= e.expires.value
  }

  // The expiry of an entry made at `now`
  predicate Expires<V>(e: Entry<V>, ttl: int, now: int) {
    if ttl > 0 then e.expires == Some(now + ttl) else e.expires == None
  }

  /* ---- The cache itself ---- */

  class MemoryCache<V> {
    var data: Store<V>
    const blank: V

    constructor (zero: V)
      ensures data == map[] && blank == zero
    {
      data, blank := map[], zero;
    }

    method Get(key: string, now: int) returns (found: Option<V>)
      ensures found == Lookup(data, key, now)
      ensures found.Some? <==> key in data && LivesAt(data[key], now)
      ensures found.Some? ==> found.value == data[key].value
    {
      if key !in data { return None; }
      var e := data[key];
      if e.expires.Some? && e.expires.value < now { return None; }
      return Some(e.value);
    }

    method Set(key: string, value: V, ttl: int, now: int)
      modifies this
      ensures data == Put(old(data), key, value, ttl, now)
      ensures key in data && data[key].value == value && data[key].counter == 0 && Expires(data[key], ttl, now)
      ensures SameElsewhere(old(data), data, [key])
    {
      var expires := None;
      if ttl > 0 { expires := Some(now + ttl); }
      data := data[key := Entry(value, expires, 0)];
    }

    method Delete(keys: seq<string>)
      modifies this
      ensures data == Without(old(data), keys)
      ensures KeysGone(old(data), data, keys)
    {
      for i := 0 to |keys|
        invariant data == Without(old(data), keys[..i])
      {
        data := data - {keys[i]};
        assert keys[..i + 1] == keys[..i] + [keys[i]];
      }
      assert keys[..|keys|] == keys;
    }

    method DeletePrefix(prefix: string)
      modifies this
      ensures data == WithoutPrefix(old(data), prefix)
      ensures PrefixGone(old(data), data, prefix)
    {
      var todo := data.Keys;
      while todo != {}
        invariant todo <= old(data).Keys
        invariant data == map k | k in old(data) && (k in todo || !HasPrefix(k, prefix)) :: old(data)[k]
        decreases |todo|
      {
        var k :| k in todo;
        if HasPrefix(k, prefix) {
          data := data - {k};
        }
        todo := todo - {k};
      }
    }

    method Increment(key: string, ttl: int, now: int) returns (count: int)
      modifies this
      ensures data == Incremented(old(data), key, ttl, now, blank)
      ensures key in data && count == data[key].counter && SameElsewhere(old(data), data, [key])
      ensures if key in old(data) && LivesAt(old(data)[key], now)
              then count == old(data)[key].counter + 1 && data[key].expires == old(data)[key].expires
                   && data[key].value == old(data)[key].value
              else count == 1 && Expires(data[key], ttl, now)
    {
      var e := if key in data then data[key] else Entry(blank, None, 0);
      if key !in data || (e.expires.Some? && e.expires.value < now) {
        var expires := None;
        if ttl > 0 { expires := Some(now + ttl); }
        e := Entry(blank, expires, 0);
      }
      e := e.(counter := e.counter + 1);
      data := data[key := e];
      return e.counter;
    }

    // One pass of the reaper
    method Reap(now: int)
      modifies this
      ensures data == Reaped(old(data), now)
      ensures forall k :: k in data <==> k in old(data) && LivesAt(old(data)[k], now)
      ensures forall k :: k in data ==> data[k] == old(data)[k]
    {
      var todo := data.Keys;
      while todo != {}
        invariant todo <= old(data).Keys
        invariant data == map k | k in old(data) && (k in todo || !Expired(old(data)[k], now)) :: old(data)[k]
        decreases |todo|
      {
        var k :| k in todo;
        if data[k].expires.Some? && data[k].expires.value < now {
          data := data - {k};
        }
        todo := todo - {k};
      }
    }
  }

  // A value is found from the moment it is stored to the end of its lifetime, and not afterwards.
  lemma FoundWhileItLasts<V>(store: Store<V>, key: string, value: V, ttl: int, now: int, t: int)
    ensures Lookup(Put(store, key, value, ttl, now), key, t)
         == if ttl <= 0 || t <= now + ttl then Some(value) else None
  {
  }

  // After a pass of the reaper everything left is live, and nothing live is missing.
  lemma ReapedIsLive<V>(store: Store<V>, now: int)
    ensures forall k :: k in Reaped(store, now) <==> k in store && LivesAt(store[k], now)
    ensures forall k :: k in Reaped(store, now) ==> Reaped(store, now)[k] == store[k]
  {
  }

  /* ---- The reaper is invisible ---- */

  datatype Op<+V> =
    | GetOp(key: string)
    | SetOp(key: string, value: V, ttl: int)
    | DeleteOp(keys: seq<string>)
    | DeletePrefixOp(prefix: string)
    | IncrementOp(key: string, ttl: int)
    | ReapOp

  datatype Timed<+V> = At(now: int, op: Op<V>)

  datatype Reply<+V> = Found(value: Option<V>) | Count(n: int) | Ok

  function Step<V>(store: Store<V>, t: Timed<V>, blank: V): Store<V> {
    match t.op
    case GetOp(_) => store
    case SetOp(key, value, ttl) => Put(store, key, value, ttl, t.now)
    case DeleteOp(keys) => Without(store, keys)
    case DeletePrefixOp(prefix) => WithoutPrefix(store, prefix)
    case IncrementOp(key, ttl) => Incremented(store, key, ttl, t.now, blank)
    case ReapOp => Reaped(store, t.now)
  }

  // The reaper replies to nobody.
  function ReplyTo<V>(store: Store<V>, t: Timed<V>, blank: V): seq<Reply<V>> {
    match t.op
    case GetOp(key) => [Found(Lookup(store, key, t.now))]
    case IncrementOp(key, ttl) => [Count(Counted(store, key, ttl, t.now, blank).counter + 1)]
    case ReapOp => []
    case _ => [Ok]
  }

  function Replies<V>(store: Store<V>, ops: seq<Timed<V>>, blank: V): seq<Reply<V>>
    decreases |ops|
  {
    if ops == [] then [] else ReplyTo(store, ops[0], blank) + Replies(Step(store, ops[0], blank), ops[1..], blank)
  }

  // The clock never goes back.
  predicate InOrder<V>(ops: seq<Timed<V>>, from: int)
    decreases |ops|
  {
    ops == [] || (from <= ops[0].now && InOrder(ops[1..], ops[0].now))
  }

  function WithoutReaper<V>(ops: seq<Timed<V>>): seq<Timed<V>>
    decreases |ops|
  {
    if ops == [] then [] else
    (if ops[0].op.ReapOp? then [] else [ops[0]]) + WithoutReaper(ops[1..])
  }

  /* The simple timed map: a cache that drops every dead entry before each operation. */
  function TimedMapReplies<V>(store: Store<V>, ops: seq<Timed<V>>, blank: V): seq<Reply<V>>
    decreases |ops|
  {
    if ops == [] then [] else
    var live := Reaped(store, ops[0].now);
    (if ops[0].op.ReapOp? then [] else ReplyTo(live, ops[0], blank))
    + TimedMapReplies(if ops[0].op.ReapOp? then live else Step(live, ops[0], blank), ops[1..], blank)
  }

  // Two maps that differ in dead entries only.
  ghost predicate SameLive<V>(a: Store<V>, b: Store<V>, now: int) {
    forall k :: (LiveAt(a, k, now) <==> LiveAt(b, k, now)) && (LiveAt(a, k, now) ==> a[k] == b[k])
  }

  lemma SameLiveWithout<V>(a: Store<V>, b: Store<V>, now: int, keys: seq<string>)
    requires SameLive(a, b, now)
    ensures SameLive(Without(a, keys), Without(b, keys), now)
  {
  }

  lemma SameLiveWithoutPrefix<V>(a: Store<V>, b: Store<V>, now: int, prefix: string)
    requires SameLive(a, b, now)
    ensures SameLive(WithoutPrefix(a, prefix), WithoutPrefix(b, prefix), now)
  {
  }

  lemma ReapedSameLive<V>(a: Store<V>, now: int)
    ensures SameLive(a, Reaped(a, now), now)
  {
  }

  lemma StepSeesOnlyLive<V>(a: Store<V>, b: Store<V>, t: Timed<V>, blank: V)
    requires SameLive(a, b, t.now)
    ensures ReplyTo(a, t, blank) == ReplyTo(b, t, blank)
    ensures SameLive(Step(a, t, blank), Step(b, t, blank), t.now)
  {
    match t.op
    case GetOp(key) =>
    case SetOp(key, value, ttl) =>
    case DeleteOp(keys) => SameLiveWithout(a, b, t.now, keys);
    case DeletePrefixOp(prefix) => SameLiveWithoutPrefix(a, b, t.now, prefix);
    case IncrementOp(key, ttl) =>
    case ReapOp => ReapedSameLive(a, t.now); ReapedSameLive(b, t.now);
  }

  lemma {:induction false} LiveEntriesDecide<V>(
      a: Store<V>, b: Store<V>, ops: seq<Timed<V>>, from: int, blank: V)
    requires InOrder(ops, from) && SameLive(a, b, from)
    ensures Replies(a, ops, blank) == Replies(b, WithoutReaper(ops), blank)
    ensures Replies(a, ops, blank) == TimedMapReplies(b, ops, blank)
    decreases |ops|
  {
    if ops != [] {
      var t := ops[0];
      assert SameLive(a, b, t.now);
      var live := Reaped(b, t.now);
      ReapedSameLive(b, t.now);
      StepSeesOnlyLive(a, b, t, blank);
      StepSeesOnlyLive(a, live, t, blank);
      var a' := Step(a, t, blank);
      if t.op.ReapOp? {
        ReapedSameLive(a, t.now);
        LiveEntriesDecide(a', b, ops[1..], t.now, blank);
        LiveEntriesDecide(a', live, ops[1..], t.now, blank);
        assert WithoutReaper(ops) == WithoutReaper(ops[1..]);
      } else {
        LiveEntriesDecide(a', Step(b, t, blank), ops[1..], t.now, blank);
        LiveEntriesDecide(a', Step(live, t, blank), ops[1..], t.now, blank);
        var kept := WithoutReaper(ops);
        assert kept[0] == t && kept[1..] == WithoutReaper(ops[1..]);
      }
    }
  }

  // Reaper passes can be put in or taken out anywhere without changing what any caller sees, and what callers see
  // is what the simple timed map tells them.
  lemma ReaperIsInvisible<V>(store: Store<V>, ops: seq<Timed<V>>, from: int, blank: V)
    requires InOrder(ops, from)
    ensures Replies(store, ops, blank) == Replies(store, WithoutReaper(ops), blank)
    ensures Replies(store, ops, blank) == TimedMapReplies(store, ops, blank)
  {
    LiveEntriesDecide(store, store, ops, from, blank);
  }

  /* ---- Who uses which keys ---- */

  const RBAC_PREFIX := "rbac:user:"
  const OTHER_PREFIXES: seq<string> := [
    "session:", "webauthn:session:", "oidc:code:", "oidc:refresh:", "login_fail:", "login_lock:", "apiclient_rl:"]

  // Dropping all resolutions removes every one of them and leaves every other component's entries as they were.
  lemma InvalidationIsPrecise<V>(store: Store<V>, key: string, i: nat)
    requires i < |OTHER_PREFIXES|
    ensures HasPrefix(key, RBAC_PREFIX) ==> key !in WithoutPrefix(store, RBAC_PREFIX)
    ensures HasPrefix(key, OTHER_PREFIXES[i]) ==>
              (key in WithoutPrefix(store, RBAC_PREFIX) <==> key in store)
              && (key in store ==> WithoutPrefix(store, RBAC_PREFIX)[key] == store[key])
  {
    if HasPrefix(key, OTHER_PREFIXES[i]) {
      assert key[0] == OTHER_PREFIXES[i][0] != RBAC_PREFIX[0];
    }
  }
}
