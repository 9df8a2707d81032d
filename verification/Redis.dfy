/**
 * The shared key-value store, and the service that wraps it.
 *
 * Times are integers in milliseconds; every operation is handed the store's
 * clock reading.  An entry with an expiry is readable strictly before it.
 */
module Redis {
  import opened Arithmetic
  import opened Options

  datatype TokenPair = TokenPair(accessToken: string, refreshToken: string)

  datatype Key =
    | RefreshLock(hash: string)
    | RefreshResult(hash: string)
    | RateLimit(accessKey: string, bucket: int)
    | SubscriptionAccess(scope: string)

  datatype Value =
    | Held
    | Pair(tokens: TokenPair)
    | Count(n: int)
    | Allowed(yes: bool)

  datatype Entry = Entry(value: Value, expires: Option<int>)

  type Store = map<Key, Entry>

  const LOCK_TTL := 10
  const RESULT_TTL := 60
  const ACCESS_TTL := 60

  predicate Live(s: Store, k: Key, now: int) {
    k in s && (s[k].expires.Some? ==> now < s[k].expires.value)
  }

  function Get(s: Store, k: Key, now: int): Option<Value> {
    if Live(s, k, now) then Some(s[k].value) else None
  }

  /** Every key but one reads the same in both stores, at every instant. */
  ghost predicate OthersReadAlike(s: Store, t: Store, k: Key) {
    forall other: Key, now: int | other != k :: Get(s, other, now) == Get(t, other, now)
  }

  /** `SET k v EX ttl`. */
  function SetEx(s: Store, k: Key, v: Value, ttl: int, now: int): Store {
    s[k := Entry(v, Some(now + 1000 * ttl))]
  }

  /** `SET k v EX ttl NX`: the store afterwards; the caller won iff the key was not live. */
  function SetNx(s: Store, k: Key, v: Value, ttl: int, now: int): Store {
    if Live(s, k, now) then s else SetEx(s, k, v, ttl, now)
  }

  function Del(s: Store, k: Key): Store {
    s - {k}
  }

  /** The running total a counter key holds, 0 when it is absent or expired. */
  function CounterAt(s: Store, k: Key, now: int): int {
    if Live(s, k, now) && s[k].value.Count? then s[k].value.n else 0
  }

  /** `INCR k`: keeps the expiry a live key has, starts at 1 with none otherwise. */
  function Incr(s: Store, k: Key, now: int): Store {
    s[k := Entry(Count(CounterAt(s, k, now) + 1), if Live(s, k, now) then s[k].expires else None)]
  }

  /** `EXPIRE k ttl`: nothing happens to a key that is not there. */
  function Expire(s: Store, k: Key, ttl: int, now: int): Store {
    if Live(s, k, now) then s[k := s[k].(expires := Some(now + 1000 * ttl))] else s
  }

  /** The fixed window an instant falls in. */
  function Bucket(now: int, windowSeconds: int): (b: int)
    requires windowSeconds > 0
    ensures b * windowSeconds * 1000 <= now < (b + 1) * windowSeconds * 1000
  {
    BucketBounds(now, windowSeconds);
    (now / 1000) / windowSeconds
  }

  lemma BucketBounds(now: int, w: int)
    requires w > 0
    ensures var b := (now / 1000) / w; b * w * 1000 <= now < (b + 1) * w * 1000
  {
    var s := now / 1000;
    var b := s / w;
    assert b * w <= s < b * w + w;
    assert (b + 1) * w == b * w + w;
  }

  class RedisService {
    var entries: Store

    constructor ()
      ensures entries == map[]
    {
      entries := map[];
    }

    method TakeRefreshLock(hash: string, now: int) returns (taken: bool)
      modifies this
      ensures taken == !old(Live(entries, RefreshLock(hash), now))
      ensures entries == SetNx(old(entries), RefreshLock(hash), Held, LOCK_TTL, now)
      // The lock is its taker's for ten seconds and nobody's from then on; losing changes nothing.
      ensures taken ==> forall t: int :: Live(entries, RefreshLock(hash), t) <==> t < now + 10000
      ensures !taken ==> entries == old(entries)
      ensures OthersReadAlike(old(entries), entries, RefreshLock(hash))
    {
      taken := !Live(entries, RefreshLock(hash), now);
      if taken {
        entries := entries[RefreshLock(hash) := Entry(Held, Some(now + 1000 * LOCK_TTL))];
      }
    }

    method ReleaseRefreshLock(hash: string)
      modifies this
      ensures entries == Del(old(entries), RefreshLock(hash))
      // The lock is free at once and at every later instant, whoever held it.
      ensures forall t: int :: !Live(entries, RefreshLock(hash), t)
      ensures OthersReadAlike(old(entries), entries, RefreshLock(hash))
    {
      entries := entries - {RefreshLock(hash)};
    }

    method SetRefreshResult(hash: string, tokens: TokenPair, now: int)
      modifies this
      ensures entries == SetEx(old(entries), RefreshResult(hash), Pair(tokens), RESULT_TTL, now)
      // Whoever asks within the minute is given this pair; from then on nobody is given any.
      ensures forall t: int :: PairAt(entries, hash, t) == if t < now + 60000 then Some(tokens) else None
      ensures OthersReadAlike(old(entries), entries, RefreshResult(hash))
    {
      entries := entries[RefreshResult(hash) := Entry(Pair(tokens), Some(now + 1000 * RESULT_TTL))];
    }

    method GetRefreshResult(hash: string, now: int) returns (tokens: Option<TokenPair>)
      ensures tokens == PairAt(entries, hash, now)
    {
      var raw := Get(entries, RefreshResult(hash), now);
      if raw.Some? && raw.value.Pair? {
        tokens := Some(raw.value.tokens);
      } else {
        tokens := None;
      }
    }

    /**
     * Count one request against the window the instant falls in.  The expiry is
     * set by the first increment only, one second past the window's length.
     */
    method CountInWindow(accessKey: string, windowSeconds: int, now: int) returns (count: int)
      requires windowSeconds > 0
      modifies this
      ensures var k := RateLimit(accessKey, Bucket(now, windowSeconds));
              && count == old(CounterAt(entries, k, now)) + 1
              && CounterAt(entries, k, now) == count
              && entries == (var s := Incr(old(entries), k, now);
                             if count == 1 then Expire(s, k, windowSeconds + 1, now) else s)
    {
      var k := RateLimit(accessKey, Bucket(now, windowSeconds));
      count := CounterAt(entries, k, now) + 1;
      entries := Incr(entries, k, now);
      if count == 1 {
        entries := Expire(entries, k, windowSeconds + 1, now);
      }
    }

    method SetSubscriptionAccess(scope: string, allowed: bool, now: int)
      modifies this
      ensures entries == SetEx(old(entries), SubscriptionAccess(scope), Allowed(allowed), ACCESS_TTL, now)
      // The answer is read back until its minute is up, and no answer at all from then on.
      ensures forall t: int :: AccessAt(entries, scope, t) == if t < now + 60000 then Some(allowed) else None
      ensures OthersReadAlike(old(entries), entries, SubscriptionAccess(scope))
    {
      entries := entries[SubscriptionAccess(scope) := Entry(Allowed(allowed), Some(now + 1000 * ACCESS_TTL))];
    }

    method GetSubscriptionAccess(scope: string, now: int) returns (allowed: Option<bool>)
      ensures allowed == AccessAt(entries, scope, now)
    {
      var raw := Get(entries, SubscriptionAccess(scope), now);
      if raw.Some? {
        allowed := Some(raw.value == Allowed(true));
      } else {
        allowed := None;
      }
    }
  }

  /** What `getRefreshResult` reads. */
  function PairAt(s: Store, hash: string, now: int): Option<TokenPair> {
    match Get(s, RefreshResult(hash), now)
    case Some(Pair(tokens)) => Some(tokens)
    case _ => None
  }

  /** What `getSubscriptionAccess` reads: anything but "1" is a refusal. */
  function AccessAt(s: Store, scope: string, now: int): Option<bool> {
    match Get(s, SubscriptionAccess(scope), now)
    case Some(v) => Some(v == Allowed(true))
    case None => None
  }

  /**
   * Seconds until the window closes, never less than one.  A caller that waits
   * exactly this long lands in the next window and in no later one.
   */
  function SecondsUntilWindowEnds(now: int, windowSeconds: int): (r: int)
    requires windowSeconds > 0
    ensures 1 <= r <= windowSeconds
    ensures Bucket(now + 1000 * r, windowSeconds) == Bucket(now, windowSeconds) + 1
  {
    var elapsed := (now / 1000) % windowSeconds;
    NextWindow(now, windowSeconds);
    if windowSeconds - elapsed > 1 then windowSeconds - elapsed else 1
  }

  lemma NextWindow(now: int, w: int)
    requires w > 0
    ensures var r := w - (now / 1000) % w; Bucket(now + 1000 * r, w) == Bucket(now, w) + 1
  {
    var s := now / 1000;
    var r := w - s % w;
    assert (now + 1000 * r) / 1000 == s + r;
    var b := s / w;
    assert s == b * w + s % w;
    assert s + r == (b + 1) * w;
    MultipleDivides(b + 1, w);
  }
}
