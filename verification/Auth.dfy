/**
 * `AuthService.refresh` as one caller runs it, and the polling loop of a caller
 * that lost the lock.  RefreshProtocol proves what holds when many callers'
 * steps interleave.
 */
module Auth {
  import opened Options
  import opened Redis
  import RP = RefreshProtocol

  /** What one poll found in the store, and when. */
  datatype Poll = Poll(at: int, store: Store)

  datatype SsoReply = Granted(tokens: TokenPair) | Refused

  datatype Answer = Tokens(tokens: TokenPair) | ServiceUnavailable | Rethrown

  /** A timer never fires early, and a poll comes after its timer. */
  predicate Paced(start: int, polls: seq<Poll>) {
    forall i | 0 <= i < |polls| ::
      (if i == 0 then start else polls[i - 1].at) + RP.REFRESH_POLL_MS <= polls[i].at
  }

  /** The most polls the wait can make. */
  const MAX_POLLS := RP.REFRESH_WAIT_MS / RP.REFRESH_POLL_MS

  predicate Missed(hash: string, p: Poll) {
    PairAt(p.store, hash, p.at).None?
  }

  /** The wait gave up at the poll before `n`: nothing cached, and the deadline reached. */
  predicate GaveUp(hash: string, start: int, polls: seq<Poll>, n: nat) {
    && 0 < n <= |polls| && n <= MAX_POLLS
    && (forall i | 0 <= i < n :: Missed(hash, polls[i]))
    && start + RP.REFRESH_WAIT_MS <= polls[n - 1].at
  }

  /** The wait ended with what poll `n` found, the first to find anything. */
  predicate FoundAt(hash: string, start: int, polls: seq<Poll>, n: nat, tokens: TokenPair) {
    && n < |polls| && n < MAX_POLLS
    && (forall i | 0 <= i < n :: Missed(hash, polls[i]) && polls[i].at < start + RP.REFRESH_WAIT_MS)
    && PairAt(polls[n].store, hash, polls[n].at) == Some(tokens)
  }

  /** Polls every 100 ms for at most two seconds: twenty reads, no more. */
  method WaitForRefresh(hash: string, start: int, polls: seq<Poll>) returns (shared: Option<TokenPair>)
    requires Paced(start, polls) && MAX_POLLS <= |polls|
    ensures shared.Some? ==> exists n :: FoundAt(hash, start, polls, n, shared.value)
    ensures shared.None? ==> exists n :: GaveUp(hash, start, polls, n)
  {
    var deadline := start + RP.REFRESH_WAIT_MS;
    var now := start;
    var n := 0;
    while now < deadline
      invariant 0 <= n <= MAX_POLLS
      invariant start + n * RP.REFRESH_POLL_MS <= now
      invariant now == if n == 0 then start else polls[n - 1].at
      invariant forall i | 0 <= i < n :: Missed(hash, polls[i])
      invariant forall i | 0 <= i < n - 1 :: polls[i].at < deadline
      decreases MAX_POLLS - n
    {
      var cached := PairAt(polls[n].store, hash, polls[n].at);
      if cached.Some? {
        assert FoundAt(hash, start, polls, n, cached.value);
        return cached;
      }
      now := polls[n].at;
      n := n + 1;
    }
    assert GaveUp(hash, start, polls, n);
    return None;
  }

  class AuthService {
    const redis: RedisService

    constructor (redis: RedisService)
      ensures this.redis == redis
    {
      this.redis := redis;
    }

    /**
     * One caller's refresh: `checked`, `asked` and `stored` are its clock
     * readings, `reply` what the SSO says if it is asked, `polls` what it sees
     * if it has to wait.
     */
    method Refresh(hash: string, checked: int, asked: int, stored: int, reply: SsoReply, polls: seq<Poll>)
      returns (answer: Answer)
      requires checked <= asked <= stored
      requires Paced(asked, polls) && MAX_POLLS <= |polls|
      modifies redis
      // A cached pair is handed over and nothing is touched.
      ensures old(PairAt(redis.entries, hash, checked)).Some? ==>
                && answer == Tokens(old(PairAt(redis.entries, hash, checked)).value)
                && redis.entries == old(redis.entries)
      // Somebody else holds the lock: wait for their pair, and never end the session over it.
      ensures old(PairAt(redis.entries, hash, checked)).None? && old(Live(redis.entries, RefreshLock(hash), asked)) ==>
                && redis.entries == old(redis.entries)
                && !answer.Rethrown?
                && (answer.Tokens? ==> exists n :: FoundAt(hash, asked, polls, n, answer.tokens))
                && (answer.ServiceUnavailable? ==> exists n :: GaveUp(hash, asked, polls, n))
      // The lock is this caller's: a success is cached and keeps the lock, a failure gives it back.
      ensures old(PairAt(redis.entries, hash, checked)).None? && !old(Live(redis.entries, RefreshLock(hash), asked)) ==>
                match reply
                case Granted(tokens) =>
                  && answer == Tokens(tokens)
                  && redis.entries == SetEx(SetNx(old(redis.entries), RefreshLock(hash), Held, LOCK_TTL, asked),
                                            RefreshResult(hash), Pair(tokens), RESULT_TTL, stored)
                  && (forall t | stored <= t < stored + 60000 :: PairAt(redis.entries, hash, t) == Some(tokens))
                  && (forall t | asked <= t < asked + 10000 :: Live(redis.entries, RefreshLock(hash), t))
                case Refused =>
                  && answer == Rethrown
                  && redis.entries == Del(old(redis.entries), RefreshLock(hash))
                  && (forall t :: !Live(redis.entries, RefreshLock(hash), t))
    {
      var cached := redis.GetRefreshResult(hash, checked);
      if cached.Some? {
        return Tokens(cached.value);
      }
      var taken := redis.TakeRefreshLock(hash, asked);
      if !taken {
        var shared := WaitForRefresh(hash, asked, polls);
        if shared.Some? {
          return Tokens(shared.value);
        }
        return ServiceUnavailable;
      }
      match reply {
        case Granted(tokens) =>
          redis.SetRefreshResult(hash, tokens, stored);
          return Tokens(tokens);
        case Refused =>
          redis.ReleaseRefreshLock(hash);
          return Rethrown;
      }
    }
  }
}
