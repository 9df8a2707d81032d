/**
 * Refreshing one session's token, with any number of callers at once.
 *
 * Each caller's `refresh` is a sequence of steps between which other callers
 * and the clock move.  Everybody holds the same spent-once token, so one hash
 * names the lock and the cached result for all of them.
 *
 * Two timing bounds are hypotheses, carried by `Bounds`: how long a caller may
 * take from missing the cache to asking for the lock, and how long from holding
 * the lock to having stored or given up the exchange.
 */
module RefreshProtocol {
  import opened Options
  import opened Redis

  const HASH := "h"
  const REFRESH_WAIT_MS := 2000
  const REFRESH_POLL_MS := 100
  const LOCK_MS := 1000 * LOCK_TTL
  const RESULT_MS := 1000 * RESULT_TTL

  datatype Bounds = Bounds(gap: nat, exchange: nat)

  datatype Outcome = Returned(tokens: TokenPair, at: int) | Unavailable | Failed

  datatype Caller =
    | Missed(at: int)                     // found no cached pair at this time
    | Locked(at: int)                     // took the lock at this time
    | Exchanging(at: int)                 // the token is in the SSO's hands
    | Waiting(deadline: int, wake: int)   // polling for the winner's pair
    | Finished(outcome: Outcome)

  /** An exchange that succeeded, and when its pair was cached. */
  datatype Win = Win(tokens: TokenPair, at: int)

  /** The token going to the SSO, and how many exchanges had succeeded by then. */
  datatype Presentation = Presentation(at: int, winsBefore: nat)

  datatype World = World(
    now: int,
    store: Store,
    callers: map<nat, Caller>,
    wins: seq<Win>,
    presented: seq<Presentation>)

  datatype Event =
    | Tick(to: int)
    | CheckCache(c: nat)
    | TakeLock(c: nat)
    | Present(c: nat)
    | Succeed(c: nat, tokens: TokenPair)
    | Fail(c: nat)
    | Poll(c: nat)

  function Init(now: int): World {
    World(now, map[], map[], [], [])
  }

  predicate Enabled(b: Bounds, w: World, e: Event) {
    match e
    case Tick(to) =>
      && w.now <= to
      && forall c | c in w.callers && w.callers[c].Exchanging? :: to <= w.callers[c].at + b.exchange
    case CheckCache(c) => c !in w.callers
    case TakeLock(c) => c in w.callers && w.callers[c].Missed? && w.now <= w.callers[c].at + b.gap
    case Present(c) => c in w.callers && w.callers[c].Locked? && w.now <= w.callers[c].at + b.exchange
    case Succeed(c, _) => c in w.callers && w.callers[c].Exchanging?
    case Fail(c) => c in w.callers && w.callers[c].Exchanging?
    case Poll(c) => c in w.callers && w.callers[c].Waiting? && w.callers[c].wake <= w.now
  }

  function Set(w: World, c: nat, pc: Caller): World {
    w.(callers := w.callers[c := pc])
  }

  function Apply(b: Bounds, w: World, e: Event): World
    requires Enabled(b, w, e)
  {
    match e
    case Tick(to) => w.(now := to)
    case CheckCache(c) =>
      (match PairAt(w.store, HASH, w.now)
       case Some(tokens) => Set(w, c, Finished(Returned(tokens, w.now)))
       case None => Set(w, c, Missed(w.now)))
    case TakeLock(c) =>
      if Live(w.store, RefreshLock(HASH), w.now) then
        Set(w, c, Waiting(w.now + REFRESH_WAIT_MS, w.now + REFRESH_POLL_MS))
      else
        Set(w, c, Locked(w.now)).(store := SetNx(w.store, RefreshLock(HASH), Held, LOCK_TTL, w.now))
    case Present(c) =>
      Set(w, c, Exchanging(w.callers[c].at)).(presented := w.presented + [Presentation(w.now, |w.wins|)])
    case Succeed(c, tokens) =>
      Set(w, c, Finished(Returned(tokens, w.now))).(
        store := SetEx(w.store, RefreshResult(HASH), Pair(tokens), RESULT_TTL, w.now),
        wins := w.wins + [Win(tokens, w.now)])
    case Fail(c) =>
      Set(w, c, Finished(Failed)).(store := Del(w.store, RefreshLock(HASH)))
    case Poll(c) =>
      (match PairAt(w.store, HASH, w.now)
       case Some(tokens) => Set(w, c, Finished(Returned(tokens, w.now)))
       case None =>
         if w.now < w.callers[c].deadline
         then Set(w, c, Waiting(w.callers[c].deadline, w.now + REFRESH_POLL_MS))
         else Set(w, c, Finished(Unavailable)))
  }

  /** Where a list of events leads, or None when one of them could not happen. */
  function RunFrom(b: Bounds, w: World, es: seq<Event>): Option<World>
    decreases |es|
  {
    if es == [] then Some(w)
    else if Enabled(b, w, es[0]) then RunFrom(b, Apply(b, w, es[0]), es[1..])
    else None
  }

  // ---------------------------------------------------------------------------
  // What is promised
  // ---------------------------------------------------------------------------

  /** The winner's pair is in the cache at this time. */
  predicate CachedAt(win: Win, t: int) {
    win.at <= t < win.at + RESULT_MS
  }

  /** Never two exchanges in the SSO's hands. */
  ghost predicate OneInFlight(w: World) {
    forall c, d | c in w.callers && d in w.callers && w.callers[c].Exchanging? && w.callers[d].Exchanging? :: c == d
  }

  /** A token spent by a successful exchange is not presented while that result is cached. */
  ghost predicate NeverRespent(w: World) {
    forall p, i | 0 <= p < |w.presented| && 0 <= i < w.presented[p].winsBefore :: ExpiredBefore(w, p, i)
  }

  predicate ExpiredBefore(w: World, p: nat, i: nat)
    requires p < |w.presented|
  {
    i < |w.wins| && w.wins[i].at + RESULT_MS <= w.presented[p].at
  }

  /** Whoever returns tokens while a result is cached returns that result. */
  ghost predicate EveryoneGetsTheWinnersPair(w: World) {
    forall c, i | c in w.callers && w.callers[c].Finished? && w.callers[c].outcome.Returned? && 0 <= i < |w.wins| ::
      CachedAt(w.wins[i], w.callers[c].outcome.at) ==> w.callers[c].outcome.tokens == w.wins[i].tokens
  }

  ghost predicate Safe(w: World) {
    OneInFlight(w) && NeverRespent(w) && EveryoneGetsTheWinnersPair(w)
  }

  // ---------------------------------------------------------------------------
  // The invariant
  // ---------------------------------------------------------------------------

  predicate Timely(b: Bounds) {
    b.gap + b.exchange < LOCK_MS
  }

  /** A caller entitled to have the token presented: its lock is still its own. */
  predicate Fresh(b: Bounds, w: World, c: nat) {
    && c in w.callers
    && (w.callers[c].Locked? || w.callers[c].Exchanging?)
    && w.now <= w.callers[c].at + b.exchange
  }

  ghost predicate HolderInv(b: Bounds, w: World) {
    forall c | Fresh(b, w, c) ::
      && RefreshLock(HASH) in w.store
      && w.store[RefreshLock(HASH)].expires == Some(w.callers[c].at + LOCK_MS)
      && w.callers[c].at <= w.now
      && (w.wins != [] ==> w.wins[|w.wins| - 1].at + RESULT_MS <= w.callers[c].at)
  }

  ghost predicate OneHolder(b: Bounds, w: World) {
    forall c, d | Fresh(b, w, c) && Fresh(b, w, d) :: c == d
  }

  ghost predicate FlightsAreFresh(b: Bounds, w: World) {
    forall c | c in w.callers && w.callers[c].Exchanging? :: Fresh(b, w, c)
  }

  ghost predicate CacheInv(w: World) {
    if w.wins == [] then RefreshResult(HASH) !in w.store
    else
      var last := w.wins[|w.wins| - 1];
      && last.at <= w.now
      && RefreshResult(HASH) in w.store
      && w.store[RefreshResult(HASH)] == Entry(Pair(last.tokens), Some(last.at + RESULT_MS))
      && forall i, j | 0 <= i < j < |w.wins| :: w.wins[i].at + RESULT_MS <= w.wins[j].at
  }

  /** Just after a win, the winner's lock outlives anyone who missed the cache before it. */
  ghost predicate TailInv(b: Bounds, w: World) {
    w.wins != [] ==>
      var last := w.wins[|w.wins| - 1];
      && (w.now <= last.at + b.gap ==>
            && RefreshLock(HASH) in w.store
            && w.store[RefreshLock(HASH)].expires.Some?
            && last.at + LOCK_MS - b.exchange <= w.store[RefreshLock(HASH)].expires.value)
      && forall c | c in w.callers && w.callers[c].Missed? :: w.callers[c].at <= last.at || last.at + RESULT_MS <= w.callers[c].at
  }

  ghost predicate CallerInv(w: World) {
    && (forall c | c in w.callers && w.callers[c].Missed? :: w.callers[c].at <= w.now)
    && (forall c | c in w.callers && w.callers[c].Finished? && w.callers[c].outcome.Returned? ::
          && w.callers[c].outcome.at <= w.now
          && exists i :: 0 <= i < |w.wins| && CachedAt(w.wins[i], w.callers[c].outcome.at)
                         && w.wins[i].tokens == w.callers[c].outcome.tokens)
  }

  ghost predicate Inv(b: Bounds, w: World) {
    HolderInv(b, w) && OneHolder(b, w) && FlightsAreFresh(b, w) && CacheInv(w) && TailInv(b, w) && CallerInv(w) && NeverRespent(w)
  }

  /** Nobody but the event's own caller can become entitled to present the token. */
  lemma FreshBefore(b: Bounds, w: World, e: Event, d: nat)
    requires Timely(b) && Inv(b, w) && Enabled(b, w, e)
    requires Fresh(b, Apply(b, w, e), d)
    ensures if e.TakeLock? && e.c == d then !Live(w.store, RefreshLock(HASH), w.now)
            else Fresh(b, w, d) && Apply(b, w, e).callers[d].at == w.callers[d].at
  {
  }

  /** When the holder's exchange ends nobody holds the token until the lock is next taken. */
  lemma NobodyFreshAfter(b: Bounds, w: World, e: Event, d: nat)
    requires Timely(b) && Inv(b, w) && Enabled(b, w, e) && (e.Succeed? || e.Fail?)
    ensures !Fresh(b, Apply(b, w, e), d)
  {
    assert Fresh(b, w, e.c);
    assert Fresh(b, Apply(b, w, e), d) ==> d != e.c && Fresh(b, w, d);
  }

  lemma HolderKept(b: Bounds, w: World, e: Event)
    requires Timely(b) && Inv(b, w) && Enabled(b, w, e)
    ensures HolderInv(b, Apply(b, w, e))
  {
    var v := Apply(b, w, e);
    if e.Succeed? || e.Fail? {
      forall c
        ensures !Fresh(b, v, c)
      {
        NobodyFreshAfter(b, w, e, c);
      }
      return;
    }
    forall c | Fresh(b, v, c)
      ensures && RefreshLock(HASH) in v.store
              && v.store[RefreshLock(HASH)].expires == Some(v.callers[c].at + LOCK_MS)
              && v.callers[c].at <= v.now
              && (v.wins != [] ==> v.wins[|v.wins| - 1].at + RESULT_MS <= v.callers[c].at)
    {
      FreshBefore(b, w, e, c);
    }
  }

  lemma OneHolderKept(b: Bounds, w: World, e: Event)
    requires Timely(b) && Inv(b, w) && Enabled(b, w, e)
    ensures OneHolder(b, Apply(b, w, e)) && FlightsAreFresh(b, Apply(b, w, e))
  {
    var v := Apply(b, w, e);
    forall c, d | Fresh(b, v, c) && Fresh(b, v, d)
      ensures c == d
    {
      FreshBefore(b, w, e, c);
      FreshBefore(b, w, e, d);
    }
  }

  lemma CacheKept(b: Bounds, w: World, e: Event)
    requires Timely(b) && Inv(b, w) && Enabled(b, w, e)
    ensures CacheInv(Apply(b, w, e))
  {
    if e.Succeed? { assert Fresh(b, w, e.c); }
  }

  lemma TailKept(b: Bounds, w: World, e: Event)
    requires Timely(b) && Inv(b, w) && Enabled(b, w, e)
    ensures TailInv(b, Apply(b, w, e))
  {
    if e.Succeed? || e.Fail? { assert Fresh(b, w, e.c); }
  }

  lemma CallersKept(b: Bounds, w: World, e: Event)
    requires Timely(b) && Inv(b, w) && Enabled(b, w, e)
    ensures CallerInv(Apply(b, w, e))
  {
    var v := Apply(b, w, e);
    forall c | c in v.callers && v.callers[c].Finished? && v.callers[c].outcome.Returned?
      ensures exists i :: 0 <= i < |v.wins| && CachedAt(v.wins[i], v.callers[c].outcome.at)
                          && v.wins[i].tokens == v.callers[c].outcome.tokens
    {
      if c in w.callers && w.callers[c] == v.callers[c] {
        var i :| 0 <= i < |w.wins| && CachedAt(w.wins[i], w.callers[c].outcome.at)
                 && w.wins[i].tokens == w.callers[c].outcome.tokens;
        assert v.wins[i] == w.wins[i];
      } else {
        assert CachedAt(v.wins[|v.wins| - 1], v.callers[c].outcome.at);
      }
    }
  }

  lemma PresentationsKept(b: Bounds, w: World, e: Event)
    requires Timely(b) && Inv(b, w) && Enabled(b, w, e)
    ensures NeverRespent(Apply(b, w, e))
  {
    var v := Apply(b, w, e);
    forall p, i | 0 <= p < |v.presented| && 0 <= i < v.presented[p].winsBefore
      ensures ExpiredBefore(v, p, i)
    {
      if p < |w.presented| {
        assert ExpiredBefore(w, p, i);
      } else {
        assert Fresh(b, w, e.c);
        assert i == |w.wins| - 1 || w.wins[i].at + RESULT_MS <= w.wins[|w.wins| - 1].at;
      }
    }
  }

  lemma InvIsSafe(b: Bounds, w: World)
    requires Timely(b) && Inv(b, w)
    ensures Safe(w)
  {
    forall c, i | c in w.callers && w.callers[c].Finished? && w.callers[c].outcome.Returned? && 0 <= i < |w.wins|
                  && CachedAt(w.wins[i], w.callers[c].outcome.at)
      ensures w.callers[c].outcome.tokens == w.wins[i].tokens
    {
      var j :| 0 <= j < |w.wins| && CachedAt(w.wins[j], w.callers[c].outcome.at)
               && w.wins[j].tokens == w.callers[c].outcome.tokens;
    }
  }

  lemma {:induction false} InvHoldsAlong(b: Bounds, w: World, es: seq<Event>)
    requires Timely(b) && Inv(b, w)
    ensures var r := RunFrom(b, w, es); r.Some? ==> Inv(b, r.value)
    decreases |es|
  {
    if es != [] && Enabled(b, w, es[0]) {
      HolderKept(b, w, es[0]);
      OneHolderKept(b, w, es[0]);
      CacheKept(b, w, es[0]);
      TailKept(b, w, es[0]);
      CallersKept(b, w, es[0]);
      PresentationsKept(b, w, es[0]);
      InvHoldsAlong(b, Apply(b, w, es[0]), es[1..]);
    }
  }

  /** Main result: however callers, failures and the clock interleave, the session is safe. */
  lemma RefreshIsSafe(b: Bounds, now: int, es: seq<Event>)
    requires Timely(b)
    ensures var r := RunFrom(b, Init(now), es); r.Some? ==> Safe(r.value)
  {
    InvHoldsAlong(b, Init(now), es);
    var r := RunFrom(b, Init(now), es);
    if r.Some? { InvIsSafe(b, r.value); }
  }

  // ---------------------------------------------------------------------------
  // Whoever loses
  // ---------------------------------------------------------------------------

  /** How often one caller polled. */
  function Polls(es: seq<Event>, c: nat): nat {
    if es == [] then 0 else (if es[0] == Poll(c) then 1 else 0) + Polls(es[1..], c)
  }

  /** The most polls left to a caller that may poll from `wake` on. */
  function PollsLeft(deadline: int, wake: int): int {
    if wake < deadline then (deadline - wake + 99) / 100 + 1 else 1
  }

  lemma FewerPollsLeft(deadline: int, wake: int, now: int)
    requires wake <= now < deadline
    ensures 1 + PollsLeft(deadline, now + 100) <= PollsLeft(deadline, wake)
  {
  }

  /** A caller once done stays done, with what it was told. */
  lemma {:induction false} DoneIsDone(b: Bounds, w: World, es: seq<Event>, c: nat)
    requires c in w.callers && w.callers[c].Finished?
    ensures var r := RunFrom(b, w, es);
            r.Some? ==> Polls(es, c) == 0 && c in r.value.callers && r.value.callers[c] == w.callers[c]
    decreases |es|
  {
    if es != [] && Enabled(b, w, es[0]) { DoneIsDone(b, Apply(b, w, es[0]), es[1..], c); }
  }

  /** What a caller may be doing that lost the lock, and when it may have given up. */
  predicate Patient(v: World, c: nat, deadline: int) {
    c in v.callers
    && match v.callers[c]
       case Waiting(d, _) => d == deadline
       case Finished(Unavailable) => deadline <= v.now
       case Finished(Returned(_, at)) => at <= v.now
       case _ => false
  }

  lemma {:induction false} ClockOnlyRises(b: Bounds, w: World, es: seq<Event>)
    ensures var r := RunFrom(b, w, es); r.Some? ==> w.now <= r.value.now
    decreases |es|
  {
    if es != [] && Enabled(b, w, es[0]) { ClockOnlyRises(b, Apply(b, w, es[0]), es[1..]); }
  }

  lemma {:induction false} WaitingAlong(b: Bounds, w: World, es: seq<Event>, c: nat)
    requires c in w.callers && w.callers[c].Waiting?
    ensures var deadline, wake, r := w.callers[c].deadline, w.callers[c].wake, RunFrom(b, w, es);
            r.Some? ==> Patient(r.value, c, deadline) && Polls(es, c) <= PollsLeft(deadline, wake)
    decreases |es|
  {
    if es != [] && Enabled(b, w, es[0]) {
      var v := Apply(b, w, es[0]);
      if v.callers[c].Finished? {
        DoneIsDone(b, v, es[1..], c);
        ClockOnlyRises(b, v, es[1..]);
      } else {
        WaitingAlong(b, v, es[1..], c);
        if es[0] == Poll(c) { FewerPollsLeft(w.callers[c].deadline, w.callers[c].wake, w.now); }
      }
    }
  }

  /**
   * Main result on losing: a caller that finds the lock held is not refused on
   * that account for two seconds, however anything interleaves, and polls at
   * most twenty times.  The session never ends because somebody else was quicker.
   */
  lemma LoserIsPatient(b: Bounds, w: World, c: nat, es: seq<Event>)
    requires Enabled(b, w, TakeLock(c)) && Live(w.store, RefreshLock(HASH), w.now)
    ensures var r := RunFrom(b, Apply(b, w, TakeLock(c)), es);
            r.Some? ==> Patient(r.value, c, w.now + 2000) && Polls(es, c) <= 20
  {
    WaitingAlong(b, Apply(b, w, TakeLock(c)), es, c);
  }

  /** A failed exchange leaves the lock to whoever asks next; a successful one leaves it to run out. */
  lemma OnlyFailureFrees(b: Bounds, w: World, c: nat, tokens: TokenPair, t: int)
    requires c in w.callers && w.callers[c].Exchanging?
    ensures !Live(Apply(b, w, Fail(c)).store, RefreshLock(HASH), t)
    ensures Live(Apply(b, w, Succeed(c, tokens)).store, RefreshLock(HASH), t) <==> Live(w.store, RefreshLock(HASH), t)
  {
  }

  // ---------------------------------------------------------------------------
  // The bound is exact
  // ---------------------------------------------------------------------------

  /** One caller misses the cache just before the first wins, and is slow to ask for the lock. */
  function LateRun(e: nat, tokens: TokenPair): seq<Event> {
    [CheckCache(0), TakeLock(0), Present(0), Tick(e), CheckCache(1), Succeed(0, tokens), Tick(LOCK_MS), TakeLock(1), Present(1)]
  }

  lemma RunStep(b: Bounds, w: World, e: Event, v: World, es: seq<Event>)
    requires Enabled(b, w, e) && Apply(b, w, e) == v
    ensures RunFrom(b, w, [e] + es) == RunFrom(b, v, es)
  {
    assert ([e] + es)[1..] == es;
  }

  /** The first caller's exchange is running, `t` milliseconds after it took the lock. */
  function FirstInFlight(t: nat): World {
    World(
      t,
      map[RefreshLock(HASH) := Entry(Held, Some(LOCK_MS))],
      map[0 := Exchanging(0)],
      [],
      [Presentation(0, 0)])
  }

  /** The first caller has won at `e`; the second saw nothing cached at that very moment. */
  function AfterFirstWin(e: nat, tokens: TokenPair): World {
    World(
      e,
      map[RefreshLock(HASH) := Entry(Held, Some(LOCK_MS)),
          RefreshResult(HASH) := Entry(Pair(tokens), Some(e + RESULT_MS))],
      map[0 := Finished(Returned(tokens, e)), 1 := Missed(e)],
      [Win(tokens, e)],
      [Presentation(0, 0)])
  }

  lemma LateRunStarts(b: Bounds, e: nat, rest: seq<Event>)
    requires e <= b.exchange
    ensures RunFrom(b, Init(0), [CheckCache(0), TakeLock(0), Present(0), Tick(e)] + rest)
            == RunFrom(b, FirstInFlight(e), rest)
  {
    var w1 := World(0, map[], map[0 := Missed(0)], [], []);
    var w2 := World(0, FirstInFlight(0).store, map[0 := Locked(0)], [], []);
    var s3 := [Tick(e)] + rest;
    var s2 := [Present(0)] + s3;
    var s1 := [TakeLock(0)] + s2;
    RunStep(b, Init(0), CheckCache(0), w1, s1);
    RunStep(b, w1, TakeLock(0), w2, s2);
    RunStep(b, w2, Present(0), FirstInFlight(0), s3);
    RunStep(b, FirstInFlight(0), Tick(e), FirstInFlight(e), rest);
    assert [CheckCache(0)] + s1 == [CheckCache(0), TakeLock(0), Present(0), Tick(e)] + rest;
  }

  lemma LateRunContinues(b: Bounds, e: nat, tokens: TokenPair, rest: seq<Event>)
    ensures RunFrom(b, FirstInFlight(e), [CheckCache(1), Succeed(0, tokens)] + rest)
            == RunFrom(b, AfterFirstWin(e, tokens), rest)
  {
    var w4 := FirstInFlight(e);
    var w5 := w4.(callers := map[0 := Exchanging(0), 1 := Missed(e)]);
    RunStep(b, w4, CheckCache(1), w5, [Succeed(0, tokens)] + rest);
    RunStep(b, w5, Succeed(0, tokens), AfterFirstWin(e, tokens), rest);
    assert [CheckCache(1)] + ([Succeed(0, tokens)] + rest) == [CheckCache(1), Succeed(0, tokens)] + rest;
  }

  lemma LateRunEnds(b: Bounds, e: nat, tokens: TokenPair)
    requires e <= LOCK_MS <= e + b.gap
    ensures var r := RunFrom(b, AfterFirstWin(e, tokens), [Tick(LOCK_MS), TakeLock(1), Present(1)]);
            r.Some? && !NeverRespent(r.value)
  {
    var w6 := AfterFirstWin(e, tokens);
    var w7 := w6.(now := LOCK_MS);
    var w8 := w7.(callers := w7.callers[1 := Locked(LOCK_MS)],
                  store := w7.store[RefreshLock(HASH) := Entry(Held, Some(2 * LOCK_MS))]);
    var w9 := w8.(callers := w8.callers[1 := Exchanging(LOCK_MS)],
                  presented := [Presentation(0, 0), Presentation(LOCK_MS, 1)]);
    RunStep(b, w6, Tick(LOCK_MS), w7, [TakeLock(1), Present(1)]);
    RunStep(b, w7, TakeLock(1), w8, [Present(1)]);
    RunStep(b, w8, Present(1), w9, []);
    assert [Tick(LOCK_MS)] + [TakeLock(1), Present(1)] == [Tick(LOCK_MS), TakeLock(1), Present(1)];
    assert [TakeLock(1)] + [Present(1)] == [TakeLock(1), Present(1)];
    assert [Present(1)] + [] == [Present(1)];
    assert !ExpiredBefore(w9, 1, 0);
  }

  lemma LateRunRespends(b: Bounds, tokens: TokenPair)
    requires !Timely(b)
    ensures var e := if b.exchange < LOCK_MS then b.exchange else LOCK_MS;
            var r := RunFrom(b, Init(0), LateRun(e, tokens));
            r.Some? && !NeverRespent(r.value)
  {
    var e := if b.exchange < LOCK_MS then b.exchange else LOCK_MS;
    var end := [Tick(LOCK_MS), TakeLock(1), Present(1)];
    var middle := [CheckCache(1), Succeed(0, tokens)] + end;
    LateRunStarts(b, e, middle);
    LateRunContinues(b, e, tokens, end);
    LateRunEnds(b, e, tokens);
    assert LateRun(e, tokens) == [CheckCache(0), TakeLock(0), Present(0), Tick(e)] + middle;
  }

  /** The lock protects the token on every run exactly when the two delays fit inside it. */
  lemma SafeIffTimely(b: Bounds)
    ensures Timely(b) <==>
            forall now, es :: RunFrom(b, Init(now), es).Some? ==> NeverRespent(RunFrom(b, Init(now), es).value)
  {
    if Timely(b) {
      forall now, es | RunFrom(b, Init(now), es).Some?
        ensures NeverRespent(RunFrom(b, Init(now), es).value)
      {
        RefreshIsSafe(b, now, es);
      }
    } else {
      LateRunRespends(b, TokenPair("", ""));
    }
  }
}
