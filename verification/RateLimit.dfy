/**
 * How fast one API key may send: a fixed-window counter in the shared store.
 *
 * A request notes its window, then increments that window's counter, then —
 * only the request that got 1 — sets the counter's expiry; other requests come
 * between.  The store is reachable, the rate is fixed, and `delay` bounds how
 * long after its request chose a window an increment may land.
 */
module RateLimit {
  import opened Options
  import opened Sets
  import opened Redis

  const WINDOW_SECONDS := 60
  const WINDOW_MS := 1000 * WINDOW_SECONDS
  const MAX_DELAY_MS := 1000

  datatype Request =
    | Chosen(at: int)                          // the window is noted
    | Counted(at: int, used: int)              // the counter answered
    | Decided(at: int, used: int, admitted: bool)

  datatype World = World(now: int, store: Store, requests: map<nat, Request>)

  datatype Event =
    | Tick(to: int)
    | Arrive(c: nat)
    | Increment(c: nat)
    | SetExpiry(c: nat)
    | Decide(c: nat)

  function Init(now: int): World {
    World(now, map[], map[])
  }

  function KeyAt(key: string, at: int): Key {
    RateLimit(key, Bucket(at, WINDOW_SECONDS))
  }

  predicate Enabled(w: World, e: Event) {
    match e
    case Tick(to) => w.now <= to
    case Arrive(c) => c !in w.requests
    case Increment(c) => c in w.requests && w.requests[c].Chosen?
    case SetExpiry(c) => c in w.requests && w.requests[c].Counted? && w.requests[c].used == 1
    case Decide(c) => c in w.requests && w.requests[c].Counted?
  }

  function Apply(key: string, perMinute: int, w: World, e: Event): World
    requires Enabled(w, e)
  {
    match e
    case Tick(to) => w.(now := to)
    case Arrive(c) => w.(requests := w.requests[c := Chosen(w.now)])
    case Increment(c) =>
      var at := w.requests[c].at;
      var store := Incr(w.store, KeyAt(key, at), w.now);
      w.(store := store, requests := w.requests[c := Counted(at, CounterAt(w.store, KeyAt(key, at), w.now) + 1)])
    case SetExpiry(c) =>
      w.(store := Expire(w.store, KeyAt(key, w.requests[c].at), WINDOW_SECONDS + 1, w.now))
    case Decide(c) =>
      var r := w.requests[c];
      w.(requests := w.requests[c := Decided(r.at, r.used, r.used <= perMinute)])
  }

  /** An increment lands at most `delay` after its window was chosen. */
  predicate Prompt(delay: int, w: World, e: Event)
    requires Enabled(w, e)
  {
    e.Increment? ==> w.now <= w.requests[e.c].at + delay
  }

  function RunFrom(key: string, perMinute: int, delay: int, w: World, es: seq<Event>): Option<World>
    decreases |es|
  {
    if es == [] then Some(w)
    else if Enabled(w, es[0]) && Prompt(delay, w, es[0])
    then RunFrom(key, perMinute, delay, Apply(key, perMinute, w, es[0]), es[1..])
    else None
  }

  // ---------------------------------------------------------------------------
  // What is promised
  // ---------------------------------------------------------------------------

  /** The requests admitted whose window was chosen in [from, to). */
  function AdmittedBetween(w: World, from: int, to: int): set<nat> {
    set c | c in w.requests && w.requests[c].Decided? && w.requests[c].admitted && from <= w.requests[c].at < to
  }

  function WindowStart(bucket: int): int {
    bucket * WINDOW_MS
  }

  // ---------------------------------------------------------------------------
  // The invariant
  // ---------------------------------------------------------------------------

  predicate HasCount(r: Request) {
    r.Counted? || r.Decided?
  }

  predicate CountedIn(w: World, c: nat, bucket: int) {
    c in w.requests && HasCount(w.requests[c]) && Bucket(w.requests[c].at, WINDOW_SECONDS) == bucket
  }

  function CountedSet(w: World, bucket: int): set<nat> {
    set c | c in w.requests && CountedIn(w, c, bucket)
  }

  /** Every request of a window got a number of its own, from 1 up to how many there have been. */
  ghost predicate NumbersInv(w: World, bucket: int) {
    && (forall c, d | CountedIn(w, c, bucket) && CountedIn(w, d, bucket) && w.requests[c].used == w.requests[d].used :: c == d)
    && (forall c | CountedIn(w, c, bucket) :: 1 <= w.requests[c].used <= |CountedSet(w, bucket)|)
  }

  /** While its window may still be counted in, the counter reads how many that is, and it lives long enough. */
  ghost predicate CounterInv(key: string, w: World, bucket: int) {
    var k := RateLimit(key, bucket);
    && (w.now <= WindowStart(bucket + 1) + MAX_DELAY_MS - 1 ==> CounterAt(w.store, k, w.now) == |CountedSet(w, bucket)|)
    && (k in w.store ==>
          && w.store[k].value.Count? && w.store[k].value.n >= 0
          && (w.store[k].expires.Some? ==> WindowStart(bucket + 1) + MAX_DELAY_MS <= w.store[k].expires.value))
  }

  ghost predicate WindowInv(key: string, w: World, bucket: int) {
    NumbersInv(w, bucket) && CounterInv(key, w, bucket)
  }

  ghost predicate Inv(key: string, w: World) {
    && (forall bucket: int :: WindowInv(key, w, bucket))
    && (forall c | c in w.requests :: w.requests[c].at <= w.now)
  }

  lemma WindowOf(at: int, bucket: int)
    ensures Bucket(at, WINDOW_SECONDS) == bucket <==> WindowStart(bucket) <= at < WindowStart(bucket + 1)
  {
    var b := Bucket(at, WINDOW_SECONDS);
    assert WindowStart(b) <= at < WindowStart(b + 1);
  }

  lemma OtherWindowsKept(key: string, perMinute: int, w: World, e: Event, bucket: int)
    requires Inv(key, w) && Enabled(w, e)
    requires e.Tick? || e.Arrive? || e.Decide? || Bucket(w.requests[e.c].at, WINDOW_SECONDS) != bucket
    ensures WindowInv(key, Apply(key, perMinute, w, e), bucket)
  {
    var v := Apply(key, perMinute, w, e);
    assert WindowInv(key, w, bucket);
    assert forall c :: CountedIn(v, c, bucket) <==> CountedIn(w, c, bucket);
    assert CountedSet(v, bucket) == CountedSet(w, bucket);
    assert forall c | CountedIn(v, c, bucket) :: v.requests[c].used == w.requests[c].used;
  }

  lemma IncrementJoins(key: string, perMinute: int, w: World, e: Event)
    requires Enabled(w, e) && e.Increment?
    ensures var bucket := Bucket(w.requests[e.c].at, WINDOW_SECONDS);
            && CountedSet(Apply(key, perMinute, w, e), bucket) == CountedSet(w, bucket) + {e.c}
            && e.c !in CountedSet(w, bucket)
  {
    var bucket := Bucket(w.requests[e.c].at, WINDOW_SECONDS);
    forall c
      ensures c in CountedSet(Apply(key, perMinute, w, e), bucket) <==> c == e.c || c in CountedSet(w, bucket)
    {
    }
  }

  /** An increment adds its request to the window's, and gives it the next number. */
  lemma IncrementCounts(key: string, perMinute: int, w: World, e: Event)
    requires Inv(key, w) && Enabled(w, e) && Prompt(MAX_DELAY_MS, w, e) && e.Increment?
    ensures var v := Apply(key, perMinute, w, e);
            var bucket := Bucket(w.requests[e.c].at, WINDOW_SECONDS);
            && CountedSet(v, bucket) == CountedSet(w, bucket) + {e.c} && e.c !in CountedSet(w, bucket)
            && v.requests[e.c].Counted? && v.requests[e.c].used == |CountedSet(w, bucket)| + 1
            && w.now <= WindowStart(bucket + 1) + MAX_DELAY_MS - 1
  {
    var bucket := Bucket(w.requests[e.c].at, WINDOW_SECONDS);
    WindowOf(w.requests[e.c].at, bucket);
    assert WindowInv(key, w, bucket);
    IncrementJoins(key, perMinute, w, e);
  }

  lemma NumberAfterIncrement(key: string, perMinute: int, w: World, e: Event, c: nat)
    requires Inv(key, w) && Enabled(w, e) && Prompt(MAX_DELAY_MS, w, e) && e.Increment?
    requires CountedIn(Apply(key, perMinute, w, e), c, Bucket(w.requests[e.c].at, WINDOW_SECONDS))
    ensures var v := Apply(key, perMinute, w, e);
            var n := |CountedSet(w, Bucket(w.requests[e.c].at, WINDOW_SECONDS))|;
            if c == e.c then v.requests[c].used == n + 1
            else CountedIn(w, c, Bucket(w.requests[e.c].at, WINDOW_SECONDS))
                 && v.requests[c] == w.requests[c] && 1 <= w.requests[c].used <= n
  {
    IncrementCounts(key, perMinute, w, e);
    assert WindowInv(key, w, Bucket(w.requests[e.c].at, WINDOW_SECONDS));
  }

  lemma IncrementNumbers(key: string, perMinute: int, w: World, e: Event)
    requires Inv(key, w) && Enabled(w, e) && Prompt(MAX_DELAY_MS, w, e) && e.Increment?
    ensures NumbersInv(Apply(key, perMinute, w, e), Bucket(w.requests[e.c].at, WINDOW_SECONDS))
  {
    var v := Apply(key, perMinute, w, e);
    var bucket := Bucket(w.requests[e.c].at, WINDOW_SECONDS);
    IncrementCounts(key, perMinute, w, e);
    forall c | CountedIn(v, c, bucket)
      ensures 1 <= v.requests[c].used <= |CountedSet(v, bucket)|
    {
      NumberAfterIncrement(key, perMinute, w, e, c);
    }
    forall c, d | CountedIn(v, c, bucket) && CountedIn(v, d, bucket) && v.requests[c].used == v.requests[d].used
      ensures c == d
    {
      NumberAfterIncrement(key, perMinute, w, e, c);
      NumberAfterIncrement(key, perMinute, w, e, d);
      assert WindowInv(key, w, bucket);
    }
  }

  /** The counter outlives its window by the second a late increment may take, so it is never reset inside it. */
  lemma IncrementKept(key: string, perMinute: int, w: World, e: Event)
    requires Inv(key, w) && Enabled(w, e) && Prompt(MAX_DELAY_MS, w, e) && e.Increment?
    ensures WindowInv(key, Apply(key, perMinute, w, e), Bucket(w.requests[e.c].at, WINDOW_SECONDS))
  {
    var bucket := Bucket(w.requests[e.c].at, WINDOW_SECONDS);
    IncrementCounts(key, perMinute, w, e);
    IncrementNumbers(key, perMinute, w, e);
    assert WindowInv(key, w, bucket);
  }

  lemma ExpiryKept(key: string, perMinute: int, w: World, e: Event)
    requires Inv(key, w) && Enabled(w, e) && e.SetExpiry?
    ensures WindowInv(key, Apply(key, perMinute, w, e), Bucket(w.requests[e.c].at, WINDOW_SECONDS))
  {
    var v := Apply(key, perMinute, w, e);
    var at := w.requests[e.c].at;
    var bucket := Bucket(at, WINDOW_SECONDS);
    WindowOf(at, bucket);
    assert WindowInv(key, w, bucket);
    assert w.now + 1000 * (WINDOW_SECONDS + 1) >= WindowStart(bucket + 1) + MAX_DELAY_MS;
    assert forall c :: CountedIn(v, c, bucket) <==> CountedIn(w, c, bucket);
    assert CountedSet(v, bucket) == CountedSet(w, bucket);
  }

  lemma {:induction false} InvHoldsAlong(key: string, perMinute: int, delay: int, w: World, es: seq<Event>)
    requires Inv(key, w) && delay <= MAX_DELAY_MS
    ensures var r := RunFrom(key, perMinute, delay, w, es); r.Some? ==> Inv(key, r.value)
    decreases |es|
  {
    if es != [] && Enabled(w, es[0]) && Prompt(delay, w, es[0]) {
      var e := es[0];
      var v := Apply(key, perMinute, w, e);
      forall bucket: int
        ensures WindowInv(key, v, bucket)
      {
        if e.Tick? || e.Arrive? || e.Decide? || Bucket(w.requests[e.c].at, WINDOW_SECONDS) != bucket {
          OtherWindowsKept(key, perMinute, w, e, bucket);
        } else if e.Increment? {
          IncrementKept(key, perMinute, w, e);
        } else {
          ExpiryKept(key, perMinute, w, e);
        }
      }
      InvHoldsAlong(key, perMinute, delay, v, es[1..]);
    }
  }

  predicate NumberedUpTo(w: World, c: nat, n: nat) {
    c in w.requests && HasCount(w.requests[c]) && 1 <= w.requests[c].used <= n
  }

  /** Requests with numbers of their own between 1 and n are at most n. */
  lemma {:induction false} AtMost(w: World, cs: set<nat>, n: nat)
    requires forall c | c in cs :: NumberedUpTo(w, c, n)
    requires forall c, d | c in cs && d in cs && NumberedUpTo(w, c, n) && NumberedUpTo(w, d, n)
                           && w.requests[c].used == w.requests[d].used :: c == d
    ensures |cs| <= n
  {
    if n == 0 {
      assert forall c :: c !in cs;
      assert cs == {};
    } else if exists c :: c in cs && w.requests[c].used == n {
      var c :| c in cs && w.requests[c].used == n;
      AtMost(w, cs - {c}, n - 1);
    } else {
      AtMost(w, cs, n - 1);
    }
  }

  /** Main result, one window: no more than the plan's number are let through. */
  lemma WindowLimit(key: string, perMinute: nat, delay: int, now: int, es: seq<Event>, bucket: int)
    requires delay <= MAX_DELAY_MS
    ensures var r := RunFrom(key, perMinute, delay, Init(now), es);
            r.Some? ==> |AdmittedBetween(r.value, WindowStart(bucket), WindowStart(bucket + 1))| <= perMinute
  {
    InvHoldsAlong(key, perMinute, delay, Init(now), es);
    DecisionsAreHonest(key, perMinute, delay, Init(now), es);
    var r := RunFrom(key, perMinute, delay, Init(now), es);
    if r.Some? {
      var cs := AdmittedBetween(r.value, WindowStart(bucket), WindowStart(bucket + 1));
      assert WindowInv(key, r.value, bucket);
      forall c | c in cs
        ensures CountedIn(r.value, c, bucket)
      {
        WindowOf(r.value.requests[c].at, bucket);
      }
      AtMost(r.value, cs, perMinute);
    }
  }

  ghost predicate Honest(perMinute: int, w: World) {
    forall c | c in w.requests && w.requests[c].Decided? :: w.requests[c].admitted <==> w.requests[c].used <= perMinute
  }

  lemma {:induction false} DecisionsAreHonest(key: string, perMinute: int, delay: int, w: World, es: seq<Event>)
    requires Honest(perMinute, w)
    ensures var r := RunFrom(key, perMinute, delay, w, es); r.Some? ==> Honest(perMinute, r.value)
    decreases |es|
  {
    if es != [] && Enabled(w, es[0]) && Prompt(delay, w, es[0]) {
      DecisionsAreHonest(key, perMinute, delay, Apply(key, perMinute, w, es[0]), es[1..]);
    }
  }

  /** And nobody is turned away below it: a refusal means more than the plan's number were counted in that window. */
  lemma RefusedOnlyWhenFull(key: string, perMinute: nat, delay: int, now: int, es: seq<Event>, c: nat)
    requires delay <= MAX_DELAY_MS
    ensures var r := RunFrom(key, perMinute, delay, Init(now), es);
            r.Some? && c in r.value.requests && r.value.requests[c].Decided? && !r.value.requests[c].admitted ==>
              perMinute < |CountedSet(r.value, Bucket(r.value.requests[c].at, WINDOW_SECONDS))|
  {
    InvHoldsAlong(key, perMinute, delay, Init(now), es);
    DecisionsAreHonest(key, perMinute, delay, Init(now), es);
    var r := RunFrom(key, perMinute, delay, Init(now), es);
    if r.Some? && c in r.value.requests && r.value.requests[c].Decided? {
      assert WindowInv(key, r.value, Bucket(r.value.requests[c].at, WINDOW_SECONDS));
    }
  }

  /** The counter is never reset inside its own window: it always reads how many have been counted in it. */
  lemma CounterIsExact(key: string, perMinute: nat, delay: int, now: int, es: seq<Event>, bucket: int)
    requires delay <= MAX_DELAY_MS
    ensures var r := RunFrom(key, perMinute, delay, Init(now), es);
            r.Some? && r.value.now < WindowStart(bucket + 1) ==>
              CounterAt(r.value.store, RateLimit(key, bucket), r.value.now) == |CountedSet(r.value, bucket)|
  {
    InvHoldsAlong(key, perMinute, delay, Init(now), es);
    var r := RunFrom(key, perMinute, delay, Init(now), es);
    if r.Some? { assert WindowInv(key, r.value, bucket); }
  }

  /** Main result, any minute at all: at most twice that, the most a burst across a boundary can be. */
  lemma AnyMinuteLimit(key: string, perMinute: nat, delay: int, now: int, es: seq<Event>, from: int)
    requires delay <= MAX_DELAY_MS
    ensures var r := RunFrom(key, perMinute, delay, Init(now), es);
            r.Some? ==> |AdmittedBetween(r.value, from, from + WINDOW_MS)| <= 2 * perMinute
  {
    var r := RunFrom(key, perMinute, delay, Init(now), es);
    if r.Some? {
      var b := Bucket(from, WINDOW_SECONDS);
      var first := AdmittedBetween(r.value, WindowStart(b), WindowStart(b + 1));
      var second := AdmittedBetween(r.value, WindowStart(b + 1), WindowStart(b + 2));
      WindowLimit(key, perMinute, delay, now, es, b);
      WindowLimit(key, perMinute, delay, now, es, b + 1);
      WindowOf(from, b);
      var span := AdmittedBetween(r.value, from, from + WINDOW_MS);
      assert span <= first + second;
      SubsetSize(span, first + second);
    }
  }

  // ---------------------------------------------------------------------------
  // The second is exact
  // ---------------------------------------------------------------------------

  lemma RunStep(key: string, perMinute: int, delay: int, w: World, e: Event, v: World, es: seq<Event>)
    requires Enabled(w, e) && Prompt(delay, w, e) && Apply(key, perMinute, w, e) == v
    ensures RunFrom(key, perMinute, delay, w, [e] + es) == RunFrom(key, perMinute, delay, v, es)
  {
    assert ([e] + es)[1..] == es;
  }

  /** A request that counts and is decided at once; one that also sets its window's expiry; one that counts late. */
  function Serve(c: nat): seq<Event> { [Arrive(c), Increment(c), Decide(c)] }

  function ServeFirst(c: nat): seq<Event> { [Arrive(c), Increment(c), SetExpiry(c), Decide(c)] }

  function CountLate(c: nat): seq<Event> { [Increment(c), Decide(c)] }

  function Used(key: string, w: World, at: int): int {
    CounterAt(w.store, KeyAt(key, at), w.now) + 1
  }

  lemma CountsLate(key: string, perMinute: int, delay: int, w: World, c: nat, es: seq<Event>) returns (v: World)
    requires c in w.requests && w.requests[c].Chosen? && w.now <= w.requests[c].at + delay
    ensures RunFrom(key, perMinute, delay, w, CountLate(c) + es) == RunFrom(key, perMinute, delay, v, es)
    ensures var at := w.requests[c].at;
            && v.now == w.now && v.store == Incr(w.store, KeyAt(key, at), w.now)
            && v.requests == w.requests[c := Decided(at, Used(key, w, at), Used(key, w, at) <= perMinute)]
  {
    var counted := Apply(key, perMinute, w, Increment(c));
    v := Apply(key, perMinute, counted, Decide(c));
    RunStep(key, perMinute, delay, counted, Decide(c), v, es);
    RunStep(key, perMinute, delay, w, Increment(c), counted, [Decide(c)] + es);
    assert [Increment(c)] + ([Decide(c)] + es) == CountLate(c) + es;
  }

  lemma Arrives(key: string, perMinute: int, delay: int, w: World, c: nat, es: seq<Event>) returns (v: World)
    requires c !in w.requests
    ensures RunFrom(key, perMinute, delay, w, [Arrive(c)] + es) == RunFrom(key, perMinute, delay, v, es)
    ensures v == w.(requests := w.requests[c := Chosen(w.now)])
  {
    v := Apply(key, perMinute, w, Arrive(c));
    RunStep(key, perMinute, delay, w, Arrive(c), v, es);
  }

  lemma Serves(key: string, perMinute: int, delay: int, w: World, c: nat, es: seq<Event>) returns (v: World)
    requires c !in w.requests && delay >= 0
    ensures RunFrom(key, perMinute, delay, w, Serve(c) + es) == RunFrom(key, perMinute, delay, v, es)
    ensures v.now == w.now && v.store == Incr(w.store, KeyAt(key, w.now), w.now)
    ensures v.requests == w.requests[c := Decided(w.now, Used(key, w, w.now), Used(key, w, w.now) <= perMinute)]
  {
    var chosen := Arrives(key, perMinute, delay, w, c, CountLate(c) + es);
    v := CountsLate(key, perMinute, delay, chosen, c, es);
    assert [Arrive(c)] + (CountLate(c) + es) == Serve(c) + es;
  }

  lemma CountsFirst(key: string, perMinute: int, delay: int, w: World, c: nat, es: seq<Event>) returns (v: World)
    requires c in w.requests && w.requests[c] == Chosen(w.now) && delay >= 0 && KeyAt(key, w.now) !in w.store
    ensures RunFrom(key, perMinute, delay, w, [Increment(c)] + ([SetExpiry(c)] + es)) == RunFrom(key, perMinute, delay, v, es)
    ensures v.now == w.now && v.store == w.store[KeyAt(key, w.now) := Entry(Count(1), Some(w.now + 61000))]
    ensures v.requests == w.requests[c := Counted(w.now, 1)]
  {
    var counted := Apply(key, perMinute, w, Increment(c));
    v := Apply(key, perMinute, counted, SetExpiry(c));
    RunStep(key, perMinute, delay, counted, SetExpiry(c), v, es);
    RunStep(key, perMinute, delay, w, Increment(c), counted, [SetExpiry(c)] + es);
  }

  lemma ServesFirst(key: string, perMinute: int, delay: int, w: World, c: nat, es: seq<Event>) returns (v: World)
    requires c !in w.requests && delay >= 0 && KeyAt(key, w.now) !in w.store
    ensures RunFrom(key, perMinute, delay, w, ServeFirst(c) + es) == RunFrom(key, perMinute, delay, v, es)
    ensures v.now == w.now && v.store == w.store[KeyAt(key, w.now) := Entry(Count(1), Some(w.now + 61000))]
    ensures v.requests == w.requests[c := Decided(w.now, 1, 1 <= perMinute)]
  {
    var last := [Decide(c)] + es;
    var chosen := Arrives(key, perMinute, delay, w, c, [Increment(c)] + ([SetExpiry(c)] + last));
    var counted := CountsFirst(key, perMinute, delay, chosen, c, last);
    v := Apply(key, perMinute, counted, Decide(c));
    RunStep(key, perMinute, delay, counted, Decide(c), v, es);
    assert [Arrive(c)] + ([Increment(c)] + ([SetExpiry(c)] + last)) == ServeFirst(c) + es;
  }

  lemma Waits(key: string, perMinute: int, delay: int, w: World, to: int, es: seq<Event>) returns (v: World)
    requires w.now <= to
    ensures RunFrom(key, perMinute, delay, w, [Tick(to)] + es) == RunFrom(key, perMinute, delay, v, es)
    ensures v == w.(now := to)
  {
    v := Apply(key, perMinute, w, Tick(to));
    RunStep(key, perMinute, delay, w, Tick(to), v, es);
  }

  lemma ThreeThen(a: seq<Event>, b: seq<Event>, c: seq<Event>, es: seq<Event>)
    ensures a + (b + (c + es)) == (a + (b + c)) + es
  {
  }

  lemma Windows()
    ensures Bucket(0, WINDOW_SECONDS) == Bucket(1, WINDOW_SECONDS) == Bucket(59999, WINDOW_SECONDS) == 0
    ensures Bucket(60000, WINDOW_SECONDS) == 1
  {
  }

  /**
   * Two a minute: two at a window's start, two that choose it in its last
   * instant, two in the next; the middle pair count as its counter expires.
   */
  function Early(): seq<Event> { ServeFirst(0) + ([Tick(1)] + Serve(1)) }

  function LastInstant(): seq<Event> { [Tick(59999)] + ([Arrive(2)] + [Arrive(3)]) }

  function NextMinute(): seq<Event> { [Tick(60000)] + (Serve(4) + Serve(5)) }

  function Late(): seq<Event> { [Tick(61000)] + (CountLate(2) + CountLate(3)) }

  lemma EarlyRuns(key: string, delay: int, es: seq<Event>) returns (v: World)
    requires delay >= 0
    ensures RunFrom(key, 2, delay, Init(0), Early() + es) == RunFrom(key, 2, delay, v, es)
    ensures v.now == 1 && v.store == map[RateLimit(key, 0) := Entry(Count(2), Some(61000))]
    ensures v.requests == map[0 := Decided(0, 1, true), 1 := Decided(1, 2, true)]
  {
    Windows();
    var w1 := ServesFirst(key, 2, delay, Init(0), 0, [Tick(1)] + (Serve(1) + es));
    var w2 := Waits(key, 2, delay, w1, 1, Serve(1) + es);
    v := Serves(key, 2, delay, w2, 1, es);
    ThreeThen(ServeFirst(0), [Tick(1)], Serve(1), es);
  }

  lemma LastInstantRuns(key: string, delay: int, w: World, es: seq<Event>) returns (v: World)
    requires w.now <= 59999 && 2 !in w.requests && 3 !in w.requests
    ensures RunFrom(key, 2, delay, w, LastInstant() + es) == RunFrom(key, 2, delay, v, es)
    ensures v.now == 59999 && v.store == w.store && v.requests == w.requests[2 := Chosen(59999)][3 := Chosen(59999)]
  {
    var w1 := Waits(key, 2, delay, w, 59999, [Arrive(2)] + ([Arrive(3)] + es));
    var w2 := Arrives(key, 2, delay, w1, 2, [Arrive(3)] + es);
    v := Arrives(key, 2, delay, w2, 3, es);
    ThreeThen([Tick(59999)], [Arrive(2)], [Arrive(3)], es);
  }

  lemma NextMinuteRuns(key: string, delay: int, w: World, es: seq<Event>) returns (v: World)
    requires delay >= 0 && w.now == 59999 && RateLimit(key, 1) !in w.store && 4 !in w.requests && 5 !in w.requests
    ensures RunFrom(key, 2, delay, w, NextMinute() + es) == RunFrom(key, 2, delay, v, es)
    ensures v.now == 60000 && v.store == w.store[RateLimit(key, 1) := Entry(Count(2), None)]
    ensures v.requests == w.requests[4 := Decided(60000, 1, true)][5 := Decided(60000, 2, true)]
  {
    Windows();
    var w1 := Waits(key, 2, delay, w, 60000, Serve(4) + (Serve(5) + es));
    var w2 := Serves(key, 2, delay, w1, 4, Serve(5) + es);
    v := Serves(key, 2, delay, w2, 5, es);
    ThreeThen([Tick(60000)], Serve(4), Serve(5), es);
  }

  lemma LateRuns(key: string, delay: int, w: World) returns (v: World)
    requires delay > MAX_DELAY_MS && w.now == 60000
    requires RateLimit(key, 0) in w.store && w.store[RateLimit(key, 0)] == Entry(Count(2), Some(61000))
    requires 2 in w.requests && 3 in w.requests && w.requests[2] == w.requests[3] == Chosen(59999)
    ensures RunFrom(key, 2, delay, w, Late()) == Some(v)
    ensures v.requests == w.requests[2 := Decided(59999, 1, true)][3 := Decided(59999, 2, true)]
  {
    Windows();
    var s2 := CountLate(3) + [];
    var w1 := Waits(key, 2, delay, w, 61000, CountLate(2) + s2);
    var w2 := CountsLate(key, 2, delay, w1, 2, s2);
    v := CountsLate(key, 2, delay, w2, 3, []);
    assert RunFrom(key, 2, delay, v, []) == Some(v);
    assert [Tick(61000)] + (CountLate(2) + s2) == Late();
  }

  lemma SixAdmitted(w: World, late: map<nat, Request>)
    requires 0 !in late && 1 !in late && 4 !in late && 5 !in late && late.Keys <= {2, 3}
    requires w.requests == (map[0 := Decided(0, 1, true), 1 := Decided(1, 2, true)] + late)
                             [4 := Decided(60000, 1, true)][5 := Decided(60000, 2, true)]
                             [2 := Decided(59999, 1, true)][3 := Decided(59999, 2, true)]
    ensures |AdmittedBetween(w, WindowStart(0), WindowStart(1))| == 4
    ensures |AdmittedBetween(w, 1, 1 + WINDOW_MS)| == 5
  {
    assert AdmittedBetween(w, WindowStart(0), WindowStart(1)) == {0, 1, 2, 3};
    assert AdmittedBetween(w, 1, 1 + WINDOW_MS) == {1, 2, 3, 4, 5};
  }

  lemma LateRunAdmitsTooMany(key: string, delay: int)
    requires delay > MAX_DELAY_MS
    ensures var r := RunFrom(key, 2, delay, Init(0), Early() + (LastInstant() + (NextMinute() + Late())));
            && r.Some? && |AdmittedBetween(r.value, WindowStart(0), WindowStart(1))| == 4
            && |AdmittedBetween(r.value, 1, 1 + WINDOW_MS)| == 5
  {
    var w1 := EarlyRuns(key, delay, LastInstant() + (NextMinute() + Late()));
    var w2 := LastInstantRuns(key, delay, w1, NextMinute() + Late());
    var w3 := NextMinuteRuns(key, delay, w2, Late());
    var w4 := LateRuns(key, delay, w3);
    var late := map[2 := Chosen(59999), 3 := Chosen(59999)];
    assert w2.requests == w1.requests + late;
    SixAdmitted(w4, late);
  }

  /** No more than this many admitted in a span, if the run can happen at all. */
  predicate AtMostAdmitted(r: Option<World>, from: int, to: int, most: int) {
    r.Some? ==> |AdmittedBetween(r.value, from, to)| <= most
  }

  ghost predicate KeepsWindows(key: string, delay: int) {
    forall perMinute: nat, now: int, es: seq<Event>, bucket: int ::
      AtMostAdmitted(RunFrom(key, perMinute, delay, Init(now), es), WindowStart(bucket), WindowStart(bucket + 1), perMinute)
  }

  ghost predicate KeepsMinutes(key: string, delay: int) {
    forall perMinute: nat, now: int, es: seq<Event>, from: int, to: int | to == from + WINDOW_MS ::
      AtMostAdmitted(RunFrom(key, perMinute, delay, Init(now), es), from, to, 2 * perMinute)
  }

  /** The second the expiry allows is exact: each limit holds of every run if, and only if, no increment is later. */
  lemma LimitsHoldIffPrompt(key: string, delay: int)
    ensures KeepsWindows(key, delay) <==> delay <= MAX_DELAY_MS
    ensures KeepsMinutes(key, delay) <==> delay <= MAX_DELAY_MS
  {
    if delay <= MAX_DELAY_MS {
      forall perMinute: nat, now: int, es: seq<Event>, bucket: int
        ensures AtMostAdmitted(RunFrom(key, perMinute, delay, Init(now), es),
                               WindowStart(bucket), WindowStart(bucket + 1), perMinute)
      {
        WindowLimit(key, perMinute, delay, now, es, bucket);
      }
      forall perMinute: nat, now: int, es: seq<Event>, from: int, to: int | to == from + WINDOW_MS
        ensures AtMostAdmitted(RunFrom(key, perMinute, delay, Init(now), es), from, to, 2 * perMinute)
      {
        AnyMinuteLimit(key, perMinute, delay, now, es, from);
      }
    } else {
      LateRunAdmitsTooMany(key, delay);
      var r := RunFrom(key, 2, delay, Init(0), Early() + (LastInstant() + (NextMinute() + Late())));
      assert !AtMostAdmitted(r, WindowStart(0), WindowStart(0 + 1), 2);
      assert !AtMostAdmitted(r, 1, 1 + WINDOW_MS, 2 * 2);
    }
  }

  // ---------------------------------------------------------------------------
  // The guard
  // ---------------------------------------------------------------------------

  datatype Verdict = LetThrough | TooMany(retryAfter: int)

  /** A request as far as the guard looks: an access key when it came by API key, and its account when resolved. */
  datatype Send = Send(accessKey: Option<string>, resolved: bool)

  class SendRateGuard {
    const redis: RedisService

    constructor (redis: RedisService)
      ensures this.redis == redis
    {
      this.redis := redis;
    }

    /** `perMinute` is the plan's number, if it has one; `reachable` is whether the counter answers. */
    method CanActivate(send: Send, perMinute: Option<int>, reachable: bool, now: int) returns (verdict: Verdict)
      modifies redis
      // Nothing to limit, or nothing to count with: the send goes through and nothing is counted.
      ensures send.accessKey.None? || !send.resolved || perMinute.None? || !reachable ==>
                verdict.LetThrough? && redis.entries == old(redis.entries)
      // Otherwise the send is counted, and let through exactly while the count is within the plan.
      ensures send.accessKey.Some? && send.resolved && perMinute.Some? && reachable ==>
                var k := KeyAt(send.accessKey.value, now);
                && CounterAt(redis.entries, k, now) == old(CounterAt(redis.entries, k, now)) + 1
                && (forall other | other != k ::
                      (other in redis.entries <==> other in old(redis.entries))
                      && (other in redis.entries ==> redis.entries[other] == old(redis.entries)[other]))
                && (verdict.LetThrough? <==> CounterAt(redis.entries, k, now) <= perMinute.value)
                // Waiting as told reaches the next window, and no later one.
                && (verdict.TooMany? ==>
                      KeyAt(send.accessKey.value, now + 1000 * verdict.retryAfter)
                      == RateLimit(send.accessKey.value, Bucket(now, WINDOW_SECONDS) + 1))
    {
      if send.accessKey.None? || !send.resolved || perMinute.None? {
        return LetThrough;
      }
      if !reachable {
        return LetThrough;
      }
      var used := redis.CountInWindow(send.accessKey.value, WINDOW_SECONDS, now);
      if used <= perMinute.value {
        return LetThrough;
      }
      return TooMany(SecondsUntilWindowEnds(now, WINDOW_SECONDS));
    }
  }
}
