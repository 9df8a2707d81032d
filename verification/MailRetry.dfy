/**
 * Retrying failed mail from several replicas at once.
 *
 * Every replica runs the same sweep: note the time, fetch the rows due, then
 * for each one claim it, send it, write down what came of it.  A failure on one
 * row leaves it leased and the sweep goes on; a crash ends the sweep.  Replicas
 * share one clock; `span` bounds how long a sweep may take.
 */
module MailRetry {
  import opened Options

  const MINUTE := 60000
  const MAX_MAIL_RETRIES := 3
  const LEASE_MS := 10 * MINUTE
  const BACKOFF_MINUTES := [5, 30, 120]

  datatype Status = Failed | Sent | Suppressed | Skipped | Abandoned

  datatype Row = Row(status: Status, attempts: nat, retryAt: Option<int>, hasPayload: bool)

  datatype Outcome = Delivered | Refused | AddressSuppressed | NotWanted

  /** The wait after each of the first three attempts; a fourth has none after it. */
  function NextRetryAt(attempts: nat, now: int): (at: Option<int>)
    ensures at.Some? <==> 1 <= attempts <= 3
    ensures attempts == 1 ==> at == Some(now + 300000)
    ensures attempts == 2 ==> at == Some(now + 1800000)
    ensures attempts == 3 ==> at == Some(now + 7200000)
  {
    if attempts == 0 || attempts > |BACKOFF_MINUTES| then None
    else Some(now + BACKOFF_MINUTES[attempts - 1] * MINUTE)
  }

  /** The row the first send leaves behind. */
  function Logged(outcome: Outcome, now: int): Row {
    match outcome
    case Delivered => Row(Sent, 1, None, false)
    case AddressSuppressed => Row(Suppressed, 1, None, false)
    case NotWanted => Row(Skipped, 1, None, false)
    case Refused => Row(Failed, 1, NextRetryAt(1, now), true)
  }

  predicate Claimable(row: Row, start: int) {
    row.status.Failed? && row.retryAt.Some? && row.retryAt.value <= start
  }

  function Leased(row: Row, start: int): Row {
    row.(retryAt := Some(start + LEASE_MS))
  }

  function Settle(row: Row, status: Status, attempts: nat): Row {
    Row(status, attempts, None, false)
  }

  /** What one retry writes, given the attempts the sweep had read. */
  function AfterAttempt(row: Row, attemptsRead: nat, outcome: Outcome, start: int): Row {
    var attempts := attemptsRead + 1;
    match outcome
    case Delivered => Settle(row, Sent, attempts)
    case AddressSuppressed => Settle(row, Suppressed, attempts)
    case NotWanted => Settle(row, Skipped, attempts)
    case Refused =>
      var retryAt := if attempts > MAX_MAIL_RETRIES then None else NextRetryAt(attempts, start);
      if retryAt.None? then Settle(row, Abandoned, attempts)
      else row.(attempts := attempts, retryAt := retryAt)
  }

  // ---------------------------------------------------------------------------
  // Replicas
  // ---------------------------------------------------------------------------

  /** A row as a sweep read it. */
  datatype Snapshot = Snapshot(attempts: nat, hasPayload: bool)

  datatype Sweep = Sweep(start: int, due: map<nat, Snapshot>, claimed: Option<nat>, snapshot: Snapshot)

  /** `lost`: some attempt may have gone unrecorded. */
  datatype World = World(
    now: int,
    rows: map<nat, Row>,
    sweeps: map<nat, Sweep>,
    sends: map<nat, nat>,
    lost: bool)

  datatype Event =
    | Tick(to: int)
    | Log(id: nat, outcome: Outcome)
    | StartSweep(r: nat)
    | Fetch(r: nat, id: nat)
    | Claim(r: nat, id: nat)
    | Finish(r: nat, outcome: Outcome)
    | Drop(r: nat)
    | EndSweep(r: nat)
    | Crash(r: nat)

  function Init(now: int): World {
    World(now, map[], map[], map[], false)
  }

  predicate Enabled(w: World, e: Event) {
    match e
    case Tick(to) => w.now <= to
    case Log(id, _) => id !in w.rows
    case StartSweep(r) => r !in w.sweeps
    case Fetch(r, id) => r in w.sweeps && id in w.rows && Claimable(w.rows[id], w.sweeps[r].start)
    case Claim(r, id) => r in w.sweeps && w.sweeps[r].claimed.None? && id in w.sweeps[r].due && id in w.rows
    case Finish(r, _) => r in w.sweeps && w.sweeps[r].claimed.Some? && w.sweeps[r].claimed.value in w.rows
    case Drop(r) => r in w.sweeps && w.sweeps[r].claimed.Some?
    case EndSweep(r) => r in w.sweeps && w.sweeps[r].claimed.None?
    case Crash(r) => r in w.sweeps
  }

  function Apply(w: World, e: Event): World
    requires Enabled(w, e)
  {
    match e
    case Tick(to) => w.(now := to)
    case Log(id, outcome) => w.(rows := w.rows[id := Logged(outcome, w.now)], sends := w.sends[id := 1])
    case StartSweep(r) => w.(sweeps := w.sweeps[r := Sweep(w.now, map[], None, Snapshot(0, false))])
    case Fetch(r, id) =>
      var s := w.sweeps[r];
      var row := w.rows[id];
      w.(sweeps := w.sweeps[r := s.(due := s.due[id := Snapshot(row.attempts, row.hasPayload)])])
    case Claim(r, id) =>
      var s := w.sweeps[r];
      var rest := s.(due := s.due - {id});
      if Claimable(w.rows[id], s.start)
      then w.(rows := w.rows[id := Leased(w.rows[id], s.start)],
              sweeps := w.sweeps[r := rest.(claimed := Some(id), snapshot := s.due[id])])
      else w.(sweeps := w.sweeps[r := rest])
    case Finish(r, outcome) =>
      var s := w.sweeps[r];
      var id := s.claimed.value;
      var done := w.sweeps[r := s.(claimed := None)];
      if !s.snapshot.hasPayload
      then w.(rows := w.rows[id := Settle(w.rows[id], Abandoned, s.snapshot.attempts)], sweeps := done)
      else w.(rows := w.rows[id := AfterAttempt(w.rows[id], s.snapshot.attempts, outcome, s.start)],
              sweeps := done,
              sends := w.sends[id := SendsOf(w, id) + 1])
    case Drop(r) => w.(sweeps := w.sweeps[r := w.sweeps[r].(claimed := None)], lost := true)
    case EndSweep(r) => w.(sweeps := w.sweeps - {r})
    case Crash(r) => w.(sweeps := w.sweeps - {r}, lost := true)
  }

  /** How many attempts at a message have been completed. */
  function SendsOf(w: World, id: nat): nat {
    if id in w.sends then w.sends[id] else 0
  }

  /** No sweep is still going `span` after it noted the time. */
  predicate InTime(span: int, w: World, e: Event) {
    e.Tick? ==> forall r | r in w.sweeps :: e.to < w.sweeps[r].start + span
  }

  function RunFrom(span: int, w: World, es: seq<Event>): Option<World>
    decreases |es|
  {
    if es == [] then Some(w)
    else if Enabled(w, es[0]) && InTime(span, w, es[0]) then RunFrom(span, Apply(w, es[0]), es[1..])
    else None
  }

  // ---------------------------------------------------------------------------
  // What is promised
  // ---------------------------------------------------------------------------

  predicate Sending(w: World, r: nat, id: nat) {
    r in w.sweeps && w.sweeps[r].claimed == Some(id)
  }

  ghost predicate OneSender(w: World) {
    forall r, q, id | Sending(w, r, id) && Sending(w, q, id) :: r == q
  }

  /** Whoever holds a row knows how many attempts it has really had. */
  ghost predicate ClaimsAreCurrent(w: World) {
    forall r, id | Sending(w, r, id) ::
      id in w.rows && w.rows[id].status.Failed?
      && w.sweeps[r].snapshot == Snapshot(w.rows[id].attempts, w.rows[id].hasPayload)
  }

  /** While nothing was lost: every attempt is on the record, and the fourth settles the row. */
  ghost predicate FourAtMost(w: World) {
    !w.lost ==> forall id | id in w.rows ::
      && SendsOf(w, id) == w.rows[id].attempts <= MAX_MAIL_RETRIES + 1
      && (SendsOf(w, id) == MAX_MAIL_RETRIES + 1 ==> !w.rows[id].status.Failed?)
  }

  ghost predicate Safe(w: World) {
    OneSender(w) && ClaimsAreCurrent(w) && FourAtMost(w)
  }

  // ---------------------------------------------------------------------------
  // The invariant
  // ---------------------------------------------------------------------------

  predicate RowOk(row: Row) {
    && 1 <= row.attempts <= MAX_MAIL_RETRIES + 1
    && (row.status.Failed? ==> row.retryAt.Some? && row.attempts <= MAX_MAIL_RETRIES)
  }

  ghost predicate RowsInv(w: World) {
    forall id | id in w.rows :: RowOk(w.rows[id])
  }

  ghost predicate SweepsInv(w: World) {
    forall r | r in w.sweeps :: w.sweeps[r].start <= w.now < w.sweeps[r].start + LEASE_MS
  }

  /** A row read by a live sweep is as it was read, unless it has moved out of that sweep's reach. */
  ghost predicate SnapshotsInv(w: World) {
    forall r, id | r in w.sweeps && id in w.sweeps[r].due ::
      id in w.rows && (Claimable(w.rows[id], w.sweeps[r].start) ==>
        w.sweeps[r].due[id] == Snapshot(w.rows[id].attempts, w.rows[id].hasPayload))
  }

  ghost predicate LeasesInv(w: World) {
    forall r, id | Sending(w, r, id) ::
      && id in w.rows && w.rows[id].status.Failed?
      && w.rows[id].retryAt == Some(w.sweeps[r].start + LEASE_MS)
      && w.sweeps[r].snapshot == Snapshot(w.rows[id].attempts, w.rows[id].hasPayload)
  }

  ghost predicate CountInv(w: World) {
    !w.lost ==> forall id | id in w.rows :: SendsOf(w, id) == w.rows[id].attempts
  }

  ghost predicate Inv(w: World) {
    RowsInv(w) && SweepsInv(w) && SnapshotsInv(w) && LeasesInv(w) && OneSender(w) && CountInv(w)
  }

  /** A leased row is out of every live sweep's reach. */
  lemma LeasedIsUnclaimable(w: World, r: nat, q: nat, id: nat)
    requires SweepsInv(w) && LeasesInv(w) && Sending(w, r, id) && q in w.sweeps
    ensures !Claimable(w.rows[id], w.sweeps[q].start)
  {
  }

  lemma RowsKept(w: World, e: Event)
    requires Inv(w) && Enabled(w, e)
    ensures RowsInv(Apply(w, e))
  {
    if e.Finish? { assert Sending(w, e.r, w.sweeps[e.r].claimed.value); }
  }

  lemma CountKept(w: World, e: Event)
    requires Inv(w) && Enabled(w, e)
    ensures CountInv(Apply(w, e))
  {
    if e.Finish? { assert Sending(w, e.r, w.sweeps[e.r].claimed.value); }
  }

  lemma SweepsKept(w: World, e: Event)
    requires SweepsInv(w) && Enabled(w, e) && InTime(LEASE_MS, w, e)
    ensures SweepsInv(Apply(w, e))
  {
  }

  lemma SnapshotsKept(w: World, e: Event)
    requires Inv(w) && Enabled(w, e)
    ensures SnapshotsInv(Apply(w, e))
  {
    var v := Apply(w, e);
    forall r, id | r in v.sweeps && id in v.sweeps[r].due
      ensures id in v.rows
      ensures Claimable(v.rows[id], v.sweeps[r].start) ==>
                v.sweeps[r].due[id] == Snapshot(v.rows[id].attempts, v.rows[id].hasPayload)
    {
      if e.Fetch? && r == e.r && id == e.id {
      } else {
        assert r in w.sweeps && id in w.sweeps[r].due && id in w.rows;
        if e.Finish? && Sending(w, e.r, id) { assert RowOk(w.rows[id]); }
      }
    }
  }

  lemma LeasesKept(w: World, e: Event)
    requires Inv(w) && Enabled(w, e)
    ensures LeasesInv(Apply(w, e))
  {
    var v := Apply(w, e);
    forall r, id | Sending(v, r, id)
      ensures id in v.rows && v.rows[id].status.Failed?
      ensures v.rows[id].retryAt == Some(v.sweeps[r].start + LEASE_MS)
      ensures v.sweeps[r].snapshot == Snapshot(v.rows[id].attempts, v.rows[id].hasPayload)
    {
      if Sending(w, r, id) {
        if e.Claim? && e.id == id { LeasedIsUnclaimable(w, r, e.r, id); }
        if e.Finish? { assert Sending(w, e.r, w.sweeps[e.r].claimed.value); }
      }
    }
  }

  lemma OneSenderKept(w: World, e: Event)
    requires Inv(w) && Enabled(w, e)
    ensures OneSender(Apply(w, e))
  {
    var v := Apply(w, e);
    forall r, q, id | Sending(v, r, id) && Sending(v, q, id)
      ensures r == q
    {
      if Sending(w, r, id) && !Sending(w, q, id) { LeasedIsUnclaimable(w, r, q, id); }
      if Sending(w, q, id) && !Sending(w, r, id) { LeasedIsUnclaimable(w, q, r, id); }
    }
  }

  lemma InvKept(w: World, e: Event)
    requires Inv(w) && Enabled(w, e) && InTime(LEASE_MS, w, e)
    ensures Inv(Apply(w, e))
  {
    RowsKept(w, e);
    CountKept(w, e);
    SweepsKept(w, e);
    SnapshotsKept(w, e);
    LeasesKept(w, e);
    OneSenderKept(w, e);
  }

  lemma {:induction false} InvHoldsAlong(span: int, w: World, es: seq<Event>)
    requires Inv(w) && span <= LEASE_MS
    ensures var r := RunFrom(span, w, es); r.Some? ==> Inv(r.value)
    decreases |es|
  {
    if es != [] && Enabled(w, es[0]) && InTime(span, w, es[0]) {
      InvKept(w, es[0]);
      InvHoldsAlong(span, Apply(w, es[0]), es[1..]);
    }
  }

  /** Main result: however sweeps overlap and crash, nothing is sent twice at once or on a stale count. */
  lemma SweepsAreSafe(span: int, now: int, es: seq<Event>)
    requires span <= LEASE_MS
    ensures var r := RunFrom(span, Init(now), es); r.Some? ==> Safe(r.value)
  {
    InvHoldsAlong(span, Init(now), es);
    var r := RunFrom(span, Init(now), es);
    if r.Some? {
      forall id | id in r.value.rows
        ensures RowOk(r.value.rows[id])
      {
      }
    }
  }

  lemma RunStep(span: int, w: World, e: Event, v: World, es: seq<Event>)
    requires Enabled(w, e) && InTime(span, w, e) && Apply(w, e) == v
    ensures RunFrom(span, w, [e] + es) == RunFrom(span, v, es)
  {
    assert ([e] + es)[1..] == es;
  }

  const FIRST_FAILED := Row(Failed, 1, Some(5 * MINUTE), true)
  const FIRST_LEASED := Row(Failed, 1, Some(15 * MINUTE), true)

  /** One row refused at the start, and a replica that claims it when it falls due. */
  function FirstClaims(): seq<Event> {
    [Log(0, Refused)] + ([Tick(5 * MINUTE)] + ClaimBy(0))
  }

  function ClaimBy(r: nat): seq<Event> {
    [StartSweep(r)] + ([Fetch(r, 0)] + [Claim(r, 0)])
  }

  /** A second replica whose sweep starts as the first one's lease runs out. */
  function SecondClaims(): seq<Event> {
    [Tick(15 * MINUTE)] + ClaimBy(1)
  }

  function Busy(start: int): Sweep {
    Sweep(start, map[], Some(0), Snapshot(1, true))
  }

  lemma Assoc(a: seq<Event>, b: seq<Event>, es: seq<Event>)
    ensures a + (b + es) == (a + b) + es
  {
  }

  /** A replica with nothing under way takes the one row, when it is due. */
  lemma ClaimByRuns(span: int, w: World, r: nat, es: seq<Event>) returns (v: World)
    requires r !in w.sweeps && 0 in w.rows && Claimable(w.rows[0], w.now)
    requires w.rows[0].attempts == 1 && w.rows[0].hasPayload
    ensures RunFrom(span, w, ClaimBy(r) + es) == RunFrom(span, v, es)
    ensures v.now == w.now && v.rows == w.rows[0 := Leased(w.rows[0], w.now)] && v.sweeps == w.sweeps[r := Busy(w.now)]
  {
    var s2 := [Claim(r, 0)] + es;
    var s1 := [Fetch(r, 0)] + s2;
    var w1 := Apply(w, StartSweep(r));
    RunStep(span, w, StartSweep(r), w1, s1);
    var w2 := Apply(w1, Fetch(r, 0));
    RunStep(span, w1, Fetch(r, 0), w2, s2);
    v := Apply(w2, Claim(r, 0));
    RunStep(span, w2, Claim(r, 0), v, es);
    assert v.sweeps[r].due == map[];
    Assoc([Fetch(r, 0)], [Claim(r, 0)], es);
    Assoc([StartSweep(r)], [Fetch(r, 0)] + [Claim(r, 0)], es);
  }

  lemma FirstClaimsRun(span: int, es: seq<Event>) returns (v: World)
    ensures RunFrom(span, Init(0), FirstClaims() + es) == RunFrom(span, v, es)
    ensures v.now == 5 * MINUTE && v.rows == map[0 := FIRST_LEASED] && v.sweeps == map[0 := Busy(5 * MINUTE)]
  {
    var s2 := ClaimBy(0) + es;
    var w1 := Apply(Init(0), Log(0, Refused));
    RunStep(span, Init(0), Log(0, Refused), w1, [Tick(5 * MINUTE)] + s2);
    assert w1.rows == map[0 := FIRST_FAILED];
    var w2 := w1.(now := 5 * MINUTE);
    RunStep(span, w1, Tick(5 * MINUTE), w2, s2);
    v := ClaimByRuns(span, w2, 0, es);
    Assoc([Tick(5 * MINUTE)], ClaimBy(0), es);
    Assoc([Log(0, Refused)], [Tick(5 * MINUTE)] + ClaimBy(0), es);
  }

  lemma SecondClaimsRun(span: int, w: World) returns (v: World)
    requires span > LEASE_MS
    requires w.now == 5 * MINUTE && w.rows == map[0 := FIRST_LEASED] && w.sweeps == map[0 := Busy(5 * MINUTE)]
    ensures RunFrom(span, w, SecondClaims()) == Some(v)
    ensures Sending(v, 0, 0) && Sending(v, 1, 0)
  {
    var w1 := w.(now := 15 * MINUTE);
    RunStep(span, w, Tick(15 * MINUTE), w1, ClaimBy(1) + []);
    v := ClaimByRuns(span, w1, 1, []);
    assert RunFrom(span, v, []) == Some(v);
    assert SecondClaims() == [Tick(15 * MINUTE)] + (ClaimBy(1) + []);
  }

  /** Any longer and two replicas can be sending one row: the second's sweep starts as the first's lease ends. */
  lemma LateSweepSendsTwice(span: int)
    requires span > LEASE_MS
    ensures var r := RunFrom(span, Init(0), FirstClaims() + SecondClaims());
            r.Some? && Sending(r.value, 0, 0) && Sending(r.value, 1, 0)
  {
    var w := FirstClaimsRun(span, SecondClaims());
    var v := SecondClaimsRun(span, w);
  }

  /** The lease is exact: every run is safe if, and only if, no sweep outlasts it. */
  lemma SafeIffWithinLease(span: int)
    ensures (forall now: int, es: seq<Event> ::
               var r := RunFrom(span, Init(now), es); r.Some? ==> Safe(r.value)) <==> span <= LEASE_MS
  {
    if span <= LEASE_MS {
      forall now: int, es: seq<Event>
        ensures var r := RunFrom(span, Init(now), es); r.Some? ==> Safe(r.value)
      {
        SweepsAreSafe(span, now, es);
      }
    } else {
      LateSweepSendsTwice(span);
      var r := RunFrom(span, Init(0), FirstClaims() + SecondClaims());
      assert !OneSender(r.value);
    }
  }

  /** What has been settled is never touched again, by any run. */
  lemma {:induction false} SettledIsFinal(span: int, w: World, es: seq<Event>, id: nat)
    requires span <= LEASE_MS && Inv(w) && id in w.rows && !w.rows[id].status.Failed?
    ensures var r := RunFrom(span, w, es);
            r.Some? ==> id in r.value.rows && r.value.rows[id] == w.rows[id] && SendsOf(r.value, id) == SendsOf(w, id)
    decreases |es|
  {
    if es != [] && Enabled(w, es[0]) && InTime(span, w, es[0]) {
      InvKept(w, es[0]);
      if es[0].Finish? { assert Sending(w, es[0].r, w.sweeps[es[0].r].claimed.value); }
      SettledIsFinal(span, Apply(w, es[0]), es[1..], id);
    }
  }

  /** In any run: once a message is settled, nothing sends it again. */
  lemma SettledStaysSettled(span: int, now: int, history: seq<Event>, later: seq<Event>, id: nat)
    requires span <= LEASE_MS
    requires RunFrom(span, Init(now), history).Some? && id in RunFrom(span, Init(now), history).value.rows
    requires !RunFrom(span, Init(now), history).value.rows[id].status.Failed?
    ensures var w := RunFrom(span, Init(now), history).value;
            var r := RunFrom(span, w, later);
            r.Some? ==> id in r.value.rows && r.value.rows[id] == w.rows[id] && SendsOf(r.value, id) == SendsOf(w, id)
  {
    InvHoldsAlong(span, Init(now), history);
    SettledIsFinal(span, RunFrom(span, Init(now), history).value, later, id);
  }

  /** Each attempt moves a row strictly towards its end: settled, or one attempt further and not yet at the fourth. */
  lemma EveryAttemptCounts(row: Row, outcome: Outcome, start: int)
    requires RowOk(row) && row.status.Failed?
    ensures var after := AfterAttempt(row, row.attempts, outcome, start);
            && after.attempts == row.attempts + 1
            && (after.status.Failed? <==> outcome.Refused? && row.attempts < MAX_MAIL_RETRIES)
            && (after.status.Failed? ==> start + 30 * MINUTE <= after.retryAt.value && after.hasPayload == row.hasPayload)
            && (!after.status.Failed? ==> after.retryAt.None? && !after.hasPayload)
            && (after.status.Sent? <==> outcome.Delivered?)
            && (after.status.Suppressed? <==> outcome.AddressSuppressed?)
            && (after.status.Skipped? <==> outcome.NotWanted?)
            && (after.status.Abandoned? <==> outcome.Refused? && row.attempts == MAX_MAIL_RETRIES)
  {
  }

  // ---------------------------------------------------------------------------
  // One replica's sweep, run alone
  // ---------------------------------------------------------------------------

  /** What a sweep leaves of a row whose retry goes through. */
  function Retried(row: Row, outcome: Outcome, start: int): Row {
    if row.hasPayload then AfterAttempt(row, row.attempts, outcome, start)
    else Settle(row, Abandoned, row.attempts)
  }

  /** How one row's retry goes: through to its outcome's writing, or broken off before its claim or after it. */
  datatype Course = Through(outcome: Outcome) | BrokeBeforeClaim | BrokeAfterClaim

  /** A row broken off after its claim stays leased, to fall due again when the lease ends. */
  function LeftBy(row: Row, course: Course, start: int): Row {
    match course
    case Through(outcome) => Retried(row, outcome, start)
    case BrokeBeforeClaim => row
    case BrokeAfterClaim => Leased(row, start)
  }

  /** How many of these rows a retry was begun on, went out, and are settled one way or another. */
  function BegunOf(ids: seq<nat>, rows: map<nat, Row>, courses: map<nat, Course>): nat {
    if ids == [] then 0
    else
      var id := ids[|ids| - 1];
      BegunOf(ids[..|ids| - 1], rows, courses)
      + if id in rows && id in courses && rows[id].hasPayload && !courses[id].BrokeBeforeClaim? then 1 else 0
  }

  function SentOf(ids: seq<nat>, rows: map<nat, Row>): nat {
    if ids == [] then 0
    else
      var id := ids[|ids| - 1];
      SentOf(ids[..|ids| - 1], rows) + if id in rows && rows[id].status.Sent? then 1 else 0
  }

  function SettledOf(ids: seq<nat>, rows: map<nat, Row>): nat {
    if ids == [] then 0
    else
      var id := ids[|ids| - 1];
      SettledOf(ids[..|ids| - 1], rows) + if id in rows && !rows[id].status.Failed? then 1 else 0
  }

  /** Different rows, each of them due. */
  predicate AllDue(due: seq<nat>, rows: map<nat, Row>, start: int) {
    && (forall i, j | 0 <= i < j < |due| :: due[i] != due[j])
    && (forall id | id in due :: id in rows && Claimable(rows[id], start))
  }

  /**
   * What the query hands a sweep: at most `limit` rows that are due, the longest
   * due first, and short of the limit all there are.
   */
  predicate IsBatch(due: seq<nat>, rows: map<nat, Row>, start: int, limit: nat) {
    && AllDue(due, rows, start) && |due| <= limit
    && (forall i, j | 0 <= i < j < |due| :: rows[due[i]].retryAt.value <= rows[due[j]].retryAt.value)
    && forall id | id in rows && Claimable(rows[id], start) && id !in due ::
         |due| == limit && forall i | 0 <= i < |due| :: rows[due[i]].retryAt.value <= rows[id].retryAt.value
  }

  /** The table one sweep alone leaves behind. */
  ghost function Swept(rows: map<nat, Row>, due: seq<nat>, start: int, courses: map<nat, Course>): map<nat, Row>
    requires forall id | id in due :: id in courses
  {
    map id | id in rows :: if id in due then LeftBy(rows[id], courses[id], start) else rows[id]
  }

  /**
   * Whatever breaks on the way, a sweep leaves nothing it was handed still due:
   * what is due afterwards is a row whose claim itself failed, or one beyond the
   * limit, and that one was due no earlier than any in the batch.
   */
  lemma SweepClearsItsBatch(rows: map<nat, Row>, due: seq<nat>, start: int, courses: map<nat, Course>, limit: nat, id: nat)
    requires IsBatch(due, rows, start, limit) && forall i | i in due :: i in courses
    requires id in rows && Claimable(Swept(rows, due, start, courses)[id], start)
    ensures if id in due then courses[id].BrokeBeforeClaim?
            else |due| == limit && forall i | 0 <= i < |due| :: rows[due[i]].retryAt.value <= rows[id].retryAt.value
  {
  }

  class MailService {
    var rows: map<nat, Row>

    constructor ()
      ensures rows == map[]
    {
      rows := map[];
    }

    /** Compare-and-set: the row is leased to this sweep only if it is still due by the sweep's clock. */
    method Claim(id: nat, start: int) returns (claimed: bool)
      requires id in rows
      modifies this
      ensures claimed == old(Claimable(rows[id], start))
      ensures rows == if claimed then old(rows)[id := Leased(old(rows[id]), start)] else old(rows)
    {
      claimed := Claimable(rows[id], start);
      if claimed {
        rows := rows[id := rows[id].(retryAt := Some(start + LEASE_MS))];
      }
    }

    /** `course` is how the retry goes; one that breaks off is thrown back to the sweep. */
    method RetryRow(id: nat, snapshot: Snapshot, start: int, course: Course)
      returns (retried: bool, sent: bool, abandoned: bool)
      requires id in rows
      modifies this
      ensures !old(Claimable(rows[id], start)) ==> rows == old(rows) && !retried && !sent && !abandoned
      ensures old(Claimable(rows[id], start)) && snapshot == Snapshot(old(rows[id]).attempts, old(rows[id]).hasPayload) ==>
                && rows == old(rows)[id := LeftBy(old(rows[id]), course, start)]
                && retried == (old(rows[id]).hasPayload && !course.BrokeBeforeClaim?)
                && sent == (retried && course.Through? && course.outcome.Delivered?)
                && abandoned == (!sent && !rows[id].status.Failed?)
    {
      retried, sent, abandoned := false, false, false;
      if course.BrokeBeforeClaim? {
        return;
      }
      var claimed := Claim(id, start);
      if !claimed {
        return;
      }
      if !snapshot.hasPayload {
        if course.BrokeAfterClaim? {
          return;
        }
        rows := rows[id := Settle(rows[id], Abandoned, snapshot.attempts)];
        abandoned := true;
        return;
      }
      retried := true;
      if course.BrokeAfterClaim? {
        return;
      }
      var attempts := snapshot.attempts + 1;
      match course.outcome {
        case Delivered =>
          rows := rows[id := Settle(rows[id], Sent, attempts)];
          sent := true;
        case AddressSuppressed =>
          rows := rows[id := Settle(rows[id], Suppressed, attempts)];
          abandoned := true;
        case NotWanted =>
          rows := rows[id := Settle(rows[id], Skipped, attempts)];
          abandoned := true;
        case Refused =>
          var retryAt := if attempts > MAX_MAIL_RETRIES then None else NextRetryAt(attempts, start);
          if retryAt.None? {
            rows := rows[id := Settle(rows[id], Abandoned, attempts)];
            abandoned := true;
          } else {
            rows := rows[id := rows[id].(attempts := attempts, retryAt := retryAt)];
          }
      }
    }

    /**
     * Every row of the batch is retried once whatever breaks on another, no other
     * row is touched, and the tallies are what happened.
     */
    method RetryFailed(due: seq<nat>, start: int, courses: map<nat, Course>)
      returns (retried: nat, sent: nat, abandoned: nat)
      requires AllDue(due, rows, start) && forall id | id in due :: id in courses
      modifies this
      ensures rows == old(Swept(rows, due, start, courses))
      ensures retried == BegunOf(due, old(rows), courses)
      ensures sent == SentOf(due, rows) && sent + abandoned == SettledOf(due, rows)
    {
      retried, sent, abandoned := 0, 0, 0;
      ghost var before := rows;
      ghost var after := Swept(rows, due, start, courses);
      for i := 0 to |due|
        invariant rows == Swept(before, due[..i], start, courses)
        invariant retried == BegunOf(due[..i], before, courses)
        invariant sent == SentOf(due[..i], after)
        invariant sent + abandoned == SettledOf(due[..i], after)
      {
        var id := due[i];
        assert due[..i + 1][..i] == due[..i];
        assert id in due && id !in due[..i];
        var r, s, a := RetryRow(id, Snapshot(rows[id].attempts, rows[id].hasPayload), start, courses[id]);
        assert rows[id] == after[id];
        retried := retried + if r then 1 else 0;
        sent := sent + if s then 1 else 0;
        abandoned := abandoned + if a then 1 else 0;
        SweptOneMore(before, due, i, start, courses);
      }
      assert due[..|due|] == due;
    }
  }

  lemma SweptOneMore(rows: map<nat, Row>, due: seq<nat>, i: nat, start: int, courses: map<nat, Course>)
    requires i < |due| && due[i] in rows && due[i] !in due[..i]
    requires forall id | id in due :: id in courses
    ensures Swept(rows, due[..i + 1], start, courses)
            == Swept(rows, due[..i], start, courses)[due[i] := LeftBy(rows[due[i]], courses[due[i]], start)]
  {
    assert due[..i + 1] == due[..i] + [due[i]];
  }
}
