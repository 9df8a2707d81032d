/**
 * One organisation's subscription: registering, confirming, changing plan,
 * cancelling, and the webhooks and sweeps that write Razorpay's version over it.
 * Razorpay's answers are inputs; times are milliseconds, Razorpay's are seconds.
 */
module Subscription {
  import opened Arithmetic
  import opened Options
  import AC = AccessCache

  type Status = AC.Status

  datatype Row = Row(
    mandate: Option<string>,
    planId: string,
    planRef: Option<nat>,
    status: Status,
    currentStart: Option<int>,
    currentEnd: Option<int>,
    cancelAtCycleEnd: bool,
    cancelledAt: Option<int>,
    shortUrl: Option<string>,
    pendingMandate: Option<string>,
    pendingShortUrl: Option<string>,
    pendingPlanRef: Option<nat>,
    pendingPlanAt: Option<int>)

  /** A subscription as Razorpay reports it. */
  datatype Remote = Remote(
    id: string,
    planId: Option<string>,
    status: string,
    currentStart: Option<int>,
    currentEnd: Option<int>,
    shortUrl: Option<string>)

  /** A published tier: its row, what it is charged on at Razorpay, and its price where it has one. */
  datatype Plan = Plan(id: nat, razorpayPlanId: string, price: Option<int>)

  /** Which tier owns each Razorpay plan; the column is unique. */
  type Tiers = map<string, nat>

  datatype State = State(row: Option<Row>, events: set<string>)

  datatype Op =
    | Register(plan: Plan, viaAgency: bool, created: Remote, now: int)
    | Confirm(mandate: string, verified: bool, fetched: Option<Remote>, now: int)
    | ChangePlan(target: Plan, currentPrice: Option<int>, created: Remote)
    | Cancel(answer: Remote, now: int)
    | Webhook(eventId: string, event: string, entity: Option<Remote>, now: int)
    | Reconcile(fetched: Option<Remote>, now: int)

  // ---------------------------------------------------------------------------
  // Razorpay's terms in ours
  // ---------------------------------------------------------------------------

  /** Seconds to a time; zero, like nothing, is no time. */
  function At(seconds: Option<int>): Option<int> {
    if seconds.Some? && seconds.value != 0 then Some(1000 * seconds.value) else None
  }

  /** What Razorpay calls each status; the last is this program's own. */
  function NameOf(s: Status): string {
    match s
    case Created => "created"
    case Authenticated => "authenticated"
    case Active => "active"
    case Pending => "pending"
    case Halted => "halted"
    case Cancelled => "cancelled"
    case Completed => "completed"
    case Expired => "expired"
    case Superseded => "superseded"
  }

  /** Each of Razorpay's names reads as its own status, and every other text as freshly created. */
  function ToStatus(s: string): (r: Status)
    ensures !r.Superseded?
    ensures NameOf(r) == s || (r.Created? && forall x: Status | !x.Superseded? :: NameOf(x) != s)
  {
    if s == "authenticated" then AC.Authenticated
    else if s == "active" then AC.Active
    else if s == "pending" then AC.Pending
    else if s == "halted" then AC.Halted
    else if s == "cancelled" then AC.Cancelled
    else if s == "completed" then AC.Completed
    else if s == "expired" then AC.Expired
    else AC.Created
  }

  predicate IsFinished(s: Status) {
    s.Cancelled? || s.Expired? || s.Completed? || s.Superseded?
  }

  /** The later of two ends; no end is earlier than any. */
  function Later(a: Option<int>, b: Option<int>): Option<int> {
    if b.Some? && (a.None? || b.value > a.value) then b else a
  }

  predicate Moved(row: Row, remotePlan: Option<string>) {
    remotePlan.Some? && remotePlan.value != "" && remotePlan.value != row.planId
  }

  /** A plan that moved is recorded; if a tier owns it, that tier is held and nothing stays pending. */
  function TierFor(row: Row, remotePlan: Option<string>, tiers: Tiers): Row {
    if !Moved(row, remotePlan) then row
    else if remotePlan.value !in tiers then row.(planId := remotePlan.value)
    else row.(planId := remotePlan.value, planRef := Some(tiers[remotePlan.value]),
              pendingPlanRef := None, pendingPlanAt := None)
  }

  /** Razorpay's version over ours; the paid month never moves backwards. */
  function Applied(row: Row, remote: Remote, tiers: Tiers, now: int): Row {
    var status := ToStatus(remote.status);
    TierFor(row, remote.planId, tiers).(
      status := status,
      currentStart := if At(remote.currentStart).Some? then At(remote.currentStart) else row.currentStart,
      currentEnd := Later(row.currentEnd, At(remote.currentEnd)),
      cancelledAt := if status.Cancelled? && row.cancelledAt.None? then Some(now) else row.cancelledAt,
      shortUrl := if status.Created? then row.shortUrl else None)
  }

  /** The pending mandate becomes the one held. */
  function Promoted(row: Row): Row {
    row.(mandate := row.pendingMandate, shortUrl := row.pendingShortUrl, planRef := row.pendingPlanRef,
         pendingMandate := None, pendingShortUrl := None, pendingPlanRef := None, pendingPlanAt := None,
         cancelAtCycleEnd := false, cancelledAt := None)
  }

  // ---------------------------------------------------------------------------
  // What each call does to the row
  // ---------------------------------------------------------------------------

  function AfterFresh(existing: Option<Row>, plan: Plan, created: Remote): Row {
    var base := if existing.Some? then existing.value
                else Row(None, "", None, AC.Created, None, None, false, None, None, None, None, None, None);
    base.(mandate := Some(created.id),
          planId := if created.planId.Some? then created.planId.value else "",
          planRef := Some(plan.id), status := ToStatus(created.status),
          currentStart := At(created.currentStart), currentEnd := At(created.currentEnd),
          cancelAtCycleEnd := false, cancelledAt := None, shortUrl := created.shortUrl)
  }

  /** Only the pending columns: the new mandate waits for the end still to come, or for nothing. */
  function AfterResubscribe(row: Row, plan: Plan, created: Remote, now: int): Row {
    row.(pendingMandate := Some(created.id), pendingShortUrl := created.shortUrl, pendingPlanRef := Some(plan.id),
         pendingPlanAt := if row.currentEnd.Some? && now < row.currentEnd.value then row.currentEnd else None)
  }

  function AfterUpgradeStarted(row: Row, target: Plan, created: Remote): Row {
    row.(pendingMandate := Some(created.id), pendingShortUrl := created.shortUrl,
         pendingPlanRef := Some(target.id), pendingPlanAt := row.currentEnd)
  }

  function AfterDowngrade(row: Row, target: Plan): Row {
    row.(pendingPlanRef := Some(target.id), pendingPlanAt := row.currentEnd,
         pendingMandate := None, pendingShortUrl := None)
  }

  function AfterCancel(row: Row, answer: Remote, now: int): Row {
    row.(status := ToStatus(answer.status),
         cancelAtCycleEnd := row.currentEnd.Some? && now < row.currentEnd.value,
         cancelledAt := Some(now), shortUrl := None, pendingMandate := None, pendingShortUrl := None)
  }

  predicate Resubscribes(row: Option<Row>) {
    row.Some? && !IsFinished(row.value.status) && row.value.cancelAtCycleEnd && row.value.mandate.Some?
  }

  predicate RegistersFresh(row: Option<Row>, viaAgency: bool) {
    !viaAgency && (row.None? || IsFinished(row.value.status))
  }

  /** A change of plan that gets past every refusal. */
  predicate MayChange(row: Option<Row>, target: Plan) {
    && row.Some? && !IsFinished(row.value.status) && !row.value.cancelAtCycleEnd
    && !row.value.status.Created? && !row.value.status.Authenticated?
    && row.value.planRef != Some(target.id) && row.value.mandate.Some?
  }

  predicate IsUpgrade(target: Plan, currentPrice: Option<int>) {
    currentPrice.Some? && target.price.Some? && target.price.value > currentPrice.value
  }

  predicate MayCancel(row: Option<Row>) {
    row.Some? && !IsFinished(row.value.status) && !row.value.cancelAtCycleEnd && row.value.mandate.Some?
  }

  predicate NamesPending(row: Row, mandate: string) {
    row.pendingMandate == Some(mandate)
  }

  /** A verified payment for the mandate held, or the one pending. */
  predicate Confirms(row: Option<Row>, op: Op) {
    op.Confirm? && row.Some? && op.verified
    && (NamesPending(row.value, op.mandate) || row.value.mandate == Some(op.mandate))
  }

  predicate IsSubscriptionEvent(event: string) {
    |event| >= 13 && event[..13] == "subscription."
  }

  /** A first delivery about the mandate held. */
  predicate Delivers(s: State, op: Op) {
    && op.Webhook? && op.eventId !in s.events && op.entity.Some? && op.entity.value.id != ""
    && IsSubscriptionEvent(op.event) && s.row.Some? && s.row.value.mandate == Some(op.entity.value.id)
  }

  /** Fetched, held by a mandate of its own, not finished, and with no end still to come. */
  predicate Sweeps(s: State, op: Op) {
    && op.Reconcile? && op.fetched.Some? && s.row.Some? && s.row.value.mandate.Some?
    && !IsFinished(s.row.value.status)
    && (s.row.value.currentEnd.Some? ==> s.row.value.currentEnd.value < op.now)
  }

  function Step(s: State, op: Op, tiers: Tiers): State {
    match op
    case Register(plan, viaAgency, created, now) =>
      if !viaAgency && Resubscribes(s.row) then s.(row := Some(AfterResubscribe(s.row.value, plan, created, now)))
      else if RegistersFresh(s.row, viaAgency) then s.(row := Some(AfterFresh(s.row, plan, created)))
      else s
    case Confirm(mandate, verified, fetched, now) =>
      if !Confirms(s.row, op) then s
      else
        var promoted := if NamesPending(s.row.value, mandate) then Promoted(s.row.value) else s.row.value;
        s.(row := Some(if fetched.Some? then Applied(promoted, fetched.value, tiers, now) else promoted))
    case ChangePlan(target, currentPrice, created) =>
      if !MayChange(s.row, target) then s
      else if IsUpgrade(target, currentPrice) then s.(row := Some(AfterUpgradeStarted(s.row.value, target, created)))
      else s.(row := Some(AfterDowngrade(s.row.value, target)))
    case Cancel(answer, now) =>
      if MayCancel(s.row) then s.(row := Some(AfterCancel(s.row.value, answer, now))) else s
    case Webhook(eventId, _, entity, now) =>
      State(if Delivers(s, op) then Some(Applied(s.row.value, entity.value, tiers, now)) else s.row,
            s.events + {eventId})
    case Reconcile(fetched, now) =>
      if Sweeps(s, op) then s.(row := Some(Applied(s.row.value, fetched.value, tiers, now))) else s
  }

  function Run(s: State, ops: seq<Op>, tiers: Tiers): State
    decreases |ops|
  {
    if ops == [] then s else Run(Step(s, ops[0], tiers), ops[1..], tiers)
  }

  // ---------------------------------------------------------------------------
  // Deliveries in any order, any number of times
  // ---------------------------------------------------------------------------

  /** A delivery already seen changes nothing, whatever it carries. */
  lemma ReplayChangesNothing(s: State, ops: seq<Op>, op: Op, tiers: Tiers)
    requires op.Webhook?
    ensures var seen := Run(Step(s, op, tiers), ops, tiers);
            forall again: Op | again.Webhook? && again.eventId == op.eventId :: Step(seen, again, tiers) == seen
  {
    EventsKept(Step(s, op, tiers), ops, tiers);
    var seen := Run(Step(s, op, tiers), ops, tiers);
    forall again: Op | again.Webhook? && again.eventId == op.eventId
      ensures Step(seen, again, tiers) == seen
    {
      assert seen.events + {again.eventId} == seen.events;
    }
  }

  lemma {:induction false} EventsKept(s: State, ops: seq<Op>, tiers: Tiers)
    ensures s.events <= Run(s, ops, tiers).events
    decreases |ops|
  {
    if ops != [] { EventsKept(Step(s, ops[0], tiers), ops[1..], tiers); }
  }

  /** Webhooks, sweeps and confirmations of the mandate already held. */
  predicate IsReport(row: Option<Row>, op: Op) {
    op.Webhook? || op.Reconcile? || (op.Confirm? && (row.Some? ==> !NamesPending(row.value, op.mandate)))
  }

  predicate AllReports(s: State, ops: seq<Op>, tiers: Tiers)
    decreases |ops|
  {
    ops != [] ==> IsReport(s.row, ops[0]) && AllReports(Step(s, ops[0], tiers), ops[1..], tiers)
  }

  /** The remote version a report writes over the row, if it writes one. */
  function Written(s: State, op: Op): Option<Remote> {
    if Delivers(s, op) then op.entity
    else if Sweeps(s, op) then op.fetched
    else if Confirms(s.row, op) then op.fetched
    else None
  }

  /** The paid month a report brings, if it brings one. */
  function EndWritten(s: State, op: Op): Option<int> {
    var remote := Written(s, op);
    if remote.Some? then At(remote.value.currentEnd) else None
  }

  /** Every end seen along a run of reports. */
  function EndsSeen(s: State, ops: seq<Op>, tiers: Tiers): set<int>
    decreases |ops|
  {
    if ops == [] then {}
    else
      With(EndWritten(s, ops[0]), EndsSeen(Step(s, ops[0], tiers), ops[1..], tiers))
  }

  function With(end: Option<int>, ends: set<int>): set<int> {
    if end.Some? then {end.value} + ends else ends
  }

  /** `end` is the latest of a set of ends and an initial one. */
  ghost predicate IsLatest(end: Option<int>, initial: Option<int>, seen: set<int>) {
    && (end == initial || (end.Some? && end.value in seen))
    && (initial.Some? ==> end.Some? && initial.value <= end.value)
    && (forall e | e in seen :: end.Some? && e <= end.value)
  }

  /** One report moves the paid month to the later of the two, and no other way. */
  lemma ReportTakesTheLater(s: State, op: Op, tiers: Tiers)
    requires s.row.Some? && IsReport(s.row, op)
    ensures Step(s, op, tiers).row.Some?
    ensures Step(s, op, tiers).row.value.currentEnd == Later(s.row.value.currentEnd, EndWritten(s, op))
  {
  }

  lemma LatestOfMore(end: Option<int>, initial: Option<int>, first: Option<int>, others: set<int>)
    requires IsLatest(end, Later(initial, first), others)
    ensures IsLatest(end, initial, With(first, others))
  {
  }

  /** Main result on the paid month: it ends as the latest end anyone reported, whatever the order and repeats. */
  lemma {:induction false} EndIsTheLatest(s: State, ops: seq<Op>, tiers: Tiers)
    requires s.row.Some? && AllReports(s, ops, tiers)
    ensures Run(s, ops, tiers).row.Some?
    ensures IsLatest(Run(s, ops, tiers).row.value.currentEnd, s.row.value.currentEnd, EndsSeen(s, ops, tiers))
    decreases |ops|
  {
    if ops != [] {
      var t := Step(s, ops[0], tiers);
      ReportTakesTheLater(s, ops[0], tiers);
      EndIsTheLatest(t, ops[1..], tiers);
      LatestOfMore(Run(t, ops[1..], tiers).row.value.currentEnd, s.row.value.currentEnd, EndWritten(s, ops[0]),
                   EndsSeen(t, ops[1..], tiers));
    }
  }

  /** Two histories that report the same ends agree on it. */
  lemma SameEndsAgree(s: State, a: seq<Op>, b: seq<Op>, tiers: Tiers)
    requires s.row.Some? && AllReports(s, a, tiers) && AllReports(s, b, tiers)
    requires EndsSeen(s, a, tiers) == EndsSeen(s, b, tiers)
    ensures Run(s, a, tiers).row.Some? && Run(s, b, tiers).row.Some?
    ensures Run(s, a, tiers).row.value.currentEnd == Run(s, b, tiers).row.value.currentEnd
  {
    EndIsTheLatest(s, a, tiers);
    EndIsTheLatest(s, b, tiers);
    LatestIsUnique(Run(s, a, tiers).row.value.currentEnd, Run(s, b, tiers).row.value.currentEnd,
                   s.row.value.currentEnd, EndsSeen(s, a, tiers));
  }

  predicate AllDeliveries(ops: seq<Op>) {
    forall i | 0 <= i < |ops| :: ops[i].Webhook?
  }

  /** A delivery without the moment it arrived. */
  function Timeless(op: Op): Op
    requires op.Webhook?
  {
    Webhook(op.eventId, op.event, op.entity, 0)
  }

  /** One event id, one content: what Razorpay sends again it sends unchanged. */
  ghost predicate RepeatsAgree(ops: seq<Op>)
    requires AllDeliveries(ops)
  {
    forall i, j | 0 <= i < |ops| && 0 <= j < |ops| && ops[i].eventId == ops[j].eventId ::
      Timeless(ops[i]) == Timeless(ops[j])
  }

  /** The ends a set of deliveries brings, each judged on its own against the state it found. */
  ghost predicate Brings(s: State, ops: seq<Op>, e: int) {
    exists i :: 0 <= i < |ops| && EndWritten(s, ops[i]) == Some(e)
  }

  lemma DeliveryKeeps(s: State, op: Op, tiers: Tiers)
    requires s.row.Some? && op.Webhook?
    ensures var t := Step(s, op, tiers);
            t.row.Some? && t.row.value.mandate == s.row.value.mandate && t.events == s.events + {op.eventId}
  {
  }

  /** After a delivery, a repeat of it brings nothing and any other brings what it would have. */
  lemma EndAfterDelivery(s: State, first: Op, op: Op, tiers: Tiers)
    requires s.row.Some? && first.Webhook? && op.Webhook?
    ensures EndWritten(Step(s, first, tiers), op) == if op.eventId == first.eventId then None else EndWritten(s, op)
  {
    DeliveryKeeps(s, first, tiers);
  }

  lemma SameContentSameEnd(s: State, a: Op, b: Op)
    requires a.Webhook? && b.Webhook? && Timeless(a) == Timeless(b)
    ensures EndWritten(s, a) == EndWritten(s, b)
  {
  }

  lemma BringsOneMore(s: State, ops: seq<Op>, tiers: Tiers, e: int)
    requires s.row.Some? && AllDeliveries(ops) && RepeatsAgree(ops) && ops != []
    ensures Brings(s, ops, e) <==> EndWritten(s, ops[0]) == Some(e) || Brings(Step(s, ops[0], tiers), ops[1..], e)
  {
    var t, rest := Step(s, ops[0], tiers), ops[1..];
    if Brings(t, rest, e) {
      var i :| 0 <= i < |rest| && EndWritten(t, rest[i]) == Some(e);
      EndAfterDelivery(s, ops[0], ops[i + 1], tiers);
      assert EndWritten(s, ops[i + 1]) == Some(e);
    }
    if Brings(s, ops, e) && EndWritten(s, ops[0]) != Some(e) {
      var i :| 0 <= i < |ops| && EndWritten(s, ops[i]) == Some(e);
      if ops[i].eventId == ops[0].eventId {
        SameContentSameEnd(s, ops[i], ops[0]);
      }
      EndAfterDelivery(s, ops[0], ops[i], tiers);
      assert rest[i - 1] == ops[i];
    }
  }

  lemma {:induction false} EndsSeenAreBrought(s: State, ops: seq<Op>, tiers: Tiers, e: int)
    requires s.row.Some? && AllDeliveries(ops) && RepeatsAgree(ops)
    ensures e in EndsSeen(s, ops, tiers) <==> Brings(s, ops, e)
    decreases |ops|
  {
    if ops != [] {
      DeliveryKeeps(s, ops[0], tiers);
      RestAgrees(ops);
      EndsSeenAreBrought(Step(s, ops[0], tiers), ops[1..], tiers, e);
      BringsOneMore(s, ops, tiers, e);
    }
  }

  lemma RestAgrees(ops: seq<Op>)
    requires AllDeliveries(ops) && RepeatsAgree(ops) && ops != []
    ensures AllDeliveries(ops[1..]) && RepeatsAgree(ops[1..])
  {
    var rest := ops[1..];
    forall i, j | 0 <= i < |rest| && 0 <= j < |rest| && rest[i].eventId == rest[j].eventId
      ensures Timeless(rest[i]) == Timeless(rest[j])
    {
      assert rest[i] == ops[i + 1] && rest[j] == ops[j + 1];
    }
  }

  lemma SameDeliveriesBring(s: State, a: seq<Op>, b: seq<Op>, e: int)
    requires AllDeliveries(a) && AllDeliveries(b)
    requires forall i | 0 <= i < |a| :: exists j :: 0 <= j < |b| && Timeless(b[j]) == Timeless(a[i])
    ensures Brings(s, a, e) ==> Brings(s, b, e)
  {
    if Brings(s, a, e) {
      var i :| 0 <= i < |a| && EndWritten(s, a[i]) == Some(e);
      var j :| 0 <= j < |b| && Timeless(b[j]) == Timeless(a[i]);
      assert EndWritten(s, b[j]) == Some(e);
    }
  }

  lemma {:induction false} DeliveriesAreReports(s: State, ops: seq<Op>, tiers: Tiers)
    requires AllDeliveries(ops)
    ensures AllReports(s, ops, tiers)
    decreases |ops|
  {
    if ops != [] { DeliveriesAreReports(Step(s, ops[0], tiers), ops[1..], tiers); }
  }

  /** The same deliveries in any order, at any times and with any repeats leave the same paid month. */
  lemma OrderDoesNotMatter(s: State, a: seq<Op>, b: seq<Op>, tiers: Tiers)
    requires s.row.Some? && AllDeliveries(a) && AllDeliveries(b) && RepeatsAgree(a) && RepeatsAgree(b)
    requires forall i | 0 <= i < |a| :: exists j :: 0 <= j < |b| && Timeless(b[j]) == Timeless(a[i])
    requires forall j | 0 <= j < |b| :: exists i :: 0 <= i < |a| && Timeless(a[i]) == Timeless(b[j])
    ensures Run(s, a, tiers).row.Some? && Run(s, b, tiers).row.Some?
    ensures Run(s, a, tiers).row.value.currentEnd == Run(s, b, tiers).row.value.currentEnd
  {
    forall e
      ensures e in EndsSeen(s, a, tiers) <==> e in EndsSeen(s, b, tiers)
    {
      EndsSeenAreBrought(s, a, tiers, e);
      EndsSeenAreBrought(s, b, tiers, e);
      SameDeliveriesBring(s, a, b, e);
      SameDeliveriesBring(s, b, a, e);
    }
    DeliveriesAreReports(s, a, tiers);
    DeliveriesAreReports(s, b, tiers);
    SameEndsAgree(s, a, b, tiers);
  }

  lemma LatestIsUnique(a: Option<int>, b: Option<int>, initial: Option<int>, seen: set<int>)
    requires IsLatest(a, initial, seen) && IsLatest(b, initial, seen)
    ensures a == b
  {
    if b.Some? { LatestIsAtLeast(a, b, initial, seen); }
    if a.Some? { LatestIsAtLeast(b, a, initial, seen); }
  }

  lemma SeenIsNoLater(end: Option<int>, initial: Option<int>, seen: set<int>, e: int)
    requires IsLatest(end, initial, seen) && e in seen
    ensures end.Some? && e <= end.value
  {
  }

  lemma LatestIsAtLeast(a: Option<int>, b: Option<int>, initial: Option<int>, seen: set<int>)
    requires IsLatest(a, initial, seen) && IsLatest(b, initial, seen) && b.Some?
    ensures a.Some? && b.value <= a.value
  {
    if b != initial { SeenIsNoLater(a, initial, seen, b.value); }
  }

  // ---------------------------------------------------------------------------
  // What was paid for
  // ---------------------------------------------------------------------------

  predicate IsFresh(s: State, op: Op) {
    op.Register? && RegistersFresh(s.row, op.viaAgency)
  }

  /** A fresh registration writes the new mandate's end over whatever month was left. */
  predicate KeepsEnd(s: State, op: Op) {
    IsFresh(s, op) && s.row.Some? ==>
      Later(s.row.value.currentEnd, At(op.created.currentEnd)) == At(op.created.currentEnd)
  }

  predicate AllKeepEnd(s: State, ops: seq<Op>, tiers: Tiers)
    decreases |ops|
  {
    ops != [] ==> KeepsEnd(s, ops[0]) && AllKeepEnd(Step(s, ops[0], tiers), ops[1..], tiers)
  }

  /** A call moves the paid month backwards exactly when it is a fresh registration on an earlier end. */
  lemma StepKeepsEndIff(s: State, op: Op, tiers: Tiers)
    requires s.row.Some?
    ensures Step(s, op, tiers).row.Some?
    ensures Later(s.row.value.currentEnd, Step(s, op, tiers).row.value.currentEnd) == Step(s, op, tiers).row.value.currentEnd
            <==> KeepsEnd(s, op)
  {
  }

  /** While no fresh registration starts on an earlier end, the paid month never shrinks. */
  lemma {:induction false} PaidMonthNeverShrinks(s: State, ops: seq<Op>, tiers: Tiers)
    requires s.row.Some? && AllKeepEnd(s, ops, tiers)
    ensures Run(s, ops, tiers).row.Some?
    ensures Later(s.row.value.currentEnd, Run(s, ops, tiers).row.value.currentEnd) == Run(s, ops, tiers).row.value.currentEnd
    decreases |ops|
  {
    if ops != [] {
      StepKeepsEndIff(s, ops[0], tiers);
      PaidMonthNeverShrinks(Step(s, ops[0], tiers), ops[1..], tiers);
    }
  }

  /** What the paywall answers for this row at an instant. */
  predicate GrantsAt(row: Option<Row>, t: int) {
    row.Some? && AC.Grants(Some(AC.Sub(row.value.status, row.value.currentEnd)), t)
  }

  /** Access over a row that is registered afresh is the new mandate's alone. */
  lemma FreshGrantsIff(s: State, op: Op, tiers: Tiers, t: int)
    requires IsFresh(s, op)
    ensures var status, end := ToStatus(op.created.status), At(op.created.currentEnd);
            GrantsAt(Step(s, op, tiers).row, t) <==>
              status.Active? || status.Authenticated? || (end.Some? && t < end.value)
  {
  }

  /** The instant is inside a month that has been paid for. */
  predicate PaidThrough(row: Option<Row>, t: int) {
    && row.Some? && !row.value.status.Superseded?
    && row.value.currentEnd.Some? && t < row.value.currentEnd.value
  }

  /** Not a fresh registration, or one whose own month covers the instant. */
  predicate KeepsPaid(s: State, op: Op, t: int) {
    IsFresh(s, op) ==> At(op.created.currentEnd).Some? && t < At(op.created.currentEnd).value
  }

  predicate AllKeepPaid(s: State, ops: seq<Op>, tiers: Tiers, t: int)
    decreases |ops|
  {
    ops != [] ==> KeepsPaid(s, ops[0], t) && AllKeepPaid(Step(s, ops[0], tiers), ops[1..], tiers, t)
  }

  lemma StepKeepsPaidIff(s: State, op: Op, tiers: Tiers, t: int)
    requires PaidThrough(s.row, t)
    ensures PaidThrough(Step(s, op, tiers).row, t) <==> KeepsPaid(s, op, t)
    ensures PaidThrough(s.row, t) ==> GrantsAt(s.row, t)
  {
  }

  /**
   * Main result on access: the paid month holds at every point of a history
   * exactly when every fresh registration in it comes with a month of its own
   * that covers the instant.  No cancellation, failure, change of tier, delivery
   * or sweep cuts it short.
   */
  lemma {:induction false} PaidAccessSurvivesIff(s: State, ops: seq<Op>, tiers: Tiers, t: int)
    requires PaidThrough(s.row, t)
    ensures (forall k | 0 <= k <= |ops| :: PaidThrough(Run(s, ops[..k], tiers).row, t)) <==> AllKeepPaid(s, ops, tiers, t)
    decreases |ops|
  {
    if ops == [] {
      assert ops[..0] == [];
    } else {
      var next := Step(s, ops[0], tiers);
      StepKeepsPaidIff(s, ops[0], tiers, t);
      assert ops[..0] == [] && ops[..1] == [ops[0]];
      assert Run(s, ops[..1], tiers) == Run(next, [], tiers);
      if KeepsPaid(s, ops[0], t) { PaidAccessSurvivesIff(next, ops[1..], tiers, t); }
      forall k | 1 <= k <= |ops|
        ensures Run(s, ops[..k], tiers) == Run(next, ops[1..][..k - 1], tiers)
      {
        assert ops[..k][1..] == ops[1..][..k - 1];
      }
      forall k | 0 <= k <= |ops[1..]|
        ensures Run(next, ops[1..][..k], tiers) == Run(s, ops[..k + 1], tiers)
      {
      }
    }
  }

  /** So at the end of such a history the paywall still lets the organisation in. */
  lemma PaidAccessSurvives(s: State, ops: seq<Op>, tiers: Tiers, t: int)
    requires PaidThrough(s.row, t) && AllKeepPaid(s, ops, tiers, t)
    ensures GrantsAt(Run(s, ops, tiers).row, t)
  {
    PaidAccessSurvivesIff(s, ops, tiers, t);
    assert ops[..|ops|] == ops;
  }

  // ---------------------------------------------------------------------------
  // What each call asks for, and what it leaves
  // ---------------------------------------------------------------------------

  /** The statuses in which a mandate can still be charged. */
  predicate MayCharge(s: Status) {
    s.Created? || s.Authenticated? || s.Active? || s.Pending? || s.Halted?
  }

  /** A row that can still be charged on, and has not been told to end. */
  predicate Running(row: Option<Row>) {
    row.Some? && MayCharge(row.value.status) && !row.value.cancelAtCycleEnd
  }

  /** A row that can still be charged on, and ends with its paid month. */
  predicate Ending(row: Option<Row>) {
    row.Some? && MayCharge(row.value.status) && row.value.cancelAtCycleEnd
  }

  /** The row but for what is pending on it. */
  function Held(row: Row): Row {
    row.(pendingMandate := None, pendingShortUrl := None, pendingPlanRef := None, pendingPlanAt := None)
  }

  /**
   * Main result on buying.  Where nothing can be charged on any more the new
   * mandate is what is held, under its own status and month alone; where the row
   * is ending it waits beside it, to start when the paid month does end; an
   * organisation somebody else pays for, or one still running, buys nothing.
   */
  lemma RegisterIff(s: State, op: Op, tiers: Tiers)
    requires op.Register?
    ensures var t, created := Step(s, op, tiers), op.created;
            var resumes := Ending(s.row) && s.row.value.mandate.Some?;
            && (op.viaAgency || Running(s.row) || (Ending(s.row) && !resumes) ==> t == s)
            && (!op.viaAgency && !Running(s.row) && !Ending(s.row) ==>
                  && t.row.Some?
                  && Held(t.row.value)
                     == Row(Some(created.id), if created.planId.Some? then created.planId.value else "", Some(op.plan.id),
                            ToStatus(created.status), At(created.currentStart), At(created.currentEnd), false, None,
                            created.shortUrl, None, None, None, None))
            && (!op.viaAgency && resumes ==>
                  var before, row := s.row.value, t.row.value;
                  && t.row.Some? && Held(row) == Held(before)
                  && row.pendingMandate == Some(created.id) && row.pendingShortUrl == created.shortUrl
                  && row.pendingPlanRef == Some(op.plan.id)
                  && (row.pendingPlanAt.Some? ==> row.pendingPlanAt == before.currentEnd)
                  && (row.pendingPlanAt.Some? <==> before.currentEnd.Some? && op.now < before.currentEnd.value))
  {
  }

  /**
   * Main result on asking for another tier.  It is asked of a row that has been
   * authorised, is running on a mandate of its own and is not on that tier.
   * Nothing held changes: a tier known to be dearer waits for a new mandate to be
   * authorised, any other for the end of the month, and neither for both.
   */
  lemma ChangeIff(s: State, op: Op, tiers: Tiers)
    requires op.ChangePlan?
    ensures var t, target := Step(s, op, tiers), op.target;
            var may := Running(s.row) && (s.row.value.status.Active? || s.row.value.status.Pending? || s.row.value.status.Halted?)
                       && s.row.value.mandate.Some? && s.row.value.planRef != Some(target.id);
            var dearer := op.currentPrice.Some? && target.price.Some? && op.currentPrice.value < target.price.value;
            && (!may ==> t == s)
            && (may ==>
                  var before, row := s.row.value, t.row.value;
                  && t.row.Some? && Held(row) == Held(before)
                  && row.pendingPlanRef == Some(target.id) && row.pendingPlanAt == before.currentEnd
                  && row.pendingMandate == (if dearer then Some(op.created.id) else None)
                  && row.pendingShortUrl == (if dearer then op.created.shortUrl else None))
  {
  }

  /**
   * Main result on cancelling: a running mandate of one's own, and it is what
   * Razorpay answers it is.  Afterwards an instant is granted by the status
   * answered or by the month still held, the organisation may register afresh
   * exactly if that status is an end, and nothing waits for authorisation.
   */
  lemma CancelIff(s: State, op: Op, tiers: Tiers, at: int)
    requires op.Cancel?
    ensures var t, status := Step(s, op, tiers), ToStatus(op.answer.status);
            var may := Running(s.row) && s.row.value.mandate.Some?;
            && (!may ==> t == s)
            && (may ==>
                  var before, row := s.row.value, t.row.value;
                  && t.row.Some? && row.status == status && row.cancelledAt == Some(op.now)
                  && row.currentStart == before.currentStart && row.currentEnd == before.currentEnd
                  && (GrantsAt(t.row, at) <==> status.Active? || status.Authenticated?
                                               || (before.currentEnd.Some? && at < before.currentEnd.value))
                  && (RegistersFresh(t.row, false) <==> status.Cancelled? || status.Expired? || status.Completed?)
                  && row.shortUrl.None? && row.pendingMandate.None? && row.pendingShortUrl.None?
                  && row.mandate == before.mandate && row.planId == before.planId && row.planRef == before.planRef
                  && row.pendingPlanRef == before.pendingPlanRef && row.pendingPlanAt == before.pendingPlanAt)
  {
  }

  /** Once cancelled with some of the paid month left, neither a second cancellation nor another tier can be asked for. */
  lemma CancelledOnce(s: State, first: Op, next: Op, tiers: Tiers)
    requires first.Cancel? && (next.Cancel? || next.ChangePlan?) && Step(s, first, tiers) != s
    requires s.row.value.currentEnd.Some? && first.now < s.row.value.currentEnd.value
    ensures Step(Step(s, first, tiers), next, tiers) == Step(s, first, tiers)
  {
    CancelIff(s, first, tiers, 0);
  }

  /**
   * Which reports are written.  A delivery: the first of its event, of a
   * subscription's own kind, about the mandate held.  A sweep's answer: about a
   * row that can still be charged on and whose month has run out.  A
   * confirmation's: a payment that verifies, for the mandate held or pending.
   * What is not written changes no row, save that a verified payment for the
   * pending mandate promotes it even if nothing could be fetched.
   */
  lemma WrittenIff(s: State, op: Op, tiers: Tiers)
    ensures Written(s, op) ==
            match op
            case Webhook(eventId, event, entity, _) =>
              if eventId !in s.events && "subscription." <= event && entity.Some? && entity.value.id != ""
                 && s.row.Some? && s.row.value.mandate == Some(entity.value.id) then entity else None
            case Reconcile(fetched, now) =>
              if (Running(s.row) || Ending(s.row)) && s.row.value.mandate.Some?
                 && (s.row.value.currentEnd.None? || s.row.value.currentEnd.value < now) then fetched else None
            case Confirm(mandate, verified, fetched, _) =>
              if verified && s.row.Some? && Some(mandate) in {s.row.value.mandate, s.row.value.pendingMandate}
              then fetched else None
            case _ => None
    ensures (op.Webhook? || op.Reconcile? || op.Confirm?) && Written(s, op).None? ==>
              Step(s, op, tiers).row
              == if op.Confirm? && op.verified && s.row.Some? && s.row.value.pendingMandate == Some(op.mandate)
                 then Some(Promoted(s.row.value)) else s.row
    ensures Step(s, op, tiers).events == s.events + if op.Webhook? then {op.eventId} else {}
  {
  }

  /**
   * Main result on reports: what is written is believed, in its status, its start
   * where it has one, and the first moment the row was seen cancelled.  The page
   * that asks for authorisation is kept only while none has been given.  Nothing
   * says the row is ending but a cancellation, and confirming the pending mandate
   * unsays it.
   */
  lemma ReportIsBelieved(s: State, op: Op, tiers: Tiers)
    requires s.row.Some? && Written(s, op).Some?
    ensures var before, row, remote := s.row.value, Step(s, op, tiers).row.value, Written(s, op).value;
            var promoted := op.Confirm? && before.pendingMandate == Some(op.mandate);
            var status := ToStatus(remote.status);
            && row.status == status
            && row.currentStart == (if remote.currentStart.Some? && remote.currentStart.value != 0
                                    then Some(1000 * remote.currentStart.value) else before.currentStart)
            && (row.cancelledAt.None? <==> !status.Cancelled? && (promoted || before.cancelledAt.None?))
            && (!promoted && before.cancelledAt.Some? ==> row.cancelledAt == before.cancelledAt)
            && (status.Cancelled? && (promoted || before.cancelledAt.None?) ==> row.cancelledAt == Some(op.now))
            && row.shortUrl == (if !status.Created? then None
                                else if promoted then before.pendingShortUrl else before.shortUrl)
            && row.cancelAtCycleEnd == (before.cancelAtCycleEnd && !promoted)
  {
  }

  /** A cancelled subscription still grants until the month already paid for ends, and no longer on that account. */
  lemma CancelKeepsThePaidMonth(s: State, op: Op, tiers: Tiers, t: int)
    requires op.Cancel? && MayCancel(s.row)
    ensures var row := Step(s, op, tiers).row.value;
            && row.currentEnd == s.row.value.currentEnd
            && (row.cancelAtCycleEnd <==> row.currentEnd.Some? && op.now < row.currentEnd.value)
            && row.pendingMandate.None?
            && (row.currentEnd.Some? && t < row.currentEnd.value ==> AC.Grants(Some(AC.Sub(row.status, row.currentEnd)), t))
  {
  }

  // ---------------------------------------------------------------------------
  // A change waiting to be authorised
  // ---------------------------------------------------------------------------

  /** A report about the plan already recorded. */
  predicate Unmoved(s: State, op: Op) {
    var remote := Written(s, op);
    s.row.Some? && remote.Some? ==> !Moved(s.row.value, remote.value.planId)
  }

  predicate AllUnmoved(s: State, ops: seq<Op>, tiers: Tiers)
    decreases |ops|
  {
    ops != [] ==> IsReport(s.row, ops[0]) && Unmoved(s, ops[0]) && AllUnmoved(Step(s, ops[0], tiers), ops[1..], tiers)
  }

  /** The columns a change of tier is about: the three held and the four pending. */
  datatype Terms = Terms(
    mandate: Option<string>, planId: string, planRef: Option<nat>,
    pendingMandate: Option<string>, pendingShortUrl: Option<string>,
    pendingPlanRef: Option<nat>, pendingPlanAt: Option<int>)

  function TermsOf(row: Row): Terms {
    Terms(row.mandate, row.planId, row.planRef, row.pendingMandate, row.pendingShortUrl, row.pendingPlanRef,
          row.pendingPlanAt)
  }

  /** While a change waits, reports of an unmoved plan leave what is held and what is pending alone. */
  lemma {:induction false} NothingChangesWhileWaiting(s: State, ops: seq<Op>, tiers: Tiers)
    requires s.row.Some? && AllUnmoved(s, ops, tiers)
    ensures Run(s, ops, tiers).row.Some? && TermsOf(Run(s, ops, tiers).row.value) == TermsOf(s.row.value)
    decreases |ops|
  {
    if ops != [] { NothingChangesWhileWaiting(Step(s, ops[0], tiers), ops[1..], tiers); }
  }

  /** The call that leaves a mandate pending: an upgrade, or carrying on after a cancellation. */
  predicate StartsPending(s: State, op: Op) {
    || (op.ChangePlan? && MayChange(s.row, op.target) && IsUpgrade(op.target, op.currentPrice))
    || (op.Register? && !op.viaAgency && Resubscribes(s.row))
  }

  function Chosen(op: Op): Plan
    requires op.ChangePlan? || op.Register?
  {
    if op.ChangePlan? then op.target else op.plan
  }

  function NewMandate(op: Op): string
    requires op.ChangePlan? || op.Register?
  {
    op.created.id
  }

  /** The plan on record once Razorpay has said what it charges: nothing and the empty text say nothing. */
  function Charged(planId: string, remotePlan: Option<string>): string {
    if remotePlan.Some? && remotePlan.value != "" then remotePlan.value else planId
  }

  /**
   * Main result on changing tier.  From the moment a change is asked for, what
   * the organisation holds stays as it was through any reports of an unmoved
   * plan.  Then the verified confirmation naming the pending mandate installs
   * it, records whatever plan Razorpay charges and clears everything pending.
   * The tier is the one that owns that plan exactly when the plan moved or was
   * the chosen tier's; a plan nobody owns leaves the tier chosen.
   */
  lemma ConfirmInstallsWhatWasChosen(s: State, start: Op, ops: seq<Op>, confirm: Op, tiers: Tiers)
    requires StartsPending(s, start)
    requires AllUnmoved(Step(s, start, tiers), ops, tiers)
    requires confirm.Confirm? && confirm.verified && confirm.mandate == NewMandate(start) && confirm.fetched.Some?
    ensures var waiting := Run(Step(s, start, tiers), ops, tiers);
            && waiting.row.Some?
            && waiting.row.value.mandate == s.row.value.mandate
            && waiting.row.value.planId == s.row.value.planId
            && waiting.row.value.planRef == s.row.value.planRef
    ensures var after := Step(Run(Step(s, start, tiers), ops, tiers), confirm, tiers);
            var charged := Charged(s.row.value.planId, confirm.fetched.value.planId);
            && after.row.Some?
            && after.row.value.mandate == Some(NewMandate(start)) && after.row.value.planId == charged
            && NothingPending(after.row.value) && !after.row.value.cancelAtCycleEnd
            && (charged !in tiers ==> after.row.value.planRef == Some(Chosen(start).id))
            && (charged in tiers ==>
                  (after.row.value.planRef == Some(tiers[charged]) <==>
                     charged != s.row.value.planId || tiers[charged] == Chosen(start).id))
  {
    NothingChangesWhileWaiting(Step(s, start, tiers), ops, tiers);
  }

  /**
   * A cheaper tier waits the same way, for the renewal: the report that the plan
   * has moved to it settles the row on it, and an upgrade left unauthorised can
   * no longer be confirmed.
   */
  lemma DowngradeSettlesAtRenewal(s: State, start: Op, ops: seq<Op>, renewal: Op, tiers: Tiers)
    requires start.ChangePlan? && MayChange(s.row, start.target) && !IsUpgrade(start.target, start.currentPrice)
    requires start.target.razorpayPlanId in tiers && tiers[start.target.razorpayPlanId] == start.target.id
    requires start.target.razorpayPlanId != "" && start.target.razorpayPlanId != s.row.value.planId
    requires AllUnmoved(Step(s, start, tiers), ops, tiers)
    requires renewal.Webhook? && Delivers(Run(Step(s, start, tiers), ops, tiers), renewal)
    requires renewal.entity.value.planId == Some(start.target.razorpayPlanId)
    ensures var waiting := Run(Step(s, start, tiers), ops, tiers);
            && waiting.row.Some?
            && waiting.row.value.planRef == s.row.value.planRef && waiting.row.value.mandate == s.row.value.mandate
            && waiting.row.value.pendingMandate.None?
    ensures var after := Step(Run(Step(s, start, tiers), ops, tiers), renewal, tiers);
            && after.row.Some?
            && TermsOf(after.row.value)
               == Terms(s.row.value.mandate, start.target.razorpayPlanId, Some(start.target.id), None, None, None, None)
  {
    NothingChangesWhileWaiting(Step(s, start, tiers), ops, tiers);
  }

  /**
   * A fresh registration and the confirmation of its mandate leave exactly what
   * was bought.  What an earlier subscription had pending is not cleared by it:
   * nothing is pending afterwards exactly when nothing was before.
   */
  lemma FreshRegistrationConfirmed(s: State, register: Op, confirm: Op, tiers: Tiers)
    requires register.Register? && RegistersFresh(s.row, register.viaAgency)
    requires confirm.Confirm? && confirm.verified && confirm.mandate == register.created.id && confirm.fetched.Some?
    requires register.created.planId == Some(register.plan.razorpayPlanId) == confirm.fetched.value.planId
    requires s.row.Some? ==> !NamesPending(s.row.value, register.created.id)
    ensures var row := Step(Step(s, register, tiers), confirm, tiers).row;
            && row.Some?
            && row.value.mandate == Some(register.created.id)
            && row.value.planId == register.plan.razorpayPlanId && row.value.planRef == Some(register.plan.id)
            && row.value.status == ToStatus(confirm.fetched.value.status)
            && row.value.currentEnd == Later(At(register.created.currentEnd), At(confirm.fetched.value.currentEnd))
            && (NothingPending(row.value) <==> s.row.Some? ==> NothingPending(s.row.value))
  {
  }

  predicate NothingPending(row: Row) {
    && row.pendingMandate.None? && row.pendingShortUrl.None?
    && row.pendingPlanRef.None? && row.pendingPlanAt.None?
  }

  /** The plan on record after a run of reports that began with `planId`. */
  function PlanAlong(s: State, ops: seq<Op>, tiers: Tiers, planId: string): string
    decreases |ops|
  {
    if ops == [] then planId
    else
      var remote := Written(s, ops[0]);
      PlanAlong(Step(s, ops[0], tiers), ops[1..], tiers,
                if remote.Some? then Charged(planId, remote.value.planId) else planId)
  }

  /** Some report along the way moved the plan to one a published tier owns, which settles what was pending. */
  predicate SettledAlong(s: State, ops: seq<Op>, tiers: Tiers, planId: string)
    decreases |ops|
  {
    ops != [] &&
    var remote := Written(s, ops[0]);
    var next := if remote.Some? then Charged(planId, remote.value.planId) else planId;
    (next != planId && next in tiers) || SettledAlong(Step(s, ops[0], tiers), ops[1..], tiers, next)
  }

  lemma ReportMovesPlan(s: State, op: Op, tiers: Tiers)
    requires s.row.Some? && IsReport(s.row, op)
    ensures var before, t, remote := s.row.value, Step(s, op, tiers), Written(s, op);
            var next := if remote.Some? then Charged(before.planId, remote.value.planId) else before.planId;
            && t.row.Some? && t.row.value.mandate == before.mandate && t.row.value.pendingMandate == before.pendingMandate
            && t.row.value.planId == next
            && t.row.value.pendingPlanRef == if next != before.planId && next in tiers then None else before.pendingPlanRef
  {
  }

  /** What any run of reports makes of a row that is waiting. */
  lemma {:induction false} WaitingAlong(s: State, ops: seq<Op>, tiers: Tiers)
    requires s.row.Some? && AllReports(s, ops, tiers)
    ensures var before, t := s.row.value, Run(s, ops, tiers);
            && t.row.Some? && t.row.value.mandate == before.mandate && t.row.value.pendingMandate == before.pendingMandate
            && t.row.value.planId == PlanAlong(s, ops, tiers, before.planId)
            && t.row.value.pendingPlanRef
               == if SettledAlong(s, ops, tiers, before.planId) then None else before.pendingPlanRef
    decreases |ops|
  {
    if ops != [] {
      ReportMovesPlan(s, ops[0], tiers);
      WaitingAlong(Step(s, ops[0], tiers), ops[1..], tiers);
    }
  }

  lemma TierAfterPromotion(row: Row, remote: Remote, tiers: Tiers, now: int)
    requires Charged(row.planId, remote.planId) in tiers
    ensures var charged := Charged(row.planId, remote.planId);
            Applied(Promoted(row), remote, tiers, now).planRef == Some(tiers[charged])
            <==> charged != row.planId || row.pendingPlanRef == Some(tiers[charged])
  {
  }

  /**
   * The same over any reports whatever while the change waits.  The confirmation
   * leaves the tier that owns the plan charged exactly when the plan moves with
   * it, or that tier was chosen and no report settled the change beforehand.
   * Otherwise the row is left with no tier, or with one that is not charged.
   */
  lemma PromotionTierIff(s: State, start: Op, ops: seq<Op>, confirm: Op, tiers: Tiers)
    requires StartsPending(s, start) && AllReports(Step(s, start, tiers), ops, tiers)
    requires confirm.Confirm? && confirm.verified && confirm.mandate == NewMandate(start) && confirm.fetched.Some?
    requires Charged(PlanAlong(Step(s, start, tiers), ops, tiers, s.row.value.planId), confirm.fetched.value.planId) in tiers
    ensures var begun := Step(s, start, tiers);
            var last := PlanAlong(begun, ops, tiers, s.row.value.planId);
            var charged := Charged(last, confirm.fetched.value.planId);
            var after := Step(Run(begun, ops, tiers), confirm, tiers).row;
            && after.Some? && after.value.planId == charged
            && (after.value.planRef == Some(tiers[charged]) <==>
                  charged != last
                  || (tiers[charged] == Chosen(start).id && !SettledAlong(begun, ops, tiers, s.row.value.planId)))
  {
    var begun := Step(s, start, tiers);
    WaitingAlong(begun, ops, tiers);
    TierAfterPromotion(Run(begun, ops, tiers).row.value, confirm.fetched.value, tiers, confirm.now);
  }

  // ---------------------------------------------------------------------------
  // Histories from nothing in which a promise fails
  // ---------------------------------------------------------------------------

  const NOBODY := State(None, {})
  const TWO_TIERS: Tiers := map["A" := 1, "B" := 2]

  function Told(id: string, plan: string, status: string, end: Option<int>): Remote {
    Remote(id, Some(plan), status, None, end, None)
  }

  /** Registered on A, paid for ten seconds. */
  function Paying(): seq<Op> {
    [Register(Plan(1, "A", Some(100)), false, Told("m1", "A", "created", None), 0),
     Confirm("m1", true, Some(Told("m1", "A", "active", Some(10))), 0)]
  }

  function Upgrading(): seq<Op> {
    [ChangePlan(Plan(2, "B", Some(200)), Some(100), Told("m2", "B", "created", None))]
  }

  function Reported(plan: string, status: string): Op {
    Webhook("e", "subscription.charged", Some(Told("m1", plan, status, Some(10))), 0)
  }

  lemma {:induction false} RunAppend(s: State, a: seq<Op>, b: seq<Op>, tiers: Tiers)
    ensures Run(s, a + b, tiers) == Run(Run(s, a, tiers), b, tiers)
    decreases |a|
  {
    if a == [] {
      assert a + b == b;
    } else {
      assert (a + b)[1..] == a[1..] + b;
      RunAppend(Step(s, a[0], tiers), a[1..], b, tiers);
    }
  }

  lemma RunOne(s: State, op: Op, tiers: Tiers)
    ensures Run(s, [op], tiers) == Step(s, op, tiers)
  {
    assert Run(Step(s, op, tiers), [], tiers) == Step(s, op, tiers);
  }

  lemma RunTwo(s: State, a: Op, b: Op, tiers: Tiers)
    ensures Run(s, [a, b], tiers) == Step(Step(s, a, tiers), b, tiers)
  {
    assert [a, b][1..] == [b];
    RunOne(Step(s, a, tiers), b, tiers);
  }

  lemma PayingHolds()
    ensures var row := Run(NOBODY, Paying(), TWO_TIERS).row;
            && row.Some? && row.value.mandate == Some("m1") && row.value.planId == "A" && row.value.planRef == Some(1)
            && row.value.status.Active? && row.value.currentEnd == Some(10000) && !row.value.cancelAtCycleEnd
            && NothingPending(row.value) && Run(NOBODY, Paying(), TWO_TIERS).events == {}
  {
    RunTwo(NOBODY, Paying()[0], Paying()[1], TWO_TIERS);
  }

  lemma UpgradingHolds()
    ensures var row := Run(NOBODY, Paying() + Upgrading(), TWO_TIERS).row;
            && row.Some? && row.value.mandate == Some("m1") && row.value.planId == "A" && row.value.planRef == Some(1)
            && row.value.pendingMandate == Some("m2") && row.value.pendingPlanRef == Some(2)
            && row.value.status.Active? && row.value.currentEnd == Some(10000)
            && Run(NOBODY, Paying() + Upgrading(), TWO_TIERS).events == {}
  {
    PayingHolds();
    RunAppend(NOBODY, Paying(), Upgrading(), TWO_TIERS);
    RunOne(Run(NOBODY, Paying(), TWO_TIERS), Upgrading()[0], TWO_TIERS);
  }

  /** An upgrade to B, B reported on the mandate still held, then the confirmation: charged on B, with no tier. */
  lemma TierCanBeLost()
    ensures var row := Run(NOBODY, Paying() + Upgrading()
                                   + [Reported("B", "active"), Confirm("m2", true, Some(Told("m2", "B", "active", Some(10))), 0)],
                           TWO_TIERS).row;
            row.Some? && row.value.planId == "B" && row.value.planRef.None?
  {
    var moved, confirmed := Reported("B", "active"), Confirm("m2", true, Some(Told("m2", "B", "active", Some(10))), 0);
    UpgradingHolds();
    assert "subscription.charged"[..13] == "subscription.";
    RunAppend(NOBODY, Paying() + Upgrading(), [moved, confirmed], TWO_TIERS);
    RunTwo(Run(NOBODY, Paying() + Upgrading(), TWO_TIERS), moved, confirmed, TWO_TIERS);
  }

  /** An upgrade left unauthorised outlives its subscription: it is still pending on the next one bought. */
  lemma PendingCanOutliveItsSubscription()
    ensures var row := Run(NOBODY, Paying() + Upgrading()
                                   + [Reported("A", "cancelled"),
                                      Register(Plan(1, "A", Some(100)), false, Told("m3", "A", "created", None), 0)],
                           TWO_TIERS).row;
            row.Some? && row.value.mandate == Some("m3") && row.value.pendingMandate == Some("m2")
  {
    var ended := Reported("A", "cancelled");
    var again := Register(Plan(1, "A", Some(100)), false, Told("m3", "A", "created", None), 0);
    UpgradingHolds();
    assert "subscription.charged"[..13] == "subscription.";
    RunAppend(NOBODY, Paying() + Upgrading(), [ended, again], TWO_TIERS);
    RunTwo(Run(NOBODY, Paying() + Upgrading(), TWO_TIERS), ended, again, TWO_TIERS);
  }

  /** Cancelled and bought again inside the paid month: access that ran to the tenth second is gone. */
  lemma PaidAccessCanBeLost()
    ensures var cancelled := Run(NOBODY, Paying() + [Reported("A", "cancelled")], TWO_TIERS);
            var again := Register(Plan(1, "A", Some(100)), false, Told("m2", "A", "created", None), 6000);
            && PaidThrough(cancelled.row, 7000) && GrantsAt(cancelled.row, 7000)
            && !GrantsAt(Step(cancelled, again, TWO_TIERS).row, 7000)
  {
    PayingHolds();
    assert "subscription.charged"[..13] == "subscription.";
    RunAppend(NOBODY, Paying(), [Reported("A", "cancelled")], TWO_TIERS);
    RunOne(Run(NOBODY, Paying(), TWO_TIERS), Reported("A", "cancelled"), TWO_TIERS);
  }

  /** The organisation's limits move only with money: a new registration, an authorised change, or a plan Razorpay moved. */
  lemma TierMovesOnlyWithMoney(s: State, op: Op, tiers: Tiers)
    requires s.row.Some?
    ensures var after := Step(s, op, tiers);
            && after.row.Some?
            && (after.row.value.planRef != s.row.value.planRef || after.row.value.planId != s.row.value.planId ==>
                  || (op.Register? && RegistersFresh(s.row, op.viaAgency))
                  || (Confirms(s.row, op) && NamesPending(s.row.value, op.mandate))
                  || (Written(s, op).Some? && Moved(s.row.value, Written(s, op).value.planId)))
  {
  }

  // ---------------------------------------------------------------------------
  // Proration
  // ---------------------------------------------------------------------------

  /** `difference`, scaled by what is left of the cycle and rounded down; nothing without a cycle to scale by. */
  function Prorate(difference: int, start: Option<int>, end: Option<int>, now: int): int {
    if difference <= 0 || start.None? || end.None? then 0
    else
      var cycle, remaining := end.value - start.value, end.value - now;
      if cycle <= 0 || remaining <= 0 then 0
      else (difference * if remaining < cycle then remaining else cycle) / cycle
  }

  lemma ShareBounds(difference: nat, days: nat, cycle: nat)
    requires days <= cycle && cycle > 0
    ensures 0 <= difference * days <= cycle * difference
  {
    assert difference * (cycle - days) == difference * cycle - difference * days;
  }

  /** Nothing is charged for no difference, without a cycle, or once it is over. */
  lemma NothingToProrate(difference: int, start: Option<int>, end: Option<int>, now: int)
    requires difference <= 0 || start.None? || end.None? || end.value <= start.value || end.value <= now
    ensures Prorate(difference, start, end, now) == 0
  {
  }

  /** Never negative, never more than the month's difference, and rounded down from the exact share by less than a paisa. */
  lemma ProrateBounds(difference: nat, start: int, end: int, now: int)
    requires start < end && now < end
    ensures var p := Prorate(difference, Some(start), Some(end), now);
            var cycle := end - start;
            var share := difference * (if end - now < cycle then end - now else cycle);
            && 0 <= p <= difference
            && cycle * p <= share < cycle * p + cycle
            && (now <= start ==> p == difference)
  {
    var cycle, remaining := end - start, end - now;
    var days := if remaining < cycle then remaining else cycle;
    if difference > 0 {
      ShareBounds(difference, days, cycle);
      QuotientAtMost(difference * days, cycle, difference);
      MultipleDivides(difference, cycle);
    }
  }
}
