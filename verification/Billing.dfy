/** `BillingService`, call by call; Subscription proves what holds over whole histories of calls. */
module Billing {
  import opened Options
  import opened Subscription

  datatype Refusal =
    | BilledThroughAgency | AlreadySubscribed | NoSubscription | OtherSubscription | Unverified
    | Ended | SetToEnd | NotAuthorisedYet | AlreadyOnPlan | ProviderUnreachable

  class BillingService {
    const tiers: Tiers
    var row: Option<Row>
    var events: set<string>

    constructor (tiers: Tiers)
      ensures this.tiers == tiers && Now() == State(None, {})
    {
      this.tiers := tiers;
      row := None;
      events := {};
    }

    function Now(): State
      reads this
    {
      State(row, events)
    }

    method Register(plan: Plan, viaAgency: bool, created: Remote, now: int) returns (refused: Option<Refusal>)
      modifies this`row
      ensures Now() == old(Step(Now(), Op.Register(plan, viaAgency, created, now), tiers))
      ensures refused.None? <==> !viaAgency && (old(Resubscribes(row)) || old(RegistersFresh(row, viaAgency)))
      ensures refused.Some? ==> row == old(row)
      ensures refused == Some(AlreadySubscribed) <==> !viaAgency && old(Running(row))
      ensures refused == Some(BilledThroughAgency) <==>
                viaAgency || (old(Ending(row)) && old(row).value.mandate.None?)
    {
      if viaAgency {
        return Some(BilledThroughAgency);
      }
      if row.Some? && !IsFinished(row.value.status) {
        if row.value.cancelAtCycleEnd {
          refused := StartResubscribe(plan, created, now);
          return;
        }
        return Some(AlreadySubscribed);
      }
      row := Some(AfterFresh(row, plan, created));
      return None;
    }

    method StartResubscribe(plan: Plan, created: Remote, now: int) returns (refused: Option<Refusal>)
      requires row.Some?
      modifies this`row
      ensures refused.None? <==> old(row.value.mandate).Some?
      ensures refused.Some? ==> refused == Some(BilledThroughAgency)
      ensures row == if refused.None? then Some(old(AfterResubscribe(row.value, plan, created, now))) else old(row)
    {
      var sub := row.value;
      if sub.mandate.None? {
        return Some(BilledThroughAgency);
      }
      var startAt := if sub.currentEnd.Some? && now < sub.currentEnd.value then sub.currentEnd else None;
      row := Some(sub.(pendingMandate := Some(created.id), pendingShortUrl := created.shortUrl,
                       pendingPlanRef := Some(plan.id), pendingPlanAt := startAt));
      return None;
    }

    /** `verified` is whether the checkout's signature holds; `fetched` the mandate as Razorpay then has it. */
    method Confirm(mandate: string, verified: bool, fetched: Option<Remote>, now: int) returns (refused: Option<Refusal>)
      modifies this`row
      ensures Now() == old(Step(Now(), Op.Confirm(mandate, verified, fetched, now), tiers))
      ensures refused.None? <==> old(Confirms(row, Op.Confirm(mandate, verified, fetched, now))) && fetched.Some?
      ensures refused == Some(NoSubscription) <==> old(row).None?
      ensures refused == Some(OtherSubscription) <==>
                old(row).Some? && Some(mandate) !in {old(row).value.mandate, old(row).value.pendingMandate}
      ensures refused == Some(ProviderUnreachable) <==>
                old(Confirms(row, Op.Confirm(mandate, verified, fetched, now))) && fetched.None?
      ensures refused == Some(Unverified) ==> !verified
    {
      if row.None? {
        return Some(NoSubscription);
      }
      var upgrading := row.value.pendingMandate == Some(mandate);
      if !upgrading && row.value.mandate != Some(mandate) {
        return Some(OtherSubscription);
      }
      if !verified {
        return Some(Unverified);
      }
      if upgrading {
        PromoteUpgrade();
      }
      if fetched.None? {
        return Some(ProviderUnreachable);
      }
      ApplyRemote(fetched.value, now);
      return None;
    }

    method PromoteUpgrade()
      requires row.Some?
      modifies this`row
      ensures row == Some(Promoted(old(row.value)))
      // The pending mandate and its tier are held, nothing is pending or ending, and what was paid for is as it was.
      ensures var before := old(row.value);
              && TermsOf(row.value) == Terms(before.pendingMandate, before.planId, before.pendingPlanRef, None, None, None, None)
              && !row.value.cancelAtCycleEnd && row.value.cancelledAt.None?
              && row.value.shortUrl == before.pendingShortUrl && row.value.status == before.status
              && row.value.currentStart == before.currentStart && row.value.currentEnd == before.currentEnd
    {
      var sub := row.value;
      row := Some(sub.(mandate := sub.pendingMandate, shortUrl := sub.pendingShortUrl, planRef := sub.pendingPlanRef));
      row := Some(row.value.(pendingMandate := None, pendingShortUrl := None, pendingPlanRef := None,
                             pendingPlanAt := None, cancelAtCycleEnd := false, cancelledAt := None));
    }

    /** The one writer of Razorpay's version over ours; the paid month never moves backwards. */
    method ApplyRemote(remote: Remote, now: int)
      requires row.Some?
      modifies this`row
      ensures row == Some(Applied(old(row.value), remote, tiers, now))
      ensures old(row.value.currentEnd).Some? ==>
                row.value.currentEnd.Some? && old(row.value.currentEnd).value <= row.value.currentEnd.value
    {
      var sub := row.value;
      var status := ToStatus(remote.status);
      var start, end := At(remote.currentStart), At(remote.currentEnd);
      var next := TierFor(sub, remote.planId, tiers);
      next := next.(status := status);
      if start.Some? {
        next := next.(currentStart := start);
      }
      if end.Some? && (sub.currentEnd.None? || end.value > sub.currentEnd.value) {
        next := next.(currentEnd := end);
      }
      if status.Cancelled? && sub.cancelledAt.None? {
        next := next.(cancelledAt := Some(now));
      }
      if !status.Created? {
        next := next.(shortUrl := None);
      }
      row := Some(next);
    }

    method ChangePlan(target: Plan, currentPrice: Option<int>, created: Remote) returns (refused: Option<Refusal>)
      modifies this`row
      ensures Now() == old(Step(Now(), Op.ChangePlan(target, currentPrice, created), tiers))
      ensures refused.None? <==> old(MayChange(row, target))
      ensures refused == Some(NoSubscription) <==> old(row).None?
      ensures refused == Some(Ended) <==> old(row).Some? && !old(Running(row)) && !old(Ending(row))
      ensures refused == Some(SetToEnd) <==> old(Ending(row))
      ensures refused == Some(NotAuthorisedYet) <==>
                old(Running(row)) && (old(row).value.status.Created? || old(row).value.status.Authenticated?)
      ensures refused == Some(AlreadyOnPlan) ==> old(row).value.planRef == Some(target.id)
      ensures refused == Some(BilledThroughAgency) ==>
                old(row).value.mandate.None? && old(row).value.planRef != Some(target.id)
    {
      if row.None? {
        return Some(NoSubscription);
      }
      var sub := row.value;
      if IsFinished(sub.status) {
        return Some(Ended);
      }
      if sub.cancelAtCycleEnd {
        return Some(SetToEnd);
      }
      if sub.status.Created? || sub.status.Authenticated? {
        return Some(NotAuthorisedYet);
      }
      if sub.planRef == Some(target.id) {
        return Some(AlreadyOnPlan);
      }
      if sub.mandate.None? {
        return Some(BilledThroughAgency);
      }
      if currentPrice.Some? && target.price.Some? && target.price.value > currentPrice.value {
        row := Some(sub.(pendingMandate := Some(created.id), pendingShortUrl := created.shortUrl,
                         pendingPlanRef := Some(target.id), pendingPlanAt := sub.currentEnd));
      } else {
        row := Some(sub.(pendingPlanRef := Some(target.id), pendingPlanAt := sub.currentEnd,
                         pendingMandate := None, pendingShortUrl := None));
      }
      return None;
    }

    method Cancel(answer: Remote, now: int) returns (refused: Option<Refusal>)
      modifies this`row
      ensures Now() == old(Step(Now(), Op.Cancel(answer, now), tiers))
      ensures refused.None? <==> old(MayCancel(row))
      ensures refused == Some(NoSubscription) <==> old(row).None?
      ensures refused == Some(Ended) <==> old(row).Some? && !old(Running(row)) && !old(Ending(row))
      ensures refused == Some(SetToEnd) <==> old(Ending(row))
      ensures refused == Some(BilledThroughAgency) <==> old(Running(row)) && old(row).value.mandate.None?
    {
      if row.None? {
        return Some(NoSubscription);
      }
      var sub := row.value;
      if IsFinished(sub.status) {
        return Some(Ended);
      }
      if sub.cancelAtCycleEnd {
        return Some(SetToEnd);
      }
      if sub.mandate.None? {
        return Some(BilledThroughAgency);
      }
      var paidMonthLeft := sub.currentEnd.Some? && now < sub.currentEnd.value;
      row := Some(sub.(status := ToStatus(answer.status), cancelAtCycleEnd := paidMonthLeft, cancelledAt := Some(now),
                       shortUrl := None, pendingMandate := None, pendingShortUrl := None));
      return None;
    }

    /** A known event id changes nothing; a new one is recorded whether or not it applies to this row. */
    method HandleWebhook(eventId: string, event: string, entity: Option<Remote>, now: int)
      modifies this
      ensures Now() == old(Step(Now(), Webhook(eventId, event, entity, now), tiers))
      ensures eventId in old(events) ==> Now() == old(Now())
    {
      if eventId in events {
        assert events + {eventId} == events;
        return;
      }
      events := events + {eventId};
      if entity.None? || entity.value.id == "" || !IsSubscriptionEvent(event) {
        return;
      }
      if row.None? || row.value.mandate != Some(entity.value.id) {
        return;
      }
      ApplyRemote(entity.value, now);
    }

    /** The hourly sweep, for this organisation's row; a fetch that fails leaves it for the next hour. */
    method Reconcile(fetched: Option<Remote>, now: int)
      modifies this`row
      ensures Now() == old(Step(Now(), Op.Reconcile(fetched, now), tiers))
    {
      if row.None? || IsFinished(row.value.status) || row.value.mandate.None? {
        return;
      }
      if row.value.currentEnd.Some? && now <= row.value.currentEnd.value {
        return;
      }
      if fetched.Some? {
        ApplyRemote(fetched.value, now);
      }
    }
  }
}
