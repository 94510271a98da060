/** The processor and the access evaluator composed: what a user's access
    query answers right after an event was processed at the same instant. */
module Scenarios {
  import opened Basics
  import opened StripeTypes
  import opened EntitlementStore
  import opened Replies
  import opened WebhookHandler
  import opened HandlerRules
  import opened AccessHandler
  import opened LegacyApp

  /** The access query for the user a processed reply names. */
  function AccessAfter(step: Step, now: int): AccessReply
    requires Valid(step.store) && step.reply.IsProcessed() && step.reply.notice.userId.Some?
  {
    Access(step.store, step.reply.notice.userId.value, now)
  }

  lemma RevocationDeniesAccess(s: Store, ev: Event, now: int)
    requires Valid(s)
    requires Applicable(s, ev, SubscriptionDeleted) || Applicable(s, ev, InvoicePaymentFailed)
    ensures var step := Process(s, ev, now, false);
            && step.reply.IsProcessed()
            && AccessAfter(step, now) == Found(AccessReport(step.reply.notice.userId.value, Some(now), false))
  {
  }

  lemma ActiveSubscriptionGrantsAccess(s: Store, ev: Event, now: int)
    requires Valid(s)
    requires Applicable(s, ev, SubscriptionCreated) || Applicable(s, ev, SubscriptionUpdated)
    requires IsActiveStatus(ev.status) && ev.currentPeriodEnd.Some?
    requires InDatetimeRange(ev.currentPeriodEnd.value) && ev.currentPeriodEnd.value > now
    ensures var step := Process(s, ev, now, false);
            && step.reply.IsProcessed()
            && AccessAfter(step, now) == Found(AccessReport(step.reply.notice.userId.value, ev.currentPeriodEnd, true))
  {
  }

  /** A canceled, unpaid, incomplete, unknown or missing status revokes. */
  lemma InactiveSubscriptionDeniesAccess(s: Store, ev: Event, now: int)
    requires Valid(s)
    requires Applicable(s, ev, SubscriptionCreated) || Applicable(s, ev, SubscriptionUpdated)
    requires !IsActiveStatus(ev.status) && !IsPastDue(ev.status)
    ensures var step := Process(s, ev, now, false);
            && step.reply.IsProcessed()
            && AccessAfter(step, now) == Found(AccessReport(step.reply.notice.userId.value, Some(now), false))
  {
  }

  /** past_due leaves the user's access answer exactly as it was before. */
  lemma PastDueKeepsAccess(s: Store, ev: Event, now: int)
    requires Valid(s)
    requires Applicable(s, ev, SubscriptionCreated) || Applicable(s, ev, SubscriptionUpdated)
    requires IsPastDue(ev.status) && ev.customer.value in s.users
    ensures var step := Process(s, ev, now, false);
            var u := s.users[ev.customer.value];
            && step.reply == Ok(Processed(Some(u.id)))
            && AccessAfter(step, now) == Access(s, u.id, now)
  {
  }

  lemma PaidInvoiceGrantsAccess(s: Store, ev: Event, now: int)
    requires Valid(s)
    requires Applicable(s, ev, InvoicePaid) && IsTruthy(ev.subscription)
    ensures var step := Process(s, ev, now, false);
            && step.reply.IsProcessed()
            && AccessAfter(step, now)
                 == Found(AccessReport(step.reply.notice.userId.value, Some(now + ThirtyDays), true))
  {
  }

  /** A paid invoice without a subscription reference creates the user but
      grants nothing. */
  lemma PaidInvoiceWithoutSubscriptionGrantsNothing(s: Store, ev: Event, now: int)
    requires Valid(s)
    requires Applicable(s, ev, InvoicePaid) && !IsTruthy(ev.subscription) && ev.customer.value !in s.users
    ensures var step := Process(s, ev, now, false);
            && step.reply == Ok(Processed(Some(s.nextId)))
            && AccessAfter(step, now) == Found(AccessReport(s.nextId, None, false))
  {
  }

  /** Two committed events for two different customers leave two different
      users, and both events recorded. */
  lemma DistinctCustomersGetDistinctUsers(s: Store, ev1: Event, ev2: Event, now: int)
    requires Valid(s)
    requires Fresh(s, ev1) && ev1.HasType()
    requires ev2.HasType()
    requires IsTruthy(ev1.customer) && IsTruthy(ev2.customer) && ev1.customer != ev2.customer
    ensures var one := Process(s, ev1, now, false);
            var two := Process(one.store, ev2, now, false);
            one.reply.IsProcessed() && two.reply.IsProcessed() ==>
              && one.reply.notice.userId != two.reply.notice.userId
              && two.store.processed == s.processed + {ev1.id.value, ev2.id.value}
              && ev1.customer.value in two.store.users && ev2.customer.value in two.store.users
  {
  }

  /** After the earlier processor handles a deletion, the user has no access. */
  lemma LegacyDeletionDeniesAccess(s: Store, ev: Event, now: int)
    requires Valid(s)
    requires Applicable(s, ev, SubscriptionDeleted)
    ensures var step := ProcessLegacy(s, ev, now, false);
            var u := GetOrCreateUser(s, ev.customer.value).user;
            && step.reply.IsProcessed()
            && Access(step.store, u.id, now) == Found(AccessReport(u.id, Some(now), false))
  {
  }

  /** The end-to-end flow: an active subscription for "cus_123" creates user 1,
      whose id the reply carries and whose access is granted; deleting the
      subscription revokes it. */
  lemma EndToEnd(now: int)
    requires InDatetimeRange(now + ThirtyDays)
    ensures var created := Event(Some("evt_123"), Named("customer.subscription.created"), Some("cus_123"),
                                 Some("active"), Some(now + ThirtyDays), None);
            var deleted := Event(Some("evt_124"), Named("customer.subscription.deleted"), Some("cus_123"),
                                 None, None, None);
            var one := Process(Empty, created, now, false);
            var two := Process(one.store, deleted, now, false);
            && one.reply == Ok(Processed(Some(1)))
            && UserIdFromMessage(Text(one.reply)) == Some(1)
            && Access(one.store, 1, now) == Found(AccessReport(1, Some(now + ThirtyDays), true))
            && two.reply == Ok(Processed(Some(1)))
            && Access(two.store, 1, now) == Found(AccessReport(1, Some(now), false))
  {
    var created := Event(Some("evt_123"), Named("customer.subscription.created"), Some("cus_123"),
                         Some("active"), Some(now + ThirtyDays), None);
    var deleted := Event(Some("evt_124"), Named("customer.subscription.deleted"), Some("cus_123"),
                         None, None, None);
    var one := Process(Empty, created, now, false);
    ActiveSubscriptionGrantsAccess(Empty, created, now);
    UserIdRoundTrip(1);
    RevocationDeniesAccess(one.store, deleted, now);
  }

  /** An event without a customer creates nobody: the access query for the
      first id finds no user, and the event can be redelivered. */
  lemma MissingCustomerCreatesNobody(now: int)
    ensures var bad := Event(Some("evt_123"), Named("customer.subscription.created"), None, None, None, None);
            var step := Process(Empty, bad, now, false);
            && step == Step(Err(MissingCustomer), Empty)
            && StatusCode(step.reply) == 400
            && Access(step.store, 1, now) == UserNotFound
  {
  }
}
