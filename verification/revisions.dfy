/** Where the earlier monolithic processor and the later handler agree, and
    where their rules differ, for the same store, event, clock and commit
    outcome. */
module Revisions {
  import opened Basics
  import opened StripeTypes
  import opened EntitlementStore
  import opened Replies
  import opened WebhookHandler
  import opened LegacyApp

  /** A missing id or an already-processed id gets the same answer from both,
      and neither touches the store. */
  lemma RevisionsAgreeOnRejectedIds(s: Store, ev: Event, now: int, commitFails: bool)
    requires !Fresh(s, ev)
    ensures ProcessLegacy(s, ev, now, commitFails) == Process(s, ev, now, commitFails)
    ensures Process(s, ev, now, commitFails).store == s
  {
  }

  /** A relevant event without a customer is refused by both, unrecorded. */
  lemma RevisionsAgreeOnMissingCustomer(s: Store, ev: Event, now: int, commitFails: bool)
    requires Fresh(s, ev) && !IsTruthy(ev.customer)
    requires ev.IsRelevant()
    ensures ProcessLegacy(s, ev, now, commitFails) == Process(s, ev, now, commitFails)
    ensures Process(s, ev, now, commitFails) == Step(Err(MissingCustomer), s)
  {
  }

  /** A committed deletion leaves the same store in both; only the reply text
      differs, the later one carrying the user id. */
  lemma RevisionsAgreeOnDeletion(s: Store, ev: Event, now: int, commitFails: bool)
    requires Fresh(s, ev) && IsTruthy(ev.customer)
    requires ev.IsType(EventTypeName(SubscriptionDeleted))
    ensures var later := Process(s, ev, now, commitFails);
            var earlier := ProcessLegacy(s, ev, now, commitFails);
            && later.store == earlier.store
            && (earlier.reply.IsProcessed() <==> later.reply.IsProcessed())
            && (later.reply.IsProcessed() ==> earlier.reply == Ok(Processed(None)))
  {
  }

  /** Subscription changes agree on every status except an active one whose
      period end is missing, zero or out of range. */
  lemma RevisionsAgreeOnSubscriptionStatus(s: Store, ev: Event, now: int, commitFails: bool)
    requires Fresh(s, ev) && IsTruthy(ev.customer)
    requires IsSubscriptionChange(ev)
    requires !IsActiveStatus(ev.status)
             || (IsTruthyInt(ev.currentPeriodEnd) && InDatetimeRange(ev.currentPeriodEnd.value))
    ensures Process(s, ev, now, commitFails).store == ProcessLegacy(s, ev, now, commitFails).store
  {
  }

  /** An active subscription without a usable period end: the later handler
      fails the request and records nothing, the earlier one grants thirty
      days from now; a zero period end is the epoch to the later handler. */
  lemma RevisionsDifferOnMissingPeriodEnd(s: Store, ev: Event, now: int)
    requires Fresh(s, ev) && IsTruthy(ev.customer)
    requires IsSubscriptionChange(ev)
    requires IsActiveStatus(ev.status) && !IsTruthyInt(ev.currentPeriodEnd)
    ensures var later := Process(s, ev, now, false);
            var earlier := ProcessLegacy(s, ev, now, false);
            && earlier.reply.IsProcessed()
            && earlier.store.users[ev.customer.value].accessUntil == Some(now + ThirtyDays)
            && (ev.currentPeriodEnd.None? ==> later == Step(Err(ProcessingFailed), s))
            && (ev.currentPeriodEnd == Some(0) ==>
                  later.reply.IsProcessed() && later.store.users[ev.customer.value].accessUntil == Some(0))
  {
  }

  /** A period end no `datetime` can hold fails both without a trace, but only
      the later handler catches the exception. */
  lemma RevisionsDifferOnOutOfRangePeriodEnd(s: Store, ev: Event, now: int)
    requires Fresh(s, ev) && IsTruthy(ev.customer)
    requires IsSubscriptionChange(ev)
    requires IsActiveStatus(ev.status) && ev.currentPeriodEnd.Some? && !InDatetimeRange(ev.currentPeriodEnd.value)
    ensures Process(s, ev, now, false) == Step(Err(ProcessingFailed), s)
    ensures ProcessLegacy(s, ev, now, false) == Step(Err(Unhandled), s)
  {
  }

  /** An unrecognised or null type: the later handler ignores it entirely, the earlier
      one records it and creates the customer's user without changing the
      deadline. */
  lemma RevisionsDifferOnIrrelevantType(s: Store, ev: Event, now: int)
    requires Fresh(s, ev) && IsTruthy(ev.customer)
    requires ev.HasType() && !ev.IsRelevant()
    ensures Process(s, ev, now, false) == Step(Ok(NotRelevant), s)
    ensures var earlier := ProcessLegacy(s, ev, now, false);
            && earlier.reply.IsProcessed()
            && earlier.store.processed == s.processed + {ev.id.value}
            && ev.customer.value in earlier.store.users
            && earlier.store.users[ev.customer.value].accessUntil == PriorDeadline(s, ev.customer.value)
  {
  }

  /** Invoices: the earlier processor records them but never moves the
      deadline; the later one revokes on a failed payment and grants thirty
      days on a paid invoice with a subscription reference. */
  lemma RevisionsDifferOnInvoices(s: Store, ev: Event, now: int)
    requires Fresh(s, ev) && IsTruthy(ev.customer)
    requires ev.IsType(EventTypeName(InvoicePaymentFailed))
             || (ev.IsType(EventTypeName(InvoicePaid)) && IsTruthy(ev.subscription))
    ensures var later := Process(s, ev, now, false);
            var earlier := ProcessLegacy(s, ev, now, false);
            var c := ev.customer.value;
            && later.reply.IsProcessed() && earlier.reply.IsProcessed()
            && earlier.store.users[c].accessUntil == PriorDeadline(s, c)
            && later.store.users[c].accessUntil
                 == (if ev.IsType(EventTypeName(InvoicePaid)) then Some(now + ThirtyDays) else Some(now))
  {
  }
}
