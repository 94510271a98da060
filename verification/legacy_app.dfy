/** The earlier, monolithic event processor. It marks every event that names a
    customer as processed and creates its user whatever the type, falls back
    to thirty days from now when an active subscription carries no period end,
    and leaves invoices alone. */
module LegacyApp {
  import opened Basics
  import opened StripeTypes
  import opened EntitlementStore
  import opened Replies
  import opened WebhookHandler

  /** Subscription created or updated. A truthy period end is converted (an
      out-of-range one raises); a missing or zero one falls back to thirty
      days from now. past_due keeps the deadline; any other status revokes. */
  function LegacySubscriptionRule(ev: Event, now: int): Effect
  {
    if IsActiveStatus(ev.status) then
      if IsTruthyInt(ev.currentPeriodEnd) then
        if InDatetimeRange(ev.currentPeriodEnd.value) then SetTo(ev.currentPeriodEnd.value) else Raise
      else SetTo(now + ThirtyDays)
    else if IsPastDue(ev.status) then Keep
    else SetTo(now)
  }

  predicate IsSubscriptionChange(ev: Event)
  {
    ev.IsType(EventTypeName(SubscriptionCreated)) || ev.IsType(EventTypeName(SubscriptionUpdated))
  }

  /** Processes one event at instant `now`; `commitFails` is the outcome of the
      database commit, the only statement under a try. The `type` key is only
      read once the user is resolved; a null type matches no rule. */
  function ProcessLegacy(s: Store, ev: Event, now: int, commitFails: bool): (step: Step)
    requires Fresh(s, ev) && IsTruthy(ev.customer) ==> ev.HasType()
    ensures step.reply == Err(InvalidEvent) <==> !IsTruthy(ev.id)
    ensures step.reply == Ok(AlreadyProcessed) <==> IsTruthy(ev.id) && ev.id.value in s.processed
    ensures step.reply == Err(MissingCustomer) <==> Fresh(s, ev) && !IsTruthy(ev.customer)
    ensures step.reply.IsProcessed() ==> Fresh(s, ev) && IsTruthy(ev.customer) && !commitFails
    ensures !step.reply.IsProcessed() ==> step.store == s
    ensures step.reply.IsProcessed() ==>
              && IsTruthy(ev.id) && IsTruthy(ev.customer) && step.reply == Ok(Processed(None))
              && Committed(s, step.store, ev.id.value, ev.customer.value, GetOrCreateUser(s, ev.customer.value).user.id)
    ensures step.reply != Ok(NotRelevant) && step.reply != Err(MissingSubscriptionData)
    ensures Valid(s) ==> Valid(step.store)
  {
    if !IsTruthy(ev.id) then Step(Err(InvalidEvent), s)
    else if ev.id.value in s.processed then Step(Ok(AlreadyProcessed), s)
    else if !IsTruthy(ev.customer) then Step(Err(MissingCustomer), s)
    else
      var r := GetOrCreateUser(s, ev.customer.value);
      if IsSubscriptionChange(ev) && ev.ObjectIsEmpty() then Step(Err(MissingSubscriptionData), s)
      else
        var effect :=
          if IsSubscriptionChange(ev) then LegacySubscriptionRule(ev, now)
          else if ev.IsType(EventTypeName(SubscriptionDeleted)) then SetTo(now)
          else Keep;
        if effect.Raise? then Step(Err(Unhandled), s)
        else if commitFails then Step(Err(ProcessingFailed), s)
        else
          var u := r.user.(accessUntil := Apply(effect, r.user.accessUntil));
          CommitKeepsValid(s, ev.id.value, ev.customer.value, u.accessUntil);
          Step(Ok(Processed(None)), Commit(s, ev.id.value, ev.customer.value, u, r.nextId))
  }
}

/** The transition table of the earlier processor. */
module LegacyRules {
  import opened Basics
  import opened StripeTypes
  import opened EntitlementStore
  import opened Replies
  import opened WebhookHandler
  import opened LegacyApp

  lemma LegacySubscriptionEventRule(s: Store, ev: Event, now: int)
    requires Fresh(s, ev) && IsTruthy(ev.customer)
    requires IsSubscriptionChange(ev)
    ensures var step := ProcessLegacy(s, ev, now, false);
            var c := ev.customer.value;
            && (IsActiveStatus(ev.status) && IsTruthyInt(ev.currentPeriodEnd) && InDatetimeRange(ev.currentPeriodEnd.value) ==>
                  step.reply.IsProcessed() && step.store.users[c].accessUntil == ev.currentPeriodEnd)
            && (IsActiveStatus(ev.status) && IsTruthyInt(ev.currentPeriodEnd) && !InDatetimeRange(ev.currentPeriodEnd.value) ==>
                  step == Step(Err(Unhandled), s))
            && (IsActiveStatus(ev.status) && !IsTruthyInt(ev.currentPeriodEnd) ==>
                  step.reply.IsProcessed() && step.store.users[c].accessUntil == Some(now + ThirtyDays))
            && (IsPastDue(ev.status) ==>
                  step.reply.IsProcessed() && step.store.users[c].accessUntil == PriorDeadline(s, c))
            && (!IsActiveStatus(ev.status) && !IsPastDue(ev.status) ==>
                  step.reply.IsProcessed() && step.store.users[c].accessUntil == Some(now))
  {
  }

  /** Deletion revokes; every other type, invoices, unknown and null types included,
      is still recorded and still creates the user, but keeps the deadline. */
  lemma LegacyOtherTypesRule(s: Store, ev: Event, now: int)
    requires Fresh(s, ev) && IsTruthy(ev.customer)
    requires ev.HasType() && !IsSubscriptionChange(ev)
    ensures var step := ProcessLegacy(s, ev, now, false);
            var c := ev.customer.value;
            && step.reply.IsProcessed()
            && ev.id.value in step.store.processed
            && c in step.store.users
            && (ev.IsType(EventTypeName(SubscriptionDeleted)) ==> step.store.users[c].accessUntil == Some(now))
            && (!ev.IsType(EventTypeName(SubscriptionDeleted)) ==> step.store.users[c].accessUntil == PriorDeadline(s, c))
  {
  }

  /** Redelivery is harmless in the earlier processor too. */
  lemma LegacyIdempotent(s: Store, ev: Event, now: int, commitFails: bool, now': int, commitFails': bool)
    requires Fresh(s, ev) && IsTruthy(ev.customer) ==> ev.HasType()
    ensures var once := ProcessLegacy(s, ev, now, commitFails);
            && ProcessLegacy(once.store, ev, now, commitFails).store == once.store
            && (once.reply.IsProcessed() ==>
                  ProcessLegacy(once.store, ev, now', commitFails') == Step(Ok(AlreadyProcessed), once.store))
  {
  }
}
