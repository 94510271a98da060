/** The later event processor: idempotent intake, relevance filter,
    get-or-create of the customer's user, and the transition table from event
    type and subscription status to a new access deadline. */
module WebhookHandler {
  import opened Basics
  import opened StripeTypes
  import opened EntitlementStore
  import opened Replies

  /** A reply together with the store the request leaves behind. */
  datatype Step = Step(reply: Reply, store: Store)

  /** The event carries a truthy id that the ledger has not seen. */
  predicate Fresh(s: Store, ev: Event)
  {
    IsTruthy(ev.id) && ev.id.value !in s.processed
  }

  /** Subscription created or updated: active or trialing grants access up to
      the period end (converting a missing or out-of-range one raises),
      past_due keeps the deadline, and every other or missing status revokes. */
  function SubscriptionRule(ev: Event, now: int): Effect
  {
    if IsActiveStatus(ev.status) then
      match ev.currentPeriodEnd
      case None => Raise
      case Some(t) => if InDatetimeRange(t) then SetTo(t) else Raise
    else if IsPastDue(ev.status) then Keep
    else SetTo(now)
  }

  /** An invoice was paid: a subscription reference grants thirty days from now. */
  function InvoicePaidRule(ev: Event, now: int): Effect
  {
    if IsTruthy(ev.subscription) then SetTo(now + ThirtyDays) else Keep
  }

  function HandleEventByType(kind: EventType, ev: Event, now: int): Effect
  {
    match kind
    case SubscriptionCreated => SubscriptionRule(ev, now)
    case SubscriptionUpdated => SubscriptionRule(ev, now)
    case SubscriptionDeleted => SetTo(now)
    case InvoicePaymentFailed => SetTo(now)
    case InvoicePaid => InvoicePaidRule(ev, now)
  }

  /** Processes one event at instant `now`; `commitFails` is the outcome of the
      database commit. The `type` key is only read once the id is known fresh;
      a null type is not relevant. */
  function Process(s: Store, ev: Event, now: int, commitFails: bool): (step: Step)
    requires Fresh(s, ev) ==> ev.HasType()
    ensures step.reply == Err(InvalidEvent) <==> !IsTruthy(ev.id)
    ensures step.reply == Ok(AlreadyProcessed) <==> IsTruthy(ev.id) && ev.id.value in s.processed
    ensures step.reply == Ok(NotRelevant) <==> Fresh(s, ev) && !ev.IsRelevant()
    ensures step.reply == Err(MissingCustomer) <==>
              Fresh(s, ev) && ev.IsRelevant() && !IsTruthy(ev.customer)
    ensures step.reply.IsProcessed() ==>
              Fresh(s, ev) && ev.IsRelevant() && IsTruthy(ev.customer) && !commitFails
    ensures !step.reply.IsProcessed() ==> step.store == s
    ensures step.reply.IsProcessed() ==>
              && IsTruthy(ev.id) && IsTruthy(ev.customer) && step.reply.notice.userId.Some?
              && Committed(s, step.store, ev.id.value, ev.customer.value, step.reply.notice.userId.value)
    ensures step.reply.Err? ==> step.reply.failure != MissingSubscriptionData && step.reply.failure != Unhandled
    ensures Valid(s) ==> Valid(step.store)
  {
    if !IsTruthy(ev.id) then Step(Err(InvalidEvent), s)
    else if ev.id.value in s.processed then Step(Ok(AlreadyProcessed), s)
    else
      match ev.Kind()
      case None => Step(Ok(NotRelevant), s)
      case Some(kind) =>
        if !IsTruthy(ev.customer) then Step(Err(MissingCustomer), s)
        else
          var r := GetOrCreateUser(s, ev.customer.value);
          var effect := HandleEventByType(kind, ev, now);
          if effect.Raise? || commitFails then Step(Err(ProcessingFailed), s)
          else
            var u := r.user.(accessUntil := Apply(effect, r.user.accessUntil));
            CommitKeepsValid(s, ev.id.value, ev.customer.value, u.accessUntil);
            Step(Ok(Processed(Some(u.id))), Commit(s, ev.id.value, ev.customer.value, u, r.nextId))
  }
}

/** The transition table of the later processor, stated on the deadline the
    customer's user holds after a committed event. */
module HandlerRules {
  import opened Basics
  import opened StripeTypes
  import opened EntitlementStore
  import opened Replies
  import opened WebhookHandler

  /** The event is fresh, names a customer and has the given type. */
  predicate Applicable(s: Store, ev: Event, eventType: EventType)
  {
    Fresh(s, ev) && IsTruthy(ev.customer) && ev.IsType(EventTypeName(eventType))
  }

  lemma SubscriptionEventTransition(s: Store, ev: Event, now: int)
    requires Applicable(s, ev, SubscriptionCreated) || Applicable(s, ev, SubscriptionUpdated)
    ensures var step := Process(s, ev, now, false);
            var c := ev.customer.value;
            && (IsActiveStatus(ev.status) && ev.currentPeriodEnd.Some? && InDatetimeRange(ev.currentPeriodEnd.value) ==>
                  step.reply.IsProcessed() && step.store.users[c].accessUntil == ev.currentPeriodEnd)
            && (IsActiveStatus(ev.status) && !(ev.currentPeriodEnd.Some? && InDatetimeRange(ev.currentPeriodEnd.value)) ==>
                  step == Step(Err(ProcessingFailed), s))
            && (IsPastDue(ev.status) ==>
                  step.reply.IsProcessed() && step.store.users[c].accessUntil == PriorDeadline(s, c))
            && (!IsActiveStatus(ev.status) && !IsPastDue(ev.status) ==>
                  step.reply.IsProcessed() && step.store.users[c].accessUntil == Some(now))
  {
  }

  /** Deleting the subscription or failing a payment revokes access at once. */
  lemma RevocationTransition(s: Store, ev: Event, now: int)
    requires Applicable(s, ev, SubscriptionDeleted) || Applicable(s, ev, InvoicePaymentFailed)
    ensures var step := Process(s, ev, now, false);
            step.reply.IsProcessed() && step.store.users[ev.customer.value].accessUntil == Some(now)
  {
  }

  lemma InvoicePaidTransition(s: Store, ev: Event, now: int)
    requires Applicable(s, ev, InvoicePaid)
    ensures var step := Process(s, ev, now, false);
            var c := ev.customer.value;
            && step.reply.IsProcessed()
            && (IsTruthy(ev.subscription) ==> step.store.users[c].accessUntil == Some(now + ThirtyDays))
            && (!IsTruthy(ev.subscription) ==> step.store.users[c].accessUntil == PriorDeadline(s, c))
  {
  }

  /** Delivering the same event again, with the same clock and commit outcome,
      leaves the store as one delivery did; once it has been committed, every
      redelivery is reported as already processed and changes nothing. */
  lemma ProcessIdempotent(s: Store, ev: Event, now: int, commitFails: bool, now': int, commitFails': bool)
    requires Fresh(s, ev) ==> ev.HasType()
    ensures var once := Process(s, ev, now, commitFails);
            && Process(once.store, ev, now, commitFails).store == once.store
            && (once.reply.IsProcessed() ==>
                  Process(once.store, ev, now', commitFails') == Step(Ok(AlreadyProcessed), once.store))
  {
  }
}
