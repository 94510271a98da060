/** The event vocabulary the processor recognises, and the decoded shape of
    one inbound event. */
module StripeTypes {
  import opened Basics

  /** The five event types the later handler acts on. */
  datatype EventType =
    | SubscriptionCreated
    | SubscriptionUpdated
    | SubscriptionDeleted
    | InvoicePaymentFailed
    | InvoicePaid

  function EventTypeName(t: EventType): string
  {
    match t
    case SubscriptionCreated => "customer.subscription.created"
    case SubscriptionUpdated => "customer.subscription.updated"
    case SubscriptionDeleted => "customer.subscription.deleted"
    case InvoicePaymentFailed => "invoice.payment_failed"
    case InvoicePaid => "invoice.paid"
  }

  /** The wire names of the relevant event types. */
  const RelevantEvents: set<string> := {
    "customer.subscription.created",
    "customer.subscription.updated",
    "customer.subscription.deleted",
    "invoice.payment_failed",
    "invoice.paid"
  }

  /** Decodes a wire type name; `None` for every type the handler ignores. */
  function ParseEventType(s: string): (r: Option<EventType>)
    ensures r.Some? <==> s in RelevantEvents
    ensures r.Some? ==> EventTypeName(r.value) == s
  {
    if s == "customer.subscription.created" then Some(SubscriptionCreated)
    else if s == "customer.subscription.updated" then Some(SubscriptionUpdated)
    else if s == "customer.subscription.deleted" then Some(SubscriptionDeleted)
    else if s == "invoice.payment_failed" then Some(InvoicePaymentFailed)
    else if s == "invoice.paid" then Some(InvoicePaid)
    else None
  }

  /** Every event type's wire name is relevant and decodes back to that type. */
  lemma EventTypeNameRoundTrip(t: EventType)
    ensures EventTypeName(t) in RelevantEvents
    ensures ParseEventType(EventTypeName(t)) == Some(t)
  {
  }

  /** The subscription statuses the payment provider reports. */
  datatype SubscriptionStatus =
    | Active
    | Trialing
    | PastDue
    | Canceled
    | Unpaid
    | Incomplete
    | IncompleteExpired

  function StatusName(st: SubscriptionStatus): string
  {
    match st
    case Active => "active"
    case Trialing => "trialing"
    case PastDue => "past_due"
    case Canceled => "canceled"
    case Unpaid => "unpaid"
    case Incomplete => "incomplete"
    case IncompleteExpired => "incomplete_expired"
  }

  function ParseStatus(s: string): (r: Option<SubscriptionStatus>)
    ensures r.Some? ==> StatusName(r.value) == s
  {
    if s == "active" then Some(Active)
    else if s == "trialing" then Some(Trialing)
    else if s == "past_due" then Some(PastDue)
    else if s == "canceled" then Some(Canceled)
    else if s == "unpaid" then Some(Unpaid)
    else if s == "incomplete" then Some(Incomplete)
    else if s == "incomplete_expired" then Some(IncompleteExpired)
    else None
  }

  /** Distinct statuses have distinct wire names, and each decodes back to itself. */
  lemma StatusNameRoundTrip(st: SubscriptionStatus)
    ensures ParseStatus(StatusName(st)) == Some(st)
  {
  }

  /** A status that grants access up to the end of the current period:
      `active` or `trialing`. An absent status is not active. */
  predicate IsActiveStatus(status: Option<string>)
  {
    status.Some? && ParseStatus(status.value) in {Some(Active), Some(Trialing)}
  }

  /** A status that leaves the stored deadline alone. */
  predicate IsPastDue(status: Option<string>)
  {
    status.Some? && ParseStatus(status.value) == Some(PastDue)
  }

  /** The top-level `type` key. The processors index it, which raises when
      the key is absent; a JSON null is present but equals no type name. */
  datatype TypeField = Absent | Null | Named(name: string)

  /** The only parts of an inbound event the processors read: the top-level
      `id` and `type`, and the `customer`, `status`, `current_period_end` and
      `subscription` keys of `data.object`. Those keys are read with `.get`, so
      an absent key and a JSON null are the same `None`. */
  datatype Event = Event(
    id: Option<string>,
    eventType: TypeField,
    customer: Option<string>,
    status: Option<string>,
    currentPeriodEnd: Option<int>,
    subscription: Option<string>)
  {
    /** The `type` key is present, so indexing it does not raise. */
    predicate HasType()
    {
      !eventType.Absent?
    }

    predicate IsType(name: string)
    {
      eventType == Named(name)
    }

    /** The type is one of `RELEVANT_EVENTS`; a null type is not. */
    predicate IsRelevant()
    {
      eventType.Named? && eventType.name in RelevantEvents
    }

    /** The recognised event type, if any. */
    function Kind(): (r: Option<EventType>)
      ensures r.Some? <==> IsRelevant()
      ensures r.Some? ==> IsType(EventTypeName(r.value))
    {
      if eventType.Named? then ParseEventType(eventType.name) else None
    }

    /** `data.object` is an empty dictionary: none of its keys are present. */
    predicate ObjectIsEmpty()
    {
      customer.None? && status.None? && currentPeriodEnd.None? && subscription.None?
    }
  }
}
