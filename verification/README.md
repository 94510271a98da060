# Subscription entitlement state machine

A Dafny model of a small payment-webhook service that grants and revokes a
user's access in response to subscription-lifecycle events. The model covers:

- the event processor of `StripeWebhookHandler.process_webhook_event`:
  idempotent intake, the relevance filter, get-or-create of the customer's
  user, and the transition table from event type and subscription status to
  an access deadline;
- the read-only access evaluator `UserAccessHandler.get_user_access`. Both
  copies of that file are byte-identical, and one function covers both;
- the earlier monolithic processor `handle_stripe_webhook` in `app.py`,
  modelled as a second function over the same store. Cross-revision lemmas
  show where the two revisions agree and where they differ.

Persistence is a pure value: a map from customer id to `User(id,
accessUntil)`, the set of processed event ids, and the counter that hands out
internal user ids. A request returns a `Step`, a reply plus the store it leaves
behind. A rolled-back or never-committed unit of work returns the store it was
given. Time is integer UTC seconds. `now` is a parameter, and so is the
outcome of the database commit (`commitFails`). Thirty days is 2592000
seconds. `datetime.fromtimestamp` raises outside year 1 to year 9999, which
is -62135596800 to 253402300799.

Modules: `Basics` (options, Python truthiness, time constants), `StripeTypes`
(event types, statuses, the event record), `EntitlementStore` (store,
invariant, get-or-create, commit), `Replies` (replies, status codes, message
text), `WebhookHandler` and `HandlerRules` (the later processor),
`AccessHandler`, `LegacyApp` and `LegacyRules` (the earlier processor),
`Scenarios` (processor and evaluator composed) and `Revisions` (the two
processors compared).

Some invariants hold by construction:
- At most one user per customer: the user table is a map keyed by customer id.
- An event id is a key: the ledger is a set.
- The access query is read-only: `Access` returns no store.

`EntitlementStore.Valid` adds three more invariants:
- user ids are unique, at least 1, and below the counter;
- every stored customer id is non-empty;
- every stored event id is non-empty.

The empty store satisfies `Valid` and both processors preserve it, so every
store reachable from an empty database satisfies it.

Three behaviours that differ between the revisions are easy to miss:
- Irrelevant event types. The later handler returns "Event type not
  relevant, ignoring" before it writes the dedup record, so such an event is
  never recorded (stripe_webhook_handler.py:49-50). `app.py` records every
  event that names a customer, whatever its type (app.py:39-48).
- Active subscriptions without a period end. `app.py` falls back to thirty
  days from now, with the comment "shouldn't happen" (app.py:60-64). The later
  handler has no fallback. It passes `None` to `datetime.fromtimestamp`, which
  raises, so the request fails with 500 and nothing is recorded
  (stripe_webhook_handler.py:114-115, 68-70).
- A JSON null `type` is not an absent key. The later handler answers "not
  relevant" (stripe_webhook_handler.py:49-50). `app.py` commits the event and
  keeps the deadline (app.py:50, 72, 79-81).

## Model

| member | source | states |
|---|---|---|
| StripeTypes.ParseEventType | stripe_webhook_handler.py:11-29 | exactly the five names in `RELEVANT_EVENTS` decode to an event type, and each decodes to the type whose wire name it is |
| StripeTypes.EventTypeNameRoundTrip | stripe_webhook_handler.py:11-16 | every event type's wire name is relevant and decodes back to that type |
| StripeTypes.StatusNameRoundTrip | stripe_webhook_handler.py:19-26 | each of the seven subscription statuses has its own wire name that decodes back to it |
| StripeTypes.ParseStatus | stripe_webhook_handler.py:117-125 | a status string decodes to an enum member only when it is that member's value; the active, trialing and past_due tests compare through it |
| EntitlementStore.GetOrCreateUser | stripe_webhook_handler.py:72-86 | an existing customer's user is reused with the counter untouched; an unseen customer gets a user with no deadline and the counter moves past its id; on a valid store the user is new exactly when its id belongs to no existing user, and the id stays below the counter |
| EntitlementStore.EmptyIsValid | models.py:9-17 | an empty database satisfies the key and uniqueness constraints |
| EntitlementStore.CommitKeepsValid | models.py:9-17 | committing a resolved user records the event, reuses or freshly numbers the user, leaves every other user unchanged, writes the computed deadline, and keeps the primary-key and uniqueness constraints |
| WebhookHandler.Process | stripe_webhook_handler.py:34-70 | a missing or empty id is invalid (400); a known id is already processed; an irrelevant type is ignored; a relevant event without a customer is refused (400); each iff its condition in this order. Only a committed event changes the store, and it records the id, resolves exactly the customer's user, reports that user's id and leaves every other user unchanged. Every error leaves the store unchanged, a failed commit included. The store invariant is preserved |
| HandlerRules.SubscriptionEventTransition | stripe_webhook_handler.py:104-125 | created or updated: active or trialing sets the deadline to the period end, or fails the request unchanged (500) when the period end is missing or out of range; past_due keeps the prior deadline; any other or missing status sets it to now |
| HandlerRules.RevocationTransition | stripe_webhook_handler.py:127-141 | subscription deleted and invoice payment failed both set the deadline to now |
| HandlerRules.InvoicePaidTransition | stripe_webhook_handler.py:143-156 | a paid invoice with a truthy subscription reference sets the deadline to now plus thirty days; without one the prior deadline (none for a new user) stays |
| HandlerRules.ProcessIdempotent | stripe_webhook_handler.py:44-46 | redelivering an event with the same clock and commit outcome leaves the store that one delivery left; after a commit every redelivery answers already processed and changes nothing |
| Replies.StatusCode | stripe_webhook_handler.py:41-70 | a reply is 200 exactly when it is a success; 400 exactly for a missing id, a missing customer or missing subscription data; and 500 exactly for a caught processing failure or an unhandled exception |
| Replies.NatToString | stripe_webhook_handler.py:65 | the user id in the success message is a non-empty run of decimal digits without a leading zero |
| Replies.ParseDigits | tests/test_integration.py:16 | reading an integer back from ASCII digits succeeds exactly on a non-empty run of them |
| Replies.NatToStringRoundTrip | tests/test_integration.py:15-16 | reading the decimal text of a user id back gives that id |
| Replies.UserIdRoundTrip | stripe_webhook_handler.py:64-66 | the id a processed reply carries is read back from its message text after "user id " |
| Replies.OnlyProcessedRepliesCarryUserId | stripe_webhook_handler.py:42-70 | no reply other than a processed one with a user id yields an id from its text |
| AccessHandler.Access | user_access_handler.py:10-28 | unknown id iff no user has it (404); otherwise the reported id is the queried one, the deadline is that user's stored deadline (absent iff absent) and access is granted iff the deadline is present and strictly later than now |
| AccessHandler.AccessStatusMatchesStore | user_access_handler.py:17-19 | the query answers 404 exactly when no user in the store has the id, and 200 otherwise |
| AccessHandler.AccessOfCustomer | user_access_handler.py:17-25 | querying a customer's user id reports that customer's own row and no other |
| AccessHandler.AccessBoundIsExclusive | handlers/user_access_handler.py:24-25 | a deadline equal to now denies access and one a second later grants it |
| LegacyApp.ProcessLegacy | app.py:26-84 | a missing or empty id is invalid (400); a known id is already processed; a fresh event without a customer is refused (400); each iff its condition. Every event that names a customer may be committed whatever its type, and a commit records it, resolves the customer's user and leaves every other user unchanged. The "Subscription data not found" reply never happens. Every error leaves the store unchanged. The store invariant is preserved |
| LegacyRules.LegacySubscriptionEventRule | app.py:50-70 | active or trialing with a truthy in-range period end sets it; a truthy out-of-range one crashes unchanged; a missing or zero one gives now plus thirty days; past_due keeps; any other status sets now |
| LegacyRules.LegacyOtherTypesRule | app.py:72-77 | deletion sets now; every other type, invoices and unknown types included, is recorded and creates the user but keeps the deadline |
| LegacyRules.LegacyIdempotent | app.py:36-39 | redelivery leaves the store one delivery left, and after a commit is answered already processed |
| Scenarios.RevocationDeniesAccess | tests/test_integration.py:104-126 | right after a deletion or failed payment at now, the user's access query reports deadline now and no access |
| Scenarios.ActiveSubscriptionGrantsAccess | tests/test_integration.py:5-25 | right after an active subscription with period end T later than now, the query reports deadline T and access |
| Scenarios.InactiveSubscriptionDeniesAccess | tests/test_integration.py:27-45 | right after a canceled, unpaid, incomplete or unknown status, the query reports deadline now and no access |
| Scenarios.PastDueKeepsAccess | tests/test_stripe_webhook.py:86-101 | past_due for a known customer answers exactly as the access query did before |
| Scenarios.PaidInvoiceGrantsAccess | tests/test_integration.py:128-136 | right after a paid invoice with a subscription, the query reports now plus thirty days and access |
| Scenarios.PaidInvoiceWithoutSubscriptionGrantsNothing | tests/test_integration.py:138-150 | a paid invoice without subscription for a new customer creates the user with no deadline and no access |
| Scenarios.DistinctCustomersGetDistinctUsers | tests/test_stripe_webhook.py:250-262 | two committed events for two customers give two different user ids and both event ids recorded |
| Scenarios.LegacyDeletionDeniesAccess | app.py:72-73 | after the earlier processor handles a deletion, the user's query reports deadline now and no access |
| Scenarios.EndToEnd | tests/test_integration.py:47-74 | on an empty store an active subscription for cus_123 creates user 1, whose id the reply text carries, with access; a later deletion revokes it |
| Scenarios.MissingCustomerCreatesNobody | tests/test_integration.py:152-167 | an event without customer is refused with 400, records nothing, and user 1 is then not found |
| Revisions.RevisionsAgreeOnRejectedIds | app.py:31-37 | a missing or already-processed id gets the same reply from both revisions and the store is unchanged |
| Revisions.RevisionsAgreeOnMissingCustomer | app.py:41-43 | a relevant event without a customer is refused by both revisions, unrecorded |
| Revisions.RevisionsAgreeOnDeletion | app.py:72-73 | a deletion leaves the same store in both revisions, which commit together; only the later reply carries the user id |
| Revisions.RevisionsAgreeOnSubscriptionStatus | app.py:55-70 | subscription changes leave the same store in both revisions unless the status is active and the period end is missing, zero or out of range |
| Revisions.RevisionsDifferOnMissingPeriodEnd | app.py:59-64 | active without a usable period end: the earlier revision grants thirty days; the later one fails unchanged when it is missing and grants until the epoch when it is zero |
| Revisions.RevisionsDifferOnOutOfRangePeriodEnd | app.py:59-61 | an out-of-range period end fails both unchanged, caught (500) by the later revision and uncaught in the earlier one |
| Revisions.RevisionsDifferOnIrrelevantType | app.py:45-50 | an unrecognised type is ignored by the later revision but recorded, with the user created and the deadline kept, by the earlier one |
| Revisions.RevisionsDifferOnInvoices | app.py:75 | invoices keep the deadline in the earlier revision; the later one revokes on a failed payment and grants thirty days on a paid invoice with subscription |

## Left out

- HTTP routing, JSON bodies and `ResponseHelper` (routes.py, helpers.py, app.py:10-13, 87-88) are not modelled. A reply is a `Reply` value with its status code and message text.
- The SQLAlchemy session, ORM models and configuration are not modelled. A commit is an atomic functional update and a commit failure is the `commitFails` input. From models.py only the key and uniqueness constraints are kept, as `Valid`.
- After a refused event the session is discarded at request end without a commit, and the model says nothing persists. The test fixture keeps one application context open across requests, so its pending dedup record could be flushed later. That interaction is not modelled.
- `DateTimeNaiveHelper` is not part of this model. Time-zone normalisation and `isoformat()` strings are not modelled. Deadlines are reported as integer UTC seconds, so the naive/aware distinction does not arise.
- The wall clock is the `now` parameter, in whole seconds. `now + 30 days` overflowing past year 9999 is not modelled.
- Signature verification (routes.py:15-18) and fetching the subscription's real period end from the provider (stripe_webhook_handler.py:152-155) are not implemented by the source either.
- WebhookHandler.Process requires the `type` key to be present once the id is fresh. That is where the source indexes `event_data["type"]`, and an absent key raises `KeyError`. A JSON null `type` is modelled and is not relevant.
- LegacyApp.ProcessLegacy requires the `type` key to be present once the customer is resolved, for the same reason. A JSON null `type` is modelled: the event is committed with the deadline kept.
- Payload shapes outside the event record are not modelled: `data` or `data.object` that is not a dictionary, ids or customers that are not strings, and floating-point or string period ends. The record holds only the six keys the processors read.
- The exception text after "Failed to process event: " and the framework's page for an uncaught exception are not modelled.
- Replies.ParseDigits: accepts only ASCII decimal digits. Python's `int` also accepts surrounding whitespace, a sign, underscores between digits and non-ASCII decimal digits (`" 7"`, `"+7"`, `"1_0"`); the model reads none of these. `str` of a user id never produces them.
- Replies.UserIdFromMessage: reads the id only from a message that starts with the success prefix and is followed by plain digits. It does not model Python's `split` and `int` in general.
- AccessHandler.Access requires `UniqueIds`, the primary-key part of `Valid`, so that the lookup by id finds at most one row. The database's primary key guarantees it. The whole of `Valid` holds for every store the processors reach from `Empty`.
- Concurrent delivery of the same event is not modelled. Requests are applied one after another, each atomically.
- tests/test_app.py is stale and is not modelled. It asserts a `has_access` column that models.py does not define.
