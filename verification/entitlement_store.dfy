/** The entitlement store: users keyed by their payment-provider customer id,
    the ledger of processed event ids, and the counter that hands out internal
    user ids. A processor's unit of work is a pure update of this value, so a
    rollback is simply returning the store it was given. */
module EntitlementStore {
  import opened Basics

  /** One row of the user table; `accessUntil` is an exclusive deadline in UTC
      seconds, `None` when access was never granted. */
  datatype User = User(id: nat, accessUntil: Option<int>)

  datatype Store = Store(users: map<string, User>, processed: set<string>, nextId: nat)

  /** An empty database: the first user created gets id 1. */
  const Empty: Store := Store(map[], {}, 1)

  /** The table constraints every reachable store keeps: user ids are a primary
      key handed out below the counter, and only truthy customer and event ids
      are ever stored. The map itself makes the customer id unique and the set
      makes the event id a key. */
  predicate Valid(s: Store)
  {
    && 1 <= s.nextId
    && (forall c :: c in s.users ==> c != "" && 1 <= s.users[c].id < s.nextId)
    && UniqueIds(s)
    && (forall e :: e in s.processed ==> e != "")
  }

  /** The user id is the primary key: no two customers share one. */
  predicate UniqueIds(s: Store)
  {
    forall c, d :: c in s.users && d in s.users && s.users[c].id == s.users[d].id ==> c == d
  }

  /** An empty database keeps the constraints, so every store the processors
      reach from it does. */
  lemma EmptyIsValid()
    ensures Valid(Empty)
  {
  }

  /** The deadline the customer's user has before an event is applied: a user
      created by this event starts with none. */
  function PriorDeadline(s: Store, customer: string): Option<int>
  {
    if customer in s.users then s.users[customer].accessUntil else None
  }

  /** The user an event applies to, and the counter after it was resolved. */
  datatype Resolved = Resolved(user: User, nextId: nat)

  /** Looks the customer up and, when unseen, creates a user with the next id
      and no deadline. On a valid store the user is new exactly when its id
      belongs to no existing user, and the counter stays above every id. */
  function GetOrCreateUser(s: Store, customer: string): (r: Resolved)
    ensures customer in s.users ==> r.user == s.users[customer] && r.nextId == s.nextId
    ensures customer !in s.users ==> r.user.accessUntil == None && r.nextId == r.user.id + 1
    ensures Valid(s) ==> 1 <= r.user.id < r.nextId && s.nextId <= r.nextId
    ensures Valid(s) ==> (customer !in s.users <==> forall c :: c in s.users ==> s.users[c].id != r.user.id)
  {
    if customer in s.users then Resolved(s.users[customer], s.nextId)
    else Resolved(User(s.nextId, None), s.nextId + 1)
  }

  /** What a processor does to a user's deadline. `Raise` is an exception
      thrown while computing the new deadline. */
  datatype Effect = Keep | SetTo(instant: int) | Raise

  function Apply(e: Effect, prior: Option<int>): Option<int>
    requires !e.Raise?
  {
    match e
    case Keep => prior
    case SetTo(t) => Some(t)
  }

  /** The single atomic write a successful event makes: its id joins the
      ledger and the resolved user row is inserted or updated. */
  function Commit(s: Store, eventId: string, customer: string, u: User, nextId: nat): Store
  {
    Store(s.users[customer := u], s.processed + {eventId}, nextId)
  }

  /** What `after` looks like when an event `eventId` for `customer` committed
      and resolved to user `userId`: the id is recorded, the customer's existing
      user was reused or a new one was given the next id, and every other user
      is exactly as before. */
  predicate Committed(before: Store, after: Store, eventId: string, customer: string, userId: nat)
  {
    && after.processed == before.processed + {eventId}
    && after.users.Keys == before.users.Keys + {customer}
    && after.users[customer].id == userId
    && (customer in before.users ==> userId == before.users[customer].id && after.nextId == before.nextId)
    && (customer !in before.users ==> userId == before.nextId && after.nextId == before.nextId + 1)
    && (forall c :: c in before.users && c != customer ==> after.users[c] == before.users[c])
  }

  /** Committing a resolved user with a truthy event id and customer is
      described by `Committed` and keeps the table constraints. */
  lemma CommitKeepsValid(s: Store, eventId: string, customer: string, deadline: Option<int>)
    requires eventId != "" && customer != ""
    ensures var r := GetOrCreateUser(s, customer);
            var after := Commit(s, eventId, customer, r.user.(accessUntil := deadline), r.nextId);
            && Committed(s, after, eventId, customer, r.user.id)
            && after.users[customer].accessUntil == deadline
            && (Valid(s) ==> Valid(after))
  {
  }
}
