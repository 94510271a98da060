/** The read-only access evaluator: looks a user up by internal id and
    compares the stored deadline with the current instant. */
module AccessHandler {
  import opened Basics
  import opened EntitlementStore

  datatype AccessReport = AccessReport(userId: nat, accessUntil: Option<int>, hasAccess: bool)

  datatype AccessReply = Found(report: AccessReport) | UserNotFound

  function AccessStatusCode(r: AccessReply): nat
  {
    if r.Found? then 200 else 404
  }

  /** A user is known to the store under internal id `userId`. */
  predicate HasUserId(s: Store, userId: int)
  {
    exists c :: c in s.users && s.users[c].id == userId
  }

  /** The access status of user `userId` at instant `now`. The deadline is
      exclusive, so a deadline equal to `now` gives no access. The answer is
      computed from the store alone and no store is returned: the query is
      read-only. */
  function Access(s: Store, userId: int, now: int): (r: AccessReply)
    requires UniqueIds(s)
    ensures r.UserNotFound? <==> !HasUserId(s, userId)
    ensures r.Found? ==>
              && r.report.userId == userId
              && (exists c :: c in s.users && s.users[c] == User(userId, r.report.accessUntil))
    ensures r.Found? ==>
              (r.report.hasAccess <==> r.report.accessUntil.Some? && r.report.accessUntil.value > now)
  {
    if HasUserId(s, userId) then
      var c :| c in s.users && s.users[c].id == userId;
      var u := s.users[c];
      Found(AccessReport(u.id, u.accessUntil, u.accessUntil.Some? && u.accessUntil.value > now))
    else
      UserNotFound
  }

  /** The access reported for a customer's user is that user's own row: the id
      lookup finds no other customer. */
  lemma AccessOfCustomer(s: Store, customer: string, now: int)
    requires UniqueIds(s) && customer in s.users
    ensures var u := s.users[customer];
            Access(s, u.id, now)
              == Found(AccessReport(u.id, u.accessUntil, u.accessUntil.Some? && u.accessUntil.value > now))
  {
  }

  /** The exclusive bound: a deadline equal to the query instant denies
      access, and one second later than it grants access. */
  lemma AccessBoundIsExclusive(s: Store, customer: string, now: int)
    requires UniqueIds(s) && customer in s.users && s.users[customer].accessUntil.Some?
    ensures var u := s.users[customer];
            && (u.accessUntil.value == now ==> !Access(s, u.id, now).report.hasAccess)
            && (u.accessUntil.value == now + 1 ==> Access(s, u.id, now).report.hasAccess)
  {
  }

  /** The query answers 404 exactly when no user in the store has the id,
      and 200 otherwise. */
  lemma AccessStatusMatchesStore(s: Store, userId: int, now: int)
    requires UniqueIds(s)
    ensures AccessStatusCode(Access(s, userId, now)) == 404 <==> !HasUserId(s, userId)
    ensures AccessStatusCode(Access(s, userId, now)) == 200 <==> HasUserId(s, userId)
  {
  }
}
