/** The user-row updates of lib/stripe.ts. The `User` and `Payment` tables are the fields of a
    `UserTable`; the clock is the `now` parameter. The Stripe SDK calls are not part of this
    model. */
module Stripe {
  import opened Collections
  import opened Schema

  /** The columns of a `User` row that the two updates read or write. */
  datatype UserRecord = UserRecord(
    role: Role, stripeCustomerId: Option<string>, subscriptionId: Option<string>,
    subscriptionStatus: Option<SubscriptionStatus>, updatedAt: int)

  datatype Payment = Payment(userId: string, status: PaymentStatus)

  function IsCompletedBy(userId: string): Payment -> bool
  {
    (p: Payment) => p.userId == userId && p.status == Completed
  }

  /** The `select ... where userId and status = 'completed' limit 1` query. */
  function CompletedPaymentsQuery(payments: seq<Payment>, userId: string): (r: seq<Payment>)
    ensures |r| <= 1
    ensures r != [] <==> exists i :: 0 <= i < |payments| && payments[i].userId == userId
                                   && payments[i].status == Completed
  {
    var matching := Filter(payments, IsCompletedBy(userId));
    assert forall i :: 0 <= i < |payments| && IsCompletedBy(userId)(payments[i]) ==> matching != [];
    assert matching != [] ==>
      IsCompletedBy(userId)(matching[0]) && exists i :: 0 <= i < |payments| && payments[i] == matching[0];
    SlicePrefix(matching, 1)
  }

  /** The role written by `updateUserSubscriptionStatus`. */
  function SubscriptionRole(status: SubscriptionStatus, shouldMaintainPaidStatus: bool): (r: Role)
    ensures r == PaidUser <==> status == Active || shouldMaintainPaidStatus
    ensures r != Admin
  {
    if status == Active then PaidUser else if shouldMaintainPaidStatus then PaidUser else User
  }

  /** The row after `updateUserToPaid`; an absent subscription id leaves that column as it was. */
  function PaidRecord(u: UserRecord, stripeCustomerId: string, subscriptionId: Option<string>,
                      now: int): (r: UserRecord)
    ensures r.role == PaidUser && r.subscriptionStatus == Some(Active)
    ensures r.stripeCustomerId == Some(stripeCustomerId)
    ensures r.subscriptionId == if subscriptionId.Some? then subscriptionId else u.subscriptionId
    ensures r.updatedAt == now
  {
    u.(role := PaidUser, stripeCustomerId := Some(stripeCustomerId),
       subscriptionId := if subscriptionId.Some? then subscriptionId else u.subscriptionId,
       subscriptionStatus := Some(Active), updatedAt := now)
  }

  /** The row after `updateUserSubscriptionStatus`: status and role replaced, the customer and
      subscription ids kept. */
  function StatusRecord(u: UserRecord, status: SubscriptionStatus, hasCompletedPayments: bool,
                        now: int): (r: UserRecord)
    ensures r.subscriptionStatus == Some(status)
    ensures r.role == PaidUser <==> status == Active || hasCompletedPayments
    ensures r.role != PaidUser ==> r.role == User
    ensures r.stripeCustomerId == u.stripeCustomerId && r.subscriptionId == u.subscriptionId
    ensures r.updatedAt == now
  {
    u.(subscriptionStatus := Some(status), role := SubscriptionRole(status, hasCompletedPayments),
       updatedAt := now)
  }

  /** The new role does not depend on the previous one: an admin whose subscription lapses
      without a completed payment becomes a plain user. */
  lemma RoleIgnoresPreviousRole(u: UserRecord, v: UserRecord, status: SubscriptionStatus,
                                hasCompletedPayments: bool, now: int)
    ensures StatusRecord(u, status, hasCompletedPayments, now).role
         == StatusRecord(v, status, hasCompletedPayments, now).role
    ensures u.role == Admin && status != Active && !hasCompletedPayments ==>
      StatusRecord(u, status, hasCompletedPayments, now).role == User
  {
  }

  /** Paying and then receiving an `active` status event gives the same role and status. */
  lemma PaidThenActive(u: UserRecord, customerId: string, subscriptionId: Option<string>,
                       hasCompletedPayments: bool, now: int, later: int)
    ensures StatusRecord(PaidRecord(u, customerId, subscriptionId, now), Active,
                         hasCompletedPayments, later)
         == PaidRecord(u, customerId, subscriptionId, later)
  {
  }

  /** The `User` table keyed by id, and the `Payment` table. */
  class UserTable {
    var users: map<string, UserRecord>
    var payments: seq<Payment>

    constructor (users: map<string, UserRecord>, payments: seq<Payment>)
      ensures this.users == users && this.payments == payments
    {
      this.users := users;
      this.payments := payments;
    }

    /** `updateUserToPaid`: the row with id `userId`, if there is one, becomes a paid user with
        an active subscription; no other row changes. */
    method UpdateUserToPaid(userId: string, stripeCustomerId: string, subscriptionId: Option<string>,
                            now: int)
      modifies this
      ensures payments == old(payments)
      ensures userId in old(users) ==>
        users == old(users)[userId := PaidRecord(old(users)[userId], stripeCustomerId, subscriptionId, now)]
      ensures userId !in old(users) ==> users == old(users)
    {
      if userId in users {
        users := users[userId := PaidRecord(users[userId], stripeCustomerId, subscriptionId, now)];
      }
    }

    /** `updateUserSubscriptionStatus`: looks for one completed payment of the user, then writes
        the status and the role that follows from it into that user's row only. */
    method UpdateUserSubscriptionStatus(userId: string, status: SubscriptionStatus, now: int)
      modifies this
      ensures payments == old(payments)
      ensures userId in old(users) ==>
        users == old(users)[userId := StatusRecord(old(users)[userId], status,
                                                   CompletedPaymentsQuery(payments, userId) != [], now)]
      ensures userId !in old(users) ==> users == old(users)
    {
      var hasCompletedPayments := CompletedPaymentsQuery(payments, userId);
      var shouldMaintainPaidStatus := |hasCompletedPayments| > 0;
      if userId in users {
        users := users[userId := StatusRecord(users[userId], status, shouldMaintainPaidStatus, now)];
      }
    }
  }

  /** A paying user keeps the paid role through a cancellation. */
  method CancelAfterPayment(table: UserTable, userId: string, i: nat, now: int)
    modifies table
    requires i < |table.payments| && table.payments[i] == Payment(userId, Completed)
    requires userId in table.users
    ensures userId in table.users && table.users[userId].role == PaidUser
    ensures table.users[userId].subscriptionStatus == Some(Canceled)
    ensures forall id :: id in old(table.users) && id != userId ==>
      id in table.users && table.users[id] == old(table.users)[id]
  {
    table.UpdateUserSubscriptionStatus(userId, Canceled, now);
  }
}
