/**
 * The record store of db.js: read-only queries as functions over the tables,
 * the UPDATE statements and the expiry sweep as functions on rows, and the
 * store itself as a class whose methods insert and update rows in place.
 */
module Db {
  import opened Common
  import opened Records

  // ------------------------------------------------------------------ queries

  /** findUser: the first row whose username or email equals the identifier. */
  function FindUser(users: seq<User>, identifier: string): (r: Option<User>)
    ensures r.Some? ==> r.value in users && (r.value.username == identifier || r.value.email == identifier)
    ensures r.None? <==> forall u :: u in users ==> u.username != identifier && u.email != identifier
  {
    if |users| == 0 then None
    else if users[0].username == identifier || users[0].email == identifier then Some(users[0])
    else FindUser(users[1..], identifier)
  }

  /**
   * getUserSubscription: the user's row that was created last
   * (ORDER BY created_at DESC LIMIT 1), or none when the user has no row.
   */
  function CurrentSubscription(subs: seq<Subscription>, userId: nat): (r: Option<Subscription>)
    ensures r.None? <==> forall s :: s in subs ==> s.userId != userId
    ensures r.Some? ==> r.value in subs && r.value.userId == userId
  {
    if |subs| == 0 then None
    else if subs[|subs| - 1].userId == userId then Some(subs[|subs| - 1])
    else CurrentSubscription(subs[..|subs| - 1], userId)
  }

  /** getApplicationsByUser: the user's applications, newest first (ORDER BY created_at DESC). */
  function ApplicationsOf(apps: seq<Application>, userId: nat): (r: seq<Application>)
    ensures forall a :: a in r <==> a in apps && a.userId == userId
    ensures |r| <= |apps|
  {
    if |apps| == 0 then []
    else
      var last := apps[|apps| - 1];
      (if last.userId == userId then [last] else []) + ApplicationsOf(apps[..|apps| - 1], userId)
  }

  /** getAppLimitByPlan: the application quota of a plan tier; unknown tiers fail closed. */
  function AppLimit(plan: string): (limit: nat)
    ensures limit > 0 <==> IsPlan(plan)
    ensures limit <= 10
  {
    if plan == "starter" then 2
    else if plan == "pro" then 5
    else if plan == "business" then 10
    else 0
  }

  /** getPaymentById: the row with that id, or none. */
  function PaymentById(payments: seq<Payment>, id: int): (r: Option<Payment>)
    ensures r.Some? ==> r.value in payments && r.value.id == id
    ensures r.None? <==> forall p :: p in payments ==> p.id != id
  {
    if |payments| == 0 then None
    else if payments[0].id == id then Some(payments[0])
    else PaymentById(payments[1..], id)
  }

  /** The entitlement test every guarded operation applies to the current subscription. */
  predicate IsActive(sub: Option<Subscription>)
  {
    sub.Some? && sub.value.status == SubActive
  }

  // ------------------------------------------------ UPDATE ... WHERE id = ?

  /** updateSubscriptionStatus: the status always, end_date only when a new one is given. */
  function WithSubscriptionStatus(subs: seq<Subscription>, id: int, status: SubscriptionStatus, endDate: Option<int>): (r: seq<Subscription>)
    ensures |r| == |subs|
    ensures forall i :: 0 <= i < |subs| && subs[i].id != id ==> r[i] == subs[i]
    ensures forall i :: 0 <= i < |subs| && subs[i].id == id ==>
      && r[i].(status := subs[i].status, endDate := subs[i].endDate) == subs[i]
      && r[i].status == status
      && r[i].endDate == (if endDate.Some? then endDate else subs[i].endDate)
  {
    seq(|subs|, i requires 0 <= i < |subs| =>
      if subs[i].id == id
      then subs[i].(status := status, endDate := if endDate.Some? then endDate else subs[i].endDate)
      else subs[i])
  }

  /** updateApplicationStatus */
  function WithAppStatus(apps: seq<Application>, id: int, status: AppStatus): seq<Application>
  {
    seq(|apps|, i requires 0 <= i < |apps| =>
      if apps[i].id == id then apps[i].(status := status) else apps[i])
  }

  /** updateApplicationStatus touches the status column of the rows with that id and nothing else. */
  lemma WithAppStatusRows(apps: seq<Application>, id: int, status: AppStatus)
    ensures |WithAppStatus(apps, id, status)| == |apps|
    ensures forall i :: 0 <= i < |apps| && apps[i].id != id ==> WithAppStatus(apps, id, status)[i] == apps[i]
    ensures forall i :: 0 <= i < |apps| && apps[i].id == id ==>
      && WithAppStatus(apps, id, status)[i].(status := apps[i].status) == apps[i]
      && WithAppStatus(apps, id, status)[i].status == status
  {
  }

  /** The first statement of verifyPayment: status, verification date and verifier. */
  function WithVerification(payments: seq<Payment>, id: int, status: VerificationStatus, verifiedBy: string, now: int): (r: seq<Payment>)
    ensures |r| == |payments|
    ensures forall i :: 0 <= i < |payments| && payments[i].id != id ==> r[i] == payments[i]
    ensures forall i :: 0 <= i < |payments| && payments[i].id == id ==>
      && r[i].(status := payments[i].status, verifiedAt := payments[i].verifiedAt, verifiedBy := payments[i].verifiedBy) == payments[i]
      && r[i].status == status && r[i].verifiedAt == Some(now) && r[i].verifiedBy == Some(verifiedBy)
  {
    seq(|payments|, i requires 0 <= i < |payments| =>
      if payments[i].id == id
      then payments[i].(status := status, verifiedAt := Some(now), verifiedBy := Some(verifiedBy))
      else payments[i])
  }

  /** Updating a payment's verification keeps its lookup and its link to a subscription. */
  lemma VerificationKeepsLink(payments: seq<Payment>, id: int, status: VerificationStatus, verifiedBy: string, now: int)
    ensures PaymentById(WithVerification(payments, id, status, verifiedBy, now), id).Some?
        <==> PaymentById(payments, id).Some?
    ensures PaymentById(payments, id).Some? ==>
      PaymentById(WithVerification(payments, id, status, verifiedBy, now), id).value.subscriptionId
        == PaymentById(payments, id).value.subscriptionId
  {
    if |payments| > 0 {
      assert WithVerification(payments, id, status, verifiedBy, now)[1..]
          == WithVerification(payments[1..], id, status, verifiedBy, now);
      VerificationKeepsLink(payments[1..], id, status, verifiedBy, now);
    }
  }

  // ------------------------------------------------------------ expiry sweep

  /** The span `setMonth(getMonth() + 3)` adds, as a fixed number of seconds (90 days). */
  const ThreeMonths: nat := 7776000

  /** The end date a verified payment grants: strictly later than the verification time. */
  function AddThreeMonths(t: int): (r: int)
    ensures r > t
  {
    t + ThreeMonths
  }

  /** `end_date < CURRENT_TIMESTAMP AND status = 'active'`; a NULL end date compares false. */
  predicate Overdue(s: Subscription, now: int)
  {
    s.status == SubActive && s.endDate.Some? && s.endDate.value < now
  }

  /** The first statement of checkExpiredSubscriptions. */
  function ExpireOverdue(subs: seq<Subscription>, now: int): (r: seq<Subscription>)
    ensures |r| == |subs|
    ensures forall i :: 0 <= i < |subs| ==> r[i].(status := subs[i].status) == subs[i]
    ensures forall i :: 0 <= i < |subs| ==> r[i].status != SubActive || !Overdue(subs[i], now)
  {
    seq(|subs|, i requires 0 <= i < |subs| =>
      if Overdue(subs[i], now) then subs[i].(status := SubExpired) else subs[i])
  }

  /** `user_id IN (SELECT user_id FROM subscriptions WHERE status = 'expired')` */
  predicate HasExpiredSubscription(subs: seq<Subscription>, userId: nat)
  {
    exists s :: s in subs && s.userId == userId && s.status == SubExpired
  }

  /** The second statement of checkExpiredSubscriptions. */
  function CascadeExpire(apps: seq<Application>, subs: seq<Subscription>): (r: seq<Application>)
    ensures |r| == |apps|
    ensures forall i :: 0 <= i < |apps| ==> r[i].(status := apps[i].status) == apps[i]
    ensures forall i :: 0 <= i < |apps| && HasExpiredSubscription(subs, apps[i].userId) ==> r[i].status != AppActive
  {
    seq(|apps|, i requires 0 <= i < |apps| =>
      if apps[i].status == AppActive && HasExpiredSubscription(subs, apps[i].userId)
      then apps[i].(status := AppExpired)
      else apps[i])
  }

  // --------------------------------------------------------- table invariants

  /** created_at orders the subscription rows as they were inserted. */
  ghost predicate CreatedIncreasing(subs: seq<Subscription>)
  {
    forall i, j :: 0 <= i < j < |subs| ==> subs[i].created < subs[j].created
  }

  /** AUTOINCREMENT keys and the UNIQUE columns of `users`. */
  ghost predicate UsersKeyed(users: seq<User>, next: nat)
  {
    && (forall i, j :: 0 <= i < j < |users| ==> users[i].id < users[j].id)
    && (forall i :: 0 <= i < |users| ==> users[i].id < next)
    && (forall i, j :: 0 <= i < j < |users| ==>
          users[i].username != users[j].username && users[i].email != users[j].email)
  }

  /** AUTOINCREMENT keys, insertion order and the plan_type CHECK of `subscriptions`. */
  ghost predicate SubscriptionsKeyed(subs: seq<Subscription>, next: nat, clock: nat)
  {
    && (forall i, j :: 0 <= i < j < |subs| ==> subs[i].id < subs[j].id)
    && (forall i :: 0 <= i < |subs| ==> subs[i].id < next && subs[i].created < clock)
    && (forall i :: 0 <= i < |subs| ==> IsPlan(subs[i].plan))
    && CreatedIncreasing(subs)
  }

  ghost predicate PaymentsKeyed(payments: seq<Payment>, next: nat)
  {
    && (forall i, j :: 0 <= i < j < |payments| ==> payments[i].id < payments[j].id)
    && (forall i :: 0 <= i < |payments| ==> payments[i].id < next)
  }

  ghost predicate ApplicationsKeyed(apps: seq<Application>, next: nat)
  {
    && (forall i, j :: 0 <= i < j < |apps| ==> apps[i].id < apps[j].id)
    && (forall i :: 0 <= i < |apps| ==> apps[i].id < next)
  }

  /** A status update changes no key, no creation order and no plan, so the table stays keyed. */
  lemma SubscriptionUpdateKeepsKeys(subs: seq<Subscription>, id: int, status: SubscriptionStatus, endDate: Option<int>,
                                    next: nat, clock: nat)
    requires SubscriptionsKeyed(subs, next, clock)
    ensures SubscriptionsKeyed(WithSubscriptionStatus(subs, id, status, endDate), next, clock)
  {
    var after := WithSubscriptionStatus(subs, id, status, endDate);
    assert forall i :: 0 <= i < |subs| ==>
      after[i].id == subs[i].id && after[i].created == subs[i].created && after[i].plan == subs[i].plan;
  }

  lemma ApplicationUpdateKeepsKeys(apps: seq<Application>, id: int, status: AppStatus, next: nat)
    requires ApplicationsKeyed(apps, next)
    ensures ApplicationsKeyed(WithAppStatus(apps, id, status), next)
  {
    var after := WithAppStatus(apps, id, status);
    assert forall i :: 0 <= i < |apps| ==> after[i].id == apps[i].id;
  }

  /** A row inserted with the next AUTOINCREMENT id keeps the applications table keyed. */
  lemma AppendKeepsApplicationsKeyed(apps: seq<Application>, next: nat, app: Application)
    requires ApplicationsKeyed(apps, next) && app.id == next
    ensures ApplicationsKeyed(apps + [app], next + 1)
  {
  }

  lemma VerificationKeepsKeys(payments: seq<Payment>, id: int, status: VerificationStatus, verifiedBy: string,
                              now: int, next: nat)
    requires PaymentsKeyed(payments, next)
    ensures PaymentsKeyed(WithVerification(payments, id, status, verifiedBy, now), next)
  {
    var after := WithVerification(payments, id, status, verifiedBy, now);
    assert forall i :: 0 <= i < |payments| ==> after[i].id == payments[i].id;
  }

  // ------------------------------------------------------------ store results

  /** createUser's result: `{success: true, userId}` or the UNIQUE-constraint failure. */
  datatype CreateUserResult = UserCreated(userId: nat) | UserExists

  /** The two errors createApplication throws. */
  datatype CreateAppError = NoActiveSubscription | LimitReached(maxApps: nat)

  datatype AppCreation = Created(app: Application) | Refused(error: CreateAppError)

  // -------------------------------------------------------------------- store

  class Store {
    var users: seq<User>
    var subscriptions: seq<Subscription>
    var payments: seq<Payment>
    var applications: seq<Application>
    var nextUserId: nat
    var nextSubscriptionId: nat
    var nextPaymentId: nat
    var nextApplicationId: nat
    /** Creation counter standing in for `created_at`. */
    var clock: nat

    ghost predicate Valid()
      reads this
    {
      && UsersKeyed(users, nextUserId)
      && SubscriptionsKeyed(subscriptions, nextSubscriptionId, clock)
      && PaymentsKeyed(payments, nextPaymentId)
      && ApplicationsKeyed(applications, nextApplicationId)
    }

    /** Empty tables; AUTOINCREMENT keys start at 1. */
    constructor ()
      ensures Valid()
      ensures users == [] && subscriptions == [] && payments == [] && applications == []
      ensures nextUserId == 1 && nextSubscriptionId == 1 && nextPaymentId == 1 && nextApplicationId == 1
      ensures clock == 0
    {
      users, subscriptions, payments, applications := [], [], [], [];
      nextUserId, nextSubscriptionId, nextPaymentId, nextApplicationId := 1, 1, 1, 1;
      clock := 0;
    }

    /** createSubscription: inserts one row; a plan outside the CHECK list throws and inserts nothing. */
    method CreateSubscription(userId: nat, plan: string, status: SubscriptionStatus) returns (r: Option<Subscription>)
      requires Valid()
      modifies this`subscriptions, this`nextSubscriptionId, this`clock
      ensures Valid()
      ensures r.None? <==> !IsPlan(plan)
      ensures r.None? ==> unchanged(this)
      ensures r.Some? ==> r.value == Subscription(old(nextSubscriptionId), userId, plan, status, None, old(clock))
      ensures r.Some? ==> subscriptions == old(subscriptions) + [r.value]
      ensures r.Some? ==> nextSubscriptionId == old(nextSubscriptionId) + 1 && clock == old(clock) + 1
    {
      if !IsPlan(plan) {
        return None;
      }
      var s := Subscription(nextSubscriptionId, userId, plan, status, None, clock);
      subscriptions := subscriptions + [s];
      nextSubscriptionId := nextSubscriptionId + 1;
      clock := clock + 1;
      r := Some(s);
    }

    /**
     * createUser: one user row and its default starter/inactive subscription,
     * or nothing at all when the username or the email is taken.
     */
    method CreateUser(username: string, email: string, passwordHash: string) returns (r: CreateUserResult)
      requires Valid()
      modifies this`users, this`nextUserId, this`subscriptions, this`nextSubscriptionId, this`clock
      ensures Valid()
      ensures r.UserExists? <==> exists u :: u in old(users) && (u.username == username || u.email == email)
      ensures r.UserExists? ==> unchanged(this)
      ensures r.UserCreated? ==>
        && r.userId == old(nextUserId)
        && users == old(users) + [User(r.userId, username, email, passwordHash)]
        && subscriptions == old(subscriptions) + [Subscription(old(nextSubscriptionId), r.userId, "starter", SubInactive, None, old(clock))]
        && nextUserId == old(nextUserId) + 1
        && nextSubscriptionId == old(nextSubscriptionId) + 1
        && clock == old(clock) + 1
    {
      if exists u :: u in users && (u.username == username || u.email == email) {
        return UserExists;
      }
      var id := nextUserId;
      users := users + [User(id, username, email, passwordHash)];
      nextUserId := nextUserId + 1;
      var s := CreateSubscription(id, "starter", SubInactive);
      r := UserCreated(id);
    }

    /** updateSubscriptionStatus */
    method UpdateSubscriptionStatus(subscriptionId: int, status: SubscriptionStatus, endDate: Option<int>)
      requires Valid()
      modifies this`subscriptions
      ensures Valid()
      ensures subscriptions == WithSubscriptionStatus(old(subscriptions), subscriptionId, status, endDate)
    {
      SubscriptionUpdateKeepsKeys(subscriptions, subscriptionId, status, endDate, nextSubscriptionId, clock);
      subscriptions := WithSubscriptionStatus(subscriptions, subscriptionId, status, endDate);
    }

    /** createPayment: one pending row, linked to the given subscription. */
    method CreatePayment(userId: nat, subscriptionId: nat, amount: real, paymentMethod: string,
                         bankAccountName: string, bankAccountNumber: string,
                         reference: Option<string>, notes: Option<string>) returns (paymentId: nat)
      requires Valid()
      modifies this`payments, this`nextPaymentId
      ensures Valid()
      ensures paymentId == old(nextPaymentId) && nextPaymentId == old(nextPaymentId) + 1
      ensures payments == old(payments) + [Payment(paymentId, userId, subscriptionId, amount, paymentMethod,
                                                   bankAccountName, bankAccountNumber, reference,
                                                   Pending, None, None, notes)]
    {
      paymentId := nextPaymentId;
      payments := payments + [Payment(paymentId, userId, subscriptionId, amount, paymentMethod,
                                      bankAccountName, bankAccountNumber, reference,
                                      Pending, None, None, notes)];
      nextPaymentId := nextPaymentId + 1;
    }

    /**
     * verifyPayment: records the verdict and the verifier; only a `verified`
     * verdict activates the linked subscription until three months from now.
     * `ok` is false where the source throws: a `verified` verdict for an id no
     * payment has (the lookup yields undefined).
     */
    method VerifyPayment(paymentId: int, verifiedBy: string, status: VerificationStatus, now: int) returns (ok: bool)
      requires Valid()
      modifies this`payments, this`subscriptions
      ensures Valid()
      ensures payments == WithVerification(old(payments), paymentId, status, verifiedBy, now)
      ensures ok <==> status != Verified || PaymentById(old(payments), paymentId).Some?
      ensures status == Verified && PaymentById(old(payments), paymentId).Some? ==>
        subscriptions == WithSubscriptionStatus(old(subscriptions),
                           PaymentById(old(payments), paymentId).value.subscriptionId,
                           SubActive, Some(AddThreeMonths(now)))
      ensures !(status == Verified && PaymentById(old(payments), paymentId).Some?) ==>
        subscriptions == old(subscriptions)
    {
      VerificationKeepsLink(payments, paymentId, status, verifiedBy, now);
      VerificationKeepsKeys(payments, paymentId, status, verifiedBy, now, nextPaymentId);
      payments := WithVerification(payments, paymentId, status, verifiedBy, now);
      ok := true;
      if status == Verified {
        var payment := PaymentById(payments, paymentId);
        match payment
        case None =>
          ok := false;
        case Some(p) =>
          UpdateSubscriptionStatus(p.subscriptionId, SubActive, Some(AddThreeMonths(now)));
      }
    }

    /**
     * createApplication: refuses without an active current subscription, then
     * refuses when the user's applications of ANY status already fill the
     * plan's quota; otherwise inserts one `active` application.
     */
    method CreateApplication(userId: nat, name: string) returns (r: AppCreation)
      requires Valid()
      modifies this`applications, this`nextApplicationId
      ensures Valid()
      ensures r.Refused? ==> unchanged(this)
      ensures r == Refused(NoActiveSubscription) <==> !IsActive(CurrentSubscription(old(subscriptions), userId))
      ensures (r.Refused? && r.error.LimitReached?) <==>
        (IsActive(CurrentSubscription(old(subscriptions), userId))
         && |ApplicationsOf(old(applications), userId)| >= AppLimit(CurrentSubscription(old(subscriptions), userId).value.plan))
      ensures r.Refused? && r.error.LimitReached? ==>
        r.error.maxApps == AppLimit(CurrentSubscription(old(subscriptions), userId).value.plan)
      ensures r.Created? ==> r.app == Application(old(nextApplicationId), userId, name, AppActive)
      ensures r.Created? ==> applications == old(applications) + [r.app]
      ensures r.Created? ==> nextApplicationId == old(nextApplicationId) + 1
      ensures r.Created? ==> |ApplicationsOf(applications, userId)| == |ApplicationsOf(old(applications), userId)| + 1
    {
      var subscription := CurrentSubscription(subscriptions, userId);
      if !IsActive(subscription) {
        return Refused(NoActiveSubscription);
      }
      var appCount := |ApplicationsOf(applications, userId)|;
      var maxApps := AppLimit(subscription.value.plan);
      if appCount >= maxApps {
        return Refused(LimitReached(maxApps));
      }
      var app := Application(nextApplicationId, userId, name, AppActive);
      ghost var before := applications;
      AppendKeepsApplicationsKeyed(applications, nextApplicationId, app);
      applications := applications + [app];
      nextApplicationId := nextApplicationId + 1;
      assert applications[..|applications| - 1] == before;
      assert ApplicationsOf(applications, userId) == [app] + ApplicationsOf(before, userId);
      r := Created(app);
    }

    /** updateApplicationStatus */
    method UpdateApplicationStatus(appId: int, status: AppStatus)
      requires Valid()
      modifies this`applications
      ensures Valid()
      ensures applications == WithAppStatus(old(applications), appId, status)
    {
      ApplicationUpdateKeepsKeys(applications, appId, status, nextApplicationId);
      applications := WithAppStatus(applications, appId, status);
    }

    /**
     * checkExpiredSubscriptions: expire the overdue subscriptions, then every
     * active application of a user who has some expired subscription row.
     */
    method CheckExpiredSubscriptions(now: int)
      requires Valid()
      modifies this`subscriptions, this`applications
      ensures Valid()
      ensures subscriptions == ExpireOverdue(old(subscriptions), now)
      ensures applications == CascadeExpire(old(applications), subscriptions)
    {
      subscriptions := ExpireOverdue(subscriptions, now);
      applications := CascadeExpire(applications, subscriptions);
    }
  }
}
