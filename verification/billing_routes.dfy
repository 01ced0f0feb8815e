/**
 * routes/billing.js: the current subscription, payment claims, and the
 * quota-guarded creation and listing of applications.
 */
module BillingRoutes {
  import opened Common
  import opened Records
  import opened Db
  import opened Http

  /** GET /subscription: the current subscription, or 404 when the user has no row at all. */
  method GetSubscription(store: Store, user: Identity) returns (r: Response)
    ensures r.Response? && (r.status == 200 || r.status == 404)
    ensures r.status == 404 <==> forall s :: s in store.subscriptions ==> s.userId != user.id
    ensures r.status == 404 ==> r == Fail(404, "No subscription found")
    ensures r.status == 200 ==>
      r.body.SubscriptionBody? && r.body.subscription in store.subscriptions
      && r.body.subscription.userId == user.id
      && Some(r.body.subscription) == CurrentSubscription(store.subscriptions, user.id)
  {
    var subscription := CurrentSubscription(store.subscriptions, user.id);
    if subscription.None? {
      return Fail(404, "No subscription found");
    }
    r := Response(200, SubscriptionBody(subscription.value));
  }

  /** `!amount` for a numeric amount: absent and zero are falsy. */
  predicate AmountPresent(amount: Option<real>)
  {
    amount.Some? && amount.value != 0.0
  }

  /** The four fields POST /payment insists on (reference and notes are optional). */
  predicate PaymentFieldsGiven(amount: Option<real>, paymentMethod: Option<string>,
                               bankAccountName: Option<string>, bankAccountNumber: Option<string>)
  {
    AmountPresent(amount) && Present(paymentMethod) && Present(bankAccountName) && Present(bankAccountNumber)
  }

  const PaymentFieldsRequired := "Amount, payment method, bank account name, and bank account number are required"

  /**
   * POST /payment: a user without any subscription is refused before the
   * fields are looked at; with all four fields, one pending payment linked to
   * the current subscription (whatever its status) is recorded.
   */
  method CreatePayment(store: Store, user: Identity, amount: Option<real>, paymentMethod: Option<string>,
                       bankAccountName: Option<string>, bankAccountNumber: Option<string>,
                       paymentReference: Option<string>, notes: Option<string>) returns (r: Response)
    requires store.Valid()
    modifies store`payments, store`nextPaymentId
    ensures store.Valid()
    ensures CurrentSubscription(store.subscriptions, user.id).None? ==>
      r == Fail(400, "No subscription found for user") && unchanged(store)
    ensures CurrentSubscription(store.subscriptions, user.id).Some?
            && !PaymentFieldsGiven(amount, paymentMethod, bankAccountName, bankAccountNumber)
      ==> r == Fail(400, PaymentFieldsRequired) && unchanged(store)
    ensures CurrentSubscription(store.subscriptions, user.id).Some?
            && PaymentFieldsGiven(amount, paymentMethod, bankAccountName, bankAccountNumber)
      ==>
      && r == Response(201, PaymentCreated("Payment record created successfully", old(store.nextPaymentId)))
      && store.nextPaymentId == old(store.nextPaymentId) + 1
      && store.payments == old(store.payments) + [Payment(old(store.nextPaymentId), user.id,
                                                           CurrentSubscription(store.subscriptions, user.id).value.id,
                                                           amount.value, paymentMethod.value, bankAccountName.value,
                                                           bankAccountNumber.value, paymentReference, Pending,
                                                           None, None, notes)]
  {
    var subscription := CurrentSubscription(store.subscriptions, user.id);
    if subscription.None? {
      return Fail(400, "No subscription found for user");
    }
    if !PaymentFieldsGiven(amount, paymentMethod, bankAccountName, bankAccountNumber) {
      return Fail(400, PaymentFieldsRequired);
    }
    var paymentId := store.CreatePayment(user.id, subscription.value.id, amount.value, paymentMethod.value,
                                         bankAccountName.value, bankAccountNumber.value, paymentReference, notes);
    r := Response(201, PaymentCreated("Payment record created successfully", paymentId));
  }

  /**
   * The POST /applications guards: a name, an active current subscription,
   * and fewer applications (of any status) than the plan's quota. They refuse
   * exactly where createApplication would.
   */
  function ApplicationVerdict(name: Option<string>, sub: Option<Subscription>, apps: seq<Application>): (v: Verdict<string>)
    ensures !Present(name) ==> v == Refuse(400, "Application name is required")
    ensures Present(name) && !IsActive(sub) ==>
      v == Refuse(400, "You need an active subscription to create applications")
    ensures v.Proceed? <==> Present(name) && IsActive(sub) && |apps| < AppLimit(sub.value.plan)
    ensures v.Proceed? ==> v.value == name.value
    ensures v.Refuse? ==> v.status == 400
  {
    if !Present(name) then Refuse(400, "Application name is required")
    else if !IsActive(sub) then Refuse(400, "You need an active subscription to create applications")
    else
      var maxApps := AppLimit(sub.value.plan);
      if |apps| >= maxApps
      then Refuse(400, "You have reached the limit of " + DecimalString(maxApps) + " applications for your plan. Upgrade to create more.")
      else Proceed(name.value)
  }

  /** POST /applications: one new `active` application exactly when the guards let the name through. */
  method CreateApplication(store: Store, user: Identity, name: Option<string>) returns (r: Response)
    requires store.Valid()
    modifies store`applications, store`nextApplicationId
    ensures store.Valid()
    ensures match ApplicationVerdict(name, CurrentSubscription(store.subscriptions, user.id), ApplicationsOf(old(store.applications), user.id))
      case Refuse(status, error) => r == Fail(status, error) && unchanged(store)
      case Proceed(appName) =>
        var app := Application(old(store.nextApplicationId), user.id, appName, AppActive);
        && store.applications == old(store.applications) + [app]
        && store.nextApplicationId == old(store.nextApplicationId) + 1
        && r == Response(201, ApplicationCreated("Application created successfully", app))
  {
    var verdict := ApplicationVerdict(name, CurrentSubscription(store.subscriptions, user.id), ApplicationsOf(store.applications, user.id));
    match verdict
    case Refuse(status, error) =>
      r := Fail(status, error);
    case Proceed(appName) =>
      var created := store.CreateApplication(user.id, appName);
      match created
      case Created(app) =>
        r := Response(201, ApplicationCreated("Application created successfully", app));
      case Refused(_) =>
        // the guards above already refuse everything createApplication refuses
        assert false;
  }

  /**
   * GET /applications: every application of the user, newest first, the
   * quota of the current plan whatever the subscription's status (0 without
   * one), and the number of applications of every status.
   */
  method ListApplications(store: Store, user: Identity) returns (r: Response)
    ensures r.Response? && r.status == 200 && r.body.ApplicationList?
    ensures forall a :: a in r.body.applications <==> a in store.applications && a.userId == user.id
    ensures r.body.applications == ApplicationsOf(store.applications, user.id)
    ensures r.body.usedApps == |ApplicationsOf(store.applications, user.id)|
    ensures CurrentSubscription(store.subscriptions, user.id).None? ==> r.body.appLimit == 0
    ensures CurrentSubscription(store.subscriptions, user.id).Some? ==>
      r.body.appLimit == AppLimit(CurrentSubscription(store.subscriptions, user.id).value.plan)
  {
    var applications := ApplicationsOf(store.applications, user.id);
    var subscription := CurrentSubscription(store.subscriptions, user.id);
    var appLimit := if subscription.Some? then AppLimit(subscription.value.plan) else 0;
    r := Response(200, ApplicationList(applications, appLimit, |applications|));
  }
}
