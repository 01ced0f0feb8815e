/**
 * routes/admin.js: payment verification and lookup, both behind requireAdmin.
 * A non-numeric `:id` parses to NaN, which matches no row exactly like an id
 * no payment has; ids are therefore plain integers here.
 */
module AdminRoutes {
  import opened Common
  import opened Records
  import opened Db
  import opened Http

  const AdminOnly := "Access denied. Admin only."

  /** `req.user ? req.user.username : 'admin'` */
  function VerifierName(caller: Option<Identity>): string
  {
    if caller.Some? then caller.value.username else "admin"
  }

  /** Behind requireAdmin the verifier recorded is always "admin". */
  lemma AdminVerifierIsAdmin(caller: Option<Identity>)
    requires IsAdmin(caller)
    ensures VerifierName(caller) == "admin"
  {
  }

  /** The status whitelist: omitted means `verified`; only `verified` and `rejected` pass. */
  function RequestedVerdict(status: Option<string>): (v: Option<VerificationStatus>)
    ensures v.None? <==> status.Some? && status.value != "verified" && status.value != "rejected"
    ensures v.Some? ==> v.value != Pending
    ensures v == Some(Rejected) <==> status == Some("rejected")
  {
    if status.None? || status.value == "verified" then Some(Verified)
    else if status.value == "rejected" then Some(Rejected)
    else None
  }

  /**
   * POST /verify-payment/:id: refused for anyone but "admin", refused for a
   * status outside the whitelist, otherwise the payment's verdict is recorded
   * with "admin" as verifier and, for `verified`, its subscription activated.
   */
  method VerifyPayment(store: Store, caller: Option<Identity>, paymentId: int, status: Option<string>, now: int)
    returns (r: Response)
    requires store.Valid()
    modifies store`payments, store`subscriptions
    ensures store.Valid()
    ensures !IsAdmin(caller) ==> r == Fail(403, AdminOnly) && unchanged(store)
    ensures IsAdmin(caller) && RequestedVerdict(status).None? ==>
      r == Fail(400, "Invalid verification status. Use \"verified\" or \"rejected\".") && unchanged(store)
    ensures IsAdmin(caller) && RequestedVerdict(status).Some? ==>
      var verdict := RequestedVerdict(status).value;
      var found := PaymentById(old(store.payments), paymentId);
      && store.payments == WithVerification(old(store.payments), paymentId, verdict, "admin", now)
      && (verdict == Verified && found.Some? ==>
            store.subscriptions == WithSubscriptionStatus(old(store.subscriptions), found.value.subscriptionId,
                                                          SubActive, Some(AddThreeMonths(now)))
            && r == Response(200, MessageBody("Payment verified successfully")))
      && (verdict == Verified && found.None? ==>
            store.subscriptions == old(store.subscriptions) && r == Fail(500, "Internal server error"))
      && (verdict == Rejected ==>
            store.subscriptions == old(store.subscriptions) && r == Response(200, MessageBody("Payment rejected successfully")))
  {
    if !IsAdmin(caller) {
      return Fail(403, AdminOnly);
    }
    var adminUsername := VerifierName(caller);
    var verdict := RequestedVerdict(status);
    if verdict.None? {
      return Fail(400, "Invalid verification status. Use \"verified\" or \"rejected\".");
    }
    var ok := store.VerifyPayment(paymentId, adminUsername, verdict.value, now);
    if ok {
      r := Response(200, MessageBody(if verdict.value == Verified then "Payment verified successfully"
                                     else "Payment rejected successfully"));
    } else {
      r := Fail(500, "Internal server error");
    }
  }

  /** GET /payments/:id: refused for anyone but "admin", 404 when no payment has the id. */
  method GetPayment(store: Store, caller: Option<Identity>, paymentId: int) returns (r: Response)
    ensures !IsAdmin(caller) ==> r == Fail(403, AdminOnly)
    ensures IsAdmin(caller) && (forall p :: p in store.payments ==> p.id != paymentId) ==>
      r == Fail(404, "Payment not found")
    ensures IsAdmin(caller) && (exists p :: p in store.payments && p.id == paymentId) ==>
      r.Response? && r.status == 200 && r.body.PaymentBody?
      && r.body.payment in store.payments && r.body.payment.id == paymentId
  {
    if !IsAdmin(caller) {
      return Fail(403, AdminOnly);
    }
    var payment := PaymentById(store.payments, paymentId);
    if payment.None? {
      return Fail(404, "Payment not found");
    }
    r := Response(200, PaymentBody(payment.value));
  }
}
