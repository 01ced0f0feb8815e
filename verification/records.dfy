/** The rows of the four tables and the values their CHECK constraints allow. */
module Records {
  import opened Common

  /** subscriptions.status */
  datatype SubscriptionStatus = SubActive | SubInactive | SubExpired | SubPendingPayment

  /** applications.status */
  datatype AppStatus = AppActive | AppStopped | AppExpired

  /** payments.verification_status */
  datatype VerificationStatus = Pending | Verified | Rejected

  /** The plan tiers subscriptions.plan_type admits. */
  predicate IsPlan(plan: string)
  {
    plan == "starter" || plan == "pro" || plan == "business"
  }

  datatype User = User(id: nat, username: string, email: string, passwordHash: string)

  /** `created` is the creation order that `created_at` stands for; `endDate` is NULL until activation. */
  datatype Subscription = Subscription(
    id: nat,
    userId: nat,
    plan: string,
    status: SubscriptionStatus,
    endDate: Option<int>,
    created: nat)

  datatype Payment = Payment(
    id: nat,
    userId: nat,
    subscriptionId: nat,
    amount: real,
    paymentMethod: string,
    bankAccountName: string,
    bankAccountNumber: string,
    reference: Option<string>,
    status: VerificationStatus,
    verifiedAt: Option<int>,
    verifiedBy: Option<string>,
    notes: Option<string>)

  datatype Application = Application(id: nat, userId: nat, name: string, status: AppStatus)
}
