/**
 * What the route handlers see and answer: the caller's identity (the Access
 * Gate of auth.js), and the status code and JSON body of a response.
 */
module Http {
  import opened Common
  import opened Records
  import opened Runner

  /** `req.user`, as a verified token carries it. */
  datatype Identity = Identity(id: nat, username: string)

  /** requireAdmin (auth.js): a user on the request whose username is exactly "admin". */
  predicate IsAdmin(caller: Option<Identity>)
    ensures IsAdmin(caller) ==> caller.Some?
    ensures caller.Some? ==> (IsAdmin(caller) <==> caller.value.username == "admin")
  {
    caller.Some? && caller.value.username == "admin"
  }

  /** The JSON bodies the core's handlers send. */
  datatype Body =
    | ErrorBody(error: string, details: Option<string>)
    /** `{ message, ...result }` of a runDeployKit result */
    | Executed(message: string, result: RunResult)
    /** `{ message, ...result }` of a stopApplication result, whose own message wins */
    | StopBody(message: string, output: string)
    | SubscriptionBody(subscription: Subscription)
    | PaymentCreated(message: string, paymentId: nat)
    | ApplicationCreated(message: string, application: Application)
    | ApplicationList(applications: seq<Application>, appLimit: nat, usedApps: nat)
    | MessageBody(message: string)
    | PaymentBody(payment: Payment)

  /** `NoResponse`: the request is never answered because the server process dies. */
  datatype Response = Response(status: nat, body: Body) | NoResponse

  function Fail(status: nat, error: string): Response
  {
    Response(status, ErrorBody(error, None))
  }

  /** A guard's verdict: refuse with a status and an error message, or go ahead with a value. */
  datatype Verdict<T> = Refuse(status: nat, error: string) | Proceed(value: T)
}
