# Dokku deployment platform: store, runner and route handlers

This project models the core of a small Node.js service. Through it, subscribers run `dokku` commands on a remote host. The model covers four parts:

- **The record store** (`db.js`). It holds users, their subscriptions, bank-transfer payment claims and applications.
  - A `Store` class keeps the four tables as sequences, together with their AUTOINCREMENT counters.
  - Its methods insert and update rows in place.
  - The read-only queries are functions over the tables.
  - Every method preserves `Valid()`. Under `Valid()`, ids are unique, strictly increasing and below the next id, and subscription creation times increase.
- **The command runner** (`utils/deploykitRunner.js`). A `RemoteHost` stands in for the processes.
  - It answers every command with a fixed `ProcessOutcome`: a launch error, or an exit code with the stdout and stderr chunks.
  - It records the commands it was asked to run.
  - `RunDeployKit` and `StopApplication` are proved equal to the functions `RunSpec` and `StopSpec`, and their contracts are proved as lemmas.
- **The route handlers** of `routes/deploykit.js`, `routes/billing.js` and `routes/admin.js`. Each is a method stating its response and the new store state.
  - The five deploykit routes and POST /applications are split into two parts. A pure guard function (a `Verdict`) states which status and error each refusal gets and when the request goes ahead. The method then ties the response, the commands issued and the new store state to that verdict.
  - GET /subscription, POST /payment, GET /applications and the two admin routes state their refusals and results directly in the method's contract. The status whitelist of verify-payment is the function `AdminRoutes.RequestedVerdict`.
- **`requireAdmin`** of `auth.js`, as the predicate `Http.IsAdmin`.

The model follows the code where the code and its design notes disagree:

- `/stop-app` does not require the application to be `active`. An expired application can be stopped, after which the guards of /restart-app accept it (`DeployRoutes.ExpiredAppRevives`).
- The application quota counts applications of every status.
- `verifyPayment` does not check that the payment is still pending. It re-activates whatever subscription row the payment names, including an expired one.
- The expiry sweep expires every active application of a user who has any expired subscription row, even when the current subscription is active (`DbProperties.StaleExpiredRowCascades`).

Times are integers (seconds). A creation counter `clock` stands in for `created_at`, which fixes the order in which "latest" and "newest first" are decided.

## Model

| member | source | states |
|---|---|---|
| Db.Store.constructor | db.js:8-67 | The four tables start empty, every AUTOINCREMENT counter starts at 1, and the store invariant holds |
| Db.Store.CreateUser | db.js:70-98 | A taken username or email changes nothing and reports it. Otherwise one user row with the next id is inserted, together with its default `starter`/`inactive` subscription |
| Db.FindUser | db.js:101-109 | Finds a row whose username or email equals the identifier. Returns none exactly when no row matches |
| Db.Store.CreateSubscription | db.js:123-137 | A plan outside the CHECK list inserts nothing. Otherwise exactly one row with the next id is inserted, with no end date and the next creation time |
| Db.CurrentSubscription | db.js:140-150 | Returns a row of that user. Returns none exactly when the user has no row |
| DbProperties.CurrentIsLatest | db.js:140-150 | When creation times increase, the current subscription is the user's row created last. A later row of the user always supersedes earlier ones |
| Db.WithSubscriptionStatus | db.js:153-172 | Rows with another id are untouched. Rows with that id get the new status. They keep their end date unless a new one is given. No other column changes |
| Db.Store.UpdateSubscriptionStatus | db.js:153-172 | Every row with that id gets the new status. The end date changes only when one is given, and nothing else changes |
| Db.SubscriptionUpdateKeepsKeys | db.js:153-172 | A status update keeps the subscription table keyed: strictly increasing ids below the next id, known plans, creation times increasing and before the clock |
| Db.Store.CreatePayment | db.js:175-188 | Appends one `pending`, unverified payment row with the next id and the given fields, and returns that id |
| Db.WithVerification | db.js:221-227 | Rows with another id are untouched. Rows with that id get the verdict, the verification time and the verifier. No other column changes |
| Db.Store.VerifyPayment | db.js:220-239 | The payment gets the verdict, verifier and date. `verified` on an existing payment activates its subscription with an end date three months later. `verified` on a missing payment reports failure and leaves subscriptions as they were |
| Db.VerificationKeepsLink | db.js:220-239 | Recording a verdict keeps the payment findable by id, and keeps the subscription it links to |
| Db.VerificationKeepsKeys | db.js:220-239 | Recording a verdict keeps the payment table's keys |
| Db.AddThreeMonths | db.js:232-233 | The granted end date is strictly later than the verification time |
| Db.PaymentById | db.js:242-250 | Returns a row with that id. Returns none exactly when no row has it |
| DbProperties.PaymentByIdFindsRow | db.js:242-250 | With strictly increasing ids, looking up a row's id returns that very row |
| Db.AppendKeepsApplicationsKeyed | db.js:267-272 | A row inserted with the next AUTOINCREMENT id keeps the application ids strictly increasing and below the next id |
| Db.Store.CreateApplication | db.js:253-280 | No active current subscription is refused. A user at the plan's quota (counting every status) is refused with the limit. Otherwise one `active` row with the next id is appended and the user's count grows by one. A refusal changes nothing |
| DbProperties.ApplicationsOfInsert | db.js:253-292 | A newly inserted application of the user comes first in the user's list, before the older ones |
| Db.ApplicationsOf | db.js:283-292 | Holds exactly the user's applications, and is no longer than the table |
| Db.AppLimit | db.js:295-303 | The quota is positive exactly for the three plans, and never above 10 |
| DbProperties.AppLimitTable | db.js:295-303 | The quotas are starter 2, pro 5 and business 10. Any other plan gets 0 |
| Db.WithAppStatusRows | db.js:306-316 | Rows with another id are untouched. Rows with that id get the new status, and no other column changes |
| Db.Store.UpdateApplicationStatus | db.js:306-316 | Every row with that id gets the new status, and nothing else changes |
| Db.ApplicationUpdateKeepsKeys | db.js:306-316 | A status update keeps the application table keyed by strictly increasing ids below the next id |
| DbProperties.SameOwnersSameCount | db.js:283-292 | Two tables with the same owners row by row give every user the same number of applications |
| DbProperties.QuotaIgnoresStatus | db.js:260-265 | Neither a status update nor the expiry cascade changes any user's application count. Stopping or expiring applications never frees quota |
| Db.ExpireOverdue | db.js:320-326 | No row changes anything but its status, and no overdue active row stays active |
| Db.CascadeExpire | db.js:329-337 | No row changes anything but its status, and no application of a user with an expired subscription row stays active |
| Db.Store.CheckExpiredSubscriptions | db.js:319-340 | Subscriptions become `ExpireOverdue` of the old rows. Applications become `CascadeExpire` over the new subscriptions |
| DbProperties.ExpireOverdueRows | db.js:320-326 | Exactly the active rows whose end date is set and past become `expired`. Every other field and row is kept |
| DbProperties.CascadeExpireRows | db.js:329-337 | An application becomes `expired` exactly when it is active and its owner has some expired subscription row. Every other field and row is kept |
| DbProperties.SweepIdempotent | db.js:319-340 | Running the sweep a second time at the same instant changes nothing |
| DbProperties.StaleExpiredRowCascades | db.js:329-337 | An old expired row expires the user's active applications even while the current subscription is active |
| Runner.RemoteHost.constructor | utils/deploykitRunner.js:8-11 | A new host has issued no command |
| Runner.RemoteHost.Spawn | utils/deploykitRunner.js:8-11 | Records the command and returns the host's outcome for it |
| Runner.Collect | utils/deploykitRunner.js:17-24 | The text collected from a stream is the in-order concatenation of its chunks |
| Runner.ConcatAppend | utils/deploykitRunner.js:17-24 | Collecting two runs of chunks gives the two texts joined |
| Runner.ConcatEmpty | utils/deploykitRunner.js:32 | A stream yields the empty text exactly when every chunk it emitted was empty, so `stderr \|\| null` gives null exactly then |
| Runner.RunSpec | utils/deploykitRunner.js:27-43 | Resolves exactly when the process exits. A resolved result reports success exactly on exit code 0 and carries that exit code |
| Runner.RunDeployKit | utils/deploykitRunner.js:5-45 | Issues exactly the given command once and settles as `RunSpec` of the host's outcome |
| Runner.RunSpecContract | utils/deploykitRunner.js:27-43 | Every exit resolves, and only a launch failure rejects, with its message. Success holds exactly on exit code 0. The output is the stdout. The error is the stderr, or null when nothing was written there. The exit code is passed on |
| Runner.RunDeployKitAsWritten | utils/deploykitRunner.js:8-10 | As written, every call rejects with the temporal-dead-zone error, and no command is issued |
| Runner.AsWrittenLosesCleanExit | utils/deploykitRunner.js:8-10 | Even a command that would exit 0 with output is reported as a failure by the code as written |
| Runner.StopCommands | utils/deploykitRunner.js:51-80 | The scale-down to `web=0` always comes first. The forced destroy is issued as a second command exactly when the scale-down does not exit 0. That includes a scale-down that fails to launch, whose later 'close' carries a negative code. Both commands name the application |
| Runner.StopSpec | utils/deploykitRunner.js:69-117 | Success only ever comes from a zero exit. The promise stays unsettled exactly when the fallback runs and cannot launch. A launch-error rejection happens exactly when the scale-down fails to launch |
| Runner.StopSpecContract | utils/deploykitRunner.js:69-117 | A clean scale-down resolves with its stdout. Otherwise a clean destroy resolves with its stdout. A failed destroy rejects with its exit code and its stderr, or "Failed to stop/destroy application <name>" when stderr is empty. A destroy that cannot launch leaves the promise unsettled (`Crashed`). A launch failure of the scale-down rejects with its message |
| Runner.OnScaleDownClose | utils/deploykitRunner.js:69-109 | On exit 0 nothing more is issued and the result is `StopSpec`'s resolution. Otherwise exactly the forced destroy is issued, and the result is `StopSpec` for that close |
| Runner.DestroySettles | utils/deploykitRunner.js:93-106 | The forced destroy resolves exactly on exit 0, with its stdout as output. A launch error crashes. A non-zero exit rejects with its code and its stderr, or "Failed to stop/destroy application <app>" when stderr is empty |
| Runner.ForceDestroyFallback | utils/deploykitRunner.js:78-107 | Issues exactly `apps:destroy <app> --force` and settles as `DestroySettles` of its outcome |
| Runner.StopApplication | utils/deploykitRunner.js:48-119 | Issues `StopCommands` and settles as `StopSpec` of the two outcomes |
| DeployRoutes.RunVerdict | routes/deploykit.js:14-61 | A non-array `args` gets 400. No active subscription gets 403. Any argument naming one of the user's stopped or expired applications gets 403 listing them. The request goes ahead exactly when none of these holds, and the command is `args` itself |
| DeployRoutes.BlockedArgs | routes/deploykit.js:35-39 | The blocked list is no longer than the arguments, and every entry names a stopped or expired application of the user |
| DeployRoutes.BlockedArgsMembers | routes/deploykit.js:33-45 | An argument is listed as blocked exactly when it names a halted application of the user |
| DeployRoutes.BlockedArgsAppend | routes/deploykit.js:33-45 | Blocked arguments are listed in argument order |
| DeployRoutes.RunReply | routes/deploykit.js:50-59 | A resolved run answers 200 with the message and the result spread in. A rejection answers 500 with the failure text and the rejection's error as details (null when empty). The status is 200 exactly when the run resolved |
| DeployRoutes.Run | routes/deploykit.js:14-61 | A refusal issues nothing. A command that goes ahead is issued once and answered 200 with the result, or 500 with the rejection's error |
| DeployRoutes.StatusVerdict | routes/deploykit.js:64-88 | Goes ahead exactly with an active subscription, with the command `apps:list`. Otherwise 403 |
| DeployRoutes.Status | routes/deploykit.js:64-88 | A refusal issues nothing. Otherwise `apps:list` is issued once and its result answered |
| DeployRoutes.DeployVerdict | routes/deploykit.js:91-133 | No project gets 400, and no active subscription gets 403. A project whose newest application of that name is stopped or expired gets 403 "Cannot deploy to application <project> as it is stopped or expired". Otherwise the command is `apps:create <project>` |
| DeployRoutes.Deploy | routes/deploykit.js:91-133 | A refusal issues nothing. Otherwise `apps:create` is issued once, and the answer names the project and the environment (`production` when none is given) |
| DeployRoutes.FindByName | routes/deploykit.js:155-162 | Finds the user's newest application with that name. Returns none exactly when no application has it |
| DeployRoutes.StopVerdict | routes/deploykit.js:136-163 | No name gets 400, and no active subscription gets 403. No application of the user with that name gets 404. Any status goes ahead, including `expired` |
| DeployRoutes.StopReply | routes/deploykit.js:165-187 | A resolved stop is answered 200 with its message and output. Any rejection is answered with a fixed 500. A destroy that cannot launch leaves the request unanswered |
| DeployRoutes.StopApp | routes/deploykit.js:136-188 | A refusal issues nothing and changes nothing. Otherwise the stop commands are issued and the answer is `StopReply`. The application becomes `stopped` exactly when the stop resolved |
| DeployRoutes.StopFound | routes/deploykit.js:164-180 | Stops the application on the host, marks it `stopped` exactly when the stop resolved, and answers `StopReply` |
| DeployRoutes.RestartVerdict | routes/deploykit.js:191-223 | Applies the /stop-app guards, then gives 400 "Application must be in stopped state to restart" to an application that is not `stopped`. Goes ahead exactly with a stopped application of that name |
| DeployRoutes.RestartApp | routes/deploykit.js:191-249 | A refusal issues nothing and changes nothing. Otherwise `ps:scale <app> web=1` is issued once. The application becomes `active` only on exit 0, a non-zero exit answers 500 with the stderr, and a rejection answers a fixed 500 |
| DeployRoutes.InactiveSubscriptionRefusesAll | routes/deploykit.js:25-31 | Without an active current subscription, every deploy route refuses with 403 once its input is well formed |
| DeployRoutes.ApplicationsOfUpdate | db.js:283-316 | Updating a status and then selecting a user's applications gives the same as selecting them and then updating |
| DeployRoutes.FindByNameAfterUpdate | routes/deploykit.js:155-169 | After the found application's status is updated, looking up the same name finds that application with the new status |
| DeployRoutes.KeysIdentifyRows | db.js:306-316 | With strictly increasing ids, an id picks out exactly one row, which is the row that the status update changes |
| DeployRoutes.RestartAcceptsStopped | routes/deploykit.js:209-226 | /restart-app goes ahead with the stopped application that the name lookup finds |
| DeployRoutes.ExpiredAppRevives | routes/deploykit.js:136-249 | Restart refuses an expired application, but /stop-app lets it through. Once it is marked `stopped`, restart goes ahead with it |
| BillingRoutes.GetSubscription | routes/billing.js:15-30 | Answers 404 exactly when the user has no subscription row. Otherwise answers 200 with the current subscription |
| BillingRoutes.CreatePayment | routes/billing.js:33-69 | With no subscription row the answer is 400 before any field is checked, and nothing changes. A missing field is 400 and nothing changes. Otherwise one pending payment is appended, linked to the current subscription whatever its status, and the answer is 201 with its id |
| BillingRoutes.ApplicationVerdict | routes/billing.js:87-125 | No name, no active subscription or a full quota each get 400. The request goes ahead exactly when the name is given, the subscription is active and the user's applications are fewer than the plan's limit |
| BillingRoutes.CreateApplication | routes/billing.js:87-125 | A refusal changes nothing. Going ahead appends exactly one `active` application with the next id, and the answer is 201 |
| BillingRoutes.ListApplications | routes/billing.js:128-144 | The list is exactly `ApplicationsOf` the user: every application of the user, newest first. The used count is the user's number of applications of every status. The limit is the current plan's quota whatever the subscription's status, or 0 without one |
| Http.IsAdmin | auth.js:62-70 | Only a request that carries a user passes, and such a request passes exactly when the username is "admin" |
| AdminRoutes.AdminVerifierIsAdmin | routes/admin.js:30 | Behind the admin guard, the recorded verifier is always "admin" |
| AdminRoutes.RequestedVerdict | routes/admin.js:29-35 | An omitted status means `verified`. Only `verified` and `rejected` are accepted, and `pending` can never be requested |
| AdminRoutes.VerifyPayment | routes/admin.js:26-47 | Anyone but "admin" gets 403 and nothing changes. An invalid status gets 400 and nothing changes. Otherwise the verdict is recorded. `verified` activates the linked subscription for three months, or answers 500 for a missing payment. `rejected` answers 200 and leaves subscriptions alone |
| AdminRoutes.GetPayment | routes/admin.js:50-66 | Anyone but "admin" gets 403. An unknown id gets 404. Otherwise the answer is 200 with the payment that has that id |
| Common.OrNull | utils/deploykitRunner.js:32 | The empty text becomes null, and any other text is kept |

## Left out

- Processes, streams and the event loop are not modelled. The remote host is a fixed answer function, so a command gives the same outcome every time it is issued.
- JWT verification and bcrypt hashing (`auth.js`, `users.js`) are not modelled. The caller's identity is a parameter, and the password hash is stored as given.
- `setMonth(getMonth() + 3)` is modelled as a fixed 90 days (`Db.AddThreeMonths`), because calendar months are not modelled.
- Timestamps: `created_at`, `start_date` and `updated_at` are replaced by a creation counter. `CURRENT_TIMESTAMP` and `new Date()` become a `now` parameter. `end_date < CURRENT_TIMESTAMP` is really a text comparison. It compares the ISO `YYYY-MM-DDTHH:MM:SS.sssZ` end date written by `verifyPayment` with SQLite's `YYYY-MM-DD HH:MM:SS`. Because `T` sorts after a space, a subscription is never overdue on its end date itself; it expires only at a sweep on a later date. The model compares numbers, so it expires the row at any sweep after the end instant.
- The cron schedule that runs the expiry sweep is not modelled. The sweep is a method called with `now`. The scheduled call has no try/catch, so a throwing sweep would go uncaught; that path is not modelled either.
- Concurrency between requests is not modelled. Every handler runs to completion on its own.
- JSON bodies are typed. Non-string values in string fields and numeric strings in numeric fields are not modelled.
- SQLite NOT NULL and foreign-key failures are not modelled. Neither are the 500 answers of the `catch` blocks for database errors. No operation in the model fails that way.
- `updateLastLogin`, `getUserPayments` and `getPendingPayments`, with the admin routes `GET /payments` and `GET /pending-payments`, are not modelled. Nothing in the modelled core depends on them.
- `routes/users.js`, `services/subscriptionService.js`, `seeder.js`, `verify-seed.js`, `ui-server.js` and `test-server.js` are not part of this model.
- The `else` branch in `/stop-app` for a stop that resolves with `success: false` is not modelled. `stopApplication` never resolves that way.
- Runner.RunDeployKit: after a launch error Node also emits 'close', with a negative code. The promise is already rejected, so the later `resolve` has no effect and the model leaves it out.
- Runner.StopApplication: after a scale-down launch error, the later 'close' spawns the forced destroy. The model issues it (`Runner.StopCommands`), but the promise is already rejected, so the request is answered 500 and the status is left as it was. If that destroy exits 0, the application is gone from the host while the store still lists it. If the destroy cannot launch either, its unhandled 'error' kills the server. The model does not capture that crash. It also does not capture whether the 500 reaches the client before the crash.
- DeployRoutes.Run, DeployRoutes.Status, DeployRoutes.Deploy and DeployRoutes.RestartApp are modelled over the corrected runner `Runner.RunDeployKit` (see Findings). Over the code as written (`Runner.RunDeployKitAsWritten`), every request that passes the guards issues nothing. `/run`, `/status` and `/deploy` then answer 500 with details "Cannot access 'process' before initialization". `/restart-app` answers 500 "Failed to restart application" with the same details, and never makes an application `active` again.
- Db.AppLimit: a plan named after an inherited `Object.prototype` member (e.g. `constructor`) is not modelled, because the CHECK constraint keeps such plans out of the table.
- Routes mounted without the authentication middleware (as in `test-server.js`) are not modelled. There `req.user` is absent and every admin route answers 403.
- DeployRoutes.StopReply: the process crash that follows an unhandled 'error' on the destroy process is modelled only as a request that gets no answer.

## Findings

| source | as written | input that shows it | evidently intended | confidence | as-written member | corrected member |
|---|---|---|---|---|---|---|
| utils/deploykitRunner.js:8-10 | `const process = spawn(..., { env: { ...process.env } })` reads the `process` it is declaring. This throws a temporal-dead-zone ReferenceError inside the promise executor, so every call rejects before anything is spawned | any `args`, e.g. `["apps:list"]` with a host that would exit 0 | spread the global `process.env` into the child's environment and run the command | not executed | Runner.RunDeployKitAsWritten | Runner.RunDeployKit |
