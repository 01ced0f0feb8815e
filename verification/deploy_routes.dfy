/**
 * routes/deploykit.js: the guarded handlers in front of the runner. Each guard
 * is a function over the current subscription and the user's applications;
 * each handler issues a remote command only when its guard lets it through and
 * writes an application status only after the remote side reported success.
 */
module DeployRoutes {
  import opened Common
  import opened Records
  import opened Db
  import opened Runner
  import opened Http

  /** `req.body.args`: omitted (it then defaults to []), an array, or any other value. */
  datatype Args = ArgsOmitted | ArgsList(items: seq<string>) | ArgsNotList

  function ArgList(args: Args): seq<string>
  {
    if args.ArgsList? then args.items else []
  }

  predicate Halted(app: Application)
  {
    app.status == AppStopped || app.status == AppExpired
  }

  /** `applications.some(app => app.name === arg && (stopped || expired))` */
  predicate NamesHaltedApp(apps: seq<Application>, arg: string)
  {
    exists a :: a in apps && a.name == arg && Halted(a)
  }

  /** `args.filter(...)`: the arguments that name one of the user's halted applications. */
  function BlockedArgs(args: seq<string>, apps: seq<Application>): (r: seq<string>)
    ensures |r| <= |args|
    ensures forall i :: 0 <= i < |r| ==> NamesHaltedApp(apps, r[i])
  {
    if |args| == 0 then []
    else (if NamesHaltedApp(apps, args[0]) then [args[0]] else []) + BlockedArgs(args[1..], apps)
  }

  /** An argument is blocked exactly when it names a halted application of the user. */
  lemma {:induction false} BlockedArgsMembers(args: seq<string>, apps: seq<Application>)
    ensures forall x :: x in BlockedArgs(args, apps) <==> x in args && NamesHaltedApp(apps, x)
  {
    if |args| > 0 {
      BlockedArgsMembers(args[1..], apps);
      assert args == [args[0]] + args[1..];
    }
  }

  /** The filter keeps argument order and repetitions: it distributes over concatenation. */
  lemma {:induction false} BlockedArgsAppend(a: seq<string>, b: seq<string>, apps: seq<Application>)
    ensures BlockedArgs(a + b, apps) == BlockedArgs(a, apps) + BlockedArgs(b, apps)
  {
    if |a| == 0 {
      assert a + b == b;
    } else {
      assert (a + b)[1..] == a[1..] + b;
      BlockedArgsAppend(a[1..], b, apps);
    }
  }

  /** `applications.find(a => a.name === name)`: the first match of the newest-first list. */
  function FindByName(apps: seq<Application>, name: string): (r: Option<Application>)
    ensures r.None? <==> forall a :: a in apps ==> a.name != name
    ensures r.Some? ==> r.value in apps && r.value.name == name
    ensures r.Some? ==> exists k :: 0 <= k < |apps| && apps[k] == r.value && forall j :: 0 <= j < k ==> apps[j].name != name
  {
    if |apps| == 0 then None
    else if apps[0].name == name then Some(apps[0])
    else
      var r := FindByName(apps[1..], name);
      assert r.Some? ==> exists k :: 0 <= k < |apps| && apps[k] == r.value && forall j :: 0 <= j < k ==> apps[j].name != name by {
        if r.Some? {
          var k :| 0 <= k < |apps[1..]| && apps[1..][k] == r.value && forall j :: 0 <= j < k ==> apps[1..][j].name != name;
          assert apps[k + 1] == r.value;
          assert forall j :: 0 <= j < k + 1 ==> apps[j].name != name by {
            forall j | 0 <= j < k + 1 ensures apps[j].name != name {
              if j > 0 { assert apps[j] == apps[1..][j - 1]; }
            }
          }
        }
      }
      r
  }

  const ArgsNotArray := "Args must be an array of command arguments"
  const ManageNeedsSubscription := "You need an active subscription to manage applications"
  const NameRequired := "Application name is required"
  const NotYours := "Application not found or does not belong to you"

  function BlockedMessage(names: seq<string>): string
  {
    "Cannot run commands on application(s) " + JoinWith(names, ", ") + " as they are stopped or expired"
  }

  /**
   * How a settled runDeployKit promise is answered: the result spread into a
   * 200 body, or a 500 whose details are the rejection's `error`.
   */
  function RunReply(outcome: RunOutcome, okMessage: string, failure: string): (r: Response)
    ensures outcome.Resolved? ==> r == Response(200, Executed(okMessage, outcome.result))
    ensures outcome.Rejected? ==> r == Response(500, ErrorBody(failure, OrNull(outcome.error)))
    ensures r.Response? && (r.status == 200 <==> outcome.Resolved?)
  {
    match outcome
    case Resolved(result) => Response(200, Executed(okMessage, result))
    case Rejected(e) => Response(500, ErrorBody(failure, OrNull(e)))
  }

  // --------------------------------------------------------------- POST /run

  /**
   * The /run guards, in order: `args` must be an array, the current
   * subscription active, and no argument the name of a stopped or expired
   * application of the user; the command is then `args` itself.
   */
  function RunVerdict(args: Args, sub: Option<Subscription>, apps: seq<Application>): (v: Verdict<Command>)
    ensures args.ArgsNotList? ==> v == Refuse(400, ArgsNotArray)
    ensures !args.ArgsNotList? && !IsActive(sub) ==>
      v == Refuse(403, "You need an active subscription to run Dokku commands")
    ensures v.Proceed? <==>
      !args.ArgsNotList? && IsActive(sub) && forall x :: x in ArgList(args) ==> !NamesHaltedApp(apps, x)
    ensures v.Proceed? ==> v.value == ArgList(args)
    ensures !args.ArgsNotList? && IsActive(sub) && v.Refuse? ==>
      v == Refuse(403, BlockedMessage(BlockedArgs(ArgList(args), apps)))
  {
    if args.ArgsNotList? then Refuse(400, ArgsNotArray)
    else if !IsActive(sub) then Refuse(403, "You need an active subscription to run Dokku commands")
    else
      var blocked := BlockedArgs(ArgList(args), apps);
      BlockedArgsMembers(ArgList(args), apps);
      if |blocked| > 0 then
        assert blocked[0] in blocked;
        Refuse(403, BlockedMessage(blocked))
      else Proceed(ArgList(args))
  }

  method Run(store: Store, host: RemoteHost, user: Identity, args: Args) returns (r: Response)
    modifies host`issued
    ensures match RunVerdict(args, CurrentSubscription(store.subscriptions, user.id), ApplicationsOf(store.applications, user.id))
      case Refuse(status, error) => r == Fail(status, error) && host.issued == old(host.issued)
      case Proceed(cmd) =>
        && host.issued == old(host.issued) + [cmd]
        && r == RunReply(RunSpec(host.respond(cmd)), "Dokku command executed successfully", "Failed to execute Dokku command")
  {
    var verdict := RunVerdict(args, CurrentSubscription(store.subscriptions, user.id), ApplicationsOf(store.applications, user.id));
    match verdict
    case Refuse(status, error) =>
      r := Fail(status, error);
    case Proceed(cmd) =>
      var outcome := RunDeployKit(host, cmd);
      r := RunReply(outcome, "Dokku command executed successfully", "Failed to execute Dokku command");
  }

  // ------------------------------------------------------------- GET /status

  function StatusVerdict(sub: Option<Subscription>): (v: Verdict<Command>)
    ensures v.Proceed? <==> IsActive(sub)
    ensures v.Proceed? ==> v.value == ["apps:list"]
    ensures v.Refuse? ==> v.status == 403
  {
    if !IsActive(sub) then Refuse(403, "You need an active subscription to check Dokku status")
    else Proceed(["apps:list"])
  }

  method Status(store: Store, host: RemoteHost, user: Identity) returns (r: Response)
    modifies host`issued
    ensures match StatusVerdict(CurrentSubscription(store.subscriptions, user.id))
      case Refuse(status, error) => r == Fail(status, error) && host.issued == old(host.issued)
      case Proceed(cmd) =>
        && host.issued == old(host.issued) + [cmd]
        && r == RunReply(RunSpec(host.respond(cmd)), "Dokku status retrieved successfully", "Failed to get Dokku status")
  {
    var verdict := StatusVerdict(CurrentSubscription(store.subscriptions, user.id));
    match verdict
    case Refuse(status, error) =>
      r := Fail(status, error);
    case Proceed(cmd) =>
      var outcome := RunDeployKit(host, cmd);
      r := RunReply(outcome, "Dokku status retrieved successfully", "Failed to get Dokku status");
  }

  // ------------------------------------------------------------ POST /deploy

  /**
   * The /deploy guards: a project name, an active subscription, and the
   * user's newest application of that name (if any) neither stopped nor
   * expired; the command is then `apps:create <project>`.
   */
  function DeployVerdict(project: Option<string>, sub: Option<Subscription>, apps: seq<Application>): (v: Verdict<Command>)
    ensures !Present(project) ==> v == Refuse(400, "Project name is required")
    ensures Present(project) && !IsActive(sub) ==> v == Refuse(403, "You need an active subscription to deploy projects")
    ensures v.Proceed? <==>
      Present(project) && IsActive(sub)
      && (FindByName(apps, project.value).None? || !Halted(FindByName(apps, project.value).value))
    ensures v.Proceed? ==> v.value == ["apps:create", project.value]
    ensures Present(project) && IsActive(sub)
            && FindByName(apps, project.value).Some? && Halted(FindByName(apps, project.value).value)
      ==> v == Refuse(403, "Cannot deploy to application " + project.value + " as it is stopped or expired")
    ensures v.Refuse? ==> v.status in {400, 403}
  {
    if !Present(project) then Refuse(400, "Project name is required")
    else if !IsActive(sub) then Refuse(403, "You need an active subscription to deploy projects")
    else
      var app := FindByName(apps, project.value);
      if app.Some? && Halted(app.value)
      then Refuse(403, "Cannot deploy to application " + project.value + " as it is stopped or expired")
      else Proceed(["apps:create", project.value])
  }

  method Deploy(store: Store, host: RemoteHost, user: Identity, project: Option<string>, environment: Option<string>)
    returns (r: Response)
    modifies host`issued
    ensures match DeployVerdict(project, CurrentSubscription(store.subscriptions, user.id), ApplicationsOf(store.applications, user.id))
      case Refuse(status, error) => r == Fail(status, error) && host.issued == old(host.issued)
      case Proceed(cmd) =>
        var env := if environment.Some? then environment.value else "production";
        && host.issued == old(host.issued) + [cmd]
        && r == RunReply(RunSpec(host.respond(cmd)),
                         "Deployment of " + project.value + " to " + env + " initiated successfully",
                         "Failed to deploy project")
  {
    var verdict := DeployVerdict(project, CurrentSubscription(store.subscriptions, user.id), ApplicationsOf(store.applications, user.id));
    match verdict
    case Refuse(status, error) =>
      r := Fail(status, error);
    case Proceed(cmd) =>
      var env := if environment.Some? then environment.value else "production";
      var outcome := RunDeployKit(host, cmd);
      r := RunReply(outcome, "Deployment of " + project.value + " to " + env + " initiated successfully",
                    "Failed to deploy project");
  }

  // ---------------------------------------------------------- POST /stop-app

  /**
   * The /stop-app guards: a name, an active subscription, and an application
   * of the user with that name, whatever its status (an expired one passes).
   */
  function StopVerdict(appName: Option<string>, sub: Option<Subscription>, apps: seq<Application>): (v: Verdict<Application>)
    ensures !Present(appName) ==> v == Refuse(400, NameRequired)
    ensures Present(appName) && !IsActive(sub) ==> v == Refuse(403, ManageNeedsSubscription)
    ensures Present(appName) && IsActive(sub) && (forall a :: a in apps ==> a.name != appName.value) ==>
      v == Refuse(404, NotYours)
    ensures v.Proceed? <==> Present(appName) && IsActive(sub) && exists a :: a in apps && a.name == appName.value
    ensures v.Proceed? ==> v.value in apps && v.value.name == appName.value
  {
    if !Present(appName) then Refuse(400, NameRequired)
    else if !IsActive(sub) then Refuse(403, ManageNeedsSubscription)
    else
      var app := FindByName(apps, appName.value);
      if app.None? then Refuse(404, NotYours) else Proceed(app.value)
  }

  /**
   * The /stop-app answer to a settled stop: the runner's message and output on
   * success, a fixed 500 on any rejection (its text is not passed on), and
   * no answer at all when the destroy process could not launch.
   */
  function StopReply(outcome: StopOutcome): (r: Response)
    ensures r.Response? <==> !outcome.Crashed?
    ensures r.Response? ==> (r.status == 200 <==> outcome.StopResolved?)
    ensures r.Response? && r.status != 200 ==> r == Fail(500, "Failed to stop application")
    ensures outcome.StopResolved? ==> r == Response(200, StopBody(outcome.message, outcome.output))
  {
    match outcome
    case StopResolved(message, output) => Response(200, StopBody(message, output))
    case LaunchRejected(_) => Fail(500, "Failed to stop application")
    case DestroyRejected(_, _) => Fail(500, "Failed to stop application")
    case Crashed(_) => NoResponse
  }

  /**
   * POST /stop-app: the application becomes `stopped` only when the stop
   * resolved (scaled down or destroyed); a rejection answers 500 and leaves
   * the status, a destroy that cannot launch leaves the request unanswered.
   */
  method StopApp(store: Store, host: RemoteHost, user: Identity, appName: Option<string>) returns (r: Response)
    requires store.Valid()
    modifies host`issued, store`applications
    ensures store.Valid()
    ensures match StopVerdict(appName, CurrentSubscription(store.subscriptions, user.id), ApplicationsOf(old(store.applications), user.id))
      case Refuse(status, error) =>
        r == Fail(status, error) && host.issued == old(host.issued) && store.applications == old(store.applications)
      case Proceed(app) =>
        var name := appName.value;
        var outcome := StopSpec(name, host.respond(ScaleDown(name)), host.respond(ForceDestroy(name)));
        && host.issued == old(host.issued) + StopCommands(name, host.respond(ScaleDown(name)))
        && r == StopReply(outcome)
        && store.applications == if outcome.StopResolved?
                                 then WithAppStatus(old(store.applications), app.id, AppStopped)
                                 else old(store.applications)
  {
    var verdict := StopVerdict(appName, CurrentSubscription(store.subscriptions, user.id), ApplicationsOf(store.applications, user.id));
    match verdict
    case Refuse(status, error) =>
      r := Fail(status, error);
    case Proceed(app) =>
      r := StopFound(store, host, app.id, appName.value);
  }

  /** The /stop-app work once the guards passed: stop, then mark `stopped` on success. */
  method StopFound(store: Store, host: RemoteHost, appId: nat, name: string) returns (r: Response)
    requires store.Valid()
    modifies host`issued, store`applications
    ensures store.Valid()
    ensures host.issued == old(host.issued) + StopCommands(name, host.respond(ScaleDown(name)))
    ensures r == StopReply(StopSpec(name, host.respond(ScaleDown(name)), host.respond(ForceDestroy(name))))
    ensures store.applications == if StopSpec(name, host.respond(ScaleDown(name)), host.respond(ForceDestroy(name))).StopResolved?
                                  then WithAppStatus(old(store.applications), appId, AppStopped)
                                  else old(store.applications)
  {
    var outcome := StopApplication(host, name);
    if outcome.StopResolved? {
      store.UpdateApplicationStatus(appId, AppStopped);
    }
    r := StopReply(outcome);
  }

  // ------------------------------------------------------- POST /restart-app

  /** The /restart-app guards: those of /stop-app, then the application must be `stopped`. */
  function RestartVerdict(appName: Option<string>, sub: Option<Subscription>, apps: seq<Application>): (v: Verdict<Application>)
    ensures !Present(appName) ==> v == Refuse(400, NameRequired)
    ensures Present(appName) && !IsActive(sub) ==> v == Refuse(403, ManageNeedsSubscription)
    ensures Present(appName) && IsActive(sub) && (forall a :: a in apps ==> a.name != appName.value) ==>
      v == Refuse(404, NotYours)
    ensures v.Proceed? <==>
      Present(appName) && IsActive(sub) && FindByName(apps, appName.value).Some?
      && FindByName(apps, appName.value).value.status == AppStopped
    ensures Present(appName) && IsActive(sub)
            && FindByName(apps, appName.value).Some? && FindByName(apps, appName.value).value.status != AppStopped
      ==> v == Refuse(400, "Application must be in stopped state to restart")
    ensures v.Proceed? ==> v.value in apps && v.value.name == appName.value && v.value.status == AppStopped
  {
    if !Present(appName) then Refuse(400, NameRequired)
    else if !IsActive(sub) then Refuse(403, ManageNeedsSubscription)
    else
      var app := FindByName(apps, appName.value);
      if app.None? then Refuse(404, NotYours)
      else if app.value.status != AppStopped then Refuse(400, "Application must be in stopped state to restart")
      else Proceed(app.value)
  }

  function ScaleUp(appName: string): Command
  {
    ["ps:scale", appName, "web=1"]
  }

  /**
   * POST /restart-app: scale a stopped application back to one web process;
   * it becomes `active` only when the command exits 0.
   */
  method RestartApp(store: Store, host: RemoteHost, user: Identity, appName: Option<string>) returns (r: Response)
    requires store.Valid()
    modifies host`issued, store`applications
    ensures store.Valid()
    ensures match RestartVerdict(appName, CurrentSubscription(store.subscriptions, user.id), ApplicationsOf(old(store.applications), user.id))
      case Refuse(status, error) =>
        r == Fail(status, error) && host.issued == old(host.issued) && store.applications == old(store.applications)
      case Proceed(app) =>
        var name := appName.value;
        var outcome := RunSpec(host.respond(ScaleUp(name)));
        && host.issued == old(host.issued) + [ScaleUp(name)]
        && (outcome.Resolved? && outcome.result.success ==>
              store.applications == WithAppStatus(old(store.applications), app.id, AppActive)
              && r == Response(200, Executed("Application " + name + " restarted successfully", outcome.result)))
        && (outcome.Resolved? && !outcome.result.success ==>
              store.applications == old(store.applications)
              && r == Response(500, ErrorBody("Failed to restart application using Dokku", outcome.result.error)))
        && (outcome.Rejected? ==>
              store.applications == old(store.applications) && r == Fail(500, "Failed to restart application"))
  {
    var verdict := RestartVerdict(appName, CurrentSubscription(store.subscriptions, user.id), ApplicationsOf(store.applications, user.id));
    match verdict
    case Refuse(status, error) =>
      r := Fail(status, error);
    case Proceed(app) =>
      var name := appName.value;
      var outcome := RunDeployKit(host, ScaleUp(name));
      match outcome
      case Resolved(result) =>
        if result.success {
          store.UpdateApplicationStatus(app.id, AppActive);
          r := Response(200, Executed("Application " + name + " restarted successfully", result));
        } else {
          r := Response(500, ErrorBody("Failed to restart application using Dokku", result.error));
        }
      case Rejected(_) =>
        r := Fail(500, "Failed to restart application");
  }

  /** Without an active current subscription every handler refuses with 403 once a name is given. */
  lemma InactiveSubscriptionRefusesAll(sub: Option<Subscription>, apps: seq<Application>, args: Args, name: string)
    requires !IsActive(sub) && !args.ArgsNotList? && name != ""
    ensures RunVerdict(args, sub, apps).Refuse? && RunVerdict(args, sub, apps).status == 403
    ensures StatusVerdict(sub).Refuse? && StatusVerdict(sub).status == 403
    ensures DeployVerdict(Some(name), sub, apps).Refuse? && DeployVerdict(Some(name), sub, apps).status == 403
    ensures StopVerdict(Some(name), sub, apps).Refuse? && StopVerdict(Some(name), sub, apps).status == 403
    ensures RestartVerdict(Some(name), sub, apps).Refuse? && RestartVerdict(Some(name), sub, apps).status == 403
  {
  }

  /** A status update commutes with selecting one user's applications. */
  lemma {:induction false} ApplicationsOfUpdate(apps: seq<Application>, userId: nat, id: int, status: AppStatus)
    ensures ApplicationsOf(WithAppStatus(apps, id, status), userId) == WithAppStatus(ApplicationsOf(apps, userId), id, status)
  {
    if |apps| > 0 {
      var n := |apps|;
      var last := if apps[n - 1].userId == userId then [apps[n - 1]] else [];
      var rest := ApplicationsOf(apps[..n - 1], userId);
      ApplicationsOfUpdatedNewest(apps, userId, id, status);
      ApplicationsOfUpdate(apps[..n - 1], userId, id, status);
      WithAppStatusAppend(last, rest, id, status);
    }
  }

  /** Selecting from an updated table: the updated newest row, then the updated older rows. */
  lemma ApplicationsOfUpdatedNewest(apps: seq<Application>, userId: nat, id: int, status: AppStatus)
    requires |apps| > 0
    ensures var n := |apps|;
      ApplicationsOf(WithAppStatus(apps, id, status), userId)
      == WithAppStatus(if apps[n - 1].userId == userId then [apps[n - 1]] else [], id, status)
         + ApplicationsOf(WithAppStatus(apps[..n - 1], id, status), userId)
  {
    var n := |apps|;
    var updated := WithAppStatus(apps, id, status);
    var newest := updated[n - 1];
    assert newest.userId == apps[n - 1].userId;
    var selected := if newest.userId == userId then [newest] else [];
    assert ApplicationsOf(updated, userId) == selected + ApplicationsOf(updated[..n - 1], userId);
    assert WithAppStatus(if apps[n - 1].userId == userId then [apps[n - 1]] else [], id, status) == selected;
    WithAppStatusPrefix(apps, id, status);
  }

  /** Dropping the newest row before or after a status update gives the same rows. */
  lemma WithAppStatusPrefix(apps: seq<Application>, id: int, status: AppStatus)
    requires |apps| > 0
    ensures WithAppStatus(apps, id, status)[..|apps| - 1] == WithAppStatus(apps[..|apps| - 1], id, status)
  {
  }

  /** A status update acts row by row, so it distributes over concatenation. */
  lemma WithAppStatusAppend(a: seq<Application>, b: seq<Application>, id: int, status: AppStatus)
    ensures WithAppStatus(a + b, id, status) == WithAppStatus(a, id, status) + WithAppStatus(b, id, status)
  {
    var lhs, rhs := WithAppStatus(a + b, id, status), WithAppStatus(a, id, status) + WithAppStatus(b, id, status);
    assert |lhs| == |rhs|;
    forall i | 0 <= i < |lhs|
      ensures lhs[i] == rhs[i]
    {
      if i >= |a| {
        assert (a + b)[i] == b[i - |a|];
      }
    }
  }

  /**
   * Updating the status of the application a name lookup finds leaves it the
   * one found, when no other application shares its id.
   */
  lemma {:induction false} FindByNameAfterUpdate(apps: seq<Application>, name: string, app: Application, status: AppStatus)
    requires FindByName(apps, name) == Some(app)
    requires forall a :: a in apps && a.id == app.id ==> a == app
    ensures FindByName(WithAppStatus(apps, app.id, status), name) == Some(app.(status := status))
  {
    var updated := WithAppStatus(apps, app.id, status);
    if apps[0].name == name {
      assert updated[0] == app.(status := status);
    } else {
      assert updated[0].name == apps[0].name;
      assert updated[1..] == WithAppStatus(apps[1..], app.id, status);
      FindByNameAfterUpdate(apps[1..], name, app, status);
    }
  }

  /** Strictly increasing keys identify rows: no two rows share an id. */
  lemma KeysIdentifyRows(apps: seq<Application>, app: Application)
    requires forall i, j :: 0 <= i < j < |apps| ==> apps[i].id < apps[j].id
    requires app in apps
    ensures forall a :: a in apps && a.id == app.id ==> a == app
  {
    var j :| 0 <= j < |apps| && apps[j] == app;
    forall a | a in apps && a.id == app.id
      ensures a == app
    {
      var i :| 0 <= i < |apps| && apps[i] == a;
      assert i == j;
    }
  }

  /**
   * An expired application is not dead: /restart-app refuses it, but
   * /stop-app accepts it, and once the stop has marked it `stopped`,
   * /restart-app accepts it and would make it `active` again.
   */
  lemma ExpiredAppRevives(apps: seq<Application>, userId: nat, sub: Option<Subscription>, name: string, app: Application)
    requires forall i, j :: 0 <= i < j < |apps| ==> apps[i].id < apps[j].id
    requires IsActive(sub) && name != ""
    requires FindByName(ApplicationsOf(apps, userId), name) == Some(app) && app.status == AppExpired
    ensures RestartVerdict(Some(name), sub, ApplicationsOf(apps, userId))
         == Refuse(400, "Application must be in stopped state to restart")
    ensures StopVerdict(Some(name), sub, ApplicationsOf(apps, userId)) == Proceed(app)
    ensures RestartVerdict(Some(name), sub, ApplicationsOf(WithAppStatus(apps, app.id, AppStopped), userId))
         == Proceed(app.(status := AppStopped))
  {
    var mine := ApplicationsOf(apps, userId);
    KeysIdentifyRows(apps, app);
    ApplicationsOfUpdate(apps, userId, app.id, AppStopped);
    FindByNameAfterUpdate(mine, name, app, AppStopped);
    RestartAcceptsStopped(ApplicationsOf(WithAppStatus(apps, app.id, AppStopped), userId), sub, name, app.(status := AppStopped));
  }

  /** /restart-app goes ahead with the stopped application a name lookup finds. */
  lemma RestartAcceptsStopped(apps: seq<Application>, sub: Option<Subscription>, name: string, app: Application)
    requires IsActive(sub) && name != ""
    requires FindByName(apps, name) == Some(app) && app.status == AppStopped
    ensures RestartVerdict(Some(name), sub, apps) == Proceed(app)
  {
  }
}
