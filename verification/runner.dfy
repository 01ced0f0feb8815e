/**
 * utils/deploykitRunner.js: running `dokku` with a list of arguments and the
 * two-step stop (scale to zero, then at most one forced destroy).
 *
 * Processes are not modelled: the remote host answers every command with a
 * ProcessOutcome, and keeps the list of commands it was asked to run.
 */
module Runner {
  import opened Common

  /** The argument list given to `dokku`. */
  type Command = seq<string>

  /**
   * What happens to one spawned process: it fails to launch (the 'error'
   * event), or it closes with an exit code (None when ended by a signal) after
   * emitting its stdout and stderr 'data' chunks in order.
   */
  datatype ProcessOutcome =
    | LaunchError(message: string)
    | Exited(code: Option<int>, stdoutChunks: seq<string>, stderrChunks: seq<string>)

  /** The remote host: a fixed answer to every command, and the commands issued so far. */
  class RemoteHost {
    const respond: Command -> ProcessOutcome
    var issued: seq<Command>

    constructor (respond: Command -> ProcessOutcome)
      ensures this.respond == respond && issued == []
    {
      this.respond := respond;
      issued := [];
    }

    /** spawn('dokku', cmd, ...) */
    method Spawn(cmd: Command) returns (outcome: ProcessOutcome)
      modifies this`issued
      ensures issued == old(issued) + [cmd]
      ensures outcome == respond(cmd)
    {
      issued := issued + [cmd];
      outcome := respond(cmd);
    }
  }

  /** The in-order concatenation of a stream's chunks. */
  function Concat(chunks: seq<string>): string
  {
    if |chunks| == 0 then "" else chunks[0] + Concat(chunks[1..])
  }

  lemma {:induction false} ConcatAppend(a: seq<string>, b: seq<string>)
    ensures Concat(a + b) == Concat(a) + Concat(b)
  {
    if |a| == 0 {
      assert a + b == b;
    } else {
      assert (a + b)[1..] == a[1..] + b;
      ConcatAppend(a[1..], b);
    }
  }

  /** A stream captures nothing exactly when every chunk it emitted was empty. */
  lemma {:induction false} ConcatEmpty(chunks: seq<string>)
    ensures Concat(chunks) == "" <==> forall i :: 0 <= i < |chunks| ==> chunks[i] == ""
  {
    if |chunks| > 0 {
      ConcatEmpty(chunks[1..]);
      assert forall i :: 1 <= i < |chunks| ==> chunks[i] == chunks[1..][i - 1];
    }
  }

  /** The 'data' handlers: `text += data.toString()` for every chunk, in order. */
  method Collect(chunks: seq<string>) returns (text: string)
    ensures text == Concat(chunks)
  {
    text := "";
    var i := 0;
    while i < |chunks|
      invariant 0 <= i <= |chunks|
      invariant text == Concat(chunks[..i])
    {
      ConcatAppend(chunks[..i], [chunks[i]]);
      assert chunks[..i + 1] == chunks[..i] + [chunks[i]];
      text := text + chunks[i];
      i := i + 1;
    }
    assert chunks[..i] == chunks;
  }

  /** The object runDeployKit resolves with. */
  datatype RunResult = RunResult(success: bool, output: string, error: Option<string>, exitCode: Option<int>)

  /** A settled runDeployKit promise: resolved, or rejected with `{success: false, error}`. */
  datatype RunOutcome = Resolved(result: RunResult) | Rejected(error: string)

  /** The 'close' handler: resolve whatever the exit code. */
  function CloseResult(code: Option<int>, stdout: string, stderr: string): RunResult
  {
    RunResult(code == Some(0), stdout, OrNull(stderr), code)
  }

  /** How runDeployKit settles for a given process outcome. */
  function RunSpec(outcome: ProcessOutcome): (r: RunOutcome)
    ensures r.Resolved? <==> outcome.Exited?
    ensures r.Resolved? ==> (r.result.success <==> outcome.code == Some(0)) && r.result.exitCode == outcome.code
  {
    match outcome
    case LaunchError(m) => Rejected(m)
    case Exited(code, out, err) => Resolved(CloseResult(code, Concat(out), Concat(err)))
  }

  /**
   * The close-handler contract: every exit resolves, success exactly on exit
   * code 0, the output is the stdout, the error is the stderr or null when
   * nothing was written there; only a launch failure rejects.
   */
  lemma RunSpecContract(outcome: ProcessOutcome)
    ensures RunSpec(outcome).Resolved? <==> outcome.Exited?
    ensures outcome.LaunchError? ==> RunSpec(outcome) == Rejected(outcome.message)
    ensures outcome.Exited? ==>
      var r := RunSpec(outcome).result;
      && (r.success <==> outcome.code == Some(0))
      && r.output == Concat(outcome.stdoutChunks)
      && (r.error.None? <==> forall i :: 0 <= i < |outcome.stderrChunks| ==> outcome.stderrChunks[i] == "")
      && (r.error.Some? ==> r.error.value == Concat(outcome.stderrChunks))
      && r.exitCode == outcome.code
  {
    if outcome.Exited? {
      ConcatEmpty(outcome.stderrChunks);
    }
  }

  /** runDeployKit as its close and error handlers describe it. */
  method RunDeployKit(host: RemoteHost, args: Command) returns (r: RunOutcome)
    modifies host`issued
    ensures host.issued == old(host.issued) + [args]
    ensures r == RunSpec(host.respond(args))
  {
    var outcome := host.Spawn(args);
    match outcome
    case LaunchError(m) =>
      r := Rejected(m);
    case Exited(code, outChunks, errChunks) =>
      var stdout := Collect(outChunks);
      var stderr := Collect(errChunks);
      r := Resolved(CloseResult(code, stdout, stderr));
  }

  /** The message of the ReferenceError the spawn options throw. */
  const ProcessBeforeInit := "Cannot access 'process' before initialization"

  /**
   * runDeployKit as written: the spawn options read `process.env` while
   * `const process` is still uninitialised, so the promise executor throws
   * before anything is spawned and every call rejects.
   */
  method RunDeployKitAsWritten(host: RemoteHost, args: Command) returns (r: RunOutcome)
    ensures r == Rejected(ProcessBeforeInit)
    ensures host.issued == old(host.issued)
  {
    r := Rejected(ProcessBeforeInit);
  }

  /** The as-written runner rejects even when the command would exit 0. */
  lemma AsWrittenLosesCleanExit(stdout: seq<string>)
    ensures RunSpec(Exited(Some(0), stdout, [])) == Resolved(RunResult(true, Concat(stdout), None, Some(0)))
    ensures RunSpec(Exited(Some(0), stdout, [])) != Rejected(ProcessBeforeInit)
  {
  }

  // ------------------------------------------------------------------- stop

  function ScaleDown(appName: string): Command
  {
    ["ps:scale", appName, "web=0"]
  }

  function ForceDestroy(appName: string): Command
  {
    ["apps:destroy", appName, "--force"]
  }

  /**
   * How a stopApplication promise settles. `Crashed` is a destroy process that
   * fails to launch: it has no 'error' handler, so the emitted error is
   * unhandled and the promise never settles.
   */
  datatype StopOutcome =
    | StopResolved(message: string, output: string)
    | LaunchRejected(error: string)
    | DestroyRejected(error: string, exitCode: Option<int>)
    | Crashed(error: string)

  /**
   * The commands one stopApplication call issues, given how the scale-down
   * ends. A scale-down that fails to launch still emits 'close', with a
   * negative errno as its code, so the fallback destroy is spawned then too
   * (after the promise has already been rejected).
   */
  function StopCommands(appName: string, scale: ProcessOutcome): (cmds: seq<Command>)
    ensures 1 <= |cmds| <= 2 && cmds[0] == ScaleDown(appName)
    ensures |cmds| == 2 <==> !(scale.Exited? && scale.code == Some(0))
    ensures |cmds| == 2 ==> cmds[1] == ForceDestroy(appName)
    ensures forall c :: c in cmds ==> |c| == 3 && c[1] == appName
  {
    if scale.Exited? && scale.code == Some(0) then [ScaleDown(appName)]
    else [ScaleDown(appName), ForceDestroy(appName)]
  }

  /**
   * How stopApplication settles, given the scale-down's and the fallback's
   * outcomes. Only a zero exit succeeds, and the promise is left unsettled
   * exactly when the fallback runs and cannot launch.
   */
  function StopSpec(appName: string, scale: ProcessOutcome, destroy: ProcessOutcome): (r: StopOutcome)
    ensures r.StopResolved? ==>
      scale.Exited? && (scale.code == Some(0) || (destroy.Exited? && destroy.code == Some(0)))
    ensures r.Crashed? <==> scale.Exited? && scale.code != Some(0) && destroy.LaunchError?
    ensures r.LaunchRejected? <==> scale.LaunchError?
  {
    match scale
    case LaunchError(m) => LaunchRejected(m)
    case Exited(code, out, _) =>
      if code == Some(0) then StopResolved("Application " + appName + " stopped successfully", Concat(out))
      else DestroySettles(appName, destroy)
  }

  /** How the fallback `apps:destroy` settles stopApplication; it has no 'error' handler. */
  function DestroySettles(appName: string, destroy: ProcessOutcome): (r: StopOutcome)
    ensures r.StopResolved? <==> destroy.Exited? && destroy.code == Some(0)
    ensures r.Crashed? <==> destroy.LaunchError?
    ensures r.StopResolved? ==> r.output == Concat(destroy.stdoutChunks)
    ensures r.DestroyRejected? ==>
      && r.exitCode == destroy.code
      && (Concat(destroy.stderrChunks) == "" ==> r.error == "Failed to stop/destroy application " + appName)
      && (Concat(destroy.stderrChunks) != "" ==> r.error == Concat(destroy.stderrChunks))
  {
    match destroy
    case LaunchError(m) => Crashed(m)
    case Exited(dcode, dout, derr) =>
      if dcode == Some(0) then StopResolved("Application " + appName + " destroyed successfully", Concat(dout))
      else DestroyRejected(if Concat(derr) == "" then "Failed to stop/destroy application " + appName else Concat(derr), dcode)
  }

  /**
   * The stop strategy: a clean scale-down succeeds with its own stdout and no
   * fallback; otherwise the destroy decides, its stderr (or a fixed message
   * naming the app) and exit code travel with a failure, and the scale-down's
   * stderr is never reported.
   */
  lemma StopSpecContract(appName: string, scale: ProcessOutcome, destroy: ProcessOutcome)
    ensures scale.LaunchError? ==> StopSpec(appName, scale, destroy) == LaunchRejected(scale.message)
    ensures scale.Exited? && scale.code == Some(0) ==>
      StopSpec(appName, scale, destroy) == StopResolved("Application " + appName + " stopped successfully", Concat(scale.stdoutChunks))
    ensures scale.Exited? && scale.code != Some(0) && destroy.Exited? && destroy.code == Some(0) ==>
      StopSpec(appName, scale, destroy) == StopResolved("Application " + appName + " destroyed successfully", Concat(destroy.stdoutChunks))
    ensures scale.Exited? && scale.code != Some(0) && destroy.Exited? && destroy.code != Some(0) ==>
      var r := StopSpec(appName, scale, destroy);
      && r.DestroyRejected?
      && r.exitCode == destroy.code
      && (Concat(destroy.stderrChunks) != "" ==> r.error == Concat(destroy.stderrChunks))
      && (Concat(destroy.stderrChunks) == "" ==> r.error == "Failed to stop/destroy application " + appName)
    ensures scale.Exited? && scale.code != Some(0) && destroy.LaunchError? ==>
      StopSpec(appName, scale, destroy) == Crashed(destroy.message)
  {
  }

  /** stopApplication */
  method StopApplication(host: RemoteHost, appName: string) returns (r: StopOutcome)
    modifies host`issued
    ensures host.issued == old(host.issued) + StopCommands(appName, host.respond(ScaleDown(appName)))
    ensures r == StopSpec(appName, host.respond(ScaleDown(appName)), host.respond(ForceDestroy(appName)))
  {
    var scale := host.Spawn(ScaleDown(appName));
    match scale
    case LaunchError(m) =>
      r := LaunchRejected(m);
      // the 'close' that follows the launch error has a non-zero code
      var late := host.Spawn(ForceDestroy(appName));
      assert StopCommands(appName, scale) == [ScaleDown(appName), ForceDestroy(appName)];
    case Exited(code, outChunks, errChunks) =>
      assert StopCommands(appName, scale) == [ScaleDown(appName)] + (if code == Some(0) then [] else [ForceDestroy(appName)]);
      r := OnScaleDownClose(host, appName, code, outChunks, errChunks);
  }

  /** The scale-down's 'close' handler: resolve on exit 0, otherwise fall back to a forced destroy. */
  method OnScaleDownClose(host: RemoteHost, appName: string, code: Option<int>, outChunks: seq<string>, errChunks: seq<string>)
    returns (r: StopOutcome)
    modifies host`issued
    ensures host.issued == old(host.issued) + (if code == Some(0) then [] else [ForceDestroy(appName)])
    ensures r == StopSpec(appName, Exited(code, outChunks, errChunks), host.respond(ForceDestroy(appName)))
  {
    var stdout := Collect(outChunks);
    var stderr := Collect(errChunks);
    if code == Some(0) {
      r := StopResolved("Application " + appName + " stopped successfully", stdout);
    } else {
      r := ForceDestroyFallback(host, appName);
    }
  }

  /** The close handler's fallback: spawn `apps:destroy <app> --force` and settle on its close. */
  method ForceDestroyFallback(host: RemoteHost, appName: string) returns (r: StopOutcome)
    modifies host`issued
    ensures host.issued == old(host.issued) + [ForceDestroy(appName)]
    ensures r == DestroySettles(appName, host.respond(ForceDestroy(appName)))
  {
    var destroy := host.Spawn(ForceDestroy(appName));
    match destroy
    case LaunchError(m) =>
      r := Crashed(m);
    case Exited(destroyCode, destroyOut, destroyErr) =>
      var destroyStdout := Collect(destroyOut);
      var destroyStderr := Collect(destroyErr);
      if destroyCode == Some(0) {
        r := StopResolved("Application " + appName + " destroyed successfully", destroyStdout);
      } else {
        r := DestroyRejected(if destroyStderr == "" then "Failed to stop/destroy application " + appName else destroyStderr, destroyCode);
      }
  }
}
