/**
 * The installer's playbook executor: `AnsibleExecutor.execute_playbook`,
 * which resolves and validates a playbook, launches `run_ansible.sh` on it
 * and turns what happened into a `PlaybookResult` while reporting progress
 * to an optional callback, and `format_result_for_api`.
 *
 * The operating system is not modelled. What the asyncio calls would
 * observe is an input: which paths exist (`Host.existing`), the inherited
 * environment, how the child process ended (`ProcessOutcome`) and the
 * elapsed seconds the clock reports when the result is built. What the
 * executor asks of the operating system is an output (`ProcessRequest`s).
 */
module AnsibleExecutor {

  import opened Wrappers
  import opened Strings
  import Paths

  datatype PlaybookStatus = Pending | Running | Success | Error | Cancelled {

    /** The enum member's `.value`. */
    function Value(): string {
      match this
      case Pending => "pending"
      case Running => "running"
      case Success => "success"
      case Error => "error"
      case Cancelled => "cancelled"
    }
  }

  /** `PlaybookStatus(v)`: the member whose `.value` is `v`, if there is one. */
  function StatusOfValue(v: string): (r: Option<PlaybookStatus>)
    ensures r.Some? ==> r.value.Value() == v
    ensures forall s: PlaybookStatus :: s.Value() == v ==> r == Some(s)
  {
    if v == "pending" then Some(Pending)
    else if v == "running" then Some(Running)
    else if v == "success" then Some(Success)
    else if v == "error" then Some(Error)
    else if v == "cancelled" then Some(Cancelled)
    else None
  }

  datatype PlaybookResult = PlaybookResult(
    status: PlaybookStatus,
    message: string,
    details: Option<string>,
    stdout: Option<string>,
    stderr: Option<string>,
    returnCode: Option<int>,
    duration: Option<real>)

  datatype PlaybookProgress = PlaybookProgress(
    status: PlaybookStatus,
    message: string,
    progressPercent: Option<int>,
    currentTask: Option<string>,
    details: Option<string>)

  /** One captured output stream: its UTF-8 text, or the reason `bytes.decode()` raised. */
  datatype Decoded = Text(text: string) | Undecodable(reason: string)

  /** How `terminate()`, the 5-second `wait()` and, when needed, `kill()` went after a timeout. */
  datatype Shutdown =
    | StoppedOnTerminate      // terminate() and the bounded wait() both returned
    | Killed                  // one of them raised, and kill() returned
    | KillRaised(reason: string)

  /** How the child process ended, as the asyncio calls would report it. */
  datatype ProcessOutcome =
    | CreationTimedOut                  // create_subprocess_exec exceeded its 10 seconds
    | CreationRaised(reason: string)    // create_subprocess_exec raised, e.g. permission denied
    | Exited(returnCode: int, stdout: Decoded, stderr: Decoded)
    | CommunicateTimedOut(shutdown: Shutdown)

  /** What the executor asks of the operating system. */
  datatype ProcessRequest =
    | Spawn(argv: seq<string>, env: map<string, string>, cwd: string)
    | Terminate
    | Kill

  /** The arguments of one `execute_playbook` call. */
  datatype Request = Request(
    playbookPath: string,
    extraVars: Option<seq<(string, string)>>,
    environment: Option<map<string, string>>,
    timeout: Option<int>)

  /** What the call observes of the machine it runs on. */
  datatype Host = Host(
    existing: set<string>,
    environ: map<string, string>,
    outcome: ProcessOutcome,
    elapsed: real)

  /** The outcome of one call: the result, the progress events in order, the process requests in order. */
  datatype Execution = Execution(
    result: PlaybookResult,
    events: seq<PlaybookProgress>,
    requests: seq<ProcessRequest>)

  /** The dictionary `format_result_for_api` returns. */
  datatype ApiResult = ApiResult(
    status: string,
    message: string,
    details: Option<string>,
    returnCode: Option<int>,
    duration: Option<real>,
    stdout: Option<string>,
    stderr: Option<string>)

  /** `execute_playbook`'s default `timeout`. */
  const DefaultTimeout: Option<int> := Some(300)

  /**
   * `str(e)` for the UnboundLocalError raised by `process.terminate()` and
   * again by `process.kill()` when process creation itself timed out, as
   * Python 3.11 and later word it.
   */
  const UnboundProcessMessage := "cannot access local variable 'process' where it is not associated with a value"

  function ThinkubeRoot(home: string): string {
    Paths.Join(home, "thinkube")
  }

  function AnsibleScript(home: string): string {
    Paths.Join(Paths.Join(ThinkubeRoot(home), "scripts"), "run_ansible.sh")
  }

  /** A relative playbook path is taken relative to the thinkube root; an absolute one is kept. */
  function ResolvePlaybookPath(root: string, path: string): (r: string)
    ensures Paths.IsAbsolute(path) ==> r == path
    ensures !Paths.IsAbsolute(path) && path != [] ==> r == root + "/" + path
    ensures Paths.IsAbsolute(root) ==> Paths.IsAbsolute(r)
  {
    if Paths.IsAbsolute(path) then path else Paths.Join(root, path)
  }

  function PlaybookNotFound(playbook: string): PlaybookResult {
    PlaybookResult(Error, "Playbook not found", Some("Could not find playbook at " + playbook), None, None, None, None)
  }

  function ScriptNotFound(script: string): PlaybookResult {
    PlaybookResult(Error, "Ansible script not found", Some("Could not find " + script), None, None, None, None)
  }

  /** The early return of the two existence checks, playbook first, or None when both pass. */
  function ValidationFailure(playbook: string, script: string, existing: set<string>): (r: Option<PlaybookResult>)
    ensures r.None? <==> playbook in existing && script in existing
    ensures playbook !in existing ==> r == Some(PlaybookNotFound(playbook))
    ensures playbook in existing && script !in existing ==> r == Some(ScriptNotFound(script))
    ensures r.Some? ==> r.value.status == Error && r.value.duration.None? && r.value.returnCode.None?
  {
    if playbook !in existing then Some(PlaybookNotFound(playbook))
    else if script !in existing then Some(ScriptNotFound(script))
    else None
  }

  /** `f"{key}={value}"` */
  function Assignment(kv: (string, string)): string {
    kv.0 + "=" + kv.1
  }

  /** The `--extra-vars` pairs the loop appends for `vars`, in order. */
  function ExtraVarArgs(vars: seq<(string, string)>): seq<string> {
    if vars == [] then []
    else ExtraVarArgs(vars[..|vars| - 1]) + ["--extra-vars", Assignment(vars[|vars| - 1])]
  }

  /** The argument vector: the script, the playbook, then the extra variables. */
  function CommandLine(script: string, playbook: string, extraVars: Option<seq<(string, string)>>): seq<string> {
    [script, playbook] + (if extraVars.Some? then ExtraVarArgs(extraVars.value) else [])
  }

  /** The number of extra variables, with None counting as none. */
  function ExtraVarCount(extraVars: Option<seq<(string, string)>>): nat {
    if extraVars.Some? then |extraVars.value| else 0
  }

  lemma {:induction false} ExtraVarArgsShape(vars: seq<(string, string)>)
    ensures |ExtraVarArgs(vars)| == 2 * |vars|
    ensures forall i :: 0 <= i < |vars| ==>
      ExtraVarArgs(vars)[2 * i] == "--extra-vars" && ExtraVarArgs(vars)[2 * i + 1] == Assignment(vars[i])
  {
    if vars != [] {
      var init := vars[..|vars| - 1];
      ExtraVarArgsShape(init);
      forall i | 0 <= i < |vars|
        ensures ExtraVarArgs(vars)[2 * i] == "--extra-vars" && ExtraVarArgs(vars)[2 * i + 1] == Assignment(vars[i])
      {
        if i < |init| { assert vars[i] == init[i]; }
      }
    }
  }

  /**
   * The command is `[script, playbook]` followed by `--extra-vars k=v` for
   * each extra variable in insertion order, and nothing more.
   */
  lemma CommandLineShape(script: string, playbook: string, extraVars: Option<seq<(string, string)>>)
    ensures var cmd := CommandLine(script, playbook, extraVars);
      && |cmd| == 2 + 2 * ExtraVarCount(extraVars)
      && cmd[0] == script && cmd[1] == playbook
      && (extraVars.Some? ==> forall i :: 0 <= i < |extraVars.value| ==>
            cmd[2 + 2 * i] == "--extra-vars" && cmd[3 + 2 * i] == Assignment(extraVars.value[i]))
      && (ExtraVarCount(extraVars) == 0 ==> cmd == [script, playbook])
  {
    if extraVars.Some? {
      var vars := extraVars.value;
      var args := ExtraVarArgs(vars);
      var cmd := CommandLine(script, playbook, extraVars);
      ExtraVarArgsShape(vars);
      assert cmd == [script, playbook] + args;
      forall i | 0 <= i < |vars|
        ensures cmd[2 + 2 * i] == "--extra-vars" && cmd[3 + 2 * i] == Assignment(vars[i])
      {
        assert cmd[2 + 2 * i] == args[2 * i] && cmd[3 + 2 * i] == args[2 * i + 1];
      }
      if vars == [] {
        assert [script, playbook] + [] == [script, playbook];
      }
    } else {
      assert [script, playbook] + [] == [script, playbook];
    }
  }

  /** Builds the command in place, as lines 102-107 do. */
  method BuildCommand(script: string, playbook: string, extraVars: Option<seq<(string, string)>>)
    returns (cmd: seq<string>)
    ensures cmd == CommandLine(script, playbook, extraVars)
  {
    cmd := [script, playbook];
    if extraVars.Some? && |extraVars.value| > 0 {
      var vars := extraVars.value;
      var i := 0;
      while i < |vars|
        invariant 0 <= i <= |vars|
        invariant cmd == [script, playbook] + ExtraVarArgs(vars[..i])
      {
        assert vars[..i + 1][..i] == vars[..i];
        cmd := cmd + ["--extra-vars", Assignment(vars[i])];
        i := i + 1;
      }
      assert vars[..i] == vars;
    }
  }

  /** The child's environment: the inherited one with the overlay applied over it. */
  function ChildEnvironment(inherited: map<string, string>, overlay: Option<map<string, string>>): (env: map<string, string>)
    ensures overlay.None? ==> env == inherited
    ensures overlay.Some? ==> env.Keys == inherited.Keys + overlay.value.Keys
    ensures overlay.Some? ==> forall k :: k in overlay.value ==> env[k] == overlay.value[k]
    ensures forall k :: k in inherited && (overlay.None? || k !in overlay.value) ==> env[k] == inherited[k]
  {
    if overlay.Some? then inherited + overlay.value else inherited
  }

  /** Lines 110-112: the inherited environment copied, then updated with a non-empty overlay. */
  method MergeEnvironment(inherited: map<string, string>, environment: Option<map<string, string>>)
    returns (env: map<string, string>)
    ensures env == ChildEnvironment(inherited, environment)
  {
    env := inherited;
    if environment.Some? && |environment.value| > 0 {
      env := env + environment.value;
    }
    if environment.Some? && |environment.value| == 0 {
      assert environment.value == map[];
      assert inherited + map[] == inherited;
    }
  }

  const InitialProgress := PlaybookProgress(Running, "Starting playbook execution", Some(0), Some("Initializing"), None)

  function CompletionProgress(returnCode: int): PlaybookProgress {
    PlaybookProgress(if returnCode == 0 then Success else Error, "Playbook execution completed", Some(100), None, None)
  }

  const TimeoutProgress := PlaybookProgress(Error, "Playbook execution timed out", None, None, None)

  function UnexpectedProgress(reason: string): PlaybookProgress {
    PlaybookProgress(Error, "Unexpected error occurred", None, None, Some(reason))
  }

  /** The result once `communicate()` has returned and both streams decoded. */
  function ExitResult(returnCode: int, stdout: string, stderr: string, elapsed: real): PlaybookResult {
    if returnCode == 0 then
      PlaybookResult(Success, "Playbook executed successfully", Some("All tasks completed without errors"),
                     Some(stdout), Some(stderr), Some(returnCode), Some(elapsed))
    else
      PlaybookResult(Error, "Playbook execution failed", Some(if stderr != "" then stderr else "Unknown error occurred"),
                     Some(stdout), Some(stderr), Some(returnCode), Some(elapsed))
  }

  /** `f"{timeout}"`, which prints None for no timeout. */
  function TimeoutText(timeout: Option<int>): string {
    if timeout.Some? then IntToString(timeout.value) else "None"
  }

  function TimeoutResult(timeout: Option<int>, elapsed: real): PlaybookResult {
    PlaybookResult(Error, "Playbook execution timed out", Some("Execution exceeded " + TimeoutText(timeout) + " seconds"),
                   None, None, None, Some(elapsed))
  }

  /** The result of the generic `except Exception` handler. */
  function UnexpectedResult(reason: string, elapsed: real): PlaybookResult {
    PlaybookResult(Error, "Unexpected error during playbook execution", Some(reason), None, None, None, Some(elapsed))
  }

  /** What happens after the launch: the result, the last progress event, and the requests after the spawn. */
  datatype Supervision = Supervision(result: PlaybookResult, last: PlaybookProgress, after: seq<ProcessRequest>)

  function Unexpected(reason: string, elapsed: real, after: seq<ProcessRequest>): Supervision {
    Supervision(UnexpectedResult(reason, elapsed), UnexpectedProgress(reason), after)
  }

  function Supervise(outcome: ProcessOutcome, timeout: Option<int>, elapsed: real): Supervision {
    match outcome
    case CreationTimedOut =>
      // No process was bound: terminate() raises, the bare except calls kill(), which raises again.
      Unexpected(UnboundProcessMessage, elapsed, [])
    case CreationRaised(reason) =>
      Unexpected(reason, elapsed, [])
    case Exited(code, out, err) =>
      if out.Undecodable? then Unexpected(out.reason, elapsed, [])
      else if err.Undecodable? then Unexpected(err.reason, elapsed, [])
      else Supervision(ExitResult(code, out.text, err.text, elapsed), CompletionProgress(code), [])
    case CommunicateTimedOut(shutdown) =>
      match shutdown
      case StoppedOnTerminate => Supervision(TimeoutResult(timeout, elapsed), TimeoutProgress, [Terminate])
      case Killed => Supervision(TimeoutResult(timeout, elapsed), TimeoutProgress, [Terminate, Kill])
      case KillRaised(reason) => Unexpected(reason, elapsed, [Terminate, Kill])
  }

  /** The events a callback receives: all of them, or none when there is no callback. */
  function Notified(hasCallback: bool, events: seq<PlaybookProgress>): seq<PlaybookProgress> {
    if hasCallback then events else []
  }

  /** `execute_playbook` as a function of its arguments and of what it observes. */
  function Execute(root: string, script: string, req: Request, hasCallback: bool, host: Host): (x: Execution)
    ensures x.result.status == Success || x.result.status == Error
    ensures !hasCallback ==> x.events == []
    ensures x.requests == [] ==> x.events == []
    ensures hasCallback && x.requests != [] ==> |x.events| == 2 && x.events[0] == InitialProgress
  {
    var playbook := ResolvePlaybookPath(root, req.playbookPath);
    match ValidationFailure(playbook, script, host.existing)
    case Some(failure) => Execution(failure, [], [])
    case None =>
      var spawn := Spawn(CommandLine(script, playbook, req.extraVars), ChildEnvironment(host.environ, req.environment), root);
      var s := Supervise(host.outcome, req.timeout, host.elapsed);
      Execution(s.result, Notified(hasCallback, [InitialProgress, s.last]), [spawn] + s.after)
  }

  /** `format_result_for_api`: stdout and stderr are passed on only for an ERROR result. */
  function FormatResultForApi(result: PlaybookResult): (api: ApiResult)
    ensures StatusOfValue(api.status) == Some(result.status)
    ensures api.message == result.message && api.details == result.details
    ensures api.returnCode == result.returnCode && api.duration == result.duration
    ensures result.status == Error ==> api.stdout == result.stdout && api.stderr == result.stderr
    ensures result.status != Error ==> api.stdout.None? && api.stderr.None?
  {
    ApiResult(result.status.Value(), result.message, result.details, result.returnCode, result.duration,
              if result.status == Error then result.stdout else None,
              if result.status == Error then result.stderr else None)
  }

  // ---------------------------------------------------------------------
  // Properties of Execute

  /** A missing playbook is reported first, before any event or request. */
  lemma MissingPlaybook(root: string, script: string, req: Request, hasCallback: bool, host: Host)
    requires ResolvePlaybookPath(root, req.playbookPath) !in host.existing
    ensures var x := Execute(root, script, req, hasCallback, host);
      && x.result == PlaybookNotFound(ResolvePlaybookPath(root, req.playbookPath))
      && x.result.message == "Playbook not found"
      && x.events == [] && x.requests == []
  {
  }

  /** A missing script is reported only once the playbook was found, again before any event or request. */
  lemma MissingScript(root: string, script: string, req: Request, hasCallback: bool, host: Host)
    requires ResolvePlaybookPath(root, req.playbookPath) in host.existing
    requires script !in host.existing
    ensures var x := Execute(root, script, req, hasCallback, host);
      && x.result == ScriptNotFound(script)
      && x.result.message == "Ansible script not found"
      && x.events == [] && x.requests == []
  {
  }

  /** Once both exist, the first request launches the built command with the merged environment in the root. */
  lemma LaunchRequest(root: string, script: string, req: Request, hasCallback: bool, host: Host)
    requires ResolvePlaybookPath(root, req.playbookPath) in host.existing
    requires script in host.existing
    ensures var x := Execute(root, script, req, hasCallback, host);
      && x.requests != []
      && x.requests[0] == Spawn(CommandLine(script, ResolvePlaybookPath(root, req.playbookPath), req.extraVars),
                                ChildEnvironment(host.environ, req.environment), root)
  {
  }

  /** When the process exits and both streams decode, the return code decides the result. */
  lemma ExitClassification(root: string, script: string, req: Request, hasCallback: bool, host: Host,
                           code: int, out: string, err: string)
    requires ResolvePlaybookPath(root, req.playbookPath) in host.existing && script in host.existing
    requires host.outcome == Exited(code, Text(out), Text(err))
    ensures var r := Execute(root, script, req, hasCallback, host).result;
      && (r.status == Success <==> code == 0)
      && r.returnCode == Some(code) && r.stdout == Some(out) && r.stderr == Some(err)
      && (code == 0 ==> r.message == "Playbook executed successfully")
      && (code != 0 ==> r.message == "Playbook execution failed")
      && (code != 0 && err != "" ==> r.details == Some(err))
      && (code != 0 && err == "" ==> r.details == Some("Unknown error occurred"))
      && (code == 0 ==> r.details == Some("All tasks completed without errors"))
      && r.duration == Some(host.elapsed)
    ensures var x := Execute(root, script, req, hasCallback, host);
      hasCallback ==>
        && x.events[1].status == x.result.status
        && x.events[1].message == "Playbook execution completed"
        && x.events[1].progressPercent == Some(100)
  {
  }

  /**
   * A timeout of `communicate()` gives ERROR with no output and no return
   * code, and kill() is requested only when terminate() or the 5-second
   * wait raised.
   */
  lemma TimeoutClassification(root: string, script: string, req: Request, hasCallback: bool, host: Host,
                              shutdown: Shutdown)
    requires ResolvePlaybookPath(root, req.playbookPath) in host.existing && script in host.existing
    requires host.outcome == CommunicateTimedOut(shutdown) && !shutdown.KillRaised?
    ensures var x := Execute(root, script, req, hasCallback, host);
      && x.result.status == Error
      && x.result.message == "Playbook execution timed out"
      && x.result.details == Some("Execution exceeded " + TimeoutText(req.timeout) + " seconds")
      && x.result.stdout.None? && x.result.stderr.None? && x.result.returnCode.None?
      && x.result.duration == Some(host.elapsed)
      && x.requests[1..] == (if shutdown == StoppedOnTerminate then [Terminate] else [Terminate, Kill])
      && (hasCallback ==>
            && x.events[1].status == Error
            && x.events[1].message == "Playbook execution timed out"
            && x.events[1].progressPercent.None?)
  {
  }

  /** Kill is requested exactly when communicate() timed out and the graceful stop failed. */
  lemma KillOnlyAfterFailedTerminate(root: string, script: string, req: Request, hasCallback: bool, host: Host)
    ensures Kill in Execute(root, script, req, hasCallback, host).requests <==>
      && ResolvePlaybookPath(root, req.playbookPath) in host.existing && script in host.existing
      && host.outcome.CommunicateTimedOut? && host.outcome.shutdown != StoppedOnTerminate
  {
  }

  /**
   * A timeout of process creation does not yield the timed-out result: the
   * unbound `process` sends control to the generic handler.
   */
  lemma CreationTimeoutIsUnexpected(root: string, script: string, req: Request, hasCallback: bool, host: Host)
    requires ResolvePlaybookPath(root, req.playbookPath) in host.existing && script in host.existing
    requires host.outcome == CreationTimedOut
    ensures var x := Execute(root, script, req, hasCallback, host);
      && x.result.status == Error
      && x.result.message == "Unexpected error during playbook execution"
      && x.result.details == Some(UnboundProcessMessage)
      && |x.requests| == 1
      && (hasCallback ==> x.events == [InitialProgress, UnexpectedProgress(UnboundProcessMessage)])
  {
  }

  /**
   * Every other failure of a launched run reaches the generic handler:
   * process creation raising, a stream that does not decode, or `kill()`
   * raising after the graceful stop failed.
   */
  lemma UnexpectedClassification(root: string, script: string, req: Request, hasCallback: bool, host: Host,
                                 reason: string)
    requires ResolvePlaybookPath(root, req.playbookPath) in host.existing && script in host.existing
    requires || host.outcome == CreationRaised(reason)
             || (host.outcome.Exited? && host.outcome.stdout == Undecodable(reason))
             || (host.outcome.Exited? && host.outcome.stdout.Text? && host.outcome.stderr == Undecodable(reason))
             || host.outcome == CommunicateTimedOut(KillRaised(reason))
    ensures var x := Execute(root, script, req, hasCallback, host);
      && x.result.status == Error
      && x.result.message == "Unexpected error during playbook execution"
      && x.result.details == Some(reason)
      && x.result.stdout.None? && x.result.stderr.None? && x.result.returnCode.None?
      && x.result.duration == Some(host.elapsed)
      && (hasCallback ==> x.events == [InitialProgress, UnexpectedProgress(reason)])
      && x.requests[1..] == (if host.outcome.CommunicateTimedOut? then [Terminate, Kill] else [])
  {
  }

  lemma DefaultTimeoutText()
    ensures "Execution exceeded " + TimeoutText(DefaultTimeout) + " seconds" == "Execution exceeded 300 seconds"
  {
    assert NatToString(3) == "3";
    assert NatToString(30) == "30";
    assert NatToString(300) == "300";
  }

  /** A call that gives only the playbook path: no extra variables, no overlay, a 300-second timeout. */
  function DefaultRequest(playbookPath: string): Request {
    Request(playbookPath, None, None, DefaultTimeout)
  }

  /**
   * With the default arguments the script gets only the playbook, the child
   * inherits the environment unchanged, and a timeout reports 300 seconds.
   */
  lemma DefaultArguments(root: string, script: string, playbookPath: string, hasCallback: bool, host: Host)
    requires ResolvePlaybookPath(root, playbookPath) in host.existing && script in host.existing
    ensures var x := Execute(root, script, DefaultRequest(playbookPath), hasCallback, host);
      && x.requests[0] == Spawn([script, ResolvePlaybookPath(root, playbookPath)], host.environ, root)
      && (host.outcome.CommunicateTimedOut? && !host.outcome.shutdown.KillRaised? ==>
            x.result.details == Some("Execution exceeded 300 seconds"))
  {
    var playbook := ResolvePlaybookPath(root, playbookPath);
    CommandLineShape(script, playbook, None);
    LaunchRequest(root, script, DefaultRequest(playbookPath), hasCallback, host);
    if host.outcome.CommunicateTimedOut? && !host.outcome.shutdown.KillRaised? {
      DefaultTimeoutText();
      TimeoutClassification(root, script, DefaultRequest(playbookPath), hasCallback, host, host.outcome.shutdown);
    }
  }

  /**
   * With a callback, a launched playbook produces the initial RUNNING event
   * and one closing event whose status is the result's; the completion event
   * of a decoded exit carries 100 percent. Without a callback there are none.
   */
  lemma ProgressSequence(root: string, script: string, req: Request, hasCallback: bool, host: Host)
    requires ResolvePlaybookPath(root, req.playbookPath) in host.existing && script in host.existing
    ensures var x := Execute(root, script, req, hasCallback, host);
      && (hasCallback ==>
            && |x.events| == 2
            && x.events[0] == InitialProgress
            && x.events[0].status == Running && x.events[0].progressPercent == Some(0)
            && x.events[0].currentTask == Some("Initializing")
            && x.events[1].status == x.result.status
            && (host.outcome.Exited? && host.outcome.stdout.Text? && host.outcome.stderr.Text? ==>
                  x.events[1].progressPercent == Some(100)))
      && (!hasCallback ==> x.events == [])
  {
  }

  /** Once both files exist, the call is the launch followed by what `Supervise` describes. */
  lemma Launched(root: string, script: string, req: Request, hasCallback: bool, host: Host)
    requires ResolvePlaybookPath(root, req.playbookPath) in host.existing && script in host.existing
    ensures var s := Supervise(host.outcome, req.timeout, host.elapsed);
      var playbook := ResolvePlaybookPath(root, req.playbookPath);
      Execute(root, script, req, hasCallback, host)
        == Execution(s.result, Notified(hasCallback, [InitialProgress, s.last]),
                     [Spawn(CommandLine(script, playbook, req.extraVars), ChildEnvironment(host.environ, req.environment), root)]
                     + s.after)
  {
  }

  /** A successful run's output is in the result but not in the API view of it. */
  lemma SuccessOutputRedacted(root: string, script: string, req: Request, hasCallback: bool, host: Host,
                              out: string, err: string)
    requires ResolvePlaybookPath(root, req.playbookPath) in host.existing && script in host.existing
    requires host.outcome == Exited(0, Text(out), Text(err))
    ensures var r := Execute(root, script, req, hasCallback, host).result;
      && r.stdout == Some(out)
      && FormatResultForApi(r).status == "success"
      && FormatResultForApi(r).stdout.None? && FormatResultForApi(r).stderr.None?
  {
  }

  // ---------------------------------------------------------------------
  // The executor object and the callback

  /** A progress callback that records what it is given. */
  class ProgressRecorder {
    var events: seq<PlaybookProgress>

    constructor ()
      ensures events == []
    {
      events := [];
    }

    method Notify(p: PlaybookProgress)
      modifies this
      ensures events == old(events) + [p]
    {
      events := events + [p];
    }
  }

  class Executor {
    const thinkubeRoot: string
    const ansibleScript: string

    constructor (home: string)
      ensures thinkubeRoot == ThinkubeRoot(home) && ansibleScript == AnsibleScript(home)
    {
      thinkubeRoot := ThinkubeRoot(home);
      ansibleScript := AnsibleScript(home);
    }

    /** `execute_playbook`, step by step; it does what `Execute` describes. */
    method ExecutePlaybook(playbookPath: string, extraVars: Option<seq<(string, string)>>,
                           environment: Option<map<string, string>>, progressCallback: ProgressRecorder?,
                           timeout: Option<int>, host: Host)
      returns (result: PlaybookResult, requests: seq<ProcessRequest>)
      modifies progressCallback
      ensures var x := Execute(thinkubeRoot, ansibleScript, Request(playbookPath, extraVars, environment, timeout),
                               progressCallback != null, host);
        && result == x.result && requests == x.requests
        && (progressCallback != null ==> progressCallback.events == old(progressCallback.events) + x.events)
    {
      ghost var req := Request(playbookPath, extraVars, environment, timeout);
      var playbook := ResolvePlaybookPath(thinkubeRoot, playbookPath);
      if playbook !in host.existing {
        MissingPlaybook(thinkubeRoot, ansibleScript, req, progressCallback != null, host);
        return PlaybookNotFound(playbook), [];
      }
      if ansibleScript !in host.existing {
        MissingScript(thinkubeRoot, ansibleScript, req, progressCallback != null, host);
        return ScriptNotFound(ansibleScript), [];
      }

      var cmd := BuildCommand(ansibleScript, playbook, extraVars);
      var env := MergeEnvironment(host.environ, environment);

      if progressCallback != null {
        progressCallback.Notify(InitialProgress);
      }

      var after;
      result, after := AwaitProcess(progressCallback, timeout, host);
      requests := [Spawn(cmd, env, thinkubeRoot)] + after;
      Launched(thinkubeRoot, ansibleScript, req, progressCallback != null, host);
      ghost var s := Supervise(host.outcome, timeout, host.elapsed);
      assert progressCallback != null ==>
        progressCallback.events == old(progressCallback.events) + Notified(true, [InitialProgress, s.last]);
    }

    /** Lines 127-218 from the launch on: waits for the process and classifies what happened. */
    method AwaitProcess(progressCallback: ProgressRecorder?, timeout: Option<int>, host: Host)
      returns (result: PlaybookResult, after: seq<ProcessRequest>)
      modifies progressCallback
      ensures var s := Supervise(host.outcome, timeout, host.elapsed);
        && result == s.result && after == s.after
        && (progressCallback != null ==> progressCallback.events == old(progressCallback.events) + [s.last])
    {
      ghost var s := Supervise(host.outcome, timeout, host.elapsed);
      after := [];
      // the message of an exception that reaches the generic handler
      var raised: Option<string> := None;
      match host.outcome {
        case CreationTimedOut =>
          raised := Some(UnboundProcessMessage);
        case CreationRaised(reason) =>
          raised := Some(reason);
        case Exited(code, out, err) =>
          if out.Undecodable? {
            raised := Some(out.reason);
          } else if err.Undecodable? {
            raised := Some(err.reason);
          } else {
            if progressCallback != null {
              progressCallback.Notify(CompletionProgress(code));
            }
            result := ExitResult(code, out.text, err.text, host.elapsed);
            assert result == s.result;
          }
        case CommunicateTimedOut(shutdown) =>
          after := [Terminate];
          if !shutdown.StoppedOnTerminate? {
            after := after + [Kill];
          }
          assert after == s.after;
          if shutdown.KillRaised? {
            raised := Some(shutdown.reason);
          } else {
            if progressCallback != null {
              progressCallback.Notify(TimeoutProgress);
            }
            result := TimeoutResult(timeout, host.elapsed);
          }
      }
      if raised.Some? {
        assert s == Unexpected(raised.value, host.elapsed, after);
        if progressCallback != null {
          progressCallback.Notify(UnexpectedProgress(raised.value));
        }
        result := UnexpectedResult(raised.value, host.elapsed);
      }
    }
  }
}
