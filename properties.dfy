/** What the `initialize` pipeline and the dispatcher promise, over all
    scripted hosts and all initialization options. */
module Properties {
  import opened Results
  import opened Json
  import opened Host
  import opened InitOptions
  import opened Traces
  import opened Plugin

  /** A host on which the whole pipeline goes through to the launch. */
  predicate InstallsAndResolves(env: Env)
  {
    && SupportedArchitecture(env.architecture)
    && SupportedOs(env.operatingSystem)
    && env.npmVersion.Exited?
    && env.npmInstall.Exited?
    && env.voltUri.Ok?
    && env.parse(env.voltUri.value).Ok?
    && env.join(env.parse(env.voltUri.value).value, "emmet").Ok?
  }

  /** The server is launched with the strings of `serverArgs`, whichever way it
      is launched, so that the arguments also reach the install-directory launch. */
  lemma LaunchArgs(env: Env, options: Option<Json>, lsp: Json, items: seq<Json>)
    requires Lsp(options) == Some(lsp) && Get(lsp, "serverArgs") == Some(Array(items))
    ensures forall i :: 0 <= i < |Initialization(env, options).trace| && Initialization(env, options).trace[i].StartLsp?
              ==> Initialization(env, options).trace[i].args == Strings(items)
  {
  }

  /** A non-empty string `serverPath` short-circuits the pipeline: one launch with
      the URI parsed from "urn:" and the path, the collected arguments, the fixed
      selector and the options, and no platform query and no npm command. */
  lemma OverrideShortCircuit(env: Env, o: Json, lsp: Json, path: string)
    requires Get(o, "lsp") == Some(lsp) && Get(lsp, "serverPath") == Some(Str(path)) && path != ""
    ensures var run := Initialization(env, Some(o));
      match env.parse("urn:" + path)
      case Ok(uri) => run == Run([StartLsp(uri, ServerArgs(Some(o)), EmmetSelector, Some(o))], Ok(()))
      case Err(e) => run == Run([], Err(e))
  {
  }

  /** Without a usable override (no options, no `lsp`, no `serverPath`, one that
      is not a string, or the empty string) the pipeline goes on to the
      architecture query first. */
  lemma NoOverrideFallsThrough(env: Env, options: Option<Json>)
    requires || Lsp(options).None?
             || Get(Lsp(options).value, "serverPath").None?
             || !Get(Lsp(options).value, "serverPath").value.Str?
             || Get(Lsp(options).value, "serverPath").value.s == ""
    ensures Initialization(env, options).trace != []
    ensures Initialization(env, options).trace[0] == ArchitectureQueried
  {
  }

  /** An unknown or failing architecture ends the pipeline successfully and
      silently: no message, no launch, and the OS is never asked. */
  lemma ArchitectureGate(env: Env, options: Option<Json>)
    requires ServerPath(options).None?
    requires !(env.architecture == Ok("x86_64") || env.architecture == Ok("aarch64"))
    ensures Initialization(env, options) == Run([ArchitectureQueried], Ok(()))
  {
  }

  /** On a supported architecture, an unknown or failing OS ends the pipeline
      successfully and silently, before npm is run. */
  lemma OsGate(env: Env, options: Option<Json>)
    requires ServerPath(options).None? && SupportedArchitecture(env.architecture)
    requires !(env.operatingSystem == Ok("macos") || env.operatingSystem == Ok("linux")
               || env.operatingSystem == Ok("windows"))
    ensures Initialization(env, options) == Run([ArchitectureQueried, OsQueried], Ok(()))
  {
  }

  /** When `npm --version` cannot be spawned: one "Could not find npm" error,
      no install attempt, no launch, and the spawn error is returned. */
  lemma NpmMissing(env: Env, options: Option<Json>)
    requires ServerPath(options).None?
    requires SupportedArchitecture(env.architecture) && SupportedOs(env.operatingSystem)
    requires env.npmVersion.SpawnFailed?
    ensures var run := Initialization(env, options);
      && run.result == Err(env.npmVersion.reason)
      && run.trace == [ArchitectureQueried, OsQueried, NpmVersionCommand, ShowMessage(Error, NpmMissingMessage)]
      && CommandCount(run.trace, NpmInstallCommand) == 0
      && LaunchCount(run.trace) == 0
  {
    var t := Initialization(env, options).trace;
    assert |NpmVersionCommand.args| != |NpmInstallCommand.args|;
    CommandCountZero(t, NpmInstallCommand);
    LaunchCountZero(t);
  }

  /** When the install cannot be spawned after a successful check: one
      "Emmet-ls failed to install." error, no launch, and the spawn error is returned. */
  lemma InstallFailed(env: Env, options: Option<Json>)
    requires ServerPath(options).None?
    requires SupportedArchitecture(env.architecture) && SupportedOs(env.operatingSystem)
    requires env.npmVersion.Exited? && env.npmInstall.SpawnFailed?
    ensures var run := Initialization(env, options);
      && run.result == Err(env.npmInstall.reason)
      && run.trace == [ArchitectureQueried, OsQueried, NpmVersionCommand, NpmInstallCommand,
                       ShowMessage(Error, InstallFailedMessage)]
      && LaunchCount(run.trace) == 0
  {
    LaunchCountZero(Initialization(env, options).trace);
  }

  /** Only a failure to spawn counts: the exit statuses of both npm commands
      change nothing. */
  lemma ExitStatusIgnored(env: Env, options: Option<Json>, versionStatus: int, installStatus: int)
    requires env.npmVersion.Exited? && env.npmInstall.Exited?
    ensures Initialization(env, options)
         == Initialization(env.(npmVersion := Exited(versionStatus), npmInstall := Exited(installStatus)), options)
  {
  }

  /** The success path: the "installed successfully" message, then exactly one
      launch from the install directory joined with "emmet", with the collected
      arguments, the fixed html selector and the options. */
  lemma InstalledLaunch(env: Env, options: Option<Json>)
    requires ServerPath(options).None? && InstallsAndResolves(env)
    ensures var uri := env.join(env.parse(env.voltUri.value).value, "emmet").value;
      Initialization(env, options)
        == Run([ArchitectureQueried, OsQueried, NpmVersionCommand, NpmInstallCommand,
                ShowMessage(Info, InstalledMessage), OsQueried, UriQueried,
                StartLsp(uri, ServerArgs(options),
                         [DocumentFilter(Some("html"), Some("**/*.{jsx,tsx}"), None)], options)], Ok(()))
  {
  }

  /** After a successful install, a failing install-directory URI, parse or join
      returns the error of the step that failed, with no launch. */
  lemma InstallDirectoryFailure(env: Env, options: Option<Json>)
    requires ServerPath(options).None?
    requires SupportedArchitecture(env.architecture) && SupportedOs(env.operatingSystem)
    requires env.npmVersion.Exited? && env.npmInstall.Exited?
    requires !InstallsAndResolves(env)
    ensures var run := Initialization(env, options);
      && run.result == (if env.voltUri.Err? then Err(env.voltUri.error)
                        else if env.parse(env.voltUri.value).Err? then Err(env.parse(env.voltUri.value).error)
                        else Err(env.join(env.parse(env.voltUri.value).value, "emmet").error))
      && run.trace == Installed
      && LaunchCount(run.trace) == 0
  {
    LaunchCountZero(Installed);
  }

  /** Switching between Windows and another supported OS changes the computed
      file name, yet it never reaches the launch: every supported OS gives the
      same events and the same result. */
  lemma WindowsSuffixUnused(env: Env, options: Option<Json>, os: Result<string>)
    requires SupportedOs(env.operatingSystem) && SupportedOs(os)
    ensures (os == Ok("windows")) != (env.operatingSystem == Ok("windows"))
            ==> ServerFileName(os) != ServerFileName(env.operatingSystem)
    ensures Initialization(env, options) == Initialization(env.(operatingSystem := os), options)
  {
  }

  /** A trace with no `StartLsp` keeps the launch discipline, and so does one
      `StartLsp` appended to it when it shows no error. */
  lemma LaunchDiscipline(trace: seq<Event>, last: Event)
    requires forall i :: 0 <= i < |trace| ==> !trace[i].StartLsp?
    ensures LaunchCount(trace) == 0 && NoLaunchAfterError(trace)
    ensures last.StartLsp? && (forall i :: 0 <= i < |trace| ==> !IsErrorMessage(trace[i]))
            ==> LaunchCount(trace + [last]) == 1 && NoLaunchAfterError(trace + [last])
  {
    LaunchCountZero(trace);
    CountsAppend(trace, [last], last);
  }

  /** Whatever the host answers: at most one launch, none when an error is
      returned, none after an error message, and a launch is the last event. */
  lemma InitializationLaunchesAtMostOnce(env: Env, options: Option<Json>)
    ensures var run := Initialization(env, options);
      && LaunchCount(run.trace) <= 1
      && (run.result.Err? ==> LaunchCount(run.trace) == 0)
      && NoLaunchAfterError(run.trace)
      && (LaunchCount(run.trace) == 1 ==> run.trace[|run.trace| - 1].StartLsp?)
  {
    var args := ServerArgs(options);
    match ServerPath(options)
    case Some(path) =>
      match env.parse("urn:" + path) {
        case Ok(uri) => LaunchDiscipline([], StartLsp(uri, args, EmmetSelector, options));
        case Err(_) => LaunchDiscipline([], ArchitectureQueried);
      }
    case None =>
      if !SupportedArchitecture(env.architecture) || !SupportedOs(env.operatingSystem) {
        LaunchDiscipline(Initialization(env, options).trace, ArchitectureQueried);
      } else if env.npmVersion.SpawnFailed? || env.npmInstall.SpawnFailed? {
        LaunchDiscipline(Initialization(env, options).trace, ArchitectureQueried);
      } else {
        LaunchInstalledDiscipline(env, args, options);
      }
  }

  /** The install-directory launch keeps the launch discipline. */
  lemma LaunchInstalledDiscipline(env: Env, args: seq<string>, options: Option<Json>)
    ensures var run := LaunchInstalled(env, args, options);
      && LaunchCount(run.trace) <= 1
      && (run.result.Err? ==> LaunchCount(run.trace) == 0)
      && NoLaunchAfterError(run.trace)
      && (LaunchCount(run.trace) == 1 ==> run.trace[|run.trace| - 1].StartLsp?)
  {
    var run := LaunchInstalled(env, args, options);
    if run.result.Ok? {
      LaunchDiscipline(Installed, run.trace[|Installed|]);
      assert run.trace == Installed + [run.trace[|Installed|]];
    } else {
      LaunchDiscipline(Installed, ArchitectureQueried);
    }
  }

  /** Methods other than `initialize` have no effect at all. */
  lemma OtherMethodsIgnored(env: Env, methodName: string, params: InitializeParams)
    requires methodName != InitializeMethod
    ensures Dispatch(env, methodName, params) == []
  {
  }

  /** The generic report of a failed `initialize`. */
  predicate IsGenericError(e: Event)
  {
    IsErrorMessage(e) && ErrorPrefix <= e.text
  }

  /** An error from `initialize` adds exactly one trailing generic error message
      with its description; a success adds nothing. */
  lemma ErrorsReportedOnce(env: Env, params: InitializeParams)
    ensures var run := Initialization(env, params.initializationOptions);
      && (forall i :: 0 <= i < |run.trace| ==> !IsGenericError(run.trace[i]))
      && Dispatch(env, InitializeMethod, params)
         == run.trace + (if run.result.Err? then [ShowMessage(Error, ErrorPrefix + run.result.error)] else [])
  {
    assert ErrorPrefix[0] == 'p';
    assert NpmMissingMessage[0] == 'C';
    assert InstallFailedMessage[0] == 'E';
  }

  /** The dispatcher keeps the launch discipline: at most one launch per
      request and never one after an error message, the generic one included. */
  lemma DispatchLaunchesAtMostOnce(env: Env, methodName: string, params: InitializeParams)
    ensures LaunchCount(Dispatch(env, methodName, params)) <= 1
    ensures NoLaunchAfterError(Dispatch(env, methodName, params))
  {
    if methodName == InitializeMethod {
      var run := Initialization(env, params.initializationOptions);
      InitializationLaunchesAtMostOnce(env, params.initializationOptions);
      if run.result.Err? {
        var report := ShowMessage(Error, ErrorPrefix + run.result.error);
        LaunchCountZero(run.trace);
        LaunchDiscipline(run.trace + [report], report);
      }
    }
  }

  /** A request that goes all the way to the install-directory launch. */
  predicate InstallingInitialize(c: Call)
  {
    && c.methodName == InitializeMethod
    && ServerPath(c.params.initializationOptions).None?
    && InstallsAndResolves(c.env)
  }

  /** Nothing is cached between requests: n such requests run the install n
      times and launch the server n times. */
  lemma {:induction false} NoCachingAcrossRequests(calls: seq<Call>)
    requires forall i :: 0 <= i < |calls| ==> InstallingInitialize(calls[i])
    ensures LaunchCount(Session(calls)) == |calls|
    ensures CommandCount(Session(calls), NpmInstallCommand) == |calls|
  {
    if calls != [] {
      var c := calls[0];
      var options := c.params.initializationOptions;
      InstalledLaunch(c.env, options);
      var launch := Initialization(c.env, options).trace[|Installed|];
      assert Dispatch(c.env, c.methodName, c.params) == Installed + [launch];
      NoCachingAcrossRequests(calls[1..]);
      CountsAppend(Installed + [launch], Session(calls[1..]), NpmInstallCommand);
      CountsAppend(Installed, [launch], NpmInstallCommand);
      InstalledCounts();
    }
  }

  /** The events before the install-directory launch hold one install command
      and no launch. */
  lemma InstalledCounts()
    ensures CommandCount(Installed, NpmInstallCommand) == 1
    ensures LaunchCount(Installed) == 0
  {
    var before := [ArchitectureQueried, OsQueried, NpmVersionCommand];
    var after := [ShowMessage(Info, InstalledMessage), OsQueried, UriQueried];
    assert Installed == before + [NpmInstallCommand] + after;
    CountsAppend(before + [NpmInstallCommand], after, NpmInstallCommand);
    CountsAppend(before, [NpmInstallCommand], NpmInstallCommand);
    assert |NpmVersionCommand.args| != |NpmInstallCommand.args|;
    CommandCountZero(before, NpmInstallCommand);
    CommandCountZero(after, NpmInstallCommand);
    assert [NpmInstallCommand][1..] == [];
    LaunchCountZero(Installed);
  }
}
