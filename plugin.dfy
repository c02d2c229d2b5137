/** The plugin's `initialize` pipeline and its request dispatcher. */
module Plugin {
  import opened Results
  import opened Json
  import opened Host
  import opened InitOptions

  /** The one document filter the server is registered for. */
  const EmmetSelector: seq<DocumentFilter> :=
    [DocumentFilter(Some("html"), Some("**/*.{jsx,tsx}"), None)]

  const NpmMissingMessage: string :=
    "Could not find npm. " + "Npm must be available to download emmet-ls."
  const InstallFailedMessage: string := "Emmet-ls failed to install."
  const InstalledMessage: string := "Emmet-ls installed successfully!"
  const ErrorPrefix: string := "plugin returned with error: "

  /** `npm --version` and `npm install -g emmet-ls`. */
  const NpmVersionCommand := CommandRun("npm", ["--version"])
  const NpmInstallCommand := CommandRun("npm", ["install", "-g", "emmet-ls"])

  /** The LSP method name of the `Initialize` request. */
  const InitializeMethod: string := "initialize"

  predicate SupportedArchitecture(arch: Result<string>)
  {
    arch == Ok("x86_64") || arch == Ok("aarch64")
  }

  predicate SupportedOs(os: Result<string>)
  {
    os == Ok("macos") || os == Ok("linux") || os == Ok("windows")
  }

  /** The server's file name, with the Windows executable suffix. The plugin
      computes it and never uses it. */
  function ServerFileName(os: Result<string>): string
  {
    if os == Ok("windows") then "[filename]" + ".exe" else "[filename]"
  }

  /** What one `initialize` does: the events it causes and what it returns. */
  datatype Run = Run(trace: seq<Event>, result: Result<()>)

  /** The events of the platform probes and the npm steps on the way to the
      install-directory launch. */
  const Installed: seq<Event> :=
    [ArchitectureQueried, OsQueried, NpmVersionCommand, NpmInstallCommand,
     ShowMessage(Info, InstalledMessage), OsQueried, UriQueried]

  /** The launch from the plugin's install directory, after `Installed`. */
  function LaunchInstalled(env: Env, args: seq<string>, options: Option<Json>): Run
  {
    match env.voltUri
    case Err(e) => Run(Installed, Err(e))
    case Ok(voltUri) =>
      match env.parse(voltUri)
      case Err(e) => Run(Installed, Err(e))
      case Ok(base) =>
        match env.join(base, "emmet")
        case Err(e) => Run(Installed, Err(e))
        case Ok(uri) => Run(Installed + [StartLsp(uri, args, EmmetSelector, options)], Ok(()))
  }

  /** The specification of `initialize`, stage by stage: the user override, the
      architecture gate, the OS gate, the npm check, the install, the launch. */
  function Initialization(env: Env, options: Option<Json>): Run
  {
    var args := ServerArgs(options);
    match ServerPath(options)
    case Some(path) =>
      (match env.parse("urn:" + path)
       case Ok(uri) => Run([StartLsp(uri, args, EmmetSelector, options)], Ok(()))
       case Err(e) => Run([], Err(e)))
    case None =>
      if !SupportedArchitecture(env.architecture) then
        Run([ArchitectureQueried], Ok(()))
      else if !SupportedOs(env.operatingSystem) then
        Run([ArchitectureQueried, OsQueried], Ok(()))
      else
        match env.npmVersion
        case SpawnFailed(e) =>
          Run([ArchitectureQueried, OsQueried, NpmVersionCommand,
               ShowMessage(Error, NpmMissingMessage)], Err(e))
        case Exited(_) =>
          match env.npmInstall
          case SpawnFailed(e) =>
            Run([ArchitectureQueried, OsQueried, NpmVersionCommand, NpmInstallCommand,
                 ShowMessage(Error, InstallFailedMessage)], Err(e))
          case Exited(_) => LaunchInstalled(env, args, options)
  }

  /** `initialize`, step by step with its early returns, against a scripted host. */
  method Initialize(env: Env, params: InitializeParams) returns (trace: seq<Event>, result: Result<()>)
    ensures Run(trace, result) == Initialization(env, params.initializationOptions)
  {
    trace := [];
    var documentSelector := EmmetSelector;
    var options := params.initializationOptions;
    var serverArgs := CollectServerArgs(options);

    // user-specified server path
    if options.Some? {
      var lsp := Get(options.value, "lsp");
      if lsp.Some? {
        var serverPath := Get(lsp.value, "serverPath");
        if serverPath.Some? && serverPath.value.Str? && serverPath.value.s != "" {
          var serverUri := env.parse("urn:" + serverPath.value.s);
          if serverUri.Err? {
            return trace, Err(serverUri.error);
          }
          trace := trace + [StartLsp(serverUri.value, serverArgs, documentSelector, options)];
          return trace, Ok(());
        }
      }
    }

    // architecture check
    trace := trace + [ArchitectureQueried];
    var arch := env.architecture;
    if arch != Ok("x86_64") && arch != Ok("aarch64") {
      return trace, Ok(());
    }

    // OS check
    trace := trace + [OsQueried];
    var os := env.operatingSystem;
    if os != Ok("macos") && os != Ok("linux") && os != Ok("windows") {
      return trace, Ok(());
    }

    // npm check, then install
    trace := trace + [NpmVersionCommand];
    if env.npmVersion.SpawnFailed? {
      trace := trace + [ShowMessage(Error, NpmMissingMessage)];
      return trace, Err(env.npmVersion.reason);
    }
    trace := trace + [NpmInstallCommand];
    if env.npmInstall.SpawnFailed? {
      trace := trace + [ShowMessage(Error, InstallFailedMessage)];
      return trace, Err(env.npmInstall.reason);
    }
    trace := trace + [ShowMessage(Info, InstalledMessage)];

    // the executable name is computed and dropped
    trace := trace + [OsQueried];
    var fileName := ServerFileName(env.operatingSystem);

    // plugin working directory
    trace := trace + [UriQueried];
    if env.voltUri.Err? {
      return trace, Err(env.voltUri.error);
    }
    var base := env.parse(env.voltUri.value);
    if base.Err? {
      return trace, Err(base.error);
    }
    var serverUri := env.join(base.value, "emmet");
    if serverUri.Err? {
      return trace, Err(serverUri.error);
    }
    trace := trace + [StartLsp(serverUri.value, serverArgs, documentSelector, options)];
    result := Ok(());
  }

  /** The specification of `handle_request`: `initialize` runs the pipeline and
      reports an error through one more error message; other methods do nothing. */
  function Dispatch(env: Env, methodName: string, params: InitializeParams): seq<Event>
  {
    if methodName == InitializeMethod then
      var run := Initialization(env, params.initializationOptions);
      match run.result
      case Ok(_) => run.trace
      case Err(e) => run.trace + [ShowMessage(Error, ErrorPrefix + e)]
    else
      []
  }

  /** `handle_request`: the params are taken as already deserialized. */
  method HandleRequest(env: Env, methodName: string, params: InitializeParams) returns (trace: seq<Event>)
    ensures trace == Dispatch(env, methodName, params)
  {
    trace := [];
    if methodName == InitializeMethod {
      var result;
      trace, result := Initialize(env, params);
      if result.Err? {
        trace := trace + [ShowMessage(Error, ErrorPrefix + result.error)];
      }
    }
  }

  /** One request the host delivers, with the host's answers at that time. */
  datatype Call = Call(env: Env, methodName: string, params: InitializeParams)

  /** The events of a sequence of requests handled one after the other by the
      same plugin; the plugin's state has no fields, so nothing carries over. */
  function Session(calls: seq<Call>): seq<Event>
  {
    if calls == [] then []
    else Dispatch(calls[0].env, calls[0].methodName, calls[0].params) + Session(calls[1..])
  }
}
