/** What the plugin sees of its host: the scripted answers of the host's
    queries and the events the plugin causes, in the order it causes them. */
module Host {
  import opened Results
  import opened Json

  /** A parsed URL; its text is all the model needs of it. */
  datatype Url = Url(text: string)

  /** `MessageType::INFO` and `MessageType::ERROR`. */
  datatype Severity = Info | Error

  /** An LSP document filter; `None` matches anything. */
  datatype DocumentFilter = DocumentFilter(language: Option<string>, pattern: Option<string>, scheme: Option<string>)

  /** The outcome of `Command::status()`: the child ran and exited with some
      status, or it could not be spawned at all. */
  datatype SpawnOutcome = Exited(status: int) | SpawnFailed(reason: string)

  /** One interaction of the plugin with its host. */
  datatype Event =
    | ArchitectureQueried                               // VoltEnvironment::architecture()
    | OsQueried                                         // VoltEnvironment::operating_system()
    | UriQueried                                        // VoltEnvironment::uri()
    | CommandRun(program: string, args: seq<string>)    // process::Command::status(), spawned or not
    | ShowMessage(severity: Severity, text: string)     // PLUGIN_RPC.window_show_message
    | StartLsp(uri: Url, args: seq<string>, selector: seq<DocumentFilter>, options: Option<Json>)
                                                        // PLUGIN_RPC.start_lsp

  /** The scripted host: the answer of every query the plugin can make.
      `parse` and `join` stand for `Url::parse` and `Url::join`. */
  datatype Env = Env(
    architecture: Result<string>,
    operatingSystem: Result<string>,
    npmVersion: SpawnOutcome,
    npmInstall: SpawnOutcome,
    voltUri: Result<string>,
    parse: string -> Result<Url>,
    join: (Url, string) -> Result<Url>)

  /** The part of `InitializeParams` the plugin reads. */
  datatype InitializeParams = InitializeParams(initializationOptions: Option<Json>)
}
