# lapce-emmet-ls: the `initialize` pipeline

This project models the bootstrap logic of the Lapce plugin that runs the
emmet-ls language server. When the editor sends `initialize`, the plugin decides
what to launch, in this order:

1. It reads a user override from `initializationOptions.lsp`: `serverPath` and
   `serverArgs`.
2. It checks the architecture, then the operating system.
3. It runs `npm --version`, then `npm install -g emmet-ls`, and tells the user
   how that went.
4. It starts the language server at most once, with a fixed document selector.

The host is a scripted record, `Host.Env`. It holds the answers to the
architecture, OS and install-directory queries, the spawn outcome of each npm
command, and the URL `parse` and `join` functions. The plugin's effects make a
trace of `Host.Event`s: host queries, attempts to spawn a command (recorded whether
or not the spawn succeeds), messages shown, and
`StartLsp(uri, args, selector, options)`. `initialize` also returns
`Ok(())` or `Err(description)`.

Modules:
- `Results`: `Option` and `Result`.
- `Json`: the JSON value and `Value::get` with a string key.
- `Host`: URLs, severities, document filters, events, the scripted host, and the
  part of `InitializeParams` that is read.
- `InitOptions`: reading `lsp.serverPath` and `lsp.serverArgs`, including the
  imperative argument-collecting loop.
- `Plugin`: the pipeline as a specification function (`Initialization`) and as a
  method with early returns (`Initialize`), and likewise the dispatcher
  (`Dispatch` / `HandleRequest`).
- `Traces`: launch and command counts over traces.
- `Properties`: what the pipeline promises, for every host and every set of options.

Three behaviours of the code are easy to miss, and the model follows the code in each:
- Only a failure to *spawn* npm is an error. The exit status of both npm
  commands is ignored (`Properties.ExitStatusIgnored`).
- The strings of `serverArgs` are passed to the install-directory launch too,
  not only to the override launch (`Properties.LaunchArgs`).
- The Windows `.exe` file name is computed and then dropped. Every supported OS
  gives the same launch (`Properties.WindowsSuffixUnused`).

## Model

| member | source | states |
|---|---|---|
| InitOptions.CollectServerArgs | src/main.rs:37-57 | The step-by-step collection, including the second clear of a non-empty array, gives exactly `ServerArgs`: the string elements of `lsp.serverArgs`. The clear has no net effect. |
| InitOptions.ServerArgsEmptyUnlessArray | src/main.rs:45-58 | No options, no `lsp`, no `serverArgs`, or a `serverArgs` that is not an array gives no arguments. An array gives its string elements. |
| InitOptions.StringsAppend | src/main.rs:52-56 | Collecting strings distributes over concatenation, so the original order is kept. |
| InitOptions.StringsMembers | src/main.rs:52-56 | A string is collected if and only if the array holds it as a string element. Nothing is collected if and only if there is no string element. There are never more arguments than elements. |
| InitOptions.StringsOfAllStrings | src/main.rs:47-56 | When every element is a string, the arguments are the array itself, element by element. |
| Plugin.Initialize | src/main.rs:28-157 | The method, with its early returns, its trace appends and its discarded file name, produces exactly the events and result of the stage-by-stage specification `Initialization`. |
| Plugin.HandleRequest | src/main.rs:160-171 | The dispatcher method produces exactly the events of `Dispatch`. |
| Properties.LaunchArgs | src/main.rs:37-154 | Every launch, override or install-directory, carries the string elements of `serverArgs`. |
| Properties.OverrideShortCircuit | src/main.rs:60-73 | A non-empty string `serverPath` gives exactly one `StartLsp`: URI parsed from "urn:" plus the path, the collected arguments, the fixed selector, the options, then `Ok`. A parse error gives `Err` and no event. No platform query or npm command happens. |
| Properties.NoOverrideFallsThrough | src/main.rs:45-78 | With no options, no `lsp`, no `serverPath`, a non-string one, or the empty string, the first event is the architecture query. |
| Properties.ArchitectureGate | src/main.rs:78-82 | An architecture other than "x86_64" or "aarch64", or a failed query, ends with `Ok`: no message, no launch, no OS query. |
| Properties.OsGate | src/main.rs:85-90 | On a supported architecture, an OS other than "macos", "linux" or "windows", or a failed query, ends with `Ok` before npm runs: no message, no launch. |
| Properties.NpmMissing | src/main.rs:94-130 | If `npm --version` cannot be spawned: exactly one "Could not find npm…" error message, no install command, no launch, and `Err` with the spawn error. |
| Properties.InstallFailed | src/main.rs:101-122 | If the version check spawns but the install cannot: exactly one "Emmet-ls failed to install." error message, no launch, and `Err` with the spawn error. |
| Properties.ExitStatusIgnored | src/main.rs:94-108 | Any exit statuses of the two npm commands give the same events and the same result. |
| Properties.InstalledLaunch | src/main.rs:110-154 | On the success path, the info "Emmet-ls installed successfully!" comes before exactly one `StartLsp`. That launch uses the install-directory URI joined with "emmet", the collected arguments, the selector `[{language: "html", pattern: "**/*.{jsx,tsx}", scheme: None}]` and the options. Then `Ok`. |
| Properties.InstallDirectoryFailure | src/main.rs:140-142 | After a successful install, a failing install-directory query, parse or join returns that step's error with no launch. |
| Properties.WindowsSuffixUnused | src/main.rs:133-142 | Switching between Windows and another supported OS changes the computed file name, yet all supported operating systems give the same events and result. |
| Properties.InitializationLaunchesAtMostOnce | src/main.rs:28-157 | For every host and all options: at most one launch, none when `Err` is returned, none after an error message, and any launch is the last event. |
| Properties.LaunchInstalledDiscipline | src/main.rs:140-156 | The install-directory launch step keeps the same discipline. |
| Properties.OtherMethodsIgnored | src/main.rs:162-170 | A method other than "initialize" has no effect. |
| Properties.ErrorsReportedOnce | src/main.rs:165-167 | The pipeline never shows the generic report itself. An `Err` from `initialize` adds exactly one trailing "plugin returned with error: " message with the error's description. `Ok` adds nothing. |
| Properties.DispatchLaunchesAtMostOnce | src/main.rs:160-171 | A handled request launches at most once, and never after any error message, the generic report included. |
| Properties.NoCachingAcrossRequests | src/main.rs:159-171 | The plugin state has no fields, so n requests that reach the install-directory launch run the install n times and launch n times. |

## Left out

- Running subprocesses (`process::Command`). Each npm command is a scripted "exited with some status" or "could not be spawned".
- The RPC transport and the host calls (`PLUGIN_RPC.start_lsp`, `window_show_message`, `VoltEnvironment::*`). They are foreign calls: the model gives them as trace events and scripted answers.
- `Url::parse` and `Url::join` are library code. They are arbitrary, possibly failing functions in the scripted host.
- The serde deserialization of the request params and the `unwrap` panic on malformed params. `HandleRequest` takes params that are already typed, and the request id it ignores is not modelled.
- `register_plugin!`, the lint attributes and the WASI concerns are macros and build configuration.
- The host capabilities in `InitializeParams`. The plugin never reads them.
- JSON numbers are integers in the model. The plugin never inspects a number.
- The host answers the OS query the same way both times it is asked. The answer to the second query is only used for the discarded file name.
