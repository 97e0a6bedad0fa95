# AdrenalineSpy core, modelled in Dafny

AdrenalineSpy is a C# scraping robot. Its core is three small pieces of
deterministic logic that sit around the browser and logging libraries:

- **Settings** (`Config.cs`). These are the settings records and their
  defaults, the lazily loaded singleton `Config.Instancia`, and the five
  required-field checks of `Validar`, which collect every failure rather
  than stopping at the first. The last piece is the provider-specific
  database connection string of `ObterConnectionString`.
- **Logging** (`Workflow/Tasks/LoggingTask.cs`). This is the static facade
  over Serilog. `ParseNivel` is a case-insensitive level parser with an
  Information fallback. Two file streams split events at Warning, and their
  paths carry the configure-time date in "dd-MM-yyyy" form. A
  `_configurado` flag makes configuration happen at most once, and
  `FecharLogger` closes the logger.
- **Browser session** (`Playwright.cs`). This is the static session around
  Playwright. It keeps a memoised driver and browser, and picks the engine
  from the lower-cased configured name. It derives the launch, page and
  navigation timeouts as `TimeoutSegundos * 1000`, and builds the browser
  context options and the resource-blocking glob list. It also covers
  navigation and waiting, and a shutdown that never throws.

Files:

- `text.dfy` (module `Text`): the .NET behaviours the source relies on. These
  are ASCII `ToLower`, `char.IsWhiteSpace`, decimal rendering of `int`,
  `String.Replace`, the "dd-MM-yyyy" date format, and unchecked 32-bit
  wrap-around.
- `wrappers.dfy` (module `Wrappers`): `Option` and `Result`.
- `settings.dfy` (module `Settings`): `Config.cs`.
- `logging.dfy` (module `Logging`): `LoggingTask.cs`.
- `browser.dfy` (module `Browser`): `Playwright.cs`.

The model follows the source's own form:

- Settings snapshots are values. `Validar` is a method that appends to its
  error list step by step, and it is proved equal to a specification
  function whose properties are lemmas.
- `Config.Instancia`, the logger and the browser session are classes whose
  methods update fields.
- The blocking routine loops over its pattern list to install routes.
- The outside world enters as parameters:
  - the settings file is a `LoadOutcome`;
  - today's date is a `Date`;
  - success or failure of each Playwright call is an outcome parameter;
  - the log sinks' output is the `written` sequence of `Logger`.

Behaviours of the code that the proofs make explicit:

- `TimeoutSegundos * 1000` is evaluated in unchecked 32-bit `int`
  arithmetic. 2147484 seconds passes validation (it is positive) yet gives a
  negative timeout of -2147483296 ms (`Browser.TimeoutMsOverflow`).
- If the settings file cannot be loaded, the singleton already holds a
  default instance. The next access returns those defaults instead of
  failing again (`Settings.FailedLoadLeavesDefaults`). For the logger, a
  second `ConfigurarLogger` therefore succeeds with the default logging
  settings (`Logging.RetryAfterFailedLoad`).
- `FecharLogger` does not clear `_configurado`, so configuring again after
  closing installs nothing and every later report is lost
  (`Logging.CloseIsFinal`).
- When a launch fails after the driver was created, the next attempt creates
  a second driver and the first is never disposed
  (`Browser.FailedLaunchIsRetried`).
- A browser whose `CloseAsync` fails stays held and is handed out again
  (`Browser.CloseFailureKeepsBrowser`).

- The console sink is subject to the root minimum level like the file
  sinks.
- Each file sink sits behind a sub-logger of its own, built by
  `WriteTo.Logger` without a minimum level, so Serilog's default floor of
  Information applies to it. Verbose and Debug reports therefore reach
  neither file, even when `NivelMinimo` is "Debug" or "Verbose"; at most
  they reach the console (`Logging.NoFileBelowInformation`,
  `Logging.DebugReachesConsoleOnly`).

## Model

| member | source | states |
|---|---|---|
| `Text.Wrap32` | Playwright.cs:34 | the result is the C# `int` congruent to the input modulo 2^32, and equals the input whenever it is in `int` range |
| `Text.ToLowerIdempotent` | Config.cs:119 | lower-casing an already lower-cased text changes nothing, so lower-case names match themselves |
| `Text.ToLowerOfLower` | Playwright.cs:38 | a text without upper-case letters is its own lower-case form |
| `Text.ToLowerUpperLower` | Workflow/Tasks/LoggingTask.cs:69 | texts that differ only in the case of letters lower-case to the same text |
| `Text.IntToString` | Config.cs:121-122 | the rendering of an `int` is non-empty, starts with '-' exactly for negatives, and is otherwise all digits |
| `Text.ParseNatToString` | Config.cs:121 | reading back the decimal rendering of a natural number gives the number |
| `Text.IntToStringRoundTrip` | Config.cs:121 | reading back the decimal rendering of any `int` gives the number |
| `Text.IntToStringInjective` | Config.cs:121-128 | distinct port or timeout values render differently |
| `Text.ReplaceAbsent` | Workflow/Tasks/LoggingTask.cs:27 | `Replace` leaves a text without the pattern unchanged |
| `Text.ReplaceSplit` | Workflow/Tasks/LoggingTask.cs:33 | text before the first occurrence is kept, the occurrence becomes the replacement, and replacing continues after it |
| `Text.ReplaceLeavesNone` | Workflow/Tasks/LoggingTask.cs:27 | after replacing with a text that shares no character with the pattern, no occurrence of the pattern remains |
| `Text.DateStamp` | Workflow/Tasks/LoggingTask.cs:16 | "dd-MM-yyyy" is ten characters, digits except for dashes at positions 2 and 5 |
| `Text.Pad2RoundTrip` | Workflow/Tasks/LoggingTask.cs:16 | the two-digit day or month field reads back as the number |
| `Text.Pad4RoundTrip` | Workflow/Tasks/LoggingTask.cs:16 | the four-digit year field reads back as the number |
| `Text.DateStampRoundTrip` | Workflow/Tasks/LoggingTask.cs:16 | the date stamp determines the date: day, month and year read back from it |
| `Settings.Validar` | Config.cs:84-111 | the error list built step by step equals the specified list of failing checks' messages, and the result is true exactly when that list is empty |
| `Settings.ValidarAcceptsIff` | Config.cs:88-101 | no errors exactly when the base URL is not blank, the timeout is positive, there is a category, and the database name and user are not blank |
| `Settings.ValidationErrorsShape` | Config.cs:86-101 | one message per failing check and no others, in the fixed check order; a check's message is present exactly when that check fails |
| `Settings.ErrorsOfFailingChecks` | Config.cs:86-101 | the error list is the messages of the failing checks, so validation never stops at the first failure |
| `Settings.ReportedAllChecks` | Config.cs:88-101 | running the five checks in order reports exactly what validation reports |
| `Settings.ReportedAllFailing` | Config.cs:86-101 | reporting check by check gives the messages of the failing checks, in order |
| `Settings.MessagesAppend` | Config.cs:86-101 | the messages of two check lists appended are the two message lists appended |
| `Settings.FailingMembers` | Config.cs:88-101 | a check is selected exactly when it is among those run and it fails |
| `Settings.FailingChecksExact` | Config.cs:88-101 | a check is reported exactly when it fails |
| `Settings.FailingOrdered` | Config.cs:88-101 | selecting the failing checks keeps the order they run in |
| `Settings.MessageInjective` | Config.cs:89-101 | each check has its own message, so a message identifies the check |
| `Settings.DefaultConfigErrors` | Config.cs:136-165 | a freshly defaulted configuration gets exactly four errors, for URL, categories, database name and user, because the timeout defaults to 30 |
| `Settings.ClearingOneFieldReportsIt` | Config.cs:88-101 | in an otherwise valid configuration, clearing one required field yields exactly that field's message |
| `Settings.ProviderOf` | Config.cs:119-130 | each of "mysql", "postgresql" and "sqlserver" selects its provider exactly when the lower-cased name equals it |
| `Settings.ObterConnectionString` | Config.cs:117-132 | a string is produced exactly when the lower-cased provider is one of the three names; otherwise `NotSupportedException` with the provider's message |
| `Settings.UnsupportedNamesProvider` | Config.cs:130 | the unsupported-provider message contains the provider text exactly as configured |
| `Settings.ProviderCaseInsensitive` | Config.cs:119 | provider names that agree after lower-casing give the same outcome and the same string |
| `Settings.ConnectionStringFields` | Config.cs:121-128 | when host, database name, user and password contain no ';', reading the produced string back as ';'-terminated "key=value" fields gives the provider's key list in its order with the configured values, SQL Server's server being host and port joined by a comma |
| `Settings.TerminatedFields` | Config.cs:121-128 | writing well-formed fields as "key=value;" and reading them back gives the same fields |
| `Settings.FieldsWellFormed` | Config.cs:121-128 | every key is non-empty and free of '=' and ';', and values are free of ';' when the configured texts are |
| `Settings.LoadResult` | Config.cs:43-79 | loading succeeds exactly when the file exists and deserialises to a non-null object, and then yields that object. A missing file gives `FileNotFoundException`, a null result `InvalidOperationException` with its message, and a reading or JSON failure its own exception |
| `Settings.ConfigStore.constructor` | Config.cs:11 | no instance is held before the first access |
| `Settings.ConfigStore.Carregar` | Config.cs:43-79 | on success every section of the held instance is replaced by the loaded one; on failure the held instance is unchanged and the error is passed on |
| `Settings.ConfigStore.Instancia` | Config.cs:24-35 | the first access creates a default instance, stores it and loads into it; later accesses return the stored instance without loading |
| `Settings.FailedLoadLeavesDefaults` | Config.cs:24-35 | after a failed first load, the next access yields the defaults, which validation rejects |
| `Logging.LevelNamedSpec` | Workflow/Tasks/LoggingTask.cs:69-77 | a level name selects the level of that name; any other text selects Information |
| `Logging.LevelNameInjective` | Workflow/Tasks/LoggingTask.cs:71-76 | the six switch labels are distinct, so each selects one level |
| `Logging.LevelNameLower` | Workflow/Tasks/LoggingTask.cs:71-76 | the switch labels are all lower case |
| `Logging.ParseNivelRoundTrip` | Workflow/Tasks/LoggingTask.cs:69-76 | each level's name parses to that level |
| `Logging.ParseNivelAnyCase` | Workflow/Tasks/LoggingTask.cs:69-76 | a level name in any mixture of letter case parses to that level |
| `Logging.ParseNivelFallback` | Workflow/Tasks/LoggingTask.cs:77 | a text that names no level in any case parses to Information |
| `Logging.UnknownNames` | Workflow/Tasks/LoggingTask.cs:77 | the empty text and "warn" name no level, so they fall back to Information |
| `Logging.StampAvoidsToken` | Workflow/Tasks/LoggingTask.cs:16 | the date stamp shares no character with "{Date}" |
| `Logging.SinkPathHasNoToken` | Workflow/Tasks/LoggingTask.cs:27 | no "{Date}" survives in a file sink's name |
| `Logging.SinkPathWithoutToken` | Workflow/Tasks/LoggingTask.cs:33 | a template without "{Date}" gives directory, slash and the template unchanged |
| `Logging.SinkPathOneToken` | Workflow/Tasks/LoggingTask.cs:27 | a template whose first "{Date}" is followed by no other gives directory, slash, and the template with the date stamp in the token's place |
| `Logging.BelowMinimumReachesNothing` | Workflow/Tasks/LoggingTask.cs:19 | an event below the minimum level reaches no sink |
| `Logging.RoutingPartition` | Workflow/Tasks/LoggingTask.cs:18-34 | an event at or above the minimum reaches the console, and then no file if Verbose or Debug, the success file if Information, the failure file if Warning or above |
| `Logging.NoFileBelowInformation` | Workflow/Tasks/LoggingTask.cs:24-34 | Verbose and Debug events reach neither file, whatever the minimum: only the console, and only when the minimum lets them through |
| `Logging.ExactlyOneFile` | Workflow/Tasks/LoggingTask.cs:24-34 | an event at Information or above that passes the minimum reaches exactly one of the two files, never both, never neither |
| `Logging.DispatchCarries` | Workflow/Tasks/LoggingTask.cs:41-59 | every entry written for an event carries its level, text and exception |
| `Logging.SuccessStreamLevels` | Workflow/Tasks/LoggingTask.cs:41-44 | Info reports never reach the failure file, and reach the success file exactly when the minimum lets them through |
| `Logging.DebugReachesConsoleOnly` | Workflow/Tasks/LoggingTask.cs:56-59 | Debug reports reach only the console: one entry when the minimum lets them through, none otherwise |
| `Logging.FailureStreamLevels` | Workflow/Tasks/LoggingTask.cs:46-54 | Warning and Error reports never reach the success file, and reach the failure file exactly when the minimum lets them through |
| `Logging.AvisoTextLayout` | Workflow/Tasks/LoggingTask.cs:48 | a warning reads '[', the context, "] ", then the message |
| `Logging.AvisoTextInjective` | Workflow/Tasks/LoggingTask.cs:48 | a bracket-free context and the message can be recovered from a warning text |
| `Logging.ErroTextIsAvisoShaped` | Workflow/Tasks/LoggingTask.cs:53 | an error text is a warning-shaped text whose message starts with "Erro: " |
| `Logging.Logger.constructor` | Workflow/Tasks/LoggingTask.cs:8 | before configuration the flag is clear, the silent logger is installed and nothing is written |
| `Logging.Logger.ConfigurarLogger` | Workflow/Tasks/LoggingTask.cs:10-39 | when configured, nothing changes; otherwise, a failed settings access changes nothing in the logger, and a successful one installs the pipeline for the logging settings and date, sets the flag and announces itself at Information |
| `Logging.Logger.Emit` | Workflow/Tasks/LoggingTask.cs:43 | an event appends one entry per sink it reaches and changes neither flag nor pipeline |
| `Logging.Logger.RegistrarInfo` | Workflow/Tasks/LoggingTask.cs:41-44 | the message is dispatched at Information |
| `Logging.Logger.RegistrarAviso` | Workflow/Tasks/LoggingTask.cs:46-49 | the bracketed context and the message are dispatched at Warning |
| `Logging.Logger.RegistrarErro` | Workflow/Tasks/LoggingTask.cs:51-54 | the bracketed context, "Erro:" and the exception's message are dispatched at Error with the exception attached |
| `Logging.Logger.RegistrarDebug` | Workflow/Tasks/LoggingTask.cs:56-59 | the message is dispatched at Debug |
| `Logging.Logger.FecharLogger` | Workflow/Tasks/LoggingTask.cs:61-65 | the closing message goes through the old pipeline, then the silent logger is installed, and the configured flag is kept |
| `Logging.DefaultMinimum` | Config.cs:170 | the default minimum "Information" parses to Information |
| `Logging.DefaultSuccessPath` | Config.cs:169-171 | the default success stream is logs/sucesso/log-<dd-MM-yyyy>.txt |
| `Logging.DefaultFailurePath` | Config.cs:172 | the default failure stream is logs/falha/log-<dd-MM-yyyy>.txt |
| `Logging.CloseIsFinal` | Workflow/Tasks/LoggingTask.cs:61-65 | after a successful configuration and a close, configuring again and reporting writes nothing |
| `Logging.UnconfiguredIsSilent` | Workflow/Tasks/LoggingTask.cs:41-59 | reports made before configuration write nothing |
| `Logging.RetryAfterFailedLoad` | Workflow/Tasks/LoggingTask.cs:12-37 | a configuration that failed to load settings is followed by one that succeeds with the default logging pipeline |
| `Browser.SelectEngineSpec` | Playwright.cs:38-43 | Firefox exactly for "firefox" and WebKit exactly for "webkit" after lower-casing; Chromium for every other name |
| `Browser.SelectEngineRoundTrip` | Playwright.cs:38-43 | each engine's own name selects it |
| `Browser.TimeoutMsExact` | Playwright.cs:34 | up to 2147483 seconds in either direction the millisecond timeout is exactly a thousand times the seconds |
| `Browser.TimeoutMsOverflow` | Playwright.cs:34 | 2147484 seconds passes the timeout check yet gives a timeout of -2147483296 ms |
| `Browser.WaitTimeoutChoice` | Playwright.cs:139 | the wait uses the override when one is given, even zero, and the configured timeout otherwise |
| `Browser.UserAgentRoundTrip` | Playwright.cs:69-71 | no user agent exactly for the empty text; any other text, blanks included, is passed unchanged |
| `Browser.BlockPatternsCases` | Playwright.cs:91-100 | no globs without flags, the image glob alone, the four style globs alone, or all five with the image glob first |
| `Browser.BrowserContext.constructor` | Playwright.cs:62-72 | a new context belongs to the browser, carries the given options and blocks nothing yet |
| `Browser.BrowserContext.Route` | Playwright.cs:104 | a route adds its glob after those already installed |
| `Browser.BrowserContext.NewPage` | Playwright.cs:77 | a new page of this context sees the routes installed so far and has no timeout and no calls yet |
| `Browser.Page.SetDefaultTimeout` | Playwright.cs:80 | the page's default timeout becomes the given one |
| `Browser.Page.Call` | Playwright.cs:119-123 | a call on the page is recorded after the earlier ones |
| `Browser.SessionManager.constructor` | Playwright.cs:11-13 | a new session holds no driver and no browser and has created, disposed and launched nothing |
| `Browser.SessionManager.InicializarNavegador` | Playwright.cs:18-53 | a held browser is returned with nothing changed or logged; otherwise the launch happens as stated for `Launch` |
| `Browser.SessionManager.Launch` | Playwright.cs:23-52 | the start is announced. A failed driver creation changes nothing else. Otherwise a new driver is held and counted, and a launch is counted. On success the selected engine's browser is held, launched with the configured headless flag and timeout, and reported. On failure no browser is held and the error is logged under "Playwright.InicializarNavegador" and returned |
| `Browser.SessionManager.ConfigurarBloqueiosRecursos` | Playwright.cs:89-108 | the context gains a route for each glob of the pattern list, in order; the list is reported at Debug only when a flag is set |
| `Browser.SessionManager.OpenPage` | Playwright.cs:62-83 | the new page's context has the configured viewport and user agent. All blocking routes were installed before the page was created. Its default timeout is the configured one |
| `Browser.SessionManager.CriarPagina` | Playwright.cs:58-84 | a page is returned exactly when a browser is held or the launch succeeds. With a held browser the session is unchanged. Otherwise the session changes as stated for `Launch`, and a failed launch is passed on. The page is as stated for `OpenPage`, on the held browser. The log shows launch, blocking and page creation in that order |
| `Browser.SessionManager.NavegarPara` | Playwright.cs:113-132 | the page is asked to go to the URL with the configured timeout until DOMContentLoaded. The target is reported at Debug, then the load at Information, or the failure at Error under "Playwright.NavegarPara(url)" and returned |
| `Browser.SessionManager.AguardarElemento` | Playwright.cs:137-146 | the page waits for the selector to be visible with the override or the configured timeout; a failure is returned without logging |
| `Browser.SessionManager.Finalizar` | Playwright.cs:151-171 | never fails. After a clean run neither handle is held and the driver disposal is counted. A failed close leaves everything held and is logged. A failed dispose after a close leaves the driver held and is logged |
| `Browser.HeldBrowserIsReused` | Playwright.cs:20-21 | a second initialisation returns the first browser, whatever the library would do, and only one launch happens |
| `Browser.FailedLaunchIsRetried` | Playwright.cs:20-52 | after a failed launch the next call launches again; two drivers are created and a shutdown disposes only one |
| `Browser.ShutdownResetsSession` | Playwright.cs:151-171 | a clean shutdown leaves nothing held; a second one disposes nothing and writes only the "Playwright finalizado" report; the next initialisation launches afresh |
| `Browser.CloseFailureKeepsBrowser` | Playwright.cs:155-170 | a browser that failed to close stays held and is handed out again without a new launch |

## Left out

- Null strings: every text is a non-null string. JSON `null` for a string or a whole section, and `string.IsNullOrEmpty`/`IsNullOrWhiteSpace` on null, are not modelled.
- Text.ToLower: lower-cases ASCII letters only. .NET's culture-sensitive `ToLower` is not modelled; under a Turkish culture, for example, "FIREFOX" would not lower to "firefox".
- Console output of `Validar` and `Carregar` is not modelled. It does not change the results.
- File I/O and JSON: whether the settings file exists, and what Newtonsoft produces from it, enter as a `LoadOutcome`. Merging of defaults into a partially specified file is not modelled, and neither is whether the JSON library can construct `Config` through its private constructor; both outcomes are admitted.
- Serilog internals are not modelled:
  - output templates and timestamps;
  - rendering of the attached exception;
  - `Enrich.FromLogContext`;
  - message-template parsing of the texts given to `RegistrarInfo`/`RegistrarDebug` (a "{{" in such a text prints as "{");
  - flushing and directory creation.

  Every event that passes the root minimum is offered to the sinks' filters and the file sub-loggers' Information floor.
- Timeouts as floating point: Playwright's timeout options and `SetDefaultTimeout` take a `float`, so the `int` product is converted and values above 2^24 ms may be rounded. The model passes the `int` value unchanged.
- The clock: the date is a parameter. `Date` checks field ranges only, not calendar validity.
- Playwright library failures beyond driver creation, launch, navigation, waiting, close and dispose are not modelled. `NewContextAsync`, `NewPageAsync` and `RouteAsync` are assumed to succeed. Glob matching and what a blocked request does are not modelled, and neither are pages used after their browser is closed.
- The static `_config` field of the browser session is a constructor parameter. A failure of `Config.Instancia` inside the type initializer is not modelled.
- `async`/`await` and concurrency: calls are sequential. Nothing is claimed about concurrent `InicializarNavegador` callers.
- `CapturarScreenshot` and `ObterConfiguracaoAtual` (Playwright.cs:176-217) are debug reporting and are not part of this model.
- Workflow/Tasks/NavigationGoogle.cs and Program.cs are not part of this model. They are an example script and console glue.
- Scheduling, export and scraping settings are declared with their defaults and not otherwise used.
