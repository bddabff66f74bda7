# Titanium CLI bootstrap — a Dafny model

This project models the decision logic of `run()` in the Titanium command-line tool's entry
point (`lib/titanium.js`). It covers what happens after the config is loaded and before a
command runs. The model covers:

- the raw argument lookup (`getArg`);
- the normalisation of the SDK search paths, which may save the config;
- which SDK name is requested, and which installed SDKs are offered to the user;
- the dispatch, which ends in one of four ways:
  - run a built-in command without an SDK;
  - fail because the SDK is missing or invalid;
  - fail because the SDK is older than 3.0.0;
  - run with the SDK, after scanning its commands, its platforms' commands and its hooks,
    and after putting `--sdk <name>` in front of the arguments;
- the value coercions done by the global-flag callbacks;
- the rule for the terminal-encoding warning.

Modules, leaves first:

- `Js`: JavaScript values and truthiness.
- `Text`: `indexOf`, `split`/`join` on one character, ASCII `toLowerCase`.
- `Args`: `GetArg`.
- `Versions`: a `(major, minor, patch)` version. Parsing a string into a version is a
  parameter. `None` stands for a string the comparison cannot parse, where it throws.
- `Sdks`: the SDK descriptor, the search paths, the SDK name and the eligible-SDK filter.
- `Encoding`: the encoding warning.
- `Flags`: the callback coercions.
- `Locale`: where the startup locale comes from, and how often `run()` is entered.
- `Dispatch`: the dispatch written as an ordered trace of effects (`RunTrace`), a separate
  decision table (`Decide`), and lemmas that connect the two.
- `Titanium`: class `Bootstrap`. It holds the state `run()` changes: the config,
  `cli.argv.$_`, `cli.argv.$command`, `cli.sdk`, the logger, `colors.mode`,
  `env.installPath`, and the effects trace. Its methods are the steps and callbacks. The
  top-level `Run` composes them.

Some collaborators live outside `lib/titanium.js`, in `node-appc` and `./cli`: `env.getSDK`,
version parsing, `afs.resolvePath` and the built-in command registry. They are passed in as function values
and sets (`Dispatch.Environment`); the same `resolve` serves the search-path step and the hook
directory. `cli.globalContext.parse` is a separate function parameter of the dispatch. Calls whose effect is outside
the model are recorded as trace events instead: `config.save`, `env.detectTitaniumSDKs`,
`logger.banner`, the error messages, `cli.scanCommands`, `cli.scanHooks`, `cli.go` and
`process.exit`.

Four behaviours of the code are easy to misread. The model follows the code as written:

- If the SDK is too old, the code has already scanned its commands and every platform's
  commands (lib/titanium.js:331-334) before the version check at line 337. The check stops
  the run before hooks are scanned and before the CLI runs. It does not stop the command
  scans. `Dispatch.TooOldStopsBeforeHooks` and `Dispatch.TooOldExample` state this.
- The too-old comparison at line 337 has no `try`, unlike the filter at lines 301-305. So an
  SDK whose tested version cannot be parsed does not count as "incompatible". The exception
  escapes `run()`, and the model records it as the `Threw` event (outcome `VersionThrew`).
- When the config file gives a `user.locale`, `run()` is called inside the `try` of
  lib/titanium.js:84-90, and its `catch` swallows every exception that escapes `run()`, the
  one above included. Then `detectLocale(run)` is called (line 92), and it enters `run()` a
  second time unless it never calls back. That happens on win32 when the first `reg query`
  succeeds but its output has no `Locale REG_SZ` line (lines 61-75); `run()` is then not
  entered at all by detection. The second run reloads the config, including the `paths.sdks`
  the first run saved. It detects SDKs and scans commands again. It saves again only
  when the default does not resolve to itself (see the next item). An exception in the
  second run is not caught. `Locale.StartupRuns` and `Locale.VersionThrowRunsTwice` state this.
- The search-path check at line 158 compares each resolved entry with the default location as
  configured, not resolved. A default that does not resolve to itself (with `~`, relative, or
  with a trailing separator) never matches the entry appended for it, so every run appends it
  once more and saves the config. `Sdks.NormalizationReappendsUnresolvedDefault` states this;
  `Sdks.NormalizationIsIdempotent` holds only for a default that resolves to itself.

## Model

| member | source | states |
|---|---|---|
| Text.IndexOf | lib/titanium.js:96 | the result is -1 exactly when the item is absent; otherwise it is the position of the first occurrence |
| Text.Split | lib/titanium.js:284 | `split('.')` gives at least one part, no part contains the separator, and joining the parts gives back the string |
| Text.SplitNoSeparator | lib/titanium.js:284 | a string without the separator splits into itself alone |
| Text.SplitAtSeparator | lib/titanium.js:284 | splitting `a + sep + b` gives the parts of `a` followed by the parts of `b` |
| Text.SplitHasSeveralParts | lib/titanium.js:285 | there is more than one part exactly when the separator occurs |
| Text.SplitLastPart | lib/titanium.js:285 | the last part is the text after the last separator |
| Text.SplitJoin | lib/titanium.js:284 | splitting the join of separator-free parts gives back those parts (the other round trip) |
| Args.GetArg | lib/titanium.js:95-101 | returns the element right after the first occurrence of the name; returns none when the name is absent or is the last element |
| Args.GetArgIgnoresLaterOccurrences | lib/titanium.js:95-101 | only the first occurrence counts; a later repeat of the flag does not change the answer |
| Versions.AtLeastMinimum | lib/titanium.js:302 | `gte(v, '3.0.0')` throws exactly when `v` cannot be parsed; otherwise it holds exactly when the major number is at least 3 |
| Versions.BelowMinimum | lib/titanium.js:337 | `lt(v, '3.0.0')` throws on the same strings as `gte` and otherwise gives its complement |
| Sdks.AnyResolvesTo | lib/titanium.js:157-159 | true exactly when some configured path resolves to the default install location |
| Sdks.NormalizedSdkPaths | lib/titanium.js:156-164 | a non-array setting becomes `[]`; the configured list is kept as a prefix; the default location is appended once, at the end, exactly when it is set and no entry resolves to it; if it resolves to itself, it is then reachable |
| Sdks.NormalizationIsIdempotent | lib/titanium.js:156-164 | when the default location resolves to itself, a second normalisation appends nothing and would not save again |
| Sdks.NormalizationReappendsUnresolvedDefault | lib/titanium.js:156-164 | when the default location does not resolve to itself and no configured entry resolves to it, the next normalisation appends it again and saves again |
| Sdks.SdkName | lib/titanium.js:297 | precedence: a truthy `argv.sdk`, else a defined `sdk.selected`, else `app.sdk` |
| Sdks.EligibleSdks | lib/titanium.js:300-306 | the offered SDKs are exactly the installed names whose version is ≥ 3.0.0; names the comparison cannot parse are dropped |
| Sdks.TestedVersion | lib/titanium.js:337 | the too-old test uses `manifest.version` when it is set and non-empty, otherwise the SDK name |
| Encoding.EncodingWarning | lib/titanium.js:282-289 | there is no warning when `LANG` is unset or empty, when the warning is hidden, or when `LANG` has no '.'; a warning names a dot-free encoding that is not UTF-8 in any letter case |
| Encoding.EncodingWarningNamesLastSuffix | lib/titanium.js:282-289 | when the last '.' of `LANG` is at k, there is a warning exactly when it is not hidden and the lower-cased text after k is not "utf-8"; the warning names that text |
| Encoding.Utf8TerminalIsNotWarned | lib/titanium.js:285 | a `LANG` ending in ".UTF-8", in any letter case, gets no warning |
| Encoding.OtherEncodingIsWarned | lib/titanium.js:285-286 | any other final encoding is named in the warning for every falsy `hideCharEncWarning`, unset included |
| Flags.ColorsEnabled | lib/titanium.js:203-204 | colours stay on for every value except the boolean false, so undefined, null, 0 and "" keep them on, unlike `!!value` |
| Flags.StoredFlag | lib/titanium.js:214-234 | `quiet`, `prompt` and `progress-bars` store a boolean that is true exactly for truthy values; a boolean is stored as it is |
| Locale.DetectCallsBack | lib/titanium.js:58-81 | `detectLocale` always calls back on a non-Windows host; on win32 it fails to call back exactly when the first registry query succeeds and its output has no `Locale REG_SZ` line |
| Locale.StartupRuns | lib/titanium.js:58-92 | `run()` is entered at most twice. The first entry uses the config's locale exactly when a readable config file gives a truthy `user.locale`. `detectLocale(run)` follows when there is no such locale or that first run threw, and it enters `run()` with the detected locale exactly when it calls back. On win32 it does not call back when the first registry query succeeds without a `Locale` line; then there may be no entry at all |
| Locale.VersionThrowRunsTwice | lib/titanium.js:58-92 | with a locale in the config file, the bootstrap runs twice exactly when the dispatch throws on an unparseable SDK version and detection calls back; otherwise it runs once |
| Dispatch.PlatformScans | lib/titanium.js:332-334 | one command scan per platform |
| Dispatch.PlatformScansAt | lib/titanium.js:332-334 | the i-th platform scan is of the i-th platform's `cli/commands` (key order) |
| Dispatch.PlatformScansStep | lib/titanium.js:332-334 | handling one more platform appends its scan at the end |
| Dispatch.CommandScans | lib/titanium.js:331-334 | the first scan is of the SDK's own `cli/commands`; one more scan follows per platform |
| Dispatch.CommandScansOnlyCommands | lib/titanium.js:331-334 | every command scan after the first is of a platform's `cli/commands`, in key order, and nothing else is scanned at this point |
| Dispatch.AfterScans | lib/titanium.js:336-358 | after the command scans there is no further command scan, and the step ends in a terminal event |
| Dispatch.RunTrace | lib/titanium.js:308-358 | every dispatch ends in a terminal event (`cli.go`, `process.exit` or an escaping exception); without an SDK it has at most three effects |
| Dispatch.TooOldSubject | lib/titanium.js:338-343 | the too-old message names the requested SDK when a truthy name was given, else the resolved SDK's name |
| Dispatch.TooOldSubjectIsNamed | lib/titanium.js:339-343 | the message names something non-empty unless neither a truthy name was requested nor the SDK has a name |
| Dispatch.Decide | lib/titanium.js:308-346 | the four outcomes: run without an SDK exactly when none resolves and no positional or a built-in first positional is given; fail when none resolves and a non-built-in command is asked for, listing the ≥ 3.0.0 SDKs; too old when the tested version is below 3.0.0, naming the requested name, else the SDK name; run with the SDK exactly when its tested version passes the ≥ 3.0.0 test |
| Dispatch.TraceEndsWithOutcome | lib/titanium.js:308-358 | the trace has exactly one terminal event, the last one, and it matches the outcome: a run with the unchanged arguments, a run with `--sdk <name>` in front, exit code 1, or the exception |
| Dispatch.NoSdkScansNothing | lib/titanium.js:308-328 | without an SDK nothing is scanned; the CLI either runs at once, or shows the banner, lists the available SDKs (or gives the install instruction when none exist) and exits with 1 |
| Dispatch.CommandsAreScannedFirst | lib/titanium.js:330-334 | with an SDK the first effects are the command scans: SDK first, then the platforms in order; no command scan happens later |
| Dispatch.TooOldStopsBeforeHooks | lib/titanium.js:336-346 | a too-old SDK's commands were scanned; hooks are never scanned and the CLI never runs; the message names the requested SDK (else the SDK name); the exit code is 1; the exact trace is the command scans, the banner, the message and the exit |
| Dispatch.SuccessScansHooksOnceThenRuns | lib/titanium.js:348-358 | hooks are scanned exactly once, from the SDK's `cli/hooks`, after all command scans and right before the run; the run sees `--sdk <name>` followed by the original arguments in order; the exact trace is the command scans, the hook scan and the run |
| Dispatch.TooOldSdkIsNeverOffered | lib/titanium.js:300-346 | the filter and the too-old check agree: an SDK with no manifest version that is rejected as too old is never among the offered SDKs |
| Dispatch.NoSdkInstalledExample | lib/titanium.js:308-328 | with no SDK installed, `help` runs and `build` fails with the "no SDKs" message and exit code 1 |
| Dispatch.TooOldExample | lib/titanium.js:330-346 | SDK 2.9.0 requested by name: its commands are scanned, then the "too old" message names "2.9.0" and the exit code is 1 |
| Titanium.Bootstrap.constructor | lib/titanium.js:136 | colours are switched off at start-up when `config.cli.colors` is falsy; nothing has happened yet |
| Titanium.Bootstrap.PrepareSdkSearch | lib/titanium.js:155-170 | the search paths become the normalised list; when the default location is added, `paths.sdks` is rewritten and the config is saved, otherwise the config is unchanged and not saved; then the paths go to SDK detection and `env.installPath` is updated |
| Titanium.Bootstrap.OnHelp | lib/titanium.js:183-191 | a truthy value sets the command to `help`; otherwise nothing changes |
| Titanium.Bootstrap.OnVersion | lib/titanium.js:192-201 | a truthy value prints the version and exits with 0 |
| Titanium.Bootstrap.OnColors | lib/titanium.js:202-213 | the colour mode and every logger transport's `colorize` become `value !== false`; no transport is added or removed |
| Titanium.Bootstrap.OnQuiet | lib/titanium.js:214-221 | `cli.quiet` becomes `!!value` and the logger is silenced exactly then |
| Titanium.Bootstrap.OnPrompt | lib/titanium.js:222-229 | `cli.prompt` becomes `!!value`; nothing else changes |
| Titanium.Bootstrap.OnProgressBars | lib/titanium.js:230-237 | `cli.progressBars` becomes `!!value`; nothing else changes |
| Titanium.Bootstrap.OnBanner | lib/titanium.js:238-245 | the banner is enabled exactly for a truthy value |
| Titanium.Bootstrap.Dispatch | lib/titanium.js:295-358 | `cli.sdk` becomes `env.getSDK(sdkName)`; the effects are exactly `RunTrace`; `cli.argv.$_` gets `--sdk <name>` in front, and the logger gets the active SDK, only on the success path |
| Titanium.Bootstrap.ScanSdkCommands | lib/titanium.js:330-334 | the loop appends exactly the command scans: SDK first, then each platform in order |
| Titanium.Bootstrap.FinishWithSdk | lib/titanium.js:336-358 | after the scans, the effects are `AfterScans`; argv and logger change only when the SDK is not too old |
| Titanium.Run | lib/titanium.js:136-358 | from a loaded config: the effects in order are the optional save, the SDK detection with the normalised paths, then the dispatch trace. Afterwards the search paths are the normalised list, and `paths.sdks` holds them exactly when the default was added. `env.installPath` is the default location when set. `cli.sdk` is the looked-up SDK. Only on the success path do argv get `--sdk <name>` in front and the logger the active SDK. The colour mode is off when `cli.colors` is falsy, and no command is set |

## Left out

- Sdks.NormalizationIsIdempotent: holds only when the default location resolves to itself;
  the other case, where the source appends and saves on every run, is
  `Sdks.NormalizationReappendsUnresolvedDefault`.
- Sdks.EligibleSdks: it states membership and length only. It does not state that the order
  of `Object.keys(env.sdks)` is kept.
- The Node.js and `node-appc` version checks at start-up (lib/titanium.js:29-50). They check
  the runtime and `require` package files.
- Locale detection through `child_process.exec` and the Windows registry
  (lib/titanium.js:58-81). It runs external processes, and the detected locale string is not
  modelled. What is modelled is whether detection calls back (`Locale.DetectCallsBack`, on a
  host described by `Locale.Host`), the choice between the config's `user.locale` and
  detection, and the retry after a throw (`Locale.StartupRuns`).
- Locale.StartupRuns: whether the first run throws is a parameter. The only throw the model
  produces is `Threw` from the version test (`Locale.VersionThrowRunsTwice`); the effects of
  the second run are not joined to those of the first into one trace.
- Loading the config file and its `--config-file` lookup, and the `eval` of `--config`
  (lib/titanium.js:105-126). The `./config` module is not part of this model, and evaluating
  arbitrary JavaScript cannot be modelled. The model starts from an already loaded config
  value. `Args.GetArg` is modelled, but its two calls here are not.
- The process-exit analytics handler (lib/titanium.js:138-153), the i18n strings, banner and
  logger rendering, "did you mean" suggestions and column layout. These are telemetry and
  terminal output; the model records them only as trace events.
- The analytics-file writability probe (lib/titanium.js:273-279). It is filesystem access.
- The banner guard around the encoding check (lib/titanium.js:269-271). The warning rule is
  modelled by itself.
- Flag registration through `cli.configure` and `cli.on` (lib/titanium.js:181-268). This
  covers the defaults taken from the config, `--no-<flag>` negation and when callbacks fire.
  The `./cli` processor does this and is not part of this model. Each callback is modelled
  as a method that receives the value the processor resolved.
- `env.detectTitaniumSDKs`, `env.getSDK` (including how "latest" is resolved),
  `cli.scanCommands`, `cli.scanHooks`, `cli.go` and `cli.globalContext.parse`. They are
  `node-appc` or `./cli` code and are not part of this model; they are parameters or trace
  events.
- `path.join` normalisation and the Windows path separator. Directories are written
  `root + "/cli/commands"`, and `afs.resolvePath(root, 'cli', 'hooks')` is the `resolve`
  parameter applied to `root + "/cli/hooks"`.
- `toLowerCase` is modelled on ASCII letters only. This does not change the comparison with
  "utf-8", since no other character lower-cases to one of its letters.
- JavaScript values beyond undefined, null, booleans, integers and strings (NaN, objects,
  arrays as flag values), and non-string entries in `paths.sdks`. The registry lookup
  `globalContext.commands[name]` is set membership, so inherited object properties are not
  modelled.
- `config.get(key, fallback)` is taken to return the fallback only when the key is
  undefined. The `./config` module is not part of this model.
- After an `Exit` event the process stops. The model ends the dispatch there, but it does not
  forbid a later call of another method on the same object.
- `src/main.js`, a wrapper that delegates to a `Bridge` module (not part of this model) and
  formats errors.
