/** The state `run()` works on — the loaded config, `cli.argv`, `cli.sdk`, the logger and the
    colour mode — and the steps that change it, each appending its effects to a trace. */
module Titanium {
  import opened Js
  import opened Versions
  import opened Sdks
  import opened Flags
  import opened Dispatch

  /** The `cli.*` entries of the config that the bootstrap reads or writes. */
  datatype CliConfig = CliConfig(
    colors: JsValue,
    quiet: JsValue,
    prompt: JsValue,
    progressBars: JsValue,
    hideCharEncWarning: JsValue)

  /** The config entries the bootstrap reads or writes, once the file and the `--config`
      overrides are loaded. */
  datatype Config = Config(
    defaultInstallLocation: Option<string>,
    pathsSdks: PathsSetting,
    sdkSelected: JsValue,
    appSdk: JsValue,
    cli: CliConfig)

  /** The logger's state: each transport's `colorize`, whether it is silenced, whether the
      banner is enabled, and `activeSdk`. */
  datatype Logger = Logger(
    colorize: map<string, bool>,
    silenced: bool,
    bannerEnabled: bool,
    activeSdk: Option<string>)

  /** `colors.mode`. */
  datatype ColorMode = Console | NoColors

  class Bootstrap {
    var argv: seq<string>          // cli.argv.$_
    var command: Option<string>    // cli.argv.$command
    var config: Config
    var sdkPaths: seq<string>      // the normalised search paths handed to env.detectTitaniumSDKs
    var installPath: string        // env.installPath
    var sdk: Option<Sdk>           // cli.sdk
    var logger: Logger
    var colorMode: ColorMode
    var trace: seq<Event>

    /** The state once the config is loaded: colours are switched off at once when
        `config.cli.colors` is falsy. */
    constructor (argv: seq<string>, config: Config, logger: Logger, mode: ColorMode, installPath: string)
      ensures this.argv == argv && this.config == config && this.logger == logger
      ensures this.installPath == installPath
      ensures colorMode == (if Truthy(config.cli.colors) then mode else NoColors)
      ensures command == None && sdk == None && sdkPaths == [] && trace == []
    {
      this.argv := argv;
      this.config := config;
      this.logger := logger;
      this.installPath := installPath;
      colorMode := if Truthy(config.cli.colors) then mode else NoColors;
      command := None;
      sdk := None;
      sdkPaths := [];
      trace := [];
    }

    /** Normalises the SDK search paths, saving the config when the default install location
        had to be added, hands the paths to the SDK detection and records the install path. */
    method PrepareSdkSearch(resolve: string -> string)
      modifies this`config, this`sdkPaths, this`trace, this`installPath
      ensures var dflt := old(config).defaultInstallLocation;
        var adds := AddsDefault(old(config).pathsSdks, dflt, resolve);
        sdkPaths == NormalizedSdkPaths(old(config).pathsSdks, dflt, resolve) &&
        config == (if adds then old(config).(pathsSdks := PathList(sdkPaths)) else old(config)) &&
        trace == old(trace) + (if adds then [SavedConfig] else []) + [DetectSdks(sdkPaths)] &&
        installPath == (if TruthyString(dflt) then dflt.value else old(installPath))
    {
      var paths := if config.pathsSdks.PathList? then config.pathsSdks.paths else [];
      var dflt := config.defaultInstallLocation;
      if TruthyString(dflt) && !AnyResolvesTo(paths, dflt.value, resolve) {
        paths := paths + [dflt.value];
        config := config.(pathsSdks := PathList(paths));
        trace := trace + [SavedConfig];
      }
      sdkPaths := paths;
      trace := trace + [DetectSdks(paths)];
      if TruthyString(dflt) {
        installPath := dflt.value;
      }
    }

    /** The `help` flag: a truthy value makes the command `help`. */
    method OnHelp(value: JsValue)
      modifies this`command
      ensures command == if Truthy(value) then Some("help") else old(command)
    {
      if Truthy(value) {
        command := Some("help");
      }
    }

    /** The `version` flag: a truthy value prints the version and exits with 0. */
    method OnVersion(value: JsValue, version: string)
      modifies this`trace
      ensures trace == old(trace) + if Truthy(value) then [PrintVersion(version), Exit(0)] else []
    {
      if Truthy(value) {
        trace := trace + [PrintVersion(version), Exit(0)];
      }
    }

    /** The `colors` flag: sets the colour mode and every logger transport's `colorize` to
        `value !== false`; no transport is added or removed. */
    method OnColors(value: JsValue)
      modifies this`colorMode, this`logger
      ensures colorMode == if ColorsEnabled(value) then Console else NoColors
      ensures logger.colorize.Keys == old(logger).colorize.Keys
      ensures forall n :: n in logger.colorize ==> logger.colorize[n] == ColorsEnabled(value)
      ensures logger == old(logger).(colorize := logger.colorize)
    {
      var on := ColorsEnabled(value);
      colorMode := if on then Console else NoColors;
      var pending := logger.colorize.Keys;
      while pending != {}
        invariant colorMode == if on then Console else NoColors
        invariant pending <= logger.colorize.Keys
        invariant logger.colorize.Keys == old(logger).colorize.Keys
        invariant forall n :: n in logger.colorize && n !in pending ==> logger.colorize[n] == on
        invariant logger == old(logger).(colorize := logger.colorize)
        decreases pending
      {
        var n :| n in pending;
        logger := logger.(colorize := logger.colorize[n := on]);
        pending := pending - {n};
      }
    }

    /** The `quiet` flag: stores `!!value` as `cli.quiet` and silences the logger with it. */
    method OnQuiet(value: JsValue)
      modifies this`config, this`logger
      ensures config == old(config).(cli := old(config).cli.(quiet := StoredFlag(value)))
      ensures logger == old(logger).(silenced := Truthy(value))
    {
      config := config.(cli := config.cli.(quiet := StoredFlag(value)));
      logger := logger.(silenced := config.cli.quiet.b);
    }

    /** The `prompt` flag: stores `!!value` as `cli.prompt`. */
    method OnPrompt(value: JsValue)
      modifies this`config
      ensures config == old(config).(cli := old(config).cli.(prompt := StoredFlag(value)))
    {
      config := config.(cli := config.cli.(prompt := StoredFlag(value)));
    }

    /** The `progress-bars` flag: stores `!!value` as `cli.progressBars`. */
    method OnProgressBars(value: JsValue)
      modifies this`config
      ensures config == old(config).(cli := old(config).cli.(progressBars := StoredFlag(value)))
    {
      config := config.(cli := config.cli.(progressBars := StoredFlag(value)));
    }

    /** The `banner` flag: enables the banner iff the value is truthy. */
    method OnBanner(value: JsValue)
      modifies this`logger
      ensures logger == old(logger).(bannerEnabled := Truthy(value))
    {
      logger := logger.(bannerEnabled := Truthy(value));
    }

    /** The SDK dispatch: resolves the requested SDK into `cli.sdk` and then runs without it,
        fails, or scans its commands (the SDK's, then each platform's), checks its version,
        scans its hooks, puts `--sdk <name>` in front of `cli.argv.$_`, records the name in
        the logger and runs the CLI. The effects are those of RunTrace. */
    method Dispatch(env: Environment, parseGlobal: seq<string> -> ParsedArgs)
      modifies this`sdk, this`argv, this`logger, this`trace
      ensures var parsed := parseGlobal(old(argv));
        var name := SdkName(parsed.sdk, config.sdkSelected, config.appSdk);
        var runs := Decide(parsed, name, env).RunWithSdk?;
        sdk == env.getSdk(name) &&
        trace == old(trace) + RunTrace(old(argv), parsed, name, env) &&
        argv == (if runs then ["--sdk", sdk.value.name] + old(argv) else old(argv)) &&
        logger == (if runs then old(logger).(activeSdk := Some(sdk.value.name)) else old(logger))
    {
      var parsed := parseGlobal(argv);
      var name := SdkName(parsed.sdk, config.sdkSelected, config.appSdk);
      sdk := env.getSdk(name);
      var available := EligibleSdks(env.installed, env.parse);
      if sdk.None? && (parsed.positional == [] || parsed.positional[0] in env.builtins) {
        trace := trace + [Go(argv)];
        return;
      }
      if sdk.None? {
        trace := trace + [Banner, if available != [] then ReportInvalidSdk(name, available) else ReportNoSdks, Exit(1)];
        return;
      }
      var s := sdk.value;
      ScanSdkCommands(s);
      FinishWithSdk(s, name, env);
    }

    /** `cli.scanCommands` on the SDK's commands directory, then on each platform's in key
        order. */
    method ScanSdkCommands(s: Sdk)
      modifies this`trace
      ensures trace == old(trace) + CommandScans(s)
    {
      var platforms := s.platforms;
      trace := trace + [ScanCommands(CommandsDir(s.path))];
      ghost var first := trace;
      var i := 0;
      while i < |platforms|
        invariant 0 <= i <= |platforms|
        invariant trace == first + PlatformScans(platforms[..i])
      {
        PlatformScansStep(platforms, i);
        trace := trace + [ScanCommands(CommandsDir(platforms[i].path))];
        i := i + 1;
      }
      assert platforms[..i] == platforms;
      assert CommandScans(s) == [ScanCommands(CommandsDir(s.path))] + PlatformScans(platforms);
    }

    /** The too-old check and what follows it once the commands are scanned. */
    method FinishWithSdk(s: Sdk, name: JsValue, env: Environment)
      modifies this`argv, this`logger, this`trace
      ensures trace == old(trace) + AfterScans(old(argv), name, s, env)
      ensures var runs := BelowMinimum(env.parse, TestedVersion(s)) == Some(false);
        argv == (if runs then ["--sdk", s.name] + old(argv) else old(argv)) &&
        logger == (if runs then old(logger).(activeSdk := Some(s.name)) else old(logger))
    {
      var tooOld := BelowMinimum(env.parse, TestedVersion(s));
      if tooOld.None? {
        trace := trace + [Threw];
        return;
      }
      if tooOld.value {
        trace := trace + [Banner, ReportTooOld(TooOldSubject(name, s)), Exit(1)];
        return;
      }
      trace := trace + [ScanHooks(env.resolve(HooksDir(s.path)))];
      argv := ["--sdk", s.name] + argv;
      logger := logger.(activeSdk := Some(s.name));
      trace := trace + [Go(argv)];
    }
  }

  /** `run()` from a loaded config to the dispatch: the search-path step, then the dispatch,
      with the effects of both in order and the state they leave behind. */
  method Run(argv: seq<string>, config: Config, logger: Logger, mode: ColorMode, installPath: string,
             env: Environment, parseGlobal: seq<string> -> ParsedArgs)
    returns (b: Bootstrap)
    ensures fresh(b)
    ensures var dflt := config.defaultInstallLocation;
      var parsed := parseGlobal(argv);
      b.trace ==
        (if AddsDefault(config.pathsSdks, dflt, env.resolve) then [SavedConfig] else []) +
        [DetectSdks(NormalizedSdkPaths(config.pathsSdks, dflt, env.resolve))] +
        RunTrace(argv, parsed, SdkName(parsed.sdk, config.sdkSelected, config.appSdk), env)
    ensures var dflt := config.defaultInstallLocation;
      b.sdkPaths == NormalizedSdkPaths(config.pathsSdks, dflt, env.resolve) &&
      b.config == (if AddsDefault(config.pathsSdks, dflt, env.resolve)
                   then config.(pathsSdks := PathList(b.sdkPaths)) else config) &&
      b.installPath == (if TruthyString(dflt) then dflt.value else installPath)
    ensures var parsed := parseGlobal(argv);
      var name := SdkName(parsed.sdk, config.sdkSelected, config.appSdk);
      var runs := Decide(parsed, name, env).RunWithSdk?;
      b.sdk == env.getSdk(name) &&
      b.argv == (if runs then ["--sdk", b.sdk.value.name] + argv else argv) &&
      b.logger == (if runs then logger.(activeSdk := Some(b.sdk.value.name)) else logger)
    ensures b.colorMode == (if Truthy(config.cli.colors) then mode else NoColors) && b.command == None
  {
    b := new Bootstrap(argv, config, logger, mode, installPath);
    b.PrepareSdkSearch(env.resolve);
    b.Dispatch(env, parseGlobal);
  }
}
