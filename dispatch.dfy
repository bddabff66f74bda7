/** The SDK dispatch at the end of the bootstrap, as the ordered trace of effects it
    performs, and the outcome table the trace is checked against. */
module Dispatch {
  import opened Js
  import opened Versions
  import opened Sdks

  /** An observable effect of the bootstrap, in the order it happens. */
  datatype Event =
    | SavedConfig                                          // config.save()
    | DetectSdks(searchPaths: seq<string>)                 // env.detectTitaniumSDKs(sdkPaths)
    | Banner                                               // logger.banner()
    | ReportInvalidSdk(requested: JsValue, available: seq<string>)
    | ReportNoSdks                                         // "No Titanium SDKs found!" and the install hint
    | ReportTooOld(subject: JsValue)                       // the too-old error and the install hint
    | ScanCommands(dir: string)                            // cli.scanCommands(dir)
    | ScanHooks(dir: string)                               // cli.scanHooks(dir)
    | Go(argv: seq<string>)                                // cli.go() with cli.argv.$_ at that moment
    | PrintVersion(version: string)                        // console.log(pkginfo.version)
    | Exit(code: int)                                      // process.exit(code)
    | Threw                                                // an exception escapes run()

  predicate IsScan(e: Event) {
    e.ScanCommands? || e.ScanHooks?
  }

  /** Events after which run() does nothing more. */
  predicate IsTerminal(e: Event) {
    e.Go? || e.Exit? || e.Threw?
  }

  /** What `cli.globalContext.parse(cli.argv.$_)` yields that the dispatch reads. */
  datatype ParsedArgs = ParsedArgs(sdk: JsValue, positional: seq<string>)

  /** The collaborators the dispatch consults: the built-in command registry, the keys of
      `env.sdks`, `env.getSDK`, version parsing and `afs.resolvePath`. */
  datatype Environment = Environment(
    builtins: set<string>,
    installed: seq<string>,
    getSdk: JsValue -> Option<Sdk>,
    parse: Parser,
    resolve: string -> string)

  /** `path.join(root, 'cli', 'commands')` and `path.join(root, 'cli', 'hooks')` (POSIX
      separator, no normalisation). */
  function CommandsDir(root: string): string { root + "/cli/commands" }

  function HooksDir(root: string): string { root + "/cli/hooks" }

  /** The `forEach` over `sdk.platforms`: one command scan per platform, in key order. */
  function PlatformScans(ps: seq<Platform>): (t: seq<Event>)
    ensures |t| == |ps|
  {
    if ps == [] then []
    else PlatformScans(ps[..|ps| - 1]) + [ScanCommands(CommandsDir(ps[|ps| - 1].path))]
  }

  /** The i-th platform scan is of the i-th platform's commands directory. */
  lemma {:induction false} PlatformScansAt(ps: seq<Platform>, i: nat)
    requires i < |ps|
    ensures PlatformScans(ps)[i] == ScanCommands(CommandsDir(ps[i].path))
  {
    if i < |ps| - 1 {
      PlatformScansAt(ps[..|ps| - 1], i);
    }
  }

  /** One more platform adds its scan at the end. */
  lemma PlatformScansStep(ps: seq<Platform>, i: nat)
    requires i < |ps|
    ensures PlatformScans(ps[..i + 1]) == PlatformScans(ps[..i]) + [ScanCommands(CommandsDir(ps[i].path))]
  {
    assert ps[..i + 1][..i] == ps[..i];
  }

  /** The SDK's own commands first, then each platform's. */
  function CommandScans(s: Sdk): (t: seq<Event>)
    ensures |t| == |s.platforms| + 1
    ensures t[0] == ScanCommands(CommandsDir(s.path))
  {
    [ScanCommands(CommandsDir(s.path))] + PlatformScans(s.platforms)
  }

  /** Every command scan is of the SDK's commands directory (first) or of a platform's (in key
      order) — nothing else is scanned for commands. */
  lemma CommandScansOnlyCommands(s: Sdk)
    ensures var t := CommandScans(s);
      (forall i :: 0 < i < |t| ==> t[i] == ScanCommands(CommandsDir(s.platforms[i - 1].path))) &&
      (forall i :: 0 <= i < |t| ==> t[i].ScanCommands?)
  {
    var t := CommandScans(s);
    forall i | 0 < i < |t|
      ensures t[i] == ScanCommands(CommandsDir(s.platforms[i - 1].path))
    {
      PlatformScansAt(s.platforms, i - 1);
    }
  }

  /** The subject of the too-old message: the requested name when one was given, else the
      resolved SDK's name. */
  function TooOldSubject(name: JsValue, s: Sdk): (subject: JsValue)
    ensures Truthy(name) ==> subject == name
    ensures !Truthy(name) ==> subject == Str(s.name)
  {
    if Truthy(name) then name else Str(s.name)
  }

  /** The too-old message names something non-empty unless neither a name was requested nor
      the resolved SDK has one. */
  lemma TooOldSubjectIsNamed(name: JsValue, s: Sdk)
    ensures Truthy(TooOldSubject(name, s)) <==> Truthy(name) || s.name != ""
  {
  }

  /** The effects of the dispatch, following its control flow: a run without an SDK, the
      missing-SDK failure, or the command scans followed by the too-old check and then
      either the failure or the hook scan, the `--sdk` injection and the run. */
  function RunTrace(argv: seq<string>, parsed: ParsedArgs, name: JsValue, env: Environment): (t: seq<Event>)
    ensures 0 < |t| && IsTerminal(t[|t| - 1])
    ensures env.getSdk(name).None? ==> |t| <= 3
  {
    var found := env.getSdk(name);
    if found.None? && (parsed.positional == [] || parsed.positional[0] in env.builtins) then
      [Go(argv)]
    else if found.None? then
      var available := EligibleSdks(env.installed, env.parse);
      [Banner, if available != [] then ReportInvalidSdk(name, available) else ReportNoSdks, Exit(1)]
    else
      CommandScans(found.value) + AfterScans(argv, name, found.value, env)
  }

  /** What follows the command scans: the too-old check (`appc.version.lt`, which throws on
      an unparseable version), then the failure, or the hook scan and the run with
      `--sdk <name>` put in front of the arguments. No command scan happens here. */
  function AfterScans(argv: seq<string>, name: JsValue, s: Sdk, env: Environment): (t: seq<Event>)
    ensures 0 < |t| <= 3
    ensures forall i :: 0 <= i < |t| ==> !t[i].ScanCommands?
    ensures IsTerminal(t[|t| - 1])
  {
    match BelowMinimum(env.parse, TestedVersion(s))
    case None => [Threw]
    case Some(tooOld) =>
      if tooOld then [Banner, ReportTooOld(TooOldSubject(name, s)), Exit(1)]
      else [ScanHooks(env.resolve(HooksDir(s.path))), Go(["--sdk", s.name] + argv)]
  }

  /** How an invocation ends. */
  datatype Outcome =
    | RunBuiltin                         // no SDK, but nothing SDK-level was asked for
    | MissingSdk(available: seq<string>) // "invalid SDK" or "no SDKs", exit 1
    | TooOld(subject: JsValue)           // the resolved SDK is older than 3.0.0, exit 1
    | VersionThrew                       // the tested version cannot be compared
    | RunWithSdk(sdk: Sdk)               // the CLI runs with the resolved SDK

  /** The decision table of the dispatch. */
  function Decide(parsed: ParsedArgs, name: JsValue, env: Environment): (o: Outcome)
    ensures o.RunBuiltin? || o.MissingSdk? <==> env.getSdk(name).None?
    ensures o.RunBuiltin? <==>
              env.getSdk(name).None? && (parsed.positional == [] || parsed.positional[0] in env.builtins)
    ensures o.MissingSdk? ==> forall v :: v in o.available <==> v in env.installed && AtLeastMinimum(env.parse, v) == Some(true)
    ensures o.RunWithSdk? <==> env.getSdk(name).Some? && AtLeastMinimum(env.parse, TestedVersion(env.getSdk(name).value)) == Some(true)
    ensures o.RunWithSdk? ==> o.sdk == env.getSdk(name).value
    ensures o.TooOld? ==>
              env.getSdk(name).Some? &&
              AtLeastMinimum(env.parse, TestedVersion(env.getSdk(name).value)) == Some(false) &&
              o.subject == (if Truthy(name) then name else Str(env.getSdk(name).value.name))
    ensures o.VersionThrew? <==> env.getSdk(name).Some? && env.parse(TestedVersion(env.getSdk(name).value)).None?
  {
    var found := env.getSdk(name);
    if found.None? then
      if parsed.positional == [] || parsed.positional[0] in env.builtins then RunBuiltin
      else MissingSdk(EligibleSdks(env.installed, env.parse))
    else
      match env.parse(TestedVersion(found.value))
      case None => VersionThrew
      case Some(v) => if Less(v, Minimum) then TooOld(TooOldSubject(name, found.value)) else RunWithSdk(found.value)
  }

  /** Exactly one terminal event, at the end, and it is the one the outcome calls for: a run
      with the unchanged argv, a run with `--sdk <name>` put in front of it, exit code 1, or
      the escaping exception. */
  lemma TraceEndsWithOutcome(argv: seq<string>, parsed: ParsedArgs, name: JsValue, env: Environment)
    ensures var t := RunTrace(argv, parsed, name, env);
      |t| > 0 &&
      (forall i :: 0 <= i < |t| - 1 ==> !IsTerminal(t[i])) &&
      t[|t| - 1] == match Decide(parsed, name, env)
        case RunBuiltin => Go(argv)
        case MissingSdk(_) => Exit(1)
        case TooOld(_) => Exit(1)
        case VersionThrew => Threw
        case RunWithSdk(s) => Go(["--sdk", s.name] + argv)
  {
    var found := env.getSdk(name);
    if found.Some? {
      CommandScansOnlyCommands(found.value);
    }
  }

  /** Without an SDK nothing is scanned: either the CLI runs straight away, or it reports the
      usable SDKs (or that none is installed) and exits with 1 without running. */
  lemma NoSdkScansNothing(argv: seq<string>, parsed: ParsedArgs, name: JsValue, env: Environment)
    requires env.getSdk(name).None?
    ensures var t := RunTrace(argv, parsed, name, env);
      (forall i :: 0 <= i < |t| ==> !IsScan(t[i])) &&
      match Decide(parsed, name, env)
      case RunBuiltin => t == [Go(argv)]
      case MissingSdk(available) =>
        t == [Banner, if available != [] then ReportInvalidSdk(name, available) else ReportNoSdks, Exit(1)]
      case _ => false
  {
  }

  /** With an SDK, the first events are the command scans, the SDK's own directory first and
      then every platform's in key order; no command scan happens later. */
  lemma CommandsAreScannedFirst(argv: seq<string>, parsed: ParsedArgs, name: JsValue, env: Environment)
    requires env.getSdk(name).Some?
    ensures var t := RunTrace(argv, parsed, name, env); var s := env.getSdk(name).value;
      |t| > |s.platforms| + 1 &&
      t[0] == ScanCommands(CommandsDir(s.path)) &&
      (forall i :: 0 <= i < |s.platforms| ==> t[i + 1] == ScanCommands(CommandsDir(s.platforms[i].path))) &&
      (forall i :: |s.platforms| < i < |t| ==> !t[i].ScanCommands?)
  {
    var s := env.getSdk(name).value;
    var c := CommandScans(s);
    CommandScansOnlyCommands(s);
    var rest := AfterScans(argv, name, s, env);
    var t := c + rest;
    assert forall i :: 0 < i < |c| ==> t[i] == c[i];
    assert forall i :: |s.platforms| < i < |t| ==> t[i] == rest[i - |c|];
  }

  /** An SDK older than 3.0.0 stops the run after its commands were scanned: the message names
      the requested SDK (or the resolved one), the exit code is 1, and hooks are never scanned
      and the CLI never runs. */
  lemma TooOldStopsBeforeHooks(argv: seq<string>, parsed: ParsedArgs, name: JsValue, env: Environment)
    requires Decide(parsed, name, env).TooOld?
    ensures var t := RunTrace(argv, parsed, name, env); var s := env.getSdk(name).value;
      ScanCommands(CommandsDir(s.path)) in t &&
      (forall i :: 0 <= i < |t| ==> !t[i].ScanHooks? && !t[i].Go?) &&
      t[|t| - 2] == ReportTooOld(Decide(parsed, name, env).subject) &&
      t[|t| - 1] == Exit(1) &&
      t == CommandScans(s) + [Banner, ReportTooOld(Decide(parsed, name, env).subject), Exit(1)]
  {
    var s := env.getSdk(name).value;
    var c := CommandScans(s);
    CommandScansOnlyCommands(s);
    assert RunTrace(argv, parsed, name, env) == c + [Banner, ReportTooOld(TooOldSubject(name, s)), Exit(1)];
  }

  /** On the success path hooks are scanned exactly once, from the SDK's hooks directory,
      after every command scan and right before the run; the run sees `--sdk <name>` followed
      by the original arguments in their original order. */
  lemma SuccessScansHooksOnceThenRuns(argv: seq<string>, parsed: ParsedArgs, name: JsValue, env: Environment)
    requires Decide(parsed, name, env).RunWithSdk?
    ensures var t := RunTrace(argv, parsed, name, env); var s := env.getSdk(name).value;
      |t| >= 3 &&
      (forall i :: 0 <= i < |t| ==> (t[i].ScanHooks? <==> i == |t| - 2)) &&
      t[|t| - 2] == ScanHooks(env.resolve(HooksDir(s.path))) &&
      (forall i :: 0 <= i < |t| && t[i].ScanCommands? ==> i < |t| - 2) &&
      t[|t| - 1].Go? && t[|t| - 1].argv[..2] == ["--sdk", s.name] && t[|t| - 1].argv[2..] == argv &&
      t == CommandScans(s) + [ScanHooks(env.resolve(HooksDir(s.path))), Go(["--sdk", s.name] + argv)]
  {
    var s := env.getSdk(name).value;
    var c := CommandScans(s);
    CommandScansOnlyCommands(s);
    assert RunTrace(argv, parsed, name, env) == c + [ScanHooks(env.resolve(HooksDir(s.path))), Go(["--sdk", s.name] + argv)];
  }

  /** The filter and the too-old check use the same threshold: an SDK without a manifest
      version that is rejected as too old is never among the SDKs offered to the user. */
  lemma TooOldSdkIsNeverOffered(parsed: ParsedArgs, name: JsValue, env: Environment)
    requires Decide(parsed, name, env).TooOld?
    requires !TruthyString(env.getSdk(name).value.manifestVersion)
    ensures env.getSdk(name).value.name !in EligibleSdks(env.installed, env.parse)
  {
  }

  /** With no SDK installed, a built-in command still runs, and any other command fails with
      the "no SDKs" message and exit code 1. */
  lemma NoSdkInstalledExample(argv: seq<string>, env: Environment)
    requires env.installed == [] && env.getSdk(Undefined) == None
    requires "help" in env.builtins && "build" !in env.builtins
    ensures RunTrace(argv, ParsedArgs(Undefined, ["help"]), Undefined, env) == [Go(argv)]
    ensures RunTrace(argv, ParsedArgs(Undefined, ["build"]), Undefined, env) == [Banner, ReportNoSdks, Exit(1)]
  {
  }

  /** A single SDK 2.9.0 requested by name fails as too old, naming "2.9.0" — after its commands
      directory was scanned. */
  lemma TooOldExample(argv: seq<string>, env: Environment)
    requires env.getSdk(Str("2.9.0")) == Some(Sdk("2.9.0", "/sdk", None, []))
    requires env.parse("2.9.0") == Some(Version(2, 9, 0))
    ensures RunTrace(argv, ParsedArgs(Str("2.9.0"), []), Str("2.9.0"), env) ==
              [ScanCommands("/sdk/cli/commands"), Banner, ReportTooOld(Str("2.9.0")), Exit(1)]
  {
    var s := Sdk("2.9.0", "/sdk", None, []);
    assert TestedVersion(s) == "2.9.0";
    assert CommandsDir("/sdk") == "/sdk/cli/commands";
    assert CommandScans(s) == [ScanCommands("/sdk/cli/commands")];
  }
}
