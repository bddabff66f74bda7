/** Where the startup locale comes from, and how often `run()` is entered at startup. */
module Locale {
  import opened Js
  import opened Dispatch

  /** What reading the config file at startup gave: no file, an unparseable file, or a
      parsed document with its `user.locale` entry. */
  datatype ConfigFile = Missing | Unparseable | Parsed(userLocale: JsValue)

  /** The host `detectLocale` asks. On win32 the first `reg query` may fail, and when it
      succeeds its output may or may not hold a `Locale REG_SZ` line. */
  datatype Host = Posix | Windows(queryFailed: bool, hasLocaleLine: bool)

  /** Whether `detectLocale(run)` ever calls `run`: the `locale` command's callback always
      does, and so does every win32 path except a successful first query whose output has
      no `Locale REG_SZ` line. */
  function DetectCallsBack(host: Host): (calls: bool)
    ensures host.Posix? ==> calls
    ensures !calls <==> host.Windows? && !host.queryFailed && !host.hasLocaleLine
  {
    host.Posix? || host.queryFailed || host.hasLocaleLine
  }

  /** Which locale one entry into `run()` was given. */
  datatype LocaleSource = FromConfig(locale: JsValue) | Detected

  /** The entries into `run()` at startup, in order. A truthy `user.locale` in a readable
      config file is tried first. The `try` around that call also catches whatever escapes
      `run()` itself (`firstThrows`), and `detectLocale(run)` follows. In every other case
      only `detectLocale(run)` is called. Each call of `detectLocale` enters `run()` once, or
      not at all on the one win32 path that never calls back. */
  function StartupRuns(file: ConfigFile, firstThrows: bool, host: Host): (runs: seq<LocaleSource>)
    ensures |runs| <= 2
    ensures (|runs| > 0 && runs[0].FromConfig?) <==> file.Parsed? && Truthy(file.userLocale)
    ensures |runs| > 0 && runs[0].FromConfig? ==> runs[0].locale == file.userLocale
    ensures runs == [] <==> !(file.Parsed? && Truthy(file.userLocale)) && !DetectCallsBack(host)
    ensures |runs| == 2 <==> file.Parsed? && Truthy(file.userLocale) && firstThrows && DetectCallsBack(host)
    ensures (|runs| > 0 && runs[|runs| - 1] == Detected) <==>
              DetectCallsBack(host) && (!(file.Parsed? && Truthy(file.userLocale)) || firstThrows)
  {
    var detected := if DetectCallsBack(host) then [Detected] else [];
    if file.Parsed? && Truthy(file.userLocale) then
      [FromConfig(file.userLocale)] + (if firstThrows then detected else [])
    else detected
  }

  /** An SDK whose tested version cannot be parsed makes the dispatch throw; with a locale in
      the config file the exception is swallowed and, when detection calls back, the whole
      bootstrap runs again with the detected locale. Any other dispatch outcome ends the
      first run without a retry. */
  lemma VersionThrowRunsTwice(file: ConfigFile, host: Host, argv: seq<string>, parsed: ParsedArgs, name: JsValue, env: Environment)
    requires file.Parsed? && Truthy(file.userLocale)
    ensures var t := RunTrace(argv, parsed, name, env);
      StartupRuns(file, t[|t| - 1] == Threw, host) ==
        if Decide(parsed, name, env).VersionThrew? && DetectCallsBack(host)
        then [FromConfig(file.userLocale), Detected]
        else [FromConfig(file.userLocale)]
  {
    TraceEndsWithOutcome(argv, parsed, name, env);
  }
}
