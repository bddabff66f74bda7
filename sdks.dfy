/** What the bootstrap computes about Titanium SDKs before it dispatches: the search paths,
    the requested SDK name, the list of usable installed SDKs and the version it tests. */
module Sdks {
  import opened Js
  import opened Versions

  /** One platform add-on of an SDK, as listed under `sdk.platforms` (key order kept). */
  datatype Platform = Platform(name: string, path: string)

  /** An SDK descriptor returned by `env.getSDK`: its name, install root, the optional
      `manifest.version` and its platform add-ons. */
  datatype Sdk = Sdk(name: string, path: string, manifestVersion: Option<string>, platforms: seq<Platform>)

  /** The configured `paths.sdks`: an array of directories, or anything else. */
  datatype PathsSetting = NotAnArray | PathList(paths: seq<string>)

  /** `Array.isArray(sdkPaths) || (sdkPaths = [])` */
  function SearchPaths(setting: PathsSetting): seq<string>
  {
    if setting.PathList? then setting.paths else []
  }

  /** `paths.some(p => afs.resolvePath(p) == target)` */
  function AnyResolvesTo(paths: seq<string>, target: string, resolve: string -> string): (b: bool)
    ensures b <==> exists i :: 0 <= i < |paths| && resolve(paths[i]) == target
  {
    if paths == [] then false
    else if resolve(paths[0]) == target then true
    else
      var b := AnyResolvesTo(paths[1..], target, resolve);
      assert forall i :: 1 <= i < |paths| ==> paths[i] == paths[1..][i - 1];
      b
  }

  /** Whether the default install location has to be added to the search paths (and the
      config therefore saved). */
  predicate AddsDefault(setting: PathsSetting, dflt: Option<string>, resolve: string -> string)
  {
    TruthyString(dflt) && !AnyResolvesTo(SearchPaths(setting), dflt.value, resolve)
  }

  /** The SDK search paths after normalisation: the configured list (or [] when it is not an
      array), with the default install location appended once at the end when it is set and
      no entry resolves to it. */
  function NormalizedSdkPaths(setting: PathsSetting, dflt: Option<string>, resolve: string -> string): (r: seq<string>)
    ensures SearchPaths(setting) <= r
    ensures |r| == |SearchPaths(setting)| + (if AddsDefault(setting, dflt, resolve) then 1 else 0)
    ensures AddsDefault(setting, dflt, resolve) ==> r[|r| - 1] == dflt.value
    ensures TruthyString(dflt) && resolve(dflt.value) == dflt.value ==>
              exists i :: 0 <= i < |r| && resolve(r[i]) == dflt.value
  {
    var paths := SearchPaths(setting);
    if AddsDefault(setting, dflt, resolve) then
      var r := paths + [dflt.value];
      assert resolve(r[|paths|]) == resolve(dflt.value);
      r
    else paths
  }

  /** When the default location resolves to itself, normalising twice changes nothing: the
      second pass neither appends nor saves. */
  lemma NormalizationIsIdempotent(setting: PathsSetting, dflt: Option<string>, resolve: string -> string)
    requires TruthyString(dflt) ==> resolve(dflt.value) == dflt.value
    ensures var once := NormalizedSdkPaths(setting, dflt, resolve);
      !AddsDefault(PathList(once), dflt, resolve) &&
      NormalizedSdkPaths(PathList(once), dflt, resolve) == once
  {
  }

  /** When the default location does not resolve to itself (a `~`, a relative path, a trailing
      separator) and no configured entry resolves to it, the appended entry never matches on
      the next normalisation either: every run appends the default once more and saves. */
  lemma NormalizationReappendsUnresolvedDefault(setting: PathsSetting, dflt: Option<string>, resolve: string -> string)
    requires TruthyString(dflt) && resolve(dflt.value) != dflt.value
    requires !AnyResolvesTo(SearchPaths(setting), dflt.value, resolve)
    ensures var once := NormalizedSdkPaths(setting, dflt, resolve);
      AddsDefault(PathList(once), dflt, resolve) &&
      NormalizedSdkPaths(PathList(once), dflt, resolve) == once + [dflt.value]
  {
  }

  /** `argv.sdk || config.get('sdk.selected', config.get('app.sdk'))`: the command-line value
      when it is truthy, else `sdk.selected` when that is defined, else `app.sdk`. */
  function SdkName(argSdk: JsValue, selected: JsValue, appSdk: JsValue): (name: JsValue)
    ensures name == argSdk || name == selected || name == appSdk
    ensures Truthy(argSdk) ==> name == argSdk
    ensures !Truthy(argSdk) && selected != Undefined ==> name == selected
    ensures !Truthy(argSdk) && selected == Undefined ==> name == appSdk
  {
    if Truthy(argSdk) then argSdk
    else if selected != Undefined then selected
    else appSdk
  }

  /** The SDKs offered to the user: the installed names whose version is at least 3.0.0; a
      name the comparison cannot parse is dropped instead of aborting the filter. */
  function EligibleSdks(installed: seq<string>, parse: Parser): (r: seq<string>)
    ensures forall v :: v in r <==> v in installed && AtLeastMinimum(parse, v) == Some(true)
    ensures |r| <= |installed|
  {
    if installed == [] then []
    else
      var rest := EligibleSdks(installed[1..], parse);
      assert installed == [installed[0]] + installed[1..];
      if AtLeastMinimum(parse, installed[0]) == Some(true) then [installed[0]] + rest else rest
  }

  /** `sdk.manifest && sdk.manifest.version || sdk.name`: the version the too-old test uses. */
  function TestedVersion(s: Sdk): (v: string)
    ensures TruthyString(s.manifestVersion) ==> v == s.manifestVersion.value
    ensures !TruthyString(s.manifestVersion) ==> v == s.name
  {
    if TruthyString(s.manifestVersion) then s.manifestVersion.value else s.name
  }
}
