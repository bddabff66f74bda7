/** Version comparison against the oldest SDK the CLI accepts. Parsing a version string is
    the job of a collaborator (`appc.version`); it is a parameter here, and None stands for
    a string it cannot parse, on which the comparison throws. */
module Versions {
  import opened Js

  datatype Version = Version(major: nat, minor: nat, patch: nat)

  type Parser = string -> Option<Version>

  /** Semantic-version order on (major, minor, patch). */
  predicate Less(a: Version, b: Version) {
    a.major < b.major ||
    (a.major == b.major && (a.minor < b.minor || (a.minor == b.minor && a.patch < b.patch)))
  }

  /** '3.0.0', the oldest SDK the CLI bootstraps. */
  const Minimum: Version := Version(3, 0, 0)

  /** `appc.version.gte(v, '3.0.0')`; None when it throws. Since the minimum is 3.0.0, this is
      a test of the major number alone. */
  function AtLeastMinimum(parse: Parser, v: string): (r: Option<bool>)
    ensures r.None? <==> parse(v).None?
    ensures r.Some? ==> (r.value <==> parse(v).value.major >= 3)
  {
    match parse(v)
    case None => None
    case Some(x) => Some(!Less(x, Minimum))
  }

  /** `appc.version.lt(v, '3.0.0')`; None when it throws. It is the complement of AtLeastMinimum. */
  function BelowMinimum(parse: Parser, v: string): (r: Option<bool>)
    ensures r.Some? <==> AtLeastMinimum(parse, v).Some?
    ensures r.Some? ==> r.value == !AtLeastMinimum(parse, v).value
  {
    match parse(v)
    case None => None
    case Some(x) => Some(Less(x, Minimum))
  }
}
