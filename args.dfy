/** Raw command-line lookup done before the CLI processor exists. */
module Args {
  import opened Js
  import opened Text

  /** `getArg(name)`: the argument right after the first occurrence of `name` in the raw
      argv, or None (JavaScript `null`) when `name` is absent or is the last argument. */
  function GetArg(argv: seq<string>, name: string): (r: Option<string>)
    ensures name !in argv ==> r == None
    ensures forall p :: 0 <= p < |argv| && argv[p] == name && name !in argv[..p] ==>
              r == (if p + 1 < |argv| then Some(argv[p + 1]) else None)
  {
    var p := IndexOf(argv, name);
    if p != -1 && p + 1 < |argv| then Some(argv[p + 1]) else None
  }

  /** Only the first occurrence matters: a later repetition of the flag never changes the answer. */
  lemma GetArgIgnoresLaterOccurrences(argv: seq<string>, name: string, value: string, more: seq<string>)
    requires name !in argv
    ensures GetArg(argv + [name, value] + more, name) == Some(value)
  {
    var s := argv + [name, value] + more;
    assert s[|argv|] == name && s[..|argv|] == argv;
  }
}
