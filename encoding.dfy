/** The terminal character-encoding warning shown after the banner. */
module Encoding {
  import opened Js
  import opened Text

  /** The encoding the CLI warns about, or None. `LANG` is split on '.'; the warning names the
      last part and is given when `LANG` is set, `cli.hideCharEncWarning` is falsy, there are at
      least two parts and the last one, lower-cased, is not "utf-8". */
  function EncodingWarning(lang: Option<string>, suppressed: JsValue): (r: Option<string>)
    ensures !TruthyString(lang) || Truthy(suppressed) ==> r == None
    ensures lang.Some? && '.' !in lang.value ==> r == None
    ensures r.Some? ==> '.' !in r.value && Lower(r.value) != "utf-8"
  {
    if TruthyString(lang) && !Truthy(suppressed) then
      var parts := Split(lang.value, '.');
      var last := parts[|parts| - 1];
      SplitHasSeveralParts(lang.value, '.');
      if |parts| > 1 && Lower(last) != "utf-8" then Some(last) else None
    else None
  }

  /** For a `LANG` whose last '.' sits at `k`, the warning is decided by the text after it,
      case-insensitively, and names exactly that text. */
  lemma EncodingWarningNamesLastSuffix(lang: string, suppressed: JsValue, k: nat)
    requires k < |lang| && lang[k] == '.' && '.' !in lang[k + 1..]
    ensures EncodingWarning(Some(lang), suppressed) ==
              if !Truthy(suppressed) && Lower(lang[k + 1..]) != "utf-8" then Some(lang[k + 1..]) else None
  {
    SplitLastPart(lang, '.', k);
  }

  /** A UTF-8 terminal, in any letter case, gets no warning. */
  lemma Utf8TerminalIsNotWarned(prefix: string, charset: string, suppressed: JsValue)
    requires '.' !in charset && Lower(charset) == "utf-8"
    ensures EncodingWarning(Some(prefix + "." + charset), suppressed) == None
  {
    var lang := prefix + "." + charset;
    assert lang[|prefix|] == '.' && lang[|prefix| + 1..] == charset;
    EncodingWarningNamesLastSuffix(lang, suppressed, |prefix|);
  }

  /** Any other charset is named in the warning whenever `cli.hideCharEncWarning` is falsy
      (unset, false, null, 0 or ""). */
  lemma OtherEncodingIsWarned(prefix: string, charset: string, suppressed: JsValue)
    requires '.' !in charset && Lower(charset) != "utf-8" && !Truthy(suppressed)
    ensures EncodingWarning(Some(prefix + "." + charset), suppressed) == Some(charset)
  {
    var lang := prefix + "." + charset;
    assert lang[|prefix|] == '.' && lang[|prefix| + 1..] == charset;
    EncodingWarningNamesLastSuffix(lang, suppressed, |prefix|);
  }
}
