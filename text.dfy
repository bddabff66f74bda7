/** The string and array primitives the bootstrap relies on: `indexOf`, `split`, `join`, `toLowerCase`. */
module Text {

  /** `Array.prototype.indexOf`: the position of the first occurrence of `x` in `s`, or -1. */
  function IndexOf<T(==)>(s: seq<T>, x: T): (p: int)
    ensures -1 <= p < |s|
    ensures p == -1 <==> x !in s
    ensures 0 <= p ==> s[p] == x && x !in s[..p]
  {
    if s == [] then -1
    else if s[0] == x then 0
    else
      var q := IndexOf(s[1..], x);
      if q == -1 then
        assert s == [s[0]] + s[1..];
        -1
      else
        assert s[..q + 1] == [s[0]] + s[1..][..q];
        q + 1
  }

  /** `parts.join(sep)` for a single-character separator. */
  function Join(parts: seq<string>, sep: char): string
  {
    if |parts| == 0 then ""
    else if |parts| == 1 then parts[0]
    else parts[0] + [sep] + Join(parts[1..], sep)
  }

  /** `s.split(sep)` for a single-character separator: never empty, no part holds the
      separator, and joining the parts back gives `s`. */
  function Split(s: string, sep: char): (parts: seq<string>)
    ensures |parts| >= 1
    ensures forall i :: 0 <= i < |parts| ==> sep !in parts[i]
    ensures Join(parts, sep) == s
  {
    if s == [] then [""]
    else
      var rest := Split(s[1..], sep);
      if s[0] == sep then
        assert ([""] + rest)[1..] == rest;
        [""] + rest
      else
        var head := [s[0]] + rest[0];
        var parts := [head] + rest[1..];
        assert parts[1..] == rest[1..];
        assert |rest| > 1 ==> Join(rest, sep) == rest[0] + [sep] + Join(rest[1..], sep);
        assert Join(parts, sep) == [s[0]] + Join(rest, sep);
        assert s == [s[0]] + s[1..];
        parts
  }

  /** A string without the separator splits into itself alone. */
  lemma {:induction false} SplitNoSeparator(s: string, sep: char)
    requires sep !in s
    ensures Split(s, sep) == [s]
  {
    if s != [] {
      SplitNoSeparator(s[1..], sep);
    }
  }

  /** Splitting distributes over a separator: the parts of `a` then the parts of `b`. */
  lemma {:induction false} SplitAtSeparator(a: string, b: string, sep: char)
    ensures Split(a + [sep] + b, sep) == Split(a, sep) + Split(b, sep)
  {
    var s := a + [sep] + b;
    if a == [] {
      assert s[1..] == b;
    } else {
      assert s[1..] == a[1..] + [sep] + b;
      SplitAtSeparator(a[1..], b, sep);
    }
  }

  /** There are several parts exactly when the separator occurs. */
  lemma SplitHasSeveralParts(s: string, sep: char)
    ensures |Split(s, sep)| > 1 <==> sep in s
  {
    if sep in s {
      var k :| 0 <= k < |s| && s[k] == sep;
      assert s == s[..k] + [sep] + s[k + 1..];
      SplitAtSeparator(s[..k], s[k + 1..], sep);
    } else {
      SplitNoSeparator(s, sep);
    }
  }

  /** The last part is the text after the last separator. */
  lemma SplitLastPart(s: string, sep: char, k: nat)
    requires k < |s| && s[k] == sep && sep !in s[k + 1..]
    ensures |Split(s, sep)| > 1
    ensures Split(s, sep)[|Split(s, sep)| - 1] == s[k + 1..]
  {
    assert s == s[..k] + [sep] + s[k + 1..];
    SplitAtSeparator(s[..k], s[k + 1..], sep);
    SplitNoSeparator(s[k + 1..], sep);
  }

  /** Joining parts that hold no separator and splitting again gives the parts back. */
  lemma {:induction false} SplitJoin(parts: seq<string>, sep: char)
    requires |parts| >= 1
    requires forall i :: 0 <= i < |parts| ==> sep !in parts[i]
    ensures Split(Join(parts, sep), sep) == parts
  {
    SplitNoSeparator(parts[0], sep);
    if |parts| > 1 {
      SplitAtSeparator(parts[0], Join(parts[1..], sep), sep);
      SplitJoin(parts[1..], sep);
      assert parts == [parts[0]] + parts[1..];
    }
  }

  /** `toLowerCase` on the ASCII letters; every other character is kept. */
  function LowerChar(c: char): char
  {
    if 'A' <= c <= 'Z' then (c as int + 32) as char else c
  }

  function Lower(s: string): string
  {
    seq(|s|, i requires 0 <= i < |s| => LowerChar(s[i]))
  }
}
