/**
 * The Python string operations the server relies on: `lower`,
 * `startswith`, `endswith` and `split` on a one-character separator.
 */
module PyStrings {

  /** `lower` on one character; only the ASCII letters A to Z change. */
  function LowerChar(c: char): char
  {
    if 'A' <= c <= 'Z' then (c as int + 32) as char else c
  }

  function Lower(s: string): (r: string)
    ensures |r| == |s|
    ensures forall i :: 0 <= i < |s| ==> r[i] == LowerChar(s[i])
  {
    if s == [] then [] else [LowerChar(s[0])] + Lower(s[1..])
  }

  /** Lower(s) is t when t lowers s character by character. */
  lemma LowerIs(s: string, t: string)
    requires |s| == |t| && forall i :: 0 <= i < |s| ==> LowerChar(s[i]) == t[i]
    ensures Lower(s) == t
  {
  }

  predicate StartsWith(s: string, prefix: string)
  {
    |prefix| <= |s| && s[..|prefix|] == prefix
  }

  predicate EndsWith(s: string, suffix: string)
  {
    |suffix| <= |s| && s[|s| - |suffix|..] == suffix
  }

  /** `s.split(sep)`: the fields between occurrences of sep, always at least one. */
  function Split(s: string, sep: char): (fields: seq<string>)
    ensures |fields| >= 1
    ensures forall k :: 0 <= k < |fields| ==> sep !in fields[k]
    ensures |fields| == 1 <==> sep !in s
  {
    if s == [] then [""]
    else
      var rest := Split(s[1..], sep);
      if s[0] == sep then [""] + rest
      else [[s[0]] + rest[0]] + rest[1..]
  }

  /** `sep.join(fields)`, the inverse of Split. */
  function Join(fields: seq<string>, sep: char): string
    requires |fields| >= 1
  {
    if |fields| == 1 then fields[0] else fields[0] + [sep] + Join(fields[1..], sep)
  }

  /** Joining the fields of a split gives back the original string. */
  lemma {:induction false} JoinSplit(s: string, sep: char)
    ensures Join(Split(s, sep), sep) == s
  {
    if s != [] {
      JoinSplit(s[1..], sep);
      var rest := Split(s[1..], sep);
      if s[0] != sep {
        var fields := [[s[0]] + rest[0]] + rest[1..];
        if |rest| > 1 {
          assert fields[1..] == rest[1..];
          assert Join(rest, sep) == rest[0] + [sep] + Join(rest[1..], sep);
        }
      } else {
        assert ([""] + rest)[1..] == rest;
      }
    }
  }

  /** `s.split(sep)[-1]`. */
  function LastField(s: string, sep: char): string
  {
    var fields := Split(s, sep);
    fields[|fields| - 1]
  }

  /**
   * The last field is the text after the last separator: it holds no
   * separator, it ends the string, and it is either the whole string or
   * preceded by a separator.
   */
  lemma {:induction false} LastFieldIsTail(s: string, sep: char)
    ensures var p := LastField(s, sep);
      && sep !in p
      && |p| <= |s| && s[|s| - |p|..] == p
      && (sep !in s ==> p == s)
      && (sep in s ==> |p| < |s| && s[|s| - |p| - 1] == sep)
  {
    if s != [] {
      LastFieldIsTail(s[1..], sep);
      var rest := Split(s[1..], sep);
      var p := LastField(s, sep);
      if s[0] == sep {
        assert p == rest[|rest| - 1];
      } else if |rest| > 1 {
        assert p == rest[|rest| - 1];
      } else {
        assert p == [s[0]] + rest[0];
        assert s == [s[0]] + s[1..];
      }
    }
  }
}
