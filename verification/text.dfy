/**
 The two string operations the protocol relies on: Python's `str.lower()`
 (restricted to ASCII letters) and `str.split(sep, 1)`.
 */
module Text {
  import opened Common

  /** Lower-cases one ASCII upper-case letter; every other character is kept. */
  function LowerChar(c: char): char
  {
    if 'A' <= c <= 'Z' then (c as int + 32) as char else c
  }

  function Lower(s: string): string
  {
    seq(|s|, i requires 0 <= i < |s| => LowerChar(s[i]))
  }

  /** The position of the first occurrence of `c` in `s`, if any. */
  function FindFirst(s: string, c: char): (r: Option<nat>)
    ensures r.None? <==> c !in s
    ensures r.Some? ==> r.value < |s| && s[r.value] == c && c !in s[..r.value]
  {
    if |s| == 0 then None
    else if s[0] == c then Some(0)
    else match FindFirst(s[1..], c)
      case None => None
      case Some(k) =>
        assert s[1..][..k] == s[1..k + 1];
        Some(k + 1)
  }

  /**
   `s.split(sep, 1)`: a single part when `sep` does not occur, otherwise the
   text before the first `sep` and everything after it (which may contain
   further separators).
   */
  function SplitOnce(s: string, sep: char): (parts: seq<string>)
    ensures sep !in s ==> parts == [s]
    ensures sep in s ==> |parts| == 2 && s == parts[0] + [sep] + parts[1] && sep !in parts[0]
  {
    match FindFirst(s, sep)
    case None => [s]
    case Some(k) =>
      assert s == s[..k] + [sep] + s[k + 1..];
      [s[..k], s[k + 1..]]
  }

  /** The split is determined by the first separator: any decomposition whose head is separator-free is the one returned. */
  lemma SplitOnceUnique(a: string, sep: char, b: string)
    requires sep !in a
    ensures SplitOnce(a + [sep] + b, sep) == [a, b]
  {
    var s := a + [sep] + b;
    assert s[|a|] == sep;
    var parts := SplitOnce(s, sep);
    var k := FindFirst(s, sep).value;
    assert s[..|a|] == a;
    assert k >= |a| by {
      assert forall j :: 0 <= j < |a| ==> s[j] == a[j];
    }
    assert k <= |a| by {
      assert forall j :: 0 <= j < k ==> s[..k][j] == s[j];
    }
    assert s[..|a|] == a;
    assert s[|a| + 1..] == b;
  }
}
