/**
 * Python's `str.replace`, as the file-name derivation uses it to turn the
 * name of a rendered picture into the name of its laser variant.
 */
module Strings {

  /** `s.replace(pattern, replacement)`: every occurrence, scanning left to right, none overlapping. */
  function Replace(s: string, pattern: string, replacement: string): (r: string)
    requires pattern != []
    ensures replacement == pattern ==> r == s
    ensures |replacement| == |pattern| ==> |r| == |s|
    decreases |s|
  {
    if |s| < |pattern| then s
    else if s[..|pattern|] == pattern then
      assert s == s[..|pattern|] + s[|pattern|..];
      replacement + Replace(s[|pattern|..], pattern, replacement)
    else [s[0]] + Replace(s[1..], pattern, replacement)
  }

  /** No "p" in `s` is directly followed by an "i". */
  predicate NoPI(s: string)
  {
    forall i :: 0 <= i < |s| - 1 ==> !(s[i] == 'p' && s[i + 1] == 'i')
  }

  /** A pattern starting with "pi" occurs nowhere in a string without "pi", so nothing is replaced. */
  lemma {:induction false} ReplaceWithoutMatch(s: string, pattern: string, replacement: string)
    requires |pattern| >= 2 && pattern[0] == 'p' && pattern[1] == 'i'
    requires NoPI(s)
    ensures Replace(s, pattern, replacement) == s
    decreases |s|
  {
    if |s| >= |pattern| {
      assert s[..|pattern|] != pattern by {
        assert s[..|pattern|][0] == s[0] && s[..|pattern|][1] == s[1];
      }
      assert NoPI(s[1..]) by {
        forall i | 0 <= i < |s[1..]| - 1
          ensures !(s[1..][i] == 'p' && s[1..][i + 1] == 'i')
        {
          assert s[1..][i] == s[i + 1] && s[1..][i + 1] == s[i + 2];
        }
      }
      ReplaceWithoutMatch(s[1..], pattern, replacement);
      assert [s[0]] + s[1..] == s;
    }
  }

  /** An occurrence at the very start is replaced, and the scan goes on after it. */
  lemma ReplaceAtStart(rest: string, pattern: string, replacement: string)
    requires pattern != []
    ensures Replace(pattern + rest, pattern, replacement) == replacement + Replace(rest, pattern, replacement)
  {
    assert (pattern + rest)[..|pattern|] == pattern;
    assert (pattern + rest)[|pattern|..] == rest;
  }

  /** Two strings without "pi" stay without it when joined, unless the seam makes one. */
  lemma NoPIConcat(a: string, b: string)
    requires NoPI(a) && NoPI(b)
    requires a != [] && b != [] ==> !(a[|a| - 1] == 'p' && b[0] == 'i')
    ensures NoPI(a + b)
  {
    forall i | 0 <= i < |a + b| - 1
      ensures !((a + b)[i] == 'p' && (a + b)[i + 1] == 'i')
    {
      if i + 1 < |a| {
        assert (a + b)[i] == a[i] && (a + b)[i + 1] == a[i + 1];
      } else if i >= |a| {
        assert (a + b)[i] == b[i - |a|] && (a + b)[i + 1] == b[i + 1 - |a|];
      } else {
        assert (a + b)[i] == a[|a| - 1] && (a + b)[i + 1] == b[0];
      }
    }
  }

  /**
   * A pattern starting with "pi" in front of a string without "pi" is
   * replaced there and nowhere else.
   */
  lemma ReplaceOnlyAtStart(rest: string, pattern: string, replacement: string)
    requires |pattern| >= 2 && pattern[0] == 'p' && pattern[1] == 'i'
    requires NoPI(rest)
    ensures Replace(pattern + rest, pattern, replacement) == replacement + rest
  {
    ReplaceAtStart(rest, pattern, replacement);
    ReplaceWithoutMatch(rest, pattern, replacement);
  }
}
