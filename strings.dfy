/**
 * The few Python string operations the backend relies on: `startswith`,
 * `endswith`, the `in` substring test, `replace(old, "")` and `lower()`.
 */
module Strings {

  predicate StartsWith(s: string, prefix: string) {
    |prefix| <= |s| && s[..|prefix|] == prefix
  }

  predicate EndsWith(s: string, suffix: string) {
    |suffix| <= |s| && s[|s| - |suffix|..] == suffix
  }

  /** Python's `needle in s`: some position of `s` starts with `needle`. */
  predicate Contains(s: string, needle: string)
    decreases |s|
  {
    StartsWith(s, needle) || (|s| > 0 && Contains(s[1..], needle))
  }

  /**
   * Python's `s.replace(old, "")` for a non-empty `old`: scans left to right and
   * deletes every non-overlapping occurrence, not only a trailing one.
   */
  function RemoveAll(s: string, pattern: string): (r: string)
    requires |pattern| > 0
    ensures |r| <= |s|
    ensures !Contains(s, pattern) ==> r == s
    decreases |s|
  {
    if |s| < |pattern| then s
    else if StartsWith(s, pattern) then RemoveAll(s[|pattern|..], pattern)
    else [s[0]] + RemoveAll(s[1..], pattern)
  }

  /** Any occurrence at all makes the result at least one `old` shorter. */
  lemma {:induction false} RemoveAllShrinks(s: string, pattern: string)
    requires |pattern| > 0 && Contains(s, pattern)
    ensures |RemoveAll(s, pattern)| <= |s| - |pattern|
    decreases |s|
  {
    if !StartsWith(s, pattern) {
      RemoveAllShrinks(s[1..], pattern);
    }
  }

  /**
   * When `old` begins with a character that occurs nowhere else in it (as "-low",
   * "-medium" and "-high" do) and `x` has no occurrence of `old`, removing every
   * occurrence from `x + pattern` gives back `x`.
   */
  lemma {:induction false} RemoveAllTrailing(x: string, pattern: string)
    requires |pattern| > 0 && !Contains(x, pattern)
    requires forall i :: 0 < i < |pattern| ==> pattern[i] != pattern[0]
    ensures RemoveAll(x + pattern, pattern) == x
    decreases |x|
  {
    var s := x + pattern;
    if x == [] {
      assert s == pattern && s[|pattern|..] == [];
    } else {
      if |x| < |pattern| {
        assert s[..|pattern|][|x|] == pattern[0];
      } else {
        assert s[..|pattern|] == x[..|pattern|];
      }
      assert !StartsWith(s, pattern);
      assert s[1..] == x[1..] + pattern;
      RemoveAllTrailing(x[1..], pattern);
    }
  }

  /**
   * Every occurrence goes, wherever it sits: removing a pattern (whose first
   * character is not repeated in it) from `x + pattern + y` removes it from `x`
   * and from `y` separately, and drops the occurrence between them.
   */
  lemma {:induction false} RemoveAllSplits(x: string, y: string, pattern: string)
    requires |pattern| > 0 && forall i :: 0 < i < |pattern| ==> pattern[i] != pattern[0]
    ensures RemoveAll(x + pattern + y, pattern) == RemoveAll(x, pattern) + RemoveAll(y, pattern)
    decreases |x|
  {
    var s := x + pattern + y;
    if x == [] {
      assert s[..|pattern|] == pattern && s[|pattern|..] == y;
    } else if |x| >= |pattern| && StartsWith(x, pattern) {
      assert s[..|pattern|] == x[..|pattern|];
      assert s[|pattern|..] == x[|pattern|..] + pattern + y;
      RemoveAllSplits(x[|pattern|..], y, pattern);
    } else {
      NoOccurrenceAtSeam(x, y, pattern);
      assert s[1..] == x[1..] + pattern + y;
      RemoveAllSplits(x[1..], y, pattern);
      RemoveAllFirstKept(x, pattern);
    }
  }

  /** No occurrence starts inside `x` and runs into the pattern that follows it. */
  lemma NoOccurrenceAtSeam(x: string, y: string, pattern: string)
    requires |pattern| > 0 && forall i :: 0 < i < |pattern| ==> pattern[i] != pattern[0]
    requires |x| > 0 && !(|x| >= |pattern| && StartsWith(x, pattern))
    ensures !StartsWith(x + pattern + y, pattern)
  {
    var s := x + pattern + y;
    if |x| < |pattern| {
      assert s[..|pattern|][|x|] == pattern[0];
    } else {
      assert s[..|pattern|] == x[..|pattern|];
    }
  }

  /** A string that does not start with the pattern keeps its first character. */
  lemma RemoveAllFirstKept(x: string, pattern: string)
    requires |pattern| > 0 && |x| > 0 && !(|x| >= |pattern| && StartsWith(x, pattern))
    ensures RemoveAll(x, pattern) == [x[0]] + RemoveAll(x[1..], pattern)
  {
    if |x| < |pattern| {
      assert [x[0]] + x[1..] == x;
    }
  }

  /** A pattern holding a character that `s` lacks cannot occur in `s`. */
  lemma {:induction false} MissingCharNotContained(s: string, pattern: string, c: char)
    requires c in pattern && c !in s
    ensures !Contains(s, pattern)
    decreases |s|
  {
    if |s| > 0 {
      MissingCharNotContained(s[1..], pattern, c);
    }
  }

  /**
   * A pattern whose first character is not repeated in it cannot straddle the
   * seam of `x + y` when `y` starts with that character.
   */
  lemma {:induction false} NotContainedAcross(x: string, y: string, pattern: string)
    requires |pattern| > 0 && forall i :: 0 < i < |pattern| ==> pattern[i] != pattern[0]
    requires |y| > 0 && y[0] == pattern[0]
    requires !Contains(x, pattern) && !Contains(y, pattern)
    ensures !Contains(x + y, pattern)
    decreases |x|
  {
    var s := x + y;
    if x == [] {
      assert s == y;
    } else {
      if |x| < |pattern| {
        if |pattern| <= |s| {
          assert s[..|pattern|][|x|] == pattern[0];
        }
      } else {
        assert s[..|pattern|] == x[..|pattern|];
      }
      assert !StartsWith(s, pattern);
      assert s[1..] == x[1..] + y;
      NotContainedAcross(x[1..], y, pattern);
    }
  }

  /** ASCII case folding; other characters are left alone. */
  function LowerChar(c: char): char {
    if 'A' <= c <= 'Z' then (c as int + 32) as char else c
  }

  /** Python's `str.lower()`, restricted to ASCII letters. */
  function Lower(s: string): (r: string)
    ensures |r| == |s|
    ensures forall i :: 0 <= i < |s| ==> r[i] == LowerChar(s[i])
    ensures forall i :: 0 <= i < |s| ==> !('A' <= r[i] <= 'Z')
  {
    seq(|s|, i requires 0 <= i < |s| => LowerChar(s[i]))
  }

  lemma LowerIdempotent(s: string)
    ensures Lower(Lower(s)) == Lower(s)
  {
  }
}
