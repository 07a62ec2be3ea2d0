/**
 * The string operations the Warehouse relies on, stated explicitly:
 * prefix and suffix tests, removal of one trailing separator, the path
 * join behind `stringByAppendingPathComponent`, and the literal
 * replace-all behind `stringByReplacingOccurrencesOfString`.
 */
module Paths {

  /** `s.hasSuffix(x)` */
  predicate HasSuffix(s: string, x: string) {
    |x| <= |s| && s[|s| - |x|..] == x
  }

  /** True when the last character of `s` is a separator. */
  predicate EndsWithSlash(s: string) {
    |s| > 0 && s[|s| - 1] == '/'
  }

  lemma HasSuffixSlash(s: string)
    ensures HasSuffix(s, "/") <==> EndsWithSlash(s)
  {
    if |s| > 0 {
      assert s[|s| - 1..] == [s[|s| - 1]];
    }
  }

  /**
   * Removes the last character of `s` when it is a separator, and leaves
   * `s` as it is otherwise.
   */
  function DropTrailingSlash(s: string): (r: string)
    ensures r <= s
    ensures |s| - |r| <= 1
    ensures |r| < |s| <==> EndsWithSlash(s)
  {
    HasSuffixSlash(s);
    if HasSuffix(s, "/") then s[..|s| - 1] else s
  }

  /** `s` with every trailing separator removed. */
  function TrimTrailingSlashes(s: string): (r: string)
    ensures r <= s
    ensures !EndsWithSlash(r)
    ensures forall i :: |r| <= i < |s| ==> s[i] == '/'
    decreases |s|
  {
    if EndsWithSlash(s) then TrimTrailingSlashes(s[..|s| - 1]) else s
  }

  /** `s` with every leading separator removed. */
  function TrimLeadingSlashes(s: string): (r: string)
    ensures |r| <= |s| && r == s[|s| - |r|..]
    ensures |r| == 0 || r[0] != '/'
    ensures forall i :: 0 <= i < |s| - |r| ==> s[i] == '/'
    decreases |s|
  {
    if |s| > 0 && s[0] == '/' then TrimLeadingSlashes(s[1..]) else s
  }

  /**
   * `base.stringByAppendingPathComponent(component)`, simplified to its
   * separator rule: exactly one '/' between the two sides, whatever
   * separators either side already carries.
   */
  function AppendingPathComponent(base: string, component: string): (r: string)
    ensures var b := TrimTrailingSlashes(base);
            b <= r && |r| > |b| && r[|b|] == '/' &&
            (|b| == 0 || r[|b| - 1] != '/') &&
            (|r| == |b| + 1 || r[|b| + 1] != '/')
    ensures HasSuffix(r, TrimLeadingSlashes(component))
    ensures |r| == |TrimTrailingSlashes(base)| + 1 + |TrimLeadingSlashes(component)|
  {
    TrimTrailingSlashes(base) + "/" + TrimLeadingSlashes(component)
  }

  /** With no separator on either side, the join inserts exactly one. */
  lemma AppendingPathComponentPlain(base: string, component: string)
    requires !EndsWithSlash(base)
    requires |component| == 0 || component[0] != '/'
    ensures AppendingPathComponent(base, component) == base + "/" + component
  {
  }

  /** Separators already present on either side are absorbed by the join. */
  lemma {:induction false} AppendingPathComponentAbsorbsSeparators(base: string, component: string)
    ensures AppendingPathComponent(base + "/", component) == AppendingPathComponent(base, component)
    ensures AppendingPathComponent(base, "/" + component) == AppendingPathComponent(base, component)
  {
    assert (base + "/")[..|base + "/"| - 1] == base;
    assert ("/" + component)[1..] == component;
  }

  /** Regrouping a path built from a root, a sub-directory, a separator and a name. */
  lemma RegroupPath(root: string, sub: string, name: string)
    ensures root + sub + "/" + name == root + (sub + "/" + name)
  {
  }

  /** Dropping part of the front of `a + b` keeps `b` as a suffix. */
  lemma SuffixSurvivesDrop(a: string, b: string, k: nat)
    requires k <= |a|
    ensures HasSuffix((a + b)[k..], b)
  {
    assert (a + b)[k..] == a[k..] + b;
  }

  /** `pattern` occurs in `s` starting at index `i`. */
  predicate OccursAt(s: string, pattern: string, i: int) {
    0 <= i && i + |pattern| <= |s| && s[i..i + |pattern|] == pattern
  }

  ghost predicate Occurs(s: string, pattern: string) {
    exists i :: OccursAt(s, pattern, i)
  }

  /** `pattern` occurs in `s` only as its prefix. */
  ghost predicate OccursOnlyAtStart(s: string, pattern: string) {
    forall i :: OccursAt(s, pattern, i) ==> i == 0
  }

  /**
   * `s.stringByReplacingOccurrencesOfString(target, withString: replacement)`:
   * a literal, left-to-right scan that replaces non-overlapping occurrences
   * of a non-empty `target`; an empty target leaves `s` as it is.
   */
  function ReplacingOccurrences(s: string, target: string, replacement: string): (r: string)
    ensures |replacement| <= |target| ==> |r| <= |s|
    ensures |replacement| <= |target| && |target| > 0 && target <= s ==>
              |r| <= |s| - |target| + |replacement|
    decreases |s|
  {
    if |target| == 0 || |s| < |target| then s
    else if s[..|target|] == target then
      replacement + ReplacingOccurrences(s[|target|..], target, replacement)
    else
      [s[0]] + ReplacingOccurrences(s[1..], target, replacement)
  }

  /** A string that does not contain the target is left unchanged. */
  lemma {:induction false} ReplacingAbsent(s: string, target: string, replacement: string)
    requires !Occurs(s, target)
    ensures ReplacingOccurrences(s, target, replacement) == s
    decreases |s|
  {
    if |target| == 0 || |s| < |target| {
    } else {
      assert !OccursAt(s, target, 0);
      forall i | OccursAt(s[1..], target, i)
        ensures OccursAt(s, target, i + 1)
      {
        assert s[1..][i..i + |target|] == s[i + 1..i + 1 + |target|];
      }
      ReplacingAbsent(s[1..], target, replacement);
    }
  }

  /**
   * When the target occurs only as the prefix of `s`, replacing it with the
   * empty string yields exactly the rest of `s`.
   */
  lemma RemovingOnlyPrefix(s: string, target: string)
    requires |target| > 0 && target <= s
    requires OccursOnlyAtStart(s, target)
    ensures ReplacingOccurrences(s, target, "") == s[|target|..]
  {
    var rest := s[|target|..];
    forall j | OccursAt(rest, target, j)
      ensures OccursAt(s, target, |target| + j)
    {
      assert rest[j..j + |target|] == s[|target| + j..|target| + j + |target|];
    }
    ReplacingAbsent(rest, target, "");
  }
}
