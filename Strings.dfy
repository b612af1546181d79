/**
 * The string primitives the core relies on (`toLowerCase`, `startsWith` and
 * `includes`) on strings of characters, and a suffix test used to state what a
 * trailing-slash regular expression matches.
 */
module Strings {

  /** Lower-cases one character; only the ASCII letters A-Z are mapped. */
  function LowerChar(c: char): (d: char)
    ensures !('A' <= d <= 'Z')
    ensures ('a' <= d <= 'z') <==> ('a' <= c <= 'z' || 'A' <= c <= 'Z')
    ensures !('A' <= c <= 'Z') ==> d == c
    ensures 'A' <= c <= 'Z' ==> d == "abcdefghijklmnopqrstuvwxyz"[c as int - 'A' as int]
  {
    if 'A' <= c <= 'Z' then (c as int + 32) as char else c
  }

  /** `s.toLowerCase()`, character by character. */
  function Lower(s: string): (r: string)
    ensures |r| == |s|
    ensures forall i :: 0 <= i < |s| ==> r[i] == LowerChar(s[i])
  {
    if s == [] then [] else [LowerChar(s[0])] + Lower(s[1..])
  }

  /**
   * `a` and `b` agree except that an ASCII letter may appear in upper case in
   * one and in lower case in the other.
   */
  ghost predicate EqualIgnoringCase(a: string, b: string) {
    |a| == |b| &&
    forall i :: 0 <= i < |a| ==> a[i] == b[i] || SameLetter(a[i], b[i]) || SameLetter(b[i], a[i])
  }

  /** `u` is an upper-case ASCII letter and `l` the same letter in lower case. */
  ghost predicate SameLetter(u: char, l: char) {
    'A' <= u <= 'Z' && l as int == u as int + 32
  }

  /** Strings that differ only in the case of ASCII letters lower-case alike. */
  lemma LowerEqualIgnoringCase(a: string, b: string)
    requires EqualIgnoringCase(a, b)
    ensures Lower(a) == Lower(b)
  {
    forall i | 0 <= i < |a| ensures LowerChar(a[i]) == LowerChar(b[i]) {
      if SameLetter(a[i], b[i]) || SameLetter(b[i], a[i]) {
        assert 'a' <= LowerChar(a[i]) <= 'z' && 'a' <= LowerChar(b[i]) <= 'z';
      }
    }
  }

  /** `s.startsWith(p)`. */
  predicate StartsWith(s: string, p: string)
    ensures StartsWith(s, p) <==> OccursAt(s, p, 0)
  {
    |p| <= |s| && s[..|p|] == p
  }

  /** `s` ends with `q`; used to state what the `$` anchor of a regular expression matches. */
  predicate EndsWith(s: string, q: string) {
    |q| <= |s| && s[|s| - |q|..] == q
  }

  /** `s.includes(t)`: some suffix of `s` starts with `t`. */
  predicate Includes(s: string, t: string)
    ensures Includes(s, t) ==> |t| <= |s|
    ensures t == "" ==> Includes(s, t)
    decreases |s|
  {
    StartsWith(s, t) || (s != [] && Includes(s[1..], t))
  }

  /** Reference definition: `t` occurs in `s` starting at index `i`. */
  ghost predicate OccursAt(s: string, t: string, i: int) {
    0 <= i && i + |t| <= |s| && s[i..i + |t|] == t
  }

  /** `Includes` finds exactly the substrings the index-based definition admits. */
  lemma {:induction false} IncludesIffOccurs(s: string, t: string)
    ensures Includes(s, t) <==> exists i :: OccursAt(s, t, i)
    decreases |s|
  {
    if StartsWith(s, t) {
      assert OccursAt(s, t, 0);
    } else if s == [] {
      assert forall i :: !OccursAt(s, t, i);
    } else {
      IncludesIffOccurs(s[1..], t);
      forall i | OccursAt(s[1..], t, i) ensures OccursAt(s, t, i + 1) {
        assert s[i + 1..i + 1 + |t|] == s[1..][i..i + |t|];
      }
      forall i | OccursAt(s, t, i) ensures OccursAt(s[1..], t, i - 1) {
        assert i != 0;
        assert s[i..i + |t|] == s[1..][i - 1..i - 1 + |t|];
      }
    }
  }
}
