/**
 * The JavaScript string operations the merge steps use. A `char` is a Unicode
 * scalar value, where JavaScript works on UTF-16 code units; the two agree
 * inside the Basic Multilingual Plane.
 */
module Strings {

  function LowerChar(c: char): char
  {
    if 'A' <= c <= 'Z' then (c as int + 32) as char else c
  }

  /** `String.prototype.toLowerCase` on ASCII letters. */
  function ToLower(s: string): (r: string)
    ensures |r| == |s|
    ensures forall i :: 0 <= i < |s| ==> !('A' <= r[i] <= 'Z')
    ensures forall i :: 0 <= i < |s| && 'A' <= s[i] <= 'Z' ==> r[i] == (s[i] as int + 32) as char
    ensures forall i :: 0 <= i < |s| && !('A' <= s[i] <= 'Z') ==> r[i] == s[i]
  {
    seq(|s|, i requires 0 <= i < |s| => LowerChar(s[i]))
  }

  predicate StartsWith(s: string, pat: string)
  {
    |pat| <= |s| && s[..|pat|] == pat
  }

  /** `s.includes(pat)`. */
  predicate Contains(s: string, pat: string)
    decreases |s|
  {
    StartsWith(s, pat) || (s != [] && Contains(s[1..], pat))
  }

  /** `s.replace(pat, '')` with a string pattern: only the first occurrence goes. */
  function ReplaceFirst(s: string, pat: string): (r: string)
    ensures !Contains(s, pat) ==> r == s
    ensures Contains(s, pat) ==> |r| == |s| - |pat|
    ensures StartsWith(s, pat) ==> r == s[|pat|..]
    decreases |s|
  {
    if StartsWith(s, pat) then s[|pat|..]
    else if s == [] then []
    else [s[0]] + ReplaceFirst(s[1..], pat)
  }

  /** Where the first occurrence of the pattern starts. */
  function FirstIndex(s: string, pat: string): (k: nat)
    requires Contains(s, pat)
    ensures k <= |s| - |pat| && StartsWith(s[k..], pat)
    ensures forall j :: 0 <= j < k ==> !StartsWith(s[j..], pat)
    decreases |s|
  {
    if StartsWith(s, pat) then
      assert s[0..] == s; 0
    else
      var k := FirstIndex(s[1..], pat);
      assert s[k + 1..] == s[1..][k..];
      assert forall j :: 1 <= j < k + 1 ==> s[j..] == s[1..][j - 1..];
      assert s[0..] == s;
      k + 1
  }

  /** The result is the input with its first occurrence of the pattern cut out. */
  lemma {:induction false} ReplaceFirstCutsFirst(s: string, pat: string)
    requires Contains(s, pat)
    ensures ReplaceFirst(s, pat) == s[..FirstIndex(s, pat)] + s[FirstIndex(s, pat) + |pat|..]
    decreases |s|
  {
    if !StartsWith(s, pat) {
      var t := s[1..];
      ReplaceFirstCutsFirst(t, pat);
      var k := FirstIndex(t, pat);
      assert s[..k + 1] == [s[0]] + t[..k];
      assert s[k + 1 + |pat|..] == t[k + |pat|..];
    }
  }
}
