/** The two pieces of JavaScript semantics the warning mapping leans on:
    `String.prototype.indexOf` and the truthiness of the number it returns. */
module JsString {

  /** `pat` occurs in `s` starting at position `i`. */
  predicate OccursAt(s: string, pat: string, i: int) {
    0 <= i && i + |pat| <= |s| && s[i..i + |pat|] == pat
  }

  /** `pat` occurs somewhere in `s` (the test the mapping was presumably meant to make). */
  predicate Contains(s: string, pat: string) {
    exists i | 0 <= i <= |s| :: OccursAt(s, pat, i)
  }

  /** `s.indexOf(pat, from)`: the first position at or after `from` where `pat`
      occurs, or -1 when there is none. */
  function IndexOfFrom(s: string, pat: string, from: nat): (r: int)
    requires from <= |s|
    ensures r == -1 || (from <= r && OccursAt(s, pat, r))
    ensures r == -1 ==> forall i :: from <= i ==> !OccursAt(s, pat, i)
    ensures r != -1 ==> forall i :: from <= i < r ==> !OccursAt(s, pat, i)
    decreases |s| - from
  {
    if from + |pat| > |s| then -1
    else if s[from..from + |pat|] == pat then from
    else IndexOfFrom(s, pat, from + 1)
  }

  /** `s.indexOf(pat)`. */
  function IndexOf(s: string, pat: string): (r: int)
    ensures r == -1 || 0 <= r <= |s| - |pat|
    ensures r == -1 <==> !Contains(s, pat)
    ensures r != -1 ==> OccursAt(s, pat, r)
    ensures r != -1 ==> forall i | 0 <= i < r :: !OccursAt(s, pat, i)
  {
    IndexOfFrom(s, pat, 0)
  }

  /** JavaScript truthiness of a number that is never NaN: every value but 0. */
  predicate Truthy(n: int) {
    n != 0
  }

  /** `indexOf` is falsy exactly when the pattern is a prefix of the string:
      "not found" (-1) is truthy. */
  lemma IndexOfFalsyIffPrefix(s: string, pat: string)
    ensures !Truthy(IndexOf(s, pat)) <==> pat <= s
  {
  }
}
