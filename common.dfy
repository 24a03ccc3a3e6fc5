/** Values shared by the server and client models: an optional value (a field that
    JavaScript leaves `undefined`), JavaScript's `||` on strings, and substring
    occurrence. */
module Common {

  datatype Option<+T> = None | Some(value: T)

  /** JavaScript `a || b` on two strings: the empty string is the only falsy string,
      so `a` is kept unless it is empty. */
  function JsOr(a: string, b: string): (r: string)
    ensures a != "" ==> r == a
    ensures a == "" ==> r == b
    ensures r == "" <==> a == "" && b == ""
  {
    if a != "" then a else b
  }

  /** `pat` occurs in `s` starting at index `i`. */
  predicate OccursAt(s: string, pat: string, i: nat)
  {
    i + |pat| <= |s| && s[i..i + |pat|] == pat
  }

  /** `pat` occurs somewhere in `s`. */
  predicate Contains(s: string, pat: string)
  {
    exists i: nat | i <= |s| :: OccursAt(s, pat, i)
  }

  /** `s` ends with `pat`. */
  predicate EndsWith(s: string, pat: string)
  {
    |pat| <= |s| && s[|s| - |pat|..] == pat
  }

  /** The middle part of a concatenation occurs right after the first part. */
  lemma OccursInMiddle(a: string, b: string, c: string)
    ensures OccursAt(a + b + c, b, |a|)
  {
    assert (a + b + c)[|a|..|a| + |b|] == b;
  }
}
