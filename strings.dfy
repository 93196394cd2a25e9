/** Python's `str.replace(old, new)`, used for key normalisation and for the default client name. */
module Strings {

  /** Replaces every occurrence of `pat` in `s`, scanning left to right and never overlapping. */
  function ReplaceAll(s: string, pat: string, rep: string): string
    requires pat != []
    decreases |s|
  {
    if |s| < |pat| then s
    else if s[..|pat|] == pat then rep + ReplaceAll(s[|pat|..], pat, rep)
    else [s[0]] + ReplaceAll(s[1..], pat, rep)
  }

  /** Replacing one character by another keeps the length and rewrites exactly the matching positions. */
  lemma {:induction false} ReplaceCharAt(s: string, c: char, d: char)
    ensures |ReplaceAll(s, [c], [d])| == |s|
    ensures forall i :: 0 <= i < |s| ==> ReplaceAll(s, [c], [d])[i] == (if s[i] == c then d else s[i])
    decreases |s|
  {
    if |s| > 0 {
      ReplaceCharAt(s[1..], c, d);
      var tail := ReplaceAll(s[1..], [c], [d]);
      assert (s[..1] == [c]) == (s[0] == c);
      assert ReplaceAll(s, [c], [d]) == [if s[0] == c then d else s[0]] + tail;
    }
  }

  /** A string in which the character does not occur is left as it is. */
  lemma ReplaceAbsentChar(s: string, c: char, d: char)
    requires c !in s
    ensures ReplaceAll(s, [c], [d]) == s
  {
    ReplaceCharAt(s, c, d);
  }
}
