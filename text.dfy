/** The part of java.lang.String that the basket's name check relies on:
    `trim()` drops every leading and trailing character whose code is at
    most U+0020 (space and the control characters), and `isEmpty()`. */
module Text {

  /** Every character of `s` is one that `trim()` would drop. */
  predicate IsBlank(s: string) {
    forall i :: 0 <= i < |s| ==> s[i] <= ' '
  }

  /** Drops the leading characters `<= ' '`; what is left is a suffix of `s`
      that starts with a kept character (or is empty). */
  function TrimStart(s: string): (r: string)
    ensures |r| <= |s| && r == s[|s| - |r|..]
    ensures r == [] || r[0] > ' '
    ensures forall i :: 0 <= i < |s| - |r| ==> s[i] <= ' '
  {
    if |s| > 0 && s[0] <= ' ' then TrimStart(s[1..]) else s
  }

  /** Drops the trailing characters `<= ' '`; what is left is a prefix of `s`
      that ends with a kept character (or is empty). */
  function TrimEnd(s: string): (r: string)
    ensures |r| <= |s| && r == s[..|r|]
    ensures r == [] || r[|r| - 1] > ' '
    ensures forall i :: |r| <= i < |s| ==> s[i] <= ' '
  {
    if |s| > 0 && s[|s| - 1] <= ' ' then TrimEnd(s[..|s| - 1]) else s
  }

  /** `r` is the slice of `s` starting at `a`, and every character of `s`
      before or after that slice is at most a space. */
  predicate TrimmedAt(s: string, r: string, a: int) {
    0 <= a <= |s| - |r| && r == s[a..a + |r|] &&
    (forall i :: 0 <= i < a ==> s[i] <= ' ') &&
    (forall i :: a + |r| <= i < |s| ==> s[i] <= ' ')
  }

  /** Java's `String.trim()`: the middle of `s` left once the characters at
      most a space are dropped from both ends; it is empty or starts and ends
      with a kept character. */
  function Trim(s: string): (r: string)
    ensures TrimmedAt(s, r, |s| - |TrimStart(s)|)
    ensures r == [] || r[0] > ' '
    ensures r == [] || r[|r| - 1] > ' '
  {
    var t := TrimStart(s);
    var r := TrimEnd(t);
    MiddleSlice(s, t, r, |s| - |t|);
    r
  }

  /** Dropping blanks from the front of `s` and then from the back of what
      is left leaves a middle slice of `s` with only blanks around it. */
  lemma MiddleSlice(s: string, t: string, r: string, a: nat)
    requires a <= |s| && t == s[a..] && (forall i :: 0 <= i < a ==> s[i] <= ' ')
    requires t == [] || t[0] > ' '
    requires |r| <= |t| && r == t[..|r|] && (forall i :: |r| <= i < |t| ==> t[i] <= ' ')
    ensures TrimmedAt(s, r, a)
    ensures r == [] || r[0] > ' '
  {
    assert forall i :: a + |r| <= i < |s| ==> s[i] == t[i - a];
  }

  /** `s.trim().isEmpty()` holds exactly when every character of `s` is
      at most a space. */
  lemma TrimEmptyIffBlank(s: string)
    ensures Trim(s) == [] <==> IsBlank(s)
  {
    var t := TrimStart(s);
    if Trim(s) == [] {
      assert t == [];
    }
  }
}
