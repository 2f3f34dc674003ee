/** Python's `str.strip()` with no argument, on strings of Unicode code points. */
module Text {

  /** `str.isspace` of one code point: the characters CPython's `strip()` removes by default. */
  predicate IsSpace(c: char)
  {
    ('\t' <= c <= '\r') || ('\U{1C}' <= c <= ' ') || c == '\U{85}' || c == '\U{A0}'
    || c == '\U{1680}' || ('\U{2000}' <= c <= '\U{200A}') || c == '\U{2028}' || c == '\U{2029}'
    || c == '\U{202F}' || c == '\U{205F}' || c == '\U{3000}'
  }

  predicate AllSpace(s: string)
  {
    forall i :: 0 <= i < |s| ==> IsSpace(s[i])
  }

  /** Neither the first nor the last character is white space. */
  predicate Unpadded(s: string)
  {
    s == [] || (!IsSpace(s[0]) && !IsSpace(s[|s| - 1]))
  }

  /** `s` is some white space, then `r` starting at index `i`, then some white space. */
  predicate Surrounds(s: string, i: nat, r: string)
  {
    i + |r| <= |s| && s[i..i + |r|] == r
    && (forall j :: 0 <= j < i ==> IsSpace(s[j]))
    && (forall j :: i + |r| <= j < |s| ==> IsSpace(s[j]))
  }

  /** The number of white-space characters at the front of `s`. */
  function LeadingSpace(s: string): (n: nat)
    ensures n <= |s| && forall j :: 0 <= j < n ==> IsSpace(s[j])
    ensures n < |s| ==> !IsSpace(s[n])
  {
    if |s| > 0 && IsSpace(s[0]) then 1 + LeadingSpace(s[1..]) else 0
  }

  /** The number of white-space characters at the back of `s`. */
  function TrailingSpace(s: string): (n: nat)
    ensures n <= |s| && forall j :: |s| - n <= j < |s| ==> IsSpace(s[j])
    ensures n < |s| ==> !IsSpace(s[|s| - 1 - n])
  {
    if |s| > 0 && IsSpace(s[|s| - 1]) then 1 + TrailingSpace(s[..|s| - 1]) else 0
  }

  /** `s.strip()`: skip white space from the front, then from the back down to that point. */
  function Trim(s: string): (r: string)
    ensures Unpadded(r)
    ensures Surrounds(s, LeadingSpace(s), r)
  {
    var i := LeadingSpace(s);
    if i == |s| then "" else s[i..|s| - TrailingSpace(s)]
  }

  /** Python's truthiness test `not s.strip()`. */
  predicate IsBlank(s: string)
  {
    Trim(s) == ""
  }

  /** `Trim(s)` is the only unpadded string that white space alone surrounds in `s`. */
  lemma TrimUnique(s: string, i: nat, r: string)
    requires Surrounds(s, i, r) && Unpadded(r)
    ensures Trim(s) == r
  {
    if r != [] {
      assert s[i] == r[0];
      assert s[i + |r| - 1] == r[|r| - 1];
    }
  }

  lemma TrimIdempotent(s: string)
    ensures Trim(Trim(s)) == Trim(s)
  {
    var r := Trim(s);
    assert r[0..|r|] == r && r[..0] == [] && r[|r|..] == [];
    TrimUnique(r, 0, r);
  }

  /** A string strips to nothing exactly when every character of it is white space. */
  lemma BlankIffAllSpace(s: string)
    ensures IsBlank(s) <==> AllSpace(s)
  {
    if AllSpace(s) {
      TrimUnique(s, 0, "");
    }
  }

  /** Stripping keeps blankness: `s.strip().strip()` is empty iff `s.strip()` is. */
  lemma BlankIffTrimBlank(s: string)
    ensures IsBlank(Trim(s)) <==> IsBlank(s)
  {
    TrimIdempotent(s);
  }

  lemma AllSpaceConcat(a: string, b: string)
    ensures AllSpace(a + b) <==> AllSpace(a) && AllSpace(b)
  {
    if AllSpace(a + b) {
      forall i | 0 <= i < |a| ensures IsSpace(a[i]) { assert (a + b)[i] == a[i]; }
      forall i | 0 <= i < |b| ensures IsSpace(b[i]) { assert (a + b)[|a| + i] == b[i]; }
    }
  }
}
