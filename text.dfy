/**
  ASCII case mapping, the part of Python's `str.upper` and `str.lower` the
  model keeps. Characters outside 'a'..'z' and 'A'..'Z' are left as they are.
 */
module Text {

  predicate IsAsciiUpper(c: char) { 'A' <= c <= 'Z' }

  predicate IsAsciiLower(c: char) { 'a' <= c <= 'z' }

  function UpperChar(c: char): (u: char)
    ensures !IsAsciiLower(u)
    ensures IsAsciiLower(c) ==> IsAsciiUpper(u)
    ensures !IsAsciiLower(c) ==> u == c
  {
    if IsAsciiLower(c) then (c as int - 32) as char else c
  }

  function LowerChar(c: char): (l: char)
    ensures !IsAsciiUpper(l)
    ensures IsAsciiUpper(c) ==> IsAsciiLower(l)
    ensures !IsAsciiUpper(c) ==> l == c
  {
    if IsAsciiUpper(c) then (c as int + 32) as char else c
  }

  /** A character and its upper-cased form agree once lower-cased. */
  lemma LowerUpperChar(c: char)
    ensures LowerChar(UpperChar(c)) == LowerChar(c)
  {
  }

  /** `s.upper()` restricted to ASCII: every character is mapped on its own. */
  function Upper(s: string): (r: string)
    ensures |r| == |s|
    ensures forall i :: 0 <= i < |s| ==> r[i] == UpperChar(s[i])
  {
    if s == [] then [] else [UpperChar(s[0])] + Upper(s[1..])
  }

  /** `s.lower()` restricted to ASCII: every character is mapped on its own. */
  function Lower(s: string): (r: string)
    ensures |r| == |s|
    ensures forall i :: 0 <= i < |s| ==> r[i] == LowerChar(s[i])
  {
    if s == [] then [] else [LowerChar(s[0])] + Lower(s[1..])
  }

  /** No ASCII lower-case letter occurs in `s`. */
  predicate NoLower(s: string)
  {
    forall i :: 0 <= i < |s| ==> !IsAsciiLower(s[i])
  }

  /** No ASCII upper-case letter occurs in `s`. */
  predicate NoUpper(s: string)
  {
    forall i :: 0 <= i < |s| ==> !IsAsciiUpper(s[i])
  }

  /** Two strings that differ at most in the case of ASCII letters. */
  predicate SameIgnoringCase(a: string, b: string)
  {
    Lower(a) == Lower(b)
  }

  lemma UpperHasNoLower(s: string)
    ensures NoLower(Upper(s))
  {
  }

  lemma LowerHasNoUpper(s: string)
    ensures NoUpper(Lower(s))
  {
  }

  /** A string with no lower-case letter is its own upper-cased form. */
  lemma UpperFixesNoLower(s: string)
    requires NoLower(s)
    ensures Upper(s) == s
  {
  }

  /** A string with no upper-case letter is its own lower-cased form. */
  lemma LowerFixesNoUpper(s: string)
    requires NoUpper(s)
    ensures Lower(s) == s
  {
  }

  /** Upper-casing never changes a string beyond the case of its letters. */
  lemma UpperSameIgnoringCase(s: string)
    ensures SameIgnoringCase(Upper(s), s)
  {
    forall i | 0 <= i < |s|
      ensures Lower(Upper(s))[i] == Lower(s)[i]
    {
      LowerUpperChar(s[i]);
    }
  }

  /** Lower-casing never changes a string beyond the case of its letters. */
  lemma LowerSameIgnoringCase(s: string)
    ensures SameIgnoringCase(Lower(s), s)
  {
    LowerHasNoUpper(s);
    LowerFixesNoUpper(Lower(s));
  }

  /**
    A string without upper-case letters that agrees with `s` up to case is
    exactly `Lower(s)`: the normal form is unique.
   */
  lemma NoUpperIsLower(t: string, s: string)
    requires NoUpper(t) && SameIgnoringCase(t, s)
    ensures t == Lower(s)
  {
    LowerFixesNoUpper(t);
  }

  /** Likewise a string without lower-case letters that agrees with `s` up to case is `Upper(s)`. */
  lemma NoLowerIsUpper(t: string, s: string)
    requires NoLower(t) && SameIgnoringCase(t, s)
    ensures t == Upper(s)
  {
    assert |t| == |s| by {
      assert |Lower(t)| == |Lower(s)|;
    }
    forall i | 0 <= i < |s|
      ensures t[i] == Upper(s)[i]
    {
      assert LowerChar(t[i]) == LowerChar(s[i]) by {
        assert Lower(t)[i] == Lower(s)[i];
      }
    }
  }
}
