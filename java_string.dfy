/**
 * The two java.lang.String operations the core relies on: isBlank(), with
 * Character.isWhitespace's full set, and toUpperCase(), over the ASCII letters.
 */
module JavaString {

  /**
   * Character.isWhitespace: the Unicode space, line and paragraph separators
   * except the non-breaking ones (U+00A0, U+2007, U+202F), the tab/line/form
   * controls and the four information separators.
   */
  predicate IsWhitespace(c: char) {
    || c == ' ' || ('\t' <= c <= '\r') || ('\U{1C}' <= c <= '\U{1F}')
    || c == '\U{1680}' || ('\U{2000}' <= c <= '\U{2006}') || ('\U{2008}' <= c <= '\U{200A}')
    || c == '\U{2028}' || c == '\U{2029}' || c == '\U{205F}' || c == '\U{3000}'
  }

  /** String.isBlank: empty or only whitespace. */
  predicate IsBlank(s: string) {
    forall i :: 0 <= i < |s| ==> IsWhitespace(s[i])
  }

  /** Character.toUpperCase on the ASCII letters; every other character is kept. */
  function UpperChar(c: char): (u: char)
    ensures 'a' <= c <= 'z' ==> u as int == c as int - 32
    ensures !('a' <= c <= 'z') ==> u == c
    ensures !('a' <= u <= 'z')
  {
    if 'a' <= c <= 'z' then (c as int - 32) as char else c
  }

  /** String.toUpperCase: maps every character independently and keeps the length. */
  function ToUpperCase(s: string): (r: string)
    ensures |r| == |s|
    ensures forall i :: 0 <= i < |s| ==> r[i] == UpperChar(s[i])
  {
    if s == [] then [] else [UpperChar(s[0])] + ToUpperCase(s[1..])
  }

  /** Upper-casing twice is upper-casing once. */
  lemma ToUpperCaseIdempotent(s: string)
    ensures ToUpperCase(ToUpperCase(s)) == ToUpperCase(s)
  {
    var u := ToUpperCase(s);
    assert forall i :: 0 <= i < |u| ==> UpperChar(u[i]) == u[i];
  }

  /** A string without lower-case letters is its own upper-case form. */
  lemma ToUpperCaseFixesUpper(s: string)
    requires forall i :: 0 <= i < |s| ==> !('a' <= s[i] <= 'z')
    ensures ToUpperCase(s) == s
  {
  }

  /** Upper-casing does not change whether a string is blank. */
  lemma ToUpperCaseKeepsBlank(s: string)
    ensures IsBlank(ToUpperCase(s)) <==> IsBlank(s)
  {
    var u := ToUpperCase(s);
    assert forall i :: 0 <= i < |s| ==> (IsWhitespace(u[i]) <==> IsWhitespace(s[i]));
  }
}
