/**
 * White-space trimming as Go's `strings.TrimSpace` does it, and the notion of a
 * configuration field being "present" that the plugin builds on it.
 */
module Text {

  /** The characters Go's `unicode.IsSpace` reports as white space. */
  predicate IsSpace(c: char) {
    || c == ' ' || c == '\t' || c == '\n' || c == '\r'
    || c == '\U{000B}' || c == '\U{000C}' || c == '\U{0085}' || c == '\U{00A0}'
    || c == '\U{1680}' || ('\U{2000}' <= c <= '\U{200A}')
    || c == '\U{2028}' || c == '\U{2029}' || c == '\U{202F}' || c == '\U{205F}' || c == '\U{3000}'
  }

  /** `s` holds nothing but white space (the empty string included). */
  predicate Blank(s: string) {
    forall i :: 0 <= i < |s| ==> IsSpace(s[i])
  }

  /** Length of the maximal run of white space at the start of `s`. */
  function LeadingSpaces(s: string): (k: nat)
    ensures k <= |s|
    ensures forall i :: 0 <= i < k ==> IsSpace(s[i])
    ensures k < |s| ==> !IsSpace(s[k])
  {
    if |s| > 0 && IsSpace(s[0]) then 1 + LeadingSpaces(s[1..]) else 0
  }

  /** Length of the maximal run of white space at the end of `s`. */
  function TrailingSpaces(s: string): (k: nat)
    ensures k <= |s|
    ensures forall i :: |s| - k <= i < |s| ==> IsSpace(s[i])
    ensures k < |s| ==> !IsSpace(s[|s| - 1 - k])
  {
    if |s| > 0 && IsSpace(s[|s| - 1]) then 1 + TrailingSpaces(s[..|s| - 1]) else 0
  }

  /** `s` without its leading and trailing white space (trim left, then trim right). */
  function TrimSpace(s: string): (r: string)
    ensures |r| <= |s|
    ensures |r| == 0 <==> Blank(s)
    ensures |r| > 0 ==> !IsSpace(r[0]) && !IsSpace(r[|r| - 1])
    ensures |r| > 0 ==>
      var lo := LeadingSpaces(s);
      && lo + |r| <= |s| && r == s[lo..lo + |r|]
      && forall i :: lo + |r| <= i < |s| ==> IsSpace(s[i])
  {
    var lo := LeadingSpaces(s);
    var t := s[lo..];
    var r := t[..|t| - TrailingSpaces(t)];
    r
  }

  /** A field counts as present when it holds some character that is not white space. */
  predicate Present(s: string) {
    !Blank(s)
  }

  /** Present is Go's test `len(strings.TrimSpace(s)) > 0`. */
  lemma PresentIffTrimmedNonEmpty(s: string)
    ensures Present(s) <==> |TrimSpace(s)| > 0
  {
  }
}
