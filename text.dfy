/**
 * The string trimming the search handler uses to decide whether a query is
 * blank. Whitespace is the set the ECMAScript `String.prototype.trim` removes:
 * the WhiteSpace characters (tab, vertical tab, form feed, space, no-break
 * space, the byte-order mark and every space separator) and the line terminators.
 */
module Text {

  predicate IsWhitespace(c: char) {
    c == '\t' || c == '\n' || c == '\U{000B}' || c == '\U{000C}' || c == '\r' || c == ' '
    || c == '\U{00A0}' || c == '\U{1680}' || ('\U{2000}' <= c <= '\U{200A}')
    || c == '\U{2028}' || c == '\U{2029}' || c == '\U{202F}' || c == '\U{205F}'
    || c == '\U{3000}' || c == '\U{FEFF}'
  }

  /** How many whitespace characters `s` starts with. */
  function LeadingWhitespace(s: string): (n: nat)
    ensures n <= |s|
    ensures forall i :: 0 <= i < n ==> IsWhitespace(s[i])
    ensures n < |s| ==> !IsWhitespace(s[n])
  {
    if s != [] && IsWhitespace(s[0]) then 1 + LeadingWhitespace(s[1..]) else 0
  }

  /** How many whitespace characters `s` ends with. */
  function TrailingWhitespace(s: string): (n: nat)
    ensures n <= |s|
    ensures forall i :: |s| - n <= i < |s| ==> IsWhitespace(s[i])
    ensures n < |s| ==> !IsWhitespace(s[|s| - 1 - n])
  {
    if s != [] && IsWhitespace(s[|s| - 1]) then 1 + TrailingWhitespace(s[..|s| - 1]) else 0
  }

  /** `r` is the part of `s` from index `k` on, and everything of `s` around it is whitespace. */
  predicate PaddedAt(r: string, s: string, k: nat) {
    k + |r| <= |s| && s[k..k + |r|] == r
    && (forall i :: 0 <= i < k ==> IsWhitespace(s[i]))
    && (forall i :: k + |r| <= i < |s| ==> IsWhitespace(s[i]))
  }

  /** The string's `trim()`: the part of `s` left when the whitespace at both ends is cut off. */
  function Trim(s: string): (r: string)
    ensures exists k :: PaddedAt(r, s, k)
    ensures r == [] || (!IsWhitespace(r[0]) && !IsWhitespace(r[|r| - 1]))
  {
    var lead := LeadingWhitespace(s);
    var trail := TrailingWhitespace(s[lead..]);
    assert forall i :: lead + (|s| - lead - trail) <= i < |s| ==> s[i] == s[lead..][i - lead];
    assert PaddedAt(s[lead..|s| - trail], s, lead);
    s[lead..|s| - trail]
  }

  /** Every character of `s` is whitespace; true of the empty string. */
  predicate IsBlank(s: string) {
    forall i :: 0 <= i < |s| ==> IsWhitespace(s[i])
  }

  /** Trimming leaves nothing (`!s.trim()` in JavaScript) exactly when `s` is blank. */
  lemma TrimEmptyIffBlank(s: string)
    ensures Trim(s) == [] <==> IsBlank(s)
  {
    var lead := LeadingWhitespace(s);
    if lead < |s| {
      assert !IsWhitespace(s[lead]);
      assert s[lead..][0] == s[lead];
    }
  }
}
