/**
 * `String.prototype.trim` as the settings holder uses it: strip the
 * ECMAScript white space and line terminator characters from both ends.
 */
module Strings {

  /** The characters ECMAScript's WhiteSpace and LineTerminator productions match. */
  predicate IsWhitespace(c: char)
  {
    c == '\t' || c == '\n' || c == '\U{000B}' || c == '\U{000C}' || c == '\r' || c == ' '
    || c == '\U{00A0}' || c == '\U{1680}' || ('\U{2000}' <= c <= '\U{200A}')
    || c == '\U{2028}' || c == '\U{2029}' || c == '\U{202F}' || c == '\U{205F}'
    || c == '\U{3000}' || c == '\U{FEFF}'
  }

  predicate AllWhitespace(s: string)
  {
    forall i :: 0 <= i < |s| ==> IsWhitespace(s[i])
  }

  /** The number of white space characters `s` starts with. */
  function LeadingBlanks(s: string): (n: nat)
    ensures n <= |s|
    ensures forall i :: 0 <= i < n ==> IsWhitespace(s[i])
    ensures n < |s| ==> !IsWhitespace(s[n])
    decreases |s|
  {
    if s != [] && IsWhitespace(s[0]) then 1 + LeadingBlanks(s[1..]) else 0
  }

  /** Where the trailing white space of `s` begins. */
  function TrailingStart(s: string): (e: nat)
    ensures e <= |s|
    ensures forall i :: e <= i < |s| ==> IsWhitespace(s[i])
    ensures 0 < e ==> !IsWhitespace(s[e - 1])
    decreases |s|
  {
    if s != [] && IsWhitespace(s[|s| - 1]) then TrailingStart(s[..|s| - 1]) else |s|
  }

  /** A string `trim` leaves alone: empty, or starting and ending with a non-blank. */
  predicate IsTrimmed(s: string)
  {
    s == [] || (!IsWhitespace(s[0]) && !IsWhitespace(s[|s| - 1]))
  }

  /** `trim`: what lies between the leading and the trailing white space. */
  function Trim(s: string): (r: string)
    ensures |r| <= |s|
    ensures IsTrimmed(r)
  {
    var b := LeadingBlanks(s);
    if b == |s| then []
    else
      var e := TrailingStart(s);
      assert b < e;
      s[b..e]
  }

  /**
   * `trim` removes exactly white space from the front and the back: the input
   * is the white space before the result, the result, and the white space
   * after it.
   */
  lemma TrimCutsOnlyBlanks(s: string)
    ensures var b := LeadingBlanks(s); var t := Trim(s);
      && b + |t| <= |s|
      && s == s[..b] + t + s[b + |t|..]
      && AllWhitespace(s[..b]) && AllWhitespace(s[b + |t|..])
  {
    var b := LeadingBlanks(s);
    assert AllWhitespace(s[..b]);
    if b < |s| {
      var e := TrailingStart(s);
      assert b < e && Trim(s) == s[b..e];
      assert s == s[..b] + s[b..e] + s[e..];
      assert AllWhitespace(s[e..]);
    }
  }

  /** Trimming yields the empty string exactly when the input is all white space. */
  lemma TrimEmptyIff(s: string)
    ensures Trim(s) == [] <==> AllWhitespace(s)
  {
  }

  /** The result of trimming is trimmed, and trimming changes exactly the strings that are not. */
  lemma TrimmedIff(s: string)
    ensures IsTrimmed(Trim(s))
    ensures Trim(s) == s <==> IsTrimmed(s)
  {
  }

  /** Trimming twice is trimming once. */
  lemma TrimIdempotent(s: string)
    ensures Trim(Trim(s)) == Trim(s)
  {
  }
}
