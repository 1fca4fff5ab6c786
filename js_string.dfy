/** JavaScript's `String.prototype.trim`, on strings of Unicode characters.

    `trim` removes every leading and trailing character that ECMAScript
    classifies as WhiteSpace or LineTerminator, and nothing else. All of
    these characters lie in the Basic Multilingual Plane, so removing them
    from a string of UTF-16 code units and from a string of Unicode
    characters gives the same text.
 */
module JsString {

  /** ECMAScript WhiteSpace (TAB, VT, FF, ZWNBSP and every character of
      Unicode category Zs) together with LineTerminator (LF, CR, LS, PS).
      Every one of them lies in the Basic Multilingual Plane. */
  function IsWhiteSpace(c: char): (b: bool)
    ensures b ==> c < '\U{10000}'
  {
    // WhiteSpace: explicit code points
    || c == '\t' || c == '\U{000B}' || c == '\U{000C}' || c == '\U{FEFF}'
    // WhiteSpace: category Zs
    || c == ' ' || c == '\U{00A0}' || c == '\U{1680}'
    || ('\U{2000}' <= c <= '\U{200A}')
    || c == '\U{202F}' || c == '\U{205F}' || c == '\U{3000}'
    // LineTerminator
    || c == '\n' || c == '\r' || c == '\U{2028}' || c == '\U{2029}'
  }

  /** Line breaks and the no-break spaces count; NEL (U+0085), the Mongolian
      vowel separator (U+180E) and the zero-width space (U+200B) do not. */
  lemma IsWhiteSpaceExamples()
    ensures IsWhiteSpace('\n') && IsWhiteSpace('\r') && IsWhiteSpace('\U{00A0}') && IsWhiteSpace('\U{3000}')
    ensures !IsWhiteSpace('\U{0085}') && !IsWhiteSpace('\U{180E}') && !IsWhiteSpace('\U{200B}')
  {
  }

  predicate AllWhiteSpace(s: string) {
    forall i :: 0 <= i < |s| ==> IsWhiteSpace(s[i])
  }

  lemma AllWhiteSpaceConcat(a: string, b: string)
    requires AllWhiteSpace(a) && AllWhiteSpace(b)
    ensures AllWhiteSpace(a + b)
  {
  }

  /** A string with no white space at either end (the empty string included). */
  predicate Trimmed(s: string) {
    s == [] || (!IsWhiteSpace(s[0]) && !IsWhiteSpace(s[|s| - 1]))
  }

  /** The number of white-space characters `s` starts with. */
  function LeadingWhiteSpace(s: string): (n: nat)
    ensures n <= |s|
    ensures AllWhiteSpace(s[..n])
    ensures n == |s| || !IsWhiteSpace(s[n])
  {
    if |s| > 0 && IsWhiteSpace(s[0]) then 1 + LeadingWhiteSpace(s[1..]) else 0
  }

  /** The number of white-space characters `s` ends with. */
  function TrailingWhiteSpace(s: string): (n: nat)
    ensures n <= |s|
    ensures AllWhiteSpace(s[|s| - n..])
    ensures n == |s| || !IsWhiteSpace(s[|s| - n - 1])
  {
    if |s| > 0 && IsWhiteSpace(s[|s| - 1]) then 1 + TrailingWhiteSpace(s[..|s| - 1]) else 0
  }

  /** `s.trim()` */
  function Trim(s: string): (r: string)
    ensures Trimmed(r)
    ensures |r| <= |s|
  {
    var t := s[LeadingWhiteSpace(s)..];
    var r := t[..|t| - TrailingWhiteSpace(t)];
    assert r != [] ==> r[0] == t[0];
    r
  }

  /** Only a string of white space trims to nothing. */
  lemma TrimEmpty(s: string)
    ensures Trim(s) == [] <==> AllWhiteSpace(s)
  {
    var i := LeadingWhiteSpace(s);
    var t := s[i..];
    if Trim(s) == [] {
      assert TrailingWhiteSpace(t) == |t|;
      assert t[|t| - |t|..] == t;
      assert s == s[..i] + t;
      AllWhiteSpaceConcat(s[..i], t);
    } else {
      assert !IsWhiteSpace(s[i]);
    }
  }

  /** White space in front of text that does not start with white space is
      exactly what LeadingWhiteSpace counts. */
  lemma {:induction false} LeadingWhiteSpaceOf(ws: string, t: string)
    requires AllWhiteSpace(ws)
    requires t == [] || !IsWhiteSpace(t[0])
    ensures LeadingWhiteSpace(ws + t) == |ws|
  {
    if ws != [] {
      assert (ws + t)[1..] == ws[1..] + t;
      LeadingWhiteSpaceOf(ws[1..], t);
    } else {
      assert ws + t == t;
    }
  }

  /** White space behind text that does not end with white space is exactly
      what TrailingWhiteSpace counts. */
  lemma {:induction false} TrailingWhiteSpaceOf(t: string, ws: string)
    requires AllWhiteSpace(ws)
    requires t == [] || !IsWhiteSpace(t[|t| - 1])
    ensures TrailingWhiteSpace(t + ws) == |ws|
  {
    if ws != [] {
      var n := |ws| - 1;
      assert (t + ws)[..|t + ws| - 1] == t + ws[..n];
      TrailingWhiteSpaceOf(t, ws[..n]);
    } else {
      assert t + ws == t;
    }
  }

  /** Trim is determined by the decomposition of its input into white space,
      a trimmed middle, and white space: it returns the middle. */
  lemma TrimUnique(ws1: string, m: string, ws2: string)
    requires AllWhiteSpace(ws1) && AllWhiteSpace(ws2)
    requires Trimmed(m)
    ensures Trim(ws1 + m + ws2) == m
  {
    var s := ws1 + m + ws2;
    if m == [] {
      assert s == (ws1 + ws2) + [];
      LeadingWhiteSpaceOf(ws1 + ws2, []);
    } else {
      assert s == ws1 + (m + ws2);
      LeadingWhiteSpaceOf(ws1, m + ws2);
      assert s[|ws1|..] == m + ws2;
      TrailingWhiteSpaceOf(m, ws2);
    }
  }

  /** Every string is its trimmed text with white space on either side. */
  lemma TrimSplits(s: string) returns (lead: string, trail: string)
    ensures AllWhiteSpace(lead) && AllWhiteSpace(trail)
    ensures s == lead + Trim(s) + trail
  {
    var i := LeadingWhiteSpace(s);
    var t := s[i..];
    var j := TrailingWhiteSpace(t);
    lead, trail := s[..i], t[|t| - j..];
    SliceInThree(s, i, j);
  }

  lemma SliceInThree(s: string, i: nat, j: nat)
    requires i <= |s| && j <= |s[i..]|
    ensures s == s[..i] + s[i..][..|s[i..]| - j] + s[i..][|s[i..]| - j..]
  {
    var t := s[i..];
    var k := |t| - j;
    assert t == t[..k] + t[k..];
    assert s == s[..i] + t;
  }

  /** White space around the input does not change the result of `trim`. */
  lemma TrimIgnoresSurroundingWhiteSpace(ws1: string, s: string, ws2: string)
    requires AllWhiteSpace(ws1) && AllWhiteSpace(ws2)
    ensures Trim(ws1 + s + ws2) == Trim(s)
  {
    var lead, trail := TrimSplits(s);
    var m := Trim(s);
    AllWhiteSpaceConcat(ws1, lead);
    AllWhiteSpaceConcat(trail, ws2);
    ConcatRegroup(ws1, lead, m, trail, ws2);
    TrimUnique(ws1 + lead, m, trail + ws2);
  }

  lemma ConcatRegroup(a: string, b: string, c: string, d: string, e: string)
    ensures a + (b + c + d) + e == (a + b) + c + (d + e)
  {
  }

  /** A string with no white space at either end is its own trimmed text. */
  lemma TrimFixesTrimmed(m: string)
    requires Trimmed(m)
    ensures Trim(m) == m
  {
    assert [] + m + [] == m;
    TrimUnique([], m, []);
  }

  /** Trimming twice is trimming once. */
  lemma TrimIdempotent(s: string)
    ensures Trim(Trim(s)) == Trim(s)
  {
    TrimFixesTrimmed(Trim(s));
  }

  /** Text that starts, after leading white space, with a phrase whose first
      and last characters are not white space keeps that phrase as a prefix
      once trimmed. */
  lemma TrimKeepsPhrase(s: string, k: nat, p: string)
    requires k <= |s| && AllWhiteSpace(s[..k])
    requires p <= s[k..]
    requires p != [] && Trimmed(p)
    ensures p <= Trim(s)
  {
    LeadingWhiteSpaceOf(s[..k], s[k..]);
    assert s[..k] + s[k..] == s;
  }
}
