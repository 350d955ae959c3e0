/** Whitespace trimming as JavaScript's `String.prototype.trim` does it: the login
    form treats a field as missing when its trimmed value is the empty string. */
module Text {

  /** The code points ECMAScript classes as WhiteSpace or LineTerminator, which are
      exactly those `trim` strips: tab, line tabulation, form feed, space, no-break
      space, the byte order mark, the Unicode space separators (category Zs), and
      line feed, carriage return, line separator and paragraph separator. */
  predicate IsWhitespace(c: char) {
    || c == '\t' || c == '\n' || c == '\U{000B}' || c == '\U{000C}' || c == '\r'
    || c == ' ' || c == '\U{00A0}' || c == '\U{1680}'
    || ('\U{2000}' <= c <= '\U{200A}')
    || c == '\U{2028}' || c == '\U{2029}' || c == '\U{202F}' || c == '\U{205F}'
    || c == '\U{3000}' || c == '\U{FEFF}'
  }

  /** Every character of `s` is whitespace (the empty string included). */
  predicate IsBlank(s: string) {
    forall i :: 0 <= i < |s| ==> IsWhitespace(s[i])
  }

  /** The length of the longest all-whitespace prefix of `s`. */
  function LeadingWhitespace(s: string): (n: nat)
    ensures n <= |s|
    ensures IsBlank(s[..n])
    ensures n < |s| ==> !IsWhitespace(s[n])
  {
    if s == [] || !IsWhitespace(s[0]) then 0
    else
      var m := LeadingWhitespace(s[1..]);
      assert s[..1 + m] == [s[0]] + s[1..][..m];
      1 + m
  }

  /** The length of the longest all-whitespace suffix of `s`. */
  function TrailingWhitespace(s: string): (n: nat)
    ensures n <= |s|
    ensures IsBlank(s[|s| - n..])
    ensures n < |s| ==> !IsWhitespace(s[|s| - 1 - n])
  {
    if s == [] || !IsWhitespace(s[|s| - 1]) then 0
    else
      var init := s[..|s| - 1];
      var m := TrailingWhitespace(init);
      assert s[|s| - (1 + m)..] == init[|init| - m..] + [s[|s| - 1]];
      1 + m
  }

  /** Blankness splits over concatenation. */
  lemma BlankConcat(a: string, b: string)
    ensures IsBlank(a + b) <==> IsBlank(a) && IsBlank(b)
  {
    if IsBlank(a + b) {
      forall i | 0 <= i < |a| ensures IsWhitespace(a[i]) {
        assert a[i] == (a + b)[i];
      }
      forall i | 0 <= i < |b| ensures IsWhitespace(b[i]) {
        assert b[i] == (a + b)[|a| + i];
      }
    }
    if IsBlank(a) && IsBlank(b) {
      forall i | 0 <= i < |a + b| ensures IsWhitespace((a + b)[i]) {
        if i < |a| { assert (a + b)[i] == a[i]; } else { assert (a + b)[i] == b[i - |a|]; }
      }
    }
  }

  /** `s` without its leading and trailing whitespace. A non-empty result starts
      and ends with a non-whitespace character; the result is the slice of `s`
      that begins right after the leading whitespace, and everything cut off on
      either side of it is whitespace. */
  function Trim(s: string): (t: string)
    ensures t != [] ==> !IsWhitespace(t[0]) && !IsWhitespace(t[|t| - 1])
    ensures var k := LeadingWhitespace(s);
            && k + |t| <= |s| && t == s[k..k + |t|]
            && IsBlank(s[..k]) && IsBlank(s[k + |t|..])
  {
    var k := LeadingWhitespace(s);
    var rest := s[k..];
    var j := TrailingWhitespace(rest);
    var t := rest[..|rest| - j];
    assert s[k + |t|..] == rest[|rest| - j..];
    assert t != [] ==> t[0] == s[k] && t[|t| - 1] == rest[|rest| - 1 - j];
    t
  }

  /** Trimming yields the empty string exactly when the input is blank, which is
      what makes `!s.trim()` a blankness test. */
  lemma TrimEmptyIffBlank(s: string)
    ensures Trim(s) == [] <==> IsBlank(s)
  {
    var t := Trim(s);
    var k := LeadingWhitespace(s);
    assert s == s[..k] + (t + s[k + |t|..]);
    BlankConcat(s[..k], t + s[k + |t|..]);
    BlankConcat(t, s[k + |t|..]);
    assert t != [] ==> !IsWhitespace(t[0]);
  }
}
