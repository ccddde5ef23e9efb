/** The two pieces of JavaScript string handling the components rely on:
    `String.prototype.trim` (used by both submit guards) and the decimal
    rendering of a non-negative integer (`${response.status}` and
    `Date.now().toString()`). */
module JsText {

  /** ECMAScript's WhiteSpace and LineTerminator code points, the set that
      `trim` strips: TAB, VT, FF, ZWNBSP, the Unicode space separators (Zs)
      and LF, CR, LS, PS. */
  predicate IsWhitespace(c: char) {
    || c == '\t' || c == '\U{B}' || c == '\U{C}' || c == '\U{FEFF}'
    || c == ' ' || c == '\U{A0}' || c == '\U{1680}' || ('\U{2000}' <= c <= '\U{200A}')
    || c == '\U{202F}' || c == '\U{205F}' || c == '\U{3000}'
    || c == '\n' || c == '\r' || c == '\U{2028}' || c == '\U{2029}'
  }

  ghost predicate AllWhitespace(s: string) {
    forall k :: 0 <= k < |s| ==> IsWhitespace(s[k])
  }

  /** The length of the whitespace run that `s` starts with. */
  function LeadingWhitespace(s: string): (n: nat)
    ensures n <= |s| && AllWhitespace(s[..n])
    ensures n < |s| ==> !IsWhitespace(s[n])
  {
    if s != [] && IsWhitespace(s[0]) then
      var n := 1 + LeadingWhitespace(s[1..]);
      assert s[..n] == [s[0]] + s[1..][..n - 1];
      n
    else 0
  }

  /** The length of the whitespace run that `s` ends with. */
  function TrailingWhitespace(s: string): (n: nat)
    ensures n <= |s| && AllWhitespace(s[|s| - n..])
    ensures n < |s| ==> !IsWhitespace(s[|s| - n - 1])
  {
    if s != [] && IsWhitespace(s[|s| - 1]) then
      var n := 1 + TrailingWhitespace(s[..|s| - 1]);
      assert s[|s| - n..] == s[..|s| - 1][|s| - n..] + [s[|s| - 1]];
      n
    else 0
  }

  /** `r` is `s` with whitespace-only runs cut from both ends, the kept part
      starting at index `i`. */
  ghost predicate StripsAt(s: string, r: string, i: int) {
    && 0 <= i <= |s| - |r| && r == s[i..i + |r|]
    && AllWhitespace(s[..i]) && AllWhitespace(s[i + |r|..])
  }

  /** `String.prototype.trim`: the longest substring of `s` that neither
      starts nor ends with whitespace, with only whitespace cut away. */
  function Trim(s: string): (r: string)
    ensures exists i :: StripsAt(s, r, i)
    ensures r == [] || (!IsWhitespace(r[0]) && !IsWhitespace(r[|r| - 1]))
  {
    var i := LeadingWhitespace(s);
    var t := s[i..];
    var j := TrailingWhitespace(t);
    CutRunsStrip(s, i, j);
    t[..|t| - j]
  }

  /** Cutting a leading whitespace run of length `i` and then a trailing one
      of length `j` from what is left strips `s` at `i`. */
  lemma CutRunsStrip(s: string, i: nat, j: nat)
    requires i <= |s| && AllWhitespace(s[..i])
    requires j <= |s| - i && AllWhitespace(s[i..][|s| - i - j..])
    ensures StripsAt(s, s[i..][..|s| - i - j], i)
  {
    var t := s[i..];
    var r := t[..|t| - j];
    assert r == s[i..i + |r|];
    assert s[i + |r|..] == t[|r|..];
  }

  /** Where a stripped substring with non-whitespace ends lies in `s`: it
      starts at the first non-whitespace character and ends after the last. */
  lemma StrippedBounds(s: string, r: string, i: int)
    requires StripsAt(s, r, i) && r != []
    requires !IsWhitespace(r[0]) && !IsWhitespace(r[|r| - 1])
    ensures !IsWhitespace(s[i]) && forall k :: 0 <= k < i ==> IsWhitespace(s[k])
    ensures !IsWhitespace(s[i + |r| - 1]) && forall k :: i + |r| <= k < |s| ==> IsWhitespace(s[k])
  {
    assert s[i] == r[0] && s[i + |r| - 1] == r[|r| - 1];
    forall k | 0 <= k < i ensures IsWhitespace(s[k]) {
      assert s[..i][k] == s[k];
    }
    forall k | i + |r| <= k < |s| ensures IsWhitespace(s[k]) {
      assert s[i + |r|..][k - i - |r|] == s[k];
    }
  }

  /** The characterisation determines `trim`: any whitespace-stripped
      substring of `s` whose ends are not whitespace is `Trim(s)`. */
  lemma TrimUnique(s: string, r: string, i: int)
    requires StripsAt(s, r, i)
    requires r == [] || (!IsWhitespace(r[0]) && !IsWhitespace(r[|r| - 1]))
    ensures r == Trim(s)
  {
    var t := Trim(s);
    var j :| StripsAt(s, t, j);
    TrimEmptyIffAllWhitespace(s);
    if r == [] {
      StripsNothingKept(s, i);
    } else if t == [] {
      StrippedBounds(s, r, i);
      assert false;
    } else {
      StrippedBounds(s, r, i);
      StrippedBounds(s, t, j);
      assert i == j && |r| == |t|;
    }
  }

  /** A trimmed string is empty exactly when the string is all whitespace:
      this is what `!question.trim()` tests. */
  lemma TrimEmptyIffAllWhitespace(s: string)
    ensures Trim(s) == [] <==> AllWhitespace(s)
  {
    var r := Trim(s);
    var i :| StripsAt(s, r, i);
    if r == [] {
      StripsNothingKept(s, i);
    } else {
      assert s[i] == r[0];
    }
  }

  /** When nothing is kept, everything was whitespace. */
  lemma StripsNothingKept(s: string, i: int)
    requires StripsAt(s, [], i)
    ensures AllWhitespace(s)
  {
    forall k | 0 <= k < |s| ensures IsWhitespace(s[k]) {
      if k < i { assert s[..i][k] == s[k]; } else { assert s[i..][k - i] == s[k]; }
    }
  }

  function DigitChar(d: nat): (c: char)
    requires d < 10
    ensures '0' <= c <= '9' && c as int - '0' as int == d
  {
    ('0' as int + d) as char
  }

  ghost predicate AllDigits(s: string) {
    forall k :: 0 <= k < |s| ==> '0' <= s[k] <= '9'
  }

  /** The shortest decimal rendering of `n`, as JavaScript's
      `Number.prototype.toString` gives it for a non-negative integer below
      10^21: non-empty, digits only, no leading zero. */
  function Decimal(n: nat): (r: string)
    ensures r != [] && AllDigits(r)
    ensures r[0] == '0' ==> r == "0"
    decreases n
  {
    if n < 10 then [DigitChar(n)] else Decimal(n / 10) + [DigitChar(n % 10)]
  }

  /** The number a string of decimal digits denotes. */
  function DigitsValue(s: string): nat
    requires AllDigits(s)
  {
    if s == [] then 0 else DigitsValue(s[..|s| - 1]) * 10 + (s[|s| - 1] as int - '0' as int)
  }

  /** Reading back the rendering of `n` gives `n`. */
  lemma {:induction false} DecimalRoundTrip(n: nat)
    ensures DigitsValue(Decimal(n)) == n
    decreases n
  {
    if n >= 10 {
      DecimalRoundTrip(n / 10);
      var r := Decimal(n);
      assert r[..|r| - 1] == Decimal(n / 10);
    }
  }

  /** Distinct numbers render differently, so history items created at
      different clock readings get different ids. */
  lemma DecimalInjective(a: nat, b: nat)
    requires Decimal(a) == Decimal(b)
    ensures a == b
  {
    DecimalRoundTrip(a);
    DecimalRoundTrip(b);
  }
}
