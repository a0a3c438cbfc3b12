/** The few string operations of the JavaScript runtime the client relies on. */
module Text {

  /** The characters ECMAScript's `String.prototype.trim` removes: the
      WhiteSpace and LineTerminator code points of ECMA-262. */
  const Whitespace: set<char> := {
    '\t', '\n', '\U{000B}', '\U{000C}', '\r', ' ', '\U{00A0}', '\U{1680}',
    '\U{2000}', '\U{2001}', '\U{2002}', '\U{2003}', '\U{2004}', '\U{2005}',
    '\U{2006}', '\U{2007}', '\U{2008}', '\U{2009}', '\U{200A}',
    '\U{2028}', '\U{2029}', '\U{202F}', '\U{205F}', '\U{3000}', '\U{FEFF}'
  }

  predicate IsWhitespace(c: char) {
    c in Whitespace
  }

  /** Every character of `s` is whitespace. */
  predicate AllWhitespace(s: string) {
    s == [] || (IsWhitespace(s[0]) && AllWhitespace(s[1..]))
  }

  /** The number of whitespace characters `s` starts with. */
  function LeadingWhitespace(s: string): (n: nat)
    ensures n <= |s| && AllWhitespace(s[..n])
    ensures n == |s| || !IsWhitespace(s[n])
  {
    if s != [] && IsWhitespace(s[0]) then
      var n := 1 + LeadingWhitespace(s[1..]);
      assert s[..n][1..] == s[1..][..n - 1];
      n
    else
      assert s[..0] == [];
      0
  }

  /** The number of whitespace characters `s` ends with. */
  function TrailingWhitespace(s: string): (n: nat)
    ensures n <= |s| && AllWhitespace(s[|s| - n..])
    ensures n == |s| || !IsWhitespace(s[|s| - n - 1])
  {
    if s != [] && IsWhitespace(s[|s| - 1]) then
      var init := s[..|s| - 1];
      var n := 1 + TrailingWhitespace(init);
      AllWhitespaceAppend(init[|init| - (n - 1)..], s[|s| - 1]);
      assert s[|s| - n..] == init[|init| - (n - 1)..] + [s[|s| - 1]];
      n
    else
      assert s[|s|..] == [];
      0
  }

  lemma {:induction false} AllWhitespaceAppend(s: string, c: char)
    requires AllWhitespace(s) && IsWhitespace(c)
    ensures AllWhitespace(s + [c])
    decreases |s|
  {
    if s != [] {
      assert (s + [c])[1..] == s[1..] + [c];
      AllWhitespaceAppend(s[1..], c);
    }
  }

  lemma {:induction false} AllWhitespaceConcat(a: string, b: string)
    requires AllWhitespace(a) && AllWhitespace(b)
    ensures AllWhitespace(a + b)
    decreases |a|
  {
    if a == [] {
      assert a + b == b;
    } else {
      assert (a + b)[1..] == a[1..] + b;
      AllWhitespaceConcat(a[1..], b);
    }
  }

  /** `String.prototype.trim`: `s` with a whitespace prefix and a whitespace
      suffix cut off, such that what is left neither starts nor ends with
      whitespace. */
  function Trim(s: string): (r: string)
    ensures var k := LeadingWhitespace(s);
            k + |r| <= |s| && r == s[k..k + |r|]
            && AllWhitespace(s[..k]) && AllWhitespace(s[k + |r|..])
    ensures r == [] || (!IsWhitespace(r[0]) && !IsWhitespace(r[|r| - 1]))
    ensures r == [] <==> AllWhitespace(s)
  {
    var k := LeadingWhitespace(s);
    var n := TrailingWhitespace(s[k..]);
    TrimParts(s, k, n);
    s[k..|s| - n]
  }

  /** The facts about cutting a whitespace prefix of length `k` and then a
      whitespace suffix of length `n` from what remains. */
  lemma TrimParts(s: string, k: nat, n: nat)
    requires k + n <= |s|
    requires AllWhitespace(s[..k]) && (k == |s| || !IsWhitespace(s[k]))
    requires AllWhitespace(s[k..][|s| - k - n..])
    requires n == |s| - k || !IsWhitespace(s[k..][|s| - k - n - 1])
    ensures AllWhitespace(s[|s| - n..])
    ensures var r := s[k..|s| - n]; r == [] || (!IsWhitespace(r[0]) && !IsWhitespace(r[|r| - 1]))
    ensures s[k..|s| - n] == [] <==> AllWhitespace(s)
  {
    assert s[k..][|s| - k - n..] == s[|s| - n..];
    if k + n < |s| {
      assert s[k..][|s| - k - n - 1] == s[|s| - n - 1];
      NotAllWhitespace(s, k);
    } else {
      AllWhitespaceConcat(s[..k], s[k..]);
      assert s == s[..k] + s[k..];
    }
  }

  /** A string with a non-whitespace character is not blank. */
  lemma {:induction false} NotAllWhitespace(s: string, i: nat)
    requires i < |s| && !IsWhitespace(s[i])
    ensures !AllWhitespace(s)
    decreases i
  {
    if i > 0 {
      NotAllWhitespace(s[1..], i - 1);
    }
  }

  /** A trimmed string is its own trim. */
  lemma {:induction false} TrimIdempotent(s: string)
    ensures Trim(Trim(s)) == Trim(s)
  {
    var r := Trim(s);
    if r != [] {
      assert LeadingWhitespace(r) == 0 && r[0..] == r;
      assert TrailingWhitespace(r) == 0 && r[..|r|] == r;
    }
  }

  /** The decimal rendering of a number, as JavaScript's template strings
      print an array length. */
  function DecimalString(n: nat): (r: string)
    ensures |r| >= 1 && IsDigits(r)
    ensures r[0] == '0' ==> n == 0
  {
    var digit := ['0' + (n % 10) as char];
    if n < 10 then digit else DecimalString(n / 10) + digit
  }

  predicate IsDigits(s: string) {
    forall i :: 0 <= i < |s| ==> '0' <= s[i] <= '9'
  }

  /** The number a string of decimal digits denotes, most significant first. */
  function DigitsValue(s: string): nat
    requires IsDigits(s)
  {
    if s == [] then 0
    else DigitsValue(s[..|s| - 1]) * 10 + (s[|s| - 1] as int - '0' as int)
  }

  /** `String(n)` denotes `n`. */
  lemma {:induction false} DecimalStringValue(n: nat)
    ensures DigitsValue(DecimalString(n)) == n
  {
    var r := DecimalString(n);
    if n >= 10 {
      DecimalStringValue(n / 10);
      assert r[..|r| - 1] == DecimalString(n / 10);
    }
  }
}
