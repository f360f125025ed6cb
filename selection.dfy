/**
 * How the page turns its raw inputs into typed values: the selected options of
 * a list (all-digit options become integers, others stay text), and the manual
 * discount field (blank after trimming means "no manual discount", anything
 * else is clamped to [0, 100]).
 */
module Selection {
  import opened Wrappers

  predicate IsDigit(c: char) {
    '0' <= c <= '9'
  }

  /** A whole string of decimal digits, possibly empty. */
  predicate AllDigits(s: string) {
    forall i :: 0 <= i < |s| ==> IsDigit(s[i])
  }

  /** Matches the pattern `^\d+$`: one or more decimal digits and nothing else. */
  predicate IsDigits(s: string) {
    |s| > 0 && AllDigits(s)
  }

  /** A digit string without a leading zero, the way a number prints. */
  predicate IsCanonical(s: string) {
    IsDigits(s) && (|s| == 1 || s[0] != '0')
  }

  function DigitValue(c: char): (d: nat)
    requires IsDigit(c)
    ensures d < 10
  {
    (c as int) - ('0' as int)
  }

  function DigitChar(d: nat): (c: char)
    requires d < 10
    ensures IsDigit(c) && DigitValue(c) == d
  {
    (('0' as int) + d) as char
  }

  /** The base-10 value of a digit string, as `parseInt(s, 10)` reads it. */
  function DecimalValue(s: string): nat
    requires AllDigits(s)
  {
    if s == [] then 0 else DecimalValue(s[..|s| - 1]) * 10 + DigitValue(s[|s| - 1])
  }

  /** A leading zero does not change the value read, so "03" reads as 3. */
  lemma {:induction false} DecimalValueLeadingZero(s: string)
    requires AllDigits(s)
    ensures AllDigits("0" + s) && DecimalValue("0" + s) == DecimalValue(s)
  {
    var z := "0" + s;
    assert forall i :: 1 <= i < |z| ==> z[i] == s[i - 1];
    if s != [] {
      var init := s[..|s| - 1];
      assert z[..|z| - 1] == "0" + init;
      DecimalValueLeadingZero(init);
    }
  }

  /** The decimal text of a non-negative integer, as a template literal prints it. */
  function NatToString(n: nat): (r: string)
    ensures IsCanonical(r)
  {
    if n < 10 then [DigitChar(n)] else NatToString(n / 10) + [DigitChar(n % 10)]
  }

  /** Printing a number and parsing the text back gives the number. */
  lemma {:induction false} DecimalValueOfNatToString(n: nat)
    ensures DecimalValue(NatToString(n)) == n
  {
    if n >= 10 {
      var s := NatToString(n);
      assert s[..|s| - 1] == NatToString(n / 10);
      DecimalValueOfNatToString(n / 10);
    }
  }

  /** A digit string with a leading digit other than 0 has a positive value. */
  lemma {:induction false} CanonicalValuePositive(s: string)
    requires IsDigits(s) && s[0] != '0'
    ensures DecimalValue(s) >= 1
  {
    if |s| > 1 {
      CanonicalValuePositive(s[..|s| - 1]);
    }
  }

  /** Parsing a canonical digit string and printing the value gives the string back. */
  lemma {:induction false} NatToStringOfDecimalValue(s: string)
    requires IsCanonical(s)
    ensures NatToString(DecimalValue(s)) == s
  {
    if |s| > 1 {
      var prefix := s[..|s| - 1];
      CanonicalValuePositive(prefix);
      NatToStringOfDecimalValue(prefix);
      var n := DecimalValue(s);
      assert n / 10 == DecimalValue(prefix) && n % 10 == DigitValue(s[|s| - 1]);
      assert s == prefix + [s[|s| - 1]];
    }
  }

  /** One selected option's value: an integer for an all-digit option, else its text. */
  datatype SelectedValue = Num(n: nat) | Text(s: string)

  function ParseOption(option: string): (v: SelectedValue)
    ensures v.Num? <==> IsDigits(option)
    ensures v.Num? ==> v.n == DecimalValue(option)
    ensures v.Text? ==> v.s == option
  {
    if IsDigits(option) then Num(DecimalValue(option)) else Text(option)
  }

  /** How a value prints when the page writes it into the table. */
  function Show(v: SelectedValue): string {
    match v
    case Num(n) => NatToString(n)
    case Text(s) => s
  }

  /** Text options print back unchanged, and so do numbers written without leading zeros. */
  lemma ShowParseOption(option: string)
    requires !IsDigits(option) || IsCanonical(option)
    ensures Show(ParseOption(option)) == option
  {
    if IsDigits(option) {
      NatToStringOfDecimalValue(option);
    }
  }

  /** The values of the selected options, in selection order. */
  function SelectedValues(options: seq<string>): (vs: seq<SelectedValue>)
    ensures |vs| == |options|
    ensures forall i :: 0 <= i < |options| ==> vs[i] == ParseOption(options[i])
  {
    seq(|options|, i requires 0 <= i < |options| => ParseOption(options[i]))
  }

  /** The characters `String.prototype.trim` removes: the white space and line
      terminator characters of ECMAScript. */
  const TrimmedChars: set<char> := {
    '\t', '\n', '\U{000B}', '\U{000C}', '\r', ' ', '\U{00A0}', '\U{1680}',
    '\U{2000}', '\U{2001}', '\U{2002}', '\U{2003}', '\U{2004}', '\U{2005}',
    '\U{2006}', '\U{2007}', '\U{2008}', '\U{2009}', '\U{200A}',
    '\U{2028}', '\U{2029}', '\U{202F}', '\U{205F}', '\U{3000}', '\U{FEFF}'
  }

  predicate IsTrimmable(c: char) {
    c in TrimmedChars
  }

  /** The number of white-space characters at the start of `s`. */
  function LeadingSpace(s: string): (k: nat)
    ensures k <= |s|
    ensures forall i :: 0 <= i < k ==> IsTrimmable(s[i])
    ensures k == |s| || !IsTrimmable(s[k])
  {
    if s != [] && IsTrimmable(s[0]) then
      var k := 1 + LeadingSpace(s[1..]);
      assert forall i :: 1 <= i < k ==> s[i] == s[1..][i - 1];
      k
    else 0
  }

  /** The number of white-space characters at the end of `s`. */
  function TrailingSpace(s: string): (k: nat)
    ensures k <= |s|
    ensures forall i :: |s| - k <= i < |s| ==> IsTrimmable(s[i])
    ensures k == |s| || !IsTrimmable(s[|s| - k - 1])
  {
    if s != [] && IsTrimmable(s[|s| - 1]) then
      var k := 1 + TrailingSpace(s[..|s| - 1]);
      assert forall i :: |s| - k <= i < |s| - 1 ==> s[i] == s[..|s| - 1][i];
      k
    else 0
  }

  /** `String.prototype.trim`: drops white space at both ends. */
  function Trim(s: string): string {
    var start := LeadingSpace(s);
    s[start..|s| - TrailingSpace(s[start..])]
  }

  /** The trimmed text is a slice of `s` with only white space around it; it is
      empty exactly when `s` is all white space, and otherwise starts and ends
      with a character that is not white space. */
  lemma {:induction false} TrimIsInnerSlice(s: string)
    ensures var r := Trim(s); var k := LeadingSpace(s);
      k + |r| <= |s| && r == s[k..k + |r|] &&
      (forall i :: 0 <= i < k ==> IsTrimmable(s[i])) &&
      (forall i :: k + |r| <= i < |s| ==> IsTrimmable(s[i])) &&
      (r == [] <==> forall i :: 0 <= i < |s| ==> IsTrimmable(s[i])) &&
      (r != [] ==> !IsTrimmable(r[0]) && !IsTrimmable(r[|r| - 1]))
  {
    var k := LeadingSpace(s);
    var t := s[k..];
    var b := TrailingSpace(t);
    var r := Trim(s);
    assert r == t[..|t| - b];
    forall i | k + |r| <= i < |s|
      ensures IsTrimmable(s[i])
    {
      assert s[i] == t[i - k];
    }
    if r != [] {
      assert r[0] == s[k];
      assert r[|r| - 1] == t[|t| - b - 1];
    }
  }

  /** Trimming an already trimmed text changes nothing. */
  lemma TrimIdempotent(s: string)
    ensures Trim(Trim(s)) == Trim(s)
  {
    var r := Trim(s);
    TrimIsInnerSlice(s);
    TrimIsInnerSlice(r);
    if r != [] {
      assert LeadingSpace(r) == 0;
    }
  }

  /** `Math.max(0, Math.min(100, x))`. */
  function Clamp(x: real): (r: real)
    ensures 0.0 <= r <= 100.0
    ensures 0.0 <= x <= 100.0 ==> r == x
    ensures x < 0.0 ==> r == 0.0
    ensures x > 100.0 ==> r == 100.0
  {
    if x < 0.0 then 0.0 else if x > 100.0 then 100.0 else x
  }

  /** The manual discount read from the field's raw text: none when the text is
      blank after trimming; otherwise the clamped number `parsed`, which stands
      for `parseFloat` of the trimmed text. */
  function ManualDiscount(raw: string, parsed: real): (m: Option<real>)
    ensures m.None? <==> forall i :: 0 <= i < |raw| ==> IsTrimmable(raw[i])
    ensures m.Some? ==> 0.0 <= m.value <= 100.0 && m.value == Clamp(parsed)
  {
    TrimIsInnerSlice(raw);
    if Trim(raw) == "" then None else Some(Clamp(parsed))
  }
}
