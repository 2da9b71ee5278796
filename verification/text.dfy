/** The two pieces of Python string behaviour the model depends on:
    `str.lower()` for matching provider names, and `int()` for parsing
    integers from environment variables and response headers. */
module Text {
  import opened Wrappers

  /** Lower-cases an ASCII capital letter; every other character is kept.
      Python's `str.lower()` also lowers non-ASCII letters, but none of them
      lowers into a character of the names the model matches against. */
  function LowerChar(c: char): char {
    if 'A' <= c <= 'Z' then (c as int - 'A' as int + 'a' as int) as char else c
  }

  function ToLower(s: string): (r: string)
    ensures |r| == |s|
    ensures forall i :: 0 <= i < |s| ==> r[i] == LowerChar(s[i])
  {
    seq(|s|, i requires 0 <= i < |s| => LowerChar(s[i]))
  }

  predicate HasNoCapitals(s: string) {
    forall i :: 0 <= i < |s| ==> !('A' <= s[i] <= 'Z')
  }

  /** Lower-casing leaves a string without capitals unchanged. */
  lemma ToLowerFixesLowerCase(s: string)
    requires HasNoCapitals(s)
    ensures ToLower(s) == s
  {
    assert forall i :: 0 <= i < |s| ==> ToLower(s)[i] == s[i];
  }

  predicate OccursAt(s: string, sub: string, i: int) {
    0 <= i && i + |sub| <= |s| && s[i..i + |sub|] == sub
  }

  /** Python's `sub in s` for strings. */
  predicate Contains(s: string, sub: string) {
    exists i | 0 <= i <= |s| - |sub| :: OccursAt(s, sub, i)
  }

  /** A string contains each of the pieces it is built from. */
  lemma ContainsInfix(a: string, b: string, c: string)
    ensures Contains(a + b + c, b)
  {
    assert (a + b + c)[|a|..|a| + |b|] == b;
    assert OccursAt(a + b + c, b, |a|);
  }

  // ---------------------------------------------------------------------
  // int(): ASCII whitespace around an optional sign and decimal digits.

  predicate IsSpace(c: char) {
    c == ' ' || c == '\t' || c == '\n' || c == '\r' || c == '\U{B}' || c == '\U{C}'
  }

  predicate IsDigit(c: char) {
    '0' <= c <= '9'
  }

  predicate IsDigits(s: string) {
    |s| > 0 && forall i :: 0 <= i < |s| ==> IsDigit(s[i])
  }

  function StripLeft(s: string): (r: string)
    ensures |r| <= |s|
    ensures |r| > 0 ==> !IsSpace(r[0])
    ensures r == s[|s| - |r|..]
  {
    if |s| > 0 && IsSpace(s[0]) then StripLeft(s[1..]) else s
  }

  function StripRight(s: string): (r: string)
    ensures |r| <= |s|
    ensures |r| > 0 ==> !IsSpace(r[|r| - 1])
    ensures r == s[..|r|]
  {
    if |s| > 0 && IsSpace(s[|s| - 1]) then StripRight(s[..|s| - 1]) else s
  }

  /** The whitespace trimming `int()` performs before reading digits,
      restricted to ASCII whitespace. */
  function Strip(s: string): string {
    StripRight(StripLeft(s))
  }

  function DigitValue(c: char): nat
    requires IsDigit(c)
  {
    c as int - '0' as int
  }

  function DigitChar(d: nat): (c: char)
    requires d < 10
    ensures IsDigit(c) && DigitValue(c) == d
  {
    ('0' as int + d) as char
  }

  /** The value of a string of decimal digits, most significant first. */
  function DigitsValue(s: string): nat
    requires forall i :: 0 <= i < |s| ==> IsDigit(s[i])
  {
    if |s| == 0 then 0 else DigitsValue(s[..|s| - 1]) * 10 + DigitValue(s[|s| - 1])
  }

  /** The default of `sys.get_int_max_str_digits()`: `int()` refuses a
      decimal string with more digits than this. */
  const MaxStrDigits: nat := 4300

  /** Python's `int(s)` in base 10: None where Python raises ValueError,
      which includes a run of more than MaxStrDigits digits. */
  function ParseInt(s: string): (r: Option<int>)
    ensures r.Some? <==>
      var t := Strip(s);
      || (IsDigits(t) && |t| <= MaxStrDigits)
      || (|t| > 1 && (t[0] == '+' || t[0] == '-') && IsDigits(t[1..]) && |t| - 1 <= MaxStrDigits)
    ensures r.Some? && Strip(s)[0] == '-' ==> r.value <= 0
    ensures r.Some? && Strip(s)[0] != '-' ==> r.value >= 0
  {
    var t := Strip(s);
    if |t| > 1 && (t[0] == '+' || t[0] == '-') && IsDigits(t[1..]) then
      if |t| - 1 > MaxStrDigits then None
      else
        var v: int := DigitsValue(t[1..]);
        Some(if t[0] == '-' then -v else v)
    else if IsDigits(t) && |t| <= MaxStrDigits then
      Some(DigitsValue(t))
    else
      None
  }

  // ---------------------------------------------------------------------
  // Decimal rendering, the reference that ParseInt inverts.

  function ShowNat(n: nat): (s: string)
    ensures IsDigits(s)
  {
    if n < 10 then [DigitChar(n)] else ShowNat(n / 10) + [DigitChar(n % 10)]
  }

  function ShowInt(n: int): (s: string)
    ensures s != "" && (n < 0 <==> s[0] == '-')
  {
    if n < 0 then "-" + ShowNat(-n) else ShowNat(n)
  }

  /** The integer's decimal rendering has at most MaxStrDigits digits, so
      `str()` and `int()` both accept it. */
  predicate ShortDecimal(n: int) {
    |ShowNat(if n < 0 then -n else n)| <= MaxStrDigits
  }

  /** A rendering never has more digits than one plus the value. */
  lemma {:induction false} ShowNatLength(n: nat)
    ensures |ShowNat(n)| <= n + 1
  {
    if n >= 10 {
      ShowNatLength(n / 10);
    }
  }

  /** Every integer of magnitude below MaxStrDigits is a short decimal. */
  lemma SmallIsShortDecimal(n: int)
    requires -(MaxStrDigits as int) < n < MaxStrDigits
    ensures ShortDecimal(n)
  {
    ShowNatLength(if n < 0 then -n else n);
  }

  lemma {:induction false} ShowNatValue(n: nat)
    ensures DigitsValue(ShowNat(n)) == n
  {
    if n >= 10 {
      var s := ShowNat(n / 10);
      var t := s + [DigitChar(n % 10)];
      assert ShowNat(n) == t;
      assert t[..|t| - 1] == s;
      ShowNatValue(n / 10);
    }
  }

  lemma StripKeepsTrimmed(s: string)
    requires |s| > 0 && !IsSpace(s[0]) && !IsSpace(s[|s| - 1])
    ensures Strip(s) == s
  {
  }

  /** `int()` refuses text that, once trimmed, starts with neither a digit
      nor a sign. */
  lemma ParseIntRejects(s: string)
    requires |s| > 0 && !IsSpace(s[0]) && !IsSpace(s[|s| - 1])
    requires !IsDigit(s[0]) && s[0] != '+' && s[0] != '-'
    ensures ParseInt(s).None?
  {
    StripKeepsTrimmed(s);
  }

  /** `int()` reads back the decimal rendering of every integer of at most
      MaxStrDigits digits, and refuses every longer one. */
  lemma {:induction false} ParseShowRoundTrip(n: int)
    ensures ParseInt(ShowInt(n)) == if ShortDecimal(n) then Some(n) else None
  {
    var s := ShowInt(n);
    if n < 0 {
      var d := ShowNat(-n);
      assert s == "-" + d;
      assert s[1..] == d;
      assert s[|s| - 1] == d[|d| - 1];
      StripKeepsTrimmed(s);
      if ShortDecimal(n) {
        ShowNatValue(-n);
        assert ParseInt(s) == Some(0 - DigitsValue(d));
      }
    } else {
      var d := ShowNat(n);
      assert s == d;
      StripKeepsTrimmed(s);
      assert !(|s| > 1 && (s[0] == '+' || s[0] == '-'));
      if ShortDecimal(n) {
        ShowNatValue(n);
        assert ParseInt(s) == Some(DigitsValue(d));
      }
    }
  }
}
