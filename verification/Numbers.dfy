/** C number conversions as the Silas front end uses them, with a 64-bit long and a
    32-bit unsigned int. */
module Numbers {
  const LONG_MAX: int := 0x7FFF_FFFF_FFFF_FFFF
  const LONG_MIN: int := -0x8000_0000_0000_0000
  const UINT_MAX: int := 0xFFFF_FFFF

  predicate IsSpace(c: char) {
    c == ' ' || c == '\t' || c == '\n' || c == '\r' || c == 11 as char || c == 12 as char
  }

  predicate IsDigit(c: char) {
    '0' <= c <= '9'
  }

  // The value of a digit character, or 36 when it is none.
  function DigitValue(c: char): nat {
    if '0' <= c <= '9' then c as int - '0' as int
    else if 'a' <= c <= 'z' then c as int - 'a' as int + 10
    else if 'A' <= c <= 'Z' then c as int - 'A' as int + 10
    else 36
  }

  // The longest prefix of digits of a base.
  function DigitPrefix(s: string, base: nat): (n: nat)
    ensures n <= |s|
  {
    if s != "" && DigitValue(s[0]) < base then 1 + DigitPrefix(s[1..], base) else 0
  }

  // The value of a digit string, most significant digit first.
  function Value(s: string, base: nat): nat {
    if s == "" then 0 else Value(s[..|s| - 1], base) * base + DigitValue(s[|s| - 1])
  }

  function SkipSpace(s: string): string {
    if s != "" && IsSpace(s[0]) then SkipSpace(s[1..]) else s
  }

  // A strtol call: the clamped value and whether errno is set to ERANGE.
  datatype Conversion = Conversion(value: int, erange: bool)

  function Clamp(v: int): Conversion {
    if v > LONG_MAX then Conversion(LONG_MAX, true)
    else if v < LONG_MIN then Conversion(LONG_MIN, true)
    else Conversion(v, false)
  }

  // strtol (section 7.22.1.4 of ISO/IEC 9899:2011) for base 10 and for base 0, which
  // takes a 0x prefix for hexadecimal and a 0 prefix for octal.
  function Strtol(s: string, base: nat): Conversion
    requires base == 10 || base == 0
  {
    var t := SkipSpace(s);
    var negative := t != "" && t[0] == '-';
    var u := if t != "" && (t[0] == '-' || t[0] == '+') then t[1..] else t;
    var hex := base == 0 && |u| >= 3 && u[0] == '0' && (u[1] == 'x' || u[1] == 'X') && DigitValue(u[2]) < 16;
    var digits := if hex then u[2..] else u;
    var radix := if base == 10 then 10 else if hex then 16 else if u != "" && u[0] == '0' then 8 else 10;
    var v: int := Value(digits[..DigitPrefix(digits, radix)], radix);
    Clamp(if negative then -v else v)
  }

  // unsigned int value = strtol(text, NULL, 0): the conversion reduces modulo 2^32.
  function ToUnsigned(text: string): (r: int)
    ensures 0 <= r <= UINT_MAX
  {
    Strtol(text, 0).value % 0x1_0000_0000
  }

  predicate AllDigits(s: string) {
    s != "" && forall i :: 0 <= i < |s| ==> IsDigit(s[i])
  }

  // The range check of an SC_UNSIGNED lexeme: errno is not cleared before strtol, so a
  // stale ERANGE rejects as well.
  predicate UnsignedAccepted(text: string, errnoOnEntry: bool) {
    var c := Strtol(text, 10);
    // value is an unsigned long, so a negative result would be huge
    !(errnoOnEntry || c.erange) && 0 <= c.value <= UINT_MAX
  }

  lemma {:induction false} AllDigitsPrefix(s: string, base: nat)
    requires base >= 10
    requires forall i :: 0 <= i < |s| ==> IsDigit(s[i])
    ensures DigitPrefix(s, base) == |s|
  {
    if s != "" {
      AllDigitsPrefix(s[1..], base);
    }
  }

  // Reading base 10 a string of digits gives its decimal value, clamped.
  lemma DecimalReading(s: string)
    requires AllDigits(s)
    ensures Strtol(s, 10) == Clamp(Value(s, 10))
  {
    AllDigitsPrefix(s, 10);
    assert s[..|s|] == s;
  }

  lemma {:induction false} SmallerBase(s: string)
    requires forall i :: 0 <= i < |s| ==> IsDigit(s[i])
    ensures Value(s, 8) <= Value(s, 10)
  {
    if s != "" {
      SmallerBase(s[..|s| - 1]);
    }
  }

  lemma {:induction false} PrefixIsSmaller(s: string, n: nat)
    requires n <= |s|
    ensures Value(s[..n], 10) <= Value(s, 10)
    decreases |s|
  {
    if n < |s| {
      PrefixIsSmaller(s[..|s| - 1], n);
      assert s[..|s| - 1][..n] == s[..n];
    } else {
      assert s[..n] == s;
    }
  }

  // What base 0 makes of a digit string: octal up to the first 8 or 9 when it starts
  // with a 0, decimal otherwise.
  function AutoValue(s: string): nat {
    if s != "" && s[0] == '0' then Value(s[..DigitPrefix(s, 8)], 8) else Value(s, 10)
  }

  lemma AutoReading(s: string)
    requires AllDigits(s)
    ensures Strtol(s, 0) == Clamp(AutoValue(s))
  {
    AllDigitsPrefix(s, 10);
    assert s[..|s|] == s;
    assert |s| > 1 ==> IsDigit(s[1]);
  }

  lemma AutoIsSmaller(s: string)
    requires AllDigits(s)
    ensures AutoValue(s) <= Value(s, 10)
  {
    var n := DigitPrefix(s, 8);
    SmallerBase(s[..n]);
    PrefixIsSmaller(s, n);
  }

  // An SC_UNSIGNED lexeme of any length: when the scanner accepts it, its decimal value
  // fits an unsigned int, and the parser's base-0 reading is never larger, so storing
  // it loses nothing.
  lemma AcceptedUnsignedFits(text: string, errnoOnEntry: bool)
    requires AllDigits(text)
    ensures UnsignedAccepted(text, errnoOnEntry) <==> !errnoOnEntry && Value(text, 10) <= UINT_MAX
    ensures UnsignedAccepted(text, errnoOnEntry) ==>
              ToUnsigned(text) == AutoValue(text) <= Value(text, 10) <= UINT_MAX
  {
    DecimalReading(text);
    AutoReading(text);
    AutoIsSmaller(text);
    InRange(Value(text, 10), AutoValue(text));
  }

  lemma InRange(decimal: nat, auto: nat)
    requires auto <= decimal
    ensures var c := Clamp(decimal); (!c.erange && 0 <= c.value <= UINT_MAX) <==> decimal <= UINT_MAX
    ensures decimal <= UINT_MAX ==> Clamp(auto).value % 0x1_0000_0000 == auto
  {}

  lemma {:induction false} OctalIsLess(s: string)
    requires forall i :: 0 <= i < |s| ==> DigitValue(s[i]) < 8
    requires Value(s, 10) >= 8
    ensures Value(s, 8) < Value(s, 10)
  {
    var t := s[..|s| - 1];
    assert forall i :: 0 <= i < |t| ==> IsDigit(t[i]) by {
      assert forall i :: 0 <= i < |t| ==> t[i] == s[i] && DigitValue(s[i]) < 8;
    }
    SmallerBase(t);
    assert DigitValue(s[|s| - 1]) < 8;
  }

  lemma {:induction false} SmallIsSame(s: string)
    requires forall i :: 0 <= i < |s| ==> IsDigit(s[i])
    requires Value(s, 10) < 8
    ensures Value(s, 8) == Value(s, 10) && forall i :: 0 <= i < |s| ==> DigitValue(s[i]) < 8
  {
    if s != "" {
      var t := s[..|s| - 1];
      SmallIsSame(t);
      assert forall i :: 0 <= i < |t| ==> s[i] == t[i];
    }
  }

  lemma {:induction false} OctalPrefix(s: string)
    ensures forall i :: 0 <= i < DigitPrefix(s, 8) ==> DigitValue(s[i]) < 8
    ensures (forall i :: 0 <= i < |s| ==> DigitValue(s[i]) < 8) ==> DigitPrefix(s, 8) == |s|
  {
    if s != "" && DigitValue(s[0]) < 8 {
      OctalPrefix(s[1..]);
      assert forall i :: 0 < i < |s| ==> s[i] == s[1..][i - 1];
      assert forall i :: 0 <= i < |s| - 1 ==> s[1..][i] == s[i + 1];
    }
  }

  // The two readings of an SC_UNSIGNED lexeme, base 10 by the scanner and base 0 by the
  // parser, agree exactly when it does not start with 0 or is less than 8.
  lemma AutoAgreesIff(s: string)
    requires AllDigits(s)
    ensures AutoValue(s) == Value(s, 10) <==> s[0] != '0' || Value(s, 10) < 8
  {
    if s[0] == '0' {
      var n := DigitPrefix(s, 8);
      OctalPrefix(s);
      assert s[..|s|] == s;
      if Value(s, 10) < 8 {
        SmallIsSame(s);
      } else if n == |s| {
        OctalIsLess(s);
      } else {
        SmallerBase(s[..n]);
        PrefixIsSmaller(s[..|s| - 1], n);
        assert s[..|s| - 1][..n] == s[..n];
        assert Value(s, 10) == Value(s[..|s| - 1], 10) * 10 + DigitValue(s[|s| - 1]);
      }
    }
  }

  // They differ for 010: the scanner accepts it as ten, the parser makes it eight.
  lemma LeadingZero()
    ensures AllDigits("010") && Value("010", 10) == 10 && AutoValue("010") == 8
  {
    assert "010"[..2] == "01" && "01"[..1] == "0" && "0"[..0] == "";
    assert "010"[..DigitPrefix("010", 8)] == "010" by {
      assert "010"[1..] == "10" && "10"[1..] == "0" && "0"[1..] == "";
    }
  }
}
