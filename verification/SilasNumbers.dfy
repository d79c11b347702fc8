/** SC_UNSIGNED from the input to the store: the lexemes of rule 5 are digit strings, their
    range check, and the conversion in the parser. */
module SilasNumbers {
  import opened Flex
  import opened Munch
  import Tables = SilasScannerTables
  import opened Numbers

  const UNSIGNED_RULE := 5
  const DIGITS := 9 // the class of the digits

  // The states that accept a number, and those from which one is reached.
  predicate InNumber(s: int) {
    s == 13 || s == 26
  }

  predicate BeforeNumber(s: int) {
    s == 1 || s == 2 || InNumber(s)
  }

  lemma AcceptsNumber(s: int)
    requires IsState(SilasScanner, s)
    ensures Accept(SilasScanner, s) == UNSIGNED_RULE <==> InNumber(s)
  {}

  lemma DigitClass(b: Byte)
    ensures Ec(SilasScanner, b) == DIGITS <==> 48 <= b <= 57
  {}

  lemma NumberEntry(i: int)
    requires 0 < i < Tables.ENTRIES
    ensures InNumber(Tables.Nxt(i)) ==>
              (i == 9 && Tables.Chk(i) == 1) || (i == 18 && Tables.Chk(i) == 13)
              || (i == 36 && Tables.Chk(i) == 2) || (i == 46 && Tables.Chk(i) == 26)
    ensures Tables.Nxt(i) != 1 && Tables.Nxt(i) != 2
  {
    if i < Tables.ENTRIES / 2 {
      NumberEntryLow(i);
    } else {
      NumberEntryHigh(i);
    }
  }

  lemma NumberEntryLow(i: int)
    requires 0 < i < Tables.ENTRIES / 2
    ensures InNumber(Tables.Nxt(i)) ==>
              (i == 9 && Tables.Chk(i) == 1) || (i == 18 && Tables.Chk(i) == 13)
              || (i == 36 && Tables.Chk(i) == 2) || (i == 46 && Tables.Chk(i) == 26)
    ensures Tables.Nxt(i) != 1 && Tables.Nxt(i) != 2
  {}

  lemma NumberEntryHigh(i: int)
    requires Tables.ENTRIES / 2 <= i < Tables.ENTRIES
    ensures !InNumber(Tables.Nxt(i)) && Tables.Nxt(i) != 1 && Tables.Nxt(i) != 2
  {}

  lemma NumberRows()
    ensures Tables.Base(1) == 0 && Tables.Base(2) == 27 && Tables.Base(13) == 9 && Tables.Base(26) == 37
  {}

  // The rows before a number are nobody's fallback.
  lemma NumberFallback(s: int)
    requires IsRow(SilasScanner, s)
    ensures !BeforeNumber(Tables.Def(s))
  {}

  lemma {:induction false} NumberSuccessor(s: int, c: int)
    requires IsRow(SilasScanner, s) && 0 < c < Classes(SilasScanner)
    ensures var t := Successor(SilasScanner, s, c);
            && (InNumber(t) ==> BeforeNumber(s) && c == DIGITS)
            && t != 1 && t != 2
    decreases Rank(SilasScanner, s)
  {
    hide Tables.Base, Tables.Chk, Tables.Def, Tables.Nxt, Tables.Meta;
    RowBounds(SilasScanner, s);
    JamRow(SilasScanner, c);
    NumberRows();
    EntryZero(SilasScanner);
    var i := Tables.Base(s) + c;
    if Tables.Chk(i) == s {
      NumberEntry(i);
    } else {
      FallbackFalls(SilasScanner, s);
      NumberFallback(s);
      ClassBounds(SilasScanner, 0, c);
      var d := Tables.Def(s);
      NumberSuccessor(d, if d > Tables.JAM then Tables.Meta(c) else c);
    }
  }

  // After a prefix in a state of a number, every byte so far is a digit.
  lemma {:induction false} NumberState(start: int, text: seq<Byte>, j: nat)
    requires IsStart(SilasScanner, start) && j <= |text|
    ensures var s := StateAt(SilasScanner, start, text, j);
            && (InNumber(s) ==> j > 0 && forall i :: 0 <= i < j ==> 48 <= text[i] <= 57)
            && (s == 1 || s == 2 ==> j == 0)
  {
    hide Successor, Ec;
    if j > 0 {
      NumberState(start, text, j - 1);
      var s, b := StateAt(SilasScanner, start, text, j - 1), text[j - 1];
      ClassBounds(SilasScanner, b, 1);
      DigitClass(b);
      NumberSuccessor(s, if b == 0 then 1 else Ec(SilasScanner, b));
    }
  }

  function Lexeme(bytes: seq<Byte>): string {
    if bytes == [] then "" else [bytes[0] as char] + Lexeme(bytes[1..])
  }

  lemma {:induction false} DigitLexeme(bytes: seq<Byte>)
    requires forall i :: 0 <= i < |bytes| ==> 48 <= bytes[i] <= 57
    ensures |Lexeme(bytes)| == |bytes| && forall i :: 0 <= i < |bytes| ==> IsDigit(Lexeme(bytes)[i])
  {
    if bytes != [] {
      DigitLexeme(bytes[1..]);
    }
  }

  // Whatever the scanner delivers as SC_UNSIGNED is a string of digits; it passes the range
  // check exactly when its decimal value fits an unsigned int (and no ERANGE was left over
  // from before), and then the parser stores a value that fits as well, without wrapping.
  lemma UnsignedToken(start: int, text: seq<Byte>, n: nat, errnoOnEntry: bool)
    requires IsStart(SilasScanner, start) && IsMunch(SilasScanner, start, text, n, UNSIGNED_RULE)
    ensures var lexeme := Lexeme(text[..n]);
            && AllDigits(lexeme)
            && (UnsignedAccepted(lexeme, errnoOnEntry) <==> !errnoOnEntry && Value(lexeme, 10) <= UINT_MAX)
            && (UnsignedAccepted(lexeme, errnoOnEntry) ==> ToUnsigned(lexeme) == AutoValue(lexeme) <= Value(lexeme, 10))
  {
    AcceptsNumber(StateAt(SilasScanner, start, text, n));
    NumberState(start, text, n);
    DigitLexeme(text[..n]);
    AcceptedUnsignedFits(Lexeme(text[..n]), errnoOnEntry);
  }
}
