/** Tokens of the Scout language as bytes: how keywords, symbols, strings and blocks are
    written, and that the parser reads them. */
module ScoutSpelling {
  import opened Flex
  import opened Munch
  import Lexing = ScoutLexer
  import opened ScoutTokens
  import opened ScoutKeywords
  import Gaps = ScoutGaps
  import Lines = ScoutLines
  import Braces
  import opened CodeBlocks
  import opened CodeText
  import Lr
  import opened PatternRegistry
  import opened ScoutTranslator
  import Tables = ScoutScannerTables

  const NEWLINE: Byte := 10
  const QUOTATION: Byte := 34
  const PAREN_OPEN: Byte := 40
  const PAREN_CLOSE: Byte := 41
  const EQUAL: Byte := 61
  const BRACKET_OPEN: Byte := 91
  const BRACKET_CLOSE: Byte := 93

  // The scanner between two tokens.
  function Pos(inc: Lexing.Includer, line: int, rest: seq<Byte>): ValidLexer {
    Lexing.Lexer(Lexing.INITIAL, 0, line, rest, inc)
  }

  // --- Single characters -----------------------------------------------------------------

  lemma NewlineStep()
    ensures Step(ScoutScanner, 1, NEWLINE) == 12 && Step(ScoutScanner, 1, QUOTATION) == 13
    ensures Step(ScoutScanner, 5, QUOTATION) == 31
  {
    hide Successor;
    assert Ec(ScoutScanner, NEWLINE) == 3 && Ec(ScoutScanner, QUOTATION) == 4;
    var i := StartEntry(ScoutScanner, 1, 3);
    var j := StartEntry(ScoutScanner, 1, 4);
    QuoteStart(4);
  }

  // A first character that ends in a state without successors is a lexeme.
  lemma SingleMunch(start: nat, text: seq<Byte>, s: nat)
    requires IsStart(ScoutScanner, start) && text != [] && Step(ScoutScanner, start, text[0]) == s
    requires s == 12 || s == 13 || s == 31
    ensures IsMunch(ScoutScanner, start, text, 1, Tables.Accept(s))
  {
    hide Step;
    assert StateAt(ScoutScanner, start, text, 0) == start;
    assert StateAt(ScoutScanner, start, text, 1) == s;
    DeadEnds(ScoutScanner, start, text, 1);
  }

  lemma SingleEffect(start: nat, l: ValidLexer, s: nat)
    requires l.start == start && l.rest != [] && Step(ScoutScanner, start, l.rest[0]) == s
    requires s == 12 || s == 13 || s == 31
    ensures Lexing.FirstEffect(l) == Lexing.Act(Tables.Accept(s), l.rest[..1], l.(rest := l.rest[1..]))
  {
    hide Step, RuleAt, Longest, NoneLonger, Lexing.Act, Tables.Accept;
    SingleMunch(start, l.rest, s);
    MunchIsUnique(ScoutScanner, start, l.rest, 1, Tables.Accept(s));
    assert Lexing.MunchLength(l) == 1;
  }

  // A newline, skipped and counted.
  lemma NewlineSkips(inc: Lexing.Includer, line: int, more: seq<Byte>)
    ensures Lexing.Yylex(Pos(inc, line, [NEWLINE] + more)) == Lexing.Yylex(Pos(inc, line + 1, more))
  {
    NewlineStep();
    var l := Pos(inc, line, [NEWLINE] + more);
    hide Step, Lexing.FirstEffect;
    SingleEffect(1, l, 12);
    assert Lexing.FirstEffect(l) == Lexing.Skip(Pos(inc, line + 1, more));
  }

  // A quotation mark, outside of a string and at its end.
  lemma QuoteOpens(inc: Lexing.Includer, line: int, more: seq<Byte>)
    ensures var l := Pos(inc, line, [QUOTATION] + more);
            Lexing.Yylex(l) == Lexing.Read(Lexing.Token(34, "", line), l.(start := Lexing.QUOTE, rest := more))
  {
    NewlineStep();
    var l := Pos(inc, line, [QUOTATION] + more);
    hide Step, Lexing.FirstEffect;
    SingleEffect(1, l, 13);
    assert Lexing.FirstEffect(l) == Lexing.Emit(34, "", l.(start := Lexing.QUOTE, rest := more));
  }

  lemma QuoteCloses(inc: Lexing.Includer, line: int, more: seq<Byte>)
    ensures var l := Pos(inc, line, [QUOTATION] + more).(start := Lexing.QUOTE);
            Lexing.Yylex(l) == Lexing.Read(Lexing.Token(34, "", line), Pos(inc, line, more))
  {
    NewlineStep();
    var l := Pos(inc, line, [QUOTATION] + more).(start := Lexing.QUOTE);
    hide Step, Lexing.FirstEffect;
    SingleEffect(5, l, 31);
    assert Lexing.FirstEffect(l) == Lexing.Emit(34, "", Pos(inc, line, more));
  }

  // --- Tokens ----------------------------------------------------------------------------

  // The next token is of this kind, and it is followed by l1.
  predicate Delivers(l: ValidLexer, kind: int, l1: ValidLexer) {
    Peek(l) == kind && Beyond(l) == l1
  }

  predicate IsSymbol(b: Byte) {
    b == PAREN_OPEN || b == PAREN_CLOSE || b == EQUAL || b == BRACKET_OPEN || b == BRACKET_CLOSE
  }

  function SymbolKind(b: Byte): int {
    if b == PAREN_OPEN then OPENPAREN else if b == PAREN_CLOSE then CLOSEPAREN
    else if b == EQUAL then EQUALS else if b == BRACKET_OPEN then OPENBRACKET else CLOSEBRACKET
  }

  lemma SymbolIs(b: Byte)
    requires IsSymbol(b)
    ensures Plain(b) && Lr.Kind(Lr.ScoutGrammar, Lexing.CharCode(b)) == SymbolKind(b)
  {}

  lemma SymbolDelivers(b: Byte, inc: Lexing.Includer, line: int, more: seq<Byte>)
    requires IsSymbol(b)
    ensures Delivers(Pos(inc, line, [b] + more), SymbolKind(b), Pos(inc, line, more))
  {
    var l := Pos(inc, line, [b] + more);
    SymbolIs(b);
    hide Lexing.FirstEffect, Plain, Lr.Kind;
    PlainEffect(l);
    assert Lexing.FirstEffect(l) == Lexing.Emit(Lexing.CharCode(b), "", Pos(inc, line, more));
  }

  lemma KeywordKind(kind: int)
    requires IsKeywordKind(kind)
    ensures Lr.Kind(Lr.ScoutGrammar, kind + 255) == kind
  {}

  // A keyword on a new line.
  lemma KeywordDelivers(kind: int, inc: Lexing.Includer, line: int, more: seq<Byte>)
    requires IsKeywordKind(kind)
    ensures Delivers(Pos(inc, line, [NEWLINE] + (Spelling(kind) + more)), kind, Pos(inc, line + 1, more))
  {
    var l := Pos(inc, line + 1, Spelling(kind) + more);
    NewlineSkips(inc, line, Spelling(kind) + more);
    KeywordKind(kind);
    hide Lexing.FirstEffect, Spelling, Lr.Kind;
    KeywordEffect(kind, l, more);
    assert Lexing.FirstEffect(l) == Lexing.Emit(kind + 255, "", Pos(inc, line + 1, more));
  }

  // --- Strings ---------------------------------------------------------------------------

  predicate GoodString(s: seq<Byte>) {
    s != [] && forall i :: 0 <= i < |s| ==> InString(s[i])
  }

  function Quoted(s: seq<Byte>, more: seq<Byte>): seq<Byte> {
    [QUOTATION] + (s + ([QUOTATION] + more))
  }

  lemma {:induction false} LengthOfString(s: seq<Byte>, rest: seq<Byte>)
    requires (forall i :: 0 <= i < |s| ==> InString(s[i])) && rest != [] && !InString(rest[0])
    ensures StringLength(s + rest) == |s|
  {
    if s == [] {
      assert s + rest == rest;
    } else {
      LengthOfString(s[1..], rest);
      assert (s + rest)[1..] == s[1..] + rest;
    }
  }

  lemma TextDelivers(s: seq<Byte>, inc: Lexing.Includer, line: int, rest: seq<Byte>)
    requires GoodString(s) && rest != [] && !InString(rest[0])
    ensures var l := Pos(inc, line, s + rest).(start := Lexing.QUOTE);
            var l1 := Pos(inc, line, rest).(start := Lexing.QUOTE);
            Lexing.Yylex(l) == Lexing.Read(Lexing.Token(Lexing.STRING, Lexing.CString(s), line), l1)
  {
    var l := Pos(inc, line, s + rest).(start := Lexing.QUOTE);
    LengthOfString(s, rest);
    assert l.rest[..|s|] == s && l.rest[|s|..] == rest;
    hide Lexing.FirstEffect, StringLength, Lexing.CString;
    StringEffect(l);
  }

  lemma StringKinds()
    ensures Lr.Kind(Lr.ScoutGrammar, 34) == QUOTE && Lr.Kind(Lr.ScoutGrammar, Lexing.STRING) == STRING
  {}

  // A string without quotation marks and newlines is read as it stands, up to a NUL byte.
  lemma StringIs(s: seq<Byte>, inc: Lexing.Includer, line: int, more: seq<Byte>, reg: Registry)
    requires GoodString(s)
    ensures String(Progress(Pos(inc, line, Quoted(s, more)), reg)) == Got(Lexing.CString(s), Progress(Pos(inc, line, more), reg))
  {
    StringKinds();
    QuoteOpens(inc, line, s + ([QUOTATION] + more));
    TextDelivers(s, inc, line, [QUOTATION] + more);
    QuoteCloses(inc, line, more);
    hide Lexing.Yylex, Lr.Kind, Lexing.CString;
  }

  // A newline in a string is an error of the scanner.
  lemma NewlineBreaks(inc: Lexing.Includer, line: int, more: seq<Byte>)
    ensures Lexing.Yylex(Pos(inc, line, [NEWLINE] + more).(start := Lexing.QUOTE)) == Lexing.Failed
  {
    var l := Pos(inc, line, [NEWLINE] + more).(start := Lexing.QUOTE);
    hide Lexing.FirstEffect, IsMunch;
    Lines.NewlineMunch(Lexing.QUOTE, l.rest);
    Gaps.MunchEffect(l, 1, 11);
  }

  lemma NoNewlineInString(s: seq<Byte>, inc: Lexing.Includer, line: int, more: seq<Byte>, reg: Registry)
    requires forall i :: 0 <= i < |s| ==> InString(s[i])
    ensures String(Progress(Pos(inc, line, [QUOTATION] + (s + ([NEWLINE] + more))), reg)) == Failed(Rejected(reg, BadString))
  {
    StringKinds();
    var rest := [NEWLINE] + more;
    QuoteOpens(inc, line, s + rest);
    NewlineBreaks(inc, line, more);
    if s == [] {
      assert s + rest == rest;
    } else {
      TextDelivers(s, inc, line, rest);
    }
    hide Lexing.Yylex, Lr.Kind, Lexing.CString;
    BrokenString(Pos(inc, line, s + rest).(start := Lexing.QUOTE), s == [], Pos(inc, line, rest).(start := Lexing.QUOTE), reg);
  }

  // A string that is broken before or behind its text.
  lemma BrokenString(l: ValidLexer, empty: bool, l1: ValidLexer, reg: Registry)
    requires Lexing.Yylex(l1) == Lexing.Failed && (empty ==> l == l1)
    requires !empty ==> Peek(l) == STRING && Beyond(l) == l1
    ensures StringText(Progress(l, reg)) == Failed(Rejected(reg, BadString))
  {
    hide Lexing.Yylex;
  }

  // An empty string is a syntax error.
  lemma NoEmptyString(inc: Lexing.Includer, line: int, more: seq<Byte>, reg: Registry)
    ensures var o := String(Progress(Pos(inc, line, Quoted([], more)), reg)); o.Failed? && o.outcome == Rejected(reg, BadSyntax)
  {
    StringKinds();
    assert [] + ([QUOTATION] + more) == [QUOTATION] + more;
    QuoteOpens(inc, line, [QUOTATION] + more);
    QuoteCloses(inc, line, more);
    hide Lexing.Yylex, Lr.Kind;
    var at := Progress(Pos(inc, line, [QUOTATION] + more).(start := Lexing.QUOTE), reg);
    assert Next(at) == QUOTE && StringText(at) == Failed(Rejected(reg, BadSyntax));
  }

  // --- Blocks ----------------------------------------------------------------------------

  predicate GoodBlock(t: seq<Byte>) {
    t != [] && Braces.Balanced(t, 1) && !Braces.HasNul(t)
  }

  function Braced(t: seq<Byte>, more: seq<Byte>): seq<Byte> {
    [Braces.OPEN] + t + [Braces.CLOSE] + more
  }

  // The file that the scanner reads.
  function FileOf(w: World, inc: Lexing.Includer): string {
    if inc.Includer? then inc.filename else w.inpFilename
  }

  // What rules 57 and 58 make of a block.
  datatype Code = Code(text: string, reg: Registry, line: int) | NoCode(o: Outcome)

  function CodeMeans(reg: Registry, line: int, file: string, t: seq<Byte>): (c: Code)
    ensures c.NoCode? ==> c.o.Rejected?
  {
    var reg1 := reg.(codeLine := line + LeadingBlankLines(Braces.Chars(t)) - 1);
    match CodeBlock(Braces.Chars(t), line, file)
    case Block(code) => Code(code, reg1, line + Braces.Newlines(t))
    case InFirstLine => NoCode(Rejected(reg1, CodeInFirstLine))
  }

  lemma CodeIs(w: World, t: seq<Byte>, inc: Lexing.Includer, line: int, more: seq<Byte>, reg: Registry)
    requires GoodBlock(t)
    ensures CodeBlockValue(w, Progress(Pos(inc, line, Braced(t, more)), reg)) ==
            match CodeMeans(reg, line, FileOf(w, inc), t)
            case Code(code, reg1, line1) => Got(code, Progress(Pos(inc, line1, more), reg1))
            case NoCode(o) => Failed(o)
    ensures TextBlockValue(Progress(Pos(inc, line, Braced(t, more)), reg)) ==
            Got(Preprocessed(Braces.Chars(t)), Progress(Pos(inc, line + Braces.Newlines(t), more), reg))
  {
    hide Braces.Balanced, Braces.HasNul, Braces.Chars, Braces.Newlines, Preprocessed, CodeBlockValue, TextBlockValue;
    hide CodeEnd, CodeMeans;
    var at := Progress(Pos(inc, line, Braced(t, more)), reg);
    BlockEnds(w, at, t, more);
    CodeEndIs(w, t, inc, line, more, reg);
    assert Behind(at.l, t, more) == Pos(inc, line + Braces.Newlines(t), more);
    assert MarkLine(at).(l := Behind(at.l, t, more)) ==
           Progress(Pos(inc, line + Braces.Newlines(t), more), reg.(codeLine := line));
  }

  lemma CodeEndIs(w: World, t: seq<Byte>, inc: Lexing.Includer, line: int, more: seq<Byte>, reg: Registry)
    ensures CodeEnd(w, Braces.Chars(t), Progress(Pos(inc, line + Braces.Newlines(t), more), reg.(codeLine := line))) ==
            match CodeMeans(reg, line, FileOf(w, inc), t)
            case Code(code, reg1, line1) => Got(code, Progress(Pos(inc, line1, more), reg1))
            case NoCode(o) => Failed(o)
  {
    hide Braces.Chars, Braces.Newlines, CodeBlock, LeadingBlankLines;
  }
}
