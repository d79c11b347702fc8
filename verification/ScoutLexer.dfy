/** What the Scout scanner delivers, on a whole input: yylex with its start conditions,
    brace depth, line counting and one level of included files. */
module ScoutLexer {
  import opened Flex
  import opened Munch

  // yy_start for the start conditions.
  const INITIAL: nat := 1
  const COMMENT: nat := 3
  const QUOTE: nat := 5
  const BRACKET: nat := 7

  const STRING: int := 258
  const TEXT: int := 259

  // A token with lineno as it is when yylex returns; text is yylval, which only STRING
  // and TEXT set.
  datatype Token = Token(code: int, text: string, line: int)

  // The including file while an included one is read.
  datatype Includer = Nobody | Includer(filename: string, rest: seq<Byte>, line: int)

  datatype Lexer = Lexer(start: nat, depth: int, lineno: int, rest: seq<Byte>, includer: Includer) {
    ghost predicate Valid() { IsStart(ScoutScanner, start) }
  }

  // A yylex call: a token, the end of the input, or a call of yyerror.
  datatype Outcome = Read(token: Token, next: Lexer) | AtEnd | Failed

  // A char pointer assigned to a std::string: the bytes up to the first NUL.
  function CString(bytes: seq<Byte>): string {
    if bytes == [] || bytes[0] == 0 then "" else [bytes[0] as char] + CString(bytes[1..])
  }

  // yytext[0] as an int; char is signed.
  function CharCode(b: Byte): int {
    if b < 128 then b else b - 256
  }

  // The token codes of the keyword rules 18 to 38.
  function Keyword(rule: nat): int
    requires 18 <= rule <= 38
  {
    match rule
    case 18 => 260 // CALLBACKS
    case 19 => 261 // CLASS
    case 20 => 262 // CLEANUP
    case 21 => 263 // CONDITION
    case 22 => 264 // DATA
    case 23 => 265 // DESCR
    case 24 => 267 // DIAGNOSIS
    case 25 => 266 // DOCNAME
    case 26 => 268 // HIDDEN
    case 27 => 269 // INCLUDE
    case 28 => 270 // INFO
    case 29 => 271 // INIT
    case 30 => 272 // MODE
    case 31 => 273 // NAME
    case 32 => 274 // NODOCS
    case 33 => 275 // PARENT
    case 34 => 276 // PATTERN
    case 35 => 277 // PROLOG
    case 36 => 278 // STATICINIT
    case 37 => 279 // TYPE
    case _ => 280  // UNIT
  }

  // What the action of a rule does: nothing visible, a token, or yyerror.
  datatype Effect = Skip(l: Lexer) | Emit(code: int, text: string, l: Lexer) | Error

  function Act(rule: nat, lexeme: seq<Byte>, l: Lexer): Effect
    requires lexeme != []
  {
    match rule
    case 1 => Skip(l.(lineno := l.lineno + 1))
    case 3 => Skip(l.(start := COMMENT))
    case 6 => Skip(l.(lineno := l.lineno + 1))
    case 7 => Skip(l.(start := INITIAL))
    case 9 => Emit(CharCode(lexeme[0]), "", l.(start := QUOTE))
    case 10 => Emit(STRING, CString(lexeme), l)
    case 11 => Error
    case 12 => Emit(CharCode(lexeme[0]), "", l.(start := INITIAL))
    case 13 => Emit(CharCode(lexeme[0]), "", l.(start := BRACKET, depth := l.depth + 1))
    case _ => if 14 <= rule <= 17 then BracketRule(rule, lexeme, l) else OtherRule(rule, lexeme, l)
  }

  function BracketRule(rule: nat, lexeme: seq<Byte>, l: Lexer): Effect
    requires lexeme != [] && 14 <= rule <= 17
  {
    match rule
    case 14 => Emit(TEXT, CString(lexeme), l)
    case 15 => Emit(TEXT, CString(lexeme), l.(lineno := l.lineno + 1))
    case 16 => Emit(TEXT, CString(lexeme), l.(depth := l.depth + 1))
    case _ =>
      if l.depth - 1 <= 0 then Emit(CharCode(lexeme[0]), "", l.(start := INITIAL, depth := l.depth - 1))
      else Emit(TEXT, CString(lexeme), l.(depth := l.depth - 1))
  }

  function OtherRule(rule: nat, lexeme: seq<Byte>, l: Lexer): Effect
    requires lexeme != []
  {
    if 18 <= rule <= 38 then Emit(Keyword(rule), "", l)
    else if rule == 39 then Emit(CharCode(lexeme[0]), "", l)
    else Skip(l) // 2, 4, 5, 8
  }

  // The end-of-file rule: back to the including file, if there is one.
  function Return(l: Lexer): Lexer
    requires l.includer.Includer?
  {
    l.(rest := l.includer.rest, lineno := l.includer.line, includer := Nobody)
  }

  function MunchLength(l: Lexer): (n: nat)
    requires l.Valid() && l.rest != []
    ensures 0 < n <= |l.rest|
  {
    MunchIsDefined(ScoutScanner, l.start, l.rest);
    Longest(ScoutScanner, l.start, l.rest, |l.rest|)
  }

  lemma ActKeeps(rule: nat, lexeme: seq<Byte>, l: Lexer)
    requires lexeme != [] && l.Valid()
    ensures var e := Act(rule, lexeme, l);
            !e.Error? ==> e.l.Valid() && e.l.rest == l.rest && e.l.includer == l.includer
  {}

  // What the first match of a non-empty input does.
  function FirstEffect(l: Lexer): (e: Effect)
    requires l.Valid() && l.rest != []
    ensures !e.Error? ==> e.l.Valid() && |e.l.rest| < |l.rest| && e.l.includer == l.includer
  {
    var n := MunchLength(l);
    var rule := RuleAt(ScoutScanner, l.start, l.rest, n);
    ActKeeps(rule, l.rest[..n], l.(rest := l.rest[n..]));
    Act(rule, l.rest[..n], l.(rest := l.rest[n..]))
  }

  // yylex
  function Yylex(l: Lexer): (o: Outcome)
    requires l.Valid()
    ensures o.Read? ==> o.next.Valid() && Smaller(o.next, l)
    decreases if l.includer.Nobody? then 0 else 1, |l.rest|
  {
    if l.rest == [] then
      if l.includer.Nobody? then AtEnd else Yylex(Return(l))
    else
      match FirstEffect(l)
      case Skip(l1) => Yylex(l1)
      case Emit(code, text, l1) => Read(Token(code, text, l1.lineno), l1)
      case Error => Failed
  }

  predicate Smaller(a: Lexer, b: Lexer) {
    || (a.includer == b.includer && |a.rest| < |b.rest|)
    || (a.includer.Nobody? && b.includer.Includer?)
  }

  // All tokens up to the end of the input or a failure.
  function Stream(l: Lexer): seq<Token>
    requires l.Valid()
    decreases if l.includer.Nobody? then 0 else 1, |l.rest|
  {
    match Yylex(l)
    case Read(t, l1) => [t] + Stream(l1)
    case AtEnd => []
    case Failed => []
  }

  // The scanner at the end of a file read on its own, unless it fails.
  datatype Ending = Ended(l: Lexer) | Broken

  function End(l: Lexer): (e: Ending)
    requires l.Valid() && l.includer.Nobody?
    ensures e.Ended? ==> e.l.Valid() && e.l.includer.Nobody? && e.l.rest == []
    decreases |l.rest|
  {
    if l.rest == [] then Ended(l)
    else
      match FirstEffect(l)
      case Skip(l1) => End(l1)
      case Emit(_, _, l1) => End(l1)
      case Error => Broken
  }

  // include_file, when the file can be opened.
  function Include(l: Lexer, filename: string, contents: seq<Byte>): Lexer
    requires l.includer.Nobody?
  {
    l.(rest := contents, lineno := 1, includer := Includer(filename, l.rest, l.lineno))
  }

  // The same file on its own.
  function Alone(l: Lexer): Lexer {
    l.(includer := Nobody)
  }

  // After the included file: the including one goes on where it was, in the start
  // condition and at the brace depth that the included file left behind.
  function Resumed(l: Lexer, e: Lexer): Lexer
    requires l.includer.Includer?
  {
    Return(l).(start := e.start, depth := e.depth)
  }

  lemma EffectAlone(l: Lexer)
    requires l.Valid() && l.rest != []
    ensures var e, a := FirstEffect(l), FirstEffect(Alone(l));
            && e.Error? == a.Error? && e.Skip? == a.Skip?
            && (e.Skip? ==> Alone(e.l) == a.l && e.l.includer == l.includer)
            && (e.Emit? ==> e.code == a.code && e.text == a.text && Alone(e.l) == a.l && e.l.includer == l.includer)
  {
    var n := MunchLength(l);
    var rule := RuleAt(ScoutScanner, l.start, l.rest, n);
    hide RuleAt;
    assert MunchLength(Alone(l)) == n;
    ActAlone(rule, l.rest[..n], l.(rest := l.rest[n..]));
  }

  lemma ActAlone(rule: nat, lexeme: seq<Byte>, l: Lexer)
    requires lexeme != []
    ensures var e, a := Act(rule, lexeme, l), Act(rule, lexeme, Alone(l));
            && e.Error? == a.Error? && e.Skip? == a.Skip?
            && (e.Skip? ==> Alone(e.l) == a.l && e.l.includer == l.includer)
            && (e.Emit? ==> e.code == a.code && e.text == a.text && Alone(e.l) == a.l && e.l.includer == l.includer)
  {}

  // The tokens of an including file come after those of the included file, from exactly
  // the place and line where it was left.
  lemma {:induction false} Splices(l: Lexer)
    requires l.Valid() && l.includer.Includer?
    ensures match End(Alone(l))
            case Ended(e) => Stream(l) == Stream(Alone(l)) + Stream(Resumed(l, e))
            case Broken => Stream(l) == Stream(Alone(l))
    decreases |l.rest|
  {
    hide FirstEffect;
    if l.rest == [] {
      assert Stream(Alone(l)) == [];
      assert Resumed(l, Alone(l)) == Return(l);
      assert Yylex(l) == Yylex(Return(l));
    } else {
      EffectAlone(l);
      match FirstEffect(l)
      case Skip(l1) =>
        Splices(l1);
        assert Yylex(l) == Yylex(l1) && Yylex(Alone(l)) == Yylex(Alone(l1));
        assert Stream(l) == Stream(l1) && Stream(Alone(l)) == Stream(Alone(l1));
      case Emit(code, text, l1) =>
        Splices(l1);
        var t := Token(code, text, l1.lineno);
        assert Stream(l) == [t] + Stream(l1) && Stream(Alone(l)) == [t] + Stream(Alone(l1));
        if End(Alone(l)).Ended? {
          var r := Stream(Resumed(l1, End(Alone(l)).l));
          assert [t] + (Stream(Alone(l1)) + r) == ([t] + Stream(Alone(l1))) + r;
        }
      case Error =>
    }
  }
}
