/** The bytes of the next Scout token: where it starts, when its text is empty, and which
    bytes read as the end of the input. */
module ScoutTokens {
  import Lr
  import opened Flex
  import opened Munch
  import opened ScoutLexer
  import opened ScoutConditions
  import Braces
  import Translator = ScoutTranslator

  type ValidLexer = Translator.ValidLexer

  // A byte that yytext[0] turns into a token code up to YYEOF.
  predicate Foreign(b: Byte) {
    b == 0 || b >= 128
  }

  // The scanner before the match that ends the next yylex call: behind whitespace, comments
  // and the ends of included files.
  function Skipped(l: ValidLexer): ValidLexer
    decreases if l.includer.Nobody? then 0 else 1, |l.rest|
  {
    if l.rest == [] then
      if l.includer.Nobody? then l else Skipped(Return(l))
    else
      match FirstEffect(l)
      case Skip(l1) => Skipped(l1)
      case _ => l
  }

  lemma {:induction false} SkippedDecides(l: ValidLexer)
    ensures var s := Skipped(l);
            && Yylex(l) == Yylex(s)
            && if s.rest == [] then s.includer.Nobody? && Yylex(l) == AtEnd
               else match FirstEffect(s)
                    case Skip(_) => false
                    case Emit(code, text, l1) => Yylex(l) == Read(Token(code, text, l1.lineno), l1)
                    case Error => Yylex(l) == Failed
    decreases if l.includer.Nobody? then 0 else 1, |l.rest|
  {
    hide FirstEffect;
    if l.rest == [] {
      if l.includer.Includer? {
        SkippedDecides(Return(l));
      }
    } else {
      match FirstEffect(l)
      case Skip(l1) => SkippedDecides(l1);
      case Emit(_, _, l1) =>
      case Error =>
    }
  }

  // --- Foreign bytes in each start condition ---------------------------------------------

  // A byte that no rule mentions.
  predicate Plain(b: Byte) {
    b == 0 || Ec(ScoutScanner, b) == 1
  }

  lemma ForeignPlain(b: Byte)
    ensures Foreign(b) ==> Plain(b)
  {}

  lemma PlainStep(start: nat, b: Byte)
    requires IsStart(ScoutScanner, start) && Plain(b)
    ensures Step(ScoutScanner, start, b) == Successor(ScoutScanner, start, 1)
  {
    hide Successor, Ec;
  }

  // Outside of comments, strings and blocks: a token of its own.
  lemma PlainMunch(text: seq<Byte>)
    requires text != [] && Plain(text[0])
    ensures IsMunch(ScoutScanner, INITIAL, text, 1, 39)
  {
    hide Successor, Step;
    assert StateAt(ScoutScanner, INITIAL, text, 0) == INITIAL;
    PlainStep(INITIAL, text[0]);
    var i := StartEntry(ScoutScanner, INITIAL, 1);
    assert StateAt(ScoutScanner, INITIAL, text, 1) == 10;
    DeadEnds(ScoutScanner, INITIAL, text, 1);
  }

  lemma PlainEffect(l: ValidLexer)
    requires l.start == INITIAL && l.rest != [] && Plain(l.rest[0])
    ensures FirstEffect(l) == Emit(CharCode(l.rest[0]), "", l.(rest := l.rest[1..]))
  {
    PlainMunch(l.rest);
    hide RuleAt, Longest, BracketRule;
    MunchIsUnique(ScoutScanner, INITIAL, l.rest, 1, 39);
    assert MunchLength(l) == 1;
  }

  // In a string: a part of it, up to a quotation mark or a newline.
  predicate InString(b: Byte) {
    b != 34 && b != Braces.NEWLINE
  }

  lemma StringClass(b: Byte)
    ensures var c := if b == 0 then 1 else Ec(ScoutScanner, b);
            0 < c < Classes(ScoutScanner) && (c == 3 <==> b == Braces.NEWLINE) && (c == 4 <==> b == 34)
  {}

  lemma QuoteRows(s: int, c: int)
    requires 0 < c < Classes(ScoutScanner) && (s == 29 || s == 60)
    ensures var m := Meta(ScoutScanner, c);
            && 0 < m < Classes(ScoutScanner) && Base(ScoutScanner, 154) + m < Entries(ScoutScanner)
            && Base(ScoutScanner, s) + c < Entries(ScoutScanner)
            && Chk(ScoutScanner, Base(ScoutScanner, s) + c) != s && Def(ScoutScanner, s) == 154
            && Def(ScoutScanner, 154) == 147
            && if c == 3 || c == 4 then Chk(ScoutScanner, Base(ScoutScanner, 154) + m) != 154
               else
                 && Chk(ScoutScanner, Base(ScoutScanner, 154) + m) == 154
                 && Nxt(ScoutScanner, Base(ScoutScanner, 154) + m) == 60
  {}

  lemma QuoteRun(s: int, c: int)
    requires 0 < c < Classes(ScoutScanner) && (s == 29 || s == 60)
    ensures Successor(ScoutScanner, s, c) == if c == 3 || c == 4 then 147 else 60
  {
    hide Base, Chk, Nxt, Meta, Def, Flex.Rank;
    var m := Meta(ScoutScanner, c);
    QuoteRows(s, c);
    JamStays(ScoutScanner, m);
    assert Successor(ScoutScanner, 154, m) == if c == 3 || c == 4 then 147 else 60;
  }

  lemma QuoteStart(c: int)
    requires 0 < c < Classes(ScoutScanner)
    ensures Successor(ScoutScanner, QUOTE, c) == if c == 3 then 30 else if c == 4 then 31 else 29
  {
    hide Successor;
    var i := StartEntry(ScoutScanner, QUOTE, c);
  }

  lemma {:induction false} StringState(text: seq<Byte>, j: nat)
    requires 0 < j <= |text| && forall i :: 0 <= i < j ==> InString(text[i])
    ensures StateAt(ScoutScanner, QUOTE, text, j) == if j == 1 then 29 else 60
  {
    hide Successor, Ec;
    var b := text[j - 1];
    StringClass(b);
    var c := if b == 0 then 1 else Ec(ScoutScanner, b);
    if j == 1 {
      QuoteStart(c);
      assert StateAt(ScoutScanner, QUOTE, text, 0) == QUOTE;
    } else {
      StringState(text, j - 1);
      QuoteRun(29, c);
      QuoteRun(60, c);
    }
  }

  lemma StringEnds(text: seq<Byte>, n: nat)
    requires 0 < n < |text| && !InString(text[n]) && StateAt(ScoutScanner, QUOTE, text, n) in {29, 60}
    ensures StateAt(ScoutScanner, QUOTE, text, n + 1) == 147
  {
    hide Successor, Ec;
    StringClass(text[n]);
    var c := if text[n] == 0 then 1 else Ec(ScoutScanner, text[n]);
    QuoteRun(29, c);
    QuoteRun(60, c);
  }

  // The length of the string at the front.
  function StringLength(text: seq<Byte>): (n: nat)
    ensures n <= |text| && (forall i :: 0 <= i < n ==> InString(text[i])) && (n < |text| ==> !InString(text[n]))
  {
    if text == [] || !InString(text[0]) then 0 else 1 + StringLength(text[1..])
  }

  lemma StringMunch(text: seq<Byte>)
    requires text != [] && InString(text[0])
    ensures IsMunch(ScoutScanner, QUOTE, text, StringLength(text), 10)
  {
    hide StateAt;
    var n := StringLength(text);
    StringState(text, n);
    if n < |text| {
      StringEnds(text, n);
      JammedEnds(ScoutScanner, QUOTE, text, n + 1);
    }
  }

  lemma StringEffect(l: ValidLexer)
    requires l.start == QUOTE && l.rest != [] && InString(l.rest[0])
    ensures var n := StringLength(l.rest);
            n > 0 && FirstEffect(l) == Emit(STRING, CString(l.rest[..n]), l.(rest := l.rest[n..]))
  {
    hide RuleAt, Longest, BracketRule, OtherRule, NoneLonger, StringLength;
    var n := StringLength(l.rest);
    StringMunch(l.rest);
    MunchIsUnique(ScoutScanner, QUOTE, l.rest, n, 10);
    assert MunchLength(l) == n && RuleAt(ScoutScanner, QUOTE, l.rest, n) == 10;
  }

  // In a block: a part of it.
  lemma BlockRule(text: seq<Byte>)
    requires text != [] && Foreign(text[0])
    ensures var n := Longest(ScoutScanner, BRACKET, text, |text|); n > 0 && RuleAt(ScoutScanner, BRACKET, text, n) == 14
  {
    hide RuleAt, Longest;
    Braces.BracketMunch(text);
    MunchIsUnique(ScoutScanner, BRACKET, text, Braces.RunLength(text), 14);
  }

  // What the first match is when the first byte is foreign: a token that reads as the end
  // of the input, a part of a string or block, or nothing at all in a comment.
  lemma ForeignEffect(l: ValidLexer)
    requires l.rest != [] && Foreign(l.rest[0])
    ensures var e := FirstEffect(l);
            match l.start
            case 1 => e == Emit(CharCode(l.rest[0]), "", l.(rest := l.rest[1..]))
            case 3 => e.Skip?
            case 5 => e.Emit? && e.code == STRING
            case _ => e.Emit? && e.code == TEXT
  {
    hide FirstEffect;
    if l.start == INITIAL {
      ForeignPlain(l.rest[0]);
      PlainEffect(l);
    } else if l.start == QUOTE {
      StringEffect(l);
    } else if l.start == BRACKET {
      BlockEffect(l);
    } else {
      CommentEffect(l);
    }
  }

  lemma BlockEffect(l: ValidLexer)
    requires l.start == BRACKET && l.rest != [] && Foreign(l.rest[0])
    ensures FirstEffect(l).Emit? && FirstEffect(l).code == TEXT
  {
    hide RuleAt, Longest, OtherRule;
    BlockRule(l.rest);
  }

  lemma CommentEffect(l: ValidLexer)
    requires l.start == COMMENT && l.rest != []
    ensures FirstEffect(l).Skip?
  {
    hide RuleAt, Longest, BracketRule;
    var n := MunchLength(l);
    MunchIsDefined(ScoutScanner, l.start, l.rest);
    MatchedRule(l.start, l.rest, n);
  }

  // Every other byte makes a code above YYEOF.
  lemma OtherEffect(l: ValidLexer)
    requires l.rest != [] && !Foreign(l.rest[0])
    ensures var e := FirstEffect(l); e.Emit? ==> e.code > 0
  {
    hide RuleAt, Longest;
    var n := MunchLength(l);
    OtherCode(RuleAt(ScoutScanner, l.start, l.rest, n), l.rest[..n], l.(rest := l.rest[n..]));
  }

  lemma OtherCode(rule: nat, lexeme: seq<Byte>, l: Lexer)
    requires lexeme != [] && !Foreign(lexeme[0])
    ensures var e := Act(rule, lexeme, l); e.Emit? ==> e.code > 0
  {}

  lemma KindZero(code: int)
    ensures Lr.Kind(Lr.ScoutGrammar, code) == Translator.END <==> code <= 0
    ensures Lr.Kind(Lr.ScoutGrammar, code) == Translator.STRING <==> code == STRING
    ensures Lr.Kind(Lr.ScoutGrammar, code) == Translator.TEXT <==> code == TEXT
    ensures Lr.Kind(Lr.ScoutGrammar, code) >= 0
  {}

  // The parser sees the end of the input at the end of the files, and where a token would
  // start with a foreign byte outside of strings and blocks.
  lemma EndIff(l: ValidLexer)
    ensures Translator.Peek(l) == Translator.END <==>
            var s := Skipped(l); s.rest == [] || (s.start == INITIAL && Foreign(s.rest[0]))
    ensures Yylex(l) == AtEnd <==> Skipped(l).rest == []
  {
    hide FirstEffect, Yylex;
    SkippedDecides(l);
    var s := Skipped(l);
    if s.rest != [] {
      if Foreign(s.rest[0]) {
        ForeignEffect(s);
      } else {
        OtherEffect(s);
      }
      if FirstEffect(s).Emit? {
        KindZero(FirstEffect(s).code);
      }
    }
  }

  // --- Empty strings ---------------------------------------------------------------------

  lemma StringRule(rule: nat, lexeme: seq<Byte>, l: Lexer)
    requires lexeme != []
    ensures var e := Act(rule, lexeme, l);
            e.Emit? && e.code == STRING ==> (e.text == "" <==> lexeme[0] == 0)
  {}

  // The text of a string is empty exactly if its first byte is NUL.
  lemma EmptyIff(l: ValidLexer)
    requires Translator.Peek(l) == Translator.STRING
    ensures Skipped(l).rest != [] && (Translator.Lexeme(l) == "" <==> Skipped(l).rest[0] == 0)
  {
    hide Yylex, Longest, RuleAt;
    SkippedDecides(l);
    var s := Skipped(l);
    if s.rest != [] && FirstEffect(s).Emit? {
      KindZero(FirstEffect(s).code);
      var n := MunchLength(s);
      StringRule(RuleAt(ScoutScanner, s.start, s.rest, n), s.rest[..n], s.(rest := s.rest[n..]));
    }
  }
}
