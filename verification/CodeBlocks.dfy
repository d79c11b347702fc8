/** Code blocks from the description file to the generated source: the scanner, the parser
    and preprocessText together. */
module CodeBlocks {
  import opened Lr
  import opened Flex
  import Lexing = ScoutLexer
  import Lines = ScoutLines
  import opened Braces
  import opened CodeText
  import opened CodeLines
  import opened PatternRegistry
  import opened ScoutTranslator

  // The kinds of the tokens that the BRACKET rules deliver.
  lemma BlockTokens(l: ValidLexer)
    ensures match Lexing.Yylex(l)
            case Read(t, next) =>
              && (t.code == Lexing.TEXT <==> Peek(l) == TEXT)
              && (t.code == CLOSE ==> Peek(l) == CLOSEBRACE)
              && (t.code == OPEN ==> Peek(l) == OPENBRACE)
              && Lexeme(l) == t.text && Beyond(l) == next
            case AtEnd => Peek(l) == END
            case Failed => Peek(l) == BROKEN
  {
    hide Lexing.Yylex;
  }

  // The parser joins the TEXT tokens up to the closing brace.
  lemma {:induction false} JoinsTexts(w: World, acc: string, at: Progress, code: string, after: Lexing.Lexer)
    requires Texts(at.l) == Run(code, Texts(at.l).stop)
    requires Texts(at.l).stop.Read? && Texts(at.l).stop.token.code == CLOSE && Texts(at.l).stop.next == after && after.Valid()
    ensures CodeTextMore(w, acc, at) == CodeEnd(w, acc + code, at.(l := after))
    decreases Outer(at.l), Phase(at.l), Inner(at.l)
  {
    hide Lexing.Yylex, Peek, Lexeme, Beyond, CodeEnd, Outer, Phase, Inner;
    BlockTokens(at.l);
    match Lexing.Yylex(at.l)
    case Read(t, next) =>
      if t.code == Lexing.TEXT {
        var r := Texts(next);
        JoinsTexts(w, acc + t.text, Skip(at), r.text, after);
        assert (acc + t.text) + r.text == acc + (t.text + r.text);
      } else {
        assert code == "" && acc + code == acc;
      }
    case AtEnd =>
    case Failed =>
  }

  // A code block {T} in a description file, for any text T with balanced braces and
  // without NUL bytes: the parser reads all of it, and gives the block the value that
  // CodeBlock says for the text T and the line of the opening brace. It goes on behind
  // the closing brace, in the line where that is.
  lemma BlockValue(w: World, at: Progress, t: seq<Byte>, more: seq<Byte>)
    requires at.l.start == Lexing.INITIAL && at.l.depth == 0 && at.l.rest == [OPEN] + t + [CLOSE] + more
    requires Balanced(t, 1) && !HasNul(t) && t != []
    ensures var line := at.l.lineno;
            var after := at.l.(lineno := line + Braces.Newlines(t), rest := more);
            match CodeBlock(Chars(t), line, FileName(w, at.l))
            case Block(code) =>
              && CodeBlockValue(w, at).Got? && CodeBlockValue(w, at).value == code && CodeBlockValue(w, at).at.l == after
            case InFirstLine => CodeBlockValue(w, at).Failed? && CodeBlockValue(w, at).outcome.Rejected?
                                && CodeBlockValue(w, at).outcome.why == CodeInFirstLine
  {
    hide Balanced, HasNul, CodeBlockValue, CodeBlock, Preprocessed, LeadingBlankLines;
    BlockEnds(w, at, t, more);
  }

  // Where the scanner is behind a block.
  function Behind(l: ValidLexer, t: seq<Byte>, more: seq<Byte>): ValidLexer {
    l.(lineno := l.lineno + Braces.Newlines(t), rest := more)
  }

  lemma BlockEnds(w: World, at: Progress, t: seq<Byte>, more: seq<Byte>)
    requires at.l.start == Lexing.INITIAL && at.l.depth == 0 && at.l.rest == [OPEN] + t + [CLOSE] + more
    requires Balanced(t, 1) && !HasNul(t) && t != []
    ensures CodeBlockValue(w, at) == CodeEnd(w, Chars(t), MarkLine(at).(l := Behind(at.l, t, more)))
    ensures TextBlockValue(at) == Got(Preprocessed(Chars(t)), at.(l := Behind(at.l, t, more)))
  {
    BraceRoundTrip(at.l, t, more);
    var after := Behind(at.l, t, more);
    var inside := at.l.(start := Lexing.BRACKET, depth := 1, rest := at.l.rest[1..]);
    hide Lexing.Yylex, Texts, Peek, Lexeme, Beyond, Chars, Balanced, HasNul, Braces.Newlines, CodeBlock, Preprocessed;
    BlockTokens(at.l);
    assert Expect(at, OPENBRACE) == Got(Text(at), at.(l := inside));
    var at1 := MarkLine(at.(l := inside));
    TextFirst(t, inside);
    AfterOpen(w, at1, Chars(t), after);
    AfterOpenText(at.(l := inside), Chars(t), after);
  }

  // A block that is not empty starts with a TEXT token.
  lemma TextFirst(t: seq<Byte>, l: ValidLexer)
    requires Texts(l).text == Chars(t) && t != []
    ensures Peek(l) == TEXT
  {
    hide Lexing.Yylex, Peek;
    BlockTokens(l);
  }

  lemma AfterOpen(w: World, at: Progress, code: string, after: ValidLexer)
    requires Texts(at.l).text == code && Peek(at.l) == TEXT
    requires Texts(at.l).stop.Read? && Texts(at.l).stop.token.code == CLOSE && Texts(at.l).stop.next == after
    ensures CodeText0(w, at) == CodeEnd(w, code, at.(l := after))
  {
    hide Lexing.Yylex, Peek, Lexeme, Beyond, CodeEnd;
    BlockTokens(at.l);
    var r := Texts(Beyond(at.l));
    JoinsTexts(w, Lexeme(at.l), Skip(at), r.text, after);
  }

  // The same for a text block.
  lemma {:induction false} JoinsPlainTexts(acc: string, at: Progress, code: string, after: Lexing.Lexer)
    requires Texts(at.l) == Run(code, Texts(at.l).stop)
    requires Texts(at.l).stop.Read? && Texts(at.l).stop.token.code == CLOSE && Texts(at.l).stop.next == after && after.Valid()
    ensures BlockTextMore(acc, at) == Got(Preprocessed(acc + code), at.(l := after))
    decreases Outer(at.l), Phase(at.l), Inner(at.l)
  {
    hide Lexing.Yylex, Peek, Lexeme, Beyond, Preprocessed, Outer, Phase, Inner;
    BlockTokens(at.l);
    match Lexing.Yylex(at.l)
    case Read(t, next) =>
      if t.code == Lexing.TEXT {
        var r := Texts(next);
        JoinsPlainTexts(acc + t.text, Skip(at), r.text, after);
        assert (acc + t.text) + r.text == acc + (t.text + r.text);
      } else {
        assert code == "" && acc + code == acc;
      }
    case AtEnd =>
    case Failed =>
  }

  lemma AfterOpenText(at: Progress, code: string, after: ValidLexer)
    requires Texts(at.l).text == code && Peek(at.l) == TEXT
    requires Texts(at.l).stop.Read? && Texts(at.l).stop.token.code == CLOSE && Texts(at.l).stop.next == after
    ensures BlockText0(at) == Got(Preprocessed(code), at.(l := after))
  {
    hide Lexing.Yylex, Peek, Lexeme, Beyond, Preprocessed;
    BlockTokens(at.l);
    var r := Texts(Beyond(at.l));
    JoinsPlainTexts(Lexeme(at.l), Skip(at), r.text, after);
  }

  // Every character of the block that is no whitespace gets from the #line directive the
  // number of the line that it has in its file, and the name of that file: the included one
  // while one is read.
  lemma BlockLines(w: World, at: Progress, t: seq<Byte>, more: seq<Byte>)
    requires at.l.start == Lexing.INITIAL && at.l.depth == 0 && at.l.rest == [OPEN] + t + [CLOSE] + more
    requires Balanced(t, 1) && !HasNul(t) && t != []
    requires '\n' !in FileName(w, at.l) && at.l.lineno >= 1
    ensures CodeBlockValue(w, at).Got? ==> PresumedMarks(CodeBlockValue(w, at).value) == Marks(Chars(t), at.l.lineno)
    ensures CodeBlockValue(w, at).Got? <==> at.l.lineno > 1 || BlankLine(Chars(t)[..LineLength(Chars(t))])
    ensures var name := if at.l.includer.Includer? then at.l.includer.filename else w.inpFilename;
            CodeBlockValue(w, at).Got? && '"' !in name ==> PresumedFile(CodeBlockValue(w, at).value) == name
  {
    hide CodeBlock, PresumedMarks, PresumedFile, Marks, CodeBlockValue, Balanced, HasNul, BlankLine, LineLength, Chars;
    BlockValue(w, at, t, more);
    LinesExact(Chars(t), at.l.lineno, FileName(w, at.l));
  }

  // The file that is being read.
  function Reading(w: World, contents: seq<Byte>, l: ValidLexer): seq<Byte>
    requires Lines.Placed(w.files, contents, l)
  {
    if l.includer.Includer? then w.files[l.includer.filename] else contents
  }

  // The same with the place of the block in its file: lines are counted from the start of
  // the file, in whatever strings, blocks and comments the newlines before it are.
  lemma BlockInFile(w: World, contents: seq<Byte>, at: Progress, t: seq<Byte>, more: seq<Byte>)
    requires at.l.start == Lexing.INITIAL && at.l.depth == 0 && at.l.rest == [OPEN] + t + [CLOSE] + more
    requires Balanced(t, 1) && !HasNul(t) && t != []
    requires '\n' !in FileName(w, at.l) && Lines.Placed(w.files, contents, at.l)
    ensures var text := Reading(w, contents, at.l);
            && |text| >= |at.l.rest| && text[|text| - |at.l.rest|..] == at.l.rest
            && (CodeBlockValue(w, at).Got? ==>
                  PresumedMarks(CodeBlockValue(w, at).value) ==
                  Marks(Chars(t), 1 + Braces.Newlines(text[..|text| - |at.l.rest|])))
  {
    hide PresumedMarks, Marks, CodeBlockValue, Balanced, HasNul, Chars, Braces.Newlines;
    BlockLines(w, at, t, more);
  }
}
