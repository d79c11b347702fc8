/** The tokens that the Scout parser reads: those of the description file, with the tokens of
    an included file right behind the closing quote of its name. */
module ScoutReading {
  import opened Lr
  import opened LrStack
  import Lexing = ScoutLexer
  import opened ScoutTables
  import opened ScoutTranslator
  import opened ScoutAutomaton
  import opened ScoutMeaning
  import opened ScoutDerivation

  // A token that has been read.
  datatype Word = Word(kind: int, text: string)

  function Kinds(words: seq<Word>): (kinds: seq<int>)
    ensures |kinds| == |words| && forall i :: 0 <= i < |words| ==> kinds[i] == words[i].kind
  {
    seq(|words|, i requires 0 <= i < |words| => words[i].kind)
  }

  // The kind of a token, counted from the last one; -2 before the first one.
  function Back(words: seq<Word>, i: nat): int {
    if i < |words| then words[|words| - 1 - i].kind else -2
  }

  // The last tokens name a file to be included.
  predicate NamesFile(words: seq<Word>) {
    |words| >= 4 && Back(words, 3) == INCLUDE && Back(words, 2) == QUOTE && Back(words, 1) == STRING && Back(words, 0) == QUOTE
  }

  // The scanner after an included file has been opened, if that is possible.
  function OpenedFile(w: World, name: string, l: ValidLexer): ValidLexer {
    if l.includer.Nobody? && name != "" && name in w.files then Lexing.Include(l, name, w.files[name]) else l
  }

  // The scanner behind these tokens, from l on: each one is taken from the scanner, and a
  // file is opened exactly behind its name.
  function Place(w: World, l: ValidLexer, words: seq<Word>): ValidLexer
    decreases |words|
  {
    if words == [] then l
    else
      var l1 := Beyond(Place(w, l, words[..|words| - 1]));
      if NamesFile(words) then OpenedFile(w, words[|words| - 2].text, l1) else l1
  }

  // These are the next tokens from l on.
  predicate Reads(w: World, l: ValidLexer, words: seq<Word>)
    decreases |words|
  {
    words == [] ||
    var before := words[..|words| - 1];
    var l1 := Place(w, l, before);
    Reads(w, l, before) && Peek(l1) > 0 && words[|words| - 1] == Word(Peek(l1), Lexeme(l1))
  }

  // --- What the stack knows about the last tokens ---------------------------------------

  // A file has been named and is not yet open.
  predicate Pending(k: Stack) {
    Top(k) == 11 || (Top(k) == 20 && Top(Below(Below(Below(k)))) == 1)
  }

  predicate Tailed(k: Stack, words: seq<Word>) {
    && (Back(words, 0) == INCLUDE <==> Top(k) == 1)
    && (Back(words, 0) == STRING <==> Top(k) == 17)
    && (Top(k) == 10 ==> Back(words, 0) == QUOTE && (Back(words, 1) == INCLUDE <==> Top(Below(k)) == 1))
    && (Top(k) == 17 ==>
          && Back(words, 1) == QUOTE && (Back(words, 2) == INCLUDE <==> Top(Below(Below(k))) == 1)
          && words != [] && words[|words| - 1].text == Val(k))
    && (Top(k) == 20 ==>
          && (NamesFile(words) <==> Top(Below(Below(Below(k)))) == 1)
          && |words| > 1 && words[|words| - 2].text == Val(Below(k)))
    && (Top(k) == 11 ==> NamesFile(words) && words[|words| - 2].text == Val(k))
  }

  // The parser with stack k has read these tokens and stands at front.
  predicate Stands(w: World, start: ValidLexer, k: Stack, words: seq<Word>, front: ValidLexer) {
    && Reads(w, start, words) && Tailed(k, words)
    && if Pending(k) then words != [] && front == Beyond(Place(w, start, words[..|words| - 1]))
       else front == Place(w, start, words)
  }

  lemma BackOne(words: seq<Word>, x: Word, i: nat)
    ensures Back(words + [x], 0) == x.kind
    ensures Back(words + [x], i + 1) == Back(words, i)
  {}

  // The states entered by the tokens that matter here.
  lemma StringStates(s: int, k: int, t: int)
    requires Shifts(s, k, t)
    ensures (k == INCLUDE <==> t == 1) && (k == STRING <==> t == 17)
    ensures k == QUOTE <==> t == 10 || t == 20
    ensures t == 20 ==> s == 17
    ensures t == 10 ==> s != 17
    ensures t == 17 ==> s == 10
    ensures s != 20 && s != 11 && t != 11
  {
    hide StringBase, CodeBase, TextBase;
    if ItemShifts(s, k, t) {
    } else if PartShifts(s, k, t) {
    } else if SignShifts(s, k, t) {
    } else if k == QUOTE {
      BaseOfString(s);
    } else if k == OPENBRACE {
      BaseOfBlock(s);
    }
  }

  lemma BaseOfString(s: int)
    ensures StringBase(s) ==> s != 17 && s != 20 && s != 11
  {}

  lemma BaseOfBlock(s: int)
    ensures CodeBase(s) || TextBase(s) ==> s != 17 && s != 20 && s != 11 && s != 10
  {}

  // Reading one token more.
  lemma OneMore(w: World, start: ValidLexer, words: seq<Word>)
    requires Reads(w, start, words) && Peek(Place(w, start, words)) > 0
    ensures var l := Place(w, start, words);
            var words1 := words + [Word(Peek(l), Lexeme(l))];
            && Reads(w, start, words1) && words1[..|words1| - 1] == words
            && Place(w, start, words1) ==
               if NamesFile(words1) then OpenedFile(w, words1[|words1| - 2].text, Beyond(l)) else Beyond(l)
  {
    var l := Place(w, start, words);
    var words1 := words + [Word(Peek(l), Lexeme(l))];
    assert words1[..|words1| - 1] == words;
    hide Peek, Lexeme, Beyond, NamesFile, OpenedFile;
  }

  lemma ShiftReads(w: World, start: ValidLexer, k: Stack, words: seq<Word>, front: ValidLexer, t: int, v: string)
    requires Stands(w, start, k, words, front) && Shifts(Top(k), Peek(front), t) && Peek(front) > 0
    requires t == 17 ==> v == Lexeme(front)
    ensures Stands(w, start, Push(k, t, v), words + [Word(Peek(front), Lexeme(front))], Beyond(front))
  {
    StringStates(Top(k), Peek(front), t);
    hide Reads, Place, Peek, Lexeme, Beyond, OpenedFile, Shifts;
    assert !Pending(k);
    OneMore(w, start, words);
    var x := Word(Peek(front), Lexeme(front));
    BackOne(words, x, 0);
    BackOne(words, x, 1);
    BackOne(words, x, 2);
    ShiftTailed(k, words, x, t, v);
  }

  lemma ShiftTailed(k: Stack, words: seq<Word>, x: Word, t: int, v: string)
    requires Tailed(k, words) && Shifts(Top(k), x.kind, t) && (t == 17 ==> v == x.text)
    ensures Tailed(Push(k, t, v), words + [x])
    ensures t != 20 ==> !NamesFile(words + [x])
    ensures t == 20 ==> (NamesFile(words + [x]) <==> Pending(Push(k, t, v)))
  {
    StringStates(Top(k), x.kind, t);
    hide Shifts;
    BackOne(words, x, 0);
    BackOne(words, x, 1);
    BackOne(words, x, 2);
  }

  // The states entered by reductions.
  lemma ReduceStates(k: Stack, r: int)
    requires Linked(k) && 1 < r <= RULES && Reduces(Top(k), r) && Steps(k, r)
    ensures var g := Target(Top(Pop(k, R2(r))), r);
            && g != 1 && g != 17 && g != 10 && g != 20
            && (g == 11 <==> r == 56 && Top(Pop(k, R2(r))) == 1)
    ensures Top(k) != 1 && Top(k) != 17 && (Top(k) == 20 <==> r == 56) && (Top(k) == 11 <==> r == 8)
    ensures r == 56 ==> R2(r) == 3
  {
    hide Linked, Pop;
    ReduceSource(Top(k), r);
    ReduceGoal(Top(Pop(k, R2(r))), r);
  }

  lemma ReduceSource(s: int, r: int)
    requires 1 < r <= RULES && Reduces(s, r)
    ensures s != 1 && s != 17 && (s == 20 <==> r == 56) && (s == 11 <==> r == 8)
    ensures r == 56 ==> R2(r) == 3
  {}

  lemma ReduceGoal(b: int, r: int)
    requires 1 < r <= RULES && Gotos(b, r, Target(b, r))
    ensures var g := Target(b, r);
            && g != 1 && g != 17 && g != 10 && g != 20 && (g == 11 <==> r == 56 && b == 1)
  {}

  // A reduction reads nothing; rule 8 opens the file that has just been named.
  lemma ReduceReads(w: World, start: ValidLexer, k: Stack, words: seq<Word>, front: ValidLexer, r: int, v: string)
    requires Stands(w, start, k, words, front)
    requires Linked(k) && 1 < r <= RULES && Reduces(Top(k), r) && Steps(k, r) && (r == 56 ==> v == Val(Below(k)))
    ensures var b := Pop(k, R2(r));
            var front1 := if r == 8 then OpenedFile(w, Val(k), front) else front;
            Stands(w, start, Push(b, Target(Top(b), r), v), words, front1)
  {
    ReduceStates(k, r);
    hide Reads, Peek, Lexeme, Beyond, OpenedFile, Linked, Reduces, Steps, R2, Target;
    if r == 56 {
      assert Pop(k, 3) == Below(Below(Below(k)));
    }
  }

  // The whole input has been read, and the reductions derive it.
  predicate ReadToEnd(w: World, start: ValidLexer, words: seq<Word>, rules: seq<int>) {
    && Reads(w, start, words) && Peek(Place(w, start, words)) == END
    && Derives(rules, [FILE, END], Kinds(words) + [END])
  }

  lemma MoreKinds(words: seq<Word>, x: Word)
    ensures Kinds(words + [x]) == Kinds(words) + [x.kind]
  {}

  lemma EndReads(w: World, start: ValidLexer, k: Stack, words: seq<Word>, front: ValidLexer, rules: seq<int>, v: string)
    requires Stands(w, start, k, words, front) && Top(k) == 4 && Peek(front) == END && Linked(k)
    requires Derives(rules, Symbols(Push(k, FINAL, v)), Kinds(words) + [END])
    ensures ReadToEnd(w, start, words, rules)
  {
    assert Follows(4, FINAL);
    assert Linked(Push(k, FINAL, v));
    FinalSymbols(Push(k, FINAL, v));
  }

  // --- The whole run ---------------------------------------------------------------------

  // What has been read from start on is the input up to front, and the symbols on the stack
  // derive it.
  ghost predicate Tracks(w: World, start: Lexing.Lexer, k: Stack, words: seq<Word>, rules: seq<int>, front: Lexing.Lexer) {
    && start.Valid() && front.Valid()
    && if Top(k) == FINAL then ReadToEnd(w, start, words, rules)
       else Stands(w, start, k, words, front) && Derives(rules, Symbols(k), Kinds(words))
  }

  // Reducing by rule r moves the scanner only where a file is opened.
  ghost predicate Moved(w: World, k: Stack, r: int, before: Lexing.Lexer, after: Lexing.Lexer) {
    before.Valid() && after.Valid() && after == if r == 8 then OpenedFile(w, Val(k), before) else before
  }

  lemma Peeked(l: ValidLexer)
    ensures 0 <= Peek(l) < NTOKENS || Peek(l) == BROKEN
  {
    hide Lexing.Yylex;
    match Lexing.Yylex(l)
    case Read(t, _) => KindRange(t.code);
    case AtEnd =>
    case Failed =>
  }

  lemma KindRange(code: int)
    ensures 0 <= Kind(ScoutGrammar, code) < NTOKENS
  {}

  lemma TracksStart(w: World, l: ValidLexer)
    ensures Tracks(w, l, Bottom, [], [], l)
  {}

  lemma TracksShift(w: World, start: Lexing.Lexer, k: Stack, words: seq<Word>, rules: seq<int>, front: ValidLexer, t: int, v: string)
    requires Tracks(w, start, k, words, rules, front) && Shifts(Top(k), Peek(front), t) && Peek(front) > 0
    requires Top(k) != FINAL && t != FINAL && Linked(k) && Follows(Top(k), t)
    requires t == 17 ==> v == Lexeme(front)
    ensures Tracks(w, start, Push(k, t, v), words + [Word(Peek(front), Lexeme(front))], rules, Beyond(front))
  {
    hide Stands, Derives, Shifts, Peek, Lexeme, Beyond, Symbols, Linked, Follows;
    var x := Word(Peek(front), Lexeme(front));
    Peeked(front);
    ShiftReads(w, start, k, words, front, t, v);
    ShiftDerives(rules, k, Kinds(words), Peek(front), t, v);
    MoreKinds(words, x);
  }

  lemma TracksEnd(w: World, start: Lexing.Lexer, k: Stack, words: seq<Word>, rules: seq<int>, front: ValidLexer, v: string, after: ValidLexer)
    requires Tracks(w, start, k, words, rules, front) && Top(k) == 4 && Peek(front) == END && Linked(k)
    ensures Tracks(w, start, Push(k, FINAL, v), words, rules, after)
  {
    hide Stands, Derives, Peek, Lexeme, Beyond, Symbols, Linked, ReadToEnd;
    EndShifts();
    ShiftDerives(rules, k, Kinds(words), END, FINAL, v);
    EndReads(w, start, k, words, front, rules, v);
  }

  lemma EndShifts()
    ensures Shifts(4, END, FINAL) && Follows(4, FINAL)
  {}

  // The stack k1 is k, reduced by rule r.
  predicate Reduced(k: Stack, r: int, k1: Stack)
    requires 0 <= r <= RULES
  {
    && Steps(k, r) && k1.Push? && k1.below == Pop(k, R2(r)) && k1.top == Target(Top(k1.below), r)
    && (r == 56 ==> k1.val == Val(Below(k)))
  }

  lemma ReducedTo(k: Stack, r: int, v: string)
    requires 0 <= r <= RULES && Steps(k, r) && (r == 56 ==> v == Val(Below(k)))
    ensures var b := Pop(k, R2(r)); Reduced(k, r, Push(b, Target(Top(b), r), v))
  {}

  lemma TracksReduce(w: World, start: Lexing.Lexer, k: Stack, words: seq<Word>, rules: seq<int>, front: Lexing.Lexer, r: int, k1: Stack, after: Lexing.Lexer)
    requires Tracks(w, start, k, words, rules, front) && Top(k) != FINAL && Moved(w, k, r, front, after)
    requires Linked(k) && 1 < r <= RULES && Reduces(Top(k), r) && Reduced(k, r, k1)
    ensures Tracks(w, start, k1, words, [r] + rules, after)
  {
    hide Stands, Derives, OpenedFile, Symbols, Linked, Reduces, R2, Target, Pop, Gotos;
    ReduceReads(w, start, k, words, front, r, k1.val);
    ReduceDerives(rules, k, Kinds(words), r, k1.val);
    NotFinal(Top(Pop(k, R2(r))), r);
  }

  lemma NotFinal(b: int, r: int)
    requires 1 < r <= RULES && Gotos(b, r, Target(b, r))
    ensures Target(b, r) != FINAL
  {}

  // The input determines what is read.
  lemma {:induction false} ReadsSame(w: World, l: ValidLexer, a: seq<Word>, b: seq<Word>)
    requires Reads(w, l, a) && Reads(w, l, b) && |a| <= |b|
    ensures a == b[..|a|]
    decreases |b|
  {
    hide Place, Peek, Lexeme;
    if b != [] {
      var n := |b| - 1;
      if |a| < |b| {
        ReadsSame(w, l, a, b[..n]);
        assert b[..n][..|a|] == b[..|a|];
      } else {
        ReadsSame(w, l, a[..n], b[..n]);
        assert a == a[..n] + [a[n]] && b == b[..n] + [b[n]] && b[..n][..n] == b[..n];
      }
    }
  }

  lemma BeforeLast(w: World, l: ValidLexer, b: seq<Word>, n: nat)
    requires Reads(w, l, b) && n < |b|
    ensures Peek(Place(w, l, b[..n])) > 0
    decreases |b|
  {
    hide Place, Peek, Lexeme;
    if n < |b| - 1 {
      BeforeLast(w, l, b[..|b| - 1], n);
      assert b[..|b| - 1][..n] == b[..n];
    }
  }

  lemma ReadToEndSame(w: World, l: ValidLexer, a: seq<Word>, b: seq<Word>)
    requires Reads(w, l, a) && Peek(Place(w, l, a)) == END
    requires Reads(w, l, b) && Peek(Place(w, l, b)) == END
    ensures a == b
  {
    hide Place, Peek, Reads;
    if |a| <= |b| {
      ReadsSame(w, l, a, b);
      if |a| < |b| {
        BeforeLast(w, l, b, |a|);
      }
    } else {
      ReadsSame(w, l, b, a);
      BeforeLast(w, l, a, |b|);
    }
  }
}
