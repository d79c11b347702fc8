/** Line numbers: the scanner counts the newlines of the file it reads, in every start
    condition and across included files. */
module ScoutLines {
  import opened Flex
  import opened Munch
  import opened ScoutLexer
  import Braces
  import Tables = ScoutScannerTables

  const NEWLINE: Byte := 10

  // --- Newlines in lexemes ---------------------------------------------------------------

  // The states behind a newline.
  predicate BehindNewline(s: int) {
    s == 12 || s == 27 || s == 30 || s == 33
  }

  lemma NewlineClass(b: Byte)
    ensures var c := if b == 0 then 1 else Ec(ScoutScanner, b);
            0 < c < Classes(ScoutScanner) && (c == 3 <==> b == NEWLINE)
  {}

  // Only the first rows lead behind a newline, and no entry leads back to a start state.
  lemma Targets3(i: int)
    requires 0 < i < Tables.ENTRIES
    ensures BehindNewline(Tables.Nxt(i)) ==> Tables.Chk(i) < 10
    ensures Tables.Nxt(i) == 0 || Tables.Nxt(i) >= 9
  {
    if i < Tables.ENTRIES / 2 {
      Targets3Low(i);
    } else {
      Targets3High(i);
    }
  }

  lemma Targets3Low(i: int)
    requires 0 < i < Tables.ENTRIES / 2
    ensures BehindNewline(Tables.Nxt(i)) ==> Tables.Chk(i) < 10
    ensures Tables.Nxt(i) == 0 || Tables.Nxt(i) >= 9
  {}

  lemma Targets3High(i: int)
    requires Tables.ENTRIES / 2 <= i < Tables.ENTRIES
    ensures BehindNewline(Tables.Nxt(i)) ==> Tables.Chk(i) < 10
    ensures Tables.Nxt(i) == 0 || Tables.Nxt(i) >= 9
  {}

  // The rows that states inside a lexeme use.
  predicate Inner(s: int) {
    10 <= s <= Tables.JAM || 151 <= s < Tables.ROWS
  }

  // The class of newlines in a row: that of its template for a template.
  function NewlineIn(s: int): int {
    if s >= 148 then 2 else 3
  }

  lemma LateDef(s: int)
    requires Inner(s) && s != Tables.JAM
    ensures Tables.Def(s) >= Tables.JAM && Inner(Tables.Def(s)) && Tables.Meta(3) == 2
    ensures s >= 148 ==> Tables.Def(s) == Tables.JAM
  {}

  // No row but those of the start states has an entry for newlines.
  lemma NoNewlineEntry(s: int)
    requires Inner(s) && s != Tables.JAM
    ensures Tables.Base(s) + NewlineIn(s) < Tables.ENTRIES
    ensures Tables.Chk(Tables.Base(s) + NewlineIn(s)) != s
  {
    hide Tables.Base, Tables.Chk;
    if s < 40 {
      NoNewlineEntryLow(s);
    } else if s < 90 {
      NoNewlineEntryMiddle(s);
    } else {
      NoNewlineEntryHigh(s);
    }
  }

  lemma NoNewlineEntryLow(s: int)
    requires 10 <= s < 40
    ensures Tables.Base(s) + NewlineIn(s) < Tables.ENTRIES
    ensures Tables.Chk(Tables.Base(s) + NewlineIn(s)) != s
  {}

  lemma NoNewlineEntryMiddle(s: int)
    requires 40 <= s < 90
    ensures Tables.Base(s) + NewlineIn(s) < Tables.ENTRIES
    ensures Tables.Chk(Tables.Base(s) + NewlineIn(s)) != s
  {}

  lemma NoNewlineEntryHigh(s: int)
    requires 90 <= s && Inner(s) && s != Tables.JAM
    ensures Tables.Base(s) + NewlineIn(s) < Tables.ENTRIES
    ensures Tables.Chk(Tables.Base(s) + NewlineIn(s)) != s
  {}

  // Inside a lexeme no newline follows, and what follows is not a state behind one.
  lemma {:induction false} LateRow(s: int, c: int)
    requires IsRow(ScoutScanner, s) && Inner(s) && 0 < c < Classes(ScoutScanner)
    ensures !BehindNewline(Successor(ScoutScanner, s, c))
    ensures c == NewlineIn(s) ==> Successor(ScoutScanner, s, c) == Tables.JAM
    decreases Flex.Rank(ScoutScanner, s)
  {
    hide BehindNewline, Tables.Base, Tables.Chk, Tables.Nxt, Tables.Def, Tables.Meta;
    RowBounds(ScoutScanner, s);
    JamRow(ScoutScanner, c);
    JamIsNoNewline();
    if s != Tables.JAM {
      var i := Tables.Base(s) + c;
      NoNewlineEntry(s);
      if Tables.Chk(i) == s {
        EntryZero(ScoutScanner);
        Targets3(i);
      } else {
        FallbackFalls(ScoutScanner, s);
        ClassBounds(ScoutScanner, 0, c);
        LateDef(s);
        LateRow(Tables.Def(s), if Tables.Def(s) > Tables.JAM then Tables.Meta(c) else c);
        if Tables.Def(s) == Tables.JAM {
          JamStays(ScoutScanner, c);
        }
      }
    } else {
      JamStays(ScoutScanner, c);
    }
  }

  lemma JamIsNoNewline()
    ensures !BehindNewline(Tables.JAM)
  {}

  lemma StartNewline(start: int, c: int)
    requires IsStart(ScoutScanner, start) && 0 < c < Classes(ScoutScanner)
    ensures var t := Successor(ScoutScanner, start, c);
            && t >= 10 && (BehindNewline(t) <==> c == 3)
            && (c == 3 ==> t == if start == INITIAL then 12 else if start == COMMENT then 27 else if start == QUOTE then 30 else 33)
  {
    hide Successor;
    var i := StartEntry(ScoutScanner, start, c);
  }

  // The states of a lexeme that does not start with a newline: once one comes, the
  // automaton jams.
  lemma {:induction false} LexemeState(start: nat, text: seq<Byte>, j: nat)
    requires IsStart(ScoutScanner, start) && 0 < j <= |text| && text[0] != NEWLINE
    ensures var s := StateAt(ScoutScanner, start, text, j);
            && 10 <= s <= Tables.JAM && !BehindNewline(s)
            && (s != Tables.JAM ==> forall i :: 0 <= i < j ==> text[i] != NEWLINE)
  {
    hide Successor, Ec, BehindNewline, Inner;
    var b := text[j - 1];
    NewlineClass(b);
    var c := if b == 0 then 1 else Ec(ScoutScanner, b);
    if j == 1 {
      assert StateAt(ScoutScanner, start, text, 0) == start;
      StartNewline(start, c);
    } else {
      LexemeState(start, text, j - 1);
      var s := StateAt(ScoutScanner, start, text, j - 1);
      StateIsInner(s);
      LateRow(s, c);
      SuccessorIsState(ScoutScanner, s, c);
      NeverStart(s, c);
      JamStays(ScoutScanner, c);
    }
  }

  lemma StateIsInner(s: int)
    requires 10 <= s <= Tables.JAM
    ensures Inner(s) && NewlineIn(s) == 3
  {}

  // No transition leads back to a start state.
  lemma {:induction false} NeverStart(s: int, c: int)
    requires IsRow(ScoutScanner, s) && 0 < c < Classes(ScoutScanner)
    ensures Successor(ScoutScanner, s, c) >= 10
    decreases Flex.Rank(ScoutScanner, s)
  {
    hide Tables.Base, Tables.Chk, Tables.Nxt, Tables.Def, Tables.Meta;
    RowBounds(ScoutScanner, s);
    JamRow(ScoutScanner, c);
    SuccessorIsState(ScoutScanner, s, c);
    var i := Tables.Base(s) + c;
    if Tables.Chk(i) == s {
      EntryZero(ScoutScanner);
      Targets3(i);
    } else {
      FallbackFalls(ScoutScanner, s);
      ClassBounds(ScoutScanner, 0, c);
      NeverStart(Tables.Def(s), if Tables.Def(s) > Tables.JAM then Tables.Meta(c) else c);
    }
  }

  // The rules that match a newline.
  lemma NewlineRules(s: int)
    requires 10 <= s <= Tables.JAM
    ensures var rule := Tables.Accept(s);
            rule == 1 || rule == 6 || rule == 11 || rule == 15 <==> BehindNewline(s)
  {}

  function NewlineRule(start: nat): nat {
    if start == INITIAL then 1 else if start == COMMENT then 6 else if start == QUOTE then 11 else 15
  }

  // A newline at the front is a lexeme of its own.
  lemma NewlineMunch(start: nat, text: seq<Byte>)
    requires IsStart(ScoutScanner, start) && text != [] && text[0] == NEWLINE
    ensures IsMunch(ScoutScanner, start, text, 1, NewlineRule(start))
  {
    hide Successor, Ec;
    assert StateAt(ScoutScanner, start, text, 0) == start;
    NewlineClass(NEWLINE);
    StartNewline(start, 3);
    assert StateAt(ScoutScanner, start, text, 1) == Successor(ScoutScanner, start, 3);
    DeadEnds(ScoutScanner, start, text, 1);
  }

  // --- Counting --------------------------------------------------------------------------

  // The bytes that the first match has used up.
  function UsedUp(before: seq<Byte>, after: seq<Byte>): seq<Byte>
    requires |after| <= |before|
  {
    before[..|before| - |after|]
  }

  lemma {:induction false} NoneCounted(t: seq<Byte>)
    requires forall i :: 0 <= i < |t| ==> t[i] != NEWLINE
    ensures Braces.Newlines(t) == 0
  {
    if t != [] {
      NoneCounted(t[1..]);
    }
  }

  lemma RuleCounts(rule: nat, lexeme: seq<Byte>, l: Lexer)
    requires lexeme != []
    ensures var e := Act(rule, lexeme, l);
            !e.Error? ==> e.l.lineno == l.lineno + if rule == 1 || rule == 6 || rule == 15 then 1 else 0
  {}

  // Every match counts the newlines that it uses up.
  lemma EffectCounts(l: Lexer)
    requires l.Valid() && l.rest != []
    ensures var e := FirstEffect(l);
            !e.Error? ==>
              && e.l.rest == l.rest[|l.rest| - |e.l.rest|..]
              && e.l.lineno == l.lineno + Braces.Newlines(UsedUp(l.rest, e.l.rest))
  {
    hide FirstEffect, Act, RuleAt, Longest, Braces.Newlines;
    var n := Longest(ScoutScanner, l.start, l.rest, |l.rest|);
    var rule := RuleAt(ScoutScanner, l.start, l.rest, n);
    var after := l.(rest := l.rest[n..]);
    EffectIs(l);
    RuleCounts(rule, l.rest[..n], after);
    ActKeeps(rule, l.rest[..n], after);
    LexemeCounts(l.start, l.rest, n);
    OnlyRule11(rule, l.rest[..n], after);
    assert |l.rest| - |after.rest| == n;
  }

  lemma EffectIs(l: Lexer)
    requires l.Valid() && l.rest != []
    ensures var n := Longest(ScoutScanner, l.start, l.rest, |l.rest|);
            n > 0 && FirstEffect(l) == Act(RuleAt(ScoutScanner, l.start, l.rest, n), l.rest[..n], l.(rest := l.rest[n..]))
  {
    hide Act, RuleAt, Longest;
    var n := MunchLength(l);
  }

  lemma OnlyRule11(rule: nat, lexeme: seq<Byte>, l: Lexer)
    requires lexeme != []
    ensures Act(rule, lexeme, l).Error? <==> rule == 11
  {}

  lemma LexemeCounts(start: nat, text: seq<Byte>, n: nat)
    requires IsStart(ScoutScanner, start) && text != [] && n == Longest(ScoutScanner, start, text, |text|) && n > 0
    ensures var rule := RuleAt(ScoutScanner, start, text, n);
            rule != 11 ==> Braces.Newlines(text[..n]) == if rule == 1 || rule == 6 || rule == 15 then 1 else 0
  {
    if text[0] == NEWLINE {
      NewlineMunch(start, text);
      MunchIsUnique(ScoutScanner, start, text, 1, NewlineRule(start));
      hide RuleAt, Longest;
      assert text[..1] == [NEWLINE];
      assert Braces.Newlines([NEWLINE]) == 1 + Braces.Newlines([]);
    } else {
      MunchIsDefined(ScoutScanner, start, text);
      LexemeState(start, text, n);
      hide StateAt, Longest;
      NewlineRules(StateAt(ScoutScanner, start, text, n));
      Accepting(ScoutScanner, Tables.JAM);
      NoneCounted(text[..n]);
    }
  }

  // --- Line numbers ----------------------------------------------------------------------

  // The rest of a file with the number of the line that it starts in.
  predicate Numbered(text: seq<Byte>, rest: seq<Byte>, line: int) {
    && |rest| <= |text| && rest == text[|text| - |rest|..]
    && line == 1 + Braces.Newlines(UsedUp(text, rest))
  }

  // The scanner reads a file with these contents, or one that it includes, and knows the
  // lines of both.
  ghost predicate Placed(files: map<string, seq<Byte>>, contents: seq<Byte>, l: Lexer) {
    match l.includer
    case Nobody => Numbered(contents, l.rest, l.lineno)
    case Includer(name, rest, line) =>
      name in files && Numbered(files[name], l.rest, l.lineno) && Numbered(contents, rest, line)
  }

  lemma StartPlaced(files: map<string, seq<Byte>>, contents: seq<Byte>)
    ensures forall start, depth :: Placed(files, contents, Lexer(start, depth, 1, contents, Nobody))
  {
    assert UsedUp(contents, contents) == [];
  }

  lemma IncludePlaced(files: map<string, seq<Byte>>, contents: seq<Byte>, l: Lexer, name: string)
    requires Placed(files, contents, l) && l.includer.Nobody? && name in files
    ensures Placed(files, contents, Include(l, name, files[name]))
  {
    assert UsedUp(files[name], files[name]) == [];
  }

  lemma NumberedOn(text: seq<Byte>, rest: seq<Byte>, line: int, rest1: seq<Byte>)
    requires Numbered(text, rest, line) && |rest1| <= |rest| && rest1 == rest[|rest| - |rest1|..]
    ensures Numbered(text, rest1, line + Braces.Newlines(UsedUp(rest, rest1)))
  {
    hide Braces.Newlines;
    var n := |text| - |rest|;
    var used := UsedUp(text, rest1);
    assert used[..n] == UsedUp(text, rest) && used[n..] == UsedUp(rest, rest1);
    Braces.NewlinesSplit(used, n);
  }

  lemma PlacedOn(files: map<string, seq<Byte>>, contents: seq<Byte>, l: Lexer, l1: Lexer)
    requires Placed(files, contents, l) && l1.includer == l.includer
    requires |l1.rest| <= |l.rest| && l1.rest == l.rest[|l.rest| - |l1.rest|..]
    requires l1.lineno == l.lineno + Braces.Newlines(UsedUp(l.rest, l1.rest))
    ensures Placed(files, contents, l1)
  {
    hide Numbered, Braces.Newlines, UsedUp;
    match l.includer
    case Nobody => NumberedOn(contents, l.rest, l.lineno, l1.rest);
    case Includer(name, _, _) => NumberedOn(files[name], l.rest, l.lineno, l1.rest);
  }

  // Every match, and so every yylex call, keeps the lines right.
  lemma EffectPlaced(files: map<string, seq<Byte>>, contents: seq<Byte>, l: Lexer)
    requires l.Valid() && l.rest != [] && Placed(files, contents, l)
    ensures var e := FirstEffect(l); !e.Error? ==> Placed(files, contents, e.l)
  {
    hide FirstEffect, Placed, Braces.Newlines, UsedUp;
    EffectCounts(l);
    var e := FirstEffect(l);
    if !e.Error? {
      PlacedOn(files, contents, l, e.l);
    }
  }

  lemma {:induction false} YylexPlaced(files: map<string, seq<Byte>>, contents: seq<Byte>, l: Lexer)
    requires l.Valid() && Placed(files, contents, l)
    ensures var o := Yylex(l); o.Read? ==> Placed(files, contents, o.next) && o.token.line == o.next.lineno
    decreases if l.includer.Nobody? then 0 else 1, |l.rest|
  {
    hide FirstEffect, Numbered;
    if l.rest == [] {
      if l.includer.Includer? {
        YylexPlaced(files, contents, Return(l));
      }
    } else {
      EffectPlaced(files, contents, l);
      hide Placed;
      match FirstEffect(l)
      case Skip(l1) => YylexPlaced(files, contents, l1);
      case Emit(_, _, l1) =>
      case Error =>
    }
  }

  // Wherever the scanner was in its files, it knows the lines afterwards if it did before.
  ghost predicate LinesKept(files: map<string, seq<Byte>>, l: Lexer, l1: Lexer) {
    forall contents :: Placed(files, contents, l) ==> Placed(files, contents, l1)
  }

  lemma YylexKeepsLines(files: map<string, seq<Byte>>, l: Lexer)
    requires l.Valid()
    ensures var o := Yylex(l); o.Read? ==> LinesKept(files, l, o.next)
  {
    hide Yylex, Placed;
    forall contents | Placed(files, contents, l)
      ensures var o := Yylex(l); o.Read? ==> Placed(files, contents, o.next)
    {
      YylexPlaced(files, contents, l);
    }
  }
}
