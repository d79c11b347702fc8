/** Which part of the Scout automaton each start condition can reach, and what follows
    for the rules, the brace depth and included files. */
module ScoutConditions {
  import opened Flex
  import opened Munch
  import opened ScoutLexer
  import Tables = ScoutScannerTables

  // The start condition whose part of the automaton a row belongs to; 0 for the jam row.
  function Part(s: int): nat {
    if s == 3 || s == 4 || 26 <= s <= 28 || 56 <= s <= 59 || s == 148 || s == 152 || s == 153 then COMMENT
    else if s == 5 || s == 6 || 29 <= s <= 31 || s == 60 || s == 149 || s == 154 then QUOTE
    else if s == 7 || s == 8 || 32 <= s <= 35 || s == 61 || s == 150 || s == 155 then BRACKET
    else if s == 147 then 0
    else INITIAL
  }

  lemma FallbackStays(s: int)
    requires IsRow(ScoutScanner, s) && s != Tables.JAM
    ensures Tables.Def(s) == Tables.JAM || Part(Tables.Def(s)) == Part(s)
  {}

  predicate Stays(i: int)
    requires 0 < i < Tables.ENTRIES
  {
    Tables.Chk(i) != Tables.JAM && Tables.Chk(i) != 0 ==>
      Tables.Nxt(i) == Tables.JAM || Part(Tables.Nxt(i)) == Part(Tables.Chk(i))
  }

  lemma EntryStays(i: int)
    requires 0 < i < Tables.ENTRIES
    ensures Stays(i)
  {
    hide Stays;
    if i < Tables.ENTRIES / 2 {
      EntryStaysLow(i);
    } else {
      EntryStaysHigh(i);
    }
  }

  lemma EntryStaysLow(i: int)
    requires 0 < i < Tables.ENTRIES / 2
    ensures Stays(i)
  {}

  lemma EntryStaysHigh(i: int)
    requires Tables.ENTRIES / 2 <= i < Tables.ENTRIES
    ensures Stays(i)
  {}

  lemma {:induction false} SuccessorStays(s: int, c: int)
    requires IsRow(ScoutScanner, s) && 0 < c < Classes(ScoutScanner)
    ensures var t := Successor(ScoutScanner, s, c); t == Tables.JAM || Part(t) == Part(s)
    decreases Rank(ScoutScanner, s)
  {
    hide Part;
    RowBounds(ScoutScanner, s);
    JamRow(ScoutScanner, c);
    EntryZero(ScoutScanner);
    var i := Tables.Base(s) + c;
    if Tables.Chk(i) == s {
      if s != Tables.JAM {
        EntryStays(i);
      }
    } else {
      FallbackFalls(ScoutScanner, s);
      FallbackStays(s);
      ClassBounds(ScoutScanner, 0, c);
      var d := Tables.Def(s);
      var c1 := if d > Tables.JAM then Tables.Meta(c) else c;
      SuccessorStays(d, c1);
      if d == Tables.JAM {
        JamStays(ScoutScanner, c1);
      }
    }
  }

  lemma {:induction false} StateStays(start: nat, text: seq<Byte>, j: nat)
    requires IsStart(ScoutScanner, start) && j <= |text|
    ensures var s := StateAt(ScoutScanner, start, text, j); s == Tables.JAM || Part(s) == start
  {
    hide Successor;
    if j > 0 {
      StateStays(start, text, j - 1);
      var b := text[j - 1];
      ClassBounds(ScoutScanner, b, 1);
      var s := StateAt(ScoutScanner, start, text, j - 1);
      SuccessorStays(s, if b == 0 then 1 else Ec(ScoutScanner, b));
    }
  }

  // The rules of a start condition.
  predicate RuleOf(start: nat, rule: nat) {
    if start == COMMENT then 4 <= rule <= 7
    else if start == QUOTE then 10 <= rule <= 12
    else if start == BRACKET then 14 <= rule <= 17
    else rule == 1 || rule == 2 || rule == 3 || rule == 8 || rule == 9 || rule == 13 || 18 <= rule <= 39
  }

  lemma AcceptedRules(s: int)
    requires IsState(ScoutScanner, s) && s != Tables.EOB_STATE && s != Tables.JAM && Tables.Accept(s) != 0
    ensures RuleOf(Part(s), Tables.Accept(s))
  {}

  lemma MatchedRule(start: nat, text: seq<Byte>, j: nat)
    requires IsStart(ScoutScanner, start) && j <= |text| && RuleAt(ScoutScanner, start, text, j) != 0
    ensures RuleOf(start, RuleAt(ScoutScanner, start, text, j))
  {
    hide Tables.Accept;
    StateStays(start, text, j);
    Accepting(ScoutScanner, Tables.JAM);
    AcceptedRules(StateAt(ScoutScanner, start, text, j));
  }

  // The brace depth is positive inside a block and zero outside.
  predicate DepthFits(l: Lexer) {
    if l.start == BRACKET then l.depth >= 1 else l.depth == 0
  }

  lemma EffectFits(l: Lexer)
    requires l.Valid() && l.rest != [] && DepthFits(l)
    ensures var e := FirstEffect(l); !e.Error? ==> DepthFits(e.l)
  {
    hide RuleAt, Longest;
    var n := MunchLength(l);
    MunchIsDefined(ScoutScanner, l.start, l.rest);
    MatchedRule(l.start, l.rest, n);
  }

  lemma {:induction false} EndFits(l: Lexer)
    requires l.Valid() && l.includer.Nobody? && DepthFits(l)
    ensures var e := End(l); e.Ended? ==> DepthFits(e.l)
    decreases |l.rest|
  {
    hide FirstEffect;
    if l.rest != [] {
      EffectFits(l);
      match FirstEffect(l)
      case Skip(l1) => EndFits(l1);
      case Emit(_, _, l1) => EndFits(l1);
      case Error =>
    }
  }

  // Every yylex call keeps the depth in step with the start condition.
  lemma {:induction false} YylexFits(l: Lexer)
    requires l.Valid() && DepthFits(l)
    ensures var o := Yylex(l); o.Read? ==> DepthFits(o.next)
    decreases if l.includer.Nobody? then 0 else 1, |l.rest|
  {
    hide FirstEffect;
    if l.rest == [] {
      if l.includer.Includer? {
        YylexFits(Return(l));
      }
    } else {
      EffectFits(l);
      match FirstEffect(l)
      case Skip(l1) => YylexFits(l1);
      case Emit(_, _, l1) =>
      case Error =>
    }
  }

  // --- Included files ---------------------------------------------------------------

  // The including file as it would be scanned had there been no include.
  function Untouched(l: Lexer): Lexer
    requires l.includer.Includer?
  {
    Return(l).(start := INITIAL, depth := 0)
  }

  // The include is transparent: the tokens of the included file, then those of the
  // including one as if it had not been interrupted.
  ghost predicate Transparent(l: Lexer)
    requires l.Valid() && l.includer.Includer?
  {
    Stream(l) == Stream(Alone(l)) + Stream(Untouched(l))
  }

  function WithRest(l: Lexer, rest: seq<Byte>): Lexer
    requires l.includer.Includer?
  {
    l.(includer := l.includer.(rest := rest))
  }

  // An included file that is scanned to its end is transparent, whatever the rest of the
  // including file, exactly if it ends in the INITIAL condition.
  lemma TransparentIff(l: Lexer)
    requires l.Valid() && l.includer.Includer? && DepthFits(l) && End(Alone(l)).Ended?
    ensures (forall rest :: Transparent(WithRest(l, rest))) <==> End(Alone(l)).l.start == INITIAL
  {
    hide Stream, End;
    var e := End(Alone(l)).l;
    if e.start == INITIAL {
      forall rest ensures Transparent(WithRest(l, rest)) {
        SpliceIsClean(WithRest(l, rest));
      }
    } else {
      var l1 := WithRest(l, [120]);
      assert Alone(l1) == Alone(l);
      Splices(l1);
      OneByte(Resumed(l1, e));
      OneByte(Untouched(l1));
      Cancels(Stream(Alone(l1)), Stream(Resumed(l1, e)), Stream(Untouched(l1)));
      assert !Transparent(l1);
    }
  }

  lemma SpliceIsClean(l: Lexer)
    requires l.Valid() && l.includer.Includer? && DepthFits(l)
    requires End(Alone(l)).Ended? && End(Alone(l)).l.start == INITIAL
    ensures Transparent(l)
  {
    Splices(l);
    EndFits(Alone(l));
  }

  // The single byte 'x' makes a different token in every start condition.
  lemma OneByte(l: Lexer)
    requires l.Valid() && l.includer.Nobody? && l.rest == [120]
    ensures l.start == INITIAL ==> Stream(l) == [Token(120, "", l.lineno)]
    ensures l.start != INITIAL ==> |Stream(l)| <= 1 && (Stream(l) != [] ==> Stream(l)[0].code > 257)
  {
    hide RuleAt, Longest;
    var n := MunchLength(l);
    assert n == 1 && l.rest[..n] == [120] && l.rest[n..] == [];
    OneByteRule(l.start);
    var e := FirstEffect(l);
    assert e == Act(RuleAt(ScoutScanner, l.start, l.rest, 1), [120], l.(rest := []));
    EmptyStream(e.l);
    if e.Skip? {
      assert Yylex(l) == Yylex(e.l) == AtEnd;
    } else {
      assert Stream(l) == [Token(e.code, e.text, e.l.lineno)] + Stream(e.l);
    }
  }

  lemma EmptyStream(l: Lexer)
    requires l.Valid() && l.includer.Nobody? && l.rest == []
    ensures Yylex(l) == AtEnd && Stream(l) == []
  {}

  lemma Cancels<T>(a: seq<T>, x: seq<T>, y: seq<T>)
    requires x != y
    ensures a + x != a + y
  {
    assert (a + x)[|a|..] == x && (a + y)[|a|..] == y;
  }

  lemma OneByteRule(start: nat)
    requires IsStart(ScoutScanner, start)
    ensures RuleAt(ScoutScanner, start, [120], 1) ==
            if start == INITIAL then 39 else if start == COMMENT then 4 else if start == QUOTE then 10 else 14
  {
    hide Successor;
    assert StateAt(ScoutScanner, start, [120], 0) == start;
    OneByteState(start);
  }

  lemma OneByteState(start: nat)
    requires IsStart(ScoutScanner, start)
    ensures Ec(ScoutScanner, 120) == 1
    ensures Successor(ScoutScanner, start, 1) ==
            if start == INITIAL then 10 else if start == COMMENT then 26 else if start == QUOTE then 29 else 32
  {
    hide Successor;
    var i := StartEntry(ScoutScanner, start, 1);
  }

  // An included file can end elsewhere: "#{" leaves a comment open, and the rest of the
  // including file is read as a part of it.
  lemma OpenComment(l: Lexer)
    requires l.start == INITIAL && l.depth == 0 && l.includer.Includer? && l.rest == [35, 123]
    ensures End(Alone(l)) == Ended(Alone(l).(start := COMMENT, rest := []))
    ensures exists rest :: !Transparent(WithRest(l, rest))
  {
    var a := Alone(l);
    CommentOpens();
    hide RuleAt, Longest;
    assert MunchLength(a) == 2 && a.rest[..2] == [35, 123] && a.rest[2..] == [];
    assert FirstEffect(a) == Skip(a.(start := COMMENT, rest := []));
    assert End(a.(start := COMMENT, rest := [])) == Ended(a.(start := COMMENT, rest := []));
    hide FirstEffect, Transparent;
    TransparentIff(l);
  }

  lemma CommentOpens()
    ensures RuleAt(ScoutScanner, INITIAL, [35, 123], 2) == 3
    ensures Longest(ScoutScanner, INITIAL, [35, 123], 2) == 2
  {
    hide Successor;
    assert StateAt(ScoutScanner, INITIAL, [35, 123], 0) == INITIAL;
    CommentStates();
    assert StateAt(ScoutScanner, INITIAL, [35, 123], 1) == 14;
    assert StateAt(ScoutScanner, INITIAL, [35, 123], 2) == 38;
  }

  lemma CommentStates()
    ensures Ec(ScoutScanner, 35) == 5 && Ec(ScoutScanner, 123) == 26
    ensures Successor(ScoutScanner, INITIAL, 5) == 14 && Successor(ScoutScanner, 14, 26) == 38
  {
    hide Successor;
    var i := StartEntry(ScoutScanner, INITIAL, 5);
    CommentBrace();
  }

  lemma CommentBrace()
    ensures Successor(ScoutScanner, 14, 26) == 38
  {}
}
