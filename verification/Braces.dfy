/** Text blocks in braces: what the BRACKET rules make of a block, and when its text
    comes through unchanged. */
module Braces {
  import opened Flex
  import opened Munch
  import opened ScoutLexer
  import opened ScoutConditions

  const NEWLINE: Byte := 10
  const OPEN: Byte := 123
  const CLOSE: Byte := 125

  predicate Ordinary(b: Byte) {
    b != NEWLINE && b != OPEN && b != CLOSE
  }

  // The text t inside a block at depth d never closes the block, and ends at depth 1.
  predicate Balanced(t: seq<Byte>, d: int) {
    d >= 1 && if t == [] then d == 1 else Balanced(t[1..], Deeper(t[0], d))
  }

  function Deeper(b: Byte, d: int): int {
    if b == OPEN then d + 1 else if b == CLOSE then d - 1 else d
  }

  function Newlines(t: seq<Byte>): nat {
    if t == [] then 0 else (if t[0] == NEWLINE then 1 else 0) + Newlines(t[1..])
  }

  // The number of ordinary bytes at the front.
  function RunLength(t: seq<Byte>): (n: nat)
    ensures n <= |t| && (forall i :: 0 <= i < n ==> Ordinary(t[i])) && (n < |t| ==> !Ordinary(t[n]))
  {
    if t == [] || !Ordinary(t[0]) then 0 else 1 + RunLength(t[1..])
  }

  // --- The automaton in the BRACKET condition ------------------------------------------

  // A run of ordinary bytes stays in one state; anything else ends it.
  lemma BracketSteps(b: Byte)
    ensures Step(ScoutScanner, 7, b) ==
            if b == NEWLINE then 33 else if b == OPEN then 34 else if b == CLOSE then 35 else 32
    ensures Ordinary(b) ==> Step(ScoutScanner, 32, b) == 61 && Step(ScoutScanner, 61, b) == 61
    ensures !Ordinary(b) ==> Step(ScoutScanner, 32, b) == 147 && Step(ScoutScanner, 61, b) == 147
    ensures b == 0 || Ec(ScoutScanner, b) > 0
  {
    BracketClass(b);
    var c := if b == 0 then 1 else Ec(ScoutScanner, b);
    BracketStart(c);
    BracketRun(32, c);
    BracketRun(61, c);
  }

  lemma BracketClass(b: Byte)
    ensures var c := if b == 0 then 1 else Ec(ScoutScanner, b);
            && 0 < c < Classes(ScoutScanner)
            && (c == 3 <==> b == NEWLINE) && (c == 26 <==> b == OPEN) && (c == 27 <==> b == CLOSE)
  {}

  lemma BracketStart(c: int)
    requires 0 < c < Classes(ScoutScanner)
    ensures Successor(ScoutScanner, 7, c) == if c == 3 then 33 else if c == 26 then 34 else if c == 27 then 35 else 32
  {
    hide Successor;
    var i := StartEntry(ScoutScanner, 7, c);
  }

  lemma BracketRun(s: int, c: int)
    requires 0 < c < Classes(ScoutScanner) && (s == 32 || s == 61)
    ensures Successor(ScoutScanner, s, c) == if c == 3 || c == 26 || c == 27 then 147 else 61
  {
    hide Base, Chk, Nxt, Meta, Def, Rank;
    var m := Meta(ScoutScanner, c);
    BracketRows(s, c);
    JamStays(ScoutScanner, m);
    assert Successor(ScoutScanner, 155, m) == if c == 3 || c == 26 || c == 27 then 147 else 61;
  }

  // States 32 and 61 own no entries: they fall back to template row 155.
  lemma BracketRows(s: int, c: int)
    requires 0 < c < Classes(ScoutScanner) && (s == 32 || s == 61)
    ensures var m := Meta(ScoutScanner, c);
            && 0 < m < Classes(ScoutScanner) && Base(ScoutScanner, 155) + m < Entries(ScoutScanner)
            && Base(ScoutScanner, s) + c < Entries(ScoutScanner)
            && Chk(ScoutScanner, Base(ScoutScanner, s) + c) != s && Def(ScoutScanner, s) == 155
            && Def(ScoutScanner, 155) == 147
            && if c == 3 || c == 26 || c == 27 then Chk(ScoutScanner, Base(ScoutScanner, 155) + m) != 155
               else
                 && Chk(ScoutScanner, Base(ScoutScanner, 155) + m) == 155
                 && Nxt(ScoutScanner, Base(ScoutScanner, 155) + m) == 61
  {}

  lemma {:induction false} RunState(t: seq<Byte>, j: nat)
    requires j <= RunLength(t)
    ensures StateAt(ScoutScanner, BRACKET, t, j) == if j == 0 then 7 else if j == 1 then 32 else 61
  {
    hide Step;
    if j > 0 {
      RunState(t, j - 1);
      BracketSteps(t[j - 1]);
    }
  }

  lemma BracketRules()
    ensures Accept(ScoutScanner, 32) == 14 && Accept(ScoutScanner, 61) == 14
    ensures Accept(ScoutScanner, 33) == 15 && Accept(ScoutScanner, 34) == 16 && Accept(ScoutScanner, 35) == 17
    ensures Jam(ScoutScanner) == 147 && Base(ScoutScanner, 33) == Base(ScoutScanner, 147)
    ensures Base(ScoutScanner, 34) == Base(ScoutScanner, 147) && Base(ScoutScanner, 35) == Base(ScoutScanner, 147)
  {}

  // Inside a block a lexeme is a maximal run of ordinary bytes, or one other byte.
  lemma BracketMunch(t: seq<Byte>)
    requires t != []
    ensures var n := RunLength(t);
            if n > 0 then IsMunch(ScoutScanner, BRACKET, t, n, 14)
            else IsMunch(ScoutScanner, BRACKET, t, 1, if t[0] == NEWLINE then 15 else if t[0] == OPEN then 16 else 17)
  {
    hide Step, Accept, Base;
    var n := RunLength(t);
    BracketRules();
    if n > 0 {
      RunState(t, n);
      if n < |t| {
        BracketSteps(t[n]);
        JammedEnds(ScoutScanner, BRACKET, t, n + 1);
      }
    } else {
      assert StateAt(ScoutScanner, BRACKET, t, 0) == 7;
      BracketSteps(t[0]);
      DeadEnds(ScoutScanner, BRACKET, t, 1);
    }
  }

  // --- Whole blocks --------------------------------------------------------------------

  // The TEXT tokens from l on, their texts joined as the parser joins them, and the
  // yylex call that delivers something else.
  datatype Run = Run(text: string, stop: Outcome)

  function Texts(l: Lexer): Run
    requires l.Valid()
    decreases if l.includer.Nobody? then 0 else 1, |l.rest|
  {
    match Yylex(l)
    case Read(t, l1) =>
      if t.code == TEXT then
        var r := Texts(l1);
        Run(t.text + r.text, r.stop)
      else Run("", Yylex(l))
    case o => Run("", o)
  }

  // The characters of a block that reach the parser: yytext is a C string, so a NUL byte
  // hides what follows it up to the next newline or brace.
  function Visible(t: seq<Byte>, hidden: bool): (s: string)
    ensures |s| <= |t|
  {
    if t == [] then ""
    else if !Ordinary(t[0]) then [t[0] as char] + Visible(t[1..], false)
    else if hidden || t[0] == 0 then Visible(t[1..], true)
    else [t[0] as char] + Visible(t[1..], false)
  }

  function Chars(t: seq<Byte>): (s: string)
    ensures |s| == |t|
  {
    if t == [] then "" else [t[0] as char] + Chars(t[1..])
  }

  predicate HasNul(t: seq<Byte>) {
    t != [] && (t[0] == 0 || HasNul(t[1..]))
  }

  lemma {:induction false} HiddenRun(t: seq<Byte>, n: nat)
    requires n <= RunLength(t)
    ensures Visible(t, true) == Visible(t[n..], true)
  {
    if n == 0 {
      assert t[n..] == t;
    } else {
      HiddenRun(t[1..], n - 1);
      assert t[1..][n - 1..] == t[n..];
    }
  }

  lemma {:induction false} VisibleRun(t: seq<Byte>, n: nat)
    requires n <= RunLength(t)
    ensures Visible(t, false) == CString(t[..n]) + Visible(t[n..], HasNul(t[..n]))
  {
    if n == 0 {
      assert t[n..] == t;
    } else {
      HiddenRun(t, n);
      VisibleRun(t[1..], n - 1);
      assert t[1..][n - 1..] == t[n..];
      assert t[..n][1..] == t[1..][..n - 1];
      assert t[0] == 0 ==> Visible(t, false) == Visible(t, true);
    }
  }

  // A hidden tail ends where the run of ordinary bytes does.
  lemma HiddenEnds(t: seq<Byte>)
    requires t == [] || !Ordinary(t[0])
    ensures Visible(t, true) == Visible(t, false)
  {}

  lemma {:induction false} NewlinesOfRun(t: seq<Byte>, n: nat)
    requires n <= RunLength(t)
    ensures Newlines(t) == Newlines(t[n..])
  {
    if n == 0 {
      assert t[n..] == t;
    } else {
      NewlinesOfRun(t[1..], n - 1);
      assert t[1..][n - 1..] == t[n..];
    }
  }

  lemma {:induction false} BalancedRun(t: seq<Byte>, d: int, n: nat)
    requires n <= RunLength(t)
    ensures Balanced(t, d) ==> Balanced(t[n..], d)
  {
    if n == 0 {
      assert t[n..] == t;
    } else {
      BalancedRun(t[1..], d, n - 1);
      assert t[1..][n - 1..] == t[n..];
    }
  }

  lemma {:induction false} RunBefore(t: seq<Byte>, u: seq<Byte>)
    requires u != [] && !Ordinary(u[0])
    ensures RunLength(t + u) == RunLength(t)
  {
    if t == [] {
      assert t + u == u;
    } else {
      RunBefore(t[1..], u);
      assert (t + u)[1..] == t[1..] + u;
    }
  }

  // The scanner inside a block with text t, its closing brace and more behind it.
  predicate InBlock(l: Lexer, t: seq<Byte>, more: seq<Byte>) {
    l.start == BRACKET && l.rest == t + ([CLOSE] + more) && Balanced(t, l.depth)
  }

  function Closed(l: Lexer, t: seq<Byte>, more: seq<Byte>): Lexer {
    l.(start := INITIAL, depth := 0, lineno := l.lineno + Newlines(t), rest := more)
  }

  // The first match in a block.
  lemma BlockMatch(l: Lexer, t: seq<Byte>, more: seq<Byte>)
    requires InBlock(l, t, more)
    ensures var n := if RunLength(t) > 0 then RunLength(t) else 1;
            var text := t + ([CLOSE] + more);
            var rule := if RunLength(t) > 0 then 14
                        else if text[0] == NEWLINE then 15 else if text[0] == OPEN then 16 else 17;
            FirstEffect(l) == BracketRule(rule, text[..n], l.(rest := text[n..]))
  {
    hide RuleAt, Longest;
    var u := [CLOSE] + more;
    var text := t + u;
    BracketMunch(text);
    RunBefore(t, u);
    var n := if RunLength(t) > 0 then RunLength(t) else 1;
    var rule := if RunLength(t) > 0 then 14 else if text[0] == NEWLINE then 15 else if text[0] == OPEN then 16 else 17;
    MunchIsUnique(ScoutScanner, BRACKET, text, n, rule);
    assert MunchLength(l) == n;
  }

  // The number of bytes of t that the next TEXT token takes, and the scanner behind it.
  function Taken(t: seq<Byte>): (n: nat)
    requires t != []
    ensures 0 < n <= |t|
  {
    if RunLength(t) > 0 then RunLength(t) else 1
  }

  function BehindText(l: Lexer, t: seq<Byte>, more: seq<Byte>): Lexer
    requires t != []
  {
    var n := Taken(t);
    l.(depth := if RunLength(t) > 0 then l.depth else Deeper(t[0], l.depth),
       lineno := l.lineno + Newlines(t[..n]), rest := t[n..] + ([CLOSE] + more))
  }

  lemma CloseStep(l: Lexer, more: seq<Byte>)
    requires InBlock(l, [], more)
    ensures Yylex(l) == Read(Token(CLOSE, "", l.lineno), Closed(l, [], more))
  {
    hide FirstEffect;
    BlockMatch(l, [], more);
    var text := [] + ([CLOSE] + more);
    assert text == [CLOSE] + more && text[..1] == [CLOSE] && text[1..] == more;
    assert l.rest == text;
  }

  lemma TextStep(l: Lexer, t: seq<Byte>, more: seq<Byte>)
    requires InBlock(l, t, more) && t != []
    ensures var l1 := BehindText(l, t, more);
            && Yylex(l) == Read(Token(TEXT, CString(t[..Taken(t)]), l1.lineno), l1)
            && InBlock(l1, t[Taken(t)..], more)
  {
    hide FirstEffect;
    BlockMatch(l, t, more);
    var n := Taken(t);
    var text := t + ([CLOSE] + more);
    assert text[..n] == t[..n] && text[n..] == t[n..] + ([CLOSE] + more) && text[0] == t[0];
    OneOrRun(t);
    BalancedRun(t, l.depth, RunLength(t));
  }

  lemma OneOrRun(t: seq<Byte>)
    requires t != []
    ensures RunLength(t) > 0 ==> Newlines(t[..RunLength(t)]) == 0
    ensures RunLength(t) == 0 ==> Newlines(t[..1]) == (if t[0] == NEWLINE then 1 else 0)
  {
    var n := RunLength(t);
    if n > 0 {
      NoNewlines(t[..n]);
    } else {
      assert t[..1] == [t[0]];
      assert Newlines([t[0]]) == (if t[0] == NEWLINE then 1 else 0) + Newlines([]);
    }
  }

  lemma {:induction false} NoNewlines(t: seq<Byte>)
    requires forall i :: 0 <= i < |t| ==> Ordinary(t[i])
    ensures Newlines(t) == 0
  {
    if t != [] {
      NoNewlines(t[1..]);
    }
  }

  lemma {:induction false} NewlinesSplit(t: seq<Byte>, n: nat)
    requires n <= |t|
    ensures Newlines(t) == Newlines(t[..n]) + Newlines(t[n..])
  {
    if n == 0 {
      assert t[n..] == t;
    } else {
      NewlinesSplit(t[1..], n - 1);
      assert t[1..][n - 1..] == t[n..];
      assert t[..n][1..] == t[1..][..n - 1];
    }
  }

  lemma VisibleTaken(t: seq<Byte>)
    requires t != []
    ensures Visible(t, false) == CString(t[..Taken(t)]) + Visible(t[Taken(t)..], false)
  {
    var n := RunLength(t);
    if n > 0 {
      VisibleRun(t, n);
      HiddenEnds(t[n..]);
    } else {
      assert t[..1] == [t[0]];
      assert CString([t[0]]) == [t[0] as char] + CString([]);
    }
  }

  // Scanning a block: the TEXT tokens carry its visible characters, the closing brace
  // comes next, and the scanner is back in the INITIAL condition at depth 0.
  lemma {:induction false} BlockScan(l: Lexer, t: seq<Byte>, more: seq<Byte>)
    requires InBlock(l, t, more)
    ensures var l1 := Closed(l, t, more);
            Texts(l) == Run(Visible(t, false), Read(Token(CLOSE, "", l1.lineno), l1))
    decreases |t|
  {
    hide InBlock, Yylex, Visible, CString, Newlines;
    if t == [] {
      CloseStep(l, more);
      EmptyBlock();
    } else {
      TextStep(l, t, more);
      var n := Taken(t);
      var l1 := BehindText(l, t, more);
      BlockScan(l1, t[n..], more);
      NewlinesSplit(t, n);
      VisibleTaken(t);
      assert Closed(l1, t[n..], more) == Closed(l, t, more);
    }
  }

  lemma EmptyBlock()
    ensures Visible([], false) == "" && Newlines([]) == 0
  {}

  lemma {:induction false} VisibleIff(t: seq<Byte>)
    ensures Visible(t, false) == Chars(t) <==> !HasNul(t)
    ensures |Visible(t, false)| == |t| <==> !HasNul(t)
  {
    if t != [] {
      VisibleIff(t[1..]);
    }
  }

  // In the INITIAL condition an opening brace starts a block.
  lemma OpenStep(l: Lexer)
    requires l.start == INITIAL && l.rest != [] && l.rest[0] == OPEN
    ensures var l1 := l.(start := BRACKET, depth := l.depth + 1, rest := l.rest[1..]);
            Yylex(l) == Read(Token(OPEN, "", l.lineno), l1)
  {
    hide FirstEffect;
    OpenEffect(l);
  }

  lemma OpenEffect(l: Lexer)
    requires l.start == INITIAL && l.rest != [] && l.rest[0] == OPEN
    ensures FirstEffect(l) == Emit(OPEN, "", l.(start := BRACKET, depth := l.depth + 1, rest := l.rest[1..]))
  {
    OpenMunch(l.rest);
    hide RuleAt, Longest, BracketRule, OtherRule;
    MunchIsUnique(ScoutScanner, INITIAL, l.rest, 1, 13);
    assert MunchLength(l) == 1;
    assert l.rest[..1] == [OPEN];
  }

  lemma OpenMunch(text: seq<Byte>)
    requires text != [] && text[0] == OPEN
    ensures IsMunch(ScoutScanner, INITIAL, text, 1, 13)
  {
    hide Successor;
    assert StateAt(ScoutScanner, INITIAL, text, 0) == INITIAL;
    var i := StartEntry(ScoutScanner, INITIAL, 26);
    assert Ec(ScoutScanner, OPEN) == 26;
    assert StateAt(ScoutScanner, INITIAL, text, 1) == 25;
    DeadEnds(ScoutScanner, INITIAL, text, 1);
  }

  // Round trip: for every brace-balanced text, scanning it in braces and joining the
  // TEXT tokens gives the text back exactly if it holds no NUL byte. In any case the
  // scanner ends behind the closing brace, at depth 0, with the newlines counted.
  lemma BraceRoundTrip(l: Lexer, t: seq<Byte>, more: seq<Byte>)
    requires l.start == INITIAL && l.depth == 0 && l.rest == [OPEN] + t + [CLOSE] + more && Balanced(t, 1)
    ensures var inside := l.(start := BRACKET, depth := 1, rest := l.rest[1..]);
            var after := l.(lineno := l.lineno + Newlines(t), rest := more);
            && Yylex(l) == Read(Token(OPEN, "", l.lineno), inside)
            && Texts(inside).stop == Read(Token(CLOSE, "", after.lineno), after)
            && (Texts(inside).text == Chars(t) <==> !HasNul(t))
  {
    hide Yylex, Visible, Texts, Balanced, HasNul;
    OpenStep(l);
    var inside := l.(start := BRACKET, depth := 1, rest := l.rest[1..]);
    assert inside.rest == t + ([CLOSE] + more);
    BlockScan(inside, t, more);
    VisibleIff(t);
  }

  // A block that does not come through: the NUL byte hides the letter behind it.
  lemma NulHides(l: Lexer, more: seq<Byte>)
    requires l.start == INITIAL && l.depth == 0 && l.rest == [OPEN] + [97, 0, 98] + [CLOSE] + more
    ensures var inside := l.(start := BRACKET, depth := 1, rest := l.rest[1..]);
            Texts(inside).text == "a" && Texts(inside).text != Chars([97, 0, 98])
  {
    hide Texts;
    var inside := l.(start := BRACKET, depth := 1, rest := l.rest[1..]);
    assert inside.rest == [97, 0, 98] + ([CLOSE] + more);
    assert Balanced([97, 0, 98], 1) by {
      assert [97, 0, 98][1..] == [0, 98] && [0, 98][1..] == [98] && [98][1..] == [];
    }
    BlockScan(inside, [97, 0, 98], more);
    VisibleNul();
  }

  lemma VisibleNul()
    ensures Visible([97, 0, 98], false) == "a" && |Chars([97, 0, 98])| == 3
  {
    assert [97, 0, 98][1..] == [0, 98] && [0, 98][1..] == [98] && [98][1..] == [];
  }
}
