/** What the Scout scanner skips between tokens: whitespace, comments up to the end of the
    line, and comments in #{ and #}. */
module ScoutGaps {
  import opened Flex
  import opened Munch
  import opened ScoutLexer
  import Braces
  import Lines = ScoutLines
  import Tables = ScoutScannerTables

  const NEWLINE: Byte := 10
  const HASH: Byte := 35
  const OPEN: Byte := 123
  const CLOSE: Byte := 125

  predicate IsBlankByte(b: Byte) {
    b == 9 || b == 11 || b == 12 || b == 13 || b == 32
  }

  lemma Classes5(b: Byte)
    ensures var c := if b == 0 then 1 else Ec(ScoutScanner, b);
            && 0 < c < Classes(ScoutScanner) && (c == 2 <==> IsBlankByte(b)) && (c == 3 <==> b == NEWLINE)
            && (c == 5 <==> b == HASH) && (c == 26 <==> b == OPEN) && (c == 27 <==> b == CLOSE)
  {}

  // --- The automaton ---------------------------------------------------------------------

  // The states of a run of blanks, of a comment up to the end of the line, and of the
  // lexemes in a comment.
  predicate InGap(s: int) {
    s == 11 || s == 36 || s == 14 || s == 37 || s == 38 || s == 26 || s == 56 || s == 28 || s == 57 || s == 58
  }

  function Follow(s: int, c: int): nat {
    match s
    case 11 => if c == 2 then 36 else 147
    case 36 => if c == 2 then 36 else 147
    case 14 => if c == 3 then 147 else if c == 26 then 38 else 37
    case 37 => if c == 3 then 147 else 37
    case 38 => if c == 3 then 147 else 37
    case 26 => if c == 3 || c == 5 then 147 else 56
    case 56 => if c == 3 || c == 5 then 147 else 56
    case 28 => if c == 3 then 147 else if c == 5 then 58 else if c == 27 then 59 else 57
    case 57 => if c == 3 || c == 5 || c == 27 then 147 else 57
    case _ => if c == 3 || c == 27 then 147 else if c == 5 then 58 else 57
  }

  // The template that a state falls back to, 147 for none.
  function Template(s: int): nat {
    if s == 11 || s == 36 then 147
    else if s == 14 || s == 37 || s == 38 then 151
    else if s == 26 || s == 56 then 152 else 153
  }

  lemma OwnBlank(s: int, c: int)
    requires (s == 11 || s == 36) && 0 < c < Tables.CLASSES
    ensures Tables.Def(s) == Template(s) && Tables.Base(s) + c < Tables.ENTRIES
    ensures Tables.Chk(Tables.Base(s) + c) == s ==> Tables.Nxt(Tables.Base(s) + c) == Follow(s, c)
    ensures Tables.Chk(Tables.Base(s) + c) != s ==> Follow(s, c) == 147
  {}

  lemma OwnHash(s: int, c: int)
    requires (s == 14 || s == 37 || s == 38) && 0 < c < Tables.CLASSES
    ensures Tables.Def(s) == Template(s) && Tables.Base(s) + c < Tables.ENTRIES
    ensures Tables.Chk(Tables.Base(s) + c) == s ==> Tables.Nxt(Tables.Base(s) + c) == Follow(s, c)
    ensures Tables.Chk(Tables.Base(s) + c) != s && c != 3 ==> Follow(s, c) == 37
  {}

  lemma OwnComment(s: int, c: int)
    requires (s == 26 || s == 56 || s == 28 || s == 57 || s == 58) && 0 < c < Tables.CLASSES
    ensures Tables.Def(s) == Template(s) && Tables.Base(s) + c < Tables.ENTRIES
    ensures Tables.Chk(Tables.Base(s) + c) == s ==> Tables.Nxt(Tables.Base(s) + c) == Follow(s, c)
    ensures Tables.Chk(Tables.Base(s) + c) != s ==>
              if s == 26 || s == 56 then Follow(s, c) == (if c == 3 || c == 5 then 147 else 56)
              else Follow(s, c) == if c == 3 then 147 else 57
  {}

  // The templates.
  lemma TemplateEntry(d: int, c: int)
    requires 151 <= d <= 153 && 0 < c < Tables.CLASSES
    ensures var m := Tables.Meta(c);
            && 0 < m < Tables.CLASSES && Tables.Base(d) + m < Tables.ENTRIES && Tables.Def(d) == 147
            && if (c == 3 || (d == 152 && c == 5))
               then Tables.Chk(Tables.Base(d) + m) != d
               else
                 && Tables.Chk(Tables.Base(d) + m) == d
                 && Tables.Nxt(Tables.Base(d) + m) == if d == 151 then 37 else if d == 152 then 56 else 57
  {}

  lemma Follows(s: int, c: int)
    requires InGap(s) && 0 < c < Tables.CLASSES
    ensures Successor(ScoutScanner, s, c) == Follow(s, c)
  {
    hide Tables.Base, Tables.Chk, Tables.Nxt, Tables.Meta, Tables.Def, Follow, Template;
    if s == 11 || s == 36 {
      FollowsBlank(s, c);
    } else if s == 14 || s == 37 || s == 38 {
      FollowsHash(s, c);
    } else {
      FollowsComment(s, c);
    }
  }

  lemma FollowsBlank(s: int, c: int)
    requires (s == 11 || s == 36) && 0 < c < Tables.CLASSES
    ensures Successor(ScoutScanner, s, c) == Follow(s, c)
  {
    hide Tables.Base, Tables.Chk, Tables.Nxt, Tables.Meta, Tables.Def, Follow, Flex.Rank;
    OwnBlank(s, c);
    JamStays(ScoutScanner, c);
  }

  lemma FollowsHash(s: int, c: int)
    requires (s == 14 || s == 37 || s == 38) && 0 < c < Tables.CLASSES
    ensures Successor(ScoutScanner, s, c) == Follow(s, c)
  {
    hide Tables.Base, Tables.Chk, Tables.Nxt, Tables.Meta, Tables.Def, Flex.Rank;
    OwnHash(s, c);
    FromTemplate(151, c);
  }

  lemma FollowsComment(s: int, c: int)
    requires (s == 26 || s == 56 || s == 28 || s == 57 || s == 58) && 0 < c < Tables.CLASSES
    ensures Successor(ScoutScanner, s, c) == Follow(s, c)
  {
    hide Tables.Base, Tables.Chk, Tables.Nxt, Tables.Meta, Tables.Def, Flex.Rank;
    OwnComment(s, c);
    FromTemplate(Template(s), c);
  }

  lemma FromTemplate(d: int, c: int)
    requires 151 <= d <= 153 && 0 < c < Tables.CLASSES
    ensures 0 < Tables.Meta(c) < Tables.CLASSES
    ensures Successor(ScoutScanner, d, Tables.Meta(c)) ==
            if c == 3 || (d == 152 && c == 5) then 147 else if d == 151 then 37 else if d == 152 then 56 else 57
  {
    hide Tables.Base, Tables.Chk, Tables.Nxt, Tables.Meta, Tables.Def, Flex.Rank;
    TemplateEntry(d, c);
    JamStays(ScoutScanner, Tables.Meta(c));
  }

  // The first characters.
  lemma GapStart(c: int)
    requires 0 < c < Tables.CLASSES
    ensures c == 2 ==> Successor(ScoutScanner, INITIAL, c) == 11
    ensures c == 5 ==> Successor(ScoutScanner, INITIAL, c) == 14
    ensures Successor(ScoutScanner, COMMENT, c) == if c == 3 then 27 else if c == 5 then 28 else 26
  {
    hide Successor;
    var i := StartEntry(ScoutScanner, INITIAL, c);
    var j := StartEntry(ScoutScanner, COMMENT, c);
  }

  // The state after one more byte.
  lemma Next(start: nat, text: seq<Byte>, j: nat)
    requires IsStart(ScoutScanner, start) && j < |text|
    ensures var c := if text[j] == 0 then 1 else Ec(ScoutScanner, text[j]);
            && 0 < c < Tables.CLASSES
            && StateAt(ScoutScanner, start, text, j + 1) == Successor(ScoutScanner, StateAt(ScoutScanner, start, text, j), c)
  {
    hide Successor, Ec;
    ClassBounds(ScoutScanner, text[j], 1);
  }

  lemma {:induction false} BlankState(text: seq<Byte>, j: nat)
    requires 0 < j <= |text| && forall i :: 0 <= i < j ==> IsBlankByte(text[i])
    ensures StateAt(ScoutScanner, INITIAL, text, j) == if j == 1 then 11 else 36
  {
    hide Successor, Ec, StateAt;
    Classes5(text[j - 1]);
    Next(INITIAL, text, j - 1);
    if j == 1 {
      StartIs(INITIAL, text);
      GapStart(2);
    } else {
      BlankState(text, j - 1);
      Follows(11, 2);
      Follows(36, 2);
    }
  }

  lemma StartIs(start: nat, text: seq<Byte>)
    requires IsStart(ScoutScanner, start)
    ensures StateAt(ScoutScanner, start, text, 0) == start
  {}

  // A comment up to the end of the line, or the start of one in braces.
  lemma {:induction false} HashState(text: seq<Byte>, j: nat)
    requires 0 < j <= |text| && text[0] == HASH && forall i :: 0 <= i < j ==> text[i] != NEWLINE
    ensures StateAt(ScoutScanner, INITIAL, text, j) ==
            if j == 1 then 14 else if j == 2 && text[1] == OPEN then 38 else 37
  {
    hide Successor, Ec, StateAt;
    Classes5(text[j - 1]);
    Next(INITIAL, text, j - 1);
    if j == 1 {
      StartIs(INITIAL, text);
      GapStart(5);
    } else {
      HashState(text, j - 1);
      var c := if text[j - 1] == 0 then 1 else Ec(ScoutScanner, text[j - 1]);
      Follows(14, c);
      Follows(37, c);
      Follows(38, c);
    }
  }

  // --- Lexemes ---------------------------------------------------------------------------

  // The number of bytes before the first one that stops a run.
  function Run(t: seq<Byte>, stop: set<Byte>): (n: nat)
    ensures n <= |t| && (forall i :: 0 <= i < n ==> t[i] !in stop) && (n < |t| ==> t[n] in stop)
  {
    if t == [] || t[0] in stop then 0 else 1 + Run(t[1..], stop)
  }

  // The number of bytes at the front that are all like these.
  function Same(t: seq<Byte>, some: set<Byte>): (n: nat)
    ensures n <= |t| && (forall i :: 0 <= i < n ==> t[i] in some) && (n < |t| ==> t[n] !in some)
  {
    if t == [] || t[0] !in some then 0 else 1 + Same(t[1..], some)
  }

  const Blanks: set<Byte> := {9, 11, 12, 13, 32}

  // A match that cannot be continued is the longest one.
  lemma Stops(start: nat, text: seq<Byte>, n: nat, s: int)
    requires IsStart(ScoutScanner, start) && n <= |text| && StateAt(ScoutScanner, start, text, n) == s
    requires InGap(s) && Tables.Accept(s) != 0
    requires n < |text| ==> var c := if text[n] == 0 then 1 else Ec(ScoutScanner, text[n]); 0 < c < Tables.CLASSES && Follow(s, c) == 147
    ensures IsMunch(ScoutScanner, start, text, n, Tables.Accept(s))
  {
    hide Successor, Ec, StateAt, Tables.Accept, Follow;
    if n < |text| {
      Next(start, text, n);
      Follows(s, if text[n] == 0 then 1 else Ec(ScoutScanner, text[n]));
      JammedEnds(ScoutScanner, start, text, n + 1);
    }
  }

  lemma BlankMunch(text: seq<Byte>)
    requires text != [] && text[0] in Blanks
    ensures IsMunch(ScoutScanner, INITIAL, text, Same(text, Blanks), 2)
  {
    hide StateAt, Successor, Ec, IsMunch;
    var n := Same(text, Blanks);
    BlankState(text, n);
    if n < |text| {
      Classes5(text[n]);
    }
    Stops(INITIAL, text, n, if n == 1 then 11 else 36);
  }

  // After # comes the rest of the line, or a comment in braces if that is a brace alone.
  lemma HashMunch(text: seq<Byte>)
    requires text != [] && text[0] == HASH
    ensures var n := Run(text, {NEWLINE});
            n > 0 && IsMunch(ScoutScanner, INITIAL, text, n, if n == 2 && text[1] == OPEN then 3 else 8)
  {
    hide StateAt, Successor, Ec, IsMunch;
    var n := Run(text, {NEWLINE});
    HashState(text, n);
    if n < |text| {
      Classes5(text[n]);
    }
    Stops(INITIAL, text, n, if n == 1 then 14 else if n == 2 && text[1] == OPEN then 38 else 37);
  }

  lemma {:induction false} PlainState(text: seq<Byte>, j: nat)
    requires 0 < j <= Run(text, {HASH, NEWLINE})
    ensures StateAt(ScoutScanner, COMMENT, text, j) == if j == 1 then 26 else 56
  {
    hide Successor, Ec, StateAt;
    Classes5(text[j - 1]);
    Next(COMMENT, text, j - 1);
    var c := if text[j - 1] == 0 then 1 else Ec(ScoutScanner, text[j - 1]);
    if j == 1 {
      StartIs(COMMENT, text);
      GapStart(c);
    } else {
      PlainState(text, j - 1);
      Follows(26, c);
      Follows(56, c);
    }
  }

  lemma PlainMunch(text: seq<Byte>)
    requires text != [] && text[0] != HASH && text[0] != NEWLINE
    ensures Run(text, {HASH, NEWLINE}) > 0 && IsMunch(ScoutScanner, COMMENT, text, Run(text, {HASH, NEWLINE}), 4)
  {
    hide StateAt, Successor, Ec, IsMunch;
    var n := Run(text, {HASH, NEWLINE});
    PlainState(text, n);
    if n < |text| {
      Classes5(text[n]);
    }
    Stops(COMMENT, text, n, if n == 1 then 26 else 56);
  }

  lemma {:induction false} HashesState(text: seq<Byte>, j: nat)
    requires 0 < j <= Same(text, {HASH})
    ensures StateAt(ScoutScanner, COMMENT, text, j) == if j == 1 then 28 else 58
  {
    hide Successor, Ec, StateAt;
    Classes5(text[j - 1]);
    Next(COMMENT, text, j - 1);
    if j == 1 {
      StartIs(COMMENT, text);
      GapStart(5);
    } else {
      HashesState(text, j - 1);
      Follows(28, 5);
      Follows(58, 5);
    }
  }

  // Hashes and what comes behind them.
  function HashLength(t: seq<Byte>): (n: nat)
    ensures n <= |t| && (t != [] && t[0] == HASH ==> n > 0)
  {
    var k := Same(t, {HASH});
    k + Run(t[k..], {HASH, NEWLINE, CLOSE})
  }

  lemma {:induction false} TailState(text: seq<Byte>, j: nat)
    requires text != [] && text[0] == HASH && Same(text, {HASH}) < j <= HashLength(text)
    ensures StateAt(ScoutScanner, COMMENT, text, j) == 57
  {
    hide Successor, Ec, StateAt;
    var k := Same(text, {HASH});
    var b := text[j - 1];
    assert b == text[k..][j - 1 - k];
    Classes5(b);
    Next(COMMENT, text, j - 1);
    var c := if b == 0 then 1 else Ec(ScoutScanner, b);
    if j == k + 1 {
      HashesState(text, k);
      Follows(28, c);
      Follows(58, c);
    } else {
      TailState(text, j - 1);
      Follows(57, c);
    }
  }

  // A run of hashes in a comment, unless it is the one that closes the comment.
  lemma HashesMunch(text: seq<Byte>)
    requires text != [] && text[0] == HASH && (|text| > 1 ==> text[1] != CLOSE)
    ensures IsMunch(ScoutScanner, COMMENT, text, HashLength(text), 5)
  {
    hide StateAt, Successor, Ec, IsMunch;
    var k, n := Same(text, {HASH}), HashLength(text);
    if n < |text| {
      assert text[n] == text[k..][n - k];
      Classes5(text[n]);
    }
    if n == k {
      HashesState(text, k);
      Stops(COMMENT, text, n, if k == 1 then 28 else 58);
    } else {
      TailState(text, n);
      Stops(COMMENT, text, n, 57);
    }
  }

  lemma CloseMunch(text: seq<Byte>)
    requires |text| > 1 && text[0] == HASH && text[1] == CLOSE
    ensures IsMunch(ScoutScanner, COMMENT, text, 2, 7)
  {
    hide Successor, Ec, StateAt;
    assert Same(text, {HASH}) >= 1;
    HashesState(text, 1);
    Classes5(CLOSE);
    Next(COMMENT, text, 1);
    Follows(28, 27);
    CloseState();
    DeadEnds(ScoutScanner, COMMENT, text, 2);
  }

  lemma CloseState()
    ensures Base(ScoutScanner, 59) == Base(ScoutScanner, Jam(ScoutScanner)) && Accept(ScoutScanner, 59) == 7
  {}

  // --- Skipping --------------------------------------------------------------------------

  lemma MunchEffect(l: Lexer, n: nat, rule: nat)
    requires l.Valid() && l.rest != [] && IsMunch(ScoutScanner, l.start, l.rest, n, rule)
    ensures 0 < n <= |l.rest| && FirstEffect(l) == Act(rule, l.rest[..n], l.(rest := l.rest[n..]))
  {
    hide Act, RuleAt, Longest, NoneLonger;
    MunchIsUnique(ScoutScanner, l.start, l.rest, n, rule);
    assert MunchLength(l) == n;
  }

  // The rest of the input behind the next lexeme, which is skipped.
  lemma Skips(l: Lexer, l1: Lexer)
    requires l.Valid() && l.rest != [] && FirstEffect(l) == Skip(l1)
    ensures l1.Valid() && Yylex(l) == Yylex(l1)
  {
    hide FirstEffect;
  }

  lemma {:induction false} SameRun(t: seq<Byte>, more: seq<Byte>, some: set<Byte>)
    requires forall i :: 0 <= i < |t| ==> t[i] in some
    ensures Same(t + more, some) == |t| + Same(more, some)
  {
    if t == [] {
      assert t + more == more;
    } else {
      SameRun(t[1..], more, some);
      assert (t + more)[1..] == t[1..] + more;
    }
  }

  lemma {:induction false} RunTo(t: seq<Byte>, more: seq<Byte>, stop: set<Byte>)
    requires (forall i :: 0 <= i < |t| ==> t[i] !in stop) && (more != [] ==> more[0] in stop)
    ensures Run(t + more, stop) == |t|
  {
    if t == [] {
      assert t + more == more;
    } else {
      RunTo(t[1..], more, stop);
      assert (t + more)[1..] == t[1..] + more;
    }
  }

  // All blanks at the front are skipped.
  lemma BlanksGo(l: Lexer)
    requires l.start == INITIAL && l.Valid()
    ensures Yylex(l) == Yylex(l.(rest := l.rest[Same(l.rest, Blanks)..]))
  {
    hide Yylex, FirstEffect, IsMunch, Same;
    var n := Same(l.rest, Blanks);
    if n == 0 {
      assert l.rest[0..] == l.rest;
    } else {
      BlankMunch(l.rest);
      MunchEffect(l, n, 2);
      Skips(l, l.(rest := l.rest[n..]));
    }
  }

  // Blanks are skipped, whatever follows.
  lemma BlanksSkip(l: Lexer, t: seq<Byte>, more: seq<Byte>)
    requires l.start == INITIAL && l.rest == t + more && forall i :: 0 <= i < |t| ==> t[i] in Blanks
    ensures Yylex(l) == Yylex(l.(rest := more))
  {
    hide Yylex, Same;
    SameRun(t, more, Blanks);
    BlanksGo(l);
    BlanksGo(l.(rest := more));
    assert (t + more)[|t| + Same(more, Blanks)..] == more[Same(more, Blanks)..];
  }

  // A comment up to the end of its line is skipped, unless it is an opening brace alone:
  // then, and only then, a comment in braces starts.
  lemma HashSkips(l: Lexer, t: seq<Byte>, more: seq<Byte>)
    requires l.start == INITIAL && l.rest == [HASH] + t + more && (more != [] ==> more[0] == NEWLINE)
    requires forall i :: 0 <= i < |t| ==> t[i] != NEWLINE
    ensures Yylex(l) == Yylex(l.(start := if t == [OPEN] then COMMENT else INITIAL, rest := more))
  {
    hide Yylex, FirstEffect, IsMunch, Run;
    var n := |t| + 1;
    assert forall i :: 0 <= i < n ==> ([HASH] + t)[i] !in {NEWLINE};
    RunTo([HASH] + t, more, {NEWLINE});
    HashMunch(l.rest);
    assert l.rest[n..] == more;
    assert t == [OPEN] <==> n == 2 && l.rest[1] == OPEN;
    MunchEffect(l, n, if n == 2 && l.rest[1] == OPEN then 3 else 8);
    Skips(l, l.(start := if t == [OPEN] then COMMENT else INITIAL, rest := more));
  }

  // A text in a comment that does not close it: a hash before a closing brace counts only
  // if no other hash is before it.
  predicate Unclosed(t: seq<Byte>) {
    && (t != [] ==> t[|t| - 1] != HASH)
    && forall i :: 0 <= i < |t| - 1 && t[i] == HASH && t[i + 1] == CLOSE ==> i > 0 && t[i - 1] == HASH
  }

  // The bytes of an unclosed text that the next lexeme takes.
  function Taken(t: seq<Byte>): (n: nat)
    requires t != []
    ensures 0 < n <= |t|
  {
    if t[0] == NEWLINE then 1 else if t[0] == HASH then HashLength(t) else Run(t, {HASH, NEWLINE})
  }

  lemma {:induction false} RunInside(t: seq<Byte>, u: seq<Byte>, stop: set<Byte>)
    requires u != [] && u[0] in stop
    ensures Run(t + u, stop) == Run(t, stop)
  {
    if t == [] {
      assert t + u == u;
    } else {
      RunInside(t[1..], u, stop);
      assert (t + u)[1..] == t[1..] + u;
    }
  }

  lemma {:induction false} SameInside(t: seq<Byte>, u: seq<Byte>, some: set<Byte>)
    requires t != [] && t[|t| - 1] !in some
    ensures Same(t + u, some) == Same(t, some) < |t|
  {
    if t[0] in some {
      SameInside(t[1..], u, some);
      assert (t + u)[1..] == t[1..] + u;
    }
  }

  lemma HashInside(t: seq<Byte>, u: seq<Byte>)
    requires t != [] && t[0] == HASH && t[|t| - 1] != HASH && u != [] && u[0] == HASH
    ensures HashLength(t + u) == HashLength(t)
  {
    SameInside(t, u, {HASH});
    var k := Same(t, {HASH});
    assert (t + u)[k..] == t[k..] + u;
    RunInside(t[k..], u, {HASH, NEWLINE, CLOSE});
  }

  lemma StaysUnclosed(t: seq<Byte>)
    requires t != [] && Unclosed(t)
    ensures Unclosed(t[Taken(t)..])
  {
    var n := Taken(t);
    var s := t[n..];
    forall i | 0 <= i < |s| - 1 && s[i] == HASH && s[i + 1] == CLOSE ensures i > 0 && s[i - 1] == HASH {
      assert t[n + i] == HASH && t[n + i + 1] == CLOSE && t[n + i - 1] == HASH;
      if i == 0 && t[0] == HASH {
        BehindHashes(t);
      }
    }
  }

  // Behind a run of hashes comes no other hash, unless there is text between them.
  lemma BehindHashes(t: seq<Byte>)
    requires t != [] && t[0] == HASH && HashLength(t) < |t| && t[HashLength(t)] == HASH
    ensures t[HashLength(t) - 1] != HASH
  {
    var k, n := Same(t, {HASH}), HashLength(t);
    if n > k {
      assert t[n - 1] == t[k..][n - 1 - k];
    }
  }

  lemma CommentStep(l: Lexer, t: seq<Byte>, u: seq<Byte>)
    requires l.start == COMMENT && l.rest == t + u && t != [] && Unclosed(t) && u != [] && u[0] == HASH
    ensures Yylex(l) == Yylex(l.(rest := t[Taken(t)..] + u, lineno := l.lineno + if t[0] == NEWLINE then 1 else 0))
  {
    hide Yylex, FirstEffect, IsMunch, Run, HashLength;
    var n := Taken(t);
    var l1 := l.(rest := t[n..] + u, lineno := l.lineno + if t[0] == NEWLINE then 1 else 0);
    assert l.rest[n..] == t[n..] + u;
    if t[0] == NEWLINE {
      Lines.NewlineMunch(COMMENT, l.rest);
      MunchEffect(l, 1, 6);
    } else if t[0] == HASH {
      HashInside(t, u);
      assert |t| > 1 && l.rest[1] == t[1] != CLOSE;
      HashesMunch(l.rest);
      MunchEffect(l, n, 5);
    } else {
      RunInside(t, u, {HASH, NEWLINE});
      PlainMunch(l.rest);
      MunchEffect(l, n, 4);
    }
    Skips(l, l1);
  }

  lemma OneLine(t: seq<Byte>)
    requires t != []
    ensures Braces.Newlines(t) == (if t[0] == NEWLINE then 1 else 0) + Braces.Newlines(t[Taken(t)..])
  {
    var n := Taken(t);
    Braces.NewlinesSplit(t, n);
    if t[0] == NEWLINE {
      assert t[..1] == [NEWLINE] && Braces.Newlines([NEWLINE]) == 1 + Braces.Newlines([]);
    } else {
      if t[0] == HASH {
        NoNewlineInHashes(t);
      }
      Lines.NoneCounted(t[..n]);
    }
  }

  lemma NoNewlineInHashes(t: seq<Byte>)
    ensures forall i :: 0 <= i < HashLength(t) ==> t[i] != NEWLINE
  {
    var k := Same(t, {HASH});
    forall i | k <= i < HashLength(t) ensures t[i] != NEWLINE {
      assert t[i] == t[k..][i - k];
    }
  }

  // A comment in braces is skipped up to the #} that closes it, and its newlines are
  // counted; the scanner is back in the INITIAL condition.
  lemma {:induction false} CommentSkips(l: Lexer, t: seq<Byte>, more: seq<Byte>)
    requires l.start == COMMENT && l.rest == t + ([HASH, CLOSE] + more) && Unclosed(t)
    ensures Yylex(l) == Yylex(l.(start := INITIAL, rest := more, lineno := l.lineno + Braces.Newlines(t)))
    decreases |t|
  {
    hide Yylex, Taken, Unclosed, Braces.Newlines;
    var u := [HASH, CLOSE] + more;
    if t == [] {
      CommentCloses(l, more);
    } else {
      CommentStep(l, t, u);
      StaysUnclosed(t);
      OneLine(t);
      CommentSkips(l.(rest := t[Taken(t)..] + u, lineno := l.lineno + if t[0] == NEWLINE then 1 else 0), t[Taken(t)..], more);
    }
  }

  lemma CommentCloses(l: Lexer, more: seq<Byte>)
    requires l.start == COMMENT && l.rest == [] + ([HASH, CLOSE] + more)
    ensures Yylex(l) == Yylex(l.(start := INITIAL, rest := more, lineno := l.lineno + Braces.Newlines([])))
  {
    hide Yylex, FirstEffect, IsMunch;
    assert l.rest[2..] == more;
    CloseMunch(l.rest);
    MunchEffect(l, 2, 7);
    Skips(l, l.(start := INITIAL, rest := more));
  }
}
