/** The moves of the Scout parser as a derivation in its grammar: read backwards, the
    reductions derive the tokens that were shifted, rightmost symbol first. */
module ScoutDerivation {
  import opened LrStack
  import opened PatternRegistry
  import opened ScoutTables
  import opened ScoutTranslator
  import opened ScoutAutomaton
  import opened ScoutMeaning

  // Nonterminals, numbered as in the parser's tables.
  const FILE := 35
  const TEXTS := 70

  // The right-hand sides of the grammar.
  function Rhs(r: int): seq<int> {
    if r <= 7 then FileRhs(r)
    else if r <= 13 then ItemRhs(r)
    else if r <= 31 then [r + 30]
    else if r <= 48 then PartRhs(RuleKeyword(r))
    else if r <= 55 then CallbackRhs(r)
    else BlockRhs(r)
  }

  function FileRhs(r: int): seq<int> {
    match r
    case 2 => [36]     // File: Body
    case 3 => [37]     // Body: BodyItem
    case 4 => [36, 37] // Body: Body BodyItem
    case 5 => [38]     // BodyItem: Include
    case 6 => [40]     // BodyItem: Pattern
    case 7 => [39]     // BodyItem: Prolog
    case _ => [FILE, END]
  }

  function ItemRhs(r: int): seq<int> {
    match r
    case 8 => [INCLUDE, 66]
    case 9 => [PROLOG, 67]
    case 10 => []      // the action after the name of a pattern
    case 11 => [PATTERN, 66, 41, EQUALS, OPENBRACKET, 42, CLOSEBRACKET]
    case 12 => [42, 43]
    case _ => [43]     // 13
  }

  function PartRhs(key: int): seq<int> {
    if IsFlag(key) then [key]
    else [key, EQUALS, if TakesCode(key) then 67 else if TakesText(key) then 69 else 66]
  }

  function CallbackRhs(r: int): seq<int> {
    match r
    case 49 => []
    case 50 => [CALLBACKS, OPENPAREN, 66, CLOSEPAREN, 62, EQUALS, OPENBRACKET, 64, CLOSEBRACKET]
    case 51 => []
    case 52 => [CALLBACKS, 63, EQUALS, OPENBRACKET, 64, CLOSEBRACKET]
    case 53 => [64, 65]
    case 54 => [65]
    case _ => [66, EQUALS, 67] // 55
  }

  function BlockRhs(r: int): seq<int> {
    match r
    case 56 => [QUOTE, STRING, QUOTE]
    case 57 => []
    case 58 => [OPENBRACE, 68, TEXTS, CLOSEBRACE]
    case 59 => [OPENBRACE, TEXTS, CLOSEBRACE]
    case 60 => [TEXTS, TEXT]
    case _ => [TEXT] // 61
  }

  // --- Rightmost derivations -----------------------------------------------------------

  predicate Terminal(x: int) {
    x < NTOKENS
  }

  // The number of symbols up to the rightmost nonterminal, with it; 0 if there is none.
  function Rightmost(u: seq<int>): (n: nat)
    ensures n <= |u| && (n > 0 ==> !Terminal(u[n - 1])) && forall i :: n <= i < |u| ==> Terminal(u[i])
  {
    if u == [] || !Terminal(u[|u| - 1]) then |u| else Rightmost(u[..|u| - 1])
  }

  // The sentential form u with its rightmost nonterminal expanded by rule r.
  function Expand(u: seq<int>, r: int): seq<int>
    requires Rightmost(u) > 0
  {
    var n := Rightmost(u);
    u[..n - 1] + Rhs(r) + u[n..]
  }

  // Expanding rightmost nonterminals by these rules leads from u to v.
  predicate Derives(rules: seq<int>, u: seq<int>, v: seq<int>)
    decreases |rules|
  {
    if rules == [] then u == v
    else
      && Rightmost(u) > 0 && 0 < rules[0] <= RULES && u[Rightmost(u) - 1] == R1(rules[0])
      && Derives(rules[1..], Expand(u, rules[0]), v)
  }

  lemma RightmostBefore(u: seq<int>, x: int)
    requires Terminal(x)
    ensures Rightmost(u + [x]) == Rightmost(u)
  {
    assert (u + [x])[..|u|] == u;
  }

  lemma ExpandBefore(u: seq<int>, r: int, x: int)
    requires Rightmost(u) > 0 && Rightmost(u + [x]) == Rightmost(u)
    ensures Expand(u + [x], r) == Expand(u, r) + [x]
  {
    hide Rhs, Rightmost;
    var n := Rightmost(u);
    assert (u + [x])[..n - 1] == u[..n - 1] && (u + [x])[n..] == u[n..] + [x];
  }

  // A terminal at the end stays there.
  lemma {:induction false} DerivesBefore(rules: seq<int>, u: seq<int>, v: seq<int>, x: int)
    requires Derives(rules, u, v) && Terminal(x)
    ensures Derives(rules, u + [x], v + [x])
    decreases |rules|
  {
    RightmostBefore(u, x);
    if rules != [] {
      hide R1, Expand, Rightmost;
      ExpandBefore(u, rules[0], x);
      DerivesBefore(rules[1..], Expand(u, rules[0]), v, x);
      assert (u + [x])[Rightmost(u) - 1] == u[Rightmost(u) - 1];
    }
  }

  // Undoing a reduction at the end of a sentential form is a rightmost step.
  lemma ReducedDerives(rules: seq<int>, a: seq<int>, r: int, v: seq<int>)
    requires 0 < r <= RULES && Derives(rules, a + Rhs(r), v) && !Terminal(R1(r))
    ensures Derives([r] + rules, a + [R1(r)], v)
  {
    hide R1, Rhs;
    var u := a + [R1(r)];
    assert Rightmost(u) == |u|;
    assert Expand(u, r) == a + Rhs(r);
    assert ([r] + rules)[1..] == rules;
  }

  // --- The symbols on the stack --------------------------------------------------------

  function Symbol(s: int): int {
    if 0 <= s < STATES then Stos(s) else 0
  }

  function Symbols(k: Stack): seq<int> {
    if k.Bottom? then [] else Symbols(k.below) + [Symbol(k.top)]
  }

  // A shift pushes the token, a goto the left-hand side of the rule.
  lemma ShiftSymbol(s: int, k: int, t: int)
    requires Shifts(s, k, t)
    ensures Symbol(t) == k
  {
    hide ItemShifts, PartShifts, SignShifts;
    if ItemShifts(s, k, t) {
      ItemSymbol(s, k, t);
    } else if PartShifts(s, k, t) {
      PartSymbol(s, k, t);
    } else if SignShifts(s, k, t) {
      SignSymbol(s, k, t);
    }
  }

  lemma ItemSymbol(s: int, k: int, t: int)
    requires ItemShifts(s, k, t)
    ensures Symbol(t) == k
  {}

  lemma PartSymbol(s: int, k: int, t: int)
    requires PartShifts(s, k, t)
    ensures Symbol(t) == k
  {}

  lemma SignSymbol(s: int, k: int, t: int)
    requires SignShifts(s, k, t)
    ensures Symbol(t) == k
  {}

  lemma GotoSymbol(b: int, r: int)
    requires 1 < r <= RULES && Gotos(b, r, Target(b, r))
    ensures Symbol(Target(b, r)) == R1(r) && !Terminal(R1(r))
  {
    hide Symbol, R1, StringBase, CodeBase, TextBase;
    if r <= 13 {
      ItemGotoSymbol(b, r);
    } else if r <= 31 {
      PartGotoSymbol(r);
    } else if r <= 48 {
      ValueGotoSymbol(r);
    } else if r <= 55 {
      CallbackGotoSymbol(b, r);
    } else {
      BlockGotoSymbol(b, r);
    }
  }

  lemma ItemGotoSymbol(b: int, r: int)
    requires 1 < r <= 13
    ensures Symbol(Target(b, r)) == R1(r) >= NTOKENS
  {}

  lemma PartGotoSymbol(r: int)
    requires 14 <= r <= 31
    ensures Symbol(46) == Symbol(83) == R1(r) >= NTOKENS
  {}

  lemma ValueGotoSymbol(r: int)
    requires 32 <= r <= 48
    ensures Symbol(r + 15) == R1(r) >= NTOKENS
  {}

  lemma CallbackGotoSymbol(b: int, r: int)
    requires 49 <= r <= 55
    ensures Symbol(CallbackTarget(b, r)) == R1(r) >= NTOKENS
  {}

  lemma BlockGotoSymbol(b: int, r: int)
    requires 56 <= r <= RULES && PhraseGotos(b, r, Target(b, r))
    ensures Symbol(Target(b, r)) == R1(r) >= NTOKENS
  {}

  // --- The right-hand side of a rule about to be reduced --------------------------------

  lemma Last(k: Stack)
    requires Linked(k) && Top(k) != 0
    ensures Symbols(k) == Symbols(Below(k)) + [Symbol(Top(k))]
    ensures Linked(Below(k)) && Follows(Top(Below(k)), Top(k))
  {
    Pred(k);
  }

  lemma LastTwo(k: Stack)
    requires Linked(k) && Top(k) != 0 && Top(Below(k)) != 0
    ensures Symbols(k) == Symbols(Below(Below(k))) + [Symbol(Top(Below(k))), Symbol(Top(k))]
    ensures Linked(Below(Below(k))) && Follows(Top(Below(Below(k))), Top(Below(k)))
  {
    Last(k);
    Last(Below(k));
  }

  lemma LastThree(k: Stack)
    requires Linked(k) && Top(k) != 0 && Top(Below(k)) != 0 && Top(Below(Below(k))) != 0
    ensures Symbols(k) ==
            Symbols(Below(Below(Below(k)))) + [Symbol(Top(Below(Below(k)))), Symbol(Top(Below(k))), Symbol(Top(k))]
    ensures Linked(Below(Below(Below(k)))) && Follows(Top(Below(Below(Below(k)))), Top(Below(Below(k))))
  {
    Last(k);
    LastTwo(Below(k));
  }

  lemma ValueOnStack(k: Stack, r: int)
    requires Linked(k) && 32 <= r <= 48 && Reduces(Top(k), r)
    ensures Symbols(k) == Symbols(Pop(k, R2(r))) + PartRhs(RuleKeyword(r))
  {
    ValueLength(r);
    Pred(k);
    if IsFlag(RuleKeyword(r)) {
      Last(k);
      FlagSymbol(Top(k));
    } else {
      BelowValue(Top(Below(k)), Top(k));
      Pred(Below(k));
      BelowEquals(Top(Below(Below(k))), Top(Below(k)));
      LastThree(k);
      ValueSymbol(Top(k));
      EqualsSymbol(Top(Below(k)), Top(k));
      KeywordSymbol(Top(Below(Below(k))), Top(Below(k)));
    }
  }

  lemma FlagSymbol(s: int)
    requires s == 35 || s == 40
    ensures Symbol(s) == KeywordOf(s)
  {}

  lemma ValueSymbol(s: int)
    requires AtValue(s)
    ensures var key := ValueKeyword(s); Symbol(s) == if TakesCode(key) then 67 else if TakesText(key) then 69 else 66
  {}

  lemma EqualsSymbol(a: int, s: int)
    requires AtValue(s) && Follows(a, s)
    ensures AtEquals(a) && Symbol(a) == EQUALS && EqualsKeyword(a) == ValueKeyword(s)
  {}

  lemma KeywordSymbol(a: int, s: int)
    requires AtEquals(s) && Follows(a, s)
    ensures AtKeyword(a) && Symbol(a) == KeywordOf(a) == EqualsKeyword(s)
  {}

  lemma PartOnStack(k: Stack, r: int)
    requires Linked(k) && 14 <= r <= 31 && Top(k) == r + 33
    ensures Symbols(k) == Symbols(Pop(k, R2(r))) + [r + 30]
  {
    Last(k);
  }

  lemma BlockOnStack(k: Stack, r: int)
    requires Linked(k) && 56 <= r <= RULES && PhraseReduces(Top(k), r)
    ensures Symbols(k) == Symbols(Pop(k, R2(r))) + BlockRhs(r)
  {
    match r
    case 56 =>
      Pred(k);
      Pred(Below(k));
      LastThree(k);
    case 58 =>
      Pred(k);
      Pred(Below(k));
      Pred(Below(Below(k)));
      LastThree(k);
      Last(Below(Below(Below(k))));
      CodeSymbols();
    case 59 =>
      Pred(k);
      Pred(Below(k));
      LastThree(k);
    case 60 =>
      Pred(k);
      LastTwo(k);
    case 61 => Last(k);
    case _ =>
  }

  lemma CodeSymbols()
    ensures Symbol(26) == CLOSEBRACE && Symbol(23) == TEXTS && Symbol(19) == 68 && Symbol(13) == OPENBRACE
    ensures [OPENBRACE] + [68, TEXTS, CLOSEBRACE] == [OPENBRACE, 68, TEXTS, CLOSEBRACE]
  {}

  lemma ItemOnStack(k: Stack, r: int)
    requires Linked(k) && 1 < r <= 13 && ItemReduces(Top(k), r)
    ensures Symbols(k) == Symbols(Pop(k, R2(r))) + (if r <= 7 then FileRhs(r) else ItemRhs(r))
  {
    if r == 4 || r == 8 || r == 9 || r == 12 {
      Pred(k);
      LastTwo(k);
    } else if r == 11 {
      PatternOnStack(k);
    } else if r != 10 {
      Last(k);
    }
  }

  lemma PatternOnStack(k: Stack)
    requires Linked(k) && Top(k) == 82
    ensures Symbols(k) == Symbols(Pop(k, 7)) + ItemRhs(11)
  {
    var three := Below(Below(Below(k)));
    Pred(k);
    Pred(Below(k));
    LastThree(k);
    Pred(three);
    Pred(Below(three));
    LastThree(three);
    var six := Below(Below(Below(three)));
    Last(six);
    PatternSymbols();
    assert Pop(k, 7) == Below(six);
  }

  lemma PatternSymbols()
    ensures Symbol(82) == CLOSEBRACKET && Symbol(45) == 42 && Symbol(24) == OPENBRACKET && Symbol(21) == EQUALS
    ensures Symbol(18) == 41 && Symbol(12) == 66 && Symbol(2) == PATTERN
    ensures [PATTERN] + [66, 41, EQUALS] + [OPENBRACKET, 42, CLOSEBRACKET] == ItemRhs(11)
  {}

  lemma CallbackOnStack(k: Stack, r: int)
    requires Linked(k) && 49 <= r <= 55 && PhraseReduces(Top(k), r)
    ensures Symbols(k) == Symbols(Pop(k, R2(r))) + CallbackRhs(r)
  {
    match r
    case 50 => GroupOnStack(k);
    case 52 => ListOnStack(k);
    case 53 =>
      Pred(k);
      LastTwo(k);
    case 54 => Last(k);
    case 55 =>
      Pred(k);
      Pred(Below(k));
      LastThree(k);
    case _ =>
  }

  lemma ListOnStack(k: Stack)
    requires Linked(k) && Top(k) == 111
    ensures Symbols(k) == Symbols(Pop(k, 6)) + CallbackRhs(52)
  {
    var three := Below(Below(Below(k)));
    Pred(k);
    Pred(Below(k));
    LastThree(k);
    Pred(three);
    Pred(Below(three));
    LastThree(three);
    ListSymbols();
  }

  lemma ListSymbols()
    ensures Symbol(111) == CLOSEBRACKET && Symbol(106) == 64 && Symbol(103) == OPENBRACKET && Symbol(85) == EQUALS
    ensures Symbol(66) == 63 && Symbol(27) == CALLBACKS
    ensures [CALLBACKS, 63, EQUALS] + [OPENBRACKET, 64, CLOSEBRACKET] == CallbackRhs(52)
  {}

  lemma GroupOnStack(k: Stack)
    requires Linked(k) && Top(k) == 117
    ensures Symbols(k) == Symbols(Pop(k, 9)) + CallbackRhs(50)
  {
    var three := Below(Below(Below(k)));
    Pred(k);
    Pred(Below(k));
    LastThree(k);
    Pred(three);
    Pred(Below(three));
    LastThree(three);
    var six := Below(Below(Below(three)));
    Pred(six);
    Pred(Below(six));
    LastThree(six);
    GroupSymbols();
    assert Pop(k, 9) == Below(Below(Below(six)));
  }

  lemma GroupSymbols()
    ensures Symbol(117) == CLOSEBRACKET && Symbol(116) == 64 && Symbol(114) == OPENBRACKET && Symbol(110) == EQUALS
    ensures Symbol(105) == 62 && Symbol(102) == CLOSEPAREN && Symbol(84) == 66 && Symbol(65) == OPENPAREN
    ensures Symbol(27) == CALLBACKS
    ensures [CALLBACKS, OPENPAREN, 66] + [CLOSEPAREN, 62, EQUALS] + [OPENBRACKET, 64, CLOSEBRACKET] == CallbackRhs(50)
  {}

  lemma RhsOnStack(k: Stack, r: int)
    requires Linked(k) && 1 < r <= RULES && Reduces(Top(k), r)
    ensures Symbols(k) == Symbols(Pop(k, R2(r))) + Rhs(r)
  {
    hide Linked, Symbols, Pop, R2;
    if r <= 13 {
      ItemOnStack(k, r);
    } else if r <= 31 {
      PartOnStack(k, r);
    } else if r <= 48 {
      ValueOnStack(k, r);
    } else if r <= 55 {
      CallbackOnStack(k, r);
    } else {
      BlockOnStack(k, r);
    }
  }

  // --- The moves of the parser ----------------------------------------------------------

  // The symbols on the stack derive the tokens shifted so far, by the reductions made so
  // far, the last one first. A shift keeps this,
  lemma ShiftDerives(rules: seq<int>, k: Stack, consumed: seq<int>, token: int, t: int, v: string)
    requires Derives(rules, Symbols(k), consumed) && Shifts(Top(k), token, t) && Terminal(token)
    ensures Derives(rules, Symbols(Push(k, t, v)), consumed + [token])
  {
    ShiftSymbol(Top(k), token, t);
    hide Symbol, Shifts;
    DerivesBefore(rules, Symbols(k), consumed, token);
  }

  // and so does a reduction.
  lemma ReduceDerives(rules: seq<int>, k: Stack, consumed: seq<int>, r: int, v: string)
    requires Derives(rules, Symbols(k), consumed) && Linked(k) && 1 < r <= RULES && Reduces(Top(k), r) && Steps(k, r)
    ensures var b := Pop(k, R2(r)); Derives([r] + rules, Symbols(Push(b, Target(Top(b), r), v)), consumed)
  {
    hide Linked, Reduces, Symbol, R1, R2, Pop, Target, Rhs, Terminal;
    RhsOnStack(k, r);
    var b := Pop(k, R2(r));
    GotoSymbol(Top(b), r);
    ReducedDerives(rules, Symbols(b), r, consumed);
  }

  // In the final state, the stack holds the start symbol and the end of the input.
  lemma FinalSymbols(k: Stack)
    requires Linked(k) && Top(k) == FINAL
    ensures Symbols(k) == [FILE, END]
  {
    Pred(k);
    LastTwo(k);
    Pred(Below(k));
  }
}
