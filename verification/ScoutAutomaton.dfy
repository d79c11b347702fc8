/** The LALR automaton of the Scout grammar as plain relations, and the proof that the
    compressed tables encode it. */
module ScoutAutomaton {
  import opened Lr
  import opened ScoutTables
  import opened PatternRegistry
  import opened ScoutTranslator

  // --- Groups of states --------------------------------------------------------------

  // A String, a CodeBlock or a TextBlock comes next.
  predicate StringBase(s: int) {
    || 1 <= s <= 2 || s == 65 || s == 67 || s == 69 || s == 72 || s == 74 || 76 <= s <= 78
    || s == 80 || s == 81 || s == 103 || s == 106 || s == 114 || s == 116
  }

  predicate CodeBase(s: int) {
    s == 3 || s == 68 || s == 70 || s == 75 || s == 79 || s == 113
  }

  predicate TextBase(s: int) {
    s == 71 || s == 73
  }

  // After the keyword of a part that has a value; after its equals sign; after its value.
  predicate AtKeyword(s: int) {
    28 <= s <= 34 || 36 <= s <= 39 || 41 <= s <= 44
  }

  predicate AtEquals(s: int) {
    67 <= s <= 81
  }

  predicate AtValue(s: int) {
    86 <= s <= 89 || 91 <= s <= 101
  }

  // The state of a keyword, and back.
  function KeywordState(kind: int): int {
    if kind <= 13 then kind + 22 else if kind <= 20 then kind + 21 else kind + 19
  }

  function KeywordOf(s: int): int {
    if s <= 35 then s - 22 else if s <= 41 then s - 21 else s - 19
  }

  function EqualsState(s: int): int {
    if s <= 34 then s + 39 else if s <= 39 then s + 38 else s + 37
  }

  // The keyword below an equals sign.
  function EqualsKeyword(s: int): int {
    KeywordOf(if s <= 73 then s - 39 else if s <= 77 then s - 38 else s - 37)
  }

  // The state of the value after an equals sign.
  function ValueState(s: int): int {
    if s <= 70 then s + 19 else s + 20
  }

  function ValueKeyword(s: int): int {
    EqualsKeyword(if s <= 89 then s - 19 else s - 20)
  }

  // The keyword of rules 32 to 48.
  function RuleKeyword(r: int): int {
    if r < 40 then
      match r
      case 32 => NAME
      case 33 => CLASS
      case 34 => DOCNAME
      case 35 => PARENT
      case 36 => TYPE
      case 37 => HIDDEN
      case 38 => NODOCS
      case _ => INFO
    else
      match r
      case 40 => DESCR
      case 41 => DIAGNOSIS
      case 42 => UNIT
      case 43 => MODE
      case 44 => CONDITION
      case 45 => INIT
      case 46 => STATICINIT
      case 47 => CLEANUP
      case _ => DATA
  }

  // --- The automaton -----------------------------------------------------------------

  // The shifts of the automaton, read off the grammar.
  predicate Shifts(s: int, k: int, t: int) {
    || (k == QUOTE && t == 10 && StringBase(s))
    || (k == QUOTE && t == 20 && s == 17)
    || (k == STRING && t == 17 && s == 10)
    || (k == OPENBRACE && t == 13 && CodeBase(s))
    || (k == OPENBRACE && t == 90 && TextBase(s))
    || (k == TEXT && t == 22 && (s == 19 || s == 90))
    || (k == TEXT && t == 25 && (s == 23 || s == 104))
    || (k == CLOSEBRACE && ((s == 23 && t == 26) || (s == 104 && t == 109)))
    || ItemShifts(s, k, t) || PartShifts(s, k, t) || SignShifts(s, k, t)
  }

  predicate ItemShifts(s: int, k: int, t: int) {
    || ((s == 0 || s == 5) && ((k == INCLUDE && t == 1) || (k == PATTERN && t == 2) || (k == PROLOG && t == 3)))
    || (s == 4 && k == END && t == 15)
  }

  predicate PartShifts(s: int, k: int, t: int) {
    || ((s == 24 || s == 45) && IsKeyword(k) && t == KeywordState(k))
    || (s == 45 && k == CLOSEBRACKET && t == 82)
    || (AtKeyword(s) && k == EQUALS && t == EqualsState(s))
    || (s == 27 && k == OPENPAREN && t == 65)
    || (s == 84 && k == CLOSEPAREN && t == 102)
  }

  predicate SignShifts(s: int, k: int, t: int) {
    || (k == EQUALS && ((s == 18 && t == 21) || (s == 66 && t == 85) || (s == 105 && t == 110) || (s == 108 && t == 113)))
    || (k == OPENBRACKET && ((s == 21 && t == 24) || (s == 85 && t == 103) || (s == 110 && t == 114)))
    || (k == CLOSEBRACKET && ((s == 106 && t == 111) || (s == 116 && t == 117)))
  }

  ghost predicate NoShift(s: int, k: int) {
    forall t :: !Shifts(s, k, t)
  }

  // The default reduction of a state, which is also its only one.
  predicate Reduces(s: int, r: int) {
    if r <= 13 then ItemReduces(s, r)
    else if r <= 31 then s == r + 33
    else if r <= 48 then
      if IsFlag(RuleKeyword(r)) then (s == 35 || s == 40) && KeywordOf(s) == RuleKeyword(r)
      else AtValue(s) && ValueKeyword(s) == RuleKeyword(r)
    else PhraseReduces(s, r)
  }

  predicate ItemReduces(s: int, r: int) {
    if r < 8 then
      match r
      case 1 => s == 15
      case 2 => s == 5
      case 3 => s == 6
      case 4 => s == 16
      case 5 => s == 7
      case 6 => s == 9
      case 7 => s == 8
      case _ => false
    else
      match r
      case 8 => s == 11
      case 9 => s == 14
      case 10 => s == 12
      case 11 => s == 82
      case 12 => s == 83
      case _ => s == 46 // 13
  }

  predicate PhraseReduces(s: int, r: int) {
    if r < 56 then
      match r
      case 49 => s == 102
      case 50 => s == 117
      case 51 => s == 27
      case 52 => s == 111
      case 53 => s == 112
      case 54 => s == 107
      case _ => s == 115 // 55
    else
      match r
      case 56 => s == 20
      case 57 => s == 13
      case 58 => s == 26
      case 59 => s == 109
      case 60 => s == 25
      case 61 => s == 22
      case _ => false
  }

  // The state entered after reducing by r on top of state b.
  predicate Gotos(b: int, r: int, g: int) {
    if r <= 13 then ItemGotos(b, r, g)
    else if r <= 31 then (b == 24 && g == 46) || (b == 45 && g == 83)
    else if r <= 48 then (b == 24 || b == 45) && g == r + 15
    else if r <= 55 then CallbackGotos(b, r, g)
    else PhraseGotos(b, r, g)
  }

  predicate ItemGotos(b: int, r: int, g: int) {
    if r <= 4 then b == 0 && r > 1 && g == (if r == 2 then 4 else 5)
    else if r <= 7 then (b == 0 && g == 6) || (b == 5 && g == 16)
    else if r == 10 then b == 12 && g == 18
    else if r <= 11 then (b == 0 || b == 5) && g == (if r == 8 then 7 else if r == 9 then 8 else 9)
    else b == 24 && g == 45
  }

  predicate CallbackGotos(b: int, r: int, g: int) {
    match r
    case 49 => b == 102 && g == 105
    case 51 => b == 27 && g == 66
    case 50 => (b == 24 || b == 45) && g == 64
    case 52 => (b == 24 || b == 45) && g == 64
    case 55 => ((b == 103 || b == 114) && g == 107) || ((b == 106 || b == 116) && g == 112)
    case _ => (b == 103 && g == 106) || (b == 114 && g == 116) // 53, 54
  }

  predicate PhraseGotos(b: int, r: int, g: int) {
    match r
    case 56 => StringBase(b) && g == StringState(b)
    case 57 => b == 13 && g == 19
    case 58 => CodeBase(b) && g == CodeState(b)
    case 59 => TextBase(b) && g == ValueState(b)
    case _ => (b == 19 && g == 23) || (b == 90 && g == 104) // 60, 61
  }

  function StringState(b: int): int {
    if b <= 2 then b + 10 else if b == 65 then 84 else if b <= 81 then ValueState(b) else 108
  }

  function CodeState(b: int): int {
    if b == 3 then 14 else if b == 113 then 115 else ValueState(b)
  }

  // --- The compressed tables encode exactly these moves ------------------------------

  lemma TableShifts(s: int, k: int, t: int)
    requires 0 <= s < STATES
    ensures Decide(ScoutGrammar, s, k) == Shift(t) <==> Shifts(s, k, t)
  {
    if Shifts(s, k, t) {
      ShiftsInTable(s, k, t);
    } else if Decide(ScoutGrammar, s, k).Shift? {
      ShiftsFromTable(s, k);
    }
  }

  lemma ShiftsInTable(s: int, k: int, t: int)
    requires 0 <= s < STATES && Shifts(s, k, t)
    ensures Decide(ScoutGrammar, s, k) == Shift(t)
  {
    hide Decide, ItemShifts, PartShifts, SignShifts, StringBase, CodeBase, TextBase;
    if ItemShifts(s, k, t) {
      ItemsInTable(s, k, t);
    } else if PartShifts(s, k, t) {
      PartsInTable(s, k, t);
    } else if SignShifts(s, k, t) {
      SignsInTable(s, k, t);
    } else if k == QUOTE && t == 10 {
      StringsInTable(s);
    } else {
      BlocksInTable(s, k, t);
    }
  }

  lemma StringsInTable(s: int)
    requires StringBase(s)
    ensures Decide(ScoutGrammar, s, QUOTE) == Shift(10)
  {}

  lemma BlocksInTable(s: int, k: int, t: int)
    requires Shifts(s, k, t) && !ItemShifts(s, k, t) && !PartShifts(s, k, t) && !SignShifts(s, k, t) && t != 10
    ensures 0 <= s < STATES && Decide(ScoutGrammar, s, k) == Shift(t)
  {
    hide ItemShifts, PartShifts, SignShifts, StringBase;
  }

  lemma ItemsInTable(s: int, k: int, t: int)
    requires ItemShifts(s, k, t)
    ensures Decide(ScoutGrammar, s, k) == Shift(t)
  {}

  lemma SignsInTable(s: int, k: int, t: int)
    requires SignShifts(s, k, t)
    ensures Decide(ScoutGrammar, s, k) == Shift(t)
  {}

  lemma PartsInTable(s: int, k: int, t: int)
    requires PartShifts(s, k, t)
    ensures Decide(ScoutGrammar, s, k) == Shift(t)
  {
    hide Decide;
    if s == 24 || s == 45 {
      if k == CLOSEBRACKET {
        assert Decide(ScoutGrammar, 45, CLOSEBRACKET) == Shift(82) by { KeywordsInTable(CLOSEBRACKET); }
      } else {
        KeywordsInTable(k);
      }
    } else if AtKeyword(s) {
      EqualsInTable(s);
    } else {
      GroupInTable();
    }
  }

  lemma KeywordsInTable(k: int)
    requires IsKeyword(k) || k == CLOSEBRACKET
    ensures k == CLOSEBRACKET ==> Decide(ScoutGrammar, 45, k) == Shift(82)
    ensures IsKeyword(k) ==> Decide(ScoutGrammar, 24, k) == Decide(ScoutGrammar, 45, k) == Shift(KeywordState(k))
  {
    assert Lr.Pact(ScoutGrammar, 24) == 76 && Lr.Pact(ScoutGrammar, 45) == 13;
  }

  lemma EqualsInTable(s: int)
    requires AtKeyword(s)
    ensures Decide(ScoutGrammar, s, EQUALS) == Shift(EqualsState(s))
  {}

  lemma GroupInTable()
    ensures Decide(ScoutGrammar, 27, OPENPAREN) == Shift(65) && Decide(ScoutGrammar, 84, CLOSEPAREN) == Shift(102)
  {}

  lemma ShiftsFromTable(s: int, k: int)
    requires 0 <= s < STATES && Decide(ScoutGrammar, s, k).Shift?
    ensures Shifts(s, k, Decide(ScoutGrammar, s, k).state)
  {
    hide Decide, Shifts;
    if s < 15 {
      FromTable0(s, k);
    } else if s < 30 {
      FromTable1(s, k);
    } else if s < 60 {
      FromTable2(s, k);
    } else if s < 90 {
      FromTable3(s, k);
    } else {
      FromTable4(s, k);
    }
  }

  lemma FromTable0(s: int, k: int)
    requires 0 <= s < 15 && Decide(ScoutGrammar, s, k).Shift?
    ensures Shifts(s, k, Decide(ScoutGrammar, s, k).state)
  {}

  lemma FromTable1(s: int, k: int)
    requires 15 <= s < 30 && Decide(ScoutGrammar, s, k).Shift?
    ensures Shifts(s, k, Decide(ScoutGrammar, s, k).state)
  {}

  lemma FromTable2(s: int, k: int)
    requires 30 <= s < 60 && Decide(ScoutGrammar, s, k).Shift?
    ensures Shifts(s, k, Decide(ScoutGrammar, s, k).state)
  {}

  lemma FromTable3(s: int, k: int)
    requires 60 <= s < 90 && Decide(ScoutGrammar, s, k).Shift?
    ensures Shifts(s, k, Decide(ScoutGrammar, s, k).state)
  {}

  lemma FromTable4(s: int, k: int)
    requires 90 <= s < STATES && Decide(ScoutGrammar, s, k).Shift?
    ensures Shifts(s, k, Decide(ScoutGrammar, s, k).state)
  {}

  lemma TableDefaults(s: int, k: int)
    requires 0 <= s < STATES
    ensures !Decide(ScoutGrammar, s, k).Shift? ==> Decide(ScoutGrammar, s, k) == Default(ScoutGrammar, s)
  {}

  lemma TableReductions(s: int, r: int)
    requires 0 <= s < STATES && r != 0
    ensures ScoutTables.Defact(s) == r <==> Reduces(s, r)
  {
    hide Reduces, ScoutTables.Defact;
    if s < 24 {
      Reductions0(s, r);
    } else if s < 47 {
      Reductions1(s, r);
    } else if s < 83 {
      Reductions2(s, r);
    } else {
      Reductions3(s, r);
    }
  }

  lemma Reductions0(s: int, r: int)
    requires 0 <= s < 24 && r != 0
    ensures ScoutTables.Defact(s) == r <==> Reduces(s, r)
  {}

  lemma Reductions1(s: int, r: int)
    requires 24 <= s < 47 && r != 0
    ensures ScoutTables.Defact(s) == r <==> Reduces(s, r)
  {}

  lemma Reductions2(s: int, r: int)
    requires 47 <= s < 83 && r != 0
    ensures ScoutTables.Defact(s) == r <==> Reduces(s, r)
  {}

  lemma Reductions3(s: int, r: int)
    requires 83 <= s < STATES && r != 0
    ensures ScoutTables.Defact(s) == r <==> Reduces(s, r)
  {}

  lemma TableGotos(b: int, r: int, g: int)
    requires 0 < r <= RULES && Gotos(b, r, g)
    ensures 0 <= R1(r) - NTOKENS < 37
    ensures Goto(ScoutGrammar, b, R1(r)) == g && Follows(b, g)
  {
    hide Goto, Follows, R1, ItemGotos, CallbackGotos, StringBase;
    if r <= 13 {
      ItemGotosInTable(b, r, g);
    } else if r <= 31 {
      PartGotosInTable(b, r, g);
    } else if r <= 48 {
      ValueGotosInTable(b, r, g);
    } else if r <= 55 {
      CallbackGotosInTable(b, r, g);
    } else if r == 56 {
      StringGotosInTable(b);
    } else {
      BlockGotosInTable(b, r, g);
    }
  }

  lemma ItemGotosInTable(b: int, r: int, g: int)
    requires 0 < r <= 13 && ItemGotos(b, r, g)
    ensures 0 <= R1(r) - NTOKENS < 37 && Goto(ScoutGrammar, b, R1(r)) == g && Follows(b, g)
  {}

  lemma PartGotosInTable(b: int, r: int, g: int)
    requires 14 <= r <= 31 && ((b == 24 && g == 46) || (b == 45 && g == 83))
    ensures R1(r) == 43 && Goto(ScoutGrammar, b, 43) == g && Follows(b, g)
  {}

  lemma ValueGotosInTable(b: int, r: int, g: int)
    requires 32 <= r <= 48 && (b == 24 || b == 45) && g == r + 15
    ensures 0 <= R1(r) - NTOKENS < 37 && Goto(ScoutGrammar, b, R1(r)) == g && Follows(b, g)
  {}

  lemma CallbackGotosInTable(b: int, r: int, g: int)
    requires 49 <= r <= 55 && CallbackGotos(b, r, g)
    ensures 0 <= R1(r) - NTOKENS < 37 && Goto(ScoutGrammar, b, R1(r)) == g && Follows(b, g)
  {
    hide Goto, Follows, R1;
    if r <= 52 {
      GroupGotosInTable(b, r, g);
    } else {
      EventGotosInTable(b, r, g);
    }
  }

  lemma GroupGotosInTable(b: int, r: int, g: int)
    requires 49 <= r <= 52 && CallbackGotos(b, r, g)
    ensures 0 <= R1(r) - NTOKENS < 37 && Goto(ScoutGrammar, b, R1(r)) == g && Follows(b, g)
  {}

  lemma EventGotosInTable(b: int, r: int, g: int)
    requires 53 <= r <= 55 && CallbackGotos(b, r, g)
    ensures 0 <= R1(r) - NTOKENS < 37 && Goto(ScoutGrammar, b, R1(r)) == g && Follows(b, g)
  {}

  lemma StringGotosInTable(b: int)
    requires StringBase(b)
    ensures R1(56) == 66 && Goto(ScoutGrammar, b, 66) == StringState(b) && Follows(b, StringState(b))
  {}

  lemma BlockGotosInTable(b: int, r: int, g: int)
    requires 57 <= r <= RULES && PhraseGotos(b, r, g)
    ensures 0 <= R1(r) - NTOKENS < 37 && Goto(ScoutGrammar, b, R1(r)) == g && Follows(b, g)
  {
    hide Goto, Follows, R1, StringBase;
    if r == 58 {
      CodeGotosInTable(b);
    } else {
      TextGotosInTable(b, r, g);
    }
  }

  lemma CodeGotosInTable(b: int)
    requires CodeBase(b)
    ensures R1(58) == 67 && Goto(ScoutGrammar, b, 67) == CodeState(b) && Follows(b, CodeState(b))
  {}

  lemma TextGotosInTable(b: int, r: int, g: int)
    requires 57 <= r <= RULES && r != 58 && PhraseGotos(b, r, g)
    ensures 0 <= R1(r) - NTOKENS < 37 && Goto(ScoutGrammar, b, R1(r)) == g && Follows(b, g)
  {}
}
