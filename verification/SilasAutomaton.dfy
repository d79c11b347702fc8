/** The LALR automaton of the Silas grammar as plain relations, and the proof that the
    compressed tables encode it. */
module SilasAutomaton {
  import opened Lr
  import opened SilasTables
  import opened SilasTranslator

  // The shifts of the automaton, read off the grammar.
  predicate Shifts(s: int, k: int, t: int) {
    match s
    case 0 => k == MODEL && t == 1
    case 1 | 17 | 27 | 41 => k == QUOTE && t == 4
    case 2 => k == END && t == 6
    case 3 | 10 => (k == BALANCE && t == 7) || (k == CUT && t == 8) || (k == SCALE && t == 9)
    case 4 => k == STRING && t == 15
    case 7 | 9 => k == REGION && t == 17
    case 8 => (k == REGION && t == 17) || (k == MESSAGE && t == 19)
    case 15 => k == QUOTE && t == 23
    case 16 | 29 =>
      || (k == AGGREGATE_IDLE && t == 24) || (k == IDLE_OVERHEAD && t == 25)
      || (k == NOOP_THRESHOLD && t == 26) || (k == OPTION && t == 27) || (k == SKIP_THRESHOLD && t == 28)
    case 19 => (k == SIZE && t == 32) || (k == TAG && t == 33)
    case 21 | 25 | 26 | 28 => (k == UNSIGNED && t == 35) || (k == INTEGER && t == 36) || (k == REAL && t == 37)
    case 32 | 33 => k == RELATION && t == 44
    case 45 => k == UNSIGNED && t == 48
    case 46 => k == UNSIGNED && t == 49
    case _ => false
  }

  ghost predicate NoShift(s: int, k: int) {
    forall t :: !Shifts(s, k, t)
  }

  // The default reduction of a state.
  predicate Reduces(s: int, r: int) {
    0 <= s < STATES && r != 0 && SilasTables.Defact(s) == r
  }

  // The state entered after reducing by r on top of state b.
  predicate Gotos(b: int, r: int, g: int) {
    if r <= 12 then
      match r
      case 2 => b == 0 && g == 2
      case 3 => b == 5 && g == 16
      case 4 => b == 0 && g == 3
      case 5 => b == 16 && g == 29
      case 6 => b == 16 && g == 29
      case _ => 7 <= r && ((b == 16 && g == 30) || (b == 29 && g == 43))
    else if r <= 18 then
      if r <= 14 then b == 3 && g == 10
      else (b == 3 && g == 11) || (b == 10 && g == 22)
    else if r <= 26 then
      match r
      case 19 => (b == 7 && g == 18) || (b == 8 && g == 20) || (b == 9 && g == 21)
      case 20 => (b == 3 || b == 10) && g == 12
      case 21 => (b == 3 || b == 10) && g == 13
      case 22 => (b == 3 || b == 10) && g == 13
      case 26 => (b == 3 || b == 10) && g == 14
      case _ => b == 19 && g == 34
    else
      match r
      case 27 => (b == 32 && g == 45) || (b == 33 && g == 46)
      case 28 => (b == 1 && g == 5) || (b == 17 && g == 31) || (b == 27 && g == 41) || (b == 41 && g == 47)
      case _ => (b == 21 && g == 38) || (b == 25 && g == 39) || (b == 26 && g == 40) || (b == 28 && g == 42)
  }

  // The compressed tables encode exactly these shifts; everything else is the default.
  lemma TableShifts(s: int, k: int, t: int)
    requires 0 <= s < STATES
    ensures Decide(SilasGrammar, s, k) == Shift(t) <==> Shifts(s, k, t)
  {
    if Shifts(s, k, t) {
      ShiftsInTable(s, k, t);
    } else if Decide(SilasGrammar, s, k).Shift? {
      ShiftsFromTable(s, k);
    }
  }

  lemma ShiftsInTable(s: int, k: int, t: int)
    requires 0 <= s < STATES && Shifts(s, k, t)
    ensures Decide(SilasGrammar, s, k) == Shift(t)
  {}

  lemma ShiftsFromTable(s: int, k: int)
    requires 0 <= s < STATES && Decide(SilasGrammar, s, k).Shift?
    ensures Shifts(s, k, Decide(SilasGrammar, s, k).state)
  {
    var n := Lr.Pact(SilasGrammar, s) + k;
    if n < 9 {
      assert Lr.Check(SilasGrammar, n) == k;
    } else if n < 18 {
      assert Lr.Check(SilasGrammar, n) == k;
    } else if n < 27 {
      assert Lr.Check(SilasGrammar, n) == k;
    } else {
      assert Lr.Check(SilasGrammar, n) == k;
    }
  }

  lemma TableDefaults(s: int, k: int)
    requires 0 <= s < STATES
    ensures !Decide(SilasGrammar, s, k).Shift? ==> Decide(SilasGrammar, s, k) == Default(SilasGrammar, s)
  {}

  lemma TableGotos(b: int, r: int, g: int)
    requires 0 < r <= RULES && Gotos(b, r, g)
    ensures Goto(SilasGrammar, b, R1(r)) == g && Follows(b, g)
  {}
}
