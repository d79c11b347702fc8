/** The meaning of a configuration of the Scout parser: what the recursive-descent
    translator still does from the point in the grammar that the state stack stands for.
    Every move of the parser keeps it. */
module ScoutMeaning {
  import opened Lr
  import opened LrStack
  import opened CodeText
  import opened PatternRegistry
  import opened ScoutAutomaton
  import opened ScoutTables
  import opened ScoutTranslator

  // The translation after a String has been read on top of stack k.
  function AfterString(w: World, k: Stack, text: string, at: Progress): Outcome {
    if Top(k) == 1 then Included(w, text, at)
    else if Top(k) == 2 then PatternNamed(w, text, at)
    else if Top(k) == 65 then GroupClose(w, text, at)
    else if Top(k) >= 103 then EventIs(w, text, at)
    else Assign(w, EqualsKeyword(Top(k)), text, at)
  }

  function ThenString(w: World, k: Stack, r: Parsed): Outcome {
    match r
    case Failed(o) => o
    case Got(text, at) => AfterString(w, k, text, at)
  }

  // The translation after a CodeBlock, and after a TextBlock.
  function AfterCode(w: World, k: Stack, code: string, at: Progress): Outcome {
    if Top(k) == 3 then PrologDone(w, code, at)
    else if Top(k) == 113 then EventDone(w, Val(Below(k)), code, at)
    else Assign(w, EqualsKeyword(Top(k)), code, at)
  }

  function ThenCode(w: World, k: Stack, r: Parsed): Outcome {
    match r
    case Failed(o) => o
    case Got(code, at) => AfterCode(w, k, code, at)
  }

  function ThenText(w: World, k: Stack, r: Parsed): Outcome {
    match r
    case Failed(o) => o
    case Got(text, at) => Assign(w, EqualsKeyword(Top(k)), text, at)
  }

  // --- What is still to be done ------------------------------------------------------

  predicate InString(s: int) { s == 10 || s == 17 || s == 20 }

  predicate InBlock(s: int) {
    s == 13 || s == 19 || s == 22 || s == 23 || s == 25 || s == 26 || s == 90 || s == 104 || s == 109
  }

  predicate InItem(s: int) { s <= 9 || s == 11 || s == 12 || s == 14 || s == 15 || s == 16 || s == 18 || s == 21 || s == 82 }

  predicate InPart(s: int) { s == 24 || 28 <= s <= 64 || 67 <= s <= 81 || s == 83 || 86 <= s <= 89 || 91 <= s <= 101 }

  function ResumeString(w: World, k: Stack, at: Progress): Outcome {
    match Top(k)
    case 10 => ThenString(w, Below(k), StringText(at))
    case 17 => ThenString(w, Below(Below(k)), StringEnd(Val(k), at))
    case _ => AfterString(w, Below(Below(Below(k))), Val(Below(k)), at) // 20
  }

  function ResumeBlock(w: World, k: Stack, at: Progress): Outcome {
    match Top(k)
    case 13 => ThenCode(w, Below(k), CodeText0(w, MarkLine(at)))
    case 19 => ThenCode(w, Below(Below(k)), CodeText0(w, at))
    case 23 => ThenCode(w, Below(Below(Below(k))), CodeTextMore(w, Val(k), at))
    case 26 => ThenCode(w, Below(Below(Below(Below(k)))), CodeEnd(w, Val(Below(k)), at))
    case 90 => ThenText(w, Below(k), BlockText0(at))
    case 104 => ThenText(w, Below(Below(k)), BlockTextMore(Val(k), at))
    case 109 => ThenText(w, Below(Below(Below(k))), Got(Preprocessed(Val(Below(k))), at))
    case _ => ResumeText(w, k, at)
  }

  // With a TEXT token on top.
  function ResumeText(w: World, k: Stack, at: Progress): Outcome {
    var b := Below(k);
    if Top(k) == 22 then
      if Top(b) == 19 then ThenCode(w, Below(Below(b)), CodeTextMore(w, Val(k), at))
      else ThenText(w, Below(b), BlockTextMore(Val(k), at))
    else
      if Top(b) == 23 then ThenCode(w, Below(Below(Below(b))), CodeTextMore(w, Val(b) + Val(k), at))
      else ThenText(w, Below(Below(b)), BlockTextMore(Val(b) + Val(k), at))
  }

  function ResumeItem(w: World, k: Stack, at: Progress): Outcome {
    if Top(k) <= 4 then ResumeStart(w, k, at)
    else
      match Top(k)
      case 11 => Included(w, Val(k), at)
      case 12 => PatternNamed(w, Val(k), at)
      case 14 => PrologDone(w, Val(k), at)
      case 15 => Accepted(at.reg)
      case 18 => PatternIs(w, at)
      case 21 => PatternOpen(w, at)
      case 82 => PatternEnd(w, at)
      case _ => BodyMore(w, at) // 5, 6, 7, 8, 9, 16
  }

  function ResumeStart(w: World, k: Stack, at: Progress): Outcome {
    match Top(k)
    case 1 => IncludeItem(w, at)
    case 2 => PatternItem(w, at)
    case 3 => PrologItem(w, at)
    case 4 => if Next(at) == END then Accepted(at.reg) else Error(at)
    case _ => Body(w, at) // 0
  }

  function ResumePart(w: World, k: Stack, at: Progress): Outcome {
    var s := Top(k);
    if s == 24 then Parts(w, at)
    else if AtKeyword(s) then PartIs(w, KeywordOf(s), at)
    else if AtEquals(s) then PartValue(w, EqualsKeyword(s), at)
    else if AtValue(s) then Assign(w, ValueKeyword(s), Val(k), at)
    else if s == 35 || s == 40 then Assign(w, KeywordOf(s), "", at)
    else PartsMore(w, at) // 45 to 64, 83
  }

  function ResumeCallbacks(w: World, k: Stack, at: Progress): Outcome {
    var s := Top(k);
    if s <= 102 then
      match s
      case 27 => Callbacks(w, at)
      case 65 => GroupName(w, at)
      case 84 => GroupClose(w, Val(k), at)
      case 102 => CallbacksIs(w, SetGroup(at, Val(Below(k))))
      case 85 => CallbacksOpen(w, at)
      case _ => CallbacksIs(w, at) // 66
    else
      ResumeEvents(w, k, at)
  }

  function ResumeEvents(w: World, k: Stack, at: Progress): Outcome {
    var s := Top(k);
    if s == 103 || s == 114 then Events(w, at)
    else if s == 106 || s == 116 || s == 107 || s == 112 then EventsMore(w, at)
    else
      match s
      case 105 => CallbacksIs(w, at)
      case 110 => CallbacksOpen(w, at)
      case 108 => EventIs(w, Val(k), at)
      case 113 => EventCode(w, Val(Below(k)), at)
      case 115 => EventDone(w, Val(Below(Below(k))), Val(k), at)
      case _ => PartsMore(w, at) // 111, 117
  }

  // The translation from the configuration with stack k.
  function Resume(w: World, k: Stack, at: Progress): Outcome {
    var s := Top(k);
    if InString(s) then ResumeString(w, k, at)
    else if InBlock(s) then ResumeBlock(w, k, at)
    else if InItem(s) then ResumeItem(w, k, at)
    else if InPart(s) then ResumePart(w, k, at)
    else ResumeCallbacks(w, k, at)
  }

  // --- Shifts ------------------------------------------------------------------------

  lemma StringStartKeeps(w: World, k: Stack, at: Progress, text: string)
    requires StringBase(Top(k)) && Next(at) == QUOTE
    ensures Resume(w, Push(k, 10, text), Skip(at)) == Resume(w, k, at)
  {
    hide Next, Skip, Text, Included, PatternNamed, GroupClose, EventIs, Assign, StringText;
    var s := Top(k);
    if AtEquals(s) {
      EqualsStringKeeps(w, k, at, text);
    } else if s >= 103 {
      assert s == 106 || s == 116 ==> EventsMore(w, at) == Events(w, at);
      assert Resume(w, k, at) == Events(w, at);
    }
  }

  lemma EqualsStringKeeps(w: World, k: Stack, at: Progress, text: string)
    requires StringBase(Top(k)) && AtEquals(Top(k)) && Next(at) == QUOTE
    ensures Resume(w, Push(k, 10, text), Skip(at)) == Resume(w, k, at)
  {
    hide Next, Skip, Text, Assign, StringText;
    StringKeyword(Top(k));
  }

  lemma StringKeyword(s: int)
    requires AtEquals(s)
    ensures StringBase(s) <==> !TakesCode(EqualsKeyword(s)) && !TakesText(EqualsKeyword(s))
    ensures CodeBase(s) <==> TakesCode(EqualsKeyword(s))
    ensures TextBase(s) <==> TakesText(EqualsKeyword(s))
  {}

  lemma StringKeeps(w: World, k: Stack, at: Progress, t: int, text: string)
    requires (Top(k) == 10 && t == 17 && Next(at) == STRING) || (Top(k) == 17 && t == 20 && Next(at) == QUOTE)
    requires text == Text(at) || t == 20
    ensures Resume(w, Push(k, t, text), Skip(at)) == Resume(w, k, at)
  {
    hide Next, Skip, Text, AfterString;
  }

  lemma CodeStartKeeps(w: World, k: Stack, at: Progress, text: string)
    requires CodeBase(Top(k)) && Next(at) == OPENBRACE
    ensures Resume(w, Push(k, 13, text), Skip(at)) == Resume(w, k, at)
  {
    hide Next, Skip, Text, MarkLine, PrologDone, EventDone, Assign, CodeText0, EqualsKeyword;
    if AtEquals(Top(k)) {
      StringKeyword(Top(k));
    }
  }

  lemma TextStartKeeps(w: World, k: Stack, at: Progress, text: string)
    requires TextBase(Top(k)) && Next(at) == OPENBRACE
    ensures Resume(w, Push(k, 90, text), Skip(at)) == Resume(w, k, at)
  {
    hide Next, Skip, Text, Assign, BlockText0, EqualsKeyword;
    StringKeyword(Top(k));
  }

  lemma TextKeeps(w: World, k: Stack, at: Progress, t: int, text: string)
    requires Next(at) == TEXT && text == Text(at)
    requires (t == 22 && (Top(k) == 19 || Top(k) == 90)) || (t == 25 && (Top(k) == 23 || Top(k) == 104))
    ensures Resume(w, Push(k, t, text), Skip(at)) == Resume(w, k, at)
  {
    hide Next, Skip, Text, AfterCode, Assign;
  }

  lemma CloseKeeps(w: World, k: Stack, at: Progress, t: int, text: string)
    requires Next(at) == CLOSEBRACE && ((Top(k) == 23 && t == 26) || (Top(k) == 104 && t == 109))
    ensures Resume(w, Push(k, t, text), Skip(at)) == Resume(w, k, at)
  {
    hide Next, Skip, Text, AfterCode, Assign, CodeEnd, Preprocessed;
  }

  lemma ItemKeeps(w: World, k: Stack, at: Progress, t: int, text: string)
    requires ItemShifts(Top(k), Next(at), t) && t != 15
    ensures Resume(w, Push(k, t, text), Skip(at)) == Resume(w, k, at)
  {
    hide Next, Skip, Text, IncludeItem, PatternItem, PrologItem;
    assert Top(k) == 5 ==> BodyMore(w, at) == Body(w, at);
  }

  lemma PartKeeps(w: World, k: Stack, at: Progress, t: int, text: string)
    requires PartShifts(Top(k), Next(at), t)
    ensures Resume(w, Push(k, t, text), Skip(at)) == Resume(w, k, at)
  {
    hide Next, Skip, Text, PartValue, Assign, PatternEnd, GroupName, CallbacksIs, SetGroup;
    if Top(k) == 24 || Top(k) == 45 {
      if Next(at) != CLOSEBRACKET {
        KeywordKeeps(w, k, at, text);
      }
    } else if AtKeyword(Top(k)) {
      EqualsOfKeyword(Top(k));
      assert Resume(w, k, at) == PartIs(w, KeywordOf(Top(k)), at);
      assert Resume(w, Push(k, t, text), Skip(at)) == PartValue(w, EqualsKeyword(t), Skip(at));
    }
  }

  lemma KeywordKeeps(w: World, k: Stack, at: Progress, text: string)
    requires (Top(k) == 24 || Top(k) == 45) && IsKeyword(Next(at))
    ensures Resume(w, Push(k, KeywordState(Next(at)), text), Skip(at)) == Resume(w, k, at)
  {
    hide Next, Skip, Text, Callbacks, PartIs, Assign;
    var n := Next(at);
    assert KeywordOf(KeywordState(n)) == n;
    assert Top(k) == 45 ==> PartsMore(w, at) == Parts(w, at);
    assert Parts(w, at) == Part(w, n, Skip(at));
    assert Resume(w, k, at) == Part(w, n, Skip(at));
  }

  lemma EqualsOfKeyword(s: int)
    requires AtKeyword(s)
    ensures AtEquals(EqualsState(s)) && EqualsKeyword(EqualsState(s)) == KeywordOf(s)
  {}

  lemma SignKeeps(w: World, k: Stack, at: Progress, t: int, text: string)
    requires SignShifts(Top(k), Next(at), t)
    ensures Resume(w, Push(k, t, text), Skip(at)) == Resume(w, k, at)
  {
    hide Next, Skip, Text, Parts, PartsMore, Events, EventCode;
  }

  // Shifting the next token keeps the meaning.
  lemma ShiftKeeps(w: World, k: Stack, at: Progress, t: int, text: string)
    requires Shifts(Top(k), Next(at), t) && t != 15
    requires t == 17 || t == 22 || t == 25 ==> text == Text(at)
    ensures Resume(w, Push(k, t, text), Skip(at)) == Resume(w, k, at)
  {
    hide Resume, ItemShifts, PartShifts, SignShifts, StringBase, CodeBase, TextBase, Next, Skip, Text;
    if ItemShifts(Top(k), Next(at), t) {
      ItemKeeps(w, k, at, t, text);
    } else if PartShifts(Top(k), Next(at), t) {
      PartKeeps(w, k, at, t, text);
    } else if SignShifts(Top(k), Next(at), t) {
      SignKeeps(w, k, at, t, text);
    } else {
      match t
      case 10 => StringStartKeeps(w, k, at, text);
      case 13 => CodeStartKeeps(w, k, at, text);
      case 90 => TextStartKeeps(w, k, at, text);
      case 17 => StringKeeps(w, k, at, t, text);
      case 20 => StringKeeps(w, k, at, t, text);
      case 22 => TextKeeps(w, k, at, t, text);
      case 25 => TextKeeps(w, k, at, t, text);
      case _ => CloseKeeps(w, k, at, t, text);
    }
  }

  // --- Reductions --------------------------------------------------------------------

  // What a semantic action leaves behind: yyval, the scanner and the registry; or the
  // outcome that ended the run.
  datatype Effect = Effect(value: string, at: Progress) | Fatal(outcome: Outcome)

  function OnChange(value: string, at: Progress, c: Change): Effect {
    match c
    case Changed(reg) => Effect(value, at.(reg := reg))
    case Refused(why) => Fatal(Rejected(at.reg, why))
  }

  // The action of rule r (yyreduce): garbage is what yyvsp[1] holds when the rule is empty.
  function Perform(w: World, r: int, k: Stack, garbage: string, at: Progress): Effect
    requires 0 <= r <= RULES
  {
    if 32 <= r <= 48 then
      var text := if IsFlag(RuleKeyword(r)) then "" else Val(k);
      OnChange(Default1(r, k, garbage), at, Define(at.reg, RuleKeyword(r), text))
    else if r >= 56 then PerformBlock(w, r, k, garbage, at)
    else
      var v := Default1(r, k, garbage);
      match r
      case 8 =>
        if at.l.includer.Includer? then Fatal(Rejected(at.reg, NestedInclude))
        else if Val(k) == "" || Val(k) !in w.files then Fatal(Rejected(at.reg, NoSuchFile))
        else Effect(v, OpenFile(w, Val(k), at))
      case 9 => Effect(v, at.(reg := AddProlog(at.reg, Val(k))))
      case 10 => OnChange(v, at, Enter(at.reg, Val(k)))
      case 11 => OnChange(v, at, Leave(at.reg))
      case 49 => Effect(v, SetGroup(at, Val(Below(k))))
      case 51 => Effect(v, SetGroup(at, ""))
      case 55 => OnChange(v, at, AddCallback(at.reg, Val(Below(Below(k))), Val(k)))
      case _ => Effect(v, at)
  }

  // By default $$ = $1.
  function Default1(r: int, k: Stack, garbage: string): string
    requires 0 <= r <= RULES
  {
    if R2(r) == 0 then garbage else Val(Pop(k, R2(r) - 1))
  }

  // Rules 56 to 61
  function PerformBlock(w: World, r: int, k: Stack, garbage: string, at: Progress): Effect {
    match r
    case 56 => Effect(Val(Below(k)), at)
    case 57 => Effect(garbage, MarkLine(at))
    case 58 =>
      (match CodeEnd(w, Val(Below(k)), at)
       case Got(code, at1) => Effect(code, at1)
       case Failed(o) => Fatal(o))
    case 59 => Effect(Preprocessed(Val(Below(k))), at)
    case 60 => Effect(Val(Below(k)) + Val(k), at)
    case _ => Effect(Val(k), at) // 61
  }

  // A stack that shifts and gotos can build.
  predicate Linked(k: Stack) {
    k.Push? ==> Follows(Top(k.below), k.top) && Linked(k.below)
  }

  // A pattern has been entered before its parts are read.
  predicate PastName(k: Stack) {
    k.Push? && (k.top == 18 || PastName(k.below))
  }

  // Reducing by r on stack k, with the next token at at, keeps the meaning.
  predicate Kept(w: World, k: Stack, at: Progress, e: Effect, base: Stack, g: int) {
    match e
    case Fatal(o) => Resume(w, k, at) == o
    case Effect(v, at1) => Resume(w, Push(base, g, v), at1) == Resume(w, k, at)
  }

  lemma StringReduced(w: World, k: Stack, at: Progress, garbage: string)
    requires Top(k) == 20 && StringBase(Top(Pop(k, 3)))
    ensures Kept(w, k, at, Perform(w, 56, k, garbage, at), Pop(k, 3), StringState(Top(Pop(k, 3))))
  {
    hide Included, PatternNamed, GroupClose, EventIs, Assign;
    var b := Pop(k, 3);
    if AtEquals(Top(b)) {
      ValueOfEquals(Top(b));
    }
  }

  lemma ValueOfEquals(s: int)
    requires AtEquals(s)
    ensures AtValue(ValueState(s)) && ValueKeyword(ValueState(s)) == EqualsKeyword(s)
  {}

  lemma LineReduced(w: World, k: Stack, at: Progress, garbage: string)
    requires Top(k) == 13
    ensures Kept(w, k, at, Perform(w, 57, k, garbage, at), k, 19)
  {
    hide CodeText0, ThenCode, MarkLine;
  }

  lemma FirstTextReduced(w: World, k: Stack, at: Progress, garbage: string)
    requires Top(k) == 22 && (Top(Below(k)) == 19 || Top(Below(k)) == 90)
    ensures Kept(w, k, at, Perform(w, 61, k, garbage, at), Below(k), if Top(Below(k)) == 19 then 23 else 104)
  {
    hide CodeTextMore, BlockTextMore, ThenCode, ThenText;
  }

  lemma MoreTextReduced(w: World, k: Stack, at: Progress, garbage: string)
    requires Top(k) == 25 && (Top(Below(k)) == 23 || Top(Below(k)) == 104)
    ensures Kept(w, k, at, Perform(w, 60, k, garbage, at), Below(Below(k)), Top(Below(k)))
  {
    hide CodeTextMore, BlockTextMore, ThenCode, ThenText;
  }

  lemma CodeReduced(w: World, k: Stack, at: Progress, garbage: string)
    requires Top(k) == 26 && CodeBase(Top(Pop(k, 4)))
    ensures Kept(w, k, at, Perform(w, 58, k, garbage, at), Pop(k, 4), CodeState(Top(Pop(k, 4))))
  {
    hide CodeEnd, PrologDone, EventDone, Assign;
    var b := Pop(k, 4);
    if AtEquals(Top(b)) {
      ValueOfEquals(Top(b));
    }
  }

  lemma TextReduced(w: World, k: Stack, at: Progress, garbage: string)
    requires Top(k) == 109 && TextBase(Top(Pop(k, 3)))
    ensures Kept(w, k, at, Perform(w, 59, k, garbage, at), Pop(k, 3), ValueState(Top(Pop(k, 3))))
  {
    hide Preprocessed, Assign;
    ValueOfEquals(Top(Pop(k, 3)));
  }

  lemma ValueReduced(w: World, k: Stack, at: Progress, r: int, garbage: string, base: Stack)
    requires 32 <= r <= 48 && Reduces(Top(k), r)
    ensures Kept(w, k, at, Perform(w, r, k, garbage, at), base, r + 15)
  {
    hide Define, PartsMore, Default1;
  }

  lemma ItemReduced(w: World, k: Stack, at: Progress, r: int, garbage: string, base: Stack, g: int)
    requires 1 < r <= 13 && ItemReduces(Top(k), r) && ItemGotos(Top(base), r, g)
    requires r == 2 ==> NoShift(5, Next(at))
    ensures Kept(w, k, at, Perform(w, r, k, garbage, at), base, g)
  {
    hide Kept, Perform;
    if r == 2 {
      FileReduced(w, k, at, garbage, base);
    } else if 8 <= r <= 11 {
      ActionReduced(w, k, at, r, garbage, base, g);
    } else {
      PassReduced(w, k, at, r, garbage, base, g);
    }
  }

  lemma FileReduced(w: World, k: Stack, at: Progress, garbage: string, base: Stack)
    requires Top(k) == 5 && NoShift(5, Next(at))
    ensures Kept(w, k, at, Perform(w, 2, k, garbage, at), base, 4)
  {
    hide BodyMore, Next, Default1;
    EndReduced(w, k, at);
  }

  lemma ActionReduced(w: World, k: Stack, at: Progress, r: int, garbage: string, base: Stack, g: int)
    requires 8 <= r <= 11 && ItemReduces(Top(k), r) && ItemGotos(Top(base), r, g)
    ensures Kept(w, k, at, Perform(w, r, k, garbage, at), base, g)
  {
    hide Enter, Leave, AddProlog, OpenFile, PatternIs, BodyMore, Default1;
  }

  lemma PassReduced(w: World, k: Stack, at: Progress, r: int, garbage: string, base: Stack, g: int)
    requires (3 <= r <= 7 || 12 <= r <= 13) && ItemReduces(Top(k), r) && ItemGotos(Top(base), r, g)
    ensures Kept(w, k, at, Perform(w, r, k, garbage, at), base, g)
  {
    hide Kept, Perform;
    if r <= 7 {
      BodyReduced(w, k, at, r, garbage, base, g);
    } else {
      DefReduced(w, k, at, r, garbage, base, g);
    }
  }

  lemma BodyReduced(w: World, k: Stack, at: Progress, r: int, garbage: string, base: Stack, g: int)
    requires 3 <= r <= 7 && (5 < Top(k) < 10 || Top(k) == 16)
    requires g == 5 || g == 6 || g == 16
    ensures Kept(w, k, at, Perform(w, r, k, garbage, at), base, g)
  {
    hide BodyMore, Default1;
  }

  lemma DefReduced(w: World, k: Stack, at: Progress, r: int, garbage: string, base: Stack, g: int)
    requires ((r == 12 && Top(k) == 83) || (r == 13 && Top(k) == 46)) && g == 45
    ensures Kept(w, k, at, Perform(w, r, k, garbage, at), base, g)
  {
    hide PartsMore, Default1;
  }

  lemma EndReduced(w: World, k: Stack, at: Progress)
    requires Top(k) == 5 && NoShift(5, Next(at))
    ensures Resume(w, k, at) == if Next(at) == END then Accepted(at.reg) else Error(at)
  {
    hide Next, IncludeItem, PatternItem, PrologItem;
    var n := Next(at);
    assert !Shifts(5, n, 1) && !Shifts(5, n, 2) && !Shifts(5, n, 3);
    assert BodyMore(w, at) == if n == END then Accepted(at.reg) else Body(w, at);
  }

  lemma PartReduced(w: World, k: Stack, at: Progress, r: int, garbage: string, base: Stack, g: int)
    requires 14 <= r <= 31 && Reduces(Top(k), r) && (g == 46 || g == 83)
    ensures Kept(w, k, at, Perform(w, r, k, garbage, at), base, g)
  {
    hide PartsMore, Default1;
  }

  lemma GroupReduced(w: World, k: Stack, at: Progress, r: int, garbage: string, base: Stack, g: int)
    requires 49 <= r <= 52 && PhraseReduces(Top(k), r) && CallbackGotos(Top(base), r, g)
    requires r == 51 ==> NoShift(27, Next(at)) && Next(at) != BROKEN
    ensures Kept(w, k, at, Perform(w, r, k, garbage, at), base, g)
  {
    hide Kept, Perform;
    if r == 51 {
      NoGroupReduced(w, k, at, garbage, base);
    } else if r == 49 {
      GroupSet(w, k, at, garbage, base);
    } else {
      ListReduced(w, k, at, r, garbage, base);
    }
  }

  lemma ListReduced(w: World, k: Stack, at: Progress, r: int, garbage: string, base: Stack)
    requires (r == 50 && Top(k) == 117) || (r == 52 && Top(k) == 111)
    ensures Kept(w, k, at, Perform(w, r, k, garbage, at), base, 64)
  {
    hide PartsMore, Default1;
  }

  lemma GroupSet(w: World, k: Stack, at: Progress, garbage: string, base: Stack)
    requires Top(k) == 102
    ensures Kept(w, k, at, Perform(w, 49, k, garbage, at), base, 105)
  {
    hide CallbacksIs, SetGroup, Default1;
  }

  lemma NoGroupReduced(w: World, k: Stack, at: Progress, garbage: string, base: Stack)
    requires Top(k) == 27 && NoShift(27, Next(at)) && Next(at) != BROKEN
    ensures Kept(w, k, at, Perform(w, 51, k, garbage, at), base, 66)
  {
    hide CallbacksIs, SetGroup, Next, Default1, GroupName;
    assert !Shifts(27, Next(at), 65);
  }

  lemma EventReduced(w: World, k: Stack, at: Progress, r: int, garbage: string, base: Stack, g: int)
    requires 53 <= r <= 55 && PhraseReduces(Top(k), r) && CallbackGotos(Top(base), r, g)
    ensures Kept(w, k, at, Perform(w, r, k, garbage, at), base, g)
  {
    hide AddCallback, EventsMore, Default1;
  }

  // --- What lies below a state about to be reduced -------------------------------------

  lemma Under(k: Stack)
    requires Linked(k)
    ensures k.Push? ==> Follows(Top(Below(k)), Top(k))
    ensures Linked(Below(k))
    ensures Depth(k) == (if k.Push? then 1 + Depth(Below(k)) else 1)
    ensures Top(k) != 0 ==> k.Push?
    ensures PastName(k) <==> k.Push? && (k.top == 18 || PastName(k.below))
  {}

  // The states below a state; the bottom state has none.
  lemma Pred(k: Stack)
    requires Linked(k) && Top(k) != 0
    ensures Follows(Top(Below(k)), Top(k)) && Linked(Below(k)) && Depth(k) == 1 + Depth(Below(k))
  {
    Under(k);
  }

  lemma {:induction false} DepthBound(k: Stack)
    requires Linked(k)
    ensures Depth(k) <= Height(Top(k)) + 1 <= 22
    ensures 0 <= Top(k) < STATES
  {
    if k.Push? {
      DepthBound(k.below);
      HeightStep(Top(k.below), k.top);
    }
  }

  lemma HeightStep(a: int, b: int)
    requires Follows(a, b) && 0 <= a < STATES
    ensures 0 <= b < STATES && Height(a) < Height(b) <= 21
  {}

  // The target of Gotos.
  function Target(b: int, r: int): int {
    if r <= 13 then
      if r <= 4 then (if r == 2 then 4 else 5)
      else if r <= 7 then (if b == 0 then 6 else 16)
      else if r == 10 then 18
      else if r <= 11 then (if r == 8 then 7 else if r == 9 then 8 else 9)
      else 45
    else if r <= 31 then (if b == 24 then 46 else 83)
    else if r <= 48 then r + 15
    else if r <= 55 then CallbackTarget(b, r)
    else
      match r
      case 56 => StringState(b)
      case 57 => 19
      case 58 => CodeState(b)
      case 59 => ValueState(b)
      case _ => if b == 19 then 23 else 104
  }

  function CallbackTarget(b: int, r: int): int {
    match r
    case 49 => 105
    case 51 => 66
    case 50 => 64
    case 52 => 64
    case 55 => if b == 103 || b == 114 then 107 else 112
    case _ => if b == 103 then 106 else 116
  }

  // A reduction has a state to go to, that is closer to the next shift.
  predicate Steps(k: Stack, r: int)
    requires 0 <= r <= RULES
  {
    var b := Top(Pop(k, R2(r)));
    Depth(k) > R2(r) && Gotos(b, r, Target(b, r)) && Rank(Target(b, r)) < Rank(Top(k))
  }

  lemma PhraseSteps(k: Stack, r: int)
    requires Linked(k) && 56 <= r <= RULES && PhraseReduces(Top(k), r)
    ensures Steps(k, r)
    ensures r == 56 ==> R2(r) == 3 && StringBase(Top(Pop(k, 3)))
    ensures r == 57 ==> R2(r) == 0
    ensures r == 58 ==> R2(r) == 4 && CodeBase(Top(Pop(k, 4)))
    ensures r == 59 ==> R2(r) == 3 && TextBase(Top(Pop(k, 3)))
    ensures r == 60 ==>
              R2(r) == 2 && (Top(Below(k)) == 23 || Top(Below(k)) == 104) && Target(Top(Pop(k, 2)), r) == Top(Below(k))
    ensures r == 61 ==> R2(r) == 1 && (Top(Below(k)) == 19 || Top(Below(k)) == 90)
  {
    if r == 56 {
      Pred(k);
      Pred(Below(k));
      Pred(Below(Below(k)));
    } else if r != 57 {
      BlockSteps(k, r);
    }
  }

  lemma BlockSteps(k: Stack, r: int)
    requires Linked(k) && 58 <= r <= RULES && PhraseReduces(Top(k), r)
    ensures Steps(k, r)
    ensures r == 58 ==> R2(r) == 4 && CodeBase(Top(Pop(k, 4)))
    ensures r == 59 ==> R2(r) == 3 && TextBase(Top(Pop(k, 3)))
    ensures r == 60 ==>
              R2(r) == 2 && (Top(Below(k)) == 23 || Top(Below(k)) == 104) && Target(Top(Pop(k, 2)), r) == Top(Below(k))
    ensures r == 61 ==> R2(r) == 1 && (Top(Below(k)) == 19 || Top(Below(k)) == 90)
  {
    Pred(k);
    if r == 60 {
      Pred(Below(k));
    } else if r != 61 {
      Pred(Below(k));
      Pred(Below(Below(k)));
      if r == 58 {
        Pred(Below(Below(Below(k))));
      }
    }
  }

  lemma ValueSteps(k: Stack, r: int)
    requires Linked(k) && 32 <= r <= 48 && Reduces(Top(k), r)
    ensures Steps(k, r)
  {
    ValueLength(r);
    Pred(k);
    if !IsFlag(RuleKeyword(r)) {
      BelowValue(Top(Below(k)), Top(k));
      Pred(Below(k));
      BelowEquals(Top(Below(Below(k))), Top(Below(k)));
      Pred(Below(Below(k)));
      BelowKeyword(Top(Pop(k, 3)), Top(Below(Below(k))));
    } else {
      BelowFlag(Top(Below(k)), Top(k));
    }
  }

  lemma ValueLength(r: int)
    requires 32 <= r <= 48
    ensures R2(r) == if IsFlag(RuleKeyword(r)) then 1 else 3
  {}

  lemma BelowValue(a: int, s: int)
    requires AtValue(s) && Follows(a, s)
    ensures AtEquals(a) && Rank(s) == 3
  {}

  lemma BelowEquals(a: int, s: int)
    requires AtEquals(s) && Follows(a, s)
    ensures AtKeyword(a)
  {}

  lemma BelowKeyword(a: int, s: int)
    requires AtKeyword(s) && Follows(a, s)
    ensures a == 24 || a == 45
  {}

  lemma BelowFlag(a: int, s: int)
    requires (s == 35 || s == 40) && Follows(a, s)
    ensures (a == 24 || a == 45) && Rank(s) == 3
  {}

  lemma PartSteps(k: Stack, r: int)
    requires Linked(k) && 14 <= r <= 31 && Top(k) == r + 33
    ensures Steps(k, r)
  {
    Pred(k);
  }

  lemma ItemSteps(k: Stack, r: int)
    requires Linked(k) && 1 < r <= 13 && ItemReduces(Top(k), r)
    ensures Steps(k, r)
  {
    if r != 10 {
      Pred(k);
    }
    if r == 4 || r == 8 || r == 9 || r == 12 {
      Pred(Below(k));
    }
    if r == 11 {
      PatternSteps(k);
    }
  }

  lemma PatternSteps(k: Stack)
    requires Linked(k) && Top(k) == 82
    ensures Steps(k, 11)
  {
    Pred(k);
    Pred(Below(k));
    Pred(Pop(k, 2));
    Pred(Pop(k, 3));
    Pred(Pop(k, 4));
    Pred(Pop(k, 5));
    Pred(Pop(k, 6));
  }

  lemma CallbackSteps(k: Stack, r: int)
    requires Linked(k) && 49 <= r <= 55 && PhraseReduces(Top(k), r)
    ensures Steps(k, r)
  {
    if r == 50 || r == 52 {
      ListSteps(k, r);
    } else if r >= 53 {
      Pred(k);
      if r != 54 {
        Pred(Below(k));
      }
      if r == 55 {
        Pred(Below(Below(k)));
      }
    }
  }

  lemma ListSteps(k: Stack, r: int)
    requires Linked(k) && ((r == 50 && Top(k) == 117) || (r == 52 && Top(k) == 111))
    ensures Steps(k, r)
  {
    var five := Pop(k, 5);
    BelowList(k);
    if r == 50 {
      hide Pop, Linked, Follows;
      assert Top(five) == 102 && Linked(five);
      BelowGroup(five);
      assert Pop(k, 9) == Below(Below(Below(Below(five)))) by { PopFour(k); }
    }
  }

  lemma BelowList(k: Stack)
    requires Linked(k) && (Top(k) == 117 || Top(k) == 111)
    ensures Depth(k) == 5 + Depth(Pop(k, 5)) && Linked(Pop(k, 5))
    ensures Top(k) == 117 ==> Top(Pop(k, 5)) == 102
    ensures Top(k) == 111 ==> Depth(k) > 6 && (Top(Pop(k, 6)) == 24 || Top(Pop(k, 6)) == 45)
  {
    Pred(k);
    Pred(Below(k));
    Pred(Pop(k, 2));
    Pred(Pop(k, 3));
    Pred(Pop(k, 4));
    Pred(Pop(k, 5));
  }

  lemma BelowGroup(k: Stack)
    requires Linked(k) && Top(k) == 102
    ensures Depth(k) == 4 + Depth(Pop(k, 4)) && (Top(Pop(k, 4)) == 24 || Top(Pop(k, 4)) == 45)
    ensures Pop(k, 4) == Below(Below(Below(Below(k))))
  {
    Pred(k);
    Pred(Below(k));
    Pred(Pop(k, 2));
    Pred(Pop(k, 3));
  }

  lemma PopFour(k: Stack)
    ensures Pop(k, 9) == Below(Below(Below(Below(Pop(k, 5)))))
  {}

  lemma PhraseReduced(w: World, k: Stack, at: Progress, r: int, garbage: string)
    requires Linked(k) && 56 <= r <= RULES && PhraseReduces(Top(k), r)
    ensures Kept(w, k, at, Perform(w, r, k, garbage, at), Pop(k, R2(r)), Target(Top(Pop(k, R2(r))), r))
  {
    PhraseSteps(k, r);
    hide Linked, Steps, Kept, Perform, StringBase, CodeBase, TextBase, R2;
    match r
    case 56 => StringReduced(w, k, at, garbage);
    case 57 => LineReduced(w, k, at, garbage);
    case 58 => CodeReduced(w, k, at, garbage);
    case 59 => TextReduced(w, k, at, garbage);
    case 60 => MoreTextReduced(w, k, at, garbage);
    case _ => FirstTextReduced(w, k, at, garbage);
  }

  // Reducing keeps the meaning, or ends the run as the translation does.
  lemma ReduceKeeps(w: World, k: Stack, at: Progress, r: int, garbage: string)
    requires Linked(k) && 1 < r <= RULES && Reduces(Top(k), r)
    requires Top(k) == 5 || Top(k) == 27 ==> NoShift(Top(k), Next(at)) && Next(at) != BROKEN
    ensures Steps(k, r)
    ensures Kept(w, k, at, Perform(w, r, k, garbage, at), Pop(k, R2(r)), Target(Top(Pop(k, R2(r))), r))
  {
    hide Linked, Kept, Perform, R2, Rank, Pop;
    if r <= 13 {
      ItemSteps(k, r);
      ItemReduced(w, k, at, r, garbage, Pop(k, R2(r)), Target(Top(Pop(k, R2(r))), r));
    } else if r <= 31 {
      PartSteps(k, r);
      PartReduced(w, k, at, r, garbage, Pop(k, R2(r)), Target(Top(Pop(k, R2(r))), r));
    } else if r <= 48 {
      ValueSteps(k, r);
      ValueReduced(w, k, at, r, garbage, Pop(k, R2(r)));
    } else if r <= 52 {
      CallbackSteps(k, r);
      GroupReduced(w, k, at, r, garbage, Pop(k, R2(r)), Target(Top(Pop(k, R2(r))), r));
    } else if r <= 55 {
      CallbackSteps(k, r);
      EventReduced(w, k, at, r, garbage, Pop(k, R2(r)), Target(Top(Pop(k, R2(r))), r));
    } else {
      PhraseSteps(k, r);
      PhraseReduced(w, k, at, r, garbage);
    }
  }

  // --- Errors ------------------------------------------------------------------------

  // The states that look at the next token.
  predicate Looks(s: int) {
    || StringBase(s) || CodeBase(s) || TextBase(s) || AtKeyword(s)
    || s == 0 || s == 4 || s == 5 || s == 10 || s == 17 || s == 18 || s == 19 || s == 21 || s == 23 || s == 24
    || s == 27 || s == 45 || s == 66 || s == 84 || s == 85 || s == 90 || s == 104 || s == 105 || s == 108 || s == 110
  }

  lemma LooksIff(s: int)
    requires 0 <= s < STATES
    ensures NeedsLookahead(ScoutGrammar, s) <==> Looks(s)
    ensures ScoutTables.Defact(s) == 0 ==> Looks(s)
  {
    hide ScoutTables.Pact, ScoutTables.Defact, Looks;
    if s < 30 {
      Looks0(s);
    } else if s < 70 {
      Looks1(s);
    } else {
      Looks2(s);
    }
  }

  lemma Looks0(s: int)
    requires 0 <= s < 30
    ensures NeedsLookahead(ScoutGrammar, s) <==> Looks(s)
    ensures ScoutTables.Defact(s) == 0 ==> Looks(s)
  {}

  lemma Looks1(s: int)
    requires 30 <= s < 70
    ensures NeedsLookahead(ScoutGrammar, s) <==> Looks(s)
    ensures ScoutTables.Defact(s) == 0 ==> Looks(s)
  {}

  lemma Looks2(s: int)
    requires 70 <= s < STATES
    ensures NeedsLookahead(ScoutGrammar, s) <==> Looks(s)
    ensures ScoutTables.Defact(s) == 0 ==> Looks(s)
  {}

  lemma StringStuck(w: World, k: Stack, at: Progress)
    requires StringBase(Top(k)) && NoShift(Top(k), Next(at))
    ensures Resume(w, k, at) == Error(at)
  {
    hide Next, Skip, Text, Error;
    var s := Top(k);
    assert !Shifts(s, Next(at), 10);
    if AtEquals(s) {
      StringKeyword(s);
    } else if s == 106 || s == 116 {
      assert !Shifts(s, Next(at), 111) && !Shifts(s, Next(at), 117);
      assert EventsMore(w, at) == Events(w, at);
    }
  }

  lemma BlockStuck(w: World, k: Stack, at: Progress)
    requires (CodeBase(Top(k)) || TextBase(Top(k))) && NoShift(Top(k), Next(at))
    ensures Resume(w, k, at) == Error(at)
  {
    hide Next, Skip, Text, Error;
    var s := Top(k);
    assert !Shifts(s, Next(at), 13) && !Shifts(s, Next(at), 90);
    if AtEquals(s) {
      StringKeyword(s);
    }
  }

  lemma InnerStuck(w: World, k: Stack, at: Progress)
    requires Top(k) == 10 || Top(k) == 17 || Top(k) == 19 || Top(k) == 23 || Top(k) == 90 || Top(k) == 104
    requires NoShift(Top(k), Next(at))
    ensures Resume(w, k, at) == Error(at)
  {
    hide Next, Skip, Text, Error;
    var s, n := Top(k), Next(at);
    assert !Shifts(s, n, 17) && !Shifts(s, n, 20) && !Shifts(s, n, 22) && !Shifts(s, n, 25);
    assert !Shifts(s, n, 26) && !Shifts(s, n, 109);
  }

  lemma PartStuck(w: World, k: Stack, at: Progress)
    requires AtKeyword(Top(k)) || Top(k) == 24 || Top(k) == 45
    requires NoShift(Top(k), Next(at))
    ensures Resume(w, k, at) == Error(at)
  {
    hide Next, Skip, Text, Error;
    var s, n := Top(k), Next(at);
    if AtKeyword(s) {
      assert !Shifts(s, n, EqualsState(s));
      assert Resume(w, k, at) == PartIs(w, KeywordOf(s), at);
    } else {
      assert !Shifts(s, n, 82) && !Shifts(s, n, KeywordState(n));
      assert s == 45 ==> PartsMore(w, at) == Parts(w, at);
    }
  }

  lemma ItemStuck(w: World, k: Stack, at: Progress)
    requires Top(k) == 0 || Top(k) == 4 || Top(k) == 5 || Top(k) == 18 || Top(k) == 21
    requires NoShift(Top(k), Next(at)) && (Top(k) == 5 ==> Next(at) == BROKEN)
    ensures Resume(w, k, at) == Error(at)
  {
    hide Next, Skip, Text, Error;
    var s, n := Top(k), Next(at);
    assert !Shifts(s, n, 1) && !Shifts(s, n, 2) && !Shifts(s, n, 3);
    assert !Shifts(s, n, 15) && !Shifts(s, n, 21) && !Shifts(s, n, 24);
    assert s == 5 ==> BodyMore(w, at) == Body(w, at);
  }

  lemma SignStuck(w: World, k: Stack, at: Progress)
    requires Top(k) == 27 || Top(k) == 66 || Top(k) == 84 || Top(k) == 85 || Top(k) == 105 || Top(k) == 108 || Top(k) == 110
    requires NoShift(Top(k), Next(at)) && (Top(k) == 27 ==> Next(at) == BROKEN)
    ensures Resume(w, k, at) == Error(at)
  {
    hide Next, Skip, Text, Error;
    var s, n := Top(k), Next(at);
    assert !Shifts(s, n, 85) && !Shifts(s, n, 102) && !Shifts(s, n, 103) && !Shifts(s, n, 110);
    assert !Shifts(s, n, 113) && !Shifts(s, n, 114);
  }

  // A token that the automaton cannot use, or a failure of the scanner, is an error for
  // the translator at the same point.
  lemma Stuck(w: World, k: Stack, at: Progress)
    requires Looks(Top(k)) && NoShift(Top(k), Next(at))
    requires Top(k) == 5 || Top(k) == 27 ==> Next(at) == BROKEN
    ensures Resume(w, k, at) == Error(at)
  {
    hide Resume, StringBase, CodeBase, TextBase, AtKeyword, NoShift;
    var s := Top(k);
    if StringBase(s) {
      StringStuck(w, k, at);
    } else if CodeBase(s) || TextBase(s) {
      BlockStuck(w, k, at);
    } else if AtKeyword(s) || s == 24 || s == 45 {
      PartStuck(w, k, at);
    } else if s == 0 || s == 4 || s == 5 || s == 18 || s == 21 {
      ItemStuck(w, k, at);
    } else if s == 10 || s == 17 || s == 19 || s == 23 || s == 90 || s == 104 {
      InnerStuck(w, k, at);
    } else {
      SignStuck(w, k, at);
    }
  }

  lemma BrokenShift(s: int)
    ensures NoShift(s, BROKEN)
  {
    hide AtKeyword, StringBase, CodeBase, TextBase;
    forall t ensures !Shifts(s, BROKEN, t) {}
  }

  // --- The current pattern -------------------------------------------------------------

  // The states that only occur after the name of a pattern.
  predicate Inside(s: int) {
    s == 18 || s == 21 || s == 24 || s >= 27
  }

  lemma {:induction false} InsideIsPastName(k: Stack)
    requires Linked(k) && Inside(Top(k))
    ensures PastName(k)
  {
    if Top(k) != 18 {
      InsideStep(Top(Below(k)), Top(k));
      InsideIsPastName(Below(k));
    }
  }

  lemma InsideStep(a: int, b: int)
    requires Follows(a, b) && Inside(b) && b != 18
    ensures Inside(a)
  {}

  lemma {:induction false} PopLinked(k: Stack, n: nat)
    requires Linked(k)
    ensures Linked(Pop(k, n))
    ensures PastName(Pop(k, n)) ==> PastName(k)
  {
    if n > 0 {
      hide Linked, PastName, Pop;
      PopLinked(k, n - 1);
      PopStep(k, n);
      Under(Pop(k, n - 1));
    } else {
      assert Pop(k, 0) == k;
    }
  }

  // Every action keeps the patterns a forest, never works on a pattern that is not there,
  // and leaves the scanner alone unless it includes a file.
  lemma PerformKeeps(w: World, r: int, k: Stack, garbage: string, at: Progress)
    requires 0 <= r <= RULES && Forest(at.reg)
    requires r == 11 || 32 <= r <= 48 || r == 55 ==> HasCurrent(at.reg)
    ensures match Perform(w, r, k, garbage, at)
            case Effect(_, at1) =>
              && Forest(at1.reg) && (HasCurrent(at.reg) || r == 10 ==> HasCurrent(at1.reg))
              && (at1.l == at.l || Less(at1.l, at.l))
            case Fatal(o) =>
              o.Rejected? && Forest(o.reg) && o.why != NoCurrentPattern && o.why != StackExhausted
  {
    hide Forest, Default1, Define, DefineParent, Enter, AddCallback, Preprocessed, CodeBlock, LeadingBlankLines;
    var e := Perform(w, r, k, garbage, at);
    if 32 <= r <= 48 {
      PartKept(at.reg, RuleKeyword(r), if IsFlag(RuleKeyword(r)) then "" else Val(k));
    } else if r == 10 {
      EnterKept(at.reg, Val(k));
    } else if r == 55 {
      EventKept(at.reg, Val(Below(Below(k))), Val(k));
    } else if r >= 56 {
      BlockKeeps(w, r, k, garbage, at);
    } else if e.Effect? {
      SameTreeKeeps(at.reg, e.at.reg);
    }
  }

  lemma PartKept(reg: Registry, key: int, text: string)
    requires Forest(reg) && HasCurrent(reg)
    ensures match Define(reg, key, text)
            case Changed(r) => Forest(r) && HasCurrent(r)
            case Refused(why) => why != NoCurrentPattern && why != StackExhausted
  {
    if Define(reg, key, text).Changed? {
      DefineKeeps(reg, key, text);
    }
  }

  lemma EnterKept(reg: Registry, id: string)
    requires Forest(reg)
    ensures match Enter(reg, id)
            case Changed(r) => Forest(r) && HasCurrent(r)
            case Refused(why) => why != NoCurrentPattern && why != StackExhausted
  {
    if Enter(reg, id).Changed? {
      EnterKeeps(reg, id);
    }
  }

  lemma EventKept(reg: Registry, event: string, code: string)
    requires Forest(reg) && HasCurrent(reg)
    ensures match AddCallback(reg, event, code)
            case Changed(r) => Forest(r) && HasCurrent(r)
            case Refused(why) => why != NoCurrentPattern && why != StackExhausted
  {
    if AddCallback(reg, event, code).Changed? {
      CallbackKeeps(reg, event, code);
    }
  }

  lemma BlockKeeps(w: World, r: int, k: Stack, garbage: string, at: Progress)
    requires 56 <= r <= RULES && Forest(at.reg)
    ensures match PerformBlock(w, r, k, garbage, at)
            case Effect(_, at1) => Forest(at1.reg) && HasCurrent(at1.reg) == HasCurrent(at.reg) && at1.l == at.l
            case Fatal(o) => o.Rejected? && Forest(o.reg) && o.why == CodeInFirstLine
  {
    hide Forest, Preprocessed, CodeBlock, LeadingBlankLines;
    match PerformBlock(w, r, k, garbage, at)
    case Effect(_, at1) => SameTreeKeeps(at.reg, at1.reg);
    case Fatal(o) => SameTreeKeeps(at.reg, o.reg);
  }

  // What the tables decide in a state other than the final one.
  lemma TableDecision(s: int, d: Decision, k: int)
    requires 0 <= s < STATES && s != FINAL && d == Decide(ScoutGrammar, s, k)
    ensures d.Shift? ==>
              && Shifts(s, k, d.state) && Follows(s, d.state) && d.state != 18
              && (d.state == FINAL ==> s == 4 && k == END)
    ensures d.Shift? && k == END ==> d.state == FINAL
    ensures d.Reduce? ==> 1 < d.rule <= RULES && Reduces(s, d.rule) && (s == 5 || s == 27 ==> NoShift(s, k))
    ensures d.Reduce? && Looks(s) ==> (s == 5 && d.rule == 2) || (s == 27 && d.rule == 51)
    ensures d.SyntaxError? ==> Looks(s) && NoShift(s, k) && s != 5 && s != 27
  {
    hide Decide, Shifts, Follows, Reduces, Looks, ScoutTables.Defact;
    if d.Shift? {
      TableShifts(s, k, d.state);
      ShiftsFollow(s, k, d.state);
    } else {
      TableDefaults(s, k);
      forall t ensures !Shifts(s, k, t) { TableShifts(s, k, t); }
      LooksIff(s);
      TableReductions(5, 2);
      TableReductions(27, 51);
      FiveAndTwentySeven();
      if d.Reduce? {
        TableReductions(s, d.rule);
        RuleRange(s, d.rule);
      }
    }
  }

  lemma FiveAndTwentySeven()
    ensures Reduces(5, 2) && Reduces(27, 51) && Looks(5) && Looks(27)
  {}

  lemma RuleRange(s: int, r: int)
    requires Reduces(s, r) && s != FINAL
    ensures 1 < r <= RULES
    ensures Looks(s) ==> (s == 5 && r == 2) || (s == 27 && r == 51)
  {}

  lemma ShiftsFollow(s: int, k: int, t: int)
    requires Shifts(s, k, t)
    ensures Follows(s, t) && t != 18 && (t == FINAL <==> k == END) && (t == FINAL ==> s == 4)
  {
    hide ItemShifts, PartShifts, SignShifts, Follows;
    if ItemShifts(s, k, t) {
      ItemsFollow(s, k, t);
    } else if PartShifts(s, k, t) {
      PartsFollow(s, k, t);
    } else if SignShifts(s, k, t) {
      SignsFollow(s, k, t);
    } else {
      BlocksFollow(s, k, t);
    }
  }

  lemma ItemsFollow(s: int, k: int, t: int)
    requires ItemShifts(s, k, t)
    ensures Follows(s, t) && t != 18 && (t == FINAL <==> k == END) && (t == FINAL ==> s == 4)
  {}

  lemma PartsFollow(s: int, k: int, t: int)
    requires PartShifts(s, k, t)
    ensures Follows(s, t) && t != 18 && t != FINAL && k != END
  {}

  lemma SignsFollow(s: int, k: int, t: int)
    requires SignShifts(s, k, t)
    ensures Follows(s, t) && t != 18 && t != FINAL && k != END
  {}

  lemma BlocksFollow(s: int, k: int, t: int)
    requires Shifts(s, k, t) && !ItemShifts(s, k, t) && !PartShifts(s, k, t) && !SignShifts(s, k, t)
    ensures Follows(s, t) && t != 18 && t != FINAL && k != END
  {
    hide ItemShifts, PartShifts, SignShifts;
  }
}
