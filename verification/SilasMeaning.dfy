/** The meaning of a configuration of the Silas parser: what the recursive-descent
    translator still does from the point in the grammar that the state stack stands for.
    Every move of the parser keeps it. */
module SilasMeaning {
  import opened Lr
  import opened LrStack
  import opened SilasAutomaton
  import opened SilasTables
  import opened SilasTranslator

  // The translation after a String has been read on top of stack k.
  function AfterString(known: set<string>, k: Stack, text: string, at: Progress): Outcome {
    match Top(k)
    case 1 => Model(known, text, at)
    case 17 => AfterRegion(Top(Below(k)), text, at)
    case 27 => OptionSetting(text, at)
    case _ => OptionsAfter(at, OptionCall(Val(k), text)) // 41
  }

  // The translation after a Region has been read on top of state s.
  function AfterRegion(s: int, region: string, at: Progress): Outcome {
    match s
    case 7 => ItemsAfter(at, BalanceRegion(region))
    case 8 => Items(at)
    case _ => ScaleFactor(region, at) // 9
  }

  function AfterNumber(s: int, v: string, n: string, at: Progress): Outcome {
    match s
    case 21 => ItemsAfter(at, ScaleRegion(v, n))
    case 25 => OptionsAfter(at, SetOption("idle overhead", n))
    case 26 => OptionsAfter(at, SetOption("noop threshold", n))
    case _ => OptionsAfter(at, SetOption("skip threshold", n)) // 28
  }

  // The states inside a String, and after one.
  predicate InString(s: int) { s == 4 || s == 15 || s == 23 || s == 5 || s == 31 }

  // The states inside a Number, or waiting for one.
  predicate InNumber(s: int) { s == 21 || s == 25 || s == 26 || s == 28 || 35 <= s <= 37 }

  // The states inside a MessageOption.
  predicate InMessage(s: int) { s == 19 || s == 32 || s == 33 || 44 <= s <= 46 || s == 48 || s == 49 }

  // The states at an option, and those holding a finished one.
  predicate InOption(s: int) { s == 16 || s == 24 || s == 27 || 29 <= s <= 30 || 39 <= s <= 43 || s == 47 }

  function ResumeString(known: set<string>, k: Stack, at: Progress): Outcome {
    match Top(k)
    case 4 =>
      (match StringText(at)
       case Failed(o) => o
       case Read(text, at1) => AfterString(known, Below(k), text, at1))
    case 15 =>
      (match StringEnd(Val(k), at)
       case Failed(o) => o
       case Read(text, at1) => AfterString(known, Below(Below(k)), text, at1))
    case 23 => AfterString(known, Below(Below(Below(k))), Val(Below(k)), at)
    case 5 => Model(known, Val(k), at)
    case _ => AfterRegion(Top(Below(Below(k))), Val(k), at) // 31
  }

  function ResumeNumber(k: Stack, at: Progress): Outcome {
    match Top(k)
    case 21 => ScaleFactor(Val(k), at)
    case 25 => Threshold("idle overhead", at)
    case 26 => Threshold("noop threshold", at)
    case 28 => Threshold("skip threshold", at)
    case _ => AfterNumber(Top(Below(k)), Val(Below(k)), Val(k), at) // 35, 36, 37
  }

  function ResumeMessage(k: Stack, at: Progress): Outcome {
    match Top(k)
    case 19 => CutMessage(at)
    case 32 => MessageRelation(true, at)
    case 33 => MessageRelation(false, at)
    case 44 => Bound(Top(Below(k)) == 32, Val(k), at)
    case 45 => Bound(true, Val(k), at)
    case 46 => Bound(false, Val(k), at)
    case 48 => ItemsAfter(at, MessageBound(true, Val(Below(k)), Val(k)))
    case _ => ItemsAfter(at, MessageBound(false, Val(Below(k)), Val(k))) // 49
  }

  function ResumeOption(k: Stack, at: Progress): Outcome {
    match Top(k)
    case 24 => OptionsAfter(at, SetFlag("aggregate idle"))
    case 27 => NamedOption(at)
    case 39 => OptionsAfter(at, SetOption("idle overhead", Val(k)))
    case 40 => OptionsAfter(at, SetOption("noop threshold", Val(k)))
    case 41 => OptionSetting(Val(k), at)
    case 42 => OptionsAfter(at, SetOption("skip threshold", Val(k)))
    case 47 => OptionsAfter(at, OptionCall(Val(Below(k)), Val(k)))
    case _ => Options(at) // 16, 29, 30, 43
  }

  function ResumeItem(k: Stack, at: Progress): Outcome {
    match Top(k)
    case 7 => Balance(at)
    case 8 => Cut(at)
    case 9 => Scale(at)
    case 17 =>
      (match String(at)
       case Failed(o) => o
       case Read(region, at1) => AfterRegion(Top(Below(k)), region, at1))
    case 18 => ItemsAfter(at, BalanceRegion(Val(k)))
    case 38 => ItemsAfter(at, ScaleRegion(Val(Below(k)), Val(k)))
    case _ => Items(at) // 3, 10, 11, 12, 13, 14, 20, 22, 34
  }

  function ResumeConfig(known: set<string>, k: Stack, at: Progress): Outcome {
    match Top(k)
    case 0 => Config(known, at)
    case 1 => ModelName(known, at)
    case 2 => if Next(at) == END then Accepted(at.calls) else Error(at)
    case _ => Accepted(at.calls) // 6
  }

  // The translation from the configuration with stack k.
  function Resume(known: set<string>, k: Stack, at: Progress): Outcome {
    var s := Top(k);
    if s <= 2 || s == 6 then ResumeConfig(known, k, at)
    else if InString(s) then ResumeString(known, k, at)
    else if InOption(s) then ResumeOption(k, at)
    else if InNumber(s) then ResumeNumber(k, at)
    else if InMessage(s) then ResumeMessage(k, at)
    else ResumeItem(k, at)
  }

  lemma ShiftStringStartKeeps(known: set<string>, k: Stack, at: Progress, t: int, text: string)
    requires Top(k) == 1 || Top(k) == 17 || Top(k) == 27 || Top(k) == 41
    requires Shifts(Top(k), Next(at), t)
    requires at.pos < |at.input| ==> text == Text(at)
    ensures Resume(known, Push(k, t, text), Skip(at)) == Resume(known, k, at)
  {
    hide Options;
    hide Items;
    hide OptionsAfter;
    hide ItemsAfter;
    hide Model;
    hide AfterRegion;
    hide StringText;
  }

  lemma ShiftStringKeeps(known: set<string>, k: Stack, at: Progress, t: int, text: string)
    requires Top(k) == 4 || Top(k) == 15
    requires Shifts(Top(k), Next(at), t)
    requires at.pos < |at.input| ==> text == Text(at)
    ensures Resume(known, Push(k, t, text), Skip(at)) == Resume(known, k, at)
  {
    hide AfterString;
  }

  lemma ShiftOptionKeeps(known: set<string>, k: Stack, at: Progress, t: int, text: string)
    requires Top(k) == 16 || Top(k) == 29
    requires Shifts(Top(k), Next(at), t)
    requires at.pos < |at.input| ==> text == Text(at)
    ensures Resume(known, Push(k, t, text), Skip(at)) == Resume(known, k, at)
  {
    hide Items;
    hide OptionsAfter;
    hide NamedOption;
    hide Threshold;
  }

  lemma ShiftItemKeeps(known: set<string>, k: Stack, at: Progress, t: int, text: string)
    requires Top(k) == 3 || Top(k) == 10
    requires Shifts(Top(k), Next(at), t)
    requires at.pos < |at.input| ==> text == Text(at)
    ensures Resume(known, Push(k, t, text), Skip(at)) == Resume(known, k, at)
  {
    hide Options;
    hide ItemsAfter;
    hide Balance;
    hide Cut;
    hide Scale;
  }

  lemma ShiftPhraseKeeps(known: set<string>, k: Stack, at: Progress, t: int, text: string)
    requires Top(k) == 0 || Top(k) == 2 || Top(k) == 7 || Top(k) == 8 || Top(k) == 9 || Top(k) == 19
    requires Shifts(Top(k), Next(at), t)
    requires at.pos < |at.input| ==> text == Text(at)
    ensures Resume(known, Push(k, t, text), Skip(at)) == Resume(known, k, at)
  {
    hide Options;
    hide Items;
    hide ModelName;
    hide String;
    hide MessageRelation;
    hide ItemsAfter;
    hide ScaleFactor;
  }

  lemma ShiftNumberKeeps(known: set<string>, k: Stack, at: Progress, t: int, text: string)
    requires Top(k) == 21 || Top(k) == 25 || Top(k) == 26 || Top(k) == 28
    requires Shifts(Top(k), Next(at), t)
    requires at.pos < |at.input| ==> text == Text(at)
    ensures Resume(known, Push(k, t, text), Skip(at)) == Resume(known, k, at)
  {
    hide OptionsAfter;
    hide ItemsAfter;
  }

  lemma ShiftBoundKeeps(known: set<string>, k: Stack, at: Progress, t: int, text: string)
    requires Top(k) == 32 || Top(k) == 33 || Top(k) == 45 || Top(k) == 46
    requires Shifts(Top(k), Next(at), t)
    requires at.pos < |at.input| ==> text == Text(at)
    ensures Resume(known, Push(k, t, text), Skip(at)) == Resume(known, k, at)
  {
    hide ItemsAfter;
    hide MessageBound;
  }

  // Shifting the next token keeps the meaning.
  lemma ShiftKeeps(known: set<string>, k: Stack, at: Progress, t: int, text: string)
    requires Shifts(Top(k), Next(at), t)
    requires at.pos < |at.input| ==> text == Text(at)
    ensures Resume(known, Push(k, t, text), Skip(at)) == Resume(known, k, at)
  {
    hide Resume;
    match Top(k)
    case 1 | 17 | 27 | 41 => ShiftStringStartKeeps(known, k, at, t, text);
    case 4 | 15 => ShiftStringKeeps(known, k, at, t, text);
    case 16 | 29 => ShiftOptionKeeps(known, k, at, t, text);
    case 3 | 10 => ShiftItemKeeps(known, k, at, t, text);
    case 0 | 2 | 7 | 8 | 9 | 19 => ShiftPhraseKeeps(known, k, at, t, text);
    case 21 | 25 | 26 | 28 => ShiftNumberKeeps(known, k, at, t, text);
    case _ => ShiftBoundKeeps(known, k, at, t, text);
  }

  // --- Reductions -----------------------------------------------------------------

  // What a semantic action leaves behind: yyval, the model flag and the calls made; or
  // the failure that ended the run.
  datatype Effect = Effect(value: string, model: bool, calls: seq<Call>) | Fatal(calls: seq<Call>, why: Failure)

  // The action of rule r (yyreduce): garbage is what yyvsp[1] holds when the rule is
  // empty, and model says whether the global model pointer is set.
  function Perform(known: set<string>, r: int, k: Stack, garbage: string, model: bool, calls: seq<Call>): Effect {
    match r
    case 3 =>
      var calls1 := calls + [CreateModel(Val(k))];
      if Val(k) in known then Effect(garbage, true, calls1) else Fatal(calls1, UndefinedModel)
    case 7 => OnModel(Val(Below(Below(k))), OptionCall(Val(Below(k)), Val(k)), model, calls)
    case 8 => OnModel(Val(k), SetFlag("aggregate idle"), model, calls)
    case 9 => OnModel(Val(Below(k)), SetOption("noop threshold", Val(k)), model, calls)
    case 10 => OnModel(Val(Below(k)), SetOption("skip threshold", Val(k)), model, calls)
    case 11 => OnModel(Val(Below(k)), SetOption("idle overhead", Val(k)), model, calls)
    case 20 => Effect(Val(Below(k)), model, calls + [BalanceRegion(Val(k))])
    case 23 => Effect(Val(Below(Below(k))), model, calls + [MessageBound(true, Val(Below(k)), Val(k))])
    case 24 => Effect(Val(Below(Below(k))), model, calls + [MessageBound(false, Val(Below(k)), Val(k))])
    case 26 => Effect(Val(Below(Below(k))), model, calls + [ScaleRegion(Val(Below(k)), Val(k))])
    case 28 => Effect(Val(Below(k)), model, calls)
    case _ => PassValue(r, k, garbage, model, calls)
  }

  function OnModel(value: string, call: Call, model: bool, calls: seq<Call>): Effect {
    if model then Effect(value, model, calls + [call]) else Fatal(calls, UninitializedModel)
  }

  // The rules without a call. By default $$ = $1; rules 19, 27, 29, 30 and 31 set it.
  function PassValue(r: int, k: Stack, garbage: string, model: bool, calls: seq<Call>): Effect {
    match r
    case 12 => Effect(garbage, model, calls)
    case 18 => Effect(garbage, model, calls)
    case 25 => Effect(garbage, model, calls)
    case 19 => Effect(Val(k), model, calls)
    case 1 => Effect(Val(Below(k)), model, calls)
    case 2 => Effect(Val(Below(k)), model, calls)
    case 4 => Effect(Val(Pop(k, 3)), model, calls)
    case 6 => Effect(Val(Below(k)), model, calls)
    case 14 => Effect(Val(Below(k)), model, calls)
    case 21 => Effect(Val(Below(k)), model, calls)
    case 22 => Effect(Val(Pop(k, 2)), model, calls)
    case _ => Effect(Val(k), model, calls)
  }

  // A stack that shifts and gotos can build.
  predicate Linked(k: Stack) {
    k.Push? ==> Follows(Top(k.below), k.top) && Linked(k.below)
  }

  // The model has been created before its options are read.
  predicate PastModel(k: Stack) {
    k.Push? && (k.top == 16 || PastModel(k.below))
  }

  // Reducing by r on stack k, with the next token at at, keeps the meaning.
  predicate Kept(known: set<string>, k: Stack, at: Progress, e: Effect, base: Stack, g: int) {
    match e
    case Fatal(calls, why) => Resume(known, k, at) == Rejected(calls, why)
    case Effect(v, _, calls) => Resume(known, Push(base, g, v), at.(calls := calls)) == Resume(known, k, at)
  }

  lemma StringReduced(known: set<string>, k: Stack, at: Progress, r: int, garbage: string, model: bool, g: int)
    requires r == 28 && Top(k) == 23
    requires Gotos(Top(Pop(k, R2(r))), r, g)
    ensures Kept(known, k, at, Perform(known, r, k, garbage, model, at.calls), Pop(k, R2(r)), g)
  {
    hide Model;
    hide AfterRegion;
    hide OptionsAfter;
  }

  lemma NumberReduced(known: set<string>, k: Stack, at: Progress, r: int, garbage: string, model: bool, g: int)
    requires 29 <= r <= 31 && 35 <= Top(k) <= 37
    requires Gotos(Top(Pop(k, R2(r))), r, g)
    ensures Kept(known, k, at, Perform(known, r, k, garbage, model, at.calls), Pop(k, R2(r)), g)
  {
    hide OptionsAfter;
    hide ItemsAfter;
    hide ScaleFactor;
    hide Threshold;
  }

  lemma RegionReduced(known: set<string>, k: Stack, at: Progress, r: int, garbage: string, model: bool, g: int)
    requires r == 19 && Top(k) == 31
    requires Gotos(Top(Pop(k, R2(r))), r, g)
    ensures Kept(known, k, at, Perform(known, r, k, garbage, model, at.calls), Pop(k, R2(r)), g)
  {
    hide ItemsAfter;
    hide Items;
    hide ScaleFactor;
  }

  lemma OptionReduced(known: set<string>, k: Stack, at: Progress, r: int, garbage: string, model: bool, g: int)
    requires model && 7 <= r <= 11 && Reduces(Top(k), r)
    requires Gotos(Top(Pop(k, R2(r))), r, g)
    ensures Kept(known, k, at, Perform(known, r, k, garbage, model, at.calls), Pop(k, R2(r)), g)
  {
    hide Options;
    hide OptionCall;
  }

  lemma OptionsReduced(known: set<string>, k: Stack, at: Progress, r: int, garbage: string, model: bool, g: int)
    requires (r == 12 || r == 5 || r == 6) && Reduces(Top(k), r)
    requires Gotos(Top(Pop(k, R2(r))), r, g)
    ensures Kept(known, k, at, Perform(known, r, k, garbage, model, at.calls), Pop(k, R2(r)), g)
  {
    hide Options;
  }

  lemma MessageReduced(known: set<string>, k: Stack, at: Progress, r: int, garbage: string, model: bool, g: int)
    requires (r == 27 || r == 23 || r == 24 || r == 22) && Reduces(Top(k), r)
    requires Gotos(Top(Pop(k, R2(r))), r, g)
    ensures Kept(known, k, at, Perform(known, r, k, garbage, model, at.calls), Pop(k, R2(r)), g)
  {
    hide Items;
    hide Bound;
    hide MessageBound;
  }

  lemma ListReduced(known: set<string>, k: Stack, at: Progress, r: int, garbage: string, model: bool, g: int)
    requires 13 <= r <= 17 && Reduces(Top(k), r)
    requires Gotos(Top(Pop(k, R2(r))), r, g)
    ensures Kept(known, k, at, Perform(known, r, k, garbage, model, at.calls), Pop(k, R2(r)), g)
  {
    hide Items;
  }

  lemma ItemReduced(known: set<string>, k: Stack, at: Progress, r: int, garbage: string, model: bool, g: int)
    requires (r == 20 || r == 21 || r == 26) && Reduces(Top(k), r)
    requires Gotos(Top(Pop(k, R2(r))), r, g)
    ensures Kept(known, k, at, Perform(known, r, k, garbage, model, at.calls), Pop(k, R2(r)), g)
  {
    hide Items;
  }

  lemma EmptyReduced(known: set<string>, k: Stack, at: Progress, r: int, garbage: string, model: bool, g: int)
    requires ((Top(k) == 19 && r == 25) || (Top(k) == 3 && r == 18) || (Top(k) == 29 && r == 4) || (Top(k) == 10 && r == 2))
    requires NoShift(Top(k), Next(at))
    requires Gotos(Top(Pop(k, R2(r))), r, g)
    ensures Kept(known, k, at, Perform(known, r, k, garbage, model, at.calls), Pop(k, R2(r)), g)
  {
    hide Balance;
    hide Cut;
    hide Scale;
    hide Threshold;
    hide NamedOption;
    hide OptionsAfter;
    hide MessageRelation;
    var s, n := Top(k), Next(at);
    assert !Shifts(s, n, 7) && !Shifts(s, n, 8) && !Shifts(s, n, 9);
    assert !Shifts(s, n, 24) && !Shifts(s, n, 25) && !Shifts(s, n, 26) && !Shifts(s, n, 27) && !Shifts(s, n, 28);
    assert !Shifts(s, n, 32) && !Shifts(s, n, 33) && !Shifts(s, n, 6);
  }

  lemma ModelReduced(known: set<string>, k: Stack, at: Progress, r: int, garbage: string, model: bool, g: int)
    requires r == 3 && Top(k) == 5
    requires Gotos(Top(Pop(k, R2(r))), r, g)
    ensures Kept(known, k, at, Perform(known, r, k, garbage, model, at.calls), Pop(k, R2(r)), g)
  {
    hide Options;
  }

  // What lies below a state about to be reduced: its left-hand side has a goto there.
  lemma GotoDefined(k: Stack, r: int) returns (g: int)
    requires Linked(k) && Reduces(Top(k), r) && r != 1
    ensures 0 < r <= RULES && Gotos(Top(Pop(k, R2(r))), r, g)
    ensures Depth(k) > R2(r)
    ensures Rank(g) < Rank(Top(k))
  {
    var b := Pop(k, R2(r));
    var s := Top(k);
    g := GotoTarget(Top(b), r);
    if s < 20 {
      GotoDefinedLow(k, r);
    } else if s < 38 {
      GotoDefinedMiddle(k, r);
    } else {
      GotoDefinedHigh(k, r);
    }
  }

  // The target of Gotos.
  function GotoTarget(b: int, r: int): int {
    if r <= 12 then
      match r
      case 2 => 2
      case 3 => 16
      case 4 => 3
      case 5 => 29
      case 6 => 29
      case _ => if b == 16 then 30 else 43
    else if r <= 18 then
      if r <= 14 then 10 else if b == 3 then 11 else 22
    else if r <= 26 then
      match r
      case 19 => if b == 7 then 18 else if b == 8 then 20 else 21
      case 20 => 12
      case 21 => 13
      case 22 => 13
      case 26 => 14
      case _ => 34
    else
      match r
      case 27 => if b == 32 then 45 else 46
      case 28 => if b == 1 then 5 else if b == 17 then 31 else if b == 27 then 41 else 47
      case _ => if b == 21 then 38 else if b == 25 then 39 else if b == 26 then 40 else 42
  }

  lemma {:induction false} DepthBound(k: Stack)
    requires Linked(k)
    ensures Depth(k) <= Height(Top(k)) + 1 <= 10
    ensures 0 <= Top(k) < STATES
  {
    if k.Push? {
      DepthBound(k.below);
      HeightStep(Top(k.below), k.top);
    }
  }

  lemma HeightStep(a: int, b: int)
    requires Follows(a, b) && 0 <= a < STATES
    ensures 0 <= b < STATES && Height(a) < Height(b) <= 9
  {}

  lemma GotoDefinedLow(k: Stack, r: int)
    requires Linked(k) && Reduces(Top(k), r) && r != 1 && 0 <= Top(k) < 20
    ensures 0 < r <= RULES && Gotos(Top(Pop(k, R2(r))), r, GotoTarget(Top(Pop(k, R2(r))), r))
    ensures Depth(k) > R2(r)
    ensures Rank(GotoTarget(Top(Pop(k, R2(r))), r)) < Rank(Top(k))
  {
    hide Linked;
    Under(k);
    Under(Below(k));
    Under(Below(Below(k)));
    Under(Below(Below(Below(k))));
  }

  lemma GotoDefinedMiddle(k: Stack, r: int)
    requires Linked(k) && Reduces(Top(k), r) && r != 1 && 20 <= Top(k) < 38
    ensures 0 < r <= RULES && Gotos(Top(Pop(k, R2(r))), r, GotoTarget(Top(Pop(k, R2(r))), r))
    ensures Depth(k) > R2(r)
    ensures Rank(GotoTarget(Top(Pop(k, R2(r))), r)) < Rank(Top(k))
  {
    hide Linked;
    Under(k);
    Under(Below(k));
    Under(Below(Below(k)));
    Under(Below(Below(Below(k))));
  }

  lemma GotoDefinedHigh(k: Stack, r: int)
    requires Linked(k) && Reduces(Top(k), r) && r != 1 && 38 <= Top(k) < 50
    ensures 0 < r <= RULES && Gotos(Top(Pop(k, R2(r))), r, GotoTarget(Top(Pop(k, R2(r))), r))
    ensures Depth(k) > R2(r)
    ensures Rank(GotoTarget(Top(Pop(k, R2(r))), r)) < Rank(Top(k))
  {
    hide Linked;
    Under(k);
    Under(Below(k));
    Under(Below(Below(k)));
    Under(Below(Below(Below(k))));
  }

  lemma Under(k: Stack)
    requires Linked(k)
    ensures k.Push? ==> Follows(Top(k.below), k.top) && Linked(k.below)
    ensures Linked(Below(k))
    ensures Depth(k) == (if k.Push? then 1 + Depth(Below(k)) else 1)
    ensures Top(k) != 0 ==> k.Push?
    ensures PastModel(k) <==> k.Push? && (k.top == 16 || PastModel(k.below))
  {}

  // Only after the model exists does the stack hold state 16.
  lemma OptionsArePastModel(k: Stack, r: int)
    requires Linked(k) && Reduces(Top(k), r) && 7 <= r <= 11
    ensures PastModel(k)
  {
    Under(k);
    Under(Below(k));
    Under(Below(Below(k)));
    Under(Below(Below(Below(k))));
  }

  // Reducing keeps the meaning, or fails as the translation does.
  lemma ReduceKeeps(known: set<string>, k: Stack, at: Progress, r: int, garbage: string, model: bool)
    requires Linked(k) && Reduces(Top(k), r) && r != 1 && NoShift(Top(k), Next(at))
    requires PastModel(k) ==> model
    ensures 0 < r <= RULES && Depth(k) > R2(r)
    ensures var b := Pop(k, R2(r));
            var e := Perform(known, r, k, garbage, model, at.calls);
            && 0 <= R1(r) - NTOKENS < 16 && Linked(b)
            && var g := Goto(SilasGrammar, Top(b), R1(r));
               && Follows(Top(b), g) && Rank(g) < Rank(Top(k))
               && Kept(known, k, at, e, b, g)
               && (e.Effect? && (g == 16 || PastModel(b)) ==> e.model)
  {
    var g := GotoDefined(k, r);
    var b := Pop(k, R2(r));
    TableGotos(Top(b), r, g);
    PopLinked(k, R2(r));
    if 7 <= r <= 11 {
      OptionsArePastModel(k, r);
    }
    ReducedKeeps(known, k, at, r, garbage, model, g);
  }

  lemma {:induction false} PopLinked(k: Stack, n: nat)
    requires Linked(k)
    ensures Linked(Pop(k, n))
    ensures PastModel(Pop(k, n)) ==> PastModel(k)
  {
    if n > 0 {
      hide Linked, PastModel, Pop;
      PopLinked(k, n - 1);
      PopStep(k, n);
      Under(Pop(k, n - 1));
    } else {
      assert Pop(k, 0) == k;
    }
  }

  lemma ReducedKeeps(known: set<string>, k: Stack, at: Progress, r: int, garbage: string, model: bool, g: int)
    requires Reduces(Top(k), r) && r != 1 && 0 < r <= RULES && Gotos(Top(Pop(k, R2(r))), r, g)
    requires NoShift(Top(k), Next(at))
    requires 7 <= r <= 11 ==> model
    ensures var e := Perform(known, r, k, garbage, model, at.calls);
            && Kept(known, k, at, e, Pop(k, R2(r)), g)
            && (e.Effect? ==> (model ==> e.model) && (g == 16 ==> e.model))
  {
    hide Kept;
    match r
    case 28 => StringReduced(known, k, at, r, garbage, model, g);
    case 19 => RegionReduced(known, k, at, r, garbage, model, g);
    case 3 => ModelReduced(known, k, at, r, garbage, model, g);
    case _ =>
      if 29 <= r {
        NumberReduced(known, k, at, r, garbage, model, g);
      } else if 7 <= r <= 11 {
        OptionReduced(known, k, at, r, garbage, model, g);
      } else if r == 12 || r == 5 || r == 6 {
        OptionsReduced(known, k, at, r, garbage, model, g);
      } else if r == 27 || r == 23 || r == 24 || r == 22 {
        MessageReduced(known, k, at, r, garbage, model, g);
      } else if r == 25 || r == 18 || r == 4 || r == 2 {
        EmptyReduced(known, k, at, r, garbage, model, g);
      } else if r <= 17 {
        ListReduced(known, k, at, r, garbage, model, g);
      } else {
        ItemReduced(known, k, at, r, garbage, model, g);
      }
  }

  // A syntax error is detected exactly where the translation fails, after the same calls.
  lemma ErrorKeeps(known: set<string>, k: Stack, at: Progress)
    requires 0 <= Top(k) < STATES && Decide(SilasGrammar, Top(k), Next(at)) == SyntaxError
    ensures Resume(known, k, at) == Error(at)
  {
    var s, n := Top(k), Next(at);
    TableDefaults(s, n);
    forall t ensures !Shifts(s, n, t) { TableShifts(s, n, t); }
    Stuck(known, k, at);
  }

  lemma Stuck(known: set<string>, k: Stack, at: Progress)
    requires 0 <= Top(k) < STATES && NoShift(Top(k), Next(at)) && SilasTables.Defact(Top(k)) == 0
    ensures Resume(known, k, at) == Error(at)
  {
    var s, n := Top(k), Next(at);
    assert !Shifts(s, n, 1) && !Shifts(s, n, 4) && !Shifts(s, n, 6) && !Shifts(s, n, 15) && !Shifts(s, n, 17);
    assert !Shifts(s, n, 19) && !Shifts(s, n, 23) && !Shifts(s, n, 35) && !Shifts(s, n, 36) && !Shifts(s, n, 37);
    assert !Shifts(s, n, 44) && !Shifts(s, n, 48) && !Shifts(s, n, 49);
  }
}
