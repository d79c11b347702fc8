/** yyparse of the Silas configuration parser, proved to do what the recursive-descent
    translator does. */
module SilasParser {
  import opened Lr
  import opened LrStack
  import opened SilasTables
  import Numbers
  import opened SilasTranslator
  import opened SilasMeaning
  import opened SilasAutomaton
  import opened SilasCodes

  const YYINITDEPTH: nat := 200
  const YYEMPTY: int := -2

  class Parser {
    const known: set<string> // the models ModelFactory can create
    const tokens: seq<Token> // what the scanner delivers before the end of its input
    var pos: nat             // number of yylex calls
    var yychar: int
    var yylval: string
    var model: bool          // model != NULL
    var calls: seq<Call>

    constructor (known: set<string>, tokens: seq<Token>, yylval: string)
      ensures this.known == known && this.tokens == tokens
      ensures pos == 0 && yychar == YYEMPTY && !model && calls == []
    {
      this.known, this.tokens, this.yylval := known, tokens, yylval;
      pos, yychar, model, calls := 0, YYEMPTY, false, [];
    }

    // A held lookahead has been read but not consumed.
    ghost predicate Consistent()
      reads this
    {
      && (yychar != YYEMPTY ==> pos > 0 && Kind(SilasGrammar, yychar) == Next(Progress(tokens, pos - 1, calls)))
      && (yychar != YYEMPTY && pos - 1 < |tokens| ==> yylval == tokens[pos - 1].text)
    }

    // The unconsumed input and the calls made so far.
    ghost function At(): Progress
      requires Consistent()
      reads this
    {
      Progress(tokens, if yychar == YYEMPTY then pos else pos - 1, calls)
    }

    // The scanner leaves yylval alone at the end of the input.
    method yylex() returns (code: int)
      modifies this`pos, this`yylval
      ensures pos == old(pos) + 1
      ensures if old(pos) < |tokens| then code == tokens[old(pos)].code && yylval == tokens[old(pos)].text
              else code == 0 && yylval == old(yylval)
    {
      if pos < |tokens| {
        code, yylval := tokens[pos].code, tokens[pos].text;
      } else {
        code := 0;
      }
      pos := pos + 1;
    }

    // yybackup and yydefault: reads a lookahead only if the state needs one.
    method Backup(yystate: int) returns (d: Decision)
      requires 0 <= yystate < STATES && Consistent()
      modifies this`pos, this`yylval, this`yychar
      ensures Consistent() && At() == old(At())
      ensures d == Decide(SilasGrammar, yystate, Next(At()))
      ensures d.Shift? ==> yychar != YYEMPTY
    {
      var yyn := SilasTables.Pact(yystate);
      if yyn != PACT_NINF {
        if yychar == YYEMPTY {
          yychar := yylex();
          if yychar == YYEMPTY {
            yychar := 0; // any code up to YYEOF is the end of the input
          }
        }
        var yytoken := 0;
        if yychar <= 0 {
          yychar := 0;
        } else {
          yytoken := SilasTables.Translate(yychar);
        }
        yyn := yyn + yytoken;
        if 0 <= yyn <= LAST && SilasTables.Check(yyn) == yytoken {
          yyn := SilasTables.Table(yyn);
          if yyn <= 0 {
            return Reduce(-yyn);
          }
          return Shift(yyn);
        }
      }
      yyn := SilasTables.Defact(yystate);
      if yyn == 0 {
        return SyntaxError;
      }
      return Reduce(yyn);
    }

    // The switch of yyreduce; yyvsp is the top of the value stack. A failure is a call
    // of yyerror, which exits.
    method Act(yyn: int, yyvs: array<string>, yyvsp: nat, ghost k: Stack) returns (yyval: string, failed: bool, why: Failure)
      requires 0 < yyn <= RULES && yyvsp + 1 < yyvs.Length && R2(yyn) <= yyvsp
      requires forall i :: 0 <= i < R2(yyn) ==> Val(Pop(k, i)) == yyvs[yyvsp - i]
      requires yyn == 3 ==> Val(k) == yyvs[yyvsp]
      modifies this`model, this`calls
      ensures match Perform(known, yyn, k, yyvs[yyvsp + 1], old(model), old(calls))
              case Effect(v, m, c) => !failed && yyval == v && model == m && calls == c
              case Fatal(c, w) => failed && why == w && calls == c
    {
      var yylen := R2(yyn);
      failed, why := false, BadSyntax;
      yyval := yyvs[yyvsp + 1 - yylen];
      assert yylen > 0 ==> Val(Pop(k, 0)) == yyvs[yyvsp];
      assert yylen > 1 ==> Val(Pop(k, 1)) == yyvs[yyvsp - 1];
      assert yylen > 2 ==> Val(Pop(k, 2)) == yyvs[yyvsp - 2];
      assert yylen > 3 ==> Val(Pop(k, 3)) == yyvs[yyvsp - 3];
      if 7 <= yyn <= 11 && !model {
        failed, why := true, UninitializedModel;
      } else {
        match yyn
        case 3 =>
          calls := calls + [CreateModel(yyvs[yyvsp])];
          model := yyvs[yyvsp] in known;
          if !model {
            failed, why := true, UndefinedModel;
          }
        case 7 =>
          if yyvs[yyvsp] == "true" {
            calls := calls + [SetFlag(yyvs[yyvsp - 1])];
          } else {
            calls := calls + [SetOption(yyvs[yyvsp - 1], yyvs[yyvsp])];
          }
        case 8 => calls := calls + [SetFlag("aggregate idle")];
        case 9 => calls := calls + [SetOption("noop threshold", yyvs[yyvsp])];
        case 10 => calls := calls + [SetOption("skip threshold", yyvs[yyvsp])];
        case 11 => calls := calls + [SetOption("idle overhead", yyvs[yyvsp])];
        case 20 => calls := calls + [BalanceRegion(yyvs[yyvsp])];
        case 23 => calls := calls + [MessageSize(yyvs[yyvsp - 1], Numbers.ToUnsigned(yyvs[yyvsp]))];
        case 24 => calls := calls + [MessageTag(yyvs[yyvsp - 1], Numbers.ToUnsigned(yyvs[yyvsp]))];
        case 26 => calls := calls + [ScaleRegion(yyvs[yyvsp - 1], yyvs[yyvsp])];
        case 28 => yyval := yyvs[yyvsp - 1];
        case 19 | 27 | 29 | 30 | 31 => yyval := yyvs[yyvsp];
        case _ =>
      }
    }

    // The state to enter after reducing by yyn on top of yystate.
    method GotoState(yyn: int, yystate: int) returns (t: int)
      requires 0 < yyn <= RULES && 0 <= R1(yyn) - NTOKENS < 16
      ensures t == Goto(SilasGrammar, yystate, R1(yyn))
    {
      var nt := R1(yyn) - NTOKENS;
      t := SilasTables.Pgoto(nt) + yystate;
      if 0 <= t <= LAST && SilasTables.Check(t) == yystate {
        t := SilasTables.Table(t);
      } else {
        t := SilasTables.Defgoto(nt);
      }
    }

    // The arrays hold the stack k.
    ghost predicate Holds(yyss: array<int>, yyvs: array<string>, yyssp: nat, k: Stack)
      reads this, yyss, yyvs
    {
      && yyss.Length == yyvs.Length == YYINITDEPTH && yyssp < YYINITDEPTH
      && k == StackOf(yyss[..], yyvs[..], yyssp + 1) && yyss[0] == 0 && yyss[yyssp] == Top(k)
      && Linked(k) && (PastModel(k) ==> model)
    }

    // Shifts the lookahead.
    method ShiftToken(yyss: array<int>, yyvs: array<string>, yyssp: nat, t: int, ghost k: Stack)
      requires Holds(yyss, yyvs, yyssp, k) && yyssp + 1 < YYINITDEPTH
      requires Consistent() && yychar != YYEMPTY
      requires Shifts(Top(k), Next(At()), t) && Follows(Top(k), t) && t != 16
      modifies yyss, yyvs, this`yychar
      ensures Consistent() && At() == Skip(old(At()))
      ensures Holds(yyss, yyvs, yyssp + 1, Push(k, t, yylval))
      ensures Resume(known, Push(k, t, yylval), At()) == Resume(known, k, old(At()))
    {
      hide Resume, Follows, Shifts;
      ShiftKeeps(known, k, At(), t, yylval);
      Grows(k, t, yylval);
      yychar := YYEMPTY;
      PushEntry(yyss, yyvs, yyssp, t, yylval);
    }

    // Enters the goto state with the value of the left-hand side.
    method EnterGoto(yyss: array<int>, yyvs: array<string>, yyssp: nat, yyn: int, yyval: string, ghost b: Stack, ghost g: int)
      requires Holds(yyss, yyvs, yyssp, b) && yyssp + 1 < YYINITDEPTH
      requires 0 < yyn <= RULES && 0 <= R1(yyn) - NTOKENS < 16
      requires g == Goto(SilasGrammar, Top(b), R1(yyn)) && Follows(Top(b), g) && (g == 16 ==> model)
      modifies yyss, yyvs
      ensures Holds(yyss, yyvs, yyssp + 1, Push(b, g, yyval))
    {
      hide Goto, Follows, Linked, PastModel;
      var yystate := GotoState(yyn, yyss[yyssp]);
      Grows(b, yystate, yyval);
      PushEntry(yyss, yyvs, yyssp, yystate, yyval);
    }

    // Pops the right-hand side of rule yyn and performs its action.
    method PopAndAct(yyss: array<int>, yyvs: array<string>, yyssp: nat, yyn: int, ghost k: Stack)
      returns (sp: nat, yyval: string, failed: bool, why: Failure)
      requires Holds(yyss, yyvs, yyssp, k) && 0 < yyssp && yyssp + 1 < YYINITDEPTH
      requires 0 < yyn <= RULES && R2(yyn) <= 4 && R2(yyn) <= yyssp
      modifies this`model, this`calls
      ensures match Perform(known, yyn, k, yyvs[yyssp + 1], old(model), old(calls))
              case Effect(v, m, c) => !failed && yyval == v && model == m && calls == c
              case Fatal(c, w) => failed && why == w && calls == c
      ensures sp == yyssp - R2(yyn) && yyss[sp] == Top(Pop(k, R2(yyn)))
      ensures StackOf(yyss[..], yyvs[..], sp + 1) == Pop(k, R2(yyn))
    {
      hide Perform, Linked, PastModel;
      var yylen := R2(yyn);
      ReadsStack(yyss[..], yyvs[..], yyssp + 1, yylen);
      Pops(yyss[..], yyvs[..], yyssp + 1, yylen);
      yyval, failed, why := Act(yyn, yyvs, yyssp, k);
      sp := yyssp - yylen;
    }

    // Reduces by rule yyn, or fails in its action.
    method ReduceRule(yyss: array<int>, yyvs: array<string>, yyssp: nat, yyn: int, ghost k: Stack)
      returns (sp: nat, failed: bool, why: Failure, ghost k1: Stack)
      requires Holds(yyss, yyvs, yyssp, k) && yyssp + 1 < YYINITDEPTH && Consistent()
      requires Reduces(Top(k), yyn) && yyn != 1 && NoShift(Top(k), Next(At()))
      modifies yyss, yyvs, this`model, this`calls
      ensures Consistent() && At() == old(At()).(calls := calls)
      ensures failed ==> Resume(known, k, old(At())) == Rejected(calls, why)
      ensures !failed ==>
                && Holds(yyss, yyvs, sp, k1) && Rank(Top(k1)) < Rank(Top(k))
                && Resume(known, k1, At()) == Resume(known, k, old(At()))
    {
      hide Resume, Perform, Goto, Follows, Rank, Reduces, NoShift, Linked, PastModel, SilasTables.R1, SilasTables.R2, Pop;
      ReduceKeeps(known, k, At(), yyn, yyvs[yyssp + 1], model);
      RuleShapes(k, yyn);
      k1 := Pop(k, R2(yyn));
      ghost var g := Goto(SilasGrammar, Top(k1), R1(yyn));
      var yyval;
      sp, yyval, failed, why := PopAndAct(yyss, yyvs, yyssp, yyn, k);
      if !failed {
        EnterGoto(yyss, yyvs, sp, yyn, yyval, k1, g);
        sp, k1 := sp + 1, Push(k1, g, yyval);
      }
    }

    // The parser does what the translator does, for every token sequence: it accepts
    // the same inputs, makes the same calls in the same order with the same arguments,
    // and fails at the same point with the same error. It terminates, the stack never
    // fills up, and no reduction pops the bottom state.
    method yyparse() returns (o: Outcome)
      requires pos == 0 && yychar == YYEMPTY && !model && calls == []
      modifies this
      ensures o == Translation(known, tokens)
      ensures EndsAsMeant(known, tokens, o)
      ensures calls == o.calls
    {
      MeantEnd(known, tokens);
      hide EndsAsMeant, Linked, PastModel, Resume, Translation, Follows, Height, Rank, Reduces, Shifts, NoShift, Decide;
      var yyss := new int[YYINITDEPTH](_ => 0);
      var yyvs := new string[YYINITDEPTH](_ => "");
      var yyssp: nat := 0;
      ghost var k := Bottom;
      Start(known, tokens);
      while true
        invariant fresh(yyss) && fresh(yyvs) && Consistent() && Holds(yyss, yyvs, yyssp, k)
        invariant Resume(known, k, At()) == Translation(known, tokens)
        decreases At().Left(), if Top(k) == FINAL then 0 else Rank(Top(k)) + 1
      {
        DepthBound(k);
        var yystate := yyss[yyssp];
        // yysetstate
        if YYINITDEPTH - 1 <= yyssp {
          return Rejected(calls, StackExhausted);
        }
        if yystate == FINAL {
          Finished(known, k, At());
          return Accepted(calls);
        }
        var d := Backup(yystate);
        TableDecision(yystate, d, Next(At()));
        match d
        case SyntaxError =>
          ErrorKeeps(known, k, At());
          return Rejected(calls, BadSyntax);
        case Shift(t) =>
          ShiftToken(yyss, yyvs, yyssp, t, k);
          yyssp, k := yyssp + 1, Push(k, t, yylval);
        case Reduce(yyn) =>
          var failed, why;
          yyssp, failed, why, k := ReduceRule(yyss, yyvs, yyssp, yyn, k);
          if failed {
            return Rejected(calls, why);
          }
      }
    }
  }

  lemma Start(known: set<string>, tokens: seq<Token>)
    ensures Linked(Bottom) && !PastModel(Bottom)
    ensures Resume(known, Bottom, Progress(tokens, 0, [])) == Translation(known, tokens)
  {}

  lemma Finished(known: set<string>, k: Stack, at: Progress)
    requires Top(k) == FINAL
    ensures Resume(known, k, at) == Accepted(at.calls)
  {}

  lemma Grows(k: Stack, t: int, v: string)
    requires Linked(k) && Follows(Top(k), t)
    ensures Linked(Push(k, t, v)) && (PastModel(Push(k, t, v)) <==> t == 16 || PastModel(k))
  {}

  lemma TableDecision(s: int, d: Decision, k: int)
    requires 0 <= s < STATES && s != FINAL && d == Decide(SilasGrammar, s, k)
    ensures d.Shift? ==> Shifts(s, k, d.state) && Follows(s, d.state) && d.state != 16
    ensures d.Shift? && k == END ==> d.state == FINAL
    ensures d.Reduce? ==> Reduces(s, d.rule) && d.rule != 1 && NoShift(s, k)
  {
    if d.Shift? {
      TableShifts(s, k, d.state);
      ShiftsFollow(s, k, d.state);
    } else if d.Reduce? {
      TableDefaults(s, k);
      forall t ensures !Shifts(s, k, t) { TableShifts(s, k, t); }
      OnlyFinalAccepts(s);
    }
  }

  lemma ShiftsFollow(s: int, k: int, t: int)
    requires Shifts(s, k, t)
    ensures Follows(s, t) && t != 16 && (t == FINAL <==> k == END) && 0 <= t < STATES
  {}

  lemma OnlyFinalAccepts(s: int)
    requires 0 <= s < STATES && s != FINAL
    ensures SilasTables.Defact(s) != 1
  {}

  lemma RuleShapes(k: Stack, r: int)
    requires Reduces(Top(k), r)
    ensures k.Push? && 0 < r <= RULES && R2(r) <= 4
  {
    RuleLength(r);
  }

  lemma RuleLength(r: int)
    requires 0 <= r <= RULES
    ensures R2(r) <= 4
  {}
}
