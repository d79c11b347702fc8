/** yyparse of the Scout pattern parser with its scanner, proved to do what the
    recursive-descent translator does. */
module ScoutParser {
  import opened Lr
  import opened LrStack
  import opened ScoutTables
  import Lexing = ScoutLexer
  import Flex
  import opened ScanBuffer
  import opened ScoutScanning
  import opened CodeText
  import opened PatternRegistry
  import opened ScoutTranslator
  import opened ScoutAutomaton
  import opened ScoutMeaning
  import opened ScoutDerivation
  import opened ScoutReading
  import opened PatternHistory
  import opened ScoutRuns
  import opened ScoutInput

  const YYINITDEPTH: nat := 200
  const YYEMPTY: int := -2

  // What yylex returns, for the parser.
  lemma Lookahead(l: ValidLexer)
    ensures match Lexing.Yylex(l)
            case Read(t, next) =>
              && Peek(l) == Kind(ScoutGrammar, t.code) >= 0 && Lexeme(l) == t.text && Beyond(l) == next
              && (Peek(l) == STRING ==> t.code == Lexing.STRING) && (Peek(l) == TEXT ==> t.code == Lexing.TEXT)
            case AtEnd => Peek(l) == END
            case Failed => Peek(l) == BROKEN
  {
    hide Lexing.Yylex;
  }

  class Parser {
    const lexer: YyLexer
    const inpFilename: string
    var yychar: int
    var prolog: string
    var pattern: seq<Pattern>
    var id2pattern: map<string, nat>
    var current: int
    var callbackgroup: string
    var codeLine: int
    var history: seq<Assignment>   // not in the program: the attributes as they are defined
    var log: Log                   // not in the program: the callbacks and prologs
    ghost const start: Lexing.Lexer // where the scanner was at first
    ghost var read: seq<Word>      // the tokens shifted, up to the end of the input
    ghost var reductions: seq<int> // the rules reduced, the last one first
    ghost var front: Lexing.Lexer  // where the parser stands: the scanner before the lookahead

    constructor (lexer: YyLexer, inpFilename: string)
      requires lexer.Valid()
      ensures this.lexer == lexer && this.inpFilename == inpFilename
      ensures Ready() && Reg() == EMPTY && front == start == lexer.Abstract() && yychar == YYEMPTY
      ensures read == [] && reductions == []
    {
      this.lexer, this.inpFilename, yychar := lexer, inpFilename, YYEMPTY;
      prolog, pattern, id2pattern, current, callbackgroup, codeLine := "", [], map[], -1, "", 0;
      history, log := [], Log([], []);
      start, front, read, reductions := lexer.Abstract(), lexer.Abstract(), [], [];
    }

    ghost function W(): World {
      World(lexer.files, inpFilename)
    }

    function Reg(): Registry
      reads this`prolog, this`pattern, this`id2pattern, this`current, this`callbackgroup, this`codeLine, this`history, this`log
    {
      Registry(prolog, pattern, id2pattern, current, callbackgroup, codeLine, history, log)
    }

    // The input that has not been consumed, and the registry.
    ghost function At(): Progress
      requires front.Valid()
      reads this`front
      reads this`prolog, this`pattern, this`id2pattern, this`current, this`callbackgroup, this`codeLine, this`history, this`log
    {
      Progress(front, Reg())
    }

    // A held lookahead has been read but not consumed.
    ghost predicate Ready()
      reads this`yychar, this`front, lexer.Repr()
    {
      && lexer.Valid() && front.Valid() && this !in lexer.Repr()
      && if yychar == YYEMPTY then front == lexer.Abstract() else Held()
    }

    ghost predicate Held()
      reads this`yychar, this`front, lexer.Repr()
    {
      && lexer.Valid() && front.Valid()
      && Kind(ScoutGrammar, yychar) == Peek(front) && Peek(front) != BROKEN
      && (0 < Peek(front) ==> lexer.Abstract() == Beyond(front))
      && (Peek(front) == STRING || Peek(front) == TEXT ==> lexer.yylval == Lexeme(front))
    }

    // yychar = yylex ()
    method GetToken() returns (failed: bool)
      requires Ready() && yychar == YYEMPTY
      modifies this`yychar, lexer.Repr()
      ensures failed ==> Peek(old(front)) == BROKEN
      ensures !failed ==>
                && Ready() && yychar != YYEMPTY && Peek(front) != BROKEN
                && fresh(lexer.Repr() - old(lexer.Repr()))
    {
      hide Peek, Beyond, Lexeme, YyLexer.Valid, YyLexer.Abstract, Lexing.Yylex;
      Lookahead(front);
      var code;
      code, failed := lexer.Yylex();
      if !failed {
        yychar := if code <= 0 then 0 else code; // any code up to YYEOF is the end of the input
      }
    }

    // yybackup and yydefault: reads a lookahead only if the state needs one.
    method Backup(yystate: int) returns (d: Decision, failed: bool)
      requires 0 <= yystate < STATES && Ready()
      modifies this`yychar, lexer.Repr()
      ensures failed ==> NeedsLookahead(ScoutGrammar, yystate) && Peek(old(front)) == BROKEN
      ensures !failed ==>
                && Ready() && fresh(lexer.Repr() - old(lexer.Repr()))
                && d == Decide(ScoutGrammar, yystate, Peek(front))
                && (d.Shift? ==> yychar != YYEMPTY)
                && if NeedsLookahead(ScoutGrammar, yystate) then Peek(front) != BROKEN else yychar == old(yychar)
    {
      hide Peek, Beyond, Lexeme, YyLexer.Valid, YyLexer.Abstract, YyLexer.Repr;
      failed := false;
      var yyn := ScoutTables.Pact(yystate);
      if yyn != PACT_NINF {
        if yychar == YYEMPTY {
          failed := GetToken();
          if failed {
            return SyntaxError, true;
          }
        }
        var yytoken := if yychar <= 0 then 0 else ScoutTables.Translate(yychar);
        yyn := yyn + yytoken;
        if 0 <= yyn <= LAST && ScoutTables.Check(yyn) == yytoken {
          yyn := ScoutTables.Table(yyn);
          if yyn <= 0 {
            return Reduce(-yyn), false;
          }
          return Shift(yyn), false;
        }
      }
      yyn := ScoutTables.Defact(yystate);
      if yyn == 0 {
        return SyntaxError, false;
      }
      return Reduce(yyn), false;
    }

    // --- The semantic actions -----------------------------------------------------------

    // The outcome of an action on the pattern list.
    ghost predicate Done(c: Change, was: Registry, failed: bool, why: Complaint)
      reads this`prolog, this`pattern, this`id2pattern, this`current, this`callbackgroup, this`codeLine, this`history, this`log
    {
      match c
      case Changed(reg) => !failed && Reg() == reg
      case Refused(complaint) => failed && why == complaint && Reg() == was
    }

    // Rule 9
    method PrologItem(code: string)
      modifies this`prolog, this`log
      ensures Reg() == AddProlog(old(Reg()), code)
    {
      prolog := (if prolog == "" then "" else prolog + "\n\n") + code;
      log := log.(prologs := log.prologs + [code]);
    }

    // Rule 10
    method EnterPattern(id: string) returns (failed: bool, why: Complaint)
      modifies this`pattern, this`id2pattern, this`current
      ensures Done(Enter(old(Reg()), id), old(Reg()), failed, why)
    {
      failed, why := false, BadSyntax;
      if id in id2pattern {
        return true, PatternDefined(id);
      }
      current := |pattern|;
      id2pattern := id2pattern[id := |pattern|];
      pattern := pattern + [NewPattern(id)];
    }

    // Rule 11
    method LeavePattern() returns (failed: bool, why: Complaint)
      requires HasCurrent(Reg())
      ensures Done(Leave(Reg()), Reg(), failed, why)
    {
      failed, why := true, BadSyntax;
      var p := pattern[current];
      if Attribute(p, NAME) == "" {
        why := Incomplete(NAME);
      } else if Attribute(p, CLASS) == "" {
        why := Incomplete(CLASS);
      } else if Attribute(p, INFO) == "" {
        why := Incomplete(INFO);
      } else if Attribute(p, UNIT) == "" {
        why := Incomplete(UNIT);
      } else if Attribute(p, MODE) == "" {
        why := Incomplete(MODE);
      } else {
        failed := false;
      }
    }

    // Rules 32 to 48
    method DefinePart(key: int, text: string) returns (failed: bool, why: Complaint)
      requires HasCurrent(Reg())
      modifies this`pattern, this`history
      ensures Done(Define(old(Reg()), key, text), old(Reg()), failed, why)
    {
      hide KnownType;
      failed, why := false, BadSyntax;
      var p := pattern[current];
      if key == PARENT {
        failed, why := ParentPart(text);
        return;
      } else if key == TYPE {
        if !KnownType(text) {
          return true, UnknownType(text);
        }
        p := p.(kind := text);
      } else if key == HIDDEN {
        p := p.(hidden := true);
      } else if key == NODOCS {
        p := p.(nodocs := true);
      } else {
        if key != DOCNAME && Attribute(p, key) != "" {
          return true, OnlyOne(key);
        }
        if key == MODE && text != "inclusive" && text != "exclusive" {
          return true, UnknownMode(text);
        }
        p := p.(texts := p.texts[key := text]);
      }
      pattern := pattern[current := p];
      history := history + [Assignment(current, key, text)];
    }

    // Rule 35
    method ParentPart(id: string) returns (failed: bool, why: Complaint)
      requires HasCurrent(Reg())
      modifies this`pattern, this`history
      ensures Done(DefineParent(old(Reg()), id), old(Reg()), failed, why)
    {
      failed, why := false, BadSyntax;
      if pattern[current].parent != NONE {
        return true, OnlyOne(PARENT);
      }
      if id !in id2pattern {
        return true, UnknownPattern(id);
      }
      if id2pattern[id] == current {
        return true, OwnParent;
      }
      pattern := pattern[current := pattern[current].(parent := id)];
      history := history + [Assignment(current, PARENT, id)];
    }

    // Rule 55
    method CallbackItem(event: string, code: string) returns (failed: bool, why: Complaint)
      requires HasCurrent(Reg())
      modifies this`pattern, this`log
      ensures Done(AddCallback(old(Reg()), event, code), old(Reg()), failed, why)
    {
      failed, why := false, BadSyntax;
      var p := pattern[current];
      var name := Callback(event, callbackgroup);
      if name in p.callbacks {
        return true, CallbackDefined(event);
      }
      var events := if callbackgroup in p.groups then p.groups[callbackgroup] else [];
      pattern := pattern[current := p.(callbacks := p.callbacks[name := code],
                                       groups := p.groups[callbackgroup := events + [event]])];
      log := log.(calls := log.calls + [Call(current, event, callbackgroup, code)]);
    }

    // Rule 58
    method CodeBlockItem(text: string) returns (yyval: string, failed: bool)
      requires lexer.Valid()
      modifies this`codeLine
      ensures codeLine == old(codeLine) + LeadingBlankLines(text) - 1
      ensures match CodeBlock(text, old(codeLine), FileName(W(), lexer.Abstract()))
              case Block(code) => !failed && yyval == code
              case InFirstLine => failed
    {
      hide YyLexer.Valid, Preprocessed, LeadingBlankLines;
      var codeText;
      codeText, codeLine := PreprocessText(text, codeLine);
      codeLine := codeLine - 1;
      if codeLine <= 0 {
        return "", true;
      }
      var name := if lexer.incFilename == "" then inpFilename else lexer.incFilename;
      yyval := "#line " + Decimal(codeLine) + " \"" + name + "\"\n" + "\n" + codeText;
      failed := false;
    }

    // The switch of yyreduce performs e, or fails with the same outcome.
    ghost predicate Performed(e: Effect, yyval: string, failed: bool, why: Complaint)
      reads this, lexer.Repr()
    {
      match e
      case Effect(v, at) => !failed && Ready() && yyval == v && front == at.l && Reg() == at.reg
      case Fatal(o) => failed && o == Rejected(Reg(), why)
    }

    // Rule 8: nothing has been read beyond the name of the file.
    method IncludeItem(name: string) returns (failed: bool, why: Complaint)
      requires Ready() && yychar == YYEMPTY
      modifies this`front, lexer.Repr()
      ensures Reg() == old(Reg()) && yychar == old(yychar)
      ensures match OpensFile(W(), name, old(At()))
              case Refused(complaint) => failed && why == complaint
              case Changed(_) =>
                && !failed && Ready() && fresh(lexer.Repr() - old(lexer.Repr()))
                && front == Lexing.Include(old(front), name, lexer.files[name])
    {
      hide Peek, Beyond, Lexeme, YyLexer.Valid;
      why := BadSyntax;
      var o := lexer.IncludeFile(name);
      match o
      case Opened =>
        failed, front := false, lexer.Abstract();
      case Nested => failed, why := true, NestedInclude;
      case CannotOpen => failed, why := true, NoSuchFile;
    }

    // Rules 8 to 11 and 49 to 55.
    method ActOnItem(yyn: int, v0: string, v1: string, v2: string, default: string, ghost k: Stack, ghost garbage: string)
      returns (yyval: string, failed: bool, why: Complaint)
      requires Ready() && 0 < yyn <= RULES && !(32 <= yyn <= 48) && yyn < 56
      requires yyn == 8 ==> yychar == YYEMPTY
      requires yyn == 11 || yyn == 55 ==> HasCurrent(Reg())
      requires 8 <= yyn <= 11 ==> v0 == Val(k)
      requires yyn == 49 ==> v1 == Val(Below(k))
      requires yyn == 55 ==> v0 == Val(k) && v2 == Val(Below(Below(k)))
      requires default == Default1(yyn, k, garbage)
      modifies this`prolog, this`pattern, this`id2pattern, this`current, this`callbackgroup, this`log, this`front, lexer.Repr()
      ensures Performed(Perform(W(), yyn, k, garbage, old(At())), yyval, failed, why)
      ensures !failed ==> fresh(lexer.Repr() - old(lexer.Repr()))
    {
      hide Peek, Beyond, Lexeme, YyLexer.Valid, YyLexer.Abstract, Enter, Leave, AddCallback, AddProlog, Default1, Held;
      yyval, failed, why := default, false, BadSyntax;
      match yyn
      case 8 => failed, why := IncludeItem(v0);
      case 9 => PrologItem(v0);
      case 10 => failed, why := EnterPattern(v0);
      case 11 => failed, why := LeavePattern();
      case 49 => callbackgroup := v1;
      case 51 => callbackgroup := "";
      case 55 => failed, why := CallbackItem(v2, v0);
      case _ =>
    }

    // Rules 32 to 48.
    method ActOnPart(yyn: int, v0: string, default: string, ghost k: Stack, ghost garbage: string)
      returns (yyval: string, failed: bool, why: Complaint)
      requires Ready() && 32 <= yyn <= 48 && HasCurrent(Reg())
      requires v0 == Val(k) && default == Default1(yyn, k, garbage)
      modifies this`pattern, this`history
      ensures Performed(Perform(W(), yyn, k, garbage, old(At())), yyval, failed, why)
    {
      hide Peek, Beyond, Lexeme, YyLexer.Valid, YyLexer.Abstract, Define, Default1, Held;
      yyval := default;
      failed, why := DefinePart(RuleKeyword(yyn), if yyn == 37 || yyn == 38 then "" else v0);
    }

    // Rules 56 to 61.
    method ActOnBlock(yyn: int, v0: string, v1: string, default: string, ghost k: Stack, ghost garbage: string)
      returns (yyval: string, failed: bool, why: Complaint)
      requires Ready() && 56 <= yyn <= RULES
      requires yyn == 57 || yyn == 58 ==> yychar == YYEMPTY
      requires yyn >= 60 ==> v0 == Val(k)
      requires yyn != 57 && yyn != 61 ==> v1 == Val(Below(k))
      requires yyn == 57 ==> default == garbage
      modifies this`codeLine
      ensures Performed(Perform(W(), yyn, k, garbage, old(At())), yyval, failed, why)
    {
      hide Peek, Beyond, Lexeme, YyLexer.Valid, Preprocessed, LeadingBlankLines, CodeBlock, Held;
      yyval, failed, why := default, false, CodeInFirstLine;
      match yyn
      case 56 => yyval := v1;
      case 57 => codeLine := lexer.lineno;
      case 58 => yyval, failed := CodeBlockItem(v1);
      case 59 =>
        var dummy;
        yyval, dummy := PreprocessText(v1, 0);
      case 60 => yyval := v1 + v0;
      case _ => yyval := v0;
    }

    // The switch of yyreduce; yyvsp is the top of the value stack.
    method Act(yyn: int, yyvs: array<string>, yyvsp: nat, ghost k: Stack)
      returns (yyval: string, failed: bool, why: Complaint)
      requires Ready() && 0 < yyn <= RULES && yyvsp + 1 < yyvs.Length && R2(yyn) <= yyvsp && R2(yyn) <= 9
      requires yyvs !in lexer.Repr()
      requires forall i :: 0 <= i < R2(yyn) ==> Val(Pop(k, i)) == yyvs[yyvsp - i]
      requires yyn == 10 ==> Val(k) == yyvs[yyvsp]
      requires yyn == 49 ==> yyvsp > 0 && Val(Below(k)) == yyvs[yyvsp - 1]
      requires yyn == 8 || yyn == 57 || yyn == 58 ==> yychar == YYEMPTY
      requires yyn == 11 || 32 <= yyn <= 48 || yyn == 55 ==> HasCurrent(Reg())
      modifies this`prolog, this`pattern, this`id2pattern, this`current, this`callbackgroup, this`codeLine, this`history, this`log
      modifies this`front, lexer.Repr()
      ensures Performed(Perform(W(), yyn, k, old(yyvs[yyvsp + 1]), old(At())), yyval, failed, why)
      ensures !failed ==> fresh(lexer.Repr() - old(lexer.Repr()))
    {
      hide Ready, Performed, Perform, Peek, Beyond, Lexeme, YyLexer.Valid, YyLexer.Abstract;
      ghost var garbage := yyvs[yyvsp + 1];
      var default := yyvs[yyvsp + 1 - R2(yyn)];
      RuleLength(yyn);
      assert R2(yyn) > 0 ==> Val(Pop(k, R2(yyn) - 1)) == yyvs[yyvsp - (R2(yyn) - 1)];
      assert default == Default1(yyn, k, garbage);
      var v0 := yyvs[yyvsp];
      var v1 := if yyvsp >= 1 then yyvs[yyvsp - 1] else "";
      var v2 := if yyvsp >= 2 then yyvs[yyvsp - 2] else "";
      assert R2(yyn) > 0 ==> Val(Pop(k, 0)) == v0;
      assert R2(yyn) > 1 ==> Val(Pop(k, 1)) == v1;
      assert R2(yyn) > 2 ==> Val(Pop(k, 2)) == v2;
      hide R2, Default1, Pop;
      if 32 <= yyn <= 48 {
        yyval, failed, why := ActOnPart(yyn, v0, default, k, garbage);
      } else if yyn >= 56 {
        yyval, failed, why := ActOnBlock(yyn, v0, v1, default, k, garbage);
      } else {
        yyval, failed, why := ActOnItem(yyn, v0, v1, v2, default, k, garbage);
      }
    }

    // --- The stacks ----------------------------------------------------------------------

    // The state to enter after reducing by yyn on top of yystate.
    static method GotoState(yyn: int, yystate: int) returns (t: int)
      requires 0 < yyn <= RULES && 0 <= R1(yyn) - NTOKENS < 37
      ensures t == Goto(ScoutGrammar, yystate, R1(yyn))
    {
      var nt := R1(yyn) - NTOKENS;
      t := ScoutTables.Pgoto(nt) + yystate;
      if 0 <= t <= LAST && ScoutTables.Check(t) == yystate {
        t := ScoutTables.Table(t);
      } else {
        t := ScoutTables.Defgoto(nt);
      }
    }

    // The arrays hold the stack k.
    static ghost predicate Holds(yyss: array<int>, yyvs: array<string>, yyssp: nat, k: Stack)
      reads yyss, yyvs
    {
      && yyss.Length == yyvs.Length == YYINITDEPTH && yyssp < YYINITDEPTH
      && k == StackOf(yyss[..], yyvs[..], yyssp + 1) && yyss[0] == 0 && yyss[yyssp] == Top(k)
      && Linked(k)
    }

    // Shifts the lookahead.
    method ShiftToken(yyss: array<int>, yyvs: array<string>, yyssp: nat, t: int, ghost k: Stack)
      requires Holds(yyss, yyvs, yyssp, k) && yyssp + 1 < YYINITDEPTH
      requires Ready() && yychar != YYEMPTY && yyss !in lexer.Repr() && yyvs !in lexer.Repr()
      requires Shifts(Top(k), Peek(front), t) && Follows(Top(k), t) && t != FINAL && Peek(front) > 0
      modifies yyss, yyvs, this`yychar, this`front
      ensures Ready() && yychar == YYEMPTY && Less(front, old(front)) && Reg() == old(Reg())
      ensures front == Beyond(old(front)) && (t == 17 ==> lexer.yylval == Lexeme(old(front)))
      ensures lexer.Repr() == old(lexer.Repr())
      ensures Holds(yyss, yyvs, yyssp + 1, Push(k, t, lexer.yylval))
      ensures Resume(W(), Push(k, t, lexer.yylval), At()) == Resume(W(), k, old(At()))
    {
      hide Resume, Follows, Shifts, Peek, Beyond, Lexeme, YyLexer.Valid, YyLexer.Abstract;
      ShiftedText(Top(k), Peek(front), t);
      ShiftKeeps(W(), k, At(), t, lexer.yylval);
      Grows(k, t, lexer.yylval);
      yychar := YYEMPTY;
      front := lexer.Abstract();
      PushEntry(yyss, yyvs, yyssp, t, lexer.yylval);
    }

    // Enters the goto state with the value of the left-hand side.
    static method EnterGoto(yyss: array<int>, yyvs: array<string>, yyssp: nat, yyn: int, yyval: string, ghost b: Stack)
      returns (ghost k: Stack)
      requires Holds(yyss, yyvs, yyssp, b) && yyssp + 1 < YYINITDEPTH
      requires 0 < yyn <= RULES && Gotos(Top(b), yyn, Target(Top(b), yyn))
      modifies yyss, yyvs
      ensures k == Push(b, Target(Top(b), yyn), yyval) && Holds(yyss, yyvs, yyssp + 1, k)
    {
      hide Goto, Follows, Linked, Gotos, R1;
      TableGotos(Top(b), yyn, Target(Top(b), yyn));
      var yystate := GotoState(yyn, yyss[yyssp]);
      Grows(b, yystate, yyval);
      PushEntry(yyss, yyvs, yyssp, yystate, yyval);
      k := Push(b, yystate, yyval);
    }

    // Shifts the end of the input.
    method ShiftEnd(yyss: array<int>, yyvs: array<string>, yyssp: nat, ghost k: Stack)
      requires Holds(yyss, yyvs, yyssp, k) && yyssp + 1 < YYINITDEPTH && Top(k) == 4
      requires Ready() && yychar != YYEMPTY && yyss !in lexer.Repr() && yyvs !in lexer.Repr()
      modifies yyss, yyvs, this`yychar, this`front
      ensures Ready() && yychar == YYEMPTY && Reg() == old(Reg()) && lexer.Repr() == old(lexer.Repr())
      ensures Holds(yyss, yyvs, yyssp + 1, Push(k, FINAL, lexer.yylval))
    {
      hide Peek, Beyond, Lexeme, YyLexer.Valid, YyLexer.Abstract;
      assert Follows(4, FINAL);
      Grows(k, FINAL, lexer.yylval);
      yychar := YYEMPTY;
      front := lexer.Abstract();
      PushEntry(yyss, yyvs, yyssp, FINAL, lexer.yylval);
    }

    // The patterns are a forest, and one is being defined where the grammar needs it.
    ghost predicate Sound(k: Stack)
      reads this`prolog, this`pattern, this`id2pattern, this`current, this`callbackgroup, this`codeLine, this`history, this`log
    {
      Forest(Reg()) && (PastName(k) ==> HasCurrent(Reg()))
    }

    // Pops the right-hand side of rule yyn and performs its action.
    method PopAndAct(yyss: array<int>, yyvs: array<string>, yyssp: nat, yyn: int, ghost k: Stack)
      returns (sp: nat, yyval: string, failed: bool, why: Complaint)
      requires Holds(yyss, yyvs, yyssp, k) && 0 < yyssp && yyssp + 1 < YYINITDEPTH
      requires 0 < yyn <= RULES && R2(yyn) <= yyssp
      requires Ready() && yyss !in lexer.Repr() && yyvs !in lexer.Repr()
      requires yyn == 49 ==> Depth(k) > 2
      requires yyn == 8 || yyn == 57 || yyn == 58 ==> yychar == YYEMPTY
      requires yyn == 11 || 32 <= yyn <= 48 || yyn == 55 ==> HasCurrent(Reg())
      modifies this`prolog, this`pattern, this`id2pattern, this`current, this`callbackgroup, this`codeLine, this`history, this`log
      modifies this`front, lexer.Repr()
      ensures Performed(Perform(W(), yyn, k, old(yyvs[yyssp + 1]), old(At())), yyval, failed, why)
      ensures !failed ==> fresh(lexer.Repr() - old(lexer.Repr()))
      ensures yyss[..] == old(yyss[..]) && yyvs[..] == old(yyvs[..])
      ensures sp == yyssp - R2(yyn) && yyss[sp] == Top(Pop(k, R2(yyn)))
      ensures StackOf(yyss[..], yyvs[..], sp + 1) == Pop(k, R2(yyn))
    {
      hide Ready, Performed, Perform, Linked, YyLexer.Valid, YyLexer.Abstract, YyLexer.Repr, Peek, R2;
      RuleLength(yyn);
      var yylen := R2(yyn);
      ReadsStack(yyss[..], yyvs[..], yyssp + 1, yylen);
      Pops(yyss[..], yyvs[..], yyssp + 1, yylen);
      SecondValue(yyss[..], yyvs[..], yyssp + 1);
      yyval, failed, why := Act(yyn, yyvs, yyssp, k);
      sp := yyssp - yylen;
    }

    // Reduces by rule yyn, or fails in its action.
    method ReduceRule(yyss: array<int>, yyvs: array<string>, yyssp: nat, yyn: int, ghost k: Stack)
      returns (sp: nat, failed: bool, why: Complaint, ghost k1: Stack)
      requires Holds(yyss, yyvs, yyssp, k) && yyssp + 1 < YYINITDEPTH && Sound(k)
      requires Ready() && yyss !in lexer.Repr() && yyvs !in lexer.Repr()
      requires 1 < yyn <= RULES && Reduces(Top(k), yyn)
      requires Top(k) == 5 || Top(k) == 27 ==> NoShift(Top(k), Peek(front)) && Peek(front) != BROKEN
      requires yychar != YYEMPTY ==> Top(k) == 5 || Top(k) == 27
      modifies yyss, yyvs, lexer.Repr(), this`front
      modifies this`prolog, this`pattern, this`id2pattern, this`current, this`callbackgroup, this`codeLine, this`history, this`log
      ensures read == old(read) && reductions == old(reductions)
      ensures failed ==>
                && Resume(W(), k, old(At())) == Rejected(Reg(), why) && Forest(Reg())
                && why != NoCurrentPattern && why != StackExhausted
      ensures !failed ==>
                && Ready() && Sound(k1) && fresh(lexer.Repr() - old(lexer.Repr()))
                && Holds(yyss, yyvs, sp, k1) && Resume(W(), k1, At()) == Resume(W(), k, old(At()))
                && Moved(W(), k, yyn, old(front), front) && Reduced(k, yyn, k1)
                && (Less(front, old(front)) || (front == old(front) && Rank(Top(k1)) < Rank(Top(k))))
                && (yychar != YYEMPTY ==> Looks(Top(k1)))
    {
      hide Resume, Perform, Rank, Reduces, NoShift, Linked, PastName, R2, Pop, Peek, Less, Looks;
      hide Forest, HasCurrent, YyLexer.Valid, YyLexer.Abstract, YyLexer.Repr, Gotos, Target, Moved, Reduced, PastName;
      ghost var at, garbage := At(), yyvs[yyssp + 1];
      Reduction(W(), k, at, yyn, garbage);
      ghost var b := Pop(k, R2(yyn));
      k1 := b;
      var yyval;
      sp, yyval, failed, why := PopAndAct(yyss, yyvs, yyssp, yyn, k);
      if !failed {
        assert Holds(yyss, yyvs, sp, b);
        k1 := EnterGoto(yyss, yyvs, sp, yyn, yyval, b);
        sp := sp + 1;
        ReducedTo(k, yyn, yyval);
      }
    }

    // The parser with stack k is where the translator would be to end with o.
    ghost predicate Standing(yyss: array<int>, yyvs: array<string>, yyssp: nat, k: Stack, o: Outcome)
      reads this, lexer.Repr(), yyss, yyvs
    {
      && Ready() && Holds(yyss, yyvs, yyssp, k) && Sound(k)
      && yyss !in lexer.Repr() && yyvs !in lexer.Repr()
      && Resume(W(), k, At()) == o && Tracks(W(), start, k, read, reductions, front)
    }

    // The same, between two turns of the loop of yyparse.
    ghost predicate Invariant(yyss: array<int>, yyvs: array<string>, yyssp: nat, k: Stack, o: Outcome)
      reads this, lexer.Repr(), yyss, yyvs
    {
      Standing(yyss, yyvs, yyssp, k, o) && (yychar != YYEMPTY ==> Looks(Top(k)))
    }

    // The run has ended with o.
    predicate Ended(o: Outcome)
      reads this`prolog, this`pattern, this`id2pattern, this`current, this`callbackgroup, this`codeLine, this`history, this`log
    {
      o.reg == Reg() && (o.Rejected? ==> o.why != NoCurrentPattern && o.why != StackExhausted)
    }

    // The decision for state yystate, with its lookahead.
    method DecideTurn(yyss: array<int>, yyvs: array<string>, yyssp: nat, yystate: int, ghost k: Stack, ghost o: Outcome)
      returns (d: Decision, failed: bool)
      requires Invariant(yyss, yyvs, yyssp, k, o)
      requires yystate == Top(k) && 0 <= yystate < STATES && yystate != FINAL
      modifies this`yychar, lexer.Repr()
      ensures front == old(front) && Reg() == old(Reg())
      ensures failed ==> o == Rejected(Reg(), BadString) && Forest(Reg())
      ensures !failed ==>
                && Standing(yyss, yyvs, yyssp, k, o) && fresh(lexer.Repr() - old(lexer.Repr()))
                && d == Decide(ScoutGrammar, yystate, Peek(front))
                && (d.Shift? ==> yychar != YYEMPTY)
                && (if Looks(yystate) then Peek(front) != BROKEN else yychar == YYEMPTY)
    {
      hide Resume, Decide, Looks, Peek, Held, Forest, HasCurrent, NoShift, YyLexer.Valid, YyLexer.Abstract, Linked;
      hide PastName, Tracks;
      ghost var at := At();
      LooksIff(yystate);
      d, failed := Backup(yystate);
      if failed {
        BrokenShift(yystate);
        Stuck(W(), k, at);
      }
    }

    method ShiftTurn(yyss: array<int>, yyvs: array<string>, yyssp: nat, t: int, ghost k: Stack, ghost o: Outcome)
      returns (ghost k1: Stack)
      requires Standing(yyss, yyvs, yyssp, k, o) && yyssp + 1 < YYINITDEPTH && yychar != YYEMPTY
      requires Shifts(Top(k), Peek(front), t) && Follows(Top(k), t) && t != 18 && Peek(front) != BROKEN
      requires Top(k) != FINAL && (t == FINAL ==> Top(k) == 4 && Peek(front) == END)
      requires Peek(front) == END ==> t == FINAL
      modifies yyss, yyvs, this`yychar, this`front, this`read
      ensures Invariant(yyss, yyvs, yyssp + 1, k1, o) && lexer.Repr() == old(lexer.Repr())
      ensures Top(k1) == FINAL || Less(front, old(front))
    {
      hide Resume, Shifts, Follows, Peek, Held, Forest, HasCurrent, YyLexer.Valid, YyLexer.Abstract, YyLexer.Repr, Linked;
      hide PastName, Less, Looks, Tracks;
      ghost var at := At();
      k1 := Push(k, t, lexer.yylval);
      PushPast(k, t, lexer.yylval);
      Peeked(front);
      if t == FINAL {
        ShiftEnd(yyss, yyvs, yyssp, k);
        TracksEnd(W(), start, k, read, reductions, at.l, lexer.yylval, front);
        EndShifted(W(), k, at, lexer.yylval, At());
      } else {
        ShiftToken(yyss, yyvs, yyssp, t, k);
        TracksShift(W(), start, k, read, reductions, at.l, t, lexer.yylval);
        read := read + [Word(Peek(at.l), Lexeme(at.l))];
      }
    }

    method ReduceTurn(yyss: array<int>, yyvs: array<string>, yyssp: nat, yyn: int, ghost k: Stack, ghost o: Outcome)
      returns (sp: nat, stop: bool, why: Complaint, ghost k1: Stack)
      requires Standing(yyss, yyvs, yyssp, k, o) && yyssp + 1 < YYINITDEPTH
      requires 1 < yyn <= RULES && Reduces(Top(k), yyn) && Top(k) != FINAL
      requires Top(k) == 5 || Top(k) == 27 ==> NoShift(Top(k), Peek(front)) && Peek(front) != BROKEN
      requires yychar != YYEMPTY ==> Top(k) == 5 || Top(k) == 27
      modifies yyss, yyvs, this, lexer.Repr()
      ensures stop ==> o == Rejected(Reg(), why) && Ended(o) && Forest(Reg())
      ensures !stop ==>
                && Invariant(yyss, yyvs, sp, k1, o) && fresh(lexer.Repr() - old(lexer.Repr()))
                && (Less(front, old(front)) || (front == old(front) && Rank(Top(k1)) < Rank(Top(k))))
    {
      hide Resume, Reduces, NoShift, Peek, Held, Forest, HasCurrent, PastName, Linked, Less, Looks, Rank, Tracks, Moved, Reduced;
      hide Steps, Pop, Target, R2, YyLexer.Valid, YyLexer.Abstract, YyLexer.Repr, Sound;
      ghost var was := front;
      sp, stop, why, k1 := ReduceRule(yyss, yyvs, yyssp, yyn, k);
      if !stop {
        TracksReduce(W(), start, k, read, reductions, was, yyn, k1, front);
        reductions := [yyn] + reductions;
      }
    }

    // From yybackup to yynewstate.
    method Turn(yyss: array<int>, yyvs: array<string>, yyssp: nat, ghost k: Stack, ghost o: Outcome)
      returns (sp: nat, stop: bool, why: Complaint, ghost k1: Stack)
      requires Invariant(yyss, yyvs, yyssp, k, o) && yyssp + 1 < YYINITDEPTH && Top(k) != FINAL && 0 <= Top(k) < STATES
      modifies yyss, yyvs, this, lexer.Repr()
      ensures stop ==> o == Rejected(Reg(), why) && Ended(o) && Forest(Reg())
      ensures !stop ==>
                && Invariant(yyss, yyvs, sp, k1, o) && fresh(lexer.Repr() - old(lexer.Repr()))
                && (Top(k1) == FINAL || Less(front, old(front)) || (front == old(front) && Rank(Top(k1)) < Rank(Top(k))))
    {
      hide Resume, Decide, Shifts, Follows, Reduces, Peek, Held, Forest, HasCurrent, NoShift, Rank, Less, Looks;
      hide Tracks, Steps, Pop, Target, R2;
      hide YyLexer.Valid, YyLexer.Abstract, YyLexer.Repr, Linked, PastName, Ready, Sound;
      ghost var at := At();
      k1, sp, why := k, yyssp, BadString;
      var d;
      d, stop := DecideTurn(yyss, yyvs, yyssp, yyss[yyssp], k, o);
      if stop {
        return;
      }
      TableDecision(Top(k), d, Peek(front));
      FiveAndTwentySeven();
      ghost var repr := lexer.Repr();
      label Decided:
      match d
      case SyntaxError =>
        Stuck(W(), k, at);
        StandingForest(yyss, yyvs, yyssp, k, o);
        stop, why := true, BadSyntax;
      case Shift(t) =>
        k1 := ShiftTurn(yyss, yyvs, yyssp, t, k, o);
        sp := yyssp + 1;
      case Reduce(yyn) =>
        sp, stop, why, k1 := ReduceTurn(yyss, yyvs, yyssp, yyn, k, o);
        assert !stop ==> forall x :: x in lexer.Repr() ==> x in repr || fresh@Decided(x);
    }

    lemma StandingForest(yyss: array<int>, yyvs: array<string>, yyssp: nat, k: Stack, o: Outcome)
      requires Standing(yyss, yyvs, yyssp, k, o)
      ensures Forest(Reg())
    {
      hide YyLexer.Valid, YyLexer.Abstract, Forest, Tracks;
    }

    // The parser and its scanner together do what the translator does, whatever the reads
    // of the description file and of the included files deliver: the same patterns, prolog
    // and callbacks, with each included file read in the place of its name, or the same
    // error with the same registry. The run ends, the stack never fills up, no reduction
    // pops the bottom state, and the patterns are a forest.
    method yyparse() returns (o: Outcome)
      requires Ready() && yychar == YYEMPTY && Reg() == EMPTY && read == [] && reductions == [] && start == front
      modifies this, lexer.Repr()
      ensures o == Body(W(), Progress(old(lexer.Abstract()), EMPTY))
      ensures Ended(o) && Forest(Reg())
      ensures o.Accepted? ==> ReadToEnd(W(), old(lexer.Abstract()), read, reductions)
    {
      hide Held, Forest, YyLexer.Valid, YyLexer.Abstract, Body, Invariant, ReadToEnd, Tracks;
      var yyss := new int[YYINITDEPTH](_ => 0);
      var yyvs := new string[YYINITDEPTH](_ => "");
      Begin(yyss, yyvs);
      o := Run(yyss, yyvs, Body(W(), At()));
    }

    // The loop of yyparse, on its stacks.
    method Run(yyss: array<int>, yyvs: array<string>, ghost spec: Outcome) returns (o: Outcome)
      requires Invariant(yyss, yyvs, 0, Bottom, spec)
      modifies this, lexer.Repr(), yyss, yyvs
      ensures o == spec && Ended(o) && Forest(Reg())
      ensures start.Valid()
      ensures o.Accepted? ==> ReadToEnd(W(), start, read, reductions)
    {
      hide Invariant, Ready, Held, Holds, Sound, Forest, Resume, Peek, Rank, Outer, Phase, Inner, Tracks, ReadToEnd;
      hide YyLexer.Valid, YyLexer.Abstract, YyLexer.Repr;
      ghost var repr0 := lexer.Repr();
      var yyssp: nat := 0;
      ghost var k := Bottom;
      while true
        invariant Invariant(yyss, yyvs, yyssp, k, spec)
        invariant forall o :: o in lexer.Repr() ==> o in repr0 || fresh(o)
        decreases if Top(k) == FINAL then 0 else 1, Outer(front), Phase(front), Inner(front), Rank(Top(k))
      {
        Head(yyss, yyvs, yyssp, k, spec);
        // yysetstate
        if YYINITDEPTH - 1 <= yyssp {
          return Rejected(Reg(), StackExhausted);
        }
        if yyss[yyssp] == FINAL {
          return Accepted(Reg());
        }
        var stop, why;
        ghost var repr1 := lexer.Repr();
        label Before:
        yyssp, stop, why, k := Turn(yyss, yyvs, yyssp, k, spec);
        if stop {
          return Rejected(Reg(), why);
        }
        assert forall o :: o in lexer.Repr() ==> o in repr1 || fresh@Before(o);
      }
    }

    lemma Begin(yyss: array<int>, yyvs: array<string>)
      requires Ready() && yychar == YYEMPTY && Reg() == EMPTY && read == [] && reductions == [] && start == front
      requires yyss.Length == yyvs.Length == YYINITDEPTH && yyss[0] == 0
      requires yyss !in lexer.Repr() && yyvs !in lexer.Repr()
      ensures Invariant(yyss, yyvs, 0, Bottom, Body(W(), At()))
    {
      hide YyLexer.Valid, YyLexer.Abstract, Tracks;
      Start(W(), At(), yyss[..], yyvs[..]);
      TracksStart(W(), front);
    }

    lemma Head(yyss: array<int>, yyvs: array<string>, yyssp: nat, k: Stack, o: Outcome)
      requires Invariant(yyss, yyvs, yyssp, k, o)
      ensures yyss.Length == YYINITDEPTH && yyssp <= 21 && yyss[yyssp] == Top(k) && 0 <= Top(k) < STATES
      ensures Forest(Reg())
      ensures start.Valid() && (Top(k) == FINAL ==> o == Accepted(Reg()) && ReadToEnd(W(), start, read, reductions))
    {
      hide YyLexer.Valid, YyLexer.Abstract, Resume, Forest, ReadToEnd;
      DepthBound(k);
      if Top(k) == FINAL {
        Finished(W(), k, At());
      }
    }
  }

  // main, up to the output: from the contents of the description file to its patterns.
  method ParseFile(contents: seq<Flex.Byte>, files: map<string, seq<Flex.Byte>>, inpFilename: string) returns (o: Outcome)
    ensures o == Translation(World(files, inpFilename), contents)
    ensures Orderly(o.reg, false) || (o.Rejected? && Orderly(o.reg, true))
    ensures o.Rejected? ==> o.why != NoCurrentPattern && o.why != StackExhausted
    ensures o.Accepted? ==> exists words, rules :: ReadsAll(World(files, inpFilename), Beginning(contents), words, rules)
  {
    hide YyLexer.Valid, YyLexer.Abstract, YyLexer.Repr, Forest, Body, Parser.Ready, ReadToEnd, Orderly, Lexing.Yylex, InputAvoids;
    var yyin := new InputFile(contents);
    var lexer := new YyLexer(yyin, files);
    var parser := new Parser(lexer, inpFilename);
    o := parser.yyparse();
    var w := World(files, inpFilename);
    EveryTranslation(w, contents);
    if o.Accepted? {
      WholeInput(w, Beginning(contents), parser.read, parser.reductions);
      assert ReadsAll(w, Beginning(contents), parser.read, parser.reductions);
    }
  }

  lemma Start(w: World, at: Progress, ss: seq<int>, vs: seq<string>)
    requires 0 < |ss| == |vs|
    ensures Linked(Bottom) && !PastName(Bottom) && Forest(EMPTY) && StackOf(ss, vs, 1) == Bottom
    ensures Resume(w, Bottom, at) == Body(w, at)
  {}

  lemma Finished(w: World, k: Stack, at: Progress)
    requires Top(k) == FINAL
    ensures Resume(w, k, at) == Accepted(at.reg)
  {}

  lemma EndShifted(w: World, k: Stack, at: Progress, v: string, at1: Progress)
    requires Top(k) == 4 && Next(at) == END && at1.reg == at.reg
    ensures Resume(w, Push(k, FINAL, v), at1) == Resume(w, k, at)
  {
    hide Next;
  }

  // Everything about a reduction that the parser relies on.
  lemma Reduction(w: World, k: Stack, at: Progress, r: int, garbage: string)
    requires Linked(k) && 1 < r <= RULES && Reduces(Top(k), r) && Forest(at.reg)
    requires PastName(k) ==> HasCurrent(at.reg)
    requires Top(k) == 5 || Top(k) == 27 ==> NoShift(Top(k), Next(at)) && Next(at) != BROKEN
    ensures Steps(k, r) && Linked(Pop(k, R2(r)))
    ensures r == 8 || r == 57 || r == 58 ==> Top(k) != 5 && Top(k) != 27
    ensures r == 49 ==> Depth(k) > 2
    ensures Depth(k) > 1
    ensures r == 11 || 32 <= r <= 48 || r == 55 ==> HasCurrent(at.reg)
    ensures var b := Pop(k, R2(r));
            var g := Target(Top(b), r);
            match Perform(w, r, k, garbage, at)
            case Fatal(o) =>
              && Resume(w, k, at) == o && o.Rejected? && Forest(o.reg)
              && o.why != NoCurrentPattern && o.why != StackExhausted
            case Effect(v, at1) =>
              && Forest(at1.reg) && (PastName(Push(b, g, v)) ==> HasCurrent(at1.reg))
              && Resume(w, Push(b, g, v), at1) == Resume(w, k, at)
              && (at1.l == at.l || Less(at1.l, at.l))
              && (r == 56 ==> v == Val(Below(k)))
              && (Top(k) == 5 || Top(k) == 27 ==> Looks(g))
    ensures var e := Perform(w, r, k, garbage, at); e.Effect? ==> Moved(w, k, r, at.l, e.at.l)
  {
    hide Linked, Resume, Perform, Forest, HasCurrent, PastName, Reduces, R2, Pop, NoShift, Steps, Target, Looks, Less;
    ReduceKeeps(w, k, at, r, garbage);
    ReduceSound(k, r);
    PerformKeeps(w, r, k, garbage, at);
    PerformPlace(w, r, k, garbage, at);
    PopLinked(k, R2(r));
    hide Moved;
    if Perform(w, r, k, garbage, at).Effect? {
      var b := Pop(k, R2(r));
      PushPast(b, Target(Top(b), r), Perform(w, r, k, garbage, at).value);
    }
  }

  // An action leaves the scanner alone, but for the one that opens a file.
  lemma PerformPlace(w: World, r: int, k: Stack, garbage: string, at: Progress)
    requires 0 <= r <= RULES
    ensures var e := Perform(w, r, k, garbage, at);
            e.Effect? ==> (r == 56 ==> e.value == Val(Below(k))) && Moved(w, k, r, at.l, e.at.l)
  {
    hide Default1, Define, Enter, Leave, AddCallback, Preprocessed, CodeBlock, LeadingBlankLines;
  }

  lemma PushPast(b: Stack, g: int, v: string)
    ensures PastName(Push(b, g, v)) <==> g == 18 || PastName(b)
  {}

  lemma ReduceSound(k: Stack, r: int)
    requires Linked(k) && 1 < r <= RULES && Reduces(Top(k), r) && Steps(k, r)
    ensures Depth(k) > 1 && (r == 49 ==> Depth(k) > 2)
    ensures r == 8 || r == 57 || r == 58 ==> Top(k) != 5 && Top(k) != 27
    ensures r == 11 || 32 <= r <= 48 || r == 55 ==> PastName(k)
    ensures Target(Top(Pop(k, R2(r))), r) == 18 ==> r == 10
    ensures Top(k) == 5 || Top(k) == 27 ==> Looks(Target(Top(Pop(k, R2(r))), r))
  {
    hide Linked, Pop, PastName;
    ReducedState(Top(k), r);
    Pred(k);
    if r == 49 {
      Pred(Below(k));
      Under(Below(k));
    }
    if r == 11 || 32 <= r <= 48 || r == 55 {
      InsideIsPastName(k);
    }
    NewState(Top(Pop(k, R2(r))), r);
    assert Depth(Below(k)) >= 1;
  }

  lemma ReducedState(s: int, r: int)
    requires 1 < r <= RULES && Reduces(s, r)
    ensures s != 0 && (r == 49 ==> s == 102)
    ensures r == 8 || r == 57 || r == 58 ==> s != 5 && s != 27
    ensures r == 11 || 32 <= r <= 48 || r == 55 ==> Inside(s)
    ensures s == 5 ==> r == 2
    ensures s == 27 ==> r == 51
  {}

  lemma NewState(b: int, r: int)
    requires 1 < r <= RULES && Gotos(b, r, Target(b, r))
    ensures Target(b, r) == 18 ==> r == 10
    ensures r == 2 || r == 51 ==> Looks(Target(b, r))
  {}

  lemma Grows(k: Stack, t: int, v: string)
    requires Linked(k) && Follows(Top(k), t)
    ensures Linked(Push(k, t, v)) && (PastName(Push(k, t, v)) <==> t == 18 || PastName(k))
  {}

  // The tokens with a text.
  lemma ShiftedText(s: int, k: int, t: int)
    requires Shifts(s, k, t)
    ensures t == 17 ==> k == STRING
    ensures t == 22 || t == 25 ==> k == TEXT
  {}

  lemma RuleLength(r: int)
    requires 0 <= r <= RULES
    ensures R2(r) <= 9
    ensures 8 <= r <= 9 || 32 <= r <= 48 || r == 11 || r == 61 ==> R2(r) > 0
    ensures r == 56 || 58 <= r <= 60 ==> R2(r) > 1
    ensures r == 55 ==> R2(r) > 2
    ensures r == 10 || r == 57 ==> R2(r) == 0
  {}

  // yyvsp[-1], also when the rule is empty.
  lemma SecondValue(ss: seq<int>, vs: seq<string>, n: nat)
    requires 1 < n <= |ss| == |vs| && ss[0] == 0
    ensures n > 2 ==> Val(Below(StackOf(ss, vs, n))) == vs[n - 2]
  {}

  // Whether a file can be included, and why not.
  ghost function OpensFile(w: World, name: string, at: Progress): Change {
    if at.l.includer.Includer? then Refused(NestedInclude)
    else if name == "" || name !in w.files then Refused(NoSuchFile)
    else Changed(at.reg)
  }
}
