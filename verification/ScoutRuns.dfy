/** What every run of Scout leaves behind, for all files: complete patterns, and attributes
    that are assigned once. */
module ScoutRuns {
  import opened Flex
  import Lexing = ScoutLexer
  import opened ScoutTokens
  import opened CodeText
  import opened PatternRegistry
  import opened PatternHistory
  import opened ScoutTranslator

  // --- Bytes that the input avoids -------------------------------------------------------

  predicate IsNul(b: Byte) {
    b == 0
  }

  predicate Avoids(s: seq<Byte>, bad: Byte -> bool) {
    forall i :: 0 <= i < |s| ==> !bad(s[i])
  }

  // No bad byte is left in the files that are being read, nor in those that can be included.
  predicate InputAvoids(w: World, l: Lexing.Lexer, bad: Byte -> bool) {
    && Avoids(l.rest, bad) && (l.includer.Includer? ==> Avoids(l.includer.rest, bad))
    && forall name :: name in w.files ==> Avoids(w.files[name], bad)
  }

  lemma EffectAvoids(w: World, l: ValidLexer, bad: Byte -> bool)
    requires InputAvoids(w, l, bad) && l.rest != []
    ensures var e := Lexing.FirstEffect(l); !e.Error? ==> InputAvoids(w, e.l, bad)
  {
    var n := Lexing.MunchLength(l);
    var rule := Munch.RuleAt(ScoutScanner, l.start, l.rest, n);
    Lexing.ActKeeps(rule, l.rest[..n], l.(rest := l.rest[n..]));
    hide Lexing.Act, Munch.RuleAt, Lexing.MunchLength;
    assert Lexing.FirstEffect(l) == Lexing.Act(rule, l.rest[..n], l.(rest := l.rest[n..]));
  }

  lemma {:induction false} YylexAvoids(w: World, l: ValidLexer, bad: Byte -> bool)
    requires InputAvoids(w, l, bad)
    ensures InputAvoids(w, Skipped(l), bad)
    ensures var o := Lexing.Yylex(l); o.Read? ==> InputAvoids(w, o.next, bad)
    decreases if l.includer.Nobody? then 0 else 1, |l.rest|
  {
    hide Lexing.FirstEffect, InputAvoids;
    if l.rest == [] {
      if l.includer.Includer? {
        ReturnAvoids(w, l, bad);
        YylexAvoids(w, Lexing.Return(l), bad);
      }
    } else {
      EffectAvoids(w, l, bad);
      match Lexing.FirstEffect(l)
      case Skip(l1) => YylexAvoids(w, l1, bad);
      case Emit(_, _, l1) =>
      case Error =>
    }
  }

  lemma ReturnAvoids(w: World, l: ValidLexer, bad: Byte -> bool)
    requires InputAvoids(w, l, bad) && l.includer.Includer?
    ensures InputAvoids(w, Lexing.Return(l), bad)
  {}

  lemma BeyondAvoids(w: World, l: ValidLexer, bad: Byte -> bool)
    requires InputAvoids(w, l, bad)
    ensures InputAvoids(w, Beyond(l), bad)
  {
    hide Lexing.Yylex;
    YylexAvoids(w, l, bad);
  }

  // --- Values ----------------------------------------------------------------------------

  // A run is clean if there is no NUL byte in its input.
  ghost predicate Clean(w: World, clean: bool, at: Progress) {
    clean ==> InputAvoids(w, at.l, IsNul)
  }

  lemma ExpectClean(w: World, clean: bool, at: Progress, kind: int)
    requires Clean(w, clean, at) && kind > 0
    ensures match Expect(at, kind)
            case Got(text, at1) =>
              at1.reg == at.reg && Clean(w, clean, at1) && (clean && kind == STRING ==> text != "")
            case Failed(o) => o.Rejected? && o.reg == at.reg
  {
    hide Peek, Lexeme, Beyond, InputAvoids;
    if clean {
      BeyondAvoids(w, at.l, IsNul);
      if Next(at) == STRING {
        StringNotEmpty(w, at.l);
      }
    }
  }

  lemma StringNotEmpty(w: World, l: ValidLexer)
    requires InputAvoids(w, l, IsNul) && Peek(l) == STRING
    ensures Lexeme(l) != ""
  {
    hide Peek, Lexeme;
    YylexAvoids(w, l, IsNul);
    EmptyIff(l);
  }

  lemma StringClean(w: World, clean: bool, at: Progress)
    requires Clean(w, clean, at)
    ensures match String(at)
            case Got(text, at1) => at1.reg == at.reg && Clean(w, clean, at1) && (clean ==> text != "")
            case Failed(o) => o.Rejected? && o.reg == at.reg
  {
    hide Expect, Clean;
    ExpectClean(w, clean, at, QUOTE);
    if Expect(at, QUOTE).Got? {
      var at1 := Expect(at, QUOTE).at;
      ExpectClean(w, clean, at1, STRING);
      if Expect(at1, STRING).Got? {
        ExpectClean(w, clean, Expect(at1, STRING).at, QUOTE);
      }
    }
  }

  // The same registry, apart from the line of the code block.
  predicate SameButLine(a: Registry, b: Registry) {
    b == a.(codeLine := b.codeLine)
  }

  lemma CodeClean(w: World, clean: bool, at: Progress)
    requires Clean(w, clean, at)
    ensures match CodeBlockValue(w, at)
            case Got(code, at1) => SameButLine(at.reg, at1.reg) && Clean(w, clean, at1) && code != ""
            case Failed(o) => o.Rejected? && SameButLine(at.reg, o.reg)
  {
    hide Expect, Clean, CodeTextMore;
    ExpectClean(w, clean, at, OPENBRACE);
    if Expect(at, OPENBRACE).Got? {
      var at1 := MarkLine(Expect(at, OPENBRACE).at);
      LineClean(w, clean, Expect(at, OPENBRACE).at, at1);
      ExpectClean(w, clean, at1, TEXT);
      if Expect(at1, TEXT).Got? {
        CodeMoreClean(w, clean, Expect(at1, TEXT).value, Expect(at1, TEXT).at);
      }
    }
  }

  lemma LineClean(w: World, clean: bool, at: Progress, at1: Progress)
    requires Clean(w, clean, at) && at1.l == at.l
    ensures Clean(w, clean, at1)
  {}

  lemma {:induction false} CodeMoreClean(w: World, clean: bool, text: string, at: Progress)
    requires Clean(w, clean, at)
    ensures match CodeTextMore(w, text, at)
            case Got(code, at1) => SameButLine(at.reg, at1.reg) && Clean(w, clean, at1) && code != ""
            case Failed(o) => o.Rejected? && SameButLine(at.reg, o.reg)
    decreases Outer(at.l), Phase(at.l), Inner(at.l)
  {
    hide Clean, CodeEnd, Peek, Lexeme, Beyond;
    if Next(at) == TEXT {
      ExpectClean(w, clean, at, TEXT);
      CodeMoreClean(w, clean, text + Text(at), Skip(at));
    } else {
      hide Expect;
      ExpectClean(w, clean, at, CLOSEBRACE);
      if Expect(at, CLOSEBRACE).Got? {
        CodeEndClean(w, clean, text, Expect(at, CLOSEBRACE).at);
      }
    }
  }

  // The value of a code block starts with its directive.
  lemma CodeEndClean(w: World, clean: bool, text: string, at: Progress)
    requires Clean(w, clean, at)
    ensures match CodeEnd(w, text, at)
            case Got(code, at1) => SameButLine(at.reg, at1.reg) && Clean(w, clean, at1) && code != ""
            case Failed(o) => o.Rejected? && SameButLine(at.reg, o.reg)
  {
    hide Preprocessed, LeadingBlankLines, InputAvoids;
  }

  lemma TextClean(w: World, clean: bool, at: Progress)
    requires Clean(w, clean, at)
    ensures match TextBlockValue(at)
            case Got(_, at1) => at1.reg == at.reg && Clean(w, clean, at1)
            case Failed(o) => o.Rejected? && o.reg == at.reg
  {
    hide Expect, Clean, BlockTextMore;
    ExpectClean(w, clean, at, OPENBRACE);
    if Expect(at, OPENBRACE).Got? {
      var at1 := Expect(at, OPENBRACE).at;
      ExpectClean(w, clean, at1, TEXT);
      if Expect(at1, TEXT).Got? {
        TextMoreClean(w, clean, Expect(at1, TEXT).value, Expect(at1, TEXT).at);
      }
    }
  }

  lemma {:induction false} TextMoreClean(w: World, clean: bool, text: string, at: Progress)
    requires Clean(w, clean, at)
    ensures match BlockTextMore(text, at)
            case Got(_, at1) => at1.reg == at.reg && Clean(w, clean, at1)
            case Failed(o) => o.Rejected? && o.reg == at.reg
    decreases Outer(at.l), Phase(at.l), Inner(at.l)
  {
    hide Clean, Preprocessed, Peek, Lexeme, Beyond;
    if Next(at) == TEXT {
      ExpectClean(w, clean, at, TEXT);
      TextMoreClean(w, clean, text + Text(at), Skip(at));
    } else {
      hide Expect;
      ExpectClean(w, clean, at, CLOSEBRACE);
    }
  }

  // --- Runs ------------------------------------------------------------------------------

  // The attributes whose values are never empty: code blocks, and strings on clean runs.
  predicate Solid(key: int, clean: bool) {
    TakesCode(key) || (clean && Checked(key) && !TakesText(key))
  }

  ghost predicate AllSolid(reg: Registry, clean: bool) {
    forall a :: 0 <= a < |reg.history| && Solid(reg.history[a].key, clean) ==> reg.history[a].text != ""
  }

  // Where a run can be; inside tells whether a pattern is being defined.
  ghost predicate Good(w: World, clean: bool, inside: bool, at: Progress) {
    Orderly(at.reg, inside) && AllSolid(at.reg, clean) && Clean(w, clean, at)
  }

  // Where a run can end.
  ghost predicate GoodEnd(clean: bool, o: Outcome) {
    AllSolid(o.reg, clean) && if o.Accepted? then Orderly(o.reg, false) else Orderly(o.reg, false) || Orderly(o.reg, true)
  }

  lemma EndsHere(w: World, clean: bool, inside: bool, at: Progress, o: Outcome)
    requires Good(w, clean, inside, at) && SameRecords(at.reg, o.reg) && (o.Accepted? ==> !inside)
    ensures GoodEnd(clean, o)
  {
    hide Orderly;
    SameKept(at.reg, o.reg, inside);
  }

  lemma GoesOn(w: World, clean: bool, inside: bool, at: Progress, at1: Progress)
    requires Good(w, clean, inside, at) && SameRecords(at.reg, at1.reg) && Clean(w, clean, at1)
    ensures Good(w, clean, inside, at1)
  {
    hide Orderly;
    SameKept(at.reg, at1.reg, inside);
  }

  // Past a token that is expected, or to the end of the run.
  lemma Passes(w: World, clean: bool, inside: bool, at: Progress, kind: int)
    requires Good(w, clean, inside, at) && kind > 0
    ensures match Expect(at, kind)
            case Got(_, at1) => Good(w, clean, inside, at1)
            case Failed(o) => GoodEnd(clean, o)
  {
    ExpectClean(w, clean, at, kind);
    hide Expect, Orderly, AllSolid, Clean, Good;
    assert SameRecords(at.reg, at.reg);
    match Expect(at, kind)
    case Got(_, at1) => GoesOn(w, clean, inside, at, at1);
    case Failed(o) => EndsHere(w, clean, inside, at, o);
  }

  // One lemma for each phrase of the language, as the translator has one function for each.

  lemma {:induction false} BodyRun(w: World, clean: bool, at: Progress)
    requires Good(w, clean, false, at)
    ensures GoodEnd(clean, Body(w, at))
    decreases Outer(at.l), Phase(at.l), Inner(at.l), 0
  {
    hide Peek, Lexeme, Beyond, Good, GoodEnd;
    if Next(at) == INCLUDE {
      Passes(w, clean, false, at, INCLUDE);
      IncludeRun(w, clean, Skip(at));
    } else if Next(at) == PATTERN {
      Passes(w, clean, false, at, PATTERN);
      PatternRun(w, clean, Skip(at));
    } else if Next(at) == PROLOG {
      Passes(w, clean, false, at, PROLOG);
      PrologRun(w, clean, Skip(at));
    } else {
      ErrorRun(w, clean, false, at);
    }
  }

  lemma ErrorRun(w: World, clean: bool, inside: bool, at: Progress)
    requires Good(w, clean, inside, at)
    ensures GoodEnd(clean, Error(at))
  {
    hide Peek, Orderly;
    EndsHere(w, clean, inside, at, Error(at));
  }

  lemma {:induction false} BodyMoreRun(w: World, clean: bool, at: Progress)
    requires Good(w, clean, false, at)
    ensures GoodEnd(clean, BodyMore(w, at))
    decreases Outer(at.l), Phase(at.l), Inner(at.l), 1
  {
    hide Peek, Orderly, Clean;
    if Next(at) == END {
      EndsHere(w, clean, false, at, Accepted(at.reg));
    } else {
      BodyRun(w, clean, at);
    }
  }

  lemma StringRun(w: World, clean: bool, inside: bool, at: Progress)
    requires Good(w, clean, inside, at)
    ensures match String(at)
            case Got(text, at1) => Good(w, clean, inside, at1) && at1.reg == at.reg && (clean ==> text != "")
            case Failed(o) => GoodEnd(clean, o)
  {
    StringClean(w, clean, at);
    hide String, Orderly, Clean;
    match String(at)
    case Got(_, at1) =>
    case Failed(o) => EndsHere(w, clean, inside, at, o);
  }

  lemma CodeRun(w: World, clean: bool, inside: bool, at: Progress)
    requires Good(w, clean, inside, at)
    ensures match CodeBlockValue(w, at)
            case Got(code, at1) => Good(w, clean, inside, at1) && code != ""
            case Failed(o) => GoodEnd(clean, o)
  {
    CodeClean(w, clean, at);
    hide CodeBlockValue, Good, GoodEnd;
    match CodeBlockValue(w, at)
    case Got(_, at1) => GoesOnClean(w, clean, inside, at, at1);
    case Failed(o) => EndsHere(w, clean, inside, at, o);
  }

  lemma GoesOnClean(w: World, clean: bool, inside: bool, at: Progress, at1: Progress)
    requires Good(w, clean, inside, at) && SameButLine(at.reg, at1.reg) && Clean(w, clean, at1)
    ensures Good(w, clean, inside, at1)
  {
    hide Orderly, Clean;
    GoesOn(w, clean, inside, at, at1);
  }

  lemma {:induction false} IncludeRun(w: World, clean: bool, at: Progress)
    requires Good(w, clean, false, at)
    ensures GoodEnd(clean, IncludeItem(w, at))
    decreases Outer(at.l), Phase(at.l), Inner(at.l), 2
  {
    hide String, Orderly, Good, GoodEnd;
    StringRun(w, clean, false, at);
    if String(at).Got? {
      var name, at1 := String(at).value, String(at).at;
      if at1.l.includer.Includer? || name == "" || name !in w.files {
        EndsHere(w, clean, false, at1, Included(w, name, at1));
      } else {
        OpenRun(w, clean, name, at1);
        BodyMoreRun(w, clean, OpenFile(w, name, at1));
      }
    }
  }

  lemma OpenRun(w: World, clean: bool, name: string, at: Progress)
    requires Good(w, clean, false, at) && at.l.includer.Nobody? && name in w.files
    ensures Good(w, clean, false, OpenFile(w, name, at))
  {
    hide Orderly;
  }

  lemma {:induction false} PrologRun(w: World, clean: bool, at: Progress)
    requires Good(w, clean, false, at)
    ensures GoodEnd(clean, PrologItem(w, at))
    decreases Outer(at.l), Phase(at.l), Inner(at.l), 2
  {
    hide CodeBlockValue, Good, GoodEnd;
    CodeRun(w, clean, false, at);
    if CodeBlockValue(w, at).Got? {
      var code, at1 := CodeBlockValue(w, at).value, CodeBlockValue(w, at).at;
      var at2 := at1.(reg := AddProlog(at1.reg, code));
      PrologGood(w, clean, code, at1);
      BodyMoreRun(w, clean, at2);
    }
  }

  lemma PrologGood(w: World, clean: bool, code: string, at: Progress)
    requires Good(w, clean, false, at) && code != ""
    ensures Good(w, clean, false, at.(reg := AddProlog(at.reg, code)))
  {
    hide Orderly, Clean;
    PrologKept(at.reg, code, false);
    LineClean(w, clean, at, at.(reg := AddProlog(at.reg, code)));
  }

  // From the name of a pattern to its first part.
  lemma {:induction false} PatternRun(w: World, clean: bool, at: Progress)
    requires Good(w, clean, false, at)
    ensures GoodEnd(clean, PatternItem(w, at))
    decreases Outer(at.l), Phase(at.l), Inner(at.l), 2
  {
    hide String, Expect, Good, GoodEnd, Enter;
    StringRun(w, clean, false, at);
    if String(at).Got? {
      var id, at1 := String(at).value, String(at).at;
      EnterRun(w, clean, id, at1);
      if Enter(at1.reg, id).Changed? {
        PatternIsRun(w, clean, at1.(reg := Enter(at1.reg, id).reg));
      }
    }
  }

  lemma {:induction false} PatternIsRun(w: World, clean: bool, at: Progress)
    requires Good(w, clean, true, at)
    ensures GoodEnd(clean, PatternIs(w, at))
    decreases Outer(at.l), Phase(at.l), Inner(at.l), 3
  {
    hide Expect, Good, GoodEnd;
    Passes(w, clean, true, at, EQUALS);
    if Expect(at, EQUALS).Got? {
      var at1 := Expect(at, EQUALS).at;
      Passes(w, clean, true, at1, OPENBRACKET);
      if Expect(at1, OPENBRACKET).Got? {
        PartsRun(w, clean, Expect(at1, OPENBRACKET).at);
      }
    }
  }

  lemma EnterRun(w: World, clean: bool, id: string, at: Progress)
    requires Good(w, clean, false, at)
    ensures match Enter(at.reg, id)
            case Changed(reg) => Good(w, clean, true, at.(reg := reg))
            case Refused(why) => GoodEnd(clean, Rejected(at.reg, why))
  {
    hide Orderly, Clean;
    if Enter(at.reg, id).Changed? {
      EnterKept(at.reg, id);
      LineClean(w, clean, at, at.(reg := Enter(at.reg, id).reg));
    }
  }

  lemma LeaveRun(w: World, clean: bool, at: Progress)
    requires Good(w, clean, true, at)
    ensures match Leave(at.reg)
            case Changed(reg) => Good(w, clean, false, at.(reg := reg))
            case Refused(why) => GoodEnd(clean, Rejected(at.reg, why))
  {
    hide Orderly, Clean;
    if Leave(at.reg).Changed? {
      LeaveKept(at.reg);
      LineClean(w, clean, at, at.(reg := Leave(at.reg).reg));
    }
  }

  lemma DefineRun(w: World, clean: bool, key: int, text: string, at: Progress)
    requires Good(w, clean, true, at) && (Solid(key, clean) ==> text != "")
    ensures match Define(at.reg, key, text)
            case Changed(reg) => Good(w, clean, true, at.(reg := reg))
            case Refused(why) => GoodEnd(clean, Rejected(at.reg, why))
  {
    hide Orderly, Clean, Solid, Define;
    if Define(at.reg, key, text).Changed? {
      DefineKept(at.reg, key, text);
      LineClean(w, clean, at, at.(reg := Define(at.reg, key, text).reg));
      DefineCurrent(at.reg, key, text);
    }
  }

  lemma CallbackRun(w: World, clean: bool, event: string, code: string, at: Progress)
    requires Good(w, clean, true, at)
    ensures match AddCallback(at.reg, event, code)
            case Changed(reg) => Good(w, clean, true, at.(reg := reg))
            case Refused(why) => GoodEnd(clean, Rejected(at.reg, why))
  {
    hide Orderly, Clean, Solid;
    if AddCallback(at.reg, event, code).Changed? {
      CallbackKept(at.reg, event, code);
      LineClean(w, clean, at, at.(reg := AddCallback(at.reg, event, code).reg));
    }
  }

  lemma {:induction false} PartsRun(w: World, clean: bool, at: Progress)
    requires Good(w, clean, true, at)
    ensures GoodEnd(clean, Parts(w, at))
    decreases Outer(at.l), Phase(at.l), Inner(at.l), 0
  {
    hide Peek, Lexeme, Beyond, Good, GoodEnd;
    if IsKeyword(Next(at)) {
      Passes(w, clean, true, at, Next(at));
      PartRun(w, clean, Next(at), Skip(at));
    } else {
      ErrorRun(w, clean, true, at);
    }
  }

  lemma {:induction false} PartsMoreRun(w: World, clean: bool, at: Progress)
    requires Good(w, clean, true, at)
    ensures GoodEnd(clean, PartsMore(w, at))
    decreases Outer(at.l), Phase(at.l), Inner(at.l), 1
  {
    hide Peek, Lexeme, Beyond, Good, GoodEnd;
    if Next(at) == CLOSEBRACKET {
      Passes(w, clean, true, at, CLOSEBRACKET);
      var at1 := Skip(at);
      LeaveRun(w, clean, at1);
      hide Leave;
      if Leave(at1.reg).Changed? {
        BodyMoreRun(w, clean, at1.(reg := Leave(at1.reg).reg));
      }
    } else {
      PartsRun(w, clean, at);
    }
  }

  lemma {:induction false} PartRun(w: World, clean: bool, key: int, at: Progress)
    requires Good(w, clean, true, at) && IsKeyword(key)
    ensures GoodEnd(clean, Part(w, key, at))
    decreases Outer(at.l), Phase(at.l), Inner(at.l), 5
  {
    hide Expect, Value, Good, GoodEnd;
    if IsFlag(key) {
      AssignRun(w, clean, key, "", at);
    } else if key == CALLBACKS {
      CallbacksRun(w, clean, at);
    } else {
      PartIsRun(w, clean, key, at);
    }
  }

  lemma {:induction false} PartIsRun(w: World, clean: bool, key: int, at: Progress)
    requires Good(w, clean, true, at)
    ensures GoodEnd(clean, PartIs(w, key, at))
    decreases Outer(at.l), Phase(at.l), Inner(at.l), 4
  {
    hide Expect, Value, Good, GoodEnd;
    Passes(w, clean, true, at, EQUALS);
    if Expect(at, EQUALS).Got? {
      var at1 := Expect(at, EQUALS).at;
      ValueRun(w, clean, key, at1);
      if Value(w, key, at1).Got? {
        AssignRun(w, clean, key, Value(w, key, at1).value, Value(w, key, at1).at);
      }
    }
  }

  lemma ValueRun(w: World, clean: bool, key: int, at: Progress)
    requires Good(w, clean, true, at)
    ensures match Value(w, key, at)
            case Got(text, at1) => Good(w, clean, true, at1) && (Solid(key, clean) ==> text != "")
            case Failed(o) => GoodEnd(clean, o)
  {
    hide CodeBlockValue, TextBlockValue, String, Good, GoodEnd;
    if TakesCode(key) {
      CodeRun(w, clean, true, at);
    } else if TakesText(key) {
      TextRun(w, clean, at);
    } else {
      StringRun(w, clean, true, at);
    }
  }

  lemma TextRun(w: World, clean: bool, at: Progress)
    requires Good(w, clean, true, at)
    ensures match TextBlockValue(at)
            case Got(_, at1) => Good(w, clean, true, at1)
            case Failed(o) => GoodEnd(clean, o)
  {
    TextClean(w, clean, at);
    hide TextBlockValue, Orderly, Clean;
    match TextBlockValue(at)
    case Got(_, at1) =>
    case Failed(o) => EndsHere(w, clean, true, at, o);
  }

  lemma {:induction false} AssignRun(w: World, clean: bool, key: int, text: string, at: Progress)
    requires Good(w, clean, true, at) && (Solid(key, clean) ==> text != "")
    ensures GoodEnd(clean, Assign(w, key, text, at))
    decreases Outer(at.l), Phase(at.l), Inner(at.l), 2
  {
    hide Define, Good, GoodEnd, Solid;
    DefineRun(w, clean, key, text, at);
    if Define(at.reg, key, text).Changed? {
      PartsMoreRun(w, clean, at.(reg := Define(at.reg, key, text).reg));
    }
  }

  // From the keyword to the first callback, with or without a group.
  lemma {:induction false} CallbacksRun(w: World, clean: bool, at: Progress)
    requires Good(w, clean, true, at)
    ensures GoodEnd(clean, Callbacks(w, at))
    decreases Outer(at.l), Phase(at.l), Inner(at.l), 4
  {
    hide Peek, Lexeme, Beyond, Good, GoodEnd;
    if Next(at) == OPENPAREN {
      Passes(w, clean, true, at, OPENPAREN);
      GroupRun(w, clean, Skip(at));
    } else if Next(at) == BROKEN {
      ErrorRun(w, clean, true, at);
    } else {
      GroupGood(w, clean, at, "");
      CallbacksIsRun(w, clean, SetGroup(at, ""));
    }
  }

  lemma GroupGood(w: World, clean: bool, at: Progress, group: string)
    requires Good(w, clean, true, at)
    ensures Good(w, clean, true, SetGroup(at, group))
  {
    hide Orderly;
    SameKept(at.reg, SetGroup(at, group).reg, true);
  }

  lemma {:induction false} GroupRun(w: World, clean: bool, at: Progress)
    requires Good(w, clean, true, at)
    ensures GoodEnd(clean, GroupName(w, at))
    decreases Outer(at.l), Phase(at.l), Inner(at.l), 4
  {
    hide String, Expect, Good, GoodEnd;
    StringRun(w, clean, true, at);
    if String(at).Got? {
      var group, at1 := String(at).value, String(at).at;
      Passes(w, clean, true, at1, CLOSEPAREN);
      if Expect(at1, CLOSEPAREN).Got? {
        var at2 := Expect(at1, CLOSEPAREN).at;
        GroupGood(w, clean, at2, group);
        CallbacksIsRun(w, clean, SetGroup(at2, group));
      }
    }
  }

  lemma {:induction false} CallbacksIsRun(w: World, clean: bool, at: Progress)
    requires Good(w, clean, true, at)
    ensures GoodEnd(clean, CallbacksIs(w, at))
    decreases Outer(at.l), Phase(at.l), Inner(at.l), 3
  {
    hide Expect, Good, GoodEnd;
    Passes(w, clean, true, at, EQUALS);
    if Expect(at, EQUALS).Got? {
      var at1 := Expect(at, EQUALS).at;
      Passes(w, clean, true, at1, OPENBRACKET);
      if Expect(at1, OPENBRACKET).Got? {
        EventsRun(w, clean, Expect(at1, OPENBRACKET).at);
      }
    }
  }

  lemma {:induction false} EventsRun(w: World, clean: bool, at: Progress)
    requires Good(w, clean, true, at)
    ensures GoodEnd(clean, Events(w, at))
    decreases Outer(at.l), Phase(at.l), Inner(at.l), 2
  {
    hide String, Expect, Good, GoodEnd;
    StringRun(w, clean, true, at);
    if String(at).Got? {
      var event, at1 := String(at).value, String(at).at;
      EventIsRun(w, clean, event, at1);
    }
  }

  lemma {:induction false} EventIsRun(w: World, clean: bool, event: string, at: Progress)
    requires Good(w, clean, true, at)
    ensures GoodEnd(clean, EventIs(w, event, at))
    decreases Outer(at.l), Phase(at.l), Inner(at.l), 2
  {
    hide Expect, CodeBlockValue, AddCallback, Good, GoodEnd;
    Passes(w, clean, true, at, EQUALS);
    if Expect(at, EQUALS).Got? {
      var at1 := Expect(at, EQUALS).at;
      CodeRun(w, clean, true, at1);
      if CodeBlockValue(w, at1).Got? {
        EventRun(w, clean, event, CodeBlockValue(w, at1).value, CodeBlockValue(w, at1).at);
      }
    }
  }

  lemma {:induction false} EventRun(w: World, clean: bool, event: string, code: string, at: Progress)
    requires Good(w, clean, true, at)
    ensures GoodEnd(clean, EventDone(w, event, code, at))
    decreases Outer(at.l), Phase(at.l), Inner(at.l), 4
  {
    hide AddCallback, Good, GoodEnd, Peek, Lexeme, Beyond;
    CallbackRun(w, clean, event, code, at);
    if AddCallback(at.reg, event, code).Changed? {
      var at1 := at.(reg := AddCallback(at.reg, event, code).reg);
      if Next(at1) == CLOSEBRACKET {
        Passes(w, clean, true, at1, CLOSEBRACKET);
        PartsMoreRun(w, clean, Skip(at1));
      } else {
        EventsRun(w, clean, at1);
      }
    }
  }

  // --- What every description file leads to ----------------------------------------------

  // Whatever the files hold: the patterns are a forest, an attribute that is not empty has
  // been defined so and not been lost since, and of several definitions of one all but the
  // last were empty. On acceptance every pattern is complete.
  lemma EveryTranslation(w: World, contents: seq<Byte>)
    ensures var o := Translation(w, contents);
            Orderly(o.reg, false) || (o.Rejected? && Orderly(o.reg, true))
  {
    hide Orderly, Body;
    Translates(w, contents, false);
  }

  lemma Translates(w: World, contents: seq<Byte>, clean: bool)
    requires clean ==> InputAvoids(w, Beginning(contents), IsNul)
    ensures GoodEnd(clean, Translation(w, contents))
  {
    hide Body, InputAvoids;
    BodyRun(w, clean, Progress(Beginning(contents), EMPTY));
  }

  // No code block of a pattern is assigned twice, and no string if no file holds a NUL byte.
  lemma AssignedOnce(w: World, contents: seq<Byte>, clean: bool)
    requires clean ==> InputAvoids(w, Beginning(contents), IsNul)
    ensures var h := Translation(w, contents).reg.history;
            forall a, b :: 0 <= a < b < |h| && Again(h[a], h[b]) ==> !Solid(h[a].key, clean)
  {
    Translates(w, contents, clean);
    hide Body, Forest, Lasting, Sourced, Filled;
    assert Once(Translation(w, contents).reg);
  }
}
