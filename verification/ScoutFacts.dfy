/** What a description file says, item by item: the patterns, the values of their parts, the
    callbacks with their code and the prologs. No action of the parser is used here, except
    in the theorem that an accepted file leaves exactly this behind. */
module ScoutFacts {
  import opened Flex
  import Lexing = ScoutLexer
  import Braces
  import opened CodeText
  import opened PatternRegistry
  import opened PatternHistory
  import opened ScoutTranslator
  import opened ScoutSpelling
  import opened ScoutFiles
  import opened ScoutRuns

  datatype Facts = Facts(ids: seq<string>, history: seq<Assignment>, calls: seq<Call>, prologs: seq<string>)

  const NoFacts := Facts([], [], [], [])

  function Plus(a: Facts, b: Facts): Facts {
    Facts(a.ids + b.ids, a.history + b.history, a.calls + b.calls, a.prologs + b.prologs)
  }

  // The value of a code block in a line of a file.
  function CodeOf(t: seq<Byte>, line: int, file: string): string {
    match CodeBlock(Braces.Chars(t), line, file)
    case Block(code) => code
    case InFirstLine => ""
  }

  // The callbacks of a group of pattern n, from a line on.
  function EventCalls(events: seq<Event>, n: nat, group: string, line: int, file: string): seq<Call> {
    if events == [] then []
    else
      var e := events[0];
      [Call(n, Lexing.CString(e.name), group, CodeOf(e.code, line, file))]
      + EventCalls(events[1..], n, group, line + Braces.Newlines(e.code), file)
  }

  function EventsLines(events: seq<Event>): nat {
    if events == [] then 0 else Braces.Newlines(events[0].code) + EventsLines(events[1..])
  }

  // A part of pattern n whose keyword is in a line.
  function EntryFacts(p: Entry, n: nat, line: int, file: string): Facts {
    match p
    case Flag(key) => NoFacts.(history := [Assignment(n, key, "")])
    case Worded(key, text) => NoFacts.(history := [Assignment(n, key, Lexing.CString(text))])
    case Blocked(key, text) =>
      NoFacts.(history := [Assignment(n, key, if TakesText(key) then Preprocessed(Braces.Chars(text)) else CodeOf(text, line, file))])
    case Calls(group, events) => NoFacts.(calls := EventCalls(events, n, Lexing.CString(group), line, file))
  }

  function EntryLines(p: Entry): nat {
    match p
    case Flag(_) => 0
    case Worded(_, _) => 0
    case Blocked(_, text) => Braces.Newlines(text)
    case Calls(_, events) => EventsLines(events)
  }

  // The parts of pattern n behind a line; each keyword is on a new one.
  function EntriesFacts(entries: seq<Entry>, n: nat, line: int, file: string): Facts {
    if entries == [] then NoFacts
    else
      Plus(EntryFacts(entries[0], n, line + 1, file),
           EntriesFacts(entries[1..], n, line + 1 + EntryLines(entries[0]), file))
  }

  function EntriesLines(entries: seq<Entry>): nat {
    if entries == [] then 0 else 1 + EntryLines(entries[0]) + EntriesLines(entries[1..])
  }

  // The number of patterns that some items define, with those of included files.
  function Count(items: seq<Item>): nat {
    if items == [] then 0
    else
      (match items[0]
       case Prologue(_) => 0
       case Defines(_, _) => 1
       case Includes(_, included) => Count(included)) + Count(items[1..])
  }

  function ItemLines(item: Item): nat {
    match item
    case Prologue(code) => Braces.Newlines(code)
    case Defines(_, entries) => EntriesLines(entries)
    case Includes(_, _) => 0
  }

  // The items behind a line, when n patterns have been defined before them. The lines of
  // an included file are its own.
  function ItemsFacts(items: seq<Item>, n: nat, line: int, file: string): Facts {
    if items == [] then NoFacts
    else
      var first :=
        match items[0]
        case Prologue(code) => NoFacts.(prologs := [CodeOf(code, line + 1, file)])
        case Defines(id, entries) =>
          Plus(NoFacts.(ids := [Lexing.CString(id)]), EntriesFacts(entries, n, line + 1, file))
        case Includes(name, included) => ItemsFacts(included, n, 1, Lexing.CString(name));
      Plus(first, ItemsFacts(items[1..], n + Count([items[0]]), line + 1 + ItemLines(items[0]), file))
  }

  // --- What is left behind ---------------------------------------------------------------

  function FactsOf(reg: Registry): Facts {
    Facts(seq(|reg.pattern|, i requires 0 <= i < |reg.pattern| => reg.pattern[i].id), reg.history, reg.log.calls, reg.log.prologs)
  }

  // The registry r has these facts more than reg; the current pattern is the same.
  ghost predicate Gains(reg: Registry, r: Registry, f: Facts) {
    HasCurrent(reg) && r.current == reg.current && |r.pattern| == |reg.pattern| && FactsOf(r) == Plus(FactsOf(reg), f)
  }

  lemma GainsMore(a: Registry, b: Registry, c: Registry, f: Facts, g: Facts)
    requires Gains(a, b, f) && Gains(b, c, g)
    ensures Gains(a, c, Plus(f, g))
  {
    hide FactsOf;
    PlusSum(FactsOf(a), f, g);
  }

  lemma PlusSum(a: Facts, b: Facts, c: Facts)
    ensures Plus(Plus(a, b), c) == Plus(a, Plus(b, c)) && Plus(a, NoFacts) == a && Plus(NoFacts, a) == a
  {}

  // A definition, and a callback.
  lemma DefineGains(reg: Registry, key: int, text: string)
    requires Define(reg, key, text).Changed?
    ensures Gains(reg, Define(reg, key, text).reg, NoFacts.(history := [Assignment(reg.current, key, text)]))
  {
    hide KnownType;
    var r := Define(reg, key, text).reg;
    assert FactsOf(r).ids == FactsOf(reg).ids;
  }

  lemma CallbackGains(reg: Registry, event: string, code: string)
    requires AddCallback(reg, event, code).Changed?
    ensures var r := AddCallback(reg, event, code).reg;
            && Gains(reg, r, NoFacts.(calls := [Call(reg.current, event, reg.callbackgroup, code)]))
            && r.callbackgroup == reg.callbackgroup
  {
    var r := AddCallback(reg, event, code).reg;
    assert FactsOf(r).ids == FactsOf(reg).ids;
  }

  lemma CodeIsThat(reg: Registry, line: int, file: string, t: seq<Byte>)
    ensures match CodeMeans(reg, line, file, t)
            case Code(code, reg1, line1) =>
              code == CodeOf(t, line, file) && line1 == line + Braces.Newlines(t) && SameButLine(reg, reg1)
            case NoCode(_) => true
  {
    hide CodeBlock, LeadingBlankLines, Braces.Chars, Braces.Newlines;
  }

  lemma {:induction false} EventsGain(events: seq<Event>, reg: Registry, line: int, file: string)
    requires HasCurrent(reg) && EventsMean(events, reg, line, file).Going?
    ensures var s := EventsMean(events, reg, line, file);
            && s.line == line + EventsLines(events)
            && Gains(reg, s.reg, NoFacts.(calls := EventCalls(events, reg.current, reg.callbackgroup, line, file)))
    decreases |events|
  {
    hide AddCallback, Lexing.CString, CodeOf, FactsOf, CodeMeans, Braces.Newlines;
    if events == [] {
      PlusSum(FactsOf(reg), NoFacts, NoFacts);
    } else {
      var e := events[0];
      CodeIsThat(reg, line, file, e.code);
      match CodeMeans(reg, line, file, e.code)
      case Code(code, reg1, line1) =>
        var name := Lexing.CString(e.name);
        SameFacts(reg, reg1);
        CallbackGains(reg1, name, code);
        var reg2 := AddCallback(reg1, name, code).reg;
        EventsGain(events[1..], reg2, line1, file);
        var f := NoFacts.(calls := [Call(reg.current, name, reg.callbackgroup, code)]);
        var g := NoFacts.(calls := EventCalls(events[1..], reg.current, reg.callbackgroup, line1, file));
        GainsMore(reg1, reg2, EventsMean(events, reg, line, file).reg, f, g);
        assert Plus(f, g) == NoFacts.(calls := EventCalls(events, reg.current, reg.callbackgroup, line, file));
    }
  }

  function Names(events: seq<Event>): (names: seq<string>)
    ensures |names| == |events|
  {
    if events == [] then [] else [Lexing.CString(events[0].name)] + Names(events[1..])
  }

  function Group(p: Pattern, group: string): seq<string> {
    if group in p.groups then p.groups[group] else []
  }

  // What the callbacks of a pattern were, they still are.
  ghost predicate CodesStay(p: Pattern, q: Pattern) {
    forall name :: name in p.callbacks ==> name in q.callbacks && q.callbacks[name] == p.callbacks[name]
  }

  lemma CallbackGives(reg: Registry, event: string, code: string)
    requires AddCallback(reg, event, code).Changed?
    ensures var p, q, group := Current(reg), Current(AddCallback(reg, event, code).reg), reg.callbackgroup;
            && HasCode(q, Call(reg.current, event, group, code)) && CodesStay(p, q)
            && Group(q, group) == Group(p, group) + [event]
            && forall g :: g != group ==> Group(q, g) == Group(p, g)
  {}

  // After an accepted list of callbacks every event of it has, with its group, the code that
  // was written behind it; earlier callbacks keep their code; and the group has grown by the
  // events, in order.
  lemma {:induction false} EventsGive(events: seq<Event>, reg: Registry, line: int, file: string)
    requires HasCurrent(reg) && EventsMean(events, reg, line, file).Going?
    ensures HasCurrent(EventsMean(events, reg, line, file).reg)
    ensures var q := Current(EventsMean(events, reg, line, file).reg);
            var calls := EventCalls(events, reg.current, reg.callbackgroup, line, file);
            && |calls| == |events| && (forall c :: c in calls ==> HasCode(q, c))
            && CodesStay(Current(reg), q)
            && Group(q, reg.callbackgroup) == Group(Current(reg), reg.callbackgroup) + Names(events)
            && forall g :: g != reg.callbackgroup ==> Group(q, g) == Group(Current(reg), g)
    decreases |events|
  {
    hide AddCallback, Lexing.CString, CodeOf, CodeMeans, Braces.Newlines, Group;
    if events != [] {
      var e := events[0];
      CodeIsThat(reg, line, file, e.code);
      match CodeMeans(reg, line, file, e.code)
      case Code(code, reg1, line1) =>
        var name := Lexing.CString(e.name);
        CallbackGains(reg1, name, code);
        CallbackGives(reg1, name, code);
        EventsGive(events[1..], AddCallback(reg1, name, code).reg, line1, file);
    }
  }

  lemma SameFacts(a: Registry, b: Registry)
    requires a.pattern == b.pattern && a.history == b.history && a.log == b.log
    ensures FactsOf(a) == FactsOf(b)
  {}

  lemma EntryGains(p: Entry, reg: Registry, line: int, file: string)
    requires HasCurrent(reg) && EntryMeans(p, reg, line, file).Going?
    ensures var s := EntryMeans(p, reg, line, file);
            s.line == line + EntryLines(p) && Gains(reg, s.reg, EntryFacts(p, reg.current, line, file))
  {
    hide Define, Lexing.CString, CodeOf, FactsOf, CodeMeans, Braces.Newlines, Preprocessed, EventsMean, EventCalls, EventsLines;
    match p
    case Flag(key) => DefineGains(reg, key, "");
    case Worded(key, text) => DefineGains(reg, key, Lexing.CString(text));
    case Blocked(key, text) =>
      if TakesText(key) {
        DefineGains(reg, key, Preprocessed(Braces.Chars(text)));
      } else {
        CodeIsThat(reg, line, file, text);
        match CodeMeans(reg, line, file, text)
        case Code(code, reg1, line1) =>
          SameFacts(reg, reg1);
          DefineGains(reg1, key, code);
      }
    case Calls(group, events) =>
      var reg1 := reg.(callbackgroup := Lexing.CString(group));
      SameFacts(reg, reg1);
      EventsGain(events, reg1, line, file);
  }

  lemma {:induction false} EntriesGain(entries: seq<Entry>, reg: Registry, line: int, file: string)
    requires HasCurrent(reg) && EntriesMean(entries, reg, line, file).Going?
    ensures var s := EntriesMean(entries, reg, line, file);
            s.line == line + EntriesLines(entries) && Gains(reg, s.reg, EntriesFacts(entries, reg.current, line, file))
    decreases |entries|
  {
    hide EntryMeans, EntryFacts, EntryLines, FactsOf;
    if entries == [] {
      PlusSum(FactsOf(reg), NoFacts, NoFacts);
    } else {
      var s := EntryMeans(entries[0], reg, line + 1, file);
      EntryGains(entries[0], reg, line + 1, file);
      EntriesGain(entries[1..], s.reg, s.line, file);
      GainsMore(reg, s.reg, EntriesMean(entries, reg, line, file).reg,
                EntryFacts(entries[0], reg.current, line + 1, file), EntriesFacts(entries[1..], reg.current, s.line, file));
    }
  }

  // --- Whole files -----------------------------------------------------------------------

  ghost predicate Adds(reg: Registry, r: Registry, n: nat, f: Facts) {
    |r.pattern| == |reg.pattern| + n && FactsOf(r) == Plus(FactsOf(reg), f)
  }

  lemma DefinesAdds(id: seq<Byte>, entries: seq<Entry>, reg: Registry, line: int, file: string)
    requires DefinesMeans(id, entries, reg, line, file).Going?
    ensures var s := DefinesMeans(id, entries, reg, line, file);
            && s.line == line + EntriesLines(entries)
            && Adds(reg, s.reg, 1, Plus(NoFacts.(ids := [Lexing.CString(id)]), EntriesFacts(entries, |reg.pattern|, line, file)))
  {
    hide EntriesMean, EntriesFacts, EntriesLines, Lexing.CString;
    var name := Lexing.CString(id);
    var r := Enter(reg, name).reg;
    EnterAdds(reg, name);
    EntriesGain(entries, r, line, file);
    hide FactsOf;
    PlusSum(FactsOf(reg), NoFacts.(ids := [name]), EntriesFacts(entries, |reg.pattern|, line, file));
  }

  lemma EnterAdds(reg: Registry, id: string)
    requires Enter(reg, id).Changed?
    ensures var r := Enter(reg, id).reg;
            && HasCurrent(r) && r.current == |reg.pattern| && |r.pattern| == |reg.pattern| + 1
            && FactsOf(r) == Plus(FactsOf(reg), NoFacts.(ids := [id]))
  {
    var r := Enter(reg, id).reg;
    assert FactsOf(r).ids == FactsOf(reg).ids + [id];
  }

  lemma {:induction false} ItemsAdd(w: World, outer: bool, items: seq<Item>, reg: Registry, line: int, file: string)
    requires ItemsMean(w, outer, items, reg, line, file).Going?
    ensures Adds(reg, ItemsMean(w, outer, items, reg, line, file).reg, Count(items), ItemsFacts(items, |reg.pattern|, line, file))
    decreases if outer then 1 else 0, |items|
  {
    hide FactsOf, DefinesMeans, EntriesFacts, EntriesLines, CodeOf, CodeMeans, Braces.Newlines, Lexing.CString;
    if items == [] {
      PlusSum(FactsOf(reg), NoFacts, NoFacts);
    } else {
      var s := ItemMeans(w, outer, items[0], reg, line + 1, file);
      var f := ItemsFacts([items[0]], |reg.pattern|, line, file);
      OneFact(items, |reg.pattern|, line, file);
      ItemAdds(w, outer, items[0], reg, line, file);
      ItemsAdd(w, outer, items[1..], s.reg, s.line, file);
      PlusSum(FactsOf(reg), f, ItemsFacts(items[1..], |s.reg.pattern|, s.line, file));
    }
  }

  lemma OneFact(items: seq<Item>, n: nat, line: int, file: string)
    requires items != []
    ensures ItemsFacts(items, n, line, file) ==
            Plus(ItemsFacts([items[0]], n, line, file),
                 ItemsFacts(items[1..], n + Count([items[0]]), line + 1 + ItemLines(items[0]), file))
    ensures Count(items) == Count([items[0]]) + Count(items[1..])
  {
    hide EntriesFacts, CodeOf, Lexing.CString, ItemLines;
    assert [items[0]][1..] == [];
  }

  lemma {:induction false} ItemAdds(w: World, outer: bool, item: Item, reg: Registry, line: int, file: string)
    requires ItemMeans(w, outer, item, reg, line + 1, file).Going?
    ensures var s := ItemMeans(w, outer, item, reg, line + 1, file);
            && s.line == line + 1 + ItemLines(item)
            && Adds(reg, s.reg, Count([item]), ItemsFacts([item], |reg.pattern|, line, file))
    decreases if outer then 1 else 0, 0
  {
    hide DefinesMeans, EntriesFacts, EntriesLines, CodeOf, CodeMeans, Braces.Newlines, Lexing.CString;
    assert [item][1..] == [];
    match item
    case Prologue(code) => CodeIsThat(reg, line + 1, file, code);
    case Defines(id, entries) => DefinesAdds(id, entries, reg, line + 1, file);
    case Includes(name, items) => ItemsAdd(w, false, items, reg, 1, Lexing.CString(name));
  }

  // An accepted description file leaves behind what it says, no more and no less: its
  // patterns in order, and for each of them the last value written for every part, the code
  // written behind every event, the events of every group in order, and all the prologs
  // with empty lines between them.
  lemma FileFacts(w: World, items: seq<Item>, more: seq<Byte>)
    requires items != [] && GoodItems(w, true, items) && EndsWith(more)
    requires Translation(w, ItemsText(items, more)).Accepted?
    ensures var reg := Translation(w, ItemsText(items, more)).reg;
            FactsOf(reg) == ItemsFacts(items, 0, 1, w.inpFilename) && Orderly(reg, false)
  {
    hide Translation, ItemsText, ItemsMean, Orderly, ItemsFacts, FactsOf, GoodItem;
    FileIs(w, items, more);
    EveryTranslation(w, ItemsText(items, more));
    MeantFacts(w, items);
  }

  lemma MeantFacts(w: World, items: seq<Item>)
    requires ItemsMean(w, true, items, EMPTY, 1, w.inpFilename).Going?
    ensures FactsOf(ItemsMean(w, true, items, EMPTY, 1, w.inpFilename).reg) == ItemsFacts(items, 0, 1, w.inpFilename)
  {
    hide ItemsMean, ItemsFacts;
    ItemsAdd(w, true, items, EMPTY, 1, w.inpFilename);
    assert FactsOf(EMPTY) == NoFacts;
    PlusSum(ItemsFacts(items, 0, 1, w.inpFilename), NoFacts, NoFacts);
  }
}
