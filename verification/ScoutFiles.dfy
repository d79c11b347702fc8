/** Whole description files as they are written, and what they mean: the actions of their
    items, in order, with the line each one is in. There is no scanner and no parser here
    except in the theorem that both do just that. */
module ScoutFiles {
  import opened Flex
  import Lexing = ScoutLexer
  import Tokens = ScoutTokens
  import opened ScoutKeywords
  import Braces
  import opened CodeText
  import opened PatternRegistry
  import opened ScoutTranslator
  import opened ScoutSpelling
  import ScoutInput

  type Key = kind: int | IsKeywordKind(kind) witness HIDDEN

  datatype Event = Event(name: seq<Byte>, code: seq<Byte>)

  datatype Entry =
    | Flag(key: Key)
    | Worded(key: Key, text: seq<Byte>)
    | Blocked(key: Key, text: seq<Byte>)
    | Calls(group: seq<Byte>, events: seq<Event>)  // an empty group is not written

  datatype Item =
    | Prologue(code: seq<Byte>)
    | Defines(id: seq<Byte>, entries: seq<Entry>)
    | Includes(name: seq<Byte>, items: seq<Item>)  // the items of the included file

  // --- How they are written --------------------------------------------------------------

  predicate GoodEvent(e: Event) {
    GoodString(e.name) && GoodBlock(e.code)
  }

  predicate GoodEntry(p: Entry) {
    match p
    case Flag(key) => IsFlag(key)
    case Worded(key, text) =>
      IsKeyword(key) && !IsFlag(key) && key != CALLBACKS && !TakesCode(key) && !TakesText(key) && GoodString(text)
    case Blocked(key, text) => (TakesCode(key) || TakesText(key)) && GoodBlock(text)
    case Calls(group, events) =>
      (group == [] || GoodString(group)) && events != [] && forall i :: 0 <= i < |events| ==> GoodEvent(events[i])
  }

  ghost predicate GoodItem(w: World, outer: bool, item: Item)
    decreases if outer then 1 else 0, 0
  {
    match item
    case Prologue(code) => GoodBlock(code)
    case Defines(id, entries) =>
      GoodString(id) && entries != [] && forall i :: 0 <= i < |entries| ==> GoodEntry(entries[i])
    case Includes(name, items) =>
      GoodString(name) && (outer && Lexing.CString(name) in w.files ==>
                             GoodItems(w, false, items) && w.files[Lexing.CString(name)] == ItemsText(items, []))
  }

  ghost predicate GoodItems(w: World, outer: bool, items: seq<Item>)
    decreases if outer then 1 else 0, 1
  {
    forall i :: 0 <= i < |items| ==> GoodItem(w, outer, items[i])
  }

  function EventsText(events: seq<Event>, more: seq<Byte>): seq<Byte> {
    if events == [] then more
    else Quoted(events[0].name, [EQUAL] + Braced(events[0].code, EventsText(events[1..], more)))
  }

  function GroupText(group: seq<Byte>, more: seq<Byte>): seq<Byte> {
    if group == [] then more else [PAREN_OPEN] + Quoted(group, [PAREN_CLOSE] + more)
  }

  // A keyword on a line of its own, and what follows it.
  function Line(kind: Key, more: seq<Byte>): seq<Byte> {
    [NEWLINE] + (Spelling(kind) + more)
  }

  function EntryText(p: Entry, more: seq<Byte>): seq<Byte> {
    match p
    case Flag(key) => Line(key, more)
    case Worded(key, text) => Line(key, [EQUAL] + Quoted(text, more))
    case Blocked(key, text) => Line(key, [EQUAL] + Braced(text, more))
    case Calls(group, events) =>
      Line(CALLBACKS, GroupText(group, [EQUAL] + ([BRACKET_OPEN] + EventsText(events, [BRACKET_CLOSE] + more))))
  }

  function EntriesText(entries: seq<Entry>, more: seq<Byte>): seq<Byte> {
    if entries == [] then more else EntryText(entries[0], EntriesText(entries[1..], more))
  }

  function ItemText(item: Item, more: seq<Byte>): seq<Byte> {
    match item
    case Prologue(code) => Line(PROLOG, Braced(code, more))
    case Defines(id, entries) =>
      Line(PATTERN, Quoted(id, [EQUAL] + ([BRACKET_OPEN] + EntriesText(entries, [BRACKET_CLOSE] + more))))
    case Includes(name, items) => Line(INCLUDE, Quoted(name, more))
  }

  function ItemsText(items: seq<Item>, more: seq<Byte>): seq<Byte> {
    if items == [] then more else ItemText(items[0], ItemsText(items[1..], more))
  }

  // --- What they mean --------------------------------------------------------------------

  // After some items: the registry and the line, or the end of the run.
  datatype Spot = Going(reg: Registry, line: int) | Over(o: Outcome)

  function Apply(c: Change, reg: Registry, line: int): (s: Spot)
    ensures s.Over? ==> s.o.Rejected?
  {
    match c
    case Changed(reg1) => Going(reg1, line)
    case Refused(why) => Over(Rejected(reg, why))
  }

  function EventsMean(events: seq<Event>, reg: Registry, line: int, file: string): (s: Spot)
    ensures s.Over? ==> s.o.Rejected?
  {
    if events == [] then Going(reg, line)
    else
      match CodeMeans(reg, line, file, events[0].code)
      case NoCode(o) => Over(o)
      case Code(code, reg1, line1) =>
        match AddCallback(reg1, Lexing.CString(events[0].name), code)
        case Refused(why) => Over(Rejected(reg1, why))
        case Changed(reg2) => EventsMean(events[1..], reg2, line1, file)
  }

  function EntryMeans(p: Entry, reg: Registry, line: int, file: string): (s: Spot)
    ensures s.Over? ==> s.o.Rejected?
  {
    match p
    case Flag(key) => Apply(Define(reg, key, ""), reg, line)
    case Worded(key, text) => Apply(Define(reg, key, Lexing.CString(text)), reg, line)
    case Blocked(key, text) =>
      if TakesText(key) then Apply(Define(reg, key, Preprocessed(Braces.Chars(text))), reg, line + Braces.Newlines(text))
      else
        (match CodeMeans(reg, line, file, text)
         case NoCode(o) => Over(o)
         case Code(code, reg1, line1) => Apply(Define(reg1, key, code), reg1, line1))
    case Calls(group, events) => EventsMean(events, reg.(callbackgroup := Lexing.CString(group)), line, file)
  }

  function EntriesMean(entries: seq<Entry>, reg: Registry, line: int, file: string): (s: Spot)
    ensures s.Over? ==> s.o.Rejected?
  {
    if entries == [] then Going(reg, line)
    else
      match EntryMeans(entries[0], reg, line + 1, file)
      case Over(o) => Over(o)
      case Going(reg1, line1) => EntriesMean(entries[1..], reg1, line1, file)
  }

  function DefinesMeans(id: seq<Byte>, entries: seq<Entry>, reg: Registry, line: int, file: string): (s: Spot)
    ensures s.Over? ==> s.o.Rejected?
  {
    match Enter(reg, Lexing.CString(id))
    case Refused(why) => Over(Rejected(reg, why))
    case Changed(reg1) => Closed(EntriesMean(entries, reg1, line, file))
  }

  // Behind the closing bracket.
  function Closed(s: Spot): (t: Spot)
    ensures (s.Over? ==> s.o.Rejected?) && t.Over? ==> t.o.Rejected?
  {
    match s
    case Over(o) => Over(o)
    case Going(reg, line) => Apply(Leave(reg), reg, line)
  }

  function ItemMeans(w: World, outer: bool, item: Item, reg: Registry, line: int, file: string): (s: Spot)
    ensures s.Over? ==> s.o.Rejected?
    decreases if outer then 1 else 0, 0, 1
  {
    match item
    case Prologue(code) =>
      (match CodeMeans(reg, line, file, code)
       case NoCode(o) => Over(o)
       case Code(text, reg1, line1) => Going(AddProlog(reg1, text), line1))
    case Defines(id, entries) => DefinesMeans(id, entries, reg, line, file)
    case Includes(name, items) =>
      var included := Lexing.CString(name);
      if !outer then Over(Rejected(reg, NestedInclude))
      else if included == "" || included !in w.files then Over(Rejected(reg, NoSuchFile))
      else
        match ItemsMean(w, false, items, reg, 1, included)
        case Over(o) => Over(o)
        case Going(reg1, _) => Going(reg1, line)
  }

  function ItemsMean(w: World, outer: bool, items: seq<Item>, reg: Registry, line: int, file: string): (s: Spot)
    ensures s.Over? ==> s.o.Rejected?
    decreases if outer then 1 else 0, |items|, 0
  {
    if items == [] then Going(reg, line)
    else
      match ItemMeans(w, outer, items[0], reg, line + 1, file)
      case Over(o) => Over(o)
      case Going(reg1, line1) => ItemsMean(w, outer, items[1..], reg1, line1, file)
  }

  // --- The parser does just that ---------------------------------------------------------

  function At(inc: Lexing.Includer, line: int, rest: seq<Byte>, reg: Registry): Progress {
    Progress(Pos(inc, line, rest), reg)
  }

  lemma ExpectsSymbol(b: Byte, inc: Lexing.Includer, line: int, more: seq<Byte>, reg: Registry)
    requires IsSymbol(b)
    ensures var e := Expect(At(inc, line, [b] + more, reg), SymbolKind(b)); e.Got? && e.at == At(inc, line, more, reg)
    ensures Next(At(inc, line, [b] + more, reg)) == SymbolKind(b) && Skip(At(inc, line, [b] + more, reg)) == At(inc, line, more, reg)
  {
    hide Peek, Beyond, Lexeme;
    SymbolDelivers(b, inc, line, more);
  }

  lemma LineDelivers(kind: Key, inc: Lexing.Includer, line: int, more: seq<Byte>, reg: Registry)
    ensures Next(At(inc, line, Line(kind, more), reg)) == kind
    ensures Skip(At(inc, line, Line(kind, more), reg)) == At(inc, line + 1, more, reg)
  {
    hide Peek, Beyond, Spelling;
    KeywordDelivers(kind, inc, line, more);
  }

  lemma QuoteComesNext(s: seq<Byte>, inc: Lexing.Includer, line: int, more: seq<Byte>, reg: Registry)
    requires GoodString(s)
    ensures Next(At(inc, line, Quoted(s, more), reg)) == QUOTE
  {
    hide Peek, Beyond;
    StringIs(s, inc, line, more, reg);
  }

  // How the translator goes on inside a pattern, behind one, and behind a callback's code.
  function PartsGoOn(w: World, inc: Lexing.Includer, more: seq<Byte>, s: Spot): Outcome {
    match s
    case Over(o) => o
    case Going(reg, line) => PartsMore(w, At(inc, line, more, reg))
  }

  function ItemsGoOn(w: World, inc: Lexing.Includer, more: seq<Byte>, s: Spot): Outcome {
    match s
    case Over(o) => o
    case Going(reg, line) => BodyMore(w, At(inc, line, more, reg))
  }

  function EventGoesOn(w: World, inc: Lexing.Includer, more: seq<Byte>, name: string, c: Code): Outcome {
    match c
    case NoCode(o) => o
    case Code(code, reg, line) => EventDone(w, name, code, At(inc, line, more, reg))
  }

  // Callbacks, and what comes behind them.
  lemma {:induction false} EventsAre(w: World, events: seq<Event>, inc: Lexing.Includer, line: int, more: seq<Byte>, reg: Registry)
    requires forall i :: 0 <= i < |events| ==> GoodEvent(events[i])
    ensures EventsMore(w, At(inc, line, EventsText(events, [BRACKET_CLOSE] + more), reg)) ==
            PartsGoOn(w, inc, more, EventsMean(events, reg, line, FileOf(w, inc)))
    decreases |events|
  {
    hide Peek, Beyond, Quoted, Braced, AddCallback, CodeMeans, Lexing.CString, PartsMore, Events;
    if events == [] {
      ExpectsSymbol(BRACKET_CLOSE, inc, line, more, reg);
    } else {
      var e := events[0];
      var tail := EventsText(events[1..], [BRACKET_CLOSE] + more);
      EventIsNext(w, e, inc, line, tail, reg);
      QuoteComesNext(e.name, inc, line, [EQUAL] + Braced(e.code, tail), reg);
      match CodeMeans(reg, line, FileOf(w, inc), e.code)
      case NoCode(o) =>
      case Code(code, reg1, line1) =>
        match AddCallback(reg1, Lexing.CString(e.name), code)
        case Refused(why) =>
        case Changed(reg2) => EventsAre(w, events[1..], inc, line1, more, reg2);
    }
  }

  lemma EventIsNext(w: World, e: Event, inc: Lexing.Includer, line: int, tail: seq<Byte>, reg: Registry)
    requires GoodEvent(e)
    ensures Events(w, At(inc, line, Quoted(e.name, [EQUAL] + Braced(e.code, tail)), reg)) ==
            EventGoesOn(w, inc, tail, Lexing.CString(e.name), CodeMeans(reg, line, FileOf(w, inc), e.code))
  {
    hide Peek, Beyond, Quoted, Braced, CodeMeans, Lexing.CString, EventDone, CodeBlockValue, String, Expect;
    StringIs(e.name, inc, line, [EQUAL] + Braced(e.code, tail), reg);
    ExpectsSymbol(EQUAL, inc, line, Braced(e.code, tail), reg);
    CodeIs(w, e.code, inc, line, tail, reg);
    var name := Lexing.CString(e.name);
    assert EventIs(w, name, At(inc, line, [EQUAL] + Braced(e.code, tail), reg)) ==
           EventCode(w, name, At(inc, line, Braced(e.code, tail), reg));
  }

  // The parts of a pattern.
  lemma AssignIs(w: World, key: int, text: string, inc: Lexing.Includer, line: int, more: seq<Byte>, reg: Registry)
    ensures Assign(w, key, text, At(inc, line, more, reg)) == PartsGoOn(w, inc, more, Apply(Define(reg, key, text), reg, line))
  {
    hide Define, PartsMore;
  }

  lemma WordedIs(w: World, key: Key, text: seq<Byte>, inc: Lexing.Includer, line: int, more: seq<Byte>, reg: Registry)
    requires GoodEntry(Worded(key, text))
    ensures PartIs(w, key, At(inc, line, [EQUAL] + Quoted(text, more), reg)) ==
            PartsGoOn(w, inc, more, EntryMeans(Worded(key, text), reg, line, FileOf(w, inc)))
  {
    hide Quoted, Define, Lexing.CString, String, PartIs, Assign, PartsGoOn;
    SignIs(w, key, inc, line, Quoted(text, more), reg);
    StringIs(text, inc, line, more, reg);
    AssignIs(w, key, Lexing.CString(text), inc, line, more, reg);
  }

  lemma BlockedIs(w: World, key: Key, text: seq<Byte>, inc: Lexing.Includer, line: int, more: seq<Byte>, reg: Registry)
    requires GoodEntry(Blocked(key, text))
    ensures PartIs(w, key, At(inc, line, [EQUAL] + Braced(text, more), reg)) ==
            PartsGoOn(w, inc, more, EntryMeans(Blocked(key, text), reg, line, FileOf(w, inc)))
  {
    hide Braced, Define, GoodEntry, Assign, PartIs, CodeMeans, PartsGoOn, Value, Preprocessed, Braces.Chars, Braces.Newlines;
    SignIs(w, key, inc, line, Braced(text, more), reg);
    BlockIs(w, key, text, inc, line, more, reg);
    if TakesText(key) {
      AssignIs(w, key, Preprocessed(Braces.Chars(text)), inc, line + Braces.Newlines(text), more, reg);
    } else {
      match CodeMeans(reg, line, FileOf(w, inc), text)
      case NoCode(o) => StopsAt(w, inc, more, o);
      case Code(code, reg1, line1) => AssignIs(w, key, code, inc, line1, more, reg1);
    }
  }

  lemma SignIs(w: World, key: Key, inc: Lexing.Includer, line: int, more: seq<Byte>, reg: Registry)
    ensures PartIs(w, key, At(inc, line, [EQUAL] + more, reg)) == PartValue(w, key, At(inc, line, more, reg))
  {
    hide Expect, PartValue;
    ExpectsSymbol(EQUAL, inc, line, more, reg);
  }

  lemma StopsAt(w: World, inc: Lexing.Includer, more: seq<Byte>, o: Outcome)
    ensures PartsGoOn(w, inc, more, Over(o)) == o
  {}

  lemma BlockIs(w: World, key: Key, text: seq<Byte>, inc: Lexing.Includer, line: int, more: seq<Byte>, reg: Registry)
    requires GoodEntry(Blocked(key, text))
    ensures Value(w, key, At(inc, line, Braced(text, more), reg)) ==
            if TakesText(key) then
              Got(Preprocessed(Braces.Chars(text)), At(inc, line + Braces.Newlines(text), more, reg))
            else
              match CodeMeans(reg, line, FileOf(w, inc), text)
              case NoCode(o) => Failed(o)
              case Code(code, reg1, line1) => Got(code, At(inc, line1, more, reg1))
  {
    hide Braced, GoodBlock, CodeMeans, CodeBlockValue, TextBlockValue, Preprocessed, Braces.Chars, Braces.Newlines;
    CodeIs(w, text, inc, line, more, reg);
  }

  lemma CallsAre(w: World, events: seq<Event>, inc: Lexing.Includer, line: int, more: seq<Byte>, reg: Registry)
    requires events != [] && forall i :: 0 <= i < |events| ==> GoodEvent(events[i])
    ensures var rest := [EQUAL] + ([BRACKET_OPEN] + EventsText(events, [BRACKET_CLOSE] + more));
            CallbacksIs(w, At(inc, line, rest, reg)) == PartsGoOn(w, inc, more, EventsMean(events, reg, line, FileOf(w, inc)))
  {
    hide Expect, EventsMean, PartsGoOn, Events, EventsMore, EventsText, GoodEvent;
    var list := EventsText(events, [BRACKET_CLOSE] + more);
    EventsAre(w, events, inc, line, more, reg);
    ExpectsSymbol(EQUAL, inc, line, [BRACKET_OPEN] + list, reg);
    ExpectsSymbol(BRACKET_OPEN, inc, line, list, reg);
    SomeEvents(w, events, inc, line, [BRACKET_CLOSE] + more, reg);
    assert CallbacksIs(w, At(inc, line, [EQUAL] + ([BRACKET_OPEN] + list), reg)) ==
           CallbacksOpen(w, At(inc, line, [BRACKET_OPEN] + list, reg));
  }

  lemma SomeEvents(w: World, events: seq<Event>, inc: Lexing.Includer, line: int, more: seq<Byte>, reg: Registry)
    requires events != [] && GoodEvent(events[0])
    ensures EventsMore(w, At(inc, line, EventsText(events, more), reg)) == Events(w, At(inc, line, EventsText(events, more), reg))
  {
    hide Peek, Beyond, Events, Quoted, Braced, GoodBlock;
    var e := events[0];
    QuoteComesNext(e.name, inc, line, [EQUAL] + Braced(e.code, EventsText(events[1..], more)), reg);
  }

  lemma GroupIs(w: World, group: seq<Byte>, inc: Lexing.Includer, line: int, rest: seq<Byte>, reg: Registry)
    requires group == [] || GoodString(group)
    ensures Callbacks(w, At(inc, line, GroupText(group, [EQUAL] + rest), reg)) ==
            CallbacksIs(w, At(inc, line, [EQUAL] + rest, reg.(callbackgroup := Lexing.CString(group))))
  {
    hide Peek, Beyond, Expect, CallbacksIs, Quoted, String;
    if group == [] {
      ExpectsSymbol(EQUAL, inc, line, rest, reg);
    } else {
      var tail := [PAREN_CLOSE] + ([EQUAL] + rest);
      ExpectsSymbol(PAREN_OPEN, inc, line, Quoted(group, tail), reg);
      StringIs(group, inc, line, tail, reg);
      ExpectsSymbol(PAREN_CLOSE, inc, line, [EQUAL] + rest, reg);
      hide Lexing.CString;
      assert GroupName(w, At(inc, line, Quoted(group, tail), reg)) ==
             GroupClose(w, Lexing.CString(group), At(inc, line, tail, reg));
    }
  }

  lemma EntryIs(w: World, p: Entry, inc: Lexing.Includer, line: int, more: seq<Byte>, reg: Registry)
    requires GoodEntry(p)
    ensures PartsMore(w, At(inc, line, EntryText(p, more), reg)) ==
            PartsGoOn(w, inc, more, EntryMeans(p, reg, line + 1, FileOf(w, inc)))
  {
    hide Peek, Beyond, Quoted, Braced, Define, Lexing.CString, PartsGoOn, EventsMean, EventsText, GroupText, Line;
    hide PartIs, Callbacks, Assign, CodeMeans, Preprocessed;
    match p
    case Flag(key) =>
      LineDelivers(key, inc, line, more, reg);
      AssignIs(w, key, "", inc, line + 1, more, reg);
      assert Part(w, key, At(inc, line + 1, more, reg)) == Assign(w, key, "", At(inc, line + 1, more, reg));
    case Worded(key, text) =>
      var rest := [EQUAL] + Quoted(text, more);
      LineDelivers(key, inc, line, rest, reg);
      WordedIs(w, key, text, inc, line + 1, more, reg);
      assert Part(w, key, At(inc, line + 1, rest, reg)) == PartIs(w, key, At(inc, line + 1, rest, reg));
    case Blocked(key, text) =>
      var rest := [EQUAL] + Braced(text, more);
      LineDelivers(key, inc, line, rest, reg);
      BlockedIs(w, key, text, inc, line + 1, more, reg);
      assert Part(w, key, At(inc, line + 1, rest, reg)) == PartIs(w, key, At(inc, line + 1, rest, reg));
    case Calls(group, events) =>
      var list := [BRACKET_OPEN] + EventsText(events, [BRACKET_CLOSE] + more);
      var rest := GroupText(group, [EQUAL] + list);
      LineDelivers(CALLBACKS, inc, line, rest, reg);
      GroupIs(w, group, inc, line + 1, list, reg);
      CallsAre(w, events, inc, line + 1, more, reg.(callbackgroup := Lexing.CString(group)));
      assert Part(w, CALLBACKS, At(inc, line + 1, rest, reg)) == Callbacks(w, At(inc, line + 1, rest, reg));
  }

  lemma {:induction false} EntriesAre(w: World, entries: seq<Entry>, inc: Lexing.Includer, line: int, more: seq<Byte>, reg: Registry)
    requires forall i :: 0 <= i < |entries| ==> GoodEntry(entries[i])
    ensures PartsMore(w, At(inc, line, EntriesText(entries, more), reg)) ==
            PartsGoOn(w, inc, more, EntriesMean(entries, reg, line, FileOf(w, inc)))
    decreases |entries|
  {
    hide PartsMore, EntryText, EntryMeans;
    if entries != [] {
      EntryIs(w, entries[0], inc, line, EntriesText(entries[1..], more), reg);
      match EntryMeans(entries[0], reg, line + 1, FileOf(w, inc))
      case Over(o) =>
      case Going(reg1, line1) => EntriesAre(w, entries[1..], inc, line1, more, reg1);
    }
  }

  // --- Whole files -----------------------------------------------------------------------

  // A pattern, up to its closing bracket.
  lemma PatternIsWritten(w: World, id: seq<Byte>, entries: seq<Entry>, inc: Lexing.Includer, line: int, more: seq<Byte>, reg: Registry)
    requires GoodString(id) && entries != [] && forall i :: 0 <= i < |entries| ==> GoodEntry(entries[i])
    ensures var rest := Quoted(id, [EQUAL] + ([BRACKET_OPEN] + EntriesText(entries, [BRACKET_CLOSE] + more)));
            PatternItem(w, At(inc, line, rest, reg)) ==
            ItemsGoOn(w, inc, more, DefinesMeans(id, entries, reg, line, FileOf(w, inc)))
  {
    hide Quoted, Enter, Lexing.CString, String, PatternIs, EntriesMean, EntriesText, ItemsGoOn, GoodEntry;
    var text := EntriesText(entries, [BRACKET_CLOSE] + more);
    StringIs(id, inc, line, [EQUAL] + ([BRACKET_OPEN] + text), reg);
    match Enter(reg, Lexing.CString(id))
    case Refused(why) => EndsAt(w, inc, more, Rejected(reg, why));
    case Changed(reg1) => EntriesAreRead(w, entries, inc, line, more, reg1);
  }

  lemma EndsAt(w: World, inc: Lexing.Includer, more: seq<Byte>, o: Outcome)
    ensures ItemsGoOn(w, inc, more, Over(o)) == o
  {}

  lemma EntriesAreRead(w: World, entries: seq<Entry>, inc: Lexing.Includer, line: int, more: seq<Byte>, reg: Registry)
    requires entries != [] && forall i :: 0 <= i < |entries| ==> GoodEntry(entries[i])
    ensures var rest := [EQUAL] + ([BRACKET_OPEN] + EntriesText(entries, [BRACKET_CLOSE] + more));
            PatternIs(w, At(inc, line, rest, reg)) ==
            ItemsGoOn(w, inc, more, Closed(EntriesMean(entries, reg, line, FileOf(w, inc))))
  {
    hide Expect, Leave, EntriesMean, EntriesText, ItemsGoOn, GoodEntry, PartsMore, Parts;
    var text := EntriesText(entries, [BRACKET_CLOSE] + more);
    ExpectsSymbol(EQUAL, inc, line, [BRACKET_OPEN] + text, reg);
    ExpectsSymbol(BRACKET_OPEN, inc, line, text, reg);
    EntriesAre(w, entries, inc, line, [BRACKET_CLOSE] + more, reg);
    SomeEntries(w, entries, inc, line, [BRACKET_CLOSE] + more, reg);
    match EntriesMean(entries, reg, line, FileOf(w, inc))
    case Over(o) => EndsAt(w, inc, more, o);
    case Going(reg2, line2) => LeavesAt(w, inc, line2, more, reg2);
  }

  lemma LeavesAt(w: World, inc: Lexing.Includer, line: int, more: seq<Byte>, reg: Registry)
    ensures PartsMore(w, At(inc, line, [BRACKET_CLOSE] + more, reg)) == ItemsGoOn(w, inc, more, Apply(Leave(reg), reg, line))
  {
    hide Peek, Beyond, Leave, BodyMore;
    ExpectsSymbol(BRACKET_CLOSE, inc, line, more, reg);
  }

  // The keyword of a part comes next.
  lemma SomeEntries(w: World, entries: seq<Entry>, inc: Lexing.Includer, line: int, more: seq<Byte>, reg: Registry)
    requires entries != [] && GoodEntry(entries[0])
    ensures var at := At(inc, line, EntriesText(entries, more), reg); PartsMore(w, at) == Parts(w, at)
  {
    hide Peek, Beyond, Parts, Quoted, Braced, GroupText, EventsText, Line, GoodBlock, GoodString;
    var tail := EntriesText(entries[1..], more);
    match entries[0]
    case Flag(key) => LineDelivers(key, inc, line, tail, reg);
    case Worded(key, text) => LineDelivers(key, inc, line, [EQUAL] + Quoted(text, tail), reg);
    case Blocked(key, text) => LineDelivers(key, inc, line, [EQUAL] + Braced(text, tail), reg);
    case Calls(group, events) =>
      LineDelivers(CALLBACKS, inc, line,
                   GroupText(group, [EQUAL] + ([BRACKET_OPEN] + EventsText(events, [BRACKET_CLOSE] + tail))), reg);
  }

  // At the end of an included file the including one goes on.
  lemma Returns(w: World, inc: Lexing.Includer, line: int, reg: Registry)
    requires inc.Includer?
    ensures BodyMore(w, At(inc, line, [], reg)) == BodyMore(w, At(Lexing.Nobody, inc.line, inc.rest, reg))
  {
    var l, l1 := Pos(inc, line, []), Pos(Lexing.Nobody, inc.line, inc.rest);
    assert Lexing.Return(l) == l1;
    assert Lexing.Yylex(l) == Lexing.Yylex(l1);
    hide Lexing.Yylex, Peek, Beyond, IncludeItem, PatternItem, PrologItem;
    SameNext(l, l1);
  }

  lemma SameNext(l: ValidLexer, l1: ValidLexer)
    requires Lexing.Yylex(l) == Lexing.Yylex(l1)
    ensures Peek(l) == Peek(l1) && (Peek(l) > 0 ==> Beyond(l) == Beyond(l1))
  {
    hide Lexing.Yylex;
  }

  lemma {:induction false} ItemIs(w: World, item: Item, inc: Lexing.Includer, line: int, more: seq<Byte>, reg: Registry)
    requires GoodItem(w, inc.Nobody?, item)
    ensures BodyMore(w, At(inc, line, ItemText(item, more), reg)) ==
            ItemsGoOn(w, inc, more, ItemMeans(w, inc.Nobody?, item, reg, line + 1, FileOf(w, inc)))
    decreases if inc.Nobody? then 1 else 0, 0, 1
  {
    hide Peek, Beyond, Line, Quoted, Braced, EntriesText, GoodEntry, DefinesMeans, ItemsMean, PatternItem, PrologItem, IncludeItem;
    hide ItemsGoOn, CodeMeans, AddProlog;
    match item
    case Prologue(code) =>
      LineDelivers(PROLOG, inc, line, Braced(code, more), reg);
      PrologIs(w, code, inc, line + 1, more, reg);
    case Defines(id, entries) =>
      var rest := Quoted(id, [EQUAL] + ([BRACKET_OPEN] + EntriesText(entries, [BRACKET_CLOSE] + more)));
      LineDelivers(PATTERN, inc, line, rest, reg);
      PatternIsWritten(w, id, entries, inc, line + 1, more, reg);
    case Includes(name, items) =>
      LineDelivers(INCLUDE, inc, line, Quoted(name, more), reg);
      IncludeIs(w, name, items, inc, line + 1, more, reg);
  }

  lemma PrologIs(w: World, code: seq<Byte>, inc: Lexing.Includer, line: int, more: seq<Byte>, reg: Registry)
    requires GoodBlock(code)
    ensures PrologItem(w, At(inc, line, Braced(code, more), reg)) ==
            ItemsGoOn(w, inc, more, ItemMeans(w, inc.Nobody?, Prologue(code), reg, line, FileOf(w, inc)))
  {
    hide Braced, GoodBlock, CodeMeans, CodeBlockValue, BodyMore, AddProlog;
    CodeIs(w, code, inc, line, more, reg);
  }

  lemma {:induction false} IncludeIs(w: World, name: seq<Byte>, items: seq<Item>, inc: Lexing.Includer, line: int, more: seq<Byte>, reg: Registry)
    requires GoodItem(w, inc.Nobody?, Includes(name, items))
    ensures IncludeItem(w, At(inc, line, Quoted(name, more), reg)) ==
            ItemsGoOn(w, inc, more, ItemMeans(w, inc.Nobody?, Includes(name, items), reg, line, FileOf(w, inc)))
    decreases if inc.Nobody? then 1 else 0, 0, 0
  {
    hide Peek, Beyond, Quoted, BodyMore, String, Lexing.CString, ItemsMean, GoodItems;
    StringIs(name, inc, line, more, reg);
    var included := Lexing.CString(name);
    if inc.Nobody? && included != "" && included in w.files {
      var inc1 := Lexing.Includer(included, more, line);
      assert OpenFile(w, included, At(inc, line, more, reg)) == At(inc1, 1, ItemsText(items, []), reg);
      ItemsAre(w, items, inc1, 1, [], reg);
      match ItemsMean(w, false, items, reg, 1, included)
      case Over(o) =>
      case Going(reg1, line1) => Returns(w, inc1, line1, reg1);
    }
  }

  lemma {:induction false} ItemsAre(w: World, items: seq<Item>, inc: Lexing.Includer, line: int, more: seq<Byte>, reg: Registry)
    requires GoodItems(w, inc.Nobody?, items)
    ensures BodyMore(w, At(inc, line, ItemsText(items, more), reg)) ==
            ItemsGoOn(w, inc, more, ItemsMean(w, inc.Nobody?, items, reg, line, FileOf(w, inc)))
    decreases if inc.Nobody? then 1 else 0, |items|
  {
    hide BodyMore, ItemText, ItemMeans, GoodItem;
    if items != [] {
      ItemIs(w, items[0], inc, line, ItemsText(items[1..], more), reg);
      match ItemMeans(w, inc.Nobody?, items[0], reg, line + 1, FileOf(w, inc))
      case Over(o) =>
      case Going(reg1, line1) => ItemsAre(w, items[1..], inc, line1, more, reg1);
    }
  }

  // The keyword of an item comes next.
  lemma SomeItems(w: World, item: Item, inc: Lexing.Includer, line: int, more: seq<Byte>, reg: Registry)
    ensures var at := At(inc, line, ItemText(item, more), reg); BodyMore(w, at) == Body(w, at)
  {
    hide Peek, Beyond, Line, Quoted, Braced, EntriesText, Body;
    match item
    case Prologue(code) => LineDelivers(PROLOG, inc, line, Braced(code, more), reg);
    case Defines(id, entries) =>
      LineDelivers(PATTERN, inc, line, Quoted(id, [EQUAL] + ([BRACKET_OPEN] + EntriesText(entries, [BRACKET_CLOSE] + more))), reg);
    case Includes(name, items) => LineDelivers(INCLUDE, inc, line, Quoted(name, more), reg);
  }

  // The end of the input, or a byte that reads as the end.
  predicate EndsWith(more: seq<Byte>) {
    more == [] || Tokens.Foreign(more[0])
  }

  lemma AcceptsHere(w: World, line: int, more: seq<Byte>, reg: Registry)
    requires EndsWith(more)
    ensures BodyMore(w, At(Lexing.Nobody, line, more, reg)) == Accepted(reg)
  {
    var l := Pos(Lexing.Nobody, line, more);
    hide Peek, Lexing.FirstEffect, Tokens.Plain;
    Tokens.EndIff(l);
    if more != [] {
      Tokens.ForeignPlain(more[0]);
      Tokens.PlainEffect(l);
    }
  }

  function Ending(s: Spot): Outcome {
    match s
    case Over(o) => o
    case Going(reg, _) => Accepted(reg)
  }

  // Every description file that is written like this means the actions of its items, one
  // after the other, and is accepted exactly if none of them is refused. A NUL byte or a
  // byte above 127 behind it hides whatever follows.
  lemma FileIs(w: World, items: seq<Item>, more: seq<Byte>)
    requires items != [] && GoodItems(w, true, items) && EndsWith(more)
    ensures Translation(w, ItemsText(items, more)) == Ending(ItemsMean(w, true, items, EMPTY, 1, w.inpFilename))
  {
    hide Body, BodyMore, ItemText, ItemsMean, GoodItem;
    ItemsAre(w, items, Lexing.Nobody, 1, more, EMPTY);
    SomeItems(w, items[0], Lexing.Nobody, 1, ItemsText(items[1..], more), EMPTY);
    match ItemsMean(w, true, items, EMPTY, 1, w.inpFilename)
    case Over(o) =>
    case Going(reg, line) => AcceptsHere(w, line, more, reg);
  }
}
