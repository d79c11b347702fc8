/** Description files on which Scout does not do what one would expect. */
module ScoutExamples {
  import opened Flex
  import Lexing = ScoutLexer
  import Tokens = ScoutTokens
  import Braces
  import opened CodeText
  import opened PatternRegistry
  import opened PatternHistory
  import opened ScoutTranslator
  import opened ScoutSpelling
  import opened ScoutFiles
  import opened ScoutKeywords

  // --- Patterns without blocks and callbacks ---------------------------------------------

  predicate AllWorded(entries: seq<Entry>) {
    forall i :: 0 <= i < |entries| ==> entries[i].Worded?
  }

  function Definitions(entries: seq<Entry>): (parts: seq<Definition>)
    requires AllWorded(entries)
    ensures |parts| == |entries|
  {
    seq(|entries|, i requires 0 <= i < |entries| => Definition(entries[i].key, Lexing.CString(entries[i].text)))
  }

  // The parts of such a pattern are a list of definitions.
  lemma {:induction false} WordsMean(entries: seq<Entry>, reg: Registry, line: int, file: string)
    requires AllWorded(entries)
    ensures match DefineAll(reg, Definitions(entries))
            case Changed(r) => EntriesMean(entries, reg, line, file) == Going(r, line + |entries|)
            case Refused(why) =>
              var s := EntriesMean(entries, reg, line, file); s.Over? && s.o.Rejected? && s.o.why == why
    decreases |entries|
  {
    hide Define, Lexing.CString;
    if entries != [] {
      var d := Definitions(entries)[0];
      assert Definitions(entries)[1..] == Definitions(entries[1..]);
      if Define(reg, d.key, d.text).Changed? {
        WordsMean(entries[1..], Define(reg, d.key, d.text).reg, line + 1, file);
      }
    }
  }

  // A definition that is new to the current pattern.
  predicate New(reg: Registry, d: Definition) {
    && HasCurrent(reg) && Checked(d.key) && Attribute(Current(reg), d.key) == ""
    && (d.key == MODE ==> d.text == "inclusive" || d.text == "exclusive")
  }

  lemma NewIsAccepted(reg: Registry, d: Definition)
    requires New(reg, d)
    ensures Define(reg, d.key, d.text).Changed?
    ensures DefinesCurrent(reg, Define(reg, d.key, d.text).reg, d.key, d.text)
    ensures var r := Define(reg, d.key, d.text).reg;
            r.id2pattern == reg.id2pattern && Current(r).parent == Current(reg).parent
  {
    hide KnownType, DefineParent, DefinesCurrent;
    DefineCurrent(reg, d.key, d.text);
  }

  // A list of definitions that are new and different is accepted, and all of them last.
  lemma {:induction false} NewAreAccepted(reg: Registry, parts: seq<Definition>)
    requires HasCurrent(reg) && (forall i :: 0 <= i < |parts| ==> New(reg, parts[i]))
    requires forall i, j :: 0 <= i < j < |parts| ==> parts[i].key != parts[j].key
    ensures DefineAll(reg, parts).Changed?
    ensures var r := DefineAll(reg, parts).reg;
            && HasCurrent(r) && r.id2pattern == reg.id2pattern && r.current == reg.current
            && |r.pattern| == |reg.pattern| && |r.history| == |reg.history| + |parts|
            && r.history[..|reg.history|] == reg.history
            && (forall i :: 0 <= i < |parts| ==>
                  r.history[|reg.history| + i] == Assignment(reg.current, parts[i].key, parts[i].text))
            && forall k :: (forall i :: 0 <= i < |parts| ==> parts[i].key != k) ==> Attribute(Current(r), k) == Attribute(Current(reg), k)
    ensures var r := DefineAll(reg, parts).reg;
            forall i :: 0 <= i < |parts| ==> Attribute(Current(r), parts[i].key) == parts[i].text
    decreases |parts|
  {
    hide Define, Attribute, Plausible;
    if parts != [] {
      NewIsAccepted(reg, parts[0]);
      var r1, tail := Define(reg, parts[0].key, parts[0].text).reg, parts[1..];
      forall i | 0 <= i < |tail| ensures New(r1, tail[i]) {
        assert tail[i] == parts[i + 1] && parts[0].key != parts[i + 1].key;
      }
      NewAreAccepted(r1, tail);
      var r := DefineAll(r1, tail).reg;
      forall i | 0 <= i < |parts|
        ensures r.history[|reg.history| + i] == Assignment(reg.current, parts[i].key, parts[i].text)
      {
        if i > 0 {
          assert parts[i] == tail[i - 1];
          assert |reg.history| + i == |r1.history| + (i - 1);
        } else {
          assert r.history[|reg.history|] == r.history[..|r1.history|][|reg.history|];
        }
      }
      forall i | 0 <= i < |parts| ensures Attribute(Current(r), parts[i].key) == parts[i].text {
        if i > 0 {
          assert parts[i] == tail[i - 1];
        } else {
          assert forall j :: 0 <= j < |tail| ==> tail[j] == parts[j + 1];
        }
      }
    }
  }

  // Text without NUL bytes, quotation marks and newlines, as bytes.
  predicate Printable(s: string) {
    forall i :: 0 <= i < |s| ==> 32 <= s[i] as int < 127 && s[i] != '"'
  }

  function Bytes(s: string): (bytes: seq<Byte>)
    requires Printable(s)
    ensures |bytes| == |s| && forall i :: 0 <= i < |s| ==> bytes[i] == s[i] as int
  {
    seq(|s|, i requires 0 <= i < |s| => s[i] as int)
  }

  lemma {:induction false} BytesAreRead(s: string)
    requires Printable(s)
    ensures Lexing.CString(Bytes(s)) == s && (s != "" ==> GoodString(Bytes(s)))
    decreases |s|
  {
    if s != "" {
      BytesAreRead(s[1..]);
      assert Bytes(s)[1..] == Bytes(s[1..]);
      assert Bytes(s)[0] as char == s[0];
    }
  }

  function Text(key: Key, text: string): (p: Entry)
    requires Printable(text)
    ensures p.Worded? && p.key == key
  {
    Worded(key, Bytes(text))
  }

  // The five required parts.
  const Five: seq<Entry> := [Text(NAME, "x"), Text(CLASS, "x"), Text(INFO, "x"), Text(UNIT, "x"), Text(MODE, "inclusive")]

  lemma TextIs(key: Key, text: string)
    requires Printable(text) && text != ""
    ensures Lexing.CString(Text(key, text).text) == text
    ensures key == PARENT || key in Required ==> GoodEntry(Text(key, text))
  {
    hide Lexing.CString, GoodString;
    BytesAreRead(text);
  }

  lemma FiveTexts()
    ensures AllWorded(Five) && |Five| == 5 && Required == [NAME, CLASS, INFO, UNIT, MODE]
    ensures Definitions(Five) == [Definition(NAME, "x"), Definition(CLASS, "x"), Definition(INFO, "x"), Definition(UNIT, "x"),
                                  Definition(MODE, "inclusive")]
    ensures forall i :: 0 <= i < 5 ==> GoodEntry(Five[i])
  {
    hide Lexing.CString, Text, GoodEntry;
    TextIs(NAME, "x");
    TextIs(CLASS, "x");
    TextIs(INFO, "x");
    TextIs(UNIT, "x");
    TextIs(MODE, "inclusive");
  }

  // A pattern without these attributes gets them, and is complete.
  lemma FiveComplete(reg: Registry, line: int, file: string)
    requires HasCurrent(reg) && forall i :: 0 <= i < |Required| ==> Attribute(Current(reg), Required[i]) == ""
    ensures var s := EntriesMean(Five, reg, line, file);
            && s.Going? && Closed(s) == s && HasCurrent(s.reg) && s.reg.current == reg.current
            && s.reg.id2pattern == reg.id2pattern && |s.reg.pattern| == |reg.pattern|
            && |s.reg.history| == |reg.history| + 5 && s.reg.history[..|reg.history|] == reg.history
            && s.reg.history[|reg.history|] == Assignment(reg.current, NAME, "x")
  {
    FiveTexts();
    hide EntriesMean, Attribute, Definitions, Define, DefineAll, Lexing.CString;
    var parts := Definitions(Five);
    assert forall i :: 0 <= i < 5 ==> parts[i].key == Required[i];
    NewAreAccepted(reg, parts);
    WordsMean(Five, reg, line, file);
    var r := DefineAll(reg, parts).reg;
    assert forall i :: 0 <= i < 5 ==> Attribute(Current(r), Required[i]) == parts[i].text;
    LeaveIff(r, 0);
  }

  // --- Three files ------------------------------------------------------------------------

  lemma NewPatternIsEmpty(reg: Registry, id: string)
    requires id !in reg.id2pattern
    ensures Enter(reg, id).Changed?
    ensures var r := Enter(reg, id).reg;
            && |r.pattern| == |reg.pattern| + 1 && HasCurrent(r) && Current(r) == NewPattern(id) && r.id2pattern == reg.id2pattern[id := |reg.pattern|]
            && r.current == |reg.pattern| && r.history == reg.history
            && forall key :: Attribute(Current(r), key) == ""
  {}

  // A plain pattern.
  lemma PlainPattern(reg: Registry, id: string, line: int, file: string)
    requires Printable(id) && id != "" && id !in reg.id2pattern
    ensures var s := DefinesMeans(Bytes(id), Five, reg, line, file);
            && s.Going? && |s.reg.pattern| == |reg.pattern| + 1 && |s.reg.history| == |reg.history| + 5
            && s.reg.id2pattern == reg.id2pattern[id := |reg.pattern|]
  {
    hide Enter, EntriesMean, Lexing.CString, Attribute, Closed;
    BytesAreRead(id);
    NewPatternIsEmpty(reg, id);
    FiveComplete(Enter(reg, id).reg, line, file);
  }

  lemma PlainIsGood(w: World, id: string)
    requires Printable(id) && id != ""
    ensures GoodItem(w, true, Defines(Bytes(id), Five))
  {
    FiveTexts();
    BytesAreRead(id);
    hide GoodString, GoodEntry;
  }

  // A NUL byte or a byte above 127 behind a pattern hides the rest of the file.
  lemma RestHidden(w: World, b: Byte, rest: seq<Byte>)
    requires Tokens.Foreign(b)
    ensures var items := [Defines(Bytes("P"), Five)];
            && Translation(w, ItemsText(items, [b] + rest)) == Translation(w, ItemsText(items, []))
            && Translation(w, ItemsText(items, [])).Accepted?
  {
    var items := [Defines(Bytes("P"), Five)];
    PlainIsGood(w, "P");
    hide Translation, ItemsText, GoodItem, DefinesMeans;
    FileIs(w, items, [b] + rest);
    FileIs(w, items, []);
    PlainPattern(EMPTY, "P", 2, w.inpFilename);
    assert items[1..] == [];
  }

  // The name of a pattern given twice: the first one starts with a NUL byte and reads as
  // empty.
  lemma NamedTwice(w: World)
    ensures var items := [Defines(Bytes("P"), [Worded(NAME, [0, 65])] + Five)];
            var o := Translation(w, ItemsText(items, []));
            && GoodItems(w, true, items) && o.Accepted? && |o.reg.history| == 6
            && o.reg.history[0] == Assignment(0, NAME, "") && o.reg.history[1] == Assignment(0, NAME, "x")
  {
    var first := Worded(NAME, [0, 65]);
    var entries := [first] + Five;
    var items := [Defines(Bytes("P"), entries)];
    FiveTexts();
    BytesAreRead("P");
    NulIsEmpty();
    NamedTwiceMeans(w.inpFilename);
    hide Translation, ItemsText, Lexing.CString, EntriesMean, DefinesMeans;
    assert forall i :: 0 < i < 6 ==> entries[i] == Five[i - 1];
    assert GoodItem(w, true, items[0]);
    FileIs(w, items, []);
    assert items[1..] == [];
  }

  lemma NulIsEmpty()
    ensures Lexing.CString([0, 65]) == "" && GoodEntry(Worded(NAME, [0, 65]))
  {}

  lemma NamedTwiceMeans(file: string)
    ensures var s := DefinesMeans(Bytes("P"), [Worded(NAME, [0, 65])] + Five, EMPTY, 2, file);
            && s.Going? && |s.reg.history| == 6
            && s.reg.history[0] == Assignment(0, NAME, "") && s.reg.history[1] == Assignment(0, NAME, "x")
  {
    var first := Worded(NAME, [0, 65]);
    BytesAreRead("P");
    NulIsEmpty();
    NewPatternIsEmpty(EMPTY, "P");
    var r := Enter(EMPTY, "P").reg;
    NewIsAccepted(r, Definition(NAME, ""));
    var r1 := Define(r, NAME, "").reg;
    hide Enter, Define, Lexing.CString, Attribute, Closed, Bytes, Plausible;
    FiveComplete(r1, 3, file);
    assert ([first] + Five)[1..] == Five;
    assert EntryMeans(first, r, 3, file) == Going(r1, 3);
    assert EntriesMean([first] + Five, r, 2, file) == EntriesMean(Five, r1, 3, file);
    var s := EntriesMean(Five, r1, 3, file);
    assert s.reg.history[0] == s.reg.history[..1][0];
  }

  // A pattern called NONE, and another one that has it as its parent twice.
  function NoneItems(): seq<Item> {
    [Defines(Bytes("NONE"), Five), Defines(Bytes("A"), [Text(PARENT, "NONE"), Text(PARENT, "NONE")] + Five)]
  }

  lemma NoneTwice(w: World)
    ensures GoodItems(w, true, NoneItems())
    ensures var o := Translation(w, ItemsText(NoneItems(), []));
            && o.Accepted? && |o.reg.history| == 12 && NONE in o.reg.id2pattern
            && o.reg.history[5] == o.reg.history[6] == Assignment(1, PARENT, NONE)
  {
    PlainIsGood(w, "NONE");
    TwiceIsGood(w);
    NoneItemsMean(w);
    hide Translation, ItemsText, ItemsMean, GoodItem;
    FileIs(w, NoneItems(), []);
  }

  lemma NoneItemsMean(w: World)
    ensures var s := ItemsMean(w, true, NoneItems(), EMPTY, 1, w.inpFilename);
            && s.Going? && |s.reg.history| == 12 && NONE in s.reg.id2pattern
            && s.reg.history[5] == s.reg.history[6] == Assignment(1, PARENT, NONE)
  {
    hide ItemsMean, DefinesMeans, Text, Bytes;
    PlainPattern(EMPTY, "NONE", 2, w.inpFilename);
    var s := DefinesMeans(Bytes("NONE"), Five, EMPTY, 2, w.inpFilename);
    NoneTwiceMeans(s.reg, s.line + 1, w.inpFilename);
    TwoItems(w, NoneItems()[0], NoneItems()[1]);
  }

  lemma OneItem(w: World, item: Item, reg: Registry, line: int, file: string)
    ensures ItemsMean(w, true, [item], reg, line, file) == ItemMeans(w, true, item, reg, line + 1, file)
  {
    hide ItemMeans;
    assert [item][1..] == [];
  }

  lemma TwoItems(w: World, a: Item, b: Item)
    requires ItemMeans(w, true, a, EMPTY, 2, w.inpFilename).Going?
    ensures var s := ItemMeans(w, true, a, EMPTY, 2, w.inpFilename);
            ItemsMean(w, true, [a, b], EMPTY, 1, w.inpFilename) == ItemMeans(w, true, b, s.reg, s.line + 1, w.inpFilename)
  {
    hide ItemMeans;
    var s := ItemMeans(w, true, a, EMPTY, 2, w.inpFilename);
    assert [a, b][1..] == [b];
    OneItem(w, b, s.reg, s.line, w.inpFilename);
  }

  lemma TwiceIsGood(w: World)
    ensures GoodItem(w, true, Defines(Bytes("A"), [Text(PARENT, "NONE"), Text(PARENT, "NONE")] + Five))
  {
    var entries := [Text(PARENT, "NONE"), Text(PARENT, "NONE")] + Five;
    FiveTexts();
    BytesAreRead("A");
    TextIs(PARENT, "NONE");
    hide GoodEntry, GoodString, Text, Lexing.CString;
    assert forall i :: 2 <= i < 7 ==> entries[i] == Five[i - 2];
  }

  lemma NoneTwiceMeans(reg: Registry, line: int, file: string)
    requires |reg.pattern| == 1 && reg.id2pattern == map["NONE" := 0] && |reg.history| == 5
    ensures var s := DefinesMeans(Bytes("A"), [Text(PARENT, "NONE"), Text(PARENT, "NONE")] + Five, reg, line, file);
            && s.Going? && |s.reg.history| == 12 && NONE in s.reg.id2pattern
            && s.reg.history[5] == s.reg.history[6] == Assignment(1, PARENT, NONE)
  {
    var p := Text(PARENT, "NONE");
    BytesAreRead("A");
    TextIs(PARENT, "NONE");
    NewPatternIsEmpty(reg, "A");
    var r := Enter(reg, "A").reg;
    NoneIsEligible(r);
    var r1 := Define(r, PARENT, NONE).reg;
    NoneIsEligible(r1);
    var r2 := Define(r1, PARENT, NONE).reg;
    hide Enter, Define, Lexing.CString, Attribute, Closed, Bytes, Text, EntriesMean;
    FiveComplete(r2, line + 2, file);
    assert [p] + ([p] + Five) == [p, p] + Five;
    FirstEntry(p, [p] + Five, r, line, file);
    FirstEntry(p, Five, r1, line + 1, file);
    var s := EntriesMean(Five, r2, line + 2, file);
    assert s.reg.history[5] == s.reg.history[..7][5] && s.reg.history[6] == s.reg.history[..7][6];
  }

  lemma FirstEntry(p: Entry, entries: seq<Entry>, reg: Registry, line: int, file: string)
    ensures EntriesMean([p] + entries, reg, line, file) ==
            match EntryMeans(p, reg, line + 1, file)
            case Over(o) => Over(o)
            case Going(reg1, line1) => EntriesMean(entries, reg1, line1, file)
  {
    hide EntryMeans;
    assert ([p] + entries)[1..] == entries;
  }

  lemma NoneIsEligible(r: Registry)
    requires HasCurrent(r) && Current(r).parent == NONE && Eligible(r, NONE)
    ensures Define(r, PARENT, NONE).Changed?
    ensures var r1 := Define(r, PARENT, NONE).reg;
            && HasCurrent(r1) && Current(r1).parent == NONE && r1.id2pattern == r.id2pattern && r1.current == r.current
            && r1.history == r.history + [Assignment(r.current, PARENT, NONE)]
            && forall key :: Attribute(Current(r1), key) == Attribute(Current(r), key)
  {}
}
