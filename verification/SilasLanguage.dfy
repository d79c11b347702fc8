/** The language of Silas configurations, without a parser: a configuration is a model name,
    a list of settings and a list of items, spelled one after the other. The translator
    accepts exactly the spellings of configurations with a known model, with the calls that
    the configuration stands for. */
module SilasLanguage {
  import opened Lr
  import Numbers
  import opened SilasTranslator

  // A number token, whose kind is one of three.
  datatype Figure = Figure(kind: int, text: string)

  datatype Setting =
    | Named(name: string, value: string)
    | AggregateIdle
    | Limit(keyword: int, figure: Figure)

  datatype Item =
    | Balancing(region: string)
    | Cutting(region: string)
    | CuttingMessages
    | CuttingBounded(size: bool, relation: string, bound: string)
    | Scaling(region: string, figure: Figure)

  datatype Configuration = Configuration(model: string, settings: seq<Setting>, items: seq<Item>)

  predicate IsFigure(f: Figure) {
    f.kind == UNSIGNED || f.kind == INTEGER || f.kind == REAL
  }

  predicate IsSetting(s: Setting) {
    s.Limit? ==>
      IsFigure(s.figure) && (s.keyword == NOOP_THRESHOLD || s.keyword == SKIP_THRESHOLD || s.keyword == IDLE_OVERHEAD)
  }

  predicate IsItem(i: Item) {
    i.Scaling? ==> IsFigure(i.figure)
  }

  predicate IsConfiguration(c: Configuration) {
    && (forall i :: 0 <= i < |c.settings| ==> IsSetting(c.settings[i]))
    && (forall i :: 0 <= i < |c.items| ==> IsItem(c.items[i]))
  }

  // --- Spelling --------------------------------------------------------------------------

  // A token that has to be there: of a kind, or with its text.
  datatype Word = Word(kind: int) | Texted(kind: int, text: string)

  function StringWords(s: string): seq<Word> {
    [Word(QUOTE), Texted(STRING, s), Word(QUOTE)]
  }

  function FigureWords(f: Figure): seq<Word> {
    [Texted(f.kind, f.text)]
  }

  function SettingWords(s: Setting): seq<Word> {
    match s
    case Named(name, value) => [Word(OPTION)] + StringWords(name) + StringWords(value)
    case AggregateIdle => [Word(AGGREGATE_IDLE)]
    case Limit(keyword, figure) => [Word(keyword)] + FigureWords(figure)
  }

  function ItemWords(i: Item): seq<Word> {
    match i
    case Balancing(region) => [Word(BALANCE), Word(REGION)] + StringWords(region)
    case Cutting(region) => [Word(CUT), Word(REGION)] + StringWords(region)
    case CuttingMessages => [Word(CUT), Word(MESSAGE)]
    case CuttingBounded(size, relation, bound) =>
      [Word(CUT), Word(MESSAGE), Word(if size then SIZE else TAG), Texted(RELATION, relation), Texted(UNSIGNED, bound)]
    case Scaling(region, figure) => [Word(SCALE), Word(REGION)] + StringWords(region) + FigureWords(figure)
  }

  function SettingsWords(settings: seq<Setting>): seq<Word> {
    if settings == [] then [] else SettingWords(settings[0]) + SettingsWords(settings[1..])
  }

  function ItemsWords(items: seq<Item>): seq<Word> {
    if items == [] then [] else ItemWords(items[0]) + ItemsWords(items[1..])
  }

  function Words(c: Configuration): seq<Word> {
    [Word(MODEL)] + StringWords(c.model) + SettingsWords(c.settings) + ItemsWords(c.items)
  }

  // The input at at starts with these words.
  predicate Spells(at: Progress, words: seq<Word>)
    decreases |words|
  {
    words == [] ||
    (Next(at) == words[0].kind && (words[0].Texted? ==> Text(at) == words[0].text) && Spells(Skip(at), words[1..]))
  }

  function Ahead(at: Progress, n: nat): Progress {
    at.(pos := at.pos + n)
  }

  lemma {:induction false} SpellsSum(at: Progress, a: seq<Word>, b: seq<Word>)
    ensures Spells(at, a + b) <==> Spells(at, a) && Spells(Ahead(at, |a|), b)
    decreases |a|
  {
    if a == [] {
      assert a + b == b && Ahead(at, 0) == at;
    } else {
      assert (a + b)[1..] == a[1..] + b;
      SpellsSum(Skip(at), a[1..], b);
      assert Ahead(Skip(at), |a| - 1) == Ahead(at, |a|);
    }
  }

  // --- Meaning ---------------------------------------------------------------------------

  function SettingCall(s: Setting): Call {
    match s
    case Named(name, value) => if value == "true" then SetFlag(name) else SetOption(name, value)
    case AggregateIdle => SetFlag("aggregate idle")
    case Limit(keyword, figure) =>
      SetOption(if keyword == NOOP_THRESHOLD then "noop threshold"
                else if keyword == SKIP_THRESHOLD then "skip threshold" else "idle overhead", figure.text)
  }

  function ItemCalls(i: Item): seq<Call> {
    match i
    case Balancing(region) => [BalanceRegion(region)]
    case CuttingBounded(size, relation, bound) =>
      [if size then MessageSize(relation, Numbers.ToUnsigned(bound)) else MessageTag(relation, Numbers.ToUnsigned(bound))]
    case Scaling(region, figure) => [ScaleRegion(region, figure.text)]
    case _ => []
  }

  function SettingsCalls(settings: seq<Setting>): seq<Call> {
    if settings == [] then [] else [SettingCall(settings[0])] + SettingsCalls(settings[1..])
  }

  function ItemsCalls(items: seq<Item>): seq<Call> {
    if items == [] then [] else ItemCalls(items[0]) + ItemsCalls(items[1..])
  }

  function Calls(c: Configuration): seq<Call> {
    [CreateModel(c.model)] + SettingsCalls(c.settings) + ItemsCalls(c.items)
  }

  function After(at: Progress, words: seq<Word>, calls: seq<Call>): Progress {
    Ahead(at, |words|).(calls := at.calls + calls)
  }

  // --- One word after the other ----------------------------------------------------------

  lemma SpellsCons(at: Progress, w: Word, rest: seq<Word>)
    ensures Spells(at, [w] + rest) <==>
            Next(at) == w.kind && (w.Texted? ==> Text(at) == w.text) && Spells(Skip(at), rest)
  {
    assert ([w] + rest)[1..] == rest;
  }

  lemma SpellsOne(at: Progress, w: Word)
    ensures Spells(at, [w]) <==> Next(at) == w.kind && (w.Texted? ==> Text(at) == w.text)
  {
    assert [w][1..] == [];
    assert Spells(Skip(at), []);
  }

  // A String is read exactly where it is spelled.
  lemma StringIff(at: Progress, text: string)
    ensures Spells(at, StringWords(text)) <==> String(at) == Read(text, Ahead(at, 3))
    ensures String(at).Read? ==> String(at) == Read(String(at).value, Ahead(at, 3))
  {
    var w := StringWords(text);
    assert w == [Word(QUOTE)] + ([Texted(STRING, text)] + [Word(QUOTE)]);
    SpellsCons(at, Word(QUOTE), [Texted(STRING, text)] + [Word(QUOTE)]);
    SpellsCons(Skip(at), Texted(STRING, text), [Word(QUOTE)]);
    SpellsOne(Skip(Skip(at)), Word(QUOTE));
    hide Spells, Next, Text;
    assert Skip(Skip(Skip(at))) == Ahead(at, 3);
  }

  lemma NumberIff(at: Progress, f: Figure)
    requires IsFigure(f)
    ensures Spells(at, FigureWords(f)) <==> Number(at) == Read(f.text, Ahead(at, 1)) && Next(at) == f.kind
    ensures Number(at).Read? ==>
              Number(at) == Read(Number(at).value, Ahead(at, 1)) && IsFigure(Figure(Next(at), Number(at).value))
  {
    SpellsOne(at, Texted(f.kind, f.text));
    hide Spells, Next, Text;
    assert Skip(at) == Ahead(at, 1);
  }

  // --- Items -----------------------------------------------------------------------------

  // A cut for messages without a bound must not be followed by the start of one.
  predicate Finished(at: Progress, i: Item) {
    i.CuttingMessages? ==> Next(Ahead(at, 2)) != SIZE && Next(Ahead(at, 2)) != TAG
  }

  // The region of an item.
  lemma RegionIff(at: Progress, text: string)
    ensures Spells(at, [Word(REGION)] + StringWords(text)) <==> Region(at) == Read(text, Ahead(at, 4))
    ensures Region(at).Read? ==> Region(at) == Read(Region(at).value, Ahead(at, 4))
  {
    SpellsCons(at, Word(REGION), StringWords(text));
    hide Spells, StringWords, String, Next, Text;
    StringIff(Skip(at), text);
    if String(Skip(at)).Read? {
      StringIff(Skip(at), String(Skip(at)).value);
    }
    assert Ahead(Skip(at), 3) == Ahead(at, 4);
  }

  // An item that is spelled is read, and its calls are made.
  lemma ItemSpelled(at: Progress, i: Item)
    requires IsItem(i) && Spells(at, ItemWords(i)) && Finished(at, i)
    ensures Items(at) == Items(After(at, ItemWords(i), ItemCalls(i)))
    ensures Next(at) == BALANCE || Next(at) == CUT || Next(at) == SCALE
  {
    match i
    case Balancing(region) => BalanceSpelled(at, region);
    case Cutting(region) => CutSpelled(at, region);
    case CuttingMessages => MessagesSpelled(at);
    case CuttingBounded(size, relation, bound) => BoundSpelled(at, size, relation, bound);
    case Scaling(region, figure) => ScaleSpelled(at, region, figure);
  }

  lemma BalanceSpelled(at: Progress, region: string)
    requires Spells(at, ItemWords(Balancing(region)))
    ensures Next(at) == BALANCE
    ensures Items(at) == Items(After(at, ItemWords(Balancing(region)), ItemCalls(Balancing(region))))
  {
    var r := [Word(REGION)] + StringWords(region);
    assert ItemWords(Balancing(region)) == [Word(BALANCE)] + r;
    SpellsCons(at, Word(BALANCE), r);
    RegionIff(Skip(at), region);
    hide Spells, Region, Next;
    assert Ahead(Skip(at), 4) == Ahead(at, 5);
    assert Items(at) == Balance(Skip(at));
    assert After(at, ItemWords(Balancing(region)), [BalanceRegion(region)]) == Do(Ahead(at, 5), BalanceRegion(region));
  }

  lemma CutSpelled(at: Progress, region: string)
    requires Spells(at, ItemWords(Cutting(region)))
    ensures Next(at) == CUT
    ensures Items(at) == Items(After(at, ItemWords(Cutting(region)), ItemCalls(Cutting(region))))
  {
    var r := [Word(REGION)] + StringWords(region);
    assert ItemWords(Cutting(region)) == [Word(CUT)] + r;
    SpellsCons(at, Word(CUT), r);
    SpellsCons(Skip(at), Word(REGION), StringWords(region));
    RegionIff(Skip(at), region);
    hide Spells, Region, Next;
    assert Ahead(Skip(at), 4) == Ahead(at, 5);
    assert Items(at) == Cut(Skip(at));
    assert After(at, ItemWords(Cutting(region)), []) == Ahead(at, 5);
  }

  lemma MessagesSpelled(at: Progress)
    requires Spells(at, ItemWords(CuttingMessages)) && Finished(at, CuttingMessages)
    ensures Next(at) == CUT
    ensures Items(at) == Items(After(at, ItemWords(CuttingMessages), ItemCalls(CuttingMessages)))
  {
    assert ItemWords(CuttingMessages) == [Word(CUT)] + [Word(MESSAGE)];
    SpellsCons(at, Word(CUT), [Word(MESSAGE)]);
    SpellsOne(Skip(at), Word(MESSAGE));
    hide Spells, Next;
    assert Skip(Skip(at)) == Ahead(at, 2);
    assert Items(at) == Cut(Skip(at)) == CutMessage(Ahead(at, 2));
    assert After(at, ItemWords(CuttingMessages), []) == Ahead(at, 2);
  }

  lemma BoundSpelled(at: Progress, size: bool, relation: string, bound: string)
    requires Spells(at, ItemWords(CuttingBounded(size, relation, bound)))
    ensures Next(at) == CUT
    ensures var i := CuttingBounded(size, relation, bound); Items(at) == Items(After(at, ItemWords(i), ItemCalls(i)))
  {
    var i := CuttingBounded(size, relation, bound);
    BoundIff(at, size, relation, bound);
    hide Spells, Next, Text;
    assert Items(at) == Cut(Skip(at)) == CutMessage(Ahead(at, 2));
    assert CutMessage(Ahead(at, 2)) == MessageRelation(size, Ahead(at, 3));
    assert Skip(Ahead(at, 3)) == Ahead(at, 4) && Skip(Ahead(at, 4)) == Ahead(at, 5);
    assert MessageRelation(size, Ahead(at, 3)) == Bound(size, relation, Ahead(at, 4));
    assert Bound(size, relation, Ahead(at, 4)) == ItemsAfter(Ahead(at, 5), MessageBound(size, relation, bound));
    assert After(at, ItemWords(i), ItemCalls(i)) == Do(Ahead(at, 5), MessageBound(size, relation, bound));
  }

  lemma BoundIff(at: Progress, size: bool, relation: string, bound: string)
    ensures Spells(at, ItemWords(CuttingBounded(size, relation, bound))) <==>
            && Next(at) == CUT && Next(Ahead(at, 1)) == MESSAGE && Next(Ahead(at, 2)) == (if size then SIZE else TAG)
            && Next(Ahead(at, 3)) == RELATION && Text(Ahead(at, 3)) == relation
            && Next(Ahead(at, 4)) == UNSIGNED && Text(Ahead(at, 4)) == bound
  {
    var w3, w4 := Texted(RELATION, relation), Texted(UNSIGNED, bound);
    var w2 := Word(if size then SIZE else TAG);
    assert ItemWords(CuttingBounded(size, relation, bound)) ==
           [Word(CUT)] + ([Word(MESSAGE)] + ([w2] + ([w3] + [w4])));
    SpellsCons(at, Word(CUT), [Word(MESSAGE)] + ([w2] + ([w3] + [w4])));
    SpellsCons(Ahead(at, 1), Word(MESSAGE), [w2] + ([w3] + [w4]));
    SpellsCons(Ahead(at, 2), w2, [w3] + [w4]);
    SpellsCons(Ahead(at, 3), w3, [w4]);
    SpellsOne(Ahead(at, 4), w4);
  }

  lemma ScaleSpelled(at: Progress, region: string, figure: Figure)
    requires IsFigure(figure) && Spells(at, ItemWords(Scaling(region, figure)))
    ensures Next(at) == SCALE
    ensures var i := Scaling(region, figure); Items(at) == Items(After(at, ItemWords(i), ItemCalls(i)))
  {
    var i := Scaling(region, figure);
    ScaleIff(at, region, figure);
    hide Spells, Next, Text, Region, Number;
    assert Items(at) == Scale(Skip(at)) == ScaleFactor(region, Ahead(at, 5));
    assert ScaleFactor(region, Ahead(at, 5)) == ItemsAfter(Ahead(at, 6), ScaleRegion(region, figure.text));
    assert |ItemWords(i)| == 6;
    assert After(at, ItemWords(i), ItemCalls(i)) == Do(Ahead(at, 6), ScaleRegion(region, figure.text));
  }

  lemma ScaleIff(at: Progress, region: string, figure: Figure)
    requires IsFigure(figure)
    ensures Spells(at, ItemWords(Scaling(region, figure))) <==>
            && Next(at) == SCALE && Region(Skip(at)) == Read(region, Ahead(at, 5))
            && Number(Ahead(at, 5)) == Read(figure.text, Ahead(at, 6)) && Next(Ahead(at, 5)) == figure.kind
  {
    var r := [Word(REGION)] + StringWords(region);
    var f := FigureWords(figure);
    assert ItemWords(Scaling(region, figure)) == [Word(SCALE)] + (r + f);
    SpellsCons(at, Word(SCALE), r + f);
    SpellsSum(Skip(at), r, f);
    RegionIff(Skip(at), region);
    hide Spells, Region, Next, Number;
    assert Ahead(Skip(at), 4) == Ahead(at, 5);
    NumberIff(Ahead(at, 5), figure);
    assert Ahead(Ahead(at, 5), 1) == Ahead(at, 6);
  }

  // What is read as an item is one that is spelled there.
  lemma ItemRead(at: Progress) returns (i: Item)
    requires Items(at).Accepted? && Next(at) != END
    ensures IsItem(i) && Spells(at, ItemWords(i)) && Finished(at, i)
  {
    if Next(at) == CUT && Next(Skip(at)) == MESSAGE {
      i := MessageRead(at);
    } else if Next(at) == SCALE {
      i := ScaleRead(at);
    } else {
      i := RegionRead(at);
    }
  }

  lemma RegionRead(at: Progress) returns (i: Item)
    requires Items(at).Accepted? && Next(at) != END && Next(at) != SCALE && (Next(at) == CUT ==> Next(Skip(at)) != MESSAGE)
    ensures IsItem(i) && Spells(at, ItemWords(i)) && Finished(at, i)
  {
    assert Next(at) == BALANCE ==> Items(at) == Balance(Skip(at));
    assert Next(at) == CUT ==> Items(at) == Cut(Skip(at));
    assert Region(Skip(at)).Read?;
    var region := Region(Skip(at)).value;
    RegionIff(Skip(at), region);
    var r := [Word(REGION)] + StringWords(region);
    i := if Next(at) == BALANCE then Balancing(region) else Cutting(region);
    SpellsCons(at, Word(Next(at)), r);
    assert ItemWords(i) == [Word(Next(at))] + r;
  }

  lemma MessageRead(at: Progress) returns (i: Item)
    requires Items(at).Accepted? && Next(at) == CUT && Next(Skip(at)) == MESSAGE
    ensures IsItem(i) && Spells(at, ItemWords(i)) && Finished(at, i)
  {
    var at2 := Ahead(at, 2);
    assert Skip(Skip(at)) == at2;
    assert Items(at) == Cut(Skip(at)) == CutMessage(at2);
    if Next(at2) == SIZE || Next(at2) == TAG {
      var size := Next(at2) == SIZE;
      assert CutMessage(at2) == MessageRelation(size, Ahead(at, 3));
      assert Next(Ahead(at, 3)) == RELATION && Skip(Ahead(at, 3)) == Ahead(at, 4);
      assert MessageRelation(size, Ahead(at, 3)) == Bound(size, Text(Ahead(at, 3)), Ahead(at, 4));
      assert Next(Ahead(at, 4)) == UNSIGNED;
      i := CuttingBounded(size, Text(Ahead(at, 3)), Text(Ahead(at, 4)));
      BoundIff(at, size, Text(Ahead(at, 3)), Text(Ahead(at, 4)));
    } else {
      i := CuttingMessages;
      assert ItemWords(i) == [Word(CUT)] + [Word(MESSAGE)];
      SpellsCons(at, Word(CUT), [Word(MESSAGE)]);
      SpellsOne(Skip(at), Word(MESSAGE));
    }
  }

  lemma ScaleRead(at: Progress) returns (i: Item)
    requires Items(at).Accepted? && Next(at) == SCALE
    ensures IsItem(i) && Spells(at, ItemWords(i)) && Finished(at, i)
  {
    assert Items(at) == Scale(Skip(at));
    var region := Region(Skip(at)).value;
    RegionIff(Skip(at), region);
    assert Ahead(Skip(at), 4) == Ahead(at, 5);
    var at5 := Ahead(at, 5);
    assert Scale(Skip(at)) == ScaleFactor(region, at5);
    var figure := Figure(Next(at5), Number(at5).value);
    assert IsFigure(figure) by {
      NumberIff(at5, Figure(UNSIGNED, ""));
    }
    NumberIff(at5, figure);
    assert Ahead(at5, 1) == Ahead(at, 6);
    ScaleIff(at, region, figure);
    i := Scaling(region, figure);
  }

  lemma ItemsSplit(at: Progress, items: seq<Item>)
    requires items != []
    ensures Spells(at, ItemsWords(items) + [Word(END)]) <==>
            && Spells(at, ItemWords(items[0]))
            && Spells(Ahead(at, |ItemWords(items[0])|), ItemsWords(items[1..]) + [Word(END)])
  {
    var w := ItemWords(items[0]);
    assert ItemsWords(items) + [Word(END)] == w + (ItemsWords(items[1..]) + [Word(END)]);
    SpellsSum(at, w, ItemsWords(items[1..]) + [Word(END)]);
  }

  // Spelling depends on the input and the position alone.
  lemma {:induction false} SpellsAnyway(at: Progress, words: seq<Word>, calls: seq<Call>)
    ensures Spells(at.(calls := calls), words) <==> Spells(at, words)
    decreases |words|
  {
    if words != [] {
      SpellsAnyway(Skip(at), words[1..], calls);
    }
  }

  lemma ItemFirst(at: Progress, i: Item)
    requires Spells(at, ItemWords(i))
    ensures Next(at) == BALANCE || Next(at) == CUT || Next(at) == SCALE
  {
    var w := ItemWords(i);
    assert w[0] == Word(BALANCE) || w[0] == Word(CUT) || w[0] == Word(SCALE);
    hide ItemWords, Next;
    assert w != [];
  }

  lemma FirstOfItems(at: Progress, items: seq<Item>)
    requires Spells(at, ItemsWords(items) + [Word(END)])
    ensures Next(at) != SIZE && Next(at) != TAG
    ensures items == [] <==> Next(at) == END
    ensures items != [] ==> Next(at) == BALANCE || Next(at) == CUT || Next(at) == SCALE
  {
    hide Next, ItemWords;
    if items == [] {
      SpellsOne(at, Word(END));
      assert ItemsWords(items) + [Word(END)] == [Word(END)];
    } else {
      ItemsSplit(at, items);
      ItemFirst(at, items[0]);
    }
  }

  lemma ItemsStep(at: Progress, items: seq<Item>)
    requires items != [] && IsItem(items[0]) && Spells(at, ItemsWords(items) + [Word(END)])
    ensures var at1 := After(at, ItemWords(items[0]), ItemCalls(items[0]));
            Items(at) == Items(at1) && Spells(at1, ItemsWords(items[1..]) + [Word(END)])
  {
    var i, w := items[0], ItemWords(items[0]);
    ItemsSplit(at, items);
    FirstOfItems(Ahead(at, |w|), items[1..]);
    hide Spells, Items, Next, ItemsWords;
    assert |ItemWords(CuttingMessages)| == 2;
    ItemSpelled(at, i);
    SpellsAnyway(Ahead(at, |w|), ItemsWords(items[1..]) + [Word(END)], at.calls + ItemCalls(i));
  }

  // A spelled list of items is read to its end.
  lemma {:induction false} ItemsSpelled(at: Progress, items: seq<Item>)
    requires Spells(at, ItemsWords(items) + [Word(END)]) && forall i :: 0 <= i < |items| ==> IsItem(items[i])
    ensures Items(at) == Accepted(at.calls + ItemsCalls(items))
    decreases |items|
  {
    if items == [] {
      NoItems(at);
    } else {
      hide Spells, Items, Next, ItemsWords, ItemWords, ItemCalls, IsItem;
      ItemsStep(at, items);
      var at1 := After(at, ItemWords(items[0]), ItemCalls(items[0]));
      ItemsSpelled(at1, items[1..]);
      Regroup(at.calls, ItemCalls(items[0]), ItemsCalls(items[1..]));
    }
  }

  lemma NoItems(at: Progress)
    requires Spells(at, ItemsWords([]) + [Word(END)])
    ensures Items(at) == Accepted(at.calls + ItemsCalls([]))
  {
    FirstOfItems(at, []);
    assert at.calls + [] == at.calls;
  }

  lemma Regroup<T>(a: seq<T>, b: seq<T>, c: seq<T>)
    ensures (a + b) + c == a + (b + c)
  {}

  // A list of items that is read is one that is spelled there.
  lemma {:induction false} ItemsRead(at: Progress) returns (items: seq<Item>)
    requires Items(at).Accepted?
    ensures Spells(at, ItemsWords(items) + [Word(END)]) && forall i :: 0 <= i < |items| ==> IsItem(items[i])
    decreases at.Left()
  {
    if Next(at) == END {
      items := [];
      SpellsOne(at, Word(END));
      assert ItemsWords(items) + [Word(END)] == [Word(END)];
    } else {
      var i := ItemRead(at);
      ItemSpelled(at, i);
      var at1 := After(at, ItemWords(i), ItemCalls(i));
      var rest := ItemsRead(at1);
      SpellsAnyway(Ahead(at, |ItemWords(i)|), ItemsWords(rest) + [Word(END)], at1.calls);
      items := [i] + rest;
      assert items[1..] == rest;
      ItemsSplit(at, items);
    }
  }

  // --- Settings --------------------------------------------------------------------------

  predicate StartsSetting(kind: int) {
    || kind == OPTION || kind == AGGREGATE_IDLE || kind == NOOP_THRESHOLD || kind == SKIP_THRESHOLD
    || kind == IDLE_OVERHEAD
  }

  lemma NamedIff(at: Progress, name: string, value: string)
    ensures Spells(at, SettingWords(Named(name, value))) <==>
            && Next(at) == OPTION && String(Skip(at)) == Read(name, Ahead(at, 4))
            && String(Ahead(at, 4)) == Read(value, Ahead(at, 7))
  {
    var n, v := StringWords(name), StringWords(value);
    assert SettingWords(Named(name, value)) == [Word(OPTION)] + (n + v);
    SpellsCons(at, Word(OPTION), n + v);
    SpellsSum(Skip(at), n, v);
    StringIff(Skip(at), name);
    StringIff(Ahead(at, 4), value);
    assert Ahead(Skip(at), 3) == Ahead(at, 4) && Ahead(Ahead(at, 4), 3) == Ahead(at, 7);
  }

  lemma LimitIff(at: Progress, keyword: int, figure: Figure)
    requires IsFigure(figure)
    ensures Spells(at, SettingWords(Limit(keyword, figure))) <==>
            Next(at) == keyword && Number(Skip(at)) == Read(figure.text, Ahead(at, 2)) && Next(Skip(at)) == figure.kind
  {
    var f := FigureWords(figure);
    assert SettingWords(Limit(keyword, figure)) == [Word(keyword)] + f;
    SpellsCons(at, Word(keyword), f);
    NumberIff(Skip(at), figure);
    assert Ahead(Skip(at), 1) == Ahead(at, 2);
  }

  lemma IdleIff(at: Progress)
    ensures Spells(at, SettingWords(AggregateIdle)) <==> Next(at) == AGGREGATE_IDLE
  {
    SpellsOne(at, Word(AGGREGATE_IDLE));
  }

  // A setting that is spelled is read, and its call is made.
  lemma SettingSpelled(at: Progress, s: Setting)
    requires IsSetting(s) && Spells(at, SettingWords(s))
    ensures StartsSetting(Next(at))
    ensures Options(at) == Options(After(at, SettingWords(s), [SettingCall(s)]))
  {
    match s
    case Named(name, value) =>
      NamedIff(at, name, value);
      hide Spells, String;
      assert Options(at) == NamedOption(Skip(at)) == OptionSetting(name, Ahead(at, 4));
      assert OptionSetting(name, Ahead(at, 4)) == OptionsAfter(Ahead(at, 7), OptionCall(name, value));
      assert After(at, SettingWords(s), [SettingCall(s)]) == Do(Ahead(at, 7), OptionCall(name, value));
    case AggregateIdle =>
      IdleIff(at);
      assert After(at, SettingWords(s), [SettingCall(s)]) == Do(Skip(at), SetFlag("aggregate idle"));
    case Limit(keyword, figure) =>
      LimitSpelled(at, keyword, figure);
  }

  lemma LimitSpelled(at: Progress, keyword: int, figure: Figure)
    requires IsSetting(Limit(keyword, figure)) && Spells(at, SettingWords(Limit(keyword, figure)))
    ensures StartsSetting(Next(at))
    ensures var s := Limit(keyword, figure); Options(at) == Options(After(at, SettingWords(s), [SettingCall(s)]))
  {
    LimitIff(at, keyword, figure);
    hide Spells, Number;
    var name := if keyword == NOOP_THRESHOLD then "noop threshold"
                else if keyword == SKIP_THRESHOLD then "skip threshold" else "idle overhead";
    assert Options(at) == Threshold(name, Skip(at));
    assert Threshold(name, Skip(at)) == OptionsAfter(Ahead(at, 2), SetOption(name, figure.text));
    var s := Limit(keyword, figure);
    assert After(at, SettingWords(s), [SettingCall(s)]) == Do(Ahead(at, 2), SetOption(name, figure.text));
  }

  // What is read as a setting is one that is spelled there.
  lemma SettingRead(at: Progress) returns (s: Setting)
    requires Options(at).Accepted? && StartsSetting(Next(at))
    ensures IsSetting(s) && Spells(at, SettingWords(s))
  {
    if Next(at) == OPTION {
      s := NamedRead(at);
    } else if Next(at) == AGGREGATE_IDLE {
      s := AggregateIdle;
      IdleIff(at);
    } else {
      assert Number(Skip(at)).Read?;
      NumberIff(Skip(at), Figure(UNSIGNED, ""));
      var figure := Figure(Next(Skip(at)), Number(Skip(at)).value);
      NumberIff(Skip(at), figure);
      assert Ahead(Skip(at), 1) == Ahead(at, 2);
      s := Limit(Next(at), figure);
      LimitIff(at, Next(at), figure);
    }
  }

  lemma NamedRead(at: Progress) returns (s: Setting)
    requires Options(at).Accepted? && Next(at) == OPTION
    ensures IsSetting(s) && Spells(at, SettingWords(s))
  {
    assert Options(at) == NamedOption(Skip(at));
    assert String(Skip(at)).Read?;
    var name := String(Skip(at)).value;
    StringIff(Skip(at), name);
    assert Ahead(Skip(at), 3) == Ahead(at, 4);
    assert NamedOption(Skip(at)) == OptionSetting(name, Ahead(at, 4));
    assert String(Ahead(at, 4)).Read?;
    var value := String(Ahead(at, 4)).value;
    StringIff(Ahead(at, 4), value);
    assert Ahead(Ahead(at, 4), 3) == Ahead(at, 7);
    s := Named(name, value);
    NamedIff(at, name, value);
  }

  // --- Configurations --------------------------------------------------------------------

  function Tail(settings: seq<Setting>, items: seq<Item>): seq<Word> {
    SettingsWords(settings) + (ItemsWords(items) + [Word(END)])
  }

  lemma TailSplit(at: Progress, settings: seq<Setting>, items: seq<Item>)
    requires settings != []
    ensures Spells(at, Tail(settings, items)) <==>
            && Spells(at, SettingWords(settings[0]))
            && Spells(Ahead(at, |SettingWords(settings[0])|), Tail(settings[1..], items))
  {
    var w := SettingWords(settings[0]);
    assert Tail(settings, items) == w + Tail(settings[1..], items);
    SpellsSum(at, w, Tail(settings[1..], items));
  }

  // Settings and items that are spelled are read to the end.
  lemma {:induction false} TailSpelled(at: Progress, settings: seq<Setting>, items: seq<Item>)
    requires Spells(at, Tail(settings, items))
    requires forall i :: 0 <= i < |settings| ==> IsSetting(settings[i])
    requires forall i :: 0 <= i < |items| ==> IsItem(items[i])
    ensures Options(at) == Accepted(at.calls + SettingsCalls(settings) + ItemsCalls(items))
    decreases |settings|
  {
    if settings == [] {
      NoSettings(at, items);
    } else {
      var s := settings[0];
      var w := SettingWords(s);
      TailSplit(at, settings, items);
      hide Spells, Options, Next, SettingWords, SettingCall, IsSetting, IsItem, Tail, ItemsCalls;
      SettingSpelled(at, s);
      var at1 := After(at, w, [SettingCall(s)]);
      SpellsAnyway(Ahead(at, |w|), Tail(settings[1..], items), at1.calls);
      TailSpelled(at1, settings[1..], items);
      Regroup(at.calls, [SettingCall(s)], SettingsCalls(settings[1..]));
    }
  }

  lemma NoSettings(at: Progress, items: seq<Item>)
    requires Spells(at, Tail([], items)) && forall i :: 0 <= i < |items| ==> IsItem(items[i])
    ensures Options(at) == Accepted(at.calls + [] + ItemsCalls(items))
  {
    TailOfItems(items);
    hide Spells, Items, Options, Next, ItemsWords, ItemsCalls, Tail, IsItem;
    FirstOfItems(at, items);
    ItemsSpelled(at, items);
    NoSetting(at);
    assert at.calls + [] == at.calls;
  }

  lemma TailOfItems(items: seq<Item>)
    ensures Tail([], items) == ItemsWords(items) + [Word(END)]
  {}

  lemma NoSetting(at: Progress)
    requires !StartsSetting(Next(at))
    ensures Options(at) == Items(at)
  {}

  // What is read as settings and items is spelled there.
  lemma {:induction false} TailRead(at: Progress) returns (settings: seq<Setting>, items: seq<Item>)
    requires Options(at).Accepted?
    ensures Spells(at, Tail(settings, items))
    ensures forall i :: 0 <= i < |settings| ==> IsSetting(settings[i])
    ensures forall i :: 0 <= i < |items| ==> IsItem(items[i])
    decreases at.Left()
  {
    if StartsSetting(Next(at)) {
      var s := SettingRead(at);
      SettingSpelled(at, s);
      var at1 := After(at, SettingWords(s), [SettingCall(s)]);
      var rest;
      rest, items := TailRead(at1);
      SpellsAnyway(Ahead(at, |SettingWords(s)|), Tail(rest, items), at1.calls);
      settings := [s] + rest;
      assert settings[1..] == rest;
      TailSplit(at, settings, items);
    } else {
      assert Options(at) == Items(at);
      settings := [];
      items := ItemsRead(at);
      assert Tail([], items) == ItemsWords(items) + [Word(END)];
    }
  }

  lemma WordsSplit(at: Progress, c: Configuration)
    ensures Spells(at, Words(c) + [Word(END)]) <==>
            && Next(at) == MODEL && String(Skip(at)) == Read(c.model, Ahead(at, 4))
            && Spells(Ahead(at, 4), Tail(c.settings, c.items))
  {
    var tail := Tail(c.settings, c.items);
    assert Words(c) + [Word(END)] == [Word(MODEL)] + (StringWords(c.model) + tail);
    SpellsCons(at, Word(MODEL), StringWords(c.model) + tail);
    SpellsSum(Skip(at), StringWords(c.model), tail);
    StringIff(Skip(at), c.model);
    assert Ahead(Skip(at), 3) == Ahead(at, 4);
  }

  // A spelled configuration is translated to its calls, if its model is known.
  lemma Translates(known: set<string>, tokens: seq<Token>, c: Configuration)
    requires IsConfiguration(c) && Spells(Progress(tokens, 0, []), Words(c) + [Word(END)])
    ensures Translation(known, tokens) ==
            if c.model in known then Accepted(Calls(c)) else Rejected([CreateModel(c.model)], UndefinedModel)
  {
    var at := Progress(tokens, 0, []);
    WordsSplit(at, c);
    var at1 := Ahead(at, 4);
    ModelRead(known, at, c.model);
    hide Spells, String, Options, Next, Config, Tail, SettingsCalls, ItemsCalls;
    var at2 := Do(at1, CreateModel(c.model));
    assert at2.calls == [CreateModel(c.model)];
    if c.model in known {
      SpellsAnyway(at1, Tail(c.settings, c.items), at2.calls);
      TailSpelled(at2, c.settings, c.items);
    }
  }

  lemma ModelRead(known: set<string>, at: Progress, name: string)
    requires Next(at) == MODEL && String(Skip(at)) == Read(name, Ahead(at, 4))
    ensures Config(known, at) == Model(known, name, Ahead(at, 4))
  {
    hide Model, Next, String;
    assert Config(known, at) == ModelName(known, Skip(at));
  }

  // The translator, and so the parser, accepts exactly the spellings of configurations with
  // a known model, and makes their calls.
  lemma AcceptsIff(known: set<string>, tokens: seq<Token>, calls: seq<Call>)
    ensures Translation(known, tokens) == Accepted(calls) <==>
            exists c :: && IsConfiguration(c) && c.model in known && calls == Calls(c)
                        && Spells(Progress(tokens, 0, []), Words(c) + [Word(END)])
  {
    var at := Progress(tokens, 0, []);
    if Translation(known, tokens) == Accepted(calls) {
      var c := ConfigurationRead(known, tokens);
      Translates(known, tokens, c);
      hide Spells, Translation, IsConfiguration, Calls, Words;
      assert IsConfiguration(c) && c.model in known && calls == Calls(c) && Spells(at, Words(c) + [Word(END)]);
    } else {
      forall c | IsConfiguration(c) && c.model in known && Spells(at, Words(c) + [Word(END)])
        ensures calls != Calls(c)
      {
        Translates(known, tokens, c);
      }
    }
  }

  lemma ConfigurationRead(known: set<string>, tokens: seq<Token>) returns (c: Configuration)
    requires Translation(known, tokens).Accepted?
    ensures IsConfiguration(c) && c.model in known && Spells(Progress(tokens, 0, []), Words(c) + [Word(END)])
  {
    var at := Progress(tokens, 0, []);
    assert String(Skip(at)).Read?;
    var name := String(Skip(at)).value;
    StringIff(Skip(at), name);
    var at1 := Ahead(at, 4);
    assert Ahead(Skip(at), 3) == at1;
    hide String, Options, Next;
    assert Config(known, at) == Model(known, name, at1);
    var at2 := Do(at1, CreateModel(name));
    var settings, items := TailRead(at2);
    SpellsAnyway(at1, Tail(settings, items), at2.calls);
    c := Configuration(name, settings, items);
    WordsSplit(at, c);
  }
}
