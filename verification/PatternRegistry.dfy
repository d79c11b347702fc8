/** The patterns that a description file defines: the semantic actions of the Scout parser
    on the pattern list, and what every sequence of them keeps. */
module PatternRegistry {
  // Terminal symbols of the grammar that name a part of a pattern, numbered as in the
  // parser's tables.
  const CLASS := 6
  const CLEANUP := 7
  const CONDITION := 8
  const DATA := 9
  const DESCR := 10
  const DOCNAME := 11
  const DIAGNOSIS := 12
  const HIDDEN := 13
  const INFO := 15
  const INIT := 16
  const MODE := 17
  const NAME := 18
  const NODOCS := 19
  const PARENT := 20
  const STATICINIT := 23
  const TYPE := 24
  const UNIT := 25

  const NONE := "NONE"

  datatype Pattern = Pattern(
    id: string, parent: string, kind: string, hidden: bool, nodocs: bool,
    texts: map<int, string>,          // the other attributes that are not empty
    callbacks: map<string, string>,   // event_group -> code
    groups: map<string, seq<string>>) // group -> events

  function NewPattern(id: string): Pattern {
    Pattern(id, NONE, "Generic", false, false, map[], map[], map[])
  }

  function Attribute(p: Pattern, key: int): string {
    if key in p.texts then p.texts[key] else ""
  }

  // An execution of one of the rules 32 to 48.
  datatype Assignment = Assignment(pattern: int, key: int, text: string)

  // An execution of rule 55, and the executions of that rule and of rule 9.
  datatype Call = Call(pattern: int, event: string, group: string, code: string)

  datatype Log = Log(calls: seq<Call>, prologs: seq<string>)

  // The global variables that the actions work on; current is an index into pattern, or
  // -1 for no pattern. The history and the log are no variables of the program: they record
  // attributes, callbacks and prologs as they are defined.
  datatype Registry = Registry(
    prolog: string, pattern: seq<Pattern>, id2pattern: map<string, nat>, current: int,
    callbackgroup: string, codeLine: int, history: seq<Assignment>, log: Log)

  const EMPTY := Registry("", [], map[], -1, "", 0, [], Log([], []))

  datatype Complaint =
    | BadSyntax | BadString | StackExhausted | NoCurrentPattern
    | NestedInclude | NoSuchFile | PatternDefined(id: string) | Incomplete(missing: int)
    | OnlyOne(key: int) | UnknownPattern(id: string) | OwnParent | UnknownType(name: string)
    | UnknownMode(name: string) | CallbackDefined(event: string) | CodeInFirstLine

  // What an action does: new values of the globals, or a call of yyerror.
  datatype Change = Changed(reg: Registry) | Refused(why: Complaint)

  predicate HasCurrent(reg: Registry) {
    0 <= reg.current < |reg.pattern|
  }

  function Current(reg: Registry): Pattern
    requires HasCurrent(reg)
  {
    reg.pattern[reg.current]
  }

  function Replace(reg: Registry, p: Pattern): Registry
    requires HasCurrent(reg)
  {
    reg.(pattern := reg.pattern[reg.current := p])
  }

  // Rule 9: several prologs are separated by empty lines.
  function AddProlog(reg: Registry, code: string): Registry {
    reg.(prolog := (if reg.prolog == "" then "" else reg.prolog + "\n\n") + code,
         log := reg.log.(prologs := reg.log.prologs + [code]))
  }

  // Rule 10
  function Enter(reg: Registry, id: string): Change {
    if id in reg.id2pattern then Refused(PatternDefined(id))
    else Changed(reg.(pattern := reg.pattern + [NewPattern(id)],
                      id2pattern := reg.id2pattern[id := |reg.pattern|], current := |reg.pattern|))
  }

  // Rule 11: the first attribute that is missing.
  function Leave(reg: Registry): Change {
    if !HasCurrent(reg) then Refused(NoCurrentPattern)
    else
      var p := Current(reg);
      if Attribute(p, NAME) == "" then Refused(Incomplete(NAME))
      else if Attribute(p, CLASS) == "" then Refused(Incomplete(CLASS))
      else if Attribute(p, INFO) == "" then Refused(Incomplete(INFO))
      else if Attribute(p, UNIT) == "" then Refused(Incomplete(UNIT))
      else if Attribute(p, MODE) == "" then Refused(Incomplete(MODE))
      else Changed(reg)
  }

  predicate KnownType(name: string) {
    || name == "MPI" || name == "MPIDEP" || name == "MPI_RMA" || name == "OMP" || name == "OMPDEP"
    || name == "PTHREAD" || name == "Generic"
  }

  // The current pattern after a definition, which is recorded.
  function Defined(reg: Registry, p: Pattern, key: int, text: string): Registry
    requires HasCurrent(reg)
  {
    Replace(reg, p).(history := reg.history + [Assignment(reg.current, key, text)])
  }

  // Rules 32 to 48, told apart by their keyword.
  function Define(reg: Registry, key: int, text: string): Change {
    if !HasCurrent(reg) then Refused(NoCurrentPattern)
    else
      var p := Current(reg);
      match key
      case 20 => DefineParent(reg, text)
      case 24 => if KnownType(text) then Changed(Defined(reg, p.(kind := text), key, text)) else Refused(UnknownType(text))
      case 13 => Changed(Defined(reg, p.(hidden := true), key, text))
      case 19 => Changed(Defined(reg, p.(nodocs := true), key, text))
      case 11 => Changed(Defined(reg, p.(texts := p.texts[key := text]), key, text))
      case _ =>
        if Attribute(p, key) != "" then Refused(OnlyOne(key))
        else if key == MODE && text != "inclusive" && text != "exclusive" then Refused(UnknownMode(text))
        else Changed(Defined(reg, p.(texts := p.texts[key := text]), key, text))
  }

  // Rule 35: comparing the pointers decides whether a pattern is its own parent.
  function DefineParent(reg: Registry, id: string): Change
    requires HasCurrent(reg)
  {
    if Current(reg).parent != NONE then Refused(OnlyOne(PARENT))
    else if id !in reg.id2pattern then Refused(UnknownPattern(id))
    else if reg.id2pattern[id] == reg.current then Refused(OwnParent)
    else Changed(Defined(reg, Current(reg).(parent := id), PARENT, id))
  }

  function Callback(event: string, group: string): string {
    event + "_" + group
  }

  // Rule 55
  function AddCallback(reg: Registry, event: string, code: string): Change {
    if !HasCurrent(reg) then Refused(NoCurrentPattern)
    else
      var p, group := Current(reg), reg.callbackgroup;
      if Callback(event, group) in p.callbacks then Refused(CallbackDefined(event))
      else Changed(Replace(reg, p.(
             callbacks := p.callbacks[Callback(event, group) := code],
             groups := p.groups[group := (if group in p.groups then p.groups[group] else []) + [event]])).(
             log := reg.log.(calls := reg.log.calls + [Call(reg.current, event, group, code)])))
  }

  // --- What every sequence of actions keeps --------------------------------------------

  // pattern and id2pattern describe the same patterns, with different ids.
  ghost predicate Indexed(reg: Registry) {
    && (forall i :: 0 <= i < |reg.pattern| ==>
          reg.pattern[i].id in reg.id2pattern && reg.id2pattern[reg.pattern[i].id] == i)
    && (forall id :: id in reg.id2pattern ==>
          reg.id2pattern[id] < |reg.pattern| && reg.pattern[reg.id2pattern[id]].id == id)
  }

  predicate HasParent(reg: Registry, i: nat)
    requires i < |reg.pattern|
  {
    reg.pattern[i].parent != NONE
  }

  // The parent of a pattern is a pattern that was defined before.
  ghost predicate Grown(reg: Registry) {
    forall i :: 0 <= i < |reg.pattern| && HasParent(reg, i) ==>
      reg.pattern[i].parent in reg.id2pattern && reg.id2pattern[reg.pattern[i].parent] < i
  }

  ghost predicate Forest(reg: Registry) {
    Indexed(reg) && Grown(reg) && reg.current == |reg.pattern| - 1
  }

  // The same patterns, apart from attributes that are neither id nor parent.
  predicate SameTree(a: Registry, b: Registry) {
    && |a.pattern| == |b.pattern| && a.id2pattern == b.id2pattern && a.current == b.current
    && forall i :: 0 <= i < |a.pattern| ==> a.pattern[i].id == b.pattern[i].id && a.pattern[i].parent == b.pattern[i].parent
  }

  lemma SameTreeKeeps(a: Registry, b: Registry)
    requires Forest(a) && SameTree(a, b)
    ensures Forest(b) && HasCurrent(a) == HasCurrent(b)
  {
    assert forall i :: 0 <= i < |b.pattern| ==> HasParent(b, i) == HasParent(a, i);
  }

  lemma EnterKeeps(reg: Registry, id: string)
    requires Forest(reg) && Enter(reg, id).Changed?
    ensures Forest(Enter(reg, id).reg) && HasCurrent(Enter(reg, id).reg)
  {
    var r := Enter(reg, id).reg;
    forall i | 0 <= i < |r.pattern| && HasParent(r, i)
      ensures r.pattern[i].parent in r.id2pattern && r.id2pattern[r.pattern[i].parent] < i
    {
      assert i < |reg.pattern| && HasParent(reg, i);
    }
  }

  lemma ParentKeeps(reg: Registry, id: string)
    requires Forest(reg) && HasCurrent(reg) && DefineParent(reg, id).Changed?
    ensures Forest(DefineParent(reg, id).reg) && HasCurrent(DefineParent(reg, id).reg)
  {
    var r := DefineParent(reg, id).reg;
    forall i | 0 <= i < |r.pattern| && HasParent(r, i)
      ensures r.pattern[i].parent in r.id2pattern && r.id2pattern[r.pattern[i].parent] < i
    {
      assert i < reg.current ==> HasParent(reg, i);
    }
  }

  lemma DefineKeeps(reg: Registry, key: int, text: string)
    requires Forest(reg) && Define(reg, key, text).Changed?
    ensures Forest(Define(reg, key, text).reg) && HasCurrent(Define(reg, key, text).reg)
  {
    hide Forest, DefineParent;
    if key == PARENT {
      ParentKeeps(reg, text);
    } else {
      SameTreeKeeps(reg, Define(reg, key, text).reg);
    }
  }

  lemma CallbackKeeps(reg: Registry, event: string, code: string)
    requires Forest(reg) && AddCallback(reg, event, code).Changed?
    ensures Forest(AddCallback(reg, event, code).reg) && HasCurrent(AddCallback(reg, event, code).reg)
  {
    hide Forest;
    SameTreeKeeps(reg, AddCallback(reg, event, code).reg);
  }

  // --- The parents of a pattern --------------------------------------------------------

  // The chain of parents, from a pattern to its root. The registry being a forest makes
  // it end.
  ghost function Ancestors(reg: Registry, i: nat): (chain: seq<nat>)
    requires Forest(reg) && i < |reg.pattern|
    ensures |chain| <= i && forall j :: 0 <= j < |chain| ==> chain[j] < i
    ensures forall j :: 0 < j < |chain| ==> chain[j] < chain[j - 1]
  {
    if HasParent(reg, i) then
      var p := reg.id2pattern[reg.pattern[i].parent];
      [p] + Ancestors(reg, p)
    else []
  }

  // chain leads from pattern i, parent by parent, to a pattern without one.
  ghost predicate IsLine(reg: Registry, i: nat, chain: seq<nat>)
    decreases |chain|
  {
    && i < |reg.pattern|
    && if chain == [] then !HasParent(reg, i)
       else
         && HasParent(reg, i) && chain[0] < |reg.pattern| && reg.pattern[chain[0]].id == reg.pattern[i].parent
         && IsLine(reg, chain[0], chain[1..])
  }

  // Every pattern has exactly one line of ancestors.
  lemma {:induction false} LineIff(reg: Registry, i: nat, chain: seq<nat>)
    requires Forest(reg) && i < |reg.pattern|
    ensures IsLine(reg, i, chain) <==> chain == Ancestors(reg, i)
    decreases i
  {
    if HasParent(reg, i) {
      var p := reg.id2pattern[reg.pattern[i].parent];
      if chain != [] && chain[0] == p {
        LineIff(reg, p, chain[1..]);
        assert chain == [p] + chain[1..];
      } else {
        assert Ancestors(reg, i)[0] == p;
        assert chain != [] && chain[0] < |reg.pattern| ==> reg.id2pattern[reg.pattern[chain[0]].id] == chain[0];
      }
    }
  }

  // --- The numbered constants ----------------------------------------------------------

  datatype Constant = Constant(name: string, value: int)

  function Constants(pattern: seq<Pattern>): seq<Constant> {
    [Constant(NONE, -1)] + seq(|pattern|, i requires 0 <= i < |pattern| => Constant(pattern[i].id, i))
  }

  // The PAT_ constants of write_header, without their prefix.
  method WriteConstants(pattern: seq<Pattern>) returns (constants: seq<Constant>)
    ensures constants == Constants(pattern)
  {
    var num := -1;
    constants := [Constant(NONE, num)];
    num := num + 1;
    var it := 0;
    while it != |pattern|
      invariant 0 <= it <= |pattern| && num == it
      invariant constants == Constants(pattern[..it])
    {
      assert pattern[..it + 1][..it] == pattern[..it];
      constants := constants + [Constant(pattern[it].id, num)];
      num := num + 1;
      it := it + 1;
    }
    assert pattern[..it] == pattern;
  }

  // Patterns are numbered from 0 in the order of their definition, and the constant of a
  // parent exists and is smaller.
  lemma ParentConstant(reg: Registry, i: nat)
    requires Forest(reg) && i < |reg.pattern|
    ensures var c := Constants(reg.pattern);
            && c[i + 1] == Constant(reg.pattern[i].id, i)
            && exists p :: -1 <= p < i && c[p + 1] == Constant(reg.pattern[i].parent, p)
  {
    var c := Constants(reg.pattern);
    var p := if HasParent(reg, i) then reg.id2pattern[reg.pattern[i].parent] else -1;
    assert c[p + 1] == Constant(reg.pattern[i].parent, p);
  }

  // The constants have different names unless a pattern is called NONE.
  lemma ConstantNames(reg: Registry)
    requires Forest(reg)
    ensures (forall a, b :: 0 <= a < b <= |reg.pattern| ==>
               Constants(reg.pattern)[a].name != Constants(reg.pattern)[b].name)
            <==> NONE !in reg.id2pattern
  {
    var c := Constants(reg.pattern);
    if NONE in reg.id2pattern {
      var b := reg.id2pattern[NONE] + 1;
      assert c[0].name == c[b].name;
    } else {
      forall a, b | 0 <= a < b <= |reg.pattern| ensures c[a].name != c[b].name {
        assert c[b].name == reg.pattern[b - 1].id;
        assert reg.id2pattern[reg.pattern[b - 1].id] == b - 1;
        assert a > 0 ==> c[a].name == reg.pattern[a - 1].id && reg.id2pattern[reg.pattern[a - 1].id] == a - 1;
      }
    }
  }

  // --- Assigning an attribute once ----------------------------------------------------

  // The attributes that complain about a second definition.
  predicate Checked(key: int) {
    key != PARENT && key != TYPE && key != HIDDEN && key != NODOCS && key != DOCNAME
  }

  datatype Definition = Definition(key: int, text: string)

  function DefineAll(reg: Registry, parts: seq<Definition>): Change
    decreases |parts|
  {
    if parts == [] then Changed(reg)
    else
      match Define(reg, parts[0].key, parts[0].text)
      case Refused(why) => Refused(why)
      case Changed(reg1) => DefineAll(reg1, parts[1..])
  }

  lemma DefineOther(reg: Registry, key: int, part: Definition)
    requires HasCurrent(reg) && Checked(key) && Define(reg, part.key, part.text).Changed?
    ensures var r := Define(reg, part.key, part.text).reg;
            HasCurrent(r) && Attribute(Current(r), key) == if part.key == key then part.text else Attribute(Current(reg), key)
    ensures part.key == key ==> Attribute(Current(reg), key) == ""
  {
    hide KnownType, DefineParent, Attribute;
    var p := Current(reg);
    TextSet(p, part.key, part.text, key);
    SameTexts(p, p.(kind := part.text), key);
    SameTexts(p, p.(hidden := true), key);
    SameTexts(p, p.(nodocs := true), key);
    if part.key == PARENT {
      ParentOnly(reg, part.text);
      SameTexts(p, Current(DefineParent(reg, part.text).reg), key);
    }
  }

  lemma TextSet(p: Pattern, key: int, text: string, other: int)
    ensures Attribute(p.(texts := p.texts[key := text]), other) == if other == key then text else Attribute(p, other)
  {}

  lemma SameTexts(p: Pattern, q: Pattern, key: int)
    requires p.texts == q.texts
    ensures Attribute(p, key) == Attribute(q, key)
  {}

  lemma ParentOnly(reg: Registry, id: string)
    requires HasCurrent(reg) && DefineParent(reg, id).Changed?
    ensures var r := DefineParent(reg, id).reg;
            HasCurrent(r) && Current(r).texts == Current(reg).texts
  {}

  // Whatever is defined in between: an attribute that is not empty is not defined again,
  // and of several definitions of a checked attribute all but the last are empty.
  lemma {:induction false} AssignedOnce(reg: Registry, parts: seq<Definition>, key: int)
    requires HasCurrent(reg) && Checked(key) && DefineAll(reg, parts).Changed?
    ensures Attribute(Current(reg), key) != "" ==> forall i :: 0 <= i < |parts| ==> parts[i].key != key
    ensures forall a, b :: 0 <= a < b < |parts| && parts[a].key == parts[b].key == key ==> parts[a].text == ""
    decreases |parts|
  {
    if parts != [] {
      var tail := parts[1..];
      var r := Define(reg, parts[0].key, parts[0].text).reg;
      DefineOther(reg, key, parts[0]);
      AssignedOnce(r, tail, key);
      forall i | 0 <= i < |parts| && parts[i].key == key && i > 0
        ensures Attribute(Current(r), key) == ""
      {
        assert tail[i - 1] == parts[i];
      }
      forall a, b | 0 <= a < b < |parts| && parts[a].key == parts[b].key == key
        ensures parts[a].text == ""
      {
        assert tail[b - 1] == parts[b];
        if a > 0 {
          assert tail[a - 1] == parts[a];
        }
      }
    }
  }

  // A list of definitions of one checked attribute, other than MODE, is accepted exactly
  // when all but the last are empty.
  lemma {:induction false} OnceIff(reg: Registry, parts: seq<Definition>, key: int)
    requires HasCurrent(reg) && Checked(key) && key != MODE && Attribute(Current(reg), key) == ""
    requires forall i :: 0 <= i < |parts| ==> parts[i].key == key
    ensures DefineAll(reg, parts).Changed? <==> forall i :: 0 <= i < |parts| - 1 ==> parts[i].text == ""
    decreases |parts|
  {
    if |parts| > 0 {
      var tail := parts[1..];
      var c := Define(reg, key, parts[0].text);
      assert c.Changed?;
      DefineOther(reg, key, parts[0]);
      if parts[0].text == "" {
        OnceIff(c.reg, tail, key);
        assert forall i :: 0 < i < |parts| - 1 ==> parts[i] == tail[i - 1];
        assert forall i :: 0 <= i < |tail| - 1 ==> tail[i] == parts[i + 1];
      } else if |parts| > 1 {
        assert Define(c.reg, key, tail[0].text).Refused?;
        assert DefineAll(c.reg, tail).Refused?;
      } else {
        assert tail == [];
      }
    }
  }

  // A list of definitions of MODE that starts without one is accepted exactly when it is
  // empty, or gives one of the two modes once.
  lemma ModeIff(reg: Registry, parts: seq<Definition>)
    requires HasCurrent(reg) && Attribute(Current(reg), MODE) == ""
    requires forall i :: 0 <= i < |parts| ==> parts[i].key == MODE
    ensures DefineAll(reg, parts).Changed? <==>
            parts == [] || (|parts| == 1 && (parts[0].text == "inclusive" || parts[0].text == "exclusive"))
  {
    if |parts| > 0 && Define(reg, MODE, parts[0].text).Changed? {
      var tail, r := parts[1..], Define(reg, MODE, parts[0].text).reg;
      assert HasCurrent(r) && Attribute(Current(r), MODE) == parts[0].text != "";
      if tail != [] {
        assert tail[0] == parts[1];
        assert Define(r, MODE, tail[0].text).Refused?;
      }
    }
  }

  // A new pattern is accepted exactly if no other one has its id.
  lemma EnterIff(reg: Registry, id: string)
    requires Forest(reg)
    ensures Enter(reg, id).Changed? <==> forall i :: 0 <= i < |reg.pattern| ==> reg.pattern[i].id != id
  {
    if id in reg.id2pattern {
      assert reg.pattern[reg.id2pattern[id]].id == id;
    }
  }

  // A definition is accepted exactly if it is the first one that is not empty, where that
  // matters, and its value is one that there is.
  lemma DefineIff(reg: Registry, key: int, text: string)
    requires HasCurrent(reg)
    ensures Define(reg, key, text).Changed? <==>
            && (Checked(key) ==> Attribute(Current(reg), key) == "")
            && (key == MODE ==> text == "inclusive" || text == "exclusive")
            && (key == TYPE ==> text in {"MPI", "MPIDEP", "MPI_RMA", "OMP", "OMPDEP", "PTHREAD", "Generic"})
            && (key == PARENT ==> Current(reg).parent == NONE && Eligible(reg, text))
  {}

  // A pattern that could be the parent of the current one.
  predicate Eligible(reg: Registry, id: string) {
    id in reg.id2pattern && reg.id2pattern[id] != reg.current
  }

  // A list of definitions of PARENT is accepted exactly when they name eligible patterns
  // and all but the last name a pattern called NONE, which reads as no parent at all.
  lemma {:induction false} ParentIff(reg: Registry, parts: seq<Definition>)
    requires HasCurrent(reg) && forall i :: 0 <= i < |parts| ==> parts[i].key == PARENT
    ensures DefineAll(reg, parts).Changed? <==>
            && (parts != [] ==> Current(reg).parent == NONE)
            && (forall i :: 0 <= i < |parts| ==> Eligible(reg, parts[i].text))
            && (forall i :: 0 <= i < |parts| - 1 ==> parts[i].text == NONE)
    decreases |parts|
  {
    if parts != [] && Define(reg, PARENT, parts[0].text).Changed? {
      var tail, r := parts[1..], Define(reg, PARENT, parts[0].text).reg;
      ParentSets(reg, parts[0].text);
      ParentIff(r, tail);
      assert forall i :: 0 < i < |parts| ==> parts[i] == tail[i - 1];
      assert forall i :: 0 <= i < |tail| ==> tail[i] == parts[i + 1];
    }
  }

  lemma ParentSets(reg: Registry, id: string)
    requires HasCurrent(reg) && Define(reg, PARENT, id).Changed?
    ensures var r := Define(reg, PARENT, id).reg;
            && HasCurrent(r) && Current(r).parent == id && Eligible(reg, id)
            && r.id2pattern == reg.id2pattern && r.current == reg.current
  {}

  // The attributes that a pattern must have, in the order in which they are asked for.
  const Required: seq<int> := [NAME, CLASS, INFO, UNIT, MODE]

  // A pattern is complete exactly if none is missing; the first missing one is reported.
  lemma LeaveIff(reg: Registry, j: nat)
    requires HasCurrent(reg) && j < |Required|
    ensures Leave(reg).Changed? <==> forall i :: 0 <= i < |Required| ==> Attribute(Current(reg), Required[i]) != ""
    ensures Leave(reg) == Refused(Incomplete(Required[j])) <==>
            && Attribute(Current(reg), Required[j]) == ""
            && forall i :: 0 <= i < j ==> Attribute(Current(reg), Required[i]) != ""
  {
    assert Required[0] == NAME && Required[1] == CLASS && Required[2] == INFO && Required[3] == UNIT && Required[4] == MODE;
  }

  // --- Callbacks ------------------------------------------------------------------------

  // The event at place i of a group has this name.
  predicate Named(p: Pattern, name: string, group: string, i: nat) {
    group in p.groups && i < |p.groups[group]| && name == Callback(p.groups[group][i], group)
  }

  // The callbacks are those of the events in the groups, each one with its own name.
  ghost predicate Listed(p: Pattern) {
    && (forall name :: name in p.callbacks <==> exists group, i :: Named(p, name, group, i))
    && (forall name, g, i, h, j :: Named(p, name, g, i) && Named(p, name, h, j) ==> g == h && i == j)
  }

  lemma CallbackLists(reg: Registry, event: string, code: string)
    requires AddCallback(reg, event, code).Changed? && Listed(Current(reg))
    ensures Listed(Current(AddCallback(reg, event, code).reg))
  {
    var p, q := Current(reg), Current(AddCallback(reg, event, code).reg);
    var g0, name0 := reg.callbackgroup, Callback(event, reg.callbackgroup);
    var n := if g0 in p.groups then |p.groups[g0]| else 0;
    assert forall name, g, i :: Named(q, name, g, i) <==> Named(p, name, g, i) || (name == name0 && g == g0 && i == n) by {
      hide Callback;
    }
    assert Named(q, name0, g0, n);
    assert forall name :: name in q.callbacks <==> name in p.callbacks || name == name0;
    hide Named, Callback, AddCallback;
  }

  // A callback is refused exactly if an event has been given that has, with its group, the
  // same name.
  lemma CallbackIff(reg: Registry, event: string, code: string)
    requires HasCurrent(reg) && Listed(Current(reg))
    ensures AddCallback(reg, event, code).Refused? <==>
            exists group, i :: Named(Current(reg), Callback(event, reg.callbackgroup), group, i)
  {
    hide Named;
  }

  // That can be another event of another group.
  lemma NamesCollide(reg: Registry, code: string, code1: string)
    requires HasCurrent(reg)
    ensures var c := AddCallback(reg.(callbackgroup := "x"), "enter_region", code);
            c.Changed? ==> AddCallback(c.reg.(callbackgroup := "region_x"), "enter", code1) == Refused(CallbackDefined("enter"))
  {
    assert Callback("enter_region", "x") == Callback("enter", "region_x");
  }
}
