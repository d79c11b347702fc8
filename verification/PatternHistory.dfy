/** What the attributes of the patterns have been, from definition to definition, and what
    every sequence of actions keeps of it. */
module PatternHistory {
  import opened PatternRegistry

  // A value that is not empty is still there.
  ghost predicate Lasting(reg: Registry) {
    forall a :: 0 <= a < |reg.history| ==>
      && 0 <= reg.history[a].pattern < |reg.pattern|
      && (Checked(reg.history[a].key) && reg.history[a].text != "" ==>
            Attribute(reg.pattern[reg.history[a].pattern], reg.history[a].key) == reg.history[a].text)
  }

  // Of several definitions of a checked attribute of a pattern, all but the last are empty.
  ghost predicate Once(reg: Registry) {
    forall a, b :: 0 <= a < b < |reg.history| && Again(reg.history[a], reg.history[b]) && Checked(reg.history[a].key) ==>
      reg.history[a].text == ""
  }

  predicate Again(x: Assignment, y: Assignment) {
    x.pattern == y.pattern && x.key == y.key
  }

  // Every attribute that is not empty has been defined with that value.
  ghost predicate Sourced(reg: Registry) {
    forall i, key :: 0 <= i < |reg.pattern| && Attribute(reg.pattern[i], key) != "" ==>
      Assignment(i, key, Attribute(reg.pattern[i], key)) in reg.history
  }

  // The attributes that rule 11 asks for.
  predicate Complete(p: Pattern) {
    && Attribute(p, NAME) != "" && Attribute(p, CLASS) != "" && Attribute(p, INFO) != ""
    && Attribute(p, UNIT) != "" && Attribute(p, MODE) != ""
  }

  predicate Plausible(p: Pattern) {
    KnownType(p.kind) && (Attribute(p, MODE) == "" || Attribute(p, MODE) == "inclusive" || Attribute(p, MODE) == "exclusive")
  }

  // All patterns are complete, but for the one that is being defined.
  ghost predicate Filled(reg: Registry, inside: bool) {
    forall i :: 0 <= i < |reg.pattern| ==>
      Plausible(reg.pattern[i]) && ((inside && i == |reg.pattern| - 1) || Complete(reg.pattern[i]))
  }

  ghost predicate Orderly(reg: Registry, inside: bool) {
    && Forest(reg) && (inside ==> HasCurrent(reg))
    && Lasting(reg) && Once(reg) && Sourced(reg) && Filled(reg, inside) && AllListed(reg)
    && AllShown(reg) && AllCalled(reg) && PrologShown(reg)
  }

  // --- The patterns are what has been recorded -------------------------------------------

  // The last value given to a part of pattern i.
  function LastText(h: seq<Assignment>, i: int, key: int, default: string): string {
    if h == [] then default
    else
      var last := h[|h| - 1];
      if last.pattern == i && last.key == key then last.text else LastText(h[..|h| - 1], i, key, default)
  }

  predicate Given(h: seq<Assignment>, i: int, key: int) {
    exists a :: 0 <= a < |h| && h[a].pattern == i && h[a].key == key
  }

  // Every part of the pattern has the last value given to it, or the one of a new pattern.
  ghost predicate Shown(h: seq<Assignment>, i: int, p: Pattern) {
    && (forall key :: Attribute(p, key) == if Textual(key) then LastText(h, i, key, "") else "")
    && p.kind == LastText(h, i, TYPE, "Generic") && p.parent == LastText(h, i, PARENT, NONE)
    && p.hidden == Given(h, i, HIDDEN) && p.nodocs == Given(h, i, NODOCS)
  }

  ghost predicate AllShown(reg: Registry) {
    forall i :: 0 <= i < |reg.pattern| ==> Shown(reg.history, i, reg.pattern[i])
  }

  // The events given to a group of pattern i, in order.
  function EventsOf(calls: seq<Call>, i: int, group: string): seq<string> {
    if calls == [] then []
    else
      var last := calls[|calls| - 1];
      EventsOf(calls[..|calls| - 1], i, group) + if last.pattern == i && last.group == group then [last.event] else []
  }

  // Every callback has the code given to its event in its group, and the groups hold their
  // events in order.
  ghost predicate Called(calls: seq<Call>, i: int, p: Pattern) {
    && (forall c :: 0 <= c < |calls| && calls[c].pattern == i ==> HasCode(p, calls[c]))
    && (forall group :: EventsOf(calls, i, group) == if group in p.groups then p.groups[group] else [])
  }

  predicate HasCode(p: Pattern, c: Call) {
    var name := c.event + "_" + c.group;
    name in p.callbacks && p.callbacks[name] == c.code
  }

  ghost predicate AllCalled(reg: Registry) {
    && (forall c :: 0 <= c < |reg.log.calls| ==> 0 <= reg.log.calls[c].pattern < |reg.pattern|)
    && forall i :: 0 <= i < |reg.pattern| ==> Called(reg.log.calls, i, reg.pattern[i])
  }

  // Prologs, with an empty line between them.
  function Separated(prologs: seq<string>): string {
    if prologs == [] then ""
    else if |prologs| == 1 then prologs[0]
    else Separated(prologs[..|prologs| - 1]) + "\n\n" + prologs[|prologs| - 1]
  }

  ghost predicate PrologShown(reg: Registry) {
    && reg.prolog == Separated(reg.log.prologs)
    && forall i :: 0 <= i < |reg.log.prologs| ==> reg.log.prologs[i] != ""
  }

  lemma LastAppend(h: seq<Assignment>, a: Assignment, i: int, key: int, default: string)
    ensures LastText(h + [a], i, key, default) ==
            if a.pattern == i && a.key == key then a.text else LastText(h, i, key, default)
    ensures Given(h + [a], i, key) == (Given(h, i, key) || (a.pattern == i && a.key == key))
  {
    var h1 := h + [a];
    assert h1[..|h1| - 1] == h && h1[|h1| - 1] == a;
    if Given(h, i, key) {
      var b :| 0 <= b < |h| && h[b].pattern == i && h[b].key == key;
      assert h1[b] == h[b];
    }
    if a.pattern == i && a.key == key {
      assert h1[|h|] == a;
    }
  }

  lemma {:induction false} NoneGiven(h: seq<Assignment>, i: int, key: int, default: string)
    requires forall a :: 0 <= a < |h| ==> h[a].pattern != i
    ensures LastText(h, i, key, default) == default && !Given(h, i, key)
  {
    if h != [] {
      NoneGiven(h[..|h| - 1], i, key, default);
    }
  }

  lemma NewShown(h: seq<Assignment>, i: int, id: string)
    requires forall a :: 0 <= a < |h| ==> h[a].pattern != i
    ensures Shown(h, i, NewPattern(id))
  {
    forall key, default ensures LastText(h, i, key, default) == default && !Given(h, i, key) {
      NoneGiven(h, i, key, default);
    }
    hide LastText, Given;
  }

  lemma {:induction false} NoneCalled(calls: seq<Call>, i: int, group: string)
    requires forall c :: 0 <= c < |calls| ==> calls[c].pattern != i
    ensures EventsOf(calls, i, group) == []
  {
    if calls != [] {
      NoneCalled(calls[..|calls| - 1], i, group);
    }
  }

  lemma NewCalled(calls: seq<Call>, i: int, id: string)
    requires forall c :: 0 <= c < |calls| ==> calls[c].pattern != i
    ensures Called(calls, i, NewPattern(id))
  {
    forall group ensures EventsOf(calls, i, group) == [] {
      NoneCalled(calls, i, group);
    }
  }

  lemma OtherShown(h: seq<Assignment>, x: Assignment, i: int, p: Pattern)
    requires Shown(h, i, p) && x.pattern != i
    ensures Shown(h + [x], i, p)
  {
    hide LastText, Given, Attribute;
    forall key, default ensures LastText(h + [x], i, key, default) == LastText(h, i, key, default) {
      LastAppend(h, x, i, key, default);
    }
    forall key ensures Given(h + [x], i, key) == Given(h, i, key) {
      LastAppend(h, x, i, key, "");
    }
  }

  lemma CurrentShown(h: seq<Assignment>, x: Assignment, p: Pattern, q: Pattern)
    requires Shown(h, x.pattern, p) && Redefines(p, q, x.key, x.text)
    ensures Shown(h + [x], x.pattern, q)
  {
    hide LastText, Given, Attribute, Plausible;
    var i := x.pattern;
    forall key, default
      ensures LastText(h + [x], i, key, default) == if x.key == key then x.text else LastText(h, i, key, default)
    {
      LastAppend(h, x, i, key, default);
    }
    forall key ensures Given(h + [x], i, key) == (Given(h, i, key) || x.key == key) {
      LastAppend(h, x, i, key, "");
    }
  }

  lemma DefineShown(a: Registry, b: Registry, key: int, text: string)
    requires AllShown(a) && DefinesCurrent(a, b, key, text)
    ensures AllShown(b)
  {
    hide Shown, Redefines, Attribute;
    var x := Assignment(a.current, key, text);
    forall i | 0 <= i < |b.pattern| ensures Shown(b.history, i, b.pattern[i]) {
      if i == a.current {
        CurrentShown(a.history, x, Current(a), Current(b));
      } else {
        OtherShown(a.history, x, i, a.pattern[i]);
      }
    }
  }

  lemma DefineCalled(a: Registry, b: Registry, key: int, text: string)
    requires AllCalled(a) && DefinesCurrent(a, b, key, text)
    ensures AllCalled(b)
  {
    hide Attribute, Plausible, EventsOf;
    forall i | 0 <= i < |b.pattern| ensures Called(b.log.calls, i, b.pattern[i]) {
      assert Called(a.log.calls, i, a.pattern[i]);
    }
  }

  lemma EventAppend(calls: seq<Call>, c: Call, i: int, group: string)
    ensures EventsOf(calls + [c], i, group) ==
            EventsOf(calls, i, group) + if c.pattern == i && c.group == group then [c.event] else []
  {
    var d := calls + [c];
    assert d[..|d| - 1] == calls && d[|d| - 1] == c;
  }

  lemma OtherCalled(calls: seq<Call>, c: Call, i: int, p: Pattern)
    requires Called(calls, i, p) && c.pattern != i
    ensures Called(calls + [c], i, p)
  {
    hide EventsOf, HasCode;
    forall group ensures EventsOf(calls + [c], i, group) == EventsOf(calls, i, group) {
      EventAppend(calls, c, i, group);
    }
  }

  lemma CurrentCalled(calls: seq<Call>, c: Call, p: Pattern, q: Pattern)
    requires Called(calls, c.pattern, p) && c.event + "_" + c.group !in p.callbacks
    requires q.callbacks == p.callbacks[c.event + "_" + c.group := c.code]
    requires q.groups == p.groups[c.group := (if c.group in p.groups then p.groups[c.group] else []) + [c.event]]
    ensures Called(calls + [c], c.pattern, q)
  {
    CodesKept(calls, c, p, q);
    hide EventsOf, HasCode;
    forall group
      ensures EventsOf(calls + [c], c.pattern, group) ==
              EventsOf(calls, c.pattern, group) + if c.group == group then [c.event] else []
    {
      EventAppend(calls, c, c.pattern, group);
    }
  }

  lemma CodesKept(calls: seq<Call>, c: Call, p: Pattern, q: Pattern)
    requires forall d :: 0 <= d < |calls| && calls[d].pattern == c.pattern ==> HasCode(p, calls[d])
    requires c.event + "_" + c.group !in p.callbacks && q.callbacks == p.callbacks[c.event + "_" + c.group := c.code]
    ensures forall d :: 0 <= d < |calls + [c]| && (calls + [c])[d].pattern == c.pattern ==> HasCode(q, (calls + [c])[d])
  {}

  // A new callback gets its code, and the others keep theirs.
  lemma CallbackCalled(reg: Registry, event: string, code: string)
    requires AddCallback(reg, event, code).Changed? && AllCalled(reg)
    ensures AllCalled(AddCallback(reg, event, code).reg)
  {
    var r := AddCallback(reg, event, code).reg;
    var c := Call(reg.current, event, reg.callbackgroup, code);
    hide Called;
    forall i | 0 <= i < |r.pattern| ensures Called(r.log.calls, i, r.pattern[i]) {
      if i == reg.current {
        CurrentCalled(reg.log.calls, c, Current(reg), Current(r));
      } else {
        OtherCalled(reg.log.calls, c, i, reg.pattern[i]);
      }
    }
  }

  lemma PrologKept(reg: Registry, code: string, inside: bool)
    requires Orderly(reg, inside) && code != ""
    ensures Orderly(AddProlog(reg, code), inside)
  {
    hide Plausible, Complete, Attribute, Again, Listed, Shown, Called, PrologShown, Checked;
    PrologAdds(reg, code);
    SameTreeKeeps(reg, AddProlog(reg, code));
    hide Forest;
  }

  lemma PrologAdds(reg: Registry, code: string)
    requires PrologShown(reg) && code != ""
    ensures PrologShown(AddProlog(reg, code))
  {
    var ps := AddProlog(reg, code).log.prologs;
    assert ps[..|ps| - 1] == reg.log.prologs;
    SeparatedEmpty(reg.log.prologs);
  }

  lemma SeparatedEmpty(prologs: seq<string>)
    requires forall i :: 0 <= i < |prologs| ==> prologs[i] != ""
    ensures Separated(prologs) == "" <==> prologs == []
  {}

  // The callbacks of every pattern are those of its events.
  ghost predicate AllListed(reg: Registry) {
    forall i :: 0 <= i < |reg.pattern| ==> Listed(reg.pattern[i])
  }

  lemma SameListed(p: Pattern, q: Pattern)
    requires p.callbacks == q.callbacks && p.groups == q.groups && Listed(p)
    ensures Listed(q)
  {
    assert forall name, g, i :: Named(q, name, g, i) <==> Named(p, name, g, i);
    hide Named;
  }

  lemma NewListed(id: string)
    ensures Listed(NewPattern(id))
  {}

  // What the predicates are about.
  predicate SameRecords(a: Registry, b: Registry) {
    && a.pattern == b.pattern && a.id2pattern == b.id2pattern && a.current == b.current
    && a.history == b.history && a.log == b.log && a.prolog == b.prolog
  }

  lemma SameKept(a: Registry, b: Registry, inside: bool)
    requires Orderly(a, inside) && SameRecords(a, b)
    ensures Orderly(b, inside)
  {
    hide Plausible, Complete, Attribute, Again, Listed, Shown, Called, Separated;
    SameTreeKeeps(a, b);
  }

  lemma EnterKept(reg: Registry, id: string)
    requires Orderly(reg, false) && Enter(reg, id).Changed?
    ensures Orderly(Enter(reg, id).reg, true)
  {
    EnterKeeps(reg, id);
    EnterFilled(reg, id);
    EnterListed(reg, id);
    EnterRecords(reg, id);
    EnterShown(reg, id);
    hide Forest, Lasting, Once, Sourced, Filled, AllListed, AllShown, AllCalled, Separated;
  }

  lemma EnterShown(reg: Registry, id: string)
    requires Lasting(reg) && AllShown(reg) && AllCalled(reg) && Enter(reg, id).Changed?
    ensures AllShown(Enter(reg, id).reg) && AllCalled(Enter(reg, id).reg)
  {
    hide Shown, Called, AllCalled, Attribute;
    NewShown(reg.history, |reg.pattern|, id);
    EnterCalled(reg, id);
  }

  lemma EnterCalled(reg: Registry, id: string)
    requires AllCalled(reg) && Enter(reg, id).Changed?
    ensures AllCalled(Enter(reg, id).reg)
  {
    hide Called;
    NewCalled(reg.log.calls, |reg.pattern|, id);
  }

  lemma EnterListed(reg: Registry, id: string)
    requires AllListed(reg) && Enter(reg, id).Changed?
    ensures AllListed(Enter(reg, id).reg)
  {
    NewListed(id);
    hide Listed;
  }

  lemma EnterRecords(reg: Registry, id: string)
    requires Lasting(reg) && Once(reg) && Sourced(reg) && Enter(reg, id).Changed?
    ensures var r := Enter(reg, id).reg; Lasting(r) && Once(r) && Sourced(r)
  {
    assert forall key :: Attribute(NewPattern(id), key) == "";
    hide Attribute, Again;
  }

  lemma EnterFilled(reg: Registry, id: string)
    requires Filled(reg, false) && Enter(reg, id).Changed?
    ensures Filled(Enter(reg, id).reg, true)
  {
    hide Complete;
    assert Plausible(NewPattern(id));
  }

  lemma LeaveKept(reg: Registry)
    requires Orderly(reg, true) && Leave(reg).Changed?
    ensures Orderly(Leave(reg).reg, false)
  {
    hide Lasting, Once, Sourced, AllListed, AllShown, AllCalled, PrologShown;
    assert reg.current == |reg.pattern| - 1;
  }

  // The parts of a pattern that are texts.
  predicate Textual(key: int) {
    key != PARENT && key != TYPE && key != HIDDEN && key != NODOCS
  }

  // The pattern p after a definition.
  ghost predicate Redefines(p: Pattern, q: Pattern, key: int, text: string) {
    && (forall k :: Attribute(q, k) == if k == key && Textual(key) then text else Attribute(p, k))
    && (Plausible(p) ==> Plausible(q)) && p.callbacks == q.callbacks && p.groups == q.groups
    && q.kind == (if key == TYPE then text else p.kind) && q.parent == (if key == PARENT then text else p.parent)
    && q.hidden == (p.hidden || key == HIDDEN) && q.nodocs == (p.nodocs || key == NODOCS)
  }

  ghost predicate DefinesCurrent(a: Registry, b: Registry, key: int, text: string) {
    && HasCurrent(a) && HasCurrent(b)
    && b.pattern == a.pattern[a.current := Current(b)] && b.current == a.current
    && Redefines(Current(a), Current(b), key, text)
    && b.history == a.history + [Assignment(a.current, key, text)] && b.log == a.log && b.prolog == a.prolog
    && (Checked(key) ==> Attribute(Current(a), key) == "")
  }

  lemma DefineCurrent(reg: Registry, key: int, text: string)
    requires Define(reg, key, text).Changed?
    ensures DefinesCurrent(reg, Define(reg, key, text).reg, key, text)
  {
    hide KnownType, DefineParent, Plausible, Attribute;
    if key == PARENT {
      ParentCurrent(reg, text);
    } else if Textual(key) {
      TextRedefines(Current(reg), key, text);
    } else {
      OtherRedefines(Current(reg), key, text);
    }
  }

  lemma TextRedefines(p: Pattern, key: int, text: string)
    requires Textual(key) && (key == MODE ==> text == "inclusive" || text == "exclusive")
    ensures Redefines(p, p.(texts := p.texts[key := text]), key, text)
  {
    hide KnownType;
  }

  lemma OtherRedefines(p: Pattern, key: int, text: string)
    requires !Textual(key)
    ensures key == TYPE && KnownType(text) ==> Redefines(p, p.(kind := text), key, text)
    ensures key == HIDDEN ==> Redefines(p, p.(hidden := true), key, text)
    ensures key == NODOCS ==> Redefines(p, p.(nodocs := true), key, text)
  {
    hide KnownType;
  }

  lemma ParentCurrent(reg: Registry, id: string)
    requires HasCurrent(reg) && DefineParent(reg, id).Changed?
    ensures DefinesCurrent(reg, DefineParent(reg, id).reg, PARENT, id)
  {
    hide KnownType;
  }

  lemma DefineKept(reg: Registry, key: int, text: string)
    requires Orderly(reg, true) && Define(reg, key, text).Changed?
    ensures Orderly(Define(reg, key, text).reg, true)
  {
    DefineCurrent(reg, key, text);
    DefineKeeps(reg, key, text);
    var r := Define(reg, key, text).reg;
    hide Define, Forest;
    DefineLasting(reg, r, key, text);
    DefineOnce(reg, r, key, text);
    DefineSourced(reg, r, key, text);
    DefineFilled(reg, r, key, text);
    DefineListed(reg, r, key, text);
    DefineShown(reg, r, key, text);
    DefineCalled(reg, r, key, text);
    hide Lasting, Once, Sourced, Filled, AllListed, AllShown, AllCalled, Separated, Redefines;
  }

  lemma DefineListed(a: Registry, b: Registry, key: int, text: string)
    requires AllListed(a) && DefinesCurrent(a, b, key, text)
    ensures AllListed(b)
  {
    hide Plausible, Attribute, Listed;
    SameListed(Current(a), Current(b));
  }

  lemma DefineLasting(a: Registry, b: Registry, key: int, text: string)
    requires Lasting(a) && DefinesCurrent(a, b, key, text)
    ensures Lasting(b)
  {
    hide Plausible, Attribute;
  }

  lemma DefineOnce(a: Registry, b: Registry, key: int, text: string)
    requires Lasting(a) && Once(a) && DefinesCurrent(a, b, key, text)
    ensures Once(b)
  {
    hide Plausible, Attribute;
  }

  lemma DefineSourced(a: Registry, b: Registry, key: int, text: string)
    requires Sourced(a) && DefinesCurrent(a, b, key, text)
    ensures Sourced(b)
  {
    hide Plausible, Attribute;
    forall i, k | 0 <= i < |b.pattern| && Attribute(b.pattern[i], k) != ""
      ensures Assignment(i, k, Attribute(b.pattern[i], k)) in b.history
    {
      assert b.history[|a.history|] == Assignment(a.current, key, text);
      if i != a.current || k != key || !Textual(key) {
        assert Attribute(b.pattern[i], k) == Attribute(a.pattern[i], k);
      }
    }
  }

  lemma DefineFilled(a: Registry, b: Registry, key: int, text: string)
    requires Filled(a, true) && DefinesCurrent(a, b, key, text) && a.current == |a.pattern| - 1
    ensures Filled(b, true)
  {
    hide Plausible, Attribute, Complete;
  }

  // The same attributes, recorded in the same way.
  ghost predicate SameTexts(a: Registry, b: Registry) {
    && |a.pattern| == |b.pattern| && a.history == b.history
    && forall i :: 0 <= i < |a.pattern| ==> SameText(a.pattern[i], b.pattern[i])
  }

  ghost predicate SameText(p: Pattern, q: Pattern) {
    && (forall k :: Attribute(q, k) == Attribute(p, k)) && q.kind == p.kind
    && q.parent == p.parent && q.hidden == p.hidden && q.nodocs == p.nodocs
  }

  lemma SameTextsKept(a: Registry, b: Registry)
    requires SameTexts(a, b)
    ensures Lasting(a) ==> Lasting(b)
    ensures Sourced(a) ==> Sourced(b)
    ensures Filled(a, true) ==> Filled(b, true)
    ensures AllShown(a) ==> AllShown(b)
  {
    hide Attribute, KnownType, Again, LastText, Given;
    if AllShown(a) {
      forall i | 0 <= i < |b.pattern| ensures Shown(b.history, i, b.pattern[i]) {
        assert SameText(a.pattern[i], b.pattern[i]) && Shown(a.history, i, a.pattern[i]);
      }
    }
    if Lasting(a) {
      forall i | 0 <= i < |b.history|
        ensures && 0 <= b.history[i].pattern < |b.pattern|
                && (Checked(b.history[i].key) && b.history[i].text != "" ==>
                      Attribute(b.pattern[b.history[i].pattern], b.history[i].key) == b.history[i].text)
      {
        assert SameText(a.pattern[a.history[i].pattern], b.pattern[b.history[i].pattern]);
      }
    }
    if Filled(a, true) {
      forall i | 0 <= i < |b.pattern|
        ensures Plausible(b.pattern[i]) && (i == |b.pattern| - 1 || Complete(b.pattern[i]))
      {
        assert SameText(a.pattern[i], b.pattern[i]) && Plausible(a.pattern[i]);
      }
    }
  }

  lemma CallbackKept(reg: Registry, event: string, code: string)
    requires Orderly(reg, true) && AddCallback(reg, event, code).Changed?
    ensures Orderly(AddCallback(reg, event, code).reg, true)
  {
    CallbackKeeps(reg, event, code);
    CallbackTexts(reg, event, code);
    CallbackLists(reg, event, code);
    CallbackListed(reg, event, code);
    CallbackCalled(reg, event, code);
    hide Forest, AllShown, AllCalled, Separated, AddCallback, Sourced, Lasting, Filled, SameTexts, AllListed;
    SameTextsKept(reg, AddCallback(reg, event, code).reg);
  }

  lemma CallbackListed(reg: Registry, event: string, code: string)
    requires AddCallback(reg, event, code).Changed? && AllListed(reg) && Listed(Current(AddCallback(reg, event, code).reg))
    ensures AllListed(AddCallback(reg, event, code).reg)
  {
    hide Listed;
  }

  lemma CallbackTexts(reg: Registry, event: string, code: string)
    requires AddCallback(reg, event, code).Changed?
    ensures var r := AddCallback(reg, event, code).reg;
            && HasCurrent(r) && r.history == reg.history && SameTexts(reg, r)
            && r.prolog == reg.prolog && r.log.prologs == reg.log.prologs
  {}
}
