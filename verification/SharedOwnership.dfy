/** CountedPtr: handles that share an object through a counter. The state of all handles
    and counters, the operations on it, and what every sequence of them keeps. */
module SharedOwnership {
  const MODULUS: nat := 0x1_0000_0000 // an unsigned int has 32 bits

  datatype Link<C> = Nowhere | To(c: C)

  // The live handles of type H and where they point; the count and the object of the
  // counters of type C that are not freed; the objects handed over and those deleted, in
  // order. An object is a number, 0 is the null pointer.
  datatype State<H, C> = State(
    target: map<H, Link<C>>, refs: map<C, nat>, objects: map<C, nat>, given: set<nat>, deleted: seq<nat>)

  function Start<H, C>(): (s: State<H, C>)
    ensures Sound(s)
  {
    State(map[], map[], map[], {}, [])
  }

  ghost function Owners<H, C>(s: State<H, C>, c: C): set<H> {
    set p | p in s.target && s.target[p] == To(c)
  }

  // No handle dangles; a counter lives as long as a handle points at it, and counts these
  // handles.
  ghost predicate Counted<H, C>(s: State<H, C>) {
    && s.refs.Keys == s.objects.Keys
    && (forall p :: p in s.target && s.target[p].To? ==> s.target[p].c in s.refs)
    && (forall c :: c in s.refs ==> CountsOwners(s, c))
  }

  ghost predicate CountsOwners<H, C>(s: State<H, C>, c: C)
    requires c in s.refs
  {
    Owners(s, c) != {} && s.refs[c] == |Owners(s, c)| % MODULUS
  }

  // Every object handed over either has exactly one counter or has been deleted, once.
  ghost predicate OwnedOnce<C>(objects: map<C, nat>, given: set<nat>, deleted: seq<nat>) {
    && (forall c, d :: c in objects && d in objects && c != d && objects[c] != 0 ==> objects[c] != objects[d])
    && (forall c :: c in objects && objects[c] != 0 ==> objects[c] in given && objects[c] !in deleted)
    && (forall i, j :: 0 <= i < j < |deleted| ==> deleted[i] != deleted[j])
    && (forall x :: x in deleted ==> x in given)
    && (forall x :: x in given && x !in deleted ==> exists c :: c in objects && objects[c] == x != 0)
  }

  ghost predicate Sound<H, C>(s: State<H, C>) {
    Counted(s) && OwnedOnce(s.objects, s.given, s.deleted)
  }

  // --- The operations ------------------------------------------------------------------

  function Listed(ptr: nat): set<nat> {
    if ptr == 0 then {} else {ptr}
  }

  // CountedPtr(T* ptr), with the new counter c.
  function Create<H, C>(s: State<H, C>, p: H, c: C, ptr: nat): State<H, C> {
    s.(target := s.target[p := To(c)], refs := s.refs[c := 1], objects := s.objects[c := ptr],
       given := s.given + Listed(ptr))
  }

  predicate Live<H, C>(s: State<H, C>, l: Link<C>) {
    l.To? ==> l.c in s.refs && l.c in s.objects
  }

  // acquire
  function Acquire<H, C>(s: State<H, C>, p: H, l: Link<C>): State<H, C>
    requires Live(s, l)
  {
    var s1 := s.(target := s.target[p := l]);
    if l.To? then s1.(refs := s1.refs[l.c := (s1.refs[l.c] + 1) % MODULUS]) else s1
  }

  // release
  function Release<H, C>(s: State<H, C>, p: H): State<H, C>
    requires p in s.target && Live(s, s.target[p])
  {
    if s.target[p].Nowhere? then s
    else
      var c := s.target[p].c;
      var s1 := s.(target := s.target[p := Nowhere]);
      var ref := (s.refs[c] + MODULUS - 1) % MODULUS;
      if ref != 0 then s1.(refs := s1.refs[c := ref])
      else
        s1.(refs := s1.refs - {c}, objects := s1.objects - {c},
            deleted := s1.deleted + if s1.objects[c] == 0 then [] else [s1.objects[c]])
  }

  // operator=
  function Assign<H, C>(s: State<H, C>, p: H, q: H): State<H, C>
    requires p in s.target && q in s.target && Live(s, s.target[p]) && Live(s, s.target[q])
    requires p != q ==> Live(Release(s, p), s.target[q])
  {
    if p == q then s else Acquire(Release(s, p), p, s.target[q])
  }

  // The destructor.
  function Destroy<H, C>(s: State<H, C>, p: H): State<H, C>
    requires p in s.target && Live(s, s.target[p])
  {
    var s1 := Release(s, p);
    s1.(target := s1.target - {p})
  }

  // initialize: an object that is not null is not replaced.
  function Initialize<H, C>(s: State<H, C>, p: H, ptr: nat): State<H, C>
    requires p in s.target && Live(s, s.target[p])
  {
    if s.target[p].To? && s.objects[s.target[p].c] == 0
    then s.(objects := s.objects[s.target[p].c := ptr], given := s.given + Listed(ptr))
    else s
  }

  lemma TargetIsLive<H, C>(s: State<H, C>, p: H)
    requires Sound(s) && p in s.target
    ensures Live(s, s.target[p])
    ensures s.target[p].To? && s.objects[s.target[p].c] != 0 ==>
              var ptr := s.objects[s.target[p].c]; ptr in s.given && ptr !in s.deleted
  {}

  // --- What they keep ------------------------------------------------------------------

  // An object that was not handed over before gets a counter.
  lemma GetsObject<C>(objects: map<C, nat>, given: set<nat>, deleted: seq<nat>, c: C, ptr: nat)
    requires OwnedOnce(objects, given, deleted) && (ptr != 0 ==> ptr !in given)
    requires c in objects ==> objects[c] == 0
    ensures OwnedOnce(objects[c := ptr], given + Listed(ptr), deleted)
  {
    var objects1 := objects[c := ptr];
    forall x | x in given + Listed(ptr) && x !in deleted ensures exists d :: d in objects1 && objects1[d] == x != 0 {
      if x == ptr {
        assert objects1[c] == x;
      } else {
        var d :| d in objects && objects[d] == x != 0;
        assert objects1[d] == x;
      }
    }
  }

  // A counter is freed with its object.
  lemma Freed<C>(objects: map<C, nat>, given: set<nat>, deleted: seq<nat>, c: C)
    requires OwnedOnce(objects, given, deleted) && c in objects
    ensures OwnedOnce(objects - {c}, given, deleted + if objects[c] == 0 then [] else [objects[c]])
  {
    var objects1, deleted1 := objects - {c}, deleted + if objects[c] == 0 then [] else [objects[c]];
    forall x | x in given && x !in deleted1 ensures exists d :: d in objects1 && objects1[d] == x != 0 {
      assert x !in deleted;
      var d :| d in objects && objects[d] == x != 0;
      assert d != c by {
        assert objects[c] != 0 ==> objects[c] in deleted1;
      }
      assert objects1[d] == x;
    }
    forall x | x in deleted1 ensures x in given {}
  }

  // The owners of d when handle p is made to point elsewhere.
  lemma Moved<H, C>(s: State<H, C>, p: H, l: Link<C>, d: C)
    ensures var t := s.(target := s.target[p := l]);
            && Owners(t, d) == (if l == To(d) then Owners(s, d) + {p} else Owners(s, d) - {p})
            && |Owners(t, d)| - |Owners(s, d)| ==
               (if l == To(d) then 1 else 0) - (if p in s.target && s.target[p] == To(d) then 1 else 0)
  {
    var t := s.(target := s.target[p := l]);
    assert Owners(t, d) == if l == To(d) then Owners(s, d) + {p} else Owners(s, d) - {p};
    assert p in Owners(s, d) <==> p in s.target && s.target[p] == To(d);
  }

  // Owners depend on the targets alone.
  lemma SameOwners<H, C>(s: State<H, C>, t: State<H, C>, d: C)
    requires s.target == t.target
    ensures Owners(s, d) == Owners(t, d)
  {}

  lemma NoOwner<H, C>(s: State<H, C>, c: C)
    requires Counted(s) && c !in s.refs
    ensures Owners(s, c) == {}
  {}

  lemma CreateCounts<H, C>(s: State<H, C>, p: H, c: C, ptr: nat, d: C)
    requires Counted(s) && p !in s.target && c !in s.refs && (d in s.refs || d == c)
    ensures CountsOwners(Create(s, p, c, ptr), d)
  {
    var t := Create(s, p, c, ptr);
    NoOwner(s, c);
    hide Owners;
    Moved(s, p, To(c), d);
    SameOwners(s.(target := t.target), t, d);
    if d != c {
      assert CountsOwners(s, d);
    }
  }

  lemma CreateKeeps<H, C>(s: State<H, C>, p: H, c: C, ptr: nat)
    requires Sound(s) && p !in s.target && c !in s.refs && (ptr != 0 ==> ptr !in s.given)
    ensures Sound(Create(s, p, c, ptr))
  {
    GetsObject(s.objects, s.given, s.deleted, c, ptr);
    hide OwnedOnce, CountsOwners;
    var t := Create(s, p, c, ptr);
    forall d | d in t.refs ensures CountsOwners(t, d) {
      CreateCounts(s, p, c, ptr, d);
    }
  }

  // Counting up and down in 32 bits.
  lemma Wraps(n: nat)
    ensures (n % MODULUS + 1) % MODULUS == (n + 1) % MODULUS
    ensures n > 0 ==> (n % MODULUS + MODULUS - 1) % MODULUS == (n - 1) % MODULUS
  {}

  lemma AcquireCounts<H, C>(s: State<H, C>, p: H, l: Link<C>, d: C)
    requires Counted(s) && (p in s.target ==> s.target[p].Nowhere?) && Live(s, l) && d in s.refs
    ensures CountsOwners(Acquire(s, p, l), d)
  {
    var t := Acquire(s, p, l);
    hide Owners;
    assert CountsOwners(s, d);
    Moved(s, p, l, d);
    SameOwners(s.(target := t.target), t, d);
    Wraps(|Owners(s, d)|);
    assert |Owners(t, d)| == |Owners(s, d)| + if l == To(d) then 1 else 0;
  }

  lemma AcquireKeeps<H, C>(s: State<H, C>, p: H, l: Link<C>)
    requires Sound(s) && (p in s.target ==> s.target[p].Nowhere?) && Live(s, l)
    ensures Sound(Acquire(s, p, l))
  {
    hide OwnedOnce, CountsOwners;
    var t := Acquire(s, p, l);
    forall d | d in t.refs ensures CountsOwners(t, d) {
      AcquireCounts(s, p, l, d);
    }
  }

  // The handles of a released counter, and of the others.
  lemma ReleaseOwners<H, C>(s: State<H, C>, p: H, d: C)
    requires Counted(s) && p in s.target && s.target[p].To? && d in s.refs
    ensures Live(s, s.target[p])
    ensures var c, t := s.target[p].c, Release(s, p);
            && |Owners(t, d)| == |Owners(s, d)| - (if d == c then 1 else 0)
            && (d == c ==> (s.refs[c] + MODULUS - 1) % MODULUS == |Owners(t, c)| % MODULUS)
            && (d != c ==> d in t.refs && CountsOwners(t, d))
  {
    var c, t := s.target[p].c, Release(s, p);
    hide Owners;
    assert CountsOwners(s, d);
    Moved(s, p, Nowhere, d);
    SameOwners(s.(target := t.target), t, d);
    Wraps(|Owners(s, d)|);
  }

  lemma ReleaseKeeps<H, C>(s: State<H, C>, p: H)
    requires Sound(s) && p in s.target && s.target[p].To? && Live(s, s.target[p])
    requires var n := |Owners(s, s.target[p].c)|; n == 1 || (n - 1) % MODULUS != 0
    ensures Sound(Release(s, p))
  {
    hide OwnedOnce, Counted, Owners, Release;
    ReleaseCounts(s, p);
    ReleaseFrees(s, p);
  }

  lemma ReleaseCounts<H, C>(s: State<H, C>, p: H)
    requires Counted(s) && p in s.target && s.target[p].To? && Live(s, s.target[p])
    requires var n := |Owners(s, s.target[p].c)|; n == 1 || (n - 1) % MODULUS != 0
    ensures Counted(Release(s, p))
  {
    var c, t := s.target[p].c, Release(s, p);
    hide CountsOwners, Owners;
    ReleaseOwners(s, p, c);
    forall d | d in t.refs ensures CountsOwners(t, d) {
      ReleaseOwners(s, p, d);
      if d == c {
        StillOwned(t, c);
      }
    }
    if c !in t.refs {
      NoneLeft(t, c);
    }
  }

  lemma ReleaseFrees<H, C>(s: State<H, C>, p: H)
    requires OwnedOnce(s.objects, s.given, s.deleted) && p in s.target && s.target[p].To? && Live(s, s.target[p])
    ensures var t := Release(s, p); OwnedOnce(t.objects, t.given, t.deleted)
  {
    hide OwnedOnce;
    Freed(s.objects, s.given, s.deleted, s.target[p].c);
  }

  lemma Dangles<H, C>(t: State<H, C>, c: C)
    requires c !in t.refs && |Owners(t, c)| > 0
    ensures !Sound(t)
  {
    var q :| q in Owners(t, c);
  }

  // Releasing keeps the invariant, unless so many handles share the counter that its
  // count has wrapped around: then it is freed with handles still pointing at it.
  lemma ReleaseKeepsIff<H, C>(s: State<H, C>, p: H)
    requires Sound(s) && p in s.target && s.target[p].To?
    ensures Live(s, s.target[p])
    ensures var c := s.target[p].c;
            var n := |Owners(s, c)|;
            && n >= 1
            && (c !in Release(s, p).refs <==> (n - 1) % MODULUS == 0)
            && (Sound(Release(s, p)) <==> n == 1 || (n - 1) % MODULUS != 0)
  {
    var c := s.target[p].c;
    var n := |Owners(s, c)|;
    assert p in Owners(s, c);
    ReleaseOwners(s, p, c);
    if n == 1 || (n - 1) % MODULUS != 0 {
      hide Sound, Owners;
      ReleaseKeeps(s, p);
    } else {
      Dangles(Release(s, p), c);
    }
  }

  lemma StillOwned<H, C>(t: State<H, C>, c: C)
    requires c in t.refs && t.refs[c] == |Owners(t, c)| % MODULUS && |Owners(t, c)| % MODULUS != 0
    ensures CountsOwners(t, c)
  {}

  lemma NoneLeft<H, C>(t: State<H, C>, c: C)
    requires |Owners(t, c)| == 0
    ensures forall q :: q in t.target ==> t.target[q] != To(c)
  {
    forall q | q in t.target ensures t.target[q] != To(c) {
      assert q !in Owners(t, c);
    }
  }

  lemma ForgetKeeps<H, C>(s: State<H, C>, p: H)
    requires Sound(s) && p in s.target && s.target[p].Nowhere?
    ensures Sound(s.(target := s.target - {p}))
  {
    var t := s.(target := s.target - {p});
    hide OwnedOnce;
    forall d | d in t.refs ensures CountsOwners(t, d) {
      assert CountsOwners(s, d);
      assert Owners(t, d) == Owners(s, d);
    }
  }

  lemma InitializeKeeps<H, C>(s: State<H, C>, p: H, ptr: nat)
    requires Sound(s) && p in s.target && Live(s, s.target[p]) && (ptr != 0 ==> ptr !in s.given)
    ensures Sound(Initialize(s, p, ptr))
  {
    var t := Initialize(s, p, ptr);
    if s.target[p].To? && s.objects[s.target[p].c] == 0 {
      GetsObject(s.objects, s.given, s.deleted, s.target[p].c, ptr);
      hide OwnedOnce;
      forall d | d in t.refs ensures CountsOwners(t, d) {
        assert CountsOwners(s, d);
        SameOwners(s, t, d);
      }
    }
  }

  // --- Every sequence of operations ----------------------------------------------------

  datatype Op<H, C> =
    | Constructing(p: H, c: C, ptr: nat)
    | Copying(p: H, q: H)
    | Assigning(p: H, q: H)
    | Initializing(p: H, ptr: nat)
    | Destroying(p: H)

  // What a program has to observe: it uses handles only between their construction and
  // their destruction, and hands over each object once.
  predicate Enabled<H, C>(s: State<H, C>, op: Op<H, C>) {
    match op
    case Constructing(p, c, ptr) => p !in s.target && c !in s.refs && (ptr != 0 ==> ptr !in s.given)
    case Copying(p, q) => p !in s.target && q in s.target
    case Assigning(p, q) => p in s.target && q in s.target
    case Initializing(p, ptr) => p in s.target && (ptr != 0 ==> ptr !in s.given)
    case Destroying(p) => p in s.target
  }

  // At most 2^32 handles share a counter.
  ghost predicate Fits<H, C>(s: State<H, C>) {
    forall c :: c in s.refs ==> |Owners(s, c)| <= MODULUS
  }

  lemma Released<H, C>(s: State<H, C>, p: H)
    requires Sound(s) && Fits(s) && p in s.target
    ensures Live(s, s.target[p]) && Sound(Release(s, p))
    ensures Release(s, p).target == s.target[p := Nowhere]
    ensures forall q :: q in s.target && q != p ==> Live(Release(s, p), s.target[q])
  {
    hide Owners, OwnedOnce;
    if s.target[p].To? {
      ReleaseKeepsIff(s, p);
    }
    forall q | q in s.target && q != p ensures Live(Release(s, p), s.target[q]) {
      assert Release(s, p).target[q] == s.target[q];
    }
  }

  ghost function Step<H, C>(s: State<H, C>, op: Op<H, C>): (t: State<H, C>)
    requires Sound(s) && Fits(s) && Enabled(s, op)
    ensures Sound(t)
  {
    hide Owners, OwnedOnce, CountsOwners;
    match op
    case Constructing(p, c, ptr) => CreateKeeps(s, p, c, ptr); Create(s, p, c, ptr)
    case Copying(p, q) => AcquireKeeps(s, p, s.target[q]); Acquire(s, p, s.target[q])
    case Assigning(p, q) =>
      Released(s, p);
      (if p != q then AcquireKeeps(Release(s, p), p, s.target[q]); Assign(s, p, q) else Assign(s, p, q))
    case Initializing(p, ptr) => InitializeKeeps(s, p, ptr); Initialize(s, p, ptr)
    case Destroying(p) => Released(s, p); ForgetKeeps(Release(s, p), p); Destroy(s, p)
  }

  // --- What the handles give back --------------------------------------------------------

  // get: the object of a handle, 0 if there is none.
  function Object<H, C>(s: State<H, C>, p: H): nat {
    if p in s.target && s.target[p].To? && s.target[p].c in s.objects then s.objects[s.target[p].c] else 0
  }

  // All handles but p give back the objects that they gave back before.
  ghost predicate OthersKeep<H, C>(s: State<H, C>, t: State<H, C>, p: H) {
    forall q :: q in s.target && q != p ==> q in t.target && t.target[q] == s.target[q] && Object(t, q) == Object(s, q)
  }

  lemma CreateGives<H, C>(s: State<H, C>, p: H, c: C, ptr: nat)
    requires Counted(s) && c !in s.refs
    ensures var t := Create(s, p, c, ptr);
            Object(t, p) == ptr && OthersKeep(s, t, p) && t.target.Keys == s.target.Keys + {p}
  {
    hide CountsOwners;
  }

  lemma AcquireGives<H, C>(s: State<H, C>, p: H, l: Link<C>)
    requires Live(s, l)
    ensures var t := Acquire(s, p, l);
            && Object(t, p) == (if l.To? then s.objects[l.c] else 0) && t.objects == s.objects
            && OthersKeep(s, t, p) && t.target.Keys == s.target.Keys + {p}
  {}

  lemma ReleaseGives<H, C>(s: State<H, C>, p: H)
    requires Sound(s) && Fits(s) && p in s.target && Live(s, s.target[p])
    ensures OthersKeep(s, Release(s, p), p) && Release(s, p).target.Keys == s.target.Keys
    ensures forall q :: q in s.target && q != p && s.target[q].To? ==>
              s.target[q].c in Release(s, p).objects && Release(s, p).objects[s.target[q].c] == s.objects[s.target[q].c]
  {
    Released(s, p);
    hide Sound, Fits;
  }

  lemma InitializeGives<H, C>(s: State<H, C>, p: H, ptr: nat)
    requires Counted(s) && p in s.target && Live(s, s.target[p])
    ensures var t := Initialize(s, p, ptr);
            && t.target == s.target
            && forall q :: q in s.target ==>
                 Object(t, q) == if s.target[q].To? && s.target[q] == s.target[p] && Object(s, q) == 0 then ptr else Object(s, q)
  {
    hide CountsOwners;
  }

  // What an operation promises to the program: a new handle gives back the object it was
  // given, a copy and an assigned handle that of their source; initializing gives an object
  // to all handles of a counter without one; every other handle gives back what it did.
  ghost predicate Promised<H, C>(s: State<H, C>, t: State<H, C>, op: Op<H, C>) {
    match op
    case Constructing(p, _, ptr) => Object(t, p) == ptr && OthersKeep(s, t, p) && t.target.Keys == s.target.Keys + {p}
    case Copying(p, q) =>
      Object(t, p) == Object(s, q) && OthersKeep(s, t, p) && t.target.Keys == s.target.Keys + {p}
    case Assigning(p, q) =>
      Object(t, p) == Object(s, q) && OthersKeep(s, t, p) && t.target.Keys == s.target.Keys
    case Initializing(p, ptr) =>
      && t.target == s.target && p in s.target
      && forall q :: q in s.target ==>
           Object(t, q) == if s.target[q].To? && s.target[q] == s.target[p] && Object(s, q) == 0 then ptr else Object(s, q)
    case Destroying(p) => OthersKeep(s, t, p) && t.target.Keys == s.target.Keys - {p}
  }

  lemma StepGives<H, C>(s: State<H, C>, op: Op<H, C>)
    requires Sound(s) && Fits(s) && Enabled(s, op)
    ensures Promised(s, Step(s, op), op)
  {
    hide Owners, OwnedOnce, CountsOwners;
    match op
    case Constructing(p, c, ptr) => CreateGives(s, p, c, ptr);
    case Copying(p, q) =>
      TargetIsLive(s, q);
      AcquireGives(s, p, s.target[q]);
    case Assigning(p, q) =>
      if p != q {
        Released(s, p);
        ReleaseGives(s, p);
        AcquireGives(Release(s, p), p, s.target[q]);
      }
    case Initializing(p, ptr) =>
      TargetIsLive(s, p);
      InitializeGives(s, p, ptr);
    case Destroying(p) =>
      Released(s, p);
      ReleaseGives(s, p);
  }

  // Every operation of a sequence is used as it has to be, and at no time too many handles
  // share a counter.
  ghost predicate Legal<H, C>(s: State<H, C>, ops: seq<Op<H, C>>)
    requires Sound(s)
    decreases |ops|
  {
    ops == [] || (Fits(s) && Enabled(s, ops[0]) && Legal(Step(s, ops[0]), ops[1..]))
  }

  ghost function Run<H, C>(s: State<H, C>, ops: seq<Op<H, C>>): (t: State<H, C>)
    requires Sound(s) && Legal(s, ops)
    ensures Sound(t)
    decreases |ops|
  {
    if ops == [] then s else Run(Step(s, ops[0]), ops[1..])
  }

  // The objects that a sequence of operations hands over: those of the constructions, and
  // those of the initializations that find a counter without one; no null pointers.
  ghost function HandedOver<H, C>(s: State<H, C>, ops: seq<Op<H, C>>): set<nat>
    requires Sound(s) && Legal(s, ops)
    decreases |ops|
  {
    if ops == [] then {} else Offered(s, ops[0]) + HandedOver(Step(s, ops[0]), ops[1..])
  }

  function Offered<H, C>(s: State<H, C>, op: Op<H, C>): set<nat>
    requires Enabled(s, op)
  {
    match op
    case Constructing(_, _, ptr) => {ptr} - {0}
    case Initializing(p, ptr) => if s.target[p].To? && Object(s, p) == 0 then {ptr} - {0} else {}
    case _ => {}
  }

  lemma StepAdds<H, C>(s: State<H, C>, op: Op<H, C>)
    requires Sound(s) && Fits(s) && Enabled(s, op)
    ensures Step(s, op).given == s.given + Offered(s, op)
  {
    hide Owners, OwnedOnce, CountsOwners;
    match op
    case Assigning(p, q) => Released(s, p);
    case Initializing(p, ptr) => TargetIsLive(s, p);
    case _ =>
  }

  lemma {:induction false} GivenIs<H, C>(s: State<H, C>, ops: seq<Op<H, C>>)
    requires Sound(s) && Legal(s, ops)
    ensures Run(s, ops).given == s.given + HandedOver(s, ops)
    decreases |ops|
  {
    hide Sound, Fits, Offered;
    if ops != [] {
      StepAdds(s, ops[0]);
      GivenIs(Step(s, ops[0]), ops[1..]);
    }
  }

  // The handles give back what the operations promise, after every operation of a run.
  lemma {:induction false} EveryStep<H, C>(s: State<H, C>, ops: seq<Op<H, C>>, n: nat)
    requires Sound(s) && Legal(s, ops) && n < |ops|
    ensures Legal(s, ops[..n]) && Fits(Run(s, ops[..n])) && Enabled(Run(s, ops[..n]), ops[n])
    ensures Legal(s, ops[..n + 1]) && Promised(Run(s, ops[..n]), Run(s, ops[..n + 1]), ops[n])
    decreases |ops|
  {
    hide Sound, Fits, Promised, Step, Enabled;
    if n == 0 {
      assert ops[..0] == [] && ops[..1] == [ops[0]] && [ops[0]][1..] == [];
      StepGives(s, ops[0]);
    } else {
      EveryStep(Step(s, ops[0]), ops[1..], n - 1);
      assert ops[..n][1..] == ops[1..][..n - 1] && ops[..n + 1][1..] == ops[1..][..n];
    }
  }

  // After any legal sequence of operations: no handle dangles, every counter counts its
  // handles, every object handed over is either deleted or owned by a counter with a
  // handle, none is deleted twice; and once all handles are destroyed, every object has
  // been deleted exactly once.
  lemma EveryRun<H, C>(ops: seq<Op<H, C>>)
    requires Legal(Start<H, C>(), ops)
    ensures var t, given := Run(Start<H, C>(), ops), HandedOver(Start<H, C>(), ops);
            && (forall p :: p in t.target && t.target[p].To? ==> t.target[p].c in t.refs)
            && (forall c :: c in t.refs ==> Owners(t, c) != {} && t.refs[c] == |Owners(t, c)| % MODULUS)
            && (forall x :: x in given <==> x in t.deleted || exists c :: c in t.objects && t.objects[c] == x != 0)
            && (forall p :: p in t.target && Object(t, p) != 0 ==> Object(t, p) in given && Object(t, p) !in t.deleted)
            && (forall i, j :: 0 <= i < j < |t.deleted| ==> t.deleted[i] != t.deleted[j])
            && (t.target == map[] ==> t.refs == map[] && forall x :: x in given <==> x in t.deleted)
  {
    var t := Run(Start<H, C>(), ops);
    hide Owners, Offered;
    GivenIs(Start<H, C>(), ops);
    forall c | c in t.refs ensures Owners(t, c) != {} && t.refs[c] == |Owners(t, c)| % MODULUS {
      assert CountsOwners(t, c);
    }
    if t.target == map[] {
      NoneLive(t);
    }
  }

  lemma NoneLive<H, C>(t: State<H, C>)
    requires Sound(t) && t.target == map[]
    ensures t.refs == map[] && t.objects == map[]
  {
    assert forall c: C :: Owners(t, c) == {};
    assert forall c :: c in t.refs ==> CountsOwners(t, c);
    assert t.refs.Keys == {};
  }

  // --- The count wraps around ------------------------------------------------------------

  // One construction and n copies.
  function Crowd(n: nat): (s: State<nat, nat>)
    ensures 0 in s.refs && 0 in s.objects
  {
    if n == 0 then Create(Start<nat, nat>(), 0, 0, 1) else Acquire(Crowd(n - 1), n, To(0))
  }

  // All handles up to n share the one counter.
  ghost predicate Crowded(s: State<nat, nat>, n: nat) {
    && Sound(s) && 0 in s.refs && (forall p: nat :: p in s.target <==> p <= n)
    && (forall p :: p in s.target ==> s.target[p] == To(0)) && |Owners(s, 0)| == n + 1
  }

  lemma {:induction false} CrowdIsSound(n: nat)
    ensures Crowded(Crowd(n), n)
  {
    hide Crowded, Crowd;
    if n == 0 {
      FirstOfCrowd();
    } else {
      CrowdIsSound(n - 1);
      OneMore(Crowd(n - 1), n);
      CrowdStep(n);
    }
  }

  lemma CrowdStep(n: nat)
    requires n > 0
    ensures Live(Crowd(n - 1), To(0)) && Crowd(n) == Acquire(Crowd(n - 1), n, To(0))
  {}

  lemma FirstOfCrowd()
    ensures Crowded(Crowd(0), 0)
  {
    var s := Create(Start<nat, nat>(), 0, 0, 1);
    CreateKeeps(Start<nat, nat>(), 0, 0, 1);
    hide Sound;
    assert s.target == map[0 := To(0)];
    assert Owners(s, 0) == {0} && |{0}| == 1;
  }

  lemma OneMore(s: State<nat, nat>, n: nat)
    requires n > 0 && Crowded(s, n - 1)
    ensures Live(s, To(0)) && Crowded(Acquire(s, n, To(0)), n)
  {
    hide OwnedOnce, CountsOwners;
    AcquireKeeps(s, n, To(0));
    hide Sound, Counted;
    assert Owners(Acquire(s, n, To(0)), 0) == Owners(s, 0) + {n};
  }

  // With 2^32 + 1 handles on one object, or any multiple of 2^32 and one more, releasing
  // any of them frees it.
  lemma CrowdFails(n: nat, p: nat)
    requires p <= n && n > 0 && n % MODULUS == 0
    ensures var s := Crowd(n);
            && Sound(s) && p in s.target && Live(s, s.target[p])
            && !Sound(Release(s, p)) && 0 !in Release(s, p).refs && |Owners(s, 0)| == n + 1
  {
    CrowdIsSound(n);
    hide Sound, Crowd;
    ReleaseKeepsIff(Crowd(n), p);
  }
}
