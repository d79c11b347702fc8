/** The automata that flex packed into the scanner tables: the fallback chain that finds a
    successor state, and the facts about the two sets of tables that scanning rests on. */
module Flex {
  import Scout = ScoutScannerTables
  import Silas = SilasScannerTables

  datatype Scanner = ScoutScanner | SilasScanner

  type Byte = b: int | 0 <= b < 256

  function Jam(g: Scanner): nat {
    match g case ScoutScanner => Scout.JAM case SilasScanner => Silas.JAM
  }

  function EobState(g: Scanner): nat {
    match g case ScoutScanner => Scout.EOB_STATE case SilasScanner => Silas.EOB_STATE
  }

  // The action number of YY_END_OF_BUFFER.
  function EndOfBuffer(g: Scanner): nat {
    match g case ScoutScanner => Scout.END_OF_BUFFER case SilasScanner => Silas.END_OF_BUFFER
  }

  function Classes(g: Scanner): nat {
    match g case ScoutScanner => Scout.CLASSES case SilasScanner => Silas.CLASSES
  }

  function Rows(g: Scanner): nat {
    match g case ScoutScanner => Scout.ROWS case SilasScanner => Silas.ROWS
  }

  // The states of the automaton; the rows above the jam state are templates.
  predicate IsState(g: Scanner, s: int) {
    1 <= s <= Jam(g)
  }

  predicate IsRow(g: Scanner, s: int) {
    1 <= s < Rows(g)
  }

  // yy_start for the start conditions: 1 + 2 * condition.
  predicate IsStart(g: Scanner, s: int) {
    s == 1 || s == 3 || (g.ScoutScanner? && (s == 5 || s == 7))
  }

  function Accept(g: Scanner, s: int): nat
    requires IsState(g, s)
  {
    match g case ScoutScanner => Scout.Accept(s) case SilasScanner => Silas.Accept(s)
  }

  function Ec(g: Scanner, b: Byte): nat {
    match g case ScoutScanner => Scout.Ec(b) case SilasScanner => Silas.Ec(b)
  }

  function Meta(g: Scanner, c: int): nat
    requires 0 <= c < Classes(g)
  {
    match g case ScoutScanner => Scout.Meta(c) case SilasScanner => Silas.Meta(c)
  }

  function Base(g: Scanner, s: int): nat
    requires IsRow(g, s)
  {
    match g case ScoutScanner => Scout.Base(s) case SilasScanner => Silas.Base(s)
  }

  function Def(g: Scanner, s: int): nat
    requires IsRow(g, s)
  {
    match g case ScoutScanner => Scout.Def(s) case SilasScanner => Silas.Def(s)
  }

  function Entries(g: Scanner): nat {
    match g case ScoutScanner => Scout.ENTRIES case SilasScanner => Silas.ENTRIES
  }

  function Nxt(g: Scanner, i: int): nat
    requires 0 <= i < Entries(g)
  {
    match g case ScoutScanner => Scout.Nxt(i) case SilasScanner => Silas.Nxt(i)
  }

  function Chk(g: Scanner, i: int): nat
    requires 0 <= i < Entries(g)
  {
    match g case ScoutScanner => Scout.Chk(i) case SilasScanner => Silas.Chk(i)
  }

  // Falls along the fallback chain, which ends in the jam row.
  function Rank(g: Scanner, s: int): nat {
    if s == Jam(g) then 0 else if s > Jam(g) then 1 else if g.ScoutScanner? && s == 2 then 3 else 2
  }

  // --- What the tables guarantee -----------------------------------------------------

  lemma RowBounds(g: Scanner, s: int)
    requires IsRow(g, s)
    ensures Base(g, s) + Classes(g) <= Entries(g)
  {}

  lemma ClassBounds(g: Scanner, b: Byte, c: int)
    ensures Ec(g, b) < Classes(g)
    ensures Ec(g, b) == 0 <==> b == 0
    ensures 0 <= c < Classes(g) ==> Meta(g, c) < Classes(g) && (Meta(g, c) == 0 <==> c == 0)
  {}

  lemma FallbackFalls(g: Scanner, s: int)
    requires IsRow(g, s) && s != Jam(g)
    ensures IsRow(g, Def(g, s)) && Rank(g, Def(g, s)) < Rank(g, s)
  {}

  // The jam row owns an entry for every class, so the chain always ends.
  lemma JamRow(g: Scanner, c: int)
    requires 0 <= c < Classes(g)
    ensures IsRow(g, Jam(g)) && Base(g, Jam(g)) + c < Entries(g)
    ensures Chk(g, Base(g, Jam(g)) + c) == Jam(g)
    ensures Nxt(g, Base(g, Jam(g)) + c) == if c == 0 then EobState(g) else Jam(g)
  {}

  // Only the end-of-buffer state and the jam state own an entry for class 0.
  lemma ClassZero(g: Scanner, s: int)
    requires IsRow(g, s)
    ensures Base(g, s) < Entries(g)
    ensures Chk(g, Base(g, s)) == s <==> s == Jam(g) || s == EobState(g)
  {
    hide Base, Chk;
    if s < 70 {
      ClassZeroLow(g, s);
    } else {
      ClassZeroHigh(g, s);
    }
  }

  lemma ClassZeroLow(g: Scanner, s: int)
    requires IsRow(g, s) && s < 70
    ensures Base(g, s) < Entries(g)
    ensures Chk(g, Base(g, s)) == s <==> s == Jam(g) || s == EobState(g)
  {}

  lemma ClassZeroHigh(g: Scanner, s: int)
    requires IsRow(g, s) && s >= 70
    ensures Base(g, s) < Entries(g)
    ensures Chk(g, Base(g, s)) == s <==> s == Jam(g) || s == EobState(g)
  {}

  lemma Targets(g: Scanner, i: int)
    requires 0 < i < Entries(g)
    ensures IsState(g, Nxt(g, i))
    ensures Nxt(g, i) == EobState(g) <==> i == Base(g, Jam(g))
  {}

  lemma EntryZero(g: Scanner)
    ensures Chk(g, 0) == 0 && Base(g, Jam(g)) > 0
  {}

  lemma EobRow(g: Scanner, c: int)
    requires 0 <= c < Classes(g)
    ensures IsState(g, EobState(g)) && EobState(g) != Jam(g) && Def(g, EobState(g)) == Jam(g)
    ensures Base(g, EobState(g)) + c < Entries(g)
    ensures c > 0 ==> Chk(g, Base(g, EobState(g)) + c) != EobState(g)
    ensures c == 0 ==> Nxt(g, Base(g, EobState(g))) == Jam(g)
  {}

  // States that share the row of the jam state accept and go nowhere.
  lemma DeadRow(g: Scanner, s: int)
    requires IsState(g, s) && s != Jam(g) && Base(g, s) == Base(g, Jam(g))
    ensures Def(g, s) == Jam(g) && Accept(g, s) != 0 && s != EobState(g)
  {}

  lemma Accepting(g: Scanner, s: int)
    requires IsState(g, s)
    ensures Accept(g, s) == EndOfBuffer(g) <==> s == EobState(g)
    ensures Accept(g, Jam(g)) == 0 && EndOfBuffer(g) != 0
  {}

  // --- The dense automaton -----------------------------------------------------------

  // The successor of state s on character class c.
  function Successor(g: Scanner, s: int, c: int): nat
    requires IsRow(g, s) && 0 <= c < Classes(g)
    decreases Rank(g, s)
  {
    RowBounds(g, s);
    JamRow(g, c);
    if Chk(g, Base(g, s) + c) == s then Nxt(g, Base(g, s) + c)
    else
      FallbackFalls(g, s);
      ClassBounds(g, 0, c);
      Successor(g, Def(g, s), if Def(g, s) > Jam(g) then Meta(g, c) else c)
  }

  lemma {:induction false} SuccessorIsState(g: Scanner, s: int, c: int)
    requires IsRow(g, s) && 0 <= c < Classes(g)
    ensures IsState(g, Successor(g, s, c))
    ensures c > 0 ==> Successor(g, s, c) != EobState(g)
    ensures c == 0 && s != EobState(g) ==> Successor(g, s, c) == EobState(g)
    decreases Rank(g, s)
  {
    RowBounds(g, s);
    JamRow(g, c);
    EntryZero(g);
    ClassZero(g, s);
    var i := Base(g, s) + c;
    if Chk(g, i) == s {
      Targets(g, i);
    } else {
      FallbackFalls(g, s);
      ClassBounds(g, 0, c);
      EobRow(g, 0);
      NoFallbackToEob(g, s);
      SuccessorIsState(g, Def(g, s), if Def(g, s) > Jam(g) then Meta(g, c) else c);
    }
  }

  lemma NoFallbackToEob(g: Scanner, s: int)
    requires IsRow(g, s) && s != Jam(g)
    ensures Def(g, s) != EobState(g)
  {}

  lemma JamStays(g: Scanner, c: int)
    requires 0 < c < Classes(g)
    ensures IsRow(g, Jam(g)) && Successor(g, Jam(g), c) == Jam(g)
  {
    JamRow(g, c);
  }

  // After an end-of-buffer character any further one jams.
  lemma EobJams(g: Scanner, c: int)
    requires 0 <= c < Classes(g)
    ensures IsState(g, EobState(g)) && EobState(g) != Jam(g) && Successor(g, EobState(g), c) == Jam(g)
  {
    EobRow(g, c);
    JamRow(g, c);
    ClassZero(g, EobState(g));
  }

  lemma DeadJams(g: Scanner, s: int, c: int)
    requires IsState(g, s) && s != Jam(g) && Base(g, s) == Base(g, Jam(g)) && 0 < c < Classes(g)
    ensures Successor(g, s, c) == Jam(g)
  {
    DeadRow(g, s);
    JamRow(g, c);
  }

  // Every single character matches some rule in every start condition.
  lemma Progress(g: Scanner, s: int, c: int)
    requires IsStart(g, s) && 0 < c < Classes(g)
    ensures IsState(g, Successor(g, s, c)) && Accept(g, Successor(g, s, c)) != 0
  {
    hide Base, Def, Nxt, Chk, Meta, Accept;
    SuccessorIsState(g, s, c);
    var i := StartEntry(g, s, c);
    StartAccepts(g, s, c);
  }

  // The entry that a start state uses: its own or that of its template.
  lemma StartEntry(g: Scanner, s: int, c: int) returns (i: nat)
    requires IsStart(g, s) && 0 < c < Classes(g)
    ensures i < Entries(g) && Successor(g, s, c) == Nxt(g, i)
    ensures (i == Base(g, s) + c && Chk(g, i) == s)
            || (Chk(g, Base(g, s) + c) != s && i == Base(g, Def(g, s)) + Meta(g, c))
  {
    hide Base, Def, Nxt, Chk, Meta, Rank;
    RowBounds(g, s);
    i := Base(g, s) + c;
    if Chk(g, i) != s {
      JamRow(g, c);
      FallbackFalls(g, s);
      ClassBounds(g, 0, c);
      StartRows(g, s, c);
      var d := Def(g, s);
      RowBounds(g, d);
      i := Base(g, d) + Meta(g, c);
      assert Successor(g, d, Meta(g, c)) == Nxt(g, i);
    }
  }

  lemma StartRows(g: Scanner, s: int, c: int)
    requires IsStart(g, s) && 0 < c < Classes(g)
    requires Base(g, s) + c < Entries(g) && Chk(g, Base(g, s) + c) != s
    ensures Def(g, s) > Jam(g) && IsRow(g, Def(g, s)) && Base(g, Def(g, s)) + Meta(g, c) < Entries(g)
    ensures Chk(g, Base(g, Def(g, s)) + Meta(g, c)) == Def(g, s)
  {}

  lemma StartAccepts(g: Scanner, s: int, c: int)
    requires IsStart(g, s) && 0 < c < Classes(g)
    ensures Base(g, s) + c < Entries(g)
    ensures var i := Base(g, s) + c;
            Chk(g, i) == s ==> IsState(g, Nxt(g, i)) && Accept(g, Nxt(g, i)) != 0
    ensures Chk(g, Base(g, s) + c) != s ==>
              && IsRow(g, Def(g, s)) && Base(g, Def(g, s)) + Meta(g, c) < Entries(g)
              && var i := Base(g, Def(g, s)) + Meta(g, c);
                 IsState(g, Nxt(g, i)) && Accept(g, Nxt(g, i)) != 0
  {
    hide Scout.Base, Scout.Chk, Scout.Nxt, Scout.Def, Scout.Meta, Scout.Accept;
    hide Silas.Base, Silas.Chk, Silas.Nxt, Silas.Def, Silas.Meta, Silas.Accept;
    RowBounds(g, s);
    if Chk(g, Base(g, s) + c) != s {
      StartRows(g, s, c);
    }
    match g
    case ScoutScanner => ScoutStartAccepts(s, c);
    case SilasScanner => SilasStartAccepts(s, c);
  }

  lemma ScoutStartAccepts(s: int, c: int)
    requires IsStart(ScoutScanner, s) && 0 < c < Scout.CLASSES
    ensures var i := if Scout.Chk(Scout.Base(s) + c) == s then Scout.Base(s) + c
                     else Scout.Base(Scout.Def(s)) + Scout.Meta(c);
            1 <= Scout.Nxt(i) <= Scout.JAM && Scout.Accept(Scout.Nxt(i)) != 0
  {
    hide Scout.Base, Scout.Chk, Scout.Nxt, Scout.Def, Scout.Meta, Scout.Accept;
    if s <= 3 {
      ScoutStartAcceptsLow(s, c);
    } else {
      ScoutStartAcceptsHigh(s, c);
    }
  }

  lemma ScoutStartAcceptsLow(s: int, c: int)
    requires IsStart(ScoutScanner, s) && s <= 3 && 0 < c < Scout.CLASSES
    ensures var i := if Scout.Chk(Scout.Base(s) + c) == s then Scout.Base(s) + c
                     else Scout.Base(Scout.Def(s)) + Scout.Meta(c);
            1 <= Scout.Nxt(i) <= Scout.JAM && Scout.Accept(Scout.Nxt(i)) != 0
  {}

  lemma ScoutStartAcceptsHigh(s: int, c: int)
    requires IsStart(ScoutScanner, s) && s > 3 && 0 < c < Scout.CLASSES
    ensures var i := if Scout.Chk(Scout.Base(s) + c) == s then Scout.Base(s) + c
                     else Scout.Base(Scout.Def(s)) + Scout.Meta(c);
            1 <= Scout.Nxt(i) <= Scout.JAM && Scout.Accept(Scout.Nxt(i)) != 0
  {}

  lemma SilasStartAccepts(s: int, c: int)
    requires IsStart(SilasScanner, s) && 0 < c < Silas.CLASSES
    ensures var i := if Silas.Chk(Silas.Base(s) + c) == s then Silas.Base(s) + c
                     else Silas.Base(Silas.Def(s)) + Silas.Meta(c);
            1 <= Silas.Nxt(i) <= Silas.JAM && Silas.Accept(Silas.Nxt(i)) != 0
  {
    hide Silas.Base, Silas.Chk, Silas.Nxt, Silas.Def, Silas.Meta, Silas.Accept;
    if s <= 1 {
      SilasStartAcceptsLow(s, c);
    } else {
      SilasStartAcceptsHigh(s, c);
    }
  }

  lemma SilasStartAcceptsLow(s: int, c: int)
    requires IsStart(SilasScanner, s) && s <= 1 && 0 < c < Silas.CLASSES
    ensures var i := if Silas.Chk(Silas.Base(s) + c) == s then Silas.Base(s) + c
                     else Silas.Base(Silas.Def(s)) + Silas.Meta(c);
            1 <= Silas.Nxt(i) <= Silas.JAM && Silas.Accept(Silas.Nxt(i)) != 0
  {}

  lemma SilasStartAcceptsHigh(s: int, c: int)
    requires IsStart(SilasScanner, s) && s > 1 && 0 < c < Silas.CLASSES
    ensures var i := if Silas.Chk(Silas.Base(s) + c) == s then Silas.Base(s) + c
                     else Silas.Base(Silas.Def(s)) + Silas.Meta(c);
            1 <= Silas.Nxt(i) <= Silas.JAM && Silas.Accept(Silas.Nxt(i)) != 0
  {}

  // The state after a byte of the input; a NUL byte counts as class 1.
  function Step(g: Scanner, s: int, b: Byte): (t: nat)
    requires IsState(g, s)
    ensures IsState(g, t) && t != EobState(g)
  {
    var c := if b == 0 then 1 else Ec(g, b);
    ClassBounds(g, b, 1);
    SuccessorIsState(g, s, c);
    Successor(g, s, c)
  }
}
