/** Maximal munch on a whole text: the reference for the buffered scanners. */
module Munch {
  import opened Flex

  // The state after the first j bytes of a text.
  function StateAt(g: Scanner, start: int, text: seq<Byte>, j: nat): (s: nat)
    requires IsStart(g, start) && j <= |text|
    ensures IsState(g, s) && s != EobState(g)
  {
    if j == 0 then start else Step(g, StateAt(g, start, text, j - 1), text[j - 1])
  }

  function RuleAt(g: Scanner, start: int, text: seq<Byte>, j: nat): nat
    requires IsStart(g, start) && j <= |text|
  {
    Accept(g, StateAt(g, start, text, j))
  }

  // No prefix longer than n matches a rule.
  ghost predicate NoneLonger(g: Scanner, start: int, text: seq<Byte>, n: nat)
    requires IsStart(g, start)
  {
    forall j :: n < j <= |text| ==> RuleAt(g, start, text, j) == 0
  }

  // The longest prefix that matches a rule has length n, and the rule is rule.
  ghost predicate IsMunch(g: Scanner, start: int, text: seq<Byte>, n: nat, rule: nat)
    requires IsStart(g, start)
  {
    && n <= |text| && rule != 0 && rule == RuleAt(g, start, text, n)
    && NoneLonger(g, start, text, n)
  }

  // The length of the longest match, by trying the longest prefixes first.
  function Longest(g: Scanner, start: int, text: seq<Byte>, j: nat): (n: nat)
    requires IsStart(g, start) && j <= |text|
    ensures n <= j
    ensures forall i :: n < i <= j ==> RuleAt(g, start, text, i) == 0
    ensures n > 0 ==> RuleAt(g, start, text, n) != 0
  {
    if j == 0 || RuleAt(g, start, text, j) != 0 then j else Longest(g, start, text, j - 1)
  }

  lemma FirstByteMatches(g: Scanner, start: int, text: seq<Byte>)
    requires IsStart(g, start) && text != []
    ensures RuleAt(g, start, text, 1) != 0
  {
    var b := text[0];
    ClassBounds(g, b, 1);
    Progress(g, start, if b == 0 then 1 else Ec(g, b));
    assert StateAt(g, start, text, 0) == start;
  }

  // Maximal munch always succeeds, consumes something, and has one outcome.
  lemma MunchIsDefined(g: Scanner, start: int, text: seq<Byte>)
    requires IsStart(g, start) && text != []
    ensures var n := Longest(g, start, text, |text|);
            n > 0 && IsMunch(g, start, text, n, RuleAt(g, start, text, n))
  {
    FirstByteMatches(g, start, text);
  }

  lemma MunchIsUnique(g: Scanner, start: int, text: seq<Byte>, n: nat, rule: nat)
    requires IsStart(g, start) && text != [] && IsMunch(g, start, text, n, rule)
    ensures n == Longest(g, start, text, |text|) > 0
  {
    FirstByteMatches(g, start, text);
    var m := Longest(g, start, text, |text|);
  }

  // Once jammed, always jammed.
  lemma {:induction false} JamForever(g: Scanner, start: int, text: seq<Byte>, i: nat, j: nat)
    requires IsStart(g, start) && i <= j <= |text|
    requires StateAt(g, start, text, i) == Jam(g)
    ensures StateAt(g, start, text, j) == Jam(g)
    decreases j
  {
    hide Successor, Ec, Accept;
    if i < j {
      JamForever(g, start, text, i, j - 1);
      ClassBounds(g, text[j - 1], 1);
      JamStays(g, if text[j - 1] == 0 then 1 else Ec(g, text[j - 1]));
    }
  }

  lemma JammedEnds(g: Scanner, start: int, text: seq<Byte>, i: nat)
    requires IsStart(g, start) && i <= |text| && StateAt(g, start, text, i) == Jam(g)
    ensures forall j :: i <= j <= |text| ==> RuleAt(g, start, text, j) == 0
  {
    forall j | i <= j <= |text| ensures RuleAt(g, start, text, j) == 0 {
      JamForever(g, start, text, i, j);
      Accepting(g, Jam(g));
    }
  }

  // A state that shares the jam row ends the match.
  lemma DeadEnds(g: Scanner, start: int, text: seq<Byte>, i: nat)
    requires IsStart(g, start) && i <= |text|
    requires var s := StateAt(g, start, text, i); s != Jam(g) && Base(g, s) == Base(g, Jam(g))
    ensures IsMunch(g, start, text, i, RuleAt(g, start, text, i))
  {
    hide Successor, Ec, Accept, Base;
    DeadRow(g, StateAt(g, start, text, i));
    if i < |text| {
      var b := text[i];
      ClassBounds(g, b, 1);
      DeadJams(g, StateAt(g, start, text, i), if b == 0 then 1 else Ec(g, b));
      JammedEnds(g, start, text, i + 1);
    }
  }
}
