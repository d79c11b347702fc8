/** The state stack and the value stack of a yacc-generated parser: the arrays, and the
    stack of pairs that they hold. */
module LrStack {
  // The state stack and the value stack side by side; state 0 is at the bottom.
  datatype Stack = Bottom | Push(below: Stack, top: int, val: string)

  function Top(k: Stack): int {
    if k.Bottom? then 0 else k.top
  }

  function Below(k: Stack): Stack {
    if k.Bottom? then Bottom else k.below
  }

  function Val(k: Stack): string {
    if k.Bottom? then "" else k.val
  }

  function Depth(k: Stack): nat {
    if k.Bottom? then 1 else 1 + Depth(k.below)
  }

  // The stack without its n topmost entries; no rule is longer than 9.
  function Pop(k: Stack, n: nat): Stack {
    if n < 4 then
      match n
      case 0 => k
      case 1 => Below(k)
      case 2 => Below(Below(k))
      case _ => Below(Below(Below(k)))
    else PopLong(Below(Below(Below(Below(k)))), n - 4)
  }

  function PopLong(k: Stack, n: nat): Stack {
    match n
    case 0 => k
    case 1 => Below(k)
    case 2 => Below(Below(k))
    case 3 => Below(Below(Below(k)))
    case 4 => Below(Below(Below(Below(k))))
    case _ => Below(Below(Below(Below(Below(k)))))
  }

  lemma PopStep(k: Stack, n: nat)
    requires n > 0
    ensures Pop(k, n) == if n <= 9 then Below(Pop(k, n - 1)) else Pop(k, n - 1)
  {}

  // The first n entries of the state and value stacks.
  ghost function StackOf(ss: seq<int>, vs: seq<string>, n: nat): (k: Stack)
    requires 0 < n <= |ss| == |vs|
    ensures Depth(k) == n
  {
    if n == 1 then Bottom else Push(StackOf(ss, vs, n - 1), ss[n - 1], vs[n - 1])
  }

  lemma {:induction false} StackOfPrefix(ss: seq<int>, vs: seq<string>, ss1: seq<int>, vs1: seq<string>, n: nat)
    requires 0 < n <= |ss| == |vs| && n <= |ss1| == |vs1|
    requires ss[..n] == ss1[..n] && vs[..n] == vs1[..n]
    ensures StackOf(ss, vs, n) == StackOf(ss1, vs1, n)
  {
    if n > 1 {
      assert ss[..n][n - 1] == ss1[..n][n - 1] && vs[..n][n - 1] == vs1[..n][n - 1];
      assert ss[..n - 1] == ss[..n][..n - 1] && ss1[..n - 1] == ss1[..n][..n - 1];
      assert vs[..n - 1] == vs[..n][..n - 1] && vs1[..n - 1] == vs1[..n][..n - 1];
      StackOfPrefix(ss, vs, ss1, vs1, n - 1);
    }
  }

  // What *++yyvsp = v and *++yyssp = t do.
  lemma Pushes(ss: seq<int>, vs: seq<string>, n: nat, t: int, v: string)
    requires 0 < n < |ss| == |vs|
    ensures StackOf(ss[n := t], vs[n := v], n + 1) == Push(StackOf(ss, vs, n), t, v)
  {
    StackOfPrefix(ss, vs, ss[n := t], vs[n := v], n);
  }

  // What YYPOPSTACK(len) does, for the rule lengths of the grammars.
  lemma {:induction false} Pops(ss: seq<int>, vs: seq<string>, n: nat, len: nat)
    requires len < n <= |ss| == |vs| && len <= 9
    ensures StackOf(ss, vs, n - len) == Pop(StackOf(ss, vs, n), len)
  {
    if len > 0 {
      Pops(ss, vs, n, len - 1);
      PopStep(StackOf(ss, vs, n), len);
    }
  }

  // yyvsp[-i] is the value i entries below the top.
  lemma ReadsStack(ss: seq<int>, vs: seq<string>, n: nat, len: nat)
    requires len < n <= |ss| == |vs| && len <= 9 && ss[0] == 0
    ensures forall i :: 0 <= i < len ==> Val(Pop(StackOf(ss, vs, n), i)) == vs[n - 1 - i]
    ensures n > 1 ==> Val(StackOf(ss, vs, n)) == vs[n - 1]
    ensures Top(Pop(StackOf(ss, vs, n), len)) == ss[n - 1 - len]
  {
    forall i | 0 <= i < len ensures Val(Pop(StackOf(ss, vs, n), i)) == vs[n - 1 - i] {
      Pops(ss, vs, n, i);
    }
    Pops(ss, vs, n, len);
  }

  // *++yyvsp = v and *++yyssp = t.
  method PushEntry(yyss: array<int>, yyvs: array<string>, yyssp: nat, t: int, v: string)
    requires yyss.Length == yyvs.Length && yyssp + 1 < yyss.Length
    modifies yyss, yyvs
    ensures yyss[0] == old(yyss[0]) && yyss[yyssp + 1] == t
    ensures StackOf(yyss[..], yyvs[..], yyssp + 2) == Push(old(StackOf(yyss[..], yyvs[..], yyssp + 1)), t, v)
  {
    Pushes(yyss[..], yyvs[..], yyssp + 1, t, v);
    ghost var ss, vs := yyss[..], yyvs[..];
    yyvs[yyssp + 1] := v;
    yyss[yyssp + 1] := t;
    assert yyss[..] == ss[yyssp + 1 := t] && yyvs[..] == vs[yyssp + 1 := v];
  }
}
