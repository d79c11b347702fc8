/** preprocessText leaves the text of every line as it is, from its first character that is
    no whitespace to its last one, with the whitespace in between, and takes the same
    indentation from all lines. */
module LineTexts {
  import opened Numbers
  import opened CodeText
  import opened CodeLines

  // The text of a line that is not blank, with the number of the line, the whitespace
  // before it, and how much of that are blanks and tabs from the start.
  datatype LineText = LineText(text: string, line: int, spaces: nat, blanks: nat)

  function TextOf(l: string, line: int): LineText {
    LineText(Core(l), line, Spaces(l), Blanks(l))
  }

  // A line without an indentation of base, or with all its blanks gone if it has less.
  function Shift(t: LineText, base: nat): LineText {
    var n := Min(t.blanks, base);
    t.(spaces := if t.spaces > n then t.spaces - n else 0, blanks := t.blanks - n)
  }

  function Shifted(ts: seq<LineText>, base: nat): (us: seq<LineText>)
    ensures |us| == |ts| && forall i :: 0 <= i < |ts| ==> us[i] == Shift(ts[i], base)
  {
    seq(|ts|, i requires 0 <= i < |ts| => Shift(ts[i], base))
  }

  function Core(l: string): string {
    if |TrimEnd(l)| <= Spaces(l) then "" else TrimEnd(l)[Spaces(l)..]
  }

  function LineTexts(s: string, line: int): seq<LineText>
    decreases |s|
  {
    if s == "" then []
    else
      var l := s[..LineLength(s)];
      (if BlankLine(l) then [] else [TextOf(l, line)]) + LineTexts(s[LineLength(s)..], line + 1)
  }

  lemma FirstText(l: string, u: string, line: int)
    requires l != "" && LineLength(l) == |l| && (u == "" || l[|l| - 1] == '\n')
    ensures LineTexts(l + u, line) == (if BlankLine(l) then [] else [TextOf(l, line)]) + LineTexts(u, line + 1)
  {
    hide Core, LineLength;
    LineIs(l + u, |l|);
    assert (l + u)[..|l|] == l && (l + u)[|l|..] == u;
  }

  lemma {:induction false} BlankTexts(s: string, line: int)
    requires forall i :: 0 <= i < |s| ==> IsSpace(s[i])
    ensures LineTexts(s, line) == []
    decreases |s|
  {
    if s != "" {
      BlankTexts(s[LineLength(s)..], line + 1);
    }
  }

  lemma FirstIsBlank(s: string, line: int)
    requires BlankLine(s[..LineLength(s)])
    ensures LineTexts(s, line) == LineTexts(s[LineLength(s)..], line + 1)
  {
    hide Core, Spaces;
    BlankTexts("", line + 1);
  }

  lemma {:induction false} FromFirstTexts(s: string, line: int)
    ensures LineTexts(FromFirstLine(s), line + LeadingBlankLines(s)) == LineTexts(s, line)
    decreases |s|
  {
    hide LineTexts, LineLength, BlankLine;
    var n := LineLength(s);
    if BlankLine(s[..n]) {
      FirstIsBlank(s, line);
      if n < |s| {
        FromFirstTexts(s[n..], line + 1);
      } else {
        assert s[n..] == "";
      }
    }
  }

  lemma SuffixText(l: string, n: nat)
    requires n <= Spaces(l)
    ensures Core(l[n..]) == Core(l) && (BlankLine(l[n..]) <==> BlankLine(l)) && Spaces(l[n..]) == Spaces(l) - n
    ensures n <= Blanks(l) ==> Blanks(l[n..]) == Blanks(l) - n
  {
    hide Spaces, Blanks, TrimEnd;
    TrimSuffix(l, n);
    SpacesOfSuffix(l, n);
    if n <= Blanks(l) {
      BlanksOfSuffix(l, n);
    }
    var t := TrimEnd(l);
    if Spaces(l) < |t| {
      assert t[n..][Spaces(l) - n..] == t[Spaces(l)..];
    }
  }

  lemma {:induction false} SpacesOfSuffix(l: string, n: nat)
    requires n <= Spaces(l)
    ensures Spaces(l[n..]) == Spaces(l) - n
  {
    if n > 0 {
      SpacesOfSuffix(l[1..], n - 1);
      assert l[1..][n - 1..] == l[n..];
    }
  }

  lemma {:induction false} BlanksOfSuffix(l: string, n: nat)
    requires n <= Blanks(l)
    ensures Blanks(l[n..]) == Blanks(l) - n
  {
    if n > 0 {
      BlanksOfSuffix(l[1..], n - 1);
      assert l[1..][n - 1..] == l[n..];
    }
  }

  lemma BlanksAreSpaces(l: string)
    ensures Blanks(l) <= Spaces(l)
  {}

  lemma ShiftedSum(a: seq<LineText>, b: seq<LineText>, base: nat)
    ensures Shifted(a + b, base) == Shifted(a, base) + Shifted(b, base)
  {}

  // The text of the first line, if it has one.
  function FirstTexts(l: string, line: int): seq<LineText> {
    if BlankLine(l) then [] else [TextOf(l, line)]
  }

  lemma TextsCons(s: string, n: nat, line: int)
    requires s != "" && n == LineLength(s)
    ensures LineTexts(s, line) == FirstTexts(s[..n], line) + LineTexts(s[n..], line + 1)
  {
    hide LineLength, BlankLine, TextOf;
  }

  lemma DedentOne(l: string, base: nat, line: int)
    ensures FirstTexts(Dedent(l, base), line) == Shifted(FirstTexts(l, line), base)
  {
    hide Spaces, Blanks, Core, BlankLine;
    BlanksAreSpaces(l);
    SuffixText(l, Min(Blanks(l), base));
  }

  lemma {:induction false} DedentTexts(s: string, base: nat, line: int)
    ensures LineTexts(DedentLines(s, base), line) == Shifted(LineTexts(s, line), base)
    decreases |s|
  {
    if s != "" {
      hide LineTexts, Blanks, LineLength, Dedent, DedentLines, FirstTexts, Shifted;
      var n := LineLength(s);
      var l := s[..n];
      DedentFirst(s, base);
      DedentOne(l, base, line);
      TextsCons(s, n, line);
      ShiftedSum(FirstTexts(l, line), LineTexts(s[n..], line + 1), base);
      if Dedent(l, base) != "" {
        DedentTexts(s[n..], base, line + 1);
        var d := DedentLines(s, base);
        assert d[..|Dedent(l, base)|] == Dedent(l, base) && d[|Dedent(l, base)|..] == DedentLines(s[n..], base);
        TextsCons(d, |Dedent(l, base)|, line);
      } else {
        AllGone(s, base, line);
      }
    }
  }

  lemma AllGone(s: string, base: nat, line: int)
    requires s != "" && LineLength(s) == |s| && Dedent(s, base) == ""
    ensures LineTexts(DedentLines(s, base), line) == Shifted(LineTexts(s, line), base)
  {
    hide LineLength, Blanks, Core, Spaces;
    assert s[..|s|] == s && s[|s|..] == "";
    EmptyDedent(base);
    OneLine(s, base);
    DedentOne(s, base, line);
    EmptyIsBlank();
  }

  lemma EmptyIsBlank()
    ensures BlankLine("")
  {}

  lemma {:induction false} TrimTexts(s: string, line: int)
    ensures LineTexts(TrimEnd(s), line) == LineTexts(s, line)
    decreases |s|
  {
    if s != "" {
      hide Core, Spaces, LineLength, TrimEnd, LineTexts;
      var n := LineLength(s);
      var l, after := s[..n], s[n..];
      assert s == l + after;
      FirstLineAlone(s);
      TrimSum(l, after);
      TrimTexts(after, line + 1);
      FirstText(l, after, line);
      if TrimEnd(after) == "" {
        BlankTexts("", line + 1);
        TrimmedText(l, line);
      } else {
        FirstText(l, TrimEnd(after), line);
      }
    }
  }

  lemma TrimmedText(l: string, line: int)
    requires l != "" && LineLength(l) == |l|
    ensures LineTexts(TrimEnd(l), line) == if BlankLine(l) then [] else [TextOf(l, line)]
  {
    TrimOneLine(l);
    var m := TrimEnd(l);
    if m != "" {
      assert m[..|m|] == m && m[|m|..] == "";
      SameText(l);
    }
  }

  lemma SameText(l: string)
    requires TrimEnd(l) != ""
    ensures Core(TrimEnd(l)) == Core(l) && !BlankLine(l) && !BlankLine(TrimEnd(l))
    ensures Spaces(TrimEnd(l)) == Spaces(l) && Blanks(TrimEnd(l)) == Blanks(l)
  {
    var m := TrimEnd(l);
    assert !IsSpace(m[|m| - 1]) && !IsSpace(l[|m| - 1]);
    assert TrimEnd(m) == m;
    SpacesOfPrefix(l, |m|);
    BlanksAreSpaces(l);
    BlanksOfPrefix(l, |m|);
    assert m == l[..|m|];
  }

  lemma {:induction false} SpacesOfPrefix(l: string, n: nat)
    requires Spaces(l) <= n <= |l|
    ensures Spaces(l[..n]) == Spaces(l)
  {
    if l != "" && IsSpace(l[0]) {
      SpacesOfPrefix(l[1..], n - 1);
      assert l[..n][1..] == l[1..][..n - 1];
    }
  }

  lemma {:induction false} BlanksOfPrefix(l: string, n: nat)
    requires Blanks(l) <= n <= |l|
    ensures Blanks(l[..n]) == Blanks(l)
  {
    if l != "" && IsBlank(l[0]) {
      BlanksOfPrefix(l[1..], n - 1);
      assert l[..n][1..] == l[1..][..n - 1];
    }
  }

  // The indentation of the first line with text is that of the block.
  lemma {:induction false} BaseOfFirst(s: string, line: int)
    ensures var ts := LineTexts(s, line);
            if ts == [] then LineTexts(FromFirstLine(s), line + LeadingBlankLines(s)) == []
            else BaseIndent(FromFirstLine(s)) == ts[0].spaces
    decreases |s|
  {
    hide Core, Spaces, Blanks, LineLength;
    FromFirstTexts(s, line);
    if s != "" && BlankLine(s[..LineLength(s)]) {
      FirstIsBlank(s, line);
      if LineLength(s) < |s| {
        BaseOfFirst(s[LineLength(s)..], line + 1);
      }
    }
  }

  // Every line that is not blank keeps its text, and its number once the dropped lines are
  // counted, and loses the indentation of the first one; a line with fewer blanks and tabs
  // loses those.
  lemma TextsKept(s: string, line: int)
    ensures var ts := LineTexts(s, line);
            LineTexts(Preprocessed(s), line + LeadingBlankLines(s)) == if ts == [] then [] else Shifted(ts, ts[0].spaces)
  {
    hide LineTexts, FromFirstLine, DedentLines, TrimEnd, LeadingBlankLines, BaseIndent;
    var t := FromFirstLine(s);
    var start := line + LeadingBlankLines(s);
    FromFirstTexts(s, line);
    BaseOfFirst(s, line);
    DedentTexts(t, BaseIndent(t), start);
    TrimTexts(DedentLines(t, BaseIndent(t)), start);
  }

  lemma {:induction false} FirstTextLine(s: string, line: int)
    ensures LineTexts(s, line) != [] ==> LineTexts(s, line)[0].line == line + LeadingBlankLines(s)
    decreases |s|
  {
    hide Core, Spaces, Blanks, LineLength;
    if s != "" && BlankLine(s[..LineLength(s)]) && LineLength(s) < |s| {
      FirstTextLine(s[LineLength(s)..], line + 1);
    }
  }

  // The result has text in its first line, and does not end in whitespace.
  lemma NoEdges(s: string)
    requires LineTexts(s, 0) != []
    ensures var p := Preprocessed(s); p != "" && LeadingBlankLines(p) == 0 && !IsSpace(p[|p| - 1])
  {
    hide LineTexts, FromFirstLine, DedentLines, LeadingBlankLines;
    var p, start := Preprocessed(s), LeadingBlankLines(s);
    TextsKept(s, 0);
    FirstTextLine(s, 0);
    FirstTextLine(p, start);
    NoTexts();
  }

  lemma NoTexts()
    ensures forall line :: LineTexts("", line) == []
  {}
}
