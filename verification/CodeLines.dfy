/** What preprocessText keeps: every character that is no whitespace stays on its line,
    and the #line directive of a code block gives it the number it has in the file. */
module CodeLines {
  import opened Numbers
  import opened CodeText

  // A character that is no whitespace, with the number of its line.
  datatype Mark = Mark(c: char, line: int)

  function Marks(s: string, line: int): seq<Mark> {
    if s == "" then []
    else (if IsSpace(s[0]) then [] else [Mark(s[0], line)]) + Marks(s[1..], if s[0] == '\n' then line + 1 else line)
  }

  function Newlines(s: string): nat {
    if s == "" then 0 else (if s[0] == '\n' then 1 else 0) + Newlines(s[1..])
  }

  lemma {:induction false} MarksSum(a: string, b: string, line: int)
    ensures Marks(a + b, line) == Marks(a, line) + Marks(b, line + Newlines(a))
    ensures Newlines(a + b) == Newlines(a) + Newlines(b)
  {
    hide IsSpace;
    if a == "" {
      assert a + b == b;
    } else {
      var next := if a[0] == '\n' then line + 1 else line;
      var first := if IsSpace(a[0]) then [] else [Mark(a[0], line)];
      assert (a + b)[1..] == a[1..] + b && (a + b)[0] == a[0];
      assert Marks(a + b, line) == first + Marks(a[1..] + b, next) && Marks(a, line) == first + Marks(a[1..], next);
      assert Newlines(a + b) == next - line + Newlines(a[1..] + b) && Newlines(a) == next - line + Newlines(a[1..]);
      hide Marks, Newlines;
      MarksSum(a[1..], b, next);
      Regroup(first, Marks(a[1..], next), Marks(b, next + Newlines(a[1..])));
    }
  }

  lemma Regroup(a: seq<Mark>, b: seq<Mark>, c: seq<Mark>)
    ensures a + (b + c) == (a + b) + c
  {}

  lemma {:induction false} BlankMarks(s: string, line: int)
    requires forall i :: 0 <= i < |s| ==> IsSpace(s[i])
    ensures Marks(s, line) == []
  {
    if s != "" {
      BlankMarks(s[1..], if s[0] == '\n' then line + 1 else line);
    }
  }

  lemma {:induction false} NoNewlines(s: string)
    requires '\n' !in s
    ensures Newlines(s) == 0
  {
    if s != "" {
      assert '\n' !in s[1..];
      NoNewlines(s[1..]);
    }
  }

  // A line that is not the last one of a text holds one newline.
  lemma LineNewlines(s: string)
    requires LineLength(s) < |s|
    ensures Newlines(s[..LineLength(s)]) == 1
  {
    var n := LineLength(s);
    var body := s[..n - 1];
    assert s[..n] == body + "\n";
    NoNewlines(body);
    MarksSum(body, "\n", 0);
  }

  lemma DedentMarks(l: string, base: nat, line: int)
    ensures Marks(Dedent(l, base), line) == Marks(l, line) && Newlines(Dedent(l, base)) == Newlines(l)
  {
    var n := Min(Blanks(l), base);
    assert l == l[..n] + l[n..];
    MarksSum(l[..n], l[n..], line);
    BlankMarks(l[..n], line);
    NoNewlines(l[..n]);
  }

  lemma {:induction false} DedentLinesMarks(s: string, base: nat, line: int)
    ensures Marks(DedentLines(s, base), line) == Marks(s, line)
    decreases |s|
  {
    hide Dedent, Marks, Newlines;
    if s != "" {
      var n := LineLength(s);
      var d, rest := Dedent(s[..n], base), DedentLines(s[n..], base);
      assert s == s[..n] + s[n..];
      DedentMarks(s[..n], base, line);
      MarksSum(s[..n], s[n..], line);
      MarksSum(d, rest, line);
      DedentLinesMarks(s[n..], base, line + Newlines(d));
    }
  }

  lemma {:induction false} FirstLineMarks(s: string, line: int)
    ensures Marks(FromFirstLine(s), line + LeadingBlankLines(s)) == Marks(s, line)
    decreases |s|
  {
    hide Marks, Newlines;
    var n := LineLength(s);
    assert s == s[..n] + s[n..];
    if BlankLine(s[..n]) {
      BlankMarks(s[..n], line);
      if n == |s| {
        assert s[..n] == s && Marks("", line + 1) == [] by { BlankMarks("", line + 1); }
      } else {
        MarksSum(s[..n], s[n..], line);
        LineNewlines(s);
        FirstLineMarks(s[n..], line + 1);
      }
    }
  }

  // No character is lost, added or moved to another line: a text that starts in some line
  // becomes one that starts as many lines later as blank lines were dropped.
  lemma Placed(s: string, line: int)
    ensures Marks(Preprocessed(s), line + LeadingBlankLines(s)) == Marks(s, line)
  {
    hide Marks, FromFirstLine, DedentLines, TrimEnd, LeadingBlankLines;
    var t := FromFirstLine(s);
    var d := DedentLines(t, BaseIndent(t));
    var start := line + LeadingBlankLines(s);
    FirstLineMarks(s, line);
    DedentLinesMarks(t, BaseIndent(t), start);
    var r := TrimEnd(d);
    assert d == r + d[|r|..];
    MarksSum(r, d[|r|..], start);
    BlankMarks(d[|r|..], start + Newlines(r));
  }

  // --- The #line directive --------------------------------------------------------------

  // The line numbers that a compiler gives the text after a #line directive in its first
  // line, which can be indented: the following line has the number in the directive
  // (sections 6.10 and 6.10.4 of ISO/IEC 9899:2011).
  function PresumedMarks(s: string): seq<Mark> {
    var n, t := LineLength(s), s[Blanks(s)..];
    if |t| >= 6 && t[..6] == "#line " then Marks(s[n..], Value(t[6..][..DigitPrefix(t[6..], 10)], 10))
    else Marks(s, 1)
  }

  // The text up to a quotation mark.
  function UpToQuote(s: string): string {
    if s == "" || s[0] == '"' then "" else [s[0]] + UpToQuote(s[1..])
  }

  // The file that the same directive names, "" if there is none; the name is taken as it
  // stands in the directive.
  function PresumedFile(s: string): string {
    var t := s[Blanks(s)..];
    if |t| >= 6 && t[..6] == "#line " then
      var u := t[6 + DigitPrefix(t[6..], 10)..];
      if |u| >= 2 && u[..2] == " \"" then UpToQuote(u[2..]) else ""
    else ""
  }

  lemma {:induction false} NameEnds(file: string, rest: string)
    requires '"' !in file && rest != "" && rest[0] == '"'
    ensures UpToQuote(file + rest) == file
  {
    if file == "" {
      assert file + rest == rest;
    } else {
      assert '"' !in file[1..] && (file + rest)[1..] == file[1..] + rest;
      NameEnds(file[1..], rest);
    }
  }

  lemma {:induction false} DecimalValue(n: nat)
    ensures Value(Decimal(n), 10) == n && AllDigits(Decimal(n))
  {
    var d := Decimal(n);
    if n < 10 {
      assert d[..0] == "" && Value("", 10) == 0;
    } else {
      DecimalValue(n / 10);
      assert d[..|d| - 1] == Decimal(n / 10);
    }
  }

  lemma {:induction false} DigitsBefore(d: string, after: string)
    requires forall i :: 0 <= i < |d| ==> IsDigit(d[i])
    requires after != "" && DigitValue(after[0]) >= 10
    ensures DigitPrefix(d + after, 10) == |d|
  {
    if d == "" {
      assert d + after == after;
    } else {
      assert (d + after)[1..] == d[1..] + after;
      DigitsBefore(d[1..], after);
    }
  }

  function Directive(n: nat, file: string): string {
    "#line " + Decimal(n) + " \"" + file + "\"\n"
  }

  lemma DirectiveIsLine(n: nat, file: string)
    requires '\n' !in file
    ensures var d := Directive(n, file); d[|d| - 1] == '\n' && forall i :: 0 <= i < |d| - 1 ==> d[i] != '\n'
  {
    DecimalValue(n);
    var d := Decimal(n);
    assert forall i :: 0 <= i < |d| ==> d[i] != '\n';
  }

  lemma {:induction false} PadIsBlank(pad: string, s: string)
    requires (forall i :: 0 <= i < |pad| ==> IsBlank(pad[i])) && s != "" && !IsBlank(s[0])
    ensures Blanks(pad + s) == |pad|
  {
    if pad == "" {
      assert pad + s == s;
    } else {
      assert (pad + s)[1..] == pad[1..] + s;
      PadIsBlank(pad[1..], s);
    }
  }

  lemma DirectiveRead(pad: string, n: nat, file: string, rest: string)
    requires '\n' !in file && forall i :: 0 <= i < |pad| ==> IsBlank(pad[i])
    ensures PresumedMarks(pad + Directive(n, file) + rest) == Marks(rest, n)
  {
    hide Marks, LineLength, DigitPrefix, Value, Blanks, Decimal;
    var d := Decimal(n);
    DecimalValue(n);
    DirectiveIsLine(n, file);
    var name := " \"" + file + "\"\n";
    var line := pad + Directive(n, file);
    var s := line + rest;
    var t := Directive(n, file) + rest;
    assert s == pad + t && t[..6] == "#line " && t[6..] == d + (name + rest);
    PadIsBlank(pad, t);
    DigitsBefore(d, name + rest);
    assert t[6..][..|d|] == d;
    LineIs(s, |line|);
    assert s[|line|..] == rest;
  }

  lemma DirectiveNames(pad: string, n: nat, file: string, rest: string)
    requires '\n' !in file && '"' !in file && forall i :: 0 <= i < |pad| ==> IsBlank(pad[i])
    ensures PresumedFile(pad + Directive(n, file) + rest) == file
  {
    hide DigitPrefix, Value, Blanks, Decimal, UpToQuote;
    var d := Decimal(n);
    DecimalValue(n);
    var t := Directive(n, file) + rest;
    var after := file + ("\"\n" + rest);
    assert pad + Directive(n, file) + rest == pad + t;
    assert t[..6] == "#line " && t[6..] == d + (" \"" + after);
    PadIsBlank(pad, t);
    DigitsBefore(d, " \"" + after);
    assert t[6 + |d|..] == " \"" + after && (" \"" + after)[2..] == after;
    NameEnds(file, "\"\n" + rest);
  }

  // For a block that opens in a line of a file, every character of the emitted code gets
  // from the directive the number of its line in that file, and the directive names the
  // file. The only blocks refused are
  // those that start in line 1 with text in that line.
  lemma LinesExact(text: string, line: int, file: string)
    requires '\n' !in file && line >= 1
    ensures CodeBlock(text, line, file).InFirstLine? <==> line == 1 && !BlankLine(text[..LineLength(text)])
    ensures CodeBlock(text, line, file).Block? ==> PresumedMarks(CodeBlock(text, line, file).text) == Marks(text, line)
    ensures CodeBlock(text, line, file).Block? && '"' !in file ==> PresumedFile(CodeBlock(text, line, file).text) == file
  {
    hide PresumedMarks, PresumedFile, Preprocessed, Decimal, LineLength, Spaces;
    var codeLine := line + LeadingBlankLines(text) - 1;
    if codeLine > 0 {
      var rest := "\n" + Preprocessed(text);
      DirectiveRead("", codeLine, file, rest);
      if '"' !in file {
        DirectiveNames("", codeLine, file, rest);
      }
      assert "" + Directive(codeLine, file) + rest == CodeBlock(text, line, file).text;
      assert rest[1..] == Preprocessed(text);
      Placed(text, line);
    }
  }

  // --- Applying it twice ---------------------------------------------------------------

  // Every line starts with at most so many blanks and tabs.
  predicate Shallow(s: string, base: nat)
    decreases |s|
  {
    s == "" || (Blanks(s[..LineLength(s)]) <= base && Shallow(s[LineLength(s)..], base))
  }

  lemma TrimSum(a: string, b: string)
    ensures TrimEnd(a + b) == if TrimEnd(b) == "" then TrimEnd(a) else a + TrimEnd(b)
  {
    if b == "" {
      assert a + b == a;
    } else {
      var c := b[..|b| - 1];
      assert (a + b)[..|a + b| - 1] == a + c;
      TrimSum(a, c);
    }
  }

  lemma TrimSuffix(l: string, n: nat)
    requires n <= Spaces(l)
    ensures TrimEnd(l[n..]) == if TrimEnd(l) == "" then "" else TrimEnd(l)[n..]
  {
    var t := TrimEnd(l);
  }

  lemma {:induction false} LineIs(s: string, n: nat)
    requires 0 < n <= |s| && (s[n - 1] == '\n' || n == |s|)
    requires forall i :: 0 <= i < n - 1 ==> s[i] != '\n'
    ensures LineLength(s) == n
  {
    if n > 1 {
      LineIs(s[1..], n - 1);
    }
  }

  lemma OneLine(l: string, base: nat)
    requires l != "" && LineLength(l) == |l|
    ensures DedentLines(l, base) == Dedent(l, base)
  {
    hide Dedent, LineLength;
    assert l[..|l|] == l && l[|l|..] == "";
    assert DedentLines(l, base) == Dedent(l, base) + DedentLines(l[|l|..], base);
  }

  lemma TrimOneLine(l: string)
    requires l != "" && LineLength(l) == |l|
    ensures var m := TrimEnd(l);
            && (m == "" ==> Spaces(l) == |l|)
            && (m != "" ==> LineLength(m) == |m| && Blanks(m) == Blanks(l) == Min(Blanks(l), |m|))
  {
    hide TrimEnd, LineLength;
    var m := TrimEnd(l);
    if m != "" {
      LineIs(m, |m|);
    }
  }

  // Trailing whitespace can go before or after the indentation.
  lemma TrimDedentLine(l: string, base: nat)
    requires l != "" && LineLength(l) == |l|
    ensures TrimEnd(Dedent(l, base)) == DedentLines(TrimEnd(l), base)
  {
    TrimOneLine(l);
    TrimSuffix(l, Min(Blanks(l), base));
    hide TrimEnd, LineLength, DedentLines, Blanks, Spaces;
    var m := TrimEnd(l);
    if m == "" {
      EmptyDedent(base);
    } else {
      OneLine(m, base);
    }
  }

  lemma {:induction false} HasMark(s: string, i: nat, line: int)
    requires i < |s| && !IsSpace(s[i])
    ensures Marks(s, line) != []
  {
    if i > 0 {
      HasMark(s[1..], i - 1, if s[0] == '\n' then line + 1 else line);
    }
  }

  // Whatever has text in it has text without its indentation.
  lemma DedentStays(u: string, base: nat)
    requires u != "" && !IsSpace(u[|u| - 1])
    ensures DedentLines(u, base) != ""
  {
    HasMark(u, |u| - 1, 0);
    DedentLinesMarks(u, base, 0);
    BlankMarks("", 0);
  }

  lemma DedentSum(l: string, u: string, base: nat)
    requires l != "" && LineLength(l) == |l| && (u == "" || l[|l| - 1] == '\n')
    ensures DedentLines(l + u, base) == Dedent(l, base) + DedentLines(u, base)
  {
    LineIs(l + u, |l|);
    assert (l + u)[..|l|] == l && (l + u)[|l|..] == u;
    hide Dedent, LineLength;
    assert DedentLines(l + u, base) == Dedent(l, base) + DedentLines(u, base);
  }

  lemma FirstLineAlone(t: string)
    requires t != ""
    ensures LineLength(t[..LineLength(t)]) == LineLength(t) > 0
  {
    LineIs(t[..LineLength(t)], LineLength(t));
  }

  lemma TrimStep(l: string, rest: string, base: nat)
    requires l != "" && LineLength(l) == |l| && (rest == "" || l[|l| - 1] == '\n')
    requires TrimEnd(DedentLines(rest, base)) == DedentLines(TrimEnd(rest), base)
    ensures TrimEnd(DedentLines(l + rest, base)) == DedentLines(TrimEnd(l + rest), base)
  {
    hide Dedent, TrimEnd, LineLength, DedentLines;
    DedentSum(l, rest, base);
    TrimSum(l, rest);
    TrimSum(Dedent(l, base), DedentLines(rest, base));
    var u := TrimEnd(rest);
    assert u == "" || (!IsSpace(u[|u| - 1]) && rest != "");
    hide Dedent, TrimEnd, LineLength, DedentLines, IsSpace;
    if u == "" {
      EmptyDedent(base);
      TrimDedentLine(l, base);
    } else {
      DedentStays(u, base);
      DedentSum(l, u, base);
    }
  }

  lemma {:induction false} TrimDedent(t: string, base: nat)
    ensures TrimEnd(DedentLines(t, base)) == DedentLines(TrimEnd(t), base)
    decreases |t|
  {
    if t == "" {
      EmptyDedent(base);
    } else {
      hide Dedent, TrimEnd, LineLength, DedentLines;
      var n := LineLength(t);
      FirstLineAlone(t);
      assert t == t[..n] + t[n..];
      TrimDedent(t[n..], base);
      TrimStep(t[..n], t[n..], base);
    }
  }

  // The first line of a text without its indentation.
  lemma DedentFirst(s: string, base: nat)
    requires s != ""
    ensures var d := Dedent(s[..LineLength(s)], base);
            && d + DedentLines(s[LineLength(s)..], base) == DedentLines(s, base)
            && (d != "" ==> LineLength(DedentLines(s, base)) == |d|)
            && (d == "" ==> LineLength(s) == |s| == Blanks(s) <= base)
  {
    hide LineLength, Blanks, Dedent;
    var n := LineLength(s);
    if Dedent(s[..n], base) != "" {
      DedentedFirst(s, base);
    } else {
      GoneFirst(s, base);
    }
  }

  lemma DedentedFirst(s: string, base: nat)
    requires s != "" && Dedent(s[..LineLength(s)], base) != ""
    ensures LineLength(DedentLines(s, base)) == |Dedent(s[..LineLength(s)], base)|
  {
    hide LineLength, Blanks;
    var n := LineLength(s);
    var l := s[..n];
    var d := Dedent(l, base);
    DedentedLine(l, d, DedentLines(s[n..], base));
  }

  lemma GoneFirst(s: string, base: nat)
    requires s != "" && Dedent(s[..LineLength(s)], base) == ""
    ensures LineLength(s) == |s| == Blanks(s) <= base
  {
    hide LineLength, Blanks;
    var n := LineLength(s);
    var l := s[..n];
    EmptySuffix(l, Min(Blanks(l), base));
    LastOfLine(s);
    assert l == s;
  }

  lemma EmptySuffix(l: string, n: nat)
    requires n <= |l| && l[n..] == ""
    ensures n == |l|
  {}

  lemma LastOfLine(s: string)
    requires s != "" && Blanks(s[..LineLength(s)]) == LineLength(s)
    ensures LineLength(s) == |s|
  {
    hide LineLength, Blanks;
    var n := LineLength(s);
    var l := s[..n];
    assert IsBlank(l[n - 1]);
  }

  // A line whose beginning is gone is still one line.
  lemma DedentedLine(l: string, d: string, after: string)
    requires d != "" && |d| <= |l| && d == l[|l| - |d|..] && forall i :: 0 <= i < |l| - 1 ==> l[i] != '\n'
    requires after == "" || l[|l| - 1] == '\n'
    ensures LineLength(d + after) == |d|
  {
    LineIs(d + after, |d|);
  }

  lemma {:induction false} ShallowDedent(s: string, base: nat)
    ensures Shallow(DedentLines(s, base), 0) <==> Shallow(s, base)
    decreases |s|
  {
    hide Dedent;
    if s != "" {
      DedentFirst(s, base);
      var n := LineLength(s);
      var d, rest := Dedent(s[..n], base), DedentLines(s[n..], base);
      if d == "" {
        assert s[..n] == s;
      } else {
        ShallowDedent(s[n..], base);
        assert (d + rest)[..|d|] == d && (d + rest)[|d|..] == rest;
        DedentBlanks(s[..n], base);
      }
    }
  }

  lemma DedentBlanks(l: string, base: nat)
    ensures Blanks(Dedent(l, base)) == if Blanks(l) <= base then 0 else Blanks(l) - base
  {
    var d := Dedent(l, base);
  }

  lemma DedentFixed(l: string, base: nat)
    ensures |Dedent(l, base)| <= |l|
    ensures Dedent(l, base) == l <==> base == 0 || Blanks(l) == 0
  {
    hide Blanks;
    assert |Dedent(l, base)| == |l| - Min(Blanks(l), base);
  }

  lemma {:induction false} FixedIff(s: string, base: nat)
    ensures |DedentLines(s, base)| <= |s|
    ensures DedentLines(s, base) == s <==> base == 0 || Shallow(s, 0)
    decreases |s|
  {
    if s != "" {
      hide LineLength, Blanks, Dedent, DedentLines, Shallow;
      var n := LineLength(s);
      var l, after := s[..n], s[n..];
      LineByLine(s, base);
      FixedIff(after, base);
      DedentFixed(l, base);
      SameSum(Dedent(l, base), DedentLines(after, base), l, after);
    }
  }

  lemma LineByLine(s: string, base: nat)
    requires s != ""
    ensures var l, after := s[..LineLength(s)], s[LineLength(s)..];
            && s == l + after && DedentLines(s, base) == Dedent(l, base) + DedentLines(after, base)
            && (Shallow(s, 0) <==> Blanks(l) == 0 && Shallow(after, 0))
  {
    hide LineLength, Blanks, Dedent;
  }

  lemma SameSum(a: string, b: string, c: string, d: string)
    requires |a| <= |c| && |b| <= |d|
    ensures a + b == c + d <==> a == c && b == d
  {
    if a + b == c + d {
      assert a == (a + b)[..|a|] && c == (c + d)[..|c|];
      assert b == (a + b)[|a|..] && d == (c + d)[|c|..];
    }
  }

  // Spaces and blanks are those before the first character that is no whitespace.
  lemma SameSpaces(t: string, k: nat)
    requires k < |t| && !IsSpace(t[k]) && forall i :: 0 <= i < k ==> IsSpace(t[i])
    ensures forall j :: k < j <= |t| ==> Spaces(t[..j]) == k && Blanks(t[..j]) == Blanks(t)
  {}

  // The first line of a longer text, when it is cut after that line's text.
  lemma PrefixLine(t: string, j: nat)
    requires 0 < j <= |t|
    ensures LineLength(t[..j]) == Min(LineLength(t), j)
  {
    LineIs(t[..j], Min(LineLength(t), j));
  }

  // The first line with text, after trimming the end of the text.
  lemma TrimmedFirst(t: string)
    requires t != "" && !BlankLine(t[..LineLength(t)])
    ensures var u := TrimEnd(t);
            && u != "" && !BlankLine(u[..LineLength(u)]) && BaseIndent(u) == BaseIndent(t)
            && Blanks(u[..LineLength(u)]) == Blanks(t)
  {
    var n := LineLength(t);
    var k := Spaces(t[..n]);
    var u := TrimEnd(t);
    assert !IsSpace(t[k]) by {
      assert t[..n][k] == t[k];
    }
    SameSpaces(t, k);
    PrefixLine(t, |u|);
    hide LineLength, Spaces, Blanks, TrimEnd;
    assert u == t[..|u|] && k < |u|;
    assert u[..LineLength(u)] == t[..LineLength(u)];
  }

  lemma DedentSpaces(l: string, base: nat)
    requires !BlankLine(l) && Blanks(l) <= base
    ensures Spaces(Dedent(l, base)) == Spaces(l) - Blanks(l)
  {
    var d := Dedent(l, base);
    assert d[Spaces(l) - Blanks(l)] == l[Spaces(l)];
  }

  // What preprocessText makes of a text that starts with text and ends with it.
  lemma PreprocessedFirst(u: string, base: nat)
    requires u != "" && !BlankLine(u[..LineLength(u)]) && Blanks(u[..LineLength(u)]) <= base
    ensures var r := DedentLines(u, base);
            && r != "" && FromFirstLine(r) == r
            && BaseIndent(r) == BaseIndent(u) - Blanks(u[..LineLength(u)])
  {
    var l := u[..LineLength(u)];
    DedentFirst(u, base);
    DedentKeepsText(l, base);
    DedentSpaces(l, base);
    hide Dedent, DedentLines, Blanks, Spaces, LineLength;
    var r, d := DedentLines(u, base), Dedent(l, base);
    assert r[..|d|] == d;
  }

  lemma TrimOnce(r: string)
    requires r != "" && !IsSpace(r[|r| - 1])
    ensures TrimEnd(r) == r
  {}

  // Once more on a text without its indentation.
  lemma SecondTurn(u: string, base: nat)
    requires u != "" && !BlankLine(u[..LineLength(u)]) && Blanks(u[..LineLength(u)]) <= base == BaseIndent(u)
    requires TrimEnd(DedentLines(u, base)) == DedentLines(u, base)
    ensures var r := DedentLines(u, base);
            Preprocessed(r) == r <==> base == Blanks(u[..LineLength(u)]) || Shallow(u, base)
  {
    hide Spaces, Blanks, LineLength, DedentLines, TrimEnd, BaseIndent, FromFirstLine, Shallow;
    PreprocessedFirst(u, base);
    var r := DedentLines(u, base);
    TrimDedent(r, BaseIndent(r));
    FixedIff(r, BaseIndent(r));
    ShallowDedent(u, base);
  }

  lemma TwiceText(t: string)
    requires t != "" && !BlankLine(t[..LineLength(t)])
    ensures var r := TrimEnd(DedentLines(t, BaseIndent(t)));
            Preprocessed(r) == r <==> BaseIndent(t) == Blanks(t) || Shallow(TrimEnd(t), BaseIndent(t))
  {
    hide Spaces, Blanks, LineLength, DedentLines, BaseIndent, Preprocessed, Shallow, TrimEnd, BlankLine;
    var b, u := BaseIndent(t), TrimEnd(t);
    TrimmedFirst(t);
    BlanksFirst(u);
    TrimDedent(t, b);
    TrimOnce(u);
    TrimDedent(u, b);
    SecondTurn(u, b);
  }

  // Preprocessing a text twice is the same as doing it once exactly when its first line
  // with text is indented by blanks and tabs only, or no line up to the last text has more
  // of these than that line has whitespace.
  lemma TwiceIsOnce(s: string)
    ensures var t := FromFirstLine(s);
            Preprocessed(Preprocessed(s)) == Preprocessed(s) <==>
            (BaseIndent(t) == Blanks(t) || Shallow(TrimEnd(t), BaseIndent(t)))
  {
    var t := FromFirstLine(s);
    FirstLineHasText(s);
    if t == "" {
      EmptyDedent(0);
    } else {
      hide *;
      assert Preprocessed(s) == TrimEnd(DedentLines(t, BaseIndent(t))) by { PreprocessedIs(s); }
      TwiceText(t);
    }
  }

  lemma PreprocessedIs(s: string)
    ensures Preprocessed(s) == TrimEnd(DedentLines(FromFirstLine(s), BaseIndent(FromFirstLine(s))))
  {}

  lemma BlanksFirst(u: string)
    requires u != "" && !BlankLine(u[..LineLength(u)])
    ensures Blanks(u[..LineLength(u)]) <= BaseIndent(u)
  {}

  // So it is for texts whose only whitespace is blanks, tabs and newlines.
  lemma PlainTwice(s: string)
    requires forall c :: c in s && IsSpace(c) ==> IsBlank(c) || c == '\n'
    ensures Preprocessed(Preprocessed(s)) == Preprocessed(s)
  {
    var t := FromFirstLine(s);
    FirstLineHasText(s);
    SuffixOf(s);
    if t != "" {
      var n := LineLength(t);
      var k := Spaces(t[..n]);
      assert t[..n][k] == t[k];
      assert forall i :: 0 <= i < k ==> IsBlank(t[i]) by {
        forall i | 0 <= i < k ensures IsBlank(t[i]) {
          assert t[..n][i] == t[i] && t[i] in s;
        }
      }
      CountBlanks(t, k);
    }
    TwiceIsOnce(s);
  }

  lemma {:induction false} SuffixOf(s: string)
    ensures |FromFirstLine(s)| <= |s| && FromFirstLine(s) == s[|s| - |FromFirstLine(s)|..]
    decreases |s|
  {
    var n := LineLength(s);
    if BlankLine(s[..n]) && n < |s| {
      SuffixOf(s[n..]);
    }
  }

  // A line that starts with a carriage return keeps its two blanks, a deeper one loses
  // them at each turn.
  lemma TwiceIsMore()
    ensures var s := "\r  x\n" + "    y"; Preprocessed(Preprocessed(s)) != Preprocessed(s)
  {
    hide Spaces, Blanks, LineLength, TrimEnd, Preprocessed;
    var line, rest := "\r  x\n", "    y";
    var s := line + rest;
    LineIs(s, 5);
    assert s[..5] == line && s[5..] == rest && rest[..5] == rest;
    CountSpaces(line, 3);
    CountBlanks(s, 0);
    CountBlanks(rest, 4);
    LineIs(rest, 5);
    TrimOnce(s);
    assert !Shallow(rest, 3);
    assert !Shallow(s, 3);
    assert FromFirstLine(s) == s;
    TwiceIsOnce(s);
  }

  lemma CountSpaces(s: string, n: nat)
    requires n < |s| && !IsSpace(s[n]) && forall i :: 0 <= i < n ==> IsSpace(s[i])
    ensures Spaces(s) == n
  {}

  lemma CountBlanks(s: string, n: nat)
    requires n < |s| && !IsBlank(s[n]) && forall i :: 0 <= i < n ==> IsBlank(s[i])
    ensures Blanks(s) == n
  {}
}
