/** IndentStream: code blocks on their way to the generated files. */
module Indenting {
  import opened Numbers
  import opened CodeText
  import opened CodeLines

  function Pad(n: nat): (pad: string)
    ensures |pad| == n && forall i :: 0 <= i < n ==> pad[i] == ' '
  {
    if n == 0 then "" else " " + Pad(n - 1)
  }

  // A line with its indentation; a blank line stays as it is.
  function Indented(line: string, n: nat): string {
    if BlankLine(line) then line else Pad(n) + line
  }

  function IndentedLines(s: string, n: nat): string
    decreases |s|
  {
    if s == "" then "" else Indented(s[..LineLength(s)], n) + IndentedLines(s[LineLength(s)..], n)
  }

  lemma IndentSplit(input: string, pos: nat, n: nat)
    requires pos <= |input|
    ensures var k := LineLength(input[pos..]);
            && IndentedLines(input[pos..], n) == Indented(input[pos..pos + k], n) + IndentedLines(input[pos + k..], n)
            && (pos + k == |input| ==> IndentedLines(input[pos + k..], n) == "")
            && (pos < |input| ==> k > 0)
  {
    hide Indented, LineLength;
    var rest := input[pos..];
    var k := LineLength(rest);
    assert rest[..k] == input[pos..pos + k] && rest[k..] == input[pos + k..];
    if rest == "" {
      EmptyIndented(n);
    }
  }

  lemma EmptyIndented(n: nat)
    ensures Indented("", n) == "" && IndentedLines("", n) == ""
  {}

  // The result so far, and the lines from pos on.
  ghost predicate Along(input: string, n: nat, result: string, pos: nat)
    requires pos <= |input|
  {
    IndentedLines(input, n) == result + IndentedLines(input[pos..], n)
  }

  lemma LineDone(input: string, n: nat, result: string, pos: nat)
    requires pos <= |input| && Along(input, n, result, pos)
    ensures var k := LineLength(input[pos..]);
            var longer := result + Indented(input[pos..pos + k], n);
            && Along(input, n, longer, pos + k) && (pos < |input| ==> k > 0)
            && (pos + k == |input| ==> longer == IndentedLines(input, n))
  {
    hide Indented, LineLength, IndentedLines;
    IndentSplit(input, pos, n);
    var k := LineLength(input[pos..]);
    Regroup(result, Indented(input[pos..pos + k], n), IndentedLines(input[pos + k..], n));
  }

  lemma Regroup(a: string, b: string, c: string)
    ensures a + (b + c) == (a + b) + c && (c == "" ==> (a + b) + c == a + b)
  {}

  lemma IndentedIs(line: string, n: nat, before: string)
    ensures before + Indented(line, n) == if Spaces(line) != |line| then (before + Pad(n)) + line else before + line
  {
    hide Pad;
    assert (before + Pad(n)) + line == before + (Pad(n) + line);
  }

  lemma Begins(input: string, n: nat)
    ensures Along(input, n, "", 0)
  {
    assert input[0..] == input;
  }

  // The destructor, up to writing the result; n is mIndent * INDENT_SPACES.
  method Indent(input: string, n: nat) returns (result: string)
    ensures result == IndentedLines(input, n)
  {
    hide Along, IndentedLines, Indented, LineLength, Spaces, Pad;
    result := "";
    var beginPos := 0;
    var again := true; // do ... while
    Begins(input, n);
    while again
      invariant beginPos <= |input| && (again ==> beginPos < |input| || input == "")
      invariant if again then Along(input, n, result, beginPos) else result == IndentedLines(input, n)
      decreases again, |input| - beginPos
    {
      LineDone(input, n, result, beginPos);
      var endPos := EndOfLine(input, beginPos);
      var line := input[beginPos..endPos];
      IndentedIs(line, n, result);
      if Spaces(line) != |line| {
        result := result + Pad(n);
      }
      result := result + line;
      beginPos := endPos;
      again := beginPos < |input|;
    }
  }

  lemma IndentedMarks(l: string, n: nat, line: int)
    ensures Marks(Indented(l, n), line) == Marks(l, line) && Newlines(Indented(l, n)) == Newlines(l)
  {
    if !BlankLine(l) {
      MarksSum(Pad(n), l, line);
      BlankMarks(Pad(n), line);
      NoNewlines(Pad(n));
    }
  }

  // Indenting moves no character to another line.
  lemma {:induction false} IndentedLinesMarks(s: string, n: nat, line: int)
    ensures Marks(IndentedLines(s, n), line) == Marks(s, line)
    decreases |s|
  {
    hide Indented, Marks, Newlines;
    if s != "" {
      var k := LineLength(s);
      var d, rest := Indented(s[..k], n), IndentedLines(s[k..], n);
      assert s == s[..k] + s[k..];
      IndentedMarks(s[..k], n, line);
      MarksSum(s[..k], s[k..], line);
      MarksSum(d, rest, line);
      IndentedLinesMarks(s[k..], n, line + Newlines(d));
    }
  }

  lemma FirstLine(a: string, b: string, n: nat)
    requires a != "" && a[|a| - 1] == '\n' && (forall i :: 0 <= i < |a| - 1 ==> a[i] != '\n')
    ensures IndentedLines(a + b, n) == Indented(a, n) + IndentedLines(b, n)
  {
    hide Indented, LineLength;
    LineIs(a + b, |a|);
    assert (a + b)[..|a|] == a && (a + b)[|a|..] == b;
  }

  // However deep a code block is indented in a generated file, every character that is no
  // whitespace gets from the directive the number of its line in the description file, and
  // the name of that file.
  lemma IndentedLinesExact(text: string, line: int, file: string, n: nat)
    requires '\n' !in file && line >= 1 && CodeBlock(text, line, file).Block?
    ensures PresumedMarks(IndentedLines(CodeBlock(text, line, file).text + "\n", n)) == Marks(text, line)
    ensures '"' !in file ==> PresumedFile(IndentedLines(CodeBlock(text, line, file).text + "\n", n)) == file
  {
    hide PresumedMarks, PresumedFile, Preprocessed, Decimal, LineLength, Spaces, IndentedLines, LeadingBlankLines;
    var codeLine := line + LeadingBlankLines(text) - 1;
    var d, rest := Directive(codeLine, file), "\n" + Preprocessed(text) + "\n";
    DirectiveIsLine(codeLine, file);
    assert CodeBlock(text, line, file).text + "\n" == d + rest;
    FirstLine(d, rest, n);
    DirectiveShows(codeLine, file);
    DirectiveRead(Pad(n), codeLine, file, IndentedLines(rest, n));
    if '"' !in file {
      DirectiveNames(Pad(n), codeLine, file, IndentedLines(rest, n));
    }
    IndentedLinesMarks(rest, n, codeLine);
    hide Marks;
    RestMarks(text, line);
  }

  lemma DirectiveShows(n: nat, file: string)
    ensures !BlankLine(Directive(n, file))
  {}

  lemma RestMarks(text: string, line: int)
    ensures Marks("\n" + Preprocessed(text) + "\n", line + LeadingBlankLines(text) - 1) == Marks(text, line)
  {
    hide Preprocessed, LeadingBlankLines;
    var p := Preprocessed(text);
    var start := line + LeadingBlankLines(text);
    Placed(text, line);
    assert ("\n" + p + "\n")[1..] == p + "\n";
    MarksSum(p, "\n", start);
    BlankMarks("\n", start + Newlines(p));
  }

  // The lines of a text, with their newlines.
  function Lines(s: string): seq<string>
    decreases |s|
  {
    if s == "" then [] else [s[..LineLength(s)]] + Lines(s[LineLength(s)..])
  }

  // A new line is n blanks and the old one, unless that holds nothing but whitespace.
  predicate IsIndentation(before: string, after: string, n: nat) {
    if forall i :: 0 <= i < |before| ==> IsSpace(before[i]) then after == before
    else |after| == n + |before| && after[n..] == before && forall j :: 0 <= j < n ==> after[j] == ' '
  }

  lemma {:induction false} LinesIndented(s: string, n: nat)
    ensures |Lines(IndentedLines(s, n))| == |Lines(s)|
    ensures forall i :: 0 <= i < |Lines(s)| ==> IsIndentation(Lines(s)[i], Lines(IndentedLines(s, n))[i], n)
    decreases |s|
  {
    if s != "" {
      hide LineLength, Indented, IsIndentation, Lines, IndentedLines;
      var l, rest := s[..LineLength(s)], s[LineLength(s)..];
      LinesIndented(rest, n);
      IndentedShape(l, n);
      LinesCons(s);
      IndentedCons(s, n);
    }
  }

  lemma LinesCons(s: string)
    requires s != ""
    ensures Lines(s) == [s[..LineLength(s)]] + Lines(s[LineLength(s)..])
  {}

  lemma IndentedShape(l: string, n: nat)
    ensures IsIndentation(l, Indented(l, n), n)
  {}

  lemma IndentedCons(s: string, n: nat)
    requires s != ""
    ensures Lines(IndentedLines(s, n)) == [Indented(s[..LineLength(s)], n)] + Lines(IndentedLines(s[LineLength(s)..], n))
  {
    hide Indented, Lines;
    var k := LineLength(s);
    var l := s[..k];
    var d, rest := Indented(l, n), IndentedLines(s[k..], n);
    assert IndentedLines(s, n) == d + rest;
    assert forall i :: 0 <= i < |l| - 1 ==> l[i] != '\n';
    if k == |s| {
      EmptyIndented(n);
    } else {
      assert l[k - 1] == '\n';
    }
    hide LineLength, IndentedLines;
    IndentedLine(l, n);
    LineIs(d + rest, |d|);
    LinesCons(d + rest);
    assert (d + rest)[..|d|] == d && (d + rest)[|d|..] == rest;
  }

  // An indented line is still one line.
  lemma IndentedLine(l: string, n: nat)
    requires l != "" && forall i :: 0 <= i < |l| - 1 ==> l[i] != '\n'
    ensures var d := Indented(l, n);
            d != "" && d[|d| - 1] == l[|l| - 1] && forall i :: 0 <= i < |d| - 1 ==> d[i] != '\n'
  {
    hide BlankLine;
  }
}
