/** preprocessText: removing the indentation of a text block, and the line numbers that
    a code block gets from its #line directive. */
module CodeText {
  import opened Numbers

  predicate IsBlank(c: char) {
    c == ' ' || c == '\t'
  }

  // The length of the first line, with its newline.
  function LineLength(s: string): (n: nat)
    ensures n <= |s|
    ensures s != "" ==> n > 0
    ensures forall i :: 0 <= i < n - 1 ==> s[i] != '\n'
    ensures 0 < n < |s| ==> s[n - 1] == '\n'
  {
    if s == "" then 0 else if s[0] == '\n' then 1 else 1 + LineLength(s[1..])
  }

  // find_first_not_of: |s| when there is no such character.
  function Spaces(s: string): (n: nat)
    ensures n <= |s| && (forall i :: 0 <= i < n ==> IsSpace(s[i])) && (n < |s| ==> !IsSpace(s[n]))
  {
    if s != "" && IsSpace(s[0]) then 1 + Spaces(s[1..]) else 0
  }

  function Blanks(s: string): (n: nat)
    ensures n <= |s| && (forall i :: 0 <= i < n ==> IsBlank(s[i])) && (n < |s| ==> !IsBlank(s[n]))
  {
    if s != "" && IsBlank(s[0]) then 1 + Blanks(s[1..]) else 0
  }

  predicate BlankLine(line: string) {
    Spaces(line) == |line|
  }

  function Min(a: nat, b: nat): nat {
    if a < b then a else b
  }

  // One line without its indentation; lines with less of it keep their text.
  function Dedent(line: string, base: nat): string {
    line[Min(Blanks(line), base)..]
  }

  // The number of blank lines at the front; preprocessText counts one for an empty text.
  function LeadingBlankLines(s: string): nat
    decreases |s|
  {
    var n := LineLength(s);
    if BlankLine(s[..n]) then
      if n == |s| then 1 else 1 + LeadingBlankLines(s[n..])
    else 0
  }

  // The text from its first line that is not blank.
  function FromFirstLine(s: string): string
    decreases |s|
  {
    var n := LineLength(s);
    if BlankLine(s[..n]) then
      if n == |s| then "" else FromFirstLine(s[n..])
    else s
  }

  function DedentLines(s: string, base: nat): string
    decreases |s|
  {
    if s == "" then "" else var n := LineLength(s); Dedent(s[..n], base) + DedentLines(s[n..], base)
  }

  function TrimEnd(s: string): (t: string)
    ensures t <= s && (t != "" ==> !IsSpace(t[|t| - 1]))
    ensures forall i :: |t| <= i < |s| ==> IsSpace(s[i])
  {
    if s != "" && IsSpace(s[|s| - 1]) then TrimEnd(s[..|s| - 1]) else s
  }

  // The indentation of the block: that of its first line that is not blank.
  function BaseIndent(s: string): nat {
    Spaces(s[..LineLength(s)])
  }

  function Preprocessed(s: string): string {
    var t := FromFirstLine(s);
    TrimEnd(DedentLines(t, BaseIndent(t)))
  }

  function Decimal(n: nat): string {
    if n < 10 then [(n + '0' as int) as char] else Decimal(n / 10) + [(n % 10 + '0' as int) as char]
  }

  // The value of a code block whose opening brace is in a line of a file: its text after
  // a #line directive and an empty line, or the call of yyerror.
  datatype Block = Block(text: string) | InFirstLine

  function CodeBlock(text: string, line: int, file: string): Block {
    var codeLine := line + LeadingBlankLines(text) - 1;
    if codeLine <= 0 then InFirstLine
    else Block("#line " + Decimal(codeLine) + " \"" + file + "\"\n" + "\n" + Preprocessed(text))
  }

  const NPOS: int := -1

  // string::find('\n', pos), as the index right after the newline.
  method EndOfLine(input: string, pos: nat) returns (endPos: nat)
    requires pos <= |input|
    ensures endPos == pos + LineLength(input[pos..])
  {
    endPos := pos;
    while endPos < |input| && input[endPos] != '\n'
      invariant pos <= endPos <= |input|
      invariant pos + LineLength(input[pos..]) == endPos + LineLength(input[endPos..])
    {
      assert input[endPos..][1..] == input[endPos + 1..];
      endPos := endPos + 1;
    }
    if endPos < |input| {
      endPos := endPos + 1;
    }
  }

  // What the do-while loop of preprocessText knows after the lines before pos.
  ghost predicate Progress(input: string, pos: nat, base: int, result: string, dropped: int)
    requires pos <= |input|
  {
    if base == NPOS then
      && result == "" && FromFirstLine(input) == FromFirstLine(input[pos..])
      && dropped + LeadingBlankLines(input[pos..]) == LeadingBlankLines(input)
    else
      && base >= 0 && dropped == LeadingBlankLines(input) && base == BaseIndent(FromFirstLine(input))
      && DedentLines(FromFirstLine(input), base) == result + DedentLines(input[pos..], base)
  }

  // The loop is done: either every line was blank, or the text is complete.
  ghost predicate Complete(input: string, result: string, dropped: int) {
    var t := FromFirstLine(input);
    dropped == LeadingBlankLines(input) && result == DedentLines(t, BaseIndent(t))
  }

  // One turn of the loop on a blank line at the front.
  lemma BlankDone(input: string, pos: nat, result: string, dropped: int)
    requires pos <= |input| && (pos < |input| || input == "") && Progress(input, pos, NPOS, result, dropped)
    requires BlankLine(input[pos..pos + LineLength(input[pos..])])
    ensures var n := LineLength(input[pos..]);
            if pos + n < |input| then Progress(input, pos + n, NPOS, result, dropped + 1)
            else Complete(input, result, dropped + 1)
  {
    hide Spaces, Dedent;
    var rest := input[pos..];
    var n := LineLength(rest);
    assert rest[..n] == input[pos..pos + n] && rest[n..] == input[pos + n..];
  }

  // The lines from pos on, without their indentation: the next line, and the rest.
  lemma DedentSplit(input: string, pos: nat, base: nat)
    requires pos <= |input|
    ensures var n := LineLength(input[pos..]);
            && DedentLines(input[pos..], base) == Dedent(input[pos..pos + n], base) + DedentLines(input[pos + n..], base)
            && (pos + n == |input| ==> DedentLines(input[pos + n..], base) == "")
  {
    hide Dedent;
    var rest := input[pos..];
    var n := LineLength(rest);
    assert rest[..n] == input[pos..pos + n] && rest[n..] == input[pos + n..];
    if rest == "" {
      EmptyDedent(base);
    }
  }

  // The first line with text: from here on the indentation is known.
  lemma BaseFound(input: string, pos: nat, result: string, dropped: int)
    requires pos <= |input| && Progress(input, pos, NPOS, result, dropped)
    requires !BlankLine(input[pos..pos + LineLength(input[pos..])])
    ensures Progress(input, pos, Spaces(input[pos..pos + LineLength(input[pos..])]), result, dropped)
  {
    hide Spaces, DedentLines;
    var rest := input[pos..];
    var n := LineLength(rest);
    assert rest[..n] == input[pos..pos + n];
    assert FromFirstLine(rest) == rest && LeadingBlankLines(rest) == 0;
  }

  // One turn of the loop on a line when the indentation is known.
  lemma LineDone(input: string, pos: nat, base: nat, result: string, dropped: int)
    requires pos <= |input| && Progress(input, pos, base, result, dropped)
    ensures var n := LineLength(input[pos..]);
            var longer := result + Dedent(input[pos..pos + n], base);
            && Progress(input, pos + n, base, longer, dropped)
            && (pos + n == |input| ==> Complete(input, longer, dropped))
  {
    hide Dedent, DedentLines, FromFirstLine, LeadingBlankLines, BaseIndent, LineLength;
    DedentSplit(input, pos, base);
    var n := LineLength(input[pos..]);
    var line := Dedent(input[pos..pos + n], base);
    var after := DedentLines(input[pos + n..], base);
    assert result + (line + after) == (result + line) + after;
    if pos + n == |input| {
      assert (result + line) + "" == result + line;
    }
  }

  lemma EmptyDedent(base: nat)
    ensures Dedent("", base) == "" && DedentLines("", base) == ""
  {}

  method PreprocessText(input: string, line: int) returns (result: string, lineNumber: int)
    ensures result == Preprocessed(input)
    ensures lineNumber == line + LeadingBlankLines(input)
  {
    hide Progress, Complete, Preprocessed, Spaces, Blanks, LineLength, LeadingBlankLines, TrimEnd;
    result, lineNumber := "", line;
    var baseIndent: int := NPOS;
    var beginPos: nat := 0;
    var again := true; // do ... while
    LoopStarts(input);
    while again
      invariant beginPos <= |input| && (again ==> beginPos < |input| || input == "")
      invariant baseIndent >= NPOS
      invariant again ==> Progress(input, beginPos, baseIndent, result, lineNumber - line)
      invariant !again ==> Complete(input, result, lineNumber - line)
      decreases again, |input| - beginPos
    {
      var endPos := EndOfLine(input, beginPos);
      var lineLength := endPos - beginPos;
      var text := input[beginPos..endPos];
      if baseIndent == NPOS && Spaces(text) == |text| {
        BlankDone(input, beginPos, result, lineNumber - line);
      } else {
        if baseIndent == NPOS {
          BaseFound(input, beginPos, result, lineNumber - line);
        }
        LineDone(input, beginPos, if baseIndent == NPOS then Spaces(text) else baseIndent, result, lineNumber - line);
      }
      beginPos := beginPos + lineLength;
      again := beginPos < |input|;
      if baseIndent == NPOS {
        if Spaces(text) == |text| {
          lineNumber := lineNumber + 1;
          continue;
        }
        baseIndent := Spaces(text);
      }
      result := result + text[Min(Blanks(text), baseIndent)..];
    }
    CompleteHasText(input, result, lineNumber - line);
    result := TrimTrailing(result);
  }

  lemma LoopStarts(input: string)
    ensures Progress(input, 0, NPOS, "", 0)
  {
    assert input[0..] == input;
  }

  // The end of preprocessText: find_last_not_of and erase.
  method TrimTrailing(s: string) returns (t: string)
    requires s == "" || Spaces(s) < |s|
    ensures t == TrimEnd(s)
  {
    hide Spaces;
    var end := |s|;
    assert s[..end] == s;
    while end > 0 && IsSpace(s[end - 1])
      invariant end <= |s| && TrimEnd(s) == TrimEnd(s[..end])
    {
      assert s[..end][..end - 1] == s[..end - 1];
      end := end - 1;
    }
    t := s;
    if end > 0 {
      t := s[..end];
    }
  }

  // What remains is empty or holds a character that is no whitespace.
  lemma CompleteHasText(input: string, result: string, dropped: int)
    requires Complete(input, result, dropped)
    ensures result == "" || Spaces(result) < |result|
    ensures TrimEnd(result) == Preprocessed(input)
    ensures dropped == LeadingBlankLines(input)
  {
    var t := FromFirstLine(input);
    FirstLineHasText(input);
    if t != "" {
      var n := LineLength(t);
      var d := Dedent(t[..n], BaseIndent(t));
      DedentKeepsText(t[..n], BaseIndent(t));
      SpacesOfSum(d, DedentLines(t[n..], BaseIndent(t)));
    }
  }

  lemma {:induction false} FirstLineHasText(s: string)
    ensures var t := FromFirstLine(s); t == "" || !BlankLine(t[..LineLength(t)])
    decreases |s|
  {
    var n := LineLength(s);
    if BlankLine(s[..n]) && n < |s| {
      if n > 0 {
        FirstLineHasText(s[n..]);
      }
    }
  }

  lemma DedentKeepsText(line: string, base: nat)
    requires !BlankLine(line)
    ensures !BlankLine(Dedent(line, base))
  {
    var n := Min(Blanks(line), base);
    var d := Dedent(line, base);
    assert d[Spaces(line) - n] == line[Spaces(line)];
  }

  lemma SpacesOfSum(a: string, b: string)
    requires !BlankLine(a)
    ensures !BlankLine(a + b)
  {
    assert (a + b)[Spaces(a)] == a[Spaces(a)];
  }
}
