/** wrappedCharConstant: a C string literal split into adjacent literals at blanks. The
    blank at a split stays at the front of the next piece, so a word that does not fit
    behind it keeps the loop of the original where it is. */
module Wrapping {
  // rfind(' ', pos), from the front of a text that is longer than pos; -1 for npos.
  function LastBlank(text: string, pos: nat): (r: int)
    requires pos < |text|
    ensures -1 <= r <= pos && (r >= 0 ==> text[r] == ' ')
    ensures forall i :: r < i <= pos ==> text[i] != ' '
  {
    if text[pos] == ' ' then pos else if pos == 0 then -1 else LastBlank(text, pos - 1)
  }

  function Indent(n: nat): string {
    if n == 0 then "" else " " + Indent(n - 1)
  }

  // A blank in text with more than width characters from it to the end, and no other
  // blank in the next width ones.
  predicate LongWord(text: string, width: nat, i: nat)
    requires i < |text|
  {
    text[i] == ' ' && i + width < |text| && forall j :: i < j <= i + width ==> text[j] != ' '
  }

  // There is a long word, and the loop does not give up on the text before.
  ghost predicate Stuck(text: string, width: nat) {
    && |text| > width && LastBlank(text, width) >= 0
    && exists i :: 0 <= i < |text| && LongWord(text, width, i)
  }

  // One turn of the loop: the piece that is written and the text that remains.
  function Cut(text: string, width: nat): nat
    requires |text| > width
  {
    if LastBlank(text, width) < 0 then |text| else LastBlank(text, width)
  }

  // Once stuck, always stuck: the loop never ends.
  lemma StuckForever(text: string, width: nat)
    requires Stuck(text, width)
    ensures |text| > width && Stuck(text[Cut(text, width)..], width)
  {
    var i :| 0 <= i < |text| && LongWord(text, width, i);
    var c := Cut(text, width);
    var rest := text[c..];
    assert c <= i;
    assert LongWord(rest, width, i - c) by {
      assert forall j :: i - c < j <= i - c + width ==> rest[j] == text[j + c];
    }
    assert rest[0] == ' ';
  }

  // The long words of what remains are long words of the text.
  lemma LongWords(text: string, width: nat, c: nat)
    requires c <= |text|
    ensures forall i :: 0 <= i < |text| - c && LongWord(text[c..], width, i) ==> LongWord(text, width, i + c)
  {
    var rest := text[c..];
    forall i | 0 <= i < |rest| && LongWord(rest, width, i) ensures LongWord(text, width, i + c) {
      assert forall j :: i + c < j <= i + c + width ==> text[j] == rest[j - c];
    }
  }

  // Without a long word every turn makes the text shorter, and none appears.
  lemma FreeStays(text: string, width: nat)
    requires |text| > width && !Stuck(text, width)
    ensures 0 < Cut(text, width) && !Stuck(text[Cut(text, width)..], width)
  {
    var c := Cut(text, width);
    var rest := text[c..];
    if LastBlank(text, width) >= 0 {
      if c == 0 {
        assert LongWord(text, width, 0);
      }
      LongWords(text, width, c);
    }
  }

  // The literals of some pieces, one a line, and the start of the next literal.
  function Opened(pieces: seq<string>, indent: nat): string {
    if pieces == [] then "\""
    else
      var n := |pieces| - 1;
      Opened(pieces[..n], indent) + pieces[n] + "\"\n" + Indent(indent) + "\""
  }

  // What a compiler makes of adjacent literals.
  function Joined(pieces: seq<string>): string {
    if pieces == [] then "" else Joined(pieces[..|pieces| - 1]) + pieces[|pieces| - 1]
  }

  lemma Extends(pieces: seq<string>, last: string, indent: nat)
    ensures Opened(pieces + [last], indent) == Opened(pieces, indent) + last + "\"\n" + Indent(indent) + "\""
    ensures Joined(pieces + [last]) == Joined(pieces) + last
  {
    assert (pieces + [last])[..|pieces|] == pieces;
  }

  // The text can be split at a blank, if it has to be.
  predicate Splittable(text: string, width: nat) {
    |text| > width ==> LastBlank(text, width) >= 0
  }

  // Some pieces and a last one are the text; all of them fit the width, unless there is no
  // blank to split the text at.
  predicate IsWrapping(pieces: seq<string>, last: string, input: string, width: nat) {
    && Joined(pieces) + last == input
    && (Splittable(input, width) ==> |last| <= width && forall i :: 0 <= i < |pieces| ==> |pieces[i]| <= width)
  }

  ghost predicate Wraps(result: string, input: string, width: nat, indent: nat) {
    exists pieces, last :: IsWrapping(pieces, last, input, width) && result == Opened(pieces, indent) + last + "\""
  }

  // A text that starts with a blank can be split.
  lemma StaysSplittable(text: string, width: nat)
    requires |text| > width && LastBlank(text, width) >= 0
    ensures Splittable(text[LastBlank(text, width)..], width)
  {
    var rest := text[LastBlank(text, width)..];
    assert rest[0] == ' ';
  }

  // --- Reading the literals --------------------------------------------------------------

  // Literals in quotation marks with whitespace between them; inside is for a text that
  // starts inside a literal.
  predicate IsLiterals(s: string, inside: bool) {
    if s == "" then !inside
    else if s[0] == '"' then IsLiterals(s[1..], !inside)
    else (if inside then s[0] != '\n' else s[0] == ' ' || s[0] == '\n') && IsLiterals(s[1..], inside)
  }

  // What a compiler makes of them (section 6.4.5 of ISO/IEC 9899:2011).
  function LiteralText(s: string, inside: bool): string {
    if s == "" then ""
    else if s[0] == '"' then LiteralText(s[1..], !inside)
    else (if inside then [s[0]] else "") + LiteralText(s[1..], inside)
  }

  // Text that can stand in a literal as it is.
  predicate Plain(s: string) {
    forall i :: 0 <= i < |s| ==> s[i] != '"' && s[i] != '\n'
  }

  lemma {:induction false} ReadPlain(p: string, tail: string)
    requires Plain(p)
    ensures LiteralText(p + tail, true) == p + LiteralText(tail, true)
    ensures IsLiterals(p + tail, true) == IsLiterals(tail, true)
  {
    if p == "" {
      assert p + tail == tail;
    } else {
      ReadPlain(p[1..], tail);
      assert (p + tail)[1..] == p[1..] + tail && (p + tail)[0] == p[0];
      assert p == [p[0]] + p[1..];
    }
  }

  lemma {:induction false} ReadIndent(n: nat, tail: string)
    ensures LiteralText(Indent(n) + tail, false) == LiteralText(tail, false)
    ensures IsLiterals(Indent(n) + tail, false) == IsLiterals(tail, false)
  {
    if n == 0 {
      assert Indent(0) + tail == tail;
    } else {
      ReadIndent(n - 1, tail);
      assert (Indent(n) + tail)[1..] == Indent(n - 1) + tail;
    }
  }

  // From the end of a piece into the next literal.
  lemma ReadBreak(n: nat, tail: string)
    ensures var s := "\"\n" + Indent(n) + "\"" + tail;
            LiteralText(s, true) == LiteralText(tail, true) && IsLiterals(s, true) == IsLiterals(tail, true)
  {
    var s := "\"\n" + Indent(n) + "\"" + tail;
    var q := "\"" + tail;
    assert s[1..] == "\n" + (Indent(n) + q) && s[1..][1..] == Indent(n) + q && q[1..] == tail;
    ReadIndent(n, q);
  }

  lemma {:induction false} ReadOpened(pieces: seq<string>, n: nat, tail: string)
    requires forall i :: 0 <= i < |pieces| ==> Plain(pieces[i])
    ensures LiteralText(Opened(pieces, n) + tail, false) == Joined(pieces) + LiteralText(tail, true)
    ensures IsLiterals(Opened(pieces, n) + tail, false) == IsLiterals(tail, true)
    decreases |pieces|
  {
    if pieces == [] {
      assert ("\"" + tail)[1..] == tail;
    } else {
      var k := |pieces| - 1;
      var gap := "\"\n" + Indent(n) + "\"" + tail;
      hide LiteralText, IsLiterals, Indent;
      ReadOpened(pieces[..k], n, pieces[k] + gap);
      ReadPlain(pieces[k], gap);
      ReadBreak(n, tail);
      assert Opened(pieces, n) + tail == Opened(pieces[..k], n) + (pieces[k] + gap);
    }
  }

  lemma {:induction false} PiecesPlain(pieces: seq<string>, last: string)
    requires Plain(Joined(pieces) + last)
    ensures Plain(last) && forall i :: 0 <= i < |pieces| ==> Plain(pieces[i])
    decreases |pieces|
  {
    var t := Joined(pieces) + last;
    assert t[|Joined(pieces)|..] == last;
    if pieces != [] {
      var k := |pieces| - 1;
      assert t == Joined(pieces[..k]) + (pieces[k] + last);
      PiecesPlain(pieces[..k], pieces[k] + last);
      assert (pieces[k] + last)[..|pieces[k]|] == pieces[k];
    }
  }

  // The result is a list of literals that reads as the text.
  lemma WrappedReads(result: string, input: string, width: nat, indent: nat)
    requires Wraps(result, input, width, indent) && Plain(input)
    ensures IsLiterals(result, false) && LiteralText(result, false) == input
  {
    var pieces, last :| IsWrapping(pieces, last, input, width) && result == Opened(pieces, indent) + last + "\"";
    PiecesPlain(pieces, last);
    hide LiteralText, IsLiterals;
    assert result == Opened(pieces, indent) + (last + "\"");
    ReadOpened(pieces, indent, last + "\"");
    ReadPlain(last, "\"");
    EndQuote();
  }

  lemma EndQuote()
    ensures LiteralText("\"", true) == "" && IsLiterals("\"", true)
  {}

  // For a text that does not get stuck, the adjacent literals join to the text.
  method WrappedCharConstant(input: string, width: nat, indent: nat) returns (result: string)
    requires !Stuck(input, width)
    ensures Wraps(result, input, width, indent)
    ensures Plain(input) ==> IsLiterals(result, false) && LiteralText(result, false) == input
  {
    hide Opened, Joined, Stuck, Splittable, Indent, IsLiterals, LiteralText, Plain;
    var text := input;
    result := "\"";
    Starts(input, indent);
    ghost var pieces: seq<string>, last := [], "";
    ghost var fits := Splittable(input, width);
    while |text| > width
      invariant last == "" ==> result == Opened(pieces, indent) && Joined(pieces) + text == input
      invariant last != "" ==> text == "" && result == Opened(pieces, indent) + last && Joined(pieces) + last == input
      invariant !Stuck(text, width) && (fits ==> Splittable(text, width) && last == "")
      invariant fits ==> forall i :: 0 <= i < |pieces| ==> |pieces[i]| <= width
      decreases |text|
    {
      FreeStays(text, width);
      var pos := LastBlank(text, width);
      if pos < 0 {
        CannotSplit(text, width);
        result, last := result + text, text;
        text := "";
      } else {
        StaysSplittable(text, width);
        var piece := text[..pos];
        Extends(pieces, piece, indent);
        result := result + piece;
        result := result + "\"\n";
        result := result + Indent(indent) + "\"";
        assert Joined(pieces) + text == Joined(pieces) + piece + text[pos..];
        pieces := pieces + [piece];
        text := text[pos..];
      }
    }
    if last == "" {
      last := text;
    }
    assert result + text + "\"" == Opened(pieces, indent) + last + "\"";
    result := result + text + "\"";
    assert IsWrapping(pieces, last, input, width);
    if Plain(input) {
      WrappedReads(result, input, width, indent);
    }
  }

  lemma Starts(input: string, indent: nat)
    ensures Opened([], indent) == "\"" && Joined([]) + input == input
  {}

  lemma CannotSplit(text: string, width: nat)
    requires |text| > width && LastBlank(text, width) < 0
    ensures !Splittable(text, width) && !Stuck("", width)
  {}

  // Such texts exist for every width: a blank and a word of width characters.
  lemma StuckText(width: nat)
    ensures Stuck(" " + Word(width), width)
  {
    var text := " " + Word(width);
    assert LongWord(text, width, 0);
    assert LastBlank(text, width) == 0;
  }

  function Word(n: nat): (word: string)
    ensures |word| == n && forall i :: 0 <= i < n ==> word[i] == 'x'
  {
    if n == 0 then "" else "x" + Word(n - 1)
  }
}
