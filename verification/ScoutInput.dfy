/** Whether an accepted run of Scout has read its whole input. */
module ScoutInput {
  import opened Flex
  import Lexing = ScoutLexer
  import Lines = ScoutLines
  import opened ScoutTokens
  import opened ScoutTranslator
  import opened ScoutReading
  import opened ScoutRuns

  lemma {:induction false} PlaceAvoids(w: World, l: ValidLexer, words: seq<Word>, bad: Byte -> bool)
    requires InputAvoids(w, l, bad)
    ensures InputAvoids(w, Place(w, l, words), bad)
    decreases |words|
  {
    hide Beyond, InputAvoids;
    if words != [] {
      var before := Place(w, l, words[..|words| - 1]);
      PlaceAvoids(w, l, words[..|words| - 1], bad);
      BeyondAvoids(w, before, bad);
      if NamesFile(words) {
        OpenAvoids(w, words[|words| - 2].text, Beyond(before), bad);
      }
    }
  }

  lemma OpenAvoids(w: World, name: string, l: ValidLexer, bad: Byte -> bool)
    requires InputAvoids(w, l, bad)
    ensures InputAvoids(w, OpenedFile(w, name, l), bad)
  {}

  // An accepted run has read all files to their ends, unless a token would have started with
  // a NUL byte or a byte above 127. It has if there are no such bytes.
  lemma WholeInput(w: World, l: ValidLexer, words: seq<Word>, rules: seq<int>)
    requires ReadToEnd(w, l, words, rules)
    ensures var e := Place(w, l, words);
            && (Lexing.Yylex(e) != Lexing.AtEnd <==> Interrupted(Skipped(e)))
            && (InputAvoids(w, l, Foreign) ==> Lexing.Yylex(e) == Lexing.AtEnd)
  {
    hide Reads, Place, Peek, Lexing.Yylex, InputAvoids;
    var e := Place(w, l, words);
    EndIff(e);
    if InputAvoids(w, l, Foreign) {
      PlaceAvoids(w, l, words, Foreign);
      YylexAvoids(w, e, Foreign);
      CleanStart(w, Skipped(e));
    }
  }

  // The run has read these tokens, the reductions derive them, and nothing is left unless
  // some file holds such a byte.
  ghost predicate ReadsAll(w: World, l: ValidLexer, words: seq<Word>, rules: seq<int>) {
    ReadToEnd(w, l, words, rules) && (InputAvoids(w, l, Foreign) ==> Lexing.Yylex(Place(w, l, words)) == Lexing.AtEnd)
  }

  // The next byte reads as the end of the input.
  predicate Interrupted(l: ValidLexer) {
    l.rest != [] && l.start == Lexing.INITIAL && Foreign(l.rest[0])
  }

  lemma CleanStart(w: World, l: ValidLexer)
    requires InputAvoids(w, l, Foreign)
    ensures !Interrupted(l)
  {}

  // Behind an item such a byte ends the description, whatever follows it.
  lemma RestIgnored(w: World, at: Progress)
    requires Interrupted(Skipped(at.l))
    ensures BodyMore(w, at) == Accepted(at.reg)
  {
    hide Peek;
    EndIff(at.l);
  }

  // Wherever the parser is in its input, the scanner knows the lines.
  lemma {:induction false} PlaceInFile(w: World, contents: seq<Byte>, l: ValidLexer, words: seq<Word>)
    requires Lines.Placed(w.files, contents, l)
    ensures Lines.Placed(w.files, contents, Place(w, l, words))
    decreases |words|
  {
    hide Lexing.Yylex, Lines.Placed, Lines.Numbered;
    if words != [] {
      var before := Place(w, l, words[..|words| - 1]);
      PlaceInFile(w, contents, l, words[..|words| - 1]);
      Lines.YylexPlaced(w.files, contents, before);
      if NamesFile(words) {
        OpenInFile(w, contents, words[|words| - 2].text, Beyond(before));
      }
    }
  }

  lemma OpenInFile(w: World, contents: seq<Byte>, name: string, l: ValidLexer)
    requires Lines.Placed(w.files, contents, l)
    ensures Lines.Placed(w.files, contents, OpenedFile(w, name, l))
  {
    hide Lines.Numbered, Lines.Placed;
    if l.includer.Nobody? && name != "" && name in w.files {
      Lines.IncludePlaced(w.files, contents, l, name);
    }
  }

  // From the first token on.
  lemma EveryPlace(w: World, contents: seq<Byte>, words: seq<Word>)
    ensures Lines.Placed(w.files, contents, Place(w, Beginning(contents), words))
  {
    Lines.StartPlaced(w.files, contents);
    PlaceInFile(w, contents, Beginning(contents), words);
  }
}
