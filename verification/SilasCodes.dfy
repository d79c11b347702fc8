/** Silas configurations as the codes that yylex returns: which code is which word of the
    language, and what the parser accepts in terms of the codes alone. */
module SilasCodes {
  import Lr
  import opened SilasTranslator
  import opened SilasLanguage

  // The codes of the enumeration yytokentype.
  const SC_AGGREGATE_IDLE := 258
  const SC_BALANCE := 259
  const SC_IDLE_OVERHEAD := 260
  const SC_CUT := 261
  const SC_NOOP_THRESHOLD := 262
  const SC_OPTION := 263
  const SC_STRING := 264
  const SC_NUMBER := 265
  const SC_UNSIGNED := 266
  const SC_INTEGER := 267
  const SC_REAL := 268
  const SC_MESSAGE := 269
  const SC_MODEL := 270
  const SC_REGION := 271
  const SC_SCALE := 272
  const SC_SKIP_THRESHOLD := 273
  const SC_SIZE := 274
  const SC_TAG := 275
  const SC_RELATION := 276
  const QUOTATION := '"' as int

  // The terminals that no name is needed for: the end, error, undefined and SC_NUMBER.
  const ERROR := 1
  const UNDEFINED := 2
  const NUMBER := 10

  // The terminal symbol that a code stands for.
  function Terminal(code: int): int {
    if code == SC_AGGREGATE_IDLE then AGGREGATE_IDLE
    else if code == SC_BALANCE then BALANCE
    else if code == SC_IDLE_OVERHEAD then IDLE_OVERHEAD
    else if code == SC_CUT then CUT
    else if code == SC_NOOP_THRESHOLD then NOOP_THRESHOLD
    else if code == SC_OPTION then OPTION
    else if code == SC_STRING then STRING
    else if code == SC_NUMBER then NUMBER
    else if code == SC_UNSIGNED then UNSIGNED
    else if code == SC_INTEGER then INTEGER
    else if code == SC_REAL then REAL
    else if code == SC_MESSAGE then MESSAGE
    else if code == SC_MODEL then MODEL
    else if code == SC_REGION then REGION
    else if code == SC_SCALE then SCALE
    else if code == SC_SKIP_THRESHOLD then SKIP_THRESHOLD
    else if code == SC_SIZE then SIZE
    else if code == SC_TAG then TAG
    else if code == SC_RELATION then RELATION
    else if code == QUOTATION then QUOTE
    else if code <= 0 then END
    else if code == 256 then ERROR
    else UNDEFINED
  }

  // The parser takes every code for its own terminal.
  lemma KindIsTerminal(code: int)
    ensures Lr.Kind(Lr.SilasGrammar, code) == Terminal(code)
  {}

  // Different codes of words are different terminals.
  lemma TerminalsDiffer(a: int, b: int)
    requires Terminal(a) == Terminal(b) && Terminal(a) != END && Terminal(a) != UNDEFINED
    ensures a == b
  {}

  // The tokens from pos on have the codes and texts of these words.
  predicate Written(tokens: seq<Lr.Token>, pos: nat, words: seq<Word>) {
    && pos + |words| <= |tokens|
    && forall i :: 0 <= i < |words| ==>
         && Terminal(tokens[pos + i].code) == words[i].kind
         && (words[i].Texted? ==> tokens[pos + i].text == words[i].text)
  }

  // What comes at pos reads as the end of the input.
  predicate EndsAt(tokens: seq<Lr.Token>, pos: nat) {
    pos < |tokens| ==> tokens[pos].code <= 0
  }

  // The tokens are those of a configuration, up to the end of the input.
  predicate IsWritten(tokens: seq<Lr.Token>, c: Configuration) {
    Written(tokens, 0, Words(c)) && EndsAt(tokens, |Words(c)|)
  }

  lemma {:induction false} SpellsWritten(at: Progress, words: seq<Word>)
    requires forall i :: 0 <= i < |words| ==> words[i].kind != END
    ensures Spells(at, words) <==> words == [] || Written(at.input, at.pos, words)
    decreases |words|
  {
    if words != [] {
      hide Terminal, Lr.Kind;
      if at.pos < |at.input| {
        KindIsTerminal(at.input[at.pos].code);
      }
      SpellsWritten(Skip(at), words[1..]);
      hide Spells;
      assert Spells(at, words) <==>
             Next(at) == words[0].kind && (words[0].Texted? ==> Text(at) == words[0].text) && Spells(Skip(at), words[1..]);
    }
  }

  predicate NoEnd(words: seq<Word>) {
    forall i :: 0 <= i < |words| ==> words[i].kind != END
  }

  lemma {:induction false} SettingsHaveNoEnd(settings: seq<Setting>)
    requires forall i :: 0 <= i < |settings| ==> IsSetting(settings[i])
    ensures NoEnd(SettingsWords(settings))
  {
    if settings != [] {
      SettingsHaveNoEnd(settings[1..]);
      assert NoEnd(SettingWords(settings[0]));
    }
  }

  lemma {:induction false} ItemsHaveNoEnd(items: seq<Item>)
    requires forall i :: 0 <= i < |items| ==> IsItem(items[i])
    ensures NoEnd(ItemsWords(items))
  {
    if items != [] {
      ItemsHaveNoEnd(items[1..]);
      assert NoEnd(ItemWords(items[0]));
    }
  }

  lemma WordsHaveNoEnd(c: Configuration)
    requires IsConfiguration(c)
    ensures NoEnd(Words(c)) && Words(c) != []
  {
    SettingsHaveNoEnd(c.settings);
    ItemsHaveNoEnd(c.items);
  }

  lemma SpellsConfiguration(tokens: seq<Lr.Token>, c: Configuration)
    requires IsConfiguration(c)
    ensures Spells(Progress(tokens, 0, []), Words(c) + [Word(END)]) <==> IsWritten(tokens, c)
  {
    var at := Progress(tokens, 0, []);
    WordsHaveNoEnd(c);
    hide Words, IsConfiguration, Terminal, Lr.Kind;
    SpellsSum(at, Words(c), [Word(END)]);
    SpellsWritten(at, Words(c));
    var at1 := Ahead(at, |Words(c)|);
    SpellsOne(at1, Word(END));
    hide Spells;
    if at1.pos < |tokens| {
      KindIsTerminal(tokens[at1.pos].code);
      EndCodes(tokens[at1.pos].code);
    }
  }

  lemma EndCodes(code: int)
    ensures Terminal(code) == END <==> code <= 0
  {}

  // The codes and texts are those of a configuration with a known model, and these are its
  // calls.
  ghost predicate Means(known: set<string>, tokens: seq<Lr.Token>, calls: seq<Call>) {
    exists c :: IsConfiguration(c) && c.model in known && calls == Calls(c) && IsWritten(tokens, c)
  }

  // A run of the parser is accepted with some calls exactly if the codes and texts that
  // yylex returns mean these calls.
  lemma AcceptsCodesIff(known: set<string>, tokens: seq<Lr.Token>, calls: seq<Call>)
    ensures Translation(known, tokens) == Accepted(calls) <==> Means(known, tokens, calls)
  {
    AcceptsIff(known, tokens, calls);
    hide Spells, Translation, IsConfiguration, Calls, Words, IsWritten;
    var at := Progress(tokens, 0, []);
    if c :| IsConfiguration(c) && c.model in known && calls == Calls(c) && Spells(at, Words(c) + [Word(END)]) {
      SpellsConfiguration(tokens, c);
    }
    if c :| IsConfiguration(c) && c.model in known && calls == Calls(c) && IsWritten(tokens, c) {
      SpellsConfiguration(tokens, c);
    }
  }

  // Accepted with the calls that are meant, and only if there are some.
  ghost predicate EndsAsMeant(known: set<string>, tokens: seq<Lr.Token>, o: Outcome) {
    forall calls :: o == Accepted(calls) <==> Means(known, tokens, calls)
  }

  lemma MeantEnd(known: set<string>, tokens: seq<Lr.Token>)
    ensures EndsAsMeant(known, tokens, Translation(known, tokens))
  {
    hide Means, Translation;
    forall calls ensures Translation(known, tokens) == Accepted(calls) <==> Means(known, tokens, calls) {
      AcceptsCodesIff(known, tokens, calls);
    }
  }
}
