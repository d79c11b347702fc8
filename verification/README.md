# Description files and shared pointers of Scalasca

The measurement tools of this repository read two small languages with generated parsers.
The Scout generator turns a *pattern description* into C++ classes; the Silas tool reads a
*replay configuration*. Both front ends are a table-driven LALR parser on top of a
table-driven scanner that works in a buffer refilled in the middle of tokens. This project
models both, instruction by instruction where the original works in place, and proves them
against reference definitions that a reader can check by eye:

* **Scanners.** `Flex` holds the scanner tables (as functions, entry by entry) and what they
  guarantee; `Munch` defines maximal munch on a whole text; `ScanBuffer` is the buffered
  matcher, with both loop forms, end-of-buffer sentinels, back-up, refills of any size,
  growing and switched buffers, and real NUL bytes. Every sequence of reads gives the
  lexemes of one scan of the whole input.
* **Scout's scanner.** `ScoutLexer` is the scanner on whole inputs (start conditions, brace
  depth, line numbers, one level of included files); `ScoutScanning` is the class that
  works on buffers, proved to deliver the same; `ScoutConditions` and `Braces` prove what
  the start conditions, included files and brace-matched text do, `ScoutLines` that line
  numbers count the newlines of the file being read, and `ScoutGaps` what is skipped between
  tokens.
* **Parsers.** `Lr` is the shift/reduce decision over the compressed tables (`ScoutTables`,
  `SilasTables`), `LrStack` the two parser stacks. `ScoutAutomaton` and `SilasAutomaton` say
  in plain relations what the tables encode. `ScoutTranslator` and `SilasTranslator` are
  recursive-descent readings of the two languages that perform the semantic actions as they
  go. `ScoutMeaning` and `SilasMeaning` give each configuration of the parser a meaning (what
  the translator would still do), which every move keeps; `ScoutParser` and `SilasParser` are
  the parser classes. `ScoutDerivation` reads a run as a rightmost derivation, and
  `ScoutReading` ties it to the tokens that were read, with those of an included file right
  behind its name. `SilasLanguage` says without a parser which token sequences are
  configurations, and `SilasCodes` says so in terms of the codes that yylex returns.
* **What Scout builds.** `PatternRegistry` (patterns, parents, callbacks, numbered constants),
  `PatternHistory` (the patterns are what has been defined, one after the other), `CodeText`,
  `CodeLines`, `LineTexts` and `CodeBlocks` (de-indented code blocks and their `#line`
  directives), `Indenting` (indented again on their way to the output), `Wrapping` (string
  constants split over lines).
* **Every Scout run.** `ScoutRuns` proves of every run, by induction over the language, that
  accepted patterns are complete and attributes are assigned once; `ScoutTokens` says which
  bytes make an empty string or the end of the input, and `ScoutInput` when an accepted run
  has read everything.
* **Scout files as they are written.** `ScoutKeywords` and `ScoutSpelling` give the bytes of
  the tokens; `ScoutFiles` writes a list of items as a description file and says what it means
  without any scanner or parser; `ScoutFacts` lists what such a file says, without any action
  of the parser, and proves that this is what is left behind; `ScoutExamples` are files with
  surprising meanings.
* **Numbers.** `Numbers` and `SilasNumbers`: C number conversions and the range check of
  unsigned lexemes.
* **`CountedPtr`.** `SharedOwnership` is the state of all handles and counters with every
  sequence of operations; `CountedPtr` is the class on the heap.

`ScoutParser.ParseFile` is the whole Scout front end: buffers, scanner, included files,
parser, actions.

## What the code does, where that is not what one would expect

* The scanner checks an unsigned number in base 10, the parser reads it again in base 0. The
  two agree exactly when the lexeme does not start with 0 or is less than 8
  (`Numbers.AutoAgreesIff`); the second reading is never larger.
  The lexeme 010 is ten for the scanner and eight for the parser (`Numbers.LeadingZero`).
* An included file that ends inside a comment, a string or a block leaves its start condition
  and brace depth behind; the include is transparent for every rest of the including file
  exactly when the included file ends in the `INITIAL` condition
  (`ScoutConditions.TransparentIff`). The file `#{` does not (`ScoutConditions.OpenComment`).
* A comment in `#{` and `#}` starts only where `#{` stands alone at the end of its line: with
  anything behind it the rest of the line is the longer match (`ScoutGaps.HashSkips`). It ends
  at the first `#}` whose `#` has no other `#` before it (`ScoutGaps.CommentSkips`).
* A NUL byte hides what follows it in the same TEXT token; a block comes through unchanged
  exactly when it holds none (`Braces.BraceRoundTrip`; `Braces.NulHides` is a block that does
  not).
* A string whose first byte is NUL reads as empty (`ScoutTokens.EmptyIff`). So an attribute
  with a string value is assigned at most once if no file holds a NUL byte
  (`ScoutRuns.AssignedOnce`), but `NAME` can be given twice if the first name starts with one
  (`ScoutExamples.NamedTwice`). Code blocks are never empty and always assigned once. Text
  blocks can be empty. In a list of definitions of one checked attribute all but the last have
  to be empty (`PatternRegistry.OnceIff`), and MODE is never empty (`PatternRegistry.ModeIff`).
* In the `INITIAL` condition a NUL byte or a byte above 127, where a token would start, reads
  as the end of the input, because `char` is signed (`ScoutTokens.EndIff`); the parser then
  accepts what came before, whatever follows (`ScoutInput.RestIgnored`,
  `ScoutExamples.RestHidden`). Such a byte is skipped in a comment and is a part of a string or
  block (`ScoutTokens.ForeignEffect`). An accepted run has read its whole input exactly when it
  was not interrupted like this, and always when no file holds such a byte
  (`ScoutInput.WholeInput`).
* A code block is refused exactly when it starts with text in line 1 of its file
  (`CodeLines.LinesExact`).
* `preprocessText` is idempotent exactly under the condition of `CodeLines.TwiceIsOnce`; it is
  for texts whose only whitespace is blanks, tabs and newlines, and it fails for an
  indentation that holds a carriage return (`CodeLines.TwiceIsMore`).
* `PARENT` can be given again as long as the values before the last one are the name of a
  pattern called NONE (`PatternRegistry.ParentIff`); `ScoutExamples.NoneTwice` is a file that
  does so. A pattern called NONE also clashes with the predefined constant
  (`PatternRegistry.ConstantNames`).
* Callbacks are told apart by event and group joined with an underscore, so an event can be
  refused because of another event of another group (`PatternRegistry.CallbackIff`,
  `PatternRegistry.NamesCollide`).
* A reference count wraps around at 2^32: with 2^32 + 1 handles on one object, the first
  release frees it (`SharedOwnership.ReleaseKeepsIff`); as many copies of one handle lead there
  (`SharedOwnership.CrowdFails`).
* `wrappedCharConstant` never ends when a blank is followed by at least `width` characters
  without one, unless there is no blank in the first `width` + 1 characters of the text
  (`Wrapping.StuckForever`); for every width there is such a text (`Wrapping.StuckText`).

## Model

| member | source | states |
|---|---|---|
| ScoutParser.ParseFile | build-backend/ScoutPatternParser.cc:2080-2106 | for all contents of the description file and of the files it includes, and all ways the reads deliver them, the run ends with the patterns, prolog and callbacks, or the error, of the recursive-descent translator; on acceptance every pattern is complete, every part of it has the last value given to it, every callback the code given to its event, the patterns are a forest, the tokens read are those of the input with every included file right behind its name, the reductions derive them from the start symbol, and nothing is left unread unless some file holds a NUL byte or a byte above 127; no null pattern is used and the stack never fills up |
| ScoutParser.Parser.yyparse | build-backend/ScoutPatternParser.cc:1207-1447 | the same outcome for the parser and its scanner object; on acceptance the tokens read from the scanner's input, up to the end of that input, are derived from the start symbol by the reductions, the last one first, each at the rightmost nonterminal |
| ScoutParser.Parser.GetToken | build-backend/ScoutPatternParser.cc:1353-1364 | the lookahead is the next token of the input that is left, or the scanner has called yyerror |
| ScoutParser.Parser.Backup | build-backend/ScoutPatternParser.cc:1347-1421 | the decision is the automaton's, and a lookahead is read only in a state that needs one |
| ScoutParser.Parser.ShiftToken | build-backend/ScoutPatternParser.cc:1395-1411 | a shift consumes the lookahead, keeps value stack and state stack aligned, and keeps the meaning |
| ScoutParser.Parser.ReduceRule | build-backend/ScoutPatternParser.cc:1423-1875 | a reduction keeps the meaning and the forest, or fails with the translator's outcome; it comes closer to the next shift |
| ScoutParser.Parser.IncludeItem | build-backend/ScoutPatternParser.cc:1441-1447 | the scanner goes on at the start of the included file, and will come back to the very next byte of the including one: nothing has been read ahead |
| ScoutParser.Parser.CodeBlockItem | build-backend/ScoutPatternParser.cc:1787-1811 | the value of a code block, with the line of its text and the name of the file being read, and the line counter after it |
| ScoutMeaning.ShiftKeeps | build-backend/ScoutPatternParser.cc:694-726 | for every state and token that shifts, the translator goes on from the new configuration as from the old one |
| ScoutMeaning.ReduceKeeps | build-backend/ScoutPatternParser.cc:657-672 | for every linked stack and default reduction, the goto is defined, no reduction reaches below the bottom, and the action does what the translator does next |
| ScoutMeaning.Stuck | build-backend/ScoutPatternParser.cc:1374-1421 | a syntax error, or a scanner failure, is detected exactly where the translator fails, with the same registry |
| ScoutMeaning.DepthBound | build-backend/ScoutPatternParser.cc:1276-1303 | the stack never holds more than 22 entries |
| ScoutMeaning.PerformKeeps | build-backend/ScoutPatternParser.cc:1439-1842 | every semantic action keeps the registry a forest and never uses a pattern that is not there |
| ScoutMeaning.TableDecision | build-backend/ScoutPatternParser.cc:638-726 | what the tables decide in every state but the final one |
| ScoutAutomaton.TableShifts | build-backend/ScoutPatternParser.cc:638-726 | the compressed tables shift exactly as the grammar's automaton does |
| ScoutAutomaton.TableReductions | build-backend/ScoutPatternParser.cc:657-671 | the default reductions are exactly those of the automaton |
| ScoutAutomaton.TableGotos | build-backend/ScoutPatternParser.cc:674-726 | the compressed gotos lead where the automaton does |
| ScoutDerivation.RhsOnStack | build-backend/ScoutPatternParser.cc:728-766 | the states on top of the stack spell the right-hand side of the rule about to be reduced |
| ScoutDerivation.ShiftDerives | build-backend/ScoutPatternParser.cc:1395-1411 | after a shift the symbols on the stack still derive the tokens shifted, rightmost nonterminal first |
| ScoutDerivation.ReduceDerives | build-backend/ScoutPatternParser.cc:1857-1875 | after a reduction they do, with that rule as the first step |
| ScoutDerivation.FinalSymbols | build-backend/ScoutPatternParser.cc:525-525 | in the final state the stack spells the start symbol and the end of the input |
| ScoutReading.ShiftReads | build-backend/ScoutPatternParser.cc:1395-1411 | the token shifted is the next one of the input, where an included file follows directly behind its name |
| ScoutReading.ReduceReads | build-backend/ScoutPatternParser.cc:1441-1447 | a reduction reads nothing; rule 8 opens the file that was just named, and no other reduction moves the scanner |
| ScoutReading.EndReads | build-backend/ScoutPatternParser.cc:525-525 | in the final state the whole input has been read, and the reductions derive its tokens from the start symbol |
| ScoutReading.ReadToEndSame | build-backend/ScoutPatternParser.cc:1353-1364 | the input determines the tokens that are read to its end |
| ScoutFiles.FileIs | src/scout/generator/ScoutPatternParser.yy:127-534 | a description file written from any list of items, included files among them, means the actions of these items in order with the lines they are in, and is accepted if and only if none of them is refused; a NUL byte or a byte above 127 behind it hides the rest |
| ScoutFiles.EntriesAre | src/scout/generator/ScoutPatternParser.yy:212-460 | the same for the parts of a pattern |
| ScoutFiles.EventsAre | src/scout/generator/ScoutPatternParser.yy:462-475 | the same for a list of callbacks |
| ScoutFacts.FileFacts | src/scout/generator/ScoutPatternParser.yy:127-534 | an accepted description file leaves behind exactly what is written in it: its patterns in order, for every part the last value written, for every event in its group the code written behind it, the events of each group in order, and the prologs in order; code blocks have the line and the file that they are in |
| ScoutFacts.EventsGive | src/scout/generator/Pattern.cpp:98-116 | after an accepted list of callbacks each event has, joined with its group, the code written behind it; earlier callbacks keep theirs; the group has grown by these events in order |
| ScoutGaps.BlanksSkip | build-backend/ScoutPatternScanner.cc:870-874 | any blanks are skipped, whatever follows them |
| ScoutGaps.HashSkips | build-backend/ScoutPatternScanner.cc:902-907 | a comment up to the end of its line is skipped; one in braces starts if and only if the brace is all that follows in its line |
| ScoutGaps.CommentSkips | build-backend/ScoutPatternScanner.cc:882-900 | a comment in braces is skipped up to the #} that closes it, with its newlines counted |
| ScoutSpelling.NoNewlineInString | build-backend/ScoutPatternScanner.cc:928-933 | a string that is not closed in its line is refused by the scanner |
| ScoutSpelling.StringIs | build-backend/ScoutPatternScanner.cc:910-941 | any text without a quotation mark or a newline, in quotation marks, is a string with that text up to its first NUL byte |
| ScoutSpelling.NoEmptyString | build-backend/ScoutPatternScanner.cc:910-941 | an empty string is a syntax error |
| ScoutKeywords.KeywordMunch | build-backend/ScoutPatternScanner.cc:1005-1109 | each of the 21 keywords is matched whole by its own rule, whatever follows it |
| ScoutTokens.EndIff | build-backend/ScoutPatternScanner.cc:1111-1115 | the parser sees the end of the input if and only if all files are at their ends or a token would start with a NUL byte or a byte above 127 in the INITIAL condition |
| ScoutTokens.ForeignEffect | build-backend/ScoutPatternScanner.cc:862-1115 | what such a byte does in each start condition |
| ScoutTokens.EmptyIff | build-backend/ScoutPatternScanner.cc:920-926 | the text of a string is empty if and only if its first byte is NUL |
| ScoutInput.WholeInput | build-backend/ScoutPatternParser.cc:1353-1364 | an accepted run leaves something unread if and only if it was interrupted by such a byte; it leaves nothing if no file holds one |
| ScoutInput.RestIgnored | build-backend/ScoutPatternParser.cc:1353-1364 | behind an item such a byte ends the description with acceptance, whatever follows |
| ScoutRuns.EveryTranslation | build-backend/ScoutPatternParser.cc:1477-1514 | for all files: on acceptance every pattern has its five required attributes and one of the two modes; every part of a pattern is the last value recorded for it, or the default; every callback has the code recorded for its event and group, the groups hold their events in order, and the prolog is the recorded prologs with empty lines between them |
| ScoutRuns.AssignedOnce | build-backend/ScoutPatternParser.cc:1516-1742 | for all files: no attribute with a code block is assigned twice to a pattern, and no checked attribute with a string if no file holds a NUL byte |
| ScoutExamples.RestHidden | build-backend/ScoutPatternScanner.cc:1111-1115 | a description that is accepted with any rest hidden behind such a byte |
| ScoutExamples.NamedTwice | build-backend/ScoutPatternParser.cc:1516-1528 | an accepted description that gives a NAME twice |
| ScoutExamples.NoneTwice | build-backend/ScoutPatternParser.cc:1550-1572 | an accepted description with a pattern NONE and a PARENT given twice |
| ScoutExamples.WordsMean | src/scout/generator/ScoutPatternParser.yy:212-447 | the parts of a pattern with string values are the list of definitions of the registry, so what is said about such lists holds for the files that are written with them |
| ScoutTranslator.ReadsLess | build-backend/ScoutPatternScanner.cc:1117-1135 | reading a token uses up input, also across the end of an included file |
| CodeBlocks.BlockValue | build-backend/ScoutPatternParser.cc:1779-1838 | scanner and parser together: a code block with any balanced NUL-free text gets the value of that text and the line of its brace, and the input goes on behind it |
| CodeBlocks.BlockLines | build-backend/ScoutPatternParser.cc:1779-1811 | every character of a block in a file gets from the emitted directive the line number it has in that file, and the directive names the file, the included one while one is read; a block is refused exactly when it starts with text in line 1 |
| CodeBlocks.BlockInFile | build-backend/ScoutPatternParser.cc:1779-1811 | the same with lines counted in the bytes of the file that holds the block, from its start, across included files |
| CodeText.PreprocessText | build-backend/ScoutPatternParser.cc:2455-2517 | the text without leading blank lines, common indentation and trailing whitespace; the line counter grows by the blank lines dropped |
| CodeText.EndOfLine | build-backend/ScoutPatternParser.cc:2467-2476 | the index behind the next newline, or the end |
| CodeText.TrimTrailing | build-backend/ScoutPatternParser.cc:2504-2514 | the longest prefix that does not end in whitespace |
| CodeLines.Placed | build-backend/ScoutPatternParser.cc:2455-2517 | the characters that are no whitespace are kept in order, each on its line |
| CodeLines.LinesExact | build-backend/ScoutPatternParser.cc:1787-1811 | presumed line numbers after the directive equal the numbers in the file, and the presumed file is that file |
| LineTexts.TextsKept | build-backend/ScoutPatternParser.cc:2455-2517 | every line that is not blank keeps the text from its first to its last character that is no whitespace, with the whitespace between, and its line number; it loses as much whitespace before it as the first such line has, or its blanks and tabs if these are fewer |
| LineTexts.NoEdges | build-backend/ScoutPatternParser.cc:2455-2517 | the result has text in its first line and does not end in whitespace |
| Indenting.Indent | src/scout/generator/IndentStream.cpp:24-58 | every line but the blank ones is indented, nothing else changes |
| Indenting.LinesIndented | src/scout/generator/IndentStream.cpp:24-58 | there are as many lines as before; each one with text is the old line behind the given number of blanks, the others are unchanged |
| Indenting.IndentedLinesExact | src/scout/generator/IndentStream.cpp:24-58 | also after indentation the directive gives every character the number of the line it has in the description file, and the name of that file |
| CodeLines.TwiceIsOnce | build-backend/ScoutPatternParser.cc:2478-2499 | idempotent if and only if the first line with text is indented by blanks and tabs only, or no line up to the last text has more of these than that line has whitespace |
| CodeLines.PlainTwice | build-backend/ScoutPatternParser.cc:2478-2499 | idempotent when the only whitespace is blank, tab and newline |
| CodeLines.TwiceIsMore | build-backend/ScoutPatternParser.cc:2478-2499 | an input on which it is not |
| PatternRegistry.EnterKeeps | build-backend/ScoutPatternParser.cc:1462-1475 | a new pattern keeps the list and the index the same set with unique ids |
| PatternRegistry.EnterIff | build-backend/ScoutPatternParser.cc:1462-1475 | a pattern is accepted if and only if no other one has its id |
| PatternRegistry.ParentKeeps | build-backend/ScoutPatternParser.cc:1550-1572 | a parent is always a pattern defined before |
| PatternRegistry.DefineKeeps | build-backend/ScoutPatternParser.cc:1516-1742 | every attribute definition keeps the forest |
| PatternRegistry.CallbackKeeps | build-backend/ScoutPatternParser.cc:1760-1769 | so does a callback |
| PatternRegistry.LineIff | build-backend/ScoutPatternParser.cc:1550-1572 | parent chains end: every pattern has exactly one line of ancestors |
| PatternRegistry.WriteConstants | build-backend/ScoutPatternParser.cc:2161-2171 | NONE is -1, the patterns are numbered from 0 in the order of definition |
| PatternRegistry.ParentConstant | build-backend/ScoutPatternParser.cc:2161-2171 | the constant of a parent exists and is smaller than that of its child |
| PatternRegistry.ConstantNames | build-backend/ScoutPatternParser.cc:2161-2171 | the constants have different names if and only if no pattern is called NONE |
| PatternRegistry.AssignedOnce | build-backend/ScoutPatternParser.cc:1516-1742 | in any list of definitions, whatever is defined in between, only the last of several definitions of a checked attribute is not empty |
| PatternRegistry.OnceIff | build-backend/ScoutPatternParser.cc:1516-1742 | definitions of one checked attribute other than MODE are accepted if and only if all but the last are empty |
| PatternRegistry.DefineIff | build-backend/ScoutPatternParser.cc:1516-1742 | a definition is accepted if and only if the attribute is empty, where that is checked, and the value is a known mode, type or eligible parent, where that is asked for |
| PatternRegistry.ModeIff | build-backend/ScoutPatternParser.cc:1661-1678 | definitions of MODE are accepted if and only if there is at most one and it is inclusive or exclusive |
| PatternRegistry.ParentIff | build-backend/ScoutPatternParser.cc:1550-1572 | definitions of PARENT are accepted if and only if each names another known pattern and all but the last name one called NONE |
| PatternRegistry.LeaveIff | build-backend/ScoutPatternParser.cc:1477-1514 | a pattern is complete if and only if none of the five attributes is missing; the first missing one is reported |
| PatternRegistry.CallbackLists | src/scout/generator/Pattern.cpp:98-116 | after a new callback the callbacks are still those of the listed events, each with its own name |
| PatternRegistry.CallbackIff | src/scout/generator/Pattern.cpp:98-116 | a callback is refused if and only if a listed event has, joined with its group, the same name |
| PatternRegistry.NamesCollide | src/scout/generator/Pattern.cpp:98-116 | an event refused because of another event of another group |
| ScoutScanning.YyLexer.constructor | build-backend/ScoutPatternScanner.cc:771-807 | a new scanner stands at the start of its file |
| ScoutScanning.YyLexer.Yylex | build-backend/ScoutPatternScanner.cc:763-1272 | the token, line number and remaining input of scanning the whole input, across refills and the end of an included file; the line number stays one more than the newlines read of the current file |
| ScoutScanning.YyLexer.IncludeFile | build-backend/ScoutPatternScanner.cc:2112-2135 | the included file comes next, the including one is kept where it was; nested and missing files are refused |
| ScoutScanning.YyLexer.CloseInclude | build-backend/ScoutPatternScanner.cc:1117-1135 | back to the including file: position, held character and line number are restored |
| ScoutScanning.YyLexer.Action | build-backend/ScoutPatternScanner.cc:862-1115 | the variables and the token after the action of every rule |
| ScoutLines.EffectCounts | build-backend/ScoutPatternScanner.cc:862-1115 | every match of every rule counts exactly the newlines that it uses up |
| ScoutLines.YylexPlaced | build-backend/ScoutPatternScanner.cc:763-1272 | across yylex calls the line number is one more than the newlines read of the current file, and that of the including file is kept |
| ScoutInput.EveryPlace | build-backend/ScoutPatternScanner.cc:2112-2135 | this holds wherever the parser is in its input, included files among it |
| ScoutLexer.Splices | build-backend/ScoutPatternScanner.cc:1117-1135 | the tokens with an included file are those of that file alone, then those of the including file from exactly where it was left |
| ScoutConditions.YylexFits | build-backend/ScoutPatternScanner.cc:946-1001 | the brace depth is at least 1 inside a block and 0 outside, on every run |
| ScoutConditions.TransparentIff | build-backend/ScoutPatternScanner.cc:1117-1135 | an include is transparent, whatever follows it, if and only if the included file ends in the INITIAL condition |
| ScoutConditions.OpenComment | build-backend/ScoutPatternScanner.cc:876-880 | an included file that is not transparent |
| ScoutConditions.StateStays | build-backend/ScoutPatternScanner.cc:422-518 | the states of different start conditions are never mixed |
| Braces.BlockScan | build-backend/ScoutPatternScanner.cc:957-1001 | a block ends at its matching brace, with its newlines counted, back at depth 0 |
| Braces.BraceRoundTrip | build-backend/ScoutPatternScanner.cc:946-1001 | scanning {T} and joining the TEXT tokens gives T if and only if T has no NUL byte |
| Braces.NulHides | build-backend/ScoutPatternScanner.cc:957-963 | a block that does not come through |
| ScanBuffer.Matcher.constructor | build-backend/ScoutPatternScanner.cc:771-807 | a new matcher has its whole file before it |
| ScanBuffer.Matcher.NextMatch | build-backend/ScoutPatternScanner.cc:809-1264 | for every sequence of reads, the next lexeme and rule are maximal munch on the buffer's rest followed by the unread file, and exactly the lexeme is used up |
| ScanBuffer.Matcher.NextState | build-backend/ScoutPatternScanner.cc:833-839 | the fallback chain ends, at the dense automaton's successor |
| ScanBuffer.Matcher.RunMatch | build-mpi/SilasConfigScanner.cc:812-832 | both forms of the match loop stop where nothing longer can match, with the last accepting position noted, or at an end-of-buffer character |
| ScanBuffer.Matcher.BackUp | build-backend/ScoutPatternScanner.cc:842-862 | backs up to the longest match |
| ScanBuffer.Matcher.BeforeAction | build-backend/ScoutPatternScanner.cc:348-353 | the byte under the end of the lexeme is held, nothing is lost |
| ScanBuffer.Matcher.GetPreviousState | build-backend/ScoutPatternScanner.cc:1419-1444 | recomputes the state and the last accepting position of the text scanned so far |
| ScanBuffer.Matcher.TryNulTrans | build-backend/ScoutPatternScanner.cc:1451-1474 | the transition on a real NUL byte |
| ScanBuffer.Matcher.ScanNul | build-backend/ScoutPatternScanner.cc:1170-1206 | a real NUL byte is scanned like any other byte, or ends the match before it |
| ScanBuffer.Matcher.GetNextBuffer | build-backend/ScoutPatternScanner.cc:1281-1415 | text in the buffer and unread file together are unchanged by a refill; the two sentinels stand behind the text inside the array; the array is never grown by half |
| ScanBuffer.Matcher.MakeRoom | build-backend/ScoutPatternScanner.cc:1330-1359 | the doubling loop ends with room for a byte and keeps what was scanned |
| ScanBuffer.Matcher.MoveToFront | build-backend/ScoutPatternScanner.cc:1310-1314 | the scanned text moves to the front unchanged |
| ScanBuffer.Matcher.ReadBehind | build-backend/ScoutPatternScanner.cc:1361-1371 | what is read goes behind it, inside the array |
| ScanBuffer.Matcher.OnEndOfBuffer | build-backend/ScoutPatternScanner.cc:1144-1264 | after an end-of-buffer character the match resumes in the state it had, or is the longest one at the end of the file |
| ScanBuffer.Matcher.Restart | build-backend/ScoutPatternScanner.cc:1557-1567 | an empty flushed buffer |
| ScanBuffer.Matcher.SwitchTo | build-backend/ScoutPatternScanner.cc:1574-1603 | the old buffer keeps all its input, the new one is scanned from its position |
| ScanBuffer.Matcher.Load | build-backend/ScoutPatternScanner.cc:1605-1611 | a suspended buffer goes on where it was |
| Munch.MunchIsDefined | build-backend/ScoutPatternScanner.cc:822-849 | some non-empty prefix always matches, so the default rule makes progress |
| Munch.MunchIsUnique | build-backend/ScoutPatternScanner.cc:822-849 | maximal munch has one outcome |
| Flex.SuccessorIsState | build-backend/ScoutPatternScanner.cc:422-518 | the fallback chain always ends in a state, in the end-of-buffer state exactly for an end-of-buffer character |
| Flex.EobJams | build-backend/ScoutPatternScanner.cc:422-518 | nothing follows an end-of-buffer character |
| Flex.DeadJams | build-backend/ScoutPatternScanner.cc:833-841 | states that share the jam row go nowhere, so the shorter loop condition is safe |
| Flex.Progress | build-mpi/SilasConfigScanner.cc:422-512 | every single character matches a rule in every start condition |
| SilasParser.Parser.yyparse | build-mpi/SilasConfigParser.cc:1091-1535 | for every token sequence and set of known models: the same acceptance, the same calls with the same arguments in the same order, and the same error at the same point as the recursive-descent translator; it is accepted with some calls if and only if the codes and texts returned by yylex mean these calls; the run ends, no reduction pops the bottom state, and the stack never fills up |
| SilasLanguage.AcceptsIff | build-mpi/SilasConfigParser.cc:487-650 | a token sequence is accepted with some calls if and only if it spells a model name that is known, a list of options and a list of items, followed by the end of the input, and these are their calls |
| SilasLanguage.Translates | build-mpi/SilasConfigParser.cc:1323-1500 | every spelled configuration makes its calls in order, or stops at an unknown model |
| SilasCodes.KindIsTerminal | build-mpi/SilasConfigParser.cc:487-517 | each code of the scanner is taken for its own terminal symbol |
| SilasCodes.AcceptsCodesIff | build-mpi/SilasConfigParser.cc:161-189 | a run is accepted with some calls if and only if the codes and texts are those of a configuration with a known model, up to the end of the input, and these are its calls |
| SilasParser.Parser.Backup | build-mpi/SilasConfigParser.cc:1231-1305 | the decision is the automaton's, and a lookahead is read only in a state that needs one |
| SilasParser.Parser.Act | build-mpi/SilasConfigParser.cc:1323-1500 | yyval, the model flag and the calls made by the action of every rule |
| SilasParser.Parser.ReduceRule | build-mpi/SilasConfigParser.cc:1307-1535 | a reduction keeps the meaning or fails with the translator's outcome |
| SilasMeaning.ShiftKeeps | build-mpi/SilasConfigParser.cc:1280-1295 | for every state and token that shifts, the translator goes on from the new configuration as from the old one |
| SilasMeaning.ReduceKeeps | build-mpi/SilasConfigParser.cc:581-600 | the same for every default reduction, also those of empty list items |
| SilasMeaning.ErrorKeeps | build-mpi/SilasConfigParser.cc:1297-1305 | a syntax error is detected exactly where the translator fails, after the same calls |
| SilasMeaning.DepthBound | build-mpi/SilasConfigParser.cc:1160-1187 | the stack never holds more than 10 entries |
| SilasMeaning.GotoDefined | build-mpi/SilasConfigParser.cc:591-623 | below a right-hand side there is always a state with a goto, closer to the next shift: reductions end although list items may be empty |
| SilasAutomaton.TableShifts | build-mpi/SilasConfigParser.cc:569-623 | the compressed tables shift exactly as the grammar's automaton does, conflicts resolved |
| SilasAutomaton.TableGotos | build-mpi/SilasConfigParser.cc:591-623 | the compressed gotos lead where the automaton does |
| Numbers.AcceptedUnsignedFits | build-mpi/SilasConfigScanner.cc:878-897 | a digit string of any length is accepted exactly when its decimal value fits an unsigned int and errno was clear; then the stored value is not truncated |
| Numbers.AutoIsSmaller | build-mpi/SilasConfigParser.cc:1431-1446 | the base-0 reading is never larger than the decimal one |
| Numbers.AutoAgreesIff | build-mpi/SilasConfigParser.cc:1431-1446 | the two readings agree if and only if the number does not start with 0 or is less than 8 |
| Numbers.LeadingZero | build-mpi/SilasConfigParser.cc:1431-1446 | a lexeme that is read as two numbers |
| SilasNumbers.UnsignedToken | build-mpi/SilasConfigScanner.cc:878-897 | every lexeme of the unsigned rule that maximal munch can find is a digit string, so all of the above holds for it |
| SharedOwnership.EveryRun | include/pearl/CountedPtr.h:92-229 | after every legal sequence of operations: counts equal the handles, no handle dangles, none of the objects handed over by these operations is lost or deleted twice, what a handle gives back was handed over and is not deleted, and all are deleted once the handles are gone |
| SharedOwnership.StepGives | include/pearl/CountedPtr.h:120-180 | a new handle gives back the object it was given, copies and assigned handles that of their source, an initialized one without an object the new object, together with all handles that share its counter; all other handles give back what they did |
| SharedOwnership.EveryStep | include/pearl/CountedPtr.h:120-180 | this holds for every operation of every legal sequence |
| SharedOwnership.ReleaseKeepsIff | include/pearl/CountedPtr.h:213-229 | a release keeps this if and only if the count has not wrapped around |
| SharedOwnership.CrowdFails | include/pearl/CountedPtr.h:201-229 | one construction and 2^32 copies lead to a sound state in which any release frees the object under the other handles |
| SharedOwnership.AcquireKeeps | include/pearl/CountedPtr.h:201-209 | so does a new handle |
| SharedOwnership.CreateKeeps | include/pearl/CountedPtr.h:120-125 | a new counter owns its object alone |
| SharedOwnership.InitializeKeeps | include/pearl/CountedPtr.h:146-153 | an object is adopted only by a counter without one |
| CountedPtr.CountedPtr.constructor | include/pearl/CountedPtr.h:120-125 | heap and state agree after a construction, and the handle holds the object it was given |
| CountedPtr.CountedPtr.Copy | include/pearl/CountedPtr.h:128-133 | heap and state agree after a copy, and it holds the object of its source |
| CountedPtr.CountedPtr.Destroy | include/pearl/CountedPtr.h:136-141 | after a destruction |
| CountedPtr.CountedPtr.Initialize | include/pearl/CountedPtr.h:146-153 | heap and state agree after an initialization; an object that is set is kept, otherwise the handle holds the new one |
| CountedPtr.CountedPtr.Assign | include/pearl/CountedPtr.h:158-170 | heap and state agree after an assignment, self-assignment and assignment between handles of one object included, and the handle holds the object of its source |
| CountedPtr.CountedPtr.Get | include/pearl/CountedPtr.h:175-180 | the object of the handle, which has not been deleted |
| CountedPtr.CountedPtr.Acquire | include/pearl/CountedPtr.h:201-209 | the count goes up by one, in 32 bits |
| CountedPtr.CountedPtr.Release | include/pearl/CountedPtr.h:213-229 | the count goes down by one; at zero, object and counter are deleted |
| Wrapping.WrappedCharConstant | src/scout/generator/Pattern.cpp:71-94 | the adjacent literals join to the text, and each fits the width unless there is no blank to split at; reading the result as literals between whitespace gives a text without quotation marks and newlines back |
| Wrapping.StuckForever | src/scout/generator/Pattern.cpp:77-90 | for all other texts the loop never ends |
| Wrapping.StuckText | src/scout/generator/Pattern.cpp:77-90 | for every width there is such a text |

## Left out

- Error recovery, verbose error messages and tracing of the parsers: `yyerror` exits in this repository, so an error ends the run.
- Exhausted memory and failing reads, `fopen` apart from a file that is missing, interactive input.
- The entry points of the scanners that nothing calls: `yy_scan_*`, `yypush_buffer_state`, `yypop_buffer_state`, `yyinput`, the accessors.
- The branch of `yy_get_next_buffer` for buffers that must not be refilled: only buffers scanned from memory have it, and nothing makes those.
- Widths of line numbers, buffer sizes and stack pointers: they are unbounded here. Reference counts and the converted numbers have their width.
- The rest of `yylex` of the Silas scanner, from bytes to tokens: start conditions of its comments and strings, line counting, the ranges of signed and real numbers, its calls of yyerror. The unsigned rule is here; the matcher below it is proved for both scanners, the parser above it for all token sequences.
- The range check of signed and real numbers in Silas: it depends on how strtoul wraps signs and on strtod. The factor of a scaled region stays a text.
- The model and hypothesis objects of Silas: a call on them is recorded with its arguments.
- The copy of the Scout front end in build-frontend: the same code.
- The text of the generated classes, headers and HTML pages, apart from the constants, the code blocks and the splitting of string constants; quotes and backslashes inside such constants.
- The history and the log in the registry, and the start, tokens and reductions that the parser class records, are no variables of the program; no action depends on them.
- Pattern objects are records in a list, and a pointer to one is its index there; `current` is the index of the pattern being defined.
- ScoutFiles.FileIs: is for files with a newline before every keyword and no other whitespace or comments outside of strings and blocks (ScoutGaps says what these do), and without empty blocks or NUL bytes in blocks; what the parser does with all other files is ParseFile's translation.
- CodeBlocks.BlockLines: is for file names without a newline, which would end the directive; the name is read back for names without a quotation mark, and a backslash in it is taken as it stands.
- Wrapping.WrappedCharConstant: is for texts on which the loop ends; StuckForever shows that it ends on no other.
- CountedPtr.CountedPtr.Assign: is for at most 2^32 handles on one object; ReleaseKeepsIff says what happens beyond.
