/** What a Scout description file means: a recursive-descent reading of

      File:     Item Item* $end
      Item:     INCLUDE String | PROLOG CodeBlock
              | PATTERN String '=' '[' Part Part* ']'
      Part:     HIDDEN | NODOCS | (NAME | CLASS | ...) '=' String
              | (DESCR | DIAGNOSIS) '=' TextBlock | (INIT | STATICINIT | ...) '=' CodeBlock
              | CALLBACKS ['(' String ')'] '=' '[' Callback Callback* ']'
      Callback: String '=' CodeBlock

    that takes its tokens from the scanner, switches it to an included file right after
    the name of that file, and performs the actions on the registry as it goes. */
module ScoutTranslator {
  import opened Lr
  import Lexing = ScoutLexer
  import opened Flex
  import opened CodeText
  import opened PatternRegistry

  // The other terminal symbols.
  const END := 0
  const STRING := 3
  const TEXT := 4
  const CALLBACKS := 5
  const INCLUDE := 14
  const PATTERN := 21
  const PROLOG := 22
  const EQUALS := 26
  const OPENBRACKET := 27
  const CLOSEBRACKET := 28
  const OPENPAREN := 29
  const CLOSEPAREN := 30
  const QUOTE := 31
  const OPENBRACE := 32
  const CLOSEBRACE := 33

  const BROKEN := -1 // yylex has called yyerror

  type ValidLexer = l: Lexing.Lexer | l.Valid() witness Lexing.Lexer(Lexing.INITIAL, 0, 1, [], Lexing.Nobody)

  // The files that can be opened, and the name of the description file.
  datatype World = World(files: map<string, seq<Byte>>, inpFilename: string)

  // How a run ends, with the registry as it is then.
  datatype Outcome = Accepted(reg: Registry) | Rejected(reg: Registry, why: Complaint)

  datatype Progress = Progress(l: ValidLexer, reg: Registry)

  // Having read a phrase with a value, or having failed.
  datatype Parsed = Got(value: string, at: Progress) | Failed(outcome: Outcome)

  // --- The input that is left --------------------------------------------------------

  // What is left of the outer file; whether a file can still be included; what is left of
  // the included file. Reading a token or including a file makes this smaller.
  function Outer(l: Lexing.Lexer): nat {
    if l.includer.Nobody? then |l.rest| else |l.includer.rest|
  }

  function Phase(l: Lexing.Lexer): nat {
    if l.includer.Nobody? then 1 else 0
  }

  function Inner(l: Lexing.Lexer): nat {
    if l.includer.Nobody? then 0 else |l.rest|
  }

  predicate Less(a: Lexing.Lexer, b: Lexing.Lexer) {
    || Outer(a) < Outer(b)
    || (Outer(a) == Outer(b) && (Phase(a) < Phase(b) || (Phase(a) == Phase(b) && Inner(a) < Inner(b))))
  }

  lemma {:induction false} ReadsLess(l: ValidLexer)
    ensures Lexing.Yylex(l).Read? ==> Less(Lexing.Yylex(l).next, l)
    decreases if l.includer.Nobody? then 0 else 1, |l.rest|
  {
    hide Lexing.FirstEffect;
    if l.rest == [] {
      if l.includer.Includer? {
        ReadsLess(Lexing.Return(l));
      }
    } else {
      match Lexing.FirstEffect(l)
      case Skip(l1) => ReadsLess(l1);
      case Emit(_, _, l1) =>
      case Error =>
    }
  }

  // The next token: its kind, its text, and the scanner after it. The end of the input is
  // not left behind.
  function Peek(l: ValidLexer): int {
    match Lexing.Yylex(l)
    case Read(t, _) => Kind(ScoutGrammar, t.code)
    case AtEnd => END
    case Failed => BROKEN
  }

  function Lexeme(l: ValidLexer): string {
    match Lexing.Yylex(l)
    case Read(t, _) => t.text
    case _ => ""
  }

  function Beyond(l: ValidLexer): (next: ValidLexer)
    ensures 0 < Peek(l) ==> Less(next, l)
  {
    ReadsLess(l);
    match Lexing.Yylex(l)
    case Read(_, next) => next
    case _ => l
  }

  function Next(at: Progress): int {
    Peek(at.l)
  }

  function Text(at: Progress): string {
    Lexeme(at.l)
  }

  function Skip(at: Progress): (r: Progress)
    ensures r.reg == at.reg
    ensures 0 < Next(at) ==> Less(r.l, at.l)
  {
    at.(l := Beyond(at.l))
  }

  function Error(at: Progress): Outcome {
    Rejected(at.reg, if Next(at) == BROKEN then BadString else BadSyntax)
  }

  function Expect(at: Progress, kind: int): (r: Parsed)
    requires kind > 0
    ensures r.Got? ==> Less(r.at.l, at.l)
  {
    if Next(at) == kind then Got(Text(at), Skip(at)) else Failed(Error(at))
  }

  // --- Strings and blocks ------------------------------------------------------------

  function String(at: Progress): (r: Parsed)
    ensures r.Got? ==> Less(r.at.l, at.l)
  {
    match Expect(at, QUOTE)
    case Failed(o) => Failed(o)
    case Got(_, at1) => StringText(at1)
  }

  function StringText(at: Progress): (r: Parsed)
    ensures r.Got? ==> Less(r.at.l, at.l)
  {
    match Expect(at, STRING)
    case Failed(o) => Failed(o)
    case Got(text, at1) => StringEnd(text, at1)
  }

  function StringEnd(text: string, at: Progress): (r: Parsed)
    ensures r.Got? ==> Less(r.at.l, at.l)
  {
    match Expect(at, QUOTE)
    case Failed(o) => Failed(o)
    case Got(_, at1) => Got(text, at1)
  }

  // The name in a #line directive.
  function FileName(w: World, l: ValidLexer): string {
    if l.includer.Includer? then l.includer.filename else w.inpFilename
  }

  // The line of the opening brace is the scanner's line when that brace has been read.
  function CodeBlockValue(w: World, at: Progress): (r: Parsed)
    ensures r.Got? ==> Less(r.at.l, at.l)
  {
    match Expect(at, OPENBRACE)
    case Failed(o) => Failed(o)
    case Got(_, at1) => CodeText0(w, MarkLine(at1))
  }

  function MarkLine(at: Progress): (r: Progress)
    ensures r.l == at.l
  {
    at.(reg := at.reg.(codeLine := at.l.lineno))
  }

  function CodeText0(w: World, at: Progress): (r: Parsed)
    ensures r.Got? ==> Less(r.at.l, at.l)
  {
    match Expect(at, TEXT)
    case Failed(o) => Failed(o)
    case Got(text, at1) => CodeTextMore(w, text, at1)
  }

  function CodeTextMore(w: World, text: string, at: Progress): (r: Parsed)
    ensures r.Got? ==> Less(r.at.l, at.l)
    decreases Outer(at.l), Phase(at.l), Inner(at.l)
  {
    if Next(at) == TEXT then CodeTextMore(w, text + Text(at), Skip(at))
    else
      match Expect(at, CLOSEBRACE)
      case Failed(o) => Failed(o)
      case Got(_, at1) => CodeEnd(w, text, at1)
  }

  // Rule 58
  function CodeEnd(w: World, text: string, at: Progress): (r: Parsed)
    ensures r.Got? ==> r.at.l == at.l
  {
    var at1 := at.(reg := at.reg.(codeLine := at.reg.codeLine + LeadingBlankLines(text) - 1));
    match CodeBlock(text, at.reg.codeLine, FileName(w, at.l))
    case Block(code) => Got(code, at1)
    case InFirstLine => Failed(Rejected(at1.reg, CodeInFirstLine))
  }

  function TextBlockValue(at: Progress): (r: Parsed)
    ensures r.Got? ==> Less(r.at.l, at.l)
  {
    match Expect(at, OPENBRACE)
    case Failed(o) => Failed(o)
    case Got(_, at1) => BlockText0(at1)
  }

  function BlockText0(at: Progress): (r: Parsed)
    ensures r.Got? ==> Less(r.at.l, at.l)
  {
    match Expect(at, TEXT)
    case Failed(o) => Failed(o)
    case Got(text, at1) => BlockTextMore(text, at1)
  }

  function BlockTextMore(text: string, at: Progress): (r: Parsed)
    ensures r.Got? ==> Less(r.at.l, at.l)
    decreases Outer(at.l), Phase(at.l), Inner(at.l)
  {
    if Next(at) == TEXT then BlockTextMore(text + Text(at), Skip(at))
    else
      match Expect(at, CLOSEBRACE)
      case Failed(o) => Failed(o)
      case Got(_, at1) => Got(Preprocessed(text), at1)
  }

  // --- Items -------------------------------------------------------------------------

  // A file with at least one item left.
  function Body(w: World, at: Progress): Outcome
    decreases Outer(at.l), Phase(at.l), Inner(at.l), 0
  {
    if Next(at) == INCLUDE then IncludeItem(w, Skip(at))
    else if Next(at) == PATTERN then PatternItem(w, Skip(at))
    else if Next(at) == PROLOG then PrologItem(w, Skip(at))
    else Error(at)
  }

  function BodyMore(w: World, at: Progress): Outcome
    decreases Outer(at.l), Phase(at.l), Inner(at.l), 1
  {
    if Next(at) == END then Accepted(at.reg) else Body(w, at)
  }

  function IncludeItem(w: World, at: Progress): Outcome
    decreases Outer(at.l), Phase(at.l), Inner(at.l), 2
  {
    match String(at)
    case Failed(o) => o
    case Got(name, at1) => Included(w, name, at1)
  }

  // include_file: the next token comes from the included file.
  function Included(w: World, name: string, at: Progress): Outcome
    decreases Outer(at.l), Phase(at.l), Inner(at.l), 2
  {
    if at.l.includer.Includer? then Rejected(at.reg, NestedInclude)
    else if name == "" || name !in w.files then Rejected(at.reg, NoSuchFile)
    else BodyMore(w, OpenFile(w, name, at))
  }

  function OpenFile(w: World, name: string, at: Progress): (r: Progress)
    requires at.l.includer.Nobody? && name in w.files
    ensures Less(r.l, at.l) && r.reg == at.reg
  {
    at.(l := Lexing.Include(at.l, name, w.files[name]))
  }

  function PrologItem(w: World, at: Progress): Outcome
    decreases Outer(at.l), Phase(at.l), Inner(at.l), 2
  {
    match CodeBlockValue(w, at)
    case Failed(o) => o
    case Got(code, at1) => PrologDone(w, code, at1)
  }

  function PrologDone(w: World, code: string, at: Progress): Outcome
    decreases Outer(at.l), Phase(at.l), Inner(at.l), 2
  {
    BodyMore(w, at.(reg := AddProlog(at.reg, code)))
  }

  function PatternItem(w: World, at: Progress): Outcome
    decreases Outer(at.l), Phase(at.l), Inner(at.l), 2
  {
    match String(at)
    case Failed(o) => o
    case Got(id, at1) => PatternNamed(w, id, at1)
  }

  function PatternNamed(w: World, id: string, at: Progress): Outcome
    decreases Outer(at.l), Phase(at.l), Inner(at.l), 4
  {
    match Enter(at.reg, id)
    case Refused(why) => Rejected(at.reg, why)
    case Changed(reg) => PatternIs(w, at.(reg := reg))
  }

  function PatternIs(w: World, at: Progress): Outcome
    decreases Outer(at.l), Phase(at.l), Inner(at.l), 3
  {
    match Expect(at, EQUALS)
    case Failed(o) => o
    case Got(_, at1) => PatternOpen(w, at1)
  }

  function PatternOpen(w: World, at: Progress): Outcome
    decreases Outer(at.l), Phase(at.l), Inner(at.l), 3
  {
    match Expect(at, OPENBRACKET)
    case Failed(o) => o
    case Got(_, at1) => Parts(w, at1)
  }

  // Rule 11
  function PatternEnd(w: World, at: Progress): Outcome
    decreases Outer(at.l), Phase(at.l), Inner(at.l), 2
  {
    match Leave(at.reg)
    case Refused(why) => Rejected(at.reg, why)
    case Changed(reg) => BodyMore(w, at.(reg := reg))
  }

  // --- The parts of a pattern --------------------------------------------------------

  predicate IsKeyword(kind: int) {
    5 <= kind <= 13 || 15 <= kind <= 20 || 23 <= kind <= 25
  }

  predicate IsFlag(kind: int) {
    kind == HIDDEN || kind == NODOCS
  }

  predicate TakesCode(kind: int) {
    kind == INIT || kind == STATICINIT || kind == CLEANUP || kind == DATA
  }

  predicate TakesText(kind: int) {
    kind == DESCR || kind == DIAGNOSIS
  }

  // At least one part, then the end of the pattern.
  function Parts(w: World, at: Progress): Outcome
    decreases Outer(at.l), Phase(at.l), Inner(at.l), 0
  {
    if IsKeyword(Next(at)) then Part(w, Next(at), Skip(at)) else Error(at)
  }

  function PartsMore(w: World, at: Progress): Outcome
    decreases Outer(at.l), Phase(at.l), Inner(at.l), 1
  {
    if Next(at) == CLOSEBRACKET then PatternEnd(w, Skip(at)) else Parts(w, at)
  }

  // After the keyword.
  function Part(w: World, key: int, at: Progress): Outcome
    decreases Outer(at.l), Phase(at.l), Inner(at.l), 5
  {
    if IsFlag(key) then Assign(w, key, "", at)
    else if key == CALLBACKS then Callbacks(w, at)
    else PartIs(w, key, at)
  }

  function PartIs(w: World, key: int, at: Progress): Outcome
    decreases Outer(at.l), Phase(at.l), Inner(at.l), 4
  {
    match Expect(at, EQUALS)
    case Failed(o) => o
    case Got(_, at1) => PartValue(w, key, at1)
  }

  function Value(w: World, key: int, at: Progress): (r: Parsed)
    ensures r.Got? ==> Less(r.at.l, at.l)
  {
    if TakesCode(key) then CodeBlockValue(w, at) else if TakesText(key) then TextBlockValue(at) else String(at)
  }

  function PartValue(w: World, key: int, at: Progress): Outcome
    decreases Outer(at.l), Phase(at.l), Inner(at.l), 4
  {
    match Value(w, key, at)
    case Failed(o) => o
    case Got(text, at1) => Assign(w, key, text, at1)
  }

  function Assign(w: World, key: int, text: string, at: Progress): Outcome
    decreases Outer(at.l), Phase(at.l), Inner(at.l), 2
  {
    match Define(at.reg, key, text)
    case Refused(why) => Rejected(at.reg, why)
    case Changed(reg) => PartsMore(w, at.(reg := reg))
  }

  // --- Callbacks ---------------------------------------------------------------------

  function SetGroup(at: Progress, group: string): (r: Progress)
    ensures r.l == at.l
  {
    at.(reg := at.reg.(callbackgroup := group))
  }

  function Callbacks(w: World, at: Progress): Outcome
    decreases Outer(at.l), Phase(at.l), Inner(at.l), 4
  {
    if Next(at) == OPENPAREN then GroupName(w, Skip(at))
    else if Next(at) == BROKEN then Error(at)
    else CallbacksIs(w, SetGroup(at, ""))
  }

  function GroupName(w: World, at: Progress): Outcome
    decreases Outer(at.l), Phase(at.l), Inner(at.l), 4
  {
    match String(at)
    case Failed(o) => o
    case Got(group, at1) => GroupClose(w, group, at1)
  }

  function GroupClose(w: World, group: string, at: Progress): Outcome
    decreases Outer(at.l), Phase(at.l), Inner(at.l), 4
  {
    match Expect(at, CLOSEPAREN)
    case Failed(o) => o
    case Got(_, at1) => CallbacksIs(w, SetGroup(at1, group))
  }

  function CallbacksIs(w: World, at: Progress): Outcome
    decreases Outer(at.l), Phase(at.l), Inner(at.l), 3
  {
    match Expect(at, EQUALS)
    case Failed(o) => o
    case Got(_, at1) => CallbacksOpen(w, at1)
  }

  function CallbacksOpen(w: World, at: Progress): Outcome
    decreases Outer(at.l), Phase(at.l), Inner(at.l), 3
  {
    match Expect(at, OPENBRACKET)
    case Failed(o) => o
    case Got(_, at1) => Events(w, at1)
  }

  // At least one callback, then the end of the list.
  function Events(w: World, at: Progress): Outcome
    decreases Outer(at.l), Phase(at.l), Inner(at.l), 2
  {
    match String(at)
    case Failed(o) => o
    case Got(event, at1) => EventIs(w, event, at1)
  }

  function EventIs(w: World, event: string, at: Progress): Outcome
    decreases Outer(at.l), Phase(at.l), Inner(at.l), 2
  {
    match Expect(at, EQUALS)
    case Failed(o) => o
    case Got(_, at1) => EventCode(w, event, at1)
  }

  function EventCode(w: World, event: string, at: Progress): Outcome
    decreases Outer(at.l), Phase(at.l), Inner(at.l), 2
  {
    match CodeBlockValue(w, at)
    case Failed(o) => o
    case Got(code, at1) => EventDone(w, event, code, at1)
  }

  function EventDone(w: World, event: string, code: string, at: Progress): Outcome
    decreases Outer(at.l), Phase(at.l), Inner(at.l), 4
  {
    match AddCallback(at.reg, event, code)
    case Refused(why) => Rejected(at.reg, why)
    case Changed(reg) => EventsMore(w, at.(reg := reg))
  }

  function EventsMore(w: World, at: Progress): Outcome
    decreases Outer(at.l), Phase(at.l), Inner(at.l), 3
  {
    if Next(at) == CLOSEBRACKET then PartsMore(w, Skip(at)) else Events(w, at)
  }

  // The scanner before a description file with these contents.
  function Beginning(contents: seq<Byte>): ValidLexer {
    Lexing.Lexer(Lexing.INITIAL, 0, 1, contents, Lexing.Nobody)
  }

  // The description file with these contents.
  function Translation(w: World, contents: seq<Byte>): Outcome {
    Body(w, Progress(Beginning(contents), EMPTY))
  }
}
