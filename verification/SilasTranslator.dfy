/** What a Silas configuration means: a recursive-descent reading of

      Config:  SC_MODEL String Option* Item* $end
      Option:  SC_OPTION String String | SC_AGGREGATE_IDLE
             | (SC_NOOP_THRESHOLD | SC_SKIP_THRESHOLD | SC_IDLE_OVERHEAD) Number
      Item:    SC_BALANCE Region | SC_CUT Region | SC_CUT SC_MESSAGE [MessageOption]
             | SC_SCALE Region Number
      MessageOption: (SC_SIZE | SC_TAG) SC_RELATION SC_UNSIGNED

    that performs the calls on the model and the hypothesis objects as it goes. */
module SilasTranslator {
  import opened Lr
  import Numbers

  // Terminal symbols, numbered as in the parser's tables.
  const END := 0
  const AGGREGATE_IDLE := 3
  const BALANCE := 4
  const IDLE_OVERHEAD := 5
  const CUT := 6
  const NOOP_THRESHOLD := 7
  const OPTION := 8
  const STRING := 9
  const UNSIGNED := 11
  const INTEGER := 12
  const REAL := 13
  const MESSAGE := 14
  const MODEL := 15
  const REGION := 16
  const SCALE := 17
  const SKIP_THRESHOLD := 18
  const SIZE := 19
  const TAG := 20
  const RELATION := 21
  const QUOTE := 22

  // A call made by a semantic action. The number of a scaled region stays a string: its
  // strtod value is floating point.
  datatype Call =
    | CreateModel(name: string)
    | SetFlag(flag: string)
    | SetOption(option: string, setting: string)
    | BalanceRegion(region: string)
    | MessageSize(relation: string, bound: int)
    | MessageTag(relation: string, bound: int)
    | ScaleRegion(region: string, factor: string)

  datatype Failure = BadSyntax | UndefinedModel | UninitializedModel | StackExhausted

  // How a run ends, with the calls made up to there.
  datatype Outcome =
    | Accepted(calls: seq<Call>)
    | Rejected(calls: seq<Call>, why: Failure)

  // A position in the token sequence and the calls made so far.
  datatype Progress = Progress(input: seq<Token>, pos: nat, calls: seq<Call>) {
    function Left(): nat {
      if pos < |input| then |input| - pos else 0
    }
  }

  // Having read a phrase with a value, or having failed.
  datatype Parsed = Read(value: string, at: Progress) | Failed(outcome: Outcome)

  function Next(at: Progress): int {
    if at.pos < |at.input| then Kind(SilasGrammar, at.input[at.pos].code) else END
  }

  function Text(at: Progress): string {
    if at.pos < |at.input| then at.input[at.pos].text else ""
  }

  function Skip(at: Progress): Progress {
    at.(pos := at.pos + 1)
  }

  function Error(at: Progress): Outcome {
    Rejected(at.calls, BadSyntax)
  }

  function Do(at: Progress, call: Call): Progress {
    at.(calls := at.calls + [call])
  }

  function Expect(at: Progress, kind: int): (r: Parsed)
    requires kind != END
    ensures r.Read? ==> r.at.Left() < at.Left()
  {
    if Next(at) == kind then Read(Text(at), Skip(at)) else Failed(Error(at))
  }

  function String(at: Progress): (r: Parsed)
    ensures r.Read? ==> r.at.Left() < at.Left()
  {
    match Expect(at, QUOTE)
    case Failed(o) => Failed(o)
    case Read(_, at1) => StringText(at1)
  }

  function StringText(at: Progress): (r: Parsed)
    ensures r.Read? ==> r.at.Left() < at.Left()
  {
    match Expect(at, STRING)
    case Failed(o) => Failed(o)
    case Read(text, at1) => StringEnd(text, at1)
  }

  function StringEnd(text: string, at: Progress): (r: Parsed)
    ensures r.Read? ==> r.at.Left() < at.Left()
  {
    match Expect(at, QUOTE)
    case Failed(o) => Failed(o)
    case Read(_, at1) => Read(text, at1)
  }

  function Number(at: Progress): (r: Parsed)
    ensures r.Read? ==> r.at.Left() < at.Left()
  {
    if Next(at) == UNSIGNED || Next(at) == INTEGER || Next(at) == REAL
    then Read(Text(at), Skip(at))
    else Failed(Error(at))
  }

  function Region(at: Progress): (r: Parsed)
    ensures r.Read? ==> r.at.Left() < at.Left()
  {
    match Expect(at, REGION)
    case Failed(o) => Failed(o)
    case Read(_, at1) => String(at1)
  }

  function OptionCall(name: string, setting: string): Call {
    if setting == "true" then SetFlag(name) else SetOption(name, setting)
  }

  // The whole configuration; known are the model names the factory can build.
  function Config(known: set<string>, at: Progress): Outcome {
    match Expect(at, MODEL)
    case Failed(o) => o
    case Read(_, at1) => ModelName(known, at1)
  }

  function ModelName(known: set<string>, at: Progress): Outcome {
    match String(at)
    case Failed(o) => o
    case Read(name, at1) => Model(known, name, at1)
  }

  function Model(known: set<string>, name: string, at: Progress): Outcome {
    var at1 := Do(at, CreateModel(name));
    if name in known then Options(at1) else Rejected(at1.calls, UndefinedModel)
  }

  function Options(at: Progress): Outcome
    decreases at.Left(), 2
  {
    if Next(at) == OPTION then NamedOption(Skip(at))
    else if Next(at) == AGGREGATE_IDLE then OptionsAfter(Skip(at), SetFlag("aggregate idle"))
    else if Next(at) == NOOP_THRESHOLD then Threshold("noop threshold", Skip(at))
    else if Next(at) == SKIP_THRESHOLD then Threshold("skip threshold", Skip(at))
    else if Next(at) == IDLE_OVERHEAD then Threshold("idle overhead", Skip(at))
    else Items(at)
  }

  function OptionsAfter(at: Progress, call: Call): Outcome
    decreases at.Left(), 3
  {
    Options(Do(at, call))
  }

  function NamedOption(at: Progress): Outcome
    decreases at.Left(), 3
  {
    match String(at)
    case Failed(o) => o
    case Read(name, at1) => OptionSetting(name, at1)
  }

  function OptionSetting(name: string, at: Progress): Outcome
    decreases at.Left(), 3
  {
    match String(at)
    case Failed(o) => o
    case Read(setting, at1) => OptionsAfter(at1, OptionCall(name, setting))
  }

  function Threshold(name: string, at: Progress): Outcome
    decreases at.Left(), 3
  {
    match Number(at)
    case Failed(o) => o
    case Read(n, at1) => OptionsAfter(at1, SetOption(name, n))
  }

  function Items(at: Progress): Outcome
    decreases at.Left(), 0
  {
    if Next(at) == BALANCE then Balance(Skip(at))
    else if Next(at) == CUT then Cut(Skip(at))
    else if Next(at) == SCALE then Scale(Skip(at))
    else if Next(at) == END then Accepted(at.calls)
    else Error(at)
  }

  function ItemsAfter(at: Progress, call: Call): Outcome
    decreases at.Left(), 1
  {
    Items(Do(at, call))
  }

  function Balance(at: Progress): Outcome
    decreases at.Left(), 2
  {
    match Region(at)
    case Failed(o) => o
    case Read(region, at1) => ItemsAfter(at1, BalanceRegion(region))
  }

  function Scale(at: Progress): Outcome
    decreases at.Left(), 2
  {
    match Region(at)
    case Failed(o) => o
    case Read(region, at1) => ScaleFactor(region, at1)
  }

  function ScaleFactor(region: string, at: Progress): Outcome
    decreases at.Left(), 2
  {
    match Number(at)
    case Failed(o) => o
    case Read(n, at1) => ItemsAfter(at1, ScaleRegion(region, n))
  }

  // After SC_CUT: a cut region is parsed and ignored.
  function Cut(at: Progress): Outcome
    decreases at.Left(), 2
  {
    if Next(at) == MESSAGE then CutMessage(Skip(at))
    else
      match Region(at)
      case Failed(o) => o
      case Read(_, at1) => Items(at1)
  }

  function CutMessage(at: Progress): Outcome
    decreases at.Left(), 1
  {
    if Next(at) == SIZE then MessageRelation(true, Skip(at))
    else if Next(at) == TAG then MessageRelation(false, Skip(at))
    else Items(at)
  }

  function MessageRelation(size: bool, at: Progress): Outcome
    decreases at.Left(), 2
  {
    match Expect(at, RELATION)
    case Failed(o) => o
    case Read(relation, at1) => Bound(size, relation, at1)
  }

  function Bound(size: bool, relation: string, at: Progress): Outcome
    decreases at.Left(), 2
  {
    match Expect(at, UNSIGNED)
    case Failed(o) => o
    case Read(n, at1) => ItemsAfter(at1, MessageBound(size, relation, n))
  }

  function MessageBound(size: bool, relation: string, n: string): Call {
    if size then MessageSize(relation, Numbers.ToUnsigned(n)) else MessageTag(relation, Numbers.ToUnsigned(n))
  }

  function Translation(known: set<string>, tokens: seq<Token>): Outcome {
    Config(known, Progress(tokens, 0, []))
  }
}
