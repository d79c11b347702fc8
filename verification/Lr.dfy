/** The shift/reduce decisions of a yacc-generated parser: yybackup, yydefault and the
    goto at the end of yyreduce, over the compressed tables of the two parsers. */
module Lr {
  import Silas = SilasTables
  import Scout = ScoutTables

  datatype Grammar = SilasGrammar | ScoutGrammar

  // A token as yylex returns it: its code and yylval.
  datatype Token = Token(code: int, text: string)

  datatype Decision = Shift(state: int) | Reduce(rule: int) | SyntaxError

  function Last(g: Grammar): int {
    match g case SilasGrammar => Silas.LAST case ScoutGrammar => Scout.LAST
  }

  function Tokens(g: Grammar): int {
    match g case SilasGrammar => Silas.NTOKENS case ScoutGrammar => Scout.NTOKENS
  }

  function PactNinf(g: Grammar): int {
    match g case SilasGrammar => Silas.PACT_NINF case ScoutGrammar => Scout.PACT_NINF
  }

  function States(g: Grammar): int {
    match g case SilasGrammar => Silas.STATES case ScoutGrammar => Scout.STATES
  }

  function Pact(g: Grammar, s: int): int
    requires 0 <= s < States(g)
  {
    match g case SilasGrammar => Silas.Pact(s) case ScoutGrammar => Scout.Pact(s)
  }

  function Defact(g: Grammar, s: int): nat
    requires 0 <= s < States(g)
  {
    match g case SilasGrammar => Silas.Defact(s) case ScoutGrammar => Scout.Defact(s)
  }

  function Table(g: Grammar, i: int): int
    requires 0 <= i <= Last(g)
  {
    match g case SilasGrammar => Silas.Table(i) case ScoutGrammar => Scout.Table(i)
  }

  function Check(g: Grammar, i: int): int
    requires 0 <= i <= Last(g)
  {
    match g case SilasGrammar => Silas.Check(i) case ScoutGrammar => Scout.Check(i)
  }

  // YYTRANSLATE after the end-of-input test: codes up to YYEOF all read as $end.
  function Kind(g: Grammar, code: int): int {
    if code <= 0 then 0
    else match g case SilasGrammar => Silas.Translate(code) case ScoutGrammar => Scout.Translate(code)
  }

  // yydefault
  function Default(g: Grammar, s: int): Decision
    requires 0 <= s < States(g)
  {
    if Defact(g, s) == 0 then SyntaxError else Reduce(Defact(g, s))
  }

  // yybackup looks at the lookahead only when the row of the state is not empty.
  predicate NeedsLookahead(g: Grammar, s: int)
    requires 0 <= s < States(g)
  {
    Pact(g, s) != PactNinf(g)
  }

  // yybackup in state s with lookahead kind k.
  function Decide(g: Grammar, s: int, k: int): Decision
    requires 0 <= s < States(g)
  {
    if !NeedsLookahead(g, s) then Default(g, s)
    else
      var n := Pact(g, s) + k;
      if n < 0 || Last(g) < n || Check(g, n) != k then Default(g, s)
      else if Table(g, n) <= 0 then Reduce(-Table(g, n))
      else Shift(Table(g, n))
  }

  // The state entered after reducing to nonterminal nt on top of state s.
  function Goto(g: Grammar, s: int, nt: int): int
    requires match g
             case SilasGrammar => 0 <= nt - Silas.NTOKENS < 16
             case ScoutGrammar => 0 <= nt - Scout.NTOKENS < 37
  {
    var n := nt - Tokens(g);
    var i := s + match g case SilasGrammar => Silas.Pgoto(n) case ScoutGrammar => Scout.Pgoto(n);
    if 0 <= i <= Last(g) && Check(g, i) == s then Table(g, i)
    else match g case SilasGrammar => Silas.Defgoto(n) case ScoutGrammar => Scout.Defgoto(n)
  }
}
