/** The parse tables of the Silas parser, entry by entry
    (build-mpi/SilasConfigParser.cc). */
module SilasTables {
  const FINAL: int := 6      // YYFINAL
  const LAST: int := 34      // YYLAST
  const NTOKENS: int := 23   // YYNTOKENS
  const PACT_NINF: int := -18 // YYPACT_NINF
  const STATES: int := 50
  const RULES: int := 31

  // YYTRANSLATE: the symbol number of a code returned by yylex.
  function Translate(code: int): int {
    if code == 0 then 0
    else if code == 34 then 22  // '"'
    else if code == 256 then 1
    else if 258 <= code <= 276 then code - 255
    else 2
  }

  // yypact: base index into Table/Check of the row for a state.
  function Pact(s: int): int
    requires 0 <= s < 50
  {
    if s < 10 then
      match s case 0 => -7 case 1 => -9 case 2 => 15 case 3 => 3 case 4 => 14 case 5 => -18 case 6 => -18 case 7 => 11
        case 8 => -12 case _ => 11
    else if s < 20 then
      match s case 10 => 3 case 11 => -18 case 12 => -18 case 13 => -18 case 14 => -18 case 15 => 7 case 16 => -2
        case 17 => -9 case 18 => -18 case _ => 2
    else if s < 30 then
      match s case 20 => -18 case 21 => 6 case 22 => -18 case 23 => -18 case 24 => -18 case 25 => 6 case 26 => 6
        case 27 => -9 case 28 => 6 case _ => -2
    else if s < 40 then
      match s case 30 => -18 case 31 => -18 case 32 => 9 case 33 => 9 case 34 => -18 case 35 => -18 case 36 => -18
        case 37 => -18 case 38 => -18 case _ => -18
    else
      match s case 40 => -18 case 41 => -9 case 42 => -18 case 43 => -18 case 44 => -18 case 45 => 20 case 46 => 21
        case 47 => -18 case 48 => -18 case _ => -18
  }

  // yydefact: rule reduced by default in a state; 0 is an error.
  function Defact(s: int): nat
    requires 0 <= s < 50
  {
    if s < 10 then
      match s case 0 => 0 case 1 => 0 case 2 => 0 case 3 => 18 case 4 => 0 case 5 => 3 case 6 => 1 case 7 => 0
        case 8 => 0 case _ => 0
    else if s < 20 then
      match s case 10 => 2 case 11 => 13 case 12 => 15 case 13 => 16 case 14 => 17 case 15 => 0 case 16 => 12
        case 17 => 0 case 18 => 20 case _ => 25
    else if s < 30 then
      match s case 20 => 21 case 21 => 0 case 22 => 14 case 23 => 28 case 24 => 8 case 25 => 0 case 26 => 0
        case 27 => 0 case 28 => 0 case _ => 4
    else if s < 40 then
      match s case 30 => 5 case 31 => 19 case 32 => 0 case 33 => 0 case 34 => 22 case 35 => 29 case 36 => 30
        case 37 => 31 case 38 => 26 case _ => 11
    else
      match s case 40 => 9 case 41 => 0 case 42 => 10 case 43 => 6 case 44 => 27 case 45 => 0 case 46 => 0
        case 47 => 7 case 48 => 23 case _ => 24
  }

  // yypgoto: base index for gotos on a nonterminal.
  function Pgoto(nt: int): int
    requires 0 <= nt < 16
  {
    if nt < 10 then
      match nt case 0 => -18 case 1 => -18 case 2 => -18 case 3 => -18 case 4 => -18 case 5 => -1 case 6 => -18
        case 7 => 23 case 8 => 17 case _ => -18
    else
      match nt case 10 => -18 case 11 => -18 case 12 => -18 case 13 => 1 case 14 => -17 case _ => -14
  }

  // yydefgoto: default goto of a nonterminal.
  function Defgoto(nt: int): int
    requires 0 <= nt < 16
  {
    if nt < 10 then
      match nt case 0 => -1 case 1 => 2 case 2 => 3 case 3 => 16 case 4 => 29 case 5 => 30 case 6 => 10 case 7 => 11
        case 8 => 18 case _ => 12
    else
      match nt case 10 => 13 case 11 => 34 case 12 => 14 case 13 => 45 case 14 => 5 case _ => 38
  }

  // yytable: the target state.
  function Table(i: int): int
    requires 0 <= i < 35
  {
    if i < 10 then
      match i case 0 => 31 case 1 => 24 case 2 => 19 case 3 => 25 case 4 => 17 case 5 => 26 case 6 => 27 case 7 => 7
        case 8 => 1 case _ => 8
    else if i < 20 then
      match i case 10 => 41 case 11 => 39 case 12 => 40 case 13 => 4 case 14 => 42 case 15 => 6 case 16 => 28
        case 17 => 35 case 18 => 36 case _ => 37
    else if i < 30 then
      match i case 20 => 9 case 21 => 32 case 22 => 33 case 23 => 15 case 24 => 47 case 25 => 20 case 26 => 21
        case 27 => 17 case 28 => 43 case _ => 23
    else
      match i case 30 => 44 case 31 => 48 case 32 => 49 case 33 => 22 case _ => 46
  }

  // yycheck: the owner of an entry of Table.
  function Check(i: int): int
    requires 0 <= i < 35
  {
    if i < 10 then
      match i case 0 => 17 case 1 => 3 case 2 => 14 case 3 => 5 case 4 => 16 case 5 => 7 case 6 => 8 case 7 => 4
        case 8 => 15 case _ => 6
    else if i < 20 then
      match i case 10 => 27 case 11 => 25 case 12 => 26 case 13 => 22 case 14 => 28 case 15 => 0 case 16 => 18
        case 17 => 11 case 18 => 12 case _ => 13
    else if i < 30 then
      match i case 20 => 17 case 21 => 19 case 22 => 20 case 23 => 9 case 24 => 41 case 25 => 8 case 26 => 9
        case 27 => 16 case 28 => 29 case _ => 22
    else
      match i case 30 => 21 case 31 => 11 case 32 => 11 case 33 => 10 case _ => 33
  }

  // yystos: the accessing symbol of a state.
  function Stos(s: int): nat
    requires 0 <= s < 50
  {
    if s < 10 then
      match s case 0 => 0 case 1 => 15 case 2 => 24 case 3 => 25 case 4 => 22 case 5 => 37 case 6 => 0 case 7 => 4
        case 8 => 6 case _ => 17
    else if s < 20 then
      match s case 10 => 29 case 11 => 30 case 12 => 32 case 13 => 33 case 14 => 35 case 15 => 9 case 16 => 26
        case 17 => 16 case 18 => 31 case _ => 14
    else if s < 30 then
      match s case 20 => 31 case 21 => 31 case 22 => 30 case 23 => 22 case 24 => 3 case 25 => 5 case 26 => 7
        case 27 => 8 case 28 => 18 case _ => 27
    else if s < 40 then
      match s case 30 => 28 case 31 => 37 case 32 => 19 case 33 => 20 case 34 => 34 case 35 => 11 case 36 => 12
        case 37 => 13 case 38 => 38 case _ => 38
    else
      match s case 40 => 38 case 41 => 37 case 42 => 38 case 43 => 28 case 44 => 21 case 45 => 36 case 46 => 36
        case 47 => 37 case 48 => 11 case _ => 11
  }

  // yyr1: the left-hand side of a rule.
  function R1(r: int): nat
    requires 0 <= r < 32
  {
    if r < 10 then
      match r case 0 => 0 case 1 => 23 case 2 => 24 case 3 => 26 case 4 => 25 case 5 => 27 case 6 => 27 case 7 => 28
        case 8 => 28 case _ => 28
    else if r < 20 then
      match r case 10 => 28 case 11 => 28 case 12 => 28 case 13 => 29 case 14 => 29 case 15 => 30 case 16 => 30
        case 17 => 30 case 18 => 30 case _ => 31
    else if r < 30 then
      match r case 20 => 32 case 21 => 33 case 22 => 33 case 23 => 34 case 24 => 34 case 25 => 34 case 26 => 35
        case 27 => 36 case 28 => 37 case _ => 38
    else
      match r case 30 => 38 case _ => 38
  }

  // yyr2: the length of a rule.
  function R2(r: int): nat
    requires 0 <= r < 32
  {
    if r < 10 then
      match r case 0 => 0 case 1 => 2 case 2 => 2 case 3 => 0 case 4 => 4 case 5 => 1 case 6 => 2 case 7 => 3
        case 8 => 1 case _ => 2
    else if r < 20 then
      match r case 10 => 2 case 11 => 2 case 12 => 0 case 13 => 1 case 14 => 2 case 15 => 1 case 16 => 1 case 17 => 1
        case 18 => 0 case _ => 2
    else if r < 30 then
      match r case 20 => 2 case 21 => 2 case 22 => 3 case 23 => 3 case 24 => 3 case 25 => 0 case 26 => 3 case 27 => 1
        case 28 => 3 case _ => 1
    else
      match r case 30 => 1 case _ => 1
  }

  // A state may lie directly on top of another one on the state stack.
  predicate Follows(a: int, b: int) {
    match b
    case 1 => a == 0
    case 2 => a == 0
    case 3 => a == 0
    case 4 => a == 1 || a == 17 || a == 27 || a == 41
    case 5 => a == 1
    case 6 => a == 2
    case 7 => a == 3 || a == 10
    case 8 => a == 3 || a == 10
    case 9 => a == 3 || a == 10
    case 10 => a == 3
    case 11 => a == 3
    case 12 => a == 3 || a == 10
    case 13 => a == 3 || a == 10
    case 14 => a == 3 || a == 10
    case 15 => a == 4
    case 16 => a == 5
    case 17 => a == 7 || a == 8 || a == 9
    case 18 => a == 7
    case 19 => a == 8
    case 20 => a == 8
    case 21 => a == 9
    case 22 => a == 10
    case 23 => a == 15
    case 24 => a == 16 || a == 29
    case 25 => a == 16 || a == 29
    case 26 => a == 16 || a == 29
    case 27 => a == 16 || a == 29
    case 28 => a == 16 || a == 29
    case 29 => a == 16
    case 30 => a == 16
    case 31 => a == 17
    case 32 => a == 19
    case 33 => a == 19
    case 34 => a == 19
    case 35 => a == 21 || a == 25 || a == 26 || a == 28
    case 36 => a == 21 || a == 25 || a == 26 || a == 28
    case 37 => a == 21 || a == 25 || a == 26 || a == 28
    case 38 => a == 21
    case 39 => a == 25
    case 40 => a == 26
    case 41 => a == 27
    case 42 => a == 28
    case 43 => a == 29
    case 44 => a == 32 || a == 33
    case 45 => a == 32
    case 46 => a == 33
    case 47 => a == 41
    case 48 => a == 45
    case 49 => a == 46
    case _ => false
  }

  // The largest stack position a state can have.
  function Height(s: int): nat
  {
    match s
    case 23 => 9
    case 15 => 8
    case 4 | 47 | 48 | 49 => 7
    case 35 | 36 | 37 | 39 | 40 | 41 | 42 | 44 | 45 | 46 => 6
    case 24 | 25 | 26 | 27 | 28 | 31 | 32 | 33 | 34 | 38 | 43 => 5
    case 17 | 18 | 19 | 20 | 21 | 29 | 30 => 4
    case 7 | 8 | 9 | 12 | 13 | 14 | 16 | 22 => 3
    case 5 | 6 | 10 | 11 => 2
    case 1 | 2 | 3 => 1
    case _ => 0
  }

  // Falls with every reduction: bounds the reductions between two shifts.
  function Rank(s: int): nat
  {
    match s
    case 23 => 8
    case 5 | 35 | 36 | 37 => 7
    case 16 | 24 | 39 | 40 | 42 | 47 => 6
    case 19 | 30 | 31 | 43 | 48 | 49 => 5
    case 18 | 20 | 29 | 34 | 38 => 4
    case 3 | 12 | 13 | 14 => 3
    case 11 | 22 => 2
    case 10 | 44 => 1
    case _ => 0
  }
}
