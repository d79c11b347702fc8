/** The parse tables of the Scout parser, entry by entry
    (build-backend/ScoutPatternParser.cc). */
module ScoutTables {
  const FINAL: int := 15      // YYFINAL
  const LAST: int := 117      // YYLAST
  const NTOKENS: int := 34   // YYNTOKENS
  const PACT_NINF: int := -100 // YYPACT_NINF
  const STATES: int := 118
  const RULES: int := 61

  // YYTRANSLATE: the symbol number of a code returned by yylex.
  function Translate(code: int): int {
    if code == 0 then 0
    else if code == 34 then 31  // '"'
    else if code == 40 then 29  // '('
    else if code == 41 then 30  // ')'
    else if code == 61 then 26  // '='
    else if code == 91 then 27  // '['
    else if code == 93 then 28  // ']'
    else if code == 123 then 32  // '{'
    else if code == 125 then 33  // '}'
    else if code == 256 then 1
    else if 258 <= code <= 280 then code - 255
    else 2
  }

  // yypact: base index into Table/Check of the row for a state.
  function Pact(s: int): int
    requires 0 <= s < 118
  {
    if s < 10 then
      match s case 0 => -11 case 1 => -23 case 2 => -23 case 3 => -18 case 4 => 16 case 5 => -11 case 6 => -100
        case 7 => -100 case 8 => -100 case _ => -100
    else if s < 20 then
      match s case 10 => 24 case 11 => -100 case 12 => -100 case 13 => -100 case 14 => -100 case 15 => -100
        case 16 => -100 case 17 => 9 case 18 => 17 case _ => 40
    else if s < 30 then
      match s case 20 => -100 case 21 => 18 case 22 => -100 case 23 => 1 case 24 => 76 case 25 => -100 case 26 => -100
        case 27 => 19 case 28 => 20 case _ => 23
    else if s < 40 then
      match s case 30 => 25 case 31 => 26 case 32 => 27 case 33 => 28 case 34 => 29 case 35 => -100 case 36 => 30
        case 37 => 31 case 38 => 32 case _ => 33
    else if s < 50 then
      match s case 40 => -100 case 41 => 34 case 42 => 35 case 43 => 36 case 44 => 37 case 45 => 13 case 46 => -100
        case 47 => -100 case 48 => -100 case _ => -100
    else if s < 60 then
      match s case 50 => -100 case 51 => -100 case 52 => -100 case 53 => -100 case 54 => -100 case 55 => -100
        case 56 => -100 case 57 => -100 case 58 => -100 case _ => -100
    else if s < 70 then
      match s case 60 => -100 case 61 => -100 case 62 => -100 case 63 => -100 case 64 => -100 case 65 => -23
        case 66 => 39 case 67 => -23 case 68 => -18 case _ => -23
    else if s < 80 then
      match s case 70 => -18 case 71 => 38 case 72 => -23 case 73 => 38 case 74 => -23 case 75 => -18 case 76 => -23
        case 77 => -23 case 78 => -23 case _ => -18
    else if s < 90 then
      match s case 80 => -23 case 81 => -23 case 82 => -100 case 83 => -100 case 84 => 42 case 85 => 47
        case 86 => -100 case 87 => -100 case 88 => -100 case _ => -100
    else if s < 100 then
      match s case 90 => 40 case 91 => -100 case 92 => -100 case 93 => -100 case 94 => -100 case 95 => -100
        case 96 => -100 case 97 => -100 case 98 => -100 case _ => -100
    else if s < 110 then
      match s case 100 => -100 case 101 => -100 case 102 => -100 case 103 => -23 case 104 => 2 case 105 => 41
        case 106 => -16 case 107 => -100 case 108 => 43 case _ => -100
    else
      match s case 110 => 51 case 111 => -100 case 112 => -100 case 113 => -18 case 114 => -23 case 115 => -100
        case 116 => 11 case _ => -100
  }

  // yydefact: rule reduced by default in a state; 0 is an error.
  function Defact(s: int): nat
    requires 0 <= s < 118
  {
    if s < 10 then
      match s case 0 => 0 case 1 => 0 case 2 => 0 case 3 => 0 case 4 => 0 case 5 => 2 case 6 => 3 case 7 => 5
        case 8 => 7 case _ => 6
    else if s < 20 then
      match s case 10 => 0 case 11 => 8 case 12 => 10 case 13 => 57 case 14 => 9 case 15 => 1 case 16 => 4
        case 17 => 0 case 18 => 0 case _ => 0
    else if s < 30 then
      match s case 20 => 56 case 21 => 0 case 22 => 61 case 23 => 0 case 24 => 0 case 25 => 60 case 26 => 58
        case 27 => 51 case 28 => 0 case _ => 0
    else if s < 40 then
      match s case 30 => 0 case 31 => 0 case 32 => 0 case 33 => 0 case 34 => 0 case 35 => 37 case 36 => 0 case 37 => 0
        case 38 => 0 case _ => 0
    else if s < 50 then
      match s case 40 => 38 case 41 => 0 case 42 => 0 case 43 => 0 case 44 => 0 case 45 => 0 case 46 => 13
        case 47 => 14 case 48 => 15 case _ => 16
    else if s < 60 then
      match s case 50 => 17 case 51 => 18 case 52 => 19 case 53 => 20 case 54 => 21 case 55 => 22 case 56 => 23
        case 57 => 24 case 58 => 25 case _ => 26
    else if s < 70 then
      match s case 60 => 27 case 61 => 28 case 62 => 29 case 63 => 30 case 64 => 31 case 65 => 0 case 66 => 0
        case 67 => 0 case 68 => 0 case _ => 0
    else if s < 80 then
      match s case 70 => 0 case 71 => 0 case 72 => 0 case 73 => 0 case 74 => 0 case 75 => 0 case 76 => 0 case 77 => 0
        case 78 => 0 case _ => 0
    else if s < 90 then
      match s case 80 => 0 case 81 => 0 case 82 => 11 case 83 => 12 case 84 => 0 case 85 => 0 case 86 => 33
        case 87 => 47 case 88 => 44 case _ => 48
    else if s < 100 then
      match s case 90 => 0 case 91 => 40 case 92 => 34 case 93 => 41 case 94 => 39 case 95 => 45 case 96 => 43
        case 97 => 32 case 98 => 35 case _ => 46
    else if s < 110 then
      match s case 100 => 36 case 101 => 42 case 102 => 49 case 103 => 0 case 104 => 0 case 105 => 0 case 106 => 0
        case 107 => 54 case 108 => 0 case _ => 59
    else
      match s case 110 => 0 case 111 => 52 case 112 => 53 case 113 => 0 case 114 => 0 case 115 => 55 case 116 => 0
        case _ => 50
  }

  // yypgoto: base index for gotos on a nonterminal.
  function Pgoto(nt: int): int
    requires 0 <= nt < 37
  {
    if nt < 10 then
      match nt case 0 => -100 case 1 => -100 case 2 => -100 case 3 => 45 case 4 => -100 case 5 => -100 case 6 => -100
        case 7 => -100 case 8 => -100 case _ => 52
    else if nt < 20 then
      match nt case 10 => -100 case 11 => -100 case 12 => -100 case 13 => -100 case 14 => -100 case 15 => -100
        case 16 => -100 case 17 => -100 case 18 => -100 case _ => -100
    else if nt < 30 then
      match nt case 20 => -100 case 21 => -100 case 22 => -100 case 23 => -100 case 24 => -100 case 25 => -100
        case 26 => -100 case 27 => -100 case 28 => -100 case _ => -100
    else
      match nt case 30 => -24 case 31 => -99 case 32 => -1 case 33 => -66 case 34 => -100 case 35 => 44 case _ => 8
  }

  // yydefgoto: default goto of a nonterminal.
  function Defgoto(nt: int): int
    requires 0 <= nt < 37
  {
    if nt < 10 then
      match nt case 0 => -1 case 1 => 4 case 2 => 5 case 3 => 6 case 4 => 7 case 5 => 8 case 6 => 9 case 7 => 18
        case 8 => 45 case _ => 46
    else if nt < 20 then
      match nt case 10 => 47 case 11 => 48 case 12 => 49 case 13 => 50 case 14 => 51 case 15 => 52 case 16 => 53
        case 17 => 54 case 18 => 55 case _ => 56
    else if nt < 30 then
      match nt case 20 => 57 case 21 => 58 case 22 => 59 case 23 => 60 case 24 => 61 case 25 => 62 case 26 => 63
        case 27 => 64 case 28 => 105 case _ => 66
    else
      match nt case 30 => 106 case 31 => 107 case 32 => 108 case 33 => 14 case 34 => 19 case 35 => 91 case _ => 23
  }

  // yytable: the target state.
  function Table(i: int): int
    requires 0 <= i < 118
  {
    if i < 10 then
      match i case 0 => 11 case 1 => 12 case 2 => 87 case 3 => 1 case 4 => 89 case 5 => 25 case 6 => 25 case 7 => 112
        case 8 => 10 case _ => 95
    else if i < 20 then
      match i case 10 => 2 case 11 => 3 case 12 => 111 case 13 => 99 case 14 => 13 case 15 => 10 case 16 => 15
        case 17 => 112 case 18 => 27 case _ => 28
    else if i < 30 then
      match i case 20 => 29 case 21 => 30 case 22 => 31 case 23 => 32 case 24 => 33 case 25 => 34 case 26 => 35
        case 27 => 17 case 28 => 36 case _ => 37
    else if i < 40 then
      match i case 30 => 38 case 31 => 39 case 32 => 40 case 33 => 41 case 34 => 26 case 35 => 109 case 36 => 42
        case 37 => 43 case 38 => 44 case _ => 117
    else if i < 50 then
      match i case 40 => 20 case 41 => 82 case 42 => 10 case 43 => 21 case 44 => 22 case 45 => 24 case 46 => 67
        case 47 => 115 case 48 => 65 case _ => 68
    else if i < 60 then
      match i case 50 => 16 case 51 => 69 case 52 => 70 case 53 => 71 case 54 => 72 case 55 => 73 case 56 => 74
        case 57 => 75 case 58 => 76 case _ => 77
    else if i < 70 then
      match i case 60 => 78 case 61 => 79 case 62 => 80 case 63 => 81 case 64 => 84 case 65 => 85 case 66 => 86
        case 67 => 110 case 68 => 88 case _ => 113
    else if i < 80 then
      match i case 70 => 90 case 71 => 92 case 72 => 102 case 73 => 94 case 74 => 103 case 75 => 96 case 76 => 97
        case 77 => 98 case 78 => 114 case _ => 100
    else if i < 90 then
      match i case 80 => 101 case 81 => 27 case 82 => 28 case 83 => 29 case 84 => 30 case 85 => 31 case 86 => 32
        case 87 => 33 case 88 => 34 case _ => 35
    else if i < 100 then
      match i case 90 => 116 case 91 => 36 case 92 => 37 case 93 => 38 case 94 => 39 case 95 => 40 case 96 => 41
        case 97 => 83 case 98 => 104 case _ => 42
    else if i < 110 then
      match i case 100 => 43 case 101 => 44 case 102 => 0 case 103 => 0 case 104 => 0 case 105 => 0 case 106 => 0
        case 107 => 0 case 108 => 0 case _ => 0
    else
      match i case 110 => 0 case 111 => 0 case 112 => 0 case 113 => 0 case 114 => 0 case 115 => 0 case 116 => 0
        case _ => 93
  }

  // yycheck: the owner of an entry of Table.
  function Check(i: int): int
    requires 0 <= i < 118
  {
    if i < 10 then
      match i case 0 => 1 case 1 => 2 case 2 => 68 case 3 => 14 case 4 => 70 case 5 => 4 case 6 => 4 case 7 => 106
        case 8 => 31 case _ => 75
    else if i < 20 then
      match i case 10 => 21 case 11 => 22 case 12 => 28 case 13 => 79 case 14 => 32 case 15 => 31 case 16 => 0
        case 17 => 116 case 18 => 5 case _ => 6
    else if i < 30 then
      match i case 20 => 7 case 21 => 8 case 22 => 9 case 23 => 10 case 24 => 11 case 25 => 12 case 26 => 13
        case 27 => 3 case 28 => 15 case _ => 16
    else if i < 40 then
      match i case 30 => 17 case 31 => 18 case 32 => 19 case 33 => 20 case 34 => 33 case 35 => 33 case 36 => 23
        case 37 => 24 case 38 => 25 case _ => 28
    else if i < 50 then
      match i case 40 => 31 case 41 => 28 case 42 => 31 case 43 => 26 case 44 => 4 case 45 => 27 case 46 => 26
        case 47 => 113 case 48 => 29 case _ => 26
    else if i < 60 then
      match i case 50 => 5 case 51 => 26 case 52 => 26 case 53 => 26 case 54 => 26 case 55 => 26 case 56 => 26
        case 57 => 26 case 58 => 26 case _ => 26
    else if i < 70 then
      match i case 60 => 26 case 61 => 26 case 62 => 26 case 63 => 26 case 64 => 65 case 65 => 26 case 66 => 67
        case 67 => 26 case 68 => 69 case _ => 26
    else if i < 80 then
      match i case 70 => 32 case 71 => 72 case 72 => 30 case 73 => 74 case 74 => 27 case 75 => 76 case 76 => 77
        case 77 => 78 case 78 => 27 case _ => 80
    else if i < 90 then
      match i case 80 => 81 case 81 => 5 case 82 => 6 case 83 => 7 case 84 => 8 case 85 => 9 case 86 => 10
        case 87 => 11 case 88 => 12 case _ => 13
    else if i < 100 then
      match i case 90 => 114 case 91 => 15 case 92 => 16 case 93 => 17 case 94 => 18 case 95 => 19 case 96 => 20
        case 97 => 45 case 98 => 90 case _ => 23
    else if i < 110 then
      match i case 100 => 24 case 101 => 25 case 102 => -1 case 103 => -1 case 104 => -1 case 105 => -1 case 106 => -1
        case 107 => -1 case 108 => -1 case _ => -1
    else
      match i case 110 => -1 case 111 => -1 case 112 => -1 case 113 => -1 case 114 => -1 case 115 => -1 case 116 => -1
        case _ => 73
  }

  // yystos: the accessing symbol of a state.
  function Stos(s: int): nat
    requires 0 <= s < 118
  {
    if s < 10 then
      match s case 0 => 0 case 1 => 14 case 2 => 21 case 3 => 22 case 4 => 35 case 5 => 36 case 6 => 37 case 7 => 38
        case 8 => 39 case _ => 40
    else if s < 20 then
      match s case 10 => 31 case 11 => 66 case 12 => 66 case 13 => 32 case 14 => 67 case 15 => 0 case 16 => 37
        case 17 => 3 case 18 => 41 case _ => 68
    else if s < 30 then
      match s case 20 => 31 case 21 => 26 case 22 => 4 case 23 => 70 case 24 => 27 case 25 => 4 case 26 => 33
        case 27 => 5 case 28 => 6 case _ => 7
    else if s < 40 then
      match s case 30 => 8 case 31 => 9 case 32 => 10 case 33 => 11 case 34 => 12 case 35 => 13 case 36 => 15
        case 37 => 16 case 38 => 17 case _ => 18
    else if s < 50 then
      match s case 40 => 19 case 41 => 20 case 42 => 23 case 43 => 24 case 44 => 25 case 45 => 42 case 46 => 43
        case 47 => 44 case 48 => 45 case _ => 46
    else if s < 60 then
      match s case 50 => 47 case 51 => 48 case 52 => 49 case 53 => 50 case 54 => 51 case 55 => 52 case 56 => 53
        case 57 => 54 case 58 => 55 case _ => 56
    else if s < 70 then
      match s case 60 => 57 case 61 => 58 case 62 => 59 case 63 => 60 case 64 => 61 case 65 => 29 case 66 => 63
        case 67 => 26 case 68 => 26 case _ => 26
    else if s < 80 then
      match s case 70 => 26 case 71 => 26 case 72 => 26 case 73 => 26 case 74 => 26 case 75 => 26 case 76 => 26
        case 77 => 26 case 78 => 26 case _ => 26
    else if s < 90 then
      match s case 80 => 26 case 81 => 26 case 82 => 28 case 83 => 43 case 84 => 66 case 85 => 26 case 86 => 66
        case 87 => 67 case 88 => 66 case _ => 67
    else if s < 100 then
      match s case 90 => 32 case 91 => 69 case 92 => 66 case 93 => 69 case 94 => 66 case 95 => 67 case 96 => 66
        case 97 => 66 case 98 => 66 case _ => 67
    else if s < 110 then
      match s case 100 => 66 case 101 => 66 case 102 => 30 case 103 => 27 case 104 => 70 case 105 => 62 case 106 => 64
        case 107 => 65 case 108 => 66 case _ => 33
    else
      match s case 110 => 26 case 111 => 28 case 112 => 65 case 113 => 26 case 114 => 27 case 115 => 67 case 116 => 64
        case _ => 28
  }

  // yyr1: the left-hand side of a rule.
  function R1(r: int): nat
    requires 0 <= r < 62
  {
    if r < 10 then
      match r case 0 => 0 case 1 => 34 case 2 => 35 case 3 => 36 case 4 => 36 case 5 => 37 case 6 => 37 case 7 => 37
        case 8 => 38 case _ => 39
    else if r < 20 then
      match r case 10 => 41 case 11 => 40 case 12 => 42 case 13 => 42 case 14 => 43 case 15 => 43 case 16 => 43
        case 17 => 43 case 18 => 43 case _ => 43
    else if r < 30 then
      match r case 20 => 43 case 21 => 43 case 22 => 43 case 23 => 43 case 24 => 43 case 25 => 43 case 26 => 43
        case 27 => 43 case 28 => 43 case _ => 43
    else if r < 40 then
      match r case 30 => 43 case 31 => 43 case 32 => 44 case 33 => 45 case 34 => 46 case 35 => 47 case 36 => 48
        case 37 => 49 case 38 => 50 case _ => 51
    else if r < 50 then
      match r case 40 => 52 case 41 => 53 case 42 => 54 case 43 => 55 case 44 => 56 case 45 => 57 case 46 => 58
        case 47 => 59 case 48 => 60 case _ => 62
    else if r < 60 then
      match r case 50 => 61 case 51 => 63 case 52 => 61 case 53 => 64 case 54 => 64 case 55 => 65 case 56 => 66
        case 57 => 68 case 58 => 67 case _ => 69
    else
      match r case 60 => 70 case _ => 70
  }

  // yyr2: the length of a rule.
  function R2(r: int): nat
    requires 0 <= r < 62
  {
    if r < 10 then
      match r case 0 => 0 case 1 => 2 case 2 => 1 case 3 => 1 case 4 => 2 case 5 => 1 case 6 => 1 case 7 => 1
        case 8 => 2 case _ => 2
    else if r < 20 then
      match r case 10 => 0 case 11 => 7 case 12 => 2 case 13 => 1 case 14 => 1 case 15 => 1 case 16 => 1 case 17 => 1
        case 18 => 1 case _ => 1
    else if r < 30 then
      match r case 20 => 1 case 21 => 1 case 22 => 1 case 23 => 1 case 24 => 1 case 25 => 1 case 26 => 1 case 27 => 1
        case 28 => 1 case _ => 1
    else if r < 40 then
      match r case 30 => 1 case 31 => 1 case 32 => 3 case 33 => 3 case 34 => 3 case 35 => 3 case 36 => 3 case 37 => 1
        case 38 => 1 case _ => 3
    else if r < 50 then
      match r case 40 => 3 case 41 => 3 case 42 => 3 case 43 => 3 case 44 => 3 case 45 => 3 case 46 => 3 case 47 => 3
        case 48 => 3 case _ => 0
    else if r < 60 then
      match r case 50 => 9 case 51 => 0 case 52 => 6 case 53 => 2 case 54 => 1 case 55 => 3 case 56 => 3 case 57 => 0
        case 58 => 4 case _ => 3
    else
      match r case 60 => 2 case _ => 1
  }

  // A state may lie directly on top of another one on the state stack.
  predicate Follows(a: int, b: int) {
    if b < 10 then
      match b
      case 1 => a == 0 || a == 5
      case 2 => a == 0 || a == 5
      case 3 => a == 0 || a == 5
      case 4 => a == 0
      case 5 => a == 0
      case 6 => a == 0
      case 7 => a == 0 || a == 5
      case 8 => a == 0 || a == 5
      case _ => b == 9 && (a == 0 || a == 5)
    else if b < 20 then
      match b
      case 10 =>
        || a == 1 || a == 2 || a == 65 || a == 67 || a == 69 || a == 72 || a == 74 || a == 76 || a == 77 || a == 78
        || a == 80 || a == 81 || a == 103 || a == 106 || a == 114 || a == 116
      case 11 => a == 1
      case 12 => a == 2
      case 13 => a == 3 || a == 68 || a == 70 || a == 75 || a == 79 || a == 113
      case 14 => a == 3
      case 15 => a == 4
      case 16 => a == 5
      case 17 => a == 10
      case 18 => a == 12
      case _ => b == 19 && (a == 13)
    else if b < 30 then
      match b
      case 20 => a == 17
      case 21 => a == 18
      case 22 => a == 19 || a == 90
      case 23 => a == 19
      case 24 => a == 21
      case 25 => a == 23 || a == 104
      case 26 => a == 23
      case 27 => a == 24 || a == 45
      case 28 => a == 24 || a == 45
      case _ => b == 29 && (a == 24 || a == 45)
    else if b < 40 then a == 24 || a == 45
    else if b < 50 then
      match b
      case 40 => a == 24 || a == 45
      case 41 => a == 24 || a == 45
      case 42 => a == 24 || a == 45
      case 43 => a == 24 || a == 45
      case 44 => a == 24 || a == 45
      case 45 => a == 24
      case 46 => a == 24
      case 47 => a == 24 || a == 45
      case 48 => a == 24 || a == 45
      case _ => b == 49 && (a == 24 || a == 45)
    else if b < 60 then a == 24 || a == 45
    else if b < 70 then
      match b
      case 60 => a == 24 || a == 45
      case 61 => a == 24 || a == 45
      case 62 => a == 24 || a == 45
      case 63 => a == 24 || a == 45
      case 64 => a == 24 || a == 45
      case 65 => a == 27
      case 66 => a == 27
      case 67 => a == 28
      case 68 => a == 29
      case _ => b == 69 && (a == 30)
    else if b < 80 then
      match b
      case 70 => a == 31
      case 71 => a == 32
      case 72 => a == 33
      case 73 => a == 34
      case 74 => a == 36
      case 75 => a == 37
      case 76 => a == 38
      case 77 => a == 39
      case 78 => a == 41
      case _ => b == 79 && (a == 42)
    else if b < 90 then
      match b
      case 80 => a == 43
      case 81 => a == 44
      case 82 => a == 45
      case 83 => a == 45
      case 84 => a == 65
      case 85 => a == 66
      case 86 => a == 67
      case 87 => a == 68
      case 88 => a == 69
      case _ => b == 89 && (a == 70)
    else if b < 100 then
      match b
      case 90 => a == 71 || a == 73
      case 91 => a == 71
      case 92 => a == 72
      case 93 => a == 73
      case 94 => a == 74
      case 95 => a == 75
      case 96 => a == 76
      case 97 => a == 77
      case 98 => a == 78
      case _ => b == 99 && (a == 79)
    else if b < 110 then
      match b
      case 100 => a == 80
      case 101 => a == 81
      case 102 => a == 84
      case 103 => a == 85
      case 104 => a == 90
      case 105 => a == 102
      case 106 => a == 103
      case 107 => a == 103 || a == 114
      case 108 => a == 103 || a == 106 || a == 114 || a == 116
      case _ => b == 109 && (a == 104)
    else
      match b
      case 110 => a == 105
      case 111 => a == 106
      case 112 => a == 106 || a == 116
      case 113 => a == 108
      case 114 => a == 110
      case 115 => a == 113
      case 116 => a == 114
      case _ => b == 117 && (a == 116)
  }

  // The largest stack position a state can have.
  function Height(s: int): nat {
    if s < 12 then
      match s
      case 1 => 2 case 2 => 2 case 3 => 2 case 4 => 1 case 5 => 1 case 6 => 1 case 7 => 2 case 8 => 2 case 9 => 2
      case 10 => 16 case 11 => 3 case _ => 0
    else if s < 27 then
      match s
      case 12 => 3 case 13 => 18 case 14 => 3 case 15 => 2 case 16 => 2 case 17 => 17 case 18 => 4 case 19 => 19
      case 20 => 18 case 21 => 5 case 22 => 20 case 23 => 20 case 24 => 6 case _ => 21
    else if s < 65 then
      if s == 45 || s == 46 then 7 else 8
    else if s < 102 then
      if s < 82 then 9 else if s < 84 then 8 else 10
    else
      match s
      case 102 => 11 case 103 => 11 case 104 => 11 case 105 => 12 case 106 => 12 case 107 => 15 case 108 => 16
      case 109 => 12 case 110 => 13 case 111 => 13 case 112 => 16 case 113 => 17 case 114 => 14 case 115 => 18
      case 116 => 15 case _ => 16
  }

  // Falls with every reduction: bounds the reductions between two shifts.
  function Rank(s: int): nat {
    if s < 20 then
      match s
      case 5 => 1 case 6 => 2 case 7 => 3 case 8 => 3 case 9 => 3 case 11 => 4 case 12 => 1 case 13 => 1 case 14 => 4
      case 16 => 2 case _ => 0
    else if s < 47 then
      match s
      case 20 => 5 case 22 => 1 case 25 => 1 case 26 => 5 case 27 => 1 case 35 => 3 case 40 => 3 case 46 => 1
      case _ => 0
    else if s < 65 then 2
    else if s < 86 then if s == 82 then 4 else if s == 83 then 1 else 0
    else if s < 102 then if s == 90 then 0 else 3
    else
      match s
      case 102 => 1 case 107 => 1 case 109 => 4 case 111 => 3 case 112 => 1 case 115 => 2 case 117 => 3 case _ => 0
  }
}
