/** The keywords of the Scout language, as the scanner's tables spell them. */
module ScoutKeywords {
  import opened Flex
  import opened Munch
  import opened ScoutLexer
  import Tables = ScoutScannerTables

  // The states inside keywords; no other word leads to them.
  predicate InKeyword(s: int) {
    15 <= s <= 24 || 39 <= s <= 55 || 62 <= s <= 146
  }

  // How a state inside a keyword is entered: from which state, by which class of
  // characters, through which entry of the tables.
  datatype Edge = Edge(from: int, cls: int, entry: int)

  function Into(s: int): Edge
    requires InKeyword(s)
  {
    if s <= 44 then
      match s case 15 => Edge(1, 8, 8) case 16 => Edge(1, 9, 9) case 17 => Edge(1, 13, 13) case 18 => Edge(1, 14, 14)
        case 19 => Edge(1, 17, 17) case 20 => Edge(1, 18, 18) case 21 => Edge(1, 20, 20) case 22 => Edge(1, 22, 22)
        case 23 => Edge(1, 23, 23) case 24 => Edge(1, 24, 24) case 39 => Edge(15, 6, 37) case 40 => Edge(15, 16, 47)
        case 41 => Edge(15, 19, 50) case 42 => Edge(16, 6, 40) case 43 => Edge(16, 10, 44) case _ => Edge(16, 14, 48)
       
    else if s <= 66 then
      match s case 45 => Edge(16, 19, 53) case 46 => Edge(17, 14, 182) case 47 => Edge(18, 18, 181)
        case 48 => Edge(19, 19, 180) case 49 => Edge(20, 6, 39) case 50 => Edge(20, 19, 52) case 51 => Edge(21, 6, 41)
        case 52 => Edge(21, 21, 56) case 53 => Edge(22, 23, 179) case 54 => Edge(23, 25, 178)
        case 55 => Edge(24, 18, 177) case 62 => Edge(39, 16, 175) case 63 => Edge(40, 6, 45)
        case 64 => Edge(40, 10, 49) case 65 => Edge(41, 18, 174) case _ => Edge(42, 23, 173)
    else if s <= 82 then
      match s case 67 => Edge(43, 22, 172) case 68 => Edge(44, 6, 171) case 69 => Edge(45, 8, 170)
        case 70 => Edge(46, 9, 169) case 71 => Edge(47, 8, 51) case 72 => Edge(47, 11, 54) case 73 => Edge(47, 14, 57)
        case 74 => Edge(48, 9, 168) case 75 => Edge(49, 17, 167) case 76 => Edge(50, 9, 166)
        case 77 => Edge(51, 21, 63) case 78 => Edge(51, 23, 65) case 79 => Edge(52, 19, 165)
        case 80 => Edge(53, 6, 164) case 81 => Edge(54, 20, 163) case _ => Edge(55, 14, 162)
    else if s <= 98 then
      match s case 83 => Edge(62, 16, 161) case 84 => Edge(63, 22, 160) case 85 => Edge(64, 6, 159)
        case 86 => Edge(65, 9, 158) case 87 => Edge(66, 6, 157) case 88 => Edge(67, 8, 156)
        case 89 => Edge(68, 12, 155) case 90 => Edge(69, 18, 154) case 91 => Edge(70, 9, 153)
        case 92 => Edge(71, 16, 152) case 93 => Edge(72, 19, 151) case 94 => Edge(73, 23, 150)
        case 95 => Edge(74, 10, 149) case 96 => Edge(75, 10, 148) case 97 => Edge(76, 19, 147)
        case _ => Edge(77, 10, 146)
    else if s <= 114 then
      match s case 99 => Edge(78, 23, 145) case 100 => Edge(79, 16, 144) case 101 => Edge(80, 23, 143)
        case 102 => Edge(81, 10, 142) case 103 => Edge(82, 23, 141) case 104 => Edge(83, 7, 140)
        case 105 => Edge(84, 22, 139) case 106 => Edge(85, 18, 138) case 107 => Edge(86, 14, 137)
        case 108 => Edge(88, 21, 136) case 109 => Edge(89, 18, 135) case 110 => Edge(90, 6, 134)
        case 111 => Edge(91, 10, 133) case 112 => Edge(92, 24, 132) case 113 => Edge(97, 8, 131)
        case _ => Edge(98, 18, 130)
    else if s <= 130 then
      match s case 115 => Edge(99, 10, 129) case 116 => Edge(100, 19, 128) case 117 => Edge(101, 14, 127)
        case 118 => Edge(104, 6, 126) case 119 => Edge(106, 24, 125) case 120 => Edge(107, 23, 124)
        case 121 => Edge(109, 19, 123) case 122 => Edge(110, 17, 122) case 123 => Edge(111, 18, 121)
        case 124 => Edge(112, 9, 120) case 125 => Edge(113, 22, 119) case 126 => Edge(114, 23, 118)
        case 127 => Edge(115, 21, 117) case 128 => Edge(116, 12, 114) case 129 => Edge(117, 8, 110)
        case _ => Edge(118, 8, 109)
    else
      match s case 131 => Edge(119, 20, 104) case 132 => Edge(120, 14, 101) case 133 => Edge(121, 22, 99)
        case 134 => Edge(122, 10, 94) case 135 => Edge(124, 10, 76) case 136 => Edge(127, 18, 75)
        case 137 => Edge(129, 14, 74) case 138 => Edge(130, 15, 73) case 139 => Edge(132, 19, 72)
        case 140 => Edge(133, 14, 71) case 141 => Edge(137, 18, 70) case 142 => Edge(138, 22, 69)
        case 143 => Edge(139, 18, 67) case 144 => Edge(140, 22, 66) case 145 => Edge(141, 14, 58)
        case _ => Edge(145, 23, 43)
  }

  // The only character of a class.
  function Letter(cls: int): Byte {
    match cls
    case 6 => 65 case 7 => 66 case 8 => 67 case 9 => 68 case 10 => 69 // A B C D E
    case 11 => 70 case 12 => 71 case 13 => 72 case 14 => 73 case 15 => 75 // F G H I K
    case 16 => 76 case 17 => 77 case 18 => 78 case 19 => 79 case 20 => 80 // L M N O P
    case 21 => 82 case 22 => 83 case 23 => 84 case 24 => 85 case _ => 89 // R S T U Y
  }

  lemma LetterClass(cls: int)
    requires 6 <= cls < 26
    ensures Ec(ScoutScanner, Letter(cls)) == cls && Letter(cls) != 0
  {}

  lemma EdgeSource(s: int)
    requires InKeyword(s)
    ensures var e := Into(s); 6 <= e.cls < 26 && 0 < e.entry < Tables.ENTRIES && e.from < s && (e.from == INITIAL || InKeyword(e.from))
  {
    hide Into, Tables.Base, Tables.Chk, Tables.Nxt;
    if s < 90 {
      EdgeSourceLow(s);
    } else {
      EdgeSourceMiddle(s);
    }
  }

  lemma EdgeSourceLow(s: int)
    requires InKeyword(s) && 15 <= s < 90
    ensures var e := Into(s); 6 <= e.cls < 26 && 0 < e.entry < Tables.ENTRIES && e.from < s && (e.from == INITIAL || InKeyword(e.from))
  {}

  lemma EdgeSourceMiddle(s: int)
    requires InKeyword(s) && 90 <= s < 147
    ensures var e := Into(s); 6 <= e.cls < 26 && 0 < e.entry < Tables.ENTRIES && e.from < s && (e.from == INITIAL || InKeyword(e.from))
  {}

  lemma EdgeEntry(s: int)
    requires InKeyword(s) && 0 < Into(s).entry < Tables.ENTRIES
    ensures Tables.Chk(Into(s).entry) == Into(s).from && Tables.Nxt(Into(s).entry) == s
  {
    hide Into, Tables.Base, Tables.Chk, Tables.Nxt;
    if s < 66 {
      EdgeEntryLow(s);
    } else if s < 82 {
      EdgeEntryMiddle(s);
    } else if s < 98 {
      EdgeEntryUpper(s);
    } else if s < 114 {
      EdgeEntryHigh(s);
    } else if s < 130 {
      EdgeEntryTop(s);
    } else {
      EdgeEntryLast(s);
    }
  }

  lemma EdgeEntryLow(s: int)
    requires InKeyword(s) && 15 <= s < 66 && 0 < Into(s).entry < Tables.ENTRIES
    ensures Tables.Chk(Into(s).entry) == Into(s).from && Tables.Nxt(Into(s).entry) == s
  {}

  lemma EdgeEntryMiddle(s: int)
    requires InKeyword(s) && 66 <= s < 82 && 0 < Into(s).entry < Tables.ENTRIES
    ensures Tables.Chk(Into(s).entry) == Into(s).from && Tables.Nxt(Into(s).entry) == s
  {}

  lemma EdgeEntryUpper(s: int)
    requires InKeyword(s) && 82 <= s < 98 && 0 < Into(s).entry < Tables.ENTRIES
    ensures Tables.Chk(Into(s).entry) == Into(s).from && Tables.Nxt(Into(s).entry) == s
  {}

  lemma EdgeEntryHigh(s: int)
    requires InKeyword(s) && 98 <= s < 114 && 0 < Into(s).entry < Tables.ENTRIES
    ensures Tables.Chk(Into(s).entry) == Into(s).from && Tables.Nxt(Into(s).entry) == s
  {}

  lemma EdgeEntryTop(s: int)
    requires InKeyword(s) && 114 <= s < 130 && 0 < Into(s).entry < Tables.ENTRIES
    ensures Tables.Chk(Into(s).entry) == Into(s).from && Tables.Nxt(Into(s).entry) == s
  {}

  lemma EdgeEntryLast(s: int)
    requires InKeyword(s) && 130 <= s < 147 && 0 < Into(s).entry < Tables.ENTRIES
    ensures Tables.Chk(Into(s).entry) == Into(s).from && Tables.Nxt(Into(s).entry) == s
  {}

  lemma EdgeBase(s: int)
    requires InKeyword(s) && 0 <= Into(s).from < Tables.JAM
    ensures Tables.Base(Into(s).from) + Into(s).cls == Into(s).entry
  {
    hide Into, Tables.Base, Tables.Chk, Tables.Nxt;
    if s < 68 {
      EdgeBaseLow(s);
    } else if s < 92 {
      EdgeBaseMiddle(s);
    } else if s < 118 {
      EdgeBaseUpper(s);
    } else {
      EdgeBaseHigh(s);
    }
  }

  lemma EdgeBaseLow(s: int)
    requires InKeyword(s) && 15 <= s < 68 && 0 <= Into(s).from < Tables.JAM
    ensures Tables.Base(Into(s).from) + Into(s).cls == Into(s).entry
  {}

  lemma EdgeBaseMiddle(s: int)
    requires InKeyword(s) && 68 <= s < 92 && 0 <= Into(s).from < Tables.JAM
    ensures Tables.Base(Into(s).from) + Into(s).cls == Into(s).entry
  {}

  lemma EdgeBaseUpper(s: int)
    requires InKeyword(s) && 92 <= s < 118 && 0 <= Into(s).from < Tables.JAM
    ensures Tables.Base(Into(s).from) + Into(s).cls == Into(s).entry
  {}

  lemma EdgeBaseHigh(s: int)
    requires InKeyword(s) && 118 <= s < 147 && 0 <= Into(s).from < Tables.JAM
    ensures Tables.Base(Into(s).from) + Into(s).cls == Into(s).entry
  {}

  lemma EdgeStep(s: int)
    requires InKeyword(s)
    ensures 6 <= Into(s).cls < 26 && IsState(ScoutScanner, Into(s).from) && Into(s).from != Tables.EOB_STATE
    ensures Step(ScoutScanner, Into(s).from, Letter(Into(s).cls)) == s
  {
    hide Into, Letter, Tables.Base, Tables.Chk, Tables.Nxt, Tables.Ec;
    EdgeSource(s);
    EdgeEntry(s);
    EdgeBase(s);
    LetterClass(Into(s).cls);
  }

  predicate IsKeywordKind(kind: int) {
    5 <= kind <= 25
  }

  // The state at the end of a keyword.
  function Final(kind: int): (s: int)
    requires IsKeywordKind(kind)
    ensures InKeyword(s)
  {
    match kind
    case 5 => 142 case 6 => 105 case 7 => 131 case 8 => 143 case 9 => 87 case 10 => 108
    case 11 => 134 case 12 => 144 case 13 => 123 case 14 => 135 case 15 => 93 case 16 => 94
    case 17 => 95 case 18 => 96 case 19 => 125 case 20 => 126 case 21 => 136 case 22 => 128
    case 23 => 146 case 24 => 102 case _ => 103
  }

  // The keywords as they are written.
  function Spelling(kind: int): (word: seq<Byte>)
    requires IsKeywordKind(kind)
    ensures |word| >= 4
  {
    match kind
    case 5 => [67, 65, 76, 76, 66, 65, 67, 75, 83] // CALLBACKS
    case 6 => [67, 76, 65, 83, 83] // CLASS
    case 7 => [67, 76, 69, 65, 78, 85, 80] // CLEANUP
    case 8 => [67, 79, 78, 68, 73, 84, 73, 79, 78] // CONDITION
    case 9 => [68, 65, 84, 65] // DATA
    case 10 => [68, 69, 83, 67, 82] // DESCR
    case 11 => [68, 79, 67, 78, 65, 77, 69] // DOCNAME
    case 12 => [68, 73, 65, 71, 78, 79, 83, 73, 83] // DIAGNOSIS
    case 13 => [72, 73, 68, 68, 69, 78] // HIDDEN
    case 14 => [73, 78, 67, 76, 85, 68, 69] // INCLUDE
    case 15 => [73, 78, 70, 79] // INFO
    case 16 => [73, 78, 73, 84] // INIT
    case 17 => [77, 79, 68, 69] // MODE
    case 18 => [78, 65, 77, 69] // NAME
    case 19 => [78, 79, 68, 79, 67, 83] // NODOCS
    case 20 => [80, 65, 82, 69, 78, 84] // PARENT
    case 21 => [80, 65, 84, 84, 69, 82, 78] // PATTERN
    case 22 => [80, 82, 79, 76, 79, 71] // PROLOG
    case 23 => [83, 84, 65, 84, 73, 67, 73, 78, 73, 84] // STATICINIT
    case 24 => [84, 89, 80, 69] // TYPE
    case _ => [85, 78, 73, 84] // UNIT
  }

  // The first n letters of a keyword lead to state s.
  predicate Leads(kind: int, n: nat, s: int)
    requires IsKeywordKind(kind) && 0 < n <= |Spelling(kind)| && InKeyword(s)
    decreases n
  {
    && Spelling(kind)[n - 1] == Letter(Into(s).cls)
    && if n == 1 then Into(s).from == INITIAL else InKeyword(Into(s).from) && Leads(kind, n - 1, Into(s).from)
  }

  lemma AllLead(kind: int)
    requires IsKeywordKind(kind)
    ensures Leads(kind, |Spelling(kind)|, Final(kind))
  {
    hide Leads;
    match kind
    case 5 => CallbacksLeads(); case 6 => ClassLeads(); case 7 => CleanupLeads(); case 8 => ConditionLeads();
    case 9 => DataLeads(); case 10 => DescrLeads(); case 11 => DocnameLeads(); case 12 => DiagnosisLeads();
    case 13 => HiddenLeads(); case 14 => IncludeLeads(); case 15 => InfoLeads(); case 16 => InitLeads();
    case 17 => ModeLeads(); case 18 => NameLeads(); case 19 => NodocsLeads(); case 20 => ParentLeads();
    case 21 => PatternLeads(); case 22 => PrologLeads(); case 23 => StaticinitLeads(); case 24 => TypeLeads();
    case _ => UnitLeads();
  }

  lemma CallbacksLeads()
    ensures Leads(5, 9, 142)
  {}

  lemma ClassLeads()
    ensures Leads(6, 5, 105)
  {}

  lemma CleanupLeads()
    ensures Leads(7, 7, 131)
  {}

  lemma ConditionLeads()
    ensures Leads(8, 9, 143)
  {}

  lemma DataLeads()
    ensures Leads(9, 4, 87)
  {}

  lemma DescrLeads()
    ensures Leads(10, 5, 108)
  {}

  lemma DocnameLeads()
    ensures Leads(11, 7, 134)
  {}

  lemma DiagnosisLeads()
    ensures Leads(12, 9, 144)
  {}

  lemma HiddenLeads()
    ensures Leads(13, 6, 123)
  {}

  lemma IncludeLeads()
    ensures Leads(14, 7, 135)
  {}

  lemma InfoLeads()
    ensures Leads(15, 4, 93)
  {}

  lemma InitLeads()
    ensures Leads(16, 4, 94)
  {}

  lemma ModeLeads()
    ensures Leads(17, 4, 95)
  {}

  lemma NameLeads()
    ensures Leads(18, 4, 96)
  {}

  lemma NodocsLeads()
    ensures Leads(19, 6, 125)
  {}

  lemma ParentLeads()
    ensures Leads(20, 6, 126)
  {}

  lemma PatternLeads()
    ensures Leads(21, 7, 136)
  {}

  lemma PrologLeads()
    ensures Leads(22, 6, 128)
  {}

  lemma StaticinitLeads()
    ensures Leads(23, 10, 146)
  {}

  lemma TypeLeads()
    ensures Leads(24, 4, 102)
  {}

  lemma UnitLeads()
    ensures Leads(25, 4, 103)
  {}

  // --- Scanning keywords -----------------------------------------------------------------

  lemma {:induction false} Arrives(kind: int, n: nat, s: int, text: seq<Byte>)
    requires IsKeywordKind(kind) && 0 < n <= |Spelling(kind)| && InKeyword(s) && Leads(kind, n, s)
    requires n <= |text| && text[..n] == Spelling(kind)[..n]
    ensures StateAt(ScoutScanner, INITIAL, text, n) == s
    decreases n
  {
    hide Into, Letter, Step, Spelling;
    EdgeSource(s);
    EdgeStep(s);
    var e := Into(s);
    assert text[n - 1] == text[..n][n - 1] == Letter(e.cls);
    if n == 1 {
      assert StateAt(ScoutScanner, INITIAL, text, 0) == INITIAL;
    } else {
      assert text[..n - 1] == text[..n][..n - 1] == Spelling(kind)[..n - 1];
      Arrives(kind, n - 1, e.from, text);
    }
  }

  lemma Ends(kind: int)
    requires IsKeywordKind(kind)
    ensures var s := Final(kind);
            && 18 <= Tables.Accept(s) <= 38 && Keyword(Tables.Accept(s)) == kind + 255
            && Tables.Base(s) == Tables.Base(Tables.JAM)
  {}

  // A keyword is matched whole, whatever follows it.
  lemma KeywordMunch(kind: int, more: seq<Byte>)
    requires IsKeywordKind(kind)
    ensures IsMunch(ScoutScanner, INITIAL, Spelling(kind) + more, |Spelling(kind)|, Tables.Accept(Final(kind)))
  {
    hide Spelling, Leads, Final, Tables.Base, Tables.Accept, StateAt, Keyword, Into, IsMunch;
    AllLead(kind);
    Ends(kind);
    var n := |Spelling(kind)|;
    var text := Spelling(kind) + more;
    assert text[..n] == Spelling(kind) == Spelling(kind)[..n];
    Arrives(kind, n, Final(kind), text);
    DeadEnds(ScoutScanner, INITIAL, text, n);
  }

  lemma MunchRule(kind: int, more: seq<Byte>)
    requires IsKeywordKind(kind)
    ensures RuleAt(ScoutScanner, INITIAL, Spelling(kind) + more, |Spelling(kind)|) == Tables.Accept(Final(kind))
  {
    hide Spelling, Final, Tables.Accept, RuleAt, NoneLonger;
    KeywordMunch(kind, more);
  }

  lemma KeywordEffect(kind: int, l: Lexer, more: seq<Byte>)
    requires IsKeywordKind(kind) && l.start == INITIAL && l.rest == Spelling(kind) + more
    ensures FirstEffect(l) == Emit(kind + 255, "", l.(rest := more))
  {
    hide Spelling, Final, Tables.Accept, Tables.Base, RuleAt, Longest, BracketRule, Keyword, IsMunch;
    Ends(kind);
    KeywordMunch(kind, more);
    var n := |Spelling(kind)|;
    MunchIsUnique(ScoutScanner, INITIAL, l.rest, n, Tables.Accept(Final(kind)));
    MunchRule(kind, more);
    assert MunchLength(l) == n && l.rest[n..] == more;
  }
}
