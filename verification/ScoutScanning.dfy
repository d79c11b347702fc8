/** yylex and include_file of the Scout scanner on refilled buffers, proved to deliver
    what scanning whole inputs delivers. */
module ScoutScanning {
  import opened Flex
  import opened Munch
  import opened ScanBuffer
  import Spec = ScoutLexer
  import Lines = ScoutLines

  const YY_BUF_SIZE: nat := 16384

  // The two calls of yyerror in include_file.
  datatype Opening = Opened | Nested | CannotOpen

  class YyLexer {
    const m: Matcher
    const files: map<string, seq<Byte>> // the files that can be opened
    var lineno: int
    var depth: int
    var yylval: string
    var incFilename: string // empty unless an included file is being read
    var incLine: int
    var incState: Buffer?

    ghost predicate Valid()
      reads this, m, m.cur, m.cur.chBuf, m.cur.file
      reads if incState != null then {incState, incState.chBuf, incState.file} else {}
    {
      && m.g.ScoutScanner? && m.Valid()
      && (incFilename != "" ==>
            && incState != null && incState.Suspended()
            && incState != m.cur && incState.chBuf != m.cur.chBuf && incState.file != m.cur.file)
    }

    // Everything the scanner works on.
    ghost function Repr(): set<object>
      reads this, m, m.cur
      reads if incState != null then {incState} else {}
    {
      {this, m, m.cur, m.cur.chBuf, m.cur.file} +
      (if incState == null then {} else var b: Buffer := incState; {b, b.chBuf, b.file})
    }

    // The scanner with its whole input, instead of a buffer and a file.
    ghost function Abstract(): (l: Spec.Lexer)
      requires Valid()
      ensures l.Valid()
      reads this, m, m.cur, m.cur.chBuf, m.cur.file
      reads if incState != null then {incState, incState.chBuf, incState.file} else {}
    {
      Spec.Lexer(m.start, depth, lineno, m.Rest(),
                 if incFilename == "" then Spec.Nobody else Spec.Includer(incFilename, incState.Unread(), incLine))
    }

    constructor (file: InputFile, files: map<string, seq<Byte>>)
      ensures this.files == files && Valid()
      ensures Abstract() == Spec.Lexer(Spec.INITIAL, 0, 1, file.rest, Spec.Nobody)
      ensures fresh(Repr() - {file})
    {
      m := new Matcher(ScoutScanner, file, YY_BUF_SIZE);
      this.files := files;
      lineno, depth, yylval, incFilename, incLine, incState := 1, 0, "", "", 0, null;
    }

    // What yytext points to, read as a C string.
    method YyText() returns (s: string)
      requires m.Valid() && m.textPtr + m.leng == m.cBufP
      ensures s == Spec.CString(m.Text())
    {
      s := "";
      var i := m.textPtr;
      ghost var text := m.Text();
      assert text == text[0..];
      while i < m.cBufP && m.cur.chBuf[i] != 0
        invariant m.textPtr <= i <= m.cBufP
        invariant Spec.CString(text) == s + Spec.CString(text[i - m.textPtr..])
      {
        assert text[i - m.textPtr..][1..] == text[i + 1 - m.textPtr..];
        s := s + [m.cur.chBuf[i] as char];
        i := i + 1;
      }
    }

    // The variables are as an action leaves them.
    ghost predicate Performed(e: Spec.Effect, returned: bool, code: int, failed: bool)
      reads this, m
    {
      match e
      case Error => failed
      case Skip(l) => !failed && !returned && m.start == l.start && depth == l.depth && lineno == l.lineno
      case Emit(c, text, l) =>
        && !failed && returned && code == c && m.start == l.start && depth == l.depth && lineno == l.lineno
        && (c == Spec.STRING || c == Spec.TEXT ==> yylval == text)
    }

    // The variables an action works on.
    ghost function Variables(): Spec.Lexer
      reads this, m
    {
      Spec.Lexer(m.start, depth, lineno, [], Spec.Nobody)
    }

    // BEGIN
    method SetStart(start: nat)
      requires m.Valid() && IsStart(m.g, start)
      modifies m`start
      ensures m.start == start && m.Valid() && m.Rest() == old(m.Rest())
    {
      m.start := start;
      assert m.Held() == old(m.Held());
    }

    // The action of a rule. It returns a token code, or calls yyerror, or goes on.
    method Action(act: nat) returns (returned: bool, code: int, failed: bool)
      requires m.g.ScoutScanner? && m.Valid() && m.textPtr + m.leng == m.cBufP && m.leng > 0
      modifies this`lineno, this`depth, this`yylval, m`start
      ensures m.Valid() && m.Rest() == old(m.Rest())
      ensures Performed(Spec.Act(act, old(m.Text()), old(Variables())), returned, code, failed)
    {
      returned, code, failed := false, 0, false;
      var first := m.cur.chBuf[m.textPtr];
      assert first == m.Text()[0];
      if 14 <= act <= 17 {
        code := BracketAction(act);
        returned := true;
      } else if act == 1 || act == 6 {
        lineno := lineno + 1;
      } else if act == 3 {
        SetStart(Spec.COMMENT);
      } else if act == 7 {
        SetStart(Spec.INITIAL);
      } else if act == 9 {
        SetStart(Spec.QUOTE);
        returned, code := true, Spec.CharCode(first);
      } else if act == 10 {
        yylval := YyText();
        returned, code := true, Spec.STRING;
      } else if act == 11 {
        failed := true;
      } else if act == 12 {
        SetStart(Spec.INITIAL);
        returned, code := true, Spec.CharCode(first);
      } else if act == 13 {
        depth := depth + 1;
        SetStart(Spec.BRACKET);
        returned, code := true, Spec.CharCode(first);
      } else if 18 <= act <= 38 {
        returned, code := true, Spec.Keyword(act);
      } else if act == 39 {
        returned, code := true, Spec.CharCode(first);
      }
    }

    // Rules 14 to 17, inside a text block.
    method BracketAction(act: nat) returns (code: int)
      requires m.g.ScoutScanner? && m.Valid() && m.textPtr + m.leng == m.cBufP && m.leng > 0 && 14 <= act <= 17
      modifies this`lineno, this`depth, this`yylval, m`start
      ensures m.Valid() && m.Rest() == old(m.Rest())
      ensures Performed(Spec.BracketRule(act, old(m.Text()), old(Variables())), true, code, false)
    {
      hide Spec.CString;
      var first := m.cur.chBuf[m.textPtr];
      assert first == m.Text()[0];
      code := Spec.TEXT;
      if act == 15 {
        lineno := lineno + 1;
      } else if act == 16 {
        depth := depth + 1;
      } else if act == 17 {
        depth := depth - 1;
        if depth <= 0 {
          code := Spec.CharCode(first);
          SetStart(Spec.INITIAL);
          return;
        }
      }
      yylval := YyText();
    }

    // The end-of-file action while a file is included: back to the including one.
    method CloseInclude()
      requires Valid() && incFilename != ""
      modifies this`lineno, this`incFilename
      modifies m`cur, m`nChars, m`textPtr, m`hold, m`cBufP
      ensures Valid() && m.cur == old(incState)
      ensures Abstract() == Spec.Return(old(Abstract()).(rest := []))
    {
      // yy_delete_buffer removes the current buffer
      m.Load(incState);
      lineno := incLine;
      incFilename := "";
    }

    // yy_create_buffer
    method CreateBuffer(file: InputFile) returns (b: Buffer)
      ensures fresh(b) && fresh(b.chBuf) && b.file == file && b.Suspended() && b.Unread() == file.rest
    {
      b := new Buffer(file, YY_BUF_SIZE);
    }

    // include_file
    method IncludeFile(filename: string) returns (o: Opening)
      requires Valid()
      modifies this`lineno, this`incLine, this`incFilename, this`incState
      modifies m`cur, m`nChars, m`textPtr, m`hold, m`cBufP, m.cur`bufPos, m.cur`nChars, m.cur.chBuf
      ensures o == if old(incFilename) != "" then Nested
                   else if filename == "" || filename !in files then CannotOpen else Opened
      ensures o.Opened? ==> Valid() && fresh(Repr() - old(Repr()))
      ensures o.Opened? ==> Abstract() == Spec.Include(old(Abstract()), filename, files[filename])
    {
      hide Matcher.Valid, Matcher.Rest, Buffer.Suspended, Buffer.Unread;
      if incFilename != "" {
        return Nested;
      }
      if filename == "" || filename !in files {
        return CannotOpen; // fopen fails
      }
      incFilename := filename;
      incState := m.cur;
      var yyin := new InputFile(files[filename]);
      incLine := lineno;
      lineno := 1;
      var b := CreateBuffer(yyin);
      m.SwitchTo(b);
      o := Opened;
    }

    // One turn of the loop of yylex: a match and its action.
    method Turn() returns (returned: bool, code: int, failed: bool)
      requires Valid()
      modifies this`lineno, this`depth, this`yylval, this`incFilename
      modifies m, m.cur, m.cur.chBuf, m.cur.file
      ensures !failed ==> Valid()
      ensures old(Abstract().rest) == [] && old(incFilename) == "" ==>
                && !failed && returned && code == 0 && Abstract() == old(Abstract())
                && incFilename == "" && m.cur == old(m.cur) && m.cur.file == old(m.cur.file)
                && (m.cur.chBuf == old(m.cur.chBuf) || fresh(m.cur.chBuf))
      ensures old(Abstract().rest) == [] && old(incFilename) != "" ==>
                && !failed && !returned && Abstract() == Spec.Return(old(Abstract()))
                && incFilename == "" && m.cur == old(incState)
      ensures old(Abstract().rest) != [] ==>
                && incFilename == old(incFilename) && m.cur == old(m.cur) && m.cur.file == old(m.cur.file)
                && (m.cur.chBuf == old(m.cur.chBuf) || fresh(m.cur.chBuf))
                && Took(Spec.FirstEffect(old(Abstract())), returned, code, failed)
    {
      hide Matcher.Valid, Matcher.Rest, Spec.FirstEffect, Spec.Act;
      ghost var l := Abstract();
      var mt := m.NextMatch();
      if mt.Eof? {
        returned, code, failed := incFilename == "", 0, false;
        if incFilename != "" {
          CloseInclude();
        }
      } else {
        FirstMatch(l, m.leng, mt.act);
        returned, code, failed := RuleTurn(mt.act, l);
      }
    }

    // The action of the rule that NextMatch has found for l.
    method RuleTurn(act: nat, ghost l: Spec.Lexer) returns (returned: bool, code: int, failed: bool)
      requires Valid() && m.textPtr + m.leng == m.cBufP && 0 < m.leng <= |l.rest|
      requires m.Text() == l.rest[..m.leng] && Abstract() == l.(rest := l.rest[m.leng..])
      modifies this`lineno, this`depth, this`yylval, m`start
      ensures !failed ==> Valid()
      ensures Took(old(Spec.Act(act, m.Text(), Abstract())), returned, code, failed)
    {
      ActLifts(act, m.Text(), Abstract());
      returned, code, failed := Action(act);
    }

    // yylex: whatever the reads deliver, it returns the token that scanning the whole
    // input delivers, and leaves the rest of the input to be scanned.
    method Yylex() returns (code: int, failed: bool)
      requires Valid()
      modifies this`lineno, this`depth, this`yylval, this`incFilename
      modifies m, m.cur, m.cur.chBuf, m.cur.file
      modifies if incState != null then {incState, incState.chBuf, incState.file} else {}
      ensures !failed ==> fresh(Repr() - old(Repr()))
      ensures match Spec.Yylex(old(Abstract()))
              case Failed => failed
              case AtEnd => !failed && Valid() && code == 0 && Abstract().rest == [] && incFilename == ""
              case Read(t, next) =>
                && !failed && Valid() && code == t.code && lineno == t.line && Abstract() == next
                && (code == Spec.STRING || code == Spec.TEXT ==> yylval == t.text)
                && Lines.LinesKept(files, old(Abstract()), Abstract())
    {
      hide Spec.FirstEffect, Matcher.Valid, Matcher.Rest, Lines.LinesKept;
      ghost var l := Abstract();
      Lines.YylexKeepsLines(files, l);
      ghost var cur, inc := m.cur, incState;
      while true
        invariant Valid() && Spec.Yylex(Abstract()) == Spec.Yylex(l)
        invariant incState == inc && (m.cur == cur || (incFilename == "" && old(incFilename) != "" && m.cur == inc))
        invariant m.cur == cur ==>
                    && incFilename == old(incFilename) && cur.file == old(cur.file)
                    && (cur.chBuf == old(cur.chBuf) || fresh(cur.chBuf))
        invariant old(incFilename) != "" && m.cur == cur ==> inc.chBuf == old(inc.chBuf) && inc.file == old(inc.file)
        invariant old(incFilename) != "" && m.cur == inc ==>
                    (inc.chBuf == old(inc.chBuf) || fresh(inc.chBuf)) && inc.file == old(inc.file)
        invariant inc != null ==> (inc.chBuf == old(inc.chBuf) || fresh(inc.chBuf)) && inc.file == old(inc.file)
        decreases incFilename != "", |Abstract().rest|
      {
        ghost var l1 := Abstract();
        var returned;
        returned, code, failed := Turn();
        if failed || returned {
          return;
        }
      }
    }

    // The scanner is as the effect of a match leaves it.
    ghost predicate Took(e: Spec.Effect, returned: bool, code: int, failed: bool)
      requires !failed ==> Valid()
      reads this, m, m.cur, m.cur.chBuf, m.cur.file
      reads if incState != null then {incState, incState.chBuf, incState.file} else {}
    {
      match e
      case Error => failed
      case Skip(l) => !failed && !returned && Abstract() == l
      case Emit(c, text, l) =>
        && !failed && returned && code == c && Abstract() == l
        && (c == Spec.STRING || c == Spec.TEXT ==> yylval == text)
    }
  }

  lemma FirstMatch(l: Spec.Lexer, n: nat, rule: nat)
    requires l.Valid() && l.rest != [] && IsMunch(ScoutScanner, l.start, l.rest, n, rule)
    ensures 0 < n <= |l.rest| && Spec.FirstEffect(l) == Spec.Act(rule, l.rest[..n], l.(rest := l.rest[n..]))
  {
    MunchIsUnique(ScoutScanner, l.start, l.rest, n, rule);
    assert Spec.MunchLength(l) == n;
  }

  // An action leaves the input alone.
  lemma ActLifts(rule: nat, lexeme: seq<Byte>, l: Spec.Lexer)
    requires lexeme != []
    ensures var e := Spec.Act(rule, lexeme, Spec.Lexer(l.start, l.depth, l.lineno, [], Spec.Nobody));
            Spec.Act(rule, lexeme, l) ==
            match e
            case Error => Spec.Error
            case Skip(l1) => Spec.Skip(l1.(rest := l.rest, includer := l.includer))
            case Emit(c, text, l1) => Spec.Emit(c, text, l1.(rest := l.rest, includer := l.includer))
  {}
}
