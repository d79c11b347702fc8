/** The buffered scanner: the match loop of yylex, yy_get_next_buffer,
    yy_get_previous_state, yy_try_NUL_trans and the buffer functions, over a growable
    array that is refilled in the middle of a token. */
module ScanBuffer {
  import opened Flex
  import opened Munch

  const YY_READ_BUF_SIZE: nat := 8192
  const YY_END_OF_BUFFER_CHAR: Byte := 0

  // A file being read: each read delivers any positive number of bytes, up to the
  // number asked for, until nothing is left.
  class InputFile {
    var rest: seq<Byte>

    constructor (contents: seq<Byte>)
      ensures rest == contents
    {
      rest := contents;
    }

    // YY_INPUT
    method Read(max: nat) returns (chunk: seq<Byte>)
      requires max > 0
      modifies this
      ensures old(rest) == chunk + rest && |chunk| <= max
      ensures old(rest) != [] ==> chunk != []
    {
      if rest == [] {
        return [];
      }
      var n: nat :| 0 < n <= max && n <= |rest|;
      chunk, rest := rest[..n], rest[n..];
    }
  }

  datatype Status = New | Normal | EofPending

  // The action yylex gets to: a rule, or the end of the file.
  datatype Match = Rule(act: nat) | Eof

  datatype Refill = EndOfFile | ContinueScan | LastMatch

  // struct yy_buffer_state
  class Buffer {
    var chBuf: array<Byte>
    var bufSize: nat
    var nChars: nat // valid while the buffer is not current
    var bufPos: nat
    var status: Status
    var file: InputFile

    // yy_create_buffer; the two bytes beyond size hold the end-of-buffer characters.
    constructor (file: InputFile, size: nat)
      requires size > 0
      ensures this.file == file && bufSize == size && fresh(chBuf) && chBuf.Length == size + 2
      ensures Flushed()
    {
      this.file, bufSize := file, size;
      chBuf := new Byte[size + 2](_ => 0);
      nChars, bufPos, status := 0, 0, New;
    }

    // A buffer that is not current: the scanner will go on at bufPos.
    ghost predicate Suspended()
      reads this, chBuf, file
    {
      && bufSize > 0 && chBuf.Length == bufSize + 2 && bufPos <= nChars <= bufSize
      && chBuf[nChars] == YY_END_OF_BUFFER_CHAR && chBuf[nChars + 1] == YY_END_OF_BUFFER_CHAR
      && (status == EofPending ==> file.rest == [])
      && (status == New ==> nChars == 0)
    }

    ghost function Unread(): seq<Byte>
      requires Suspended()
      reads this, chBuf, file
    {
      chBuf[bufPos..nChars] + file.rest
    }

    // What yy_flush_buffer leaves behind.
    ghost predicate Flushed()
      reads this, chBuf
    {
      && nChars == 0 && bufPos == 0 && status == New && chBuf.Length >= 2
      && chBuf[0] == YY_END_OF_BUFFER_CHAR && chBuf[1] == YY_END_OF_BUFFER_CHAR
    }
  }

  // yy_last_accepting_state ls and yy_last_accepting_cpos lp describe the longest
  // matching prefix of a text at position bp among those shorter than n, if there is one.
  ghost predicate LastKnown(g: Scanner, start: nat, text: seq<Byte>, bp: nat, n: nat, ls: nat, lp: nat)
    requires IsStart(g, start) && n <= |text|
  {
    || (forall j :: 0 <= j < n ==> RuleAt(g, start, text, j) == 0)
    || (&& bp <= lp < bp + n
        && ls == StateAt(g, start, text, lp - bp)
        && RuleAt(g, start, text, lp - bp) != 0
        && forall j :: lp - bp < j < n ==> RuleAt(g, start, text, j) == 0)
  }

  // Noting an accepting state before consuming byte n keeps the description.
  lemma ConsumesByte(g: Scanner, start: nat, text: seq<Byte>, bp: nat, n: nat, ls: nat, lp: nat)
    requires IsStart(g, start) && n < |text| && LastKnown(g, start, text, bp, n, ls, lp)
    ensures var s := StateAt(g, start, text, n);
            && StateAt(g, start, text, n + 1) == Step(g, s, text[n])
            && LastKnown(g, start, text, bp, n + 1, if Accept(g, s) != 0 then s else ls,
                         if Accept(g, s) != 0 then bp + n else lp)
  {
    hide Step, Accept;
  }

  // A buffer holding a text from bp to n, with the rest behind it, splits at cp.
  lemma SplitsText(buf: seq<Byte>, bp: nat, cp: nat, n: nat, text: seq<Byte>, rest: seq<Byte>)
    requires bp <= n <= |buf| && bp <= cp && n - bp <= |text|
    requires forall i :: 0 <= i < n - bp ==> buf[bp + i] == text[i]
    requires rest == text[n - bp..]
    ensures cp <= n ==> buf[cp..n] + rest == text[cp - bp..] && buf[bp..cp] == text[..cp - bp]
  {
    if cp <= n {
      assert buf[cp..n] == text[cp - bp..n - bp];
      assert text[cp - bp..] == text[cp - bp..n - bp] + text[n - bp..];
    }
  }

  // The contents of a buffer from bp to n, with the rest behind it, are a text.
  ghost predicate HoldsText(buf: seq<Byte>, n: nat, bp: nat, text: seq<Byte>, rest: seq<Byte>) {
    && n + 2 <= |buf| && bp <= n && n - bp <= |text|
    && buf[n] == YY_END_OF_BUFFER_CHAR && buf[n + 1] == YY_END_OF_BUFFER_CHAR
    && (forall i :: 0 <= i < n - bp ==> buf[bp + i] == text[i])
    && rest == text[n - bp..]
  }

  // The front of a text, what was read behind it and the rest of the file make it up.
  lemma JoinsText(buf: seq<Byte>, n: nat, k: nat, text: seq<Byte>, rest: seq<Byte>)
    requires n + k <= |buf| && n <= |text|
    requires buf[..n] == text[..n] && buf[n..n + k] + rest == text[n..]
    ensures text == buf[..n + k] + rest
  {
    assert buf[..n + k] == buf[..n] + buf[n..n + k];
    assert text == text[..n] + text[n..];
  }

  class Matcher {
    const g: Scanner
    var start: nat    // yy_start
    var cur: Buffer   // YY_CURRENT_BUFFER
    var nChars: nat   // yy_n_chars
    var cBufP: nat    // yy_c_buf_p
    var hold: Byte    // yy_hold_char
    var textPtr: nat  // yytext
    var leng: nat     // yyleng
    var lastState: nat
    var lastPos: nat

    // The sizes agree, and a read after the end of the file is not attempted again.
    ghost predicate Shaped()
      reads this`start, this`cur, this`nChars, cur, cur.chBuf, cur.file
    {
      && IsStart(g, start) && cur.bufSize > 0 && cur.chBuf.Length == cur.bufSize + 2
      && nChars <= cur.bufSize
      && (cur.status == EofPending ==> cur.file.rest == [])
      && (cur.status == New ==> cur.nChars == nChars == 0)
    }

    // Between two tokens: the byte under yy_c_buf_p is in yy_hold_char.
    ghost predicate Valid()
      reads this, cur, cur.chBuf, cur.file
    {
      && Shaped() && textPtr <= cBufP <= nChars
      && Held()[nChars] == YY_END_OF_BUFFER_CHAR && Held()[nChars + 1] == YY_END_OF_BUFFER_CHAR
    }

    ghost function Held(): seq<Byte>
      requires Shaped() && cBufP <= nChars
      reads this, cur, cur.chBuf, cur.file
    {
      cur.chBuf[..][cBufP := hold]
    }

    // What is still to be scanned: the rest of the buffer, then the rest of the file.
    ghost function Rest(): seq<Byte>
      requires Valid()
      reads this, cur, cur.chBuf, cur.file
    {
      Held()[cBufP..nChars] + cur.file.rest
    }

    // During a match that starts at bp: the buffer from bp on and the rest of the file
    // are the text.
    ghost predicate Loaded(bp: nat, text: seq<Byte>)
      reads this`start, this`cur, this`nChars, cur, cur.chBuf, cur.file
    {
      && Shaped() && bp <= nChars && nChars - bp <= |text|
      && cur.chBuf[nChars] == YY_END_OF_BUFFER_CHAR && cur.chBuf[nChars + 1] == YY_END_OF_BUFFER_CHAR
      && (forall i :: 0 <= i < nChars - bp ==> cur.chBuf[bp + i] == text[i])
      && cur.file.rest == text[nChars - bp..]
    }

    // The initialization in yylex: yy_create_buffer and yy_load_buffer_state.
    constructor (g: Scanner, file: InputFile, size: nat)
      requires size > 0
      ensures this.g == g && start == 1 && Valid() && Rest() == file.rest
      ensures fresh(cur) && fresh(cur.chBuf) && cur.file == file
    {
      var b := new Buffer(file, size);
      this.g, start, cur := g, 1, b;
      nChars, cBufP, textPtr, hold := b.nChars, b.bufPos, b.bufPos, b.chBuf[b.bufPos];
      leng, lastState, lastPos := 0, 0, 0;
    }

    // The innermost loop: follows the fallback chain.
    method NextState(s0: nat, c0: nat) returns (s: nat)
      requires IsState(g, s0) && c0 < Classes(g)
      ensures s == Successor(g, s0, c0)
    {
      hide Base, Chk, Def, Meta, Nxt, Rank;
      s := s0;
      var c: nat := c0;
      RowBounds(g, s);
      while Chk(g, Base(g, s) + c) != s
        invariant IsRow(g, s) && c < Classes(g) && Base(g, s) + Classes(g) <= Entries(g)
        invariant Successor(g, s, c) == Successor(g, s0, c0)
        decreases Rank(g, s)
      {
        JamRow(g, c);
        FallbackFalls(g, s);
        ClassBounds(g, 0, c);
        s := Def(g, s);
        if s > Jam(g) {
          c := Meta(g, c);
        }
        RowBounds(g, s);
      }
      s := Nxt(g, Base(g, s) + c);
    }

    // The loop condition of yy_match: one scanner stops at any state without
    // transitions, the other one only when it has jammed.
    predicate Stops(s: nat)
      requires IsState(g, s)
    {
      if g.ScoutScanner? then Base(g, s) == Base(g, Jam(g)) else s == Jam(g)
    }

    // yy_match
    method RunMatch(bp: nat, cp0: nat, s0: nat, ghost text: seq<Byte>) returns (cp: nat, s: nat, ghost eob: bool)
      requires Loaded(bp, text) && bp <= cp0 <= nChars
      requires s0 == StateAt(g, start, text, cp0 - bp) && LastKnown(g, start, text, bp, cp0 - bp, lastState, lastPos)
      modifies this`lastState, this`lastPos
      ensures IsState(g, s) && bp <= cp
      ensures eob ==> s == Jam(g) && lastState == EobState(g) && cp0 < lastPos <= nChars + 1
                      && cur.chBuf[lastPos - 1] == YY_END_OF_BUFFER_CHAR
      ensures !eob ==> bp < cp <= nChars && s == StateAt(g, start, text, cp - bp) && Stops(s)
                       && LastKnown(g, start, text, bp, cp - bp, lastState, lastPos)
    {
      hide Successor, Base, Accept, Ec, LastKnown, StateAt;
      cp, s, eob := cp0, s0, false;
      var again := true; // do ... while
      while again
        invariant IsState(g, s) && bp <= cp
        invariant !eob ==>
                    && cp0 <= cp <= nChars && s == StateAt(g, start, text, cp - bp)
                    && LastKnown(g, start, text, bp, cp - bp, lastState, lastPos)
        invariant !again ==> Stops(s)
        invariant !eob && !again ==> bp < cp
        invariant eob && s != Jam(g) ==> cp0 < cp <= nChars + 1
        invariant eob && s != Jam(g) ==> s == EobState(g) && again && cur.chBuf[cp - 1] == YY_END_OF_BUFFER_CHAR
        invariant eob && s == Jam(g) ==> lastState == EobState(g) && cp0 < lastPos <= nChars + 1 && !again
                                         && cur.chBuf[lastPos - 1] == YY_END_OF_BUFFER_CHAR
        decreases again, nChars + 2 - cp
      {
        var c := Ec(g, cur.chBuf[cp]);
        ClassBounds(g, cur.chBuf[cp], 1);
        Accepting(g, s);
        SuccessorIsState(g, s, c);
        EobJams(g, c);
        EobGoesOn();
        if !eob && c != 0 {
          ConsumesByte(g, start, text, bp, cp - bp, lastState, lastPos);
        }
        if s != EobState(g) && c == 0 {
          eob := true;
        }
        if Accept(g, s) != 0 {
          lastState, lastPos := s, cp;
        }
        s := NextState(s, c);
        cp := cp + 1;
        again := !Stops(s);
      }
    }

    // The end-of-buffer state does not end the loop: it reads one more byte.
    lemma EobGoesOn()
      ensures IsState(g, EobState(g)) && !Stops(EobState(g)) && IsState(g, Jam(g)) && Stops(Jam(g))
    {
      EobRow(g, 0);
      if Base(g, EobState(g)) == Base(g, Jam(g)) {
        DeadRow(g, EobState(g));
      }
    }

    // yy_get_previous_state: the state just before yy_c_buf_p.
    method GetPreviousState(ghost text: seq<Byte>) returns (s: nat)
      requires Loaded(textPtr, text) && textPtr <= cBufP <= nChars
      modifies this`lastState, this`lastPos
      ensures s == StateAt(g, start, text, cBufP - textPtr)
      ensures LastKnown(g, start, text, textPtr, cBufP - textPtr, lastState, lastPos)
    {
      hide Successor, Accept, Ec;
      s := start;
      var cp := textPtr;
      while cp < cBufP
        invariant textPtr <= cp <= cBufP && s == StateAt(g, start, text, cp - textPtr)
        invariant LastKnown(g, start, text, textPtr, cp - textPtr, lastState, lastPos)
      {
        hide LastKnown, StateAt;
        var b := cur.chBuf[cp];
        var c := if b != 0 then Ec(g, b) else 1;
        ClassBounds(g, b, 1);
        assert b == text[cp - textPtr];
        ConsumesByte(g, start, text, textPtr, cp - textPtr, lastState, lastPos);
        if Accept(g, s) != 0 {
          lastState, lastPos := s, cp;
        }
        s := NextState(s, c);
        cp := cp + 1;
      }
    }

    // yy_try_NUL_trans: the transition on a NUL byte, 0 if it jams.
    method TryNulTrans(s: nat) returns (t: nat)
      requires IsState(g, s)
      modifies this`lastState, this`lastPos
      ensures t == if Step(g, s, 0) == Jam(g) then 0 else Step(g, s, 0)
      ensures lastState == if Accept(g, s) != 0 then s else old(lastState)
      ensures lastPos == if Accept(g, s) != 0 then cBufP else old(lastPos)
    {
      hide Successor, Accept;
      if Accept(g, s) != 0 {
        lastState, lastPos := s, cBufP;
      }
      ClassBounds(g, 0, 1);
      t := NextState(s, 1);
      if t == Jam(g) {
        t := 0;
      }
    }

    // Moves the last n bytes before the end-of-buffer characters to the front.
    method MoveToFront(n: nat)
      requires textPtr + n <= cur.chBuf.Length
      modifies cur.chBuf
      ensures cur.chBuf[..n] == old(cur.chBuf[textPtr..textPtr + n])
    {
      var i := 0;
      while i < n
        invariant i <= n
        invariant cur.chBuf[..i] == old(cur.chBuf[textPtr..textPtr + i])
        invariant forall j :: i + textPtr <= j < cur.chBuf.Length ==> cur.chBuf[j] == old(cur.chBuf[j])
      {
        cur.chBuf[i] := cur.chBuf[textPtr + i];
        assert cur.chBuf[..i + 1] == cur.chBuf[..i] + [cur.chBuf[i]];
        i := i + 1;
      }
    }

    // Doubles the buffer until there is room behind its first n bytes.
    method MakeRoom(n: nat)
      requires cur.bufSize > 0 && cur.chBuf.Length == cur.bufSize + 2 && n <= cur.bufSize
      modifies cur`chBuf, cur`bufSize
      ensures cur.bufSize > n + 1 && cur.chBuf.Length == cur.bufSize + 2
      ensures cur.chBuf == old(cur.chBuf) || fresh(cur.chBuf)
      ensures cur.chBuf[..n] == old(cur.chBuf[..n])
    {
      var numToRead := cur.bufSize - n - 1;
      while numToRead <= 0
        invariant cur.bufSize > 0 && cur.chBuf.Length == cur.bufSize + 2 && n <= cur.bufSize
        invariant numToRead == cur.bufSize - n - 1
        invariant cur.chBuf == old(cur.chBuf) || fresh(cur.chBuf)
        invariant cur.chBuf[..n] == old(cur.chBuf[..n])
        decreases n + 1 - cur.bufSize
      {
        var size := cur.bufSize * 2;
        var old_ := cur.chBuf;
        // yyrealloc keeps what was there
        var chBuf := new Byte[size + 2](i requires 0 <= i reads old_ => if i < old_.Length then old_[i] else 0);
        assert chBuf[..n] == old_[..n];
        cur.chBuf, cur.bufSize := chBuf, size;
        numToRead := cur.bufSize - n - 1;
      }
    }

    // The read of yy_get_next_buffer: bytes from the file behind the first n.
    method ReadBehind(n: nat)
      requires cur.bufSize > n + 1 && cur.chBuf.Length == cur.bufSize + 2
      modifies this`nChars, cur`nChars, cur.chBuf, cur.file
      ensures cur.chBuf[..n] == old(cur.chBuf[..n])
      ensures nChars == cur.nChars && n + nChars < cur.bufSize
      ensures old(cur.file.rest) == cur.chBuf[n..n + nChars] + cur.file.rest
      ensures old(cur.file.rest) != [] ==> nChars > 0
    {
      var numToRead := cur.bufSize - n - 1;
      if numToRead > YY_READ_BUF_SIZE {
        numToRead := YY_READ_BUF_SIZE;
      }
      ghost var front := cur.chBuf[..n];
      var chunk := cur.file.Read(numToRead);
      forall i | 0 <= i < |chunk| {
        cur.chBuf[n + i] := chunk[i];
      }
      assert cur.chBuf[n..n + |chunk|] == chunk;
      assert cur.chBuf[..n] == front;
      nChars := |chunk|;
      cur.nChars := nChars;
    }

    // The first half of yy_get_next_buffer: what was scanned moves to the front, and a
    // read follows it, unless the file is known to have ended.
    method Fill(n: nat, ghost text: seq<Byte>)
      requires Loaded(textPtr, text) && n == nChars - textPtr
      modifies this`nChars, cur, cur.chBuf, cur.file
      ensures cur.chBuf == old(cur.chBuf) || fresh(cur.chBuf)
      ensures cur.file == old(cur.file) && cur.status == old(cur.status)
      ensures cur.bufSize > 0 && cur.chBuf.Length == cur.bufSize + 2 && n + nChars <= cur.bufSize
      ensures text == cur.chBuf[..n + nChars] + cur.file.rest
      ensures nChars == 0 ==> cur.file.rest == [] && |text| == n
      ensures nChars == |old(cur.file.rest)| - |cur.file.rest|
    {
      assert text[..n] == cur.chBuf[textPtr..textPtr + n];
      MoveToFront(n);
      if cur.status == EofPending {
        cur.nChars, nChars := 0, 0;
      } else {
        MakeRoom(n);
        ReadBehind(n);
      }
      JoinsText(cur.chBuf[..], n, nChars, text, cur.file.rest);
    }

    // yy_get_next_buffer: nothing of the text is lost, whatever the read delivers. The
    // branch that grows the array by half is never needed: a read never delivers more
    // than there is room for.
    method GetNextBuffer(ghost text: seq<Byte>) returns (r: Refill)
      requires Loaded(textPtr, text) && cBufP == nChars + 1 && cur.status != New
      modifies this`nChars, this`cBufP, this`textPtr, this`hold, cur, cur.chBuf, cur.file
      ensures cur.chBuf == old(cur.chBuf) || fresh(cur.chBuf)
      ensures cur.file == old(cur.file)
      ensures textPtr == 0 && nChars <= |text| && Loaded(0, text)
      ensures r == EndOfFile <==> text == []
      ensures r == EndOfFile ==> Valid() && Rest() == [] && cBufP == textPtr
      ensures r == ContinueScan ==> |cur.file.rest| < old(|cur.file.rest|) && nChars > old(nChars - textPtr)
      ensures r == LastMatch ==> nChars == |text| && cur.file.rest == old(cur.file.rest) == []
    {
      var numberToMove := cBufP - textPtr - 1;
      Fill(numberToMove, text);
      if nChars == 0 {
        if numberToMove == 0 {
          r := EndOfFile;
          Restart();
        } else {
          r := LastMatch;
          cur.status := EofPending;
        }
      } else {
        r := ContinueScan;
      }
      Seal(nChars + numberToMove, text);
    }

    // The second half: the sentinels go behind the text.
    method Seal(n: nat, ghost text: seq<Byte>)
      requires IsStart(g, start) && cur.bufSize > 0 && cur.chBuf.Length == cur.bufSize + 2 && n <= cur.bufSize
      requires text == cur.chBuf[..n] + cur.file.rest
      requires cur.status == EofPending ==> cur.file.rest == []
      requires cur.status == New ==> cur.nChars == n == 0
      modifies this`nChars, this`textPtr, cur.chBuf
      ensures textPtr == 0 && nChars == n && Loaded(0, text)
    {
      ghost var kept := cur.chBuf[..n];
      nChars := n;
      cur.chBuf[nChars] := YY_END_OF_BUFFER_CHAR;
      cur.chBuf[nChars + 1] := YY_END_OF_BUFFER_CHAR;
      textPtr := 0;
      assert cur.chBuf[..n] == kept;
      assert forall i :: 0 <= i < n ==> cur.chBuf[i] == kept[i] == text[i];
      assert text[n..] == cur.file.rest;
    }

    // yyrestart: yy_flush_buffer and yy_load_buffer_state.
    method Restart()
      requires cur.chBuf.Length >= 2
      modifies this`nChars, this`cBufP, this`textPtr, this`hold, cur`nChars, cur`bufPos, cur`status, cur.chBuf
      ensures cur.Flushed() && nChars == cBufP == textPtr == 0 && hold == YY_END_OF_BUFFER_CHAR
    {
      cur.nChars := 0;
      cur.chBuf[0], cur.chBuf[1] := YY_END_OF_BUFFER_CHAR, YY_END_OF_BUFFER_CHAR;
      cur.bufPos, cur.status := 0, New;
      nChars, cBufP, textPtr := cur.nChars, cur.bufPos, cur.bufPos;
      hold := cur.chBuf[cBufP];
    }

    // YY_DO_BEFORE_ACTION: yytext is cut off with a NUL byte.
    method CutText(bp: nat, cp: nat)
      requires Shaped() && bp <= cp <= nChars + 1
      modifies this`textPtr, this`leng, this`hold, this`cBufP, cur.chBuf
      ensures textPtr == bp && leng == cp - bp && cBufP == cp && Shaped()
      ensures old(cur.chBuf[..]) == cur.chBuf[..][cp := hold] && cur.chBuf[bp..cp] == old(cur.chBuf[..])[bp..cp]
    {
      ghost var was := cur.chBuf[..];
      textPtr, leng := bp, cp - bp;
      hold := cur.chBuf[cp];
      cur.chBuf[cp] := 0;
      cBufP := cp;
      assert was == cur.chBuf[..][cp := hold];
    }

    method BeforeAction(bp: nat, cp: nat, ghost text: seq<Byte>)
      requires Loaded(bp, text) && bp <= cp <= nChars + 1
      modifies this`textPtr, this`leng, this`hold, this`cBufP, cur.chBuf
      ensures textPtr == bp && leng == cp - bp && cBufP == cp
      ensures old(cur.chBuf[..]) == cur.chBuf[..][cp := hold] && Shaped()
      ensures cp <= nChars ==> Valid() && Rest() == text[leng..] && Text() == text[..leng]
    {
      ghost var was := cur.chBuf[..];
      SplitsText(was, bp, cp, nChars, text, cur.file.rest);
      assert was[nChars] == YY_END_OF_BUFFER_CHAR && was[nChars + 1] == YY_END_OF_BUFFER_CHAR;
      hide Loaded;
      CutText(bp, cp);
      assert cp <= nChars ==> Held() == was;
    }

    // The lexeme: yytext with yyleng bytes.
    ghost function Text(): seq<Byte>
      requires Valid() && textPtr + leng == cBufP
      reads this, cur, cur.chBuf, cur.file
    {
      cur.chBuf[textPtr..cBufP]
    }

    // Stopping means that no longer prefix matches.
    lemma StopsMeans(text: seq<Byte>, n: nat)
      requires IsStart(g, start) && n <= |text| && Stops(StateAt(g, start, text, n))
      ensures NoneLonger(g, start, text, n)
    {
      if StateAt(g, start, text, n) == Jam(g) {
        JammedEnds(g, start, text, n);
      } else {
        DeadEnds(g, start, text, n);
      }
    }

    // Where the match ends: here if the state accepts, else at the last accepting one.
    lemma PicksLongest(text: seq<Byte>, bp: nat, n: nat)
      requires IsStart(g, start) && 0 < n <= |text| && NoneLonger(g, start, text, n)
      requires RuleAt(g, start, text, n) == 0 ==> LastKnown(g, start, text, bp, n, lastState, lastPos)
      ensures RuleAt(g, start, text, n) != 0 ==> IsMunch(g, start, text, n, RuleAt(g, start, text, n))
      ensures RuleAt(g, start, text, n) == 0 ==>
                && bp < lastPos < bp + n && lastState == StateAt(g, start, text, lastPos - bp)
                && IsMunch(g, start, text, lastPos - bp, Accept(g, lastState))
    {
      hide StateAt;
      FirstByteMatches(g, start, text);
      if RuleAt(g, start, text, n) == 0 {
        var m := lastPos - bp;
        assert n > 1;
        assert forall j :: m < j <= |text| ==> RuleAt(g, start, text, j) == 0;
      }
    }

    // A match in progress at bp: s is the state before position cp. With matching set,
    // yy_match goes on from here; otherwise no prefix longer than cp - bp matches.
    ghost predicate InMatch(bp: nat, cp: nat, s: nat, matching: bool, text: seq<Byte>)
      reads this, cur, cur.chBuf, cur.file
    {
      && Loaded(bp, text) && bp <= cp <= nChars && s == StateAt(g, start, text, cp - bp)
      && (matching || Accept(g, s) == 0 ==> LastKnown(g, start, text, bp, cp - bp, lastState, lastPos))
      && (!matching ==> bp < cp && NoneLonger(g, start, text, cp - bp))
    }

    // yy_match and yy_find_action, up to do_action or YY_END_OF_BUFFER.
    method FindAction(bp: nat, cp0: nat, s0: nat, matching: bool, ghost text: seq<Byte>) returns (act: nat)
      requires InMatch(bp, cp0, s0, matching, text)
      modifies this`lastState, this`lastPos, this`textPtr, this`leng, this`hold, this`cBufP, cur.chBuf
      ensures textPtr == bp && cBufP == bp + leng
      ensures act != EndOfBuffer(g) ==>
                && 0 < leng <= |text| && Valid() && Rest() == text[leng..] && Text() == text[..leng]
                && IsMunch(g, start, text, leng, act)
      ensures act == EndOfBuffer(g) ==>
                && matching && cp0 < cBufP <= nChars + 1 && Loaded(bp, text)
                && cur.chBuf[cBufP - 1] == YY_END_OF_BUFFER_CHAR
    {
      hide StateAt, Stops, Accept, LastKnown, NoneLonger, IsMunch, RuleAt, EndOfBuffer, Jam, EobState;
      var cp, s := cp0, s0;
      ghost var eob := false;
      if matching {
        cp, s, eob := RunMatch(bp, cp, s, text);
      }
      cp, act := BackUp(bp, cp, s, eob, text);
      if act == EndOfBuffer(g) {
        EnterEndOfBuffer(bp, cp, text);
      } else {
        BeforeAction(bp, cp, text);
      }
    }

    // YY_DO_BEFORE_ACTION and case YY_END_OF_BUFFER, which undoes its effect on the
    // buffer.
    method EnterEndOfBuffer(bp: nat, cp: nat, ghost text: seq<Byte>)
      requires Loaded(bp, text) && bp < cp <= nChars + 1
      modifies this`textPtr, this`leng, this`hold, this`cBufP, cur.chBuf
      ensures textPtr == bp && leng == cp - bp && cBufP == cp && Loaded(bp, text)
      ensures cur.chBuf[cp - 1] == old(cur.chBuf[cp - 1])
    {
      ghost var was := cur.chBuf[..];
      assert HoldsText(was, nChars, bp, text, cur.file.rest);
      hide Loaded, HoldsText;
      CutText(bp, cp);
      cur.chBuf[cp] := hold;
      assert cur.chBuf[..] == was;
      assert Loaded(bp, text) by { StillLoaded(bp, text); }
      assert cur.chBuf[cp - 1] == cur.chBuf[..][cp - 1];
    }

    lemma StillLoaded(bp: nat, text: seq<Byte>)
      requires Shaped() && HoldsText(cur.chBuf[..], nChars, bp, text, cur.file.rest)
      ensures Loaded(bp, text)
    {
      var buf := cur.chBuf[..];
      assert forall i :: 0 <= i < |buf| ==> cur.chBuf[i] == buf[i];
    }

    // yy_find_action: backs up to the last accepting state if this one does not accept.
    method BackUp(bp: nat, cp0: nat, s: nat, ghost eob: bool, ghost text: seq<Byte>) returns (cp: nat, act: nat)
      requires IsStart(g, start) && IsState(g, s) && bp <= cp0
      requires eob ==> s == Jam(g) && lastState == EobState(g)
      requires !eob ==>
                 && bp < cp0 && cp0 - bp <= |text| && s == StateAt(g, start, text, cp0 - bp)
                 && (Accept(g, s) == 0 ==> LastKnown(g, start, text, bp, cp0 - bp, lastState, lastPos))
                 && (Stops(s) || NoneLonger(g, start, text, cp0 - bp))
      ensures eob ==> cp == lastPos && act == EndOfBuffer(g)
      ensures !eob ==> bp < cp <= cp0 && cp - bp <= |text| && act != EndOfBuffer(g) && IsMunch(g, start, text, cp - bp, act)
    {
      hide StateAt, Stops, Accept, LastKnown, NoneLonger, IsMunch, EndOfBuffer;
      if !eob {
        if Stops(s) {
          StopsMeans(text, cp0 - bp);
        }
        PicksLongest(text, bp, cp0 - bp);
      }
      Accepting(g, s);
      EobJams(g, 0);
      cp, act := cp0, Accept(g, s);
      if act == 0 {
        Accepting(g, lastState);
        cp, act := lastPos, Accept(g, lastState);
      }
    }

    // The rest of case YY_END_OF_BUFFER: a real NUL byte is scanned like any other; at
    // the end of the buffer the match resumes after a refill, or ends with the file.
    method OnEndOfBuffer(ghost text: seq<Byte>) returns (bp: nat, cp: nat, s: nat, matching: bool, eof: bool)
      requires Loaded(textPtr, text) && textPtr < cBufP <= nChars + 1
      requires cur.chBuf[cBufP - 1] == YY_END_OF_BUFFER_CHAR
      modifies this`lastState, this`lastPos, this`textPtr, this`hold, this`cBufP, this`nChars
      modifies cur, cur.chBuf, cur.file
      ensures cur.chBuf == old(cur.chBuf) || fresh(cur.chBuf)
      ensures cur.file == old(cur.file)
      ensures eof ==> text == [] && Valid() && Rest() == []
      ensures !eof ==> text != [] && InMatch(bp, cp, s, matching, text) && bp <= cp && cp - bp <= |text|
      ensures !eof && matching ==>
                |cur.file.rest| < |old(cur.file.rest)|
                || (cur.file.rest == old(cur.file.rest) && cp - bp == old(cBufP - textPtr))
      ensures !eof && !matching ==> cur.file.rest == old(cur.file.rest)
    {
      hide InMatch, Valid, Rest;
      var amount := cBufP - textPtr - 1;
      MarkNormal(text);
      eof := false;
      if cBufP <= nChars {
        assert text != [];
        cBufP := textPtr + amount;
        s, matching := ScanNul(text);
        bp, cp := textPtr, cBufP;
        if !matching && g.SilasScanner? {
          cp, s := lastPos, lastState;
        }
      } else {
        cp, s, matching, eof := AfterRefill(amount, text);
        bp := textPtr;
      }
    }

    // A buffer that has just been switched to becomes an ordinary one.
    method MarkNormal(ghost text: seq<Byte>)
      requires Loaded(textPtr, text)
      modifies this`nChars, cur`status
      ensures Loaded(textPtr, text) && nChars == old(nChars) && cur.status != New
    {
      if cur.status == New {
        nChars := cur.nChars;
        cur.status := Normal;
      }
    }

    // The switch on the result of yy_get_next_buffer.
    method AfterRefill(amount: nat, ghost text: seq<Byte>) returns (cp: nat, s: nat, matching: bool, eof: bool)
      requires Loaded(textPtr, text) && cBufP == nChars + 1 && amount == nChars - textPtr && cur.status != New
      modifies this`lastState, this`lastPos, this`textPtr, this`hold, this`cBufP, this`nChars
      modifies cur, cur.chBuf, cur.file
      ensures cur.chBuf == old(cur.chBuf) || fresh(cur.chBuf)
      ensures cur.file == old(cur.file)
      ensures eof ==> text == [] && Valid() && Rest() == []
      ensures !eof ==> text != [] && InMatch(textPtr, cp, s, matching, text) && textPtr <= cp && cp - textPtr <= |text|
      ensures !eof && matching ==> |cur.file.rest| < |old(cur.file.rest)|
      ensures !eof && !matching ==> cur.file.rest == old(cur.file.rest)
    {
      hide InMatch, Valid, Rest;
      var r := GetNextBuffer(text);
      eof, matching := r == EndOfFile, r == ContinueScan;
      cp, s := textPtr, start; // after yyrestart yy_c_buf_p is at yytext already
      if !eof {
        cp := if matching then textPtr + amount else nChars;
        s := Reposition(cp, matching, text);
      }
    }

    // Goes back to position p of the match, recomputing the state there.
    method Reposition(p: nat, matching: bool, ghost text: seq<Byte>) returns (s: nat)
      requires IsStart(g, start) && Loaded(textPtr, text) && textPtr <= p <= nChars
      requires !matching ==> textPtr < p == nChars && |text| == nChars - textPtr
      modifies this`lastState, this`lastPos, this`cBufP
      ensures cBufP == p && InMatch(textPtr, p, s, matching, text)
    {
      hide StateAt, Accept, RuleAt, LastKnown, NoneLonger, Shaped;
      cBufP := p;
      s := GetPreviousState(text);
      NoneLongerAtEnd(text);
    }

    lemma NoneLongerAtEnd(text: seq<Byte>)
      requires IsStart(g, start)
      ensures NoneLonger(g, start, text, |text|)
    {}

    // The byte under yy_c_buf_p returns to the buffer.
    method Begin(ghost text: seq<Byte>)
      requires Valid() && text == Rest()
      modifies cur.chBuf
      ensures InMatch(cBufP, cBufP, start, true, text)
    {
      ghost var held := Held();
      cur.chBuf[cBufP] := hold;
      assert cur.chBuf[..] == held;
      assert forall i :: 0 <= i < |held| ==> cur.chBuf[i] == held[i];
      assert text[nChars - cBufP..] == cur.file.rest;
      StartsMatch(text);
    }

    // yylex from the end of one lexeme to the next action: for every sequence of reads
    // the outcome is maximal munch on the whole rest of the input.
    method NextMatch() returns (m: Match)
      requires Valid()
      modifies this`lastState, this`lastPos, this`textPtr, this`leng, this`hold, this`cBufP, this`nChars
      modifies cur, cur.chBuf, cur.file
      ensures cur.chBuf == old(cur.chBuf) || fresh(cur.chBuf)
      ensures cur.file == old(cur.file) && Valid()
      ensures old(Rest()) == [] ==> m == Eof && Rest() == []
      ensures old(Rest()) != [] ==>
                && m.Rule? && textPtr + leng == cBufP && IsMunch(g, start, old(Rest()), leng, m.act)
                && Text() == old(Rest())[..leng] && Rest() == old(Rest())[leng..]
    {
      hide IsMunch, EndOfBuffer, InMatch, Valid, Rest, Text, Shaped;
      ghost var text := Rest();
      Begin(text);
      var cp: nat, bp: nat, s: nat, matching := cBufP, cBufP, start, true;
      while true
        invariant InMatch(bp, cp, s, matching, text)
        invariant cur.chBuf == old(cur.chBuf) || fresh(cur.chBuf)
        invariant cur.file == old(cur.file)
        invariant bp <= cp && cp - bp <= |text|
        decreases |cur.file.rest|, matching, |text| - (cp - bp)
      {
        var act := FindAction(bp, cp, s, matching, text);
        if act != EndOfBuffer(g) {
          return Rule(act);
        }
        var eof;
        bp, cp, s, matching, eof := OnEndOfBuffer(text);
        if eof {
          return Eof;
        }
      }
    }

    // At a real NUL byte under yy_c_buf_p: goes on behind it, or stops before it.
    method ScanNul(ghost text: seq<Byte>) returns (s: nat, matching: bool)
      requires Loaded(textPtr, text) && textPtr <= cBufP < nChars && cur.chBuf[cBufP] == 0
      modifies this`lastState, this`lastPos, this`cBufP
      ensures cBufP - textPtr <= |text|
      ensures matching ==> cBufP == old(cBufP) + 1 && InMatch(textPtr, cBufP, s, true, text)
      ensures !matching ==>
                && cBufP == old(cBufP) && InMatch(textPtr, cBufP, s, false, text)
                && textPtr < lastPos <= cBufP && InMatch(textPtr, lastPos, lastState, false, text)
    {
      hide StateAt, Accept, Step, NoneLonger, Jam, RuleAt;
      var n := cBufP - textPtr;
      assert text[n] == 0;
      s := GetPreviousState(text);
      ConsumesByte(g, start, text, textPtr, n, lastState, lastPos);
      var t := TryNulTrans(s);
      matching := t != 0;
      if matching {
        cBufP := cBufP + 1;
        s := t;
      } else {
        NulJams(text, textPtr, n, lastState, lastPos);
      }
    }

    // When the NUL byte after the first n bytes jams, the match ends among those.
    lemma NulJams(text: seq<Byte>, bp: nat, n: nat, ls: nat, lp: nat)
      requires IsStart(g, start) && n < |text| && StateAt(g, start, text, n + 1) == Jam(g)
      requires LastKnown(g, start, text, bp, n + 1, ls, lp)
      ensures n > 0 && NoneLonger(g, start, text, n)
      ensures bp < lp <= bp + n && ls == StateAt(g, start, text, lp - bp) && Accept(g, ls) != 0
      ensures NoneLonger(g, start, text, lp - bp)
    {
      hide StateAt, Accept, Jam;
      JammedEnds(g, start, text, n + 1);
      FirstByteMatches(g, start, text);
      assert RuleAt(g, start, text, n + 1) == 0;
      assert n > 0;
      assert forall j :: 0 <= j <= |text| && j > lp - bp ==> RuleAt(g, start, text, j) == 0;
    }

    lemma StartsMatch(text: seq<Byte>)
      requires IsStart(g, start)
      ensures StateAt(g, start, text, 0) == start && LastKnown(g, start, text, cBufP, 0, lastState, lastPos)
    {}

    // yy_switch_to_buffer: the current buffer keeps its place and the held byte.
    method SwitchTo(b: Buffer)
      requires Valid() && b.Suspended() && b != cur && b.chBuf != cur.chBuf
      modifies this`cur, this`nChars, this`textPtr, this`hold, this`cBufP
      modifies cur`bufPos, cur`nChars, cur.chBuf
      ensures cur == b && Valid() && Rest() == old(b.Unread())
      ensures old(cur).Suspended() && old(cur).Unread() == old(Rest())
      ensures old(cur).chBuf == old(cur.chBuf) && old(cur).file == old(cur.file)
    {
      ghost var held := Held();
      cur.chBuf[cBufP] := hold;
      assert cur.chBuf[..] == held;
      cur.bufPos, cur.nChars := cBufP, nChars;
      Load(b);
    }

    // yy_load_buffer_state for a buffer that becomes current; also what is left of
    // yy_switch_to_buffer after yy_delete_buffer has removed the current buffer.
    method Load(b: Buffer)
      requires IsStart(g, start) && b.Suspended()
      modifies this`cur, this`nChars, this`textPtr, this`hold, this`cBufP
      ensures cur == b && Valid() && Rest() == b.Unread()
    {
      cur := b;
      nChars, textPtr, cBufP := b.nChars, b.bufPos, b.bufPos;
      hold := b.chBuf[cBufP];
      assert Held() == b.chBuf[..];
    }
  }
}
