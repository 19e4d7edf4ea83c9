/** The generated scanner: yylex over a buffer that is refilled, shifted and enlarged in
    the middle of a token.  However the input arrives, its matches are those of Lexing, and
    thereby those that the patterns of LexRules give. */
module Scanner {
  import opened ScanTables
  import opened Lexing
  import opened LexRules
  import Patterns

  // YY_BUF_SIZE and YY_READ_BUF_SIZE
  const BUF_SIZE: nat := 16384
  const READ_BUF_SIZE: nat := 8192

  datatype Status = New | Normal | EofPending
  datatype Refill = EndOfFile | ContinueScan | LastMatch

  // ---------------------------------------------------------------- the remembered match

  /** (state, cpos) is the longest accepted non-empty prefix among the first k bytes of a
      text that starts at position `start`; any pair will do if there is none. */
  ghost predicate Remembers(text: Text, k: nat, start: nat, state: nat, cpos: nat)
    requires k <= |text|
  {
    var n := Longest(text, k);
    n > 0 ==> cpos == start + n && state == Run(text[..n])
  }

  lemma {:induction false} LongestOfPrefix(v: Text, w: Text, k: nat)
    requires k <= |v| <= |w| && v == w[..|v|]
    ensures Longest(v, k) == Longest(w, k)
  {
    hide Rule;
    if k > 0 {
      assert v[..k] == w[..k];
      LongestOfPrefix(v, w, k - 1);
    }
  }

  /** Remembering the current state when it accepts. */
  lemma RememberCurrent(text: Text, start: nat, state: nat, cpos: nat, state': nat, cpos': nat)
    requires |text| > 0 ==> Remembers(text, |text| - 1, start, state, cpos)
    requires if Rule(text) != 0 then state' == Run(text) && cpos' == start + |text|
             else state' == state && cpos' == cpos
    ensures Remembers(text, |text|, start, state', cpos')
  {
    assert text[..|text|] == text;
  }

  lemma RememberMore(v: Text, w: Text, k: nat, start: nat, state: nat, cpos: nat)
    requires k <= |v| <= |w| && v == w[..|v|] && Remembers(v, k, start, state, cpos)
    ensures Remembers(w, k, start, state, cpos)
  {
    hide Longest, Run;
    LongestOfPrefix(v, w, k);
    var n := Longest(w, k);
    assert v[..n] == w[..n];
  }

  /** The action found after `text`, when nothing longer can be accepted in w, is the
      longest match of w. */
  lemma ActionFound(w: Text, text: Text)
    requires 0 < |text| <= |w| && text == w[..|text|]
    requires forall j {:trigger w[..j]} | |text| < j <= |w| :: Rule(w[..j]) == 0
    ensures IsLongestMatch(w, Longest(text, |text|))
    ensures Rule(text) != 0 ==> Longest(text, |text|) == |text|
    ensures Rule(text) == 0 ==> |text| > 1 && Longest(text, |text|) == Longest(text, |text| - 1) > 0
  {
    LongestOfPrefix(text, w, |text|);
    LongestIs(w, |text|);
    OneByteMatches(w[..1]);
    assert text[..|text|] == text;
    if |text| == 1 {
      assert text == w[..1];
    }
  }

  /** Where scanning goes on after the end-of-buffer action. */
  datatype Resume = AtMatch | AtFindAction | AtEof

  /** The inner loop of yy_match: follow yy_def until yy_chk confirms the entry. */
  method NextState(state: nat, column: nat) returns (s: nat)
    requires 0 < state < 38 && column < 14
    ensures s == Walk(state, column)
  {
    s := state;
    var c := column;
    while YyChk(YyBase(s) + c) != s
      invariant 0 < s < 38 && c < 14 && Walk(s, c) == Walk(state, column)
      decreases Depth(s)
    {
      WalkOnce(s, c);
      if s == JAM {
        JamRow(c);
      }
      s := YyDef(s);
      if s >= 34 {
        c := YyMeta(c);
      }
    }
    s := YyNxt(YyBase(s) + c);
  }

  lemma RulesOfText(w: Text)
    ensures Rule(w) < YY_END_OF_BUFFER && (Run(w) == JAM || Proper(Run(w)))
    ensures Run(w) == JAM ==> Rule(w) == 0
  {
    RunProper(w);
  }

  lemma PrefixProper(w: Text, k: nat)
    requires k <= |w| && Proper(Run(w))
    ensures Proper(Run(w[..k]))
  {
    RunProper(w[..k]);
    if Run(w[..k]) == JAM {
      JamIsForEver(w, k);
    }
  }

  // ---------------------------------------------------------------- the scanner

  /** The text from `from` on, cut at cp. */
  lemma CutAt(bytes: Text, from: nat, cp: nat, n: nat, more: Text)
    requires from <= cp <= n <= |bytes|
    ensures (bytes[from..n] + more)[..cp - from] == bytes[from..cp]
    ensures (bytes[from..n] + more)[cp - from..] == bytes[cp..n] + more
  {
  }

  class Scanner {
    var chBuf: array<Byte>          // yy_ch_buf
    var bufSize: nat                // yy_buf_size: room for text, without the two end-of-buffer bytes
    var nChars: nat                 // yy_n_chars
    var bufferNChars: nat           // yy_n_chars of the buffer structure
    var cBufP: nat                  // yy_c_buf_p
    var textPtr: nat                // yytext_ptr
    var yyleng: nat
    var holdChar: Byte
    var lastState: nat              // yy_last_accepting_state
    var lastCpos: nat               // yy_last_accepting_cpos
    var yylineno: nat
    var status: Status
    var input: Text                 // what YY_INPUT has not delivered yet
    var log: seq<Match>             // the actions executed, each with its yytext

    ghost predicate Buffer()
      reads this`chBuf, this`bufSize, this`nChars, this`bufferNChars, this`status, this`input
    {
      && chBuf.Length == bufSize + 2 && 0 < bufSize && nChars <= bufSize
      && (status == EofPending ==> input == [])
      && (status == New ==> bufferNChars == nChars)
    }

    /** The buffer while a token is being scanned: nothing overwritten. */
    ghost predicate Scanning()
      reads this`chBuf, this`bufSize, this`nChars, this`bufferNChars, this`status, this`input
      reads this`textPtr, chBuf
    {
      Buffer() && chBuf[nChars] == 0 && chBuf[nChars + 1] == 0 && textPtr <= nChars
    }

    /** The buffer between tokens: the byte at cBufP is kept in holdChar. */
    ghost predicate Idle()
      reads this`chBuf, this`bufSize, this`nChars, this`bufferNChars, this`status, this`input
      reads this`cBufP, this`textPtr, this`holdChar, chBuf
    {
      && Buffer() && cBufP <= nChars && textPtr <= nChars
      && (if cBufP == nChars then holdChar == 0 else chBuf[nChars] == 0)
      && chBuf[nChars + 1] == 0
    }

    /** The text not matched yet. */
    ghost function Pending(): Text
      requires Idle()
      reads this`chBuf, this`bufSize, this`nChars, this`bufferNChars, this`status, this`input
      reads this`cBufP, this`textPtr, this`holdChar, chBuf
    {
      if cBufP == nChars then input else [holdChar] + chBuf[cBufP + 1..nChars] + input
    }

    constructor (input: Text)
      ensures Idle() && Pending() == input && yylineno == 1 && log == []
      ensures fresh(chBuf)
    {
      bufSize := BUF_SIZE;
      chBuf := new Byte[BUF_SIZE + 2](_ => 0);
      nChars, bufferNChars, cBufP, textPtr, yyleng, holdChar := 0, 0, 0, 0, 0, 0;
      lastState, lastCpos, yylineno, status := 0, 0, 1, New;
      this.input := input;
      log := [];
    }

    /** YY_INPUT: at most max bytes, at least one unless the input is exhausted; how many
        is not in the scanner's hands. */
    method YyInput(dest: nat, max: nat) returns (n: nat)
      requires 0 < max && dest + max <= chBuf.Length
      modifies this`input, chBuf
      ensures n <= max && (n == 0 <==> old(input) == [])
      ensures n <= |old(input)| && input == old(input)[n..]
      ensures chBuf[dest..dest + n] == old(input)[..n]
      ensures chBuf[..dest] == old(chBuf[..dest])
    {
      if input == [] {
        return 0;
      }
      n :| 0 < n <= max && n <= |input|;
      var i := 0;
      while i < n
        invariant 0 <= i <= n
        invariant input == old(input) && chBuf == old(chBuf)
        invariant chBuf[dest..dest + i] == input[..i]
        invariant chBuf[..dest] == old(chBuf[..dest])
        modifies chBuf
      {
        chBuf[dest + i] := input[i];
        i := i + 1;
      }
      input := input[n..];
    }

    /** yyrestart: forget the buffered text (there is none left) and start afresh. */
    method Restart()
      requires chBuf.Length >= 2
      modifies this, chBuf
      ensures nChars == bufferNChars == textPtr == cBufP == 0 && holdChar == 0 && status == New
      ensures chBuf == old(chBuf) && bufSize == old(bufSize) && input == old(input)
      ensures yylineno == old(yylineno) && log == old(log)
      ensures chBuf[0] == 0 && chBuf[1] == 0
    {
      bufferNChars := 0;
      chBuf[0] := 0;
      chBuf[1] := 0;
      status := New;
      nChars, textPtr, cBufP, holdChar := bufferNChars, 0, 0, chBuf[0];
    }

    /** Double the buffer until there is room to read after the first `used` bytes. */
    method MakeRoom(used: nat) returns (room: nat)
      requires Buffer() && used < chBuf.Length
      modifies this`chBuf, this`bufSize
      ensures chBuf == old(chBuf) || fresh(chBuf)
      ensures chBuf.Length == bufSize + 2 && bufSize >= old(bufSize) && bufSize == used + 1 + room && room > 0
      ensures chBuf[..used] == old(chBuf[..used])
    {
      var size := bufSize;
      while size <= used + 1
        invariant size >= bufSize > 0
        decreases used + 2 - size
      {
        size := size * 2;
      }
      if size != bufSize {
        var bigger := new Byte[size + 2](_ => 0);
        var i := 0;
        while i < used
          invariant 0 <= i <= used
          invariant bigger[..i] == chBuf[..i]
          modifies bigger
        {
          bigger[i] := chBuf[i];
          i := i + 1;
        }
        chBuf, bufSize := bigger, size;
      }
      room := bufSize - used - 1;
    }
  
    /** Move the partial token to the front of the buffer. */
    method MoveToFront(n: nat)
      requires textPtr + n <= chBuf.Length
      modifies chBuf
      ensures chBuf[..n] == old(chBuf[textPtr..textPtr + n])
    {
      ghost var was := chBuf[..];
      var i := 0;
      while i < n
        invariant 0 <= i <= n
        invariant forall k | 0 <= k < i :: chBuf[k] == was[textPtr + k]
        invariant forall k | textPtr + i <= k < textPtr + n :: chBuf[k] == was[k]
      {
        chBuf[i] := chBuf[textPtr + i];
        i := i + 1;
      }
      assert chBuf[..n] == was[textPtr..textPtr + n];
    }

    /** Read behind the first `moved` bytes of the buffer, unless the end of the input has
        been seen before. */
    method ReadBehind(moved: nat)
      requires Buffer() && moved <= nChars && status != New
      modifies this`chBuf, this`bufSize, this`nChars, this`bufferNChars, this`input, chBuf
      ensures chBuf.Length == bufSize + 2 && nChars + moved <= bufSize && bufSize > 0
      ensures chBuf == old(chBuf) || fresh(chBuf)
      ensures nChars == 0 <==> old(input) == []
      ensures nChars <= |old(input)| && input == old(input)[nChars..]
      ensures chBuf[..moved + nChars] == old(chBuf[..moved]) + old(input)[..nChars]
    {
      if status == EofPending {
        nChars, bufferNChars := 0, 0;
      } else {
        var room := MakeRoom(moved);
        if room > READ_BUF_SIZE {
          room := READ_BUF_SIZE;
        }
        nChars := YyInput(moved, room);
        bufferNChars := nChars;
        assert chBuf[..moved + nChars] == chBuf[..moved] + chBuf[moved..moved + nChars];
      }
    }

    /** The text is now the first n bytes; the two end-of-buffer bytes go behind it. */
    method CloseBuffer(n: nat)
      requires n + 1 < chBuf.Length
      modifies this`nChars, this`textPtr, chBuf
      ensures nChars == n && textPtr == 0 && chBuf[..n] == old(chBuf[..n])
      ensures chBuf[n] == 0 && chBuf[n + 1] == 0
    {
      nChars := n;
      chBuf[nChars] := 0;
      chBuf[nChars + 1] := 0;
      textPtr := 0;
    }

    /** The partial token, of `moved` bytes, and behind it what YY_INPUT delivers. */
    method Gather(moved: nat)
      requires Scanning() && textPtr + moved == nChars && status != New
      modifies this`chBuf, this`bufSize, this`nChars, this`bufferNChars, this`input, chBuf
      ensures chBuf.Length == bufSize + 2 && nChars + moved <= bufSize && bufSize > 0
      ensures chBuf == old(chBuf) || fresh(chBuf)
      ensures (nChars == 0 <==> old(input) == []) && |input| == |old(input)| - nChars
      ensures chBuf[..moved + nChars] + input == old(chBuf[textPtr..nChars] + input)
    {
      ghost var token, before := chBuf[textPtr..nChars], input;
      MoveToFront(moved);
      ReadBehind(moved);
      assert before == before[..nChars] + input;
      assert (token + before[..nChars]) + input == token + before;
    }

    /** yy_get_next_buffer, after the end of the buffered text has been reached: the
        partial token is kept, and followed by whatever YY_INPUT delivers. */
    method GetNextBuffer() returns (r: Refill)
      requires Scanning() && cBufP == nChars + 1 && status != New
      modifies this, chBuf
      ensures Scanning() && textPtr == 0 && (chBuf == old(chBuf) || fresh(chBuf))
      ensures yylineno == old(yylineno) && log == old(log)
      ensures chBuf[..nChars] + input == old(chBuf[textPtr..nChars] + input)
      ensures nChars >= old(nChars - textPtr)
      ensures match r
        case EndOfFile => old(textPtr) == old(nChars) && nChars == cBufP == 0 && holdChar == 0 && input == []
        case ContinueScan => |input| < |old(input)| && status == Normal
        case LastMatch => nChars == old(nChars - textPtr) > 0 && input == [] && status == EofPending
    {
      var moved := cBufP - textPtr - 1;
      Gather(moved);
      if nChars == 0 {
        if moved == 0 {
          r := EndOfFile;
          Restart();
        } else {
          r := LastMatch;
          status := EofPending;
        }
      } else {
        r := ContinueScan;
      }
      // The source enlarges the buffer here if the text read does not fit; it always fits.
      CloseBuffer(nChars + moved);
    }
  
    /** The state reached on the text [start, end), with the last acceptance before its
        last byte remembered. */
    ghost predicate Reached(start: nat, end: nat, state: nat)
      reads this, chBuf
    {
      && start <= end <= chBuf.Length
      && state == Run(chBuf[start..end])
      && (start < end ==> Remembers(chBuf[start..end], end - start - 1, start, lastState, lastCpos))
    }

    /** `if (yy_accept[yy_current_state]) { remember }`. */
    method RememberIfAccepting(state: nat, cp: nat)
      modifies this`lastState, this`lastCpos
      ensures if YyAccept(state) != 0 then lastState == state && lastCpos == cp
              else lastState == old(lastState) && lastCpos == old(lastCpos)
    {
      if YyAccept(state) != 0 {
        lastState := state;
        lastCpos := cp;
      }
    }

    /** The two ways yy_match can be going: in the text, or past a NUL. */
    ghost predicate InText(start: nat, from: nat, cp: nat, state: nat)
      reads this, chBuf
    {
      from <= cp <= nChars && Reached(start, cp, state)
    }

    ghost predicate PastNul(start: nat, from: nat, cp: nat)
      requires nChars < chBuf.Length
      reads this, chBuf
    {
      start <= from < cp <= nChars + 1 && chBuf[cp - 1] == 0 && Proper(Run(chBuf[start..cp - 1]))
    }

    /** yy_match: run until the automaton cannot go on.  Either it stopped in the text, or
        it met a NUL, at position lastCpos - 1, in a proper state. */
    method MatchLoop(ghost start: nat, state0: nat, cp0: nat) returns (state: nat, cp: nat, ghost eob: bool)
      requires Scanning() && InText(start, cp0, cp0, state0) && Proper(state0)
      modifies this`lastState, this`lastCpos
      ensures !eob ==> InText(start, cp0, cp, state) && cp0 < cp && YyBase(state) == YyBase(JAM)
      ensures eob ==> state == JAM && lastState == END_OF_BUFFER && PastNul(start, cp0, lastCpos)
    {
      hide Remembers, Walk, Run, Step;
      state, cp := state0, cp0;
      eob := false;
      while true
        invariant !eob ==> InText(start, cp0, cp, state) && Proper(state)
        invariant eob ==> state == END_OF_BUFFER && PastNul(start, cp0, cp)
        decreases nChars + 2 - cp
      {
        ghost var text, b := chBuf[start..cp], chBuf[cp];
        ghost var ls, lc := lastState, lastCpos;
        var c := Ec(chBuf[cp]);
        RememberIfAccepting(state, cp);
        ghost var s := state;
        state := NextState(state, c);
        cp := cp + 1;
        if eob {
          EndRow(c);
        } else {
          WalkIsStep(s, c);
          if b == 0 {
            eob := true;
          } else {
            RunPush(text, b);
            RememberCurrent(text, start, ls, lc, lastState, lastCpos);
            RememberMore(text, text + [b], |text|, start, lastState, lastCpos);
            assert chBuf[start..cp] == text + [b];
          }
        }
        if YyBase(state) == YyBase(JAM) {
          return;
        }
      }
    }
  
    /** yy_get_previous_state: run over the partial token again; its NULs are text. */
    method GetPreviousState() returns (state: nat)
      requires Scanning() && textPtr <= cBufP <= nChars && Proper(Run(chBuf[textPtr..cBufP]))
      modifies this`lastState, this`lastCpos
      ensures Reached(textPtr, cBufP, state) && Proper(state)
    {
      hide Remembers, Walk, Run, Step;
      ghost var all := chBuf[textPtr..cBufP];
      state := START;
      var cp := textPtr;
      EmptyRun();
      assert chBuf[textPtr..cp] == [];
      while cp < cBufP
        invariant textPtr <= cp <= cBufP && Reached(textPtr, cp, state) && Proper(state)
      {
        ghost var text, b := chBuf[textPtr..cp], chBuf[cp];
        ghost var ls, lc := lastState, lastCpos;
        ghost var s := state;
        var c := if chBuf[cp] != 0 then Ec(chBuf[cp]) else 1;
        RememberIfAccepting(state, cp);
        state := NextState(state, c);
        cp := cp + 1;
        WalkIsStep(s, c);
        RunPush(text, b);
        assert chBuf[textPtr..cp] == text + [b];
        RememberCurrent(text, textPtr, ls, lc, lastState, lastCpos);
        RememberMore(text, text + [b], |text|, textPtr, lastState, lastCpos);
        assert all[..cp - textPtr] == chBuf[textPtr..cp];
        PrefixProper(all, cp - textPtr);
      }
    }

    /** yy_try_NUL_trans: the state after a NUL, or 0 if the automaton jams on it. */
    method TryNulTrans(state: nat) returns (next: nat)
      requires Scanning() && Reached(textPtr, cBufP, state) && Proper(state)
      modifies this`lastState, this`lastCpos
      ensures next == (if Step(state, 1) == JAM then 0 else Step(state, 1))
      ensures Remembers(chBuf[textPtr..cBufP], cBufP - textPtr, textPtr, lastState, lastCpos)
    {
      hide Remembers, Walk, Run, Step;
      RememberIfAccepting(state, cBufP);
      RememberCurrent(chBuf[textPtr..cBufP], textPtr, old(lastState), old(lastCpos), lastState, lastCpos);
      next := NextState(state, 1);
      WalkIsStep(state, 1);
      if next == JAM {
        next := 0;
      }
    }

    /** The text from the current token on. */
    ghost function Rest(): Text
      requires textPtr <= nChars <= chBuf.Length
      reads this`chBuf, this`nChars, this`input, this`textPtr, chBuf
    {
      chBuf[textPtr..nChars] + input
    }

    /** What is in the buffer begins the rest of the text. */
    lemma RestBegins(cp: nat)
      requires textPtr <= cp <= nChars <= chBuf.Length
      ensures Rest()[..cp - textPtr] == chBuf[textPtr..cp]
    {
      var have := chBuf[textPtr..nChars];
      assert (have + input)[..cp - textPtr] == have[..cp - textPtr];
    }

    /** At yy_find_action: nothing longer than the token up to cp can match. */
    ghost predicate Decided(cp: nat, state: nat)
      requires textPtr <= nChars <= chBuf.Length
      reads this, chBuf
    {
      && textPtr < cp <= nChars
      && var text := chBuf[textPtr..cp];
         && state == Run(text)
         && (Rule(text) == 0 ==> Remembers(text, |text| - 1, textPtr, lastState, lastCpos))
         && NothingBeyond(Rest(), |text|)
    }

    /** The NUL at textPtr + amount is text: step over it, or find out that the token
        ends before it. */
    method NulInText(amount: nat) returns (next: Resume, state: nat, cp: nat)
      requires Scanning() && textPtr + amount < nChars && chBuf[textPtr + amount] == 0
      requires Proper(Run(chBuf[textPtr..textPtr + amount]))
      modifies this`lastState, this`lastCpos, this`cBufP
      ensures next == AtMatch ==>
        cp == textPtr + amount + 1 && Reached(textPtr, cp, state) && Proper(state)
      ensures next == AtFindAction ==> Decided(cp, state) && cp == textPtr + amount
      ensures next != AtEof
    {
      hide Remembers, Walk, Run, Step, Scanner.Decided;
      ghost var text := chBuf[textPtr..textPtr + amount];
      cBufP := textPtr + amount;
      state := GetPreviousState();
      var n := TryNulTrans(state);
      WalkIsStep(Run(text), 1);
      RunPush(text, 0);
      assert chBuf[textPtr..textPtr + amount + 1] == text + [0];
      if n != 0 {
        cBufP := cBufP + 1;
        cp, state, next := cBufP, n, AtMatch;
        RememberMore(text, text + [0], amount, textPtr, lastState, lastCpos);
      } else {
        cp, next := cBufP, AtFindAction;
        JamDecides(amount, state);
      }
    }

    /** A NUL on which the automaton jams ends the match before it. */
    lemma JamDecides(amount: nat, state: nat)
      requires Scanning() && textPtr + amount < nChars && chBuf[textPtr + amount] == 0
      requires state == Run(chBuf[textPtr..textPtr + amount]) && Proper(state) && Step(state, 1) == JAM
      requires Remembers(chBuf[textPtr..textPtr + amount], amount, textPtr, lastState, lastCpos)
      ensures Decided(textPtr + amount, state)
    {
      hide Remembers, Walk, Run, Step;
      var text := chBuf[textPtr..textPtr + amount];
      WalkIsStep(Run(text), 1);
      RunPush(text, 0);
      StartTakesNul(text);
      assert chBuf[textPtr..textPtr + amount + 1] == text + [0];
      RestBegins(textPtr + amount + 1);
      JamNext(Rest(), amount);
      if Rule(text) == 0 {
        RememberShorter(text, textPtr, lastState, lastCpos);
      }
    }

    /** What has been in the buffer is still the beginning. */
    lemma TextStays(text: Text, more: Text, text': Text, more': Text)
      requires text' + more' == text + more && |text| <= |text'|
      ensures text'[..|text|] == text
    {
      assert (text' + more')[..|text|] == text'[..|text|];
      assert (text + more)[..|text|] == text;
    }

    /** The end of the buffered text has been reached: get more and scan the partial
        token again. */
    method RefillBuffer(amount: nat) returns (next: Resume, state: nat, cp: nat)
      requires Scanning() && textPtr + amount == nChars && cBufP == nChars + 1 && status != New
      requires Proper(Run(chBuf[textPtr..nChars]))
      modifies this, chBuf
      ensures Scanning() && (chBuf == old(chBuf) || fresh(chBuf))
      ensures Rest() == old(Rest()) && yylineno == old(yylineno) && log == old(log)
      ensures next == AtEof ==> old(Rest()) == [] && Idle() && Pending() == []
      ensures next == AtMatch ==> InText(textPtr, textPtr, cp, state) && Proper(state)
      ensures next == AtMatch ==> |input| < |old(input)|
      ensures next == AtFindAction ==>
        Decided(cp, state) && |input| <= |old(input)| && nChars - cp <= old(nChars - cBufP) + 1
    {
      hide Remembers, Walk, Run, Step, Longest, Proper, Rule;
      ghost var text, more := chBuf[textPtr..nChars], input;
      var r := GetNextBuffer();
      TextStays(text, more, chBuf[..nChars], input);
      assert chBuf[0..nChars] == chBuf[..nChars];
      assert chBuf[0..amount] == chBuf[..nChars][..amount];
      match r {
        case EndOfFile =>
          cBufP := textPtr;
          next, state, cp := AtEof, START, cBufP;
        case ContinueScan =>
          cBufP := textPtr + amount;
          state := GetPreviousState();
          cp, next := cBufP, AtMatch;
        case LastMatch =>
          cBufP := nChars;
          state := GetPreviousState();
          cp, next := cBufP, AtFindAction;
          assert |Rest()| == amount;
      }
    }

    /** The action of state END_OF_BUFFER, after `amount` bytes of the current token. */
    method EndOfBufferAction(amount: nat) returns (next: Resume, state: nat, cp: nat)
      requires Scanning() && textPtr + amount <= nChars && cBufP == textPtr + amount + 1
      requires chBuf[textPtr + amount] == 0 && Proper(Run(chBuf[textPtr..textPtr + amount]))
      modifies this, chBuf
      ensures Scanning() && (chBuf == old(chBuf) || fresh(chBuf))
      ensures Rest() == old(Rest()) && yylineno == old(yylineno) && log == old(log)
      ensures next == AtEof ==> old(Rest()) == [] && Idle() && Pending() == []
      ensures next == AtMatch ==> InText(textPtr, textPtr, cp, state) && Proper(state)
      ensures next == AtMatch ==>
        || |input| < |old(input)|
        || (|input| == |old(input)| && nChars == old(nChars) && cp == old(cBufP))
      ensures next == AtFindAction ==>
        Decided(cp, state) && |input| <= |old(input)| && nChars - cp <= old(nChars - cBufP) + 1
    {
      hide Remembers, Walk, Run, Step, Longest, Proper;
      if status == New {
        nChars := bufferNChars;
        status := Normal;
      }
      if cBufP <= nChars {
        next, state, cp := NulInText(amount);
      } else {
        next, state, cp := RefillBuffer(amount);
      }
    }

    /** yy_find_action: the action of the state, or of the remembered one. */
    method FindAction(state: nat, cp0: nat, ghost eob: bool) returns (act: nat, cp: nat)
      requires Scanning()
      requires !eob ==> Decided(cp0, state)
      requires eob ==> state == JAM && lastState == END_OF_BUFFER
      ensures eob ==> act == YY_END_OF_BUFFER && cp == lastCpos
      ensures !eob ==>
        && textPtr < cp <= nChars && IsLongestMatch(Rest(), cp - textPtr)
        && act == Rule(Rest()[..cp - textPtr]) && 0 < act < YY_END_OF_BUFFER
    {
      hide Run, Longest, IsLongestMatch;
      act, cp := YyAccept(state), cp0;
      if act == 0 {
        cp := lastCpos;
        act := YyAccept(lastState);
      }
      if !eob {
        ghost var text := chBuf[textPtr..cp0];
        assert text == Rest()[..|text|];
        ActionFound(Rest(), text);
        assert Rest()[..cp - textPtr] == text[..cp - textPtr];
        RulesOfText(text);
        RulesOfText(Rest()[..cp - textPtr]);
        LongestNonzero(Rest(), cp - textPtr);
      }
    }

    /** From yy_match, or straight from yy_find_action, to an action. */
    method ScanToAction(next: Resume, state0: nat, cp0: nat) returns (act: nat, cp: nat, ghost eob: bool)
      requires Scanning() && next != AtEof
      requires next == AtMatch ==> InText(textPtr, textPtr, cp0, state0) && Proper(state0)
      requires next == AtFindAction ==> Decided(cp0, state0)
      modifies this`lastState, this`lastCpos
      ensures eob ==> act == YY_END_OF_BUFFER && next == AtMatch && PastNul(textPtr, cp0, cp)
      ensures !eob ==>
        && textPtr < cp <= nChars && IsLongestMatch(Rest(), cp - textPtr)
        && act == Rule(Rest()[..cp - textPtr]) && act != YY_END_OF_BUFFER
    {
      hide Remembers, Run, Step, Longest, IsLongestMatch, Proper, Rule;
      var state;
      state, cp, eob := state0, cp0, false;
      if next == AtMatch {
        state, cp, eob := MatchLoop(textPtr, state, cp);
        if !eob {
          RestBegins(cp);
          StopDecides(Rest(), cp - textPtr);
        }
      }
      act, cp := FindAction(state, cp, eob);
    }

    /** YY_DO_BEFORE_ACTION. */
    method BeforeAction(cp: nat)
      requires textPtr <= cp < chBuf.Length
      modifies this`yyleng, this`holdChar, this`cBufP, chBuf
      ensures yyleng == cp - textPtr && cBufP == cp && holdChar == old(chBuf[cp])
      ensures chBuf[..] == old(chBuf[..])[cp := 0]
      // unless the end of the buffer has been met, the scanner is between tokens again
      ensures old(Scanning()) && cp <= nChars ==>
        && Idle() && Pending() == old(Rest())[yyleng..] && chBuf[textPtr..cp] == old(Rest())[..yyleng]
    {
      hide Scanner.Idle, Scanner.Pending;
      ghost var bytes, scanning := chBuf[..], Scanning();
      Terminate(cp);
      if scanning && cp <= nChars {
        IsIdle(bytes, cp);
        CutAt(bytes, textPtr, cp, nChars, input);
      }
    }

    /** The buffer is as it was but for the byte at cp, which is kept in holdChar. */
    lemma IsIdle(bytes: Text, cp: nat)
      requires Buffer() && chBuf.Length == |bytes| && bytes[nChars] == 0 && bytes[nChars + 1] == 0
      requires textPtr <= cp <= nChars && cBufP == cp && holdChar == bytes[cp]
      requires chBuf[..cp] == bytes[..cp] && chBuf[cp + 1..] == bytes[cp + 1..]
      ensures Idle() && Pending() == bytes[cp..nChars] + input && chBuf[textPtr..cp] == bytes[textPtr..cp]
    {
      assert chBuf[textPtr..cp] == chBuf[..cp][textPtr..] && bytes[textPtr..cp] == bytes[..cp][textPtr..];
      assert chBuf[nChars + 1] == chBuf[cp + 1..][nChars - cp] == bytes[cp + 1..][nChars - cp];
      if cp < nChars {
        var m := nChars - cp - 1;
        assert chBuf[nChars] == chBuf[cp + 1..][m] == bytes[cp + 1..][m];
        assert chBuf[cp + 1..nChars] == chBuf[cp + 1..][..m] && bytes[cp + 1..nChars] == bytes[cp + 1..][..m];
        assert bytes[cp..nChars] == [bytes[cp]] + bytes[cp + 1..nChars];
      }
    }

    /** A zero byte goes behind the text, and what it overwrites into holdChar. */
    method Terminate(cp: nat)
      requires textPtr <= cp < chBuf.Length
      modifies this`yyleng, this`holdChar, this`cBufP, chBuf
      ensures yyleng == cp - textPtr && cBufP == cp && holdChar == old(chBuf[cp])
      ensures chBuf[..] == old(chBuf[..])[cp := 0]
      ensures chBuf[..cp] == old(chBuf[..cp]) && chBuf[cp + 1..] == old(chBuf[cp + 1..])
    {
      yyleng := cp - textPtr;
      holdChar := chBuf[cp];
      chBuf[cp] := 0;
      cBufP := cp;
    }

    /** One action: either that of a rule (`act` is not YY_END_OF_BUFFER), or the refilling
        one, after which scanning resumes. */
    method Round(next0: Resume, state0: nat, cp0: nat) returns (act: nat, next: Resume, state: nat, cp: nat)
      requires Scanning() && next0 != AtEof
      requires next0 == AtMatch ==> InText(textPtr, textPtr, cp0, state0) && Proper(state0)
      requires next0 == AtFindAction ==> Decided(cp0, state0)
      modifies this, chBuf
      ensures (chBuf == old(chBuf) || fresh(chBuf)) && yylineno == old(yylineno) && log == old(log)
      ensures act != YY_END_OF_BUFFER ==>
        && IsLongestMatch(old(Rest()), yyleng) && act == Rule(old(Rest())[..yyleng])
        && Idle() && Pending() == old(Rest())[yyleng..]
        && textPtr + yyleng == cBufP <= chBuf.Length && chBuf[textPtr..cBufP] == old(Rest())[..yyleng]
      ensures act == YY_END_OF_BUFFER ==>
        && Scanning() && Rest() == old(Rest())
        && (next == AtMatch ==> InText(textPtr, textPtr, cp, state) && Proper(state))
        && (next == AtFindAction ==> Decided(cp, state))
        && (next == AtEof ==> old(Rest()) == [] && Idle() && Pending() == [])
        && (next != AtEof ==>
              || |input| < |old(input)|
              || (|input| == |old(input)| && nChars - cp < old(nChars) - cp0)
              || (|input| == |old(input)| && nChars - cp == old(nChars) - cp0
                  && next == AtFindAction && next0 == AtMatch))
    {
      hide Remembers, Run, Step, Longest, IsLongestMatch, Proper, Rule, Decided, Reached, Idle, Pending;
      ghost var w := Rest();
      ghost var eob;
      act, cp, eob := ScanToAction(next0, state0, cp0);
      ghost var bytes := chBuf[..];
      BeforeAction(cp);
      next, state := AtEof, START;
      if act != YY_END_OF_BUFFER {
        LongestNonzero(w, yyleng);
        return;
      }
      chBuf[cp] := holdChar;
      assert chBuf[..] == bytes;
      next, state, cp := EndOfBufferAction(cp - textPtr - 1);
    }

    /** One match: the loop of yylex from yy_match to the action of a rule; 0 at the end
        of the input. */
    method NextMatch() returns (act: nat)
      requires Idle()
      modifies this, chBuf
      ensures Idle() && (chBuf == old(chBuf) || fresh(chBuf))
      ensures yylineno == old(yylineno) && log == old(log)
      ensures old(Pending()) == [] ==> act == 0 && Pending() == []
      ensures old(Pending()) != [] ==> var w := old(Pending());
        && IsLongestMatch(w, yyleng) && act == Rule(w[..yyleng])
        && Pending() == w[yyleng..]
        && textPtr + yyleng == cBufP <= chBuf.Length && chBuf[textPtr..cBufP] == w[..yyleng]
    {
      hide Remembers, Run, Step, Longest, IsLongestMatch, Proper, Rule, Reached, Idle, Pending, NothingBeyond;
      ghost var w := Pending();
      var cp: nat := StartMatch();
      var state: nat, next := START, AtMatch;
      while next != AtEof
        invariant Scanning() && Rest() == w && (chBuf == old(chBuf) || fresh(chBuf))
        invariant yylineno == old(yylineno) && log == old(log)
        invariant next == AtMatch ==> InText(textPtr, textPtr, cp, state) && Proper(state)
        invariant next == AtFindAction ==> Decided(cp, state)
        invariant next == AtEof ==> w == [] && Idle() && Pending() == []
        decreases next != AtEof, |input|, nChars - cp, next == AtMatch
      {
        act, next, state, cp := Round(next, state, cp);
        if act != YY_END_OF_BUFFER {
          LongestNonzero(w, yyleng);
          return;
        }
      }
      act := 0;
    }

    /** The top of yylex's loop: undo YY_DO_BEFORE_ACTION and start a new token. */
    method StartMatch() returns (cp: nat)
      requires Idle()
      modifies this`textPtr, chBuf
      ensures Scanning() && textPtr == cp && Rest() == old(Pending())
      ensures InText(cp, cp, cp, START) && Proper(START)
    {
      cp := cBufP;
      chBuf[cp] := holdChar;
      textPtr := cp;
      EmptyRun();
      assert chBuf[cp..cp] == [];
    }

    /** Count the newlines of yytext, if the rule can match any. */
    method CountLines(act: nat)
      requires textPtr + yyleng <= chBuf.Length
      requires act == Rule(chBuf[textPtr..textPtr + yyleng]) != 0
      modifies this`yylineno
      ensures yylineno == old(yylineno) + Newlines(chBuf[textPtr..textPtr + yyleng])
    {
      hide Newlines, Rule;
      NoNewlines();
      ghost var text := chBuf[textPtr..textPtr + yyleng];
      if act in YY_RULE_CAN_MATCH_EOL {
        var i := 0;
        while i < yyleng
          invariant 0 <= i <= yyleng
          invariant yylineno == old(yylineno) + Newlines(text[..i])
        {
          NewlinesNext(text, i);
          if chBuf[textPtr + i] == NEWLINE {
            yylineno := yylineno + 1;
          }
          i := i + 1;
        }
        assert text[..yyleng] == text;
      } else if Newlines(text) > 0 {
        OnlySomeRulesMatchNewlines(text);
      }
    }

    /** One round of yylex: match, count lines, execute the action; 0 at the end. */
    method MatchAndAct() returns (act: nat)
      requires Idle()
      modifies this, chBuf
      ensures Idle() && (chBuf == old(chBuf) || fresh(chBuf))
      ensures yylineno + Newlines(Pending()) == old(yylineno + Newlines(Pending()))
      ensures act == 0 ==> log == old(log) && Pending() == old(Pending()) == []
      ensures act != 0 ==>
        && log != [] && log == old(log) + [Match(act, log[|log|-1].text)] && act < YY_END_OF_BUFFER
        && Tokens(old(Pending())) == [log[|log|-1]] + Tokens(Pending())
        && MatchAt(old(Pending()), 0, log[|log|-1])
        && |Pending()| < |old(Pending())|
    {
      hide IsLongestMatch, Rule, Tokens, Scanner.Idle, Scanner.Pending, Longest, Newlines, Run, MatchAt;
      ghost var w := Pending();
      act := NextMatch();
      if w != [] {
        LongestNonzero(w, yyleng);
      }
      if act != 0 {
        TokensUnfold(w, yyleng);
        FirstMatch(w, yyleng);
        NewlinesSplit(w, yyleng);
        RulesOfText(w[..yyleng]);
        CountLines(act);
        log := log + [Match(act, chBuf[textPtr..textPtr + yyleng])];
      }
    }

    /** yylex: the next token of rules 1 to 6, or 0 at the end of the input; the matches of
        the rules that only skip or echo come along. */
    method YyLex() returns (token: nat)
      requires Idle()
      modifies this, chBuf
      ensures Idle() && (chBuf == old(chBuf) || fresh(chBuf))
      ensures old(log) <= log
      ensures Tokens(old(Pending())) == log[|old(log)|..] + Tokens(Pending())
      ensures yylineno + Newlines(Pending()) == old(yylineno + Newlines(Pending()))
      ensures token == 0 ==> Pending() == []
      ensures token != 0 ==> token <= 6 && log != old(log) && log[|log|-1].rule == token
      ensures forall i {:trigger log[i]} | |old(log)| <= i < (if token == 0 then |log| else |log| - 1) ::
                7 <= log[i].rule <= 9
      ensures forall i {:trigger log[i]} | |old(log)| <= i < |log| :: Patterns.ByRule(log[i].text, log[i].rule)
      ensures token != 0 ==> |Pending()| < |old(Pending())|
    {
      hide Tokens, Idle, Pending, Newlines, MatchAt, Patterns.ByRule;
      ghost var done: seq<Match> := [];
      while true
        invariant Idle() && (chBuf == old(chBuf) || fresh(chBuf))
        invariant log == old(log) + done
        invariant Tokens(old(Pending())) == done + Tokens(Pending())
        invariant yylineno + Newlines(Pending()) == old(yylineno + Newlines(Pending()))
        invariant forall i {:trigger done[i]} | 0 <= i < |done| :: 7 <= done[i].rule <= 9
        invariant forall i {:trigger done[i]} | 0 <= i < |done| :: Patterns.ByRule(done[i].text, done[i].rule)
        invariant |Pending()| <= |old(Pending())|
        decreases |Pending()|
      {
        ghost var w := Pending();
        token := MatchAndAct();
        if token == 0 {
          assert log[|old(log)|..] == done;
          return;
        }
        ghost var m := log[|log|-1];
        MatchIsByRule(w, m);
        Regroup(done, m, Tokens(Pending()));
        done := done + [m];
        if token <= 6 {
          assert log[|old(log)|..] == done;
          return;
        }
      }
    }
  }

  lemma Regroup(a: seq<Match>, m: Match, b: seq<Match>)
    ensures a + ([m] + b) == (a + [m]) + b
  {
  }

  lemma MatchIsByRule(w: Text, m: Match)
    requires MatchAt(w, 0, m)
    ensures Patterns.ByRule(m.text, m.rule)
  {
    hide Patterns.ByRule;
    assert w[0..] == w && w[0..0 + |m.text|] == w[..|m.text|];
  }

  /** Scanning a whole input: whatever YY_INPUT does, the matches are exactly Tokens(input),
      those that the patterns give and no others, and the line number in the end is one more than there are newlines. */
  method ScanAll(input: Text) returns (ms: seq<Match>, lines: nat)
    ensures ms == Tokens(input) && FlexTokens(input, ms)
    ensures lines == 1 + Newlines(input)
  {
    hide Scanner.Idle, Scanner.Pending, Tokens, Newlines, FlexTokens;
    TokensAreFlexTokens(input);
    var s := new Scanner(input);
    var token := 1;
    while token != 0
      invariant s.Idle() && fresh(s) && fresh(s.chBuf)
      invariant Tokens(input) == s.log + Tokens(s.Pending())
      invariant s.yylineno + Newlines(s.Pending()) == 1 + Newlines(input)
      invariant token == 0 ==> s.Pending() == []
      decreases if token == 0 then 0 else 1 + |s.Pending()|
    {
      ghost var before := s.log;
      ghost var rest := Tokens(s.Pending());
      token := s.YyLex();
      RegroupLog(before, s.log, Tokens(s.Pending()), rest, Tokens(input));
    }
    NoTokens();
    return s.log, s.yylineno;
  }

  lemma RegroupLog(before: seq<Match>, log: seq<Match>, rest': seq<Match>, rest: seq<Match>, all: seq<Match>)
    requires before <= log && all == before + rest && rest == log[|before|..] + rest'
    ensures all == log + rest'
  {
    assert log == before + log[|before|..];
  }

  lemma NoTokens()
    ensures Tokens([]) == [] && Newlines([]) == 0
  {
  }

  lemma {:induction false} NewlinesSplit(w: Text, k: nat)
    requires k <= |w|
    ensures Newlines(w) == Newlines(w[..k]) + Newlines(w[k..])
    decreases |w|
  {
    if k < |w| {
      var v := w[..|w|-1];
      NewlinesSplit(v, k);
      assert v[..k] == w[..k] && v[k..] == w[k..][..|w[k..]|-1];
    } else {
      assert w[..k] == w;
    }
  }

  lemma LongestNonzero(w: Text, n: nat)
    requires IsLongestMatch(w, n)
    ensures Rule(w[..n]) != 0 && 0 < n <= |w|
  {
  }

  lemma StopDecides(w: Text, k: nat)
    requires 0 < k <= |w| && YyBase(Run(w[..k])) == YyBase(JAM)
    ensures NothingBeyond(w, k)
  {
    forall j {:trigger w[..j]} | k < j <= |w|
      ensures Rule(w[..j]) == 0
    {
      NothingLonger(w, k, j);
    }
  }

  ghost predicate NothingBeyond(w: Text, k: nat) {
    forall j {:trigger w[..j]} | k < j <= |w| :: Rule(w[..j]) == 0
  }

  lemma JamNext(w: Text, k: nat)
    requires k < |w| && Run(w[..k + 1]) == JAM
    ensures NothingBeyond(w, k)
  {
    forall j {:trigger w[..j]} | k < j <= |w|
      ensures Rule(w[..j]) == 0
    {
      if j > k + 1 {
        NothingLonger(w, k + 1, j);
      }
    }
  }

  lemma StartTakesNul(text: Text)
    requires Step(Run(text), 1) == JAM
    ensures text != []
  {
  }

  lemma RememberShorter(text: Text, start: nat, state: nat, cpos: nat)
    requires text != [] && Remembers(text, |text|, start, state, cpos) && Rule(text) == 0
    ensures Remembers(text, |text| - 1, start, state, cpos)
  {
    assert text[..|text|] == text;
  }

  lemma EmptyRun()
    ensures Run([]) == START && Proper(START)
  {
  }
}
