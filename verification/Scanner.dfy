/** The tokenizer as it works: an object that walks through a file with one character of
    lookahead, collects words in a fixed buffer and appends tokens. Its methods are proved
    against the functions of Scanning. */
module Scanner {
  import opened Syntax
  import opened Chars
  import opened OperandText
  import opened Scanning

  /** Undefined marks a program whose behaviour C leaves open. */
  datatype Phase = InstructionLine | LastLine | Asleep | Waiting | Finished | Undefined

  const INPUT_SIZE: nat := 1024

  datatype Flush = AtNewline | AtEof | NotEmpty

  class Reader {
    const text: string
    const input: array<char>
    var pos: nat
    /** The lookahead; None is EOF. */
    var c: Option<char>
    var line: nat
    var state: Phase
    var error: bool
    var tokens: seq<Token>

    /** The line number counts the newlines that were read. */
    ghost predicate Valid()
      reads this`pos, this`c, this`line
    {
      && input.Length == INPUT_SIZE
      && pos <= |text|
      && (c.None? ==> pos == |text|)
      && line == 1 + Count('\n', text[..pos])
      && '\0' !in text && c != Some('\0')
    }

    /** The lookahead and the unread part of the file. */
    ghost function Ahead(): string
      reads this`pos, this`c
    {
      if c.None? || pos > |text| then "" else [c.value] + text[pos..]
    }

    lemma AheadShape()
      requires Valid()
      ensures (c.None? <==> Ahead() == "") && (c.Some? ==> Ahead()[0] == c.value)
    {}

    /** A file that has just been opened. */
    constructor (source: string)
      requires '\0' !in source
      ensures Valid() && fresh(input) && text == source && pos == 0 && c == Some(' ')
      ensures state == InstructionLine && !error && tokens == []
    {
      text := source;
      input := new char[INPUT_SIZE];
      pos := 0;
      c := Some(' ');
      line := 1;
      state := InstructionLine;
      error := false;
      tokens := [];
      new;
      assert text[..0] == "";
    }

    method Stop()
      modifies this`state, this`error
      ensures state == Finished && error
    {
      state := Finished;
      error := true;
    }

    method NextChar()
      requires Valid()
      modifies this`pos, this`c, this`line
      ensures Valid() && old(pos) <= pos
      ensures Ahead() == if old(Ahead()) == "" then "" else old(Ahead())[1..]
      ensures line == old(line) + if old(Ahead()) != "" && c == Some('\n') then 1 else 0
      ensures (c.None? <==> Ahead() == "") && (c.Some? ==> Ahead()[0] == c.value)
    {
      if pos < |text| {
        c := Some(text[pos]);
        pos := pos + 1;
        assert text[..pos] == text[..pos - 1] + [text[pos - 1]];
        CountConcat('\n', text[..pos - 1], [text[pos - 1]]);
        if c == Some('\n') { line := line + 1; }
      } else {
        c := None;
      }
    }

    /** Reads the magic word and the character behind it. */
    method ReadMagic() returns (ok: bool, good: bool)
      requires Valid() && pos == 0 && c == Some(' ')
      modifies this`pos, this`c, this`line, input
      ensures Valid() && (ok <==> |text| > |MAGIC|)
      ensures ok ==> (good <==> BeginsWell(text)) && Ahead() == text[|MAGIC|..]
    {
      hide Count, Ahead;
      AheadAt();
      var len := |MAGIC| + 1;
      ghost var s := [' '] + text;
      for i := 0 to len
        invariant Valid() && i <= |text| && Ahead() == s[i..]
        invariant forall k | 0 <= k < i :: input[k] == text[k]
      {
        NextChar();
        assert s[i..][1..] == s[i + 1..];
        if c.None? { return false, false; }
        assert Ahead()[0] == s[i + 1] == text[i];
        input[i] := c.value;
      }
      assert s[len..] == text[|MAGIC|..] && input[..|MAGIC|] == text[..|MAGIC|];
      return true, input[..|MAGIC|] == MAGIC;
    }

    /** Reads the rest of the first line, behind the magic word. */
    method RestOfMagicLine(good: bool)
      requires Valid() && Ahead() != "" && state != LastLine && (error <==> !good)
      modifies this`pos, this`c, this`line, this`state, this`error
      ensures Valid()
      ensures var s := old(Ahead());
        if s[0] == '\n' then state == InstructionLine && error == !good && Ahead() == s
        else if !Crosses(Behind(s)) then state == Finished && error
        else if Skip(Behind(s)) == "" then state == Finished && error == !good
        else state == InstructionLine && error == !good && Ahead() == Skip(Behind(s))
    {
      hide Count, Ahead, Skip, Breaks, Crosses;
      AheadShape();
      CrossesBreaks(Behind(Ahead()));
      if c == Some('\n') {
        state := InstructionLine;
        return;
      }
      var thisLine := line;
      var found := FlushUpToChar();
      if thisLine == line {
        Stop();
      } else if !found {
        state := Finished;
      } else {
        state := InstructionLine;
      }
    }

    /** Reads the first line of the file. */
    method ParseMagic()
      requires Valid() && pos == 0 && c == Some(' ') && state == InstructionLine && !error
      modifies this`pos, this`c, this`line, this`state, this`error, input
      ensures Valid()
      ensures match Magic(text)
        case Refused(e) => state == Finished && error == e
        case Opened(s, good) => state == InstructionLine && Ahead() == s && error == !good
    {
      hide Count, Ahead, Skip, Crosses, Magic;
      MagicIs(text);
      var ok, good := ReadMagic();
      if !ok {
        state := Finished;
        return;
      }
      if !good { Stop(); }
      RestOfMagicLine(good);
    }

    lemma AheadAt()
      requires Valid() && pos == 0 && c == Some(' ')
      ensures Ahead() == [' '] + text
    {}

    /** Goes back behind a label that has `left` characters behind it; the lookahead becomes
        a blank, and the line number that of the label. */
    method Seek(left: nat)
      requires Valid() && left <= |text|
      modifies this`pos, this`c, this`line
      ensures Valid() && Ahead() == " " + text[|text| - left..]
    {
      pos := |text| - left;
      c := Some(' ');
      line := 1 + Count('\n', text[..pos]);
    }

    /** Moves on at least once, and then over all white space. */
    method FlushUpToChar() returns (found: bool)
      requires Valid()
      modifies this`pos, this`c, this`line
      ensures Valid() && old(pos) <= pos
      ensures Ahead() == Skip(Behind(old(Ahead()))) && (found <==> Ahead() != "")
      ensures line == old(line) + Breaks(Behind(old(Ahead())))
    {
      hide Count, Ahead, Skip, Breaks;
      ghost var u, all := Behind(Ahead()), line + Breaks(Behind(Ahead()));
      NextChar();
      SkipStep(Ahead());
      if c.None? { return false; }
      while IsSpace(c.value)
        invariant Valid() && c.Some? && old(pos) <= pos && Ahead() != "" && Ahead()[0] == c.value
        invariant Skip(Ahead()) == Skip(u)
        invariant line + (if IsSpace(c.value) then Breaks(Behind(Ahead())) else 0) == all
        decreases |Ahead()|
      {
        SkipStep(Ahead());
        NextChar();
        SkipStep(Ahead());
        if c.None? { return false; }
      }
      SkipStep(Ahead());
      return true;
    }

    method FlushUpToNewline() returns (r: Flush)
      requires Valid()
      modifies this`pos, this`c, this`line
      ensures Valid()
      ensures r == NotEmpty <==> LineEnd(old(Ahead())).None?
      ensures r != NotEmpty ==> Ahead() == LineEnd(old(Ahead())).value
      ensures r == NotEmpty ==> c.Some?
    {
      while c != Some('\n')
        invariant Valid()
        invariant LineEnd(Ahead()) == LineEnd(old(Ahead()))
        decreases |Ahead()|
      {
        NextChar();
        if c.None? { return AtEof; }
        if !IsSpace(c.value) { return NotEmpty; }
      }
      return AtNewline;
    }

    /** The word in the buffer, which ends with a NUL. */
    ghost predicate Holds(w: string)
      reads input
    {
      |w| < input.Length && input[..|w|] == w && input[|w|] == '\0'
    }

    /** The first `n` characters of `w` are in the buffer. */
    ghost predicate Copied(w: string, n: nat)
      reads input
    {
      n <= |w| && n <= input.Length && input[..n] == w[..n]
    }

    method Append(x: char, n: nat, ghost w: string)
      requires n < input.Length && Copied(w, n) && n < |w| && x == w[n]
      modifies input
      ensures Copied(w, n + 1)
    {
      input[n] := x;
      assert input[..n + 1] == input[..n] + [x] && w[..n + 1] == w[..n] + [w[n]];
    }

    method Terminate(n: nat, ghost w: string)
      requires n < input.Length && Copied(w, n)
      modifies input
      ensures Holds(w[..n])
    {
      input[n] := '\0';
      assert input[..n] == w[..n];
    }

    /** Copies the characters of a word behind its first into the buffer. */
    method CollectMore(ghost t: string, ghost w: string) returns (n: nat)
      requires Valid() && state != Finished && w == (if t == "" then EOF_WORD else t)
      requires Ahead() == t && Solid(t, 1) && Copied(w, 1) && MAX_WORD < input.Length
      modifies this`pos, this`c, this`line, this`state, this`error, input
      ensures Valid()
      ensures if |FirstWord(t)| >= MAX_WORD then (n == 0 && state == Finished && error)
        else (n == |FirstWord(t)| > 0 && n <= MAX_WORD && n <= |w| && Copied(w, n) && w[..n] == FirstWord(t)
              && Ahead() == BehindWord(t) && error == old(error)
              && state == if Ahead() == "" then LastLine else old(state))
    {
      hide Count, WordLength, Ahead, FirstWord, BehindWord, Valid, Rest, Solid, Copied, IsSpace;
      AheadShape();
      RestFirst(t);
      n := 1;
      while true
        invariant Valid() && state == old(state) && error == old(error)
        invariant 1 <= n <= MAX_WORD && n <= |w| && Copied(w, n)
        invariant Ahead() == Rest(t, n) && Solid(t, n)
        decreases |w| - n
      {
        RestNext(t, n);
        NextChar();
        if n == MAX_WORD {
          WordAtLeast(t, n);
          Stop();
          return 0;
        }
        if c.None? {
          state := LastLine;
          break;
        }
        if IsSpace(c.value) { break; }
        Append(c.value, n, w);
        n := n + 1;
      }
      WordIs(t, n);
    }

    /** Copies the word at the lookahead into the buffer. */
    method CollectWord() returns (n: nat)
      requires Valid() && state != Finished
      requires c.Some? ==> !IsSpace(c.value)
      modifies this`pos, this`c, this`line, this`state, this`error, input
      ensures Valid()
      ensures var w := FirstWord(old(Ahead()));
        if |w| >= MAX_WORD then (n == 0 && state == Finished && error)
        else (n == |w| > 0 && Holds(w) && Ahead() == BehindWord(old(Ahead())) && error == old(error)
              && state == if Ahead() == "" then LastLine else old(state))
    {
      assert input.Length == INPUT_SIZE;
      hide Count, WordLength, Ahead, FirstWord, BehindWord, Valid, Rest, Solid, Copied, Holds, IsSpace;
      AheadShape();
      ghost var t := Ahead();
      ghost var w := if t == "" then EOF_WORD else t;
      Begins(w);
      RestFirst(t);
      Append(if c.Some? then c.value else EOF_WORD[0], 0, w);
      n := CollectMore(t, w);
      if n == 0 { return; }
      Terminate(n, w);
    }

    lemma Begins(w: string)
      ensures Copied(w, 0)
    {}

    /** Moves on to the next word, if there is one and it is on the line that is asked for. */
    method FindWord(thisLine: bool) returns (found: bool)
      requires Valid()
      modifies this`pos, this`c, this`line
      ensures Valid() && (found ==> c.Some? ==> !IsSpace(c.value))
      ensures found == !Missed(old(Ahead()), thisLine)
      ensures Ahead() == if found then AtWord(old(Ahead())) else Passed(old(Ahead()), thisLine)
    {
      assert IsSpace('\n');
      hide Count, Ahead, Skip, Breaks, Valid, Behind, IsSpace;
      AheadShape();
      SkipBehind(Ahead());
      var prevLine := line;
      if thisLine && c == Some('\n') { return false; }
      if c.Some? && IsSpace(c.value) {
        found := FlushUpToChar();
        if !found { return; }
      }
      AheadShape();
      found := !thisLine || prevLine == line;
    }

    /** Reads the next word into the buffer; 0 is a failed read. */
    method GetNextWord(thisLine: bool) returns (n: nat)
      requires Valid() && state != Finished
      modifies this`pos, this`c, this`line, this`state, this`error, input
      ensures Valid()
      ensures var f := Fetch(old(Ahead()), old(state) == LastLine, thisLine);
        if f.TooLong? then n == 0 && state == Finished && error
        else (n == |f.word| && (n > 0 ==> Holds(f.word)) && Ahead() == f.ahead && error == old(error)
              && state == if f.last then LastLine else old(state))
    {
      hide Count, Ahead, AtWord, Fetch, FirstWord, BehindWord, Valid, Holds, IsSpace, Missed, Passed;
      FetchIs(Ahead(), state == LastLine, thisLine);
      var found := FindWord(thisLine);
      if !found { return 0; }
      n := CollectWord();
    }

    /** Runs over a variable's name; the program is stopped at a character that no name has,
        and at the length limit. */
    method ScanName(start: nat, stop: char, ghost w: string) returns (i: nat)
      requires Holds(w) && start + 2 <= |w| && (stop == '\0' || stop == ']')
      modifies this`state, this`error
      ensures start + 2 <= i <= |w| && i - start == NameEnd(w[start..], 2, stop)
      ensures if input[i] == stop || input[i] == '[' then state == old(state) && error == old(error)
              else state == Finished && error
    {
      ghost var v := w[start..];
      i := start + 2;
      while input[i] != stop && input[i] != '['
        invariant start + 2 <= i <= |w| && NameEnd(v, i - start, stop) == NameEnd(v, 2, stop)
        invariant At(v, i - start) == input[i] && state == old(state) && error == old(error)
        decreases |w| - i
      {
        if !IsAlnum(input[i]) {
          Stop();
          break;
        }
        if i >= start + 2 + 127 {
          Stop();
          break;
        }
        i := i + 1;
      }
    }

    /** The same for the digits of a number. */
    method ScanNumber(start: nat, stop: char, ghost w: string) returns (i: nat)
      requires Holds(w) && start + 1 <= |w| && (stop == '\0' || stop == ']')
      modifies this`state, this`error
      ensures start + 1 <= i <= |w| && i - start == NumberEnd(w[start..], 1, stop)
      ensures if input[i] == stop then state == old(state) && error == old(error) else state == Finished && error
    {
      ghost var v := w[start..];
      i := start + 1;
      while input[i] != stop
        invariant start + 1 <= i <= |w| && NumberEnd(v, i - start, stop) == NumberEnd(v, 1, stop)
        invariant At(v, i - start) == input[i] && state == old(state) && error == old(error)
        decreases |w| - i
      {
        if !IsDigit(input[i]) {
          Stop();
          break;
        }
        if i >= start + MAX_NUMBER {
          Stop();
          break;
        }
        i := i + 1;
      }
    }

    /** Counts the closing brackets up to the end of the word. */
    method CountClosing(from: nat, ghost w: string) returns (n: nat)
      requires Holds(w) && IsWord(w) && from <= |w|
      ensures n == Count(']', w[from..])
    {
      var j := from;
      n := 0;
      while input[j] != '\0'
        invariant from <= j <= |w| && n + Count(']', w[j..]) == Count(']', w[from..])
        decreases |w| - j
      {
        assert w[j] == input[j] && w[j..][1..] == w[j + 1..];
        if input[j] == ']' { n := n + 1; }
        j := j + 1;
      }
      assert j == |w|;
    }

    method ParseNumber(start: nat, isIndex: bool, ghost w: string) returns (ok: bool, op: Operand)
      requires Holds(w) && IsWord(w) && start < |w| && (!isIndex ==> start == 0)
      requires input[start] == '-' || IsDigit(input[start])
      modifies this`state, this`error
      ensures if ok then state == old(state) && error == old(error) else state == Finished && error
      ensures isIndex ==> forall d: nat :: ParseIndex(w[start..], d) == if ok then Index(op, d) else NoIndex
      ensures !isIndex ==> Parse(w) == if ok then Some(op) else None
    {
      hide NumberEnd, Unsigned, IsWord;
      ghost var v := w[start..];
      InBuffer(w, start, 0);
      ok, op := false, Num(0);
      if isIndex && input[start] == '-' {
        Stop();
      } else {
        var i := ScanNumber(start, if isIndex then ']' else '\0', w);
        InBuffer(w, start, i - start);
        if input[i] == if isIndex then ']' else '\0' {
          assert input[start..i] == v[..i - start];
          if !isIndex {
            NulAtEnd(w, i);
            assert v == w;
          }
          ok, op := true, Num(Atoi(input[start..i]));
        }
      }
    }

    /** Parses the word from `start` on; `isIndex` tells whether a closing bracket ends it. */
    method ParseVarval(start: nat, isIndex: bool, depth: nat, ghost w: string)
      returns (ok: bool, op: Operand, deep: nat)
      requires Holds(w) && IsWord(w) && start <= |w| && (!isIndex ==> start == 0)
      modifies this`state, this`error
      ensures if ok then state == old(state) && error == old(error) else state == Finished && error
      ensures isIndex ==> ParseIndex(w[start..], depth) == if ok then Index(op, deep) else NoIndex
      ensures !isIndex ==> Parse(w) == if ok then Some(op) else None
      decreases |w| - start, 1
    {
      hide NameEnd, NumberEnd, Unsigned, Count, IsWord, IsAlnum;
      InBuffer(w, start, 0);
      ok, op, deep := false, Num(0), depth;
      if input[start] == '$' {
        InBuffer(w, start, 1);
        if IsAlpha(input[start + 1]) {
          ok, op, deep := ParseName(start, isIndex, depth, w);
        } else {
          Stop();
        }
      } else if input[start] == '-' || IsDigit(input[start]) {
        assert start < |w|;
        ok, op := ParseNumber(start, isIndex, w);
      } else {
        Stop();
      }
      assert !isIndex ==> w[start..] == w;
    }

    /** The buffer from `start` on, character by character. */
    lemma InBuffer(w: string, start: nat, k: nat)
      requires Holds(w) && start + k <= |w|
      ensures At(w[start..], k) == input[start + k]
    {
      if start + k < |w| { assert input[..|w|][start + k] == w[start + k]; }
    }

    lemma BufferSlice(w: string, start: nat, a: nat, b: nat)
      requires Holds(w) && a <= b && start + b <= |w|
      ensures input[start + a..start + b] == w[start..][a..b]
    {
      assert input[..|w|][start + a..start + b] == input[start + a..start + b];
    }

    method ParseName(start: nat, isIndex: bool, depth: nat, ghost w: string) returns (ok: bool, op: Operand, deep: nat)
      requires Holds(w) && IsWord(w) && start + 1 < |w| && (!isIndex ==> start == 0)
      requires input[start] == '$' && IsAlpha(input[start + 1])
      modifies this`state, this`error
      ensures if ok then state == old(state) && error == old(error) else state == Finished && error
      ensures isIndex ==> ParseIndex(w[start..], depth) == if ok then Index(op, deep) else NoIndex
      ensures !isIndex ==> Parse(w) == if ok then Some(op) else None
      decreases |w| - start, 0
    {
      hide NameEnd, NumberEnd, Unsigned, Count, IsWord, IsAlnum, IsAlpha, Parse, ParseIndex, At;
      ghost var v := w[start..];
      InBuffer(w, start, 0);
      InBuffer(w, start, 1);
      var stop := if isIndex then ']' else '\0';
      ok, op, deep := false, Num(0), depth;
      var i := ScanName(start, stop, w);
      if isIndex { IndexOfName(v, depth); } else { OperandOfName(v); }
      var name := input[start + 1..i];
      InBuffer(w, start, i - start);
      BufferSlice(w, start, 1, i - start);
      if !isIndex { assert w[0..] == w; }
      if input[i] == stop {
        ok, op := true, Var(name);
      } else if input[i] == '[' {
        var ix;
        assert v[i - start + 1..] == w[i + 1..];
        ok, ix, deep := ParseVarval(i + 1, true, if isIndex then depth + 1 else 1, w);
        op := Elem(name, ix);
        if ok && !isIndex {
          var n := CountClosing(i + 1, w);
          if n != deep {
            Stop();
            ok := false;
          }
        }
      }
    }

    method IsValidLabel(n: nat, ghost w: string) returns (valid: bool)
      requires Holds(w) && n == |w|
      modifies this`state, this`error
      ensures valid <==> CheckLabel(w).GoodLabel?
      ensures if CheckLabel(w).BadLabel? then state == Finished && error else state == old(state) && error == old(error)
    {
      assert forall k | 0 <= k < n :: input[k] == w[k];
      if n > 0 && input[0] == 'L' && input[..n] != "LOAD" {
        if n == 1 {
          Stop();
          return false;
        }
        for i := 1 to n
          invariant forall k | 1 <= k < i :: IsAlnum(w[k])
          invariant state == old(state) && error == old(error)
        {
          if !IsAlnum(input[i]) {
            Stop();
            return false;
          }
        }
        return true;
      }
      return false;
    }

    /** The program goes on. */
    ghost predicate Going()
      reads this`state, this`error
    {
      (state == InstructionLine || state == LastLine) && !error
    }

    /** The state after a scan with that result, which began with the tokens `before`. */
    ghost predicate Result(r: Scanned, before: seq<Token>)
      reads this`pos, this`c, this`state, this`error, this`tokens
    {
      if r.Failed? then state == Finished && error
      else Going() && tokens == before + r.tokens && Ahead() == r.ahead && (state == LastLine <==> r.last)
    }

    method OperandToken(named: bool, ghost rest: seq<bool>) returns (ok: bool, ghost tok: Token)
      requires Valid() && Going()
      modifies this`pos, this`c, this`line, this`state, this`error, this`tokens, input
      ensures Valid()
      ensures if ok then Going() && tokens == old(tokens) + [tok] else state == Finished && error
      ensures ScanOperands(old(Ahead()), old(state) == LastLine, [named] + rest) ==
              if ok then Prepend(tok, ScanOperands(Ahead(), state == LastLine, rest)) else Failed
    {
      hide Count, Fetch, Parse, Ahead, ScanOperands;
      tok := StringTok("");
      OperandStep(Ahead(), state == LastLine, named, rest);
      ghost var f := Fetch(Ahead(), state == LastLine, true);
      FetchedIsWord(Ahead(), state == LastLine, true) by { NoNulAhead(); }
      var n := GetNextWord(true);
      if n == 0 {
        Stop();
        return false, tok;
      }
      assert input[0] == f.word[0];
      if named && (input[0] == '-' || IsDigit(input[0])) {
        Stop();
        return false, tok;
      }
      var op, deep;
      ok, op, deep := ParseVarval(0, false, 0, f.word);
      if ok {
        tokens := tokens + [OperandTok(op)];
        tok := OperandTok(op);
      }
    }

    lemma NoNulAhead()
      requires Valid()
      ensures '\0' !in Ahead()
    {}

    method EndOfLine()
      requires Valid() && Going()
      modifies this`pos, this`c, this`line, this`state, this`error
      ensures Valid()
      ensures LineEnd(old(Ahead())).None? ==> state == Finished && error
      ensures LineEnd(old(Ahead())).Some? ==> state == old(state) && !error && Ahead() == LineEnd(old(Ahead())).value
    {
      var r := FlushUpToNewline();
      if r == NotEmpty { Stop(); }
    }

    method LoadStoreHandler(code: Opcode)
      requires Valid() && Going() && Named(code) == [true, false] && EndsPlainly(code)
      modifies this`pos, this`c, this`line, this`state, this`error, this`tokens, input
      ensures Valid() && Result(ScanInstruction(code, old(Ahead()), old(state) == LastLine), old(tokens))
    {
      hide Count, ScanOperands, Ahead;
      ghost var named, got := Named(code), [];
      ghost var all := ScanOperands(Ahead(), state == LastLine, named);
      for i := 0 to 2
        invariant Valid() && Going() && tokens == old(tokens) + got
        invariant all == Prefixed(got, ScanOperands(Ahead(), state == LastLine, named[i..]))
      {
        assert named[i..] == [i == 0] + named[i + 1..];
        var ok, tok := OperandToken(i == 0, named[i + 1..]);
        if !ok { return; }
        got := got + [tok];
      }
      assert named[2..] == [];
      NoOperands(Ahead(), state == LastLine);
      EndOfLine();
    }

    method SetHandler()
      requires Valid() && Going()
      modifies this`pos, this`c, this`line, this`state, this`error, this`tokens, input
      ensures Valid() && Result(ScanInstruction(SetOp, old(Ahead()), old(state) == LastLine), old(tokens))
    {
      hide Count, ScanOperands, Ahead;
      assert Named(SetOp) == [true] + [false] && [false] == [false] + [];
      var ok, a := OperandToken(true, [false]);
      if !ok { return; }
      ghost var b;
      ok, b := OperandToken(false, []);
      if !ok { return; }
      NoOperands(Ahead(), state == LastLine);
      EndOfLine();
    }

    method PrimitiveOpHandler(op: ArithOp)
      requires Valid() && Going()
      modifies this`pos, this`c, this`line, this`state, this`error, this`tokens, input
      ensures Valid() && Result(ScanInstruction(ArithOp(op), old(Ahead()), old(state) == LastLine), old(tokens))
    {
      hide Count, ScanOperands, Ahead;
      assert Named(ArithOp(op)) == [true] + [false, false];
      assert [false, false] == [false] + [false] && [false] == [false] + [];
      var ok, a := OperandToken(true, [false, false]);
      if !ok { return; }
      ghost var b;
      ok, b := OperandToken(false, [false]);
      if !ok { return; }
      ghost var d;
      ok, d := OperandToken(false, []);
      if !ok { return; }
      NoOperands(Ahead(), state == LastLine);
      EndOfLine();
    }

    method SemaphoreHandler(code: Opcode)
      requires Valid() && Going() && (code.DownOp? || code.UpOp?)
      modifies this`pos, this`c, this`line, this`state, this`error, this`tokens, input
      ensures Valid() && Result(ScanInstruction(code, old(Ahead()), old(state) == LastLine), old(tokens))
    {
      hide Count, ScanOperands, Ahead;
      assert Named(code) == [true] + [];
      var ok, a := OperandToken(true, []);
      if !ok { return; }
      NoOperands(Ahead(), state == LastLine);
      EndOfLine();
    }

    method SleepHandler()
      requires Valid() && Going()
      modifies this`pos, this`c, this`line, this`state, this`error, this`tokens, input
      ensures Valid() && Result(ScanInstruction(SleepOp, old(Ahead()), old(state) == LastLine), old(tokens))
    {
      hide Count, ScanOperands, Ahead;
      assert Named(SleepOp) == [false] + [];
      var ok, a := OperandToken(false, []);
      if !ok { return; }
      NoOperands(Ahead(), state == LastLine);
      EndOfLine();
    }

    /** The label at the end of a branch. */
    method BranchTarget()
      requires Valid() && Going()
      modifies this`pos, this`c, this`line, this`state, this`error, this`tokens, input
      ensures Valid() && Result(ScanTarget(old(Ahead()), old(state) == LastLine), old(tokens))
    {
      hide Count, Ahead, Fetch, CheckLabel, LineEnd;
      ghost var f := Fetch(Ahead(), state == LastLine, true);
      EmptyIsNoLabel();
      var n := GetNextWord(true);
      if n == 0 {
        Stop();
        return;
      }
      var valid := IsValidLabel(n, f.word);
      if !valid {
        Stop();
        return;
      }
      LeftIs();
      tokens := tokens + [LabelTok(input[..n], |text| - pos)];
      var r := FlushUpToNewline();
      if r == NotEmpty { Stop(); }
      if c.None? || state == LastLine { state := InstructionLine; }
    }

    /** The two operands of a conditional branch. */
    method BranchOperands(ghost code: Opcode) returns (ok: bool)
      requires Valid() && Going() && code.BranchOp?
      modifies this`pos, this`c, this`line, this`state, this`error, this`tokens, input
      ensures Valid()
      ensures var r := ScanOperands(old(Ahead()), old(state) == LastLine, Named(code));
        Result(r, old(tokens)) && (ok <==> r.Done?)
    {
      hide Count, ScanOperands, Ahead;
      ghost var a, b;
      assert Named(code) == [false] + [false] && [false] == [false] + [];
      ok, a := OperandToken(false, [false]);
      if !ok { return; }
      ok, b := OperandToken(false, []);
      if !ok { return; }
      NoOperands(Ahead(), state == LastLine);
    }

    method BranchHandler(code: Opcode)
      requires Valid() && Going() && (code.BranchOp? || code.BraOp?)
      modifies this`pos, this`c, this`line, this`state, this`error, this`tokens, input
      ensures Valid() && Result(ScanInstruction(code, old(Ahead()), old(state) == LastLine), old(tokens))
    {
      hide Count, ScanOperands, Ahead, ScanTarget;
      NoOperands(Ahead(), state == LastLine);
      if !code.BraOp? {
        var ok := BranchOperands(code);
        if !ok { return; }
      }
      BranchTarget();
    }

    lemma LeftIs()
      requires Valid()
      ensures |text| - pos == Left(Ahead())
    {}

    /** Reads the characters of a string into the buffer, up to the closing quote. */
    method CollectString() returns (ok: bool, n: nat)
      requires Valid() && Going()
      modifies this`pos, this`c, this`line, this`state, this`error, input
      ensures Valid()
      ensures var q := ScanString(Behind(old(Ahead())), "");
        if q.Unquoted? then !ok && state == Finished && error
        else (ok && state == old(state) && !error && n == |q.text| && n < input.Length && input[..n] == q.text
              && Ahead() == q.ahead && line == old(line) + if q.ahead[0] == '\n' then 1 else 0)
    {
      hide Count, Ahead;
      ghost var q := ScanString(Behind(Ahead()), "");
      n := 0;
      while true
        invariant Valid() && n <= MAX_TEXT && state == old(state) && !error && line == old(line)
        invariant ScanString(Behind(Ahead()), input[..n]) == q
        decreases |Ahead()|
      {
        ghost var u := Behind(Ahead());
        NextChar();
        if c.None? {
          Stop();
          return false, n;
        }
        if n >= MAX_TEXT {
          Stop();
          return false, n;
        }
        if !IsPrint(c.value) {
          Stop();
          return false, n;
        }
        if c.value == '\"' {
          NextChar();
          if c.None? {
            Stop();
            return false, n;
          }
          if !IsSpace(c.value) {
            Stop();
            return false, n;
          }
          return true, n;
        }
        input[n] := c.value;
        n := n + 1;
        assert input[..n] == input[..n - 1] + [c.value];
      }
    }

    /** One operand of PRINT, if the line holds another. */
    method PrintArgument() returns (more: bool, ghost tok: Token)
      requires Valid() && Going()
      modifies this`pos, this`c, this`line, this`state, this`error, this`tokens, input
      ensures Valid()
      ensures !more ==> Result(ScanArguments(old(Ahead()), old(state) == LastLine), old(tokens))
      ensures more ==> Going() && |Ahead()| < |old(Ahead())| && tokens == old(tokens) + [tok]
      ensures more ==>
        ScanArguments(old(Ahead()), old(state) == LastLine) == Prepend(tok, ScanArguments(Ahead(), state == LastLine))
    {
      hide Count, Ahead, Fetch, Parse, ScanArguments;
      tok := StringTok("");
      ghost var f := Fetch(Ahead(), state == LastLine, true);
      ArgumentsStep(Ahead(), state == LastLine);
      FetchedIsWord(Ahead(), state == LastLine, true) by { NoNulAhead(); }
      EofUnreadable();
      var n := GetNextWord(true);
      if n == 0 { return false, tok; }
      var op, deep;
      more, op, deep := ParseVarval(0, false, 0, f.word);
      if more {
        tokens := tokens + [OperandTok(op)];
        tok := OperandTok(op);
      }
    }

    lemma ResultPrefixed(got: seq<Token>, r: Scanned, before: seq<Token>, now: seq<Token>)
      requires now == before + got && Result(r, now)
      ensures Result(Prefixed(got, r), before)
    {}

    lemma ResultPrepended(tok: Token, r: Scanned, before: seq<Token>)
      requires Result(r, before + [tok])
      ensures Result(Prepend(tok, r), before)
    {}

    /** The operands of PRINT, as many as the line holds. */
    method PrintArguments()
      requires Valid() && Going()
      modifies this`pos, this`c, this`line, this`state, this`error, this`tokens, input
      ensures Valid() && Result(ScanArguments(old(Ahead()), old(state) == LastLine), old(tokens))
    {
      hide Count, Ahead, ScanArguments, Prefixed, Prepend, Valid;
      PrefixedNone(ScanArguments(Ahead(), state == LastLine));
      ghost var all, got := ScanArguments(Ahead(), state == LastLine), [];
      while true
        invariant Valid() && Going() && tokens == old(tokens) + got
        invariant all == Prefixed(got, ScanArguments(Ahead(), state == LastLine))
        decreases |Ahead()|
      {
        ghost var now := tokens;
        ghost var r := ScanArguments(Ahead(), state == LastLine);
        var more, tok := PrintArgument();
        if !more {
          ResultPrefixed(got, r, old(tokens), now);
          break;
        }
        PrefixedMore(got, tok, ScanArguments(Ahead(), state == LastLine));
        got := got + [tok];
      }
    }

    /** Behind the string, operands are looked for on its line. */
    method AfterPrintString(thisLine: nat)
      requires Valid() && Going() && Ahead() != "" && IsSpace(Ahead()[0])
      requires line == thisLine + if Ahead()[0] == '\n' then 1 else 0
      modifies this`pos, this`c, this`line, this`state, this`error, this`tokens, input
      ensures Valid() && Result(ScanAfterString(old(Ahead()), old(state) == LastLine), old(tokens))
    {
      hide Count, Ahead, Skip, Crosses, Breaks, ScanArguments;
      SkipStep(Ahead());
      CrossesBreaks(Ahead());
      var found := FlushUpToChar();
      AheadShape();
      if !found || thisLine != line {
        if c.None? { state := LastLine; }
        return;
      }
      PrintArguments();
    }

    method PrintHandler()
      requires Valid() && Going()
      modifies this`pos, this`c, this`line, this`state, this`error, this`tokens, input
      ensures Valid() && Result(ScanPrint(old(Ahead()), old(state) == LastLine), old(tokens))
    {
      hide Count, Ahead, Skip, ScanString, ScanAfterString, Valid, Prepend, Behind, Breaks;
      var found := FlushUpToChar();
      AheadShape();
      if !found || c != Some('\"') {
        Stop();
        return;
      }
      var thisLine := line;
      var ok, n := CollectString();
      if !ok { return; }
      var tok := StringTok(input[..n]);
      tokens := tokens + [tok];
      ghost var r := ScanAfterString(Ahead(), state == LastLine);
      AfterPrintString(thisLine);
      ResultPrepended(tok, r, old(tokens));
    }

    method CallInstructionHandler(n: nat, ghost w: string)
      requires Valid() && Going() && n == |w| > 0 && Holds(w)
      modifies this`pos, this`c, this`line, this`state, this`error, this`tokens, input
      ensures Valid() && Result(ScanNamed(w, old(Ahead()), old(state) == LastLine), old(tokens))
    {
      hide Count, Ahead, Lookup, ScanInstruction, Mnemonic;
      var code := Lookup(input[..n]);
      if code.None? {
        Stop();
        return;
      }
      tokens := tokens + [InstrTok(code.value)];
      CallHandler(code.value);
    }

    method CallHandler(code: Opcode)
      requires Valid() && Going()
      modifies this`pos, this`c, this`line, this`state, this`error, this`tokens, input
      ensures Valid() && Result(ScanInstruction(code, old(Ahead()), old(state) == LastLine), old(tokens))
    {
      hide Count, Ahead, ScanOperands, ScanTarget, ScanPrint, LineEnd;
      match code {
        case LoadOp => LoadStoreHandler(code);
        case StoreOp => LoadStoreHandler(code);
        case SetOp => SetHandler();
        case ArithOp(op) => PrimitiveOpHandler(op);
        case BranchOp(_) => BranchHandler(code);
        case BraOp => BranchHandler(code);
        case DownOp => SemaphoreHandler(code);
        case UpOp => SemaphoreHandler(code);
        case SleepOp => SleepHandler();
        case PrintOp => PrintHandler();
        case ReturnOp =>
      }
    }

    /** The label in the buffer becomes a token, with the place behind it. */
    method PushLabel(n: nat, ghost w: string)
      requires Valid() && n == |w| && Holds(w)
      modifies this`tokens
      ensures Valid() && tokens == old(tokens) + [LabelTok(w, Left(Ahead()))]
    {
      LeftIs();
      tokens := tokens + [LabelTok(input[..n], |text| - pos)];
    }

    /** The tokens of the next line. */
    method TokenizeNextLine()
      requires Valid() && Going()
      modifies this`pos, this`c, this`line, this`state, this`error, this`tokens, input
      ensures Valid() && Result(Tokenize(old(Ahead()), old(state) == LastLine), old(tokens))
    {
      hide Count, Ahead, Fetch, ScanNamed, CheckLabel, Left, Skip, Valid, Holds;
      EmptyIsNoLabel();
      ghost var f := Fetch(Ahead(), state == LastLine, false);
      var n := GetNextWord(false);
      if n == 0 { return; }
      var valid := IsValidLabel(n, f.word);
      if valid {
        PushLabel(n, f.word);
        f := Fetch(Ahead(), state == LastLine, true);
        n := GetNextWord(true);
        if n == 0 { Stop(); }
      }
      if state != Finished { CallInstructionHandler(n, f.word); }
    }
  }

  lemma NulAtEnd(w: string, i: nat)
    requires IsWord(w) && i <= |w| && At(w, i) == '\0'
    ensures i == |w|
  {}

  /** The newlines in the white space at the beginning. */
  function Breaks(s: string): nat {
    if s == "" || !IsSpace(s[0]) then 0 else (if s[0] == '\n' then 1 else 0) + Breaks(s[1..])
  }

  lemma SkipStep(s: string)
    ensures s == "" || !IsSpace(s[0]) ==> Skip(s) == s && Breaks(s) == 0
    ensures s != "" && IsSpace(s[0]) ==>
      Skip(s) == Skip(s[1..]) && Breaks(s) == (if s[0] == '\n' then 1 else 0) + Breaks(s[1..])
  {}

  lemma {:induction false} SkipBehind(s: string)
    ensures s == "" || !IsSpace(s[0]) ==> Skip(s) == s && Breaks(s) == 0
    ensures s != "" && IsSpace(s[0]) ==>
      Skip(s) == Skip(Behind(s)) && Breaks(s) == (if s[0] == '\n' then 1 else 0) + Breaks(Behind(s))
    ensures Skip(s) == "" || !IsSpace(Skip(s)[0])
  {
    SkipStep(s);
    SkipStops(s);
    hide Skip, Breaks, IsSpace;
  }

  lemma SkipStops(s: string)
    ensures Skip(s) == "" || !IsSpace(Skip(s)[0])
  {}

  lemma {:induction false} CrossesBreaks(s: string)
    ensures Crosses(s) <==> Breaks(s) > 0
  {
    if s != "" && IsSpace(s[0]) { CrossesBreaks(s[1..]); }
  }

  /** The word at the beginning of a text, as the buffer gets it. */
  function FirstWord(s: string): string {
    if s == "" then EOF_WORD else s[..WordLength(s)]
  }

  function BehindWord(s: string): string {
    s[WordLength(s)..]
  }

  function Prefixed(ts: seq<Token>, r: Scanned): Scanned {
    if r.Done? then r.(tokens := ts + r.tokens) else r
  }

  lemma PrefixedNone(r: Scanned)
    ensures Prefixed([], r) == r
  {}

  lemma PrefixedMore(ts: seq<Token>, t: Token, r: Scanned)
    ensures Prefixed(ts, Prepend(t, r)) == Prefixed(ts + [t], r)
  {}

  /** What PRINT makes of its next word. */
  function ArgumentsAfter(s: string, f: Fetched): Scanned {
    if f.TooLong? then Failed
    else if f.word == "" then Done([], f.ahead, f.last)
    else if Parse(f.word).None? || s == "" then Failed
    else Prepend(OperandTok(Parse(f.word).value), ScanArguments(f.ahead, f.last))
  }

  lemma {:induction false} ArgumentsStep(s: string, last: bool)
    ensures ScanArguments(s, last) == ArgumentsAfter(s, Fetch(s, last, true))
  {
    hide Fetch, Parse;
  }

  lemma EofUnreadable()
    ensures Parse(EOF_WORD).None?
  {}

  lemma NoOperands(s: string, last: bool)
    ensures ScanOperands(s, last, []) == Done([], s, last)
  {}

  /** Nothing but blanks may follow the operands. */
  predicate EndsPlainly(code: Opcode) {
    !code.BranchOp? && !code.BraOp? && !code.PrintOp? && !code.ReturnOp?
  }

  lemma EmptyIsNoLabel()
    ensures CheckLabel("").NoLabel?
  {}

  lemma {:induction false} OperandStep(s: string, last: bool, named: bool, rest: seq<bool>)
    ensures var f := Fetch(s, last, true);
      ScanOperands(s, last, [named] + rest) ==
      if f.TooLong? || f.word == "" || (named && LooksNumeric(f.word)) || Parse(f.word).None? then Failed
      else Prepend(OperandTok(Parse(f.word).value), ScanOperands(f.ahead, f.last, rest))
  {
    hide Fetch, Parse, LooksNumeric;
    assert ([named] + rest)[1..] == rest;
  }

  lemma {:induction false} FetchedIsWord(s: string, last: bool, thisLine: bool)
    requires '\0' !in s
    ensures var f := Fetch(s, last, thisLine); f.Fetched? ==> IsWord(f.word)
  {
    hide Skip, WordLength, Crosses;
  }

  /** The text from the next word on. */
  function AtWord(s: string): string {
    Skip(s)
  }

  /** There is no next word, or not on this line. */
  predicate Missed(s: string, thisLine: bool) {
    s != "" && (Skip(s) == "" || (thisLine && Breaks(s) > 0))
  }

  /** Where the search for a word stops then. */
  function Passed(s: string, thisLine: bool): string {
    if thisLine && s != "" && s[0] == '\n' then s else Skip(s)
  }

  /** The reading of a word, step by step. */
  lemma {:induction false} FetchIs(s: string, last: bool, thisLine: bool)
    ensures var t := AtWord(s);
      Fetch(s, last, thisLine) ==
      if Missed(s, thisLine) then Fetched("", Passed(s, thisLine), last)
      else if |FirstWord(t)| >= MAX_WORD then TooLong
      else Fetched(FirstWord(t), BehindWord(t), last || BehindWord(t) == "")
  {
    hide Skip, Crosses, Breaks, WordLength, FirstWord, BehindWord, IsSpace;
    CrossesBreaks(s);
    NewlineBreaks(s);
    WordParts(Skip(s));
  }

  lemma NewlineBreaks(s: string)
    ensures s != "" && s[0] == '\n' ==> Breaks(s) > 0
    ensures s == "" ==> Skip(s) == "" && Breaks(s) == 0
  {}

  lemma {:induction false} WordParts(t: string)
    ensures t == "" ==> FirstWord(t) == EOF_WORD && BehindWord(t) == "" && |FirstWord(t)| < MAX_WORD
    ensures t != "" ==> FirstWord(t) == t[..WordLength(t)] && |FirstWord(t)| == WordLength(t)
    ensures t != "" ==> BehindWord(t) == t[WordLength(t)..] && (BehindWord(t) == "" <==> WordLength(t) == |t|)
  {
    if t != "" { hide WordLength; }
  }

  /** What is left when `n` characters of the word at the beginning were read, the last of them
      being the lookahead. */
  function Rest(t: string, n: nat): string
    requires 1 <= n && (t != "" ==> n <= |t|)
  {
    if t == "" then "" else t[n - 1..]
  }

  predicate Solid(t: string, n: nat)
    requires t != "" ==> n <= |t|
  {
    t != "" ==> forall k | 0 <= k < n :: !IsSpace(t[k])
  }

  lemma RestFirst(t: string)
    ensures Rest(t, 1) == t && (t == "" || !IsSpace(t[0]) ==> Solid(t, 1))
  {}

  lemma {:induction false} RestNext(t: string, n: nat)
    requires 1 <= n && (t != "" ==> n <= |t|)
    ensures t == "" <==> Rest(t, n) == ""
    ensures t != "" && n == |t| ==> Rest(t, n)[1..] == ""
    ensures t != "" && n < |t| ==> Rest(t, n)[1..] == Rest(t, n + 1) != "" && Rest(t, n + 1)[0] == t[n]
    ensures Solid(t, n) && t != "" && n < |t| && !IsSpace(t[n]) ==> Solid(t, n + 1)
  {
    if t != "" { assert t[n - 1..][1..] == t[n..]; }
  }

  lemma {:induction false} WordAtLeast(t: string, n: nat)
    requires 0 < n <= |t| && Solid(t, n)
    ensures |FirstWord(t)| >= n
  {
    hide WordLength;
  }

  lemma {:induction false} WordIs(t: string, n: nat)
    requires t != "" ==> 1 <= n <= |t| && Solid(t, n) && (n < |t| ==> IsSpace(t[n]))
    requires t == "" ==> n == 1
    ensures FirstWord(t) == if t == "" then EOF_WORD else t[..n]
    ensures BehindWord(t) == if t == "" then "" else t[n..]
    ensures t != "" ==> n == |t| || Rest(t, n)[1..] == t[n..]
  {
    hide WordLength;
    if t != "" {
      assert t[n - 1..][1..] == t[n..];
    }
  }
}
