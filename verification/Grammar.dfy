/** The language of program lines: exactly which words make which line, whatever stands between
    them. The grammar is written out here on its own, and the tokenizer is proved to follow it. */
module Grammar {
  import opened Syntax
  import opened Chars
  import opened OperandText
  import opened Scanning
  import SourceText

  // ----- words -----

  /** The words from here to the end of the line. */
  function Words(s: string): seq<string>
    decreases |s|
  {
    if s == "" || s[0] == '\n' then []
    else if IsSpace(s[0]) then Words(s[1..])
    else
      var n := WordLength(s);
      [s[..n]] + Words(s[n..])
  }

  /** The text from the end of the line on. */
  function EndOf(s: string): string {
    if s == "" || s[0] == '\n' then s else EndOf(s[1..])
  }

  /** A text that begins where a word may end. */
  predicate Pauses(s: string) {
    s == "" || IsSpace(s[0])
  }

  lemma {:induction false} EndBehind(s: string, n: nat)
    requires n <= |s| && forall i | 0 <= i < n :: s[i] != '\n'
    ensures EndOf(s) == EndOf(s[n..])
  {
    if n > 0 {
      EndBehind(s[1..], n - 1);
      assert s[1..][n - 1..] == s[n..];
    }
  }

  /** Over white space that stays on the line. */
  lemma {:induction false} WordsSkip(s: string)
    ensures Words(s) != [] <==> Skip(s) != "" && !Crosses(s)
    ensures Words(s) != [] ==> Words(s) == Words(Skip(s)) && EndOf(s) == EndOf(Skip(s))
  {
    if s != "" && IsSpace(s[0]) && s[0] != '\n' { WordsSkip(s[1..]); }
  }

  /** A word that is fetched on this line is the next one of its words. */
  lemma {:induction false} FetchOnLine(s: string, last: bool)
    ensures var f, ws := Fetch(s, last, true), Words(s);
      && (s == "" ==> f == Fetched(EOF_WORD, "", true))
      && (s != "" && ws == [] ==> f.Fetched? && f.word == "" && f.last == last)
      && (ws != [] && |ws[0]| >= 127 ==> f == TooLong)
      && (ws != [] && |ws[0]| <= 126 ==>
           f.Fetched? && f.word == ws[0] != "" && Words(f.ahead) == ws[1..] && EndOf(f.ahead) == EndOf(s)
           && Pauses(f.ahead) && f.last == (last || f.ahead == ""))
  {
    WordsSkip(s);
    if Words(s) != [] { WordAhead(Skip(s)); }
    hide Words, Skip, Crosses, EndOf, WordLength;
  }

  /** The word at the beginning of a text. */
  lemma {:induction false} WordAhead(t: string)
    requires t != "" && !IsSpace(t[0])
    ensures var n := WordLength(t);
      && n > 0 && Words(t) == [t[..n]] + Words(t[n..]) && EndOf(t[n..]) == EndOf(t) && Pauses(t[n..])
  {
    EndBehind(t, WordLength(t));
  }

  /** The first word of a line may stand on a later line. */
  lemma {:induction false} FetchFirst(s: string)
    ensures var f, ws := Fetch(s, false, false), Words(Skip(s));
      && (ws == [] <==> Skip(s) == "")
      && (s == "" ==> f == Fetched(EOF_WORD, "", true))
      && (s != "" && ws == [] ==> f == Fetched("", "", false))
      && (ws != [] && |ws[0]| >= 127 ==> f == TooLong)
      && (ws != [] && |ws[0]| <= 126 ==>
           f.Fetched? && f.word == ws[0] != "" && Words(f.ahead) == ws[1..] && EndOf(f.ahead) == EndOf(Skip(s))
           && Pauses(f.ahead) && f.last == (f.ahead == ""))
  {
    if Skip(s) != "" { WordAhead(Skip(s)); }
    hide Skip, WordLength, EndOf;
  }

  lemma {:induction false} LineEndIs(s: string)
    requires Pauses(s)
    ensures LineEnd(s) == if Words(s) == [] then Some(EndOf(s)) else None
  {
    if s != "" && s[0] != '\n' {
      if s[1..] != "" && IsSpace(s[1]) { LineEndIs(s[1..]); }
    }
  }

  // ----- the grammar -----

  /** The word is an operand. */
  predicate Reads(w: string, x: Operand) {
    |w| <= 126 && Parse(w) == Some(x)
  }

  predicate ReadAs(ws: seq<string>, xs: seq<Operand>) {
    |ws| == |xs| && forall i | 0 <= i < |xs| :: Reads(ws[i], xs[i])
  }

  /** Labels begin with an L. */
  predicate IsLabel(w: string) {
    2 <= |w| <= 126 && w[0] == 'L' && w != "LOAD" && forall i | 1 <= i < |w| :: IsAlnum(w[i])
  }

  /** The name of an instruction, and its operands. */
  predicate Phrase(ws: seq<string>, name: string, xs: seq<Operand>) {
    ws != [] && ws[0] == name && ReadAs(ws[1..], xs)
  }

  /** A branch names its label at the end. */
  predicate Jump(ws: seq<string>, name: string, xs: seq<Operand>, target: string) {
    |ws| >= 2 && Phrase(ws[..|ws| - 1], name, xs) && ws[|ws| - 1] == target && IsLabel(target)
  }

  /** The words of an instruction. What is loaded into, stored in, set or computed, and what a
      semaphore is, must have a name. A PRINT is not made of words. */
  predicate Says(ws: seq<string>, i: Instr) {
    match i
    case Load(dst, glob) => Phrase(ws, "LOAD", [dst, glob]) && !dst.Num?
    case Store(glob, src) => Phrase(ws, "STORE", [glob, src]) && !glob.Num?
    case Set(dst, src) => Phrase(ws, "SET", [dst, src]) && !dst.Num?
    case Arith(Add, dst, a, b) => Phrase(ws, "ADD", [dst, a, b]) && !dst.Num?
    case Arith(Sub, dst, a, b) => Phrase(ws, "SUB", [dst, a, b]) && !dst.Num?
    case Arith(Mul, dst, a, b) => Phrase(ws, "MUL", [dst, a, b]) && !dst.Num?
    case Arith(Div, dst, a, b) => Phrase(ws, "DIV", [dst, a, b]) && !dst.Num?
    case Arith(Mod, dst, a, b) => Phrase(ws, "MOD", [dst, a, b]) && !dst.Num?
    case Branch(Gt, a, b, target) => Jump(ws, "BRGT", [a, b], target)
    case Branch(Ge, a, b, target) => Jump(ws, "BRGE", [a, b], target)
    case Branch(Lt, a, b, target) => Jump(ws, "BRLT", [a, b], target)
    case Branch(Le, a, b, target) => Jump(ws, "BRLE", [a, b], target)
    case Branch(Eq, a, b, target) => Jump(ws, "BREQ", [a, b], target)
    case Bra(target) => Jump(ws, "BRA", [], target)
    case Down(glob) => Phrase(ws, "DOWN", [glob]) && !glob.Num?
    case Up(glob) => Phrase(ws, "UP", [glob]) && !glob.Num?
    case Sleep(amount) => Phrase(ws, "SLEEP", [amount])
    case Print(_, _) => false
    case Return => ws != [] && ws[0] == "RETURN"
  }

  /** A line may begin with a label. */
  predicate SaysLine(ws: seq<string>, l: Line) {
    match l.tag
    case None => Says(ws, l.instr)
    case Some(tag) => ws != [] && ws[0] == tag && IsLabel(tag) && Says(ws[1..], l.instr)
  }

  // ----- the names of the instructions -----

  function Entry(w: string): Option<Opcode> {
    if w == "LOAD" then Some(LoadOp)
    else if w == "STORE" then Some(StoreOp)
    else if w == "SET" then Some(SetOp)
    else if w == "ADD" then Some(ArithOp(Add))
    else if w == "SUB" then Some(ArithOp(Sub))
    else if w == "MUL" then Some(ArithOp(Mul))
    else if w == "DIV" then Some(ArithOp(Div))
    else if w == "MOD" then Some(ArithOp(Mod))
    else if w == "BRGT" then Some(BranchOp(Gt))
    else if w == "BRGE" then Some(BranchOp(Ge))
    else if w == "BRLT" then Some(BranchOp(Lt))
    else if w == "BRLE" then Some(BranchOp(Le))
    else if w == "BREQ" then Some(BranchOp(Eq))
    else if w == "BRA" then Some(BraOp)
    else if w == "DOWN" then Some(DownOp)
    else if w == "UP" then Some(UpOp)
    else if w == "SLEEP" then Some(SleepOp)
    else if w == "PRINT" then Some(PrintOp)
    else if w == "RETURN" then Some(ReturnOp)
    else None
  }

  lemma NamedMnemonic(code: Opcode)
    ensures Entry(Mnemonic(code)) == Some(code)
  {}

  lemma MnemonicNamed(w: string)
    ensures Entry(w).Some? ==> Mnemonic(Entry(w).value) == w
  {}

  /** The table of instructions holds these nineteen names, and no other word is found in it. */
  lemma {:induction false} InstructionNames(w: string)
    ensures Lookup(w) == Entry(w)
  {
    hide Entry, Mnemonic, Lookup;
    MnemonicNamed(w);
    if Entry(w).Some? { SourceText.LookupMnemonic(Entry(w).value); }
    if Lookup(w).Some? { NamedMnemonic(Lookup(w).value); }
  }

  // ----- operands -----

  lemma {:induction false} NumericIsNum(w: string, x: Operand)
    requires Parse(w) == Some(x)
    ensures LooksNumeric(w) <==> x.Num?
  {
    hide NameEnd, NumberEnd, ParseIndex, Count;
  }

  /** The first words of the line are these operands. */
  predicate Begins(ws: seq<string>, xs: seq<Operand>, named: seq<bool>) {
    && |xs| == |named| <= |ws| && ReadAs(ws[..|xs|], xs)
    && forall i | 0 <= i < |xs| :: named[i] ==> !xs[i].Num?
  }

  predicate Operands(ts: seq<Token>, xs: seq<Operand>) {
    |ts| == |xs| && forall i | 0 <= i < |xs| :: ts[i] == OperandTok(xs[i])
  }

  lemma {:induction false} BeginsStep(ws: seq<string>, xs: seq<Operand>, named: seq<bool>)
    requires |xs| == |named| && xs != []
    ensures Begins(ws, xs, named) <==>
      ws != [] && Reads(ws[0], xs[0]) && (named[0] ==> !xs[0].Num?) && Begins(ws[1..], xs[1..], named[1..])
  {
    hide Reads;
    if Begins(ws, xs, named) {
      forall i | 0 <= i < |xs| - 1 ensures Reads(ws[1..][i], xs[1..][i]) && (named[1..][i] ==> !xs[1..][i].Num?) {
        assert Reads(ws[..|xs|][i + 1], xs[i + 1]) && (named[i + 1] ==> !xs[i + 1].Num?);
      }
    }
    if ws != [] && Begins(ws[1..], xs[1..], named[1..]) {
      forall i | 1 <= i < |xs| ensures Reads(ws[i], xs[i]) && (named[i] ==> !xs[i].Num?) {
        assert Reads(ws[1..][..|xs| - 1][i - 1], xs[1..][i - 1]) && (named[1..][i - 1] ==> !xs[1..][i - 1].Num?);
      }
    }
  }

  lemma {:induction false} OperandsStep(t: Token, ts: seq<Token>, xs: seq<Operand>)
    requires xs != []
    ensures Operands([t] + ts, xs) <==> t == OperandTok(xs[0]) && Operands(ts, xs[1..])
  {
    if t == OperandTok(xs[0]) && Operands(ts, xs[1..]) {
      forall i | 1 <= i < |xs| ensures ([t] + ts)[i] == OperandTok(xs[i]) {
        assert ts[i - 1] == OperandTok(xs[1..][i - 1]);
      }
    }
    if Operands([t] + ts, xs) {
      forall i | 0 <= i < |xs| - 1 ensures ts[i] == OperandTok(xs[1..][i]) {
        assert ([t] + ts)[i + 1] == OperandTok(xs[i + 1]);
      }
    }
  }

  /** What the tokenizer leaves of a line when it has read `n` words. */
  predicate Leaves(r: Scanned, s: string, n: nat) {
    && r.Done? && n <= |Words(s)| && Words(r.ahead) == Words(s)[n..] && Pauses(r.ahead) && EndOf(r.ahead) == EndOf(s)
  }

  /** One operand more. */
  lemma {:induction false} OneOperand(s: string, last: bool, named: seq<bool>)
    requires named != []
    ensures var r, ws := ScanOperands(s, last, named), Words(s);
      if ws != [] && |ws[0]| <= 126 && Parse(ws[0]).Some? && (named[0] ==> !Parse(ws[0]).value.Num?) then
        var f := Fetch(s, last, true);
        && f.Fetched? && Words(f.ahead) == ws[1..] && Pauses(f.ahead) && EndOf(f.ahead) == EndOf(s)
        && f.last == (last || f.ahead == "")
        && r == Prepend(OperandTok(Parse(ws[0]).value), ScanOperands(f.ahead, f.last, named[1..]))
      else r.Failed?
  {
    hide Fetch, Words, Parse, EndOf, LooksNumeric, Pauses;
    FetchOnLine(s, last);
    NoEofOperand();
    var ws := Words(s);
    if ws != [] && Parse(ws[0]).Some? { NumericIsNum(ws[0], Parse(ws[0]).value); }
  }

  /** The operands of an instruction are read exactly if the next words are operands. */
  lemma {:induction false} OperandsRead(s: string, last: bool, named: seq<bool>, xs: seq<Operand>)
    requires Pauses(s) && |xs| == |named|
    ensures var r := ScanOperands(s, last, named);
      && (r.Done? && Operands(r.tokens, xs) <==> Begins(Words(s), xs, named))
      && (r.Done? ==> |r.tokens| == |named| && Leaves(r, s, |named|))
      && (r.Done? ==> r.last == (last || (named != [] && r.ahead == "")))
    decreases |named|
  {
    if named == [] {
      NothingRead(s, last, xs);
    } else {
      hide Fetch, Words, Parse, EndOf, ScanOperands, Begins, Operands, Pauses, Leaves;
      OneOperand(s, last, named);
      BeginsStep(Words(s), xs, named);
      var f, ws := Fetch(s, last, true), Words(s);
      if ws != [] && |ws[0]| <= 126 && Parse(ws[0]).Some? && (named[0] ==> !Parse(ws[0]).value.Num?) {
        var t := ScanOperands(f.ahead, f.last, named[1..]);
        OperandsRead(f.ahead, f.last, named[1..], xs[1..]);
        if t.Done? {
          OperandsStep(OperandTok(Parse(ws[0]).value), t.tokens, xs);
          LeavesOn(t, OperandTok(Parse(ws[0]).value), f.ahead, s, |named|);
          LastStays(f.ahead, f.last, named[1..]);
        }
      }
    }
  }

  /** One word more. */
  lemma {:induction false} LeavesOn(r: Scanned, t: Token, u: string, s: string, n: nat)
    requires n > 0 && Leaves(r, u, n - 1) && Words(s) != [] && Words(u) == Words(s)[1..] && EndOf(u) == EndOf(s)
    ensures Leaves(Prepend(t, r), s, n)
  {
    hide Words, EndOf, Pauses;
    assert Words(s)[1..][n - 1..] == Words(s)[n..];
  }

  lemma NothingRead(s: string, last: bool, xs: seq<Operand>)
    requires xs == [] && Pauses(s)
    ensures var r := ScanOperands(s, last, []);
      r == Done([], s, last) && Operands([], xs) && Begins(Words(s), xs, []) && Leaves(r, s, 0)
  {}

  /** Nothing more is read at the end of the file. */
  lemma {:induction false} LastStays(s: string, last: bool, named: seq<bool>)
    requires ScanOperands(s, last, named).Done?
    ensures s == "" ==> named == []
  {
    NoEofOperand();
    hide Parse;
  }

  lemma NoEofOperand()
    ensures EOF_WORD != "" && Parse(EOF_WORD).None?
  {}

  // ----- instructions -----

  /** What a line of words that name this instruction says. */
  predicate SaysBy(code: Opcode, ws: seq<string>, i: Instr) {
    var xs := SourceText.OperandsOf(i);
    && SourceText.CodeOf(i) == code && !i.Print?
    && if i.Return? then true
       else if SourceText.Jumps(i) then
         |ws| == |xs| + 1 && Begins(ws, xs, Named(code)) && ws[|xs|] == i.target && IsLabel(i.target)
       else |ws| == |xs| && Begins(ws, xs, Named(code))
  }

  lemma {:induction false} PhraseIs(w: string, ws: seq<string>, name: string, xs: seq<Operand>)
    ensures Phrase([w] + ws, name, xs) <==> w == name && ReadAs(ws, xs)
  {
    assert ([w] + ws)[1..] == ws;
  }

  lemma {:induction false} JumpIs(w: string, ws: seq<string>, name: string, xs: seq<Operand>, target: string)
    ensures Jump([w] + ws, name, xs, target) <==>
      w == name && |ws| == |xs| + 1 && ReadAs(ws[..|xs|], xs) && ws[|xs|] == target && IsLabel(target)
  {
    hide ReadAs, IsLabel;
    if ws != [] {
      assert ([w] + ws)[..|ws|] == [w] + ws[..|ws| - 1];
      PhraseIs(w, ws[..|ws| - 1], name, xs);
    }
    ReadLength(ws[..if ws == [] then 0 else |ws| - 1], xs);
    hide Phrase;
  }

  lemma ReadLength(ws: seq<string>, xs: seq<Operand>)
    ensures ReadAs(ws, xs) ==> |ws| == |xs|
  {}

  lemma BeginsAll(ws: seq<string>, xs: seq<Operand>, named: seq<bool>)
    requires |xs| == |named| && |ws| == |xs|
    ensures Begins(ws, xs, named) <==> ReadAs(ws, xs) && forall i | 0 <= i < |xs| :: named[i] ==> !xs[i].Num?
  {
    assert ws[..|xs|] == ws;
  }

  /** Every clause of the grammar has the same form. */
  lemma {:induction false} SaysUniformly(ws: seq<string>, i: Instr)
    requires !i.Print?
    ensures var code, xs := SourceText.CodeOf(i), SourceText.OperandsOf(i);
      |Named(code)| == |xs| &&
      (Says(ws, i) <==>
        if i.Return? then ws != [] && ws[0] == Mnemonic(code)
        else if SourceText.Jumps(i) then Jump(ws, Mnemonic(code), xs, i.target)
        else Phrase(ws, Mnemonic(code), xs) && forall k | 0 <= k < |xs| :: Named(code)[k] ==> !xs[k].Num?)
  {
    hide Phrase, Jump;
    var xs, named := SourceText.OperandsOf(i), Named(SourceText.CodeOf(i));
    assert (forall k | 0 <= k < |xs| :: named[k] ==> !xs[k].Num?) <==> (xs != [] && named[0] ==> !xs[0].Num?);
  }

  lemma {:induction false} SaysIs(w: string, ws: seq<string>, i: Instr)
    requires !i.Print?
    ensures var code := SourceText.CodeOf(i);
      Says([w] + ws, i) <==> Lookup(w) == Some(code) && SaysBy(code, ws, i)
  {
    hide Says, Phrase, Jump, Entry, Lookup, Begins, ReadAs, IsLabel, Mnemonic;
    var code, xs := SourceText.CodeOf(i), SourceText.OperandsOf(i);
    SaysUniformly([w] + ws, i);
    hide SourceText.CodeOf, SourceText.OperandsOf, Named;
    InstructionNames(w);
    NamedMnemonic(code);
    MnemonicNamed(w);
    if SourceText.Jumps(i) {
      JumpIs(w, ws, Mnemonic(code), xs, i.target);
      BranchNames(i);
      if |ws| == |xs| + 1 { BeginsFirst(ws, xs, Named(code)); }
    } else {
      PhraseIs(w, ws, Mnemonic(code), xs);
      ReadLength(ws, xs);
      if |ws| == |xs| { BeginsAll(ws, xs, Named(code)); }
    }
  }

  lemma BranchNames(i: Instr)
    requires SourceText.Jumps(i)
    ensures forall k | 0 <= k < |Named(SourceText.CodeOf(i))| :: !Named(SourceText.CodeOf(i))[k]
  {}

  lemma BeginsFirst(ws: seq<string>, xs: seq<Operand>, named: seq<bool>)
    requires |xs| == |named| && |ws| >= |xs|
    ensures Begins(ws, xs, named) <==>
      ReadAs(ws[..|xs|], xs) && forall i | 0 <= i < |xs| :: named[i] ==> !xs[i].Num?
  {}

  /** What the tokens of an instruction say. */
  predicate TokensBy(code: Opcode, ts: seq<Token>, i: Instr) {
    var xs := SourceText.OperandsOf(i);
    && SourceText.CodeOf(i) == code && !i.Print?
    && if SourceText.Jumps(i) then
         |ts| == |xs| + 1 && Operands(ts[..|xs|], xs) && ts[|xs|].LabelTok? && ts[|xs|].name == i.target
       else Operands(ts, xs)
  }

  lemma {:induction false} TokensIs(code: Opcode, ts: seq<Token>, i: Instr)
    requires !code.PrintOp?
    ensures ReadInstruction(None, code, ts) == Reading(Line(None, i), []) <==> TokensBy(code, ts, i)
  {

  }

  lemma {:induction false} TargetRead(s: string, last: bool)
    ensures var r, ws := ScanTarget(s, last), Words(s);
      && (r.Done? <==> |ws| == 1 && IsLabel(ws[0]))
      && (r.Done? ==>
           |r.tokens| == 1 && r.tokens[0].LabelTok? && r.tokens[0].name == ws[0] && r.ahead == EndOf(s) && !r.last)
  {
    hide Fetch, Words, EndOf, LineEnd, Pauses;
    FetchOnLine(s, last);
    NoEofLabel();
    var f, ws := Fetch(s, last, true), Words(s);
    if ws != [] && |ws[0]| <= 126 { LineEndIs(f.ahead); }
  }

  lemma NoEofLabel()
    ensures CheckLabel(EOF_WORD).NoLabel? && CheckLabel("").NoLabel?
  {}

  lemma {:induction false} EndRead(r: Scanned, s: string, n: nat)
    requires r.Done? ==> Leaves(r, s, n)
    ensures var e := EndLine(r);
      && (e.Done? <==> r.Done? && |Words(s)| == n)
      && (e.Done? ==> e == r.(ahead := EndOf(s)))
  {
    hide Words, EndOf, LineEnd, Pauses;
    if r.Done? { LineEndIs(r.ahead); }
  }

  /** An instruction with operands, to the end of its line. */
  lemma {:induction false} PlainRead(code: Opcode, s: string, last: bool, i: Instr)
    requires Pauses(s) && !code.PrintOp? && !code.ReturnOp? && !code.BranchOp? && !code.BraOp?
    ensures var r := ScanInstruction(code, s, last);
      && (r.Done? && TokensBy(code, r.tokens, i) <==> SaysBy(code, Words(s), i))
      && (r.Done? ==> r.ahead == EndOf(s))
  {
    hide Words, EndOf, LineEnd, Pauses, ScanOperands, Operands, Begins, EndLine, Leaves;
    var q, xs := ScanOperands(s, last, Named(code)), SourceText.OperandsOf(i);
    OperandsRead(s, last, Named(code), if |xs| == |Named(code)| then xs else seq(|Named(code)|, k => Num(0)));
    EndRead(q, s, |Named(code)|);
    if SourceText.CodeOf(i) == code { OperandCount(i); }
  }

  lemma OperandCount(i: Instr)
    ensures !i.Print? ==> |SourceText.OperandsOf(i)| == |Named(SourceText.CodeOf(i))|
    ensures SourceText.Jumps(i) <==> SourceText.CodeOf(i).BranchOp? || SourceText.CodeOf(i).BraOp?
  {}

  /** A branch, to the end of its line. */
  lemma {:induction false} BranchRead(code: Opcode, s: string, last: bool, i: Instr)
    requires Pauses(s) && (code.BranchOp? || code.BraOp?)
    ensures var r := ScanInstruction(code, s, last);
      && (r.Done? && TokensBy(code, r.tokens, i) <==> SaysBy(code, Words(s), i))
      && (r.Done? ==> r.ahead == EndOf(s))
  {
    hide Words, EndOf, LineEnd, Pauses, ScanOperands, Operands, Begins, ScanTarget, IsLabel, Leaves;
    hide SourceText.OperandsOf, SourceText.CodeOf, Named;
    var named, xs := Named(code), SourceText.OperandsOf(i);
    var n := |named|;
    var q := ScanOperands(s, last, named);
    OperandsRead(s, last, named, if |xs| == n then xs else seq(n, k => Num(0)));
    if SourceText.CodeOf(i) == code { OperandCount(i); }
    OperandCount(i);
    if q.Done? {
      Rest(q, s, n);
      TargetRead(q.ahead, q.last);
      BranchTokens(code, q, ScanTarget(q.ahead, q.last), i);
    }
  }

  /** The tokens of a branch are those of its operands, and its label. */
  lemma {:induction false} BranchTokens(code: Opcode, q: Scanned, t: Scanned, i: Instr)
    requires q.Done? && (t.Done? ==> |t.tokens| == 1 && t.tokens[0].LabelTok?)
    requires SourceText.CodeOf(i) == code ==>
      SourceText.Jumps(i) && |SourceText.OperandsOf(i)| == |q.tokens|
    ensures t.Done? ==>
      (TokensBy(code, Append(q, t).tokens, i) <==>
       SourceText.CodeOf(i) == code && !i.Print? && Operands(q.tokens, SourceText.OperandsOf(i))
       && t.tokens[0].name == i.target)
  {
    hide Operands, SourceText.OperandsOf, SourceText.CodeOf;
    if t.Done? { assert (q.tokens + t.tokens)[..|q.tokens|] == q.tokens; }
  }

  lemma Rest(r: Scanned, s: string, n: nat)
    requires Leaves(r, s, n)
    ensures r.Done? && EndOf(r.ahead) == EndOf(s) && n <= |Words(s)|
    ensures |Words(r.ahead)| == |Words(s)| - n && (|Words(s)| > n ==> Words(r.ahead)[0] == Words(s)[n])
  {}

  lemma {:induction false} ReturnRead(s: string, last: bool, i: Instr)
    ensures var r := ScanInstruction(ReturnOp, s, last);
      r.Done? && (TokensBy(ReturnOp, r.tokens, i) <==> SaysBy(ReturnOp, Words(s), i))
  {
    hide Words;
  }

  /** What follows the name of an instruction. */
  lemma {:induction false} NamedRead(w: string, s: string, last: bool, i: Instr)
    requires Pauses(s) && w != "PRINT"
    ensures var r := ScanNamed(w, s, last);
      && (r.Done? && ReadLine(r.tokens) == Reading(Line(None, i), []) <==> Says([w] + Words(s), i))
      && (r.Done? && w != "RETURN" ==> r.ahead == EndOf(s))
      && (r.Done? ==> r.tokens != [] && r.tokens[0].InstrTok?)
  {
    hide Words, EndOf, Pauses, ScanInstruction, TokensBy, SaysBy, Says, Lookup, ReadInstruction;
    InstructionNames(w);
    SaysWord(w, Words(s), i);
    var code := Lookup(w);
    if code.Some? {
      var c, r := code.value, ScanInstruction(code.value, s, last);
      NotPrint(w);
      if c.ReturnOp? { ReturnRead(s, last, i); }
      else if c.BranchOp? || c.BraOp? { BranchRead(c, s, last, i); }
      else { PlainRead(c, s, last, i); }
      if r.Done? {
        TokensIs(c, r.tokens, i);
        assert ([InstrTok(c)] + r.tokens)[1..] == r.tokens;
      }
    }
    hide Entry;
  }

  lemma NotPrint(w: string)
    requires w != "PRINT"
    ensures Entry(w) != Some(PrintOp) && (Entry(w) == Some(ReturnOp) <==> w == "RETURN")
  {}

  lemma {:induction false} SaysWord(w: string, ws: seq<string>, i: Instr)
    ensures Says([w] + ws, i) <==> Lookup(w).Some? && SaysBy(Lookup(w).value, ws, i)
  {
    hide Says, Lookup, Begins, IsLabel;
    if i.Print? { NotPrinted([w] + ws, i); } else { SaysIs(w, ws, i); }
  }

  lemma NotPrinted(ws: seq<string>, i: Instr)
    ensures Says(ws, i) ==> !i.Print?
  {}

  // ----- lines -----

  /** The name of the instruction of a line. */
  function Command(ws: seq<string>): string {
    if ws == [] then "" else if !IsLabel(ws[0]) then ws[0] else if |ws| > 1 then ws[1] else ""
  }

  lemma {:induction false} ReadTagged(tag: string, left: nat, ts: seq<Token>)
    requires ts != [] && ts[0].InstrTok?
    ensures ReadLine([LabelTok(tag, left)] + ts) ==
      match ReadLine(ts)
      case Mismatch => Mismatch
      case Reading(l, rest) => Reading(l.(tag := Some(tag)), rest)
  {
    assert ([LabelTok(tag, left)] + ts)[2..] == ts[1..];
    hide ReadArguments;
    var code := ts[0].code;
    match code
    case BranchOp(_) =>
    case ArithOp(_) =>
    case _ =>
  }

  /** No instruction is named like a label, and all names are short. */
  lemma {:induction false} NamesAndLabels(w: string)
    ensures Lookup(w).Some? ==> |w| <= 6 && CheckLabel(w).NoLabel? && !IsLabel(w)
    ensures |w| <= 126 ==> (CheckLabel(w).GoodLabel? <==> IsLabel(w))
    ensures Lookup(EOF_WORD).None? && Lookup("").None?
  {
    InstructionNames(w);
    InstructionNames(EOF_WORD);
    InstructionNames("");
    hide Lookup;
  }

  /** The line without a label. */
  lemma {:induction false} BareLine(s: string, l: Line)
    requires var ws := Words(Skip(s)); ws != [] && !IsLabel(ws[0]) && ws[0] != "PRINT"
    ensures var r, ws := Tokenize(s, false), Words(Skip(s));
      && (r.Done? && ReadLine(r.tokens) == Reading(l, []) <==> SaysLine(ws, l))
      && (r.Done? && ws[0] != "RETURN" ==> r.ahead == EndOf(Skip(s)))
  {
    hide Words, EndOf, Pauses, Skip, Fetch, CheckLabel, IsLabel, Says, ScanNamed, ReadLine;
    var ws := Words(Skip(s));
    FetchFirst(s);
    NamesAndLabels(ws[0]);
    SaysWord(ws[0], ws[1..], l.instr);
    assert ws == [ws[0]] + ws[1..];
    hide SaysBy, Lookup;
    if |ws[0]| <= 126 && CheckLabel(ws[0]).NoLabel? {
      var f := Fetch(s, false, false);
      NamedRead(ws[0], f.ahead, f.last, l.instr);
      BareTag(ScanNamed(ws[0], f.ahead, f.last));
    }
    NoTag(ws, l);
  }

  /** Without a label token there is no label. */
  lemma BareTag(r: Scanned)
    requires r.Done? ==> r.tokens != [] && r.tokens[0].InstrTok?
    ensures r.Done? && ReadLine(r.tokens).Reading? ==> ReadLine(r.tokens).line.tag == None
  {}

  lemma NoTag(ws: seq<string>, l: Line)
    requires ws != [] && !IsLabel(ws[0])
    ensures SaysLine(ws, l) <==> l.tag == None && Says(ws, l.instr)
  {}

  /** The line with a label in front. */
  lemma {:induction false} LabelledLine(s: string, l: Line)
    requires var ws := Words(Skip(s)); ws != [] && IsLabel(ws[0]) && Command(ws) != "PRINT"
    ensures var r, ws := Tokenize(s, false), Words(Skip(s));
      && (r.Done? && ReadLine(r.tokens) == Reading(l, []) <==> SaysLine(ws, l))
      && (r.Done? && Command(ws) != "RETURN" ==> r.ahead == EndOf(Skip(s)))
  {
    hide Words, EndOf, Pauses, Skip, Fetch, CheckLabel, Says, ScanNamed, ReadLine, Lookup;
    var ws := Words(Skip(s));
    assert ws[0] != "" && |ws[0]| <= 126;
    FetchFirst(s);
    NamesAndLabels(ws[0]);
    hide IsLabel;
    assert ws == [ws[0]] + ws[1..];
    Tagged(ws, l);
    var f := Fetch(s, false, false);
    FetchOnLine(f.ahead, f.last);
    var g := Fetch(f.ahead, f.last, true);
    if |ws| > 1 {
      SaysWord(ws[1], ws[2..], l.instr);
      hide SaysBy;
      NamesAndLabels(ws[1]);
      assert ws[1..] == [ws[1]] + ws[2..];
      if |ws[1]| <= 126 {
        var t := ScanNamed(ws[1], g.ahead, g.last);
        assert ws[1..][1..] == ws[2..];
        NamedRead(ws[1], g.ahead, g.last, l.instr);
        if t.Done? {
          ReadTagged(ws[0], Scanning.Left(f.ahead), t.tokens);
          BareTag(t);
        }
      }
    } else {
      assert ws[1..] == [];
      SaysNothing(l.instr);
      EofNoName(g.ahead, g.last);
    }
  }

  lemma SaysNothing(i: Instr)
    ensures !Says([], i)
  {}

  lemma EofNoName(s: string, last: bool)
    ensures ScanNamed(EOF_WORD, s, last).Failed? && EOF_WORD != ""
  {
    NamesAndLabels(EOF_WORD);
  }

  lemma Tagged(ws: seq<string>, l: Line)
    requires ws != [] && IsLabel(ws[0])
    ensures SaysLine(ws, l) <==> l.tag == Some(ws[0]) && Says(ws[1..], l.instr)
  {
    LabelSaysNothing(ws, l.instr);
  }

  lemma {:induction false} LabelSaysNothing(ws: seq<string>, i: Instr)
    requires ws != [] && IsLabel(ws[0])
    ensures !Says(ws, i)
  {
    NamesAndLabels(ws[0]);
    SaysWord(ws[0], ws[1..], i);
    assert ws == [ws[0]] + ws[1..];
  }

  /** The language of lines: a text is read as a line exactly if the words of its first line that
      is not blank say so, and reading stops at the end of that line. Only PRINT, whose string is
      not a word, has a rule of its own; and a RETURN leaves the rest of its line unread. */
  lemma {:induction false} LineLanguage(s: string, l: Line)
    requires Skip(s) != "" && Command(Words(Skip(s))) != "PRINT"
    ensures var r, ws := Tokenize(s, false), Words(Skip(s));
      && (r.Done? && ReadLine(r.tokens) == Reading(l, []) <==> SaysLine(ws, l))
      && (r.Done? && Command(ws) != "RETURN" ==> r.ahead == EndOf(Skip(s)))
  {
    hide Words, EndOf, Skip, Tokenize, SaysLine, ReadLine;
    FetchFirst(s);
    if IsLabel(Words(Skip(s))[0]) { LabelledLine(s, l); } else { BareLine(s, l); }
  }

  lemma {:induction false} SomeTokens(s: string)
    requires Skip(s) != ""
    ensures Tokenize(s, false).Done? ==> Tokenize(s, false).tokens != []
  {
    FetchFirst(s);
    hide ScanInstruction, Lookup, Fetch, CheckLabel, Words, EndOf;
    var f := Fetch(s, false, false);
  }

  // ----- operand words -----

  /** Numbers and names, as words: up to nine digits, of which the first may be a minus sign; and
      a letter behind a dollar sign, with letters and digits behind it. */
  lemma {:induction false} OperandWords(w: string, x: Operand)
    requires IsWord(w) && !x.Elem?
    ensures Reads(w, x) <==>
      match x
      case Num(v) => 1 <= |w| <= 9 && (IsDigit(w[0]) || w[0] == '-') && AllDigits(w[1..]) && v == Atoi(w)
      case Var(n) => w == "$" + n && 1 <= |n| <= 125 && IsAlpha(n[0]) && forall i | 1 <= i < |n| :: IsAlnum(n[i])
      case Elem(_, _) => true
  {
    OperandLanguage(w, x);
    hide Parse;
    match x
    case Num(v) => assert IsNumber(w) && v == Atoi(w) ==> Spells(w, Digits(w)) && Meaning(Digits(w)) == x;
    case Var(n) => assert IsName(n) && w == "$" + n ==> Spells(w, Name(n)) && Meaning(Name(n)) == x;
    case Elem(_, _) =>
  }

  /** Cells, as words: the name, and the index in brackets. */
  lemma {:induction false} CellWords(n: string, v: string, ix: Operand)
    requires IsName(n)
    requires if ix.Num? then IsNumeral(v) && ix.value == Atoi(v)
      else ix.Var? && IsName(ix.name) && v == "$" + ix.name
    ensures Parse("$" + n + "[" + v + "]") == Some(Elem(n, ix))
  {
    var w, x := "$" + n + "[" + v + "]", Indexed(n, if ix.Num? then Digits(v) else Name(ix.name));
    assert Opening(x) == "$" + n + "[" + v;
    OpeningHasNoBracket(x);
    CountConcat(']', Opening(x), "]");
    CountNone(']', Opening(x));
    assert Count(']', "]") == 1;
    assert Brackets(x) == 1;
    WordOf(x);
    ParseComplete(w, x);
  }

  lemma {:induction false} WordOf(x: Spelling)
    requires Proper(x)
    ensures IsWord(Opening(x))
  {
    if x.Indexed? {
      WordOf(x.index);
      var p, q := "$" + x.name + "[", Opening(x.index);
      assert forall i | 0 <= i < |p| + |q| :: (p + q)[i] == if i < |p| then p[i] else q[i - |p|];
    }
  }

  /** An index of an index, as it is printed and read. */
  lemma {:induction false} NestedWord()
    ensures OperandText.Print(Elem("a", Elem("b", Var("c")))) == "$a[$b[$c]]"
    ensures Parse("$a[$b[$c]]") == Some(Elem("a", Elem("b", Var("c"))))
  {
    var x := Elem("b", Var("c"));
    assert OperandText.Print(Var("c")) == "$c";
    assert OperandText.Print(x) == "$b[$c]";
    hide Parse;
    PrintThenParse(Elem("a", x));
  }

  /** A line of a shipped program, as it stands there. */
  lemma {:induction false} UpLine()
    ensures Tokenize("\tUP\t$free\n", false) == Done([InstrTok(UpOp), OperandTok(Var("free"))], "\n", false)
  {
    hide Fetch, Parse, LineEnd;
    var t := "\t$free\n";
    assert "\tUP\t$free\n" == "\t" + ("UP" + t) && t == "\t" + ("$free" + "\n");
    SourceText.FetchWord("\t", "UP", t, false, false);
    SourceText.FetchWord("\t", "$free", "\n", false, true);
    InstructionNames("UP");
    OperandWords("$free", Var("free"));
    assert "$free" == "$" + "free";
    assert LineEnd("\n") == Some("\n") by { Newline(); }
    assert Tokenize("\tUP\t$free\n", false) == ScanNamed("UP", t, false);
  }

  lemma Newline()
    ensures LineEnd("\n") == Some("\n")
  {}

  // ----- the first line of a file -----

  lemma {:induction false} CrossesIs(s: string)
    ensures Crosses(s) <==> Words(s) == [] && EndOf(s) != ""
  {
    if s != "" && s[0] != '\n' {
      if IsSpace(s[0]) { CrossesIs(s[1..]); }
    }
  }

  /** A file is opened if nothing but one more character stands behind the magic word in its first
      line - unless that is the newline - and something follows that line. The rest is refused,
      with an error or, when the file just ends, without. */
  lemma {:induction false} FirstLine(text: string)
    ensures Magic(text) ==
      if |text| <= 8 then Refused(false)
      else
        var good := text[..8] == "#PROGRAM";
        if text[8] == '\n' then Opened(text[8..], good)
        else if Words(text[9..]) != [] || EndOf(text[9..]) == "" then Refused(true)
        else if Skip(text[9..]) == "" then Refused(!good)
        else Opened(Skip(text[9..]), good)
  {
    MagicIs(text);
    if |text| > 8 && text[8] != '\n' {
      assert Behind(text[8..]) == text[9..];
      CrossesIs(text[9..]);
    }
    hide Words, EndOf, Skip, Crosses;
  }
}
