/** Writing programs down and reading them back: whatever the layout, the tokenizer finds
    exactly the lines that were written. */
module SourceText {
  import opened Syntax
  import opened Chars
  import opened OperandText
  import opened Scanning

  // ----- reading a whole text -----

  lemma {:induction false} EofIsNoInstruction()
    ensures Lookup(EOF_WORD).None? && CheckLabel(EOF_WORD).NoLabel? && !IsSpace(EOF_WORD[0])
  {
  }

  lemma {:induction false} NothingAtEof(last: bool)
    ensures Tokenize("", last).Failed?
  {
    EofIsNoInstruction();
    assert Fetch("", last, false) == Fetched(EOF_WORD, "", true);
  }

  lemma {:induction false} TokenizeShrinks(s: string, last: bool)
    ensures var r := Tokenize(s, last);
      r.Done? && r.tokens != [] ==> |r.ahead| < |s|
  {
    hide ScanNamed, Fetch, CheckLabel;
    if s == "" { NothingAtEof(last); }
  }

  /** The lines of a text, or None when the program is stopped while it is read. Reading ends
      behind a line that reached the end of the file, or where no word is left. */
  function ReadAll(s: string): Option<seq<Line>>
    decreases |s|
  {
    TokenizeShrinks(s, false);
    var r := Tokenize(s, false);
    if r.Failed? then None
    else if r.tokens == [] then Some([])
    else
      var l := ReadLine(r.tokens);
      if l.Mismatch? then None
      else if r.last then Some([l.line])
      else
        var ls := ReadAll(r.ahead);
        if ls.None? then None else Some([l.line] + ls.value)
  }

  // ----- white space -----

  predicate AllSpace(g: string) {
    forall i | 0 <= i < |g| :: IsSpace(g[i])
  }

  predicate AllBlank(g: string) {
    forall i | 0 <= i < |g| :: IsBlank(g[i])
  }

  lemma {:induction false} SkipSpace(g: string, s: string)
    requires AllSpace(g)
    ensures Skip(g + s) == Skip(s)
  {
    if g == "" {
      assert g + s == s;
    } else {
      assert (g + s)[1..] == g[1..] + s;
      SkipSpace(g[1..], s);
    }
  }

  lemma {:induction false} CrossesAfter(g: string, s: string)
    requires AllBlank(g)
    ensures Crosses(g + s) == Crosses(s)
  {
    if g == "" {
      assert g + s == s;
    } else {
      assert (g + s)[1..] == g[1..] + s;
      CrossesAfter(g[1..], s);
    }
  }

  lemma {:induction false} WordLengthOf(w: string, t: string)
    requires IsWord(w) && t != "" && IsSpace(t[0])
    ensures WordLength(w + t) == |w|
  {
    if w == "" {
      assert w + t == t;
    } else {
      assert (w + t)[1..] == w[1..] + t;
      WordLengthOf(w[1..], t);
    }
  }

  predicate IsShort(w: string) {
    w != "" && |w| < MAX_WORD && IsWord(w)
  }

  predicate Opens(s: string) {
    s != "" && IsSpace(s[0])
  }

  lemma {:induction false} SkipToWord(g: string, w: string, t: string)
    requires AllSpace(g) && IsShort(w) && Opens(t)
    ensures Skip(g + (w + t)) == w + t && WordLength(w + t) == |w|
  {
    hide WordLength;
    SkipSpace(g, w + t);
    WordLengthOf(w, t);
  }

  lemma {:induction false} StaysOnLine(g: string, w: string, t: string)
    requires AllBlank(g) && IsShort(w)
    ensures !Crosses(g + (w + t)) && (g + (w + t))[0] != '\n'
  {
    CrossesAfter(g, w + t);
    assert (g + (w + t))[0] == if g == "" then w[0] else g[0];
  }

  /** A word is read over the white space in front of it, and up to the white space behind. */
  lemma {:induction false} FetchWord(g: string, w: string, t: string, last: bool, thisLine: bool)
    requires AllSpace(g) && (thisLine ==> AllBlank(g)) && IsShort(w) && Opens(t)
    ensures Fetch(g + (w + t), last, thisLine) == Fetched(w, t, last)
  {
    hide Skip, WordLength, Crosses;
    SkipToWord(g, w, t);
    if thisLine { StaysOnLine(g, w, t); }
    assert (w + t)[..|w|] == w && (w + t)[|w|..] == t;
  }

  lemma {:induction false} LineEndOf(g: string, rest: string)
    requires AllBlank(g)
    ensures LineEnd(g + "\n" + rest) == Some("\n" + rest)
  {
    var s := g + "\n" + rest;
    if g == "" {
      assert s[0] == '\n';
      assert s == "\n" + rest;
    } else {
      assert s[1..] == g[1..] + "\n" + rest;
      LineEndOf(g[1..], rest);
    }
  }

  // ----- how a program is written -----

  /** Words with white space in front of each. */
  function Spread(ws: seq<string>, gs: seq<string>, end: string): string
    requires |ws| == |gs|
  {
    if ws == [] then end else gs[0] + (ws[0] + Spread(ws[1..], gs[1..], end))
  }

  function CodeOf(i: Instr): Opcode {
    match i
    case Load(_, _) => LoadOp
    case Store(_, _) => StoreOp
    case Set(_, _) => SetOp
    case Arith(op, _, _, _) => ArithOp(op)
    case Branch(rel, _, _, _) => BranchOp(rel)
    case Bra(_) => BraOp
    case Down(_) => DownOp
    case Up(_) => UpOp
    case Sleep(_) => SleepOp
    case Print(_, _) => PrintOp
    case Return => ReturnOp
  }

  function OperandsOf(i: Instr): seq<Operand> {
    match i
    case Load(dst, glob) => [dst, glob]
    case Store(glob, src) => [glob, src]
    case Set(dst, src) => [dst, src]
    case Arith(_, dst, left, right) => [dst, left, right]
    case Branch(_, left, right, _) => [left, right]
    case Bra(_) => []
    case Down(glob) => [glob]
    case Up(glob) => [glob]
    case Sleep(amount) => [amount]
    case Print(_, args) => args
    case Return => []
  }

  predicate Jumps(i: Instr) {
    i.Branch? || i.Bra?
  }

  function Printed(ops: seq<Operand>): (ws: seq<string>)
    ensures |ws| == |ops|
  {
    seq(|ops|, i requires 0 <= i < |ops| => OperandText.Print(ops[i]))
  }

  /** What is written behind the name of an instruction. */
  function ArgumentWords(i: Instr): seq<string> {
    (if i.Print? then ["\"" + i.text + "\""] else []) + Printed(OperandsOf(i)) + if Jumps(i) then [i.target] else []
  }

  /** The white space of a line: in front of it, between its words, and behind them. */
  datatype Layout = Layout(lead: string, head: string, gaps: seq<string>, trail: string)

  predicate GoodGap(g: string) {
    g != "" && AllBlank(g)
  }

  predicate GoodGaps(gs: seq<string>) {
    forall i | 0 <= i < |gs| :: GoodGap(gs[i])
  }

  predicate Fits(l: Line, y: Layout) {
    && AllSpace(y.lead) && GoodGap(y.head) && AllBlank(y.trail)
    && GoodGaps(y.gaps) && |y.gaps| == |ArgumentWords(l.instr)|
  }

  /** The text of one line, followed by `rest`. */
  function LineText(l: Line, y: Layout, rest: string): string
    requires Fits(l, y)
  {
    var named := Mnemonic(CodeOf(l.instr)) + Body(l.instr, y.gaps, y.trail, rest);
    y.lead + if l.tag.Some? then l.tag.value + (y.head + named) else named
  }

  predicate IsLabel(w: string) {
    2 <= |w| < MAX_WORD && w[0] == 'L' && w != "LOAD" && forall i | 1 <= i < |w| :: IsAlnum(w[i])
  }

  predicate Writable(op: Operand) {
    Printable(op) && |OperandText.Print(op)| < MAX_WORD
  }

  predicate AllWritable(ops: seq<Operand>) {
    forall i | 0 <= i < |ops| :: Writable(ops[i])
  }

  predicate IsText(t: string) {
    |t| < MAX_TEXT && forall i | 0 <= i < |t| :: IsPrint(t[i]) && t[i] != '\"'
  }

  /** The lines that can be written at all. */
  predicate WellFormed(l: Line) {
    && (l.tag.Some? ==> IsLabel(l.tag.value))
    && AllWritable(OperandsOf(l.instr))
    && (Jumps(l.instr) ==> IsLabel(l.instr.target))
    && (l.instr.Print? ==> IsText(l.instr.text))
    && (!l.instr.Print? ==> Suits(OperandsOf(l.instr), Named(CodeOf(l.instr))))
  }

  /** No number stands where one is refused. */
  predicate Suits(ops: seq<Operand>, named: seq<bool>) {
    |named| == |ops| && forall i | 0 <= i < |ops| :: named[i] ==> !ops[i].Num?
  }

  function Tokens(ops: seq<Operand>): (ts: seq<Token>)
    ensures |ts| == |ops|
  {
    seq(|ops|, i requires 0 <= i < |ops| => OperandTok(ops[i]))
  }

  lemma {:induction false} SpreadOpens(ws: seq<string>, gs: seq<string>, end: string)
    requires |ws| == |gs| && GoodGaps(gs) && Opens(end)
    ensures Opens(Spread(ws, gs, end))
  {
    if ws != [] { assert GoodGap(gs[0]); }
  }

  lemma {:induction false} WritableShort(op: Operand)
    requires Writable(op)
    ensures IsShort(OperandText.Print(op)) && Parse(OperandText.Print(op)) == Some(op)
    ensures LooksNumeric(OperandText.Print(op)) <==> op.Num?
  {
    PrintIsWord(op);
    PrintThenParse(op);
  }

  lemma {:induction false} OperandsScanned(ops: seq<Operand>, named: seq<bool>, gs: seq<string>, end: string,
      last: bool)
    requires AllWritable(ops) && Suits(ops, named) && |gs| == |ops| && GoodGaps(gs) && Opens(end)
    ensures ScanOperands(Spread(Printed(ops), gs, end), last, named) == Done(Tokens(ops), end, last)
    decreases |ops|
  {
    hide Writable, OperandText.Print, Parse, Fetch, LooksNumeric;
    if ops != [] {
      var w := OperandText.Print(ops[0]);
      var t := Spread(Printed(ops[1..]), gs[1..], end);
      assert Printed(ops)[1..] == Printed(ops[1..]);
      SpreadOpens(Printed(ops[1..]), gs[1..], end);
      assert Writable(ops[0]) && GoodGap(gs[0]);
      WritableShort(ops[0]);
      FetchWord(gs[0], w, t, last, true);
      OperandsScanned(ops[1..], named[1..], gs[1..], end, last);
      assert Tokens(ops) == [OperandTok(ops[0])] + Tokens(ops[1..]);
    }
  }

  /** PRINT reads on while it finds words, so it runs over trailing blanks. */
  function AfterArguments(trail: string, rest: string): string {
    if trail == "" then "\n" + rest else Skip(rest)
  }

  lemma {:induction false} BlankThenEnd(s: string, trail: string, rest: string)
    requires trail != "" && AllBlank(trail) && s == trail + ("\n" + rest)
    ensures Skip(s) == Skip(rest) && Crosses(s) && s[0] != '\n'
  {
    hide Skip, Crosses;
    SkipSpace(trail, "\n" + rest);
    SkipSpace("\n", rest);
    CrossesAfter(trail, "\n" + rest);
    CrossesHere(rest);
  }

  lemma {:induction false} NoMoreArguments(trail: string, rest: string)
    requires AllBlank(trail)
    ensures Fetch(trail + "\n" + rest, false, true) == Fetched("", AfterArguments(trail, rest), false)
  {
    hide Skip, Crosses, AllBlank;
    var s := trail + "\n" + rest;
    assert s == trail + ("\n" + rest);
    if trail == "" {
      assert s == "\n" + rest;
    } else {
      BlankThenEnd(s, trail, rest);
    }
  }

  lemma CrossesHere(rest: string)
    ensures Crosses("\n" + rest)
  {}

  lemma {:induction false} ArgumentsScanned(ops: seq<Operand>, gs: seq<string>, trail: string, rest: string)
    requires AllWritable(ops) && |gs| == |ops| && AllBlank(trail)
    requires forall i | 0 <= i < |gs| :: AllBlank(gs[i]) && (i > 0 ==> gs[i] != "")
    ensures ScanArguments(Spread(Printed(ops), gs, trail + "\n" + rest), false)
         == Done(Tokens(ops), AfterArguments(trail, rest), false)
    decreases |ops|
  {
    hide Writable, OperandText.Print, Parse, Fetch, LooksNumeric, AfterArguments, AllBlank;
    var end := trail + "\n" + rest;
    if ops == [] {
      NoMoreArguments(trail, rest);
    } else {
      var w := OperandText.Print(ops[0]);
      var t := Spread(Printed(ops[1..]), gs[1..], end);
      assert Printed(ops)[1..] == Printed(ops[1..]);
      SpreadOpensBlank(Printed(ops[1..]), gs[1..], trail, rest);
      assert Writable(ops[0]);
      WritableShort(ops[0]);
      assert AllSpace(gs[0]) by { BlankIsSpace(gs[0]); }
      FetchWord(gs[0], w, t, false, true);
      ArgumentsScanned(ops[1..], gs[1..], trail, rest);
      assert Tokens(ops) == [OperandTok(ops[0])] + Tokens(ops[1..]);
    }
  }

  lemma BlankIsSpace(g: string)
    requires AllBlank(g)
    ensures AllSpace(g)
  {}

  lemma {:induction false} SpreadOpensBlank(ws: seq<string>, gs: seq<string>, trail: string, rest: string)
    requires |ws| == |gs| && AllBlank(trail)
    requires forall i | 0 <= i < |gs| :: AllBlank(gs[i]) && gs[i] != ""
    ensures Opens(Spread(ws, gs, trail + "\n" + rest))
  {
    assert Opens(trail + "\n" + rest);
    assert GoodGaps(gs) by { assert forall i | 0 <= i < |gs| :: GoodGap(gs[i]); }
    SpreadOpens(ws, gs, trail + "\n" + rest);
  }

  lemma LabelChecked(w: string)
    requires IsLabel(w)
    ensures IsShort(w) && CheckLabel(w).GoodLabel?
  {}

  lemma {:induction false} TargetScanned(w: string, g: string, trail: string, rest: string)
    requires IsLabel(w) && GoodGap(g) && AllBlank(trail)
    ensures ScanTarget(g + (w + (trail + "\n" + rest)), false).Done?
    ensures ScanTarget(g + (w + (trail + "\n" + rest)), false).tokens == [LabelTok(w, |trail + "\n" + rest| - 1)]
    ensures ScanTarget(g + (w + (trail + "\n" + rest)), false).ahead == "\n" + rest
    ensures !ScanTarget(g + (w + (trail + "\n" + rest)), false).last
  {
    hide Fetch, IsLabel;
    LabelChecked(w);
    assert Opens(trail + "\n" + rest);
    FetchWord(g, w, trail + "\n" + rest, false, true);
    LineEndOf(trail, rest);
  }

  lemma {:induction false} StringScanned(t: string, s: string, read: string)
    requires IsText(t) && |read| + |t| < MAX_TEXT && Opens(s)
    ensures ScanString(t + "\"" + s, read) == Quoted(read + t, s)
    decreases |t|
  {
    var u := t + "\"" + s;
    if t == "" {
      assert u[0] == '\"' && u[1..] == s && read + t == read;
    } else {
      assert u[0] == t[0] && u[1..] == t[1..] + "\"" + s;
      assert read + [t[0]] + t[1..] == read + t;
      StringScanned(t[1..], s, read + [t[0]]);
    }
  }

  // ----- one instruction -----

  function Body(i: Instr, gs: seq<string>, trail: string, rest: string): string
    requires |gs| == |ArgumentWords(i)|
  {
    Spread(ArgumentWords(i), gs, trail + "\n" + rest)
  }

  function ArgumentTokens(i: Instr, left: nat): seq<Token> {
    (if i.Print? then [StringTok(i.text)] else []) + Tokens(OperandsOf(i)) +
    if Jumps(i) then [LabelTok(i.target, left)] else []
  }

  /** Where the lookahead stands when an instruction has been read. */
  function Boundary(i: Instr, trail: string, rest: string): string {
    match i
    case Print(_, args) => if args == [] then Skip(rest) else AfterArguments(trail, rest)
    case Return => trail + "\n" + rest
    case _ => "\n" + rest
  }

  predicate EndsText(i: Instr, rest: string) {
    i.Print? && i.args == [] && Skip(rest) == ""
  }

  lemma {:induction false} SpreadSplit(a: seq<string>, b: seq<string>, gs: seq<string>, end: string)
    requires |gs| == |a| + |b|
    ensures Spread(a + b, gs, end) == Spread(a, gs[..|a|], Spread(b, gs[|a|..], end))
  {
    if a == [] {
      assert a + b == b && gs[|a|..] == gs;
    } else {
      assert (a + b)[1..] == a[1..] + b;
      assert gs[1..][..|a| - 1] == gs[..|a|][1..] && gs[1..][|a| - 1..] == gs[|a|..];
      SpreadSplit(a[1..], b, gs[1..], end);
    }
  }

  lemma {:induction false} PlainScanned(i: Instr, gs: seq<string>, trail: string, rest: string)
    requires WellFormed(Line(None, i)) && !i.Print? && !i.Return? && !Jumps(i)
    requires |gs| == |ArgumentWords(i)| && GoodGaps(gs) && AllBlank(trail)
    ensures ScanInstruction(CodeOf(i), Body(i, gs, trail, rest), false) ==
      Done(ArgumentTokens(i, 0), "\n" + rest, false)
  {
    hide ScanOperands, Spread, AllBlank, LineEnd, AllWritable, GoodGaps;
    var end := trail + "\n" + rest;
    assert ArgumentWords(i) == Printed(OperandsOf(i));
    assert Opens(end) by {
      SpreadOpensBlank([], [], trail, rest);
      assert Spread([], [], end) == end by { SpreadNothing(end); }
    }
    OperandsScanned(OperandsOf(i), Named(CodeOf(i)), gs, end, false);
    LineEndOf(trail, rest);
    assert ArgumentTokens(i, 0) == Tokens(OperandsOf(i));
  }

  lemma SpreadNothing(end: string)
    ensures Spread([], [], end) == end
  {}

  lemma GapOpens(g: string, s: string)
    requires GoodGap(g)
    ensures Opens(g + s)
  {}

  lemma {:induction false} JumpScanned(i: Instr, gs: seq<string>, trail: string, rest: string)
    requires WellFormed(Line(None, i)) && Jumps(i)
    requires |gs| == |ArgumentWords(i)| && GoodGaps(gs) && AllBlank(trail)
    ensures ScanInstruction(CodeOf(i), Body(i, gs, trail, rest), false)
         == Done(ArgumentTokens(i, |trail + "\n" + rest| - 1), "\n" + rest, false)
  {
    hide ScanOperands, ScanTarget, AllBlank, LineEnd, AllWritable;
    var end := trail + "\n" + rest;
    var ops := OperandsOf(i);
    var n := |ops|;
    assert ArgumentWords(i) == Printed(ops) + [i.target];
    SpreadSplit(Printed(ops), [i.target], gs, end);
    var t := gs[n] + (i.target + end);
    assert Spread([i.target], gs[n..], end) == t;
    assert GoodGap(gs[n]);
    GapOpens(gs[n], i.target + end);
    OperandsScanned(ops, Named(CodeOf(i)), gs[..n], t, false);
    TargetScanned(i.target, gs[n], trail, rest);
    assert ArgumentTokens(i, |end| - 1) == Tokens(ops) + [LabelTok(i.target, |end| - 1)];
  }

  lemma ReturnScanned(gs: seq<string>, trail: string, rest: string)
    requires |gs| == 0
    ensures ScanInstruction(ReturnOp, Body(Return, gs, trail, rest), false) == Done([], trail + "\n" + rest, false)
  {}

  lemma {:induction false} PrintScanned(i: Instr, gs: seq<string>, trail: string, rest: string)
    requires WellFormed(Line(None, i)) && i.Print?
    requires |gs| == |ArgumentWords(i)| && GoodGaps(gs) && AllBlank(trail)
    ensures ScanPrint(Body(i, gs, trail, rest), false)
         == Done(ArgumentTokens(i, 0), Boundary(i, trail, rest), EndsText(i, rest))
  {
    hide Skip, ScanString, ScanArguments, AllBlank, AllWritable, Spread, Crosses, Printed;
    var end := trail + "\n" + rest;
    var ws := Printed(i.args);
    var q := "\"" + i.text + "\"";
    var t := Spread(ws, gs[1..], end);
    assert ArgumentWords(i) == [q] + ws;
    assert Body(i, gs, trail, rest) == gs[0] + (q + t) by { SpreadSplit([q], ws, gs, end); SpreadOne(q, gs[..1], t); }
    assert GoodGap(gs[0]);
    SpreadOpensBlank(ws, gs[1..], trail, rest);
    BlankIsSpace(gs[0]);
    SkipToSolid(gs[0], q + t);
    assert (q + t)[1..] == i.text + "\"" + t;
    StringScanned(i.text, t, "");
    assert "" + i.text == i.text;
    AfterString(i.args, gs[1..], trail, rest);
    assert ArgumentTokens(i, 0) == [StringTok(i.text)] + Tokens(i.args);
  }

  lemma SpreadOne(w: string, gs: seq<string>, end: string)
    requires |gs| == 1
    ensures Spread([w], gs, end) == gs[0] + (w + end)
  {}

  lemma SkipSolid(s: string)
    requires s != "" && !IsSpace(s[0])
    ensures Skip(s) == s
  {}

  lemma {:induction false} SkipToSolid(g: string, q: string)
    requires g != "" && AllSpace(g) && q != "" && !IsSpace(q[0])
    ensures g + q != "" && Skip((g + q)[1..]) == q
  {
    hide Skip;
    assert (g + q)[1..] == g[1..] + q;
    SkipSpace(g[1..], q);
    SkipSolid(q);
  }

  lemma {:induction false} NoneAfterString(s: string, trail: string, rest: string)
    requires AllBlank(trail) && s == trail + ("\n" + rest)
    ensures Skip(s) == Skip(rest) && Crosses(s)
  {
    hide Skip, Crosses;
    if trail == "" {
      assert s == "\n" + rest;
      SkipSpace("\n", rest);
      CrossesHere(rest);
    } else {
      BlankThenEnd(s, trail, rest);
    }
  }

  lemma {:induction false} SomeAfterString(ops: seq<Operand>, gs: seq<string>, trail: string, rest: string)
    requires AllWritable(ops) && |gs| == |ops| > 0 && GoodGaps(gs) && AllBlank(trail)
    ensures var s := Spread(Printed(ops), gs, trail + "\n" + rest);
      var u := Skip(s);
      u != "" && !Crosses(s) && ScanArguments(u, false) == Done(Tokens(ops), AfterArguments(trail, rest), false)
  {
    hide Skip, ScanArguments, AllBlank, Writable, Crosses, WordLength;
    var end := trail + "\n" + rest;
    var w := Printed(ops)[0];
    var t := Spread(Printed(ops)[1..], gs[1..], end);
    assert Writable(ops[0]) && GoodGap(gs[0]);
    WritableShort(ops[0]);
    SpreadOpensBlank(Printed(ops)[1..], gs[1..], trail, rest);
    BlankIsSpace(gs[0]);
    SkipToWord(gs[0], w, t);
    StaysOnLine(gs[0], w, t);
    var hs := [""] + gs[1..];
    assert hs[1..] == gs[1..];
    assert Spread(Printed(ops), hs, end) == "" + (w + t);
    assert "" + (w + t) == w + t;
    assert forall i | 0 < i < |hs| :: hs[i] == gs[i] && GoodGap(gs[i]);
    NothingIsBlank();
    ArgumentsScanned(ops, hs, trail, rest);
  }

  /** Behind the string, PRINT looks for its operands on the same line only. */
  lemma {:induction false} AfterString(ops: seq<Operand>, gs: seq<string>, trail: string, rest: string)
    requires AllWritable(ops) && |gs| == |ops| && GoodGaps(gs) && AllBlank(trail)
    ensures var s := Spread(Printed(ops), gs, trail + "\n" + rest);
      var u := Skip(s);
      if ops == [] then u == Skip(rest) && Crosses(s)
      else u != "" && !Crosses(s) && ScanArguments(u, false) == Done(Tokens(ops), AfterArguments(trail, rest), false)
  {
    hide Skip, ScanArguments, AllBlank, Crosses, AllWritable, GoodGaps;
    if ops == [] {
      assert trail + "\n" + rest == trail + ("\n" + rest);
      NoneAfterString(trail + "\n" + rest, trail, rest);
    } else {
      SomeAfterString(ops, gs, trail, rest);
    }
  }

  lemma NothingIsBlank()
    ensures AllBlank("")
  {}

  lemma {:induction false} InstructionScanned(i: Instr, gs: seq<string>, trail: string, rest: string)
      returns (left: nat)
    requires WellFormed(Line(None, i)) && |gs| == |ArgumentWords(i)| && GoodGaps(gs) && AllBlank(trail)
    ensures ScanInstruction(CodeOf(i), Body(i, gs, trail, rest), false)
         == Done(ArgumentTokens(i, left), Boundary(i, trail, rest), EndsText(i, rest))
    ensures Opens(Body(i, gs, trail, rest))
  {
    hide ScanOperands, ScanTarget, ScanPrint, Body, Spread, AllBlank, AllWritable, GoodGaps;
    left := 0;
    if i.Print? {
      PrintScanned(i, gs, trail, rest);
    } else if i.Return? {
      ReturnScanned(gs, trail, rest);
    } else if Jumps(i) {
      JumpScanned(i, gs, trail, rest);
      left := |trail + "\n" + rest| - 1;
    } else {
      PlainScanned(i, gs, trail, rest);
    }
    BodyOpens(i, gs, trail, rest);
  }

  lemma {:induction false} BodyOpens(i: Instr, gs: seq<string>, trail: string, rest: string)
    requires |gs| == |ArgumentWords(i)| && GoodGaps(gs) && AllBlank(trail)
    ensures Opens(Body(i, gs, trail, rest))
  {
    assert forall k | 0 <= k < |gs| :: GoodGap(gs[k]);
    SpreadOpensBlank(ArgumentWords(i), gs, trail, rest);
  }

  /** The interpreter makes the instruction of these tokens again. */
  lemma {:induction false} TokensReadBack(tag: Option<string>, i: Instr, left: nat)
    ensures ReadInstruction(tag, CodeOf(i), ArgumentTokens(i, left)) == Reading(Line(tag, i), [])
  {
    if i.Print? {
      ArgumentsReadBack(i.args);
      assert ArgumentTokens(i, left)[1..] == Tokens(i.args);
    }
  }

  lemma {:induction false} ArgumentsReadBack(ops: seq<Operand>)
    ensures ReadArguments(Tokens(ops)) == Some(ops)
  {
    if ops != [] {
      assert Tokens(ops) == [OperandTok(ops[0])] + Tokens(ops[1..]);
      ReadArgumentsCons(ops[0], Tokens(ops[1..]));
      ArgumentsReadBack(ops[1..]);
      assert [ops[0]] + ops[1..] == ops;
    }
  }

  lemma MnemonicShort(code: Opcode)
    ensures IsShort(Mnemonic(code)) && CheckLabel(Mnemonic(code)).NoLabel?
  {}

  lemma {:induction false} SearchFinds(w: string, i: nat, k: nat)
    requires i <= k < |CODES| && Mnemonic(CODES[k]) == w
    ensures Search(w, i).Some?
    decreases k - i
  {
    if i < k { SearchFinds(w, i + 1, k); }
  }

  lemma MnemonicInjective(a: Opcode, b: Opcode)
    requires Mnemonic(a) == Mnemonic(b)
    ensures a == b
  {}

  lemma {:induction false} CodeListed(code: Opcode) returns (k: nat)
    ensures k < |CODES| && CODES[k] == code
  {
    match code
    case LoadOp => k := 0;
    case StoreOp => k := 1;
    case SetOp => k := 2;
    case ArithOp(op) => k := match op case Add => 3 case Sub => 4 case Mul => 5 case Div => 6 case Mod => 7;
    case BranchOp(rel) => k := match rel case Gt => 8 case Ge => 9 case Lt => 10 case Le => 11 case Eq => 12;
    case BraOp => k := 13;
    case DownOp => k := 14;
    case UpOp => k := 15;
    case SleepOp => k := 16;
    case PrintOp => k := 17;
    case ReturnOp => k := 18;
  }

  lemma {:induction false} LookupMnemonic(code: Opcode)
    ensures Lookup(Mnemonic(code)) == Some(code)
  {
    hide Mnemonic;
    var k := CodeListed(code);
    SearchFinds(Mnemonic(code), 0, k);
    MnemonicInjective(Lookup(Mnemonic(code)).value, code);
  }

  lemma {:induction false} NamedScanned(tag: Option<string>, i: Instr, gs: seq<string>, trail: string, rest: string)
    requires WellFormed(Line(None, i)) && |gs| == |ArgumentWords(i)| && GoodGaps(gs) && AllBlank(trail)
    ensures var r := ScanNamed(Mnemonic(CodeOf(i)), Body(i, gs, trail, rest), false);
      && r.Done? && |r.tokens| > 0 && r.tokens[0] == InstrTok(CodeOf(i))
      && ReadInstruction(tag, CodeOf(i), r.tokens[1..]) == Reading(Line(tag, i), [])
      && r.ahead == Boundary(i, trail, rest) && r.last == EndsText(i, rest)
  {
    hide Mnemonic, ScanInstruction, ReadInstruction, Body, Boundary, EndsText, ArgumentTokens, AllBlank;
    hide GoodGaps, WellFormed, Lookup;
    LookupMnemonic(CodeOf(i));
    var left := InstructionScanned(i, gs, trail, rest);
    TokensReadBack(tag, i, left);
    var r := ScanNamed(Mnemonic(CodeOf(i)), Body(i, gs, trail, rest), false);
    assert r.tokens[1..] == ArgumentTokens(i, left);
  }

  /** Only what follows the white space in front of a line matters. */
  lemma {:induction false} TokenizeSkip(s: string, t: string, last: bool)
    requires Skip(s) == Skip(t) && Skip(s) != ""
    ensures Tokenize(s, last) == Tokenize(t, last)
  {
    hide Skip, ScanNamed, CheckLabel, WordLength;
    assert Fetch(s, last, false) == Fetch(t, last, false);
  }

  lemma {:induction false} BareScanned(i: Instr, lead: string, gs: seq<string>, trail: string, rest: string)
    requires WellFormed(Line(None, i)) && |gs| == |ArgumentWords(i)| && GoodGaps(gs) && AllBlank(trail)
      && AllSpace(lead)
    ensures var t := lead + (Mnemonic(CodeOf(i)) + Body(i, gs, trail, rest));
      var r := Tokenize(t, false);
      && Skip(t) != "" && r.Done? && |r.tokens| > 0 && r.tokens[0].InstrTok?
      && ReadLine(r.tokens) == Reading(Line(None, i), [])
      && r.ahead == Boundary(i, trail, rest) && r.last == EndsText(i, rest)
  {
    hide Mnemonic, Fetch, ScanNamed, ReadInstruction, Body, Boundary, EndsText, AllBlank, AllSpace, GoodGaps;
    hide WellFormed, Skip, CheckLabel, IsWord;
    var b := Body(i, gs, trail, rest);
    var w := Mnemonic(CodeOf(i));
    NamedScanned(None, i, gs, trail, rest);
    BodyOpens(i, gs, trail, rest);
    MnemonicShort(CodeOf(i));
    FetchWord(lead, w, b, false, false);
    SkipToWord(lead, w, b);
  }

  lemma {:induction false} TaggedScanned(v: string, i: Instr, lead: string, head: string, gs: seq<string>,
      trail: string, rest: string)
    requires WellFormed(Line(None, i)) && |gs| == |ArgumentWords(i)| && GoodGaps(gs) && AllBlank(trail)
      && AllSpace(lead)
    requires IsLabel(v) && GoodGap(head)
    ensures var t := lead + (v + (head + (Mnemonic(CodeOf(i)) + Body(i, gs, trail, rest))));
      var r := Tokenize(t, false);
      && Skip(t) != "" && r.Done? && |r.tokens| > 0 && ReadLine(r.tokens) == Reading(Line(Some(v), i), [])
      && r.tokens[0] == LabelTok(v, |head + (Mnemonic(CodeOf(i)) + Body(i, gs, trail, rest))| - 1)
      && r.ahead == Boundary(i, trail, rest) && r.last == EndsText(i, rest)
  {
    hide Mnemonic, Fetch, ScanNamed, ReadInstruction, Body, Boundary, EndsText, AllBlank, AllSpace, GoodGaps;
    hide WellFormed, Skip, CheckLabel, IsWord, IsLabel;
    var b := Body(i, gs, trail, rest);
    var w := Mnemonic(CodeOf(i));
    NamedScanned(Some(v), i, gs, trail, rest);
    BodyOpens(i, gs, trail, rest);
    MnemonicShort(CodeOf(i));
    LabelChecked(v);
    GapOpens(head, w + b);
    FetchWord(lead, v, head + (w + b), false, false);
    BlankIsSpace(head);
    FetchWord(head, w, b, false, true);
    SkipToWord(lead, v, head + (w + b));
    var n := ScanNamed(w, b, false);
    var r := Tokenize(lead + (v + (head + (w + b))), false);
    assert r.tokens[2..] == n.tokens[1..];
  }

  /** These are the tokens of that line, and what was read behind it. */
  ghost predicate ScannedAs(r: Scanned, l: Line, y: Layout, rest: string)
    requires Fits(l, y)
  {
    && r.Done? && |r.tokens| > 0 && ReadLine(r.tokens) == Reading(l, [])
    && r.ahead == Boundary(l.instr, y.trail, rest) && r.last == EndsText(l.instr, rest)
    && if l.tag.None? then r.tokens[0].InstrTok?
       else
         var behind := y.head + (Mnemonic(CodeOf(l.instr)) + Body(l.instr, y.gaps, y.trail, rest));
         r.tokens[0] == LabelTok(l.tag.value, |behind| - 1)
  }

  /** One line in any layout is read as that line, wherever the line before it left the
      lookahead; the last line of the file is noticed exactly for a bare PRINT. */
  lemma {:induction false} LineScanned(l: Line, y: Layout, rest: string, s: string)
    requires WellFormed(l) && Fits(l, y) && Skip(s) == Skip(LineText(l, y, rest))
    ensures ScannedAs(Tokenize(s, false), l, y, rest)
  {
    hide Mnemonic, Tokenize, ReadLine, Body, Boundary, EndsText, AllBlank, AllSpace, GoodGaps, WellFormed, Skip;
    FormedParts(l);
    if l.tag.None? {
      BareScanned(l.instr, y.lead, y.gaps, y.trail, rest);
    } else {
      TaggedScanned(l.tag.value, l.instr, y.lead, y.head, y.gaps, y.trail, rest);
    }
    TokenizeSkip(s, LineText(l, y, rest), false);
  }

  lemma ShortIsWord(w: string)
    requires IsShort(w)
    ensures w != ""
  {}

  lemma FormedParts(l: Line)
    requires WellFormed(l)
    ensures WellFormed(Line(None, l.instr)) && (l.tag.Some? ==> IsLabel(l.tag.value))
  {}

  // ----- a whole program -----

  /** The text of a program; `coda` is the white space at its end. */
  function Source(ls: seq<Line>, ys: seq<Layout>, coda: string): string
    requires |ls| == |ys| && forall i | 0 <= i < |ls| :: Fits(ls[i], ys[i])
  {
    if ls == [] then coda else LineText(ls[0], ys[0], Source(ls[1..], ys[1..], coda))
  }

  /** The last line is a PRINT with operands and blanks behind them: reading on for another
      operand runs into the end of the file. */
  predicate Dangles(ls: seq<Line>, ys: seq<Layout>)
    requires |ls| == |ys|
  {
    ls != [] && ls[|ls| - 1].instr.Print? && ls[|ls| - 1].instr.args != [] && ys[|ys| - 1].trail != ""
  }

  lemma {:induction false} SkipAll(g: string)
    requires AllSpace(g)
    ensures Skip(g) == ""
  {
    if g != "" { SkipAll(g[1..]); }
  }

  lemma {:induction false} SourceStarts(ls: seq<Line>, ys: seq<Layout>, coda: string)
    requires |ls| == |ys| && AllSpace(coda)
    requires forall i | 0 <= i < |ls| :: WellFormed(ls[i]) && Fits(ls[i], ys[i])
    ensures Skip(Source(ls, ys, coda)) == "" <==> ls == []
  {
    hide Skip, Body, Mnemonic, CheckLabel, IsLabel, IsShort;
    if ls == [] {
      SkipAll(coda);
    } else {
      var l, y := ls[0], ys[0];
      var rest := Source(ls[1..], ys[1..], coda);
      var w := Mnemonic(CodeOf(l.instr));
      var b := Body(l.instr, y.gaps, y.trail, rest);
      BodyOpens(l.instr, y.gaps, y.trail, rest);
      MnemonicShort(CodeOf(l.instr));
      ShortIsWord(w);
      if l.tag.None? {
        SkipToWord(y.lead, w, b);
      } else {
        LabelChecked(l.tag.value);
        GapOpens(y.head, w + b);
        SkipToWord(y.lead, l.tag.value, y.head + (w + b));
      }
    }
  }

  lemma {:induction false} BoundarySkips(i: Instr, trail: string, rest: string)
    requires AllBlank(trail)
    ensures Skip(Boundary(i, trail, rest)) == Skip(rest)
    ensures Boundary(i, trail, rest) == "" <==> i.Print? && Skip(rest) == "" && (i.args == [] || trail != "")
  {
    hide Skip, AllBlank;
    SkipSpace("\n", rest);
    SkipTwice(rest);
    if i.Return? { TrailSkips(trail, rest); }
  }

  lemma {:induction false} TrailSkips(trail: string, rest: string)
    requires AllBlank(trail)
    ensures Skip(trail + "\n" + rest) == Skip(rest) && trail + "\n" + rest != ""
  {
    hide Skip;
    assert trail + "\n" + rest == trail + ("\n" + rest);
    BlankIsSpace(trail);
    SkipSpace(trail, "\n" + rest);
    SkipSpace("\n", rest);
  }

  lemma SkipTwice(s: string)
    ensures Skip(Skip(s)) == Skip(s)
  {}

  /** What reading does behind the line `l`. */
  lemma {:induction false} ReadStep(s: string, l: Line, ahead: string, last: bool)
    requires Tokenize(s, false).Done? && Tokenize(s, false).tokens != []
    requires ReadLine(Tokenize(s, false).tokens) == Reading(l, [])
    requires Tokenize(s, false).ahead == ahead && Tokenize(s, false).last == last
    ensures last ==> ReadAll(s) == Some([l])
    ensures !last && ahead == "" ==> ReadAll(s) == None
    ensures !last && ReadAll(ahead).Some? ==> ReadAll(s) == Some([l] + ReadAll(ahead).value)
    ensures !last && ReadAll(ahead).None? ==> ReadAll(s) == None
  {
    hide Tokenize, ReadLine;
    NothingAtEof(false);
  }

  /** The line at the beginning of a written program is a bare PRINT and the last one. */
  predicate Closes(ls: seq<Line>) {
    |ls| == 1 && ls[0].instr.Print? && ls[0].instr.args == []
  }

  /** Lines in layouts that suit them. */
  predicate AllFit(ls: seq<Line>, ys: seq<Layout>) {
    |ls| == |ys| && forall i | 0 <= i < |ls| :: WellFormed(ls[i]) && Fits(ls[i], ys[i])
  }

  /** Behind the first line of a written program, reading goes on with the others at `ahead`. */
  ghost predicate GoesOn(ls: seq<Line>, ys: seq<Layout>, coda: string, s: string, ahead: string)
    requires AllFit(ls, ys) && ls != []
  {
    && ahead != "" && |ahead| < |s| && Skip(ahead) == Skip(Source(ls[1..], ys[1..], coda))
    && ReadAll(s) == if ReadAll(ahead).Some? then Some([ls[0]] + ReadAll(ahead).value) else None
  }

  /** Reading the first line of a written program; `ahead` is what is read next. */
  lemma {:induction false} FirstLineRead(ls: seq<Line>, ys: seq<Layout>, coda: string, s: string)
      returns (ahead: string)
    requires AllFit(ls, ys) && AllSpace(coda) && ls != []
    requires Skip(s) == Skip(Source(ls, ys, coda)) && s != ""
    ensures Closes(ls) ==> ReadAll(s) == Some(ls)
    ensures |ls| == 1 && Dangles(ls, ys) ==> ReadAll(s) == None
    ensures !Closes(ls) && !(|ls| == 1 && Dangles(ls, ys)) ==> GoesOn(ls, ys, coda, s, ahead)
  {
    hide Tokenize, Skip, WellFormed, Fits, LineText, AllSpace, ReadLine, Boundary, ReadAll, Body, Mnemonic;
    var l, y := ls[0], ys[0];
    var rest := Source(ls[1..], ys[1..], coda);
    LineScanned(l, y, rest, s);
    TokenizeShrinks(s, false);
    SourceStarts(ls[1..], ys[1..], coda);
    FitsTrail(l, y);
    BoundarySkips(l.instr, y.trail, rest);
    ahead := Tokenize(s, false).ahead;
    ReadStep(s, l, ahead, Tokenize(s, false).last);
    assert |ls| == 1 ==> ls == [l];
  }

  /** Whatever its layout, a written program is read back as exactly its lines, except that
      a dangling PRINT at the end stops it with an error. */
  lemma {:induction false} ReadingWrittenLines(ls: seq<Line>, ys: seq<Layout>, coda: string, s: string)
    requires |ls| == |ys| && AllSpace(coda)
    requires forall i | 0 <= i < |ls| :: WellFormed(ls[i]) && Fits(ls[i], ys[i])
    requires Skip(s) == Skip(Source(ls, ys, coda)) && s != ""
    ensures ReadAll(s) == if Dangles(ls, ys) then None else Some(ls)
    decreases |ls|
  {
    hide Skip, WellFormed, Fits, AllSpace, ReadAll, Source;
    if ls == [] {
      assert Skip(s) == "" by { SourceEmpty(coda); }
      NothingLeft(s);
    } else {
      var ahead := FirstLineRead(ls, ys, coda, s);
      if !Closes(ls) && !(|ls| == 1 && Dangles(ls, ys)) {
        ReadingWrittenLines(ls[1..], ys[1..], coda, ahead);
        assert [ls[0]] + ls[1..] == ls;
      }
    }
  }

  lemma {:induction false} SourceEmpty(coda: string)
    requires AllSpace(coda)
    ensures Skip(Source([], [], coda)) == ""
  {
    SkipAll(coda);
  }

  lemma FitsTrail(l: Line, y: Layout)
    requires Fits(l, y)
    ensures AllBlank(y.trail)
  {}

  lemma {:induction false} NothingLeft(s: string)
    requires Skip(s) == "" && s != ""
    ensures Tokenize(s, false) == Done([], "", false) && ReadAll(s) == Some([])
  {
    hide Skip;
  }

  /** The same for a program whose magic line has just been read. */
  lemma {:induction false} RoundTrip(ls: seq<Line>, ys: seq<Layout>, coda: string)
    requires |ls| == |ys| && AllSpace(coda)
    requires forall i | 0 <= i < |ls| :: WellFormed(ls[i]) && Fits(ls[i], ys[i])
    ensures ReadAll("\n" + Source(ls, ys, coda)) == if Dangles(ls, ys) then None else Some(ls)
  {
    SkipSpace("\n", Source(ls, ys, coda));
    ReadingWrittenLines(ls, ys, coda, "\n" + Source(ls, ys, coda));
  }

  /** `PRINT "x" $y` as a whole program is read, and with a blank behind it refused. */
  lemma {:induction false} TrailingBlankIsRefused()
    ensures var ls := [Line(None, Instr.Print("x", [Var("y")]))];
      var tight, loose := Layout("", " ", [" ", " "], ""), Layout("", " ", [" ", " "], " ");
      && Fits(ls[0], tight) && ReadAll("\n" + Source(ls, [tight], "")) == Some(ls)
      && Fits(ls[0], loose) && ReadAll("\n" + Source(ls, [loose], "")) == None
  {
    hide Source, ReadAll;
    var ls := [Line(None, Instr.Print("x", [Var("y")]))];
    RoundTrip(ls, [Layout("", " ", [" ", " "], "")], "");
    RoundTrip(ls, [Layout("", " ", [" ", " "], " ")], "");
  }
}
