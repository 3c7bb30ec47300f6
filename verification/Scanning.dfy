/** What the tokenizer does to a text: a function from the unread text to the tokens of the
    next line and the text that stays unread.

    Everywhere below, a text `s` is the lookahead character followed by what the file still
    holds, and the empty text is a lookahead of EOF. `last` is the LAST_LINE state. */
module Scanning {
  import opened Syntax
  import opened Chars
  import opened OperandText

  /** A word may not reach this length. */
  const MAX_WORD: nat := 127

  /** Nor may the string of a PRINT. */
  const MAX_TEXT: nat := 1023

  datatype Opcode =
    | LoadOp | StoreOp | SetOp | ArithOp(op: ArithOp) | BranchOp(rel: Relation) | BraOp
    | DownOp | UpOp | SleepOp | PrintOp | ReturnOp

  /** A label token notes how much text follows the lookahead, which fixes a file position. */
  datatype Token =
    | LabelTok(name: string, left: nat)
    | InstrTok(code: Opcode)
    | OperandTok(operand: Operand)
    | StringTok(text: string)

  function Mnemonic(code: Opcode): string {
    match code
    case LoadOp => "LOAD"
    case StoreOp => "STORE"
    case SetOp => "SET"
    case ArithOp(op) =>
      (match op case Add => "ADD" case Sub => "SUB" case Mul => "MUL" case Div => "DIV" case Mod => "MOD")
    case BranchOp(rel) =>
      (match rel case Gt => "BRGT" case Ge => "BRGE" case Lt => "BRLT" case Le => "BRLE" case Eq => "BREQ")
    case BraOp => "BRA"
    case DownOp => "DOWN"
    case UpOp => "UP"
    case SleepOp => "SLEEP"
    case PrintOp => "PRINT"
    case ReturnOp => "RETURN"
  }

  const CODES: seq<Opcode> :=
    [LoadOp, StoreOp, SetOp, ArithOp(Add), ArithOp(Sub), ArithOp(Mul), ArithOp(Div), ArithOp(Mod),
     BranchOp(Gt), BranchOp(Ge), BranchOp(Lt), BranchOp(Le), BranchOp(Eq), BraOp, DownOp, UpOp, SleepOp, PrintOp,
     ReturnOp]

  /** The instruction table: the code at or after `i` with that name. */
  function Search(w: string, i: nat): (r: Option<Opcode>)
    ensures r.Some? ==> Mnemonic(r.value) == w
    decreases |CODES| - i
  {
    if i >= |CODES| then None
    else if Mnemonic(CODES[i]) == w then Some(CODES[i])
    else Search(w, i + 1)
  }

  function Lookup(w: string): (r: Option<Opcode>)
    ensures r.Some? ==> Mnemonic(r.value) == w
  {
    Search(w, 0)
  }

  // ----- words -----

  /** The text from its first character that is not white space. */
  function Skip(s: string): (r: string)
    ensures |r| <= |s| && r == s[|s| - |r|..]
    ensures r != "" ==> !IsSpace(r[0])
    ensures forall i | 0 <= i < |s| - |r| :: IsSpace(s[i])
  {
    if s != "" && IsSpace(s[0]) then Skip(s[1..]) else s
  }

  /** Does the white space at the beginning reach another line? */
  predicate Crosses(s: string) {
    s != "" && IsSpace(s[0]) && (s[0] == '\n' || Crosses(s[1..]))
  }

  function WordLength(s: string): (n: nat)
    ensures n <= |s| && (forall i | 0 <= i < n :: !IsSpace(s[i])) && (n < |s| ==> IsSpace(s[n]))
  {
    if s == "" || IsSpace(s[0]) then 0 else 1 + WordLength(s[1..])
  }

  /** The character that an EOF becomes in the input buffer. */
  const EOF_WORD := "\U{ff}"

  /** The empty word stands for a failed read. */
  datatype Fetched = Fetched(word: string, ahead: string, last: bool) | TooLong

  /** Reads a word, which `thisLine` may not stand on another line. */
  function Fetch(s: string, last: bool, thisLine: bool): (f: Fetched)
    ensures f.Fetched? ==> |f.ahead| <= |s| && (last ==> f.last)
    ensures f.Fetched? && f.word != "" && s != "" ==> |f.ahead| < |s|
    ensures f.Fetched? ==> |f.word| < MAX_WORD
    ensures f.Fetched? && f.word != "" && s == "" ==> f.word == EOF_WORD
  {
    var t := Skip(s);
    if thisLine && s != "" && s[0] == '\n' then Fetched("", s, last)
    else if s != "" && t == "" then Fetched("", "", last)
    else if thisLine && Crosses(s) then Fetched("", t, last)
    else if t == "" then Fetched(EOF_WORD, "", true)
    else
      var n := WordLength(t);
      if n >= MAX_WORD then TooLong else Fetched(t[..n], t[n..], last || n == |t|)
  }

  datatype LabelCheck = NoLabel | GoodLabel | BadLabel

  function CheckLabel(w: string): LabelCheck {
    if w == "" || w[0] != 'L' || w == "LOAD" then NoLabel
    else if |w| > 1 && forall i | 1 <= i < |w| :: IsAlnum(w[i]) then GoodLabel
    else BadLabel
  }

  /** The length of the text behind the lookahead. */
  function Left(s: string): nat {
    if s == "" then 0 else |s| - 1
  }

  // ----- lines -----

  datatype Scanned = Done(tokens: seq<Token>, ahead: string, last: bool) | Failed

  function Prepend(t: Token, r: Scanned): Scanned {
    if r.Done? then r.(tokens := [t] + r.tokens) else r
  }

  predicate LooksNumeric(w: string) {
    w != "" && (w[0] == '-' || IsDigit(w[0]))
  }

  /** Reads one operand word for each entry of `named`, which tells whether a number is
      refused there. */
  function ScanOperands(s: string, last: bool, named: seq<bool>): (r: Scanned)
    ensures r.Done? ==> |r.ahead| <= |s|
    decreases |named|
  {
    if named == [] then Done([], s, last)
    else
      var f := Fetch(s, last, true);
      if f.TooLong? || f.word == "" || (named[0] && LooksNumeric(f.word)) || Parse(f.word).None? then Failed
      else Prepend(OperandTok(Parse(f.word).value), ScanOperands(f.ahead, f.last, named[1..]))
  }

  /** The rest of a line must be blank; the lookahead stops on the newline. */
  function LineEnd(s: string): (r: Option<string>)
    ensures r.Some? ==> |r.value| <= |s|
    decreases |s|
  {
    if s == "" || s[0] == '\n' then Some(s)
    else if s[1..] == "" then Some("")
    else if !IsSpace(s[1]) then None
    else LineEnd(s[1..])
  }

  function EndLine(r: Scanned): Scanned {
    if r.Failed? || LineEnd(r.ahead).None? then Failed else r.(ahead := LineEnd(r.ahead).value)
  }

  /** The label that a branch names. A branch is never taken for the last line. */
  function ScanTarget(s: string, last: bool): (r: Scanned)
    ensures r.Done? ==> |r.ahead| <= |s|
  {
    var f := Fetch(s, last, true);
    if f.TooLong? || CheckLabel(f.word) != GoodLabel || LineEnd(f.ahead).None? then Failed
    else Done([LabelTok(f.word, Left(f.ahead))], LineEnd(f.ahead).value, false)
  }

  /** The characters up to the closing quote, and the text behind the quote. */
  datatype Quoted = Quoted(text: string, ahead: string) | Unquoted

  function ScanString(s: string, read: string): (q: Quoted)
    requires |read| <= MAX_TEXT
    ensures q.Quoted? ==> |q.ahead| < |s| && q.ahead != "" && IsSpace(q.ahead[0])
    decreases |s|
  {
    if s == "" || |read| >= MAX_TEXT || !IsPrint(s[0]) then Unquoted
    else if s[0] != '\"' then ScanString(s[1..], read + [s[0]])
    else if s[1..] == "" || !IsSpace(s[1]) then Unquoted
    else Quoted(read, s[1..])
  }

  /** As many operands as the line holds. */
  function ScanArguments(s: string, last: bool): (r: Scanned)
    ensures r.Done? ==> |r.ahead| <= |s|
    decreases |s|
  {
    var f := Fetch(s, last, true);
    if f.TooLong? then Failed
    else if f.word == "" then Done([], f.ahead, f.last)
    else if Parse(f.word).None? || s == "" then Failed
    else Prepend(OperandTok(Parse(f.word).value), ScanArguments(f.ahead, f.last))
  }

  /** The text behind the lookahead. */
  function Behind(s: string): (r: string)
    ensures |r| <= |s|
  {
    if s == "" then "" else s[1..]
  }

  function ScanAfterString(s: string, last: bool): (r: Scanned)
    ensures r.Done? ==> |r.ahead| <= |s|
  {
    var u := Skip(s);
    if u == "" then Done([], "", true) else if Crosses(s) then Done([], u, last) else ScanArguments(u, last)
  }

  function ScanPrint(s: string, last: bool): (r: Scanned)
    ensures r.Done? ==> |r.ahead| <= |s|
  {
    var t := Skip(Behind(s));
    var q := ScanString(Behind(t), "");
    if t == "" || t[0] != '\"' || q.Unquoted? then Failed
    else Prepend(StringTok(q.text), ScanAfterString(q.ahead, last))
  }

  /** The operands of an instruction, true where a number is refused. */
  function Named(code: Opcode): seq<bool> {
    match code
    case LoadOp => [true, false]
    case StoreOp => [true, false]
    case SetOp => [true, false]
    case ArithOp(_) => [true, false, false]
    case BranchOp(_) => [false, false]
    case BraOp => []
    case DownOp => [true]
    case UpOp => [true]
    case SleepOp => [false]
    case PrintOp => []
    case ReturnOp => []
  }

  function Append(a: Scanned, b: Scanned): Scanned {
    if a.Done? && b.Done? then b.(tokens := a.tokens + b.tokens) else Failed
  }

  /** What follows an instruction's name. */
  function ScanInstruction(code: Opcode, s: string, last: bool): (r: Scanned)
    ensures r.Done? ==> |r.ahead| <= |s|
  {
    if code.ReturnOp? then Done([], s, last)
    else if code.PrintOp? then ScanPrint(s, last)
    else
      var r := ScanOperands(s, last, Named(code));
      if code.BranchOp? || code.BraOp? then if r.Failed? then Failed else Append(r, ScanTarget(r.ahead, r.last))
      else EndLine(r)
  }

  function ScanNamed(w: string, s: string, last: bool): (r: Scanned)
    ensures r.Done? ==> |r.ahead| <= |s|
  {
    var code := Lookup(w);
    if code.None? then Failed else Prepend(InstrTok(code.value), ScanInstruction(code.value, s, last))
  }

  /** The tokens of the next line. No tokens and no failure mean that the text has ended. */
  function Tokenize(s: string, last: bool): Scanned {
    var f := Fetch(s, last, false);
    if f.TooLong? || CheckLabel(f.word).BadLabel? then Failed
    else if f.word == "" then Done([], f.ahead, f.last)
    else if CheckLabel(f.word).NoLabel? then ScanNamed(f.word, f.ahead, f.last)
    else
      var g := Fetch(f.ahead, f.last, true);
      if g.TooLong? || g.word == "" then Failed
      else Prepend(LabelTok(f.word, Left(f.ahead)), ScanNamed(g.word, g.ahead, g.last))
  }

  // ----- the first line -----

  const MAGIC := "#PROGRAM"

  /** What the first line of a file says. Refused ends the program at once, with an error or
      without. `good` tells whether the file began with the magic word; a program whose file
      did not is stopped by the scheduler, but only after its visit. */
  datatype MagicLine = Opened(ahead: string, good: bool) | Refused(error: bool)

  predicate BeginsWell(text: string) {
    |text| >= |MAGIC| && text[..|MAGIC|] == MAGIC
  }

  /** The magic word and one more character, whatever it is; unless that ends the line, the
      rest of the line must be blank. */
  function Magic(text: string): MagicLine {
    if |text| <= |MAGIC| then Refused(false)
    else
      var good := BeginsWell(text);
      var s := text[|MAGIC|..];
      if s[0] == '\n' then Opened(s, good)
      else if !Crosses(s[1..]) then Refused(true)
      else if Skip(s[1..]) == "" then Refused(!good)
      else Opened(Skip(s[1..]), good)
  }

  lemma {:induction false} MagicIs(text: string)
    ensures Magic(text) ==
      if |text| <= |MAGIC| then Refused(false)
      else if text[|MAGIC|] == '\n' then Opened(text[|MAGIC|..], BeginsWell(text))
      else
        var s := Behind(text[|MAGIC|..]);
        if !Crosses(s) then Refused(true)
        else if Skip(s) == "" then Refused(!BeginsWell(text))
        else Opened(Skip(s), BeginsWell(text))
  {
    hide BeginsWell, Crosses, Skip;
  }

  // ----- the reader of the tokens -----

  /** The line that the interpreter makes of the tokens it takes out of the buffer, and the
      tokens that it leaves there. */
  datatype Reading = Reading(line: Line, rest: seq<Token>) | Mismatch

  function ReadArguments(ts: seq<Token>): Option<seq<Operand>> {
    if ts == [] then Some([])
    else if !ts[0].OperandTok? || ReadArguments(ts[1..]).None? then None
    else Some([ts[0].operand] + ReadArguments(ts[1..]).value)
  }

  /** The first `n` tokens are operands. */
  predicate Takes(ts: seq<Token>, n: nat) {
    n <= |ts| && forall i | 0 <= i < n :: ts[i].OperandTok?
  }

  function ReadInstruction(tag: Option<string>, code: Opcode, ts: seq<Token>): Reading {
    match code
    case LoadOp => if Takes(ts, 2) then Reading(Line(tag, Load(ts[0].operand, ts[1].operand)), ts[2..]) else Mismatch
    case StoreOp => if Takes(ts, 2) then Reading(Line(tag, Store(ts[0].operand, ts[1].operand)), ts[2..]) else Mismatch
    case SetOp => if Takes(ts, 2) then Reading(Line(tag, Set(ts[0].operand, ts[1].operand)), ts[2..]) else Mismatch
    case ArithOp(op) =>
      if Takes(ts, 3) then Reading(Line(tag, Arith(op, ts[0].operand, ts[1].operand, ts[2].operand)), ts[3..])
      else Mismatch
    case BranchOp(rel) =>
      if Takes(ts, 2) && |ts| > 2 && ts[2].LabelTok? then
        Reading(Line(tag, Branch(rel, ts[0].operand, ts[1].operand, ts[2].name)), ts[3..])
      else Mismatch
    case BraOp => if |ts| > 0 && ts[0].LabelTok? then Reading(Line(tag, Bra(ts[0].name)), ts[1..]) else Mismatch
    case DownOp => if Takes(ts, 1) then Reading(Line(tag, Down(ts[0].operand)), ts[1..]) else Mismatch
    case UpOp => if Takes(ts, 1) then Reading(Line(tag, Up(ts[0].operand)), ts[1..]) else Mismatch
    case SleepOp => if Takes(ts, 1) then Reading(Line(tag, Sleep(ts[0].operand)), ts[1..]) else Mismatch
    case PrintOp =>
      if |ts| > 0 && ts[0].StringTok? && ReadArguments(ts[1..]).Some? then
        Reading(Line(tag, Instr.Print(ts[0].text, ReadArguments(ts[1..]).value)), [])
      else Mismatch
    case ReturnOp => Reading(Line(tag, Return), ts)
  }

  function ReadLine(ts: seq<Token>): Reading {
    if |ts| > 0 && ts[0].InstrTok? then ReadInstruction(None, ts[0].code, ts[1..])
    else if |ts| > 1 && ts[0].LabelTok? && ts[1].InstrTok? then ReadInstruction(Some(ts[0].name), ts[1].code, ts[2..])
    else Mismatch
  }

  // ----- scanner and interpreter in lockstep -----

  lemma {:induction false} OperandsMatch(s: string, last: bool, named: seq<bool>)
    ensures var r := ScanOperands(s, last, named);
      r.Done? ==> |r.tokens| == |named| && Takes(r.tokens, |named|)
    decreases |named|
  {
    hide Fetch, Parse, LooksNumeric;
    if named != [] {
      var f := Fetch(s, last, true);
      if f.Fetched? { OperandsMatch(f.ahead, f.last, named[1..]); }
    }
  }

  lemma {:induction false} ReadArgumentsCons(x: Operand, ts: seq<Token>)
    ensures ReadArguments([OperandTok(x)] + ts) ==
            if ReadArguments(ts).Some? then Some([x] + ReadArguments(ts).value) else None
  {
    assert ([OperandTok(x)] + ts)[1..] == ts;
  }

  lemma {:induction false} ArgumentsMatch(s: string, last: bool)
    ensures var r := ScanArguments(s, last);
      r.Done? ==> ReadArguments(r.tokens).Some?
    decreases |s|
  {
    hide Fetch, Parse, ReadArguments;
    var f := Fetch(s, last, true);
    if f.TooLong? {
    } else if f.word == "" {
      assert ReadArguments([]).Some? by { NoArguments(); }
    } else if Parse(f.word).Some? && s != "" {
      ArgumentsMatch(f.ahead, f.last);
      var r := ScanArguments(f.ahead, f.last);
      if r.Done? { ReadArgumentsCons(Parse(f.word).value, r.tokens); }
    }
  }

  lemma NoArguments()
    ensures ReadArguments([]) == Some([])
  {}

  lemma {:induction false} InstructionMatches(tag: Option<string>, code: Opcode, s: string, last: bool)
    ensures var r := ScanInstruction(code, s, last);
      r.Done? ==> ReadInstruction(tag, code, r.tokens).Reading? && ReadInstruction(tag, code, r.tokens).rest == []
  {
    hide Fetch, ScanOperands, ScanArguments, LineEnd, ScanString, Skip, Crosses, Parse, CheckLabel;
    var r := ScanInstruction(code, s, last);
    if r.Done? && code.PrintOp? {
      var q := ScanString(Behind(Skip(Behind(s))), "");
      ArgumentsMatch(Skip(q.ahead), last);
      NoArguments();
      assert r.tokens[0] == StringTok(q.text);
      assert r.tokens[1..] == ScanAfterString(q.ahead, last).tokens;
    } else {
      OperandsMatch(s, last, Named(code));
    }
  }

  /** Every line that the scanner accepts is read by the interpreter to its last token: no
      token is missing, has the wrong kind or is left in the buffer. */
  lemma {:induction false} Lockstep(s: string, last: bool)
    requires Tokenize(s, last).Done? && Tokenize(s, last).tokens != []
    ensures ReadLine(Tokenize(s, last).tokens).Reading? && ReadLine(Tokenize(s, last).tokens).rest == []
  {
    hide Fetch, ScanInstruction, CheckLabel, Lookup, ReadInstruction;
    var r := Tokenize(s, last);
    var f := Fetch(s, last, false);
    if CheckLabel(f.word).NoLabel? {
      var code := Lookup(f.word).value;
      InstructionMatches(None, code, f.ahead, f.last);
      assert r.tokens[1..] == ScanInstruction(code, f.ahead, f.last).tokens;
    } else {
      var g := Fetch(f.ahead, f.last, true);
      var code := Lookup(g.word).value;
      InstructionMatches(Some(f.word), code, g.ahead, g.last);
      assert r.tokens[2..] == ScanInstruction(code, g.ahead, g.last).tokens;
    }
  }

  /** A branch never counts as the last line, whatever it is followed by. */
  lemma {:induction false} BranchIsNotLast(s: string, last: bool)
    requires Tokenize(s, last).Done? && ReadLine(Tokenize(s, last).tokens).Reading?
    ensures var ins := ReadLine(Tokenize(s, last).tokens).line.instr;
      ins.Branch? || ins.Bra? ==> !Tokenize(s, last).last
  {
    hide Fetch, CheckLabel, Lookup, ScanOperands, ScanTarget, ScanPrint, EndLine, ReadArguments;
    var r := Tokenize(s, last);
    var f := Fetch(s, last, false);
    if f.word != "" {
      if CheckLabel(f.word).NoLabel? {
        assert r.tokens[0] == InstrTok(Lookup(f.word).value);
        TargetNotLast(Lookup(f.word).value, f.ahead, f.last);
      } else {
        var g := Fetch(f.ahead, f.last, true);
        assert r.tokens[1] == InstrTok(Lookup(g.word).value);
        TargetNotLast(Lookup(g.word).value, g.ahead, g.last);
      }
    }
  }

  lemma TargetNotLast(code: Opcode, s: string, last: bool)
    ensures (code.BranchOp? || code.BraOp?) && ScanInstruction(code, s, last).Done? ==>
      !ScanInstruction(code, s, last).last
  {}
}
