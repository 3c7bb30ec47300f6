/** What the interpreter does where its text is no line of the language. */
module Stops {
  import opened Syntax
  import opened Chars
  import SourceText
  import opened Locals
  import opened Machine
  import OperandText
  import opened Scanning
  import opened TapeMachine
  import opened Grammar
  import opened Prints

  /** The text goes on, and its next line is in the language. */
  ghost predicate HasLine(s: string) {
    if Command(Words(Skip(s))) == "PRINT" then exists l :: SaysPrintLine(s, l)
    else exists l :: SaysLine(Words(Skip(s)), l)
  }

  /** Exactly then the tokenizer accepts it. */
  lemma {:induction false} AcceptedExactly(s: string)
    requires Skip(s) != ""
    ensures Tokenize(s, false).Done? <==> HasLine(s)
  {
    hide Words, Skip, Tokenize, SaysLine, SaysPrintLine, ReadLine, Command;
    SomeTokens(s);
    if Tokenize(s, false).Done? {
      Lockstep(s, false);
      var l := ReadLine(Tokenize(s, false).tokens).line;
      if Command(Words(Skip(s))) == "PRINT" { PrintLanguage(s, l); } else { LineLanguage(s, l); }
    }
    if HasLine(s) {
      if Command(Words(Skip(s))) == "PRINT" {
        var l :| SaysPrintLine(s, l);
        PrintLanguage(s, l);
      } else {
        var l :| SaysLine(Words(Skip(s)), l);
        LineLanguage(s, l);
      }
    }
  }

  lemma HaltIs(p: Proc)
    ensures Halt(p, BadSyntax) == p.(status := Finished, error := Some(BadSyntax))
  {}

  /** A program that runs into something else stops with an error and does nothing more. */
  lemma {:induction false} NoLineStops(t: Tape, g: Globals.Store)
    requires Skip(t.ahead) != "" && !HasLine(t.ahead)
    ensures Step(t, g) == Spot(t.(core := t.core.(status := Finished, error := Some(BadSyntax))), g)
  {
    hide HasLine, Skip, Tokenize, ReadLine, Enter, Proceed, Halt;
    AcceptedExactly(t.ahead);
    HaltIs(t.core);
  }

  /** Where nothing but white space is left, the program ends; and an end of the file where a line
      is expected is an error. */
  lemma {:induction false} TextEnds(t: Tape, g: Globals.Store)
    requires Skip(t.ahead) == ""
    ensures Step(t, g) == Spot(t.(core :=
      if t.ahead == "" then t.core.(status := Finished, error := Some(BadSyntax)) else t.core.(status := Finished)), g)
  {
    hide Words, Skip, Proceed, Enter, ReadLine, ScanNamed, EndOf, CheckLabel;
    FetchFirst(t.ahead);
    EofNoName("", true);
    NoEofLabel();
  }

  // ----- the last line of a file -----

  /** Reading operands keeps how the file ends. */
  lemma {:induction false} OperandsEnded(s: string, last: bool, named: seq<bool>)
    requires ScanOperands(s, last, named).Done?
    ensures Ended(ScanOperands(s, last, named).ahead) <==> Ended(s)
    decreases |named|
  {
    if named != [] {
      hide Fetch, Words, EndOf, Ended, OperandText.Parse, ScanOperands, Pauses;
      OneOperand(s, last, named);
      FetchEnded(s, last);
      var f := Fetch(s, last, true);
      OperandsEnded(f.ahead, f.last, named[1..]);
    }
  }

  /** An instruction that takes the rest of its line, and is neither a branch nor a PRINT. */
  predicate Ordinary(code: Opcode) {
    !code.PrintOp? && !code.ReturnOp? && !code.BranchOp? && !code.BraOp?
  }

  lemma {:induction false} InstructionLast(code: Opcode, s: string, last: bool)
    requires Pauses(s) && Ordinary(code) && ScanInstruction(code, s, last).Done? && (last <==> s == "")
    ensures ScanInstruction(code, s, last).last <==> !Ended(s)
  {
    hide Fetch, Words, EndOf, Ended, OperandText.Parse, ScanOperands, Pauses, LineEnd;
    var named := Named(code);
    var q := ScanOperands(s, last, named);
    assert named != [];
    OperandsRead(s, last, named, seq(|named|, k => Num(0)));
    OperandsEnded(s, last, named);
    EndRead(q, s, |named|);
    hide Leaves;
    LeavesNothing(q, s, |named|);
    NothingHere();
    if q.ahead != "" { NothingEnded(q.ahead); }
    if last { LastStays(s, last, named); }
  }

  lemma LeavesNothing(r: Scanned, s: string, n: nat)
    requires Leaves(r, s, n) && |Words(s)| == n
    ensures Words(r.ahead) == []
  {}

  lemma {:induction false} CodeRead(tag: Option<string>, code: Opcode, ts: seq<Token>)
    ensures var r := ReadInstruction(tag, code, ts);
      r.Reading? ==> SourceText.CodeOf(r.line.instr) == code && r.line.tag == tag
  {
    hide ReadArguments;
  }

  lemma OrdinaryIs(i: Instr)
    ensures Ordinary(SourceText.CodeOf(i)) <==> !SourceText.Jumps(i) && !i.Return? && !i.Print?
  {}

  /** The name and what follows it. */
  lemma {:induction false} NamedLast(w: string, s: string, last: bool)
    requires Pauses(s) && (last <==> s == "") && ScanNamed(w, s, last).Done?
    ensures var r := ScanNamed(w, s, last);
      && r.tokens != [] && r.tokens[0].InstrTok?
      && (Ordinary(r.tokens[0].code) ==> (r.last <==> !Ended(s)))
  {
    hide Lookup, ScanInstruction, Ended, Pauses;
    var code := Lookup(w).value;
    if Ordinary(code) { InstructionLast(code, s, last); }
  }

  /** The word at the beginning keeps how the file ends. */
  lemma {:induction false} FirstEnded(s: string)
    requires Skip(s) != ""
    ensures Pauses(AfterWord(s)) && (Ended(AfterWord(s)) <==> Ended(Skip(s)))
  {
    SkipFirst(s);
    EndedWord(Skip(s));
    WordAhead(Skip(s));
  }

  lemma SkipFirst(s: string)
    requires Skip(s) != ""
    ensures !IsSpace(Skip(s)[0])
  {}

  lemma {:induction false} BareLast(s: string)
    requires Skip(s) != "" && |Words(Skip(s))[0]| <= 126 && CheckLabel(Words(Skip(s))[0]).NoLabel?
    requires var r := Tokenize(s, false); r.Done? && ReadLine(r.tokens).Reading?
    requires Ordinary(SourceText.CodeOf(ReadLine(Tokenize(s, false).tokens).line.instr))
    ensures Tokenize(s, false).last <==> !Ended(Skip(s))
  {
    hide Words, Skip, Fetch, AfterWord, Ended, Pauses, EndOf, ScanNamed, ReadInstruction, Ordinary, CheckLabel;
    FirstEnded(s);
    FetchFirst(s);
    FetchAfter(s, false);
    var f := Fetch(s, false, false);
    var t := ScanNamed(f.word, f.ahead, f.last);
    assert Tokenize(s, false) == t;
    NamedLast(f.word, f.ahead, f.last);
    CodeRead(None, t.tokens[0].code, t.tokens[1..]);
  }

  lemma {:induction false} LabelledLast(s: string)
    requires Skip(s) != "" && |Words(Skip(s))[0]| <= 126 && CheckLabel(Words(Skip(s))[0]).GoodLabel?
    requires var r := Tokenize(s, false); r.Done? && ReadLine(r.tokens).Reading?
    requires Ordinary(SourceText.CodeOf(ReadLine(Tokenize(s, false).tokens).line.instr))
    ensures Tokenize(s, false).last <==> !Ended(Skip(s))
  {
    hide Words, Skip, Fetch, AfterWord, Ended, Pauses, EndOf, ScanNamed, ReadInstruction, Ordinary, CheckLabel;
    FirstEnded(s);
    FetchFirst(s);
    FetchAfter(s, false);
    var f, r := Fetch(s, false, false), Tokenize(s, false);
    FetchOnLine(f.ahead, f.last);
    NothingHere();
    var g := Fetch(f.ahead, f.last, true);
    EofNoName(g.ahead, g.last);
    FetchEnded(f.ahead, f.last);
    var t := ScanNamed(g.word, g.ahead, g.last);
    NamedLast(g.word, g.ahead, g.last);
    assert r == Prepend(LabelTok(f.word, Scanning.Left(f.ahead)), t);
    assert r.tokens[1] == t.tokens[0];
    CodeRead(Some(f.word), t.tokens[0].code, r.tokens[2..]);
  }

  /** A line other than a branch, a PRINT or a RETURN is the last exactly if the file ends right
      behind its last word, without so much as a newline. */
  lemma {:induction false} LastExactly(s: string, l: Line)
    requires Skip(s) != "" && SaysLine(Words(Skip(s)), l) && Command(Words(Skip(s))) != "PRINT"
    requires !SourceText.Jumps(l.instr) && !l.instr.Return?
    ensures Tokenize(s, false).Done? && (Tokenize(s, false).last <==> !Ended(Skip(s)))
  {
    hide Words, Skip, SaysLine, Ended, Lookup, Says, Tokenize, IsLabel, Command, ReadLine, Ordinary;
    LineLanguage(s, l);
    var ws := Words(Skip(s));
    SaysShort(ws, l);
    OrdinaryIs(l.instr);
    NotAPrint(ws, l);
    NamesAndLabels(ws[0]);
    if CheckLabel(ws[0]).NoLabel? { BareLast(s); } else { LabelledLast(s); }
  }

  /** It begins with a label or with a name. */
  lemma {:induction false} NotAPrint(ws: seq<string>, l: Line)
    requires SaysLine(ws, l) && ws != []
    ensures !l.instr.Print? && (IsLabel(ws[0]) || Lookup(ws[0]).Some?)
  {
    NotPrinted(ws, l.instr);
    NotPrinted(ws[1..], l.instr);
    if l.tag == None {
      assert ws == [ws[0]] + ws[1..];
      SaysWord(ws[0], ws[1..], l.instr);
    }
    hide Says, SaysBy;
  }

  /** Labels and names are short. */
  lemma {:induction false} SaysShort(ws: seq<string>, l: Line)
    requires SaysLine(ws, l)
    ensures ws != [] && |ws[0]| <= 126
  {
    assert ws != [] by { SaysNothing(l.instr); }
    if l.tag == None {
      assert ws == [ws[0]] + ws[1..];
      SaysWord(ws[0], ws[1..], l.instr);
      NamesAndLabels(ws[0]);
    }
    hide Says, SaysBy;
  }

  /** The program when the label of its next line, if it has one, is registered. */
  function Headed(t: Tape): Proc {
    var r := Tokenize(t.ahead, false);
    if r.Done? && r.tokens != [] && r.tokens[0].LabelTok? then Enter(t.core, r.tokens[0].name, r.tokens[0].left)
    else t.core
  }

  /** A line of the text is executed, and the lookahead stays at its end. Right before the end of
      the file it is the last: a program that could go on is finished. One that sleeps or waits is
      not, and runs into the end of the file later. */
  lemma {:induction false} LineIsStepped(t: Tape, g: Globals.Store, l: Line)
    requires Skip(t.ahead) != "" && SaysLine(Words(Skip(t.ahead)), l) && Command(Words(Skip(t.ahead))) != "PRINT"
    requires !SourceText.Jumps(l.instr) && !l.instr.Return? && Headed(t).status.Ready?
    ensures var s, e := Step(t, g), Execute(Headed(t), g, l.instr);
      && s.glob == e.glob && s.tape.text == t.text && s.tape.ahead == EndOf(Skip(t.ahead))
      && s.tape.core ==
           if !Ended(Skip(t.ahead)) && e.proc.status.Ready? then e.proc.(status := Machine.Status.Finished) else e.proc
  {
    hide Words, Skip, SaysLine, Ended, Tokenize, Command, ReadLine, Enter, EndOf, Execute;
    LineLanguage(t.ahead, l);
    LastExactly(t.ahead, l);
    SomeTokens(t.ahead);
    CommandIs(Words(Skip(t.ahead)), l);
  }

  /** Only a RETURN is called so. */
  lemma {:induction false} CommandIs(ws: seq<string>, l: Line)
    requires SaysLine(ws, l) && !l.instr.Return?
    ensures Command(ws) != "RETURN"
  {
    hide Says, SaysBy, Lookup, IsLabel;
    SaysShort(ws, l);
    NamesAndLabels(ws[0]);
    NotReturn(if l.tag == None then ws else ws[1..], l.instr);
  }

  lemma {:induction false} NotReturn(ws: seq<string>, i: Instr)
    requires Says(ws, i) && !i.Return?
    ensures ws != [] && ws[0] != "RETURN" && !IsLabel(ws[0])
  {
    SaysNothing(i);
    assert ws == [ws[0]] + ws[1..];
    SaysWord(ws[0], ws[1..], i);
    hide Says, Lookup, IsLabel, Begins;
    NamesAndLabels(ws[0]);
    InstructionNames("RETURN");
    ReturnName();
    hide Grammar.Entry;
  }

  lemma ReturnName()
    ensures Grammar.Entry("RETURN") == Some(ReturnOp)
  {}
}
