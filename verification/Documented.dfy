/** The two programs of the project's own description, run from their texts. */
module Documented {
  import opened Syntax
  import opened Locals
  import opened Machine
  import opened SourceText
  import opened TapeMachine
  import opened Positions
  import opened TextRuns
  import opened Shipped
  import opened Chars
  import opened Steps
  import Globals
  import OperandText
  import Scanning

  const FRESH: seq<Line> := [Line(None, Instr.Print("val =", [Var("val")]))]

  const SHARED: seq<Line> := [
    Line(None, Store(Var("g"), Num(15))),
    Line(None, Load(Var("x"), Var("g"))),
    Line(None, Instr.Print("x g =", [Var("x"), Var("g")]))]

  const FRESH_TEXT: string := "#PROGRAM\n" + "PRINT \"val =\" $val\n"

  const SHARED_TEXT: string :=
    "#PROGRAM\n" + ("STORE $g 15\n" + ("LOAD $x $g\n" + "PRINT \"x g =\" $x $g\n"))

  // ----- their texts -----

  lemma {:induction false} TightText(l: Line, rest: string)
    requires l.tag == None
    ensures LineText(l, Tight(l), rest) ==
      Scanning.Mnemonic(CodeOf(l.instr)) + Spaced(ArgumentWords(l.instr), "\n" + rest)
  {
    var ws := ArgumentWords(l.instr);
    SpreadSpaced(ws, "\n" + rest);
    assert Tight(l).gaps == Blanks(|ws|);
    assert "" + "\n" + rest == "\n" + rest;
    hide ArgumentWords, Scanning.Mnemonic, CodeOf;
  }

  function Blanks(n: nat): (gs: seq<string>)
    ensures |gs| == n
  {
    seq(n, i => " ")
  }

  /** Words with a blank in front of each. */
  function Spaced(ws: seq<string>, end: string): string {
    if ws == [] then end else " " + ws[0] + Spaced(ws[1..], end)
  }

  lemma {:induction false} SpreadSpaced(ws: seq<string>, end: string)
    ensures Spread(ws, Blanks(|ws|), end) == Spaced(ws, end)
  {
    if ws != [] {
      SpreadSpaced(ws[1..], end);
      assert Blanks(|ws|)[1..] == Blanks(|ws| - 1);
    }
  }

  lemma {:induction false} SpacedTwo(a: string, b: string, end: string)
    ensures Spaced([a, b], end) == " " + a + " " + b + end
  {
    assert [a, b][1..] == [b] && [b][1..] == [];
    assert Spaced([b], end) == " " + b + end;
  }

  lemma {:induction false} SpacedThree(a: string, b: string, c: string, end: string)
    ensures Spaced([a, b, c], end) == " " + a + " " + b + " " + c + end
  {
    assert [a, b, c][1..] == [b, c];
    SpacedTwo(b, c, end);
  }

  lemma Fifteen()
    ensures OperandText.Print(Num(15)) == "15" && Writable(Num(15))
  {
    assert Decimal(1) == "1" && Digit(5) == '5';
    assert Decimal(15) == Decimal(1) + [Digit(5)];
  }

  lemma VarPrint(n: string)
    ensures OperandText.Print(Var(n)) == "$" + n
  {}

  lemma Join(m: string, x: string, e: string, rest: string)
    ensures m + (x + (e + rest)) == m + x + e + rest
  {}

  lemma {:induction false} TwoWords(l: Line, a: string, b: string, rest: string)
    requires l.tag == None && ArgumentWords(l.instr) == [a, b]
    ensures LineText(l, Tight(l), rest) == Scanning.Mnemonic(CodeOf(l.instr)) + (" " + a + " " + b) + "\n" + rest
  {
    hide LineText, Tight, Spaced, ArgumentWords, Scanning.Mnemonic;
    TightText(l, rest);
    SpacedTwo(a, b, "\n" + rest);
    Join(Scanning.Mnemonic(CodeOf(l.instr)), " " + a + " " + b, "\n", rest);
  }

  lemma {:induction false} ThreeWords(l: Line, a: string, b: string, c: string, rest: string)
    requires l.tag == None && ArgumentWords(l.instr) == [a, b, c]
    ensures LineText(l, Tight(l), rest) ==
      Scanning.Mnemonic(CodeOf(l.instr)) + (" " + a + " " + b + " " + c) + "\n" + rest
  {
    hide LineText, Tight, Spaced, ArgumentWords, Scanning.Mnemonic;
    TightText(l, rest);
    SpacedThree(a, b, c, "\n" + rest);
    Join(Scanning.Mnemonic(CodeOf(l.instr)), " " + a + " " + b + " " + c, "\n", rest);
  }

  lemma {:induction false} PrintedIs(xs: seq<Operand>)
    ensures |xs| == 1 ==> SourceText.Printed(xs) == [OperandText.Print(xs[0])]
    ensures |xs| == 2 ==> SourceText.Printed(xs) == [OperandText.Print(xs[0]), OperandText.Print(xs[1])]
  {}

  lemma {:induction false} FreshLine(rest: string)
    ensures LineText(FRESH[0], Tight(FRESH[0]), rest) == "PRINT \"val =\" $val\n" + rest
  {
    var l := FRESH[0];
    VarPrint("val");
    assert "$" + "val" == "$val";
    PrintedIs([Var("val")]);
    hide OperandText.Print, SourceText.Printed, LineText, Tight;
    assert "\"" + "val =" + "\"" == "\"val =\"";
    assert ArgumentWords(l.instr) == ["\"val =\""] + ["$val"] + [];
    TwoWords(l, "\"val =\"", "$val", rest);
    hide ArgumentWords;
    assert "PRINT" + (" " + "\"val =\"" + " " + "$val") + "\n" == "PRINT \"val =\" $val\n";
  }

  lemma {:induction false} SharedLines(rest: string)
    ensures LineText(SHARED[0], Tight(SHARED[0]), rest) == "STORE $g 15\n" + rest
    ensures LineText(SHARED[1], Tight(SHARED[1]), rest) == "LOAD $x $g\n" + rest
  {
    Fifteen();
    VarPrint("g");
    VarPrint("x");
    assert "$" + "g" == "$g" && "$" + "x" == "$x";
    PrintedIs([Var("g"), Num(15)]);
    PrintedIs([Var("x"), Var("g")]);
    hide OperandText.Print, SourceText.Printed, LineText, Tight, Writable;
    assert ArgumentWords(SHARED[0].instr) == [] + ["$g", "15"] + [];
    assert ArgumentWords(SHARED[1].instr) == [] + ["$x", "$g"] + [];
    TwoWords(SHARED[0], "$g", "15", rest);
    TwoWords(SHARED[1], "$x", "$g", rest);
    hide ArgumentWords;
    assert "STORE" + (" " + "$g" + " " + "15") + "\n" == "STORE $g 15\n";
    assert "LOAD" + (" " + "$x" + " " + "$g") + "\n" == "LOAD $x $g\n";
  }

  lemma {:induction false} SharedPrint(rest: string)
    ensures LineText(SHARED[2], Tight(SHARED[2]), rest) == "PRINT \"x g =\" $x $g\n" + rest
  {
    VarPrint("x");
    VarPrint("g");
    assert "$" + "g" == "$g" && "$" + "x" == "$x";
    PrintedIs([Var("x"), Var("g")]);
    hide OperandText.Print, SourceText.Printed, LineText, Tight;
    assert "\"" + "x g =" + "\"" == "\"x g =\"";
    assert ArgumentWords(SHARED[2].instr) == ["\"x g =\""] + ["$x", "$g"] + [];
    ThreeWords(SHARED[2], "\"x g =\"", "$x", "$g", rest);
    hide ArgumentWords;
    assert "PRINT" + (" " + "\"x g =\"" + " " + "$x" + " " + "$g") + "\n" == "PRINT \"x g =\" $x $g\n";
  }

  lemma {:induction false} TightSource(code: seq<Line>)
    requires code != []
    ensures Source(code, TightAll(code), "") ==
      LineText(code[0], Tight(code[0]), Source(code[1..], TightAll(code[1..]), ""))
  {
    assert TightAll(code)[1..] == TightAll(code[1..]);
    hide LineText, Tight, TightAll;
  }

  lemma NoSource()
    ensures Source([], TightAll([]), "") == ""
  {}

  lemma {:induction false} FreshSource()
    ensures Source(FRESH, TightAll(FRESH), "") == "PRINT \"val =\" $val\n" + ""
  {
    hide LineText, Tight, TightAll, Source;
    NoSource();
    TightSource(FRESH);
    assert FRESH[1..] == [];
    FreshLine("");
  }

  lemma {:induction false} FreshText()
    ensures FileOf(FRESH).text == FRESH_TEXT
  {
    hide Source, TightAll;
    FreshSource();
    var c := "PRINT \"val =\" $val\n";
    assert c + "" == c;
    assert "#PROGRAM" + "" + "\n" == "#PROGRAM\n";
  }

  lemma {:induction false} SharedSource()
    ensures Source(SHARED, TightAll(SHARED), "") ==
      "STORE $g 15\n" + ("LOAD $x $g\n" + ("PRINT \"x g =\" $x $g\n" + ""))
  {
    hide LineText, Tight, TightAll, Source;
    NoSource();
    TightSource(SHARED);
    TightSource(SHARED[1..]);
    TightSource(SHARED[2..]);
    assert SHARED[1..][1..] == SHARED[2..] && SHARED[2..][1..] == [];
    assert SHARED[1..][0] == SHARED[1] && SHARED[2..][0] == SHARED[2];
    var c := "PRINT \"x g =\" $x $g\n" + "";
    SharedPrint("");
    SharedLines(c);
    SharedLines("LOAD $x $g\n" + c);
  }

  lemma {:induction false} SharedText()
    ensures FileOf(SHARED).text == SHARED_TEXT
  {
    hide Source, TightAll;
    SharedSource();
    var c := "PRINT \"x g =\" $x $g\n";
    assert c + "" == c;
    assert "#PROGRAM" + "" + "\n" == "#PROGRAM\n";
  }

  // ----- their runs -----

  /** A program from its text, over any globals. */
  function Loaded(text: string, a: Args, glob: Globals.Store): Reel
    requires Scanning.Magic(text).Opened?
  {
    Reel(glob, [Tape(text, Scanning.Magic(text).ahead, Start([], a))])
  }

  lemma {:induction false} LinesOpen(code: seq<Line>, a: Args, glob: Globals.Store)
    requires AllWellFormed(code)
    ensures var f := FileOf(code);
      Scanning.Magic(f.text).Opened? && f.code == code
      && Opening([f], [a], Loaded(f.text, a, glob), Sys(glob, [Start(code, a)]))
  {
    FileOpens(code);
    hide Carries, Scanning.Magic, AllWellFormed;
  }

  lemma {:induction false} AllFormed()
    ensures AllWellFormed(FRESH) && AllWellFormed(SHARED)
  {
    VarWritable("val");
    VarWritable("g");
    VarWritable("x");
    Fifteen();
    Texts();
    hide Writable, IsText;
  }

  lemma Texts()
    ensures IsText("val =") && IsText("x g =")
  {}

  /** Turns of the first program. */
  predicate Alone(turns: seq<Turn>) {
    forall i | 0 <= i < |turns| :: turns[i].who == 0
  }

  lemma {:induction false} RunNext(s: Sys, turns: seq<Turn>)
    requires Alone(turns) && turns != [] && |s.procs| == 1
    ensures var u := Run(s, turns[..|turns| - 1]);
      u.procs[0].status.Ready? ==>
        Run(s, turns) == Sys(Interpret(u.procs[0], u.glob).glob, [Interpret(u.procs[0], u.glob).proc])
  {
    var u := Run(s, turns[..|turns| - 1]);
    hide Interpret;
    assert u.procs == [u.procs[0]];
  }

  /** A variable that is used for the first time is 0. */
  lemma {:induction false} FreshIsZero(a: Args, glob: Globals.Store, turns: seq<Turn>)
    requires Alone(turns) && |turns| == 1
    ensures Scanning.Magic(FRESH_TEXT).Opened?
    ensures Play(Loaded(FRESH_TEXT, a, glob), turns).tapes[0].core.out == [Printed("val =", [0])]
  {
    hide Scanning.Magic, Play, FileOf, Opening, AllWellFormed;
    FreshText();
    AllFormed();
    LinesOpen(FRESH, a, glob);
    var f := FileOf(FRESH);
    var s := Sys(glob, [Start(FRESH, a)]);
    TextRunsAsLines([f], [a], Loaded(f.text, a, glob), s, turns);
    hide SameCore;
    var p := Start(FRESH, a);
    RunNext(s, turns);
    assert Run(s, turns[..0]) == s;
    StepPrint(p, glob, FRESH[0], "val =", [Var("val")]);
    OneLine(Interpret(p, glob).proc.out, "val =", [0]);
  }

  lemma OneLine(out: seq<Printed>, text: string, values: seq<int>)
    requires |out| == 1 && out[0].text == text && out[0].values == values
    ensures out == [Printed(text, values)]
  {}

  /** A global and a local of the same name are different variables: STORE and LOAD bring 15 to
      x, and g is printed as 0. */
  lemma {:induction false} GlobalsAreApart(a: Args, glob: Globals.Store, turns: seq<Turn>)
    requires Alone(turns) && |turns| == 3
    ensures
      && Scanning.Magic(SHARED_TEXT).Opened?
      && var r := Play(Loaded(SHARED_TEXT, a, glob), turns);
        r.tapes[0].core.out == [Printed("x g =", [15, 0])] && Globals.Cell(r.glob, "g", 0) == 15
  {
    hide Scanning.Magic, Play, FileOf, Opening, AllWellFormed;
    SharedText();
    AllFormed();
    LinesOpen(SHARED, a, glob);
    var f := FileOf(SHARED);
    var s := Sys(glob, [Start(SHARED, a)]);
    TextRunsAsLines([f], [a], Loaded(f.text, a, glob), s, turns);
    hide SameCore;
    SharedRun(a, glob, turns);
  }

  /** Before the second line, and before the third. */
  ghost predicate SharedAt(p: Proc, g: Globals.Store, line: nat) {
    && p.code == SHARED && p.line == line && p.status.Ready? && p.out == []
    && IsPlain(p.table, "x") && IsPlain(p.table, "g") && Plain(p.table, "g") == 0 && Globals.Cell(g, "g", 0) == 15
    && (line == 2 ==> Plain(p.table, "x") == 15)
  }

  lemma {:induction false} SharedStores(a: Args, glob: Globals.Store)
    ensures var r := Interpret(Start(SHARED, a), glob);
      SharedAt(r.proc, r.glob, 1)
  {
    var p := Start(SHARED, a);
    StepStore(p, glob, SHARED[0], Var("g"), Num(15));
    Globals.PutCell(glob, "g", 0, 15);
    hide Interpret, Globals.Put, Globals.Cell;
  }

  lemma {:induction false} SharedLoads(p: Proc, g: Globals.Store)
    requires SharedAt(p, g, 1)
    ensures var r := Interpret(p, g);
      SharedAt(r.proc, r.glob, 2)
  {
    StepLoad(p, g, SHARED[1], "x", Var("g"));
    Globals.TouchCell(g, "g", 0);
    hide Interpret, Globals.Touch, Globals.Cell;
  }

  lemma {:induction false} SharedPrints(p: Proc, g: Globals.Store)
    requires SharedAt(p, g, 2)
    ensures var r := Interpret(p, g);
      r.proc.out == [Printed("x g =", [15, 0])] && r.glob == g
  {
    hide Interpret, Globals.Cell;
    StepPrint(p, g, SHARED[2], "x g =", [Var("x"), Var("g")]);
    OneLine(Interpret(p, g).proc.out, "x g =", [15, 0]);
  }

  lemma {:induction false} SharedRun(a: Args, glob: Globals.Store, turns: seq<Turn>)
    requires Alone(turns) && |turns| == 3
    ensures var s := Run(Sys(glob, [Start(SHARED, a)]), turns);
      s.procs[0].out == [Printed("x g =", [15, 0])] && Globals.Cell(s.glob, "g", 0) == 15
  {
    hide Interpret, Run, IsPlain, Plain, Globals.Cell;
    var s, p := Sys(glob, [Start(SHARED, a)]), Start(SHARED, a);
    RunNothing(s);
    assert turns[..1][..0] == [] && turns[..2][..1] == turns[..1] && turns[..2] == turns[..|turns| - 1];
    RunNext(s, turns[..1]);
    SharedStores(a, glob);
    var r1 := Interpret(p, glob);
    RunNext(s, turns[..2]);
    SharedLoads(r1.proc, r1.glob);
    var r2 := Interpret(r1.proc, r1.glob);
    RunNext(s, turns);
    SharedPrints(r2.proc, r2.glob);
  }

  lemma RunNothing(s: Sys)
    ensures Run(s, []) == s
  {}
}
