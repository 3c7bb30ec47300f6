/** The shipped Init program leaves the globals from which producers and consumers start. */
module Init {
  import opened Syntax
  import opened Locals
  import opened Globals
  import opened Machine
  import opened Steps

  function Code(): (code: seq<Line>)
    ensures |code| == 14
  {
    [ Line(None, Branch(Eq, Var("argc"), Num(2), "LSTART")),
      Line(None, Print("Wrong number of arguments", [])),
      Line(None, Return),
      Line(Some("LSTART"), Print("Init: setting $in to 0", [])),
      Line(None, Store(Var("in"), Num(0))),
      Line(None, Print("Init: setting $out to 0", [])),
      Line(None, Store(Var("out"), Num(0))),
      Line(None, Print("Init: setting $mtx to 1", [])),
      Line(None, Store(Var("mtx"), Num(1))),
      Line(None, Print("Init: setting $free to ", [Elem("argv", Num(1))])),
      Line(None, Store(Var("free"), Elem("argv", Num(1)))),
      Line(None, Print("Init: setting $full to ", [Num(0)])),
      Line(None, Store(Var("full"), Num(0))),
      Line(None, Return)
    ]
  }

  /** The cells that the lines before `line` have set. */
  ghost predicate SetUpTo(g: Store, n: int, line: nat) {
    && (line >= 5 ==> Cell(g, "in", 0) == 0)
    && (line >= 7 ==> Cell(g, "out", 0) == 0)
    && (line >= 9 ==> Cell(g, "mtx", 0) == 1)
    && (line >= 11 ==> Cell(g, "free", 0) == n)
    && (line >= 13 ==> Cell(g, "full", 0) == 0)
  }

  ghost predicate Inv(p: Proc, g: Store, n: int) {
    && p.code == Code() && |p.args.args| == 2 && p.args.args[1] == n && p.error == None
    && (p.line == 0 || 3 <= p.line <= 14)
    && (if p.line == 14 then p.status.Finished? else p.status.Ready?)
    && ("LSTART" in p.table ==> p.table["LSTART"] == Mark(3))
    && (p.line == 3 ==> "LSTART" in p.table) && (p.past ==> p.line == 3)
    && SetUpTo(g, n, p.line)
  }

  /** One turn moves on to the next line, or from the branch to its target. */
  ghost predicate Advances(p: Proc, g: Store, n: int, r: Pair) {
    Inv(r.proc, r.glob, n) && r.proc.line == if p.line == 0 then 3 else p.line + 1
  }

  lemma {:induction false} Stores(p: Proc, g: Store, n: int)
    requires Inv(p, g, n) && p.line in {4, 6, 8, 10, 12}
    ensures Advances(p, g, n, Interpret(p, g))
  {
    hide Interpret;
    var l := p.code[p.line];
    StepStore(p, g, l, l.instr.glob, l.instr.src);
    PutCell(g, l.instr.glob.name, 0, Value(l.instr.src, p.table, p.args));
  }

  lemma {:induction false} Prints(p: Proc, g: Store, n: int)
    requires Inv(p, g, n) && p.line in {3, 5, 7, 9, 11}
    ensures Advances(p, g, n, Interpret(p, g))
  {
    hide Interpret;
    var l := p.code[p.line];
    StepPrint(p, g, l, l.instr.text, l.instr.args);
  }

  lemma {:induction false} Starts(p: Proc, g: Store, n: int)
    requires Inv(p, g, n) && p.line == 0
    ensures Advances(p, g, n, Interpret(p, g))
  {
    hide Interpret;
    assert p.code[1].tag == None && p.code[2].tag == None && p.code[3].tag == Some("LSTART");
    assert Find(p.code, 1, "LSTART") == Some(3);
    StepTaken(p, g, p.code[0], Eq, Var("argc"), Num(2), "LSTART", 3);
  }

  lemma Returns(p: Proc, g: Store, n: int)
    requires Inv(p, g, n) && p.line == 13
    ensures Advances(p, g, n, Interpret(p, g))
  {}

  lemma {:induction false} VisitAdvances(p: Proc, g: Store, n: int, slice: nat)
    requires Inv(p, g, n)
    ensures var r := Visit(p, g, slice);
      if p.status.Ready? then Advances(p, g, n, r) else r == Pair(p, g)
  {
    if p.status.Ready? {
      hide Interpret, Code;
      if p.line == 0 { Starts(p, g, n); }
      else if p.line == 13 { Returns(p, g, n); }
      else if p.line in {4, 6, 8, 10, 12} { Stores(p, g, n); }
      else { Prints(p, g, n); }
    }
  }

  lemma {:induction false} RunInv(s: Sys, turns: seq<Turn>, n: int)
    requires |s.procs| == 1 && Inv(s.procs[0], s.glob, n)
    ensures var r := Run(s, turns);
      && Inv(r.procs[0], r.glob, n)
      && (s.procs[0].line == 0 ==>
            (r.procs[0].line == 0 <==> TurnsOf(turns, 0) == 0) &&
            (r.procs[0].line < 14 ==> r.procs[0].line == (if TurnsOf(turns, 0) == 0 then 0 else TurnsOf(turns, 0) + 2)))
  {
    if turns != [] {
      var before, t := turns[..|turns| - 1], turns[|turns| - 1];
      RunInv(s, before, n);
      var r := Run(s, before);
      if t.who == 0 { VisitAdvances(r.procs[0], r.glob, n, t.slice); }
      hide Visit, Code, SetUpTo;
    }
  }

  /** Run alone over any globals, Init ends within 12 turns and leaves an empty buffer of
      size `n`: one unit of $mtx, `n` of $free, none of $full. */
  lemma {:induction false} LeavesEmptyBuffer(s: Sys, turns: seq<Turn>)
    requires |s.procs| == 1 && s.procs[0] == Start(Code(), s.procs[0].args) && |s.procs[0].args.args| == 2
    requires TurnsOf(turns, 0) >= 12
    ensures var r := Run(s, turns);
      && r.procs[0].status.Finished? && r.procs[0].error == None
      && Cell(r.glob, "in", 0) == 0 && Cell(r.glob, "out", 0) == 0 && Cell(r.glob, "mtx", 0) == 1
      && Cell(r.glob, "free", 0) == s.procs[0].args.args[1] && Cell(r.glob, "full", 0) == 0
  {
    hide Run;
    RunInv(s, turns, s.procs[0].args.args[1]);
  }
}
