/** The shipped summing program, run by the interpreter among any other programs. */
module SumN {
  import opened Syntax
  import opened Locals
  import opened Globals
  import opened Machine
  import opened Steps

  function Code(): (code: seq<Line>)
    ensures |code| == 13
  {
    [ Line(None, Branch(Eq, Var("argc"), Num(2), "LSTART")),
      Line(None, Print("Wrong number of arguments", [])),
      Line(None, Return),
      Line(Some("LSTART"), Print("Hello from execution nr ", [Elem("argv", Num(0))])),
      Line(None, Print("Summing up from 1 to ", [Elem("argv", Num(1))])),
      Line(None, Set(Var("n"), Num(1))),
      Line(None, Set(Var("sum"), Num(0))),
      Line(Some("LOOP"), Branch(Gt, Var("n"), Elem("argv", Num(1)), "LEND")),
      Line(None, Arith(Add, Var("sum"), Var("sum"), Var("n"))),
      Line(None, Arith(Add, Var("n"), Var("n"), Num(1))),
      Line(None, Bra("LOOP")),
      Line(Some("LEND"), Print("Result is ", [Var("sum")])),
      Line(None, Return)
    ]
  }

  /** The largest argument whose sum fits an int. */
  const LIMIT: int := 65535

  function Triangle(n: int): int {
    n * (n + 1) / 2
  }

  lemma {:induction false} TriangleNext(n: int)
    ensures Triangle(n + 1) == Triangle(n) + n + 1
  {
    assert (n + 1) * (n + 2) == n * (n + 1) + 2 * (n + 1);
  }

  lemma {:induction false} TriangleFits(n: nat)
    ensures InInt(Triangle(n)) <==> n <= LIMIT
    decreases if n <= LIMIT then LIMIT - n else n
  {
    TriangleNext(n - 1);
    if n < LIMIT {
      TriangleFits(n + 1);
      TriangleNext(n);
    } else if n > LIMIT + 1 {
      TriangleFits(n - 1);
    }
  }

  function Hello(a: Args): Printed
    requires |a.args| == 2
  {
    Printed("Hello from execution nr ", [a.args[0]])
  }

  function Summing(a: Args): Printed
    requires |a.args| == 2
  {
    Printed("Summing up from 1 to ", [a.args[1]])
  }

  function Result(a: Args): Printed
    requires |a.args| == 2
  {
    Printed("Result is ", [Triangle(a.args[1])])
  }

  /** What has been printed before a line. */
  function Shown(a: Args, line: nat): seq<Printed>
    requires |a.args| == 2
  {
    if line >= 12 then [Hello(a), Summing(a), Result(a)]
    else if line >= 5 then [Hello(a), Summing(a)]
    else if line == 4 then [Hello(a)]
    else []
  }

  /** Everything but the two counters: the labels met so far and the lines printed. */
  ghost predicate Shaped(p: Proc) {
    && |p.args.args| == 2 && |p.code| == 13 && p.error == None
    && IsPlain(p.table, "n") && IsPlain(p.table, "sum")
    && ("LSTART" in p.table ==> p.table["LSTART"] == Mark(3))
    && ("LOOP" in p.table ==> p.table["LOOP"] == Mark(7))
    && ("LEND" in p.table ==> p.table["LEND"] == Mark(11))
    && (8 <= p.line <= 10 ==> "LOOP" in p.table)
    && (p.past ==> p.line == 3 || (p.line == 7 && "LOOP" in p.table) || p.line == 11)
    && p.out == Shown(p.args, p.line)
  }

  /** The counters in every reachable state. */
  ghost predicate Counted(p: Proc)
    requires |p.args.args| == 2
  {
    var n, sum, last := Plain(p.table, "n"), Plain(p.table, "sum"), p.args.args[1];
    && (p.status.Finished? <==> p.line == 13)
    && (p.status.Wild? ==> p.line == 9)
    && (p.status.Ready? || p.status.Finished? || p.status.Wild?)
    && p.line in {0, 3, 4, 5, 6, 7, 8, 9, 10, 11, 12, 13}
    && (p.line == 6 ==> n == 1)
    && (p.line == 7 || p.line == 10 ==> 1 <= n <= last + 1 && n <= LIMIT + 1 && sum == Triangle(n - 1))
    && (p.line == 8 ==> 1 <= n <= last && n <= LIMIT + 1 && sum == Triangle(n - 1))
    && (p.line == 9 && p.status.Ready? ==> 1 <= n <= last && n <= LIMIT && sum == Triangle(n))
    && (p.status.Wild? ==> n == LIMIT + 1 <= last)
    && (p.line >= 11 ==> n == last + 1 && n <= LIMIT + 1 && sum == Triangle(last))
  }

  ghost predicate Inv(p: Proc) {
    Shaped(p) && Counted(p) && p.code == Code() && p.args.args[1] >= 0 && InInt(p.args.args[1])
  }

  /** Turns that the program still needs, if no sum overflows. */
  function Left(p: Proc): nat
    requires |p.args.args| == 2
  {
    var n, last := Plain(p.table, "n"), p.args.args[1];
    var laps := if last + 1 - n >= 0 then 4 * (last + 1 - n) else 0;
    match p.line
    case 0 => 4 * (if last >= 0 then last else 0) + 8
    case 3 => 4 * (if last >= 0 then last else 0) + 7
    case 4 => 4 * (if last >= 0 then last else 0) + 6
    case 5 => 4 * (if last >= 0 then last else 0) + 5
    case 6 => laps + 4
    case 7 => laps + 3
    case 8 => laps + 2
    case 9 => laps + 1
    case 10 => laps + 4
    case 11 => 2
    case 12 => 1
    case _ => 0
  }

  /** `q` may follow `p` in a run, one turn closer to the end unless the sum overflowed. */
  ghost predicate Follows(p: Proc, q: Proc)
    requires |p.args.args| == 2
  {
    q.code == p.code && q.args == p.args && Shaped(q) && Counted(q) && (q.status.Wild? || Left(q) == Left(p) - 1)
  }

  ghost predicate Runs(p: Proc) {
    Inv(p) && p.status.Ready? && Registered(p)
  }

  lemma {:induction false} FindLabels(code: seq<Line>)
    requires code == Code()
    ensures Find(code, 1, "LSTART") == Some(3) && Find(code, 8, "LEND") == Some(11)
  {
    assert code[1].tag == None && code[2].tag == None && code[3].tag == Some("LSTART");
    assert code[8].tag == None && code[9].tag == None && code[10].tag == None && code[11].tag == Some("LEND");
  }

  lemma {:induction false} Starts(p: Proc, g: Store)
    requires Runs(p) && p.line == 0
    ensures Follows(p, Interpret(p, g).proc)
  {
    hide Interpret;
    FindLabels(p.code);
    StepTaken(p, g, p.code[0], Eq, Var("argc"), Num(2), "LSTART", 3);
    hide Code;
  }

  lemma {:induction false} Repeats(p: Proc, g: Store)
    requires Runs(p) && p.line == 10
    ensures Follows(p, Interpret(p, g).proc)
  {
    hide Interpret, Triangle;
    StepBra(p, g, p.code[10], "LOOP", 7);
    hide Code;
  }

  lemma {:induction false} Enters(p: Proc, g: Store)
    requires Runs(p) && p.line == 7 && Plain(p.table, "n") <= p.args.args[1]
    ensures Follows(p, Interpret(p, g).proc)
  {
    hide Interpret, Triangle;
    StepNotTaken(p, g, p.code[7], Gt, Var("n"), Elem("argv", Num(1)), "LEND");
    hide Code;
  }

  /** Where the loop's branch leads when it is taken. */
  lemma ExitsTo(p: Proc, q: Proc)
    requires Runs(p) && p.line == 7 && Plain(p.table, "n") > p.args.args[1]
    requires Went(p, q, 11, Ready, {"LEND"}) && q.past && q.out == p.out
    requires "LEND" in q.table && q.table["LEND"] == Mark(11)
    ensures Follows(p, q)
  {
    hide Code, Triangle;
  }

  lemma {:induction false} Exits(p: Proc, g: Store)
    requires Runs(p) && p.line == 7 && Plain(p.table, "n") > p.args.args[1]
    ensures Follows(p, Interpret(p, g).proc)
  {
    hide Interpret, Triangle, Left, Follows, Counted;
    FindLabels(p.code);
    StepTaken(p, g, p.code[7], Gt, Var("n"), Elem("argv", Num(1)), "LEND", 11);
    hide Code, Shaped, Agree;
    ExitsTo(p, Interpret(p, g).proc);
  }

  /** The texts of the lines that print. */
  function Title(line: nat): string {
    if line == 3 then "Hello from execution nr " else if line == 4 then "Summing up from 1 to " else "Result is "
  }

  /** What a line that prints leads to. */
  lemma PrintsTo(p: Proc, q: Proc)
    requires Runs(p) && p.line in {3, 4, 11}
    requires Went(p, q, p.line + 1, Ready, {}) && !q.past && q.out == Shown(p.args, p.line + 1)
    ensures Follows(p, q)
  {
    hide Code, Triangle;
  }

  lemma {:induction false} Prints(p: Proc, g: Store, x: Operand)
    requires Runs(p) && p.line in {3, 4, 11}
    requires x == if p.line == 3 then Elem("argv", Num(0)) else if p.line == 4 then Elem("argv", Num(1)) else Var("sum")
    ensures Follows(p, Interpret(p, g).proc)
  {
    hide Interpret, Triangle, Left, Follows;
    var l, r := p.code[p.line], Interpret(p, g).proc;
    assert l.instr == Print(Title(p.line), [x]);
    hide Code;
    StepPrint(p, g, l, Title(p.line), [x]);
    assert r.out[|p.out|].values == [Value(x, p.table, p.args)];
    assert r.out == p.out + [r.out[|p.out|]];
    assert r.out == Shown(p.args, p.line + 1);
    hide Shaped, Counted, Agree, Shown;
    PrintsTo(p, r);
  }

  lemma {:induction false} Sets(p: Proc, g: Store)
    requires Runs(p) && p.line in {5, 6}
    ensures Follows(p, Interpret(p, g).proc)
  {
    hide Interpret;
    var l := p.code[p.line];
    StepSet(p, g, l, if p.line == 5 then "n" else "sum", l.instr.src);
    hide Code;
  }

  lemma {:induction false} AddsTerm(p: Proc, g: Store)
    requires Runs(p) && p.line == 8
    ensures Follows(p, Interpret(p, g).proc)
  {
    hide Interpret, Triangle;
    var n := Plain(p.table, "n");
    StepArith(p, g, p.code[8], Add, "sum", Var("sum"), Var("n"));
    hide Code;
    TriangleNext(n - 1);
    TriangleFits(n);
  }

  lemma {:induction false} AddsOne(p: Proc, g: Store)
    requires Runs(p) && p.line == 9
    ensures Follows(p, Interpret(p, g).proc)
  {
    hide Interpret, Triangle;
    StepArith(p, g, p.code[9], Add, "n", Var("n"), Num(1));
    hide Code;
  }

  lemma {:induction false} Dispatches(p: Proc, g: Store)
    requires Runs(p)
    ensures Follows(p, Interpret(p, g).proc)
  {
    hide Interpret, Code, Follows;
    if p.line == 0 { Starts(p, g); }
    else if p.line == 3 { Prints(p, g, Elem("argv", Num(0))); }
    else if p.line == 4 { Prints(p, g, Elem("argv", Num(1))); }
    else if p.line in {5, 6} { Sets(p, g); }
    else if p.line == 7 && Plain(p.table, "n") <= p.args.args[1] { Enters(p, g); }
    else if p.line == 7 { Exits(p, g); }
    else if p.line == 8 { AddsTerm(p, g); }
    else if p.line == 9 { AddsOne(p, g); }
    else if p.line == 10 { Repeats(p, g); }
    else if p.line == 11 { Prints(p, g, Var("sum")); }
    else { Returns(p, g); }
  }

  lemma {:induction false} SettledRuns(p: Proc)
    requires Inv(p) && p.status.Ready?
    ensures var q := Settled(p);
      Runs(q) && Left(q) == Left(p) && q.line == p.line && q.args == p.args && q.code == p.code
  {
    hide Triangle;
  }

  lemma {:induction false} VisitFollows(p: Proc, g: Store, slice: nat)
    requires Inv(p)
    ensures var q := Visit(p, g, slice).proc;
      Inv(q) && (if p.status.Ready? then Follows(p, q) else q == p)
  {
    if p.status.Ready? {
      SettledRuns(p);
      SettledSame(p, g);
      hide Interpret, Code, Settled, Shaped, Counted, Left;
      Dispatches(Settled(p), g);
    }
  }

  lemma Returns(p: Proc, g: Store)
    requires Runs(p) && p.line == 12
    ensures Follows(p, Interpret(p, g).proc)
  {}

  lemma {:induction false} RunInv(s: Sys, who: nat, turns: seq<Turn>)
    requires who < |s.procs| && s.procs[who] == Start(Code(), s.procs[who].args)
    requires |s.procs[who].args.args| == 2 && 0 <= s.procs[who].args.args[1] <= INT_MAX
    ensures var p, n := Run(s, turns).procs[who], s.procs[who].args.args[1];
      && Inv(p) && p.args == s.procs[who].args
      && (p.status.Ready? ==> Left(p) + TurnsOf(turns, who) == 4 * n + 8)
  {
    if turns != [] {
      var before, t := turns[..|turns| - 1], turns[|turns| - 1];
      RunInv(s, who, before);
      var r := Run(s, before);
      if t.who == who {
        VisitFollows(r.procs[who], r.glob, t.slice);
      }
      hide Visit, Code;
    }
  }

  /** With an argument of at most 65535 the program ends within 4n + 8 turns and prints the
      sum of 1 to n; with a larger one the sum overflows an int and it never ends. */
  lemma {:induction false} SumsUp(s: Sys, who: nat, turns: seq<Turn>)
    requires who < |s.procs| && s.procs[who] == Start(Code(), s.procs[who].args)
    requires |s.procs[who].args.args| == 2 && 0 <= s.procs[who].args.args[1] <= INT_MAX
    requires TurnsOf(turns, who) >= 4 * s.procs[who].args.args[1] + 8
    ensures var p, a := Run(s, turns).procs[who], s.procs[who].args;
      && (p.status.Finished? <==> a.args[1] <= LIMIT)
      && (p.status.Finished? ==> p.error == None && p.out == [Hello(a), Summing(a), Result(a)])
      && (!p.status.Finished? ==> p.status.Wild?)
  {
    hide Code, Run, Triangle;
    RunInv(s, who, turns);
  }
}
