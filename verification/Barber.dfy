/** The shipped barber and customer programs, run by the interpreter: every step of a
    participant is a move of the protocol in module Barbershop. */
module Barber {
  import opened Syntax
  import opened Locals
  import opened Globals
  import opened Machine
  import opened Steps
  import B = Barbershop

  /** The program texts; line 0 is the line after the magic one. */
  function Code(role: B.Role): (code: seq<Line>)
    ensures |code| == Length(role)
  {
    match role
    case Barber => [
      Line(None, Store(Var("mtx"), Num(1))),
      Line(None, Store(Var("sleep"), Num(0))),
      Line(Some("LBARBERLOOP"), Down(Var("mtx"))),
      Line(None, Load(Var("tmp"), Var("avl"))),
      Line(None, Arith(Sub, Var("tmp"), Var("tmp"), Num(1))),
      Line(None, Store(Var("avl"), Var("tmp"))),
      Line(None, Branch(Ge, Var("tmp"), Num(0), "LCUSTOMERISHERE")),
      Line(None, Print("Barber sleeps until new customer", [])),
      Line(None, Up(Var("mtx"))),
      Line(None, Down(Var("sleep"))),
      Line(None, Down(Var("mtx"))),
      Line(Some("LCUSTOMERISHERE"), Print("Barber picks up next customer", [])),
      Line(None, Up(Var("mtx"))),
      Line(None, Print("Barber cuts hair for 4 seconds", [])),
      Line(None, Sleep(Num(4))),
      Line(None, Bra("LBARBERLOOP"))
    ]
    case Customer => [
      Line(None, Down(Var("mtx"))),
      Line(None, Print("New customer is here!", [])),
      Line(None, Load(Var("tmp"), Var("avl"))),
      Line(None, Arith(Add, Var("tmp"), Var("tmp"), Num(1))),
      Line(None, Store(Var("avl"), Var("tmp"))),
      Line(None, Branch(Gt, Var("tmp"), Num(0), "LNOWAKEUP")),
      Line(None, Print("Customer wakes up barber", [])),
      Line(None, Up(Var("sleep"))),
      Line(Some("LNOWAKEUP"), Up(Var("mtx"))),
      Line(None, Return)
    ]
  }

  function Length(role: B.Role): nat {
    if role.Barber? then 16 else 10
  }

  /** The label that the conditional branch of the program jumps to, and its line. */
  function Ahead(role: B.Role): string {
    if role.Barber? then "LCUSTOMERISHERE" else "LNOWAKEUP"
  }

  function AheadLine(role: B.Role): nat {
    if role.Barber? then 11 else 8
  }

  function Awaited(role: B.Role, at: nat): string {
    if role.Barber? && at == 10 then "sleep" else "mtx"
  }

  /** What every participant looks like in every reachable state, its text aside. */
  ghost predicate Shaped(p: Proc, role: B.Role) {
    && |p.code| == Length(role)
    && IsPlain(p.table, "tmp")
    && (Ahead(role) in p.table ==> p.table[Ahead(role)] == Mark(AheadLine(role)))
    && ("LBARBERLOOP" in p.table ==> p.table["LBARBERLOOP"] == Mark(2))
    && (role.Barber? && (p.line >= 3 || (p.line == 2 && p.past)) ==> "LBARBERLOOP" in p.table)
    && (p.past ==> p.line == AheadLine(role) || (role.Barber? && p.line == 2))
    && (p.status.Blocked? ==> p.semIdx == 0 && p.sem == Awaited(role, p.line))
  }

  function ActorOf(p: Proc, role: B.Role): B.Actor {
    B.Actor(role, p.line, p.status, Plain(p.table, "tmp"))
  }

  function WorldOf(g: Store): B.World {
    B.World(Cell(g, "mtx", 0), Cell(g, "sleep", 0), Cell(g, "avl", 0))
  }

  ghost predicate Fit(p: Proc, role: B.Role, g: Store) {
    && Shaped(p, role) && B.Knows(ActorOf(p, role), WorldOf(g)) && -1 <= WorldOf(g).avl < INT_MAX
  }

  /** The interpreter's step is the protocol's move. */
  ghost predicate Simulates(p: Proc, role: B.Role, g: Store, r: Pair) {
    var c := B.Move(ActorOf(p, role), WorldOf(g), r.proc.status.Sleeping?);
    && r.proc.code == p.code && Shaped(r.proc, role)
    && ActorOf(r.proc, role) == c.a && WorldOf(r.glob) == c.w
  }

  /** Lines that only print, and the last one of a customer. */
  lemma Quiet(p: Proc, role: B.Role, g: Store, r: Pair)
    requires Fit(p, role, g) && p.status.Ready?
    requires p.line in (if role.Barber? then {7, 11, 13} else {1, 6})
    requires r.glob == g && Went(p, r.proc, p.line + 1, Ready, {}) && !r.proc.past
    ensures Simulates(p, role, g, r)
  {}

  lemma Naps(p: Proc, g: Store, r: Pair)
    requires Fit(p, B.Barber, g) && p.status.Ready? && p.line == 14
    requires r.glob == g && Went(p, r.proc, 15, Sleeping, {}) && !r.proc.past
    ensures Simulates(p, B.Barber, g, r)
  {}

  lemma Jumps(p: Proc, role: B.Role, g: Store, r: Pair)
    requires Fit(p, role, g) && p.status.Ready?
    requires
      if role.Barber? then p.line == 6 && Plain(p.table, "tmp") >= 0
      else p.line == 5 && Plain(p.table, "tmp") > 0
    requires r.glob == g && Went(p, r.proc, AheadLine(role), Ready, {Ahead(role)})
    requires Ahead(role) in r.proc.table && r.proc.table[Ahead(role)] == Mark(AheadLine(role))
    ensures Simulates(p, role, g, r)
  {}

  lemma FallsThrough(p: Proc, role: B.Role, g: Store, r: Pair)
    requires Fit(p, role, g) && p.status.Ready?
    requires
      if role.Barber? then p.line == 6 && Plain(p.table, "tmp") < 0
      else p.line == 5 && Plain(p.table, "tmp") <= 0
    requires r.glob == g && Went(p, r.proc, p.line + 1, Ready, {}) && !r.proc.past
    ensures Simulates(p, role, g, r)
  {}

  lemma Loops(p: Proc, g: Store, r: Pair)
    requires Fit(p, B.Barber, g) && p.status.Ready? && p.line == 15
    requires r.glob == g && Went(p, r.proc, 2, Ready, {"LBARBERLOOP"})
    requires "LBARBERLOOP" in r.proc.table && r.proc.table["LBARBERLOOP"] == Mark(2)
    ensures Simulates(p, B.Barber, g, r)
  {}

  lemma {:induction false} Downs(p: Proc, role: B.Role, g: Store, r: Pair)
    requires Fit(p, role, g) && p.status.Ready?
    requires p.line in (if role.Barber? then {2, 9, 10} else {0})
    requires role.Barber? ==> "LBARBERLOOP" in p.table
    requires Went(p, r.proc, p.line + 1, Blocked, {}) && !r.proc.past
    requires r.proc.sem == Awaited(role, p.line + 1) && r.proc.semIdx == 0
    requires r.glob == Touch(g, r.proc.sem, 0)
    ensures Simulates(p, role, g, r)
  {
    TouchCell(g, r.proc.sem, 0);
  }

  /** The semaphore raised by line `at`. */
  function Raised(role: B.Role, at: nat): string {
    if role.Customer? && at == 7 then "sleep" else "mtx"
  }

  lemma {:induction false} Ups(p: Proc, role: B.Role, g: Store, r: Pair)
    requires Fit(p, role, g) && p.status.Ready?
    requires p.line in (if role.Barber? then {8, 12} else {7, 8})
    requires Went(p, r.proc, p.line + 1, Ready, {}) && !r.proc.past
    requires r.glob == Put(g, Raised(role, p.line), 0, Cell(g, Raised(role, p.line), 0) + 1)
    ensures Simulates(p, role, g, r)
  {
    PutCell(g, Raised(role, p.line), 0, Cell(g, Raised(role, p.line), 0) + 1);
  }

  lemma Counts(p: Proc, role: B.Role, g: Store, r: Pair)
    requires Fit(p, role, g) && p.status.Ready? && p.line == if role.Barber? then 4 else 3
    requires r.glob == g && Went(p, r.proc, p.line + 1, Ready, {"tmp"}) && !r.proc.past
    requires IsPlain(r.proc.table, "tmp")
    requires Plain(r.proc.table, "tmp") == Plain(p.table, "tmp") + if role.Barber? then -1 else 1
    ensures Simulates(p, role, g, r)
  {}

  lemma {:induction false} Loads(p: Proc, role: B.Role, g: Store, r: Pair)
    requires Fit(p, role, g) && p.status.Ready? && p.line == if role.Barber? then 3 else 2
    requires r.glob == Touch(g, "avl", 0) && Went(p, r.proc, p.line + 1, Ready, {"tmp"}) && !r.proc.past
    requires IsPlain(r.proc.table, "tmp") && Plain(r.proc.table, "tmp") == Cell(g, "avl", 0)
    ensures Simulates(p, role, g, r)
  {
    TouchCell(g, "avl", 0);
  }

  lemma {:induction false} Stores(p: Proc, role: B.Role, g: Store, r: Pair, to: string, v: int)
    requires Fit(p, role, g) && p.status.Ready?
    requires (to == "avl" && v == Plain(p.table, "tmp") && p.line == if role.Barber? then 5 else 4) ||
      (role.Barber? && to == "mtx" && v == 1 && p.line == 0) || (role.Barber? && to == "sleep" && v == 0 && p.line == 1)
    requires r.glob == Put(g, to, 0, v) && Went(p, r.proc, p.line + 1, Ready, {}) && !r.proc.past
    ensures Simulates(p, role, g, r)
  {
    PutCell(g, to, 0, v);
  }

  ghost predicate Runs(p: Proc, role: B.Role, g: Store) {
    Fit(p, role, g) && p.status.Ready? && p.code == Code(role) && Registered(p)
  }

  lemma {:induction false} FindAhead(code: seq<Line>, role: B.Role)
    requires code == Code(role)
    ensures Find(code, if role.Barber? then 7 else 6, Ahead(role)) == Some(AheadLine(role))
  {
    if role.Barber? {
      assert code[7].tag == None && code[8].tag == None && code[9].tag == None && code[10].tag == None;
      assert code[11].tag == Some("LCUSTOMERISHERE");
    } else {
      assert code[6].tag == None && code[7].tag == None && code[8].tag == Some("LNOWAKEUP");
    }
  }

  lemma {:induction false} Decides(p: Proc, role: B.Role, g: Store)
    requires Runs(p, role, g) && p.line == if role.Barber? then 6 else 5
    ensures Simulates(p, role, g, Interpret(p, g))
  {
    hide Interpret;
    var l, tmp := p.code[p.line], Plain(p.table, "tmp");
    var rel := if role.Barber? then Ge else Gt;
    FindAhead(p.code, role);
    if Holds(rel, tmp, 0) {
      StepTaken(p, g, l, rel, Var("tmp"), Num(0), Ahead(role), AheadLine(role));
      Jumps(p, role, g, Interpret(p, g));
    } else {
      StepNotTaken(p, g, l, rel, Var("tmp"), Num(0), Ahead(role));
      FallsThrough(p, role, g, Interpret(p, g));
    }
  }

  lemma {:induction false} Prints(p: Proc, role: B.Role, g: Store)
    requires Runs(p, role, g) && p.line in (if role.Barber? then {7, 11, 13} else {1, 6})
    ensures Simulates(p, role, g, Interpret(p, g))
  {
    hide Interpret;
    var l := p.code[p.line];
    StepPrint(p, g, l, l.instr.text, []);
    Quiet(p, role, g, Interpret(p, g));
  }

  lemma {:induction false} Lowers(p: Proc, role: B.Role, g: Store)
    requires Runs(p, role, g) && p.line in (if role.Barber? then {2, 9, 10} else {0})
    ensures Simulates(p, role, g, Interpret(p, g))
  {
    hide Interpret;
    var l := p.code[p.line];
    assert l.instr == Down(Var(Awaited(role, p.line + 1)));
    assert role.Barber? && p.line == 2 ==> l.tag == Some("LBARBERLOOP");
    StepDown(p, g, l, l.instr.glob);
    Downs(p, role, g, Interpret(p, g));
  }

  lemma {:induction false} Raises(p: Proc, role: B.Role, g: Store)
    requires Runs(p, role, g) && p.line in (if role.Barber? then {8, 12} else {7, 8})
    ensures Simulates(p, role, g, Interpret(p, g))
  {
    hide Interpret, Simulates;
    var l := p.code[p.line];
    assert l.instr == Up(Var(Raised(role, p.line)));
    StepUp(p, g, l, l.instr.glob);
    Ups(p, role, g, Interpret(p, g));
  }

  lemma {:induction false} Chair(p: Proc, role: B.Role, g: Store)
    requires Runs(p, role, g) && if role.Barber? then 3 <= p.line <= 5 else 2 <= p.line <= 4
    ensures Simulates(p, role, g, Interpret(p, g))
  {
    hide Interpret;
    var l := p.code[p.line];
    if l.instr.Load? {
      StepLoad(p, g, l, "tmp", Var("avl"));
      Loads(p, role, g, Interpret(p, g));
    } else if l.instr.Arith? {
      StepArith(p, g, l, l.instr.op, "tmp", Var("tmp"), Num(1));
      Counts(p, role, g, Interpret(p, g));
    } else {
      StepStore(p, g, l, Var("avl"), Var("tmp"));
      Stores(p, role, g, Interpret(p, g), "avl", Plain(p.table, "tmp"));
    }
  }

  lemma {:induction false} BarberEnds(p: Proc, g: Store)
    requires Runs(p, B.Barber, g) && p.line in {0, 1, 14, 15}
    ensures Simulates(p, B.Barber, g, Interpret(p, g))
  {
    hide Interpret;
    var l := p.code[p.line];
    if p.line <= 1 {
      StepStore(p, g, l, l.instr.glob, l.instr.src);
      Stores(p, B.Barber, g, Interpret(p, g), l.instr.glob.name, l.instr.src.value);
    } else if p.line == 14 {
      StepSleep(p, g, l, Num(4));
      Naps(p, g, Interpret(p, g));
    } else {
      StepBra(p, g, l, "LBARBERLOOP", 2);
      Loops(p, g, Interpret(p, g));
    }
  }

  lemma Leaves(p: Proc, g: Store)
    requires Runs(p, B.Customer, g) && p.line == 9
    ensures Simulates(p, B.Customer, g, Interpret(p, g))
  {}

  lemma SettledFits(p: Proc, role: B.Role, g: Store)
    requires Fit(p, role, g) && p.code == Code(role)
    ensures var q := Settled(p);
      Fit(q, role, g) && Registered(q) && q.code == p.code && q.status == p.status && q.line == p.line &&
      ActorOf(q, role) == ActorOf(p, role)
  {}

  lemma {:induction false} Granted(p: Proc, role: B.Role, g: Store)
    requires Fit(p, role, g) && p.status.Blocked?
    ensures Simulates(p, role, g, Grant(p, g))
  {
    PutCell(g, p.sem, p.semIdx, Cell(g, p.sem, p.semIdx) - 1);
  }

  lemma {:induction false} Interprets(p: Proc, role: B.Role, g: Store)
    requires Fit(p, role, g) && p.code == Code(role) && p.status.Ready?
    ensures Simulates(p, role, g, Interpret(p, g))
  {
    var q := Settled(p);
    SettledSame(p, g);
    SettledFits(p, role, g);
    hide Interpret, Code, Settled;
    if role.Barber? {
      if p.line in {7, 11, 13} { Prints(q, role, g); }
      else if p.line == 6 { Decides(q, role, g); }
      else if 3 <= p.line <= 5 { Chair(q, role, g); }
      else if p.line in {0, 1, 14, 15} { BarberEnds(q, g); }
      else if p.line in {8, 12} { Raises(q, role, g); }
      else { Lowers(q, role, g); }
    } else {
      if p.line in {1, 6} { Prints(q, role, g); }
      else if p.line == 5 { Decides(q, role, g); }
      else if 2 <= p.line <= 4 { Chair(q, role, g); }
      else if p.line == 9 { Leaves(q, g); }
      else if p.line in {7, 8} { Raises(q, role, g); }
      else { Lowers(q, role, g); }
    }
  }

  /** A visit to any participant is a move of the protocol. */
  lemma {:induction false} VisitSimulates(p: Proc, role: B.Role, g: Store, slice: nat)
    requires Fit(p, role, g) && p.code == Code(role)
    ensures Simulates(p, role, g, Visit(p, g, slice))
  {
    match p.status
    case Ready => Interprets(p, role, g);
    case Blocked => Granted(p, role, g);
    case Sleeping =>
    case Finished =>
    case Wild =>
  }
}
