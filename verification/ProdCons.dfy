/** The shipped producer and consumer programs, run by the interpreter: every step of a
    participant is a move of the protocol in module Buffer. */
module ProdCons {
  import opened Syntax
  import opened Locals
  import opened Globals
  import opened Machine
  import opened Steps
  import B = Buffer

  /** The program texts; line 0 is the line after the magic one. */
  function Code(role: B.Role): (code: seq<Line>)
    ensures |code| == Length(role)
  {
    match role
    case Producer => [
      Line(None, Set(Var("item"), Num(0))),
      Line(None, Branch(Eq, Var("argc"), Num(3), "LOOP")),
      Line(None, Print("Wrong number of arguments", [])),
      Line(None, Return),
      Line(Some("LOOP"), Arith(Add, Var("item"), Var("item"), Num(1))),
      Line(None, Print("Producer: produce ", [Elem("argv", Num(0)), Var("item")])),
      Line(None, Sleep(Elem("argv", Num(2)))),
      Line(None, Print("Producer: down free ", [Elem("argv", Num(0))])),
      Line(None, Down(Var("free"))),
      Line(None, Print("Producer: put ", [Elem("argv", Num(0))])),
      Line(None, Down(Var("mtx"))),
      Line(None, Load(Var("k"), Var("in"))),
      Line(None, Store(Elem("buf", Var("k")), Var("item"))),
      Line(None, Arith(Add, Var("k"), Var("k"), Num(1))),
      Line(None, Arith(Mod, Var("k"), Var("k"), Elem("argv", Num(1)))),
      Line(None, Store(Var("in"), Var("k"))),
      Line(None, Up(Var("mtx"))),
      Line(None, Print("Producer: up full ", [Elem("argv", Num(0))])),
      Line(None, Up(Var("full"))),
      Line(None, Bra("LOOP"))
    ]
    case Consumer => [
      Line(None, Branch(Eq, Var("argc"), Num(3), "LOOP")),
      Line(None, Print("Wrong number of arguments", [])),
      Line(None, Return),
      Line(Some("LOOP"), Print("Consumer: down full ", [Elem("argv", Num(0))])),
      Line(None, Down(Var("full"))),
      Line(None, Print("Consumer: get ", [Elem("argv", Num(0))])),
      Line(None, Down(Var("mtx"))),
      Line(None, Load(Var("k"), Var("out"))),
      Line(None, Load(Var("item"), Elem("buf", Var("k")))),
      Line(None, Arith(Add, Var("k"), Var("k"), Num(1))),
      Line(None, Arith(Mod, Var("k"), Var("k"), Elem("argv", Num(1)))),
      Line(None, Store(Var("out"), Var("k"))),
      Line(None, Up(Var("mtx"))),
      Line(None, Print("Consumer: up free ", [Elem("argv", Num(0))])),
      Line(None, Up(Var("free"))),
      Line(None, Print("Consumer: consume ", [Elem("argv", Num(0)), Var("item")])),
      Line(None, Sleep(Elem("argv", Num(2)))),
      Line(None, Bra("LOOP"))
    ]
  }

  function Length(role: B.Role): nat {
    if role.Producer? then 20 else 18
  }

  function LoopLine(role: B.Role): nat {
    if role.Producer? then 4 else 3
  }

  /** The semaphore that a participant waits for when it is blocked before line `at`. */
  function Awaited(role: B.Role, at: nat): string {
    if role.Producer? then (if at == 11 then "mtx" else "free")
    else (if at == 7 then "mtx" else "full")
  }

  /** What every participant looks like in every reachable state, its text aside. */
  ghost predicate Shaped(p: Proc, role: B.Role, n: int) {
    && |p.code| == Length(role)
    && |p.args.args| == 3 && p.args.args[1] == n
    && IsPlain(p.table, "k") && IsPlain(p.table, "item")
    && ("LOOP" in p.table ==> p.table["LOOP"] == Mark(LoopLine(role)))
    && (LoopLine(role) <= p.line ==> "LOOP" in p.table)
    && (p.past ==> p.line == LoopLine(role))
    && (p.status.Blocked? ==> p.semIdx == 0 && p.sem == Awaited(role, p.line))
  }

  function ActorOf(p: Proc, role: B.Role): B.Actor {
    B.Actor(role, p.line, p.status, Plain(p.table, "k"), Plain(p.table, "item"))
  }

  function WorldOf(g: Store, n: nat): B.World {
    B.World(Cell(g, "mtx", 0), Cell(g, "free", 0), Cell(g, "full", 0),
      Cell(g, "in", 0), Cell(g, "out", 0), seq(n, j requires 0 <= j => Cell(g, "buf", j)))
  }

  /** The world after a cell has been set. */
  lemma {:induction false} WorldPut(g: Store, n: nat, x: string, v: int)
    requires x in {"mtx", "free", "full", "in", "out"}
    ensures var w := WorldOf(g, n);
      WorldOf(Put(g, x, 0, v), n) ==
        match x
        case "mtx" => w.(mtx := v)
        case "free" => w.(free := v)
        case "full" => w.(full := v)
        case "in" => w.(head := v)
        case _ => w.(tail := v)
  {
    PutCell(g, x, 0, v);
    hide Put, Cell;
    assert WorldOf(Put(g, x, 0, v), n).buf == WorldOf(g, n).buf;
  }

  lemma {:induction false} WorldPutItem(g: Store, n: nat, k: nat, v: int)
    requires k < n
    ensures var w := WorldOf(g, n);
      WorldOf(Put(g, "buf", k, v), n) == w.(buf := w.buf[k := v])
  {
    PutCell(g, "buf", k, v);
    hide Put, Cell;
    assert WorldOf(Put(g, "buf", k, v), n).buf == WorldOf(g, n).buf[k := v];
  }

  /** A participant in a world in which the protocol lets it move. */
  ghost predicate Fit(p: Proc, role: B.Role, g: Store, n: nat) {
    && Shaped(p, role, n) && 1 <= n <= INT_MAX
    && B.Knows(ActorOf(p, role), WorldOf(g, n), n)
    && 0 <= WorldOf(g, n).head < n && 0 <= WorldOf(g, n).tail < n
  }

  /** The interpreter's step is the protocol's move. */
  ghost predicate Simulates(p: Proc, role: B.Role, g: Store, n: nat, r: Pair)
    requires Fit(p, role, g, n)
  {
    var c := B.Move(ActorOf(p, role), WorldOf(g, n), r.proc.status.Sleeping?);
    && r.proc.code == p.code && Shaped(r.proc, role, n)
    && ActorOf(r.proc, role) == c.a && WorldOf(r.glob, n) == c.w
  }

  /** Lines that only print. */
  lemma Quiet(p: Proc, role: B.Role, g: Store, n: nat, r: Pair)
    requires Fit(p, role, g, n) && p.status.Ready?
    requires p.line in (if role.Producer? then {5, 7, 9, 17} else {3, 5, 13, 15})
    requires r.glob == g && Went(p, r.proc, p.line + 1, Ready, {}) && !r.proc.past
    ensures Simulates(p, role, g, n, r)
  {}

  lemma Naps(p: Proc, role: B.Role, g: Store, n: nat, r: Pair)
    requires Fit(p, role, g, n) && p.status.Ready?
    requires p.line == if role.Producer? then 6 else 16
    requires r.glob == g && Went(p, r.proc, p.line + 1, r.proc.status, {}) && !r.proc.past
    requires r.proc.status.Ready? || r.proc.status.Sleeping?
    ensures Simulates(p, role, g, n, r)
  {}

  lemma Loops(p: Proc, role: B.Role, g: Store, n: nat, r: Pair)
    requires Fit(p, role, g, n) && p.status.Ready?
    requires p.line in (if role.Producer? then {1, 19} else {0, 17})
    requires r.glob == g && Went(p, r.proc, LoopLine(role), Ready, {"LOOP"})
    requires "LOOP" in r.proc.table && r.proc.table["LOOP"] == Mark(LoopLine(role))
    ensures Simulates(p, role, g, n, r)
  {}

  lemma {:induction false} Downs(p: Proc, role: B.Role, g: Store, n: nat, r: Pair)
    requires Fit(p, role, g, n) && p.status.Ready?
    requires p.line in (if role.Producer? then {8, 10} else {4, 6})
    requires Went(p, r.proc, p.line + 1, Blocked, {}) && !r.proc.past
    requires r.proc.sem == Awaited(role, p.line + 1) && r.proc.semIdx == 0
    requires r.glob == Touch(g, r.proc.sem, 0)
    ensures Simulates(p, role, g, n, r)
  {
    TouchCell(g, r.proc.sem, 0);
  }

  /** The semaphore raised by line `at`. */
  function Raised(role: B.Role, at: nat): string {
    if role.Producer? then (if at == 16 then "mtx" else "full")
    else (if at == 12 then "mtx" else "free")
  }

  lemma {:induction false} Ups(p: Proc, role: B.Role, g: Store, n: nat, r: Pair)
    requires Fit(p, role, g, n) && p.status.Ready?
    requires p.line in (if role.Producer? then {16, 18} else {12, 14})
    requires Went(p, r.proc, p.line + 1, Ready, {}) && !r.proc.past
    requires r.glob == Put(g, Raised(role, p.line), 0, Cell(g, Raised(role, p.line), 0) + 1)
    ensures Simulates(p, role, g, n, r)
  {
    WorldPut(g, n, Raised(role, p.line), Cell(g, Raised(role, p.line), 0) + 1);
    hide Put, Cell;
  }

  /** One local number changes, to what the protocol says. */
  lemma Counts(p: Proc, role: B.Role, g: Store, n: nat, r: Pair, x: string, v: int)
    requires Fit(p, role, g, n) && p.status.Ready?
    requires if role.Producer? then
        || (p.line == 0 && x == "item" && v == 0)
        || (p.line == 4 && x == "item" && v == Plain(p.table, "item") + 1 && InInt(v))
        || (p.line == 13 && x == "k" && v == Plain(p.table, "k") + 1)
        || (p.line == 14 && x == "k" && v == Plain(p.table, "k") % n)
      else
        || (p.line == 9 && x == "k" && v == Plain(p.table, "k") + 1)
        || (p.line == 10 && x == "k" && v == Plain(p.table, "k") % n)
    requires r.glob == g && Went(p, r.proc, p.line + 1, Ready, {x}) && !r.proc.past
    requires IsPlain(r.proc.table, x) && Plain(r.proc.table, x) == v
    ensures Simulates(p, role, g, n, r)
  {}

  lemma Overflows(p: Proc, g: Store, n: nat, r: Pair)
    requires Fit(p, B.Producer, g, n) && p.status.Ready?
    requires p.line == 4 && !InInt(Plain(p.table, "item") + 1)
    requires r.glob == g && Went(p, r.proc, p.line + 1, Wild, {"item"}) && !r.proc.past
    requires IsPlain(r.proc.table, "item") && Plain(r.proc.table, "item") == Plain(p.table, "item")
    ensures Simulates(p, B.Producer, g, n, r)
  {}

  lemma {:induction false} Loads(p: Proc, role: B.Role, g: Store, n: nat, r: Pair, x: string, from: string, i: nat)
    requires Fit(p, role, g, n) && p.status.Ready?
    requires if role.Producer? then p.line == 11 && x == "k" && from == "in" && i == 0
      else (p.line == 7 && x == "k" && from == "out" && i == 0) ||
           (p.line == 8 && x == "item" && from == "buf" && i == Plain(p.table, "k"))
    requires r.glob == Touch(g, from, i) && Went(p, r.proc, p.line + 1, Ready, {x}) && !r.proc.past
    requires IsPlain(r.proc.table, x) && Plain(r.proc.table, x) == Cell(g, from, i)
    ensures Simulates(p, role, g, n, r)
  {
    TouchCell(g, from, i);
  }

  lemma {:induction false} Stores(p: Proc, role: B.Role, g: Store, n: nat, r: Pair, to: string)
    requires Fit(p, role, g, n) && p.status.Ready?
    requires if role.Producer? then p.line == 15 && to == "in" else p.line == 11 && to == "out"
    requires r.glob == Put(g, to, 0, Plain(p.table, "k")) && Went(p, r.proc, p.line + 1, Ready, {}) && !r.proc.past
    ensures Simulates(p, role, g, n, r)
  {
    WorldPut(g, n, to, Plain(p.table, "k"));
    hide Put, Cell;
  }

  /** The store of an item into its slot. */
  lemma {:induction false} StoresItem(p: Proc, g: Store, n: nat, r: Pair)
    requires Fit(p, B.Producer, g, n) && p.status.Ready? && p.line == 12
    requires var k := Plain(p.table, "k");
      k >= 0 && r.glob == Put(g, "buf", k, Plain(p.table, "item"))
    requires Went(p, r.proc, p.line + 1, Ready, {}) && !r.proc.past
    ensures Simulates(p, B.Producer, g, n, r)
  {
    hide Put, Cell, WorldOf;
    WorldHas(g, n);
    WorldPutItem(g, n, Plain(p.table, "k"), Plain(p.table, "item"));
  }

  lemma WorldHas(g: Store, n: nat)
    ensures |WorldOf(g, n).buf| == n
  {}

  lemma {:induction false} SmallRemainder(k: int, n: int)
    requires 0 <= k <= n && 1 <= n <= INT_MAX
    ensures Compute(Mod, k, n) == Some(k % n)
  {
    if k == n { B.Quotient(k, 1, 0, n); } else { B.Quotient(k, 0, k, n); }
  }

  ghost predicate Runs(p: Proc, role: B.Role, g: Store, n: nat) {
    Fit(p, role, g, n) && p.status.Ready? && p.code == Code(role)
  }

  /** The forward scan of the first branch ends at the loop. */
  lemma {:induction false} FindLoop(code: seq<Line>, role: B.Role)
    requires code == Code(role)
    ensures Find(code, LoopLine(role) - 2, "LOOP") == Some(LoopLine(role))
  {
    var k := LoopLine(role);
    assert code[k - 2].tag == None && code[k - 1].tag == None && code[k].tag == Some("LOOP");
  }

  lemma {:induction false} ProducerStart(p: Proc, g: Store, n: nat)
    requires Runs(p, B.Producer, g, n) && p.line < 4
    ensures Simulates(p, B.Producer, g, n, Interpret(p, g))
  {
    hide Interpret, Simulates, Agree;
    var l, r := p.code[p.line], Interpret(p, g);
    match p.line
    case 0 =>
      StepSet(p, g, l, "item", Num(0));
      Counts(p, B.Producer, g, n, r, "item", 0);
    case 1 =>
      FindLoop(p.code, B.Producer);
      StepTaken(p, g, l, Eq, Var("argc"), Num(3), "LOOP", 4);
      Loops(p, B.Producer, g, n, r);
  }

  lemma {:induction false} ProducerNumbers(p: Proc, g: Store, n: nat)
    requires Runs(p, B.Producer, g, n) && p.line == 4
    ensures Simulates(p, B.Producer, g, n, Interpret(p, g))
  {
    hide Interpret, Simulates, Agree;
    var l, r, item := p.code[p.line], Interpret(p, g), Plain(p.table, "item");
    StepArith(p, g, l, Add, "item", Var("item"), Num(1));
    if InInt(item + 1) { Counts(p, B.Producer, g, n, r, "item", item + 1); }
    else { Overflows(p, g, n, r); }
  }

  lemma {:induction false} ProducerPrints(p: Proc, g: Store, n: nat)
    requires Runs(p, B.Producer, g, n) && p.line in {5, 7, 9, 17}
    ensures Simulates(p, B.Producer, g, n, Interpret(p, g))
  {
    hide Interpret, Simulates, Agree;
    var l := p.code[p.line];
    StepPrint(p, g, l, l.instr.text, l.instr.args);
    Quiet(p, B.Producer, g, n, Interpret(p, g));
  }

  lemma {:induction false} ProducerWaits(p: Proc, g: Store, n: nat)
    requires Runs(p, B.Producer, g, n) && p.line in {6, 8, 10, 16, 18, 19}
    ensures Simulates(p, B.Producer, g, n, Interpret(p, g))
  {
    hide Interpret, Simulates, Agree;
    var l, r := p.code[p.line], Interpret(p, g);
    match p.line
    case 6 =>
      StepSleep(p, g, l, Elem("argv", Num(2)));
      Naps(p, B.Producer, g, n, r);
    case 8 =>
      StepDown(p, g, l, Var("free"));
      Downs(p, B.Producer, g, n, r);
    case 10 =>
      StepDown(p, g, l, Var("mtx"));
      Downs(p, B.Producer, g, n, r);
    case 16 =>
      StepUp(p, g, l, Var("mtx"));
      Ups(p, B.Producer, g, n, r);
    case 18 =>
      StepUp(p, g, l, Var("full"));
      Ups(p, B.Producer, g, n, r);
    case 19 =>
      StepBra(p, g, l, "LOOP", 4);
      Loops(p, B.Producer, g, n, r);
  }

  lemma {:induction false} ProducerSection(p: Proc, g: Store, n: nat)
    requires Runs(p, B.Producer, g, n) && 11 <= p.line <= 15
    ensures Simulates(p, B.Producer, g, n, Interpret(p, g))
  {
    hide Interpret, Simulates, Agree;
    var l, r, k := p.code[p.line], Interpret(p, g), Plain(p.table, "k");
    match p.line
    case 11 =>
      StepLoad(p, g, l, "k", Var("in"));
      Loads(p, B.Producer, g, n, r, "k", "in", 0);
    case 12 =>
      StepStore(p, g, l, Elem("buf", Var("k")), Var("item"));
      StoresItem(p, g, n, r);
    case 13 =>
      StepArith(p, g, l, Add, "k", Var("k"), Num(1));
      Counts(p, B.Producer, g, n, r, "k", k + 1);
    case 14 =>
      StepArith(p, g, l, Mod, "k", Var("k"), Elem("argv", Num(1)));
      SmallRemainder(k, n);
      Counts(p, B.Producer, g, n, r, "k", k % n);
    case 15 =>
      StepStore(p, g, l, Var("in"), Var("k"));
      Stores(p, B.Producer, g, n, r, "in");
  }

  lemma {:induction false} ConsumerPrints(p: Proc, g: Store, n: nat)
    requires Runs(p, B.Consumer, g, n) && p.line in {3, 5, 13, 15}
    ensures Simulates(p, B.Consumer, g, n, Interpret(p, g))
  {
    hide Interpret, Simulates, Agree;
    var l := p.code[p.line];
    StepPrint(p, g, l, l.instr.text, l.instr.args);
    Quiet(p, B.Consumer, g, n, Interpret(p, g));
  }

  lemma {:induction false} ConsumerLoops(p: Proc, g: Store, n: nat)
    requires Runs(p, B.Consumer, g, n) && p.line in {0, 16, 17}
    ensures Simulates(p, B.Consumer, g, n, Interpret(p, g))
  {
    hide Interpret, Simulates, Agree;
    var l, r := p.code[p.line], Interpret(p, g);
    match p.line
    case 0 =>
      FindLoop(p.code, B.Consumer);
      StepTaken(p, g, l, Eq, Var("argc"), Num(3), "LOOP", 3);
      Loops(p, B.Consumer, g, n, r);
    case 16 =>
      StepSleep(p, g, l, Elem("argv", Num(2)));
      Naps(p, B.Consumer, g, n, r);
    case 17 =>
      StepBra(p, g, l, "LOOP", 3);
      Loops(p, B.Consumer, g, n, r);
  }

  lemma {:induction false} ConsumerWaits(p: Proc, g: Store, n: nat)
    requires Runs(p, B.Consumer, g, n) && p.line in {4, 6, 12, 14}
    ensures Simulates(p, B.Consumer, g, n, Interpret(p, g))
  {
    hide Interpret, Simulates, Agree;
    var l, r := p.code[p.line], Interpret(p, g);
    var x := if p.line == 4 then "full" else if p.line == 14 then "free" else "mtx";
    if p.line < 12 {
      StepDown(p, g, l, Var(x));
      Downs(p, B.Consumer, g, n, r);
    } else {
      StepUp(p, g, l, Var(x));
      Ups(p, B.Consumer, g, n, r);
    }
  }

  lemma {:induction false} ConsumerSection(p: Proc, g: Store, n: nat)
    requires Runs(p, B.Consumer, g, n) && 7 <= p.line <= 9
    ensures Simulates(p, B.Consumer, g, n, Interpret(p, g))
  {
    hide Interpret, Simulates, Agree;
    var l, r, k := p.code[p.line], Interpret(p, g), Plain(p.table, "k");
    match p.line
    case 7 =>
      StepLoad(p, g, l, "k", Var("out"));
      Loads(p, B.Consumer, g, n, r, "k", "out", 0);
    case 8 =>
      StepLoad(p, g, l, "item", Elem("buf", Var("k")));
      Loads(p, B.Consumer, g, n, r, "item", "buf", k);
    case 9 =>
      StepArith(p, g, l, Add, "k", Var("k"), Num(1));
      Counts(p, B.Consumer, g, n, r, "k", k + 1);
  }

  lemma {:induction false} ConsumerAdvances(p: Proc, g: Store, n: nat)
    requires Runs(p, B.Consumer, g, n) && 10 <= p.line <= 11
    ensures Simulates(p, B.Consumer, g, n, Interpret(p, g))
  {
    hide Interpret, Simulates, Agree;
    var l, r, k := p.code[p.line], Interpret(p, g), Plain(p.table, "k");
    match p.line
    case 10 =>
      StepArith(p, g, l, Mod, "k", Var("k"), Elem("argv", Num(1)));
      SmallRemainder(k, n);
      Counts(p, B.Consumer, g, n, r, "k", k % n);
    case 11 =>
      StepStore(p, g, l, Var("out"), Var("k"));
      Stores(p, B.Consumer, g, n, r, "out");
  }

  /** A visit to any participant is a move of the protocol. */
  lemma {:induction false} VisitSimulates(p: Proc, role: B.Role, g: Store, n: nat, slice: nat)
    requires Fit(p, role, g, n) && p.code == Code(role)
    ensures Simulates(p, role, g, n, Visit(p, g, slice))
  {
    match p.status
    case Ready =>
      if role.Producer? {
        if p.line < 4 { ProducerStart(p, g, n); }
        else if p.line == 4 { ProducerNumbers(p, g, n); }
        else if p.line in {5, 7, 9, 17} { ProducerPrints(p, g, n); }
        else if 11 <= p.line <= 15 { ProducerSection(p, g, n); }
        else { ProducerWaits(p, g, n); }
      } else {
        if p.line in {3, 5, 13, 15} { ConsumerPrints(p, g, n); }
        else if 7 <= p.line <= 9 { ConsumerSection(p, g, n); }
        else if 10 <= p.line <= 11 { ConsumerAdvances(p, g, n); }
        else if p.line in {0, 16, 17} { ConsumerLoops(p, g, n); }
        else { ConsumerWaits(p, g, n); }
      }
    case Blocked => Granted(p, role, g, n);
    case Sleeping =>
    case Wild =>
    case Finished =>
  }

  lemma {:induction false} Granted(p: Proc, role: B.Role, g: Store, n: nat)
    requires Fit(p, role, g, n) && p.status.Blocked?
    ensures Simulates(p, role, g, n, Grant(p, g))
  {
    WorldPut(g, n, p.sem, Cell(g, p.sem, 0) - 1);
    hide Put, Cell;
  }
}
