/** The interpreter as one step per line, and any number of programs that take such steps
    in any order over shared globals. */
module Machine {
  import opened Syntax
  import opened Locals
  import opened Globals

  datatype Status = Ready | Sleeping | Blocked | Finished | Wild

  /** One line printed by PRINT. */
  datatype Printed = Printed(text: string, values: seq<int>)

  /** A running program. `past` says that the next line is to be read from behind its
      label, where a jump leaves the file position. Wild marks a program whose next move
      C does not define. */
  datatype Proc = Proc(
    code: seq<Line>,
    line: nat,
    past: bool,
    table: Table,
    args: Args,
    status: Status,
    error: Option<Error>,
    sec: int,
    nsec: int,
    sem: string,
    semIdx: nat,
    out: seq<Printed>)

  datatype Pair = Pair(proc: Proc, glob: Store)

  const NSEC: int := 1_000_000_000
  const SLICE: int := 10_000_000

  /** A program as it is attached to a runtime. */
  function Start(code: seq<Line>, args: Args): Proc {
    Proc(code, 0, false, map[], args, Ready, None, 0, 0, "", 0, [])
  }

  function Halt(p: Proc, e: Error): Proc {
    p.(status := Finished, error := Some(e))
  }

  /** Continues `p` with the table of an effect: goes on when it succeeded, and otherwise
      leaves the program as the failing handler leaves it. */
  function After(p: Proc, e: Effect): Proc {
    match e.out
    case Ok(_) => p.(table := e.table)
    case Stop(err) => Halt(p.(table := e.table), err)
    case Refused => p.(table := e.table)
    case Undefined => p.(table := e.table, status := Wild)
  }

  /** The first line at or after `from` that carries the label. */
  function Find(code: seq<Line>, from: nat, target: string): (r: Option<nat>)
    ensures r.Some? ==> from <= r.value < |code| && code[r.value].tag == Some(target)
    ensures r.Some? ==> forall i | from <= i < r.value :: code[i].tag != Some(target)
    ensures r.None? ==> forall i | from <= i < |code| :: code[i].tag != Some(target)
    decreases |code| - from
  {
    if from >= |code| then None
    else if code[from].tag == Some(target) then Some(from)
    else Find(code, from + 1, target)
  }

  /** A last line that is a PRINT without operands runs into the end of the file. */
  predicate EndsFile(code: seq<Line>, i: nat) {
    i < |code| && i + 1 == |code| && code[i].instr.Print? && code[i].instr.args == []
  }

  /** A taken jump: through the table if the label is in it, otherwise by reading the
      following lines one by one until the label turns up. */
  function Jump(p: Proc, target: string): Proc {
    if target in p.table then
      match p.table[target]
      case Mark(l) => p.(line := l, past := true)
      case Cells(_) => Halt(p, LabelIsVariable)
    else
      match Find(p.code, p.line, target)
      case None => Halt(p, LabelUndefined)
      case Some(l) =>
        var q := p.(table := p.table[target := Mark(l)], line := l, past := true);
        if EndsFile(p.code, l) then q.(status := Finished) else q
  }

  /** Where a global operand points after its index was evaluated. */
  datatype Place = Place(after: Proc, ok: bool, name: string, idx: nat)

  function Locate(p: Proc, x: Operand): (r: Place)
  {
    match x
    case Num(_) => Place(p.(status := Wild), false, "", 0)
    case Var(n) => Place(p, true, n, 0)
    case Elem(n, ix) =>
      var e := Eval(ix, p.table, p.args);
      var q := After(p, e);
      if !e.out.Ok? then Place(q, false, "", 0)
      else if e.out.value < 0 then Place(q.(status := Wild), false, "", 0)
      else Place(q, true, n, e.out.value)
  }

  function PrintArgs(p: Proc, args: seq<Operand>, text: string, shown: seq<int>): Proc
    decreases |args|
  {
    var line := Printed(text, shown);
    if args == [] then p.(out := p.out + [line])
    else
      var e := Eval(args[0], p.table, p.args);
      if e.out.Ok? then PrintArgs(After(p, e), args[1..], text, shown + [e.out.value])
      else After(p, e).(out := p.out + [line])
  }

  /** Two operands from left to right, then a use of their values. */
  datatype Both = Both(after: Proc, ok: bool, left: int, right: int)

  function EvalBoth(p: Proc, a: Operand, b: Operand): (r: Both)
  {
    var e := Eval(a, p.table, p.args);
    if !e.out.Ok? then Both(After(p, e), false, 0, 0)
    else
      var f := Eval(b, e.table, p.args);
      if !f.out.Ok? then Both(After(p, f), false, 0, 0)
      else Both(After(p, f), true, e.out.value, f.out.value)
  }

  /** Executes one instruction; `p` already stands at the following line. */
  function Execute(p: Proc, g: Store, ins: Instr): Pair
  {
    match ins
    case Load(dst, glob) =>
      var at := Locate(p, glob);
      if !at.ok then Pair(at.after, g)
      else
        var v := Cell(g, at.name, at.idx);
        Pair(After(at.after, Assign(dst, v, at.after.table, p.args)), Touch(g, at.name, at.idx))
    case Store(glob, src) =>
      var at := Locate(p, glob);
      if !at.ok then Pair(at.after, g)
      else
        var e := Eval(src, at.after.table, p.args);
        if !e.out.Ok? then Pair(After(at.after, e), g)
        else Pair(After(at.after, e), Put(g, at.name, at.idx, e.out.value))
    case Set(dst, src) =>
      var e := Eval(src, p.table, p.args);
      if !e.out.Ok? then Pair(After(p, e), g)
      else Pair(After(p, Assign(dst, e.out.value, e.table, p.args)), g)
    case Arith(op, dst, left, right) =>
      var b := EvalBoth(p, left, right);
      if !b.ok then Pair(b.after, g)
      else
        var v := Compute(op, b.left, b.right);
        if v.None? then Pair(b.after.(status := Wild), g)
        else Pair(After(b.after, Assign(dst, v.value, b.after.table, p.args)), g)
    case Branch(rel, left, right, target) =>
      var b := EvalBoth(p, left, right);
      if !b.ok || !Holds(rel, b.left, b.right) then Pair(b.after, g)
      else Pair(Jump(b.after, target), g)
    case Bra(target) => Pair(Jump(p, target), g)
    case Down(glob) =>
      var at := Locate(p, glob);
      if !at.ok then Pair(at.after, g)
      else Pair(at.after.(status := Blocked, sem := at.name, semIdx := at.idx), Touch(g, at.name, at.idx))
    case Up(glob) =>
      var at := Locate(p, glob);
      if !at.ok then Pair(at.after, g)
      else Pair(at.after, Put(g, at.name, at.idx, Cell(g, at.name, at.idx) + 1))
    case Sleep(amount) =>
      var e := Eval(amount, p.table, p.args);
      var q := After(p, e);
      if e.out.Ok? && e.out.value > 0 then Pair(q.(status := Sleeping, sec := e.out.value, nsec := 0), g)
      else Pair(q, g)
    case Print(text, args) => Pair(PrintArgs(p, args, text, []), g)
    case Return => Pair(p.(status := Finished), g)
  }

  /** Registers the label of a line that is entered from its start. */
  function Enter(p: Proc, tag: string, l: nat): Proc {
    if tag !in p.table then p.(table := p.table[tag := Mark(l)])
    else if p.table[tag].Cells? then p.(status := Wild)
    else if p.table[tag] != Mark(l) then Halt(p, LabelRedefined)
    else p
  }

  /** The program when it has registered the label of the line it enters. */
  function Entered(p: Proc): Proc
    requires p.line < |p.code|
  {
    var l := p.code[p.line];
    if l.tag.Some? && !p.past then Enter(p, l.tag.value, p.line) else p
  }

  /** The program as the handler of its next instruction finds it. */
  function Poised(p: Proc): Proc
    requires p.line < |p.code|
  {
    Entered(p).(line := p.line + 1, past := false)
  }

  /** The program `q` that has just executed line `k`: a last line that is a PRINT without
      operands finishes it. */
  function Closed(code: seq<Line>, k: nat, q: Proc): Proc {
    if EndsFile(code, k) && q.status.Ready? then q.(status := Finished) else q
  }

  /** Interprets the next line of a ready program. */
  function Interpret(p: Proc, g: Store): Pair
  {
    if p.line >= |p.code| then Pair(p.(status := Finished), g)
    else
      var l := p.code[p.line];
      var q := if l.tag.Some? && !p.past then Enter(p, l.tag.value, p.line) else p;
      if !q.status.Ready? then Pair(q, g)
      else
        var r := Execute(q.(line := p.line + 1, past := false), g, l.instr);
        if EndsFile(p.code, p.line) && r.proc.status.Ready? then Pair(r.proc.(status := Finished), r.glob)
        else r
  }

  /** One line is entered, executed, and closed. */
  lemma {:induction false} InterpretIs(p: Proc, g: Store)
    requires p.line < |p.code|
    ensures Interpret(p, g) ==
      if !Entered(p).status.Ready? then Pair(Entered(p), g)
      else
        var r := Execute(Poised(p), g, p.code[p.line].instr);
        Pair(Closed(p.code, p.line, r.proc), r.glob)
  {
    hide Execute, Enter, EndsFile;
  }

  /** The remaining time after one visit to a sleeping program. */
  function Doze(p: Proc, slice: int): Proc {
    var diff := p.nsec - slice;
    if diff >= 0 then p.(nsec := diff)
    else if p.sec == 0 then p.(status := Ready)
    else p.(sec := p.sec - 1, nsec := diff + NSEC)
  }

  /** A visit to a blocked program: takes a unit if there is one. */
  function Grant(p: Proc, g: Store): Pair {
    var c := Cell(g, p.sem, p.semIdx);
    if c > 0 then Pair(p.(status := Ready), Put(g, p.sem, p.semIdx, c - 1))
    else Pair(p, g)
  }

  function Visit(p: Proc, g: Store, slice: int): Pair
  {
    match p.status
    case Ready => Interpret(p, g)
    case Sleeping => Pair(Doze(p, slice), g)
    case Blocked => Grant(p, g)
    case Finished => Pair(p, g)
    case Wild => Pair(p, g)
  }

  /** Programs over shared globals, and a schedule: whose turn it is and how long the
      slice is. Every order of turns is allowed. */
  datatype Sys = Sys(glob: Store, procs: seq<Proc>)

  datatype Turn = Turn(who: nat, slice: nat)

  function Next(s: Sys, t: Turn): (r: Sys)
    ensures |r.procs| == |s.procs|
  {
    if t.who >= |s.procs| then s
    else
      var r := Visit(s.procs[t.who], s.glob, t.slice);
      Sys(r.glob, s.procs[t.who := r.proc])
  }

  function Run(s: Sys, turns: seq<Turn>): (r: Sys)
    ensures |r.procs| == |s.procs|
  {
    if turns == [] then s
    else Next(Run(s, turns[..|turns| - 1]), turns[|turns| - 1])
  }

  /** A run can be cut anywhere. */
  lemma {:induction false} RunSplit(s: Sys, a: seq<Turn>, b: seq<Turn>)
    ensures Run(s, a + b) == Run(Run(s, a), b)
    decreases |b|
  {
    hide Next;
    if b == [] {
      assert a + b == a;
    } else {
      RunSplit(s, a, b[..|b| - 1]);
      assert (a + b)[..|a + b| - 1] == a + b[..|b| - 1];
    }
  }

  /** How many turns program `who` gets. */
  function TurnsOf(turns: seq<Turn>, who: nat): nat {
    if turns == [] then 0
    else TurnsOf(turns[..|turns| - 1], who) + if turns[|turns| - 1].who == who then 1 else 0
  }
}
