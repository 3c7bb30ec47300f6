/** What each instruction does, for all operands: the order in which they are read, what becomes
    of their values, and what happens when one of them cannot be read. */
module Meaning {
  import opened Syntax
  import opened Locals
  import opened Globals
  import opened Machine
  import LocalView

  /** Ready for an instruction, the label of whose line is no obstacle. */
  predicate Faces(p: Proc, i: Instr) {
    p.status.Ready? && p.line < |p.code| && p.code[p.line].instr == i && Entered(p).status.Ready?
  }

  /** The variables when the instruction begins. */
  function Before(p: Proc): Table
    requires p.line < |p.code|
  {
    Entered(p).table
  }

  // ----- reading -----

  /** The index of a global, if it has one. */
  function IndexOf(glob: Operand): seq<Operand> {
    if glob.Elem? then [glob.index] else []
  }

  /** What an instruction reads, in this order. */
  function Sources(i: Instr): seq<Operand> {
    match i
    case Load(_, glob) => IndexOf(glob)
    case Store(glob, src) => IndexOf(glob) + [src]
    case Set(_, src) => [src]
    case Arith(_, _, left, right) => [left, right]
    case Branch(_, left, right, _) => [left, right]
    case Bra(_) => []
    case Down(glob) => IndexOf(glob)
    case Up(glob) => IndexOf(glob)
    case Sleep(amount) => [amount]
    case Print(_, args) => args
    case Return => []
  }

  /** Reading the operands one after the other gives these values, and leaves table `u`. */
  predicate Values(xs: seq<Operand>, vs: seq<int>, t: Table, u: Table, a: Args) {
    if xs == [] then vs == [] && u == t
    else
      var e := Eval(xs[0], t, a);
      vs != [] && e.out == Ok(vs[0]) && Values(xs[1..], vs[1..], e.table, u, a)
  }

  lemma {:induction false} ValuesOne(x: Operand, vs: seq<int>, t: Table, u: Table, a: Args)
    ensures Values([x], vs, t, u, a) <==> |vs| == 1 && Eval(x, t, a) == Effect(Ok(vs[0]), u)
  {
    assert [x][1..] == [];
    if |vs| == 1 { assert vs[1..] == []; }
    hide Eval;
  }

  lemma {:induction false} ValuesTwo(x: Operand, y: Operand, vs: seq<int>, t: Table, u: Table, a: Args)
    ensures Values([x, y], vs, t, u, a) <==>
      && |vs| == 2 && Eval(x, t, a).out == Ok(vs[0])
      && Eval(y, Eval(x, t, a).table, a) == Effect(Ok(vs[1]), u)
  {
    hide Eval;
    assert [x, y][1..] == [y];
    if vs != [] { ValuesOne(y, vs[1..], Eval(x, t, a).table, u, a); }
  }

  lemma ValuesNone(t: Table, u: Table, a: Args)
    ensures Values([], [], t, u, a) <==> u == t
  {}

  predicate UsesGlobal(i: Instr) {
    i.Load? || i.Store? || i.Down? || i.Up?
  }

  function GlobalOf(i: Instr): Operand
    requires UsesGlobal(i)
  {
    match i
    case Load(_, x) => x
    case Store(x, _) => x
    case Down(x) => x
    case Up(x) => x
  }

  /** The cell of a global, when its index has been read. */
  predicate Addresses(glob: Operand, vs: seq<int>, n: string, k: nat) {
    match glob
    case Num(_) => false
    case Var(m) => m == n && k == 0
    case Elem(m, _) => m == n && vs != [] && vs[0] == k
  }

  // ----- failing -----

  /** The program has stopped as a failed operand stops it. */
  predicate StoppedBy(p: Proc, q: Proc, out: Outcome) {
    match out
    case Ok(_) => false
    case Stop(e) => q.status == Finished && q.error == Some(e)
    case Refused => q.status == Ready && q.error == p.error
    case Undefined => q.status == Wild && q.error == p.error
  }

  /** The line of the program afterwards, and what no instruction touches. */
  predicate Stands(p: Proc, q: Proc) {
    q.code == p.code && q.args == p.args && q.line == p.line + 1 && !q.past
  }

  /** The instruction fails at the operand number `|vs|`. */
  predicate FailsAt(i: Instr, vs: seq<int>, t: Table, u: Table, a: Args) {
    && |vs| < |Sources(i)| && Values(Sources(i)[..|vs|], vs, t, u, a)
    && !Eval(Sources(i)[|vs|], u, a).out.Ok?
  }

  lemma {:induction false} FailsFirst(i: Instr, vs: seq<int>, t: Table, u: Table, a: Args)
    requires FailsAt(i, vs, t, u, a) && |vs| <= 1
    ensures |vs| == 0 ==> u == t
    ensures |vs| == 1 ==> Eval(Sources(i)[0], t, a) == Effect(Ok(vs[0]), u)
  {
    hide Eval, Sources;
    if |vs| == 0 {
      assert Sources(i)[..0] == [];
    } else {
      assert Sources(i)[..1] == [Sources(i)[0]];
      ValuesOne(Sources(i)[0], vs, t, u, a);
    }
  }

  /** The handler of the instruction gives up there. */
  lemma {:induction false} GlobalFails(p: Proc, g: Store, i: Instr, vs: seq<int>, u: Table)
    requires FailsAt(i, vs, p.table, u, p.args) && UsesGlobal(i) && !GlobalOf(i).Num?
    requires i.Store? && vs != [] ==> vs[0] >= 0
    ensures Execute(p, g, i) == Pair(After(p, Eval(Sources(i)[|vs|], u, p.args)), g)
  {
    FailsFirst(i, vs, p.table, u, p.args);
    hide Eval, Values;
  }

  lemma {:induction false} LocalFails(p: Proc, g: Store, i: Instr, vs: seq<int>, u: Table)
    requires FailsAt(i, vs, p.table, u, p.args) && !UsesGlobal(i) && !i.Print?
    ensures Execute(p, g, i) == Pair(After(p, Eval(Sources(i)[|vs|], u, p.args)), g)
  {
    FailsFirst(i, vs, p.table, u, p.args);
    hide Eval, Values;
  }

  /** The first operand that cannot be read stops the program, for its own reason. Nothing else
      is done, except that a PRINT shows the values that it has. */
  lemma {:induction false} FirstFailureStops(p: Proc, g: Store, i: Instr, vs: seq<int>, u: Table)
    requires Faces(p, i) && (UsesGlobal(i) ==> !GlobalOf(i).Num?) && FailsAt(i, vs, Before(p), u, p.args)
    requires i.Store? && vs != [] ==> vs[0] >= 0
    ensures var r, e := Interpret(p, g), Eval(Sources(i)[|vs|], u, p.args);
      && r.glob == g && r.proc.table == e.table && StoppedBy(p, r.proc, e.out) && Stands(p, r.proc)
      && r.proc.out == p.out + if i.Print? then [Printed(i.text, vs)] else []
  {
    hide Execute, Interpret, Eval, Values, Entered, Sources, UsesGlobal, Poised, After;
    InterpretIs(p, g);
    PoisedIs(p);
    ExecuteFails(Poised(p), g, i, vs, u);
    NeverRefused(Sources(i)[|vs|], u, p.args);
    AfterStops(Poised(p), Eval(Sources(i)[|vs|], u, p.args));
  }

  lemma AfterStops(p: Proc, e: Effect)
    requires !e.out.Ok? && !e.out.Refused? && p.status.Ready?
    ensures After(p, e) == p.(table := e.table, status := After(p, e).status, error := After(p, e).error)
    ensures StoppedBy(p, After(p, e), e.out) && !After(p, e).status.Ready?
  {}

  /** Whatever the instruction. */
  lemma {:induction false} ExecuteFails(p: Proc, g: Store, i: Instr, vs: seq<int>, u: Table)
    requires FailsAt(i, vs, p.table, u, p.args) && (UsesGlobal(i) ==> !GlobalOf(i).Num?)
    requires i.Store? && vs != [] ==> vs[0] >= 0
    ensures Execute(p, g, i) ==
      Pair(
        After(p, Eval(Sources(i)[|vs|], u, p.args)).(out := p.out + if i.Print? then [Printed(i.text, vs)] else []),
        g)
  {
    hide Execute, Eval, Values;
    if i.Print? {
      PrintExecutes(p, g, i, vs, u);
    } else {
      assert p.out + [] == p.out;
      AfterShowsNothing(p, Eval(Sources(i)[|vs|], u, p.args));
      if UsesGlobal(i) { GlobalFails(p, g, i, vs, u); } else { LocalFails(p, g, i, vs, u); }
    }
  }

  lemma AfterShowsNothing(p: Proc, e: Effect)
    ensures After(p, e).(out := p.out) == After(p, e)
  {}

  lemma {:induction false} PrintExecutes(p: Proc, g: Store, i: Instr, vs: seq<int>, u: Table)
    requires FailsAt(i, vs, p.table, u, p.args) && i.Print?
    ensures Execute(p, g, i) ==
      Pair(After(p, Eval(i.args[|vs|], u, p.args)).(out := p.out + [Printed(i.text, vs)]), g)
  {
    PrintFails(p, i.args, i.text, [], vs, u);
    assert [] + vs == vs;
    hide PrintArgs, Eval;
  }

  lemma NeverRefused(x: Operand, t: Table, a: Args)
    ensures !Eval(x, t, a).out.Refused?
  {}

  lemma {:induction false} PrintFails(p: Proc, xs: seq<Operand>, text: string, shown: seq<int>, vs: seq<int>, u: Table)
    requires |vs| < |xs| && Values(xs[..|vs|], vs, p.table, u, p.args) && !Eval(xs[|vs|], u, p.args).out.Ok?
    ensures PrintArgs(p, xs, text, shown) ==
      After(p, Eval(xs[|vs|], u, p.args)).(out := p.out + [Printed(text, shown + vs)])
    decreases |xs|
  {
    if vs == [] {
      assert shown + vs == shown;
    } else {
      assert xs[..|vs|][1..] == xs[1..][..|vs| - 1];
      PrintFails(After(p, Eval(xs[0], p.table, p.args)), xs[1..], text, shown + [vs[0]], vs[1..], u);
      assert shown + [vs[0]] + vs[1..] == shown + vs;
    }
  }

  /** A negative index of a global is undefined in C. */
  lemma {:induction false} NegativeGlobal(p: Proc, g: Store, i: Instr, k: int)
    requires Faces(p, i) && UsesGlobal(i) && GlobalOf(i).Elem?
    requires Eval(GlobalOf(i).index, Before(p), p.args).out == Ok(k) && k < 0
    ensures Interpret(p, g).glob == g && Interpret(p, g).proc.status == Wild && Interpret(p, g).proc.out == p.out
  {
    InterpretIs(p, g);
  }

  // ----- assigning -----

  /** A value goes to a local variable, or the program stops because it cannot. */
  ghost predicate Assigned(p: Proc, q: Proc, dst: Operand, v: int, u: Table) {
    var e := Assign(dst, v, u, p.args);
    && q.table == e.table && q.out == p.out && Stands(p, q)
    && (if e.out.Ok? then q.status == Ready && q.error == p.error && Holding(q.table, dst, v, u, p.args)
        else StoppedBy(p, q, e.out))
  }

  /** The variable has the value. */
  ghost predicate Holding(t: Table, dst: Operand, v: int, u: Table, a: Args) {
    !dst.Num? && LocalView.Cell(t, LocalView.Target(dst, u, a).0, LocalView.Target(dst, u, a).1) == v
  }

  lemma {:induction false} AfterAssigns(p: Proc, q: Proc, dst: Operand, v: int)
    requires q.code == p.code && q.args == p.args && q.line == p.line + 1 && !q.past && q.out == p.out
    requires q.status == Ready && q.error == p.error
    ensures Assigned(p, After(q, Assign(dst, v, q.table, p.args)), dst, v, q.table)
  {
    if Assign(dst, v, q.table, p.args).out.Ok? {
      LocalView.WriteEffect(dst, v, q.table, p.args);
      hide Assign;
      LocalView.AssignStep(dst, v, q.table, p.args);
    }
  }

  /** When the instruction begins, only the label of its line may have been added. */
  lemma PoisedIs(p: Proc)
    requires p.status.Ready? && p.line < |p.code| && Entered(p).status.Ready?
    ensures Poised(p) == p.(table := Before(p), line := p.line + 1, past := false)
  {}

  lemma {:induction false} SetMeans(p: Proc, g: Store, dst: Operand, src: Operand, v: int, u: Table)
    requires Faces(p, Set(dst, src)) && Values([src], [v], Before(p), u, p.args)
    ensures var r := Interpret(p, g);
      r.glob == g && Assigned(p, r.proc, dst, v, u)
  {
    InterpretIs(p, g);
    PoisedIs(p);
    AfterAssigns(p, Poised(p).(table := u), dst, v);
    hide Assigned, Assign, Eval;
  }

  /** Two operands that have values. */
  lemma {:induction false} BothValues(p: Proc, x: Operand, y: Operand, a: int, b: int, u: Table)
    requires Values([x, y], [a, b], p.table, u, p.args)
    ensures EvalBoth(p, x, y) == Both(p.(table := u), true, a, b)
  {
    ValuesTwo(x, y, [a, b], p.table, u, p.args);
    hide Eval, Values;
  }

  /** The five operations, on the values of both operands. The result is assigned if it is an
      int; otherwise, and for a divisor of 0, C leaves the behaviour open. A quotient and its
      remainder are those that belong together and truncate toward zero. */
  lemma {:induction false} ArithMeans(p: Proc, g: Store, op: ArithOp, dst: Operand, x: Operand, y: Operand, a: int,
      b: int, u: Table)
    requires Faces(p, Arith(op, dst, x, y)) && Values([x, y], [a, b], Before(p), u, p.args)
    ensures Interpret(p, g).glob == g
    ensures op == Add ==> Results(p, g, dst, a + b, u)
    ensures op == Sub ==> Results(p, g, dst, a - b, u)
    ensures op == Mul ==> Results(p, g, dst, a * b, u)
    ensures (op == Div || op == Mod) && b == 0 ==> Interpret(p, g).proc.status == Wild
    ensures op == Div && b != 0 ==> forall q, r | Truncates(a, b, q, r) :: Results(p, g, dst, q, u)
    ensures op == Mod && b != 0 ==> forall q, r | Truncates(a, b, q, r) ::
      if IsInt(q) then Results(p, g, dst, r, u) else Interpret(p, g).proc.status == Wild
  {
    hide Execute, Interpret, Values, Eval, Compute, Truncates, Assign, Entered;
    InterpretIs(p, g);
    PoisedIs(p);
    ArithExecutes(Poised(p), g, op, dst, x, y, a, b, u);
    ComputeIs(op, a, b);
    var v := Compute(op, a, b);
    if v.Some? { AfterAssigns(p, Poised(p).(table := u), dst, v.value); }
    hide Assigned, After;
  }

  lemma {:induction false} ArithExecutes(p: Proc, g: Store, op: ArithOp, dst: Operand, x: Operand, y: Operand, a: int,
      b: int, u: Table)
    requires Values([x, y], [a, b], p.table, u, p.args)
    ensures var q, v := p.(table := u), Compute(op, a, b);
      Execute(p, g, Arith(op, dst, x, y)) ==
      Pair(if v.Some? then After(q, Assign(dst, v.value, u, p.args)) else q.(status := Wild), g)
  {
    BothValues(p, x, y, a, b, u);
    hide Values, Eval, EvalBoth, Compute, Assign;
  }

  /** An `int` has 32 bits. */
  predicate IsInt(v: int) {
    -2147483648 <= v <= 2147483647
  }

  /** The result of an operation, if it is an int. */
  ghost predicate Results(p: Proc, g: Store, dst: Operand, v: int, u: Table) {
    if IsInt(v) then Assigned(p, Interpret(p, g).proc, dst, v, u) else Interpret(p, g).proc.status == Wild
  }

  lemma {:induction false} ComputeIs(op: ArithOp, a: int, b: int)
    ensures var v := Compute(op, a, b);
      && (op == Add ==> v == if InInt(a + b) then Some(a + b) else None)
      && (op == Sub ==> v == if InInt(a - b) then Some(a - b) else None)
      && (op == Mul ==> v == if InInt(a * b) then Some(a * b) else None)
      && ((op == Div || op == Mod) && b == 0 ==> v == None)
      && (op == Div && b != 0 ==> forall q, r | Truncates(a, b, q, r) :: v == if InInt(q) then Some(q) else None)
      && (op == Mod && b != 0 ==> forall q, r | Truncates(a, b, q, r) ::
            v == if InInt(q) && InInt(r) then Some(r) else None)
  {
    if b != 0 {
      forall q, r | Truncates(a, b, q, r) ensures q == TruncDiv(a, b) && r == TruncMod(a, b) {
        TruncatesTowardZero(a, b, q, r);
      }
      hide TruncDiv, TruncMod, Truncates;
    }
  }

  // ----- branching -----

  /** The first line behind line `k` that carries the label. */
  predicate NextWith(code: seq<Line>, k: nat, target: string, l: nat) {
    k < l < |code| && code[l].tag == Some(target) && forall j | k < j < l :: code[j].tag != Some(target)
  }

  predicate NoneWith(code: seq<Line>, k: nat, target: string) {
    forall j | k < j < |code| :: code[j].tag != Some(target)
  }

  /** The program jumps from where its variables are `u`: behind the label where it is known, or
      else to the next line that carries it. */
  predicate Jumps(p: Proc, q: Proc, target: string, u: Table) {
    && q.code == p.code && q.args == p.args && q.out == p.out
    && if target in u then
         q.table == u &&
         match u[target]
         case Mark(l) => q.line == l && q.past && q.status == Ready && q.error == p.error
         case Cells(_) => q.status == Finished && q.error == Some(LabelIsVariable)
       else if NoneWith(p.code, p.line, target) then
         q.table == u && q.status == Finished && q.error == Some(LabelUndefined)
       else
         && NextWith(p.code, p.line, target, q.line) && q.past && q.table == u[target := Mark(q.line)]
         && q.error == p.error && q.status == if LastIsBare(p.code, q.line) then Finished else Ready
  }

  /** The last line is a PRINT without operands. */
  predicate LastIsBare(code: seq<Line>, l: nat) {
    l + 1 == |code| && code[l].instr.Print? && code[l].instr.args == []
  }

  /** The program goes on with the next line. */
  predicate GoesOn(p: Proc, q: Proc, u: Table) {
    Stands(p, q) && q.table == u && q.status == Ready && q.error == p.error && q.out == p.out
  }

  lemma {:induction false} JumpIs(p: Proc, q: Proc, target: string)
    requires q.code == p.code && q.args == p.args && q.line == p.line + 1 && !q.past && q.out == p.out
    requires q.status == Ready && q.error == p.error
    ensures Jumps(p, Jump(q, target), target, q.table)
  {
    if target !in q.table {
      var l := Find(p.code, q.line, target);
      hide Find;
      assert l.None? ==> NoneWith(p.code, p.line, target);
      assert l.Some? ==> p.code[l.value].tag == Some(target);
    }
  }

  /** Is a branch taken when its operands differ by `d`? */
  predicate Taken(rel: Relation, d: int) {
    match rel
    case Gt => d > 0
    case Ge => d > -1
    case Lt => d < 0
    case Le => d < 1
    case Eq => -1 < d < 1
  }

  /** A branch jumps exactly on the right sign of the difference of its operands, and goes on
      with the next line otherwise. */
  lemma {:induction false} BranchMeans(p: Proc, g: Store, rel: Relation, x: Operand, y: Operand, target: string,
      a: int, b: int, u: Table)
    requires Faces(p, Branch(rel, x, y, target)) && Values([x, y], [a, b], Before(p), u, p.args)
    ensures var r := Interpret(p, g);
      && r.glob == g
      && (if Taken(rel, a - b) then Jumps(p, r.proc, target, u) else GoesOn(p, r.proc, u))
  {
    hide Execute, Interpret, Values, Eval, Entered, Jump;
    InterpretIs(p, g);
    PoisedIs(p);
    BranchExecutes(Poised(p), g, rel, x, y, target, a, b, u);
    JumpIs(p, Poised(p).(table := u), target);
    hide Jumps;
  }

  lemma {:induction false} BranchExecutes(p: Proc, g: Store, rel: Relation, x: Operand, y: Operand, target: string,
      a: int, b: int, u: Table)
    requires Values([x, y], [a, b], p.table, u, p.args)
    ensures Execute(p, g, Branch(rel, x, y, target)) ==
      Pair(if Taken(rel, a - b) then Jump(p.(table := u), target) else p.(table := u), g)
  {
    BothValues(p, x, y, a, b, u);
    hide Values, Eval, EvalBoth, Jump;
  }

  /** On the same operands, of BRLE and BRGT exactly one jumps, and of BRLT and BRGE; and BREQ
      jumps exactly where BRLE and BRGE both do. */
  lemma BranchesComplement(d: int)
    ensures Taken(Le, d) <==> !Taken(Gt, d)
    ensures Taken(Lt, d) <==> !Taken(Ge, d)
    ensures Taken(Eq, d) <==> Taken(Le, d) && Taken(Ge, d)
    ensures Taken(Gt, d) <==> Taken(Lt, -d)
  {}

  lemma {:induction false} BraMeans(p: Proc, g: Store, target: string)
    requires Faces(p, Bra(target))
    ensures Interpret(p, g).glob == g && Jumps(p, Interpret(p, g).proc, target, Before(p))
  {
    hide Entered, Jump;
    InterpretIs(p, g);
    PoisedIs(p);
    JumpIs(p, Poised(p), target);
    hide Interpret, Jumps;
  }

  // ----- globals -----

  /** The globals are the same, but for one cell. */
  ghost predicate Changed(g: Store, h: Store, n: string, k: nat, v: int) {
    forall m, j: nat :: Cell(h, m, j) == if m == n && j == k then v else Cell(g, m, j)
  }

  ghost predicate Same(g: Store, h: Store) {
    forall m, j: nat :: Cell(h, m, j) == Cell(g, m, j)
  }

  /** The index of the global has been read. */
  lemma {:induction false} LocatedAt(p: Proc, glob: Operand, vs: seq<int>, u: Table, n: string, k: nat)
    requires Values(IndexOf(glob), vs, p.table, u, p.args) && Addresses(glob, vs, n, k)
    ensures Locate(p, glob) == Place(p.(table := u), true, n, k)
  {
    if glob.Elem? { ValuesOne(glob.index, vs, p.table, u, p.args); } else { assert vs == []; }
    hide Eval;
  }

  /** LOAD copies the cell into a local variable; no global changes. */
  lemma {:induction false} LoadMeans(p: Proc, g: Store, dst: Operand, glob: Operand, vs: seq<int>, u: Table, n: string,
      k: nat)
    requires Faces(p, Load(dst, glob)) && Values(IndexOf(glob), vs, Before(p), u, p.args)
    requires Addresses(glob, vs, n, k)
    ensures var r := Interpret(p, g);
      Same(g, r.glob) && Assigned(p, r.proc, dst, Cell(g, n, k), u)
  {
    hide Values, Eval, Entered, Assign, Assigned, Touch, Cell, Locate;
    InterpretIs(p, g);
    PoisedIs(p);
    LocatedAt(Poised(p), glob, vs, u, n, k);
    AfterAssigns(p, Poised(p).(table := u), dst, Cell(g, n, k));
    TouchCell(g, n, k);
    hide Interpret;
  }

  /** STORE reads the index first, then the value; the cell has it, and no other changes. */
  lemma {:induction false} StoreMeans(p: Proc, g: Store, glob: Operand, src: Operand, vs: seq<int>, t: Table, v: int,
      u: Table, n: string, k: nat)
    requires Faces(p, Store(glob, src)) && Values(IndexOf(glob), vs, Before(p), t, p.args)
    requires Addresses(glob, vs, n, k) && Values([src], [v], t, u, p.args)
    ensures var r := Interpret(p, g);
      Changed(g, r.glob, n, k, v) && GoesOn(p, r.proc, u)
  {
    ValuesOne(src, [v], t, u, p.args);
    hide Values, Eval, Entered, Put, Cell, Locate;
    InterpretIs(p, g);
    PoisedIs(p);
    LocatedAt(Poised(p), glob, vs, t, n, k);
    PutCell(g, n, k, v);
    hide Interpret;
  }

  /** UP adds 1 to the cell. */
  lemma {:induction false} UpMeans(p: Proc, g: Store, glob: Operand, vs: seq<int>, u: Table, n: string, k: nat)
    requires Faces(p, Up(glob)) && Values(IndexOf(glob), vs, Before(p), u, p.args) && Addresses(glob, vs, n, k)
    ensures var r := Interpret(p, g);
      Changed(g, r.glob, n, k, Cell(g, n, k) + 1) && GoesOn(p, r.proc, u)
  {
    hide Values, Eval, Entered, Put, Cell, Locate;
    InterpretIs(p, g);
    PoisedIs(p);
    LocatedAt(Poised(p), glob, vs, u, n, k);
    PutCell(g, n, k, Cell(g, n, k) + 1);
    hide Interpret;
  }

  /** DOWN parks the program at the cell, whatever is in it. */
  lemma {:induction false} DownMeans(p: Proc, g: Store, glob: Operand, vs: seq<int>, u: Table, n: string, k: nat)
    requires Faces(p, Down(glob)) && Values(IndexOf(glob), vs, Before(p), u, p.args) && Addresses(glob, vs, n, k)
    ensures var r := Interpret(p, g);
      && Same(g, r.glob) && Stands(p, r.proc) && r.proc.table == u && r.proc.out == p.out && r.proc.error == p.error
      && r.proc.status == Blocked && r.proc.sem == n && r.proc.semIdx == k
  {
    hide Values, Eval, Entered, Touch, Cell, Locate;
    InterpretIs(p, g);
    PoisedIs(p);
    LocatedAt(Poised(p), glob, vs, u, n, k);
    TouchCell(g, n, k);
    hide Interpret;
  }

  /** A visit to the parked program takes 1 from the cell if there is something in it, and lets
      the program go on; otherwise it waits. */
  lemma {:induction false} GrantMeans(p: Proc, g: Store, slice: int)
    requires p.status.Blocked?
    ensures var r, c := Visit(p, g, slice), Cell(g, p.sem, p.semIdx);
      if c >= 1 then Changed(g, r.glob, p.sem, p.semIdx, c - 1) && r.proc == p.(status := Ready)
      else r == Pair(p, g)
  {
    PutCell(g, p.sem, p.semIdx, Cell(g, p.sem, p.semIdx) - 1);
    hide Put, Cell;
  }

  // ----- the others -----

  /** SLEEP asks for that many seconds, if they are more than 0. */
  lemma {:induction false} SleepMeans(p: Proc, g: Store, amount: Operand, d: int, u: Table)
    requires Faces(p, Sleep(amount)) && Values([amount], [d], Before(p), u, p.args)
    ensures var r := Interpret(p, g);
      && r.glob == g
      && if d <= 0 then GoesOn(p, r.proc, u)
         else
           && Stands(p, r.proc) && r.proc.table == u && r.proc.out == p.out && r.proc.error == p.error
           && r.proc.status == Sleeping && r.proc.sec * 1_000_000_000 + r.proc.nsec == d * 1_000_000_000
  {
    ValuesOne(amount, [d], Before(p), u, p.args);
    hide Values, Eval, Entered;
    InterpretIs(p, g);
    PoisedIs(p);
    hide Interpret;
  }

  /** PRINT shows its text and all values. A last line without operands ends the program. */
  lemma {:induction false} PrintMeans(p: Proc, g: Store, text: string, args: seq<Operand>, vs: seq<int>, u: Table)
    requires Faces(p, Print(text, args)) && Values(args, vs, Before(p), u, p.args)
    ensures var r := Interpret(p, g);
      && r.glob == g && Stands(p, r.proc) && r.proc.table == u && r.proc.error == p.error
      && r.proc.out == p.out + [Printed(text, vs)]
      && r.proc.status == if args == [] && p.line + 1 == |p.code| then Finished else Ready
  {
    hide Values, Eval, Entered, PrintArgs;
    InterpretIs(p, g);
    PoisedIs(p);
    PrintsAll(Poised(p), args, text, [], vs, u);
    assert [] + vs == vs;
    hide Interpret;
  }

  lemma {:induction false} PrintsAll(p: Proc, xs: seq<Operand>, text: string, shown: seq<int>, vs: seq<int>, u: Table)
    requires Values(xs, vs, p.table, u, p.args)
    ensures PrintArgs(p, xs, text, shown) == p.(table := u, out := p.out + [Printed(text, shown + vs)])
    decreases |xs|
  {
    if xs == [] {
      assert shown + vs == shown;
    } else {
      PrintsAll(After(p, Eval(xs[0], p.table, p.args)), xs[1..], text, shown + [vs[0]], vs[1..], u);
      assert shown + [vs[0]] + vs[1..] == shown + vs;
    }
  }

  lemma {:induction false} ReturnMeans(p: Proc, g: Store)
    requires Faces(p, Return)
    ensures var r := Interpret(p, g);
      r == Pair(p.(table := Before(p), line := p.line + 1, past := false, status := Finished), g)
  {
    hide Entered;
    InterpretIs(p, g);
    PoisedIs(p);
    hide Interpret;
  }

  // ----- labels -----

  /** A line that is entered from its start registers its label. A label that stands on two lines
      stops the program on the second; a label with the name of a variable is undefined in C. */
  lemma LabelMeans(p: Proc, g: Store, tag: string)
    requires p.status.Ready? && p.line < |p.code| && p.code[p.line].tag == Some(tag) && !p.past
    ensures var i, q := p.code[p.line].instr, Interpret(p, g);
      if tag !in p.table then Faces(p, i) && Before(p) == p.table[tag := Mark(p.line)]
      else
        match p.table[tag]
        case Cells(_) => q == Pair(p.(status := Wild), g)
        case Mark(l) =>
          if l == p.line then Faces(p, i) && Before(p) == p.table
          else q == Pair(p.(status := Finished, error := Some(LabelRedefined)), g)
  {}

  /** Lines without a label, and lines entered from behind it, register nothing. */
  lemma UnlabelledMeans(p: Proc)
    requires p.status.Ready? && p.line < |p.code| && (p.code[p.line].tag == None || p.past)
    ensures Faces(p, p.code[p.line].instr) && Before(p) == p.table
  {}

  /** Behind the last line a program ends. */
  lemma EndMeans(p: Proc, g: Store)
    requires p.status.Ready? && p.line >= |p.code|
    ensures Interpret(p, g) == Pair(p.(status := Finished), g)
  {}
}
