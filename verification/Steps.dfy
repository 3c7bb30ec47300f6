/** What one line does when its operands are numbers, arguments or plain variables. These
    are the only operands the shipped programs use. */
module Steps {
  import opened Syntax
  import opened Locals
  import opened Globals
  import opened Machine

  /** A variable that never served as an array. */
  predicate IsPlain(t: Table, n: string) {
    n in t ==> t[n].Cells? && |t[n].cells| == 1
  }

  function Plain(t: Table, n: string): int {
    if n in t && t[n].Cells? then t[n].cells[0] else 0
  }

  /** Label names begin with an L. The lemmas here are about operands that do not. */
  predicate LabelLike(n: string) {
    n != "" && n[0] == 'L'
  }

  /** `u` shows the same plain values and the same labels as `t`, apart from `but`. */
  ghost predicate Agree(t: Table, u: Table, but: set<string>) {
    forall n | n !in but ::
      && (n in t ==> n in u)
      && (IsPlain(t, n) ==> IsPlain(u, n) && Plain(u, n) == Plain(t, n))
      && (n in t && t[n].Mark? ==> u[n] == t[n])
      && (n in u && LabelLike(n) ==> n in t)
  }

  predicate Simple(x: Operand, t: Table, a: Args) {
    match x
    case Num(_) => true
    case Var(n) => !LabelLike(n) && (n == "argc" || IsPlain(t, n))
    case Elem(n, ix) => n == "argv" && ix.Num? && 0 <= ix.value < |a.args|
  }

  function Value(x: Operand, t: Table, a: Args): int
    requires Simple(x, t, a)
  {
    match x
    case Num(v) => v
    case Var(n) => if n == "argc" then |a.args| else Plain(t, n)
    case Elem(_, ix) => a.args[ix.value]
  }

  lemma EvalSimple(x: Operand, t: Table, a: Args)
    requires Simple(x, t, a)
    ensures var e := Eval(x, t, a);
      && e.out == Ok(Value(x, t, a)) && Agree(t, e.table, {})
  {}

  lemma AssignPlain(n: string, v: int, t: Table, a: Args)
    requires n != "argc" && IsPlain(t, n)
    ensures var e := Assign(Var(n), v, t, a);
      e.out == Ok(v) && Agree(t, e.table, {n}) && IsPlain(e.table, n) && Plain(e.table, n) == v
  {}

  /** Ready to execute the instruction of line `l`, whose label needs no registration. */
  predicate At(p: Proc, l: Line) {
    && p.status.Ready?
    && p.line < |p.code| && p.code[p.line] == l
    && (l.tag.Some? && !p.past ==> l.tag.value in p.table && p.table[l.tag.value] == Mark(p.line))
  }

  /** `q` is `p` after a line that changed the variables in `but` at most. */
  ghost predicate Went(p: Proc, q: Proc, line: nat, status: Status, but: set<string>) {
    && q.code == p.code && q.args == p.args && q.error == p.error
    && q.line == line && q.status == status
    && Agree(p.table, q.table, but)
  }

  lemma {:induction false} PrintSimple(p: Proc, args: seq<Operand>, text: string, shown: seq<int>)
    requires forall x | x in args :: Simple(x, p.table, p.args)
    ensures var q := PrintArgs(p, args, text, shown);
      && q == p.(table := q.table, out := q.out)
      && Agree(p.table, q.table, {})
      && |q.out| == |p.out| + 1 && q.out[..|p.out|] == p.out
      && |q.out[|p.out|].values| == |shown| + |args|
      && q.out[|p.out|].values[..|shown|] == shown
      && q.out[|p.out|].text == text
      && forall i | 0 <= i < |args| :: q.out[|p.out|].values[|shown| + i] == Value(args[i], p.table, p.args)
    decreases |args|
  {
    if args != [] {
      EvalSimple(args[0], p.table, p.args);
      var e := Eval(args[0], p.table, p.args);
      forall x | x in args[1..]
        ensures Simple(x, e.table, p.args) && Value(x, e.table, p.args) == Value(x, p.table, p.args)
      {
        assert x in args;
      }
      PrintSimple(After(p, e), args[1..], text, shown + [e.out.value]);
    }
  }

  lemma {:induction false} StepPrint(p: Proc, g: Store, l: Line, text: string, args: seq<Operand>)
    requires At(p, l) && l.instr == Print(text, args) && (args != [] || p.line + 1 < |p.code|)
    requires forall x | x in args :: Simple(x, p.table, p.args)
    ensures var r := Interpret(p, g);
      && r.glob == g && Went(p, r.proc, p.line + 1, Ready, {}) && !r.proc.past
      && |r.proc.out| == |p.out| + 1 && r.proc.out[..|p.out|] == p.out
      && r.proc.out[|p.out|].text == text && |r.proc.out[|p.out|].values| == |args|
      && forall i | 0 <= i < |args| :: r.proc.out[|p.out|].values[i] == Value(args[i], p.table, p.args)
  {
    PrintSimple(p.(line := p.line + 1, past := false), args, text, []);
  }

  lemma {:induction false} StepSet(p: Proc, g: Store, l: Line, n: string, x: Operand)
    requires At(p, l) && l.instr == Set(Var(n), x)
    requires n != "argc" && IsPlain(p.table, n) && Simple(x, p.table, p.args)
    ensures var r := Interpret(p, g);
      && r.glob == g && Went(p, r.proc, p.line + 1, Ready, {n}) && !r.proc.past && r.proc.out == p.out
      && IsPlain(r.proc.table, n) && Plain(r.proc.table, n) == Value(x, p.table, p.args)
  {
    EvalSimple(x, p.table, p.args);
    var e := Eval(x, p.table, p.args);
    AssignPlain(n, e.out.value, e.table, p.args);
  }

  lemma {:induction false} BothSimple(p: Proc, a: Operand, b: Operand)
    requires Simple(a, p.table, p.args) && Simple(b, p.table, p.args)
    ensures var r := EvalBoth(p, a, b);
      && r.ok && r.left == Value(a, p.table, p.args) && r.right == Value(b, p.table, p.args)
      && r.after == p.(table := r.after.table) && Agree(p.table, r.after.table, {})
  {
    EvalSimple(a, p.table, p.args);
    EvalSimple(b, Eval(a, p.table, p.args).table, p.args);
  }

  lemma AgreeTwice(t: Table, u: Table, v: Table, but: set<string>)
    requires Agree(t, u, {}) && (Agree(u, v, but) || Agree(u, v, {}))
    ensures Agree(t, v, but)
  {}

  lemma {:induction false} StepArith(p: Proc, g: Store, l: Line, op: ArithOp, n: string, a: Operand, b: Operand)
    requires At(p, l) && l.instr == Arith(op, Var(n), a, b)
    requires n != "argc" && IsPlain(p.table, n) && Simple(a, p.table, p.args) && Simple(b, p.table, p.args)
    ensures var r := Interpret(p, g);
      var v := Compute(op, Value(a, p.table, p.args), Value(b, p.table, p.args));
      && r.glob == g && !r.proc.past && r.proc.out == p.out
      && Went(p, r.proc, p.line + 1, if v.Some? then Ready else Wild, {n})
      && IsPlain(r.proc.table, n)
      && Plain(r.proc.table, n) == if v.Some? then v.value else Plain(p.table, n)
  {
    hide Eval, EvalBoth, Compute;
    BothSimple(p.(line := p.line + 1, past := false), a, b);
    var r := EvalBoth(p.(line := p.line + 1, past := false), a, b);
    var v := Compute(op, r.left, r.right);
    if v.Some? {
      AssignPlain(n, v.value, r.after.table, p.args);
      AgreeTwice(p.table, r.after.table, Assign(Var(n), v.value, r.after.table, p.args).table, {n});
    } else {
      AgreeTwice(p.table, p.table, r.after.table, {n});
    }
    hide Agree, Assign;
  }

  /** A cell whose index, if it has one, is simple and not negative. */
  predicate Addressed(x: Operand, t: Table, a: Args) {
    match x
    case Num(_) => false
    case Var(_) => true
    case Elem(_, ix) => Simple(ix, t, a) && Value(ix, t, a) >= 0
  }

  function Index(x: Operand, t: Table, a: Args): nat
    requires Addressed(x, t, a)
  {
    if x.Var? then 0 else Value(x.index, t, a)
  }

  lemma {:induction false} LocateSimple(p: Proc, x: Operand)
    requires Addressed(x, p.table, p.args)
    ensures var at := Locate(p, x);
      && at.ok && at.name == x.name && at.idx == Index(x, p.table, p.args)
      && at.after == p.(table := at.after.table) && Agree(p.table, at.after.table, {})
  {
    if x.Elem? { EvalSimple(x.index, p.table, p.args); }
  }

  lemma {:induction false} StepLoad(p: Proc, g: Store, l: Line, n: string, x: Operand)
    requires At(p, l) && l.instr == Load(Var(n), x)
    requires n != "argc" && IsPlain(p.table, n) && Addressed(x, p.table, p.args)
    ensures var r := Interpret(p, g);
      && r.glob == Touch(g, x.name, Index(x, p.table, p.args))
      && Went(p, r.proc, p.line + 1, Ready, {n}) && !r.proc.past && r.proc.out == p.out
      && IsPlain(r.proc.table, n)
      && Plain(r.proc.table, n) == Cell(g, x.name, Index(x, p.table, p.args))
  {
    var q := p.(line := p.line + 1, past := false);
    LocateSimple(q, x);
    AssignPlain(n, Cell(g, x.name, Index(x, p.table, p.args)), Locate(q, x).after.table, p.args);
  }

  lemma {:induction false} StepStore(p: Proc, g: Store, l: Line, x: Operand, y: Operand)
    requires At(p, l) && l.instr == Store(x, y)
    requires Addressed(x, p.table, p.args) && Simple(y, p.table, p.args)
    ensures var r := Interpret(p, g);
      && r.glob == Put(g, x.name, Index(x, p.table, p.args), Value(y, p.table, p.args))
      && Went(p, r.proc, p.line + 1, Ready, {}) && !r.proc.past && r.proc.out == p.out
  {
    var q := p.(line := p.line + 1, past := false);
    LocateSimple(q, x);
    EvalSimple(y, Locate(q, x).after.table, p.args);
  }

  lemma {:induction false} StepDown(p: Proc, g: Store, l: Line, x: Operand)
    requires At(p, l) && l.instr == Down(x) && Addressed(x, p.table, p.args)
    ensures var r := Interpret(p, g);
      && r.glob == Touch(g, x.name, Index(x, p.table, p.args))
      && Went(p, r.proc, p.line + 1, Blocked, {}) && !r.proc.past && r.proc.out == p.out
      && r.proc.sem == x.name && r.proc.semIdx == Index(x, p.table, p.args)
  {
    LocateSimple(p.(line := p.line + 1, past := false), x);
  }

  lemma {:induction false} StepUp(p: Proc, g: Store, l: Line, x: Operand)
    requires At(p, l) && l.instr == Up(x) && Addressed(x, p.table, p.args)
    ensures var r := Interpret(p, g);
      var i := Index(x, p.table, p.args);
      && r.glob == Put(g, x.name, i, Cell(g, x.name, i) + 1)
      && Went(p, r.proc, p.line + 1, Ready, {}) && !r.proc.past && r.proc.out == p.out
  {
    LocateSimple(p.(line := p.line + 1, past := false), x);
  }

  lemma {:induction false} StepSleep(p: Proc, g: Store, l: Line, x: Operand)
    requires At(p, l) && l.instr == Sleep(x) && Simple(x, p.table, p.args)
    ensures var r := Interpret(p, g);
      var d := Value(x, p.table, p.args);
      && r.glob == g && !r.proc.past && r.proc.out == p.out
      && Went(p, r.proc, p.line + 1, if d > 0 then Sleeping else Ready, {})
      && (d > 0 ==> r.proc.sec == d && r.proc.nsec == 0)
  {
    EvalSimple(x, p.table, p.args);
  }

  /** Where a taken jump lands: a line that the table knows, or the first one further on. */
  predicate Lands(p: Proc, target: string, to: nat) {
    if target in p.table then p.table[target] == Mark(to)
    else Find(p.code, p.line + 1, target) == Some(to) && !EndsFile(p.code, to)
  }

  lemma JumpLands(p: Proc, q: Proc, target: string, to: nat)
    requires Lands(p, target, to) && Agree(p.table, q.table, {})
    requires LabelLike(target)
    requires q == p.(table := q.table, line := p.line + 1, past := false)
    ensures Jump(q, target) == q.(table := Jump(q, target).table, line := to, past := true)
    ensures Agree(p.table, Jump(q, target).table, {target})
    ensures target in Jump(q, target).table && Jump(q, target).table[target] == Mark(to)
  {}

  lemma {:induction false} StepBra(p: Proc, g: Store, l: Line, target: string, to: nat)
    requires At(p, l) && l.instr == Bra(target) && LabelLike(target) && Lands(p, target, to)
    ensures var r := Interpret(p, g);
      && r.glob == g && Went(p, r.proc, to, Ready, {target}) && r.proc.past && r.proc.out == p.out
      && target in r.proc.table && r.proc.table[target] == Mark(to)
  {
    JumpLands(p, p.(line := p.line + 1, past := false), target, to);
  }

  lemma {:induction false} StepTaken(p: Proc, g: Store, l: Line, rel: Relation, a: Operand, b: Operand,
      target: string, to: nat)
    requires At(p, l) && l.instr == Branch(rel, a, b, target)
    requires Simple(a, p.table, p.args) && Simple(b, p.table, p.args)
    requires Holds(rel, Value(a, p.table, p.args), Value(b, p.table, p.args))
    requires LabelLike(target) && Lands(p, target, to)
    ensures var r := Interpret(p, g);
      && r.glob == g && Went(p, r.proc, to, Ready, {target}) && r.proc.past && r.proc.out == p.out
      && target in r.proc.table && r.proc.table[target] == Mark(to)
  {
    hide Eval, EvalBoth, Find;
    var q := p.(line := p.line + 1, past := false);
    BothSimple(q, a, b);
    JumpLands(p, EvalBoth(q, a, b).after, target, to);
  }

  lemma {:induction false} StepNotTaken(p: Proc, g: Store, l: Line, rel: Relation, a: Operand, b: Operand,
      target: string)
    requires At(p, l) && l.instr == Branch(rel, a, b, target)
    requires Simple(a, p.table, p.args) && Simple(b, p.table, p.args)
    requires !Holds(rel, Value(a, p.table, p.args), Value(b, p.table, p.args))
    ensures var r := Interpret(p, g);
      && r.glob == g && Went(p, r.proc, p.line + 1, Ready, {}) && !r.proc.past && r.proc.out == p.out
  {
    BothSimple(p.(line := p.line + 1, past := false), a, b);
  }

  /** The label of the next line is in the table, unless it was jumped over. */
  predicate Registered(p: Proc) {
    p.line < |p.code| && p.code[p.line].tag.Some? && !p.past ==> p.code[p.line].tag.value in p.table
  }

  /** A program that enters a labelled line from its start, with the label registered. */
  function Settled(p: Proc): Proc {
    if p.line < |p.code| && p.code[p.line].tag.Some? && !p.past && p.code[p.line].tag.value !in p.table
    then p.(table := p.table[p.code[p.line].tag.value := Mark(p.line)])
    else p
  }

  lemma {:induction false} SettledSame(p: Proc, g: Store)
    ensures Interpret(p, g) == Interpret(Settled(p), g) && Registered(Settled(p))
  {
    hide Execute;
  }
}
