/** Lazy label resolution against a static label map. The static interpreter is the same
    interpreter started with every label of the text already in the table. */
module Labels {
  import opened Syntax
  import opened Locals
  import opened Globals
  import opened Machine

  /** The label names of a program text. */
  function Tags(code: seq<Line>): set<string> {
    set l | 0 <= l < |code| && code[l].tag.Some? :: code[l].tag.value
  }

  /** The static map: every label and the line that carries it. */
  function AllMarks(code: seq<Line>): Table {
    map n | n in Tags(code) :: Mark(FirstLine(code, n))
  }

  function FirstLine(code: seq<Line>, n: string): nat
    requires n in Tags(code)
  {
    Find(code, 0, n).value
  }

  function Merge(t: Table, m: Table): Table {
    t + m
  }

  function Plus(p: Proc, m: Table): Proc {
    p.(table := Merge(p.table, m))
  }

  /** The same program with all its labels resolved beforehand. */
  function Full(p: Proc): Proc {
    Plus(p, AllMarks(p.code))
  }

  function Names(x: Operand): set<string> {
    match x
    case Num(_) => {}
    case Var(n) => {n}
    case Elem(n, ix) => {n} + Names(ix)
  }

  function AllNames(xs: seq<Operand>): set<string> {
    if xs == [] then {} else Names(xs[0]) + AllNames(xs[1..])
  }

  /** The part of a global operand that is looked up among the locals. */
  function IndexNames(x: Operand): set<string> {
    if x.Elem? then Names(x.index) else {}
  }

  /** The local names that an instruction mentions. */
  function Used(ins: Instr): set<string> {
    match ins
    case Load(dst, glob) => Names(dst) + IndexNames(glob)
    case Store(glob, src) => IndexNames(glob) + Names(src)
    case Set(dst, src) => Names(dst) + Names(src)
    case Arith(_, dst, left, right) => Names(dst) + (Names(left) + Names(right))
    case Branch(_, left, right, _) => Names(left) + Names(right)
    case Bra(_) => {}
    case Down(glob) => IndexNames(glob)
    case Up(glob) => IndexNames(glob)
    case Sleep(amount) => Names(amount)
    case Print(_, args) => AllNames(args)
    case Return => {}
  }

  /** No label is defined twice, and none is used as the name of a local variable. */
  ghost predicate WellLabelled(code: seq<Line>) {
    && (forall i, j | 0 <= i < j < |code| && code[i].tag.Some? :: code[i].tag != code[j].tag)
    && (forall i | 0 <= i < |code| :: Used(code[i].instr) !! Tags(code))
  }

  /** The labels in the table are where the text defines them. */
  ghost predicate Consistent(p: Proc) {
    && WellLabelled(p.code)
    && (forall n | n in p.table && p.table[n].Mark? :: n in Tags(p.code) && p.table[n] == AllMarks(p.code)[n])
    && (forall n | n in p.table && p.table[n].Cells? :: n !in Tags(p.code))
  }

  lemma {:induction false} TagLine(code: seq<Line>, l: nat)
    requires WellLabelled(code) && l < |code| && code[l].tag.Some?
    ensures code[l].tag.value in Tags(code) && FirstLine(code, code[l].tag.value) == l
  {
    assert code[l].tag == Some(code[l].tag.value);
  }

  // ----- operands do not notice labels that they do not name -----

  ghost predicate Apart(names: set<string>, m: Table) {
    names !! m.Keys
  }

  lemma ApartUnion(a: set<string>, b: set<string>, m: Table)
    ensures Apart(a + b, m) <==> Apart(a, m) && Apart(b, m)
  {}

  lemma MergeAt(t: Table, m: Table, n: string, c: Entry)
    requires n !in m
    ensures (n in Merge(t, m) <==> n in t) && (n in t ==> Merge(t, m)[n] == t[n])
    ensures Merge(t, m)[n := c] == Merge(t[n := c], m)
  {}

  lemma {:induction false} EvalAside(x: Operand, t: Table, m: Table, a: Args)
    requires Apart(Names(x), m)
    ensures Eval(x, Merge(t, m), a) == Effect(Eval(x, t, a).out, Merge(Eval(x, t, a).table, m))
  {
    hide Merge;
    match x
    case Num(_) =>
    case Var(n) => MergeAt(t, m, n, Cells([0]));
    case Elem(n, ix) =>
      EvalAside(ix, t, m, a);
      MergeAt(t, m, n, Cells([0]));
      var e := Eval(ix, t, a);
      if n != "argv" && !(n in t && t[n].Mark?) && e.out.Ok? && e.out.value >= 0 {
        MergeAt(e.table, m, n, Cells(Reached(e.table, n, e.out.value)));
      }
  }

  lemma {:induction false} AssignAside(x: Operand, v: int, t: Table, m: Table, a: Args)
    requires Apart(Names(x), m)
    ensures Assign(x, v, Merge(t, m), a) == Effect(Assign(x, v, t, a).out, Merge(Assign(x, v, t, a).table, m))
  {
    hide Merge;
    match x
    case Num(_) =>
    case Var(n) => MergeAt(t, m, n, Cells([v]));
    case Elem(n, ix) =>
      EvalAside(ix, t, m, a);
      MergeAt(t, m, n, Cells([0]));
      var e := Eval(ix, t, a);
      if n != "argv" && !(n in t && t[n].Mark?) && e.out.Ok? && e.out.value >= 0 {
        MergeAt(e.table, m, n, Cells(Reached(e.table, n, e.out.value)[e.out.value := v]));
      }
  }

  lemma {:induction false} AfterAside(p: Proc, e: Effect, m: Table)
    ensures After(Plus(p, m), Effect(e.out, Merge(e.table, m))) == Plus(After(p, e), m)
  {
    hide Merge;
  }

  lemma {:induction false} LocateAside(p: Proc, x: Operand, m: Table)
    requires Apart(IndexNames(x), m)
    ensures Locate(Plus(p, m), x) == Locate(p, x).(after := Plus(Locate(p, x).after, m))
  {
    hide Eval, After, Merge, Apart, SameMarks;
    if x.Elem? {
      EvalAside(x.index, p.table, m, p.args);
      AfterAside(p, Eval(x.index, p.table, p.args), m);
    }
  }

  lemma {:induction false} BothAside(p: Proc, x: Operand, y: Operand, m: Table)
    requires Apart(Names(x), m) && Apart(Names(y), m)
    ensures EvalBoth(Plus(p, m), x, y) == EvalBoth(p, x, y).(after := Plus(EvalBoth(p, x, y).after, m))
  {
    hide Eval, Merge, Apart, SameMarks;
    EvalAside(x, p.table, m, p.args);
    EvalAside(y, Eval(x, p.table, p.args).table, m, p.args);
  }

  lemma {:induction false} PrintAside(p: Proc, args: seq<Operand>, text: string, shown: seq<int>, m: Table)
    requires Apart(AllNames(args), m)
    ensures PrintArgs(Plus(p, m), args, text, shown) == Plus(PrintArgs(p, args, text, shown), m)
    decreases |args|
  {
    hide Eval, Merge, Apart, SameMarks;
    if args != [] {
      ApartUnion(Names(args[0]), AllNames(args[1..]), m);
      EvalAside(args[0], p.table, m, p.args);
      var e := Eval(args[0], p.table, p.args);
      if e.out.Ok? { PrintAside(After(p, e), args[1..], text, shown + [e.out.value], m); }
    }
  }

  /** The label that an instruction is about to jump to, if it is. */
  function JumpsTo(p: Proc, ins: Instr): Option<string> {
    match ins
    case Bra(target) => Some(target)
    case Branch(rel, left, right, target) =>
      var b := EvalBoth(p, left, right);
      if b.ok && Holds(rel, b.left, b.right) then Some(target) else None
    case _ => None
  }

  /** The instruction acts alike with and without other labels in the table. */
  ghost predicate Alike(p: Proc, g: Store, ins: Instr, m: Table) {
    Execute(Plus(p, m), g, ins) == Execute(p, g, ins).(proc := Plus(Execute(p, g, ins).proc, m))
  }

  lemma {:induction false} LoadAside(p: Proc, g: Store, ins: Instr, m: Table)
    requires ins.Load? && Apart(Used(ins), m)
    ensures Alike(p, g, ins, m)
  {
    hide Assign, Locate, Merge, Apart, SameMarks;
    ApartUnion(Names(ins.dst), IndexNames(ins.glob), m);
    LocateAside(p, ins.glob, m);
    var at := Locate(p, ins.glob);
    AssignAside(ins.dst, Cell(g, at.name, at.idx), at.after.table, m, p.args);
  }

  lemma {:induction false} StoreAside(p: Proc, g: Store, ins: Instr, m: Table)
    requires ins.Store? && Apart(Used(ins), m)
    ensures Alike(p, g, ins, m)
  {
    hide Eval, Locate, Merge, Apart, SameMarks;
    ApartUnion(IndexNames(ins.glob), Names(ins.src), m);
    LocateAside(p, ins.glob, m);
    EvalAside(ins.src, Locate(p, ins.glob).after.table, m, p.args);
  }

  lemma {:induction false} SetAside(p: Proc, g: Store, ins: Instr, m: Table)
    requires ins.Set? && Apart(Used(ins), m)
    ensures Alike(p, g, ins, m)
  {
    ApartUnion(Names(ins.dst), Names(ins.src), m);
    hide Eval, Assign, After, Merge, Apart, Used, SameMarks;
    EvalAside(ins.src, p.table, m, p.args);
    var e := Eval(ins.src, p.table, p.args);
    AfterAside(p, e, m);
    if e.out.Ok? {
      AssignAside(ins.dst, e.out.value, e.table, m, p.args);
      AfterAside(p, Assign(ins.dst, e.out.value, e.table, p.args), m);
    }
  }

  lemma {:induction false} ArithAside(p: Proc, g: Store, ins: Instr, m: Table)
    requires ins.Arith? && Apart(Used(ins), m)
    ensures Alike(p, g, ins, m)
  {
    ApartUnion(Names(ins.dst), Names(ins.left) + Names(ins.right), m);
    ApartUnion(Names(ins.left), Names(ins.right), m);
    hide EvalBoth, Assign, After, Merge, Apart, Used, Compute, SameMarks;
    BothAside(p, ins.left, ins.right, m);
    var b := EvalBoth(p, ins.left, ins.right);
    if b.ok {
      var v := Compute(ins.op, b.left, b.right);
      if v.Some? {
        AssignAside(ins.dst, v.value, b.after.table, m, b.after.args);
        AfterAside(b.after, Assign(ins.dst, v.value, b.after.table, b.after.args), m);
      }
    }
  }

  /** Instructions that do not jump. */
  lemma {:induction false} ExecuteAside(p: Proc, g: Store, ins: Instr, m: Table)
    requires Apart(Used(ins), m) && JumpsTo(p, ins).None?
    ensures Alike(p, g, ins, m)
  {
    hide Eval, Assign, Locate, EvalBoth, PrintArgs, Merge, Apart, SameMarks;
    match ins
    case Load(_, _) => LoadAside(p, g, ins, m);
    case Store(_, _) => StoreAside(p, g, ins, m);
    case Set(_, _) => SetAside(p, g, ins, m);
    case Arith(_, _, _, _) => ArithAside(p, g, ins, m);
    case Branch(_, left, right, _) =>
      ApartUnion(Names(left), Names(right), m);
      BothAside(p, left, right, m);
    case Down(glob) => LocateAside(p, glob, m);
    case Up(glob) => LocateAside(p, glob, m);
    case Sleep(amount) => EvalAside(amount, p.table, m, p.args);
    case Print(text, args) => PrintAside(p, args, text, [], m);
    case _ =>
  }

  // ----- what an instruction can add to the table -----

  /** Labels stay, and new entries are variables that the instruction names. */
  ghost predicate Extends(p: Proc, q: Proc, names: set<string>) {
    && q.code == p.code && q.args == p.args && q.past == p.past && q.line == p.line
    && (forall n | n in q.table :: n in p.table || n in names)
    && SameMarks(p.table, q.table)
  }

  lemma ExtendsTwice(p: Proc, q: Proc, r: Proc, a: set<string>, b: set<string>)
    requires Extends(p, q, a) && Extends(q, r, b)
    ensures Extends(p, r, a + b)
  {}

  lemma {:induction false} EvalExtends(x: Operand, p: Proc)
    ensures Extends(p, After(p, Eval(x, p.table, p.args)), Names(x))
  {
    if x.Elem? { EvalExtends(x.index, p); }
  }

  lemma {:induction false} AssignExtends(x: Operand, v: int, p: Proc)
    ensures Extends(p, After(p, Assign(x, v, p.table, p.args)), Names(x))
  {
    if x.Elem? { EvalExtends(x.index, p); }
  }

  lemma {:induction false} LocateExtends(p: Proc, x: Operand)
    ensures Extends(p, Locate(p, x).after, IndexNames(x))
  {
    if x.Elem? { EvalExtends(x.index, p); }
    hide Eval;
  }

  lemma {:induction false} BothExtends(p: Proc, x: Operand, y: Operand)
    ensures Extends(p, EvalBoth(p, x, y).after, Names(x) + Names(y))
  {
    hide Eval;
    EvalExtends(x, p);
    var e := Eval(x, p.table, p.args);
    if e.out.Ok? {
      EvalExtends(y, After(p, e));
      ExtendsTwice(p, After(p, e), After(After(p, e), Eval(y, e.table, p.args)), Names(x), Names(y));
    }
  }

  lemma {:induction false} PrintExtends(p: Proc, args: seq<Operand>, text: string, shown: seq<int>)
    ensures Extends(p, PrintArgs(p, args, text, shown), AllNames(args))
    decreases |args|
  {
    hide Eval;
    if args != [] {
      EvalExtends(args[0], p);
      var e := Eval(args[0], p.table, p.args);
      if e.out.Ok? {
        PrintExtends(After(p, e), args[1..], text, shown + [e.out.value]);
        ExtendsTwice(p, After(p, e), PrintArgs(p, args, text, shown), Names(args[0]), AllNames(args[1..]));
      }
    }
  }

  lemma {:induction false} LoadExtends(p: Proc, g: Store, ins: Instr)
    requires ins.Load?
    ensures Extends(p, Execute(p, g, ins).proc, Used(ins))
  {
    hide Assign, Locate;
    LocateExtends(p, ins.glob);
    var at := Locate(p, ins.glob);
    if at.ok {
      var v := Cell(g, at.name, at.idx);
      AssignExtends(ins.dst, v, at.after);
      hide Extends;
      var u := After(at.after, Assign(ins.dst, v, at.after.table, at.after.args));
      ExtendsTwice(p, at.after, u, IndexNames(ins.glob), Names(ins.dst));
    }
  }

  lemma {:induction false} StoreExtends(p: Proc, g: Store, ins: Instr)
    requires ins.Store?
    ensures Extends(p, Execute(p, g, ins).proc, Used(ins))
  {
    hide Eval, Locate;
    LocateExtends(p, ins.glob);
    var at := Locate(p, ins.glob);
    if at.ok {
      EvalExtends(ins.src, at.after);
      hide Extends;
      var u := After(at.after, Eval(ins.src, at.after.table, at.after.args));
      ExtendsTwice(p, at.after, u, IndexNames(ins.glob), Names(ins.src));
    }
  }

  lemma {:induction false} SetExtends(p: Proc, g: Store, ins: Instr)
    requires ins.Set?
    ensures Extends(p, Execute(p, g, ins).proc, Used(ins))
  {
    hide Eval, Assign;
    EvalExtends(ins.src, p);
    var e := Eval(ins.src, p.table, p.args);
    if e.out.Ok? {
      var q := After(p, e);
      AssignExtends(ins.dst, e.out.value, q);
      hide Extends;
      ExtendsTwice(p, q, After(q, Assign(ins.dst, e.out.value, q.table, q.args)), Names(ins.src), Names(ins.dst));
    }
  }

  lemma {:induction false} ArithExtends(p: Proc, g: Store, ins: Instr)
    requires ins.Arith?
    ensures Extends(p, Execute(p, g, ins).proc, Used(ins))
  {
    hide EvalBoth, Assign, Compute;
    BothExtends(p, ins.left, ins.right);
    var b := EvalBoth(p, ins.left, ins.right);
    if b.ok && Compute(ins.op, b.left, b.right).Some? {
      var v := Compute(ins.op, b.left, b.right).value;
      AssignExtends(ins.dst, v, b.after);
      hide Extends;
      var u := After(b.after, Assign(ins.dst, v, b.after.table, b.after.args));
      ExtendsTwice(p, b.after, u, Names(ins.left) + Names(ins.right), Names(ins.dst));
    }
  }

  lemma {:induction false} ExecuteExtends(p: Proc, g: Store, ins: Instr)
    requires JumpsTo(p, ins).None?
    ensures Extends(p, Execute(p, g, ins).proc, Used(ins))
  {
    hide Eval, Assign, Locate, EvalBoth, PrintArgs;
    match ins
    case Load(_, _) => LoadExtends(p, g, ins);
    case Store(_, _) => StoreExtends(p, g, ins);
    case Set(_, _) => SetExtends(p, g, ins);
    case Arith(_, _, _, _) => ArithExtends(p, g, ins);
    case Branch(_, left, right, _) => BothExtends(p, left, right);
    case Down(glob) => LocateExtends(p, glob);
    case Up(glob) => LocateExtends(p, glob);
    case Sleep(amount) => EvalExtends(amount, p);
    case Print(text, args) => PrintExtends(p, args, text, []);
    case _ =>
  }

  lemma ConsistentKept(p: Proc, q: Proc, names: set<string>)
    requires Consistent(p) && Extends(p, q, names) && names !! Tags(p.code)
    ensures Consistent(q)
  {}

  // ----- one line -----

  /** The next line jumps to a label that the table does not know, and that stands behind
      (or here), where the forward scan does not look. */
  predicate Misses(p: Proc) {
    p.line < |p.code| && var j := JumpsTo(Poised(p), p.code[p.line].instr);
    j.Some? && j.value in Tags(p.code) && j.value !in Poised(p).table && FirstLine(p.code, j.value) <= p.line
  }

  /** The next line jumps by a forward scan to a last line that prints without operands:
      the scan has met the end of the file, which ends the program before that line. */
  predicate RunsOut(p: Proc) {
    p.line < |p.code| && var j := JumpsTo(Poised(p), p.code[p.line].instr);
    j.Some? && j.value in Tags(p.code) && j.value !in Poised(p).table && FirstLine(p.code, j.value) > p.line &&
    EndsFile(p.code, FirstLine(p.code, j.value))
  }

  lemma {:induction false} EnteredSame(p: Proc)
    requires Consistent(p) && p.status.Ready? && p.line < |p.code|
    ensures Consistent(Entered(p)) && Entered(p).status.Ready? && Entered(p) == p.(table := Entered(p).table)
    ensures Full(Entered(p)) == Full(p) && Entered(Full(p)) == Full(p)
  {
    var l := p.code[p.line];
    if l.tag.Some? && !p.past {
      TagLine(p.code, p.line);
      var n := l.tag.value;
      assert AllMarks(p.code)[n] == Mark(p.line);
      assert p.table[n := Mark(p.line)] + AllMarks(p.code) == p.table + AllMarks(p.code);
    }
  }

  lemma {:induction false} JumpStays(p: Proc, target: string)
    requires Consistent(p) && p.status.Ready?
    ensures Consistent(Jump(p, target)) && Jump(p, target).code == p.code
  {
    hide Used;
    if target in Tags(p.code) {
      var l := FirstLine(p.code, target);
      if target !in p.table { assert Find(p.code, p.line, target) == if l >= p.line then Some(l) else None; }
    } else {
      assert Find(p.code, p.line, target) == None;
    }
  }

  /** A lazy jump is the static one unless it scans in vain or runs out of the file. */
  lemma {:induction false} JumpSame(p: Proc, target: string)
    requires Consistent(p) && p.status.Ready?
    ensures Jump(Full(p), target) == Full(Jump(p, target)) <==>
      !(target in Tags(p.code) && target !in p.table &&
        (FirstLine(p.code, target) < p.line || EndsFile(p.code, FirstLine(p.code, target))))
  {
    hide Used;
    if target in Tags(p.code) && target !in p.table { SeekSame(p, target); }
    else if target in Tags(p.code) { assert p.table[target] == Mark(FirstLine(p.code, target)); }
    else { assert Find(p.code, p.line, target) == None; }
  }

  /** A jump to a label that is not in the table yet. */
  lemma {:induction false} SeekSame(p: Proc, target: string)
    requires Consistent(p) && p.status.Ready? && target in Tags(p.code) && target !in p.table
    ensures Jump(Full(p), target) == Full(Jump(p, target)) <==>
      !(FirstLine(p.code, target) < p.line || EndsFile(p.code, FirstLine(p.code, target)))
  {
    hide Used;
    var l, m := FirstLine(p.code, target), AllMarks(p.code);
    assert Find(p.code, p.line, target) == if l >= p.line then Some(l) else None;
    assert p.table[target := Mark(l)] + m == p.table + m;
  }

  lemma MarksApart(p: Proc, names: set<string>)
    requires names !! Tags(p.code)
    ensures Apart(names, AllMarks(p.code))
  {}

  /** An executed instruction: jumps follow JumpSame, everything else is unaffected. */
  lemma {:induction false} ExecuteSame(p: Proc, g: Store, ins: Instr)
    requires Consistent(p) && p.status.Ready? && Used(ins) !! Tags(p.code)
    ensures Consistent(Execute(p, g, ins).proc) && Execute(p, g, ins).proc.code == p.code
    ensures var r, j := Execute(p, g, ins), JumpsTo(p, ins);
      Execute(Full(p), g, ins) == Pair(Full(r.proc), r.glob) <==>
      !(j.Some? && j.value in Tags(p.code) && j.value !in p.table &&
        (FirstLine(p.code, j.value) < p.line || EndsFile(p.code, FirstLine(p.code, j.value))))
  {
    var m := AllMarks(p.code);
    MarksApart(p, Used(ins));
    if JumpsTo(p, ins).None? {
      ExecuteAside(p, g, ins, m);
      ExecuteExtends(p, g, ins);
      hide Execute;
      ConsistentKept(p, Execute(p, g, ins).proc, Used(ins));
    } else if ins.Bra? {
      JumpStays(p, ins.target);
      JumpSame(p, ins.target);
    } else {
      BranchSame(p, g, ins);
    }
  }

  lemma {:induction false} BranchIs(p: Proc, g: Store, ins: Instr)
    requires ins.Branch? && JumpsTo(p, ins).Some?
    ensures Execute(p, g, ins) == Pair(Jump(EvalBoth(p, ins.left, ins.right).after, ins.target), g)
    ensures p.status.Ready? ==> EvalBoth(p, ins.left, ins.right).after.status.Ready?
    ensures EvalBoth(p, ins.left, ins.right).after.line == p.line
  {
    hide Eval, Jump;
  }

  lemma {:induction false} BranchFull(p: Proc, g: Store, ins: Instr)
    requires Consistent(p) && Used(ins) !! Tags(p.code) && ins.Branch? && JumpsTo(p, ins).Some?
    ensures var q := EvalBoth(p, ins.left, ins.right).after;
      && Consistent(q) && q.code == p.code && Execute(Full(p), g, ins) == Pair(Jump(Full(q), ins.target), g)
      && (ins.target in Tags(p.code) ==> (ins.target in p.table <==> ins.target in q.table))
  {
    var b, m := EvalBoth(p, ins.left, ins.right), AllMarks(p.code);
    MarksApart(p, Used(ins));
    ApartUnion(Names(ins.left), Names(ins.right), m);
    BothAside(p, ins.left, ins.right, m);
    BothExtends(p, ins.left, ins.right);
    ConsistentKept(p, b.after, Used(ins));
    hide EvalBoth, Jump, AllMarks, Merge, Tags, Names, Consistent, SameMarks;
    BranchIs(Full(p), g, ins);
  }

  lemma {:induction false} BranchSame(p: Proc, g: Store, ins: Instr)
    requires Consistent(p) && p.status.Ready? && Used(ins) !! Tags(p.code) && ins.Branch? && JumpsTo(p, ins).Some?
    ensures Consistent(Execute(p, g, ins).proc) && Execute(p, g, ins).proc.code == p.code
    ensures var r := Execute(p, g, ins);
      Execute(Full(p), g, ins) == Pair(Full(r.proc), r.glob) <==>
      !(ins.target in Tags(p.code) && ins.target !in p.table &&
        (FirstLine(p.code, ins.target) < p.line || EndsFile(p.code, FirstLine(p.code, ins.target))))
  {
    hide Execute, EvalBoth, Jump, Find, FirstLine, Consistent, AllMarks, Merge, Used, Tags, EndsFile, Full;
    BranchIs(p, g, ins);
    BranchFull(p, g, ins);
    var q := EvalBoth(p, ins.left, ins.right).after;
    JumpStays(q, ins.target);
    JumpSame(q, ins.target);
  }

  /** One step of the lazy interpreter is a step of the static one exactly when it neither
      misses a label nor runs out of the file. */
  lemma {:induction false} InterpretSame(p: Proc, g: Store)
    requires Consistent(p) && p.status.Ready?
    ensures var r := Interpret(p, g);
      && Consistent(r.proc) && r.proc.code == p.code
      && (Interpret(Full(p), g) == Pair(Full(r.proc), r.glob) <==> !Misses(p) && !RunsOut(p))
  {
    if p.line < |p.code| {
      var ins, q := p.code[p.line].instr, Poised(p);
      EnteredSame(p);
      PoisedSame(p);
      assert Used(ins) !! Tags(p.code);
      InterpretIs(p, g);
      InterpretIs(Full(p), g);
      hide Interpret, Execute, JumpsTo, FirstLine, Find, Consistent, Entered, Poised, Merge, AllMarks;
      hide WellLabelled, Tags, Used, EndsFile, Full, Plus, Closed;
      ExecuteSame(q, g, ins);
      var r := Execute(q, g, ins).proc;
      ClosedSame(p.code, p.line, r);
      ClosedApart(p.code, p.line, Execute(Full(q), g, ins).proc, Full(r));
      if EndsFile(p.code, p.line) {
        BarePrint(p.code, p.line);
        PrintStays(q, ins);
      }
    }
  }

  lemma BarePrint(code: seq<Line>, k: nat)
    requires EndsFile(code, k)
    ensures code[k].instr.Print?
  {}

  lemma PrintStays(q: Proc, ins: Instr)
    requires ins.Print?
    ensures JumpsTo(q, ins).None?
  {}

  lemma PoisedSame(p: Proc)
    requires Consistent(p) && p.status.Ready? && p.line < |p.code|
    requires Consistent(Entered(p)) && Entered(p).status.Ready? && Entered(p) == p.(table := Entered(p).table)
    requires Full(Entered(p)) == Full(p) && Entered(Full(p)) == Full(p)
    ensures Poised(Full(p)) == Full(Poised(p)) && Consistent(Poised(p)) && Poised(p).status.Ready?
    ensures Poised(p).code == p.code && Poised(p).line == p.line + 1
    ensures Entered(Full(p)).status.Ready? && Full(p).code == p.code && Full(p).line == p.line
  {
    hide AllMarks, Tags, WellLabelled, Enter;
  }

  lemma ClosedSame(code: seq<Line>, k: nat, q: Proc)
    ensures Closed(code, k, Full(q)) == Full(Closed(code, k, q)) && Closed(code, k, q).code == q.code
    ensures Consistent(q) ==> Consistent(Closed(code, k, q))
  {
    hide AllMarks, Tags, WellLabelled, EndsFile;
  }

  lemma ClosedApart(code: seq<Line>, k: nat, a: Proc, b: Proc)
    ensures !EndsFile(code, k) ==> Closed(code, k, a) == a && Closed(code, k, b) == b
  {}

  // ----- whole runs -----

  function FullSys(s: Sys): Sys {
    Sys(s.glob, seq(|s.procs|, i requires 0 <= i < |s.procs| => Full(s.procs[i])))
  }

  ghost predicate AllConsistent(s: Sys) {
    forall i | 0 <= i < |s.procs| :: Consistent(s.procs[i])
  }

  /** The turn makes a program miss a label or run out of its file. */
  predicate Diverges(s: Sys, t: Turn) {
    t.who < |s.procs| && s.procs[t.who].status.Ready? && (Misses(s.procs[t.who]) || RunsOut(s.procs[t.who]))
  }

  predicate Smooth(s: Sys, turns: seq<Turn>) {
    turns == [] ||
    (Smooth(s, turns[..|turns| - 1]) && !Diverges(Run(s, turns[..|turns| - 1]), turns[|turns| - 1]))
  }

  lemma {:induction false} VisitSame(p: Proc, g: Store, slice: nat)
    requires Consistent(p)
    ensures var r := Visit(p, g, slice);
      && Consistent(r.proc) && r.proc.code == p.code
      && (Visit(Full(p), g, slice) == Pair(Full(r.proc), r.glob) <==> !(p.status.Ready? && (Misses(p) || RunsOut(p))))
  {
    hide Interpret, Misses, RunsOut, Merge, AllMarks, WellLabelled;
    match p.status
    case Ready => InterpretSame(p, g); hide Consistent;
    case Sleeping => assert Doze(Full(p), slice) == Full(Doze(p, slice));
    case Blocked => assert Grant(Full(p), g) == Pair(Full(Grant(p, g).proc), Grant(p, g).glob);
    case Finished =>
    case Wild =>
  }

  lemma {:induction false} NextSame(s: Sys, t: Turn)
    requires AllConsistent(s)
    ensures AllConsistent(Next(s, t))
    ensures FullSys(Next(s, t)) == Next(FullSys(s), t) <==> !Diverges(s, t)
  {
    if t.who < |s.procs| {
      var p := s.procs[t.who];
      VisitSame(p, s.glob, t.slice);
      hide Visit, Full, Consistent, Misses, RunsOut;
      var r := Visit(p, s.glob, t.slice);
      assert FullSys(Next(s, t)).procs[t.who] == Full(r.proc);
      assert Next(FullSys(s), t).procs[t.who] == Visit(Full(p), s.glob, t.slice).proc;
      if !Diverges(s, t) {
        assert FullSys(Next(s, t)).procs == Next(FullSys(s), t).procs;
      }
    } else {
      assert FullSys(Next(s, t)) == Next(FullSys(s), t);
    }
  }

  lemma {:induction false} RunConsistent(s: Sys, turns: seq<Turn>)
    requires AllConsistent(s)
    ensures AllConsistent(Run(s, turns))
  {
    if turns != [] {
      RunConsistent(s, turns[..|turns| - 1]);
      NextSame(Run(s, turns[..|turns| - 1]), turns[|turns| - 1]);
    }
  }

  /** Lazy and static run agree after the first `k` turns. */
  ghost predicate Agrees(s: Sys, turns: seq<Turn>, k: nat)
    requires k <= |turns|
  {
    FullSys(Run(s, turns[..k])) == Run(FullSys(s), turns[..k])
  }

  lemma {:induction false} AgreesNext(s: Sys, turns: seq<Turn>, t: Turn)
    requires AllConsistent(s) && FullSys(Run(s, turns)) == Run(FullSys(s), turns)
    ensures FullSys(Run(s, turns + [t])) == Run(FullSys(s), turns + [t]) <==> !Diverges(Run(s, turns), t)
  {
    hide Next, FullSys, Diverges;
    RunConsistent(s, turns);
    NextSame(Run(s, turns), t);
    assert (turns + [t])[..|turns|] == turns;
  }

  /** Any number of programs with unique labels, in any order of turns: the run with lazy
      label tables is the run with complete ones, step for step, exactly as long as no turn
      misses a label or runs out of a file. */
  lemma {:induction false} LazyIsStatic(s: Sys, turns: seq<Turn>)
    requires AllConsistent(s)
    ensures Smooth(s, turns) <==> forall k: nat | k <= |turns| :: Agrees(s, turns, k)
  {
    hide Next, FullSys, Diverges;
    if turns == [] {
      assert turns[..0] == [];
    } else {
      var n := |turns| - 1;
      var before, t := turns[..n], turns[n];
      LazyIsStatic(s, before);
      assert before + [t] == turns && turns[..n + 1] == turns && before[..n] == before;
      if Smooth(s, before) {
        assert Agrees(s, before, n);
        AgreesNext(s, before, t);
        if Smooth(s, turns) {
          forall k: nat | k <= |turns| ensures Agrees(s, turns, k) {
            if k <= n { assert turns[..k] == before[..k] && Agrees(s, before, k); }
          }
        } else {
          assert !Agrees(s, turns, n + 1);
        }
      } else {
        var k: nat :| k <= n && !Agrees(s, before, k);
        assert turns[..k] == before[..k];
        assert !Agrees(s, turns, k);
      }
    }
  }

  /** The lines that a program has entered during a run, from the start of the line or by a
      jump to its label. */
  function Met(s: Sys, turns: seq<Turn>, who: nat): set<nat>
    requires who < |s.procs|
  {
    if turns == [] then {}
    else
      var before, t := turns[..|turns| - 1], turns[|turns| - 1];
      var p, q := Run(s, before).procs[who], Run(s, turns).procs[who];
      Met(s, before, who)
      + (if t.who == who && p.status.Ready? && p.line < |p.code| then {p.line} else {})
      + (if q.past then {q.line} else {})
  }

  /** The table knows exactly the labels of the lines in `lines`. */
  ghost predicate Knows(p: Proc, lines: set<nat>) {
    && (forall n | n in Tags(p.code) :: n in p.table <==> FirstLine(p.code, n) in lines)
    && (p.past ==> p.line < |p.code| && p.code[p.line].tag.Some? && p.line in lines)
  }

  lemma {:induction false} JumpMarks(p: Proc, target: string)
    requires Consistent(p) && p.status.Ready? && !p.past
    ensures var q := Jump(p, target);
      && (q.past ==> q.line < |q.code| && q.code[q.line].tag == Some(target) && FirstLine(p.code, target) == q.line)
      && (forall n | n in Tags(p.code) :: n in q.table <==> n in p.table || (q.past && FirstLine(p.code, n) == q.line))
  {
    if target in p.table && p.table[target].Mark? { assert p.table[target] == AllMarks(p.code)[target]; }
    else if target !in p.table && Find(p.code, p.line, target).Some? {
      TagLine(p.code, Find(p.code, p.line, target).value);
    }
    forall n | n in Tags(p.code) && target in Tags(p.code) && FirstLine(p.code, n) == FirstLine(p.code, target)
      ensures n == target
    {
      assert p.code[FirstLine(p.code, n)].tag == Some(n);
    }
  }

  lemma {:induction false} ExecuteMarks(p: Proc, g: Store, ins: Instr)
    requires Consistent(p) && p.status.Ready? && !p.past && Used(ins) !! Tags(p.code)
    ensures var q := Execute(p, g, ins).proc;
      && q.code == p.code
      && (q.past ==> q.line < |q.code| && q.code[q.line].tag.Some?)
      && (forall n | n in Tags(p.code) :: n in q.table <==> n in p.table || (q.past && FirstLine(p.code, n) == q.line))
  {
    if JumpsTo(p, ins).None? {
      ExecuteExtends(p, g, ins);
      hide Execute;
    } else if ins.Bra? {
      JumpMarks(p, ins.target);
    } else {
      var b := EvalBoth(p, ins.left, ins.right);
      BothExtends(p, ins.left, ins.right);
      ConsistentKept(p, b.after, Used(ins));
      hide EvalBoth, Jump;
      JumpMarks(b.after, ins.target);
    }
  }

  lemma {:induction false} InterpretSteps(p: Proc, g: Store)
    requires Consistent(p) && p.status.Ready? && p.line < |p.code|
    ensures Interpret(p, g).proc == Closed(p.code, p.line, Execute(Poised(p), g, p.code[p.line].instr).proc)
  {
    EnteredSame(p);
    hide Execute, Consistent, Enter, Full;
  }

  lemma ClosedKeeps(code: seq<Line>, l: nat, p: Proc)
    requires l < |code|
    ensures var q := Closed(code, l, p);
      q.code == p.code && q.table == p.table && q.past == p.past && q.line == p.line
  {}

  lemma {:induction false} InterpretKnows(p: Proc, g: Store, lines: set<nat>)
    requires Consistent(p) && p.status.Ready? && Knows(p, lines)
    ensures var q := Interpret(p, g).proc;
      Knows(q, lines + (if p.line < |p.code| then {p.line} else {}) + (if q.past then {q.line} else {}))
  {
    if p.line < |p.code| {
      hide Interpret, Execute, AllMarks, Merge, Entered, FirstLine;
      var ins, q := p.code[p.line].instr, Poised(p);
      EnteredSame(p);
      assert Used(ins) !! Tags(p.code);
      hide Used, Tags;
      ExecuteMarks(q, g, ins);
      EnteredKnows(p, lines);
      InterpretSteps(p, g);
      hide Consistent, Closed;
      ClosedKeeps(p.code, p.line, Execute(q, g, ins).proc);
    }
  }

  lemma {:induction false} VisitKnows(p: Proc, g: Store, slice: nat, lines: set<nat>)
    requires Consistent(p) && Knows(p, lines)
    ensures var q := Visit(p, g, slice).proc;
      Knows(q, lines + (if p.status.Ready? && p.line < |p.code| then {p.line} else {})
        + (if q.past then {q.line} else {}))
  {
    hide Interpret, Consistent, Tags, FirstLine;
    if p.status.Ready? { InterpretKnows(p, g, lines); }
  }

  lemma {:induction false} EnteredKnows(p: Proc, lines: set<nat>)
    requires Consistent(p) && p.status.Ready? && Knows(p, lines) && p.line < |p.code|
    ensures forall n | n in Tags(p.code) :: n in Entered(p).table <==> FirstLine(p.code, n) in lines + {p.line}
  {
    var l := p.code[p.line];
    forall n | n in Tags(p.code) ensures FirstLine(p.code, n) == p.line <==> l.tag == Some(n) {
      if l.tag.Some? { TagLine(p.code, p.line); }
    }
  }

  /** Nothing has run yet. */
  ghost predicate Fresh(s: Sys) {
    forall i | 0 <= i < |s.procs| ::
      WellLabelled(s.procs[i].code) && s.procs[i] == Start(s.procs[i].code, s.procs[i].args)
  }

  /** A label is in a program's table exactly if its line was entered or jumped to. */
  lemma {:induction false} TableIsHistory(s: Sys, turns: seq<Turn>, who: nat)
    requires Fresh(s) && who < |s.procs|
    ensures AllConsistent(Run(s, turns)) && Knows(Run(s, turns).procs[who], Met(s, turns, who))
  {
    hide Visit, Knows, Consistent, FullSys, Diverges;
    if turns == [] {
      FreshConsistent(s);
    } else {
      var before, t := turns[..|turns| - 1], turns[|turns| - 1];
      TableIsHistory(s, before, who);
      var r := Run(s, before);
      NextSame(r, t);
      if t.who == who { VisitKnows(r.procs[who], r.glob, t.slice, Met(s, before, who)); }
      else { Standing(r.procs[who], Met(s, before, who)); }
    }
  }

  lemma {:induction false} Standing(p: Proc, lines: set<nat>)
    requires Knows(p, lines)
    ensures Knows(p, lines + {} + if p.past then {p.line} else {})
  {
    hide Tags, FirstLine;
  }

  lemma FreshConsistent(s: Sys)
    requires Fresh(s)
    ensures AllConsistent(s) && forall i | 0 <= i < |s.procs| :: Knows(s.procs[i], {})
  {}

  lemma {:induction false} MissesKnown(p: Proc, lines: set<nat>)
    requires Consistent(p) && p.status.Ready? && p.line < |p.code| && Knows(p, lines)
    ensures Misses(p) <==> Forgotten(p, lines)
  {
    EnteredKnows(p, lines);
    hide JumpsTo, FirstLine, Tags;
  }

  /** The next line jumps to a label on an earlier line that is not among `lines`. */
  predicate Forgotten(p: Proc, lines: set<nat>)
    requires p.line < |p.code|
  {
    var j := JumpsTo(Poised(p), p.code[p.line].instr);
    j.Some? && j.value in Tags(p.code) && FirstLine(p.code, j.value) < p.line && FirstLine(p.code, j.value) !in lines
  }

  /** The misses, told by the history of the run: a taken jump to a label that stands on an
      earlier line which the program has never entered nor jumped to. */
  lemma {:induction false} MissedLabels(s: Sys, turns: seq<Turn>, who: nat)
    requires Fresh(s) && who < |s.procs|
    requires var p := Run(s, turns).procs[who]; p.status.Ready? && p.line < |p.code|
    ensures Misses(Run(s, turns).procs[who]) <==> Forgotten(Run(s, turns).procs[who], Met(s, turns, who))
  {
    TableIsHistory(s, turns, who);
    hide Run, Met, Consistent, Knows, Misses, Forgotten;
    MissesKnown(Run(s, turns).procs[who], Met(s, turns, who));
  }

  /** The first program skips the line that defines LA and later jumps back to it; the
      second jumps to a last line that only prints. */
  function Skipping(): seq<Line> {
    [ Line(None, Bra("LB")), Line(Some("LA"), Return), Line(Some("LB"), Bra("LA")) ]
  }

  function Farewell(): seq<Line> {
    [ Line(None, Bra("LEND")), Line(Some("LEND"), Print("bye", [])) ]
  }

  /** The promise that a jump reaches its label fails for a skipped label: the program is
      stopped for a label that is defined. */
  lemma {:induction false} SkippedLabelIsLost()
    ensures var p := Start(Skipping(), Args(1, []));
      var q := Interpret(Interpret(p, map[]).proc, map[]).proc;
      WellLabelled(p.code) && "LA" in Tags(p.code) && q.status.Finished? && q.error == Some(LabelUndefined)
  {
    var p := Start(Skipping(), Args(1, []));
    assert p.code[0].tag == None && p.code[1].tag == Some("LA") && p.code[2].tag == Some("LB");
    assert Find(p.code, 1, "LB") == Some(2);
    var q := Interpret(p, map[]).proc;
    assert q == p.(table := map["LB" := Mark(2)], line := 2, past := true);
    assert Find(p.code, 3, "LA") == None;
  }

  /** And for such a last line: the program ends without printing. */
  lemma {:induction false} FarewellIsNotPrinted()
    ensures var p := Start(Farewell(), Args(1, []));
      var q := Interpret(p, map[]).proc;
      WellLabelled(p.code) && q.status.Finished? && q.error == None && q.out == []
  {
    var p := Start(Farewell(), Args(1, []));
    assert p.code[0].tag == None && p.code[1].tag == Some("LEND");
    assert Find(p.code, 1, "LEND") == Some(1);
  }
}
