/** Labels as positions in a file: the machine's table of label lines, told as the table of
    file positions that the interpreter keeps. */
module Positions {
  import opened Syntax
  import opened Locals
  import opened Globals
  import opened Scanning
  import opened SourceText
  import opened Machine
  import opened TapeMachine

  // ----- label positions in place of label lines -----

  /** The table with the position of each label instead of its line. */
  function Marked(t: Table, at: seq<nat>): Table {
    map n | n in t :: if t[n].Mark? then Mark(if t[n].line < |at| then at[t[n].line] else 0) else t[n]
  }

  function Core(p: Proc, at: seq<nat>): Proc {
    p.(code := [], line := 0, past := false, table := Marked(p.table, at))
  }

  lemma MarkedAt(t: Table, at: seq<nat>, n: string, c: Entry)
    requires c.Cells?
    ensures n in Marked(t, at) <==> n in t
    ensures n in t ==> (t[n].Cells? ==> Marked(t, at)[n] == t[n]) && (t[n].Mark? ==> Marked(t, at)[n].Mark?)
    ensures Marked(t, at)[n := c] == Marked(t[n := c], at)
  {}

  lemma {:induction false} EvalMarked(x: Operand, t: Table, at: seq<nat>, a: Args)
    ensures Eval(x, Marked(t, at), a) == Effect(Eval(x, t, a).out, Marked(Eval(x, t, a).table, at))
  {
    hide Marked;
    match x
    case Num(_) =>
    case Var(n) => MarkedAt(t, at, n, Cells([0]));
    case Elem(n, ix) =>
      EvalMarked(ix, t, at, a);
      MarkedAt(t, at, n, Cells([0]));
      var e := Eval(ix, t, a);
      if n != "argv" && !(n in t && t[n].Mark?) && e.out.Ok? && e.out.value >= 0 {
        MarkedAt(e.table, at, n, Cells(Reached(e.table, n, e.out.value)));
      }
  }

  lemma {:induction false} AssignMarked(x: Operand, v: int, t: Table, at: seq<nat>, a: Args)
    ensures Assign(x, v, Marked(t, at), a) == Effect(Assign(x, v, t, a).out, Marked(Assign(x, v, t, a).table, at))
  {
    hide Marked;
    match x
    case Num(_) =>
    case Var(n) => MarkedAt(t, at, n, Cells([v]));
    case Elem(n, ix) =>
      EvalMarked(ix, t, at, a);
      MarkedAt(t, at, n, Cells([0]));
      var e := Eval(ix, t, a);
      if n != "argv" && !(n in t && t[n].Mark?) && e.out.Ok? && e.out.value >= 0 {
        MarkedAt(e.table, at, n, Cells(Reached(e.table, n, e.out.value)[e.out.value := v]));
      }
  }

  lemma {:induction false} AfterCore(p: Proc, e: Effect, at: seq<nat>)
    ensures After(Core(p, at), Effect(e.out, Marked(e.table, at))) == Core(After(p, e), at)
  {
    hide Marked;
  }

  lemma {:induction false} LocateCore(p: Proc, x: Operand, at: seq<nat>)
    ensures Locate(Core(p, at), x) == Locate(p, x).(after := Core(Locate(p, x).after, at))
  {
    hide Eval, After, Marked, SameMarks;
    if x.Elem? {
      EvalMarked(x.index, p.table, at, p.args);
      AfterCore(p, Eval(x.index, p.table, p.args), at);
    }
  }

  lemma {:induction false} BothCore(p: Proc, x: Operand, y: Operand, at: seq<nat>)
    ensures EvalBoth(Core(p, at), x, y) == EvalBoth(p, x, y).(after := Core(EvalBoth(p, x, y).after, at))
  {
    hide Eval, Marked, SameMarks;
    EvalMarked(x, p.table, at, p.args);
    EvalMarked(y, Eval(x, p.table, p.args).table, at, p.args);
  }

  lemma {:induction false} PrintCore(p: Proc, args: seq<Operand>, text: string, shown: seq<int>, at: seq<nat>)
    ensures PrintArgs(Core(p, at), args, text, shown) == Core(PrintArgs(p, args, text, shown), at)
    decreases |args|
  {
    hide Eval, Marked, SameMarks;
    if args != [] {
      EvalMarked(args[0], p.table, at, p.args);
      var e := Eval(args[0], p.table, p.args);
      if e.out.Ok? { PrintCore(After(p, e), args[1..], text, shown + [e.out.value], at); }
    }
  }

  /** The instruction acts alike on lines and on positions. */
  ghost predicate Same(p: Proc, g: Globals.Store, ins: Instr, at: seq<nat>) {
    Execute(Core(p, at), g, ins) == Execute(p, g, ins).(proc := Core(Execute(p, g, ins).proc, at))
  }

  lemma {:induction false} LoadCore(p: Proc, g: Globals.Store, ins: Instr, at: seq<nat>)
    requires ins.Load?
    ensures Same(p, g, ins, at)
  {
    hide Assign, Locate, Marked, SameMarks;
    LocateCore(p, ins.glob, at);
    var l := Locate(p, ins.glob);
    AssignMarked(ins.dst, Cell(g, l.name, l.idx), l.after.table, at, p.args);
  }

  lemma {:induction false} StoreCore(p: Proc, g: Globals.Store, ins: Instr, at: seq<nat>)
    requires ins.Store?
    ensures Same(p, g, ins, at)
  {
    hide Eval, Locate, Marked, SameMarks;
    LocateCore(p, ins.glob, at);
    EvalMarked(ins.src, Locate(p, ins.glob).after.table, at, p.args);
  }

  lemma {:induction false} SetCore(p: Proc, g: Globals.Store, ins: Instr, at: seq<nat>)
    requires ins.Set?
    ensures Same(p, g, ins, at)
  {
    hide Eval, Assign, After, Marked, SameMarks;
    EvalMarked(ins.src, p.table, at, p.args);
    var e := Eval(ins.src, p.table, p.args);
    AfterCore(p, e, at);
    if e.out.Ok? {
      AssignMarked(ins.dst, e.out.value, e.table, at, p.args);
      AfterCore(p, Assign(ins.dst, e.out.value, e.table, p.args), at);
    }
  }

  lemma {:induction false} ArithCore(p: Proc, g: Globals.Store, ins: Instr, at: seq<nat>)
    requires ins.Arith?
    ensures Same(p, g, ins, at)
  {
    hide EvalBoth, Assign, After, Marked, Compute, SameMarks;
    BothCore(p, ins.left, ins.right, at);
    var b := EvalBoth(p, ins.left, ins.right);
    if b.ok {
      var v := Compute(ins.op, b.left, b.right);
      if v.Some? {
        AssignMarked(ins.dst, v.value, b.after.table, at, p.args);
        AfterCore(b.after, Assign(ins.dst, v.value, b.after.table, p.args), at);
      }
    }
  }

  /** Instructions that do not jump. */
  lemma {:induction false} ExecuteCore(p: Proc, g: Globals.Store, ins: Instr, at: seq<nat>)
    requires !Jumps(ins)
    ensures Same(p, g, ins, at)
  {
    hide Eval, Assign, Locate, EvalBoth, PrintArgs, Marked, SameMarks;
    match ins
    case Load(_, _) => LoadCore(p, g, ins, at);
    case Store(_, _) => StoreCore(p, g, ins, at);
    case Set(_, _) => SetCore(p, g, ins, at);
    case Arith(_, _, _, _) => ArithCore(p, g, ins, at);
    case Down(glob) => LocateCore(p, glob, at);
    case Up(glob) => LocateCore(p, glob, at);
    case Sleep(amount) => EvalMarked(amount, p.table, at, p.args);
    case Print(text, args) => PrintCore(p, args, text, [], at);
    case _ =>
  }

  // ----- files -----

  /** A file that holds a program in some layout, behind its magic line, which ends with
      `blanks`, such as a carriage return. */
  datatype File = File(text: string, blanks: string, code: seq<Line>, ys: seq<Layout>, coda: string)

  /** The source from line `k` on. */
  function Tail(f: File, k: nat): string
    requires Laid(f) && k <= |f.code|
  {
    Source(f.code[k..], f.ys[k..], f.coda)
  }

  ghost predicate Laid(f: File) {
    && |f.code| == |f.ys| && AllSpace(f.coda)
    && forall i | 0 <= i < |f.code| :: WellFormed(f.code[i]) && Fits(f.code[i], f.ys[i])
  }

  ghost predicate Carries(f: File) {
    && Laid(f) && !Dangles(f.code, f.ys) && AllBlank(f.blanks) && (f.blanks == "" || f.code != [])
    && f.text == MAGIC + f.blanks + "\n" + Tail(f, 0)
  }

  /** What stands behind the label of line `k`. */
  function Named(f: File, k: nat): string
    requires Laid(f) && k < |f.code|
  {
    Mnemonic(CodeOf(f.code[k].instr)) + Body(f.code[k].instr, f.ys[k].gaps, f.ys[k].trail, Tail(f, k + 1))
  }

  /** The position of the label of line `k`. */
  function LeftAt(f: File, k: nat): nat
    requires Laid(f) && k < |f.code|
  {
    |f.ys[k].head + Named(f, k)| - 1
  }

  ghost function Lefts(f: File): (r: seq<nat>)
    requires Laid(f)
    ensures |r| == |f.code| && forall k | 0 <= k < |f.code| :: r[k] == LeftAt(f, k)
  {
    seq(|f.code|, k requires 0 <= k < |f.code| => LeftAt(f, k))
  }

  lemma {:induction false} TailIs(f: File, k: nat)
    requires Laid(f) && k < |f.code|
    ensures Tail(f, k) == LineText(f.code[k], f.ys[k], Tail(f, k + 1))
  {
    assert f.code[k..][1..] == f.code[k + 1..] && f.ys[k..][1..] == f.ys[k + 1..];
  }

  predicate Ends(s: string, t: string) {
    |t| <= |s| && s[|s| - |t|..] == t
  }

  lemma EndsTwice(s: string, t: string, u: string)
    requires Ends(s, t) && Ends(t, u)
    ensures Ends(s, u)
  {}

  lemma EndsAfter(a: string, t: string)
    ensures Ends(a + t, t)
  {}

  lemma {:induction false} BodyEnds(ws: seq<string>, gs: seq<string>, trail: string, rest: string)
    requires |ws| == |gs|
    ensures Ends(Spread(ws, gs, trail + "\n" + rest), rest) && |Spread(ws, gs, trail + "\n" + rest)| > |rest|
  {
    var end := trail + "\n" + rest;
    EndsAfter(trail + "\n", rest);
    if ws != [] {
      BodyEnds(ws[1..], gs[1..], trail, rest);
      var t := Spread(ws[1..], gs[1..], end);
      EndsAfter(gs[0], ws[0] + t);
      EndsAfter(ws[0], t);
      EndsTwice(gs[0] + (ws[0] + t), ws[0] + t, t);
      EndsTwice(gs[0] + (ws[0] + t), t, rest);
    }
  }

  /** Each line's label is followed by the lines behind it, and by more than they are. */
  lemma {:induction false} LineEnds(f: File, k: nat)
    requires Laid(f) && k < |f.code|
    ensures Ends(Tail(f, k), Named(f, k)) && Ends(Named(f, k), Tail(f, k + 1)) && |Named(f, k)| > |Tail(f, k + 1)|
    ensures f.code[k].tag.Some? ==> Ends(Tail(f, k), f.ys[k].head + Named(f, k))
  {
    hide Mnemonic, ArgumentWords, CodeOf, WellFormed;
    TailIs(f, k);
    var l, y, n, rest := f.code[k], f.ys[k], Named(f, k), Tail(f, k + 1);
    var b := Body(l.instr, y.gaps, y.trail, rest);
    var w := Mnemonic(CodeOf(l.instr));
    BodyEnds(ArgumentWords(l.instr), y.gaps, y.trail, rest);
    EndsAfter(w, b);
    EndsTwice(n, b, rest);
    if l.tag.None? {
      EndsAfter(y.lead, n);
    } else {
      var u := y.head + n;
      EndsAfter(y.head, n);
      EndsAfter(l.tag.value, u);
      EndsAfter(y.lead, l.tag.value + u);
      EndsTwice(Tail(f, k), l.tag.value + u, u);
      EndsTwice(Tail(f, k), u, n);
    }
  }

  lemma {:induction false} TailEnds(f: File, k: nat)
    requires Carries(f) && k <= |f.code|
    ensures Ends(f.text, Tail(f, k))
  {
    if k == 0 {
      EndsAfter(MAGIC + f.blanks + "\n", Tail(f, 0));
    } else {
      TailEnds(f, k - 1);
      LineEnds(f, k - 1);
      EndsTwice(Tail(f, k - 1), Named(f, k - 1), Tail(f, k));
      EndsTwice(f.text, Tail(f, k - 1), Tail(f, k));
    }
  }

  /** A jump to a label finds what stands behind it. */
  lemma {:induction false} SeekFinds(f: File, k: nat)
    requires Carries(f) && k < |f.code| && f.code[k].tag.Some?
    ensures Seek(f.text, LeftAt(f, k)) == (" " + f.ys[k].head[1..]) + Named(f, k)
    ensures AllSpace(" " + f.ys[k].head[1..])
  {
    hide Tail, WellFormed;
    TailEnds(f, k);
    LineEnds(f, k);
    var h, n := f.ys[k].head, Named(f, k);
    EndsTwice(f.text, Tail(f, k), h + n);
    var left := LeftAt(f, k);
    assert (h + n)[1..] == h[1..] + n;
    assert f.text[|f.text| - left..] == f.text[|f.text| - left - 1..][1..];
    BlankIsSpace(h);
  }

  lemma {:induction false} TailsShrink(f: File, j: nat, k: nat)
    requires Laid(f) && j <= k <= |f.code|
    ensures |Tail(f, j)| >= |Tail(f, k)|
    decreases k - j
  {
    hide Tail, Named, WellFormed;
    if j < k {
      LineEnds(f, j);
      TailsShrink(f, j + 1, k);
    }
  }

  /** Labels on different lines are at different positions. */
  lemma {:induction false} LeftsDiffer(f: File, j: nat, k: nat)
    requires Laid(f) && j < k < |f.code| && f.code[k].tag.Some?
    ensures LeftAt(f, j) > LeftAt(f, k)
  {
    hide Tail, Named, WellFormed;
    LineEnds(f, j);
    LineEnds(f, k);
    TailsShrink(f, j + 1, k);
    assert GoodGap(f.ys[j].head);
  }
}
