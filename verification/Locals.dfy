/** A program's own variables: the table that the interpreter fills lazily while it
    evaluates and assigns operands. Labels share this table. */
module Locals {
  import opened Syntax

  /** A variable has at least one cell. */
  type Row = c: seq<int> | |c| >= 1 witness [0]

  /** What a name is bound to: the cells of a variable, or the position of a label. */
  datatype Entry = Cells(cells: Row) | Mark(line: nat)

  type Table = map<string, Entry>

  /** Why the interpreter stops a program with an error. */
  datatype Error =
    | NameIsLabel
    | ArrayUsedByName
    | NegativeIndex
    | OutsideArgv
    | ConstantArgument
    | LabelIsVariable
    | LabelRedefined
    | LabelUndefined
    | BadSyntax

  /** Result of one evaluation or assignment. Refused is a handler that gives up without
      stopping the program; Undefined is behaviour that C does not define. */
  datatype Outcome = Ok(value: int) | Stop(error: Error) | Refused | Undefined

  datatype Effect = Effect(out: Outcome, table: Table)

  /** The command line a program was started with. */
  datatype Args = Args(id: int, args: seq<int>)

  function Zeros(n: nat): (z: seq<int>)
    ensures |z| == n && forall i | 0 <= i < n :: z[i] == 0
  {
    seq(n, i => 0)
  }

  /** The array grown so that index `i` exists. The fill starts on the old last cell, so
      that cell becomes 0 as well. */
  function Grown(cells: seq<int>, i: nat): (r: seq<int>)
    requires 0 < |cells| <= i
    ensures |r| == i + 1
    ensures forall k | 0 <= k <= i :: r[k] == if k < |cells| - 1 then cells[k] else 0
  {
    cells[..|cells| - 1] + Zeros(i + 2 - |cells|)
  }

  /** The cells of a present or absent variable once index `i` has been reached. */
  function Reached(t: Table, n: string, i: nat): (r: Row)
    requires n in t ==> t[n].Cells?
    ensures i < |r|
  {
    if n !in t then Zeros(i + 1)
    else if i < |t[n].cells| then t[n].cells
    else Grown(t[n].cells, i)
  }

  /** `$argv[i]`: the lookup is offset by two into a vector that begins with the program's
      number and its argument count, and only its upper end is checked. */
  function Argument(a: Args, i: int): Outcome {
    if i >= |a.args| then Stop(OutsideArgv)
    else if i >= 0 then Ok(a.args[i])
    else if i == -1 then Ok(|a.args|)
    else if i == -2 then Ok(a.id)
    else Undefined
  }

  /** Labels are neither added nor moved. */
  ghost predicate SameMarks(t: Table, u: Table) {
    forall n :: (n in t && t[n].Mark?) || (n in u && u[n].Mark?) ==> n in t && n in u && t[n] == u[n]
  }

  function Eval(x: Operand, t: Table, a: Args): (e: Effect)
    ensures SameMarks(t, e.table)
    ensures !e.out.Refused?
    decreases x
  {
    match x
    case Num(v) => Effect(Ok(v), t)
    case Var(n) =>
      if n == "argc" then Effect(Ok(|a.args|), t)
      else if n !in t then Effect(Ok(0), t[n := Cells([0])])
      else if t[n].Mark? then Effect(Stop(NameIsLabel), t)
      else if |t[n].cells| > 1 then Effect(Stop(ArrayUsedByName), t)
      else Effect(Ok(t[n].cells[0]), t)
    case Elem(n, ix) =>
      if n == "argv" then
        var e := Eval(ix, t, a);
        if e.out.Ok? then Effect(Argument(a, e.out.value), e.table) else e
      else if n in t && t[n].Mark? then Effect(Stop(NameIsLabel), t)
      else
        var e := Eval(ix, t, a);
        if !e.out.Ok? then e
        else if e.out.value < 0 then Effect(Stop(NegativeIndex), e.table)
        else
          var i := e.out.value;
          var cells := Reached(e.table, n, i);
          Effect(Ok(cells[i]), e.table[n := Cells(cells)])
  }

  function Assign(x: Operand, v: int, t: Table, a: Args): (e: Effect)
    ensures SameMarks(t, e.table)
  {
    match x
    case Num(_) => Effect(Refused, t)
    case Var(n) =>
      if n == "argc" then Effect(Stop(ConstantArgument), t)
      else if n !in t then Effect(Ok(v), t[n := Cells([v])])
      else if t[n].Mark? then Effect(Stop(NameIsLabel), t)
      else if |t[n].cells| > 1 then Effect(Stop(ArrayUsedByName), t)
      else Effect(Ok(v), t[n := Cells([v])])
    case Elem(n, ix) =>
      if n == "argv" then Effect(Stop(ConstantArgument), t)
      else if n in t && t[n].Mark? then Effect(Stop(NameIsLabel), t)
      else
        var e := Eval(ix, t, a);
        if !e.out.Ok? then e
        else if e.out.value < 0 then Effect(Stop(NegativeIndex), e.table)
        else
          var i := e.out.value;
          Effect(Ok(v), e.table[n := Cells(Reached(e.table, n, i)[i := v])])
  }
}
