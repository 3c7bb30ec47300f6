/** Which operands can be read and assigned, why the others stop the program, and how long the
    arrays are afterwards. */
module Evaluation {
  import opened Syntax
  import opened Locals

  /** The operand, its index, the index of that, and so on. */
  function Levels(x: Operand): (ys: seq<Operand>)
    ensures |ys| >= 1 && ys[0] == x
  {
    if x.Elem? then [x] + Levels(x.index) else [x]
  }

  /** The operand names what is a label in the table. */
  predicate NamesLabel(x: Operand, t: Table) {
    match x
    case Num(_) => false
    case Var(n) => n != "argc" && n in t && t[n].Mark?
    case Elem(n, _) => n != "argv" && n in t && t[n].Mark?
  }

  /** It stands for an array as a whole. */
  predicate NamesArray(x: Operand, t: Table) {
    x.Var? && x.name != "argc" && x.name in t && t[x.name].Cells? && |t[x.name].cells| > 1
  }

  /** It is a cell of a variable, and its index is below 0. */
  predicate Negative(x: Operand, t: Table, a: Args) {
    x.Elem? && x.name != "argv" && var e := Eval(x.index, t, a).out; e.Ok? && e.value < 0
  }

  /** It is an argument behind the last. */
  predicate TooHigh(x: Operand, t: Table, a: Args) {
    x.Elem? && x.name == "argv" && var e := Eval(x.index, t, a).out; e.Ok? && e.value >= |a.args|
  }

  /** In front of the arguments stand only the number of the program and their count. */
  predicate TooLow(x: Operand, t: Table, a: Args) {
    x.Elem? && x.name == "argv" && var e := Eval(x.index, t, a).out; e.Ok? && e.value < -2
  }

  predicate LabelInside(x: Operand, t: Table) {
    exists y | y in Levels(x) :: NamesLabel(y, t)
  }

  predicate ArrayInside(x: Operand, t: Table) {
    exists y | y in Levels(x) :: NamesArray(y, t)
  }

  predicate NegativeInside(x: Operand, t: Table, a: Args) {
    exists y | y in Levels(x) :: Negative(y, t, a)
  }

  predicate TooHighInside(x: Operand, t: Table, a: Args) {
    exists y | y in Levels(x) :: TooHigh(y, t, a)
  }

  predicate TooLowInside(x: Operand, t: Table, a: Args) {
    exists y | y in Levels(x) :: TooLow(y, t, a)
  }

  /** Each is found at the operand itself or in its index. */
  lemma {:induction false} InsideStep(x: Operand, t: Table, a: Args)
    ensures LabelInside(x, t) <==> NamesLabel(x, t) || (x.Elem? && LabelInside(x.index, t))
    ensures ArrayInside(x, t) <==> NamesArray(x, t) || (x.Elem? && ArrayInside(x.index, t))
    ensures NegativeInside(x, t, a) <==> Negative(x, t, a) || (x.Elem? && NegativeInside(x.index, t, a))
    ensures TooHighInside(x, t, a) <==> TooHigh(x, t, a) || (x.Elem? && TooHighInside(x.index, t, a))
    ensures TooLowInside(x, t, a) <==> TooLow(x, t, a) || (x.Elem? && TooLowInside(x.index, t, a))
  {
    hide NamesLabel, NamesArray, Negative, TooHigh, TooLow;
    assert x in Levels(x);
    if x.Elem? { assert Levels(x) == [x] + Levels(x.index); }
  }

  /** An operand has a value exactly if no level names a label, none names an array without an
      index, and every index is in range: from 0 on, and for arguments from -2 to the last. All
      others stop the program, each for its own reason; labels are found first. */
  lemma {:induction false} EvaluatesExactly(x: Operand, t: Table, a: Args)
    ensures var out := Eval(x, t, a).out;
      && (out.Ok? <==>
           !LabelInside(x, t) && !ArrayInside(x, t) && !NegativeInside(x, t, a) && !TooHighInside(x, t, a)
           && !TooLowInside(x, t, a))
      && (out == Stop(NameIsLabel) <==> LabelInside(x, t))
      && (out == Stop(ArrayUsedByName) <==> !LabelInside(x, t) && ArrayInside(x, t))
      && (out == Stop(NegativeIndex) <==> !LabelInside(x, t) && NegativeInside(x, t, a))
      && (out == Stop(OutsideArgv) <==> !LabelInside(x, t) && TooHighInside(x, t, a))
      && (out == Undefined <==> !LabelInside(x, t) && TooLowInside(x, t, a))
  {
    InsideStep(x, t, a);
    if x.Elem? { EvaluatesExactly(x.index, t, a); }
    hide LabelInside, ArrayInside, NegativeInside, TooHighInside, TooLowInside;
  }

  /** The command line is read as a vector that begins with the number of the program and the
      count of its arguments. */
  lemma {:induction false} ReadsArguments(ix: Operand, i: int, t: Table, a: Args)
    requires Eval(ix, t, a).out == Ok(i) && -2 <= i < |a.args|
    ensures Eval(Elem("argv", ix), t, a).out == Ok(([a.id, |a.args|] + a.args)[i + 2])
    ensures Eval(Var("argc"), t, a) == Effect(Ok(([a.id, |a.args|] + a.args)[1]), t)
  {
    hide Eval;
    ArgumentsStep(ix, t, a);
    assert i >= 0 ==> ([a.id, |a.args|] + a.args)[i + 2] == a.args[i];
  }

  lemma ArgumentsStep(ix: Operand, t: Table, a: Args)
    requires Eval(ix, t, a).out.Ok?
    ensures Eval(Elem("argv", ix), t, a).out == Argument(a, Eval(ix, t, a).out.value)
    ensures Eval(Var("argc"), t, a) == Effect(Ok(|a.args|), t)
  {}

  /** The operands that stand for the command line. */
  predicate IsArgument(x: Operand) {
    x == Var("argc") || (x.Elem? && x.name == "argv")
  }

  /** Numbers and arguments cannot be assigned. Everything else can exactly if it can be read,
      and is refused for the same reason and with the same effect. */
  lemma AssignsExactly(x: Operand, v: int, t: Table, a: Args)
    ensures var e, f := Assign(x, v, t, a), Eval(x, t, a);
      if x.Num? then e == Effect(Refused, t)
      else if IsArgument(x) then e == Effect(Stop(ConstantArgument), t)
      else (e.out.Ok? <==> f.out.Ok?) && if e.out.Ok? then e.out == Ok(v) else e == f
  {}

  // ----- the lengths of the arrays -----

  function Size(t: Table, n: string): nat {
    if n in t && t[n].Cells? then |t[n].cells| else 0
  }

  function Max(i: nat, j: nat): nat {
    if i >= j then i else j
  }

  /** How many cells of a variable an operand reaches, with all its indices. */
  function Demand(x: Operand, n: string, t: Table, a: Args): nat {
    match x
    case Num(_) => 0
    case Var(m) => if m == n && n != "argc" then 1 else 0
    case Elem(m, ix) =>
      var e := Eval(ix, t, a).out;
      Max(Demand(ix, n, t, a), if m == n && n != "argv" && e.Ok? && e.value >= 0 then e.value + 1 else 0)
  }

  /** Reading makes every array as long as it must be, and no longer. */
  lemma {:induction false} ReadSizes(x: Operand, n: string, t: Table, a: Args)
    requires Eval(x, t, a).out.Ok?
    ensures Size(Eval(x, t, a).table, n) == Max(Size(t, n), Demand(x, n, t, a))
  {
    if x.Elem? { ReadSizes(x.index, n, t, a); }
  }

  /** So does assigning. */
  lemma {:induction false} WriteSizes(x: Operand, v: int, n: string, t: Table, a: Args)
    requires Assign(x, v, t, a).out.Ok?
    ensures Size(Assign(x, v, t, a).table, n) == Max(Size(t, n), Demand(x, n, t, a))
  {
    if x.Elem? { ReadSizes(x.index, n, t, a); }
  }
}
