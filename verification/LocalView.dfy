/** Local variables as their documentation describes them, a map that is 0 wherever nothing
    was assigned, and exactly how far the interpreter's lazily grown arrays agree. */
module LocalView {
  import opened Syntax
  import opened Locals

  type View = (string, int) -> int

  function Cell(t: Table, n: string, i: int): int {
    if n in t && t[n].Cells? && 0 <= i < |t[n].cells| then t[n].cells[i] else 0
  }

  function ViewOf(t: Table): View {
    (n: string, i: int) => Cell(t, n, i)
  }

  /** Evaluation without any table: nothing is created, grown or refused. */
  function Pure(x: Operand, v: View, a: Args): int {
    match x
    case Num(k) => k
    case Var(n) => if n == "argc" then |a.args| else v(n, 0)
    case Elem(n, ix) =>
      var i := Pure(ix, v, a);
      if n == "argv" then (if Argument(a, i).Ok? then Argument(a, i).value else 0)
      else v(n, i)
  }

  /** Reaching index `i` grows the array over a last cell that is in use. */
  predicate Overreaches(t: Table, n: string, i: int) {
    n in t && t[n].Cells? && i >= |t[n].cells| && t[n].cells[|t[n].cells| - 1] != 0
  }

  /** The cells that evaluating (or assigning) an operand resets to 0: the last cell of each
      array that is grown on the way, if it was in use. */
  function Erased(x: Operand, t: Table, a: Args): set<(string, int)> {
    match x
    case Num(_) => {}
    case Var(_) => {}
    case Elem(n, ix) =>
      var e := Eval(ix, t, a);
      Erased(ix, t, a) +
      if n != "argv" && e.out.Ok? && Overreaches(e.table, n, e.out.value) then {(n, |e.table[n].cells| - 1)} else {}
  }

  /** What reading an operand does to every cell: the erased ones become 0, all others keep
      their values. Arrays never shrink. */
  lemma {:induction false} ReadEffect(x: Operand, t: Table, a: Args)
    requires Eval(x, t, a).out.Ok?
    ensures var u := Eval(x, t, a).table;
      && (forall n, i :: Cell(u, n, i) == if (n, i) in Erased(x, t, a) then 0 else Cell(t, n, i))
      && (forall n, i | (n, i) in Erased(x, t, a) :: Cell(t, n, i) != 0)
      && (forall n | n in t && t[n].Cells? :: n in u && u[n].Cells? && |t[n].cells| <= |u[n].cells|)
  {
    hide Eval, Erased;
    EvalStep(x, t, a);
    if x.Elem? {
      var e := Eval(x.index, t, a);
      ReadEffect(x.index, t, a);
      if x.name != "argv" { ReachEffect(e.table, x.name, e.out.value); }
    }
  }

  /** Reaching an index erases at most the old last cell of that variable. */
  lemma ReachEffect(t: Table, n: string, i: nat)
    requires n in t ==> t[n].Cells?
    ensures var u := t[n := Cells(Reached(t, n, i))];
      && (forall m, j :: Cell(u, m, j) ==
            if Overreaches(t, n, i) && m == n && j == |t[n].cells| - 1 then 0 else Cell(t, m, j))
      && (n in t ==> |t[n].cells| <= |u[n].cells|)
  {}

  /** One level of a successful evaluation. */
  lemma EvalStep(x: Operand, t: Table, a: Args)
    requires Eval(x, t, a).out.Ok?
    ensures x.Num? ==> Eval(x, t, a).table == t && Erased(x, t, a) == {}
    ensures x.Var? ==> Erased(x, t, a) == {}
    ensures x.Var? ==> Eval(x, t, a).table == t || (x.name !in t && Eval(x, t, a).table == t[x.name := Cells([0])])
    ensures x.Elem? ==> var e := Eval(x.index, t, a);
      && e.out.Ok?
      && (x.name == "argv" ==> Eval(x, t, a).table == e.table && Erased(x, t, a) == Erased(x.index, t, a))
      && (x.name != "argv" ==>
           && e.out.value >= 0 && (x.name in e.table ==> e.table[x.name].Cells?)
           && Eval(x, t, a).table == e.table[x.name := Cells(Reached(e.table, x.name, e.out.value))]
           && Erased(x, t, a) == Erased(x.index, t, a) +
              if Overreaches(e.table, x.name, e.out.value) then {(x.name, |e.table[x.name].cells| - 1)} else {})
  {}

  /** A read leaves every cell as it is exactly if no array is grown over a last cell in use. */
  lemma {:induction false} ReadIsInvisible(x: Operand, t: Table, a: Args)
    requires Eval(x, t, a).out.Ok?
    ensures Erased(x, t, a) == {} <==> forall n, i :: Cell(Eval(x, t, a).table, n, i) == Cell(t, n, i)
  {
    ReadEffect(x, t, a);
    if Erased(x, t, a) != {} {
      var c :| c in Erased(x, t, a);
      assert Cell(t, c.0, c.1) != 0 && Cell(Eval(x, t, a).table, c.0, c.1) == 0;
    }
  }

  /** At some level the operand reads a cell that evaluating its own index has erased. */
  predicate Clobbered(x: Operand, t: Table, a: Args) {
    match x
    case Num(_) => false
    case Var(_) => false
    case Elem(n, ix) =>
      var e := Eval(ix, t, a);
      Clobbered(ix, t, a) || (n != "argv" && e.out.Ok? && (n, e.out.value) in Erased(ix, t, a))
  }

  /** The operand and all its indices have the values that the documentation gives. */
  predicate AgreesThroughout(x: Operand, t: Table, a: Args) {
    && Eval(x, t, a).out == Ok(Pure(x, ViewOf(t), a))
    && (x.Elem? ==> AgreesThroughout(x.index, t, a))
  }

  /** Nested reads compute what the documentation says, at every level, exactly if none of
      them reads a cell that its index has erased. */
  lemma {:induction false} ReadAgrees(x: Operand, t: Table, a: Args)
    requires Eval(x, t, a).out.Ok?
    ensures AgreesThroughout(x, t, a) <==> !Clobbered(x, t, a)
  {
    if x.Elem? {
      ReadAgrees(x.index, t, a);
      ReadEffect(x.index, t, a);
      var e := Eval(x.index, t, a);
      var c := (x.name, e.out.value);
      hide Erased;
      if x.name != "argv" {
        ReadsCell(x, t, a);
        assert c in Erased(x.index, t, a) ==> Cell(t, c.0, c.1) != 0;
      }
    }
  }

  /** The top level of a read: the cell as evaluating the index has left it. */
  lemma ReadsCell(x: Operand, t: Table, a: Args)
    requires x.Elem? && x.name != "argv" && Eval(x, t, a).out.Ok?
    ensures var e := Eval(x.index, t, a);
      e.out.Ok? && Eval(x, t, a).out.value == Cell(e.table, x.name, e.out.value)
  {}

  /** With $a[0] set to 7, `$a[$a[3]]` is read as 0, where the documentation gives 7. */
  lemma {:induction false} ClobberedReadIsWrong()
    ensures var x, t := Elem("a", Elem("a", Num(3))), map["a" := Cells([7])];
      && Clobbered(x, t, Args(1, []))
      && Eval(x, t, Args(1, [])).out == Ok(0) && Pure(x, ViewOf(t), Args(1, [])) == 7
  {
    var t: Table, args := map["a" := Cells([7])], Args(1, []);
    var ix := Elem("a", Num(3));
    var e := Eval(ix, t, args);
    assert e.out == Ok(0) && e.table["a"] == Cells([0, 0, 0, 0]);
    assert ("a", 0) in Erased(ix, t, args);
  }

  /** The cell that an assignment addresses. */
  function Target(x: Operand, t: Table, a: Args): (string, int)
    requires !x.Num?
  {
    (x.name, if x.Elem? && Eval(x.index, t, a).out.Ok? then Eval(x.index, t, a).out.value else 0)
  }

  /** What an assignment does to every cell. */
  lemma {:induction false} WriteEffect(x: Operand, v: int, t: Table, a: Args)
    requires Assign(x, v, t, a).out.Ok?
    ensures var u := Assign(x, v, t, a).table;
      && (forall n, i :: Cell(u, n, i) ==
            if (n, i) == Target(x, t, a) then v else if (n, i) in Erased(x, t, a) then 0 else Cell(t, n, i))
      && (forall n | n in t && t[n].Cells? :: n in u && u[n].Cells? && |t[n].cells| <= |u[n].cells|)
  {
    hide Eval, Assign, Erased;
    AssignStep(x, v, t, a);
    if x.Elem? {
      var e := Eval(x.index, t, a);
      ReadEffect(x.index, t, a);
      hide Reached;
      PutEffect(e.table, x.name, e.out.value, v);
    }
  }

  /** Setting a cell changes it, and otherwise does what reaching it does. */
  lemma PutEffect(t: Table, n: string, i: nat, v: int)
    requires n in t ==> t[n].Cells?
    ensures i < |Reached(t, n, i)|
    ensures var u := t[n := Cells(Reached(t, n, i)[i := v])];
      && (forall m, j :: Cell(u, m, j) ==
            if m == n && j == i then v
            else if Overreaches(t, n, i) && m == n && j == |t[n].cells| - 1 then 0 else Cell(t, m, j))
      && (n in t ==> |t[n].cells| <= |u[n].cells|)
  {}

  /** One level of a successful assignment. */
  lemma {:induction false} AssignStep(x: Operand, v: int, t: Table, a: Args)
    requires Assign(x, v, t, a).out.Ok?
    ensures !x.Num?
    ensures x.Var? ==> Erased(x, t, a) == {} && Assign(x, v, t, a).table == t[x.name := Cells([v])]
    ensures x.Var? && x.name in t ==> t[x.name].Cells? && |t[x.name].cells| <= 1
    ensures x.Elem? ==> var e := Eval(x.index, t, a);
      && e.out.Ok? && e.out.value >= 0 && (x.name in e.table ==> e.table[x.name].Cells?)
      && e.out.value < |Reached(e.table, x.name, e.out.value)|
      && Assign(x, v, t, a).table ==
           e.table[x.name := Cells(Reached(e.table, x.name, e.out.value)[e.out.value := v])]
      && Erased(x, t, a) == Erased(x.index, t, a) +
           if Overreaches(e.table, x.name, e.out.value) then {(x.name, |e.table[x.name].cells| - 1)} else {}
  {
    hide Eval, Reached, Overreaches;
  }

  /** An assignment changes its own cell and no other exactly if it erases no other. */
  lemma {:induction false} WriteIsLocal(x: Operand, v: int, t: Table, a: Args)
    requires Assign(x, v, t, a).out.Ok?
    ensures Erased(x, t, a) <= {Target(x, t, a)} <==>
      forall n, i :: Cell(Assign(x, v, t, a).table, n, i) == if (n, i) == Target(x, t, a) then v else Cell(t, n, i)
  {
    WriteEffect(x, v, t, a);
    ErasedWasInUse(x, t, a);
    var u := Assign(x, v, t, a).table;
    if !(Erased(x, t, a) <= {Target(x, t, a)}) {
      var c :| c in Erased(x, t, a) && c != Target(x, t, a);
      assert Cell(t, c.0, c.1) != 0 && Cell(u, c.0, c.1) == 0;
    }
  }

  /** The cell that it addresses by the documentation. */
  function PureTarget(x: Operand, v: View, a: Args): (string, int)
    requires !x.Num?
  {
    (x.name, if x.Elem? then Pure(x.index, v, a) else 0)
  }

  /** An assignment does exactly what it does to a map that is 0 by default - it sets the cell
      that the documentation addresses, and no other - if and only if its index reads no
      erased cell and it erases no cell but its own. */
  lemma {:induction false} WriteAgrees(x: Operand, v: int, t: Table, a: Args)
    requires Assign(x, v, t, a).out.Ok?
    ensures x.Elem? && !Clobbered(x.index, t, a) ==> Target(x, t, a) == PureTarget(x, ViewOf(t), a)
    ensures (x.Elem? ==> !Clobbered(x.index, t, a)) && Erased(x, t, a) <= {Target(x, t, a)} <==>
      && (x.Elem? ==> AgreesThroughout(x.index, t, a))
      && forall n, i :: Cell(Assign(x, v, t, a).table, n, i) ==
           if (n, i) == PureTarget(x, ViewOf(t), a) then v else Cell(t, n, i)
  {
    hide Erased, Assign, Eval;
    AssignStep(x, v, t, a);
    if x.Elem? { ReadAgrees(x.index, t, a); }
    WriteIsLocal(x, v, t, a);
  }

  lemma {:induction false} ErasedWasInUse(x: Operand, t: Table, a: Args)
    requires x.Elem? ==> Eval(x.index, t, a).out.Ok?
    ensures forall n, i | (n, i) in Erased(x, t, a) :: Cell(t, n, i) != 0
  {
    if x.Elem? { ReadEffect(x.index, t, a); }
  }

  /** The documentation's promise fails: with $a[0] set to 7, reading $a[3] resets it. */
  lemma ReadCanErase()
    ensures var t: Table := map["a" := Cells([7])];
      var e := Eval(Elem("a", Num(3)), t, Args(1, []));
      e.out == Ok(0) && Cell(t, "a", 0) == 7 && Cell(e.table, "a", 0) == 0
  {}
}
