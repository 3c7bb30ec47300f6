/** A program's table of variables and labels as it works: arrays whose first cell holds
    their length, or -1 for a label, found by name and grown in place. */
module VarTable {
  import opened Syntax
  import opened Locals

  const MARK: int := -1

  datatype Insertion = Inserted | IsVariable | Redefined

  class Vars {
    var slots: map<string, array<int>>
    const argv: seq<int>
    ghost var Repr: set<object>

    /** A slot holds a label with its position, or a length and that many cells. */
    static predicate Formed(a: seq<int>) {
      |a| >= 2 && if a[0] == MARK then a[1] >= 0 else |a| == a[0] + 1
    }

    static function EntryOf(a: seq<int>): Entry
      requires Formed(a)
    {
      if a[0] == MARK then Mark(a[1]) else Cells(a[1..])
    }

    ghost predicate Valid()
      reads this, Repr
    {
      && this in Repr && |argv| >= 2 && argv[1] == |argv| - 2
      && (forall n | n in slots :: slots[n] in Repr && Formed(slots[n][..]))
      && (forall n, m | n in slots && m in slots && n != m :: slots[n] != slots[m])
    }

    ghost function Contents(): Table
      requires Valid()
      reads this, Repr
    {
      map n | n in slots :: EntryOf(slots[n][..])
    }

    function Arguments(): Args
      requires |argv| >= 2
    {
      Args(argv[0], argv[2..])
    }

    constructor (id: int, args: seq<int>)
      ensures Valid() && Repr == {this} && Contents() == map[]
      ensures |argv| >= 2 && Arguments() == Args(id, args)
    {
      argv := [id, |args|] + args;
      slots := map[];
      Repr := {this};
    }

    lemma ContentsAt(n: string)
      requires Valid()
      ensures n in Contents() <==> n in slots
      ensures n in slots ==> Formed(slots[n][..]) && Contents()[n] == EntryOf(slots[n][..])
      ensures |argv| >= 2 && argv[1] == |argv| - 2 && this in Repr && (n in slots ==> slots[n] in Repr)
    {}

    /** What a new binding means for the table. */
    twostate lemma Bound(n: string, new a: array<int>)
      requires old(Valid())
      requires Valid() && Formed(a[..])
      requires slots == old(slots)[n := a]
      requires forall m | m in slots && m != n :: slots[m][..] == old(slots[m][..])
      ensures Contents() == old(Contents())[n := EntryOf(a[..])]
    {
      hide EntryOf;
      assert slots[n] == a;
    }

    /** Binds a name to an array that no other name has. */
    method Bind(n: string, a: array<int>)
      requires Valid() && Formed(a[..]) && (a !in Repr || (n in slots && a == slots[n]))
      modifies this
      ensures Valid() && slots == old(slots)[n := a] && Repr == old(Repr) + {a}
      ensures Contents() == old(Contents())[n := EntryOf(a[..])]
    {
      slots := slots[n := a];
      Repr := Repr + {a};
      Bound(n, a);
    }

    /** Notes the position of a label, unless its name is taken: by a variable, or by the same
        label at another position. */
    method InsertLabel(n: string, left: nat) returns (r: Insertion)
      requires Valid()
      modifies this
      ensures Valid() && fresh(Repr - old(Repr)) && old(Repr) <= Repr
      ensures var t := old(Contents());
        && Contents() == (if n in t then t else t[n := Mark(left)])
        && r == if n !in t || t[n] == Mark(left) then Inserted else if t[n].Cells? then IsVariable else Redefined
    {
      hide Contents, Valid;
      ContentsAt(n);
      if n in slots {
        if slots[n][0] != MARK { return IsVariable; }
        return if slots[n][1] == left then Inserted else Redefined;
      }
      var a := new int[][MARK, left];
      Bind(n, a);
      return Inserted;
    }

    /** More memory with the same beginning; what follows it is not initialised. */
    static method Realloc(a: array<int>, size: nat) returns (b: array<int>)
      requires a.Length <= size
      ensures fresh(b) && b.Length == size && b[..a.Length] == a[..]
    {
      b := new int[size];
      for i := 0 to a.Length
        invariant forall k | 0 <= k < i :: b[k] == a[k]
      {
        b[i] := a[i];
      }
    }

    /** The array of a variable that exists, long enough for cell `i`, which is its element
        `i + 1`. The fill begins at the old last cell. */
    method Grow(a: array<int>, i: nat) returns (b: array<int>)
      requires Formed(a[..]) && a[0] != MARK
      ensures b == a || fresh(b)
      ensures Formed(b[..]) && b[0] != MARK && i < b.Length - 1
      ensures b[1..] == if i < |a[1..]| then a[1..] else Grown(a[1..], i)
    {
      b := a;
      if i + 1 >= a[0] + 1 {
        b := Realloc(a, i + 2);
        var from := a[0];
        for k := from to i + 2
          invariant b[..from] == a[..from]
          invariant forall j | from <= j < k :: b[j] == 0
        {
          b[k] := 0;
        }
        b[0] := i + 1;
        assert forall k | 0 <= k <= i :: b[1..][k] == Grown(a[1..], i)[k];
      }
    }

    /** The array of a new variable with cells up to `i`. */
    static method Make(i: nat) returns (b: array<int>)
      ensures fresh(b) && Formed(b[..]) && b[0] != MARK && b[1..] == Zeros(i + 1)
    {
      b := new int[i + 2];
      b[0] := i + 1;
      for k := 1 to i + 2
        invariant b[0] == i + 1 && forall j | 1 <= j < k :: b[j] == 0
      {
        b[k] := 0;
      }
    }

    /** The array in which cell `i` of `n` is found: the variable's own, grown if necessary,
        or a new one. */
    method Reach(n: string, i: nat) returns (a: array<int>)
      requires Valid() && (n in slots ==> slots[n][0] != MARK)
      modifies this
      ensures Valid() && fresh(Repr - old(Repr)) && old(Repr) <= Repr
      ensures n in slots && slots[n] == a && i + 1 < a.Length && a[0] != MARK
      ensures Contents() == old(Contents())[n := Cells(Reached(old(Contents()), n, i))]
    {
      hide Contents;
      ContentsAt(n);
      if n in slots {
        a := Grow(slots[n], i);
      } else {
        a := Make(i);
      }
      Bind(n, a);
    }

    /** The value of an operand. The variables on the way are created and grown. */
    method GetValue(x: Operand) returns (out: Outcome)
      requires Valid()
      modifies this
      ensures Valid() && fresh(Repr - old(Repr)) && old(Repr) <= Repr
      ensures Effect(out, Contents()) == Eval(x, old(Contents()), Arguments())
      decreases x
    {
      hide Contents, Reached, Valid;
      ContentsAt(if x.Num? then "" else x.name);
      match x {
        case Num(v) =>
          out := Ok(v);
        case Var(n) =>
          if n == "argc" { return Ok(argv[1]); }
          if n in slots {
            if slots[n][0] == MARK { return Stop(NameIsLabel); }
            if slots[n][0] > 1 { return Stop(ArrayUsedByName); }
            out := Ok(slots[n][1]);
          } else {
            var a := Make(0);
            assert a[1..] == [0];
            Bind(n, a);
            out := Ok(0);
          }
        case Elem(n, ix) =>
          if n == "argv" {
            out := GetValue(ix);
            if out.Ok? {
              var i := out.value;
              if i >= argv[1] { return Stop(OutsideArgv); }
              if i < -2 { return Undefined; }
              out := Ok(argv[i + 2]);
            }
          } else {
            if n in slots && slots[n][0] == MARK { return Stop(NameIsLabel); }
            out := GetValue(ix);
            if !out.Ok? { return; }
            if out.value < 0 { return Stop(NegativeIndex); }
            var i := out.value;
            ContentsAt(n);
            var a := Reach(n, i);
            ContentsAt(n);
            out := Ok(a[i + 1]);
          }
      }
    }

    /** Assigns to an operand; a number refuses without an error. */
    method SetValue(x: Operand, v: int) returns (out: Outcome)
      requires Valid()
      modifies Repr
      ensures Valid() && fresh(Repr - old(Repr)) && old(Repr) <= Repr
      ensures Effect(out, Contents()) == Assign(x, v, old(Contents()), Arguments())
    {
      hide Contents, Reached, Valid, Eval;
      ContentsAt(if x.Num? then "" else x.name);
      match x {
        case Num(_) =>
          out := Refused;
        case Var(n) =>
          if n == "argc" { return Stop(ConstantArgument); }
          if n in slots {
            if slots[n][0] == MARK { return Stop(NameIsLabel); }
            if slots[n][0] > 1 { return Stop(ArrayUsedByName); }
            SetCell(n, 0, v);
            assert old(Contents()[n].cells)[0 := v] == [v];
          } else {
            var a := Make(0);
            a[1] := v;
            assert a[1..] == [v];
            Bind(n, a);
          }
          out := Ok(v);
        case Elem(n, ix) =>
          if n == "argv" { return Stop(ConstantArgument); }
          if n in slots && slots[n][0] == MARK { return Stop(NameIsLabel); }
          out := GetValue(ix);
          if !out.Ok? { return; }
          if out.value < 0 { return Stop(NegativeIndex); }
          var i := out.value;
          ghost var t := Contents();
          ContentsAt(n);
          var a := Reach(n, i);
          ContentsAt(n);
          SetCell(n, i, v);
          assert Contents() == t[n := Cells(Reached(t, n, i)[i := v])];
          out := Ok(v);
      }
    }

    /** Writes one cell in place. */
    method SetCell(n: string, i: nat, v: int)
      requires Valid() && n in slots && slots[n][0] != MARK && i + 1 < slots[n].Length
      modifies slots[n]
      ensures Valid() && Contents()[n].Cells?
      ensures Contents() == old(Contents())[n := Cells(old(Contents()[n].cells)[i := v])]
    {
      ghost var t := Contents();
      var a := slots[n];
      ghost var before := a[..];
      a[i + 1] := v;
      assert a[1..] == before[1..][i := v];
    }
  }
}
