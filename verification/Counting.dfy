/** Counting the elements of a sequence that satisfy a predicate. */
module Counting {

  /** The number of elements that satisfy a predicate. */
  function Tally<T>(xs: seq<T>, f: T -> bool): (n: nat)
    ensures n <= |xs|
  {
    if xs == [] then 0
    else (if f(xs[0]) then 1 else 0) + Tally(xs[1..], f)
  }

  lemma {:induction false} TallyUpdate<T>(xs: seq<T>, f: T -> bool, i: nat, b: T)
    requires i < |xs|
    ensures Tally(xs[i := b], f)
         == Tally(xs, f) - (if f(xs[i]) then 1 else 0) + (if f(b) then 1 else 0)
  {
    if i > 0 {
      assert xs[i := b][1..] == xs[1..][i - 1 := b];
      TallyUpdate(xs[1..], f, i - 1, b);
    } else {
      assert xs[i := b][1..] == xs[1..];
    }
  }

  lemma {:induction false} TallyOne<T>(xs: seq<T>, f: T -> bool, i: nat)
    requires i < |xs| && f(xs[i])
    ensures Tally(xs, f) >= 1
  {
    if i > 0 { TallyOne(xs[1..], f, i - 1); }
  }

  lemma {:induction false} TallyTwo<T>(xs: seq<T>, f: T -> bool, i: nat, j: nat)
    requires i < j < |xs| && f(xs[i]) && f(xs[j])
    ensures Tally(xs, f) >= 2
  {
    if i == 0 { TallyOne(xs[1..], f, j - 1); }
    else { TallyTwo(xs[1..], f, i - 1, j - 1); }
  }

  lemma {:induction false} TallyWitness<T>(xs: seq<T>, f: T -> bool) returns (i: nat)
    requires Tally(xs, f) >= 1
    ensures i < |xs| && f(xs[i])
  {
    if f(xs[0]) { i := 0; }
    else {
      i := TallyWitness(xs[1..], f);
      i := i + 1;
    }
  }

  lemma {:induction false} TallyMonotone<T(!new)>(xs: seq<T>, f: T -> bool, g: T -> bool)
    requires forall a :: f(a) ==> g(a)
    ensures Tally(xs, f) <= Tally(xs, g)
  {
    if xs != [] { TallyMonotone(xs[1..], f, g); }
  }

  lemma {:induction false} TallyNone<T>(xs: seq<T>, f: T -> bool)
    requires forall a | a in xs :: !f(a)
    ensures Tally(xs, f) == 0
  {
    if xs != [] { TallyNone(xs[1..], f); }
  }

  function Bit(b: bool): int {
    if b then 1 else 0
  }

  function Sum(xs: seq<nat>): nat {
    if xs == [] then 0 else xs[0] + Sum(xs[1..])
  }

  lemma {:induction false} SumUpdate(xs: seq<nat>, i: nat, b: nat)
    requires i < |xs|
    ensures Sum(xs[i := b]) == Sum(xs) - xs[i] + b
  {
    if i > 0 {
      assert xs[i := b][1..] == xs[1..][i - 1 := b];
      SumUpdate(xs[1..], i - 1, b);
    } else {
      assert xs[i := b][1..] == xs[1..];
    }
  }

  lemma {:induction false} SumBound(xs: seq<nat>, b: nat)
    requires forall i | 0 <= i < |xs| :: xs[i] <= b
    ensures Sum(xs) <= |xs| * b
  {
    if xs != [] {
      SumBound(xs[1..], b);
      assert |xs| * b == |xs[1..]| * b + b;
    }
  }

  lemma {:induction false} TallyAll<T>(xs: seq<T>, f: T -> bool)
    requires forall i | 0 <= i < |xs| :: f(xs[i])
    ensures Tally(xs, f) == |xs|
  {
    if xs != [] { TallyAll(xs[1..], f); }
  }

  lemma {:induction false} TallyAllBut<T>(xs: seq<T>, f: T -> bool, b: nat)
    requires b < |xs| && forall i | 0 <= i < |xs| :: f(xs[i]) <==> i != b
    ensures Tally(xs, f) == |xs| - 1
  {
    if b == 0 { TallyAll(xs[1..], f); } else { TallyAllBut(xs[1..], f, b - 1); }
  }
}
