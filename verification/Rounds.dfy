/** Turns that come round: slices as the scheduler gives them, and stretches of a run in which
    everybody has a turn. */
module Rounds {
  import opened Machine

  predicate Positive(t: Turn) {
    0 < t.slice < SLICE
  }

  /** Slices as the scheduler gives them, some possibly empty. */
  predicate Short(turns: seq<Turn>) {
    forall k | 0 <= k < |turns| :: turns[k].slice < SLICE
  }

  /** Turns of the participants, with slices as the scheduler gives them. */
  predicate Fair(w: seq<Turn>, m: nat) {
    forall k | 0 <= k < |w| :: w[k].who < m && Positive(w[k])
  }

  predicate HasTurn(w: seq<Turn>, i: nat) {
    exists k :: 0 <= k < |w| && w[k].who == i
  }

  /** Turns among which every participant has one. */
  ghost predicate Round(w: seq<Turn>, m: nat) {
    Fair(w, m) && forall i: nat | i < m :: HasTurn(w, i)
  }

  // ----- many of them -----

  function Flat<T>(xss: seq<seq<T>>): seq<T> {
    if xss == [] then [] else Flat(xss[..|xss| - 1]) + xss[|xss| - 1]
  }

  lemma {:induction false} FlatLast<T>(xss: seq<seq<T>>, xs: seq<T>)
    ensures Flat(xss + [xs]) == Flat(xss) + xs
  {
    assert (xss + [xs])[..|xss|] == xss;
  }

  lemma {:induction false} InFlat<T>(xss: seq<seq<T>>, k: nat, j: nat) returns (i: nat)
    requires k < |xss| && j < |xss[k]|
    ensures i < |Flat(xss)| && Flat(xss)[i] == xss[k][j]
  {
    var before := xss[..|xss| - 1];
    if k == |xss| - 1 { i := |Flat(before)| + j; } else { i := InFlat(before, k, j); }
  }

  lemma {:induction false} OfFlat<T>(xss: seq<seq<T>>, i: nat) returns (k: nat, j: nat)
    requires i < |Flat(xss)|
    ensures k < |xss| && j < |xss[k]| && Flat(xss)[i] == xss[k][j]
  {
    var before := xss[..|xss| - 1];
    if i < |Flat(before)| { k, j := OfFlat(before, i); } else { k, j := |xss| - 1, i - |Flat(before)|; }
  }

  lemma {:induction false} FlatSplit<T>(a: seq<seq<T>>, b: seq<seq<T>>)
    ensures Flat(a + b) == Flat(a) + Flat(b)
    decreases |b|
  {
    if b == [] {
      assert a + b == a;
    } else {
      FlatSplit(a, b[..|b| - 1]);
      var more, last := b[..|b| - 1], b[|b| - 1];
      hide Flat;
      FlatLast(more, last);
      FlatLast(a + more, last);
      assert b == more + [last] && a + b == a + more + [last];
    }
  }

  lemma {:induction false} FlatFair(rounds: seq<seq<Turn>>, m: nat)
    requires forall w | w in rounds :: Round(w, m)
    ensures Fair(Flat(rounds), m)
  {
    if rounds != [] {
      FlatFair(rounds[..|rounds| - 1], m);
      assert Round(rounds[|rounds| - 1], m);
    }
  }
}
