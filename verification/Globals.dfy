/** What one uninterrupted operation does to the global variables: a map from names to
    arrays that are grown on demand and read as 0 wherever they do not reach. */
module Globals {
  import opened Locals

  type Store = map<string, seq<int>>

  /** The value a reader finds in a cell. */
  function Cell(g: Store, n: string, i: nat): int {
    if n in g && i < |g[n]| then g[n][i] else 0
  }

  /** The cells of a variable after an operation has made sure that index `i` exists. */
  function Reach(g: Store, n: string, i: nat): (r: seq<int>)
    ensures i < |r|
  {
    var cells := if n in g then g[n] else [];
    if i < |cells| then cells else cells + Zeros(i + 1 - |cells|)
  }

  function Touch(g: Store, n: string, i: nat): Store {
    g[n := Reach(g, n, i)]
  }

  function Put(g: Store, n: string, i: nat, v: int): Store {
    g[n := Reach(g, n, i)[i := v]]
  }

  /** Touching creates and grows, and no reader can tell. */
  lemma TouchCell(g: Store, n: string, i: nat)
    ensures forall m, j: nat :: Cell(Touch(g, n, i), m, j) == Cell(g, m, j)
  {}

  lemma PutCell(g: Store, n: string, i: nat, v: int)
    ensures forall m, j: nat :: Cell(Put(g, n, i, v), m, j) == if m == n && j == i then v else Cell(g, m, j)
  {}
}
