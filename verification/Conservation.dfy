/** Semaphores under any programs and any interleaving: a cell is what was last stored in
    it, plus the UPs and minus the grants since then. */
module Conservation {
  import opened Syntax
  import opened Locals
  import opened Globals
  import opened Machine
  import opened Counting

  /** What a turn does to the globals. */
  datatype Event =
    | Nothing
    | Stored(name: string, idx: nat, value: int)
    | Raised(name: string, idx: nat)
    | Granted(name: string, idx: nat)

  /** The next visit executes an instruction. */
  predicate Executes(p: Proc) {
    p.status.Ready? && p.line < |p.code| && Entered(p).status.Ready?
  }

  /** What an instruction does to the globals. */
  function EventIn(q: Proc, ins: Instr): Event {
    match ins
    case Store(glob, src) =>
      var at := Locate(q, glob);
      if !at.ok then Nothing
      else
        var e := Eval(src, at.after.table, q.args);
        if e.out.Ok? then Stored(at.name, at.idx, e.out.value) else Nothing
    case Up(glob) =>
      var at := Locate(q, glob);
      if at.ok then Raised(at.name, at.idx) else Nothing
    case _ => Nothing
  }

  function EventOf(p: Proc, g: Store): Event {
    if p.status.Blocked? then
      if Cell(g, p.sem, p.semIdx) > 0 then Granted(p.sem, p.semIdx) else Nothing
    else if !Executes(p) then Nothing
    else EventIn(Poised(p), p.code[p.line].instr)
  }

  /** The value of a cell after an event. */
  function Moved(e: Event, n: string, i: nat, was: int): int {
    match e
    case Nothing => was
    case Stored(m, j, v) => if m == n && j == i then v else was
    case Raised(m, j) => if m == n && j == i then was + 1 else was
    case Granted(m, j) => if m == n && j == i then was - 1 else was
  }

  /** A visit changes no cell but the one of its event. */
  lemma {:induction false} VisitMoves(p: Proc, g: Store, slice: nat, n: string, i: nat)
    ensures Cell(Visit(p, g, slice).glob, n, i) == Moved(EventOf(p, g), n, i, Cell(g, n, i))
  {
    hide Execute, EventIn;
    if p.status.Ready? && p.line < |p.code| {
      hide Interpret, Entered;
      InterpretIs(p, g);
      ExecuteMoves(Poised(p), g, p.code[p.line].instr, n, i);
    }
  }

  lemma {:induction false} ExecuteMoves(q: Proc, g: Store, ins: Instr, n: string, i: nat)
    ensures Cell(Execute(q, g, ins).glob, n, i) == Moved(EventIn(q, ins), n, i, Cell(g, n, i))
  {
    hide Locate, Eval, EvalBoth, Assign, PrintArgs, Jump, Compute;
    if ins.Load? || ins.Down? {
      TouchCell(g, Locate(q, ins.glob).name, Locate(q, ins.glob).idx);
      hide Touch, Cell;
    }
  }

  function EventAt(s: Sys, t: Turn): Event {
    if t.who < |s.procs| then EventOf(s.procs[t.who], s.glob) else Nothing
  }

  predicate IsStore(e: Event, n: string, i: nat) {
    e.Stored? && e.name == n && e.idx == i
  }

  /** The number of turns that raise the cell; those of program `who` only. */
  function UpsOf(s: Sys, turns: seq<Turn>, n: string, i: nat, who: nat): nat {
    if turns == [] then 0
    else
      var before, t := turns[..|turns| - 1], turns[|turns| - 1];
      UpsOf(s, before, n, i, who) + if t.who == who && EventAt(Run(s, before), t) == Raised(n, i) then 1 else 0
  }

  /** The number of units that program `who` was granted. */
  function GrantsOf(s: Sys, turns: seq<Turn>, n: string, i: nat, who: nat): nat {
    if turns == [] then 0
    else
      var before, t := turns[..|turns| - 1], turns[|turns| - 1];
      GrantsOf(s, before, n, i, who) + if t.who == who && EventAt(Run(s, before), t) == Granted(n, i) then 1 else 0
  }

  /** UPs minus grants over the first `k` programs. */
  function Net(s: Sys, turns: seq<Turn>, n: string, i: nat, k: nat): int {
    if k == 0 then 0
    else Net(s, turns, n, i, k - 1) + UpsOf(s, turns, n, i, k - 1) - GrantsOf(s, turns, n, i, k - 1)
  }

  /** No turn of the run stores to the cell. */
  predicate Unstored(s: Sys, turns: seq<Turn>, n: string, i: nat) {
    turns == [] ||
    (Unstored(s, turns[..|turns| - 1], n, i)
      && !IsStore(EventAt(Run(s, turns[..|turns| - 1]), turns[|turns| - 1]), n, i))
  }

  lemma {:induction false} NetNext(s: Sys, turns: seq<Turn>, n: string, i: nat, k: nat)
    requires turns != []
    ensures var before, t := turns[..|turns| - 1], turns[|turns| - 1];
      Net(s, turns, n, i, k) == Net(s, before, n, i, k) +
        if t.who >= k then 0
        else Bit(EventAt(Run(s, before), t) == Raised(n, i)) - Bit(EventAt(Run(s, before), t) == Granted(n, i))
  {
    hide EventAt, Run;
    if k > 0 { NetNext(s, turns, n, i, k - 1); }
  }

  lemma {:induction false} NetZero(s: Sys, n: string, i: nat, k: nat)
    ensures Net(s, [], n, i, k) == 0
  {
    if k > 0 { NetZero(s, n, i, k - 1); }
  }

  lemma {:induction false} RunMoves(s: Sys, t: Turn, n: string, i: nat)
    ensures Cell(Next(s, t).glob, n, i) == Moved(EventAt(s, t), n, i, Cell(s.glob, n, i))
  {
    hide Visit, EventOf;
    if t.who < |s.procs| { VisitMoves(s.procs[t.who], s.glob, t.slice, n, i); }
  }

  /** Over a run that does not store to a cell, it changes by the UPs minus the grants. */
  lemma {:induction false} Conserved(s: Sys, turns: seq<Turn>, n: string, i: nat)
    requires Unstored(s, turns, n, i)
    ensures Cell(Run(s, turns).glob, n, i) == Cell(s.glob, n, i) + Net(s, turns, n, i, |s.procs|)
  {
    hide Next, EventOf;
    if turns == [] {
      NetZero(s, n, i, |s.procs|);
    } else {
      var before, t := turns[..|turns| - 1], turns[|turns| - 1];
      Conserved(s, before, n, i);
      NetNext(s, turns, n, i, |s.procs|);
      RunMoves(Run(s, before), t, n, i);
    }
  }

  /** The cell equals the value last stored in it, plus the UPs and minus the grants of all
      programs since. */
  lemma {:induction false} ConservedSinceStore(s: Sys, a: seq<Turn>, t: Turn, b: seq<Turn>, n: string, i: nat, v: int)
    requires EventAt(Run(s, a), t) == Stored(n, i, v)
    requires Unstored(Run(s, a + [t]), b, n, i)
    ensures Cell(Run(s, a + [t] + b).glob, n, i) == v + Net(Run(s, a + [t]), b, n, i, |s.procs|)
  {
    hide Next, EventAt;
    RunSplit(s, a + [t], b);
    Conserved(Run(s, a + [t]), b, n, i);
    assert (a + [t])[..|a|] == a;
    RunMoves(Run(s, a), t, n, i);
  }

  /** Every value that the run stores to the cell is nonnegative. */
  predicate StoresNonnegative(s: Sys, turns: seq<Turn>, n: string, i: nat) {
    turns == [] ||
    (var before, t := turns[..|turns| - 1], turns[|turns| - 1];
     StoresNonnegative(s, before, n, i) &&
     (IsStore(EventAt(Run(s, before), t), n, i) ==> EventAt(Run(s, before), t).value >= 0))
  }

  /** A semaphore never goes negative unless a program stores a negative number in it. */
  lemma {:induction false} NeverNegative(s: Sys, turns: seq<Turn>, n: string, i: nat)
    requires Cell(s.glob, n, i) >= 0 && StoresNonnegative(s, turns, n, i)
    ensures Cell(Run(s, turns).glob, n, i) >= 0
  {
    hide Next, Executes;
    if turns != [] {
      var before, t := turns[..|turns| - 1], turns[|turns| - 1];
      NeverNegative(s, before, n, i);
      RunMoves(Run(s, before), t, n, i);
    }
  }

  /** Units that program `who` took and has not given back. */
  function Held(s: Sys, turns: seq<Turn>, n: string, i: nat, who: nat): int {
    GrantsOf(s, turns, n, i, who) - UpsOf(s, turns, n, i, who)
  }

  /** Programs raise the cell only to give back a unit they hold. */
  predicate Bracketed(s: Sys, turns: seq<Turn>, n: string, i: nat) {
    turns == [] ||
    (var before, t := turns[..|turns| - 1], turns[|turns| - 1];
     Bracketed(s, before, n, i) &&
     (EventAt(Run(s, before), t) == Raised(n, i) ==> Held(s, before, n, i, t.who) >= 1))
  }

  lemma {:induction false} HeldNonnegative(s: Sys, turns: seq<Turn>, n: string, i: nat, who: nat)
    requires Bracketed(s, turns, n, i)
    ensures Held(s, turns, n, i, who) >= 0
  {
    hide EventAt, Run;
    if turns != [] { HeldNonnegative(s, turns[..|turns| - 1], n, i, who); }
  }

  /** How many of the first `k` programs hold a unit. */
  function Holders(s: Sys, turns: seq<Turn>, n: string, i: nat, k: nat): nat {
    if k == 0 then 0
    else Holders(s, turns, n, i, k - 1) + if Held(s, turns, n, i, k - 1) >= 1 then 1 else 0
  }

  lemma {:induction false} HoldersHold(s: Sys, turns: seq<Turn>, n: string, i: nat, k: nat)
    requires Bracketed(s, turns, n, i)
    ensures Holders(s, turns, n, i, k) <= -Net(s, turns, n, i, k)
  {
    hide UpsOf, GrantsOf;
    if k > 0 {
      HoldersHold(s, turns, n, i, k - 1);
      HeldNonnegative(s, turns, n, i, k - 1);
    }
  }

  /** A cell that starts at `k` and is only used in brackets of DOWN and UP admits at most
      `k` programs at a time, less the units still in it. */
  lemma {:induction false} AtMostKInside(s: Sys, turns: seq<Turn>, n: string, i: nat)
    requires Cell(s.glob, n, i) >= 0 && Unstored(s, turns, n, i) && Bracketed(s, turns, n, i)
    ensures Holders(s, turns, n, i, |s.procs|) <= Cell(s.glob, n, i) - Cell(Run(s, turns).glob, n, i)
    ensures Holders(s, turns, n, i, |s.procs|) <= Cell(s.glob, n, i)
  {
    hide Run, Unstored, Bracketed, StoresNonnegative;
    Conserved(s, turns, n, i);
    HoldersHold(s, turns, n, i, |s.procs|);
    UnstoredIsNonnegative(s, turns, n, i);
    NeverNegative(s, turns, n, i);
  }

  lemma {:induction false} UnstoredIsNonnegative(s: Sys, turns: seq<Turn>, n: string, i: nat)
    requires Unstored(s, turns, n, i)
    ensures StoresNonnegative(s, turns, n, i)
  {
    hide EventAt, Run;
    if turns != [] { UnstoredIsNonnegative(s, turns[..|turns| - 1], n, i); }
  }
}
