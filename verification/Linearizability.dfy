/** Runs of the lock protocol: whatever the interleaving, the operations on global variables
    act as if each happened all at once, between its call and its return. */
module Linearizability {
  import opened Globals
  import opened LockProtocol

  /** No variables, nothing under way. */
  ghost predicate Begins(s: State) {
    && s.lock.None? && s.table == map[] && s.vars == [] && s.log == [] && s.answers == []
    && forall t | 0 <= t < |s.threads| :: s.threads[t].phase.Idle? && s.threads[t].sem.None?
  }

  /** The state after a list of actions; references are valid in every reachable state. */
  function Run(s: State, acts: seq<Action>): State {
    if acts == [] then s
    else
      var r, a := Run(s, acts[..|acts| - 1]), acts[|acts| - 1];
      if a.who < |r.threads| && Linked(r, r.threads[a.who]) then Act(r, a) else r
  }

  lemma {:induction false} GoodRun(s: State, acts: seq<Action>)
    requires Begins(s)
    ensures Good(Run(s, acts)) && |Run(s, acts).threads| == |s.threads|
  {
    if acts != [] {
      GoodRun(s, acts[..|acts| - 1]);
      var r, a := Run(s, acts[..|acts| - 1]), acts[|acts| - 1];
      hide Act, Good;
      if a.who < |r.threads| { GoodKept(r, a); }
    }
  }

  /** The operations took effect one after the other in the order of the log: each reported
      what it reports in that order, and the variables hold what it leaves. Every answer
      that was returned is in the log, and nothing is in it twice. */
  lemma {:induction false} Linearizable(s: State, acts: seq<Action>)
    requires Begins(s)
    ensures var r := Run(s, acts);
      && Named(r) && Contents(r) == Replay(r.log) && Legal(r.log)
      && (forall e | e in r.answers :: e in r.log)
      && (forall j, k | 0 <= j < k < |r.log| :: r.log[j].id != r.log[k].id)
  {
    GoodRun(s, acts);
    hide Run, Legal, Replay, Contents;
  }

  lemma {:induction false} LogGrows(s: State, a: seq<Action>, b: seq<Action>)
    requires Begins(s)
    ensures Run(s, a).log <= Run(s, a + b).log && Run(s, a).next <= Run(s, a + b).next
    ensures forall n | n in Run(s, a).table :: n in Run(s, a + b).table && Run(s, a + b).table[n] == Run(s, a).table[n]
    decreases |b|
  {
    if b == [] {
      assert a + b == a;
    } else {
      var c := b[..|b| - 1];
      LogGrows(s, a, c);
      assert (a + b)[..|a + b| - 1] == a + c;
      var r, x := Run(s, a + c), b[|b| - 1];
      GoodRun(s, a + c);
      hide Act, Run;
      if x.who < |r.threads| {
        ActGrew(r, x);
        KeepsNames(r, x);
      }
      StepOf(s, a, b);
    }
  }

  lemma {:induction false} StepOf(s: State, a: seq<Action>, b: seq<Action>)
    requires b != []
    ensures var r, x := Run(s, a + b[..|b| - 1]), b[|b| - 1];
      Run(s, a + b) == if x.who < |r.threads| && Linked(r, r.threads[x.who]) then Act(r, x) else r
  {
    hide Act;
    assert (a + b)[..|a + b| - 1] == a + b[..|b| - 1];
  }

  lemma OnlyInsertNames(s: State, a: Action)
    requires a.who < |s.threads| && Linked(s, s.threads[a.who]) && !(a.Go? && s.threads[a.who].phase.Missing?)
    ensures Act(s, a).table == s.table
  {}

  lemma {:induction false} KeepsNames(s: State, a: Action)
    requires Good(s) && a.who < |s.threads| && Linked(s, s.threads[a.who])
    ensures forall n | n in s.table :: n in Act(s, a).table && Act(s, a).table[n] == s.table[n]
  {
    assert Aware(s, s.threads[a.who]);
    if !(a.Go? && s.threads[a.who].phase.Missing?) {
      hide Act;
      OnlyInsertNames(s, a);
    }
    hide Good, Inv, Aware, Locked, Named, Access;
  }

  /** Real time is respected: an operation that had returned before another one was called
      comes before it in the log. Numbers from `next` on belong to later calls. */
  lemma {:induction false} RealTime(s: State, a: seq<Action>, b: seq<Action>, e: Record, k: nat)
    requires Begins(s) && e in Run(s, a).answers
    requires k < |Run(s, a + b).log| && Run(s, a + b).log[k].id >= Run(s, a).next
    ensures exists j :: 0 <= j < k && Run(s, a + b).log[j] == e
  {
    GoodRun(s, a);
    LogGrows(s, a, b);
    hide Run;
    var early, late := Run(s, a), Run(s, a + b);
    var j :| 0 <= j < |early.log| && early.log[j] == e;
    assert late.log[j] == early.log[j];
    assert forall i | 0 <= i < |early.log| :: late.log[i] == early.log[i];
  }

  /** A name is created at most once: its variable never changes, and two names never share
      one. */
  lemma {:induction false} CreatedOnce(s: State, a: seq<Action>, b: seq<Action>, n: string, m: string)
    requires Begins(s) && n in Run(s, a).table && m in Run(s, a + b).table
    ensures var r := Run(s, a + b);
      n in r.table && r.table[n] == Run(s, a).table[n] && (r.table[n] == r.table[m] ==> n == m)
  {
    LogGrows(s, a, b);
    GoodRun(s, a + b);
    hide Run;
  }

  /** No two participants are inside the same variable, or at the table, at once. */
  lemma {:induction false} Exclusive(s: State, acts: seq<Action>, t: nat, o: nat)
    requires Begins(s) && t < o < |s.threads|
    ensures var r := Run(s, acts);
      && |r.threads| == |s.threads|
      && !(HoldsTable(r.threads[t]) && HoldsTable(r.threads[o]))
      && !(HoldsMutex(r.threads[t]) && HoldsMutex(r.threads[o]) && r.threads[t].ref == r.threads[o].ref)
  {
    GoodRun(s, acts);
    hide Run;
  }

  /** The participant that `t` waits for: the holder of the lock that it wants, or itself. */
  function Mover(s: State, t: nat): nat
    requires t < |s.threads| && Linked(s, s.threads[t])
  {
    var th := s.threads[t];
    if th.phase.Start? && s.lock.Some? then s.lock.value
    else if th.phase in {Fetched, Waiting} && s.vars[th.ref].holder.Some? then s.vars[th.ref].holder.value
    else t
  }

  /** The next action of a participant with an operation under way. */
  function Onward(s: State, t: nat): Action
    requires t < |s.threads|
  {
    if s.threads[t].phase.Done? then Action.Return(t) else Go(t)
  }

  /** The locks cannot deadlock: while an operation is under way, its participant moves, or
      the one that holds the lock it waits for does; that one never waits itself. */
  lemma {:induction false} LocksNeverStick(s: State, acts: seq<Action>, t: nat)
    requires Begins(s) && t < |s.threads|
    ensures var r := Run(s, acts);
      && |r.threads| == |s.threads| && Linked(r, r.threads[t])
      && (!r.threads[t].phase.Idle? ==>
           var m := Mover(r, t);
           && m < |r.threads| && Linked(r, r.threads[m]) && !r.threads[m].phase.Idle?
           && Act(r, Onward(r, m)) != r && Mover(r, m) == m)
  {
    GoodRun(s, acts);
    var r := Run(s, acts);
    hide Run, Act;
    assert Aware(r, r.threads[t]);
    if !r.threads[t].phase.Idle? { Moves(r, Mover(r, t)); }
  }

  lemma {:induction false} Moves(r: State, t: nat)
    requires Good(r) && t < |r.threads| && !r.threads[t].phase.Idle?
    requires r.threads[t].phase.Start? ==> r.lock.None?
    requires r.threads[t].phase in {Fetched, Waiting} && r.threads[t].ref < |r.vars| ==>
      r.vars[r.threads[t].ref].holder.None?
    ensures Linked(r, r.threads[t]) && Act(r, Onward(r, t)) != r
  {
    assert Aware(r, r.threads[t]);
    assert Act(r, Onward(r, t)).threads[t] != r.threads[t];
  }

  // ----- waiting -----

  /** A participant that has waited once. */
  predicate HasWaited(th: Thread) {
    !th.phase.Idle? && th.waited
  }

  /** It was seen waiting, without the mutex, during the same operation. */
  ghost predicate SeenWaiting(s: State, acts: seq<Action>, t: nat, id: nat) {
    exists k | 0 <= k <= |acts| ::
      var th := Run(s, acts[..k]).threads; t < |th| && th[t].phase.Waiting? && th[t].id == id
  }

  /** An attempt to take a unit that has found none. */
  predicate GaveUp(th: Thread) {
    th.phase in {Leaving, Done} && th.call.Take? && th.result == 0
  }

  /** What one action does to what a participant remembers of its waiting. */
  ghost predicate Remembers(th: Thread, u: Thread) {
    && (HasWaited(u) ==> u.id == th.id && (HasWaited(th) || th.phase.Waiting?))
    && (GaveUp(u) ==> u.waited || (GaveUp(th) && !th.waited))
  }

  lemma {:induction false} StepRemembers(s: State, t: nat)
    requires t < |s.threads| && Aware(s, s.threads[t])
    ensures |Step(s, t).threads| == |s.threads| && Remembers(s.threads[t], Step(s, t).threads[t])
  {
    hide Updated, Made, Reaches, Access, Insert;
    if s.threads[t].phase.Inside? { AccessRemembers(s, t); }
    if s.threads[t].phase.Missing? { InsertRemembers(s, t); }
  }

  lemma {:induction false} AccessRemembers(s: State, t: nat)
    requires t < |s.threads| && Aware(s, s.threads[t]) && s.threads[t].phase.Inside?
    ensures |Access(s, t).threads| == |s.threads| && Remembers(s.threads[t], Access(s, t).threads[t])
  {
    hide Updated, Made, Reaches;
  }

  lemma {:induction false} InsertRemembers(s: State, t: nat)
    requires t < |s.threads| && s.threads[t].phase.Missing?
    ensures |Insert(s, t).threads| == |s.threads| && Remembers(s.threads[t], Insert(s, t).threads[t])
  {
    hide Made;
  }

  lemma {:induction false} ActRemembers(s: State, a: Action, t: nat)
    requires a.who < |s.threads| && Aware(s, s.threads[a.who]) && t < |s.threads|
    ensures |Act(s, a).threads| == |s.threads| && Remembers(s.threads[t], Act(s, a).threads[t])
  {
    if a.who == t {
      if a.Go? { StepRemembers(s, t); }
      hide Step;
    } else {
      OthersStay(s, a, t);
      hide Act;
    }
  }

  lemma {:induction false} OthersStay(s: State, a: Action, t: nat)
    requires a.who < |s.threads| && Linked(s, s.threads[a.who]) && t < |s.threads| && a.who != t
    ensures |Act(s, a).threads| == |s.threads| && Act(s, a).threads[t] == s.threads[t]
  {
    hide Updated, Made, Seen;
  }

  lemma {:induction false} RunWaits(s: State, acts: seq<Action>, t: nat)
    requires Begins(s) && t < |s.threads|
    ensures var r := Run(s, acts);
      && |r.threads| == |s.threads|
      && (HasWaited(r.threads[t]) ==> SeenWaiting(s, acts, t, r.threads[t].id))
      && (GaveUp(r.threads[t]) ==> r.threads[t].waited)
  {
    hide Act, Run, SeenWaiting, Good, Aware, Linked, Begins;
    if acts == [] {
      NobodyWaits(s, t);
    } else {
      var before, a := acts[..|acts| - 1], acts[|acts| - 1];
      RunWaits(s, before, t);
      GoodRun(s, before);
      var r := Run(s, before);
      LastAction(s, acts);
      if a.who < |r.threads| {
        GoodAware(r, a.who);
        ActRemembers(r, a, t);
      }
      SeenNow(s, acts, t);
      if SeenWaiting(s, before, t, r.threads[t].id) { StaysSeen(s, acts, t, r.threads[t].id); }
    }
  }

  lemma NobodyWaits(s: State, t: nat)
    requires Begins(s) && t < |s.threads|
    ensures Run(s, []) == s && s.threads[t].phase.Idle?
  {}

  lemma GoodAware(s: State, t: nat)
    requires Good(s) && t < |s.threads|
    ensures Aware(s, s.threads[t]) && Linked(s, s.threads[t])
  {}

  lemma LastAction(s: State, acts: seq<Action>)
    requires acts != []
    ensures var r, a := Run(s, acts[..|acts| - 1]), acts[|acts| - 1];
      Run(s, acts) == if a.who < |r.threads| && Linked(r, r.threads[a.who]) then Act(r, a) else r
  {
    hide Act;
  }

  lemma {:induction false} SeenNow(s: State, acts: seq<Action>, t: nat)
    requires acts != []
    ensures var th := Run(s, acts[..|acts| - 1]).threads;
      t < |th| && th[t].phase.Waiting? ==> SeenWaiting(s, acts, t, th[t].id)
  {
    hide Run;
  }

  lemma {:induction false} StaysSeen(s: State, acts: seq<Action>, t: nat, id: nat)
    requires acts != [] && SeenWaiting(s, acts[..|acts| - 1], t, id)
    ensures SeenWaiting(s, acts, t, id)
  {
    var before := acts[..|acts| - 1];
    hide Run;
    var k :| 0 <= k <= |before| && var th := Run(s, before[..k]).threads;
      t < |th| && th[t].phase.Waiting? && th[t].id == id;
    assert acts[..k] == before[..k];
  }

  /** An attempt to take a unit gives up only when it has waited, without the mutex, since it was
      called; and between two looks at the cell it lets others at it. */
  lemma {:induction false} GivesUpAfterWaiting(s: State, acts: seq<Action>, t: nat)
    requires Begins(s) && t < |s.threads|
    ensures var r := Run(s, acts);
      |r.threads| == |s.threads| && (GaveUp(r.threads[t]) ==> SeenWaiting(s, acts, t, r.threads[t].id))
    ensures var th := Run(s, acts).threads[t];
      th.phase.Waiting? ==> !HoldsMutex(th) && !HoldsTable(th)
  {
    RunWaits(s, acts, t);
  }

  // ----- the same operations on arrays that never end -----

  /** A cell after the operations of a log, on arrays that are 0 everywhere to begin with
      and never need to grow. */
  function Reading(log: seq<Record>, n: string, i: nat): int {
    if log == [] then 0
    else
      var was, c := Reading(log[..|log| - 1], n, i), log[|log| - 1].call;
      if c.name != n || c.idx != i then was
      else
        match c
        case Store(_, _, v) => v
        case Up(_, _) => was + 1
        case Take(_, _) => if was > 0 then was - 1 else was
        case _ => was
  }

  lemma {:induction false} ReplayReads(log: seq<Record>, n: string, i: nat)
    ensures Cell(Replay(log), n, i) == Reading(log, n, i)
  {
    if log != [] {
      ReplayReads(log[..|log| - 1], n, i);
    }
  }

  /** Creating and growing arrays cannot be observed: the cells, and the answers of every
      LOAD and of every attempt to take a unit, are those of default-zero arrays. */
  lemma {:induction false} RefinesDefaultZero(s: State, acts: seq<Action>, n: string, i: nat, k: nat)
    requires Begins(s) && k < |Run(s, acts).log|
    ensures var r := Run(s, acts);
      && Named(r) && Cell(Contents(r), n, i) == Reading(r.log, n, i)
      && (var e := r.log[k];
          var was := Reading(r.log[..k], e.call.name, e.call.idx);
          (e.call.Load? ==> e.result == was) && (e.call.Take? ==> e.result == if was > 0 then 1 else 0))
  {
    Linearizable(s, acts);
    var r := Run(s, acts);
    hide Run, Replay;
    ReplayReads(r.log, n, i);
    ReplayReads(r.log[..k], r.log[k].call.name, r.log[k].call.idx);
  }
}
