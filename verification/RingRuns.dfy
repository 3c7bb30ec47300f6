/** A thread that serves the programs of its ring one after the other: all objects together,
    the visits are turns of a run of the texts. */
module RingRuns {
  import opened Machine
  import opened TapeMachine
  import opened Program
  import opened Runtime
  import opened Rounds
  import opened Syntax
  import opened Locals
  import opened Scanning
  import GlobalTable
  import opened Scanner
  import S = Scheduler

  /** The objects that belong to a program. */
  ghost function Footprint(p: Program): set<object>
    reads p.vars
  {
    {p, p.reader, p.reader.input, p.vars} + p.vars.Repr
  }

  /** One program, the thread and the globals keep to themselves, and the program stands where
      the tape says. */
  ghost predicate Seated(p: Program, gt: GlobalTable.Table, rt: Runtime, t: Tape)
    reads p, p.reader, p.vars, p.vars.Repr, gt, gt.Repr
  {
    p.Servable(gt) && p.IsAt(t) && rt !in Footprint(p) && rt !in gt.Repr
  }

  /** No two programs share an object. */
  ghost predicate Disjoint(crew: seq<Program>)
    reads set p | p in crew :: p.vars
  {
    forall i, j | 0 <= i < |crew| && 0 <= j < |crew| && i != j :: Footprint(crew[i]) !! Footprint(crew[j])
  }

  /** What a program that waits knows of the globals. */
  ghost predicate Waits(p: Program, vars: map<string, (GlobalTable.GlobalVar, nat)>)
    reads p, p.reader
  {
    p.reader.state == Waiting ==>
      p.semName in vars && vars[p.semName].0 == p.sem && p.blockedIdx < vars[p.semName].1
  }

  lemma WaitsIs(p: Program, gt: GlobalTable.Table)
    requires gt.Valid()
    ensures Waits(p, gt.Snapshot()) <==> (p.reader.state == Waiting ==> p.Parked(gt))
  {}

  /** Operations of others do not disturb it. */
  lemma WaitsOn(p: Program, a: map<string, (GlobalTable.GlobalVar, nat)>, b: map<string, (GlobalTable.GlobalVar, nat)>)
    requires Waits(p, a) && GlobalTable.Grows(a, b)
    ensures Waits(p, b)
  {}

  /** A thread, the globals, and the programs that were ever in the ring, where the reel has
      them. */
  ghost predicate Crewed(rt: Runtime, gt: GlobalTable.Table, crew: seq<Program>, r: Reel)
    reads *
  {
    && rt.Valid() && gt.Valid() && gt.Contents() == r.glob && |r.tapes| == |crew| && Disjoint(crew)
    && rt !in gt.Repr && gt in gt.Repr
    && (forall x | x in rt.list :: x in crew)
    && forall i | 0 <= i < |crew| :: Seated(crew[i], gt, rt, r.tapes[i])
  }

  ghost function Place(crew: seq<Program>, p: Program): (i: nat)
    requires p in crew
    ensures i < |crew| && crew[i] == p
  {
    if crew[0] == p then 0 else 1 + Place(crew[1..], p)
  }

  lemma {:induction false} RepeatWho(who: nat, slice: nat, n: nat)
    ensures |Repeat(who, slice, n)| == n && forall j | 0 <= j < n :: Repeat(who, slice, n)[j] == Turn(who, slice)
  {
    if n > 0 { RepeatWho(who, slice, n - 1); }
  }

  lemma {:induction false} VisitKeeps(r: S.Ring<Program>, f: bool, crew: seq<Program>)
    requires S.Enabled(r, S.Visit(f)) && forall x | x in r.list :: x in crew
    ensures forall x | x in S.Step(r, S.Visit(f)).list :: x in crew
  {}

  /** The walk moves on, and takes the program out if it is finished; of a program that has done
      what C leaves undefined nothing is said. */
  ghost predicate Moved(was: S.Ring<Program>, now: S.Ring<Program>, f: bool, status: Status) {
    && S.Enabled(was, S.Visit(f)) && now == S.Step(was, S.Visit(f))
    && (status == Wild || f == (status == Status.Finished))
  }

  /** What a visit to one program does to all. */
  method VisitOne(rt: Runtime, gt: GlobalTable.Table, slice: nat, spent: seq<int>,
      ghost crew: seq<Program>, ghost r: Reel, ghost i: nat)
    requires Crewed(rt, gt, crew, r) && rt.at.Some? && i < |crew| && crew[i] == rt.list[rt.at.value]
    modifies rt, gt.Repr, Footprint(rt.list[rt.at.value])
    ensures rt.Valid() && gt.Valid() && rt !in gt.Repr && gt in gt.Repr && fresh(gt.Repr - old(gt.Repr))
    ensures fresh(Footprint(crew[i]) - old(Footprint(crew[i])))
    ensures var s := Served(r.tapes[i], r.glob, slice, spent);
      gt.Contents() == s.glob && Seated(crew[i], gt, rt, s.tape)
    ensures forall k | 0 <= k < |crew| && k != i ::
      Seated(crew[k], gt, rt, r.tapes[k]) && Footprint(crew[k]) == old(Footprint(crew[k]))
    ensures exists f :: Moved(old(rt.Ring()), rt.Ring(), f, Served(r.tapes[i], r.glob, slice, spent).tape.core.status)
  {
    hide Served, Reader.Valid, Program.Core, Program.IsAt, Program.Parked, S.Step;
    hide GlobalTable.Grows, GlobalTable.Table.Snapshot, GlobalTable.Table.Valid, GlobalTable.Table.Contents;
    ghost var was := gt.Snapshot();
    assert Seated(crew[i], gt, rt, r.tapes[i]);
    forall k | 0 <= k < |crew| ensures Waits(crew[k], was) {
      assert Seated(crew[k], gt, rt, r.tapes[k]);
      WaitsIs(crew[k], gt);
    }
    ghost var ring := rt.Ring();
    assert S.Enabled(ring, S.Visit(true)) && S.Enabled(ring, S.Visit(false));
    rt.VisitCurrent(gt, slice, spent, r.tapes[i]);
    ghost var status := Served(r.tapes[i], r.glob, slice, spent).tape.core.status;
    if status == Wild {
      ghost var f :| rt.Ring() == S.Step(ring, S.Visit(f));
      assert Moved(ring, rt.Ring(), f, status);
    } else {
      assert Moved(ring, rt.Ring(), status == Status.Finished, status);
    }
    forall k | 0 <= k < |crew| && k != i
      ensures Seated(crew[k], gt, rt, r.tapes[k]) && Footprint(crew[k]) == old(Footprint(crew[k]))
    {
      assert old(Seated(crew[k], gt, rt, r.tapes[k]));
      WaitsOn(crew[k], was, gt.Snapshot());
      WaitsIs(crew[k], gt);
    }
  }

  /** The turns of one visit: one if the program is not ready, otherwise as many as there is
      time for. */
  ghost predicate Filled(r: Reel, who: nat, slice: nat, spent: seq<int>, turns: seq<Turn>) {
    && who < |r.tapes| && turns == Repeat(who, slice, |turns|)
    && if r.tapes[who].core.status.Ready? then EndsAfter(r, who, slice, slice, spent, |turns|) else |turns| == 1
  }

  /** One visit of the thread: the current program has the turns that it has time for. */
  method VisitOnce(rt: Runtime, gt: GlobalTable.Table, slice: nat, spent: seq<int>,
      ghost crew: seq<Program>, ghost r: Reel)
      returns (ghost turns: seq<Turn>)
    requires Crewed(rt, gt, crew, r) && rt.at.Some?
    modifies rt, gt.Repr, Footprint(rt.list[rt.at.value])
    ensures Crewed(rt, gt, crew, Play(r, turns))
    ensures fresh(gt.Repr - old(gt.Repr))
    ensures forall i | 0 <= i < |crew| :: fresh(Footprint(crew[i]) - old(Footprint(crew[i])))
    ensures old(rt.list[rt.at.value]) in crew && Filled(r, Place(crew, old(rt.list[rt.at.value])), slice, spent, turns)
    ensures exists f ::
      Moved(old(rt.Ring()), rt.Ring(), f, Play(r, turns).tapes[Place(crew, old(rt.list[rt.at.value]))].core.status)
  {
    hide Play, Served, Reader.Valid, Program.Core, Program.IsAt, Program.Parked, Seated, S.Step, S.Enabled, S.Whole;
    hide GlobalTable.Table.Valid, GlobalTable.Table.Contents;
    ghost var i := Place(crew, rt.list[rt.at.value]);
    ghost var ring := rt.Ring();
    VisitOne(rt, gt, slice, spent, crew, r, i);
    ghost var n := ServedIsTurns(r, i, slice, spent);
    turns := Repeat(i, slice, n);
    RepeatWho(i, slice, n);
    ghost var s := Served(r.tapes[i], r.glob, slice, spent);
    ghost var f :| Moved(ring, rt.Ring(), f, s.tape.core.status);
    VisitKeeps(ring, f, crew);
    assert Disjoint(crew) by {
      forall j, k | 0 <= j < |crew| && 0 <= k < |crew| && j != k ensures Footprint(crew[j]) !! Footprint(crew[k]) {
        assert old(Footprint(crew[j])) !! old(Footprint(crew[k]));
      }
    }
  }

  /** A thread without programs, and an empty table of globals. */
  method Boot() returns (rt: Runtime, gt: GlobalTable.Table)
    ensures fresh(rt) && fresh(gt.Repr) && Crewed(rt, gt, [], Reel(map[], []))
  {
    rt := new Runtime();
    gt := new GlobalTable.Table();
  }

  /** A file is opened as a new program. */
  method Open(rt: Runtime, gt: GlobalTable.Table, source: string, id: int, args: seq<int>) returns (prog: Program)
    requires '\0' !in source && Magic(source).Opened? && Magic(source).good
    requires gt.Valid() && gt in gt.Repr && rt !in gt.Repr
    ensures fresh(Footprint(prog))
    ensures Seated(prog, gt, rt, Tape(source, Magic(source).ahead, Start([], Args(id, args))))
  {
    hide Magic, GlobalTable.Table.Valid, GlobalTable.Table.Contents, Reader.Valid, Program.Core, Program.Parked;
    prog := new Program(source, id, args);
    prog.CoreMode();
  }

  lemma SeatedApart(p: Program, gt: GlobalTable.Table, rt: Runtime, t: Tape)
    requires Seated(p, gt, rt, t)
    ensures rt !in Footprint(p) && rt !in gt.Repr
  {}

  /** It is attached at the tail of the ring. */
  method Attach(rt: Runtime, gt: GlobalTable.Table, source: string, id: int, args: seq<int>, ghost crew: seq<Program>,
      ghost r: Reel) returns (prog: Program)
    requires Crewed(rt, gt, crew, r) && '\0' !in source && Magic(source).Opened? && Magic(source).good
    modifies rt
    ensures fresh(Footprint(prog)) && rt.Ring() == S.Step(old(rt.Ring()), S.Attach(prog))
    ensures Crewed(rt, gt, crew + [prog],
      Reel(r.glob, r.tapes + [Tape(source, Magic(source).ahead, Start([], Args(id, args)))]))
  {
    hide Magic, GlobalTable.Table.Valid, GlobalTable.Table.Contents, Reader.Valid, Program.Core, Program.Parked;
    hide Program.Servable, Program.IsAt, S.Whole, Seated;
    forall k | 0 <= k < |crew| ensures rt !in Footprint(crew[k]) && rt !in gt.Repr {
      SeatedApart(crew[k], gt, rt, r.tapes[k]);
    }
    prog := Open(rt, gt, source, id, args);
    assert forall k | 0 <= k < |crew| :: Footprint(crew[k]) !! Footprint(prog);
    rt.AttachProgram(prog);
    assert Disjoint(crew) by {
      forall j, k | 0 <= j < |crew| && 0 <= k < |crew| && j != k ensures Footprint(crew[j]) !! Footprint(crew[k]) {
        assert old(Footprint(crew[j])) !! old(Footprint(crew[k]));
      }
    }
    forall k | 0 <= k < |crew| ensures Seated(crew[k], gt, rt, r.tapes[k]) {
      assert old(Seated(crew[k], gt, rt, r.tapes[k]));
    }
    CrewGrows(rt, gt, crew, r, prog, Tape(source, Magic(source).ahead, Start([], Args(id, args))));
  }

  /** A crew with one program more. */
  lemma {:induction false} CrewGrows(rt: Runtime, gt: GlobalTable.Table, crew: seq<Program>, r: Reel, prog: Program,
      t: Tape)
    requires rt.Valid() && gt.Valid() && gt.Contents() == r.glob && |r.tapes| == |crew| && Disjoint(crew)
    requires rt !in gt.Repr && gt in gt.Repr && forall x | x in rt.list :: x in crew || x == prog
    requires forall k | 0 <= k < |crew| :: Seated(crew[k], gt, rt, r.tapes[k]) && Footprint(crew[k]) !! Footprint(prog)
    requires Seated(prog, gt, rt, t)
    ensures Crewed(rt, gt, crew + [prog], Reel(r.glob, r.tapes + [t]))
  {
    hide Seated, Footprint, Runtime.Valid, GlobalTable.Table.Valid, GlobalTable.Table.Contents;
    var more := crew + [prog];
    assert Disjoint(more) by {
      forall j, k | 0 <= j < |more| && 0 <= k < |more| && j != k ensures Footprint(more[j]) !! Footprint(more[k]) {
        if j < |crew| && k < |crew| { assert Footprint(crew[j]) !! Footprint(crew[k]); }
      }
    }
  }

  ghost function AllFootprints(crew: seq<Program>): set<object>
    reads set p | p in crew :: p.vars
  {
    set p, o | p in crew && o in Footprint(p) :: o
  }

  /** What a walk has done so far: visit number `k` served the program that was current, for
      slices as they were given. */
  ghost predicate Walked(crew: seq<Program>, visits: seq<(nat, seq<int>)>, r: Reel, rs: seq<S.Ring<Program>>,
      es: seq<S.Event<Program>>, served: seq<seq<Turn>>)
  {
    && S.Path(rs, es) && |served| == |es| <= |visits| && |r.tapes| == |crew|
    && forall k | 0 <= k < |es| ::
         VisitOf(crew, visits[k], rs[k], es[k], served[k], Play(r, Flat(served[..k])), Play(r, Flat(served[..k + 1])))
  }

  /** The current program `p` had its turns, and was taken out if `after` has it finished. */
  ghost predicate VisitOf(crew: seq<Program>, v: (nat, seq<int>), ring: S.Ring<Program>, e: S.Event<Program>,
      turns: seq<Turn>, before: Reel, after: Reel)
    requires |before.tapes| == |after.tapes| == |crew|
  {
    && e.Visit? && ring.curr.Some? && ring.curr.value in crew
    && Filled(before, Place(crew, ring.curr.value), v.0, v.1, turns)
    && var status := after.tapes[Place(crew, ring.curr.value)].core.status;
       status == Wild || e.finished == (status == Status.Finished)
  }

  lemma {:induction false} WalkedOn(crew: seq<Program>, visits: seq<(nat, seq<int>)>, r: Reel, rs: seq<S.Ring<Program>>,
      es: seq<S.Event<Program>>, served: seq<seq<Turn>>, f: bool, turns: seq<Turn>)
    requires Walked(crew, visits, r, rs, es, served) && |es| < |visits| && S.Enabled(rs[|es|], S.Visit(f))
    requires VisitOf(crew, visits[|es|], rs[|es|], S.Visit(f), turns, Play(r, Flat(served)),
      Play(r, Flat(served + [turns])))
    ensures Walked(crew, visits, r, rs + [S.Step(rs[|es|], S.Visit(f))], es + [S.Visit(f)], served + [turns])
  {
    hide VisitOf, S.Step, S.Enabled, Play, Flat;
    var rt, et, more := rs + [S.Step(rs[|es|], S.Visit(f))], es + [S.Visit(f)], served + [turns];
    forall i | 0 <= i < |et|
      ensures S.Allowed(rt[i], et[i]) && rt[i + 1] == S.Step(rt[i], et[i])
      ensures VisitOf(crew, visits[i], rt[i], et[i], more[i], Play(r, Flat(more[..i])), Play(r, Flat(more[..i + 1])))
    {
      if i < |es| {
        assert rt[i] == rs[i] && et[i] == es[i] && rt[i + 1] == rs[i + 1];
        assert more[i] == served[i] && more[..i] == served[..i] && more[..i + 1] == served[..i + 1];
      } else {
        assert more[..i] == served && more[..i + 1] == more;
      }
    }
  }

  /** The thread serves its ring: as long as there is a program in it, visit after visit. All
      programs and the globals are afterwards where a run of the texts brings them, in which
      each visit is one turn or more of the program that was current. */
  method Serve(rt: Runtime, gt: GlobalTable.Table, visits: seq<(nat, seq<int>)>,
      ghost crew: seq<Program>, ghost r: Reel)
      returns (ghost served: seq<seq<Turn>>, ghost rs: seq<S.Ring<Program>>, ghost es: seq<S.Event<Program>>)
    requires Crewed(rt, gt, crew, r)
    modifies rt, gt.Repr, AllFootprints(crew)
    ensures Crewed(rt, gt, crew, Play(r, Flat(served)))
    ensures Walked(crew, visits, r, rs, es, served) && rs[0] == old(rt.Ring()) && rs[|es|] == rt.Ring()
    ensures |es| < |visits| ==> rt.at.None?
  {
    hide Play, Crewed, S.Step, S.Enabled, Walked, VisitOf, Moved, Flat;
    hide GlobalTable.Table.Valid, GlobalTable.Table.Contents;
    CurrentAt(rt, gt, crew, r);
    served, rs, es := [], [rt.Ring()], [];
    NothingYet(crew, visits, r, rt.Ring());
    PlayNothing(r);
    var k := 0;
    while k < |visits| && rt.at.Some?
      invariant 0 <= k == |es| <= |visits| && |rs| == k + 1 && rs[0] == old(rt.Ring()) && rs[k] == rt.Ring()
      invariant Crewed(rt, gt, crew, Play(r, Flat(served))) && Walked(crew, visits, r, rs, es, served)
      invariant fresh(gt.Repr - old(gt.Repr))
      invariant forall i | 0 <= i < |crew| :: fresh(Footprint(crew[i]) - old(Footprint(crew[i])))
      decreases |visits| - k
    {
      CurrentAt(rt, gt, crew, Play(r, Flat(served)));
      ghost var ring := rt.Ring();
      ghost var turns := VisitOnce(rt, gt, visits[k].0, visits[k].1, crew, Play(r, Flat(served)));
      PlayTwice(r, Flat(served), turns);
      FlatLast(served, turns);
      ghost var after := Play(r, Flat(served + [turns]));
      ghost var i := Place(crew, ring.curr.value);
      ghost var f :| Moved(ring, rt.Ring(), f, after.tapes[i].core.status);
      VisitIs(crew, visits[k], ring, rt.Ring(), f, turns, Play(r, Flat(served)), after);
      WalkedOn(crew, visits, r, rs, es, served, f, turns);
      served, rs, es := served + [turns], rs + [rt.Ring()], es + [S.Visit(f)];
      k := k + 1;
    }
  }

  lemma NothingYet(crew: seq<Program>, visits: seq<(nat, seq<int>)>, r: Reel, ring: S.Ring<Program>)
    requires |r.tapes| == |crew|
    ensures Walked(crew, visits, r, [ring], [], [])
  {}

  lemma PlayNothing(r: Reel)
    ensures Play(r, Flat([])) == r
  {}

  lemma CurrentAt(rt: Runtime, gt: GlobalTable.Table, crew: seq<Program>, r: Reel)
    requires Crewed(rt, gt, crew, r)
    ensures |r.tapes| == |crew|
    ensures rt.at.Some? ==> rt.at.value < |rt.list| && rt.list[rt.at.value] in crew
    ensures rt.at.Some? ==> rt.Ring().curr == Some(rt.list[rt.at.value])
  {}

  lemma VisitIs(crew: seq<Program>, v: (nat, seq<int>), ring: S.Ring<Program>, next: S.Ring<Program>, f: bool,
      turns: seq<Turn>, before: Reel, after: Reel)
    requires |before.tapes| == |after.tapes| == |crew| && ring.curr.Some? && ring.curr.value in crew
    requires Filled(before, Place(crew, ring.curr.value), v.0, v.1, turns)
    requires Moved(ring, next, f, after.tapes[Place(crew, ring.curr.value)].core.status)
    ensures VisitOf(crew, v, ring, S.Visit(f), turns, before, after)
    ensures S.Enabled(ring, S.Visit(f)) && next == S.Step(ring, S.Visit(f))
  {}
}
