/** A runtime thread and its ring of programs, as it works: one visit serves the current
    program for a slice of time and moves on. */
module Runtime {
  import opened Syntax
  import opened Machine
  import opened TapeMachine
  import opened Scanner
  import opened Program
  import GlobalTable
  import VarTable
  import S = Scheduler

  /** What a visit to a ready program does: a line, and further lines while there is time
      left and the program is ready. `spent` are the CPU times measured for the lines; a
      negative or missing one stands for a clock that cannot be used. */
  function Burst(t: Tape, g: Globals.Store, slice: int, spent: seq<int>): Spot
    decreases |spent|, 1
  {
    Further(TapeMachine.Step(t, g), slice, spent)
  }

  /** What is left of the visit when a line has been interpreted. */
  function Further(s: Spot, slice: int, spent: seq<int>): Spot
    decreases |spent|, 0
  {
    if spent == [] || spent[0] < 0 || slice - spent[0] <= 0 || !s.tape.core.status.Ready? then s
    else Burst(s.tape, s.glob, slice - spent[0], spent[1..])
  }

  /** What a visit does to the program and the globals. */
  function Served(t: Tape, g: Globals.Store, slice: nat, spent: seq<int>): Spot {
    if t.core.status.Ready? then Burst(t, g, slice, spent) else Attend(t, g, slice)
  }

  /** Turns of one program in a row. */
  function Repeat(who: nat, slice: nat, n: nat): seq<Turn> {
    if n == 0 then [] else Repeat(who, slice, n - 1) + [Turn(who, slice)]
  }

  lemma BurstIs(t: Tape, g: Globals.Store, slice: int, spent: seq<int>)
    ensures Burst(t, g, slice, spent) == Further(TapeMachine.Step(t, g), slice, spent)
  {}

  lemma {:induction false} PlayTwice(r: Reel, a: seq<Turn>, b: seq<Turn>)
    ensures Play(r, a + b) == Play(Play(r, a), b)
    decreases |b|
  {
    hide Advance;
    if b == [] {
      assert a + b == a;
    } else {
      var c := b[..|b| - 1];
      assert (a + b)[..|a + b| - 1] == a + c;
      PlayTwice(r, a, c);
    }
  }

  lemma {:induction false} RepeatFront(who: nat, slice: nat, n: nat)
    ensures Repeat(who, slice, n + 1) == [Turn(who, slice)] + Repeat(who, slice, n)
  {
    if n > 0 { RepeatFront(who, slice, n - 1); }
  }

  lemma {:induction false} PlayOne(r: Reel, t: Turn)
    ensures Play(r, [t]) == Advance(r, t)
  {
    hide Advance;
    assert Play(r, []) == r && [t][..0] == [];
  }

  function Total(times: seq<int>): int {
    if times == [] then 0 else Total(times[..|times| - 1]) + times[|times| - 1]
  }

  lemma {:induction false} TotalFront(t: int, times: seq<int>)
    ensures Total([t] + times) == t + Total(times)
  {
    if times == [] {
      assert [t] + times == [t] && [t][..0] == [];
    } else {
      assert ([t] + times)[..|times|] == [t] + times[..|times| - 1];
      TotalFront(t, times[..|times| - 1]);
    }
  }

  /** The visit goes on after `k` lines: the clock has worked, the lines have not taken all of
      the slice, and the program is ready. */
  ghost predicate GoesOn(r: Reel, who: nat, slice: nat, left: int, spent: seq<int>, k: nat)
    requires who < |r.tapes|
  {
    && 1 <= k <= |spent| && spent[k - 1] >= 0 && Total(spent[..k]) < left
    && Play(r, Repeat(who, slice, k)).tapes[who].core.status.Ready?
  }

  /** It has exactly `n` lines. */
  ghost predicate EndsAfter(r: Reel, who: nat, slice: nat, left: int, spent: seq<int>, n: nat)
    requires who < |r.tapes|
  {
    && n >= 1 && !GoesOn(r, who, slice, left, spent, n)
    && forall k | 1 <= k < n :: GoesOn(r, who, slice, left, spent, k)
  }

  /** What follows the first line. */
  lemma {:induction false} GoesOnLater(r: Reel, u: Reel, who: nat, slice: nat, left: int, spent: seq<int>, k: nat)
    requires who < |r.tapes| == |u.tapes| && u == Play(r, [Turn(who, slice)]) && k >= 1 && spent != []
    ensures GoesOn(r, who, slice, left, spent, k + 1) <==> GoesOn(u, who, slice, left - spent[0], spent[1..], k)
  {
    hide Play;
    RepeatFront(who, slice, k);
    PlayTwice(r, [Turn(who, slice)], Repeat(who, slice, k));
    if k < |spent| {
      assert spent[..k + 1] == [spent[0]] + spent[1..][..k];
      TotalFront(spent[0], spent[1..][..k]);
    }
  }

  lemma {:induction false} FirstGoesOn(r: Reel, who: nat, slice: nat, left: int, spent: seq<int>)
    requires who < |r.tapes|
    ensures GoesOn(r, who, slice, left, spent, 1) <==>
      spent != [] && spent[0] >= 0 && left - spent[0] > 0
      && Play(r, [Turn(who, slice)]).tapes[who].core.status.Ready?
  {
    hide Play;
    assert Repeat(who, slice, 1) == [Turn(who, slice)];
    if spent != [] {
      assert spent[..1] == [spent[0]] + [];
      TotalFront(spent[0], []);
    }
  }

  lemma {:induction false} BurstIsTurns(r: Reel, who: nat, slice: nat, left: int, spent: seq<int>) returns (n: nat)
    requires who < |r.tapes| && r.tapes[who].core.status.Ready?
    ensures var s := Burst(r.tapes[who], r.glob, left, spent);
      Play(r, Repeat(who, slice, n)) == Reel(s.glob, r.tapes[who := s.tape])
    ensures EndsAfter(r, who, slice, left, spent, n)
    decreases |spent|
  {
    hide TapeMachine.Step, Play, GoesOn;
    var t := Turn(who, slice);
    var s := TapeMachine.Step(r.tapes[who], r.glob);
    var u := Reel(s.glob, r.tapes[who := s.tape]);
    PlayOne(r, t);
    hide Advance;
    FirstGoesOn(r, who, slice, left, spent);
    if spent == [] || spent[0] < 0 || left - spent[0] <= 0 || !s.tape.core.status.Ready? {
      n := 1;
      assert Repeat(who, slice, 1) == [t];
    } else {
      var m := BurstIsTurns(u, who, slice, left - spent[0], spent[1..]);
      n := m + 1;
      RepeatFront(who, slice, m);
      PlayTwice(r, [t], Repeat(who, slice, m));
      forall k | 2 <= k <= n
        ensures GoesOn(r, who, slice, left, spent, k) <==> GoesOn(u, who, slice, left - spent[0], spent[1..], k - 1)
      {
        GoesOnLater(r, u, who, slice, left, spent, k - 1);
      }
    }
  }

  /** A visit is turns of the program in a row, and no other program comes in between: one turn
      if it is not ready; otherwise lines until the times measured for them make up the slice,
      the clock fails, or the program is no longer ready - at least one. */
  lemma {:induction false} ServedIsTurns(r: Reel, who: nat, slice: nat, spent: seq<int>) returns (n: nat)
    requires who < |r.tapes|
    ensures var s := Served(r.tapes[who], r.glob, slice, spent);
      n >= 1 && Play(r, Repeat(who, slice, n)) == Reel(s.glob, r.tapes[who := s.tape])
    ensures if r.tapes[who].core.status.Ready? then EndsAfter(r, who, slice, slice, spent, n) else n == 1
  {
    hide TapeMachine.Step, Play;
    if r.tapes[who].core.status.Ready? {
      n := BurstIsTurns(r, who, slice, slice, spent);
    } else {
      n := 1;
      var t := Turn(who, slice);
      assert Repeat(who, slice, 1) == [t];
      PlayOne(r, t);
    }
  }

  class Runtime {
    /** The ring from its head on, and the place of the current program in it. */
    var list: seq<Program>
    var at: Option<nat>
    var count: int
    ghost var attached: seq<Program>
    ghost var retired: seq<Program>

    ghost function Ring(): S.Ring<Program>
      reads this
    {
      S.Ring(list, if at.Some? && at.value < |list| then Some(list[at.value]) else None, count, attached, retired)
    }

    ghost predicate Valid()
      reads this
    {
      S.Whole(Ring()) && (at.Some? ==> at.value < |list|)
    }

    constructor ()
      ensures Valid() && Ring() == S.Empty()
    {
      list, at, count, attached, retired := [], None, 0, [], [];
    }

    method AttachProgram(prog: Program)
      requires Valid() && prog !in attached
      modifies this
      ensures Valid() && Ring() == S.Step(old(Ring()), S.Attach(prog))
    {
      S.StepWhole(Ring(), S.Attach(prog));
      count := count + 1;
      list := list + [prog];
      attached := attached + [prog];
    }

    /** The thread begins a walk at the head of the ring. */
    method Wake()
      requires Valid() && S.Enabled(Ring(), S.Wake)
      modifies this`at
      ensures Valid() && Ring() == S.Step(old(Ring()), S.Wake)
    {
      at := Some(0);
    }

    /** Moves on, and takes the visited program out of the ring if it is finished. */
    method MoveOn(finished: bool)
      requires Valid() && at.Some?
      modifies this
      ensures Valid() && Ring() == S.Step(old(Ring()), S.Visit(finished))
    {
      hide S.Visited, S.Whole;
      S.StepWhole(Ring(), S.Visit(finished));
      var i := at.value;
      S.VisitedAt(Ring(), i, finished);
      var next := if i + 1 < |list| then i + 1 else 0;
      if finished {
        retired := retired + [list[i]];
        count := count - 1;
        list := list[..i] + list[i + 1..];
        if next > i { next := next - 1; }
        at := if |list| == 0 then None else Some(next);
      } else {
        at := Some(next);
      }
    }

    /** Interprets a line and reports whether the program is ready for another. */
    method InterpretLine(prog: Program, gt: GlobalTable.Table, ghost t: Tape) returns (ready: bool)
      requires prog.Servable(gt) && prog.reader.state == InstructionLine && prog.IsAt(t)
      modifies prog, prog.reader, prog.reader.input, prog.vars, prog.vars.Repr, gt.Repr
      ensures prog.Servable(gt) && fresh(prog.vars.Repr - old(prog.vars.Repr)) && fresh(gt.Repr - old(gt.Repr))
      ensures GlobalTable.Grows(old(gt.Snapshot()), gt.Snapshot())
      ensures var s := TapeMachine.Step(t, old(gt.Contents()));
        gt.Contents() == s.glob && prog.IsAt(s.tape) && (ready <==> s.tape.core.status.Ready?)
      ensures ready <==> prog.reader.state == InstructionLine
    {
      hide Reader.Valid, Program.Parked, GlobalTable.Table.Contents, GlobalTable.Table.Valid, TapeMachine.Step;
      hide Program.IsAt, Program.Core;
      prog.IsAtReady(gt, t);
      prog.InterpretNextLine(gt);
      prog.IsAtReady(gt, TapeMachine.Step(t, old(gt.Contents())).tape);
      ready := prog.reader.state == InstructionLine;
    }

    /** Interprets at least one line of a ready program, and more while there is time left. */
    method Interpret(prog: Program, gt: GlobalTable.Table, slice: int, spent: seq<int>, ghost t: Tape)
      requires prog.Servable(gt) && prog.reader.state == InstructionLine && prog.IsAt(t)
      modifies prog, prog.reader, prog.reader.input, prog.vars, prog.vars.Repr, gt.Repr
      ensures prog.Servable(gt) && fresh(prog.vars.Repr - old(prog.vars.Repr)) && fresh(gt.Repr - old(gt.Repr))
      ensures GlobalTable.Grows(old(gt.Snapshot()), gt.Snapshot())
      ensures var s := Burst(t, old(gt.Contents()), slice, spent);
        gt.Contents() == s.glob && prog.IsAt(s.tape)
    {
      hide Reader.Valid, Program.Parked, GlobalTable.Table.Contents, GlobalTable.Table.Valid, TapeMachine.Step;
      hide Program.IsAt, Program.Core, Burst;
      BurstIs(t, gt.Contents(), slice, spent);
      ghost var s := TapeMachine.Step(t, gt.Contents());
      var ready := InterpretLine(prog, gt, t);
      var left, i := slice, 0;
      while i < |spent| && spent[i] >= 0 && left - spent[i] > 0 && ready
        invariant i <= |spent| && prog.Servable(gt) && gt.Contents() == s.glob && prog.IsAt(s.tape)
        invariant ready <==> s.tape.core.status.Ready?
        invariant ready <==> prog.reader.state == InstructionLine
        invariant fresh(prog.vars.Repr - old(prog.vars.Repr)) && fresh(gt.Repr - old(gt.Repr))
        invariant GlobalTable.Grows(old(gt.Snapshot()), gt.Snapshot())
        invariant Further(s, left, spent[i..]) == Burst(t, old(gt.Contents()), slice, spent)
        decreases |spent| - i
      {
        left := left - spent[i];
        i := i + 1;
        BurstIs(s.tape, s.glob, left, spent[i..]);
        ghost var u := s.tape;
        s := TapeMachine.Step(u, s.glob);
        ready := InterpretLine(prog, gt, u);
      }
    }

    /** One visit to a program, whatever its state. */
    method Serve(prog: Program, gt: GlobalTable.Table, slice: nat, spent: seq<int>, ghost t: Tape)
      requires prog.Servable(gt) && prog.IsAt(t)
      modifies prog, prog.reader, prog.reader.input, prog.vars, prog.vars.Repr, gt.Repr
      ensures prog.Servable(gt) && fresh(prog.vars.Repr - old(prog.vars.Repr)) && fresh(gt.Repr - old(gt.Repr))
      ensures GlobalTable.Grows(old(gt.Snapshot()), gt.Snapshot())
      ensures var s := Served(t, old(gt.Contents()), slice, spent);
        gt.Contents() == s.glob && prog.IsAt(s.tape)
    {
      hide Burst, GlobalTable.Table.Contents, GlobalTable.Table.Valid, Reader.Valid, VarTable.Vars.Valid;
      hide VarTable.Vars.Contents, GlobalTable.Grows, GlobalTable.Table.Snapshot, Doze, Grant, TapeMachine.Step;
      gt.Still();
      match prog.reader.state {
        case InstructionLine => Interpret(prog, gt, slice, spent, t);
        case Asleep => prog.SleepOn(slice);
        case Waiting => prog.WaitOn(gt);
        case LastLine =>
        case Finished =>
        case Undefined =>
      }
    }

    /** One visit to the current program, after which the walk moves on. */
    method VisitCurrent(gt: GlobalTable.Table, slice: nat, spent: seq<int>, ghost t: Tape)
      requires Valid() && at.Some?
      requires var prog := list[at.value];
        prog.Servable(gt) && prog.IsAt(t) && this !in prog.vars.Repr && this !in gt.Repr
      modifies this, list[at.value], list[at.value].reader, list[at.value].reader.input
      modifies list[at.value].vars, list[at.value].vars.Repr, gt.Repr
      ensures var prog := old(list[at.value]);
        var s := Served(t, old(gt.Contents()), slice, spent);
        && Valid() && prog.Servable(gt) && gt.Contents() == s.glob && prog.IsAt(s.tape)
        && fresh(prog.vars.Repr - old(prog.vars.Repr)) && fresh(gt.Repr - old(gt.Repr))
        && GlobalTable.Grows(old(gt.Snapshot()), gt.Snapshot())
        && (if s.tape.core.status == Wild then exists f :: Ring() == S.Step(old(Ring()), S.Visit(f))
            else Ring() == S.Step(old(Ring()), S.Visit(s.tape.core.status == Status.Finished)))
    {
      hide Served, GlobalTable.Table.Contents, GlobalTable.Table.Valid, Reader.Valid, VarTable.Vars.Valid;
      hide VarTable.Vars.Contents, GlobalTable.Grows, GlobalTable.Table.Snapshot, S.Step, S.Whole;
      var prog := list[at.value];
      Serve(prog, gt, slice, spent, t);
      MoveOn(prog.reader.state == Phase.Finished || prog.reader.error);
    }
  }
}
