/** Programs whose operations on globals are taken apart into the steps of the lock protocol:
    whatever the interleaving of these steps, the programs run as on the machine that does
    each visit at once. */
module LockedRuns {
  import opened Syntax
  import opened Locals
  import opened Machine
  import P = LockProtocol
  import Linearizability

  /** Program number `t` is participant `t`. While an operation is under way, its program
      stands at the instruction that asked for it; its own variables, which nobody else sees,
      are brought up to date when the operation returns. */
  datatype Locked = Locked(locks: P.State, procs: seq<Proc>)

  /** Something that touches no globals, or one step of an operation on them. */
  datatype Move = Local(who: nat, slice: nat) | Ask(who: nat) | Go(who: nat) | Return(who: nat)

  /** The operation that an instruction asks for, when its operands have been evaluated. */
  function Asked(p: Proc, ins: Instr): Option<P.Call> {
    match ins
    case Load(_, glob) =>
      var at := Locate(p, glob);
      if at.ok then Some(P.Load(at.name, at.idx)) else None
    case Store(glob, src) =>
      var at := Locate(p, glob);
      var e := Eval(src, at.after.table, p.args);
      if at.ok && e.out.Ok? then Some(P.Store(at.name, at.idx, e.out.value)) else None
    case Down(glob) =>
      var at := Locate(p, glob);
      if at.ok then Some(P.Down(at.name, at.idx)) else None
    case Up(glob) =>
      var at := Locate(p, glob);
      if at.ok then Some(P.Up(at.name, at.idx)) else None
    case _ => None
  }

  /** The program when that operation has answered. */
  function Answered(p: Proc, ins: Instr, result: int): Proc
    requires Asked(p, ins).Some?
  {
    var at := Locate(p, ins.glob);
    match ins
    case Load(dst, _) => After(at.after, Assign(dst, result, at.after.table, p.args))
    case Store(_, src) => After(at.after, Eval(src, at.after.table, p.args))
    case Down(_) => at.after.(status := Blocked, sem := at.name, semIdx := at.idx)
    case Up(_) => at.after
  }

  /** The operation that the next visit to a program asks for, if any. */
  function Operation(p: Proc): Option<P.Call> {
    match p.status
    case Ready =>
      if p.line < |p.code| && Entered(p).status.Ready? then Asked(Poised(p), p.code[p.line].instr) else None
    case Blocked => Some(P.Take(p.sem, p.semIdx))
    case _ => None
  }

  /** The program after the visit. */
  function Completed(p: Proc, result: int): Proc
    requires Operation(p).Some?
  {
    if p.status.Ready? then Answered(Poised(p), p.code[p.line].instr, result)
    else if result == 1 then p.(status := Ready)
    else p
  }

  // ----- a visit is an operation -----

  lemma {:induction false} AskedExecutes(p: Proc, g: Globals.Store, ins: Instr)
    requires Asked(p, ins).Some?
    ensures var c := Asked(p, ins).value;
      Execute(p, g, ins) == Pair(Answered(p, ins, P.Answer(c, g)), P.Atomic(c, g)) && !c.Take?
  {
    hide Eval, Locate, Assign;
  }

  lemma {:induction false} NotAskedExecutes(p: Proc, g: Globals.Store, h: Globals.Store, ins: Instr)
    requires Asked(p, ins).None?
    ensures Execute(p, g, ins) == Pair(Execute(p, h, ins).proc, g)
  {
    hide Eval, Locate, Assign, EvalBoth, Jump, PrintArgs;
  }

  /** A visit that asks for an operation does that operation and nothing else to the globals. */
  lemma {:induction false} VisitOperates(p: Proc, g: Globals.Store, slice: nat)
    requires Operation(p).Some?
    ensures var c := Operation(p).value;
      Visit(p, g, slice) == Pair(Completed(p, P.Answer(c, g)), P.Atomic(c, g))
  {
    if p.status.Ready? {
      hide Execute, Asked, Answered, P.Answer, P.Atomic;
      AskedExecutes(Poised(p), g, p.code[p.line].instr);
      AskedIsGlobal(Poised(p), p.code[p.line].instr);
    }
  }

  lemma {:induction false} AskedIsGlobal(p: Proc, ins: Instr)
    requires Asked(p, ins).Some?
    ensures !ins.Print?
  {
    hide Locate, Eval;
  }

  /** Any other visit neither reads nor changes them. */
  lemma {:induction false} VisitIsLocal(p: Proc, g: Globals.Store, h: Globals.Store, slice: nat)
    requires Operation(p).None?
    ensures Visit(p, g, slice) == Pair(Visit(p, h, slice).proc, g)
  {
    if p.status.Ready? && p.line < |p.code| && Entered(p).status.Ready? {
      hide Execute, Asked;
      NotAskedExecutes(Poised(p), g, h, p.code[p.line].instr);
    }
  }

  // ----- moves -----

  predicate Enabled(s: Locked, m: Move) {
    m.who < |s.procs| && m.who < |s.locks.threads| && P.Linked(s.locks, s.locks.threads[m.who]) &&
    var th, op := s.locks.threads[m.who], Operation(s.procs[m.who]);
    match m
    case Local(_, _) => th.phase.Idle? && op.None?
    case Ask(_) => th.phase.Idle? && op.Some?
    case Go(_) => true
    case Return(_) => th.phase.Done? && op.Some?
  }

  function Do(s: Locked, m: Move): Locked
    requires Enabled(s, m)
  {
    var t, p := m.who, s.procs[m.who];
    match m
    case Local(_, slice) => s.(procs := s.procs[t := Visit(p, map[], slice).proc])
    case Ask(_) => s.(locks := P.Begin(s.locks, t, Operation(p).value))
    case Go(_) => s.(locks := P.Step(s.locks, t))
    case Return(_) => Locked(P.Finish(s.locks, t), s.procs[t := Completed(p, s.locks.threads[t].result)])
  }

  /** Moves that are not possible are skipped. */
  function DoAll(s: Locked, ms: seq<Move>): Locked {
    if ms == [] then s
    else
      var r := DoAll(s, ms[..|ms| - 1]);
      if Enabled(r, ms[|ms| - 1]) then Do(r, ms[|ms| - 1]) else r
  }

  /** Thread and program agree on the operation under way and on the semaphore waited for. */
  ghost predicate Agree(s: P.State, th: P.Thread, p: Proc) {
    && (p.status.Blocked? <==> th.sem.Some?)
    && (th.sem.Some? ==>
          var (r, i) := th.sem.value; r < |s.vars| && s.vars[r].name == p.sem && i == p.semIdx)
    && (!th.phase.Idle? ==> Operation(p) == Some(th.call))
  }

  ghost predicate Inv(s: Locked) {
    && P.Inv(s.locks) && |s.procs| == |s.locks.threads|
    && forall t | 0 <= t < |s.procs| :: Agree(s.locks, s.locks.threads[t], s.procs[t])
  }

  /** The program as the machine has it: an operation happens when it takes effect. */
  function Seen(th: P.Thread, p: Proc): Proc {
    if P.AfterEffect(th) && Operation(p).Some? then Completed(p, th.result) else p
  }

  /** The state as the machine has it. */
  ghost function Abstract(s: Locked): Sys
    requires Inv(s)
  {
    Sys(P.Contents(s.locks), seq(|s.procs|, t requires 0 <= t < |s.procs| => Seen(s.locks.threads[t], s.procs[t])))
  }

  // ----- what a step of the locks means -----

  /** A participant before and after its step: `takes` says that the operation took effect,
      with the answer `result`. */
  ghost predicate Moved(was: P.Thread, th: P.Thread, takes: bool, result: int) {
    && th.sem == was.sem && (th.phase.Idle? <==> was.phase.Idle?)
    && (!was.phase.Idle? ==> th.call == was.call)
    && if takes then !P.AfterEffect(was) && P.AfterEffect(th) && th.result == result
       else (P.AfterEffect(th) <==> P.AfterEffect(was)) && (P.AfterEffect(th) ==> th.result == was.result)
  }

  lemma {:induction false} InsertMeans(s: P.State, t: nat)
    requires P.Inv(s) && t < |s.threads| && s.threads[t].phase.Missing?
    ensures var c, u := s.threads[t].call, P.Insert(s, t);
      P.Named(u) && P.Contents(u) == P.Atomic(c, P.Contents(s)) && P.Answer(c, P.Contents(s)) == 0
  {
    assert P.Aware(s, s.threads[t]);
    P.InsertContents(s, t);
    ContentsNames(s);
    hide P.Inv, P.Aware, P.Contents, P.Insert, P.Named, P.Atomic, P.Answer, P.Made;
    P.MakingIsAtomic(s.threads[t].call, P.Contents(s));
  }

  lemma {:induction false} AccessMeans(s: P.State, t: nat)
    requires P.Inv(s) && t < |s.threads| && s.threads[t].phase.Inside?
    ensures P.Linked(s, s.threads[t])
    ensures var c, u, g := s.threads[t].call, P.Access(s, t), P.Contents(s);
      P.Named(u) && c.name in g && (c.Take? ==> c.idx < |g[c.name]|)
      && g[c.name] == s.vars[s.threads[t].ref].count && P.Answer(c, g) == P.Seen(c, g[c.name])
      && P.Contents(u) == if P.TakesEffect(s, P.Go(t)) then P.Atomic(c, g) else g
  {
    assert P.Aware(s, s.threads[t]);
    P.AccessContents(s, t);
    ContentsNames(s);
    hide P.Inv, P.Contents, P.Access, P.Named, P.Atomic, P.Answer, P.Updated, P.Seen;
    P.UpdateIsAtomic(s.threads[t].call, P.Contents(s));
  }

  lemma {:induction false} AccessMoves(s: P.State, t: nat)
    requires t < |s.threads| && P.Linked(s, s.threads[t]) && s.threads[t].phase.Inside?
    ensures var th, was := P.Access(s, t).threads[t], s.threads[t];
      P.Access(s, t).threads == s.threads[t := th]
      && Moved(was, th, P.TakesEffect(s, P.Go(t)), P.Seen(was.call, s.vars[was.ref].count))
  {
    hide P.Seen, P.Updated;
  }

  lemma {:induction false} TableMoves(s: P.State, t: nat)
    requires t < |s.threads| && P.Linked(s, s.threads[t]) && P.AtTable(s.threads[t])
    ensures var th, was := P.Step(s, t).threads[t], s.threads[t];
      P.Step(s, t).threads == s.threads[t := th] && Moved(was, th, false, 0)
  {
    hide P.Access, P.Insert, P.Holding;
  }

  lemma {:induction false} MutexMoves(s: P.State, t: nat)
    requires t < |s.threads| && P.Linked(s, s.threads[t]) && P.AtMutex(s.threads[t])
    ensures var th, was := P.Step(s, t).threads[t], s.threads[t];
      P.Step(s, t).threads == s.threads[t := th] && Moved(was, th, false, 0)
  {
    hide P.Access, P.Insert;
  }

  lemma {:induction false} QuietMoves(s: P.State, t: nat)
    requires t < |s.threads| && P.Linked(s, s.threads[t]) && !s.threads[t].phase.Missing? && !s.threads[t].phase.Inside?
    ensures var th, was := P.Step(s, t).threads[t], s.threads[t];
      P.Step(s, t).threads == s.threads[t := th] && Moved(was, th, false, 0)
  {
    hide P.Access, P.Insert;
    if P.AtTable(s.threads[t]) {
      hide P.Step;
      TableMoves(s, t);
    } else if P.AtMutex(s.threads[t]) {
      hide P.Step;
      MutexMoves(s, t);
    }
  }

  lemma {:induction false} InsertMoves(s: P.State, t: nat)
    requires t < |s.threads| && s.threads[t].phase.Missing?
    ensures var th := P.Insert(s, t).threads[t];
      P.Insert(s, t).threads == s.threads[t := th] && Moved(s.threads[t], th, true, 0)
  {
    hide P.Made;
  }

  /** A step either leaves the cells alone and the operation where it was, or does the
      operation atomically and keeps its answer. */
  ghost predicate Means(s: P.State, u: P.State, t: nat, takes: bool)
    requires P.Named(s) && P.Named(u) && t < |s.threads| && t < |u.threads|
  {
    var c := s.threads[t].call;
    && u.threads == s.threads[t := u.threads[t]]
    && Moved(s.threads[t], u.threads[t], takes, P.Answer(c, P.Contents(s)))
    && P.Contents(u) == if takes then P.Atomic(c, P.Contents(s)) else P.Contents(s)
  }

  lemma {:induction false} InsertDoes(s: P.State, t: nat)
    requires P.Inv(s) && t < |s.threads| && s.threads[t].phase.Missing?
    ensures P.Named(P.Insert(s, t)) && |P.Insert(s, t).threads| == |s.threads| && Means(s, P.Insert(s, t), t, true)
  {
    InsertMeans(s, t);
    InsertMoves(s, t);
    hide P.Inv, P.Insert, P.Contents, P.Named, P.Atomic, P.Answer, Moved;
  }

  lemma {:induction false} AccessDoes(s: P.State, t: nat)
    requires P.Inv(s) && t < |s.threads| && s.threads[t].phase.Inside?
    ensures P.Linked(s, s.threads[t]) && P.Named(P.Access(s, t)) && |P.Access(s, t).threads| == |s.threads|
    ensures Means(s, P.Access(s, t), t, P.TakesEffect(s, P.Go(t)))
  {
    AccessMeans(s, t);
    AccessMoves(s, t);
    hide P.Inv, P.Access, P.Contents, P.Named, P.Atomic, P.Answer, P.Seen;
  }

  lemma {:induction false} QuietDoes(s: P.State, t: nat)
    requires P.Inv(s) && t < |s.threads| && P.Linked(s, s.threads[t])
    requires !s.threads[t].phase.Missing? && !s.threads[t].phase.Inside?
    ensures P.Named(P.Step(s, t)) && |P.Step(s, t).threads| == |s.threads| && Means(s, P.Step(s, t), t, false)
  {
    QuietMoves(s, t);
    P.QuietCells(s, P.Go(t));
    hide P.Step, P.Locked, P.AllAware, P.Contents, P.Atomic, P.Answer, P.Linked, P.SameCells, P.Named;
    P.SameContents(s, P.Step(s, t));
  }

  lemma StepCases(s: P.State, t: nat)
    requires t < |s.threads| && P.Linked(s, s.threads[t])
    ensures s.threads[t].phase.Missing? ==> P.Step(s, t) == P.Insert(s, t) && P.TakesEffect(s, P.Go(t))
    ensures s.threads[t].phase.Inside? ==> P.Step(s, t) == P.Access(s, t)
    ensures !s.threads[t].phase.Missing? && !s.threads[t].phase.Inside? ==> !P.TakesEffect(s, P.Go(t))
  {}

  lemma {:induction false} StepMeans(s: P.State, t: nat)
    requires P.Inv(s) && t < |s.threads|
    ensures P.Linked(s, s.threads[t]) && P.Inv(P.Step(s, t)) && P.Evolves(s, P.Step(s, t), t)
    ensures Means(s, P.Step(s, t), t, P.TakesEffect(s, P.Go(t)))
  {
    P.StepKeepsInv(s, t);
    StepCases(s, t);
    hide Means, P.Locked, P.Named, P.AllAware, P.Linked, P.Insert, P.Access, P.Evolves, P.Step, P.TakesEffect;
    if s.threads[t].phase.Missing? { InsertDoes(s, t); }
    else if s.threads[t].phase.Inside? { AccessDoes(s, t); }
    else { QuietDoes(s, t); }
  }

  lemma {:induction false} ContentsNames(s: P.State)
    requires P.Named(s)
    ensures P.Contents(s).Keys == s.table.Keys
  {}

  // ----- every move keeps thread and program in step -----

  /** Only DOWN parks a program, and then where the operation was. */
  lemma {:induction false} CompletedParks(p: Proc, result: int)
    requires Operation(p).Some?
    ensures var c, q := Operation(p).value, Completed(p, result);
      && (p.status.Ready? && !c.Down? ==> !q.status.Blocked?)
      && (p.status.Ready? && c.Down? ==> q.status.Blocked? && q.sem == c.name && q.semIdx == c.idx)
      && (p.status.Ready? <==> !c.Take?)
      && (!p.status.Ready? ==> p.status.Blocked? && q == if result == 1 then p.(status := Ready) else p)
  {
    hide Eval, Assign;
  }

  lemma {:induction false} LocalStaysUnparked(p: Proc, slice: nat)
    requires Operation(p).None?
    ensures !p.status.Blocked? && !Visit(p, map[], slice).proc.status.Blocked?
  {
    if p.status.Ready? && p.line < |p.code| && Entered(p).status.Ready? {
      hide Execute, Asked;
      NotAskedUnparked(Poised(p), p.code[p.line].instr);
    }
  }

  lemma {:induction false} NotAskedUnparked(p: Proc, ins: Instr)
    requires Asked(p, ins).None? && p.status.Ready?
    ensures !Execute(p, map[], ins).proc.status.Blocked?
  {
    hide Eval, Assign, Jump, PrintArgs, EvalBoth;
    match ins
    case Print(text, args) => PrintUnparked(p, args, text, []);
    case Bra(target) => JumpUnparked(p, target);
    case Branch(_, left, right, target) =>
      BothUnparked(p, left, right);
      JumpUnparked(EvalBoth(p, left, right).after, target);
    case Arith(_, _, left, right) => BothUnparked(p, left, right);
    case _ =>
  }

  lemma {:induction false} BothUnparked(p: Proc, a: Operand, b: Operand)
    requires !p.status.Blocked?
    ensures !EvalBoth(p, a, b).after.status.Blocked?
  {
    hide Eval;
  }

  lemma {:induction false} JumpUnparked(p: Proc, target: string)
    requires !p.status.Blocked?
    ensures !Jump(p, target).status.Blocked?
  {}

  lemma {:induction false} PrintUnparked(p: Proc, args: seq<Operand>, text: string, shown: seq<int>)
    requires !p.status.Blocked?
    ensures !PrintArgs(p, args, text, shown).status.Blocked?
    decreases |args|
  {
    if args != [] {
      var e := Eval(args[0], p.table, p.args);
      if e.out.Ok? { PrintUnparked(After(p, e), args[1..], text, shown + [e.out.value]); }
    }
  }

  /** A move of thread `t` that keeps the locks in order and `t` in step with its program
      keeps everybody in step. */
  lemma {:induction false} OthersAgree(s: Locked, u: Locked, t: nat)
    requires Inv(s) && t < |s.procs| && |u.procs| == |s.procs| && u.procs == s.procs[t := u.procs[t]]
    requires P.Inv(u.locks) && P.Evolves(s.locks, u.locks, t)
    requires Agree(u.locks, u.locks.threads[t], u.procs[t])
    ensures Inv(u)
    ensures Abstract(u) == Sys(P.Contents(u.locks), Abstract(s).procs[t := Seen(u.locks.threads[t], u.procs[t])])
  {
    hide P.Inv, Operation, Completed, P.Contents, P.AfterEffect;
    forall o | 0 <= o < |u.procs| ensures Agree(u.locks, u.locks.threads[o], u.procs[o]) {
      if o != t {
        assert Agree(s.locks, s.locks.threads[o], s.procs[o]) && u.procs[o] == s.procs[o];
        var th := s.locks.threads[o];
        assert u.locks.threads[o] == th;
        if th.sem.Some? { assert u.locks.vars[th.sem.value.0].name == s.locks.vars[th.sem.value.0].name; }
      }
    }
  }

  lemma {:induction false} LocalDoes(s: Locked, m: Move)
    requires Inv(s) && Enabled(s, m) && m.Local?
    ensures Inv(Do(s, m)) && Abstract(Do(s, m)) == Next(Abstract(s), Turn(m.who, m.slice))
  {
    var t, p := m.who, s.procs[m.who];
    assert Agree(s.locks, s.locks.threads[t], p);
    LocalStaysUnparked(p, m.slice);
    VisitIsLocal(p, P.Contents(s.locks), map[], m.slice);
    hide P.Inv, Operation, Completed, Visit, P.Contents;
    OthersAgree(s, Do(s, m), t);
  }

  lemma {:induction false} AskDoes(s: Locked, m: Move)
    requires Inv(s) && Enabled(s, m) && m.Ask?
    ensures Inv(Do(s, m)) && Abstract(Do(s, m)) == Abstract(s)
  {
    var t, p, c := m.who, s.procs[m.who], Operation(s.procs[m.who]).value;
    assert Agree(s.locks, s.locks.threads[t], p);
    CompletedParks(p, 0);
    P.ActKeepsInv(s.locks, P.Invoke(t, c));
    P.QuietCells(s.locks, P.Invoke(t, c));
    P.SameContents(s.locks, Do(s, m).locks);
    Asking(s, m);
    hide P.Locked, P.Named, P.AllAware, P.Aware, P.Contents, Operation, Completed, P.Begin, P.SameCells, P.Evolves;
    OthersAgree(s, Do(s, m), t);
  }

  lemma {:induction false} Asking(s: Locked, m: Move)
    requires Enabled(s, m) && m.Ask? && Agree(s.locks, s.locks.threads[m.who], s.procs[m.who])
    ensures var u, th := Do(s, m).locks, s.locks.threads[m.who];
      && |u.threads| == |s.locks.threads| && u.vars == s.locks.vars && Do(s, m).procs == s.procs
      && u.threads[m.who].phase.Idle? == false && !P.AfterEffect(u.threads[m.who])
      && u.threads[m.who].call == Operation(s.procs[m.who]).value && u.threads[m.who].sem == th.sem
  {
    CompletedParks(s.procs[m.who], 0);
    var p := s.procs[m.who];
    if p.status.Blocked? { assert Operation(p) == Some(P.Take(p.sem, p.semIdx)); }
    hide Asked, Completed;
  }

  lemma {:induction false} ReturnDoes(s: Locked, m: Move)
    requires Inv(s) && Enabled(s, m) && m.Return?
    ensures Inv(Do(s, m)) && Abstract(Do(s, m)) == Abstract(s)
  {
    var t, p, th := m.who, s.procs[m.who], s.locks.threads[m.who];
    assert Agree(s.locks, th, p) && P.Aware(s.locks, th);
    P.ActKeepsInv(s.locks, P.Return(t));
    P.QuietCells(s.locks, P.Return(t));
    P.SameContents(s.locks, Do(s, m).locks);
    CompletedParks(p, th.result);
    hide P.Locked, P.Named, P.AllAware, P.Contents, Operation, Completed, P.SameCells, P.Evolves;
    OthersAgree(s, Do(s, m), t);
  }

  lemma {:induction false} GoTakes(s: Locked, t: nat)
    requires Inv(s) && Enabled(s, Go(t)) && P.TakesEffect(s.locks, P.Go(t))
    ensures Inv(Do(s, Go(t))) && Abstract(Do(s, Go(t))) == Next(Abstract(s), Turn(t, 0))
  {
    var p, th := s.procs[t], s.locks.threads[t];
    assert Agree(s.locks, th, p);
    hide P.Inv, P.Contents, P.Step, P.Atomic, P.Answer, Operation, Completed, Visit, P.Linked, P.TakesEffect;
    StepMeans(s.locks, t);
    VisitOperates(p, P.Contents(s.locks), 0);
    OthersAgree(s, Do(s, Go(t)), t);
  }

  lemma {:induction false} GoWaits(s: Locked, t: nat)
    requires Inv(s) && Enabled(s, Go(t)) && !P.TakesEffect(s.locks, P.Go(t))
    ensures Inv(Do(s, Go(t))) && Abstract(Do(s, Go(t))) == Abstract(s)
  {
    assert Agree(s.locks, s.locks.threads[t], s.procs[t]);
    hide P.Inv, P.Contents, P.Step, P.Atomic, P.Answer, Operation, Completed, P.Linked, P.TakesEffect;
    StepMeans(s.locks, t);
    OthersAgree(s, Do(s, Go(t)), t);
  }

  lemma {:induction false} GoDoes(s: Locked, m: Move)
    requires Inv(s) && Enabled(s, m) && m.Go?
    ensures Inv(Do(s, m))
    ensures Abstract(Do(s, m)) ==
      if P.TakesEffect(s.locks, P.Go(m.who)) then Next(Abstract(s), Turn(m.who, 0)) else Abstract(s)
  {
    hide Inv, Do, Abstract, Next;
    if P.TakesEffect(s.locks, P.Go(m.who)) { GoTakes(s, m.who); } else { GoWaits(s, m.who); }
  }

  // ----- runs -----

  /** The turn of the machine that a move amounts to, if any: an operation takes its turn at
      the step at which it takes effect. */
  function TurnOf(s: Locked, m: Move): seq<Turn>
    requires Enabled(s, m)
  {
    match m
    case Local(t, slice) => [Turn(t, slice)]
    case Go(t) => if P.TakesEffect(s.locks, P.Go(t)) then [Turn(t, 0)] else []
    case _ => []
  }

  function Turns(s: Locked, ms: seq<Move>): seq<Turn> {
    if ms == [] then []
    else
      var r, m := DoAll(s, ms[..|ms| - 1]), ms[|ms| - 1];
      Turns(s, ms[..|ms| - 1]) + if Enabled(r, m) then TurnOf(r, m) else []
  }

  /** One move keeps threads and programs in step, and is that turn of the machine or cannot
      be noticed. */
  lemma {:induction false} DoSimulates(s: Locked, m: Move)
    requires Inv(s) && Enabled(s, m)
    ensures Inv(Do(s, m)) && Abstract(Do(s, m)) == Run(Abstract(s), TurnOf(s, m))
  {
    hide P.TakesEffect, Inv, Enabled, Do, Abstract, Next;
    var ts := TurnOf(s, m);
    assert ts == [] || (|ts| == 1 && Run(Abstract(s), ts) == Next(Abstract(s), ts[0])) by {
      if ts != [] { assert ts[..0] == []; }
    }
    match m
    case Local(_, _) => LocalDoes(s, m);
    case Ask(_) => AskDoes(s, m);
    case Go(_) => GoDoes(s, m);
    case Return(_) => ReturnDoes(s, m);
  }

  /** Whatever the interleaving of lock steps, the programs are at every moment where a run
      of the machine has them, in which each operation on the globals is one turn. */
  lemma {:induction false} LockStepsAreTurns(s: Locked, ms: seq<Move>)
    requires Inv(s)
    ensures Inv(DoAll(s, ms)) && Abstract(DoAll(s, ms)) == Run(Abstract(s), Turns(s, ms))
  {
    hide Inv, Enabled, Do, Abstract, TurnOf;
    if ms == [] {
    } else {
      var before, m := ms[..|ms| - 1], ms[|ms| - 1];
      LockStepsAreTurns(s, before);
      var r := DoAll(s, before);
      if Enabled(r, m) {
        DoSimulates(r, m);
        RunSplit(Abstract(s), Turns(s, before), TurnOf(r, m));
      } else {
        assert Turns(s, ms) == Turns(s, before);
      }
    }
  }

  /** No operation is under way. */
  ghost predicate AtRest(s: Locked) {
    forall t | 0 <= t < |s.locks.threads| :: s.locks.threads[t].phase.Idle?
  }

  /** Whenever no operation is under way, cells and programs are those of that run. */
  lemma {:induction false} RestIsMachine(s: Locked, ms: seq<Move>)
    requires Inv(s) && AtRest(s) && AtRest(DoAll(s, ms))
    ensures Inv(DoAll(s, ms))
    ensures Sys(P.Contents(DoAll(s, ms).locks), DoAll(s, ms).procs) ==
      Run(Sys(P.Contents(s.locks), s.procs), Turns(s, ms))
  {
    LockStepsAreTurns(s, ms);
    Resting(s);
    Resting(DoAll(s, ms));
  }

  lemma {:induction false} Resting(s: Locked)
    requires Inv(s) && AtRest(s)
    ensures Abstract(s) == Sys(P.Contents(s.locks), s.procs)
  {
    hide P.Inv, P.Contents, Operation, Completed, Agree;
    forall t | 0 <= t < |s.procs| ensures Abstract(s).procs[t] == s.procs[t] {
      assert s.locks.threads[t].phase.Idle?;
    }
  }

  /** No variables yet, and programs that wait for nothing: a state from which runs start. */
  lemma {:induction false} FreshStart(s: Locked)
    requires Linearizability.Begins(s.locks) && |s.procs| == |s.locks.threads|
    requires forall t | 0 <= t < |s.procs| :: !s.procs[t].status.Blocked?
    ensures Inv(s) && AtRest(s) && P.Contents(s.locks) == map[]
  {
    hide Operation, Completed;
  }

  /** Programs that are attached when all is at rest find the locks in order. */
  lemma {:induction false} Reattached(s: Locked, u: Locked)
    requires Inv(s) && AtRest(s) && AtRest(u) && |u.procs| == |u.locks.threads|
    requires u.locks == s.locks.(threads := u.locks.threads)
    requires forall t | 0 <= t < |u.procs| :: u.locks.threads[t].sem.None? && !u.procs[t].status.Blocked?
    ensures Inv(u) && P.Contents(u.locks) == P.Contents(s.locks)
  {
    hide Operation, Completed;
    assert s.locks.lock.None?;
    forall r | 0 <= r < |s.locks.vars| ensures s.locks.vars[r].holder.None? {}
  }

  // ----- every turn of the machine can be taken in lock steps -----

  ghost predicate OnlyBusy(s: P.State, t: nat) {
    && t < |s.threads| && !s.threads[t].phase.Idle?
    && forall o | 0 <= o < |s.threads| && o != t :: s.threads[o].phase.Idle?
  }

  /** How many steps an undisturbed operation still needs at most. */
  function StepsLeft(th: P.Thread): nat {
    match th.phase
    case Idle => 0
    case Start => 7
    case Searching => 6
    case Found => 5
    case Released => 4
    case Missing => 2
    case Inserted => 1
    case Fetched => if th.call.Take? then 5 else 3
    case Inside => if th.call.Take? && !th.waited then 4 else 2
    case Waiting => 3
    case Leaving => 1
    case Done => 0
  }

  lemma {:induction false} LocksFree(s: P.State, t: nat)
    requires P.Locked(s) && OnlyBusy(s, t)
    ensures !P.HoldsTable(s.threads[t]) ==> s.lock.None?
    ensures !P.HoldsMutex(s.threads[t]) ==> forall r | 0 <= r < |s.vars| :: s.vars[r].holder.None?
  {
    if s.lock.Some? { assert P.HoldsTable(s.threads[s.lock.value]); }
    forall r | 0 <= r < |s.vars| && !P.HoldsMutex(s.threads[t]) ensures s.vars[r].holder.None? {}
  }

  lemma {:induction false} Advances(s: P.State, t: nat)
    requires P.Inv(s) && OnlyBusy(s, t)
    ensures P.Linked(s, s.threads[t]) && |P.Step(s, t).threads| == |s.threads|
    ensures var was, th := s.threads[t], P.Step(s, t).threads[t];
      StepsLeft(th) == 0 || StepsLeft(th) < StepsLeft(was)
  {
    assert P.Aware(s, s.threads[t]);
    LocksFree(s, t);
    hide P.Inv, P.Locked, P.Seen, P.Updated, P.Made;
  }

  function Gos(t: nat, k: nat): seq<Move> {
    if k == 0 then [] else Gos(t, k - 1) + [Go(t)]
  }

  /** The moves of one turn, from rest to rest. */
  function Serve(s: Locked, turn: Turn): seq<Move> {
    if turn.who >= |s.procs| then []
    else if Operation(s.procs[turn.who]).None? then [Local(turn.who, turn.slice)]
    else [Ask(turn.who)] + Gos(turn.who, 7) + [Move.Return(turn.who)]
  }

  function ServeAll(s: Locked, turns: seq<Turn>): seq<Move> {
    if turns == [] then []
    else
      var before := ServeAll(s, turns[..|turns| - 1]);
      before + Serve(DoAll(s, before), turns[|turns| - 1])
  }

  lemma {:induction false} DoOneMore(s: Locked, ms: seq<Move>, m: Move)
    ensures var r := DoAll(s, ms);
      DoAll(s, ms + [m]) == (if Enabled(r, m) then Do(r, m) else r)
      && Turns(s, ms + [m]) == Turns(s, ms) + if Enabled(r, m) then TurnOf(r, m) else []
  {
    hide Enabled, Do, TurnOf;
    assert (ms + [m])[..|ms|] == ms;
  }

  lemma {:induction false} Asks(s: Locked, t: nat)
    requires Inv(s) && AtRest(s) && t < |s.procs| && Operation(s.procs[t]).Some?
    ensures var r := DoAll(s, [Ask(t)]);
      Inv(r) && OnlyBusy(r.locks, t) && r.procs == s.procs && !P.AfterEffect(r.locks.threads[t])
      && StepsLeft(r.locks.threads[t]) <= 7 && Turns(s, [Ask(t)]) == []
  {
    assert Agree(s.locks, s.locks.threads[t], s.procs[t]) && P.Aware(s.locks, s.locks.threads[t]);
    DoOneMore(s, [], Ask(t));
    assert [] + [Ask(t)] == [Ask(t)];
    AskDoes(s, Ask(t));
    Asking(s, Ask(t));
    hide P.Inv, Operation, P.Aware, Agree, Turns;
  }

  /** One step of the only operation under way: it comes nearer to its end, and takes effect
      once. */
  lemma {:induction false} GoWorks(s: Locked, t: nat)
    requires Inv(s) && OnlyBusy(s.locks, t)
    ensures Enabled(s, Go(t))
    ensures var u, was, th := Do(s, Go(t)), s.locks.threads[t], Do(s, Go(t)).locks.threads[t];
      && Inv(u) && OnlyBusy(u.locks, t) && u.procs == s.procs
      && (StepsLeft(th) == 0 || StepsLeft(th) < StepsLeft(was))
      && (P.AfterEffect(was) ==> P.AfterEffect(th))
      && TurnOf(s, Go(t)) == if P.AfterEffect(th) && !P.AfterEffect(was) then [Turn(t, 0)] else []
  {
    Advances(s.locks, t);
    StepMeans(s.locks, t);
    GoDoes(s, Go(t));
    hide P.Inv, Operation, P.Step, P.Contents, P.Answer, P.Atomic, P.AfterEffect, P.Linked, P.TakesEffect, StepsLeft,
      P.Evolves, Abstract, Next, Agree;
  }

  /** After these moves the operation of `t` is the only one under way, has at most `left`
      steps to go, and has taken effect at most once. */
  ghost predicate Working(s: Locked, ms: seq<Move>, t: nat, left: int) {
    var r := DoAll(s, ms);
    && Inv(r) && OnlyBusy(r.locks, t) && r.procs == s.procs && StepsLeft(r.locks.threads[t]) <= left
    && Turns(s, ms) == if P.AfterEffect(r.locks.threads[t]) then [Turn(t, 0)] else []
  }

  lemma {:induction false} GoesOn(s: Locked, ms: seq<Move>, t: nat, left: nat)
    requires Working(s, ms, t, left) && left > 0
    ensures Working(s, ms + [Go(t)], t, left - 1)
  {
    DoOneMore(s, ms, Go(t));
    hide Inv, OnlyBusy, Enabled, Do, DoAll, TurnOf, Turns, P.AfterEffect, StepsLeft;
    GoWorks(DoAll(s, ms), t);
  }

  lemma {:induction false} Works(s: Locked, t: nat, k: nat)
    requires Inv(s) && AtRest(s) && t < |s.procs| && Operation(s.procs[t]).Some? && k <= 7
    ensures Working(s, [Ask(t)] + Gos(t, k), t, 7 - k)
  {
    hide Inv, AtRest, OnlyBusy, DoAll, Turns, P.AfterEffect, StepsLeft, Operation;
    if k == 0 {
      Asks(s, t);
      assert [Ask(t)] + Gos(t, 0) == [Ask(t)];
    } else {
      hide Working;
      Works(s, t, k - 1);
      GoesOn(s, [Ask(t)] + Gos(t, k - 1), t, 8 - k);
      assert [Ask(t)] + Gos(t, k) == [Ask(t)] + Gos(t, k - 1) + [Go(t)];
    }
  }

  lemma {:induction false} NoStepsLeft(s: P.State, t: nat)
    requires OnlyBusy(s, t) && StepsLeft(s.threads[t]) <= 0
    ensures s.threads[t].phase.Done?
  {}

  lemma {:induction false} Returns(s: Locked, t: nat)
    requires Inv(s) && OnlyBusy(s.locks, t) && t < |s.procs| && s.locks.threads[t].phase.Done?
    ensures Enabled(s, Move.Return(t)) && AtRest(Do(s, Move.Return(t)))
  {
    assert Agree(s.locks, s.locks.threads[t], s.procs[t]) && P.Aware(s.locks, s.locks.threads[t]);
    hide P.Inv, Operation, Completed, P.AfterEffect;
  }

  lemma {:induction false} AnySlice(s: Sys, t: nat, slice: nat)
    requires t < |s.procs| && Operation(s.procs[t]).Some?
    ensures Next(s, Turn(t, 0)) == Next(s, Turn(t, slice))
  {
    VisitOperates(s.procs[t], s.glob, 0);
    VisitOperates(s.procs[t], s.glob, slice);
    hide Operation, Completed, Visit, P.Answer, P.Atomic;
  }

  /** The moves of one turn lead from rest to rest, and have the effect of that turn. */
  lemma {:induction false} Serves(s: Locked, turn: Turn)
    requires Inv(s) && AtRest(s)
    ensures var r := DoAll(s, Serve(s, turn)); Inv(r) && AtRest(r) && Abstract(r) == Next(Abstract(s), turn)
  {
    var t := turn.who;
    if t < |s.procs| {
      if Operation(s.procs[t]).None? {
        LocalServes(s, turn);
      } else {
        OperationServes(s, turn);
      }
    }
  }

  lemma {:induction false} LocalServes(s: Locked, turn: Turn)
    requires Inv(s) && AtRest(s) && turn.who < |s.procs| && Operation(s.procs[turn.who]).None?
    ensures var r := DoAll(s, [Local(turn.who, turn.slice)]);
      Inv(r) && AtRest(r) && Abstract(r) == Next(Abstract(s), turn)
  {
    var m := Local(turn.who, turn.slice);
    assert P.Aware(s.locks, s.locks.threads[turn.who]);
    DoOneMore(s, [], m);
    assert [] + [m] == [m];
    hide P.Inv, Operation, P.Aware, Agree, Abstract, Visit, P.Linked;
    LocalDoes(s, m);
  }

  lemma {:induction false} OperationServes(s: Locked, turn: Turn)
    requires Inv(s) && AtRest(s) && turn.who < |s.procs| && Operation(s.procs[turn.who]).Some?
    ensures var r := DoAll(s, [Ask(turn.who)] + Gos(turn.who, 7) + [Move.Return(turn.who)]);
      Inv(r) && AtRest(r) && Abstract(r) == Next(Abstract(s), turn)
  {
    var t := turn.who;
    var ms := [Ask(t)] + Gos(t, 7);
    Works(s, t, 7);
    var r := DoAll(s, ms);
    NoStepsLeft(r.locks, t);
    Returns(r, t);
    DoOneMore(s, ms, Move.Return(t));
    LockStepsAreTurns(s, ms);
    ReturnDoes(r, Move.Return(t));
    Resting(s);
    AnySlice(Abstract(s), t, turn.slice);
    var ts := [Turn(t, 0)];
    assert ts[..0] == [];
    hide Inv, Enabled, Do, DoAll, Operation, Turns, StepsLeft, Gos, Abstract, Next, AtRest, OnlyBusy;
  }

  /** Every run of the machine is one that the lock steps can have. */
  lemma {:induction false} TurnsAreLockSteps(s: Locked, turns: seq<Turn>)
    requires Inv(s) && AtRest(s)
    ensures var r := DoAll(s, ServeAll(s, turns));
      Inv(r) && AtRest(r) && Abstract(r) == Run(Abstract(s), turns)
  {
    hide Inv, AtRest, Abstract, Serve, Next, DoAll;
    if turns == [] {
      Nothing(s);
    } else {
      var before := turns[..|turns| - 1];
      TurnsAreLockSteps(s, before);
      var r := DoAll(s, ServeAll(s, before));
      Serves(r, turns[|turns| - 1]);
      DoMore(s, ServeAll(s, before), Serve(r, turns[|turns| - 1]));
    }
  }

  lemma Nothing(s: Locked)
    ensures DoAll(s, []) == s
  {}

  lemma {:induction false} DoMore(s: Locked, a: seq<Move>, b: seq<Move>)
    ensures DoAll(s, a + b) == DoAll(DoAll(s, a), b)
    decreases |b|
  {
    hide Enabled, Do;
    if b == [] {
      assert a + b == a;
    } else {
      DoMore(s, a, b[..|b| - 1]);
      assert (a + b)[..|a + b| - 1] == a + b[..|b| - 1];
    }
  }
}
