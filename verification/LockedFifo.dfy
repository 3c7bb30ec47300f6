/** Shipped producers and consumers whose operations on globals are taken apart into the steps
    of the lock protocol: the items still come out in the order in which they went in. */
module LockedFifo {
  import opened Syntax
  import opened Locals
  import opened Globals
  import opened Machine
  import opened LockedRuns
  import P = LockProtocol
  import Steps
  import C = ProdCons
  import R = ProdConsRuns
  import B = Buffer
  import Init
  import Linearizability

  /** The items that an operation stores in the array $buf. */
  function StoredBy(e: P.Record): seq<int> {
    if e.call.Store? && e.call.name == "buf" then [e.call.value] else []
  }

  /** The items that it loads from there. */
  function LoadedBy(e: P.Record): seq<int> {
    if e.call.Load? && e.call.name == "buf" then [e.result] else []
  }

  function Stored(log: seq<P.Record>): seq<int> {
    if log == [] then [] else Stored(log[..|log| - 1]) + StoredBy(log[|log| - 1])
  }

  function Loaded(log: seq<P.Record>): seq<int> {
    if log == [] then [] else Loaded(log[..|log| - 1]) + LoadedBy(log[|log| - 1])
  }

  lemma {:induction false} MoreItems(log: seq<P.Record>, e: P.Record)
    ensures Stored(log + [e]) == Stored(log) + StoredBy(e) && Loaded(log + [e]) == Loaded(log) + LoadedBy(e)
  {
    assert (log + [e])[..|log|] == log;
  }

  // ----- one operation -----

  lemma OtherLines(role: B.Role, i: nat)
    requires i < C.Length(role) && i != R.BufferLine(role)
    ensures var ins := C.Code(role)[i].instr; ins.Store? || ins.Load? ==> ins.glob.Var? && ins.glob.name != "buf"
  {}

  lemma {:induction false} AskedName(p: Proc, ins: Instr)
    requires (ins.Store? || ins.Load?) && ins.glob.Var? && ins.glob.name != "buf" && Asked(p, ins).Some?
    ensures Asked(p, ins).value.name != "buf"
  {
    hide Eval;
  }

  lemma {:induction false} AskedKind(p: Proc, ins: Instr)
    requires Asked(p, ins).Some?
    ensures Asked(p, ins).value.Store? <==> ins.Store?
    ensures Asked(p, ins).value.Load? <==> ins.Load?
  {
    hide Eval, Locate;
  }

  lemma {:induction false} AskedItem(p: Proc, role: B.Role, g: Globals.Store, n: nat)
    requires C.Fit(p, role, g, n) && p.status.Ready? && p.line < |p.code| && p.line == R.BufferLine(role)
    requires p.code[p.line] == Line(None, R.BufferAccess(role))
    ensures Operation(p) == Some(
      if role.Producer? then P.Store("buf", Steps.Plain(p.table, "k"), Steps.Plain(p.table, "item"))
      else P.Load("buf", Steps.Plain(p.table, "k")))
  {
    Steps.LocateSimple(Poised(p), Elem("buf", Var("k")));
    if role.Producer? {
      Steps.EvalSimple(Var("item"), Locate(Poised(p), Elem("buf", Var("k"))).after.table, p.args);
    }
    hide Eval, Locate;
  }

  /** An operation stores and loads the items that the visit does. */
  lemma {:induction false} SameItems(p: Proc, role: B.Role, g: Globals.Store, n: nat, e: P.Record)
    requires C.Fit(p, role, g, n) && p.code == C.Code(role)
    requires Operation(p).Some? ==> e.call == Operation(p).value && e.result == P.Answer(e.call, g)
    ensures Operation(p).None? ==> R.PutBy(p, g) == [] && R.GotBy(p, g) == []
    ensures Operation(p).Some? ==> R.PutBy(p, g) == StoredBy(e) && R.GotBy(p, g) == LoadedBy(e)
  {
    hide Interpret, C.Code, Locate, Eval, Asked, Enter;
    if R.AtLine(p) {
      var l := p.code[p.line];
      R.BufferLines(role, p.line);
      if p.line == R.BufferLine(role) {
        AskedItem(p, role, g, n);
        if role.Producer? { R.StoredItem(p, g, n, l); } else { R.LoadedItem(p, g, n, l); }
      } else {
        OtherLines(role, p.line);
        if Operation(p).Some? {
          AskedKind(Poised(p), l.instr);
          if l.instr.Store? || l.instr.Load? { AskedName(Poised(p), l.instr); }
        }
      }
    }
  }

  // ----- one move -----

  /** What a move adds to the log of the locks. */
  ghost function Entry(s: Locked, m: Move): seq<P.Record>
    requires Inv(s) && Enabled(s, m)
  {
    var th := s.locks.threads[m.who];
    if m.Go? && P.TakesEffect(s.locks, P.Go(m.who)) then
      [P.Record(th.id, th.call, P.Answer(th.call, P.Contents(s.locks)))]
    else []
  }

  lemma {:induction false} MoveLogs(s: Locked, m: Move)
    requires Inv(s) && Enabled(s, m)
    ensures Do(s, m).locks.log == s.locks.log + Entry(s, m)
  {
    var t := m.who;
    match m
    case Local(_, _) =>
    case Ask(_) => P.QuietCells(s.locks, P.Invoke(t, Operation(s.procs[t]).value));
    case Return(_) => P.QuietCells(s.locks, P.Return(t));
    case Go(_) => GoLogs(s, t);
  }

  lemma {:induction false} GoLogs(s: Locked, t: nat)
    requires Inv(s) && Enabled(s, Go(t))
    ensures P.Step(s.locks, t).log == s.locks.log + Entry(s, Go(t))
  {
    StepMeans(s.locks, t);
    P.ActLogs(s.locks, P.Go(t));
    var was, th := s.locks.threads[t], P.Step(s.locks, t).threads[t];
    hide P.Inv, P.Step, P.Contents, P.Answer, P.Atomic, P.TakesEffect, P.Evolves, P.Linked;
    assert th.phase.Idle? <==> was.phase.Idle?;
  }

  /** It adds the items that the turn stores and loads. */
  lemma {:induction false} MoveItems(s: Locked, m: Move, roles: seq<B.Role>, n: nat, put: seq<int>, got: seq<int>)
    requires Inv(s) && Enabled(s, m) && R.Good(Abstract(s), roles, n, put, got)
    ensures Stored(Entry(s, m)) == R.Puts(Abstract(s), TurnOf(s, m))
    ensures Loaded(Entry(s, m)) == R.Gots(Abstract(s), TurnOf(s, m))
  {
    var a, t, ts := Abstract(s), m.who, TurnOf(s, m);
    R.GoodFits(a, roles, n, put, got, t);
    assert Agree(s.locks, s.locks.threads[t], s.procs[t]);
    if ts != [] {
      OneTurn(a, ts[0]);
      assert ts == [ts[0]];
      TurnItems(s, m, roles, n);
    }
  }

  lemma {:induction false} OneTurn(s: Sys, t: Turn)
    requires t.who < |s.procs|
    ensures R.Puts(s, [t]) == R.PutBy(s.procs[t.who], s.glob) && R.Gots(s, [t]) == R.GotBy(s.procs[t.who], s.glob)
  {
    hide R.PutBy, R.GotBy, Next;
    assert [t][..0] == [];
  }

  lemma {:induction false} TurnItems(s: Locked, m: Move, roles: seq<B.Role>, n: nat)
    requires Inv(s) && Enabled(s, m) && TurnOf(s, m) != [] && |roles| == |s.procs|
    requires var p := Abstract(s).procs[m.who];
      C.Fit(p, roles[m.who], Abstract(s).glob, n) && p.code == C.Code(roles[m.who])
    ensures var p, g := Abstract(s).procs[m.who], Abstract(s).glob;
      Stored(Entry(s, m)) == R.PutBy(p, g) && Loaded(Entry(s, m)) == R.GotBy(p, g)
  {
    hide P.Contents, P.Answer, C.Fit, C.Code, R.PutBy, R.GotBy, StoredBy, LoadedBy, Stored, Loaded;
    var p, t := s.procs[m.who], m.who;
    var th := s.locks.threads[t];
    assert Agree(s.locks, th, p);
    var e := P.Record(th.id, th.call, P.Answer(th.call, P.Contents(s.locks)));
    assert Abstract(s).procs[t] == p;
    SameItems(p, roles[t], P.Contents(s.locks), n, e);
    OneItem(e);
    NoItem();
    hide P.Inv, Operation, Completed;
  }

  lemma {:induction false} OneItem(e: P.Record)
    ensures Stored([e]) == StoredBy(e) && Loaded([e]) == LoadedBy(e)
  {
    hide StoredBy, LoadedBy;
    MoreItems([], e);
    assert [] + [e] == [e];
  }

  lemma NoItem()
    ensures Stored([]) == [] && Loaded([]) == []
  {}

  // ----- runs -----

  lemma {:induction false} PutsMore(s: Sys, a: seq<Turn>, b: seq<Turn>)
    ensures R.Puts(s, a + b) == R.Puts(s, a) + R.Puts(Run(s, a), b)
    decreases |b|
  {
    hide R.PutBy, Run;
    if b == [] {
      assert a + b == a;
    } else {
      var c := b[..|b| - 1];
      PutsMore(s, a, c);
      RunSplit(s, a, c);
      assert (a + b)[..|a + b| - 1] == a + c;
    }
  }

  lemma {:induction false} GotsMore(s: Sys, a: seq<Turn>, b: seq<Turn>)
    ensures R.Gots(s, a + b) == R.Gots(s, a) + R.Gots(Run(s, a), b)
    decreases |b|
  {
    hide R.GotBy, Run;
    if b == [] {
      assert a + b == a;
    } else {
      var c := b[..|b| - 1];
      GotsMore(s, a, c);
      RunSplit(s, a, c);
      assert (a + b)[..|a + b| - 1] == a + c;
    }
  }

  lemma {:induction false} ItemsMore(a: seq<P.Record>, b: seq<P.Record>)
    requires |b| <= 1
    ensures Stored(a + b) == Stored(a) + Stored(b) && Loaded(a + b) == Loaded(a) + Loaded(b)
  {
    hide Stored, Loaded;
    Few(b);
    if b == [] {
      assert a + b == a;
    } else {
      hide StoredBy, LoadedBy;
      var e := b[0];
      assert b == [e];
      MoreItems(a, e);
    }
  }

  lemma {:induction false} Few(b: seq<P.Record>)
    requires |b| <= 1
    ensures b == [] ==> Stored(b) == [] && Loaded(b) == []
    ensures b != [] ==> Stored(b) == StoredBy(b[0]) && Loaded(b) == LoadedBy(b[0])
  {
    hide StoredBy, LoadedBy;
    if b != [] { assert b[..0] == []; }
  }

  /** Since state `s`, the log of the locks has gained the items of the machine's run. */
  ghost predicate SameRun(s: Locked, ms: seq<Move>)
    requires Inv(s)
  {
    var r := DoAll(s, ms);
    && s.locks.log <= r.locks.log
    && Stored(r.locks.log[|s.locks.log|..]) == R.Puts(Abstract(s), Turns(s, ms))
    && Loaded(r.locks.log[|s.locks.log|..]) == R.Gots(Abstract(s), Turns(s, ms))
  }

  lemma {:induction false} LogHasItems(s: Locked, roles: seq<B.Role>, n: nat, ms: seq<Move>)
    requires Inv(s) && R.Begins(Abstract(s), roles, n)
    ensures SameRun(s, ms)
  {
    hide Inv, DoAll, Turns, Run, R.Puts, R.Gots, Abstract, R.Begins, R.Good, SameRun;
    if ms == [] {
      AtFirst(s);
      assert ms == [];
    } else {
      var before, m := ms[..|ms| - 1], ms[|ms| - 1];
      LogHasItems(s, roles, n, before);
      LockStepsAreTurns(s, before);
      R.GoodRun(Abstract(s), roles, n, Turns(s, before));
      OneMoveMore(s, roles, n, before, m);
      assert ms == before + [m];
    }
  }

  lemma AtFirst(s: Locked)
    requires Inv(s)
    ensures SameRun(s, [])
  {}

  lemma {:induction false} OneMoveMore(s: Locked, roles: seq<B.Role>, n: nat, ms: seq<Move>, m: Move)
    requires Inv(s) && SameRun(s, ms)
    requires Inv(DoAll(s, ms)) && Abstract(DoAll(s, ms)) == Run(Abstract(s), Turns(s, ms))
    requires
      R.Good(Abstract(DoAll(s, ms)), roles, n, R.Puts(Abstract(s), Turns(s, ms)), R.Gots(Abstract(s), Turns(s, ms)))
    ensures SameRun(s, ms + [m])
  {
    hide Inv, Enabled, Do, DoAll, TurnOf, Turns, Abstract, R.Good, R.Puts, R.Gots, Stored, Loaded, Run;
    var r, a, ts, start := DoAll(s, ms), Abstract(s), Turns(s, ms), |s.locks.log|;
    DoOneMore(s, ms, m);
    if Enabled(r, m) {
      MoveLogs(r, m);
      MoveItems(r, m, roles, n, R.Puts(a, ts), R.Gots(a, ts));
      PutsMore(a, ts, TurnOf(r, m));
      GotsMore(a, ts, TurnOf(r, m));
      ItemsMore(r.locks.log[start..], Entry(r, m));
      assert (r.locks.log + Entry(r, m))[start..] == r.locks.log[start..] + Entry(r, m);
    } else {
      assert Turns(s, ms + [m]) == ts;
    }
  }

  /** In the order in which the operations on $buf take effect under their locks, the items
      loaded are a prefix of the items stored, at most the buffer size behind. */
  lemma {:induction false} FirstInFirstOut(s: Locked, roles: seq<B.Role>, n: nat, ms: seq<Move>)
    requires Inv(s) && AtRest(s) && R.Begins(Sys(P.Contents(s.locks), s.procs), roles, n)
    ensures s.locks.log <= DoAll(s, ms).locks.log
    ensures var entries := DoAll(s, ms).locks.log[|s.locks.log|..];
      Loaded(entries) <= Stored(entries) && |Stored(entries)| - |Loaded(entries)| <= n
  {
    Resting(s);
    hide Inv, AtRest, DoAll, Abstract, R.Begins, Stored, Loaded, R.Puts, R.Gots;
    LogHasItems(s, roles, n, ms);
    R.Fifo(Abstract(s), roles, n, Turns(s, ms));
  }

  /** The whole scenario in lock steps: Init runs alone from nothing, then any producers and
      consumers are attached and run together. */
  lemma {:induction false} FromNothing(init: Locked, first: seq<Move>, s: Locked, roles: seq<B.Role>, n: nat,
      ms: seq<Move>)
    requires Linearizability.Begins(init.locks) && |init.procs| == |init.locks.threads| == 1
    requires init.procs[0] == Start(Init.Code(), init.procs[0].args)
    requires |init.procs[0].args.args| == 2 && init.procs[0].args.args[1] == n && 1 <= n <= INT_MAX
    requires AtRest(DoAll(init, first)) && TurnsOf(Turns(init, first), 0) >= 12
    requires s.locks == DoAll(init, first).locks.(threads := s.locks.threads) && AtRest(s)
    requires |roles| == |s.procs| == |s.locks.threads| && forall t | 0 <= t < |roles| :: s.locks.threads[t].sem.None?
    requires forall i | 0 <= i < |roles| ::
      && s.procs[i] == Start(C.Code(roles[i]), s.procs[i].args)
      && |s.procs[i].args.args| == 3 && s.procs[i].args.args[1] == n
    ensures s.locks.log <= DoAll(s, ms).locks.log
    ensures var entries := DoAll(s, ms).locks.log[|s.locks.log|..];
      Loaded(entries) <= Stored(entries) && |Stored(entries)| - |Loaded(entries)| <= n
  {
    FreshStart(init);
    RestIsMachine(init, first);
    hide Inv, AtRest, DoAll, Run, Turns, C.Code, Init.Code, P.Contents, Stored, Loaded, Cell;
    Init.LeavesEmptyBuffer(Sys(map[], init.procs), Turns(init, first));
    Reattached(DoAll(init, first), s);
    BeginsAfterInit(P.Contents(s.locks), s.procs, roles, n);
    hide R.Begins;
    FirstInFirstOut(s, roles, n, ms);
  }

  lemma BeginsAfterInit(g: Globals.Store, procs: seq<Proc>, roles: seq<B.Role>, n: nat)
    requires 1 <= n <= INT_MAX && |roles| == |procs|
    requires forall i | 0 <= i < |roles| ::
      && procs[i] == Start(C.Code(roles[i]), procs[i].args)
      && |procs[i].args.args| == 3 && procs[i].args.args[1] == n
    requires Cell(g, "in", 0) == 0 && Cell(g, "out", 0) == 0 && Cell(g, "mtx", 0) == 1
    requires Cell(g, "free", 0) == n && Cell(g, "full", 0) == 0
    ensures R.Begins(Sys(g, procs), roles, n)
  {
    hide C.Code, Cell;
  }
}
