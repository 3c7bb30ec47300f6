/** Runs of any number of shipped producers and consumers: order of the items, safety of
    the slots, conservation of the semaphores and absence of deadlock. */
module ProdConsRuns {
  import opened Syntax
  import opened Globals
  import opened Machine
  import opened Counting
  import opened Steps
  import opened ProdCons
  import B = Buffer
  import Init

  predicate AtLine(p: Proc) {
    p.status.Ready? && p.line < |p.code|
  }

  /** What the next visit to a program stores in the array $buf. */
  function PutBy(p: Proc, g: Store): seq<int> {
    if AtLine(p) && p.code[p.line].instr.Store? && p.code[p.line].instr.glob.Elem?
       && p.code[p.line].instr.glob.name == "buf"
    then [Cell(Interpret(p, g).glob, "buf", Locate(p, p.code[p.line].instr.glob).idx)]
    else []
  }

  /** What the next visit to a program loads from the array $buf. */
  function GotBy(p: Proc, g: Store): seq<int> {
    if AtLine(p) && p.code[p.line].instr.Load? && p.code[p.line].instr.glob.Elem?
       && p.code[p.line].instr.glob.name == "buf"
    then [Cell(g, "buf", Locate(p, p.code[p.line].instr.glob).idx)]
    else []
  }

  /** All items stored in $buf during a run, in order. */
  function Puts(s: Sys, turns: seq<Turn>): seq<int> {
    if turns == [] then []
    else
      var before, t := turns[..|turns| - 1], turns[|turns| - 1];
      var r := Run(s, before);
      Puts(s, before) + if t.who < |r.procs| then PutBy(r.procs[t.who], r.glob) else []
  }

  /** All items loaded from $buf during a run, in order. */
  function Gots(s: Sys, turns: seq<Turn>): seq<int> {
    if turns == [] then []
    else
      var before, t := turns[..|turns| - 1], turns[|turns| - 1];
      var r := Run(s, before);
      Gots(s, before) + if t.who < |r.procs| then GotBy(r.procs[t.who], r.glob) else []
  }

  /** Any number of producers and consumers, just started with buffer size `n`, over the
      globals that the Init program leaves. */
  ghost predicate Begins(s: Sys, roles: seq<B.Role>, n: int) {
    && 1 <= n <= INT_MAX && |roles| == |s.procs|
    && (forall i | 0 <= i < |roles| ::
          && s.procs[i] == Start(Code(roles[i]), s.procs[i].args)
          && |s.procs[i].args.args| == 3 && s.procs[i].args.args[1] == n)
    && Cell(s.glob, "in", 0) == 0 && Cell(s.glob, "out", 0) == 0 && Cell(s.glob, "mtx", 0) == 1
    && Cell(s.glob, "free", 0) == n && Cell(s.glob, "full", 0) == 0
  }

  function Actors(s: Sys, roles: seq<B.Role>): seq<B.Actor>
    requires |roles| == |s.procs|
  {
    seq(|roles|, i requires 0 <= i < |roles| => ActorOf(s.procs[i], roles[i]))
  }

  function StateOf(s: Sys, roles: seq<B.Role>, n: nat, put: seq<int>, got: seq<int>): B.State
    requires |roles| == |s.procs|
  {
    B.State(WorldOf(s.glob, n), Actors(s, roles), put, got)
  }

  ghost predicate Good(s: Sys, roles: seq<B.Role>, n: nat, put: seq<int>, got: seq<int>) {
    && 1 <= n <= INT_MAX && |roles| == |s.procs|
    && (forall i | 0 <= i < |roles| :: Shaped(s.procs[i], roles[i], n) && s.procs[i].code == Code(roles[i]))
    && B.Inv(StateOf(s, roles, n, put, got), n)
  }

  lemma {:induction false} GoodAtStart(s: Sys, roles: seq<B.Role>, n: nat)
    requires Begins(s, roles, n)
    ensures Good(s, roles, n, [], [])
  {
    hide Code;
    var actors := Actors(s, roles);
    forall a | a in actors ensures a.at == 0 && a.status == Ready {}
    TallyNone(actors, B.InSection);
    TallyNone(actors, B.OwesFree);
    TallyNone(actors, B.OwesFull);
    TallyNone(actors, B.MidPut);
    TallyNone(actors, B.MidGet);
    B.Quotient(0, 0, 0, n);
  }

  /** The only lines that touch the buffer. */
  function BufferLine(role: B.Role): nat {
    if role.Producer? then 12 else 8
  }

  function BufferAccess(role: B.Role): Instr {
    if role.Producer? then Store(Elem("buf", Var("k")), Var("item")) else Load(Var("item"), Elem("buf", Var("k")))
  }

  lemma BufferLines(role: B.Role, i: nat)
    requires i < Length(role)
    ensures i == BufferLine(role) ==> Code(role)[i] == Line(None, BufferAccess(role))
    ensures i != BufferLine(role) ==>
      var ins := Code(role)[i].instr; !(ins.Store? && ins.glob.Elem?) && !(ins.Load? && ins.glob.Elem?)
  {}

  lemma {:induction false} StoredItem(p: Proc, g: Store, n: nat, l: Line)
    requires Fit(p, B.Producer, g, n) && At(p, l) && p.line == 12
    requires l == Line(None, BufferAccess(B.Producer))
    ensures PutBy(p, g) == [Plain(p.table, "item")] && GotBy(p, g) == []
  {
    StepStore(p, g, l, Elem("buf", Var("k")), Var("item"));
    LocateSimple(p, Elem("buf", Var("k")));
    PutCell(g, "buf", Plain(p.table, "k"), Plain(p.table, "item"));
  }

  lemma {:induction false} LoadedItem(p: Proc, g: Store, n: nat, l: Line)
    requires Fit(p, B.Consumer, g, n) && At(p, l) && p.line == 8
    requires l == Line(None, BufferAccess(B.Consumer))
    ensures GotBy(p, g) == [Cell(g, "buf", Plain(p.table, "k"))] && PutBy(p, g) == []
  {
    LocateSimple(p, Elem("buf", Var("k")));
  }

  /** The interpreter stores and loads exactly the items that the protocol says. */
  lemma {:induction false} SameItems(p: Proc, role: B.Role, g: Store, n: nat, nap: bool)
    requires Fit(p, role, g, n) && p.code == Code(role)
    ensures var c := B.Move(ActorOf(p, role), WorldOf(g, n), nap);
      PutBy(p, g) == c.put && GotBy(p, g) == c.got
  {
    hide Interpret, Code, Locate;
    if AtLine(p) {
      BufferLines(role, p.line);
      if p.line == BufferLine(role) {
        if role.Producer? { StoredItem(p, g, n, p.code[p.line]); } else { LoadedItem(p, g, n, p.code[p.line]); }
      }
    }
  }

  lemma {:induction false} GoodFits(s: Sys, roles: seq<B.Role>, n: nat, put: seq<int>, got: seq<int>, i: nat)
    requires Good(s, roles, n, put, got) && i < |roles|
    ensures Fit(s.procs[i], roles[i], s.glob, n)
  {
    var st := StateOf(s, roles, n, put, got);
    assert B.Knows(st.actors[i], st.w, n);
  }

  lemma {:induction false} GoodKept(s: Sys, roles: seq<B.Role>, n: nat, put: seq<int>, got: seq<int>, t: Turn)
    requires Good(s, roles, n, put, got) && t.who < |roles|
    ensures var p := s.procs[t.who];
      Good(Next(s, t), roles, n, put + PutBy(p, s.glob), got + GotBy(p, s.glob))
  {
    var i, st := t.who, StateOf(s, roles, n, put, got);
    var p, r := s.procs[i], Visit(s.procs[i], s.glob, t.slice);
    GoodFits(s, roles, n, put, got, i);
    VisitSimulates(p, roles[i], s.glob, n, t.slice);
    var nap := r.proc.status.Sleeping?;
    SameItems(p, roles[i], s.glob, n, nap);
    B.MoveKeepsInv(st, n, i, nap);
    assert Actors(Next(s, t), roles) == st.actors[i := ActorOf(r.proc, roles[i])];
  }

  lemma {:induction false} GoodRun(s: Sys, roles: seq<B.Role>, n: nat, turns: seq<Turn>)
    requires Begins(s, roles, n)
    ensures Good(Run(s, turns), roles, n, Puts(s, turns), Gots(s, turns))
  {
    hide Visit, Good, PutBy, GotBy;
    if turns == [] {
      GoodAtStart(s, roles, n);
    } else {
      var before, t := turns[..|turns| - 1], turns[|turns| - 1];
      GoodRun(s, roles, n, before);
      if t.who < |Run(s, before).procs| {
        assert |roles| == |s.procs|;
        GoodKept(Run(s, before), roles, n, Puts(s, before), Gots(s, before), t);
      } else {
        assert Puts(s, turns) == Puts(s, before) && Gots(s, turns) == Gots(s, before);
      }
    }
  }

  /** Consumers load the items in the order in which producers stored them, whatever the
      interleaving and however many there are of each. */
  lemma {:induction false} Fifo(s: Sys, roles: seq<B.Role>, n: nat, turns: seq<Turn>)
    requires Begins(s, roles, n)
    ensures Gots(s, turns) <= Puts(s, turns)
    ensures |Puts(s, turns)| - |Gots(s, turns)| <= n
  {
    GoodRun(s, roles, n, turns);
  }

  lemma {:induction false} SlotOfAccess(r: Sys, roles: seq<B.Role>, n: nat, puts: seq<int>, gots: seq<int>, who: nat)
    requires Good(r, roles, n, puts, gots) && who < |roles|
    ensures var p := r.procs[who];
      && (PutBy(p, r.glob) != [] ==>
            Locate(p, p.code[p.line].instr.glob).idx == |puts| % n && |puts| - n < |gots|)
      && (GotBy(p, r.glob) != [] ==>
            Locate(p, p.code[p.line].instr.glob).idx == |gots| % n && |gots| < |puts|)
  {
    hide Interpret, Code, Locate;
    var st, p, role := StateOf(r, roles, n, puts, gots), r.procs[who], roles[who];
    GoodFits(r, roles, n, puts, gots, who);
    SameItems(p, role, r.glob, n, false);
    B.MoveSlots(st.actors[who], st.w, false);
    B.Room(st, n, who);
    if PutBy(p, r.glob) != [] || GotBy(p, r.glob) != [] {
      B.EndsExact(st, n, who);
      BufferLines(role, p.line);
      LocateSimple(p, Elem("buf", Var("k")));
    }
  }

  /** A slot is written only when the item it held has been loaded, and loaded only when
      its item has been stored: item number `t` of a run lives in slot `t % n`. */
  lemma {:induction false} SlotSafety(s: Sys, roles: seq<B.Role>, n: nat, turns: seq<Turn>, who: nat)
    requires Begins(s, roles, n) && who < |roles|
    ensures var r := Run(s, turns);
      var p, puts, gots := r.procs[who], Puts(s, turns), Gots(s, turns);
      && (PutBy(p, r.glob) != [] ==>
            Locate(p, p.code[p.line].instr.glob).idx == |puts| % n && |puts| - n < |gots|)
      && (GotBy(p, r.glob) != [] ==>
            Locate(p, p.code[p.line].instr.glob).idx == |gots| % n && |gots| < |puts|)
  {
    GoodRun(s, roles, n, turns);
    SlotOfAccess(Run(s, turns), roles, n, Puts(s, turns), Gots(s, turns), who);
  }

  /** Units are conserved: $mtx and its holders add up to one, $free and $full and those
      who owe them a unit to the buffer size. */
  lemma {:induction false} Accounting(s: Sys, roles: seq<B.Role>, n: nat, turns: seq<Turn>)
    requires Begins(s, roles, n)
    ensures var r := Run(s, turns);
      var actors := Actors(r, roles);
      && Cell(r.glob, "mtx", 0) + Tally(actors, B.InSection) == 1
      && Cell(r.glob, "free", 0) + Cell(r.glob, "full", 0) + Tally(actors, B.OwesFree) + Tally(actors, B.OwesFull) == n
      && Cell(r.glob, "mtx", 0) >= 0 && Cell(r.glob, "free", 0) >= 0 && Cell(r.glob, "full", 0) >= 0
  {
    GoodRun(s, roles, n, turns);
  }

  /** No two participants are between DOWN $mtx and UP $mtx. */
  lemma {:induction false} MutualExclusion(s: Sys, roles: seq<B.Role>, n: nat, turns: seq<Turn>, i: nat, j: nat)
    requires Begins(s, roles, n) && i < j < |roles|
    ensures var r := Run(s, turns);
      !(B.InSection(ActorOf(r.procs[i], roles[i])) && B.InSection(ActorOf(r.procs[j], roles[j])))
  {
    GoodRun(s, roles, n, turns);
    var r := Run(s, turns);
    var st := StateOf(r, roles, n, Puts(s, turns), Gots(s, turns));
    if B.InSection(st.actors[i]) { B.Alone(st, n, i, j); }
  }

  lemma {:induction false} EnabledMoves(p: Proc, role: B.Role, g: Store, n: nat, slice: nat)
    requires Fit(p, role, g, n) && p.code == Code(role) && slice > 0
    requires B.CanMove(ActorOf(p, role), WorldOf(g, n))
    ensures Visit(p, g, slice).proc != p
  {
    hide Interpret, Code;
    if !p.status.Sleeping? {
      VisitSimulates(p, role, g, n, slice);
      B.MoveMoves(ActorOf(p, role), WorldOf(g, n), Visit(p, g, slice).proc.status.Sleeping?);
      hide Visit, B.Move;
    }
  }

  /** How many items program `who` stores during a run. */
  function StoresOf(s: Sys, turns: seq<Turn>, who: nat): nat {
    if turns == [] then 0
    else
      var before, t := turns[..|turns| - 1], turns[|turns| - 1];
      var r := Run(s, before);
      StoresOf(s, before, who) + if t.who == who && who < |r.procs| then |PutBy(r.procs[who], r.glob)| else 0
  }

  lemma {:induction false} TurnNumbers(s: Sys, roles: seq<B.Role>, n: nat, put: seq<int>, got: seq<int>, t: Turn,
      stored: nat)
    requires Good(s, roles, n, put, got) && t.who < |roles|
    requires B.Numbered(ActorOf(s.procs[t.who], roles[t.who]), stored)
    ensures var p := s.procs[t.who];
      B.Numbered(ActorOf(Next(s, t).procs[t.who], roles[t.who]), stored + |PutBy(p, s.glob)|)
  {
    hide Visit, PutBy, GotBy, B.Move, B.Numbered, B.Inv, Code, Fit;
    var i, p, role := t.who, s.procs[t.who], roles[t.who];
    var r := Visit(p, s.glob, t.slice);
    GoodFits(s, roles, n, put, got, i);
    VisitNumbers(p, role, s.glob, n, t.slice, stored);
  }

  lemma {:induction false} VisitNumbers(p: Proc, role: B.Role, g: Store, n: nat, slice: nat, stored: nat)
    requires Fit(p, role, g, n) && p.code == Code(role) && B.Numbered(ActorOf(p, role), stored)
    ensures B.Numbered(ActorOf(Visit(p, g, slice).proc, role), stored + |PutBy(p, g)|)
  {
    hide Visit, PutBy, GotBy, B.Move, B.Numbered, Code, Shaped;
    VisitSimulates(p, role, g, n, slice);
    var nap := Visit(p, g, slice).proc.status.Sleeping?;
    SameItems(p, role, g, n, nap);
    B.MoveNumbers(ActorOf(p, role), WorldOf(g, n), nap, stored);
  }

  /** A producer numbers its items from 1 on: at every moment its number is that of the items it
      has stored, and one more while it has an item in its hands. It runs into an overflow only
      when it has stored 2^31 - 1 items and goes on to the next. */
  lemma {:induction false} ItemsNumbered(s: Sys, roles: seq<B.Role>, n: nat, turns: seq<Turn>, p: nat)
    requires Begins(s, roles, n) && p < |roles|
    ensures B.Numbered(ActorOf(Run(s, turns).procs[p], roles[p]), StoresOf(s, turns, p))
  {
    hide Visit, Good, PutBy, Code;
    if turns == [] {
      assert s.procs[p] == Start(Code(roles[p]), s.procs[p].args);
    } else {
      var before, t := turns[..|turns| - 1], turns[|turns| - 1];
      ItemsNumbered(s, roles, n, before, p);
      if t.who == p {
        GoodRun(s, roles, n, before);
        TurnNumbers(Run(s, before), roles, n, Puts(s, before), Gots(s, before), t, StoresOf(s, before, p));
      }
      hide B.Numbered, Begins;
    }
  }

  /** In every reachable state some participant's turn changes the state, as long as there
      are a consumer and a producer that has stored fewer than 2^31 - 1 items. */
  lemma {:induction false} DeadlockFree(s: Sys, roles: seq<B.Role>, n: nat, turns: seq<Turn>, p: nat, c: nat)
    requires Begins(s, roles, n) && p < |roles| && c < |roles|
    requires roles[p].Producer? && roles[c].Consumer?
    requires StoresOf(s, turns, p) < INT_MAX
    ensures exists t :: Next(Run(s, turns), t) != Run(s, turns)
  {
    ItemsNumbered(s, roles, n, turns, p);
    GoodRun(s, roles, n, turns);
    hide Next, Puts, Gots, Begins, Run;
    var r, puts, gots := Run(s, turns), Puts(s, turns), Gots(s, turns);
    var st := StateOf(r, roles, n, puts, gots);
    var i := B.NoDeadlock(st, n, p, c);
    SomeTurn(r, roles, n, puts, gots, i);
  }

  /** Who can move in the protocol changes the state with its next turn, and nobody else. */
  lemma {:induction false} SomeTurn(r: Sys, roles: seq<B.Role>, n: nat, puts: seq<int>, gots: seq<int>, i: nat)
    requires Good(r, roles, n, puts, gots) && i < |roles|
    ensures B.CanMove(ActorOf(r.procs[i], roles[i]), WorldOf(r.glob, n)) ==> Next(r, Turn(i, 1)) != r
    ensures !B.CanMove(ActorOf(r.procs[i], roles[i]), WorldOf(r.glob, n)) ==>
      forall slice :: Next(r, Turn(i, slice)) == r
  {
    GoodFits(r, roles, n, puts, gots, i);
    var p := r.procs[i];
    if B.CanMove(ActorOf(p, roles[i]), WorldOf(r.glob, n)) {
      EnabledMoves(p, roles[i], r.glob, n, 1);
      hide Visit, Good;
      assert Next(r, Turn(i, 1)).procs[i] != p;
    } else {
      StillStays(p, roles[i], r.glob, n);
    }
  }

  lemma {:induction false} StillStays(p: Proc, role: B.Role, g: Store, n: nat)
    requires Fit(p, role, g, n) && !B.CanMove(ActorOf(p, role), WorldOf(g, n))
    ensures forall slice :: Visit(p, g, slice) == Pair(p, g)
  {
    hide Interpret;
    assert p.status.Blocked? ==> Cell(g, p.sem, p.semIdx) <= 0;
  }

  /** With a consumer around, a run has come to its end exactly if every producer has stored
      2^31 - 1 items and gone on to the next, all items have been loaded, and every consumer
      waits for another. */
  lemma {:induction false} StopsExactly(s: Sys, roles: seq<B.Role>, n: nat, turns: seq<Turn>, c: nat)
    requires Begins(s, roles, n) && c < |roles| && roles[c].Consumer?
    ensures var r := Run(s, turns);
      (forall t :: Next(r, t) == r) <==>
      && Puts(s, turns) == Gots(s, turns)
      && forall i | 0 <= i < |roles| ::
           if roles[i].Producer? then r.procs[i].status.Wild? && StoresOf(s, turns, i) == INT_MAX
           else r.procs[i].status.Blocked? && r.procs[i].sem == "full"
  {
    GoodRun(s, roles, n, turns);
    var r, puts, gots := Run(s, turns), Puts(s, turns), Gots(s, turns);
    var st := StateOf(r, roles, n, puts, gots);
    B.StuckExactly(st, n, c);
    forall i | 0 <= i < |roles|
      ensures st.actors[i] == ActorOf(r.procs[i], roles[i])
      ensures roles[i].Producer? && r.procs[i].status.Wild? ==> StoresOf(s, turns, i) == INT_MAX
      ensures roles[i].Consumer? && r.procs[i].status.Blocked? ==> (r.procs[i].sem == "full" <==> r.procs[i].line == 5)
    {
      ItemsNumbered(s, roles, n, turns, i);
      assert Shaped(r.procs[i], roles[i], n) && B.Knows(st.actors[i], st.w, n);
    }
    StopsIfStuck(r, roles, n, puts, gots);
    hide Next, Good, Puts, Gots, StoresOf, Begins, Run, B.CanMove, Code;
  }

  lemma {:induction false} StopsIfStuck(r: Sys, roles: seq<B.Role>, n: nat, puts: seq<int>, gots: seq<int>)
    requires Good(r, roles, n, puts, gots)
    ensures var st := StateOf(r, roles, n, puts, gots);
      (forall t :: Next(r, t) == r) <==> forall i | 0 <= i < |st.actors| :: !B.CanMove(st.actors[i], st.w)
  {
    var st := StateOf(r, roles, n, puts, gots);
    hide Visit, Good, B.CanMove;
    forall i | 0 <= i < |roles|
      ensures B.CanMove(st.actors[i], st.w) ==> Next(r, Turn(i, 1)) != r
      ensures !B.CanMove(st.actors[i], st.w) ==> forall slice :: Next(r, Turn(i, slice)) == r
    {
      SomeTurn(r, roles, n, puts, gots, i);
    }
    if forall i | 0 <= i < |st.actors| :: !B.CanMove(st.actors[i], st.w) {
      forall t ensures Next(r, t) == r {
        if t.who < |roles| { assert !B.CanMove(st.actors[t.who], st.w) && t == Turn(t.who, t.slice); }
      }
    }
  }

  /** The whole scenario: Init runs alone with buffer size `n`, then any producers and
      consumers run together in any order, and the items come out as they went in. */
  lemma {:induction false} FifoAfterInit(init: Sys, first: seq<Turn>, procs: seq<Proc>, roles: seq<B.Role>,
      n: nat, turns: seq<Turn>)
    requires |init.procs| == 1 && init.procs[0] == Start(Init.Code(), init.procs[0].args)
    requires |init.procs[0].args.args| == 2 && init.procs[0].args.args[1] == n && 1 <= n <= INT_MAX
    requires TurnsOf(first, 0) >= 12
    requires |roles| == |procs|
    requires forall i | 0 <= i < |procs| ::
      procs[i] == Start(Code(roles[i]), procs[i].args) && |procs[i].args.args| == 3 && procs[i].args.args[1] == n
    ensures var s := Sys(Run(init, first).glob, procs);
      Gots(s, turns) <= Puts(s, turns) && |Puts(s, turns)| - |Gots(s, turns)| <= n
  {
    hide Run;
    Init.LeavesEmptyBuffer(init, first);
    Fifo(Sys(Run(init, first).glob, procs), roles, n, turns);
  }
}
