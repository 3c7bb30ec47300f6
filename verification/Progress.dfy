/** Progress of the shipped producers and consumers: as long as every one of them has its
    turns, as it has in the scheduler's ring, item after item is loaded. */
module Progress {
  import opened Syntax
  import opened Locals
  import opened Globals
  import opened Machine
  import opened Counting
  import opened Steps
  import opened ProdCons
  import opened ProdConsRuns
  import opened Rounds
  import B = Buffer
  import Sleep

  // ----- how far a participant is from the buffer -----

  /** Lines until the next access to $buf. */
  function Gap(role: B.Role, at: nat): nat {
    if role.Producer? then (if at <= 12 then 12 - at else if at <= 19 then 28 - at else 0)
    else (if at <= 8 then 8 - at else if at <= 17 then 23 - at else 0)
  }

  /** Visits that may go by with sleeping before it; `left` is what is left of a sleep under
      way, and `d` bounds each sleep, both in nanoseconds. */
  function Rest(a: B.Actor, left: nat, d: nat): nat {
    if a.status.Sleeping? then left + 1
    else if (if a.role.Producer? then a.at <= 6 || a.at >= 13 else 9 <= a.at <= 16) then d + 2
    else 0
  }

  /** Visits until the next access to $buf, those in which the participant waits for a unit
      left aside. */
  function Rank(a: B.Actor, left: nat, d: nat): (r: nat)
    ensures left <= d ==> r <= d + 33
  {
    if a.status.Wild? || a.status.Finished? then 0
    else 2 * Gap(a.role, a.at) + (if a.status.Blocked? then 1 else 0) + Rest(a, left, d)
  }

  lemma MoveRank(a: B.Actor, w: B.World, nap: bool, left: nat, d: nat)
    requires B.Knows(a, w, |w.buf|) && 0 <= w.head < |w.buf| && 0 <= w.tail < |w.buf|
    requires !a.status.Sleeping? && left <= d && B.CanMove(a, w)
    ensures var c := B.Move(a, w, nap);
      c.got == [] ==> Rank(c.a, left, d) < Rank(a, 0, d) + (d + 34) * |c.put|
  {}

  // ----- one visit -----

  function Left(p: Proc): nat {
    if p.status.Sleeping? && Sleep.Rested(p) then Sleep.Remaining(p) else 0
  }

  /** Sleeps are at most `d` nanoseconds. */
  predicate Timed(p: Proc, d: nat) {
    && |p.args.args| == 3 && p.args.args[2] * NSEC <= d
    && (p.status.Sleeping? ==> Sleep.Rested(p) && Sleep.Remaining(p) <= d)
  }

  function RankOf(p: Proc, role: B.Role, d: nat): nat {
    Rank(ActorOf(p, role), Left(p), d)
  }

  lemma {:induction false} PrintKeepsArgs(p: Proc, args: seq<Operand>, text: string, shown: seq<int>)
    ensures PrintArgs(p, args, text, shown).args == p.args
    decreases |args|
  {
    if args != [] {
      var e := Eval(args[0], p.table, p.args);
      if e.out.Ok? { PrintKeepsArgs(After(p, e), args[1..], text, shown + [e.out.value]); }
    }
  }

  lemma {:induction false} JumpKeepsArgs(p: Proc, target: string)
    ensures Jump(p, target).args == p.args
  {
    hide Find;
  }

  lemma {:induction false} PlaceKeepsArgs(p: Proc, x: Operand, y: Operand)
    ensures Locate(p, x).after.args == p.args && EvalBoth(p, x, y).after.args == p.args
  {
    hide Eval;
  }

  lemma {:induction false} ExecuteKeepsArgs(p: Proc, g: Store, ins: Instr)
    ensures Execute(p, g, ins).proc.args == p.args
  {
    hide Eval, Assign, Find, PrintArgs, Jump, Locate, EvalBoth;
    match ins
    case Print(text, args) => PrintKeepsArgs(p, args, text, []);
    case Bra(target) => JumpKeepsArgs(p, target);
    case Branch(_, left, right, target) =>
      PlaceKeepsArgs(p, left, right);
      JumpKeepsArgs(EvalBoth(p, left, right).after, target);
    case Arith(_, _, left, right) => PlaceKeepsArgs(p, left, right);
    case Load(_, glob) => PlaceKeepsArgs(p, glob, glob);
    case Store(glob, _) => PlaceKeepsArgs(p, glob, glob);
    case Down(glob) => PlaceKeepsArgs(p, glob, glob);
    case Up(glob) => PlaceKeepsArgs(p, glob, glob);
    case _ =>
  }

  lemma {:induction false} VisitKeepsArgs(p: Proc, g: Store, slice: nat)
    ensures Visit(p, g, slice).proc.args == p.args
  {
    hide Execute;
    if p.status.Ready? && p.line < |p.code| {
      var l := p.code[p.line];
      var q := if l.tag.Some? && !p.past then Enter(p, l.tag.value, p.line) else p;
      ExecuteKeepsArgs(q.(line := p.line + 1, past := false), g, l.instr);
    }
  }

  lemma MoveSleeps(a: B.Actor, w: B.World, nap: bool)
    requires B.Knows(a, w, |w.buf|) && 0 <= w.head < |w.buf| && 0 <= w.tail < |w.buf| && a.status.Ready?
    ensures B.Move(a, w, nap).a.status.Sleeping? ==> a.at == if a.role.Producer? then 6 else 16
  {}

  lemma {:induction false} SleepsWhere(p: Proc, role: B.Role, g: Store, n: nat)
    requires Fit(p, role, g, n) && p.code == Code(role) && p.status.Ready?
    requires Interpret(p, g).proc.status.Sleeping?
    ensures p.line == if role.Producer? then 6 else 16
  {
    hide Interpret, Shaped, Agree, Code, B.Move, B.Knows;
    VisitSimulates(p, role, g, n, 1);
    MoveSleeps(ActorOf(p, role), WorldOf(g, n), true);
  }

  /** A participant falls asleep for as long as its argument says. */
  lemma {:induction false} FallsAsleep(p: Proc, role: B.Role, g: Store, n: nat, d: nat)
    requires Fit(p, role, g, n) && p.code == Code(role) && Timed(p, d) && p.status.Ready?
    ensures Timed(Interpret(p, g).proc, d)
  {
    VisitKeepsArgs(p, g, 1);
    hide Interpret, Agree;
    if Interpret(p, g).proc.status.Sleeping? {
      SleepsWhere(p, role, g, n);
      SleepLine(role);
      hide Code;
      StepSleep(p, g, p.code[p.line], Elem("argv", Num(2)));
    }
  }

  lemma SleepLine(role: B.Role)
    ensures Code(role)[if role.Producer? then 6 else 16] == Line(None, Instr.Sleep(Elem("argv", Num(2))))
  {}

  lemma {:induction false} VisitTimed(p: Proc, role: B.Role, g: Store, n: nat, d: nat, slice: nat)
    requires Fit(p, role, g, n) && p.code == Code(role) && Timed(p, d) && slice < SLICE
    ensures Timed(Visit(p, g, slice).proc, d)
  {
    hide Interpret, Code, Shaped;
    if p.status.Sleeping? { Sleep.DozeKeeps(p, slice); }
    else if p.status.Ready? { FallsAsleep(p, role, g, n, d); }
  }

  /** A visit that loads no item brings its participant nearer to the buffer, or it does nothing
      at all because a unit is missing or no number is left. */
  lemma {:induction false} VisitRank(p: Proc, role: B.Role, g: Store, n: nat, d: nat, slice: nat)
    requires Fit(p, role, g, n) && p.code == Code(role) && Timed(p, d) && 0 < slice < SLICE
    ensures var r := Visit(p, g, slice);
      GotBy(p, g) == [] ==>
        || (r == Pair(p, g) && PutBy(p, g) == [])
        || RankOf(r.proc, role, d) < RankOf(p, role, d) + (d + 34) * |PutBy(p, g)|
  {
    if p.status.Sleeping? {
      Sleep.DozeKeeps(p, slice);
      hide Code, Shaped;
    } else {
      var r := Visit(p, g, slice);
      hide Interpret, Code;
      VisitTimed(p, role, g, n, d, slice);
      if B.CanMove(ActorOf(p, role), WorldOf(g, n)) {
        VisitSimulates(p, role, g, n, slice);
        SameItems(p, role, g, n, r.proc.status.Sleeping?);
        MoveRank(ActorOf(p, role), WorldOf(g, n), r.proc.status.Sleeping?, Left(r.proc), d);
        hide PutBy, GotBy, B.Move, Rank, Visit;
      } else {
        StillStays(p, role, g, n);
      }
    }
  }

  // ----- runs -----

  function Ranks(s: Sys, roles: seq<B.Role>, d: nat): seq<nat>
    requires |roles| == |s.procs|
  {
    seq(|roles|, i requires 0 <= i < |roles| => RankOf(s.procs[i], roles[i], d))
  }

  /** How many visits that are not in vain the participants can make before an item is loaded;
      `held` is the number of items in the buffer. */
  function Potential(s: Sys, roles: seq<B.Role>, n: nat, d: nat, held: int): int
    requires |roles| == |s.procs|
  {
    Sum(Ranks(s, roles, d)) + (d + 34) * (n - held)
  }

  ghost predicate AllTimed(s: Sys, d: nat) {
    forall i | 0 <= i < |s.procs| :: Timed(s.procs[i], d)
  }

  lemma {:induction false} RanksNext(s: Sys, roles: seq<B.Role>, d: nat, t: Turn)
    requires |roles| == |s.procs| && t.who < |roles|
    ensures var was, now := RankOf(s.procs[t.who], roles[t.who], d), RankOf(Next(s, t).procs[t.who], roles[t.who], d);
      Sum(Ranks(Next(s, t), roles, d)) == Sum(Ranks(s, roles, d)) - was + now
  {
    hide Visit, RankOf;
    var i, u := t.who, Next(s, t);
    assert Ranks(u, roles, d) == Ranks(s, roles, d)[i := RankOf(u.procs[i], roles[i], d)];
    SumUpdate(Ranks(s, roles, d), i, RankOf(u.procs[i], roles[i], d));
  }

  /** What a turn has to do with the room for further ones. */
  ghost predicate Spends(s: Sys, roles: seq<B.Role>, n: nat, d: nat, held: int, t: Turn)
    requires |roles| == |s.procs| && t.who < |roles|
  {
    var u, puts := Next(s, t), |PutBy(s.procs[t.who], s.glob)|;
    (u == s && puts == 0) || Potential(u, roles, n, d, held + puts) < Potential(s, roles, n, d, held)
  }

  lemma Weighs(d: nat, n: int, held: int, puts: int)
    ensures (d + 34) * (n - (held + puts)) == (d + 34) * (n - held) - (d + 34) * puts
  {}

  lemma {:induction false} PotentialNext(s: Sys, roles: seq<B.Role>, n: nat, d: nat, held: int, t: Turn, puts: nat)
    requires |roles| == |s.procs| && t.who < |roles|
    ensures var was, now := RankOf(s.procs[t.who], roles[t.who], d), RankOf(Next(s, t).procs[t.who], roles[t.who], d);
      Potential(Next(s, t), roles, n, d, held + puts) == Potential(s, roles, n, d, held) - was + now - (d + 34) * puts
  {
    hide Next, RankOf, Ranks;
    RanksNext(s, roles, d, t);
    Weighs(d, n, held, puts);
  }

  lemma {:induction false} GoodOne(s: Sys, roles: seq<B.Role>, n: nat, put: seq<int>, got: seq<int>, i: nat)
    requires Good(s, roles, n, put, got) && i < |roles|
    ensures |roles| == |s.procs| && s.procs[i].code == Code(roles[i]) && Fit(s.procs[i], roles[i], s.glob, n)
  {
    hide B.Inv, Code, Fit, Shaped;
    GoodFits(s, roles, n, put, got, i);
  }

  lemma NextIs(s: Sys, t: Turn)
    requires t.who < |s.procs|
    ensures var p, r := s.procs[t.who], Visit(s.procs[t.who], s.glob, t.slice);
      && |Next(s, t).procs| == |s.procs| && Next(s, t).procs[t.who] == r.proc
      && (r == Pair(p, s.glob) ==> Next(s, t) == s)
  {}

  lemma {:induction false} TurnSpends(s: Sys, roles: seq<B.Role>, n: nat, d: nat, put: seq<int>, got: seq<int>,
      held: int, t: Turn)
    requires Good(s, roles, n, put, got) && AllTimed(s, d) && t.who < |roles| && Positive(t)
    ensures |roles| == |s.procs|
    ensures GotBy(s.procs[t.who], s.glob) == [] ==> Spends(s, roles, n, d, held, t)
  {
    hide Next, Visit, Good, PutBy, GotBy, RankOf, Timed, Code, Ranks, Fit, Potential;
    GoodOne(s, roles, n, put, got, t.who);
    var p := s.procs[t.who];
    assert Timed(p, d);
    hide AllTimed;
    VisitRank(p, roles[t.who], s.glob, n, d, t.slice);
    NextIs(s, t);
    PotentialNext(s, roles, n, d, held, t, |PutBy(p, s.glob)|);
  }

  function Spare(s: Sys, roles: seq<B.Role>, n: nat, d: nat, turns: seq<Turn>): int
    requires |roles| == |s.procs|
  {
    Potential(Run(s, turns), roles, n, d, |Puts(s, turns)| - |Gots(s, turns)|)
  }

  lemma {:induction false} OneMore(s: Sys, turns: seq<Turn>, t: Turn)
    ensures var r := Run(s, turns);
      && Run(s, turns + [t]) == Next(r, t)
      && (t.who < |r.procs| ==>
           && Puts(s, turns + [t]) == Puts(s, turns) + PutBy(r.procs[t.who], r.glob)
           && Gots(s, turns + [t]) == Gots(s, turns) + GotBy(r.procs[t.who], r.glob)
           && forall p: nat :: StoresOf(s, turns + [t], p) ==
                StoresOf(s, turns, p) + if t.who == p then |PutBy(r.procs[p], r.glob)| else 0)
  {
    hide Next, PutBy, GotBy;
    assert (turns + [t])[..|turns|] == turns;
  }

  /** What a turn does to the counts. */
  lemma {:induction false} CountsNext(s: Sys, roles: seq<B.Role>, n: nat, d: nat, turns: seq<Turn>, t: Turn)
    requires |roles| == |s.procs| && t.who < |roles|
    ensures var r := Run(s, turns);
      var puts, gots := |PutBy(r.procs[t.who], r.glob)|, |GotBy(r.procs[t.who], r.glob)|;
      && Run(s, turns + [t]) == Next(r, t)
      && |Gots(s, turns + [t])| == |Gots(s, turns)| + gots
      && Spare(s, roles, n, d, turns + [t]) ==
        Potential(Next(r, t), roles, n, d, |Puts(s, turns)| - |Gots(s, turns)| + puts - gots)
  {
    hide Next, PutBy, GotBy, Run, Puts, Gots, Potential, StoresOf;
    OneMore(s, turns, t);
  }

  lemma Sized(s: Sys, roles: seq<B.Role>, n: nat)
    requires Begins(s, roles, n)
    ensures |roles| == |s.procs|
  {}

  lemma SpareIs(s: Sys, roles: seq<B.Role>, n: nat, d: nat, turns: seq<Turn>)
    requires |roles| == |s.procs|
    ensures Spare(s, roles, n, d, turns) == Potential(Run(s, turns), roles, n, d, |Puts(s, turns)| - |Gots(s, turns)|)
  {
    hide Potential, Run, Puts, Gots;
  }

  /** A turn that loads nothing uses up something of what there is to do, or is in vain. */
  lemma {:induction false} TurnAfter(s: Sys, roles: seq<B.Role>, n: nat, d: nat, turns: seq<Turn>, t: Turn)
    requires Begins(s, roles, n) && AllTimed(Run(s, turns), d) && t.who < |roles| && Positive(t)
    ensures |Gots(s, turns + [t])| >= |Gots(s, turns)|
    ensures |Gots(s, turns + [t])| == |Gots(s, turns)| ==>
      || (Next(Run(s, turns), t) == Run(s, turns) && Spare(s, roles, n, d, turns + [t]) == Spare(s, roles, n, d, turns))
      || Spare(s, roles, n, d, turns + [t]) < Spare(s, roles, n, d, turns)
  {
    hide Good, Begins, Next, PutBy, GotBy, Run, Puts, Gots, Potential, AllTimed, StoresOf, Spare;
    Sized(s, roles, n);
    var r, held := Run(s, turns), |Puts(s, turns)| - |Gots(s, turns)|;
    SpareIs(s, roles, n, d, turns);
    CountsNext(s, roles, n, d, turns, t);
    GoodRun(s, roles, n, turns);
    TurnSpends(r, roles, n, d, Puts(s, turns), Gots(s, turns), held, t);
  }

  lemma {:induction false} TurnTimed(s: Sys, roles: seq<B.Role>, n: nat, d: nat, put: seq<int>, got: seq<int>, t: Turn)
    requires Good(s, roles, n, put, got) && AllTimed(s, d) && t.slice < SLICE
    ensures AllTimed(Next(s, t), d)
  {
    if t.who < |roles| {
      GoodFits(s, roles, n, put, got, t.who);
      assert s.procs[t.who].code == Code(roles[t.who]);
      hide Visit, Good, Timed, Code, Fit;
      VisitTimed(s.procs[t.who], roles[t.who], s.glob, n, d, t.slice);
    }
  }

  lemma {:induction false} RunTimed(s: Sys, roles: seq<B.Role>, n: nat, d: nat, turns: seq<Turn>)
    requires Begins(s, roles, n) && AllTimed(s, d) && Short(turns)
    ensures AllTimed(Run(s, turns), d)
  {
    hide Begins, Next, AllTimed, Good;
    if turns != [] {
      var before := turns[..|turns| - 1];
      RunTimed(s, roles, n, d, before);
      GoodRun(s, roles, n, before);
      TurnTimed(Run(s, before), roles, n, d, Puts(s, before), Gots(s, before), turns[|turns| - 1]);
    }
  }

  /** Without a load, turns use up what there is to do, or each of them is in vain. */
  lemma {:induction false} WindowSpends(s: Sys, roles: seq<B.Role>, n: nat, d: nat, turns: seq<Turn>, w: seq<Turn>)
    requires Begins(s, roles, n) && AllTimed(s, d) && Short(turns) && Fair(w, |roles|)
    ensures |Gots(s, turns + w)| >= |Gots(s, turns)|
    ensures |Gots(s, turns + w)| == |Gots(s, turns)| ==>
      || Spare(s, roles, n, d, turns + w) < Spare(s, roles, n, d, turns)
      || (&& Spare(s, roles, n, d, turns + w) == Spare(s, roles, n, d, turns)
          && Run(s, turns + w) == Run(s, turns) && forall t | t in w :: Next(Run(s, turns), t) == Run(s, turns))
    decreases |w|
  {
    hide Begins, Next, Run, Gots, Spare, AllTimed, Puts, PutBy, GotBy, StoresOf;
    if w == [] {
      assert turns + w == turns;
    } else {
      var v, t := w[..|w| - 1], w[|w| - 1];
      WindowSpends(s, roles, n, d, turns, v);
      assert turns + w == (turns + v) + [t];
      RunTimed(s, roles, n, d, turns + v);
      TurnAfter(s, roles, n, d, turns + v, t);
      OneMore(s, turns + v, t);
      assert w == v + [t];
    }
  }

  /** There are items in the buffer, or a producer has numbers left. */
  ghost predicate MoreToCome(s: Sys, roles: seq<B.Role>, turns: seq<Turn>) {
    Puts(s, turns) != Gots(s, turns) || exists p | 0 <= p < |roles| :: NumbersLeft(s, roles, turns, p)
  }

  predicate NumbersLeft(s: Sys, roles: seq<B.Role>, turns: seq<Turn>, p: nat)
    requires p < |roles|
  {
    roles[p].Producer? && StoresOf(s, turns, p) < INT_MAX
  }

  /** Then somebody can move in the protocol. */
  lemma {:induction false} Able(s: Sys, roles: seq<B.Role>, n: nat, turns: seq<Turn>, c: nat) returns (i: nat)
    requires Begins(s, roles, n) && c < |roles| && roles[c].Consumer? && MoreToCome(s, roles, turns)
    ensures |Run(s, turns).procs| == |roles| && i < |roles|
    ensures B.CanMove(ActorOf(Run(s, turns).procs[i], roles[i]), WorldOf(Run(s, turns).glob, n))
  {
    Sized(s, roles, n);
    GoodRun(s, roles, n, turns);
    hide Begins, Run;
    var st := StateOf(Run(s, turns), roles, n, Puts(s, turns), Gots(s, turns));
    B.StuckExactly(st, n, c);
    if st.put == st.got {
      var p :| 0 <= p < |roles| && NumbersLeft(s, roles, turns, p);
      ItemsNumbered(s, roles, n, turns, p);
      assert st.actors[p] == ActorOf(Run(s, turns).procs[p], roles[p]);
      hide Puts, Gots, StoresOf, B.Inv, B.CanMove;
      assert !st.actors[p].status.Wild?;
    }
    i :| 0 <= i < |st.actors| && B.CanMove(st.actors[i], st.w);
  }

  /** Its turn changes the state, however long the slice. */
  lemma {:induction false} AbleOne(s: Sys, roles: seq<B.Role>, n: nat, turns: seq<Turn>, c: nat) returns (i: nat)
    requires Begins(s, roles, n) && c < |roles| && roles[c].Consumer? && MoreToCome(s, roles, turns)
    ensures i < |roles| && forall slice: nat :: slice > 0 ==> Next(Run(s, turns), Turn(i, slice)) != Run(s, turns)
  {
    hide Puts, Gots, Begins, Run, Visit, MoreToCome, B.CanMove, Good;
    i := Able(s, roles, n, turns, c);
    GoodRun(s, roles, n, turns);
    var r := Run(s, turns);
    GoodOne(r, roles, n, Puts(s, turns), Gots(s, turns), i);
    hide Fit, Code;
    forall slice: nat | slice > 0 ensures Next(r, Turn(i, slice)) != r {
      EnabledMoves(r.procs[i], roles[i], r.glob, n, slice);
      assert Next(r, Turn(i, slice)).procs[i] != r.procs[i];
    }
  }

  /** A round loads an item or uses up something, as long as there is more to come. */
  lemma {:induction false} RoundSpends(s: Sys, roles: seq<B.Role>, n: nat, d: nat, turns: seq<Turn>,
      w: seq<Turn>, c: nat)
    requires Begins(s, roles, n) && AllTimed(s, d) && Short(turns) && Round(w, |roles|)
    requires c < |roles| && roles[c].Consumer? && MoreToCome(s, roles, turns)
    ensures |Gots(s, turns + w)| >= |Gots(s, turns)|
    ensures |Gots(s, turns + w)| == |Gots(s, turns)| ==>
      Spare(s, roles, n, d, turns + w) < Spare(s, roles, n, d, turns)
  {
    WindowSpends(s, roles, n, d, turns, w);
    var r := Run(s, turns);
    var i := AbleOne(s, roles, n, turns, c);
    assert HasTurn(w, i);
    var k :| 0 <= k < |w| && w[k].who == i;
    assert Positive(w[k]) && w[k] == Turn(i, w[k].slice);
    assert Next(r, w[k]) != r;
    hide Begins, Next, Run, Gots, Spare, AllTimed, MoreToCome;
  }

  // ----- many rounds -----

  lemma {:induction false} StoresBound(s: Sys, turns: seq<Turn>, w: seq<Turn>, p: nat)
    ensures 0 <= StoresOf(s, turns + w, p) - StoresOf(s, turns, p) <= |Puts(s, turns + w)| - |Puts(s, turns)|
    decreases |w|
  {
    hide Next, PutBy, GotBy;
    if w == [] {
      assert turns + w == turns;
    } else {
      StoresBound(s, turns, w[..|w| - 1], p);
      assert (turns + w)[..|turns + w| - 1] == turns + w[..|w| - 1];
    }
  }

  /** Turns that load nothing leave more to come. */
  lemma {:induction false} StillMore(s: Sys, roles: seq<B.Role>, n: nat, turns: seq<Turn>, w: seq<Turn>)
    requires Begins(s, roles, n) && MoreToCome(s, roles, turns) && |Gots(s, turns + w)| == |Gots(s, turns)|
    ensures MoreToCome(s, roles, turns + w)
  {
    hide Begins, Run, Gots, Puts, StoresOf;
    Fifo(s, roles, n, turns);
    if Puts(s, turns) != Gots(s, turns) {
      StoresBound(s, turns, w, 0);
    } else {
      var p :| 0 <= p < |roles| && NumbersLeft(s, roles, turns, p);
      StoresBound(s, turns, w, p);
      if StoresOf(s, turns + w, p) < INT_MAX { assert NumbersLeft(s, roles, turns + w, p); }
    }
  }

  lemma {:induction false} RoundsSpend(s: Sys, roles: seq<B.Role>, n: nat, d: nat, turns: seq<Turn>,
      rounds: seq<seq<Turn>>, c: nat)
    requires Begins(s, roles, n) && AllTimed(s, d) && Short(turns)
    requires forall w | w in rounds :: Round(w, |roles|)
    requires c < |roles| && roles[c].Consumer? && MoreToCome(s, roles, turns)
    ensures |Gots(s, turns + Flat(rounds))| >= |Gots(s, turns)|
    ensures |Gots(s, turns + Flat(rounds))| == |Gots(s, turns)| ==>
      Spare(s, roles, n, d, turns + Flat(rounds)) <= Spare(s, roles, n, d, turns) - |rounds|
    decreases |rounds|
  {
    hide Begins, Run, Gots, Puts, Spare, AllTimed, StoresOf, Round, MoreToCome;
    if rounds == [] {
      assert turns + Flat(rounds) == turns;
    } else {
      var before, w := rounds[..|rounds| - 1], rounds[|rounds| - 1];
      var so := turns + Flat(before);
      RoundsSpend(s, roles, n, d, turns, before, c);
      assert turns + Flat(rounds) == so + w;
      FlatFair(before, |roles|);
      RoundsFair(s, roles, n, d, so, w);
      if |Gots(s, so)| == |Gots(s, turns)| {
        StillMore(s, roles, n, turns, Flat(before));
        RoundSpends(s, roles, n, d, so, w, c);
      }
    }
  }

  lemma {:induction false} RoundsFair(s: Sys, roles: seq<B.Role>, n: nat, d: nat, turns: seq<Turn>, w: seq<Turn>)
    requires Begins(s, roles, n) && AllTimed(s, d) && Short(turns) && Round(w, |roles|)
    ensures |Gots(s, turns + w)| >= |Gots(s, turns)|
  {
    hide Begins, Run, Gots, Puts, Spare, AllTimed, Next;
    WindowSpends(s, roles, n, d, turns, w);
  }

  lemma {:induction false} PotentialRange(s: Sys, roles: seq<B.Role>, n: nat, d: nat, held: nat)
    requires |roles| == |s.procs| && AllTimed(s, d) && held <= n
    ensures 0 <= Potential(s, roles, n, d, held) <= (d + 34) * (n + |roles|)
  {
    hide RankOf, Timed;
    forall i | 0 <= i < |roles| ensures Ranks(s, roles, d)[i] <= d + 34 { RankBound(s.procs[i], roles[i], d); }
    SumBound(Ranks(s, roles, d), d + 34);
    assert (d + 34) * (n + |roles|) == (d + 34) * (n - held) + (d + 34) * held + |roles| * (d + 34);
    assert (d + 34) * (n - held) >= 0 && (d + 34) * held >= 0;
  }

  lemma {:induction false} SpareRange(s: Sys, roles: seq<B.Role>, n: nat, d: nat, turns: seq<Turn>)
    requires Begins(s, roles, n) && AllTimed(s, d) && Short(turns)
    ensures 0 <= Spare(s, roles, n, d, turns) <= (d + 34) * (n + |roles|)
  {
    hide Begins, Run, Gots, Puts, StoresOf, AllTimed, Potential, Spare;
    RunTimed(s, roles, n, d, turns);
    Fifo(s, roles, n, turns);
    Sized(s, roles, n);
    SpareIs(s, roles, n, d, turns);
    PotentialRange(Run(s, turns), roles, n, d, |Puts(s, turns)| - |Gots(s, turns)|);
  }

  lemma RankBound(p: Proc, role: B.Role, d: nat)
    requires Timed(p, d)
    ensures RankOf(p, role, d) <= d + 33
  {}

  /** From every reachable state, with a consumer, and an item in the buffer or a producer that
      has numbers left, another item is loaded within a fixed number of rounds: `d`
      nanoseconds bound the time that each participant asks to sleep. */
  lemma {:induction false} ItemsKeepComing(s: Sys, roles: seq<B.Role>, n: nat, d: nat, turns: seq<Turn>,
      rounds: seq<seq<Turn>>, c: nat)
    requires Begins(s, roles, n) && AllTimed(s, d) && Short(turns)
    requires forall w | w in rounds :: Round(w, |roles|)
    requires c < |roles| && roles[c].Consumer? && MoreToCome(s, roles, turns)
    requires |rounds| > (d + 34) * (n + |roles|)
    ensures |Gots(s, turns + Flat(rounds))| > |Gots(s, turns)|
  {
    hide Begins, Run, Gots, Puts, Spare, AllTimed, StoresOf, Round, MoreToCome;
    RoundsSpend(s, roles, n, d, turns, rounds, c);
    FlatFair(rounds, |roles|);
    SpareRange(s, roles, n, d, turns);
    SpareRange(s, roles, n, d, turns + Flat(rounds));
  }

  /** Otherwise none is ever loaded again. */
  lemma {:induction false} NoneComes(s: Sys, roles: seq<B.Role>, n: nat, turns: seq<Turn>, w: seq<Turn>)
    requires Begins(s, roles, n) && !MoreToCome(s, roles, turns)
    ensures Gots(s, turns + w) == Gots(s, turns) && !MoreToCome(s, roles, turns + w)
    decreases |w|
  {
    hide Begins, Run, Gots, Puts, StoresOf, MoreToCome;
    if w == [] {
      assert turns + w == turns;
    } else {
      var v, t := w[..|w| - 1], w[|w| - 1];
      NoneComes(s, roles, n, turns, v);
      assert turns + w == (turns + v) + [t];
      TurnBringsNone(s, roles, n, turns + v, t);
    }
  }

  lemma {:induction false} TurnBringsNone(s: Sys, roles: seq<B.Role>, n: nat, turns: seq<Turn>, t: Turn)
    requires Begins(s, roles, n) && !MoreToCome(s, roles, turns)
    ensures Gots(s, turns + [t]) == Gots(s, turns) && !MoreToCome(s, roles, turns + [t])
  {
    hide Begins, Run, Gots, Puts, StoresOf, PutBy, GotBy, Next;
    Sized(s, roles, n);
    Fifo(s, roles, n, turns + [t]);
    forall p | 0 <= p < |roles| && roles[p].Producer?
      ensures StoresOf(s, turns + [t], p) == StoresOf(s, turns, p) == INT_MAX
    {
      assert !NumbersLeft(s, roles, turns, p);
      ItemsNumbered(s, roles, n, turns + [t], p);
      ItemsNumbered(s, roles, n, turns, p);
      StoresBound(s, turns, [t], p);
    }
    if t.who < |roles| {
      OneMore(s, turns, t);
      if roles[t.who].Consumer? { ConsumersPutNothing(s, roles, n, turns, t.who); }
    } else {
      assert (turns + [t])[..|turns|] == turns;
      Absent(s, turns, t);
    }
  }

  lemma {:induction false} Absent(s: Sys, turns: seq<Turn>, t: Turn)
    requires t.who >= |s.procs|
    ensures Puts(s, turns + [t]) == Puts(s, turns) && Gots(s, turns + [t]) == Gots(s, turns)
  {
    hide Next, PutBy, GotBy;
    assert (turns + [t])[..|turns|] == turns;
  }

  lemma {:induction false} ConsumersPutNothing(s: Sys, roles: seq<B.Role>, n: nat, turns: seq<Turn>, i: nat)
    requires Begins(s, roles, n) && i < |roles| && roles[i].Consumer?
    ensures i < |Run(s, turns).procs| && PutBy(Run(s, turns).procs[i], Run(s, turns).glob) == []
  {
    hide Begins, Run, Gots, Puts, PutBy, GotBy, Good, Code;
    GoodRun(s, roles, n, turns);
    var r := Run(s, turns);
    GoodOne(r, roles, n, Puts(s, turns), Gots(s, turns), i);
    SameItems(r.procs[i], roles[i], r.glob, n, true);
  }
}
