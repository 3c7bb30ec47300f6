/** Progress of the shipped barber and customers: as long as everybody who is still there has
    turns, every customer is picked up and the barber ends up asleep. */
module BarberProgress {
  import opened Syntax
  import opened Globals
  import opened Machine
  import opened Counting
  import opened Steps
  import opened Barber
  import opened BarberRuns
  import opened Rounds
  import B = Barbershop
  import Sleep

  /** The barber's sleep after a haircut. */
  const CUT: nat := 4 * NSEC

  /** The most visits of one participant between two claims. */
  const MOST: nat := CUT + 40

  // ----- how much a participant has to do -----

  /** Visits until a customer has left, or until the barber counts the next one out, those in
      which it waits for a unit left aside; `left` is what is left of a sleep under way. */
  function Rank(a: B.Actor, left: nat): nat {
    var blocked := if a.status.Blocked? then 1 else 0;
    if a.role.Customer? then
      if a.at >= 10 then 0 else 2 * (10 - a.at) + blocked
    else if a.at <= 5 then 2 * (5 - a.at) + blocked
    else if a.at <= 14 then 2 * (19 - a.at) + blocked + CUT + 2
    else 8 + if a.status.Sleeping? then left + 1 else 0
  }

  lemma MoveRank(a: B.Actor, w: B.World, nap: bool, left: nat)
    requires B.Knows(a, w) && !a.status.Sleeping? && left <= CUT && B.CanMove(a, w)
    ensures var c := B.Move(a, w, nap);
      c.claims >= 0 && Rank(c.a, left) < Rank(a, 0) + MOST * c.claims
  {}

  // ----- one visit -----

  function Left(p: Proc): nat {
    if p.status.Sleeping? && Sleep.Rested(p) then Sleep.Remaining(p) else 0
  }

  predicate Timed(p: Proc) {
    p.status.Sleeping? ==> Sleep.Rested(p) && Sleep.Remaining(p) <= CUT
  }

  function RankOf(p: Proc, role: B.Role): nat {
    Rank(ActorOf(p, role), Left(p))
  }

  lemma RankBound(p: Proc, role: B.Role)
    requires Timed(p)
    ensures RankOf(p, role) <= MOST
  {}

  lemma MoveSleeps(a: B.Actor, w: B.World, nap: bool)
    requires B.Knows(a, w) && a.status.Ready?
    ensures B.Move(a, w, nap).a.status.Sleeping? ==> a.role.Barber? && a.at == 14
  {}

  lemma SleepLine()
    ensures Code(B.Barber)[14] == Line(None, Instr.Sleep(Num(4)))
  {}

  lemma {:induction false} FallsAsleep(p: Proc, role: B.Role, g: Store)
    requires Fit(p, role, g) && p.code == Code(role) && p.status.Ready?
    ensures Timed(Interpret(p, g).proc)
  {
    hide Interpret, Shaped, Agree, B.Move, B.Knows, Code;
    VisitSimulates(p, role, g, 1);
    if Interpret(p, g).proc.status.Sleeping? {
      MoveSleeps(ActorOf(p, role), WorldOf(g), true);
      SleepLine();
      StepSleep(p, g, p.code[14], Num(4));
    }
  }

  lemma {:induction false} VisitTimed(p: Proc, role: B.Role, g: Store, slice: nat)
    requires Fit(p, role, g) && p.code == Code(role) && Timed(p) && slice < SLICE
    ensures Timed(Visit(p, g, slice).proc)
  {
    hide Interpret, Code, Shaped;
    if p.status.Sleeping? { Sleep.DozeKeeps(p, slice); }
    else if p.status.Ready? { FallsAsleep(p, role, g); }
  }

  /** What the visit claims, in numbers. */
  function ClaimBy(p: Proc, role: B.Role): int {
    Bit(role.Barber? && Executes(p, CLAIM))
  }

  /** A visit brings its participant on, or it does nothing at all. */
  lemma {:induction false} VisitRank(p: Proc, role: B.Role, g: Store, slice: nat)
    requires Fit(p, role, g) && p.code == Code(role) && Timed(p) && 0 < slice < SLICE
    ensures var r := Visit(p, g, slice);
      || (r == Pair(p, g) && ClaimBy(p, role) == 0)
      || RankOf(r.proc, role) < RankOf(p, role) + MOST * ClaimBy(p, role)
  {
    if p.status.Sleeping? {
      Sleep.DozeKeeps(p, slice);
      hide Code, Shaped;
    } else if B.CanMove(ActorOf(p, role), WorldOf(g)) {
      var r := Visit(p, g, slice);
      hide Visit, Code, Executes, Shaped;
      VisitTimed(p, role, g, slice);
      VisitSimulates(p, role, g, slice);
      SameEvents(p, role, g, r.proc.status.Sleeping?);
      MoveRank(ActorOf(p, role), WorldOf(g), r.proc.status.Sleeping?, Left(r.proc));
      hide B.Move, Rank;
    } else {
      hide Code, Interpret;
    }
  }

  // ----- runs -----

  function Ranks(s: Sys, b: nat): seq<nat> {
    seq(|s.procs|, i requires 0 <= i < |s.procs| => RankOf(s.procs[i], RoleAt(b, i)))
  }

  /** How many visits that are not in vain there can be before the shop is idle; the barber
      counts at most one customer more than there are. */
  function Potential(s: Sys, b: nat, claims: int): int {
    Sum(Ranks(s, b)) + MOST * (|s.procs| + 1 - claims)
  }

  ghost predicate AllTimed(s: Sys) {
    forall i | 0 <= i < |s.procs| :: Timed(s.procs[i])
  }

  lemma {:induction false} GoodOne(s: Sys, b: nat, claims: nat, picks: nat, i: nat)
    requires Good(s, b, claims, picks) && i < |s.procs|
    ensures s.procs[i].code == Code(RoleAt(b, i)) && Fit(s.procs[i], RoleAt(b, i), s.glob)
  {
    hide B.Inv, Code, Fit, Shaped;
    GoodFits(s, b, claims, picks, i);
  }

  lemma NextIs(s: Sys, t: Turn)
    requires t.who < |s.procs|
    ensures var p, r := s.procs[t.who], Visit(s.procs[t.who], s.glob, t.slice);
      && |Next(s, t).procs| == |s.procs| && Next(s, t).procs[t.who] == r.proc
      && Next(s, t).procs == s.procs[t.who := r.proc]
      && (r == Pair(p, s.glob) ==> Next(s, t) == s)
  {}

  lemma {:induction false} RanksNext(s: Sys, b: nat, t: Turn)
    requires t.who < |s.procs|
    ensures |Next(s, t).procs| == |s.procs|
    ensures var was, now := RankOf(s.procs[t.who], RoleAt(b, t.who)), RankOf(Next(s, t).procs[t.who], RoleAt(b, t.who));
      Sum(Ranks(Next(s, t), b)) == Sum(Ranks(s, b)) - was + now
  {
    hide Next, RankOf;
    NextIs(s, t);
    var i, u := t.who, Next(s, t);
    assert Ranks(u, b) == Ranks(s, b)[i := RankOf(u.procs[i], RoleAt(b, i))];
    SumUpdate(Ranks(s, b), i, RankOf(u.procs[i], RoleAt(b, i)));
  }

  lemma Weighs(m: int, claims: int, more: int)
    ensures MOST * (m + 1 - (claims + more)) == MOST * (m + 1 - claims) - MOST * more
  {}

  lemma {:induction false} PotentialNext(s: Sys, b: nat, claims: int, t: Turn, more: int)
    requires t.who < |s.procs|
    ensures |Next(s, t).procs| == |s.procs|
    ensures var was, now := RankOf(s.procs[t.who], RoleAt(b, t.who)), RankOf(Next(s, t).procs[t.who], RoleAt(b, t.who));
      Potential(Next(s, t), b, claims + more) == Potential(s, b, claims) - was + now - MOST * more
  {
    hide Next, RankOf, Ranks;
    RanksNext(s, b, t);
    Weighs(|s.procs|, claims, more);
  }

  lemma {:induction false} TurnTimed(s: Sys, b: nat, claims: nat, picks: nat, t: Turn)
    requires Good(s, b, claims, picks) && AllTimed(s) && t.slice < SLICE
    ensures AllTimed(Next(s, t))
  {
    hide Visit, Good, Timed, Code, Fit, Next;
    if t.who < |s.procs| {
      GoodOne(s, b, claims, picks, t.who);
      VisitTimed(s.procs[t.who], RoleAt(b, t.who), s.glob, t.slice);
      NextIs(s, t);
    } else {
      Nobody(s, t);
    }
  }

  lemma Nobody(s: Sys, t: Turn)
    requires t.who >= |s.procs|
    ensures Next(s, t) == s
  {}

  /** A turn uses up something of what there is to do, or is in vain. */
  lemma {:induction false} TurnSpends(s: Sys, b: nat, claims: nat, picks: nat, t: Turn)
    requires Good(s, b, claims, picks) && AllTimed(s) && t.who < |s.procs| && Positive(t)
    ensures var more := ClaimBy(s.procs[t.who], RoleAt(b, t.who));
      (Next(s, t) == s && more == 0) || Potential(Next(s, t), b, claims + more) < Potential(s, b, claims)
  {
    hide Next, Visit, Good, RankOf, Timed, Code, Ranks, Fit, Potential, ClaimBy;
    GoodOne(s, b, claims, picks, t.who);
    var p := s.procs[t.who];
    assert Timed(p);
    hide AllTimed;
    VisitRank(p, RoleAt(b, t.who), s.glob, t.slice);
    NextIs(s, t);
    PotentialNext(s, b, claims, t, ClaimBy(p, RoleAt(b, t.who)));
  }

  lemma {:induction false} RunTimed(s: Sys, b: nat, turns: seq<Turn>)
    requires Begins(s, b) && Short(turns)
    ensures AllTimed(Run(s, turns))
  {
    hide Next, AllTimed, Good, Times;
    if turns == [] {
      AwakeAtFirst(s, b);
    } else {
      var before := turns[..|turns| - 1];
      RunTimed(s, b, before);
      GoodRun(s, b, before);
      hide Begins;
      TurnTimed(Run(s, before), b, Times(s, before, b, CLAIM), Times(s, before, b, PICK), turns[|turns| - 1]);
    }
  }

  lemma {:induction false} AwakeAtFirst(s: Sys, b: nat)
    requires Begins(s, b)
    ensures AllTimed(s)
  {
    hide Code;
    forall i | 0 <= i < |s.procs| ensures Timed(s.procs[i]) { assert s.procs[i].status.Ready?; }
  }

  function Spare(s: Sys, b: nat, turns: seq<Turn>): int {
    Potential(Run(s, turns), b, Times(s, turns, b, CLAIM))
  }

  lemma SpareIs(s: Sys, b: nat, turns: seq<Turn>)
    ensures Spare(s, b, turns) == Potential(Run(s, turns), b, Times(s, turns, b, CLAIM))
  {
    hide Potential, Run, Times;
  }

  lemma {:induction false} OneMore(s: Sys, b: nat, turns: seq<Turn>, t: Turn)
    requires t.who < |s.procs|
    ensures var r := Run(s, turns);
      && Run(s, turns + [t]) == Next(r, t)
      && Times(s, turns + [t], b, CLAIM) == Times(s, turns, b, CLAIM) + ClaimBy(r.procs[t.who], RoleAt(b, t.who))
  {
    hide Next, Executes;
    assert (turns + [t])[..|turns|] == turns;
  }

  lemma {:induction false} TurnAfter(s: Sys, b: nat, turns: seq<Turn>, t: Turn)
    requires Begins(s, b) && Short(turns) && t.who < |s.procs| && Positive(t)
    ensures
      || (Next(Run(s, turns), t) == Run(s, turns) && Spare(s, b, turns + [t]) == Spare(s, b, turns))
      || Spare(s, b, turns + [t]) < Spare(s, b, turns)
  {
    hide Good, Begins, Next, Run, Times, Potential, AllTimed, Spare, ClaimBy;
    GoodRun(s, b, turns);
    RunTimed(s, b, turns);
    TurnSpends(Run(s, turns), b, Times(s, turns, b, CLAIM), Times(s, turns, b, PICK), t);
    OneMore(s, b, turns, t);
    SpareIs(s, b, turns);
    SpareIs(s, b, turns + [t]);
  }

  /** Turns use up what there is to do, or each of them is in vain. */
  lemma {:induction false} WindowSpends(s: Sys, b: nat, turns: seq<Turn>, w: seq<Turn>)
    requires Begins(s, b) && Short(turns) && Fair(w, |s.procs|)
    ensures
      || Spare(s, b, turns + w) < Spare(s, b, turns)
      || (&& Spare(s, b, turns + w) == Spare(s, b, turns) && Run(s, turns + w) == Run(s, turns)
          && forall t | t in w :: Next(Run(s, turns), t) == Run(s, turns))
    decreases |w|
  {
    hide Begins, Next, Run, Spare, Times;
    if w == [] {
      assert turns + w == turns;
    } else {
      var v, t := w[..|w| - 1], w[|w| - 1];
      WindowSpends(s, b, turns, v);
      assert turns + w == (turns + v) + [t];
      TurnAfter(s, b, turns + v, t);
      OneMore(s, b, turns + v, t);
      assert w == v + [t];
    }
  }

  // ----- many rounds -----

  /** Turns in which everybody who has not left has one. */
  ghost predicate RoundOf(s: Sys, w: seq<Turn>) {
    Fair(w, |s.procs|) && forall i | 0 <= i < |s.procs| && !s.procs[i].status.Finished? :: HasTurn(w, i)
  }

  ghost predicate AllRounds(s: Sys, turns: seq<Turn>, rounds: seq<seq<Turn>>) {
    forall k | 0 <= k < |rounds| :: RoundOf(Run(s, turns + Flat(rounds[..k])), rounds[k])
  }

  /** A round uses up something, unless the shop is idle. */
  lemma {:induction false} RoundSpends(s: Sys, b: nat, turns: seq<Turn>, w: seq<Turn>)
    requires Begins(s, b) && Short(turns) && RoundOf(Run(s, turns), w)
    requires b < |s.procs| && !Idle(Run(s, turns), b)
    ensures Spare(s, b, turns + w) < Spare(s, b, turns)
  {
    hide Begins, Next, Run, Spare, Idle;
    WindowSpends(s, b, turns, w);
    var r := Run(s, turns);
    var i := BusyMoves(s, b, turns);
    assert HasTurn(w, i);
    var k :| 0 <= k < |w| && w[k].who == i;
    assert Positive(w[k]) && w[k] == Turn(i, w[k].slice);
    assert Next(r, w[k]) != r;
  }

  lemma {:induction false} RoundsShort(s: Sys, turns: seq<Turn>, rounds: seq<seq<Turn>>)
    requires Short(turns) && AllRounds(s, turns, rounds)
    ensures Short(turns + Flat(rounds))
  {
    hide Run;
    forall i | 0 <= i < |turns + Flat(rounds)| ensures (turns + Flat(rounds))[i].slice < SLICE {
      if i >= |turns| {
        var k, j := OfFlat(rounds, i - |turns|);
        assert RoundOf(Run(s, turns + Flat(rounds[..k])), rounds[k]) && Positive(rounds[k][j]);
      }
    }
  }

  lemma {:induction false} RoundsSpend(s: Sys, b: nat, turns: seq<Turn>, rounds: seq<seq<Turn>>)
    requires Begins(s, b) && Short(turns) && AllRounds(s, turns, rounds)
    ensures b < |s.procs|
    ensures Idle(Run(s, turns + Flat(rounds)), b) || Spare(s, b, turns + Flat(rounds)) <= Spare(s, b, turns) - |rounds|
    decreases |rounds|
  {
    assert b < |s.procs|;
    hide Begins, Run, Spare, Idle, RoundOf, Next;
    if rounds == [] {
      assert turns + Flat(rounds) == turns;
    } else {
      var before, w := rounds[..|rounds| - 1], rounds[|rounds| - 1];
      var so := turns + Flat(before);
      FewerRounds(s, turns, rounds);
      RoundsSpend(s, b, turns, before);
      assert turns + Flat(rounds) == so + w;
      RoundsShort(s, turns, before);
      if Idle(Run(s, so), b) {
        IdleForGood(s, b, so, w);
        RunSplit(s, so, w);
      } else {
        RoundSpends(s, b, so, w);
      }
    }
  }

  lemma {:induction false} FewerRounds(s: Sys, turns: seq<Turn>, rounds: seq<seq<Turn>>)
    requires AllRounds(s, turns, rounds) && rounds != []
    ensures AllRounds(s, turns, rounds[..|rounds| - 1])
    ensures RoundOf(Run(s, turns + Flat(rounds[..|rounds| - 1])), rounds[|rounds| - 1])
  {
    hide Run, RoundOf, Flat;
    var before := rounds[..|rounds| - 1];
    forall k | 0 <= k < |before| ensures RoundOf(Run(s, turns + Flat(before[..k])), before[k]) {
      assert before[..k] == rounds[..k];
    }
  }

  lemma {:induction false} PotentialRange(s: Sys, b: nat, claims: nat)
    requires AllTimed(s) && claims <= |s.procs| + 1
    ensures 0 <= Potential(s, b, claims) <= MOST * (2 * |s.procs| + 1)
  {
    hide RankOf, Timed;
    forall i | 0 <= i < |s.procs| ensures Ranks(s, b)[i] <= MOST { RankBound(s.procs[i], RoleAt(b, i)); }
    SumBound(Ranks(s, b), MOST);
  }

  lemma {:induction false} SpareRange(s: Sys, b: nat, turns: seq<Turn>)
    requires Begins(s, b) && Short(turns)
    ensures 0 <= Spare(s, b, turns) <= MOST * (2 * |s.procs| + 1)
  {
    hide Begins, Run, Times, AllTimed, Potential, Spare;
    RunTimed(s, b, turns);
    PickupsFollowArrivals(s, b, turns);
    SpareIs(s, b, turns);
    PotentialRange(Run(s, turns), b, Times(s, turns, b, CLAIM));
  }

  /** From every reachable state the shop comes to its end: within a fixed number of rounds all
      customers have been picked up and have left, and the barber sleeps for good. */
  lemma {:induction false} EverybodyIsServed(s: Sys, b: nat, turns: seq<Turn>, rounds: seq<seq<Turn>>)
    requires Begins(s, b) && Short(turns) && AllRounds(s, turns, rounds)
    requires |rounds| > MOST * (2 * |s.procs| + 1)
    ensures b < |s.procs| && Idle(Run(s, turns + Flat(rounds)), b)
    ensures Times(s, turns + Flat(rounds), b, PICK) == |s.procs| - 1
  {
    assert b < |s.procs|;
    hide Begins, Run, Spare, AllRounds, Idle, Times;
    RoundsSpend(s, b, turns, rounds);
    RoundsShort(s, turns, rounds);
    SpareRange(s, b, turns);
    SpareRange(s, b, turns + Flat(rounds));
    IdleIsServed(s, b, turns + Flat(rounds));
  }

  /** In an idle shop as many customers have been picked up as there are. */
  lemma {:induction false} IdleIsServed(s: Sys, b: nat, turns: seq<Turn>)
    requires Begins(s, b) && b < |s.procs| && Idle(Run(s, turns), b)
    ensures Times(s, turns, b, PICK) == |s.procs| - 1
  {
    hide Begins, Run, Times, Code;
    var r, claims, picks := Run(s, turns), Times(s, turns, b, CLAIM), Times(s, turns, b, PICK);
    GoodRun(s, b, turns);
    var st := StateOf(r, b, claims, picks);
    assert B.Knows(st.actors[b], st.w) && Shaped(r.procs[b], B.Barber);
    forall i | 0 <= i < |st.actors| ensures B.Arrived(st.actors[i]) <==> i != b {
      assert B.Knows(st.actors[i], st.w);
    }
    TallyAllBut(st.actors, B.Arrived, b);
  }
}
