/** Runs of the shipped barber with any number of shipped customers: nobody is picked up
    who has not come, and no wake-up is lost. */
module BarberRuns {
  import opened Syntax
  import opened Globals
  import opened Machine
  import opened Counting
  import opened Barber
  import B = Barbershop

  /** Whether the next visit to a program executes a given instruction. */
  predicate Executes(p: Proc, ins: Instr) {
    p.status.Ready? && p.line < |p.code| && p.code[p.line].instr == ins
  }

  /** How often program `who` executes an instruction during a run. */
  function Times(s: Sys, turns: seq<Turn>, who: nat, ins: Instr): nat {
    if turns == [] then 0
    else
      var before, t := turns[..|turns| - 1], turns[|turns| - 1];
      var r := Run(s, before);
      Times(s, before, who, ins) + if t.who == who && who < |r.procs| && Executes(r.procs[who], ins) then 1 else 0
  }

  /** Counting a customer out of $avl, and picking it up. */
  const CLAIM: Instr := Store(Var("avl"), Var("tmp"))
  const PICK: Instr := Print("Barber picks up next customer", [])

  function RoleAt(b: nat, i: nat): B.Role {
    if i == b then B.Barber else B.Customer
  }

  /** Program `b` is the barber and all others are customers; the globals are fresh. */
  ghost predicate Begins(s: Sys, b: nat) {
    && b < |s.procs| < INT_MAX
    && (forall i | 0 <= i < |s.procs| :: s.procs[i] == Start(Code(RoleAt(b, i)), s.procs[i].args))
    && Cell(s.glob, "mtx", 0) == 0 && Cell(s.glob, "sleep", 0) == 0 && Cell(s.glob, "avl", 0) == 0
  }

  function Actors(s: Sys, b: nat): seq<B.Actor> {
    seq(|s.procs|, i requires 0 <= i < |s.procs| => ActorOf(s.procs[i], RoleAt(b, i)))
  }

  function StateOf(s: Sys, b: nat, claims: nat, picks: nat): B.State {
    B.State(WorldOf(s.glob), Actors(s, b), claims, picks)
  }

  ghost predicate Good(s: Sys, b: nat, claims: nat, picks: nat) {
    && b < |s.procs| < INT_MAX
    && (forall i | 0 <= i < |s.procs| :: Shaped(s.procs[i], RoleAt(b, i)) && s.procs[i].code == Code(RoleAt(b, i)))
    && B.Inv(StateOf(s, b, claims, picks), b)
  }

  lemma {:induction false} GoodAtStart(s: Sys, b: nat)
    requires Begins(s, b)
    ensures Good(s, b, 0, 0)
  {
    hide Code;
    var actors := Actors(s, b);
    forall a | a in actors ensures a.at == 0 && a.status == Ready {}
    TallyNone(actors, B.InSection);
    TallyNone(actors, B.Arrived);
    TallyNone(actors, B.Waker);
    hide Tally;
    assert B.Inv(StateOf(s, b, 0, 0), b);
  }

  lemma {:induction false} GoodFits(s: Sys, b: nat, claims: nat, picks: nat, i: nat)
    requires Good(s, b, claims, picks) && i < |s.procs|
    ensures Fit(s.procs[i], RoleAt(b, i), s.glob)
  {
    hide Code;
    var st := StateOf(s, b, claims, picks);
    assert B.Knows(st.actors[i], st.w);
  }

  /** The barber claims and picks up exactly when the protocol says. */
  lemma SameEvents(p: Proc, role: B.Role, g: Store, nap: bool)
    requires Fit(p, role, g) && p.code == Code(role)
    ensures var c := B.Move(ActorOf(p, role), WorldOf(g), nap);
      && c.claims == Bit(role.Barber? && Executes(p, CLAIM))
      && c.picks == Bit(role.Barber? && Executes(p, PICK))
  {}

  lemma {:induction false} VisitIsStep(s: Sys, b: nat, claims: nat, picks: nat, t: Turn)
    requires Good(s, b, claims, picks) && t.who < |s.procs|
    ensures var p, r := s.procs[t.who], Visit(s.procs[t.who], s.glob, t.slice);
      && Shaped(r.proc, RoleAt(b, t.who)) && r.proc.code == p.code
      && StateOf(Next(s, t), b, claims + Bit(t.who == b && Executes(p, CLAIM)),
           picks + Bit(t.who == b && Executes(p, PICK)))
         == B.Step(StateOf(s, b, claims, picks), t.who, r.proc.status.Sleeping?)
  {
    hide Code, Visit, Executes;
    var i, st := t.who, StateOf(s, b, claims, picks);
    var p, r := s.procs[i], Visit(s.procs[i], s.glob, t.slice);
    GoodFits(s, b, claims, picks, i);
    hide B.Inv, Good, Fit;
    VisitSimulates(p, RoleAt(b, i), s.glob, t.slice);
    SameEvents(p, RoleAt(b, i), s.glob, r.proc.status.Sleeping?);
    hide B.Move;
    assert Actors(Next(s, t), b) == st.actors[i := ActorOf(r.proc, RoleAt(b, i))];
  }

  lemma {:induction false} GoodKept(s: Sys, b: nat, claims: nat, picks: nat, t: Turn)
    requires Good(s, b, claims, picks) && t.who < |s.procs|
    ensures var p := s.procs[t.who];
      Good(Next(s, t), b, claims + Bit(t.who == b && Executes(p, CLAIM)), picks + Bit(t.who == b && Executes(p, PICK)))
  {
    hide Code, Visit, Executes, B.Step, B.Inv, Shaped, B.Move;
    VisitIsStep(s, b, claims, picks, t);
    B.MoveKeepsInv(StateOf(s, b, claims, picks), b, t.who, Next(s, t).procs[t.who].status.Sleeping?);
  }

  lemma {:induction false} GoodRun(s: Sys, b: nat, turns: seq<Turn>)
    requires Begins(s, b)
    ensures Good(Run(s, turns), b, Times(s, turns, b, CLAIM), Times(s, turns, b, PICK))
  {
    hide Visit, Good, Executes;
    if turns == [] {
      GoodAtStart(s, b);
    } else {
      var before, t := turns[..|turns| - 1], turns[|turns| - 1];
      GoodRun(s, b, before);
      if t.who < |Run(s, before).procs| {
        GoodKept(Run(s, before), b, Times(s, before, b, CLAIM), Times(s, before, b, PICK), t);
      }
    }
  }

  /** $avl is arrivals minus claims and never below -1; the barber has claimed the customer
      it is about to pick up and no other; it picks up at most as many as have come. */
  lemma {:induction false} PickupsFollowArrivals(s: Sys, b: nat, turns: seq<Turn>)
    requires Begins(s, b)
    ensures var r, claims, picks := Run(s, turns), Times(s, turns, b, CLAIM), Times(s, turns, b, PICK);
      var arrivals := Tally(Actors(r, b), B.Arrived);
      && -1 <= Cell(r.glob, "avl", 0) == arrivals - claims
      && picks <= claims <= picks + 1
      && picks <= arrivals
  {
    GoodRun(s, b, turns);
    hide Code, Run, Times;
  }

  /** While the barber is blocked on $sleep, there is a unit for it, or a customer that can
      run and is about to make one, exactly if a customer is waiting; never two. */
  lemma {:induction false} NoLostWakeup(s: Sys, b: nat, turns: seq<Turn>)
    requires Begins(s, b)
    ensures var r := Run(s, turns);
      var wakers := Tally(Actors(r, b), B.Waker);
      && (r.procs[b].status.Blocked? && r.procs[b].sem == "sleep" ==>
            Cell(r.glob, "sleep", 0) + wakers == if Cell(r.glob, "avl", 0) >= 0 then 1 else 0)
      && (!B.Waits(ActorOf(r.procs[b], B.Barber)) ==> Cell(r.glob, "sleep", 0) == 0 && wakers == 0)
  {
    GoodRun(s, b, turns);
    hide Code, Run, Times;
    var st := StateOf(Run(s, turns), b, Times(s, turns, b, CLAIM), Times(s, turns, b, PICK));
    assert B.Knows(st.actors[b], st.w) && st.actors[b].role == B.Barber;
  }

  /** At most one participant is between DOWN $mtx and UP $mtx. */
  lemma {:induction false} MutualExclusion(s: Sys, b: nat, turns: seq<Turn>, i: nat, j: nat)
    requires Begins(s, b) && i < j < |s.procs|
    ensures var r := Run(s, turns);
      !(B.InSection(ActorOf(r.procs[i], RoleAt(b, i))) && B.InSection(ActorOf(r.procs[j], RoleAt(b, j))))
  {
    GoodRun(s, b, turns);
    hide Code, Visit, Times;
    var st := StateOf(Run(s, turns), b, Times(s, turns, b, CLAIM), Times(s, turns, b, PICK));
    if B.InSection(st.actors[i]) { B.Alone(st, b, i, j); }
  }

  lemma {:induction false} EnabledMoves(p: Proc, role: B.Role, g: Store, slice: nat)
    requires Fit(p, role, g) && p.code == Code(role) && slice > 0
    requires B.CanMove(ActorOf(p, role), WorldOf(g))
    ensures Visit(p, g, slice).proc != p
  {
    hide Code;
    if !p.status.Sleeping? {
      hide Visit;
      VisitSimulates(p, role, g, slice);
    }
  }

  /** All customers have left, and the barber sleeps, having asked for one customer more than
      ever came. */
  ghost predicate Idle(r: Sys, b: nat)
    requires b < |r.procs|
  {
    && r.procs[b].status.Blocked? && r.procs[b].sem == "sleep" && Cell(r.glob, "avl", 0) == -1
    && forall i | 0 <= i < |r.procs| && i != b :: r.procs[i].status.Finished?
  }

  /** The reachable states that no turn changes are the idle ones. */
  lemma {:induction false} OnlyIdleStops(s: Sys, b: nat, turns: seq<Turn>)
    requires Begins(s, b)
    ensures (forall t :: Next(Run(s, turns), t) == Run(s, turns)) <==> Idle(Run(s, turns), b)
  {
    var r := Run(s, turns);
    hide Next, Run;
    if Idle(r, b) {
      forall t ensures Next(r, t) == r { IdleStays(s, b, turns, t); }
    } else {
      var i := BusyMoves(s, b, turns);
      assert Next(r, Turn(i, 1)) != r;
    }
  }

  lemma {:induction false} BusyMoves(s: Sys, b: nat, turns: seq<Turn>) returns (i: nat)
    requires Begins(s, b) && !Idle(Run(s, turns), b)
    ensures i < |Run(s, turns).procs| && !Run(s, turns).procs[i].status.Finished?
    ensures forall slice: nat :: slice > 0 ==> Next(Run(s, turns), Turn(i, slice)) != Run(s, turns)
  {
    GoodRun(s, b, turns);
    hide Code, Visit, Times;
    var r, claims, picks := Run(s, turns), Times(s, turns, b, CLAIM), Times(s, turns, b, PICK);
    var st := StateOf(r, b, claims, picks);
    if st.actors[b].status.Blocked? && st.actors[b].at == 10 && Tally(st.actors, B.Arrived) + 1 == st.claims
       && forall j | 0 <= j < |st.actors| && j != b :: st.actors[j].status.Finished? {
      forall i | 0 <= i < |r.procs| && i != b ensures r.procs[i].status.Finished? {
        assert st.actors[i].status.Finished?;
      }
      assert false;
    }
    i := B.OnlyIdleStops(st, b);
    GoodFits(r, b, claims, picks, i);
    forall slice: nat | slice > 0 ensures Next(r, Turn(i, slice)) != r {
      EnabledMoves(r.procs[i], RoleAt(b, i), r.glob, slice);
      assert Next(r, Turn(i, slice)).procs[i] != r.procs[i];
    }
  }

  lemma {:induction false} IdleStays(s: Sys, b: nat, turns: seq<Turn>, t: Turn)
    requires Begins(s, b) && Idle(Run(s, turns), b)
    ensures Next(Run(s, turns), t) == Run(s, turns)
  {
    var r := Run(s, turns);
    GoodRun(s, b, turns);
    NoLostWakeup(s, b, turns);
    hide Code, Run, Times, Begins;
    if t.who < |r.procs| {
      assert Shaped(r.procs[b], B.Barber);
      assert Visit(r.procs[t.who], r.glob, t.slice) == Pair(r.procs[t.who], r.glob);
    }
  }

  /** Once idle, the shop stays so for good. */
  lemma {:induction false} IdleForGood(s: Sys, b: nat, turns: seq<Turn>, more: seq<Turn>)
    requires Begins(s, b) && Idle(Run(s, turns), b)
    ensures Run(Run(s, turns), more) == Run(s, turns)
    decreases |more|
  {
    hide Next, Begins, Idle;
    if more != [] {
      IdleForGood(s, b, turns, more[..|more| - 1]);
      IdleStays(s, b, turns, more[|more| - 1]);
    }
  }

  /** The first turns of the barber in an empty shop: one grant, and otherwise one line each. */
  function Opening(k: nat): seq<Turn> {
    if k == 0 then [] else Opening(k - 1) + [Turn(0, 0)]
  }

  /** Where they bring it. */
  function Opened(k: nat): (B.Actor, B.World)
    requires k <= 11
  {
    var at := if k <= 3 then k else k - 1;
    var tmp := if k <= 5 then 0 else -1;
    (B.Actor(B.Barber, at, if k == 3 || k == 11 then Blocked else Ready, tmp),
     B.World(if k == 0 || 4 <= k <= 9 then 0 else 1, 0, if k <= 6 then 0 else -1))
  }

  lemma OpensNext(k: nat)
    requires 1 <= k <= 11
    ensures var (a, w) := Opened(k - 1);
      var c := B.Move(a, w, false); (c.a, c.w) == Opened(k) && !c.a.status.Sleeping?
    ensures var (a, w) := Opened(k - 1); !B.Move(a, w, true).a.status.Sleeping?
  {}

  ghost predicate IsOpened(r: Sys, k: nat) {
    && k <= 11 && |r.procs| == 1
    && (ActorOf(r.procs[0], B.Barber), WorldOf(r.glob)) == Opened(k) && Shaped(r.procs[0], B.Barber)
  }

  lemma {:induction false} OpensOne(r: Sys, k: nat, claims: nat, picks: nat)
    requires Good(r, 0, claims, picks) && 1 <= k <= 11 && IsOpened(r, k - 1)
    ensures IsOpened(Next(r, Turn(0, 0)), k)
  {
    hide Code, Visit, Shaped;
    GoodFits(r, 0, claims, picks, 0);
    hide Good, Fit;
    OpensNext(k);
    VisitSimulates(r.procs[0], B.Barber, r.glob, 0);
    hide Opened, B.Move;
  }

  lemma {:induction false} OpeningRuns(s: Sys, k: nat)
    requires Begins(s, 0) && |s.procs| == 1 && k <= 11
    ensures IsOpened(Run(s, Opening(k)), k)
  {
    hide Times, Good, Next, Opened;
    if k == 0 {
      Unopened(s);
    } else {
      OpeningRuns(s, k - 1);
      GoodRun(s, 0, Opening(k - 1));
      assert Opening(k)[..|Opening(k)| - 1] == Opening(k - 1);
      hide Begins, IsOpened;
      OpensOne(Run(s, Opening(k - 1)), k, Times(s, Opening(k - 1), 0, CLAIM), Times(s, Opening(k - 1), 0, PICK));
    }
  }

  lemma Unopened(s: Sys)
    requires Begins(s, 0) && |s.procs| == 1
    ensures IsOpened(s, 0)
  {}

  /** The idle state is reached: in a shop without customers, after eleven turns. */
  lemma {:induction false} EmptyShopIdles(s: Sys)
    requires Begins(s, 0) && |s.procs| == 1
    ensures Idle(Run(s, Opening(11)), 0)
  {
    hide Run, Begins;
    OpeningRuns(s, 11);
  }
}
