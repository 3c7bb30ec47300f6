/** The sleeping barber protocol with the program text abstracted away. */
module Barbershop {
  import opened Machine
  import opened Counting

  datatype Role = Barber | Customer

  /** `at` is the line executed next, in the numbering of the participant's program. */
  datatype Actor = Actor(role: Role, at: nat, status: Status, tmp: int)

  datatype World = World(mtx: int, sleep: int, avl: int)

  /** The protocol state, with how many customers the barber has claimed and picked up. */
  datatype State = State(w: World, actors: seq<Actor>, claims: nat, picks: nat)

  /** Inside the section guarded by $mtx. */
  predicate InSection(a: Actor) {
    a.status.Ready? && (if a.role.Barber? then 3 <= a.at <= 8 || 11 <= a.at <= 12 else 1 <= a.at <= 8)
  }

  /** A customer that has counted itself in $avl. */
  predicate Arrived(a: Actor) {
    a.role.Customer? && a.at >= 5
  }

  /** A customer that is going to raise $sleep. */
  predicate Waker(a: Actor) {
    a.role.Customer? && a.status.Ready? && (a.at == 6 || a.at == 7 || (a.at == 5 && a.tmp <= 0))
  }

  /** The barber on its way to sleep or asleep. */
  predicate Waits(a: Actor) {
    (a.status.Ready? && 7 <= a.at <= 9) || (a.status.Blocked? && a.at == 10)
  }

  /** The barber between counting a customer out of $avl and picking it up. */
  predicate Pending(a: Actor) {
    (a.status.Ready? && 6 <= a.at <= 11) || (a.status.Blocked? && 10 <= a.at <= 11)
  }

  predicate Placed(a: Actor) {
    match a.role
    case Barber =>
      a.at <= 15 && !a.status.Finished? && !a.status.Wild? &&
      (a.status.Blocked? ==> a.at == 3 || a.at == 10 || a.at == 11) && (a.status.Sleeping? ==> a.at == 15)
    case Customer =>
      a.at <= 10 && !a.status.Sleeping? && !a.status.Wild? &&
      (a.status.Blocked? ==> a.at == 1) && (a.status.Finished? <==> a.at == 10)
  }

  /** What a participant inside the section knows about $avl. */
  predicate Knows(a: Actor, w: World) {
    && Placed(a)
    && (InSection(a) ==>
        match a.role
        case Barber =>
          (a.at == 4 || a.at == 6 ==> a.tmp == w.avl) && (a.at == 5 ==> a.tmp == w.avl - 1) &&
          (a.at == 7 || a.at == 8 ==> w.avl == -1)
        case Customer =>
          (a.at == 3 || a.at == 5 || a.at == 6 || a.at == 7 ==> a.tmp == w.avl) && (a.at == 4 ==> a.tmp == w.avl + 1) &&
          (a.at == 6 || a.at == 7 ==> a.tmp <= 0))
  }

  /** The section has one place once the barber has opened the shop. */
  predicate Exclusive(s: State, b: nat)
    requires b < |s.actors|
  {
    s.w.mtx >= 0 && s.w.mtx + Tally(s.actors, InSection) == Bit(s.actors[b].at > 0)
  }

  /** $avl counts the customers that have arrived and were not claimed. */
  predicate Balanced(s: State, b: nat)
    requires b < |s.actors|
  {
    var me := s.actors[b];
    && s.w.avl == Tally(s.actors, Arrived) - s.claims
    && s.claims == s.picks + Bit(Pending(me))
    && s.w.avl >= -1
    && (!Waits(me) && !(me.status.Ready? && me.at == 6) ==> s.w.avl >= 0)
  }

  /** While the barber waits there is exactly one unit of $sleep, made or in the making, if
      and only if a customer is there; otherwise there is none. */
  predicate Awake(s: State, b: nat)
    requires b < |s.actors|
  {
    s.w.sleep >= 0 && s.w.sleep + Tally(s.actors, Waker) == Bit(Waits(s.actors[b]) && s.w.avl >= 0)
  }

  ghost predicate Aware(s: State) {
    forall i | 0 <= i < |s.actors| :: Knows(s.actors[i], s.w)
  }

  /** The barber is participant `b`, and there is no other. */
  ghost predicate OneBarber(s: State, b: nat) {
    b < |s.actors| && forall i | 0 <= i < |s.actors| :: s.actors[i].role.Barber? <==> i == b
  }

  ghost predicate Inv(s: State, b: nat) {
    OneBarber(s, b) && Exclusive(s, b) && Balanced(s, b) && Awake(s, b) && Aware(s)
  }

  /** One step, and whether it claims or picks up a customer. */
  datatype Change = Change(a: Actor, w: World, claims: nat, picks: nat)

  function BarberMove(a: Actor, w: World, nap: bool): Change
    requires a.role.Barber? && a.status.Ready?
  {
    var next := a.(at := a.at + 1);
    match a.at
    case 0 => Change(next, w.(mtx := 1), 0, 0)
    case 1 => Change(next, w.(sleep := 0), 0, 0)
    case 2 => Change(next.(status := Blocked), w, 0, 0)
    case 3 => Change(next.(tmp := w.avl), w, 0, 0)
    case 4 => Change(next.(tmp := a.tmp - 1), w, 0, 0)
    case 5 => Change(next, w.(avl := a.tmp), 1, 0)
    case 6 => Change(if a.tmp >= 0 then a.(at := 11) else next, w, 0, 0)
    case 8 => Change(next, w.(mtx := w.mtx + 1), 0, 0)
    case 9 => Change(next.(status := Blocked), w, 0, 0)
    case 10 => Change(next.(status := Blocked), w, 0, 0)
    case 11 => Change(next, w, 0, 1)
    case 12 => Change(next, w.(mtx := w.mtx + 1), 0, 0)
    case 14 => Change(if nap then next.(status := Sleeping) else next, w, 0, 0)
    case 15 => Change(a.(at := 2), w, 0, 0)
    case _ => Change(next, w, 0, 0)
  }

  function CustomerMove(a: Actor, w: World): Change
    requires a.role.Customer? && a.status.Ready?
  {
    var next := a.(at := a.at + 1);
    match a.at
    case 0 => Change(next.(status := Blocked), w, 0, 0)
    case 2 => Change(next.(tmp := w.avl), w, 0, 0)
    case 3 => Change(next.(tmp := a.tmp + 1), w, 0, 0)
    case 4 => Change(next, w.(avl := a.tmp), 0, 0)
    case 5 => Change(if a.tmp > 0 then a.(at := 8) else next, w, 0, 0)
    case 7 => Change(next, w.(sleep := w.sleep + 1), 0, 0)
    case 8 => Change(next, w.(mtx := w.mtx + 1), 0, 0)
    case 9 => Change(next.(status := Finished), w, 0, 0)
    case _ => Change(next, w, 0, 0)
  }

  /** A visit to a participant that waits for a unit. */
  function Taken(a: Actor, w: World): Change {
    var go := a.(status := Ready);
    if a.role.Barber? && a.at == 10 then
      if w.sleep > 0 then Change(go, w.(sleep := w.sleep - 1), 0, 0) else Change(a, w, 0, 0)
    else
      if w.mtx > 0 then Change(go, w.(mtx := w.mtx - 1), 0, 0) else Change(a, w, 0, 0)
  }

  function Move(a: Actor, w: World, nap: bool): Change {
    match a.status
    case Ready => if a.role.Barber? then BarberMove(a, w, nap) else CustomerMove(a, w)
    case Blocked => Taken(a, w)
    case Sleeping => Change(if nap then a else a.(status := Ready), w, 0, 0)
    case Finished => Change(a, w, 0, 0)
    case Wild => Change(a, w, 0, 0)
  }

  function Step(s: State, i: nat, nap: bool): State
    requires i < |s.actors|
  {
    var c := Move(s.actors[i], s.w, nap);
    State(c.w, s.actors[i := c.a], s.claims + c.claims, s.picks + c.picks)
  }

  lemma {:induction false} Alone(s: State, b: nat, i: nat, j: nat)
    requires Inv(s, b) && i < |s.actors| && j < |s.actors| && i != j && InSection(s.actors[i])
    ensures !InSection(s.actors[j])
  {
    if InSection(s.actors[j]) {
      if i < j { TallyTwo(s.actors, InSection, i, j); } else { TallyTwo(s.actors, InSection, j, i); }
    }
  }

  lemma {:induction false} Holder(s: State, b: nat, i: nat)
    requires Inv(s, b) && i < |s.actors| && InSection(s.actors[i])
    ensures s.w.mtx == 0 && s.actors[b].at > 0
  {
    TallyOne(s.actors, InSection, i);
  }

  lemma {:induction false} ExclusiveKept(s: State, b: nat, i: nat, nap: bool)
    requires Inv(s, b) && i < |s.actors|
    ensures Exclusive(Step(s, i, nap), b)
  {
    hide Awake, Balanced, Tally;
    TallyUpdate(s.actors, InSection, i, Move(s.actors[i], s.w, nap).a);
    if InSection(s.actors[i]) { Holder(s, b, i); }
  }

  lemma {:induction false} CustomerBalanced(s: State, b: nat, i: nat, nap: bool)
    requires Inv(s, b) && i < |s.actors| && i != b
    ensures Balanced(Step(s, i, nap), b)
  {
    hide Awake;
    TallyUpdate(s.actors, Arrived, i, Move(s.actors[i], s.w, nap).a);
    assert Knows(s.actors[i], s.w) && Knows(s.actors[b], s.w);
    if InSection(s.actors[i]) { Alone(s, b, i, b); }
    hide Exclusive, Aware, Tally;
  }

  lemma {:induction false} BarberBalanced(s: State, b: nat, nap: bool)
    requires Inv(s, b)
    ensures Balanced(Step(s, b, nap), b)
  {
    TallyUpdate(s.actors, Arrived, b, Move(s.actors[b], s.w, nap).a);
    assert Knows(s.actors[b], s.w);
    SleepMeansArrival(s, b);
    hide Exclusive, Awake, Aware, Tally;
  }

  lemma {:induction false} BalancedKept(s: State, b: nat, i: nat, nap: bool)
    requires Inv(s, b) && i < |s.actors|
    ensures Balanced(Step(s, i, nap), b)
  {
    if i == b { BarberBalanced(s, b, nap); } else { CustomerBalanced(s, b, i, nap); }
  }

  lemma SleepMeansArrival(s: State, b: nat)
    requires Inv(s, b)
    ensures s.w.sleep >= 1 ==> s.w.avl >= 0
  {}

  lemma {:induction false} BarberAwake(s: State, b: nat, nap: bool)
    requires Inv(s, b)
    ensures Awake(Step(s, b, nap), b)
  {
    TallyUpdate(s.actors, Waker, b, Move(s.actors[b], s.w, nap).a);
    assert Knows(s.actors[b], s.w);
    hide Exclusive, Aware, Tally;
  }

  lemma {:induction false} CustomerAwake(s: State, b: nat, i: nat, nap: bool)
    requires Inv(s, b) && i < |s.actors| && i != b
    ensures Awake(Step(s, i, nap), b)
  {
    TallyUpdate(s.actors, Waker, i, Move(s.actors[i], s.w, nap).a);
    assert Knows(s.actors[i], s.w) && Knows(s.actors[b], s.w);
    if InSection(s.actors[i]) { Alone(s, b, i, b); }
    if Waker(s.actors[i]) { TallyOne(s.actors, Waker, i); }
    hide Exclusive, Aware, Tally, BarberMove;
  }

  lemma {:induction false} AwakeKept(s: State, b: nat, i: nat, nap: bool)
    requires Inv(s, b) && i < |s.actors|
    ensures Awake(Step(s, i, nap), b)
  {
    hide Awake, Step;
    if i == b { BarberAwake(s, b, nap); } else { CustomerAwake(s, b, i, nap); }
  }

  lemma {:induction false} AwareKept(s: State, b: nat, i: nat, nap: bool)
    requires Inv(s, b) && i < |s.actors|
    ensures Aware(Step(s, i, nap))
  {
    var s' := Step(s, i, nap);
    assert Knows(s.actors[i], s.w);
    forall j | 0 <= j < |s'.actors| ensures Knows(s'.actors[j], s'.w) {
      if j != i {
        assert Knows(s.actors[j], s.w);
        if InSection(s.actors[i]) { Alone(s, b, i, j); }
      }
    }
  }

  lemma {:induction false} MoveKeepsInv(s: State, b: nat, i: nat, nap: bool)
    requires Inv(s, b) && i < |s.actors|
    ensures Inv(Step(s, i, nap), b)
  {
    ExclusiveKept(s, b, i, nap);
    BalancedKept(s, b, i, nap);
    AwakeKept(s, b, i, nap);
    AwareKept(s, b, i, nap);
    hide Exclusive, Balanced, Awake, Aware;
    assert Move(s.actors[i], s.w, nap).a.role == s.actors[i].role;
  }

  predicate CanMove(a: Actor, w: World) {
    match a.status
    case Ready => true
    case Sleeping => true
    case Blocked => Taken(a, w).a != a
    case Finished => false
    case Wild => false
  }

  /** If nobody can move, the shop is closed for good reason: every customer has left and
      the barber sleeps because it has claimed one customer more than ever came. */
  lemma {:induction false} OnlyIdleStops(s: State, b: nat) returns (i: nat)
    requires Inv(s, b)
    requires !(s.actors[b].status.Blocked? && s.actors[b].at == 10 && Tally(s.actors, Arrived) + 1 == s.claims
      && forall j | 0 <= j < |s.actors| && j != b :: s.actors[j].status.Finished?)
    ensures i < |s.actors| && CanMove(s.actors[i], s.w)
  {
    if CanMove(s.actors[b], s.w) {
      i := b;
    } else if Tally(s.actors, InSection) >= 1 {
      i := TallyWitness(s.actors, InSection);
    } else if Tally(s.actors, Waker) >= 1 {
      i := TallyWitness(s.actors, Waker);
    } else {
      assert Knows(s.actors[b], s.w);
      i :| 0 <= i < |s.actors| && i != b && !s.actors[i].status.Finished?;
      assert Knows(s.actors[i], s.w);
    }
  }
}
