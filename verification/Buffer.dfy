/** The producer/consumer protocol with the program text abstracted away: each
    participant is a line number, a status and two local numbers. */
module Buffer {
  import opened Syntax
  import opened Machine
  import opened Counting

  datatype Role = Producer | Consumer

  /** `at` is the line the participant executes next, in the numbering of its program. */
  datatype Actor = Actor(role: Role, at: nat, status: Status, k: int, item: int)

  datatype World = World(mtx: int, free: int, full: int, head: int, tail: int, buf: seq<int>)

  /** The protocol state, with the items put into and taken out of the buffer so far. */
  datatype State = State(w: World, actors: seq<Actor>, put: seq<int>, got: seq<int>)

  /** Inside the section guarded by $mtx. */
  predicate InSection(a: Actor) {
    a.status.Ready? && (if a.role.Producer? then 11 <= a.at <= 16 else 7 <= a.at <= 12)
  }

  /** A producer that was granted a free slot and has not filled it yet, or a consumer that
      has emptied a slot and not announced it yet. */
  predicate OwesFree(a: Actor) {
    if a.role.Producer? then
      (a.status.Ready? && 9 <= a.at <= 12) || (a.status.Blocked? && a.at == 11)
    else
      a.status.Ready? && 9 <= a.at <= 14
  }

  /** The mirror image: owns a filled slot that $full does not count. */
  predicate OwesFull(a: Actor) {
    if a.role.Producer? then
      a.status.Ready? && 13 <= a.at <= 18
    else
      (a.status.Ready? && 5 <= a.at <= 8) || (a.status.Blocked? && a.at == 7)
  }

  /** Filled a slot, but $in does not say so yet. */
  predicate MidPut(a: Actor) {
    a.role.Producer? && a.status.Ready? && 13 <= a.at <= 15
  }

  /** Emptied a slot, but $out does not say so yet. */
  predicate MidGet(a: Actor) {
    a.role.Consumer? && a.status.Ready? && 9 <= a.at <= 11
  }

  /** Where a status can occur. A blocked participant stands behind its DOWN. */
  predicate Placed(a: Actor) {
    match a.role
    case Producer =>
      a.at <= 19 && a.at != 2 && a.at != 3 && (a.status.Blocked? ==> a.at == 9 || a.at == 11) &&
      (a.status.Sleeping? ==> a.at == 7) && (a.status.Wild? ==> a.at == 5)
    case Consumer =>
      a.at <= 17 && a.at != 1 && a.at != 2 && (a.status.Blocked? ==> a.at == 5 || a.at == 7) &&
      (a.status.Sleeping? ==> a.at == 17) && !a.status.Wild?
  }

  /** What the participant inside the section knows. */
  predicate Knows(a: Actor, w: World, n: int) {
    && Placed(a)
    && !a.status.Finished?
    && (InSection(a) ==>
        match a.role
        case Producer =>
          (a.at == 12 || a.at == 13 ==> a.k == w.head) && (a.at == 14 ==> a.k == w.head + 1) &&
          (a.at == 15 ==> n > 0 && a.k == (w.head + 1) % n)
        case Consumer =>
          (a.at == 8 || a.at == 9 ==> a.k == w.tail) && (a.at == 10 ==> a.k == w.tail + 1) &&
          (a.at == 11 ==> n > 0 && a.k == (w.tail + 1) % n))
  }

  /** Units of the three semaphores are conserved, and the section has one place. */
  predicate Balanced(s: State, n: nat) {
    var w := s.w;
    && w.mtx >= 0 && w.free >= 0 && w.full >= 0
    && w.mtx + Tally(s.actors, InSection) == 1
    && w.free + Tally(s.actors, OwesFree) == n - (|s.put| - |s.got|)
    && w.full + Tally(s.actors, OwesFull) == |s.put| - |s.got|
  }

  /** $in and $out trail the numbers of items put and taken by the steps under way. */
  predicate Positioned(s: State, n: nat)
    requires n >= 1
  {
    && s.w.head == (|s.put| - Tally(s.actors, MidPut)) % n
    && s.w.tail == (|s.got| - Tally(s.actors, MidGet)) % n
  }

  /** The slots hold exactly the items that were put and not yet taken, in order. */
  ghost predicate Filled(s: State, n: nat)
    requires n >= 1 && |s.w.buf| == n
  {
    && s.got <= s.put
    && forall t | |s.got| <= t < |s.put| :: s.w.buf[t % n] == s.put[t]
  }

  ghost predicate Aware(s: State, n: nat) {
    forall i | 0 <= i < |s.actors| :: Knows(s.actors[i], s.w, n)
  }

  ghost predicate Inv(s: State, n: nat) {
    n >= 1 && |s.w.buf| == n && Balanced(s, n) && Positioned(s, n) && Filled(s, n) && Aware(s, n)
  }

  /** One step of a participant, with what it puts into or takes out of the buffer. */
  datatype Change = Change(a: Actor, w: World, put: seq<int>, got: seq<int>)

  function Goto(a: Actor, at: nat): Actor {
    a.(at := at)
  }

  function ProducerMove(a: Actor, w: World, nap: bool): Change
    requires a.role.Producer? && a.status.Ready? && Knows(a, w, |w.buf|) && 0 <= w.head < |w.buf|
  {
    var next := Goto(a, a.at + 1);
    match a.at
    case 0 => Change(next.(item := 0), w, [], [])
    case 1 => Change(Goto(a, 4), w, [], [])
    case 4 =>
      if InInt(a.item + 1) then Change(next.(item := a.item + 1), w, [], [])
      else Change(next.(status := Wild), w, [], [])
    case 6 => Change(if nap then next.(status := Sleeping) else next, w, [], [])
    case 8 => Change(next.(status := Blocked), w, [], [])
    case 10 => Change(next.(status := Blocked), w, [], [])
    case 11 => Change(next.(k := w.head), w, [], [])
    case 12 => Change(next, w.(buf := w.buf[a.k := a.item]), [a.item], [])
    case 13 => Change(next.(k := a.k + 1), w, [], [])
    case 14 => Change(next.(k := a.k % |w.buf|), w, [], [])
    case 15 => Change(next, w.(head := a.k), [], [])
    case 16 => Change(next, w.(mtx := w.mtx + 1), [], [])
    case 18 => Change(next, w.(full := w.full + 1), [], [])
    case 19 => Change(Goto(a, 4), w, [], [])
    case _ => Change(next, w, [], [])
  }

  function ConsumerMove(a: Actor, w: World, nap: bool): Change
    requires a.role.Consumer? && a.status.Ready? && Knows(a, w, |w.buf|) && 0 <= w.tail < |w.buf|
  {
    var next := Goto(a, a.at + 1);
    match a.at
    case 0 => Change(Goto(a, 3), w, [], [])
    case 4 => Change(next.(status := Blocked), w, [], [])
    case 6 => Change(next.(status := Blocked), w, [], [])
    case 7 => Change(next.(k := w.tail), w, [], [])
    case 8 => Change(next.(item := w.buf[a.k]), w, [], [w.buf[a.k]])
    case 9 => Change(next.(k := a.k + 1), w, [], [])
    case 10 => Change(next.(k := a.k % |w.buf|), w, [], [])
    case 11 => Change(next, w.(tail := a.k), [], [])
    case 12 => Change(next, w.(mtx := w.mtx + 1), [], [])
    case 14 => Change(next, w.(free := w.free + 1), [], [])
    case 16 => Change(if nap then next.(status := Sleeping) else next, w, [], [])
    case 17 => Change(Goto(a, 3), w, [], [])
    case _ => Change(next, w, [], [])
  }

  /** A visit to a participant that waits for a unit. */
  function Taken(a: Actor, w: World): Change {
    var go := a.(status := Ready);
    if (a.role.Producer? && a.at == 11) || (a.role.Consumer? && a.at == 7) then
      if w.mtx > 0 then Change(go, w.(mtx := w.mtx - 1), [], []) else Change(a, w, [], [])
    else if a.role.Producer? then
      if w.free > 0 then Change(go, w.(free := w.free - 1), [], []) else Change(a, w, [], [])
    else
      if w.full > 0 then Change(go, w.(full := w.full - 1), [], []) else Change(a, w, [], [])
  }

  function Move(a: Actor, w: World, nap: bool): Change
    requires Knows(a, w, |w.buf|) && 0 <= w.head < |w.buf| && 0 <= w.tail < |w.buf|
  {
    match a.status
    case Ready => if a.role.Producer? then ProducerMove(a, w, nap) else ConsumerMove(a, w, nap)
    case Blocked => Taken(a, w)
    case Sleeping => Change(if nap then a else a.(status := Ready), w, [], [])
    case Finished => Change(a, w, [], [])
    case Wild => Change(a, w, [], [])
  }

  function Apply(s: State, i: nat, c: Change): State
    requires i < |s.actors|
  {
    State(c.w, s.actors[i := c.a], s.put + c.put, s.got + c.got)
  }

  lemma {:induction false} Quotient(a: int, q: int, r: int, n: int)
    requires n >= 1 && a == q * n + r && 0 <= r < n
    ensures a % n == r && a / n == q
  {
    var d := a / n - q;
    assert d * n == r - a % n;
    assert d >= 1 ==> d * n >= n;
    assert d <= -1 ==> d * n <= -n;
  }

  /** Items whose numbers differ by less than the buffer size use different slots. */
  lemma {:induction false} SlotsDiffer(a: int, b: int, n: int)
    requires n >= 1 && a < b < a + n
    ensures a % n != b % n
  {
    var r := a % n + (b - a);
    if r < n { Quotient(b, a / n, r, n); } else { Quotient(b, a / n + 1, r - n, n); }
  }

  lemma {:induction false} NextSlot(a: int, n: int)
    requires n >= 1
    ensures (a % n + 1) % n == (a + 1) % n
  {
    var r := a % n + 1;
    if r < n {
      Quotient(a + 1, a / n, r, n);
      Quotient(r, 0, r, n);
    } else {
      Quotient(a + 1, a / n + 1, 0, n);
      Quotient(r, 1, 0, n);
    }
  }

  /** What one move takes from a semaphore it owes, and the other way round. */
  lemma MoveBalance(a: Actor, w: World, nap: bool)
    requires Knows(a, w, |w.buf|) && 0 <= w.head < |w.buf| && 0 <= w.tail < |w.buf|
    requires w.mtx >= 0 && w.free >= 0 && w.full >= 0
    ensures var c := Move(a, w, nap);
      && c.w.mtx >= 0 && c.w.free >= 0 && c.w.full >= 0
      && c.w.mtx + Bit(InSection(c.a)) == w.mtx + Bit(InSection(a))
      && c.w.free + Bit(OwesFree(c.a)) == w.free + Bit(OwesFree(a)) - |c.put| + |c.got|
      && c.w.full + Bit(OwesFull(c.a)) == w.full + Bit(OwesFull(a)) + |c.put| - |c.got|
  {}

  /** How one move shifts the two ends of the buffer. */
  lemma MovePositions(a: Actor, w: World, nap: bool)
    requires Knows(a, w, |w.buf|) && 0 <= w.head < |w.buf| && 0 <= w.tail < |w.buf|
    ensures var c := Move(a, w, nap);
      && |c.put| + Bit(MidPut(a)) <= 1 && |c.got| + Bit(MidGet(a)) <= 1
      && (if MidPut(a) && !MidPut(c.a) then c.w.head == (w.head + 1) % |w.buf|
          else c.w.head == w.head && Bit(MidPut(c.a)) == Bit(MidPut(a)) + |c.put|)
      && (if MidGet(a) && !MidGet(c.a) then c.w.tail == (w.tail + 1) % |w.buf|
          else c.w.tail == w.tail && Bit(MidGet(c.a)) == Bit(MidGet(a)) + |c.got|)
  {}

  /** Which slot one move writes or reads. */
  lemma MoveSlots(a: Actor, w: World, nap: bool)
    requires Knows(a, w, |w.buf|) && 0 <= w.head < |w.buf| && 0 <= w.tail < |w.buf|
    ensures var c := Move(a, w, nap);
      && |c.put| + |c.got| <= 1
      && (c.put != [] ==> OwesFree(a) && InSection(a) && !MidPut(a) && c.w.buf == w.buf[w.head := c.put[0]])
      && (c.put == [] ==> c.w.buf == w.buf)
      && (c.got != [] ==> OwesFull(a) && InSection(a) && !MidGet(a) && c.got[0] == w.buf[w.tail])
  {}

  /** The state after participant `i` has moved. */
  function Step(s: State, i: nat, nap: bool): State
    requires i < |s.actors| && |s.w.buf| > 0 && Knows(s.actors[i], s.w, |s.w.buf|)
    requires 0 <= s.w.head < |s.w.buf| && 0 <= s.w.tail < |s.w.buf|
  {
    Apply(s, i, Move(s.actors[i], s.w, nap))
  }

  /** Nobody else is in the section. */
  lemma {:induction false} Alone(s: State, n: nat, i: nat, j: nat)
    requires Inv(s, n) && i < |s.actors| && j < |s.actors| && i != j
    requires InSection(s.actors[i])
    ensures !InSection(s.actors[j])
  {
    if InSection(s.actors[j]) {
      if i < j { TallyTwo(s.actors, InSection, i, j); } else { TallyTwo(s.actors, InSection, j, i); }
    }
  }

  /** A participant that has yet to fill its slot finds one, and dually. */
  lemma {:induction false} Room(s: State, n: nat, i: nat)
    requires Inv(s, n) && i < |s.actors|
    ensures OwesFree(s.actors[i]) ==> |s.put| - |s.got| < n
    ensures OwesFull(s.actors[i]) ==> |s.got| < |s.put|
    ensures InSection(s.actors[i]) ==> Tally(s.actors, InSection) == 1 && s.w.mtx == 0
  {
    var a := s.actors[i];
    if OwesFree(a) { TallyOne(s.actors, OwesFree, i); }
    if OwesFull(a) { TallyOne(s.actors, OwesFull, i); }
    if InSection(a) { TallyOne(s.actors, InSection, i); }
  }

  lemma {:induction false} MidStep(s: State, n: nat, i: nat)
    requires Inv(s, n) && i < |s.actors|
    ensures MidPut(s.actors[i]) ==> Tally(s.actors, MidPut) == 1
    ensures MidGet(s.actors[i]) ==> Tally(s.actors, MidGet) == 1
  {
    TallyMonotone(s.actors, MidPut, InSection);
    TallyMonotone(s.actors, MidGet, InSection);
    if MidPut(s.actors[i]) { TallyOne(s.actors, MidPut, i); }
    if MidGet(s.actors[i]) { TallyOne(s.actors, MidGet, i); }
  }

  lemma {:induction false} BalancedKept(s: State, n: nat, i: nat, nap: bool)
    requires Inv(s, n) && i < |s.actors|
    ensures Balanced(Step(s, i, nap), n)
  {
    var b := Move(s.actors[i], s.w, nap).a;
    MoveBalance(s.actors[i], s.w, nap);
    TallyUpdate(s.actors, InSection, i, b);
    TallyUpdate(s.actors, OwesFree, i, b);
    TallyUpdate(s.actors, OwesFull, i, b);
  }

  /** An end of the buffer trails the number of items that passed it: a step changes the number
      and the steps under way alike, or it lets the end follow. */
  lemma {:induction false} Trails(count: int, mids: int, at: int, countNow: int, midsNow: int, atNow: int, n: nat)
    requires n >= 1 && at == (count - mids) % n
    requires (countNow - midsNow == count - mids && atNow == at)
      || (mids == 1 && midsNow == 0 && countNow == count && atNow == (at + 1) % n)
    ensures atNow == (countNow - midsNow) % n
  {
    if mids == 1 && midsNow == 0 && countNow == count { NextSlot(count - 1, n); }
  }

  lemma {:induction false} HeadKept(s: State, n: nat, i: nat, nap: bool)
    requires Inv(s, n) && i < |s.actors|
    ensures var s' := Step(s, i, nap); s'.w.head == (|s'.put| - Tally(s'.actors, MidPut)) % n
  {
    hide Filled, Balanced, Move, InSection;
    MidStep(s, n, i);
    var a, c := s.actors[i], Move(s.actors[i], s.w, nap);
    MovePositions(a, s.w, nap);
    TallyUpdate(s.actors, MidPut, i, c.a);
    hide Knows, MidPut, Tally;
    var now := Tally(s.actors[i := c.a], MidPut);
    Trails(|s.put|, Tally(s.actors, MidPut), s.w.head, |s.put + c.put|, now, c.w.head, n);
  }

  lemma {:induction false} TailKept(s: State, n: nat, i: nat, nap: bool)
    requires Inv(s, n) && i < |s.actors|
    ensures var s' := Step(s, i, nap); s'.w.tail == (|s'.got| - Tally(s'.actors, MidGet)) % n
  {
    hide Filled, Balanced, Move, InSection;
    MidStep(s, n, i);
    var a, c := s.actors[i], Move(s.actors[i], s.w, nap);
    MovePositions(a, s.w, nap);
    TallyUpdate(s.actors, MidGet, i, c.a);
    hide Knows, MidGet, Tally;
    var now := Tally(s.actors[i := c.a], MidGet);
    Trails(|s.got|, Tally(s.actors, MidGet), s.w.tail, |s.got + c.got|, now, c.w.tail, n);
  }

  /** Nobody in the section has moved only one end of the buffer yet. */
  lemma {:induction false} EndsExact(s: State, n: nat, i: nat)
    requires Inv(s, n) && i < |s.actors| && InSection(s.actors[i])
    ensures !MidPut(s.actors[i]) ==> s.w.head == |s.put| % n
    ensures !MidGet(s.actors[i]) ==> s.w.tail == |s.got| % n
  {
    if !MidPut(s.actors[i]) && Tally(s.actors, MidPut) >= 1 {
      var j := TallyWitness(s.actors, MidPut);
      Alone(s, n, i, j);
    }
    if !MidGet(s.actors[i]) && Tally(s.actors, MidGet) >= 1 {
      var j := TallyWitness(s.actors, MidGet);
      Alone(s, n, i, j);
    }
  }

  lemma {:induction false} FilledKept(s: State, n: nat, i: nat, nap: bool)
    requires Inv(s, n) && i < |s.actors|
    ensures Filled(Step(s, i, nap), n)
  {
    var c := Move(s.actors[i], s.w, nap);
    MoveSlots(s.actors[i], s.w, nap);
    Room(s, n, i);
    if c.put != [] {
      EndsExact(s, n, i);
      forall t | |s.got| <= t < |s.put| ensures t % n != |s.put| % n {
        SlotsDiffer(t, |s.put|, n);
      }
    } else if c.got != [] {
      EndsExact(s, n, i);
      assert s.w.buf[|s.got| % n] == s.put[|s.got|];
    }
  }

  lemma {:induction false} AwareKept(s: State, n: nat, i: nat, nap: bool)
    requires Inv(s, n) && i < |s.actors|
    ensures Aware(Step(s, i, nap), n)
  {
    hide Balanced, Filled;
    var s' := Step(s, i, nap);
    forall j | 0 <= j < |s'.actors| ensures Knows(s'.actors[j], s'.w, n) {
      if j != i {
        assert Knows(s.actors[j], s.w, n);
        if InSection(s.actors[i]) { Alone(s, n, i, j); }
      }
    }
  }

  lemma {:induction false} SizeKept(s: State, n: nat, i: nat, nap: bool)
    requires Inv(s, n) && i < |s.actors|
    ensures |Step(s, i, nap).w.buf| == n
  {
    hide Balanced, Filled;
  }

  lemma {:induction false} MoveKeepsInv(s: State, n: nat, i: nat, nap: bool)
    requires Inv(s, n) && i < |s.actors|
    ensures Inv(Step(s, i, nap), n)
  {
    BalancedKept(s, n, i, nap);
    HeadKept(s, n, i, nap);
    TailKept(s, n, i, nap);
    FilledKept(s, n, i, nap);
    AwareKept(s, n, i, nap);
    SizeKept(s, n, i, nap);
    hide Balanced, Filled, Aware, Step;
  }

  /** A producer's item number counts the items it has stored, and the one in its hands. */
  predicate Numbered(a: Actor, stored: nat) {
    a.role.Producer? ==>
      && (a.at == 0 ==> stored == 0)
      && (a.at > 0 ==> a.item == stored + Bit(5 <= a.at <= 12 && !a.status.Wild?))
      && stored <= INT_MAX && (a.status.Wild? ==> stored == INT_MAX)
      && (a.at > 0 ==> a.item <= INT_MAX)
  }

  lemma MoveNumbers(a: Actor, w: World, nap: bool, stored: nat)
    requires Knows(a, w, |w.buf|) && 0 <= w.head < |w.buf| && 0 <= w.tail < |w.buf| && Numbered(a, stored)
    ensures var c := Move(a, w, nap); Numbered(c.a, stored + |c.put|)
  {}

  predicate CanMove(a: Actor, w: World) {
    match a.status
    case Ready => true
    case Sleeping => true
    case Blocked => Taken(a, w).a != a
    case Finished => false
    case Wild => false
  }

  lemma MoveMoves(a: Actor, w: World, nap: bool)
    requires |w.buf| > 0 && Knows(a, w, |w.buf|) && 0 <= w.head < |w.buf| && 0 <= w.tail < |w.buf|
    requires CanMove(a, w) && !a.status.Sleeping?
    ensures Move(a, w, nap).a != a
  {}

  /** With a producer and a consumer around, somebody can always move. A producer counts
      as long as its item number has not overflowed. */
  lemma {:induction false} NoDeadlock(s: State, n: nat, p: nat, c: nat) returns (i: nat)
    requires Inv(s, n) && p < |s.actors| && c < |s.actors|
    requires s.actors[p].role.Producer? && !s.actors[p].status.Wild?
    requires s.actors[c].role.Consumer?
    ensures i < |s.actors| && CanMove(s.actors[i], s.w)
  {
    if s.w.mtx == 0 {
      i := TallyWitness(s.actors, InSection);
    } else if CanMove(s.actors[p], s.w) {
      i := p;
    } else if CanMove(s.actors[c], s.w) {
      i := c;
    } else if Tally(s.actors, OwesFree) >= 1 {
      i := TallyWitness(s.actors, OwesFree);
    } else {
      i := TallyWitness(s.actors, OwesFull);
    }
  }

  /** With a consumer around, nobody can move exactly if no producer can ever move again, all
      items have been taken, and every consumer waits for another. */
  lemma {:induction false} StuckExactly(s: State, n: nat, c: nat)
    requires Inv(s, n) && c < |s.actors| && s.actors[c].role.Consumer?
    ensures (forall i | 0 <= i < |s.actors| :: !CanMove(s.actors[i], s.w)) <==>
      && s.put == s.got
      && forall i | 0 <= i < |s.actors| ::
           if s.actors[i].role.Producer? then s.actors[i].status.Wild?
           else s.actors[i].status.Blocked? && s.actors[i].at == 5
  {
    if forall i | 0 <= i < |s.actors| :: !CanMove(s.actors[i], s.w) {
      forall p | 0 <= p < |s.actors| && s.actors[p].role.Producer? ensures s.actors[p].status.Wild? {
        if !s.actors[p].status.Wild? { var i := NoDeadlock(s, n, p, c); }
      }
      if s.w.mtx == 0 { var i := TallyWitness(s.actors, InSection); }
      forall i | 0 <= i < |s.actors| && s.actors[i].role.Consumer?
        ensures s.actors[i].status.Blocked? && s.actors[i].at == 5
      {
        assert Knows(s.actors[i], s.w, n);
      }
      TallyNone(s.actors, OwesFull);
      assert s.w.full == 0 by { assert !CanMove(s.actors[c], s.w); }
    } else {
      var i :| 0 <= i < |s.actors| && CanMove(s.actors[i], s.w);
      if s.put == s.got && s.actors[i].role.Consumer? && s.actors[i].status.Blocked? && s.actors[i].at == 5 {
        assert s.w.full == 0;
      }
    }
  }
}
