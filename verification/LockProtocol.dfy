/** The operations on global variables as their separate steps of locking, searching,
    unlocking and updating, taken by any number of participants in any order. */
module LockProtocol {
  import opened Syntax
  import opened Locals
  import opened Globals

  /** An operation, as its caller sees it. Take is the attempt of a blocked program to get a
      unit; it is made on the variable that the preceding Down found. */
  datatype Call =
    | Load(name: string, idx: nat)
    | Store(name: string, idx: nat, value: int)
    | Up(name: string, idx: nat)
    | Down(name: string, idx: nat)
    | Take(name: string, idx: nat)

  // ----- the atomic operations -----

  /** The result of an operation that happens all at once: the value loaded, or 1 for a unit
      taken, or 0. */
  function Answer(c: Call, g: Globals.Store): int {
    match c
    case Load(n, i) => Cell(g, n, i)
    case Take(n, i) => if Cell(g, n, i) > 0 then 1 else 0
    case _ => 0
  }

  function Atomic(c: Call, g: Globals.Store): Globals.Store {
    match c
    case Load(n, i) => Touch(g, n, i)
    case Store(n, i, v) => Put(g, n, i, v)
    case Up(n, i) => Put(g, n, i, Cell(g, n, i) + 1)
    case Down(n, i) => Touch(g, n, i)
    case Take(n, i) => if Cell(g, n, i) > 0 then Put(g, n, i, Cell(g, n, i) - 1) else g
  }

  // ----- the steps -----

  /** A variable with its cells and the holder of its mutex. */
  datatype Variable = Variable(name: string, count: seq<int>, holder: Option<nat>)

  /** How far a participant has come with its operation. */
  datatype Phase =
    | Idle        // no operation under way
    | Start       // wants the table lock
    | Searching   // holds the table lock
    | Found       // holds the table lock, has the variable's entry
    | Released    // holds nothing, is about to read the entry
    | Missing     // holds the table lock, there is no variable
    | Inserted    // holds the table lock, has made the variable
    | Fetched     // holds nothing, wants the variable's mutex
    | Inside      // holds the mutex
    | Waiting     // gave the mutex up for a while
    | Leaving     // holds the mutex, has done its update
    | Done        // holds nothing

  /** `sem` is the cell a blocked program waits for; `waited` that it has waited once. */
  datatype Thread = Thread(phase: Phase, id: nat, call: Call, ref: nat, result: int, waited: bool,
    sem: Option<(nat, nat)>)

  datatype Record = Record(id: nat, call: Call, result: int)

  /** `log` lists the operations in the order in which they took effect, and `answers` in
      the order in which they returned. */
  datatype State = State(
    lock: Option<nat>,
    table: map<string, nat>,
    vars: seq<Variable>,
    threads: seq<Thread>,
    next: nat,
    log: seq<Record>,
    answers: seq<Record>)

  datatype Action = Invoke(who: nat, call: Call) | Go(who: nat) | Return(who: nat)

  /** The cells with which a missing variable is made. */
  function Made(c: Call): seq<int> {
    match c
    case Store(_, i, v) => Zeros(i) + [v]
    case Up(_, i) => Zeros(i) + [1]
    case _ => Zeros(c.idx + 1)
  }

  /** The update under the mutex, on the cells of the variable. */
  function Updated(c: Call, count: seq<int>): seq<int>
    requires c.Take? ==> c.idx < |count|
  {
    var i, len := c.idx, |count|;
    match c
    case Load(_, _) => if i < len then count else count + Zeros(i + 1 - len)
    case Store(_, _, v) => if i < len then count[i := v] else count + Zeros(i - len) + [v]
    case Up(_, _) => if i < len then count[i := count[i] + 1] else count + Zeros(i - len) + [1]
    case Down(_, _) => if i < len then count else count + Zeros(i + 1 - len)
    case Take(_, _) => if count[i] > 0 then count[i := count[i] - 1] else count
  }

  /** What the operation reports, read off the cells. */
  function Seen(c: Call, count: seq<int>): int
    requires c.Take? ==> c.idx < |count|
  {
    match c
    case Load(_, i) => if i < |count| then count[i] else 0
    case Take(_, i) => if count[i] > 0 then 1 else 0
    case _ => 0
  }

  function SetThread(s: State, t: nat, th: Thread): State
    requires t < |s.threads|
  {
    s.(threads := s.threads[t := th])
  }

  function Holding(s: State, r: nat, h: Option<nat>): State
    requires r < |s.vars|
  {
    s.(vars := s.vars[r := s.vars[r].(holder := h)])
  }

  /** The access under the mutex. */
  function Access(s: State, t: nat): State
    requires t < |s.threads| && s.threads[t].ref < |s.vars|
    requires s.threads[t].call.Take? ==> s.threads[t].call.idx < |s.vars[s.threads[t].ref].count|
  {
    var th := s.threads[t];
    var v := s.vars[th.ref];
    if th.call.Take? && v.count[th.call.idx] <= 0 && !th.waited then
      SetThread(Holding(s, th.ref, None), t, th.(phase := Waiting))
    else
      var res := Seen(th.call, v.count);
      SetThread(
        s.(vars := s.vars[th.ref := v.(count := Updated(th.call, v.count))],
           log := s.log + [Record(th.id, th.call, res)]),
        t, th.(phase := Leaving, result := res))
  }

  function Insert(s: State, t: nat): State
    requires t < |s.threads|
  {
    var th := s.threads[t];
    SetThread(
      s.(vars := s.vars + [Variable(th.call.name, Made(th.call), None)], table := s.table[th.call.name := |s.vars|],
         log := s.log + [Record(th.id, th.call, 0)]),
      t, th.(phase := Inserted, ref := |s.vars|, result := 0))
  }

  /** References that a participant holds are valid. */
  predicate Linked(s: State, th: Thread) {
    && (th.phase in {Found, Released} ==> th.call.name in s.table && s.table[th.call.name] < |s.vars|)
    && (th.phase in {Fetched, Inside, Waiting, Leaving, Inserted, Done} ==> th.ref < |s.vars|)
    && (th.phase in {Fetched, Inside, Waiting} && th.call.Take? ==> th.call.idx < |s.vars[th.ref].count|)
    && (th.sem.Some? ==> th.sem.value.0 < |s.vars|)
  }

  /** One step of participant `t`; a participant that wants a lock which is taken does not
      move. */
  function Step(s: State, t: nat): State
    requires t < |s.threads| && Linked(s, s.threads[t])
  {
    var th := s.threads[t];
    match th.phase
    case Start => if s.lock.None? then SetThread(s.(lock := Some(t)), t, th.(phase := Searching)) else s
    case Searching =>
      if th.call.name in s.table then SetThread(s, t, th.(phase := Found))
      else SetThread(s, t, th.(phase := Missing))
    case Found => SetThread(s.(lock := None), t, th.(phase := Released))
    case Released => SetThread(s, t, th.(phase := Fetched, ref := s.table[th.call.name]))
    case Missing => Insert(s, t)
    case Inserted => SetThread(s.(lock := None), t, th.(phase := Done))
    case Fetched =>
      if s.vars[th.ref].holder.None? then SetThread(Holding(s, th.ref, Some(t)), t, th.(phase := Inside)) else s
    case Inside => Access(s, t)
    case Waiting =>
      if s.vars[th.ref].holder.None? then
        SetThread(Holding(s, th.ref, Some(t)), t, th.(phase := Inside, waited := true))
      else s
    case Leaving => SetThread(Holding(s, th.ref, None), t, th.(phase := Done))
    case Idle => s
    case Done => s
  }

  /** A participant begins an operation. A blocked one can only try to take its unit. */
  function Begin(s: State, t: nat, c: Call): State
    requires t < |s.threads| && Linked(s, s.threads[t])
  {
    var th := s.threads[t];
    if !th.phase.Idle? then s
    else if th.sem.Some? then
      var (r, i) := th.sem.value;
      var again := th.(phase := Fetched, id := s.next, call := Take(s.vars[r].name, i), ref := r, waited := false);
      SetThread(s, t, again).(next := s.next + 1)
    else if c.Take? then s
    else SetThread(s, t, th.(phase := Start, id := s.next, call := c, waited := false)).(next := s.next + 1)
  }

  function Finish(s: State, t: nat): State
    requires t < |s.threads|
  {
    var th := s.threads[t];
    if !th.phase.Done? then s
    else
      var sem :=
        if th.call.Down? then Some((th.ref, th.call.idx))
        else if th.call.Take? && th.result == 1 then None
        else th.sem;
      SetThread(s, t, th.(phase := Idle, sem := sem)).(answers := s.answers + [Record(th.id, th.call, th.result)])
  }

  function Act(s: State, a: Action): State
    requires a.who < |s.threads| && Linked(s, s.threads[a.who])
  {
    match a
    case Invoke(t, c) => Begin(s, t, c)
    case Go(t) => Step(s, t)
    case Return(t) => Finish(s, t)
  }

  // ----- what the steps keep -----

  predicate HoldsTable(th: Thread) {
    th.phase in {Searching, Found, Missing, Inserted}
  }

  predicate HoldsMutex(th: Thread) {
    th.phase in {Inside, Leaving}
  }

  /** Each lock is held by exactly the participant that its steps say. */
  ghost predicate Locked(s: State) {
    && (s.lock.Some? ==> s.lock.value < |s.threads|)
    && (forall t | 0 <= t < |s.threads| :: HoldsTable(s.threads[t]) <==> s.lock == Some(t))
    && (forall r | 0 <= r < |s.vars| && s.vars[r].holder.Some? ::
          var t := s.vars[r].holder.value; t < |s.threads| && HoldsMutex(s.threads[t]) && s.threads[t].ref == r)
    && (forall t | 0 <= t < |s.threads| && HoldsMutex(s.threads[t]) ::
          s.threads[t].ref < |s.vars| && s.vars[s.threads[t].ref].holder == Some(t))
  }

  /** The table finds every variable by its name, and no name belongs to two variables. */
  ghost predicate Named(s: State) {
    && (forall n | n in s.table :: s.table[n] < |s.vars| && s.vars[s.table[n]].name == n)
    && (forall r | 0 <= r < |s.vars| :: s.vars[r].name in s.table && s.table[s.vars[r].name] == r)
  }

  predicate Reaches(s: State, r: nat, i: nat) {
    r < |s.vars| && i < |s.vars[r].count|
  }

  /** What a participant knows about the variable it works on. */
  predicate Aware(s: State, th: Thread) {
    && Linked(s, th)
    && (th.sem.Some? ==> Reaches(s, th.sem.value.0, th.sem.value.1))
    && (th.phase in {Fetched, Inside, Waiting, Leaving, Inserted, Done} ==> s.vars[th.ref].name == th.call.name)
    && (th.phase in {Fetched, Inside, Waiting} && th.call.Take? ==> Reaches(s, th.ref, th.call.idx))
    && (th.phase in {Leaving, Inserted, Done} && th.call.Down? ==> Reaches(s, th.ref, th.call.idx))
    && (th.phase in {Start, Searching, Found, Released, Missing, Inserted} ==> !th.call.Take?)
    && (th.phase.Missing? ==> th.call.name !in s.table)
  }

  ghost predicate AllAware(s: State) {
    forall t | 0 <= t < |s.threads| :: Aware(s, s.threads[t])
  }

  /** The globals as a map from names to cells, locks and participants aside. */
  function Contents(s: State): Globals.Store
    requires forall n | n in s.table :: s.table[n] < |s.vars|
  {
    map n | n in s.table :: s.vars[s.table[n]].count
  }

  ghost predicate Inv(s: State) {
    Locked(s) && Named(s) && AllAware(s)
  }

  /** The phases in which participants touch the table, a mutex, or neither. */
  predicate AtTable(th: Thread) {
    th.phase in {Start, Searching, Found, Released, Inserted}
  }

  predicate AtMutex(th: Thread) {
    th.phase in {Fetched, Waiting, Leaving}
  }

  lemma {:induction false} LockedAtTable(s: State, t: nat)
    requires Inv(s) && t < |s.threads| && Linked(s, s.threads[t]) && AtTable(s.threads[t])
    ensures Locked(Step(s, t))
  {
    hide Named, AllAware, Insert, Access;
  }

  lemma {:induction false} LockedAtMutex(s: State, t: nat)
    requires Inv(s) && t < |s.threads| && Linked(s, s.threads[t]) && AtMutex(s.threads[t])
    ensures Locked(Step(s, t))
  {
    hide Named, AllAware, Insert, Access;
  }

  lemma LockedByInsert(s: State, t: nat)
    requires Inv(s) && t < |s.threads| && s.threads[t].phase.Missing?
    ensures Locked(Insert(s, t))
  {}

  lemma LockedByAccess(s: State, t: nat)
    requires Inv(s) && t < |s.threads| && Linked(s, s.threads[t]) && s.threads[t].phase.Inside?
    ensures Locked(Access(s, t))
  {}

  lemma {:induction false} LockedAtBegin(s: State, t: nat, c: Call)
    requires Inv(s) && t < |s.threads| && Linked(s, s.threads[t])
    ensures Locked(Begin(s, t, c))
  {
    hide Named, AllAware;
  }

  lemma {:induction false} LockedAtEnd(s: State, t: nat)
    requires Inv(s) && t < |s.threads| && Linked(s, s.threads[t])
    ensures Locked(Finish(s, t))
  {
    hide Named, AllAware;
  }

  lemma {:induction false} LockedAtEnds(s: State, t: nat, c: Call)
    requires Inv(s) && t < |s.threads| && Linked(s, s.threads[t])
    ensures Locked(Begin(s, t, c)) && Locked(Finish(s, t))
  {
    hide Inv, Locked, Begin, Finish, Linked;
    LockedAtBegin(s, t, c);
    LockedAtEnd(s, t);
  }

  /** The parts of an action that other participants can notice: variables keep their names
      and do not shrink, entries stay, and names are added only under the table lock. */
  ghost predicate Evolves(s: State, u: State, t: nat)
    requires t < |s.threads|
  {
    && |u.threads| == |s.threads| && u.threads == s.threads[t := u.threads[t]]
    && |s.vars| <= |u.vars|
    && (forall r | 0 <= r < |s.vars| :: u.vars[r].name == s.vars[r].name && |s.vars[r].count| <= |u.vars[r].count|)
    && (forall n | n in s.table :: n in u.table && u.table[n] == s.table[n])
    && (u.table == s.table || HoldsTable(s.threads[t]))
  }

  /** What one action has to do for the invariant: keep the names, evolve, and leave its own
      participant informed. */
  ghost predicate Proper(s: State, u: State, t: nat)
    requires t < |s.threads|
  {
    Named(u) && Evolves(s, u, t) && Aware(u, u.threads[t])
  }

  lemma {:induction false} ProperAtTable(s: State, t: nat)
    requires Inv(s) && t < |s.threads| && Linked(s, s.threads[t]) && AtTable(s.threads[t])
    ensures Proper(s, Step(s, t), t)
  {
    assert Aware(s, s.threads[t]);
  }

  lemma {:induction false} ProperAtMutex(s: State, t: nat)
    requires Inv(s) && t < |s.threads| && Linked(s, s.threads[t]) && AtMutex(s.threads[t])
    ensures Proper(s, Step(s, t), t)
  {
    hide Locked;
    assert Aware(s, s.threads[t]);
  }

  lemma {:induction false} ProperInsert(s: State, t: nat)
    requires Inv(s) && t < |s.threads| && s.threads[t].phase.Missing?
    ensures Proper(s, Insert(s, t), t)
  {
    assert Aware(s, s.threads[t]);
  }

  lemma {:induction false} ProperAccess(s: State, t: nat)
    requires Inv(s) && t < |s.threads| && Linked(s, s.threads[t]) && s.threads[t].phase.Inside?
    ensures Proper(s, Access(s, t), t)
  {
    hide Locked;
    assert Aware(s, s.threads[t]);
  }

  lemma {:induction false} ProperAtBegin(s: State, t: nat, c: Call)
    requires Inv(s) && t < |s.threads| && Linked(s, s.threads[t])
    ensures Proper(s, Begin(s, t, c), t)
  {
    hide Locked;
    assert Aware(s, s.threads[t]);
  }

  lemma {:induction false} ProperAtEnd(s: State, t: nat)
    requires Inv(s) && t < |s.threads| && Linked(s, s.threads[t])
    ensures Proper(s, Finish(s, t), t)
  {
    hide Locked;
    assert Aware(s, s.threads[t]);
  }

  lemma {:induction false} ProperAtEnds(s: State, t: nat, c: Call)
    requires Inv(s) && t < |s.threads| && Linked(s, s.threads[t])
    ensures Proper(s, Begin(s, t, c), t) && Proper(s, Finish(s, t), t)
  {
    hide Inv, Proper, Begin, Finish, Linked;
    ProperAtBegin(s, t, c);
    ProperAtEnd(s, t);
  }

  lemma {:induction false} OthersAware(s: State, u: State, t: nat)
    requires Inv(s) && t < |s.threads| && Proper(s, u, t)
    ensures AllAware(u)
  {
    forall o | 0 <= o < |u.threads| ensures Aware(u, u.threads[o]) {
      if o != t { assert Aware(s, s.threads[o]) && u.threads[o] == s.threads[o]; }
    }
  }

  lemma {:induction false} StepKeepsInv(s: State, t: nat)
    requires Inv(s) && t < |s.threads|
    ensures Linked(s, s.threads[t]) && Inv(Step(s, t)) && Evolves(s, Step(s, t), t)
  {
    assert Aware(s, s.threads[t]);
    var th := s.threads[t];
    if AtTable(th) { LockedAtTable(s, t); ProperAtTable(s, t); }
    else if AtMutex(th) { LockedAtMutex(s, t); ProperAtMutex(s, t); }
    else if th.phase.Missing? { LockedByInsert(s, t); ProperInsert(s, t); }
    else if th.phase.Inside? { LockedByAccess(s, t); ProperAccess(s, t); }
    hide Locked, Named, Aware, Insert, Access;
    if !th.phase.Idle? && !th.phase.Done? { OthersAware(s, Step(s, t), t); }
  }

  lemma {:induction false} ActKeepsInv(s: State, a: Action)
    requires Inv(s) && a.who < |s.threads|
    ensures Linked(s, s.threads[a.who]) && Inv(Act(s, a)) && Evolves(s, Act(s, a), a.who)
  {
    assert Aware(s, s.threads[a.who]);
    if a.Go? { StepKeepsInv(s, a.who); }
    else {
      var c := if a.Invoke? then a.call else Call.Load("", 0);
      ProperAtEnds(s, a.who, c);
      LockedAtEnds(s, a.who, c);
      hide Locked, Named, Aware, Begin, Finish;
      OthersAware(s, Act(s, a), a.who);
    }
  }

  /** Updating a variable's cells is the atomic operation on the globals. */
  lemma {:induction false} UpdateIsAtomic(c: Call, g: Globals.Store)
    requires c.name in g && (c.Take? ==> c.idx < |g[c.name]|)
    ensures Atomic(c, g) == g[c.name := Updated(c, g[c.name])] && Answer(c, g) == Seen(c, g[c.name])
  {
    var count := g[c.name];
    if c.Store? || c.Up? {
      var v := if c.Store? then c.value else Cell(g, c.name, c.idx) + 1;
      assert Reach(g, c.name, c.idx)[c.idx := v] == Updated(c, count);
    }
  }

  /** So is making a variable that was missing. */
  lemma {:induction false} MakingIsAtomic(c: Call, g: Globals.Store)
    requires c.name !in g && !c.Take?
    ensures Atomic(c, g) == g[c.name := Made(c)] && Answer(c, g) == 0
  {
    if c.Store? || c.Up? {
      assert Reach(g, c.name, c.idx)[c.idx := if c.Store? then c.value else 1] == Made(c);
    } else if c.Load? || c.Down? {
      assert Reach(g, c.name, c.idx) == Made(c);
    }
  }

  // ----- the order in which operations take effect -----

  /** The globals after a list of operations, one after the other, from nothing. */
  function Replay(log: seq<Record>): Globals.Store {
    if log == [] then map[] else Atomic(log[|log| - 1].call, Replay(log[..|log| - 1]))
  }

  /** Every operation reported what it reports in this order. */
  ghost predicate Legal(log: seq<Record>) {
    forall k | 0 <= k < |log| :: log[k].result == Answer(log[k].call, Replay(log[..k]))
  }

  predicate BeforeEffect(th: Thread) {
    th.phase in {Start, Searching, Found, Released, Missing, Fetched, Inside, Waiting}
  }

  predicate AfterEffect(th: Thread) {
    th.phase in {Leaving, Inserted, Done}
  }

  /** An operation is in the log exactly from the step on that does its work. */
  ghost predicate Recorded(s: State, th: Thread) {
    && (!th.phase.Idle? ==> th.id < s.next)
    && (BeforeEffect(th) ==> forall k | 0 <= k < |s.log| :: s.log[k].id != th.id)
    && (AfterEffect(th) ==> Record(th.id, th.call, th.result) in s.log)
  }

  ghost predicate Numbered(s: State) {
    && (forall k | 0 <= k < |s.log| :: s.log[k].id < s.next)
    && (forall j, k | 0 <= j < k < |s.log| :: s.log[j].id != s.log[k].id)
    && (forall t, o | 0 <= t < o < |s.threads| && !s.threads[t].phase.Idle? && !s.threads[o].phase.Idle? ::
          s.threads[t].id != s.threads[o].id)
  }

  ghost predicate Logged(s: State) {
    && (forall t | 0 <= t < |s.threads| :: Recorded(s, s.threads[t]))
    && (forall e | e in s.answers :: e in s.log)
  }

  ghost predicate Ordered(s: State)
    requires Named(s)
  {
    Contents(s) == Replay(s.log) && Legal(s.log)
  }

  ghost predicate Good(s: State) {
    Inv(s) && Numbered(s) && Logged(s) && Ordered(s)
  }

  lemma {:induction false} LegalNext(log: seq<Record>, e: Record)
    requires Legal(log) && e.result == Answer(e.call, Replay(log))
    ensures Legal(log + [e]) && Replay(log + [e]) == Atomic(e.call, Replay(log))
  {
    assert (log + [e])[..|log|] == log;
    forall k | 0 <= k < |log| ensures (log + [e])[..k] == log[..k] {}
  }

  /** Does the action append to the log? */
  predicate TakesEffect(s: State, a: Action)
    requires a.who < |s.threads| && Linked(s, s.threads[a.who])
  {
    var th := s.threads[a.who];
    a.Go? && (th.phase.Missing? ||
      (th.phase.Inside? && !(th.call.Take? && s.vars[th.ref].count[th.call.idx] <= 0 && !th.waited)))
  }

  lemma {:induction false} AccessContents(s: State, t: nat)
    requires Named(s) && t < |s.threads| && s.threads[t].phase.Inside? && Aware(s, s.threads[t])
    ensures var c := s.threads[t].call;
      && Named(Access(s, t)) && c.name in s.table
      && Contents(s)[c.name] == s.vars[s.threads[t].ref].count
      && Contents(Access(s, t)) ==
         (if TakesEffect(s, Go(t)) then Contents(s)[c.name := Updated(c, Contents(s)[c.name])] else Contents(s))
  {
    hide Updated, Seen;
  }

  lemma InsertContents(s: State, t: nat)
    requires Named(s) && t < |s.threads| && s.threads[t].phase.Missing? && Aware(s, s.threads[t])
    ensures var c := s.threads[t].call;
      && Named(Insert(s, t)) && c.name !in s.table
      && Contents(Insert(s, t)) == Contents(s)[c.name := Made(c)]
  {}

  ghost predicate SameCells(s: State, u: State) {
    && u.table == s.table && |u.vars| == |s.vars| && u.log == s.log
    && forall r | 0 <= r < |s.vars| :: u.vars[r].name == s.vars[r].name && u.vars[r].count == s.vars[r].count
  }

  lemma QuietCells(s: State, a: Action)
    requires a.who < |s.threads| && Linked(s, s.threads[a.who])
    requires a.Go? ==> !s.threads[a.who].phase.Missing? && !s.threads[a.who].phase.Inside?
    ensures SameCells(s, Act(s, a))
  {}

  lemma {:induction false} InsertOrdered(s: State, t: nat)
    requires Named(s) && Ordered(s) && t < |s.threads| && Aware(s, s.threads[t]) && s.threads[t].phase.Missing?
    ensures Named(Insert(s, t)) && Ordered(Insert(s, t))
  {
    var th, g, u := s.threads[t], Contents(s), Insert(s, t);
    assert u.log == s.log + [Record(th.id, th.call, 0)];
    InsertContents(s, t);
    hide Contents, Named, Legal, Replay, Aware, Insert;
    MakingIsAtomic(th.call, g);
    LegalNext(s.log, Record(th.id, th.call, 0));
  }

  lemma {:induction false} AccessOrdered(s: State, t: nat)
    requires Named(s) && Ordered(s) && t < |s.threads| && Aware(s, s.threads[t]) && s.threads[t].phase.Inside?
    ensures Named(Access(s, t)) && Ordered(Access(s, t))
  {
    var th, g, u := s.threads[t], Contents(s), Access(s, t);
    AccessContents(s, t);
    if TakesEffect(s, Go(t)) {
      var e := Record(th.id, th.call, Seen(th.call, g[th.call.name]));
      assert u.log == s.log + [e];
      hide Contents, Named, Legal, Replay, Aware, Access, Updated, Seen;
      UpdateIsAtomic(th.call, g);
      LegalNext(s.log, e);
    }
  }

  lemma {:induction false} ActOrdered(s: State, a: Action)
    requires Named(s) && Ordered(s) && a.who < |s.threads| && Aware(s, s.threads[a.who])
    ensures Linked(s, s.threads[a.who]) && Named(Act(s, a)) && Ordered(Act(s, a))
  {
    hide Contents, Legal, Replay, Insert, Access;
    if a.Go? && s.threads[a.who].phase.Missing? {
      InsertOrdered(s, a.who);
    } else if a.Go? && s.threads[a.who].phase.Inside? {
      AccessOrdered(s, a.who);
    } else {
      QuietCells(s, a);
      hide Act;
      SameContents(s, Act(s, a));
    }
  }

  lemma SameContents(s: State, u: State)
    requires Named(s) && SameCells(s, u)
    ensures Named(u) && Contents(u) == Contents(s)
  {}

  /** The log grows by the entry of the acting participant, or not at all. */
  lemma ActLogs(s: State, a: Action)
    requires a.who < |s.threads| && Linked(s, s.threads[a.who])
    ensures var u, th := Act(s, a), Act(s, a).threads[a.who];
      && u.log == (if TakesEffect(s, a) then s.log + [Record(th.id, th.call, th.result)] else s.log)
      && u.threads == s.threads[a.who := th]
      && (TakesEffect(s, a) ==>
           BeforeEffect(s.threads[a.who]) && th.id == s.threads[a.who].id && AfterEffect(th) && u.next == s.next)
  {}

  /** Numbers are handed out once; the phase follows the log. */
  predicate Counted(s: State, u: State, t: nat, takes: bool)
    requires t < |s.threads| && t < |u.threads|
  {
    var was, th := s.threads[t], u.threads[t];
    && (if was.phase.Idle? && !th.phase.Idle? then th.id == s.next && u.next == s.next + 1 && BeforeEffect(th)
        else u.next == s.next && (th.phase.Idle? || th.id == was.id))
    && (BeforeEffect(th) ==> BeforeEffect(was) || was.phase.Idle?)
    && (AfterEffect(th) && !takes ==> AfterEffect(was) && th.call == was.call && th.result == was.result)
    && (forall e | e in u.answers :: e in s.answers || (was.phase.Done? && e == Record(was.id, was.call, was.result)))
  }

  lemma StepCounted(s: State, t: nat)
    requires t < |s.threads| && Linked(s, s.threads[t])
    ensures Counted(s, Step(s, t), t, TakesEffect(s, Go(t)))
  {}

  lemma EndsCounted(s: State, t: nat, c: Call)
    requires t < |s.threads| && Linked(s, s.threads[t])
    ensures Counted(s, Begin(s, t, c), t, false) && Counted(s, Finish(s, t), t, false)
  {}

  lemma {:induction false} ActNumbers(s: State, a: Action)
    requires a.who < |s.threads| && Linked(s, s.threads[a.who])
    ensures Counted(s, Act(s, a), a.who, TakesEffect(s, a))
  {
    hide Step, Begin, Finish, Counted;
    match a
    case Invoke(t, c) => EndsCounted(s, t, c);
    case Go(t) => StepCounted(s, t);
    case Return(t) => EndsCounted(s, t, Call.Load("", 0));
  }

  /** The log grew by at most an entry of participant `t`, whose number it did not have. */
  ghost predicate Grew(s: State, u: State, t: nat)
    requires t < |s.threads| && t < |u.threads|
  {
    var was, th := s.threads[t], u.threads[t];
    && u.threads == s.threads[t := th]
    && (u.log == s.log ||
         (u.log == s.log + [Record(th.id, th.call, th.result)]
          && BeforeEffect(was) && th.id == was.id && AfterEffect(th) && u.next == s.next))
    && (if was.phase.Idle? && !th.phase.Idle? then th.id == s.next && u.next == s.next + 1 && BeforeEffect(th)
        else u.next == s.next && (th.phase.Idle? || th.id == was.id))
    && (BeforeEffect(th) ==> u.log == s.log && (BeforeEffect(was) || was.phase.Idle?))
    && (AfterEffect(th) && u.log == s.log ==> AfterEffect(was) && th.call == was.call && th.result == was.result)
    && (forall e | e in u.answers :: e in s.answers || (was.phase.Done? && e == Record(was.id, was.call, was.result)))
  }

  lemma {:induction false} ActGrew(s: State, a: Action)
    requires a.who < |s.threads| && Linked(s, s.threads[a.who])
    ensures |Act(s, a).threads| == |s.threads| && Grew(s, Act(s, a), a.who)
  {
    ActLogs(s, a);
    ActNumbers(s, a);
    hide Act, TakesEffect;
  }

  lemma {:induction false} NumberedKept(s: State, u: State, t: nat)
    requires t < |s.threads| && |u.threads| == |s.threads| && Grew(s, u, t)
    requires Numbered(s) && Logged(s)
    ensures Numbered(u)
  {
    assert Recorded(s, s.threads[t]);
    if s.threads[t].phase.Idle? && !u.threads[t].phase.Idle? {
      forall o | 0 <= o < |s.threads| && o != t && !s.threads[o].phase.Idle?
        ensures s.threads[o].id != u.threads[t].id
      {
        assert Recorded(s, s.threads[o]);
      }
    }
  }

  lemma {:induction false} LoggedKept(s: State, u: State, t: nat)
    requires t < |s.threads| && |u.threads| == |s.threads| && Grew(s, u, t)
    requires Numbered(s) && Logged(s)
    ensures Logged(u)
  {
    assert Recorded(s, s.threads[t]);
    forall o | 0 <= o < |u.threads| ensures Recorded(u, u.threads[o]) {
      assert Recorded(s, s.threads[o]);
    }
    forall e | e in s.log ensures e in u.log {}
  }

  lemma {:induction false} GoodKept(s: State, a: Action)
    requires Good(s) && a.who < |s.threads|
    ensures Linked(s, s.threads[a.who]) && Good(Act(s, a)) && |Act(s, a).threads| == |s.threads|
  {
    ActKeepsInv(s, a);
    assert Aware(s, s.threads[a.who]);
    hide Act, Locked, Aware, Numbered, Logged, Ordered;
    ActOrdered(s, a);
    ActGrew(s, a);
    NumberedKept(s, Act(s, a), a.who);
    LoggedKept(s, Act(s, a), a.who);
  }
}
