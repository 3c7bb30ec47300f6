/** The scheduler's ring of programs: attached at the tail, visited one after the other,
    taken out when they are finished. */
module Scheduler {
  import opened Syntax

  /** `list` begins at the head of the ring; `curr` is the
      program to be visited next, or None while the thread waits for a program. The two logs
      record every attachment and every retirement. */
  datatype Ring<T> = Ring(list: seq<T>, curr: Option<T>, count: int, attached: seq<T>, retired: seq<T>)

  /** Attach adds a program; Wake begins a walk at the head; Visit serves the current
      program, which is afterwards finished or not. */
  datatype Event<T> = Attach(who: T) | Wake | Visit(finished: bool)

  function Empty<T>(): Ring<T> {
    Ring([], None, 0, [], [])
  }

  function Index<T(==)>(list: seq<T>, x: T): (i: nat)
    requires x in list
    ensures i < |list| && list[i] == x && forall k | 0 <= k < i :: list[k] != x
  {
    if list[0] == x then 0 else 1 + Index(list[1..], x)
  }

  /** The node behind `x` in the ring. */
  function After<T(==)>(list: seq<T>, x: T): T
    requires x in list
  {
    var i := Index(list, x);
    if i + 1 < |list| then list[i + 1] else list[0]
  }

  function Without<T(==)>(list: seq<T>, x: T): seq<T>
    requires x in list
  {
    list[..Index(list, x)] + list[Index(list, x) + 1..]
  }

  /** Moves on to the next node, and takes the visited one out if it is finished. */
  function Visited<T(==)>(r: Ring<T>, finished: bool): Ring<T>
    requires r.curr.Some? && r.curr.value in r.list
  {
    var x := r.curr.value;
    var next := After(r.list, x);
    if !finished then r.(curr := Some(next))
    else
      var rest := Without(r.list, x);
      Ring(rest, if rest == [] then None else Some(next), r.count - 1, r.attached, r.retired + [x])
  }

  predicate Enabled<T(==)>(r: Ring<T>, e: Event<T>) {
    match e
    case Attach(_) => true
    case Wake => r.curr.None? && r.list != []
    case Visit(_) => r.curr.Some? && r.curr.value in r.list
  }

  function Step<T(==)>(r: Ring<T>, e: Event<T>): Ring<T>
    requires Enabled(r, e)
  {
    match e
    case Attach(x) => r.(list := r.list + [x], count := r.count + 1, attached := r.attached + [x])
    case Wake => r.(curr := Some(r.list[0]))
    case Visit(finished) => Visited(r, finished)
  }

  /** No program is in the list twice. */
  ghost predicate Distinct<T>(xs: seq<T>) {
    forall i, j | 0 <= i < j < |xs| :: xs[i] != xs[j]
  }

  // ----- integrity -----

  /** The ring is as long as its counter says, the current program is in it, and every
      program that was attached is either in the ring once or was retired once. */
  ghost predicate Whole<T>(r: Ring<T>) {
    && r.count == |r.list|
    && (r.curr.Some? ==> r.curr.value in r.list)
    && Distinct(r.list) && Distinct(r.retired)
    && (forall x | x in r.attached + r.list + r.retired :: x in r.attached && (x in r.list <==> x !in r.retired))
  }

  lemma {:induction false} WithoutParts<T>(list: seq<T>, x: T)
    requires x in list && Distinct(list)
    ensures var rest := Without(list, x);
      Distinct(rest) && |rest| == |list| - 1 && forall y | y in list + rest :: y in rest <==> y in list && y != x
  {
    var i, rest := Index(list, x), Without(list, x);
    forall y | y in list && y != x ensures y in rest {
      var k := Index(list, y);
      assert list[k] == rest[if k < i then k else k - 1];
    }
  }

  lemma AfterIs<T>(list: seq<T>, x: T)
    requires x in list && Distinct(list)
    ensures var i := Index(list, x);
      && After(list, x) in list
      && Index(list, After(list, x)) == (if i + 1 < |list| then i + 1 else 0)
      && (|list| > 1 ==> After(list, x) != x)
  {}

  /** Only a new program may be attached. */
  predicate Allowed<T(==)>(r: Ring<T>, e: Event<T>) {
    Enabled(r, e) && (e.Attach? ==> e.who !in r.attached)
  }

  /** Every event keeps the ring whole; only a visit that finds the current program finished
      takes a program out, and it is that program. */
  lemma {:induction false} StepWhole<T>(r: Ring<T>, e: Event<T>)
    requires Whole(r) && Allowed(r, e)
    ensures Whole(Step(r, e))
    ensures Step(r, e).retired == if e.Visit? && e.finished then r.retired + [r.curr.value] else r.retired
    ensures Step(r, e).attached == if e.Attach? then r.attached + [e.who] else r.attached
  {
    if e == Visit(true) {
      WithoutParts(r.list, r.curr.value);
      AfterIs(r.list, r.curr.value);
    } else if e == Visit(false) {
      AfterIs(r.list, r.curr.value);
    }
  }

  /** The ring after each event. */
  ghost predicate Path<T>(rs: seq<Ring<T>>, es: seq<Event<T>>) {
    && |rs| == |es| + 1
    && forall i | 0 <= i < |es| :: Allowed(rs[i], es[i]) && rs[i + 1] == Step(rs[i], es[i])
  }

  lemma {:induction false} PathWhole<T>(rs: seq<Ring<T>>, es: seq<Event<T>>, k: nat)
    requires Path(rs, es) && Whole(rs[0]) && k <= |es|
    ensures Whole(rs[k])
  {
    if k > 0 {
      PathWhole(rs, es, k - 1);
      StepWhole(rs[k - 1], es[k - 1]);
    }
  }

  /** Over any run of attachments and visits from the empty ring, the counter is the length of
      the ring and each attached program is in the ring exactly once or was retired exactly
      once. */
  lemma {:induction false} Integrity<T>(rs: seq<Ring<T>>, es: seq<Event<T>>, k: nat)
    requires Path(rs, es) && rs[0] == Empty() && k <= |es|
    ensures var r := rs[k];
      && r.count == |r.list| && (r.curr.Some? ==> r.curr.value in r.list)
      && forall x | x in r.attached :: multiset(r.list)[x] + multiset(r.retired)[x] == 1
  {
    PathWhole(rs, es, k);
    var r := rs[k];
    forall x | x in r.attached ensures multiset(r.list)[x] + multiset(r.retired)[x] == 1 {
      DistinctOnce(r.list, x);
      DistinctOnce(r.retired, x);
    }
  }

  lemma {:induction false} DistinctOnce<T>(xs: seq<T>, x: T)
    requires Distinct(xs)
    ensures multiset(xs)[x] == if x in xs then 1 else 0
  {
    if xs != [] {
      assert xs == [xs[0]] + xs[1..];
      DistinctOnce(xs[1..], x);
    }
  }

  /** A visit, told by places in the list. */
  lemma {:induction false} VisitedAt<T>(r: Ring<T>, i: nat, finished: bool)
    requires Whole(r) && i < |r.list| && r.curr == Some(r.list[i])
    ensures var next := if i + 1 < |r.list| then i + 1 else 0;
      var rest := r.list[..i] + r.list[i + 1..];
      Visited(r, finished) ==
      if !finished then r.(curr := Some(r.list[next]))
      else
        var c := if rest == [] then None else Some(rest[if next > i then i else 0]);
        Ring(rest, c, r.count - 1, r.attached, r.retired + [r.list[i]])
  {
    IndexInWhole(r.list, i);
  }

  // ----- bounded waiting -----

  /** How many visits come before the one to `x`, if nothing else happens. */
  function Distance<T(==)>(r: Ring<T>, x: T): (d: nat)
    requires x in r.list && (r.curr.Some? ==> r.curr.value in r.list)
    ensures r.curr.Some? ==> (d == 0 <==> r.curr.value == x)
  {
    var j := Index(r.list, x);
    var i := if r.curr.Some? then Index(r.list, r.curr.value) else 0;
    if j >= i then j - i else j + |r.list| - i
  }

  lemma IndexInWhole<T>(list: seq<T>, k: nat)
    requires Distinct(list) && k < |list|
    ensures Index(list, list[k]) == k
  {}

  lemma {:induction false} IndexWithout<T>(list: seq<T>, x: T, y: T)
    requires Distinct(list) && x in list && y in list && x != y
    ensures y in Without(list, x)
    ensures Index(Without(list, x), y) == if Index(list, y) < Index(list, x) then Index(list, y) else Index(list, y) - 1
  {
    WithoutParts(list, x);
    var i, j, rest := Index(list, x), Index(list, y), Without(list, x);
    var k := if j < i then j else j - 1;
    assert rest[k] == y;
    IndexInWhole(rest, k);
  }

  /** A visit to another program brings the walk one step closer, whether that program stays
      or is taken out. */
  lemma {:induction false} VisitCloser<T>(r: Ring<T>, finished: bool, x: T)
    requires Whole(r) && r.curr.Some? && x in r.list && r.curr.value != x
    ensures var s := Visited(r, finished);
      Whole(s) && x in s.list && s.curr.Some? && Distance(s, x) == Distance(r, x) - 1
  {
    var c := r.curr.value;
    StepWhole(r, Visit(finished));
    AfterIs(r.list, c);
    if finished { FinishedCloser(r, x); }
  }

  lemma {:induction false} FinishedCloser<T>(r: Ring<T>, x: T)
    requires Whole(r) && r.curr.Some? && x in r.list && r.curr.value != x && Whole(Visited(r, true))
    ensures var s := Visited(r, true);
      x in s.list && s.curr.Some? && Distance(s, x) == Distance(r, x) - 1
  {
    hide Without, Index, After, Distinct;
    var c := r.curr.value;
    AfterIs(r.list, c);
    WithoutParts(r.list, c);
    IndexWithout(r.list, c, x);
    IndexWithout(r.list, c, After(r.list, c));
  }

  /** An attachment puts at most itself in between. */
  lemma {:induction false} AttachFarther<T>(r: Ring<T>, who: T, x: T)
    requires Whole(r) && x in r.list && who !in r.attached
    ensures var s := Step(r, Attach(who));
      x in s.list && Distance(s, x) <= Distance(r, x) + 1
  {
    StepWhole(r, Attach(who));
    var s := Step(r, Attach(who));
    IndexInWhole(s.list, Index(r.list, x));
    if r.curr.Some? { IndexInWhole(s.list, Index(r.list, r.curr.value)); }
  }

  function Visits<T>(es: seq<Event<T>>): nat {
    if es == [] then 0 else Visits(es[..|es| - 1]) + if es[|es| - 1].Visit? then 1 else 0
  }

  function Attachments<T>(es: seq<Event<T>>): nat {
    if es == [] then 0 else Attachments(es[..|es| - 1]) + if es[|es| - 1].Attach? then 1 else 0
  }

  /** Program `x` has its turn in event `i`. */
  predicate Serves<T(==)>(rs: seq<Ring<T>>, es: seq<Event<T>>, x: T, i: nat)
    requires |rs| == |es| + 1
  {
    i < |es| && es[i].Visit? && rs[i].curr == Some(x)
  }

  lemma {:induction false} WaitingShrinks<T>(rs: seq<Ring<T>>, es: seq<Event<T>>, x: T)
    requires Path(rs, es) && Whole(rs[0]) && x in rs[0].list
    requires forall i: nat :: !Serves(rs, es, x, i)
    ensures Whole(rs[|es|]) && x in rs[|es|].list
    ensures Visits(es) + Distance(rs[|es|], x) <= Distance(rs[0], x) + Attachments(es)
    decreases |es|
  {
    if es != [] {
      var n := |es| - 1;
      var rt, et := rs[..n + 1], es[..n];
      assert Path(rt, et);
      forall i: nat ensures !Serves(rt, et, x, i) {
        assert !Serves(rs, es, x, i);
      }
      WaitingShrinks(rt, et, x);
      assert !Serves(rs, es, x, n);
      StepWhole(rs[n], es[n]);
      match es[n]
      case Attach(who) => AttachFarther(rs[n], who, x);
      case Wake =>
      case Visit(finished) => VisitCloser(rs[n], finished, x);
    }
  }

  /** A program in the ring has its turn among the next visits, at the latest when as many
      have passed as programs stood before it and were attached in the meantime; removals
      only bring it forward. */
  lemma {:induction false} BoundedWaiting<T>(rs: seq<Ring<T>>, es: seq<Event<T>>, x: T)
    requires Path(rs, es) && Whole(rs[0]) && x in rs[0].list
    requires Visits(es) > Distance(rs[0], x) + Attachments(es)
    ensures exists i: nat :: Serves(rs, es, x, i)
  {
    if forall i: nat :: !Serves(rs, es, x, i) { WaitingShrinks(rs, es, x); }
  }
}
