/** The order of the ring: programs stand in it as they were attached, and are served in that
    order. */
module RingOrder {
  import opened Syntax
  import opened Scheduler

  /** The elements of `xs` that are not in `out`, in their order. */
  function Except<T(==)>(xs: seq<T>, out: seq<T>): seq<T> {
    if xs == [] then []
    else Except(xs[..|xs| - 1], out) + if xs[|xs| - 1] in out then [] else [xs[|xs| - 1]]
  }

  lemma {:induction false} ExceptHas<T>(xs: seq<T>, out: seq<T>, x: T)
    ensures x in Except(xs, out) <==> x in xs && x !in out
  {
    if xs != [] { ExceptHas(xs[..|xs| - 1], out, x); }
  }

  lemma {:induction false} ExceptLast<T>(xs: seq<T>, x: T, out: seq<T>)
    ensures Except(xs + [x], out) == Except(xs, out) + if x in out then [] else [x]
  {
    assert (xs + [x])[..|xs|] == xs;
  }

  lemma {:induction false} ExceptSame<T>(xs: seq<T>, out: seq<T>, x: T)
    requires x !in xs
    ensures Except(xs, out + [x]) == Except(xs, out)
  {
    if xs != [] { ExceptSame(xs[..|xs| - 1], out, x); }
  }

  lemma {:induction false} WithoutEarlier<T>(xs: seq<T>, x: T, z: T)
    requires x in xs
    ensures Without(xs + [z], x) == Without(xs, x) + [z]
  {
    var i := Index(xs, x);
    assert (xs + [z])[i] == x && forall k | 0 <= k < i :: (xs + [z])[k] != x;
    assert Index(xs + [z], x) == i;
  }

  lemma {:induction false} WithoutLast<T>(xs: seq<T>, x: T)
    requires x !in xs
    ensures Without(xs + [x], x) == xs
  {
    assert Index(xs + [x], x) == |xs|;
  }

  /** To leave out one more is to take it out of what is left. */
  lemma {:induction false} ExceptMore<T>(xs: seq<T>, out: seq<T>, x: T)
    requires Distinct(xs) && x in xs && x !in out
    ensures x in Except(xs, out) && Except(xs, out + [x]) == Without(Except(xs, out), x)
  {
    var ys, z := xs[..|xs| - 1], xs[|xs| - 1];
    assert xs == ys + [z] && Distinct(ys) && z !in ys;
    hide Without, Index, Except, Distinct;
    ExceptHas(xs, out, x);
    ExceptHas(ys, out, x);
    ExceptLast(ys, z, out);
    ExceptLast(ys, z, out + [x]);
    if z == x {
      ExceptSame(ys, out, x);
      WithoutLast(Except(ys, out), x);
      assert Except(ys, out) + [] == Except(ys, out);
    } else {
      ExceptMore(ys, out, x);
      WithoutEarlier(Except(ys, out), x, z);
      if z in out { assert Except(ys, out) + [] == Except(ys, out); }
    }
  }

  /** The ring lists the programs that were attached and not yet retired, in the order in which
      they were attached. */
  ghost predicate Ordered<T>(r: Ring<T>) {
    Distinct(r.attached) && r.list == Except(r.attached, r.retired)
  }

  lemma {:induction false} StepOrdered<T>(r: Ring<T>, e: Event<T>)
    requires Whole(r) && Allowed(r, e) && Ordered(r)
    ensures Ordered(Step(r, e))
  {
    hide Except, Without;
    match e
    case Attach(x) => ExceptLast(r.attached, x, r.retired);
    case Wake =>
    case Visit(finished) => if finished { ExceptMore(r.attached, r.retired, r.curr.value); }
  }

  /** Over any run from the empty ring. */
  lemma {:induction false} FirstComeFirstListed<T>(rs: seq<Ring<T>>, es: seq<Event<T>>, k: nat)
    requires Path(rs, es) && rs[0] == Empty() && k <= |es|
    ensures rs[k].list == Except(rs[k].attached, rs[k].retired)
    ensures Distinct(rs[k].attached)
  {
    hide Except, Step;
    if k > 0 {
      FirstComeFirstListed(rs, es, k - 1);
      PathWhole(rs, es, k - 1);
      StepOrdered(rs[k - 1], es[k - 1]);
    } else {
      assert Except<T>([], []) == [] by { NothingExcept<T>(); }
    }
  }

  lemma NothingExcept<T>()
    ensures Except<T>([], []) == []
  {}

  // ----- the walk -----

  /** The programs that a run attaches, in order. */
  function Newcomers<T>(es: seq<Event<T>>): (xs: seq<T>)
    ensures |xs| == Attachments(es)
  {
    if es == [] then []
    else Newcomers(es[..|es| - 1]) + if es[|es| - 1].Attach? then [es[|es| - 1].who] else []
  }

  /** No visit of the run is to the last program of the ring. */
  ghost predicate WithinLap<T>(rs: seq<Ring<T>>, es: seq<Event<T>>, i: nat)
    requires |rs| == |es| + 1
  {
    forall k | 0 <= k < |es| && es[k].Visit? :: i + Visits(es[..k]) + 1 < |rs[0].list| + Attachments(es[..k])
  }

  /** Where the walk is: at position `j` of a list that continues like `all` from `v` on. */
  ghost predicate StandsBefore<T>(r: Ring<T>, all: seq<T>, v: nat, j: nat) {
    v < |all| && j < |r.list| && r.list[j..] == all[v..] && r.curr == Some(r.list[j])
  }

  lemma {:induction false} AttachStands<T>(r: Ring<T>, x: T, all: seq<T>, v: nat, j: nat)
    requires StandsBefore(r, all, v, j)
    ensures StandsBefore(Step(r, Attach(x)), all + [x], v, j)
  {
    assert (r.list + [x])[j..] == r.list[j..] + [x] && (all + [x])[v..] == all[v..] + [x];
  }

  lemma {:induction false} VisitStands<T>(r: Ring<T>, finished: bool, all: seq<T>, v: nat, j: nat)
    requires Whole(r) && StandsBefore(r, all, v, j) && v + 1 < |all|
    ensures StandsBefore(Step(r, Visit(finished)), all, v + 1, if finished then j else j + 1)
  {
    hide Visited;
    VisitedAt(r, j, finished);
    assert |r.list| - j == |all| - v;
    var rest := r.list[..j] + r.list[j + 1..];
    assert r.list[j + 1..] == r.list[j..][1..] == all[v..][1..] == all[v + 1..];
    assert rest[j..] == r.list[j + 1..];
  }

  /** What one event does to it. */
  lemma {:induction false} EventStands<T>(r: Ring<T>, e: Event<T>, all: seq<T>, v: nat, j: nat) returns (i: nat)
    requires Whole(r) && Allowed(r, e) && StandsBefore(r, all, v, j) && (e.Visit? ==> v + 1 < |all|)
    ensures StandsBefore(Step(r, e), all + (if e.Attach? then [e.who] else []), v + (if e.Visit? then 1 else 0), i)
  {
    hide Whole, StandsBefore, Visited;
    i := j;
    match e
    case Attach(x) => AttachStands(r, x, all, v, j);
    case Wake => assert false by { NoWake(r, all, v, j); }
    case Visit(finished) =>
      VisitStands(r, finished, all, v, j);
      assert all + [] == all;
      i := if finished then j else j + 1;
  }

  lemma NoWake<T>(r: Ring<T>, all: seq<T>, v: nat, j: nat)
    requires StandsBefore(r, all, v, j)
    ensures r.curr.Some?
  {}

  /** What a run of one event more does, in numbers. */
  lemma {:induction false} OneMore<T>(rs: seq<Ring<T>>, es: seq<Event<T>>, i: nat)
    requires Path(rs, es) && es != [] && WithinLap(rs, es, i)
    ensures var n := |es| - 1;
      && Path(rs[..n + 1], es[..n]) && WithinLap(rs[..n + 1], es[..n], i)
      && (es[n].Visit? ==> i + Visits(es[..n]) + 1 < |rs[0].list| + Attachments(es[..n]))
      && rs[n + 1] == Step(rs[n], es[n]) && Allowed(rs[n], es[n])
      && Newcomers(es) == Newcomers(es[..n]) + (if es[n].Attach? then [es[n].who] else [])
      && Visits(es) == Visits(es[..n]) + (if es[n].Visit? then 1 else 0)
  {
    hide Step, Allowed;
    var n := |es| - 1;
    var rt, et := rs[..n + 1], es[..n];
    forall k | 0 <= k < n && et[k].Visit? ensures i + Visits(et[..k]) + 1 < |rt[0].list| + Attachments(et[..k]) {
      assert et[..k] == es[..k];
    }
  }

  lemma {:induction false} WalkStands<T>(rs: seq<Ring<T>>, es: seq<Event<T>>, i: nat) returns (j: nat)
    requires Path(rs, es) && Whole(rs[0]) && i < |rs[0].list| && rs[0].curr == Some(rs[0].list[i])
    requires WithinLap(rs, es, i)
    ensures StandsBefore(rs[|es|], rs[0].list + Newcomers(es), i + Visits(es), j)
    decreases |es|
  {
    if es == [] {
      j := i;
      assert rs[0].list + Newcomers(es) == rs[0].list;
    } else {
      assert |rs| == |es| + 1;
      hide Path, Step, Allowed, Whole, WithinLap, StandsBefore, Newcomers, Visits, Attachments;
      var n := |es| - 1;
      var before := es[..n];
      OneMore(rs, es, i);
      j := WalkStands(rs[..n + 1], before, i);
      PathWhole(rs, es, n);
      j := LastStands(rs[0].list, rs[n], rs[n + 1], before, es, i, j);
    }
  }

  /** The last event of a run. */
  lemma {:induction false} LastStands<T>(list: seq<T>, r: Ring<T>, s: Ring<T>, before: seq<Event<T>>, es: seq<Event<T>>,
      i: nat, j: nat) returns (k: nat)
    requires es != [] && before == es[..|es| - 1]
    requires Whole(r) && Allowed(r, es[|es| - 1]) && s == Step(r, es[|es| - 1])
    requires StandsBefore(r, list + Newcomers(before), i + Visits(before), j)
    requires es[|es| - 1].Visit? ==> i + Visits(before) + 1 < |list| + Attachments(before)
    ensures StandsBefore(s, list + Newcomers(es), i + Visits(es), k)
  {
    hide Step, Allowed, Whole, StandsBefore;
    var e, all := es[|es| - 1], list + Newcomers(before);
    k := EventStands(r, e, all, i + Visits(before), j);
    assert list + Newcomers(es) == all + if e.Attach? then [e.who] else [];
  }

  /** From any program on, those behind it are served in the order in which they stand, then
      those that are attached on the way in the order in which they come - whichever of them
      finish and leave the ring. */
  lemma {:induction false} ServedInOrder<T>(rs: seq<Ring<T>>, es: seq<Event<T>>, i: nat)
    requires Path(rs, es) && Whole(rs[0]) && i < |rs[0].list| && rs[0].curr == Some(rs[0].list[i])
    requires WithinLap(rs, es, i)
    ensures var all, v := rs[0].list + Newcomers(es), i + Visits(es);
      v < |all| && rs[|es|].curr == Some(all[v])
  {
    var j := WalkStands(rs, es, i);
    hide Step, Allowed, Visits, Newcomers, Attachments, Whole, WithinLap, StandsBefore;
    StandsWithin(rs[|es|], rs[0].list + Newcomers(es), i + Visits(es), j);
  }

  lemma StandsWithin<T>(r: Ring<T>, all: seq<T>, v: nat, j: nat)
    requires StandsBefore(r, all, v, j)
    ensures v < |all| && j < |r.list| && r.curr == Some(all[v])
  {
    assert r.list[j..][0] == r.list[j] && all[v..][0] == all[v];
  }

  /** First come, first served: when the thread wakes up, it serves the programs that were
      attached and not yet retired in the order in which they came, then those that come in
      the meantime. */
  lemma {:induction false} FirstComeFirstServed<T>(rs: seq<Ring<T>>, es: seq<Event<T>>, k: nat)
    requires Path(rs, es) && rs[0] == Empty() && k < |es| && es[k].Wake?
    requires WithinLap(rs[k + 1..], es[k + 1..], 0)
    ensures var all := Except(rs[k].attached, rs[k].retired) + Newcomers(es[k + 1..]);
      var v := Visits(es[k + 1..]);
      v < |all| && rs[|es|].curr == Some(all[v])
  {
    hide Except, Newcomers, Visits, Attachments, WithinLap, Whole, StandsBefore;
    FirstComeFirstListed(rs, es, k);
    EmptyWhole<T>();
    PathWhole(rs, es, k + 1);
    ServedInOrder(rs[k + 1..], es[k + 1..], 0);
  }

  lemma EmptyWhole<T>()
    ensures Whole(Empty<T>())
  {}
}
