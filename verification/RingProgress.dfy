/** The scheduler's ring gives every participant its turns, so that producers and consumers in
    it make progress. */
module RingProgress {
  import opened Syntax
  import opened Machine
  import opened ProdConsRuns
  import opened Progress
  import opened Rounds
  import B = Buffer
  import S = Scheduler

  /** A walk along the ring after the run `turns`: each visit serves the current program with
      one turn or more and finds it finished or not. Nothing is attached meanwhile. */
  ghost predicate Walk(s: Sys, turns: seq<Turn>, rs: seq<S.Ring<nat>>, es: seq<S.Event<nat>>, served: seq<seq<Turn>>) {
    && S.Path(rs, es) && S.Whole(rs[0]) && rs[0].curr.Some? && |served| == |es|
    && forall k | 0 <= k < |es| :: Visited(s, turns, rs[k], es[k], served, k)
  }

  ghost predicate Visited(s: Sys, turns: seq<Turn>, r: S.Ring<nat>, e: S.Event<nat>, served: seq<seq<Turn>>, k: nat)
    requires k < |served|
  {
    && r.curr.Some? && served[k] != []
    && (forall j | 0 <= j < |served[k]| :: served[k][j].who == r.curr.value && Positive(served[k][j]))
    && var after := Run(s, turns + Flat(served[..k + 1]));
       r.curr.value < |after.procs| && e == S.Visit(after.procs[r.curr.value].status.Finished?)
  }

  /** The ring holds the participants and nobody else. */
  ghost predicate Holds(r: S.Ring<nat>, m: nat) {
    forall x: nat :: x in r.list <==> x < m
  }

  /** Participants never finish. */
  lemma {:induction false} NeverFinished(s: Sys, roles: seq<B.Role>, n: nat, turns: seq<Turn>, i: nat)
    requires Begins(s, roles, n) && i < |roles|
    ensures i < |Run(s, turns).procs| && !Run(s, turns).procs[i].status.Finished?
  {
    GoodRun(s, roles, n, turns);
    hide Begins, Run, Puts, Gots;
    GoodFits(Run(s, turns), roles, n, Puts(s, turns), Gots(s, turns), i);
  }

  /** So the ring stays as it is, and the walk goes round. */
  lemma {:induction false} RingStays(s: Sys, roles: seq<B.Role>, n: nat, turns: seq<Turn>, rs: seq<S.Ring<nat>>,
      es: seq<S.Event<nat>>, served: seq<seq<Turn>>, k: nat)
    requires Begins(s, roles, n) && Walk(s, turns, rs, es, served) && Holds(rs[0], |roles|) && k <= |es|
    ensures S.Whole(rs[k]) && rs[k].list == rs[0].list && rs[k].curr.Some?
    ensures forall j | 0 <= j < k :: es[j] == S.Visit(false)
  {
    hide Begins, Run;
    if k > 0 {
      RingStays(s, roles, n, turns, rs, es, served, k - 1);
      assert Visited(s, turns, rs[k - 1], es[k - 1], served, k - 1);
      NeverFinished(s, roles, n, turns + Flat(served[..k]), rs[k - 1].curr.value);
      hide S.Whole;
      S.StepWhole(rs[k - 1], es[k - 1]);
    }
  }

  lemma {:induction false} AllVisits(es: seq<S.Event<nat>>)
    requires forall j | 0 <= j < |es| :: es[j].Visit?
    ensures S.Visits(es) == |es| && S.Attachments(es) == 0
  {
    if es != [] { AllVisits(es[..|es| - 1]); }
  }

  lemma {:induction false} PartOfPath(rs: seq<S.Ring<nat>>, es: seq<S.Event<nat>>, k: nat, e: nat)
    requires S.Path(rs, es) && k <= e <= |es|
    ensures S.Path(rs[k..e + 1], es[k..e])
  {
    hide S.Step, S.Enabled;
    forall i | 0 <= i < e - k
      ensures S.Allowed(rs[k..e + 1][i], es[k..e][i]) && rs[k..e + 1][i + 1] == S.Step(rs[k..e + 1][i], es[k..e][i])
    {
      assert rs[k..e + 1][i] == rs[k + i] && rs[k..e + 1][i + 1] == rs[k + i + 1] && es[k..e][i] == es[k + i];
    }
  }

  /** Everybody is visited once within as many visits as the ring is long. */
  lemma {:induction false} Comes(s: Sys, roles: seq<B.Role>, n: nat, turns: seq<Turn>, rs: seq<S.Ring<nat>>,
      es: seq<S.Event<nat>>, served: seq<seq<Turn>>, k: nat, x: nat) returns (j: nat)
    requires Begins(s, roles, n) && Walk(s, turns, rs, es, served) && Holds(rs[0], |roles|)
    requires k + |rs[0].list| <= |es| && x < |roles|
    ensures k <= j < k + |rs[0].list| && j < |rs| && rs[j].curr == Some(x)
  {
    hide Begins, Walk, Visited, Run, Holds, S.Path, S.Whole, S.Visits, S.Attachments, S.Distance;
    WalkPath(s, turns, rs, es, served);
    PathLength(rs, es);
    var l := |rs[0].list|;
    RingStays(s, roles, n, turns, rs, es, served, k + l);
    RingStays(s, roles, n, turns, rs, es, served, k);
    assert x in rs[0].list by { Held(rs[0], |roles|, x); }
    PartOfPath(rs, es, k, k + l);
    var rt, et := rs[k..k + l + 1], es[k..k + l];
    assert rt[0] == rs[k] && |et| == l;
    AllVisits(et);
    Near(rt[0], x);
    var i := Turns(rt, et, x);
    j := k + i;
    assert rs[j] == rt[i];
  }

  lemma WalkPath(s: Sys, turns: seq<Turn>, rs: seq<S.Ring<nat>>, es: seq<S.Event<nat>>, served: seq<seq<Turn>>)
    requires Walk(s, turns, rs, es, served)
    ensures S.Path(rs, es)
  {}

  lemma Held(r: S.Ring<nat>, m: nat, x: nat)
    requires Holds(r, m) && x < m
    ensures x in r.list
  {}

  lemma {:induction false} Turns(rs: seq<S.Ring<nat>>, es: seq<S.Event<nat>>, x: nat) returns (i: nat)
    requires S.Path(rs, es) && S.Whole(rs[0]) && x in rs[0].list
    requires S.Visits(es) > S.Distance(rs[0], x) + S.Attachments(es)
    ensures i < |es| && rs[i].curr == Some(x)
  {
    hide S.Whole, S.Path, S.Distance, S.Visits, S.Attachments;
    assert |rs| == |es| + 1 by { PathLength(rs, es); }
    S.BoundedWaiting(rs, es, x);
    i :| S.Serves(rs, es, x, i);
  }

  lemma PathLength(rs: seq<S.Ring<nat>>, es: seq<S.Event<nat>>)
    requires S.Path(rs, es)
    ensures |rs| == |es| + 1
  {}

  lemma Near(r: S.Ring<nat>, x: nat)
    requires S.Whole(r) && x in r.list
    ensures S.Distance(r, x) < |r.list|
  {}

  lemma {:induction false} ServedFair(s: Sys, turns: seq<Turn>, rs: seq<S.Ring<nat>>, es: seq<S.Event<nat>>,
      served: seq<seq<Turn>>, roles: seq<B.Role>, n: nat, k: nat, e: nat)
    requires Begins(s, roles, n) && Walk(s, turns, rs, es, served) && Holds(rs[0], |roles|) && k <= e <= |served|
    ensures Fair(Flat(served[k..e]), |roles|)
  {
    hide Begins, Run, S.Whole;
    forall i | 0 <= i < |Flat(served[k..e])|
      ensures Flat(served[k..e])[i].who < |roles| && Positive(Flat(served[k..e])[i])
    {
      var a, j := OfFlat(served[k..e], i);
      assert Visited(s, turns, rs[k + a], es[k + a], served, k + a) && served[k..e][a] == served[k + a];
      CurrHeld(s, roles, n, turns, rs, es, served, k + a);
    }
  }

  lemma {:induction false} CurrHeld(s: Sys, roles: seq<B.Role>, n: nat, turns: seq<Turn>, rs: seq<S.Ring<nat>>,
      es: seq<S.Event<nat>>, served: seq<seq<Turn>>, k: nat)
    requires Begins(s, roles, n) && Walk(s, turns, rs, es, served) && Holds(rs[0], |roles|) && k < |es|
    ensures rs[k].curr.Some? && rs[k].curr.value < |roles|
  {
    hide Begins, Walk;
    RingStays(s, roles, n, turns, rs, es, served, k);
  }

  /** As many visits as the ring is long make a round. */
  lemma {:induction false} LapIsRound(s: Sys, roles: seq<B.Role>, n: nat, turns: seq<Turn>, rs: seq<S.Ring<nat>>,
      es: seq<S.Event<nat>>, served: seq<seq<Turn>>, k: nat)
    requires Begins(s, roles, n) && Walk(s, turns, rs, es, served) && Holds(rs[0], |roles|)
    requires k + |rs[0].list| <= |es|
    ensures Round(Flat(served[k..k + |rs[0].list|]), |roles|)
  {
    hide Begins, S.Whole, Run;
    var lap := served[k..k + |rs[0].list|];
    ServedFair(s, turns, rs, es, served, roles, n, k, k + |rs[0].list|);
    forall x: nat | x < |roles| ensures HasTurn(Flat(lap), x) {
      var j := Comes(s, roles, n, turns, rs, es, served, k, x);
      assert Visited(s, turns, rs[j], es[j], served, j) && lap[j - k] == served[j];
      var i := InFlat(lap, j - k, 0);
      assert Flat(lap)[i].who == x;
    }
  }

  /** The first `q` laps. */
  function Laps(served: seq<seq<Turn>>, l: nat, q: nat): (r: seq<seq<Turn>>)
    requires q * l <= |served|
    ensures |r| == q
  {
    if q == 0 then []
    else
      assert q * l == (q - 1) * l + l;
      Laps(served, l, q - 1) + [Flat(served[(q - 1) * l..q * l])]
  }

  lemma {:induction false} LapsFlat(served: seq<seq<Turn>>, l: nat, q: nat)
    requires q * l <= |served|
    ensures Flat(Laps(served, l, q)) == Flat(served[..q * l])
  {
    if q > 0 {
      var a, b := (q - 1) * l, q * l;
      assert b == a + l;
      LapsFlat(served, l, q - 1);
      FlatSplit(served[..a], served[a..b]);
      assert served[..a] + served[a..b] == served[..b];
      var laps := Laps(served, l, q);
      assert laps == Laps(served, l, q - 1) + [Flat(served[a..b])];
      hide Flat, Laps;
      FlatLast(Laps(served, l, q - 1), Flat(served[a..b]));
    }
  }

  lemma {:induction false} LapsAreRounds(s: Sys, roles: seq<B.Role>, n: nat, turns: seq<Turn>, rs: seq<S.Ring<nat>>,
      es: seq<S.Event<nat>>, served: seq<seq<Turn>>, q: nat)
    requires Begins(s, roles, n) && Walk(s, turns, rs, es, served) && Holds(rs[0], |roles|)
    requires q * |rs[0].list| <= |served|
    ensures forall w | w in Laps(served, |rs[0].list|, q) :: Round(w, |roles|)
  {
    hide Begins, Round, Holds;
    if q > 0 {
      var l := |rs[0].list|;
      assert q * l == (q - 1) * l + l;
      LapsAreRounds(s, roles, n, turns, rs, es, served, q - 1);
      LapIsRound(s, roles, n, turns, rs, es, served, (q - 1) * l);
      hide Walk;
    }
  }

  /** The laps of a walk, and the visits behind them. */
  lemma {:induction false} LapsThenRest(served: seq<seq<Turn>>, l: nat, q: nat)
    requires q * l <= |served|
    ensures Flat(served) == Flat(Laps(served, l, q)) + Flat(served[q * l..])
  {
    LapsFlat(served, l, q);
    hide Flat, Laps;
    FlatSplit(served[..q * l], served[q * l..]);
    assert served[..q * l] + served[q * l..] == served;
  }

  /** Producers and consumers in a ring of their own: wherever a run has come to, another item
      is loaded within a fixed number of laps, as long as there is more to come. */
  lemma {:induction false} ItemsKeepComingInRing(s: Sys, roles: seq<B.Role>, n: nat, d: nat, turns: seq<Turn>,
      rs: seq<S.Ring<nat>>, es: seq<S.Event<nat>>, served: seq<seq<Turn>>, c: nat)
    requires Begins(s, roles, n) && AllTimed(s, d) && Short(turns)
    requires Walk(s, turns, rs, es, served) && Holds(rs[0], |roles|)
    requires c < |roles| && roles[c].Consumer? && MoreToCome(s, roles, turns)
    requires |es| >= ((d + 34) * (n + |roles|) + 1) * |rs[0].list|
    ensures |Gots(s, turns + Flat(served))| > |Gots(s, turns)|
  {
    hide Begins, AllTimed, Holds, Gots, Run, MoreToCome, Walk, Flat, Laps, Round, Fair, Next;
    Lengths(s, turns, rs, es, served);
    var l, q := |rs[0].list|, (d + 34) * (n + |roles|) + 1;
    LapsAreRounds(s, roles, n, turns, rs, es, served, q);
    LapsThenRest(served, l, q);
    ItemsKeepComing(s, roles, n, d, turns, Laps(served, l, q), c);
    RestLoads(s, roles, n, d, turns, rs, es, served, q);
  }

  lemma Lengths(s: Sys, turns: seq<Turn>, rs: seq<S.Ring<nat>>, es: seq<S.Event<nat>>, served: seq<seq<Turn>>)
    requires Walk(s, turns, rs, es, served)
    ensures |rs| == |es| + 1 && |served| == |es|
  {}

  /** The visits behind the laps take no item back. */
  lemma {:induction false} RestLoads(s: Sys, roles: seq<B.Role>, n: nat, d: nat, turns: seq<Turn>,
      rs: seq<S.Ring<nat>>, es: seq<S.Event<nat>>, served: seq<seq<Turn>>, q: nat)
    requires Begins(s, roles, n) && AllTimed(s, d) && Short(turns)
    requires Walk(s, turns, rs, es, served) && Holds(rs[0], |roles|) && q * |rs[0].list| <= |served|
    ensures |Gots(s, turns + Flat(served))| >= |Gots(s, turns + Flat(Laps(served, |rs[0].list|, q)))|
  {
    hide Begins, AllTimed, Holds, Gots, Run, Walk, Flat, Laps, Round, Next, Spare;
    Lengths(s, turns, rs, es, served);
    var l := |rs[0].list|;
    var laps, rest := Flat(Laps(served, l, q)), Flat(served[q * l..]);
    LapsThenRest(served, l, q);
    LapsAreRounds(s, roles, n, turns, rs, es, served, q);
    FlatFair(Laps(served, l, q), |roles|);
    ServedFair(s, turns, rs, es, served, roles, n, q * l, |served|);
    assert served[q * l..|served|] == served[q * l..];
    assert turns + Flat(served) == turns + laps + rest;
    WindowSpends(s, roles, n, d, turns + laps, rest);
  }
}
