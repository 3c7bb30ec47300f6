/** The table of global variables as it works: objects with growable arrays, found by name.
    Each method does what one participant does between its first and its last lock step;
    the interleaving of those steps is the subject of LockProtocol. */
module GlobalTable {
  import opened Locals
  import opened Globals
  import P = LockProtocol

  class GlobalVar {
    var count: array<int>
    var len: nat

    ghost predicate Valid()
      reads this
    {
      count.Length == len
    }

    constructor (total: nat)
      ensures Valid() && fresh(count) && count[..] == Zeros(total)
    {
      len := total;
      count := new int[total](_ => 0);
      new;
      assert count[..] == Zeros(total);
    }

    /** More memory with the same beginning; what follows it is not initialised. */
    method Realloc(size: nat)
      requires Valid() && len <= size
      modifies this`count
      ensures fresh(count) && count.Length == size && count[..len] == old(count[..])
    {
      var cells, grown := count, new int[size];
      for i := 0 to len
        invariant count == cells && forall k | 0 <= k < i :: grown[k] == cells[k]
      {
        grown[i] := cells[i];
      }
      assert grown[..len] == cells[..];
      count := grown;
    }

    /** Sets the cells from the old end up to `end` to 0. */
    method Fill(end: nat, ghost before: seq<int>)
      requires |before| == len <= end <= count.Length && count[..len] == before
      modifies count
      ensures count[..end] == before + Zeros(end - len)
    {
      for i := len to end
        invariant count[..len] == before
        invariant forall k | len <= k < i :: count[k] == 0
      {
        count[i] := 0;
      }
      assert forall k | 0 <= k < end :: count[..end][k] == (before + Zeros(end - len))[k];
    }

    method Up(idx: nat)
      requires Valid()
      modifies this, count
      ensures Valid() && len >= old(len) && (count == old(count) || fresh(count))
      ensures forall n :: count[..] == P.Updated(P.Up(n, idx), old(count[..]))
    {
      if idx < len {
        count[idx] := count[idx] + 1;
      } else {
        ghost var before := count[..];
        Realloc(idx + 1);
        Fill(idx, before);
        count[idx] := 1;
        len := idx + 1;
        assert count[..] == before + Zeros(idx - |before|) + [1];
      }
    }

    /** The first half of DOWN only makes sure that the cell exists. */
    method Down(idx: nat)
      requires Valid()
      modifies this, count
      ensures len >= old(len)
      ensures Valid() && idx < len && (count == old(count) || fresh(count))
      ensures forall n :: count[..] == P.Updated(P.Down(n, idx), old(count[..]))
    {
      if idx >= len {
        ghost var before := count[..];
        Realloc(idx + 1);
        Fill(idx + 1, before);
        len := idx + 1;
        assert count[..] == count[..idx + 1];
      }
    }

    /** The second half takes a unit if there is one. */
    method Take(idx: nat) returns (granted: bool)
      requires Valid() && idx < len
      modifies count
      ensures Valid()
      ensures forall n :: count[..] == P.Updated(P.Take(n, idx), old(count[..]))
      ensures forall n :: P.Seen(P.Take(n, idx), old(count[..])) == if granted then 1 else 0
    {
      granted := count[idx] > 0;
      if granted { count[idx] := count[idx] - 1; }
    }

    method Load(idx: nat) returns (value: int)
      requires Valid()
      modifies this, count
      ensures Valid() && len >= old(len) && (count == old(count) || fresh(count))
      ensures forall n :: count[..] == P.Updated(P.Load(n, idx), old(count[..]))
      ensures forall n :: value == P.Seen(P.Load(n, idx), old(count[..]))
    {
      if idx < len {
        value := count[idx];
      } else {
        ghost var before := count[..];
        Realloc(idx + 1);
        Fill(idx + 1, before);
        len := idx + 1;
        value := 0;
        assert count[..] == count[..idx + 1];
      }
    }

    method Store(idx: nat, value: int)
      requires Valid()
      modifies this, count
      ensures Valid() && len >= old(len) && (count == old(count) || fresh(count))
      ensures forall n :: count[..] == P.Updated(P.Store(n, idx, value), old(count[..]))
    {
      if idx < len {
        count[idx] := value;
      } else {
        ghost var before := count[..];
        Realloc(idx + 1);
        Fill(idx + 1, before);
        count[idx] := value;
        len := idx + 1;
        assert count[..] == before + Zeros(idx - |before|) + [value];
      }
    }
  }

  /** Variables are never replaced, and do not shrink. */
  ghost predicate Grows(a: map<string, (GlobalVar, nat)>, b: map<string, (GlobalVar, nat)>) {
    forall n | n in a :: n in b && b[n].0 == a[n].0 && a[n].1 <= b[n].1
  }

  lemma GrowsOn(a: map<string, (GlobalVar, nat)>, b: map<string, (GlobalVar, nat)>, c: map<string, (GlobalVar, nat)>)
    requires Grows(a, b) && Grows(b, c)
    ensures Grows(a, c)
  {}

  class Table {
    var vars: map<string, GlobalVar>
    ghost var Repr: set<object>

    /** Different names have different objects and arrays. */
    ghost predicate Valid()
      reads this, Repr
    {
      && this in Repr
      && (forall n | n in vars :: vars[n] in Repr && vars[n].count in Repr && vars[n].Valid())
      && (forall n, m | n in vars && m in vars && n != m :: vars[n] != vars[m] && vars[n].count != vars[m].count)
    }

    /** The globals as a map from names to cells. */
    ghost function Contents(): Globals.Store
      requires Valid()
      reads this, Repr
    {
      map n | n in vars :: vars[n].count[..]
    }

    /** The objects of the variables, with their lengths. */
    ghost function Snapshot(): map<string, (GlobalVar, nat)>
      requires Valid()
      reads this, Repr
    {
      map n | n in vars :: (vars[n], vars[n].len)
    }

    constructor ()
      ensures Valid() && fresh(Repr) && Contents() == map[]
    {
      vars := map[];
      Repr := {this};
    }

    /** What a new variable means for the table. */
    twostate lemma OneAdded(key: string, new v: GlobalVar)
      requires old(Valid()) && Valid() && key !in old(vars) && vars == old(vars)[key := v]
      requires forall n | n in old(vars) ::
        vars[n].len == old(vars[n].len) && vars[n].count[..] == old(vars[n].count[..])
      ensures Contents() == old(Contents())[key := v.count[..]] && Grows(old(Snapshot()), Snapshot())
    {}

    /** Puts a new variable into the table. */
    method Insert(key: string, v: GlobalVar)
      requires Valid() && key !in vars && v.Valid() && v !in Repr && v.count !in Repr
      modifies this
      ensures vars == old(vars)[key := v] && Repr == old(Repr) + {v, v.count}
      ensures Valid() && Contents() == old(Contents())[key := v.count[..]]
      ensures Grows(old(Snapshot()), Snapshot())
    {
      hide Contents, Snapshot, Grows;
      vars := vars[key := v];
      Repr := Repr + {v, v.count};
      OneAdded(key, v);
    }

    /** A changed variable keeps the table in order. */
    twostate lemma OneChangedValid(key: string)
      requires old(Valid()) && key in vars && vars == old(vars) && vars[key].Valid()
      requires Repr == old(Repr) + {vars[key].count}
      requires vars[key].count == old(vars[key].count) || fresh(vars[key].count)
      requires forall n | n in vars && n != key ::
        vars[n].len == old(vars[n].len) && vars[n].count == old(vars[n].count)
      ensures Valid()
    {}

    /** What a change of one variable means for the table. */
    twostate lemma OneChanged(key: string)
      requires old(Valid()) && key in vars && vars == old(vars) && vars[key].Valid()
      requires Repr == old(Repr) + {vars[key].count}
      requires vars[key].count == old(vars[key].count) || fresh(vars[key].count)
      requires forall n | n in vars && n != key ::
        vars[n].len == old(vars[n].len) && vars[n].count == old(vars[n].count)
        && vars[n].count[..] == old(vars[n].count[..])
      requires vars[key].len >= old(vars[key].len)
      ensures Valid() && Contents() == old(Contents())[key := vars[key].count[..]]
      ensures Grows(old(Snapshot()), Snapshot())
    {
      OneChangedValid(key);
    }

    lemma SnapshotAt(key: string)
      requires Valid() && key in vars
      ensures key in Snapshot() && Snapshot()[key] == (vars[key], vars[key].len)
    {}

    lemma Still()
      requires Valid()
      ensures Grows(Snapshot(), Snapshot())
    {}

    lemma ContentsAt(key: string)
      requires Valid()
      ensures key in Contents() <==> key in vars
      ensures key in vars ==> Contents()[key] == vars[key].count[..]
    {}

    method Up(key: string, idx: nat)
      requires Valid()
      modifies Repr
      ensures Valid() && fresh(Repr - old(Repr)) && old(Repr) <= Repr && Grows(old(Snapshot()), Snapshot())
      ensures Contents() == P.Atomic(P.Up(key, idx), old(Contents()))
    {
      hide P.Atomic, P.Updated, P.Answer, P.Seen, Contents, Snapshot, Grows;
      ContentsAt(key);
      if key in vars {
        P.UpdateIsAtomic(P.Up(key, idx), Contents());
        vars[key].Up(idx);
        Repr := Repr + {vars[key].count};
        OneChanged(key);
        hide Valid;
      } else {
        P.MakingIsAtomic(P.Up(key, idx), Contents());
        var v := new GlobalVar(idx + 1);
        v.count[idx] := 1;
        assert v.count[..] == P.Made(P.Up(key, idx));
        Insert(key, v);
      }
    }

    method Load(key: string, idx: nat) returns (value: int)
      requires Valid()
      modifies Repr
      ensures Valid() && fresh(Repr - old(Repr)) && old(Repr) <= Repr && Grows(old(Snapshot()), Snapshot())
      ensures Contents() == P.Atomic(P.Load(key, idx), old(Contents()))
      ensures value == P.Answer(P.Load(key, idx), old(Contents()))
    {
      hide P.Atomic, P.Updated, P.Answer, P.Seen, Contents, Snapshot, Grows;
      ContentsAt(key);
      if key in vars {
        P.UpdateIsAtomic(P.Load(key, idx), Contents());
        value := vars[key].Load(idx);
        Repr := Repr + {vars[key].count};
        OneChanged(key);
        hide Valid;
      } else {
        P.MakingIsAtomic(P.Load(key, idx), Contents());
        var v := new GlobalVar(idx + 1);
        Insert(key, v);
        value := 0;
      }
    }

    method Store(key: string, idx: nat, value: int)
      requires Valid()
      modifies Repr
      ensures Valid() && fresh(Repr - old(Repr)) && old(Repr) <= Repr && Grows(old(Snapshot()), Snapshot())
      ensures Contents() == P.Atomic(P.Store(key, idx, value), old(Contents()))
    {
      hide P.Atomic, P.Updated, P.Answer, P.Seen, Contents, Snapshot, Grows;
      ContentsAt(key);
      if key in vars {
        P.UpdateIsAtomic(P.Store(key, idx, value), Contents());
        vars[key].Store(idx, value);
        Repr := Repr + {vars[key].count};
        OneChanged(key);
        hide Valid;
      } else {
        P.MakingIsAtomic(P.Store(key, idx, value), Contents());
        var v := new GlobalVar(idx + 1);
        v.count[idx] := value;
        assert v.count[..] == P.Made(P.Store(key, idx, value));
        Insert(key, v);
      }
    }

    /** Parks a program: returns the variable it will wait for. */
    method Down(key: string, idx: nat) returns (sem: GlobalVar)
      requires Valid()
      modifies Repr
      ensures Valid() && fresh(Repr - old(Repr)) && old(Repr) <= Repr && Grows(old(Snapshot()), Snapshot())
      ensures Contents() == P.Atomic(P.Down(key, idx), old(Contents()))
      ensures key in vars && sem == vars[key] && idx < sem.len
    {
      hide P.Atomic, P.Updated, P.Answer, P.Seen, Contents, Snapshot, Grows;
      ContentsAt(key);
      if key in vars {
        P.UpdateIsAtomic(P.Down(key, idx), Contents());
        sem := vars[key];
        sem.Down(idx);
        Repr := Repr + {sem.count};
        OneChanged(key);
        hide Valid;
      } else {
        P.MakingIsAtomic(P.Down(key, idx), Contents());
        sem := new GlobalVar(idx + 1);
        Insert(key, sem);
      }
    }

    /** One attempt to take a unit of a variable. */
    method TryTake(sem: GlobalVar, idx: nat, ghost key: string) returns (granted: bool)
      requires Valid() && key in vars && sem == vars[key] && idx < sem.len
      modifies Repr
      ensures Valid() && Repr == old(Repr) && vars == old(vars) && idx < sem.len && Grows(old(Snapshot()), Snapshot())
      ensures Contents() == P.Atomic(P.Take(key, idx), old(Contents()))
      ensures P.Answer(P.Take(key, idx), old(Contents())) == if granted then 1 else 0
    {
      hide P.Atomic, P.Updated, P.Answer, P.Seen, Contents, Snapshot, Grows;
      ContentsAt(key);
      P.UpdateIsAtomic(P.Take(key, idx), Contents());
      granted := sem.Take(idx);
      assert Repr == old(Repr) + {vars[key].count};
      OneChanged(key);
      hide Valid;
    }

    /** What another program does while one waits. */
    method Operate(c: P.Call)
      requires Valid()
      modifies Repr
      ensures Valid() && fresh(Repr - old(Repr)) && old(Repr) <= Repr && Grows(old(Snapshot()), Snapshot())
      ensures Contents() == P.Atomic(c, old(Contents()))
    {
      hide Contents, Snapshot, Grows;
      Still();
      match c {
        case Load(n, i) => var v := Load(n, i);
        case Store(n, i, v) => Store(n, i, v);
        case Up(n, i) => Up(n, i);
        case Down(n, i) => var v := Down(n, i);
        case Take(n, i) =>
          ContentsAt(n);
          if n in vars && i < vars[n].len { var done := TryTake(vars[n], i, n); }
      }
    }

    /** A visit to a program that is parked at a variable: it tries to take a unit, and when
        there is none waits for a while, in which others go on, and tries once more. */
    method StateBlocked(sem: GlobalVar, idx: nat, ghost key: string, others: seq<P.Call>) returns (granted: bool)
      requires Valid() && key in vars && sem == vars[key] && idx < sem.len
      modifies Repr
      ensures Valid() && fresh(Repr - old(Repr)) && old(Repr) <= Repr && Grows(old(Snapshot()), Snapshot())
      ensures key in vars && sem == vars[key] && idx < sem.len
      ensures var g := old(Contents());
        var h := if Globals.Cell(g, key, idx) > 0 then g else Meanwhile(others, g);
        && Contents() == P.Atomic(P.Take(key, idx), h)
        && (granted <==> Globals.Cell(h, key, idx) > 0)
    {
      hide P.Atomic, P.Answer, Contents, Snapshot, Grows, Valid;
      ghost var g, was := Contents(), Snapshot();
      SnapshotAt(key);
      TakeIs(key, idx, g);
      granted := TryTake(sem, idx, key);
      if granted { return; }
      var k := 0;
      while k < |others|
        invariant Valid() && k <= |others| && fresh(Repr - old(Repr)) && old(Repr) <= Repr
        invariant Grows(was, Snapshot()) && Contents() == Meanwhile(others[..k], g)
      {
        MeanwhileNext(others, k, g);
        ghost var before := Snapshot();
        Operate(others[k]);
        GrowsOn(was, before, Snapshot());
        k := k + 1;
      }
      assert others[..k] == others;
      Kept(was, key, sem, idx);
      TakeIs(key, idx, Contents());
      ghost var now := Snapshot();
      granted := TryTake(sem, idx, key);
      GrowsOn(was, now, Snapshot());
    }

    /** A variable known from before is still there. */
    lemma Kept(was: map<string, (GlobalVar, nat)>, key: string, sem: GlobalVar, idx: nat)
      requires Valid() && Grows(was, Snapshot()) && key in was && was[key].0 == sem && idx < was[key].1
      ensures key in vars && vars[key] == sem && idx < sem.len
    {
      assert key in Snapshot();
    }
  }

  /** The globals after what others did. */
  function Meanwhile(calls: seq<P.Call>, g: Globals.Store): Globals.Store {
    if calls == [] then g else P.Atomic(calls[|calls| - 1], Meanwhile(calls[..|calls| - 1], g))
  }

  lemma {:induction false} MeanwhileNext(calls: seq<P.Call>, k: nat, g: Globals.Store)
    requires k < |calls|
    ensures Meanwhile(calls[..k + 1], g) == P.Atomic(calls[k], Meanwhile(calls[..k], g))
  {
    hide P.Atomic;
    assert calls[..k + 1][..k] == calls[..k];
  }

  lemma TakeIs(key: string, idx: nat, g: Globals.Store)
    ensures P.Answer(P.Take(key, idx), g) == if Globals.Cell(g, key, idx) > 0 then 1 else 0
    ensures Globals.Cell(g, key, idx) <= 0 ==> P.Atomic(P.Take(key, idx), g) == g
  {}
}
