/** Sleeping: the requested seconds are slept in slices, visit by visit, to the nanosecond. */
module Sleep {
  import opened Machine

  /** The sleep that is left, in nanoseconds. */
  function Remaining(p: Proc): int {
    p.sec * NSEC + p.nsec
  }

  /** How long the thread sleeps during one visit. */
  function Slept(p: Proc, slice: int): int {
    if !p.status.Sleeping? then 0 else if p.nsec - slice < 0 && p.sec == 0 then p.nsec else slice
  }

  /** What every sleeping program keeps. */
  predicate Rested(p: Proc) {
    0 <= p.sec && 0 <= p.nsec < NSEC
  }

  /** One visit: time passes, none is lost, and the parts stay in their ranges. */
  lemma DozeKeeps(p: Proc, slice: nat)
    requires p.status.Sleeping? && Rested(p) && slice < SLICE
    ensures var q := Doze(p, slice);
      && (q.status.Sleeping? || q.status.Ready?)
      && (q.status.Sleeping? ==> Rested(q) && Remaining(q) == Remaining(p) - slice && Slept(p, slice) == slice)
      && (q.status.Ready? ==> Slept(p, slice) == Remaining(p) < slice)
  {}

  // ----- inside a run -----

  /** The time that program `who` sleeps during a run. */
  function TimeSlept(s: Sys, turns: seq<Turn>, who: nat): int
    requires who < |s.procs|
  {
    if turns == [] then 0
    else
      var before, t := turns[..|turns| - 1], turns[|turns| - 1];
      TimeSlept(s, before, who) + if t.who == who then Slept(Run(s, before).procs[who], t.slice) else 0
  }

  predicate ShortSlices(turns: seq<Turn>) {
    forall i | 0 <= i < |turns| :: turns[i].slice < SLICE
  }

  predicate LongSlices(turns: seq<Turn>, who: nat) {
    forall i | 0 <= i < |turns| :: turns[i].who == who ==> turns[i].slice > 0
  }

  /** The program sleeps all the while before the last turn. */
  ghost predicate AsleepUntil(s: Sys, turns: seq<Turn>, who: nat)
    requires who < |s.procs|
  {
    forall k | 0 <= k < |turns| :: Run(s, turns[..k]).procs[who].status.Sleeping?
  }

  lemma {:induction false} AsleepBefore(s: Sys, turns: seq<Turn>, who: nat)
    requires who < |s.procs| && turns != [] && AsleepUntil(s, turns, who)
    ensures AsleepUntil(s, turns[..|turns| - 1], who) && Run(s, turns[..|turns| - 1]).procs[who].status.Sleeping?
  {
    var before := turns[..|turns| - 1];
    forall k | 0 <= k < |before| ensures Run(s, before[..k]).procs[who].status.Sleeping? {
      assert before[..k] == turns[..k];
    }
  }

  /** While it sleeps, what a program has slept and what is left make up what it asked for,
      and each of its turns has taken one slice. */
  lemma {:induction false} SleepAccount(s: Sys, turns: seq<Turn>, who: nat)
    requires who < |s.procs| && Rested(s.procs[who]) && s.procs[who].status.Sleeping?
    requires ShortSlices(turns) && AsleepUntil(s, turns, who)
    ensures var p := Run(s, turns).procs[who];
      var all := Remaining(s.procs[who]);
      && (p.status.Sleeping? || p.status.Ready?)
      && (p.status.Sleeping? ==>
           && Rested(p) && TimeSlept(s, turns, who) + Remaining(p) == all
           && TimeSlept(s, turns, who) <= (SLICE - 1) * TurnsOf(turns, who)
           && (LongSlices(turns, who) ==> TurnsOf(turns, who) <= TimeSlept(s, turns, who)))
      && (p.status.Ready? ==>
           && TimeSlept(s, turns, who) == all
           && all < (SLICE - 1) * TurnsOf(turns, who)
           && (LongSlices(turns, who) ==> TurnsOf(turns, who) <= all + 1))
    decreases |turns|
  {
    if turns != [] {
      var before, t := turns[..|turns| - 1], turns[|turns| - 1];
      AsleepBefore(s, turns, who);
      SleepAccount(s, before, who);
      var p := Run(s, before).procs[who];
      assert LongSlices(turns, who) ==> LongSlices(before, who);
      if t.who == who {
        DozeKeeps(p, t.slice);
        hide Visit;
      }
      hide Visit, Run;
    }
  }

  /** A program that executes SLEEP d wakes having slept d seconds exactly, and takes more
      than 100 visits for every second; if no slice is empty, at most one for each nanosecond
      and one more. */
  lemma {:induction false} SleepConserved(s: Sys, turns: seq<Turn>, who: nat, d: int)
    requires who < |s.procs| && d > 0
    requires s.procs[who].status.Sleeping? && s.procs[who].sec == d && s.procs[who].nsec == 0
    requires ShortSlices(turns) && AsleepUntil(s, turns, who) && !Run(s, turns).procs[who].status.Sleeping?
    ensures Run(s, turns).procs[who].status.Ready?
    ensures TimeSlept(s, turns, who) == d * NSEC
    ensures 100 * d + 1 <= TurnsOf(turns, who)
    ensures LongSlices(turns, who) ==> TurnsOf(turns, who) <= d * NSEC + 1
  {
    SleepAccount(s, turns, who);
  }
}
