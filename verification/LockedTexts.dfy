/** Programs that are interpreted from their texts while their operations on globals are taken
    apart into the steps of the lock protocol. */
module LockedTexts {
  import opened Syntax
  import opened Locals
  import opened Scanning
  import opened Machine
  import opened TapeMachine
  import opened Positions
  import opened TextRuns
  import opened LockedRuns
  import Globals
  import P = LockProtocol
  import SourceText
  import R = ProdConsRuns
  import B = Buffer
  import LockedFifo

  /** Texts instead of lines; otherwise as in LockedRuns. */
  datatype LockedReel = LockedReel(locks: P.State, tapes: seq<Tape>)

  /** The operation that the next visit to a text asks for, if any. */
  function Wish(t: Tape): Option<P.Call> {
    match t.core.status
    case Ready =>
      var r := Tokenize(t.ahead, false);
      if r.Failed? || r.tokens == [] then None
      else
        Lockstep(t.ahead, false);
        var c := if r.tokens[0].LabelTok? then Enter(t.core, r.tokens[0].name, r.tokens[0].left) else t.core;
        if c.status.Ready? then Asked(c, ReadLine(r.tokens).line.instr) else None
    case Blocked => Some(P.Take(t.core.sem, t.core.semIdx))
    case _ => None
  }

  /** Globals in which an operation answers `result`. */
  function Answering(c: P.Call, result: int): Globals.Store {
    match c
    case Load(n, i) => map[n := Zeros(i) + [result]]
    case Take(n, i) => map[n := Zeros(i) + [if result == 1 then 1 else 0]]
    case _ => map[]
  }

  /** The text after the visit, when the operation has answered. */
  function Told(t: Tape, result: int): Tape
    requires Wish(t).Some?
  {
    Attend(t, Answering(Wish(t).value, result), 0).tape
  }

  lemma AnsweringAnswers(c: P.Call, result: int)
    ensures c.Load? ==> P.Answer(c, Answering(c, result)) == result
    ensures c.Take? ==> (P.Answer(c, Answering(c, result)) == 1 <==> result == 1)
  {}

  // ----- one program -----

  lemma {:induction false} AskedCore(p: Proc, ins: Instr, at: seq<nat>)
    ensures Asked(Core(p, at), ins) == Asked(p, ins)
  {
    hide Eval, Locate, Marked, SameMarks;
    match ins
    case Load(_, glob) => LocateCore(p, glob, at);
    case Store(glob, src) =>
      LocateCore(p, glob, at);
      EvalMarked(src, Locate(p, glob).after.table, at, p.args);
    case Down(glob) => LocateCore(p, glob, at);
    case Up(glob) => LocateCore(p, glob, at);
    case _ =>
  }

  lemma {:induction false} WishAtEnd(f: File, t: Tape, p: Proc)
    requires Follows(f, t, p) && p.status.Ready? && p.line >= |f.code|
    ensures Wish(t) == None
  {
    hide SourceText.Boundary, Tokenize, Laid, LeftAt, Asked;
    TailBlank(f, p.line);
    SourceText.NothingLeft(t.ahead);
  }

  lemma {:induction false} WishOnLine(f: File, t: Tape, p: Proc)
    requires Follows(f, t, p) && p.status.Ready? && p.line < |f.code|
    ensures Wish(t) == Operation(p)
  {
    hide Tokenize, ReadLine, Enter, Entered, Poised, Asked, SourceText.Boundary;
    hide Tail, LeftAt, Laid, Placed, Core, Tagged, Alive;
    EntersLine(f, t, p);
    CorePoised(p, Lefts(f));
    CoreStatus(p, Lefts(f));
    AskedCore(Poised(p), f.code[p.line].instr, Lefts(f));
  }

  /** A text asks for the operation that its line asks for. */
  lemma {:induction false} WishIs(f: File, t: Tape, p: Proc)
    requires Follows(f, t, p)
    ensures Wish(t) == Operation(p)
  {
    if p.status.Ready? {
      if p.line < |f.code| { WishOnLine(f, t, p); } else { WishAtEnd(f, t, p); }
    }
  }

  lemma {:induction false} CompletedSame(p: Proc, a: int, b: int)
    requires Operation(p).Some?
    requires Operation(p).value.Load? ==> a == b
    requires Operation(p).value.Take? ==> (a == 1 <==> b == 1)
    ensures Completed(p, a) == Completed(p, b)
  {
    hide Eval, Assign, Locate;
  }

  /** The answer has the same effect on the text and on the line. */
  lemma {:induction false} ToldFollows(f: File, t: Tape, p: Proc, result: int)
    requires Follows(f, t, p) && Operation(p).Some?
    ensures Wish(t).Some? && Follows(f, Told(t, result), Completed(p, result))
  {
    hide Follows, Wish, Operation, Completed, Attend, Visit, P.Answer, Answering;
    WishIs(f, t, p);
    var c := Operation(p).value;
    var g := Answering(c, result);
    AttendFollows(f, t, p, g, 0);
    VisitOperates(p, g, 0);
    AnsweringAnswers(c, result);
    CompletedSame(p, P.Answer(c, g), result);
  }

  // ----- moves -----

  predicate Possible(u: LockedReel, m: Move) {
    m.who < |u.tapes| && m.who < |u.locks.threads| && P.Linked(u.locks, u.locks.threads[m.who]) &&
    var th, op := u.locks.threads[m.who], Wish(u.tapes[m.who]);
    match m
    case Local(_, _) => th.phase.Idle? && op.None?
    case Ask(_) => th.phase.Idle? && op.Some?
    case Go(_) => true
    case Return(_) => th.phase.Done? && op.Some?
  }

  function Act(u: LockedReel, m: Move): LockedReel
    requires Possible(u, m)
  {
    var i, t := m.who, u.tapes[m.who];
    match m
    case Local(_, slice) => u.(tapes := u.tapes[i := Attend(t, map[], slice).tape])
    case Ask(_) => u.(locks := P.Begin(u.locks, i, Wish(t).value))
    case Go(_) => u.(locks := P.Step(u.locks, i))
    case Return(_) => LockedReel(P.Finish(u.locks, i), u.tapes[i := Told(t, u.locks.threads[i].result)])
  }

  /** Moves that are not possible are skipped. */
  function ActAll(u: LockedReel, ms: seq<Move>): LockedReel {
    if ms == [] then u
    else
      var r := ActAll(u, ms[..|ms| - 1]);
      if Possible(r, ms[|ms| - 1]) then Act(r, ms[|ms| - 1]) else r
  }

  /** The same locks, and texts that follow the lines. */
  ghost predicate Mirrors(fs: seq<File>, u: LockedReel, s: Locked) {
    && u.locks == s.locks && |u.tapes| == |fs| && |s.procs| == |fs|
    && forall i | 0 <= i < |fs| :: Follows(fs[i], u.tapes[i], s.procs[i])
  }

  lemma {:induction false} SamePossible(fs: seq<File>, u: LockedReel, s: Locked, m: Move)
    requires Mirrors(fs, u, s)
    ensures Possible(u, m) <==> Enabled(s, m)
  {
    hide Follows, Wish, Operation, P.Linked;
    if m.who < |fs| { WishIs(fs[m.who], u.tapes[m.who], s.procs[m.who]); }
  }

  lemma {:induction false} ActMirrors(fs: seq<File>, u: LockedReel, s: Locked, m: Move)
    requires Mirrors(fs, u, s) && Enabled(s, m)
    ensures Possible(u, m) && Mirrors(fs, Act(u, m), Do(s, m))
  {
    hide Follows, Wish, Operation, P.Linked, Completed, Told, Attend, Visit, P.Begin, P.Step, P.Finish;
    SamePossible(fs, u, s, m);
    var i := m.who;
    WishIs(fs[i], u.tapes[i], s.procs[i]);
    match m
    case Local(_, slice) => AttendFollows(fs[i], u.tapes[i], s.procs[i], map[], slice);
    case Return(_) => ToldFollows(fs[i], u.tapes[i], s.procs[i], s.locks.threads[i].result);
    case _ =>
  }

  lemma {:induction false} AllMirrors(fs: seq<File>, u: LockedReel, s: Locked, ms: seq<Move>)
    requires Mirrors(fs, u, s)
    ensures Mirrors(fs, ActAll(u, ms), DoAll(s, ms))
  {
    hide Mirrors, Possible, Enabled, Act, Do;
    if ms != [] {
      var before, m := ms[..|ms| - 1], ms[|ms| - 1];
      AllMirrors(fs, u, s, before);
      SamePossible(fs, ActAll(u, before), DoAll(s, before), m);
      if Enabled(DoAll(s, before), m) { ActMirrors(fs, ActAll(u, before), DoAll(s, before), m); }
    }
  }

  // ----- whole runs -----

  /** Opened files over locks with no operation under way, the same files over the globals that
      the locks hold, and their lines over the same locks. */
  ghost predicate Opens(fs: seq<File>, args: seq<Args>, u: LockedReel, r: Reel, s: Locked) {
    && Inv(s) && AtRest(s) && u.locks == s.locks && u.tapes == r.tapes
    && Opening(fs, args, r, Sys(P.Contents(s.locks), s.procs))
  }

  lemma {:induction false} OpensMirrors(fs: seq<File>, args: seq<Args>, u: LockedReel, r: Reel, s: Locked)
    requires Opens(fs, args, u, r, s)
    ensures Mirrors(fs, u, s) && AllFollow(fs, r, Sys(P.Contents(s.locks), s.procs))
  {
    hide Inv, AtRest, Carries, Follows, TextRuns.Opened, Start, P.Contents;
    forall i | 0 <= i < |fs| ensures Follows(fs[i], u.tapes[i], s.procs[i]) { OpenedFollows(fs[i], args[i]); }
  }

  /** Texts and locks together: any files in any layout, their operations on globals interleaved
      step by step. Whenever no operation is under way, the globals are those of a run of
      the texts in which each operation is one turn, and so is all that a program has
      printed, computed and stopped with. */
  lemma {:induction false} LockStepsOnTexts(fs: seq<File>, args: seq<Args>, u: LockedReel, r: Reel, s: Locked,
      ms: seq<Move>)
    requires Opens(fs, args, u, r, s) && AtRest(DoAll(s, ms))
    ensures var v, w := ActAll(u, ms), Play(r, Turns(s, ms));
      && v.locks == DoAll(s, ms).locks && P.Inv(v.locks) && P.Contents(v.locks) == w.glob
      && |v.tapes| == |w.tapes| == |fs| && forall i | 0 <= i < |fs| :: v.tapes[i].core == w.tapes[i].core
  {
    OpensMirrors(fs, args, u, r, s);
    hide Opens, AtRest, DoAll, ActAll, Play, Run, Turns, P.Contents, P.Inv;
    AllMirrors(fs, u, s, ms);
    AtRestIs(fs, args, u, r, s, ms);
    PlayFollows(fs, r, Sys(P.Contents(s.locks), s.procs), Turns(s, ms));
    var v, w, q := ActAll(u, ms), Play(r, Turns(s, ms)), DoAll(s, ms);
    forall i | 0 <= i < |fs| ensures v.tapes[i].core == w.tapes[i].core {
      SameTape(fs[i], v.tapes[i], w.tapes[i], q.procs[i]);
    }
  }

  lemma {:induction false} AtRestIs(fs: seq<File>, args: seq<Args>, u: LockedReel, r: Reel, s: Locked, ms: seq<Move>)
    requires Opens(fs, args, u, r, s) && AtRest(DoAll(s, ms))
    ensures Inv(s) && Inv(DoAll(s, ms))
    ensures Run(Sys(P.Contents(s.locks), s.procs), Turns(s, ms)) ==
      Sys(P.Contents(DoAll(s, ms).locks), DoAll(s, ms).procs)
  {
    hide Inv, AtRest, DoAll, Run, Turns, P.Contents, Opening;
    RestIsMachine(s, ms);
  }

  lemma {:induction false} SameTape(f: File, a: Tape, b: Tape, p: Proc)
    requires Follows(f, a, p) && Follows(f, b, p)
    ensures a.core == b.core
  {
    hide Carries, Core, Placed, Tagged;
  }

  /** Producers and consumers from their texts, in lock steps: items come out as they went in. */
  lemma {:induction false} FirstInFirstOut(fs: seq<File>, args: seq<Args>, u: LockedReel, r: Reel, s: Locked,
      roles: seq<B.Role>, n: nat, ms: seq<Move>)
    requires Opens(fs, args, u, r, s) && R.Begins(Sys(P.Contents(s.locks), s.procs), roles, n)
    ensures u.locks.log <= ActAll(u, ms).locks.log
    ensures var entries := ActAll(u, ms).locks.log[|u.locks.log|..];
      && LockedFifo.Loaded(entries) <= LockedFifo.Stored(entries)
      && |LockedFifo.Stored(entries)| - |LockedFifo.Loaded(entries)| <= n
  {
    OpensMirrors(fs, args, u, r, s);
    hide Opening, AtRest, DoAll, ActAll, Inv, P.Contents, R.Begins, LockedFifo.Loaded, LockedFifo.Stored;
    AllMirrors(fs, u, s, ms);
    LockedFifo.FirstInFirstOut(s, roles, n, ms);
  }
}
