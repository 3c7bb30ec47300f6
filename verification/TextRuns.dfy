/** Running the text of a program is running its lines: the interpreter that tokenizes,
    scans for labels and seeks in the file does, turn by turn, what the machine does on a
    list of lines. */
module TextRuns {
  import opened Syntax
  import opened Locals
  import opened Scanning
  import opened SourceText
  import opened Machine
  import opened Labels
  import opened TapeMachine
  import opened Positions

  /** The lookahead stands where line `k` is read next. */
  ghost predicate StandsAt(f: File, ahead: string, k: nat)
    requires Laid(f)
  {
    k <= |f.code| && Skip(ahead) == Skip(Tail(f, k)) && ahead != ""
  }

  /** The lookahead is where the program's line and jump say. */
  ghost predicate Placed(f: File, ahead: string, p: Proc)
    requires Laid(f)
  {
    if p.past then p.line < |f.code| && f.code[p.line].tag.Some? && ahead == Seek(f.text, LeftAt(f, p.line))
    else StandsAt(f, ahead, p.line)
  }

  /** Every label in the table stands on its line. */
  ghost predicate Tagged(p: Proc) {
    forall n | n in p.table && p.table[n].Mark? :: p.table[n].line < |p.code| && p.code[p.table[n].line].tag == Some(n)
  }

  predicate Alive(p: Proc) {
    p.status.Ready? || p.status.Sleeping? || p.status.Blocked?
  }

  /** The text interpreter is where the machine is. */
  ghost predicate Follows(f: File, t: Tape, p: Proc) {
    && Carries(f) && p.code == f.code && t.text == f.text
    && t.core == Core(p, Lefts(f)) && Tagged(p)
    && (Alive(p) ==> Placed(f, t.ahead, p))
  }

  /** Line `k` as the tokenizer reads it, with its label or from behind it. */
  ghost predicate Reads(f: File, k: nat, past: bool, r: Scanned)
    requires Laid(f) && k < |f.code|
  {
    var l := f.code[k];
    && r.Done? && |r.tokens| > 0
    && ReadLine(r.tokens) == Reading(if past then Line(None, l.instr) else l, [])
    && r.ahead == Boundary(l.instr, f.ys[k].trail, Tail(f, k + 1))
    && (r.last <==> EndsFile(f.code, k))
    && if past || l.tag.None? then r.tokens[0].InstrTok? else r.tokens[0] == LabelTok(l.tag.value, LeftAt(f, k))
  }

  lemma {:induction false} TailBlank(f: File, k: nat)
    requires Laid(f) && k <= |f.code|
    ensures Skip(Tail(f, k)) == "" <==> k == |f.code|
  {
    SourceStarts(f.code[k..], f.ys[k..], f.coda);
  }

  lemma {:induction false} ReadsLine(f: File, k: nat, s: string)
    requires Laid(f) && k < |f.code| && StandsAt(f, s, k)
    ensures Reads(f, k, false, Tokenize(s, false))
  {
    hide Tokenize, ReadLine, Boundary, WellFormed, Fits, Tail, Skip, Body, Mnemonic;
    assert WellFormed(f.code[k]) && Fits(f.code[k], f.ys[k]);
    TailIs(f, k);
    LineScanned(f.code[k], f.ys[k], Tail(f, k + 1), s);
    TailBlank(f, k + 1);
  }

  lemma {:induction false} ReadsPast(f: File, k: nat)
    requires Carries(f) && k < |f.code| && f.code[k].tag.Some?
    ensures Reads(f, k, true, Tokenize(Seek(f.text, LeftAt(f, k)), false))
  {
    hide Tokenize, ReadLine, Boundary, WellFormed, Tail, Skip, Body, Mnemonic, AllSpace, AllBlank, GoodGaps;
    var i, y := f.code[k].instr, f.ys[k];
    SeekFinds(f, k);
    assert WellFormed(f.code[k]) && Fits(f.code[k], y);
    FormedParts(f.code[k]);
    BareScanned(i, " " + y.head[1..], y.gaps, y.trail, Tail(f, k + 1));
    TailBlank(f, k + 1);
  }

  /** Behind a line the lookahead stands at the next one, unless the line met the end. */
  lemma {:induction false} BoundaryStands(f: File, k: nat)
    requires Carries(f) && k < |f.code| && !EndsFile(f.code, k)
    ensures StandsAt(f, Boundary(f.code[k].instr, f.ys[k].trail, Tail(f, k + 1)), k + 1)
  {
    hide Boundary, Tail, Skip, AllBlank, WellFormed, Fits;
    FitsTrail(f.code[k], f.ys[k]);
    BoundarySkips(f.code[k].instr, f.ys[k].trail, Tail(f, k + 1));
    TailBlank(f, k + 1);
  }

  lemma {:induction false} EntersCore(f: File, p: Proc)
    requires Laid(f) && p.code == f.code && Tagged(p) && p.line < |f.code| && f.code[p.line].tag.Some? && !p.past
    ensures var n := f.code[p.line].tag.value;
      var q := Enter(p, n, p.line);
      && Enter(Core(p, Lefts(f)), n, LeftAt(f, p.line)) == Core(q, Lefts(f)) && Tagged(q)
      && q.code == p.code && q.line == p.line && q.past == p.past
  {
    hide Laid, LeftAt;
    var n := f.code[p.line].tag.value;
    if n in p.table && p.table[n].Mark? && p.table[n].line != p.line {
      var l := p.table[n].line;
      if l < p.line { LeftsDiffer(f, l, p.line); } else { LeftsDiffer(f, p.line, l); }
    }
  }

  /** The scan for a label finds its first line from `k` on, and meets the end of the file
      exactly on a last line that only prints. */
  lemma {:induction false} SeekLabelFinds(f: File, s: string, k: nat, target: string)
    requires Carries(f) && StandsAt(f, s, k)
    ensures SeekLabel(s, false, target) ==
      match Find(f.code, k, target)
      case None => Lost
      case Some(l) => Hit(LeftAt(f, l), EndsFile(f.code, l))
    decreases |f.code| - k
  {
    hide Tokenize, ReadLine, Boundary, Laid, Tail, Skip, LeftAt;
    if k == |f.code| {
      TailBlank(f, k);
      NothingLeft(s);
    } else {
      ReadsLine(f, k, s);
      var r := Tokenize(s, false);
      if f.code[k].tag != Some(target) {
        if EndsFile(f.code, k) {
          EndsAtBoundary(f, k);
          NothingAtEof(true);
        } else {
          BoundaryStands(f, k);
          SeekLabelFinds(f, r.ahead, k + 1, target);
        }
      }
    }
  }

  lemma {:induction false} EndsAtBoundary(f: File, k: nat)
    requires Laid(f) && k < |f.code| && EndsFile(f.code, k)
    ensures Boundary(f.code[k].instr, f.ys[k].trail, Tail(f, k + 1)) == ""
  {
    TailBlank(f, k + 1);
  }

  /** What an instruction needs to know: the line behind it is read next. */
  ghost predicate InStep(f: File, t: Tape, p: Proc) {
    && Carries(f) && p.code == f.code && t.text == f.text && t.core == Core(p, Lefts(f)) && Tagged(p)
    && p.status.Ready? && !p.past && StandsAt(f, t.ahead, p.line)
  }

  lemma {:induction false} KnownLeap(f: File, t: Tape, p: Proc, target: string)
    requires InStep(f, t, p) && target in p.table
    ensures Follows(f, Leap(t, target), Jump(p, target))
  {
    hide SeekLabel, Laid, StandsAt, LeftAt, Seek, Find;
  }

  lemma {:induction false} FreshLeap(f: File, t: Tape, p: Proc, target: string)
    requires InStep(f, t, p) && target !in p.table
    ensures Follows(f, Leap(t, target), Jump(p, target))
  {
    hide SeekLabel, StandsAt, LeftAt, Seek, Laid;
    SeekLabelFinds(f, t.ahead, p.line, target);
    var at := Lefts(f);
    assert target !in t.core.table;
    if Find(p.code, p.line, target).Some? {
      var l := Find(p.code, p.line, target).value;
      assert Marked(p.table[target := Mark(l)], at) == Marked(p.table, at)[target := Mark(LeftAt(f, l))];
    }
  }

  /** A jump in the text is the jump between lines. */
  lemma {:induction false} LeapFollows(f: File, t: Tape, p: Proc, target: string)
    requires InStep(f, t, p)
    ensures Follows(f, Leap(t, target), Jump(p, target))
  {
    hide InStep, Follows, Leap, Jump;
    if target in p.table { KnownLeap(f, t, p, target); } else { FreshLeap(f, t, p, target); }
  }

  lemma TaggedKept(p: Proc, q: Proc)
    requires Tagged(p) && q.code == p.code && SameMarks(p.table, q.table)
    ensures Tagged(q)
  {}

  lemma {:induction false} PlainFollows(f: File, t: Tape, p: Proc, g: Globals.Store, ins: Instr)
    requires InStep(f, t, p) && !Jumps(ins)
    ensures Perform(t, g, ins).glob == Execute(p, g, ins).glob
      && Follows(f, Perform(t, g, ins).tape, Execute(p, g, ins).proc)
  {
    ExecuteCore(p, g, ins, Lefts(f));
    ExecuteExtends(p, g, ins);
    hide Execute, StandsAt, Laid, LeftAt, Marked;
    TaggedKept(p, Execute(p, g, ins).proc);
  }

  lemma {:induction false} PerformBranch(t: Tape, g: Globals.Store, ins: Instr)
    requires ins.Branch?
    ensures var b := EvalBoth(t.core, ins.left, ins.right);
      var u := t.(core := b.after);
      Perform(t, g, ins) ==
        Spot(if b.ok && Syntax.Holds(ins.rel, b.left, b.right) then Leap(u, ins.target) else u, g)
  {
    hide EvalBoth, Leap, Execute;
  }

  lemma {:induction false} ExecuteBranch(p: Proc, g: Globals.Store, ins: Instr)
    requires ins.Branch?
    ensures var b := EvalBoth(p, ins.left, ins.right);
      Execute(p, g, ins) ==
        Pair(if b.ok && Syntax.Holds(ins.rel, b.left, b.right) then Jump(b.after, ins.target) else b.after, g)
  {
    hide EvalBoth, Jump, Locate, Eval, Assign, PrintArgs, Compute;
  }

  lemma {:induction false} BranchFollows(f: File, t: Tape, p: Proc, g: Globals.Store, ins: Instr)
    requires InStep(f, t, p) && ins.Branch?
    ensures Perform(t, g, ins).glob == Execute(p, g, ins).glob
      && Follows(f, Perform(t, g, ins).tape, Execute(p, g, ins).proc)
  {
    hide Perform, Execute, EvalBoth, StandsAt, Laid, LeftAt, Marked, Leap, Jump, SameMarks;
    hide Compute, PrintArgs, Locate, Assign, Eval;
    var b := EvalBoth(p, ins.left, ins.right);
    PerformBranch(t, g, ins);
    ExecuteBranch(p, g, ins);
    BothCore(p, ins.left, ins.right, Lefts(f));
    BothExtends(p, ins.left, ins.right);
    BothReady(p, ins.left, ins.right);
    TaggedKept(p, b.after);
    if b.ok && Syntax.Holds(ins.rel, b.left, b.right) {
      LeapFollows(f, t.(core := Core(b.after, Lefts(f))), b.after, ins.target);
    }
  }

  lemma {:induction false} BothReady(p: Proc, x: Operand, y: Operand)
    ensures EvalBoth(p, x, y).ok ==> EvalBoth(p, x, y).after.status == p.status
  {
    hide Eval;
  }

  lemma {:induction false} PerformFollows(f: File, t: Tape, p: Proc, g: Globals.Store, ins: Instr)
    requires InStep(f, t, p)
    ensures Perform(t, g, ins).glob == Execute(p, g, ins).glob
      && Follows(f, Perform(t, g, ins).tape, Execute(p, g, ins).proc)
  {
    hide InStep, Follows, Leap, Jump;
    if ins.Branch? { BranchFollows(f, t, p, g, ins); }
    else if ins.Bra? { LeapFollows(f, t, p, ins.target); }
    else { PlainFollows(f, t, p, g, ins); }
  }

  // ----- one line -----

  /** What the text interpreter has when it has read and entered the line. */
  lemma {:induction false} EntersLine(f: File, t: Tape, p: Proc)
    requires Follows(f, t, p) && p.status.Ready? && p.line < |f.code|
    ensures var r := Tokenize(t.ahead, false);
      && Reads(f, p.line, p.past, r)
      && (if r.tokens[0].LabelTok? then Enter(t.core, r.tokens[0].name, r.tokens[0].left) else t.core)
         == Core(Entered(p), Lefts(f))
      && Tagged(Entered(p)) && Entered(p).code == p.code
  {
    hide Tokenize, ReadLine, Boundary, Tail, Skip, LeftAt, Enter, WellFormed, Fits, Seek, Dangles;
    if p.past { ReadsPast(f, p.line); } else { ReadsLine(f, p.line, t.ahead); }
    if f.code[p.line].tag.Some? && !p.past { EntersCore(f, p); }
  }

  lemma LastLinePrints(p: Proc, g: Globals.Store, k: nat)
    requires k < |p.code| && EndsFile(p.code, k)
    ensures var r := Execute(p, g, p.code[k].instr);
      r.glob == g && r.proc == p.(out := p.out + [Machine.Printed(p.code[k].instr.text, [])])
  {}

  /** A bare PRINT at the end of the file ends the program. */
  lemma {:induction false} LastLineFollows(f: File, u: Tape, q: Proc, g: Globals.Store, k: nat)
    requires Carries(f) && q.code == f.code && u.text == f.text && u.core == Core(q, Lefts(f)) && Tagged(q)
      && q.status.Ready?
    requires k < |f.code| && EndsFile(f.code, k)
    ensures var ins := f.code[k].instr;
      var s, r := Proceed(u, g, ins, true), Execute(q, g, ins);
      s.glob == r.glob && r.proc.status.Ready? && Follows(f, s.tape, r.proc.(status := Finished))
  {
    LastLinePrints(q, g, k);
    ExecuteCore(q, g, f.code[k].instr, Lefts(f));
    hide Execute, Laid, LeftAt, Marked, Placed;
  }

  lemma {:induction false} ProceedFollows(f: File, u: Tape, q: Proc, g: Globals.Store, k: nat)
    requires Carries(f) && q.code == f.code && u.text == f.text && u.core == Core(q, Lefts(f)) && Tagged(q)
      && q.status.Ready?
    requires k < |f.code| && q.line == k + 1 && !q.past
    requires u.ahead == Boundary(f.code[k].instr, f.ys[k].trail, Tail(f, k + 1))
    ensures var ins := f.code[k].instr;
      var s, r := Proceed(u, g, ins, EndsFile(f.code, k)), Execute(q, g, ins);
      s.glob == r.glob && Follows(f, s.tape, Closed(f.code, k, r.proc))
  {
    hide Execute, Perform, Boundary, Tail, StandsAt, LeftAt, Laid, Follows, EndsFile;
    if EndsFile(f.code, k) {
      LastLineFollows(f, u, q, g, k);
    } else {
      BoundaryStands(f, k);
      PerformFollows(f, u, q, g, f.code[k].instr);
    }
  }

  lemma {:induction false} StepEnds(f: File, t: Tape, p: Proc, g: Globals.Store)
    requires Follows(f, t, p) && p.status.Ready? && p.line >= |f.code|
    ensures Step(t, g).glob == Interpret(p, g).glob && Follows(f, Step(t, g).tape, Interpret(p, g).proc)
  {
    hide Execute, Enter, Boundary, Tokenize, Laid, LeftAt;
    TailBlank(f, p.line);
    NothingLeft(t.ahead);
  }

  /** One step, by what the tokenizer finds. */
  lemma {:induction false} StepIs(t: Tape, g: Globals.Store)
    requires Tokenize(t.ahead, false).Done? && |Tokenize(t.ahead, false).tokens| > 0
    ensures var r := Tokenize(t.ahead, false);
      var l := ReadLine(r.tokens);
      var c := if r.tokens[0].LabelTok? then Enter(t.core, r.tokens[0].name, r.tokens[0].left) else t.core;
      var u := Tape(t.text, r.ahead, c);
      l.Reading? && Step(t, g) == if c.status.Ready? then Proceed(u, g, l.line.instr, r.last) else Spot(u, g)
  {
    hide Tokenize, ReadLine, Enter, Proceed;
    Lockstep(t.ahead, false);
  }

  lemma CorePoised(p: Proc, lefts: seq<nat>)
    requires p.line < |p.code|
    ensures Core(Poised(p), lefts) == Core(Entered(p), lefts)
    ensures Core(Entered(p), lefts).status == Entered(p).status && Poised(p).status == Entered(p).status
    ensures Poised(p).code == Entered(p).code && Poised(p).line == p.line + 1 && !Poised(p).past
    ensures Tagged(Entered(p)) ==> Tagged(Poised(p))
  {}

  /** What the text interpreter does with a line that it reads. */
  lemma {:induction false} StepReads(f: File, t: Tape, p: Proc, g: Globals.Store)
    requires Follows(f, t, p) && p.status.Ready? && p.line < |f.code|
    ensures var ins, last := f.code[p.line].instr, EndsFile(f.code, p.line);
      var u := Tape(t.text, Boundary(ins, f.ys[p.line].trail, Tail(f, p.line + 1)), Core(Entered(p), Lefts(f)));
      Step(t, g) == if Entered(p).status.Ready? then Proceed(u, g, ins, last) else Spot(u, g)
  {
    hide Tokenize, ReadLine, Enter, Entered, Poised, Execute, Proceed, Boundary, Tail, LeftAt, Laid, Placed, EndsFile;
    hide Interpret, Marked, Step, Core, Closed, Tagged, Dangles, Alive;
    EntersLine(f, t, p);
    CorePoised(p, Lefts(f));
    StepIs(t, g);
  }

  /** One line of text is interpreted as that line. */
  lemma {:induction false} StepFollows(f: File, t: Tape, p: Proc, g: Globals.Store)
    requires Follows(f, t, p) && p.status.Ready?
    ensures Step(t, g).glob == Interpret(p, g).glob && Follows(f, Step(t, g).tape, Interpret(p, g).proc)
  {
    if p.line >= |f.code| {
      StepEnds(f, t, p, g);
    } else {
      LineFollows(f, t, p, g);
    }
  }

  lemma {:induction false} LineFollows(f: File, t: Tape, p: Proc, g: Globals.Store)
    requires Follows(f, t, p) && p.status.Ready? && p.line < |f.code|
    ensures Step(t, g).glob == Interpret(p, g).glob && Follows(f, Step(t, g).tape, Interpret(p, g).proc)
  {
    assert |f.ys| == |f.code|;
    hide Tokenize, ReadLine, Enter, Entered, Poised, Execute, Proceed, Boundary, Tail, LeftAt, Laid, Placed, EndsFile;
    hide Interpret, Marked, Step, Core, Closed, Tagged, Dangles, Alive;
    var k, q := p.line, Poised(p);
    var u := Tape(t.text, Boundary(f.code[k].instr, f.ys[k].trail, Tail(f, k + 1)), Core(Entered(p), Lefts(f)));
    EntersLine(f, t, p);
    CorePoised(p, Lefts(f));
    StepReads(f, t, p, g);
    InterpretIs(p, g);
    hide Reads;
    if Entered(p).status.Ready? {
      ProceedFollows(f, u, q, g, k);
    } else {
      EnteredOrDead(p);
    }
  }

  lemma EnteredOrDead(p: Proc)
    requires p.status.Ready? && p.line < |p.code|
    ensures Entered(p).status.Ready? || !Alive(Entered(p))
  {}

  // ----- whole runs -----

  lemma {:induction false} AttendFollows(f: File, t: Tape, p: Proc, g: Globals.Store, slice: nat)
    requires Follows(f, t, p)
    ensures Attend(t, g, slice).glob == Visit(p, g, slice).glob
    ensures Follows(f, Attend(t, g, slice).tape, Visit(p, g, slice).proc)
  {
    hide Step, Interpret, Laid, Placed, Core, LeftAt, Doze, Grant;
    CoreStatus(p, Lefts(f));
    if p.status.Ready? {
      StepFollows(f, t, p, g);
    } else {
      Untouched(f, t.ahead, p, g, slice);
      IdleCore(p, Lefts(f), g, slice);
    }
  }

  lemma CoreStatus(p: Proc, at: seq<nat>)
    ensures Core(p, at).status == p.status
  {}

  lemma {:induction false} IdleCore(p: Proc, at: seq<nat>, g: Globals.Store, slice: nat)
    ensures Doze(Core(p, at), slice) == Core(Doze(p, slice), at)
    ensures Grant(Core(p, at), g) == Pair(Core(Grant(p, g).proc, at), Grant(p, g).glob)
  {
    hide Marked;
  }

  /** Sleeping and waiting move neither the program's line nor its lookahead. */
  lemma {:induction false} Untouched(f: File, ahead: string, p: Proc, g: Globals.Store, slice: nat)
    requires Laid(f) && !p.status.Ready?
    ensures var q := Visit(p, g, slice).proc;
      (Alive(q) <==> Alive(p)) && q.table == p.table && q.code == p.code
        && (Placed(f, ahead, q) <==> Placed(f, ahead, p))
  {
    hide Interpret, StandsAt, LeftAt;
  }

  ghost predicate AllFollow(fs: seq<File>, r: Reel, s: Sys) {
    && |r.tapes| == |fs| && |s.procs| == |fs| && r.glob == s.glob
    && forall i | 0 <= i < |fs| :: Follows(fs[i], r.tapes[i], s.procs[i])
  }

  lemma {:induction false} AdvanceFollows(fs: seq<File>, r: Reel, s: Sys, t: Turn)
    requires AllFollow(fs, r, s)
    ensures AllFollow(fs, Advance(r, t), Next(s, t))
  {
    hide Follows, Attend, Visit;
    if t.who < |fs| { AttendFollows(fs[t.who], r.tapes[t.who], s.procs[t.who], s.glob, t.slice); }
  }

  lemma {:induction false} PlayFollows(fs: seq<File>, r: Reel, s: Sys, turns: seq<Turn>)
    requires AllFollow(fs, r, s)
    ensures AllFollow(fs, Play(r, turns), Run(s, turns))
  {
    if turns != [] {
      PlayFollows(fs, r, s, turns[..|turns| - 1]);
      AdvanceFollows(fs, Play(r, turns[..|turns| - 1]), Run(s, turns[..|turns| - 1]), turns[|turns| - 1]);
    }
  }

  /** A file whose magic line has been read. */
  function Opened(f: File, args: Args): Tape
    requires Magic(f.text).Opened?
  {
    Tape(f.text, Magic(f.text).ahead, Start([], args))
  }

  /** The magic line is accepted, and reading goes on with the first line of the program. */
  lemma {:induction false} MagicAccepted(f: File)
    requires Carries(f)
    ensures Magic(f.text).Opened? && Magic(f.text).good && StandsAt(f, Magic(f.text).ahead, 0)
  {
    hide Skip, Crosses, Tail, AllBlank, Magic, BeginsWell, Dangles, WellFormed, Fits, Scanning.Behind;
    var t := "\n" + Tail(f, 0);
    var s := f.blanks + t;
    MagicText(f.text, s) by { assert f.text == MAGIC + s; }
    hide Carries, Laid;
    MagicIs(f.text);
    SkipSpace("\n", Tail(f, 0));
    TailBlank(f, 0);
    SkipTwice(Tail(f, 0));
    if f.blanks == "" {
      assert s == t;
    } else {
      BlanksThenLine(f.blanks, Tail(f, 0));
    }
  }

  lemma MagicText(text: string, s: string)
    requires text == MAGIC + s
    ensures BeginsWell(text) && text[|MAGIC|..] == s && (s != "" ==> |text| > |MAGIC| && text[|MAGIC|] == s[0])
  {}

  lemma {:induction false} BlanksThenLine(b: string, rest: string)
    requires b != "" && AllBlank(b)
    ensures var s := b + ("\n" + rest);
      s[0] != '\n' && Crosses(Scanning.Behind(s)) && Skip(Scanning.Behind(s)) == Skip(rest)
  {
    hide Skip, Crosses;
    var t := "\n" + rest;
    assert (b + t)[1..] == b[1..] + t && (b + t)[0] == b[0];
    BlankParts(b);
    CrossesAfter(b[1..], t);
    CrossesHere(rest);
    SkipSpace(b[1..], t);
    SkipSpace("\n", rest);
  }

  lemma BlankParts(b: string)
    requires AllBlank(b) && b != ""
    ensures AllBlank(b[1..]) && AllSpace(b[1..]) && b[0] != '\n'
  {}

  lemma {:induction false} OpenedFollows(f: File, args: Args)
    requires Carries(f)
    ensures Magic(f.text).Opened? && Follows(f, Opened(f, args), Start(f.code, args))
  {
    hide Tail, Magic, Laid, LeftAt, AllBlank, Skip, Dangles;
    MagicAccepted(f);
    assert Marked(map[], Lefts(f)) == map[];
  }

  /** The same programs as opened files and as lists of lines, over the same globals. */
  ghost predicate Opening(fs: seq<File>, args: seq<Args>, r: Reel, s: Sys) {
    && |args| == |fs| && |r.tapes| == |fs| && |s.procs| == |fs| && r.glob == s.glob
    && forall i | 0 <= i < |fs| ::
         Carries(fs[i]) && Magic(fs[i].text).Opened?
         && r.tapes[i] == Opened(fs[i], args[i]) && s.procs[i] == Start(fs[i].code, args[i])
  }

  /** Any files, in any layout, run by the text interpreter in any order of turns over any
      globals: the globals, and what each program has printed, computed and stopped with,
      are at every moment those of the machine that runs the lines written in the files. */
  lemma {:induction false} TextRunsAsLines(fs: seq<File>, args: seq<Args>, r: Reel, s: Sys, turns: seq<Turn>)
    requires Opening(fs, args, r, s)
    ensures Play(r, turns).glob == Run(s, turns).glob
    ensures forall i | 0 <= i < |fs| :: SameCore(Play(r, turns).tapes[i].core, Run(s, turns).procs[i])
  {
    hide Carries, Laid, Follows, Opened, Start, Play, Run;
    forall i | 0 <= i < |fs| ensures Follows(fs[i], r.tapes[i], s.procs[i]) { OpenedFollows(fs[i], args[i]); }
    PlayFollows(fs, r, s, turns);
    forall i | 0 <= i < |fs| ensures SameCore(Play(r, turns).tapes[i].core, Run(s, turns).procs[i]) {
      FollowsCore(fs[i], Play(r, turns).tapes[i], Run(s, turns).procs[i]);
    }
  }

  /** Everything that can be seen of a program apart from its position. */
  ghost predicate SameCore(c: Proc, p: Proc) {
    && c.status == p.status && c.out == p.out && c.error == p.error
    && forall n :: (n in p.table && p.table[n].Cells?) || (n in c.table && c.table[n].Cells?) ==>
         n in p.table && n in c.table && c.table[n] == p.table[n]
  }

  lemma {:induction false} FollowsCore(f: File, t: Tape, p: Proc)
    requires Follows(f, t, p)
    ensures SameCore(t.core, p)
  {
    hide Placed, Laid;
  }
}
