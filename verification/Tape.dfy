/** The interpreter on the text of a program: each line is tokenized where the lookahead
    stands, and labels are positions in the file. */
module TapeMachine {
  import opened Syntax
  import opened Locals
  import opened Scanning
  import opened SourceText
  import opened Machine

  /** A running program. The core has neither code nor line; labels in its table are noted
      by the length of the text behind them. */
  datatype Tape = Tape(text: string, ahead: string, core: Proc)

  datatype Spot = Spot(tape: Tape, glob: Globals.Store)

  /** The reading position behind a label: its last character is read again, as a blank. */
  function Seek(text: string, left: nat): string {
    " " + if left <= |text| then text[|text| - left..] else ""
  }

  datatype Hit = Hit(left: nat, last: bool) | Lost

  /** Tokenizes line after line until one begins with the label. */
  function SeekLabel(s: string, last: bool, target: string): Hit
    decreases |s|
  {
    TokenizeShrinks(s, last);
    var r := Tokenize(s, last);
    if r.Failed? || r.tokens == [] then Lost
    else if r.tokens[0].LabelTok? && r.tokens[0].name == target then Hit(r.tokens[0].left, r.last)
    else SeekLabel(r.ahead, r.last, target)
  }

  /** A taken jump. */
  function Leap(t: Tape, target: string): Tape {
    if target in t.core.table then
      match t.core.table[target]
      case Mark(left) => t.(ahead := Seek(t.text, left))
      case Cells(_) => t.(core := Halt(t.core, LabelIsVariable))
    else
      match SeekLabel(t.ahead, false, target)
      case Lost => t.(core := Halt(t.core, LabelUndefined))
      case Hit(left, last) =>
        var c := t.core.(table := t.core.table[target := Mark(left)]);
        t.(ahead := Seek(t.text, left), core := if last then c.(status := Finished) else c)
  }

  /** Executes one instruction; the lookahead already stands behind its line. */
  function Perform(t: Tape, g: Globals.Store, ins: Instr): Spot {
    match ins
    case Bra(target) => Spot(Leap(t, target), g)
    case Branch(rel, left, right, target) =>
      var b := EvalBoth(t.core, left, right);
      var u := t.(core := b.after);
      Spot(if b.ok && Holds(rel, b.left, b.right) then Leap(u, target) else u, g)
    case _ =>
      var r := Execute(t.core, g, ins);
      Spot(t.(core := r.proc), r.glob)
  }

  /** Executes an instruction; `last` says that its line met the end of the file. */
  function Proceed(t: Tape, g: Globals.Store, ins: Instr, last: bool): Spot {
    var s := Perform(t, g, ins);
    if last && s.tape.core.status.Ready? then s.(tape := s.tape.(core := s.tape.core.(status := Finished))) else s
  }

  /** Interprets the next line of a ready program. */
  function Step(t: Tape, g: Globals.Store): Spot {
    var r := Tokenize(t.ahead, false);
    if r.Failed? then Spot(t.(core := Halt(t.core, BadSyntax)), g)
    else if r.tokens == [] then Spot(t.(core := t.core.(status := Finished)), g)
    else
      Lockstep(t.ahead, false);
      var ins := ReadLine(r.tokens).line.instr;
      var c := if r.tokens[0].LabelTok? then Enter(t.core, r.tokens[0].name, r.tokens[0].left) else t.core;
      var u := Tape(t.text, r.ahead, c);
      if c.status.Ready? then Proceed(u, g, ins, r.last) else Spot(u, g)
  }

  /** A visit of the scheduler. */
  function Attend(t: Tape, g: Globals.Store, slice: nat): Spot {
    match t.core.status
    case Ready => Step(t, g)
    case Sleeping => Spot(t.(core := Doze(t.core, slice)), g)
    case Blocked =>
      var r := Grant(t.core, g);
      Spot(t.(core := r.proc), r.glob)
    case Finished => Spot(t, g)
    case Wild => Spot(t, g)
  }

  datatype Reel = Reel(glob: Globals.Store, tapes: seq<Tape>)

  function Advance(s: Reel, t: Turn): (r: Reel)
    ensures |r.tapes| == |s.tapes|
  {
    if t.who >= |s.tapes| then s
    else
      var r := Attend(s.tapes[t.who], s.glob, t.slice);
      Reel(r.glob, s.tapes[t.who := r.tape])
  }

  function Play(s: Reel, turns: seq<Turn>): (r: Reel)
    ensures |r.tapes| == |s.tapes|
  {
    if turns == [] then s
    else Advance(Play(s, turns[..|turns| - 1]), turns[|turns| - 1])
  }
}
