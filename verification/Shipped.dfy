/** What was proved of the lines of the shipped programs, told of the files that carry them:
    in whatever layout, with or without carriage returns. */
module Shipped {
  import opened Syntax
  import opened Chars
  import OperandText
  import Scanning
  import opened SourceText
  import opened Locals
  import opened Machine
  import opened TapeMachine
  import opened Positions
  import opened TextRuns
  import SumN
  import ProdCons
  import ProdConsRuns
  import Buffer

  /** A file that carries SumN, run from its text among any other files: with an argument of at
      most 65535 it ends after 4n + 8 turns and has printed the sum of 1 to n. */
  lemma {:induction false} SumFromText(fs: seq<File>, args: seq<Args>, r: Reel, s: Sys, turns: seq<Turn>, who: nat)
    requires Opening(fs, args, r, s) && who < |fs| && fs[who].code == SumN.Code()
    requires |args[who].args| == 2 && 0 <= args[who].args[1] <= SumN.LIMIT
    requires TurnsOf(turns, who) >= 4 * args[who].args[1] + 8
    ensures var c := Play(r, turns).tapes[who].core;
      && c.status.Finished? && c.error == None
      && c.out == [SumN.Hello(args[who]), SumN.Summing(args[who]), SumN.Result(args[who])]
  {
    hide Carries, Play, Run, SumN.Code;
    TextRunsAsLines(fs, args, r, s, turns);
    SumN.SumsUp(s, who, turns);
  }

  /** Files that carry producers and consumers, run from their texts over the globals that Init
      leaves: at every moment their globals are those of a run of the machine in which the items
      come out in the order in which they went in. */
  lemma {:induction false} FifoFromText(fs: seq<File>, args: seq<Args>, r: Reel, s: Sys, roles: seq<Buffer.Role>,
      n: nat, turns: seq<Turn>)
    requires Opening(fs, args, r, s) && ProdConsRuns.Begins(s, roles, n)
    ensures Play(r, turns).glob == Run(s, turns).glob
    ensures ProdConsRuns.Gots(s, turns) <= ProdConsRuns.Puts(s, turns)
    ensures |ProdConsRuns.Puts(s, turns)| - |ProdConsRuns.Gots(s, turns)| <= n
    ensures forall i | 0 <= i < |fs| :: Play(r, turns).tapes[i].core.out == Run(s, turns).procs[i].out
  {
    hide Carries, Play, Run, ProdConsRuns.Begins, ProdConsRuns.Gots, ProdConsRuns.Puts;
    TextRunsAsLines(fs, args, r, s, turns);
    ProdConsRuns.Fifo(s, roles, n, turns);
  }

  // ----- such files exist -----

  /** A line without more white space than needed. */
  function Tight(l: Line): Layout {
    Layout("", " ", seq(|ArgumentWords(l.instr)|, i requires 0 <= i < |ArgumentWords(l.instr)| => " "), "")
  }

  lemma TightFits(l: Line)
    ensures Fits(l, Tight(l))
  {}

  ghost predicate AllWellFormed(code: seq<Line>) {
    forall i | 0 <= i < |code| :: WellFormed(code[i])
  }

  function TightAll(code: seq<Line>): (ys: seq<Layout>)
    ensures |ys| == |code| && forall i | 0 <= i < |code| :: ys[i] == Tight(code[i]) && Fits(code[i], ys[i])
  {
    TightAllFits(code);
    seq(|code|, i requires 0 <= i < |code| => Tight(code[i]))
  }

  lemma TightAllFits(code: seq<Line>)
    ensures forall i | 0 <= i < |code| :: Fits(code[i], Tight(code[i]))
  {
    forall i | 0 <= i < |code| ensures Fits(code[i], Tight(code[i])) { TightFits(code[i]); }
  }

  /** The file in which a program is written that way. */
  function FileOf(code: seq<Line>): File {
    var ys := TightAll(code);
    File(Scanning.MAGIC + "" + "\n" + Source(code, ys, ""), "", code, ys, "")
  }

  lemma {:induction false} FileCarries(code: seq<Line>)
    requires AllWellFormed(code)
    ensures Carries(FileOf(code))
  {
    hide WellFormed, Fits, Source;
    var f := FileOf(code);
    assert f.code[0..] == code && f.ys[0..] == f.ys;
  }

  lemma VarWritable(n: string)
    requires OperandText.IsName(n) && |n| < 100
    ensures Writable(Var(n))
  {}

  lemma {:induction false} DigitWritable(k: nat)
    requires k < 10
    ensures Writable(Num(k))
  {
    assert Decimal(k) == [Digit(k)];
  }

  lemma {:induction false} ElemWritable(n: string, ix: Operand)
    requires OperandText.IsName(n) && OperandText.PrintableIndex(ix) && |n| + |OperandText.Print(ix)| < 100
    ensures Writable(Elem(n, ix))
  {
    hide OperandText.Print;
    assert OperandText.Print(Elem(n, ix)) == "$" + n + "[" + OperandText.Print(ix) + "]" by { ElemPrint(n, ix); }
  }

  lemma ElemPrint(n: string, ix: Operand)
    ensures OperandText.Print(Elem(n, ix)) == "$" + n + "[" + OperandText.Print(ix) + "]"
  {}

  /** The operands of the shipped producer and consumer. */
  predicate Used(x: Operand) {
    || (x.Num? && 0 <= x.value < 10)
    || (x.Var? && x.name in {"item", "argc", "free", "mtx", "in", "out", "k", "full"})
    || (x.Elem? && x.name == "argv" && x.index.Num? && 0 <= x.index.value < 10)
    || x == Elem("buf", Var("k"))
  }

  lemma {:induction false} UsedWritable(x: Operand)
    requires Used(x)
    ensures Writable(x)
  {
    match x
    case Num(v) => DigitWritable(v);
    case Var(n) => VarWritable(n);
    case Elem(n, ix) =>
      if ix.Num? {
        assert Decimal(ix.value) == [Digit(ix.value)];
        ElemWritable("argv", ix);
      } else {
        ElemWritable("buf", ix);
      }
  }

  predicate AllUsed(xs: seq<Operand>) {
    forall i | 0 <= i < |xs| :: Used(xs[i])
  }

  /** What makes a line with such operands well-formed. */
  predicate Tidy(l: Line) {
    && (l.tag.Some? ==> IsLabel(l.tag.value))
    && AllUsed(OperandsOf(l.instr))
    && (Jumps(l.instr) ==> IsLabel(l.instr.target))
    && (l.instr.Print? ==> IsText(l.instr.text))
    && (!l.instr.Print? ==> Suits(OperandsOf(l.instr), Scanning.Named(CodeOf(l.instr))))
  }

  lemma {:induction false} LineWellFormed(l: Line)
    requires Tidy(l)
    ensures WellFormed(l)
  {
    hide Used, Writable, IsLabel, IsText;
    forall i | 0 <= i < |OperandsOf(l.instr)|
      ensures Writable(OperandsOf(l.instr)[i])
    {
      UsedWritable(OperandsOf(l.instr)[i]);
    }
  }

  lemma ProducerTexts()
    ensures IsText("Wrong number of arguments") && IsText("Producer: produce ") && IsText("Producer: down free ")
    ensures IsText("Producer: put ") && IsText("Producer: up full ")
  {}

  lemma ConsumerTexts()
    ensures IsText("Wrong number of arguments") && IsText("Consumer: down full ") && IsText("Consumer: get ")
    ensures IsText("Consumer: up free ") && IsText("Consumer: consume ")
  {}

  lemma LoopIsLabel()
    ensures IsLabel("LOOP")
  {}

  lemma ProducerUses(i: nat)
    requires i < 20
    ensures AllUsed(OperandsOf(ProdCons.Code(Buffer.Producer)[i].instr))
  {}

  lemma {:induction false} ProducerTidy(i: nat)
    requires i < 20
    ensures Tidy(ProdCons.Code(Buffer.Producer)[i])
  {
    hide IsText, IsLabel, AllUsed;
    ProducerUses(i);
    ProducerTexts();
    LoopIsLabel();
  }

  lemma ConsumerUses(i: nat)
    requires i < 18
    ensures AllUsed(OperandsOf(ProdCons.Code(Buffer.Consumer)[i].instr))
  {}

  lemma {:induction false} ConsumerTidy(i: nat)
    requires i < 18
    ensures Tidy(ProdCons.Code(Buffer.Consumer)[i])
  {
    hide IsText, IsLabel, AllUsed;
    ConsumerUses(i);
    ConsumerTexts();
    LoopIsLabel();
  }

  lemma {:induction false} ShippedWellFormed(role: Buffer.Role)
    ensures AllWellFormed(ProdCons.Code(role))
  {
    hide WellFormed, Tidy, ProdCons.Code;
    forall i | 0 <= i < |ProdCons.Code(role)| ensures WellFormed(ProdCons.Code(role)[i]) {
      if role.Producer? { ProducerTidy(i); } else { ConsumerTidy(i); }
      LineWellFormed(ProdCons.Code(role)[i]);
    }
  }

  /** Any number of producers and consumers can be written to files and opened. */
  lemma {:induction false} ShippedOpen(roles: seq<Buffer.Role>, args: seq<Args>, glob: Globals.Store)
      returns (fs: seq<File>, r: Reel, s: Sys)
    requires |args| == |roles|
    ensures Opening(fs, args, r, s) && s.glob == glob
    ensures |s.procs| == |roles| && forall i | 0 <= i < |roles| :: s.procs[i] == Start(ProdCons.Code(roles[i]), args[i])
  {
    hide ProdCons.Code, FileOf, Carries, Scanning.Magic;
    forall i | 0 <= i < |roles| ensures OpensAs(FileOf(ProdCons.Code(roles[i])), ProdCons.Code(roles[i])) {
      ShippedWellFormed(roles[i]);
      FileOpens(ProdCons.Code(roles[i]));
    }
    fs := seq(|roles|, i requires 0 <= i < |roles| => FileOf(ProdCons.Code(roles[i])));
    assert forall i | 0 <= i < |fs| :: OpensAs(fs[i], ProdCons.Code(roles[i]));
    r := Reel(glob, seq(|roles|, i requires 0 <= i < |roles| => Opened(fs[i], args[i])));
    s := Sys(glob, seq(|roles|, i requires 0 <= i < |roles| => Start(ProdCons.Code(roles[i]), args[i])));
  }

  ghost predicate OpensAs(f: File, code: seq<Line>) {
    Carries(f) && f.code == code && Scanning.Magic(f.text).Opened?
  }

  lemma {:induction false} FileOpens(code: seq<Line>)
    requires AllWellFormed(code)
    ensures OpensAs(FileOf(code), code)
  {
    FileCarries(code);
    hide Scanning.Magic, Carries;
    MagicAccepted(FileOf(code));
  }
}
