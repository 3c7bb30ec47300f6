/** Every line that can be read can be written: what the tokenizer accepts is within the
    limits of what SourceText writes, so an accepted program may be laid out anew. */
module Reformat {
  import opened Syntax
  import opened Chars
  import opened OperandText
  import opened Scanning
  import opened SourceText

  // ----- operands -----

  lemma {:induction false} UnsignedBelow(d: string)
    requires AllDigits(d)
    ensures 0 <= Unsigned(d) < Power10(|d|)
  {
    if d != "" { UnsignedBelow(d[..|d| - 1]); }
  }

  lemma {:induction false} PowerGrows(j: nat, k: nat)
    requires j <= k
    ensures Power10(j) <= Power10(k)
    decreases k - j
  {
    if j < k { PowerGrows(j, k - 1); }
  }

  lemma {:induction false} UnsignedShort(d: string)
    requires AllDigits(d) && d != ""
    ensures Unsigned(d) >= 0 && |Decimal(Unsigned(d))| <= |d|
  {
    UnsignedBelow(d);
    DecimalLength(Unsigned(d), |d|);
  }

  /** A number is printed with no more characters than it was written with. */
  lemma {:induction false} NumberShort(d: string)
    requires IsNumber(d)
    ensures -(NUMBERS / 10) < Atoi(d) < NUMBERS && |Signed(Atoi(d))| <= |d|
    ensures IsNumeral(d) ==> 0 <= Atoi(d)
  {
    assert Power10(8) == 100000000 && Power10(9) == 1000000000;
    if d[0] == '-' {
      var t := d[1..];
      UnsignedBelow(t);
      PowerGrows(|t|, 8);
      if t != "" { UnsignedShort(t); }
    } else {
      assert AllDigits(d);
      UnsignedBelow(d);
      PowerGrows(|d|, 9);
      UnsignedShort(d);
    }
  }

  lemma {:induction false} ProperShort(x: Spelling)
    requires Proper(x)
    ensures PrintableIndex(Meaning(x)) && |Opening(Spell(Meaning(x)))| <= |Opening(x)|
    ensures Brackets(Spell(Meaning(x))) == Brackets(x)
  {
    match x
    case Digits(d) => NumberShort(d);
    case Name(_) =>
    case Indexed(_, ix) => ProperShort(ix);
  }

  lemma {:induction false} CountShort(c: char, s: string)
    ensures Count(c, s) <= |s|
  {
    if s != "" { CountShort(c, s[1..]); }
  }

  /** What was read as an operand can be written as one. */
  lemma {:induction false} ParsedWritable(w: string)
    requires IsWord(w) && |w| < MAX_WORD && Parse(w).Some?
    ensures Writable(Parse(w).value) && (Parse(w).value.Num? ==> LooksNumeric(w))
  {
    hide Parse, Signed, Atoi, IsWord;
    var x := ParseSound(w);
    SpellMeans(Meaning(x));
    match x
    case Digits(d) => NumberShort(d);
    case Name(_) =>
    case Indexed(_, _) =>
      ProperShort(x);
      OpeningHasNoBracket(x);
      var h := Opening(x);
      assert w == h + w[|h|..];
      CountConcat(']', h, w[|h|..]);
      CountNone(']', h);
      CountShort(']', w[|h|..]);
      ClosingCount(Brackets(x));
  }

  // ----- lines -----

  /** Text files hold no NUL. */
  predicate Clean(s: string) {
    '\0' !in s
  }

  lemma {:induction false} FetchClean(s: string, last: bool, thisLine: bool)
    requires Clean(s)
    ensures var f := Fetch(s, last, thisLine);
      f.Fetched? ==> IsWord(f.word) && |f.word| < MAX_WORD && Clean(f.ahead)
  {
    hide Skip, WordLength, Crosses;
  }

  lemma {:induction false} OperandsWritable(s: string, last: bool, named: seq<bool>)
    requires Clean(s) && ScanOperands(s, last, named).Done?
    ensures var r := ScanOperands(s, last, named);
      && Takes(r.tokens, |named|) && |r.tokens| == |named| && Clean(r.ahead)
      && forall i | 0 <= i < |named| :: Writable(r.tokens[i].operand) && (named[i] ==> !r.tokens[i].operand.Num?)
    decreases |named|
  {
    hide Fetch, Parse, Writable, IsWord, LooksNumeric;
    if named != [] {
      var f := Fetch(s, last, true);
      FetchClean(s, last, true);
      ParsedWritable(f.word);
      OperandsWritable(f.ahead, f.last, named[1..]);
    }
  }

  lemma {:induction false} ArgumentsWritable(s: string, last: bool)
    requires Clean(s) && ScanArguments(s, last).Done?
    ensures var r := ScanArguments(s, last);
      && Clean(r.ahead) && ReadArguments(r.tokens).Some? && AllWritable(ReadArguments(r.tokens).value)
    decreases |s|
  {
    hide Fetch, Parse, Writable, IsWord, ReadArguments;
    var f := Fetch(s, last, true);
    FetchClean(s, last, true);
    if f.word == "" {
      NoArguments();
    } else {
      ParsedWritable(f.word);
      ArgumentsWritable(f.ahead, f.last);
      ReadArgumentsCons(Parse(f.word).value, ScanArguments(f.ahead, f.last).tokens);
    }
  }

  lemma CheckedLabel(w: string)
    requires |w| < MAX_WORD && CheckLabel(w).GoodLabel?
    ensures IsLabel(w)
  {}

  lemma {:induction false} EndClean(s: string)
    requires Clean(s) && LineEnd(s).Some?
    ensures Clean(LineEnd(s).value)
    decreases |s|
  {
    if s != "" && s[0] != '\n' && s[1..] != "" { EndClean(s[1..]); }
  }

  lemma {:induction false} StringText(s: string, read: string)
    requires Clean(s) && |read| <= MAX_TEXT && ScanString(s, read).Quoted?
    requires forall i | 0 <= i < |read| :: IsPrint(read[i]) && read[i] != '\"'
    ensures IsText(ScanString(s, read).text) && Clean(ScanString(s, read).ahead)
    decreases |s|
  {
    if s[0] != '\"' { StringText(s[1..], read + [s[0]]); }
  }

  lemma {:induction false} SkipClean(s: string)
    requires Clean(s)
    ensures Clean(Skip(s)) && Clean(Behind(s))
  {
    hide Skip;
  }

  lemma {:induction false} PrintWritable(s: string, last: bool)
    requires Clean(s) && ScanPrint(s, last).Done?
    ensures var r := ScanPrint(s, last);
      && Clean(r.ahead) && |r.tokens| > 0 && r.tokens[0].StringTok? && IsText(r.tokens[0].text)
      && ReadArguments(r.tokens[1..]).Some? && AllWritable(ReadArguments(r.tokens[1..]).value)
  {
    hide Skip, Crosses, ScanArguments, ScanString, Clean, IsText, AllWritable, ReadArguments;
    var r := ScanPrint(s, last);
    SkipClean(s);
    SkipClean(Behind(s));
    var t := Skip(Behind(s));
    SkipClean(t);
    assert Clean("") by { NothingClean(); }
    StringText(Behind(t), "");
    var q := ScanString(Behind(t), "");
    SkipClean(q.ahead);
    var a := ScanAfterString(q.ahead, last);
    assert r.tokens[1..] == a.tokens;
    if Skip(q.ahead) == "" || Crosses(q.ahead) {
      NoArguments();
      assert AllWritable([]) by { NothingWritable(); }
    } else {
      ArgumentsWritable(Skip(q.ahead), last);
    }
  }

  lemma NothingClean()
    ensures Clean("")
  {}

  lemma NothingWritable()
    ensures AllWritable([])
  {}

  lemma {:induction false} TargetWritable(s: string, last: bool)
    requires Clean(s) && ScanTarget(s, last).Done?
    ensures var r := ScanTarget(s, last);
      Clean(r.ahead) && |r.tokens| == 1 && r.tokens[0].LabelTok? && IsLabel(r.tokens[0].name)
  {
    hide Fetch, CheckLabel, LineEnd, Clean, IsLabel;
    var f := Fetch(s, last, true);
    FetchClean(s, last, true);
    CheckedLabel(f.word);
    EndClean(f.ahead);
  }

  /** An instruction that was read can be written. */
  lemma {:induction false} InstructionWritable(tag: Option<string>, code: Opcode, s: string, last: bool)
    requires Clean(s) && ScanInstruction(code, s, last).Done?
    ensures var r := ScanInstruction(code, s, last);
      Clean(r.ahead) && ReadInstruction(tag, code, r.tokens).Reading?
      && WellFormed(Line(None, ReadInstruction(tag, code, r.tokens).line.instr))
  {
    hide ScanOperands, ScanTarget, ScanPrint, LineEnd, Clean, IsText, IsLabel, Writable, ReadArguments;
    InstructionMatches(tag, code, s, last);
    if code.PrintOp? {
      PrintWritable(s, last);
    } else if !code.ReturnOp? {
      OperandsWritable(s, last, Named(code));
      var a := ScanOperands(s, last, Named(code));
      if code.BranchOp? || code.BraOp? {
        TargetWritable(a.ahead, a.last);
      } else {
        EndClean(a.ahead);
      }
    }
  }

  /** A line that was read can be written. */
  lemma {:induction false} LineWritable(s: string, last: bool)
    requires Clean(s) && Tokenize(s, last).Done? && Tokenize(s, last).tokens != []
    ensures var r := Tokenize(s, last);
      Clean(r.ahead) && ReadLine(r.tokens).Reading? && WellFormed(ReadLine(r.tokens).line)
  {
    hide Fetch, CheckLabel, Lookup, ScanInstruction, ReadInstruction, Clean, IsLabel, AllWritable, IsText, Suits;
    var r := Tokenize(s, last);
    var f := Fetch(s, last, false);
    FetchClean(s, last, false);
    if CheckLabel(f.word).NoLabel? {
      var code := Lookup(f.word).value;
      InstructionWritable(None, code, f.ahead, f.last);
      assert r.tokens[1..] == ScanInstruction(code, f.ahead, f.last).tokens;
      ReadTag("", code, r.tokens[1..]);
    } else {
      CheckedLabel(f.word);
      var g := Fetch(f.ahead, f.last, true);
      FetchClean(f.ahead, f.last, true);
      var code := Lookup(g.word).value;
      InstructionWritable(Some(f.word), code, g.ahead, g.last);
      assert r.tokens[2..] == ScanInstruction(code, g.ahead, g.last).tokens;
      ReadTag(f.word, code, r.tokens[2..]);
    }
  }

  lemma ReadTag(tag: string, code: Opcode, ts: seq<Token>)
    ensures ReadInstruction(Some(tag), code, ts).Reading? ==> ReadInstruction(Some(tag), code, ts).line.tag == Some(tag)
    ensures ReadInstruction(None, code, ts).Reading? ==> ReadInstruction(None, code, ts).line.tag == None
  {}

  // ----- programs -----

  lemma {:induction false} AcceptedWritable(s: string, i: nat)
    requires Clean(s) && ReadAll(s).Some? && i < |ReadAll(s).value|
    ensures WellFormed(ReadAll(s).value[i])
    decreases |s|
  {
    hide Tokenize, ReadLine, WellFormed, Clean;
    var r := Tokenize(s, false);
    TokenizeShrinks(s, false);
    LineWritable(s, false);
    if i > 0 && !r.last { AcceptedWritable(r.ahead, i - 1); }
  }

  /** An accepted program keeps its lines when it is written anew in any layout, unless its
      new layout leaves a PRINT dangling at the end. */
  lemma {:induction false} Reformatting(s: string, ys: seq<Layout>, coda: string)
    requires Clean(s) && ReadAll(s).Some? && |ys| == |ReadAll(s).value| && AllSpace(coda)
    requires forall i | 0 <= i < |ys| :: Fits(ReadAll(s).value[i], ys[i])
    ensures var ls := ReadAll(s).value;
      ReadAll("\n" + Source(ls, ys, coda)) == if Dangles(ls, ys) then None else Some(ls)
  {
    hide ReadAll, WellFormed, Fits, Source;
    var ls := ReadAll(s).value;
    forall i | 0 <= i < |ls| ensures WellFormed(ls[i]) { AcceptedWritable(s, i); }
    RoundTrip(ls, ys, coda);
  }
}
