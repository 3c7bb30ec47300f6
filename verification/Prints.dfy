/** The language of PRINT lines: a string in quotes, on this or on a later line, and operands on
    the rest of its line. */
module Prints {
  import opened Syntax
  import opened Chars
  import opened OperandText
  import opened Scanning
  import opened Grammar
  import SourceText

  /** The line does not run into the end of the file with its last word. */
  predicate Ended(s: string) {
    '\n' in s || (s != "" && IsSpace(s[|s| - 1]))
  }

  lemma {:induction false} EndedBehind(s: string, n: nat)
    requires n <= |s| && (forall i | 0 <= i < n :: s[i] != '\n') && (0 < n == |s| ==> !IsSpace(s[n - 1]))
    ensures Ended(s[n..]) <==> Ended(s)
  {
    if '\n' in s {
      var i :| 0 <= i < |s| && s[i] == '\n';
      assert s[n..][i - n] == '\n';
    }
  }

  lemma {:induction false} EndedSkip(s: string)
    requires Skip(s) != "" && !Crosses(s)
    ensures Ended(Skip(s)) <==> Ended(s)
  {
    NoNewline(s);
    hide Ended, Crosses, IsSpace;
    EndedBehind(s, |s| - |Skip(s)|);
  }

  lemma {:induction false} NoNewline(s: string)
    requires !Crosses(s)
    ensures forall i | 0 <= i < |s| - |Skip(s)| :: s[i] != '\n'
  {
    hide Crosses;
    forall i | 0 <= i < |s| - |Skip(s)| ensures s[i] != '\n' {
      if s[i] == '\n' { CrossesAt(s, i); }
    }
  }

  lemma {:induction false} CrossesAt(s: string, i: nat)
    requires i < |s| && s[i] == '\n' && forall j | 0 <= j < i :: IsSpace(s[j])
    ensures Crosses(s)
  {
    if i > 0 { CrossesAt(s[1..], i - 1); }
  }

  lemma {:induction false} FetchEnded(s: string, last: bool)
    requires Words(s) != [] && |Words(s)[0]| <= 126
    ensures var f := Fetch(s, last, true);
      f.Fetched? && (Ended(f.ahead) <==> Ended(s))
  {
    hide Words, EndOf, Ended, Crosses, Skip, WordLength, IsSpace;
    WordsSkip(s);
    EndedSkip(s);
    EndedWord(Skip(s));
    FetchAfterSpace(s, last);
  }

  /** Nothing in a word ends a line. */
  lemma {:induction false} EndedWord(t: string)
    requires t != "" && !IsSpace(t[0])
    ensures Ended(t[WordLength(t)..]) <==> Ended(t)
    ensures Words(t) != [] && |Words(t)[0]| == WordLength(t)
  {
    WordAhead(t);
    hide Ended, EndOf, Words;
    EndedBehind(t, WordLength(t));
  }

  lemma FetchAfterSpace(s: string, last: bool)
    requires Skip(s) != "" && !Crosses(s) && WordLength(Skip(s)) <= 126
    ensures s != "" && s[0] != '\n' && !IsSpace(Skip(s)[0])
    ensures Fetch(s, last, true).Fetched? && Fetch(s, last, true).ahead == Skip(s)[WordLength(Skip(s))..]
  {}

  lemma {:induction false} NothingEnded(s: string)
    requires Words(s) == [] && s != ""
    ensures Ended(s)
  {
    if s[0] != '\n' && s[1..] != "" {
      NothingEnded(s[1..]);
      EndedBehind(s, 1);
    }
  }

  /** The operands of a PRINT are all the words of the rest of the line. */
  lemma {:induction false} ArgumentsRead(s: string, last: bool, xs: seq<Operand>)
    ensures var r := ScanArguments(s, last);
      r.Done? && Operands(r.tokens, xs) <==> ReadAs(Words(s), xs) && Ended(s)
    decreases |s|
  {
    hide Fetch, Parse, Words, EndOf, Ended;
    FetchOnLine(s, last);
    NoEofOperand();
    var f, ws := Fetch(s, last, true), Words(s);
    if s == "" {
      NothingHere();
    } else if ws == [] {
      NothingEnded(s);
    } else if |ws[0]| <= 126 {
      FetchEnded(s, last);
      if Parse(ws[0]).Some? {
        var t := ScanArguments(f.ahead, f.last);
        if xs != [] {
          ArgumentsRead(f.ahead, f.last, xs[1..]);
          ReadAsStep(ws, xs);
          if t.Done? { OperandsStep(OperandTok(Parse(ws[0]).value), t.tokens, xs); }
          hide Operands, ReadAs;
        }
      }
    }
  }

  lemma NothingHere()
    ensures Words("") == [] && !Ended("")
  {}

  lemma {:induction false} ReadAsStep(ws: seq<string>, xs: seq<Operand>)
    requires ws != [] && xs != []
    ensures ReadAs(ws, xs) <==> Reads(ws[0], xs[0]) && ReadAs(ws[1..], xs[1..])
  {
    hide Reads;
    if ReadAs(ws[1..], xs[1..]) && Reads(ws[0], xs[0]) {
      forall i | 1 <= i < |xs| ensures Reads(ws[i], xs[i]) { assert Reads(ws[1..][i - 1], xs[1..][i - 1]); }
    }
  }

  lemma {:induction false} AfterStringRead(v: string, last: bool, xs: seq<Operand>)
    ensures var r := ScanAfterString(v, last);
      r.Done? && Operands(r.tokens, xs) <==> ReadAs(Words(v), xs) && (xs != [] ==> Ended(v))
  {
    hide Words, EndOf, Ended, ScanArguments;
    WordsSkip(v);
    if Words(v) != [] {
      ArgumentsRead(Skip(v), last, xs);
      EndedSkip(v);
    }
  }

  // ----- the string -----

  predicate IsText(t: string) {
    |t| <= 1022 && forall i | 0 <= i < |t| :: IsPrint(t[i]) && t[i] != '\"'
  }

  lemma {:induction false} StringParts(s: string, read: string) returns (text: string)
    requires |read| <= 1023 && ScanString(s, read).Quoted?
    requires forall i | 0 <= i < |read| :: IsPrint(read[i]) && read[i] != '\"'
    ensures var q := ScanString(s, read);
      q.text == read + text && s == text + "\"" + q.ahead && IsText(q.text)
    decreases |s|
  {
    if s[0] == '\"' {
      text := "";
    } else {
      var more := StringParts(s[1..], read + [s[0]]);
      text := [s[0]] + more;
      assert s == [s[0]] + s[1..];
    }
  }

  lemma {:induction false} StringRead(s: string, text: string, v: string)
    ensures ScanString(s, "") == Quoted(text, v) <==>
      s == text + "\"" + v && IsText(text) && v != "" && IsSpace(v[0])
  {
    if ScanString(s, "").Quoted? {
      var t := StringParts(s, "");
      assert "" + t == t;
    }
    if s == text + "\"" + v && IsText(text) && v != "" && IsSpace(v[0]) {
      SourceText.StringScanned(text, v, "");
      assert "" + text == text;
    }
  }

  /** What stands behind the word PRINT: white space, over as many lines as it likes, the string
      between two quotes, and the operands. */
  predicate PrintParts(u: string, text: string, xs: seq<Operand>, gap: string, v: string) {
    && u == gap + "\"" + text + "\"" + v && gap != "" && (forall i | 0 <= i < |gap| :: IsSpace(gap[i]))
    && IsText(text) && v != "" && IsSpace(v[0]) && ReadAs(Words(v), xs) && (xs != [] ==> Ended(v))
  }

  ghost predicate SaysPrint(u: string, text: string, xs: seq<Operand>) {
    exists gap, v :: PrintParts(u, text, xs, gap, v)
  }

  lemma {:induction false} GapSkipped(gap: string, q: string)
    requires gap != "" && (forall i | 0 <= i < |gap| :: IsSpace(gap[i])) && q != "" && !IsSpace(q[0])
    ensures Skip(Behind(gap + q)) == q
  {
    assert Behind(gap + q) == gap[1..] + q;
    SourceText.SkipSpace(gap[1..], q);
  }

  lemma Quote(gap: string, text: string, v: string)
    ensures gap + "\"" + text + "\"" + v == gap + (['\"'] + (text + "\"" + v))
  {}

  lemma BehindFirst(c: char, s: string)
    ensures Behind([c] + s) == s && ([c] + s)[0] == c
  {}

  lemma NoSpace()
    ensures !IsSpace('\"')
  {}

  /** The tokens of a PRINT, without its name. */
  ghost predicate Prints(r: Scanned, text: string, xs: seq<Operand>) {
    r.Done? && |r.tokens| > 0 && r.tokens[0] == StringTok(text) && Operands(r.tokens[1..], xs)
  }

  lemma {:induction false} PrintsIs(r: Scanned, text: string, t: string, xs: seq<Operand>)
    ensures Prints(Prepend(StringTok(t), r), text, xs) <==> r.Done? && t == text && Operands(r.tokens, xs)
  {
    hide Operands;
    if r.Done? { assert ([StringTok(t)] + r.tokens)[1..] == r.tokens; }
  }

  lemma {:induction false} PrintScanned(u: string, last: bool, text: string, xs: seq<Operand>, gap: string, v: string)
    requires PrintParts(u, text, xs, gap, v)
    ensures Prints(ScanPrint(u, last), text, xs)
  {
    hide Words, Ended, ReadAs, IsText, Skip, ScanString, ScanAfterString, Operands, IsPrint, IsSpace, Behind, Prints;
    var inside := text + "\"" + v;
    Quote(gap, text, v);
    BehindFirst('\"', inside);
    NoSpace();
    GapSkipped(gap, ['\"'] + inside);
    StringRead(inside, text, v);
    AfterStringRead(v, last, xs);
    PrintsIs(ScanAfterString(v, last), text, text, xs);
  }

  lemma {:induction false} PrintFound(u: string, last: bool, text: string, xs: seq<Operand>)
    requires Pauses(u) && Prints(ScanPrint(u, last), text, xs)
    ensures SaysPrint(u, text, xs)
  {
    hide Words, Ended, ReadAs, IsText, Skip, ScanString, ScanAfterString, Operands, IsSpace, Behind, Prints;
    var t := Skip(Behind(u));
    var q := ScanString(Behind(t), "");
    FailedPrints(text, xs);
    PrintsIs(ScanAfterString(q.ahead, last), text, q.text, xs);
    StringRead(Behind(t), text, q.ahead);
    AfterStringRead(q.ahead, last, xs);
    var gap := u[..|u| - |t|];
    SkipParts(u);
    FirstOf(t);
    Quote(gap, text, q.ahead);
    assert PrintParts(u, text, xs, gap, q.ahead);
  }

  lemma FailedPrints(text: string, xs: seq<Operand>)
    ensures !Prints(Failed, text, xs)
  {}

  lemma FirstOf(t: string)
    requires t != ""
    ensures t == [t[0]] + Behind(t)
  {}

  lemma {:induction false} PrintRead(u: string, last: bool, text: string, xs: seq<Operand>)
    requires Pauses(u)
    ensures Prints(ScanPrint(u, last), text, xs) <==> SaysPrint(u, text, xs)
  {
    hide ScanPrint, Prints, PrintParts, Pauses;
    if Prints(ScanPrint(u, last), text, xs) { PrintFound(u, last, text, xs); }
    if SaysPrint(u, text, xs) {
      var gap, v :| PrintParts(u, text, xs, gap, v);
      PrintScanned(u, last, text, xs, gap, v);
    }
  }

  lemma {:induction false} SkipParts(u: string)
    requires Pauses(u) && Skip(Behind(u)) != ""
    ensures var n := |u| - |Skip(Behind(u))|;
      0 < n <= |u| && u == u[..n] + Skip(Behind(u)) && forall i | 0 <= i < n :: IsSpace(u[..n][i])
  {
    var w, t := Behind(u), Skip(Behind(u));
    var n := |u| - |t|;
    assert t == w[|w| - |t|..] == u[n..];
    forall i | 1 <= i < n ensures IsSpace(u[i]) { assert u[i] == w[i - 1]; }
    hide Skip;
  }

  // ----- the line -----

  /** The text behind the next word. */
  function AfterWord(s: string): string {
    Skip(s)[WordLength(Skip(s))..]
  }

  lemma {:induction false} FetchAfter(s: string, last: bool)
    ensures Skip(s) != "" ==> Words(Skip(s)) != []
    ensures Skip(s) != "" && |Words(Skip(s))[0]| <= 126 ==>
      Fetch(s, last, false).Fetched? && Fetch(s, last, false).ahead == AfterWord(s)
    ensures Words(s) != [] && |Words(s)[0]| <= 126 ==>
      Fetch(s, last, true).Fetched? && Fetch(s, last, true).ahead == AfterWord(s)
  {
    if Skip(s) != "" { WordAhead(Skip(s)); }
    WordsSkip(s);
    hide Words, Skip, Crosses, WordLength;
  }

  lemma {:induction false} ArgumentsAre(ts: seq<Token>, xs: seq<Operand>)
    ensures ReadArguments(ts) == Some(xs) <==> Operands(ts, xs)
  {
    if ts != [] {
      assert ts == [ts[0]] + ts[1..];
      if xs != [] {
        ArgumentsAre(ts[1..], xs[1..]);
        OperandsStep(ts[0], ts[1..], xs);
        assert xs == [xs[0]] + xs[1..];
      }
      hide Operands;
    }
  }

  lemma {:induction false} PrintTokens(ts: seq<Token>, l: Line)
    ensures ReadLine([InstrTok(PrintOp)] + ts) == Reading(l, []) <==>
      l.tag == None && l.instr.Print? && ts != [] && ts[0] == StringTok(l.instr.text) && Operands(ts[1..], l.instr.args)
  {
    hide ReadArguments, Operands;
    assert ([InstrTok(PrintOp)] + ts)[1..] == ts;
    if ts != [] && l.instr.Print? { ArgumentsAre(ts[1..], l.instr.args); }
    if ts != [] && ReadArguments(ts[1..]).Some? { ArgumentsAre(ts[1..], ReadArguments(ts[1..]).value); }
  }

  lemma PrintIsName(s: string, last: bool)
    ensures ScanNamed("PRINT", s, last) == Prepend(InstrTok(PrintOp), ScanPrint(s, last))
    ensures !IsLabel("PRINT") && CheckLabel("PRINT").NoLabel?
  {
    InstructionNames("PRINT");
    hide ScanPrint;
  }

  lemma {:induction false} BarePrint(u: string, last: bool, l: Line)
    requires Pauses(u)
    ensures var r := ScanNamed("PRINT", u, last);
      r.Done? && ReadLine(r.tokens) == Reading(l, []) <==>
        l.tag == None && l.instr.Print? && SaysPrint(u, l.instr.text, l.instr.args)
  {
    hide ScanPrint, SaysPrint, Operands, ReadLine, ScanNamed;
    PrintIsName(u, last);
    var r := ScanPrint(u, last);
    if r.Done? { PrintTokens(r.tokens, l); }
    if l.instr.Print? { PrintRead(u, last, l.instr.text, l.instr.args); }
  }

  /** How the tokenizer comes to the text behind the name. */
  lemma {:induction false} BareStart(s: string)
    requires Skip(s) != "" && Words(Skip(s))[0] == "PRINT"
    ensures Pauses(AfterWord(s)) && exists last :: Tokenize(s, false) == ScanNamed("PRINT", AfterWord(s), last)
  {
    hide Words, AfterWord, Fetch, ScanNamed, EndOf, Pauses, CheckLabel, Skip;
    FetchFirst(s);
    FetchAfter(s, false);
    NameStarts(s, Fetch(s, false, false));
  }

  lemma {:induction false} NameStarts(s: string, f: Fetched)
    requires f == Fetch(s, false, false) && f.Fetched? && f.word == "PRINT"
    ensures Tokenize(s, false) == ScanNamed("PRINT", f.ahead, f.last)
  {
    hide Fetch, ScanNamed, CheckLabel;
    PrintIsName("", false);
  }

  lemma {:induction false} LabelledStart(s: string)
    requires var ws := Words(Skip(s)); Skip(s) != "" && IsLabel(ws[0]) && |ws| > 1 && ws[1] == "PRINT"
    ensures Pauses(AfterWord(AfterWord(s)))
    ensures exists last, left ::
      (Tokenize(s, false) ==
       Prepend(LabelTok(Words(Skip(s))[0], left), ScanNamed("PRINT", AfterWord(AfterWord(s)), last)))
  {
    hide Words, Skip, AfterWord, Fetch, ScanNamed, EndOf, IsLabel, CheckLabel, Lookup;
    var ws := Words(Skip(s));
    LabelIsShort(ws[0]);
    FetchFirst(s);
    FetchAfter(s, false);
    NamesAndLabels(ws[0]);
    var f := Fetch(s, false, false);
    FetchOnLine(f.ahead, f.last);
    FetchAfter(f.ahead, f.last);
    var g := Fetch(f.ahead, f.last, true);
    assert ws[1..][0] == "PRINT";
    assert Tokenize(s, false) ==
      Prepend(LabelTok(ws[0], Scanning.Left(f.ahead)), ScanNamed("PRINT", AfterWord(AfterWord(s)), g.last));
  }

  /** The label, if there is one, and what stands behind the word PRINT. */
  ghost predicate SaysPrintLine(s: string, l: Line)
    requires Skip(s) != "" && Command(Words(Skip(s))) == "PRINT"
  {
    var first := Words(Skip(s))[0];
    && l.instr.Print? && l.tag == (if IsLabel(first) then Some(first) else None)
    && SaysPrint(if IsLabel(first) then AfterWord(AfterWord(s)) else AfterWord(s), l.instr.text, l.instr.args)
  }

  /** The language of PRINT lines: the text is read as a line exactly if a string and operands
      stand behind the name of the instruction, to the end of the line - and the file does not
      end right behind an operand. */
  lemma {:induction false} PrintLanguage(s: string, l: Line)
    requires Skip(s) != "" && Command(Words(Skip(s))) == "PRINT"
    ensures var r := Tokenize(s, false);
      r.Done? && ReadLine(r.tokens) == Reading(l, []) <==> SaysPrintLine(s, l)
  {
    hide Words, Skip, AfterWord, ScanNamed, ReadLine, SaysPrint, IsLabel, Tokenize, Pauses;
    var first := Words(Skip(s))[0];
    if !IsLabel(first) {
      BareStart(s);
      var last :| Tokenize(s, false) == ScanNamed("PRINT", AfterWord(s), last);
      BarePrint(AfterWord(s), last, l);
    } else {
      LabelledStart(s);
      var u := AfterWord(AfterWord(s));
      var last, left :| Tokenize(s, false) == Prepend(LabelTok(first, left), ScanNamed("PRINT", u, last));
      BarePrint(u, last, l.(tag := None));
      var t := ScanNamed("PRINT", u, last);
      PrintBegins(u, last);
      if t.Done? {
        ReadTagged(first, left, t.tokens);
        BareTag(t);
      }
    }
  }

  lemma PrintBegins(u: string, last: bool)
    ensures var t := ScanNamed("PRINT", u, last);
      t.Done? ==> t.tokens != [] && t.tokens[0].InstrTok?
  {
    PrintIsName(u, last);
  }

  lemma LabelIsShort(w: string)
    requires IsLabel(w)
    ensures 2 <= |w| <= 126
  {}
}
