/** How the scanner reads an operand word, and exactly which words it accepts. */
module OperandText {
  import opened Syntax
  import opened Chars

  const MAX_NAME: nat := 128
  const MAX_NUMBER: nat := 9

  /** A character of the input buffer; the word is followed by a NUL. */
  function At(w: string, i: nat): char {
    if i < |w| then w[i] else '\0'
  }

  /** Words are read up to white space, and text files hold no NUL. */
  predicate IsWord(w: string) {
    forall i | 0 <= i < |w| :: w[i] != '\0' && !IsSpace(w[i])
  }

  /** Where the scan of a name that starts with the dollar sign of `w` ends: at the stop character, at
      an opening bracket, at a character that no name contains, or at the length limit. */
  function NameEnd(w: string, i: nat, stop: char): (e: nat)
    requires 2 <= i <= |w|
    ensures i <= e <= |w|
    decreases |w| - i
  {
    if At(w, i) == stop || At(w, i) == '[' || !IsAlnum(At(w, i)) || i >= 2 + 127 then i else NameEnd(w, i + 1, stop)
  }

  /** The same for the digits of a number. */
  function NumberEnd(w: string, i: nat, stop: char): (e: nat)
    requires 1 <= i <= |w|
    ensures i <= e <= |w|
    decreases |w| - i
  {
    if At(w, i) == stop || !IsDigit(At(w, i)) || i >= MAX_NUMBER then i else NumberEnd(w, i + 1, stop)
  }

  /** An index, and how many brackets were open at its end. */
  datatype Index = Index(operand: Operand, depth: nat) | NoIndex

  /** The index at the beginning of `w`, which runs up to a closing bracket. */
  function ParseIndex(w: string, depth: nat): Index
    decreases |w|
  {
    if At(w, 0) == '$' then
      if !IsAlpha(At(w, 1)) then NoIndex
      else
        var i := NameEnd(w, 2, ']');
        var name := w[1..i];
        if At(w, i) == ']' then Index(Var(name), depth)
        else if At(w, i) == '[' then
          var ix := ParseIndex(w[i + 1..], depth + 1);
          if ix.Index? then Index(Elem(name, ix.operand), ix.depth) else NoIndex
        else NoIndex
    else if IsDigit(At(w, 0)) then
      var i := NumberEnd(w, 1, ']');
      if At(w, i) == ']' then Index(Num(Atoi(w[..i])), depth) else NoIndex
    else NoIndex
  }

  /** A whole operand word. The brackets are only counted: as many must close as open. */
  function Parse(w: string): Option<Operand> {
    if At(w, 0) == '$' then
      if !IsAlpha(At(w, 1)) then None
      else
        var i := NameEnd(w, 2, '\0');
        var name := w[1..i];
        if At(w, i) == '\0' then Some(Var(name))
        else if At(w, i) == '[' then
          var ix := ParseIndex(w[i + 1..], 1);
          if ix.Index? && Count(']', w[i + 1..]) == ix.depth then Some(Elem(name, ix.operand)) else None
        else None
    else if At(w, 0) == '-' || IsDigit(At(w, 0)) then
      var i := NumberEnd(w, 1, '\0');
      if At(w, i) == '\0' then Some(Num(Atoi(w))) else None
    else None
  }

  /** Both, for a word that begins with a name. */
  lemma IndexOfName(w: string, depth: nat)
    requires At(w, 0) == '$' && IsAlpha(At(w, 1))
    ensures var i := NameEnd(w, 2, ']');
      ParseIndex(w, depth) ==
        if At(w, i) == ']' then Index(Var(w[1..i]), depth)
        else if At(w, i) == '[' then
          var ix := ParseIndex(w[i + 1..], depth + 1);
          if ix.Index? then Index(Elem(w[1..i], ix.operand), ix.depth) else NoIndex
        else NoIndex
  {}

  lemma OperandOfName(w: string)
    requires At(w, 0) == '$' && IsAlpha(At(w, 1))
    ensures var i := NameEnd(w, 2, '\0');
      Parse(w) ==
        if At(w, i) == '\0' then Some(Var(w[1..i]))
        else if At(w, i) == '[' then
          var ix := ParseIndex(w[i + 1..], 1);
          if ix.Index? && Count(']', w[i + 1..]) == ix.depth then Some(Elem(w[1..i], ix.operand)) else None
        else None
  {}

  // ----- the accepted words -----

  predicate IsName(n: string) {
    1 <= |n| <= MAX_NAME && IsAlpha(n[0]) && forall i | 1 <= i < |n| :: IsAlnum(n[i])
  }

  predicate IsNumeral(d: string) {
    1 <= |d| <= MAX_NUMBER && AllDigits(d)
  }

  /** An optional minus sign, and digits that fit with it into nine characters. */
  predicate IsNumber(d: string) {
    1 <= |d| <= MAX_NUMBER && (IsDigit(d[0]) || d[0] == '-') && AllDigits(d[1..])
  }

  /** An operand as it is spelled: numbers keep their digits. */
  datatype Spelling = Digits(digits: string) | Name(name: string) | Indexed(name: string, index: Spelling)

  /** A spelling that may stand between brackets. */
  predicate Proper(x: Spelling) {
    match x
    case Digits(d) => IsNumeral(d)
    case Name(n) => IsName(n)
    case Indexed(n, ix) => IsName(n) && Proper(ix)
  }

  /** The spelling up to its first closing bracket. */
  function Opening(x: Spelling): string {
    match x
    case Digits(d) => d
    case Name(n) => "$" + n
    case Indexed(n, ix) => "$" + n + "[" + Opening(ix)
  }

  function Brackets(x: Spelling): nat {
    if x.Indexed? then 1 + Brackets(x.index) else 0
  }

  function Meaning(x: Spelling): Operand {
    match x
    case Digits(d) => Num(Atoi(d))
    case Name(n) => Var(n)
    case Indexed(n, ix) => Elem(n, Meaning(ix))
  }

  /** The language of operand words. After the first closing bracket only the number of closing
      brackets matters. */
  predicate Spells(w: string, x: Spelling) {
    match x
    case Digits(d) => IsNumber(d) && w == d
    case Name(n) => IsName(n) && w == "$" + n
    case Indexed(_, _) => Proper(x) && Opening(x) + "]" <= w && Count(']', w) == Brackets(x)
  }

  lemma {:induction false} NameEndExact(w: string, i: nat, stop: char, e: nat)
    requires 2 <= i <= e < 2 + 128 && e <= |w|
    requires forall k | i <= k < e :: IsAlnum(w[k])
    requires At(w, e) == stop || At(w, e) == '['
    requires !IsAlnum(stop)
    ensures NameEnd(w, i, stop) == e
    decreases e - i
  {
    if i < e { NameEndExact(w, i + 1, stop, e); }
  }

  lemma {:induction false} NameEndRuns(w: string, i: nat, stop: char)
    requires 2 <= i <= |w| && i <= 2 + 127
    ensures var e := NameEnd(w, i, stop);
      e <= 2 + 127 && forall k | i <= k < e :: IsAlnum(w[k])
    decreases |w| - i
  {
    var e := NameEnd(w, i, stop);
    if e > i { NameEndRuns(w, i + 1, stop); }
  }

  lemma {:induction false} NumberEndExact(w: string, i: nat, stop: char, e: nat)
    requires 1 <= i <= e <= MAX_NUMBER && e <= |w|
    requires forall k | i <= k < e :: IsDigit(w[k])
    requires At(w, e) == stop && !IsDigit(stop)
    ensures NumberEnd(w, i, stop) == e
    decreases e - i
  {
    if i < e { NumberEndExact(w, i + 1, stop, e); }
  }

  lemma {:induction false} NumberEndRuns(w: string, i: nat, stop: char)
    requires 1 <= i <= |w| && i <= MAX_NUMBER
    ensures var e := NumberEnd(w, i, stop);
      e <= MAX_NUMBER && forall k | i <= k < e :: IsDigit(w[k])
    decreases |w| - i
  {
    var e := NumberEnd(w, i, stop);
    if e > i { NumberEndRuns(w, i + 1, stop); }
  }

  /** The name at the beginning of a word, when a bracket opens after it. */
  lemma {:induction false} NamePart(w: string, stop: char)
    requires At(w, 0) == '$' && IsAlpha(At(w, 1)) && !IsAlnum(stop) && stop != '['
    ensures var i := NameEnd(w, 2, stop);
      i > 1 && IsName(w[1..i]) && w[..i] == "$" + w[1..i]
      && (i < |w| ==> w == "$" + w[1..i] + [w[i]] + w[i + 1..])
  {
    NameEndRuns(w, 2, stop);
    var i := NameEnd(w, 2, stop);
    assert w[..i] == "$" + w[1..i];
  }

  /** Every accepted index is a proper spelling, closed by the first bracket after it. */
  lemma {:induction false} IndexSound(w: string, depth: nat) returns (x: Spelling)
    requires ParseIndex(w, depth).Index? && IsWord(w)
    ensures Proper(x) && Opening(x) + "]" <= w
    ensures ParseIndex(w, depth) == Index(Meaning(x), depth + Brackets(x))
    decreases |w|
  {
    if At(w, 0) == '$' {
      NamePart(w, ']');
      var i := NameEnd(w, 2, ']');
      if At(w, i) == ']' {
        x := Name(w[1..i]);
      } else {
        var ix := IndexSound(w[i + 1..], depth + 1);
        x := Indexed(w[1..i], ix);
        PrefixAfter("$" + w[1..i] + "[", Opening(ix), w[i + 1..]);
      }
    } else {
      NumberEndRuns(w, 1, ']');
      x := Digits(w[..NumberEnd(w, 1, ']')]);
    }
  }

  lemma {:induction false} PrefixAfter(a: string, b: string, rest: string)
    ensures b + "]" <= rest ==> a + b + "]" <= a + rest
    ensures a + b + "]" <= a + rest ==> b + "]" <= rest
  {
    assert (a + rest)[|a|..] == rest;
    assert (a + b + "]")[|a|..] == b + "]";
    if a + b + "]" <= a + rest {
      forall k | 0 <= k < |b + "]"| ensures k < |rest| && (b + "]")[k] == rest[k] {
        assert (a + b + "]")[|a| + k] == (a + rest)[|a| + k];
      }
    }
  }

  /** The beginning of a word that starts with a name. */
  lemma {:induction false} NameGiven(w: string, n: string, c: char, stop: char)
    requires IsName(n) && "$" + n + [c] <= w && (c == stop || c == '[') && !IsAlnum(stop)
    ensures At(w, 0) == '$' && IsAlpha(At(w, 1)) && NameEnd(w, 2, stop) == 1 + |n|
    ensures w[1..1 + |n|] == n && w[1 + |n|] == c && w == "$" + n + [c] + w[2 + |n|..]
  {
    var p := "$" + n + [c];
    assert forall k | 0 <= k < |p| :: w[k] == p[k];
    NameEndExact(w, 2, stop, 1 + |n|);
    assert w == p + w[|p|..];
  }

  lemma {:induction false} NumberIndexed(w: string, depth: nat, d: string)
    requires IsNumeral(d) && d + "]" <= w
    ensures ParseIndex(w, depth) == Index(Num(Atoi(d)), depth)
  {
    assert forall k | 0 <= k < |d + "]"| :: w[k] == (d + "]")[k];
    assert w[..|d|] == d;
    NumberEndExact(w, 1, ']', |d|);
    hide NumberEnd, Unsigned;
  }

  lemma {:induction false} NameIndexed(w: string, depth: nat, n: string)
    requires IsName(n) && "$" + n + "]" <= w
    ensures ParseIndex(w, depth) == Index(Var(n), depth)
  {
    NameGiven(w, n, ']', ']');
    hide NameEnd, IsName;
  }

  /** A name with a bracket opened behind it, and what follows. */
  lemma {:induction false} BracketOpens(w: string, x: Spelling, stop: char)
    requires Proper(x) && x.Indexed? && Opening(x) + "]" <= w && !IsAlnum(stop)
    ensures At(w, 0) == '$' && IsAlpha(At(w, 1)) && NameEnd(w, 2, stop) == 1 + |x.name|
    ensures w[1..1 + |x.name|] == x.name && w[1 + |x.name|] == '[' && w == "$" + x.name + "[" + w[2 + |x.name|..]
    ensures Opening(x.index) + "]" <= w[2 + |x.name|..]
  {
    hide NameEnd, IsName;
    var p, ix := "$" + x.name + "[", x.index;
    assert p <= w by { assert Opening(x) + "]" == p + (Opening(ix) + "]"); }
    NameGiven(w, x.name, '[', stop);
    PrefixAfter(p, Opening(ix), w[2 + |x.name|..]);
  }

  /** And every proper spelling is accepted, whatever follows its bracket. */
  lemma {:induction false} IndexComplete(w: string, depth: nat, x: Spelling)
    requires Proper(x) && Opening(x) + "]" <= w
    ensures ParseIndex(w, depth) == Index(Meaning(x), depth + Brackets(x))
    decreases x
  {
    match x
    case Digits(d) => NumberIndexed(w, depth, d);
    case Name(n) => NameIndexed(w, depth, n);
    case Indexed(n, ix) =>
      BracketOpens(w, x, ']');
      hide NameEnd, IsName, Opening, IsNumeral;
      IndexComplete(w[2 + |n|..], depth + 1, ix);
  }

  lemma {:induction false} OpeningHasNoBracket(x: Spelling)
    requires Proper(x)
    ensures ']' !in Opening(x)
  {
    match x
    case Digits(_) =>
    case Name(_) =>
    case Indexed(n, ix) => OpeningHasNoBracket(ix);
  }

  /** A word made of a name, an opened bracket and a text that begins with an index. */
  lemma {:induction false} IndexedSpells(w: string, i: nat, ix: Spelling)
    requires 0 < i < |w| && IsName(w[1..i]) && w == "$" + w[1..i] + "[" + w[i + 1..]
    requires Proper(ix) && Opening(ix) + "]" <= w[i + 1..] && Count(']', w[i + 1..]) == 1 + Brackets(ix)
    ensures Spells(w, Indexed(w[1..i], ix))
  {
    hide NameEnd, NumberEnd, ParseIndex, Unsigned, Count;
    var p, rest := "$" + w[1..i] + "[", w[i + 1..];
    PrefixAfter(p, Opening(ix), rest);
    CountConcat(']', p, rest);
    CountNone(']', p);
  }

  /** Every accepted word is in the language. */
  lemma {:induction false} ParseSound(w: string) returns (x: Spelling)
    requires IsWord(w) && Parse(w).Some?
    ensures Spells(w, x) && Parse(w) == Some(Meaning(x))
  {
    hide NameEnd, NumberEnd, ParseIndex, Unsigned;
    if At(w, 0) == '$' {
      NamePart(w, '\0');
      var i := NameEnd(w, 2, '\0');
      if At(w, i) == '\0' {
        x := Name(w[1..i]);
        assert w[..i] == w;
      } else {
        var ix := IndexSound(w[i + 1..], 1);
        x := Indexed(w[1..i], ix);
        IndexedSpells(w, i, ix);
      }
    } else {
      NumberEndRuns(w, 1, '\0');
      x := Digits(w);
    }
  }

  lemma {:induction false} NumberAndNameComplete(w: string, x: Spelling)
    requires Spells(w, x) && !x.Indexed?
    ensures Parse(w) == Some(Meaning(x))
  {
    if x.Digits? {
      NumberEndExact(w, 1, '\0', |w|);
    } else {
      NameEndExact(w, 2, '\0', |w|);
      assert w[1..|w|] == x.name;
    }
  }

  lemma {:induction false} NameHasNoBracket(n: string)
    requires IsName(n)
    ensures Count(']', "$" + n + "[") == 0
  {
    CountNone(']', "$" + n + "[");
  }

  /** And every word of the language is accepted, with the meaning of its spelling. */
  lemma {:induction false} ParseComplete(w: string, x: Spelling)
    requires IsWord(w) && Spells(w, x)
    ensures Parse(w) == Some(Meaning(x))
  {
    hide NameEnd, NumberEnd, ParseIndex, Unsigned, IsName, Count, Opening;
    if !x.Indexed? {
      NumberAndNameComplete(w, x);
    } else {
      BracketOpens(w, x, '\0');
      var rest := w[2 + |x.name|..];
      IndexComplete(rest, 1, x.index);
      CountConcat(']', "$" + x.name + "[", rest);
      NameHasNoBracket(x.name);
    }
  }

  /** The scanner accepts exactly the words of the language. */
  lemma {:induction false} OperandLanguage(w: string, op: Operand)
    requires IsWord(w)
    ensures Parse(w) == Some(op) <==> exists x :: Spells(w, x) && Meaning(x) == op
  {
    if Parse(w) == Some(op) { var x := ParseSound(w); }
    forall x | Spells(w, x) && Meaning(x) == op ensures Parse(w) == Some(op) { ParseComplete(w, x); }
  }

  // ----- the spelling is unique -----

  /** The word up to its first closing bracket. */
  function UpToBracket(w: string): (h: string)
    ensures h <= w && ']' !in h && (|h| < |w| ==> w[|h|] == ']')
  {
    if w == "" || w[0] == ']' then "" else [w[0]] + UpToBracket(w[1..])
  }

  lemma {:induction false} UpToBracketIs(h: string, w: string)
    requires ']' !in h && (h + "]" <= w || h == w)
    ensures UpToBracket(w) == h
  {
    if h != "" {
      assert w[0] == h[0] by { assert h <= w; }
      assert h[1..] + "]" <= w[1..] || h[1..] == w[1..];
      UpToBracketIs(h[1..], w[1..]);
    }
  }

  /** What is written before the first closing bracket tells the spelling. */
  lemma {:induction false} OpeningInjective(x: Spelling, y: Spelling)
    requires Proper(x) && Proper(y) && Opening(x) == Opening(y)
    ensures x == y
    decreases x
  {
    OpeningShape(x);
    OpeningShape(y);
    if x.Indexed? && y.Indexed? {
      OpeningInjective(x.index, y.index);
    }
  }

  lemma {:induction false} OpeningShape(x: Spelling)
    requires Proper(x)
    ensures x.Digits? <==> Opening(x)[0] != '$'
    ensures !x.Digits? ==>
      Opening(x)[1..1 + |x.name|] == x.name && forall k | 1 <= k <= |x.name| :: Opening(x)[k] != '['
    ensures x.Indexed? ==> Opening(x)[1 + |x.name|] == '[' && Opening(x)[2 + |x.name|..] == Opening(x.index)
  {
    if !x.Digits? {
      assert forall k | 1 <= k <= |x.name| :: Opening(x)[k] == x.name[k - 1];
    }
  }

  lemma {:induction false} SpellsUpToBracket(w: string, x: Spelling)
    requires Spells(w, x) && IsWord(w)
    ensures UpToBracket(w) == Opening(x)
  {
    if x.Indexed? { OpeningHasNoBracket(x); }
    UpToBracketIs(Opening(x), w);
  }

  /** The operand depends only on what is written before the first closing bracket. */
  lemma {:induction false} SpellingUnique(v: string, w: string, x: Spelling, y: Spelling)
    requires IsWord(v) && IsWord(w) && Spells(v, x) && Spells(w, y)
    requires UpToBracket(v) == UpToBracket(w)
    ensures x == y
  {
    SpellsUpToBracket(v, x);
    SpellsUpToBracket(w, y);
    if x.Digits? || y.Digits? {
      assert x.Digits? ==> Opening(x)[0] != '$';
      assert y.Digits? ==> Opening(y)[0] != '$';
    } else {
      OpeningInjective(x, y);
    }
  }

  /** Any other tail is as good when it brings the same number of closing brackets. */
  lemma {:induction false} TailIsOnlyCounted(w: string, tail: string)
    requires IsWord(w) && IsWord(tail) && Parse(w).Some? && Parse(w).value.Elem?
    ensures var v := UpToBracket(w) + "]" + tail;
      (Parse(v).Some? <==> Count(']', v) == Count(']', w)) && (Parse(v).Some? ==> Parse(v) == Parse(w))
  {
    var x := ParseSound(w);
    SpellsUpToBracket(w, x);
    OpeningHasNoBracket(x);
    var h := Opening(x);
    var v := h + "]" + tail;
    if Count(']', v) == Count(']', w) { ParseComplete(v, x); }
    if Parse(v).Some? {
      var y := ParseSound(v);
      UpToBracketIs(h, v);
      SpellingUnique(w, v, x, y);
    }
  }

  // ----- printing and reading back -----

  function Print(op: Operand): string {
    match op
    case Num(v) => Signed(v)
    case Var(n) => "$" + n
    case Elem(n, ix) => "$" + n + "[" + Print(ix) + "]"
  }

  const NUMBERS: nat := 1000000000

  /** Operands that can be written at all: names fit, and so do numbers. */
  predicate PrintableIndex(op: Operand) {
    match op
    case Num(v) => 0 <= v < NUMBERS
    case Var(n) => IsName(n)
    case Elem(n, ix) => IsName(n) && PrintableIndex(ix)
  }

  predicate Printable(op: Operand) {
    if op.Num? then -(NUMBERS / 10) < op.value < NUMBERS else PrintableIndex(op)
  }

  function Spell(op: Operand): Spelling {
    match op
    case Num(v) => Digits(Signed(v))
    case Var(n) => Name(n)
    case Elem(n, ix) => Indexed(n, Spell(ix))
  }

  function Closing(k: nat): string {
    if k == 0 then "" else Closing(k - 1) + "]"
  }

  lemma {:induction false} ClosingCount(k: nat)
    ensures Count(']', Closing(k)) == k && |Closing(k)| == k && forall i | 0 <= i < k :: Closing(k)[i] == ']'
  {
    if k > 0 {
      ClosingCount(k - 1);
      CountConcat(']', Closing(k - 1), "]");
    }
  }

  lemma {:induction false} NumberFits(v: int)
    requires -(NUMBERS / 10) < v < NUMBERS
    ensures IsNumber(Signed(v)) && (v >= 0 ==> IsNumeral(Signed(v)))
  {
    assert Power10(8) == 100000000 && Power10(9) == 1000000000;
    if v < 0 { DecimalLength(-v, 8); } else { DecimalLength(v, 9); }
  }

  lemma {:induction false} SpellMeans(op: Operand)
    ensures Meaning(Spell(op)) == op
    ensures Print(op) == Opening(Spell(op)) + Closing(Brackets(Spell(op)))
  {
    match op
    case Num(v) => SignedValue(v);
    case Var(_) =>
    case Elem(n, ix) =>
      SpellMeans(ix);
  }

  lemma {:induction false} SpellProper(op: Operand)
    requires PrintableIndex(op)
    ensures Proper(Spell(op)) && IsWord(Opening(Spell(op)))
  {
    match op
    case Num(v) => NumberFits(v);
    case Var(_) =>
    case Elem(n, ix) => SpellProper(ix);
  }

  lemma {:induction false} PrintIsWord(op: Operand)
    requires Printable(op)
    ensures IsWord(Print(op)) && Print(op) != ""
    ensures At(Print(op), 0) == '-' || IsDigit(At(Print(op), 0)) <==> op.Num?
  {
    SpellMeans(op);
    ClosingCount(Brackets(Spell(op)));
    if op.Num? { NumberFits(op.value); } else { SpellProper(op); }
  }

  /** Reading a printed operand gives the operand back. */
  lemma {:induction false} PrintThenParse(op: Operand)
    requires Printable(op)
    ensures Parse(Print(op)) == Some(op)
  {
    var x := Spell(op);
    SpellMeans(op);
    PrintIsWord(op);
    match op {
      case Num(v) => NumberFits(v);
      case Var(_) =>
      case Elem(_, _) =>
        SpellProper(op);
        OpeningHasNoBracket(x);
        var k := Brackets(x);
        ClosingCount(k);
        CountConcat(']', Opening(x), Closing(k));
        CountNone(']', Opening(x));
        assert Closing(k)[0] == ']';
    }
    ParseComplete(Print(op), x);
  }

  predicate CanonicalNumbers(x: Spelling) {
    match x
    case Digits(d) => Canonical(d)
    case Name(_) => true
    case Indexed(_, ix) => CanonicalNumbers(ix)
  }

  lemma {:induction false} SpellCanonical(x: Spelling)
    ensures CanonicalNumbers(x) <==> Spell(Meaning(x)) == x
    ensures CanonicalNumbers(x) <==> Opening(Spell(Meaning(x))) == Opening(x)
  {
    match x
    case Digits(d) =>
      SignedIsCanonical(Atoi(d));
      if Canonical(d) { SignedCanonical(d); }
    case Name(_) =>
    case Indexed(n, ix) =>
      SpellCanonical(ix);
      var p := "$" + n + "[";
      assert (p + Opening(Spell(Meaning(ix))))[|p|..] == Opening(Spell(Meaning(ix)));
      assert (p + Opening(ix))[|p|..] == Opening(ix);
  }

  lemma {:induction false} SpelledHasNoBracket(x: Spelling)
    requires Proper(x) || x.Digits?
    ensures ']' !in Opening(Spell(Meaning(x)))
  {
    match x
    case Digits(d) => SignedIsCanonical(Atoi(d));
    case Name(_) =>
    case Indexed(_, ix) => SpelledHasNoBracket(ix);
  }

  lemma {:induction false} OnlyClosing(s: string)
    requires forall i | 0 <= i < |s| :: s[i] == ']'
    ensures s == Closing(|s|)
  {
    if s != "" {
      OnlyClosing(s[..|s| - 1]);
      assert s == s[..|s| - 1] + "]";
    }
  }

  /** A word is printed as it was read exactly when its number is written without needless
      zeros and signs and nothing but brackets follows the first closing bracket. */
  lemma {:induction false} ParseThenPrint(w: string, x: Spelling)
    requires IsWord(w) && Spells(w, x)
    ensures Parse(w) == Some(Meaning(x))
    ensures Print(Meaning(x)) == w <==>
            CanonicalNumbers(x) && forall i | |UpToBracket(w)| <= i < |w| :: w[i] == ']'
  {
    hide Parse, Canonical, Signed, Atoi, IsName, IsNumber, AllDigits;
    ParseComplete(w, x);
    var y := Spell(Meaning(x));
    var h := Opening(x);
    var t := w[|h|..];
    SpellMeans(Meaning(x));
    SpellsUpToBracket(w, x);
    SpellCanonical(x);
    SpelledHasNoBracket(x);
    ClosingCount(Brackets(y));
    assert w == h + t;
    if Print(Meaning(x)) == w {
      if Brackets(y) > 0 { assert Closing(Brackets(y))[0] == ']'; }
      UpToBracketIs(Opening(y), w);
    } else if CanonicalNumbers(x) && forall i | |h| <= i < |w| :: w[i] == ']' {
      assert forall i | 0 <= i < |t| :: t[i] == w[|h| + i];
      OnlyClosing(t);
      ClosingCount(|t|);
      CountConcat(']', h, t);
      CountNone(']', h);
    }
  }
}
