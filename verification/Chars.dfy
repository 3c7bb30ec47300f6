/** Characters and decimal numbers. */
module Chars {

  predicate IsSpace(c: char) {
    c == ' ' || 9 as char <= c <= 13 as char
  }

  /** White space that stays on the line. */
  predicate IsBlank(c: char) {
    IsSpace(c) && c != '\n'
  }

  predicate IsDigit(c: char) {
    '0' <= c <= '9'
  }

  predicate IsAlpha(c: char) {
    'a' <= c <= 'z' || 'A' <= c <= 'Z'
  }

  predicate IsAlnum(c: char) {
    IsAlpha(c) || IsDigit(c)
  }

  predicate IsPrint(c: char) {
    ' ' <= c <= '~'
  }

  /** How often a character occurs. */
  function Count(c: char, s: string): nat {
    if s == "" then 0 else (if s[0] == c then 1 else 0) + Count(c, s[1..])
  }

  lemma {:induction false} CountConcat(c: char, a: string, b: string)
    ensures Count(c, a + b) == Count(c, a) + Count(c, b)
  {
    if a == "" {
      assert a + b == b;
    } else {
      assert (a + b)[1..] == a[1..] + b;
      CountConcat(c, a[1..], b);
    }
  }

  lemma {:induction false} CountNone(c: char, s: string)
    requires c !in s
    ensures Count(c, s) == 0
  {
    if s != "" { CountNone(c, s[1..]); }
  }

  predicate AllDigits(s: string) {
    forall i | 0 <= i < |s| :: IsDigit(s[i])
  }

  function DigitValue(c: char): int {
    c as int - '0' as int
  }

  /** The value of a run of digits. */
  function Unsigned(s: string): int {
    if s == "" then 0 else 10 * Unsigned(s[..|s| - 1]) + DigitValue(s[|s| - 1])
  }

  /** What C's atoi makes of an optional minus sign and digits; a lone sign is 0. */
  function Atoi(s: string): int {
    if s != "" && s[0] == '-' then -Unsigned(s[1..]) else Unsigned(s)
  }

  function Digit(d: nat): char
    requires d < 10
  {
    '0' + d as char
  }

  /** Decimal notation without leading zeros. */
  function Decimal(n: nat): (s: string)
    ensures s != "" && AllDigits(s)
  {
    if n < 10 then [Digit(n)] else Decimal(n / 10) + [Digit(n % 10)]
  }

  function Signed(v: int): (s: string)
    ensures s != ""
  {
    if v < 0 then "-" + Decimal(-v) else Decimal(v)
  }

  function Power10(k: nat): nat {
    if k == 0 then 1 else 10 * Power10(k - 1)
  }

  lemma {:induction false} DecimalValue(n: nat)
    ensures Unsigned(Decimal(n)) == n
  {
    var s := Decimal(n);
    if n >= 10 {
      DecimalValue(n / 10);
      assert s[..|s| - 1] == Decimal(n / 10);
    }
  }

  lemma {:induction false} DecimalLength(n: nat, k: nat)
    requires k >= 1 && n < Power10(k)
    ensures |Decimal(n)| <= k
  {
    if n >= 10 { DecimalLength(n / 10, k - 1); }
  }

  lemma {:induction false} SignedValue(v: int)
    ensures Atoi(Signed(v)) == v
  {
    if v < 0 {
      DecimalValue(-v);
      assert Signed(v)[1..] == Decimal(-v);
    } else {
      DecimalValue(v);
    }
  }

  /** No leading zero, and no minus sign in front of nothing or of zero. */
  predicate Canonical(s: string) {
    var t := if s != "" && s[0] == '-' then s[1..] else s;
    t != "" && AllDigits(t) && (t[0] == '0' ==> s == "0")
  }

  lemma {:induction false} UnsignedCanonical(s: string)
    requires s != "" && AllDigits(s) && (s[0] == '0' ==> |s| == 1)
    ensures Unsigned(s) >= 0 && Decimal(Unsigned(s)) == s
    ensures (|s| > 1 ==> Unsigned(s) >= 10) && (s[0] != '0' ==> Unsigned(s) > 0)
  {
    var t := s[..|s| - 1];
    if |s| > 1 {
      UnsignedCanonical(t);
      assert s == t + [s[|s| - 1]];
      DecimalNext(Unsigned(t), DigitValue(s[|s| - 1]));
      hide Decimal;
    } else {
      assert t == "" && Unsigned(t) == 0;
    }
  }

  lemma DecimalNext(m: nat, d: nat)
    requires m > 0 && d < 10
    ensures Decimal(10 * m + d) == Decimal(m) + [Digit(d)]
  {
    assert (10 * m + d) / 10 == m && (10 * m + d) % 10 == d;
  }

  /** Canonical numerals are printed as they were read. */
  lemma {:induction false} SignedCanonical(s: string)
    requires Canonical(s)
    ensures Signed(Atoi(s)) == s
  {
    if s[0] == '-' {
      UnsignedCanonical(s[1..]);
      assert s == "-" + s[1..];
    } else {
      UnsignedCanonical(s);
    }
  }

  lemma {:induction false} DecimalIsCanonical(n: nat)
    ensures Canonical(Decimal(n)) && (n > 0 ==> Decimal(n)[0] != '0')
  {
    if n >= 10 { DecimalIsCanonical(n / 10); }
  }

  lemma {:induction false} SignedIsCanonical(v: int)
    ensures Canonical(Signed(v))
  {
    if v < 0 {
      DecimalIsCanonical(-v);
      assert Signed(v)[1..] == Decimal(-v);
    } else {
      DecimalIsCanonical(v);
    }
  }

  /** The classes of characters, by their codes. */
  lemma CharacterClasses(c: char)
    ensures var k := c as int;
      && (IsSpace(c) <==> k in {9, 10, 11, 12, 13, 32})
      && (IsBlank(c) <==> k in {9, 11, 12, 13, 32})
      && (IsDigit(c) <==> 48 <= k <= 57)
      && (IsAlpha(c) <==> 65 <= k <= 90 || 97 <= k <= 122)
      && (IsAlnum(c) <==> 48 <= k <= 57 || 65 <= k <= 90 || 97 <= k <= 122)
      && (IsPrint(c) <==> 32 <= k <= 126)
  {}

  /** The value of a numeral: each digit counts ten times as much as the next. */
  lemma {:induction false} PlaceValue(s: string, c: char)
    ensures Unsigned("") == 0 && Unsigned([c]) == c as int - 48
    ensures Unsigned(s + [c]) == 10 * Unsigned(s) + Unsigned([c])
    ensures Atoi("-" + s) == -Unsigned(s)
    ensures s != "" && s[0] != '-' ==> Atoi(s) == Unsigned(s)
  {
    assert (s + [c])[..|s|] == s && ("-" + s)[1..] == s;
    assert [c][..0] == "";
  }

  /** Counting occurrences. */
  lemma {:induction false} CountIs(c: char, s: string)
    ensures Count(c, s) == multiset(s)[c]
  {
    if s != "" {
      CountIs(c, s[1..]);
      assert s == [s[0]] + s[1..];
    }
  }
}
