/** The little language that simbly runs: operands, instructions and program lines. */
module Syntax {

  datatype Option<+T> = None | Some(value: T)

  /** An operand word. Array indices nest, but every level has exactly one index, so an
      operand is a chain of names that ends in a number or in a plain variable. */
  datatype Operand =
    | Num(value: int)
    | Var(name: string)
    | Elem(name: string, index: Operand)

  datatype ArithOp = Add | Sub | Mul | Div | Mod

  datatype Relation = Gt | Ge | Lt | Le | Eq

  datatype Instr =
    | Load(dst: Operand, glob: Operand)
    | Store(glob: Operand, src: Operand)
    | Set(dst: Operand, src: Operand)
    | Arith(op: ArithOp, dst: Operand, left: Operand, right: Operand)
    | Branch(rel: Relation, left: Operand, right: Operand, target: string)
    | Bra(target: string)
    | Down(glob: Operand)
    | Up(glob: Operand)
    | Sleep(amount: Operand)
    | Print(text: string, args: seq<Operand>)
    | Return

  datatype Line = Line(tag: Option<string>, instr: Instr)

  const INT_MIN: int := -0x8000_0000
  const INT_MAX: int := 0x7fff_ffff

  /** The range of the interpreter's `int`. */
  predicate InInt(v: int) {
    INT_MIN <= v <= INT_MAX
  }

  /** C division, which truncates toward zero. */
  function TruncDiv(a: int, b: int): int
    requires b != 0
  {
    if a >= 0 then a / b else -((-a) / b)
  }

  /** C remainder, whose sign is that of the dividend. */
  function TruncMod(a: int, b: int): int
    requires b != 0
  {
    a - b * TruncDiv(a, b)
  }

  function Abs(x: int): int {
    if x >= 0 then x else -x
  }

  /** Quotient and remainder as C has them: they belong together, the remainder is smaller than
      the divisor, and its sign is that of the dividend. */
  predicate Truncates(a: int, b: int, q: int, r: int) {
    a == b * q + r && -Abs(b) < r < Abs(b) && (a >= 0 ==> r >= 0) && (a <= 0 ==> r <= 0)
  }

  lemma {:induction false} MultipleGrows(b: nat, d: nat)
    requires d >= 1
    ensures b * d >= b
  {
    if d > 1 {
      MultipleGrows(b, d - 1);
      assert b * d == b * (d - 1) + b;
    }
  }

  /** Two multiples of `b` that are less than `b` apart are the same. */
  lemma {:induction false} MultiplesApart(b: int, q: int, p: int)
    requires b != 0 && -Abs(b) < b * q - b * p < Abs(b)
    ensures q == p
  {
    var d := Abs(q - p);
    if q != p { MultipleGrows(Abs(b), d); }
    assert b * q - b * p == b * (q - p);
    assert b * (q - p) == if (b >= 0) == (q >= p) then Abs(b) * d else -(Abs(b) * d);
  }

  lemma {:induction false} DivisionTruncates(a: int, b: int)
    requires b != 0
    ensures Truncates(a, b, TruncDiv(a, b), TruncMod(a, b))
  {
    var x := Abs(a);
    assert x == b * (x / b) + x % b;
    if a < 0 { assert b * -(x / b) == -(b * (x / b)); }
  }

  /** The model's division is the only one like that. */
  lemma {:induction false} TruncatesTowardZero(a: int, b: int, q: int, r: int)
    requires b != 0
    ensures q == TruncDiv(a, b) && r == TruncMod(a, b) <==> Truncates(a, b, q, r)
  {
    DivisionTruncates(a, b);
    var p, s := TruncDiv(a, b), TruncMod(a, b);
    hide TruncDiv, TruncMod;
    if Truncates(a, b, q, r) { MultiplesApart(b, q, p); }
  }

  predicate Holds(rel: Relation, a: int, b: int) {
    match rel
    case Gt => a > b
    case Ge => a >= b
    case Lt => a < b
    case Le => a <= b
    case Eq => a == b
  }

  /** The value of an arithmetic instruction, or None where C leaves it undefined
      (a zero divisor, or a result outside the range of int). */
  function Compute(op: ArithOp, a: int, b: int): Option<int> {
    if (op.Div? || op.Mod?) && (b == 0 || !InInt(TruncDiv(a, b))) then None
    else
      var v := match op
        case Add => a + b
        case Sub => a - b
        case Mul => a * b
        case Div => TruncDiv(a, b)
        case Mod => TruncMod(a, b);
      if InInt(v) then Some(v) else None
  }
}
