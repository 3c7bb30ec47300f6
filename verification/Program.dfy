/** A running program as the interpreter works on it: the object that owns the reader of its
    file, its table of variables, its sleep and its semaphore. One call interprets one line,
    and is proved against the interpreter on texts. */
module Program {
  import opened Syntax
  import opened Locals
  import opened Globals
  import opened Scanning
  import SourceText
  import opened Machine
  import opened Scanner
  import opened VarTable
  import opened TapeMachine
  import GlobalTable

  class Program {
    const reader: Reader
    const vars: Vars
    var sec: int
    var nsec: int
    var sem: GlobalTable.GlobalVar?
    var blockedIdx: nat
    var out: seq<Machine.Printed>
    /** The message of the error that stopped the program. */
    var reason: Option<Locals.Error>
    /** The name of the variable that `sem` is. */
    ghost var semName: string

    ghost predicate Valid()
      reads reader`pos, reader`c, reader`line, vars, vars.Repr
    {
      && reader.Valid() && vars.Valid()
      && vars in vars.Repr && reader !in vars.Repr && reader.input !in vars.Repr && this !in vars.Repr
    }

    /** The status that the program's state stands for. */
    ghost function Mode(): Machine.Status
      reads reader`state
    {
      match reader.state
      case InstructionLine => Ready
      case LastLine => Ready
      case Asleep => Sleeping
      case Waiting => Blocked
      case Finished => Machine.Status.Finished
      case Undefined => Wild
    }

    ghost function Core(): Proc
      requires Valid()
      reads this, reader`pos, reader`c, reader`line, reader`state, vars, vars.Repr
    {
      Proc([], 0, false, vars.Contents(), vars.Arguments(), Mode(), reason, sec, nsec, semName, blockedIdx, out)
    }

    lemma CoreMode()
      requires Valid()
      ensures Core().status == Mode()
    {}

    ghost function Abstract(): Tape
      requires Valid()
      reads this, reader`pos, reader`c, reader`line, reader`state, vars, vars.Repr
    {
      Tape(reader.text, reader.Ahead(), Core())
    }

    /** Opens a file and reads its first line. A file that is refused there is finished before
        its first instruction; a wrong magic word leaves an error for the scheduler. */
    constructor (source: string, id: int, args: seq<int>)
      requires '\0' !in source
      ensures Valid() && fresh(reader) && fresh(reader.input) && fresh(vars) && fresh(vars.Repr)
      ensures reader.text == source && reader.tokens == [] && vars.Contents() == map[]
      ensures vars.Arguments() == Args(id, args)
      ensures match Magic(source)
        case Refused(e) => Over() && reader.error == e && reason == if e then Some(BadSyntax) else None
        case Opened(ahead, good) =>
          reader.state == InstructionLine && reader.error == !good
          && (good ==> Resting() && Abstract() == Tape(source, ahead, Start([], Args(id, args))))
    {
      reader := new Reader(source);
      vars := new Vars(id, args);
      sec, nsec, sem, blockedIdx, out, reason, semName := 0, 0, null, 0, [], None, "";
      new;
      hide Magic, Vars.Contents, Vars.Valid, Reader.Valid, Reader.Ahead, Vars.Arguments, Core;
      ReadFirstLine(id, args);
    }

    method ReadFirstLine(ghost id: int, ghost args: seq<int>)
      requires Valid() && reader.pos == 0 && reader.c == Some(' ')
      requires reader.state == InstructionLine && !reader.error && reader.tokens == []
      requires sec == 0 && nsec == 0 && blockedIdx == 0 && semName == "" && out == [] && reason == None
      requires vars.Contents() == map[] && vars.Arguments() == Args(id, args)
      modifies this`reason, reader`pos, reader`c, reader`line, reader`state, reader`error, reader.input
      ensures Valid() && vars.Contents() == map[]
      ensures match Magic(reader.text)
        case Refused(e) => Over() && reader.error == e && reason == if e then Some(BadSyntax) else None
        case Opened(ahead, good) =>
          reader.state == InstructionLine && reader.error == !good
          && (good ==> Resting() && Abstract() == Tape(reader.text, ahead, Start([], Args(id, args))))
    {
      hide Magic, Vars.Contents, Vars.Valid, Reader.Valid, Reader.Ahead, Vars.Arguments;
      reader.ParseMagic();
      if reader.error { reason := Some(BadSyntax); }
    }

    method Stop(e: Locals.Error)
      modifies this`reason, reader`state, reader`error
      ensures reader.state == Phase.Finished && reader.error && reason == Some(e)
    {
      reader.Stop();
      reason := Some(e);
    }

    /** Leaves the program as an evaluation or assignment with that outcome leaves it. */
    method Conclude(o: Outcome) returns (ok: bool)
      modifies this`reason, reader`state, reader`error
      ensures ok <==> o.Ok?
      ensures o.Ok? || o.Refused? ==>
        reader.state == old(reader.state) && reader.error == old(reader.error) && reason == old(reason)
      ensures o.Stop? ==> reader.state == Phase.Finished && reader.error && reason == Some(o.error)
      ensures o.Undefined? ==> reader.state == Phase.Undefined && reader.error == old(reader.error)
      ensures o.Undefined? ==> reason == old(reason)
    {
      match o {
        case Ok(_) =>
        case Stop(e) => Stop(e);
        case Refused =>
        case Undefined => reader.state := Phase.Undefined;
      }
      return o.Ok?;
    }

    method Value(x: Operand) returns (ok: bool, v: int)
      requires Valid() && reader.Going()
      modifies this`reason, reader`state, reader`error, vars.Repr
      ensures Valid() && fresh(vars.Repr - old(vars.Repr))
      ensures var e := Eval(x, old(Core()).table, old(Core()).args);
        Core() == After(old(Core()), e) && ok == e.out.Ok? && (ok ==> v == e.out.value)
      ensures if ok then reader.state == old(reader.state) && !reader.error else !Alive(Core()) && Over()
    {
      hide Eval, Reader.Valid, Vars.Valid, Vars.Contents;
      v := 0;
      var o := vars.GetValue(x);
      ok := Conclude(o);
      if ok { v := o.value; }
    }

    method Assign(x: Operand, v: int)
      requires Valid() && reader.Going()
      modifies this`reason, reader`state, reader`error, vars.Repr
      ensures Valid() && fresh(vars.Repr - old(vars.Repr))
      ensures Core() == After(old(Core()), Locals.Assign(x, v, old(Core()).table, old(Core()).args))
      ensures if reader.state == old(reader.state) then !reader.error else !Alive(Core()) && Over()
    {
      hide Eval, Locals.Assign, Reader.Valid, Vars.Valid, Vars.Contents;
      var o := vars.SetValue(x, v);
      var ok := Conclude(o);
    }

    static predicate Alive(p: Proc) {
      p.status.Ready? || p.status.Sleeping? || p.status.Blocked?
    }

    /** The global table shares no object with the program. */
    ghost predicate Apart(gt: GlobalTable.Table)
      reads this, vars, gt
    {
      gt in gt.Repr && gt.Repr !! vars.Repr + {this, reader, reader.input, vars}
    }

    ghost predicate Over()
      reads reader`state
    {
      reader.state == Phase.Finished || reader.state == Phase.Undefined
    }

    /** The next token of the line. */
    method ReadToken() returns (t: Option<Token>)
      modifies reader`tokens
      ensures if old(reader.tokens) == [] then t == None && reader.tokens == []
              else t == Some(old(reader.tokens)[0]) && reader.tokens == old(reader.tokens)[1..]
    {
      if |reader.tokens| == 0 { return None; }
      t := Some(reader.tokens[0]);
      reader.tokens := reader.tokens[1..];
    }

    /** Where a global operand points; its index is evaluated among the locals. */
    method Locate(x: Operand) returns (ok: bool, name: string, idx: nat)
      requires Valid() && reader.Going()
      modifies this`reason, reader`state, reader`error, vars.Repr
      ensures Valid() && fresh(vars.Repr - old(vars.Repr))
      ensures var l := Machine.Locate(old(Core()), x);
        Core() == l.after && ok == l.ok && (ok ==> name == l.name && idx == l.idx) && l.after.args == old(Core()).args
      ensures if ok then reader.state == old(reader.state) && !reader.error else !Alive(Core()) && Over()
    {
      hide Eval;
      ok, name, idx := false, "", 0;
      match x {
        case Num(_) => reader.state := Phase.Undefined;
        case Var(n) => ok, name := true, n;
        case Elem(n, ix) =>
          var v;
          ok, v := Value(ix);
          if ok {
            if v < 0 {
              reader.state := Phase.Undefined;
              ok := false;
            } else {
              name, idx := n, v;
            }
          }
      }
    }

    /** A parked program knows a cell that exists. */
    ghost predicate Parked(gt: GlobalTable.Table)
      reads this, gt, gt.Repr
    {
      gt.Valid() && semName in gt.vars && sem == gt.vars[semName] && blockedIdx < gt.vars[semName].len
    }

    /** The program and the globals are as that execution leaves them. */
    twostate predicate Handled(gt: GlobalTable.Table, r: Pair)
      requires old(gt.Valid())
      reads this, reader, vars, vars.Repr, gt, gt.Repr
    {
      && Valid() && gt.Valid() && Apart(gt) && Core() == r.proc && gt.Contents() == r.glob
      && fresh(vars.Repr - old(vars.Repr)) && fresh(gt.Repr - old(gt.Repr))
      && GlobalTable.Grows(old(gt.Snapshot()), gt.Snapshot())
      && (Alive(r.proc) ==> reader.tokens == [] && !reader.error)
      && (r.proc.status.Ready? ==> reader.state == old(reader.state))
      && (reader.state == Waiting ==> Parked(gt))
    }

    method LoadHandler(gt: GlobalTable.Table, ghost ins: Instr)
      requires Valid() && reader.Going() && gt.Valid() && Apart(gt)
      requires ins.Load? && reader.tokens == [OperandTok(ins.dst), OperandTok(ins.glob)]
      modifies this, reader`state, reader`error, reader`tokens, vars.Repr, gt.Repr
      ensures Handled(gt, Execute(old(Core()), old(gt.Contents()), ins))
    {
      hide Eval, Locals.Assign, Touch, Cell, Machine.Locate, Core, Reader.Valid, Vars.Valid;
      hide GlobalTable.Table.Contents, GlobalTable.Table.Valid;
      hide GlobalTable.Grows, GlobalTable.Table.Snapshot;
      hide Execute;
      LoadIs(Core(), gt.Contents(), ins);
      gt.Still();
      var dst := ReadToken();
      var glob := ReadToken();
      var ok, name, idx := Locate(glob.value.operand);
      if !ok { return; }
      var v := LoadAt(gt, name, idx);
      Assign(dst.value.operand, v);
    }

    method LoadAt(gt: GlobalTable.Table, name: string, idx: nat) returns (v: int)
      requires Valid() && gt.Valid() && Apart(gt)
      modifies gt.Repr
      ensures Valid() && Core() == old(Core()) && gt.Valid() && Apart(gt) && fresh(gt.Repr - old(gt.Repr))
      ensures GlobalTable.Grows(old(gt.Snapshot()), gt.Snapshot())
      ensures gt.Contents() == Touch(old(gt.Contents()), name, idx) && v == Cell(old(gt.Contents()), name, idx)
    {
      hide Core, Reader.Valid, Vars.Valid, GlobalTable.Table.Contents, GlobalTable.Table.Valid;
      hide GlobalTable.Grows, GlobalTable.Table.Snapshot;
      v := gt.Load(name, idx);
    }

    method StoreAt(gt: GlobalTable.Table, name: string, idx: nat, v: int)
      requires Valid() && gt.Valid() && Apart(gt)
      modifies gt.Repr
      ensures Valid() && Core() == old(Core()) && gt.Valid() && Apart(gt) && fresh(gt.Repr - old(gt.Repr))
      ensures GlobalTable.Grows(old(gt.Snapshot()), gt.Snapshot())
      ensures gt.Contents() == Put(old(gt.Contents()), name, idx, v)
    {
      hide Core, Reader.Valid, Vars.Valid, GlobalTable.Table.Contents, GlobalTable.Table.Valid;
      hide GlobalTable.Grows, GlobalTable.Table.Snapshot;
      gt.Store(name, idx, v);
    }

    method StoreHandler(gt: GlobalTable.Table, ghost ins: Instr)
      requires Valid() && reader.Going() && gt.Valid() && Apart(gt)
      requires ins.Store? && reader.tokens == [OperandTok(ins.glob), OperandTok(ins.src)]
      modifies this, reader`state, reader`error, reader`tokens, vars.Repr, gt.Repr
      ensures Handled(gt, Execute(old(Core()), old(gt.Contents()), ins))
    {
      hide Eval, Machine.Locate, Core, Reader.Valid, Vars.Valid, GlobalTable.Table.Contents;
      hide GlobalTable.Table.Valid, Touch, Put, Cell;
      hide GlobalTable.Grows, GlobalTable.Table.Snapshot;
      hide Execute;
      StoreIs(Core(), gt.Contents(), ins);
      gt.Still();
      var glob := ReadToken();
      var src := ReadToken();
      var ok, name, idx := Locate(glob.value.operand);
      if !ok { return; }
      var v;
      ok, v := Value(src.value.operand);
      if !ok { return; }
      StoreAt(gt, name, idx, v);
    }

    method SetHandler(gt: GlobalTable.Table, ghost ins: Instr)
      requires Valid() && reader.Going() && gt.Valid() && Apart(gt)
      requires ins.Set? && reader.tokens == [OperandTok(ins.dst), OperandTok(ins.src)]
      modifies this, reader`state, reader`error, reader`tokens, vars.Repr
      ensures Handled(gt, Execute(old(Core()), old(gt.Contents()), ins))
    {
      hide Eval, Locals.Assign, Core, Reader.Valid, Vars.Valid, GlobalTable.Table.Contents, GlobalTable.Table.Valid;
      hide GlobalTable.Grows, GlobalTable.Table.Snapshot;
      hide Execute;
      SetIs(Core(), gt.Contents(), ins);
      gt.Still();
      var dst := ReadToken();
      var src := ReadToken();
      var ok, v := Value(src.value.operand);
      if !ok { return; }
      Assign(dst.value.operand, v);
    }

    /** Two operands from left to right. */
    method Values(a: Operand, b: Operand) returns (ok: bool, x: int, y: int)
      requires Valid() && reader.Going()
      modifies this`reason, reader`state, reader`error, vars.Repr
      ensures Valid() && fresh(vars.Repr - old(vars.Repr))
      ensures var r := EvalBoth(old(Core()), a, b);
        Core() == r.after && ok == r.ok && (ok ==> x == r.left && y == r.right) && r.after.args == old(Core()).args
      ensures if ok then reader.state == old(reader.state) && !reader.error else !Alive(Core()) && Over()
    {
      hide Eval, Core, Reader.Valid, Vars.Valid;
      y := 0;
      ok, x := Value(a);
      if ok { ok, y := Value(b); }
    }

    method PrimitiveOpHandler(gt: GlobalTable.Table, ghost ins: Instr, op: ArithOp)
      requires Valid() && reader.Going() && gt.Valid() && Apart(gt)
      requires ins.Arith? && ins.op == op
      requires reader.tokens == [OperandTok(ins.dst), OperandTok(ins.left), OperandTok(ins.right)]
      modifies this, reader`state, reader`error, reader`tokens, vars.Repr
      ensures Handled(gt, Execute(old(Core()), old(gt.Contents()), ins))
    {
      hide Eval, Locals.Assign, EvalBoth, Core, Reader.Valid, Vars.Valid, GlobalTable.Table.Contents;
      hide GlobalTable.Table.Valid, Compute;
      hide GlobalTable.Grows, GlobalTable.Table.Snapshot;
      hide Execute;
      ArithIs(Core(), gt.Contents(), ins);
      gt.Still();
      var res := ReadToken();
      var left := ReadToken();
      var right := ReadToken();
      var ok, x, y := Values(left.value.operand, right.value.operand);
      if !ok { return; }
      Settle(res.value.operand, Compute(op, x, y));
    }

    /** Assigns the result of an operation, where it has one. */
    method Settle(x: Operand, v: Option<int>)
      requires Valid() && reader.Going()
      modifies this`reason, reader`state, reader`error, vars.Repr
      ensures Valid() && fresh(vars.Repr - old(vars.Repr))
      ensures var p := old(Core());
        Core() == if v.None? then p.(status := Wild) else After(p, Locals.Assign(x, v.value, p.table, p.args))
      ensures if reader.state == old(reader.state) then !reader.error else !Alive(Core()) && Over()
    {
      hide Reader.Valid, Vars.Valid, Vars.Contents;
      if v.None? {
        Undefine();
      } else {
        Assign(x, v.value);
      }
    }

    /** Here C leaves the behaviour open. */
    method Undefine()
      requires Valid()
      modifies reader`state
      ensures Valid() && Core() == old(Core()).(status := Wild) && Over()
    {
      hide Reader.Valid, Vars.Valid, Vars.Contents;
      reader.state := Phase.Undefined;
    }

    method UpHandler(gt: GlobalTable.Table, ghost ins: Instr)
      requires Valid() && reader.Going() && gt.Valid() && Apart(gt)
      requires ins.Up? && reader.tokens == [OperandTok(ins.glob)]
      modifies this, reader`state, reader`error, reader`tokens, vars.Repr, gt.Repr
      ensures Handled(gt, Execute(old(Core()), old(gt.Contents()), ins))
    {
      hide Eval, Machine.Locate, Core, Reader.Valid, Vars.Valid, GlobalTable.Table.Contents;
      hide GlobalTable.Table.Valid, Touch, Put, Cell;
      hide GlobalTable.Grows, GlobalTable.Table.Snapshot;
      gt.Still();
      var glob := ReadToken();
      var ok, name, idx := Locate(glob.value.operand);
      if !ok { return; }
      UpAt(gt, name, idx);
    }

    method UpAt(gt: GlobalTable.Table, name: string, idx: nat)
      requires Valid() && gt.Valid() && Apart(gt)
      modifies gt.Repr
      ensures Valid() && Core() == old(Core()) && gt.Valid() && Apart(gt) && fresh(gt.Repr - old(gt.Repr))
      ensures GlobalTable.Grows(old(gt.Snapshot()), gt.Snapshot())
      ensures var g := old(gt.Contents());
        gt.Contents() == Put(g, name, idx, Cell(g, name, idx) + 1)
    {
      hide Core, Reader.Valid, Vars.Valid, GlobalTable.Table.Contents, GlobalTable.Table.Valid;
      hide GlobalTable.Grows, GlobalTable.Table.Snapshot;
      gt.Up(name, idx);
    }

    /** The first half of DOWN: the program is parked at the cell. */
    method DownHandler(gt: GlobalTable.Table, ghost ins: Instr)
      requires Valid() && reader.Going() && gt.Valid() && Apart(gt)
      requires ins.Down? && reader.tokens == [OperandTok(ins.glob)]
      modifies this, reader`state, reader`error, reader`tokens, vars.Repr, gt.Repr
      ensures Handled(gt, Execute(old(Core()), old(gt.Contents()), ins))
    {
      hide Eval, Machine.Locate, Core, Reader.Valid, Vars.Valid, GlobalTable.Table.Contents;
      hide GlobalTable.Table.Valid, Touch, Put, Cell;
      hide GlobalTable.Grows, GlobalTable.Table.Snapshot;
      gt.Still();
      var glob := ReadToken();
      var ok, name, idx := Locate(glob.value.operand);
      if !ok { return; }
      DownAt(gt, name, idx);
    }

    method DownAt(gt: GlobalTable.Table, name: string, idx: nat)
      requires Valid() && gt.Valid() && Apart(gt)
      modifies this, reader`state, gt.Repr
      ensures Valid() && gt.Valid() && Apart(gt) && fresh(gt.Repr - old(gt.Repr)) && Parked(gt)
      ensures GlobalTable.Grows(old(gt.Snapshot()), gt.Snapshot())
      ensures gt.Contents() == Touch(old(gt.Contents()), name, idx)
      ensures Core() == old(Core()).(status := Blocked, sem := name, semIdx := idx)
    {
      hide Core, Reader.Valid, Vars.Valid, GlobalTable.Table.Contents, GlobalTable.Table.Valid;
      hide GlobalTable.Grows, GlobalTable.Table.Snapshot;
      var v := gt.Down(name, idx);
      Park(v, name, idx);
    }

    method Park(v: GlobalTable.GlobalVar, ghost name: string, idx: nat)
      requires Valid()
      modifies this, reader`state
      ensures Valid() && Core() == old(Core()).(status := Blocked, sem := name, semIdx := idx)
      ensures reader.state == Waiting && sem == v && blockedIdx == idx && semName == name
    {
      hide Reader.Valid, Vars.Valid, Vars.Contents;
      blockedIdx := idx;
      reader.state := Waiting;
      sem := v;
      semName := name;
    }

    method SleepHandler(gt: GlobalTable.Table, ghost ins: Instr)
      requires Valid() && reader.Going() && gt.Valid() && Apart(gt)
      requires ins.Sleep? && reader.tokens == [OperandTok(ins.amount)]
      modifies this, reader`state, reader`error, reader`tokens, vars.Repr
      ensures Handled(gt, Execute(old(Core()), old(gt.Contents()), ins))
    {
      hide Eval, Core, Reader.Valid, Vars.Valid, GlobalTable.Table.Contents, GlobalTable.Table.Valid;
      hide GlobalTable.Grows, GlobalTable.Table.Snapshot;
      gt.Still();
      var amount := ReadToken();
      var ok, v := Value(amount.value.operand);
      if ok && v > 0 { FallAsleep(v); }
    }

    method FallAsleep(duration: int)
      requires Valid()
      modifies this, reader`state
      ensures Valid() && Core() == old(Core()).(status := Sleeping, sec := duration, nsec := 0)
      ensures reader.state == Asleep
    {
      hide Reader.Valid, Vars.Valid, Vars.Contents;
      reader.state := Asleep;
      sec, nsec := duration, 0;
    }

    method ReturnHandler(gt: GlobalTable.Table)
      requires Valid() && reader.Going() && gt.Valid() && Apart(gt)
      modifies reader`state
      ensures Handled(gt, Execute(old(Core()), old(gt.Contents()), Return))
    {
      hide Reader.Valid, Vars.Valid, Vars.Contents;
      hide GlobalTable.Grows, GlobalTable.Table.Snapshot;
      gt.Still();
      reader.state := Phase.Finished;
    }

    method Emit(text: string, shown: seq<int>)
      requires Valid()
      modifies this`out
      ensures Valid() && Core() == old(Core()).(out := old(Core()).out + [Machine.Printed(text, shown)])
    {
      out := out + [Machine.Printed(text, shown)];
    }

    /** Prints a text and the values of the operands that are left in the line. */
    method PrintValues(text: string, ghost args: seq<Operand>)
      requires Valid() && reader.Going() && ReadArguments(reader.tokens) == Some(args)
      modifies this, reader`state, reader`error, reader`tokens, vars.Repr
      ensures Valid() && fresh(vars.Repr - old(vars.Repr))
      ensures Core() == PrintArgs(old(Core()), args, text, [])
      ensures if reader.state == old(reader.state) then !reader.error else !Alive(Core()) && Over()
      ensures Alive(Core()) ==> reader.tokens == []
    {
      hide Eval, PrintArgs, Core, Reader.Valid, Vars.Valid;
      ghost var rest := args;
      var shown: seq<int> := [];
      while true
        invariant Valid() && reader.Going() && reader.state == old(reader.state)
        invariant fresh(vars.Repr - old(vars.Repr))
        invariant ReadArguments(reader.tokens) == Some(rest)
        invariant PrintArgs(old(Core()), args, text, []) == PrintArgs(Core(), rest, text, shown)
        decreases |rest|
      {
        PrintStep(Core(), rest, text, shown);
        var t := ReadToken();
        if t.None? { break; }
        var ok, v := Value(t.value.operand);
        if !ok { break; }
        rest := rest[1..];
        shown := shown + [v];
      }
      Emit(text, shown);
    }

    method PrintHandler(gt: GlobalTable.Table, ghost ins: Instr)
      requires Valid() && reader.Going() && gt.Valid() && Apart(gt)
      requires ins.Print? && |reader.tokens| > 0 && reader.tokens[0] == StringTok(ins.text)
      requires ReadArguments(reader.tokens[1..]) == Some(ins.args)
      modifies this, reader`state, reader`error, reader`tokens, vars.Repr
      ensures Handled(gt, Execute(old(Core()), old(gt.Contents()), ins))
    {
      hide PrintArgs, Core, Reader.Valid, Vars.Valid, GlobalTable.Table.Contents, GlobalTable.Table.Valid;
      hide GlobalTable.Grows, GlobalTable.Table.Snapshot;
      gt.Still();
      var text := ReadToken();
      PrintValues(text.value.text, ins.args);
    }

    /** The program when a line that met the end of the file has been executed. */
    ghost function Settled(): Proc
      requires Valid()
      reads this, reader`pos, reader`c, reader`line, reader`state, vars, vars.Repr
    {
      if reader.state == LastLine then Core().(status := Machine.Status.Finished) else Core()
    }

    /** The program is where that jump leads. */
    twostate predicate Jumped(t: Tape)
      reads this, reader, vars, vars.Repr
    {
      && Valid() && fresh(vars.Repr - old(vars.Repr)) && Settled() == t.core && reader.state != Waiting
      && (Alive(t.core) ==> reader.tokens == [] && reader.Going() && reader.Ahead() == t.ahead)
    }

    /** Goes to a label that the table knows. */
    method JumpKnown(target: string)
      requires Valid() && reader.Going() && reader.state == InstructionLine && reader.tokens == []
        && target in vars.slots
      modifies this`reason, reader
      ensures Jumped(Leap(old(Abstract()), target))
    {
      hide Reader.Valid, Vars.Contents, SeekLabel, Vars.Valid, Leap;
      vars.ContentsAt(target);
      LeapKnown(Abstract(), target);
      if vars.slots[target][0] == MARK {
        var left := vars.slots[target][1];
        reader.Seek(if left <= |reader.text| then left else 0);
      } else {
        Stop(LabelIsVariable);
      }
    }

    /** Takes the tokens of a line out of the buffer; only the first is looked at. */
    method DropTokens() returns (first: Option<Token>)
      modifies reader`tokens
      ensures reader.tokens == [] && first == if old(reader.tokens) == [] then None else Some(old(reader.tokens)[0])
    {
      first := ReadToken();
      while |reader.tokens| > 0
      {
        var t := ReadToken();
      }
    }

    /** Tokenizes a line only to see what it begins with. */
    method PeekLine() returns (first: Option<Token>)
      requires Valid() && reader.Going() && reader.tokens == []
      modifies reader, reader.input
      ensures Valid() && reader.tokens == []
      ensures var r := Tokenize(old(reader.Ahead()), old(reader.state) == LastLine);
        if r.Failed? || r.tokens == [] then reader.state == Phase.Finished || first.None?
        else (first == Some(r.tokens[0]) && reader.Going() && Core() == old(Core())
              && reader.Ahead() == r.ahead && (reader.state == LastLine <==> r.last))
    {
      hide Reader.Valid, Vars.Contents, Vars.Valid, Tokenize;
      reader.TokenizeNextLine();
      first := DropTokens();
    }

    /** Notes the label and goes behind it. */
    method EnterLabel(target: string, left: nat)
      requires Valid() && reader.Going() && target !in vars.slots
      modifies reader`pos, reader`c, reader`line, vars
      ensures Valid() && fresh(vars.Repr - old(vars.Repr))
      ensures Core() == old(Core()).(table := old(Core()).table[target := Mark(left)])
      ensures reader.Ahead() == TapeMachine.Seek(reader.text, left)
    {
      hide Reader.Valid, Vars.Contents, Vars.Valid;
      vars.ContentsAt(target);
      var done := vars.InsertLabel(target, left);
      reader.Seek(if left <= |reader.text| then left else 0);
    }

    /** Tokenizes line after line up to one that begins with the label. */
    method FindLabel(target: string) returns (hit: Hit)
      requires Valid() && reader.Going() && reader.tokens == []
      modifies reader, reader.input
      ensures Valid() && hit == SeekLabel(old(reader.Ahead()), old(reader.state) == LastLine, target)
      ensures hit.Hit? ==>
        reader.Going() && reader.tokens == [] && (reader.state == LastLine <==> hit.last) && Core() == old(Core())
    {
      hide Reader.Valid, Vars.Valid, Core, Tokenize, SeekLabel;
      while true
        invariant Valid() && reader.Going() && reader.tokens == [] && Core() == old(Core())
        invariant SeekLabel(reader.Ahead(), reader.state == LastLine, target) ==
                  SeekLabel(old(reader.Ahead()), old(reader.state) == LastLine, target)
        decreases |reader.Ahead()|
      {
        SeekStep(reader.Ahead(), reader.state == LastLine, target);
        var first := PeekLine();
        if reader.state == Phase.Finished || first.None? { return Lost; }
        if first.value.LabelTok? && first.value.name == target {
          return Hit(first.value.left, reader.state == LastLine);
        }
      }
    }

    method JumpForward(target: string)
      requires Valid() && reader.Going() && reader.state == InstructionLine && reader.tokens == []
        && target !in vars.slots
      modifies this`reason, reader, reader.input, vars
      ensures Jumped(Leap(old(Abstract()), target))
    {
      hide Reader.Valid, Vars.Contents, Vars.Valid, SeekLabel, TapeMachine.Seek;
      vars.ContentsAt(target);
      var hit := FindLabel(target);
      match hit {
        case Lost => Stop(LabelUndefined);
        case Hit(left, _) => EnterLabel(target, left);
      }
    }

    method Jump(target: string)
      requires Valid() && reader.Going() && reader.state == InstructionLine && reader.tokens == []
      modifies this`reason, reader, reader.input, vars
      ensures Jumped(Leap(old(Abstract()), target))
    {
      hide Reader.Valid, Vars.Contents, Vars.Valid, Leap;
      if target in vars.slots { JumpKnown(target); } else { JumpForward(target); }
    }

    /** Program and globals are as that interpretation leaves them, but for the end of a last
        line. */
    twostate predicate Reached(gt: GlobalTable.Table, s: Spot)
      requires old(gt.Valid())
      reads this, reader, vars, vars.Repr, gt, gt.Repr
    {
      && Valid() && gt.Valid() && Apart(gt) && gt.Contents() == s.glob && Settled() == s.tape.core
      && fresh(vars.Repr - old(vars.Repr)) && fresh(gt.Repr - old(gt.Repr))
      && GlobalTable.Grows(old(gt.Snapshot()), gt.Snapshot())
      && (Alive(s.tape.core) ==> reader.tokens == [] && !reader.error && reader.Ahead() == s.tape.ahead)
      && (reader.state == Waiting ==> Parked(gt))
    }

    method BraHandler(gt: GlobalTable.Table, ghost ins: Instr)
      requires Valid() && reader.Going() && reader.state == InstructionLine && gt.Valid() && Apart(gt)
      requires ins.Bra? && |reader.tokens| == 1 && reader.tokens[0].LabelTok? && reader.tokens[0].name == ins.target
      modifies this, reader, reader.input, vars, vars.Repr
      ensures Reached(gt, Perform(old(Abstract()), old(gt.Contents()), ins))
    {
      hide Reader.Valid, Vars.Valid, Core, Leap, GlobalTable.Table.Contents, GlobalTable.Table.Valid;
      hide GlobalTable.Grows, GlobalTable.Table.Snapshot;
      gt.Still();
      var l := ReadToken();
      Jump(l.value.name);
    }

    /** Evaluates the condition of a branch and takes its label out of the buffer. */
    method Compare(ghost ins: Instr, rel: Relation) returns (ok: bool, jump: bool, target: string)
      requires Valid() && reader.Going() && ins.Branch? && ins.rel == rel && |reader.tokens| == 3
        && reader.tokens[2].LabelTok?
      requires reader.tokens[..2] == [OperandTok(ins.left), OperandTok(ins.right)]
      requires reader.tokens[2].name == ins.target
      modifies this`reason, reader`state, reader`error, reader`tokens, vars.Repr
      ensures Valid() && fresh(vars.Repr - old(vars.Repr))
      ensures var b := EvalBoth(old(Core()), ins.left, ins.right);
        Core() == b.after && ok == b.ok && (ok ==> jump == Syntax.Holds(rel, b.left, b.right))
      ensures
        if ok then reader.state == old(reader.state) && !reader.error && reader.tokens == [] && target == ins.target
              else !Alive(Core()) && Over()
    {
      hide Reader.Valid, Vars.Valid, Core, EvalBoth;
      jump, target := false, "";
      var left := ReadToken();
      var right := ReadToken();
      var x, y;
      ok, x, y := Values(left.value.operand, right.value.operand);
      if ok {
        var l := ReadToken();
        jump, target := Syntax.Holds(rel, x, y), l.value.name;
      }
    }

    method BranchHandler(gt: GlobalTable.Table, ghost ins: Instr, rel: Relation)
      requires Valid() && reader.Going() && reader.state == InstructionLine && gt.Valid() && Apart(gt)
      requires ins.Branch? && ins.rel == rel && |reader.tokens| == 3 && reader.tokens[2].LabelTok?
      requires reader.tokens[..2] == [OperandTok(ins.left), OperandTok(ins.right)]
      requires reader.tokens[2].name == ins.target
      modifies this, reader, reader.input, vars, vars.Repr
      ensures Reached(gt, Perform(old(Abstract()), old(gt.Contents()), ins))
    {
      hide Reader.Valid, Vars.Valid, Core, Leap, EvalBoth, GlobalTable.Table.Contents, GlobalTable.Table.Valid;
      hide GlobalTable.Grows, GlobalTable.Table.Snapshot;
      gt.Still();
      var ok, jump, target := Compare(ins, rel);
      if ok && jump { Jump(target); }
    }

    /** The instructions that go on with the next line. */
    method CallPlain(gt: GlobalTable.Table, code: Opcode, ghost ins: Instr)
      requires Valid() && reader.Going() && gt.Valid() && Apart(gt) && !code.BranchOp? && !code.BraOp?
      requires ReadInstruction(None, code, reader.tokens) == Reading(Line(None, ins), [])
      modifies this, reader`state, reader`error, reader`tokens, vars.Repr, gt.Repr
      ensures Handled(gt, Execute(old(Core()), old(gt.Contents()), ins))
    {
      hide Reader.Valid, Vars.Valid, Core, Execute, GlobalTable.Table.Contents, GlobalTable.Table.Valid;
      hide Handled, Parked;
      hide GlobalTable.Grows, GlobalTable.Table.Snapshot;
      if code.LoadOp? { LoadHandler(gt, ins); }
      else if code.StoreOp? { StoreHandler(gt, ins); }
      else if code.SetOp? { SetHandler(gt, ins); }
      else if code.ArithOp? { PrimitiveOpHandler(gt, ins, code.op); }
      else if code.DownOp? { DownHandler(gt, ins); }
      else if code.UpOp? { UpHandler(gt, ins); }
      else if code.SleepOp? { SleepHandler(gt, ins); }
      else if code.PrintOp? { PrintHandler(gt, ins); }
      else { ReturnHandler(gt); }
    }

    method CallHandler(gt: GlobalTable.Table, code: Opcode, ghost ins: Instr)
      requires Valid() && reader.Going() && gt.Valid() && Apart(gt)
      requires ReadInstruction(None, code, reader.tokens) == Reading(Line(None, ins), [])
      requires SourceText.Jumps(ins) ==> reader.state == InstructionLine
      modifies this, reader, reader.input, vars.Repr, gt.Repr
      ensures Reached(gt, Proceed(old(Abstract()), old(gt.Contents()), ins, old(reader.state) == LastLine))
    {
      hide Reader.Valid, Vars.Valid, Core, Perform, Execute, Parked, GlobalTable.Table.Contents;
      hide GlobalTable.Table.Valid;
      hide GlobalTable.Grows, GlobalTable.Table.Snapshot;
      if code.BranchOp? {
        BranchHandler(gt, ins, code.rel);
      } else if code.BraOp? {
        BraHandler(gt, ins);
      } else {
        CallPlain(gt, code, ins);
        CoreMode();
        PlainProceeds(old(Abstract()), old(gt.Contents()), ins, old(reader.state) == LastLine);
      }
    }

    /** Notes the label of the line that is entered. */
    method EnterLine(name: string, left: nat)
      requires Valid() && reader.Going()
      modifies this`reason, reader`state, reader`error, vars
      ensures Valid() && fresh(vars.Repr - old(vars.Repr))
      ensures Core() == Enter(old(Core()), name, left)
      ensures if reader.state == old(reader.state) then !reader.error else !Alive(Core()) && Over()
    {
      hide Reader.Valid, Vars.Valid, Vars.Contents;
      vars.ContentsAt(name);
      var r := vars.InsertLabel(name, left);
      match r {
        case Inserted =>
        case IsVariable => reader.state := Phase.Undefined;
        case Redefined => Stop(LabelRedefined);
      }
    }

    /** Executes the tokens of one line. */
    method ExecInstructionLine(gt: GlobalTable.Table, ghost r: Scanned)
      requires Valid() && reader.Going() && gt.Valid() && Apart(gt)
      requires r.Done? && r.tokens != [] && reader.tokens == r.tokens && (reader.state == LastLine <==> r.last)
      requires ReadLine(r.tokens).Reading? && ReadLine(r.tokens).rest == []
      requires SourceText.Jumps(ReadLine(r.tokens).line.instr) ==> reader.state == InstructionLine
      modifies this, reader, reader.input, vars, vars.Repr, gt.Repr
      ensures Reached(gt, Interpreted(old(Abstract()), old(gt.Contents()), r))
    {
      hide Reader.Valid, Vars.Valid, Core, Proceed, Enter, GlobalTable.Table.Contents, GlobalTable.Table.Valid;
      hide Parked, ReadInstruction, ReadLine;
      hide GlobalTable.Grows, GlobalTable.Table.Snapshot;
      gt.Still();
      ghost var ins := ReadLine(r.tokens).line.instr;
      CoreMode();
      var t := ReadToken();
      if t.value.LabelTok? {
        EnterLine(t.value.name, t.value.left);
        CoreMode();
        if reader.state == Phase.Finished || reader.state == Phase.Undefined { return; }
        t := ReadToken();
      }
      TagsDoNotMatter(r.tokens);
      CallHandler(gt, t.value.code, ins);
    }

    /** Between two lines: no token is left over. */
    ghost predicate Resting()
      reads reader`state, reader`tokens, reader`error
    {
      reader.tokens == [] && !reader.error && reader.state != LastLine
    }

    /** The program may be visited. */
    ghost predicate Servable(gt: GlobalTable.Table)
      reads this, reader, vars, vars.Repr, gt, gt.Repr
    {
      && Valid() && gt.Valid() && Apart(gt)
      && (Alive(Core()) ==> Resting()) && (reader.state == Waiting ==> Parked(gt))
    }

    /** The program is where the tape is. */
    ghost predicate IsAt(t: Tape)
      requires Valid()
      reads this, reader`pos, reader`c, reader`line, reader`state, vars, vars.Repr
    {
      Core() == t.core && reader.text == t.text && (Alive(t.core) ==> reader.Ahead() == t.ahead)
    }

    /** Tokenizes the next line; a line that cannot be read stops the program. */
    method TokenizeLine() returns (ok: bool)
      requires Valid() && Resting() && reader.state == InstructionLine
      modifies this`reason, reader, reader.input
      ensures Valid()
      ensures var r := Tokenize(old(reader.Ahead()), false);
        if r.Failed? then !ok && Over() && Core() == Halt(old(Core()), BadSyntax)
        else (ok && reader.Going() && reader.tokens == r.tokens && reader.Ahead() == r.ahead
              && (reader.state == LastLine <==> r.last) && Core() == old(Core()))
    {
      hide Reader.Valid, Vars.Valid, Tokenize, Vars.Contents;
      reader.TokenizeNextLine();
      ok := reader.state != Phase.Finished;
      if !ok { reason := Some(BadSyntax); }
    }

    method End()
      requires Valid()
      modifies reader`state
      ensures Valid() && Over() && Core() == old(Core()).(status := Machine.Status.Finished)
    {
      hide Reader.Valid, Vars.Valid, Vars.Contents;
      reader.state := Phase.Finished;
    }

    /** Tokenizes and executes the next line. */
    method InterpretNextLine(gt: GlobalTable.Table)
      requires Servable(gt) && reader.state == InstructionLine
      modifies this, reader, reader.input, vars, vars.Repr, gt.Repr
      ensures Servable(gt) && fresh(vars.Repr - old(vars.Repr)) && fresh(gt.Repr - old(gt.Repr))
      ensures GlobalTable.Grows(old(gt.Snapshot()), gt.Snapshot())
      ensures var s := Step(old(Abstract()), old(gt.Contents()));
        gt.Contents() == s.glob && IsAt(s.tape)
    {
      hide Reader.Valid, Vars.Valid, Core, GlobalTable.Table.Contents, GlobalTable.Table.Valid, Parked;
      hide Tokenize, Interpreted, ReadLine, Step;
      hide GlobalTable.Grows, GlobalTable.Table.Snapshot;
      gt.Still();
      ghost var r := Tokenize(reader.Ahead(), false);
      CoreMode();
      StepIs(Abstract(), gt.Contents());
      StepText(Abstract(), gt.Contents());
      var ok := TokenizeLine();
      if !ok { return; }
      if |reader.tokens| == 0 {
        End();
        return;
      }
      ExecInstructionLine(gt, r);
      CoreMode();
      if reader.state == LastLine { End(); }
    }

    lemma IsAtReady(gt: GlobalTable.Table, t: Tape)
      requires Servable(gt) && IsAt(t)
      ensures reader.state == InstructionLine <==> t.core.status.Ready?
      ensures t.core.status.Ready? ==> Abstract() == t
    {}

    // ----- what the scheduler does with a program that sleeps or waits -----

    /** Lets one slice of the sleep pass. */
    method SleepOn(slice: int)
      requires Valid() && reader.state == Asleep
      modifies this`sec, this`nsec, reader`state
      ensures Valid() && Core() == Machine.Doze(old(Core()), slice)
      ensures reader.state == Asleep || reader.state == InstructionLine
    {
      hide Reader.Valid, Vars.Valid, Vars.Contents;
      var diff := nsec - slice;
      if diff < 0 {
        if sec == 0 {
          reader.state := InstructionLine;
        } else {
          sec := sec - 1;
          nsec := diff + NSEC;
        }
      } else {
        nsec := diff;
      }
    }

    /** Takes a unit of the semaphore if there is one; nobody else is at work meanwhile. */
    method WaitOn(gt: GlobalTable.Table)
      requires Valid() && reader.state == Waiting && gt.Valid() && Apart(gt) && Parked(gt)
      modifies reader`state, gt.Repr
      ensures Valid() && gt.Valid() && Apart(gt) && Parked(gt) && fresh(gt.Repr - old(gt.Repr))
      ensures GlobalTable.Grows(old(gt.Snapshot()), gt.Snapshot())
      ensures var r := Grant(old(Core()), old(gt.Contents()));
        Core() == r.proc && gt.Contents() == r.glob && (reader.state == Waiting || reader.state == InstructionLine)
    {
      hide Reader.Valid, Vars.Valid, Vars.Contents, GlobalTable.Table.Contents;
      hide GlobalTable.Grows, GlobalTable.Table.Snapshot;
      var granted := gt.StateBlocked(sem, blockedIdx, semName, []);
      if granted { reader.state := InstructionLine; }
    }
  }

  lemma {:induction false} LeapKnown(t: Tape, target: string)
    requires target in t.core.table
    ensures Leap(t, target) ==
      match t.core.table[target]
      case Mark(left) => t.(ahead := " " + if left <= |t.text| then t.text[|t.text| - left..] else "")
      case Cells(_) => t.(core := Halt(t.core, LabelIsVariable))
  {
    hide SeekLabel;
  }

  /** What Step does with the tokens of a line. */
  function Interpreted(t: Tape, g: Globals.Store, r: Scanned): Spot
    requires r.Done? && r.tokens != [] && ReadLine(r.tokens).Reading?
  {
    var c := if r.tokens[0].LabelTok? then Enter(t.core, r.tokens[0].name, r.tokens[0].left) else t.core;
    if c.status.Ready? then Proceed(t.(core := c), g, ReadLine(r.tokens).line.instr, r.last) else Spot(t.(core := c), g)
  }

  lemma {:induction false} StepIs(t: Tape, g: Globals.Store)
    ensures var r := Tokenize(t.ahead, false);
      if r.Failed? then Step(t, g) == Spot(t.(core := Halt(t.core, BadSyntax)), g)
      else if r.tokens == [] then Step(t, g) == Spot(t.(core := t.core.(status := Machine.Status.Finished)), g)
      else (ReadLine(r.tokens).Reading? && ReadLine(r.tokens).rest == []
            && (SourceText.Jumps(ReadLine(r.tokens).line.instr) ==> !r.last)
            && Step(t, g) == Interpreted(t.(ahead := r.ahead), g, r))
  {
    hide Tokenize, ReadLine, Enter, Proceed;
    var r := Tokenize(t.ahead, false);
    if r.Done? && r.tokens != [] {
      Lockstep(t.ahead, false);
      BranchIsNotLast(t.ahead, false);
    }
  }

  lemma {:induction false} StepText(t: Tape, g: Globals.Store)
    ensures Step(t, g).tape.text == t.text
  {
    hide Tokenize, ReadLine, Enter, Execute, EvalBoth, SeekLabel;
  }

  lemma TagsDoNotMatter(ts: seq<Token>)
    requires ReadLine(ts).Reading?
    ensures |ts| > 0 && (ts[0].LabelTok? ==> |ts| > 1) && ts[if ts[0].LabelTok? then 1 else 0].InstrTok?
    ensures var k := if ts[0].LabelTok? then 2 else 1;
      ReadInstruction(None, ts[k - 1].code, ts[k..]) == Reading(Line(None, ReadLine(ts).line.instr), ReadLine(ts).rest)
  {}

  lemma {:induction false} LoadIs(p: Proc, g: Globals.Store, ins: Instr)
    requires ins.Load?
    ensures var at := Machine.Locate(p, ins.glob);
      Execute(p, g, ins) ==
        if !at.ok then Pair(at.after, g)
        else
          var v := Cell(g, at.name, at.idx);
          Pair(After(at.after, Locals.Assign(ins.dst, v, at.after.table, p.args)), Touch(g, at.name, at.idx))
  {
    hide Machine.Locate, Eval, Locals.Assign, Touch, Cell, After;
  }

  lemma {:induction false} StoreIs(p: Proc, g: Globals.Store, ins: Instr)
    requires ins.Store?
    ensures var at := Machine.Locate(p, ins.glob);
      var e := Eval(ins.src, at.after.table, p.args);
      Execute(p, g, ins) ==
        if !at.ok then Pair(at.after, g)
        else if !e.out.Ok? then Pair(After(at.after, e), g)
        else Pair(After(at.after, e), Put(g, at.name, at.idx, e.out.value))
  {
    hide Machine.Locate, Eval, Locals.Assign, Put, Cell, After;
  }

  lemma {:induction false} SetIs(p: Proc, g: Globals.Store, ins: Instr)
    requires ins.Set?
    ensures var e := Eval(ins.src, p.table, p.args);
      Execute(p, g, ins) ==
        Pair(After(p, if e.out.Ok? then Locals.Assign(ins.dst, e.out.value, e.table, p.args) else e), g)
  {
    hide Eval, Locals.Assign, After;
  }

  lemma {:induction false} ArithIs(p: Proc, g: Globals.Store, ins: Instr)
    requires ins.Arith?
    ensures var b := EvalBoth(p, ins.left, ins.right);
      var v := Compute(ins.op, b.left, b.right);
      Execute(p, g, ins) ==
        if !b.ok then Pair(b.after, g)
        else if v.None? then Pair(b.after.(status := Wild), g)
        else Pair(After(b.after, Locals.Assign(ins.dst, v.value, b.after.table, p.args)), g)
  {
    hide EvalBoth, Locals.Assign, After, Compute;
  }

  /** An instruction that does not jump leaves the lookahead where it is. */
  lemma {:induction false} PlainProceeds(t: Tape, g: Globals.Store, ins: Instr, last: bool)
    requires !SourceText.Jumps(ins)
    ensures var r := Execute(t.core, g, ins);
      Proceed(t, g, ins, last) ==
      Spot(t.(core := if last && r.proc.status.Ready? then r.proc.(status := Machine.Status.Finished) else r.proc),
        r.glob)
  {
    hide Execute;
  }

  lemma {:induction false} SeekStep(s: string, last: bool, target: string)
    ensures var r := Tokenize(s, last);
      SeekLabel(s, last, target) ==
      if r.Failed? || r.tokens == [] then Lost
      else if r.tokens[0].LabelTok? && r.tokens[0].name == target then Hit(r.tokens[0].left, r.last)
      else SeekLabel(r.ahead, r.last, target)
    ensures var r := Tokenize(s, last);
      r.Done? && r.tokens != [] ==> |r.ahead| < |s|
  {
    hide Tokenize;
    SourceText.TokenizeShrinks(s, last);
  }

  lemma {:induction false} PrintStep(p: Proc, args: seq<Operand>, text: string, shown: seq<int>)
    ensures PrintArgs(p, args, text, shown) ==
      if args == [] then p.(out := p.out + [Machine.Printed(text, shown)])
      else
        var e := Eval(args[0], p.table, p.args);
        if e.out.Ok? then PrintArgs(After(p, e), args[1..], text, shown + [e.out.value])
        else After(p, e).(out := p.out + [Machine.Printed(text, shown)])
  {
    hide Eval;
  }
}
