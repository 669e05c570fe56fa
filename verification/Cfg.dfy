/** The target of the translation: functions made of basic blocks over an unbounded set of
    registers, and the machine that runs them.

    A function refers to its own variables by slots of its frame, to the variables of `_main` by
    globals and to lifted ones by pointer parameters; the cell behind each is named by the frame
    that owns it and the declaration.  The frame of `_main` is number 0. */
module Cfg {
  import opened Options
  import opened Ast
  import opened Semantics
  import Int32

  datatype Operand =
    | Imm(n: Int32.I32)
    | Reg(r: nat)
    | Slot(d: Id)
    | Global(d: Id)
    | Param(k: nat)
    | NoValue

  datatype Instr =
    | Arith(dst: nat, op: Oper, a: Operand, b: Operand)
    | ZExt(dst: nat, a: Operand)
    | Load(dst: nat, ptr: Operand)
    | Store(a: Operand, ptr: Operand)
    | Phi(dst: nat, left: Operand, leftBlock: nat, right: Operand, rightBlock: nat)
    | Call(dst: nat, callee: Id, args: seq<Operand>)
    | Br(target: nat)
    | CondBr(cond: Operand, yes: nat, no: nat)
    | Ret(a: Operand)
    | RetVoid

  /** A block belongs to a function; terminators are instructions like any other. */
  datatype Block = Block(fn: Id, instrs: seq<Instr>)

  predicate Terminator(i: Instr) { i.Br? || i.CondBr? || i.Ret? || i.RetVoid? }

  // ----- the machine -----

  datatype Val = VInt(n: Int32.I32) | VPtr(frame: nat, d: Id) | VUndef
  datatype Frame =
    Frame(fn: Id, id: nat, args: seq<Val>, regs: map<nat, Val>, block: nat, pc: nat, prev: nat)
  /** The suspended callers, each with the register that awaits the result. */
  datatype Stack = Bottom | Caller(frame: Frame, dst: nat, rest: Stack)
  type Memory = map<(nat, Id), Int32.I32>
  datatype Config = Config(top: Frame, below: Stack, mem: Memory, next: nat, trace: seq<Event>)
  datatype Result = Next(c: Config) | Finished(value: Val, trace: seq<Event>) | Stuck

  /** A linked program: its blocks, where each function starts, and the primitives' names. */
  datatype Code = Code(blocks: seq<Block>, entries: map<Id, nat>, primitives: map<Id, Symbol>)

  function Value(f: Frame, a: Operand): Val {
    match a
    case Imm(n) => VInt(n)
    case Reg(r) => if r in f.regs then f.regs[r] else VUndef
    case Slot(d) => VPtr(f.id, d)
    case Global(d) => VPtr(0, d)
    case Param(k) => if k < |f.args| then f.args[k] else VUndef
    case NoValue => VUndef
  }

  function Values(f: Frame, args: seq<Operand>): seq<Val> {
    seq(|args|, k requires 0 <= k < |args| => Value(f, args[k]))
  }

  function Ints(vs: seq<Val>): Option<seq<Int32.I32>> {
    if vs == [] then Some([])
    else if !vs[0].VInt? then None
    else var rest := Ints(vs[1..]); if rest.None? then None else Some([vs[0].n] + rest.value)
  }

  function Set(c: Config, dst: nat, v: Val): Config {
    c.(top := c.top.(regs := c.top.regs[dst := v], pc := c.top.pc + 1))
  }

  function Jump(c: Config, b: nat): Config {
    c.(top := c.top.(block := b, pc := 0, prev := c.top.block))
  }

  function Return(c: Config, v: Val): Result {
    match c.below
    case Bottom => Finished(v, c.trace)
    case Caller(f, dst, rest) => Next(c.(top := f.(regs := f.regs[dst := v]), below := rest))
  }

  function Step(p: Code, o: Oracle, c: Config): Result {
    if c.top.block >= |p.blocks| || c.top.pc >= |p.blocks[c.top.block].instrs| then Stuck
    else Execute(p, o, c, p.blocks[c.top.block].instrs[c.top.pc])
  }

  function Execute(p: Code, o: Oracle, c: Config, i: Instr): Result {
    match i
    case Arith(dst, op, a, b) =>
      var x, y := Value(c.top, a), Value(c.top, b);
      if !x.VInt? || !y.VInt? then Stuck else
      var v := Int32.Apply(op, x.n, y.n);
      if v.Some? then Next(Set(c, dst, VInt(v.value))) else Stuck
    case ZExt(dst, a) => Next(Set(c, dst, Value(c.top, a)))
    case Load(dst, ptr) =>
      var at := Value(c.top, ptr);
      if !at.VPtr? then Stuck
      else Next(Set(c, dst, if (at.frame, at.d) in c.mem then VInt(c.mem[(at.frame, at.d)]) else VUndef))
    case Store(a, ptr) =>
      var x, at := Value(c.top, a), Value(c.top, ptr);
      if !x.VInt? || !at.VPtr? then Stuck
      else Next(c.(mem := c.mem[(at.frame, at.d) := x.n], top := c.top.(pc := c.top.pc + 1)))
    case Phi(dst, l, lb, r, rb) =>
      if c.top.prev == lb then Next(Set(c, dst, Value(c.top, l)))
      else if c.top.prev == rb then Next(Set(c, dst, Value(c.top, r)))
      else Stuck
    case Call(dst, q, args) =>
      var vs := Values(c.top, args);
      if q in p.primitives then
        if Ints(vs).None? then Stuck else
        var trace := c.trace + [Event(p.primitives[q], Ints(vs).value)];
        Next(Set(c.(trace := trace), dst, VInt(Int32.Wrap(o(trace)))))
      else if q in p.entries then
        var frame := Frame(q, c.next, vs, map[], p.entries[q], 0, 0);
        Next(Config(frame, Caller(c.top.(pc := c.top.pc + 1), dst, c.below), c.mem, c.next + 1, c.trace))
      else Stuck
    case Br(b) => Next(Jump(c, b))
    case CondBr(a, yes, no) =>
      var x := Value(c.top, a);
      if !x.VInt? then Stuck else Next(Jump(c, if x.n != 0 then yes else no))
    case Ret(a) => Return(c, Value(c.top, a))
    case RetVoid => Return(c, VInt(0))
  }

  function Steps(p: Code, o: Oracle, c: Config, n: nat): Option<Config>
    decreases n
  {
    if n == 0 then Some(c)
    else var r := Step(p, o, c); if r.Next? then Steps(p, o, r.c, n - 1) else None
  }

  ghost predicate Reaches(p: Code, o: Oracle, a: Config, b: Config) {
    exists n: nat :: Steps(p, o, a, n) == Some(b)
  }

  lemma StepsAdd(p: Code, o: Oracle, a: Config, n: nat, k: nat)
    requires Steps(p, o, a, n).Some?
    ensures Steps(p, o, a, n + k) == Steps(p, o, Steps(p, o, a, n).value, k)
    decreases n
  {
    if n > 0 { StepsAdd(p, o, Step(p, o, a).c, n - 1, k); }
  }

  lemma ReachesSelf(p: Code, o: Oracle, a: Config)
    ensures Reaches(p, o, a, a)
  {
    assert Steps(p, o, a, 0) == Some(a);
  }

  lemma ReachesTrans(p: Code, o: Oracle, a: Config, b: Config, c: Config)
    requires Reaches(p, o, a, b) && Reaches(p, o, b, c)
    ensures Reaches(p, o, a, c)
  {
    var n: nat :| Steps(p, o, a, n) == Some(b);
    var k: nat :| Steps(p, o, b, k) == Some(c);
    StepsAdd(p, o, a, n, k);
    assert Steps(p, o, a, n + k) == Some(c);
  }

  lemma ReachesStep(p: Code, o: Oracle, a: Config, b: Config)
    requires Step(p, o, a) == Next(b)
    ensures Reaches(p, o, a, b)
  {
    assert Steps(p, o, b, 0) == Some(b);
    assert Steps(p, o, a, 1) == Some(b);
  }

  /** What an execution leads to in the end. */
  ghost predicate Ends(p: Code, o: Oracle, a: Config, v: Val, trace: seq<Event>) {
    exists b :: Reaches(p, o, a, b) && Step(p, o, b) == Finished(v, trace)
  }
}
