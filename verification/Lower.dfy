/** Lowering to basic blocks: what the translator emits, as a function of the builder's state,
    and the translator itself, which updates that state in place. */
module Lowering {
  import opened Options
  import opened Ast
  import opened Cfg
  import opened Nodes
  import Int32

  /** What earlier passes know: links, the lifted variables of each function in the order of its
      header, the functions without a result, and `_main`. */
  datatype Ctx = Ctx(links: Links, lifted: map<Id, seq<Id>>, voids: set<Id>, main: Id)

  function Lifted(cx: Ctx, f: Id): seq<Id> { if f in cx.lifted then cx.lifted[f] else [] }

  /** A function header: the lifted variables, then the formals. */
  datatype Proto = Proto(fn: Id, params: seq<Id>)

  type Locals = map<Id, map<Id, Operand>>

  /** The builder and the translator's tables.  value is the translation of the last node. */
  datatype St = St(
    blocks: seq<Block>, cur: nat, regs: nat, value: Operand, fn: Id,
    locals: Locals, loopEnd: map<Id, nat>, protos: seq<Proto>, entries: map<Id, nat>)

  const ZERO := Imm(0)

  // ----- the builder -----

  function Emit(st: St, i: Instr): St {
    if st.cur >= |st.blocks| then st else
    var b := st.blocks[st.cur];
    st.(blocks := st.blocks[st.cur := b.(instrs := b.instrs + [i])])
  }

  /** Emit an instruction whose result goes to the next register. */
  function EmitTo(st: St, i: Instr): St { Emit(st, i).(value := Reg(st.regs), regs := st.regs + 1) }

  /** Create a block in the current function, without moving to it. */
  function NewBlock(st: St): St { st.(blocks := st.blocks + [Block(st.fn, [])]) }

  function Local(l: Locals, f: Id, d: Id): Option<Operand> {
    if f in l then Find(l[f], d) else None
  }

  function Bind(st: St, f: Id, d: Id, a: Operand): St {
    var now := if f in st.locals then st.locals[f] else map[];
    st.(locals := st.locals[f := now[d := a]])
  }

  /** The first function, in creation order, that knows d. */
  function Elsewhere(st: St, ps: seq<Proto>, d: Id): Operand {
    if ps == [] then NoValue
    else var a := Local(st.locals, ps[0].fn, d); if a.Some? then a.value else Elsewhere(st, ps[1..], d)
  }

  function AccessVar(st: St, d: Id): Operand {
    var a := Local(st.locals, st.fn, d);
    if a.Some? then a.value else Elsewhere(st, st.protos, d)
  }

  // ----- types -----

  /** Whether e has no value, as the type checker has it. */
  predicate Voids(cx: Ctx, e: Exp) {
    match e
    case IntExp(_) => false
    case VarExp(_, _) => false
    case OpExp(_, _, _) => false
    case SeqExp(es) => VoidsLast(cx, es)
    case AssignExp(_, _, _) => true
    case IfExp(_, t, _) => Voids(cx, t)
    case WhileExp(_, _, _) => true
    case ForExp(_, _, _, _) => true
    case BreakExp(_) => true
    case CallExp(id, _, _) => id !in cx.links || cx.links[id] in cx.voids
    case LetExp(sc) => VoidsScope(cx, sc)
  }

  predicate VoidsLast(cx: Ctx, es: Exps) {
    match es
    case ENil => true
    case ECons(e, rest) => if rest.ENil? then Voids(cx, e) else VoidsLast(cx, rest)
  }

  predicate VoidsScope(cx: Ctx, sc: Scope) {
    match sc
    case In(b) => Voids(cx, b)
    case With(_, rest) => VoidsScope(cx, rest)
  }

  // ----- what is emitted -----

  function Link(cx: Ctx, id: Id): Id { if id in cx.links then cx.links[id] else id }

  function Lower(cx: Ctx, e: Exp, st: St): St
    decreases e, 1
  {
    match e
    case IntExp(n) => st.(value := Imm(Int32.Wrap(n)))
    case VarExp(id, _) => EmitTo(st, Load(st.regs, AccessVar(st, Link(cx, id))))
    case OpExp(l, op, r) =>
      var s1 := Lower(cx, l, st);
      var s2 := Lower(cx, r, s1);
      EmitOp(s2, op, s1.value, s2.value)
    case SeqExp(es) => if es.ENil? then st.(value := ZERO) else LowerSeq(cx, es, st)
    case AssignExp(id, _, r) =>
      var ptr := AccessVar(st, Link(cx, id));
      var s1 := Lower(cx, r, st);
      Emit(s1, Store(s1.value, ptr)).(value := ZERO)
    case IfExp(_, _, _) => LowerIf(cx, e, st)
    case WhileExp(_, _, _) => LowerWhile(cx, e, st)
    case ForExp(_, _, _, _) => st
    case BreakExp(id) =>
      if Link(cx, id) !in st.loopEnd then st else
      var s1 := NewBlock(Emit(st, Br(st.loopEnd[Link(cx, id)])));
      s1.(cur := |st.blocks|, value := ZERO)
    case CallExp(id, _, args) =>
      var q := Link(cx, id);
      var (lifted, s1) := LowerLifted(Lifted(cx, q), st);
      var (actuals, s2) := LowerArgs(cx, args, s1);
      EmitCall(cx, s2, q, lifted + actuals)
    case LetExp(sc) => LowerScope(cx, sc, st)
  }

  /** Comparisons give one bit and are widened. */
  function EmitOp(st: St, op: Oper, a: Operand, b: Operand): St {
    var s1 := EmitTo(st, Arith(st.regs, op, a, b));
    if op.Add? || op.Sub? || op.Mul? || op.Div? then s1 else EmitTo(s1, ZExt(s1.regs, s1.value))
  }

  function EmitCall(cx: Ctx, st: St, q: Id, args: seq<Operand>): St {
    var s1 := EmitTo(st, Call(st.regs, q, args));
    if q in cx.voids then s1.(value := ZERO) else s1
  }

  function LowerSeq(cx: Ctx, es: Exps, st: St): St
    decreases es, 0
  {
    match es
    case ENil => st
    case ECons(e, rest) => LowerSeq(cx, rest, Lower(cx, e, st))
  }

  /** The current function's access to each lifted variable of the callee; a missing one is
      entered as null. */
  function LowerLifted(ds: seq<Id>, st: St): (seq<Operand>, St) {
    if ds == [] then ([], st) else
    var a := Local(st.locals, st.fn, ds[0]);
    if a.Some? then
      var (rest, s1) := LowerLifted(ds[1..], st);
      ([a.value] + rest, s1)
    else
      var (rest, s1) := LowerLifted(ds[1..], Bind(st, st.fn, ds[0], NoValue));
      ([NoValue] + rest, s1)
  }

  function LowerArgs(cx: Ctx, es: Exps, st: St): (seq<Operand>, St)
    decreases es, 0
  {
    match es
    case ENil => ([], st)
    case ECons(e, rest) =>
      var s1 := Lower(cx, e, st);
      var (args, s2) := LowerArgs(cx, rest, s1);
      ([s1.value] + args, s2)
  }

  /** Test a condition: the result of the comparison with zero. */
  function EmitTest(st: St): St { EmitTo(st, Arith(st.regs, Ne, st.value, ZERO)) }

  /** End the current block with i and go on in another. */
  function Branch(st: St, i: Instr, next: nat): St { Emit(st, i).(cur := next) }

  function NewBlocks(st: St): St { NewBlock(NewBlock(NewBlock(st))) }

  /** The first branch is in block n, the second in n + 1, and they meet in n + 2. */
  function LowerIf(cx: Ctx, e: Exp, st: St): St
    requires e.IfExp?
    decreases e, 0
  {
    var s1 := EmitTest(Lower(cx, e.test, st));
    var n := |s1.blocks|;
    var s2 := Branch(NewBlocks(s1), CondBr(s1.value, n, n + 1), n);
    var s3 := Lower(cx, e.thn, s2);
    var s4 := Branch(s3, Br(n + 2), n + 1);
    var s5 := if e.els.SomeExp? then Lower(cx, e.els.exp, s4) else s4.(value := ZERO);
    Meet(cx, e, s3, s5, n + 2)
  }

  /** Join the two branches, that ended in states s3 and s5. */
  function Meet(cx: Ctx, e: Exp, s3: St, s5: St, merge: nat): St {
    var s6 := Branch(s5, Br(merge), merge);
    if Voids(cx, e) then s6.(value := ZERO)
    else EmitTo(s6, Phi(s6.regs, s3.value, s3.cur, s5.value, s5.cur))
  }

  /** The test is in block n, the body in n + 1, and the loop ends in n + 2. */
  function LowerWhile(cx: Ctx, e: Exp, st: St): St
    requires e.WhileExp?
    decreases e, 0
  {
    var n := |st.blocks|;
    var s1 := NewBlocks(st).(loopEnd := st.loopEnd[e.id := n + 2]);
    var s2 := EmitTest(Lower(cx, e.test, Branch(s1, Br(n), n)));
    var s3 := Lower(cx, e.body, Branch(s2, CondBr(s2.value, n + 1, n + 2), n + 1));
    Branch(s3, Br(n), n + 2)
  }

  function LowerScope(cx: Ctx, sc: Scope, st: St): St
    decreases sc, 0
  {
    match sc
    case In(b) => Lower(cx, b, st)
    case With(VarChunk(d), rest) => LowerScope(cx, rest, LowerVarDec(cx, d, st))
    case With(FunctionChunk(ds), rest) => LowerScope(cx, rest, LowerDecs(cx, ds, LowerHeaders(cx, ds, st)))
    case With(TypeChunk(_), rest) => LowerScope(cx, rest, st)
  }

  /** A variable of `_main` is a global, known once its initialiser is translated; any other is a
      slot, known before. */
  function LowerVarDec(cx: Ctx, d: VarDec, st: St): St
    decreases d, 0
  {
    if st.fn == cx.main then
      var s1 := Lower(cx, d.init, st);
      Bind(Emit(s1, Store(s1.value, Global(d.id))), st.fn, d.id, Global(d.id)).(value := ZERO)
    else
      var s1 := Lower(cx, d.init, Bind(st, st.fn, d.id, Slot(d.id)));
      Emit(s1, Store(s1.value, Slot(d.id))).(value := ZERO)
  }

  function FormalIds(fs: seq<Formal>): seq<Id> {
    if fs == [] then [] else [fs[0].id] + FormalIds(fs[1..])
  }

  function LowerHeaders(cx: Ctx, ds: Decs, st: St): St {
    match ds
    case DNil => st
    case DCons(d, rest) =>
      LowerHeaders(cx, rest, st.(protos := st.protos + [Proto(d.id, Lifted(cx, d.id) + FormalIds(d.formals))]))
  }

  function LowerDecs(cx: Ctx, ds: Decs, st: St): St
    decreases ds, 0
  {
    match ds
    case DNil => st
    case DCons(d, rest) => LowerDecs(cx, rest, if d.body.SomeExp? then LowerDec(cx, d, st) else st)
  }

  /** The body goes to blocks of its own; then the insertion point and the function come back. */
  function LowerDec(cx: Ctx, d: FunctionDec, st: St): St
    requires d.body.SomeExp?
    decreases d, 0
  {
    LowerBody(cx, d, Open(d, st)).(cur := st.cur, fn := st.fn)
  }

  function Open(d: FunctionDec, st: St): St {
    NewBlock(st.(fn := d.id)).(cur := |st.blocks|, entries := st.entries[d.id := |st.blocks|])
  }

  function LowerBody(cx: Ctx, d: FunctionDec, st: St): St
    requires d.body.SomeExp?
    decreases d.body.exp, 2
  {
    var s1 := Lower(cx, d.body.exp, Prologue(cx, d, st));
    Emit(s1, if d.result.None? then RetVoid else Ret(s1.value))
  }

  function Prologue(cx: Ctx, d: FunctionDec, st: St): St {
    BindFormalSlots(d.formals, |Lifted(cx, d.id)|, BindLifted(Lifted(cx, d.id), 0, st))
  }

  function BindLifted(ds: seq<Id>, k: nat, st: St): St {
    if ds == [] then st else BindLifted(ds[1..], k + 1, Bind(st, st.fn, ds[0], Param(k)))
  }

  function BindFormalSlots(fs: seq<Formal>, k: nat, st: St): St {
    if fs == [] then st
    else BindFormalSlots(fs[1..], k + 1, Emit(Bind(st, st.fn, fs[0].id, Slot(fs[0].id)), Store(Param(k), Slot(fs[0].id))))
  }
}
