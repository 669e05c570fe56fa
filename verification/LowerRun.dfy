/** Running emitted code: how a state of the machine matches a state of the source program, and
    what the instructions, branches, loops and calls the translator emits do to it. */
module LowerRun {
  import opened Options
  import opened Ast
  import opened Nodes
  import opened Semantics
  import opened Cfg
  import opened Lowering
  import opened LowerShape
  import opened LowerTables
  import opened LowerReady
  import opened LowerScopes
  import Int32

  /** The activation that owns each variable in scope. */
  type Acts = map<Id, nat>

  /** The machine stands at the insertion point. */
  predicate At(c: Config, st: St) {
    st.cur < |st.blocks| && c.top.block == st.cur && c.top.pc == |st.blocks[st.cur].instrs|
  }

  predicate AtBlock(c: Config, b: nat) { c.top.block == b && c.top.pc == 0 }

  /** Every variable has its value in the cell its activation owns. */
  predicate Cells(env: Env, acts: Acts, mem: Memory) {
    match env
    case Empty => true
    case VarB(id, _, v, rest) =>
      (v.Some? ==> id in acts && (acts[id], id) in mem && mem[(acts[id], id)] == v.value) && Cells(rest, acts, mem)
    case FunB(_, rest) => Cells(rest, acts, mem)
  }

  /** The running frame reaches the variables in scope: its own by slots, the lifted ones by the
      pointers it was given, those of `_main` as globals. */
  ghost predicate Frames(g: World, b: Env, f: Frame, next: nat, acts: Acts) {
    && f.id < next && (f.fn == g.cx.main ==> f.id == 0)
    && (forall d | d in Live(b) ::
          && d in acts && acts[d] < next
          && (Owner(g.w, d) == f.fn ==> acts[d] == f.id) && (Owner(g.w, d) == g.cx.main ==> acts[d] == 0))
    && (forall k | 0 <= k < |Lifted(g.cx, f.fn)| :: Given(g, b, f, acts, k))
  }

  ghost predicate Given(g: World, b: Env, f: Frame, acts: Acts, k: nat)
    requires k < |Lifted(g.cx, f.fn)|
  {
    var d := Lifted(g.cx, f.fn)[k];
    d in Live(b) && d in acts && Owner(g.w, d) != f.fn ==> k < |f.args| && f.args[k] == VPtr(acts[d], d)
  }

  ghost predicate Rel(g: World, s: State, c: Config, acts: Acts, b: Env) {
    && Blank(s.env) == b && s.trace == c.trace
    && Cells(s.env, acts, c.mem) && Frames(g, b, c.top, c.next, acts)
  }

  /** What running code leaves alone: the frame, the registers below regs, and every existing cell
      except those of variables in scope and of the variables ids of the frame itself. */
  ghost predicate Effect(c: Config, c': Config, acts: Acts, b: Env, ids: set<Id>, regs: nat) {
    && c'.below == c.below && c.next <= c'.next
    && c'.top.fn == c.top.fn && c'.top.id == c.top.id && c'.top.args == c.top.args
    && (forall r | r in c.top.regs && r < regs :: Find(c'.top.regs, r) == Some(c.top.regs[r]))
    && (forall a, d | a < c.next && !(d in Live(b) && Find(acts, d) == Some(a)) && !(a == c.top.id && d in ids) ::
          Find(c'.mem, (a, d)) == Find(c.mem, (a, d)))
  }

  /** Only the position and the registers from regs on changed. */
  ghost predicate Quiet(c: Config, c': Config, regs: nat) {
    && c' == c.(top := c.top.(regs := c'.top.regs, block := c'.top.block, pc := c'.top.pc, prev := c'.top.prev))
    && forall r | r in c.top.regs && r < regs :: Find(c'.top.regs, r) == Some(c.top.regs[r])
  }

  /** How the machine matches an outcome of the source. */
  ghost predicate Matches(g: World, r: Outcome, c: Config, c': Config, st: St, st': St, void: bool,
                          acts: Acts, b: Env, ids: set<Id>, lp: Option<Id>) {
    match r
    case Normal(v, s) =>
      && Reaches(g.p, g.o, c, c') && At(c', st') && Rel(g, s, c', acts, b) && Effect(c, c', acts, b, ids, st.regs)
      && (!void ==> Value(c'.top, st'.value) == VInt(v))
    case Broke(s) =>
      && lp.Some? && lp.value in st.loopEnd && Reaches(g.p, g.o, c, c') && AtBlock(c', st.loopEnd[lp.value])
      && Rel(g, s, c', acts, b) && Effect(c, c', acts, b, ids, st.regs)
    case _ => true
  }

  // ----- steps of the machine -----

  lemma Fetch(g: World, c: Config, st: St, i: Instr)
    requires At(c, st) && Grows(Emit(st, i).blocks, g.p.blocks)
    ensures Step(g.p, g.o, c) == Execute(g.p, g.o, c, i)
  {
    var b := Emit(st, i).blocks[st.cur];
    assert b.instrs <= g.p.blocks[st.cur].instrs && b.instrs[c.top.pc] == i;
  }

  /** One more instruction after a run from a to c. */
  lemma Run(g: World, a: Config, c: Config, st: St, i: Instr)
    requires Reaches(g.p, g.o, a, c) && At(c, st) && Grows(Emit(st, i).blocks, g.p.blocks)
    requires Execute(g.p, g.o, c, i).Next?
    ensures Reaches(g.p, g.o, a, Execute(g.p, g.o, c, i).c)
  {
    Fetch(g, c, st, i);
    ReachesStep(g.p, g.o, c, Execute(g.p, g.o, c, i).c);
    ReachesTrans(g.p, g.o, a, c, Execute(g.p, g.o, c, i).c);
  }

  lemma QuietKeeps(g: World, s: State, c: Config, c': Config, acts: Acts, b: Env, ids: set<Id>, regs: nat)
    requires Rel(g, s, c, acts, b) && Quiet(c, c', regs)
    ensures Rel(g, s, c', acts, b) && Effect(c, c', acts, b, ids, regs)
  {
    forall k | 0 <= k < |Lifted(g.cx, c'.top.fn)| ensures Given(g, b, c'.top, acts, k) {
      assert Given(g, b, c.top, acts, k);
    }
  }

  lemma EffectTrans(c: Config, c1: Config, c2: Config, acts: Acts, b: Env, ids: set<Id>, ids': set<Id>, regs: nat, regs': nat)
    requires Effect(c, c1, acts, b, ids, regs) && Effect(c1, c2, acts, b, ids', regs') && regs <= regs'
    ensures Effect(c, c2, acts, b, ids + ids', regs)
  {
    forall r | r in c.top.regs && r < regs ensures Find(c2.top.regs, r) == Some(c.top.regs[r]) {
      assert Find(c1.top.regs, r) == Some(c.top.regs[r]);
    }
    forall a, d | a < c.next && !(d in Live(b) && Find(acts, d) == Some(a)) && !(a == c.top.id && d in ids + ids')
      ensures Find(c2.mem, (a, d)) == Find(c.mem, (a, d))
    {
      assert Find(c1.mem, (a, d)) == Find(c.mem, (a, d));
    }
  }

  lemma EffectMore(c: Config, c': Config, acts: Acts, b: Env, ids: set<Id>, ids': set<Id>, regs: nat, regs': nat)
    requires Effect(c, c', acts, b, ids, regs) && ids <= ids' && regs' <= regs
    ensures Effect(c, c', acts, b, ids', regs')
  {}

  /** The value of an operand survives code that follows. */
  lemma ValueKept(c: Config, c': Config, a: Operand, acts: Acts, b: Env, ids: set<Id>, regs: nat)
    requires Effect(c, c', acts, b, ids, regs) && Value(c.top, a) != VUndef
    requires a.Reg? ==> a.r < regs
    ensures Value(c'.top, a) == Value(c.top, a)
  {
    if a.Reg? { assert Find(c'.top.regs, a.r) == Some(c.top.regs[a.r]); }
  }

  /** A register holds the result of an instruction. */
  lemma RunTo(g: World, a: Config, c: Config, st: St, i: Instr, v: Val) returns (c': Config)
    requires Reaches(g.p, g.o, a, c) && At(c, st) && Grows(Emit(st, i).blocks, g.p.blocks)
    requires Execute(g.p, g.o, c, i) == Next(Set(c, st.regs, v))
    ensures Reaches(g.p, g.o, a, c') && At(c', EmitTo(st, i)) && Quiet(c, c', st.regs)
    ensures Value(c'.top, EmitTo(st, i).value) == v
  {
    Run(g, a, c, st, i);
    c' := Set(c, st.regs, v);
  }

  // ----- one run after another -----

  /** The machine is about to run code that may be translated at st. */
  ghost predicate Poised(g: World, s: State, c: Config, st: St, held: set<int>, lp: Option<Id>, b: Env, acts: Acts, ids: set<Id>) {
    Ready(g, st, held, lp, b, ids) && FunsOk(g, b) && At(c, st) && Rel(g, s, c, acts, b) && c.top.fn == st.fn
  }

  lemma First(g: World, e: Exp, ids: set<Id>, st: St, held: set<int>, lp: Option<Id>, b: Env)
    requires Ready(g, st, held, lp, b, OfExp(e) + ids) && Legal(g, e, st.fn, lp, b) && OfExp(e) !! ids
    ensures Ready(g, st, held, lp, b, OfExp(e)) && Done(g, st, Lower(g.cx, e, st), held, OfExp(e))
    ensures Ready(g, Lower(g.cx, e, st), held, lp, b, ids)
    ensures Lower(g.cx, e, st).fn == st.fn && st.regs <= Lower(g.cx, e, st).regs
  {
    hide Legal, Lower;
    ReadyLess(g, st, held, lp, b, OfExp(e) + ids, OfExp(e));
    Lowered(g, e, st, held, lp, b);
    Follow(g, st, Lower(g.cx, e, st), held, held, lp, b, OfExp(e), ids);
  }

  lemma WithinFirst(g: World, a: St, s: St, held: set<int>, ids: set<Id>, lp: Option<Id>, b: Env)
    requires Within(g, s) && Ready(g, a, held, lp, b, ids) && Done(g, a, s, held, ids)
    ensures Within(g, a)
  {
    WithinBack(g, a, s, ids);
  }

  /** After a part that ended normally, the next part may run. */
  lemma Resume(g: World, r: Outcome, c: Config, c': Config, st: St, st': St, void: bool, held: set<int>, lp: Option<Id>,
               b: Env, acts: Acts, ids: set<Id>, ids': set<Id>)
    requires r.Normal? && FunsOk(g, b) && c.top.fn == st.fn
    requires Matches(g, r, c, c', st, st', void, acts, b, ids, lp)
    requires st'.fn == st.fn && Ready(g, st', held, lp, b, ids')
    ensures Poised(g, r.s, c', st', held, lp, b, acts, ids')
  {}

  /** A run that does not end normally is the same for the code around it. */
  lemma Escapes(g: World, r: Outcome, c: Config, c': Config, st: St, s1: St, st': St, void: bool, void': bool,
                acts: Acts, b: Env, ids: set<Id>, ids': set<Id>, lp: Option<Id>)
    requires Matches(g, r, c, c', st, s1, void, acts, b, ids, lp) && !r.Normal? && ids <= ids'
    ensures Matches(g, r, c, c', st, st', void', acts, b, ids', lp)
  {
    if r.Broke? { EffectMore(c, c', acts, b, ids, ids', st.regs, st.regs); }
  }

  lemma MatchesMore(g: World, r: Outcome, c: Config, c': Config, st: St, st': St, void: bool, void': bool,
                    acts: Acts, b: Env, ids: set<Id>, ids': set<Id>, lp: Option<Id>)
    requires Matches(g, r, c, c', st, st', void, acts, b, ids, lp) && ids <= ids' && (void ==> void')
    ensures Matches(g, r, c, c', st, st', void', acts, b, ids', lp)
  {
    if r.Normal? || r.Broke? { EffectMore(c, c', acts, b, ids, ids', st.regs, st.regs); }
  }

  lemma Nothing(g: World, r: Outcome, c: Config, c': Config, st: St, st': St, void: bool, acts: Acts, b: Env, ids: set<Id>, lp: Option<Id>)
    requires r.Undefined? || r.OutOfFuel?
    ensures Matches(g, r, c, c', st, st', void, acts, b, ids, lp)
  {}

  /** A second run after a first. */
  lemma After(g: World, r: Outcome, c: Config, c1: Config, c2: Config, st: St, s1: St, st': St, void: bool,
              acts: Acts, b: Env, ids: set<Id>, ids': set<Id>, lp: Option<Id>)
    requires Reaches(g.p, g.o, c, c1) && Effect(c, c1, acts, b, ids, st.regs) && st.regs <= s1.regs
    requires Matches(g, r, c1, c2, s1, st', void, acts, b, ids', lp)
    requires lp.Some? ==> Find(s1.loopEnd, lp.value) == Find(st.loopEnd, lp.value)
    ensures Matches(g, r, c, c2, st, st', void, acts, b, ids + ids', lp)
  {
    hide Effect, Rel;
    if r.Normal? || r.Broke? {
      EffectTrans(c, c1, c2, acts, b, ids, ids', st.regs, s1.regs);
      ReachesTrans(g.p, g.o, c, c1, c2);
    }
  }

  lemma SameLoop(g: World, st: St, s1: St, held: set<int>, lp: Option<Id>, b: Env, ids: set<Id>, ids': set<Id>)
    requires Ready(g, st, held, lp, b, ids') && LowerTables.Good(g.cx, g.w, st, s1, ids) && ids <= ids'
    ensures st.regs <= s1.regs && s1.fn == st.fn
    ensures lp.Some? ==> Find(s1.loopEnd, lp.value) == Find(st.loopEnd, lp.value)
  {}

  /** Control moved on quietly after a run. */
  lemma AfterQuiet(g: World, v: Int32.I32, s: State, c: Config, c1: Config, c2: Config, st: St, s1: St, st': St, void: bool,
                   acts: Acts, b: Env, ids: set<Id>, lp: Option<Id>)
    requires Rel(g, s, c1, acts, b) && Effect(c, c1, acts, b, ids, st.regs)
    requires Reaches(g.p, g.o, c, c2) && Quiet(c1, c2, s1.regs) && st.regs <= s1.regs && At(c2, st')
    requires !void ==> Value(c2.top, st'.value) == VInt(v)
    ensures Matches(g, Normal(v, s), c, c2, st, st', void, acts, b, ids, lp)
  {
    QuietKeeps(g, s, c1, c2, acts, b, {}, s1.regs);
    EffectTrans(c, c1, c2, acts, b, ids, {}, st.regs, s1.regs);
    assert ids + {} == ids;
  }

  // ----- expressions -----

  function Combine(op: Oper, rl: Outcome, rr: Outcome): Outcome
    requires rl.Normal?
  {
    if !rr.Normal? then rr
    else var v := Int32.Apply(op, rl.value, rr.value); if v.Some? then Normal(v.value, rr.s) else Undefined
  }

  /** Both operands were run: what remains is the operator. */
  lemma OpEnd(g: World, op: Oper, rl: Outcome, rr: Outcome, st: St, s1: St, s2: St, lp: Option<Id>, b: Env, acts: Acts,
              ids: set<Id>, ids': set<Id>, c: Config, c1: Config, c2: Config) returns (c': Config)
    requires rl.Normal? && Matches(g, rl, c, c1, st, s1, false, acts, b, ids, lp)
    requires Matches(g, rr, c1, c2, s1, s2, false, acts, b, ids', lp)
    requires lp.Some? ==> Find(s1.loopEnd, lp.value) == Find(st.loopEnd, lp.value)
    requires st.regs <= s1.regs <= s2.regs && Plain(s1) && Within(g, EmitOp(s2, op, s1.value, s2.value))
    ensures Matches(g, Combine(op, rl, rr), c, c', st, EmitOp(s2, op, s1.value, s2.value), false, acts, b, ids + ids', lp)
  {
    var st' := EmitOp(s2, op, s1.value, s2.value);
    assert Grows(st'.blocks, g.p.blocks);
    hide Rel, Within, Effect, Grows, Reaches, EmitOp;
    After(g, rr, c, c1, c2, st, s1, s2, false, acts, b, ids, ids', lp);
    c' := c2;
    if rr.Normal? && Int32.Apply(op, rl.value, rr.value).Some? {
      StillValue(g, rr, c1, c2, s1, s2, false, acts, b, ids', lp, s1.value, VInt(rl.value));
      c' := RunOp(g, c, c2, s2, op, s1.value, s2.value, rl.value, rr.value);
      var v := Int32.Apply(op, rl.value, rr.value).value;
      AfterQuiet(g, v, rr.s, c, c2, c', st, s2, st', false, acts, b, ids + ids', lp);
    }
  }

  lemma Keeps(g: World, r: Outcome, c: Config, c': Config, st: St, st': St, acts: Acts, b: Env, ids: set<Id>, lp: Option<Id>)
    requires r.Normal? && Matches(g, r, c, c', st, st', false, acts, b, ids, lp)
    ensures Reaches(g.p, g.o, c, c') && At(c', st') && Rel(g, r.s, c', acts, b) && Effect(c, c', acts, b, ids, st.regs)
    ensures Value(c'.top, st'.value) == VInt(r.value)
  {}

  lemma PlainValue(g: World, st: St, held: set<int>, lp: Option<Id>, b: Env, ids: set<Id>)
    requires Ready(g, st, held, lp, b, ids)
    ensures Plain(st)
  {}

  lemma StillValue(g: World, r: Outcome, c: Config, c': Config, st: St, st': St, void: bool, acts: Acts, b: Env, ids: set<Id>,
                   lp: Option<Id>, a: Operand, v: Val)
    requires r.Normal? && Matches(g, r, c, c', st, st', void, acts, b, ids, lp)
    requires Value(c.top, a) == v != VUndef && (a.Reg? ==> a.r < st.regs)
    ensures Value(c'.top, a) == v
  {
    ValueKept(c, c', a, acts, b, ids, st.regs);
  }

  /** An operator on two values at hand. */
  lemma RunOp(g: World, a: Config, c: Config, st: St, op: Oper, x: Operand, y: Operand, v: Int32.I32, w: Int32.I32)
    returns (c': Config)
    requires Reaches(g.p, g.o, a, c) && At(c, st) && Grows(EmitOp(st, op, x, y).blocks, g.p.blocks)
    requires Value(c.top, x) == VInt(v) && Value(c.top, y) == VInt(w) && Int32.Apply(op, v, w).Some?
    ensures Reaches(g.p, g.o, a, c') && At(c', EmitOp(st, op, x, y)) && Quiet(c, c', st.regs)
    ensures Value(c'.top, EmitOp(st, op, x, y).value) == VInt(Int32.Apply(op, v, w).value)
  {
    hide Grows, Reaches;
    var i := Arith(st.regs, op, x, y);
    var s1 := EmitTo(st, i);
    OpGrows(st, op, x, y);
    var z := ZExt(s1.regs, s1.value);
    assert Grows(s1.blocks, g.p.blocks) by {
      GrowsEmit(s1, z);
      if s1 != EmitOp(st, op, x, y) { GrowsTrans(s1.blocks, EmitTo(s1, z).blocks, g.p.blocks); }
    }
    var r := VInt(Int32.Apply(op, v, w).value);
    var c1 := RunTo(g, a, c, st, i, r);
    c' := c1;
    if s1 != EmitOp(st, op, x, y) {
      c' := RunTo(g, a, c1, s1, z, r);
    }
  }

  lemma OpGrows(st: St, op: Oper, x: Operand, y: Operand)
    ensures Grows(st.blocks, EmitOp(st, op, x, y).blocks) && EmitOp(st, op, x, y).entries == st.entries
  {
    var s1 := EmitTo(st, Arith(st.regs, op, x, y));
    GrowsTrans(st.blocks, s1.blocks, EmitTo(s1, ZExt(s1.regs, s1.value)).blocks);
  }

  // ----- control -----

  lemma QuietTrans(c: Config, c1: Config, c2: Config, regs: nat, regs': nat)
    requires Quiet(c, c1, regs) && Quiet(c1, c2, regs') && regs <= regs'
    ensures Quiet(c, c2, regs)
  {
    forall r | r in c.top.regs && r < regs ensures Find(c2.top.regs, r) == Some(c.top.regs[r]) {
      assert Find(c1.top.regs, r) == Some(c.top.regs[r]);
    }
  }

  lemma QuietValue(c: Config, c': Config, a: Operand, regs: nat)
    requires Quiet(c, c', regs) && Value(c.top, a) != VUndef && (a.Reg? ==> a.r < regs)
    ensures Value(c'.top, a) == Value(c.top, a)
  {
    if a.Reg? { assert Find(c'.top.regs, a.r) == Some(c.top.regs[a.r]); }
  }

  lemma RunBr(g: World, a: Config, c: Config, st: St, t: nat, regs: nat) returns (c': Config)
    requires Reaches(g.p, g.o, a, c) && At(c, st) && Grows(Emit(st, Br(t)).blocks, g.p.blocks)
    ensures Reaches(g.p, g.o, a, c') && AtBlock(c', t) && Quiet(c, c', regs) && c'.top.prev == st.cur
  {
    Run(g, a, c, st, Br(t));
    c' := Jump(c, t);
  }

  /** Test a value and branch; sb adds blocks after the test. */
  lemma RunTest(g: World, a: Config, c: Config, s0: St, sb: St, v: Int32.I32, yes: nat, no: nat) returns (c': Config)
    requires Reaches(g.p, g.o, a, c) && At(c, s0) && Value(c.top, s0.value) == VInt(v)
    requires Tested(g, s0, sb, yes, no)
    ensures Reaches(g.p, g.o, a, c') && Quiet(c, c', s0.regs) && AtBlock(c', if v != 0 then yes else no)
  {
    hide Grows, Reaches;
    var s1 := EmitTest(s0);
    var i := CondBr(s1.value, yes, no);
    GrowsTrans(s1.blocks, Emit(sb, i).blocks, g.p.blocks);
    var c1 := RunTo(g, a, c, s0, Arith(s0.regs, Ne, s0.value, ZERO), VInt(Int32.Bool(v != 0)));
    Run(g, a, c1, sb, i);
    c' := Jump(c1, if v != 0 then yes else no);
    QuietTrans(c, c1, c', s0.regs, s0.regs);
  }

  /** Both branches arrived where they meet. */
  lemma RunMeet(g: World, e: Exp, a: Config, c: Config, s3: St, s5: St, n: nat, left: bool, v: Int32.I32) returns (c': Config)
    requires Reaches(g.p, g.o, a, c) && AtBlock(c, n + 2) && c.top.prev == (if left then s3.cur else s5.cur)
    requires !Voids(g.cx, e) ==> Value(c.top, if left then s3.value else s5.value) == VInt(v)
    requires s3.cur != s5.cur && s5.cur < |s5.blocks| && s5.cur != n + 2 < |s5.blocks| && s5.blocks[n + 2].instrs == []
    requires Grows(Meet(g.cx, e, s3, s5, n + 2).blocks, g.p.blocks)
    ensures Reaches(g.p, g.o, a, c') && At(c', Meet(g.cx, e, s3, s5, n + 2)) && Quiet(c, c', s5.regs)
    ensures !Voids(g.cx, e) ==> Value(c'.top, Meet(g.cx, e, s3, s5, n + 2).value) == VInt(v)
  {
    hide Grows, Reaches;
    c' := c;
    var s6 := Branch(s5, Br(n + 2), n + 2);
    if !Voids(g.cx, e) {
      c' := RunTo(g, a, c, s6, Phi(s6.regs, s3.value, s3.cur, s5.value, s5.cur), VInt(v));
    }
  }

  /** The final code holds the pieces of an `if`. */
  lemma IfWithin(g: World, e: Exp, st: St, s2: St, n: nat, held: set<int>, lp: Option<Id>, b: Env)
    requires e.IfExp? && Ready(g, st, held, lp, b, OfExp(e)) && Legal(g, e, st.fn, lp, b)
    requires AtThen(g, e, st, s2, n, held, lp, b)
    requires var s3 := Lower(g.cx, e.thn, s2); var s4 := Branch(s3, Br(n + 2), n + 1);
      var s5 := if e.els.SomeExp? then Lower(g.cx, e.els.exp, s4) else s4.(value := ZERO);
      Within(g, Meet(g.cx, e, s3, s5, n + 2))
    ensures var s3 := Lower(g.cx, e.thn, s2); var s4 := Branch(s3, Br(n + 2), n + 1);
      var s5 := if e.els.SomeExp? then Lower(g.cx, e.els.exp, s4) else s4.(value := ZERO);
      && Within(g, s2) && Within(g, s3) && Within(g, s4) && Within(g, s5)
      && Grows(Emit(s3, Br(n + 2)).blocks, g.p.blocks) && Grows(Emit(s5, Br(n + 2)).blocks, g.p.blocks)
      && Grows(Meet(g.cx, e, s3, s5, n + 2).blocks, g.p.blocks)
  {
    hide Legal, Lower, OfExp, WellFormed, Extends, Consistent, Distinct, Lowerable, Lifts, Typed, Matches, Joining, Waiting,
         AtThen, AtElse, Blocks, Els, Ready, Moves, Within, Grows, LowerTables.Good, Fine;
    var s3 := Lower(g.cx, e.thn, s2);
    var s4 := Branch(s3, Br(n + 2), n + 1);
    var s5 := if e.els.SomeExp? then Lower(g.cx, e.els.exp, s4) else s4.(value := ZERO);
    var s6 := Branch(s5, Br(n + 2), n + 2);
    IfThenCode(g, e, st, s2, n, held, lp, b);
    IfThenReady(g, e, st, s2, n, held, lp, b);
    IfElseReady(g, e, st, s3, s4, n, held, lp, b);
    GrowsEmit(s6, Phi(s6.regs, s3.value, s3.cur, s5.value, s5.cur));
    GrowsSelf(s6.blocks);
    WithinSame(g, s6, Meet(g.cx, e, s3, s5, n + 2));
    GrowsEmit(s5, Br(n + 2));
    WithinSame(g, s5, s6);
    WithinGood(g, s4, s5, held + {n + 2}, lp, b, Els(e));
    GrowsEmit(s3, Br(n + 2));
    WithinSame(g, s3, s4);
    WithinGood(g, s2, s3, held + {n + 1, n + 2}, lp, b, OfExp(e.thn));
    WithinGrows(g, s6);
    WithinGrows(g, s4);
    WithinGrows(g, Meet(g.cx, e, s3, s5, n + 2));
  }

  /** A branch of an `if` is about to run; the condition ran from c to c2. */
  ghost predicate Branching(g: World, s: State, c: Config, c2: Config, st: St, t: nat, acts: Acts, b: Env, ids: set<Id>) {
    Reaches(g.p, g.o, c, c2) && Rel(g, s, c2, acts, b) && Effect(c, c2, acts, b, ids, st.regs) && AtBlock(c2, t)
  }

  /** A part of a larger construct, translated at st, is about to run from s2 on. */
  lemma Start(g: World, s: State, st: St, s2: St, held: set<int>, held': set<int>, lp: Option<Id>, lp': Option<Id>, b: Env,
              acts: Acts, c: Config, c2: Config, ids: set<Id>, all: set<Id>, part: set<Id>)
    requires Ready(g, st, held, lp, b, all) && FunsOk(g, b) && c.top.fn == st.fn
    requires Ready(g, s2, held', lp', b, part) && LowerTables.Good(g.cx, g.w, st, s2, ids) && ids <= all && At(c2, s2)
    requires Rel(g, s, c2, acts, b) && Effect(c, c2, acts, b, ids, st.regs)
    ensures Poised(g, s, c2, s2, held', lp', b, acts, part) && s2.fn == st.fn
    ensures st.regs <= s2.regs && (lp.Some? ==> Find(s2.loopEnd, lp.value) == Find(st.loopEnd, lp.value))
  {
    hide WellFormed, Consistent, Rel;
    SameLoop(g, st, s2, held, lp, b, ids, all);
  }

  /** The states of the builder around an `if`, all of them within the final code. */
  lemma IfStates(g: World, e: Exp, st: St, held: set<int>, lp: Option<Id>, b: Env)
    requires e.IfExp? && Ready(g, st, held, lp, b, OfExp(e)) && Legal(g, e, st.fn, lp, b) && Within(g, Lower(g.cx, e, st))
    ensures Ready(g, st, held, lp, b, OfExp(e.test)) && Legal(g, e.test, st.fn, lp, b)
    ensures var s0 := Lower(g.cx, e.test, st); var s1 := EmitTest(s0); var n := |s1.blocks|; var sb := NewBlocks(s1);
      var s2 := Branch(sb, CondBr(s1.value, n, n + 1), n);
      var s3 := Lower(g.cx, e.thn, s2); var s4 := Branch(s3, Br(n + 2), n + 1);
      var s5 := if e.els.SomeExp? then Lower(g.cx, e.els.exp, s4) else s4.(value := ZERO);
      && AtThen(g, e, st, s2, n, held, lp, b) && AtElse(g, e, st, s3, s4, n, held, lp, b) && Plain(s3)
      && st.regs <= s0.regs && st.regs <= s3.regs && Within(g, s0) && Tested(g, s0, sb, n, n + 1)
      && Lower(g.cx, e, st) == Meet(g.cx, e, s3, s5, n + 2) && Within(g, s5) && Grows(Emit(s5, Br(n + 2)).blocks, g.p.blocks)
  {
    hide Legal, OfExp, WellFormed, Extends, Consistent, Distinct, Lowerable, Lifts, Waiting, Ready, Moves, Within,
         Grows, Meet, AtThen, AtElse, Blocks, Joining, LowerTables.Good, Fine, Els, Typed;
    var s0 := Lower(g.cx, e.test, st);
    var s1 := EmitTest(s0);
    var n := |s1.blocks|;
    var s2 := Branch(NewBlocks(s1), CondBr(s1.value, n, n + 1), n);
    LegalIf(g, e, st.fn, lp, b);
    IfTestReady(g, e, st, held, lp, b);
    IfThenCode(g, e, st, s2, n, held, lp, b);
    IfThenReady(g, e, st, s2, n, held, lp, b);
    IfWithin(g, e, st, s2, n, held, lp, b);
    TestWithin(g, e.test, st, held, lp, b, NewBlocks(s1), n, n + 1);
    ThenParts(g, e, st, s2, n, held, lp, b);
    SameLoop(g, st, s2, held, lp, b, OfExp(e.test), OfExp(e));
  }

  lemma TestWithin(g: World, t: Exp, st: St, held: set<int>, lp: Option<Id>, b: Env, sb: St, yes: nat, no: nat)
    requires Ready(g, st, held, lp, b, OfExp(t)) && Legal(g, t, st.fn, lp, b)
    requires var s1 := EmitTest(Lower(g.cx, t, st));
      && sb.cur == s1.cur && s1.blocks <= sb.blocks && sb.entries == s1.entries
      && Within(g, Branch(sb, CondBr(s1.value, yes, no), yes))
    ensures Within(g, Lower(g.cx, t, st)) && st.regs <= Lower(g.cx, t, st).regs
    ensures Tested(g, Lower(g.cx, t, st), sb, yes, no)
  {
    hide Legal, Lower, OfExp, WellFormed, Extends, Consistent, Ready;
    var s0 := Lower(g.cx, t, st);
    var s1 := EmitTest(s0);
    Lowered(g, t, st, held, lp, b);
    CurBelow(g, t, st, held, lp, b);
    var s2 := Branch(sb, CondBr(s1.value, yes, no), yes);
    assert Grows(s1.blocks, sb.blocks);
    GrowsEmit(sb, CondBr(s1.value, yes, no));
    GrowsTrans(s1.blocks, sb.blocks, s2.blocks);
    GrowsEmit(s0, Arith(s0.regs, Ne, s0.value, ZERO));
    GrowsTrans(s0.blocks, s1.blocks, s2.blocks);
    WithinSame(g, s0, s2);
  }

  /** From the end of a condition to the block it chooses. */
  lemma TestEnd(g: World, r: Outcome, c: Config, c1: Config, st: St, s0: St, sb: St, yes: nat, no: nat, acts: Acts, b: Env,
                ids: set<Id>, lp: Option<Id>) returns (c': Config)
    requires r.Normal? && Matches(g, r, c, c1, st, s0, false, acts, b, ids, lp) && st.regs <= s0.regs
    requires Tested(g, s0, sb, yes, no)
    ensures Branching(g, r.s, c, c', st, if r.value != 0 then yes else no, acts, b, ids)
  {
    hide Grows, Rel, Effect, Reaches;
    c' := RunTest(g, c, c1, s0, sb, r.value, yes, no);
    QuietKeeps(g, r.s, c1, c', acts, b, {}, s0.regs);
    EffectTrans(c, c1, c', acts, b, ids, {}, st.regs, s0.regs);
    assert ids + {} == ids;
  }

  /** The final code holds the test of s0's value. */
  ghost predicate Tested(g: World, s0: St, sb: St, yes: nat, no: nat) {
    var s1 := EmitTest(s0);
    && sb.cur == s1.cur < |s1.blocks| <= |sb.blocks| && sb.blocks[sb.cur] == s1.blocks[s1.cur]
    && Grows(s1.blocks, Emit(sb, CondBr(s1.value, yes, no)).blocks) && Grows(Emit(sb, CondBr(s1.value, yes, no)).blocks, g.p.blocks)
  }

  /** From the end of a branch to where the branches meet. */
  lemma IfEnd(g: World, e: Exp, r: Outcome, st: St, s3: St, s5: St, n: nat, left: bool, lp: Option<Id>, b: Env, acts: Acts,
              ids: set<Id>, c: Config, c3: Config) returns (c': Config)
    requires Matches(g, r, c, c3, st, if left then s3 else s5, Voids(g.cx, e), acts, b, ids, lp)
    requires s3.cur != s5.cur && s5.cur < |s5.blocks| && s5.cur != n + 2 < |s5.blocks| && s5.blocks[n + 2].instrs == []
    requires Plain(s3) && Plain(s5) && Grows(Meet(g.cx, e, s3, s5, n + 2).blocks, g.p.blocks) && st.regs <= s3.regs <= s5.regs
    requires var s := if left then s3 else s5; Grows(Emit(s, Br(n + 2)).blocks, g.p.blocks)
    ensures Matches(g, r, c, c', st, Meet(g.cx, e, s3, s5, n + 2), Voids(g.cx, e), acts, b, ids, lp)
  {
    hide Grows, Rel, Effect, Reaches, Voids, Meet;
    c' := c3;
    if r.Normal? {
      var s := if left then s3 else s5;
      var c4 := RunBr(g, c, c3, s, n + 2, s.regs);
      if !Voids(g.cx, e) { QuietValue(c3, c4, s.value, s.regs); }
      c' := RunMeet(g, e, c, c4, s3, s5, n, left, r.value);
      QuietTrans(c3, c4, c', s.regs, s5.regs);
      AfterQuiet(g, r.value, r.s, c, c3, c', st, s, Meet(g.cx, e, s3, s5, n + 2), Voids(g.cx, e), acts, b, ids, lp);
    }
  }

  // ----- loops -----

  /** The whole loop, from its test to the block after it. */
  ghost predicate Loops(g: World, r: Outcome, c: Config, c': Config, after: nat, acts: Acts, b: Env, ids: set<Id>, regs: nat) {
    !r.Broke? && (r.Normal? ==>
      && Reaches(g.p, g.o, c, c') && AtBlock(c', after) && Rel(g, r.s, c', acts, b) && Effect(c, c', acts, b, ids, regs))
  }

  /** The states of the builder around a loop: s1 before the test, s4 before the body. */
  ghost predicate LoopAt(g: World, e: Exp, st: St, s1: St, s4: St, n: nat, held: set<int>, lp: Option<Id>, b: Env)
    requires e.WhileExp?
  {
    && Ready(g, st, held, lp, b, OfExp(e)) && Legal(g, e, st.fn, lp, b)
    && AtTest(g, e, st, s1, n, held, b) && AtBody(g, e, st, s1, s4, n, held, b)
    && Tested(g, Lower(g.cx, e.test, s1), EmitTest(Lower(g.cx, e.test, s1)), n + 1, n + 2)
    && Within(g, Lower(g.cx, e.test, s1)) && Within(g, Lower(g.cx, e.body, s4))
    && Grows(Emit(Lower(g.cx, e.body, s4), Br(n)).blocks, g.p.blocks)
  }

  lemma LoopStops(g: World, e: Exp, r: Outcome, s: State, fuel: nat, c: Config, c': Config, n: nat, acts: Acts, b: Env,
                  ids: set<Id>, regs: nat)
    requires e.WhileExp? && r == Eval(g.o, e.test, s, fuel) && (r.Normal? ==> r.value == 0 || fuel == 0)
    requires r.Broke? || (r.Normal? && r.value == 0) ==>
               && Reaches(g.p, g.o, c, c') && AtBlock(c', n + 2) && Rel(g, r.s, c', acts, b) && Effect(c, c', acts, b, ids, regs)
    ensures Loops(g, Eval(g.o, e, s, fuel), c, c', n + 2, acts, b, ids, regs)
  {
    hide Reaches, Rel, Effect;
  }

  /** The machine is at the test. */
  lemma LoopPoised(g: World, e: Exp, s: State, st: St, s1: St, s4: St, n: nat, held: set<int>, lp: Option<Id>, b: Env,
                   acts: Acts, c: Config)
    requires e.WhileExp? && LoopAt(g, e, st, s1, s4, n, held, lp, b) && FunsOk(g, b)
    requires Rel(g, s, c, acts, b) && AtBlock(c, n) && c.top.fn == st.fn
    ensures Poised(g, s, c, s1, held + {n + 1, n + 2}, Some(e.id), b, acts, OfExp(e.test))
    ensures Legal(g, e.test, s1.fn, Some(e.id), b) && Within(g, Lower(g.cx, e.test, s1))
  {
    hide WellFormed, Extends, Consistent, Typed, Moves, Lower, Rel, FunsOk, LowerTables.Good, Ready, Legal, Within, AtBody, Tested, Grows, OfExp;
    LegalWhile(g, e, st.fn, lp, b);
    ReadyLess(g, s1, held + {n + 1, n + 2}, Some(e.id), b, OfExp(e.test) + OfExp(e.body), OfExp(e.test));
  }

  /** After the test: in the body, or after the loop. */
  lemma LoopTest(g: World, e: Exp, r: Outcome, st: St, s1: St, s4: St, n: nat, held: set<int>, lp: Option<Id>, b: Env,
                 acts: Acts, c: Config, c1: Config) returns (c': Config)
    requires e.WhileExp? && LoopAt(g, e, st, s1, s4, n, held, lp, b)
    requires Matches(g, r, c, c1, s1, Lower(g.cx, e.test, s1), Voids(g.cx, e.test), acts, b, OfExp(e.test), Some(e.id))
    ensures r.Normal? || r.Broke? ==>
      && Reaches(g.p, g.o, c, c') && Rel(g, r.s, c', acts, b) && Effect(c, c', acts, b, OfExp(e), st.regs)
      && AtBlock(c', if r.Normal? && r.value != 0 then n + 1 else n + 2)
  {
    hide WellFormed, Extends, Consistent, Typed, Lower, Rel, LowerTables.Good, Ready, Legal, Within, Reaches, Effect, OfExp,
         Tested, Grows;
    LegalWhile(g, e, st.fn, lp, b);
    LoopRegs(g, e, st, s1, s4, n, held, lp, b);
    c' := c1;
    if r.Normal? {
      var s2 := Lower(g.cx, e.test, s1);
      c' := TestEnd(g, r, c, c1, s1, s2, EmitTest(s2), n + 1, n + 2, acts, b, OfExp(e.test), Some(e.id));
    }
    if r.Normal? || r.Broke? { EffectMore(c, c', acts, b, OfExp(e.test), OfExp(e), s1.regs, st.regs); }
  }

  lemma LoopRegs(g: World, e: Exp, st: St, s1: St, s4: St, n: nat, held: set<int>, lp: Option<Id>, b: Env)
    requires e.WhileExp? && LoopAt(g, e, st, s1, s4, n, held, lp, b)
    ensures st.regs <= s1.regs <= Lower(g.cx, e.test, s1).regs && s1.regs <= s4.regs && s4.fn == st.fn
  {
    hide WellFormed, Extends, Consistent, Typed, Lower, Legal, Within, OfExp, Tested, Grows;
    LegalWhile(g, e, st.fn, lp, b);
    First(g, e.test, OfExp(e.body), s1, held + {n + 1, n + 2}, Some(e.id), b);
  }

  lemma BodyPoised(g: World, e: Exp, s: State, st: St, s1: St, s4: St, n: nat, held: set<int>, lp: Option<Id>, b: Env,
                   acts: Acts, c: Config, c2: Config)
    requires e.WhileExp? && LoopAt(g, e, st, s1, s4, n, held, lp, b) && FunsOk(g, b) && c.top.fn == st.fn
    requires Rel(g, s, c2, acts, b) && AtBlock(c2, n + 1) && Effect(c, c2, acts, b, OfExp(e), st.regs)
    ensures Poised(g, s, c2, s4, held + {n + 2}, Some(e.id), b, acts, OfExp(e.body))
    ensures Legal(g, e.body, s4.fn, Some(e.id), b) && Within(g, Lower(g.cx, e.body, s4))
  {
    hide WellFormed, Extends, Consistent, Typed, Moves, Lower, Rel, FunsOk, LowerTables.Good, Ready, Legal, Within, AtTest, Tested, Grows, OfExp;
    LegalWhile(g, e, st.fn, lp, b);
  }

  /** After the body: back at the test, or after the loop if the body broke. */
  lemma BodyEnd(g: World, e: Exp, r: Outcome, st: St, s1: St, s4: St, n: nat, held: set<int>, lp: Option<Id>, b: Env,
                acts: Acts, c: Config, c2: Config, c3: Config) returns (c': Config)
    requires e.WhileExp? && LoopAt(g, e, st, s1, s4, n, held, lp, b)
    requires Reaches(g.p, g.o, c, c2) && Effect(c, c2, acts, b, OfExp(e), st.regs) && c.top.fn == st.fn
    requires Matches(g, r, c2, c3, s4, Lower(g.cx, e.body, s4), Voids(g.cx, e.body), acts, b, OfExp(e.body), Some(e.id))
    ensures r.Normal? || r.Broke? ==>
      && Reaches(g.p, g.o, c, c') && Rel(g, r.s, c', acts, b) && Effect(c, c', acts, b, OfExp(e), st.regs)
      && AtBlock(c', if r.Normal? then n else n + 2) && c'.top.fn == st.fn
  {
    hide WellFormed, Extends, Consistent, Typed, Lower, Rel, LowerTables.Good, Ready, Legal, Within, Reaches, OfExp,
         Tested, Grows;
    LegalWhile(g, e, st.fn, lp, b);
    LoopRegs(g, e, st, s1, s4, n, held, lp, b);
    c' := c3;
    if r.Normal? || r.Broke? {
      hide Effect;
      EffectTrans(c, c2, c3, acts, b, OfExp(e), OfExp(e.body), st.regs, s4.regs);
      assert OfExp(e) + OfExp(e.body) == OfExp(e);
      ReachesTrans(g.p, g.o, c, c2, c3);
      if r.Normal? {
        c' := RunBr(g, c, c3, Lower(g.cx, e.body, s4), n, st.regs);
        QuietKeeps(g, r.s, c3, c', acts, b, {}, st.regs);
        EffectTrans(c, c3, c', acts, b, OfExp(e), {}, st.regs, st.regs);
        assert OfExp(e) + {} == OfExp(e);
      }
      SameFn(c, c', acts, b, OfExp(e), st.regs);
    }
  }

  lemma SameFn(c: Config, c': Config, acts: Acts, b: Env, ids: set<Id>, regs: nat)
    requires Effect(c, c', acts, b, ids, regs)
    ensures c'.top.fn == c.top.fn
  {}

  /** The final code holds the pieces of a loop. */
  lemma LoopWithin(g: World, e: Exp, st: St, held: set<int>, lp: Option<Id>, b: Env)
    requires e.WhileExp? && Ready(g, st, held, lp, b, OfExp(e)) && Legal(g, e, st.fn, lp, b) && Within(g, Lower(g.cx, e, st))
    ensures var n := |st.blocks|;
      var s0 := NewBlocks(st).(loopEnd := st.loopEnd[e.id := n + 2]);
      var s1 := Branch(s0, Br(n), n);
      var s3 := EmitTest(Lower(g.cx, e.test, s1));
      var s4 := Branch(s3, CondBr(s3.value, n + 1, n + 2), n + 1);
      LoopAt(g, e, st, s1, s4, n, held, lp, b) && Grows(Emit(s0, Br(n)).blocks, g.p.blocks)
  {
    hide Legal, Lower, OfExp, WellFormed, Extends, Consistent, Distinct, Lowerable, Lifts, Typed, Ready, Moves, Within, Grows,
         LowerTables.Good, Blocks, Fine, Tested, Declared, LoopKnown, Extends;
    var n := |st.blocks|;
    var s0 := NewBlocks(st).(loopEnd := st.loopEnd[e.id := n + 2]);
    var s1 := Branch(s0, Br(n), n);
    var s2 := Lower(g.cx, e.test, s1);
    var s3 := EmitTest(s2);
    var s4 := Branch(s3, CondBr(s3.value, n + 1, n + 2), n + 1);
    var s5 := Lower(g.cx, e.body, s4);
    var s6 := Branch(s5, Br(n), n + 2);
    LoopForm(g, e, st);
    LegalWhile(g, e, st.fn, lp, b);
    LoopStartReady(g, e, st, held, lp, b);
    LoopBodyReady(g, e, st, s1, n, held, lp, b);
    BlocksFn(s4, st.fn, n);
    BlocksFn(s1, st.fn, n);
    LoopEndReady(g, e, st, s1, s4, n, held, lp, b);
    GrowsEmit(s5, Br(n));
    WithinSame(g, s5, s6);
    WithinGrows(g, s6);
    WithinGood(g, s4, s5, held + {n + 2}, Some(e.id), b, OfExp(e.body));
    GrowsSelf(s3.blocks);
    TestWithin(g, e.test, s1, held + {n + 1, n + 2}, Some(e.id), b, s3, n + 1, n + 2);
    Lowered(g, e.test, s1, held + {n + 1, n + 2}, Some(e.id), b);
    WithinGood(g, s1, s2, held + {n + 1, n + 2}, Some(e.id), b, OfExp(e.test));
    WithinGrows(g, s1);
  }

  lemma LoopForm(g: World, e: Exp, st: St)
    requires e.WhileExp?
    ensures var n := |st.blocks|;
      var s1 := Branch(NewBlocks(st).(loopEnd := st.loopEnd[e.id := n + 2]), Br(n), n);
      var s3 := EmitTest(Lower(g.cx, e.test, s1));
      var s4 := Branch(s3, CondBr(s3.value, n + 1, n + 2), n + 1);
      Lower(g.cx, e, st) == Branch(Lower(g.cx, e.body, s4), Br(n), n + 2)
  {}

  lemma BlocksFn(st: St, f: Id, n: nat)
    requires Blocks(st, f, n)
    ensures st.fn == f
  {}

  lemma LoopEnter(g: World, s: State, st: St, s0: St, n: nat, b: Env, acts: Acts, c: Config) returns (c': Config)
    requires At(c, st) && Rel(g, s, c, acts, b) && c.top.fn == st.fn
    requires s0.cur == st.cur < |s0.blocks| && s0.blocks[st.cur] == st.blocks[st.cur] && Grows(Emit(s0, Br(n)).blocks, g.p.blocks)
    ensures Reaches(g.p, g.o, c, c') && AtBlock(c', n) && Rel(g, s, c', acts, b) && Effect(c, c', acts, b, {}, st.regs)
    ensures c'.top.fn == st.fn
  {
    hide Rel, Reaches, Grows;
    ReachesSelf(g.p, g.o, c);
    c' := RunBr(g, c, c, s0, n, st.regs);
    QuietKeeps(g, s, c, c', acts, b, {}, st.regs);
  }

  lemma LoopDone(g: World, r: Outcome, c: Config, c1: Config, c': Config, st: St, st': St, after: nat, acts: Acts, b: Env,
                 ids: set<Id>, lp: Option<Id>)
    requires Reaches(g.p, g.o, c, c1) && Effect(c, c1, acts, b, {}, st.regs) && Loops(g, r, c1, c', after, acts, b, ids, st.regs)
    requires st'.cur == after < |st'.blocks| && st'.blocks[after].instrs == []
    ensures Matches(g, r, c, c', st, st', true, acts, b, ids, lp)
  {
    hide Rel, Reaches, Effect;
    if r.Normal? {
      ReachesTrans(g.p, g.o, c, c1, c');
      EffectTrans(c, c1, c', acts, b, {}, ids, st.regs, st.regs);
      assert {} + ids == ids;
    }
  }

  lemma LoopAfter(g: World, e: Exp, st: St, s1: St, s4: St, n: nat, held: set<int>, lp: Option<Id>, b: Env)
    requires e.WhileExp? && LoopAt(g, e, st, s1, s4, n, held, lp, b)
    ensures var st' := Branch(Lower(g.cx, e.body, s4), Br(n), n + 2); n + 2 < |st'.blocks| && st'.blocks[n + 2].instrs == []
    ensures Voids(g.cx, e)
  {
    hide Legal, Lower, OfExp, WellFormed, Extends, Consistent, Typed, Ready, Within, Grows, LowerTables.Good, Fine, Tested;
    LoopEndReady(g, e, st, s1, s4, n, held, lp, b);
  }

  // ----- constants and variables -----

  /** Nothing is emitted. */
  lemma StayPut(g: World, v: Int32.I32, s: State, c: Config, st: St, a: Operand, void: bool, acts: Acts, b: Env, ids: set<Id>,
                lp: Option<Id>)
    requires At(c, st) && Rel(g, s, c, acts, b) && (!void ==> Value(c.top, a) == VInt(v))
    ensures Matches(g, Normal(v, s), c, c, st, st.(value := a), void, acts, b, ids, lp)
  {
    ReachesSelf(g.p, g.o, c);
  }

  /** A live variable has a value, in the cell of its activation. */
  lemma CellOf(env: Env, acts: Acts, mem: Memory, x: Symbol)
    requires Cells(env, acts, mem) && FindVar(Blank(env), x).Some? && FindVar(Blank(env), x).value.Some?
    ensures VarId(Blank(env), x).Some? && FindVar(env, x).Some? && FindVar(env, x).value.Some?
    ensures var d := VarId(Blank(env), x).value;
      d in Live(Blank(env)) && d in acts && Find(mem, (acts[d], d)) == FindVar(env, x).value
  {}

  /** A pointer to a variable in scope. */
  lemma PointsTo(g: World, b: Env, f: Frame, next: nat, acts: Acts, a: Operand, d: Id)
    requires Frames(g, b, f, next, acts) && d in Live(b) && Names(g, f.fn, a, d)
    ensures d in acts && Value(f, a) == VPtr(acts[d], d)
  {
    if Owner(g.w, d) != f.fn && a.Param? { assert Given(g, b, f, acts, a.k); }
  }

  lemma NoEffect(c: Config, acts: Acts, b: Env, regs: nat)
    ensures forall ids :: Effect(c, c, acts, b, ids, regs)
  {}

  // ----- assignment -----

  lemma SeenLive(b: Env, x: Symbol)
    requires FindVar(b, x).Some? && FindVar(b, x).value.Some?
    ensures VarId(b, x).Some? && VarId(b, x).value in Live(b)
  {}

  /** Storing into a variable in scope. */
  lemma SetCell(env: Env, acts: Acts, mem: Memory, x: Symbol, v: Int32.I32)
    requires Cells(env, acts, mem) && Separate(Blank(env)) && FindVar(Blank(env), x).Some? && FindVar(Blank(env), x).value.Some?
    ensures VarId(Blank(env), x).Some? && VarId(Blank(env), x).value in acts
    ensures var d := VarId(Blank(env), x).value;
      Cells(SetVar(env, x, v), acts, mem[(acts[d], d) := v]) && Blank(SetVar(env, x, v)) == Blank(env)
  {
    match env
    case Empty =>
    case FunB(_, rest) => SetCell(rest, acts, mem, x, v);
    case VarB(id, y, _, rest) =>
      SeenLive(Blank(env), x);
      var d := VarId(Blank(env), x).value;
      if x == y { OtherCells(rest, acts, mem, (acts[d], d), v); }
      else { SetCell(rest, acts, mem, x, v); VarIdIn(Blank(rest), x); }
  }

  lemma VarIdIn(b: Env, x: Symbol)
    requires VarId(b, x).Some?
    ensures VarId(b, x).value in Vars(b)
  {}

  lemma OtherCells(env: Env, acts: Acts, mem: Memory, at: (nat, Id), v: Int32.I32)
    requires Cells(env, acts, mem) && at.1 !in Vars(Blank(env))
    ensures Cells(env, acts, mem[at := v])
  {
    match env
    case Empty =>
    case FunB(_, rest) => OtherCells(rest, acts, mem, at, v);
    case VarB(_, _, _, rest) => OtherCells(rest, acts, mem, at, v);
  }

  lemma RelSees(g: World, s: State, c: Config, acts: Acts, b: Env, x: Symbol)
    requires Rel(g, s, c, acts, b) && FindVar(b, x).Some? && FindVar(b, x).value.Some?
    ensures FindVar(s.env, x).Some?
  {
    CellOf(s.env, acts, c.mem, x);
  }

  lemma AssignReady(g: World, e: Exp, st: St, held: set<int>, lp: Option<Id>, b: Env)
    requires e.AssignExp? && Ready(g, st, held, lp, b, OfExp(e)) && Legal(g, e, st.fn, lp, b) && Within(g, Lower(g.cx, e, st))
    ensures Ready(g, st, held, lp, b, OfExp(e.exp)) && Within(g, Lower(g.cx, e.exp, st))
    ensures Legal(g, e.exp, st.fn, lp, b) && Separate(b) && st.regs <= Lower(g.cx, e.exp, st).regs && !Voids(g.cx, e.exp)
    ensures Names(g, st.fn, AccessVar(st, Link(g.cx, e.id)), Link(g.cx, e.id))
    ensures Grows(Emit(Lower(g.cx, e.exp, st), Store(Lower(g.cx, e.exp, st).value, AccessVar(st, Link(g.cx, e.id)))).blocks, g.p.blocks)
  {
    hide WellFormed, Consistent, Declared, New, Moves, Extends;
    SeenLive(b, e.name);
    Access(g, st, held, lp, b, OfExp(e), Link(g.cx, e.id));
    ReadyLess(g, st, held, lp, b, OfExp(e), OfExp(e.exp));
    Lowered(g, e.exp, st, held, lp, b);
    var s1 := Lower(g.cx, e.exp, st);
    GoodFn(g.cx, g.w, st, s1, OfExp(e.exp));
    GrowsEmit(s1, Store(s1.value, AccessVar(st, Link(g.cx, e.id))));
    WithinSame(g, s1, Lower(g.cx, e, st));
  }

  /** Storing the value just computed into the variable d, called x. */
  lemma RunStore(g: World, x: Symbol, v: Int32.I32, s: State, c: Config, c1: Config, st: St, s1: St, ptr: Operand, d: Id,
                 acts: Acts, b: Env, ids: set<Id>, lp: Option<Id>) returns (c': Config)
    requires Matches(g, Normal(v, s), c, c1, st, s1, false, acts, b, ids, lp) && st.regs <= s1.regs && Separate(b)
    requires FindVar(b, x).Some? && FindVar(b, x).value.Some? && VarId(b, x) == Some(d)
    requires Names(g, c1.top.fn, ptr, d) && Grows(Emit(s1, Store(s1.value, ptr)).blocks, g.p.blocks)
    ensures var i := Store(s1.value, ptr);
      Matches(g, Normal(0, s.(env := SetVar(s.env, x, v))), c, c', st, Emit(s1, i).(value := ZERO), true, acts, b, ids, lp)
  {
    hide Reaches, Grows, Effect;
    CellOf(s.env, acts, c1.mem, x);
    PointsTo(g, b, c1.top, c1.next, acts, ptr, d);
    Run(g, c, c1, s1, Store(s1.value, ptr));
    c' := c1.(mem := c1.mem[(acts[d], d) := v], top := c1.top.(pc := c1.top.pc + 1));
    SetCell(s.env, acts, c1.mem, x, v);
    StoreEffect(g, c, c1, c', d, v, acts, b, ids, st.regs);
    SameFrames(g, b, c1.top, c'.top, c1.next, acts);
  }

  lemma SameFrames(g: World, b: Env, f: Frame, f': Frame, next: nat, acts: Acts)
    requires Frames(g, b, f, next, acts) && f'.fn == f.fn && f'.id == f.id && f'.args == f.args
    ensures Frames(g, b, f', next, acts)
  {
    forall k | 0 <= k < |Lifted(g.cx, f'.fn)| ensures Given(g, b, f', acts, k) { assert Given(g, b, f, acts, k); }
  }

  lemma StoreEffect(g: World, c: Config, c1: Config, c': Config, d: Id, v: Int32.I32, acts: Acts, b: Env, ids: set<Id>, regs: nat)
    requires Effect(c, c1, acts, b, ids, regs) && d in Live(b) && d in acts
    requires c' == c1.(mem := c1.mem[(acts[d], d) := v], top := c1.top.(pc := c1.top.pc + 1))
    ensures Effect(c, c', acts, b, ids, regs)
  {}

  // ----- sequences -----

  lemma NormalRun(g: World, r: Outcome, c: Config, c': Config, st: St, st': St, void: bool, acts: Acts, b: Env, ids: set<Id>, lp: Option<Id>)
    requires r.Normal? && Matches(g, r, c, c', st, st', void, acts, b, ids, lp)
    ensures Reaches(g.p, g.o, c, c') && At(c', st') && Rel(g, r.s, c', acts, b) && Effect(c, c', acts, b, ids, st.regs)
  {}

  lemma SeqReady(g: World, es: Exps, st: St, held: set<int>, lp: Option<Id>, b: Env)
    requires es.ECons? && Ready(g, st, held, lp, b, OfExps(es)) && LegalAll(g, es, st.fn, lp, b)
    requires Within(g, LowerSeq(g.cx, es, st))
    ensures Ready(g, st, held, lp, b, OfExp(es.head)) && Legal(g, es.head, st.fn, lp, b)
    ensures var s1 := Lower(g.cx, es.head, st);
      && Ready(g, s1, held, lp, b, OfExps(es.tail)) && LegalAll(g, es.tail, st.fn, lp, b) && s1.fn == st.fn && st.regs <= s1.regs
      && Within(g, s1) && (lp.Some? ==> Find(s1.loopEnd, lp.value) == Find(st.loopEnd, lp.value))
  {
    hide WellFormed, Consistent, Declared, New, Moves, Extends, Ready, Within, Lower;
    var s1 := Lower(g.cx, es.head, st);
    First(g, es.head, OfExps(es.tail), st, held, lp, b);
    SameLoop(g, st, s1, held, lp, b, OfExp(es.head), OfExps(es));
    LoweredSeq(g, es.tail, s1, held, lp, b);
    WithinFirst(g, s1, LowerSeq(g.cx, es.tail, s1), held, OfExps(es.tail), lp, b);
  }

  // ----- scopes -----

  lemma RelFun(g: World, s: State, c: Config, acts: Acts, b: Env, ds: Decs)
    requires Rel(g, s, c, acts, b)
    ensures Rel(g, State(FunB(ds, s.env), s.trace), c, acts, FunB(ds, b))
  {
    forall k | 0 <= k < |Lifted(g.cx, c.top.fn)| ensures Given(g, FunB(ds, b), c.top, acts, k) { assert Given(g, b, c.top, acts, k); }
  }

  lemma PopRelFun(g: World, s: State, c: Config, acts: Acts, b: Env, ds: Decs)
    requires Rel(g, s, c, acts, FunB(ds, b))
    ensures Rel(g, PopState(s), c, acts, b)
  {
    forall k | 0 <= k < |Lifted(g.cx, c.top.fn)| ensures Given(g, b, c.top, acts, k) { assert Given(g, FunB(ds, b), c.top, acts, k); }
  }

  /** The functions of a chunk leave the scope. */
  lemma PopFun(g: World, r: Outcome, ds: Decs, c: Config, c': Config, st: St, s1: St, st': St, void: bool, acts: Acts, b: Env,
               ids: set<Id>, ids': set<Id>, lp: Option<Id>)
    requires Matches(g, r, c, c', s1, st', void, acts, FunB(ds, b), ids, lp) && ids <= ids' && st.regs <= s1.regs
    requires lp.Some? ==> Find(s1.loopEnd, lp.value) == Find(st.loopEnd, lp.value)
    ensures Matches(g, PopOut(r), c, c', st, st', void, acts, b, ids', lp)
  {
    if r.Normal? || r.Broke? {
      PopRelFun(g, r.s, c', acts, b, ds);
      FunEffect(c, c', acts, b, ds, ids, s1.regs);
      EffectMore(c, c', acts, b, ids, ids', s1.regs, st.regs);
    }
  }

  lemma FunEffect(c: Config, c': Config, acts: Acts, b: Env, ds: Decs, ids: set<Id>, regs: nat)
    requires Effect(c, c', acts, FunB(ds, b), ids, regs)
    ensures Effect(c, c', acts, b, ids, regs)
  {}

  /** A variable without a value enters the scope. */
  lemma RelVar(g: World, s: State, c: Config, acts: Acts, b: Env, d: VarDec)
    requires Rel(g, s, c, acts, b)
    ensures Rel(g, State(VarB(d.id, d.name, None, s.env), s.trace), c, acts, VarB(d.id, d.name, None, b))
  {
    var b1 := VarB(d.id, d.name, None, b);
    forall k | 0 <= k < |Lifted(g.cx, c.top.fn)| ensures Given(g, b1, c.top, acts, k) { assert Given(g, b, c.top, acts, k); }
  }

  /** The variable leaves the scope before it had a value. */
  lemma PopVarNone(g: World, r: Outcome, d: VarDec, c: Config, c': Config, st: St, s0: St, s1: St, st': St, void: bool, void': bool,
                   acts: Acts, b: Env, ids: set<Id>, ids': set<Id>, lp: Option<Id>)
    requires Matches(g, r, c, c', s0, s1, void, acts, VarB(d.id, d.name, None, b), ids, lp) && !r.Normal?
    requires ids <= ids' && st.regs == s0.regs && st.loopEnd == s0.loopEnd
    ensures Matches(g, PopOut(r), c, c', st, st', void', acts, b, ids', lp)
  {
    if r.Broke? {
      var b1 := VarB(d.id, d.name, None, b);
      forall k | 0 <= k < |Lifted(g.cx, c'.top.fn)| ensures Given(g, b, c'.top, acts, k) { assert Given(g, b1, c'.top, acts, k); }
      assert Rel(g, PopState(r.s), c', acts, b);
      assert Effect(c, c', acts, b, ids, st.regs);
      EffectMore(c, c', acts, b, ids, ids', st.regs, st.regs);
    }
  }

  lemma OtherActs(env: Env, acts: Acts, d: Id, a: nat, mem: Memory)
    requires Cells(env, acts, mem) && d !in Vars(Blank(env))
    ensures Cells(env, acts[d := a], mem)
  {
    match env
    case Empty =>
    case FunB(_, rest) => OtherActs(rest, acts, d, a, mem);
    case VarB(_, _, _, rest) => OtherActs(rest, acts, d, a, mem);
  }

  lemma DropActs(env: Env, acts: Acts, d: Id, a: nat, mem: Memory)
    requires Cells(env, acts[d := a], mem) && d !in Vars(Blank(env))
    ensures Cells(env, acts, mem)
  {
    match env
    case Empty =>
    case FunB(_, rest) => DropActs(rest, acts, d, a, mem);
    case VarB(_, _, _, rest) => DropActs(rest, acts, d, a, mem);
  }

  /** The variable gets its first value, in the running frame. */
  lemma RunInit(g: World, d: VarDec, r: Outcome, c: Config, c1: Config, st: St, s0: St, s1: St, s2: St, acts: Acts, b: Env,
                lp: Option<Id>) returns (c2: Config)
    requires r.Normal? && Matches(g, r, c, c1, s0, s1, false, acts, VarB(d.id, d.name, None, b), OfExp(d.init), lp)
    requires c.top.fn == st.fn && s0.regs == st.regs && Owner(g.w, d.id) == st.fn && d.id !in Vars(b)
    requires s2.blocks == Emit(s1, Store(s1.value, Own(g.cx, st.fn, d.id))).blocks && s2.cur == s1.cur && Grows(s2.blocks, g.p.blocks)
    ensures Reaches(g.p, g.o, c, c2) && At(c2, s2) && c2.top.fn == st.fn
    ensures Rel(g, SetTop(r.s, r.value), c2, acts[d.id := c.top.id], VarB(d.id, d.name, Some(0), b))
    ensures Effect(c, c2, acts, b, OfVarDec(d), st.regs)
  {
    hide Reaches, Grows, Frames, Effect;
    var b1, cell := VarB(d.id, d.name, None, b), (c.top.id, d.id);
    EffectTop(c, c1, acts, b1, OfExp(d.init), s0.regs);
    assert Value(c1.top, Own(g.cx, st.fn, d.id)) == VPtr(c.top.id, d.id) by { FrameOfMain(g, b1, c1.top, c1.next, acts); }
    Run(g, c, c1, s1, Store(s1.value, Own(g.cx, st.fn, d.id)));
    c2 := c1.(mem := c1.mem[cell := r.value], top := c1.top.(pc := c1.top.pc + 1));
    OtherCells(r.s.env.rest, acts, c1.mem, cell, r.value);
    OtherActs(r.s.env.rest, acts, d.id, c.top.id, c2.mem);
    InitFrames(g, d, b, c1.top, c2.top, c1.next, acts);
    InitEffect(d, r.value, c, c1, c2, acts, b, st.regs);
  }

  lemma InitEffect(d: VarDec, v: Int32.I32, c: Config, c1: Config, c2: Config, acts: Acts, b: Env, regs: nat)
    requires Effect(c, c1, acts, VarB(d.id, d.name, None, b), OfExp(d.init), regs)
    requires c2 == c1.(mem := c1.mem[(c.top.id, d.id) := v], top := c1.top.(pc := c1.top.pc + 1))
    ensures Effect(c, c2, acts, b, OfVarDec(d), regs)
  {}

  lemma FunsVar(g: World, id: Id, x: Symbol, v: Option<Int32.I32>, b: Env)
    requires FunsOk(g, b)
    ensures FunsOk(g, VarB(id, x, v, b))
  {}

  lemma EffectTop(c: Config, c': Config, acts: Acts, b: Env, ids: set<Id>, regs: nat)
    requires Effect(c, c', acts, b, ids, regs)
    ensures c'.top.fn == c.top.fn && c'.top.id == c.top.id
  {}

  lemma FrameOfMain(g: World, b: Env, f: Frame, next: nat, acts: Acts)
    requires Frames(g, b, f, next, acts)
    ensures f.fn == g.cx.main ==> f.id == 0
  {}

  lemma InitFrames(g: World, d: VarDec, b: Env, f: Frame, f': Frame, next: nat, acts: Acts)
    requires Frames(g, VarB(d.id, d.name, None, b), f, next, acts) && d.id !in Vars(b) && Owner(g.w, d.id) == f.fn
    requires f'.fn == f.fn && f'.id == f.id && f'.args == f.args
    ensures Frames(g, VarB(d.id, d.name, Some(0), b), f', next, acts[d.id := f.id])
  {
    var b1, b2 := VarB(d.id, d.name, None, b), VarB(d.id, d.name, Some(0), b);
    var acts2 := acts[d.id := f.id];
    LiveVars(b);
    forall k | 0 <= k < |Lifted(g.cx, f'.fn)| ensures Given(g, b2, f', acts2, k) { assert Given(g, b1, f, acts, k); }
  }

  lemma PopFrames(g: World, d: VarDec, b: Env, f: Frame, next: nat, acts: Acts, a: nat)
    requires Frames(g, VarB(d.id, d.name, Some(0), b), f, next, acts[d.id := a]) && d.id !in Vars(b)
    ensures Frames(g, b, f, next, acts)
  {
    var b2 := VarB(d.id, d.name, Some(0), b);
    LiveVars(b);
    forall x | x in Live(b)
      ensures x in acts && acts[x] < next
      ensures (Owner(g.w, x) == f.fn ==> acts[x] == f.id) && (Owner(g.w, x) == g.cx.main ==> acts[x] == 0)
    {
      assert x in Live(b2) && x != d.id && acts[d.id := a][x] == acts[x];
    }
    forall k | 0 <= k < |Lifted(g.cx, f.fn)| ensures Given(g, b, f, acts, k) { assert Given(g, b2, f, acts[d.id := a], k); }
  }

  lemma PopEffect(d: VarDec, b: Env, c: Config, c2: Config, c': Config, acts: Acts, ids: set<Id>, ids': set<Id>, regs: nat, regs': nat)
    requires Effect(c, c2, acts, b, ids, regs) && regs <= regs' && d.id in ids
    requires Effect(c2, c', acts[d.id := c.top.id], VarB(d.id, d.name, Some(0), b), ids', regs')
    ensures Effect(c, c', acts, b, ids + ids', regs)
  {
    forall r | r in c.top.regs && r < regs ensures Find(c'.top.regs, r) == Some(c.top.regs[r]) {
      assert Find(c2.top.regs, r) == Some(c.top.regs[r]);
    }
    forall a, x | a < c.next && !(x in Live(b) && Find(acts, x) == Some(a)) && !(a == c.top.id && x in ids + ids')
      ensures Find(c'.mem, (a, x)) == Find(c.mem, (a, x))
    {
      assert Find(c2.mem, (a, x)) == Find(c.mem, (a, x));
    }
  }

  /** The variable leaves the scope. */
  lemma PopVar(g: World, r: Outcome, d: VarDec, c: Config, c2: Config, c': Config, st: St, s2: St, st': St, void: bool,
               acts: Acts, b: Env, ids: set<Id>, ids': set<Id>, all: set<Id>, lp: Option<Id>)
    requires Reaches(g.p, g.o, c, c2) && Effect(c, c2, acts, b, ids, st.regs) && d.id in ids && d.id !in Vars(b)
    requires Matches(g, r, c2, c', s2, st', void, acts[d.id := c.top.id], VarB(d.id, d.name, Some(0), b), ids', lp)
    requires all == ids + ids' && st.regs <= s2.regs && (lp.Some? ==> Find(s2.loopEnd, lp.value) == Find(st.loopEnd, lp.value))
    ensures Matches(g, PopOut(r), c, c', st, st', void, acts, b, all, lp)
  {
    hide Reaches, Frames, Effect;
    if r.Normal? || r.Broke? {
      ReachesTrans(g.p, g.o, c, c2, c');
      PopEffect(d, b, c, c2, c', acts, ids, ids', st.regs, s2.regs);
      PopFrames(g, d, b, c'.top, c'.next, acts, c.top.id);
      DropActs(r.s.env.rest, acts, d.id, c.top.id, c'.mem);
    }
  }

  // ----- calls: the arguments -----

  /** The operands hold the values, and will keep them. */
  ghost predicate Hold(c: Config, ops: seq<Operand>, vs: seq<Int32.I32>, regs: nat) {
    |ops| == |vs| && forall k | 0 <= k < |ops| :: Value(c.top, ops[k]) == VInt(vs[k]) && (ops[k].Reg? ==> ops[k].r < regs)
  }

  ghost predicate MatchesArgs(g: World, r: ArgsOutcome, c: Config, c': Config, st: St, st': St, ops: seq<Operand>,
                              acts: Acts, b: Env, ids: set<Id>, lp: Option<Id>) {
    match r
    case Values(vs, s) =>
      && Reaches(g.p, g.o, c, c') && At(c', st') && Rel(g, s, c', acts, b) && Effect(c, c', acts, b, ids, st.regs)
      && Hold(c', ops, vs, st'.regs)
    case Stop(o) => !o.Normal? && Matches(g, o, c, c', st, st', true, acts, b, ids, lp)
  }

  lemma NoArgs(g: World, s: State, c: Config, st: St, acts: Acts, b: Env, lp: Option<Id>)
    requires At(c, st) && Rel(g, s, c, acts, b)
    ensures MatchesArgs(g, ArgsOutcome.Values([], s), c, c, st, st, [], acts, b, {}, lp)
  {
    ReachesSelf(g.p, g.o, c);
  }

  lemma ArgsStop(g: World, r: Outcome, c: Config, c': Config, st: St, s1: St, st': St, ops: seq<Operand>, acts: Acts, b: Env,
                 ids: set<Id>, ids': set<Id>, lp: Option<Id>)
    requires Matches(g, r, c, c', st, s1, false, acts, b, ids, lp) && !r.Normal? && ids <= ids'
    ensures MatchesArgs(g, Stop(r), c, c', st, st', ops, acts, b, ids', lp)
  {
    hide Matches;
    Escapes(g, r, c, c', st, s1, st', false, true, acts, b, ids, ids', lp);
  }

  function ConsArgs(v: Int32.I32, r: ArgsOutcome): ArgsOutcome {
    if r.Stop? then r else ArgsOutcome.Values([v] + r.values, r.s)
  }

  lemma ArgsCons(g: World, r: Outcome, ra: ArgsOutcome, c: Config, c1: Config, c2: Config, st: St, s1: St, s2: St,
                 ops: seq<Operand>, acts: Acts, b: Env, ids: set<Id>, ids': set<Id>, lp: Option<Id>)
    requires r.Normal? && Matches(g, r, c, c1, st, s1, false, acts, b, ids, lp) && Plain(s1)
    requires MatchesArgs(g, ra, c1, c2, s1, s2, ops, acts, b, ids', lp) && st.regs <= s1.regs <= s2.regs
    requires lp.Some? ==> Find(s1.loopEnd, lp.value) == Find(st.loopEnd, lp.value)
    ensures MatchesArgs(g, ConsArgs(r.value, ra), c, c2, st, s2, [s1.value] + ops, acts, b, ids + ids', lp)
  {
    hide Effect, Rel, Reaches;
    if ra.Values? {
      ValueKept(c1, c2, s1.value, acts, b, ids', s1.regs);
      EffectTrans(c, c1, c2, acts, b, ids, ids', st.regs, s1.regs);
      ReachesTrans(g.p, g.o, c, c1, c2);
    } else {
      After(g, ra.outcome, c, c1, c2, st, s1, s2, true, acts, b, ids, ids', lp);
    }
  }

  lemma ArgsReady(g: World, es: Exps, st: St, held: set<int>, lp: Option<Id>, b: Env)
    requires es.ECons? && Ready(g, st, held, lp, b, OfExps(es)) && LegalArgs(g, es, st.fn, lp, b)
    requires Within(g, LowerArgs(g.cx, es, st).1)
    ensures Ready(g, st, held, lp, b, OfExp(es.head)) && Legal(g, es.head, st.fn, lp, b) && !Voids(g.cx, es.head)
    ensures var s1 := Lower(g.cx, es.head, st);
      && Ready(g, s1, held, lp, b, OfExps(es.tail)) && LegalArgs(g, es.tail, st.fn, lp, b) && s1.fn == st.fn && st.regs <= s1.regs
      && Plain(s1) && s1.regs <= LowerArgs(g.cx, es.tail, s1).1.regs
      && Within(g, s1) && (lp.Some? ==> Find(s1.loopEnd, lp.value) == Find(st.loopEnd, lp.value))
  {
    hide WellFormed, Consistent, Declared, New, Moves, Extends, Ready, Within, Lower;
    var s1 := Lower(g.cx, es.head, st);
    First(g, es.head, OfExps(es.tail), st, held, lp, b);
    SameLoop(g, st, s1, held, lp, b, OfExp(es.head), OfExps(es));
    PlainValue(g, s1, held, lp, b, OfExps(es.tail));
    LoweredArgs(g, es.tail, s1, held, lp, b);
    DoneFacts(g, s1, LowerArgs(g.cx, es.tail, s1).1, held, lp, b, OfExps(es.tail), OfExps(es.tail));
    WithinFirst(g, s1, LowerArgs(g.cx, es.tail, s1).1, held, OfExps(es.tail), lp, b);
  }

  // ----- calls: environments -----

  lemma FoundBlank(env: Env, f: Symbol)
    ensures FindFun(Blank(env), f).Some? == FindFun(env, f).Some?
    ensures FindFun(env, f).Some? ==>
      FindFun(Blank(env), f).value == (FindFun(env, f).value.0, Blank(FindFun(env, f).value.1))
  {}

  lemma FoundDec(ds: Decs, f: Symbol)
    requires FindDec(ds, f).Some?
    ensures InDecs(FindDec(ds, f).value, ds) && FindDec(ds, f).value.name == f
  {}

  lemma FoundFacts(g: World, b: Env, f: Symbol)
    requires FunsOk(g, b) && FindFun(b, f).Some? && Separate(b)
    ensures var d, t := FindFun(b, f).value.0, FindFun(b, f).value.1;
      && d.name == f && FunsOk(g, t) && TypedDec(g, d, t) && (d.body.SomeExp? ==> BodyOk(g, d, t))
      && Vars(t) <= Vars(b) && Live(t) <= Live(b) && Separate(t)
  {
    match b
    case VarB(_, _, _, rest) => FoundFacts(g, rest, f);
    case FunB(ds, rest) => if FindDec(ds, f).Some? { FoundDec(ds, f); } else { FoundFacts(g, rest, f); }
  }

  lemma FoundCells(env: Env, f: Symbol, acts: Acts, mem: Memory)
    requires Cells(env, acts, mem) && FindFun(env, f).Some?
    ensures Cells(FindFun(env, f).value.1, acts, mem)
  {}

  /** The callee's environment comes back into the caller's. */
  lemma GraftCells(env: Env, f: Symbol, tail: Env, acts: Acts, mem: Memory, mem': Memory)
    requires FindFun(env, f).Some? && Blank(tail) == Blank(FindFun(env, f).value.1)
    requires Separate(Blank(env)) && Cells(env, acts, mem) && Cells(tail, acts, mem')
    requires forall x | x in Live(Blank(env)) && x !in Vars(Blank(tail)) && x in acts :: Find(mem', (acts[x], x)) == Find(mem, (acts[x], x))
    ensures Cells(Graft(env, f, tail), acts, mem') && Blank(Graft(env, f, tail)) == Blank(env)
  {
    match env
    case VarB(id, _, _, rest) =>
      FoundVars(rest, f);
      GraftCells(rest, f, tail, acts, mem, mem');
    case FunB(ds, rest) => if FindDec(ds, f).None? { GraftCells(rest, f, tail, acts, mem, mem'); }
  }

  lemma FoundVars(env: Env, f: Symbol)
    requires FindFun(env, f).Some?
    ensures Vars(Blank(FindFun(env, f).value.1)) <= Vars(Blank(env))
  {}

  // ----- calls: the formals -----

  function FormalActs(fs: seq<Formal>, a: nat, acts: Acts): Acts {
    if fs == [] then acts else FormalActs(fs[1..], a, acts[fs[0].id := a])
  }

  lemma FormalActsAt(fs: seq<Formal>, a: nat, acts: Acts, x: Id)
    ensures Find(FormalActs(fs, a, acts), x) == if IsFormal(x, fs) then Some(a) else Find(acts, x)
    decreases |fs|
  {
    if fs != [] {
      FormalActsAt(fs[1..], a, acts[fs[0].id := a], x);
      SplitFormals(fs, x);
    }
  }

  lemma SplitFormals(fs: seq<Formal>, x: Id)
    requires fs != []
    ensures IsFormal(x, fs) <==> x == fs[0].id || IsFormal(x, fs[1..])
  {
    if IsFormal(x, fs) && x != fs[0].id {
      var k :| 0 <= k < |fs| && fs[k].id == x;
      assert fs[1..][k - 1].id == x;
    }
    if IsFormal(x, fs[1..]) {
      var k :| 0 <= k < |fs[1..]| && fs[1..][k].id == x;
      assert fs[k + 1].id == x;
    }
  }

  lemma BindBlank(fs: seq<Formal>, vs: seq<Int32.I32>, env: Env)
    requires |fs| == |vs|
    ensures Blank(BindFormals(fs, vs, env)) == Enter(fs, Blank(env))
    decreases |fs|
  {
    if fs != [] { BindBlank(fs[1..], vs[1..], VarB(fs[0].id, fs[0].name, Some(vs[0]), env)); }
  }

  lemma PopLast(env: Env, n: nat)
    ensures PopN(env, n + 1) == Pop(PopN(env, n))
    decreases n
  {
    if n > 0 { PopLast(Pop(env), n - 1); }
  }

  lemma PopFormals(fs: seq<Formal>, env: Env, bt: Env, acts: Acts, mem: Memory)
    requires Blank(env) == Enter(fs, bt) && Cells(env, acts, mem)
    ensures Cells(PopN(env, |fs|), acts, mem) && Blank(PopN(env, |fs|)) == bt
    decreases |fs|
  {
    if fs != [] {
      PopFormals(fs[1..], env, VarB(fs[0].id, fs[0].name, Some(0), bt), acts, mem);
      PopLast(env, |fs| - 1);
    }
  }

  lemma DropFormals(fs: seq<Formal>, env: Env, a: nat, acts: Acts, mem: Memory)
    requires Cells(env, FormalActs(fs, a, acts), mem) && OfFormals(fs) !! Vars(Blank(env))
    ensures Cells(env, acts, mem)
    decreases |fs|
  {
    if fs != [] {
      DropFormals(fs[1..], env, a, acts[fs[0].id := a], mem);
      DropActs(env, acts, fs[0].id, a, mem);
    }
  }

  lemma FormalsGrow(fs: seq<Formal>, k: nat, st: St)
    ensures Grows(st.blocks, BindFormalSlots(fs, k, st).blocks)
    decreases |fs|
  {
    if fs != [] {
      var s1 := Emit(Bind(st, st.fn, fs[0].id, Slot(fs[0].id)), Store(Param(k), Slot(fs[0].id)));
      FormalsGrow(fs[1..], k + 1, s1);
      GrowsTrans(st.blocks, s1.blocks, BindFormalSlots(fs, k, st).blocks);
    }
  }

  lemma RunFormal(g: World, fm: Formal, v: Int32.I32, k: nat, s0: St, a: Config, c: Config, env: Env, acts: Acts) returns (c1: Config)
    requires Reaches(g.p, g.o, a, c) && At(c, s0) && Grows(Emit(s0, Store(Param(k), Slot(fm.id))).blocks, g.p.blocks)
    requires k < |c.top.args| && c.top.args[k] == VInt(v) && fm.id !in Vars(Blank(env)) && Cells(env, acts, c.mem)
    ensures Reaches(g.p, g.o, a, c1) && At(c1, Emit(s0, Store(Param(k), Slot(fm.id))))
    ensures c1 == c.(mem := c.mem[(c.top.id, fm.id) := v], top := c.top.(pc := c1.top.pc))
    ensures Cells(VarB(fm.id, fm.name, Some(v), env), acts[fm.id := c.top.id], c1.mem)
  {
    hide Grows, Reaches;
    var cell := (c.top.id, fm.id);
    Run(g, a, c, s0, Store(Param(k), Slot(fm.id)));
    c1 := c.(mem := c.mem[cell := v], top := c.top.(pc := c.top.pc + 1));
    OtherCells(env, acts, c.mem, cell, v);
    OtherActs(env, acts, fm.id, c.top.id, c1.mem);
  }

  /** The callee stores its arguments into its own slots. */
  lemma {:induction false} RunFormals(g: World, fs: seq<Formal>, vs: seq<Int32.I32>, k: nat, st: St, a: Config, c: Config,
                                      env: Env, acts: Acts) returns (c': Config)
    requires Reaches(g.p, g.o, a, c) && At(c, st) && Grows(BindFormalSlots(fs, k, st).blocks, g.p.blocks)
    requires |fs| == |vs| && k + |fs| == |c.top.args| && forall j | 0 <= j < |fs| :: c.top.args[k + j] == VInt(vs[j])
    requires DistinctFormals(fs) && OfFormals(fs) !! Vars(Blank(env)) && Cells(env, acts, c.mem)
    ensures Reaches(g.p, g.o, a, c') && At(c', BindFormalSlots(fs, k, st))
    ensures c' == c.(mem := c'.mem, top := c.top.(pc := c'.top.pc))
    ensures Cells(BindFormals(fs, vs, env), FormalActs(fs, c.top.id, acts), c'.mem)
    ensures forall x, d | x != c.top.id :: Find(c'.mem, (x, d)) == Find(c.mem, (x, d))
    decreases |fs|
  {
    hide Grows, Reaches;
    c' := c;
    if fs != [] {
      var s0 := Bind(st, st.fn, fs[0].id, Slot(fs[0].id));
      var i := Store(Param(k), Slot(fs[0].id));
      FormalsGrow(fs[1..], k + 1, Emit(s0, i));
      GrowsTrans(Emit(s0, i).blocks, BindFormalSlots(fs, k, st).blocks, g.p.blocks);
      assert c.top.args[k + 0] == VInt(vs[0]);
      var c1 := RunFormal(g, fs[0], vs[0], k, s0, a, c, env, acts);
      forall j | 0 <= j < |fs[1..]| ensures c1.top.args[k + 1 + j] == VInt(vs[1..][j]) { assert c.top.args[k + (j + 1)] == VInt(vs[j + 1]); }
      c' := RunFormals(g, fs[1..], vs[1..], k + 1, Emit(s0, i), a, c1, VarB(fs[0].id, fs[0].name, Some(vs[0]), env),
                       acts[fs[0].id := c.top.id]);
    }
  }

  // ----- calls: the callee -----

  /** The lifted operands are the caller's accesses to the callee's lifted variables. */
  ghost predicate Handed(g: World, f: Id, lifted: seq<Operand>, q: Id, b: Env) {
    && |lifted| == |Lifted(g.cx, q)|
    && forall k | 0 <= k < |lifted| && Lifted(g.cx, q)[k] in Live(b) :: Names(g, f, lifted[k], Lifted(g.cx, q)[k])
  }

  /** A call is about to happen, in the scope b; the callee's declaration and environment are found. */
  ghost predicate Calling(g: World, f: Symbol, d: FunctionDec, tail: Env, vs: seq<Int32.I32>, s: State, c: Config, st: St,
                          lifted: seq<Operand>, actuals: seq<Operand>, acts: Acts, b: Env) {
    && FunsOk(g, b) && Separate(b) && At(c, st) && Rel(g, s, c, acts, b)
    && FindFun(s.env, f) == Some((d, tail)) && |vs| == |d.formals|
    && Handed(g, c.top.fn, lifted, d.id, b) && Hold(c, actuals, vs, st.regs)
    && Grows(Emit(st, Call(st.regs, d.id, lifted + actuals)).blocks, g.p.blocks)
  }

  /** What is known of the callee. */
  lemma CalleeFacts(g: World, f: Symbol, d: FunctionDec, tail: Env, vs: seq<Int32.I32>, s: State, c: Config, st: St,
                    lifted: seq<Operand>, actuals: seq<Operand>, acts: Acts, b: Env)
    requires Calling(g, f, d, tail, vs, s, c, st, lifted, actuals, acts, b)
    ensures var bt := Blank(tail);
      && d.name == f && FunsOk(g, bt) && TypedDec(g, d, bt) && (d.body.SomeExp? ==> BodyOk(g, d, bt))
      && Vars(bt) <= Vars(b) && Live(bt) <= Live(b) && Separate(bt)
    ensures Cells(tail, acts, c.mem) && Blank(s.env) == b && s.trace == c.trace && |vs| == |d.formals|
  {
    hide Frames, Grows;
    FoundBlank(s.env, f);
    FoundFacts(g, b, f);
    FoundCells(s.env, f, acts, c.mem);
  }

  /** The machine enters the callee: a new frame with the lifted pointers and the arguments. */
  lemma Invoke(g: World, f: Symbol, d: FunctionDec, tail: Env, vs: seq<Int32.I32>, s: State, c: Config, st: St,
               lifted: seq<Operand>, actuals: seq<Operand>, acts: Acts, b: Env, entry: nat) returns (c': Config)
    requires Calling(g, f, d, tail, vs, s, c, st, lifted, actuals, acts, b) && d.body.SomeExp? && Find(g.p.entries, d.id) == Some(entry)
    ensures Reaches(g.p, g.o, c, c') && c'.mem == c.mem && c'.next == c.next + 1 && c'.trace == c.trace
    ensures c'.below == Caller(c.top.(pc := c.top.pc + 1), st.regs, c.below)
    ensures c'.top.fn == d.id && c'.top.id == c.next && AtBlock(c', entry)
    ensures Received(g, d, vs, c'.top.args, acts, b)
  {
    hide Reaches, Grows, FunsOk, Cells, TypedDec, Rel, Received;
    CalleeFacts(g, f, d, tail, vs, s, c, st, lifted, actuals, acts, b);
    NotPrimitive(g, d, Blank(tail));
    ReachesSelf(g.p, g.o, c);
    Run(g, c, c, st, Call(st.regs, d.id, lifted + actuals));
    c' := Execute(g.p, g.o, c, Call(st.regs, d.id, lifted + actuals)).c;
    Receive(g, f, d, tail, vs, s, c, st, lifted, actuals, acts, b);
  }

  /** The lifted pointers, then the arguments. */
  ghost predicate Received(g: World, d: FunctionDec, vs: seq<Int32.I32>, args: seq<Val>, acts: Acts, b: Env) {
    var ds := Lifted(g.cx, d.id);
    && |args| == |ds| + |vs| && (forall j | 0 <= j < |vs| :: args[|ds| + j] == VInt(vs[j]))
    && forall k | 0 <= k < |ds| && ds[k] in Live(b) :: ds[k] in acts && args[k] == VPtr(acts[ds[k]], ds[k])
  }

  lemma Receive(g: World, f: Symbol, d: FunctionDec, tail: Env, vs: seq<Int32.I32>, s: State, c: Config, st: St,
                lifted: seq<Operand>, actuals: seq<Operand>, acts: Acts, b: Env)
    requires Calling(g, f, d, tail, vs, s, c, st, lifted, actuals, acts, b)
    ensures Received(g, d, vs, Cfg.Values(c.top, lifted + actuals), acts, b)
  {
    hide Grows, FunsOk, Cells, Frames;
    var ds, args := Lifted(g.cx, d.id), Cfg.Values(c.top, lifted + actuals);
    forall k | 0 <= k < |ds| && ds[k] in Live(b) ensures ds[k] in acts && args[k] == VPtr(acts[ds[k]], ds[k]) {
      PointsTo(g, b, c.top, c.next, acts, lifted[k], ds[k]);
    }
    forall j | 0 <= j < |vs| ensures args[|ds| + j] == VInt(vs[j]) {
      assert (lifted + actuals)[|ds| + j] == actuals[j];
    }
  }

  lemma NotPrimitive(g: World, d: FunctionDec, b: Env)
    requires TypedDec(g, d, b) && d.body.SomeExp?
    ensures d.id !in g.p.primitives
  {}

  /** The callee's view of the variables in scope. */
  lemma CalleeFrames(g: World, d: FunctionDec, vs: seq<Int32.I32>, bt: Env, b: Env, f: Frame, f': Frame, next: nat, acts: Acts)
    requires Frames(g, b, f, next, acts) && Live(bt) <= Live(b) && d.id != g.cx.main && f'.fn == d.id && f'.id == next
    requires OwnsFormals(g.w, d.formals, d.id) && (forall x | x in Live(bt) :: Owner(g.w, x) != d.id)
    requires DistinctFormals(d.formals) && OfFormals(d.formals) !! Vars(bt) && Separate(bt)
    requires |vs| == |d.formals| && Received(g, d, vs, f'.args, acts, b)
    ensures Frames(g, Enter(d.formals, bt), f', next + 1, FormalActs(d.formals, next, acts))
  {
    var acts', b1 := FormalActs(d.formals, next, acts), Enter(d.formals, bt);
    EnterFacts(d.formals, bt);
    LiveVars(bt);
    forall x | x in Live(b1)
      ensures x in acts' && acts'[x] < next + 1
      ensures (Owner(g.w, x) == d.id ==> acts'[x] == next) && (Owner(g.w, x) == g.cx.main ==> acts'[x] == 0)
    {
      FormalActsAt(d.formals, next, acts, x);
      if IsFormal(x, d.formals) { var k :| 0 <= k < |d.formals| && d.formals[k].id == x; }
    }
    forall k | 0 <= k < |Lifted(g.cx, f'.fn)| ensures Given(g, b1, f', acts', k) {
      var x := Lifted(g.cx, d.id)[k];
      FormalActsAt(d.formals, next, acts, x);
      if x in Live(b1) && IsFormal(x, d.formals) { var j :| 0 <= j < |d.formals| && d.formals[j].id == x; }
    }
  }

  /** The builder's states around the body of d, within the final code. */
  lemma CalleeReady(g: World, d: FunctionDec, bt: Env, sd: St, held: set<int>)
    requires d.body.SomeExp? && Compiled(g, d, bt, sd, held)
    ensures var s1 := Prologue(g.cx, d, Open(d, sd)); var s2 := Lower(g.cx, d.body.exp, s1);
      && Within(g, s2) && Grows(s1.blocks, g.p.blocks)
      && Grows(Emit(s2, if d.result.None? then RetVoid else Ret(s2.value)).blocks, g.p.blocks)
  {
    hide Ready, Legal, Lower, WellFormed, Consistent, Moves, Extends, Typed, Grows, Within, LowerTables.Good, Fine;
    var s1 := Prologue(g.cx, d, Open(d, sd));
    var s2 := Lower(g.cx, d.body.exp, s1);
    var s3 := LowerBody(g.cx, d, Open(d, sd));
    var i := if d.result.None? then RetVoid else Ret(s2.value);
    assert s3 == Emit(s2, i);
    GrowsEmit(s2, i);
    WithinSame(g, s2, s3);
    Lowered(g, d.body.exp, s1, held, None, Enter(d.formals, bt));
    DoneWithin(g, s1, s2, held, None, Enter(d.formals, bt), OfExp(d.body.exp));
    WithinGrows(g, s1);
    WithinGrows(g, s3);
  }

  /** From the call to the start of the callee's body. */
  lemma EnterCallee(g: World, f: Symbol, d: FunctionDec, tail: Env, vs: seq<Int32.I32>, s: State, c: Config, st: St,
                    lifted: seq<Operand>, actuals: seq<Operand>, acts: Acts, b: Env, sd: St, held: set<int>) returns (c': Config)
    requires Calling(g, f, d, tail, vs, s, c, st, lifted, actuals, acts, b)
    requires d.body.SomeExp? && Compiled(g, d, Blank(tail), sd, held)
    ensures Reaches(g.p, g.o, c, c')
    ensures Poised(g, State(BindFormals(d.formals, vs, tail), s.trace), c', Prologue(g.cx, d, Open(d, sd)), held, None,
                   Enter(d.formals, Blank(tail)), FormalActs(d.formals, c.next, acts), OfExp(d.body.exp))
    ensures c'.below == Caller(c.top.(pc := c.top.pc + 1), st.regs, c.below) && c'.next == c.next + 1 && c'.top.id == c.next
    ensures forall a, x | a != c.next :: Find(c'.mem, (a, x)) == Find(c.mem, (a, x))
  {
    hide Ready, Legal, Lower, WellFormed, Consistent, Moves, Extends, Typed, Grows, Within, FunsOk, Reaches, Rel, Cells, Handed,
         Hold, Received;
    CalleeFacts(g, f, d, tail, vs, s, c, st, lifted, actuals, acts, b);
    var c1 := Invoke(g, f, d, tail, vs, s, c, st, lifted, actuals, acts, b, |sd.blocks|);
    c' := RunPrologue(g, d, tail, vs, c, c1, acts, b, sd, held);
    CalleeRel(g, f, d, tail, vs, s, c, st, lifted, actuals, acts, b, sd, held, c');
    FunsFormals(g, d.formals, Blank(tail));
  }

  lemma RunPrologue(g: World, d: FunctionDec, tail: Env, vs: seq<Int32.I32>, c: Config, c1: Config, acts: Acts, b: Env,
                    sd: St, held: set<int>) returns (c': Config)
    requires d.body.SomeExp? && Compiled(g, d, Blank(tail), sd, held) && Cells(tail, acts, c1.mem)
    requires Reaches(g.p, g.o, c, c1) && AtBlock(c1, |sd.blocks|) && |vs| == |d.formals| && Received(g, d, vs, c1.top.args, acts, b)
    ensures Reaches(g.p, g.o, c, c') && At(c', Prologue(g.cx, d, Open(d, sd)))
    ensures c' == c1.(mem := c'.mem, top := c1.top.(pc := c'.top.pc))
    ensures Cells(BindFormals(d.formals, vs, tail), FormalActs(d.formals, c1.top.id, acts), c'.mem)
    ensures forall x, y | x != c1.top.id :: Find(c'.mem, (x, y)) == Find(c1.mem, (x, y))
  {
    hide Ready, Legal, Lower, WellFormed, Consistent, Moves, Extends, Typed, Grows, Within, Reaches, Cells, Received, Compiled;
    var n, s0 := |Lifted(g.cx, d.id)|, Open(d, sd);
    CalleeReady(g, d, Blank(tail), sd, held);
    BindLiftedOnlyBinds(Lifted(g.cx, d.id), 0, s0);
    CalleeDistinct(g, d, Blank(tail), sd, held);
    ReceivedFormals(g, d, vs, c1.top.args, acts, b);
    c' := RunFormals(g, d.formals, vs, n, BindLifted(Lifted(g.cx, d.id), 0, s0), c, c1, tail, acts);
  }

  lemma FunsFormals(g: World, fs: seq<Formal>, b: Env)
    requires FunsOk(g, b)
    ensures FunsOk(g, Enter(fs, b))
    decreases |fs|
  {
    if fs != [] { FunsFormals(g, fs[1..], VarB(fs[0].id, fs[0].name, Some(0), b)); }
  }

  lemma CalleeDistinct(g: World, d: FunctionDec, bt: Env, sd: St, held: set<int>)
    requires d.body.SomeExp? && Compiled(g, d, bt, sd, held)
    ensures DistinctFormals(d.formals) && OfFormals(d.formals) !! Vars(bt)
  {
    hide Ready, Legal, Lower, Within;
  }

  lemma ReceivedFormals(g: World, d: FunctionDec, vs: seq<Int32.I32>, args: seq<Val>, acts: Acts, b: Env)
    requires Received(g, d, vs, args, acts, b)
    ensures |args| == |Lifted(g.cx, d.id)| + |vs| && forall j | 0 <= j < |vs| :: args[|Lifted(g.cx, d.id)| + j] == VInt(vs[j])
  {}

  lemma CalleeRel(g: World, f: Symbol, d: FunctionDec, tail: Env, vs: seq<Int32.I32>, s: State, c: Config, st: St,
                  lifted: seq<Operand>, actuals: seq<Operand>, acts: Acts, b: Env, sd: St, held: set<int>, c': Config)
    requires Calling(g, f, d, tail, vs, s, c, st, lifted, actuals, acts, b)
    requires d.body.SomeExp? && Compiled(g, d, Blank(tail), sd, held)
    requires c'.top.fn == d.id && c'.top.id == c.next && c'.next == c.next + 1 && c'.trace == c.trace
    requires Received(g, d, vs, c'.top.args, acts, b)
    requires Cells(BindFormals(d.formals, vs, tail), FormalActs(d.formals, c.next, acts), c'.mem)
    ensures Rel(g, State(BindFormals(d.formals, vs, tail), s.trace), c', FormalActs(d.formals, c.next, acts), Enter(d.formals, Blank(tail)))
  {
    hide Ready, Legal, Lower, WellFormed, Consistent, Moves, Extends, Typed, Grows, Within, FunsOk, Reaches, Cells, Handed, Hold,
         Received, Frames;
    CalleeFacts(g, f, d, tail, vs, s, c, st, lifted, actuals, acts, b);
    CalleeDistinct(g, d, Blank(tail), sd, held);
    BindBlank(d.formals, vs, tail);
    CalleeFrames(g, d, vs, Blank(tail), b, c.top, c'.top, c.next, acts);
  }

  // ----- calls: the return -----

  /** The callee ended; its caller gets the value and goes on. */
  lemma RunReturn(g: World, a: Config, c5: Config, f: Frame, dst: nat, below: Stack, s2: St, i: Instr, v: Val) returns (c': Config)
    requires Reaches(g.p, g.o, a, c5) && At(c5, s2) && Grows(Emit(s2, i).blocks, g.p.blocks)
    requires c5.below == Caller(f, dst, below) && ((i.Ret? && Value(c5.top, i.a) == v) || (i.RetVoid? && v == VInt(0)))
    ensures Reaches(g.p, g.o, a, c') && c' == c5.(top := f.(regs := f.regs[dst := v]), below := below)
  {
    hide Reaches, Grows;
    Run(g, a, c5, s2, i);
    c' := c5.(top := f.(regs := f.regs[dst := v]), below := below);
  }

  /** The cells of the caller's scope after the callee: those the callee sees were updated, the
      others are as they were. */
  lemma CallerCells(g: World, f: Symbol, d: FunctionDec, tail: Env, env: Env, env': Env, acts: Acts, b: Env, next: nat,
                    mem: Memory, mem': Memory)
    requires Blank(env) == b && Separate(b) && Cells(env, acts, mem) && FindFun(env, f) == Some((d, tail))
    requires DistinctFormals(d.formals) && OfFormals(d.formals) !! Vars(Blank(tail))
    requires Blank(env') == Enter(d.formals, Blank(tail)) && Cells(env', FormalActs(d.formals, next, acts), mem')
    requires forall x | x in Live(b) && x !in Vars(Blank(tail)) && x in acts :: Find(mem', (acts[x], x)) == Find(mem, (acts[x], x))
    ensures var r := Graft(env, f, PopN(env', |d.formals|)); Cells(r, acts, mem') && Blank(r) == b
  {
    PopFormals(d.formals, env', Blank(tail), FormalActs(d.formals, next, acts), mem');
    DropFormals(d.formals, PopN(env', |d.formals|), next, acts, mem');
    GraftCells(env, f, PopN(env', |d.formals|), acts, mem, mem');
  }

  /** What the callee did, seen by the caller: nothing but to the variables in scope. */
  lemma CalleeEffect(d: FunctionDec, bt: Env, b: Env, acts: Acts, c: Config, c4: Config, c5: Config, ids: set<Id>, regs: nat)
    requires Effect(c4, c5, FormalActs(d.formals, c.next, acts), Enter(d.formals, bt), ids, regs)
    requires DistinctFormals(d.formals) && OfFormals(d.formals) !! Vars(bt) && Separate(bt) && Live(bt) <= Live(b)
    requires c4.next == c.next + 1 && c4.top.id == c.next && forall a, x | a != c.next :: Find(c4.mem, (a, x)) == Find(c.mem, (a, x))
    ensures c.next <= c5.next && c5.below == c4.below
    ensures forall a, x | a < c.next && !(x in Live(bt) && Find(acts, x) == Some(a)) :: Find(c5.mem, (a, x)) == Find(c.mem, (a, x))
  {
    EnterFacts(d.formals, bt);
    forall a, x | a < c.next && !(x in Live(bt) && Find(acts, x) == Some(a)) ensures Find(c5.mem, (a, x)) == Find(c.mem, (a, x)) {
      FormalActsAt(d.formals, c.next, acts, x);
      assert Find(c4.mem, (a, x)) == Find(c.mem, (a, x));
    }
  }

  /** From the end of the callee's body back to the caller. */
  lemma Leave(g: World, f: Symbol, d: FunctionDec, tail: Env, vs: seq<Int32.I32>, s: State, c: Config, c4: Config, c5: Config,
              st: St, s1: St, s2: St, lifted: seq<Operand>, actuals: seq<Operand>, acts: Acts, b: Env, ob: Outcome, lp: Option<Id>)
    returns (c': Config)
    requires Calling(g, f, d, tail, vs, s, c, st, lifted, actuals, acts, b) && d.body.SomeExp? && ob.Normal?
    requires DistinctFormals(d.formals) && OfFormals(d.formals) !! Vars(Blank(tail))
    requires Reaches(g.p, g.o, c, c4) && c4.below == Caller(c.top.(pc := c.top.pc + 1), st.regs, c.below)
    requires c4.next == c.next + 1 && c4.top.id == c.next && forall a, x | a != c.next :: Find(c4.mem, (a, x)) == Find(c.mem, (a, x))
    requires Grows(Emit(s2, if d.result.None? then RetVoid else Ret(s2.value)).blocks, g.p.blocks)
    requires Matches(g, ob, c4, c5, s1, s2, Voids(g.cx, d.body.exp), FormalActs(d.formals, c.next, acts),
                     Enter(d.formals, Blank(tail)), OfExp(d.body.exp), None)
    ensures Matches(g, Normal(ob.value, State(Graft(s.env, f, PopN(ob.s.env, |d.formals|)), ob.s.trace)), c, c', st,
                    EmitCall(g.cx, st, d.id, lifted + actuals), d.id in g.cx.voids, acts, b, {}, lp)
  {
    hide Grows, FunsOk, Reaches, Cells, Handed, Hold, Frames, Effect, Typed, Calling, Voids;
    var bt := Blank(tail);
    CalleeFacts(g, f, d, tail, vs, s, c, st, lifted, actuals, acts, b);
    CalleeEffect(d, bt, b, acts, c, c4, c5, OfExp(d.body.exp), s1.regs);
    ReachesTrans(g.p, g.o, c, c4, c5);
    var v := if d.result.None? then VInt(0) else VInt(ob.value);
    c' := RunReturn(g, c, c5, c.top.(pc := c.top.pc + 1), st.regs, c.below, s2, if d.result.None? then RetVoid else Ret(s2.value), v);
    CallerRel(g, f, d, tail, vs, s, c, c5, c', st, lifted, actuals, acts, b, ob);
    CallerEffect(c, c5, c', v, acts, b, Blank(tail), st.regs);
    CallAt(g, f, d, tail, vs, s, c, c', st, lifted, actuals, acts, b, v);
  }

  lemma CallAt(g: World, f: Symbol, d: FunctionDec, tail: Env, vs: seq<Int32.I32>, s: State, c: Config, c': Config, st: St,
               lifted: seq<Operand>, actuals: seq<Operand>, acts: Acts, b: Env, v: Val)
    requires Calling(g, f, d, tail, vs, s, c, st, lifted, actuals, acts, b)
    requires c'.top == c.top.(pc := c.top.pc + 1, regs := c.top.regs[st.regs := v])
    ensures var st' := EmitCall(g.cx, st, d.id, lifted + actuals);
      At(c', st') && (d.id !in g.cx.voids ==> Value(c'.top, st'.value) == v)
  {}

  lemma CallerRel(g: World, f: Symbol, d: FunctionDec, tail: Env, vs: seq<Int32.I32>, s: State, c: Config, c5: Config, c': Config, st: St,
                  lifted: seq<Operand>, actuals: seq<Operand>, acts: Acts, b: Env, ob: Outcome)
    requires Calling(g, f, d, tail, vs, s, c, st, lifted, actuals, acts, b) && ob.Normal?
    requires DistinctFormals(d.formals) && OfFormals(d.formals) !! Vars(Blank(tail))
    requires Rel(g, ob.s, c5, FormalActs(d.formals, c.next, acts), Enter(d.formals, Blank(tail)))
    requires c.next <= c5.next && forall a, x | a < c.next && !(x in Live(Blank(tail)) && Find(acts, x) == Some(a)) ::
               Find(c5.mem, (a, x)) == Find(c.mem, (a, x))
    requires c'.top.fn == c.top.fn && c'.top.id == c.top.id && c'.top.args == c.top.args
    requires c'.mem == c5.mem && c'.next == c5.next && c'.trace == c5.trace
    ensures Rel(g, State(Graft(s.env, f, PopN(ob.s.env, |d.formals|)), ob.s.trace), c', acts, b)
  {
    hide Grows, FunsOk, Cells, Handed, Hold, At;
    CalleeFacts(g, f, d, tail, vs, s, c, st, lifted, actuals, acts, b);
    LiveVars(Blank(tail));
    forall x | x in Live(b) && x !in Vars(Blank(tail)) && x in acts ensures Find(c5.mem, (acts[x], x)) == Find(c.mem, (acts[x], x)) {
      assert acts[x] < c.next;
    }
    CallerCells(g, f, d, tail, s.env, ob.s.env, acts, b, c.next, c.mem, c5.mem);
    CallerFrames(g, b, c.top, c'.top, c.next, c'.next, acts);
  }

  lemma CallerFrames(g: World, b: Env, f: Frame, f': Frame, next: nat, next': nat, acts: Acts)
    requires Frames(g, b, f, next, acts) && next <= next' && f'.fn == f.fn && f'.id == f.id && f'.args == f.args
    ensures Frames(g, b, f', next', acts)
  {
    forall k | 0 <= k < |Lifted(g.cx, f'.fn)| ensures Given(g, b, f', acts, k) { assert Given(g, b, f, acts, k); }
  }

  lemma CallerEffect(c: Config, c5: Config, c': Config, v: Val, acts: Acts, b: Env, bt: Env, regs: nat)
    requires c.next <= c5.next && Live(bt) <= Live(b)
    requires forall a, x | a < c.next && !(x in Live(bt) && Find(acts, x) == Some(a)) :: Find(c5.mem, (a, x)) == Find(c.mem, (a, x))
    requires c' == c5.(top := c.top.(pc := c.top.pc + 1, regs := c.top.regs[regs := v]), below := c.below)
    ensures Effect(c, c', acts, b, {}, regs)
  {}

  // ----- calls -----

  lemma ArgsInts(vs: seq<Val>, ns: seq<Int32.I32>)
    requires |vs| == |ns| && forall k | 0 <= k < |vs| :: vs[k] == VInt(ns[k])
    ensures Ints(vs) == Some(ns)
  {
    if vs != [] {
      ArgsInts(vs[1..], ns[1..]);
      assert [ns[0]] + ns[1..] == ns;
    }
  }

  /** A primitive adds its event to the trace. */
  lemma RunPrimitive(g: World, f: Symbol, d: FunctionDec, tail: Env, vs: seq<Int32.I32>, s: State, c: Config, st: St,
                     lifted: seq<Operand>, actuals: seq<Operand>, acts: Acts, b: Env, lp: Option<Id>) returns (c': Config)
    requires Calling(g, f, d, tail, vs, s, c, st, lifted, actuals, acts, b) && d.body.NoExp?
    ensures var trace := s.trace + [Event(f, vs)];
      Matches(g, Normal(Int32.Wrap(g.o(trace)), State(s.env, trace)), c, c', st, EmitCall(g.cx, st, d.id, lifted + actuals),
              d.id in g.cx.voids, acts, b, {}, lp)
  {
    hide Grows, FunsOk, Cells, Reaches, Typed, Frames, Rel, Effect;
    CalleeFacts(g, f, d, tail, vs, s, c, st, lifted, actuals, acts, b);
    assert lifted + actuals == actuals;
    ArgsInts(Cfg.Values(c.top, actuals), vs);
    ReachesSelf(g.p, g.o, c);
    Run(g, c, c, st, Call(st.regs, d.id, lifted + actuals));
    var trace := s.trace + [Event(f, vs)];
    c' := Set(c.(trace := trace), st.regs, VInt(Int32.Wrap(g.o(trace))));
    PrimitiveKeeps(g, s, c, c', trace, VInt(Int32.Wrap(g.o(trace))), st.regs, acts, b);
  }

  lemma PrimitiveKeeps(g: World, s: State, c: Config, c': Config, trace: seq<Event>, v: Val, regs: nat, acts: Acts, b: Env)
    requires Rel(g, s, c, acts, b) && c' == Set(c.(trace := trace), regs, v)
    ensures Rel(g, State(s.env, trace), c', acts, b) && Effect(c, c', acts, b, {}, regs)
  {
    hide Frames;
    SameFrames(g, b, c.top, c'.top, c.next, acts);
  }

  lemma HandedOver(g: World, ds: seq<Id>, st: St, held: set<int>, lp: Option<Id>, b: Env, ids: set<Id>, q: Id)
    requires Ready(g, st, held, lp, b, ids) && AllIn(ds, Lifted(g.cx, st.fn)) && ds == Lifted(g.cx, q)
    ensures LowerLifted(ds, st).1 == st && Handed(g, st.fn, LowerLifted(ds, st).0, q, b)
  {
    hide WellFormed;
    LiftedAtHand(g.cx, g.w, ds, st);
  }

  lemma CallReady(g: World, e: Exp, st: St, held: set<int>, lp: Option<Id>, b: Env)
    requires e.CallExp? && Ready(g, st, held, lp, b, OfExp(e)) && Legal(g, e, st.fn, lp, b) && Within(g, Lower(g.cx, e, st))
    ensures Ready(g, st, held, lp, b, OfExps(e.args)) && LegalArgs(g, e.args, st.fn, lp, b) && Separate(b)
    ensures var q := Link(g.cx, e.id); var lifted := LowerLifted(Lifted(g.cx, q), st).0;
      var (actuals, s2) := LowerArgs(g.cx, e.args, st);
      && Handed(g, st.fn, lifted, q, b) && |actuals| == Length(e.args) && Within(g, s2) && st.regs <= s2.regs
      && Grows(Emit(s2, Call(s2.regs, q, lifted + actuals)).blocks, g.p.blocks)
      && (lp.Some? ==> Find(s2.loopEnd, lp.value) == Find(st.loopEnd, lp.value))
      && Lower(g.cx, e, st) == EmitCall(g.cx, s2, q, lifted + actuals) && Voids(g.cx, e) == (q in g.cx.voids)
  {
    hide WellFormed, Consistent, Declared, New, Moves, Extends, Grows;
    var q := Link(g.cx, e.id);
    ReadyLess(g, st, held, lp, b, OfExp(e), OfExps(e.args));
    HandedOver(g, Lifted(g.cx, q), st, held, lp, b, OfExp(e), q);
    var lifted := LowerLifted(Lifted(g.cx, q), st).0;
    LoweredArgs(g, e.args, st, held, lp, b);
    var (actuals, s2) := LowerArgs(g.cx, e.args, st);
    DoneFacts(g, st, s2, held, lp, b, OfExps(e.args), OfExp(e));
    GrowsEmit(s2, Call(s2.regs, q, lifted + actuals));
    WithinSame(g, s2, Lower(g.cx, e, st));
  }

  lemma CallDone(g: World, e: Exp, r: Outcome, c: Config, c1: Config, c': Config, st: St, s2: St, st': St, void: bool,
                 acts: Acts, b: Env, lp: Option<Id>)
    requires e.CallExp? && Matches(g, r, c1, c', s2, st', void, acts, b, {}, lp) && st.regs <= s2.regs
    requires Reaches(g.p, g.o, c, c1) && Effect(c, c1, acts, b, OfExps(e.args), st.regs)
    requires lp.Some? ==> Find(s2.loopEnd, lp.value) == Find(st.loopEnd, lp.value)
    ensures Matches(g, r, c, c', st, st', void, acts, b, OfExp(e), lp)
  {
    hide Matches, Effect, Reaches;
    After(g, r, c, c1, c', st, s2, st', void, acts, b, OfExps(e.args), {}, lp);
    MatchesMore(g, r, c, c', st, st', void, void, acts, b, OfExps(e.args) + {}, OfExp(e), lp);
  }

  lemma CallFound(g: World, e: Exp, s: State, st: St, s2: St, vs: seq<Int32.I32>, lifted: seq<Operand>, actuals: seq<Operand>,
                  acts: Acts, b: Env, c: Config, c1: Config, lp: Option<Id>)
    requires e.CallExp? && Legal(g, e, st.fn, lp, b) && FunsOk(g, b) && Separate(b) && c.top.fn == st.fn
    requires MatchesArgs(g, ArgsOutcome.Values(vs, s), c, c1, st, s2, actuals, acts, b, OfExps(e.args), lp)
    requires |actuals| == Length(e.args) && Handed(g, st.fn, lifted, Link(g.cx, e.id), b)
    requires Grows(Emit(s2, Call(s2.regs, Link(g.cx, e.id), lifted + actuals)).blocks, g.p.blocks)
    ensures var found := FindFun(s.env, e.name);
      && found.Some? && found.value.0.id == Link(g.cx, e.id) && |found.value.0.formals| == |vs|
      && Calling(g, e.name, found.value.0, found.value.1, vs, s, c1, s2, lifted, actuals, acts, b)
    ensures Reaches(g.p, g.o, c, c1) && Effect(c, c1, acts, b, OfExps(e.args), st.regs)
  {
    hide Grows, FunsOk, Reaches, Frames, Cells, Handed, Lowerable, Lifts, Distinct;
    FoundBlank(s.env, e.name);
  }
}
