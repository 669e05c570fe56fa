/** The control-flow graphs the translator emits are well formed at every step. */
module LowerShape {
  import opened Options
  import opened Ast
  import opened Nodes
  import opened Cfg
  import opened Lowering
  import Int32

  predicate Targets(i: Instr, t: nat) {
    (i.Br? && i.target == t) || (i.CondBr? && (i.yes == t || i.no == t))
  }

  /** Some branch of block p goes to block t. */
  ghost predicate Edge(blocks: seq<Block>, p: nat, t: nat) {
    p < |blocks| && exists k | 0 <= k < |blocks[p].instrs| :: Targets(blocks[p].instrs[k], t)
  }

  ghost predicate NoEdge(blocks: seq<Block>, t: nat) { forall p: nat :: !Edge(blocks, p, t) }

  ghost predicate OnlyEdge(blocks: seq<Block>, t: nat, from: nat) { forall p: nat :: Edge(blocks, p, t) <==> p == from }

  /** No terminator yet. */
  ghost predicate Unfinished(b: Block) {
    forall k | 0 <= k < |b.instrs| :: !Terminator(b.instrs[k])
  }

  /** Exactly one terminator, at the end. */
  ghost predicate Sealed(b: Block) {
    && b.instrs != [] && Terminator(b.instrs[|b.instrs| - 1])
    && forall k | 0 <= k < |b.instrs| - 1 :: !Terminator(b.instrs[k])
  }

  /** A phi opens its block and lists exactly the predecessors of the block. */
  ghost predicate PhiExact(blocks: seq<Block>, b: nat, k: nat)
    requires b < |blocks| && k < |blocks[b].instrs|
  {
    var i := blocks[b].instrs[k];
    i.Phi? ==>
      && k == 0 && i.leftBlock != i.rightBlock
      && forall p: nat :: Edge(blocks, p, b) <==> p == i.leftBlock || p == i.rightBlock
  }

  ghost predicate HasPhi(b: Block) {
    exists k | 0 <= k < |b.instrs| :: b.instrs[k].Phi?
  }

  /** held are the blocks created but not yet started, and the insertion points of the enclosing
      functions: apart from them, the insertion point is the only block not yet sealed. */
  ghost predicate WellFormed(st: St, held: set<int>) {
    && st.cur < |st.blocks| && st.cur !in held
    && Unfinished(st.blocks[st.cur]) && st.blocks[st.cur].fn == st.fn
    && (forall b: nat | b < |st.blocks| && b != st.cur && b !in held :: Sealed(st.blocks[b]))
    && (forall b | b in held :: 0 <= b < |st.blocks| && Unfinished(st.blocks[b]))
    && (forall p: nat, t: nat | Edge(st.blocks, p, t) :: t < |st.blocks| && st.blocks[t].fn == st.blocks[p].fn)
    && (forall b: nat, k: nat | b < |st.blocks| && k < |st.blocks[b].instrs| :: PhiExact(st.blocks, b, k))
    && (forall id | id in st.loopEnd :: st.loopEnd[id] < |st.blocks| && !HasPhi(st.blocks[st.loopEnd[id]]))
  }

  /** What translating code with the nodes ids leaves alone: every block but the insertion point,
      and the edges into blocks that are neither new nor the end of a loop. */
  ghost predicate Extends(st: St, st': St, ids: set<Id>) {
    && |st.blocks| <= |st'.blocks| && st'.fn == st.fn
    && (forall b: nat | b < |st.blocks| && b != st.cur :: st'.blocks[b] == st.blocks[b])
    && (st.cur < |st.blocks| ==>
          && st.blocks[st.cur].instrs <= st'.blocks[st.cur].instrs && st'.blocks[st.cur].fn == st.blocks[st.cur].fn
          && (HasPhi(st'.blocks[st.cur]) ==> HasPhi(st.blocks[st.cur])))
    && (st'.cur == st.cur || st'.cur >= |st.blocks|)
    && (forall p: nat, t: nat | Edge(st'.blocks, p, t) && t < |st.blocks| && t !in st.loopEnd.Values :: Edge(st.blocks, p, t))
    && (forall id | id !in ids :: Find(st'.loopEnd, id) == Find(st.loopEnd, id))
    && (forall t | t in st'.loopEnd.Values :: t in st.loopEnd.Values || t >= |st.blocks|)
    && st.regs <= st'.regs
  }

  /** The loop a break may leave is one of the current function. */
  ghost predicate LoopKnown(st: St, lp: Option<Id>, ids: set<Id>) {
    lp.Some? ==>
      && lp.value in st.loopEnd && lp.value !in ids && st.loopEnd[lp.value] < |st.blocks|
      && st.blocks[st.loopEnd[lp.value]].fn == st.fn
  }

  // ----- what the translator assumes of its input -----

  /** No `for` is left, and each break leaves the innermost loop around it in its function. */
  predicate Lowerable(cx: Ctx, e: Exp, lp: Option<Id>) {
    match e
    case IntExp(_) => true
    case VarExp(_, _) => true
    case OpExp(l, _, r) => Lowerable(cx, l, lp) && Lowerable(cx, r, lp)
    case SeqExp(es) => LowerableAll(cx, es, lp)
    case AssignExp(_, _, r) => Lowerable(cx, r, lp)
    case IfExp(c, t, f) => Lowerable(cx, c, lp) && Lowerable(cx, t, lp) && (f.SomeExp? ==> Lowerable(cx, f.exp, lp))
    case WhileExp(id, c, b) => Lowerable(cx, c, Some(id)) && Lowerable(cx, b, Some(id))
    case ForExp(_, _, _, _) => false
    case BreakExp(id) => lp.Some? && Link(cx, id) == lp.value
    case CallExp(_, _, args) => LowerableAll(cx, args, lp)
    case LetExp(sc) => LowerableScope(cx, sc, lp)
  }

  predicate LowerableAll(cx: Ctx, es: Exps, lp: Option<Id>) {
    es.ECons? ==> Lowerable(cx, es.head, lp) && LowerableAll(cx, es.tail, lp)
  }

  predicate LowerableScope(cx: Ctx, sc: Scope, lp: Option<Id>) {
    match sc
    case In(b) => Lowerable(cx, b, lp)
    case With(VarChunk(d), rest) => Lowerable(cx, d.init, lp) && LowerableScope(cx, rest, lp)
    case With(FunctionChunk(ds), rest) => LowerableDecs(cx, ds) && LowerableScope(cx, rest, lp)
    case With(TypeChunk(_), rest) => LowerableScope(cx, rest, lp)
  }

  predicate LowerableDecs(cx: Ctx, ds: Decs) {
    ds.DCons? ==> (ds.head.body.SomeExp? ==> Lowerable(cx, ds.head.body.exp, None)) && LowerableDecs(cx, ds.tail)
  }

  // ----- the builder's primitives -----

  lemma EdgeEmit(st: St, i: Instr, p: nat, t: nat)
    requires st.cur < |st.blocks|
    ensures Edge(Emit(st, i).blocks, p, t) <==> Edge(st.blocks, p, t) || (p == st.cur && Targets(i, t))
  {
    var st' := Emit(st, i);
    if Edge(st'.blocks, p, t) {
      var k :| 0 <= k < |st'.blocks[p].instrs| && Targets(st'.blocks[p].instrs[k], t);
      if p == st.cur && k == |st.blocks[p].instrs| {} else { assert st.blocks[p].instrs[k] == st'.blocks[p].instrs[k]; }
    }
    if Edge(st.blocks, p, t) {
      var k :| 0 <= k < |st.blocks[p].instrs| && Targets(st.blocks[p].instrs[k], t);
      assert st.blocks[p].instrs[k] == st'.blocks[p].instrs[k];
    }
    if p == st.cur && Targets(i, t) { assert st'.blocks[p].instrs[|st.blocks[p].instrs|] == i; }
  }

  /** An ordinary instruction keeps everything. */
  lemma EmitPlain(st: St, i: Instr, held: set<int>)
    requires WellFormed(st, held) && !Terminator(i) && !i.Phi?
    ensures WellFormed(Emit(st, i), held) && Extends(st, Emit(st, i), {})
  {
    var st' := Emit(st, i);
    forall p: nat, t: nat ensures Edge(st'.blocks, p, t) <==> Edge(st.blocks, p, t) { EdgeEmit(st, i, p, t); }
    if !HasPhi(st.blocks[st.cur]) { NoPhiKept(st.blocks[st.cur], st'.blocks[st.cur], i); }
    forall b: nat, k: nat | b < |st'.blocks| && k < |st'.blocks[b].instrs| ensures PhiExact(st'.blocks, b, k) {
      if k < |st.blocks[b].instrs| { assert PhiExact(st.blocks, b, k); }
    }
  }

  lemma ExtendsTrans(a: St, b: St, c: St, ids: set<Id>, ids': set<Id>)
    requires Extends(a, b, ids) && Extends(b, c, ids')
    ensures Extends(a, c, ids + ids')
  {}

  lemma ExtendsMore(a: St, b: St, ids: set<Id>, ids': set<Id>)
    requires Extends(a, b, ids) && ids <= ids'
    ensures Extends(a, b, ids')
  {}

  /** What an extension says of one block that is not the insertion point. */
  lemma ExtendsAt(a: St, b: St, ids: set<Id>, k: nat)
    requires Extends(a, b, ids) && k < |a.blocks| && k != a.cur
    ensures k < |b.blocks| && b.blocks[k] == a.blocks[k] && b.cur != k && b.fn == a.fn
    ensures k !in a.loopEnd.Values ==> k !in b.loopEnd.Values
    ensures k !in a.loopEnd.Values ==> forall p: nat | Edge(b.blocks, p, k) :: Edge(a.blocks, p, k)
    ensures forall id | id !in ids :: Find(b.loopEnd, id) == Find(a.loopEnd, id)
  {}

  lemma FineSizes(a: St, b: St, held: set<int>, ids: set<Id>)
    requires WellFormed(b, held) && Extends(a, b, ids)
    ensures |a.blocks| <= |b.blocks| && b.cur < |b.blocks| && b.cur !in held && b.fn == a.fn
    ensures b.cur == a.cur || b.cur >= |a.blocks|
  {}

  lemma EmptyNoPhi(b: Block)
    requires b.instrs == []
    ensures !HasPhi(b)
  {}

  lemma KeepLoopKnown(st: St, st': St, lp: Option<Id>, ids: set<Id>, ids': set<Id>)
    requires Extends(st, st', ids) && LoopKnown(st, lp, ids + ids')
    ensures LoopKnown(st', lp, ids')
  {
    if lp.Some? { assert Find(st'.loopEnd, lp.value) == Find(st.loopEnd, lp.value); }
  }

  lemma NoPhiKept(a: Block, b: Block, i: Instr)
    requires !HasPhi(a) && b.instrs == a.instrs + [i] && !i.Phi?
    ensures !HasPhi(b)
  {
    forall k | 0 <= k < |b.instrs| ensures !b.instrs[k].Phi? {
      if k < |a.instrs| { assert a.instrs[k] == b.instrs[k]; }
    }
  }

  lemma CreateEdges(st: St)
    ensures forall p: nat, t: nat :: Edge(NewBlock(st).blocks, p, t) <==> Edge(st.blocks, p, t)
  {
    forall p: nat, t: nat ensures Edge(NewBlock(st).blocks, p, t) <==> Edge(st.blocks, p, t) {
      if p < |st.blocks| { assert NewBlock(st).blocks[p] == st.blocks[p]; }
    }
  }

  lemma Create(base: St, st: St, held: set<int>, ids: set<Id>)
    requires WellFormed(st, held) && Extends(base, st, ids)
    ensures WellFormed(NewBlock(st), held + {|st.blocks|}) && Extends(base, NewBlock(st), ids)
  {
    var st' := NewBlock(st);
    CreateEdges(st);
    forall b: nat, k: nat | b < |st'.blocks| && k < |st'.blocks[b].instrs| ensures PhiExact(st'.blocks, b, k) {
      assert PhiExact(st.blocks, b, k);
    }
  }

  /** End the current block and start a held one. */
  ghost predicate MayBranch(st: St, i: Instr, next: nat, held: set<int>) {
    && (i.Br? || i.CondBr?) && next in held && next < |st.blocks| && st.blocks[next].fn == st.fn
    && forall t: nat | Targets(i, t) :: t < |st.blocks| && st.blocks[t].fn == st.fn && !HasPhi(st.blocks[t])
  }

  lemma BranchWellFormed(st: St, i: Instr, next: nat, held: set<int>)
    requires WellFormed(st, held) && MayBranch(st, i, next, held)
    ensures WellFormed(Branch(st, i, next), held - {next})
  {
    var st' := Branch(st, i, next);
    forall p: nat, t: nat ensures Edge(st'.blocks, p, t) <==> Edge(st.blocks, p, t) || (p == st.cur && Targets(i, t)) {
      EdgeEmit(st, i, p, t);
    }
    forall id | id in st.loopEnd ensures !HasPhi(st'.blocks[st.loopEnd[id]]) {
      var v := st.loopEnd[id];
      if v == st.cur { NoPhiKept(st.blocks[v], st'.blocks[v], i); }
    }
    forall b: nat, k: nat | b < |st'.blocks| && k < |st'.blocks[b].instrs| ensures PhiExact(st'.blocks, b, k) {
      if k < |st.blocks[b].instrs| {
        assert PhiExact(st.blocks, b, k);
        if st.blocks[b].instrs[k].Phi? { assert HasPhi(st.blocks[b]); }
      }
    }
  }

  lemma BranchExtends(st: St, s: St, i: Instr, next: nat, ids: set<Id>)
    requires Extends(st, s, ids) && s.cur < |s.blocks| && next >= |st.blocks|
    requires forall t: nat | Targets(i, t) :: t >= |st.blocks| || t in st.loopEnd.Values
    requires !i.Phi?
    ensures Extends(st, Branch(s, i, next), ids)
  {
    if !HasPhi(s.blocks[s.cur]) { NoPhiKept(s.blocks[s.cur], Emit(s, i).blocks[s.cur], i); }
    forall p: nat, t: nat ensures Edge(Emit(s, i).blocks, p, t) <==> Edge(s.blocks, p, t) || (p == s.cur && Targets(i, t)) {
      EdgeEmit(s, i, p, t);
    }
  }

  /** Branch to a block created after st. */
  lemma Continue(st: St, s: St, i: Instr, next: nat, held: set<int>, ids: set<Id>)
    requires WellFormed(s, held) && Extends(st, s, ids) && MayBranch(s, i, next, held) && next >= |st.blocks|
    requires forall t: nat | Targets(i, t) :: t >= |st.blocks|
    ensures WellFormed(Branch(s, i, next), held - {next}) && Extends(st, Branch(s, i, next), ids)
    ensures forall p: nat, t: nat :: Edge(Branch(s, i, next).blocks, p, t) <==> Edge(s.blocks, p, t) || (p == s.cur && Targets(i, t))
    ensures |Branch(s, i, next).blocks| == |s.blocks|
    ensures forall b: nat | b < |s.blocks| && b != s.cur :: Branch(s, i, next).blocks[b] == s.blocks[b]
  {
    BranchWellFormed(s, i, next, held);
    BranchExtends(st, s, i, next, ids);
    forall p: nat, t: nat ensures Edge(Branch(s, i, next).blocks, p, t) <==> Edge(s.blocks, p, t) || (p == s.cur && Targets(i, t)) {
      EdgeEmit(s, i, p, t);
    }
  }

  lemma EmitPhi(base: St, st: St, i: Instr, held: set<int>, ids: set<Id>)
    requires WellFormed(st, held) && i.Phi? && st.blocks[st.cur].instrs == [] && st.cur !in st.loopEnd.Values
    requires i.leftBlock != i.rightBlock
    requires forall p: nat :: Edge(st.blocks, p, st.cur) <==> p == i.leftBlock || p == i.rightBlock
    requires Extends(base, st, ids) && st.cur >= |base.blocks|
    ensures WellFormed(Emit(st, i), held) && Extends(base, Emit(st, i), ids)
  {
    var st' := Emit(st, i);
    forall p: nat, t: nat ensures Edge(st'.blocks, p, t) <==> Edge(st.blocks, p, t) { EdgeEmit(st, i, p, t); }
    forall id | id in st.loopEnd ensures !HasPhi(st'.blocks[st.loopEnd[id]]) {
      assert st.loopEnd[id] in st.loopEnd.Values;
    }
    forall b: nat, k: nat | b < |st'.blocks| && k < |st'.blocks[b].instrs| ensures PhiExact(st'.blocks, b, k) {
      if b != st.cur { assert PhiExact(st.blocks, b, k); }
    }
  }

  // ----- expressions -----

  ghost predicate Fine(st: St, st': St, held: set<int>, ids: set<Id>) {
    WellFormed(st', held) && Extends(st, st', ids)
  }

  lemma FineTrans(a: St, b: St, c: St, held: set<int>, ids: set<Id>, ids': set<Id>)
    requires Fine(a, b, held, ids) && Fine(b, c, held, ids')
    ensures Fine(a, c, held, ids + ids')
  {
    ExtendsTrans(a, b, c, ids, ids');
  }

  lemma FineEmit(a: St, b: St, i: Instr, held: set<int>, ids: set<Id>)
    requires Fine(a, b, held, ids) && !Terminator(i) && !i.Phi?
    ensures Fine(a, Emit(b, i), held, ids) && Fine(a, EmitTo(b, i), held, ids)
  {
    EmitPlain(b, i, held);
    ExtendsTrans(a, b, Emit(b, i), ids, {});
    assert ids + {} == ids;
  }

  lemma ValueOnly(st: St, v: Operand, held: set<int>, ids: set<Id>)
    requires WellFormed(st, held)
    ensures Fine(st, st.(value := v), held, ids)
  {}

  /** Translating an expression keeps the graph well formed and touches only the insertion point. */
  lemma {:induction false} Shape(cx: Ctx, e: Exp, st: St, held: set<int>, lp: Option<Id>)
    requires WellFormed(st, held) && Lowerable(cx, e, lp) && Distinct(e) && LoopKnown(st, lp, OfExp(e))
    ensures Fine(st, Lower(cx, e, st), held, OfExp(e))
    decreases e, 3
  {
    hide WellFormed, Extends;
    match e
    case IntExp(n) => ValueOnly(st, Imm(Int32.Wrap(n)), held, {});
    case VarExp(id, _) =>
      ValueOnly(st, st.value, held, {id});
      FineEmit(st, st, Load(st.regs, AccessVar(st, Link(cx, id))), held, {id});
    case OpExp(l, op, r) =>
      Shape(cx, l, st, held, lp);
      var s1 := Lower(cx, l, st);
      KeepLoopKnown(st, s1, lp, OfExp(l), OfExp(r));
      Shape(cx, r, s1, held, lp);
      var s2 := Lower(cx, r, s1);
      FineTrans(st, s1, s2, held, OfExp(l), OfExp(r));
      var i := Arith(s2.regs, op, s1.value, s2.value);
      FineEmit(st, s2, i, held, OfExp(e));
      FineEmit(st, EmitTo(s2, i), ZExt(s2.regs + 1, Reg(s2.regs)), held, OfExp(e));
    case SeqExp(es) => if es.ECons? { ShapeSeq(cx, es, st, held, lp); } else { ValueOnly(st, ZERO, held, {}); }
    case AssignExp(id, _, r) =>
      KeepLoopKnown(st, st, lp, {}, OfExp(r));
      Shape(cx, r, st, held, lp);
      var s1 := Lower(cx, r, st);
      ExtendsMore(st, s1, OfExp(r), OfExp(e));
      var i := Store(s1.value, AccessVar(st, Link(cx, id)));
      FineEmit(st, s1, i, held, OfExp(e));
      SameShape(st, Emit(s1, i), Lower(cx, e, st), held, OfExp(e));
    case IfExp(_, _, _) => ShapeIf(cx, e, st, held, lp);
    case WhileExp(_, _, _) => ShapeWhile(cx, e, st, held, lp);
    case BreakExp(id) => ShapeBreak(cx, e, st, held, lp);
    case CallExp(_, _, _) => ShapeCall(cx, e, st, held, lp);
    case LetExp(sc) => ShapeScope(cx, sc, st, held, lp);
  }

  lemma {:induction false} ShapeCall(cx: Ctx, e: Exp, st: St, held: set<int>, lp: Option<Id>)
    requires e.CallExp?
    requires WellFormed(st, held) && Lowerable(cx, e, lp) && Distinct(e) && LoopKnown(st, lp, OfExp(e))
    ensures Fine(st, Lower(cx, e, st), held, OfExp(e))
    decreases e, 2
  {
    hide WellFormed, Extends;
    var q := Link(cx, e.id);
    var (lifted, s1) := LowerLifted(Lifted(cx, q), st);
    LiftedOnlyBinds(Lifted(cx, q), st);
    SameCodeShape(st, s1, held);
    ShapeArgs(cx, e.args, s1, held, lp);
    var (actuals, s2) := LowerArgs(cx, e.args, s1);
    ExtendsMore(s1, s2, OfExps(e.args), OfExp(e));
    FineEmit(s1, s2, Call(s2.regs, q, lifted + actuals), held, OfExp(e));
    SameCodeExtends(st, s1, EmitTo(s2, Call(s2.regs, q, lifted + actuals)), OfExp(e));
    SameShape(st, EmitTo(s2, Call(s2.regs, q, lifted + actuals)), Lower(cx, e, st), held, OfExp(e));
  }

  /** Same code, only the tables differ. */
  ghost predicate SameCode(a: St, b: St) {
    a.blocks == b.blocks && a.cur == b.cur && a.regs == b.regs && a.fn == b.fn && a.loopEnd == b.loopEnd
    && a.entries == b.entries && a.protos == b.protos
  }

  lemma SameCodeShape(a: St, b: St, held: set<int>)
    requires SameCode(a, b) && WellFormed(a, held)
    ensures WellFormed(b, held)
  {}

  lemma SameCodeExtends(a: St, a': St, b: St, ids: set<Id>)
    requires SameCode(a, a') && Extends(a', b, ids)
    ensures Extends(a, b, ids)
  {}

  lemma LiftedOnlyBinds(ds: seq<Id>, st: St)
    ensures SameCode(st, LowerLifted(ds, st).1)
  {}

  lemma {:induction false} ShapeBreak(cx: Ctx, e: Exp, st: St, held: set<int>, lp: Option<Id>)
    requires e.BreakExp? && WellFormed(st, held) && Lowerable(cx, e, lp) && LoopKnown(st, lp, OfExp(e))
    ensures Fine(st, Lower(cx, e, st), held, OfExp(e))
  {
    var after, n := st.loopEnd[Link(cx, e.id)], |st.blocks|;
    assert Extends(st, st, {e.id});
    assert !HasPhi(st.blocks[after]);
    assert after in st.loopEnd.Values;
    EdgesBelow(st, held);
    hide WellFormed, Extends, Edge, HasPhi;
    Create(st, st, held, {e.id});
    var s1 := NewBlock(st);
    BranchWellFormed(s1, Br(after), n, held + {n});
    BranchExtends(st, s1, Br(after), n, {e.id});
    assert held + {n} - {n} == held;
    var s2 := Branch(s1, Br(after), n);
    assert s2.blocks == NewBlock(Emit(st, Br(after))).blocks;
    SameShape(st, s2, s2.(value := ZERO), held, {e.id});
    assert Lower(cx, e, st) == s2.(value := ZERO);
  }

  lemma {:induction false} ShapeSeq(cx: Ctx, es: Exps, st: St, held: set<int>, lp: Option<Id>)
    requires WellFormed(st, held) && LowerableAll(cx, es, lp) && DistinctExps(es) && LoopKnown(st, lp, OfExps(es))
    ensures Fine(st, LowerSeq(cx, es, st), held, OfExps(es))
    decreases es, 0
  {
    if es.ECons? {
      Shape(cx, es.head, st, held, lp);
      var s1 := Lower(cx, es.head, st);
      KeepLoopKnown(st, s1, lp, OfExp(es.head), OfExps(es.tail));
      ShapeSeq(cx, es.tail, s1, held, lp);
      FineTrans(st, s1, LowerSeq(cx, es.tail, s1), held, OfExp(es.head), OfExps(es.tail));
    }
  }

  lemma {:induction false} ShapeArgs(cx: Ctx, es: Exps, st: St, held: set<int>, lp: Option<Id>)
    requires WellFormed(st, held) && LowerableAll(cx, es, lp) && DistinctExps(es) && LoopKnown(st, lp, OfExps(es))
    ensures Fine(st, LowerArgs(cx, es, st).1, held, OfExps(es))
    decreases es, 0
  {
    if es.ECons? {
      Shape(cx, es.head, st, held, lp);
      var s1 := Lower(cx, es.head, st);
      KeepLoopKnown(st, s1, lp, OfExp(es.head), OfExps(es.tail));
      ShapeArgs(cx, es.tail, s1, held, lp);
      FineTrans(st, s1, LowerArgs(cx, es.tail, s1).1, held, OfExp(es.head), OfExps(es.tail));
    }
  }

  lemma CreateThree(base: St, st: St, held: set<int>, ids: set<Id>)
    requires WellFormed(st, held) && Extends(base, st, ids)
    ensures var n := |st.blocks|;
      && WellFormed(NewBlocks(st), held + {n, n + 1, n + 2}) && Extends(base, NewBlocks(st), ids)
      && (forall p: nat, t: nat | Edge(NewBlocks(st).blocks, p, t) :: t < n)
  {
    var n, s1, s2 := |st.blocks|, NewBlock(st), NewBlock(NewBlock(st));
    EdgesBelow(st, held);
    CreateEdges(st);
    CreateEdges(s1);
    CreateEdges(s2);
    hide WellFormed, Extends, Edge;
    Create(base, st, held, ids);
    Create(base, s1, held + {n}, ids);
    Create(base, s2, held + {n} + {n + 1}, ids);
    assert held + {n} + {n + 1} + {n + 2} == held + {n, n + 1, n + 2};
  }

  lemma EdgesBelow(st: St, held: set<int>)
    requires WellFormed(st, held)
    ensures forall p: nat, t: nat | Edge(st.blocks, p, t) :: t < |st.blocks|
    ensures forall t | t in st.loopEnd.Values :: t < |st.blocks|
    ensures forall b | b in held :: 0 <= b < |st.blocks|
    ensures st.cur < |st.blocks|
  {}

  /** A two- or three-way block structure begun at block n: the later blocks wait, untouched. */
  ghost predicate Waiting(s: St, n: nat, held: set<int>) {
    && WellFormed(s, held + {n + 1, n + 2}) && held !! {n, n + 1, n + 2} && n + 2 < |s.blocks|
    && s.blocks[n + 1] == s.blocks[n + 2] == Block(s.fn, []) && {n + 1, n + 2} !! s.loopEnd.Values
    && NoEdge(s.blocks, n + 2) && s.cur == n
  }

  /** The condition of an `if`, up to the start of the first branch. */
  lemma {:induction false} ShapeTest(cx: Ctx, e: Exp, st: St, held: set<int>, lp: Option<Id>)
    requires e.IfExp?
    requires WellFormed(st, held) && Lowerable(cx, e.test, lp) && Distinct(e.test) && LoopKnown(st, lp, OfExp(e.test))
    ensures var s1 := EmitTest(Lower(cx, e.test, st)); var n := |s1.blocks|;
      var s2 := Branch(NewBlocks(s1), CondBr(s1.value, n, n + 1), n);
      Extends(st, s2, OfExp(e.test)) && Waiting(s2, n, held) && |st.blocks| <= n
    decreases e.test, 4
  {
    hide WellFormed, Extends, Edge;
    var c := OfExp(e.test);
    Shape(cx, e.test, st, held, lp);
    var s0 := Lower(cx, e.test, st);
    FineEmit(st, s0, Arith(s0.regs, Ne, s0.value, ZERO), held, c);
    var s1 := EmitTest(s0);
    var n := |s1.blocks|;
    FineSizes(st, s1, held, c);
    EdgesBelow(s1, held);
    CreateThree(st, s1, held, c);
    var sb := NewBlocks(s1);
    var br, h := CondBr(s1.value, n, n + 1), held + {n, n + 1, n + 2};
    EmptyNoPhi(sb.blocks[n]);
    EmptyNoPhi(sb.blocks[n + 1]);
    Continue(st, sb, br, n, h, c);
    assert h - {n} == held + {n + 1, n + 2};
  }

  lemma {:induction false} ShapeIf(cx: Ctx, e: Exp, st: St, held: set<int>, lp: Option<Id>)
    requires e.IfExp?
    requires WellFormed(st, held) && Lowerable(cx, e, lp) && Distinct(e) && LoopKnown(st, lp, OfExp(e))
    ensures Fine(st, Lower(cx, e, st), held, OfExp(e))
    decreases e, 2
  {
    hide WellFormed, Extends, Waiting, Joining, Edge;
    var c := OfExp(e.test);
    ShapeTest(cx, e, st, held, lp);
    var s1 := EmitTest(Lower(cx, e.test, st));
    var n := |s1.blocks|;
    var s2 := Branch(NewBlocks(s1), CondBr(s1.value, n, n + 1), n);
    KeepLoopKnown(st, s2, lp, c, OfExp(e));
    ShapeBranches(cx, e, st, s2, n, held, lp);
  }

  /** Both branches and the block where they meet. */
  lemma {:induction false} ShapeBranches(cx: Ctx, e: Exp, st: St, s2: St, n: nat, held: set<int>, lp: Option<Id>)
    requires e.IfExp? && Lowerable(cx, e, lp) && Distinct(e)
    requires LoopKnown(st, lp, OfExp(e)) && LoopKnown(s2, lp, OfExp(e))
    requires Waiting(s2, n, held) && Extends(st, s2, OfExp(e.test)) && |st.blocks| <= n
    ensures var s3 := Lower(cx, e.thn, s2); var s4 := Branch(s3, Br(n + 2), n + 1);
      var s5 := if e.els.SomeExp? then Lower(cx, e.els.exp, s4) else s4.(value := ZERO);
      Fine(st, Meet(cx, e, s3, s5, n + 2), held, OfExp(e))
    decreases e, 1
  {
    hide WellFormed, Extends, Waiting, Joining, Edge, Meet;
    var c, t, f := OfExp(e.test), OfExp(e.thn), if e.els.SomeExp? then OfExp(e.els.exp) else {};
    assert OfExp(e) == c + t + f;
    ShapeThen(cx, e, st, s2, n, c, held, lp);
    var s3 := Lower(cx, e.thn, s2);
    var s4 := Branch(s3, Br(n + 2), n + 1);
    KeepLoopKnown(st, s4, lp, c + t, f);
    ShapeElse(cx, e, st, s4, s3.cur, n, c + t, held, lp);
    var s5 := if e.els.SomeExp? then Lower(cx, e.els.exp, s4) else s4.(value := ZERO);
    ShapeMeet(cx, e, st, s3, s5, n, held, c + t + f);
  }

  /** Only the meeting block still waits; exactly one branch goes there so far. */
  ghost predicate Joining(s: St, n: nat, held: set<int>, first: nat) {
    && WellFormed(s, held + {n + 2}) && n + 2 !in held && n + 2 < |s.blocks| && s.blocks[n + 2] == Block(s.fn, [])
    && n + 2 !in s.loopEnd.Values && OnlyEdge(s.blocks, n + 2, first)
    && first < |s.blocks| && s.cur != first && s.cur != n + 2
  }

  /** The first branch, up to the start of the second; st is the state before the whole `if`. */
  lemma {:induction false} ShapeThen(cx: Ctx, e: Exp, st: St, s2: St, n: nat, ids: set<Id>, held: set<int>, lp: Option<Id>)
    requires e.IfExp? && Lowerable(cx, e.thn, lp) && Distinct(e.thn) && LoopKnown(s2, lp, OfExp(e.thn))
    requires Waiting(s2, n, held) && Extends(st, s2, ids) && |st.blocks| <= n
    ensures var s3 := Lower(cx, e.thn, s2); var s4 := Branch(s3, Br(n + 2), n + 1);
      Extends(st, s4, ids + OfExp(e.thn)) && Joining(s4, n, held, s3.cur)
    decreases e.thn, 4
  {
    hide WellFormed, Extends, Edge;
    var t := OfExp(e.thn);
    Shape(cx, e.thn, s2, held + {n + 1, n + 2}, lp);
    var s3 := Lower(cx, e.thn, s2);
    FineSizes(s2, s3, held + {n + 1, n + 2}, t);
    ExtendsAt(s2, s3, t, n + 1);
    ExtendsAt(s2, s3, t, n + 2);
    ExtendsTrans(st, s2, s3, ids, t);
    EmptyNoPhi(s3.blocks[n + 2]);
    Continue(st, s3, Br(n + 2), n + 1, held + {n + 1, n + 2}, ids + t);
    assert held + {n + 1, n + 2} - {n + 1} == held + {n + 2};
  }

  /** The second branch; first is the block that ended the first one. */
  lemma {:induction false} ShapeElse(cx: Ctx, e: Exp, st: St, s4: St, first: nat, n: nat, ids: set<Id>, held: set<int>, lp: Option<Id>)
    requires e.IfExp? && (e.els.SomeExp? ==> Lowerable(cx, e.els.exp, lp) && Distinct(e.els.exp) && LoopKnown(s4, lp, OfExp(e.els.exp)))
    requires Joining(s4, n, held, first) && Extends(st, s4, ids)
    ensures var s5 := if e.els.SomeExp? then Lower(cx, e.els.exp, s4) else s4.(value := ZERO);
      var f := if e.els.SomeExp? then OfExp(e.els.exp) else {};
      Extends(st, s5, ids + f) && Joining(s5, n, held, first)
    decreases e, 0
  {
    hide PhiExact, Sealed, Unfinished;
    if e.els.SomeExp? {
      assert Edge(s4.blocks, first, n + 2);
      Shape(cx, e.els.exp, s4, held + {n + 2}, lp);
      hide WellFormed, Extends;
      var f, s5 := OfExp(e.els.exp), Lower(cx, e.els.exp, s4);
      FineSizes(s4, s5, held + {n + 2}, f);
      ExtendsAt(s4, s5, f, n + 2);
      ExtendsAt(s4, s5, f, first);
      ExtendsTrans(st, s4, s5, ids, f);
      assert Edge(s5.blocks, first, n + 2);
    } else {
      assert ids + {} == ids;
    }
  }

  lemma {:induction false} ShapeMeet(cx: Ctx, e: Exp, st: St, s3: St, s5: St, n: nat, held: set<int>, ids: set<Id>)
    requires Joining(s5, n, held, s3.cur) && Extends(st, s5, ids) && |st.blocks| <= n
    ensures Fine(st, Meet(cx, e, s3, s5, n + 2), held, ids)
  {
    EmptyNoPhi(s5.blocks[n + 2]);
    EdgesBelow(s5, held + {n + 2});
    Continue(st, s5, Br(n + 2), n + 2, held + {n + 2}, ids);
    assert held + {n + 2} - {n + 2} == held;
    var s6 := Branch(s5, Br(n + 2), n + 2);
    assert s5.cur != n + 2;
    hide WellFormed, Extends;
    EmitPhi(st, s6, Phi(s6.regs, s3.value, s3.cur, s5.value, s5.cur), held, ids);
    var s7 := EmitTo(s6, Phi(s6.regs, s3.value, s3.cur, s5.value, s5.cur));
    SameShape(st, Emit(s6, Phi(s6.regs, s3.value, s3.cur, s5.value, s5.cur)), s7, held, ids);
    SameShape(st, s6, s6.(value := ZERO), held, ids);
  }

  /** The value, the tables and the register count do not matter to the graph. */
  lemma SameShape(st: St, a: St, b: St, held: set<int>, ids: set<Id>)
    requires a.blocks == b.blocks && a.cur == b.cur && a.fn == b.fn && a.loopEnd == b.loopEnd && a.regs <= b.regs
    requires WellFormed(a, held) && Extends(st, a, ids)
    ensures WellFormed(b, held) && Extends(st, b, ids)
  {}

  lemma {:induction false} ShapeWhile(cx: Ctx, e: Exp, st: St, held: set<int>, lp: Option<Id>)
    requires e.WhileExp?
    requires WellFormed(st, held) && Lowerable(cx, e, lp) && Distinct(e) && LoopKnown(st, lp, OfExp(e))
    ensures Fine(st, Lower(cx, e, st), held, OfExp(e))
    decreases e, 2
  {
    hide WellFormed, Extends, Edge;
    var n, c, b := |st.blocks|, OfExp(e.test), OfExp(e.body);
    ShapeLoopStart(e.id, st, held);
    var s1 := Branch(NewBlocks(st).(loopEnd := st.loopEnd[e.id := n + 2]), Br(n), n);
    Shape(cx, e.test, s1, held + {n + 1, n + 2}, Some(e.id));
    var s2 := Lower(cx, e.test, s1);
    FineEmit(s1, s2, Arith(s2.regs, Ne, s2.value, ZERO), held + {n + 1, n + 2}, c);
    var s3 := EmitTest(s2);
    ShapeLoopEnter(st, s1, s3, e.id, n, c, held);
    var s4 := Branch(s3, CondBr(s3.value, n + 1, n + 2), n + 1);
    Shape(cx, e.body, s4, held + {n + 2}, Some(e.id));
    var s5 := Lower(cx, e.body, s4);
    ShapeLoopLeave(st, s4, s5, n, {e.id} + c, b, held);
    assert {e.id} + c + b == OfExp(e);
  }

  lemma ShapeLoopStart(id: Id, st: St, held: set<int>)
    requires WellFormed(st, held)
    ensures var n := |st.blocks|; var s1 := Branch(NewBlocks(st).(loopEnd := st.loopEnd[id := n + 2]), Br(n), n);
      && WellFormed(s1, held + {n + 1, n + 2}) && held !! {n, n + 1, n + 2} && Extends(st, s1, {id}) && s1.cur == n && |s1.blocks| == n + 3
      && s1.blocks[n] == s1.blocks[n + 1] == s1.blocks[n + 2] == Block(st.fn, []) && s1.fn == st.fn
      && Find(s1.loopEnd, id) == Some(n + 2)
  {
    hide WellFormed, Extends, Edge, HasPhi;
    var n := |st.blocks|;
    var s0 := NewBlocks(st).(loopEnd := st.loopEnd[id := n + 2]);
    LoopBlocks(id, st, held);
    Continue(st, s0, Br(n), n, held + {n, n + 1, n + 2}, {id});
    assert held + {n, n + 1, n + 2} - {n} == held + {n + 1, n + 2};
  }

  lemma LoopBlocks(id: Id, st: St, held: set<int>)
    requires WellFormed(st, held)
    ensures var n := |st.blocks|; var s0 := NewBlocks(st).(loopEnd := st.loopEnd[id := n + 2]);
      && WellFormed(s0, held + {n, n + 1, n + 2}) && held !! {n, n + 1, n + 2} && Extends(st, s0, {id})
      && !HasPhi(s0.blocks[n]) && st.cur < n
  {
    hide WellFormed, Extends, Edge, HasPhi;
    var n, sb := |st.blocks|, NewBlocks(st);
    ExtendsSelf(st);
    EdgesBelow(st, held);
    CreateThree(st, st, held, {});
    EmptyNoPhi(sb.blocks[n]);
    EmptyNoPhi(sb.blocks[n + 2]);
    NewLoop(st, sb, id, n + 2, held + {n, n + 1, n + 2});
  }

  lemma ExtendsSelf(st: St)
    ensures Extends(st, st, {})
  {}

  lemma NewLoop(st: St, s: St, id: Id, after: nat, held: set<int>)
    requires WellFormed(s, held) && Extends(st, s, {}) && s.loopEnd == st.loopEnd
    requires |st.blocks| <= after < |s.blocks| && !HasPhi(s.blocks[after])
    ensures var s' := s.(loopEnd := st.loopEnd[id := after]); WellFormed(s', held) && Extends(st, s', {id})
  {
    hide Edge, PhiExact, HasPhi, Sealed, Unfinished;
  }

  /** From the end of the test to the start of the body. */
  lemma ShapeLoopEnter(st: St, s1: St, s3: St, id: Id, n: nat, c: set<Id>, held: set<int>)
    requires WellFormed(s3, held + {n + 1, n + 2}) && held !! {n + 1, n + 2} && |st.blocks| <= n && id !in c
    requires Extends(st, s1, {id}) && Extends(s1, s3, c)
    requires s1.cur == n && |s1.blocks| == n + 3 && Find(s1.loopEnd, id) == Some(n + 2)
    requires s1.blocks[n] == s1.blocks[n + 1] == s1.blocks[n + 2] == Block(s1.fn, [])
    ensures var s4 := Branch(s3, CondBr(s3.value, n + 1, n + 2), n + 1);
      && WellFormed(s4, held + {n + 2}) && Extends(st, s4, {id} + c) && s4.cur == n + 1 && n + 2 < |s4.blocks|
      && s4.blocks[n + 2] == Block(s4.fn, []) && s4.blocks[n].fn == s4.fn && !HasPhi(s4.blocks[n])
      && Find(s4.loopEnd, id) == Some(n + 2)
  {
    hide Edge, PhiExact, Sealed, Unfinished;
    ExtendsAt(s1, s3, c, n + 1);
    ExtendsAt(s1, s3, c, n + 2);
    ExtendsTrans(st, s1, s3, {id}, c);
    EmptyNoPhi(s1.blocks[n]);
    EmptyNoPhi(s3.blocks[n + 1]);
    EmptyNoPhi(s3.blocks[n + 2]);
    var br := CondBr(s3.value, n + 1, n + 2);
    assert s3.blocks[n].fn == s3.fn && !HasPhi(s3.blocks[n]);
    assert s3.cur < |s3.blocks| && s3.cur !in {n + 1, n + 2};
    hide WellFormed, Extends, Edge;
    Continue(st, s3, br, n + 1, held + {n + 1, n + 2}, {id} + c);
    assert held + {n + 1, n + 2} - {n + 1} == held + {n + 2};
    if s3.cur == n { NoPhiKept(s3.blocks[n], Branch(s3, br, n + 1).blocks[n], br); }
  }

  /** Back to the test, and on after the loop. */
  lemma ShapeLoopLeave(st: St, s4: St, s5: St, n: nat, ids: set<Id>, b: set<Id>, held: set<int>)
    requires WellFormed(s5, held + {n + 2}) && n + 2 !in held && |st.blocks| <= n
    requires Extends(st, s4, ids) && Extends(s4, s5, b) && s4.cur == n + 1 && n + 2 < |s4.blocks|
    requires s4.blocks[n + 2] == Block(s4.fn, []) && s4.blocks[n].fn == s4.fn && !HasPhi(s4.blocks[n])
    ensures Fine(st, Branch(s5, Br(n), n + 2), held, ids + b)
  {
    ExtendsAt(s4, s5, b, n);
    ExtendsAt(s4, s5, b, n + 2);
    ExtendsTrans(st, s4, s5, ids, b);
    hide WellFormed, Extends, Edge;
    Continue(st, s5, Br(n), n + 2, held + {n + 2}, ids + b);
    assert held + {n + 2} - {n + 2} == held;
  }

  // ----- declarations -----

  lemma {:induction false} ShapeScope(cx: Ctx, sc: Scope, st: St, held: set<int>, lp: Option<Id>)
    requires WellFormed(st, held) && LowerableScope(cx, sc, lp) && DistinctScope(sc) && LoopKnown(st, lp, OfScope(sc))
    ensures Fine(st, LowerScope(cx, sc, st), held, OfScope(sc))
    decreases sc, 0
  {
    match sc
    case In(b) => Shape(cx, b, st, held, lp);
    case With(VarChunk(d), rest) =>
      ShapeVarDec(cx, d, st, held, lp);
      var s1 := LowerVarDec(cx, d, st);
      KeepLoopKnown(st, s1, lp, OfVarDec(d), OfScope(rest));
      ShapeScope(cx, rest, s1, held, lp);
      FineTrans(st, s1, LowerScope(cx, rest, s1), held, OfVarDec(d), OfScope(rest));
    case With(FunctionChunk(ds), rest) =>
      HeadersOnlyDeclare(cx, ds, st);
      var s0 := LowerHeaders(cx, ds, st);
      ShapeDecs(cx, ds, s0, held);
      var s1 := LowerDecs(cx, ds, s0);
      KeepLoopKnown(st, s1, lp, OfDecs(ds), OfScope(rest));
      ShapeScope(cx, rest, s1, held, lp);
      FineTrans(st, s1, LowerScope(cx, rest, s1), held, OfDecs(ds), OfScope(rest));
    case With(TypeChunk(ts), rest) =>
      ShapeScope(cx, rest, st, held, lp);
      ExtendsMore(st, LowerScope(cx, rest, st), OfScope(rest), OfScope(sc));
  }

  lemma HeadersOnlyDeclare(cx: Ctx, ds: Decs, st: St)
    ensures LowerHeaders(cx, ds, st) == st.(protos := LowerHeaders(cx, ds, st).protos)
  {}

  lemma {:induction false} ShapeVarDec(cx: Ctx, d: VarDec, st: St, held: set<int>, lp: Option<Id>)
    requires WellFormed(st, held) && Lowerable(cx, d.init, lp) && DistinctVarDec(d) && LoopKnown(st, lp, OfVarDec(d))
    ensures Fine(st, LowerVarDec(cx, d, st), held, OfVarDec(d))
    decreases d, 0
  {
    hide WellFormed, Extends;
    var main := st.fn == cx.main;
    var s0 := if main then st else Bind(st, st.fn, d.id, Slot(d.id));
    SameCodeShape(st, s0, held);
    Shape(cx, d.init, s0, held, lp);
    var s1 := Lower(cx, d.init, s0);
    ExtendsMore(s0, s1, OfExp(d.init), OfVarDec(d));
    var i := Store(s1.value, if main then Global(d.id) else Slot(d.id));
    FineEmit(s0, s1, i, held, OfVarDec(d));
    SameCodeExtends(st, s0, Emit(s1, i), OfVarDec(d));
    SameShape(st, Emit(s1, i), LowerVarDec(cx, d, st), held, OfVarDec(d));
  }

  /** Function bodies do not touch the code around them. */
  ghost predicate Apart(st: St, st': St) {
    st'.cur == st.cur && |st.blocks| <= |st'.blocks| && forall b: nat | b < |st.blocks| :: st'.blocks[b] == st.blocks[b]
  }

  lemma {:induction false} ShapeDecs(cx: Ctx, ds: Decs, st: St, held: set<int>)
    requires WellFormed(st, held) && LowerableDecs(cx, ds) && DistinctDecs(ds)
    ensures Fine(st, LowerDecs(cx, ds, st), held, OfDecs(ds)) && Apart(st, LowerDecs(cx, ds, st))
    decreases ds, 0
  {
    if ds.DCons? {
      var d, rest := ds.head, ds.tail;
      var s1 := if d.body.SomeExp? then LowerDec(cx, d, st) else st;
      if d.body.SomeExp? { ShapeDec(cx, d, st, held); }
      ShapeDecs(cx, rest, s1, held);
      FineTrans(st, s1, LowerDecs(cx, rest, s1), held, OfDec(d), OfDecs(rest));
    }
  }

  lemma {:induction false} ShapeDec(cx: Ctx, d: FunctionDec, st: St, held: set<int>)
    requires d.body.SomeExp? && WellFormed(st, held) && Lowerable(cx, d.body.exp, None) && DistinctDec(d)
    ensures Fine(st, LowerDec(cx, d, st), held, OfDec(d)) && Apart(st, LowerDec(cx, d, st))
    decreases d, 0
  {
    hide WellFormed, Extends;
    var h := held + {st.cur};
    var s0 := Open(d, st);
    ShapeOpen(d, st, held);
    ShapePrologue(cx, d, s0, h);
    var s1 := Prologue(cx, d, s0);
    Shape(cx, d.body.exp, s1, h, None);
    var s2 := Lower(cx, d.body.exp, s1);
    FineTrans(s0, s1, s2, h, {}, OfExp(d.body.exp));
    var ret := if d.result.None? then RetVoid else Ret(s2.value);
    ShapeClose(st, s0, s2, ret, held, OfExp(d.body.exp));
    assert LowerDec(cx, d, st) == Emit(s2, ret).(cur := st.cur, fn := st.fn);
    ExtendsMore(st, LowerDec(cx, d, st), {} + OfExp(d.body.exp), OfDec(d));
  }

  lemma ShapeOpen(d: FunctionDec, st: St, held: set<int>)
    requires WellFormed(st, held)
    ensures WellFormed(Open(d, st), held + {st.cur}) && Open(d, st).blocks == st.blocks + [Block(d.id, [])]
    ensures forall p: nat, t: nat :: Edge(Open(d, st).blocks, p, t) <==> Edge(st.blocks, p, t)
  {
    var st' := Open(d, st);
    forall p: nat, t: nat ensures Edge(st'.blocks, p, t) <==> Edge(st.blocks, p, t) {
      if p < |st.blocks| { assert st'.blocks[p] == st.blocks[p]; }
    }
    forall b: nat, k: nat | b < |st'.blocks| && k < |st'.blocks[b].instrs| ensures PhiExact(st'.blocks, b, k) {
      assert PhiExact(st.blocks, b, k);
    }
  }

  lemma {:induction false} ShapePrologue(cx: Ctx, d: FunctionDec, st: St, held: set<int>)
    requires WellFormed(st, held)
    ensures Fine(st, Prologue(cx, d, st), held, {})
  {
    BindLiftedOnlyBinds(Lifted(cx, d.id), 0, st);
    ShapeFormals(d.formals, |Lifted(cx, d.id)|, BindLifted(Lifted(cx, d.id), 0, st), held);
  }

  lemma BindLiftedOnlyBinds(ds: seq<Id>, k: nat, st: St)
    ensures SameCode(st, BindLifted(ds, k, st))
  {}

  lemma {:induction false} ShapeFormals(fs: seq<Formal>, k: nat, st: St, held: set<int>)
    requires WellFormed(st, held)
    ensures Fine(st, BindFormalSlots(fs, k, st), held, {})
    decreases |fs|
  {
    if fs != [] {
      var s0 := Bind(st, st.fn, fs[0].id, Slot(fs[0].id));
      FineEmit(st, s0, Store(Param(k), Slot(fs[0].id)), held, {});
      var s1 := Emit(s0, Store(Param(k), Slot(fs[0].id)));
      ShapeFormals(fs[1..], k + 1, s1, held);
      FineTrans(st, s1, BindFormalSlots(fs[1..], k + 1, s1), held, {}, {});
    }
  }

  /** Seal the last block of a body and return to the code around it. */
  lemma ShapeClose(st: St, s0: St, s2: St, i: Instr, held: set<int>, ids: set<Id>)
    requires WellFormed(st, held) && WellFormed(s2, held + {st.cur}) && Terminator(i) && (i.Ret? || i.RetVoid?)
    requires |s0.blocks| == |st.blocks| + 1 && s0.cur == |st.blocks| && s0.loopEnd == st.loopEnd && s0.regs == st.regs
    requires forall b: nat | b < |st.blocks| :: s0.blocks[b] == st.blocks[b]
    requires forall p: nat, t: nat :: Edge(s0.blocks, p, t) <==> Edge(st.blocks, p, t)
    requires Extends(s0, s2, {} + ids)
    ensures var s3 := Emit(s2, i).(cur := st.cur, fn := st.fn);
      Fine(st, s3, held, {} + ids) && Apart(st, s3)
  {
    var s3 := Emit(s2, i).(cur := st.cur, fn := st.fn);
    forall p: nat, t: nat ensures Edge(s3.blocks, p, t) <==> Edge(s2.blocks, p, t) { EdgeEmit(s2, i, p, t); }
    forall id | id in s2.loopEnd ensures !HasPhi(s3.blocks[s2.loopEnd[id]]) {
      var v := s2.loopEnd[id];
      if v == s2.cur { NoPhiKept(s2.blocks[v], s3.blocks[v], i); }
    }
    forall b: nat, k: nat | b < |s3.blocks| && k < |s3.blocks[b].instrs| ensures PhiExact(s3.blocks, b, k) {
      if k < |s2.blocks[b].instrs| { assert PhiExact(s2.blocks, b, k); }
    }
  }
}
