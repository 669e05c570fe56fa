/** Lambda lifting, second half: every call hands over what the header of its callee asks for.

    The translator's table of locals gives each function an access to its own variables and to
    the lifted ones; because the lifted sets are closed under calls, the lifted arguments of a
    call are always there. */
module LowerTables {
  import opened Options
  import opened Ast
  import opened Nodes
  import opened Cfg
  import opened Lowering

  /** The function that declares each variable, and how many formals each function has. */
  datatype Info = Info(owner: map<Id, Id>, arity: map<Id, nat>)

  function Owner(w: Info, d: Id): Id { if d in w.owner then w.owner[d] else d }
  function Arity(w: Info, q: Id): nat { if q in w.arity then w.arity[q] else 0 }

  function Own(cx: Ctx, f: Id, d: Id): Operand { if f == cx.main then Global(d) else Slot(d) }

  /** a is an access of function f to the variable d. */
  predicate Refers(cx: Ctx, w: Info, f: Id, a: Operand, d: Id) {
    (Owner(w, d) == f && a == Own(cx, f, d)) || (a.Param? && a.k < |Lifted(cx, f)| && Lifted(cx, f)[a.k] == d)
  }

  /** Every variable is lifted nowhere. */
  ghost predicate Unlifted(cx: Ctx, d: Id) {
    forall g :: d !in Lifted(cx, g)
  }

  /** f can reach d: its own, lifted to it, or one of `_main` that is never lifted. */
  ghost predicate Reachable(cx: Ctx, w: Info, f: Id, d: Id) {
    Owner(w, d) == f || d in Lifted(cx, f) || (Owner(w, d) == cx.main && Unlifted(cx, d))
  }

  predicate AllIn(ds: seq<Id>, es: seq<Id>) { forall k | 0 <= k < |ds| :: ds[k] in es }

  // ----- what the lifted sets must satisfy -----

  /** Code of f uses only variables f can reach, and calls only functions whose lifted variables
      are lifted to f as well, with the right number of arguments. */
  ghost predicate Lifts(cx: Ctx, w: Info, e: Exp, f: Id) {
    match e
    case IntExp(_) => true
    case VarExp(id, _) => Reachable(cx, w, f, Link(cx, id))
    case OpExp(l, _, r) => Lifts(cx, w, l, f) && Lifts(cx, w, r, f)
    case SeqExp(es) => LiftsAll(cx, w, es, f)
    case AssignExp(id, _, r) => Reachable(cx, w, f, Link(cx, id)) && Lifts(cx, w, r, f)
    case IfExp(c, t, els) => Lifts(cx, w, c, f) && Lifts(cx, w, t, f) && (els.SomeExp? ==> Lifts(cx, w, els.exp, f))
    case WhileExp(_, c, b) => Lifts(cx, w, c, f) && Lifts(cx, w, b, f)
    case ForExp(_, d, hi, b) => Lifts(cx, w, d.init, f) && Lifts(cx, w, hi, f) && Lifts(cx, w, b, f)
    case BreakExp(_) => true
    case CallExp(id, _, args) =>
      AllIn(Lifted(cx, Link(cx, id)), Lifted(cx, f)) && Arity(w, Link(cx, id)) == Length(args) && LiftsAll(cx, w, args, f)
    case LetExp(sc) => LiftsScope(cx, w, sc, f)
  }

  ghost predicate LiftsAll(cx: Ctx, w: Info, es: Exps, f: Id) {
    es.ECons? ==> Lifts(cx, w, es.head, f) && LiftsAll(cx, w, es.tail, f)
  }

  ghost predicate LiftsScope(cx: Ctx, w: Info, sc: Scope, f: Id) {
    match sc
    case In(b) => Lifts(cx, w, b, f)
    case With(VarChunk(d), rest) => Owner(w, d.id) == f && Lifts(cx, w, d.init, f) && LiftsScope(cx, w, rest, f)
    case With(FunctionChunk(ds), rest) => LiftsDecs(cx, w, ds) && LiftsScope(cx, w, rest, f)
    case With(TypeChunk(_), rest) => LiftsScope(cx, w, rest, f)
  }

  ghost predicate LiftsDecs(cx: Ctx, w: Info, ds: Decs) {
    ds.DCons? ==> LiftsDec(cx, w, ds.head) && LiftsDecs(cx, w, ds.tail)
  }

  ghost predicate LiftsDec(cx: Ctx, w: Info, d: FunctionDec) {
    && d.id != cx.main && Arity(w, d.id) == |d.formals| && OwnsFormals(w, d.formals, d.id)
    && (d.body.SomeExp? ==> Lifts(cx, w, d.body.exp, d.id))
  }

  predicate OwnsFormals(w: Info, fs: seq<Formal>, f: Id) { forall k | 0 <= k < |fs| :: Owner(w, fs[k].id) == f }

  function Length(es: Exps): nat { if es.ENil? then 0 else 1 + Length(es.tail) }

  // ----- the tables -----

  /** A call in function f: lifted variables first, each f's own access to it, then the actuals. */
  predicate Matched(cx: Ctx, w: Info, f: Id, i: Instr) {
    i.Call? ==>
      && |i.args| == |Lifted(cx, i.callee)| + Arity(w, i.callee)
      && forall k | 0 <= k < |Lifted(cx, i.callee)| :: Refers(cx, w, f, i.args[k], Lifted(cx, i.callee)[k])
  }

  ghost predicate AllMatched(cx: Ctx, w: Info, st: St) {
    forall b: nat, k: nat | b < |st.blocks| && k < |st.blocks[b].instrs| ::
      Matched(cx, w, st.blocks[b].fn, st.blocks[b].instrs[k])
  }

  /** A recorded header: the lifted variables, then as many formals as the function has. */
  predicate HeaderOk(cx: Ctx, w: Info, p: Proto) {
    p.fn != cx.main ==> Lifted(cx, p.fn) <= p.params && |p.params| == |Lifted(cx, p.fn)| + Arity(w, p.fn)
  }

  predicate Headed(cx: Ctx, w: Info, ps: seq<Proto>) { forall k | 0 <= k < |ps| :: HeaderOk(cx, w, ps[k]) }

  ghost predicate Consistent(cx: Ctx, w: Info, st: St) {
    && Headed(cx, w, st.protos)
    && st.cur < |st.blocks| && st.blocks[st.cur].fn == st.fn
    && (forall g, d | Local(st.locals, g, d).Some? :: Refers(cx, w, g, Local(st.locals, g, d).value, d))
    && (forall k | 0 <= k < |Lifted(cx, st.fn)| :: Local(st.locals, st.fn, Lifted(cx, st.fn)[k]).Some?)
    && AllMatched(cx, w, st)
  }

  /** The value is a constant or an existing register. */
  predicate Plain(st: St) {
    st.value.Imm? || st.value.NoValue? || (st.value.Reg? && st.value.r < st.regs)
  }

  ghost predicate Grows(a: seq<Block>, b: seq<Block>) {
    |a| <= |b| && forall k: nat | k < |a| :: a[k].instrs <= b[k].instrs && a[k].fn == b[k].fn
  }

  /** From a to b by translating code with the nodes ids. */
  ghost predicate Moves(a: St, b: St, ids: set<Id>) {
    && Grows(a.blocks, b.blocks) && a.fn == b.fn && a.regs <= b.regs && (Plain(a) ==> Plain(b))
    && a.protos <= b.protos
    && (forall g, d | Local(a.locals, g, d).Some? :: Local(b.locals, g, d).Some?)
    && (forall g, d | g !in ids && d !in ids :: Local(b.locals, g, d) == Local(a.locals, g, d))
    && (forall q | q !in ids :: Find(b.entries, q) == Find(a.entries, q))
    && (forall id | id !in ids :: Find(b.loopEnd, id) == Find(a.loopEnd, id))
  }

  lemma MovesTrans(a: St, b: St, c: St, ids: set<Id>, ids': set<Id>)
    requires Moves(a, b, ids) && Moves(b, c, ids')
    ensures Moves(a, c, ids + ids')
  {
    forall k: nat | k < |a.blocks| ensures a.blocks[k].instrs <= c.blocks[k].instrs {
      assert a.blocks[k].instrs <= b.blocks[k].instrs <= c.blocks[k].instrs;
    }
  }

  lemma MovesMore(a: St, b: St, ids: set<Id>, ids': set<Id>)
    requires Moves(a, b, ids) && ids <= ids'
    ensures Moves(a, b, ids')
  {}

  ghost predicate Good(cx: Ctx, w: Info, a: St, b: St, ids: set<Id>) {
    Consistent(cx, w, b) && Moves(a, b, ids)
  }

  lemma GoodTrans(cx: Ctx, w: Info, a: St, b: St, c: St, ids: set<Id>, ids': set<Id>)
    requires Good(cx, w, a, b, ids) && Good(cx, w, b, c, ids')
    ensures Good(cx, w, a, c, ids + ids')
  {
    MovesTrans(a, b, c, ids, ids');
  }

  lemma GoodSelf(cx: Ctx, w: Info, a: St, v: Operand, ids: set<Id>)
    requires Consistent(cx, w, a) && (v.Imm? || v.NoValue?)
    ensures Good(cx, w, a, a.(value := v), ids)
  {}

  lemma GoodValue(cx: Ctx, w: Info, a: St, b: St, v: Operand, ids: set<Id>)
    requires Good(cx, w, a, b, ids) && (v.Imm? || v.NoValue?)
    ensures Good(cx, w, a, b.(value := v), ids)
  {}

  lemma GoodEmit(cx: Ctx, w: Info, a: St, b: St, i: Instr, ids: set<Id>)
    requires Good(cx, w, a, b, ids) && Matched(cx, w, b.fn, i)
    ensures Good(cx, w, a, Emit(b, i), ids) && Good(cx, w, a, EmitTo(b, i), ids)
  {
    var c := Emit(b, i);
    forall k: nat | k < |a.blocks| ensures a.blocks[k].instrs <= c.blocks[k].instrs {
      assert a.blocks[k].instrs <= b.blocks[k].instrs <= c.blocks[k].instrs;
    }
    forall k: nat, j: nat | k < |c.blocks| && j < |c.blocks[k].instrs|
      ensures Matched(cx, w, c.blocks[k].fn, c.blocks[k].instrs[j])
    {
      if j < |b.blocks[k].instrs| { assert c.blocks[k].instrs[j] == b.blocks[k].instrs[j]; }
    }
  }

  lemma GoodNewBlocks(cx: Ctx, w: Info, a: St, b: St, ids: set<Id>)
    requires Good(cx, w, a, b, ids)
    ensures Good(cx, w, a, NewBlock(b), ids)
  {
    var c := NewBlock(b);
    forall k: nat, j: nat | k < |c.blocks| && j < |c.blocks[k].instrs|
      ensures Matched(cx, w, c.blocks[k].fn, c.blocks[k].instrs[j])
    {
      assert c.blocks[k] == b.blocks[k];
    }
  }

  /** Go on in another block of the same function. */
  lemma GoodBranch(cx: Ctx, w: Info, a: St, b: St, i: Instr, next: nat, ids: set<Id>)
    requires Good(cx, w, a, b, ids) && !i.Call? && next < |b.blocks| && b.blocks[next].fn == b.fn
    ensures Good(cx, w, a, Branch(b, i, next), ids)
  {
    GoodEmit(cx, w, a, b, i, ids);
  }

  lemma GoodBind(cx: Ctx, w: Info, a: St, b: St, d: Id, v: Operand, ids: set<Id>)
    requires Good(cx, w, a, b, ids) && Refers(cx, w, b.fn, v, d) && d in ids
    ensures Good(cx, w, a, Bind(b, b.fn, d, v), ids)
  {
    var c := Bind(b, b.fn, d, v);
    forall g, x ensures Local(c.locals, g, x) == if g == b.fn && x == d then Some(v) else Local(b.locals, g, x) {}
  }

  // ----- the translation keeps the tables consistent -----

  /** Code ids may be translated in st: its functions and variables are new. */
  ghost predicate Free(cx: Ctx, st: St, ids: set<Id>) {
    st.fn !in ids && cx.main !in ids
  }

  lemma {:induction false} Tables(cx: Ctx, w: Info, e: Exp, st: St)
    requires Consistent(cx, w, st) && Lifts(cx, w, e, st.fn) && Distinct(e) && Free(cx, st, OfExp(e))
    ensures Good(cx, w, st, Lower(cx, e, st), OfExp(e))
    decreases e, 3
  {
    hide Consistent, Moves;
    match e
    case IntExp(n) => GoodSelf(cx, w, st, Lower(cx, e, st).value, {});
    case VarExp(id, _) =>
      GoodRefl(cx, w, st, {id});
      GoodEmit(cx, w, st, st, Load(st.regs, AccessVar(st, Link(cx, id))), {id});
    case OpExp(l, op, r) =>
      Tables(cx, w, l, st);
      var s1 := Lower(cx, l, st);
      GoodFn(cx, w, st, s1, OfExp(l));
      Tables(cx, w, r, s1);
      var s2 := Lower(cx, r, s1);
      GoodTrans(cx, w, st, s1, s2, OfExp(l), OfExp(r));
      var i := Arith(s2.regs, op, s1.value, s2.value);
      GoodEmit(cx, w, st, s2, i, OfExp(e));
      GoodEmit(cx, w, st, EmitTo(s2, i), ZExt(s2.regs + 1, Reg(s2.regs)), OfExp(e));
    case SeqExp(es) => if es.ECons? { TablesSeq(cx, w, es, st); } else { GoodSelf(cx, w, st, ZERO, {}); }
    case AssignExp(id, _, r) =>
      Tables(cx, w, r, st);
      var s1 := Lower(cx, r, st);
      MovesMore(st, s1, OfExp(r), OfExp(e));
      var i := Store(s1.value, AccessVar(st, Link(cx, id)));
      GoodEmit(cx, w, st, s1, i, OfExp(e));
      GoodValue(cx, w, st, Emit(s1, i), ZERO, OfExp(e));
    case IfExp(_, _, _) => TablesIf(cx, w, e, st);
    case WhileExp(_, _, _) => TablesWhile(cx, w, e, st);
    case BreakExp(id) => TablesBreak(cx, w, e, st);
    case CallExp(_, _, _) => TablesCall(cx, w, e, st);
    case LetExp(sc) => TablesScope(cx, w, sc, st);
    case ForExp(_, _, _, _) => GoodRefl(cx, w, st, OfExp(e));
  }

  lemma GoodRefl(cx: Ctx, w: Info, st: St, ids: set<Id>)
    requires Consistent(cx, w, st)
    ensures Good(cx, w, st, st, ids)
  {}

  lemma GoodFn(cx: Ctx, w: Info, a: St, b: St, ids: set<Id>)
    requires Good(cx, w, a, b, ids)
    ensures b.fn == a.fn && b.cur < |b.blocks| && |a.blocks| <= |b.blocks| && b.blocks[b.cur].fn == b.fn && a.regs <= b.regs
    ensures forall k: nat | k < |a.blocks| :: b.blocks[k].fn == a.blocks[k].fn
  {}

  lemma {:induction false} TablesBreak(cx: Ctx, w: Info, e: Exp, st: St)
    requires e.BreakExp? && Consistent(cx, w, st)
    ensures Good(cx, w, st, Lower(cx, e, st), OfExp(e))
  {
    hide Consistent, Moves;
    GoodRefl(cx, w, st, {e.id});
    if Link(cx, e.id) in st.loopEnd {
      var br := Br(st.loopEnd[Link(cx, e.id)]);
      GoodEmit(cx, w, st, st, br, {e.id});
      var s1 := NewBlock(Emit(st, br));
      GoodNewBlocks(cx, w, st, Emit(st, br), {e.id});
      GoodFn(cx, w, st, s1, {e.id});
      GoodCur(cx, w, st, s1, |st.blocks|, {e.id});
      GoodValue(cx, w, st, s1.(cur := |st.blocks|), ZERO, {e.id});
    }
  }

  lemma GoodCur(cx: Ctx, w: Info, a: St, b: St, next: nat, ids: set<Id>)
    requires Good(cx, w, a, b, ids) && next < |b.blocks| && b.blocks[next].fn == b.fn
    ensures Good(cx, w, a, b.(cur := next), ids)
  {}

  lemma {:induction false} TablesSeq(cx: Ctx, w: Info, es: Exps, st: St)
    requires Consistent(cx, w, st) && LiftsAll(cx, w, es, st.fn) && DistinctExps(es) && Free(cx, st, OfExps(es))
    ensures Good(cx, w, st, LowerSeq(cx, es, st), OfExps(es))
    decreases es, 0
  {
    hide Consistent, Moves;
    GoodRefl(cx, w, st, OfExps(es));
    if es.ECons? {
      Tables(cx, w, es.head, st);
      var s1 := Lower(cx, es.head, st);
      GoodFn(cx, w, st, s1, OfExp(es.head));
      TablesSeq(cx, w, es.tail, s1);
      GoodTrans(cx, w, st, s1, LowerSeq(cx, es.tail, s1), OfExp(es.head), OfExps(es.tail));
    }
  }

  lemma {:induction false} TablesArgs(cx: Ctx, w: Info, es: Exps, st: St)
    requires Consistent(cx, w, st) && LiftsAll(cx, w, es, st.fn) && DistinctExps(es) && Free(cx, st, OfExps(es))
    ensures Good(cx, w, st, LowerArgs(cx, es, st).1, OfExps(es)) && |LowerArgs(cx, es, st).0| == Length(es)
    decreases es, 0
  {
    hide Consistent, Moves;
    GoodRefl(cx, w, st, OfExps(es));
    if es.ECons? {
      Tables(cx, w, es.head, st);
      var s1 := Lower(cx, es.head, st);
      GoodFn(cx, w, st, s1, OfExp(es.head));
      TablesArgs(cx, w, es.tail, s1);
      GoodTrans(cx, w, st, s1, LowerArgs(cx, es.tail, s1).1, OfExp(es.head), OfExps(es.tail));
    }
  }

  /** All lifted variables of the callee are at hand: nothing is missing, each is an access to the
      right variable. */
  lemma LiftedAtHand(cx: Ctx, w: Info, ds: seq<Id>, st: St)
    requires Consistent(cx, w, st) && AllIn(ds, Lifted(cx, st.fn))
    ensures LowerLifted(ds, st).1 == st && |LowerLifted(ds, st).0| == |ds|
    ensures forall k | 0 <= k < |ds| :: Local(st.locals, st.fn, ds[k]) == Some(LowerLifted(ds, st).0[k])
    ensures forall k | 0 <= k < |ds| :: Refers(cx, w, st.fn, LowerLifted(ds, st).0[k], ds[k])
  {
    if ds != [] {
      assert ds[0] in Lifted(cx, st.fn);
      assert AllIn(ds[1..], Lifted(cx, st.fn)) by {
        forall k | 0 <= k < |ds[1..]| ensures ds[1..][k] in Lifted(cx, st.fn) { assert ds[1..][k] == ds[k + 1]; }
      }
      LiftedAtHand(cx, w, ds[1..], st);
      forall k | 0 <= k < |ds|
        ensures Local(st.locals, st.fn, ds[k]) == Some(LowerLifted(ds, st).0[k])
        ensures Refers(cx, w, st.fn, LowerLifted(ds, st).0[k], ds[k])
      {
        if k > 0 { assert ds[1..][k - 1] == ds[k]; }
      }
    }
  }

  lemma {:induction false} TablesCall(cx: Ctx, w: Info, e: Exp, st: St)
    requires e.CallExp?
    requires Consistent(cx, w, st) && Lifts(cx, w, e, st.fn) && Distinct(e) && Free(cx, st, OfExp(e))
    ensures Good(cx, w, st, Lower(cx, e, st), OfExp(e))
    decreases e, 2
  {
    hide Consistent, Moves;
    var q := Link(cx, e.id);
    LiftedAtHand(cx, w, Lifted(cx, q), st);
    var lifted := LowerLifted(Lifted(cx, q), st).0;
    TablesArgs(cx, w, e.args, st);
    var (actuals, s2) := LowerArgs(cx, e.args, st);
    GoodFn(cx, w, st, s2, OfExps(e.args));
    MovesMore(st, s2, OfExps(e.args), OfExp(e));
    var i := Call(s2.regs, q, lifted + actuals);
    assert Matched(cx, w, st.fn, i);
    GoodEmit(cx, w, st, s2, i, OfExp(e));
    GoodValue(cx, w, st, EmitTo(s2, i), ZERO, OfExp(e));
  }

  lemma GoodThree(cx: Ctx, w: Info, a: St, b: St, ids: set<Id>)
    requires Good(cx, w, a, b, ids)
    ensures Good(cx, w, a, NewBlocks(b), ids)
  {
    hide Consistent, Moves;
    GoodNewBlocks(cx, w, a, b, ids);
    GoodNewBlocks(cx, w, a, NewBlock(b), ids);
    GoodNewBlocks(cx, w, a, NewBlock(NewBlock(b)), ids);
  }

  lemma {:induction false} TablesIf(cx: Ctx, w: Info, e: Exp, st: St)
    requires e.IfExp?
    requires Consistent(cx, w, st) && Lifts(cx, w, e, st.fn) && Distinct(e) && Free(cx, st, OfExp(e))
    ensures Good(cx, w, st, Lower(cx, e, st), OfExp(e))
    decreases e, 2
  {
    hide Consistent, Moves;
    TablesTest(cx, w, e, st);
    var s1 := EmitTest(Lower(cx, e.test, st));
    var n := |s1.blocks|;
    var s2 := Branch(NewBlocks(s1), CondBr(s1.value, n, n + 1), n);
    TablesThen(cx, w, e, st, s2, n);
    var s3 := Lower(cx, e.thn, s2);
    var s4 := Branch(s3, Br(n + 2), n + 1);
    TablesElse(cx, w, e, st, s4, n);
    var s5 := if e.els.SomeExp? then Lower(cx, e.els.exp, s4) else s4.(value := ZERO);
    GoodBranch(cx, w, st, s5, Br(n + 2), n + 2, OfExp(e));
    var s6 := Branch(s5, Br(n + 2), n + 2);
    GoodValue(cx, w, st, s6, ZERO, OfExp(e));
    GoodEmit(cx, w, st, s6, Phi(s6.regs, s3.value, s3.cur, s5.value, s5.cur), OfExp(e));
  }

  /** The three blocks of an `if` belong to the current function. */
  predicate Blocks(st: St, fn: Id, n: nat) {
    st.fn == fn && n + 2 < |st.blocks| && st.blocks[n].fn == st.blocks[n + 1].fn == st.blocks[n + 2].fn == fn
  }

  lemma {:induction false} TablesTest(cx: Ctx, w: Info, e: Exp, st: St)
    requires e.IfExp?
    requires Consistent(cx, w, st) && Lifts(cx, w, e, st.fn) && Distinct(e) && Free(cx, st, OfExp(e))
    ensures var s1 := EmitTest(Lower(cx, e.test, st)); var n := |s1.blocks|;
      var s2 := Branch(NewBlocks(s1), CondBr(s1.value, n, n + 1), n);
      Good(cx, w, st, s2, OfExp(e.test)) && Blocks(s2, st.fn, n) && st.regs <= s2.regs
    decreases e, 1
  {
    hide Consistent, Moves;
    var c := OfExp(e.test);
    Tables(cx, w, e.test, st);
    var s0 := Lower(cx, e.test, st);
    GoodEmit(cx, w, st, s0, Arith(s0.regs, Ne, s0.value, ZERO), c);
    var s1 := EmitTest(s0);
    var n := |s1.blocks|;
    GoodThree(cx, w, st, s1, c);
    GoodFn(cx, w, st, NewBlocks(s1), c);
    GoodBranch(cx, w, st, NewBlocks(s1), CondBr(s1.value, n, n + 1), n, c);
  }

  lemma {:induction false} TablesThen(cx: Ctx, w: Info, e: Exp, st: St, s2: St, n: nat)
    requires e.IfExp? && Lifts(cx, w, e, st.fn) && Distinct(e) && Free(cx, st, OfExp(e))
    requires Good(cx, w, st, s2, OfExp(e.test)) && Blocks(s2, st.fn, n)
    ensures var s3 := Lower(cx, e.thn, s2); var s4 := Branch(s3, Br(n + 2), n + 1);
      && Good(cx, w, s2, s3, OfExp(e.thn)) && Good(cx, w, st, s4, OfExp(e.test) + OfExp(e.thn))
      && Blocks(s3, st.fn, n) && Blocks(s4, st.fn, n) && s2.regs <= s3.regs
    decreases e, 1
  {
    hide Consistent, Moves;
    Tables(cx, w, e.thn, s2);
    var s3 := Lower(cx, e.thn, s2);
    GoodFn(cx, w, s2, s3, OfExp(e.thn));
    GoodTrans(cx, w, st, s2, s3, OfExp(e.test), OfExp(e.thn));
    GoodBranch(cx, w, st, s3, Br(n + 2), n + 1, OfExp(e.test) + OfExp(e.thn));
  }

  lemma {:induction false} TablesElse(cx: Ctx, w: Info, e: Exp, st: St, s4: St, n: nat)
    requires e.IfExp? && Lifts(cx, w, e, st.fn) && Distinct(e) && Free(cx, st, OfExp(e))
    requires Good(cx, w, st, s4, OfExp(e.test) + OfExp(e.thn)) && Blocks(s4, st.fn, n)
    ensures var s5 := if e.els.SomeExp? then Lower(cx, e.els.exp, s4) else s4.(value := ZERO);
      && Good(cx, w, s4, s5, if e.els.SomeExp? then OfExp(e.els.exp) else {}) && Good(cx, w, st, s5, OfExp(e))
      && Blocks(s5, st.fn, n) && s4.regs <= s5.regs
    decreases e, 1
  {
    hide Consistent, Moves;
    var f := if e.els.SomeExp? then OfExp(e.els.exp) else {};
    if e.els.SomeExp? { Tables(cx, w, e.els.exp, s4); } else { GoodSelf(cx, w, s4, ZERO, {}); }
    var s5 := if e.els.SomeExp? then Lower(cx, e.els.exp, s4) else s4.(value := ZERO);
    GoodFn(cx, w, s4, s5, f);
    GoodTrans(cx, w, st, s4, s5, OfExp(e.test) + OfExp(e.thn), f);
    assert OfExp(e.test) + OfExp(e.thn) + f == OfExp(e);
  }

  lemma {:induction false} TablesWhile(cx: Ctx, w: Info, e: Exp, st: St)
    requires e.WhileExp?
    requires Consistent(cx, w, st) && Lifts(cx, w, e, st.fn) && Distinct(e) && Free(cx, st, OfExp(e))
    ensures Good(cx, w, st, Lower(cx, e, st), OfExp(e))
    decreases e, 2
  {
    hide Consistent, Moves;
    var n, b := |st.blocks|, OfExp(e.body);
    TablesLoopStart(cx, w, e.id, st);
    var s1 := Branch(NewBlocks(st).(loopEnd := st.loopEnd[e.id := n + 2]), Br(n), n);
    TablesLoopTest(cx, w, e, st, s1, n);
    var s3 := EmitTest(Lower(cx, e.test, s1));
    var s4 := Branch(s3, CondBr(s3.value, n + 1, n + 2), n + 1);
    Tables(cx, w, e.body, s4);
    var s5 := Lower(cx, e.body, s4);
    GoodFn(cx, w, s4, s5, b);
    GoodTrans(cx, w, st, s4, s5, {e.id} + OfExp(e.test), b);
    assert {e.id} + OfExp(e.test) + b == OfExp(e);
    GoodBranch(cx, w, st, s5, Br(n), n + 2, OfExp(e));
  }

  lemma TablesLoopStart(cx: Ctx, w: Info, id: Id, st: St)
    requires Consistent(cx, w, st)
    ensures var n := |st.blocks|; var s1 := Branch(NewBlocks(st).(loopEnd := st.loopEnd[id := n + 2]), Br(n), n);
      Good(cx, w, st, s1, {id}) && Blocks(s1, st.fn, n)
  {
    hide Consistent, Moves;
    var n := |st.blocks|;
    GoodRefl(cx, w, st, {id});
    GoodThree(cx, w, st, st, {id});
    GoodLoopEnd(cx, w, st, NewBlocks(st), id, n + 2);
    GoodBranch(cx, w, st, NewBlocks(st).(loopEnd := st.loopEnd[id := n + 2]), Br(n), n, {id});
  }

  lemma {:induction false} TablesLoopTest(cx: Ctx, w: Info, e: Exp, st: St, s1: St, n: nat)
    requires e.WhileExp? && Lifts(cx, w, e, st.fn) && Distinct(e) && Free(cx, st, OfExp(e))
    requires Good(cx, w, st, s1, {e.id}) && Blocks(s1, st.fn, n)
    ensures var s2 := Lower(cx, e.test, s1); var s3 := EmitTest(s2); var s4 := Branch(s3, CondBr(s3.value, n + 1, n + 2), n + 1);
      && Good(cx, w, s1, s2, OfExp(e.test)) && Good(cx, w, st, s4, {e.id} + OfExp(e.test))
      && Blocks(s4, st.fn, n) && s1.regs <= s2.regs
    decreases e, 1
  {
    hide Consistent, Moves;
    var c := OfExp(e.test);
    Tables(cx, w, e.test, s1);
    var s2 := Lower(cx, e.test, s1);
    GoodFn(cx, w, s1, s2, c);
    GoodEmit(cx, w, s1, s2, Arith(s2.regs, Ne, s2.value, ZERO), c);
    var s3 := EmitTest(s2);
    GoodFn(cx, w, s1, s3, c);
    GoodTrans(cx, w, st, s1, s3, {e.id}, c);
    GoodBranch(cx, w, st, s3, CondBr(s3.value, n + 1, n + 2), n + 1, {e.id} + c);
  }

  lemma GoodLoopEnd(cx: Ctx, w: Info, a: St, b: St, id: Id, after: nat)
    requires Good(cx, w, a, b, {id}) && b.loopEnd == a.loopEnd
    ensures Good(cx, w, a, b.(loopEnd := a.loopEnd[id := after]), {id})
  {}

  lemma {:induction false} TablesScope(cx: Ctx, w: Info, sc: Scope, st: St)
    requires Consistent(cx, w, st) && LiftsScope(cx, w, sc, st.fn) && DistinctScope(sc) && Free(cx, st, OfScope(sc))
    ensures Good(cx, w, st, LowerScope(cx, sc, st), OfScope(sc))
    decreases sc, 0
  {
    hide Consistent, Moves;
    match sc
    case In(b) => Tables(cx, w, b, st);
    case With(VarChunk(d), rest) =>
      TablesVarDec(cx, w, d, st);
      var s1 := LowerVarDec(cx, d, st);
      GoodFn(cx, w, st, s1, OfVarDec(d));
      TablesScope(cx, w, rest, s1);
      GoodTrans(cx, w, st, s1, LowerScope(cx, rest, s1), OfVarDec(d), OfScope(rest));
    case With(FunctionChunk(ds), rest) =>
      LiftsArities(cx, w, ds);
      GoodHeaders(cx, w, ds, st);
      var s0 := LowerHeaders(cx, ds, st);
      TablesDecs(cx, w, ds, s0);
      var s1 := LowerDecs(cx, ds, s0);
      GoodTrans(cx, w, st, s0, s1, {}, OfDecs(ds));
      assert {} + OfDecs(ds) == OfDecs(ds);
      GoodFn(cx, w, st, s1, OfDecs(ds));
      TablesScope(cx, w, rest, s1);
      GoodTrans(cx, w, st, s1, LowerScope(cx, rest, s1), OfDecs(ds), OfScope(rest));
    case With(TypeChunk(ts), rest) =>
      TablesScope(cx, w, rest, st);
      MovesMore(st, LowerScope(cx, rest, st), OfScope(rest), OfScope(sc));
  }

  /** The functions of ds have as many formals as w says. */
  predicate Arities(w: Info, ds: Decs) { ds.DCons? ==> Arity(w, ds.head.id) == |ds.head.formals| && Arities(w, ds.tail) }

  lemma LiftsArities(cx: Ctx, w: Info, ds: Decs)
    requires LiftsDecs(cx, w, ds)
    ensures Arities(w, ds)
  {}

  lemma FormalCount(fs: seq<Formal>)
    ensures |FormalIds(fs)| == |fs|
  {}

  lemma {:induction false} HeadersHeaded(cx: Ctx, w: Info, ds: Decs, st: St)
    requires Headed(cx, w, st.protos) && Arities(w, ds)
    ensures var r := LowerHeaders(cx, ds, st);
      Headed(cx, w, r.protos) && st.protos <= r.protos && r == st.(protos := r.protos)
    decreases ds
  {
    if ds.DCons? {
      FormalCount(ds.head.formals);
      var s1 := st.(protos := st.protos + [Proto(ds.head.id, Lifted(cx, ds.head.id) + FormalIds(ds.head.formals))]);
      HeadersHeaded(cx, w, ds.tail, s1);
      assert st.protos <= s1.protos <= LowerHeaders(cx, ds, st).protos;
    }
  }

  lemma GoodHeaders(cx: Ctx, w: Info, ds: Decs, st: St)
    requires Consistent(cx, w, st) && Arities(w, ds)
    ensures Good(cx, w, st, LowerHeaders(cx, ds, st), {})
    ensures LowerHeaders(cx, ds, st) == st.(protos := LowerHeaders(cx, ds, st).protos)
  {
    hide Headed;
    HeadersHeaded(cx, w, ds, st);
  }

  /** Every call hands over what the recorded header of its callee lists, in number and order. */
  lemma CallsMeetHeaders(cx: Ctx, w: Info, st: St, b: nat, k: nat, p: Proto)
    requires Consistent(cx, w, st) && b < |st.blocks| && k < |st.blocks[b].instrs| && p in st.protos
    requires var i := st.blocks[b].instrs[k]; i.Call? && i.callee == p.fn != cx.main
    ensures var i := st.blocks[b].instrs[k]; |i.args| == |p.params|
    ensures var i := st.blocks[b].instrs[k];
      forall j | 0 <= j < |Lifted(cx, p.fn)| :: j < |i.args| && Refers(cx, w, st.blocks[b].fn, i.args[j], p.params[j])
  {
    assert Matched(cx, w, st.blocks[b].fn, st.blocks[b].instrs[k]);
    assert HeaderOk(cx, w, p);
  }

  lemma {:induction false} TablesVarDec(cx: Ctx, w: Info, d: VarDec, st: St)
    requires Consistent(cx, w, st) && Lifts(cx, w, d.init, st.fn) && Owner(w, d.id) == st.fn
    requires DistinctVarDec(d) && Free(cx, st, OfVarDec(d))
    ensures Good(cx, w, st, LowerVarDec(cx, d, st), OfVarDec(d))
    decreases d, 0
  {
    hide Consistent, Moves;
    var own := Own(cx, st.fn, d.id);
    GoodRefl(cx, w, st, OfVarDec(d));
    GoodBind(cx, w, st, st, d.id, own, OfVarDec(d));
    var s0 := if st.fn == cx.main then st else Bind(st, st.fn, d.id, own);
    Tables(cx, w, d.init, s0);
    var s1 := Lower(cx, d.init, s0);
    GoodFn(cx, w, s0, s1, OfExp(d.init));
    GoodTrans(cx, w, st, s0, s1, OfVarDec(d), OfExp(d.init));
    assert OfVarDec(d) + OfExp(d.init) == OfVarDec(d);
    var i := Store(s1.value, own);
    GoodEmit(cx, w, st, s1, i, OfVarDec(d));
    GoodBind(cx, w, st, Emit(s1, i), d.id, own, OfVarDec(d));
    GoodValue(cx, w, st, Emit(s1, i), ZERO, OfVarDec(d));
    GoodValue(cx, w, st, Bind(Emit(s1, i), st.fn, d.id, own), ZERO, OfVarDec(d));
  }

  lemma {:induction false} TablesDecs(cx: Ctx, w: Info, ds: Decs, st: St)
    requires Consistent(cx, w, st) && LiftsDecs(cx, w, ds) && DistinctDecs(ds) && Free(cx, st, OfDecs(ds))
    ensures Good(cx, w, st, LowerDecs(cx, ds, st), OfDecs(ds))
    decreases ds, 0
  {
    hide Consistent, Moves;
    GoodRefl(cx, w, st, OfDecs(ds));
    if ds.DCons? {
      var d, rest := ds.head, ds.tail;
      GoodRefl(cx, w, st, OfDec(d));
      var s1 := if d.body.SomeExp? then LowerDec(cx, d, st) else st;
      if d.body.SomeExp? { TablesDec(cx, w, d, st); }
      GoodFn(cx, w, st, s1, OfDec(d));
      TablesDecs(cx, w, rest, s1);
      GoodTrans(cx, w, st, s1, LowerDecs(cx, rest, s1), OfDec(d), OfDecs(rest));
    }
  }

  lemma {:induction false} TablesDec(cx: Ctx, w: Info, d: FunctionDec, st: St)
    requires d.body.SomeExp? && Consistent(cx, w, st) && LiftsDec(cx, w, d) && DistinctDec(d) && Free(cx, st, OfDec(d))
    ensures Good(cx, w, st, LowerDec(cx, d, st), OfDec(d))
    decreases d, 0
  {
    hide Consistent, Prologue, Lower;
    TablesPrologue(cx, w, d, st);
    var s1 := Prologue(cx, d, Open(d, st));
    Tables(cx, w, d.body.exp, s1);
    var s2 := Lower(cx, d.body.exp, s1);
    var ret := if d.result.None? then RetVoid else Ret(s2.value);
    GoodRefl(cx, w, s2, {});
    GoodEmit(cx, w, s2, s2, ret, {});
    CloseTables(cx, w, d, st, s1, Emit(s2, ret));
    assert LowerDec(cx, d, st) == Emit(s2, ret).(cur := st.cur, fn := st.fn);
  }

  /** From outside a function to the start of its body: entry block, lifted and formals bound. */
  ghost predicate Opened(d: FunctionDec, a: St, b: St) {
    Moves(a, b.(fn := a.fn), OfDec(d)) && b.fn == d.id
  }

  /** Binding the rest of the lifted variables, from parameter k on. */
  lemma {:induction false} TablesLifted(cx: Ctx, w: Info, ds: seq<Id>, k: nat, st: St)
    requires k + |ds| == |Lifted(cx, st.fn)| && ds == Lifted(cx, st.fn)[k..]
    requires forall g, d | Local(st.locals, g, d).Some? :: Refers(cx, w, g, Local(st.locals, g, d).value, d)
    requires forall j | 0 <= j < k :: Local(st.locals, st.fn, Lifted(cx, st.fn)[j]).Some?
    ensures var r := BindLifted(ds, k, st);
      && r == st.(locals := r.locals)
      && (forall g, d | Local(r.locals, g, d).Some? :: Refers(cx, w, g, Local(r.locals, g, d).value, d))
      && (forall j | 0 <= j < |Lifted(cx, st.fn)| :: Local(r.locals, st.fn, Lifted(cx, st.fn)[j]).Some?)
      && (forall g, d | Local(st.locals, g, d).Some? :: Local(r.locals, g, d).Some?)
      && (forall g, d | g != st.fn :: Local(r.locals, g, d) == Local(st.locals, g, d))
    decreases |ds|
  {
    if ds != [] {
      var c := Bind(st, st.fn, ds[0], Param(k));
      forall g, x ensures Local(c.locals, g, x) == if g == st.fn && x == ds[0] then Some(Param(k)) else Local(st.locals, g, x) {}
      TablesLifted(cx, w, ds[1..], k + 1, c);
    }
  }

  lemma {:induction false} TablesFormals(cx: Ctx, w: Info, fs: seq<Formal>, k: nat, st: St)
    requires Consistent(cx, w, st) && OwnsFormals(w, fs, st.fn) && st.fn != cx.main
    ensures Good(cx, w, st, BindFormalSlots(fs, k, st), OfFormals(fs))
    decreases |fs|
  {
    hide Consistent, Moves;
    GoodRefl(cx, w, st, OfFormals(fs));
    if fs != [] {
      var ids := {fs[0].id, fs[0].typeName.id};
      GoodRefl(cx, w, st, ids);
      GoodBind(cx, w, st, st, fs[0].id, Slot(fs[0].id), ids);
      var s0 := Bind(st, st.fn, fs[0].id, Slot(fs[0].id));
      var i := Store(Param(k), Slot(fs[0].id));
      GoodEmit(cx, w, st, s0, i, ids);
      forall j | 0 <= j < |fs[1..]| ensures Owner(w, fs[1..][j].id) == st.fn { assert fs[1..][j] == fs[j + 1]; }
      TablesFormals(cx, w, fs[1..], k + 1, Emit(s0, i));
      GoodTrans(cx, w, st, Emit(s0, i), BindFormalSlots(fs[1..], k + 1, Emit(s0, i)), ids, OfFormals(fs[1..]));
    }
  }

  /** Entering a function and binding its lifted variables. */
  lemma TablesEnter(cx: Ctx, w: Info, d: FunctionDec, st: St)
    requires Consistent(cx, w, st)
    ensures var s1 := BindLifted(Lifted(cx, d.id), 0, Open(d, st));
      Consistent(cx, w, s1) && Moves(st, s1.(fn := st.fn), {d.id}) && s1.fn == d.id
  {
    TablesLifted(cx, w, Lifted(cx, d.id), 0, Open(d, st));
    var s1 := BindLifted(Lifted(cx, d.id), 0, Open(d, st));
    forall k: nat, j: nat | k < |s1.blocks| && j < |s1.blocks[k].instrs|
      ensures Matched(cx, w, s1.blocks[k].fn, s1.blocks[k].instrs[j])
    {
      assert s1.blocks[k] == st.blocks[k];
    }
  }

  lemma TablesPrologue(cx: Ctx, w: Info, d: FunctionDec, st: St)
    requires d.body.SomeExp? && Consistent(cx, w, st) && LiftsDec(cx, w, d) && DistinctDec(d) && Free(cx, st, OfDec(d))
    ensures Consistent(cx, w, Prologue(cx, d, Open(d, st))) && Opened(d, st, Prologue(cx, d, Open(d, st)))
  {
    hide Consistent;
    var ds := Lifted(cx, d.id);
    TablesEnter(cx, w, d, st);
    var s1 := BindLifted(ds, 0, Open(d, st));
    TablesFormals(cx, w, d.formals, |ds|, s1);
    var s2 := BindFormalSlots(d.formals, |ds|, s1);
    assert Moves(s1.(fn := st.fn), s2.(fn := st.fn), OfFormals(d.formals));
    hide Moves;
    MovesTrans(st, s1.(fn := st.fn), s2.(fn := st.fn), {d.id}, OfFormals(d.formals));
    MovesMore(st, s2.(fn := st.fn), {d.id} + OfFormals(d.formals), OfDec(d));
  }

  /** Back outside: the enclosing function finds its tables as they were. */
  lemma CloseTables(cx: Ctx, w: Info, d: FunctionDec, st: St, s1: St, s3: St)
    requires d.body.SomeExp? && Free(cx, st, OfDec(d))
    requires Consistent(cx, w, st) && Opened(d, st, s1) && Good(cx, w, s1, s3, OfExp(d.body.exp))
    ensures Good(cx, w, st, s3.(cur := st.cur, fn := st.fn), OfDec(d))
  {
  }
}
