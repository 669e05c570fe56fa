/** What is known at every point of a translation: the conditions under which code is translated,
    and that translating it meets the conditions of the code that follows. */
module LowerReady {
  import opened Options
  import opened Ast
  import opened Nodes
  import opened Semantics
  import opened Cfg
  import opened Lowering
  import opened LowerShape
  import opened LowerTables

  /** A translation: what earlier passes know, the linked code, and the outside world. */
  datatype World = World(cx: Ctx, w: Info, p: Code, o: Oracle)

  // ----- environments without values -----

  /** The bindings of an environment, and whether each has a value yet. */
  function Blank(env: Env): Env {
    match env
    case Empty => Empty
    case VarB(id, x, v, rest) => VarB(id, x, if v.Some? then Some(0) else None, Blank(rest))
    case FunB(ds, rest) => FunB(ds, Blank(rest))
  }

  function Vars(b: Env): set<Id> {
    match b
    case Empty => {}
    case VarB(id, _, _, rest) => {id} + Vars(rest)
    case FunB(_, rest) => Vars(rest)
  }

  /** The variables that have a value. */
  function Live(b: Env): set<Id> {
    match b
    case Empty => {}
    case VarB(id, _, v, rest) => (if v.Some? then {id} else {}) + Live(rest)
    case FunB(_, rest) => Live(rest)
  }

  predicate Separate(b: Env) {
    match b
    case Empty => true
    case VarB(id, _, _, rest) => id !in Vars(rest) && Separate(rest)
    case FunB(_, rest) => Separate(rest)
  }

  function VarId(b: Env, x: Symbol): Option<Id> {
    match b
    case Empty => None
    case VarB(id, y, _, rest) => if x == y then Some(id) else VarId(rest, x)
    case FunB(_, rest) => VarId(rest, x)
  }

  /** The formals in scope, with values. */
  function Enter(fs: seq<Formal>, b: Env): Env {
    if fs == [] then b else Enter(fs[1..], VarB(fs[0].id, fs[0].name, Some(0), b))
  }

  lemma LiveVars(b: Env)
    ensures Live(b) <= Vars(b)
  {}

  // ----- what the binder and the type checker established -----

  /** The use id of the name x denotes the declaration in scope, which has a value. */
  predicate Sees(cx: Ctx, b: Env, id: Id, x: Symbol) {
    FindVar(b, x).Some? && FindVar(b, x).value.Some? && VarId(b, x) == Some(Link(cx, id))
  }

  /** Names denote what they are linked to, values are used only where there is one, and calls
      agree with declarations. */
  predicate Typed(g: World, e: Exp, b: Env) {
    match e
    case IntExp(_) => true
    case VarExp(id, x) => Sees(g.cx, b, id, x)
    case OpExp(l, _, r) => Typed(g, l, b) && !Voids(g.cx, l) && Typed(g, r, b) && !Voids(g.cx, r)
    case SeqExp(es) => TypedAll(g, es, b)
    case AssignExp(id, x, r) => Sees(g.cx, b, id, x) && Typed(g, r, b) && !Voids(g.cx, r)
    case IfExp(c, t, f) =>
      && Typed(g, c, b) && !Voids(g.cx, c) && Typed(g, t, b) && (f.SomeExp? ==> Typed(g, f.exp, b))
      && (!Voids(g.cx, t) ==> f.SomeExp? && !Voids(g.cx, f.exp))
    case WhileExp(_, c, d) => Typed(g, c, b) && !Voids(g.cx, c) && Typed(g, d, b)
    case ForExp(_, _, _, _) => false
    case BreakExp(_) => true
    case CallExp(id, f, args) =>
      var found := FindFun(b, f);
      && ValuesAll(g, args, b) && found.Some? && id in g.cx.links && g.cx.links[id] == found.value.0.id
      && |found.value.0.formals| == Length(args)
    case LetExp(sc) => TypedScope(g, sc, b)
  }

  predicate TypedAll(g: World, es: Exps, b: Env) {
    es.ECons? ==> Typed(g, es.head, b) && TypedAll(g, es.tail, b)
  }

  predicate ValuesAll(g: World, es: Exps, b: Env) {
    es.ECons? ==> Typed(g, es.head, b) && !Voids(g.cx, es.head) && ValuesAll(g, es.tail, b)
  }

  predicate TypedScope(g: World, sc: Scope, b: Env) {
    match sc
    case In(e) => Typed(g, e, b)
    case With(VarChunk(d), rest) =>
      Typed(g, d.init, VarB(d.id, d.name, None, b)) && !Voids(g.cx, d.init) && TypedScope(g, rest, VarB(d.id, d.name, Some(0), b))
    case With(FunctionChunk(ds), rest) => TypedDecs(g, ds, FunB(ds, b)) && TypedScope(g, rest, FunB(ds, b))
    case With(TypeChunk(_), rest) => TypedScope(g, rest, b)
  }

  predicate TypedDecs(g: World, ds: Decs, b: Env) {
    ds.DCons? ==> TypedDec(g, ds.head, b) && TypedDecs(g, ds.tail, b)
  }

  /** The primitives are the functions without a body. */
  predicate TypedDec(g: World, d: FunctionDec, b: Env) {
    && (d.id in g.cx.voids <==> d.result.None?) && Arity(g.w, d.id) == |d.formals|
    && Find(g.p.primitives, d.id) == (if d.body.NoExp? then Some(d.name) else None)
    && (d.body.NoExp? ==> Lifted(g.cx, d.id) == [])
    && (d.body.SomeExp? ==>
          && Typed(g, d.body.exp, Enter(d.formals, b))
          && (d.result.Some? ==> !Voids(g.cx, d.body.exp)))
  }

  ghost predicate Legal(g: World, e: Exp, f: Id, lp: Option<Id>, b: Env) {
    Distinct(e) && Lowerable(g.cx, e, lp) && Lifts(g.cx, g.w, e, f) && Typed(g, e, b)
  }

  ghost predicate LegalAll(g: World, es: Exps, f: Id, lp: Option<Id>, b: Env) {
    DistinctExps(es) && LowerableAll(g.cx, es, lp) && LiftsAll(g.cx, g.w, es, f) && TypedAll(g, es, b)
  }

  ghost predicate LegalArgs(g: World, es: Exps, f: Id, lp: Option<Id>, b: Env) {
    DistinctExps(es) && LowerableAll(g.cx, es, lp) && LiftsAll(g.cx, g.w, es, f) && ValuesAll(g, es, b)
  }

  ghost predicate LegalScope(g: World, sc: Scope, f: Id, lp: Option<Id>, b: Env) {
    DistinctScope(sc) && LowerableScope(g.cx, sc, lp) && LiftsScope(g.cx, g.w, sc, f) && TypedScope(g, sc, b)
  }

  ghost predicate LegalDecs(g: World, ds: Decs, b: Env) {
    DistinctDecs(ds) && LowerableDecs(g.cx, ds) && LiftsDecs(g.cx, g.w, ds) && TypedDecs(g, ds, b)
  }

  // ----- points of a translation -----

  /** The owner of every variable in scope has its access to it. */
  ghost predicate Declared(g: World, st: St, b: Env) {
    forall d | d in Live(b) :: Local(st.locals, Owner(g.w, d), d) == Some(Own(g.cx, Owner(g.w, d), d))
  }

  /** The code ids is new: it declares nothing already known. */
  ghost predicate New(g: World, st: St, b: Env, ids: set<Id>) {
    && Free(g.cx, st, ids) && st.entries.Keys !! ids && Vars(b) !! ids
    && (forall d | d in Live(b) :: Owner(g.w, d) !in ids)
  }

  ghost predicate HasHeader(ps: seq<Proto>, f: Id) { exists k | 0 <= k < |ps| :: ps[k].fn == f }

  /** Code ids may be translated in state st, in a scope b and a loop lp. */
  ghost predicate Ready(g: World, st: St, held: set<int>, lp: Option<Id>, b: Env, ids: set<Id>) {
    && WellFormed(st, held) && Consistent(g.cx, g.w, st) && Plain(st) && LoopKnown(st, lp, ids)
    && Declared(g, st, b) && New(g, st, b, ids) && Separate(b)
    && HasHeader(st.protos, g.cx.main)
  }

  /** What translating the code ids between a and b did. */
  ghost predicate Done(g: World, a: St, b: St, held: set<int>, ids: set<Id>) {
    Fine(a, b, held, ids) && LowerTables.Good(g.cx, g.w, a, b, ids)
  }

  /** The final code holds everything emitted so far. */
  ghost predicate Within(g: World, st: St) {
    Grows(st.blocks, g.p.blocks) && forall q | q in st.entries :: Find(g.p.entries, q) == Some(st.entries[q])
  }

  lemma Lowered(g: World, e: Exp, st: St, held: set<int>, lp: Option<Id>, b: Env)
    requires Ready(g, st, held, lp, b, OfExp(e)) && Legal(g, e, st.fn, lp, b)
    ensures Done(g, st, Lower(g.cx, e, st), held, OfExp(e))
  {
    hide WellFormed, Extends, Consistent, Moves, Declared, Lower, Typed;
    Shape(g.cx, e, st, held, lp);
    Tables(g.cx, g.w, e, st);
  }

  lemma LoweredSeq(g: World, es: Exps, st: St, held: set<int>, lp: Option<Id>, b: Env)
    requires Ready(g, st, held, lp, b, OfExps(es)) && LegalAll(g, es, st.fn, lp, b)
    ensures Done(g, st, LowerSeq(g.cx, es, st), held, OfExps(es))
  {
    hide WellFormed, Extends, Consistent, Moves, Declared, LowerSeq, TypedAll;
    ShapeSeq(g.cx, es, st, held, lp);
    TablesSeq(g.cx, g.w, es, st);
  }

  lemma LoweredArgs(g: World, es: Exps, st: St, held: set<int>, lp: Option<Id>, b: Env)
    requires Ready(g, st, held, lp, b, OfExps(es)) && LegalArgs(g, es, st.fn, lp, b)
    ensures Done(g, st, LowerArgs(g.cx, es, st).1, held, OfExps(es)) && |LowerArgs(g.cx, es, st).0| == Length(es)
  {
    hide WellFormed, Extends, Consistent, Moves, Declared, LowerArgs, ValuesAll;
    ShapeArgs(g.cx, es, st, held, lp);
    TablesArgs(g.cx, g.w, es, st);
  }

  /** The code that follows is ready to be translated. */
  lemma Follow(g: World, a: St, s: St, held: set<int>, held': set<int>, lp: Option<Id>, b: Env, ids: set<Id>, ids': set<Id>)
    requires Ready(g, a, held, lp, b, ids + ids') && Done(g, a, s, held', ids) && ids !! ids'
    ensures Ready(g, s, held', lp, b, ids')
  {
    hide WellFormed, Consistent, Extends, Moves, Declared, New, LoopKnown;
    FollowKnown(g, a, s, held, lp, b, ids, ids');
    KeepLoopKnown(a, s, lp, ids, ids');
  }

  /** Tables only, whatever happened to the blocks. */
  lemma FollowKnown(g: World, a: St, s: St, held: set<int>, lp: Option<Id>, b: Env, ids: set<Id>, ids': set<Id>)
    requires Ready(g, a, held, lp, b, ids + ids') && LowerTables.Good(g.cx, g.w, a, s, ids) && ids !! ids'
    ensures Plain(s) && Declared(g, s, b) && New(g, s, b, ids') && HasHeader(s.protos, g.cx.main)
  {
    hide WellFormed, Consistent;
    LiveVars(b);
    HeaderKept(a.protos, s.protos, g.cx.main);
    assert s.entries.Keys !! ids' by {
      forall q | q in ids' ensures q !in s.entries { assert Find(s.entries, q) == Find(a.entries, q); }
    }
  }

  lemma HeaderKept(a: seq<Proto>, b: seq<Proto>, f: Id)
    requires a <= b && HasHeader(a, f)
    ensures HasHeader(b, f)
  {
    var k :| 0 <= k < |a| && a[k].fn == f;
    assert b[k].fn == f;
  }

  lemma ReadyLess(g: World, st: St, held: set<int>, lp: Option<Id>, b: Env, ids: set<Id>, ids': set<Id>)
    requires Ready(g, st, held, lp, b, ids) && ids' <= ids
    ensures Ready(g, st, held, lp, b, ids')
  {}

  lemma WithinBack(g: World, a: St, s: St, ids: set<Id>)
    requires Within(g, s) && Moves(a, s, ids) && a.entries.Keys !! ids
    ensures Within(g, a)
  {
    forall k: nat | k < |a.blocks| ensures a.blocks[k].instrs <= g.p.blocks[k].instrs {
      assert a.blocks[k].instrs <= s.blocks[k].instrs <= g.p.blocks[k].instrs;
    }
    forall q | q in a.entries ensures Find(g.p.entries, q) == Some(a.entries[q]) {
      assert Find(s.entries, q) == Find(a.entries, q);
    }
  }

  lemma GrowsTrans(a: seq<Block>, b: seq<Block>, c: seq<Block>)
    requires Grows(a, b) && Grows(b, c)
    ensures Grows(a, c)
  {
    forall k: nat | k < |a| ensures a[k].instrs <= c[k].instrs && a[k].fn == c[k].fn {
      assert a[k].instrs <= b[k].instrs <= c[k].instrs;
    }
  }

  lemma GrowsEmit(st: St, i: Instr)
    ensures Grows(st.blocks, Emit(st, i).blocks)
  {}

  lemma GrowsSelf(a: seq<Block>)
    ensures Grows(a, a)
  {}

  lemma WithinSame(g: World, a: St, s: St)
    requires Within(g, s) && Grows(a.blocks, s.blocks) && a.entries == s.entries
    ensures Within(g, a)
  {
    GrowsTrans(a.blocks, s.blocks, g.p.blocks);
  }

  lemma WithinGrows(g: World, st: St)
    requires Within(g, st)
    ensures Grows(st.blocks, g.p.blocks)
  {}

  // ----- access to variables -----

  /** How the code of a function names a variable in scope. */
  ghost predicate Names(g: World, f: Id, a: Operand, d: Id) {
    || (Owner(g.w, d) == f && a == Own(g.cx, f, d))
    || (Owner(g.w, d) != f && a.Param? && a.k < |Lifted(g.cx, f)| && Lifted(g.cx, f)[a.k] == d)
    || (Owner(g.w, d) == g.cx.main && a == Global(d))
  }

  lemma ElsewhereGlobal(g: World, st: St, ps: seq<Proto>, d: Id)
    requires Consistent(g.cx, g.w, st) && Owner(g.w, d) == g.cx.main && Unlifted(g.cx, d)
    requires Local(st.locals, g.cx.main, d).Some? && HasHeader(ps, g.cx.main)
    ensures Elsewhere(st, ps, d) == Global(d)
  {
    var a := Local(st.locals, ps[0].fn, d);
    if a.Some? {
      assert Refers(g.cx, g.w, ps[0].fn, a.value, d);
    } else {
      var k :| 0 <= k < |ps| && ps[k].fn == g.cx.main;
      assert ps[1..][k - 1] == ps[k];
      ElsewhereGlobal(g, st, ps[1..], d);
    }
  }

  lemma Access(g: World, st: St, held: set<int>, lp: Option<Id>, b: Env, ids: set<Id>, d: Id)
    requires Ready(g, st, held, lp, b, ids) && d in Live(b) && Reachable(g.cx, g.w, st.fn, d)
    ensures Names(g, st.fn, AccessVar(st, d), d)
  {
    hide WellFormed;
    var a := Local(st.locals, st.fn, d);
    if a.Some? {
      assert Refers(g.cx, g.w, st.fn, a.value, d);
    } else {
      assert d !in Lifted(g.cx, st.fn) && Owner(g.w, d) == g.cx.main;
      ElsewhereGlobal(g, st, st.protos, d);
    }
  }

  lemma LegalParts(g: World, e: Exp, f: Id, lp: Option<Id>, b: Env)
    requires Legal(g, e, f, lp, b)
    ensures Distinct(e) && Lowerable(g.cx, e, lp) && Lifts(g.cx, g.w, e, f)
  {}

  lemma ReadyParts(g: World, st: St, held: set<int>, lp: Option<Id>, b: Env, ids: set<Id>)
    requires Ready(g, st, held, lp, b, ids)
    ensures WellFormed(st, held) && Consistent(g.cx, g.w, st) && LoopKnown(st, lp, ids) && Free(g.cx, st, ids) && Plain(st)
  {}

  // ----- the points of an `if` -----

  lemma LegalIf(g: World, e: Exp, f: Id, lp: Option<Id>, b: Env)
    requires e.IfExp? && Legal(g, e, f, lp, b)
    ensures Legal(g, e.test, f, lp, b) && Legal(g, e.thn, f, lp, b) && (e.els.SomeExp? ==> Legal(g, e.els.exp, f, lp, b))
    ensures OfExp(e.test) !! OfExp(e.thn) + Els(e) && OfExp(e.thn) !! Els(e)
    ensures !Voids(g.cx, e.test) && Voids(g.cx, e) == Voids(g.cx, e.thn)
    ensures !Voids(g.cx, e) ==> e.els.SomeExp? && !Voids(g.cx, e.els.exp)
    ensures OfExp(e) == OfExp(e.test) + (OfExp(e.thn) + Els(e)) == OfExp(e.test) + OfExp(e.thn) + Els(e)
  {}

  function Els(e: Exp): set<Id>
    requires e.IfExp?
  {
    if e.els.SomeExp? then OfExp(e.els.exp) else {}
  }

  /** The first branch is about to be translated. */
  ghost predicate AtThen(g: World, e: Exp, st: St, s2: St, n: nat, held: set<int>, lp: Option<Id>, b: Env)
    requires e.IfExp?
  {
    && Ready(g, s2, held + {n + 1, n + 2}, lp, b, OfExp(e.thn) + Els(e)) && Waiting(s2, n, held) && Blocks(s2, st.fn, n)
    && s2.blocks[n].instrs == [] && |st.blocks| <= n
    && Extends(st, s2, OfExp(e.test)) && LowerTables.Good(g.cx, g.w, st, s2, OfExp(e.test))
  }

  lemma FreshBlock(s1: St, i: Instr)
    requires s1.cur < |s1.blocks|
    ensures var n := |s1.blocks|; var s2 := Branch(NewBlocks(s1), i, n);
      s2.blocks[n].instrs == [] && s2.cur == n
  {}

  lemma IfTestReady(g: World, e: Exp, st: St, held: set<int>, lp: Option<Id>, b: Env)
    requires e.IfExp? && Ready(g, st, held, lp, b, OfExp(e)) && Legal(g, e, st.fn, lp, b)
    ensures Ready(g, st, held, lp, b, OfExp(e.test))
    ensures var s1 := EmitTest(Lower(g.cx, e.test, st)); var n := |s1.blocks|;
      AtThen(g, e, st, Branch(NewBlocks(s1), CondBr(s1.value, n, n + 1), n), n, held, lp, b)
  {
    hide WellFormed, Extends, Consistent, Moves, Ready, Legal, LoopKnown, Free, Lower, OfExp, Distinct, Lowerable, Lifts;
    hide Waiting, Blocks, LowerTables.Good, Els, Emit, EmitTo, EmitTest, Branch, NewBlock, NewBlocks;
    LegalIf(g, e, st.fn, lp, b);
    ReadyLess(g, st, held, lp, b, OfExp(e), OfExp(e.test));
    var s1 := EmitTest(Lower(g.cx, e.test, st));
    var n := |s1.blocks|;
    var s2 := Branch(NewBlocks(s1), CondBr(s1.value, n, n + 1), n);
    IfTestShape(g, e, st, held, lp, b);
    Follow(g, st, s2, held, held + {n + 1, n + 2}, lp, b, OfExp(e.test), OfExp(e.thn) + Els(e));
  }

  lemma IfTestShape(g: World, e: Exp, st: St, held: set<int>, lp: Option<Id>, b: Env)
    requires e.IfExp? && Ready(g, st, held, lp, b, OfExp(e)) && Legal(g, e, st.fn, lp, b)
    ensures var s1 := EmitTest(Lower(g.cx, e.test, st)); var n := |s1.blocks|;
      var s2 := Branch(NewBlocks(s1), CondBr(s1.value, n, n + 1), n);
      && Waiting(s2, n, held) && Blocks(s2, st.fn, n) && s2.blocks[n].instrs == [] && |st.blocks| <= n
      && Done(g, st, s2, held + {n + 1, n + 2}, OfExp(e.test))
  {
    hide WellFormed, Extends, Consistent, Moves, Ready, Legal, LoopKnown, Free, Lower, OfExp, Distinct, Lowerable, Lifts,
         Blocks, LowerTables.Good, Els, Waiting, Branch, NewBlock, NewBlocks;
    LegalIf(g, e, st.fn, lp, b);
    LegalParts(g, e, st.fn, lp, b);
    LegalParts(g, e.test, st.fn, lp, b);
    ReadyLess(g, st, held, lp, b, OfExp(e), OfExp(e.test));
    ReadyParts(g, st, held, lp, b, OfExp(e));
    ReadyParts(g, st, held, lp, b, OfExp(e.test));
    var s1 := EmitTest(Lower(g.cx, e.test, st));
    var n := |s1.blocks|;
    ShapeTest(g.cx, e, st, held, lp);
    TablesTest(g.cx, g.w, e, st);
    CurBelow(g, e.test, st, held, lp, b);
    FreshBlock(s1, CondBr(s1.value, n, n + 1));
    WaitingWellFormed(Branch(NewBlocks(s1), CondBr(s1.value, n, n + 1), n), n, held);
  }

  lemma WaitingWellFormed(s: St, n: nat, held: set<int>)
    requires Waiting(s, n, held)
    ensures WellFormed(s, held + {n + 1, n + 2})
  {}

  lemma ThenParts(g: World, e: Exp, st: St, s2: St, n: nat, held: set<int>, lp: Option<Id>, b: Env)
    requires e.IfExp? && AtThen(g, e, st, s2, n, held, lp, b)
    ensures LowerTables.Good(g.cx, g.w, st, s2, OfExp(e.test))
    ensures s2.cur == n < |s2.blocks| && s2.blocks[n].instrs == []
  {
    hide Ready, LowerTables.Good, Extends;
  }

  lemma ElseParts(g: World, e: Exp, st: St, s3: St, s4: St, n: nat, held: set<int>, lp: Option<Id>, b: Env)
    requires e.IfExp? && AtElse(g, e, st, s3, s4, n, held, lp, b)
    ensures LowerTables.Good(g.cx, g.w, st, s4, OfExp(e.test) + OfExp(e.thn))
    ensures s4.cur == n + 1 < |s4.blocks| && s4.blocks[n + 1].instrs == [] && s3.regs == s4.regs
  {
    hide Ready, LowerTables.Good, Extends;
  }

  /** The insertion point is an existing block. */
  lemma CurBelow(g: World, e: Exp, st: St, held: set<int>, lp: Option<Id>, b: Env)
    requires Ready(g, st, held, lp, b, OfExp(e)) && Legal(g, e, st.fn, lp, b)
    ensures Lower(g.cx, e, st).cur < |Lower(g.cx, e, st).blocks|
  {
    Lowered(g, e, st, held, lp, b);
  }

  /** The second branch is about to be translated; the first ended in s3. */
  ghost predicate AtElse(g: World, e: Exp, st: St, s3: St, s4: St, n: nat, held: set<int>, lp: Option<Id>, b: Env)
    requires e.IfExp?
  {
    && Ready(g, s4, held + {n + 2}, lp, b, Els(e)) && Joining(s4, n, held, s3.cur) && Blocks(s4, st.fn, n)
    && s4.cur == n + 1 && s4.blocks[n + 1].instrs == [] && |st.blocks| <= n && s4.regs == s3.regs
    && Extends(st, s4, OfExp(e.test) + OfExp(e.thn)) && LowerTables.Good(g.cx, g.w, st, s4, OfExp(e.test) + OfExp(e.thn))
  }

  /** The code of the first branch. */
  lemma IfThenCode(g: World, e: Exp, st: St, s2: St, n: nat, held: set<int>, lp: Option<Id>, b: Env)
    requires e.IfExp? && Ready(g, st, held, lp, b, OfExp(e)) && Legal(g, e, st.fn, lp, b)
    requires AtThen(g, e, st, s2, n, held, lp, b)
    ensures var s3 := Lower(g.cx, e.thn, s2);
      && Ready(g, s2, held + {n + 1, n + 2}, lp, b, OfExp(e.thn)) && Done(g, s2, s3, held + {n + 1, n + 2}, OfExp(e.thn))
      && Plain(s3) && s2.regs <= s3.regs
  {
    hide WellFormed, Extends, Consistent, Ready, Legal, LoopKnown, Free, Lower, OfExp, Distinct, Lowerable, Lifts;
    LegalIf(g, e, st.fn, lp, b);
    var h := held + {n + 1, n + 2};
    ReadyLess(g, s2, h, lp, b, OfExp(e.thn) + Els(e), OfExp(e.thn));
    ReadyParts(g, s2, h, lp, b, OfExp(e.thn));
    Lowered(g, e.thn, s2, h, lp, b);
  }

  /** The state of the builder after the first branch. */
  lemma IfThenState(g: World, e: Exp, st: St, s2: St, n: nat, held: set<int>, lp: Option<Id>, b: Env)
    requires e.IfExp? && Ready(g, st, held, lp, b, OfExp(e)) && Legal(g, e, st.fn, lp, b)
    requires AtThen(g, e, st, s2, n, held, lp, b)
    ensures var s3 := Lower(g.cx, e.thn, s2); var s4 := Branch(s3, Br(n + 2), n + 1); var ids := OfExp(e.test) + OfExp(e.thn);
      && Joining(s4, n, held, s3.cur) && Blocks(s4, st.fn, n) && s4.cur == n + 1 && s4.blocks[n + 1].instrs == []
      && s4.regs == s3.regs && Extends(st, s4, ids) && LowerTables.Good(g.cx, g.w, st, s4, ids)
  {
    hide WellFormed, Extends, Consistent, Moves, Ready, Legal, LoopKnown, Free, Lower, OfExp, Distinct, Lowerable, Lifts;
    LegalIf(g, e, st.fn, lp, b);
    LegalParts(g, e, st.fn, lp, b);
    LegalParts(g, e.thn, st.fn, lp, b);
    ReadyParts(g, st, held, lp, b, OfExp(e));
    var h := held + {n + 1, n + 2};
    var s3 := Lower(g.cx, e.thn, s2);
    IfThenCode(g, e, st, s2, n, held, lp, b);
    ReadyParts(g, s2, h, lp, b, OfExp(e.thn));
    ShapeThen(g.cx, e, st, s2, n, OfExp(e.test), held, lp);
    TablesThen(g.cx, g.w, e, st, s2, n);
    ExtendsAt(s2, s3, OfExp(e.thn), n + 1);
  }

  lemma IfThenReady(g: World, e: Exp, st: St, s2: St, n: nat, held: set<int>, lp: Option<Id>, b: Env)
    requires e.IfExp? && Ready(g, st, held, lp, b, OfExp(e)) && Legal(g, e, st.fn, lp, b)
    requires AtThen(g, e, st, s2, n, held, lp, b)
    ensures var s3 := Lower(g.cx, e.thn, s2);
      AtElse(g, e, st, s3, Branch(s3, Br(n + 2), n + 1), n, held, lp, b)
  {
    hide WellFormed, Extends, Consistent, Moves, Ready, Legal, LoopKnown, Free, Lower, OfExp, Distinct, Lowerable, Lifts;
    LegalIf(g, e, st.fn, lp, b);
    var s3 := Lower(g.cx, e.thn, s2);
    var s4 := Branch(s3, Br(n + 2), n + 1);
    IfThenState(g, e, st, s2, n, held, lp, b);
    assert WellFormed(s4, held + {n + 2});
    hide Joining, Waiting, Blocks, LowerTables.Good, Branch;
    Follow(g, st, s4, held, held + {n + 2}, lp, b, OfExp(e.test) + OfExp(e.thn), Els(e));
  }

  lemma IfElseReady(g: World, e: Exp, st: St, s3: St, s4: St, n: nat, held: set<int>, lp: Option<Id>, b: Env)
    requires e.IfExp? && Ready(g, st, held, lp, b, OfExp(e)) && Legal(g, e, st.fn, lp, b)
    requires AtElse(g, e, st, s3, s4, n, held, lp, b)
    ensures var s5 := if e.els.SomeExp? then Lower(g.cx, e.els.exp, s4) else s4.(value := ZERO);
      && Ready(g, s4, held + {n + 2}, lp, b, Els(e)) && LowerTables.Good(g.cx, g.w, s4, s5, Els(e)) && Plain(s5)
      && s3.cur != s5.cur && s5.cur < |s5.blocks| && s5.cur != n + 2 < |s5.blocks| && s5.blocks[n + 2].instrs == []
      && s3.regs <= s5.regs
  {
    hide WellFormed, Extends, Consistent, Moves, Ready, Legal, LoopKnown, Free, Lower, OfExp, Distinct, Lowerable, Lifts;
    LegalIf(g, e, st.fn, lp, b);
    LegalParts(g, e, st.fn, lp, b);
    if e.els.SomeExp? { LegalParts(g, e.els.exp, st.fn, lp, b); }
    ReadyParts(g, st, held, lp, b, OfExp(e));
    ReadyParts(g, s4, held + {n + 2}, lp, b, Els(e));
    ShapeElse(g.cx, e, st, s4, s3.cur, n, OfExp(e.test) + OfExp(e.thn), held, lp);
    TablesElse(g.cx, g.w, e, st, s4, n);
    var s5 := if e.els.SomeExp? then Lower(g.cx, e.els.exp, s4) else s4.(value := ZERO);
    FineSizes(st, s5, held + {n + 2}, OfExp(e.test) + OfExp(e.thn) + Els(e));
    GoodPlain(g, s4, s5, Els(e));
  }

  lemma GoodPlain(g: World, a: St, s: St, ids: set<Id>)
    requires LowerTables.Good(g.cx, g.w, a, s, ids) && Plain(a)
    ensures Plain(s)
  {}

  // ----- the points of a loop -----

  lemma LegalWhile(g: World, e: Exp, f: Id, lp: Option<Id>, b: Env)
    requires e.WhileExp? && Legal(g, e, f, lp, b)
    ensures Legal(g, e.test, f, Some(e.id), b) && Legal(g, e.body, f, Some(e.id), b) && !Voids(g.cx, e.test)
    ensures OfExp(e.test) !! OfExp(e.body) && e.id !in OfExp(e.test) + OfExp(e.body)
    ensures OfExp(e) == {e.id} + (OfExp(e.test) + OfExp(e.body)) == {e.id} + OfExp(e.test) + OfExp(e.body)
  {}

  /** The test is about to be translated. */
  ghost predicate AtTest(g: World, e: Exp, st: St, s1: St, n: nat, held: set<int>, b: Env)
    requires e.WhileExp?
  {
    && Ready(g, s1, held + {n + 1, n + 2}, Some(e.id), b, OfExp(e.test) + OfExp(e.body)) && Blocks(s1, st.fn, n)
    && s1.cur == n && |s1.blocks| == n + 3 && |st.blocks| <= n && held !! {n, n + 1, n + 2}
    && s1.blocks[n] == s1.blocks[n + 1] == s1.blocks[n + 2] == Block(st.fn, []) && Find(s1.loopEnd, e.id) == Some(n + 2)
    && Extends(st, s1, {e.id}) && LowerTables.Good(g.cx, g.w, st, s1, {e.id})
  }

  lemma LoopStartReady(g: World, e: Exp, st: St, held: set<int>, lp: Option<Id>, b: Env)
    requires e.WhileExp? && Ready(g, st, held, lp, b, OfExp(e)) && Legal(g, e, st.fn, lp, b)
    ensures var n := |st.blocks|;
      AtTest(g, e, st, Branch(NewBlocks(st).(loopEnd := st.loopEnd[e.id := n + 2]), Br(n), n), n, held, b)
  {
    hide WellFormed, Extends, Consistent, Moves, Ready, Legal, Free, OfExp, Distinct, Lowerable, Lifts;
    var n := |st.blocks|;
    var s1 := Branch(NewBlocks(st).(loopEnd := st.loopEnd[e.id := n + 2]), Br(n), n);
    LegalWhile(g, e, st.fn, lp, b);
    ReadyParts(g, st, held, lp, b, OfExp(e));
    ShapeLoopStart(e.id, st, held);
    TablesLoopStart(g.cx, g.w, e.id, st);
    FollowKnown(g, st, s1, held, lp, b, {e.id}, OfExp(e.test) + OfExp(e.body));
    ReadyAll(g, st, s1, held, held + {n + 1, n + 2}, lp, Some(e.id), b, OfExp(e), {e.id}, OfExp(e.test) + OfExp(e.body));
  }

  lemma ReadyAll(g: World, st: St, s: St, held: set<int>, held': set<int>, lp: Option<Id>, lp': Option<Id>, b: Env,
                 all: set<Id>, ids: set<Id>, ids': set<Id>)
    requires Ready(g, st, held, lp, b, all) && LowerTables.Good(g.cx, g.w, st, s, ids)
    requires WellFormed(s, held') && LoopKnown(s, lp', ids')
    requires Plain(s) && Declared(g, s, b) && New(g, s, b, ids') && HasHeader(s.protos, g.cx.main)
    ensures Ready(g, s, held', lp', b, ids')
  {}

  /** The body is about to be translated. */
  ghost predicate AtBody(g: World, e: Exp, st: St, s1: St, s4: St, n: nat, held: set<int>, b: Env)
    requires e.WhileExp?
  {
    && Ready(g, s4, held + {n + 2}, Some(e.id), b, OfExp(e.body)) && Blocks(s4, st.fn, n)
    && s4.cur == n + 1 && s4.blocks[n + 1].instrs == [] && s4.blocks[n + 2].instrs == []
    && Find(s4.loopEnd, e.id) == Some(n + 2) && s1.regs <= s4.regs
    && LowerTables.Good(g.cx, g.w, st, s4, {e.id} + OfExp(e.test))
  }

  /** The state of the builder after the test. */
  lemma LoopBodyState(g: World, e: Exp, st: St, s1: St, n: nat, held: set<int>, lp: Option<Id>, b: Env)
    requires e.WhileExp? && Ready(g, st, held, lp, b, OfExp(e)) && Legal(g, e, st.fn, lp, b)
    requires AtTest(g, e, st, s1, n, held, b)
    ensures var s3 := EmitTest(Lower(g.cx, e.test, s1)); var s4 := Branch(s3, CondBr(s3.value, n + 1, n + 2), n + 1);
      && Ready(g, s1, held + {n + 1, n + 2}, Some(e.id), b, OfExp(e.test))
      && WellFormed(s4, held + {n + 2}) && Blocks(s4, st.fn, n) && s4.cur == n + 1
      && s4.blocks[n + 1].instrs == [] && s4.blocks[n + 2].instrs == []
      && Find(s4.loopEnd, e.id) == Some(n + 2) && s1.regs <= s4.regs
      && LowerTables.Good(g.cx, g.w, st, s4, {e.id} + OfExp(e.test))
  {
    hide WellFormed, Extends, Consistent, Moves, Ready, Legal, Free, OfExp, Distinct, Lowerable, Lifts, Lower, LowerTables.Good;
    var t, h, lp' := OfExp(e.test), held + {n + 1, n + 2}, Some(e.id);
    LegalWhile(g, e, st.fn, lp, b);
    LegalParts(g, e, st.fn, lp, b);
    ReadyLess(g, s1, h, lp', b, t + OfExp(e.body), t);
    ReadyParts(g, st, held, lp, b, OfExp(e));
    ReadyParts(g, s1, h, lp', b, t);
    LoopTestShape(g, e, s1, n, held, b, st.fn);
    var s3 := EmitTest(Lower(g.cx, e.test, s1));
    ShapeLoopEnter(st, s1, s3, e.id, n, t, held);
    ExtendsAt(s1, s3, t, n + 1);
    TablesLoopTest(g.cx, g.w, e, st, s1, n);
  }

  lemma LoopBodyReady(g: World, e: Exp, st: St, s1: St, n: nat, held: set<int>, lp: Option<Id>, b: Env)
    requires e.WhileExp? && Ready(g, st, held, lp, b, OfExp(e)) && Legal(g, e, st.fn, lp, b)
    requires AtTest(g, e, st, s1, n, held, b)
    ensures var s3 := EmitTest(Lower(g.cx, e.test, s1));
      && Ready(g, s1, held + {n + 1, n + 2}, Some(e.id), b, OfExp(e.test))
      && AtBody(g, e, st, s1, Branch(s3, CondBr(s3.value, n + 1, n + 2), n + 1), n, held, b)
  {
    hide WellFormed, Extends, Consistent, Moves, Ready, Legal, Free, OfExp, Distinct, Lowerable, Lifts, Lower, LowerTables.Good,
         Declared, New, Plain;
    var t := OfExp(e.test);
    LegalWhile(g, e, st.fn, lp, b);
    LoopBodyState(g, e, st, s1, n, held, lp, b);
    var s3 := EmitTest(Lower(g.cx, e.test, s1));
    var s4 := Branch(s3, CondBr(s3.value, n + 1, n + 2), n + 1);
    FollowKnown(g, st, s4, held, lp, b, {e.id} + t, OfExp(e.body));
    ReadyAll(g, st, s4, held, held + {n + 2}, lp, Some(e.id), b, OfExp(e), {e.id} + t, OfExp(e.body));
  }

  lemma LoopTestShape(g: World, e: Exp, s1: St, n: nat, held: set<int>, b: Env, f: Id)
    requires e.WhileExp? && Ready(g, s1, held + {n + 1, n + 2}, Some(e.id), b, OfExp(e.test))
    requires Legal(g, e.test, s1.fn, Some(e.id), b)
    ensures var s3 := EmitTest(Lower(g.cx, e.test, s1));
      WellFormed(s3, held + {n + 1, n + 2}) && Extends(s1, s3, OfExp(e.test)) && s1.regs <= s3.regs
  {
    hide WellFormed, Extends, Consistent, Moves, Ready, Legal, Lower, OfExp;
    Lowered(g, e.test, s1, held + {n + 1, n + 2}, Some(e.id), b);
    var s2 := Lower(g.cx, e.test, s1);
    FineEmit(s1, s2, Arith(s2.regs, Ne, s2.value, ZERO), held + {n + 1, n + 2}, OfExp(e.test));
    GoodFn(g.cx, g.w, s1, s2, OfExp(e.test));
  }

  /** The end of the loop still waits. */
  lemma LoopEndReady(g: World, e: Exp, st: St, s1: St, s4: St, n: nat, held: set<int>, lp: Option<Id>, b: Env)
    requires e.WhileExp? && Legal(g, e, st.fn, lp, b) && AtBody(g, e, st, s1, s4, n, held, b) && s4.fn == st.fn
    ensures var s5 := Lower(g.cx, e.body, s4);
      && Done(g, s4, s5, held + {n + 2}, OfExp(e.body)) && s5.cur < |s5.blocks| && s5.cur != n + 2 < |s5.blocks|
      && s5.blocks[n + 2].instrs == [] && s4.regs <= s5.regs
  {
    hide WellFormed, Extends, Consistent, Moves, Ready, Legal, Lower, OfExp, LowerTables.Good;
    LegalWhile(g, e, st.fn, lp, b);
    Lowered(g, e.body, s4, held + {n + 2}, Some(e.id), b);
    var s5 := Lower(g.cx, e.body, s4);
    FineSizes(s4, s5, held + {n + 2}, OfExp(e.body));
    ExtendsAt(s4, s5, OfExp(e.body), n + 2);
    GoodFn(g.cx, g.w, s4, s5, OfExp(e.body));
  }
}
