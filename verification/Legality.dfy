/** The passes before the translator establish what it relies on: a tree that is bound without
    errors, whose values are used only where there is one, and whose lifted sets the collector
    computed, is a legal program. */
module Legality {
  import opened Options
  import opened Ast
  import opened Nodes
  import opened Semantics
  import opened Binder
  import opened Binding
  import opened Lowering
  import opened LowerShape
  import opened LowerTables
  import opened RenameBind
  import opened RenameSim
  import opened Lifting
  import LowerReady
  import LowerMain
  import Escapes

  type World = LowerReady.World

  // ----- what the type checker adds to the binder -----

  /** Values are used only where there is one; the variables u have none yet.  inLoop tells whether
      there is a loop to break in the current function. */
  predicate Checked(g: World, e: Exp, u: set<Symbol>, inLoop: bool) {
    match e
    case IntExp(_) => true
    case VarExp(_, x) => x !in u
    case OpExp(l, _, r) => Checked(g, l, u, inLoop) && !Voids(g.cx, l) && Checked(g, r, u, inLoop) && !Voids(g.cx, r)
    case SeqExp(es) => CheckedAll(g, es, u, inLoop)
    case AssignExp(_, x, r) => x !in u && Checked(g, r, u, inLoop) && !Voids(g.cx, r)
    case IfExp(c, t, f) =>
      && Checked(g, c, u, inLoop) && !Voids(g.cx, c) && Checked(g, t, u, inLoop) && (f.SomeExp? ==> Checked(g, f.exp, u, inLoop))
      && (!Voids(g.cx, t) ==> f.SomeExp? && !Voids(g.cx, f.exp))
    case WhileExp(_, c, b) => Checked(g, c, u, true) && !Voids(g.cx, c) && Checked(g, b, u, true)
    case ForExp(_, _, _, _) => false
    case BreakExp(id) => inLoop && id in g.cx.links
    case CallExp(_, _, args) => ValuesChecked(g, args, u, inLoop)
    case LetExp(sc) => CheckedScope(g, sc, u, inLoop)
  }

  predicate CheckedAll(g: World, es: Exps, u: set<Symbol>, inLoop: bool) {
    es.ECons? ==> Checked(g, es.head, u, inLoop) && CheckedAll(g, es.tail, u, inLoop)
  }

  predicate ValuesChecked(g: World, es: Exps, u: set<Symbol>, inLoop: bool) {
    es.ECons? ==> Checked(g, es.head, u, inLoop) && !Voids(g.cx, es.head) && ValuesChecked(g, es.tail, u, inLoop)
  }

  predicate CheckedScope(g: World, sc: Scope, u: set<Symbol>, inLoop: bool) {
    match sc
    case In(b) => Checked(g, b, u, inLoop)
    case With(VarChunk(d), rest) =>
      Checked(g, d.init, u + {d.name}, inLoop) && !Voids(g.cx, d.init) && CheckedScope(g, rest, u - {d.name}, inLoop)
    case With(FunctionChunk(ds), rest) => Repeats(ds, {}) == 0 && CheckedDecs(g, ds, u) && CheckedScope(g, rest, u, inLoop)
    case With(TypeChunk(_), rest) => CheckedScope(g, rest, u, inLoop)
  }

  predicate CheckedDecs(g: World, ds: Decs, u: set<Symbol>) {
    ds.DCons? ==> CheckedDec(g, ds.head, u) && CheckedDecs(g, ds.tail, u)
  }

  /** The primitives are the functions without a body. */
  predicate CheckedDec(g: World, d: FunctionDec, u: set<Symbol>) {
    && (d.id in g.cx.voids <==> d.result.None?)
    && Find(g.p.primitives, d.id) == (if d.body.NoExp? then Some(d.name) else None)
    && (d.body.NoExp? ==> Lifted(g.cx, d.id) == [])
    && (d.body.SomeExp? ==>
          Checked(g, d.body.exp, u - FormalNames(d.formals), false) && (d.result.Some? ==> !Voids(g.cx, d.body.exp)))
  }

  function FormalNames(fs: seq<Formal>): set<Symbol> { set k | 0 <= k < |fs| :: fs[k].name }

  // ----- scopes -----

  /** The scope n is that of the environment b; only the variables u have no value, and every
      function has as many formals as recorded. */
  ghost predicate InScope(g: World, n: Names, b: Env, u: set<Symbol>) {
    && (forall x :: Find(n.vars, x) == LowerReady.VarId(b, x))
    && (forall x | FindVar(b, x) == Some(None) :: x in u)
    && (forall f :: Find(n.funs, f) == FunHolder(b, f))
    && (forall f | FindFun(b, f).Some? :: Arity(g.w, FindFun(b, f).value.0.id) == |FindFun(b, f).value.0.formals|)
  }

  lemma {:induction false} IdFound(b: Env, x: Symbol)
    ensures LowerReady.VarId(b, x) == Holder(b, x) && (LowerReady.VarId(b, x).Some? <==> FindVar(b, x).Some?)
    decreases b
  {
    match b
    case Empty =>
    case VarB(_, _, _, rest) => IdFound(rest, x);
    case FunB(_, rest) => IdFound(rest, x);
  }

  lemma UseSees(g: World, n: Names, b: Env, u: set<Symbol>, id: Id, x: Symbol)
    requires InScope(g, n, b, u) && id in g.cx.links && Find(g.cx.links, id) == Find(n.vars, x) && x !in u
    ensures LowerReady.Sees(g.cx, b, id, x)
  {
    IdFound(b, x);
  }

  lemma ScopeVar(g: World, n: Names, b: Env, u: set<Symbol>, id: Id, x: Symbol)
    requires InScope(g, n, b, u)
    ensures InScope(g, PutVar(n, x, id), VarB(id, x, None, b), u + {x})
    ensures InScope(g, PutVar(n, x, id), VarB(id, x, Some(0), b), u - {x})
  {}

  lemma {:induction false} ScopeFormals(g: World, n: Names, b: Env, u: set<Symbol>, fs: seq<Formal>)
    requires InScope(g, n, b, u)
    ensures InScope(g, PutFormals(fs, n), LowerReady.Enter(fs, b), u - FormalNames(fs))
    decreases |fs|
  {
    if fs == [] {
      assert u - FormalNames(fs) == u;
    } else {
      ScopeVar(g, n, b, u, fs[0].id, fs[0].name);
      ScopeFormals(g, PutVar(n, fs[0].name, fs[0].id), VarB(fs[0].id, fs[0].name, Some(0), b), u - {fs[0].name}, fs[1..]);
      assert FormalNames(fs) == {fs[0].name} + FormalNames(fs[1..]) by {
        forall x | x in FormalNames(fs) ensures x in {fs[0].name} + FormalNames(fs[1..]) {
          var k :| 0 <= k < |fs| && fs[k].name == x;
          if k > 0 { assert fs[1..][k - 1].name == x; }
        }
        forall x | x in FormalNames(fs[1..]) ensures x in FormalNames(fs) {
          var k :| 0 <= k < |fs[1..]| && fs[1..][k].name == x;
          assert fs[k + 1].name == x;
        }
      }
      assert u - {fs[0].name} - FormalNames(fs[1..]) == u - FormalNames(fs);
    }
  }

  lemma {:induction false} ArityFound(g: World, ds: Decs, f: Symbol)
    requires OwnedDecs(g.cx, g.w, ds) && FindDec(ds, f).Some?
    ensures Arity(g.w, FindDec(ds, f).value.id) == |FindDec(ds, f).value.formals|
    decreases ds
  {
    if ds.head.name != f { ArityFound(g, ds.tail, f); }
  }

  lemma ScopeChunk(g: World, n: Names, b: Env, u: set<Symbol>, ds: Decs)
    requires InScope(g, n, b, u) && Repeats(ds, {}) == 0 && OwnedDecs(g.cx, g.w, ds)
    ensures InScope(g, AddFirst(ds, n, {}), FunB(ds, b), u) && InScope(g, PutAll(ds, AddFirst(ds, n, {})), FunB(ds, b), u)
    ensures AddFirst(ds, n, {}).loop == PutAll(ds, AddFirst(ds, n, {})).loop == n.loop
  {
    AddFirstAll(ds, n, {});
    var n1 := PutAll(ds, n);
    PutAllLoop(ds, n);
    PutAllLoop(ds, n1);
    PutAllFinds(ds, n, {}, "");
    PutAllFinds(ds, n1, {}, "");
    forall f
      ensures Find(n1.funs, f) == FunHolder(FunB(ds, b), f) && Find(PutAll(ds, n1).funs, f) == Find(n1.funs, f)
      ensures FindFun(FunB(ds, b), f).Some? ==>
        Arity(g.w, FindFun(FunB(ds, b), f).value.0.id) == |FindFun(FunB(ds, b), f).value.0.formals|
    {
      PutAllFinds(ds, n, {}, f);
      PutAllFinds(ds, n1, {}, f);
      if FindDec(ds, f).Some? { ArityFound(g, ds, f); }
    }
  }

  lemma PutAllLoop(ds: Decs, n: Names)
    ensures PutAll(ds, n).loop == n.loop
  {}

  lemma ScopeTypes(g: World, n: Names, b: Env, u: set<Symbol>, ts: seq<TypeDec>)
    requires InScope(g, n, b, u)
    ensures InScope(g, PutAllTypes(ts, AddFirstTypes(ts, n, {})), b, u) && PutAllTypes(ts, AddFirstTypes(ts, n, {})).loop == n.loop
  {
    AddFirstTypesVars(ts, n, {});
    AddFirstTypesLoop(ts, n, {});
    PutAllTypesVars(ts, AddFirstTypes(ts, n, {}));
    PutAllTypesLoop(ts, AddFirstTypes(ts, n, {}));
  }

  lemma AddFirstTypesLoop(ts: seq<TypeDec>, n: Names, seen: set<Symbol>)
    ensures AddFirstTypes(ts, n, seen).loop == n.loop
  {}

  lemma PutAllTypesLoop(ts: seq<TypeDec>, n: Names)
    ensures PutAllTypes(ts, n).loop == n.loop
  {}

  // ----- bound and checked trees -----

  /** The loop that a break may leave. */
  function Loop(n: Names, inLoop: bool): Option<Id> { if inLoop then n.loop else None }

  lemma {:induction false} Typing(g: World, e: Exp, n: Names, b: Env, u: set<Symbol>, inLoop: bool, f: Id)
    requires Linked(e, n, g.cx.links) && Owned(g.cx, g.w, e, f) && Checked(g, e, u, inLoop) && InScope(g, n, b, u)
    ensures LowerReady.Typed(g, e, b) && Lowerable(g.cx, e, Loop(n, inLoop))
    decreases e
  {
    match e
    case IntExp(_) =>
    case VarExp(id, x) => UseSees(g, n, b, u, id, x);
    case OpExp(l, _, r) =>
      hide InScope;
      Typing(g, l, n, b, u, inLoop, f);
      Typing(g, r, n, b, u, inLoop, f);
    case SeqExp(es) => hide InScope; TypingAll(g, es, n, b, u, inLoop, f);
    case AssignExp(id, x, r) =>
      UseSees(g, n, b, u, id, x);
      hide InScope;
      Typing(g, r, n, b, u, inLoop, f);
    case IfExp(c, t, els) =>
      hide InScope;
      Typing(g, c, n, b, u, inLoop, f);
      Typing(g, t, n, b, u, inLoop, f);
      if els.SomeExp? { Typing(g, els.exp, n, b, u, inLoop, f); }
    case WhileExp(id, c, body) =>
      assert InScope(g, Enter(n, id), b, u);
      hide InScope;
      Typing(g, c, Enter(n, id), b, u, true, f);
      Typing(g, body, Enter(n, id), b, u, true, f);
    case BreakExp(_) =>
    case CallExp(id, x, args) =>
      assert FunHolder(b, x) == Some(g.cx.links[id]);
      hide InScope;
      TypingArgs(g, args, n, b, u, inLoop, f);
    case LetExp(sc) => hide InScope; TypingScope(g, sc, n, b, u, inLoop, f);
  }

  lemma {:induction false} TypingAll(g: World, es: Exps, n: Names, b: Env, u: set<Symbol>, inLoop: bool, f: Id)
    requires AllLinked(es, n, g.cx.links) && OwnedAll(g.cx, g.w, es, f) && CheckedAll(g, es, u, inLoop) && InScope(g, n, b, u)
    ensures LowerReady.TypedAll(g, es, b) && LowerableAll(g.cx, es, Loop(n, inLoop))
    decreases es
  {
    hide InScope;
    if es.ECons? {
      Typing(g, es.head, n, b, u, inLoop, f);
      TypingAll(g, es.tail, n, b, u, inLoop, f);
    }
  }

  lemma {:induction false} TypingArgs(g: World, es: Exps, n: Names, b: Env, u: set<Symbol>, inLoop: bool, f: Id)
    requires AllLinked(es, n, g.cx.links) && OwnedAll(g.cx, g.w, es, f) && ValuesChecked(g, es, u, inLoop) && InScope(g, n, b, u)
    ensures LowerReady.ValuesAll(g, es, b) && LowerableAll(g.cx, es, Loop(n, inLoop))
    decreases es
  {
    hide InScope;
    if es.ECons? {
      Typing(g, es.head, n, b, u, inLoop, f);
      TypingArgs(g, es.tail, n, b, u, inLoop, f);
    }
  }

  lemma {:induction false} TypingScope(g: World, sc: Scope, n: Names, b: Env, u: set<Symbol>, inLoop: bool, f: Id)
    requires ScopeLinked(sc, n, g.cx.links) && OwnedScope(g.cx, g.w, sc, f) && CheckedScope(g, sc, u, inLoop) && InScope(g, n, b, u)
    ensures LowerReady.TypedScope(g, sc, b) && LowerableScope(g.cx, sc, Loop(n, inLoop))
    decreases sc
  {
    hide InScope;
    match sc
    case In(e) => Typing(g, e, n, b, u, inLoop, f);
    case With(VarChunk(d), rest) =>
      var n' := PutVar(n, d.name, d.id);
      ScopeVar(g, n, b, u, d.id, d.name);
      Typing(g, d.init, n', VarB(d.id, d.name, None, b), u + {d.name}, inLoop, f);
      TypingScope(g, rest, n', VarB(d.id, d.name, Some(0), b), u - {d.name}, inLoop, f);
    case With(FunctionChunk(ds), rest) =>
      ScopeChunk(g, n, b, u, ds);
      ChunkEntered(g, n, b, u, ds);
      TypingDecs(g, ds, AddFirst(ds, n, {}), FunB(ds, b), u);
      TypingScope(g, rest, PutAll(ds, AddFirst(ds, n, {})), FunB(ds, b), u, inLoop, f);
    case With(TypeChunk(ts), rest) =>
      ScopeTypes(g, n, b, u, ts);
      TypingScope(g, rest, PutAllTypes(ts, AddFirstTypes(ts, n, {})), b, u, inLoop, f);
  }

  lemma ChunkEntered(g: World, n: Names, b: Env, u: set<Symbol>, ds: Decs)
    requires InScope(g, AddFirst(ds, n, {}), FunB(ds, b), u) && Repeats(ds, {}) == 0
    ensures Entered(ds, AddFirst(ds, n, {}).funs)
  {
    var m := AddFirst(ds, n, {}).funs;
    forall f | FindDec(ds, f).Some? ensures Find(m, f) == Some(FindDec(ds, f).value.id) {
      assert Find(m, f) == FunHolder(FunB(ds, b), f);
    }
    AllEntered(ds, {}, m);
  }

  lemma {:induction false} TypingDecs(g: World, ds: Decs, n: Names, b: Env, u: set<Symbol>)
    requires DecsLinked(ds, n, g.cx.links) && OwnedDecs(g.cx, g.w, ds) && CheckedDecs(g, ds, u) && InScope(g, n, b, u)
    requires Entered(ds, n.funs)
    ensures LowerReady.TypedDecs(g, ds, b) && LowerableDecs(g.cx, ds)
    decreases ds
  {
    hide InScope;
    if ds.DCons? {
      var d := ds.head;
      assert PutFun(n, d.name, d.id) == n;
      if d.body.SomeExp? {
        ScopeFormals(g, n, b, u, d.formals);
        Typing(g, d.body.exp, PutFormals(d.formals, n), LowerReady.Enter(d.formals, b), u - FormalNames(d.formals), false, d.id);
      }
      TypingDecs(g, ds.tail, n, b, u);
    }
  }

  // ----- whole programs -----

  /** The primitives and `_main` as the binder and the collector see them. */
  function WithMain(prims: Decs, m: FunctionDec): Escapes.Program {
    Escapes.Chunk(prims, Escapes.Chunk(DCons(m, DNil), Escapes.End))
  }

  /** What the collector computed. */
  ghost predicate Exact(g: World, prims: Decs, m: FunctionDec, sets: Escapes.Sets, escapable: set<Id>) {
    var p := WithMain(prims, m);
    var calls, uses := Escapes.ProgramCalls(p, g.cx.links), Escapes.ProgramUses(p, g.cx.links, escapable);
    && Ordered(g.cx, sets) && Flagged(g.cx, g.w, escapable, Escapes.ProgramUses(p, g.cx.links, g.cx.links.Values))
    && Escapes.Closed(sets, calls, uses) && forall f, x :: x in Escapes.Of(sets, f) <==> Escapes.Needs(calls, uses, f, x)
  }

  /** A program that the binder linked without errors, that the type checker accepted, and whose
      lifted sets the collector computed, is legal for the translator. */
  lemma PassesEstablish(g: World, prims: Decs, m: FunctionDec, sets: Escapes.Sets, escapable: set<Id>)
    requires m.body.SomeExp? && m.formals == [] && m.id == g.cx.main && LowerMain.Bodyless(prims)
    requires Distinct(m.body.exp) && m.id !in OfExp(m.body.exp)
    requires var sc := With(FunctionChunk(prims), In(m.body.exp));
      ScopeLinked(sc, CLOSED, g.cx.links) && OwnedScope(g.cx, g.w, sc, m.id) && CheckedScope(g, sc, {}, false)
    requires m.result.Some? ==> !Voids(g.cx, m.body.exp)
    requires Exact(g, prims, m, sets, escapable)
    ensures LowerMain.LegalMain(g, prims, m)
  {
    var sc := With(FunctionChunk(prims), In(m.body.exp));
    assert InScope(g, CLOSED, Empty, {});
    hide InScope, Distinct, LowerReady.Typed, Lifts, Lowerable, Linked, Owned, Checked;
    TypingScope(g, sc, CLOSED, Empty, {}, false, m.id);
    CollectorServesTranslator(g.cx, g.w, prims, m, sets, escapable);
  }
}
