/** Declarations: what is known after variables and functions have been translated. */
module LowerScopes {
  import opened Options
  import opened Ast
  import opened Nodes
  import opened Semantics
  import opened Cfg
  import opened Lowering
  import opened LowerShape
  import opened LowerTables
  import opened LowerReady

  // ----- functions in scope -----

  predicate InDecs(d: FunctionDec, ds: Decs) { ds.DCons? && (d == ds.head || InDecs(d, ds.tail)) }

  /** The header of a function lists its lifted variables and then its formals, each in order. */
  predicate HeaderOf(cx: Ctx, d: FunctionDec, p: Proto) {
    && p.fn == d.id && |p.params| == |Lifted(cx, d.id)| + |d.formals|
    && (forall k | 0 <= k < |Lifted(cx, d.id)| :: p.params[k] == Lifted(cx, d.id)[k])
    && forall k | 0 <= k < |d.formals| :: p.params[|Lifted(cx, d.id)| + k] == d.formals[k].id
  }

  lemma {:induction false} FormalIdsAre(fs: seq<Formal>)
    ensures |FormalIds(fs)| == |fs| && forall k | 0 <= k < |fs| :: FormalIds(fs)[k] == fs[k].id
    decreases |fs|
  {
    if fs != [] { FormalIdsAre(fs[1..]); }
  }

  /** One header for each function of the chunk, in the order of the chunk, after those before. */
  lemma {:induction false} HeadersExact(cx: Ctx, ds: Decs, st: St)
    ensures var r := LowerHeaders(cx, ds, st); st.protos <= r.protos && HeadersFrom(cx, ds, r.protos[|st.protos|..])
    decreases ds
  {
    if ds.DCons? {
      var d := ds.head;
      var p := Proto(d.id, Lifted(cx, d.id) + FormalIds(d.formals));
      var s1 := st.(protos := st.protos + [p]);
      FormalIdsAre(d.formals);
      HeadersExact(cx, ds.tail, s1);
      var r := LowerHeaders(cx, ds, st);
      assert st.protos <= s1.protos <= r.protos;
      assert r.protos[|st.protos|] == p && r.protos[|st.protos|..][1..] == r.protos[|s1.protos|..];
    }
  }

  predicate HeadersFrom(cx: Ctx, ds: Decs, ps: seq<Proto>) {
    if ds.DNil? then ps == [] else ps != [] && HeaderOf(cx, ds.head, ps[0]) && HeadersFrom(cx, ds.tail, ps[1..])
  }

  /** The body of d was translated from state st on, in the scope b of its chunk. */
  ghost predicate Compiled(g: World, d: FunctionDec, b: Env, st: St, held: set<int>)
    requires d.body.SomeExp?
  {
    var s0 := Open(d, st);
    var s1 := Prologue(g.cx, d, s0);
    var e := d.body.exp;
    && Find(g.p.entries, d.id) == Some(|st.blocks|) && d.id != g.cx.main
    && Ready(g, s1, held, None, Enter(d.formals, b), OfExp(e)) && s1.fn == d.id
    && Legal(g, e, d.id, None, Enter(d.formals, b)) && Within(g, LowerBody(g.cx, d, s0))
    && OwnsFormals(g.w, d.formals, d.id) && (forall x | x in Live(b) :: Owner(g.w, x) != d.id)
    && DistinctFormals(d.formals) && OfFormals(d.formals) !! Vars(b)
  }

  ghost predicate BodyOk(g: World, d: FunctionDec, b: Env)
    requires d.body.SomeExp?
  {
    exists st: St, held: set<int> :: Compiled(g, d, b, st, held)
  }

  /** Every function in scope is linked. */
  ghost predicate FunsOk(g: World, b: Env) {
    match b
    case Empty => true
    case VarB(_, _, _, rest) => FunsOk(g, rest)
    case FunB(ds, rest) =>
      (forall d | InDecs(d, ds) :: TypedDec(g, d, b) && (d.body.SomeExp? ==> BodyOk(g, d, b))) && FunsOk(g, rest)
  }

  // ----- function bodies -----

  lemma EnterFacts(fs: seq<Formal>, b: Env)
    requires DistinctFormals(fs) && OfFormals(fs) !! Vars(b) && Separate(b)
    ensures Separate(Enter(fs, b)) && Vars(Enter(fs, b)) <= Vars(b) + OfFormals(fs)
    ensures Live(b) <= Live(Enter(fs, b))
    ensures forall x | x in Live(Enter(fs, b)) :: x in Live(b) || IsFormal(x, fs)
    decreases |fs|
  {
    if fs != [] { EnterFacts(fs[1..], VarB(fs[0].id, fs[0].name, Some(0), b)); }
  }

  predicate IsFormal(x: Id, fs: seq<Formal>) { exists k | 0 <= k < |fs| :: fs[k].id == x }

  lemma {:induction false} FormalsBound(fs: seq<Formal>, k: nat, st: St)
    ensures var r := BindFormalSlots(fs, k, st);
      && r.entries == st.entries && r.fn == st.fn && r.protos == st.protos
      && (forall g, d | Local(st.locals, g, d) == Some(Slot(d)) :: Local(r.locals, g, d) == Some(Slot(d)))
      && (forall j | 0 <= j < |fs| :: Local(r.locals, st.fn, fs[j].id) == Some(Slot(fs[j].id)))
    decreases |fs|
  {
    if fs != [] {
      var s0 := Bind(st, st.fn, fs[0].id, Slot(fs[0].id));
      assert Local(s0.locals, st.fn, fs[0].id) == Some(Slot(fs[0].id));
      FormalsBound(fs[1..], k + 1, Emit(s0, Store(Param(k), Slot(fs[0].id))));
    }
  }

  lemma BindLiftedFacts(ds: seq<Id>, k: nat, st: St)
    ensures BindLifted(ds, k, st).entries == st.entries && BindLifted(ds, k, st).fn == st.fn
  {}

  lemma PrologueFacts(cx: Ctx, d: FunctionDec, st: St)
    ensures var r := Prologue(cx, d, st); r.entries == st.entries && r.fn == st.fn
    ensures var r := Prologue(cx, d, st);
      forall j | 0 <= j < |d.formals| :: Local(r.locals, st.fn, d.formals[j].id) == Some(Slot(d.formals[j].id))
  {
    var ds := Lifted(cx, d.id);
    BindLiftedFacts(ds, 0, st);
    FormalsBound(d.formals, |ds|, BindLifted(ds, 0, st));
  }

  /** The conditions on one function declaration. */
  ghost predicate LegalDec(g: World, d: FunctionDec, b: Env) {
    && DistinctDec(d) && LiftsDec(g.cx, g.w, d) && TypedDec(g, d, b)
    && (d.body.SomeExp? ==> Lowerable(g.cx, d.body.exp, None))
  }

  /** The body of d may be translated once d is entered. */
  lemma BodyReady(g: World, d: FunctionDec, st: St, held: set<int>, lp: Option<Id>, b: Env, ids: set<Id>)
    requires d.body.SomeExp? && LegalDec(g, d, b) && Ready(g, st, held, lp, b, ids) && OfDec(d) <= ids
    ensures var s1 := Prologue(g.cx, d, Open(d, st)); var b1 := Enter(d.formals, b);
      && Ready(g, s1, held + {st.cur}, None, b1, OfExp(d.body.exp)) && s1.fn == d.id
      && Legal(g, d.body.exp, d.id, None, b1)
  {
    var h := held + {st.cur};
    var s0 := Open(d, st);
    var s1 := Prologue(g.cx, d, s0);
    ShapeOpen(d, st, held);
    ShapePrologue(g.cx, d, s0, h);
    TablesPrologue(g.cx, g.w, d, st);
    PrologueFacts(g.cx, d, s0);
    BodyDeclared(g, d, st, held, lp, b, ids, s1);
    EnterFacts(d.formals, b);
  }

  lemma BodyDeclared(g: World, d: FunctionDec, st: St, held: set<int>, lp: Option<Id>, b: Env, ids: set<Id>, s1: St)
    requires d.body.SomeExp? && LegalDec(g, d, b) && Ready(g, st, held, lp, b, ids) && OfDec(d) <= ids
    requires Opened(d, st, s1)
    requires forall j | 0 <= j < |d.formals| :: Local(s1.locals, d.id, d.formals[j].id) == Some(Slot(d.formals[j].id))
    requires s1.entries == Open(d, st).entries
    ensures Declared(g, s1, Enter(d.formals, b)) && New(g, s1, Enter(d.formals, b), OfExp(d.body.exp))
  {
    hide WellFormed, Consistent;
    EnterFacts(d.formals, b);
    LiveVars(b);
    var b1 := Enter(d.formals, b);
    forall x | x in Live(b1)
      ensures Local(s1.locals, Owner(g.w, x), x) == Some(Own(g.cx, Owner(g.w, x), x)) && Owner(g.w, x) !in OfExp(d.body.exp)
    {
      if x in Live(b) { assert Owner(g.w, x) !in ids; }
      else { var j :| 0 <= j < |d.formals| && d.formals[j].id == x; }
    }
  }

  lemma ReadyFun(g: World, st: St, held: set<int>, lp: Option<Id>, b: Env, ds: Decs, ids: set<Id>)
    requires Ready(g, st, held, lp, b, ids)
    ensures Ready(g, st, held, lp, FunB(ds, b), ids)
  {}

  lemma DecCompiled(g: World, d: FunctionDec, st: St, held: set<int>, lp: Option<Id>, b: Env, ids: set<Id>)
    requires d.body.SomeExp? && LegalDec(g, d, b) && Ready(g, st, held, lp, b, ids) && OfDec(d) <= ids
    requires Within(g, LowerDec(g.cx, d, st))
    ensures Compiled(g, d, b, st, held + {st.cur})
  {
    hide WellFormed, Consistent, Declared, Typed, Lower, Extends, Lifts, Lowerable, Distinct;
    var s0 := Open(d, st);
    var s1 := Prologue(g.cx, d, s0);
    BodyReady(g, d, st, held, lp, b, ids);
    PrologueFacts(g.cx, d, s0);
    Lowered(g, d.body.exp, s1, held + {st.cur}, None, Enter(d.formals, b));
    var s2 := Lower(g.cx, d.body.exp, s1);
    assert Find(s2.entries, d.id) == Find(s1.entries, d.id) == Some(|st.blocks|);
    var s3 := LowerBody(g.cx, d, s0);
    assert s3.blocks == LowerDec(g.cx, d, st).blocks && s3.entries == LowerDec(g.cx, d, st).entries == s2.entries;
    assert Within(g, s3);
    assert Find(g.p.entries, d.id) == Some(s3.entries[d.id]);
  }

  lemma LegalDecsHead(g: World, ds: Decs, b: Env)
    requires ds.DCons? && LegalDecs(g, ds, b)
    ensures LegalDec(g, ds.head, b) && LegalDecs(g, ds.tail, b) && OfDec(ds.head) !! OfDecs(ds.tail)
    ensures OfDecs(ds) == OfDec(ds.head) + OfDecs(ds.tail)
  {}

  lemma LoweredDec(g: World, d: FunctionDec, st: St, held: set<int>, lp: Option<Id>, b: Env, ids: set<Id>)
    requires d.body.SomeExp? && LegalDec(g, d, b) && Ready(g, st, held, lp, b, ids) && OfDec(d) <= ids
    ensures Done(g, st, LowerDec(g.cx, d, st), held, OfDec(d))
  {
    hide WellFormed, Consistent, Declared, Typed, Lower, Extends, Moves, LowerDec;
    ShapeDec(g.cx, d, st, held);
    TablesDec(g.cx, g.w, d, st);
  }

  /** Every function of a chunk is linked. */
  lemma {:induction false} DecsCompiled(g: World, ds: Decs, st: St, held: set<int>, lp: Option<Id>, b: Env)
    requires LegalDecs(g, ds, b) && Ready(g, st, held, lp, b, OfDecs(ds)) && Within(g, LowerDecs(g.cx, ds, st))
    ensures forall d | InDecs(d, ds) :: TypedDec(g, d, b) && (d.body.SomeExp? ==> BodyOk(g, d, b))
    decreases ds
  {
    hide WellFormed, Consistent, Declared, Typed, Lower, Extends, Moves, LowerDec, Ready, LegalDecs, Within, Compiled,
         LowerTables.Good, Fine;
    if ds.DCons? {
      var d, rest := ds.head, ds.tail;
      LegalDecsHead(g, ds, b);
      var s1 := if d.body.SomeExp? then LowerDec(g.cx, d, st) else st;
      if d.body.SomeExp? {
        LoweredDec(g, d, st, held, lp, b, OfDecs(ds));
        Follow(g, st, s1, held, held, lp, b, OfDec(d), OfDecs(rest));
      } else {
        ReadyLess(g, st, held, lp, b, OfDecs(ds), OfDecs(rest));
      }
      LoweredDecs(g, rest, s1, held, lp, b);
      WithinGood(g, s1, LowerDecs(g.cx, rest, s1), held, lp, b, OfDecs(rest));
      if d.body.SomeExp? {
        DecCompiled(g, d, st, held, lp, b, OfDecs(ds));
        assert BodyOk(g, d, b);
      }
      DecsCompiled(g, rest, s1, held, lp, b);
    }
  }

  lemma LoweredDecs(g: World, ds: Decs, st: St, held: set<int>, lp: Option<Id>, b: Env)
    requires LegalDecs(g, ds, b) && Ready(g, st, held, lp, b, OfDecs(ds))
    ensures Done(g, st, LowerDecs(g.cx, ds, st), held, OfDecs(ds)) && Apart(st, LowerDecs(g.cx, ds, st))
  {
    hide WellFormed, Consistent, Declared, Typed, Lower, Extends, Moves, LowerDecs;
    ShapeDecs(g.cx, ds, st, held);
    TablesDecs(g.cx, g.w, ds, st);
  }

  lemma WithinGood(g: World, a: St, s: St, held: set<int>, lp: Option<Id>, b: Env, ids: set<Id>)
    requires Within(g, s) && Ready(g, a, held, lp, b, ids) && LowerTables.Good(g.cx, g.w, a, s, ids)
    ensures Within(g, a)
  {
    WithinBack(g, a, s, ids);
  }

  // ----- the chunks of a `let` -----

  lemma LegalChunk(g: World, ds: Decs, rest: Scope, f: Id, lp: Option<Id>, b: Env)
    requires LegalScope(g, With(FunctionChunk(ds), rest), f, lp, b)
    ensures LegalDecs(g, ds, FunB(ds, b)) && LegalScope(g, rest, f, lp, FunB(ds, b)) && OfDecs(ds) !! OfScope(rest)
    ensures OfScope(With(FunctionChunk(ds), rest)) == OfDecs(ds) + OfScope(rest)
  {}

  lemma LoweredScope(g: World, sc: Scope, st: St, held: set<int>, lp: Option<Id>, b: Env)
    requires Ready(g, st, held, lp, b, OfScope(sc)) && LegalScope(g, sc, st.fn, lp, b)
    ensures Done(g, st, LowerScope(g.cx, sc, st), held, OfScope(sc))
  {
    hide WellFormed, Extends, Consistent, Moves, Declared, LowerScope, TypedScope;
    ShapeScope(g.cx, sc, st, held, lp);
    TablesScope(g.cx, g.w, sc, st);
  }

  /** After the functions of a chunk. */
  lemma ChunkReady(g: World, ds: Decs, rest: Scope, st: St, held: set<int>, lp: Option<Id>, b: Env)
    requires var sc := With(FunctionChunk(ds), rest);
      Ready(g, st, held, lp, b, OfScope(sc)) && LegalScope(g, sc, st.fn, lp, b) && Within(g, LowerScope(g.cx, sc, st)) && FunsOk(g, b)
    ensures var b1 := FunB(ds, b); var s1 := LowerDecs(g.cx, ds, LowerHeaders(g.cx, ds, st));
      && Ready(g, s1, held, lp, b1, OfScope(rest)) && LegalScope(g, rest, s1.fn, lp, b1) && FunsOk(g, b1)
      && s1.cur == st.cur < |st.blocks| <= |s1.blocks| && s1.blocks[st.cur] == st.blocks[st.cur]
      && s1.fn == st.fn && st.regs <= s1.regs && (lp.Some? ==> Find(s1.loopEnd, lp.value) == Find(st.loopEnd, lp.value))
  {
    hide WellFormed, Consistent, Declared, Typed, Lower, Extends, Moves, LowerDecs, LegalDecs, LegalScope, Within, Lifts, Done,
         Ready;
    var b1 := FunB(ds, b);
    var s0 := LowerHeaders(g.cx, ds, st);
    var s1 := LowerDecs(g.cx, ds, s0);
    LegalChunk(g, ds, rest, st.fn, lp, b);
    ReadyFun(g, st, held, lp, b, ds, OfDecs(ds) + OfScope(rest));
    LegalArities(g, ds, b1);
    HeadersReady(g, ds, st, held, lp, b1, OfDecs(ds) + OfScope(rest));
    ReadyLess(g, s0, held, lp, b1, OfDecs(ds) + OfScope(rest), OfDecs(ds));
    LoweredDecs(g, ds, s0, held, lp, b1);
    Follow(g, s0, s1, held, held, lp, b1, OfDecs(ds), OfScope(rest));
    DoneFacts(g, s0, s1, held, lp, b1, OfDecs(ds), OfDecs(ds));
    LoweredScope(g, rest, s1, held, lp, b1);
    DoneWithin(g, s1, LowerScope(g.cx, rest, s1), held, lp, b1, OfScope(rest));
    DecsCompiled(g, ds, s0, held, lp, b1);
  }

  lemma LegalArities(g: World, ds: Decs, b: Env)
    requires LegalDecs(g, ds, b)
    ensures Arities(g.w, ds)
  {
    LiftsArities(g.cx, g.w, ds);
  }

  lemma HeadersReady(g: World, ds: Decs, st: St, held: set<int>, lp: Option<Id>, b: Env, ids: set<Id>)
    requires Ready(g, st, held, lp, b, ids) && Arities(g.w, ds)
    ensures var s0 := LowerHeaders(g.cx, ds, st);
      Ready(g, s0, held, lp, b, ids) && s0 == st.(protos := s0.protos)
  {
    hide Edge, PhiExact, HasPhi, Sealed, Unfinished;
    GoodHeaders(g.cx, g.w, ds, st);
    HeaderKept(st.protos, LowerHeaders(g.cx, ds, st).protos, g.cx.main);
  }

  lemma DoneFacts(g: World, a: St, s: St, held: set<int>, lp: Option<Id>, b: Env, ids: set<Id>, all: set<Id>)
    requires Ready(g, a, held, lp, b, all) && Done(g, a, s, held, ids) && ids <= all
    ensures s.fn == a.fn && a.regs <= s.regs && a.cur < |a.blocks|
    ensures lp.Some? ==> Find(s.loopEnd, lp.value) == Find(a.loopEnd, lp.value)
  {}

  lemma DoneWithin(g: World, a: St, s: St, held: set<int>, lp: Option<Id>, b: Env, ids: set<Id>)
    requires Within(g, s) && Ready(g, a, held, lp, b, ids) && Done(g, a, s, held, ids)
    ensures Within(g, a)
  {
    WithinGood(g, a, s, held, lp, b, ids);
  }

  /** The state in which the initialiser of d is translated. */
  function Before(cx: Ctx, d: VarDec, st: St): St {
    if st.fn == cx.main then st else Bind(st, st.fn, d.id, Slot(d.id))
  }

  function StoreInit(cx: Ctx, d: VarDec, st: St): Instr {
    Store(Lower(cx, d.init, Before(cx, d, st)).value, Own(cx, st.fn, d.id))
  }

  lemma LegalVar(g: World, d: VarDec, rest: Scope, f: Id, lp: Option<Id>, b: Env)
    requires LegalScope(g, With(VarChunk(d), rest), f, lp, b)
    ensures Legal(g, d.init, f, lp, VarB(d.id, d.name, None, b)) && LegalScope(g, rest, f, lp, VarB(d.id, d.name, Some(0), b))
    ensures !Voids(g.cx, d.init) && Owner(g.w, d.id) == f && DistinctVarDec(d) && OfVarDec(d) !! OfScope(rest)
    ensures OfExp(d.init) <= OfVarDec(d) && d.id in OfVarDec(d) && d.id !in OfExp(d.init)
    ensures OfScope(With(VarChunk(d), rest)) == OfVarDec(d) + OfScope(rest)
  {}

  lemma InitReady(g: World, d: VarDec, rest: Scope, st: St, held: set<int>, lp: Option<Id>, b: Env)
    requires var sc := With(VarChunk(d), rest); Ready(g, st, held, lp, b, OfScope(sc)) && LegalScope(g, sc, st.fn, lp, b)
    ensures Ready(g, Before(g.cx, d, st), held, lp, VarB(d.id, d.name, None, b), OfExp(d.init)) && d.id !in Vars(b)
  {
    hide WellFormed, Consistent, Moves, Extends, LegalScope, OfScope, OfVarDec, OfExp, LowerTables.Good, Declared, New, Ready;
    var s0 := Before(g.cx, d, st);
    LegalVar(g, d, rest, st.fn, lp, b);
    ReadyParts(g, st, held, lp, b, OfScope(With(VarChunk(d), rest)));
    SameCodeShape(st, s0, held);
    GoodRefl(g.cx, g.w, st, OfVarDec(d));
    GoodBind(g.cx, g.w, st, st, d.id, Own(g.cx, st.fn, d.id), OfVarDec(d));
    GoodConsistent(g, st, s0, OfVarDec(d));
    InitDeclared(g, d, rest, st, held, lp, b);
  }

  lemma InitDeclared(g: World, d: VarDec, rest: Scope, st: St, held: set<int>, lp: Option<Id>, b: Env)
    requires var sc := With(VarChunk(d), rest); Ready(g, st, held, lp, b, OfScope(sc)) && LegalScope(g, sc, st.fn, lp, b)
    requires var s0 := Before(g.cx, d, st); WellFormed(s0, held) && Consistent(g.cx, g.w, s0)
    ensures Ready(g, Before(g.cx, d, st), held, lp, VarB(d.id, d.name, None, b), OfExp(d.init)) && d.id !in Vars(b)
  {
    hide WellFormed, Consistent, LegalScope, OfScope, OfVarDec, OfExp;
    var s0 := Before(g.cx, d, st);
    LegalVar(g, d, rest, st.fn, lp, b);
    LiveVars(b);
    forall x | x in Live(b) ensures Local(s0.locals, Owner(g.w, x), x) == Local(st.locals, Owner(g.w, x), x) {
      assert x != d.id;
    }
  }

  lemma GoodConsistent(g: World, a: St, s: St, ids: set<Id>)
    requires LowerTables.Good(g.cx, g.w, a, s, ids)
    ensures Consistent(g.cx, g.w, s)
  {}

  lemma VarDeclared(g: World, d: VarDec, rest: Scope, st: St, held: set<int>, lp: Option<Id>, b: Env)
    requires var sc := With(VarChunk(d), rest); Ready(g, st, held, lp, b, OfScope(sc)) && LegalScope(g, sc, st.fn, lp, b)
    ensures Local(LowerVarDec(g.cx, d, st).locals, st.fn, d.id) == Some(Own(g.cx, st.fn, d.id))
  {
    hide WellFormed, Consistent, Extends, LegalScope, OfScope, OfVarDec, OfExp, Ready, Grows;
    if st.fn != g.cx.main {
      var s0 := Before(g.cx, d, st);
      LegalVar(g, d, rest, st.fn, lp, b);
      InitReady(g, d, rest, st, held, lp, b);
      Lowered(g, d.init, s0, held, lp, VarB(d.id, d.name, None, b));
      ReadyParts(g, s0, held, lp, VarB(d.id, d.name, None, b), OfExp(d.init));
      assert Local(s0.locals, st.fn, d.id) == Some(Slot(d.id));
    }
  }

  lemma LoweredVar(g: World, d: VarDec, st: St, held: set<int>, lp: Option<Id>, b: Env, rest: Scope)
    requires var sc := With(VarChunk(d), rest); Ready(g, st, held, lp, b, OfScope(sc)) && LegalScope(g, sc, st.fn, lp, b)
    ensures Done(g, st, LowerVarDec(g.cx, d, st), held, OfVarDec(d))
  {
    hide WellFormed, Extends, Consistent, Moves, Declared, LowerVarDec, Typed;
    LegalVar(g, d, rest, st.fn, lp, b);
    ReadyLess(g, st, held, lp, b, OfScope(With(VarChunk(d), rest)), OfVarDec(d));
    ShapeVarDec(g.cx, d, st, held, lp);
    TablesVarDec(g.cx, g.w, d, st);
  }

  lemma VarReady(g: World, d: VarDec, rest: Scope, st: St, held: set<int>, lp: Option<Id>, b: Env)
    requires var sc := With(VarChunk(d), rest); Ready(g, st, held, lp, b, OfScope(sc)) && LegalScope(g, sc, st.fn, lp, b)
    ensures Ready(g, LowerVarDec(g.cx, d, st), held, lp, VarB(d.id, d.name, Some(0), b), OfScope(rest))
  {
    hide WellFormed, Consistent, Extends, Moves, LegalScope, OfScope, OfVarDec, OfExp, LowerTables.Good, LowerVarDec;
    var s2 := LowerVarDec(g.cx, d, st);
    LegalVar(g, d, rest, st.fn, lp, b);
    LoweredVar(g, d, st, held, lp, b, rest);
    Follow(g, st, s2, held, held, lp, b, OfVarDec(d), OfScope(rest));
    VarDeclared(g, d, rest, st, held, lp, b);
  }

  /** The final code holds the initialiser, the store and the rest. */
  lemma VarWithin(g: World, d: VarDec, rest: Scope, st: St, held: set<int>, lp: Option<Id>, b: Env)
    requires var sc := With(VarChunk(d), rest);
      Ready(g, st, held, lp, b, OfScope(sc)) && LegalScope(g, sc, st.fn, lp, b) && Within(g, LowerScope(g.cx, sc, st))
    ensures var s0 := Before(g.cx, d, st); var s1 := Lower(g.cx, d.init, s0); var s2 := LowerVarDec(g.cx, d, st);
      && Within(g, s1) && s2.blocks == Emit(s1, StoreInit(g.cx, d, st)).blocks && s2.cur == s1.cur && s2.fn == s1.fn == st.fn
      && Grows(s2.blocks, g.p.blocks) && st.regs <= s1.regs == s2.regs
      && (lp.Some? ==> Find(s2.loopEnd, lp.value) == Find(st.loopEnd, lp.value))
  {
    hide WellFormed, Consistent, Extends, Moves, LegalScope, OfScope, OfVarDec, OfExp, LowerTables.Good, Ready, Lower, Grows, Within;
    var b1, b2 := VarB(d.id, d.name, None, b), VarB(d.id, d.name, Some(0), b);
    var s0 := Before(g.cx, d, st);
    var s1 := Lower(g.cx, d.init, s0);
    var s2 := LowerVarDec(g.cx, d, st);
    LegalVar(g, d, rest, st.fn, lp, b);
    InitReady(g, d, rest, st, held, lp, b);
    Lowered(g, d.init, s0, held, lp, b1);
    DoneFacts(g, s0, s1, held, lp, b1, OfExp(d.init), OfExp(d.init));
    VarReady(g, d, rest, st, held, lp, b);
    LoweredScope(g, rest, s2, held, lp, b2);
    DoneWithin(g, s2, LowerScope(g.cx, rest, s2), held, lp, b2, OfScope(rest));
    GrowsEmit(s1, StoreInit(g.cx, d, st));
    WithinGrows(g, s2);
    WithinSame(g, s1, s2);
  }
}
