/** Whole programs: the code compiled for `_main` does what its body means. */
module LowerMain {
  import opened Options
  import opened Ast
  import opened Nodes
  import opened Semantics
  import opened Cfg
  import opened Lowering
  import opened LowerShape
  import opened LowerTables
  import opened LowerReady
  import opened LowerScopes
  import opened LowerRun
  import opened LowerSim
  import Int32

  /** The headers of the primitives and of `_main`, and the entry block of `_main`. */
  function Begin(cx: Ctx, prims: Decs, m: FunctionDec): St {
    var st := St([Block(m.id, [])], 0, 0, NoValue, m.id, map[], map[], [], map[m.id := 0]);
    LowerHeaders(cx, DCons(m, DNil), LowerHeaders(cx, prims, st))
  }

  function Compile(cx: Ctx, prims: Decs, m: FunctionDec): St
    requires m.body.SomeExp?
  {
    LowerBody(cx, m, Begin(cx, prims, m))
  }

  /** The compiled program and the primitives it is linked with. */
  function LinkedCode(cx: Ctx, prims: Decs, m: FunctionDec, primitives: map<Id, Symbol>): Code
    requires m.body.SomeExp?
  {
    var st := Compile(cx, prims, m);
    Code(st.blocks, st.entries, primitives)
  }

  predicate Bodyless(ds: Decs) { ds.DCons? ==> ds.head.body.NoExp? && Bodyless(ds.tail) }

  /** What the passes before the translator established: `_main` has no formals and is not called,
      its tree is bound, typed, free of `for`, and its lifted sets are closed. */
  ghost predicate LegalMain(g: World, prims: Decs, m: FunctionDec) {
    && m.body.SomeExp? && m.formals == [] && m.id == g.cx.main && m.id !in OfExp(m.body.exp)
    && Bodyless(prims) && TypedDecs(g, prims, FunB(prims, Empty))
    && Legal(g, m.body.exp, m.id, None, FunB(prims, Empty))
    && (m.result.Some? ==> !Voids(g.cx, m.body.exp))
  }

  function Launch(args: seq<Val>, m: Id): Config {
    Config(Frame(m, 0, args, map[], 0, 0, 0), Bottom, map[], 1, [])
  }

  lemma HeadersOf(cx: Ctx, ds: Decs, st: St)
    ensures var r := LowerHeaders(cx, ds, st); r == st.(protos := r.protos) && st.protos <= r.protos
  {
    match ds
    case DNil =>
    case DCons(d, rest) =>
      var s1 := st.(protos := st.protos + [Proto(d.id, Lifted(cx, d.id) + FormalIds(d.formals))]);
      HeadersOf(cx, rest, s1);
      assert st.protos <= s1.protos <= LowerHeaders(cx, ds, st).protos;
  }

  lemma BeginShape(cx: Ctx, prims: Decs, m: FunctionDec)
    ensures var st := Begin(cx, prims, m);
      && st == St([Block(m.id, [])], 0, 0, NoValue, m.id, map[], map[], st.protos, map[m.id := 0])
      && HasHeader(st.protos, m.id) && WellFormed(st, {})
  {
    var s0 := St([Block(m.id, [])], 0, 0, NoValue, m.id, map[], map[], [], map[m.id := 0]);
    var s1 := LowerHeaders(cx, prims, s0);
    var st := Begin(cx, prims, m);
    HeadersOf(cx, prims, s0);
    HeadersOf(cx, DCons(m, DNil), s1);
    assert LowerHeaders(cx, DNil, s1.(protos := s1.protos + [Proto(m.id, Lifted(cx, m.id) + FormalIds(m.formals))])) == st;
    assert st.protos[|s1.protos|].fn == m.id;
  }

  lemma OnlyFunctions(ds: Decs)
    ensures var b := FunB(ds, Empty); Vars(b) == Live(b) == {} && Separate(b) && Blank(b) == b
  {
    assert Vars(Empty) == Live(Empty) == {} && Separate(Empty) && Blank(Empty) == Empty;
  }

  lemma TypedArities(g: World, ds: Decs, b: Env)
    requires TypedDecs(g, ds, b)
    ensures Arities(g.w, ds)
  {}

  lemma BeginHeaded(g: World, prims: Decs, m: FunctionDec)
    requires TypedDecs(g, prims, FunB(prims, Empty)) && m.id == g.cx.main
    ensures Headed(g.cx, g.w, Begin(g.cx, prims, m).protos)
  {
    var s0 := St([Block(m.id, [])], 0, 0, NoValue, m.id, map[], map[], [], map[m.id := 0]);
    TypedArities(g, prims, FunB(prims, Empty));
    HeadersHeaded(g.cx, g.w, prims, s0);
    var s1 := LowerHeaders(g.cx, prims, s0);
    var p := Proto(m.id, Lifted(g.cx, m.id) + FormalIds(m.formals));
    assert Begin(g.cx, prims, m).protos == s1.protos + [p] by {
      assert LowerHeaders(g.cx, DCons(m, DNil), s1) == LowerHeaders(g.cx, DNil, s1.(protos := s1.protos + [p]));
    }
  }

  lemma MainReady(g: World, prims: Decs, m: FunctionDec)
    requires LegalMain(g, prims, m)
    ensures Ready(g, Prologue(g.cx, m, Begin(g.cx, prims, m)), {}, None, FunB(prims, Empty), OfExp(m.body.exp))
    ensures Prologue(g.cx, m, Begin(g.cx, prims, m)).blocks == [Block(m.id, [])]
    ensures Prologue(g.cx, m, Begin(g.cx, prims, m)).cur == 0 && Prologue(g.cx, m, Begin(g.cx, prims, m)).fn == m.id
  {
    hide Legal, TypedDecs;
    var st := Begin(g.cx, prims, m);
    var ds := Lifted(g.cx, m.id);
    BeginShape(g.cx, prims, m);
    BindLiftedOnlyBinds(ds, 0, st);
    var s1 := BindLifted(ds, 0, st);
    assert s1 == Prologue(g.cx, m, st);
    SameCodeShape(st, s1, {});
    TablesLifted(g.cx, g.w, ds, 0, st);
    OnlyFunctions(prims);
    BeginHeaded(g, prims, m);
    assert Consistent(g.cx, g.w, s1);
    assert s1.entries.Keys == {m.id};
    assert New(g, s1, FunB(prims, Empty), OfExp(m.body.exp));
  }

  /** The primitives are in scope of `_main`. */
  lemma PrimsOk(g: World, ds: Decs, b: Env)
    requires Bodyless(ds) && TypedDecs(g, ds, b)
    ensures forall d | InDecs(d, ds) :: TypedDec(g, d, b) && d.body.NoExp?
  {}

  /** The machine starts in a state that matches the start of the source program. */
  lemma LaunchPoised(g: World, prims: Decs, m: FunctionDec, args: seq<Val>)
    requires LegalMain(g, prims, m)
    ensures Poised(g, State(FunB(prims, Empty), []), Launch(args, m.id), Prologue(g.cx, m, Begin(g.cx, prims, m)), {}, None,
                   FunB(prims, Empty), map[], OfExp(m.body.exp))
  {
    hide Legal, TypedDecs;
    var b := FunB(prims, Empty);
    MainReady(g, prims, m);
    PrimsOk(g, prims, b);
    OnlyFunctions(prims);
    hide Ready;
    assert Cells(Empty, map[], map[]);
    assert FunsOk(g, Empty);
    assert FunsOk(g, b);
  }

  /** The whole code is a well-formed graph, and its tables and calls are consistent. */
  lemma CompiledSound(g: World, prims: Decs, m: FunctionDec)
    requires LegalMain(g, prims, m)
    ensures var s2 := Lower(g.cx, m.body.exp, Prologue(g.cx, m, Begin(g.cx, prims, m)));
      WellFormed(s2, {}) && Consistent(g.cx, g.w, s2)
  {
    hide Legal, TypedDecs, Lower, Prologue;
    MainReady(g, prims, m);
    assert OfExp(m.body.exp) + {} == OfExp(m.body.exp);
    First(g, m.body.exp, {}, Prologue(g.cx, m, Begin(g.cx, prims, m)), {}, None, FunB(prims, Empty));
  }

  /** What the source program does after some fuel. */
  function Source(o: Oracle, prims: Decs, m: FunctionDec, fuel: nat): Outcome
    requires m.body.SomeExp?
  {
    Eval(o, m.body.exp, State(FunB(prims, Empty), []), fuel)
  }

  /** The value and the calls of primitives that a run of the source shows. */
  predicate Yields(r: Outcome, m: FunctionDec, v: Val, trace: seq<Event>) {
    r.Normal? && v == VInt(if m.result.None? then 0 else r.value) && trace == r.s.trace
  }

  /** The body of `_main` within the linked code. */
  lemma MainWithin(g: World, prims: Decs, m: FunctionDec, primitives: map<Id, Symbol>)
    requires m.body.SomeExp? && g.p == LinkedCode(g.cx, prims, m, primitives)
    ensures var s2 := Lower(g.cx, m.body.exp, Prologue(g.cx, m, Begin(g.cx, prims, m)));
      Within(g, s2) && Grows(Emit(s2, if m.result.None? then RetVoid else Ret(s2.value)).blocks, g.p.blocks)
  {
    hide Lower, Prologue;
    var s2 := Lower(g.cx, m.body.exp, Prologue(g.cx, m, Begin(g.cx, prims, m)));
    var i := if m.result.None? then RetVoid else Ret(s2.value);
    GrowsSelf(Emit(s2, i).blocks);
    GrowsEmit(s2, i);
  }

  /** If the source program ends normally then so does the compiled one, after the same calls of
      primitives with the same arguments, and with the same value. */
  lemma CompiledCorrectly(cx: Ctx, w: Info, prims: Decs, m: FunctionDec, primitives: map<Id, Symbol>, o: Oracle, args: seq<Val>,
                          fuel: nat)
    requires m.body.SomeExp? && LegalMain(World(cx, w, LinkedCode(cx, prims, m, primitives), o), prims, m)
    ensures var r := Source(o, prims, m, fuel);
      && !r.Broke?
      && (r.Normal? ==> Ends(LinkedCode(cx, prims, m, primitives), o, Launch(args, m.id),
                             VInt(if m.result.None? then 0 else r.value), r.s.trace))
  {
    hide Legal, TypedDecs, Lower, Eval, Ready, Prologue, FunsOk;
    var g := World(cx, w, LinkedCode(cx, prims, m, primitives), o);
    var e, b, s := m.body.exp, FunB(prims, Empty), State(FunB(prims, Empty), []);
    var s1 := Prologue(cx, m, Begin(cx, prims, m));
    var s2 := Lower(cx, e, s1);
    var i := if m.result.None? then RetVoid else Ret(s2.value);
    var c := Launch(args, m.id);
    MainWithin(g, prims, m, primitives);
    LaunchPoised(g, prims, m, args);
    MainReady(g, prims, m);
    var c' := Sim(g, e, s, fuel, s1, {}, None, b, map[], c);
    var r := Eval(o, e, s, fuel);
    if r.Normal? {
      Fetch(g, c', s2, i);
      assert Step(g.p, o, c') == Finished(VInt(if m.result.None? then 0 else r.value), r.s.trace);
    }
  }
}
