/** The middle and back end together: names are made unique, loops are desugared, then the tree is
    translated. */
module Pipeline {
  import opened Options
  import opened Ast
  import opened Nodes
  import opened Binder
  import opened Binding
  import opened Semantics
  import opened Cfg
  import opened Lowering
  import opened LowerTables
  import opened LowerReady
  import opened LowerMain
  import opened LowerForever
  import opened Translation
  import opened Desugaring
  import opened Renaming
  import opened RenameBind
  import opened RenameSim
  import opened DesugarBind
  import RenameDesugar
  import RenamedNames
  import Escapes
  import Lifting
  import Legality
  import ReadOnly

  /** Running the translator on a program of primitives and `_main`. */
  method TranslateProgram(cx: Ctx, prims: Decs, m: FunctionDec, primitives: map<Id, Symbol>) returns (p: Code)
    requires m.body.SomeExp? && m.id == cx.main
    ensures p == LinkedCode(cx, prims, m, primitives)
  {
    var t := new Translator(cx);
    t.VisitHeaders(prims);
    t.VisitHeaders(DCons(m, DNil));
    t.FillBody(m);
    p := Code(t.blocks, t.entries, primitives);
  }

  /** `_main` with its loops desugared. */
  function WithoutFor(m: FunctionDec): FunctionDec
    requires m.body.SomeExp?
  {
    m.(body := SomeExp(Desugar(m.body.exp)))
  }

  /** `_main` with its body renamed. */
  function WithNames(m: FunctionDec, r: Renamed): FunctionDec
    requires m.body.SomeExp?
  {
    m.(body := SomeExp(Apply(m.body.exp, r)))
  }

  /** The program as one expression. */
  function Whole(prims: Decs, m: FunctionDec): Exp
    requires m.body.SomeExp?
  {
    LetExp(With(FunctionChunk(prims), In(m.body.exp)))
  }

  lemma BodylessStay(ds: Decs)
    requires Bodyless(ds)
    ensures DesugarDecs(ds) == ds
  {}

  lemma WholeMeans(o: Oracle, prims: Decs, e: Exp, fuel: nat)
    ensures Eval(o, LetExp(With(FunctionChunk(prims), In(e))), State(Empty, []), fuel)
         == PopOut(Eval(o, e, State(FunB(prims, Empty), []), fuel))
  {
    var sc, s := With(FunctionChunk(prims), In(e)), State(FunB(prims, Empty), []);
    assert EvalScope(o, In(e), s, fuel) == Eval(o, e, s, fuel);
    assert EvalScope(o, sc, State(Empty, []), fuel) == PopOut(EvalScope(o, In(e), s, fuel));
  }

  lemma WholeDesugared(prims: Decs, e: Exp)
    requires Bodyless(prims)
    ensures Desugar(LetExp(With(FunctionChunk(prims), In(e)))) == LetExp(With(FunctionChunk(prims), In(Desugar(e))))
  {
    BodylessStay(prims);
    assert DesugarScope(In(e)) == In(Desugar(e));
  }

  lemma WholeRenamed(prims: Decs, m: FunctionDec, r: Renamed)
    requires m.body.SomeExp?
    ensures Apply(Whole(prims, m), r) == Whole(ApplyDecs(prims, r), WithNames(m, r))
  {
    assert ApplyScope(In(m.body.exp), r) == In(Apply(m.body.exp, r));
  }

  // ----- from source to code -----

  /** `_main` as the translator gets it. */
  function Final(prims: Decs, m: FunctionDec, l: Links): (r: FunctionDec)
    requires m.body.SomeExp?
    ensures r.body.SomeExp? && r.id == m.id && r.result == m.result
  {
    WithoutFor(WithNames(m, Rename(Whole(prims, m), l, START)))
  }

  function FinalPrims(prims: Decs, m: FunctionDec, l: Links): Decs
    requires m.body.SomeExp?
  {
    ApplyDecs(prims, Rename(Whole(prims, m), l, START))
  }

  function FinalCode(cx: Ctx, prims: Decs, m: FunctionDec, l: Links, primitives: map<Id, Symbol>): Code
    requires m.body.SomeExp?
  {
    LinkedCode(cx, FinalPrims(prims, m, l), Final(prims, m, l), primitives)
  }

  /** What the passes before the renamer and before the translator established. */
  ghost predicate Compilable(cx: Ctx, w: Info, prims: Decs, m: FunctionDec, l: Links, primitives: map<Id, Symbol>, o: Oracle) {
    && m.body.SomeExp? && Renamable(Whole(prims, m), l)
    && var e := Apply(Whole(prims, m), Rename(Whole(prims, m), l, START));
      && Every(BOUNDS, e) && ReadOnly.Accepts(e, ReadOnly.MEmpty)
      && LegalMain(World(cx, w, FinalCode(cx, prims, m, l, primitives), o), FinalPrims(prims, m, l), Final(prims, m, l))
  }

  /** The translated tree does the same, but for the names in its environment. */
  lemma SameRun(cx: Ctx, w: Info, prims: Decs, m: FunctionDec, l: Links, primitives: map<Id, Symbol>, o: Oracle, fuel: nat)
    requires Compilable(cx, w, prims, m, l, primitives, o)
    ensures PopOut(Source(o, FinalPrims(prims, m, l), Final(prims, m, l), fuel)) == PopOut(Source(o, prims, m, fuel))
  {
    hide Every, ReadOnly.Accepts, Rename, Renamable, LinkedCode;
    var r := Rename(Whole(prims, m), l, START);
    RenameDesugar.RenameDesugarPreserves(o, Whole(prims, m), l, [], fuel);
    WholeRenamed(prims, m, r);
    WholeDesugared(FinalPrims(prims, m, l), WithNames(m, r).body.exp);
    WholeMeans(o, prims, m.body.exp, fuel);
    WholeMeans(o, FinalPrims(prims, m, l), Final(prims, m, l).body.exp, fuel);
  }

  /** A source program, with its own names and `for` loops, and the code compiled from its renamed
      and desugared tree: if the source ends normally then the code ends after the same calls of
      primitives, and with the same value. */
  lemma EndToEnd(cx: Ctx, w: Info, prims: Decs, m: FunctionDec, l: Links, primitives: map<Id, Symbol>, o: Oracle,
                 args: seq<Val>, fuel: nat, v: Val, trace: seq<Event>)
    requires Compilable(cx, w, prims, m, l, primitives, o)
    requires Yields(Source(o, prims, m, fuel), m, v, trace)
    ensures Ends(FinalCode(cx, prims, m, l, primitives), o, Launch(args, m.id), v, trace)
  {
    hide LegalMain, Every, ReadOnly.Accepts, Rename, Renamable, LinkedCode, Final, FinalPrims;
    SameRun(cx, w, prims, m, l, primitives, o, fuel);
    CompiledCorrectly(cx, w, FinalPrims(prims, m, l), Final(prims, m, l), primitives, o, args, fuel);
  }

  lemma StaysDefined(cx: Ctx, w: Info, prims: Decs, m: FunctionDec, l: Links, primitives: map<Id, Symbol>, o: Oracle)
    requires Compilable(cx, w, prims, m, l, primitives, o) && forall k: nat :: !Source(o, prims, m, k).Undefined?
    ensures forall k: nat :: !Source(o, FinalPrims(prims, m, l), Final(prims, m, l), k).Undefined?
  {
    hide Source, Final, FinalPrims, Renamable, LegalMain, Every, ReadOnly.Accepts;
    forall k: nat ensures !Source(o, FinalPrims(prims, m, l), Final(prims, m, l), k).Undefined? {
      SameRun(cx, w, prims, m, l, primitives, o, k);
    }
  }

  /** If moreover the source has no undefined behaviour, the code ends that way only if the source
      does, and it runs forever exactly if the source does. */
  lemma EndToEndExactly(cx: Ctx, w: Info, prims: Decs, m: FunctionDec, l: Links, primitives: map<Id, Symbol>, o: Oracle,
                        args: seq<Val>, v: Val, trace: seq<Event>)
    requires Compilable(cx, w, prims, m, l, primitives, o) && forall k: nat :: !Source(o, prims, m, k).Undefined?
    ensures Ends(FinalCode(cx, prims, m, l, primitives), o, Launch(args, m.id), v, trace)
       <==> exists k: nat :: Yields(Source(o, prims, m, k), m, v, trace)
    ensures (forall n: nat :: Steps(FinalCode(cx, prims, m, l, primitives), o, Launch(args, m.id), n).Some?)
       <==> (forall k: nat :: Source(o, prims, m, k).OutOfFuel?)
  {
    hide LegalMain, Every, ReadOnly.Accepts, Rename, Renamable, LinkedCode, Final, FinalPrims, Source;
    var prims', m' := FinalPrims(prims, m, l), Final(prims, m, l);
    StaysDefined(cx, w, prims, m, l, primitives, o);
    CompiledExactly(cx, w, prims', m', primitives, o, args, v, trace);
    ForeverTogether(cx, w, prims', m', primitives, o, args);
    forall k: nat
      ensures Yields(Source(o, prims', m', k), m', v, trace) == Yields(Source(o, prims, m, k), m, v, trace)
      ensures Source(o, prims', m', k).OutOfFuel? == Source(o, prims, m, k).OutOfFuel?
    {
      SameRun(cx, w, prims, m, l, primitives, o, k);
    }
  }

  // ----- from the passes to the conditions -----

  lemma {:induction false} BodylessRenamed(ds: Decs, r: Renamed)
    requires Bodyless(ds)
    ensures Bodyless(ApplyDecs(ds, r))
    decreases ds
  {
    if ds.DCons? { BodylessRenamed(ds.tail, r); }
  }

  /** The final tree has nodes of its own for every part, and none of them is that of `_main`. */
  lemma FinalNodes(prims: Decs, m: FunctionDec, l: Links)
    requires m.body.SomeExp? && Bodyless(prims) && Distinct(Whole(prims, m)) && User(OfExp(Whole(prims, m)))
    requires m.id.Node? && m.id !in OfExp(m.body.exp)
    ensures Distinct(Whole(FinalPrims(prims, m, l), Final(prims, m, l))) && m.id !in OfExp(Final(prims, m, l).body.exp)
    ensures Distinct(Final(prims, m, l).body.exp)
  {
    var r := Rename(Whole(prims, m), l, START);
    var m1, prims' := WithNames(m, r), FinalPrims(prims, m, l);
    hide Rename, Distinct;
    RenamedNames.SameNodes(Whole(prims, m), r);
    WholeRenamed(prims, m, r);
    BodylessRenamed(prims, r);
    DistinctDesugar(Whole(prims', m1));
    WholeDesugared(prims', m1.body.exp);
    WholeParts(prims, m);
    RenamedNames.SameNodes(m.body.exp, r);
    DistinctDesugar(m1.body.exp);
  }

  lemma WholeParts(prims: Decs, m: FunctionDec)
    requires m.body.SomeExp? && Distinct(Whole(prims, m))
    ensures Distinct(m.body.exp) && OfExp(m.body.exp) <= OfExp(Whole(prims, m))
  {
    assert DistinctScope(In(m.body.exp)) && OfScope(In(m.body.exp)) == OfExp(m.body.exp);
  }

  /** A program that may be renamed and desugared, is bound again, and passes the checks and the
      collector, meets all the conditions of `EndToEnd`. */
  lemma PassesServe(cx: Ctx, w: Info, prims: Decs, m: FunctionDec, l: Links, primitives: map<Id, Symbol>, o: Oracle, b: Bound,
                    sets: Escapes.Sets, escapable: set<Id>)
    requires m.body.SomeExp? && m.formals == [] && m.id == cx.main && m.id.Node? && m.id !in OfExp(m.body.exp)
    requires Bodyless(prims) && User(OfExp(Whole(prims, m))) && Renamable(Whole(prims, m), l)
    requires var e := Apply(Whole(prims, m), Rename(Whole(prims, m), l, START));
      Every(BOUNDS, e) && ReadOnly.Accepts(e, ReadOnly.MEmpty)
    requires b.links == map[] && cx.links == Resolve(Whole(FinalPrims(prims, m, l), Final(prims, m, l)), CLOSED, b).links
    requires var g := World(cx, w, FinalCode(cx, prims, m, l, primitives), o);
      var m', prims' := Final(prims, m, l), FinalPrims(prims, m, l);
      var sc := With(FunctionChunk(prims'), In(m'.body.exp));
      && Lifting.OwnedScope(cx, w, sc, m.id) && Legality.CheckedScope(g, sc, {}, false)
      && (m.result.Some? ==> !Voids(cx, m'.body.exp)) && Legality.Exact(g, prims', m', sets, escapable)
    ensures Compilable(cx, w, prims, m, l, primitives, o)
  {
    var m', prims' := Final(prims, m, l), FinalPrims(prims, m, l);
    var sc := With(FunctionChunk(prims'), In(m'.body.exp));
    hide Rename, Distinct, Every, ReadOnly.Accepts, Linked, LegalMain, Legality.CheckedScope, Lifting.OwnedScope, Legality.Exact,
         Final, FinalPrims, Clean, Resolve;
    FinalNodes(prims, m, l);
    ResolveLinks(Whole(prims', m'), CLOSED, b);
    ScopeOf(prims', m', cx.links);
    BodylessFinal(prims, m, l);
    Legality.PassesEstablish(World(cx, w, FinalCode(cx, prims, m, l, primitives), o), prims', m', sets, escapable);
  }

  lemma ScopeOf(prims: Decs, m: FunctionDec, l: Links)
    requires m.body.SomeExp? && Linked(Whole(prims, m), CLOSED, l)
    ensures ScopeLinked(With(FunctionChunk(prims), In(m.body.exp)), CLOSED, l)
  {}

  lemma BodylessFinal(prims: Decs, m: FunctionDec, l: Links)
    requires m.body.SomeExp? && Bodyless(prims)
    ensures Bodyless(FinalPrims(prims, m, l)) && Final(prims, m, l).formals == m.formals
  {
    BodylessRenamed(prims, Rename(Whole(prims, m), l, START));
  }
}
