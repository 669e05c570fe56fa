/** After renaming, nothing that a program uses is captured by the variables that desugaring inserts,
    so both passes together keep its meaning, whatever its names are. */
module RenameDesugar {
  import opened Ast
  import opened Semantics
  import opened Desugaring
  import opened Renaming
  import opened RenameBind
  import opened RenameSim
  import RenamedNames
  import DesugarSim
  import ReadOnly

  lemma {:induction false} FreeNames(e: Exp)
    ensures Free(e) <= Names(e)
    decreases e
  {
    match e
    case OpExp(l, _, r) => FreeNames(l); FreeNames(r);
    case SeqExp(es) => FreeNamesAll(es);
    case AssignExp(_, _, r) => FreeNames(r);
    case IfExp(c, t, f) => FreeNames(c); FreeNames(t); if f.SomeExp? { FreeNames(f.exp); }
    case WhileExp(_, c, b) => FreeNames(c); FreeNames(b);
    case ForExp(_, d, hi, b) => FreeNames(d.init); FreeNames(hi); FreeNames(b);
    case CallExp(_, _, args) => FreeNamesAll(args);
    case LetExp(sc) => FreeNamesScope(sc);
    case _ =>
  }

  lemma {:induction false} FreeNamesAll(es: Exps)
    ensures FreeAll(es) <= NamesAll(es)
    decreases es
  {
    if es.ECons? { FreeNames(es.head); FreeNamesAll(es.tail); }
  }

  lemma {:induction false} FreeNamesScope(sc: Scope)
    ensures FreeScope(sc) <= NamesScope(sc)
    decreases sc
  {
    match sc
    case In(b) => FreeNames(b);
    case With(VarChunk(d), rest) => FreeNames(d.init); FreeNamesScope(rest);
    case With(FunctionChunk(ds), rest) => FreeNamesDecs(ds); FreeNamesScope(rest);
    case With(TypeChunk(_), rest) => FreeNamesScope(rest);
  }

  lemma {:induction false} FreeNamesDecs(ds: Decs)
    ensures FreeDecs(ds) <= NamesDecs(ds)
    decreases ds
  {
    if ds.DCons? {
      if ds.head.body.SomeExp? { FreeNames(ds.head.body.exp); }
      FreeNamesDecs(ds.tail);
    }
  }

  /** Where nothing is called `_lo` or `_hi`, it is enough that the bounds are sound. */
  lemma {:induction false} SafeApart(e: Exp)
    requires Every(BOUNDS, e) && Names(e) !! {LO, HI}
    ensures Every(SAFE, e)
    decreases e
  {
    match e
    case OpExp(l, _, r) => SafeApart(l); SafeApart(r);
    case SeqExp(es) => SafeApartAll(es);
    case AssignExp(_, _, r) => SafeApart(r);
    case IfExp(c, t, f) => SafeApart(c); SafeApart(t); if f.SomeExp? { SafeApart(f.exp); }
    case WhileExp(_, c, b) => SafeApart(c); SafeApart(b);
    case ForExp(_, d, hi, b) =>
      SafeApart(d.init);
      SafeApart(hi);
      SafeApart(b);
      FreeNames(d.init);
      FreeNames(hi);
      FreeNames(b);
      assert Passes(OwnIndex, d, hi, b) && Passes(NoBreak, d, hi, b);
    case CallExp(_, _, args) => SafeApartAll(args);
    case LetExp(sc) => SafeApartScope(sc);
    case _ =>
  }

  lemma {:induction false} SafeApartAll(es: Exps)
    requires EveryAll(BOUNDS, es) && NamesAll(es) !! {LO, HI}
    ensures EveryAll(SAFE, es)
    decreases es
  {
    if es.ECons? { SafeApart(es.head); SafeApartAll(es.tail); }
  }

  lemma {:induction false} SafeApartScope(sc: Scope)
    requires EveryScope(BOUNDS, sc) && NamesScope(sc) !! {LO, HI}
    ensures EveryScope(SAFE, sc)
    decreases sc
  {
    match sc
    case In(b) => SafeApart(b);
    case With(VarChunk(d), rest) => SafeApart(d.init); SafeApartScope(rest);
    case With(FunctionChunk(ds), rest) => SafeApartDecs(ds); SafeApartScope(rest);
    case With(TypeChunk(_), rest) => SafeApartScope(rest);
  }

  lemma {:induction false} SafeApartDecs(ds: Decs)
    requires EveryDecs(BOUNDS, ds) && NamesDecs(ds) !! {LO, HI}
    ensures EveryDecs(SAFE, ds)
    decreases ds
  {
    if ds.DCons? {
      if ds.head.body.SomeExp? { SafeApart(ds.head.body.exp); }
      SafeApartDecs(ds.tail);
    }
  }

  /** Renaming and then desugaring keeps the meaning of a program, whatever its names are. */
  lemma RenameDesugarPreserves(o: Oracle, e: Exp, l: Links, trace: seq<Event>, fuel: nat)
    requires Renamable(e, l)
    requires var e' := Apply(e, Rename(e, l, START)); Every(BOUNDS, e') && ReadOnly.Accepts(e', ReadOnly.MEmpty)
    ensures Eval(o, Desugar(Apply(e, Rename(e, l, START))), State(Empty, trace), fuel) == Eval(o, e, State(Empty, trace), fuel)
  {
    var e' := Apply(e, Rename(e, l, START));
    RenamedNames.RenamedApart(e, l);
    SafeApart(e');
    DesugarSim.DesugarCorrect(o, e', trace, fuel);
    RenamePreserves(o, e, l, trace, fuel);
  }
}
