/** Desugaring loses nothing but the loops: folding every inserted `let` back into its `for` gives
    back the tree, with all names, types, formals and results. */
module Refolding {
  import opened Options
  import opened Ast
  import opened Nodes
  import opened Desugaring
  import opened DesugarBind

  /** The `let` was inserted: its first variable is a new node. */
  predicate Inserted(sc: Scope) {
    && sc.With? && sc.chunk.VarChunk? && sc.chunk.dec.id.Fresh?
    && sc.rest.With? && sc.rest.chunk.VarChunk?
    && sc.rest.rest.With? && sc.rest.rest.chunk.VarChunk?
    && sc.rest.rest.rest.In? && var b := sc.rest.rest.rest.body;
      && b.SeqExp? && b.exps.ECons? && b.exps.head.IfExp? && b.exps.head.thn.WhileExp?
      && b.exps.head.thn.body.SeqExp? && b.exps.head.thn.body.exps.ECons?
  }

  function Refold(e: Exp): Exp
    decreases e, 1
  {
    match e
    case IntExp(_) => e
    case VarExp(_, _) => e
    case OpExp(l, op, r) => OpExp(Refold(l), op, Refold(r))
    case SeqExp(es) => SeqExp(RefoldAll(es))
    case AssignExp(id, x, r) => AssignExp(id, x, Refold(r))
    case IfExp(c, t, f) => IfExp(Refold(c), Refold(t), if f.SomeExp? then SomeExp(Refold(f.exp)) else NoExp)
    case WhileExp(id, c, b) => WhileExp(id, Refold(c), Refold(b))
    case ForExp(id, d, hi, b) => ForExp(id, d.(init := Refold(d.init)), Refold(hi), Refold(b))
    case BreakExp(_) => e
    case CallExp(id, f, args) => CallExp(id, f, RefoldAll(args))
    case LetExp(sc) => if Inserted(sc) then RefoldFor(sc) else LetExp(RefoldScope(sc))
  }

  /** The loop, from where its parts were put. */
  function RefoldFor(sc: Scope): Exp
    requires Inserted(sc)
    decreases sc, 0
  {
    var lo, hi, index := sc.chunk.dec, sc.rest.chunk.dec, sc.rest.rest.chunk.dec;
    var loop := sc.rest.rest.rest.body.exps.head.thn;
    ForExp(loop.id, VarDec(index.id, index.name, None, Refold(lo.init)), Refold(hi.init), Refold(loop.body.exps.head))
  }

  function RefoldAll(es: Exps): Exps {
    match es
    case ENil => ENil
    case ECons(e, rest) => ECons(Refold(e), RefoldAll(rest))
  }

  function RefoldScope(sc: Scope): Scope {
    match sc
    case In(b) => In(Refold(b))
    case With(VarChunk(d), rest) => With(VarChunk(d.(init := Refold(d.init))), RefoldScope(rest))
    case With(FunctionChunk(ds), rest) => With(FunctionChunk(RefoldDecs(ds)), RefoldScope(rest))
    case With(TypeChunk(ts), rest) => With(TypeChunk(ts), RefoldScope(rest))
  }

  function RefoldDecs(ds: Decs): Decs {
    match ds
    case DNil => DNil
    case DCons(d, rest) =>
      DCons(d.(body := if d.body.SomeExp? then SomeExp(Refold(d.body.exp)) else NoExp), RefoldDecs(rest))
  }

  /** No index of a `for` has a type name; the grammar has no place for one. */
  predicate Untyped(e: Exp) {
    match e
    case IntExp(_) => true
    case VarExp(_, _) => true
    case OpExp(l, _, r) => Untyped(l) && Untyped(r)
    case SeqExp(es) => UntypedAll(es)
    case AssignExp(_, _, r) => Untyped(r)
    case IfExp(c, t, f) => Untyped(c) && Untyped(t) && (f.SomeExp? ==> Untyped(f.exp))
    case WhileExp(_, c, b) => Untyped(c) && Untyped(b)
    case ForExp(_, d, hi, b) => d.typeName.None? && Untyped(d.init) && Untyped(hi) && Untyped(b)
    case BreakExp(_) => true
    case CallExp(_, _, args) => UntypedAll(args)
    case LetExp(sc) => UntypedScope(sc)
  }

  predicate UntypedAll(es: Exps) { es.ECons? ==> Untyped(es.head) && UntypedAll(es.tail) }

  predicate UntypedScope(sc: Scope) {
    match sc
    case In(b) => Untyped(b)
    case With(VarChunk(d), rest) => Untyped(d.init) && UntypedScope(rest)
    case With(FunctionChunk(ds), rest) => UntypedDecs(ds) && UntypedScope(rest)
    case With(TypeChunk(_), rest) => UntypedScope(rest)
  }

  predicate UntypedDecs(ds: Decs) {
    ds.DCons? ==> (ds.head.body.SomeExp? ==> Untyped(ds.head.body.exp)) && UntypedDecs(ds.tail)
  }

  /** Folding the loops back undoes the desugaring. */
  lemma {:induction false} RefoldDesugar(e: Exp)
    requires User(OfExp(e)) && Untyped(e)
    ensures Refold(Desugar(e)) == e
    decreases e
  {
    match e
    case IntExp(_) =>
    case VarExp(_, _) =>
    case BreakExp(_) =>
    case OpExp(l, _, r) => RefoldDesugar(l); RefoldDesugar(r);
    case SeqExp(es) => RefoldDesugarAll(es);
    case AssignExp(_, _, r) => RefoldDesugar(r);
    case IfExp(c, t, f) =>
      RefoldDesugar(c);
      RefoldDesugar(t);
      if f.SomeExp? { RefoldDesugar(f.exp); }
    case WhileExp(_, c, b) => RefoldDesugar(c); RefoldDesugar(b);
    case ForExp(id, d, hi, b) =>
      assert OfExp(d.init) <= OfVarDec(d) <= OfExp(e);
      RefoldDesugar(d.init);
      RefoldDesugar(hi);
      RefoldDesugar(b);
      RefoldExpand(id, d.(init := Desugar(d.init)), Desugar(hi), Desugar(b));
    case CallExp(_, _, args) => RefoldDesugarAll(args);
    case LetExp(sc) => RefoldDesugarScope(sc);
  }

  lemma RefoldExpand(id: Id, d: VarDec, hi: Exp, b: Exp)
    ensures Refold(Expand(id, d, hi, b)) == ForExp(id, VarDec(d.id, d.name, None, Refold(d.init)), Refold(hi), Refold(b))
  {
    assert Inserted(Expand(id, d, hi, b).scope);
  }

  lemma {:induction false} RefoldDesugarAll(es: Exps)
    requires User(OfExps(es)) && UntypedAll(es)
    ensures RefoldAll(DesugarAll(es)) == es
    decreases es
  {
    if es.ECons? { RefoldDesugar(es.head); RefoldDesugarAll(es.tail); }
  }

  lemma {:induction false} RefoldDesugarScope(sc: Scope)
    requires User(OfScope(sc)) && UntypedScope(sc)
    ensures RefoldScope(DesugarScope(sc)) == sc && !Inserted(DesugarScope(sc))
    decreases sc
  {
    match sc
    case In(b) => RefoldDesugar(b);
    case With(VarChunk(d), rest) =>
      assert d.id in OfVarDec(d) && OfExp(d.init) <= OfVarDec(d) <= OfScope(sc);
      RefoldDesugar(d.init);
      RefoldDesugarScope(rest);
    case With(FunctionChunk(ds), rest) => RefoldDesugarDecs(ds); RefoldDesugarScope(rest);
    case With(TypeChunk(_), rest) => RefoldDesugarScope(rest);
  }

  lemma {:induction false} RefoldDesugarDecs(ds: Decs)
    requires User(OfDecs(ds)) && UntypedDecs(ds)
    ensures RefoldDecs(DesugarDecs(ds)) == ds
    decreases ds
  {
    if ds.DCons? {
      assert OfDec(ds.head) <= OfDecs(ds) && (ds.head.body.SomeExp? ==> OfExp(ds.head.body.exp) <= OfDec(ds.head));
      if ds.head.body.SomeExp? { RefoldDesugar(ds.head.body.exp); }
      RefoldDesugarDecs(ds.tail);
    }
  }

  /** So different trees are different after desugaring. */
  lemma DesugarInjective(e: Exp, e': Exp)
    requires User(OfExp(e)) && Untyped(e) && User(OfExp(e')) && Untyped(e') && Desugar(e) == Desugar(e')
    ensures e == e'
  {
    RefoldDesugar(e);
    RefoldDesugar(e');
  }
}
