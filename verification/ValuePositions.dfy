/** Which expressions have a value, told by the places their value comes from. */
module ValuePositions {
  import opened Options
  import opened Ast
  import opened Semantics
  import opened Lowering
  import opened LowerReady

  /** The expressions whose values may become that of e: those of both branches of an `if`, of the
      last of a sequence, of the body of a `let`; otherwise e itself. */
  function Leaves(e: Exp): set<Exp> {
    match e
    case IfExp(_, t, f) => Leaves(t) + if f.SomeExp? then Leaves(f.exp) else {e}
    case SeqExp(es) => if es.ENil? then {e} else LeavesLast(es)
    case LetExp(sc) => LeavesBody(sc)
    case _ => {e}
  }

  function LeavesLast(es: Exps): set<Exp>
    requires es.ECons?
  {
    if es.tail.ENil? then Leaves(es.head) else LeavesLast(es.tail)
  }

  function LeavesBody(sc: Scope): set<Exp> {
    match sc
    case In(b) => Leaves(b)
    case With(_, rest) => LeavesBody(rest)
  }

  /** A literal, a variable, an operator, or a call of a function with a result. */
  predicate Valued(cx: Ctx, e: Exp) {
    e.IntExp? || e.VarExp? || e.OpExp? || (e.CallExp? && e.id in cx.links && cx.links[e.id] !in cx.voids)
  }

  ghost predicate AllValued(cx: Ctx, es: set<Exp>) { forall x | x in es :: Valued(cx, x) }

  /** In a typed tree, exactly the expressions all of whose leaves have a value have one. */
  lemma {:induction false} VoidsExactly(g: World, e: Exp, b: Env)
    requires Typed(g, e, b)
    ensures !Voids(g.cx, e) <==> AllValued(g.cx, Leaves(e))
    decreases e
  {
    match e
    case IfExp(_, t, f) =>
      VoidsExactly(g, t, b);
      if f.SomeExp? { VoidsExactly(g, f.exp, b); }
    case SeqExp(es) => if es.ECons? { LastExactly(g, es, b); }
    case LetExp(sc) => BodyExactly(g, sc, b);
    case _ =>
  }

  lemma {:induction false} LastExactly(g: World, es: Exps, b: Env)
    requires es.ECons? && TypedAll(g, es, b)
    ensures !VoidsLast(g.cx, es) <==> AllValued(g.cx, LeavesLast(es))
    decreases es
  {
    if es.tail.ENil? { VoidsExactly(g, es.head, b); } else { LastExactly(g, es.tail, b); }
  }

  lemma {:induction false} BodyExactly(g: World, sc: Scope, b: Env)
    requires TypedScope(g, sc, b)
    ensures !VoidsScope(g.cx, sc) <==> AllValued(g.cx, LeavesBody(sc))
    decreases sc
  {
    match sc
    case In(e) => VoidsExactly(g, e, b);
    case With(VarChunk(d), rest) => BodyExactly(g, rest, VarB(d.id, d.name, Some(0), b));
    case With(FunctionChunk(ds), rest) => BodyExactly(g, rest, FunB(ds, b));
    case With(TypeChunk(_), rest) => BodyExactly(g, rest, b);
  }
}
