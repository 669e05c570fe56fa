/** The collector gives the translator what it needs: with the collected sets, every variable a
    function uses is its own, handed to it, or a global, and every call can hand over what its
    callee is handed. */
module Lifting {
  import opened Options
  import opened Ast
  import opened Nodes
  import opened Lowering
  import opened LowerTables
  import Escapes

  /** Headers list exactly the collected variables, in some order. */
  ghost predicate Ordered(cx: Ctx, m: Escapes.Sets) {
    forall f, x :: x in Lifted(cx, f) <==> x in Escapes.Of(m, f)
  }

  /** Every use is bound, calls have the right number of arguments, and w says who declares what. */
  ghost predicate Owned(cx: Ctx, w: Info, e: Exp, f: Id) {
    match e
    case IntExp(_) => true
    case VarExp(id, _) => id in cx.links
    case OpExp(l, _, r) => Owned(cx, w, l, f) && Owned(cx, w, r, f)
    case SeqExp(es) => OwnedAll(cx, w, es, f)
    case AssignExp(id, _, r) => id in cx.links && Owned(cx, w, r, f)
    case IfExp(c, t, els) => Owned(cx, w, c, f) && Owned(cx, w, t, f) && (els.SomeExp? ==> Owned(cx, w, els.exp, f))
    case WhileExp(_, c, b) => Owned(cx, w, c, f) && Owned(cx, w, b, f)
    case ForExp(_, d, hi, b) => Owned(cx, w, d.init, f) && Owned(cx, w, hi, f) && Owned(cx, w, b, f)
    case BreakExp(_) => true
    case CallExp(id, _, args) => id in cx.links && Arity(w, cx.links[id]) == Length(args) && OwnedAll(cx, w, args, f)
    case LetExp(sc) => OwnedScope(cx, w, sc, f)
  }

  ghost predicate OwnedAll(cx: Ctx, w: Info, es: Exps, f: Id) {
    es.ECons? ==> Owned(cx, w, es.head, f) && OwnedAll(cx, w, es.tail, f)
  }

  ghost predicate OwnedScope(cx: Ctx, w: Info, sc: Scope, f: Id) {
    match sc
    case In(b) => Owned(cx, w, b, f)
    case With(VarChunk(d), rest) => Owner(w, d.id) == f && Owned(cx, w, d.init, f) && OwnedScope(cx, w, rest, f)
    case With(FunctionChunk(ds), rest) => OwnedDecs(cx, w, ds) && OwnedScope(cx, w, rest, f)
    case With(TypeChunk(_), rest) => OwnedScope(cx, w, rest, f)
  }

  ghost predicate OwnedDecs(cx: Ctx, w: Info, ds: Decs) {
    ds.DCons? ==>
      && ds.head.id != cx.main && Arity(w, ds.head.id) == |ds.head.formals| && OwnsFormals(w, ds.head.formals, ds.head.id)
      && (ds.head.body.SomeExp? ==> Owned(cx, w, ds.head.body.exp, ds.head.id)) && OwnedDecs(cx, w, ds.tail)
  }

  /** A variable used by a function other than its own is marked as escapable, or belongs to `_main`. */
  ghost predicate Flagged(cx: Ctx, w: Info, escapable: set<Id>, uses: Escapes.Relation) {
    forall p, x | (p, x) in uses :: Owner(w, x) == p || x in escapable || Owner(w, x) == cx.main
  }

  /** What is known of the collected sets. */
  ghost predicate Collected(cx: Ctx, w: Info, m: Escapes.Sets, escapable: set<Id>, calls: Escapes.Relation,
                            uses: Escapes.Relation, all: Escapes.Relation) {
    && Ordered(cx, m) && Escapes.Closed(m, calls, uses) && Flagged(cx, w, escapable, all)
    && (forall p, x | (p, x) in all && x in escapable :: (p, x) in uses)
    && forall f, x | x in Escapes.Of(m, f) :: x in escapable
  }

  lemma UseReachable(cx: Ctx, w: Info, id: Id, f: Id, m: Escapes.Sets, escapable: set<Id>, calls: Escapes.Relation,
                     uses: Escapes.Relation, all: Escapes.Relation)
    requires Collected(cx, w, m, escapable, calls, uses, all) && id in cx.links && (f, cx.links[id]) in all
    ensures Reachable(cx, w, f, Link(cx, id))
  {
    var x := cx.links[id];
    if x in escapable { assert (f, x) in uses; }
    else { forall g ensures x !in Lifted(cx, g) { assert x !in Escapes.Of(m, g); } }
  }

  lemma CallHands(cx: Ctx, w: Info, id: Id, f: Id, m: Escapes.Sets, escapable: set<Id>, calls: Escapes.Relation,
                  uses: Escapes.Relation, all: Escapes.Relation)
    requires Collected(cx, w, m, escapable, calls, uses, all) && id in cx.links && (f, cx.links[id]) in calls
    ensures AllIn(Lifted(cx, Link(cx, id)), Lifted(cx, f))
  {
    var ds := Lifted(cx, cx.links[id]);
    forall k | 0 <= k < |ds| ensures ds[k] in Lifted(cx, f) { assert ds[k] in Escapes.Of(m, cx.links[id]); }
  }

  /** The collected sets are what the translator relies on. */
  lemma {:induction false} CollectedLifts(cx: Ctx, w: Info, e: Exp, f: Id, m: Escapes.Sets, escapable: set<Id>,
                                          calls: Escapes.Relation, uses: Escapes.Relation, all: Escapes.Relation)
    requires Collected(cx, w, m, escapable, calls, uses, all) && Owned(cx, w, e, f)
    requires Escapes.Calls(e, f, cx.links) <= calls && Escapes.Uses(e, f, cx.links, cx.links.Values) <= all
    ensures Lifts(cx, w, e, f)
  {
    hide Collected;
    match e
    case OpExp(l, _, r) =>
      CollectedLifts(cx, w, l, f, m, escapable, calls, uses, all);
      CollectedLifts(cx, w, r, f, m, escapable, calls, uses, all);
    case SeqExp(es) => CollectedAll(cx, w, es, f, m, escapable, calls, uses, all);
    case VarExp(id, _) => UseReachable(cx, w, id, f, m, escapable, calls, uses, all);
    case AssignExp(id, _, r) =>
      assert (f, cx.links[id]) in Escapes.Use(id, f, cx.links, cx.links.Values);
      UseReachable(cx, w, id, f, m, escapable, calls, uses, all);
      CollectedLifts(cx, w, r, f, m, escapable, calls, uses, all);
    case IfExp(c, t, els) =>
      CollectedLifts(cx, w, c, f, m, escapable, calls, uses, all);
      CollectedLifts(cx, w, t, f, m, escapable, calls, uses, all);
      if els.SomeExp? { CollectedLifts(cx, w, els.exp, f, m, escapable, calls, uses, all); }
    case WhileExp(_, c, b) =>
      CollectedLifts(cx, w, c, f, m, escapable, calls, uses, all);
      CollectedLifts(cx, w, b, f, m, escapable, calls, uses, all);
    case ForExp(_, d, hi, b) =>
      CollectedLifts(cx, w, d.init, f, m, escapable, calls, uses, all);
      CollectedLifts(cx, w, hi, f, m, escapable, calls, uses, all);
      CollectedLifts(cx, w, b, f, m, escapable, calls, uses, all);
    case CallExp(id, _, args) =>
      CallHands(cx, w, id, f, m, escapable, calls, uses, all);
      CollectedAll(cx, w, args, f, m, escapable, calls, uses, all);
    case LetExp(sc) => CollectedScope(cx, w, sc, f, m, escapable, calls, uses, all);
    case _ =>
  }

  lemma {:induction false} CollectedAll(cx: Ctx, w: Info, es: Exps, f: Id, m: Escapes.Sets, escapable: set<Id>,
                                        calls: Escapes.Relation, uses: Escapes.Relation, all: Escapes.Relation)
    requires Collected(cx, w, m, escapable, calls, uses, all) && OwnedAll(cx, w, es, f)
    requires Escapes.CallsAll(es, f, cx.links) <= calls && Escapes.UsesAll(es, f, cx.links, cx.links.Values) <= all
    ensures LiftsAll(cx, w, es, f)
  {
    hide Collected;
    if es.ECons? {
      CollectedLifts(cx, w, es.head, f, m, escapable, calls, uses, all);
      CollectedAll(cx, w, es.tail, f, m, escapable, calls, uses, all);
    }
  }

  lemma {:induction false} CollectedScope(cx: Ctx, w: Info, sc: Scope, f: Id, m: Escapes.Sets, escapable: set<Id>,
                                          calls: Escapes.Relation, uses: Escapes.Relation, all: Escapes.Relation)
    requires Collected(cx, w, m, escapable, calls, uses, all) && OwnedScope(cx, w, sc, f)
    requires Escapes.CallsScope(sc, f, cx.links) <= calls && Escapes.UsesScope(sc, f, cx.links, cx.links.Values) <= all
    ensures LiftsScope(cx, w, sc, f)
  {
    hide Collected;
    match sc
    case In(b) => CollectedLifts(cx, w, b, f, m, escapable, calls, uses, all);
    case With(VarChunk(d), rest) =>
      CollectedLifts(cx, w, d.init, f, m, escapable, calls, uses, all);
      CollectedScope(cx, w, rest, f, m, escapable, calls, uses, all);
    case With(FunctionChunk(ds), rest) =>
      CollectedDecs(cx, w, ds, m, escapable, calls, uses, all);
      CollectedScope(cx, w, rest, f, m, escapable, calls, uses, all);
    case With(TypeChunk(_), rest) => CollectedScope(cx, w, rest, f, m, escapable, calls, uses, all);
  }

  lemma {:induction false} CollectedDecs(cx: Ctx, w: Info, ds: Decs, m: Escapes.Sets, escapable: set<Id>,
                                         calls: Escapes.Relation, uses: Escapes.Relation, all: Escapes.Relation)
    requires Collected(cx, w, m, escapable, calls, uses, all) && OwnedDecs(cx, w, ds)
    requires Escapes.CallsDecs(ds, cx.links) <= calls && Escapes.UsesDecs(ds, cx.links, cx.links.Values) <= all
    ensures LiftsDecs(cx, w, ds)
  {
    hide Collected;
    if ds.DCons? {
      var d := ds.head;
      if d.body.SomeExp? { CollectedLifts(cx, w, d.body.exp, d.id, m, escapable, calls, uses, all); }
      CollectedDecs(cx, w, ds.tail, m, escapable, calls, uses, all);
    }
  }

  // ----- whole programs -----

  /** part are the uses of escapable variables among all. */
  ghost predicate Filtered(part: Escapes.Relation, all: Escapes.Relation, escapable: set<Id>) {
    forall p, x :: (p, x) in part <==> (p, x) in all && x in escapable
  }

  lemma UsesFiltered(e: Exp, f: Id, l: Links, escapable: set<Id>)
    ensures Filtered(Escapes.Uses(e, f, l, escapable), Escapes.Uses(e, f, l, l.Values), escapable)
  {
    match e
    case OpExp(a, _, b) => UsesFiltered(a, f, l, escapable); UsesFiltered(b, f, l, escapable);
    case SeqExp(es) => UsesAllFiltered(es, f, l, escapable);
    case AssignExp(_, _, r) => UsesFiltered(r, f, l, escapable);
    case IfExp(c, t, els) =>
      UsesFiltered(c, f, l, escapable);
      UsesFiltered(t, f, l, escapable);
      if els.SomeExp? { UsesFiltered(els.exp, f, l, escapable); }
    case WhileExp(_, c, b) => UsesFiltered(c, f, l, escapable); UsesFiltered(b, f, l, escapable);
    case ForExp(_, d, hi, b) =>
      UsesFiltered(d.init, f, l, escapable);
      UsesFiltered(hi, f, l, escapable);
      UsesFiltered(b, f, l, escapable);
    case CallExp(_, _, args) => UsesAllFiltered(args, f, l, escapable);
    case LetExp(sc) => UsesScopeFiltered(sc, f, l, escapable);
    case _ =>
  }

  lemma UsesAllFiltered(es: Exps, f: Id, l: Links, escapable: set<Id>)
    ensures Filtered(Escapes.UsesAll(es, f, l, escapable), Escapes.UsesAll(es, f, l, l.Values), escapable)
  {
    if es.ECons? { UsesFiltered(es.head, f, l, escapable); UsesAllFiltered(es.tail, f, l, escapable); }
  }

  lemma UsesScopeFiltered(sc: Scope, f: Id, l: Links, escapable: set<Id>)
    ensures Filtered(Escapes.UsesScope(sc, f, l, escapable), Escapes.UsesScope(sc, f, l, l.Values), escapable)
  {
    match sc
    case In(b) => UsesFiltered(b, f, l, escapable);
    case With(VarChunk(d), rest) => UsesFiltered(d.init, f, l, escapable); UsesScopeFiltered(rest, f, l, escapable);
    case With(FunctionChunk(ds), rest) => UsesDecsFiltered(ds, l, escapable); UsesScopeFiltered(rest, f, l, escapable);
    case With(TypeChunk(_), rest) => UsesScopeFiltered(rest, f, l, escapable);
  }

  lemma UsesDecsFiltered(ds: Decs, l: Links, escapable: set<Id>)
    ensures Filtered(Escapes.UsesDecs(ds, l, escapable), Escapes.UsesDecs(ds, l, l.Values), escapable)
  {
    if ds.DCons? {
      if ds.head.body.SomeExp? { UsesFiltered(ds.head.body.exp, ds.head.id, l, escapable); }
      UsesDecsFiltered(ds.tail, l, escapable);
    }
  }

  lemma ProgramUsesFiltered(p: Escapes.Program, l: Links, escapable: set<Id>)
    ensures Filtered(Escapes.ProgramUses(p, l, escapable), Escapes.ProgramUses(p, l, l.Values), escapable)
  {
    if p.Chunk? { UsesDecsFiltered(p.decs, l, escapable); ProgramUsesFiltered(p.rest, l, escapable); }
  }

  /** The exact sets of the collector, for a program of primitives followed by `_main`, satisfy
      what the translation of `_main` assumes. */
  lemma CollectorServesTranslator(cx: Ctx, w: Info, prims: Decs, m: FunctionDec, sets: Escapes.Sets, escapable: set<Id>)
    requires m.body.SomeExp? && Owned(cx, w, m.body.exp, m.id) && Ordered(cx, sets)
    requires var p := Escapes.Chunk(prims, Escapes.Chunk(DCons(m, DNil), Escapes.End));
      var calls, uses := Escapes.ProgramCalls(p, cx.links), Escapes.ProgramUses(p, cx.links, escapable);
      && Flagged(cx, w, escapable, Escapes.ProgramUses(p, cx.links, cx.links.Values)) && Escapes.Closed(sets, calls, uses)
      && forall f, x :: x in Escapes.Of(sets, f) <==> Escapes.Needs(calls, uses, f, x)
    ensures Lifts(cx, w, m.body.exp, m.id)
  {
    var last := Escapes.Chunk(DCons(m, DNil), Escapes.End);
    var p := Escapes.Chunk(prims, last);
    var calls, uses := Escapes.ProgramCalls(p, cx.links), Escapes.ProgramUses(p, cx.links, escapable);
    var all := Escapes.ProgramUses(p, cx.links, cx.links.Values);
    ProgramUsesFiltered(p, cx.links, escapable);
    forall f, x | x in Escapes.Of(sets, f) ensures x in escapable {
      assert Escapes.Needs(calls, uses, f, x);
      var path :| Escapes.CallChain(calls, path) && path[0] == f && (path[|path| - 1], x) in uses;
    }
    assert Escapes.ProgramCalls(last, cx.links) == Escapes.CallsDecs(DCons(m, DNil), cx.links) + {};
    assert Escapes.ProgramUses(last, cx.links, cx.links.Values) == Escapes.UsesDecs(DCons(m, DNil), cx.links, cx.links.Values) + {};
    assert Escapes.CallsDecs(DCons(m, DNil), cx.links) == Escapes.CallsDec(m, cx.links) + {};
    assert Escapes.UsesDecs(DCons(m, DNil), cx.links, cx.links.Values) == Escapes.UsesDec(m, cx.links, cx.links.Values) + {};
    CollectedLifts(cx, w, m.body.exp, m.id, sets, escapable, calls, uses, all);
  }
}
