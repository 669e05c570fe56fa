/** Exactly when desugaring keeps the targets of breaks: if no bound of a loop has a break that
    leaves the bound. */
module DesugarBreaks {
  import opened Options
  import opened Ast
  import opened Nodes
  import opened Desugaring
  import opened DesugarBind

  type Targets = set<(Id, Option<Id>)>

  /** Breaks among ids, leaving the loop around or one among ids. */
  ghost predicate Over(s: Targets, ids: set<Id>, loop: Option<Id>) {
    forall p | p in s :: p.0 in ids && (p.1 == loop || (p.1.Some? && p.1.value in ids))
  }

  /** The same of nodes of the user only. */
  ghost predicate UserOver(s: Targets, ids: set<Id>, loop: Option<Id>) {
    forall p | p in s ::
      && (p.0.Node? ==> p.0 in ids)
      && (p.1 == loop || (p.1.Some? && (p.1.value.Node? ==> p.1.value in ids)))
  }

  lemma OverBoth(a: Targets, b: Targets, ids: set<Id>, ids': set<Id>, loop: Option<Id>)
    requires Over(a, ids, loop) && Over(b, ids', loop)
    ensures Over(a + b, ids + ids', loop)
  {}

  lemma OverMore(s: Targets, ids: set<Id>, ids': set<Id>, loop: Option<Id>)
    requires Over(s, ids, loop) && ids <= ids'
    ensures Over(s, ids', loop)
  {}

  /** Inside a loop of e itself. */
  lemma OverInner(s: Targets, ids: set<Id>, id: Id, loop: Option<Id>)
    requires Over(s, ids, Some(id))
    ensures Over(s, ids + {id}, loop)
  {}

  lemma {:induction false} BreaksOver(e: Exp, loop: Option<Id>)
    ensures Over(Breaks(e, loop), OfExp(e), loop)
    decreases e
  {
    match e
    case IntExp(_) =>
    case VarExp(_, _) =>
    case BreakExp(_) =>
    case OpExp(l, _, r) => BreaksOver(l, loop); BreaksOver(r, loop);
    case SeqExp(es) => AllOver(es, loop);
    case AssignExp(_, _, r) => BreaksOver(r, loop);
    case IfExp(c, t, f) =>
      BreaksOver(c, loop);
      BreaksOver(t, loop);
      if f.SomeExp? { BreaksOver(f.exp, loop); }
    case WhileExp(id, c, b) =>
      BreaksOver(c, Some(id));
      BreaksOver(b, Some(id));
      OverBoth(Breaks(c, Some(id)), Breaks(b, Some(id)), OfExp(c), OfExp(b), Some(id));
      OverInner(Breaks(e, loop), OfExp(c) + OfExp(b), id, loop);
      OverMore(Breaks(e, loop), OfExp(c) + OfExp(b) + {id}, OfExp(e), loop);
    case ForExp(id, d, hi, b) =>
      BreaksOver(d.init, Some(id));
      BreaksOver(hi, Some(id));
      BreaksOver(b, Some(id));
      OverBoth(Breaks(d.init, Some(id)), Breaks(hi, Some(id)), OfExp(d.init), OfExp(hi), Some(id));
      OverBoth(Breaks(d.init, Some(id)) + Breaks(hi, Some(id)), Breaks(b, Some(id)), OfExp(d.init) + OfExp(hi), OfExp(b), Some(id));
      assert OfExp(d.init) <= OfVarDec(d);
      OverInner(Breaks(e, loop), OfExp(d.init) + OfExp(hi) + OfExp(b), id, loop);
      OverMore(Breaks(e, loop), OfExp(d.init) + OfExp(hi) + OfExp(b) + {id}, OfExp(e), loop);
    case CallExp(_, _, args) => AllOver(args, loop);
    case LetExp(sc) => ScopeOver(sc, loop);
  }

  lemma {:induction false} AllOver(es: Exps, loop: Option<Id>)
    ensures Over(BreaksAll(es, loop), OfExps(es), loop)
    decreases es
  {
    if es.ECons? { BreaksOver(es.head, loop); AllOver(es.tail, loop); }
  }

  lemma {:induction false} ScopeOver(sc: Scope, loop: Option<Id>)
    ensures Over(BreaksScope(sc, loop), OfScope(sc), loop)
    decreases sc
  {
    match sc
    case In(b) => BreaksOver(b, loop);
    case With(VarChunk(d), rest) => BreaksOver(d.init, loop); ScopeOver(rest, loop);
    case With(FunctionChunk(ds), rest) => DecsOver(ds, loop); ScopeOver(rest, loop);
    case With(TypeChunk(_), rest) => ScopeOver(rest, loop);
  }

  lemma {:induction false} DecsOver(ds: Decs, loop: Option<Id>)
    ensures Over(BreaksDecs(ds, loop), OfDecs(ds), loop)
    decreases ds
  {
    if ds.DCons? {
      if ds.head.body.SomeExp? { BreaksOver(ds.head.body.exp, loop); }
      DecsOver(ds.tail, loop);
    }
  }

  /** What is known of the breaks of the desugared tree. */
  lemma DesugaredOver(e: Exp, loop: Option<Id>)
    requires Distinct(e) && User(OfExp(e))
    ensures UserOver(Breaks(Desugar(e), loop), OfExp(e), loop)
  {
    hide Distinct, Desugar, Breaks, OfExp;
    BreaksOver(Desugar(e), loop);
    DistinctDesugar(e);
    FromUser(Breaks(Desugar(e), loop), OfExp(Desugar(e)), OfExp(e), Fors(e), loop);
  }

  lemma FromUser(s: Targets, ids: set<Id>, from: set<Id>, fors: set<Id>, loop: Option<Id>)
    requires Over(s, ids, loop) && Derived(ids, from, fors)
    ensures UserOver(s, from, loop)
  {}

  /** A break that leaves e leaves whatever loop is around. */
  lemma {:induction false} FreeBreak(e: Exp, loop: Option<Id>) returns (b: Id)
    requires !Stays(e)
    ensures (b, loop) in Breaks(e, loop)
    decreases e
  {
    match e
    case BreakExp(id) => b := id;
    case OpExp(l, _, r) => if !Stays(l) { b := FreeBreak(l, loop); } else { b := FreeBreak(r, loop); }
    case SeqExp(es) => b := FreeBreakAll(es, loop);
    case AssignExp(_, _, r) => b := FreeBreak(r, loop);
    case IfExp(c, t, f) =>
      if !Stays(c) { b := FreeBreak(c, loop); }
      else if !Stays(t) { b := FreeBreak(t, loop); }
      else { b := FreeBreak(f.exp, loop); }
    case CallExp(_, _, args) => b := FreeBreakAll(args, loop);
    case LetExp(sc) => b := FreeBreakScope(sc, loop);
  }

  lemma {:induction false} FreeBreakAll(es: Exps, loop: Option<Id>) returns (b: Id)
    requires !StaysAll(es)
    ensures (b, loop) in BreaksAll(es, loop)
    decreases es
  {
    if !Stays(es.head) { b := FreeBreak(es.head, loop); } else { b := FreeBreakAll(es.tail, loop); }
  }

  lemma {:induction false} FreeBreakScope(sc: Scope, loop: Option<Id>) returns (b: Id)
    requires !StaysScope(sc)
    ensures (b, loop) in BreaksScope(sc, loop)
    decreases sc
  {
    match sc
    case In(e) => b := FreeBreak(e, loop);
    case With(VarChunk(d), rest) => if !Stays(d.init) { b := FreeBreak(d.init, loop); } else { b := FreeBreakScope(rest, loop); }
    case With(FunctionChunk(ds), rest) => if !StaysDecs(ds) { b := FreeBreakDecs(ds, loop); } else { b := FreeBreakScope(rest, loop); }
    case With(TypeChunk(_), rest) => b := FreeBreakScope(rest, loop);
  }

  lemma {:induction false} FreeBreakDecs(ds: Decs, loop: Option<Id>) returns (b: Id)
    requires !StaysDecs(ds)
    ensures (b, loop) in BreaksDecs(ds, loop)
    decreases ds
  {
    if ds.head.body.SomeExp? && !Stays(ds.head.body.exp) { b := FreeBreak(ds.head.body.exp, loop); }
    else { b := FreeBreakDecs(ds.tail, loop); }
  }

  /** The breaks a of a part are kept by that part, if all are kept. */
  lemma OwnPart(a: Targets, own: Targets, others: Targets, ids: set<Id>, ids': set<Id>, loop: Option<Id>, loop': Option<Id>)
    requires a <= own + others && Over(a, ids, loop) && UserOver(others, ids', loop') && ids !! ids' && User(ids)
    ensures a <= own
  {}

  // ----- exactly when targets are kept -----

  ghost predicate Kept(e: Exp, loop: Option<Id>) { Breaks(e, loop) <= Breaks(Desugar(e), loop) }

  /** The tree is the user's, and the loop around it is elsewhere. */
  predicate Fit(ids: set<Id>, loop: Option<Id>) { User(ids) && (loop.Some? ==> loop.value !in ids) }

  /** Two parts of the same loop. */
  lemma TwoParts(a: Targets, b: Targets, a': Targets, b': Targets, ids: set<Id>, ids': set<Id>, loop: Option<Id>)
    requires a + b <= a' + b' && Over(a, ids, loop) && Over(b, ids', loop) && UserOver(a', ids, loop) && UserOver(b', ids', loop)
    requires ids !! ids' && User(ids) && User(ids')
    ensures a <= a' && b <= b'
  {
    OwnPart(a, a', b', ids, ids', loop, loop);
    OwnPart(b, b', a', ids', ids, loop, loop);
  }

  lemma UserOverBoth(a: Targets, b: Targets, ids: set<Id>, ids': set<Id>, loop: Option<Id>)
    requires UserOver(a, ids, loop) && UserOver(b, ids', loop)
    ensures UserOver(a + b, ids + ids', loop)
  {}

  /** Where every break keeps its target no bound is left by a break. */
  lemma {:induction false} KeptStays(e: Exp, loop: Option<Id>)
    requires Distinct(e) && Fit(OfExp(e), loop) && Kept(e, loop)
    ensures Every({NoBreak}, e)
    decreases e, 1
  {
    match e
    case IntExp(_) =>
    case VarExp(_, _) =>
    case BreakExp(_) =>
    case OpExp(l, _, r) => PairKept(l, r, loop); KeptStays(l, loop); KeptStays(r, loop);
    case SeqExp(es) => AllKept(es, loop);
    case AssignExp(_, _, r) => KeptStays(r, loop);
    case IfExp(_, _, _) => IfKept(e, loop);
    case WhileExp(id, c, b) => PairKept(c, b, Some(id)); KeptStays(c, Some(id)); KeptStays(b, Some(id));
    case ForExp(_, _, _, _) => ForKept(e, loop);
    case CallExp(_, _, args) => AllKept(args, loop);
    case LetExp(sc) => ScopeKept(sc, loop);
  }

  lemma PairKept(l: Exp, r: Exp, loop: Option<Id>)
    requires Distinct(l) && Distinct(r) && Fit(OfExp(l), loop) && Fit(OfExp(r), loop) && OfExp(l) !! OfExp(r)
    requires Breaks(l, loop) + Breaks(r, loop) <= Breaks(Desugar(l), loop) + Breaks(Desugar(r), loop)
    ensures Kept(l, loop) && Kept(r, loop)
  {
    hide Distinct, Desugar, Breaks, OfExp;
    BreaksOver(l, loop);
    BreaksOver(r, loop);
    DesugaredOver(l, loop);
    DesugaredOver(r, loop);
    TwoParts(Breaks(l, loop), Breaks(r, loop), Breaks(Desugar(l), loop), Breaks(Desugar(r), loop), OfExp(l), OfExp(r), loop);
  }

  lemma {:induction false} IfKept(e: Exp, loop: Option<Id>)
    requires e.IfExp? && Distinct(e) && Fit(OfExp(e), loop) && Kept(e, loop)
    ensures Every({NoBreak}, e)
    decreases e, 0
  {
    var c, t, els := e.test, e.thn, e.els;
    BreaksOver(c, loop);
    BreaksOver(t, loop);
    DesugaredOver(c, loop);
    DesugaredOver(t, loop);
    if els.SomeExp? {
      BreaksOver(els.exp, loop);
      DesugaredOver(els.exp, loop);
      OverBoth(Breaks(c, loop), Breaks(t, loop), OfExp(c), OfExp(t), loop);
      UserOverBoth(Breaks(Desugar(c), loop), Breaks(Desugar(t), loop), OfExp(c), OfExp(t), loop);
      TwoParts(Breaks(c, loop) + Breaks(t, loop), Breaks(els.exp, loop), Breaks(Desugar(c), loop) + Breaks(Desugar(t), loop),
               Breaks(Desugar(els.exp), loop), OfExp(c) + OfExp(t), OfExp(els.exp), loop);
      KeptStays(els.exp, loop);
    }
    PairKept(c, t, loop);
    KeptStays(c, loop);
    KeptStays(t, loop);
  }

  /** A bound with a break that leaves it does not keep that break's target, the loop id. */
  lemma BoundStays(e: Exp, id: Id, loop: Option<Id>)
    requires Distinct(e) && User(OfExp(e)) && id.Node? && id !in OfExp(e) && loop != Some(id)
    requires Breaks(e, Some(id)) <= Breaks(Desugar(e), loop)
    ensures Stays(e) && Kept(e, loop)
  {
    hide Distinct, Desugar, Breaks, OfExp, Stays;
    DesugaredOver(e, loop);
    if !Stays(e) {
      var b := FreeBreak(e, Some(id));
      assert false;
    }
    StaysBreaks(e, loop, Some(id));
  }

  lemma {:induction false} ForKept(e: Exp, loop: Option<Id>)
    requires e.ForExp? && Distinct(e) && Fit(OfExp(e), loop) && Kept(e, loop)
    ensures Every({NoBreak}, e)
    decreases e, 0
  {
    var id, lo, hi, b := e.id, e.index.init, e.hi, e.body;
    ForParts(e, loop);
    BoundStays(lo, id, loop);
    BoundStays(hi, id, loop);
    KeptStays(lo, loop);
    KeptStays(hi, loop);
    KeptStays(b, Some(id));
    assert Passes(NoBreak, e.index, hi, b);
  }

  /** The parts of a loop keep the targets of their own breaks. */
  lemma ForParts(e: Exp, loop: Option<Id>)
    requires e.ForExp? && Distinct(e) && Fit(OfExp(e), loop) && Kept(e, loop)
    ensures var t := Some(e.id);
      && Breaks(e.index.init, t) <= Breaks(Desugar(e.index.init), loop) && Breaks(e.hi, t) <= Breaks(Desugar(e.hi), loop)
      && Breaks(e.body, t) <= Breaks(Desugar(e.body), t)
    ensures OfExp(e.index.init) <= OfExp(e) && e.id !in OfExp(e.index.init)
  {
    var id, lo, hi, b, t := e.id, e.index.init, e.hi, e.body, Some(e.id);
    var l', h', b' := Breaks(Desugar(lo), loop), Breaks(Desugar(hi), loop), Breaks(Desugar(b), t);
    var extra := {(Fresh(id, 7), t)};
    assert OfExp(lo) <= OfVarDec(e.index);
    BreaksExpand(id, e.index.(init := Desugar(lo)), Desugar(hi), Desugar(b), loop);
    assert Breaks(lo, t) + Breaks(hi, t) + Breaks(b, t) <= l' + h' + b' + extra;
    ThreeOver(lo, hi, b, t);
    DesugaredOver(lo, loop);
    DesugaredOver(hi, loop);
    DesugaredOver(b, t);
    hide Breaks, Desugar, Distinct, OfExp;
    OwnOf(Breaks(lo, t), l', h' + b' + extra, OfExp(lo), OfExp(hi) + OfExp(b));
    OwnOf(Breaks(hi, t), h', l' + b' + extra, OfExp(hi), OfExp(lo) + OfExp(b));
    OwnOf(Breaks(b, t), b', l' + h' + extra, OfExp(b), OfExp(lo) + OfExp(hi));
  }

  lemma ThreeOver(a: Exp, b: Exp, c: Exp, t: Option<Id>)
    ensures Over(Breaks(a, t), OfExp(a), t) && Over(Breaks(b, t), OfExp(b), t) && Over(Breaks(c, t), OfExp(c), t)
  {
    BreaksOver(a, t);
    BreaksOver(b, t);
    BreaksOver(c, t);
  }

  /** Only the breaking nodes matter. */
  lemma OwnOf(a: Targets, own: Targets, others: Targets, ids: set<Id>, ids': set<Id>)
    requires a <= own + others && (forall p | p in a :: p.0 in ids) && User(ids) && ids !! ids'
    requires forall p | p in others && p.0.Node? :: p.0 in ids'
    ensures a <= own
  {}

  lemma {:induction false} AllKept(es: Exps, loop: Option<Id>)
    requires DistinctExps(es) && Fit(OfExps(es), loop) && BreaksAll(es, loop) <= BreaksAll(DesugarAll(es), loop)
    ensures EveryAll({NoBreak}, es)
    decreases es
  {
    if es.ECons? {
      var e, rest := es.head, es.tail;
      BreaksOver(e, loop);
      AllOver(rest, loop);
      DesugaredOver(e, loop);
      AllOver(DesugarAll(rest), loop);
      DistinctDesugarAll(rest);
      FromUser(BreaksAll(DesugarAll(rest), loop), OfExps(DesugarAll(rest)), OfExps(rest), ForsAll(rest), loop);
      TwoParts(Breaks(e, loop), BreaksAll(rest, loop), Breaks(Desugar(e), loop), BreaksAll(DesugarAll(rest), loop), OfExp(e), OfExps(rest), loop);
      KeptStays(e, loop);
      AllKept(rest, loop);
    }
  }

  lemma {:induction false} ScopeKept(sc: Scope, loop: Option<Id>)
    requires DistinctScope(sc) && Fit(OfScope(sc), loop) && BreaksScope(sc, loop) <= BreaksScope(DesugarScope(sc), loop)
    ensures EveryScope({NoBreak}, sc)
    decreases sc
  {
    match sc
    case In(b) => KeptStays(b, loop);
    case With(c, rest) =>
      var rest' := DesugarScope(rest);
      ScopeOver(rest, loop);
      ScopeOver(rest', loop);
      DistinctDesugarScope(rest);
      FromUser(BreaksScope(rest', loop), OfScope(rest'), OfScope(rest), ForsScope(rest), loop);
      match c {
        case VarChunk(d) =>
          assert OfExp(d.init) <= OfVarDec(d);
          BreaksOver(d.init, loop);
          DesugaredOver(d.init, loop);
          TwoParts(Breaks(d.init, loop), BreaksScope(rest, loop), Breaks(Desugar(d.init), loop), BreaksScope(rest', loop),
                   OfExp(d.init), OfScope(rest), loop);
          KeptStays(d.init, loop);
        case FunctionChunk(ds) =>
          DecsOver(ds, loop);
          DesugaredDecsOver(ds, loop);
          TwoParts(BreaksDecs(ds, loop), BreaksScope(rest, loop), BreaksDecs(DesugarDecs(ds), loop), BreaksScope(rest', loop),
                   OfDecs(ds), OfScope(rest), loop);
          DecsKept(ds, loop);
        case TypeChunk(_) =>
      }
      ScopeKept(rest, loop);
  }

  lemma DesugaredDecsOver(ds: Decs, loop: Option<Id>)
    requires DistinctDecs(ds) && User(OfDecs(ds))
    ensures UserOver(BreaksDecs(DesugarDecs(ds), loop), OfDecs(ds), loop)
  {
    DecsOver(DesugarDecs(ds), loop);
    DistinctDesugarDecs(ds);
    FromUser(BreaksDecs(DesugarDecs(ds), loop), OfDecs(DesugarDecs(ds)), OfDecs(ds), ForsDecs(ds), loop);
  }

  lemma {:induction false} DecsKept(ds: Decs, loop: Option<Id>)
    requires DistinctDecs(ds) && Fit(OfDecs(ds), loop) && BreaksDecs(ds, loop) <= BreaksDecs(DesugarDecs(ds), loop)
    ensures EveryDecs({NoBreak}, ds)
    decreases ds
  {
    if ds.DCons? {
      var d, rest := ds.head, ds.tail;
      assert OfDec(d) <= OfDecs(ds) && (d.body.SomeExp? ==> OfExp(d.body.exp) <= OfDec(d));
      DecsOver(rest, loop);
      DesugaredDecsOver(rest, loop);
      if d.body.SomeExp? {
        BreaksOver(d.body.exp, loop);
        DesugaredOver(d.body.exp, loop);
        TwoParts(Breaks(d.body.exp, loop), BreaksDecs(rest, loop), Breaks(Desugar(d.body.exp), loop), BreaksDecs(DesugarDecs(rest), loop),
                 OfExp(d.body.exp), OfDecs(rest), loop);
        KeptStays(d.body.exp, loop);
      }
      DecsKept(rest, loop);
    }
  }

  /** Desugaring keeps the target of every break if and only if no bound has a break that leaves it. */
  lemma TargetsKeptExactly(e: Exp, loop: Option<Id>)
    requires Distinct(e) && Fit(OfExp(e), loop)
    ensures Breaks(e, loop) <= Breaks(Desugar(e), loop) <==> Every({NoBreak}, e)
  {
    hide Breaks, Desugar, Distinct, OfExp, Every;
    if Kept(e, loop) { KeptStays(e, loop); }
    if Every({NoBreak}, e) { BreaksKept(e, loop); }
  }
}
