/** Lambda lifting, first half: the variables each function needs handed to it.

    The collector runs a fixpoint for every chunk of functions, inside the fixpoints of the
    chunks around it, and hides the changes of an inner chunk from the outer ones.  The result
    is nevertheless exact: what a function gets is what it, or a function it may reach through
    calls, uses directly.  Whether a variable can escape is an input. */
module Escapes {
  import opened Options
  import opened Ast
  import opened Nodes
  import opened Binder
  import opened Binding

  type Sets = map<Id, set<Id>>
  type Relation = set<(Id, Id)>

  function Of(m: Sets, f: Id): set<Id> { if f in m then m[f] else {} }

  function Pairs(m: Sets): Relation { set f, x | f in m && x in m[f] :: (f, x) }

  // ----- the call graph and the direct uses -----

  function Use(id: Id, f: Id, l: Links, escapable: set<Id>): Relation {
    if id in l && l[id] in escapable then {(f, l[id])} else {}
  }

  /** The escapable variables used by the functions of e, f being the one around e. */
  function Uses(e: Exp, f: Id, l: Links, escapable: set<Id>): Relation {
    match e
    case IntExp(_) => {}
    case VarExp(id, _) => Use(id, f, l, escapable)
    case OpExp(a, _, b) => Uses(a, f, l, escapable) + Uses(b, f, l, escapable)
    case SeqExp(es) => UsesAll(es, f, l, escapable)
    case AssignExp(id, _, r) => Use(id, f, l, escapable) + Uses(r, f, l, escapable)
    case IfExp(c, t, els) =>
      Uses(c, f, l, escapable) + Uses(t, f, l, escapable) + (if els.SomeExp? then Uses(els.exp, f, l, escapable) else {})
    case WhileExp(_, c, b) => Uses(c, f, l, escapable) + Uses(b, f, l, escapable)
    case ForExp(_, d, hi, b) =>
      Uses(d.init, f, l, escapable) + Uses(hi, f, l, escapable) + Uses(b, f, l, escapable)
    case BreakExp(_) => {}
    case CallExp(_, _, args) => UsesAll(args, f, l, escapable)
    case LetExp(sc) => UsesScope(sc, f, l, escapable)
  }

  function UsesAll(es: Exps, f: Id, l: Links, escapable: set<Id>): Relation {
    if es.ENil? then {} else Uses(es.head, f, l, escapable) + UsesAll(es.tail, f, l, escapable)
  }

  function UsesScope(sc: Scope, f: Id, l: Links, escapable: set<Id>): Relation {
    match sc
    case In(b) => Uses(b, f, l, escapable)
    case With(VarChunk(d), rest) => Uses(d.init, f, l, escapable) + UsesScope(rest, f, l, escapable)
    case With(FunctionChunk(ds), rest) => UsesDecs(ds, l, escapable) + UsesScope(rest, f, l, escapable)
    case With(TypeChunk(_), rest) => UsesScope(rest, f, l, escapable)
  }

  function UsesDecs(ds: Decs, l: Links, escapable: set<Id>): Relation {
    if ds.DNil? then {} else UsesDec(ds.head, l, escapable) + UsesDecs(ds.tail, l, escapable)
  }

  function UsesDec(d: FunctionDec, l: Links, escapable: set<Id>): Relation {
    if d.body.SomeExp? then Uses(d.body.exp, d.id, l, escapable) else {}
  }

  /** Who calls whom. */
  function Calls(e: Exp, f: Id, l: Links): Relation {
    match e
    case IntExp(_) => {}
    case VarExp(_, _) => {}
    case OpExp(a, _, b) => Calls(a, f, l) + Calls(b, f, l)
    case SeqExp(es) => CallsAll(es, f, l)
    case AssignExp(_, _, r) => Calls(r, f, l)
    case IfExp(c, t, els) =>
      Calls(c, f, l) + Calls(t, f, l) + (if els.SomeExp? then Calls(els.exp, f, l) else {})
    case WhileExp(_, c, b) => Calls(c, f, l) + Calls(b, f, l)
    case ForExp(_, d, hi, b) => Calls(d.init, f, l) + Calls(hi, f, l) + Calls(b, f, l)
    case BreakExp(_) => {}
    case CallExp(id, _, args) => CallsAll(args, f, l) + (if id in l then {(f, l[id])} else {})
    case LetExp(sc) => CallsScope(sc, f, l)
  }

  function CallsAll(es: Exps, f: Id, l: Links): Relation {
    if es.ENil? then {} else Calls(es.head, f, l) + CallsAll(es.tail, f, l)
  }

  function CallsScope(sc: Scope, f: Id, l: Links): Relation {
    match sc
    case In(b) => Calls(b, f, l)
    case With(VarChunk(d), rest) => Calls(d.init, f, l) + CallsScope(rest, f, l)
    case With(FunctionChunk(ds), rest) => CallsDecs(ds, l) + CallsScope(rest, f, l)
    case With(TypeChunk(_), rest) => CallsScope(rest, f, l)
  }

  function CallsDecs(ds: Decs, l: Links): Relation {
    if ds.DNil? then {} else CallsDec(ds.head, l) + CallsDecs(ds.tail, l)
  }

  function CallsDec(d: FunctionDec, l: Links): Relation {
    if d.body.SomeExp? then Calls(d.body.exp, d.id, l) else {}
  }

  // ----- lexical scope of calls -----

  /** Every callee in e is declared in e, around the call, or is one of fs. */
  predicate Scoped(e: Exp, fs: set<Id>, l: Links) {
    match e
    case IntExp(_) => true
    case VarExp(_, _) => true
    case OpExp(a, _, b) => Scoped(a, fs, l) && Scoped(b, fs, l)
    case SeqExp(es) => ScopedAll(es, fs, l)
    case AssignExp(_, _, r) => Scoped(r, fs, l)
    case IfExp(c, t, els) => Scoped(c, fs, l) && Scoped(t, fs, l) && (els.SomeExp? ==> Scoped(els.exp, fs, l))
    case WhileExp(_, c, b) => Scoped(c, fs, l) && Scoped(b, fs, l)
    case ForExp(_, d, hi, b) => Scoped(d.init, fs, l) && Scoped(hi, fs, l) && Scoped(b, fs, l)
    case BreakExp(_) => true
    case CallExp(id, _, args) => ScopedAll(args, fs, l) && (id in l ==> l[id] in fs)
    case LetExp(sc) => ScopedScope(sc, fs, l)
  }

  predicate ScopedAll(es: Exps, fs: set<Id>, l: Links) {
    es.ECons? ==> Scoped(es.head, fs, l) && ScopedAll(es.tail, fs, l)
  }

  predicate ScopedScope(sc: Scope, fs: set<Id>, l: Links) {
    match sc
    case In(b) => Scoped(b, fs, l)
    case With(VarChunk(d), rest) => Scoped(d.init, fs, l) && ScopedScope(rest, fs, l)
    case With(FunctionChunk(ds), rest) => ScopedDecs(ds, fs + Funs(ds), l) && ScopedScope(rest, fs + Funs(ds), l)
    case With(TypeChunk(_), rest) => ScopedScope(rest, fs, l)
  }

  predicate ScopedDecs(ds: Decs, fs: set<Id>, l: Links) {
    ds.DCons? ==> (ds.head.body.SomeExp? ==> Scoped(ds.head.body.exp, fs, l)) && ScopedDecs(ds.tail, fs, l)
  }

  /** The functions a chunk declares. */
  function Funs(ds: Decs): set<Id> {
    if ds.DNil? then {} else {ds.head.id} + Funs(ds.tail)
  }

  // ----- what the result must satisfy -----

  ghost predicate Closed(m: Sets, calls: Relation, uses: Relation) {
    && (forall p, q | (p, q) in calls :: Of(m, q) <= Of(m, p))
    && (forall p, x | (p, x) in uses :: x in Of(m, p))
  }

  /** A relation that already satisfies the same closure bounds the collector from above. */
  ghost predicate Limit(limit: Relation, calls: Relation, uses: Relation) {
    uses <= limit && forall p, q, x | (p, q) in calls && (q, x) in limit :: (p, x) in limit
  }

  ghost predicate Grows(a: Sets, b: Sets) {
    forall g :: Of(a, g) <= Of(b, g)
  }

  ghost predicate OnlyOn(a: Sets, b: Sets, ids: set<Id>) {
    forall g | g !in ids :: Of(a, g) == Of(b, g)
  }

  /** The callers and callees of a relation. */
  ghost predicate Mentions(r: Relation, froms: set<Id>, tos: set<Id>) {
    forall p, q | (p, q) in r :: p in froms && q in tos
  }

  lemma KeepClosed(a: Sets, b: Sets, ids: set<Id>, calls: Relation, uses: Relation, froms: set<Id>, tos: set<Id>)
    requires Closed(a, calls, uses) && OnlyOn(a, b, ids)
    requires Mentions(calls, froms, tos) && (forall p, x | (p, x) in uses :: p in froms)
    requires ids !! froms + tos
    ensures Closed(b, calls, uses)
  {
    forall p, q | (p, q) in calls ensures Of(b, q) <= Of(b, p) {
      assert Of(a, p) == Of(b, p) && Of(a, q) == Of(b, q);
    }
    forall p, x | (p, x) in uses ensures x in Of(b, p) { assert Of(a, p) == Of(b, p); }
  }

  ghost predicate From(uses: Relation, froms: set<Id>) {
    forall p, x | (p, x) in uses :: p in froms
  }

  /** What visiting code of f does: ids are the nodes of the code, fs the functions visible around
      it, calls and uses its calls and direct uses.  Unless f itself got something new, every
      call and use in the code is accounted for. */
  ghost predicate Did(m: Sets, b: bool, m': Sets, b': bool, f: Id, ids: set<Id>, fs: set<Id>,
                      calls: Relation, uses: Relation) {
    && Grows(m, m') && OnlyOn(m, m', {f} + ids) && (b' <==> b || Of(m', f) != Of(m, f))
    && Mentions(calls, {f} + ids, fs + ids) && From(uses, {f} + ids)
    && (Of(m', f) == Of(m, f) ==> Closed(m', calls, uses))
  }

  /** Code visited later leaves what was accounted for accounted for: its callees are around it or
      already visited, never in code yet to come. */
  lemma Chain(m: Sets, b: bool, m1: Sets, b1: bool, m2: Sets, b2: bool, f: Id, ids: set<Id>, ids': set<Id>,
              fs: set<Id>, fs': set<Id>, calls: Relation, uses: Relation, calls': Relation, uses': Relation)
    requires Did(m, b, m1, b1, f, ids, fs, calls, uses) && Did(m1, b1, m2, b2, f, ids', fs', calls', uses')
    requires ids' !! fs + {f} + ids && fs' <= fs + ids
    ensures Did(m, b, m2, b2, f, ids + ids', fs, calls + calls', uses + uses')
  {
    if Of(m2, f) == Of(m, f) {
      assert Of(m, f) <= Of(m1, f) <= Of(m2, f);
      assert OnlyOn(m1, m2, ids');
      KeepClosed(m1, m2, ids', calls, uses, {f} + ids, fs + ids);
    }
  }

  /** Nodes below the function bodies of a chunk. */
  function Inner(ds: Decs): set<Id> {
    if ds.DNil? then {} else InnerDec(ds.head) + Inner(ds.tail)
  }

  function InnerDec(d: FunctionDec): set<Id> { if d.body.SomeExp? then OfExp(d.body.exp) else {} }

  /** What one pass over a chunk does: if it ends without a modification then none of the
      functions of the chunk changed, and everything is accounted for. */
  ghost predicate Passed(m: Sets, b: bool, m': Sets, b': bool, ds: Decs, fs: set<Id>, calls: Relation, uses: Relation) {
    && Grows(m, m') && OnlyOn(m, m', Funs(ds) + Inner(ds))
    && Mentions(calls, Funs(ds) + Inner(ds), fs + Inner(ds)) && From(uses, Funs(ds) + Inner(ds))
    && (b' && !b ==> Pairs(m') != Pairs(m))
    && (!b' ==> !b && OnlyOn(m, m', Inner(ds)) && Closed(m', calls, uses))
  }

  lemma PassedOne(m: Sets, b: bool, m1: Sets, b1: bool, m2: Sets, b2: bool, ds: Decs, fs: set<Id>,
                  calls: Relation, uses: Relation, calls': Relation, uses': Relation)
    requires ds.DCons? && Did(m, b, m1, b1, ds.head.id, InnerDec(ds.head), fs, calls, uses)
    requires Passed(m1, b1, m2, b2, ds.tail, fs, calls', uses')
    requires Inner(ds) !! fs && Funs(ds) <= fs && InnerDec(ds.head) !! Inner(ds.tail)
    ensures Passed(m, b, m2, b2, ds, fs, calls + calls', uses + uses')
  {
    var d := ds.head;
    if b2 && !b && b1 {
      PairsGrow(m, m1, d.id);
      PairsMono(m1, m2);
    } else if b2 && !b {
      PairsMono(m, m1);
      PairsMono(m1, m2);
    } else if !b2 {
      KeepClosed(m1, m2, Inner(ds.tail), calls, uses, {d.id} + InnerDec(d), fs + InnerDec(d));
    }
  }

  lemma PairsMono(m: Sets, m': Sets)
    requires Grows(m, m')
    ensures Pairs(m) <= Pairs(m')
  {
    forall p | p in Pairs(m) ensures p in Pairs(m') { assert Of(m, p.0) <= Of(m', p.0); }
  }

  lemma PairsGrow(m: Sets, m': Sets, f: Id)
    requires Grows(m, m') && Of(m, f) != Of(m', f)
    ensures Pairs(m) < Pairs(m')
  {
    PairsMono(m, m');
    var x :| x in Of(m', f) && x !in Of(m, f);
    assert (f, x) in Pairs(m') && (f, x) !in Pairs(m);
  }

  lemma FunsNodes(ds: Decs)
    ensures Funs(ds) <= OfDecs(ds) && Inner(ds) <= OfDecs(ds)
  {}

  lemma FunsApart(ds: Decs)
    requires DistinctDecs(ds)
    ensures Inner(ds) !! Funs(ds)
  {
    if ds.DCons? { FunsApart(ds.tail); FunsNodes(ds.tail); }
  }

  // ----- the collector -----

  class Collector {
    const links: Links
    const escapable: set<Id>
    var didModify: bool
    var escaped: Sets
    var stack: seq<Id>

    constructor (links: Links, escapable: set<Id>)
      ensures this.links == links && this.escapable == escapable
      ensures !didModify && escaped == map[] && stack == []
    {
      this.links, this.escapable := links, escapable;
      didModify, escaped, stack := false, map[], [];
    }

    /** f is the function last entered, the code to visit has the nodes ids of its own. */
    ghost predicate Ready(f: Id, ids: set<Id>, fs: set<Id>, limit: Relation, calls: Relation, uses: Relation)
      reads this
    {
      stack != [] && stack[|stack| - 1] == f && ids !! fs + {f} && Bounded(limit, calls, uses)
    }

    ghost predicate Bounded(limit: Relation, calls: Relation, uses: Relation)
      reads this
    {
      Pairs(escaped) <= limit && Limit(limit, calls, uses)
    }

    method Add(f: Id, x: Id, ghost limit: Relation)
      requires (f, x) in limit && Pairs(escaped) <= limit
      modifies this`escaped, this`didModify
      ensures Pairs(escaped) <= limit && Grows(old(escaped), escaped) && OnlyOn(old(escaped), escaped, {f})
      ensures Of(escaped, f) == Of(old(escaped), f) + {x}
      ensures didModify <==> old(didModify) || Of(escaped, f) != Of(old(escaped), f)
    {
      var s := Of(escaped, f);
      if x !in s { didModify := true; }
      escaped := escaped[f := s + {x}];
    }

    method VisitVarUse(id: Id, ghost f: Id, ghost fs: set<Id>, ghost limit: Relation)
      requires Ready(f, {}, fs, limit, {}, Use(id, f, links, escapable))
      modifies this`escaped, this`didModify
      ensures Pairs(escaped) <= limit
      ensures Did(old(escaped), old(didModify), escaped, didModify, f, {}, fs, {}, Use(id, f, links, escapable))
    {
      var current := stack[|stack| - 1];
      if id in links && links[id] in escapable { Add(current, links[id], limit); }
    }

    method Visit(e: Exp, ghost f: Id, ghost fs: set<Id>, ghost limit: Relation)
      requires Distinct(e) && Scoped(e, fs, links)
      requires Ready(f, OfExp(e), fs, limit, Calls(e, f, links), Uses(e, f, links, escapable))
      modifies this
      ensures stack == old(stack) && Pairs(escaped) <= limit
      ensures Did(old(escaped), old(didModify), escaped, didModify, f, OfExp(e), fs,
                  Calls(e, f, links), Uses(e, f, links, escapable))
      decreases e, 1
    {
      ghost var m, b := escaped, didModify;
      match e {
        case IntExp(_) =>
        case BreakExp(_) =>
        case VarExp(id, _) => VisitVarUse(id, f, fs, limit);
        case SeqExp(es) => VisitAll(es, f, fs, limit);
        case LetExp(sc) => VisitScope(sc, f, fs, limit);
        case CallExp(_, _, _) => VisitCall(e, f, fs, limit);
        case AssignExp(_, _, _) => VisitAssign(e, f, fs, limit);
        case OpExp(x, _, y) =>
          Visit(x, f, fs, limit);
          ghost var m1, b1 := escaped, didModify;
          Visit(y, f, fs, limit);
          ChainExps(m, b, m1, b1, escaped, didModify, f, fs, x, y, links, escapable);
        case WhileExp(_, c, body) =>
          Visit(c, f, fs, limit);
          ghost var m1, b1 := escaped, didModify;
          Visit(body, f, fs, limit);
          ChainExps(m, b, m1, b1, escaped, didModify, f, fs, c, body, links, escapable);
        case IfExp(_, _, _) => VisitIf(e, f, fs, limit);
        case ForExp(_, _, _, _) => VisitFor(e, f, fs, limit);
      }
    }

    method VisitCall(e: Exp, ghost f: Id, ghost fs: set<Id>, ghost limit: Relation)
      requires e.CallExp? && Distinct(e) && Scoped(e, fs, links)
      requires Ready(f, OfExp(e), fs, limit, Calls(e, f, links), Uses(e, f, links, escapable))
      modifies this
      ensures stack == old(stack) && Pairs(escaped) <= limit
      ensures Did(old(escaped), old(didModify), escaped, didModify, f, OfExp(e), fs,
                  Calls(e, f, links), Uses(e, f, links, escapable))
      decreases e, 0
    {
      ghost var m, b := escaped, didModify;
      var CallExp(id, _, args) := e;
      VisitAll(args, f, fs, limit);
      ghost var m1, b1 := escaped, didModify;
      VisitCallee(id, f, fs, limit);
      Chain(m, b, m1, b1, escaped, didModify, f, OfExps(args), {}, fs, fs, CallsAll(args, f, links),
            UsesAll(args, f, links, escapable), if id in links then {(f, links[id])} else {}, {});
    }

    method VisitAssign(e: Exp, ghost f: Id, ghost fs: set<Id>, ghost limit: Relation)
      requires e.AssignExp? && Distinct(e) && Scoped(e, fs, links)
      requires Ready(f, OfExp(e), fs, limit, Calls(e, f, links), Uses(e, f, links, escapable))
      modifies this
      ensures stack == old(stack) && Pairs(escaped) <= limit
      ensures Did(old(escaped), old(didModify), escaped, didModify, f, OfExp(e), fs,
                  Calls(e, f, links), Uses(e, f, links, escapable))
      decreases e, 0
    {
      ghost var m, b := escaped, didModify;
      var AssignExp(id, _, r) := e;
      VisitVarUse(id, f, fs, limit);
      ghost var m1, b1 := escaped, didModify;
      Visit(r, f, fs, limit);
      Chain(m, b, m1, b1, escaped, didModify, f, {}, OfExp(r), fs, fs, {}, Use(id, f, links, escapable),
            Calls(r, f, links), Uses(r, f, links, escapable));
    }

    method VisitIf(e: Exp, ghost f: Id, ghost fs: set<Id>, ghost limit: Relation)
      requires e.IfExp? && Distinct(e) && Scoped(e, fs, links)
      requires Ready(f, OfExp(e), fs, limit, Calls(e, f, links), Uses(e, f, links, escapable))
      modifies this
      ensures stack == old(stack) && Pairs(escaped) <= limit
      ensures Did(old(escaped), old(didModify), escaped, didModify, f, OfExp(e), fs,
                  Calls(e, f, links), Uses(e, f, links, escapable))
      decreases e, 0
    {
      ghost var m, b := escaped, didModify;
      var IfExp(c, t, els) := e;
      Visit(c, f, fs, limit);
      ghost var m1, b1 := escaped, didModify;
      Visit(t, f, fs, limit);
      ChainExps(m, b, m1, b1, escaped, didModify, f, fs, c, t, links, escapable);
      if els.SomeExp? {
        ghost var m2, b2 := escaped, didModify;
        Visit(els.exp, f, fs, limit);
        Chain(m, b, m2, b2, escaped, didModify, f, OfExp(c) + OfExp(t), OfExp(els.exp), fs, fs,
              Calls(c, f, links) + Calls(t, f, links), Uses(c, f, links, escapable) + Uses(t, f, links, escapable),
              Calls(els.exp, f, links), Uses(els.exp, f, links, escapable));
      }
    }

    method VisitFor(e: Exp, ghost f: Id, ghost fs: set<Id>, ghost limit: Relation)
      requires e.ForExp? && Distinct(e) && Scoped(e, fs, links)
      requires Ready(f, OfExp(e), fs, limit, Calls(e, f, links), Uses(e, f, links, escapable))
      modifies this
      ensures stack == old(stack) && Pairs(escaped) <= limit
      ensures Did(old(escaped), old(didModify), escaped, didModify, f, OfExp(e), fs,
                  Calls(e, f, links), Uses(e, f, links, escapable))
      decreases e, 0
    {
      ghost var m, b := escaped, didModify;
      var lo, hi, body := e.index.init, e.hi, e.body;
      Visit(lo, f, fs, limit);
      ghost var m1, b1 := escaped, didModify;
      Visit(hi, f, fs, limit);
      ChainExps(m, b, m1, b1, escaped, didModify, f, fs, lo, hi, links, escapable);
      ghost var m2, b2 := escaped, didModify;
      Visit(body, f, fs, limit);
      Chain(m, b, m2, b2, escaped, didModify, f, OfExp(lo) + OfExp(hi), OfExp(body), fs, fs,
            Calls(lo, f, links) + Calls(hi, f, links), Uses(lo, f, links, escapable) + Uses(hi, f, links, escapable),
            Calls(body, f, links), Uses(body, f, links, escapable));
    }

    /** After the arguments: what the callee has so far is needed by the caller too. */
    method VisitCallee(id: Id, ghost f: Id, ghost fs: set<Id>, ghost limit: Relation)
      requires Ready(f, {}, fs, limit, if id in links then {(f, links[id])} else {}, {})
      requires id in links ==> links[id] in fs
      modifies this`escaped, this`didModify
      ensures Pairs(escaped) <= limit
      ensures Did(old(escaped), old(didModify), escaped, didModify, f, {}, fs,
                  if id in links then {(f, links[id])} else {}, {})
    {
      if id in links {
        var current, rest := stack[|stack| - 1], Of(escaped, links[id]);
        ghost var all := rest;
        while rest != {}
          invariant rest <= all && Grows(old(escaped), escaped) && OnlyOn(old(escaped), escaped, {f})
          invariant Pairs(escaped) <= limit && all - rest <= Of(escaped, f) <= Of(old(escaped), f) + all
          invariant didModify <==> old(didModify) || Of(escaped, f) != Of(old(escaped), f)
        {
          var x :| x in rest;
          assert (links[id], x) in Pairs(old(escaped));
          Add(current, x, limit);
          rest := rest - {x};
        }
      }
    }

    method VisitAll(es: Exps, ghost f: Id, ghost fs: set<Id>, ghost limit: Relation)
      requires DistinctExps(es) && ScopedAll(es, fs, links)
      requires Ready(f, OfExps(es), fs, limit, CallsAll(es, f, links), UsesAll(es, f, links, escapable))
      modifies this
      ensures stack == old(stack) && Pairs(escaped) <= limit
      ensures Did(old(escaped), old(didModify), escaped, didModify, f, OfExps(es), fs,
                  CallsAll(es, f, links), UsesAll(es, f, links, escapable))
      decreases es
    {
      match es {
        case ENil =>
        case ECons(e, rest) =>
          Visit(e, f, fs, limit);
          ghost var m1, b1 := escaped, didModify;
          VisitAll(rest, f, fs, limit);
          Chain(old(escaped), old(didModify), m1, b1, escaped, didModify, f, OfExp(e), OfExps(rest), fs, fs,
                Calls(e, f, links), Uses(e, f, links, escapable), CallsAll(rest, f, links), UsesAll(rest, f, links, escapable));
      }
    }

    method VisitScope(sc: Scope, ghost f: Id, ghost fs: set<Id>, ghost limit: Relation)
      requires DistinctScope(sc) && ScopedScope(sc, fs, links)
      requires Ready(f, OfScope(sc), fs, limit, CallsScope(sc, f, links), UsesScope(sc, f, links, escapable))
      modifies this
      ensures stack == old(stack) && Pairs(escaped) <= limit
      ensures Did(old(escaped), old(didModify), escaped, didModify, f, OfScope(sc), fs,
                  CallsScope(sc, f, links), UsesScope(sc, f, links, escapable))
      decreases sc
    {
      ghost var m, b := escaped, didModify;
      match sc {
        case In(e) => Visit(e, f, fs, limit);
        case With(c, rest) =>
          match c {
            case VarChunk(d) =>
              Visit(d.init, f, fs, limit);
              ghost var m1, b1 := escaped, didModify;
              VisitScope(rest, f, fs, limit);
              Chain(m, b, m1, b1, escaped, didModify, f, OfExp(d.init), OfScope(rest), fs, fs, Calls(d.init, f, links),
                    Uses(d.init, f, links, escapable), CallsScope(rest, f, links), UsesScope(rest, f, links, escapable));
            case FunctionChunk(ds) =>
              FunsNodes(ds);
              FunsApart(ds);
              VisitChunk(ds, fs + Funs(ds), limit);
              ghost var m1, b1 := escaped, didModify;
              VisitScope(rest, f, fs + Funs(ds), limit);
              Chain(m, b, m1, b1, escaped, didModify, f, Funs(ds) + Inner(ds), OfScope(rest), fs, fs + Funs(ds),
                    CallsDecs(ds, links), UsesDecs(ds, links, escapable),
                    CallsScope(rest, f, links), UsesScope(rest, f, links, escapable));
            case TypeChunk(_) => VisitScope(rest, f, fs, limit);
          }
      }
    }

    /** The fixpoint of one chunk.  Its changes are hidden from the chunks around it. */
    method VisitChunk(ds: Decs, ghost fs: set<Id>, ghost limit: Relation)
      requires DistinctDecs(ds) && ScopedDecs(ds, fs, links) && Inner(ds) !! fs && Funs(ds) <= fs
      requires Bounded(limit, CallsDecs(ds, links), UsesDecs(ds, links, escapable))
      modifies this
      ensures stack == old(stack) && didModify == old(didModify) && Pairs(escaped) <= limit
      ensures Grows(old(escaped), escaped) && OnlyOn(old(escaped), escaped, Funs(ds) + Inner(ds))
      ensures Mentions(CallsDecs(ds, links), Funs(ds) + Inner(ds), fs + Inner(ds))
      ensures From(UsesDecs(ds, links, escapable), Funs(ds) + Inner(ds))
      ensures Closed(escaped, CallsDecs(ds, links), UsesDecs(ds, links, escapable))
      decreases ds, 1
    {
      var saved := didModify;
      didModify := ds.DCons?;
      while didModify
        invariant stack == old(stack) && Pairs(escaped) <= limit
        invariant Grows(old(escaped), escaped) && OnlyOn(old(escaped), escaped, Funs(ds) + Inner(ds))
        invariant didModify || (Mentions(CallsDecs(ds, links), Funs(ds) + Inner(ds), fs + Inner(ds))
          && From(UsesDecs(ds, links, escapable), Funs(ds) + Inner(ds))
          && Closed(escaped, CallsDecs(ds, links), UsesDecs(ds, links, escapable)))
        decreases limit - Pairs(escaped), didModify
      {
        ghost var m := escaped;
        didModify := false;
        VisitDecs(ds, fs, limit);
        PairsMono(m, escaped);
      }
      didModify := saved;
    }

    method VisitDecs(ds: Decs, ghost fs: set<Id>, ghost limit: Relation)
      requires DistinctDecs(ds) && ScopedDecs(ds, fs, links) && Inner(ds) !! fs && Funs(ds) <= fs
      requires Bounded(limit, CallsDecs(ds, links), UsesDecs(ds, links, escapable))
      modifies this
      ensures stack == old(stack) && Pairs(escaped) <= limit
      ensures Passed(old(escaped), old(didModify), escaped, didModify, ds, fs,
                     CallsDecs(ds, links), UsesDecs(ds, links, escapable))
      decreases ds, 0
    {
      match ds {
        case DNil =>
        case DCons(d, rest) =>
          VisitDec(d, fs, limit);
          ghost var m1, b1 := escaped, didModify;
          VisitDecs(rest, fs, limit);
          FunsNodes(rest);
          PassedOne(old(escaped), old(didModify), m1, b1, escaped, didModify, ds, fs, CallsDec(d, links),
                    UsesDec(d, links, escapable), CallsDecs(rest, links), UsesDecs(rest, links, escapable));
      }
    }

    method VisitDec(d: FunctionDec, ghost fs: set<Id>, ghost limit: Relation)
      requires DistinctDec(d) && (d.body.SomeExp? ==> Scoped(d.body.exp, fs, links)) && InnerDec(d) !! fs && d.id in fs
      requires Bounded(limit, CallsDec(d, links), UsesDec(d, links, escapable))
      modifies this
      ensures stack == old(stack) && Pairs(escaped) <= limit
      ensures Did(old(escaped), old(didModify), escaped, didModify, d.id, InnerDec(d), fs,
                  CallsDec(d, links), UsesDec(d, links, escapable))
      decreases d
    {
      stack := stack + [d.id];
      if d.body.SomeExp? { Visit(d.body.exp, d.id, fs, limit); }
      stack := stack[..|stack| - 1];
    }
  }

  lemma ChainExps(m: Sets, b: bool, m1: Sets, b1: bool, m2: Sets, b2: bool, f: Id, fs: set<Id>, x: Exp, y: Exp,
                  l: Links, escapable: set<Id>)
    requires Did(m, b, m1, b1, f, OfExp(x), fs, Calls(x, f, l), Uses(x, f, l, escapable))
    requires Did(m1, b1, m2, b2, f, OfExp(y), fs, Calls(y, f, l), Uses(y, f, l, escapable))
    requires OfExp(y) !! fs + {f} + OfExp(x)
    ensures Did(m, b, m2, b2, f, OfExp(x) + OfExp(y), fs, Calls(x, f, l) + Calls(y, f, l),
                Uses(x, f, l, escapable) + Uses(y, f, l, escapable))
  {
    Chain(m, b, m1, b1, m2, b2, f, OfExp(x), OfExp(y), fs, fs, Calls(x, f, l), Uses(x, f, l, escapable),
          Calls(y, f, l), Uses(y, f, l, escapable));
  }

  // ----- exactness -----

  /** path is a chain of calls. */
  ghost predicate CallChain(calls: Relation, path: seq<Id>) {
    path != [] && forall k | 0 < k < |path| :: (path[k - 1], path[k]) in calls
  }

  /** f, or a function it may reach through calls, uses x directly. */
  ghost predicate Needs(calls: Relation, uses: Relation, f: Id, x: Id) {
    exists path :: CallChain(calls, path) && path[0] == f && (path[|path| - 1], x) in uses
  }

  lemma ClosedHasAll(m: Sets, calls: Relation, uses: Relation, path: seq<Id>, x: Id)
    requires Closed(m, calls, uses) && CallChain(calls, path) && (path[|path| - 1], x) in uses
    ensures x in Of(m, path[0])
    decreases |path|
  {
    if |path| > 1 {
      forall k | 0 < k < |path[1..]| ensures (path[1..][k - 1], path[1..][k]) in calls {
        assert (path[k], path[k + 1]) in calls;
      }
      ClosedHasAll(m, calls, uses, path[1..], x);
      assert (path[0], path[1]) in calls;
    }
  }

  ghost function AllNeeds(calls: Relation, uses: Relation): Relation {
    set p, u | p in calls + uses && u in uses && Needs(calls, uses, p.0, u.1) :: (p.0, u.1)
  }

  lemma AllNeedsExact(calls: Relation, uses: Relation, f: Id, x: Id)
    ensures (f, x) in AllNeeds(calls, uses) <==> Needs(calls, uses, f, x)
  {
    if Needs(calls, uses, f, x) {
      var path :| CallChain(calls, path) && path[0] == f && (path[|path| - 1], x) in uses;
      var p := if |path| == 1 then (f, x) else (f, path[1]);
      if |path| > 1 { assert (path[0], path[1]) in calls; }
      assert p in calls + uses && (path[|path| - 1], x) in uses;
    }
  }

  lemma NeedsStep(calls: Relation, uses: Relation, p: Id, q: Id, x: Id)
    requires (p, q) in calls && Needs(calls, uses, q, x)
    ensures Needs(calls, uses, p, x)
  {
    var path :| CallChain(calls, path) && path[0] == q && (path[|path| - 1], x) in uses;
    var path' := [p] + path;
    assert CallChain(calls, path') && path'[0] == p && path'[|path'| - 1] == path[|path| - 1];
  }

  lemma NeedsLimit(calls: Relation, uses: Relation)
    ensures Limit(AllNeeds(calls, uses), calls, uses)
  {
    forall u | u in uses ensures u in AllNeeds(calls, uses) {
      assert CallChain(calls, [u.0]);
      AllNeedsExact(calls, uses, u.0, u.1);
    }
    forall p, q, x | (p, q) in calls && (q, x) in AllNeeds(calls, uses)
      ensures (p, x) in AllNeeds(calls, uses)
    {
      AllNeedsExact(calls, uses, q, x);
      NeedsStep(calls, uses, p, q, x);
      AllNeedsExact(calls, uses, p, x);
    }
  }

  lemma Exact(m: Sets, calls: Relation, uses: Relation, f: Id, x: Id)
    requires Closed(m, calls, uses) && Pairs(m) <= AllNeeds(calls, uses)
    ensures x in Of(m, f) <==> Needs(calls, uses, f, x)
  {
    AllNeedsExact(calls, uses, f, x);
    if x in Of(m, f) { assert (f, x) in Pairs(m); }
    if Needs(calls, uses, f, x) {
      var path :| CallChain(calls, path) && path[0] == f && (path[|path| - 1], x) in uses;
      ClosedHasAll(m, calls, uses, path, x);
    }
  }

  /** A program at the top level: chunks of functions, the primitives and then `_main`. */
  datatype Program = End | Chunk(decs: Decs, rest: Program)

  function ProgramCalls(p: Program, l: Links): Relation {
    if p.End? then {} else CallsDecs(p.decs, l) + ProgramCalls(p.rest, l)
  }

  function ProgramUses(p: Program, l: Links, escapable: set<Id>): Relation {
    if p.End? then {} else UsesDecs(p.decs, l, escapable) + ProgramUses(p.rest, l, escapable)
  }

  function ProgramNodes(p: Program): set<Id> {
    if p.End? then {} else OfDecs(p.decs) + ProgramNodes(p.rest)
  }

  /** Distinct nodes, and calls in scope: fs are the functions declared before p. */
  ghost predicate GoodProgram(p: Program, fs: set<Id>, l: Links) {
    p.Chunk? ==>
      && DistinctDecs(p.decs) && OfDecs(p.decs) !! fs && ProgramNodes(p.rest) !! fs + OfDecs(p.decs)
      && ScopedDecs(p.decs, fs + Funs(p.decs), l) && GoodProgram(p.rest, fs + Funs(p.decs), l)
  }

  method VisitProgram(collector: Collector, p: Program, ghost fs: set<Id>, ghost limit: Relation)
    requires GoodProgram(p, fs, collector.links)
    requires collector.Bounded(limit, ProgramCalls(p, collector.links), ProgramUses(p, collector.links, collector.escapable))
    modifies collector
    ensures Pairs(collector.escaped) <= limit
    ensures Grows(old(collector.escaped), collector.escaped)
    ensures OnlyOn(old(collector.escaped), collector.escaped, ProgramNodes(p))
    ensures Closed(collector.escaped, ProgramCalls(p, collector.links), ProgramUses(p, collector.links, collector.escapable))
    decreases p
  {
    if p.Chunk? {
      ghost var l, vars, ds := collector.links, collector.escapable, p.decs;
      FunsNodes(ds);
      FunsApart(ds);
      collector.VisitChunk(p.decs, fs + Funs(ds), limit);
      ghost var m := collector.escaped;
      VisitProgram(collector, p.rest, fs + Funs(ds), limit);
      KeepClosed(m, collector.escaped, ProgramNodes(p.rest), CallsDecs(ds, l), UsesDecs(ds, l, vars),
                 OfDecs(ds), fs + OfDecs(ds));
    }
  }

  /** Each function gets exactly the variables that it needs. */
  method CollectEscapes(p: Program, links: Links, escapable: set<Id>) returns (escaped: Sets)
    requires GoodProgram(p, {}, links)
    ensures forall f, x :: x in Of(escaped, f) <==>
      Needs(ProgramCalls(p, links), ProgramUses(p, links, escapable), f, x)
    ensures Closed(escaped, ProgramCalls(p, links), ProgramUses(p, links, escapable))
  {
    var collector := new Collector(links, escapable);
    ghost var calls, uses := ProgramCalls(p, links), ProgramUses(p, links, escapable);
    NeedsLimit(calls, uses);
    VisitProgram(collector, p, {}, AllNeeds(calls, uses));
    escaped := collector.escaped;
    ExactAll(escaped, calls, uses);
  }

  lemma ExactAll(m: Sets, calls: Relation, uses: Relation)
    requires Closed(m, calls, uses) && Pairs(m) <= AllNeeds(calls, uses)
    ensures forall f, x :: x in Of(m, f) <==> Needs(calls, uses, f, x)
  {
    forall f, x ensures x in Of(m, f) <==> Needs(calls, uses, f, x) { Exact(m, calls, uses, f, x); }
  }

  // ----- a bound tree is scoped -----

  /** The scoping the collector relies on is what the binder established. */
  lemma LinkedScoped(e: Exp, n: Names, fs: set<Id>, l: Links)
    requires Linked(e, n, l) && n.funs.Values <= fs
    ensures Scoped(e, fs, l)
  {
    match e
    case OpExp(a, _, b) => LinkedScoped(a, n, fs, l); LinkedScoped(b, n, fs, l);
    case SeqExp(es) => LinkedScopedAll(es, n, fs, l);
    case AssignExp(_, _, r) => LinkedScoped(r, n, fs, l);
    case IfExp(c, t, els) =>
      LinkedScoped(c, n, fs, l);
      LinkedScoped(t, n, fs, l);
      if els.SomeExp? { LinkedScoped(els.exp, n, fs, l); }
    case WhileExp(id, c, b) => LinkedScoped(c, Enter(n, id), fs, l); LinkedScoped(b, Enter(n, id), fs, l);
    case ForExp(id, d, hi, b) =>
      var n' := PutVar(Enter(n, id), d.name, d.id);
      LinkedScoped(d.init, n', fs, l);
      LinkedScoped(hi, n', fs, l);
      LinkedScoped(b, n', fs, l);
    case CallExp(id, f, args) =>
      if id in l { assert Find(l, id) == Find(n.funs, f); }
      LinkedScopedAll(args, n, fs, l);
    case LetExp(sc) => LinkedScopedScope(sc, n, fs, l);
    case _ =>
  }

  lemma LinkedScopedAll(es: Exps, n: Names, fs: set<Id>, l: Links)
    requires AllLinked(es, n, l) && n.funs.Values <= fs
    ensures ScopedAll(es, fs, l)
  {
    if es.ECons? { LinkedScoped(es.head, n, fs, l); LinkedScopedAll(es.tail, n, fs, l); }
  }

  lemma LinkedScopedScope(sc: Scope, n: Names, fs: set<Id>, l: Links)
    requires ScopeLinked(sc, n, l) && n.funs.Values <= fs
    ensures ScopedScope(sc, fs, l)
  {
    match sc
    case In(b) => LinkedScoped(b, n, fs, l);
    case With(VarChunk(d), rest) =>
      var n' := PutVar(n, d.name, d.id);
      LinkedScoped(d.init, n', fs, l);
      LinkedScopedScope(rest, n', fs, l);
    case With(FunctionChunk(ds), rest) =>
      var n' := AddFirst(ds, n, {});
      AddFirstFuns(ds, n, {}, fs);
      LinkedScopedDecs(ds, n', fs + Funs(ds), l);
      PutAllFuns(ds, n', fs + Funs(ds));
      LinkedScopedScope(rest, PutAll(ds, n'), fs + Funs(ds), l);
    case With(TypeChunk(ts), rest) =>
      var n' := AddFirstTypes(ts, n, {});
      AddFirstTypesVars(ts, n, {});
      PutAllTypesVars(ts, n');
      LinkedScopedScope(rest, PutAllTypes(ts, n'), fs, l);
  }

  lemma AddFirstFuns(ds: Decs, n: Names, seen: set<Symbol>, fs: set<Id>)
    requires n.funs.Values <= fs
    ensures AddFirst(ds, n, seen).funs.Values <= fs + Funs(ds)
  {
    if ds.DCons? {
      var n' := PutFun(n, ds.head.name, ds.head.id);
      if ds.head.name in seen { AddFirstFuns(ds.tail, n, seen, fs); }
      else { AddFirstFuns(ds.tail, n', seen + {ds.head.name}, fs + {ds.head.id}); }
    }
  }

  lemma PutAllFuns(ds: Decs, n: Names, fs: set<Id>)
    requires n.funs.Values <= fs && Funs(ds) <= fs
    ensures PutAll(ds, n).funs.Values <= fs
  {
    if ds.DCons? { PutAllFuns(ds.tail, PutFun(n, ds.head.name, ds.head.id), fs); }
  }

  lemma PutFormalsFuns(fms: seq<Formal>, n: Names)
    ensures PutFormals(fms, n).funs == n.funs
  {}

  lemma LinkedScopedDecs(ds: Decs, n: Names, fs: set<Id>, l: Links)
    requires DecsLinked(ds, n, l) && n.funs.Values <= fs && Funs(ds) <= fs
    ensures ScopedDecs(ds, fs, l)
  {
    if ds.DCons? {
      var d, n' := ds.head, PutFun(n, ds.head.name, ds.head.id);
      if d.body.SomeExp? {
        PutFormalsFuns(d.formals, n');
        LinkedScoped(d.body.exp, PutFormals(d.formals, n'), fs, l);
      }
      LinkedScopedDecs(ds.tail, n', fs, l);
    }
  }
}
