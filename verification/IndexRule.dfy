/** The rule about `for` indices, told by links: a program is refused exactly if the body of some
    loop, at any depth, assigns to the index of that loop. */
module IndexRule {
  import opened Options
  import opened Ast
  import opened Nodes
  import opened Binder
  import opened Binding
  import opened ReadOnly
  import opened TypeChecker
  import RenameBind

  /** The declarations that assignments in e are linked to. */
  function Assigned(e: Exp, l: Links): set<Id> {
    match e
    case IntExp(_) => {}
    case VarExp(_, _) => {}
    case OpExp(a, _, b) => Assigned(a, l) + Assigned(b, l)
    case SeqExp(es) => AssignedAll(es, l)
    case AssignExp(id, _, r) => (if id in l then {l[id]} else {}) + Assigned(r, l)
    case IfExp(c, t, f) => Assigned(c, l) + Assigned(t, l) + if f.SomeExp? then Assigned(f.exp, l) else {}
    case WhileExp(_, c, b) => Assigned(c, l) + Assigned(b, l)
    case ForExp(_, d, hi, b) => Assigned(d.init, l) + Assigned(hi, l) + Assigned(b, l)
    case BreakExp(_) => {}
    case CallExp(_, _, args) => AssignedAll(args, l)
    case LetExp(sc) => AssignedScope(sc, l)
  }

  function AssignedAll(es: Exps, l: Links): set<Id> {
    if es.ENil? then {} else Assigned(es.head, l) + AssignedAll(es.tail, l)
  }

  function AssignedScope(sc: Scope, l: Links): set<Id> {
    match sc
    case In(b) => Assigned(b, l)
    case With(VarChunk(d), rest) => Assigned(d.init, l) + AssignedScope(rest, l)
    case With(FunctionChunk(ds), rest) => AssignedDecs(ds, l) + AssignedScope(rest, l)
    case With(TypeChunk(_), rest) => AssignedScope(rest, l)
  }

  function AssignedDecs(ds: Decs, l: Links): set<Id> {
    if ds.DNil? then {}
    else (if ds.head.body.SomeExp? then Assigned(ds.head.body.exp, l) else {}) + AssignedDecs(ds.tail, l)
  }

  /** No loop of e assigns to its own index in its body. */
  predicate IndicesKept(e: Exp, l: Links) {
    match e
    case IntExp(_) => true
    case VarExp(_, _) => true
    case OpExp(a, _, b) => IndicesKept(a, l) && IndicesKept(b, l)
    case SeqExp(es) => IndicesKeptAll(es, l)
    case AssignExp(_, _, r) => IndicesKept(r, l)
    case IfExp(c, t, f) => IndicesKept(c, l) && IndicesKept(t, l) && (f.SomeExp? ==> IndicesKept(f.exp, l))
    case WhileExp(_, c, b) => IndicesKept(c, l) && IndicesKept(b, l)
    case ForExp(_, d, hi, b) => d.id !in Assigned(b, l) && IndicesKept(d.init, l) && IndicesKept(hi, l) && IndicesKept(b, l)
    case BreakExp(_) => true
    case CallExp(_, _, args) => IndicesKeptAll(args, l)
    case LetExp(sc) => IndicesKeptScope(sc, l)
  }

  predicate IndicesKeptAll(es: Exps, l: Links) {
    es.ECons? ==> IndicesKept(es.head, l) && IndicesKeptAll(es.tail, l)
  }

  predicate IndicesKeptScope(sc: Scope, l: Links) {
    match sc
    case In(b) => IndicesKept(b, l)
    case With(VarChunk(d), rest) => IndicesKept(d.init, l) && IndicesKeptScope(rest, l)
    case With(FunctionChunk(ds), rest) => IndicesKeptDecs(ds, l) && IndicesKeptScope(rest, l)
    case With(TypeChunk(_), rest) => IndicesKeptScope(rest, l)
  }

  predicate IndicesKeptDecs(ds: Decs, l: Links) {
    ds.DCons? ==> (ds.head.body.SomeExp? ==> IndicesKept(ds.head.body.exp, l)) && IndicesKeptDecs(ds.tail, l)
  }

  /** In a part that is linked in n, under the marks m, where ro are the read-only declarations. */
  lemma {:induction false} AcceptsByLinks(e: Exp, m: Marks, n: Names, ro: set<Id>, l: Links)
    requires Linked(e, n, l) && Distinct(e) && Within(m, n, ro, OfExp(e))
    ensures Accepts(e, m) <==> IndicesKept(e, l) && Assigned(e, l) !! ro
    decreases e, 1
  {
    match e
    case IntExp(_) =>
    case VarExp(_, _) =>
    case BreakExp(_) =>
    case OpExp(a, _, b) => AcceptsByLinks(a, m, n, ro, l); AcceptsByLinks(b, m, n, ro, l);
    case SeqExp(es) => AllByLinks(es, m, n, ro, l);
    case AssignExp(id, x, r) =>
      AcceptsByLinks(r, m, n, ro, l);
      AgreeMarked(m, ro, x);
      assert Find(l, id) == Find(n.vars, x);
    case IfExp(c, t, f) =>
      AcceptsByLinks(c, m, n, ro, l);
      AcceptsByLinks(t, m, n, ro, l);
      if f.SomeExp? { AcceptsByLinks(f.exp, m, n, ro, l); }
    case WhileExp(id, c, b) => AcceptsByLinks(c, m, Enter(n, id), ro, l); AcceptsByLinks(b, m, Enter(n, id), ro, l);
    case ForExp(_, _, _, _) => ForByLinks(e, m, n, ro, l);
    case CallExp(_, _, args) => AllByLinks(args, m, n, ro, l);
    case LetExp(sc) => ScopeByLinks(sc, m, n, ro, l);
  }

  lemma {:induction false} ForByLinks(e: Exp, m: Marks, n: Names, ro: set<Id>, l: Links)
    requires e.ForExp? && Linked(e, n, l) && Distinct(e) && Within(m, n, ro, OfExp(e))
    ensures Accepts(e, m) <==> IndicesKept(e, l) && Assigned(e, l) !! ro
    decreases e, 0
  {
    var d, n' := e.index, PutVar(Enter(n, e.id), e.index.name, e.index.id);
    AcceptsByLinks(d.init, MVar(d.id, d.name, false, m), n', ro, l);
    AcceptsByLinks(e.hi, MVar(d.id, d.name, false, m), n', ro, l);
    AgreeGrow(m, ro, d.id);
    AcceptsByLinks(e.body, MVar(d.id, d.name, true, m), n', ro + {d.id}, l);
  }

  lemma {:induction false} AllByLinks(es: Exps, m: Marks, n: Names, ro: set<Id>, l: Links)
    requires AllLinked(es, n, l) && DistinctExps(es) && Within(m, n, ro, OfExps(es))
    ensures AcceptsAll(es, m) <==> IndicesKeptAll(es, l) && AssignedAll(es, l) !! ro
    decreases es
  {
    if es.ECons? { AcceptsByLinks(es.head, m, n, ro, l); AllByLinks(es.tail, m, n, ro, l); }
  }

  lemma {:induction false} ScopeByLinks(sc: Scope, m: Marks, n: Names, ro: set<Id>, l: Links)
    requires ScopeLinked(sc, n, l) && DistinctScope(sc) && Within(m, n, ro, OfScope(sc))
    ensures AcceptsScope(sc, m) <==> IndicesKeptScope(sc, l) && AssignedScope(sc, l) !! ro
    decreases sc
  {
    hide AddFirst, PutAll, AddFirstTypes, PutAllTypes;
    match sc
    case In(b) => AcceptsByLinks(b, m, n, ro, l);
    case With(VarChunk(d), rest) =>
      var m', n' := MVar(d.id, d.name, false, m), PutVar(n, d.name, d.id);
      AcceptsByLinks(d.init, m', n', ro, l);
      ScopeByLinks(rest, m', n', ro, l);
    case With(FunctionChunk(ds), rest) =>
      var n' := AddFirst(ds, n, {});
      AddFirstVars(ds, n, {});
      PutAllVars(ds, n');
      DecsByLinks(ds, MFun(ds, m), n', ro, l);
      ScopeByLinks(rest, MFun(ds, m), PutAll(ds, n'), ro, l);
    case With(TypeChunk(ts), rest) =>
      var n' := AddFirstTypes(ts, n, {});
      AddFirstTypesVars(ts, n, {});
      PutAllTypesVars(ts, n');
      ScopeByLinks(rest, m, PutAllTypes(ts, n'), ro, l);
  }

  lemma {:induction false} DecsByLinks(ds: Decs, m: Marks, n: Names, ro: set<Id>, l: Links)
    requires DecsLinked(ds, n, l) && DistinctDecs(ds) && Within(m, n, ro, OfDecs(ds))
    ensures AcceptsDecs(ds, m) <==> IndicesKeptDecs(ds, l) && AssignedDecs(ds, l) !! ro
    decreases ds
  {
    if ds.DCons? {
      var d, n' := ds.head, PutFun(n, ds.head.name, ds.head.id);
      if d.body.SomeExp? {
        FormalsWithin(d.formals, m, n', ro, OfExp(d.body.exp));
        AcceptsByLinks(d.body.exp, MarkFormals(d.formals, m), PutFormals(d.formals, n'), ro, l);
      }
      DecsByLinks(ds.tail, m, n', ro, l);
    }
  }

  /** A whole program is accepted exactly if no loop assigns to its own index. */
  lemma AcceptsExactly(e: Exp, l: Links)
    requires Linked(e, RenameBind.CLOSED, l) && Distinct(e)
    ensures Accepts(e, MEmpty) <==> IndicesKept(e, l)
  {
    assert Vars(MEmpty) == map[] && MarkIds(MEmpty) == {} && Agree(MEmpty, {});
    AcceptsByLinks(e, MEmpty, RenameBind.CLOSED, {}, l);
  }
}
