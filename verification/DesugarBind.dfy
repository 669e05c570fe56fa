/** What binding a desugared tree gives, for the visitor on its own: the uses the user wrote keep
    their declarations exactly when nothing is captured by the inserted variables. */
module DesugarBind {
  import opened Options
  import opened Ast
  import opened Nodes
  import opened Binder
  import opened Binding
  import opened Desugaring

  type Vars = map<Symbol, Id>

  function PutVars(fs: seq<Formal>, v: Vars): Vars { if fs == [] then v else PutVars(fs[1..], v[fs[0].name := fs[0].id]) }

  /** The uses of variables among ids are linked to the declarations in scope. */
  predicate VarsLinked(e: Exp, v: Vars, l: Links, ids: set<Id>) {
    match e
    case IntExp(_) => true
    case BreakExp(_) => true
    case VarExp(id, x) => id in ids ==> Find(l, id) == Find(v, x)
    case OpExp(a, _, b) => VarsLinked(a, v, l, ids) && VarsLinked(b, v, l, ids)
    case SeqExp(es) => VarsAllLinked(es, v, l, ids)
    case AssignExp(id, x, r) => (id in ids ==> Find(l, id) == Find(v, x)) && VarsLinked(r, v, l, ids)
    case IfExp(c, t, f) => VarsLinked(c, v, l, ids) && VarsLinked(t, v, l, ids) && (f.SomeExp? ==> VarsLinked(f.exp, v, l, ids))
    case WhileExp(_, c, b) => VarsLinked(c, v, l, ids) && VarsLinked(b, v, l, ids)
    case ForExp(_, d, hi, b) =>
      var v' := v[d.name := d.id];
      VarsLinked(d.init, v', l, ids) && VarsLinked(hi, v', l, ids) && VarsLinked(b, v', l, ids)
    case CallExp(_, _, args) => VarsAllLinked(args, v, l, ids)
    case LetExp(sc) => VarsScopeLinked(sc, v, l, ids)
  }

  predicate VarsAllLinked(es: Exps, v: Vars, l: Links, ids: set<Id>) {
    es.ECons? ==> VarsLinked(es.head, v, l, ids) && VarsAllLinked(es.tail, v, l, ids)
  }

  predicate VarsScopeLinked(sc: Scope, v: Vars, l: Links, ids: set<Id>) {
    match sc
    case In(b) => VarsLinked(b, v, l, ids)
    case With(VarChunk(d), rest) =>
      var v' := v[d.name := d.id]; VarsLinked(d.init, v', l, ids) && VarsScopeLinked(rest, v', l, ids)
    case With(FunctionChunk(ds), rest) => VarsDecsLinked(ds, v, l, ids) && VarsScopeLinked(rest, v, l, ids)
    case With(TypeChunk(_), rest) => VarsScopeLinked(rest, v, l, ids)
  }

  predicate VarsDecsLinked(ds: Decs, v: Vars, l: Links, ids: set<Id>) {
    ds.DCons? ==>
      && (ds.head.body.SomeExp? ==> VarsLinked(ds.head.body.exp, PutVars(ds.head.formals, v), l, ids))
      && VarsDecsLinked(ds.tail, v, l, ids)
  }

  // ----- the binder links variables in this way -----

  lemma PutFormalsVars(fs: seq<Formal>, n: Names)
    ensures PutFormals(fs, n).vars == PutVars(fs, n.vars)
  {}

  lemma {:induction false} LinkedVars(e: Exp, n: Names, l: Links, ids: set<Id>)
    requires Linked(e, n, l)
    ensures VarsLinked(e, n.vars, l, ids)
    decreases e
  {
    match e
    case OpExp(a, _, b) => LinkedVars(a, n, l, ids); LinkedVars(b, n, l, ids);
    case SeqExp(es) => AllLinkedVars(es, n, l, ids);
    case AssignExp(_, _, r) => LinkedVars(r, n, l, ids);
    case IfExp(c, t, f) => LinkedVars(c, n, l, ids); LinkedVars(t, n, l, ids); if f.SomeExp? { LinkedVars(f.exp, n, l, ids); }
    case WhileExp(id, c, b) => LinkedVars(c, Enter(n, id), l, ids); LinkedVars(b, Enter(n, id), l, ids);
    case ForExp(id, d, hi, b) =>
      var n' := PutVar(Enter(n, id), d.name, d.id);
      LinkedVars(d.init, n', l, ids);
      LinkedVars(hi, n', l, ids);
      LinkedVars(b, n', l, ids);
    case CallExp(_, _, args) => AllLinkedVars(args, n, l, ids);
    case LetExp(sc) => ScopeLinkedVars(sc, n, l, ids);
    case _ =>
  }

  lemma {:induction false} AllLinkedVars(es: Exps, n: Names, l: Links, ids: set<Id>)
    requires AllLinked(es, n, l)
    ensures VarsAllLinked(es, n.vars, l, ids)
    decreases es
  {
    if es.ECons? { LinkedVars(es.head, n, l, ids); AllLinkedVars(es.tail, n, l, ids); }
  }

  lemma {:induction false} ScopeLinkedVars(sc: Scope, n: Names, l: Links, ids: set<Id>)
    requires ScopeLinked(sc, n, l)
    ensures VarsScopeLinked(sc, n.vars, l, ids)
    decreases sc
  {
    match sc
    case In(b) => LinkedVars(b, n, l, ids);
    case With(VarChunk(d), rest) =>
      var n' := PutVar(n, d.name, d.id);
      LinkedVars(d.init, n', l, ids);
      ScopeLinkedVars(rest, n', l, ids);
    case With(FunctionChunk(ds), rest) =>
      var n' := AddFirst(ds, n, {});
      AddFirstVars(ds, n, {});
      PutAllVars(ds, n');
      DecsLinkedVars(ds, n', l, ids);
      ScopeLinkedVars(rest, PutAll(ds, n'), l, ids);
    case With(TypeChunk(ts), rest) =>
      var n' := AddFirstTypes(ts, n, {});
      AddFirstTypesVars(ts, n, {});
      PutAllTypesVars(ts, n');
      ScopeLinkedVars(rest, PutAllTypes(ts, n'), l, ids);
  }

  lemma {:induction false} DecsLinkedVars(ds: Decs, n: Names, l: Links, ids: set<Id>)
    requires DecsLinked(ds, n, l)
    ensures VarsDecsLinked(ds, n.vars, l, ids)
    decreases ds
  {
    if ds.DCons? {
      var n' := PutFun(n, ds.head.name, ds.head.id);
      PutFormalsVars(ds.head.formals, n');
      if ds.head.body.SomeExp? { LinkedVars(ds.head.body.exp, PutFormals(ds.head.formals, n'), l, ids); }
      DecsLinkedVars(ds.tail, n', l, ids);
    }
  }

  // ----- when the desugared tree has the same links -----

  predicate User(ids: set<Id>) { forall id | id in ids :: id.Node? }

  /** The scopes v, of the tree, and v', of the desugared tree, know nothing of the nodes ids. */
  predicate Outside(v: Vars, v': Vars, ids: set<Id>) { User(v.Values) && User(ids) && v.Values !! ids && v'.Values !! ids }

  predicate Agree(xs: set<Symbol>, v: Vars, v': Vars) { forall x | x in xs :: Find(v, x) == Find(v', x) }

  lemma OutsideLess(v: Vars, v': Vars, ids: set<Id>, less: set<Id>)
    requires Outside(v, v', ids) && less <= ids
    ensures Outside(v, v', less)
  {}

  lemma OutsidePut(v: Vars, v': Vars, x: Symbol, d: Id, ids: set<Id>)
    requires Outside(v, v', ids + {d}) && d !in ids
    ensures Outside(v[x := d], v'[x := d], ids)
  {
    assert v[x := d].Values <= v.Values + {d} && v'[x := d].Values <= v'.Values + {d};
  }

  /** A declaration of both trees enters both scopes. */
  lemma AgreePut(xs: set<Symbol>, v: Vars, v': Vars, x: Symbol, d: Id)
    ensures Agree(xs, v[x := d], v'[x := d]) <==> Agree(xs - {x}, v, v')
  {
    if Agree(xs, v[x := d], v'[x := d]) {
      forall y | y in xs - {x} ensures Find(v, y) == Find(v', y) { assert Find(v[x := d], y) == Find(v'[x := d], y); }
    }
    if Agree(xs - {x}, v, v') {
      forall y | y in xs ensures Find(v[x := d], y) == Find(v'[x := d], y) { if y != x { assert y in xs - {x}; } }
    }
  }

  lemma {:induction false} AgreeFormals(xs: set<Symbol>, v: Vars, v': Vars, fs: seq<Formal>)
    ensures Agree(xs, PutVars(fs, v), PutVars(fs, v')) <==> Agree(xs - FormalNames(fs), v, v')
    decreases |fs|
  {
    if fs != [] {
      AgreeFormals(xs, v[fs[0].name := fs[0].id], v'[fs[0].name := fs[0].id], fs[1..]);
      AgreePut(xs - FormalNames(fs[1..]), v, v', fs[0].name, fs[0].id);
      assert xs - FormalNames(fs[1..]) - {fs[0].name} == xs - FormalNames(fs);
    } else {
      assert xs - FormalNames(fs) == xs;
    }
  }

  lemma {:induction false} OutsideFormals(fs: seq<Formal>, v: Vars, v': Vars, ids: set<Id>)
    requires Outside(v, v', ids + OfFormals(fs)) && DistinctFormals(fs) && OfFormals(fs) !! ids
    ensures Outside(PutVars(fs, v), PutVars(fs, v'), ids)
    decreases |fs|
  {
    if fs != [] {
      var d := fs[0].id;
      OutsideLess(v, v', ids + OfFormals(fs), ids + OfFormals(fs[1..]) + {d});
      OutsidePut(v, v', fs[0].name, d, ids + OfFormals(fs[1..]));
      OutsideFormals(fs[1..], v[fs[0].name := d], v'[fs[0].name := d], ids);
    } else {
      assert ids + OfFormals(fs) == ids;
    }
  }

  /** In the scope v' the uses of the desugared e that the user wrote are linked as those of e in v
      exactly when no loop captures one and both scopes agree on what e uses. */
  lemma {:induction false} SameLinks(e: Exp, v: Vars, v': Vars, l: Links, ids: set<Id>)
    requires VarsLinked(e, v, l, ids) && Distinct(e) && OfExp(e) <= ids && User(ids) && Outside(v, v', OfExp(e))
    ensures VarsLinked(Desugar(e), v', l, ids) <==> Every(LINKS, e) && Agree(Free(e), v, v')
    decreases e, 1
  {
    hide Outside, Agree;
    match e
    case IntExp(_) => NoneAgree(v, v');
    case BreakExp(_) => NoneAgree(v, v');
    case VarExp(_, x) => OneAgrees(x, v, v');
    case OpExp(a, _, b) =>
      OutsideLess(v, v', OfExp(e), OfExp(a));
      OutsideLess(v, v', OfExp(e), OfExp(b));
      SameLinks(a, v, v', l, ids);
      SameLinks(b, v, v', l, ids);
      BothAgree(Free(a), Free(b), v, v');
    case SeqExp(es) => SameLinksAll(es, v, v', l, ids);
    case AssignExp(_, x, r) =>
      OutsideLess(v, v', OfExp(e), OfExp(r));
      SameLinks(r, v, v', l, ids);
      OneAgrees(x, v, v');
      BothAgree({x}, Free(r), v, v');
    case IfExp(c, t, f) => SameLinksIf(e, v, v', l, ids);
    case WhileExp(_, c, b) =>
      OutsideLess(v, v', OfExp(e), OfExp(c));
      OutsideLess(v, v', OfExp(e), OfExp(b));
      SameLinks(c, v, v', l, ids);
      SameLinks(b, v, v', l, ids);
      BothAgree(Free(c), Free(b), v, v');
    case ForExp(_, _, _, _) => SameLinksFor(e, v, v', l, ids);
    case CallExp(_, _, args) =>
      OutsideLess(v, v', OfExp(e), OfExps(args));
      SameLinksAll(args, v, v', l, ids);
    case LetExp(sc) => SameLinksScope(sc, v, v', l, ids);
  }

  lemma NoneAgree(v: Vars, v': Vars)
    ensures Agree({}, v, v')
  {}

  lemma OneAgrees(x: Symbol, v: Vars, v': Vars)
    ensures Agree({x}, v, v') <==> Find(v, x) == Find(v', x)
  {}

  lemma BothAgree(xs: set<Symbol>, ys: set<Symbol>, v: Vars, v': Vars)
    ensures Agree(xs + ys, v, v') <==> Agree(xs, v, v') && Agree(ys, v, v')
  {}

  lemma {:induction false} SameLinksIf(e: Exp, v: Vars, v': Vars, l: Links, ids: set<Id>)
    requires e.IfExp?
    requires VarsLinked(e, v, l, ids) && Distinct(e) && OfExp(e) <= ids && User(ids) && Outside(v, v', OfExp(e))
    ensures VarsLinked(Desugar(e), v', l, ids) <==> Every(LINKS, e) && Agree(Free(e), v, v')
    decreases e, 0
  {
    hide Outside, Agree;
    var IfExp(c, t, f) := e;
    var fs := if f.SomeExp? then Free(f.exp) else {};
    OutsideLess(v, v', OfExp(e), OfExp(c));
    OutsideLess(v, v', OfExp(e), OfExp(t));
    SameLinks(c, v, v', l, ids);
    SameLinks(t, v, v', l, ids);
    if f.SomeExp? {
      OutsideLess(v, v', OfExp(e), OfExp(f.exp));
      SameLinks(f.exp, v, v', l, ids);
    } else {
      NoneAgree(v, v');
    }
    BothAgree(Free(c), Free(t), v, v');
    BothAgree(Free(c) + Free(t), fs, v, v');
  }

  lemma {:induction false} SameLinksAll(es: Exps, v: Vars, v': Vars, l: Links, ids: set<Id>)
    requires VarsAllLinked(es, v, l, ids) && DistinctExps(es) && OfExps(es) <= ids && User(ids) && Outside(v, v', OfExps(es))
    ensures VarsAllLinked(DesugarAll(es), v', l, ids) <==> EveryAll(LINKS, es) && Agree(FreeAll(es), v, v')
    decreases es
  {
    hide Outside, Agree;
    if es.ECons? {
      OutsideLess(v, v', OfExps(es), OfExp(es.head));
      OutsideLess(v, v', OfExps(es), OfExps(es.tail));
      SameLinks(es.head, v, v', l, ids);
      SameLinksAll(es.tail, v, v', l, ids);
      BothAgree(Free(es.head), FreeAll(es.tail), v, v');
    } else {
      NoneAgree(v, v');
    }
  }

  lemma {:induction false} SameLinksScope(sc: Scope, v: Vars, v': Vars, l: Links, ids: set<Id>)
    requires VarsScopeLinked(sc, v, l, ids) && DistinctScope(sc) && OfScope(sc) <= ids && User(ids) && Outside(v, v', OfScope(sc))
    ensures VarsScopeLinked(DesugarScope(sc), v', l, ids) <==> EveryScope(LINKS, sc) && Agree(FreeScope(sc), v, v')
    decreases sc
  {
    hide Outside, Agree;
    match sc
    case In(b) => SameLinks(b, v, v', l, ids);
    case With(VarChunk(d), rest) =>
      OutsideLess(v, v', OfScope(sc), OfExp(d.init) + {d.id});
      OutsideLess(v, v', OfScope(sc), OfScope(rest) + {d.id});
      OutsidePut(v, v', d.name, d.id, OfExp(d.init));
      OutsidePut(v, v', d.name, d.id, OfScope(rest));
      SameLinks(d.init, v[d.name := d.id], v'[d.name := d.id], l, ids);
      SameLinksScope(rest, v[d.name := d.id], v'[d.name := d.id], l, ids);
      BothAgree(Free(d.init), FreeScope(rest), v[d.name := d.id], v'[d.name := d.id]);
      AgreePut(Free(d.init) + FreeScope(rest), v, v', d.name, d.id);
    case With(FunctionChunk(ds), rest) =>
      OutsideLess(v, v', OfScope(sc), OfDecs(ds));
      OutsideLess(v, v', OfScope(sc), OfScope(rest));
      SameLinksDecs(ds, v, v', l, ids);
      SameLinksScope(rest, v, v', l, ids);
      BothAgree(FreeDecs(ds), FreeScope(rest), v, v');
    case With(TypeChunk(_), rest) =>
      OutsideLess(v, v', OfScope(sc), OfScope(rest));
      SameLinksScope(rest, v, v', l, ids);
  }

  lemma {:induction false} SameLinksDecs(ds: Decs, v: Vars, v': Vars, l: Links, ids: set<Id>)
    requires VarsDecsLinked(ds, v, l, ids) && DistinctDecs(ds) && OfDecs(ds) <= ids && User(ids) && Outside(v, v', OfDecs(ds))
    ensures VarsDecsLinked(DesugarDecs(ds), v', l, ids) <==> EveryDecs(LINKS, ds) && Agree(FreeDecs(ds), v, v')
    decreases ds
  {
    hide Outside, Agree;
    if ds.DCons? {
      var d := ds.head;
      OutsideLess(v, v', OfDecs(ds), OfDecs(ds.tail));
      SameLinksDecs(ds.tail, v, v', l, ids);
      if d.body.SomeExp? {
        OutsideLess(v, v', OfDecs(ds), OfExp(d.body.exp) + OfFormals(d.formals));
        OutsideFormals(d.formals, v, v', OfExp(d.body.exp));
        SameLinks(d.body.exp, PutVars(d.formals, v), PutVars(d.formals, v'), l, ids);
        AgreeFormals(Free(d.body.exp), v, v', d.formals);
      } else {
        NoneAgree(v, v');
      }
      BothAgree(FreeDec(d), FreeDecs(ds.tail), v, v');
    } else {
      NoneAgree(v, v');
    }
  }

  // ----- one loop -----

  /** The scopes of the parts of a desugared loop. */
  function WithLo(id: Id, v: Vars): Vars { v[LO := Fresh(id, 0)] }
  function WithHi(id: Id, v: Vars): Vars { WithLo(id, v)[HI := Fresh(id, 1)] }

  lemma ExpandLinked(id: Id, d: VarDec, hi: Exp, body: Exp, v: Vars, l: Links, ids: set<Id>)
    requires User(ids)
    ensures VarsLinked(Expand(id, d, hi, body), v, l, ids) <==>
      && VarsLinked(d.init, WithLo(id, v), l, ids) && VarsLinked(hi, WithHi(id, v), l, ids)
      && VarsLinked(body, WithHi(id, v)[d.name := d.id], l, ids)
  {
    GuardLinked(id, d.name, body, WithHi(id, v)[d.name := d.id], l, ids);
    var s0 := In(SeqExp(ECons(Guard(id, d.name, body), ENil)));
    var s1 := With(VarChunk(VarDec(d.id, d.name, None, VarExp(Fresh(id, 2), LO))), s0);
    var s2 := With(VarChunk(VarDec(Fresh(id, 1), HI, None, hi)), s1);
    var s3 := With(VarChunk(VarDec(Fresh(id, 0), LO, None, d.init)), s2);
    var v3 := WithHi(id, v)[d.name := d.id];
    assert VarsScopeLinked(s0, v3, l, ids) <==> VarsLinked(body, v3, l, ids) by {
      assert VarsAllLinked(ECons(Guard(id, d.name, body), ENil), v3, l, ids) <==> VarsLinked(Guard(id, d.name, body), v3, l, ids);
    }
    assert VarsScopeLinked(s1, WithHi(id, v), l, ids) <==> VarsLinked(body, v3, l, ids);
    assert VarsScopeLinked(s2, WithLo(id, v), l, ids) <==> VarsLinked(hi, WithHi(id, v), l, ids) && VarsLinked(body, v3, l, ids);
    assert Expand(id, d, hi, body) == LetExp(s3);
  }

  lemma GuardLinked(id: Id, i: Symbol, body: Exp, v: Vars, l: Links, ids: set<Id>)
    requires User(ids)
    ensures VarsLinked(Guard(id, i, body), v, l, ids) <==> VarsLinked(body, v, l, ids)
  {
    NewUse(Fresh(id, 3), i, v, l, ids);
    NewUse(Fresh(id, 4), HI, v, l, ids);
    NewUse(Fresh(id, 5), i, v, l, ids);
    NewUse(Fresh(id, 6), HI, v, l, ids);
    NewUse(Fresh(id, 9), i, v, l, ids);
    assert Fresh(id, 8) !in ids;
    assert VarsLinked(OpExp(VarExp(Fresh(id, 3), i), Le, VarExp(Fresh(id, 4), HI)), v, l, ids);
    assert VarsLinked(OpExp(VarExp(Fresh(id, 5), i), Eq, VarExp(Fresh(id, 6), HI)), v, l, ids);
    assert VarsLinked(IntExp(1), v, l, ids) && VarsLinked(BreakExp(Fresh(id, 7)), v, l, ids);
    assert VarsLinked(OpExp(VarExp(Fresh(id, 9), i), Add, IntExp(1)), v, l, ids);
    assert VarsLinked(Leave(id, i), v, l, ids) && VarsLinked(Advance(id, i), v, l, ids);
    var rest := ECons(Advance(id, i), ENil);
    assert VarsAllLinked(ENil, v, l, ids) && VarsAllLinked(rest, v, l, ids) && VarsAllLinked(ECons(Leave(id, i), rest), v, l, ids);
    assert VarsLinked(SeqExp(ECons(body, ECons(Leave(id, i), rest))), v, l, ids) <==> VarsLinked(body, v, l, ids);
    assert VarsLinked(Loop(id, i, body), v, l, ids) <==> VarsLinked(body, v, l, ids);
  }

  lemma NewUse(id: Id, x: Symbol, v: Vars, l: Links, ids: set<Id>)
    requires User(ids) && id.Fresh?
    ensures VarsLinked(VarExp(id, x), v, l, ids)
  {}

  /** The three parts see what they saw, but for the index in the bounds and the inserted names. */
  lemma LoopAgree(e: Exp, v: Vars, v': Vars)
    requires e.ForExp? && Outside(v, v', {e.index.id})
    ensures var d, v1 := e.index, v[e.index.name := e.index.id];
      (&& Agree(Free(d.init), v1, WithLo(e.id, v')) && Agree(Free(e.hi), v1, WithHi(e.id, v'))
       && Agree(Free(e.body), v1, WithHi(e.id, v')[d.name := d.id]))
      <==> Passes(OwnIndex, d, e.hi, e.body) && Passes(Uncaptured, d, e.hi, e.body) && Agree(Free(e), v, v')
  {
    var d, i, v1 := e.index, e.index.name, v[e.index.name := e.index.id];
    PartAgree(Free(d.init), {LO}, v, v', WithLo(e.id, v'), i, d.id);
    PartAgree(Free(e.hi), {LO, HI}, v, v', WithHi(e.id, v'), i, d.id);
    BodyAgree(Free(e.body), v, v', e.id, i, d.id);
    BothAgree(Free(d.init) - {i}, Free(e.hi) - {i}, v, v');
    BothAgree(Free(d.init) - {i} + (Free(e.hi) - {i}), Free(e.body) - {i}, v, v');
    assert Free(e) == Free(d.init) - {i} + (Free(e.hi) - {i}) + (Free(e.body) - {i});
  }

  /** A bound, in the scope w with the inserted names, against the scope with the index. */
  lemma PartAgree(xs: set<Symbol>, inserted: set<Symbol>, v: Vars, v': Vars, w: Vars, i: Symbol, d: Id)
    requires Outside(v, v', {d})
    requires forall x :: if x in inserted then x in w && w[x].Fresh? else Find(w, x) == Find(v', x)
    ensures Agree(xs, v[i := d], w) <==> i !in xs && inserted !! xs && Agree(xs - {i}, v, v')
  {
    if Agree(xs, v[i := d], w) {
      forall x | x in xs ensures x != i && x !in inserted && Find(v, x) == Find(v', x) {
        PartAgrees(v, v', i, d, x);
        assert Find(v[i := d], x) == Find(w, x);
      }
    }
    if i !in xs && inserted !! xs && Agree(xs - {i}, v, v') {
      forall x | x in xs ensures Find(v[i := d], x) == Find(w, x) { assert x in xs - {i}; }
    }
  }

  lemma PartAgrees(v: Vars, v': Vars, i: Symbol, d: Id, x: Symbol)
    requires Outside(v, v', {d})
    ensures x in v[i := d] ==> v[i := d][x].Node?
    ensures Find(v', x) != Some(d)
  {
    if x in v { assert v[x] in v.Values; }
    if x in v' { assert v'[x] in v'.Values; }
    assert d in {d};
  }

  lemma BodyAgree(xs: set<Symbol>, v: Vars, v': Vars, id: Id, i: Symbol, d: Id)
    requires Outside(v, v', {d})
    ensures Agree(xs, v[i := d], WithHi(id, v')[i := d]) <==> {LO, HI} - {i} !! xs && Agree(xs - {i}, v, v')
  {
    var inserted, w := {LO, HI} - {i}, WithHi(id, v')[i := d];
    forall x ensures if x in inserted then x in w && w[x].Fresh? else x == i || Find(w, x) == Find(v', x) {}
    if Agree(xs, v[i := d], w) {
      forall x | x in xs - {i} ensures x !in inserted && Find(v, x) == Find(v', x) {
        PartAgrees(v, v', i, d, x);
        assert Find(v[i := d], x) == Find(w, x);
      }
      assert forall x | x in inserted :: x != i;
    }
    if inserted !! xs && Agree(xs - {i}, v, v') { BodyAgrees(xs, v, v', inserted, w, i, d); }
  }

  lemma BodyAgrees(xs: set<Symbol>, v: Vars, v': Vars, inserted: set<Symbol>, w: Vars, i: Symbol, d: Id)
    requires inserted !! xs && Agree(xs - {i}, v, v') && Find(w, i) == Some(d)
    requires forall x :: x !in inserted && x != i ==> Find(w, x) == Find(v', x)
    ensures Agree(xs, v[i := d], w)
  {
    forall x | x in xs ensures Find(v[i := d], x) == Find(w, x) { if x != i { assert x in xs - {i} && x !in inserted; } }
  }

  lemma {:induction false} SameLinksFor(e: Exp, v: Vars, v': Vars, l: Links, ids: set<Id>)
    requires e.ForExp?
    requires VarsLinked(e, v, l, ids) && Distinct(e) && OfExp(e) <= ids && User(ids) && Outside(v, v', OfExp(e))
    ensures VarsLinked(Desugar(e), v', l, ids) <==> Every(LINKS, e) && Agree(Free(e), v, v')
    decreases e, 0
  {
    var d, i := e.index, e.index.name;
    var v1, v2, v3, v4 := v[i := d.id], WithLo(e.id, v'), WithHi(e.id, v'), WithHi(e.id, v')[i := d.id];
    OutsideInserted(e, v, v');
    hide Outside, Agree;
    SameLinks(d.init, v1, v2, l, ids);
    SameLinks(e.hi, v1, v3, l, ids);
    SameLinks(e.body, v1, v4, l, ids);
    ExpandLinked(e.id, d.(init := Desugar(d.init)), Desugar(e.hi), Desugar(e.body), v', l, ids);
    LoopAgree(e, v, v');
    assert (forall t | t in LINKS :: Passes(t, d, e.hi, e.body)) <==> Passes(OwnIndex, d, e.hi, e.body) && Passes(Uncaptured, d, e.hi, e.body);
  }

  lemma OutsideInserted(e: Exp, v: Vars, v': Vars)
    requires e.ForExp? && Distinct(e) && Outside(v, v', OfExp(e))
    ensures var v1, id := v[e.index.name := e.index.id], e.id;
      && Outside(v1, WithLo(id, v'), OfExp(e.index.init)) && Outside(v1, WithHi(id, v'), OfExp(e.hi))
      && Outside(v1, WithHi(id, v')[e.index.name := e.index.id], OfExp(e.body)) && Outside(v, v', {e.index.id})
  {
    var v1, i, d := v[e.index.name := e.index.id], e.index.name, e.index.id;
    assert v1.Values <= v.Values + {d};
    assert WithLo(e.id, v').Values <= v'.Values + {Fresh(e.id, 0)};
    assert WithHi(e.id, v').Values <= v'.Values + {Fresh(e.id, 0), Fresh(e.id, 1)};
    assert WithHi(e.id, v')[i := d].Values <= v'.Values + {Fresh(e.id, 0), Fresh(e.id, 1), d};
    assert forall id | id in OfExp(e) :: id.Node?;
  }

  // ----- the nodes of a desugared tree -----

  /** The nodes of a desugared tree: those of the tree, and new ones made from its loops. */
  predicate Derived(ids: set<Id>, from: set<Id>, fors: set<Id>) {
    forall id | id in ids :: if id.Node? then id in from else id.base in fors
  }

  lemma DerivedApart(a: set<Id>, b: set<Id>, from: set<Id>, from': set<Id>, fors: set<Id>, fors': set<Id>)
    requires Derived(a, from, fors) && Derived(b, from', fors') && from !! from' && fors !! fors'
    ensures a !! b
  {}

  lemma DerivedSame(ids: set<Id>)
    requires User(ids)
    ensures Derived(ids, ids, {})
  {}

  ghost predicate Apart(e: Exp) { Distinct(Desugar(e)) && Derived(OfExp(Desugar(e)), OfExp(e), Fors(e)) && Fors(e) <= OfExp(e) }

  lemma ApartPair(a: Exp, b: Exp)
    requires Apart(a) && Apart(b) && OfExp(a) !! OfExp(b)
    ensures OfExp(Desugar(a)) !! OfExp(Desugar(b))
    ensures Derived(OfExp(Desugar(a)) + OfExp(Desugar(b)), OfExp(a) + OfExp(b), Fors(a) + Fors(b))
  {
    DerivedApart(OfExp(Desugar(a)), OfExp(Desugar(b)), OfExp(a), OfExp(b), Fors(a), Fors(b));
  }

  /** Distinct nodes stay distinct. */
  lemma {:induction false} DistinctDesugar(e: Exp)
    requires Distinct(e) && User(OfExp(e))
    ensures Apart(e)
    decreases e, 1
  {
    match e
    case IntExp(_) =>
    case VarExp(_, _) =>
    case BreakExp(_) =>
    case OpExp(a, _, b) => DistinctDesugar(a); DistinctDesugar(b); ApartPair(a, b);
    case SeqExp(es) => DistinctDesugarAll(es);
    case AssignExp(_, _, r) => DistinctDesugar(r);
    case IfExp(_, _, _) => DistinctDesugarIf(e);
    case WhileExp(_, c, b) => DistinctDesugar(c); DistinctDesugar(b); ApartPair(c, b);
    case ForExp(_, _, _, _) => DistinctDesugarFor(e);
    case CallExp(_, _, args) => DistinctDesugarAll(args);
    case LetExp(sc) => DistinctDesugarScope(sc);
  }

  lemma {:induction false} DistinctDesugarIf(e: Exp)
    requires e.IfExp? && Distinct(e) && User(OfExp(e))
    ensures Apart(e)
    decreases e, 0
  {
    var IfExp(c, t, f) := e;
    DistinctDesugar(c);
    DistinctDesugar(t);
    ApartPair(c, t);
    if f.SomeExp? {
      DistinctDesugar(f.exp);
      DerivedApart(OfExp(Desugar(f.exp)), OfExp(Desugar(c)) + OfExp(Desugar(t)), OfExp(f.exp), OfExp(c) + OfExp(t),
                   Fors(f.exp), Fors(c) + Fors(t));
    }
  }

  lemma {:induction false} DistinctDesugarAll(es: Exps)
    requires DistinctExps(es) && User(OfExps(es))
    ensures DistinctExps(DesugarAll(es)) && Derived(OfExps(DesugarAll(es)), OfExps(es), ForsAll(es)) && ForsAll(es) <= OfExps(es)
    decreases es
  {
    if es.ECons? {
      DistinctDesugar(es.head);
      DistinctDesugarAll(es.tail);
      DerivedApart(OfExp(Desugar(es.head)), OfExps(DesugarAll(es.tail)), OfExp(es.head), OfExps(es.tail), Fors(es.head), ForsAll(es.tail));
    }
  }

  lemma {:induction false} DistinctDesugarScope(sc: Scope)
    requires DistinctScope(sc) && User(OfScope(sc))
    ensures DistinctScope(DesugarScope(sc)) && Derived(OfScope(DesugarScope(sc)), OfScope(sc), ForsScope(sc)) && ForsScope(sc) <= OfScope(sc)
    decreases sc
  {
    match sc
    case In(b) => DistinctDesugar(b);
    case With(VarChunk(d), rest) =>
      DistinctDesugar(d.init);
      DistinctDesugarScope(rest);
      var d' := d.(init := Desugar(d.init));
      DerivedSame({d.id} + OfName(d.typeName));
      DerivedApart(OfExp(d'.init), {d.id} + OfName(d.typeName), OfExp(d.init), {d.id} + OfName(d.typeName), Fors(d.init), {});
      DerivedApart(OfVarDec(d'), OfScope(DesugarScope(rest)), OfVarDec(d), OfScope(rest), Fors(d.init), ForsScope(rest));
    case With(FunctionChunk(ds), rest) =>
      DistinctDesugarDecs(ds);
      DistinctDesugarScope(rest);
      DerivedApart(OfDecs(DesugarDecs(ds)), OfScope(DesugarScope(rest)), OfDecs(ds), OfScope(rest), ForsDecs(ds), ForsScope(rest));
    case With(TypeChunk(ts), rest) =>
      DistinctDesugarScope(rest);
      DerivedSame(OfTypes(ts));
      DerivedApart(OfTypes(ts), OfScope(DesugarScope(rest)), OfTypes(ts), OfScope(rest), {}, ForsScope(rest));
  }

  lemma {:induction false} DistinctDesugarDecs(ds: Decs)
    requires DistinctDecs(ds) && User(OfDecs(ds))
    ensures DistinctDecs(DesugarDecs(ds)) && Derived(OfDecs(DesugarDecs(ds)), OfDecs(ds), ForsDecs(ds)) && ForsDecs(ds) <= OfDecs(ds)
    decreases ds
  {
    if ds.DCons? {
      var d, d' := ds.head, DesugarDec(ds.head);
      var own, fors := {d.id} + OfFormals(d.formals) + OfName(d.result), if d.body.SomeExp? then Fors(d.body.exp) else {};
      DerivedSame(own);
      if d.body.SomeExp? {
        DistinctDesugar(d.body.exp);
        DerivedApart(OfExp(d'.body.exp), own, OfExp(d.body.exp), own, Fors(d.body.exp), {});
      }
      assert Derived(OfDec(d'), OfDec(d), fors);
      DistinctDesugarDecs(ds.tail);
      DerivedApart(OfDec(d'), OfDecs(DesugarDecs(ds.tail)), OfDec(d), OfDecs(ds.tail), fors, ForsDecs(ds.tail));
    }
  }

  lemma {:induction false} DistinctDesugarFor(e: Exp)
    requires e.ForExp? && Distinct(e) && User(OfExp(e))
    ensures Apart(e)
    decreases e, 0
  {
    var d, hi, b := e.index, e.hi, e.body;
    DistinctDesugar(d.init);
    DistinctDesugar(hi);
    DistinctDesugar(b);
    ApartPair(d.init, hi);
    ApartPair(d.init, b);
    ApartPair(hi, b);
    LoopApart(e);
    hide Distinct, Derived, Fors, Expand, OfExp, Added;
    ExpandDistinct(e.id, d.(init := Desugar(d.init)), Desugar(hi), Desugar(b));
    LoopDerived(e);
  }

  lemma LoopApart(e: Exp)
    requires e.ForExp? && Distinct(e) && User(OfExp(e)) && Apart(e.index.init) && Apart(e.hi) && Apart(e.body)
    ensures Added(e.id) + {e.id, e.index.id} !! OfExp(Desugar(e.index.init)) + OfExp(Desugar(e.hi)) + OfExp(Desugar(e.body))
    ensures e.id.Node? && e.index.id.Node? && e.id != e.index.id
  {
    hide Desugar;
    assert e.id in OfExp(e) && e.index.id in OfExp(e);
    assert forall f | f in Added(e.id) :: f.Fresh? && f.base == e.id;
    assert e.id !in Fors(e.index.init) + Fors(e.hi) + Fors(e.body);
  }

  lemma LoopDerived(e: Exp)
    requires e.ForExp? && Distinct(e) && User(OfExp(e)) && Apart(e.index.init) && Apart(e.hi) && Apart(e.body)
    requires OfExp(Desugar(e))
          <= Added(e.id) + {e.id, e.index.id} + OfExp(Desugar(e.index.init)) + OfExp(Desugar(e.hi)) + OfExp(Desugar(e.body))
    ensures Derived(OfExp(Desugar(e)), OfExp(e), Fors(e)) && Fors(e) <= OfExp(e)
  {
    var d := e.index;
    DerivedLoop(OfExp(Desugar(e)), e.id, d.id, OfName(d.typeName), OfExp(Desugar(d.init)), OfExp(Desugar(e.hi)), OfExp(Desugar(e.body)),
                OfExp(d.init), OfExp(e.hi), OfExp(e.body), Fors(d.init), Fors(e.hi), Fors(e.body));
    hide Desugar, Distinct, Derived;
    assert OfExp(e) == {e.id, d.id} + OfName(d.typeName) + OfExp(d.init) + OfExp(e.hi) + OfExp(e.body);
    assert Fors(e) == {e.id} + Fors(d.init) + Fors(e.hi) + Fors(e.body);
  }

  lemma DerivedLoop(ids: set<Id>, id: Id, d: Id, own: set<Id>, a: set<Id>, b: set<Id>, c: set<Id>,
                    a': set<Id>, b': set<Id>, c': set<Id>, fa: set<Id>, fb: set<Id>, fc: set<Id>)
    requires ids <= Added(id) + {id, d} + a + b + c && id.Node? && d.Node?
    requires Derived(a, a', fa) && Derived(b, b', fb) && Derived(c, c', fc)
    ensures Derived(ids, {id, d} + own + a' + b' + c', {id} + fa + fb + fc)
  {}

  /** The nodes that desugaring one loop adds. */
  function Added(id: Id): set<Id> {
    {Fresh(id, 0), Fresh(id, 1), Fresh(id, 2), Fresh(id, 3), Fresh(id, 4), Fresh(id, 5), Fresh(id, 6), Fresh(id, 7), Fresh(id, 8), Fresh(id, 9)}
  }

  /** The nodes of the guard, with those of the inserted variables left over. */
  function AddedIn(id: Id): set<Id> {
    {Fresh(id, 3), Fresh(id, 4), Fresh(id, 5), Fresh(id, 6), Fresh(id, 7), Fresh(id, 8), Fresh(id, 9)}
  }

  lemma ExpandDistinct(id: Id, d: VarDec, hi: Exp, body: Exp)
    requires Distinct(d.init) && Distinct(hi) && Distinct(body) && id.Node? && d.id.Node? && id != d.id
    requires OfExp(d.init) !! OfExp(hi) && OfExp(d.init) !! OfExp(body) && OfExp(hi) !! OfExp(body)
    requires Added(id) + {id, d.id} !! OfExp(d.init) + OfExp(hi) + OfExp(body)
    ensures Distinct(Expand(id, d, hi, body))
    ensures OfExp(Expand(id, d, hi, body)) <= Added(id) + {id, d.id} + OfExp(d.init) + OfExp(hi) + OfExp(body)
  {
    AddedApart(id, d.id, OfExp(d.init), OfExp(hi), OfExp(body));
    GuardDistinct(id, d.name, body);
    ExpandChunks(id, d, hi, Guard(id, d.name, body), OfExp(body));
  }

  lemma AddedApart(id: Id, d: Id, a: set<Id>, b: set<Id>, c: set<Id>)
    requires a !! b && a !! c && b !! c && id.Node? && d.Node? && id != d && Added(id) + {id, d} !! a + b + c
    ensures var g := {id} + AddedIn(id) + c;
      && AddedIn(id) + {id} !! c && g !! {Fresh(id, 0), Fresh(id, 1), Fresh(id, 2), d} && a + b !! g
      && a + b !! {Fresh(id, 0), Fresh(id, 1), Fresh(id, 2), d}
    ensures Added(id) == {Fresh(id, 0), Fresh(id, 1), Fresh(id, 2)} + AddedIn(id)
  {
    assert Added(id) == {Fresh(id, 0), Fresh(id, 1), Fresh(id, 2)} + AddedIn(id);
  }

  /** The three inserted declarations around the guard g. */
  lemma ExpandChunks(id: Id, d: VarDec, hi: Exp, g: Exp, body: set<Id>)
    requires Distinct(d.init) && Distinct(hi) && Distinct(g) && OfExp(d.init) !! OfExp(hi) && d.id.Node?
    requires OfExp(g) == {id} + AddedIn(id) + body && OfExp(g) !! {Fresh(id, 0), Fresh(id, 1), Fresh(id, 2), d.id}
    requires OfExp(d.init) + OfExp(hi) !! OfExp(g) && OfExp(d.init) + OfExp(hi) !! {Fresh(id, 0), Fresh(id, 1), Fresh(id, 2), d.id}
    requires Added(id) == {Fresh(id, 0), Fresh(id, 1), Fresh(id, 2)} + AddedIn(id)
    ensures var s := With(VarChunk(VarDec(Fresh(id, 0), LO, None, d.init)),
                          With(VarChunk(VarDec(Fresh(id, 1), HI, None, hi)),
                          With(VarChunk(VarDec(d.id, d.name, None, VarExp(Fresh(id, 2), LO))), In(SeqExp(ECons(g, ENil))))));
      Distinct(LetExp(s)) && OfExp(LetExp(s)) <= Added(id) + {id, d.id} + OfExp(d.init) + OfExp(hi) + body
  {
    hide Added, AddedIn, Distinct, DistinctScope, OfExp, OfScope;
    var s0 := In(SeqExp(ECons(g, ENil)));
    var s1 := With(VarChunk(VarDec(d.id, d.name, None, VarExp(Fresh(id, 2), LO))), s0);
    var s2 := With(VarChunk(VarDec(Fresh(id, 1), HI, None, hi)), s1);
    var s3 := With(VarChunk(VarDec(Fresh(id, 0), LO, None, d.init)), s2);
    OneExp(g);
    OneVar(Fresh(id, 2), LO);
    VarChunkDistinct(VarDec(d.id, d.name, None, VarExp(Fresh(id, 2), LO)), s0);
    assert OfScope(s1) == {d.id, Fresh(id, 2)} + OfExp(g);
    VarChunkDistinct(VarDec(Fresh(id, 1), HI, None, hi), s1);
    assert OfScope(s2) == {Fresh(id, 1), d.id, Fresh(id, 2)} + OfExp(hi) + OfExp(g);
    VarChunkDistinct(VarDec(Fresh(id, 0), LO, None, d.init), s2);
    LetDistinct(s3);
  }

  lemma OneVar(id: Id, x: Symbol)
    ensures Distinct(VarExp(id, x)) && OfExp(VarExp(id, x)) == {id}
  {}

  lemma LetDistinct(sc: Scope)
    ensures Distinct(LetExp(sc)) == DistinctScope(sc) && OfExp(LetExp(sc)) == OfScope(sc)
  {}

  lemma OneExp(e: Exp)
    requires Distinct(e)
    ensures var s := In(SeqExp(ECons(e, ENil))); DistinctScope(s) && OfScope(s) == OfExp(e)
  {
    assert OfExps(ENil) == {} && DistinctExps(ENil);
    assert DistinctExps(ECons(e, ENil)) && OfExps(ECons(e, ENil)) == OfExp(e);
    assert Distinct(SeqExp(ECons(e, ENil))) && OfExp(SeqExp(ECons(e, ENil))) == OfExp(e);
  }

  lemma VarChunkDistinct(d: VarDec, rest: Scope)
    requires d.typeName == None && Distinct(d.init) && d.id !in OfExp(d.init) && DistinctScope(rest) && {d.id} + OfExp(d.init) !! OfScope(rest)
    ensures var s := With(VarChunk(d), rest); DistinctScope(s) && OfScope(s) == {d.id} + OfExp(d.init) + OfScope(rest)
  {
    assert OfVarDec(d) == {d.id} + OfExp(d.init) && DistinctVarDec(d);
  }

  lemma GuardDistinct(id: Id, i: Symbol, body: Exp)
    requires Distinct(body) && id.Node? && AddedIn(id) + {id} !! OfExp(body)
    ensures Distinct(Guard(id, i, body)) && OfExp(Guard(id, i, body)) == {id} + AddedIn(id) + OfExp(body)
  {
    TestDistinct(Fresh(id, 3), i, Le, Fresh(id, 4));
    LoopDistinct(id, i, body);
    hide Loop;
    assert OfExp(Guard(id, i, body)) == {Fresh(id, 3), Fresh(id, 4)} + OfExp(Loop(id, i, body));
  }

  lemma LoopDistinct(id: Id, i: Symbol, body: Exp)
    requires Distinct(body) && id.Node? && AddedIn(id) + {id} !! OfExp(body)
    ensures Distinct(Loop(id, i, body))
    ensures OfExp(Loop(id, i, body)) == {id, Fresh(id, 5), Fresh(id, 6), Fresh(id, 7), Fresh(id, 8), Fresh(id, 9)} + OfExp(body)
  {
    var a, v := Advance(id, i), Leave(id, i);
    StepsDistinct(id, i);
    hide Advance, Leave;
    var es := ECons(v, ECons(a, ENil));
    assert OfExps(ENil) == {} && DistinctExps(ENil);
    assert OfExps(ECons(a, ENil)) == OfExp(a) && DistinctExps(ECons(a, ENil));
    assert OfExps(es) == OfExp(v) + OfExp(a) && DistinctExps(es);
    assert OfExps(ECons(body, es)) == OfExp(body) + OfExps(es) && DistinctExps(ECons(body, es));
    assert OfExp(IntExp(1)) == {} && Distinct(IntExp(1));
    assert OfExp(SeqExp(ECons(body, es))) == OfExp(body) + OfExps(es) && Distinct(SeqExp(ECons(body, es)));
  }

  lemma StepsDistinct(id: Id, i: Symbol)
    ensures OfExp(Advance(id, i)) == {Fresh(id, 8), Fresh(id, 9)} && Distinct(Advance(id, i))
    ensures OfExp(Leave(id, i)) == {Fresh(id, 5), Fresh(id, 6), Fresh(id, 7)} && Distinct(Leave(id, i))
  {
    TestDistinct(Fresh(id, 5), i, Eq, Fresh(id, 6));
    assert OfExp(IntExp(1)) == {} && Distinct(IntExp(1));
    assert OfExp(VarExp(Fresh(id, 9), i)) == {Fresh(id, 9)} && Distinct(VarExp(Fresh(id, 9), i));
    assert OfExp(OpExp(VarExp(Fresh(id, 9), i), Add, IntExp(1))) == {Fresh(id, 9)};
    assert OfExp(BreakExp(Fresh(id, 7))) == {Fresh(id, 7)} && Distinct(BreakExp(Fresh(id, 7)));
  }

  lemma TestDistinct(a: Id, i: Symbol, op: Oper, b: Id)
    requires a != b
    ensures var t := OpExp(VarExp(a, i), op, VarExp(b, HI)); OfExp(t) == {a, b} && Distinct(t)
  {
    assert OfExp(VarExp(a, i)) == {a} && OfExp(VarExp(b, HI)) == {b} && Distinct(VarExp(a, i)) && Distinct(VarExp(b, HI));
  }

  // ----- in terms of the links written -----

  function UsesIn(e: Exp): set<Id> {
    match e
    case IntExp(_) => {}
    case BreakExp(_) => {}
    case VarExp(id, _) => {id}
    case OpExp(a, _, b) => UsesIn(a) + UsesIn(b)
    case SeqExp(es) => UsesInAll(es)
    case AssignExp(id, _, r) => {id} + UsesIn(r)
    case IfExp(c, t, f) => UsesIn(c) + UsesIn(t) + (if f.SomeExp? then UsesIn(f.exp) else {})
    case WhileExp(_, c, b) => UsesIn(c) + UsesIn(b)
    case ForExp(_, d, hi, b) => UsesIn(d.init) + UsesIn(hi) + UsesIn(b)
    case CallExp(_, _, args) => UsesInAll(args)
    case LetExp(sc) => UsesInScope(sc)
  }

  function UsesInAll(es: Exps): set<Id> { if es.ENil? then {} else UsesIn(es.head) + UsesInAll(es.tail) }

  function UsesInScope(sc: Scope): set<Id> {
    match sc
    case In(b) => UsesIn(b)
    case With(VarChunk(d), rest) => UsesIn(d.init) + UsesInScope(rest)
    case With(FunctionChunk(ds), rest) => UsesInDecs(ds) + UsesInScope(rest)
    case With(TypeChunk(_), rest) => UsesInScope(rest)
  }

  function UsesInDecs(ds: Decs): set<Id> {
    if ds.DNil? then {} else (if ds.head.body.SomeExp? then UsesIn(ds.head.body.exp) else {}) + UsesInDecs(ds.tail)
  }

  /** The same links on the uses among ids. */
  ghost predicate SameOnBoth(l: Links, l': Links, uses: set<Id>, ids: set<Id>) {
    forall u | u in uses && u in ids :: Find(l, u) == Find(l', u)
  }

  lemma BothParts(l: Links, l': Links, a: set<Id>, b: set<Id>, ids: set<Id>)
    ensures SameOnBoth(l, l', a + b, ids) <==> SameOnBoth(l, l', a, ids) && SameOnBoth(l, l', b, ids)
  {}

  lemma OneUse(l: Links, l': Links, id: Id, ids: set<Id>)
    ensures SameOnBoth(l, l', {id}, ids) <==> (id in ids ==> Find(l, id) == Find(l', id))
  {}

  lemma NoUse(l: Links, l': Links, ids: set<Id>)
    ensures SameOnBoth(l, l', {}, ids)
  {}

  /** Two ways to link the variables of one tree in one scope are the same on its uses. */
  lemma {:induction false} LinksDetermined(e: Exp, v: Vars, l: Links, l': Links, ids: set<Id>)
    requires VarsLinked(e, v, l', ids)
    ensures VarsLinked(e, v, l, ids) <==> SameOnBoth(l, l', UsesIn(e), ids)
    decreases e
  {
    hide SameOnBoth;
    match e
    case IntExp(_) => NoUse(l, l', ids);
    case BreakExp(_) => NoUse(l, l', ids);
    case VarExp(id, _) => OneUse(l, l', id, ids);
    case OpExp(a, _, b) =>
      LinksDetermined(a, v, l, l', ids);
      LinksDetermined(b, v, l, l', ids);
      BothParts(l, l', UsesIn(a), UsesIn(b), ids);
    case SeqExp(es) => LinksDeterminedAll(es, v, l, l', ids);
    case AssignExp(id, _, r) =>
      OneUse(l, l', id, ids);
      LinksDetermined(r, v, l, l', ids);
      BothParts(l, l', {id}, UsesIn(r), ids);
    case IfExp(c, t, f) =>
      LinksDetermined(c, v, l, l', ids);
      LinksDetermined(t, v, l, l', ids);
      if f.SomeExp? { LinksDetermined(f.exp, v, l, l', ids); } else { NoUse(l, l', ids); }
      BothParts(l, l', UsesIn(c), UsesIn(t), ids);
      BothParts(l, l', UsesIn(c) + UsesIn(t), if f.SomeExp? then UsesIn(f.exp) else {}, ids);
    case WhileExp(_, c, b) =>
      LinksDetermined(c, v, l, l', ids);
      LinksDetermined(b, v, l, l', ids);
      BothParts(l, l', UsesIn(c), UsesIn(b), ids);
    case ForExp(_, d, hi, b) =>
      var v' := v[d.name := d.id];
      LinksDetermined(d.init, v', l, l', ids);
      LinksDetermined(hi, v', l, l', ids);
      LinksDetermined(b, v', l, l', ids);
      BothParts(l, l', UsesIn(d.init), UsesIn(hi), ids);
      BothParts(l, l', UsesIn(d.init) + UsesIn(hi), UsesIn(b), ids);
    case CallExp(_, _, args) => LinksDeterminedAll(args, v, l, l', ids);
    case LetExp(sc) => LinksDeterminedScope(sc, v, l, l', ids);
  }

  lemma {:induction false} LinksDeterminedAll(es: Exps, v: Vars, l: Links, l': Links, ids: set<Id>)
    requires VarsAllLinked(es, v, l', ids)
    ensures VarsAllLinked(es, v, l, ids) <==> SameOnBoth(l, l', UsesInAll(es), ids)
    decreases es
  {
    hide SameOnBoth;
    if es.ECons? {
      LinksDetermined(es.head, v, l, l', ids);
      LinksDeterminedAll(es.tail, v, l, l', ids);
      BothParts(l, l', UsesIn(es.head), UsesInAll(es.tail), ids);
    } else {
      NoUse(l, l', ids);
    }
  }

  lemma {:induction false} LinksDeterminedScope(sc: Scope, v: Vars, l: Links, l': Links, ids: set<Id>)
    requires VarsScopeLinked(sc, v, l', ids)
    ensures VarsScopeLinked(sc, v, l, ids) <==> SameOnBoth(l, l', UsesInScope(sc), ids)
    decreases sc
  {
    hide SameOnBoth;
    match sc
    case In(b) => LinksDetermined(b, v, l, l', ids);
    case With(VarChunk(d), rest) =>
      var v' := v[d.name := d.id];
      LinksDetermined(d.init, v', l, l', ids);
      LinksDeterminedScope(rest, v', l, l', ids);
      BothParts(l, l', UsesIn(d.init), UsesInScope(rest), ids);
    case With(FunctionChunk(ds), rest) =>
      LinksDeterminedDecs(ds, v, l, l', ids);
      LinksDeterminedScope(rest, v, l, l', ids);
      BothParts(l, l', UsesInDecs(ds), UsesInScope(rest), ids);
    case With(TypeChunk(_), rest) => LinksDeterminedScope(rest, v, l, l', ids);
  }

  lemma {:induction false} LinksDeterminedDecs(ds: Decs, v: Vars, l: Links, l': Links, ids: set<Id>)
    requires VarsDecsLinked(ds, v, l', ids)
    ensures VarsDecsLinked(ds, v, l, ids) <==> SameOnBoth(l, l', UsesInDecs(ds), ids)
    decreases ds
  {
    hide SameOnBoth;
    if ds.DCons? {
      var d := ds.head;
      if d.body.SomeExp? { LinksDetermined(d.body.exp, PutVars(d.formals, v), l, l', ids); } else { NoUse(l, l', ids); }
      LinksDeterminedDecs(ds.tail, v, l, l', ids);
      BothParts(l, l', if d.body.SomeExp? then UsesIn(d.body.exp) else {}, UsesInDecs(ds.tail), ids);
    } else {
      NoUse(l, l', ids);
    }
  }

  /** Bind a tree, desugar it and bind it again: every variable use of the user keeps its
      declaration if and only if no bound uses its own index and no loop captures a `_lo` or `_hi`
      from around it. */
  lemma LinksKeptExactly(e: Exp, n: Names, b: Bound, b': Bound)
    requires Distinct(e) && User(OfExp(e)) && User(n.vars.Values) && n.vars.Values !! OfExp(e)
    requires Blank(b.links, OfExp(e)) && Blank(b'.links, OfExp(Desugar(e)))
    ensures var l, l' := Resolve(e, n, b).links, Resolve(Desugar(e), n, b').links;
      SameOnBoth(l, l', UsesIn(Desugar(e)), OfExp(e)) <==> Every(LINKS, e)
  {
    hide Every, Resolve, Distinct, VarsLinked, UsesIn, Linked, Derived, Blank, SameOff, Free, Fors, OfExp, Desugar;
    var l, l', ids := Resolve(e, n, b).links, Resolve(Desugar(e), n, b').links, OfExp(e);
    ResolveLinks(e, n, b);
    LinkedVars(e, n, l, ids);
    DistinctDesugar(e);
    ResolveLinks(Desugar(e), n, b');
    LinkedVars(Desugar(e), n, l', ids);
    LinksDetermined(Desugar(e), n.vars, l, l', ids);
    hide SameOnBoth, Agree;
    SameLinks(e, n.vars, n.vars, l, ids);
    AgreeSelf(Free(e), n.vars);
  }

  lemma AgreeSelf(xs: set<Symbol>, v: Vars)
    ensures Agree(xs, v, v)
  {}
}
