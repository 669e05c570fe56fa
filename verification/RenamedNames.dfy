/** After renaming every variable has a name that the renamer made: none is `_lo` or `_hi`, whatever
    the user wrote. */
module RenamedNames {
  import opened Options
  import opened Ast
  import opened Nodes
  import opened Binder
  import opened Binding
  import opened Renaming
  import opened Rebinding
  import opened RenameBind
  import Desugaring

  /** What was written by r is still there in o. */
  ghost predicate Later(r: Renamed, o: Renamed) {
    && (forall d | d in r.decs :: Find(o.decs, d) == Some(r.decs[d]))
    && (forall u | u in r.uses :: Find(o.uses, u) == Some(r.uses[u]))
  }

  /** The events vs may be renamed from r on, and o is the end of the renaming. */
  ghost predicate Writes(vs: seq<Ev>, l: Links, r: Renamed, o: Renamed) {
    Rebinding.Fresh(vs, r) && Clean(vs, l) && Later(Fold(vs, l, r), o)
  }

  /** One part after the other. */
  lemma Parts(a: seq<Ev>, b: seq<Ev>, l: Links, r: Renamed, o: Renamed)
    requires Writes(a + b, l, r, o)
    ensures Writes(a, l, r, o) && Writes(b, l, Fold(a, l, r), o)
    ensures r.decs.Keys + DeclIds(a) <= Fold(a, l, r).decs.Keys
  {
    FreshParts(a, b, r);
    FoldKeeps(a, l, r);
    FoldDecs(a, l, r);
    FoldCat(a, b, l, r);
    FoldKeeps(b, l, Fold(a, l, r));
    CleanParts(a, b, l);
  }

  lemma CleanParts(a: seq<Ev>, b: seq<Ev>, l: Links)
    requires Clean(a + b, l)
    ensures Clean(a, l) && Clean(b, l)
  {
    assert forall v :: v in a ==> v in a + b;
    assert forall v :: v in b ==> v in a + b;
  }

  lemma FreshParts(a: seq<Ev>, b: seq<Ev>, r: Renamed)
    requires Rebinding.Fresh(a + b, r)
    ensures Rebinding.Fresh(a, r) && NoDup(b) && Ids(a) !! Ids(b) && Ids(b) !! r.decs.Keys + r.uses.Keys
  {
    NoDupCat(a, b);
    NoDupParts(a, b);
  }

  lemma {:induction false} NoDupParts(a: seq<Ev>, b: seq<Ev>)
    requires NoDup(a + b)
    ensures NoDup(a) && NoDup(b) && Ids(a) !! Ids(b)
    decreases |a|
  {
    if a == [] {
      assert a + b == b;
    } else {
      assert (a + b)[1..] == a[1..] + b;
      NoDupParts(a[1..], b);
      NoDupCat(a[1..], b);
    }
  }

  /** Only the declarations and uses met are written. */
  lemma FoldDecs(a: seq<Ev>, l: Links, r: Renamed)
    requires Rebinding.Fresh(a, r)
    ensures var o := Fold(a, l, r); o.decs.Keys <= r.decs.Keys + Ids(a) && o.uses.Keys <= r.uses.Keys + Ids(a)
  {
    FoldKeeps(a, l, r);
    DeclInIds(a);
  }

  ghost predicate New(x: Symbol, o: Renamed) { x in o.decs.Values }

  ghost predicate AllNew(xs: set<Symbol>, o: Renamed) { forall x | x in xs :: New(x, o) }

  lemma UseNew(id: Id, x: Symbol, n: Names, l: Links, r: Renamed, o: Renamed)
    requires Find(l, id) == Find(n.vars, x) && n.vars.Values <= r.decs.Keys && Writes([UseOf(id, x, false)], l, r, o)
    ensures New(NameOf(o.uses, id, x), o)
  {
    var v := UseOf(id, x, false);
    assert v in [v] && id in l && x in n.vars && l[id] in n.vars.Values;
    assert Fold([v], l, r) == Fold([], l, Use(id, l, r)) == Use(id, l, r) by { assert [v][1..] == []; }
    assert Use(id, l, r).uses[id] == r.decs[l[id]] == o.decs[l[id]];
  }

  lemma DeclNew(id: Id, x: Symbol, l: Links, r: Renamed, o: Renamed)
    requires Writes([Decl(id, x)], l, r, o)
    ensures New(NameOf(o.decs, id, x), o)
  {
    var v := Decl(id, x);
    assert Fold([v], l, r) == Fold([], l, Declare(id, x, r)) == Declare(id, x, r) by { assert [v][1..] == []; }
    assert id in Declare(id, x, r).decs && o.decs[id] == Declare(id, x, r).decs[id];
  }

  lemma OneDecl(id: Id, x: Symbol)
    ensures DeclIds([Decl(id, x)]) == {id}
  {
    assert [Decl(id, x)][1..] == [];
  }

  /** Every variable name in the renamed expression is a new one. */
  lemma {:induction false} NamesNew(e: Exp, n: Names, l: Links, r: Renamed, o: Renamed)
    requires Linked(e, n, l) && n.vars.Values <= r.decs.Keys && Writes(Events(e), l, r, o)
    ensures AllNew(Desugaring.Names(Apply(e, o)), o)
    decreases e
  {
    hide Writes, New;
    match e
    case IntExp(_) =>
    case BreakExp(_) =>
    case VarExp(id, x) => UseNew(id, x, n, l, r, o);
    case OpExp(a, _, b) =>
      Parts(Events(a), Events(b), l, r, o);
      NamesNew(a, n, l, r, o);
      NamesNew(b, n, l, Fold(Events(a), l, r), o);
    case SeqExp(es) => AllNamesNew(es, n, l, r, o);
    case AssignExp(id, x, v) =>
      Parts([UseOf(id, x, false)], Events(v), l, r, o);
      UseNew(id, x, n, l, r, o);
      NamesNew(v, n, l, Fold([UseOf(id, x, false)], l, r), o);
    case IfExp(c, t, f) =>
      var fs := if f.SomeExp? then Events(f.exp) else [];
      Parts(Events(c) + Events(t), fs, l, r, o);
      Parts(Events(c), Events(t), l, r, o);
      FoldCat(Events(c), Events(t), l, r);
      NamesNew(c, n, l, r, o);
      NamesNew(t, n, l, Fold(Events(c), l, r), o);
      if f.SomeExp? { NamesNew(f.exp, n, l, Fold(Events(c) + Events(t), l, r), o); }
    case WhileExp(id, c, b) =>
      Parts(Events(c), Events(b), l, r, o);
      NamesNew(c, Enter(n, id), l, r, o);
      NamesNew(b, Enter(n, id), l, Fold(Events(c), l, r), o);
    case ForExp(id, d, hi, b) =>
      var n' := PutVar(Enter(n, id), d.name, d.id);
      Parts(EventsVarDec(d) + Events(hi), Events(b), l, r, o);
      Parts(EventsVarDec(d), Events(hi), l, r, o);
      FoldCat(EventsVarDec(d), Events(hi), l, r);
      VarDecNew(d, Enter(n, id), l, r, o);
      NamesNew(hi, n', l, Fold(EventsVarDec(d), l, r), o);
      NamesNew(b, n', l, Fold(EventsVarDec(d) + Events(hi), l, r), o);
    case CallExp(id, f, args) =>
      Parts([UseOf(id, f, false)], EventsAll(args), l, r, o);
      AllNamesNew(args, n, l, Fold([UseOf(id, f, false)], l, r), o);
    case LetExp(sc) => ScopeNamesNew(sc, n, l, r, o);
  }

  lemma {:induction false} AllNamesNew(es: Exps, n: Names, l: Links, r: Renamed, o: Renamed)
    requires AllLinked(es, n, l) && n.vars.Values <= r.decs.Keys && Writes(EventsAll(es), l, r, o)
    ensures AllNew(Desugaring.NamesAll(ApplyAll(es, o)), o)
    decreases es
  {
    hide Writes, New;
    if es.ECons? {
      Parts(Events(es.head), EventsAll(es.tail), l, r, o);
      NamesNew(es.head, n, l, r, o);
      AllNamesNew(es.tail, n, l, Fold(Events(es.head), l, r), o);
    }
  }

  /** n is the scope around d; afterwards d is declared. */
  lemma {:induction false} VarDecNew(d: VarDec, n: Names, l: Links, r: Renamed, o: Renamed)
    requires VarDecLinked(d, PutVar(n, d.name, d.id), l) && n.vars.Values <= r.decs.Keys && Writes(EventsVarDec(d), l, r, o)
    ensures New(ApplyVarDec(d, o).name, o) && AllNew(Desugaring.Names(Apply(d.init, o)), o)
    ensures PutVar(n, d.name, d.id).vars.Values <= Fold(EventsVarDec(d), l, r).decs.Keys
    decreases d
  {
    hide Writes, New;
    var v, n' := Decl(d.id, d.name), PutVar(n, d.name, d.id);
    Parts([v] + NameEv(d.typeName), Events(d.init), l, r, o);
    Parts([v], NameEv(d.typeName), l, r, o);
    FoldCat([v], NameEv(d.typeName), l, r);
    FoldCat([v] + NameEv(d.typeName), Events(d.init), l, r);
    OneDecl(d.id, d.name);
    DeclNew(d.id, d.name, l, r, o);
    PutValues(n.vars, d.name, d.id);
    var r1 := Fold([v] + NameEv(d.typeName), l, r);
    Grown([v] + NameEv(d.typeName), l, r, o);
    Grown(EventsVarDec(d), l, r, o);
    DeclCat([v], NameEv(d.typeName));
    DeclCat([v] + NameEv(d.typeName), Events(d.init));
    NamesNew(d.init, n', l, r1, o);
  }

  lemma PutValues(m: map<Symbol, Id>, x: Symbol, d: Id)
    ensures m[x := d].Values <= m.Values + {d}
  {}

  lemma Grown(vs: seq<Ev>, l: Links, r: Renamed, o: Renamed)
    requires Writes(vs, l, r, o)
    ensures r.decs.Keys + DeclIds(vs) <= Fold(vs, l, r).decs.Keys
  {
    FoldKeeps(vs, l, r);
  }

  lemma {:induction false} DeclCat(a: seq<Ev>, b: seq<Ev>)
    ensures DeclIds(a + b) == DeclIds(a) + DeclIds(b)
    decreases |a|
  {
    if a == [] { assert a + b == b; } else { assert (a + b)[1..] == a[1..] + b; DeclCat(a[1..], b); }
  }

  lemma {:induction false} ScopeNamesNew(sc: Scope, n: Names, l: Links, r: Renamed, o: Renamed)
    requires ScopeLinked(sc, n, l) && n.vars.Values <= r.decs.Keys && Writes(EventsScope(sc), l, r, o)
    ensures AllNew(Desugaring.NamesScope(ApplyScope(sc, o)), o)
    decreases sc
  {
    hide Writes, New;
    match sc
    case In(b) => NamesNew(b, n, l, r, o);
    case With(VarChunk(d), rest) =>
      Parts(EventsVarDec(d), EventsScope(rest), l, r, o);
      VarDecNew(d, n, l, r, o);
      ScopeNamesNew(rest, PutVar(n, d.name, d.id), l, Fold(EventsVarDec(d), l, r), o);
    case With(FunctionChunk(ds), rest) =>
      var v, n' := Again(Repeats(ds, {})), AddFirst(ds, n, {});
      Parts([v] + EventsDecs(ds), EventsScope(rest), l, r, o);
      Parts([v], EventsDecs(ds), l, r, o);
      FoldCat([v], EventsDecs(ds), l, r);
      AddFirstVars(ds, n, {});
      PutAllVars(ds, n');
      DecsNamesNew(ds, n', l, Fold([v], l, r), o);
      ScopeNamesNew(rest, PutAll(ds, n'), l, Fold([v] + EventsDecs(ds), l, r), o);
    case With(TypeChunk(ts), rest) =>
      var v, n' := Again(RepeatedTypes(ts, {})), AddFirstTypes(ts, n, {});
      Parts([v] + EventsTypes(ts), EventsScope(rest), l, r, o);
      AddFirstTypesVars(ts, n, {});
      PutAllTypesVars(ts, n');
      ScopeNamesNew(rest, PutAllTypes(ts, n'), l, Fold([v] + EventsTypes(ts), l, r), o);
  }

  lemma {:induction false} DecsNamesNew(ds: Decs, n: Names, l: Links, r: Renamed, o: Renamed)
    requires DecsLinked(ds, n, l) && n.vars.Values <= r.decs.Keys && Writes(EventsDecs(ds), l, r, o)
    ensures AllNew(Desugaring.NamesDecs(ApplyDecs(ds, o)), o)
    decreases ds
  {
    hide Writes, New;
    if ds.DCons? {
      var d := ds.head;
      var n' := PutFun(n, d.name, d.id);
      Parts(EventsDec(d), EventsDecs(ds.tail), l, r, o);
      DecNamesNew(d, n', l, r, o);
      DecsNamesNew(ds.tail, n', l, Fold(EventsDec(d), l, r), o);
    }
  }

  lemma {:induction false} DecNamesNew(d: FunctionDec, n: Names, l: Links, r: Renamed, o: Renamed)
    requires DecLinked(d, n, l) && n.vars.Values <= r.decs.Keys && Writes(EventsDec(d), l, r, o)
    ensures forall f | f in ApplyFormals(d.formals, o) :: New(f.name, o)
    ensures d.body.SomeExp? ==> AllNew(Desugaring.Names(Apply(d.body.exp, o)), o)
    decreases d
  {
    hide Writes, New;
    var own, again := [if Kept(d) then Keep(d.id, d.name) else Decl(d.id, d.name)], [Again(RepeatedFormals(d.formals, {}))];
    var fs, res, body := EventsFormals(d.formals), NameEv(d.result), if d.body.SomeExp? then Events(d.body.exp) else [];
    Parts(own + again + fs + res, body, l, r, o);
    Parts(own + again + fs, res, l, r, o);
    Parts(own + again, fs, l, r, o);
    FoldCat(own + again, fs, l, r);
    FoldCat(own + again + fs, res, l, r);
    FormalsNew(d.formals, n, l, Fold(own + again, l, r), o);
    if d.body.SomeExp? { NamesNew(d.body.exp, PutFormals(d.formals, n), l, Fold(own + again + fs + res, l, r), o); }
  }

  lemma {:induction false} FormalsNew(fs: seq<Formal>, n: Names, l: Links, r: Renamed, o: Renamed)
    requires n.vars.Values <= r.decs.Keys && Writes(EventsFormals(fs), l, r, o)
    ensures forall f | f in ApplyFormals(fs, o) :: New(f.name, o)
    ensures PutFormals(fs, n).vars.Values <= Fold(EventsFormals(fs), l, r).decs.Keys
    decreases |fs|
  {
    hide Writes, New;
    if fs != [] {
      var v, t, n' := Decl(fs[0].id, fs[0].name), fs[0].typeName, PutVar(n, fs[0].name, fs[0].id);
      Parts([v] + TypeEv(t), EventsFormals(fs[1..]), l, r, o);
      Parts([v], TypeEv(t), l, r, o);
      FoldCat([v], TypeEv(t), l, r);
      FoldCat([v] + TypeEv(t), EventsFormals(fs[1..]), l, r);
      OneDecl(fs[0].id, fs[0].name);
      DeclNew(fs[0].id, fs[0].name, l, r, o);
      PutValues(n.vars, fs[0].name, fs[0].id);
      FormalsNew(fs[1..], n', l, Fold([v] + TypeEv(t), l, r), o);
    }
  }

  /** No variable of a renamed tree is called `_lo` or `_hi`, whatever the names were before. */
  lemma RenamedApart(e: Exp, l: Links)
    requires Distinct(e) && Linked(e, CLOSED, l) && Clean(Events(e), l)
    ensures Desugaring.Names(Apply(e, Rename(e, l, START))) !! {Desugaring.LO, Desugaring.HI}
  {
    hide Distinct, Linked, Unique, NamedAlike, NoDup;
    var r, vs := Rename(e, l, START), Events(e);
    FinalNames(e, l);
    RenameFolds(e, l, START);
    NamesNew(e, CLOSED, l, START, r);
    forall x | x in Desugaring.Names(Apply(e, r)) ensures x !in {Desugaring.LO, Desugaring.HI} {
      assert New(x, r);
      var d :| d in r.decs && r.decs[d] == x;
      var v := DeclOf(vs, d);
      var k :| x == NewName(v.name, k);
      NewNameUnlike(v.name, k);
    }
  }

  /** The event that declares d. */
  lemma {:induction false} DeclOf(vs: seq<Ev>, d: Id) returns (v: Ev)
    requires d in DeclIds(vs)
    ensures v in vs && v.Decl? && v.id == d
    decreases |vs|
  {
    if vs[0].Decl? && vs[0].id == d { v := vs[0]; } else { v := DeclOf(vs[1..], d); }
  }

  // ----- renaming keeps the nodes -----

  lemma {:induction false} SameNodes(e: Exp, r: Renamed)
    ensures OfExp(Apply(e, r)) == OfExp(e) && (Distinct(e) ==> Distinct(Apply(e, r)))
    decreases e
  {
    match e
    case IntExp(_) =>
    case VarExp(_, _) =>
    case OpExp(a, _, b) => SameNodes(a, r); SameNodes(b, r);
    case SeqExp(es) => SameNodesAll(es, r);
    case AssignExp(_, _, x) => SameNodes(x, r);
    case IfExp(c, t, f) =>
      SameNodes(c, r);
      SameNodes(t, r);
      if f.SomeExp? { SameNodes(f.exp, r); }
    case WhileExp(_, c, b) => SameNodes(c, r); SameNodes(b, r);
    case ForExp(_, d, hi, b) => SameNodesVar(d, r); SameNodes(hi, r); SameNodes(b, r);
    case BreakExp(_) =>
    case CallExp(_, _, args) => SameNodesAll(args, r);
    case LetExp(sc) => SameNodesScope(sc, r);
  }

  lemma {:induction false} SameNodesAll(es: Exps, r: Renamed)
    ensures OfExps(ApplyAll(es, r)) == OfExps(es) && (DistinctExps(es) ==> DistinctExps(ApplyAll(es, r)))
    decreases es
  {
    if es.ECons? { SameNodes(es.head, r); SameNodesAll(es.tail, r); }
  }

  lemma {:induction false} SameNodesVar(d: VarDec, r: Renamed)
    ensures OfVarDec(ApplyVarDec(d, r)) == OfVarDec(d) && (DistinctVarDec(d) ==> DistinctVarDec(ApplyVarDec(d, r)))
    decreases d
  {
    SameNodes(d.init, r);
  }

  lemma {:induction false} SameNodesScope(sc: Scope, r: Renamed)
    ensures OfScope(ApplyScope(sc, r)) == OfScope(sc) && (DistinctScope(sc) ==> DistinctScope(ApplyScope(sc, r)))
    decreases sc
  {
    match sc
    case In(b) => SameNodes(b, r);
    case With(VarChunk(d), rest) => SameNodesVar(d, r); SameNodesScope(rest, r);
    case With(FunctionChunk(ds), rest) => SameNodesDecs(ds, r); SameNodesScope(rest, r);
    case With(TypeChunk(ts), rest) => SameNodesTypes(ts, r); SameNodesScope(rest, r);
  }

  lemma {:induction false} SameNodesDecs(ds: Decs, r: Renamed)
    ensures OfDecs(ApplyDecs(ds, r)) == OfDecs(ds) && (DistinctDecs(ds) ==> DistinctDecs(ApplyDecs(ds, r)))
    decreases ds
  {
    if ds.DCons? { SameNodesDec(ds.head, r); SameNodesDecs(ds.tail, r); }
  }

  lemma {:induction false} SameNodesDec(d: FunctionDec, r: Renamed)
    ensures OfDec(ApplyDec(d, r)) == OfDec(d) && (DistinctDec(d) ==> DistinctDec(ApplyDec(d, r)))
    decreases d
  {
    SameNodesFormals(d.formals, r);
    if d.body.SomeExp? { SameNodes(d.body.exp, r); }
    assert OfName(ApplyDec(d, r).result) == OfName(d.result);
  }

  lemma {:induction false} SameNodesFormals(fs: seq<Formal>, r: Renamed)
    ensures OfFormals(ApplyFormals(fs, r)) == OfFormals(fs) && (DistinctFormals(fs) ==> DistinctFormals(ApplyFormals(fs, r)))
    decreases |fs|
  {
    if fs != [] {
      SameNodesFormals(fs[1..], r);
      assert ApplyFormals(fs, r)[1..] == ApplyFormals(fs[1..], r);
    }
  }

  lemma {:induction false} SameNodesTypes(ts: seq<TypeDec>, r: Renamed)
    ensures OfTypes(ApplyTypes(ts, r)) == OfTypes(ts) && (DistinctTypes(ts) ==> DistinctTypes(ApplyTypes(ts, r)))
    decreases |ts|
  {
    if ts != [] {
      if ts[0].ty.RecordTy? { SameNodesFields(ts[0].ty.fields, r); }
      SameNodesTypes(ts[1..], r);
      assert ApplyTypes(ts, r)[1..] == ApplyTypes(ts[1..], r);
    }
  }

  lemma {:induction false} SameNodesFields(fs: seq<(Symbol, TypeName)>, r: Renamed)
    ensures OfFields(ApplyFields(fs, r)) == OfFields(fs) && (DistinctFields(fs) ==> DistinctFields(ApplyFields(fs, r)))
    decreases |fs|
  {
    if fs != [] {
      SameNodesFields(fs[1..], r);
      assert ApplyFields(fs, r)[1..] == ApplyFields(fs[1..], r);
    }
  }
}
