/** The main result on renaming: binding the renamed tree gives what binding the tree gave. */
module RenameBind {
  import opened Options
  import opened Ast
  import opened Nodes
  import opened Binder
  import opened Binding
  import opened Renaming
  import opened Rebinding

  // ----- uses are written as their definitions -----

  /** Names in scope are the names their declarations had. */
  ghost predicate Alike(m: map<Symbol, Id>, r: Renamed) {
    forall x | x in m && m[x] in r.decs :: NewFor(r.decs[m[x]], x)
  }

  ghost predicate EnvAlike(n: Names, r: Renamed) { Alike(n.vars, r) && Alike(n.funs, r) && Alike(n.types, r) }

  ghost predicate Declares(vs: seq<Ev>, r: Renamed) {
    && (forall v | v in vs && v.Decl? :: v.id in r.decs && NewFor(r.decs[v.id], v.name))
    && (forall v | v in vs && v.Keep? :: v.id !in r.decs)
  }

  lemma DeclaresParts(a: seq<Ev>, b: seq<Ev>, r: Renamed)
    requires Declares(a + b, r)
    ensures Declares(a, r) && Declares(b, r)
  {
    assert forall v :: v in a ==> v in a + b;
    assert forall v :: v in b ==> v in a + b;
  }

  lemma AlikeCat(a: seq<Ev>, b: seq<Ev>, l: Links, r: Renamed)
    requires NamedAlike(a, l, r) && NamedAlike(b, l, r)
    ensures NamedAlike(a + b, l, r)
  {}

  lemma NoneAlike(l: Links, r: Renamed)
    ensures NamedAlike([], l, r)
  {}

  lemma TypeAlike(t: TypeName, n: Names, l: Links, r: Renamed)
    requires TypeLinked(t, n, l) && EnvAlike(n, r)
    ensures NamedAlike(TypeEv(t), l, r)
  {}

  lemma NameAlike(t: Option<TypeName>, n: Names, l: Links, r: Renamed)
    requires NameLinked(t, n, l) && EnvAlike(n, r)
    ensures NamedAlike(NameEv(t), l, r)
  {
    if t.Some? { TypeAlike(t.value, n, l, r); }
  }

  lemma {:induction false} LinkedAlike(e: Exp, n: Names, l: Links, r: Renamed)
    requires Linked(e, n, l) && EnvAlike(n, r) && Declares(Events(e), r)
    ensures NamedAlike(Events(e), l, r)
    decreases e
  {
    hide Declares, EnvAlike, NamedAlike;
    match e
    case IntExp(_) => NoneAlike(l, r);
    case BreakExp(_) => NoneAlike(l, r);
    case VarExp(id, x) => UseAlike(id, x, n.vars, n, l, r);
    case OpExp(a, _, b) =>
      DeclaresParts(Events(a), Events(b), r);
      LinkedAlike(a, n, l, r);
      LinkedAlike(b, n, l, r);
      AlikeCat(Events(a), Events(b), l, r);
    case SeqExp(es) => LinkedAllAlike(es, n, l, r);
    case AssignExp(id, x, v) =>
      DeclaresParts([UseOf(id, x, false)], Events(v), r);
      UseAlike(id, x, n.vars, n, l, r);
      LinkedAlike(v, n, l, r);
      AlikeCat([UseOf(id, x, false)], Events(v), l, r);
    case IfExp(c, t, f) =>
      var fs := if f.SomeExp? then Events(f.exp) else [];
      DeclaresParts(Events(c) + Events(t), fs, r);
      DeclaresParts(Events(c), Events(t), r);
      LinkedAlike(c, n, l, r);
      LinkedAlike(t, n, l, r);
      if f.SomeExp? { LinkedAlike(f.exp, n, l, r); } else { NoneAlike(l, r); }
      AlikeCat(Events(c), Events(t), l, r);
      AlikeCat(Events(c) + Events(t), fs, l, r);
    case WhileExp(id, c, b) =>
      DeclaresParts(Events(c), Events(b), r);
      EnterAlike(n, id, r);
      LinkedAlike(c, Enter(n, id), l, r);
      LinkedAlike(b, Enter(n, id), l, r);
      AlikeCat(Events(c), Events(b), l, r);
    case ForExp(id, d, hi, b) =>
      var n' := PutVar(Enter(n, id), d.name, d.id);
      DeclaresParts(EventsVarDec(d) + Events(hi), Events(b), r);
      DeclaresParts(EventsVarDec(d), Events(hi), r);
      EnterAlike(n, id, r);
      VarDecAlike(d, Enter(n, id), l, r);
      LinkedAlike(hi, n', l, r);
      LinkedAlike(b, n', l, r);
      AlikeCat(EventsVarDec(d), Events(hi), l, r);
      AlikeCat(EventsVarDec(d) + Events(hi), Events(b), l, r);
    case CallExp(id, f, args) =>
      DeclaresParts([UseOf(id, f, false)], EventsAll(args), r);
      UseAlike(id, f, n.funs, n, l, r);
      LinkedAllAlike(args, n, l, r);
      AlikeCat([UseOf(id, f, false)], EventsAll(args), l, r);
    case LetExp(sc) => LinkedScopeAlike(sc, n, l, r);
  }

  lemma UseAlike(id: Id, x: Symbol, m: map<Symbol, Id>, n: Names, l: Links, r: Renamed)
    requires Find(l, id) == Find(m, x) && (m == n.vars || m == n.funs) && EnvAlike(n, r)
    ensures NamedAlike([UseOf(id, x, false)], l, r)
  {}

  lemma EnterAlike(n: Names, id: Id, r: Renamed)
    requires EnvAlike(n, r)
    ensures EnvAlike(Enter(n, id), r)
  {}

  lemma {:induction false} LinkedAllAlike(es: Exps, n: Names, l: Links, r: Renamed)
    requires AllLinked(es, n, l) && EnvAlike(n, r) && Declares(EventsAll(es), r)
    ensures NamedAlike(EventsAll(es), l, r)
    decreases es
  {
    hide Declares, EnvAlike, NamedAlike;
    if es.ECons? {
      DeclaresParts(Events(es.head), EventsAll(es.tail), r);
      LinkedAlike(es.head, n, l, r);
      LinkedAllAlike(es.tail, n, l, r);
      AlikeCat(Events(es.head), EventsAll(es.tail), l, r);
    } else {
      NoneAlike(l, r);
    }
  }

  lemma PutAlike(m: map<Symbol, Id>, x: Symbol, d: Id, r: Renamed)
    requires Alike(m, r) && (d in r.decs ==> NewFor(r.decs[d], x))
    ensures Alike(m[x := d], r)
  {}

  /** n is the scope around d. */
  lemma {:induction false} VarDecAlike(d: VarDec, n: Names, l: Links, r: Renamed)
    requires VarDecLinked(d, PutVar(n, d.name, d.id), l) && EnvAlike(n, r) && Declares(EventsVarDec(d), r)
    ensures NamedAlike(EventsVarDec(d), l, r) && EnvAlike(PutVar(n, d.name, d.id), r)
    decreases d
  {
    var n', v := PutVar(n, d.name, d.id), Decl(d.id, d.name);
    DeclaresParts([v] + NameEv(d.typeName), Events(d.init), r);
    DeclaresParts([v], NameEv(d.typeName), r);
    assert v in [v];
    PutAlike(n.vars, d.name, d.id, r);
    hide Declares, NamedAlike;
    NameAlike(d.typeName, n', l, r);
    LinkedAlike(d.init, n', l, r);
    OtherAlike(v, l, r);
    AlikeCat([v], NameEv(d.typeName), l, r);
    AlikeCat([v] + NameEv(d.typeName), Events(d.init), l, r);
  }

  lemma OtherAlike(v: Ev, l: Links, r: Renamed)
    requires !v.UseOf?
    ensures NamedAlike([v], l, r)
  {}

  lemma {:induction false} LinkedScopeAlike(sc: Scope, n: Names, l: Links, r: Renamed)
    requires ScopeLinked(sc, n, l) && EnvAlike(n, r) && Declares(EventsScope(sc), r)
    ensures NamedAlike(EventsScope(sc), l, r)
    decreases sc
  {
    hide Declares, EnvAlike, NamedAlike;
    match sc
    case In(b) => LinkedAlike(b, n, l, r);
    case With(VarChunk(d), rest) =>
      DeclaresParts(EventsVarDec(d), EventsScope(rest), r);
      VarDecAlike(d, n, l, r);
      LinkedScopeAlike(rest, PutVar(n, d.name, d.id), l, r);
      AlikeCat(EventsVarDec(d), EventsScope(rest), l, r);
    case With(FunctionChunk(ds), rest) =>
      var v, n' := Again(Repeats(ds, {})), AddFirst(ds, n, {});
      DeclaresParts([v] + EventsDecs(ds), EventsScope(rest), r);
      DeclaresParts([v], EventsDecs(ds), r);
      AddFirstAlike(ds, n, {}, r);
      DecsAlike(ds, n', l, r);
      PutAllAlike(ds, n', r);
      LinkedScopeAlike(rest, PutAll(ds, n'), l, r);
      OtherAlike(v, l, r);
      AlikeCat([v], EventsDecs(ds), l, r);
      AlikeCat([v] + EventsDecs(ds), EventsScope(rest), l, r);
    case With(TypeChunk(ts), rest) =>
      var v, n' := Again(RepeatedTypes(ts, {})), AddFirstTypes(ts, n, {});
      DeclaresParts([v] + EventsTypes(ts), EventsScope(rest), r);
      DeclaresParts([v], EventsTypes(ts), r);
      AddFirstTypesAlike(ts, n, {}, r);
      TypesAlike(ts, n', l, r);
      PutAllTypesAlike(ts, n', r);
      LinkedScopeAlike(rest, PutAllTypes(ts, n'), l, r);
      OtherAlike(v, l, r);
      AlikeCat([v], EventsTypes(ts), l, r);
      AlikeCat([v] + EventsTypes(ts), EventsScope(rest), l, r);
  }

  lemma HeadDeclared(d: FunctionDec, r: Renamed)
    requires Declares(EventsDec(d), r)
    ensures if Kept(d) then d.id !in r.decs else d.id in r.decs && NewFor(r.decs[d.id], d.name)
  {
    assert EventsDec(d)[0] in EventsDec(d);
  }

  lemma {:induction false} AddFirstAlike(ds: Decs, n: Names, seen: set<Symbol>, r: Renamed)
    requires EnvAlike(n, r) && Declares(EventsDecs(ds), r)
    ensures EnvAlike(AddFirst(ds, n, seen), r)
    decreases ds
  {
    if ds.DCons? {
      DeclaresParts(EventsDec(ds.head), EventsDecs(ds.tail), r);
      HeadDeclared(ds.head, r);
      PutAlike(n.funs, ds.head.name, ds.head.id, r);
      if ds.head.name in seen { AddFirstAlike(ds.tail, n, seen, r); }
      else { AddFirstAlike(ds.tail, PutFun(n, ds.head.name, ds.head.id), seen + {ds.head.name}, r); }
    }
  }

  lemma {:induction false} PutAllAlike(ds: Decs, n: Names, r: Renamed)
    requires EnvAlike(n, r) && Declares(EventsDecs(ds), r)
    ensures EnvAlike(PutAll(ds, n), r)
    decreases ds
  {
    if ds.DCons? {
      DeclaresParts(EventsDec(ds.head), EventsDecs(ds.tail), r);
      HeadDeclared(ds.head, r);
      PutAlike(n.funs, ds.head.name, ds.head.id, r);
      PutAllAlike(ds.tail, PutFun(n, ds.head.name, ds.head.id), r);
    }
  }

  lemma {:induction false} DecsAlike(ds: Decs, n: Names, l: Links, r: Renamed)
    requires DecsLinked(ds, n, l) && EnvAlike(n, r) && Declares(EventsDecs(ds), r)
    ensures NamedAlike(EventsDecs(ds), l, r)
    decreases ds
  {
    hide Declares, NamedAlike;
    if ds.DCons? {
      var d, n' := ds.head, PutFun(n, ds.head.name, ds.head.id);
      DeclaresParts(EventsDec(d), EventsDecs(ds.tail), r);
      HeadDeclared(d, r);
      PutAlike(n.funs, d.name, d.id, r);
      DecAlike(d, n', l, r);
      DecsAlike(ds.tail, n', l, r);
      AlikeCat(EventsDec(d), EventsDecs(ds.tail), l, r);
    } else {
      NoneAlike(l, r);
    }
  }

  lemma {:induction false} DecAlike(d: FunctionDec, n: Names, l: Links, r: Renamed)
    requires DecLinked(d, n, l) && EnvAlike(n, r) && Declares(EventsDec(d), r)
    ensures NamedAlike(EventsDec(d), l, r)
    decreases d
  {
    hide Declares, NamedAlike, EnvAlike;
    var own, again := [if Kept(d) then Keep(d.id, d.name) else Decl(d.id, d.name)], [Again(RepeatedFormals(d.formals, {}))];
    var fs, res, body := EventsFormals(d.formals), NameEv(d.result), if d.body.SomeExp? then Events(d.body.exp) else [];
    var n' := PutFormals(d.formals, n);
    DeclaresParts(own + again + fs + res, body, r);
    DeclaresParts(own + again + fs, res, r);
    DeclaresParts(own + again, fs, r);
    FormalsAlike(d.formals, n, l, r);
    NameAlike(d.result, n', l, r);
    if d.body.SomeExp? { LinkedAlike(d.body.exp, n', l, r); } else { NoneAlike(l, r); }
    OtherAlike(own[0], l, r);
    OtherAlike(again[0], l, r);
    AlikeCat(own, again, l, r);
    AlikeCat(own + again, fs, l, r);
    AlikeCat(own + again + fs, res, l, r);
    AlikeCat(own + again + fs + res, body, l, r);
  }

  lemma {:induction false} FormalsAlike(fs: seq<Formal>, n: Names, l: Links, r: Renamed)
    requires FormalsLinked(fs, n, l) && EnvAlike(n, r) && Declares(EventsFormals(fs), r)
    ensures NamedAlike(EventsFormals(fs), l, r) && EnvAlike(PutFormals(fs, n), r)
    decreases |fs|
  {
    hide NamedAlike;
    if fs != [] {
      var v, t, n' := Decl(fs[0].id, fs[0].name), fs[0].typeName, PutVar(n, fs[0].name, fs[0].id);
      DeclaresParts([v] + TypeEv(t), EventsFormals(fs[1..]), r);
      DeclaresParts([v], TypeEv(t), r);
      assert v in [v];
      PutAlike(n.vars, fs[0].name, fs[0].id, r);
      TypeAlike(t, n', l, r);
      FormalsAlike(fs[1..], n', l, r);
      OtherAlike(v, l, r);
      AlikeCat([v], TypeEv(t), l, r);
      AlikeCat([v] + TypeEv(t), EventsFormals(fs[1..]), l, r);
    } else {
      NoneAlike(l, r);
    }
  }

  lemma {:induction false} AddFirstTypesAlike(ts: seq<TypeDec>, n: Names, seen: set<Symbol>, r: Renamed)
    requires EnvAlike(n, r) && Declares(EventsTypes(ts), r)
    ensures EnvAlike(AddFirstTypes(ts, n, seen), r)
    decreases |ts|
  {
    if ts != [] {
      TypeDeclared(ts, r);
      PutAlike(n.types, ts[0].name, ts[0].id, r);
      if ts[0].name in seen { AddFirstTypesAlike(ts[1..], n, seen, r); }
      else { AddFirstTypesAlike(ts[1..], PutType(n, ts[0].name, ts[0].id), seen + {ts[0].name}, r); }
    }
  }

  lemma TypeDeclared(ts: seq<TypeDec>, r: Renamed)
    requires ts != [] && Declares(EventsTypes(ts), r)
    ensures ts[0].id in r.decs && NewFor(r.decs[ts[0].id], ts[0].name)
    ensures Declares(EventsTy(ts[0].ty), r) && Declares(EventsTypes(ts[1..]), r)
  {
    var v := Decl(ts[0].id, ts[0].name);
    DeclaresParts([v] + EventsTy(ts[0].ty), EventsTypes(ts[1..]), r);
    DeclaresParts([v], EventsTy(ts[0].ty), r);
    assert v in [v];
  }

  lemma {:induction false} PutAllTypesAlike(ts: seq<TypeDec>, n: Names, r: Renamed)
    requires EnvAlike(n, r) && Declares(EventsTypes(ts), r)
    ensures EnvAlike(PutAllTypes(ts, n), r)
    decreases |ts|
  {
    if ts != [] {
      TypeDeclared(ts, r);
      PutAlike(n.types, ts[0].name, ts[0].id, r);
      PutAllTypesAlike(ts[1..], PutType(n, ts[0].name, ts[0].id), r);
    }
  }

  lemma {:induction false} FieldsAlike(fs: seq<(Symbol, TypeName)>, n: Names, l: Links, r: Renamed)
    requires FieldsLinked(fs, n, l) && EnvAlike(n, r)
    ensures NamedAlike(EventsFields(fs), l, r)
    decreases |fs|
  {
    hide NamedAlike, EnvAlike;
    if fs != [] {
      TypeAlike(fs[0].1, n, l, r);
      FieldsAlike(fs[1..], n, l, r);
      AlikeCat(TypeEv(fs[0].1), EventsFields(fs[1..]), l, r);
    } else {
      NoneAlike(l, r);
    }
  }

  lemma {:induction false} TypesAlike(ts: seq<TypeDec>, n: Names, l: Links, r: Renamed)
    requires TypesLinked(ts, n, l) && EnvAlike(n, r) && Declares(EventsTypes(ts), r)
    ensures NamedAlike(EventsTypes(ts), l, r)
    decreases |ts|
  {
    hide NamedAlike;
    if ts != [] {
      var v, ty, n' := Decl(ts[0].id, ts[0].name), ts[0].ty, PutType(n, ts[0].name, ts[0].id);
      TypeDeclared(ts, r);
      PutAlike(n.types, ts[0].name, ts[0].id, r);
      match ty {
        case NameTy(t) => TypeAlike(t, n', l, r);
        case ArrayTy(t) => TypeAlike(t, n', l, r);
        case RecordTy(fs) => FieldsAlike(fs, n', l, r);
      }
      TypesAlike(ts[1..], n', l, r);
      OtherAlike(v, l, r);
      AlikeCat([v], EventsTy(ty), l, r);
      AlikeCat([v] + EventsTy(ty), EventsTypes(ts[1..]), l, r);
    } else {
      NoneAlike(l, r);
    }
  }

  // ----- the two environments -----

  /** What a tree must satisfy: declarations renamed after their names, functions that keep theirs
      apart from the new names, every use bound and carrying its definition's name, no repeats. */
  ghost predicate Fit(v: Ev, l: Links, r: Renamed) {
    match v
    case Decl(id, x) => id in r.decs && NewFor(r.decs[id], x)
    case Keep(id, x) => id !in r.decs && x !in r.decs.Values
    case UseOf(id, _, builtin) => (builtin || id in l) && Carries(v, l, r)
    case Again(n) => n == 0
  }

  ghost predicate Fits(vs: seq<Ev>, l: Links, r: Renamed) { forall v | v in vs :: Fit(v, l, r) }

  lemma FitsParts(a: seq<Ev>, b: seq<Ev>, l: Links, r: Renamed)
    requires Fits(a + b, l, r)
    ensures Fits(a, l, r) && Fits(b, l, r)
  {
    assert forall v :: v in a ==> v in a + b;
    assert forall v :: v in b ==> v in a + b;
  }

  lemma FitsOne(v: Ev, l: Links, r: Renamed)
    requires Fits([v], l, r)
    ensures Fit(v, l, r)
  {
    assert v in [v];
  }

  /** The scope m' of renamed declarations holds those of m under their final names. */
  ghost predicate Mirrors(m: map<Symbol, Id>, m': map<Symbol, Id>, r: Renamed) {
    && (forall x | x in m :: Find(m', NameOf(r.decs, m[x], x)) == Some(m[x]))
    && (forall y | y in m' :: if m'[y] in r.decs then y == r.decs[m'[y]] else y !in r.decs.Values)
  }

  ghost predicate Follows(n: Names, n': Names, r: Renamed) {
    && Mirrors(n.vars, n'.vars, r) && Mirrors(n.funs, n'.funs, r) && Mirrors(n.types, n'.types, r) && n'.loop == n.loop
    && Unique(r)
  }

  lemma PutMirrors(m: map<Symbol, Id>, m': map<Symbol, Id>, x: Symbol, d: Id, r: Renamed)
    requires Mirrors(m, m', r) && Unique(r) && (d !in r.decs ==> x !in r.decs.Values)
    ensures Mirrors(m[x := d], m'[NameOf(r.decs, d, x) := d], r)
  {
    var y, o, o' := NameOf(r.decs, d, x), m[x := d], m'[NameOf(r.decs, d, x) := d];
    forall z | z in o ensures Find(o', NameOf(r.decs, o[z], z)) == Some(o[z]) {
      if z != x && NameOf(r.decs, m[z], z) == y {
        if m[z] in r.decs { assert r.decs[m[z]] in r.decs.Values; }
        if d in r.decs { assert r.decs[d] in r.decs.Values && Find(m', y) == Some(m[z]); }
      }
    }
  }

  // ----- binding goes the same way -----

  lemma SameUse(id: Id, x: Symbol, m: map<Symbol, Id>, m': map<Symbol, Id>, l: Links, r: Renamed)
    requires Find(l, id) == Find(m, x) && Fit(UseOf(id, x, false), l, r) && Mirrors(m, m', r)
    ensures Find(m', NameOf(r.uses, id, x)) == Find(m, x) && x in m
  {}

  lemma SameType(t: TypeName, n: Names, n': Names, b: Bound, l: Links, r: Renamed)
    requires TypeLinked(t, n, l) && Fits(TypeEv(t), l, r) && Follows(n, n', r) && r.uses.Keys <= l.Keys
    ensures UseType(ApplyType(t, r), n', b) == UseType(t, n, b)
  {
    FitsOne(TypeEv(t)[0], l, r);
    if !Builtin(t.name) {
      SameUse(t.id, t.name, n.types, n'.types, l, r);
      var d := n.types[t.name];
      if d in r.decs {
        assert Numbered(r.decs[d], r.next);
        var x, k: nat :| k < r.next && r.decs[d] == NewName(x, k);
        NewNameUnlike(x, k);
      }
    }
  }

  lemma SameName(t: Option<TypeName>, n: Names, n': Names, b: Bound, l: Links, r: Renamed)
    requires NameLinked(t, n, l) && Fits(NameEv(t), l, r) && Follows(n, n', r) && r.uses.Keys <= l.Keys
    ensures t.Some? ==> UseType(ApplyName(t, r).value, n', b) == UseType(t.value, n, b)
  {
    if t.Some? { SameType(t.value, n, n', b, l, r); }
  }

  lemma FollowsVar(n: Names, n': Names, x: Symbol, d: Id, r: Renamed)
    requires Follows(n, n', r) && d in r.decs
    ensures Follows(PutVar(n, x, d), PutVar(n', NameOf(r.decs, d, x), d), r)
  {
    PutMirrors(n.vars, n'.vars, x, d, r);
  }

  lemma FollowsFun(n: Names, n': Names, x: Symbol, d: Id, r: Renamed)
    requires Follows(n, n', r) && (d !in r.decs ==> x !in r.decs.Values)
    ensures Follows(PutFun(n, x, d), PutFun(n', NameOf(r.decs, d, x), d), r)
  {
    PutMirrors(n.funs, n'.funs, x, d, r);
  }

  lemma FollowsType(n: Names, n': Names, x: Symbol, d: Id, r: Renamed)
    requires Follows(n, n', r) && d in r.decs
    ensures Follows(PutType(n, x, d), PutType(n', NameOf(r.decs, d, x), d), r)
  {
    PutMirrors(n.types, n'.types, x, d, r);
  }

  lemma FollowsLoop(n: Names, n': Names, id: Id, r: Renamed)
    requires Follows(n, n', r)
    ensures Follows(Enter(n, id), Enter(n', id), r)
  {}

  ghost predicate Bindable(n: Names, n': Names, l: Links, r: Renamed, vs: seq<Ev>) {
    Follows(n, n', r) && r.uses.Keys <= l.Keys && Fits(vs, l, r)
  }

  lemma BindableParts(n: Names, n': Names, l: Links, r: Renamed, a: seq<Ev>, b: seq<Ev>)
    requires Bindable(n, n', l, r, a + b)
    ensures Bindable(n, n', l, r, a) && Bindable(n, n', l, r, b)
  {
    FitsParts(a, b, l, r);
  }

  lemma SameVar(id: Id, x: Symbol, n: Names, n': Names, b: Bound, l: Links, r: Renamed)
    requires Find(l, id) == Find(n.vars, x) && Bindable(n, n', l, r, [UseOf(id, x, false)])
    ensures UseVar(id, NameOf(r.uses, id, x), n', b) == UseVar(id, x, n, b)
  {
    FitsOne(UseOf(id, x, false), l, r);
    SameUse(id, x, n.vars, n'.vars, l, r);
  }

  lemma SameFun(id: Id, x: Symbol, n: Names, n': Names, b: Bound, l: Links, r: Renamed)
    requires Find(l, id) == Find(n.funs, x) && Bindable(n, n', l, r, [UseOf(id, x, false)])
    ensures UseFun(id, NameOf(r.uses, id, x), n', b) == UseFun(id, x, n, b)
  {
    FitsOne(UseOf(id, x, false), l, r);
    SameUse(id, x, n.funs, n'.funs, l, r);
  }

  lemma {:induction false} Rebind(e: Exp, n: Names, n': Names, b: Bound, l: Links, r: Renamed)
    requires Linked(e, n, l) && Bindable(n, n', l, r, Events(e))
    ensures Resolve(Apply(e, r), n', b) == Resolve(e, n, b)
    decreases e, 1
  {
    hide Bindable, Follows;
    match e
    case IntExp(_) =>
    case BreakExp(_) => SameLoops(n, n', l, r, []);
    case VarExp(id, x) => SameVar(id, x, n, n', b, l, r);
    case OpExp(a, _, c) =>
      BindableParts(n, n', l, r, Events(a), Events(c));
      Rebind(a, n, n', b, l, r);
      Rebind(c, n, n', Resolve(a, n, b), l, r);
    case SeqExp(es) => RebindAll(es, n, n', b, l, r);
    case AssignExp(id, x, v) =>
      BindableParts(n, n', l, r, [UseOf(id, x, false)], Events(v));
      SameVar(id, x, n, n', b, l, r);
      Rebind(v, n, n', UseVar(id, x, n, b), l, r);
    case IfExp(c, t, f) => RebindIf(e, n, n', b, l, r);
    case WhileExp(id, c, w) =>
      BindableParts(n, n', l, r, Events(c), Events(w));
      LoopBindable(n, n', id, l, r, Events(c));
      LoopBindable(n, n', id, l, r, Events(w));
      Rebind(c, Enter(n, id), Enter(n', id), b.(inLoop := true), l, r);
      Rebind(w, Enter(n, id), Enter(n', id), Resolve(c, Enter(n, id), b.(inLoop := true)).(inLoop := false), l, r);
    case ForExp(_, _, _, _) => RebindFor(e, n, n', b, l, r);
    case CallExp(id, f, args) =>
      BindableParts(n, n', l, r, [UseOf(id, f, false)], EventsAll(args));
      SameFun(id, f, n, n', b, l, r);
      RebindAll(args, n, n', UseFun(id, f, n, b).(inFormals := true), l, r);
    case LetExp(sc) => RebindScope(sc, n, n', b, l, r);
  }

  lemma SameLoops(n: Names, n': Names, l: Links, r: Renamed, vs: seq<Ev>)
    requires Bindable(n, n', l, r, vs)
    ensures n'.loop == n.loop
  {}

  lemma LoopBindable(n: Names, n': Names, id: Id, l: Links, r: Renamed, vs: seq<Ev>)
    requires Bindable(n, n', l, r, vs)
    ensures Bindable(Enter(n, id), Enter(n', id), l, r, vs)
  {
    FollowsLoop(n, n', id, r);
  }

  lemma {:induction false} RebindIf(e: Exp, n: Names, n': Names, b: Bound, l: Links, r: Renamed)
    requires e.IfExp? && Linked(e, n, l) && Bindable(n, n', l, r, Events(e))
    ensures Resolve(Apply(e, r), n', b) == Resolve(e, n, b)
    decreases e, 0
  {
    hide Bindable, Follows;
    var c, t, f := e.test, e.thn, e.els;
    BindableParts(n, n', l, r, Events(c) + Events(t), if f.SomeExp? then Events(f.exp) else []);
    BindableParts(n, n', l, r, Events(c), Events(t));
    Rebind(c, n, n', b, l, r);
    Rebind(t, n, n', Resolve(c, n, b), l, r);
    if f.SomeExp? { Rebind(f.exp, n, n', Resolve(t, n, Resolve(c, n, b)), l, r); }
  }

  lemma {:induction false} RebindFor(e: Exp, n: Names, n': Names, b: Bound, l: Links, r: Renamed)
    requires e.ForExp? && Linked(e, n, l) && Bindable(n, n', l, r, Events(e))
    ensures Resolve(Apply(e, r), n', b) == Resolve(e, n, b)
    decreases e, 0
  {
    hide Bindable, Follows;
    var d, id := e.index, e.id;
    var m, m' := Enter(n, id), Enter(n', id);
    BindableParts(n, n', l, r, EventsVarDec(d) + Events(e.hi), Events(e.body));
    BindableParts(n, n', l, r, EventsVarDec(d), Events(e.hi));
    LoopBindable(n, n', id, l, r, EventsVarDec(d));
    LoopBindable(n, n', id, l, r, Events(e.hi));
    LoopBindable(n, n', id, l, r, Events(e.body));
    VarBindable(m, m', d, l, r, Events(e.hi));
    VarBindable(m, m', d, l, r, Events(e.body));
    var k, k' := PutVar(m, d.name, d.id), PutVar(m', NameOf(r.decs, d.id, d.name), d.id);
    var b1 := ResolveVarDec(d, k, b.(inLoop := true));
    RebindVarDec(d, m, m', b.(inLoop := true), l, r);
    Rebind(e.hi, k, k', b1, l, r);
    Rebind(e.body, k, k', Resolve(e.hi, k, b1).(inLoop := false), l, r);
  }

  /** What follows a variable may be bound with it in scope. */
  lemma VarBindable(n: Names, n': Names, d: VarDec, l: Links, r: Renamed, vs: seq<Ev>)
    requires Bindable(n, n', l, r, EventsVarDec(d)) && Bindable(n, n', l, r, vs)
    ensures Bindable(PutVar(n, d.name, d.id), PutVar(n', NameOf(r.decs, d.id, d.name), d.id), l, r, vs)
  {
    assert EventsVarDec(d)[0] == Decl(d.id, d.name) && EventsVarDec(d)[0] in EventsVarDec(d);
    FollowsVar(n, n', d.name, d.id, r);
  }

  /** n and n' are the scopes around d. */
  lemma {:induction false} RebindVarDec(d: VarDec, n: Names, n': Names, b: Bound, l: Links, r: Renamed)
    requires VarDecLinked(d, PutVar(n, d.name, d.id), l) && Bindable(n, n', l, r, EventsVarDec(d))
    ensures var k, k' := PutVar(n, d.name, d.id), PutVar(n', NameOf(r.decs, d.id, d.name), d.id);
      ResolveVarDec(ApplyVarDec(d, r), k', b) == ResolveVarDec(d, k, b)
    decreases d
  {
    var k, k' := PutVar(n, d.name, d.id), PutVar(n', NameOf(r.decs, d.id, d.name), d.id);
    VarBindable(n, n', d, l, r, EventsVarDec(d));
    BindableParts(k, k', l, r, [Decl(d.id, d.name)] + NameEv(d.typeName), Events(d.init));
    BindableParts(k, k', l, r, [Decl(d.id, d.name)], NameEv(d.typeName));
    SameName(d.typeName, k, k', b, l, r);
    hide Bindable, Follows;
    var b1 := if d.typeName.Some? then UseType(d.typeName.value, k, b) else b;
    Rebind(d.init, k, k', b1.(inVarDec := true), l, r);
  }

  lemma {:induction false} RebindAll(es: Exps, n: Names, n': Names, b: Bound, l: Links, r: Renamed)
    requires AllLinked(es, n, l) && Bindable(n, n', l, r, EventsAll(es))
    ensures ResolveAll(ApplyAll(es, r), n', b) == ResolveAll(es, n, b)
    decreases es
  {
    hide Bindable, Follows;
    if es.ECons? {
      BindableParts(n, n', l, r, Events(es.head), EventsAll(es.tail));
      Rebind(es.head, n, n', b, l, r);
      RebindAll(es.tail, n, n', Resolve(es.head, n, b), l, r);
    }
  }

  lemma {:induction false} RebindScope(sc: Scope, n: Names, n': Names, b: Bound, l: Links, r: Renamed)
    requires ScopeLinked(sc, n, l) && Bindable(n, n', l, r, EventsScope(sc))
    ensures ResolveScope(ApplyScope(sc, r), n', b) == ResolveScope(sc, n, b)
    decreases sc
  {
    hide Bindable, Follows;
    match sc
    case In(e) => Rebind(e, n, n', b, l, r);
    case With(VarChunk(d), rest) =>
      BindableParts(n, n', l, r, EventsVarDec(d), EventsScope(rest));
      VarBindable(n, n', d, l, r, EventsScope(rest));
      RebindVarDec(d, n, n', b, l, r);
      var k, k' := PutVar(n, d.name, d.id), PutVar(n', NameOf(r.decs, d.id, d.name), d.id);
      RebindScope(rest, k, k', ResolveVarDec(d, k, b), l, r);
    case With(FunctionChunk(ds), rest) => RebindChunk(ds, rest, n, n', b, l, r);
    case With(TypeChunk(ts), rest) => RebindTypeChunk(ts, rest, n, n', b, l, r);
  }

  lemma {:induction false} RebindChunk(ds: Decs, rest: Scope, n: Names, n': Names, b: Bound, l: Links, r: Renamed)
    requires var sc := With(FunctionChunk(ds), rest); ScopeLinked(sc, n, l) && Bindable(n, n', l, r, EventsScope(sc))
    ensures var sc := With(FunctionChunk(ds), rest); ResolveScope(ApplyScope(sc, r), n', b) == ResolveScope(sc, n, b)
    decreases With(FunctionChunk(ds), rest), 0
  {
    hide Bindable, Follows;
    var v := Again(Repeats(ds, {}));
    BindableParts(n, n', l, r, [v] + EventsDecs(ds), EventsScope(rest));
    BindableParts(n, n', l, r, [v], EventsDecs(ds));
    var k, k' := AddFirst(ds, n, {}), AddFirst(ApplyDecs(ds, r), n', {});
    ChunkBindable(ds, n, n', l, r);
    AllBindable(ds, k, k', l, r);
    RebindDecs(ds, k, k', b.(redeclared := b.redeclared + Repeats(ds, {})), l, r);
    var j, j' := PutAll(ds, k), PutAll(ApplyDecs(ds, r), k');
    MoreBindable(n, n', j, j', l, r, EventsDecs(ds), EventsScope(rest));
    RebindScope(rest, j, j', ResolveDecs(ds, k, b.(redeclared := b.redeclared + Repeats(ds, {}))), l, r);
  }

  lemma {:induction false} RebindTypeChunk(ts: seq<TypeDec>, rest: Scope, n: Names, n': Names, b: Bound, l: Links, r: Renamed)
    requires var sc := With(TypeChunk(ts), rest); ScopeLinked(sc, n, l) && Bindable(n, n', l, r, EventsScope(sc))
    ensures var sc := With(TypeChunk(ts), rest); ResolveScope(ApplyScope(sc, r), n', b) == ResolveScope(sc, n, b)
    decreases With(TypeChunk(ts), rest), 0
  {
    hide Bindable, Follows;
    var v := Again(RepeatedTypes(ts, {}));
    BindableParts(n, n', l, r, [v] + EventsTypes(ts), EventsScope(rest));
    BindableParts(n, n', l, r, [v], EventsTypes(ts));
    var k, k' := AddFirstTypes(ts, n, {}), AddFirstTypes(ApplyTypes(ts, r), n', {});
    TypeChunkBindable(ts, n, n', l, r);
    AllTypesBindable(ts, k, k', l, r);
    RebindTypes(ts, k, k', b.(redeclared := b.redeclared + RepeatedTypes(ts, {})), l, r);
    var j, j' := PutAllTypes(ts, k), PutAllTypes(ApplyTypes(ts, r), k');
    MoreBindable(n, n', j, j', l, r, EventsTypes(ts), EventsScope(rest));
    RebindScope(rest, j, j', ResolveTypes(ts, k, b.(redeclared := b.redeclared + RepeatedTypes(ts, {}))), l, r);
  }

  lemma MoreBindable(n: Names, n': Names, k: Names, k': Names, l: Links, r: Renamed, vs: seq<Ev>, ws: seq<Ev>)
    requires Bindable(n, n', l, r, ws) && Bindable(k, k', l, r, vs)
    ensures Bindable(k, k', l, r, ws)
  {}

  // ----- chunks -----

  lemma {:induction false} AddFirstAll(ds: Decs, n: Names, seen: set<Symbol>)
    requires Repeats(ds, seen) == 0
    ensures AddFirst(ds, n, seen) == PutAll(ds, n)
    decreases ds
  {
    if ds.DCons? { AddFirstAll(ds.tail, PutFun(n, ds.head.name, ds.head.id), seen + {ds.head.name}); }
  }

  lemma HeadFits(d: FunctionDec, l: Links, r: Renamed)
    requires Fits(EventsDec(d), l, r)
    ensures if Kept(d) then d.id !in r.decs && d.name !in r.decs.Values else d.id in r.decs && NewFor(r.decs[d.id], d.name)
  {
    assert EventsDec(d)[0] in EventsDec(d);
    assert Fit(EventsDec(d)[0], l, r);
  }

  /** y is the final name of a declaration called by one of the names seen. */
  ghost predicate Image(y: Symbol, seen: set<Symbol>, r: Renamed) {
    if y in r.decs.Values then exists x :: x in seen && NewFor(y, x) else y in seen
  }

  lemma NewNames(x: Symbol, y: Symbol, s: Symbol)
    requires NewFor(s, x) && NewFor(s, y)
    ensures x == y
  {
    var i :| s == NewName(x, i);
    var j :| s == NewName(y, j);
    NewNameInjective(x, i, y, j);
  }

  lemma {:induction false} StillNoRepeats(ds: Decs, seen: set<Symbol>, seen': set<Symbol>, l: Links, r: Renamed)
    requires Repeats(ds, seen) == 0 && Fits(EventsDecs(ds), l, r) && forall y | y in seen' :: Image(y, seen, r)
    ensures Repeats(ApplyDecs(ds, r), seen') == 0
    decreases ds
  {
    if ds.DCons? {
      var d, y := ds.head, NameOf(r.decs, ds.head.id, ds.head.name);
      FitsParts(EventsDec(d), EventsDecs(ds.tail), l, r);
      HeadFits(d, l, r);
      NotSeen(d.id, d.name, seen, seen', r);
      forall z | z in seen' + {y} ensures Image(z, seen + {d.name}, r) {
        if z in seen' { assert Image(z, seen, r); }
      }
      StillNoRepeats(ds.tail, seen + {d.name}, seen' + {y}, l, r);
    }
  }

  lemma NotSeen(id: Id, x: Symbol, seen: set<Symbol>, seen': set<Symbol>, r: Renamed)
    requires x !in seen && (forall y | y in seen' :: Image(y, seen, r))
    requires if id in r.decs then NewFor(r.decs[id], x) else x !in r.decs.Values
    ensures NameOf(r.decs, id, x) !in seen'
  {
    var y := NameOf(r.decs, id, x);
    if y in seen' {
      assert Image(y, seen, r);
      if id in r.decs {
        assert y in r.decs.Values;
        var z :| z in seen && NewFor(y, z);
        NewNames(z, x, y);
      }
    }
  }

  lemma ChunkBindable(ds: Decs, n: Names, n': Names, l: Links, r: Renamed)
    requires Bindable(n, n', l, r, [Again(Repeats(ds, {}))]) && Bindable(n, n', l, r, EventsDecs(ds))
    ensures Repeats(ds, {}) == 0 == Repeats(ApplyDecs(ds, r), {})
    ensures Bindable(AddFirst(ds, n, {}), AddFirst(ApplyDecs(ds, r), n', {}), l, r, EventsDecs(ds))
  {
    FitsOne(Again(Repeats(ds, {})), l, r);
    StillNoRepeats(ds, {}, {}, l, r);
    AddFirstAll(ds, n, {});
    AddFirstAll(ApplyDecs(ds, r), n', {});
    AllBindable(ds, n, n', l, r);
  }

  lemma {:induction false} AllBindable(ds: Decs, n: Names, n': Names, l: Links, r: Renamed)
    requires Bindable(n, n', l, r, EventsDecs(ds))
    ensures Bindable(PutAll(ds, n), PutAll(ApplyDecs(ds, r), n'), l, r, EventsDecs(ds))
    decreases ds
  {
    if ds.DCons? {
      var d := ds.head;
      BindableParts(n, n', l, r, EventsDec(d), EventsDecs(ds.tail));
      HeadFits(d, l, r);
      FollowsFun(n, n', d.name, d.id, r);
      AllBindable(ds.tail, PutFun(n, d.name, d.id), PutFun(n', NameOf(r.decs, d.id, d.name), d.id), l, r);
    }
  }

  lemma {:induction false} RebindDecs(ds: Decs, n: Names, n': Names, b: Bound, l: Links, r: Renamed)
    requires DecsLinked(ds, n, l) && Bindable(n, n', l, r, EventsDecs(ds))
    ensures ResolveDecs(ApplyDecs(ds, r), n', b) == ResolveDecs(ds, n, b)
    decreases ds
  {
    hide Follows;
    if ds.DCons? {
      var d := ds.head;
      var k, k' := PutFun(n, d.name, d.id), PutFun(n', NameOf(r.decs, d.id, d.name), d.id);
      BindableParts(n, n', l, r, EventsDec(d), EventsDecs(ds.tail));
      HeadFits(d, l, r);
      FollowsFun(n, n', d.name, d.id, r);
      RebindDec(d, k, k', b, l, r);
      RebindDecs(ds.tail, k, k', ResolveDec(d, k, b), l, r);
    }
  }

  lemma {:induction false} RebindDec(d: FunctionDec, n: Names, n': Names, b: Bound, l: Links, r: Renamed)
    requires DecLinked(d, n, l) && Bindable(n, n', l, r, EventsDec(d))
    ensures ResolveDec(ApplyDec(d, r), n', b) == ResolveDec(d, n, b)
    decreases d
  {
    hide Follows;
    var own, again := [if Kept(d) then Keep(d.id, d.name) else Decl(d.id, d.name)], [Again(RepeatedFormals(d.formals, {}))];
    var fs, res, body := EventsFormals(d.formals), NameEv(d.result), if d.body.SomeExp? then Events(d.body.exp) else [];
    var b0 := NoteMain(d, b);
    SameMain(d, b, n, n', l, r);
    BindableParts(n, n', l, r, own + again + fs + res, body);
    BindableParts(n, n', l, r, own + again + fs, res);
    BindableParts(n, n', l, r, own + again, fs);
    BindableParts(n, n', l, r, own, again);
    FitsOne(again[0], l, r);
    FormalsNoRepeats(d.formals, {}, {}, l, r);
    var b1 := b0.(redeclared := b0.redeclared + RepeatedFormals(d.formals, {}), inFormals := true);
    RebindFormals(d.formals, n, n', b1, l, r);
    var k, k' := PutFormals(d.formals, n), PutFormals(ApplyFormals(d.formals, r), n');
    var b2 := ResolveHeader(d, n, b0);
    SameName(d.result, k, k', b2, l, r);
    var b3 := if d.result.Some? then UseType(d.result.value, k, b2) else b2;
    if d.body.SomeExp? { Rebind(d.body.exp, k, k', b3, l, r); }
  }

  lemma SameMain(d: FunctionDec, b: Bound, n: Names, n': Names, l: Links, r: Renamed)
    requires Bindable(n, n', l, r, EventsDec(d))
    ensures NoteMain(ApplyDec(d, r), b) == NoteMain(d, b)
  {
    HeadFits(d, l, r);
    if !Kept(d) {
      var k :| r.decs[d.id] == NewName(d.name, k);
      NewNameUnlike(d.name, k);
    }
  }

  lemma FormalFits(fs: seq<Formal>, l: Links, r: Renamed)
    requires fs != [] && Fits(EventsFormals(fs), l, r)
    ensures fs[0].id in r.decs && NewFor(r.decs[fs[0].id], fs[0].name)
    ensures Fits(TypeEv(fs[0].typeName), l, r) && Fits(EventsFormals(fs[1..]), l, r)
  {
    var v := Decl(fs[0].id, fs[0].name);
    FitsParts([v] + TypeEv(fs[0].typeName), EventsFormals(fs[1..]), l, r);
    FitsParts([v], TypeEv(fs[0].typeName), l, r);
    FitsOne(v, l, r);
  }

  lemma {:induction false} FormalsNoRepeats(fs: seq<Formal>, seen: set<Symbol>, seen': set<Symbol>, l: Links, r: Renamed)
    requires RepeatedFormals(fs, seen) == 0 && Fits(EventsFormals(fs), l, r) && forall y | y in seen' :: Image(y, seen, r)
    ensures RepeatedFormals(ApplyFormals(fs, r), seen') == 0
    decreases |fs|
  {
    if fs != [] {
      var x, y := fs[0].name, NameOf(r.decs, fs[0].id, fs[0].name);
      FormalFits(fs, l, r);
      NotSeen(fs[0].id, x, seen, seen', r);
      forall z | z in seen' + {y} ensures Image(z, seen + {x}, r) { if z in seen' { assert Image(z, seen, r); } }
      FormalsNoRepeats(fs[1..], seen + {x}, seen' + {y}, l, r);
    }
  }

  lemma {:induction false} RebindFormals(fs: seq<Formal>, n: Names, n': Names, b: Bound, l: Links, r: Renamed)
    requires FormalsLinked(fs, n, l) && Bindable(n, n', l, r, EventsFormals(fs))
    ensures ResolveFormals(ApplyFormals(fs, r), n', b) == ResolveFormals(fs, n, b)
    ensures Follows(PutFormals(fs, n), PutFormals(ApplyFormals(fs, r), n'), r)
    decreases |fs|
  {
    hide Follows;
    if fs != [] {
      var k, k' := PutVar(n, fs[0].name, fs[0].id), PutVar(n', NameOf(r.decs, fs[0].id, fs[0].name), fs[0].id);
      FormalFits(fs, l, r);
      FollowsVar(n, n', fs[0].name, fs[0].id, r);
      SameType(fs[0].typeName, k, k', b, l, r);
      RebindFormals(fs[1..], k, k', UseType(fs[0].typeName, k, b).(inVarDec := false), l, r);
    }
  }

  // ----- types -----

  lemma {:induction false} AddFirstAllTypes(ts: seq<TypeDec>, n: Names, seen: set<Symbol>)
    requires RepeatedTypes(ts, seen) == 0
    ensures AddFirstTypes(ts, n, seen) == PutAllTypes(ts, n)
    decreases |ts|
  {
    if ts != [] { AddFirstAllTypes(ts[1..], PutType(n, ts[0].name, ts[0].id), seen + {ts[0].name}); }
  }

  lemma TypeFits(ts: seq<TypeDec>, l: Links, r: Renamed)
    requires ts != [] && Fits(EventsTypes(ts), l, r)
    ensures ts[0].id in r.decs && NewFor(r.decs[ts[0].id], ts[0].name)
    ensures Fits(EventsTy(ts[0].ty), l, r) && Fits(EventsTypes(ts[1..]), l, r)
  {
    var v := Decl(ts[0].id, ts[0].name);
    FitsParts([v] + EventsTy(ts[0].ty), EventsTypes(ts[1..]), l, r);
    FitsParts([v], EventsTy(ts[0].ty), l, r);
    FitsOne(v, l, r);
  }

  lemma {:induction false} TypesNoRepeats(ts: seq<TypeDec>, seen: set<Symbol>, seen': set<Symbol>, l: Links, r: Renamed)
    requires RepeatedTypes(ts, seen) == 0 && Fits(EventsTypes(ts), l, r) && forall y | y in seen' :: Image(y, seen, r)
    ensures RepeatedTypes(ApplyTypes(ts, r), seen') == 0
    decreases |ts|
  {
    if ts != [] {
      var x, y := ts[0].name, NameOf(r.decs, ts[0].id, ts[0].name);
      TypeFits(ts, l, r);
      NotSeen(ts[0].id, x, seen, seen', r);
      forall z | z in seen' + {y} ensures Image(z, seen + {x}, r) { if z in seen' { assert Image(z, seen, r); } }
      TypesNoRepeats(ts[1..], seen + {x}, seen' + {y}, l, r);
    }
  }

  lemma TypeChunkBindable(ts: seq<TypeDec>, n: Names, n': Names, l: Links, r: Renamed)
    requires Bindable(n, n', l, r, [Again(RepeatedTypes(ts, {}))]) && Bindable(n, n', l, r, EventsTypes(ts))
    ensures RepeatedTypes(ts, {}) == 0 == RepeatedTypes(ApplyTypes(ts, r), {})
    ensures Bindable(AddFirstTypes(ts, n, {}), AddFirstTypes(ApplyTypes(ts, r), n', {}), l, r, EventsTypes(ts))
  {
    FitsOne(Again(RepeatedTypes(ts, {})), l, r);
    TypesNoRepeats(ts, {}, {}, l, r);
    AddFirstAllTypes(ts, n, {});
    AddFirstAllTypes(ApplyTypes(ts, r), n', {});
    AllTypesBindable(ts, n, n', l, r);
  }

  lemma {:induction false} AllTypesBindable(ts: seq<TypeDec>, n: Names, n': Names, l: Links, r: Renamed)
    requires Bindable(n, n', l, r, EventsTypes(ts))
    ensures Bindable(PutAllTypes(ts, n), PutAllTypes(ApplyTypes(ts, r), n'), l, r, EventsTypes(ts))
    decreases |ts|
  {
    if ts != [] {
      TypeFits(ts, l, r);
      FollowsType(n, n', ts[0].name, ts[0].id, r);
      AllTypesBindable(ts[1..], PutType(n, ts[0].name, ts[0].id), PutType(n', NameOf(r.decs, ts[0].id, ts[0].name), ts[0].id), l, r);
    }
  }

  lemma {:induction false} RebindFields(fs: seq<(Symbol, TypeName)>, n: Names, n': Names, b: Bound, l: Links, r: Renamed)
    requires FieldsLinked(fs, n, l) && Bindable(n, n', l, r, EventsFields(fs))
    ensures ResolveFields(ApplyFields(fs, r), n', b) == ResolveFields(fs, n, b)
    decreases |fs|
  {
    hide Follows;
    if fs != [] {
      BindableParts(n, n', l, r, TypeEv(fs[0].1), EventsFields(fs[1..]));
      SameType(fs[0].1, n, n', b, l, r);
      RebindFields(fs[1..], n, n', UseType(fs[0].1, n, b), l, r);
    }
  }

  lemma RebindTy(ty: Ty, n: Names, n': Names, b: Bound, l: Links, r: Renamed)
    requires TyLinked(ty, n, l) && Bindable(n, n', l, r, EventsTy(ty))
    ensures ResolveTy(ApplyTy(ty, r), n', b) == ResolveTy(ty, n, b)
  {
    hide Follows;
    match ty
    case NameTy(t) => SameType(t, n, n', b, l, r);
    case ArrayTy(t) => SameType(t, n, n', b, l, r);
    case RecordTy(fs) => RebindFields(fs, n, n', b, l, r);
  }

  lemma {:induction false} RebindTypes(ts: seq<TypeDec>, n: Names, n': Names, b: Bound, l: Links, r: Renamed)
    requires TypesLinked(ts, n, l) && Bindable(n, n', l, r, EventsTypes(ts))
    ensures ResolveTypes(ApplyTypes(ts, r), n', b) == ResolveTypes(ts, n, b)
    decreases |ts|
  {
    hide Follows;
    if ts != [] {
      var k, k' := PutType(n, ts[0].name, ts[0].id), PutType(n', NameOf(r.decs, ts[0].id, ts[0].name), ts[0].id);
      TypeFits(ts, l, r);
      FollowsType(n, n', ts[0].name, ts[0].id, r);
      RebindTy(ts[0].ty, k, k', b, l, r);
      RebindTypes(ts[1..], k, k', ResolveTy(ts[0].ty, k, b), l, r);
    }
  }

  // ----- the main result -----

  const START := Renamed(map[], map[], 0)
  const CLOSED := Names(map[], map[], map[], None)

  lemma KeepNotDecl(vs: seq<Ev>, v: Ev)
    requires NoDup(vs) && v in vs && v.Keep?
    ensures v.id !in DeclIds(vs)
  {
    if v == vs[0] { DeclInIds(vs[1..]); } else { assert vs == [vs[0]] + vs[1..]; KeepIn(vs[1..], v); KeepNotDecl(vs[1..], v); }
  }

  lemma DeclInIds(vs: seq<Ev>)
    ensures DeclIds(vs) <= Ids(vs)
  {}

  lemma KeepIn(vs: seq<Ev>, v: Ev)
    requires v in vs && !v.Again?
    ensures v.id in Ids(vs)
  {}

  /** A tree without errors: every name is bound and no chunk repeats one. */
  ghost predicate Clean(vs: seq<Ev>, l: Links) {
    forall v | v in vs :: (v.UseOf? && !v.builtin ==> v.id in l) && (v.Again? ==> v.n == 0)
  }

  /** Renaming a bound tree without errors and binding it again gives what binding gave before:
      the same links, the same counts, the same flags; provided that no use precedes the renaming
      of its definition and no function that keeps its name is called like a new one. */
  lemma RenameThenBind(e: Exp, b: Bound)
    requires Distinct(e) && b.links == map[]
    requires var l := Resolve(e, CLOSED, b).links; var r := Rename(e, l, START);
      && Clean(Events(e), l) && Backward(Events(e), l, {}, DeclIds(Events(e)))
      && forall v | v in Events(e) && v.Keep? :: v.name !in r.decs.Values
    ensures var l := Resolve(e, CLOSED, b).links; var r := Rename(e, l, START);
      Resolve(Apply(e, r), CLOSED, b) == Resolve(e, CLOSED, b)
  {
    hide Distinct, Backward, Resolve, Rename, Events, Linked, Unique, Declares, NamedAlike, NoDup, DeclIds;
    var l := Resolve(e, CLOSED, b).links;
    var r := Rename(e, l, START);
    ResolveLinks(e, CLOSED, b);
    FinalNames(e, l);
    UsesFollowDefinitions(e, l);
    AllFit(Events(e), l, r);
    Rebind(e, CLOSED, CLOSED, b, l, r);
  }

  lemma AllFit(vs: seq<Ev>, l: Links, r: Renamed)
    requires Unique(r) && r.uses.Keys <= l.Keys && Declares(vs, r) && Clean(vs, l) && forall v | v in vs :: Carries(v, l, r)
    requires forall v | v in vs && v.Keep? :: v.name !in r.decs.Values
    ensures Bindable(CLOSED, CLOSED, l, r, vs)
  {
    forall v | v in vs ensures Fit(v, l, r) { assert Carries(v, l, r); }
  }

  /** The final names of a bound tree are all different, and uses were written as their definitions. */
  lemma FinalNames(e: Exp, l: Links)
    requires Distinct(e) && Linked(e, CLOSED, l)
    ensures var r := Rename(e, l, START);
      && Unique(r) && Declares(Events(e), r) && NamedAlike(Events(e), l, r) && Rebinding.Fresh(Events(e), START)
      && r.decs.Keys == DeclIds(Events(e)) && r.uses.Keys <= l.Keys
  {
    var r, vs := Rename(e, l, START), Events(e);
    RenameFolds(e, l, START);
    EventsApart(e);
    assert Rebinding.Fresh(vs, START);
    FoldKeeps(vs, l, START);
    FoldUnique(vs, l, START);
    forall v | v in vs && v.Decl? ensures v.id in r.decs && NewFor(r.decs[v.id], v.name) { FoldNames(vs, l, START, v); }
    forall v | v in vs && v.Keep? ensures v.id !in r.decs { KeepNotDecl(vs, v); }
    LinkedAlike(e, CLOSED, l, r);
  }

  /** Exactly the trees without forward references come out with every use named as its definition. */
  lemma UsesFollowDefinitions(e: Exp, l: Links)
    requires Distinct(e) && Linked(e, CLOSED, l)
    ensures var r := Rename(e, l, START);
      (forall v | v in Events(e) :: Carries(v, l, r)) <==> Backward(Events(e), l, {}, DeclIds(Events(e)))
  {
    FinalNames(e, l);
    RenameFolds(e, l, START);
    assert START.decs.Keys == {};
    CarriedExactly(Events(e), l, START);
  }

  // ----- a forward reference -----

  /** `function f() = g()` and `function g() = ()`. */
  const CALLER := FunctionDec(Node(0), "f", [], None, SomeExp(CallExp(Node(1), "g", ENil)))
  const CALLEE := FunctionDec(Node(2), "g", [], None, SomeExp(SeqExp(ENil)))

  /** Both in one chunk, the caller first. */
  function CallsForward(): Exp { LetExp(With(FunctionChunk(DCons(CALLER, DCons(CALLEE, DNil))), In(SeqExp(ENil)))) }

  /** The call is written before its definition is renamed: it keeps the old name, which nothing
      has any more. */
  lemma ForwardCallKeepsOldName()
    ensures var l := map[Node(1) := Node(2)]; var r := Rename(CallsForward(), l, START);
      && Node(1) !in r.uses && Node(2) in r.decs && r.decs[Node(2)] != "g"
      && !Backward(Events(CallsForward()), l, {}, DeclIds(Events(CallsForward())))
  {
    ForwardRenamed();
    ForwardEvents();
    NewNameUnlike("g", 1);
    var l := map[Node(1) := Node(2)];
    var vs := [Again(0), Decl(Node(0), "f"), Again(0), UseOf(Node(1), "g", false), Decl(Node(2), "g"), Again(0)];
    assert Node(2) in DeclIds(vs) by { assert vs[4] == Decl(Node(2), "g"); DeclLater(vs, 4); }
    assert !Backward(vs[3..], l, {Node(0)}, DeclIds(vs)) by { assert vs[3..][0] == UseOf(Node(1), "g", false); }
    assert vs[1..][0] == Decl(Node(0), "f") && vs[1..][1..] == vs[2..] && vs[2..][0] == Again(0) && vs[2..][1..] == vs[3..];
  }

  lemma ForwardRenamed()
    ensures Rename(CallsForward(), map[Node(1) := Node(2)], START) == Declare(Node(2), "g", Declare(Node(0), "f", START))
  {
    var l := map[Node(1) := Node(2)];
    var r1 := Declare(Node(0), "f", START);
    assert RenameDec(CALLER, l, START) == r1 by { assert Rename(CALLER.body.exp, l, r1) == RenameAll(ENil, l, r1) == r1; }
    var r2 := Declare(Node(2), "g", r1);
    assert RenameDec(CALLEE, l, r1) == r2 by { assert Rename(CALLEE.body.exp, l, r2) == RenameAll(ENil, l, r2) == r2; }
    assert RenameDecs(DCons(CALLEE, DNil), l, r1) == RenameDecs(DNil, l, r2) == r2;
    assert RenameScope(In(SeqExp(ENil)), l, r2) == Rename(SeqExp(ENil), l, r2) == RenameAll(ENil, l, r2) == r2;
  }

  lemma ForwardEvents()
    ensures Events(CallsForward())
         == [Again(0), Decl(Node(0), "f"), Again(0), UseOf(Node(1), "g", false), Decl(Node(2), "g"), Again(0)]
  {
    var ds := DCons(CALLER, DCons(CALLEE, DNil));
    assert Repeats(ds, {}) == Repeats(DCons(CALLEE, DNil), {"f"}) == Repeats(DNil, {"f"} + {"g"}) == 0;
    assert EventsDec(CALLER) == [Decl(Node(0), "f"), Again(0), UseOf(Node(1), "g", false)] by {
      assert Events(CALLER.body.exp) == [UseOf(Node(1), "g", false)] + EventsAll(ENil);
    }
    assert EventsDec(CALLEE) == [Decl(Node(2), "g"), Again(0)] by { assert Events(CALLEE.body.exp) == EventsAll(ENil) == []; }
    assert EventsDecs(DCons(CALLEE, DNil)) == EventsDec(CALLEE) + EventsDecs(DNil) == EventsDec(CALLEE);
    assert EventsScope(In(SeqExp(ENil))) == Events(SeqExp(ENil)) == EventsAll(ENil) == [];
    assert EventsDecs(ds) == EventsDec(CALLER) + EventsDecs(DCons(CALLEE, DNil));
  }

  lemma DeclLater(vs: seq<Ev>, i: nat)
    requires i < |vs| && vs[i].Decl?
    ensures vs[i].id in DeclIds(vs)
  {
    if i > 0 { assert vs[1..][i - 1] == vs[i]; DeclLater(vs[1..], i - 1); }
  }
}
