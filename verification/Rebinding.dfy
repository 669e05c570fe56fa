/** Renaming and then binding again is the identity on bindings, for trees in which no use comes
    before the renaming of its definition. */
module Rebinding {
  import opened Options
  import opened Ast
  import opened Nodes
  import opened Binder
  import opened Binding
  import opened Renaming

  /** What the renamer meets, in order: declarations it renames, functions it does not, uses.  A
      chunk also tells how many names it repeats. */
  datatype Ev =
    | Decl(id: Id, name: Symbol)
    | Keep(id: Id, name: Symbol)
    | UseOf(id: Id, name: Symbol, builtin: bool)
    | Again(n: nat)

  function TypeEv(t: TypeName): seq<Ev> { [UseOf(t.id, t.name, Builtin(t.name))] }
  function NameEv(t: Option<TypeName>): seq<Ev> { if t.Some? then TypeEv(t.value) else [] }

  function Events(e: Exp): seq<Ev> {
    match e
    case IntExp(_) => []
    case VarExp(id, x) => [UseOf(id, x, false)]
    case OpExp(a, _, b) => Events(a) + Events(b)
    case SeqExp(es) => EventsAll(es)
    case AssignExp(id, x, v) => [UseOf(id, x, false)] + Events(v)
    case IfExp(c, t, f) => Events(c) + Events(t) + if f.SomeExp? then Events(f.exp) else []
    case WhileExp(_, c, b) => Events(c) + Events(b)
    case ForExp(_, d, hi, b) => EventsVarDec(d) + Events(hi) + Events(b)
    case BreakExp(_) => []
    case CallExp(id, f, args) => [UseOf(id, f, false)] + EventsAll(args)
    case LetExp(sc) => EventsScope(sc)
  }

  function EventsAll(es: Exps): seq<Ev> { if es.ENil? then [] else Events(es.head) + EventsAll(es.tail) }

  function EventsVarDec(d: VarDec): seq<Ev> { [Decl(d.id, d.name)] + NameEv(d.typeName) + Events(d.init) }

  function EventsScope(sc: Scope): seq<Ev> {
    match sc
    case In(b) => Events(b)
    case With(VarChunk(d), rest) => EventsVarDec(d) + EventsScope(rest)
    case With(FunctionChunk(ds), rest) => [Again(Repeats(ds, {}))] + EventsDecs(ds) + EventsScope(rest)
    case With(TypeChunk(ts), rest) => [Again(RepeatedTypes(ts, {}))] + EventsTypes(ts) + EventsScope(rest)
  }

  function EventsFormals(fs: seq<Formal>): seq<Ev> {
    if fs == [] then [] else [Decl(fs[0].id, fs[0].name)] + TypeEv(fs[0].typeName) + EventsFormals(fs[1..])
  }

  function EventsDec(d: FunctionDec): seq<Ev> {
    [if Kept(d) then Keep(d.id, d.name) else Decl(d.id, d.name)] + [Again(RepeatedFormals(d.formals, {}))] + EventsFormals(d.formals)
    + NameEv(d.result) + if d.body.SomeExp? then Events(d.body.exp) else []
  }

  function EventsDecs(ds: Decs): seq<Ev> { if ds.DNil? then [] else EventsDec(ds.head) + EventsDecs(ds.tail) }

  function EventsFields(fs: seq<(Symbol, TypeName)>): seq<Ev> {
    if fs == [] then [] else TypeEv(fs[0].1) + EventsFields(fs[1..])
  }

  function EventsTy(ty: Ty): seq<Ev> {
    match ty
    case NameTy(t) => TypeEv(t)
    case RecordTy(fs) => EventsFields(fs)
    case ArrayTy(t) => TypeEv(t)
  }

  function EventsTypes(ts: seq<TypeDec>): seq<Ev> {
    if ts == [] then [] else [Decl(ts[0].id, ts[0].name)] + EventsTy(ts[0].ty) + EventsTypes(ts[1..])
  }

  // ----- the renamer folds over the events -----

  function Apply1(v: Ev, l: Links, r: Renamed): Renamed {
    match v
    case Decl(id, x) => Declare(id, x, r)
    case UseOf(id, _, _) => Use(id, l, r)
    case Keep(_, _) => r
    case Again(_) => r
  }

  function Fold(vs: seq<Ev>, l: Links, r: Renamed): Renamed {
    if vs == [] then r else Fold(vs[1..], l, Apply1(vs[0], l, r))
  }

  lemma {:induction false} FoldCat(a: seq<Ev>, b: seq<Ev>, l: Links, r: Renamed)
    ensures Fold(a + b, l, r) == Fold(b, l, Fold(a, l, r))
    decreases |a|
  {
    if a == [] {
      assert a + b == b;
    } else {
      assert (a + b)[1..] == a[1..] + b;
      FoldCat(a[1..], b, l, Apply1(a[0], l, r));
    }
  }

  lemma FoldOne(v: Ev, b: seq<Ev>, l: Links, r: Renamed)
    ensures Fold([v] + b, l, r) == Fold(b, l, Apply1(v, l, r))
  {
    assert ([v] + b)[1..] == b;
  }

  lemma FoldName(t: Option<TypeName>, l: Links, r: Renamed)
    ensures Fold(NameEv(t), l, r) == RenameName(t, l, r)
  {
    if t.Some? { FoldOne(TypeEv(t.value)[0], [], l, r); }
  }

  lemma {:induction false} RenameFolds(e: Exp, l: Links, r: Renamed)
    ensures Rename(e, l, r) == Fold(Events(e), l, r)
    decreases e
  {
    match e
    case IntExp(_) =>
    case BreakExp(_) =>
    case VarExp(id, x) => FoldOne(UseOf(id, x, false), [], l, r);
    case OpExp(a, _, b) =>
      RenameFolds(a, l, r);
      RenameFolds(b, l, Rename(a, l, r));
      FoldCat(Events(a), Events(b), l, r);
    case SeqExp(es) => RenameAllFolds(es, l, r);
    case AssignExp(id, x, v) =>
      FoldOne(UseOf(id, x, false), Events(v), l, r);
      RenameFolds(v, l, Use(id, l, r));
    case IfExp(c, t, f) =>
      RenameFolds(c, l, r);
      RenameFolds(t, l, Rename(c, l, r));
      FoldCat(Events(c), Events(t), l, r);
      if f.SomeExp? { RenameFolds(f.exp, l, Rename(t, l, Rename(c, l, r))); }
      FoldCat(Events(c) + Events(t), if f.SomeExp? then Events(f.exp) else [], l, r);
    case WhileExp(_, c, b) =>
      RenameFolds(c, l, r);
      RenameFolds(b, l, Rename(c, l, r));
      FoldCat(Events(c), Events(b), l, r);
    case ForExp(_, d, hi, b) =>
      var r1 := RenameVarDec(d, l, r);
      RenameVarDecFolds(d, l, r);
      RenameFolds(hi, l, r1);
      RenameFolds(b, l, Rename(hi, l, r1));
      FoldCat(EventsVarDec(d), Events(hi), l, r);
      FoldCat(EventsVarDec(d) + Events(hi), Events(b), l, r);
    case CallExp(id, f, args) =>
      FoldOne(UseOf(id, f, false), EventsAll(args), l, r);
      RenameAllFolds(args, l, Use(id, l, r));
    case LetExp(sc) => RenameScopeFolds(sc, l, r);
  }

  lemma {:induction false} RenameAllFolds(es: Exps, l: Links, r: Renamed)
    ensures RenameAll(es, l, r) == Fold(EventsAll(es), l, r)
    decreases es
  {
    if es.ECons? {
      RenameFolds(es.head, l, r);
      RenameAllFolds(es.tail, l, Rename(es.head, l, r));
      FoldCat(Events(es.head), EventsAll(es.tail), l, r);
    }
  }

  lemma {:induction false} RenameVarDecFolds(d: VarDec, l: Links, r: Renamed)
    ensures RenameVarDec(d, l, r) == Fold(EventsVarDec(d), l, r)
    decreases d
  {
    var r1 := Declare(d.id, d.name, r);
    FoldOne(Decl(d.id, d.name), NameEv(d.typeName), l, r);
    FoldName(d.typeName, l, r1);
    RenameFolds(d.init, l, RenameName(d.typeName, l, r1));
    FoldCat([Decl(d.id, d.name)] + NameEv(d.typeName), Events(d.init), l, r);
  }

  lemma {:induction false} RenameScopeFolds(sc: Scope, l: Links, r: Renamed)
    ensures RenameScope(sc, l, r) == Fold(EventsScope(sc), l, r)
    decreases sc
  {
    match sc
    case In(b) => RenameFolds(b, l, r);
    case With(VarChunk(d), rest) =>
      RenameVarDecFolds(d, l, r);
      RenameScopeFolds(rest, l, RenameVarDec(d, l, r));
      FoldCat(EventsVarDec(d), EventsScope(rest), l, r);
    case With(FunctionChunk(ds), rest) =>
      RenameDecsFolds(ds, l, r);
      RenameScopeFolds(rest, l, RenameDecs(ds, l, r));
      FoldOne(Again(Repeats(ds, {})), EventsDecs(ds), l, r);
      FoldCat([Again(Repeats(ds, {}))] + EventsDecs(ds), EventsScope(rest), l, r);
    case With(TypeChunk(ts), rest) =>
      RenameTypesFolds(ts, l, r);
      RenameScopeFolds(rest, l, RenameTypes(ts, l, r));
      FoldOne(Again(RepeatedTypes(ts, {})), EventsTypes(ts), l, r);
      FoldCat([Again(RepeatedTypes(ts, {}))] + EventsTypes(ts), EventsScope(rest), l, r);
  }

  lemma {:induction false} RenameFormalsFolds(fs: seq<Formal>, l: Links, r: Renamed)
    ensures RenameFormals(fs, l, r) == Fold(EventsFormals(fs), l, r)
    decreases |fs|
  {
    if fs != [] {
      var d, t := Decl(fs[0].id, fs[0].name), fs[0].typeName;
      FoldOne(d, TypeEv(t), l, r);
      FoldOne(TypeEv(t)[0], [], l, Apply1(d, l, r));
      FoldCat([d] + TypeEv(t), EventsFormals(fs[1..]), l, r);
      RenameFormalsFolds(fs[1..], l, Use(t.id, l, Apply1(d, l, r)));
    }
  }

  lemma {:induction false} RenameDecFolds(d: FunctionDec, l: Links, r: Renamed)
    ensures RenameDec(d, l, r) == Fold(EventsDec(d), l, r)
    decreases d
  {
    var own, again := [if Kept(d) then Keep(d.id, d.name) else Decl(d.id, d.name)], [Again(RepeatedFormals(d.formals, {}))];
    var fs, res, body := EventsFormals(d.formals), NameEv(d.result), if d.body.SomeExp? then Events(d.body.exp) else [];
    var r1 := if Kept(d) then r else Declare(d.id, d.name, r);
    var r2 := RenameFormals(d.formals, l, r1);
    FoldOne(own[0], [], l, r);
    assert own + [] == own;
    FoldOne(again[0], [], l, r1);
    assert again + [] == again;
    FoldCat(own, again, l, r);
    RenameFormalsFolds(d.formals, l, r1);
    FoldCat(own + again, fs, l, r);
    FoldName(d.result, l, r2);
    FoldCat(own + again + fs, res, l, r);
    FoldCat(own + again + fs + res, body, l, r);
    if d.body.SomeExp? { RenameFolds(d.body.exp, l, RenameName(d.result, l, r2)); }
  }

  lemma {:induction false} RenameDecsFolds(ds: Decs, l: Links, r: Renamed)
    ensures RenameDecs(ds, l, r) == Fold(EventsDecs(ds), l, r)
    decreases ds
  {
    if ds.DCons? {
      RenameDecFolds(ds.head, l, r);
      RenameDecsFolds(ds.tail, l, RenameDec(ds.head, l, r));
      FoldCat(EventsDec(ds.head), EventsDecs(ds.tail), l, r);
    }
  }

  lemma {:induction false} RenameFieldsFolds(fs: seq<(Symbol, TypeName)>, l: Links, r: Renamed)
    ensures RenameFields(fs, l, r) == Fold(EventsFields(fs), l, r)
    decreases |fs|
  {
    if fs != [] {
      FoldOne(TypeEv(fs[0].1)[0], EventsFields(fs[1..]), l, r);
      RenameFieldsFolds(fs[1..], l, Use(fs[0].1.id, l, r));
    }
  }

  lemma RenameTyFolds(ty: Ty, l: Links, r: Renamed)
    ensures RenameTy(ty, l, r) == Fold(EventsTy(ty), l, r)
  {
    match ty
    case NameTy(t) => FoldOne(TypeEv(t)[0], [], l, r);
    case RecordTy(fs) => RenameFieldsFolds(fs, l, r);
    case ArrayTy(t) => FoldOne(TypeEv(t)[0], [], l, r);
  }

  lemma {:induction false} RenameTypesFolds(ts: seq<TypeDec>, l: Links, r: Renamed)
    ensures RenameTypes(ts, l, r) == Fold(EventsTypes(ts), l, r)
    decreases |ts|
  {
    if ts != [] {
      var d := Decl(ts[0].id, ts[0].name);
      RenameTyFolds(ts[0].ty, l, Apply1(d, l, r));
      FoldOne(d, EventsTy(ts[0].ty), l, r);
      FoldCat([d] + EventsTy(ts[0].ty), EventsTypes(ts[1..]), l, r);
      RenameTypesFolds(ts[1..], l, RenameTy(ts[0].ty, l, Apply1(d, l, r)));
    }
  }

  // ----- distinct nodes give distinct events -----

  function Ids(vs: seq<Ev>): set<Id> {
    if vs == [] then {} else (if vs[0].Again? then {} else {vs[0].id}) + Ids(vs[1..])
  }

  predicate NoDup(vs: seq<Ev>) {
    vs != [] ==> (vs[0].Again? || vs[0].id !in Ids(vs[1..])) && NoDup(vs[1..])
  }

  lemma {:induction false} NoDupCat(a: seq<Ev>, b: seq<Ev>)
    ensures Ids(a + b) == Ids(a) + Ids(b)
    ensures NoDup(a) && NoDup(b) && Ids(a) !! Ids(b) ==> NoDup(a + b)
    decreases |a|
  {
    if a == [] {
      assert a + b == b;
    } else {
      assert (a + b)[1..] == a[1..] + b;
      NoDupCat(a[1..], b);
    }
  }

  lemma OneEvent(v: Ev)
    ensures Ids([v]) == (if v.Again? then {} else {v.id}) && NoDup([v])
  {
    assert Ids([v][1..]) == {};
  }

  ghost predicate Apart(vs: seq<Ev>, ids: set<Id>) { NoDup(vs) && Ids(vs) <= ids }

  lemma ApartCat(a: seq<Ev>, b: seq<Ev>, ids: set<Id>, ids': set<Id>)
    requires Apart(a, ids) && Apart(b, ids') && ids !! ids'
    ensures Apart(a + b, ids + ids')
  {
    NoDupCat(a, b);
  }

  lemma ApartOne(v: Ev, ids: set<Id>)
    requires v.Again? || v.id in ids
    ensures Apart([v], ids)
  {
    OneEvent(v);
  }

  lemma ApartName(t: Option<TypeName>)
    ensures Apart(NameEv(t), OfName(t))
  {
    if t.Some? { OneEvent(TypeEv(t.value)[0]); }
  }

  lemma {:induction false} EventsApart(e: Exp)
    requires Distinct(e)
    ensures Apart(Events(e), OfExp(e))
    decreases e
  {
    hide Apart;
    NothingApart();
    match e
    case IntExp(_) =>
    case BreakExp(_) => ApartMore([], {}, OfExp(e));
    case VarExp(id, x) => ApartOne(UseOf(id, x, false), {id});
    case OpExp(a, _, b) => EventsApart(a); EventsApart(b); ApartCat(Events(a), Events(b), OfExp(a), OfExp(b));
    case SeqExp(es) => EventsAllApart(es);
    case AssignExp(id, x, v) =>
      ApartOne(UseOf(id, x, false), {id});
      EventsApart(v);
      ApartCat([UseOf(id, x, false)], Events(v), {id}, OfExp(v));
    case IfExp(c, t, f) =>
      EventsApart(c);
      EventsApart(t);
      ApartCat(Events(c), Events(t), OfExp(c), OfExp(t));
      if f.SomeExp? { EventsApart(f.exp); }
      ApartCat(Events(c) + Events(t), if f.SomeExp? then Events(f.exp) else [], OfExp(c) + OfExp(t), if f.SomeExp? then OfExp(f.exp) else {});
    case WhileExp(id, c, b) =>
      EventsApart(c);
      EventsApart(b);
      ApartCat(Events(c), Events(b), OfExp(c), OfExp(b));
      ApartMore(Events(e), OfExp(c) + OfExp(b), OfExp(e));
    case ForExp(id, d, hi, b) =>
      EventsVarDecApart(d);
      EventsApart(hi);
      EventsApart(b);
      ApartCat(EventsVarDec(d), Events(hi), OfVarDec(d), OfExp(hi));
      ApartCat(EventsVarDec(d) + Events(hi), Events(b), OfVarDec(d) + OfExp(hi), OfExp(b));
      ApartMore(Events(e), OfVarDec(d) + OfExp(hi) + OfExp(b), OfExp(e));
    case CallExp(id, f, args) =>
      ApartOne(UseOf(id, f, false), {id});
      EventsAllApart(args);
      ApartCat([UseOf(id, f, false)], EventsAll(args), {id}, OfExps(args));
    case LetExp(sc) => EventsScopeApart(sc);
  }

  lemma NothingApart()
    ensures Apart([], {})
  {}

  lemma ApartMore(vs: seq<Ev>, ids: set<Id>, ids': set<Id>)
    requires Apart(vs, ids) && ids <= ids'
    ensures Apart(vs, ids')
  {}

  lemma {:induction false} EventsAllApart(es: Exps)
    requires DistinctExps(es)
    ensures Apart(EventsAll(es), OfExps(es))
    decreases es
  {
    hide Apart;
    NothingApart();
    if es.ECons? {
      EventsApart(es.head);
      EventsAllApart(es.tail);
      ApartCat(Events(es.head), EventsAll(es.tail), OfExp(es.head), OfExps(es.tail));
    }
  }

  lemma {:induction false} EventsVarDecApart(d: VarDec)
    requires DistinctVarDec(d)
    ensures Apart(EventsVarDec(d), OfVarDec(d))
    decreases d
  {
    hide Apart;
    ApartOne(Decl(d.id, d.name), {d.id});
    ApartName(d.typeName);
    EventsApart(d.init);
    ApartCat([Decl(d.id, d.name)], NameEv(d.typeName), {d.id}, OfName(d.typeName));
    ApartCat([Decl(d.id, d.name)] + NameEv(d.typeName), Events(d.init), {d.id} + OfName(d.typeName), OfExp(d.init));
  }

  lemma {:induction false} EventsScopeApart(sc: Scope)
    requires DistinctScope(sc)
    ensures Apart(EventsScope(sc), OfScope(sc))
    decreases sc
  {
    hide Apart;
    match sc
    case In(b) => EventsApart(b);
    case With(VarChunk(d), rest) =>
      EventsVarDecApart(d);
      EventsScopeApart(rest);
      ApartCat(EventsVarDec(d), EventsScope(rest), OfVarDec(d), OfScope(rest));
    case With(FunctionChunk(ds), rest) =>
      var v := Again(Repeats(ds, {}));
      ApartOne(v, {});
      EventsDecsApart(ds);
      EventsScopeApart(rest);
      ApartCat([v], EventsDecs(ds), {}, OfDecs(ds));
      ApartCat([v] + EventsDecs(ds), EventsScope(rest), {} + OfDecs(ds), OfScope(rest));
      assert {} + OfDecs(ds) + OfScope(rest) == OfScope(sc);
    case With(TypeChunk(ts), rest) =>
      var v := Again(RepeatedTypes(ts, {}));
      ApartOne(v, {});
      EventsTypesApart(ts);
      EventsScopeApart(rest);
      ApartCat([v], EventsTypes(ts), {}, OfTypes(ts));
      ApartCat([v] + EventsTypes(ts), EventsScope(rest), {} + OfTypes(ts), OfScope(rest));
      assert {} + OfTypes(ts) + OfScope(rest) == OfScope(sc);
  }

  lemma {:induction false} EventsFormalsApart(fs: seq<Formal>)
    requires DistinctFormals(fs)
    ensures Apart(EventsFormals(fs), OfFormals(fs))
    decreases |fs|
  {
    hide Apart;
    NothingApart();
    if fs != [] {
      var d, t := Decl(fs[0].id, fs[0].name), fs[0].typeName;
      ApartOne(d, {d.id});
      ApartOne(TypeEv(t)[0], {t.id});
      EventsFormalsApart(fs[1..]);
      ApartCat([d], TypeEv(t), {d.id}, {t.id});
      ApartCat([d] + TypeEv(t), EventsFormals(fs[1..]), {d.id} + {t.id}, OfFormals(fs[1..]));
      assert {d.id} + {t.id} + OfFormals(fs[1..]) == OfFormals(fs);
    }
  }

  lemma {:induction false} EventsDecApart(d: FunctionDec)
    requires DistinctDec(d)
    ensures Apart(EventsDec(d), OfDec(d))
    decreases d
  {
    hide Apart;
    NothingApart();
    var own, again := [if Kept(d) then Keep(d.id, d.name) else Decl(d.id, d.name)], [Again(RepeatedFormals(d.formals, {}))];
    var fs, res, body := EventsFormals(d.formals), NameEv(d.result), if d.body.SomeExp? then Events(d.body.exp) else [];
    var ids := if d.body.SomeExp? then OfExp(d.body.exp) else {};
    ApartOne(own[0], {d.id});
    ApartOne(again[0], {});
    EventsFormalsApart(d.formals);
    ApartName(d.result);
    if d.body.SomeExp? { EventsApart(d.body.exp); }
    ApartCat(own, again, {d.id}, {});
    ApartCat(own + again, fs, {d.id} + {}, OfFormals(d.formals));
    ApartCat(own + again + fs, res, {d.id} + {} + OfFormals(d.formals), OfName(d.result));
    ApartCat(own + again + fs + res, body, {d.id} + {} + OfFormals(d.formals) + OfName(d.result), ids);
    assert {d.id} + {} + OfFormals(d.formals) + OfName(d.result) + ids == OfDec(d);
  }

  lemma {:induction false} EventsDecsApart(ds: Decs)
    requires DistinctDecs(ds)
    ensures Apart(EventsDecs(ds), OfDecs(ds))
    decreases ds
  {
    hide Apart;
    NothingApart();
    if ds.DCons? {
      EventsDecApart(ds.head);
      EventsDecsApart(ds.tail);
      ApartCat(EventsDec(ds.head), EventsDecs(ds.tail), OfDec(ds.head), OfDecs(ds.tail));
    }
  }

  lemma {:induction false} EventsFieldsApart(fs: seq<(Symbol, TypeName)>)
    requires DistinctFields(fs)
    ensures Apart(EventsFields(fs), OfFields(fs))
    decreases |fs|
  {
    hide Apart;
    NothingApart();
    if fs != [] {
      ApartOne(TypeEv(fs[0].1)[0], {fs[0].1.id});
      EventsFieldsApart(fs[1..]);
      ApartCat(TypeEv(fs[0].1), EventsFields(fs[1..]), {fs[0].1.id}, OfFields(fs[1..]));
    }
  }

  lemma {:induction false} EventsTypesApart(ts: seq<TypeDec>)
    requires DistinctTypes(ts)
    ensures Apart(EventsTypes(ts), OfTypes(ts))
    decreases |ts|
  {
    hide Apart;
    NothingApart();
    if ts != [] {
      var d, ty := Decl(ts[0].id, ts[0].name), ts[0].ty;
      ApartOne(d, {d.id});
      match ty {
        case NameTy(t) => ApartOne(TypeEv(t)[0], {t.id});
        case ArrayTy(t) => ApartOne(TypeEv(t)[0], {t.id});
        case RecordTy(fs) => EventsFieldsApart(fs);
      }
      EventsTypesApart(ts[1..]);
      ApartCat([d], EventsTy(ty), {d.id}, OfTy(ty));
      ApartCat([d] + EventsTy(ty), EventsTypes(ts[1..]), {d.id} + OfTy(ty), OfTypes(ts[1..]));
      assert {d.id} + OfTy(ty) + OfTypes(ts[1..]) == OfTypes(ts);
    }
  }

  // ----- what the final names are -----

  function DeclIds(vs: seq<Ev>): set<Id> { if vs == [] then {} else (if vs[0].Decl? then {vs[0].id} else {}) + DeclIds(vs[1..]) }

  ghost predicate NewFor(s: Symbol, x: Symbol) { exists k :: s == NewName(x, k) }

  ghost predicate Fresh(vs: seq<Ev>, r: Renamed) { NoDup(vs) && Ids(vs) !! r.decs.Keys + r.uses.Keys }

  lemma Fresh1(vs: seq<Ev>, l: Links, r: Renamed)
    requires vs != [] && Fresh(vs, r)
    ensures Fresh(vs[1..], Apply1(vs[0], l, r))
  {}

  /** Nothing is written twice. */
  lemma FoldKeeps(vs: seq<Ev>, l: Links, r: Renamed)
    requires Fresh(vs, r)
    ensures var o := Fold(vs, l, r);
      && (forall d | d in r.decs :: Find(o.decs, d) == Some(r.decs[d])) && (forall u | u in r.uses :: Find(o.uses, u) == Some(r.uses[u]))
      && o.decs.Keys == r.decs.Keys + DeclIds(vs) && o.uses.Keys <= r.uses.Keys + Ids(vs)
      && (r.uses.Keys <= l.Keys ==> o.uses.Keys <= l.Keys)
  {
    FoldKeepsDecs(vs, l, r);
    FoldKeepsUses(vs, l, r);
  }

  lemma {:induction false} FoldKeepsDecs(vs: seq<Ev>, l: Links, r: Renamed)
    requires Fresh(vs, r)
    ensures var o := Fold(vs, l, r);
      (forall d | d in r.decs :: Find(o.decs, d) == Some(r.decs[d])) && o.decs.Keys == r.decs.Keys + DeclIds(vs)
    decreases |vs|
  {
    if vs != [] {
      Fresh1(vs, l, r);
      FoldKeepsDecs(vs[1..], l, Apply1(vs[0], l, r));
    }
  }

  lemma {:induction false} FoldKeepsUses(vs: seq<Ev>, l: Links, r: Renamed)
    requires Fresh(vs, r)
    ensures var o := Fold(vs, l, r);
      && (forall u | u in r.uses :: Find(o.uses, u) == Some(r.uses[u])) && o.uses.Keys <= r.uses.Keys + Ids(vs)
      && (r.uses.Keys <= l.Keys ==> o.uses.Keys <= l.Keys)
    decreases |vs|
  {
    if vs != [] {
      Fresh1(vs, l, r);
      FoldKeepsUses(vs[1..], l, Apply1(vs[0], l, r));
    }
  }

  lemma {:induction false} FoldUnique(vs: seq<Ev>, l: Links, r: Renamed)
    requires Fresh(vs, r) && Unique(r)
    ensures Unique(Fold(vs, l, r))
    decreases |vs|
  {
    if vs != [] {
      Fresh1(vs, l, r);
      if vs[0].Decl? { DeclareUnique(vs[0].id, vs[0].name, r); }
      FoldUnique(vs[1..], l, Apply1(vs[0], l, r));
    }
  }

  /** Every declaration met is named after its old name. */
  lemma {:induction false} FoldNames(vs: seq<Ev>, l: Links, r: Renamed, v: Ev)
    requires Fresh(vs, r) && v in vs && v.Decl?
    ensures var o := Fold(vs, l, r); v.id in o.decs && NewFor(o.decs[v.id], v.name)
    decreases |vs|
  {
    var r1 := Apply1(vs[0], l, r);
    Fresh1(vs, l, r);
    if v == vs[0] {
      FoldKeeps(vs[1..], l, r1);
      assert r1.decs[v.id] == NewName(v.name, r.next);
    } else {
      assert vs == [vs[0]] + vs[1..];
      FoldNames(vs[1..], l, r1, v);
    }
  }

  // ----- which uses carry the final name of their definition -----

  ghost predicate Carries(v: Ev, l: Links, r: Renamed) {
    v.UseOf? && v.id in l ==> NameOf(r.uses, v.id, v.name) == NameOf(r.decs, l[v.id], v.name)
  }

  /** No use comes before its definition is renamed. */
  predicate Backward(vs: seq<Ev>, l: Links, seen: set<Id>, all: set<Id>) {
    vs != [] ==>
      && (vs[0].UseOf? && vs[0].id in l && l[vs[0].id] in all ==> l[vs[0].id] in seen)
      && Backward(vs[1..], l, if vs[0].Decl? then seen + {vs[0].id} else seen, all)
  }

  /** A use is written with the name of its definition. */
  ghost predicate NamedAlike(vs: seq<Ev>, l: Links, r: Renamed) {
    forall v | v in vs && v.UseOf? && v.id in l && l[v.id] in r.decs :: NewFor(r.decs[l[v.id]], v.name)
  }

  /** Exactly the uses that come after the renaming of their definition carry its new name. */
  lemma {:induction false} CarriedExactly(vs: seq<Ev>, l: Links, r: Renamed)
    requires Fresh(vs, r) && NamedAlike(vs, l, Fold(vs, l, r))
    ensures var o := Fold(vs, l, r);
      (forall v | v in vs :: Carries(v, l, o)) <==> Backward(vs, l, r.decs.Keys, o.decs.Keys)
    decreases |vs|
  {
    if vs != [] {
      var o, r1, rest := Fold(vs, l, r), Apply1(vs[0], l, r), vs[1..];
      Fresh1(vs, l, r);
      FoldKeeps(rest, l, r1);
      assert vs == [vs[0]] + rest;
      assert forall v :: v in vs <==> v == vs[0] || v in rest;
      CarriedExactly(rest, l, r1);
      CarriedHere(vs[0], rest, l, r, o);
      assert r1.decs.Keys == if vs[0].Decl? then r.decs.Keys + {vs[0].id} else r.decs.Keys;
    }
  }

  lemma CarriedHere(v: Ev, rest: seq<Ev>, l: Links, r: Renamed, o: Renamed)
    requires Fresh([v] + rest, r) && o == Fold(rest, l, Apply1(v, l, r))
    requires v.UseOf? && v.id in l && l[v.id] in o.decs ==> NewFor(o.decs[l[v.id]], v.name)
    ensures Carries(v, l, o) <==> (v.UseOf? && v.id in l && l[v.id] in o.decs ==> l[v.id] in r.decs)
  {
    var r1 := Apply1(v, l, r);
    assert ([v] + rest)[1..] == rest;
    Fresh1([v] + rest, l, r);
    FoldKeeps(rest, l, r1);
    if v.UseOf? && v.id in l && l[v.id] in o.decs {
      if l[v.id] in r.decs {
        assert r1.uses[v.id] == r.decs[l[v.id]];
      } else {
        var k :| o.decs[l[v.id]] == NewName(v.name, k);
        NewNameUnlike(v.name, k);
        assert v.id !in o.uses;
      }
    }
  }
}
