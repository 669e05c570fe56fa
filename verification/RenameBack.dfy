/** Renaming changes names and nothing else: writing the old names again gives back the tree. */
module RenameBack {
  import opened Options
  import opened Ast
  import opened Nodes
  import opened Binder
  import opened Renaming
  import opened Rebinding

  predicate Written(v: Ev, o: Renamed) {
    match v
    case Decl(id, x) => Find(o.decs, id) == Some(x)
    case Keep(id, x) => Find(o.decs, id) == Some(x)
    case UseOf(id, x, _) => Find(o.uses, id) == Some(x)
    case Again(_) => true
  }

  /** The names written in o are those of the events vs. */
  predicate Holds(vs: seq<Ev>, o: Renamed) { forall v | v in vs :: Written(v, o) }

  /** All the names in vs. */
  function NamesOf(vs: seq<Ev>): Renamed {
    if vs == [] then Renamed(map[], map[], 0)
    else
      var o := NamesOf(vs[1..]);
      match vs[0]
      case Decl(id, x) => o.(decs := o.decs[id := x])
      case Keep(id, x) => o.(decs := o.decs[id := x])
      case UseOf(id, x, _) => o.(uses := o.uses[id := x])
      case Again(_) => o
  }

  lemma {:induction false} NamesHold(vs: seq<Ev>)
    requires NoDup(vs)
    ensures Holds(vs, NamesOf(vs))
    decreases |vs|
  {
    if vs != [] {
      NamesHold(vs[1..]);
      var o, o' := NamesOf(vs[1..]), NamesOf(vs);
      forall v | v in vs ensures Written(v, o') {
        if v in vs[1..] {
          IdIn(vs[1..], v);
          assert Written(v, o);
        }
      }
    }
  }

  lemma {:induction false} IdIn(vs: seq<Ev>, v: Ev)
    requires v in vs
    ensures v.Again? || v.id in Ids(vs)
    decreases |vs|
  {
    if vs[0] != v { IdIn(vs[1..], v); }
  }

  lemma HoldsParts(a: seq<Ev>, b: seq<Ev>, o: Renamed)
    requires Holds(a + b, o)
    ensures Holds(a, o) && Holds(b, o)
  {
    forall v | v in a ensures v in a + b {}
    forall v | v in b ensures v in a + b {}
  }

  lemma HoldsOne(v: Ev, o: Renamed)
    requires Holds([v], o) && !v.Again?
    ensures if v.UseOf? then Find(o.uses, v.id) == Some(v.name) else Find(o.decs, v.id) == Some(v.name)
  {
    assert v in [v];
  }

  lemma TypeBack(t: TypeName, r: Renamed, o: Renamed)
    requires Holds(TypeEv(t), o)
    ensures ApplyType(ApplyType(t, r), o) == t
  {
    HoldsOne(TypeEv(t)[0], o);
  }

  lemma NameBack(t: Option<TypeName>, r: Renamed, o: Renamed)
    requires Holds(NameEv(t), o)
    ensures ApplyName(ApplyName(t, r), o) == t
  {
    if t.Some? { TypeBack(t.value, r, o); }
  }

  lemma {:induction false} ApplyBack(e: Exp, r: Renamed, o: Renamed)
    requires Holds(Events(e), o)
    ensures Apply(Apply(e, r), o) == e
    decreases e
  {
    hide Holds;
    match e
    case IntExp(_) =>
    case BreakExp(_) =>
    case VarExp(id, x) => HoldsOne(UseOf(id, x, false), o);
    case OpExp(a, _, b) => HoldsParts(Events(a), Events(b), o); ApplyBack(a, r, o); ApplyBack(b, r, o);
    case SeqExp(es) => AllBack(es, r, o);
    case AssignExp(id, x, v) =>
      HoldsParts([UseOf(id, x, false)], Events(v), o);
      HoldsOne(UseOf(id, x, false), o);
      ApplyBack(v, r, o);
    case IfExp(c, t, f) =>
      HoldsParts(Events(c) + Events(t), if f.SomeExp? then Events(f.exp) else [], o);
      HoldsParts(Events(c), Events(t), o);
      ApplyBack(c, r, o);
      ApplyBack(t, r, o);
      if f.SomeExp? { ApplyBack(f.exp, r, o); }
    case WhileExp(_, c, b) => HoldsParts(Events(c), Events(b), o); ApplyBack(c, r, o); ApplyBack(b, r, o);
    case ForExp(_, d, hi, b) =>
      HoldsParts(EventsVarDec(d) + Events(hi), Events(b), o);
      HoldsParts(EventsVarDec(d), Events(hi), o);
      VarBack(d, r, o);
      ApplyBack(hi, r, o);
      ApplyBack(b, r, o);
    case CallExp(id, f, args) =>
      HoldsParts([UseOf(id, f, false)], EventsAll(args), o);
      HoldsOne(UseOf(id, f, false), o);
      AllBack(args, r, o);
    case LetExp(sc) => ScopeBack(sc, r, o);
  }

  lemma {:induction false} AllBack(es: Exps, r: Renamed, o: Renamed)
    requires Holds(EventsAll(es), o)
    ensures ApplyAll(ApplyAll(es, r), o) == es
    decreases es
  {
    hide Holds;
    if es.ECons? {
      HoldsParts(Events(es.head), EventsAll(es.tail), o);
      ApplyBack(es.head, r, o);
      AllBack(es.tail, r, o);
    }
  }

  lemma {:induction false} VarBack(d: VarDec, r: Renamed, o: Renamed)
    requires Holds(EventsVarDec(d), o)
    ensures ApplyVarDec(ApplyVarDec(d, r), o) == d
    decreases d
  {
    hide Holds;
    HoldsParts([Decl(d.id, d.name)] + NameEv(d.typeName), Events(d.init), o);
    HoldsParts([Decl(d.id, d.name)], NameEv(d.typeName), o);
    HoldsOne(Decl(d.id, d.name), o);
    NameBack(d.typeName, r, o);
    ApplyBack(d.init, r, o);
  }

  lemma {:induction false} ScopeBack(sc: Scope, r: Renamed, o: Renamed)
    requires Holds(EventsScope(sc), o)
    ensures ApplyScope(ApplyScope(sc, r), o) == sc
    decreases sc
  {
    hide Holds;
    match sc
    case In(b) => ApplyBack(b, r, o);
    case With(VarChunk(d), rest) =>
      HoldsParts(EventsVarDec(d), EventsScope(rest), o);
      VarBack(d, r, o);
      ScopeBack(rest, r, o);
    case With(FunctionChunk(ds), rest) =>
      HoldsParts([Again(Repeats(ds, {}))] + EventsDecs(ds), EventsScope(rest), o);
      HoldsParts([Again(Repeats(ds, {}))], EventsDecs(ds), o);
      DecsBack(ds, r, o);
      ScopeBack(rest, r, o);
    case With(TypeChunk(ts), rest) =>
      HoldsParts([Again(RepeatedTypes(ts, {}))] + EventsTypes(ts), EventsScope(rest), o);
      HoldsParts([Again(RepeatedTypes(ts, {}))], EventsTypes(ts), o);
      TypesBack(ts, r, o);
      ScopeBack(rest, r, o);
  }

  lemma {:induction false} DecsBack(ds: Decs, r: Renamed, o: Renamed)
    requires Holds(EventsDecs(ds), o)
    ensures ApplyDecs(ApplyDecs(ds, r), o) == ds
    decreases ds
  {
    hide Holds;
    if ds.DCons? {
      HoldsParts(EventsDec(ds.head), EventsDecs(ds.tail), o);
      DecBack(ds.head, r, o);
      DecsBack(ds.tail, r, o);
    }
  }

  lemma {:induction false} DecBack(d: FunctionDec, r: Renamed, o: Renamed)
    requires Holds(EventsDec(d), o)
    ensures ApplyDec(ApplyDec(d, r), o) == d
    decreases d
  {
    hide Holds;
    var own := [if Kept(d) then Keep(d.id, d.name) else Decl(d.id, d.name)];
    var again := [Again(RepeatedFormals(d.formals, {}))];
    var fs, res, body := EventsFormals(d.formals), NameEv(d.result), if d.body.SomeExp? then Events(d.body.exp) else [];
    HoldsParts(own + again + fs + res, body, o);
    HoldsParts(own + again + fs, res, o);
    HoldsParts(own + again, fs, o);
    HoldsParts(own, again, o);
    HoldsOne(own[0], o);
    FormalsBack(d.formals, r, o);
    NameBack(d.result, r, o);
    if d.body.SomeExp? { ApplyBack(d.body.exp, r, o); }
  }

  lemma {:induction false} FormalsBack(fs: seq<Formal>, r: Renamed, o: Renamed)
    requires Holds(EventsFormals(fs), o)
    ensures ApplyFormals(ApplyFormals(fs, r), o) == fs
    decreases |fs|
  {
    hide Holds;
    if fs != [] {
      var d, t := [Decl(fs[0].id, fs[0].name)], TypeEv(fs[0].typeName);
      HoldsParts(d + t, EventsFormals(fs[1..]), o);
      HoldsParts(d, t, o);
      HoldsOne(d[0], o);
      TypeBack(fs[0].typeName, r, o);
      FormalsBack(fs[1..], r, o);
      assert ApplyFormals(fs, r)[1..] == ApplyFormals(fs[1..], r);
    }
  }

  lemma {:induction false} TypesBack(ts: seq<TypeDec>, r: Renamed, o: Renamed)
    requires Holds(EventsTypes(ts), o)
    ensures ApplyTypes(ApplyTypes(ts, r), o) == ts
    decreases |ts|
  {
    hide Holds;
    if ts != [] {
      var d, ty := [Decl(ts[0].id, ts[0].name)], EventsTy(ts[0].ty);
      HoldsParts(d + ty, EventsTypes(ts[1..]), o);
      HoldsParts(d, ty, o);
      HoldsOne(d[0], o);
      TyBack(ts[0].ty, r, o);
      TypesBack(ts[1..], r, o);
      assert ApplyTypes(ts, r)[1..] == ApplyTypes(ts[1..], r);
    }
  }

  lemma TyBack(ty: Ty, r: Renamed, o: Renamed)
    requires Holds(EventsTy(ty), o)
    ensures ApplyTy(ApplyTy(ty, r), o) == ty
  {
    hide Holds;
    match ty
    case NameTy(t) => TypeBack(t, r, o);
    case RecordTy(fs) => FieldsBack(fs, r, o);
    case ArrayTy(t) => TypeBack(t, r, o);
  }

  lemma {:induction false} FieldsBack(fs: seq<(Symbol, TypeName)>, r: Renamed, o: Renamed)
    requires Holds(EventsFields(fs), o)
    ensures ApplyFields(ApplyFields(fs, r), o) == fs
    decreases |fs|
  {
    hide Holds;
    if fs != [] {
      HoldsParts(TypeEv(fs[0].1), EventsFields(fs[1..]), o);
      TypeBack(fs[0].1, r, o);
      FieldsBack(fs[1..], r, o);
      assert ApplyFields(fs, r)[1..] == ApplyFields(fs[1..], r);
    }
  }

  /** Whatever names are written into a tree, writing its own names again gives it back. */
  lemma NamesBack(e: Exp, r: Renamed)
    requires Distinct(e)
    ensures Apply(Apply(e, r), NamesOf(Events(e))) == e
  {
    EventsApart(e);
    NamesHold(Events(e));
    ApplyBack(e, r, NamesOf(Events(e)));
  }
}
