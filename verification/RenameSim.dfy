/** Renaming preserves meaning: the renamed program has the same outcome at every amount of fuel,
    with the same trace and the same values in corresponding variables. */
module RenameSim {
  import opened Options
  import opened Ast
  import opened Nodes
  import opened Semantics
  import opened Binder
  import opened Binding
  import opened Renaming
  import opened Rebinding
  import opened RenameBind
  import Int32

  // ----- environments and scopes -----

  /** The bindings of an environment, without values. */
  function Bare(a: Env): Env {
    match a
    case Empty => Empty
    case VarB(id, x, _, rest) => VarB(id, x, None, Bare(rest))
    case FunB(ds, rest) => FunB(ds, Bare(rest))
  }

  /** The declaration that x denotes. */
  function Holder(c: Env, x: Symbol): Option<Id> {
    match c
    case Empty => None
    case VarB(id, y, _, rest) => if x == y then Some(id) else Holder(rest, x)
    case FunB(_, rest) => Holder(rest, x)
  }

  function FunHolder(c: Env, f: Symbol): Option<Id> {
    var found := FindFun(c, f);
    if found.Some? then Some(found.value.0.id) else None
  }

  /** The scope n is that of the environment c. */
  ghost predicate Scoped(n: Names, c: Env) {
    (forall x :: Find(n.vars, x) == Holder(c, x)) && forall f :: Find(n.funs, f) == FunHolder(c, f)
  }

  /** The final name of the declaration id of x is a new one, or x is kept and no new one. */
  ghost predicate Named(id: Id, x: Symbol, r: Renamed) { if id in r.decs then NewFor(r.decs[id], x) else x !in r.decs.Values }

  ghost predicate AllNamed(ds: Decs, r: Renamed) { ds.DCons? ==> Named(ds.head.id, ds.head.name, r) && AllNamed(ds.tail, r) }

  /** The same bindings under their final names. */
  ghost predicate Twin(a: Env, b: Env, r: Renamed) {
    match a
    case Empty => b.Empty?
    case VarB(id, x, v, rest) =>
      b.VarB? && b.id == id && b.value == v && id in r.decs && NewFor(r.decs[id], x) && b.name == r.decs[id] && Twin(rest, b.rest, r)
    case FunB(ds, rest) => b.FunB? && b.decs == ApplyDecs(ds, r) && AllNamed(ds, r) && Twin(rest, b.rest, r)
  }

  /** The functions in scope are bound, and their trees fit to be renamed. */
  ghost predicate FunsOk(c: Env, l: Links, r: Renamed) {
    match c
    case Empty => true
    case VarB(_, _, _, rest) => FunsOk(rest, l, r)
    case FunB(ds, rest) => ChunkOk(c, l, r) && FunsOk(rest, l, r)
  }

  ghost predicate ChunkOk(c: Env, l: Links, r: Renamed)
    requires c.FunB?
  {
    Fits(EventsDecs(c.decs), l, r) && Repeats(c.decs, {}) == 0 && exists n :: Scoped(n, c) && DecsLinked(c.decs, n, l)
  }

  lemma SameImage(id: Id, x: Symbol, id': Id, x': Symbol, r: Renamed)
    requires Unique(r) && Named(id, x, r) && Named(id', x', r) && NameOf(r.decs, id, x) == NameOf(r.decs, id', x')
    ensures x == x'
  {
    if id in r.decs && id' in r.decs { NewNames(x, x', r.decs[id]); }
  }

  lemma {:induction false} HolderTwin(a: Env, b: Env, r: Renamed, x: Symbol)
    requires Twin(a, b, r) && Unique(r) && Holder(a, x).Some?
    ensures var d := Holder(a, x).value;
      d in r.decs && NewFor(r.decs[d], x) && FindVar(a, x).Some? && FindVar(b, r.decs[d]) == FindVar(a, x)
    decreases a
  {
    match a
    case VarB(id, y, _, rest) =>
      if y != x {
        HolderTwin(rest, b.rest, r, x);
        var d := Holder(rest, x).value;
        if r.decs[id] == r.decs[d] { SameImage(id, y, d, x, r); }
      }
    case FunB(_, rest) => HolderTwin(rest, b.rest, r, x);
  }

  lemma {:induction false} SetTwin(a: Env, b: Env, r: Renamed, x: Symbol, v: Int32.I32)
    requires Twin(a, b, r) && Unique(r) && Holder(a, x).Some? && Holder(a, x).value in r.decs
    ensures Twin(SetVar(a, x, v), SetVar(b, r.decs[Holder(a, x).value], v), r) && Bare(SetVar(a, x, v)) == Bare(a)
    decreases a
  {
    match a
    case VarB(id, y, _, rest) =>
      if y != x {
        HolderTwin(rest, b.rest, r, x);
        SetTwin(rest, b.rest, r, x, v);
        var d := Holder(rest, x).value;
        if r.decs[id] == r.decs[d] { SameImage(id, y, d, x, r); }
      }
    case FunB(_, rest) => SetTwin(rest, b.rest, r, x, v);
  }

  /** A declaration of the chunk under its final name; no other has that name. */
  lemma {:induction false} FindDecTwin(ds: Decs, r: Renamed, d: Id, f: Symbol)
    requires AllNamed(ds, r) && Unique(r) && Named(d, f, r) && (FindDec(ds, f).Some? ==> FindDec(ds, f).value.id == d)
    ensures var found := FindDec(ds, f);
      FindDec(ApplyDecs(ds, r), NameOf(r.decs, d, f)) == if found.Some? then Some(ApplyDec(found.value, r)) else None
    decreases ds
  {
    if ds.DCons? && ds.head.name != f {
      FindDecTwin(ds.tail, r, d, f);
      if NameOf(r.decs, ds.head.id, ds.head.name) == NameOf(r.decs, d, f) { SameImage(ds.head.id, ds.head.name, d, f, r); }
    }
  }

  lemma {:induction false} FoundNamed(ds: Decs, r: Renamed, f: Symbol)
    requires AllNamed(ds, r) && FindDec(ds, f).Some?
    ensures var d := FindDec(ds, f).value; d.name == f && Named(d.id, f, r)
    decreases ds
  {
    if ds.head.name != f { FoundNamed(ds.tail, r, f); }
  }

  lemma {:induction false} FunTwin(a: Env, b: Env, r: Renamed, f: Symbol)
    requires Twin(a, b, r) && Unique(r) && FindFun(a, f).Some?
    ensures var (d, ta) := FindFun(a, f).value;
      && d.name == f && Named(d.id, f, r) && FindFun(b, NameOf(r.decs, d.id, f)).Some?
      && FindFun(b, NameOf(r.decs, d.id, f)).value.0 == ApplyDec(d, r) && Twin(ta, FindFun(b, NameOf(r.decs, d.id, f)).value.1, r)
    decreases a
  {
    match a
    case VarB(_, _, _, rest) => FunTwin(rest, b.rest, r, f);
    case FunB(ds, rest) =>
      if FindDec(ds, f).Some? {
        FoundNamed(ds, r, f);
        FindDecTwin(ds, r, FindDec(ds, f).value.id, f);
      } else {
        FunTwin(rest, b.rest, r, f);
        FindDecTwin(ds, r, FindFun(rest, f).value.0.id, f);
      }
  }

  lemma {:induction false} GraftTwin(a: Env, b: Env, r: Renamed, f: Symbol, ta: Env, tb: Env)
    requires Twin(a, b, r) && Unique(r) && FindFun(a, f).Some? && Twin(ta, tb, r) && Bare(ta) == Bare(FindFun(a, f).value.1)
    ensures var d := FindFun(a, f).value.0;
      Twin(Graft(a, f, ta), Graft(b, NameOf(r.decs, d.id, f), tb), r) && Bare(Graft(a, f, ta)) == Bare(a)
    decreases a
  {
    match a
    case VarB(_, _, _, rest) => GraftTwin(rest, b.rest, r, f, ta, tb);
    case FunB(ds, rest) =>
      if FindDec(ds, f).Some? {
        FoundNamed(ds, r, f);
        FindDecTwin(ds, r, FindDec(ds, f).value.id, f);
      } else {
        FunTwin(rest, b.rest, r, f);
        GraftTwin(rest, b.rest, r, f, ta, tb);
        FindDecTwin(ds, r, FindFun(rest, f).value.0.id, f);
      }
  }

  lemma {:induction false} BareFinds(a: Env, x: Symbol)
    ensures Holder(Bare(a), x) == Holder(a, x)
    ensures FindFun(Bare(a), x).Some? <==> FindFun(a, x).Some?
    ensures FindFun(a, x).Some? ==> FindFun(Bare(a), x).value == (FindFun(a, x).value.0, Bare(FindFun(a, x).value.1))
    decreases a
  {
    match a
    case Empty =>
    case VarB(_, _, _, rest) => BareFinds(rest, x);
    case FunB(_, rest) => BareFinds(rest, x);
  }

  // ----- entering scopes -----

  lemma ScopedVar(n: Names, c: Env, id: Id, x: Symbol)
    requires Scoped(n, c)
    ensures Scoped(PutVar(n, x, id), VarB(id, x, None, c))
  {}

  lemma ScopedLoop(n: Names, c: Env, id: Id)
    requires Scoped(n, c)
    ensures Scoped(Enter(n, id), c)
  {}

  lemma {:induction false} PutAllFinds(ds: Decs, n: Names, seen: set<Symbol>, f: Symbol)
    requires Repeats(ds, seen) == 0
    ensures Find(PutAll(ds, n).funs, f) == if FindDec(ds, f).Some? then Some(FindDec(ds, f).value.id) else Find(n.funs, f)
    ensures PutAll(ds, n).vars == n.vars && (f in seen ==> FindDec(ds, f).None?)
    decreases ds
  {
    if ds.DCons? { PutAllFinds(ds.tail, PutFun(n, ds.head.name, ds.head.id), seen + {ds.head.name}, f); }
  }

  /** After a chunk without repeats. */
  lemma ScopedChunk(ds: Decs, n: Names, c: Env)
    requires Scoped(n, c) && Repeats(ds, {}) == 0
    ensures Scoped(AddFirst(ds, n, {}), FunB(ds, c)) && PutAll(ds, AddFirst(ds, n, {})).vars == n.vars
    ensures Scoped(PutAll(ds, AddFirst(ds, n, {})), FunB(ds, c))
  {
    AddFirstAll(ds, n, {});
    var n1 := PutAll(ds, n);
    forall f ensures Find(n1.funs, f) == FunHolder(FunB(ds, c), f) && Find(PutAll(ds, n1).funs, f) == Find(n1.funs, f) {
      PutAllFinds(ds, n, {}, f);
      PutAllFinds(ds, n1, {}, f);
    }
    PutAllFinds(ds, n, {}, "");
    PutAllFinds(ds, n1, {}, "");
  }

  function EnterBare(fs: seq<Formal>, c: Env): Env {
    if fs == [] then c else EnterBare(fs[1..], VarB(fs[0].id, fs[0].name, None, c))
  }

  lemma {:induction false} ScopedFormals(fs: seq<Formal>, n: Names, c: Env)
    requires Scoped(n, c)
    ensures Scoped(PutFormals(fs, n), EnterBare(fs, c))
    decreases |fs|
  {
    if fs != [] {
      ScopedVar(n, c, fs[0].id, fs[0].name);
      ScopedFormals(fs[1..], PutVar(n, fs[0].name, fs[0].id), VarB(fs[0].id, fs[0].name, None, c));
    }
  }

  lemma {:induction false} FunsFormals(fs: seq<Formal>, c: Env, l: Links, r: Renamed)
    requires FunsOk(c, l, r)
    ensures FunsOk(EnterBare(fs, c), l, r)
    decreases |fs|
  {
    if fs != [] { FunsFormals(fs[1..], VarB(fs[0].id, fs[0].name, None, c), l, r); }
  }

  lemma {:induction false} BindTwin(fs: seq<Formal>, vs: seq<Int32.I32>, a: Env, b: Env, l: Links, r: Renamed)
    requires |fs| == |vs| && Twin(a, b, r) && Fits(EventsFormals(fs), l, r)
    ensures Twin(BindFormals(fs, vs, a), BindFormals(ApplyFormals(fs, r), vs, b), r)
    ensures Bare(BindFormals(fs, vs, a)) == EnterBare(fs, Bare(a))
    decreases |fs|
  {
    if fs != [] {
      FormalFits(fs, l, r);
      var f' := ApplyFormals(fs, r);
      assert f'[1..] == ApplyFormals(fs[1..], r);
      BindTwin(fs[1..], vs[1..], VarB(fs[0].id, fs[0].name, Some(vs[0]), a), VarB(f'[0].id, f'[0].name, Some(vs[0]), b), l, r);
    }
  }

  lemma {:induction false} PopTwin(fs: seq<Formal>, c: Env, a: Env, b: Env, r: Renamed)
    requires Twin(a, b, r) && Bare(a) == EnterBare(fs, c)
    ensures Twin(PopN(a, |fs|), PopN(b, |fs|), r) && Bare(PopN(a, |fs|)) == c
    decreases |fs|
  {
    if fs != [] {
      PopTwin(fs[1..], VarB(fs[0].id, fs[0].name, None, c), a, b, r);
      PopLast(a, |fs| - 1);
      PopLast(b, |fs| - 1);
    }
  }

  lemma {:induction false} PopLast(a: Env, k: nat)
    ensures PopN(a, k + 1) == Pop(PopN(a, k))
    decreases k
  {
    if k > 0 { PopLast(Pop(a), k - 1); }
  }

  // ----- functions in scope -----

  /** The function that f denotes, its scope, and that its tree is bound and fits. */
  lemma {:induction false} CalleeOk(c: Env, f: Symbol, l: Links, r: Renamed) returns (n: Names)
    requires FunsOk(c, l, r) && FindFun(c, f).Some?
    ensures var (d, t) := FindFun(c, f).value;
      FunsOk(t, l, r) && Scoped(n, t) && DecLinked(d, n, l) && Fits(EventsDec(d), l, r)
    decreases c
  {
    match c
    case VarB(_, _, _, rest) => n := CalleeOk(rest, f, l, r);
    case FunB(ds, rest) =>
      if FindDec(ds, f).Some? {
        assert ChunkOk(c, l, r);
        var n0 :| Scoped(n0, c) && DecsLinked(ds, n0, l);
        AllEntered(ds, {}, n0.funs);
        n := DecOk(ds, n0, f, l, r);
      } else {
        n := CalleeOk(rest, f, l, r);
      }
  }

  /** The functions of ds are in m. */
  ghost predicate Entered(ds: Decs, m: map<Symbol, Id>) {
    ds.DCons? ==> Find(m, ds.head.name) == Some(ds.head.id) && Entered(ds.tail, m)
  }

  lemma {:induction false} AllEntered(ds: Decs, seen: set<Symbol>, m: map<Symbol, Id>)
    requires Repeats(ds, seen) == 0 && forall f | FindDec(ds, f).Some? :: Find(m, f) == Some(FindDec(ds, f).value.id)
    ensures Entered(ds, m)
    decreases ds
  {
    if ds.DCons? {
      PutAllFinds(ds.tail, Names(m, m, m, None), seen + {ds.head.name}, ds.head.name);
      forall f | FindDec(ds.tail, f).Some? ensures Find(m, f) == Some(FindDec(ds.tail, f).value.id) {
        assert FindDec(ds, f) == FindDec(ds.tail, f);
      }
      AllEntered(ds.tail, seen + {ds.head.name}, m);
    }
  }

  lemma {:induction false} DecOk(ds: Decs, n0: Names, f: Symbol, l: Links, r: Renamed) returns (n: Names)
    requires DecsLinked(ds, n0, l) && Entered(ds, n0.funs) && FindDec(ds, f).Some? && Fits(EventsDecs(ds), l, r)
    ensures n.vars == n0.vars && n.funs == n0.funs
    ensures DecLinked(FindDec(ds, f).value, n, l) && Fits(EventsDec(FindDec(ds, f).value), l, r)
    decreases ds
  {
    var n1 := PutFun(n0, ds.head.name, ds.head.id);
    assert n1.funs == n0.funs;
    FitsParts(EventsDec(ds.head), EventsDecs(ds.tail), l, r);
    if ds.head.name == f { n := n1; } else { n := DecOk(ds.tail, n1, f, l, r); }
  }

  // ----- the simulation -----

  /** Code the simulation covers, in the scope of the environment c. */
  ghost predicate Around(n: Names, c: Env, l: Links, r: Renamed) { Scoped(n, c) && FunsOk(c, l, r) && Unique(r) }

  ghost predicate Meets(c: Env, r: Renamed, s: State, s': State) { Bare(s.env) == c && s.trace == s'.trace && Twin(s.env, s'.env, r) }

  ghost predicate Same(c: Env, r: Renamed, a: Outcome, b: Outcome) {
    match a
    case Normal(v, s) => b.Normal? && b.value == v && Meets(c, r, s, b.s)
    case Broke(s) => b.Broke? && Meets(c, r, s, b.s)
    case OutOfFuel => b.OutOfFuel?
    case Undefined => b.Undefined?
  }

  /** A variable enters the scope without a value. */
  lemma MeetsVar(id: Id, x: Symbol, n: Names, c: Env, l: Links, r: Renamed, s: State, s': State)
    requires Around(n, c, l, r) && Meets(c, r, s, s') && id in r.decs && NewFor(r.decs[id], x)
    ensures Around(PutVar(n, x, id), VarB(id, x, None, c), l, r)
    ensures Meets(VarB(id, x, None, c), r, State(VarB(id, x, None, s.env), s.trace), State(VarB(id, NameOf(r.decs, id, x), None, s'.env), s'.trace))
  {
    ScopedVar(n, c, id, x);
  }

  /** Its value changes, or it leaves the scope. */
  lemma MeetsTop(id: Id, x: Symbol, c: Env, r: Renamed, s: State, s': State, v: Int32.I32)
    requires Meets(VarB(id, x, None, c), r, s, s')
    ensures Meets(VarB(id, x, None, c), r, SetTop(s, v), SetTop(s', v)) && Meets(c, r, PopState(s), PopState(s'))
  {}

  lemma SamePop(id: Id, x: Symbol, c: Env, r: Renamed, a: Outcome, b: Outcome)
    requires Same(VarB(id, x, None, c), r, a, b)
    ensures Same(c, r, PopOut(a), PopOut(b))
  {}

  lemma VarDecFits(d: VarDec, l: Links, r: Renamed)
    requires Fits(EventsVarDec(d), l, r)
    ensures d.id in r.decs && NewFor(r.decs[d.id], d.name) && Fits(Events(d.init), l, r)
  {
    var v := Decl(d.id, d.name);
    FitsParts([v] + NameEv(d.typeName), Events(d.init), l, r);
    FitsParts([v], NameEv(d.typeName), l, r);
    FitsOne(v, l, r);
  }

  /** Every use of a variable finds the same value under the final name of its declaration. */
  lemma SameLookup(id: Id, x: Symbol, n: Names, c: Env, l: Links, r: Renamed, s: State, s': State)
    requires Around(n, c, l, r) && Meets(c, r, s, s') && Find(l, id) == Find(n.vars, x) && Fit(UseOf(id, x, false), l, r)
    ensures Holder(s.env, x).Some? && Holder(s.env, x).value in r.decs
    ensures NameOf(r.uses, id, x) == r.decs[Holder(s.env, x).value]
    ensures FindVar(s.env, x).Some? && FindVar(s'.env, NameOf(r.uses, id, x)) == FindVar(s.env, x)
  {
    BareFinds(s.env, x);
    HolderTwin(s.env, s'.env, r, x);
  }

  lemma {:induction false} Preserves(o: Oracle, e: Exp, n: Names, c: Env, l: Links, r: Renamed, s: State, s': State, fuel: nat)
    requires Linked(e, n, l) && Fits(Events(e), l, r) && Around(n, c, l, r) && Meets(c, r, s, s')
    ensures Same(c, r, Eval(o, e, s, fuel), Eval(o, Apply(e, r), s', fuel))
    decreases fuel, e, 4
  {
    hide Around, Meets, Fits;
    match e
    case IntExp(_) =>
    case BreakExp(_) =>
    case VarExp(id, x) =>
      FitsOne(UseOf(id, x, false), l, r);
      SameLookup(id, x, n, c, l, r, s, s');
    case OpExp(a, op, b) =>
      FitsParts(Events(a), Events(b), l, r);
      Preserves(o, a, n, c, l, r, s, s', fuel);
      var oa, oa' := Eval(o, a, s, fuel), Eval(o, Apply(a, r), s', fuel);
      if oa.Normal? { Preserves(o, b, n, c, l, r, oa.s, oa'.s, fuel); }
    case SeqExp(es) => PreservesSeq(o, es, 0, n, c, l, r, s, s', fuel);
    case AssignExp(_, _, _) => PreservesAssign(o, e, n, c, l, r, s, s', fuel);
    case IfExp(_, _, _) => PreservesIf(o, e, n, c, l, r, s, s', fuel);
    case WhileExp(_, _, _) => PreservesWhile(o, e, n, c, l, r, s, s', fuel);
    case ForExp(_, _, _, _) => PreservesFor(o, e, n, c, l, r, s, s', fuel);
    case CallExp(_, _, _) => PreservesCall(o, e, n, c, l, r, s, s', fuel);
    case LetExp(sc) => PreservesScope(o, sc, n, c, l, r, s, s', fuel);
  }

  lemma {:induction false} PreservesAssign(o: Oracle, e: Exp, n: Names, c: Env, l: Links, r: Renamed, s: State, s': State, fuel: nat)
    requires e.AssignExp?
    requires Linked(e, n, l) && Fits(Events(e), l, r) && Around(n, c, l, r) && Meets(c, r, s, s')
    ensures Same(c, r, Eval(o, e, s, fuel), Eval(o, Apply(e, r), s', fuel))
    decreases fuel, e, 3
  {
    var u := UseOf(e.id, e.name, false);
    FitsParts([u], Events(e.exp), l, r);
    FitsOne(u, l, r);
    SameLookup(e.id, e.name, n, c, l, r, s, s');
    hide Fits, FunsOk, Scoped, NewFor;
    Preserves(o, e.exp, n, c, l, r, s, s', fuel);
    var a, a' := Eval(o, e.exp, s, fuel), Eval(o, Apply(e.exp, r), s', fuel);
    if a.Normal? {
      SameLookup(e.id, e.name, n, c, l, r, a.s, a'.s);
      SetTwin(a.s.env, a'.s.env, r, e.name, a.value);
    }
  }

  lemma {:induction false} PreservesIf(o: Oracle, e: Exp, n: Names, c: Env, l: Links, r: Renamed, s: State, s': State, fuel: nat)
    requires e.IfExp?
    requires Linked(e, n, l) && Fits(Events(e), l, r) && Around(n, c, l, r) && Meets(c, r, s, s')
    ensures Same(c, r, Eval(o, e, s, fuel), Eval(o, Apply(e, r), s', fuel))
    decreases fuel, e, 3
  {
    hide Around, Meets, Fits;
    FitsParts(Events(e.test) + Events(e.thn), if e.els.SomeExp? then Events(e.els.exp) else [], l, r);
    FitsParts(Events(e.test), Events(e.thn), l, r);
    Preserves(o, e.test, n, c, l, r, s, s', fuel);
    var a, a' := Eval(o, e.test, s, fuel), Eval(o, Apply(e.test, r), s', fuel);
    if a.Normal? {
      Preserves(o, e.thn, n, c, l, r, a.s, a'.s, fuel);
      if e.els.SomeExp? { Preserves(o, e.els.exp, n, c, l, r, a.s, a'.s, fuel); }
    }
  }

  lemma {:induction false} PreservesWhile(o: Oracle, e: Exp, n: Names, c: Env, l: Links, r: Renamed, s: State, s': State, fuel: nat)
    requires e.WhileExp?
    requires Linked(e, n, l) && Fits(Events(e), l, r) && Around(n, c, l, r) && Meets(c, r, s, s')
    ensures Same(c, r, Eval(o, e, s, fuel), Eval(o, Apply(e, r), s', fuel))
    decreases fuel, e, 3
  {
    hide Meets, Fits, FunsOk, Unique;
    FitsParts(Events(e.test), Events(e.body), l, r);
    var n' := Enter(n, e.id);
    ScopedLoop(n, c, e.id);
    hide Scoped;
    Preserves(o, e.test, n', c, l, r, s, s', fuel);
    var a, a' := Eval(o, e.test, s, fuel), Eval(o, Apply(e.test, r), s', fuel);
    if a.Normal? && a.value != 0 && fuel > 0 {
      Preserves(o, e.body, n', c, l, r, a.s, a'.s, fuel - 1);
      var b, b' := Eval(o, e.body, a.s, fuel - 1), Eval(o, Apply(e.body, r), a'.s, fuel - 1);
      if b.Normal? { PreservesWhile(o, e, n, c, l, r, b.s, b'.s, fuel - 1); }
    }
  }

  lemma {:induction false} PreservesFor(o: Oracle, e: Exp, n: Names, c: Env, l: Links, r: Renamed, s: State, s': State, fuel: nat)
    requires e.ForExp?
    requires Linked(e, n, l) && Fits(Events(e), l, r) && Around(n, c, l, r) && Meets(c, r, s, s')
    ensures Same(c, r, Eval(o, e, s, fuel), Eval(o, Apply(e, r), s', fuel))
    decreases fuel, e, 3
  {
    hide Meets, Fits, FunsOk, Unique;
    var d := e.index;
    FitsParts(EventsVarDec(d) + Events(e.hi), Events(e.body), l, r);
    FitsParts(EventsVarDec(d), Events(e.hi), l, r);
    VarDecFits(d, l, r);
    ScopedLoop(n, c, e.id);
    hide Scoped;
    var n0, c' := Enter(n, e.id), VarB(d.id, d.name, None, c);
    var n' := PutVar(n0, d.name, d.id);
    var t, t' := State(VarB(d.id, d.name, None, s.env), s.trace), State(VarB(d.id, NameOf(r.decs, d.id, d.name), None, s'.env), s'.trace);
    MeetsVar(d.id, d.name, n0, c, l, r, s, s');
    Preserves(o, d.init, n', c', l, r, t, t', fuel);
    var a, a' := Eval(o, d.init, t, fuel), Eval(o, Apply(d.init, r), t', fuel);
    if a.Broke? { MeetsTop(d.id, d.name, c, r, a.s, a'.s, 0); }
    if a.Normal? {
      MeetsTop(d.id, d.name, c, r, a.s, a'.s, a.value);
      var u, u' := SetTop(a.s, a.value), SetTop(a'.s, a.value);
      Preserves(o, e.hi, n', c', l, r, u, u', fuel);
      var b, b' := Eval(o, e.hi, u, fuel), Eval(o, Apply(e.hi, r), u', fuel);
      if b.Broke? { MeetsTop(d.id, d.name, c, r, b.s, b'.s, 0); }
      if b.Normal? {
        PreservesIterations(o, e, a.value, b.value, n', c, l, r, b.s, b'.s, fuel);
        SamePop(d.id, d.name, c, r, EvalFor(o, e, a.value, b.value, b.s, fuel), EvalFor(o, Apply(e, r), a.value, b.value, b'.s, fuel));
      }
    }
  }

  /** n is the scope of the body. */
  lemma {:induction false} PreservesIterations(o: Oracle, e: Exp, k: int, h: Int32.I32, n: Names, c: Env, l: Links, r: Renamed,
                                               s: State, s': State, fuel: nat)
    requires e.ForExp? && k >= Int32.MIN && Linked(e.body, n, l) && Fits(Events(e.body), l, r)
    requires var c' := VarB(e.index.id, e.index.name, None, c); Around(n, c', l, r) && Meets(c', r, s, s')
    ensures var c' := VarB(e.index.id, e.index.name, None, c);
      Same(c', r, EvalFor(o, e, k, h, s, fuel), EvalFor(o, Apply(e, r), k, h, s', fuel))
    decreases fuel, e, 0
  {
    hide Around, Meets, Fits;
    var d, c' := e.index, VarB(e.index.id, e.index.name, None, c);
    if k <= h && fuel > 0 {
      MeetsTop(d.id, d.name, c, r, s, s', k);
      Preserves(o, e.body, n, c', l, r, SetTop(s, k), SetTop(s', k), fuel - 1);
      var b, b' := Eval(o, e.body, SetTop(s, k), fuel - 1), Eval(o, Apply(e.body, r), SetTop(s', k), fuel - 1);
      if b.Normal? { PreservesIterations(o, e, k + 1, h, n, c, l, r, b.s, b'.s, fuel - 1); }
    }
  }

  lemma {:induction false} PreservesSeq(o: Oracle, es: Exps, last: Int32.I32, n: Names, c: Env, l: Links, r: Renamed,
                                        s: State, s': State, fuel: nat)
    requires AllLinked(es, n, l) && Fits(EventsAll(es), l, r) && Around(n, c, l, r) && Meets(c, r, s, s')
    ensures Same(c, r, EvalSeq(o, es, last, s, fuel), EvalSeq(o, ApplyAll(es, r), last, s', fuel))
    decreases fuel, es, 0
  {
    hide Around, Meets, Fits;
    if es.ECons? {
      FitsParts(Events(es.head), EventsAll(es.tail), l, r);
      Preserves(o, es.head, n, c, l, r, s, s', fuel);
      var a, a' := Eval(o, es.head, s, fuel), Eval(o, Apply(es.head, r), s', fuel);
      if a.Normal? { PreservesSeq(o, es.tail, a.value, n, c, l, r, a.s, a'.s, fuel); }
    }
  }

  lemma {:induction false} PreservesArgs(o: Oracle, es: Exps, n: Names, c: Env, l: Links, r: Renamed, s: State, s': State, fuel: nat)
    requires AllLinked(es, n, l) && Fits(EventsAll(es), l, r) && Around(n, c, l, r) && Meets(c, r, s, s')
    ensures var a, b := EvalArgs(o, es, s, fuel), EvalArgs(o, ApplyAll(es, r), s', fuel);
      if a.Values? then b.Values? && a.values == b.values && Meets(c, r, a.s, b.s) else b.Stop? && Same(c, r, a.outcome, b.outcome)
    decreases fuel, es, 0
  {
    hide Around, Meets, Fits;
    if es.ECons? {
      FitsParts(Events(es.head), EventsAll(es.tail), l, r);
      Preserves(o, es.head, n, c, l, r, s, s', fuel);
      var a, a' := Eval(o, es.head, s, fuel), Eval(o, Apply(es.head, r), s', fuel);
      if a.Normal? { PreservesArgs(o, es.tail, n, c, l, r, a.s, a'.s, fuel); }
    }
  }

  lemma {:induction false} PreservesScope(o: Oracle, sc: Scope, n: Names, c: Env, l: Links, r: Renamed, s: State, s': State, fuel: nat)
    requires ScopeLinked(sc, n, l) && Fits(EventsScope(sc), l, r) && Around(n, c, l, r) && Meets(c, r, s, s')
    ensures Same(c, r, EvalScope(o, sc, s, fuel), EvalScope(o, ApplyScope(sc, r), s', fuel))
    decreases fuel, sc, 0
  {
    hide Meets, Fits, FunsOk, Unique, Scoped;
    match sc
    case In(b) => Preserves(o, b, n, c, l, r, s, s', fuel);
    case With(VarChunk(d), rest) =>
      FitsParts(EventsVarDec(d), EventsScope(rest), l, r);
      VarDecFits(d, l, r);
      MeetsVar(d.id, d.name, n, c, l, r, s, s');
      var n', c' := PutVar(n, d.name, d.id), VarB(d.id, d.name, None, c);
      var t, t' := State(VarB(d.id, d.name, None, s.env), s.trace), State(VarB(d.id, NameOf(r.decs, d.id, d.name), None, s'.env), s'.trace);
      Preserves(o, d.init, n', c', l, r, t, t', fuel);
      var a, a' := Eval(o, d.init, t, fuel), Eval(o, Apply(d.init, r), t', fuel);
      SamePop(d.id, d.name, c, r, a, a');
      if a.Normal? {
        MeetsTop(d.id, d.name, c, r, a.s, a'.s, a.value);
        PreservesScope(o, rest, n', c', l, r, SetTop(a.s, a.value), SetTop(a'.s, a.value), fuel);
        SamePop(d.id, d.name, c, r, EvalScope(o, rest, SetTop(a.s, a.value), fuel),
                EvalScope(o, ApplyScope(rest, r), SetTop(a'.s, a.value), fuel));
      }
    case With(FunctionChunk(ds), rest) =>
      EnterChunk(ds, rest, n, c, l, r, s, s');
      var n1 := PutAll(ds, AddFirst(ds, n, {}));
      var t, t' := State(FunB(ds, s.env), s.trace), State(FunB(ApplyDecs(ds, r), s'.env), s'.trace);
      PreservesScope(o, rest, n1, FunB(ds, c), l, r, t, t', fuel);
      SamePopFun(ds, c, r, EvalScope(o, rest, t, fuel), EvalScope(o, ApplyScope(rest, r), t', fuel));
    case With(TypeChunk(ts), rest) =>
      FitsParts([Again(RepeatedTypes(ts, {}))] + EventsTypes(ts), EventsScope(rest), l, r);
      var n1 := PutAllTypes(ts, AddFirstTypes(ts, n, {}));
      ScopedTypes(ts, n, c);
      PreservesScope(o, rest, n1, c, l, r, s, s', fuel);
  }

  lemma ScopedTypes(ts: seq<TypeDec>, n: Names, c: Env)
    requires Scoped(n, c)
    ensures Scoped(PutAllTypes(ts, AddFirstTypes(ts, n, {})), c)
  {
    AddFirstTypesVars(ts, n, {});
    PutAllTypesVars(ts, AddFirstTypes(ts, n, {}));
  }

  lemma SamePopFun(ds: Decs, c: Env, r: Renamed, a: Outcome, b: Outcome)
    requires Same(FunB(ds, c), r, a, b)
    ensures Same(c, r, PopOut(a), PopOut(b))
  {}

  /** The functions of a chunk enter the scope. */
  lemma EnterChunk(ds: Decs, rest: Scope, n: Names, c: Env, l: Links, r: Renamed, s: State, s': State)
    requires var sc := With(FunctionChunk(ds), rest); ScopeLinked(sc, n, l) && Fits(EventsScope(sc), l, r)
    requires Around(n, c, l, r) && Meets(c, r, s, s')
    ensures var n1 := PutAll(ds, AddFirst(ds, n, {}));
      Around(n1, FunB(ds, c), l, r) && ScopeLinked(rest, n1, l) && Fits(EventsScope(rest), l, r)
    ensures Meets(FunB(ds, c), r, State(FunB(ds, s.env), s.trace), State(FunB(ApplyDecs(ds, r), s'.env), s'.trace))
  {
    hide Scoped;
    var v := Again(Repeats(ds, {}));
    FitsParts([v] + EventsDecs(ds), EventsScope(rest), l, r);
    FitsParts([v], EventsDecs(ds), l, r);
    FitsOne(v, l, r);
    ScopedChunk(ds, n, c);
    FitsNamed(ds, l, r);
    assert ChunkOk(FunB(ds, c), l, r);
  }

  lemma {:induction false} FitsNamed(ds: Decs, l: Links, r: Renamed)
    requires Fits(EventsDecs(ds), l, r)
    ensures AllNamed(ds, r)
    decreases ds
  {
    if ds.DCons? {
      FitsParts(EventsDec(ds.head), EventsDecs(ds.tail), l, r);
      HeadFits(ds.head, l, r);
      FitsNamed(ds.tail, l, r);
    }
  }

  /** Every call finds the image of the same function. */
  lemma SameCallee(id: Id, f: Symbol, n: Names, c: Env, l: Links, r: Renamed, s: State, s': State)
    requires Around(n, c, l, r) && Meets(c, r, s, s') && Find(l, id) == Find(n.funs, f) && Fit(UseOf(id, f, false), l, r)
    ensures FindFun(s.env, f).Some? && FindFun(c, f).Some? && FindFun(c, f).value == (FindFun(s.env, f).value.0, Bare(FindFun(s.env, f).value.1))
    ensures var (d, t) := FindFun(s.env, f).value; var found := FindFun(s'.env, NameOf(r.uses, id, f));
      && d.name == f && found.Some? && found.value.0 == ApplyDec(d, r) && Twin(t, found.value.1, r)
      && NameOf(r.uses, id, f) == NameOf(r.decs, d.id, f)
  {
    BareFinds(s.env, f);
    FunTwin(s.env, s'.env, r, f);
  }

  lemma {:induction false} PreservesCall(o: Oracle, e: Exp, n: Names, c: Env, l: Links, r: Renamed, s: State, s': State, fuel: nat)
    requires e.CallExp?
    requires Linked(e, n, l) && Fits(Events(e), l, r) && Around(n, c, l, r) && Meets(c, r, s, s')
    ensures Same(c, r, Eval(o, e, s, fuel), Eval(o, Apply(e, r), s', fuel))
    decreases fuel, e, 3
  {
    hide Around, Meets, Fits, Fit;
    var u, f := UseOf(e.id, e.name, false), e.name;
    FitsParts([u], EventsAll(e.args), l, r);
    FitsOne(u, l, r);
    PreservesArgs(o, e.args, n, c, l, r, s, s', fuel);
    var a, a' := EvalArgs(o, e.args, s, fuel), EvalArgs(o, ApplyAll(e.args, r), s', fuel);
    if a.Values? {
      SameCallee(e.id, f, n, c, l, r, a.s, a'.s);
      var d, f' := FindFun(a.s.env, f).value.0, NameOf(r.uses, e.id, f);
      if |d.formals| == |a.values| {
        if d.body.NoExp? {
          PrimitiveKept(e, n, c, l, r, a.s, a'.s);
          MeetsTrace(c, r, a.s, a'.s, Event(f, a.values));
        } else if fuel > 0 {
          PreservesBody(o, e.id, f, a.values, n, c, l, r, a.s, a'.s, fuel - 1);
        }
      }
    }
  }

  lemma MeetsTrace(c: Env, r: Renamed, s: State, s': State, ev: Event)
    requires Meets(c, r, s, s')
    ensures Meets(c, r, s.(trace := s.trace + [ev]), s'.(trace := s'.trace + [ev]))
  {}

  /** A primitive is called by the same name. */
  lemma PrimitiveKept(e: Exp, n: Names, c: Env, l: Links, r: Renamed, s: State, s': State)
    requires e.CallExp? && Around(n, c, l, r) && Meets(c, r, s, s')
    requires Find(l, e.id) == Find(n.funs, e.name) && Fit(UseOf(e.id, e.name, false), l, r)
    requires FindFun(s.env, e.name).Some? && FindFun(s.env, e.name).value.0.body.NoExp?
    ensures NameOf(r.uses, e.id, e.name) == e.name
  {
    SameCallee(e.id, e.name, n, c, l, r, s, s');
    var n' := CalleeOk(c, e.name, l, r);
    HeadFits(FindFun(c, e.name).value.0, l, r);
  }

  lemma DecFits(d: FunctionDec, l: Links, r: Renamed)
    requires Fits(EventsDec(d), l, r)
    ensures Fits(EventsFormals(d.formals), l, r) && (d.body.SomeExp? ==> Fits(Events(d.body.exp), l, r))
  {
    var own, again := [if Kept(d) then Keep(d.id, d.name) else Decl(d.id, d.name)], [Again(RepeatedFormals(d.formals, {}))];
    var fs, res, body := EventsFormals(d.formals), NameEv(d.result), if d.body.SomeExp? then Events(d.body.exp) else [];
    FitsParts(own + again + fs + res, body, l, r);
    FitsParts(own + again + fs, res, l, r);
    FitsParts(own + again, fs, l, r);
  }

  /** The call itself, its arguments evaluated. */
  lemma {:induction false} PreservesBody(o: Oracle, id: Id, f: Symbol, vs: seq<Int32.I32>, n: Names, c: Env, l: Links, r: Renamed,
                                         s: State, s': State, fuel: nat)
    requires Around(n, c, l, r) && Meets(c, r, s, s') && Find(l, id) == Find(n.funs, f) && Fit(UseOf(id, f, false), l, r)
    requires FindFun(s.env, f).Some? && |FindFun(s.env, f).value.0.formals| == |vs| && FindFun(s.env, f).value.0.body.SomeExp?
    requires FindFun(s'.env, NameOf(r.uses, id, f)).Some?
    ensures var (d, t) := FindFun(s.env, f).value; var f' := NameOf(r.uses, id, f); var t' := FindFun(s'.env, f').value.1;
      var a := Eval(o, d.body.exp, State(BindFormals(d.formals, vs, t), s.trace), fuel);
      var b := Eval(o, Apply(d.body.exp, r), State(BindFormals(ApplyFormals(d.formals, r), vs, t'), s'.trace), fuel);
      && (a.Normal? ==>
            && b.Normal? && a.value == b.value
            && Meets(c, r, State(Graft(s.env, f, PopN(a.s.env, |d.formals|)), a.s.trace),
                     State(Graft(s'.env, f', PopN(b.s.env, |d.formals|)), b.s.trace)))
      && (a.Broke? ==> b.Broke?) && (a.OutOfFuel? ==> b.OutOfFuel?) && (a.Undefined? ==> b.Undefined?)
    decreases fuel, FindFun(s.env, f).value.0.body.exp, 5
  {
    SameCallee(id, f, n, c, l, r, s, s');
    hide Fits, Fit, Scoped, Unique;
    var (d, t) := FindFun(s.env, f).value;
    var t' := FindFun(s'.env, NameOf(r.uses, id, f)).value.1;
    var n0 := CalleeOk(c, f, l, r);
    DecFits(d, l, r);
    BindTwin(d.formals, vs, t, t', l, r);
    ScopedFormals(d.formals, n0, Bare(t));
    FunsFormals(d.formals, Bare(t), l, r);
    var t1, t1' := State(BindFormals(d.formals, vs, t), s.trace), State(BindFormals(ApplyFormals(d.formals, r), vs, t'), s'.trace);
    hide FunsOk;
    Preserves(o, d.body.exp, PutFormals(d.formals, n0), EnterBare(d.formals, Bare(t)), l, r, t1, t1', fuel);
    var a, b := Eval(o, d.body.exp, t1, fuel), Eval(o, Apply(d.body.exp, r), t1', fuel);
    if a.Normal? {
      PopTwin(d.formals, Bare(t), a.s.env, b.s.env, r);
      GraftTwin(s.env, s'.env, r, f, PopN(a.s.env, |d.formals|), PopN(b.s.env, |d.formals|));
    }
  }

  // ----- whole programs -----

  /** What makes a tree fit to be renamed: it is bound without errors, no use comes before the
      renaming of its definition, and no function that keeps its name is called like a new one. */
  ghost predicate Renamable(e: Exp, l: Links) {
    && Distinct(e) && Linked(e, CLOSED, l) && Clean(Events(e), l) && Backward(Events(e), l, {}, DeclIds(Events(e)))
    && forall v | v in Events(e) && v.Keep? :: v.name !in Rename(e, l, START).decs.Values
  }

  /** Renaming keeps the meaning of a program. */
  lemma RenamePreserves(o: Oracle, e: Exp, l: Links, trace: seq<Event>, fuel: nat)
    requires Renamable(e, l)
    ensures Eval(o, Apply(e, Rename(e, l, START)), State(Empty, trace), fuel) == Eval(o, e, State(Empty, trace), fuel)
  {
    hide Distinct, Backward, Linked, Unique, Declares, NamedAlike, NoDup, DeclIds;
    var r, s := Rename(e, l, START), State(Empty, trace);
    FinalNames(e, l);
    UsesFollowDefinitions(e, l);
    AllFit(Events(e), l, r);
    assert Scoped(CLOSED, Empty);
    Preserves(o, e, CLOSED, Empty, l, r, s, s, fuel);
  }
}
