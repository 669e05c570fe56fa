/** What the resolver guarantees: every use is linked to the declaration in scope, every break it
    binds leaves the innermost loop, and an undeclared name is reported exactly when there is one. */
module Binding {
  import opened Options
  import opened Ast
  import opened Binder
  import opened Nodes

  ghost predicate SameOn(a: Links, b: Links, ids: set<Id>) {
    forall id | id in ids :: Find(a, id) == Find(b, id)
  }

  ghost predicate SameOff(a: Links, b: Links, ids: set<Id>) {
    forall id | id !in ids :: Find(a, id) == Find(b, id)
  }

  ghost predicate Blank(l: Links, ids: set<Id>) {
    l.Keys !! ids
  }

  // ----- linked trees -----

  predicate TypeLinked(t: TypeName, n: Names, l: Links) {
    Find(l, t.id) == if t.name in {"int", "string"} then None else Find(n.types, t.name)
  }

  predicate NameLinked(t: Option<TypeName>, n: Names, l: Links) {
    t.Some? ==> TypeLinked(t.value, n, l)
  }

  predicate Linked(e: Exp, n: Names, l: Links) {
    match e
    case IntExp(_) => true
    case VarExp(id, x) => Find(l, id) == Find(n.vars, x)
    case OpExp(a, _, b) => Linked(a, n, l) && Linked(b, n, l)
    case SeqExp(es) => AllLinked(es, n, l)
    case AssignExp(id, x, r) => Find(l, id) == Find(n.vars, x) && Linked(r, n, l)
    case IfExp(c, t, f) => Linked(c, n, l) && Linked(t, n, l) && (f.SomeExp? ==> Linked(f.exp, n, l))
    case WhileExp(id, c, b) => Linked(c, Enter(n, id), l) && Linked(b, Enter(n, id), l)
    case ForExp(id, d, hi, b) =>
      var n' := PutVar(Enter(n, id), d.name, d.id);
      VarDecLinked(d, n', l) && Linked(hi, n', l) && Linked(b, n', l)
    case BreakExp(id) => id in l ==> n.loop == Some(l[id])
    case CallExp(id, f, args) => Find(l, id) == Find(n.funs, f) && AllLinked(args, n, l)
    case LetExp(sc) => ScopeLinked(sc, n, l)
  }

  predicate AllLinked(es: Exps, n: Names, l: Links) {
    es.ECons? ==> Linked(es.head, n, l) && AllLinked(es.tail, n, l)
  }

  predicate VarDecLinked(d: VarDec, n: Names, l: Links) {
    NameLinked(d.typeName, n, l) && Linked(d.init, n, l)
  }

  predicate ScopeLinked(sc: Scope, n: Names, l: Links) {
    match sc
    case In(b) => Linked(b, n, l)
    case With(VarChunk(d), rest) =>
      var n' := PutVar(n, d.name, d.id);
      VarDecLinked(d, n', l) && ScopeLinked(rest, n', l)
    case With(FunctionChunk(ds), rest) =>
      var n' := AddFirst(ds, n, {});
      DecsLinked(ds, n', l) && ScopeLinked(rest, PutAll(ds, n'), l)
    case With(TypeChunk(ts), rest) =>
      var n' := AddFirstTypes(ts, n, {});
      TypesLinked(ts, n', l) && ScopeLinked(rest, PutAllTypes(ts, n'), l)
  }

  predicate DecsLinked(ds: Decs, n: Names, l: Links) {
    ds.DCons? ==>
      var n' := PutFun(n, ds.head.name, ds.head.id);
      DecLinked(ds.head, n', l) && DecsLinked(ds.tail, n', l)
  }

  predicate DecLinked(d: FunctionDec, n: Names, l: Links) {
    var n' := PutFormals(d.formals, n);
    && FormalsLinked(d.formals, n, l) && NameLinked(d.result, n', l)
    && (d.body.SomeExp? ==> Linked(d.body.exp, n', l))
  }

  predicate FormalsLinked(fs: seq<Formal>, n: Names, l: Links) {
    fs != [] ==>
      var n' := PutVar(n, fs[0].name, fs[0].id);
      TypeLinked(fs[0].typeName, n', l) && FormalsLinked(fs[1..], n', l)
  }

  predicate TypesLinked(ts: seq<TypeDec>, n: Names, l: Links) {
    ts != [] ==>
      var n' := PutType(n, ts[0].name, ts[0].id);
      TyLinked(ts[0].ty, n', l) && TypesLinked(ts[1..], n', l)
  }

  predicate TyLinked(ty: Ty, n: Names, l: Links) {
    match ty
    case NameTy(t) => TypeLinked(t, n, l)
    case RecordTy(fs) => FieldsLinked(fs, n, l)
    case ArrayTy(t) => TypeLinked(t, n, l)
  }

  predicate FieldsLinked(fs: seq<(Symbol, TypeName)>, n: Names, l: Links) {
    fs != [] ==> TypeLinked(fs[0].1, n, l) && FieldsLinked(fs[1..], n, l)
  }

  // ----- a tree stays linked while its own nodes are left alone -----

  lemma KeepLinked(e: Exp, n: Names, l: Links, l': Links)
    requires Linked(e, n, l) && SameOn(l, l', OfExp(e))
    ensures Linked(e, n, l')
  {
    match e
    case IntExp(_) =>
    case VarExp(id, _) => assert Find(l, id) == Find(l', id);
    case OpExp(a, _, b) => KeepLinked(a, n, l, l'); KeepLinked(b, n, l, l');
    case SeqExp(es) => KeepAllLinked(es, n, l, l');
    case AssignExp(id, _, r) => assert Find(l, id) == Find(l', id); KeepLinked(r, n, l, l');
    case IfExp(c, t, f) =>
      KeepLinked(c, n, l, l');
      KeepLinked(t, n, l, l');
      if f.SomeExp? { KeepLinked(f.exp, n, l, l'); }
    case WhileExp(id, c, b) => KeepLinked(c, Enter(n, id), l, l'); KeepLinked(b, Enter(n, id), l, l');
    case ForExp(id, d, hi, b) =>
      var n' := PutVar(Enter(n, id), d.name, d.id);
      KeepVarDecLinked(d, n', l, l');
      KeepLinked(hi, n', l, l');
      KeepLinked(b, n', l, l');
    case BreakExp(id) => assert Find(l, id) == Find(l', id);
    case CallExp(id, _, args) => assert Find(l, id) == Find(l', id); KeepAllLinked(args, n, l, l');
    case LetExp(sc) => KeepScopeLinked(sc, n, l, l');
  }

  lemma KeepAllLinked(es: Exps, n: Names, l: Links, l': Links)
    requires AllLinked(es, n, l) && SameOn(l, l', OfExps(es))
    ensures AllLinked(es, n, l')
  {
    if es.ECons? { KeepLinked(es.head, n, l, l'); KeepAllLinked(es.tail, n, l, l'); }
  }

  lemma KeepVarDecLinked(d: VarDec, n: Names, l: Links, l': Links)
    requires VarDecLinked(d, n, l) && SameOn(l, l', OfVarDec(d))
    ensures VarDecLinked(d, n, l')
  {
    if d.typeName.Some? { assert Find(l, d.typeName.value.id) == Find(l', d.typeName.value.id); }
    KeepLinked(d.init, n, l, l');
  }

  lemma KeepScopeLinked(sc: Scope, n: Names, l: Links, l': Links)
    requires ScopeLinked(sc, n, l) && SameOn(l, l', OfScope(sc))
    ensures ScopeLinked(sc, n, l')
  {
    match sc
    case In(b) => KeepLinked(b, n, l, l');
    case With(VarChunk(d), rest) =>
      var n' := PutVar(n, d.name, d.id);
      KeepVarDecLinked(d, n', l, l');
      KeepScopeLinked(rest, n', l, l');
    case With(FunctionChunk(ds), rest) =>
      var n' := AddFirst(ds, n, {});
      KeepDecsLinked(ds, n', l, l');
      KeepScopeLinked(rest, PutAll(ds, n'), l, l');
    case With(TypeChunk(ts), rest) =>
      var n' := AddFirstTypes(ts, n, {});
      KeepTypesLinked(ts, n', l, l');
      KeepScopeLinked(rest, PutAllTypes(ts, n'), l, l');
  }

  lemma KeepDecsLinked(ds: Decs, n: Names, l: Links, l': Links)
    requires DecsLinked(ds, n, l) && SameOn(l, l', OfDecs(ds))
    ensures DecsLinked(ds, n, l')
  {
    if ds.DCons? {
      KeepDecLinked(ds.head, PutFun(n, ds.head.name, ds.head.id), l, l');
      KeepDecsLinked(ds.tail, PutFun(n, ds.head.name, ds.head.id), l, l');
    }
  }

  lemma KeepDecLinked(d: FunctionDec, n: Names, l: Links, l': Links)
    requires DecLinked(d, n, l) && SameOn(l, l', OfDec(d))
    ensures DecLinked(d, n, l')
  {
    KeepFormalsLinked(d.formals, n, l, l');
    if d.result.Some? { assert Find(l, d.result.value.id) == Find(l', d.result.value.id); }
    if d.body.SomeExp? { KeepLinked(d.body.exp, PutFormals(d.formals, n), l, l'); }
  }

  lemma KeepFormalsLinked(fs: seq<Formal>, n: Names, l: Links, l': Links)
    requires FormalsLinked(fs, n, l) && SameOn(l, l', OfFormals(fs))
    ensures FormalsLinked(fs, n, l')
  {
    if fs != [] {
      assert Find(l, fs[0].typeName.id) == Find(l', fs[0].typeName.id);
      KeepFormalsLinked(fs[1..], PutVar(n, fs[0].name, fs[0].id), l, l');
    }
  }

  lemma KeepTypesLinked(ts: seq<TypeDec>, n: Names, l: Links, l': Links)
    requires TypesLinked(ts, n, l) && SameOn(l, l', OfTypes(ts))
    ensures TypesLinked(ts, n, l')
  {
    if ts != [] {
      var n' := PutType(n, ts[0].name, ts[0].id);
      match ts[0].ty {
        case NameTy(t) => assert Find(l, t.id) == Find(l', t.id);
        case RecordTy(fs) => KeepFieldsLinked(fs, n', l, l');
        case ArrayTy(t) => assert Find(l, t.id) == Find(l', t.id);
      }
      KeepTypesLinked(ts[1..], n', l, l');
    }
  }

  lemma KeepFieldsLinked(fs: seq<(Symbol, TypeName)>, n: Names, l: Links, l': Links)
    requires FieldsLinked(fs, n, l) && SameOn(l, l', OfFields(fs))
    ensures FieldsLinked(fs, n, l')
  {
    if fs != [] {
      assert Find(l, fs[0].1.id) == Find(l', fs[0].1.id);
      KeepFieldsLinked(fs[1..], n, l, l');
    }
  }

  // ----- the resolver links what it visits and nothing else -----

  lemma {:induction false} ResolveLinks(e: Exp, n: Names, b: Bound)
    requires Distinct(e) && Blank(b.links, OfExp(e))
    ensures Linked(e, n, Resolve(e, n, b).links) && SameOff(b.links, Resolve(e, n, b).links, OfExp(e))
    decreases e, 1
  {
    match e
    case IntExp(_) =>
    case VarExp(id, x) => assert Find(b.links, id) == None;
    case OpExp(_, _, _) => ResolveOpLinks(e, n, b);
    case SeqExp(es) => ResolveAllLinks(es, n, b);
    case AssignExp(_, _, _) => ResolveAssignLinks(e, n, b);
    case IfExp(c, t, f) => ResolveIfLinks(e, n, b);
    case WhileExp(_, _, _) => ResolveWhileLinks(e, n, b);
    case ForExp(_, _, _, _) => ResolveForLinks(e, n, b);
    case BreakExp(id) => assert Find(b.links, id) == None;
    case CallExp(_, _, _) => ResolveCallLinks(e, n, b);
    case LetExp(sc) => ResolveScopeLinks(sc, n, b);
  }

  lemma {:induction false} ResolveOpLinks(e: Exp, n: Names, b: Bound)
    requires e.OpExp? && Distinct(e) && Blank(b.links, OfExp(e))
    ensures Linked(e, n, Resolve(e, n, b).links) && SameOff(b.links, Resolve(e, n, b).links, OfExp(e))
    decreases e, 0
  {
    ResolveLinks(e.left, n, b);
    var b' := Resolve(e.left, n, b);
    ResolveLinks(e.right, n, b');
    KeepLinked(e.left, n, b'.links, Resolve(e.right, n, b').links);
  }

  lemma {:induction false} ResolveAssignLinks(e: Exp, n: Names, b: Bound)
    requires e.AssignExp? && Distinct(e) && Blank(b.links, OfExp(e))
    ensures Linked(e, n, Resolve(e, n, b).links) && SameOff(b.links, Resolve(e, n, b).links, OfExp(e))
    decreases e, 0
  {
    assert Find(b.links, e.id) == None;
    var b' := UseVar(e.id, e.name, n, b);
    ResolveLinks(e.exp, n, b');
    assert Find(b'.links, e.id) == Find(Resolve(e.exp, n, b').links, e.id);
  }

  lemma {:induction false} ResolveIfLinks(e: Exp, n: Names, b: Bound)
    requires e.IfExp? && Distinct(e) && Blank(b.links, OfExp(e))
    ensures Linked(e, n, Resolve(e, n, b).links) && SameOff(b.links, Resolve(e, n, b).links, OfExp(e))
    decreases e, 0
  {
    ResolveLinks(e.test, n, b);
    var b1 := Resolve(e.test, n, b);
    ResolveLinks(e.thn, n, b1);
    var b2 := Resolve(e.thn, n, b1);
    KeepLinked(e.test, n, b1.links, b2.links);
    if e.els.SomeExp? {
      ResolveLinks(e.els.exp, n, b2);
      var b3 := Resolve(e.els.exp, n, b2);
      KeepLinked(e.test, n, b2.links, b3.links);
      KeepLinked(e.thn, n, b2.links, b3.links);
    }
  }

  lemma {:induction false} ResolveWhileLinks(e: Exp, n: Names, b: Bound)
    requires e.WhileExp? && Distinct(e) && Blank(b.links, OfExp(e))
    ensures Linked(e, n, Resolve(e, n, b).links) && SameOff(b.links, Resolve(e, n, b).links, OfExp(e))
    decreases e, 0
  {
    var n' := Enter(n, e.id);
    var b0 := b.(inLoop := true);
    ResolveLinks(e.test, n', b0);
    var b1 := Resolve(e.test, n', b0).(inLoop := false);
    ResolveLinks(e.body, n', b1);
    KeepLinked(e.test, n', b1.links, Resolve(e.body, n', b1).links);
  }

  lemma {:induction false} ResolveCallLinks(e: Exp, n: Names, b: Bound)
    requires e.CallExp? && Distinct(e) && Blank(b.links, OfExp(e))
    ensures Linked(e, n, Resolve(e, n, b).links) && SameOff(b.links, Resolve(e, n, b).links, OfExp(e))
    decreases e, 0
  {
    assert Find(b.links, e.id) == None;
    var b' := UseFun(e.id, e.name, n, b).(inFormals := true);
    ResolveAllLinks(e.args, n, b');
    assert Find(b'.links, e.id) == Find(ResolveAll(e.args, n, b').links, e.id);
  }

  lemma {:induction false} ResolveForLinks(e: Exp, n: Names, b: Bound)
    requires e.ForExp? && Distinct(e) && Blank(b.links, OfExp(e))
    ensures Linked(e, n, Resolve(e, n, b).links) && SameOff(b.links, Resolve(e, n, b).links, OfExp(e))
    decreases e, 0
  {
    var d, n' := e.index, PutVar(Enter(n, e.id), e.index.name, e.index.id);
    var b0 := b.(inLoop := true);
    ResolveVarDecLinks(d, n', b0);
    var b1 := ResolveVarDec(d, n', b0);
    ResolveLinks(e.hi, n', b1);
    var b2 := Resolve(e.hi, n', b1).(inLoop := false);
    KeepVarDecLinked(d, n', b1.links, b2.links);
    ResolveLinks(e.body, n', b2);
    var b3 := Resolve(e.body, n', b2);
    KeepVarDecLinked(d, n', b2.links, b3.links);
    KeepLinked(e.hi, n', b2.links, b3.links);
  }

  lemma {:induction false} ResolveAllLinks(es: Exps, n: Names, b: Bound)
    requires DistinctExps(es) && Blank(b.links, OfExps(es))
    ensures AllLinked(es, n, ResolveAll(es, n, b).links) && SameOff(b.links, ResolveAll(es, n, b).links, OfExps(es))
  {
    if es.ECons? {
      ResolveLinks(es.head, n, b);
      var b' := Resolve(es.head, n, b);
      ResolveAllLinks(es.tail, n, b');
      KeepLinked(es.head, n, b'.links, ResolveAll(es.tail, n, b').links);
    }
  }

  lemma UseTypeLinks(t: TypeName, n: Names, b: Bound)
    requires Find(b.links, t.id) == None
    ensures TypeLinked(t, n, UseType(t, n, b).links) && SameOff(b.links, UseType(t, n, b).links, {t.id})
  {}

  lemma {:induction false} ResolveVarDecLinks(d: VarDec, n: Names, b: Bound)
    requires DistinctVarDec(d) && Blank(b.links, OfVarDec(d))
    ensures VarDecLinked(d, n, ResolveVarDec(d, n, b).links)
    ensures SameOff(b.links, ResolveVarDec(d, n, b).links, OfVarDec(d))
  {
    if d.typeName.Some? {
      var t := d.typeName.value;
      assert Find(b.links, t.id) == None;
      UseTypeLinks(t, n, b);
      var b' := UseType(t, n, b).(inVarDec := true);
      ResolveLinks(d.init, n, b');
      assert Find(b'.links, t.id) == Find(Resolve(d.init, n, b').links, t.id);
    } else {
      ResolveLinks(d.init, n, b.(inVarDec := true));
    }
  }

  lemma {:induction false} ResolveScopeLinks(sc: Scope, n: Names, b: Bound)
    requires DistinctScope(sc) && Blank(b.links, OfScope(sc))
    ensures ScopeLinked(sc, n, ResolveScope(sc, n, b).links)
    ensures SameOff(b.links, ResolveScope(sc, n, b).links, OfScope(sc))
  {
    match sc
    case In(body) => ResolveLinks(body, n, b);
    case With(VarChunk(d), rest) =>
      var n' := PutVar(n, d.name, d.id);
      ResolveVarDecLinks(d, n', b);
      var b' := ResolveVarDec(d, n', b);
      ResolveScopeLinks(rest, n', b');
      KeepVarDecLinked(d, n', b'.links, ResolveScope(rest, n', b').links);
    case With(FunctionChunk(ds), rest) =>
      var n' := AddFirst(ds, n, {});
      var b0 := b.(redeclared := b.redeclared + Repeats(ds, {}));
      ResolveDecsLinks(ds, n', b0);
      var b' := ResolveDecs(ds, n', b0);
      ResolveScopeLinks(rest, PutAll(ds, n'), b');
      KeepDecsLinked(ds, n', b'.links, ResolveScope(rest, PutAll(ds, n'), b').links);
    case With(TypeChunk(ts), rest) =>
      var n' := AddFirstTypes(ts, n, {});
      var b0 := b.(redeclared := b.redeclared + RepeatedTypes(ts, {}));
      ResolveTypesLinks(ts, n', b0);
      var b' := ResolveTypes(ts, n', b0);
      ResolveScopeLinks(rest, PutAllTypes(ts, n'), b');
      KeepTypesLinked(ts, n', b'.links, ResolveScope(rest, PutAllTypes(ts, n'), b').links);
  }

  lemma {:induction false} ResolveDecsLinks(ds: Decs, n: Names, b: Bound)
    requires DistinctDecs(ds) && Blank(b.links, OfDecs(ds))
    ensures DecsLinked(ds, n, ResolveDecs(ds, n, b).links)
    ensures SameOff(b.links, ResolveDecs(ds, n, b).links, OfDecs(ds))
  {
    if ds.DCons? {
      var d, n' := ds.head, PutFun(n, ds.head.name, ds.head.id);
      ResolveDecLinks(d, n', b);
      var b' := ResolveDec(d, n', b);
      ResolveDecsLinks(ds.tail, n', b');
      var l := ResolveDecs(ds.tail, n', b').links;
      KeepDecLinked(d, n', b'.links, l);
    }
  }

  lemma {:induction false} ResolveDecLinks(d: FunctionDec, n: Names, b: Bound)
    requires DistinctDec(d) && Blank(b.links, OfDec(d))
    ensures DecLinked(d, n, ResolveDec(d, n, b).links)
    ensures SameOff(b.links, ResolveDec(d, n, b).links, OfDec(d))
  {
    ResolveHeaderLinks(d, n, b);
    var b1 := ResolveHeader(d, n, NoteMain(d, b));
    var n' := PutFormals(d.formals, n);
    var b2 := if d.result.Some? then UseType(d.result.value, n', b1) else b1;
    if d.result.Some? { UseTypeLinks(d.result.value, n', b1); }
    KeepFormalsLinked(d.formals, n, b1.links, b2.links);
    if d.body.SomeExp? {
      ResolveLinks(d.body.exp, n', b2);
      var l := Resolve(d.body.exp, n', b2).links;
      KeepFormalsLinked(d.formals, n, b2.links, l);
      KeepNameLinked(d.result, n', b2.links, l);
    }
  }

  lemma KeepNameLinked(t: Option<TypeName>, n: Names, l: Links, l': Links)
    requires NameLinked(t, n, l) && SameOn(l, l', OfName(t))
    ensures NameLinked(t, n, l')
  {
    if t.Some? { assert Find(l, t.value.id) == Find(l', t.value.id); }
  }

  lemma ResolveHeaderLinks(d: FunctionDec, n: Names, b: Bound)
    requires DistinctDec(d) && Blank(b.links, OfDec(d))
    ensures var b' := ResolveHeader(d, n, NoteMain(d, b));
      && FormalsLinked(d.formals, n, b'.links) && SameOff(b.links, b'.links, OfFormals(d.formals))
      && (d.result.Some? ==> Find(b'.links, d.result.value.id) == None)
      && (d.body.SomeExp? ==> Blank(b'.links, OfExp(d.body.exp)))
  {
    var b0 := NoteMain(d, b);
    ResolveFormalsLinks(d.formals, n,
      b0.(redeclared := b0.redeclared + RepeatedFormals(d.formals, {}), inFormals := true));
    var b' := ResolveHeader(d, n, b0);
    if d.result.Some? { assert Find(b.links, d.result.value.id) == Find(b'.links, d.result.value.id); }
    if d.body.SomeExp? {
      forall id | id in OfExp(d.body.exp) ensures id !in b'.links {
        assert Find(b.links, id) == Find(b'.links, id);
      }
    }
  }

  lemma {:induction false} ResolveFormalsLinks(fs: seq<Formal>, n: Names, b: Bound)
    requires DistinctFormals(fs) && Blank(b.links, OfFormals(fs))
    ensures FormalsLinked(fs, n, ResolveFormals(fs, n, b).links)
    ensures SameOff(b.links, ResolveFormals(fs, n, b).links, OfFormals(fs))
  {
    if fs != [] {
      var t, n' := fs[0].typeName, PutVar(n, fs[0].name, fs[0].id);
      assert Find(b.links, t.id) == None;
      UseTypeLinks(t, n', b);
      var b' := UseType(t, n', b).(inVarDec := false);
      ResolveFormalsLinks(fs[1..], n', b');
      assert Find(b'.links, t.id) == Find(ResolveFormals(fs[1..], n', b').links, t.id);
    }
  }

  lemma {:induction false} ResolveTypesLinks(ts: seq<TypeDec>, n: Names, b: Bound)
    requires DistinctTypes(ts) && Blank(b.links, OfTypes(ts))
    ensures TypesLinked(ts, n, ResolveTypes(ts, n, b).links)
    ensures SameOff(b.links, ResolveTypes(ts, n, b).links, OfTypes(ts))
  {
    if ts != [] {
      var ty, n' := ts[0].ty, PutType(n, ts[0].name, ts[0].id);
      ResolveTyLinks(ty, n', b);
      var b' := ResolveTy(ty, n', b);
      ResolveTypesLinks(ts[1..], n', b');
      KeepTyLinked(ty, n', b'.links, ResolveTypes(ts[1..], n', b').links);
    }
  }

  lemma KeepTyLinked(ty: Ty, n: Names, l: Links, l': Links)
    requires TyLinked(ty, n, l) && SameOn(l, l', OfTy(ty))
    ensures TyLinked(ty, n, l')
  {
    match ty
    case NameTy(t) => assert Find(l, t.id) == Find(l', t.id);
    case RecordTy(fs) => KeepFieldsLinked(fs, n, l, l');
    case ArrayTy(t) => assert Find(l, t.id) == Find(l', t.id);
  }

  lemma {:induction false} ResolveTyLinks(ty: Ty, n: Names, b: Bound)
    requires (ty.RecordTy? ==> DistinctFields(ty.fields)) && Blank(b.links, OfTy(ty))
    ensures TyLinked(ty, n, ResolveTy(ty, n, b).links) && SameOff(b.links, ResolveTy(ty, n, b).links, OfTy(ty))
  {
    match ty
    case NameTy(t) => assert Find(b.links, t.id) == None; UseTypeLinks(t, n, b);
    case RecordTy(fs) => ResolveFieldsLinks(fs, n, b);
    case ArrayTy(t) => assert Find(b.links, t.id) == None; UseTypeLinks(t, n, b);
  }

  lemma {:induction false} ResolveFieldsLinks(fs: seq<(Symbol, TypeName)>, n: Names, b: Bound)
    requires DistinctFields(fs) && Blank(b.links, OfFields(fs))
    ensures FieldsLinked(fs, n, ResolveFields(fs, n, b).links)
    ensures SameOff(b.links, ResolveFields(fs, n, b).links, OfFields(fs))
  {
    if fs != [] {
      assert Find(b.links, fs[0].1.id) == None;
      UseTypeLinks(fs[0].1, n, b);
      var b' := UseType(fs[0].1, n, b);
      ResolveFieldsLinks(fs[1..], n, b');
      assert Find(b'.links, fs[0].1.id) == Find(ResolveFields(fs[1..], n, b').links, fs[0].1.id);
    }
  }

  // ----- undeclared names -----

  function MissingType(t: TypeName, n: Names): nat { if t.name in {"int", "string"} || t.name in n.types then 0 else 1 }

  function MissingName(t: Option<TypeName>, n: Names): nat { if t.Some? then MissingType(t.value, n) else 0 }

  /** How many uses in e name something that is not in scope. */
  function Missing(e: Exp, n: Names): nat {
    match e
    case IntExp(_) => 0
    case VarExp(_, x) => if x in n.vars then 0 else 1
    case OpExp(l, _, r) => Missing(l, n) + Missing(r, n)
    case SeqExp(es) => MissingAll(es, n)
    case AssignExp(_, x, r) => (if x in n.vars then 0 else 1) + Missing(r, n)
    case IfExp(c, t, f) => Missing(c, n) + Missing(t, n) + (if f.SomeExp? then Missing(f.exp, n) else 0)
    case WhileExp(id, c, b) => Missing(c, Enter(n, id)) + Missing(b, Enter(n, id))
    case ForExp(id, d, hi, b) =>
      var n' := PutVar(Enter(n, id), d.name, d.id);
      MissingVarDec(d, n') + Missing(hi, n') + Missing(b, n')
    case BreakExp(_) => 0
    case CallExp(_, f, args) => (if f in n.funs then 0 else 1) + MissingAll(args, n)
    case LetExp(sc) => MissingScope(sc, n)
  }

  function MissingAll(es: Exps, n: Names): nat {
    if es.ENil? then 0 else Missing(es.head, n) + MissingAll(es.tail, n)
  }

  function MissingVarDec(d: VarDec, n: Names): nat { MissingName(d.typeName, n) + Missing(d.init, n) }

  function MissingScope(sc: Scope, n: Names): nat {
    match sc
    case In(b) => Missing(b, n)
    case With(VarChunk(d), rest) =>
      var n' := PutVar(n, d.name, d.id);
      MissingVarDec(d, n') + MissingScope(rest, n')
    case With(FunctionChunk(ds), rest) =>
      var n' := AddFirst(ds, n, {});
      MissingDecs(ds, n') + MissingScope(rest, PutAll(ds, n'))
    case With(TypeChunk(ts), rest) =>
      var n' := AddFirstTypes(ts, n, {});
      MissingTypes(ts, n') + MissingScope(rest, PutAllTypes(ts, n'))
  }

  function MissingDecs(ds: Decs, n: Names): nat {
    if ds.DNil? then 0 else
    var n' := PutFun(n, ds.head.name, ds.head.id);
    MissingDec(ds.head, n') + MissingDecs(ds.tail, n')
  }

  function MissingDec(d: FunctionDec, n: Names): nat {
    var n' := PutFormals(d.formals, n);
    MissingFormals(d.formals, n) + MissingName(d.result, n')
    + (if d.body.SomeExp? then Missing(d.body.exp, n') else 0)
  }

  function MissingFormals(fs: seq<Formal>, n: Names): nat {
    if fs == [] then 0 else
    var n' := PutVar(n, fs[0].name, fs[0].id);
    MissingType(fs[0].typeName, n') + MissingFormals(fs[1..], n')
  }

  function MissingTypes(ts: seq<TypeDec>, n: Names): nat {
    if ts == [] then 0 else
    var n' := PutType(n, ts[0].name, ts[0].id);
    MissingTy(ts[0].ty, n') + MissingTypes(ts[1..], n')
  }

  function MissingTy(ty: Ty, n: Names): nat {
    match ty
    case NameTy(t) => MissingType(t, n)
    case RecordTy(fs) => MissingFields(fs, n)
    case ArrayTy(t) => MissingType(t, n)
  }

  function MissingFields(fs: seq<(Symbol, TypeName)>, n: Names): nat {
    if fs == [] then 0 else MissingType(fs[0].1, n) + MissingFields(fs[1..], n)
  }

  /** One undeclared-name error for each use that is out of scope, and no other. */
  lemma {:induction false} UndeclaredExact(e: Exp, n: Names, b: Bound)
    ensures Resolve(e, n, b).undeclared == b.undeclared + Missing(e, n)
    decreases e, 1
  {
    match e
    case IntExp(_) =>
    case VarExp(_, _) =>
    case BreakExp(_) =>
    case OpExp(l, _, r) => UndeclaredExact(l, n, b); UndeclaredExact(r, n, Resolve(l, n, b));
    case SeqExp(es) => UndeclaredAll(es, n, b);
    case AssignExp(id, x, r) => UndeclaredExact(r, n, UseVar(id, x, n, b));
    case IfExp(_, _, _) => UndeclaredBranches(e, n, b);
    case WhileExp(_, _, _) => UndeclaredLoops(e, n, b);
    case ForExp(_, _, _, _) => UndeclaredLoops(e, n, b);
    case CallExp(id, f, args) => UndeclaredAll(args, n, UseFun(id, f, n, b).(inFormals := true));
    case LetExp(sc) => UndeclaredScope(sc, n, b);
  }

  lemma {:induction false} UndeclaredBranches(e: Exp, n: Names, b: Bound)
    requires e.IfExp?
    ensures Resolve(e, n, b).undeclared == b.undeclared + Missing(e, n)
    decreases e, 0
  {
    UndeclaredExact(e.test, n, b);
    UndeclaredExact(e.thn, n, Resolve(e.test, n, b));
    if e.els.SomeExp? { UndeclaredExact(e.els.exp, n, Resolve(e.thn, n, Resolve(e.test, n, b))); }
  }

  lemma {:induction false} UndeclaredLoops(e: Exp, n: Names, b: Bound)
    requires e.WhileExp? || e.ForExp?
    ensures Resolve(e, n, b).undeclared == b.undeclared + Missing(e, n)
    decreases e, 0
  {
    var b0 := b.(inLoop := true);
    if e.WhileExp? {
      var n' := Enter(n, e.id);
      UndeclaredExact(e.test, n', b0);
      UndeclaredExact(e.body, n', Resolve(e.test, n', b0).(inLoop := false));
    } else {
      var n' := PutVar(Enter(n, e.id), e.index.name, e.index.id);
      UndeclaredVarDec(e.index, n', b0);
      var b1 := ResolveVarDec(e.index, n', b0);
      UndeclaredExact(e.hi, n', b1);
      UndeclaredExact(e.body, n', Resolve(e.hi, n', b1).(inLoop := false));
    }
  }

  lemma {:induction false} UndeclaredAll(es: Exps, n: Names, b: Bound)
    ensures ResolveAll(es, n, b).undeclared == b.undeclared + MissingAll(es, n)
  {
    if es.ECons? { UndeclaredExact(es.head, n, b); UndeclaredAll(es.tail, n, Resolve(es.head, n, b)); }
  }

  lemma {:induction false} UndeclaredVarDec(d: VarDec, n: Names, b: Bound)
    ensures ResolveVarDec(d, n, b).undeclared == b.undeclared + MissingVarDec(d, n)
  {
    var b' := if d.typeName.Some? then UseType(d.typeName.value, n, b) else b;
    UndeclaredExact(d.init, n, b'.(inVarDec := true));
  }

  lemma {:induction false} UndeclaredScope(sc: Scope, n: Names, b: Bound)
    ensures ResolveScope(sc, n, b).undeclared == b.undeclared + MissingScope(sc, n)
  {
    match sc
    case In(e) => UndeclaredExact(e, n, b);
    case With(VarChunk(d), rest) =>
      var n' := PutVar(n, d.name, d.id);
      UndeclaredVarDec(d, n', b);
      UndeclaredScope(rest, n', ResolveVarDec(d, n', b));
    case With(FunctionChunk(ds), rest) =>
      var n', b0 := AddFirst(ds, n, {}), b.(redeclared := b.redeclared + Repeats(ds, {}));
      UndeclaredDecs(ds, n', b0);
      UndeclaredScope(rest, PutAll(ds, n'), ResolveDecs(ds, n', b0));
    case With(TypeChunk(ts), rest) =>
      var n', b0 := AddFirstTypes(ts, n, {}), b.(redeclared := b.redeclared + RepeatedTypes(ts, {}));
      UndeclaredTypes(ts, n', b0);
      UndeclaredScope(rest, PutAllTypes(ts, n'), ResolveTypes(ts, n', b0));
  }

  lemma {:induction false} UndeclaredDecs(ds: Decs, n: Names, b: Bound)
    ensures ResolveDecs(ds, n, b).undeclared == b.undeclared + MissingDecs(ds, n)
  {
    if ds.DCons? {
      var n' := PutFun(n, ds.head.name, ds.head.id);
      UndeclaredDec(ds.head, n', b);
      UndeclaredDecs(ds.tail, n', ResolveDec(ds.head, n', b));
    }
  }

  lemma {:induction false} UndeclaredDec(d: FunctionDec, n: Names, b: Bound)
    ensures ResolveDec(d, n, b).undeclared == b.undeclared + MissingDec(d, n)
  {
    var b0 := NoteMain(d, b);
    UndeclaredFormals(d.formals, n, b0.(redeclared := b0.redeclared + RepeatedFormals(d.formals, {}), inFormals := true));
    var n', b1 := PutFormals(d.formals, n), ResolveHeader(d, n, b0);
    var b2 := if d.result.Some? then UseType(d.result.value, n', b1) else b1;
    if d.body.SomeExp? { UndeclaredExact(d.body.exp, n', b2); }
  }

  lemma {:induction false} UndeclaredFormals(fs: seq<Formal>, n: Names, b: Bound)
    ensures ResolveFormals(fs, n, b).undeclared == b.undeclared + MissingFormals(fs, n)
  {
    if fs != [] {
      var n' := PutVar(n, fs[0].name, fs[0].id);
      UndeclaredFormals(fs[1..], n', UseType(fs[0].typeName, n', b).(inVarDec := false));
    }
  }

  lemma {:induction false} UndeclaredTypes(ts: seq<TypeDec>, n: Names, b: Bound)
    ensures ResolveTypes(ts, n, b).undeclared == b.undeclared + MissingTypes(ts, n)
  {
    if ts != [] {
      var n' := PutType(n, ts[0].name, ts[0].id);
      UndeclaredTy(ts[0].ty, n', b);
      UndeclaredTypes(ts[1..], n', ResolveTy(ts[0].ty, n', b));
    }
  }

  lemma UndeclaredTy(ty: Ty, n: Names, b: Bound)
    ensures ResolveTy(ty, n, b).undeclared == b.undeclared + MissingTy(ty, n)
  {
    if ty.RecordTy? { UndeclaredFields(ty.fields, n, b); }
  }

  lemma {:induction false} UndeclaredFields(fs: seq<(Symbol, TypeName)>, n: Names, b: Bound)
    ensures ResolveFields(fs, n, b).undeclared == b.undeclared + MissingFields(fs, n)
  {
    if fs != [] { UndeclaredFields(fs[1..], n, UseType(fs[0].1, n, b)); }
  }

  // ----- what a chunk leaves in scope as it was -----

  lemma AddFirstVars(ds: Decs, n: Names, seen: set<Symbol>)
    ensures AddFirst(ds, n, seen).vars == n.vars
  {}

  lemma PutAllVars(ds: Decs, n: Names)
    ensures PutAll(ds, n).vars == n.vars
  {}

  lemma AddFirstTypesVars(ts: seq<TypeDec>, n: Names, seen: set<Symbol>)
    ensures AddFirstTypes(ts, n, seen).vars == n.vars && AddFirstTypes(ts, n, seen).funs == n.funs
  {}

  lemma PutAllTypesVars(ts: seq<TypeDec>, n: Names)
    ensures PutAllTypes(ts, n).vars == n.vars && PutAllTypes(ts, n).funs == n.funs
  {}
}
