/** Which redeclarations the binder reports, which breaks it refuses, and what a chunk puts in
    scope, all told by position in the tree. */
module BindErrors {
  import opened Options
  import opened Ast
  import opened Nodes
  import opened Binder
  import opened Binding

  // ----- repeated names -----

  function DecNames(ds: Decs): seq<Symbol> { if ds.DNil? then [] else [ds.head.name] + DecNames(ds.tail) }
  function FormalNames(fs: seq<Formal>): seq<Symbol> { seq(|fs|, i requires 0 <= i < |fs| => fs[i].name) }
  function TypeNames(ts: seq<TypeDec>): seq<Symbol> { seq(|ts|, i requires 0 <= i < |ts| => ts[i].name) }

  /** The positions of names that occur before. */
  function Repeated(xs: seq<Symbol>): set<int> { set i | 0 <= i < |xs| && xs[i] in xs[..i] }

  /** Or that are in seen. */
  function RepeatedFrom(xs: seq<Symbol>, seen: set<Symbol>): set<int> {
    set i | 0 <= i < |xs| && (xs[i] in seen || xs[i] in xs[..i])
  }

  predicate AllDifferent(xs: seq<Symbol>) { forall i, j | 0 <= i < j < |xs| :: xs[i] != xs[j] }

  lemma DifferentExactly(xs: seq<Symbol>)
    ensures |Repeated(xs)| == 0 <==> AllDifferent(xs)
  {
    if AllDifferent(xs) {
      assert Repeated(xs) == {};
    } else {
      var i, j :| 0 <= i < j < |xs| && xs[i] == xs[j];
      assert xs[..j][i] == xs[j];
      assert j in Repeated(xs);
    }
  }

  function Count(xs: seq<Symbol>, seen: set<Symbol>): nat {
    if xs == [] then 0 else (if xs[0] in seen then 1 else 0) + Count(xs[1..], seen + {xs[0]})
  }

  lemma {:induction false} CountLast(xs: seq<Symbol>, x: Symbol, seen: set<Symbol>)
    ensures Count(xs + [x], seen) == Count(xs, seen) + if x in seen || x in xs then 1 else 0
    decreases |xs|
  {
    if xs == [] {
      assert (xs + [x])[1..] == [];
    } else {
      assert (xs + [x])[1..] == xs[1..] + [x];
      CountLast(xs[1..], x, seen + {xs[0]});
      assert x in xs <==> x == xs[0] || x in xs[1..];
    }
  }

  lemma {:induction false} CountPositions(xs: seq<Symbol>, seen: set<Symbol>)
    ensures Count(xs, seen) == |RepeatedFrom(xs, seen)|
    decreases |xs|
  {
    if xs == [] {
      assert RepeatedFrom(xs, seen) == {};
    } else {
      var n := |xs| - 1;
      var ys := xs[..n];
      assert xs == ys + [xs[n]];
      CountPositions(ys, seen);
      CountLast(ys, xs[n], seen);
      forall i | 0 <= i < n ensures i in RepeatedFrom(xs, seen) <==> i in RepeatedFrom(ys, seen) {
        assert ys[..i] == xs[..i];
      }
      assert RepeatedFrom(xs, seen) == RepeatedFrom(ys, seen) + if xs[n] in seen || xs[n] in ys then {n} else {};
    }
  }

  lemma {:induction false} DecsCounted(ds: Decs, seen: set<Symbol>)
    ensures Repeats(ds, seen) == Count(DecNames(ds), seen)
    decreases ds
  {
    if ds.DCons? { DecsCounted(ds.tail, seen + {ds.head.name}); }
  }

  lemma {:induction false} FormalsCounted(fs: seq<Formal>, seen: set<Symbol>)
    ensures RepeatedFormals(fs, seen) == Count(FormalNames(fs), seen)
    decreases |fs|
  {
    if fs != [] {
      FormalsCounted(fs[1..], seen + {fs[0].name});
      assert FormalNames(fs)[1..] == FormalNames(fs[1..]);
    }
  }

  lemma {:induction false} TypesCounted(ts: seq<TypeDec>, seen: set<Symbol>)
    ensures RepeatedTypes(ts, seen) == Count(TypeNames(ts), seen)
    decreases |ts|
  {
    if ts != [] {
      TypesCounted(ts[1..], seen + {ts[0].name});
      assert TypeNames(ts)[1..] == TypeNames(ts[1..]);
    }
  }

  lemma FromNothing(xs: seq<Symbol>)
    ensures RepeatedFrom(xs, {}) == Repeated(xs)
  {}

  /** One error for each position whose name occurs before; none exactly if all names differ. */
  lemma RepeatsExact(ds: Decs)
    ensures Repeats(ds, {}) == |Repeated(DecNames(ds))| && (Repeats(ds, {}) == 0 <==> AllDifferent(DecNames(ds)))
  {
    DecsCounted(ds, {});
    CountPositions(DecNames(ds), {});
    FromNothing(DecNames(ds));
    DifferentExactly(DecNames(ds));
  }

  lemma RepeatedFormalsExact(fs: seq<Formal>)
    ensures RepeatedFormals(fs, {}) == |Repeated(FormalNames(fs))| && (RepeatedFormals(fs, {}) == 0 <==> AllDifferent(FormalNames(fs)))
  {
    hide AllDifferent, FormalNames, RepeatedFormals;
    FormalsCounted(fs, {});
    CountPositions(FormalNames(fs), {});
    FromNothing(FormalNames(fs));
    DifferentExactly(FormalNames(fs));
  }

  lemma RepeatedTypesExact(ts: seq<TypeDec>)
    ensures RepeatedTypes(ts, {}) == |Repeated(TypeNames(ts))| && (RepeatedTypes(ts, {}) == 0 <==> AllDifferent(TypeNames(ts)))
  {
    hide AllDifferent, TypeNames, RepeatedTypes;
    TypesCounted(ts, {});
    CountPositions(TypeNames(ts), {});
    FromNothing(TypeNames(ts));
    DifferentExactly(TypeNames(ts));
  }

  // ----- redeclarations -----

  /** How many declarations of e repeat a name of their chunk, or of their list of formals. */
  function Repetitions(e: Exp): nat {
    match e
    case IntExp(_) => 0
    case VarExp(_, _) => 0
    case OpExp(l, _, r) => Repetitions(l) + Repetitions(r)
    case SeqExp(es) => RepetitionsAll(es)
    case AssignExp(_, _, r) => Repetitions(r)
    case IfExp(c, t, f) => Repetitions(c) + Repetitions(t) + if f.SomeExp? then Repetitions(f.exp) else 0
    case WhileExp(_, c, b) => Repetitions(c) + Repetitions(b)
    case ForExp(_, d, hi, b) => Repetitions(d.init) + Repetitions(hi) + Repetitions(b)
    case BreakExp(_) => 0
    case CallExp(_, _, args) => RepetitionsAll(args)
    case LetExp(sc) => RepetitionsScope(sc)
  }

  function RepetitionsAll(es: Exps): nat { if es.ENil? then 0 else Repetitions(es.head) + RepetitionsAll(es.tail) }

  function RepetitionsScope(sc: Scope): nat {
    match sc
    case In(b) => Repetitions(b)
    case With(VarChunk(d), rest) => Repetitions(d.init) + RepetitionsScope(rest)
    case With(FunctionChunk(ds), rest) => |Repeated(DecNames(ds))| + RepetitionsDecs(ds) + RepetitionsScope(rest)
    case With(TypeChunk(ts), rest) => |Repeated(TypeNames(ts))| + RepetitionsScope(rest)
  }

  function RepetitionsDecs(ds: Decs): nat {
    if ds.DNil? then 0
    else
      var d := ds.head;
      |Repeated(FormalNames(d.formals))| + (if d.body.SomeExp? then Repetitions(d.body.exp) else 0) + RepetitionsDecs(ds.tail)
  }

  /** How many functions of e are called `_main`. */
  function Mains(e: Exp): nat {
    match e
    case IntExp(_) => 0
    case VarExp(_, _) => 0
    case OpExp(l, _, r) => Mains(l) + Mains(r)
    case SeqExp(es) => MainsAll(es)
    case AssignExp(_, _, r) => Mains(r)
    case IfExp(c, t, f) => Mains(c) + Mains(t) + if f.SomeExp? then Mains(f.exp) else 0
    case WhileExp(_, c, b) => Mains(c) + Mains(b)
    case ForExp(_, d, hi, b) => Mains(d.init) + Mains(hi) + Mains(b)
    case BreakExp(_) => 0
    case CallExp(_, _, args) => MainsAll(args)
    case LetExp(sc) => MainsScope(sc)
  }

  function MainsAll(es: Exps): nat { if es.ENil? then 0 else Mains(es.head) + MainsAll(es.tail) }

  function MainsScope(sc: Scope): nat {
    match sc
    case In(b) => Mains(b)
    case With(VarChunk(d), rest) => Mains(d.init) + MainsScope(rest)
    case With(FunctionChunk(ds), rest) => MainsDecs(ds) + MainsScope(rest)
    case With(TypeChunk(_), rest) => MainsScope(rest)
  }

  function MainsDecs(ds: Decs): nat {
    if ds.DNil? then 0
    else
      var d := ds.head;
      (if d.name == "_main" then 1 else 0) + (if d.body.SomeExp? then Mains(d.body.exp) else 0) + MainsDecs(ds.tail)
  }

  /** Of k functions called `_main`, those that come after the first. */
  function Surplus(defined: bool, k: nat): nat { if defined || k == 0 then k else k - 1 }

  /** Between b and b' lie parts with k repetitions and j functions called `_main`. */
  predicate Counts(b: Bound, b': Bound, k: nat, j: nat) {
    && b'.redeclared == b.redeclared + k + Surplus(b.mainDefined, j)
    && (b'.mainDefined <==> b.mainDefined || j > 0)
  }

  /** One redeclaration error for each declaration that repeats a name of its chunk, and for each
      function `_main` but the first, and no other. */
  lemma {:induction false} RedeclaredExact(e: Exp, n: Names, b: Bound)
    ensures Counts(b, Resolve(e, n, b), Repetitions(e), Mains(e))
    decreases e, 1
  {
    match e
    case IntExp(_) =>
    case VarExp(_, _) =>
    case BreakExp(_) =>
    case OpExp(l, _, r) => RedeclaredExact(l, n, b); RedeclaredExact(r, n, Resolve(l, n, b));
    case SeqExp(es) => RedeclaredAll(es, n, b);
    case AssignExp(id, x, r) => RedeclaredExact(r, n, UseVar(id, x, n, b));
    case IfExp(_, _, _) => RedeclaredBranches(e, n, b);
    case WhileExp(_, _, _) => RedeclaredLoops(e, n, b);
    case ForExp(_, _, _, _) => RedeclaredLoops(e, n, b);
    case CallExp(id, f, args) => RedeclaredAll(args, n, UseFun(id, f, n, b).(inFormals := true));
    case LetExp(sc) => RedeclaredScope(sc, n, b);
  }

  lemma {:induction false} RedeclaredBranches(e: Exp, n: Names, b: Bound)
    requires e.IfExp?
    ensures Counts(b, Resolve(e, n, b), Repetitions(e), Mains(e))
    decreases e, 0
  {
    var b1 := Resolve(e.test, n, b);
    var b2 := Resolve(e.thn, n, b1);
    RedeclaredExact(e.test, n, b);
    RedeclaredExact(e.thn, n, b1);
    if e.els.SomeExp? { RedeclaredExact(e.els.exp, n, b2); }
  }

  lemma {:induction false} RedeclaredLoops(e: Exp, n: Names, b: Bound)
    requires e.WhileExp? || e.ForExp?
    ensures Counts(b, Resolve(e, n, b), Repetitions(e), Mains(e))
    decreases e, 0
  {
    var b0 := b.(inLoop := true);
    if e.WhileExp? {
      var n' := Enter(n, e.id);
      RedeclaredExact(e.test, n', b0);
      RedeclaredExact(e.body, n', Resolve(e.test, n', b0).(inLoop := false));
    } else {
      var n' := PutVar(Enter(n, e.id), e.index.name, e.index.id);
      RedeclaredVarDec(e.index, n', b0);
      var b1 := ResolveVarDec(e.index, n', b0);
      RedeclaredExact(e.hi, n', b1);
      RedeclaredExact(e.body, n', Resolve(e.hi, n', b1).(inLoop := false));
    }
  }

  lemma {:induction false} RedeclaredAll(es: Exps, n: Names, b: Bound)
    ensures Counts(b, ResolveAll(es, n, b), RepetitionsAll(es), MainsAll(es))
    decreases es
  {
    if es.ECons? { RedeclaredExact(es.head, n, b); RedeclaredAll(es.tail, n, Resolve(es.head, n, b)); }
  }

  lemma {:induction false} RedeclaredVarDec(d: VarDec, n: Names, b: Bound)
    ensures Counts(b, ResolveVarDec(d, n, b), Repetitions(d.init), Mains(d.init))
    decreases d
  {
    var b' := if d.typeName.Some? then UseType(d.typeName.value, n, b) else b;
    RedeclaredExact(d.init, n, b'.(inVarDec := true));
  }

  lemma {:induction false} RedeclaredScope(sc: Scope, n: Names, b: Bound)
    ensures Counts(b, ResolveScope(sc, n, b), RepetitionsScope(sc), MainsScope(sc))
    decreases sc, 1
  {
    match sc
    case In(e) => RedeclaredExact(e, n, b);
    case With(c, rest) => RedeclaredChunk(c, rest, n, b);
  }

  lemma {:induction false} RedeclaredChunk(c: Chunk, rest: Scope, n: Names, b: Bound)
    ensures var sc := With(c, rest); Counts(b, ResolveScope(sc, n, b), RepetitionsScope(sc), MainsScope(sc))
    decreases With(c, rest), 0
  {
    hide Repeated, Repeats, RepeatedTypes, AddFirst, PutAll, AddFirstTypes, PutAllTypes, TypeNames, DecNames, AllDifferent;
    match c
    case VarChunk(d) =>
      var n' := PutVar(n, d.name, d.id);
      RedeclaredVarDec(d, n', b);
      RedeclaredScope(rest, n', ResolveVarDec(d, n', b));
    case FunctionChunk(ds) =>
      var n', b0 := AddFirst(ds, n, {}), b.(redeclared := b.redeclared + Repeats(ds, {}));
      RepeatsExact(ds);
      RedeclaredDecs(ds, n', b0);
      RedeclaredScope(rest, PutAll(ds, n'), ResolveDecs(ds, n', b0));
    case TypeChunk(ts) =>
      var n', b0 := AddFirstTypes(ts, n, {}), b.(redeclared := b.redeclared + RepeatedTypes(ts, {}));
      RepeatedTypesExact(ts);
      TypesKeep(ts, n', b0);
      RedeclaredScope(rest, PutAllTypes(ts, n'), ResolveTypes(ts, n', b0));
  }

  lemma {:induction false} RedeclaredDecs(ds: Decs, n: Names, b: Bound)
    ensures Counts(b, ResolveDecs(ds, n, b), RepetitionsDecs(ds), MainsDecs(ds))
    decreases ds
  {
    if ds.DCons? {
      var d, n' := ds.head, PutFun(n, ds.head.name, ds.head.id);
      RedeclaredDec(d, n', b);
      RedeclaredDecs(ds.tail, n', ResolveDec(d, n', b));
    }
  }

  lemma {:induction false} RedeclaredDec(d: FunctionDec, n: Names, b: Bound)
    ensures Counts(b, ResolveDec(d, n, b), |Repeated(FormalNames(d.formals))| + if d.body.SomeExp? then Repetitions(d.body.exp) else 0,
                   (if d.name == "_main" then 1 else 0) + if d.body.SomeExp? then Mains(d.body.exp) else 0)
    decreases d
  {
    hide Repeated, RepeatedFormals, FormalNames, PutFormals, UseType, ResolveFormals;
    RepeatedFormalsExact(d.formals);
    var b0 := NoteMain(d, b);
    var b1, n' := ResolveHeader(d, n, b0), PutFormals(d.formals, n);
    FormalsKeep(d.formals, n, b0.(redeclared := b0.redeclared + RepeatedFormals(d.formals, {}), inFormals := true));
    var b2 := if d.result.Some? then UseType(d.result.value, n', b1) else b1;
    if d.result.Some? { UseTypeKeeps(d.result.value, n', b1); }
    if d.body.SomeExp? { RedeclaredExact(d.body.exp, n', b2); }
  }

  /** Type names only change links and the count of undeclared names. */
  predicate OnlyUses(b: Bound, b': Bound) { b' == b.(links := b'.links, undeclared := b'.undeclared) }

  lemma UseTypeKeeps(t: TypeName, n: Names, b: Bound)
    ensures OnlyUses(b, UseType(t, n, b))
  {}

  lemma {:induction false} FormalsKeep(fs: seq<Formal>, n: Names, b: Bound)
    ensures var b' := ResolveFormals(fs, n, b);
      OnlyUses(b.(inVarDec := b'.inVarDec), b') && b'.inVarDec == (b.inVarDec && fs == [])
    decreases |fs|
  {
    hide UseType;
    if fs != [] {
      var n' := PutVar(n, fs[0].name, fs[0].id);
      UseTypeKeeps(fs[0].typeName, n', b);
      FormalsKeep(fs[1..], n', UseType(fs[0].typeName, n', b).(inVarDec := false));
    }
  }

  lemma {:induction false} FieldsKeep(fs: seq<(Symbol, TypeName)>, n: Names, b: Bound)
    ensures OnlyUses(b, ResolveFields(fs, n, b))
    decreases |fs|
  {
    hide UseType;
    if fs != [] {
      UseTypeKeeps(fs[0].1, n, b);
      FieldsKeep(fs[1..], n, UseType(fs[0].1, n, b));
    }
  }

  lemma TyKeeps(ty: Ty, n: Names, b: Bound)
    ensures OnlyUses(b, ResolveTy(ty, n, b))
  {
    match ty
    case NameTy(t) => UseTypeKeeps(t, n, b);
    case RecordTy(fs) => FieldsKeep(fs, n, b);
    case ArrayTy(t) => UseTypeKeeps(t, n, b);
  }

  lemma {:induction false} TypesKeep(ts: seq<TypeDec>, n: Names, b: Bound)
    ensures OnlyUses(b, ResolveTypes(ts, n, b))
    decreases |ts|
  {
    hide UseType;
    if ts != [] {
      var n' := PutType(n, ts[0].name, ts[0].id);
      TyKeeps(ts[0].ty, n', b);
      TypesKeep(ts[1..], n', ResolveTy(ts[0].ty, n', b));
    }
  }

  // ----- refused breaks -----

  /** In a condition or bound of a loop, in the arguments of a call, in an initialiser. */
  datatype Flags = Flags(inLoop: bool, inFormals: bool, inVarDec: bool)

  const NONE := Flags(false, false, false)

  function FlagsOf(b: Bound): Flags { Flags(b.inLoop, b.inFormals, b.inVarDec) }
  function Both(a: Flags, b: Flags): Flags { Flags(a.inLoop || b.inLoop, a.inFormals || b.inFormals, a.inVarDec || b.inVarDec) }
  function Less(a: Flags, b: Flags): Flags { Flags(a.inLoop && !b.inLoop, a.inFormals && !b.inFormals, a.inVarDec && !b.inVarDec) }

  /** What e contains: a loop, a call or a function, a variable or a formal.  Each of them clears the
      flag of its own kind for everything after it. */
  function Clears(e: Exp): Flags {
    match e
    case IntExp(_) => NONE
    case VarExp(_, _) => NONE
    case OpExp(l, _, r) => Both(Clears(l), Clears(r))
    case SeqExp(es) => ClearsAll(es)
    case AssignExp(_, _, r) => Clears(r)
    case IfExp(c, t, f) => Both(Both(Clears(c), Clears(t)), if f.SomeExp? then Clears(f.exp) else NONE)
    case WhileExp(_, c, b) => Both(Clears(c), Clears(b)).(inLoop := true)
    case ForExp(_, d, hi, b) => Both(Both(Clears(d.init), Clears(hi)), Clears(b)).(inLoop := true, inVarDec := true)
    case BreakExp(_) => NONE
    case CallExp(_, _, args) => ClearsAll(args).(inFormals := true)
    case LetExp(sc) => ClearsScope(sc)
  }

  function ClearsAll(es: Exps): Flags { if es.ENil? then NONE else Both(Clears(es.head), ClearsAll(es.tail)) }

  function ClearsScope(sc: Scope): Flags {
    match sc
    case In(b) => Clears(b)
    case With(VarChunk(d), rest) => Both(Clears(d.init), ClearsScope(rest)).(inVarDec := true)
    case With(FunctionChunk(ds), rest) => Both(ClearsDecs(ds), ClearsScope(rest))
    case With(TypeChunk(_), rest) => ClearsScope(rest)
  }

  function ClearsDecs(ds: Decs): Flags { if ds.DNil? then NONE else Both(ClearsDec(ds.head), ClearsDecs(ds.tail)) }

  function ClearsHeader(d: FunctionDec): Flags { Flags(false, true, d.formals != []) }

  function ClearsDec(d: FunctionDec): Flags { Both(ClearsHeader(d), if d.body.SomeExp? then Clears(d.body.exp) else NONE) }

  /** Each break, in the order of the visit, with the loop it is linked to, if any: the innermost one
      around it, unless a flag is on.  A loop sets its flag for its condition or bounds, a call for
      its arguments, a variable for its initialiser. */
  function Targets(e: Exp, loop: Option<Id>, f: Flags): seq<(Id, Option<Id>)> {
    match e
    case IntExp(_) => []
    case VarExp(_, _) => []
    case OpExp(l, _, r) => Targets(l, loop, f) + Targets(r, loop, Less(f, Clears(l)))
    case SeqExp(es) => TargetsAll(es, loop, f)
    case AssignExp(_, _, r) => Targets(r, loop, f)
    case IfExp(c, t, els) =>
      Targets(c, loop, f) + Targets(t, loop, Less(f, Clears(c)))
      + if els.SomeExp? then Targets(els.exp, loop, Less(f, Both(Clears(c), Clears(t)))) else []
    case WhileExp(id, c, b) =>
      Targets(c, Some(id), f.(inLoop := true)) + Targets(b, Some(id), Less(f, Clears(c)).(inLoop := false))
    case ForExp(id, d, hi, b) =>
      var f' := Less(f, Clears(d.init)).(inLoop := !Clears(d.init).inLoop, inVarDec := false);
      Targets(d.init, Some(id), f.(inLoop := true, inVarDec := true)) + Targets(hi, Some(id), f')
      + Targets(b, Some(id), Less(f', Clears(hi)).(inLoop := false))
    case BreakExp(id) => [(id, if f == NONE then loop else None)]
    case CallExp(_, _, args) => TargetsAll(args, loop, f.(inFormals := true))
    case LetExp(sc) => TargetsScope(sc, loop, f)
  }

  function TargetsAll(es: Exps, loop: Option<Id>, f: Flags): seq<(Id, Option<Id>)> {
    if es.ENil? then [] else Targets(es.head, loop, f) + TargetsAll(es.tail, loop, Less(f, Clears(es.head)))
  }

  function TargetsScope(sc: Scope, loop: Option<Id>, f: Flags): seq<(Id, Option<Id>)> {
    match sc
    case In(b) => Targets(b, loop, f)
    case With(VarChunk(d), rest) =>
      Targets(d.init, loop, f.(inVarDec := true)) + TargetsScope(rest, loop, Less(f, Clears(d.init)).(inVarDec := false))
    case With(FunctionChunk(ds), rest) => TargetsDecs(ds, loop, f) + TargetsScope(rest, loop, Less(f, ClearsDecs(ds)))
    case With(TypeChunk(_), rest) => TargetsScope(rest, loop, f)
  }

  function TargetsDecs(ds: Decs, loop: Option<Id>, f: Flags): seq<(Id, Option<Id>)> {
    if ds.DNil? then [] else TargetsDec(ds.head, loop, f) + TargetsDecs(ds.tail, loop, Less(f, ClearsDec(ds.head)))
  }

  function TargetsDec(d: FunctionDec, loop: Option<Id>, f: Flags): seq<(Id, Option<Id>)> {
    if d.body.SomeExp? then Targets(d.body.exp, loop, Less(f, ClearsHeader(d))) else []
  }

  /** How many breaks have no target. */
  function Nowhere(ts: seq<(Id, Option<Id>)>): nat {
    if ts == [] then 0 else (if ts[0].1.None? then 1 else 0) + Nowhere(ts[1..])
  }

  lemma {:induction false} NowhereCat(a: seq<(Id, Option<Id>)>, b: seq<(Id, Option<Id>)>)
    ensures Nowhere(a + b) == Nowhere(a) + Nowhere(b)
    decreases |a|
  {
    if a == [] { assert a + b == b; } else { assert (a + b)[1..] == a[1..] + b; NowhereCat(a[1..], b); }
  }

  predicate Refuses(b: Bound, b': Bound, ts: seq<(Id, Option<Id>)>, c: Flags) {
    b'.refused == b.refused + Nowhere(ts) && FlagsOf(b') == Less(FlagsOf(b), c)
  }

  /** A break is refused exactly if it has no target. */
  lemma {:induction false} RefusedExact(e: Exp, n: Names, b: Bound)
    ensures Refuses(b, Resolve(e, n, b), Targets(e, n.loop, FlagsOf(b)), Clears(e))
    decreases e, 1
  {
    match e
    case IntExp(_) =>
    case VarExp(_, _) =>
    case BreakExp(_) =>
    case OpExp(_, _, _) => RefusedOp(e, n, b);
    case SeqExp(es) => RefusedAll(es, n, b);
    case AssignExp(id, x, r) => RefusedExact(r, n, UseVar(id, x, n, b));
    case IfExp(_, _, _) => RefusedBranches(e, n, b);
    case WhileExp(_, _, _) => RefusedWhile(e, n, b);
    case ForExp(_, _, _, _) => RefusedFor(e, n, b);
    case CallExp(id, f, args) => RefusedAll(args, n, UseFun(id, f, n, b).(inFormals := true));
    case LetExp(sc) => RefusedScope(sc, n, b);
  }

  lemma {:induction false} RefusedOp(e: Exp, n: Names, b: Bound)
    requires e.OpExp?
    ensures Refuses(b, Resolve(e, n, b), Targets(e, n.loop, FlagsOf(b)), Clears(e))
    decreases e, 0
  {
    var f, l, r := FlagsOf(b), e.left, e.right;
    RefusedExact(l, n, b);
    RefusedExact(r, n, Resolve(l, n, b));
    NowhereCat(Targets(l, n.loop, f), Targets(r, n.loop, Less(f, Clears(l))));
  }

  lemma {:induction false} RefusedBranches(e: Exp, n: Names, b: Bound)
    requires e.IfExp?
    ensures Refuses(b, Resolve(e, n, b), Targets(e, n.loop, FlagsOf(b)), Clears(e))
    decreases e, 0
  {
    var f := FlagsOf(b);
    var b1 := Resolve(e.test, n, b);
    RefusedExact(e.test, n, b);
    RefusedExact(e.thn, n, b1);
    var t1, t2 := Targets(e.test, n.loop, f), Targets(e.thn, n.loop, Less(f, Clears(e.test)));
    NowhereCat(t1, t2);
    if e.els.SomeExp? {
      RefusedExact(e.els.exp, n, Resolve(e.thn, n, b1));
      NowhereCat(t1 + t2, Targets(e.els.exp, n.loop, Less(f, Both(Clears(e.test), Clears(e.thn)))));
    } else {
      assert t1 + t2 + [] == t1 + t2;
    }
  }

  lemma {:induction false} RefusedWhile(e: Exp, n: Names, b: Bound)
    requires e.WhileExp?
    ensures Refuses(b, Resolve(e, n, b), Targets(e, n.loop, FlagsOf(b)), Clears(e))
    decreases e, 0
  {
    var f, n' := FlagsOf(b), Enter(n, e.id);
    var b1 := Resolve(e.test, n', b.(inLoop := true)).(inLoop := false);
    RefusedExact(e.test, n', b.(inLoop := true));
    RefusedExact(e.body, n', b1);
    assert FlagsOf(b1) == Less(f, Clears(e.test)).(inLoop := false);
    NowhereCat(Targets(e.test, Some(e.id), f.(inLoop := true)), Targets(e.body, Some(e.id), FlagsOf(b1)));
  }

  lemma {:induction false} RefusedFor(e: Exp, n: Names, b: Bound)
    requires e.ForExp?
    ensures Refuses(b, Resolve(e, n, b), Targets(e, n.loop, FlagsOf(b)), Clears(e))
    decreases e, 0
  {
    var d, f, n' := e.index, FlagsOf(b), PutVar(Enter(n, e.id), e.index.name, e.index.id);
    var b0 := b.(inLoop := true);
    var b1 := ResolveVarDec(d, n', b0);
    var b2 := Resolve(e.hi, n', b1).(inLoop := false);
    RefusedVarDec(d, n', b0);
    RefusedExact(e.hi, n', b1);
    RefusedExact(e.body, n', b2);
    assert FlagsOf(b1) == Less(f, Clears(d.init)).(inLoop := !Clears(d.init).inLoop, inVarDec := false);
    assert FlagsOf(b2) == Less(FlagsOf(b1), Clears(e.hi)).(inLoop := false);
    var t1, t2 := Targets(d.init, Some(e.id), f.(inLoop := true, inVarDec := true)), Targets(e.hi, Some(e.id), FlagsOf(b1));
    NowhereCat(t1, t2);
    NowhereCat(t1 + t2, Targets(e.body, Some(e.id), FlagsOf(b2)));
  }

  lemma {:induction false} RefusedAll(es: Exps, n: Names, b: Bound)
    ensures Refuses(b, ResolveAll(es, n, b), TargetsAll(es, n.loop, FlagsOf(b)), ClearsAll(es))
    decreases es
  {
    if es.ECons? {
      var f, b1 := FlagsOf(b), Resolve(es.head, n, b);
      RefusedExact(es.head, n, b);
      RefusedAll(es.tail, n, b1);
      NowhereCat(Targets(es.head, n.loop, f), TargetsAll(es.tail, n.loop, FlagsOf(b1)));
    }
  }

  lemma {:induction false} RefusedVarDec(d: VarDec, n: Names, b: Bound)
    ensures var b', f := ResolveVarDec(d, n, b), FlagsOf(b);
      && b'.refused == b.refused + Nowhere(Targets(d.init, n.loop, f.(inVarDec := true)))
      && FlagsOf(b') == Less(f, Clears(d.init)).(inVarDec := false)
    decreases d
  {
    var b' := if d.typeName.Some? then UseType(d.typeName.value, n, b) else b;
    RefusedExact(d.init, n, b'.(inVarDec := true));
  }

  lemma {:induction false} RefusedScope(sc: Scope, n: Names, b: Bound)
    ensures Refuses(b, ResolveScope(sc, n, b), TargetsScope(sc, n.loop, FlagsOf(b)), ClearsScope(sc))
    decreases sc, 1
  {
    match sc
    case In(e) => RefusedExact(e, n, b);
    case With(c, rest) => RefusedChunk(c, rest, n, b);
  }

  lemma {:induction false} RefusedChunk(c: Chunk, rest: Scope, n: Names, b: Bound)
    ensures var sc := With(c, rest); Refuses(b, ResolveScope(sc, n, b), TargetsScope(sc, n.loop, FlagsOf(b)), ClearsScope(sc))
    decreases With(c, rest), 0
  {
    hide Repeats, RepeatedTypes, AddFirst, PutAll, AddFirstTypes, PutAllTypes, Nowhere, NoteMain;
    var f := FlagsOf(b);
    match c
    case VarChunk(d) =>
      var n' := PutVar(n, d.name, d.id);
      var b1 := ResolveVarDec(d, n', b);
      RefusedVarDec(d, n', b);
      RefusedScope(rest, n', b1);
      NowhereCat(Targets(d.init, n.loop, f.(inVarDec := true)), TargetsScope(rest, n.loop, FlagsOf(b1)));
    case FunctionChunk(ds) =>
      var n', b0 := AddFirst(ds, n, {}), b.(redeclared := b.redeclared + Repeats(ds, {}));
      var b1 := ResolveDecs(ds, n', b0);
      ChunkLoop(ds, n);
      RefusedDecs(ds, n', b0);
      RefusedScope(rest, PutAll(ds, n'), b1);
      NowhereCat(TargetsDecs(ds, n.loop, f), TargetsScope(rest, n.loop, FlagsOf(b1)));
    case TypeChunk(ts) =>
      var n', b0 := AddFirstTypes(ts, n, {}), b.(redeclared := b.redeclared + RepeatedTypes(ts, {}));
      TypesKeep(ts, n', b0);
      TypesLoop(ts, n);
      RefusedScope(rest, PutAllTypes(ts, n'), ResolveTypes(ts, n', b0));
  }

  lemma {:induction false} RefusedDecs(ds: Decs, n: Names, b: Bound)
    ensures Refuses(b, ResolveDecs(ds, n, b), TargetsDecs(ds, n.loop, FlagsOf(b)), ClearsDecs(ds))
    decreases ds
  {
    if ds.DCons? {
      var n' := PutFun(n, ds.head.name, ds.head.id);
      var b1 := ResolveDec(ds.head, n', b);
      RefusedDec(ds.head, n', b);
      RefusedDecs(ds.tail, n', b1);
      NowhereCat(TargetsDec(ds.head, n.loop, FlagsOf(b)), TargetsDecs(ds.tail, n.loop, FlagsOf(b1)));
    }
  }

  lemma {:induction false} RefusedDec(d: FunctionDec, n: Names, b: Bound)
    ensures Refuses(b, ResolveDec(d, n, b), TargetsDec(d, n.loop, FlagsOf(b)), ClearsDec(d))
    decreases d
  {
    hide AfterHeader, ResolveDec;
    HeaderFlags(d, n, b);
    if d.body.SomeExp? { RefusedExact(d.body.exp, PutFormals(d.formals, n), AfterHeader(d, n, b)); }
  }

  /** When the formals and the result have been visited. */
  function AfterHeader(d: FunctionDec, n: Names, b: Bound): Bound {
    var b1 := ResolveHeader(d, n, NoteMain(d, b));
    if d.result.Some? then UseType(d.result.value, PutFormals(d.formals, n), b1) else b1
  }

  lemma HeaderFlags(d: FunctionDec, n: Names, b: Bound)
    ensures var b2, n' := AfterHeader(d, n, b), PutFormals(d.formals, n);
      && ResolveDec(d, n, b) == (if d.body.SomeExp? then Resolve(d.body.exp, n', b2) else b2)
      && FlagsOf(b2) == Less(FlagsOf(b), ClearsHeader(d)) && b2.refused == b.refused && n'.loop == n.loop
  {
    hide RepeatedFormals, PutFormals, UseType, ResolveFormals;
    var b0 := NoteMain(d, b);
    FormalsKeep(d.formals, n, b0.(redeclared := b0.redeclared + RepeatedFormals(d.formals, {}), inFormals := true));
    FormalsLoop(d.formals, n);
    if d.result.Some? { UseTypeKeeps(d.result.value, PutFormals(d.formals, n), ResolveHeader(d, n, b0)); }
  }

  lemma ChunkLoop(ds: Decs, n: Names)
    ensures AddFirst(ds, n, {}).loop == PutAll(ds, AddFirst(ds, n, {})).loop == n.loop
  {
    AddFirstLoop(ds, n, {});
    PutAllLoop(ds, AddFirst(ds, n, {}));
  }

  lemma AddFirstLoop(ds: Decs, n: Names, seen: set<Symbol>)
    ensures AddFirst(ds, n, seen).loop == n.loop
  {}

  lemma PutAllLoop(ds: Decs, n: Names)
    ensures PutAll(ds, n).loop == n.loop
  {}

  lemma TypesLoop(ts: seq<TypeDec>, n: Names)
    ensures PutAllTypes(ts, AddFirstTypes(ts, n, {})).loop == n.loop
  {
    AddFirstTypesLoop(ts, n, {});
    PutAllTypesLoop(ts, AddFirstTypes(ts, n, {}));
  }

  lemma AddFirstTypesLoop(ts: seq<TypeDec>, n: Names, seen: set<Symbol>)
    ensures AddFirstTypes(ts, n, seen).loop == n.loop
  {}

  lemma PutAllTypesLoop(ts: seq<TypeDec>, n: Names)
    ensures PutAllTypes(ts, n).loop == n.loop
  {}

  lemma FormalsLoop(fs: seq<Formal>, n: Names)
    ensures PutFormals(fs, n).loop == n.loop
  {}

  // ----- links of breaks -----

  /** The links l are those of the breaks ts. */
  ghost predicate Leave(ts: seq<(Id, Option<Id>)>, l: Links, ids: set<Id>) {
    forall t | t in ts :: t.0 in ids && Find(l, t.0) == t.1
  }

  lemma LeaveBoth(a: seq<(Id, Option<Id>)>, b: seq<(Id, Option<Id>)>, l: Links, l': Links, ids: set<Id>, ids': set<Id>)
    requires Leave(a, l, ids) && Leave(b, l', ids') && SameOff(l, l', ids') && ids !! ids'
    ensures Leave(a + b, l', ids + ids')
  {
    forall t | t in a + b ensures t.0 in ids + ids' && Find(l', t.0) == t.1 {
      if t in a { assert Find(l, t.0) == Find(l', t.0); }
    }
  }

  /** What is known of a part: its breaks have the links ts, and other nodes have what they had. */
  ghost predicate Breaks(b: Bound, b': Bound, ts: seq<(Id, Option<Id>)>, ids: set<Id>) {
    Leave(ts, b'.links, ids) && SameOff(b.links, b'.links, ids)
  }

  /** Every break is linked to its target, and to nothing if it has none. */
  lemma {:induction false} BreaksExact(e: Exp, n: Names, b: Bound)
    requires Distinct(e) && Blank(b.links, OfExp(e))
    ensures Breaks(b, Resolve(e, n, b), Targets(e, n.loop, FlagsOf(b)), OfExp(e))
    decreases e, 1
  {
    hide Leave, SameOff, Blank;
    ResolveLinks(e, n, b);
    match e
    case IntExp(_) => NoBreaks(b.links, OfExp(e));
    case VarExp(_, _) => NoBreaks(Resolve(e, n, b).links, OfExp(e));
    case BreakExp(id) => OneBreak(e, n, b);
    case OpExp(_, _, _) => BreaksOp(e, n, b);
    case SeqExp(es) => BreaksAll(es, n, b);
    case AssignExp(_, _, _) => BreaksAssign(e, n, b);
    case IfExp(_, _, _) => BreaksIf(e, n, b);
    case WhileExp(_, _, _) => BreaksWhile(e, n, b);
    case ForExp(_, _, _, _) => BreaksFor(e, n, b);
    case CallExp(_, _, _) => BreaksCall(e, n, b);
    case LetExp(sc) => BreaksScope(sc, n, b);
  }

  lemma NoBreaks(l: Links, ids: set<Id>)
    ensures Leave([], l, ids)
  {}

  lemma OneBreak(e: Exp, n: Names, b: Bound)
    requires e.BreakExp? && Blank(b.links, OfExp(e))
    ensures Breaks(b, Resolve(e, n, b), Targets(e, n.loop, FlagsOf(b)), OfExp(e))
  {
    assert Find(b.links, e.id) == None;
  }

  /** Nodes of a part are still new after another part. */
  lemma StillBlank(l: Links, l': Links, ids: set<Id>, ids': set<Id>)
    requires Blank(l, ids') && SameOff(l, l', ids) && ids !! ids'
    ensures Blank(l', ids')
  {
    forall id | id in ids' ensures id !in l' { assert Find(l, id) == Find(l', id); }
  }

  lemma SameOffBoth(l: Links, l1: Links, l2: Links, ids: set<Id>, ids': set<Id>)
    requires SameOff(l, l1, ids) && SameOff(l1, l2, ids')
    ensures SameOff(l, l2, ids + ids')
  {
    forall id | id !in ids + ids' ensures Find(l, id) == Find(l2, id) { assert Find(l, id) == Find(l1, id); }
  }

  lemma BlankLess(l: Links, ids: set<Id>, ids': set<Id>)
    requires Blank(l, ids) && ids' <= ids
    ensures Blank(l, ids')
  {}

  /** One part after another. */
  lemma BreaksBoth(b: Bound, b1: Bound, b2: Bound, a: seq<(Id, Option<Id>)>, c: seq<(Id, Option<Id>)>, ids: set<Id>, ids': set<Id>)
    requires Breaks(b, b1, a, ids) && Breaks(b1, b2, c, ids') && ids !! ids'
    ensures Breaks(b, b2, a + c, ids + ids')
  {
    LeaveBoth(a, c, b1.links, b2.links, ids, ids');
    SameOffBoth(b.links, b1.links, b2.links, ids, ids');
  }

  /** A part without breaks before. */
  lemma BreaksAfter(b: Bound, b1: Bound, b2: Bound, ts: seq<(Id, Option<Id>)>, ids: set<Id>, ids': set<Id>)
    requires SameOff(b.links, b1.links, ids) && Breaks(b1, b2, ts, ids')
    ensures Breaks(b, b2, ts, ids + ids')
  {
    SameOffBoth(b.links, b1.links, b2.links, ids, ids');
  }

  lemma {:induction false} BreaksOp(e: Exp, n: Names, b: Bound)
    requires e.OpExp? && Distinct(e) && Blank(b.links, OfExp(e))
    ensures Breaks(b, Resolve(e, n, b), Targets(e, n.loop, FlagsOf(b)), OfExp(e))
    decreases e, 0
  {
    hide Leave, SameOff, Blank;
    var f, l, r := FlagsOf(b), e.left, e.right;
    var b1 := Resolve(l, n, b);
    BlankLess(b.links, OfExp(e), OfExp(l));
    BlankLess(b.links, OfExp(e), OfExp(r));
    BreaksExact(l, n, b);
    RefusedExact(l, n, b);
    StillBlank(b.links, b1.links, OfExp(l), OfExp(r));
    BreaksExact(r, n, b1);
    BreaksBoth(b, b1, Resolve(r, n, b1), Targets(l, n.loop, f), Targets(r, n.loop, FlagsOf(b1)), OfExp(l), OfExp(r));
  }

  lemma {:induction false} BreaksAssign(e: Exp, n: Names, b: Bound)
    requires e.AssignExp? && Distinct(e) && Blank(b.links, OfExp(e))
    ensures Breaks(b, Resolve(e, n, b), Targets(e, n.loop, FlagsOf(b)), OfExp(e))
    decreases e, 0
  {
    var b1 := UseVar(e.id, e.name, n, b);
    BreaksExact(e.exp, n, b1);
    BreaksAfter(b, b1, Resolve(e.exp, n, b1), Targets(e.exp, n.loop, FlagsOf(b1)), {e.id}, OfExp(e.exp));
  }

  lemma {:induction false} BreaksCall(e: Exp, n: Names, b: Bound)
    requires e.CallExp? && Distinct(e) && Blank(b.links, OfExp(e))
    ensures Breaks(b, Resolve(e, n, b), Targets(e, n.loop, FlagsOf(b)), OfExp(e))
    decreases e, 0
  {
    var b1 := UseFun(e.id, e.name, n, b).(inFormals := true);
    BreaksAll(e.args, n, b1);
    BreaksAfter(b, b1, ResolveAll(e.args, n, b1), TargetsAll(e.args, n.loop, FlagsOf(b1)), {e.id}, OfExps(e.args));
  }

  lemma {:induction false} BreaksAll(es: Exps, n: Names, b: Bound)
    requires DistinctExps(es) && Blank(b.links, OfExps(es))
    ensures Breaks(b, ResolveAll(es, n, b), TargetsAll(es, n.loop, FlagsOf(b)), OfExps(es))
    decreases es
  {
    if es.ENil? {
      NoBreaks(b.links, {});
    } else {
      hide Leave, SameOff, Blank;
      var e, rest := es.head, es.tail;
      var b1 := Resolve(e, n, b);
      BlankLess(b.links, OfExps(es), OfExp(e));
      BlankLess(b.links, OfExps(es), OfExps(rest));
      BreaksExact(e, n, b);
      RefusedExact(e, n, b);
      StillBlank(b.links, b1.links, OfExp(e), OfExps(rest));
      BreaksAll(rest, n, b1);
      BreaksBoth(b, b1, ResolveAll(rest, n, b1), Targets(e, n.loop, FlagsOf(b)), TargetsAll(rest, n.loop, FlagsOf(b1)), OfExp(e), OfExps(rest));
    }
  }

  lemma {:induction false} BreaksIf(e: Exp, n: Names, b: Bound)
    requires e.IfExp? && Distinct(e) && Blank(b.links, OfExp(e))
    ensures Breaks(b, Resolve(e, n, b), Targets(e, n.loop, FlagsOf(b)), OfExp(e))
    decreases e, 0
  {
    hide Leave, SameOff, Blank;
    var c, t, els, f := e.test, e.thn, e.els, FlagsOf(b);
    var b1 := Resolve(c, n, b);
    var b2 := Resolve(t, n, b1);
    var t1, t2 := Targets(c, n.loop, f), Targets(t, n.loop, Less(f, Clears(c)));
    BlankLess(b.links, OfExp(e), OfExp(c));
    BlankLess(b.links, OfExp(e), OfExp(t));
    BreaksExact(c, n, b);
    RefusedExact(c, n, b);
    StillBlank(b.links, b1.links, OfExp(c), OfExp(t));
    BreaksExact(t, n, b1);
    RefusedExact(t, n, b1);
    BreaksBoth(b, b1, b2, t1, t2, OfExp(c), OfExp(t));
    if els.SomeExp? {
      BlankLess(b.links, OfExp(e), OfExp(els.exp));
      StillBlank(b.links, b2.links, OfExp(c) + OfExp(t), OfExp(els.exp));
      BreaksExact(els.exp, n, b2);
      BreaksBoth(b, b2, Resolve(els.exp, n, b2), t1 + t2, Targets(els.exp, n.loop, FlagsOf(b2)), OfExp(c) + OfExp(t), OfExp(els.exp));
    } else {
      assert t1 + t2 + [] == t1 + t2 && OfExp(e) == OfExp(c) + OfExp(t);
    }
  }

  lemma {:induction false} BreaksWhile(e: Exp, n: Names, b: Bound)
    requires e.WhileExp? && Distinct(e) && Blank(b.links, OfExp(e))
    ensures Breaks(b, Resolve(e, n, b), Targets(e, n.loop, FlagsOf(b)), OfExp(e))
    decreases e, 0
  {
    hide Leave, SameOff, Blank;
    var c, d, n', b0 := e.test, e.body, Enter(n, e.id), b.(inLoop := true);
    var b1 := Resolve(c, n', b0).(inLoop := false);
    BlankLess(b.links, OfExp(e), OfExp(c));
    BlankLess(b.links, OfExp(e), OfExp(d));
    BreaksExact(c, n', b0);
    RefusedExact(c, n', b0);
    StillBlank(b.links, b1.links, OfExp(c), OfExp(d));
    BreaksExact(d, n', b1);
    var t1, t2 := Targets(c, Some(e.id), FlagsOf(b0)), Targets(d, Some(e.id), FlagsOf(b1));
    assert FlagsOf(b1) == Less(FlagsOf(b), Clears(c)).(inLoop := false);
    BreaksBoth(b, b1, Resolve(d, n', b1), t1, t2, OfExp(c), OfExp(d));
    BreaksMore(b, Resolve(d, n', b1), t1 + t2, OfExp(c) + OfExp(d), OfExp(e));
  }

  lemma BreaksMore(b: Bound, b': Bound, ts: seq<(Id, Option<Id>)>, ids: set<Id>, ids': set<Id>)
    requires Breaks(b, b', ts, ids) && ids <= ids'
    ensures Breaks(b, b', ts, ids')
  {}

  lemma {:induction false} BreaksVarDec(d: VarDec, n: Names, b: Bound)
    requires DistinctVarDec(d) && Blank(b.links, OfVarDec(d))
    ensures Breaks(b, ResolveVarDec(d, n, b), Targets(d.init, n.loop, FlagsOf(b).(inVarDec := true)), OfVarDec(d))
    decreases d
  {
    hide Leave;
    var b1 := (if d.typeName.Some? then UseType(d.typeName.value, n, b) else b).(inVarDec := true);
    assert SameOff(b.links, b1.links, OfName(d.typeName));
    assert Blank(b1.links, OfExp(d.init));
    BreaksExact(d.init, n, b1);
    BreaksAfter(b, b1, Resolve(d.init, n, b1), Targets(d.init, n.loop, FlagsOf(b1)), OfName(d.typeName), OfExp(d.init));
    BreaksMore(b, Resolve(d.init, n, b1), Targets(d.init, n.loop, FlagsOf(b1)), OfName(d.typeName) + OfExp(d.init), OfVarDec(d));
  }

  lemma {:induction false} BreaksFor(e: Exp, n: Names, b: Bound)
    requires e.ForExp? && Distinct(e) && Blank(b.links, OfExp(e))
    ensures Breaks(b, Resolve(e, n, b), Targets(e, n.loop, FlagsOf(b)), OfExp(e))
    decreases e, 0
  {
    hide Leave, SameOff, Blank;
    var d, f, n', b0 := e.index, FlagsOf(b), PutVar(Enter(n, e.id), e.index.name, e.index.id), b.(inLoop := true);
    var b1 := ResolveVarDec(d, n', b0);
    var b2 := Resolve(e.hi, n', b1).(inLoop := false);
    var b3 := Resolve(e.body, n', b2);
    BlankLess(b.links, OfExp(e), OfVarDec(d));
    BlankLess(b.links, OfExp(e), OfExp(e.hi));
    BlankLess(b.links, OfExp(e), OfExp(e.body));
    BreaksVarDec(d, n', b0);
    RefusedVarDec(d, n', b0);
    assert FlagsOf(b1) == Less(f, Clears(d.init)).(inLoop := !Clears(d.init).inLoop, inVarDec := false);
    StillBlank(b.links, b1.links, OfVarDec(d), OfExp(e.hi));
    BreaksExact(e.hi, n', b1);
    RefusedExact(e.hi, n', b1);
    assert FlagsOf(b2) == Less(FlagsOf(b1), Clears(e.hi)).(inLoop := false);
    var t1, t2 := Targets(d.init, Some(e.id), f.(inLoop := true, inVarDec := true)), Targets(e.hi, Some(e.id), FlagsOf(b1));
    var t3 := Targets(e.body, Some(e.id), FlagsOf(b2));
    BreaksBoth(b, b1, b2, t1, t2, OfVarDec(d), OfExp(e.hi));
    StillBlank(b.links, b2.links, OfVarDec(d) + OfExp(e.hi), OfExp(e.body));
    BreaksExact(e.body, n', b2);
    BreaksBoth(b, b2, b3, t1 + t2, t3, OfVarDec(d) + OfExp(e.hi), OfExp(e.body));
    BreaksMore(b, b3, t1 + t2 + t3, OfVarDec(d) + OfExp(e.hi) + OfExp(e.body), OfExp(e));
  }

  lemma {:induction false} BreaksScope(sc: Scope, n: Names, b: Bound)
    requires DistinctScope(sc) && Blank(b.links, OfScope(sc))
    ensures Breaks(b, ResolveScope(sc, n, b), TargetsScope(sc, n.loop, FlagsOf(b)), OfScope(sc))
    decreases sc, 1
  {
    match sc
    case In(e) => BreaksExact(e, n, b);
    case With(c, rest) => BreaksChunk(c, rest, n, b);
  }

  lemma {:induction false} BreaksChunk(c: Chunk, rest: Scope, n: Names, b: Bound)
    requires DistinctScope(With(c, rest)) && Blank(b.links, OfScope(With(c, rest)))
    ensures var sc := With(c, rest); Breaks(b, ResolveScope(sc, n, b), TargetsScope(sc, n.loop, FlagsOf(b)), OfScope(sc))
    decreases With(c, rest), 0
  {
    hide Leave, SameOff, Blank, Repeats, RepeatedTypes, AddFirst, PutAll, AddFirstTypes, PutAllTypes, NoteMain;
    var f, all := FlagsOf(b), OfScope(With(c, rest));
    match c
    case VarChunk(d) =>
      var n' := PutVar(n, d.name, d.id);
      var b1 := ResolveVarDec(d, n', b);
      BlankLess(b.links, all, OfVarDec(d));
      BlankLess(b.links, all, OfScope(rest));
      BreaksVarDec(d, n', b);
      RefusedVarDec(d, n', b);
      StillBlank(b.links, b1.links, OfVarDec(d), OfScope(rest));
      BreaksScope(rest, n', b1);
      BreaksBoth(b, b1, ResolveScope(rest, n', b1), Targets(d.init, n.loop, f.(inVarDec := true)),
                 TargetsScope(rest, n.loop, FlagsOf(b1)), OfVarDec(d), OfScope(rest));
    case FunctionChunk(ds) =>
      var n', b0 := AddFirst(ds, n, {}), b.(redeclared := b.redeclared + Repeats(ds, {}));
      var b1, n1 := ResolveDecs(ds, n', b0), PutAll(ds, n');
      ChunkLoop(ds, n);
      BlankLess(b.links, all, OfDecs(ds));
      BlankLess(b.links, all, OfScope(rest));
      BreaksDecs(ds, n', b0);
      RefusedDecs(ds, n', b0);
      StillBlank(b.links, b1.links, OfDecs(ds), OfScope(rest));
      BreaksScope(rest, n1, b1);
      BreaksBoth(b, b1, ResolveScope(rest, n1, b1), TargetsDecs(ds, n.loop, f), TargetsScope(rest, n.loop, FlagsOf(b1)),
                 OfDecs(ds), OfScope(rest));
    case TypeChunk(ts) =>
      var n', b0 := AddFirstTypes(ts, n, {}), b.(redeclared := b.redeclared + RepeatedTypes(ts, {}));
      var b1, n1 := ResolveTypes(ts, n', b0), PutAllTypes(ts, n');
      TypesKeep(ts, n', b0);
      TypesLoop(ts, n);
      BlankLess(b.links, all, OfTypes(ts));
      BlankLess(b.links, all, OfScope(rest));
      ResolveTypesLinks(ts, n', b0);
      StillBlank(b.links, b1.links, OfTypes(ts), OfScope(rest));
      BreaksScope(rest, n1, b1);
      BreaksAfter(b, b1, ResolveScope(rest, n1, b1), TargetsScope(rest, n.loop, FlagsOf(b1)), OfTypes(ts), OfScope(rest));
  }

  lemma {:induction false} BreaksDecs(ds: Decs, n: Names, b: Bound)
    requires DistinctDecs(ds) && Blank(b.links, OfDecs(ds))
    ensures Breaks(b, ResolveDecs(ds, n, b), TargetsDecs(ds, n.loop, FlagsOf(b)), OfDecs(ds))
    decreases ds
  {
    if ds.DNil? {
      NoBreaks(b.links, {});
    } else {
      hide Leave, SameOff, Blank;
      var d, n' := ds.head, PutFun(n, ds.head.name, ds.head.id);
      var b1 := ResolveDec(d, n', b);
      BlankLess(b.links, OfDecs(ds), OfDec(d));
      BlankLess(b.links, OfDecs(ds), OfDecs(ds.tail));
      BreaksDec(d, n', b);
      RefusedDec(d, n', b);
      StillBlank(b.links, b1.links, OfDec(d), OfDecs(ds.tail));
      BreaksDecs(ds.tail, n', b1);
      BreaksBoth(b, b1, ResolveDecs(ds.tail, n', b1), TargetsDec(d, n.loop, FlagsOf(b)), TargetsDecs(ds.tail, n.loop, FlagsOf(b1)),
                 OfDec(d), OfDecs(ds.tail));
    }
  }

  lemma {:induction false} BreaksDec(d: FunctionDec, n: Names, b: Bound)
    requires DistinctDec(d) && Blank(b.links, OfDec(d))
    ensures Breaks(b, ResolveDec(d, n, b), TargetsDec(d, n.loop, FlagsOf(b)), OfDec(d))
    decreases d
  {
    hide Leave, SameOff, Blank, AfterHeader, ResolveDec;
    HeaderFlags(d, n, b);
    HeaderLinks(d, n, b);
    var b2, names := AfterHeader(d, n, b), OfFormals(d.formals) + OfName(d.result);
    if d.body.SomeExp? {
      BlankLess(b.links, OfDec(d), OfExp(d.body.exp));
      StillBlank(b.links, b2.links, names, OfExp(d.body.exp));
      BreaksExact(d.body.exp, PutFormals(d.formals, n), b2);
      var b3 := Resolve(d.body.exp, PutFormals(d.formals, n), b2);
      BreaksAfter(b, b2, b3, Targets(d.body.exp, n.loop, FlagsOf(b2)), names, OfExp(d.body.exp));
      BreaksMore(b, b3, TargetsDec(d, n.loop, FlagsOf(b)), names + OfExp(d.body.exp), OfDec(d));
    } else {
      NoBreaks(b2.links, names);
      BreaksMore(b, b2, [], names, OfDec(d));
    }
  }

  /** The formals and the result are linked before the body. */
  lemma HeaderLinks(d: FunctionDec, n: Names, b: Bound)
    requires DistinctDec(d) && Blank(b.links, OfDec(d))
    ensures SameOff(b.links, AfterHeader(d, n, b).links, OfFormals(d.formals) + OfName(d.result))
  {
    var b1 := ResolveHeader(d, n, NoteMain(d, b));
    FormalsLinks(d, n, b);
    hide ResolveHeader, NoteMain, PutFormals, Blank, SameOff;
    if d.result.Some? {
      var t, n' := d.result.value, PutFormals(d.formals, n);
      UseTypeOff(t, n', b1);
      SameOffBoth(b.links, b1.links, UseType(t, n', b1).links, OfFormals(d.formals), {t.id});
    } else {
      assert OfFormals(d.formals) + OfName(d.result) == OfFormals(d.formals);
    }
  }

  lemma UseTypeOff(t: TypeName, n: Names, b: Bound)
    ensures SameOff(b.links, UseType(t, n, b).links, {t.id})
  {}

  lemma FormalsLinks(d: FunctionDec, n: Names, b: Bound)
    requires DistinctDec(d) && Blank(b.links, OfDec(d))
    ensures SameOff(b.links, ResolveHeader(d, n, NoteMain(d, b)).links, OfFormals(d.formals))
  {
    hide ResolveFormals, PutFormals, RepeatedFormals;
    var b0 := NoteMain(d, b);
    ResolveFormalsLinks(d.formals, n, b0.(redeclared := b0.redeclared + RepeatedFormals(d.formals, {}), inFormals := true));
  }

  // ----- what a chunk puts in scope -----

  /** While the bodies of a chunk are visited the first function of each name is in scope, or one
      visited already. */
  lemma {:induction false} FirstEntered(ds: Decs, n: Names, seen: set<Symbol>, f: Symbol)
    ensures Find(AddFirst(ds, n, seen).funs, f) == if f in seen then Find(n.funs, f) else FirstOf(ds, f, Find(n.funs, f))
    decreases ds
  {
    if ds.DCons? {
      var d := ds.head;
      if d.name in seen { FirstEntered(ds.tail, n, seen, f); }
      else { FirstEntered(ds.tail, PutFun(n, d.name, d.id), seen + {d.name}, f); }
    }
  }

  /** The first function called f, or else. */
  function FirstOf(ds: Decs, f: Symbol, els: Option<Id>): Option<Id> {
    if ds.DNil? then els else if ds.head.name == f then Some(ds.head.id) else FirstOf(ds.tail, f, els)
  }

  function LastOf(ds: Decs, f: Symbol, els: Option<Id>): Option<Id> {
    if ds.DNil? then els else LastOf(ds.tail, f, if ds.head.name == f then Some(ds.head.id) else els)
  }

  /** After the chunk it is the last function of each name. */
  lemma {:induction false} LastStays(ds: Decs, n: Names, f: Symbol)
    ensures Find(PutAll(ds, n).funs, f) == LastOf(ds, f, Find(n.funs, f))
    decreases ds
  {
    if ds.DCons? { LastStays(ds.tail, PutFun(n, ds.head.name, ds.head.id), f); }
  }

  /** The first type of each name is in scope of all bodies of its chunk. */
  lemma {:induction false} FirstTypeEntered(ts: seq<TypeDec>, n: Names, seen: set<Symbol>, i: nat)
    requires i < |ts| && ts[i].name !in seen && forall j | 0 <= j < i :: ts[j].name != ts[i].name
    ensures Find(AddFirstTypes(ts, n, seen).types, ts[i].name) == Some(ts[i].id)
    decreases |ts|
  {
    var t := ts[0];
    if i == 0 {
      NoTypeEntered(ts[1..], PutType(n, t.name, t.id), seen + {t.name}, t.name);
    } else if t.name in seen {
      FirstTypeEntered(ts[1..], n, seen, i - 1);
    } else {
      FirstTypeEntered(ts[1..], PutType(n, t.name, t.id), seen + {t.name}, i - 1);
    }
  }

  /** Nothing else changes. */
  lemma {:induction false} NoTypeEntered(ts: seq<TypeDec>, n: Names, seen: set<Symbol>, x: Symbol)
    requires x in seen || forall i | 0 <= i < |ts| :: ts[i].name != x
    ensures Find(AddFirstTypes(ts, n, seen).types, x) == Find(n.types, x)
    decreases |ts|
  {
    if ts != [] {
      var t := ts[0];
      if t.name in seen { NoTypeEntered(ts[1..], n, seen, x); }
      else { NoTypeEntered(ts[1..], PutType(n, t.name, t.id), seen + {t.name}, x); }
    }
  }

  /** After the chunk it is the last type of each name. */
  lemma {:induction false} LastTypeStays(ts: seq<TypeDec>, n: Names, i: nat)
    requires i < |ts| && forall j | i < j < |ts| :: ts[j].name != ts[i].name
    ensures Find(PutAllTypes(ts, n).types, ts[i].name) == Some(ts[i].id)
    decreases |ts|
  {
    var n' := PutType(n, ts[0].name, ts[0].id);
    if i > 0 {
      LastTypeStays(ts[1..], n', i - 1);
    } else {
      assert forall j | 0 <= j < |ts[1..]| :: ts[1..][j].name == ts[j + 1].name;
      NoTypePut(ts[1..], n', ts[0].name);
    }
  }

  lemma {:induction false} NoTypePut(ts: seq<TypeDec>, n: Names, x: Symbol)
    requires forall i | 0 <= i < |ts| :: ts[i].name != x
    ensures Find(PutAllTypes(ts, n).types, x) == Find(n.types, x)
    decreases |ts|
  {
    if ts != [] { NoTypePut(ts[1..], PutType(n, ts[0].name, ts[0].id), x); }
  }

  /** In a body, the last formal of each name. */
  lemma {:induction false} LastFormalStays(fs: seq<Formal>, n: Names, i: nat)
    requires i < |fs| && forall j | i < j < |fs| :: fs[j].name != fs[i].name
    ensures Find(PutFormals(fs, n).vars, fs[i].name) == Some(fs[i].id)
    decreases |fs|
  {
    var n' := PutVar(n, fs[0].name, fs[0].id);
    if i > 0 {
      LastFormalStays(fs[1..], n', i - 1);
    } else {
      assert forall j | 0 <= j < |fs[1..]| :: fs[1..][j].name == fs[j + 1].name;
      NoFormalPut(fs[1..], n', fs[0].name);
    }
  }

  lemma {:induction false} NoFormalPut(fs: seq<Formal>, n: Names, x: Symbol)
    requires forall i | 0 <= i < |fs| :: fs[i].name != x
    ensures Find(PutFormals(fs, n).vars, x) == Find(n.vars, x)
    decreases |fs|
  {
    if fs != [] { NoFormalPut(fs[1..], PutVar(n, fs[0].name, fs[0].id), x); }
  }
}
