/** Desugaring `for` into `while`, on top of a structural copy of everything else. */
module Desugaring {
  import opened Options
  import opened Ast
  import Nodes

  const LO: Symbol := "_lo"
  const HI: Symbol := "_hi"

  function Desugar(e: Exp): Exp {
    match e
    case IntExp(_) => e
    case VarExp(_, _) => e
    case OpExp(l, op, r) => OpExp(Desugar(l), op, Desugar(r))
    case SeqExp(es) => SeqExp(DesugarAll(es))
    case AssignExp(id, x, r) => AssignExp(id, x, Desugar(r))
    case IfExp(c, t, f) =>
      IfExp(Desugar(c), Desugar(t), if f.SomeExp? then SomeExp(Desugar(f.exp)) else NoExp)
    case WhileExp(id, c, b) => WhileExp(id, Desugar(c), Desugar(b))
    case ForExp(id, d, hi, b) => Expand(id, d.(init := Desugar(d.init)), Desugar(hi), Desugar(b))
    case BreakExp(_) => e
    case CallExp(id, f, args) => CallExp(id, f, DesugarAll(args))
    case LetExp(sc) => LetExp(DesugarScope(sc))
  }

  function DesugarAll(es: Exps): Exps {
    match es
    case ENil => ENil
    case ECons(e, rest) => ECons(Desugar(e), DesugarAll(rest))
  }

  function DesugarScope(sc: Scope): Scope {
    match sc
    case In(b) => In(Desugar(b))
    case With(VarChunk(d), rest) => With(VarChunk(d.(init := Desugar(d.init))), DesugarScope(rest))
    case With(FunctionChunk(ds), rest) => With(FunctionChunk(DesugarDecs(ds)), DesugarScope(rest))
    case With(TypeChunk(ts), rest) => With(TypeChunk(ts), DesugarScope(rest))
  }

  function DesugarDecs(ds: Decs): Decs {
    match ds
    case DNil => DNil
    case DCons(d, rest) => DCons(DesugarDec(d), DesugarDecs(rest))
  }

  function DesugarDec(d: FunctionDec): FunctionDec {
    d.(body := if d.body.SomeExp? then SomeExp(Desugar(d.body.exp)) else NoExp)
  }

  /** The replacement of `for d to hi do body`, its parts already desugared.  The loop keeps its
      identity, the other new nodes derive theirs from it. */
  function Expand(id: Id, d: VarDec, hi: Exp, body: Exp): Exp {
    LetExp(
      With(VarChunk(VarDec(Fresh(id, 0), LO, None, d.init)),
      With(VarChunk(VarDec(Fresh(id, 1), HI, None, hi)),
      With(VarChunk(VarDec(d.id, d.name, None, VarExp(Fresh(id, 2), LO))),
      In(SeqExp(ECons(Guard(id, d.name, body), ENil)))))))
  }

  function Guard(id: Id, i: Symbol, body: Exp): Exp {
    IfExp(OpExp(VarExp(Fresh(id, 3), i), Le, VarExp(Fresh(id, 4), HI)), Loop(id, i, body), NoExp)
  }

  function Loop(id: Id, i: Symbol, body: Exp): Exp {
    WhileExp(id, IntExp(1), SeqExp(ECons(body, ECons(Leave(id, i), ECons(Advance(id, i), ENil)))))
  }

  function Leave(id: Id, i: Symbol): Exp {
    IfExp(OpExp(VarExp(Fresh(id, 5), i), Eq, VarExp(Fresh(id, 6), HI)), BreakExp(Fresh(id, 7)), NoExp)
  }

  function Advance(id: Id, i: Symbol): Exp {
    AssignExp(Fresh(id, 8), i, OpExp(VarExp(Fresh(id, 9), i), Add, IntExp(1)))
  }

  // ----- what the transformation asks of its input -----

  /** Every variable name written in e, used or declared. */
  function Names(e: Exp): set<Symbol> {
    match e
    case IntExp(_) => {}
    case VarExp(_, x) => {x}
    case OpExp(l, _, r) => Names(l) + Names(r)
    case SeqExp(es) => NamesAll(es)
    case AssignExp(_, x, r) => {x} + Names(r)
    case IfExp(c, t, f) => Names(c) + Names(t) + (if f.SomeExp? then Names(f.exp) else {})
    case WhileExp(_, c, b) => Names(c) + Names(b)
    case ForExp(_, d, hi, b) => {d.name} + Names(d.init) + Names(hi) + Names(b)
    case BreakExp(_) => {}
    case CallExp(_, _, args) => NamesAll(args)
    case LetExp(sc) => NamesScope(sc)
  }

  function NamesAll(es: Exps): set<Symbol> {
    if es.ENil? then {} else Names(es.head) + NamesAll(es.tail)
  }

  function NamesScope(sc: Scope): set<Symbol> {
    match sc
    case In(b) => Names(b)
    case With(VarChunk(d), rest) => {d.name} + Names(d.init) + NamesScope(rest)
    case With(FunctionChunk(ds), rest) => NamesDecs(ds) + NamesScope(rest)
    case With(TypeChunk(_), rest) => NamesScope(rest)
  }

  function NamesDecs(ds: Decs): set<Symbol> {
    if ds.DNil? then {} else
    (set f | f in ds.head.formals :: f.name)
    + (if ds.head.body.SomeExp? then Names(ds.head.body.exp) else {}) + NamesDecs(ds.tail)
  }

  /** The variable names that e uses of the scope around it. */
  function Free(e: Exp): set<Symbol> {
    match e
    case IntExp(_) => {}
    case VarExp(_, x) => {x}
    case OpExp(l, _, r) => Free(l) + Free(r)
    case SeqExp(es) => FreeAll(es)
    case AssignExp(_, x, r) => {x} + Free(r)
    case IfExp(c, t, f) => Free(c) + Free(t) + (if f.SomeExp? then Free(f.exp) else {})
    case WhileExp(_, c, b) => Free(c) + Free(b)
    case ForExp(_, d, hi, b) => Free(d.init) + Free(hi) + Free(b) - {d.name}
    case BreakExp(_) => {}
    case CallExp(_, _, args) => FreeAll(args)
    case LetExp(sc) => FreeScope(sc)
  }

  function FreeAll(es: Exps): set<Symbol> {
    if es.ENil? then {} else Free(es.head) + FreeAll(es.tail)
  }

  function FreeScope(sc: Scope): set<Symbol> {
    match sc
    case In(b) => Free(b)
    case With(VarChunk(d), rest) => Free(d.init) + FreeScope(rest) - {d.name}
    case With(FunctionChunk(ds), rest) => FreeDecs(ds) + FreeScope(rest)
    case With(TypeChunk(_), rest) => FreeScope(rest)
  }

  function FreeDecs(ds: Decs): set<Symbol> {
    if ds.DNil? then {} else FreeDec(ds.head) + FreeDecs(ds.tail)
  }

  function FreeDec(d: FunctionDec): set<Symbol> {
    if d.body.SomeExp? then Free(d.body.exp) - FormalNames(d.formals) else {}
  }

  function FormalNames(fs: seq<Formal>): set<Symbol> { if fs == [] then {} else {fs[0].name} + FormalNames(fs[1..]) }

  /** No break in e leaves e. */
  predicate Stays(e: Exp) {
    match e
    case IntExp(_) => true
    case VarExp(_, _) => true
    case OpExp(l, _, r) => Stays(l) && Stays(r)
    case SeqExp(es) => StaysAll(es)
    case AssignExp(_, _, r) => Stays(r)
    case IfExp(c, t, f) => Stays(c) && Stays(t) && (f.SomeExp? ==> Stays(f.exp))
    case WhileExp(_, _, _) => true
    case ForExp(_, _, _, _) => true
    case BreakExp(_) => false
    case CallExp(_, _, args) => StaysAll(args)
    case LetExp(sc) => StaysScope(sc)
  }

  predicate StaysAll(es: Exps) {
    es.ECons? ==> Stays(es.head) && StaysAll(es.tail)
  }

  predicate StaysScope(sc: Scope) {
    match sc
    case In(b) => Stays(b)
    case With(VarChunk(d), rest) => Stays(d.init) && StaysScope(rest)
    case With(FunctionChunk(ds), rest) => StaysDecs(ds) && StaysScope(rest)
    case With(TypeChunk(_), rest) => StaysScope(rest)
  }

  predicate StaysDecs(ds: Decs) {
    ds.DCons? ==> (ds.head.body.SomeExp? ==> Stays(ds.head.body.exp)) && StaysDecs(ds.tail)
  }

  /** What may be asked of a loop: that its bounds do not use its index, that they do not break, that
      it has no `_lo` or `_hi` of a scope around it where one is inserted, that its index is called
      neither. */
  datatype Test = OwnIndex | NoBreak | Uncaptured | Plain

  predicate Passes(t: Test, d: VarDec, hi: Exp, body: Exp) {
    match t
    case OwnIndex => d.name !in Free(d.init) + Free(hi)
    case NoBreak => Stays(d.init) && Stays(hi)
    case Uncaptured => LO !in Free(d.init) && {LO, HI} !! Free(hi) && {LO, HI} - {d.name} !! Free(body)
    case Plain => d.name !in {LO, HI}
  }

  const SAFE := {OwnIndex, NoBreak, Uncaptured, Plain}
  const BOUNDS := {OwnIndex, NoBreak}
  const LINKS := {OwnIndex, Uncaptured}

  /** Every loop of e passes the tests ts. */
  predicate Every(ts: set<Test>, e: Exp) {
    match e
    case IntExp(_) => true
    case VarExp(_, _) => true
    case OpExp(l, _, r) => Every(ts, l) && Every(ts, r)
    case SeqExp(es) => EveryAll(ts, es)
    case AssignExp(_, _, r) => Every(ts, r)
    case IfExp(c, t, f) => Every(ts, c) && Every(ts, t) && (f.SomeExp? ==> Every(ts, f.exp))
    case WhileExp(_, c, b) => Every(ts, c) && Every(ts, b)
    case ForExp(_, d, hi, b) =>
      && (forall t | t in ts :: Passes(t, d, hi, b)) && Every(ts, d.init) && Every(ts, hi) && Every(ts, b)
    case BreakExp(_) => true
    case CallExp(_, _, args) => EveryAll(ts, args)
    case LetExp(sc) => EveryScope(ts, sc)
  }

  predicate EveryAll(ts: set<Test>, es: Exps) {
    es.ECons? ==> Every(ts, es.head) && EveryAll(ts, es.tail)
  }

  predicate EveryScope(ts: set<Test>, sc: Scope) {
    match sc
    case In(b) => Every(ts, b)
    case With(VarChunk(d), rest) => Every(ts, d.init) && EveryScope(ts, rest)
    case With(FunctionChunk(ds), rest) => EveryDecs(ts, ds) && EveryScope(ts, rest)
    case With(TypeChunk(_), rest) => EveryScope(ts, rest)
  }

  predicate EveryDecs(ts: set<Test>, ds: Decs) {
    ds.DCons? ==> (ds.head.body.SomeExp? ==> Every(ts, ds.head.body.exp)) && EveryDecs(ts, ds.tail)
  }

  // ----- structure of the result -----

  /** The `for` loops of e. */
  function Fors(e: Exp): set<Id> {
    match e
    case IntExp(_) => {}
    case VarExp(_, _) => {}
    case OpExp(l, _, r) => Fors(l) + Fors(r)
    case SeqExp(es) => ForsAll(es)
    case AssignExp(_, _, r) => Fors(r)
    case IfExp(c, t, f) => Fors(c) + Fors(t) + (if f.SomeExp? then Fors(f.exp) else {})
    case WhileExp(_, c, b) => Fors(c) + Fors(b)
    case ForExp(id, d, hi, b) => {id} + Fors(d.init) + Fors(hi) + Fors(b)
    case BreakExp(_) => {}
    case CallExp(_, _, args) => ForsAll(args)
    case LetExp(sc) => ForsScope(sc)
  }

  function ForsAll(es: Exps): set<Id> {
    if es.ENil? then {} else Fors(es.head) + ForsAll(es.tail)
  }

  function ForsScope(sc: Scope): set<Id> {
    match sc
    case In(b) => Fors(b)
    case With(VarChunk(d), rest) => Fors(d.init) + ForsScope(rest)
    case With(FunctionChunk(ds), rest) => ForsDecs(ds) + ForsScope(rest)
    case With(TypeChunk(_), rest) => ForsScope(rest)
  }

  function ForsDecs(ds: Decs): set<Id> {
    if ds.DNil? then {}
    else (if ds.head.body.SomeExp? then Fors(ds.head.body.exp) else {}) + ForsDecs(ds.tail)
  }

  lemma NoForLeft(e: Exp)
    ensures Fors(Desugar(e)) == {}
  {
    match e
    case IntExp(_) =>
    case VarExp(_, _) =>
    case BreakExp(_) =>
    case OpExp(l, _, r) => NoForLeft(l); NoForLeft(r);
    case SeqExp(es) => NoForLeftAll(es);
    case AssignExp(_, _, r) => NoForLeft(r);
    case IfExp(c, t, f) => NoForLeft(c); NoForLeft(t); if f.SomeExp? { NoForLeft(f.exp); }
    case WhileExp(_, c, b) => NoForLeft(c); NoForLeft(b);
    case ForExp(id, d, hi, b) =>
      NoForLeft(d.init);
      NoForLeft(hi);
      NoForLeft(b);
      ForsExpand(id, d.(init := Desugar(d.init)), Desugar(hi), Desugar(b));
    case CallExp(_, _, args) => NoForLeftAll(args);
    case LetExp(sc) => NoForLeftScope(sc);
  }

  lemma {:induction false} ForsExpand(id: Id, d: VarDec, hi: Exp, body: Exp)
    ensures Fors(Expand(id, d, hi, body)) == Fors(d.init) + Fors(hi) + Fors(body)
  {
    ForsGuard(id, d.name, body);
    var es := ECons(Guard(id, d.name, body), ENil);
    assert ForsAll(es) == Fors(body);
    var s0 := In(SeqExp(es));
    assert ForsScope(s0) == Fors(SeqExp(es)) == Fors(body);
    var s1 := With(VarChunk(VarDec(d.id, d.name, None, VarExp(Fresh(id, 2), LO))), s0);
    var s2 := With(VarChunk(VarDec(Fresh(id, 1), HI, None, hi)), s1);
    assert ForsScope(s1) == Fors(VarExp(Fresh(id, 2), LO)) + ForsScope(s0) == Fors(body);
    assert ForsScope(s2) == Fors(hi) + ForsScope(s1);
    var s3 := With(VarChunk(VarDec(Fresh(id, 0), LO, None, d.init)), s2);
    assert ForsScope(s3) == Fors(d.init) + ForsScope(s2);
  }

  lemma {:induction false} ForsGuard(id: Id, i: Symbol, body: Exp)
    ensures Fors(Guard(id, i, body)) == Fors(body)
  {
    var test := OpExp(VarExp(Fresh(id, 5), i), Eq, VarExp(Fresh(id, 6), HI));
    assert Fors(test) == {};
    assert Fors(Leave(id, i)) == {};
    var rest := ECons(Advance(id, i), ENil);
    assert Fors(OpExp(VarExp(Fresh(id, 9), i), Add, IntExp(1))) == {};
    assert Fors(Advance(id, i)) == {} && ForsAll(rest) == {};
    var es := ECons(Leave(id, i), rest);
    assert ForsAll(es) == {} && ForsAll(ECons(body, es)) == Fors(body);
    assert Fors(SeqExp(ECons(body, es))) == Fors(body) && Fors(IntExp(1)) == {};
    assert Fors(Loop(id, i, body)) == Fors(body);
    assert Fors(OpExp(VarExp(Fresh(id, 3), i), Le, VarExp(Fresh(id, 4), HI))) == {};
  }

  lemma NoForLeftAll(es: Exps)
    ensures ForsAll(DesugarAll(es)) == {}
  {
    if es.ECons? { NoForLeft(es.head); NoForLeftAll(es.tail); }
  }

  lemma NoForLeftScope(sc: Scope)
    ensures ForsScope(DesugarScope(sc)) == {}
  {
    match sc
    case In(b) => NoForLeft(b);
    case With(VarChunk(d), rest) => NoForLeft(d.init); NoForLeftScope(rest);
    case With(FunctionChunk(ds), rest) => NoForLeftDecs(ds); NoForLeftScope(rest);
    case With(TypeChunk(_), rest) => NoForLeftScope(rest);
  }

  lemma NoForLeftDecs(ds: Decs)
    ensures ForsDecs(DesugarDecs(ds)) == {}
  {
    if ds.DCons? {
      if ds.head.body.SomeExp? { NoForLeft(ds.head.body.exp); }
      NoForLeftDecs(ds.tail);
    }
  }

  /** Everything but `for` is copied as it stands. */
  lemma CopiesTheRest(e: Exp)
    requires Fors(e) == {}
    ensures Desugar(e) == e
  {
    match e
    case IntExp(_) =>
    case VarExp(_, _) =>
    case BreakExp(_) =>
    case OpExp(l, _, r) => CopiesTheRest(l); CopiesTheRest(r);
    case SeqExp(es) => CopiesAll(es);
    case AssignExp(_, _, r) => CopiesTheRest(r);
    case IfExp(c, t, f) => CopiesTheRest(c); CopiesTheRest(t); if f.SomeExp? { CopiesTheRest(f.exp); }
    case WhileExp(_, c, b) => CopiesTheRest(c); CopiesTheRest(b);
    case ForExp(_, _, _, _) => assert false;
    case CallExp(_, _, args) => CopiesAll(args);
    case LetExp(sc) => CopiesScope(sc);
  }

  lemma CopiesAll(es: Exps)
    requires ForsAll(es) == {}
    ensures DesugarAll(es) == es
  {
    if es.ECons? { CopiesTheRest(es.head); CopiesAll(es.tail); }
  }

  lemma CopiesScope(sc: Scope)
    requires ForsScope(sc) == {}
    ensures DesugarScope(sc) == sc
  {
    match sc
    case In(b) => CopiesTheRest(b);
    case With(VarChunk(d), rest) => CopiesTheRest(d.init); CopiesScope(rest);
    case With(FunctionChunk(ds), rest) => CopiesDecs(ds); CopiesScope(rest);
    case With(TypeChunk(_), rest) => CopiesScope(rest);
  }

  lemma CopiesDecs(ds: Decs)
    requires ForsDecs(ds) == {}
    ensures DesugarDecs(ds) == ds
  {
    if ds.DCons? {
      if ds.head.body.SomeExp? { CopiesTheRest(ds.head.body.exp); }
      CopiesDecs(ds.tail);
    }
  }

  // ----- where breaks go -----

  /** Each break of e with the innermost loop around it. */
  function Breaks(e: Exp, loop: Option<Id>): set<(Id, Option<Id>)> {
    match e
    case IntExp(_) => {}
    case VarExp(_, _) => {}
    case OpExp(l, _, r) => Breaks(l, loop) + Breaks(r, loop)
    case SeqExp(es) => BreaksAll(es, loop)
    case AssignExp(_, _, r) => Breaks(r, loop)
    case IfExp(c, t, f) => Breaks(c, loop) + Breaks(t, loop) + (if f.SomeExp? then Breaks(f.exp, loop) else {})
    case WhileExp(id, c, b) => Breaks(c, Some(id)) + Breaks(b, Some(id))
    case ForExp(id, d, hi, b) => Breaks(d.init, Some(id)) + Breaks(hi, Some(id)) + Breaks(b, Some(id))
    case BreakExp(id) => {(id, loop)}
    case CallExp(_, _, args) => BreaksAll(args, loop)
    case LetExp(sc) => BreaksScope(sc, loop)
  }

  function BreaksAll(es: Exps, loop: Option<Id>): set<(Id, Option<Id>)> {
    if es.ENil? then {} else Breaks(es.head, loop) + BreaksAll(es.tail, loop)
  }

  function BreaksScope(sc: Scope, loop: Option<Id>): set<(Id, Option<Id>)> {
    match sc
    case In(b) => Breaks(b, loop)
    case With(VarChunk(d), rest) => Breaks(d.init, loop) + BreaksScope(rest, loop)
    case With(FunctionChunk(ds), rest) => BreaksDecs(ds, loop) + BreaksScope(rest, loop)
    case With(TypeChunk(_), rest) => BreaksScope(rest, loop)
  }

  /** Entering a function does not leave the loops around it, as in the binder's loop stack. */
  function BreaksDecs(ds: Decs, loop: Option<Id>): set<(Id, Option<Id>)> {
    if ds.DNil? then {}
    else (if ds.head.body.SomeExp? then Breaks(ds.head.body.exp, loop) else {}) + BreaksDecs(ds.tail, loop)
  }

  function Inserted(fors: set<Id>): set<(Id, Option<Id>)> {
    set id | id in fors :: (Fresh(id, 7), Some(id))
  }

  lemma InsertedUnion(a: set<Id>, b: set<Id>)
    ensures Inserted(a + b) == Inserted(a) + Inserted(b)
  {
    forall id | id in a + b ensures (Fresh(id, 7), Some(id)) in Inserted(a) + Inserted(b) {}
    forall p | p in Inserted(a) + Inserted(b) ensures p in Inserted(a + b) {
      var id :| id in a + b && p == (Fresh(id, 7), Some(id));
    }
  }

  lemma StaysBreaks(e: Exp, loop: Option<Id>, loop': Option<Id>)
    requires Stays(e)
    ensures Breaks(e, loop) == Breaks(e, loop')
  {
    match e
    case SeqExp(es) => StaysBreaksAll(es, loop, loop');
    case CallExp(_, _, args) => StaysBreaksAll(args, loop, loop');
    case LetExp(sc) => StaysBreaksScope(sc, loop, loop');
    case _ =>
  }

  lemma StaysBreaksAll(es: Exps, loop: Option<Id>, loop': Option<Id>)
    requires StaysAll(es)
    ensures BreaksAll(es, loop) == BreaksAll(es, loop')
  {
    if es.ECons? { StaysBreaks(es.head, loop, loop'); StaysBreaksAll(es.tail, loop, loop'); }
  }

  lemma StaysBreaksScope(sc: Scope, loop: Option<Id>, loop': Option<Id>)
    requires StaysScope(sc)
    ensures BreaksScope(sc, loop) == BreaksScope(sc, loop')
  {
    match sc
    case In(b) => StaysBreaks(b, loop, loop');
    case With(VarChunk(d), rest) => StaysBreaks(d.init, loop, loop'); StaysBreaksScope(rest, loop, loop');
    case With(FunctionChunk(ds), rest) => StaysBreaksDecs(ds, loop, loop'); StaysBreaksScope(rest, loop, loop');
    case With(TypeChunk(_), rest) => StaysBreaksScope(rest, loop, loop');
  }

  lemma StaysBreaksDecs(ds: Decs, loop: Option<Id>, loop': Option<Id>)
    requires StaysDecs(ds)
    ensures BreaksDecs(ds, loop) == BreaksDecs(ds, loop')
  {
    if ds.DCons? {
      if ds.head.body.SomeExp? { StaysBreaks(ds.head.body.exp, loop, loop'); }
      StaysBreaksDecs(ds.tail, loop, loop');
    }
  }

  lemma {:induction false} BreaksExpand(id: Id, d: VarDec, hi: Exp, body: Exp, loop: Option<Id>)
    ensures Breaks(Expand(id, d, hi, body), loop)
         == Breaks(d.init, loop) + Breaks(hi, loop) + Breaks(body, Some(id)) + {(Fresh(id, 7), Some(id))}
  {
    var b := Breaks(body, Some(id)) + {(Fresh(id, 7), Some(id))};
    BreaksGuard(id, d.name, body, loop);
    var es := ECons(Guard(id, d.name, body), ENil);
    assert BreaksAll(es, loop) == b;
    var s0 := In(SeqExp(es));
    assert BreaksScope(s0, loop) == Breaks(SeqExp(es), loop) == b;
    var s1 := With(VarChunk(VarDec(d.id, d.name, None, VarExp(Fresh(id, 2), LO))), s0);
    var s2 := With(VarChunk(VarDec(Fresh(id, 1), HI, None, hi)), s1);
    assert BreaksScope(s1, loop) == Breaks(VarExp(Fresh(id, 2), LO), loop) + BreaksScope(s0, loop) == b;
    assert BreaksScope(s2, loop) == Breaks(hi, loop) + BreaksScope(s1, loop);
    var s3 := With(VarChunk(VarDec(Fresh(id, 0), LO, None, d.init)), s2);
    assert BreaksScope(s3, loop) == Breaks(d.init, loop) + BreaksScope(s2, loop);
  }

  lemma {:induction false} BreaksGuard(id: Id, i: Symbol, body: Exp, loop: Option<Id>)
    ensures Breaks(Guard(id, i, body), loop) == Breaks(body, Some(id)) + {(Fresh(id, 7), Some(id))}
  {
    var l := Some(id);
    assert Breaks(OpExp(VarExp(Fresh(id, 5), i), Eq, VarExp(Fresh(id, 6), HI)), l) == {};
    assert Breaks(BreakExp(Fresh(id, 7)), l) == {(Fresh(id, 7), l)};
    assert Breaks(Leave(id, i), l) == {(Fresh(id, 7), l)};
    var rest := ECons(Advance(id, i), ENil);
    assert Breaks(OpExp(VarExp(Fresh(id, 9), i), Add, IntExp(1)), l) == {};
    assert Breaks(Advance(id, i), l) == {} && BreaksAll(rest, l) == {};
    var es := ECons(Leave(id, i), rest);
    assert BreaksAll(es, l) == {(Fresh(id, 7), l)};
    assert BreaksAll(ECons(body, es), l) == Breaks(body, l) + {(Fresh(id, 7), l)};
    assert Breaks(SeqExp(ECons(body, es)), l) == BreaksAll(ECons(body, es), l) && Breaks(IntExp(1), l) == {};
    assert Breaks(Loop(id, i, body), loop) == Breaks(body, l) + {(Fresh(id, 7), l)};
    assert Breaks(OpExp(VarExp(Fresh(id, 3), i), Le, VarExp(Fresh(id, 4), HI)), loop) == {};
  }

  /** Every break keeps the loop it left (a `for` turned `while` keeps its identity), and the one
      break added per `for` leaves that loop. */
  lemma {:induction false} BreaksKept(e: Exp, loop: Option<Id>)
    requires Every({NoBreak}, e)
    ensures Breaks(Desugar(e), loop) == Breaks(e, loop) + Inserted(Fors(e))
    decreases e, 1
  {
    match e
    case IntExp(_) =>
    case VarExp(_, _) =>
    case BreakExp(_) =>
    case OpExp(l, _, r) => BreaksKept(l, loop); BreaksKept(r, loop); InsertedUnion(Fors(l), Fors(r));
    case SeqExp(es) => BreaksKeptAll(es, loop);
    case AssignExp(_, _, r) => BreaksKept(r, loop);
    case IfExp(c, t, f) =>
      BreaksKept(c, loop);
      BreaksKept(t, loop);
      InsertedUnion(Fors(c), Fors(t));
      if f.SomeExp? { BreaksKept(f.exp, loop); InsertedUnion(Fors(c) + Fors(t), Fors(f.exp)); }
      assert f.NoExp? ==> Fors(e) == Fors(c) + Fors(t);
    case WhileExp(id, c, b) => BreaksKept(c, Some(id)); BreaksKept(b, Some(id)); InsertedUnion(Fors(c), Fors(b));
    case ForExp(_, _, _, _) => BreaksKeptFor(e, loop);
    case CallExp(_, _, args) => BreaksKeptAll(args, loop);
    case LetExp(sc) => BreaksKeptScope(sc, loop);
  }

  lemma {:induction false} BreaksKeptFor(e: Exp, loop: Option<Id>)
    requires e.ForExp? && Every({NoBreak}, e)
    ensures Breaks(Desugar(e), loop) == Breaks(e, loop) + Inserted(Fors(e))
    decreases e, 0
  {
    var id, lo, hi, b := e.id, e.index.init, e.hi, e.body;
    BreaksKept(lo, loop);
    BreaksKept(hi, loop);
    BreaksKept(b, Some(id));
    StaysBreaks(lo, loop, Some(id));
    StaysBreaks(hi, loop, Some(id));
    BreaksExpand(id, e.index.(init := Desugar(lo)), Desugar(hi), Desugar(b), loop);
    InsertedUnion({id}, Fors(lo));
    InsertedUnion({id} + Fors(lo), Fors(hi));
    InsertedUnion({id} + Fors(lo) + Fors(hi), Fors(b));
    assert Inserted({id}) == {(Fresh(id, 7), Some(id))};
  }

  lemma {:induction false} BreaksKeptAll(es: Exps, loop: Option<Id>)
    requires EveryAll({NoBreak}, es)
    ensures BreaksAll(DesugarAll(es), loop) == BreaksAll(es, loop) + Inserted(ForsAll(es))
  {
    if es.ECons? {
      BreaksKept(es.head, loop);
      BreaksKeptAll(es.tail, loop);
      InsertedUnion(Fors(es.head), ForsAll(es.tail));
    }
  }

  lemma {:induction false} BreaksKeptScope(sc: Scope, loop: Option<Id>)
    requires EveryScope({NoBreak}, sc)
    ensures BreaksScope(DesugarScope(sc), loop) == BreaksScope(sc, loop) + Inserted(ForsScope(sc))
  {
    match sc
    case In(b) => BreaksKept(b, loop);
    case With(VarChunk(d), rest) =>
      BreaksKept(d.init, loop);
      BreaksKeptScope(rest, loop);
      InsertedUnion(Fors(d.init), ForsScope(rest));
    case With(FunctionChunk(ds), rest) =>
      BreaksKeptDecs(ds, loop);
      BreaksKeptScope(rest, loop);
      InsertedUnion(ForsDecs(ds), ForsScope(rest));
    case With(TypeChunk(_), rest) => BreaksKeptScope(rest, loop);
  }

  lemma {:induction false} BreaksKeptDecs(ds: Decs, loop: Option<Id>)
    requires EveryDecs({NoBreak}, ds)
    ensures BreaksDecs(DesugarDecs(ds), loop) == BreaksDecs(ds, loop) + Inserted(ForsDecs(ds))
  {
    if ds.DCons? {
      if ds.head.body.SomeExp? {
        BreaksKept(ds.head.body.exp, loop);
        InsertedUnion(Fors(ds.head.body.exp), ForsDecs(ds.tail));
      }
      BreaksKeptDecs(ds.tail, loop);
      assert ds.head.body.NoExp? ==> ForsDecs(ds) == ForsDecs(ds.tail);
    }
  }
}
