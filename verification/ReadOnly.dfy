/** The type checker's rule that a `for` index is not assigned to, and why it is enough. */
module ReadOnly {
  import opened Options
  import opened Ast
  import opened Semantics
  import Int32

  /** The declarations in scope, innermost first, with the read-only mark of each variable. */
  datatype Marks =
    | MEmpty
    | MVar(id: Id, name: Symbol, readOnly: bool, rest: Marks)
    | MFun(decs: Decs, rest: Marks)

  function Marked(m: Marks, x: Symbol): bool {
    match m
    case MEmpty => false
    case MVar(_, y, ro, rest) => if x == y then ro else Marked(rest, x)
    case MFun(_, rest) => Marked(rest, x)
  }

  function MarkFormals(formals: seq<Formal>, m: Marks): Marks {
    if formals == [] then m
    else MarkFormals(formals[1..], MVar(formals[0].id, formals[0].name, false, m))
  }

  // ----- the rule -----

  predicate Accepts(e: Exp, m: Marks) {
    match e
    case IntExp(_) => true
    case VarExp(_, _) => true
    case OpExp(l, _, r) => Accepts(l, m) && Accepts(r, m)
    case SeqExp(es) => AcceptsAll(es, m)
    case AssignExp(_, x, r) => Accepts(r, m) && !Marked(m, x)
    case IfExp(c, t, f) => Accepts(c, m) && Accepts(t, m) && (f.SomeExp? ==> Accepts(f.exp, m))
    case WhileExp(_, c, b) => Accepts(c, m) && Accepts(b, m)
    case ForExp(_, d, hi, b) =>
      && Accepts(d.init, MVar(d.id, d.name, false, m))
      && Accepts(hi, MVar(d.id, d.name, false, m))
      && Accepts(b, MVar(d.id, d.name, true, m))
    case BreakExp(_) => true
    case CallExp(_, _, args) => AcceptsAll(args, m)
    case LetExp(sc) => AcceptsScope(sc, m)
  }

  predicate AcceptsAll(es: Exps, m: Marks) {
    match es
    case ENil => true
    case ECons(e, rest) => Accepts(e, m) && AcceptsAll(rest, m)
  }

  predicate AcceptsScope(sc: Scope, m: Marks) {
    match sc
    case In(b) => Accepts(b, m)
    case With(VarChunk(d), rest) =>
      var m' := MVar(d.id, d.name, false, m);
      Accepts(d.init, m') && AcceptsScope(rest, m')
    case With(FunctionChunk(ds), rest) =>
      AcceptsDecs(ds, MFun(ds, m)) && AcceptsScope(rest, MFun(ds, m))
    case With(TypeChunk(_), rest) => AcceptsScope(rest, m)
  }

  predicate AcceptsDecs(ds: Decs, m: Marks) {
    match ds
    case DNil => true
    case DCons(d, rest) =>
      && (d.body.SomeExp? ==> Accepts(d.body.exp, MarkFormals(d.formals, m)))
      && AcceptsDecs(rest, m)
  }

  // ----- what an accepted program leaves alone -----

  /** env has exactly the bindings of m, and its functions obey the rule. */
  ghost predicate Aligned(env: Env, m: Marks) {
    match (env, m)
    case (Empty, MEmpty) => true
    case (VarB(id, x, _, r), MVar(id', x', _, r')) => id == id' && x == x' && Aligned(r, r')
    case (FunB(ds, r), MFun(ds', r')) => ds == ds' && AcceptsDecs(ds, m) && Aligned(r, r')
    case _ => false
  }

  /** The read-only variables have the same value in a and b. */
  ghost predicate Frozen(a: Env, b: Env, m: Marks) {
    match m
    case MEmpty => true
    case MVar(_, _, ro, r) =>
      a.VarB? && b.VarB? && (ro ==> a.value == b.value) && Frozen(a.rest, b.rest, r)
    case MFun(_, r) => a.FunB? && b.FunB? && Frozen(a.rest, b.rest, r)
  }

  ghost predicate Keeps(a: Env, b: Env, m: Marks) {
    Aligned(b, m) && Frozen(a, b, m)
  }

  ghost predicate KeepsOut(a: Env, r: Outcome, m: Marks) {
    r.Normal? || r.Broke? ==> Keeps(a, r.s.env, m)
  }

  lemma FrozenTrans(a: Env, b: Env, c: Env, m: Marks)
    requires Frozen(a, b, m) && Frozen(b, c, m)
    ensures Frozen(a, c, m)
  {}

  lemma KeepsSelf(a: Env, m: Marks)
    requires Aligned(a, m)
    ensures Keeps(a, a, m)
  {}

  lemma SetVarKeeps(env: Env, x: Symbol, v: Int32.I32, m: Marks)
    requires Aligned(env, m) && !Marked(m, x)
    ensures Keeps(env, SetVar(env, x, v), m)
  {
    match env
    case Empty =>
    case VarB(_, y, _, rest) => if x == y { KeepsSelf(rest, m.rest); } else { SetVarKeeps(rest, x, v, m.rest); }
    case FunB(_, rest) => SetVarKeeps(rest, x, v, m.rest);
  }

  /** The marks in force where f was declared. */
  ghost function FunMarks(m: Marks, f: Symbol): Marks {
    match m
    case MEmpty => MEmpty
    case MVar(_, _, _, rest) => FunMarks(rest, f)
    case MFun(ds, rest) => if FindDec(ds, f).Some? then m else FunMarks(rest, f)
  }

  lemma FindFunAligned(env: Env, f: Symbol, m: Marks)
    requires Aligned(env, m) && FindFun(env, f).Some?
    ensures var (d, tail) := FindFun(env, f).value; var m' := FunMarks(m, f);
      && Aligned(tail, m')
      && (d.body.SomeExp? ==> Accepts(d.body.exp, MarkFormals(d.formals, m')))
  {
    match env
    case Empty =>
    case VarB(_, _, _, rest) => FindFunAligned(rest, f, m.rest);
    case FunB(ds, rest) =>
      if FindDec(ds, f).Some? { FindDecAccepted(ds, f, m); } else { FindFunAligned(rest, f, m.rest); }
  }

  lemma FindDecAccepted(ds: Decs, f: Symbol, m: Marks)
    requires AcceptsDecs(ds, m) && FindDec(ds, f).Some?
    ensures var d := FindDec(ds, f).value; d.body.SomeExp? ==> Accepts(d.body.exp, MarkFormals(d.formals, m))
  {}

  lemma GraftKeeps(env: Env, f: Symbol, tail: Env, m: Marks)
    requires Aligned(env, m) && FindFun(env, f).Some?
    requires Keeps(FindFun(env, f).value.1, tail, FunMarks(m, f))
    ensures Keeps(env, Graft(env, f, tail), m)
  {
    match env
    case Empty =>
    case VarB(_, _, _, rest) => GraftKeeps(rest, f, tail, m.rest);
    case FunB(ds, rest) => if FindDec(ds, f).None? { GraftKeeps(rest, f, tail, m.rest); }
  }

  lemma BindFormalsAligned(formals: seq<Formal>, vs: seq<Int32.I32>, env: Env, m: Marks)
    requires |formals| == |vs| && Aligned(env, m)
    ensures Aligned(BindFormals(formals, vs, env), MarkFormals(formals, m))
  {
    if formals != [] {
      BindFormalsAligned(formals[1..], vs[1..], VarB(formals[0].id, formals[0].name, Some(vs[0]), env),
                         MVar(formals[0].id, formals[0].name, false, m));
    }
  }

  lemma PopFormalsKeeps(formals: seq<Formal>, vs: seq<Int32.I32>, env: Env, m: Marks, after: Env)
    requires |formals| == |vs| && Aligned(env, m)
    requires Keeps(BindFormals(formals, vs, env), after, MarkFormals(formals, m))
    ensures Keeps(env, PopN(after, |formals|), m)
  {
    if formals != [] {
      var f := formals[0];
      var env' := VarB(f.id, f.name, Some(vs[0]), env);
      PopFormalsKeeps(formals[1..], vs[1..], env', MVar(f.id, f.name, false, m), after);
      PopLast(after, |formals|);
    }
  }

  lemma PopLast(env: Env, n: nat)
    requires n > 0
    ensures PopN(env, n) == Pop(PopN(env, n - 1))
  {
    if n > 1 { PopLast(Pop(env), n - 1); }
  }

  /** Running an accepted expression leaves every read-only variable in scope unchanged. */
  lemma {:induction false} EvalKeeps(o: Oracle, e: Exp, s: State, fuel: nat, m: Marks)
    requires Aligned(s.env, m) && Accepts(e, m)
    ensures KeepsOut(s.env, Eval(o, e, s, fuel), m)
    decreases fuel, e, 2
  {
    KeepsSelf(s.env, m);
    match e
    case IntExp(_) =>
    case VarExp(_, _) =>
    case BreakExp(_) =>
    case OpExp(l, _, r) =>
      EvalKeeps(o, l, s, fuel, m);
      var ol := Eval(o, l, s, fuel);
      if ol.Normal? {
        EvalKeeps(o, r, ol.s, fuel, m);
        Compose(s.env, ol.s.env, Eval(o, r, ol.s, fuel), m);
      }
    case SeqExp(es) => EvalSeqKeeps(o, es, 0, s, fuel, m);
    case AssignExp(_, x, r) =>
      EvalKeeps(o, r, s, fuel, m);
      var or := Eval(o, r, s, fuel);
      if or.Normal? {
        SetVarKeeps(or.s.env, x, or.value, m);
        FrozenTrans(s.env, or.s.env, SetVar(or.s.env, x, or.value), m);
      }
    case IfExp(c, t, f) =>
      EvalKeeps(o, c, s, fuel, m);
      var oc := Eval(o, c, s, fuel);
      if oc.Normal? {
        EvalKeeps(o, t, oc.s, fuel, m);
        Compose(s.env, oc.s.env, Eval(o, t, oc.s, fuel), m);
        if f.SomeExp? {
          EvalKeeps(o, f.exp, oc.s, fuel, m);
          Compose(s.env, oc.s.env, Eval(o, f.exp, oc.s, fuel), m);
        }
      }
    case WhileExp(_, _, _) => EvalWhileKeeps(o, e, s, fuel, m);
    case ForExp(_, d, hi, b) => EvalForExpKeeps(o, e, s, fuel, m);
    case CallExp(_, _, _) => EvalCallKeeps(o, e, s, fuel, m);
    case LetExp(sc) => EvalScopeKeeps(o, sc, s, fuel, m);
  }

  lemma {:induction false} EvalWhileKeeps(o: Oracle, e: Exp, s: State, fuel: nat, m: Marks)
    requires e.WhileExp? && Aligned(s.env, m) && Accepts(e, m)
    ensures KeepsOut(s.env, Eval(o, e, s, fuel), m)
    decreases fuel, e, 1
  {
    EvalKeeps(o, e.test, s, fuel, m);
    var oc := Eval(o, e.test, s, fuel);
    if oc.Normal? && oc.value != 0 && fuel > 0 {
      EvalKeeps(o, e.body, oc.s, fuel - 1, m);
      var ob := Eval(o, e.body, oc.s, fuel - 1);
      Compose(s.env, oc.s.env, ob, m);
      if ob.Normal? {
        EvalKeeps(o, e, ob.s, fuel - 1, m);
        Compose(s.env, ob.s.env, Eval(o, e, ob.s, fuel - 1), m);
      }
    }
  }

  lemma {:induction false} EvalCallKeeps(o: Oracle, e: Exp, s: State, fuel: nat, m: Marks)
    requires e.CallExp? && Aligned(s.env, m) && Accepts(e, m)
    ensures KeepsOut(s.env, Eval(o, e, s, fuel), m)
    decreases fuel, e, 1
  {
    EvalArgsKeeps(o, e.args, s, fuel, m);
    var oa := EvalArgs(o, e.args, s, fuel);
    if oa.Values? && fuel > 0 {
      var found := FindFun(oa.s.env, e.name);
      if found.Some? && |found.value.0.formals| == |oa.values| && found.value.0.body.SomeExp? {
        var (d, tail) := found.value;
        var m' := FunMarks(m, e.name);
        FindFunAligned(oa.s.env, e.name, m);
        BindFormalsAligned(d.formals, oa.values, tail, m');
        var s' := State(BindFormals(d.formals, oa.values, tail), oa.s.trace);
        EvalKeeps(o, d.body.exp, s', fuel - 1, MarkFormals(d.formals, m'));
        var ob := Eval(o, d.body.exp, s', fuel - 1);
        if ob.Normal? {
          PopFormalsKeeps(d.formals, oa.values, tail, m', ob.s.env);
          var tail' := PopN(ob.s.env, |d.formals|);
          GraftKeeps(oa.s.env, e.name, tail', m);
          FrozenTrans(s.env, oa.s.env, Graft(oa.s.env, e.name, tail'), m);
        }
      }
    }
  }

  lemma Compose(a: Env, b: Env, r: Outcome, m: Marks)
    requires Frozen(a, b, m) && KeepsOut(b, r, m)
    ensures KeepsOut(a, r, m)
  {
    if r.Normal? || r.Broke? { FrozenTrans(a, b, r.s.env, m); }
  }

  lemma {:induction false} EvalForExpKeeps(o: Oracle, e: Exp, s: State, fuel: nat, m: Marks)
    requires e.ForExp? && Aligned(s.env, m) && Accepts(e, m)
    ensures KeepsOut(s.env, Eval(o, e, s, fuel), m)
    decreases fuel, e, 1
  {
    KeepsSelf(s.env, m);
    var d := e.index;
    var m0 := MVar(d.id, d.name, false, m);
    var m1 := MVar(d.id, d.name, true, m);
    var s0 := State(VarB(d.id, d.name, None, s.env), s.trace);
    EvalKeeps(o, d.init, s0, fuel, m0);
    var ol := Eval(o, d.init, s0, fuel);
    if ol.Normal? {
      var s1 := SetTop(ol.s, ol.value);
      EvalKeeps(o, e.hi, s1, fuel, m0);
      var oh := Eval(o, e.hi, s1, fuel);
      if oh.Normal? || oh.Broke? { FrozenTrans(s.env, s1.env.rest, oh.s.env.rest, m); }
      if oh.Normal? {
        EvalForKeeps(o, e, ol.value, oh.value, oh.s, fuel, m);
        var r := EvalFor(o, e, ol.value, oh.value, oh.s, fuel);
        if r.Normal? || r.Broke? { FrozenTrans(s.env, oh.s.env.rest, r.s.env.rest, m); }
      }
    }
  }

  lemma {:induction false} EvalForKeeps(o: Oracle, e: Exp, k: int, h: Int32.I32, s: State, fuel: nat, m: Marks)
    requires e.ForExp? && k >= Int32.MIN
    requires Accepts(e.body, MVar(e.index.id, e.index.name, true, m))
    requires s.env.VarB? && s.env.id == e.index.id && s.env.name == e.index.name && Aligned(s.env.rest, m)
    ensures KeepsOut(s.env, EvalFor(o, e, k, h, s, fuel), MVar(e.index.id, e.index.name, false, m))
    decreases fuel, e, 0
  {
    KeepsSelf(s.env.rest, m);
    if k <= h && fuel > 0 {
      var m1 := MVar(e.index.id, e.index.name, true, m);
      EvalKeeps(o, e.body, SetTop(s, k), fuel - 1, m1);
      var ob := Eval(o, e.body, SetTop(s, k), fuel - 1);
      if ob.Normal? {
        EvalForKeeps(o, e, k + 1, h, ob.s, fuel - 1, m);
        var r := EvalFor(o, e, k + 1, h, ob.s, fuel - 1);
        if r.Normal? || r.Broke? { FrozenTrans(s.env.rest, ob.s.env.rest, r.s.env.rest, m); }
      }
    }
  }

  lemma {:induction false} EvalSeqKeeps(o: Oracle, es: Exps, last: Int32.I32, s: State, fuel: nat, m: Marks)
    requires Aligned(s.env, m) && AcceptsAll(es, m)
    ensures KeepsOut(s.env, EvalSeq(o, es, last, s, fuel), m)
    decreases fuel, es, 0
  {
    KeepsSelf(s.env, m);
    if es.ECons? {
      EvalKeeps(o, es.head, s, fuel, m);
      var oe := Eval(o, es.head, s, fuel);
      if oe.Normal? {
        EvalSeqKeeps(o, es.tail, oe.value, oe.s, fuel, m);
        Compose(s.env, oe.s.env, EvalSeq(o, es.tail, oe.value, oe.s, fuel), m);
      }
    }
  }

  lemma {:induction false} EvalArgsKeeps(o: Oracle, es: Exps, s: State, fuel: nat, m: Marks)
    requires Aligned(s.env, m) && AcceptsAll(es, m)
    ensures var r := EvalArgs(o, es, s, fuel);
      if r.Values? then Keeps(s.env, r.s.env, m) else KeepsOut(s.env, r.outcome, m)
    decreases fuel, es, 0
  {
    KeepsSelf(s.env, m);
    if es.ECons? {
      EvalKeeps(o, es.head, s, fuel, m);
      var oe := Eval(o, es.head, s, fuel);
      if oe.Normal? {
        EvalArgsKeeps(o, es.tail, oe.s, fuel, m);
        var r := EvalArgs(o, es.tail, oe.s, fuel);
        if r.Values? { FrozenTrans(s.env, oe.s.env, r.s.env, m); } else { Compose(s.env, oe.s.env, r.outcome, m); }
      }
    }
  }

  lemma {:induction false} EvalScopeKeeps(o: Oracle, sc: Scope, s: State, fuel: nat, m: Marks)
    requires Aligned(s.env, m) && AcceptsScope(sc, m)
    ensures KeepsOut(s.env, EvalScope(o, sc, s, fuel), m)
    decreases fuel, sc, 0
  {
    match sc
    case In(b) => EvalKeeps(o, b, s, fuel, m);
    case With(VarChunk(d), rest) =>
      var m' := MVar(d.id, d.name, false, m);
      var s0 := State(VarB(d.id, d.name, None, s.env), s.trace);
      EvalKeeps(o, d.init, s0, fuel, m');
      var oi := Eval(o, d.init, s0, fuel);
      if oi.Normal? {
        var s1 := SetTop(oi.s, oi.value);
        EvalScopeKeeps(o, rest, s1, fuel, m');
        var r := EvalScope(o, rest, s1, fuel);
        if r.Normal? || r.Broke? { FrozenTrans(s.env, s1.env.rest, r.s.env.rest, m); }
      }
    case With(FunctionChunk(ds), rest) =>
      EvalScopeKeeps(o, rest, State(FunB(ds, s.env), s.trace), fuel, MFun(ds, m));
    case With(TypeChunk(_), rest) => EvalScopeKeeps(o, rest, s, fuel, m);
  }

  /** The body of an accepted `for` never changes the index, whatever functions it declares or
      calls and whatever loops it contains. */
  lemma ForIndexUnchanged(o: Oracle, e: Exp, s: State, fuel: nat, m: Marks)
    requires e.ForExp? && Accepts(e, m)
    requires s.env.VarB? && s.env.id == e.index.id && s.env.name == e.index.name && Aligned(s.env.rest, m)
    ensures var r := Eval(o, e.body, s, fuel);
      r.Normal? || r.Broke? ==> r.s.env.VarB? && r.s.env.value == s.env.value
  {
    EvalKeeps(o, e.body, s, fuel, MVar(e.index.id, e.index.name, true, m));
  }
}
