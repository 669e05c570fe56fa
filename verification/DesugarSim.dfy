/** Desugaring preserves meaning: the desugared program has the same outcome at every amount of
    fuel, with the same trace and the same values in every variable the user wrote. */
module DesugarSim {
  import opened Options
  import opened Ast
  import opened Semantics
  import opened ReadOnly
  import opened Desugaring
  import Int32

  /** How a source environment a and a target environment b line up, innermost first: a binding
      of both, one of a that code in scope never mentions, or a `_lo` or `_hi` of b. */
  datatype View = VNil | Both(rest: View) | LeftOnly(rest: View) | RightOnly(name: Symbol, rest: View)

  /** The names that may denote something else in the target: code in scope does not use them. */
  ghost function Hidden(w: View, m: Marks): set<Symbol> {
    match (w, m)
    case (LeftOnly(r), MVar(_, x, _, m')) => {x} + Hidden(r, m')
    case (Both(r), MVar(_, x, _, m')) => Hidden(r, m') - {x}
    case (Both(r), MFun(_, m')) => Hidden(r, m')
    case (RightOnly(y, r), _) => {y} + Hidden(r, m)
    case _ => {}
  }

  /** Code the simulation covers in a given scope. */
  ghost predicate Covered(e: Exp, w: View, m: Marks) {
    Every(SAFE, e) && Accepts(e, m) && Free(e) !! Hidden(w, m)
  }

  ghost predicate Rel(w: View, m: Marks, a: Env, b: Env)
    decreases w
  {
    match w
    case VNil => m.MEmpty? && a.Empty? && b.Empty?
    case Both(r) =>
      (m.MVar? && a.VarB? && b.VarB? && a.id == b.id && a.name == b.name == m.name && a.value == b.value
       && Rel(r, m.rest, a.rest, b.rest))
      || (m.MFun? && a.FunB? && b.FunB? && b.decs == DesugarDecs(a.decs)
          && EveryDecs(SAFE, a.decs) && FreeDecs(a.decs) !! Hidden(w, m) && Rel(r, m.rest, a.rest, b.rest))
    case LeftOnly(r) => m.MVar? && a.VarB? && a.name == m.name && Rel(r, m.rest, a.rest, b)
    case RightOnly(y, r) => b.VarB? && b.name == y && Rel(r, m, a, b.rest)
  }

  /** The `_lo` and `_hi` in scope keep their values from b to c. */
  ghost predicate Fixed(w: View, b: Env, c: Env)
    decreases w
  {
    match w
    case VNil => true
    case Both(r) => !b.Empty? && !c.Empty? && Fixed(r, b.rest, c.rest)
    case LeftOnly(r) => Fixed(r, b, c)
    case RightOnly(_, r) => b.VarB? && c.VarB? && b.value == c.value && b.name == c.name && Fixed(r, b.rest, c.rest)
  }

  ghost predicate Match(w: View, m: Marks, b: Env, s: State, s': State) {
    s.trace == s'.trace && Rel(w, m, s.env, s'.env) && Fixed(w, b, s'.env)
  }

  /** r and r' are the same outcome, from target environment b. */
  ghost predicate Same(w: View, m: Marks, b: Env, r: Outcome, r': Outcome) {
    match r
    case Normal(v, s) => r'.Normal? && r'.value == v && Match(w, m, b, s, r'.s)
    case Broke(s) => r'.Broke? && Match(w, m, b, s, r'.s)
    case OutOfFuel => r'.OutOfFuel?
    case Undefined => r'.Undefined?
  }

  // ----- environments -----

  lemma FixedSelf(w: View, m: Marks, a: Env, b: Env)
    requires Rel(w, m, a, b)
    ensures Fixed(w, b, b)
    decreases w
  {
    match w
    case VNil =>
    case Both(r) => FixedSelf(r, m.rest, a.rest, b.rest);
    case LeftOnly(r) => FixedSelf(r, m.rest, a.rest, b);
    case RightOnly(_, r) => FixedSelf(r, m, a, b.rest);
  }

  lemma FixedTrans(w: View, b: Env, c: Env, d: Env)
    requires Fixed(w, b, c) && Fixed(w, c, d)
    ensures Fixed(w, b, d)
    decreases w
  {
    match w
    case VNil =>
    case Both(r) => FixedTrans(r, b.rest, c.rest, d.rest);
    case LeftOnly(r) => FixedTrans(r, b, c, d);
    case RightOnly(_, r) => FixedTrans(r, b.rest, c.rest, d.rest);
  }

  lemma SameFrom(w: View, m: Marks, b: Env, c: Env, r: Outcome, r': Outcome)
    requires Fixed(w, b, c) && Same(w, m, c, r, r')
    ensures Same(w, m, b, r, r')
  {
    if r.Normal? || r.Broke? { FixedTrans(w, b, c, r'.s.env); }
  }

  lemma FindVarRel(w: View, m: Marks, a: Env, b: Env, x: Symbol)
    requires Rel(w, m, a, b) && x !in Hidden(w, m)
    ensures FindVar(a, x) == FindVar(b, x)
    decreases w
  {
    match w
    case VNil =>
    case Both(r) => if a.FunB? || a.name != x { FindVarRel(r, m.rest, a.rest, b.rest, x); }
    case LeftOnly(r) => FindVarRel(r, m.rest, a.rest, b, x);
    case RightOnly(_, r) => FindVarRel(r, m, a, b.rest, x);
  }

  lemma SetVarRel(w: View, m: Marks, a: Env, b: Env, x: Symbol, v: Int32.I32)
    requires Rel(w, m, a, b) && x !in Hidden(w, m)
    ensures Rel(w, m, SetVar(a, x, v), SetVar(b, x, v)) && Fixed(w, b, SetVar(b, x, v))
    decreases w
  {
    FixedSelf(w, m, a, b);
    match w
    case VNil =>
    case Both(r) => if a.FunB? || a.name != x { SetVarRel(r, m.rest, a.rest, b.rest, x, v); }
    case LeftOnly(r) => SetVarRel(r, m.rest, a.rest, b, x, v);
    case RightOnly(_, r) => SetVarRel(r, m, a, b.rest, x, v);
  }

  /** The part of the view in which f was declared. */
  ghost function FunView(w: View, m: Marks, f: Symbol): View {
    match w
    case VNil => VNil
    case Both(r) =>
      if m.MFun? && FindDec(m.decs, f).Some? then w
      else if m.MEmpty? then VNil
      else FunView(r, m.rest, f)
    case LeftOnly(r) => if m.MVar? then FunView(r, m.rest, f) else VNil
    case RightOnly(_, r) => FunView(r, m, f)
  }

  lemma FindDecDesugared(ds: Decs, f: Symbol)
    ensures FindDec(ds, f).None? ==> FindDec(DesugarDecs(ds), f).None?
    ensures FindDec(ds, f).Some? ==> FindDec(DesugarDecs(ds), f) == Some(DesugarDec(FindDec(ds, f).value))
  {}

  lemma FindDecCovered(ds: Decs, f: Symbol)
    requires EveryDecs(SAFE, ds) && FindDec(ds, f).Some?
    ensures var d := FindDec(ds, f).value; (d.body.SomeExp? ==> Every(SAFE, d.body.exp)) && FreeDec(d) <= FreeDecs(ds)
  {
    if ds.head.name != f { FindDecCovered(ds.tail, f); }
  }

  lemma FindFunRel(w: View, m: Marks, a: Env, b: Env, f: Symbol)
    requires Rel(w, m, a, b) && Aligned(a, m)
    ensures FindFun(a, f).None? ==> FindFun(b, f).None?
    ensures FindFun(a, f).Some? ==>
      var (d, tail) := FindFun(a, f).value; var w', m' := FunView(w, m, f), FunMarks(m, f);
      && FindFun(b, f).Some? && FindFun(b, f).value.0 == DesugarDec(d)
      && Rel(w', m', tail, FindFun(b, f).value.1)
      && (d.body.SomeExp? ==> Every(SAFE, d.body.exp)) && FreeDec(d) !! Hidden(w', m')
    decreases w
  {
    match w
    case VNil =>
    case Both(r) =>
      if a.FunB? {
        FindDecDesugared(a.decs, f);
        if FindDec(a.decs, f).Some? { FindDecCovered(a.decs, f); } else { FindFunRel(r, m.rest, a.rest, b.rest, f); }
      } else {
        FindFunRel(r, m.rest, a.rest, b.rest, f);
      }
    case LeftOnly(r) => FindFunRel(r, m.rest, a.rest, b, f);
    case RightOnly(_, r) => FindFunRel(r, m, a, b.rest, f);
  }

  lemma GraftRel(w: View, m: Marks, a: Env, b: Env, f: Symbol, ta: Env, tb: Env)
    requires Rel(w, m, a, b) && Aligned(a, m) && FindFun(a, f).Some? && FindFun(b, f).Some?
    requires Rel(FunView(w, m, f), FunMarks(m, f), ta, tb)
    requires Fixed(FunView(w, m, f), FindFun(b, f).value.1, tb)
    ensures Rel(w, m, Graft(a, f, ta), Graft(b, f, tb)) && Fixed(w, b, Graft(b, f, tb))
    decreases w
  {
    match w
    case VNil =>
    case Both(r) =>
      if a.FunB? {
        FindDecDesugared(a.decs, f);
        if FindDec(a.decs, f).None? { GraftRel(r, m.rest, a.rest, b.rest, f, ta, tb); }
      } else {
        GraftRel(r, m.rest, a.rest, b.rest, f, ta, tb);
      }
    case LeftOnly(r) => GraftRel(r, m.rest, a.rest, b, f, ta, tb);
    case RightOnly(_, r) => GraftRel(r, m, a, b.rest, f, ta, tb);
  }

  ghost function FormalView(n: nat, w: View): View { if n == 0 then w else FormalView(n - 1, Both(w)) }

  lemma BindFormalsRel(w: View, m: Marks, a: Env, b: Env, fs: seq<Formal>, vs: seq<Int32.I32>)
    requires |fs| == |vs| && Rel(w, m, a, b)
    ensures Rel(FormalView(|fs|, w), MarkFormals(fs, m), BindFormals(fs, vs, a), BindFormals(fs, vs, b))
    ensures Hidden(FormalView(|fs|, w), MarkFormals(fs, m)) == Hidden(w, m) - FormalNames(fs)
    decreases |fs|
  {
    if fs != [] {
      BindFormalsRel(Both(w), MVar(fs[0].id, fs[0].name, false, m), VarB(fs[0].id, fs[0].name, Some(vs[0]), a),
                     VarB(fs[0].id, fs[0].name, Some(vs[0]), b), fs[1..], vs[1..]);
    }
  }

  lemma PopFormalsRel(w: View, m: Marks, b: Env, fs: seq<Formal>, vs: seq<Int32.I32>, ra: Env, rb: Env)
    requires |fs| == |vs| && Rel(FormalView(|fs|, w), MarkFormals(fs, m), ra, rb)
    requires Fixed(FormalView(|fs|, w), BindFormals(fs, vs, b), rb)
    ensures Rel(w, m, PopN(ra, |fs|), PopN(rb, |fs|)) && Fixed(w, b, PopN(rb, |fs|))
    decreases |fs|
  {
    if fs != [] {
      PopFormalsRel(Both(w), MVar(fs[0].id, fs[0].name, false, m), VarB(fs[0].id, fs[0].name, Some(vs[0]), b),
                    fs[1..], vs[1..], ra, rb);
      PopLast(ra, |fs|);
      PopLast(rb, |fs|);
    }
  }

  // ----- breaks that stay -----

  lemma {:induction false} StaysEval(o: Oracle, e: Exp, s: State, fuel: nat)
    requires Stays(e)
    ensures !Eval(o, e, s, fuel).Broke?
    decreases fuel, e, 1
  {
    match e
    case OpExp(l, _, r) =>
      StaysEval(o, l, s, fuel);
      var ol := Eval(o, l, s, fuel);
      if ol.Normal? { StaysEval(o, r, ol.s, fuel); }
    case SeqExp(es) => StaysEvalSeq(o, es, 0, s, fuel);
    case AssignExp(_, _, r) => StaysEval(o, r, s, fuel);
    case IfExp(c, t, f) =>
      StaysEval(o, c, s, fuel);
      var oc := Eval(o, c, s, fuel);
      if oc.Normal? {
        StaysEval(o, t, oc.s, fuel);
        if f.SomeExp? { StaysEval(o, f.exp, oc.s, fuel); }
      }
    case WhileExp(_, _, _) => WhileNeverBreaks(o, e, s, fuel);
    case ForExp(_, d, hi, _) =>
      var ol := Eval(o, d.init, State(VarB(d.id, d.name, None, s.env), s.trace), fuel);
      if ol.Normal? {
        var oh := Eval(o, hi, SetTop(ol.s, ol.value), fuel);
        if oh.Normal? { ForNeverBreaks(o, e, ol.value, oh.value, oh.s, fuel); }
      }
    case CallExp(_, _, args) => StaysEvalArgs(o, args, s, fuel);
    case LetExp(sc) => StaysEvalScope(o, sc, s, fuel);
    case _ =>
  }

  lemma {:induction false} WhileNeverBreaks(o: Oracle, e: Exp, s: State, fuel: nat)
    requires e.WhileExp?
    ensures !Eval(o, e, s, fuel).Broke?
    decreases fuel
  {
    var oc := Eval(o, e.test, s, fuel);
    if oc.Normal? && oc.value != 0 && fuel > 0 {
      var ob := Eval(o, e.body, oc.s, fuel - 1);
      if ob.Normal? { WhileNeverBreaks(o, e, ob.s, fuel - 1); }
    }
  }

  lemma {:induction false} ForNeverBreaks(o: Oracle, e: Exp, k: int, h: Int32.I32, s: State, fuel: nat)
    requires e.ForExp? && k >= Int32.MIN
    ensures !EvalFor(o, e, k, h, s, fuel).Broke?
    decreases fuel
  {
    if k <= h && fuel > 0 {
      var ob := Eval(o, e.body, SetTop(s, k), fuel - 1);
      if ob.Normal? { ForNeverBreaks(o, e, k + 1, h, ob.s, fuel - 1); }
    }
  }

  lemma {:induction false} StaysEvalSeq(o: Oracle, es: Exps, last: Int32.I32, s: State, fuel: nat)
    requires StaysAll(es)
    ensures !EvalSeq(o, es, last, s, fuel).Broke?
    decreases fuel, es, 0
  {
    if es.ECons? {
      StaysEval(o, es.head, s, fuel);
      var oe := Eval(o, es.head, s, fuel);
      if oe.Normal? { StaysEvalSeq(o, es.tail, oe.value, oe.s, fuel); }
    }
  }

  lemma {:induction false} StaysEvalArgs(o: Oracle, es: Exps, s: State, fuel: nat)
    requires StaysAll(es)
    ensures var r := EvalArgs(o, es, s, fuel); r.Stop? ==> !r.outcome.Broke?
    decreases fuel, es, 0
  {
    if es.ECons? {
      StaysEval(o, es.head, s, fuel);
      var oe := Eval(o, es.head, s, fuel);
      if oe.Normal? { StaysEvalArgs(o, es.tail, oe.s, fuel); }
    }
  }

  lemma {:induction false} StaysEvalScope(o: Oracle, sc: Scope, s: State, fuel: nat)
    requires StaysScope(sc)
    ensures !EvalScope(o, sc, s, fuel).Broke?
    decreases fuel, sc, 0
  {
    match sc
    case In(b) => StaysEval(o, b, s, fuel);
    case With(VarChunk(d), rest) =>
      var s0 := State(VarB(d.id, d.name, None, s.env), s.trace);
      StaysEval(o, d.init, s0, fuel);
      var oi := Eval(o, d.init, s0, fuel);
      if oi.Normal? { StaysEvalScope(o, rest, SetTop(oi.s, oi.value), fuel); }
    case With(FunctionChunk(ds), rest) => StaysEvalScope(o, rest, State(FunB(ds, s.env), s.trace), fuel);
    case With(TypeChunk(_), rest) => StaysEvalScope(o, rest, s, fuel);
  }

  // ----- the simulation -----

  ghost predicate Ready(w: View, m: Marks, s: State, s': State) {
    Aligned(s.env, m) && s.trace == s'.trace && Rel(w, m, s.env, s'.env)
  }

  /** The desugared expression has the same outcome as the original, at every fuel. */
  lemma {:induction false} DesugarPreserves(o: Oracle, e: Exp, w: View, m: Marks, s: State, s': State, fuel: nat)
    requires Covered(e, w, m) && Ready(w, m, s, s')
    ensures Same(w, m, s'.env, Eval(o, e, s, fuel), Eval(o, Desugar(e), s', fuel))
    decreases fuel, e, 4
  {
    FixedSelf(w, m, s.env, s'.env);
    match e
    case IntExp(_) =>
    case VarExp(_, x) => FindVarRel(w, m, s.env, s'.env, x);
    case BreakExp(_) =>
    case OpExp(l, _, r) =>
      DesugarPreserves(o, l, w, m, s, s', fuel);
      EvalKeeps(o, l, s, fuel, m);
      var ol, ol' := Eval(o, l, s, fuel), Eval(o, Desugar(l), s', fuel);
      if ol.Normal? {
        DesugarPreserves(o, r, w, m, ol.s, ol'.s, fuel);
        SameFrom(w, m, s'.env, ol'.s.env, Eval(o, r, ol.s, fuel), Eval(o, Desugar(r), ol'.s, fuel));
      }
    case SeqExp(es) => PreservesSeq(o, es, 0, w, m, s, s', fuel);
    case AssignExp(_, x, r) =>
      FindVarRel(w, m, s.env, s'.env, x);
      DesugarPreserves(o, r, w, m, s, s', fuel);
      var or, or' := Eval(o, r, s, fuel), Eval(o, Desugar(r), s', fuel);
      if or.Normal? {
        SetVarRel(w, m, or.s.env, or'.s.env, x, or.value);
        FixedTrans(w, s'.env, or'.s.env, SetVar(or'.s.env, x, or.value));
      }
    case IfExp(_, _, _) => PreservesIf(o, e, w, m, s, s', fuel);
    case WhileExp(_, _, _) => PreservesWhile(o, e, w, m, s, s', fuel);
    case ForExp(_, _, _, _) => PreservesFor(o, e, w, m, s, s', fuel);
    case CallExp(_, _, _) => PreservesCall(o, e, w, m, s, s', fuel);
    case LetExp(sc) => PreservesScope(o, sc, w, m, s, s', fuel);
  }

  lemma {:induction false} PreservesIf(o: Oracle, e: Exp, w: View, m: Marks, s: State, s': State, fuel: nat)
    requires e.IfExp? && Covered(e, w, m) && Ready(w, m, s, s')
    ensures Same(w, m, s'.env, Eval(o, e, s, fuel), Eval(o, Desugar(e), s', fuel))
    decreases fuel, e, 2
  {
    DesugarPreserves(o, e.test, w, m, s, s', fuel);
    EvalKeeps(o, e.test, s, fuel, m);
    var oc, oc' := Eval(o, e.test, s, fuel), Eval(o, Desugar(e.test), s', fuel);
    if oc.Normal? {
      var branch := if oc.value != 0 then SomeExp(e.thn) else e.els;
      if branch.SomeExp? {
        DesugarPreserves(o, branch.exp, w, m, oc.s, oc'.s, fuel);
        SameFrom(w, m, s'.env, oc'.s.env, Eval(o, branch.exp, oc.s, fuel), Eval(o, Desugar(branch.exp), oc'.s, fuel));
      }
    }
  }

  lemma {:induction false} PreservesWhile(o: Oracle, e: Exp, w: View, m: Marks, s: State, s': State, fuel: nat)
    requires e.WhileExp? && Covered(e, w, m) && Ready(w, m, s, s')
    ensures Same(w, m, s'.env, Eval(o, e, s, fuel), Eval(o, Desugar(e), s', fuel))
    decreases fuel, e, 2
  {
    DesugarPreserves(o, e.test, w, m, s, s', fuel);
    EvalKeeps(o, e.test, s, fuel, m);
    var oc, oc' := Eval(o, e.test, s, fuel), Eval(o, Desugar(e.test), s', fuel);
    if oc.Normal? && oc.value != 0 && fuel > 0 {
      DesugarPreserves(o, e.body, w, m, oc.s, oc'.s, fuel - 1);
      EvalKeeps(o, e.body, oc.s, fuel - 1, m);
      var ob, ob' := Eval(o, e.body, oc.s, fuel - 1), Eval(o, Desugar(e.body), oc'.s, fuel - 1);
      SameFrom(w, m, s'.env, oc'.s.env, ob, ob');
      if ob.Normal? {
        DesugarPreserves(o, e, w, m, ob.s, ob'.s, fuel - 1);
        SameFrom(w, m, s'.env, ob'.s.env, Eval(o, e, ob.s, fuel - 1), Eval(o, Desugar(e), ob'.s, fuel - 1));
      }
    }
  }

  lemma {:induction false} PreservesCall(o: Oracle, e: Exp, w: View, m: Marks, s: State, s': State, fuel: nat)
    requires e.CallExp? && Covered(e, w, m) && Ready(w, m, s, s')
    ensures Same(w, m, s'.env, Eval(o, e, s, fuel), Eval(o, Desugar(e), s', fuel))
    decreases fuel, e, 2
  {
    hide Rel, Fixed, Aligned, FindFun, Graft;
    var f := e.name;
    PreservesArgs(o, e.args, w, m, s, s', fuel);
    EvalArgsKeeps(o, e.args, s, fuel, m);
    var oa, oa' := EvalArgs(o, e.args, s, fuel), EvalArgs(o, DesugarAll(e.args), s', fuel);
    if oa.Values? {
      FindFunRel(w, m, oa.s.env, oa'.s.env, f);
      var found := FindFun(oa.s.env, f);
      if found.Some? && |found.value.0.formals| == |oa.values| && found.value.0.body.SomeExp? && fuel > 0 {
        PreservesBody(o, f, oa.values, w, m, oa.s, oa'.s, fuel - 1);
        var (d, tail) := found.value;
        var tail' := FindFun(oa'.s.env, f).value.1;
        var ob := Eval(o, d.body.exp, State(BindFormals(d.formals, oa.values, tail), oa.s.trace), fuel - 1);
        var ob' := Eval(o, Desugar(d.body.exp), State(BindFormals(d.formals, oa.values, tail'), oa'.s.trace), fuel - 1);
        if ob.Normal? {
          FixedTrans(w, s'.env, oa'.s.env, Graft(oa'.s.env, f, PopN(ob'.s.env, |d.formals|)));
        }
      }
    }
  }

  /** The call itself, its arguments evaluated. */
  lemma {:induction false} PreservesBody(o: Oracle, f: Symbol, vs: seq<Int32.I32>, w: View, m: Marks, s: State, s': State, fuel: nat)
    requires Ready(w, m, s, s') && FindFun(s.env, f).Some?
    requires |FindFun(s.env, f).value.0.formals| == |vs| && FindFun(s.env, f).value.0.body.SomeExp?
    requires FindFun(s'.env, f).Some?
    ensures var (d, tail) := FindFun(s.env, f).value; var tail' := FindFun(s'.env, f).value.1;
      var r := Eval(o, d.body.exp, State(BindFormals(d.formals, vs, tail), s.trace), fuel);
      var r' := Eval(o, Desugar(d.body.exp), State(BindFormals(d.formals, vs, tail'), s'.trace), fuel);
      && (r.Normal? ==>
           && r'.Normal? && r.value == r'.value && r.s.trace == r'.s.trace
           && Rel(w, m, Graft(s.env, f, PopN(r.s.env, |d.formals|)), Graft(s'.env, f, PopN(r'.s.env, |d.formals|)))
           && Fixed(w, s'.env, Graft(s'.env, f, PopN(r'.s.env, |d.formals|))))
      && (r.Broke? ==> r'.Broke?) && (r.OutOfFuel? ==> r'.OutOfFuel?) && (r.Undefined? ==> r'.Undefined?)
    decreases fuel, FindFun(s.env, f).value.0.body.exp, 5
  {
    var (d, tail) := FindFun(s.env, f).value;
    var tail' := FindFun(s'.env, f).value.1;
    var w', m' := FunView(w, m, f), FunMarks(m, f);
    FindFunRel(w, m, s.env, s'.env, f);
    FindFunAligned(s.env, f, m);
    BindFormalsAligned(d.formals, vs, tail, m');
    BindFormalsRel(w', m', tail, tail', d.formals, vs);
    var w1, m1 := FormalView(|d.formals|, w'), MarkFormals(d.formals, m');
    var s1 := State(BindFormals(d.formals, vs, tail), s.trace);
    var s1' := State(BindFormals(d.formals, vs, tail'), s'.trace);
    DesugarPreserves(o, d.body.exp, w1, m1, s1, s1', fuel);
    var r, r' := Eval(o, d.body.exp, s1, fuel), Eval(o, Desugar(d.body.exp), s1', fuel);
    if r.Normal? {
      PopFormalsRel(w', m', tail', d.formals, vs, r.s.env, r'.s.env);
      GraftRel(w, m, s.env, s'.env, f, PopN(r.s.env, |d.formals|), PopN(r'.s.env, |d.formals|));
    }
  }

  lemma {:induction false} PreservesSeq(o: Oracle, es: Exps, last: Int32.I32, w: View, m: Marks, s: State, s': State, fuel: nat)
    requires EveryAll(SAFE, es) && AcceptsAll(es, m) && FreeAll(es) !! Hidden(w, m) && Ready(w, m, s, s')
    ensures Same(w, m, s'.env, EvalSeq(o, es, last, s, fuel), EvalSeq(o, DesugarAll(es), last, s', fuel))
    decreases fuel, es, 0
  {
    FixedSelf(w, m, s.env, s'.env);
    if es.ECons? {
      DesugarPreserves(o, es.head, w, m, s, s', fuel);
      EvalKeeps(o, es.head, s, fuel, m);
      var oe, oe' := Eval(o, es.head, s, fuel), Eval(o, Desugar(es.head), s', fuel);
      if oe.Normal? {
        PreservesSeq(o, es.tail, oe.value, w, m, oe.s, oe'.s, fuel);
        SameFrom(w, m, s'.env, oe'.s.env, EvalSeq(o, es.tail, oe.value, oe.s, fuel),
                 EvalSeq(o, DesugarAll(es.tail), oe.value, oe'.s, fuel));
      }
    }
  }

  lemma {:induction false} PreservesArgs(o: Oracle, es: Exps, w: View, m: Marks, s: State, s': State, fuel: nat)
    requires EveryAll(SAFE, es) && AcceptsAll(es, m) && FreeAll(es) !! Hidden(w, m) && Ready(w, m, s, s')
    ensures var r, r' := EvalArgs(o, es, s, fuel), EvalArgs(o, DesugarAll(es), s', fuel);
      if r.Values? then r'.Values? && r.values == r'.values && Match(w, m, s'.env, r.s, r'.s)
      else r'.Stop? && Same(w, m, s'.env, r.outcome, r'.outcome)
    decreases fuel, es, 0
  {
    FixedSelf(w, m, s.env, s'.env);
    if es.ECons? {
      DesugarPreserves(o, es.head, w, m, s, s', fuel);
      EvalKeeps(o, es.head, s, fuel, m);
      var oe, oe' := Eval(o, es.head, s, fuel), Eval(o, Desugar(es.head), s', fuel);
      if oe.Normal? {
        PreservesArgs(o, es.tail, w, m, oe.s, oe'.s, fuel);
        var r, r' := EvalArgs(o, es.tail, oe.s, fuel), EvalArgs(o, DesugarAll(es.tail), oe'.s, fuel);
        if r.Values? { FixedTrans(w, s'.env, oe'.s.env, r'.s.env); }
        else { SameFrom(w, m, s'.env, oe'.s.env, r.outcome, r'.outcome); }
      }
    }
  }

  lemma {:induction false} PreservesScope(o: Oracle, sc: Scope, w: View, m: Marks, s: State, s': State, fuel: nat)
    requires EveryScope(SAFE, sc) && AcceptsScope(sc, m) && FreeScope(sc) !! Hidden(w, m) && Ready(w, m, s, s')
    ensures Same(w, m, s'.env, EvalScope(o, sc, s, fuel), EvalScope(o, DesugarScope(sc), s', fuel))
    decreases fuel, sc, 0
  {
    match sc
    case In(b) => DesugarPreserves(o, b, w, m, s, s', fuel);
    case With(VarChunk(d), rest) =>
      var w1, m1 := Both(w), MVar(d.id, d.name, false, m);
      var s0 := State(VarB(d.id, d.name, None, s.env), s.trace);
      var s0' := State(VarB(d.id, d.name, None, s'.env), s'.trace);
      DesugarPreserves(o, d.init, w1, m1, s0, s0', fuel);
      EvalKeeps(o, d.init, s0, fuel, m1);
      var oi, oi' := Eval(o, d.init, s0, fuel), Eval(o, Desugar(d.init), s0', fuel);
      if oi.Normal? {
        var s1, s1' := SetTop(oi.s, oi.value), SetTop(oi'.s, oi.value);
        PreservesScope(o, rest, w1, m1, s1, s1', fuel);
        SameFrom(w1, m1, s0'.env, s1'.env, EvalScope(o, rest, s1, fuel), EvalScope(o, DesugarScope(rest), s1', fuel));
      }
    case With(FunctionChunk(ds), rest) =>
      PreservesScope(o, rest, Both(w), MFun(ds, m), State(FunB(ds, s.env), s.trace),
                     State(FunB(DesugarDecs(ds), s'.env), s'.trace), fuel);
    case With(TypeChunk(_), rest) => PreservesScope(o, rest, w, m, s, s', fuel);
  }

  // ----- the loop -----

  lemma {:induction false} PreservesFor(o: Oracle, e: Exp, w: View, m: Marks, s: State, s': State, fuel: nat)
    requires e.ForExp? && Covered(e, w, m) && Ready(w, m, s, s')
    ensures Same(w, m, s'.env, Eval(o, e, s, fuel), Eval(o, Desugar(e), s', fuel))
    decreases fuel, e, 3
  {
    var d, i := e.index, e.index.name;
    var m1 := MVar(d.id, i, false, m);
    var w1 := LeftOnly(RightOnly(LO, w));
    InnerHidden(e, w, m);
    var s0 := State(VarB(d.id, i, None, s.env), s.trace);
    var s0' := State(VarB(Fresh(e.id, 0), LO, None, s'.env), s'.trace);
    StaysEval(o, d.init, s0, fuel);
    DesugarPreserves(o, d.init, w1, m1, s0, s0', fuel);
    EvalKeeps(o, d.init, s0, fuel, m1);
    var ol, ol' := Eval(o, d.init, s0, fuel), Eval(o, Desugar(d.init), s0', fuel);
    assert Eval(o, Desugar(e), s', fuel)
        == EvalScope(o, With(VarChunk(VarDec(Fresh(e.id, 0), LO, None, Desugar(d.init))), Outer(e)), s', fuel);
    if ol.Normal? {
      var s1, s1' := SetTop(ol.s, ol.value), SetTop(ol'.s, ol.value);
      assert Rel(RightOnly(LO, w), m, ol.s.env.rest, ol'.s.env);
      assert Fixed(RightOnly(LO, w), s0'.env, ol'.s.env);
      PreservesUpper(o, e, ol.value, w, m, s1, s1', fuel);
      var r := Eval(o, e, s, fuel);
      if r.Normal? {
        FixedTrans(w, s'.env, s1'.env.rest, EvalScope(o, Outer(e), s1', fuel).s.env.rest);
      }
    }
  }

  lemma PlainIndex(e: Exp, w: View, m: Marks)
    requires e.ForExp? && Covered(e, w, m)
    ensures e.index.name !in {LO, HI}
  {
    assert Passes(Plain, e.index, e.hi, e.body);
  }

  /** The parts of a loop use nothing that is hidden where they are evaluated in the target. */
  lemma InnerHidden(e: Exp, w: View, m: Marks)
    requires e.ForExp? && Covered(e, w, m)
    ensures Free(e.index.init) !! Hidden(LeftOnly(RightOnly(LO, w)), MVar(e.index.id, e.index.name, false, m))
    ensures Free(e.hi) !! Hidden(LeftOnly(RightOnly(HI, RightOnly(LO, w))), MVar(e.index.id, e.index.name, false, m))
    ensures Free(e.body) !! Hidden(Both(RightOnly(HI, RightOnly(LO, w))), MVar(e.index.id, e.index.name, true, m))
  {
    assert Passes(OwnIndex, e.index, e.hi, e.body) && Passes(Uncaptured, e.index, e.hi, e.body);
    assert Hidden(RightOnly(LO, w), m) == {LO} + Hidden(w, m);
    assert Hidden(RightOnly(HI, RightOnly(LO, w)), m) == {HI, LO} + Hidden(w, m);
  }

  /** The loop from its evaluated lower bound, the top binding of s and of s'. */
  ghost function FromUpper(o: Oracle, e: Exp, l: Int32.I32, s: State, fuel: nat): Outcome
    requires e.ForExp?
  {
    var oh := Eval(o, e.hi, s, fuel);
    if oh.Broke? then Normal(0, PopState(oh.s))
    else if !oh.Normal? then oh
    else PopOut(EvalFor(o, e, l, oh.value, oh.s, fuel))
  }

  lemma {:induction false} PreservesUpper(o: Oracle, e: Exp, l: Int32.I32, w: View, m: Marks, s: State, s': State, fuel: nat)
    requires e.ForExp? && Covered(e, w, m)
    requires s.env.VarB? && s.env.id == e.index.id && s.env.name == e.index.name && Aligned(s.env.rest, m)
    requires s'.env.VarB? && s'.env.name == LO && s'.env.value == Some(l)
    requires s.trace == s'.trace && Rel(w, m, s.env.rest, s'.env.rest)
    ensures var r, r' := FromUpper(o, e, l, s, fuel), EvalScope(o, Outer(e), s', fuel);
      && !r.Broke? && (r.OutOfFuel? ==> r'.OutOfFuel?) && (r.Undefined? ==> r'.Undefined?)
      && (r.Normal? ==>
            && r'.Normal? && r.value == r'.value && r'.s.env.VarB?
            && Match(w, m, s'.env.rest, r.s, State(r'.s.env.rest, r'.s.trace)))
    decreases fuel, e, 2
  {
    var i := e.index.name;
    var m1, w2 := MVar(e.index.id, i, false, m), LeftOnly(RightOnly(HI, RightOnly(LO, w)));
    InnerHidden(e, w, m);
    var s2' := State(VarB(Fresh(e.id, 1), HI, None, s'.env), s'.trace);
    StaysEval(o, e.hi, s, fuel);
    assert Rel(RightOnly(LO, w), m, s.env.rest, s'.env);
    assert Rel(RightOnly(HI, RightOnly(LO, w)), m, s.env.rest, s2'.env);
    DesugarPreserves(o, e.hi, w2, m1, s, s2', fuel);
    EvalKeeps(o, e.hi, s, fuel, m1);
    var oh, oh' := Eval(o, e.hi, s, fuel), Eval(o, Desugar(e.hi), s2', fuel);
    if oh.Normal? {
      assert Rel(RightOnly(HI, RightOnly(LO, w)), m, oh.s.env.rest, oh'.s.env);
      assert Fixed(RightOnly(HI, RightOnly(LO, w)), s2'.env, oh'.s.env);
      assert Fixed(RightOnly(LO, w), s'.env, oh'.s.env.rest);
      assert Rel(RightOnly(LO, w), m, oh.s.env.rest, oh'.s.env.rest);
      var s3' := SetTop(oh'.s, oh.value);
      PreservesIterations(o, e, l, oh.value, w, m, oh.s, s3', fuel);
      var r, r' := EvalFor(o, e, l, oh.value, oh.s, fuel), EvalScope(o, Inner(e), s3', fuel);
      if r.Normal? { FixedTrans(w, s'.env.rest, s3'.env.rest.rest, r'.s.env.rest.rest); }
    }
  }

  /** The desugared loop from `_hi` on. */
  ghost function Outer(e: Exp): Scope
    requires e.ForExp?
  {
    With(VarChunk(VarDec(Fresh(e.id, 1), HI, None, Desugar(e.hi))), Inner(e))
  }

  /** The last chunk of the desugared loop and its body. */
  ghost function Inner(e: Exp): Scope
    requires e.ForExp?
  {
    With(VarChunk(VarDec(e.index.id, e.index.name, None, VarExp(Fresh(e.id, 2), LO))),
         In(SeqExp(ECons(Guard(e.id, e.index.name, Desugar(e.body)), ENil))))
  }

  /** From evaluated bounds: s' has `_hi` on top of `_lo`. */
  lemma {:induction false} PreservesIterations(o: Oracle, e: Exp, l: Int32.I32, h: Int32.I32, w: View, m: Marks, s: State, s': State, fuel: nat)
    requires e.ForExp? && Covered(e, w, m)
    requires s.env.VarB? && s.env.id == e.index.id && s.env.name == e.index.name && Aligned(s.env.rest, m)
    requires s'.env.VarB? && s'.env.name == HI && s'.env.value == Some(h)
    requires s'.env.rest.VarB? && s'.env.rest.name == LO && s'.env.rest.value == Some(l)
    requires s.trace == s'.trace && Rel(w, m, s.env.rest, s'.env.rest.rest)
    ensures var r, r' := EvalFor(o, e, l, h, s, fuel), EvalScope(o, Inner(e), s', fuel);
      && !r.Broke? && (r.OutOfFuel? ==> r'.OutOfFuel?) && (r.Undefined? ==> r'.Undefined?)
      && (r.Normal? ==>
            && r'.Normal? && r.value == r'.value && r.s.env.VarB?
            && r'.s.env.VarB? && r'.s.env.rest.VarB?
            && Match(w, m, s'.env.rest.rest, State(r.s.env.rest, r.s.trace), State(r'.s.env.rest.rest, r'.s.trace)))
    decreases fuel, e, 1
  {
    var i, body := e.index.name, Desugar(e.body);
    PlainIndex(e, w, m);
    FixedSelf(w, m, s.env.rest, s'.env.rest.rest);
    var s1' := State(VarB(e.index.id, i, Some(l), s'.env), s'.trace);
    assert EvalScope(o, Inner(e), s', fuel) == PopOut(Eval(o, SeqExp(ECons(Guard(e.id, i, body), ENil)), s1', fuel)) by {
      assert FindVar(VarB(e.index.id, i, None, s'.env), LO) == FindVar(s'.env, LO) == FindVar(s'.env.rest, LO);
      assert Eval(o, VarExp(Fresh(e.id, 2), LO), State(VarB(e.index.id, i, None, s'.env), s'.trace), fuel)
          == Normal(l, State(VarB(e.index.id, i, None, s'.env), s'.trace));
    }
    var g := Guard(e.id, i, body);
    var rg := Eval(o, g, s1', fuel);
    assert Eval(o, SeqExp(ECons(g, ENil)), s1', fuel) == EvalSeq(o, ECons(g, ENil), 0, s1', fuel) == rg by {
      if rg.Normal? { assert EvalSeq(o, ENil, rg.value, rg.s, fuel) == rg; }
    }
    assert Eval(o, g.test, s1', fuel) == Normal(Int32.Bool(l <= h), s1') by {
      assert Eval(o, VarExp(Fresh(e.id, 3), i), s1', fuel) == Normal(l, s1');
      assert FindVar(s1'.env, HI) == FindVar(s'.env, HI);
      assert Eval(o, VarExp(Fresh(e.id, 4), HI), s1', fuel) == Normal(h, s1');
    }
    if l <= h {
      assert rg == Eval(o, Loop(e.id, i, body), s1', fuel);
      PreservesLoop(o, e, l, h, w, m, s, s1', fuel);
    }
  }

  ghost predicate LoopState(i: VarDec, h: Int32.I32, s': State) {
    && s'.env.VarB? && s'.env.id == i.id && s'.env.name == i.name
    && s'.env.rest.VarB? && s'.env.rest.name == HI && s'.env.rest.value == Some(h)
    && s'.env.rest.rest.VarB? && s'.env.rest.rest.name == LO
  }

  /** The `while` from iteration k on, with the index of s' at k.  The increment stays below h. */
  lemma {:induction false} PreservesLoop(o: Oracle, e: Exp, k: Int32.I32, h: Int32.I32, w: View, m: Marks, s: State, s': State, fuel: nat)
    requires e.ForExp? && Covered(e, w, m) && k <= h
    requires s.env.VarB? && s.env.id == e.index.id && s.env.name == e.index.name && Aligned(s.env.rest, m)
    requires LoopState(e.index, h, s') && s'.env.value == Some(k)
    requires s.trace == s'.trace && Rel(w, m, s.env.rest, s'.env.rest.rest.rest)
    ensures var r, r' := EvalFor(o, e, k, h, s, fuel), Eval(o, Loop(e.id, e.index.name, Desugar(e.body)), s', fuel);
      && !r.Broke? && (r.OutOfFuel? ==> r'.OutOfFuel?) && (r.Undefined? ==> r'.Undefined?)
      && (r.Normal? ==>
            && r'.Normal? && r.value == r'.value && r.s.env.VarB? && LoopState(e.index, h, r'.s)
            && Match(w, m, s'.env.rest.rest.rest, State(r.s.env.rest, r.s.trace), State(r'.s.env.rest.rest.rest, r'.s.trace)))
    decreases fuel, e, 0
  {
    hide Desugar, Rel, Fixed, Accepts, Every;
    var i, body := e.index.name, Desugar(e.body);
    var loop := Loop(e.id, i, body);
    FixedSelf(w, m, s.env.rest, s'.env.rest.rest.rest);
    PlainIndex(e, w, m);
    assert Eval(o, loop.test, s', fuel) == Normal(1, s');
    if fuel > 0 {
      var s1 := SetTop(s, k);
      PreservesIteration(o, e, k, h, w, m, s1, s', fuel - 1);
      var ob, ob' := Eval(o, e.body, s1, fuel - 1), Eval(o, body, s', fuel - 1);
      assert Eval(o, loop.body, s', fuel - 1) == EvalSeq(o, loop.body.exps, 0, s', fuel - 1)
          == if ob'.Normal? then EvalSeq(o, loop.body.exps.tail, ob'.value, ob'.s, fuel - 1) else ob';
      if ob.Normal? {
        LoopTail(o, e.id, i, k, h, ob'.value, ob'.s, fuel - 1);
        assert EvalFor(o, e, k, h, s, fuel) == EvalFor(o, e, k + 1, h, ob.s, fuel - 1);
        assert Eval(o, loop, s', fuel)
            == if k == h then Normal(0, ob'.s) else Eval(o, loop, SetTop(ob'.s, k + 1), fuel - 1);
        if k < h {
          var s2' := SetTop(ob'.s, k + 1);
          PreservesLoop(o, e, k + 1, h, w, m, ob.s, s2', fuel - 1);
          var r' := Eval(o, loop, s2', fuel - 1);
          if EvalFor(o, e, k + 1, h, ob.s, fuel - 1).Normal? {
            FixedTrans(w, s'.env.rest.rest.rest, s2'.env.rest.rest.rest, r'.s.env.rest.rest.rest);
          }
        }
      }
    }
  }

  /** One run of the body with the index at k: the target's index and `_hi` come back unchanged. */
  lemma {:induction false} PreservesIteration(o: Oracle, e: Exp, k: Int32.I32, h: Int32.I32, w: View, m: Marks, s: State, s': State, fuel: nat)
    requires e.ForExp? && Covered(e, w, m)
    requires s.env.VarB? && s.env.id == e.index.id && s.env.name == e.index.name && Aligned(s.env.rest, m)
    requires LoopState(e.index, h, s') && s.env.value == s'.env.value == Some(k)
    requires s.trace == s'.trace && Rel(w, m, s.env.rest, s'.env.rest.rest.rest)
    ensures var r, r' := Eval(o, e.body, s, fuel), Eval(o, Desugar(e.body), s', fuel);
      && (r.Normal? <==> r'.Normal?) && (r.Broke? <==> r'.Broke?)
      && (r.OutOfFuel? <==> r'.OutOfFuel?) && (r.Undefined? <==> r'.Undefined?)
      && (r.Normal? ==> r.value == r'.value && r'.s.env.VarB? && r'.s.env.value == Some(k))
      && (r.Normal? || r.Broke? ==>
           && r.s.env.VarB? && r.s.env.id == e.index.id && r.s.env.name == e.index.name && Aligned(r.s.env.rest, m)
           && LoopState(e.index, h, r'.s)
           && Match(w, m, s'.env.rest.rest.rest, State(r.s.env.rest, r.s.trace), State(r'.s.env.rest.rest.rest, r'.s.trace)))
    decreases fuel, e.body, 5
  {
    var w3, m3 := Both(RightOnly(HI, RightOnly(LO, w))), MVar(e.index.id, e.index.name, true, m);
    InnerHidden(e, w, m);
    DesugarPreserves(o, e.body, w3, m3, s, s', fuel);
    EvalKeeps(o, e.body, s, fuel, m3);
    var r, r' := Eval(o, e.body, s, fuel), Eval(o, Desugar(e.body), s', fuel);
    if r.Normal? || r.Broke? {
      assert Fixed(RightOnly(HI, RightOnly(LO, w)), s'.env.rest, r'.s.env.rest);
      assert Fixed(RightOnly(LO, w), s'.env.rest.rest, r'.s.env.rest.rest);
      assert Rel(RightOnly(HI, RightOnly(LO, w)), m, r.s.env.rest, r'.s.env.rest);
      assert Rel(RightOnly(LO, w), m, r.s.env.rest, r'.s.env.rest.rest);
    }
  }

  /** What follows the body in one iteration: leave at the last index, else add one, exactly. */
  lemma {:induction false} LoopTail(o: Oracle, id: Id, i: Symbol, k: Int32.I32, h: Int32.I32, last: Int32.I32, s: State, fuel: nat)
    requires s.env.VarB? && s.env.name == i && s.env.value == Some(k) && k <= h && i != HI
    requires s.env.rest.VarB? && s.env.rest.name == HI && s.env.rest.value == Some(h)
    ensures EvalSeq(o, ECons(Leave(id, i), ECons(Advance(id, i), ENil)), last, s, fuel)
         == if k == h then Broke(s) else Normal(0, SetTop(s, k + 1))
  {
    assert Eval(o, Leave(id, i).test, s, fuel) == Normal(Int32.Bool(k == h), s) by {
      assert Eval(o, VarExp(Fresh(id, 5), i), s, fuel) == Normal(k, s);
      assert FindVar(s.env, HI) == FindVar(s.env.rest, HI);
      assert Eval(o, VarExp(Fresh(id, 6), HI), s, fuel) == Normal(h, s);
    }
    assert Eval(o, Leave(id, i), s, fuel) == if k == h then Broke(s) else Normal(0, s);
    if k < h {
      assert Eval(o, Advance(id, i).exp, s, fuel) == Normal(k + 1, s) by {
        assert Eval(o, VarExp(Fresh(id, 9), i), s, fuel) == Normal(k, s);
        assert Eval(o, IntExp(1), s, fuel) == Normal(1, s);
      }
      assert SetVar(s.env, i, k + 1) == SetTop(s, k + 1).env;
      assert Eval(o, Advance(id, i), s, fuel) == Normal(0, SetTop(s, k + 1));
      assert EvalSeq(o, ECons(Advance(id, i), ENil), 0, s, fuel) == EvalSeq(o, ENil, 0, SetTop(s, k + 1), fuel);
    }
  }

  // ----- whole programs -----

  /** A program whose loops keep their bounds clear of the index and of breaks and do not use a
      `_lo` or `_hi` from around them, and whose indices are never assigned to, means exactly the
      same after desugaring: same result, same trace, same divergence. */
  lemma DesugarCorrect(o: Oracle, e: Exp, trace: seq<Event>, fuel: nat)
    requires Every(SAFE, e) && Accepts(e, MEmpty)
    ensures Eval(o, Desugar(e), State(Empty, trace), fuel) == Eval(o, e, State(Empty, trace), fuel)
  {
    DesugarPreserves(o, e, VNil, MEmpty, State(Empty, trace), State(Empty, trace), fuel);
  }

  /** `for i := 0 to i do ()`: the binder resolves the upper bound to the index itself, the
      desugared loop evaluates it outside the scope of the index. */
  function IndexInBound(): Exp {
    ForExp(Node(0), VarDec(Node(1), "i", None, IntExp(0)), VarExp(Node(2), "i"), SeqExp(ENil))
  }

  /** Why the bounds must not mention the index. */
  lemma IndexInBoundDiffers(o: Oracle)
    ensures Eval(o, IndexInBound(), State(Empty, []), 1) == Normal(0, State(Empty, []))
    ensures Eval(o, Desugar(IndexInBound()), State(Empty, []), 1) == Undefined
  {
    var e := IndexInBound();
    var s := State(VarB(Node(1), "i", Some(0), Empty), []);
    assert Eval(o, e.hi, s, 1) == Normal(0, s);
    assert Eval(o, e.body, s, 0) == EvalSeq(o, ENil, 0, s, 0) == Normal(0, s);
    assert EvalFor(o, e, 0, 0, s, 1) == EvalFor(o, e, 1, 0, s, 0) == Normal(0, s);
    var s1 := State(VarB(Fresh(e.id, 0), LO, Some(0), Empty), []);
    var s2 := State(VarB(Fresh(e.id, 1), HI, None, s1.env), []);
    assert Desugar(e.hi) == e.hi;
    assert FindVar(s2.env, "i") == FindVar(s1.env, "i") == None;
    assert Eval(o, e.hi, s2, 1) == Undefined;
    assert EvalScope(o, Outer(e), s1, 1) == Undefined;
    assert Eval(o, Desugar(e.index.init), State(VarB(Fresh(e.id, 0), LO, None, Empty), []), 1) == Normal(0, State(VarB(Fresh(e.id, 0), LO, None, Empty), []));
    assert Eval(o, Desugar(e), State(Empty, []), 1)
        == EvalScope(o, With(VarChunk(VarDec(Fresh(e.id, 0), LO, None, Desugar(e.index.init))), Outer(e)), State(Empty, []), 1);
  }

  /** `for i := 0 to 0 do _lo := 7`, in the scope of a variable `_lo`, which users may declare. */
  function AssignsLo(): Exp {
    ForExp(Node(0), VarDec(Node(1), "i", None, IntExp(0)), IntExp(0), AssignExp(Node(2), LO, IntExp(7)))
  }

  function LoIs(v: Int32.I32, rest: Env): Env { VarB(Node(3), LO, Some(v), rest) }

  /** Why a program must not write `_lo` or `_hi`: the inserted variable captures the use. */
  lemma UserLoIsCaptured(o: Oracle)
    ensures Eval(o, AssignsLo(), State(LoIs(5, Empty), []), 1) == Normal(0, State(LoIs(7, Empty), []))
    ensures Eval(o, Desugar(AssignsLo()), State(LoIs(5, Empty), []), 1) == Normal(0, State(LoIs(5, Empty), []))
  {
    LoAssigned(o);
    LoCaptured(o);
  }

  lemma LoAssigned(o: Oracle)
    ensures Eval(o, AssignsLo(), State(LoIs(5, Empty), []), 1) == Normal(0, State(LoIs(7, Empty), []))
  {
    var e := AssignsLo();
    var s := State(VarB(Node(1), "i", Some(0), LoIs(5, Empty)), []);
    var s' := State(VarB(Node(1), "i", Some(0), LoIs(7, Empty)), []);
    assert SetVar(s.env, LO, 7) == s'.env;
    assert Eval(o, e.body, s, 0) == Normal(0, s');
    assert EvalFor(o, e, 0, 0, s, 1) == EvalFor(o, e, 1, 0, s', 0) == Normal(0, s');
  }

  /** Inside the inserted declarations; the value of the inserted `_lo` is v. */
  function InsideLo(v: Int32.I32): State {
    State(VarB(Fresh(Node(0), 1), HI, Some(0), VarB(Fresh(Node(0), 0), LO, Some(v), LoIs(5, Empty))), [])
  }

  function AtZero(v: Int32.I32): State { State(VarB(Node(1), "i", Some(0), InsideLo(v).env), []) }

  lemma LoLoop(o: Oracle)
    ensures Eval(o, Loop(Node(0), "i", AssignsLo().body), AtZero(0), 1) == Normal(0, AtZero(7))
  {
    hide Leave, Advance;
    var body, s, r := AssignsLo().body, AtZero(0), AtZero(7);
    assert Eval(o, body, s, 0) == Normal(0, r) by { assert SetVar(s.env, LO, 7) == r.env; }
    var tail := ECons(Leave(Node(0), "i"), ECons(Advance(Node(0), "i"), ENil));
    LoopTail(o, Node(0), "i", 0, 0, 0, r, 0);
    assert Eval(o, SeqExp(ECons(body, tail)), s, 0) == EvalSeq(o, ECons(body, tail), 0, s, 0) == EvalSeq(o, tail, 0, r, 0) == Broke(r);
  }

  lemma LoGuard(o: Oracle)
    ensures EvalScope(o, In(SeqExp(ECons(Guard(Node(0), "i", AssignsLo().body), ENil))), AtZero(0), 1) == Normal(0, AtZero(7))
  {
    hide Loop;
    LoLoop(o);
    var guard, s := Guard(Node(0), "i", AssignsLo().body), AtZero(0);
    assert FindVar(s.env, "i") == Some(Some(0)) && FindVar(s.env, HI) == Some(Some(0));
    assert Eval(o, guard.test, s, 1) == Normal(1, s);
    assert EvalSeq(o, ECons(guard, ENil), 0, s, 1) == EvalSeq(o, ENil, 0, AtZero(7), 1) == Normal(0, AtZero(7));
  }

  lemma LoInner(o: Oracle)
    ensures EvalScope(o, Inner(AssignsLo()), InsideLo(0), 1) == Normal(0, InsideLo(7))
  {
    hide Guard;
    LoGuard(o);
    var u := State(VarB(Node(1), "i", None, InsideLo(0).env), []);
    assert FindVar(u.env, LO) == Some(Some(0));
    assert Eval(o, VarExp(Fresh(Node(0), 2), LO), u, 1) == Normal(0, u);
  }

  lemma LoCaptured(o: Oracle)
    ensures Eval(o, Desugar(AssignsLo()), State(LoIs(5, Empty), []), 1) == Normal(0, State(LoIs(5, Empty), []))
  {
    hide Inner, Guard;
    LoInner(o);
    var e, env := AssignsLo(), LoIs(5, Empty);
    var s1 := State(VarB(Fresh(e.id, 0), LO, Some(0), env), []);
    assert EvalScope(o, Outer(e), s1, 1) == PopOut(EvalScope(o, Inner(e), InsideLo(0), 1));
    LoDesugared(o);
  }

  lemma LoDesugared(o: Oracle)
    ensures var s1 := State(VarB(Fresh(Node(0), 0), LO, Some(0), LoIs(5, Empty)), []);
      Eval(o, Desugar(AssignsLo()), State(LoIs(5, Empty), []), 1) == PopOut(EvalScope(o, Outer(AssignsLo()), s1, 1))
  {
    var e, env := AssignsLo(), LoIs(5, Empty);
    assert Eval(o, Desugar(e), State(env, []), 1)
        == EvalScope(o, With(VarChunk(VarDec(Fresh(e.id, 0), LO, None, Desugar(e.index.init))), Outer(e)), State(env, []), 1);
  }
}
