/** Programs that do not end: while the source program is still running, so is its code.  With the
    simulation this makes the code end exactly if the source does. */
module LowerForever {
  import opened Options
  import opened Ast
  import opened Nodes
  import opened Semantics
  import opened Cfg
  import opened Lowering
  import opened LowerShape
  import opened LowerTables
  import opened LowerReady
  import opened LowerScopes
  import opened LowerRun
  import opened LowerSim
  import opened LowerMain
  import Int32

  /** The machine makes k steps from c without ending. */
  ghost predicate Goes(g: World, c: Config, k: nat) {
    Steps(g.p, g.o, c, k).Some?
  }

  lemma {:induction false} StepsFewer(p: Code, o: Oracle, c: Config, n: nat, k: nat)
    requires Steps(p, o, c, n).Some? && k <= n
    ensures Steps(p, o, c, k).Some?
    decreases n
  {
    if k > 0 { StepsFewer(p, o, Step(p, o, c).c, n - 1, k - 1); }
  }

  /** What comes first only adds steps. */
  lemma GoesAfter(g: World, c: Config, c1: Config, k: nat)
    requires Reaches(g.p, g.o, c, c1) && Goes(g, c1, k)
    ensures Goes(g, c, k) && (c != c1 ==> Goes(g, c, k + 1))
  {
    var n: nat :| Steps(g.p, g.o, c, n) == Some(c1);
    StepsAdd(g.p, g.o, c, n, k);
    StepsFewer(g.p, g.o, c, n + k, k);
    if c != c1 { StepsFewer(g.p, g.o, c, n + k, k + 1); }
  }

  lemma GoesFrom(g: World, c: Config)
    ensures Goes(g, c, 0)
  {}

  // ----- expressions -----

  /** A source run that is not over after some fuel gives the machine at least as many steps. */
  lemma {:induction false} Long(g: World, e: Exp, s: State, fuel: nat, st: St, held: set<int>, lp: Option<Id>, b: Env,
                                acts: Acts, c: Config)
    requires Poised(g, s, c, st, held, lp, b, acts, OfExp(e)) && Legal(g, e, st.fn, lp, b)
    requires Within(g, Lower(g.cx, e, st)) && Eval(g.o, e, s, fuel).OutOfFuel?
    ensures Goes(g, c, fuel)
    decreases fuel, e, 5
  {
    hide Ready, FunsOk, Rel, Within, WellFormed, Consistent, Moves, Extends, Goes, Fine, LowerTables.Good;
    match e {
      case OpExp(_, _, _) => LongOp(g, e, s, fuel, st, held, lp, b, acts, c);
      case IfExp(_, _, _) => LongIf(g, e, s, fuel, st, held, lp, b, acts, c);
      case WhileExp(_, _, _) => LongWhile(g, e, s, fuel, st, held, lp, b, acts, c);
      case AssignExp(_, _, _) => LongAssign(g, e, s, fuel, st, held, lp, b, acts, c);
      case SeqExp(es) => LongSeq(g, es, 0, s, fuel, st, held, lp, b, acts, c);
      case CallExp(_, _, _) => LongCall(g, e, s, fuel, st, held, lp, b, acts, c);
      case LetExp(sc) => LongScope(g, sc, s, fuel, st, held, lp, b, acts, c);
      case _ =>
    }
  }

  lemma {:induction false} LongOp(g: World, e: Exp, s: State, fuel: nat, st: St, held: set<int>, lp: Option<Id>, b: Env,
                                  acts: Acts, c: Config)
    requires e.OpExp?
    requires Poised(g, s, c, st, held, lp, b, acts, OfExp(e)) && Legal(g, e, st.fn, lp, b)
    requires Within(g, Lower(g.cx, e, st)) && Eval(g.o, e, s, fuel).OutOfFuel?
    ensures Goes(g, c, fuel)
    decreases fuel, e, 4
  {
    hide Ready, FunsOk, Rel, Within, Matches, Fine, LowerTables.Good, Effect, Grows, Reaches, Goes;
    var l, op, r := e.left, e.oper, e.right;
    First(g, l, OfExp(r), st, held, lp, b);
    var s1 := Lower(g.cx, l, st);
    assert OfExp(r) + {} == OfExp(r);
    First(g, r, {}, s1, held, lp, b);
    var s2 := Lower(g.cx, r, s1);
    OpGrows(s2, op, s1.value, s2.value);
    WithinSame(g, s2, EmitOp(s2, op, s1.value, s2.value));
    WithinFirst(g, s1, s2, held, OfExp(r), lp, b);
    var rl := Eval(g.o, l, s, fuel);
    if rl.Normal? {
      var c1 := Sim(g, l, s, fuel, st, held, lp, b, acts, c);
      Resume(g, rl, c, c1, st, s1, false, held, lp, b, acts, OfExp(l), OfExp(r));
      NormalRun(g, rl, c, c1, st, s1, false, acts, b, OfExp(l), lp);
      Long(g, r, rl.s, fuel, s1, held, lp, b, acts, c1);
      GoesAfter(g, c, c1, fuel);
    } else {
      Long(g, l, s, fuel, st, held, lp, b, acts, c);
    }
  }

  lemma {:induction false} LongAssign(g: World, e: Exp, s: State, fuel: nat, st: St, held: set<int>, lp: Option<Id>, b: Env,
                                      acts: Acts, c: Config)
    requires e.AssignExp?
    requires Poised(g, s, c, st, held, lp, b, acts, OfExp(e)) && Legal(g, e, st.fn, lp, b)
    requires Within(g, Lower(g.cx, e, st)) && Eval(g.o, e, s, fuel).OutOfFuel?
    ensures Goes(g, c, fuel)
    decreases fuel, e, 4
  {
    hide FunsOk, WellFormed, Consistent, Moves, Extends, Ready, Rel, Goes, Lower;
    AssignReady(g, e, st, held, lp, b);
    Long(g, e.exp, s, fuel, st, held, lp, b, acts, c);
  }

  lemma {:induction false} LongSeq(g: World, es: Exps, last: Int32.I32, s: State, fuel: nat, st: St, held: set<int>, lp: Option<Id>,
                                   b: Env, acts: Acts, c: Config)
    requires es.ECons? && Poised(g, s, c, st, held, lp, b, acts, OfExps(es)) && LegalAll(g, es, st.fn, lp, b)
    requires Within(g, LowerSeq(g.cx, es, st)) && EvalSeq(g.o, es, last, s, fuel).OutOfFuel?
    ensures Goes(g, c, fuel)
    decreases fuel, es, 0
  {
    hide FunsOk, Reaches, WellFormed, Consistent, Moves, Extends, Ready, Effect, Rel, Matches, Fine, LowerTables.Good, Within, Goes;
    var e, rest := es.head, es.tail;
    var r := Eval(g.o, e, s, fuel);
    var s1 := Lower(g.cx, e, st);
    SeqReady(g, es, st, held, lp, b);
    if r.Normal? {
      var c1 := Sim(g, e, s, fuel, st, held, lp, b, acts, c);
      Resume(g, r, c, c1, st, s1, Voids(g.cx, e), held, lp, b, acts, OfExp(e), OfExps(rest));
      NormalRun(g, r, c, c1, st, s1, Voids(g.cx, e), acts, b, OfExp(e), lp);
      LongSeq(g, rest, r.value, r.s, fuel, s1, held, lp, b, acts, c1);
      GoesAfter(g, c, c1, fuel);
    } else {
      Long(g, e, s, fuel, st, held, lp, b, acts, c);
    }
  }

  // ----- branches -----

  lemma {:induction false} LongThen(g: World, e: Exp, s: State, fuel: nat, st: St, s2: St, n: nat, held: set<int>,
                                    lp: Option<Id>, b: Env, acts: Acts, c: Config, c2: Config)
    requires e.IfExp? && Ready(g, st, held, lp, b, OfExp(e)) && Legal(g, e, st.fn, lp, b) && FunsOk(g, b)
    requires AtThen(g, e, st, s2, n, held, lp, b) && Branching(g, s, c, c2, st, n, acts, b, OfExp(e.test))
    requires c.top.fn == st.fn && Eval(g.o, e.thn, s, fuel).OutOfFuel?
    requires var s3 := Lower(g.cx, e.thn, s2); var s4 := Branch(s3, Br(n + 2), n + 1);
      var s5 := if e.els.SomeExp? then Lower(g.cx, e.els.exp, s4) else s4.(value := ZERO);
      Within(g, Meet(g.cx, e, s3, s5, n + 2))
    ensures Goes(g, c, fuel)
    decreases fuel, e, 3
  {
    hide Legal, Lower, OfExp, WellFormed, Extends, Consistent, Distinct, Lowerable, Lifts, Typed, Waiting, Els, Ready, Moves,
         Within, Grows, Rel, Effect, Reaches, FunsOk, Meet, Eval, AtThen, Blocks, Joining, LowerTables.Good, Fine, Poised, Goes;
    LegalIf(g, e, st.fn, lp, b);
    IfWithin(g, e, st, s2, n, held, lp, b);
    IfThenCode(g, e, st, s2, n, held, lp, b);
    IfThenReady(g, e, st, s2, n, held, lp, b);
    ThenParts(g, e, st, s2, n, held, lp, b);
    Start(g, s, st, s2, held, held + {n + 1, n + 2}, lp, lp, b, acts, c, c2, OfExp(e.test), OfExp(e), OfExp(e.thn));
    Long(g, e.thn, s, fuel, s2, held + {n + 1, n + 2}, lp, b, acts, c2);
    GoesAfter(g, c, c2, fuel);
  }

  lemma {:induction false} LongElse(g: World, e: Exp, s: State, fuel: nat, st: St, s3: St, s4: St, n: nat, held: set<int>,
                                    lp: Option<Id>, b: Env, acts: Acts, c: Config, c2: Config)
    requires e.IfExp? && e.els.SomeExp? && Ready(g, st, held, lp, b, OfExp(e)) && Legal(g, e, st.fn, lp, b) && FunsOk(g, b)
    requires AtElse(g, e, st, s3, s4, n, held, lp, b) && Branching(g, s, c, c2, st, n + 1, acts, b, OfExp(e.test))
    requires c.top.fn == st.fn && Within(g, Lower(g.cx, e.els.exp, s4)) && Eval(g.o, e.els.exp, s, fuel).OutOfFuel?
    ensures Goes(g, c, fuel)
    decreases fuel, e, 3
  {
    hide Legal, Lower, OfExp, WellFormed, Extends, Consistent, Distinct, Lowerable, Lifts, Typed, Waiting, Ready, Moves,
         Within, Grows, Rel, Effect, Reaches, FunsOk, Meet, Eval, AtElse, Blocks, Joining, LowerTables.Good, Fine, Poised, Goes;
    var ids := OfExp(e.test) + OfExp(e.thn);
    LegalIf(g, e, st.fn, lp, b);
    IfElseReady(g, e, st, s3, s4, n, held, lp, b);
    ElseParts(g, e, st, s3, s4, n, held, lp, b);
    EffectMore(c, c2, acts, b, OfExp(e.test), ids, st.regs, st.regs);
    Start(g, s, st, s4, held, held + {n + 2}, lp, lp, b, acts, c, c2, ids, OfExp(e), Els(e));
    Long(g, e.els.exp, s, fuel, s4, held + {n + 2}, lp, b, acts, c2);
    GoesAfter(g, c, c2, fuel);
  }

  lemma {:induction false} LongIf(g: World, e: Exp, s: State, fuel: nat, st: St, held: set<int>, lp: Option<Id>, b: Env,
                                  acts: Acts, c: Config)
    requires e.IfExp?
    requires Poised(g, s, c, st, held, lp, b, acts, OfExp(e)) && Legal(g, e, st.fn, lp, b)
    requires Within(g, Lower(g.cx, e, st)) && Eval(g.o, e, s, fuel).OutOfFuel?
    ensures Goes(g, c, fuel)
    decreases fuel, e, 4
  {
    hide Legal, OfExp, WellFormed, Extends, Consistent, Distinct, Lowerable, Lifts, Matches, Waiting, Ready, Moves, Within,
         Grows, Rel, Effect, Reaches, FunsOk, Meet, AtThen, AtElse, Blocks, Joining, LowerTables.Good, Fine, Els, Lower,
         Tested, Emit, EmitTo, EmitTest, NewBlocks, Branching, Goes;
    var s0 := Lower(g.cx, e.test, st);
    var s1 := EmitTest(s0);
    var n := |s1.blocks|;
    var s2 := Branch(NewBlocks(s1), CondBr(s1.value, n, n + 1), n);
    var s3 := Lower(g.cx, e.thn, s2);
    var s4 := Branch(s3, Br(n + 2), n + 1);
    var r := Eval(g.o, e.test, s, fuel);
    LegalIf(g, e, st.fn, lp, b);
    IfStates(g, e, st, held, lp, b);
    if r.Normal? {
      var c1 := Sim(g, e.test, s, fuel, st, held, lp, b, acts, c);
      var c2 := TestEnd(g, r, c, c1, st, s0, NewBlocks(s1), n, n + 1, acts, b, OfExp(e.test), lp);
      if r.value != 0 { LongThen(g, e, r.s, fuel, st, s2, n, held, lp, b, acts, c, c2); }
      else { LongElse(g, e, r.s, fuel, st, s3, s4, n, held, lp, b, acts, c, c2); }
    } else {
      Long(g, e.test, s, fuel, st, held, lp, b, acts, c);
    }
  }

  // ----- loops -----

  /** Going round the loop takes fuel, and at least one branch. */
  lemma {:induction false} LongLoop(g: World, e: Exp, s: State, fuel: nat, st: St, s1: St, s4: St, n: nat, held: set<int>,
                                    lp: Option<Id>, b: Env, acts: Acts, c: Config)
    requires e.WhileExp? && LoopAt(g, e, st, s1, s4, n, held, lp, b) && FunsOk(g, b)
    requires Rel(g, s, c, acts, b) && AtBlock(c, n) && c.top.fn == st.fn && Eval(g.o, e, s, fuel).OutOfFuel?
    ensures Goes(g, c, fuel)
    decreases fuel, e, 3
  {
    hide Legal, OfExp, WellFormed, Extends, Consistent, Distinct, Lowerable, Lifts, Typed, Matches, Ready, Moves, Within,
         Grows, Rel, Effect, Reaches, FunsOk, Blocks, LowerTables.Good, Fine, Tested, Lower, LoopAt, Goes;
    var r := Eval(g.o, e.test, s, fuel);
    LoopPoised(g, e, s, st, s1, s4, n, held, lp, b, acts, c);
    if !r.Normal? {
      Long(g, e.test, s, fuel, s1, held + {n + 1, n + 2}, Some(e.id), b, acts, c);
    } else if fuel == 0 {
      GoesFrom(g, c);
    } else {
      var c1 := Sim(g, e.test, s, fuel, s1, held + {n + 1, n + 2}, Some(e.id), b, acts, c);
      var c2 := LoopTest(g, e, r, st, s1, s4, n, held, lp, b, acts, c, c1);
      LongBody(g, e, r.s, fuel, st, s1, s4, n, held, lp, b, acts, c, c2);
    }
  }

  lemma {:induction false} LongBody(g: World, e: Exp, s: State, fuel: nat, st: St, s1: St, s4: St, n: nat, held: set<int>,
                                    lp: Option<Id>, b: Env, acts: Acts, c: Config, c2: Config)
    requires e.WhileExp? && LoopAt(g, e, st, s1, s4, n, held, lp, b) && FunsOk(g, b) && fuel > 0
    requires AtBlock(c, n) && c.top.fn == st.fn
    requires Reaches(g.p, g.o, c, c2) && Rel(g, s, c2, acts, b) && Effect(c, c2, acts, b, OfExp(e), st.regs) && AtBlock(c2, n + 1)
    requires var ob := Eval(g.o, e.body, s, fuel - 1);
      ob.OutOfFuel? || (ob.Normal? && Eval(g.o, e, ob.s, fuel - 1).OutOfFuel?)
    ensures Goes(g, c, fuel)
    decreases fuel, e, 2
  {
    hide Legal, OfExp, WellFormed, Extends, Consistent, Distinct, Lowerable, Lifts, Typed, Matches, Ready, Moves, Within,
         Grows, Rel, Effect, Reaches, FunsOk, Blocks, LowerTables.Good, Fine, Tested, Lower, LoopAt, Eval, Goes;
    var ob := Eval(g.o, e.body, s, fuel - 1);
    BodyPoised(g, e, s, st, s1, s4, n, held, lp, b, acts, c, c2);
    if ob.OutOfFuel? {
      Long(g, e.body, s, fuel - 1, s4, held + {n + 2}, Some(e.id), b, acts, c2);
      GoesAfter(g, c, c2, fuel - 1);
    } else {
      var c3 := Sim(g, e.body, s, fuel - 1, s4, held + {n + 2}, Some(e.id), b, acts, c2);
      SameFn(c, c2, acts, b, OfExp(e), st.regs);
      ReachesSelf(g.p, g.o, c2);
      NoEffect(c2, acts, b, st.regs);
      var c4 := BodyEnd(g, e, ob, st, s1, s4, n, held, lp, b, acts, c2, c2, c3);
      LongLoop(g, e, ob.s, fuel - 1, st, s1, s4, n, held, lp, b, acts, c4);
      GoesAfter(g, c2, c4, fuel - 1);
      GoesAfter(g, c, c2, fuel);
    }
  }

  lemma {:induction false} LongWhile(g: World, e: Exp, s: State, fuel: nat, st: St, held: set<int>, lp: Option<Id>, b: Env,
                                     acts: Acts, c: Config)
    requires e.WhileExp?
    requires Poised(g, s, c, st, held, lp, b, acts, OfExp(e)) && Legal(g, e, st.fn, lp, b)
    requires Within(g, Lower(g.cx, e, st)) && Eval(g.o, e, s, fuel).OutOfFuel?
    ensures Goes(g, c, fuel)
    decreases fuel, e, 4
  {
    hide Legal, OfExp, WellFormed, Extends, Consistent, Distinct, Lowerable, Lifts, Typed, Ready, Moves, Within,
         Grows, Rel, Effect, Reaches, FunsOk, Blocks, LowerTables.Good, Fine, Tested, Lower, LoopAt, Eval, Goes;
    var n := |st.blocks|;
    var s0 := NewBlocks(st).(loopEnd := st.loopEnd[e.id := n + 2]);
    var s1 := Branch(s0, Br(n), n);
    var s3 := EmitTest(Lower(g.cx, e.test, s1));
    var s4 := Branch(s3, CondBr(s3.value, n + 1, n + 2), n + 1);
    LoopWithin(g, e, st, held, lp, b);
    var c1 := LoopEnter(g, s, st, s0, n, b, acts, c);
    LongLoop(g, e, s, fuel, st, s1, s4, n, held, lp, b, acts, c1);
    GoesAfter(g, c, c1, fuel);
  }

  // ----- scopes -----

  lemma {:induction false} LongScope(g: World, sc: Scope, s: State, fuel: nat, st: St, held: set<int>, lp: Option<Id>, b: Env,
                                     acts: Acts, c: Config)
    requires Poised(g, s, c, st, held, lp, b, acts, OfScope(sc)) && LegalScope(g, sc, st.fn, lp, b)
    requires Within(g, LowerScope(g.cx, sc, st)) && EvalScope(g.o, sc, s, fuel).OutOfFuel?
    ensures Goes(g, c, fuel)
    decreases fuel, sc, 0
  {
    hide Ready, FunsOk, Rel, Within, WellFormed, Consistent, Moves, Extends, Lower, Goes;
    match sc {
      case In(e) => Long(g, e, s, fuel, st, held, lp, b, acts, c);
      case With(VarChunk(d), rest) => LongVarDec(g, d, rest, s, fuel, st, held, lp, b, acts, c);
      case With(FunctionChunk(ds), rest) =>
        ChunkReady(g, ds, rest, st, held, lp, b);
        RelFun(g, s, c, acts, b, ds);
        LongScope(g, rest, State(FunB(ds, s.env), s.trace), fuel, LowerDecs(g.cx, ds, LowerHeaders(g.cx, ds, st)), held, lp,
                  FunB(ds, b), acts, c);
      case With(TypeChunk(ts), rest) =>
        ReadyLess(g, st, held, lp, b, OfScope(sc), OfScope(rest));
        LongScope(g, rest, s, fuel, st, held, lp, b, acts, c);
    }
  }

  lemma {:induction false} LongVarDec(g: World, d: VarDec, rest: Scope, s: State, fuel: nat, st: St, held: set<int>, lp: Option<Id>,
                                      b: Env, acts: Acts, c: Config)
    requires var sc := With(VarChunk(d), rest);
      && Poised(g, s, c, st, held, lp, b, acts, OfScope(sc)) && LegalScope(g, sc, st.fn, lp, b)
      && Within(g, LowerScope(g.cx, sc, st)) && EvalScope(g.o, sc, s, fuel).OutOfFuel?
    ensures Goes(g, c, fuel)
    decreases fuel, With(VarChunk(d), rest), 0, 0
  {
    hide Ready, FunsOk, Rel, Within, WellFormed, Consistent, Moves, Extends, Matches, Lower, LegalScope, Grows, OfScope, Goes;
    var b1, b2 := VarB(d.id, d.name, None, b), VarB(d.id, d.name, Some(0), b);
    var s0 := Before(g.cx, d, st);
    var s1 := Lower(g.cx, d.init, s0);
    var s2 := LowerVarDec(g.cx, d, st);
    var v := State(VarB(d.id, d.name, None, s.env), s.trace);
    var r := Eval(g.o, d.init, v, fuel);
    LegalVar(g, d, rest, st.fn, lp, b);
    InitReady(g, d, rest, st, held, lp, b);
    VarReady(g, d, rest, st, held, lp, b);
    VarWithin(g, d, rest, st, held, lp, b);
    RelVar(g, s, c, acts, b, d);
    FunsVar(g, d.id, d.name, None, b);
    FunsVar(g, d.id, d.name, Some(0), b);
    if r.Normal? {
      var c1 := Sim(g, d.init, v, fuel, s0, held, lp, b1, acts, c);
      var c2 := RunInit(g, d, r, c, c1, st, s0, s1, s2, acts, b, lp);
      LongScope(g, rest, SetTop(r.s, r.value), fuel, s2, held, lp, b2, acts[d.id := c.top.id], c2);
      GoesAfter(g, c, c2, fuel);
    } else {
      Long(g, d.init, v, fuel, s0, held, lp, b1, acts, c);
    }
  }

  // ----- calls -----

  lemma {:induction false} LongArgs(g: World, es: Exps, s: State, fuel: nat, st: St, held: set<int>, lp: Option<Id>, b: Env,
                                    acts: Acts, c: Config)
    requires Poised(g, s, c, st, held, lp, b, acts, OfExps(es)) && LegalArgs(g, es, st.fn, lp, b)
    requires Within(g, LowerArgs(g.cx, es, st).1) && EvalArgs(g.o, es, s, fuel) == Stop(OutOfFuel)
    ensures Goes(g, c, fuel)
    decreases fuel, es, 0
  {
    hide FunsOk, Reaches, WellFormed, Consistent, Moves, Extends, Ready, Effect, Rel, Matches, Fine, LowerTables.Good, Within,
         Lower, Goes;
    var e, rest := es.head, es.tail;
    var r := Eval(g.o, e, s, fuel);
    var s1 := Lower(g.cx, e, st);
    ArgsReady(g, es, st, held, lp, b);
    if r.Normal? {
      var c1 := Sim(g, e, s, fuel, st, held, lp, b, acts, c);
      Resume(g, r, c, c1, st, s1, false, held, lp, b, acts, OfExp(e), OfExps(rest));
      NormalRun(g, r, c, c1, st, s1, false, acts, b, OfExp(e), lp);
      LongArgs(g, rest, r.s, fuel, s1, held, lp, b, acts, c1);
      GoesAfter(g, c, c1, fuel);
    } else {
      Long(g, e, s, fuel, st, held, lp, b, acts, c);
    }
  }

  /** Entering a body takes fuel, and at least the call. */
  lemma {:induction false} LongInvoke(g: World, e: Exp, f: Symbol, d: FunctionDec, tail: Env, vs: seq<Int32.I32>, s: State, fuel: nat,
                                      c: Config, st: St, lifted: seq<Operand>, actuals: seq<Operand>, acts: Acts, b: Env)
    requires Calling(g, f, d, tail, vs, s, c, st, lifted, actuals, acts, b) && d.body.SomeExp? && fuel > 0
    requires Eval(g.o, d.body.exp, State(BindFormals(d.formals, vs, tail), s.trace), fuel - 1).OutOfFuel?
    ensures Goes(g, c, fuel)
    decreases fuel, e, 3
  {
    hide Ready, Legal, Lower, WellFormed, Consistent, Moves, Extends, Typed, Grows, Within, FunsOk, Reaches, Cells, Handed, Hold,
         Received, Frames, Effect, Eval, Rel, Calling, Goes;
    CalleeFacts(g, f, d, tail, vs, s, c, st, lifted, actuals, acts, b);
    var bt := Blank(tail);
    var sd: St, held: set<int> :| Compiled(g, d, bt, sd, held);
    CalleeReady(g, d, bt, sd, held);
    var c4 := EnterCallee(g, f, d, tail, vs, s, c, st, lifted, actuals, acts, b, sd, held);
    Long(g, d.body.exp, State(BindFormals(d.formals, vs, tail), s.trace), fuel - 1, Prologue(g.cx, d, Open(d, sd)), held, None,
         Enter(d.formals, bt), FormalActs(d.formals, c.next, acts), c4);
    GoesAfter(g, c, c4, fuel - 1);
  }

  lemma {:induction false} LongCall(g: World, e: Exp, s: State, fuel: nat, st: St, held: set<int>, lp: Option<Id>, b: Env,
                                    acts: Acts, c: Config)
    requires e.CallExp?
    requires Poised(g, s, c, st, held, lp, b, acts, OfExp(e)) && Legal(g, e, st.fn, lp, b)
    requires Within(g, Lower(g.cx, e, st)) && Eval(g.o, e, s, fuel).OutOfFuel?
    ensures Goes(g, c, fuel)
    decreases fuel, e, 4
  {
    hide Ready, Lower, WellFormed, Consistent, Moves, Extends, Grows, Within, FunsOk, Reaches, Cells, Handed, Hold, Frames, Effect,
         Rel, Calling, Matches, Legal, LowerArgs, EmitCall, Goes;
    var q := Link(g.cx, e.id);
    var lifted := LowerLifted(Lifted(g.cx, q), st).0;
    var (actuals, s2) := LowerArgs(g.cx, e.args, st);
    var ra := EvalArgs(g.o, e.args, s, fuel);
    CallReady(g, e, st, held, lp, b);
    if ra.Stop? {
      LongArgs(g, e.args, s, fuel, st, held, lp, b, acts, c);
    } else if fuel == 0 {
      GoesFrom(g, c);
    } else {
      var c1 := SimArgs(g, e.args, s, fuel, st, held, lp, b, acts, c);
      CallFound(g, e, ra.s, st, s2, ra.values, lifted, actuals, acts, b, c, c1, lp);
      var d, tail := FindFun(ra.s.env, e.name).value.0, FindFun(ra.s.env, e.name).value.1;
      LongInvoke(g, e, e.name, d, tail, ra.values, ra.s, fuel, c1, s2, lifted, actuals, acts, b);
      GoesAfter(g, c, c1, fuel);
    }
  }

  // ----- whole programs -----

  /** A run ends in one way only. */
  lemma EndsOnce(p: Code, o: Oracle, c: Config, v: Val, v': Val, trace: seq<Event>, trace': seq<Event>)
    requires Ends(p, o, c, v, trace) && Ends(p, o, c, v', trace')
    ensures v == v' && trace == trace'
  {
    var b :| Reaches(p, o, c, b) && Step(p, o, b) == Finished(v, trace);
    var b' :| Reaches(p, o, c, b') && Step(p, o, b') == Finished(v', trace');
    var n: nat :| Steps(p, o, c, n) == Some(b);
    var n': nat :| Steps(p, o, c, n') == Some(b');
    if n < n' { NoneAfter(p, o, c, n, n'); }
    if n' < n { NoneAfter(p, o, c, n', n); }
  }

  /** There are no steps after the end. */
  lemma NoneAfter(p: Code, o: Oracle, c: Config, n: nat, k: nat)
    requires Steps(p, o, c, n).Some? && !Step(p, o, Steps(p, o, c, n).value).Next? && n < k
    ensures Steps(p, o, c, k).None?
  {
    StepsAdd(p, o, c, n, k - n);
  }

  /** While the source program runs, so does the compiled one. */
  lemma StillRunning(cx: Ctx, w: Info, prims: Decs, m: FunctionDec, primitives: map<Id, Symbol>, o: Oracle, args: seq<Val>,
                     fuel: nat)
    requires m.body.SomeExp? && LegalMain(World(cx, w, LinkedCode(cx, prims, m, primitives), o), prims, m)
    requires Source(o, prims, m, fuel).OutOfFuel?
    ensures Steps(LinkedCode(cx, prims, m, primitives), o, Launch(args, m.id), fuel).Some?
  {
    hide Legal, TypedDecs, Lower, Eval, Ready, Prologue, FunsOk;
    var g := World(cx, w, LinkedCode(cx, prims, m, primitives), o);
    MainWithin(g, prims, m, primitives);
    LaunchPoised(g, prims, m, args);
    MainReady(g, prims, m);
    Long(g, m.body.exp, State(FunB(prims, Empty), []), fuel, Prologue(cx, m, Begin(cx, prims, m)), {}, None, FunB(prims, Empty),
         map[], Launch(args, m.id));
  }

  /** A source program without undefined behaviour and its code: the code ends with a value after
      some calls of primitives exactly if the source does. */
  lemma CompiledExactly(cx: Ctx, w: Info, prims: Decs, m: FunctionDec, primitives: map<Id, Symbol>, o: Oracle, args: seq<Val>,
                        v: Val, trace: seq<Event>)
    requires m.body.SomeExp? && LegalMain(World(cx, w, LinkedCode(cx, prims, m, primitives), o), prims, m)
    requires forall k: nat :: !Source(o, prims, m, k).Undefined?
    ensures Ends(LinkedCode(cx, prims, m, primitives), o, Launch(args, m.id), v, trace)
       <==> exists k: nat :: Yields(Source(o, prims, m, k), m, v, trace)
  {
    hide LegalMain, LinkedCode, Source;
    var p, c := LinkedCode(cx, prims, m, primitives), Launch(args, m.id);
    if Ends(p, o, c, v, trace) {
      var b :| Reaches(p, o, c, b) && Step(p, o, b) == Finished(v, trace);
      var n: nat :| Steps(p, o, c, n) == Some(b);
      NoneAfter(p, o, c, n, n + 1);
      var r := Source(o, prims, m, n + 1);
      if r.OutOfFuel? { StillRunning(cx, w, prims, m, primitives, o, args, n + 1); }
      CompiledCorrectly(cx, w, prims, m, primitives, o, args, n + 1);
      EndsOnce(p, o, c, v, VInt(if m.result.None? then 0 else r.value), trace, r.s.trace);
      assert Yields(Source(o, prims, m, n + 1), m, v, trace);
    }
    if k: nat :| Yields(Source(o, prims, m, k), m, v, trace) {
      CompiledCorrectly(cx, w, prims, m, primitives, o, args, k);
    }
  }

  /** The code of such a program runs forever exactly if the source does. */
  lemma ForeverTogether(cx: Ctx, w: Info, prims: Decs, m: FunctionDec, primitives: map<Id, Symbol>, o: Oracle, args: seq<Val>)
    requires m.body.SomeExp? && LegalMain(World(cx, w, LinkedCode(cx, prims, m, primitives), o), prims, m)
    requires forall k: nat :: !Source(o, prims, m, k).Undefined?
    ensures (forall n: nat :: Steps(LinkedCode(cx, prims, m, primitives), o, Launch(args, m.id), n).Some?)
       <==> (forall k: nat :: Source(o, prims, m, k).OutOfFuel?)
  {
    hide LegalMain, LinkedCode, Source;
    var p, c := LinkedCode(cx, prims, m, primitives), Launch(args, m.id);
    if k: nat :| !Source(o, prims, m, k).OutOfFuel? {
      CompiledCorrectly(cx, w, prims, m, primitives, o, args, k);
      var r := Source(o, prims, m, k);
      var b :| Reaches(p, o, c, b) && Step(p, o, b) == Finished(VInt(if m.result.None? then 0 else r.value), r.s.trace);
      var n: nat :| Steps(p, o, c, n) == Some(b);
      NoneAfter(p, o, c, n, n + 1);
    } else {
      forall n: nat ensures Steps(p, o, c, n).Some? { StillRunning(cx, w, prims, m, primitives, o, args, n); }
    }
  }
}
