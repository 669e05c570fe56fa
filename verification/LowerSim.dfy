/** The translation preserves meaning: the machine running the emitted blocks does what the source
    program does, for every expression and scope, by induction on the fuel and the tree. */
module LowerSim {
  import opened Options
  import opened Ast
  import opened Nodes
  import opened Semantics
  import opened Cfg
  import opened Lowering
  import opened LowerShape
  import opened LowerTables
  import opened LowerReady
  import opened LowerScopes
  import opened LowerRun
  import Int32

  // ----- expressions -----

  lemma {:induction false} Sim(g: World, e: Exp, s: State, fuel: nat, st: St, held: set<int>, lp: Option<Id>, b: Env,
                               acts: Acts, c: Config) returns (c': Config)
    requires Poised(g, s, c, st, held, lp, b, acts, OfExp(e)) && Legal(g, e, st.fn, lp, b)
    requires Within(g, Lower(g.cx, e, st))
    ensures Matches(g, Eval(g.o, e, s, fuel), c, c', st, Lower(g.cx, e, st), Voids(g.cx, e), acts, b, OfExp(e), lp)
    decreases fuel, e, 5
  {
    hide Ready, FunsOk, Rel, Within, WellFormed, Consistent, Moves, Extends;
    c' := c;
    match e {
      case OpExp(_, _, _) => c' := SimOp(g, e, s, fuel, st, held, lp, b, acts, c);
      case IfExp(_, _, _) => c' := SimIf(g, e, s, fuel, st, held, lp, b, acts, c);
      case WhileExp(_, _, _) => c' := SimWhile(g, e, s, fuel, st, held, lp, b, acts, c);
      case VarExp(_, _) => c' := SimVar(g, e, s, fuel, st, held, lp, b, acts, c);
      case AssignExp(_, _, _) => c' := SimAssign(g, e, s, fuel, st, held, lp, b, acts, c);
      case BreakExp(_) => c' := SimBreak(g, e, s, fuel, st, held, lp, b, acts, c);
      case SeqExp(es) => if es.ECons? { c' := SimSeq(g, es, 0, s, fuel, st, held, lp, b, acts, c); } else { StayPut(g, 0, s, c, st, ZERO, true, acts, b, {}, lp); }
      case IntExp(n) => StayPut(g, Int32.Wrap(n), s, c, st, Imm(Int32.Wrap(n)), false, acts, b, {}, lp);
      case CallExp(_, _, _) => c' := SimCall(g, e, s, fuel, st, held, lp, b, acts, c);
      case LetExp(sc) => c' := SimScope(g, sc, s, fuel, st, held, lp, b, acts, c);
    }
  }

  lemma {:induction false} SimOp(g: World, e: Exp, s: State, fuel: nat, st: St, held: set<int>, lp: Option<Id>, b: Env,
                                 acts: Acts, c: Config) returns (c': Config)
    requires e.OpExp?
    requires Poised(g, s, c, st, held, lp, b, acts, OfExp(e)) && Legal(g, e, st.fn, lp, b)
    requires Within(g, Lower(g.cx, e, st))
    ensures Matches(g, Eval(g.o, e, s, fuel), c, c', st, Lower(g.cx, e, st), Voids(g.cx, e), acts, b, OfExp(e), lp)
    decreases fuel, e, 4
  {
    hide Ready, FunsOk, Rel, Within, Matches, Fine, LowerTables.Good, Effect, Grows, Reaches;
    var l, op, r := e.left, e.oper, e.right;
    First(g, l, OfExp(r), st, held, lp, b);
    var s1 := Lower(g.cx, l, st);
    assert OfExp(r) + {} == OfExp(r);
    First(g, r, {}, s1, held, lp, b);
    var s2 := Lower(g.cx, r, s1);
    OpGrows(s2, op, s1.value, s2.value);
    WithinSame(g, s2, EmitOp(s2, op, s1.value, s2.value));
    WithinFirst(g, s1, s2, held, OfExp(r), lp, b);
    SameLoop(g, st, s1, held, lp, b, OfExp(l), OfExp(e));
    PlainValue(g, s1, held, lp, b, OfExp(r));
    c' := Sim(g, l, s, fuel, st, held, lp, b, acts, c);
    var rl := Eval(g.o, l, s, fuel);
    if !rl.Normal? {
      Escapes(g, rl, c, c', st, s1, Lower(g.cx, e, st), false, false, acts, b, OfExp(l), OfExp(e), lp);
    } else {
      Resume(g, rl, c, c', st, s1, false, held, lp, b, acts, OfExp(l), OfExp(r));
      var c1 := c';
      c' := Sim(g, r, rl.s, fuel, s1, held, lp, b, acts, c1);
      c' := OpEnd(g, op, rl, Eval(g.o, r, rl.s, fuel), st, s1, s2, lp, b, acts, OfExp(l), OfExp(r), c, c1, c');
    }
  }

  // ----- control -----

  lemma {:induction false} SimThen(g: World, e: Exp, s: State, fuel: nat, st: St, s2: St, n: nat, held: set<int>,
                                   lp: Option<Id>, b: Env, acts: Acts, c: Config, c2: Config) returns (c': Config)
    requires e.IfExp? && Ready(g, st, held, lp, b, OfExp(e)) && Legal(g, e, st.fn, lp, b) && FunsOk(g, b)
    requires AtThen(g, e, st, s2, n, held, lp, b) && Branching(g, s, c, c2, st, n, acts, b, OfExp(e.test))
    requires c.top.fn == st.fn
    requires var s3 := Lower(g.cx, e.thn, s2); var s4 := Branch(s3, Br(n + 2), n + 1);
      var s5 := if e.els.SomeExp? then Lower(g.cx, e.els.exp, s4) else s4.(value := ZERO);
      Within(g, Meet(g.cx, e, s3, s5, n + 2))
    ensures var s3 := Lower(g.cx, e.thn, s2); var s4 := Branch(s3, Br(n + 2), n + 1);
      var s5 := if e.els.SomeExp? then Lower(g.cx, e.els.exp, s4) else s4.(value := ZERO);
      Matches(g, Eval(g.o, e.thn, s, fuel), c, c', st, Meet(g.cx, e, s3, s5, n + 2), Voids(g.cx, e), acts, b, OfExp(e), lp)
    decreases fuel, e, 3
  {
    hide Legal, Lower, OfExp, WellFormed, Extends, Consistent, Distinct, Lowerable, Lifts, Typed, Matches, Waiting, Els,
         Ready, Moves, Within, Grows, Rel, Effect, Reaches, FunsOk, Meet, Eval, AtThen, AtElse, Blocks, Joining,
         LowerTables.Good, Fine, Poised;
    var s3 := Lower(g.cx, e.thn, s2);
    var s4 := Branch(s3, Br(n + 2), n + 1);
    var s5 := if e.els.SomeExp? then Lower(g.cx, e.els.exp, s4) else s4.(value := ZERO);
    var t, r := OfExp(e.thn), Eval(g.o, e.thn, s, fuel);
    LegalIf(g, e, st.fn, lp, b);
    IfWithin(g, e, st, s2, n, held, lp, b);
    IfThenCode(g, e, st, s2, n, held, lp, b);
    IfThenReady(g, e, st, s2, n, held, lp, b);
    IfElseReady(g, e, st, s3, s4, n, held, lp, b);
    ThenParts(g, e, st, s2, n, held, lp, b);
    Start(g, s, st, s2, held, held + {n + 1, n + 2}, lp, lp, b, acts, c, c2, OfExp(e.test), OfExp(e), t);
    var c3 := Sim(g, e.thn, s, fuel, s2, held + {n + 1, n + 2}, lp, b, acts, c2);
    After(g, r, c, c2, c3, st, s2, s3, Voids(g.cx, e), acts, b, OfExp(e.test), t, lp);
    MatchesMore(g, r, c, c3, st, s3, Voids(g.cx, e), Voids(g.cx, e), acts, b, OfExp(e.test) + t, OfExp(e), lp);
    c' := IfEnd(g, e, r, st, s3, s5, n, true, lp, b, acts, OfExp(e), c, c3);
  }

  lemma {:induction false} SimElse(g: World, e: Exp, s: State, fuel: nat, st: St, s3: St, s4: St, n: nat, held: set<int>,
                                   lp: Option<Id>, b: Env, acts: Acts, c: Config, c2: Config) returns (c': Config)
    requires e.IfExp? && Ready(g, st, held, lp, b, OfExp(e)) && Legal(g, e, st.fn, lp, b) && FunsOk(g, b)
    requires AtElse(g, e, st, s3, s4, n, held, lp, b) && Branching(g, s, c, c2, st, n + 1, acts, b, OfExp(e.test))
    requires c.top.fn == st.fn && st.regs <= s3.regs && Plain(s3)
    requires var s5 := if e.els.SomeExp? then Lower(g.cx, e.els.exp, s4) else s4.(value := ZERO);
      Within(g, s5) && Within(g, Meet(g.cx, e, s3, s5, n + 2)) && Grows(Emit(s5, Br(n + 2)).blocks, g.p.blocks)
    ensures var s5 := if e.els.SomeExp? then Lower(g.cx, e.els.exp, s4) else s4.(value := ZERO);
      var r := if e.els.SomeExp? then Eval(g.o, e.els.exp, s, fuel) else Normal(0, s);
      Matches(g, r, c, c', st, Meet(g.cx, e, s3, s5, n + 2), Voids(g.cx, e), acts, b, OfExp(e), lp)
    decreases fuel, e, 3
  {
    hide Legal, Lower, OfExp, WellFormed, Extends, Consistent, Distinct, Lowerable, Lifts, Matches, Waiting,
         Ready, Moves, Within, Grows, Rel, Effect, Reaches, FunsOk, Meet, Eval, AtThen, AtElse, Blocks, Joining,
         LowerTables.Good, Fine, Poised;
    var s5 := if e.els.SomeExp? then Lower(g.cx, e.els.exp, s4) else s4.(value := ZERO);
    var r := if e.els.SomeExp? then Eval(g.o, e.els.exp, s, fuel) else Normal(0, s);
    var ids := OfExp(e.test) + OfExp(e.thn);
    LegalIf(g, e, st.fn, lp, b);
    IfElseReady(g, e, st, s3, s4, n, held, lp, b);
    ElseParts(g, e, st, s3, s4, n, held, lp, b);
    EffectMore(c, c2, acts, b, OfExp(e.test), ids, st.regs, st.regs);
    Start(g, s, st, s4, held, held + {n + 2}, lp, lp, b, acts, c, c2, ids, OfExp(e), Els(e));
    var c3 := c2;
    if e.els.SomeExp? {
      c3 := Sim(g, e.els.exp, s, fuel, s4, held + {n + 2}, lp, b, acts, c2);
      var void := Voids(g.cx, e.els.exp);
      After(g, r, c, c2, c3, st, s4, s5, void, acts, b, ids, Els(e), lp);
      MatchesMore(g, r, c, c3, st, s5, void, Voids(g.cx, e), acts, b, ids + Els(e), OfExp(e), lp);
    } else {
      QuietKeeps(g, s, c2, c2, acts, b, {}, st.regs);
      AfterQuiet(g, 0, s, c, c2, c2, st, st, s5, true, acts, b, ids, lp);
      MatchesMore(g, r, c, c3, st, s5, true, true, acts, b, ids, OfExp(e), lp);
    }
    WithinGrows(g, Meet(g.cx, e, s3, s5, n + 2));
    c' := IfEnd(g, e, r, st, s3, s5, n, false, lp, b, acts, OfExp(e), c, c3);
  }

  lemma {:induction false} SimIf(g: World, e: Exp, s: State, fuel: nat, st: St, held: set<int>, lp: Option<Id>, b: Env,
                                 acts: Acts, c: Config) returns (c': Config)
    requires e.IfExp?
    requires Poised(g, s, c, st, held, lp, b, acts, OfExp(e)) && Legal(g, e, st.fn, lp, b)
    requires Within(g, Lower(g.cx, e, st))
    ensures Matches(g, Eval(g.o, e, s, fuel), c, c', st, Lower(g.cx, e, st), Voids(g.cx, e), acts, b, OfExp(e), lp)
    decreases fuel, e, 4
  {
    hide Legal, OfExp, WellFormed, Extends, Consistent, Distinct, Lowerable, Lifts, Matches, Waiting, Ready, Moves, Within,
         Grows, Rel, Effect, Reaches, FunsOk, Meet, AtThen, AtElse, Blocks, Joining, LowerTables.Good, Fine, Els, Lower,
         Tested, Emit, EmitTo, EmitTest, NewBlocks, Branching;
    var s0 := Lower(g.cx, e.test, st);
    var s1 := EmitTest(s0);
    var n := |s1.blocks|;
    var s2 := Branch(NewBlocks(s1), CondBr(s1.value, n, n + 1), n);
    var s3 := Lower(g.cx, e.thn, s2);
    var s4 := Branch(s3, Br(n + 2), n + 1);
    var r := Eval(g.o, e.test, s, fuel);
    LegalIf(g, e, st.fn, lp, b);
    IfStates(g, e, st, held, lp, b);
    c' := Sim(g, e.test, s, fuel, st, held, lp, b, acts, c);
    if !r.Normal? {
      Escapes(g, r, c, c', st, s0, Lower(g.cx, e, st), false, Voids(g.cx, e), acts, b, OfExp(e.test), OfExp(e), lp);
    } else {
      var c2 := TestEnd(g, r, c, c', st, s0, NewBlocks(s1), n, n + 1, acts, b, OfExp(e.test), lp);
      if r.value != 0 { c' := SimThen(g, e, r.s, fuel, st, s2, n, held, lp, b, acts, c, c2); }
      else { c' := SimElse(g, e, r.s, fuel, st, s3, s4, n, held, lp, b, acts, c, c2); }
    }
  }

  // ----- loops -----

  lemma {:induction false} SimLoop(g: World, e: Exp, s: State, fuel: nat, st: St, s1: St, s4: St, n: nat, held: set<int>,
                                   lp: Option<Id>, b: Env, acts: Acts, c: Config) returns (c': Config)
    requires e.WhileExp? && LoopAt(g, e, st, s1, s4, n, held, lp, b) && FunsOk(g, b)
    requires Rel(g, s, c, acts, b) && AtBlock(c, n) && c.top.fn == st.fn
    ensures Loops(g, Eval(g.o, e, s, fuel), c, c', n + 2, acts, b, OfExp(e), st.regs)
    decreases fuel, e, 3
  {
    hide Legal, OfExp, WellFormed, Extends, Consistent, Distinct, Lowerable, Lifts, Typed, Matches, Ready, Moves, Within, Loops,
         Grows, Rel, Effect, Reaches, FunsOk, Blocks, LowerTables.Good, Fine, Tested, Lower, LoopAt;
    var h := held + {n + 1, n + 2};
    var s2 := Lower(g.cx, e.test, s1);
    var r := Eval(g.o, e.test, s, fuel);
    LoopPoised(g, e, s, st, s1, s4, n, held, lp, b, acts, c);
    var c1 := Sim(g, e.test, s, fuel, s1, h, Some(e.id), b, acts, c);
    c' := LoopTest(g, e, r, st, s1, s4, n, held, lp, b, acts, c, c1);
    if r.Normal? && r.value != 0 && fuel > 0 {
      var c2 := c';
      c' := SimBody(g, e, r.s, fuel, st, s1, s4, n, held, lp, b, acts, c, c2);
    } else {
      LoopStops(g, e, r, s, fuel, c, c', n, acts, b, OfExp(e), st.regs);
    }
  }

  /** The body, and the rest of the loop. */
  lemma {:induction false} SimBody(g: World, e: Exp, s: State, fuel: nat, st: St, s1: St, s4: St, n: nat, held: set<int>,
                                   lp: Option<Id>, b: Env, acts: Acts, c: Config, c2: Config) returns (c': Config)
    requires e.WhileExp? && LoopAt(g, e, st, s1, s4, n, held, lp, b) && FunsOk(g, b) && fuel > 0 && c.top.fn == st.fn
    requires Reaches(g.p, g.o, c, c2) && Rel(g, s, c2, acts, b) && Effect(c, c2, acts, b, OfExp(e), st.regs) && AtBlock(c2, n + 1)
    ensures var ob := Eval(g.o, e.body, s, fuel - 1);
      var r := if ob.Broke? then Normal(0, ob.s) else if !ob.Normal? then ob else Eval(g.o, e, ob.s, fuel - 1);
      Loops(g, r, c, c', n + 2, acts, b, OfExp(e), st.regs)
    decreases fuel, e, 2
  {
    hide Legal, OfExp, WellFormed, Extends, Consistent, Distinct, Lowerable, Lifts, Typed, Matches, Ready, Moves, Within,
         Grows, Rel, Effect, Reaches, FunsOk, Blocks, LowerTables.Good, Fine, Tested, Lower, LoopAt, Eval;
    var s5 := Lower(g.cx, e.body, s4);
    var ob := Eval(g.o, e.body, s, fuel - 1);
    BodyPoised(g, e, s, st, s1, s4, n, held, lp, b, acts, c, c2);
    var c3 := Sim(g, e.body, s, fuel - 1, s4, held + {n + 2}, Some(e.id), b, acts, c2);
    c' := BodyEnd(g, e, ob, st, s1, s4, n, held, lp, b, acts, c, c2, c3);
    if ob.Normal? {
      var c4 := c';
      c' := SimLoop(g, e, ob.s, fuel - 1, st, s1, s4, n, held, lp, b, acts, c4);
      if Eval(g.o, e, ob.s, fuel - 1).Normal? {
        ReachesTrans(g.p, g.o, c, c4, c');
        EffectTrans(c, c4, c', acts, b, OfExp(e), OfExp(e), st.regs, st.regs);
        assert OfExp(e) + OfExp(e) == OfExp(e);
      }
    }
  }

  lemma {:induction false} SimWhile(g: World, e: Exp, s: State, fuel: nat, st: St, held: set<int>, lp: Option<Id>, b: Env,
                                    acts: Acts, c: Config) returns (c': Config)
    requires e.WhileExp?
    requires Poised(g, s, c, st, held, lp, b, acts, OfExp(e)) && Legal(g, e, st.fn, lp, b)
    requires Within(g, Lower(g.cx, e, st))
    ensures Matches(g, Eval(g.o, e, s, fuel), c, c', st, Lower(g.cx, e, st), Voids(g.cx, e), acts, b, OfExp(e), lp)
    decreases fuel, e, 4
  {
    hide Legal, OfExp, WellFormed, Extends, Consistent, Distinct, Lowerable, Lifts, Typed, Ready, Moves, Within,
         Grows, Rel, Effect, Reaches, FunsOk, Blocks, LowerTables.Good, Fine, Tested, Lower, LoopAt, Eval, Matches, Loops;
    var n := |st.blocks|;
    var s0 := NewBlocks(st).(loopEnd := st.loopEnd[e.id := n + 2]);
    var s1 := Branch(s0, Br(n), n);
    var s3 := EmitTest(Lower(g.cx, e.test, s1));
    var s4 := Branch(s3, CondBr(s3.value, n + 1, n + 2), n + 1);
    LoopForm(g, e, st);
    LoopWithin(g, e, st, held, lp, b);
    var c1 := LoopEnter(g, s, st, s0, n, b, acts, c);
    c' := SimLoop(g, e, s, fuel, st, s1, s4, n, held, lp, b, acts, c1);
    LoopAfter(g, e, st, s1, s4, n, held, lp, b);
    LoopDone(g, Eval(g.o, e, s, fuel), c, c1, c', st, Lower(g.cx, e, st), n + 2, acts, b, OfExp(e), lp);
  }

  // ----- constants and variables -----

  lemma {:induction false} SimVar(g: World, e: Exp, s: State, fuel: nat, st: St, held: set<int>, lp: Option<Id>, b: Env,
                                  acts: Acts, c: Config) returns (c': Config)
    requires e.VarExp?
    requires Poised(g, s, c, st, held, lp, b, acts, OfExp(e)) && Legal(g, e, st.fn, lp, b)
    requires Within(g, Lower(g.cx, e, st))
    ensures Matches(g, Eval(g.o, e, s, fuel), c, c', st, Lower(g.cx, e, st), Voids(g.cx, e), acts, b, OfExp(e), lp)
  {
    hide Ready, FunsOk, Reaches, Grows, WellFormed;
    var d := Link(g.cx, e.id);
    var i := Load(st.regs, AccessVar(st, d));
    CellOf(s.env, acts, c.mem, e.name);
    Access(g, st, held, lp, b, OfExp(e), d);
    PointsTo(g, b, c.top, c.next, acts, AccessVar(st, d), d);
    ReachesSelf(g.p, g.o, c);
    var v := FindVar(s.env, e.name).value.value;
    c' := RunTo(g, c, c, st, i, VInt(v));
    NoEffect(c, acts, b, st.regs);
    AfterQuiet(g, v, s, c, c, c', st, st, EmitTo(st, i), false, acts, b, OfExp(e), lp);
  }

  lemma {:induction false} SimBreak(g: World, e: Exp, s: State, fuel: nat, st: St, held: set<int>, lp: Option<Id>, b: Env,
                                    acts: Acts, c: Config) returns (c': Config)
    requires e.BreakExp?
    requires Poised(g, s, c, st, held, lp, b, acts, OfExp(e)) && Legal(g, e, st.fn, lp, b)
    requires Within(g, Lower(g.cx, e, st))
    ensures Matches(g, Eval(g.o, e, s, fuel), c, c', st, Lower(g.cx, e, st), Voids(g.cx, e), acts, b, OfExp(e), lp)
  {
    hide FunsOk, Reaches, Rel, WellFormed, Consistent, Declared, New;
    var after := st.loopEnd[lp.value];
    GrowsSelf(Emit(st, Br(after)).blocks);
    assert Grows(Emit(st, Br(after)).blocks, Lower(g.cx, e, st).blocks);
    GrowsTrans(Emit(st, Br(after)).blocks, Lower(g.cx, e, st).blocks, g.p.blocks);
    ReachesSelf(g.p, g.o, c);
    c' := RunBr(g, c, c, st, after, st.regs);
    QuietKeeps(g, s, c, c', acts, b, OfExp(e), st.regs);
  }

  // ----- assignment -----

  lemma {:induction false} SimAssign(g: World, e: Exp, s: State, fuel: nat, st: St, held: set<int>, lp: Option<Id>, b: Env,
                                     acts: Acts, c: Config) returns (c': Config)
    requires e.AssignExp?
    requires Poised(g, s, c, st, held, lp, b, acts, OfExp(e)) && Legal(g, e, st.fn, lp, b)
    requires Within(g, Lower(g.cx, e, st))
    ensures Matches(g, Eval(g.o, e, s, fuel), c, c', st, Lower(g.cx, e, st), Voids(g.cx, e), acts, b, OfExp(e), lp)
    decreases fuel, e, 4
  {
    hide FunsOk, Reaches, WellFormed, Consistent, Declared, New, Grows, Moves, Extends, Ready, Effect, Rel, Frames, Names, Matches, Lifts;
    var r := Eval(g.o, e.exp, s, fuel);
    AssignReady(g, e, st, held, lp, b);
    RelSees(g, s, c, acts, b, e.name);
    c' := Sim(g, e.exp, s, fuel, st, held, lp, b, acts, c);
    var s1 := Lower(g.cx, e.exp, st);
    if r.Normal? {
      NormalRun(g, r, c, c', st, s1, false, acts, b, OfExp(e.exp), lp);
      SameFn(c, c', acts, b, OfExp(e.exp), st.regs);
      MatchesMore(g, r, c, c', st, s1, false, false, acts, b, OfExp(e.exp), OfExp(e), lp);
      c' := RunStore(g, e.name, r.value, r.s, c, c', st, s1, AccessVar(st, Link(g.cx, e.id)), Link(g.cx, e.id), acts, b, OfExp(e), lp);
    } else {
      Escapes(g, r, c, c', st, s1, Lower(g.cx, e, st), false, true, acts, b, OfExp(e.exp), OfExp(e), lp);
    }
  }

  // ----- sequences -----

  lemma {:induction false} SimSeq(g: World, es: Exps, last: Int32.I32, s: State, fuel: nat, st: St, held: set<int>, lp: Option<Id>,
                                  b: Env, acts: Acts, c: Config) returns (c': Config)
    requires es.ECons? && Poised(g, s, c, st, held, lp, b, acts, OfExps(es)) && LegalAll(g, es, st.fn, lp, b)
    requires Within(g, LowerSeq(g.cx, es, st))
    ensures Matches(g, EvalSeq(g.o, es, last, s, fuel), c, c', st, LowerSeq(g.cx, es, st), VoidsLast(g.cx, es), acts, b, OfExps(es), lp)
    decreases fuel, es, 0
  {
    hide FunsOk, Reaches, WellFormed, Consistent, Declared, New, Grows, Moves, Extends, Ready, Effect, Rel, Matches, Fine,
         LowerTables.Good, Within;
    var e, rest := es.head, es.tail;
    var r := Eval(g.o, e, s, fuel);
    var s1 := Lower(g.cx, e, st);
    SeqReady(g, es, st, held, lp, b);
    c' := Sim(g, e, s, fuel, st, held, lp, b, acts, c);
    if rest.ENil? {
      assert OfExps(es) == OfExp(e);
    } else if !r.Normal? {
      Escapes(g, r, c, c', st, s1, LowerSeq(g.cx, es, st), Voids(g.cx, e), VoidsLast(g.cx, es), acts, b, OfExp(e), OfExps(es), lp);
    } else {
      var c1 := c';
      Resume(g, r, c, c1, st, s1, Voids(g.cx, e), held, lp, b, acts, OfExp(e), OfExps(rest));
      c' := SimSeq(g, rest, r.value, r.s, fuel, s1, held, lp, b, acts, c1);
      NormalRun(g, r, c, c1, st, s1, Voids(g.cx, e), acts, b, OfExp(e), lp);
      After(g, EvalSeq(g.o, rest, r.value, r.s, fuel), c, c1, c', st, s1, LowerSeq(g.cx, es, st), VoidsLast(g.cx, es),
            acts, b, OfExp(e), OfExps(rest), lp);
    }
  }

  // ----- scopes -----

  lemma {:induction false} SimScope(g: World, sc: Scope, s: State, fuel: nat, st: St, held: set<int>, lp: Option<Id>, b: Env,
                                    acts: Acts, c: Config) returns (c': Config)
    requires Poised(g, s, c, st, held, lp, b, acts, OfScope(sc)) && LegalScope(g, sc, st.fn, lp, b)
    requires Within(g, LowerScope(g.cx, sc, st))
    ensures Matches(g, EvalScope(g.o, sc, s, fuel), c, c', st, LowerScope(g.cx, sc, st), VoidsScope(g.cx, sc), acts, b, OfScope(sc), lp)
    decreases fuel, sc, 0
  {
    hide Ready, FunsOk, Rel, Within, WellFormed, Consistent, Moves, Extends, Matches, Lower;
    match sc {
      case In(e) => c' := Sim(g, e, s, fuel, st, held, lp, b, acts, c);
      case With(VarChunk(d), rest) => c' := SimVarDec(g, d, rest, s, fuel, st, held, lp, b, acts, c);
      case With(FunctionChunk(ds), rest) =>
        ChunkReady(g, ds, rest, st, held, lp, b);
        var b1, s1 := FunB(ds, b), LowerDecs(g.cx, ds, LowerHeaders(g.cx, ds, st));
        RelFun(g, s, c, acts, b, ds);
        c' := SimScope(g, rest, State(FunB(ds, s.env), s.trace), fuel, s1, held, lp, b1, acts, c);
        PopFun(g, EvalScope(g.o, rest, State(FunB(ds, s.env), s.trace), fuel), ds, c, c', st, s1, LowerScope(g.cx, sc, st),
               VoidsScope(g.cx, rest), acts, b, OfScope(rest), OfScope(sc), lp);
      case With(TypeChunk(ts), rest) =>
        ReadyLess(g, st, held, lp, b, OfScope(sc), OfScope(rest));
        c' := SimScope(g, rest, s, fuel, st, held, lp, b, acts, c);
        MatchesMore(g, EvalScope(g.o, rest, s, fuel), c, c', st, LowerScope(g.cx, rest, st), VoidsScope(g.cx, rest),
                    VoidsScope(g.cx, rest), acts, b, OfScope(rest), OfScope(sc), lp);
    }
  }

  lemma {:induction false} SimVarDec(g: World, d: VarDec, rest: Scope, s: State, fuel: nat, st: St, held: set<int>, lp: Option<Id>,
                                     b: Env, acts: Acts, c: Config) returns (c': Config)
    requires var sc := With(VarChunk(d), rest);
      && Poised(g, s, c, st, held, lp, b, acts, OfScope(sc)) && LegalScope(g, sc, st.fn, lp, b)
      && Within(g, LowerScope(g.cx, sc, st))
    ensures var sc := With(VarChunk(d), rest);
      Matches(g, EvalScope(g.o, sc, s, fuel), c, c', st, LowerScope(g.cx, sc, st), VoidsScope(g.cx, sc), acts, b, OfScope(sc), lp)
    decreases fuel, With(VarChunk(d), rest), 0, 0
  {
    hide Ready, FunsOk, Rel, Within, WellFormed, Consistent, Moves, Extends, Matches, Lower, LegalScope, Grows, OfScope;
    var b1, b2 := VarB(d.id, d.name, None, b), VarB(d.id, d.name, Some(0), b);
    var s0 := Before(g.cx, d, st);
    var s1 := Lower(g.cx, d.init, s0);
    var s2 := LowerVarDec(g.cx, d, st);
    var all := OfScope(With(VarChunk(d), rest));
    var r := Eval(g.o, d.init, State(VarB(d.id, d.name, None, s.env), s.trace), fuel);
    LegalVar(g, d, rest, st.fn, lp, b);
    InitReady(g, d, rest, st, held, lp, b);
    VarReady(g, d, rest, st, held, lp, b);
    VarWithin(g, d, rest, st, held, lp, b);
    RelVar(g, s, c, acts, b, d);
    FunsVar(g, d.id, d.name, None, b);
    FunsVar(g, d.id, d.name, Some(0), b);
    var c1 := Sim(g, d.init, State(VarB(d.id, d.name, None, s.env), s.trace), fuel, s0, held, lp, b1, acts, c);
    c' := c1;
    if !r.Normal? {
      PopVarNone(g, r, d, c, c1, st, s0, s1, LowerScope(g.cx, rest, s2), false, VoidsScope(g.cx, rest), acts, b, OfExp(d.init), all, lp);
    } else {
      var acts2 := acts[d.id := c.top.id];
      var c2 := RunInit(g, d, r, c, c1, st, s0, s1, s2, acts, b, lp);
      c' := SimScope(g, rest, SetTop(r.s, r.value), fuel, s2, held, lp, b2, acts2, c2);
      PopVar(g, EvalScope(g.o, rest, SetTop(r.s, r.value), fuel), d, c, c2, c', st, s2, LowerScope(g.cx, rest, s2),
             VoidsScope(g.cx, rest), acts, b, OfVarDec(d), OfScope(rest), all, lp);
    }
  }

  // ----- calls: the arguments -----

  lemma {:induction false} SimArgs(g: World, es: Exps, s: State, fuel: nat, st: St, held: set<int>, lp: Option<Id>, b: Env,
                                   acts: Acts, c: Config) returns (c': Config)
    requires Poised(g, s, c, st, held, lp, b, acts, OfExps(es)) && LegalArgs(g, es, st.fn, lp, b)
    requires Within(g, LowerArgs(g.cx, es, st).1)
    ensures MatchesArgs(g, EvalArgs(g.o, es, s, fuel), c, c', st, LowerArgs(g.cx, es, st).1, LowerArgs(g.cx, es, st).0,
                        acts, b, OfExps(es), lp)
    decreases fuel, es, 0
  {
    hide FunsOk, Reaches, WellFormed, Consistent, Declared, New, Grows, Moves, Extends, Ready, Effect, Rel, Matches, Fine,
         LowerTables.Good, Within, Lower, MatchesArgs;
    c' := c;
    if es.ENil? {
      NoArgs(g, s, c, st, acts, b, lp);
    } else {
      var e, rest := es.head, es.tail;
      var r := Eval(g.o, e, s, fuel);
      var s1 := Lower(g.cx, e, st);
      ArgsReady(g, es, st, held, lp, b);
      var c1 := Sim(g, e, s, fuel, st, held, lp, b, acts, c);
      c' := c1;
      if !r.Normal? {
        ArgsStop(g, r, c, c1, st, s1, LowerArgs(g.cx, es, st).1, LowerArgs(g.cx, es, st).0, acts, b, OfExp(e), OfExps(es), lp);
      } else {
        Resume(g, r, c, c1, st, s1, false, held, lp, b, acts, OfExp(e), OfExps(rest));
        c' := SimArgs(g, rest, r.s, fuel, s1, held, lp, b, acts, c1);
        ArgsCons(g, r, EvalArgs(g.o, rest, r.s, fuel), c, c1, c', st, s1, LowerArgs(g.cx, rest, s1).1, LowerArgs(g.cx, rest, s1).0,
                 acts, b, OfExp(e), OfExps(rest), lp);
      }
    }
  }

  // ----- calls: the return -----

  lemma {:induction false} SimInvoke(g: World, e: Exp, f: Symbol, d: FunctionDec, tail: Env, vs: seq<Int32.I32>, s: State, fuel: nat,
                                     c: Config, st: St, lifted: seq<Operand>, actuals: seq<Operand>, acts: Acts, b: Env,
                                     lp: Option<Id>) returns (c': Config)
    requires Calling(g, f, d, tail, vs, s, c, st, lifted, actuals, acts, b) && d.body.SomeExp? && fuel > 0
    ensures var ob := Eval(g.o, d.body.exp, State(BindFormals(d.formals, vs, tail), s.trace), fuel - 1);
      var r := if ob.Normal? then Normal(ob.value, State(Graft(s.env, f, PopN(ob.s.env, |d.formals|)), ob.s.trace))
               else if ob.Broke? then Undefined else ob;
      Matches(g, r, c, c', st, EmitCall(g.cx, st, d.id, lifted + actuals), d.id in g.cx.voids, acts, b, {}, lp)
    decreases fuel, e, 3
  {
    hide Ready, Legal, Lower, WellFormed, Consistent, Moves, Extends, Typed, Grows, Within, FunsOk, Reaches, Cells, Handed, Hold,
         Received, Frames, Effect, Eval, Rel, Calling, Matches;
    CalleeFacts(g, f, d, tail, vs, s, c, st, lifted, actuals, acts, b);
    var bt := Blank(tail);
    var sd: St, held: set<int> :| Compiled(g, d, bt, sd, held);
    CalleeReady(g, d, bt, sd, held);
    var s1 := Prologue(g.cx, d, Open(d, sd));
    var s2 := Lower(g.cx, d.body.exp, s1);
    var c4 := EnterCallee(g, f, d, tail, vs, s, c, st, lifted, actuals, acts, b, sd, held);
    var acts' := FormalActs(d.formals, c.next, acts);
    var c5 := Sim(g, d.body.exp, State(BindFormals(d.formals, vs, tail), s.trace), fuel - 1, s1, held, None,
                  Enter(d.formals, bt), acts', c4);
    var ob := Eval(g.o, d.body.exp, State(BindFormals(d.formals, vs, tail), s.trace), fuel - 1);
    c' := c5;
    if ob.Normal? {
      CalleeDistinct(g, d, bt, sd, held);
      c' := Leave(g, f, d, tail, vs, s, c, c4, c5, st, s1, s2, lifted, actuals, acts, b, ob, lp);
    } else {
      Nothing(g, if ob.Broke? then Undefined else ob, c, c', st, EmitCall(g.cx, st, d.id, lifted + actuals),
              d.id in g.cx.voids, acts, b, {}, lp);
    }
  }

  // ----- calls -----

  lemma {:induction false} SimCall(g: World, e: Exp, s: State, fuel: nat, st: St, held: set<int>, lp: Option<Id>, b: Env,
                                   acts: Acts, c: Config) returns (c': Config)
    requires e.CallExp?
    requires Poised(g, s, c, st, held, lp, b, acts, OfExp(e)) && Legal(g, e, st.fn, lp, b)
    requires Within(g, Lower(g.cx, e, st))
    ensures Matches(g, Eval(g.o, e, s, fuel), c, c', st, Lower(g.cx, e, st), Voids(g.cx, e), acts, b, OfExp(e), lp)
    decreases fuel, e, 4
  {
    hide Ready, Lower, WellFormed, Consistent, Moves, Extends, Grows, Within, FunsOk, Reaches, Cells, Handed, Hold, Frames, Effect,
         Rel, Calling, Matches, Legal, LowerArgs, EmitCall;
    var q := Link(g.cx, e.id);
    var lifted := LowerLifted(Lifted(g.cx, q), st).0;
    var (actuals, s2) := LowerArgs(g.cx, e.args, st);
    var ra := EvalArgs(g.o, e.args, s, fuel);
    CallReady(g, e, st, held, lp, b);
    c' := SimArgs(g, e.args, s, fuel, st, held, lp, b, acts, c);
    var st', void := Lower(g.cx, e, st), Voids(g.cx, e);
    if ra.Stop? {
      Escapes(g, ra.outcome, c, c', st, s2, st', true, void, acts, b, OfExps(e.args), OfExp(e), lp);
    } else {
      var c1, vs, s1 := c', ra.values, ra.s;
      CallFound(g, e, s1, st, s2, vs, lifted, actuals, acts, b, c, c1, lp);
      var d, tail := FindFun(s1.env, e.name).value.0, FindFun(s1.env, e.name).value.1;
      if d.body.NoExp? {
        c' := RunPrimitive(g, e.name, d, tail, vs, s1, c1, s2, lifted, actuals, acts, b, lp);
      } else if fuel > 0 {
        c' := SimInvoke(g, e, e.name, d, tail, vs, s1, fuel, c1, s2, lifted, actuals, acts, b, lp);
      } else {
        Nothing(g, OutOfFuel, c1, c', s2, st', void, acts, b, {}, lp);
      }
      CallDone(g, e, Eval(g.o, e, s, fuel), c, c1, c', st, s2, st', void, acts, b, lp);
    }
  }
}
