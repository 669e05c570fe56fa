/** A program that meets all the conditions of the translation theorem, so that it speaks of
    something: `let var x := 1 function bump() = x := x + 1 in bump(); x end`, whose function
    changes a variable lifted to it. */
module Example {
  import opened Options
  import opened Ast
  import opened Nodes
  import opened Semantics
  import opened Cfg
  import opened Lowering
  import opened LowerShape
  import opened LowerTables
  import opened LowerReady
  import opened LowerMain
  import opened Pipeline
  import opened Binder
  import opened Binding
  import opened Renaming
  import opened Rebinding
  import opened RenameBind
  import opened RenameSim
  import ReadOnly
  import D = Desugaring
  import DesugarBind

  const X := Node(0)
  const BUMP := Node(1)
  const MAIN := Node(6)

  const STEP := OpExp(VarExp(Node(3), "x"), Add, IntExp(1))
  const CHANGE := AssignExp(Node(2), "x", STEP)
  const BUMPS := DCons(FunctionDec(BUMP, "bump", [], None, SomeExp(CHANGE)), DNil)
  const USES := ECons(CallExp(Node(4), "bump", ENil), ECons(VarExp(Node(5), "x"), ENil))
  const TAIL := With(FunctionChunk(BUMPS), In(SeqExp(USES)))
  const BODY := LetExp(With(VarChunk(VarDec(X, "x", None, IntExp(1))), TAIL))
  const PROGRAM := FunctionDec(MAIN, "_main", [], None, SomeExp(BODY))

  const CX := Ctx(map[Node(2) := X, Node(3) := X, Node(4) := BUMP, Node(5) := X], map[BUMP := [X], MAIN := [X]], {BUMP, MAIN}, MAIN)
  const INFO := Info(map[X := MAIN], map[BUMP := 0])

  function TheWorld(o: Oracle): World { World(CX, INFO, LinkedCode(CX, DNil, PROGRAM, map[]), o) }

  lemma ProgramIsLegal(o: Oracle)
    ensures LegalMain(TheWorld(o), DNil, PROGRAM)
  {
    hide Compile, Typed, Distinct, Lifts, OfExp, Lowerable;
    TreeDistinct();
    TreeLifts();
    TreeTyped(o);
    TreeLowerable();
    assert MAIN !in OfExp(BODY);
  }

  lemma TreeDistinct()
    ensures Distinct(BODY) && OfExp(BODY) == {X, BUMP, Node(2), Node(3), Node(4), Node(5)}
  {
    assert OfExp(STEP) == {Node(3)} && OfExp(CHANGE) == {Node(2), Node(3)} && Distinct(CHANGE);
    assert OfDecs(DNil) == {} && OfDecs(BUMPS) == {BUMP, Node(2), Node(3)} && DistinctDecs(BUMPS);
    assert OfExps(USES.tail) == {Node(5)} && OfExps(USES) == {Node(4), Node(5)} && DistinctExps(USES);
    assert OfScope(In(SeqExp(USES))) == {Node(4), Node(5)} && DistinctScope(In(SeqExp(USES)));
    assert OfScope(TAIL) == {BUMP, Node(2), Node(3), Node(4), Node(5)} && DistinctScope(TAIL);
  }

  lemma TreeLifts()
    ensures Lifts(CX, INFO, BODY, MAIN)
  {
    assert Lifts(CX, INFO, STEP.left, BUMP) && Lifts(CX, INFO, STEP.right, BUMP) && Lifts(CX, INFO, STEP, BUMP);
    assert Lifts(CX, INFO, CHANGE, BUMP);
    assert LiftsDecs(CX, INFO, DNil) && LiftsDec(CX, INFO, BUMPS.head) && LiftsDecs(CX, INFO, BUMPS);
    assert LiftsAll(CX, INFO, ENil, MAIN) && Lifts(CX, INFO, USES.tail.head, MAIN) && LiftsAll(CX, INFO, USES.tail, MAIN);
    assert Lifts(CX, INFO, USES.head, MAIN) && LiftsAll(CX, INFO, USES, MAIN);
    assert LiftsScope(CX, INFO, In(SeqExp(USES)), MAIN) && LiftsScope(CX, INFO, TAIL, MAIN);
  }

  lemma TreeLowerable()
    ensures Lowerable(CX, BODY, None)
  {
    assert Lowerable(CX, CHANGE, None) && LowerableDecs(CX, BUMPS);
    assert LowerableAll(CX, ENil, None) && Lowerable(CX, USES.tail.head, None) && LowerableAll(CX, USES.tail, None);
    assert Lowerable(CX, USES.head, None) && LowerableAll(CX, USES, None);
    assert LowerableScope(CX, In(SeqExp(USES)), None) && LowerableScope(CX, TAIL, None);
  }

  lemma TreeTyped(o: Oracle)
    ensures Typed(TheWorld(o), BODY, FunB(DNil, Empty))
  {
    hide Compile;
    var g := TheWorld(o);
    var b := VarB(X, "x", Some(0), FunB(DNil, Empty));
    var b1 := FunB(BUMPS, b);
    assert Typed(g, STEP, b1) && Typed(g, CHANGE, b1);
    assert TypedDecs(g, BUMPS, b1);
    assert FindVar(b1, "x") == FindVar(b, "x") == Some(Some(0)) && VarId(b1, "x") == VarId(b, "x") == Some(X);
    assert Typed(g, VarExp(Node(5), "x"), b1) && TypedAll(g, ENil, b1) && TypedAll(g, USES.tail, b1);
    assert FindFun(b1, "bump").value.0.id == BUMP && ValuesAll(g, ENil, b1) && Typed(g, USES.head, b1) && TypedAll(g, USES, b1);
    assert Typed(g, SeqExp(USES), b1) && TypedScope(g, In(SeqExp(USES)), b1) && TypedScope(g, TAIL, b);
    assert Typed(g, IntExp(1), VarB(X, "x", None, FunB(DNil, Empty))) && !Voids(CX, IntExp(1));
  }

  // ----- a loop -----

  /** `for i := 0 to 3 do ()`, whatever its index is called. */
  function Loop(i: Symbol): Exp { ForExp(Node(0), VarDec(Node(1), i, None, IntExp(0)), IntExp(3), SeqExp(ENil)) }
  function Count(i: Symbol): FunctionDec { FunctionDec(MAIN, "_main", [], None, SomeExp(Loop(i))) }

  function F(k: nat): Id { Fresh(Node(0), k) }

  const LINKS := map[F(2) := F(0), F(3) := Node(1), F(4) := F(1), F(5) := Node(1), F(6) := F(1), F(7) := Node(0),
                     F(8) := Node(1), F(9) := Node(1)]
  const CX2 := Ctx(LINKS, map[MAIN := []], {MAIN}, MAIN)
  const INFO2 := Info(map[F(0) := MAIN, F(1) := MAIN, Node(1) := MAIN], map[])

  function Inside(i: Symbol): Exp { SeqExp(ECons(D.Guard(Node(0), i, SeqExp(ENil)), ENil)) }
  function Inner(i: Symbol): Scope { With(VarChunk(VarDec(Node(1), i, None, VarExp(F(2), D.LO))), In(Inside(i))) }
  function Middle(i: Symbol): Scope { With(VarChunk(VarDec(F(1), D.HI, None, IntExp(3))), Inner(i)) }

  const B0 := VarB(F(0), D.LO, Some(0), FunB(DNil, Empty))
  const B1 := VarB(F(1), D.HI, Some(0), B0)
  function B2(i: Symbol): Env { VarB(Node(1), i, Some(0), B1) }

  function LoopWorld(o: Oracle, i: Symbol): World { World(CX2, INFO2, LinkedCode(CX2, DNil, WithoutFor(Count(i)), map[]), o) }

  /** The desugared loop meets the conditions as well. */
  lemma LoopIsLegal(o: Oracle, i: Symbol)
    requires i !in {D.LO, D.HI}
    ensures LegalMain(LoopWorld(o, i), DNil, WithoutFor(Count(i)))
  {
    hide Compile, Typed, Distinct, Lifts, Lowerable, D.Desugar;
    LoopForm(i);
    LoopDistinct(i);
    LoopLifts(i);
    LoopTyped(o, i);
    LoopLowerable(i);
  }

  lemma LoopForm(i: Symbol)
    ensures D.Desugar(Loop(i)) == LetExp(With(VarChunk(VarDec(F(0), D.LO, None, IntExp(0))), Middle(i)))
  {
    assert D.Desugar(SeqExp(ENil)) == SeqExp(ENil) && D.Desugar(IntExp(0)) == IntExp(0) && D.Desugar(IntExp(3)) == IntExp(3);
  }

  lemma LoopDistinct(i: Symbol)
    ensures Distinct(Loop(i)) && OfExp(Loop(i)) == {Node(0), Node(1)} && Distinct(D.Desugar(Loop(i))) && MAIN !in OfExp(D.Desugar(Loop(i)))
  {
    assert OfExp(IntExp(0)) == {} && OfExp(IntExp(3)) == {} && OfExp(SeqExp(ENil)) == {} && Distinct(SeqExp(ENil));
    assert Distinct(IntExp(0)) && Distinct(IntExp(3)) && OfVarDec(Loop(i).index) == {Node(1)} && DistinctVarDec(Loop(i).index);
    assert OfExp(Loop(i)) == {Node(0), Node(1)} && Distinct(Loop(i));
    DesugarBind.DistinctDesugar(Loop(i));
  }

  lemma LoopLinks()
    ensures Link(CX2, F(2)) == F(0) && Link(CX2, F(4)) == Link(CX2, F(6)) == F(1) && Link(CX2, F(7)) == Node(0)
    ensures Link(CX2, F(3)) == Link(CX2, F(5)) == Link(CX2, F(8)) == Link(CX2, F(9)) == Node(1)
    ensures Owner(INFO2, F(0)) == Owner(INFO2, F(1)) == Owner(INFO2, Node(1)) == MAIN
  {}

  lemma LoopLifts(i: Symbol)
    ensures Lifts(CX2, INFO2, D.Desugar(Loop(i)), MAIN)
  {
    hide Link, Owner;
    LoopForm(i);
    LoopLinks();
    var leave, next := D.Leave(Node(0), i), D.Advance(Node(0), i);
    var body, test := SeqExp(ECons(SeqExp(ENil), ECons(leave, ECons(next, ENil)))), D.Guard(Node(0), i, SeqExp(ENil)).test;
    var t, e := OpExp(VarExp(F(5), i), Eq, VarExp(F(6), D.HI)), BreakExp(F(7));
    assert leave == IfExp(t, e, NoExp) && test == OpExp(VarExp(F(3), i), Le, VarExp(F(4), D.HI));
    assert Lifts(CX2, INFO2, t.left, MAIN) && Lifts(CX2, INFO2, t.right, MAIN) && Lifts(CX2, INFO2, t, MAIN) && Lifts(CX2, INFO2, e, MAIN);
    assert Lifts(CX2, INFO2, test.left, MAIN) && Lifts(CX2, INFO2, test.right, MAIN) && Lifts(CX2, INFO2, test, MAIN);
    assert Lifts(CX2, INFO2, next.exp.left, MAIN) && Lifts(CX2, INFO2, next.exp.right, MAIN) && Lifts(CX2, INFO2, next.exp, MAIN);
    assert Lifts(CX2, INFO2, leave, MAIN) && Lifts(CX2, INFO2, next, MAIN) && LiftsAll(CX2, INFO2, ENil, MAIN);
    assert LiftsAll(CX2, INFO2, ECons(next, ENil), MAIN) && LiftsAll(CX2, INFO2, ECons(leave, ECons(next, ENil)), MAIN);
    assert Lifts(CX2, INFO2, SeqExp(ENil), MAIN) && LiftsAll(CX2, INFO2, body.exps, MAIN) && Lifts(CX2, INFO2, body, MAIN);
    assert Lifts(CX2, INFO2, IntExp(1), MAIN) && Lifts(CX2, INFO2, D.Loop(Node(0), i, SeqExp(ENil)), MAIN);
    assert Lifts(CX2, INFO2, D.Guard(Node(0), i, SeqExp(ENil)), MAIN) && LiftsAll(CX2, INFO2, Inside(i).exps, MAIN) && Lifts(CX2, INFO2, Inside(i), MAIN);
    assert LiftsScope(CX2, INFO2, In(Inside(i)), MAIN) && Lifts(CX2, INFO2, VarExp(F(2), D.LO), MAIN) && LiftsScope(CX2, INFO2, Inner(i), MAIN);
    assert Lifts(CX2, INFO2, IntExp(3), MAIN) && LiftsScope(CX2, INFO2, Middle(i), MAIN) && Lifts(CX2, INFO2, IntExp(0), MAIN);
  }

  lemma LoopLowerable(i: Symbol)
    ensures Lowerable(CX2, D.Desugar(Loop(i)), None)
  {
    LoopForm(i);
    var lp, leave, next := Some(Node(0)), D.Leave(Node(0), i), D.Advance(Node(0), i);
    var body, test := SeqExp(ECons(SeqExp(ENil), ECons(leave, ECons(next, ENil)))), D.Guard(Node(0), i, SeqExp(ENil)).test;
    var t, e := OpExp(VarExp(F(5), i), Eq, VarExp(F(6), D.HI)), BreakExp(F(7));
    assert leave == IfExp(t, e, NoExp) && Lowerable(CX2, t.left, lp) && Lowerable(CX2, t.right, lp) && Lowerable(CX2, t, lp);
    assert Lowerable(CX2, e, lp) && Lowerable(CX2, test.left, None) && Lowerable(CX2, test.right, None) && Lowerable(CX2, test, None);
    assert Lowerable(CX2, leave, lp) && Lowerable(CX2, next, lp) && LowerableAll(CX2, ENil, lp) && LowerableAll(CX2, ENil, None);
    assert LowerableAll(CX2, ECons(next, ENil), lp) && LowerableAll(CX2, ECons(leave, ECons(next, ENil)), lp);
    assert Lowerable(CX2, SeqExp(ENil), lp) && LowerableAll(CX2, body.exps, lp) && Lowerable(CX2, body, lp);
    assert Lowerable(CX2, IntExp(1), lp) && Lowerable(CX2, D.Loop(Node(0), i, SeqExp(ENil)), None);
    assert Lowerable(CX2, D.Guard(Node(0), i, SeqExp(ENil)), None) && LowerableAll(CX2, Inside(i).exps, None) && Lowerable(CX2, Inside(i), None);
    assert LowerableScope(CX2, In(Inside(i)), None) && LowerableScope(CX2, Inner(i), None) && LowerableScope(CX2, Middle(i), None);
  }

  /** What each name denotes in the loop. */
  lemma LoopNames(i: Symbol)
    requires i !in {D.LO, D.HI}
    ensures FindVar(B2(i), i) == FindVar(B2(i), D.HI) == FindVar(B1, D.LO) == Some(Some(0))
    ensures VarId(B2(i), i) == Some(Node(1)) && VarId(B2(i), D.HI) == Some(F(1)) && VarId(B1, D.LO) == Some(F(0))
    ensures var b := VarB(Node(1), i, None, B1); FindVar(b, D.LO) == FindVar(B1, D.LO) && VarId(b, D.LO) == VarId(B1, D.LO)
  {
    assert FindVar(B0, D.LO) == Some(Some(0)) && VarId(B0, D.LO) == Some(F(0));
    assert FindVar(B1, D.HI) == Some(Some(0)) && VarId(B1, D.HI) == Some(F(1));
    assert D.LO[1] != D.HI[1] && i != D.HI;
    assert FindVar(VarB(Node(1), i, None, B1), D.LO) == FindVar(B1, D.LO) by { assert i != D.LO; }
  }

  lemma LeaveTyped(o: Oracle, i: Symbol)
    requires i !in {D.LO, D.HI}
    ensures Typed(LoopWorld(o, i), D.Leave(Node(0), i), B2(i))
  {
    hide Compile, FindVar, VarId, Link;
    LoopLinks();
    LoopNames(i);
    var g, t, e := LoopWorld(o, i), OpExp(VarExp(F(5), i), Eq, VarExp(F(6), D.HI)), BreakExp(F(7));
    assert Typed(g, t.left, B2(i)) && Typed(g, t.right, B2(i)) && Typed(g, t, B2(i)) && !Voids(CX2, t) && Typed(g, e, B2(i)) && Voids(CX2, e);
    assert D.Leave(Node(0), i) == IfExp(t, e, NoExp);
  }

  lemma LoopBodyTyped(o: Oracle, i: Symbol)
    requires i !in {D.LO, D.HI}
    ensures Typed(LoopWorld(o, i), D.Loop(Node(0), i, SeqExp(ENil)), B2(i))
  {
    hide Compile, FindVar, VarId, Link;
    LoopLinks();
    LoopNames(i);
    var g, leave, next := LoopWorld(o, i), D.Leave(Node(0), i), D.Advance(Node(0), i);
    var body := SeqExp(ECons(SeqExp(ENil), ECons(leave, ECons(next, ENil))));
    LeaveTyped(o, i);
    assert Typed(g, IntExp(1), B2(i)) && !Voids(CX2, IntExp(1)) && Typed(g, next.exp.left, B2(i)) && Typed(g, next.exp, B2(i));
    assert !Voids(CX2, next.exp) && Typed(g, next, B2(i)) && TypedAll(g, ENil, B2(i)) && TypedAll(g, ECons(next, ENil), B2(i));
    assert TypedAll(g, ECons(leave, ECons(next, ENil)), B2(i)) && Typed(g, SeqExp(ENil), B2(i)) && TypedAll(g, body.exps, B2(i));
    assert Typed(g, body, B2(i));
  }

  lemma LoopTyped(o: Oracle, i: Symbol)
    requires i !in {D.LO, D.HI}
    ensures Typed(LoopWorld(o, i), D.Desugar(Loop(i)), FunB(DNil, Empty))
  {
    hide Compile, FindVar, VarId, Link;
    LoopForm(i);
    LoopLinks();
    LoopNames(i);
    LoopBodyTyped(o, i);
    var g, guard := LoopWorld(o, i), D.Guard(Node(0), i, SeqExp(ENil));
    assert Typed(g, guard.test, B2(i)) && !Voids(CX2, guard.test) && Voids(CX2, guard.thn);
    assert Typed(g, guard, B2(i)) && TypedAll(g, ENil, B2(i)) && TypedAll(g, Inside(i).exps, B2(i)) && Typed(g, Inside(i), B2(i)) && TypedScope(g, In(Inside(i)), B2(i));
    assert Typed(g, VarExp(F(2), D.LO), VarB(Node(1), i, None, B1)) && !Voids(CX2, VarExp(F(2), D.LO)) && TypedScope(g, Inner(i), B1);
    assert Typed(g, IntExp(3), VarB(F(1), D.HI, None, B0)) && !Voids(CX2, IntExp(3)) && TypedScope(g, Middle(i), B0);
    assert Typed(g, IntExp(0), VarB(F(0), D.LO, None, FunB(DNil, Empty))) && !Voids(CX2, IntExp(0));
  }

  // ----- the whole way -----

  const AT_START := Renamed(map[], map[], 0)

  lemma LoopRenamed(i: Symbol)
    ensures Rename(Whole(DNil, Count(i)), map[], AT_START) == Renamed(map[Node(1) := NewName(i, 0)], map[], 1)
  {
    var r, d := Declare(Node(1), i, AT_START), Loop(i).index;
    assert r.decs == map[Node(1) := NewName(i, 0)];
    assert Rename(IntExp(0), map[], r) == r && Rename(IntExp(3), map[], r) == r && Rename(SeqExp(ENil), map[], r) == RenameAll(ENil, map[], r) == r;
    assert RenameVarDec(d, map[], AT_START) == r;
    assert Rename(Loop(i), map[], AT_START) == r;
    assert RenameDecs(DNil, map[], AT_START) == AT_START;
    assert RenameScope(In(Loop(i)), map[], AT_START) == r;
  }

  lemma LoopEvents(i: Symbol)
    ensures Events(Whole(DNil, Count(i))) == [Again(0), Decl(Node(1), i)]
  {
    assert Events(IntExp(0)) == Events(IntExp(3)) == [] && Events(SeqExp(ENil)) == EventsAll(ENil) == [];
    assert EventsVarDec(Loop(i).index) == [Decl(Node(1), i)];
    assert Events(Loop(i)) == [Decl(Node(1), i)] && EventsDecs(DNil) == [] && Repeats(DNil, {}) == 0;
    assert EventsScope(In(Loop(i))) == [Decl(Node(1), i)];
  }

  lemma LoopRenamable(i: Symbol)
    ensures Renamable(Whole(DNil, Count(i)), map[])
  {
    var e, vs := Whole(DNil, Count(i)), Events(Whole(DNil, Count(i)));
    LoopEvents(i);
    WholeDistinct(i);
    LoopLinked(i);
    assert vs[1..] == [Decl(Node(1), i)] && vs[1..][1..] == [];
    assert Backward([], map[], {Node(1)}, DeclIds(vs));
    assert Backward(vs, map[], {}, DeclIds(vs));
  }

  lemma WholeDistinct(i: Symbol)
    ensures Distinct(Whole(DNil, Count(i)))
  {
    hide D.Desugar;
    LoopDistinct(i);
    assert OfScope(In(Loop(i))) == {Node(0), Node(1)} && DistinctScope(In(Loop(i)));
    assert OfDecs(DNil) == {} && DistinctDecs(DNil) && DistinctScope(With(FunctionChunk(DNil), In(Loop(i))));
  }

  lemma LoopLinked(i: Symbol)
    ensures Linked(Whole(DNil, Count(i)), CLOSED, map[])
  {
    var n := PutVar(CLOSED.(loop := Some(Node(0))), i, Node(1));
    assert Linked(IntExp(0), n, map[]) && Linked(IntExp(3), n, map[]) && AllLinked(ENil, n, map[]) && Linked(SeqExp(ENil), n, map[]);
    assert Linked(Loop(i), CLOSED, map[]) && ScopeLinked(In(Loop(i)), CLOSED, map[]) && DecsLinked(DNil, CLOSED, map[]);
  }

  /** A program with a `for` meets all the conditions of the way from source to code. */
  lemma LoopIsCompilable(o: Oracle, i: Symbol)
    ensures Compilable(CX2, INFO2, DNil, Count(i), map[], map[], o)
  {
    var j, r := NewName(i, 0), Renamed(map[Node(1) := NewName(i, 0)], map[], 1);
    LoopRenamed(i);
    LoopRenamable(i);
    NewNameUnlike(i, 0);
    LoopApplied(i);
    LoopPasses(j);
    LoopIsLegal(o, j);
    assert FinalPrims(DNil, Count(i), map[]) == DNil;
    assert Final(DNil, Count(i), map[]) == WithoutFor(Count(j));
  }

  lemma LoopApplied(i: Symbol)
    ensures var r := Renamed(map[Node(1) := NewName(i, 0)], map[], 1);
      Apply(Loop(i), r) == Loop(NewName(i, 0)) && Apply(Whole(DNil, Count(i)), r) == Whole(DNil, Count(NewName(i, 0)))
  {
    var r := Renamed(map[Node(1) := NewName(i, 0)], map[], 1);
    assert Apply(IntExp(0), r) == IntExp(0) && Apply(IntExp(3), r) == IntExp(3) && Apply(SeqExp(ENil), r) == SeqExp(ENil);
    assert ApplyVarDec(Loop(i).index, r) == Loop(NewName(i, 0)).index;
    assert ApplyDecs(DNil, r) == DNil && ApplyScope(In(Loop(i)), r) == In(Loop(NewName(i, 0)));
  }

  lemma LoopPasses(j: Symbol)
    ensures var e := Whole(DNil, Count(j)); D.Every(D.BOUNDS, e) && ReadOnly.Accepts(e, ReadOnly.MEmpty)
  {
    var d := Loop(j).index;
    assert D.Free(IntExp(0)) == {} && D.Free(IntExp(3)) == {};
    assert D.Passes(D.OwnIndex, d, IntExp(3), SeqExp(ENil)) && D.Passes(D.NoBreak, d, IntExp(3), SeqExp(ENil));
    assert D.Every(D.BOUNDS, IntExp(0)) && D.Every(D.BOUNDS, IntExp(3)) && D.EveryAll(D.BOUNDS, ENil) && D.Every(D.BOUNDS, SeqExp(ENil));
    assert D.Every(D.BOUNDS, Loop(j)) && D.EveryScope(D.BOUNDS, In(Loop(j))) && D.EveryDecs(D.BOUNDS, DNil);
    LoopAccepted(j);
  }

  lemma LoopAccepted(j: Symbol)
    ensures ReadOnly.Accepts(Whole(DNil, Count(j)), ReadOnly.MEmpty)
  {
    var m := ReadOnly.MFun(DNil, ReadOnly.MEmpty);
    var a, b := ReadOnly.MVar(Node(1), j, false, m), ReadOnly.MVar(Node(1), j, true, m);
    assert ReadOnly.Accepts(IntExp(0), a) && ReadOnly.Accepts(IntExp(3), a) && ReadOnly.AcceptsAll(ENil, b) && ReadOnly.Accepts(SeqExp(ENil), b);
    assert ReadOnly.Accepts(Loop(j), m) && ReadOnly.AcceptsScope(In(Loop(j)), m) && ReadOnly.AcceptsDecs(DNil, m);
  }
}
