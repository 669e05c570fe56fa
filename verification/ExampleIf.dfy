/** An `if` whose branches are sequences with a value:
    `let var x := if 1 then (tick(); 7) else (tick(); 8) in print_int(x) end`.
    Its code prints 7. */
module ExampleIf {
  import opened Options
  import opened Ast
  import opened Nodes
  import opened Semantics
  import opened Cfg
  import opened Lowering
  import opened LowerShape
  import opened LowerTables
  import opened LowerReady
  import opened LowerMain
  import Int32

  const TICK := FunctionDec(Node(0), "tick", [], None, NoExp)
  const NUMBER := Formal(Node(2), "i", TypeName(Node(3), "int"))
  const SHOW := FunctionDec(Node(1), "print_int", [NUMBER], None, NoExp)
  const PRIMS := DCons(TICK, DCons(SHOW, DNil))
  const X := Node(4)
  const MAIN := Node(9)

  const SEVEN := ECons(CallExp(Node(5), "tick", ENil), ECons(IntExp(7), ENil))
  const EIGHT := ECons(CallExp(Node(6), "tick", ENil), ECons(IntExp(8), ENil))
  const CHOICE := IfExp(IntExp(1), SeqExp(SEVEN), SomeExp(SeqExp(EIGHT)))
  const USE := ECons(VarExp(Node(8), "x"), ENil)
  const PRINT := CallExp(Node(7), "print_int", USE)
  const BODY := LetExp(With(VarChunk(VarDec(X, "x", None, CHOICE)), In(PRINT)))
  const PROGRAM := FunctionDec(MAIN, "_main", [], None, SomeExp(BODY))

  const CX := Ctx(map[Node(5) := Node(0), Node(6) := Node(0), Node(7) := Node(1), Node(8) := X], map[], {Node(0), Node(1), MAIN}, MAIN)
  const INFO := Info(map[X := MAIN, Node(2) := Node(1)], map[Node(0) := 0, Node(1) := 1])
  const NAMES := map[Node(0) := "tick", Node(1) := "print_int"]

  function TheWorld(o: Oracle): World { World(CX, INFO, LinkedCode(CX, PRIMS, PROGRAM, NAMES), o) }

  const B := FunB(PRIMS, Empty)

  lemma ProgramIsLegal(o: Oracle)
    ensures LegalMain(TheWorld(o), PRIMS, PROGRAM)
  {
    hide Compile, Typed, TypedDecs, Distinct, Lifts, Lowerable, OfExp, Bodyless;
    TreeDistinct();
    TreeLifts();
    TreeTyped(o);
    TreeLowerable();
    PrimsTyped(o);
  }

  lemma TreeDistinct()
    ensures Distinct(BODY) && OfExp(BODY) == {Node(4), Node(5), Node(6), Node(7), Node(8)}
  {
    assert OfExps(ENil) == {} && OfExp(SEVEN.head) == {Node(5)} && OfExp(EIGHT.head) == {Node(6)} && OfExp(IntExp(7)) == OfExp(IntExp(8)) == {};
    assert OfExps(SEVEN.tail) == {} && OfExps(EIGHT.tail) == {} && OfExps(SEVEN) == {Node(5)} && OfExps(EIGHT) == {Node(6)};
    assert DistinctExps(ENil) && Distinct(SEVEN.head) && DistinctExps(SEVEN.tail) && DistinctExps(SEVEN);
    assert Distinct(EIGHT.head) && DistinctExps(EIGHT.tail) && DistinctExps(EIGHT);
    assert OfExp(SeqExp(SEVEN)) == {Node(5)} && OfExp(SeqExp(EIGHT)) == {Node(6)} && OfExp(IntExp(1)) == {} && Distinct(IntExp(1));
    assert Distinct(SeqExp(SEVEN)) && Distinct(SeqExp(EIGHT)) && Distinct(CHOICE) && OfExp(CHOICE) == {Node(5), Node(6)};
    assert OfExps(USE) == {Node(8)} && DistinctExps(USE) && OfExp(PRINT) == {Node(7), Node(8)} && Distinct(PRINT);
    assert OfScope(In(PRINT)) == {Node(7), Node(8)} && DistinctScope(In(PRINT));
  }

  lemma TreeLifts()
    ensures Lifts(CX, INFO, BODY, MAIN)
  {
    assert LiftsAll(CX, INFO, ENil, MAIN) && Lifts(CX, INFO, SEVEN.head, MAIN) && Lifts(CX, INFO, EIGHT.head, MAIN);
    assert Lifts(CX, INFO, IntExp(7), MAIN) && Lifts(CX, INFO, IntExp(8), MAIN) && Lifts(CX, INFO, IntExp(1), MAIN);
    assert LiftsAll(CX, INFO, SEVEN.tail, MAIN) && LiftsAll(CX, INFO, SEVEN, MAIN) && Lifts(CX, INFO, SeqExp(SEVEN), MAIN);
    assert LiftsAll(CX, INFO, EIGHT.tail, MAIN) && LiftsAll(CX, INFO, EIGHT, MAIN) && Lifts(CX, INFO, SeqExp(EIGHT), MAIN);
    assert Lifts(CX, INFO, CHOICE, MAIN) && Lifts(CX, INFO, USE.head, MAIN) && LiftsAll(CX, INFO, USE, MAIN);
    assert Length(USE) == 1 && Lifts(CX, INFO, PRINT, MAIN) && LiftsScope(CX, INFO, In(PRINT), MAIN);
  }

  lemma TreeLowerable()
    ensures Lowerable(CX, BODY, None)
  {
    assert LowerableAll(CX, ENil, None) && Lowerable(CX, SEVEN.head, None) && Lowerable(CX, EIGHT.head, None);
    assert Lowerable(CX, IntExp(7), None) && Lowerable(CX, IntExp(8), None) && Lowerable(CX, IntExp(1), None);
    assert LowerableAll(CX, SEVEN.tail, None) && LowerableAll(CX, SEVEN, None) && Lowerable(CX, SeqExp(SEVEN), None);
    assert LowerableAll(CX, EIGHT.tail, None) && LowerableAll(CX, EIGHT, None) && Lowerable(CX, SeqExp(EIGHT), None);
    assert Lowerable(CX, CHOICE, None) && Lowerable(CX, USE.head, None) && LowerableAll(CX, USE, None);
    assert Lowerable(CX, PRINT, None) && LowerableScope(CX, In(PRINT), None);
  }

  lemma PrimsTyped(o: Oracle)
    ensures TypedDecs(TheWorld(o), PRIMS, B) && Bodyless(PRIMS)
  {
    hide Compile;
    var g := TheWorld(o);
    assert TypedDecs(g, DNil, B) && TypedDec(g, SHOW, B) && TypedDecs(g, PRIMS.tail, B) && TypedDec(g, TICK, B);
    assert Bodyless(DNil) && Bodyless(PRIMS.tail);
  }

  lemma Functions(b: Env)
    requires b == B || b == VarB(X, "x", None, B) || b == VarB(X, "x", Some(0), B)
    ensures FindFun(b, "tick") == Some((TICK, B)) && FindFun(b, "print_int") == Some((SHOW, B))
  {
    assert "tick"[0] != "print_int"[0];
    assert FindDec(PRIMS, "tick") == Some(TICK);
    assert FindDec(PRIMS.tail, "print_int") == Some(SHOW) && FindDec(PRIMS, "print_int") == Some(SHOW);
    assert FindFun(B, "tick") == Some((TICK, B)) && FindFun(B, "print_int") == Some((SHOW, B));
  }

  lemma TreeTyped(o: Oracle)
    ensures Typed(TheWorld(o), BODY, B)
  {
    hide Compile, FindFun;
    var g, b, b0 := TheWorld(o), VarB(X, "x", Some(0), B), VarB(X, "x", None, B);
    Functions(b);
    Functions(b0);
    ChoiceTyped(o);
    assert FindVar(b, "x") == Some(Some(0)) && VarId(b, "x") == Some(X);
    assert Typed(g, USE.head, b) && !Voids(CX, USE.head) && ValuesAll(g, ENil, b) && ValuesAll(g, USE, b) && Length(USE) == 1;
    assert Typed(g, PRINT, b) && TypedScope(g, In(PRINT), b);
  }

  lemma ChoiceTyped(o: Oracle)
    ensures Typed(TheWorld(o), CHOICE, VarB(X, "x", None, B)) && !Voids(CX, CHOICE)
  {
    hide Compile, FindFun;
    var g, b := TheWorld(o), VarB(X, "x", None, B);
    Functions(b);
    assert ValuesAll(g, ENil, b) && Length(ENil) == 0 && Typed(g, SEVEN.head, b) && Typed(g, EIGHT.head, b);
    assert Typed(g, IntExp(7), b) && Typed(g, IntExp(8), b) && Typed(g, IntExp(1), b) && TypedAll(g, ENil, b);
    assert TypedAll(g, SEVEN.tail, b) && TypedAll(g, SEVEN, b) && Typed(g, SeqExp(SEVEN), b);
    assert TypedAll(g, EIGHT.tail, b) && TypedAll(g, EIGHT, b) && Typed(g, SeqExp(EIGHT), b);
    assert VoidsLast(CX, SEVEN) == VoidsLast(CX, SEVEN.tail) == Voids(CX, IntExp(7)) == false;
    assert VoidsLast(CX, EIGHT) == VoidsLast(CX, EIGHT.tail) == Voids(CX, IntExp(8)) == false;
    assert !Voids(CX, SeqExp(SEVEN)) && !Voids(CX, SeqExp(EIGHT)) && !Voids(CX, IntExp(1));
  }

  // ----- what it prints -----

  const TICKED := [Event("tick", [])]
  const PRINTED := TICKED + [Event("print_int", [7])]

  /** A tick and then a number. */
  lemma TickThen(o: Oracle, id: Id, n: Int32.I32)
    ensures var es := ECons(CallExp(id, "tick", ENil), ECons(IntExp(n), ENil)); var env := VarB(X, "x", None, B);
      Eval(o, SeqExp(es), State(env, []), 0) == Normal(n, State(env, TICKED))
  {
    var rest := ECons(IntExp(n), ENil);
    var es, env := ECons(CallExp(id, "tick", ENil), rest), VarB(X, "x", None, B);
    Functions(env);
    assert EvalArgs(o, ENil, State(env, []), 0) == ArgsOutcome.Values([], State(env, []));
    assert [] + [Event("tick", [])] == TICKED;
    var r := Eval(o, es.head, State(env, []), 0);
    assert r == Normal(Int32.Wrap(o(TICKED)), State(env, TICKED));
    assert EvalSeq(o, ENil, n, State(env, TICKED), 0) == Normal(n, State(env, TICKED));
    assert EvalSeq(o, rest, r.value, State(env, TICKED), 0) == Normal(n, State(env, TICKED));
    assert EvalSeq(o, es, 0, State(env, []), 0) == Normal(n, State(env, TICKED));
  }

  lemma ProgramPrints(o: Oracle)
    ensures Eval(o, BODY, State(B, []), 0) == Normal(Int32.Wrap(o(PRINTED)), State(B, PRINTED))
  {
    var env, env' := VarB(X, "x", None, B), VarB(X, "x", Some(7), B);
    TickThen(o, Node(5), 7);
    assert Eval(o, IntExp(1), State(env, []), 0) == Normal(1, State(env, []));
    assert Eval(o, CHOICE, State(env, []), 0) == Normal(7, State(env, TICKED));
    assert SetTop(State(env, TICKED), 7) == State(env', TICKED);
    PrintSeven(o);
    assert EvalScope(o, In(PRINT), State(env', TICKED), 0) == Eval(o, PRINT, State(env', TICKED), 0);
  }

  lemma PrintSeven(o: Oracle)
    ensures var env := VarB(X, "x", Some(7), B);
      Eval(o, PRINT, State(env, TICKED), 0) == Normal(Int32.Wrap(o(PRINTED)), State(env, PRINTED))
  {
    var env := VarB(X, "x", Some(7), B);
    assert FindVar(env, "x") == Some(Some(7));
    assert Eval(o, USE.head, State(env, TICKED), 0) == Normal(7, State(env, TICKED));
    assert EvalArgs(o, ENil, State(env, TICKED), 0) == ArgsOutcome.Values([], State(env, TICKED));
    assert [7] + [] == [7];
    assert EvalArgs(o, USE, State(env, TICKED), 0) == ArgsOutcome.Values([7], State(env, TICKED));
    assert FindDec(PRIMS.tail, "print_int") == Some(SHOW) && FindDec(PRIMS, "print_int") == Some(SHOW) by { assert "tick"[0] != "print_int"[0]; }
    assert FindFun(B, "print_int") == Some((SHOW, B)) && FindFun(env, "print_int") == Some((SHOW, B));
  }

  /** The code ends after a tick and the printing of 7, the value that came out of the phi. */
  lemma CodePrintsSeven(o: Oracle, args: seq<Val>)
    ensures Ends(LinkedCode(CX, PRIMS, PROGRAM, NAMES), o, Launch(args, MAIN), VInt(0), [Event("tick", []), Event("print_int", [7])])
  {
    ProgramIsLegal(o);
    ProgramPrints(o);
    hide LinkedCode, LegalMain, Eval, Ends;
    CompiledCorrectly(CX, INFO, PRIMS, PROGRAM, NAMES, o, args, 0);
    assert PRINTED == [Event("tick", []), Event("print_int", [7])];
  }
}
