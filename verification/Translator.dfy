/** The translator: it walks the tree and updates the builder, the current function and its tables
    in place.  What it leaves behind is what `Lowering` defines from what it found. */
module Translation {
  import opened Options
  import opened Ast
  import opened Cfg
  import opened Lowering
  import Int32

  class Translator {
    const cx: Ctx
    // The builder: the blocks created so far, the insertion point, the next register.
    var blocks: seq<Block>
    var insertPoint: nat
    var registers: nat
    // The translation of the last node, the function being translated, and the tables.
    var value: Operand
    var currentFunction: Id
    var locals: Locals
    var loopEnd: map<Id, nat>
    var protos: seq<Proto>
    var entries: map<Id, nat>

    /** A module with the entry block of `_main`, where the insertion point is. */
    constructor (cx: Ctx)
      ensures this.cx == cx
      ensures Now() == St([Block(cx.main, [])], 0, 0, NoValue, cx.main, map[], map[], [], map[cx.main := 0])
    {
      this.cx := cx;
      blocks, insertPoint, registers := [Block(cx.main, [])], 0, 0;
      value, currentFunction := NoValue, cx.main;
      locals, loopEnd, protos, entries := map[], map[], [], map[cx.main := 0];
    }

    ghost function Now(): St
      reads this
    {
      St(blocks, insertPoint, registers, value, currentFunction, locals, loopEnd, protos, entries)
    }

    // ----- the builder -----

    method Create(i: Instr)
      modifies this`blocks
      ensures Now() == Emit(old(Now()), i) && |blocks| == |old(blocks)|
    {
      if insertPoint < |blocks| {
        var b := blocks[insertPoint];
        blocks := blocks[insertPoint := b.(instrs := b.instrs + [i])];
      }
    }

    /** An instruction with a result. */
    method CreateValue(i: Instr)
      modifies this`blocks, this`value, this`registers
      ensures Now() == EmitTo(old(Now()), i) && |blocks| == |old(blocks)|
      ensures value == Reg(old(registers)) && registers == old(registers) + 1
    {
      Create(i);
      value := Reg(registers);
      registers := registers + 1;
    }

    method CreateBlock() returns (b: nat)
      modifies this`blocks
      ensures Now() == NewBlock(old(Now())) && b == |old(blocks)| && |blocks| == b + 1
    {
      b := |blocks|;
      blocks := blocks + [Block(currentFunction, [])];
    }

    /** `locals_[f][d] = a`. */
    method SetLocal(f: Id, d: Id, a: Operand)
      modifies this`locals
      ensures Now() == Bind(old(Now()), f, d, a)
    {
      var now := if f in locals then locals[f] else map[];
      locals := locals[f := now[d := a]];
    }

    /** The current function's access to d, or that of the first function that has one. */
    method Access(d: Id) returns (a: Operand)
      ensures a == AccessVar(Now(), d)
    {
      var own := Local(locals, currentFunction, d);
      if own.Some? { return own.value; }
      a := NoValue;
      var k := 0;
      while k < |protos|
        invariant k <= |protos|
        invariant Elsewhere(Now(), protos, d) == Elsewhere(Now(), protos[k..], d)
      {
        var other := Local(locals, protos[k].fn, d);
        if other.Some? { return other.value; }
        k := k + 1;
      }
    }

    // ----- expressions -----

    method Translate(e: Exp) returns (v: Operand)
      modifies this
      ensures Now() == Lower(cx, e, old(Now())) && v == value
      ensures currentFunction == old(currentFunction)
      decreases e, 2
    {
      hide LowerSeq, LowerIf, LowerWhile, LowerScope, LowerArgs, LowerLifted, AccessVar;
      match e {
        case IntExp(n) => value := Imm(Int32.Wrap(n));
        case VarExp(id, _) =>
          var ptr := Access(Link(cx, id));
          CreateValue(Load(registers, ptr));
        case OpExp(_, _, _) => VisitOp(e);
        case SeqExp(es) => VisitSeq(es);
        case AssignExp(_, _, _) => VisitAssign(e);
        case IfExp(_, _, _) => VisitIf(e);
        case WhileExp(_, _, _) => VisitWhile(e);
        case ForExp(_, _, _, _) =>
        case BreakExp(id) =>
          if Link(cx, id) in loopEnd {
            Create(Br(loopEnd[Link(cx, id)]));
            insertPoint := CreateBlock();
            value := ZERO;
          }
        case CallExp(id, _, args) => VisitCall(Link(cx, id), args);
        case LetExp(sc) => VisitScope(sc);
      }
      v := value;
    }

    method VisitOp(e: Exp)
      requires e.OpExp?
      modifies this
      ensures Now() == Lower(cx, e, old(Now()))
      ensures currentFunction == old(currentFunction)
      decreases e, 1
    {
      var left := Translate(e.left);
      var right := Translate(e.right);
      CreateValue(Arith(registers, e.oper, left, right));
      if !(e.oper.Add? || e.oper.Sub? || e.oper.Mul? || e.oper.Div?) { CreateValue(ZExt(registers, value)); }
    }

    method VisitAssign(e: Exp)
      requires e.AssignExp?
      modifies this
      ensures Now() == Lower(cx, e, old(Now()))
      ensures currentFunction == old(currentFunction)
      decreases e, 1
    {
      var ptr := Access(Link(cx, e.id));
      var rhs := Translate(e.exp);
      Create(Store(rhs, ptr));
      value := ZERO;
    }

    method VisitSeq(es: Exps)
      modifies this
      ensures Now() == if es.ENil? then old(Now()).(value := ZERO) else LowerSeq(cx, es, old(Now()))
      ensures currentFunction == old(currentFunction)
      decreases es, 0
    {
      if es.ENil? {
        value := ZERO;
        return;
      }
      var rest := es;
      while rest.ECons?
        invariant es nonincreases to rest
        invariant LowerSeq(cx, rest, Now()) == LowerSeq(cx, es, old(Now()))
        invariant currentFunction == old(currentFunction)
        decreases rest
      {
        var _ := Translate(rest.head);
        rest := rest.tail;
      }
    }

    method VisitIf(e: Exp)
      requires e.IfExp?
      modifies this
      ensures Now() == LowerIf(cx, e, old(Now()))
      ensures currentFunction == old(currentFunction)
      decreases e, 1
    {
      hide Lower, Meet;
      var cond := Translate(e.test);
      CreateValue(Arith(registers, Ne, cond, ZERO));
      var condBool := value;
      var thenBlock := CreateBlock();
      var elseBlock := CreateBlock();
      var mergeBlock := CreateBlock();
      Create(CondBr(condBool, thenBlock, elseBlock));

      insertPoint := thenBlock;
      VisitBranches(e, elseBlock, mergeBlock);
    }

    /** Both branches of an `if`, the insertion point being where the first starts. */
    method VisitBranches(e: Exp, elseBlock: nat, mergeBlock: nat)
      requires e.IfExp?
      modifies this
      ensures currentFunction == old(currentFunction)
      ensures var s3 := Lower(cx, e.thn, old(Now())); var s4 := Branch(s3, Br(mergeBlock), elseBlock);
        var s5 := if e.els.SomeExp? then Lower(cx, e.els.exp, s4) else s4.(value := ZERO);
        Now() == Meet(cx, e, s3, s5, mergeBlock)
      decreases e, 0
    {
      hide Lower, Voids;
      var thenVal := Translate(e.thn);
      Create(Br(mergeBlock));
      var thenEnd := insertPoint;

      insertPoint := elseBlock;
      if e.els.SomeExp? { var _ := Translate(e.els.exp); } else { value := ZERO; }
      var elseVal := value;
      Create(Br(mergeBlock));
      var elseEnd := insertPoint;

      insertPoint := mergeBlock;
      if Voids(cx, e) { value := ZERO; }
      else { CreateValue(Phi(registers, thenVal, thenEnd, elseVal, elseEnd)); }
    }

    method VisitWhile(e: Exp)
      requires e.WhileExp?
      modifies this
      ensures Now() == LowerWhile(cx, e, old(Now()))
      ensures currentFunction == old(currentFunction)
      decreases e, 0
    {
      var testBlock := CreateBlock();
      var bodyBlock := CreateBlock();
      var afterBlock := CreateBlock();
      loopEnd := loopEnd[e.id := afterBlock];
      Create(Br(testBlock));

      insertPoint := testBlock;
      var cond := Translate(e.test);
      CreateValue(Arith(registers, Ne, cond, ZERO));
      Create(CondBr(value, bodyBlock, afterBlock));

      insertPoint := bodyBlock;
      var _ := Translate(e.body);
      Create(Br(testBlock));

      insertPoint := afterBlock;
    }

    /** The lifted variables of the callee, then the arguments. */
    method VisitCall(q: Id, actuals: Exps)
      modifies this
      ensures var (lifted, s1) := LowerLifted(Lifted(cx, q), old(Now()));
        var (args, s2) := LowerArgs(cx, actuals, s1);
        Now() == EmitCall(cx, s2, q, lifted + args)
      ensures currentFunction == old(currentFunction)
      decreases actuals, 0
    {
      var lifted := LiftedArguments(Lifted(cx, q));
      var args: seq<Operand> := [];
      ghost var s1 := Now();
      var rest := actuals;
      assert args + LowerArgs(cx, rest, Now()).0 == LowerArgs(cx, rest, Now()).0;
      while rest.ECons?
        invariant actuals nonincreases to rest
        invariant LowerArgs(cx, actuals, s1) == (args + LowerArgs(cx, rest, Now()).0, LowerArgs(cx, rest, Now()).1)
        invariant currentFunction == old(currentFunction)
        decreases rest
      {
        ghost var before, st, now := args, Now(), rest;
        var v := Translate(rest.head);
        args := args + [v];
        rest := rest.tail;
        assert LowerArgs(cx, now, st) == ([v] + LowerArgs(cx, rest, Now()).0, LowerArgs(cx, rest, Now()).1);
        assert before + ([v] + LowerArgs(cx, rest, Now()).0) == args + LowerArgs(cx, rest, Now()).0;
      }
      assert args + [] == args;
      CreateValue(Call(registers, q, lifted + args));
      if q in cx.voids { value := ZERO; }
    }

    /** A missing entry of the table is created, with no value, by looking it up. */
    method LiftedArguments(ds: seq<Id>) returns (args: seq<Operand>)
      modifies this`locals
      ensures (args, Now()) == LowerLifted(ds, old(Now()))
    {
      args := [];
      var k := 0;
      assert ds[0..] == ds && args + LowerLifted(ds, Now()).0 == LowerLifted(ds, Now()).0;
      while k < |ds|
        invariant k <= |ds|
        invariant LowerLifted(ds, old(Now())) == (args + LowerLifted(ds[k..], Now()).0, LowerLifted(ds[k..], Now()).1)
      {
        ghost var before := args;
        var a := Local(locals, currentFunction, ds[k]);
        if a.None? { SetLocal(currentFunction, ds[k], NoValue); }
        args := args + [if a.Some? then a.value else NoValue];
        assert ds[k..][1..] == ds[k + 1..];
        k := k + 1;
        ghost var rest := LowerLifted(ds[k..], Now()).0;
        assert before + ([args[|before|]] + rest) == args + rest;
      }
      assert args + [] == args;
    }

    // ----- declarations -----

    method VisitScope(sc: Scope)
      modifies this
      ensures Now() == LowerScope(cx, sc, old(Now()))
      ensures currentFunction == old(currentFunction)
      decreases sc, 0
    {
      match sc {
        case In(b) => var _ := Translate(b);
        case With(c, rest) =>
          match c {
            case VarChunk(d) => VisitVarDec(d);
            case FunctionChunk(ds) =>
              VisitHeaders(ds);
              VisitBodies(ds);
            case TypeChunk(_) =>
          }
          VisitScope(rest);
      }
    }

    method VisitVarDec(d: VarDec)
      modifies this
      ensures Now() == LowerVarDec(cx, d, old(Now()))
      ensures currentFunction == old(currentFunction)
      decreases d, 0
    {
      if currentFunction == cx.main {
        var init := Translate(d.init);
        Create(Store(init, Global(d.id)));
        SetLocal(currentFunction, d.id, Global(d.id));
      } else {
        SetLocal(currentFunction, d.id, Slot(d.id));
        var init := Translate(d.init);
        Create(Store(init, Slot(d.id)));
      }
      value := ZERO;
    }

    method VisitHeaders(ds: Decs)
      modifies this`protos
      ensures Now() == LowerHeaders(cx, ds, old(Now()))
    {
      var rest := ds;
      while rest.DCons?
        invariant LowerHeaders(cx, rest, Now()) == LowerHeaders(cx, ds, old(Now()))
        decreases rest
      {
        var d := rest.head;
        protos := protos + [Proto(d.id, Lifted(cx, d.id) + FormalIds(d.formals))];
        rest := rest.tail;
      }
    }

    method VisitBodies(ds: Decs)
      modifies this
      ensures Now() == LowerDecs(cx, ds, old(Now()))
      ensures currentFunction == old(currentFunction)
      decreases ds, 0
    {
      var rest := ds;
      while rest.DCons?
        invariant ds nonincreases to rest
        invariant LowerDecs(cx, rest, Now()) == LowerDecs(cx, ds, old(Now()))
        invariant currentFunction == old(currentFunction)
        decreases rest
      {
        if rest.head.body.SomeExp? { VisitBody(rest.head); }
        rest := rest.tail;
      }
    }

    /** A body in the middle of another: the insertion point and the function are put back. */
    method VisitBody(d: FunctionDec)
      requires d.body.SomeExp?
      modifies this
      ensures Now() == LowerDec(cx, d, old(Now()))
      ensures currentFunction == old(currentFunction)
      decreases d, 0
    {
      var oldInsertPoint, oldFunction := insertPoint, currentFunction;
      currentFunction := d.id;
      insertPoint := CreateBlock();
      entries := entries[d.id := insertPoint];
      FillBody(d);
      currentFunction := oldFunction;
      insertPoint := oldInsertPoint;
    }

    method FillBody(d: FunctionDec)
      requires d.body.SomeExp?
      modifies this
      ensures Now() == LowerBody(cx, d, old(Now()))
      ensures currentFunction == old(currentFunction)
      decreases d.body.exp, 3
    {
      BindArguments(d);
      var result := Translate(d.body.exp);
      if d.result.None? { Create(RetVoid); } else { Create(Ret(result)); }
    }

    /** The lifted variables are the first parameters; the formals get slots of their own. */
    method BindArguments(d: FunctionDec)
      modifies this`locals, this`blocks
      ensures Now() == Prologue(cx, d, old(Now()))
    {
      var escaped, arg, k := Lifted(cx, d.id), 0, 0;
      while k < |escaped|
        invariant arg == k <= |escaped|
        invariant BindLifted(escaped[k..], arg, Now()) == BindLifted(escaped, 0, old(Now()))
      {
        SetLocal(currentFunction, escaped[k], Param(arg));
        assert escaped[k..][1..] == escaped[k + 1..];
        k, arg := k + 1, arg + 1;
      }
      k := 0;
      while k < |d.formals|
        invariant k <= |d.formals| && arg == |escaped| + k
        invariant BindFormalSlots(d.formals[k..], arg, Now()) == Prologue(cx, d, old(Now()))
      {
        var fm := d.formals[k];
        SetLocal(currentFunction, fm.id, Slot(fm.id));
        Create(Store(Param(arg), Slot(fm.id)));
        assert d.formals[k..][1..] == d.formals[k + 1..];
        k, arg := k + 1, arg + 1;
      }
    }
  }
}
