/** 32-bit two's complement arithmetic as the generated code performs it. */
module Int32 {
  import opened Options
  import opened Ast

  const MIN := -0x8000_0000
  const MAX := 0x7fff_ffff

  type I32 = x: int | MIN <= x <= MAX

  function Wrap(x: int): (r: I32)
    ensures MIN <= x <= MAX ==> r == x
    ensures (r - x) % 0x1_0000_0000 == 0
  {
    (x - MIN) % 0x1_0000_0000 + MIN
  }

  /** Signed division truncates toward zero. */
  function Quot(a: int, b: int): (q: int)
    requires b != 0
  {
    var m := (if a < 0 then -a else a) / (if b < 0 then -b else b);
    if (a < 0) == (b < 0) then m else -m
  }

  /** The quotient rounded toward zero: what remains is smaller than the divisor and has the sign of
      the dividend. */
  lemma QuotRemainder(a: int, b: int)
    requires b != 0
    ensures var r := a - Quot(a, b) * b; (-b < r < b || b < r < -b) && (r == 0 || (r < 0 <==> a < 0))
  {
    var x, y := if a < 0 then -a else a, if b < 0 then -b else b;
    assert x == x / y * y + x % y;
    if (a < 0) == (b < 0) {
      assert Quot(a, b) * b == x / y * b;
      if b < 0 { assert x / y * b == -(x / y * y); }
    } else {
      assert Quot(a, b) * b == -(x / y) * b;
      if b < 0 { assert -(x / y) * b == x / y * y; } else { assert -(x / y) * b == -(x / y * y); }
    }
  }

  function Bool(b: bool): I32 { if b then 1 else 0 }

  /** None where the instruction has undefined behaviour. */
  function Apply(op: Oper, a: I32, b: I32): Option<I32> {
    match op
    case Add => Some(Wrap(a + b))
    case Sub => Some(Wrap(a - b))
    case Mul => Some(Wrap(a * b))
    case Div => if b == 0 || (a == MIN && b == -1) then None else Some(Wrap(Quot(a, b)))
    case Eq => Some(Bool(a == b))
    case Ne => Some(Bool(a != b))
    case Lt => Some(Bool(a < b))
    case Le => Some(Bool(a <= b))
    case Gt => Some(Bool(a > b))
    case Ge => Some(Bool(a >= b))
  }

  /** Sums, differences and products are right up to a multiple of 2^32; comparisons are 0 or 1; only
      a division may have no result, by 0 or when the quotient is too large. */
  lemma ApplyMeans(op: Oper, a: I32, b: I32)
    ensures var r := Apply(op, a, b);
      && (r.None? <==> op.Div? && (b == 0 || Quot(a, b) > MAX))
      && (r.Some? ==>
            match op
            case Add => (r.value - a - b) % 0x1_0000_0000 == 0
            case Sub => (r.value - a + b) % 0x1_0000_0000 == 0
            case Mul => (r.value - a * b) % 0x1_0000_0000 == 0
            case Div => r.value == Quot(a, b)
            case Eq => r.value == 1 - Apply(Ne, a, b).value && (r.value == 1 <==> a == b)
            case Ne => r.value == 1 - Apply(Eq, a, b).value
            case Lt => r.value == Apply(Gt, b, a).value && (r.value == 1 <==> a < b)
            case Le => r.value == 1 - Apply(Gt, a, b).value
            case Gt => r.value == Apply(Lt, b, a).value
            case Ge => r.value == 1 - Apply(Lt, a, b).value)
  {
    if op.Div? && b != 0 { QuotRange(a, b); }
  }

  lemma {:induction false} Twice(q: nat, y: int)
    requires y >= 2
    ensures q + q <= q * y
    decreases q
  {
    if q > 0 {
      Twice(q - 1, y);
      assert q * y == (q - 1) * y + y;
    }
  }

  lemma DivSmall(x: nat, y: nat)
    requires y > 0
    ensures 0 <= x / y <= x && (y > 1 ==> x / y + x / y <= x) && (y == 1 ==> x / y == x)
  {
    var q, r := x / y, x % y;
    assert x == q * y + r;
    if y > 1 { Twice(q, y); }
  }

  /** Only one quotient of two numbers of 32 bits has more than 32 bits. */
  lemma QuotRange(a: int, b: int)
    requires b != 0 && MIN <= a <= MAX && MIN <= b <= MAX
    ensures MIN <= Quot(a, b) && (Quot(a, b) > MAX <==> a == MIN && b == -1)
  {
    var x, y := if a < 0 then -a else a, if b < 0 then -b else b;
    DivSmall(x, y);
    assert Quot(a, b) == if (a < 0) == (b < 0) then x / y else -(x / y);
    hide Quot;
  }
}

/** What a Tiger program means: a fuelled evaluator over lexical environments.

    An environment lists the bindings in scope, innermost first, with their current values.
    Functions are second class, so at a call the callee's defining environment is always a tail
    of the caller's: the body runs in that tail and the updated tail is grafted back.  Primitives
    append an event to a trace and take their result from an oracle over that trace. */
module Semantics {
  import opened Options
  import opened Ast
  import Int32

  datatype Env =
    | Empty
    | VarB(id: Id, name: Symbol, value: Option<Int32.I32>, rest: Env)
    | FunB(decs: Decs, rest: Env)

  datatype Event = Event(name: Symbol, args: seq<Int32.I32>)
  type Oracle = seq<Event> -> int
  datatype State = State(env: Env, trace: seq<Event>)

  datatype Outcome =
    | Normal(value: Int32.I32, s: State)
    | Broke(s: State)
    | OutOfFuel
    | Undefined
  datatype ArgsOutcome = Values(values: seq<Int32.I32>, s: State) | Stop(outcome: Outcome)

  // ----- environments -----

  function FindVar(env: Env, x: Symbol): Option<Option<Int32.I32>> {
    match env
    case Empty => None
    case VarB(_, y, v, rest) => if x == y then Some(v) else FindVar(rest, x)
    case FunB(_, rest) => FindVar(rest, x)
  }

  function SetVar(env: Env, x: Symbol, v: Int32.I32): Env {
    match env
    case Empty => Empty
    case VarB(id, y, w, rest) =>
      if x == y then VarB(id, y, Some(v), rest) else VarB(id, y, w, SetVar(rest, x, v))
    case FunB(ds, rest) => FunB(ds, SetVar(rest, x, v))
  }

  function FindDec(ds: Decs, f: Symbol): Option<FunctionDec> {
    match ds
    case DNil => None
    case DCons(d, rest) => if d.name == f then Some(d) else FindDec(rest, f)
  }

  /** The declaration of f and the environment its body runs in. */
  function FindFun(env: Env, f: Symbol): Option<(FunctionDec, Env)> {
    match env
    case Empty => None
    case VarB(_, _, _, rest) => FindFun(rest, f)
    case FunB(ds, rest) =>
      var d := FindDec(ds, f);
      if d.Some? then Some((d.value, env)) else FindFun(rest, f)
  }

  /** Replace the part of env in which f was declared by tail. */
  function Graft(env: Env, f: Symbol, tail: Env): Env {
    match env
    case Empty => Empty
    case VarB(id, x, v, rest) => VarB(id, x, v, Graft(rest, f, tail))
    case FunB(ds, rest) => if FindDec(ds, f).Some? then tail else FunB(ds, Graft(rest, f, tail))
  }

  function BindFormals(formals: seq<Formal>, values: seq<Int32.I32>, env: Env): Env
    requires |formals| == |values|
  {
    if formals == [] then env
    else BindFormals(formals[1..], values[1..],
                     VarB(formals[0].id, formals[0].name, Some(values[0]), env))
  }

  function Pop(env: Env): Env {
    if env.Empty? then Empty else env.rest
  }

  function PopN(env: Env, n: nat): Env {
    if n == 0 then env else PopN(Pop(env), n - 1)
  }

  function SetTop(s: State, v: Int32.I32): State {
    if s.env.VarB? then s.(env := s.env.(value := Some(v))) else s
  }

  function PopState(s: State): State { s.(env := Pop(s.env)) }

  function PopOut(r: Outcome): Outcome {
    match r
    case Normal(v, s) => Normal(v, PopState(s))
    case Broke(s) => Broke(PopState(s))
    case _ => r
  }

  // ----- evaluation -----

  function Eval(o: Oracle, e: Exp, s: State, fuel: nat): Outcome
    decreases fuel, e, 1
  {
    match e
    case IntExp(n) => Normal(Int32.Wrap(n), s)
    case VarExp(_, x) =>
      var v := FindVar(s.env, x);
      if v.Some? && v.value.Some? then Normal(v.value.value, s) else Undefined
    case OpExp(l, op, r) =>
      var ol := Eval(o, l, s, fuel);
      if !ol.Normal? then ol else
      var or := Eval(o, r, ol.s, fuel);
      if !or.Normal? then or else
      var v := Int32.Apply(op, ol.value, or.value);
      if v.Some? then Normal(v.value, or.s) else Undefined
    case SeqExp(es) => EvalSeq(o, es, 0, s, fuel)
    case AssignExp(_, x, r) =>
      if FindVar(s.env, x).None? then Undefined else
      var or := Eval(o, r, s, fuel);
      if !or.Normal? then or else Normal(0, or.s.(env := SetVar(or.s.env, x, or.value)))
    case IfExp(c, t, f) =>
      var oc := Eval(o, c, s, fuel);
      if !oc.Normal? then oc
      else if oc.value != 0 then Eval(o, t, oc.s, fuel)
      else if f.SomeExp? then Eval(o, f.exp, oc.s, fuel)
      else Normal(0, oc.s)
    case WhileExp(_, c, b) =>
      var oc := Eval(o, c, s, fuel);
      if oc.Broke? then Normal(0, oc.s)
      else if !oc.Normal? then oc
      else if oc.value == 0 then Normal(0, oc.s)
      else if fuel == 0 then OutOfFuel
      else
        var ob := Eval(o, b, oc.s, fuel - 1);
        if ob.Broke? then Normal(0, ob.s)
        else if !ob.Normal? then ob
        else Eval(o, e, ob.s, fuel - 1)
    case ForExp(_, d, hi, b) =>
      // The index is in scope of its own bounds, as the binder has it.
      var ol := Eval(o, d.init, State(VarB(d.id, d.name, None, s.env), s.trace), fuel);
      if ol.Broke? then Normal(0, PopState(ol.s))
      else if !ol.Normal? then ol
      else
        var oh := Eval(o, hi, SetTop(ol.s, ol.value), fuel);
        if oh.Broke? then Normal(0, PopState(oh.s))
        else if !oh.Normal? then oh
        else PopOut(EvalFor(o, e, ol.value, oh.value, oh.s, fuel))
    case BreakExp(_) => Broke(s)
    case CallExp(_, f, args) =>
      var oa := EvalArgs(o, args, s, fuel);
      if oa.Stop? then oa.outcome else
      var found := FindFun(oa.s.env, f);
      if found.None? || |found.value.0.formals| != |oa.values| then Undefined else
      var (d, tail) := found.value;
      if d.body.NoExp? then
        var trace := oa.s.trace + [Event(f, oa.values)];
        Normal(Int32.Wrap(o(trace)), State(oa.s.env, trace))
      else if fuel == 0 then OutOfFuel
      else
        var ob := Eval(o, d.body.exp, State(BindFormals(d.formals, oa.values, tail), oa.s.trace), fuel - 1);
        if ob.Normal? then
          Normal(ob.value, State(Graft(oa.s.env, f, PopN(ob.s.env, |d.formals|)), ob.s.trace))
        else if ob.Broke? then Undefined
        else ob
    case LetExp(sc) => EvalScope(o, sc, s, fuel)
  }

  function EvalSeq(o: Oracle, es: Exps, last: Int32.I32, s: State, fuel: nat): Outcome
    decreases fuel, es, 0
  {
    match es
    case ENil => Normal(last, s)
    case ECons(e, rest) =>
      var oe := Eval(o, e, s, fuel);
      if !oe.Normal? then oe else EvalSeq(o, rest, oe.value, oe.s, fuel)
  }

  function EvalArgs(o: Oracle, es: Exps, s: State, fuel: nat): ArgsOutcome
    decreases fuel, es, 0
  {
    match es
    case ENil => Values([], s)
    case ECons(e, rest) =>
      var oe := Eval(o, e, s, fuel);
      if !oe.Normal? then Stop(oe) else
      var os := EvalArgs(o, rest, oe.s, fuel);
      if os.Stop? then os else Values([oe.value] + os.values, os.s)
  }

  /** The iterations of the `for` loop e from k to h; the index is the top binding. */
  function EvalFor(o: Oracle, e: Exp, k: int, h: Int32.I32, s: State, fuel: nat): Outcome
    requires e.ForExp? && k >= Int32.MIN
    decreases fuel, e, 0
  {
    if k > h then Normal(0, s)
    else if fuel == 0 then OutOfFuel
    else
      var ob := Eval(o, e.body, SetTop(s, k), fuel - 1);
      if ob.Broke? then Normal(0, ob.s)
      else if !ob.Normal? then ob
      else EvalFor(o, e, k + 1, h, ob.s, fuel - 1)
  }

  function EvalScope(o: Oracle, sc: Scope, s: State, fuel: nat): Outcome
    decreases fuel, sc, 0
  {
    match sc
    case In(b) => Eval(o, b, s, fuel)
    case With(VarChunk(d), rest) =>
      // The variable is in scope of its own initialiser, as the binder has it.
      var oi := Eval(o, d.init, State(VarB(d.id, d.name, None, s.env), s.trace), fuel);
      if !oi.Normal? then PopOut(oi)
      else PopOut(EvalScope(o, rest, SetTop(oi.s, oi.value), fuel))
    case With(FunctionChunk(ds), rest) =>
      PopOut(EvalScope(o, rest, State(FunB(ds, s.env), s.trace), fuel))
    case With(TypeChunk(_), rest) => EvalScope(o, rest, s, fuel)
  }
}
