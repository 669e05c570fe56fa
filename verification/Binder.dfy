/** A stack of dictionaries; the innermost one that holds a key wins. */
module ScopedMap {
  import opened Options
  import opened Ast

  /** At least the global scope is open. */
  type Scopes = s: seq<map<Symbol, Id>> | |s| > 0 witness [map[]]

  function Flatten(s: seq<map<Symbol, Id>>): map<Symbol, Id> {
    if s == [] then map[] else Flatten(s[..|s| - 1]) + s[|s| - 1]
  }

  function Begin(s: Scopes): Scopes { s + [map[]] }

  function Put(s: Scopes, x: Symbol, d: Id): Scopes { s[|s| - 1 := s[|s| - 1][x := d]] }

  lemma BeginFlattens(s: Scopes)
    ensures Flatten(Begin(s)) == Flatten(s)
  {
    assert Begin(s)[..|s|] == s;
  }

  lemma PutFlattens(s: Scopes, x: Symbol, d: Id)
    ensures Flatten(Put(s, x, d)) == Flatten(s)[x := d]
  {
    assert Put(s, x, d)[..|s| - 1] == s[..|s| - 1];
  }

  function Lookup(s: seq<map<Symbol, Id>>, x: Symbol): Option<Id> {
    if x in Flatten(s) then Some(Flatten(s)[x]) else None
  }

  lemma LookupStep(s: seq<map<Symbol, Id>>, x: Symbol, i: nat)
    requires i < |s|
    ensures Lookup(s[..i + 1], x) == if x in s[i] then Some(s[i][x]) else Lookup(s[..i], x)
  {
    assert s[..i + 1][..i] == s[..i];
  }

  method Get(s: Scopes, x: Symbol) returns (r: Option<Id>)
    ensures r == Lookup(s, x)
  {
    var i := |s|;
    assert s[..i] == s;
    while i > 0
      invariant 0 <= i <= |s|
      invariant Lookup(s[..i], x) == Lookup(s, x)
    {
      i := i - 1;
      LookupStep(s, x, i);
      if x in s[i] { return Some(s[i][x]); }
    }
    return None;
  }
}

/** Binding uses to declarations: an environment-passing resolver, and the binder that computes
    the same links with mutable scope stacks. */
module Binder {
  import opened Options
  import opened Ast
  import opened ScopedMap
  import Nodes

  /** What is in scope: the innermost declaration of each name and the innermost loop. */
  datatype Names =
    Names(vars: map<Symbol, Id>, funs: map<Symbol, Id>, types: map<Symbol, Id>, loop: Option<Id>)

  /** What binding accumulates: the links, the three error counts, and the flags behind the
      refusal of some breaks, which the binder resets rather than restores. */
  datatype Bound = Bound(
    links: Links, undeclared: nat, redeclared: nat, refused: nat,
    mainDefined: bool, inLoop: bool, inFormals: bool, inVarDec: bool)

  function PutVar(n: Names, x: Symbol, d: Id): Names { n.(vars := n.vars[x := d]) }
  function PutFun(n: Names, f: Symbol, d: Id): Names { n.(funs := n.funs[f := d]) }
  function PutType(n: Names, t: Symbol, d: Id): Names { n.(types := n.types[t := d]) }
  function Enter(n: Names, loop: Id): Names { n.(loop := Some(loop)) }

  // ----- the resolver -----

  function UseVar(id: Id, x: Symbol, n: Names, b: Bound): Bound {
    if x in n.vars then b.(links := b.links[id := n.vars[x]])
    else b.(undeclared := b.undeclared + 1)
  }

  function UseFun(id: Id, f: Symbol, n: Names, b: Bound): Bound {
    if f in n.funs then b.(links := b.links[id := n.funs[f]])
    else b.(undeclared := b.undeclared + 1)
  }

  predicate Builtin(t: Symbol) { t == "string" || t == "int" }

  function UseType(t: TypeName, n: Names, b: Bound): Bound {
    if Builtin(t.name) then b
    else if t.name in n.types then b.(links := b.links[t.id := n.types[t.name]])
    else b.(undeclared := b.undeclared + 1)
  }

  function UseBreak(id: Id, n: Names, b: Bound): Bound {
    if n.loop.None? || b.inLoop || b.inVarDec || b.inFormals then b.(refused := b.refused + 1)
    else b.(links := b.links[id := n.loop.value])
  }

  function Resolve(e: Exp, n: Names, b: Bound): Bound {
    match e
    case IntExp(_) => b
    case VarExp(id, x) => UseVar(id, x, n, b)
    case OpExp(l, _, r) => Resolve(r, n, Resolve(l, n, b))
    case SeqExp(es) => ResolveAll(es, n, b)
    case AssignExp(id, x, r) => Resolve(r, n, UseVar(id, x, n, b))
    case IfExp(c, t, f) =>
      var b' := Resolve(t, n, Resolve(c, n, b));
      if f.SomeExp? then Resolve(f.exp, n, b') else b'
    case WhileExp(id, c, body) =>
      var n' := Enter(n, id);
      Resolve(body, n', Resolve(c, n', b.(inLoop := true)).(inLoop := false))
    case ForExp(id, d, hi, body) =>
      var n' := PutVar(Enter(n, id), d.name, d.id);
      Resolve(body, n', Resolve(hi, n', ResolveVarDec(d, n', b.(inLoop := true))).(inLoop := false))
    case BreakExp(id) => UseBreak(id, n, b)
    case CallExp(id, f, args) =>
      ResolveAll(args, n, UseFun(id, f, n, b).(inFormals := true)).(inFormals := false)
    case LetExp(sc) => ResolveScope(sc, n, b)
  }

  function ResolveAll(es: Exps, n: Names, b: Bound): Bound {
    match es
    case ENil => b
    case ECons(e, rest) => ResolveAll(rest, n, Resolve(e, n, b))
  }

  /** n already holds the variable. */
  function ResolveVarDec(d: VarDec, n: Names, b: Bound): Bound {
    var b' := if d.typeName.Some? then UseType(d.typeName.value, n, b) else b;
    Resolve(d.init, n, b'.(inVarDec := true)).(inVarDec := false)
  }

  function ResolveScope(sc: Scope, n: Names, b: Bound): Bound {
    match sc
    case In(body) => Resolve(body, n, b)
    case With(VarChunk(d), rest) =>
      var n' := PutVar(n, d.name, d.id);
      ResolveScope(rest, n', ResolveVarDec(d, n', b))
    case With(FunctionChunk(ds), rest) =>
      var n' := AddFirst(ds, n, {});
      ResolveScope(rest, PutAll(ds, n'), ResolveDecs(ds, n', b.(redeclared := b.redeclared + Repeats(ds, {}))))
    case With(TypeChunk(ts), rest) =>
      var n' := AddFirstTypes(ts, n, {});
      ResolveScope(rest, PutAllTypes(ts, n'),
                   ResolveTypes(ts, n', b.(redeclared := b.redeclared + RepeatedTypes(ts, {}))))
  }

  /** A chunk first enters the first function of each name ... */
  function AddFirst(ds: Decs, n: Names, seen: set<Symbol>): Names {
    match ds
    case DNil => n
    case DCons(d, rest) =>
      if d.name in seen then AddFirst(rest, n, seen)
      else AddFirst(rest, PutFun(n, d.name, d.id), seen + {d.name})
  }

  function Repeats(ds: Decs, seen: set<Symbol>): nat {
    match ds
    case DNil => 0
    case DCons(d, rest) => (if d.name in seen then 1 else 0) + Repeats(rest, seen + {d.name})
  }

  /** ... and each function enters itself again when its turn comes. */
  function PutAll(ds: Decs, n: Names): Names {
    match ds
    case DNil => n
    case DCons(d, rest) => PutAll(rest, PutFun(n, d.name, d.id))
  }

  function ResolveDecs(ds: Decs, n: Names, b: Bound): Bound {
    match ds
    case DNil => b
    case DCons(d, rest) =>
      var n' := PutFun(n, d.name, d.id);
      ResolveDecs(rest, n', ResolveDec(d, n', b))
  }

  /** n already holds the function. */
  function ResolveDec(d: FunctionDec, n: Names, b: Bound): Bound
    decreases d, 1
  {
    ResolveRoutine(d, n, NoteMain(d, b))
  }

  function NoteMain(d: FunctionDec, b: Bound): Bound {
    if d.name != "_main" then b
    else if b.mainDefined then b.(redeclared := b.redeclared + 1)
    else b.(mainDefined := true)
  }

  function ResolveRoutine(d: FunctionDec, n: Names, b: Bound): Bound
    decreases d, 0
  {
    var b1 := ResolveHeader(d, n, b);
    var n' := PutFormals(d.formals, n);
    var b2 := if d.result.Some? then UseType(d.result.value, n', b1) else b1;
    if d.body.SomeExp? then Resolve(d.body.exp, n', b2) else b2
  }

  function ResolveHeader(d: FunctionDec, n: Names, b: Bound): Bound {
    var b' := b.(redeclared := b.redeclared + RepeatedFormals(d.formals, {}), inFormals := true);
    ResolveFormals(d.formals, n, b').(inFormals := false)
  }

  function PutFormals(fs: seq<Formal>, n: Names): Names {
    if fs == [] then n else PutFormals(fs[1..], PutVar(n, fs[0].name, fs[0].id))
  }

  function RepeatedFormals(fs: seq<Formal>, seen: set<Symbol>): nat {
    if fs == [] then 0
    else (if fs[0].name in seen then 1 else 0) + RepeatedFormals(fs[1..], seen + {fs[0].name})
  }

  function ResolveFormals(fs: seq<Formal>, n: Names, b: Bound): Bound {
    if fs == [] then b
    else
      var n' := PutVar(n, fs[0].name, fs[0].id);
      ResolveFormals(fs[1..], n', UseType(fs[0].typeName, n', b).(inVarDec := false))
  }

  function AddFirstTypes(ts: seq<TypeDec>, n: Names, seen: set<Symbol>): Names {
    if ts == [] then n
    else if ts[0].name in seen then AddFirstTypes(ts[1..], n, seen)
    else AddFirstTypes(ts[1..], PutType(n, ts[0].name, ts[0].id), seen + {ts[0].name})
  }

  function RepeatedTypes(ts: seq<TypeDec>, seen: set<Symbol>): nat {
    if ts == [] then 0
    else (if ts[0].name in seen then 1 else 0) + RepeatedTypes(ts[1..], seen + {ts[0].name})
  }

  function PutAllTypes(ts: seq<TypeDec>, n: Names): Names {
    if ts == [] then n else PutAllTypes(ts[1..], PutType(n, ts[0].name, ts[0].id))
  }

  function ResolveTypes(ts: seq<TypeDec>, n: Names, b: Bound): Bound {
    if ts == [] then b
    else
      var n' := PutType(n, ts[0].name, ts[0].id);
      ResolveTypes(ts[1..], n', ResolveTy(ts[0].ty, n', b))
  }

  function ResolveTy(ty: Ty, n: Names, b: Bound): Bound {
    match ty
    case NameTy(t) => UseType(t, n, b)
    case RecordTy(fs) => ResolveFields(fs, n, b)
    case ArrayTy(t) => UseType(t, n, b)
  }

  function ResolveFields(fs: seq<(Symbol, TypeName)>, n: Names, b: Bound): Bound {
    if fs == [] then b else ResolveFields(fs[1..], n, UseType(fs[0].1, n, b))
  }

  // ----- the binder -----

  class Binder {
    var funScopes: Scopes
    var varScopes: Scopes
    var typeScopes: Scopes
    var loopStack: seq<Id>
    var bound: Bound

    constructor ()
      ensures Visible() == Names(map[], map[], map[], None)
      ensures bound == Bound(map[], 0, 0, 0, false, false, false, false)
    {
      funScopes, varScopes, typeScopes, loopStack := [map[]], [map[]], [map[]], [];
      bound := Bound(map[], 0, 0, 0, false, false, false, false);
    }

    /** What the scope stacks amount to. */
    ghost function Visible(): Names
      reads this
    {
      Names(Flatten(varScopes), Flatten(funScopes), Flatten(typeScopes),
            if loopStack == [] then None else Some(loopStack[|loopStack| - 1]))
    }

    method VisitVarUse(id: Id, x: Symbol)
      modifies this`bound
      ensures bound == UseVar(id, x, Visible(), old(bound))
    {
      var d := Get(varScopes, x);
      if d.Some? {
        bound := bound.(links := bound.links[id := d.value]);
      } else {
        bound := bound.(undeclared := bound.undeclared + 1);
      }
    }

    method VisitTypeUse(t: TypeName)
      modifies this`bound
      ensures bound == UseType(t, Visible(), old(bound))
    {
      if t.name != "string" && t.name != "int" {
        var d := Get(typeScopes, t.name);
        if d.Some? {
          bound := bound.(links := bound.links[t.id := d.value]);
        } else {
          bound := bound.(undeclared := bound.undeclared + 1);
        }
      }
    }

    /** Every expression visit restores all the stacks and binds as the resolver does. */
    method Visit(e: Exp)
      modifies this
      ensures funScopes == old(funScopes) && varScopes == old(varScopes)
      ensures typeScopes == old(typeScopes) && loopStack == old(loopStack)
      ensures bound == Resolve(e, old(Visible()), old(bound))
      decreases e, 1
    {
      match e {
        case IntExp(_) =>
        case VarExp(id, x) => VisitVarUse(id, x);
        case OpExp(l, _, r) => Visit(l); Visit(r);
        case SeqExp(es) => VisitAll(es);
        case AssignExp(id, x, r) => VisitVarUse(id, x); Visit(r);
        case IfExp(c, t, f) =>
          Visit(c);
          Visit(t);
          if f.SomeExp? { Visit(f.exp); }
        case WhileExp(_, _, _) => VisitWhile(e);
        case ForExp(_, _, _, _) => VisitFor(e);
        case BreakExp(_) => VisitBreak(e);
        case CallExp(_, _, _) => VisitCall(e);
        case LetExp(_) => VisitLet(e);
      }
    }

    method VisitWhile(e: Exp)
      requires e.WhileExp?
      modifies this
      ensures funScopes == old(funScopes) && varScopes == old(varScopes)
      ensures typeScopes == old(typeScopes) && loopStack == old(loopStack)
      ensures bound == Resolve(e, old(Visible()), old(bound))
      decreases e, 0
    {
      BeginFlattens(varScopes);
      varScopes := Begin(varScopes);
      loopStack := loopStack + [e.id];
      assert Visible() == Enter(old(Visible()), e.id);
      bound := bound.(inLoop := true);
      Visit(e.test);
      bound := bound.(inLoop := false);
      Visit(e.body);
      varScopes := varScopes[..|varScopes| - 1];
      loopStack := loopStack[..|loopStack| - 1];
    }

    method VisitFor(e: Exp)
      requires e.ForExp?
      modifies this
      ensures funScopes == old(funScopes) && varScopes == old(varScopes)
      ensures typeScopes == old(typeScopes) && loopStack == old(loopStack)
      ensures bound == Resolve(e, old(Visible()), old(bound))
      decreases e, 0
    {
      BeginFlattens(varScopes);
      varScopes := Begin(varScopes);
      loopStack := loopStack + [e.id];
      assert Visible() == Enter(old(Visible()), e.id);
      bound := bound.(inLoop := true);
      VisitVarDec(e.index);
      Visit(e.hi);
      bound := bound.(inLoop := false);
      Visit(e.body);
      varScopes := varScopes[..|varScopes| - 1];
      loopStack := loopStack[..|loopStack| - 1];
    }

    method VisitBreak(e: Exp)
      requires e.BreakExp?
      modifies this`bound
      ensures bound == UseBreak(e.id, Visible(), old(bound))
    {
      if loopStack == [] || bound.inLoop || bound.inVarDec || bound.inFormals {
        bound := bound.(refused := bound.refused + 1);
      } else {
        var loop := loopStack[|loopStack| - 1];
        bound := bound.(links := bound.links[e.id := loop]);
      }
    }

    method VisitCall(e: Exp)
      requires e.CallExp?
      modifies this
      ensures funScopes == old(funScopes) && varScopes == old(varScopes)
      ensures typeScopes == old(typeScopes) && loopStack == old(loopStack)
      ensures bound == Resolve(e, old(Visible()), old(bound))
      decreases e, 0
    {
      var d := Get(funScopes, e.name);
      if d.Some? {
        bound := bound.(links := bound.links[e.id := d.value]);
      } else {
        bound := bound.(undeclared := bound.undeclared + 1);
      }
      bound := bound.(inFormals := true);
      VisitAll(e.args);
      bound := bound.(inFormals := false);
    }

    method VisitLet(e: Exp)
      requires e.LetExp?
      modifies this
      ensures funScopes == old(funScopes) && varScopes == old(varScopes)
      ensures typeScopes == old(typeScopes) && loopStack == old(loopStack)
      ensures bound == Resolve(e, old(Visible()), old(bound))
      decreases e, 0
    {
      BeginFlattens(funScopes);
      BeginFlattens(varScopes);
      BeginFlattens(typeScopes);
      funScopes, varScopes, typeScopes := Begin(funScopes), Begin(varScopes), Begin(typeScopes);
      VisitScope(e.scope);
      funScopes := funScopes[..|funScopes| - 1];
      varScopes := varScopes[..|varScopes| - 1];
      typeScopes := typeScopes[..|typeScopes| - 1];
    }

    method VisitAll(es: Exps)
      modifies this
      ensures funScopes == old(funScopes) && varScopes == old(varScopes)
      ensures typeScopes == old(typeScopes) && loopStack == old(loopStack)
      ensures bound == ResolveAll(es, old(Visible()), old(bound))
      decreases es
    {
      match es {
        case ENil =>
        case ECons(e, rest) => Visit(e); VisitAll(rest);
      }
    }

    /** Only the innermost scope of each stack may change. */
    twostate predicate OnlyInnermost()
      reads this
    {
      && |funScopes| == |old(funScopes)| && |varScopes| == |old(varScopes)| && |typeScopes| == |old(typeScopes)|
      && funScopes[..|funScopes| - 1] == old(funScopes[..|funScopes| - 1])
      && varScopes[..|varScopes| - 1] == old(varScopes[..|varScopes| - 1])
      && typeScopes[..|typeScopes| - 1] == old(typeScopes[..|typeScopes| - 1])
      && loopStack == old(loopStack)
    }

    method VisitVarDec(d: VarDec)
      modifies this
      ensures OnlyInnermost() && funScopes == old(funScopes) && typeScopes == old(typeScopes)
      ensures Visible() == PutVar(old(Visible()), d.name, d.id)
      ensures bound == ResolveVarDec(d, Visible(), old(bound))
      decreases d
    {
      PutFlattens(varScopes, d.name, d.id);
      varScopes := Put(varScopes, d.name, d.id);
      if d.typeName.Some? { VisitTypeUse(d.typeName.value); }
      bound := bound.(inVarDec := true);
      Visit(d.init);
      bound := bound.(inVarDec := false);
    }

    method VisitScope(sc: Scope)
      modifies this
      ensures OnlyInnermost()
      ensures bound == ResolveScope(sc, old(Visible()), old(bound))
      decreases sc
    {
      match sc {
        case In(b) => Visit(b);
        case With(c, rest) =>
          match c {
            case VarChunk(d) => VisitVarDec(d);
            case FunctionChunk(ds) => VisitFunctionChunk(ds);
            case TypeChunk(ts) => VisitTypeChunk(ts);
          }
          VisitScope(rest);
      }
    }

    method VisitFunctionChunk(ds: Decs)
      modifies this
      ensures OnlyInnermost() && varScopes == old(varScopes) && typeScopes == old(typeScopes)
      ensures Visible() == PutAll(ds, AddFirst(ds, old(Visible()), {}))
      ensures bound == ResolveDecs(ds, AddFirst(ds, old(Visible()), {}),
                                   old(bound).(redeclared := old(bound).redeclared + Repeats(ds, {})))
      decreases ds, 1
    {
      var rest, seen := ds, {};
      while rest.DCons?
        invariant OnlyInnermost() && varScopes == old(varScopes) && typeScopes == old(typeScopes)
        invariant AddFirst(rest, Visible(), seen) == AddFirst(ds, old(Visible()), {})
        invariant bound == old(bound).(redeclared := bound.redeclared)
        invariant bound.redeclared + Repeats(rest, seen) == old(bound).redeclared + Repeats(ds, {})
        decreases rest
      {
        var d := rest.head;
        if d.name in seen {
          assert seen + {d.name} == seen;
          bound := bound.(redeclared := bound.redeclared + 1);
        } else {
          PutFlattens(funScopes, d.name, d.id);
          funScopes := Put(funScopes, d.name, d.id);
          seen := seen + {d.name};
        }
        rest := rest.tail;
      }
      VisitDecs(ds);
    }

    method VisitDecs(ds: Decs)
      modifies this
      ensures OnlyInnermost() && varScopes == old(varScopes) && typeScopes == old(typeScopes)
      ensures Visible() == PutAll(ds, old(Visible()))
      ensures bound == ResolveDecs(ds, old(Visible()), old(bound))
      decreases ds, 0
    {
      match ds {
        case DNil =>
        case DCons(d, rest) => VisitDec(d); VisitDecs(rest);
      }
    }

    method VisitDec(d: FunctionDec)
      modifies this
      ensures OnlyInnermost() && varScopes == old(varScopes) && typeScopes == old(typeScopes)
      ensures Visible() == PutFun(old(Visible()), d.name, d.id)
      ensures bound == ResolveDec(d, Visible(), old(bound))
      decreases d, 1
    {
      bound := NoteMain(d, bound);
      PutFlattens(funScopes, d.name, d.id);
      funScopes := Put(funScopes, d.name, d.id);
      VisitRoutine(d);
    }

    method VisitRoutine(d: FunctionDec)
      modifies this
      ensures funScopes == old(funScopes) && varScopes == old(varScopes)
      ensures typeScopes == old(typeScopes) && loopStack == old(loopStack)
      ensures bound == ResolveRoutine(d, Visible(), old(bound))
      decreases d, 0
    {
      BeginFlattens(funScopes);
      BeginFlattens(varScopes);
      funScopes, varScopes := Begin(funScopes), Begin(varScopes);
      assert Visible() == old(Visible());
      VisitHeader(d);
      if d.result.Some? { VisitTypeUse(d.result.value); }
      if d.body.SomeExp? { Visit(d.body.exp); }
      assert varScopes[..|varScopes| - 1] == old(varScopes);
      funScopes, varScopes := funScopes[..|funScopes| - 1], varScopes[..|varScopes| - 1];
    }

    method VisitHeader(d: FunctionDec)
      modifies this`varScopes, this`bound
      ensures |varScopes| == |old(varScopes)| && varScopes[..|varScopes| - 1] == old(varScopes[..|varScopes| - 1])
      ensures Visible() == PutFormals(d.formals, old(Visible()))
      ensures bound == ResolveHeader(d, old(Visible()), old(bound))
    {
      CountRepeatedFormals(d.formals);
      bound := bound.(inFormals := true);
      VisitFormals(d.formals);
      bound := bound.(inFormals := false);
    }

    method CountRepeatedFormals(fs: seq<Formal>)
      modifies this`bound
      ensures bound == old(bound).(redeclared := old(bound).redeclared + RepeatedFormals(fs, {}))
    {
      var i, seen := 0, {};
      while i < |fs|
        invariant 0 <= i <= |fs|
        invariant bound == old(bound).(redeclared := bound.redeclared)
        invariant bound.redeclared + RepeatedFormals(fs[i..], seen) == old(bound).redeclared + RepeatedFormals(fs, {})
      {
        assert fs[i..][1..] == fs[i + 1..];
        if fs[i].name in seen {
          assert seen + {fs[i].name} == seen;
          bound := bound.(redeclared := bound.redeclared + 1);
        } else {
          seen := seen + {fs[i].name};
        }
        i := i + 1;
      }
    }

    method VisitFormals(fs: seq<Formal>)
      modifies this`varScopes, this`bound
      ensures |varScopes| == |old(varScopes)| && varScopes[..|varScopes| - 1] == old(varScopes[..|varScopes| - 1])
      ensures Visible() == PutFormals(fs, old(Visible()))
      ensures bound == ResolveFormals(fs, old(Visible()), old(bound))
    {
      var i := 0;
      while i < |fs|
        invariant 0 <= i <= |fs| && |varScopes| == |old(varScopes)|
        invariant varScopes[..|varScopes| - 1] == old(varScopes[..|varScopes| - 1])
        invariant PutFormals(fs[i..], Visible()) == PutFormals(fs, old(Visible()))
        invariant ResolveFormals(fs[i..], Visible(), bound) == ResolveFormals(fs, old(Visible()), old(bound))
      {
        assert fs[i..][1..] == fs[i + 1..];
        VisitFormal(fs[i]);
        i := i + 1;
      }
    }

    method VisitFormal(f: Formal)
      modifies this`varScopes, this`bound
      ensures |varScopes| == |old(varScopes)| && varScopes[..|varScopes| - 1] == old(varScopes[..|varScopes| - 1])
      ensures Visible() == PutVar(old(Visible()), f.name, f.id)
      ensures bound == UseType(f.typeName, Visible(), old(bound)).(inVarDec := false)
    {
      PutFlattens(varScopes, f.name, f.id);
      varScopes := Put(varScopes, f.name, f.id);
      VisitTypeUse(f.typeName);
      bound := bound.(inVarDec := false);
    }

    method VisitTypeChunk(ts: seq<TypeDec>)
      modifies this`typeScopes, this`bound
      ensures OnlyInnermost()
      ensures Visible() == PutAllTypes(ts, AddFirstTypes(ts, old(Visible()), {}))
      ensures bound == ResolveTypes(ts, AddFirstTypes(ts, old(Visible()), {}),
                old(bound).(redeclared := old(bound).redeclared + RepeatedTypes(ts, {})))
    {
      var i, seen := 0, {};
      while i < |ts|
        invariant 0 <= i <= |ts| && OnlyInnermost()
        invariant AddFirstTypes(ts[i..], Visible(), seen) == AddFirstTypes(ts, old(Visible()), {})
        invariant bound == old(bound).(redeclared := bound.redeclared)
        invariant bound.redeclared + RepeatedTypes(ts[i..], seen) == old(bound).redeclared + RepeatedTypes(ts, {})
      {
        assert ts[i..][1..] == ts[i + 1..];
        if ts[i].name in seen {
          assert seen + {ts[i].name} == seen;
          bound := bound.(redeclared := bound.redeclared + 1);
        } else {
          PutFlattens(typeScopes, ts[i].name, ts[i].id);
          typeScopes := Put(typeScopes, ts[i].name, ts[i].id);
          seen := seen + {ts[i].name};
        }
        i := i + 1;
      }
      ghost var n, b := Visible(), bound;
      i := 0;
      while i < |ts|
        invariant 0 <= i <= |ts| && OnlyInnermost()
        invariant PutAllTypes(ts[i..], Visible()) == PutAllTypes(ts, n)
        invariant ResolveTypes(ts[i..], Visible(), bound) == ResolveTypes(ts, n, b)
      {
        assert ts[i..][1..] == ts[i + 1..];
        PutFlattens(typeScopes, ts[i].name, ts[i].id);
        typeScopes := Put(typeScopes, ts[i].name, ts[i].id);
        VisitTy(ts[i].ty);
        i := i + 1;
      }
    }

    method VisitTy(ty: Ty)
      modifies this`bound
      ensures bound == ResolveTy(ty, Visible(), old(bound))
    {
      match ty {
        case NameTy(t) => VisitTypeUse(t);
        case ArrayTy(t) => VisitTypeUse(t);
        case RecordTy(fs) =>
          var i := 0;
          while i < |fs|
            invariant 0 <= i <= |fs|
            invariant ResolveFields(fs[i..], Visible(), bound) == ResolveFields(fs, Visible(), old(bound))
          {
            assert fs[i..][1..] == fs[i + 1..];
            VisitTypeUse(fs[i].1);
            i := i + 1;
          }
      }
    }
  }
}
