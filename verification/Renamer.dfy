/** Unique names: what the renamer writes into declarations and uses, in the order it visits them,
    and the renamer itself, which overwrites the names in place. */
module Renaming {
  import opened Options
  import opened Ast
  import opened Nodes

  /** The names written so far, of declarations and of uses, and the number for the next one. */
  datatype Renamed = Renamed(decs: map<Id, Symbol>, uses: map<Id, Symbol>, next: nat)

  function Decimal(n: nat): (s: string)
    ensures s != [] && forall i | 0 <= i < |s| :: '0' <= s[i] <= '9'
  {
    var digit := ['0' + (n % 10) as char];
    if n < 10 then digit else Decimal(n / 10) + digit
  }

  function NewName(x: Symbol, n: nat): Symbol { x + "_" + Decimal(n) }

  function Declare(id: Id, x: Symbol, r: Renamed): Renamed {
    r.(decs := r.decs[id := NewName(x, r.next)], next := r.next + 1)
  }

  /** A use gets the name its definition has now. */
  function Use(id: Id, l: Links, r: Renamed): Renamed {
    if id in l && l[id] in r.decs then r.(uses := r.uses[id := r.decs[l[id]]]) else r
  }

  function RenameName(t: Option<TypeName>, l: Links, r: Renamed): Renamed {
    if t.Some? then Use(t.value.id, l, r) else r
  }

  function Rename(e: Exp, l: Links, r: Renamed): Renamed {
    match e
    case IntExp(_) => r
    case VarExp(id, _) => Use(id, l, r)
    case OpExp(a, _, b) => Rename(b, l, Rename(a, l, r))
    case SeqExp(es) => RenameAll(es, l, r)
    case AssignExp(id, _, v) => Rename(v, l, Use(id, l, r))
    case IfExp(c, t, f) =>
      var r' := Rename(t, l, Rename(c, l, r));
      if f.SomeExp? then Rename(f.exp, l, r') else r'
    case WhileExp(_, c, b) => Rename(b, l, Rename(c, l, r))
    case ForExp(_, d, hi, b) => Rename(b, l, Rename(hi, l, RenameVarDec(d, l, r)))
    case BreakExp(_) => r
    case CallExp(id, _, args) => RenameAll(args, l, Use(id, l, r))
    case LetExp(sc) => RenameScope(sc, l, r)
  }

  function RenameAll(es: Exps, l: Links, r: Renamed): Renamed {
    if es.ENil? then r else RenameAll(es.tail, l, Rename(es.head, l, r))
  }

  function RenameVarDec(d: VarDec, l: Links, r: Renamed): Renamed {
    Rename(d.init, l, RenameName(d.typeName, l, Declare(d.id, d.name, r)))
  }

  function RenameScope(sc: Scope, l: Links, r: Renamed): Renamed {
    match sc
    case In(b) => Rename(b, l, r)
    case With(VarChunk(d), rest) => RenameScope(rest, l, RenameVarDec(d, l, r))
    case With(FunctionChunk(ds), rest) => RenameScope(rest, l, RenameDecs(ds, l, r))
    case With(TypeChunk(ts), rest) => RenameScope(rest, l, RenameTypes(ts, l, r))
  }

  /** Primitives and `_main` keep their names. */
  predicate Kept(d: FunctionDec) { d.body.NoExp? || d.name == "_main" }

  function RenameFormals(fs: seq<Formal>, l: Links, r: Renamed): Renamed {
    if fs == [] then r
    else RenameFormals(fs[1..], l, Use(fs[0].typeName.id, l, Declare(fs[0].id, fs[0].name, r)))
  }

  function RenameDec(d: FunctionDec, l: Links, r: Renamed): Renamed {
    var r1 := if Kept(d) then r else Declare(d.id, d.name, r);
    var r2 := RenameName(d.result, l, RenameFormals(d.formals, l, r1));
    if d.body.SomeExp? then Rename(d.body.exp, l, r2) else r2
  }

  function RenameDecs(ds: Decs, l: Links, r: Renamed): Renamed {
    if ds.DNil? then r else RenameDecs(ds.tail, l, RenameDec(ds.head, l, r))
  }

  function RenameFields(fs: seq<(Symbol, TypeName)>, l: Links, r: Renamed): Renamed {
    if fs == [] then r else RenameFields(fs[1..], l, Use(fs[0].1.id, l, r))
  }

  function RenameTy(ty: Ty, l: Links, r: Renamed): Renamed {
    match ty
    case NameTy(t) => Use(t.id, l, r)
    case RecordTy(fs) => RenameFields(fs, l, r)
    case ArrayTy(t) => Use(t.id, l, r)
  }

  function RenameTypes(ts: seq<TypeDec>, l: Links, r: Renamed): Renamed {
    if ts == [] then r else RenameTypes(ts[1..], l, RenameTy(ts[0].ty, l, Declare(ts[0].id, ts[0].name, r)))
  }

  // ----- the tree with its new names -----

  function NameOf(m: map<Id, Symbol>, id: Id, x: Symbol): Symbol { if id in m then m[id] else x }

  function ApplyType(t: TypeName, r: Renamed): TypeName { t.(name := NameOf(r.uses, t.id, t.name)) }

  function ApplyName(t: Option<TypeName>, r: Renamed): Option<TypeName> {
    if t.Some? then Some(ApplyType(t.value, r)) else None
  }

  function Apply(e: Exp, r: Renamed): Exp {
    match e
    case IntExp(_) => e
    case VarExp(id, x) => VarExp(id, NameOf(r.uses, id, x))
    case OpExp(a, op, b) => OpExp(Apply(a, r), op, Apply(b, r))
    case SeqExp(es) => SeqExp(ApplyAll(es, r))
    case AssignExp(id, x, v) => AssignExp(id, NameOf(r.uses, id, x), Apply(v, r))
    case IfExp(c, t, f) => IfExp(Apply(c, r), Apply(t, r), if f.SomeExp? then SomeExp(Apply(f.exp, r)) else NoExp)
    case WhileExp(id, c, b) => WhileExp(id, Apply(c, r), Apply(b, r))
    case ForExp(id, d, hi, b) => ForExp(id, ApplyVarDec(d, r), Apply(hi, r), Apply(b, r))
    case BreakExp(_) => e
    case CallExp(id, f, args) => CallExp(id, NameOf(r.uses, id, f), ApplyAll(args, r))
    case LetExp(sc) => LetExp(ApplyScope(sc, r))
  }

  function ApplyAll(es: Exps, r: Renamed): Exps {
    if es.ENil? then ENil else ECons(Apply(es.head, r), ApplyAll(es.tail, r))
  }

  function ApplyVarDec(d: VarDec, r: Renamed): VarDec {
    VarDec(d.id, NameOf(r.decs, d.id, d.name), ApplyName(d.typeName, r), Apply(d.init, r))
  }

  function ApplyScope(sc: Scope, r: Renamed): Scope {
    match sc
    case In(b) => In(Apply(b, r))
    case With(VarChunk(d), rest) => With(VarChunk(ApplyVarDec(d, r)), ApplyScope(rest, r))
    case With(FunctionChunk(ds), rest) => With(FunctionChunk(ApplyDecs(ds, r)), ApplyScope(rest, r))
    case With(TypeChunk(ts), rest) => With(TypeChunk(ApplyTypes(ts, r)), ApplyScope(rest, r))
  }

  function ApplyFormals(fs: seq<Formal>, r: Renamed): (o: seq<Formal>)
    ensures |o| == |fs|
  {
    if fs == [] then []
    else [Formal(fs[0].id, NameOf(r.decs, fs[0].id, fs[0].name), ApplyType(fs[0].typeName, r))] + ApplyFormals(fs[1..], r)
  }

  function ApplyDec(d: FunctionDec, r: Renamed): FunctionDec {
    FunctionDec(d.id, NameOf(r.decs, d.id, d.name), ApplyFormals(d.formals, r), ApplyName(d.result, r),
                if d.body.SomeExp? then SomeExp(Apply(d.body.exp, r)) else NoExp)
  }

  function ApplyDecs(ds: Decs, r: Renamed): Decs {
    if ds.DNil? then DNil else DCons(ApplyDec(ds.head, r), ApplyDecs(ds.tail, r))
  }

  function ApplyFields(fs: seq<(Symbol, TypeName)>, r: Renamed): seq<(Symbol, TypeName)> {
    if fs == [] then [] else [(fs[0].0, ApplyType(fs[0].1, r))] + ApplyFields(fs[1..], r)
  }

  function ApplyTy(ty: Ty, r: Renamed): Ty {
    match ty
    case NameTy(t) => NameTy(ApplyType(t, r))
    case RecordTy(fs) => RecordTy(ApplyFields(fs, r))
    case ArrayTy(t) => ArrayTy(ApplyType(t, r))
  }

  function ApplyTypes(ts: seq<TypeDec>, r: Renamed): seq<TypeDec> {
    if ts == [] then []
    else [TypeDec(ts[0].id, NameOf(r.decs, ts[0].id, ts[0].name), ApplyTy(ts[0].ty, r))] + ApplyTypes(ts[1..], r)
  }

  // ----- new names are all different -----

  lemma DecimalInjective(i: nat, j: nat)
    requires Decimal(i) == Decimal(j)
    ensures i == j
  {
    var s, t := Decimal(i), Decimal(j);
    assert s[|s| - 1] == '0' + (i % 10) as char && t[|t| - 1] == '0' + (j % 10) as char;
    if i >= 10 {
      assert s[..|s| - 1] == Decimal(i / 10);
      if j >= 10 {
        assert t[..|t| - 1] == Decimal(j / 10);
        DecimalInjective(i / 10, j / 10);
      }
    }
  }

  /** The number that digits stand for. */
  function Value(s: string): nat
    requires forall i | 0 <= i < |s| :: '0' <= s[i] <= '9'
  {
    if s == [] then 0 else Value(s[..|s| - 1]) * 10 + (s[|s| - 1] - '0') as nat
  }

  /** A number is written in base 10, without leading zeros. */
  lemma {:induction false} DecimalValue(n: nat)
    ensures Value(Decimal(n)) == n && (n > 0 ==> Decimal(n)[0] != '0')
    decreases n
  {
    var s := Decimal(n);
    assert s[|s| - 1] == '0' + (n % 10) as char;
    if n >= 10 {
      assert s[..|s| - 1] == Decimal(n / 10);
      DecimalValue(n / 10);
    } else {
      assert s[..|s| - 1] == [];
    }
  }

  /** A new name is the old one, an underscore and the number. */
  lemma NewNameForm(x: Symbol, n: nat)
    ensures var s := NewName(x, n); |s| > |x| && s[..|x|] == x && s[|x|] == '_' && s[|x| + 1..] == Decimal(n)
  {}

  /** The number in a new name can be read off its end. */
  lemma NewNameInjective(x: Symbol, i: nat, y: Symbol, j: nat)
    requires NewName(x, i) == NewName(y, j)
    ensures x == y && i == j
  {
    var s, a, b := NewName(x, i), Decimal(i), Decimal(j);
    assert s[|x|] == '_' && s[|x| + 1..] == a && s[|y|] == '_' && s[|y| + 1..] == b;
    forall k | |x| < k < |s| ensures s[k] != '_' { assert s[k] == a[k - |x| - 1]; }
    forall k | |y| < k < |s| ensures s[k] != '_' { assert s[k] == b[k - |y| - 1]; }
    assert s[..|x|] == x && s[..|y|] == y;
    DecimalInjective(i, j);
  }

  /** A new name ends in a digit, so it is none of these. */
  lemma NewNameUnlike(x: Symbol, n: nat)
    ensures NewName(x, n) !in {"_lo", "_hi", "_main", "int", "string"} && NewName(x, n) != x
  {
    var s := NewName(x, n);
    assert s[|s| - 1] == Decimal(n)[|Decimal(n)| - 1];
  }

  ghost predicate Numbered(s: Symbol, n: nat) { exists x, k: nat :: k < n && s == NewName(x, k) }

  /** Declarations have numbered names, all different. */
  ghost predicate Unique(r: Renamed) {
    && (forall d | d in r.decs :: Numbered(r.decs[d], r.next))
    && (forall c, d | c in r.decs && d in r.decs && r.decs[c] == r.decs[d] :: c == d)
  }

  lemma DeclareUnique(id: Id, x: Symbol, r: Renamed)
    requires Unique(r) && id !in r.decs
    ensures Unique(Declare(id, x, r))
  {
    var r' := Declare(id, x, r);
    forall d | d in r'.decs ensures Numbered(r'.decs[d], r'.next) {
      if d != id {
        var y, k: nat :| k < r.next && r.decs[d] == NewName(y, k);
        assert k < r'.next;
      }
    }
    forall d | d in r.decs ensures r.decs[d] != NewName(x, r.next) {
      var y, k: nat :| k < r.next && r.decs[d] == NewName(y, k);
      if r.decs[d] == NewName(x, r.next) { NewNameInjective(y, k, x, r.next); }
    }
  }

  // ----- the renamer -----

  class Renamer {
    const links: Links
    var uniqueNumber: nat
    var decNames: map<Id, Symbol>
    var useNames: map<Id, Symbol>

    constructor (links: Links)
      ensures this.links == links && Now() == Renamed(map[], map[], 0)
    {
      this.links := links;
      uniqueNumber, decNames, useNames := 0, map[], map[];
    }

    ghost function Now(): Renamed
      reads this
    {
      Renamed(decNames, useNames, uniqueNumber)
    }

    /** `name_set` of a declaration. */
    method SetDecName(id: Id, oldName: Symbol)
      modifies this
      ensures Now() == Declare(id, oldName, old(Now()))
    {
      var newName := oldName + "_" + Decimal(uniqueNumber);
      uniqueNumber := uniqueNumber + 1;
      decNames := decNames[id := newName];
    }

    /** `name_set` of a use, from its definition.  A definition not renamed (yet) has its old name,
        which is the one the use has. */
    method SetUseName(id: Id)
      modifies this
      ensures Now() == Use(id, links, old(Now()))
    {
      if id in links && links[id] in decNames { useNames := useNames[id := decNames[links[id]]]; }
    }

    method VisitName(t: Option<TypeName>)
      modifies this
      ensures Now() == RenameName(t, links, old(Now()))
    {
      if t.Some? { SetUseName(t.value.id); }
    }

    method Visit(e: Exp)
      modifies this
      ensures Now() == Rename(e, links, old(Now()))
      decreases e
    {
      match e {
        case IntExp(_) =>
        case BreakExp(_) =>
        case VarExp(id, _) => SetUseName(id);
        case OpExp(a, _, b) =>
          Visit(a);
          Visit(b);
        case SeqExp(es) => VisitAll(es);
        case AssignExp(id, _, v) =>
          SetUseName(id);
          Visit(v);
        case IfExp(c, t, f) =>
          Visit(c);
          Visit(t);
          if f.SomeExp? { Visit(f.exp); }
        case WhileExp(_, c, b) =>
          Visit(c);
          Visit(b);
        case ForExp(_, d, hi, b) =>
          VisitVarDec(d);
          Visit(hi);
          Visit(b);
        case CallExp(id, _, args) =>
          SetUseName(id);
          VisitAll(args);
        case LetExp(sc) => VisitScope(sc);
      }
    }

    method VisitAll(es: Exps)
      modifies this
      ensures Now() == RenameAll(es, links, old(Now()))
      decreases es
    {
      var rest := es;
      while rest.ECons?
        invariant es nonincreases to rest
        invariant RenameAll(rest, links, Now()) == RenameAll(es, links, old(Now()))
        decreases rest
      {
        Visit(rest.head);
        rest := rest.tail;
      }
    }

    method VisitVarDec(d: VarDec)
      modifies this
      ensures Now() == RenameVarDec(d, links, old(Now()))
      decreases d
    {
      SetDecName(d.id, d.name);
      VisitName(d.typeName);
      Visit(d.init);
    }

    method VisitScope(sc: Scope)
      modifies this
      ensures Now() == RenameScope(sc, links, old(Now()))
      decreases sc
    {
      match sc {
        case In(b) => Visit(b);
        case With(c, rest) =>
          match c {
            case VarChunk(d) => VisitVarDec(d);
            case FunctionChunk(ds) => VisitDecs(ds);
            case TypeChunk(ts) => VisitTypes(ts);
          }
          VisitScope(rest);
      }
    }

    method VisitFormals(fs: seq<Formal>)
      modifies this
      ensures Now() == RenameFormals(fs, links, old(Now()))
    {
      var i := 0;
      assert fs[0..] == fs;
      while i < |fs|
        invariant i <= |fs| && RenameFormals(fs[i..], links, Now()) == RenameFormals(fs, links, old(Now()))
      {
        SetDecName(fs[i].id, fs[i].name);
        SetUseName(fs[i].typeName.id);
        assert fs[i..][1..] == fs[i + 1..];
        i := i + 1;
      }
    }

    method VisitDec(d: FunctionDec)
      modifies this
      ensures Now() == RenameDec(d, links, old(Now()))
      decreases d
    {
      if d.body.SomeExp? && d.name != "_main" { SetDecName(d.id, d.name); }
      VisitFormals(d.formals);
      VisitName(d.result);
      if d.body.SomeExp? { Visit(d.body.exp); }
    }

    method VisitDecs(ds: Decs)
      modifies this
      ensures Now() == RenameDecs(ds, links, old(Now()))
      decreases ds
    {
      var rest := ds;
      while rest.DCons?
        invariant ds nonincreases to rest
        invariant RenameDecs(rest, links, Now()) == RenameDecs(ds, links, old(Now()))
        decreases rest
      {
        VisitDec(rest.head);
        rest := rest.tail;
      }
    }

    method VisitTy(ty: Ty)
      modifies this
      ensures Now() == RenameTy(ty, links, old(Now()))
    {
      match ty {
        case NameTy(t) => SetUseName(t.id);
        case ArrayTy(t) => SetUseName(t.id);
        case RecordTy(fs) =>
          var i := 0;
          assert fs[0..] == fs;
          while i < |fs|
            invariant i <= |fs| && RenameFields(fs[i..], links, Now()) == RenameFields(fs, links, old(Now()))
          {
            SetUseName(fs[i].1.id);
            assert fs[i..][1..] == fs[i + 1..];
            i := i + 1;
          }
      }
    }

    method VisitTypes(ts: seq<TypeDec>)
      modifies this
      ensures Now() == RenameTypes(ts, links, old(Now()))
    {
      var i := 0;
      assert ts[0..] == ts;
      while i < |ts|
        invariant i <= |ts| && RenameTypes(ts[i..], links, Now()) == RenameTypes(ts, links, old(Now()))
      {
        SetDecName(ts[i].id, ts[i].name);
        VisitTy(ts[i].ty);
        assert ts[i..][1..] == ts[i + 1..];
        i := i + 1;
      }
    }
  }
}
