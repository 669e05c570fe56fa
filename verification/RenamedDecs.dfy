/** Which declarations are renamed, told from the tree alone, and that their final names are all
    different. */
module RenamedDecs {
  import opened Options
  import opened Ast
  import opened Nodes
  import opened Binding
  import opened Binder
  import opened Renaming
  import opened Rebinding
  import RenameBind

  /** A declaration, and whether it is to be renamed. */
  datatype Item = Item(id: Id, name: Symbol, renamed: bool)

  /** The declarations of e in the order of the text.  Variables, indices, formals and types are
      renamed, and functions that have a body and are not called `_main`. */
  function Items(e: Exp): seq<Item> {
    match e
    case IntExp(_) => []
    case VarExp(_, _) => []
    case OpExp(l, _, r) => Items(l) + Items(r)
    case SeqExp(es) => ItemsAll(es)
    case AssignExp(_, _, r) => Items(r)
    case IfExp(c, t, f) => Items(c) + Items(t) + if f.SomeExp? then Items(f.exp) else []
    case WhileExp(_, c, b) => Items(c) + Items(b)
    case ForExp(_, d, hi, b) => ItemsVar(d) + Items(hi) + Items(b)
    case BreakExp(_) => []
    case CallExp(_, _, args) => ItemsAll(args)
    case LetExp(sc) => ItemsScope(sc)
  }

  function ItemsAll(es: Exps): seq<Item> { if es.ENil? then [] else Items(es.head) + ItemsAll(es.tail) }

  function ItemsVar(d: VarDec): seq<Item> { [Item(d.id, d.name, true)] + Items(d.init) }

  function ItemsScope(sc: Scope): seq<Item> {
    match sc
    case In(b) => Items(b)
    case With(VarChunk(d), rest) => ItemsVar(d) + ItemsScope(rest)
    case With(FunctionChunk(ds), rest) => ItemsDecs(ds) + ItemsScope(rest)
    case With(TypeChunk(ts), rest) => ItemsTypes(ts) + ItemsScope(rest)
  }

  function ItemsDecs(ds: Decs): seq<Item> { if ds.DNil? then [] else ItemsDec(ds.head) + ItemsDecs(ds.tail) }

  function ItemsDec(d: FunctionDec): seq<Item> {
    [Item(d.id, d.name, d.body.SomeExp? && d.name != "_main")] + ItemsFormals(d.formals)
    + if d.body.SomeExp? then Items(d.body.exp) else []
  }

  function ItemsFormals(fs: seq<Formal>): seq<Item> {
    if fs == [] then [] else [Item(fs[0].id, fs[0].name, true)] + ItemsFormals(fs[1..])
  }

  function ItemsTypes(ts: seq<TypeDec>): seq<Item> {
    if ts == [] then [] else [Item(ts[0].id, ts[0].name, true)] + ItemsTypes(ts[1..])
  }

  /** The nodes of those that are to be renamed. */
  function ToRename(vs: seq<Item>): set<Id> { set v | v in vs && v.renamed :: v.id }

  lemma ToRenameCat(a: seq<Item>, b: seq<Item>)
    ensures ToRename(a + b) == ToRename(a) + ToRename(b)
  {}

  lemma ToRenameOne(v: Item)
    ensures ToRename([v]) == if v.renamed then {v.id} else {}
  {
    if v.renamed { assert v in [v]; }
  }

  // ----- exactly those are renamed -----

  lemma {:induction false} RenamedItems(e: Exp, l: Links, r: Renamed)
    ensures Rename(e, l, r).decs.Keys == r.decs.Keys + ToRename(Items(e))
    decreases e
  {
    hide ToRename;
    match e
    case IntExp(_) => NothingToRename();
    case VarExp(_, _) => NothingToRename();
    case BreakExp(_) => NothingToRename();
    case OpExp(a, _, b) =>
      RenamedItems(a, l, r);
      RenamedItems(b, l, Rename(a, l, r));
      ToRenameCat(Items(a), Items(b));
    case SeqExp(es) => RenamedAll(es, l, r);
    case AssignExp(id, _, v) => RenamedItems(v, l, Use(id, l, r));
    case IfExp(c, t, f) =>
      var r1 := Rename(c, l, r);
      RenamedItems(c, l, r);
      RenamedItems(t, l, r1);
      ToRenameCat(Items(c), Items(t));
      if f.SomeExp? { RenamedItems(f.exp, l, Rename(t, l, r1)); } else { NothingToRename(); }
      ToRenameCat(Items(c) + Items(t), if f.SomeExp? then Items(f.exp) else []);
    case WhileExp(_, c, b) =>
      RenamedItems(c, l, r);
      RenamedItems(b, l, Rename(c, l, r));
      ToRenameCat(Items(c), Items(b));
    case ForExp(_, d, hi, b) =>
      var r1 := RenameVarDec(d, l, r);
      RenamedVar(d, l, r);
      RenamedItems(hi, l, r1);
      RenamedItems(b, l, Rename(hi, l, r1));
      ToRenameCat(ItemsVar(d), Items(hi));
      ToRenameCat(ItemsVar(d) + Items(hi), Items(b));
    case CallExp(id, _, args) => RenamedAll(args, l, Use(id, l, r));
    case LetExp(sc) => RenamedScope(sc, l, r);
  }

  lemma NothingToRename()
    ensures ToRename([]) == {}
  {}

  lemma {:induction false} RenamedAll(es: Exps, l: Links, r: Renamed)
    ensures RenameAll(es, l, r).decs.Keys == r.decs.Keys + ToRename(ItemsAll(es))
    decreases es
  {
    hide ToRename;
    if es.ENil? {
      NothingToRename();
    } else {
      RenamedItems(es.head, l, r);
      RenamedAll(es.tail, l, Rename(es.head, l, r));
      ToRenameCat(Items(es.head), ItemsAll(es.tail));
    }
  }

  lemma {:induction false} RenamedVar(d: VarDec, l: Links, r: Renamed)
    ensures RenameVarDec(d, l, r).decs.Keys == r.decs.Keys + ToRename(ItemsVar(d))
    decreases d
  {
    hide ToRename;
    var v := Item(d.id, d.name, true);
    RenamedItems(d.init, l, RenameName(d.typeName, l, Declare(d.id, d.name, r)));
    ToRenameOne(v);
    ToRenameCat([v], Items(d.init));
  }

  lemma {:induction false} RenamedScope(sc: Scope, l: Links, r: Renamed)
    ensures RenameScope(sc, l, r).decs.Keys == r.decs.Keys + ToRename(ItemsScope(sc))
    decreases sc
  {
    hide ToRename;
    match sc
    case In(b) => RenamedItems(b, l, r);
    case With(VarChunk(d), rest) =>
      RenamedVar(d, l, r);
      RenamedScope(rest, l, RenameVarDec(d, l, r));
      ToRenameCat(ItemsVar(d), ItemsScope(rest));
    case With(FunctionChunk(ds), rest) =>
      RenamedDecs(ds, l, r);
      RenamedScope(rest, l, RenameDecs(ds, l, r));
      ToRenameCat(ItemsDecs(ds), ItemsScope(rest));
    case With(TypeChunk(ts), rest) =>
      RenamedTypes(ts, l, r);
      RenamedScope(rest, l, RenameTypes(ts, l, r));
      ToRenameCat(ItemsTypes(ts), ItemsScope(rest));
  }

  lemma {:induction false} RenamedDecs(ds: Decs, l: Links, r: Renamed)
    ensures RenameDecs(ds, l, r).decs.Keys == r.decs.Keys + ToRename(ItemsDecs(ds))
    decreases ds
  {
    hide ToRename;
    if ds.DNil? {
      NothingToRename();
    } else {
      RenamedDec(ds.head, l, r);
      RenamedDecs(ds.tail, l, RenameDec(ds.head, l, r));
      ToRenameCat(ItemsDec(ds.head), ItemsDecs(ds.tail));
    }
  }

  lemma {:induction false} RenamedDec(d: FunctionDec, l: Links, r: Renamed)
    ensures RenameDec(d, l, r).decs.Keys == r.decs.Keys + ToRename(ItemsDec(d))
    decreases d
  {
    hide ToRename;
    var v := Item(d.id, d.name, d.body.SomeExp? && d.name != "_main");
    var r1 := if Kept(d) then r else Declare(d.id, d.name, r);
    var r2 := RenameName(d.result, l, RenameFormals(d.formals, l, r1));
    ToRenameOne(v);
    RenamedFormals(d.formals, l, r1);
    ToRenameCat([v], ItemsFormals(d.formals));
    if d.body.SomeExp? { RenamedItems(d.body.exp, l, r2); } else { NothingToRename(); }
    ToRenameCat([v] + ItemsFormals(d.formals), if d.body.SomeExp? then Items(d.body.exp) else []);
  }

  lemma {:induction false} RenamedFormals(fs: seq<Formal>, l: Links, r: Renamed)
    ensures RenameFormals(fs, l, r).decs.Keys == r.decs.Keys + ToRename(ItemsFormals(fs))
    decreases |fs|
  {
    hide ToRename;
    if fs == [] {
      NothingToRename();
    } else {
      var v := Item(fs[0].id, fs[0].name, true);
      RenamedFormals(fs[1..], l, Use(fs[0].typeName.id, l, Declare(fs[0].id, fs[0].name, r)));
      ToRenameOne(v);
      ToRenameCat([v], ItemsFormals(fs[1..]));
    }
  }

  lemma {:induction false} FieldsKeepDecs(fs: seq<(Symbol, TypeName)>, l: Links, r: Renamed)
    ensures RenameFields(fs, l, r).decs == r.decs
    decreases |fs|
  {
    if fs != [] { FieldsKeepDecs(fs[1..], l, Use(fs[0].1.id, l, r)); }
  }

  lemma {:induction false} RenamedTypes(ts: seq<TypeDec>, l: Links, r: Renamed)
    ensures RenameTypes(ts, l, r).decs.Keys == r.decs.Keys + ToRename(ItemsTypes(ts))
    decreases |ts|
  {
    hide ToRename;
    if ts == [] {
      NothingToRename();
    } else {
      var v := Item(ts[0].id, ts[0].name, true);
      var r1 := Declare(ts[0].id, ts[0].name, r);
      if ts[0].ty.RecordTy? { FieldsKeepDecs(ts[0].ty.fields, l, r1); }
      RenamedTypes(ts[1..], l, RenameTy(ts[0].ty, l, r1));
      ToRenameOne(v);
      ToRenameCat([v], ItemsTypes(ts[1..]));
    }
  }

  // ----- distinct nodes -----

  /** No node declares twice, and all are among ids. */
  ghost predicate Once(vs: seq<Item>, ids: set<Id>) {
    (forall v | v in vs :: v.id in ids) && forall i, j | 0 <= i < j < |vs| :: vs[i].id != vs[j].id
  }

  lemma OnceCat(a: seq<Item>, b: seq<Item>, ids: set<Id>, ids': set<Id>)
    requires Once(a, ids) && Once(b, ids') && ids !! ids'
    ensures Once(a + b, ids + ids')
  {
    var c := a + b;
    forall i, j | 0 <= i < j < |c| ensures c[i].id != c[j].id {
      if i < |a| && j >= |a| { assert c[i] in a && c[j] in b; }
    }
  }

  lemma OnceMore(vs: seq<Item>, ids: set<Id>, ids': set<Id>)
    requires Once(vs, ids) && ids <= ids'
    ensures Once(vs, ids')
  {}

  lemma OnceOne(v: Item, ids: set<Id>)
    ensures Once([v], {v.id}) && Once([], ids)
  {}

  lemma {:induction false} ItemsOnce(e: Exp)
    requires Distinct(e)
    ensures Once(Items(e), OfExp(e))
    decreases e
  {
    hide Once;
    OnceOne(Item(Node(0), "", true), OfExp(e));
    match e
    case IntExp(_) =>
    case VarExp(_, _) =>
    case BreakExp(_) =>
    case OpExp(a, _, b) => ItemsOnce(a); ItemsOnce(b); OnceCat(Items(a), Items(b), OfExp(a), OfExp(b));
    case SeqExp(es) => AllOnce(es);
    case AssignExp(_, _, v) => ItemsOnce(v); OnceMore(Items(v), OfExp(v), OfExp(e));
    case IfExp(c, t, f) =>
      ItemsOnce(c);
      ItemsOnce(t);
      OnceCat(Items(c), Items(t), OfExp(c), OfExp(t));
      if f.SomeExp? {
        ItemsOnce(f.exp);
        OnceCat(Items(c) + Items(t), Items(f.exp), OfExp(c) + OfExp(t), OfExp(f.exp));
      } else {
        assert Items(c) + Items(t) + [] == Items(c) + Items(t) && OfExp(e) == OfExp(c) + OfExp(t);
      }
    case WhileExp(_, c, b) =>
      ItemsOnce(c);
      ItemsOnce(b);
      OnceCat(Items(c), Items(b), OfExp(c), OfExp(b));
      OnceMore(Items(e), OfExp(c) + OfExp(b), OfExp(e));
    case ForExp(_, d, hi, b) =>
      VarOnce(d);
      ItemsOnce(hi);
      ItemsOnce(b);
      OnceCat(ItemsVar(d), Items(hi), OfVarDec(d), OfExp(hi));
      OnceCat(ItemsVar(d) + Items(hi), Items(b), OfVarDec(d) + OfExp(hi), OfExp(b));
      OnceMore(Items(e), OfVarDec(d) + OfExp(hi) + OfExp(b), OfExp(e));
    case CallExp(_, _, args) => AllOnce(args); OnceMore(ItemsAll(args), OfExps(args), OfExp(e));
    case LetExp(sc) => ScopeOnce(sc);
  }

  lemma {:induction false} AllOnce(es: Exps)
    requires DistinctExps(es)
    ensures Once(ItemsAll(es), OfExps(es))
    decreases es
  {
    hide Once;
    if es.ENil? {
      OnceOne(Item(Node(0), "", true), {});
    } else {
      ItemsOnce(es.head);
      AllOnce(es.tail);
      OnceCat(Items(es.head), ItemsAll(es.tail), OfExp(es.head), OfExps(es.tail));
    }
  }

  lemma {:induction false} VarOnce(d: VarDec)
    requires DistinctVarDec(d)
    ensures Once(ItemsVar(d), OfVarDec(d))
    decreases d
  {
    hide Once;
    var v := Item(d.id, d.name, true);
    OnceOne(v, {});
    ItemsOnce(d.init);
    OnceCat([v], Items(d.init), {d.id}, OfExp(d.init));
    OnceMore(ItemsVar(d), {d.id} + OfExp(d.init), OfVarDec(d));
  }

  lemma {:induction false} ScopeOnce(sc: Scope)
    requires DistinctScope(sc)
    ensures Once(ItemsScope(sc), OfScope(sc))
    decreases sc
  {
    hide Once;
    match sc
    case In(b) => ItemsOnce(b);
    case With(VarChunk(d), rest) =>
      VarOnce(d);
      ScopeOnce(rest);
      OnceCat(ItemsVar(d), ItemsScope(rest), OfVarDec(d), OfScope(rest));
    case With(FunctionChunk(ds), rest) =>
      DecsOnce(ds);
      ScopeOnce(rest);
      OnceCat(ItemsDecs(ds), ItemsScope(rest), OfDecs(ds), OfScope(rest));
    case With(TypeChunk(ts), rest) =>
      TypesOnce(ts);
      ScopeOnce(rest);
      OnceCat(ItemsTypes(ts), ItemsScope(rest), OfTypes(ts), OfScope(rest));
  }

  lemma {:induction false} DecsOnce(ds: Decs)
    requires DistinctDecs(ds)
    ensures Once(ItemsDecs(ds), OfDecs(ds))
    decreases ds
  {
    hide Once;
    if ds.DNil? {
      OnceOne(Item(Node(0), "", true), {});
    } else {
      DecOnce(ds.head);
      DecsOnce(ds.tail);
      OnceCat(ItemsDec(ds.head), ItemsDecs(ds.tail), OfDec(ds.head), OfDecs(ds.tail));
    }
  }

  lemma {:induction false} DecOnce(d: FunctionDec)
    requires DistinctDec(d)
    ensures Once(ItemsDec(d), OfDec(d))
    decreases d
  {
    hide Once;
    var v := Item(d.id, d.name, d.body.SomeExp? && d.name != "_main");
    var own := [v] + ItemsFormals(d.formals);
    OnceOne(v, {});
    FormalsOnce(d.formals);
    OnceCat([v], ItemsFormals(d.formals), {d.id}, OfFormals(d.formals));
    if d.body.SomeExp? {
      ItemsOnce(d.body.exp);
      OnceCat(own, Items(d.body.exp), {d.id} + OfFormals(d.formals), OfExp(d.body.exp));
      OnceMore(ItemsDec(d), {d.id} + OfFormals(d.formals) + OfExp(d.body.exp), OfDec(d));
    } else {
      assert own + [] == own;
      OnceMore(own, {d.id} + OfFormals(d.formals), OfDec(d));
    }
  }

  lemma {:induction false} FormalsOnce(fs: seq<Formal>)
    requires DistinctFormals(fs)
    ensures Once(ItemsFormals(fs), OfFormals(fs))
    decreases |fs|
  {
    hide Once;
    OnceOne(Item(Node(0), "", true), {});
    if fs != [] {
      var v := Item(fs[0].id, fs[0].name, true);
      OnceOne(v, {});
      FormalsOnce(fs[1..]);
      OnceCat([v], ItemsFormals(fs[1..]), {v.id}, OfFormals(fs[1..]));
      OnceMore(ItemsFormals(fs), {v.id} + OfFormals(fs[1..]), OfFormals(fs));
    }
  }

  lemma {:induction false} TypesOnce(ts: seq<TypeDec>)
    requires DistinctTypes(ts)
    ensures Once(ItemsTypes(ts), OfTypes(ts))
    decreases |ts|
  {
    hide Once;
    OnceOne(Item(Node(0), "", true), {});
    if ts != [] {
      var v := Item(ts[0].id, ts[0].name, true);
      OnceOne(v, {});
      TypesOnce(ts[1..]);
      OnceCat([v], ItemsTypes(ts[1..]), {v.id}, OfTypes(ts[1..]));
      OnceMore(ItemsTypes(ts), {v.id} + OfTypes(ts[1..]), OfTypes(ts));
    }
  }

  // ----- the declarations of the renamed tree -----

  function Relabel(vs: seq<Item>, r: Renamed): (o: seq<Item>)
    ensures |o| == |vs| && forall i | 0 <= i < |vs| :: o[i] == vs[i].(name := NameOf(r.decs, vs[i].id, vs[i].name))
  {
    seq(|vs|, i requires 0 <= i < |vs| => vs[i].(name := NameOf(r.decs, vs[i].id, vs[i].name)))
  }

  lemma RelabelCat(a: seq<Item>, b: seq<Item>, r: Renamed)
    ensures Relabel(a + b, r) == Relabel(a, r) + Relabel(b, r)
  {}

  lemma RelabelNone(r: Renamed)
    ensures Relabel([], r) == []
  {}

  /** r renames exactly those that are to be renamed, none of them to `_main`. */
  predicate Fit(vs: seq<Item>, r: Renamed) {
    forall v | v in vs :: if v.renamed then v.id in r.decs && r.decs[v.id] != "_main" else v.id !in r.decs
  }

  lemma FitParts(a: seq<Item>, b: seq<Item>, r: Renamed)
    requires Fit(a + b, r)
    ensures Fit(a, r) && Fit(b, r)
  {
    forall v | v in a ensures v in a + b {}
    forall v | v in b ensures v in a + b {}
  }

  lemma {:induction false} ItemsApplied(e: Exp, r: Renamed)
    requires Fit(Items(e), r)
    ensures Items(Apply(e, r)) == Relabel(Items(e), r)
    decreases e
  {
    hide Fit, Relabel;
    RelabelNone(r);
    match e
    case IntExp(_) =>
    case VarExp(_, _) =>
    case BreakExp(_) =>
    case OpExp(a, _, b) => FitParts(Items(a), Items(b), r); ItemsApplied(a, r); ItemsApplied(b, r); RelabelCat(Items(a), Items(b), r);
    case SeqExp(es) => AllApplied(es, r);
    case AssignExp(_, _, v) => ItemsApplied(v, r);
    case IfExp(c, t, f) =>
      var x := if f.SomeExp? then Items(f.exp) else [];
      FitParts(Items(c) + Items(t), x, r);
      FitParts(Items(c), Items(t), r);
      ItemsApplied(c, r);
      ItemsApplied(t, r);
      if f.SomeExp? { ItemsApplied(f.exp, r); }
      RelabelCat(Items(c), Items(t), r);
      RelabelCat(Items(c) + Items(t), x, r);
    case WhileExp(_, c, b) => FitParts(Items(c), Items(b), r); ItemsApplied(c, r); ItemsApplied(b, r); RelabelCat(Items(c), Items(b), r);
    case ForExp(_, d, hi, b) =>
      FitParts(ItemsVar(d) + Items(hi), Items(b), r);
      FitParts(ItemsVar(d), Items(hi), r);
      VarApplied(d, r);
      ItemsApplied(hi, r);
      ItemsApplied(b, r);
      RelabelCat(ItemsVar(d), Items(hi), r);
      RelabelCat(ItemsVar(d) + Items(hi), Items(b), r);
    case CallExp(_, _, args) => AllApplied(args, r);
    case LetExp(sc) => ScopeApplied(sc, r);
  }

  lemma {:induction false} AllApplied(es: Exps, r: Renamed)
    requires Fit(ItemsAll(es), r)
    ensures ItemsAll(ApplyAll(es, r)) == Relabel(ItemsAll(es), r)
    decreases es
  {
    hide Fit, Relabel;
    RelabelNone(r);
    if es.ECons? {
      FitParts(Items(es.head), ItemsAll(es.tail), r);
      ItemsApplied(es.head, r);
      AllApplied(es.tail, r);
      RelabelCat(Items(es.head), ItemsAll(es.tail), r);
    }
  }

  lemma OneApplied(v: Item, rest: seq<Item>, r: Renamed)
    requires Fit([v] + rest, r)
    ensures Fit(rest, r) && Relabel([v] + rest, r) == [v.(name := NameOf(r.decs, v.id, v.name))] + Relabel(rest, r)
    ensures if v.renamed then v.id in r.decs && r.decs[v.id] != "_main" else v.id !in r.decs
  {
    assert v in [v] + rest;
    FitParts([v], rest, r);
    RelabelCat([v], rest, r);
  }

  lemma {:induction false} VarApplied(d: VarDec, r: Renamed)
    requires Fit(ItemsVar(d), r)
    ensures ItemsVar(ApplyVarDec(d, r)) == Relabel(ItemsVar(d), r)
    decreases d
  {
    hide Fit, Relabel;
    OneApplied(Item(d.id, d.name, true), Items(d.init), r);
    ItemsApplied(d.init, r);
  }

  lemma {:induction false} ScopeApplied(sc: Scope, r: Renamed)
    requires Fit(ItemsScope(sc), r)
    ensures ItemsScope(ApplyScope(sc, r)) == Relabel(ItemsScope(sc), r)
    decreases sc
  {
    hide Fit, Relabel;
    match sc
    case In(b) => ItemsApplied(b, r);
    case With(VarChunk(d), rest) =>
      FitParts(ItemsVar(d), ItemsScope(rest), r);
      VarApplied(d, r);
      ScopeApplied(rest, r);
      RelabelCat(ItemsVar(d), ItemsScope(rest), r);
    case With(FunctionChunk(ds), rest) =>
      FitParts(ItemsDecs(ds), ItemsScope(rest), r);
      DecsApplied(ds, r);
      ScopeApplied(rest, r);
      RelabelCat(ItemsDecs(ds), ItemsScope(rest), r);
    case With(TypeChunk(ts), rest) =>
      FitParts(ItemsTypes(ts), ItemsScope(rest), r);
      TypesApplied(ts, r);
      ScopeApplied(rest, r);
      RelabelCat(ItemsTypes(ts), ItemsScope(rest), r);
  }

  lemma {:induction false} DecsApplied(ds: Decs, r: Renamed)
    requires Fit(ItemsDecs(ds), r)
    ensures ItemsDecs(ApplyDecs(ds, r)) == Relabel(ItemsDecs(ds), r)
    decreases ds
  {
    hide Fit, Relabel;
    RelabelNone(r);
    if ds.DCons? {
      FitParts(ItemsDec(ds.head), ItemsDecs(ds.tail), r);
      DecApplied(ds.head, r);
      DecsApplied(ds.tail, r);
      RelabelCat(ItemsDec(ds.head), ItemsDecs(ds.tail), r);
    }
  }

  lemma {:induction false} DecApplied(d: FunctionDec, r: Renamed)
    requires Fit(ItemsDec(d), r)
    ensures ItemsDec(ApplyDec(d, r)) == Relabel(ItemsDec(d), r)
    decreases d
  {
    hide Fit, Relabel;
    RelabelNone(r);
    var v := Item(d.id, d.name, d.body.SomeExp? && d.name != "_main");
    var fs, body := ItemsFormals(d.formals), if d.body.SomeExp? then Items(d.body.exp) else [];
    assert ItemsDec(d) == [v] + (fs + body);
    OneApplied(v, fs + body, r);
    FitParts(fs, body, r);
    FormalsApplied(d.formals, r);
    if d.body.SomeExp? { ItemsApplied(d.body.exp, r); }
    RelabelCat(fs, body, r);
    var v' := v.(name := NameOf(r.decs, d.id, d.name));
    assert v' == Item(d.id, ApplyDec(d, r).name, d.body.SomeExp? && ApplyDec(d, r).name != "_main");
    assert ItemsDec(ApplyDec(d, r)) == [v'] + (Relabel(fs, r) + Relabel(body, r));
  }

  lemma {:induction false} FormalsApplied(fs: seq<Formal>, r: Renamed)
    requires Fit(ItemsFormals(fs), r)
    ensures ItemsFormals(ApplyFormals(fs, r)) == Relabel(ItemsFormals(fs), r)
    decreases |fs|
  {
    hide Fit, Relabel;
    RelabelNone(r);
    if fs != [] {
      OneApplied(Item(fs[0].id, fs[0].name, true), ItemsFormals(fs[1..]), r);
      FormalsApplied(fs[1..], r);
      assert ApplyFormals(fs, r)[1..] == ApplyFormals(fs[1..], r);
    }
  }

  lemma {:induction false} TypesApplied(ts: seq<TypeDec>, r: Renamed)
    requires Fit(ItemsTypes(ts), r)
    ensures ItemsTypes(ApplyTypes(ts, r)) == Relabel(ItemsTypes(ts), r)
    decreases |ts|
  {
    hide Fit, Relabel;
    RelabelNone(r);
    if ts != [] {
      OneApplied(Item(ts[0].id, ts[0].name, true), ItemsTypes(ts[1..]), r);
      TypesApplied(ts[1..], r);
      assert ApplyTypes(ts, r)[1..] == ApplyTypes(ts[1..], r);
    }
  }

  // ----- declarations and events -----

  /** The renamer meets each of them as a declaration. */
  ghost predicate Met(vs: seq<Item>, evs: seq<Ev>) {
    forall v | v in vs && v.renamed :: Decl(v.id, v.name) in evs
  }

  lemma MetCat(a: seq<Item>, b: seq<Item>, x: seq<Ev>, y: seq<Ev>)
    requires Met(a, x) && Met(b, y)
    ensures Met(a + b, x + y)
  {}

  lemma MetMore(vs: seq<Item>, x: seq<Ev>, y: seq<Ev>)
    requires Met(vs, y)
    ensures Met(vs, x + y) && Met(vs, y + x)
  {}

  lemma MetOne(v: Item, evs: seq<Ev>)
    ensures Met([v], [Decl(v.id, v.name)] + evs) && Met([], evs) && (!v.renamed ==> Met([v], evs))
  {
    assert Decl(v.id, v.name) in [Decl(v.id, v.name)] + evs;
  }

  lemma {:induction false} ItemsMet(e: Exp)
    ensures Met(Items(e), Events(e))
    decreases e
  {
    hide Met;
    MetOne(Item(Node(0), "", true), Events(e));
    match e
    case IntExp(_) =>
    case VarExp(_, _) =>
    case BreakExp(_) =>
    case OpExp(a, _, b) => ItemsMet(a); ItemsMet(b); MetCat(Items(a), Items(b), Events(a), Events(b));
    case SeqExp(es) => AllMet(es);
    case AssignExp(id, x, v) => ItemsMet(v); MetMore(Items(v), [UseOf(id, x, false)], Events(v));
    case IfExp(c, t, f) =>
      var vs, evs := if f.SomeExp? then Items(f.exp) else [], if f.SomeExp? then Events(f.exp) else [];
      ItemsMet(c);
      ItemsMet(t);
      if f.SomeExp? { ItemsMet(f.exp); } else { MetOne(Item(Node(0), "", true), evs); }
      MetCat(Items(c), Items(t), Events(c), Events(t));
      MetCat(Items(c) + Items(t), vs, Events(c) + Events(t), evs);
    case WhileExp(_, c, b) => ItemsMet(c); ItemsMet(b); MetCat(Items(c), Items(b), Events(c), Events(b));
    case ForExp(_, d, hi, b) =>
      VarMet(d);
      ItemsMet(hi);
      ItemsMet(b);
      MetCat(ItemsVar(d), Items(hi), EventsVarDec(d), Events(hi));
      MetCat(ItemsVar(d) + Items(hi), Items(b), EventsVarDec(d) + Events(hi), Events(b));
    case CallExp(id, f, args) => AllMet(args); MetMore(ItemsAll(args), [UseOf(id, f, false)], EventsAll(args));
    case LetExp(sc) => ScopeMet(sc);
  }

  lemma {:induction false} AllMet(es: Exps)
    ensures Met(ItemsAll(es), EventsAll(es))
    decreases es
  {
    hide Met;
    MetOne(Item(Node(0), "", true), EventsAll(es));
    if es.ECons? {
      ItemsMet(es.head);
      AllMet(es.tail);
      MetCat(Items(es.head), ItemsAll(es.tail), Events(es.head), EventsAll(es.tail));
    }
  }

  lemma {:induction false} VarMet(d: VarDec)
    ensures Met(ItemsVar(d), EventsVarDec(d))
    decreases d
  {
    hide Met;
    var v := Item(d.id, d.name, true);
    ItemsMet(d.init);
    MetOne(v, NameEv(d.typeName));
    MetCat([v], Items(d.init), [Decl(d.id, d.name)] + NameEv(d.typeName), Events(d.init));
  }

  lemma {:induction false} ScopeMet(sc: Scope)
    ensures Met(ItemsScope(sc), EventsScope(sc))
    decreases sc
  {
    hide Met;
    match sc
    case In(b) => ItemsMet(b);
    case With(VarChunk(d), rest) =>
      VarMet(d);
      ScopeMet(rest);
      MetCat(ItemsVar(d), ItemsScope(rest), EventsVarDec(d), EventsScope(rest));
    case With(FunctionChunk(ds), rest) =>
      var again := [Again(Repeats(ds, {}))];
      DecsMet(ds);
      ScopeMet(rest);
      MetMore(ItemsDecs(ds), again, EventsDecs(ds));
      MetCat(ItemsDecs(ds), ItemsScope(rest), again + EventsDecs(ds), EventsScope(rest));
    case With(TypeChunk(ts), rest) =>
      var again := [Again(RepeatedTypes(ts, {}))];
      TypesMet(ts);
      ScopeMet(rest);
      MetMore(ItemsTypes(ts), again, EventsTypes(ts));
      MetCat(ItemsTypes(ts), ItemsScope(rest), again + EventsTypes(ts), EventsScope(rest));
  }

  lemma {:induction false} DecsMet(ds: Decs)
    ensures Met(ItemsDecs(ds), EventsDecs(ds))
    decreases ds
  {
    hide Met;
    MetOne(Item(Node(0), "", true), EventsDecs(ds));
    if ds.DCons? {
      DecMet(ds.head);
      DecsMet(ds.tail);
      MetCat(ItemsDec(ds.head), ItemsDecs(ds.tail), EventsDec(ds.head), EventsDecs(ds.tail));
    }
  }

  lemma {:induction false} DecMet(d: FunctionDec)
    ensures Met(ItemsDec(d), EventsDec(d))
    decreases d
  {
    hide Met;
    var v := Item(d.id, d.name, d.body.SomeExp? && d.name != "_main");
    var own := [if Kept(d) then Keep(d.id, d.name) else Decl(d.id, d.name)];
    var again, fs, res := [Again(RepeatedFormals(d.formals, {}))], EventsFormals(d.formals), NameEv(d.result);
    var vs, body := if d.body.SomeExp? then Items(d.body.exp) else [], if d.body.SomeExp? then Events(d.body.exp) else [];
    MetOne(v, again);
    if Kept(d) { MetOne(v, own + again); }
    FormalsMet(d.formals);
    MetCat([v], ItemsFormals(d.formals), own + again, fs);
    MetMore([v] + ItemsFormals(d.formals), res, own + again + fs);
    if d.body.SomeExp? { ItemsMet(d.body.exp); } else { MetOne(v, body); }
    MetCat([v] + ItemsFormals(d.formals), vs, own + again + fs + res, body);
  }

  lemma {:induction false} FormalsMet(fs: seq<Formal>)
    ensures Met(ItemsFormals(fs), EventsFormals(fs))
    decreases |fs|
  {
    hide Met;
    MetOne(Item(Node(0), "", true), EventsFormals(fs));
    if fs != [] {
      var v := Item(fs[0].id, fs[0].name, true);
      FormalsMet(fs[1..]);
      MetOne(v, TypeEv(fs[0].typeName));
      MetCat([v], ItemsFormals(fs[1..]), [Decl(v.id, v.name)] + TypeEv(fs[0].typeName), EventsFormals(fs[1..]));
    }
  }

  lemma {:induction false} TypesMet(ts: seq<TypeDec>)
    ensures Met(ItemsTypes(ts), EventsTypes(ts))
    decreases |ts|
  {
    hide Met;
    MetOne(Item(Node(0), "", true), EventsTypes(ts));
    if ts != [] {
      var v := Item(ts[0].id, ts[0].name, true);
      TypesMet(ts[1..]);
      MetOne(v, EventsTy(ts[0].ty));
      MetCat([v], ItemsTypes(ts[1..]), [Decl(v.id, v.name)] + EventsTy(ts[0].ty), EventsTypes(ts[1..]));
    }
  }

  // ----- the result -----

  /** Exactly the declarations that are to be renamed are renamed, each after its old name, and every
      other one keeps its name; in the renamed tree the names of the renamed ones are all different. */
  lemma RenamedExactly(e: Exp, l: Links)
    requires Distinct(e) && Linked(e, RenameBind.CLOSED, l)
    ensures var r := Rename(e, l, RenameBind.START); var vs, vs' := Items(e), Items(Apply(e, r));
      && r.decs.Keys == ToRename(vs) && |vs'| == |vs|
      && (forall i | 0 <= i < |vs| :: vs'[i].id == vs[i].id && vs'[i].renamed == vs[i].renamed)
      && (forall i | 0 <= i < |vs| && !vs[i].renamed :: vs'[i].name == vs[i].name)
      && (forall i | 0 <= i < |vs| && vs[i].renamed :: NewFor(vs'[i].name, vs[i].name))
      && (forall i, j | 0 <= i < j < |vs| && vs[i].renamed && vs[j].renamed :: vs'[i].name != vs'[j].name)
  {
    hide Linked, Distinct, Rename, Items, Apply;
    var r, vs := Rename(e, l, RenameBind.START), Items(e);
    RenamedItems(e, l, RenameBind.START);
    ItemsOnce(e);
    RenameBind.FinalNames(e, l);
    FitsRenamed(vs, OfExp(e), r);
    ItemsApplied(e, r);
    var vs' := Relabel(vs, r);
    ItemsMet(e);
    forall i | 0 <= i < |vs| && vs[i].renamed ensures NewFor(vs'[i].name, vs[i].name) {
      assert vs[i] in vs && Decl(vs[i].id, vs[i].name) in Events(e);
    }
    forall i, j | 0 <= i < j < |vs| && vs[i].renamed && vs[j].renamed ensures vs'[i].name != vs'[j].name {
      assert vs[i] in vs && vs[j] in vs;
    }
  }

  lemma OnceSame(vs: seq<Item>, ids: set<Id>)
    requires Once(vs, ids)
    ensures forall v, w | v in vs && w in vs && v.id == w.id :: v == w
  {}

  lemma FitsRenamed(vs: seq<Item>, ids: set<Id>, r: Renamed)
    requires r.decs.Keys == ToRename(vs) && Once(vs, ids) && Unique(r)
    ensures Fit(vs, r) && forall v | v in vs && v.renamed :: v.id in r.decs
  {
    OnceSame(vs, ids);
    forall v | v in vs ensures if v.renamed then v.id in r.decs && r.decs[v.id] != "_main" else v.id !in r.decs {
      if v.renamed { NotMain(v.id, r); }
    }
  }

  lemma NotMain(id: Id, r: Renamed)
    requires Unique(r) && id in r.decs
    ensures r.decs[id] != "_main"
  {
    var x, k :| r.decs[id] == NewName(x, k);
    NewNameUnlike(x, k);
  }
}
