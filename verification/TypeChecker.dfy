/** The part of the type checker that protects `for` indices: a set of read-only declarations,
    grown on entering a loop body and shrunk on leaving it. */
module TypeChecker {
  import opened Options
  import opened Ast
  import opened Nodes
  import opened Binder
  import opened Binding
  import opened ReadOnly

  function Vars(m: Marks): map<Symbol, Id> {
    match m
    case MEmpty => map[]
    case MVar(id, x, _, rest) => Vars(rest)[x := id]
    case MFun(_, rest) => Vars(rest)
  }

  function MarkIds(m: Marks): set<Id> {
    match m
    case MEmpty => {}
    case MVar(id, _, _, rest) => {id} + MarkIds(rest)
    case MFun(_, rest) => MarkIds(rest)
  }

  /** The read-only set says of the declarations in scope what the marks say. */
  ghost predicate Agree(m: Marks, readOnly: set<Id>) {
    match m
    case MEmpty => true
    case MVar(id, _, ro, rest) => (ro <==> id in readOnly) && Agree(rest, readOnly)
    case MFun(_, rest) => Agree(rest, readOnly)
  }

  lemma AgreeMarked(m: Marks, readOnly: set<Id>, x: Symbol)
    requires Agree(m, readOnly)
    ensures Marked(m, x) <==> x in Vars(m) && Vars(m)[x] in readOnly
  {}

  lemma AgreeGrow(m: Marks, readOnly: set<Id>, id: Id)
    requires Agree(m, readOnly) && id !in MarkIds(m)
    ensures Agree(m, readOnly + {id})
  {}

  /** The state a tree is checked in: its names are linked, its nodes are new. */
  ghost predicate Within(m: Marks, n: Names, readOnly: set<Id>, nodes: set<Id>) {
    n.vars == Vars(m) && Agree(m, readOnly) && nodes !! MarkIds(m) + readOnly
  }

  class Checker {
    const links: Links
    var readOnly: set<Id>
    var errors: nat

    constructor (links: Links)
      ensures this.links == links && readOnly == {} && errors == 0
    {
      this.links := links;
      readOnly, errors := {}, 0;
    }

    /** No error is reported exactly when the rule is kept, and errors only when it is broken.  After
        an error the arguments of calls are no longer looked at, so others may be missed. */
    method Check(e: Exp, ghost m: Marks, ghost n: Names)
      requires Linked(e, n, links) && Distinct(e) && Within(m, n, readOnly, OfExp(e))
      modifies this
      ensures readOnly == old(readOnly) && errors >= old(errors)
      ensures errors == 0 <==> old(errors) == 0 && Accepts(e, m)
      ensures errors > old(errors) ==> !Accepts(e, m)
      decreases e, 1
    {
      match e {
        case IntExp(_) =>
        case VarExp(_, _) =>
        case BreakExp(_) =>
        case OpExp(l, _, r) => Check(l, m, n); Check(r, m, n);
        case SeqExp(es) => CheckAll(es, m, n);
        case AssignExp(id, x, r) =>
          Check(r, m, n);
          AgreeMarked(m, readOnly, x);
          assert Find(links, id) == Find(n.vars, x);
          if id in links && links[id] in readOnly { errors := errors + 1; }
        case IfExp(c, t, f) =>
          Check(c, m, n);
          Check(t, m, n);
          if f.SomeExp? { Check(f.exp, m, n); }
        case WhileExp(id, c, b) => Check(c, m, Enter(n, id)); Check(b, m, Enter(n, id));
        case ForExp(_, _, _, _) => CheckFor(e, m, n);
        case CallExp(_, _, args) => CheckArguments(args, m, n);
        case LetExp(sc) => CheckScope(sc, m, n);
      }
    }

    method CheckFor(e: Exp, ghost m: Marks, ghost n: Names)
      requires e.ForExp? && Linked(e, n, links) && Distinct(e) && Within(m, n, readOnly, OfExp(e))
      modifies this
      ensures readOnly == old(readOnly) && errors >= old(errors)
      ensures errors == 0 <==> old(errors) == 0 && Accepts(e, m)
      ensures errors > old(errors) ==> !Accepts(e, m)
      decreases e, 0
    {
      var d := e.index;
      ghost var n' := PutVar(Enter(n, e.id), d.name, d.id);
      Check(d.init, MVar(d.id, d.name, false, m), n');
      Check(e.hi, MVar(d.id, d.name, false, m), n');
      AgreeGrow(m, readOnly, d.id);
      readOnly := readOnly + {d.id};
      Check(e.body, MVar(d.id, d.name, true, m), n');
      readOnly := readOnly - {d.id};
    }

    method CheckAll(es: Exps, ghost m: Marks, ghost n: Names)
      requires AllLinked(es, n, links) && DistinctExps(es) && Within(m, n, readOnly, OfExps(es))
      modifies this
      ensures readOnly == old(readOnly) && errors >= old(errors)
      ensures errors == 0 <==> old(errors) == 0 && AcceptsAll(es, m)
      ensures errors > old(errors) ==> !AcceptsAll(es, m)
      decreases es
    {
      match es {
        case ENil =>
        case ECons(e, rest) => Check(e, m, n); CheckAll(rest, m, n);
      }
    }

    /** As long as there is no error. */
    method CheckArguments(es: Exps, ghost m: Marks, ghost n: Names)
      requires AllLinked(es, n, links) && DistinctExps(es) && Within(m, n, readOnly, OfExps(es))
      modifies this
      ensures readOnly == old(readOnly) && errors >= old(errors)
      ensures errors == 0 <==> old(errors) == 0 && AcceptsAll(es, m)
      ensures errors > old(errors) ==> !AcceptsAll(es, m)
      decreases es
    {
      var rest := es;
      while errors == 0 && rest.ECons?
        invariant es nonincreases to rest
        invariant AllLinked(rest, n, links) && DistinctExps(rest) && Within(m, n, readOnly, OfExps(rest))
        invariant readOnly == old(readOnly) && errors >= old(errors)
        invariant errors == 0 ==> old(errors) == 0 && (AcceptsAll(es, m) <==> AcceptsAll(rest, m))
        invariant errors > old(errors) ==> !AcceptsAll(es, m)
        decreases rest
      {
        Check(rest.head, m, n);
        rest := rest.tail;
      }
    }

    method CheckScope(sc: Scope, ghost m: Marks, ghost n: Names)
      requires ScopeLinked(sc, n, links) && DistinctScope(sc) && Within(m, n, readOnly, OfScope(sc))
      modifies this
      ensures readOnly == old(readOnly) && errors >= old(errors)
      ensures errors == 0 <==> old(errors) == 0 && AcceptsScope(sc, m)
      ensures errors > old(errors) ==> !AcceptsScope(sc, m)
      decreases sc
    {
      hide AddFirst, PutAll, AddFirstTypes, PutAllTypes;
      match sc {
        case In(b) => Check(b, m, n);
        case With(c, rest) =>
          match c {
            case VarChunk(d) =>
              ghost var m', n' := MVar(d.id, d.name, false, m), PutVar(n, d.name, d.id);
              Check(d.init, m', n');
              CheckScope(rest, m', n');
            case FunctionChunk(ds) =>
              ghost var n' := AddFirst(ds, n, {});
              AddFirstVars(ds, n, {});
              PutAllVars(ds, n');
              CheckDecs(ds, MFun(ds, m), n');
              CheckScope(rest, MFun(ds, m), PutAll(ds, n'));
            case TypeChunk(ts) =>
              ghost var n' := AddFirstTypes(ts, n, {});
              AddFirstTypesVars(ts, n, {});
              PutAllTypesVars(ts, n');
              CheckScope(rest, m, PutAllTypes(ts, n'));
          }
      }
    }

    method CheckDecs(ds: Decs, ghost m: Marks, ghost n: Names)
      requires DecsLinked(ds, n, links) && DistinctDecs(ds) && Within(m, n, readOnly, OfDecs(ds))
      modifies this
      ensures readOnly == old(readOnly) && errors >= old(errors)
      ensures errors == 0 <==> old(errors) == 0 && AcceptsDecs(ds, m)
      ensures errors > old(errors) ==> !AcceptsDecs(ds, m)
      decreases ds
    {
      match ds {
        case DNil =>
        case DCons(d, rest) =>
          ghost var n' := PutFun(n, d.name, d.id);
          if d.body.SomeExp? {
            FormalsWithin(d.formals, m, n', readOnly, OfExp(d.body.exp));
            Check(d.body.exp, MarkFormals(d.formals, m), PutFormals(d.formals, n'));
          }
          CheckDecs(rest, m, n');
      }
    }
  }

  // ----- what each declaration does to the variables in scope -----

  lemma FormalsWithin(fs: seq<Formal>, m: Marks, n: Names, readOnly: set<Id>, nodes: set<Id>)
    requires n.vars == Vars(m) && Agree(m, readOnly)
    requires DistinctFormals(fs) && OfFormals(fs) !! MarkIds(m) + readOnly
    requires nodes !! OfFormals(fs) + MarkIds(m) + readOnly
    ensures Within(MarkFormals(fs, m), PutFormals(fs, n), readOnly, nodes)
  {
    if fs != [] {
      FormalsWithin(fs[1..], MVar(fs[0].id, fs[0].name, false, m), PutVar(n, fs[0].name, fs[0].id), readOnly, nodes);
    }
  }
}
