/** Values that may be missing. */
module Options {
  datatype Option<+T> = None | Some(value: T)

  function Find<K, V>(m: map<K, V>, k: K): Option<V> { if k in m then Some(m[k]) else None }
}

/** The Tiger syntax tree shared by the passes.

    A node address of the compiler becomes an `Id`.  A pass that builds new nodes derives their
    identities from the node it replaces (`Fresh`), so distinct sources give distinct results.
    Names are what the user (or the renamer) wrote; links from uses to declarations live beside
    the tree, in `Links`, because the binder writes them into the nodes after parsing. */
module Ast {
  import opened Options

  type Symbol = string
  datatype Id = Node(n: nat) | Fresh(base: Id, k: nat)

  datatype Oper = Add | Sub | Mul | Div | Eq | Ne | Lt | Le | Gt | Ge

  datatype Exp =
    | IntExp(value: int)
    | VarExp(id: Id, name: Symbol)
    | OpExp(left: Exp, oper: Oper, right: Exp)
    | SeqExp(exps: Exps)
    | AssignExp(id: Id, name: Symbol, exp: Exp)
    | IfExp(test: Exp, thn: Exp, els: OptExp)
    | WhileExp(id: Id, test: Exp, body: Exp)
    | ForExp(id: Id, index: VarDec, hi: Exp, body: Exp)
    | BreakExp(id: Id)
    | CallExp(id: Id, name: Symbol, args: Exps)
    | LetExp(scope: Scope)
  datatype OptExp = NoExp | SomeExp(exp: Exp)
  datatype Exps = ENil | ECons(head: Exp, tail: Exps)

  /** The chunks of a `let`, ending in its body. */
  datatype Scope = In(body: Exp) | With(chunk: Chunk, rest: Scope)
  datatype Chunk =
    | VarChunk(dec: VarDec)
    | FunctionChunk(decs: Decs)
    | TypeChunk(types: seq<TypeDec>)

  datatype TypeName = TypeName(id: Id, name: Symbol)
  datatype VarDec = VarDec(id: Id, name: Symbol, typeName: Option<TypeName>, init: Exp)
  datatype Formal = Formal(id: Id, name: Symbol, typeName: TypeName)
  /** A function without a body is a primitive; without a result type it returns nothing. */
  datatype FunctionDec =
    FunctionDec(id: Id, name: Symbol, formals: seq<Formal>, result: Option<TypeName>, body: OptExp)
  datatype Decs = DNil | DCons(head: FunctionDec, tail: Decs)
  datatype Ty =
    | NameTy(use: TypeName)
    | RecordTy(fields: seq<(Symbol, TypeName)>)
    | ArrayTy(base: TypeName)
  datatype TypeDec = TypeDec(id: Id, name: Symbol, ty: Ty)

  /** What the binder writes into use nodes: the declaration of each variable, function and type
      use, and the loop each `break` leaves.  A node has at most one such link. */
  type Links = map<Id, Id>
}

/** Which node identities a tree holds, and what it means that no two nodes share one. */
module Nodes {
  import opened Options
  import opened Ast

  function OfExp(e: Exp): set<Id> {
    match e
    case IntExp(_) => {}
    case VarExp(id, _) => {id}
    case OpExp(l, _, r) => OfExp(l) + OfExp(r)
    case SeqExp(es) => OfExps(es)
    case AssignExp(id, _, r) => {id} + OfExp(r)
    case IfExp(c, t, f) => OfExp(c) + OfExp(t) + (if f.SomeExp? then OfExp(f.exp) else {})
    case WhileExp(id, c, b) => {id} + OfExp(c) + OfExp(b)
    case ForExp(id, d, hi, b) => {id} + OfVarDec(d) + OfExp(hi) + OfExp(b)
    case BreakExp(id) => {id}
    case CallExp(id, _, args) => {id} + OfExps(args)
    case LetExp(sc) => OfScope(sc)
  }

  function OfExps(es: Exps): set<Id> {
    match es
    case ENil => {}
    case ECons(e, rest) => OfExp(e) + OfExps(rest)
  }

  function OfScope(sc: Scope): set<Id> {
    match sc
    case In(b) => OfExp(b)
    case With(VarChunk(d), rest) => OfVarDec(d) + OfScope(rest)
    case With(FunctionChunk(ds), rest) => OfDecs(ds) + OfScope(rest)
    case With(TypeChunk(ts), rest) => OfTypes(ts) + OfScope(rest)
  }

  function OfVarDec(d: VarDec): set<Id> { {d.id} + OfName(d.typeName) + OfExp(d.init) }

  function OfName(t: Option<TypeName>): set<Id> { if t.Some? then {t.value.id} else {} }

  function OfFormals(fs: seq<Formal>): set<Id> {
    if fs == [] then {} else {fs[0].id, fs[0].typeName.id} + OfFormals(fs[1..])
  }

  function OfDec(d: FunctionDec): set<Id> {
    {d.id} + OfFormals(d.formals) + OfName(d.result) + (if d.body.SomeExp? then OfExp(d.body.exp) else {})
  }

  function OfDecs(ds: Decs): set<Id> {
    match ds
    case DNil => {}
    case DCons(d, rest) => OfDec(d) + OfDecs(rest)
  }

  function OfFields(fs: seq<(Symbol, TypeName)>): set<Id> {
    if fs == [] then {} else {fs[0].1.id} + OfFields(fs[1..])
  }

  function OfTy(ty: Ty): set<Id> {
    match ty
    case NameTy(t) => {t.id}
    case RecordTy(fs) => OfFields(fs)
    case ArrayTy(t) => {t.id}
  }

  function OfTypes(ts: seq<TypeDec>): set<Id> {
    if ts == [] then {} else {ts[0].id} + OfTy(ts[0].ty) + OfTypes(ts[1..])
  }

  predicate Distinct(e: Exp) {
    match e
    case IntExp(_) => true
    case VarExp(_, _) => true
    case OpExp(l, _, r) => Distinct(l) && Distinct(r) && OfExp(l) !! OfExp(r)
    case SeqExp(es) => DistinctExps(es)
    case AssignExp(id, _, r) => Distinct(r) && id !in OfExp(r)
    case IfExp(c, t, f) =>
      && Distinct(c) && Distinct(t) && OfExp(c) !! OfExp(t)
      && (f.SomeExp? ==> Distinct(f.exp) && OfExp(f.exp) !! OfExp(c) + OfExp(t))
    case WhileExp(id, c, b) => Distinct(c) && Distinct(b) && OfExp(c) !! OfExp(b) && id !in OfExp(c) + OfExp(b)
    case ForExp(id, d, hi, b) =>
      && DistinctVarDec(d) && Distinct(hi) && Distinct(b)
      && OfVarDec(d) !! OfExp(hi) && OfExp(b) !! OfVarDec(d) + OfExp(hi)
      && id !in OfVarDec(d) + OfExp(hi) + OfExp(b)
    case BreakExp(_) => true
    case CallExp(id, _, args) => DistinctExps(args) && id !in OfExps(args)
    case LetExp(sc) => DistinctScope(sc)
  }

  predicate DistinctExps(es: Exps) {
    match es
    case ENil => true
    case ECons(e, rest) => Distinct(e) && DistinctExps(rest) && OfExp(e) !! OfExps(rest)
  }

  predicate DistinctScope(sc: Scope) {
    match sc
    case In(b) => Distinct(b)
    case With(VarChunk(d), rest) => DistinctVarDec(d) && DistinctScope(rest) && OfVarDec(d) !! OfScope(rest)
    case With(FunctionChunk(ds), rest) => DistinctDecs(ds) && DistinctScope(rest) && OfDecs(ds) !! OfScope(rest)
    case With(TypeChunk(ts), rest) => DistinctTypes(ts) && DistinctScope(rest) && OfTypes(ts) !! OfScope(rest)
  }

  predicate DistinctVarDec(d: VarDec) {
    Distinct(d.init) && d.id !in OfName(d.typeName) + OfExp(d.init) && OfName(d.typeName) !! OfExp(d.init)
  }

  predicate DistinctFormals(fs: seq<Formal>) {
    fs != [] ==>
      fs[0].id != fs[0].typeName.id && {fs[0].id, fs[0].typeName.id} !! OfFormals(fs[1..]) && DistinctFormals(fs[1..])
  }

  predicate DistinctDec(d: FunctionDec) {
    && DistinctFormals(d.formals) && OfName(d.result) !! OfFormals(d.formals)
    && d.id !in OfFormals(d.formals) + OfName(d.result)
    && (d.body.SomeExp? ==>
          Distinct(d.body.exp) && OfExp(d.body.exp) !! {d.id} + OfFormals(d.formals) + OfName(d.result))
  }

  predicate DistinctDecs(ds: Decs) {
    match ds
    case DNil => true
    case DCons(d, rest) => DistinctDec(d) && DistinctDecs(rest) && OfDec(d) !! OfDecs(rest)
  }

  predicate DistinctFields(fs: seq<(Symbol, TypeName)>) {
    fs != [] ==> fs[0].1.id !in OfFields(fs[1..]) && DistinctFields(fs[1..])
  }

  predicate DistinctTypes(ts: seq<TypeDec>) {
    ts != [] ==>
      && ts[0].id !in OfTy(ts[0].ty) && (ts[0].ty.RecordTy? ==> DistinctFields(ts[0].ty.fields))
      && {ts[0].id} + OfTy(ts[0].ty) !! OfTypes(ts[1..]) && DistinctTypes(ts[1..])
  }
}
