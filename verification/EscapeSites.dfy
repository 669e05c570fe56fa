/** The call graph and the direct uses that the collector works on, told by places in the text. */
module EscapeSites {
  import opened Options
  import opened Ast
  import opened Escapes

  /** The node of a variable or of a call, and the function whose text it is in. */
  datatype Site = Site(fn: Id, node: Id, call: bool)

  /** The places in e, where f is the function around e. */
  function Sites(e: Exp, f: Id): set<Site> {
    match e
    case IntExp(_) => {}
    case VarExp(id, _) => {Site(f, id, false)}
    case OpExp(a, _, b) => Sites(a, f) + Sites(b, f)
    case SeqExp(es) => SitesAll(es, f)
    case AssignExp(id, _, r) => {Site(f, id, false)} + Sites(r, f)
    case IfExp(c, t, els) => Sites(c, f) + Sites(t, f) + if els.SomeExp? then Sites(els.exp, f) else {}
    case WhileExp(_, c, b) => Sites(c, f) + Sites(b, f)
    case ForExp(_, d, hi, b) => Sites(d.init, f) + Sites(hi, f) + Sites(b, f)
    case BreakExp(_) => {}
    case CallExp(id, _, args) => {Site(f, id, true)} + SitesAll(args, f)
    case LetExp(sc) => SitesScope(sc, f)
  }

  function SitesAll(es: Exps, f: Id): set<Site> { if es.ENil? then {} else Sites(es.head, f) + SitesAll(es.tail, f) }

  function SitesScope(sc: Scope, f: Id): set<Site> {
    match sc
    case In(b) => Sites(b, f)
    case With(VarChunk(d), rest) => Sites(d.init, f) + SitesScope(rest, f)
    case With(FunctionChunk(ds), rest) => SitesDecs(ds) + SitesScope(rest, f)
    case With(TypeChunk(_), rest) => SitesScope(rest, f)
  }

  /** The text of a function is its own. */
  function SitesDecs(ds: Decs): set<Site> {
    if ds.DNil? then {} else (if ds.head.body.SomeExp? then Sites(ds.head.body.exp, ds.head.id) else {}) + SitesDecs(ds.tail)
  }

  /** Who uses which escapable variable, and who calls whom, at the places ss. */
  function Used(ss: set<Site>, l: Links, escapable: set<Id>): Relation {
    set s | s in ss && !s.call && s.node in l && l[s.node] in escapable :: (s.fn, l[s.node])
  }

  function Called(ss: set<Site>, l: Links): Relation {
    set s | s in ss && s.call && s.node in l :: (s.fn, l[s.node])
  }

  lemma Both(a: set<Site>, b: set<Site>, l: Links, escapable: set<Id>)
    ensures Used(a + b, l, escapable) == Used(a, l, escapable) + Used(b, l, escapable)
    ensures Called(a + b, l) == Called(a, l) + Called(b, l)
  {}

  lemma One(s: Site, l: Links, escapable: set<Id>)
    ensures Used({s}, l, escapable) == if s.call then {} else Use(s.node, s.fn, l, escapable)
    ensures Called({s}, l) == if s.call && s.node in l then {(s.fn, l[s.node])} else {}
    ensures Used({}, l, escapable) == {} && Called({}, l) == {}
  {
    assert s in {s};
  }

  /** A function directly uses exactly the variables, and calls exactly the functions, that its text
      has a place for. */
  lemma {:induction false} RelationsExactly(e: Exp, f: Id, l: Links, escapable: set<Id>)
    ensures Uses(e, f, l, escapable) == Used(Sites(e, f), l, escapable) && Calls(e, f, l) == Called(Sites(e, f), l)
    decreases e
  {
    hide Used, Called, Use;
    One(Site(f, f, true), l, escapable);
    match e
    case IntExp(_) =>
    case BreakExp(_) =>
    case VarExp(id, _) => One(Site(f, id, false), l, escapable);
    case OpExp(a, _, b) =>
      RelationsExactly(a, f, l, escapable);
      RelationsExactly(b, f, l, escapable);
      Both(Sites(a, f), Sites(b, f), l, escapable);
    case SeqExp(es) => AllExactly(es, f, l, escapable);
    case AssignExp(id, _, r) =>
      One(Site(f, id, false), l, escapable);
      RelationsExactly(r, f, l, escapable);
      Both({Site(f, id, false)}, Sites(r, f), l, escapable);
    case IfExp(c, t, els) =>
      RelationsExactly(c, f, l, escapable);
      RelationsExactly(t, f, l, escapable);
      Both(Sites(c, f), Sites(t, f), l, escapable);
      if els.SomeExp? { RelationsExactly(els.exp, f, l, escapable); }
      Both(Sites(c, f) + Sites(t, f), if els.SomeExp? then Sites(els.exp, f) else {}, l, escapable);
    case WhileExp(_, c, b) =>
      RelationsExactly(c, f, l, escapable);
      RelationsExactly(b, f, l, escapable);
      Both(Sites(c, f), Sites(b, f), l, escapable);
    case ForExp(_, d, hi, b) =>
      RelationsExactly(d.init, f, l, escapable);
      RelationsExactly(hi, f, l, escapable);
      RelationsExactly(b, f, l, escapable);
      Both(Sites(d.init, f), Sites(hi, f), l, escapable);
      Both(Sites(d.init, f) + Sites(hi, f), Sites(b, f), l, escapable);
    case CallExp(id, _, args) =>
      One(Site(f, id, true), l, escapable);
      AllExactly(args, f, l, escapable);
      Both({Site(f, id, true)}, SitesAll(args, f), l, escapable);
    case LetExp(sc) => ScopeExactly(sc, f, l, escapable);
  }

  lemma {:induction false} AllExactly(es: Exps, f: Id, l: Links, escapable: set<Id>)
    ensures UsesAll(es, f, l, escapable) == Used(SitesAll(es, f), l, escapable) && CallsAll(es, f, l) == Called(SitesAll(es, f), l)
    decreases es
  {
    hide Used, Called, Use;
    One(Site(f, f, true), l, escapable);
    if es.ECons? {
      RelationsExactly(es.head, f, l, escapable);
      AllExactly(es.tail, f, l, escapable);
      Both(Sites(es.head, f), SitesAll(es.tail, f), l, escapable);
    }
  }

  lemma {:induction false} ScopeExactly(sc: Scope, f: Id, l: Links, escapable: set<Id>)
    ensures UsesScope(sc, f, l, escapable) == Used(SitesScope(sc, f), l, escapable)
    ensures CallsScope(sc, f, l) == Called(SitesScope(sc, f), l)
    decreases sc
  {
    hide Used, Called, Use;
    match sc
    case In(b) => RelationsExactly(b, f, l, escapable);
    case With(VarChunk(d), rest) =>
      RelationsExactly(d.init, f, l, escapable);
      ScopeExactly(rest, f, l, escapable);
      Both(Sites(d.init, f), SitesScope(rest, f), l, escapable);
    case With(FunctionChunk(ds), rest) =>
      DecsExactly(ds, l, escapable);
      ScopeExactly(rest, f, l, escapable);
      Both(SitesDecs(ds), SitesScope(rest, f), l, escapable);
    case With(TypeChunk(_), rest) => ScopeExactly(rest, f, l, escapable);
  }

  lemma {:induction false} DecsExactly(ds: Decs, l: Links, escapable: set<Id>)
    ensures UsesDecs(ds, l, escapable) == Used(SitesDecs(ds), l, escapable) && CallsDecs(ds, l) == Called(SitesDecs(ds), l)
    decreases ds
  {
    hide Used, Called, Use;
    if ds.DNil? {
      One(Site(Node(0), Node(0), true), l, escapable);
    } else {
      var d := ds.head;
      One(Site(d.id, d.id, true), l, escapable);
      if d.body.SomeExp? { RelationsExactly(d.body.exp, d.id, l, escapable); }
      DecsExactly(ds.tail, l, escapable);
      Both(if d.body.SomeExp? then Sites(d.body.exp, d.id) else {}, SitesDecs(ds.tail), l, escapable);
    }
  }
}
