/** Translating types to the target: records may be recursive, so each gets an empty struct first
    and its body afterwards, and a memo keeps one struct for each. */
module LlvmTypes {
  import opened Options
  import opened Types
  import Compatibility

  type Field = Compatibility.Field

  /** The type objects: what each name stands for, the record each nil was found to be, the elements
      of each array, the fields of each record. */
  datatype Graph = Graph(named: seq<Ref>, nils: seq<Ref>, arrays: seq<Ref>, records: seq<seq<Field>>)

  datatype LType = I32 | I8 | VoidType | Pointer(to: LType) | Struct(s: nat)

  predicate Known(g: Graph, t: Ref) {
    match t
    case Unset => false
    case Named(n) => n < |g.named|
    case Nil(k) => k < |g.nils|
    case Array(a) => a < |g.arrays|
    case Record(r) => r < |g.records|
    case _ => true
  }

  /** Every type mentioned exists. */
  ghost predicate Whole(g: Graph) {
    && (forall i | 0 <= i < |g.named| :: Known(g, g.named[i])) && (forall i | 0 <= i < |g.nils| :: Known(g, g.nils[i]))
    && (forall i | 0 <= i < |g.arrays| :: Known(g, g.arrays[i]))
    && (forall r, j | 0 <= r < |g.records| && 0 <= j < |g.records[r]| :: Known(g, g.records[r][j].typ))
  }

  // ----- what a visit does -----

  type Bodies = seq<Option<seq<LType>>>

  /** The struct of each record met, and the body of each struct once it is set. */
  datatype Memo = Memo(structs: map<nat, nat>, bodies: Bodies)

  const EMPTY := Memo(map[], [])

  /** The fuel bounds the depth of visits within visits; without enough of it there is no result. */
  function Visit(g: Graph, m: Memo, t: Ref, fuel: nat): (r: Option<(Memo, LType)>)
    requires Whole(g) && Known(g, t)
    ensures r.Some? ==> |m.bodies| <= |r.value.0.bodies|
    decreases fuel, 0
  {
    match t
    case Int => Some((m, I32))
    case String => Some((m, Pointer(I8)))
    case Named(n) => if fuel == 0 then None else Visit(g, m, g.named[n], fuel - 1)
    case Nil(n) => if fuel == 0 then None else Visit(g, m, g.nils[n], fuel - 1)
    case Array(a) =>
      if fuel == 0 then None else
      var v := Visit(g, m, g.arrays[a], fuel - 1);
      if v.None? then None else Some((v.value.0, Pointer(v.value.1)))
    case Record(r) =>
      if r in m.structs then Some((m, Pointer(Struct(m.structs[r])))) else
      if fuel == 0 then None else
      var v := VisitFields(g, Open(m, r), r, 0, fuel - 1);
      if v.None? then None else Some((Close(m, v.value.0, v.value.1), Pointer(Struct(|m.bodies|))))
    case _ => Some((m, VoidType))
  }

  /** A new struct, still without a body. */
  function Open(m: Memo, r: nat): Memo { Memo(m.structs[r := |m.bodies|], m.bodies + [None]) }

  /** The body of the struct opened in m. */
  function Close(m: Memo, m': Memo, types: seq<LType>): Memo
    requires |m.bodies| < |m'.bodies|
  {
    m'.(bodies := m'.bodies[|m.bodies| := Some(types)])
  }

  /** The fields of r from number i on. */
  function VisitFields(g: Graph, m: Memo, r: nat, i: nat, fuel: nat): (f: Option<(Memo, seq<LType>)>)
    requires Whole(g) && r < |g.records| && i <= |g.records[r]|
    ensures f.Some? ==> |m.bodies| <= |f.value.0.bodies|
    decreases fuel, |g.records[r]| - i + 1
  {
    if i == |g.records[r]| then Some((m, [])) else
    var v := Visit(g, m, g.records[r][i].typ, fuel);
    if v.None? then None else
    var rest := VisitFields(g, v.value.0, r, i + 1, fuel);
    if rest.None? then None else Some((rest.value.0, [v.value.1] + rest.value.1))
  }

  lemma {:induction false} MoreFuel(g: Graph, m: Memo, t: Ref, fuel: nat, more: nat)
    requires Whole(g) && Known(g, t) && Visit(g, m, t, fuel).Some? && fuel <= more
    ensures Visit(g, m, t, more) == Visit(g, m, t, fuel)
    decreases fuel, 0
  {
    match t
    case Named(n) => MoreFuel(g, m, g.named[n], fuel - 1, more - 1);
    case Nil(n) => MoreFuel(g, m, g.nils[n], fuel - 1, more - 1);
    case Array(a) => MoreFuel(g, m, g.arrays[a], fuel - 1, more - 1);
    case Record(r) => if r !in m.structs { MoreFuelFields(g, Open(m, r), r, 0, fuel - 1, more - 1); }
    case _ =>
  }

  lemma {:induction false} MoreFuelFields(g: Graph, m: Memo, r: nat, i: nat, fuel: nat, more: nat)
    requires Whole(g) && r < |g.records| && i <= |g.records[r]| && VisitFields(g, m, r, i, fuel).Some? && fuel <= more
    ensures VisitFields(g, m, r, i, more) == VisitFields(g, m, r, i, fuel)
    decreases fuel, |g.records[r]| - i + 1
  {
    if i < |g.records[r]| {
      MoreFuel(g, m, g.records[r][i].typ, fuel, more);
      MoreFuelFields(g, Visit(g, m, g.records[r][i].typ, fuel).value.0, r, i + 1, fuel, more);
    }
  }

  // ----- chains outside records -----

  /** The type that a visit of t visits next, outside records. */
  function Inside(g: Graph, t: Ref): (r: Option<Ref>)
    requires Whole(g) && Known(g, t)
    ensures r.Some? ==> Known(g, r.value)
  {
    match t
    case Named(n) => Some(g.named[n])
    case Nil(n) => Some(g.nils[n])
    case Array(a) => Some(g.arrays[a])
    case _ => None
  }

  /** The type visited after k steps outside records, if the visits go on for so long. */
  ghost function Descend(g: Graph, t: Ref, k: nat): (r: Option<Ref>)
    requires Whole(g) && Known(g, t)
    ensures r.Some? ==> Known(g, r.value)
    decreases k
  {
    if k == 0 then Some(t) else if Inside(g, t) == None then None else Descend(g, Inside(g, t).value, k - 1)
  }

  /** The visits starting at t come to a record or to a type without parts. */
  ghost predicate Ends(g: Graph, t: Ref)
    requires Whole(g) && Known(g, t)
  {
    exists n: nat :: Descend(g, t, n).None?
  }

  ghost function Longest(g: Graph, t: Ref, most: nat): (k: nat)
    requires Whole(g) && Known(g, t) && Descend(g, t, most).None?
    ensures Descend(g, t, k).Some? && Descend(g, t, k + 1).None?
  {
    if Descend(g, t, most - 1).Some? then most - 1 else Longest(g, t, most - 1)
  }

  /** How many steps a visit of t takes outside records. */
  ghost function Depth(g: Graph, t: Ref): (k: nat)
    requires Whole(g) && Known(g, t) && Ends(g, t)
    ensures Descend(g, t, k).Some? && Descend(g, t, k + 1).None?
  {
    var n: nat :| Descend(g, t, n).None?;
    Longest(g, t, n)
  }

  lemma DescendAdd(g: Graph, t: Ref, i: nat, j: nat)
    requires Whole(g) && Known(g, t)
    ensures Descend(g, t, i + j) == if Descend(g, t, i).None? then None else Descend(g, Descend(g, t, i).value, j)
    decreases i
  {
    if i > 0 && Inside(g, t).Some? { DescendAdd(g, Inside(g, t).value, i - 1, j); }
  }

  lemma EndsNext(g: Graph, t: Ref)
    requires Whole(g) && Known(g, t) && Inside(g, t).Some?
    ensures Ends(g, t) <==> Ends(g, Inside(g, t).value)
    ensures Ends(g, t) ==> Depth(g, Inside(g, t).value) < Depth(g, t)
  {
    var u := Inside(g, t).value;
    if n: nat :| Descend(g, t, n).None? { assert Descend(g, u, n - 1).None?; }
    if n: nat :| Descend(g, u, n).None? { assert Descend(g, t, n + 1).None?; }
    if Ends(g, t) {
      var a, b := Depth(g, u), Depth(g, t);
      assert Descend(g, t, a + 1) == Descend(g, u, a);
      if b <= a { DescendAdd(g, t, b + 1, a - b); }
    }
  }

  lemma EndsAtOnce(g: Graph, t: Ref)
    requires Whole(g) && Known(g, t) && Inside(g, t).None?
    ensures Ends(g, t)
  {
    assert Descend(g, t, 1).None?;
  }

  /** The record reached from t without entering one. */
  ghost function Direct(g: Graph, t: Ref): (r: Option<nat>)
    requires Whole(g) && Known(g, t) && Ends(g, t)
    ensures r.Some? ==> r.value < |g.records|
    decreases Depth(g, t)
  {
    if t.Record? then Some(t.r)
    else if Inside(g, t).None? then None
    else EndsNext(g, t); Direct(g, Inside(g, t).value)
  }

  /** The translation of t, given the struct of each record. */
  ghost function Trans(g: Graph, structs: map<nat, nat>, t: Ref): LType
    requires Whole(g) && Known(g, t) && Ends(g, t)
    decreases Depth(g, t)
  {
    match t
    case Int => I32
    case String => Pointer(I8)
    case Named(n) => EndsNext(g, t); Trans(g, structs, g.named[n])
    case Nil(n) => EndsNext(g, t); Trans(g, structs, g.nils[n])
    case Array(a) => EndsNext(g, t); Pointer(Trans(g, structs, g.arrays[a]))
    case Record(r) => Pointer(Struct(if r in structs then structs[r] else 0))
    case _ => VoidType
  }

  lemma {:induction false} TransGrows(g: Graph, a: map<nat, nat>, b: map<nat, nat>, t: Ref)
    requires Whole(g) && Known(g, t) && Ends(g, t) && (forall r | r in a :: r in b && b[r] == a[r])
    requires Direct(g, t).Some? ==> Direct(g, t).value in a
    ensures Trans(g, a, t) == Trans(g, b, t)
    decreases Depth(g, t)
  {
    if Inside(g, t).Some? {
      EndsNext(g, t);
      TransGrows(g, a, b, Inside(g, t).value);
    }
  }

  // ----- records reached -----

  ghost predicate Leads(g: Graph, t: Ref, q: nat)
    requires Whole(g) && Known(g, t)
  {
    Ends(g, t) && Direct(g, t) == Some(q)
  }

  /** Some field of record r leads to record q. */
  ghost predicate FieldLeads(g: Graph, r: nat, q: nat)
    requires Whole(g) && r < |g.records|
  {
    exists j | 0 <= j < |g.records[r]| :: Leads(g, g.records[r][j].typ, q)
  }

  ghost predicate Path(g: Graph, seen: set<nat>, path: seq<nat>)
    requires Whole(g)
  {
    && path != [] && (forall i | 0 <= i < |path| :: path[i] < |g.records| && path[i] !in seen)
    && forall i | 0 < i < |path| :: FieldLeads(g, path[i - 1], path[i])
  }

  /** Record r can be reached from t through records not seen yet. */
  ghost predicate Reaches(g: Graph, seen: set<nat>, t: Ref, r: nat)
    requires Whole(g) && Known(g, t)
  {
    exists path :: Path(g, seen, path) && Leads(g, t, path[0]) && path[|path| - 1] == r
  }

  lemma ReachDirect(g: Graph, seen: set<nat>, t: Ref, r: nat)
    requires Whole(g) && Known(g, t) && Leads(g, t, r) && r !in seen
    ensures Reaches(g, seen, t, r)
  {
    assert Path(g, seen, [r]) && [r][|[r]| - 1] == r;
  }

  lemma ReachSelf(g: Graph, seen: set<nat>, r: nat)
    requires Whole(g) && r < |g.records| && r !in seen
    ensures Reaches(g, seen, Record(r), r)
  {
    EndsAtOnce(g, Record(r));
    ReachDirect(g, seen, Record(r), r);
  }

  lemma ReachThrough(g: Graph, seen: set<nat>, r: nat, j: nat, q: nat)
    requires Whole(g) && r < |g.records| && j < |g.records[r]| && r !in seen && Reaches(g, seen, g.records[r][j].typ, q)
    ensures Reaches(g, seen, Record(r), q)
  {
    var path :| Path(g, seen, path) && Leads(g, g.records[r][j].typ, path[0]) && path[|path| - 1] == q;
    var longer := [r] + path;
    assert FieldLeads(g, r, path[0]);
    forall i | 0 < i < |longer| ensures FieldLeads(g, longer[i - 1], longer[i]) {
      if i > 1 { assert FieldLeads(g, path[i - 2], path[i - 1]); }
    }
    EndsAtOnce(g, Record(r));
    assert Path(g, seen, longer) && longer[|longer| - 1] == q;
  }

  lemma ReachMore(g: Graph, seen: set<nat>, more: set<nat>, t: Ref, q: nat)
    requires Whole(g) && Known(g, t) && seen <= more && Reaches(g, more, t, q)
    ensures Reaches(g, seen, t, q)
  {
    var path :| Path(g, more, path) && Leads(g, t, path[0]) && path[|path| - 1] == q;
    assert Path(g, seen, path);
  }

  lemma SameReach(g: Graph, seen: set<nat>, t: Ref, q: nat)
    requires Whole(g) && Known(g, t) && Inside(g, t).Some?
    ensures Reaches(g, seen, t, q) <==> Reaches(g, seen, Inside(g, t).value, q)
  {
    var u := Inside(g, t).value;
    forall r ensures Leads(g, t, r) <==> Leads(g, u, r) { SameLead(g, t, r); }
    if path :| Path(g, seen, path) && Leads(g, t, path[0]) && path[|path| - 1] == q { assert Leads(g, u, path[0]); }
    if path :| Path(g, seen, path) && Leads(g, u, path[0]) && path[|path| - 1] == q { assert Leads(g, t, path[0]); }
  }

  lemma SameLead(g: Graph, t: Ref, r: nat)
    requires Whole(g) && Known(g, t) && Inside(g, t).Some?
    ensures Leads(g, t, r) <==> Leads(g, Inside(g, t).value, r)
  {
    EndsNext(g, t);
  }

  // ----- the memo -----

  /** The struct of r, if it has a body, has the translations of the fields of r. */
  ghost predicate Filled(g: Graph, m: Memo, r: nat)
    requires Whole(g)
  {
    r in m.structs && r < |g.records| && m.structs[r] < |m.bodies| && m.bodies[m.structs[r]].Some? ==>
      && |m.bodies[m.structs[r]].value| == |g.records[r]|
      && forall j | 0 <= j < |g.records[r]| :: FieldDone(g, m.structs, m.bodies[m.structs[r]].value[j], r, j)
  }

  ghost predicate FieldDone(g: Graph, structs: map<nat, nat>, l: LType, r: nat, j: nat)
    requires Whole(g) && r < |g.records| && j < |g.records[r]|
  {
    Done(g, structs, l, g.records[r][j].typ)
  }

  /** l translates t, and the record t leads to has its struct. */
  ghost predicate Done(g: Graph, structs: map<nat, nat>, l: LType, t: Ref)
    requires Whole(g) && Known(g, t)
  {
    Ends(g, t) && l == Trans(g, structs, t) && (Direct(g, t).Some? ==> Direct(g, t).value in structs)
  }

  lemma DoneGrows(g: Graph, a: map<nat, nat>, b: map<nat, nat>, l: LType, t: Ref)
    requires Whole(g) && Known(g, t) && Done(g, a, l, t) && (forall r | r in a :: r in b && b[r] == a[r])
    ensures Done(g, b, l, t)
  {
    TransGrows(g, a, b, t);
  }

  lemma DoneNext(g: Graph, structs: map<nat, nat>, l: LType, t: Ref)
    requires Whole(g) && Known(g, t) && Inside(g, t).Some? && Done(g, structs, l, Inside(g, t).value)
    ensures Done(g, structs, if t.Array? then Pointer(l) else l, t)
  {
    EndsNext(g, t);
  }

  ghost predicate Has(structs: map<nat, nat>, i: nat) { exists r :: r in structs && structs[r] == i }

  /** One struct for each record met, no other. */
  ghost predicate Good(g: Graph, m: Memo)
    requires Whole(g)
  {
    && (forall r | r in m.structs :: r < |g.records| && m.structs[r] < |m.bodies|)
    && (forall r, q | r in m.structs && q in m.structs && m.structs[r] == m.structs[q] :: r == q)
    && (forall i: nat | i < |m.bodies| :: Has(m.structs, i))
    && (forall r | r in m.structs :: Filled(g, m, r))
  }

  ghost predicate Kept(m: Memo, m': Memo) {
    && |m.bodies| <= |m'.bodies| && (forall i | 0 <= i < |m.bodies| :: m'.bodies[i] == m.bodies[i])
    && (forall r | r in m.structs :: r in m'.structs && m'.structs[r] == m.structs[r])
  }

  /** What a visit of t does to the memo: new records, all reachable from t, with their bodies. */
  ghost predicate Adds(g: Graph, t: Ref, m: Memo, m': Memo)
    requires Whole(g) && Known(g, t)
  {
    && Kept(m, m') && (forall i | |m.bodies| <= i < |m'.bodies| :: m'.bodies[i].Some?)
    && (forall r | r in m'.structs && r !in m.structs :: Reaches(g, m.structs.Keys, t, r) && m'.structs[r] >= |m.bodies|)
  }

  /** While the fields of r are visited: r is open, everything else added since is reachable from r
      and filled. */
  ghost predicate Growing(g: Graph, r: nat, m0: Memo, m: Memo)
    requires Whole(g) && r < |g.records|
  {
    && Kept(m0, m) && |m0.bodies| < |m.bodies| && m.bodies[|m0.bodies|].None?
    && (forall i | |m0.bodies| < i < |m.bodies| :: m.bodies[i].Some?)
    && r in m.structs && m.structs[r] == |m0.bodies| && r !in m0.structs
    && (forall q | q in m.structs && q !in m0.structs :: Reaches(g, m0.structs.Keys, Record(r), q) && m.structs[q] >= |m0.bodies|)
  }

  lemma FilledGrows(g: Graph, m: Memo, m': Memo, r: nat)
    requires Whole(g) && r in m.structs && r < |g.records| && m.structs[r] < |m.bodies| <= |m'.bodies| && Filled(g, m, r)
    requires (forall q | q in m.structs :: q in m'.structs && m'.structs[q] == m.structs[q])
    requires m'.bodies[m.structs[r]] == m.bodies[m.structs[r]]
    ensures Filled(g, m', r)
  {
    hide Done;
    if m.bodies[m.structs[r]].Some? {
      var types := m.bodies[m.structs[r]].value;
      forall j | 0 <= j < |g.records[r]| ensures FieldDone(g, m'.structs, types[j], r, j) {
        assert FieldDone(g, m.structs, types[j], r, j);
        DoneGrows(g, m.structs, m'.structs, types[j], g.records[r][j].typ);
      }
    }
  }

  lemma Created(g: Graph, m: Memo, r: nat)
    requires Whole(g) && Good(g, m) && r < |g.records| && r !in m.structs
    ensures Good(g, Open(m, r)) && Growing(g, r, m, Open(m, r))
  {
    hide Reaches, Filled;
    var m' := Open(m, r);
    ReachSelf(g, m.structs.Keys, r);
    forall q | q in m'.structs ensures Filled(g, m', q) {
      if q != r { FilledGrows(g, m, m', q); } else { OpenFilled(g, m', r); }
    }
    forall i: nat | i < |m'.bodies| ensures Has(m'.structs, i) {
      if i < |m.bodies| {
        assert Has(m.structs, i);
        var q :| q in m.structs && m.structs[q] == i;
        assert q in m'.structs && m'.structs[q] == i;
      } else {
        assert m'.structs[r] == i;
      }
    }
  }

  lemma OpenFilled(g: Graph, m: Memo, r: nat)
    requires Whole(g) && r in m.structs && m.structs[r] < |m.bodies| && m.bodies[m.structs[r]].None?
    ensures Filled(g, m, r)
  {}

  lemma Grew(g: Graph, r: nat, i: nat, m0: Memo, m: Memo, m': Memo)
    requires Whole(g) && r < |g.records| && i < |g.records[r]| && Growing(g, r, m0, m) && Adds(g, g.records[r][i].typ, m, m')
    ensures Growing(g, r, m0, m')
  {
    hide Reaches;
    forall q | q in m'.structs && q !in m0.structs
      ensures Reaches(g, m0.structs.Keys, Record(r), q) && m'.structs[q] >= |m0.bodies|
    {
      if q !in m.structs {
        ReachMore(g, m0.structs.Keys, m.structs.Keys, g.records[r][i].typ, q);
        ReachThrough(g, m0.structs.Keys, r, i, q);
      }
    }
  }

  lemma Closed(g: Graph, r: nat, m0: Memo, m: Memo, types: seq<LType>)
    requires Whole(g) && Good(g, m) && r < |g.records| && Growing(g, r, m0, m) && |types| == |g.records[r]|
    requires forall j | 0 <= j < |types| :: FieldDone(g, m.structs, types[j], r, j)
    ensures Good(g, Close(m0, m, types)) && Adds(g, Record(r), m0, Close(m0, m, types))
  {
    hide Reaches, FieldDone;
    var m' := Close(m0, m, types);
    forall q | q in m'.structs ensures Filled(g, m', q) { if q != r { FilledGrows(g, m, m', q); } }
  }

  /** What a visit that ends does. */
  lemma {:induction false} VisitAdds(g: Graph, m: Memo, t: Ref, fuel: nat)
    requires Whole(g) && Known(g, t) && Good(g, m) && Visit(g, m, t, fuel).Some?
    ensures var (m', l) := Visit(g, m, t, fuel).value; Good(g, m') && Adds(g, t, m, m') && Done(g, m'.structs, l, t)
    decreases fuel, 0
  {
    hide Good, Growing, Reaches;
    if t.Record? {
      EndsAtOnce(g, t);
      var r := t.r;
      if r !in m.structs {
        Created(g, m, r);
        FieldsAdd(g, m, Open(m, r), r, 0, fuel - 1);
        var (m1, types) := VisitFields(g, Open(m, r), r, 0, fuel - 1).value;
        Closed(g, r, m, m1, types);
        assert m1.structs[r] == |m.bodies| by { GrowingOpen(g, r, m, m1); }
      }
    } else if Inside(g, t).Some? {
      var u := Inside(g, t).value;
      VisitAdds(g, m, u, fuel - 1);
      var (m', l) := Visit(g, m, u, fuel - 1).value;
      DoneNext(g, m'.structs, l, t);
      forall q ensures Reaches(g, m.structs.Keys, t, q) <==> Reaches(g, m.structs.Keys, u, q) { SameReach(g, m.structs.Keys, t, q); }
    } else {
      EndsAtOnce(g, t);
    }
  }

  lemma GrowingOpen(g: Graph, r: nat, m0: Memo, m: Memo)
    requires Whole(g) && r < |g.records| && Growing(g, r, m0, m)
    ensures r in m.structs && m.structs[r] == |m0.bodies|
  {}

  lemma {:induction false} FieldsAdd(g: Graph, m0: Memo, m: Memo, r: nat, i: nat, fuel: nat)
    requires Whole(g) && r < |g.records| && i <= |g.records[r]| && Good(g, m) && Growing(g, r, m0, m)
    requires VisitFields(g, m, r, i, fuel).Some?
    ensures var (m', types) := VisitFields(g, m, r, i, fuel).value;
      && Good(g, m') && Growing(g, r, m0, m') && |types| == |g.records[r]| - i && Kept(m, m')
      && forall j | 0 <= j < |types| :: FieldDone(g, m'.structs, types[j], r, i + j)
    decreases fuel, |g.records[r]| - i + 1
  {
    hide Good, Growing, Reaches, Done;
    if i < |g.records[r]| {
      var t := g.records[r][i].typ;
      VisitAdds(g, m, t, fuel);
      var (m1, l) := Visit(g, m, t, fuel).value;
      Grew(g, r, i, m0, m, m1);
      FieldsAdd(g, m0, m1, r, i + 1, fuel);
      var (m', rest) := VisitFields(g, m1, r, i + 1, fuel).value;
      DoneGrows(g, m1.structs, m'.structs, l, t);
      forall j | 0 <= j < |rest| + 1 ensures FieldDone(g, m'.structs, ([l] + rest)[j], r, i + j) {
        if j > 0 { assert FieldDone(g, m'.structs, rest[j - 1], r, i + 1 + (j - 1)); }
      }
    }
  }

  /** In a memo whose structs all have bodies, what is reachable is there. */
  lemma AllReached(g: Graph, m: Memo, t: Ref, r: nat)
    requires Whole(g) && Good(g, m) && Known(g, t) && (forall i | 0 <= i < |m.bodies| :: m.bodies[i].Some?) && Reaches(g, {}, t, r)
    requires forall q | Leads(g, t, q) :: q in m.structs
    ensures r in m.structs
  {
    var path :| Path(g, {}, path) && Leads(g, t, path[0]) && path[|path| - 1] == r;
    var i := 0;
    while i < |path| - 1
      invariant 0 <= i < |path| && path[i] in m.structs
    {
      assert FieldLeads(g, path[i], path[i + 1]) by { assert FieldLeads(g, path[(i + 1) - 1], path[i + 1]); }
      NextThere(g, m, path[i], path[i + 1]);
      i := i + 1;
    }
  }

  lemma NextThere(g: Graph, m: Memo, r: nat, q: nat)
    requires Whole(g) && r < |g.records| && r in m.structs && m.structs[r] < |m.bodies| && m.bodies[m.structs[r]].Some?
    requires Filled(g, m, r) && FieldLeads(g, r, q)
    ensures q in m.structs
  {
    var j :| 0 <= j < |g.records[r]| && Leads(g, g.records[r][j].typ, q);
    assert FieldDone(g, m.structs, m.bodies[m.structs[r]].value[j], r, j);
  }

  // ----- which visits end -----

  ghost predicate FieldsEnd(g: Graph, r: nat)
    requires Whole(g) && r < |g.records|
  {
    forall j | 0 <= j < |g.records[r]| :: Ends(g, g.records[r][j].typ)
  }

  /** No record-free cycle starts at t, or at a field of a record reached from t that has no struct
      yet. */
  ghost predicate Clear(g: Graph, seen: set<nat>, t: Ref)
    requires Whole(g) && Known(g, t)
  {
    Ends(g, t) && forall r: nat | r < |g.records| && Reaches(g, seen, t, r) :: FieldsEnd(g, r)
  }

  lemma ClearMore(g: Graph, seen: set<nat>, more: set<nat>, t: Ref)
    requires Whole(g) && Known(g, t) && Clear(g, seen, t) && seen <= more
    ensures Clear(g, more, t)
  {
    hide FieldsEnd, Reaches;
    forall r: nat | r < |g.records| && Reaches(g, more, t, r) ensures FieldsEnd(g, r) { ReachMore(g, seen, more, t, r); }
  }

  lemma ClearNext(g: Graph, seen: set<nat>, t: Ref)
    requires Whole(g) && Known(g, t) && Inside(g, t).Some?
    ensures Clear(g, seen, t) <==> Clear(g, seen, Inside(g, t).value)
  {
    hide FieldsEnd, Reaches;
    EndsNext(g, t);
    forall q: nat ensures Reaches(g, seen, t, q) <==> Reaches(g, seen, Inside(g, t).value, q) { SameReach(g, seen, t, q); }
    hide Ends, Inside;
  }

  lemma ClearField(g: Graph, seen: set<nat>, r: nat, j: nat)
    requires Whole(g) && r < |g.records| && r !in seen && Clear(g, seen, Record(r)) && j < |g.records[r]|
    ensures Clear(g, seen, g.records[r][j].typ)
  {
    hide Reaches;
    ReachSelf(g, seen, r);
    assert FieldsEnd(g, r);
    forall q: nat | q < |g.records| && Reaches(g, seen, g.records[r][j].typ, q) ensures FieldsEnd(g, q) { ReachThrough(g, seen, r, j, q); }
  }

  /** A visit that ends was clear. */
  lemma EndedClear(g: Graph, m: Memo, t: Ref, fuel: nat)
    requires Whole(g) && Known(g, t) && Good(g, m) && Visit(g, m, t, fuel).Some?
    ensures Clear(g, m.structs.Keys, t)
  {
    hide Reaches, FieldsEnd;
    VisitAdds(g, m, t, fuel);
    var m' := Visit(g, m, t, fuel).value.0;
    forall r: nat | r < |g.records| && Reaches(g, m.structs.Keys, t, r) ensures FieldsEnd(g, r) { NewEnds(g, m, m', t, r); }
  }

  lemma NewEnds(g: Graph, m: Memo, m': Memo, t: Ref, r: nat)
    requires Whole(g) && Known(g, t) && Good(g, m') && Adds(g, t, m, m') && Reaches(g, m.structs.Keys, t, r)
    requires forall q | Leads(g, t, q) :: q in m'.structs
    ensures r < |g.records| && FieldsEnd(g, r)
  {
    hide Done, Direct;
    var path :| Path(g, m.structs.Keys, path) && Leads(g, t, path[0]) && path[|path| - 1] == r;
    var i := 0;
    while i < |path| - 1
      invariant 0 <= i < |path| && path[i] in m'.structs
    {
      assert FieldLeads(g, path[i], path[i + 1]) by { assert FieldLeads(g, path[(i + 1) - 1], path[i + 1]); }
      NextThere(g, m', path[i], path[i + 1]);
      i := i + 1;
    }
    FilledEnds(g, m', r);
  }

  lemma FilledEnds(g: Graph, m: Memo, r: nat)
    requires Whole(g) && r in m.structs && r < |g.records| && m.structs[r] < |m.bodies| && m.bodies[m.structs[r]].Some?
    requires Filled(g, m, r)
    ensures FieldsEnd(g, r)
  {
    forall j | 0 <= j < |g.records[r]| ensures Ends(g, g.records[r][j].typ) {
      assert FieldDone(g, m.structs, m.bodies[m.structs[r]].value[j], r, j);
    }
  }

  ghost function Unseen(g: Graph, m: Memo): set<nat> { set r | 0 <= r < |g.records| && r !in m.structs }

  /** A clear visit ends. */
  lemma {:induction false} ClearEnds(g: Graph, m: Memo, t: Ref) returns (fuel: nat)
    requires Whole(g) && Known(g, t) && Good(g, m) && Clear(g, m.structs.Keys, t)
    ensures Visit(g, m, t, fuel).Some?
    decreases Unseen(g, m), Depth(g, t) + 1, 0
  {
    hide Good, Growing, Reaches, FieldsEnd;
    if t.Record? && t.r !in m.structs {
      var r := t.r;
      Created(g, m, r);
      forall j | 0 <= j < |g.records[r]| ensures Clear(g, Open(m, r).structs.Keys, g.records[r][j].typ) {
        ClearField(g, m.structs.Keys, r, j);
        ClearMore(g, m.structs.Keys, Open(m, r).structs.Keys, g.records[r][j].typ);
      }
      assert Unseen(g, Open(m, r)) < Unseen(g, m) by { assert r in Unseen(g, m); }
      fuel := FieldsClearEnd(g, m, Open(m, r), r, 0);
      fuel := fuel + 1;
    } else if Inside(g, t).Some? {
      ClearNext(g, m.structs.Keys, t);
      EndsNext(g, t);
      fuel := ClearEnds(g, m, Inside(g, t).value);
      fuel := fuel + 1;
    } else {
      fuel := 0;
    }
  }

  lemma {:induction false} FieldsClearEnd(g: Graph, m0: Memo, m: Memo, r: nat, i: nat) returns (fuel: nat)
    requires Whole(g) && r < |g.records| && i <= |g.records[r]| && Good(g, m) && Growing(g, r, m0, m)
    requires forall j | i <= j < |g.records[r]| :: Clear(g, m.structs.Keys, g.records[r][j].typ)
    ensures VisitFields(g, m, r, i, fuel).Some?
    decreases Unseen(g, m) + {r}, 0, |g.records[r]| - i
  {
    hide Good, Reaches, Clear;
    if i == |g.records[r]| {
      fuel := 0;
    } else {
      var t := g.records[r][i].typ;
      assert r !in Unseen(g, m);
      ClearIsEnding(g, m.structs.Keys, t);
      var one := ClearEnds(g, m, t);
      VisitAdds(g, m, t, one);
      var m1 := Visit(g, m, t, one).value.0;
      Grew(g, r, i, m0, m, m1);
      forall j | i + 1 <= j < |g.records[r]| ensures Clear(g, m1.structs.Keys, g.records[r][j].typ) {
        ClearMore(g, m.structs.Keys, m1.structs.Keys, g.records[r][j].typ);
      }
      assert Unseen(g, m1) <= Unseen(g, m);
      var rest := FieldsClearEnd(g, m0, m1, r, i + 1);
      fuel := if one < rest then rest else one;
      MoreFuel(g, m, t, one, fuel);
      MoreFuelFields(g, m1, r, i + 1, rest, fuel);
    }
  }

  lemma ClearIsEnding(g: Graph, seen: set<nat>, t: Ref)
    requires Whole(g) && Known(g, t) && Clear(g, seen, t)
    ensures Ends(g, t)
  {}

  /** A visit ends exactly when it is clear. */
  lemma EndsExactly(g: Graph, m: Memo, t: Ref)
    requires Whole(g) && Known(g, t) && Good(g, m)
    ensures (exists fuel :: Visit(g, m, t, fuel).Some?) <==> Clear(g, m.structs.Keys, t)
  {
    hide Clear, Good;
    if fuel :| Visit(g, m, t, fuel).Some? { EndedClear(g, m, t, fuel); }
    if Clear(g, m.structs.Keys, t) { var fuel := ClearEnds(g, m, t); }
  }

  // ----- the visitor -----

  class LLVMTypeVisitor {
    const g: Graph
    var typ: LType
    var structs: map<nat, nat>
    var bodies: Bodies

    function Now(): Memo
      reads this
    {
      Memo(structs, bodies)
    }

    constructor (g: Graph)
      requires Whole(g)
      ensures this.g == g && Now() == EMPTY && Good(g, Now())
    {
      this.g := g;
      typ, structs, bodies := VoidType, map[], [];
    }

    /** The call must end. */
    method VisitType(t: Ref, ghost fuel: nat)
      requires Whole(g) && Known(g, t) && Visit(g, Now(), t, fuel).Some?
      modifies this
      ensures Visit(g, old(Now()), t, fuel) == Some((Now(), typ))
      decreases fuel, 1
    {
      match t {
        case Int => typ := I32;
        case String => typ := Pointer(I8);
        case Void => typ := VoidType;
        case Nil(n) => VisitType(g.nils[n], fuel - 1);
        case Named(n) => VisitType(g.named[n], fuel - 1);
        case Array(a) =>
          VisitType(g.arrays[a], fuel - 1);
          typ := Pointer(typ);
        case Record(r) => VisitRecord(r, fuel);
      }
    }

    /** A record met for the first time gets an empty struct, then its body. */
    method VisitRecord(r: nat, ghost fuel: nat)
      requires Whole(g) && r < |g.records| && Visit(g, Now(), Record(r), fuel).Some?
      modifies this
      ensures Visit(g, old(Now()), Record(r), fuel) == Some((Now(), typ))
      decreases fuel, 0
    {
      if r !in structs {
        var s := |bodies|;
        structs, bodies := structs[r := s], bodies + [None];
        var fieldTypes := VisitAll(r, fuel - 1);
        bodies := bodies[s := Some(fieldTypes)];
        typ := Pointer(Struct(s));
      } else {
        typ := Pointer(Struct(structs[r]));
      }
    }

    /** The fields of the open record r. */
    method VisitAll(r: nat, ghost fuel: nat) returns (types: seq<LType>)
      requires Whole(g) && r < |g.records| && VisitFields(g, Now(), r, 0, fuel).Some?
      modifies this
      ensures VisitFields(g, old(Now()), r, 0, fuel) == Some((Now(), types))
      decreases fuel, 2
    {
      types := [];
      ghost var from := Now();
      var i := 0;
      assert [] + VisitFields(g, from, r, 0, fuel).value.1 == VisitFields(g, from, r, 0, fuel).value.1;
      while i < |g.records[r]|
        invariant i <= |g.records[r]| && VisitFields(g, Now(), r, i, fuel).Some?
        invariant var rest := VisitFields(g, Now(), r, i, fuel).value;
          VisitFields(g, from, r, 0, fuel) == Some((rest.0, types + rest.1))
      {
        VisitType(g.records[r][i].typ, fuel);
        ghost var rest := VisitFields(g, Now(), r, i + 1, fuel).value;
        assert types + ([typ] + rest.1) == types + [typ] + rest.1;
        types := types + [typ];
        i := i + 1;
      }
      assert types + [] == types;
    }

    /** The outermost visit leaves every reachable record with one struct and its body, and adds
        no other. */
    method Translate(t: Ref)
      requires Whole(g) && Good(g, Now()) && Known(g, t) && forall i | 0 <= i < |bodies| :: bodies[i].Some?
      requires Clear(g, structs.Keys, t)
      modifies this
      ensures Good(g, Now()) && Ends(g, t) && typ == Trans(g, structs, t)
      ensures forall i | 0 <= i < |bodies| :: bodies[i].Some?
      ensures forall r :: r in structs <==> r in old(structs) || Reaches(g, {}, t, r)
      ensures forall r | r in old(structs) :: structs[r] == old(structs)[r]
    {
      hide Clear, Good, Reaches;
      ghost var m := Now();
      ghost var fuel := ClearEnds(g, m, t);
      VisitType(t, fuel);
      VisitAdds(g, m, t, fuel);
      forall r | Reaches(g, {}, t, r) ensures r in structs { AllReached(g, Now(), t, r); }
      forall r | r in structs && r !in m.structs ensures Reaches(g, {}, t, r) { ReachMore(g, {}, m.structs.Keys, t, r); }
    }
  }

  // ----- cycles -----

  /** No cycle of types avoids the records. */
  ghost predicate RecordsCutCycles(g: Graph)
    requires Whole(g)
  {
    forall t, p: nat | Known(g, t) && p > 0 :: Descend(g, t, p) != Some(t)
  }

  /** Every visit ends exactly when every cycle of types passes through a record. */
  lemma AllEndExactly(g: Graph)
    requires Whole(g)
    ensures (forall t | Known(g, t) :: Clear(g, {}, t)) <==> RecordsCutCycles(g)
  {
    if RecordsCutCycles(g) {
      forall t | Known(g, t) ensures Clear(g, {}, t) { CutClear(g, t); }
    }
    if forall t | Known(g, t) :: Clear(g, {}, t) {
      forall t, p: nat | Known(g, t) && p > 0 ensures Descend(g, t, p) != Some(t) {
        assert Clear(g, {}, t);
        ClearNotAround(g, t, p);
      }
    }
  }

  lemma CutClear(g: Graph, t: Ref)
    requires Whole(g) && Known(g, t) && RecordsCutCycles(g)
    ensures Clear(g, {}, t)
  {
    hide Reaches, RecordsCutCycles, Ends;
    forall u | Known(g, u) ensures Ends(g, u) { CutEnds(g, u); }
  }

  lemma ClearNotAround(g: Graph, t: Ref, p: nat)
    requires Whole(g) && Known(g, t) && p > 0 && Clear(g, {}, t)
    ensures Descend(g, t, p) != Some(t)
  {
    hide Reaches;
    if Descend(g, t, p) == Some(t) { Around(g, t, p, Depth(g, t) + 1); }
  }

  /** A chain that comes back does not end. */
  lemma {:induction false} Around(g: Graph, t: Ref, p: nat, k: nat)
    requires Whole(g) && Known(g, t) && p > 0 && Descend(g, t, p) == Some(t)
    ensures Descend(g, t, k).Some?
    decreases k
  {
    if k >= p {
      Around(g, t, p, k - p);
      DescendAdd(g, t, p, k - p);
    } else {
      DescendAdd(g, t, k, p - k);
    }
  }

  /** The types that a visit goes through are numbered. */
  function Number(g: Graph, t: Ref): (n: nat)
    requires Known(g, t) && (t.Named? || t.Nil? || t.Array?)
    ensures n < |g.named| + |g.nils| + |g.arrays|
  {
    match t
    case Named(n) => n
    case Nil(n) => |g.named| + n
    case Array(a) => |g.named| + |g.nils| + a
  }

  /** Without cycles, visits end after at most as many steps as there are types. */
  lemma {:induction false} CutEnds(g: Graph, t: Ref)
    requires Whole(g) && Known(g, t) && RecordsCutCycles(g)
    ensures Ends(g, t)
  {
    hide Descend, Inside, Number, Whole;
    var n := |g.named| + |g.nils| + |g.arrays|;
    if Descend(g, t, n + 1).Some? {
      var numbers := Numbers(g, t, n);
      forall i, j | 0 <= i < j < n + 1 ensures numbers[i] != numbers[j] { NumbersDiffer(g, t, n, i, j); }
      Pigeonhole(numbers, n);
    }
  }

  /** The numbers of the types visited before step n + 1. */
  ghost function Numbers(g: Graph, t: Ref, n: nat): (s: seq<nat>)
    requires Whole(g) && Known(g, t) && Descend(g, t, n + 1).Some?
    ensures |s| == n + 1
    ensures forall i | 0 <= i <= n :: s[i] < |g.named| + |g.nils| + |g.arrays|
  {
    seq(n + 1, i requires 0 <= i <= n => NumberAt(g, t, n, i))
  }

  ghost function NumberAt(g: Graph, t: Ref, n: nat, i: nat): (r: nat)
    requires Whole(g) && Known(g, t) && Descend(g, t, n + 1).Some? && i <= n
    ensures r < |g.named| + |g.nils| + |g.arrays|
    ensures Descend(g, t, i).Some? && Inside(g, Descend(g, t, i).value).Some? && r == Number(g, Descend(g, t, i).value)
  {
    DescendAdd(g, t, i, n + 1 - i);
    Number(g, Descend(g, t, i).value)
  }

  lemma NumbersDiffer(g: Graph, t: Ref, n: nat, i: nat, j: nat)
    requires Whole(g) && Known(g, t) && Descend(g, t, n + 1).Some? && i < j <= n && RecordsCutCycles(g)
    ensures Numbers(g, t, n)[i] != Numbers(g, t, n)[j]
  {
    DescendAdd(g, t, i, j - i);
    assert NumberAt(g, t, n, i) == Numbers(g, t, n)[i] && NumberAt(g, t, n, j) == Numbers(g, t, n)[j];
    assert Descend(g, Descend(g, t, i).value, j - i) != Some(Descend(g, t, i).value);
  }

  // ----- an array of itself -----

  /** `type a = array of a`. */
  function ArrayOfItself(): Graph { Graph([Array(0)], [], [Named(0)], []) }

  /** The check for cycles accepts it, because the chain of names stops at the array; but visiting
      the name never ends, while visiting other types of the same program does. */
  lemma ArrayOfItselfNeverEnds(fuel: nat)
    ensures Whole(ArrayOfItself()) && Sound(ArrayOfItself().named, Named(0))
    ensures Visit(ArrayOfItself(), EMPTY, Named(0), fuel).None? && Visit(ArrayOfItself(), EMPTY, Int, fuel).Some?
  {
    assert Stops(ArrayOfItself().named, Named(0), 1);
    ItselfRuns(EMPTY, fuel);
  }

  lemma {:induction false} ItselfRuns(m: Memo, fuel: nat)
    ensures Visit(ArrayOfItself(), m, Named(0), fuel).None?
    decreases fuel
  {
    var g := ArrayOfItself();
    if fuel > 1 {
      ItselfRuns(m, fuel - 2);
      assert Visit(g, m, Array(0), fuel - 1).None?;
    }
  }
}
