/** When two types may meet: the structural test each kind of type runs, following names. */
module Compatibility {
  import opened Options
  import opened Types

  /** `actual`: what a chain of names stands for.  k bounds the chain. */
  function Actual(named: seq<Ref>, t: Ref, ghost k: nat): (r: Ref)
    requires Stops(named, t, k)
    ensures !r.Named? && r == Follow(named, t, k)
    decreases k
  {
    if t.Named? then Actual(named, named[t.n], k - 1) else t
  }

  lemma ActualUnique(named: seq<Ref>, t: Ref, k: nat, j: nat)
    requires Stops(named, t, k) && Stops(named, t, j)
    ensures Actual(named, t, k) == Actual(named, t, j)
  {
    if k <= j { StaysStopped(named, t, k, j); } else { StaysStopped(named, t, j, k); }
  }

  /** `compatible_with`, kind by kind: a name asks what it points to, nil wants a record, a record
      takes nil or itself, anything else wants the same actual type. */
  function Compatible(named: seq<Ref>, a: Ref, b: Ref, ghost ka: nat, ghost kb: nat): bool
    requires Stops(named, a, ka) && Stops(named, b, kb)
    decreases ka
  {
    match a
    case Named(n) => if named[n].Unset? then false else Compatible(named, named[n], b, ka - 1, kb)
    case Nil(_) => Actual(named, b, kb).Record?
    case Record(_) => b.Nil? || a == Actual(named, b, kb)
    case Array(_) => a == Actual(named, b, kb)
    case _ => a == Actual(named, b, kb)
  }

  /** No name is bound to nil itself: the syntax has no way to write it. */
  ghost predicate NilIsNameless(named: seq<Ref>) { forall i | 0 <= i < |named| :: !named[i].Nil? }

  /** The test depends on the actual types only: the same type, not nil; or nil and a record. */
  ghost predicate Meet(x: Ref, y: Ref) {
    (x == y && !x.Nil?) || (x.Nil? && y.Record?) || (x.Record? && y.Nil?)
  }

  lemma {:induction false} NilUnnamed(named: seq<Ref>, t: Ref, k: nat)
    requires NilIsNameless(named) && Follow(named, t, k).Nil?
    ensures t.Nil?
    decreases k
  {
    if k > 0 && t.Named? && t.n < |named| { NilUnnamed(named, named[t.n], k - 1); }
  }

  lemma CompatibleExact(named: seq<Ref>, a: Ref, b: Ref, ka: nat, kb: nat)
    requires Stops(named, a, ka) && Stops(named, b, kb) && NilIsNameless(named)
    requires Actual(named, a, ka) != Unset
    ensures Compatible(named, a, b, ka, kb) <==> Meet(Actual(named, a, ka), Actual(named, b, kb))
    decreases ka
  {
    match a
    case Named(n) => CompatibleExact(named, named[n], b, ka - 1, kb);
    case Record(_) => if Actual(named, b, kb).Nil? { NilUnnamed(named, b, kb); }
    case _ =>
  }

  /** Hence it is symmetric, and any number of names may stand between. */
  lemma CompatibleSymmetric(named: seq<Ref>, a: Ref, b: Ref, ka: nat, kb: nat)
    requires Stops(named, a, ka) && Stops(named, b, kb) && NilIsNameless(named)
    requires Actual(named, a, ka) != Unset && Actual(named, b, kb) != Unset
    ensures Compatible(named, a, b, ka, kb) == Compatible(named, b, a, kb, ka)
  {
    CompatibleExact(named, a, b, ka, kb);
    CompatibleExact(named, b, a, kb, ka);
  }

  lemma CompatibleThroughNames(named: seq<Ref>, a: Ref, b: Ref, a': Ref, b': Ref, ka: nat, kb: nat, ka': nat, kb': nat)
    requires Stops(named, a, ka) && Stops(named, b, kb) && Stops(named, a', ka') && Stops(named, b', kb') && NilIsNameless(named)
    requires Actual(named, a, ka) == Actual(named, a', ka') != Unset && Actual(named, b, kb) == Actual(named, b', kb')
    ensures Compatible(named, a, b, ka, kb) == Compatible(named, a', b', ka', kb')
  {
    CompatibleExact(named, a, b, ka, kb);
    CompatibleExact(named, a', b', ka', kb');
  }

  /** A settled table has no unset names, so what its checker says is never a null pointer. */
  lemma SettledActual(named: seq<Ref>, t: Ref, k: nat)
    requires Within(named, |named|) && (forall i | 0 <= i < |named| :: named[i] != Unset)
    requires Stops(named, t, k) && t != Unset && (t.Named? ==> t.n < |named|)
    ensures Actual(named, t, k) != Unset
    decreases k
  {
    if t.Named? { SettledActual(named, named[t.n], k - 1); }
  }

  // ----- fields -----

  datatype Field = Field(name: string, typ: Ref)

  /** The position of the first field called key, or -1. */
  method FieldIndex(fields: seq<Field>, key: string) returns (i: int)
    ensures -1 <= i < |fields|
    ensures i >= 0 ==> fields[i].name == key && forall j | 0 <= j < i :: fields[j].name != key
    ensures i < 0 ==> forall j | 0 <= j < |fields| :: fields[j].name != key
  {
    i := 0;
    while i < |fields|
      invariant 0 <= i <= |fields| && forall j | 0 <= j < i :: fields[j].name != key
    {
      if fields[i].name == key { return; }
      i := i + 1;
    }
    i := -1;
  }

  /** The type of the first field called key, if any. */
  method FieldType(fields: seq<Field>, key: string) returns (t: Option<Ref>)
    ensures t.Some? <==> exists j :: 0 <= j < |fields| && fields[j].name == key
    ensures t.Some? ==> exists j | 0 <= j < |fields| ::
              fields[j] == Field(key, t.value) && forall k | 0 <= k < j :: fields[k].name != key
  {
    var i := 0;
    while i < |fields|
      invariant 0 <= i <= |fields| && forall j | 0 <= j < i :: fields[j].name != key
    {
      if fields[i].name == key {
        assert fields[i] == Field(key, fields[i].typ);
        return Some(fields[i].typ);
      }
      i := i + 1;
    }
    t := None;
  }
}
