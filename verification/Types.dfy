/** Types as a graph of objects: named types point to what they stand for, so declarations may refer
    to each other.  The chunk of declarations is checked in two passes, and cycles of names are cut. */
module Types {
  import opened Options

  /** A reference to a type object.  Unset is the null pointer of a name whose body is yet to come. */
  datatype Ref = Unset | Named(n: nat) | Int | String | Void | Nil(k: nat) | Record(r: nat) | Array(a: nat)

  /** k steps from t along named types. */
  function Follow(named: seq<Ref>, t: Ref, k: nat): Ref
    decreases k
  {
    if k == 0 || !t.Named? || t.n >= |named| then t else Follow(named, named[t.n], k - 1)
  }

  predicate Stops(named: seq<Ref>, t: Ref, k: nat) { !Follow(named, t, k).Named? }

  ghost predicate Sound(named: seq<Ref>, t: Ref) { exists k: nat :: Stops(named, t, k) }

  /** References stay within a table of size n. */
  predicate Within(named: seq<Ref>, n: nat) {
    forall i | 0 <= i < |named| :: named[i].Named? ==> named[i].n < n
  }

  lemma FollowAdd(named: seq<Ref>, t: Ref, j: nat, k: nat)
    ensures Follow(named, t, j + k) == Follow(named, Follow(named, t, j), k)
    decreases j
  {
    if j > 0 && t.Named? && t.n < |named| { FollowAdd(named, named[t.n], j - 1, k); }
  }

  lemma FollowWithin(named: seq<Ref>, t: Ref, k: nat)
    requires Within(named, |named|) && (t.Named? ==> t.n < |named|)
    ensures Follow(named, t, k).Named? ==> Follow(named, t, k).n < |named|
    decreases k
  {
    if k > 0 && t.Named? { FollowWithin(named, named[t.n], k - 1); }
  }

  lemma StaysStopped(named: seq<Ref>, t: Ref, k: nat, j: nat)
    requires Stops(named, t, k) && k <= j
    ensures Follow(named, t, j) == Follow(named, t, k)
  {
    FollowAdd(named, t, k, j - k);
  }

  /** A chain that comes back never stops. */
  lemma Cycles(named: seq<Ref>, t: Ref, a: nat, b: nat, k: nat)
    requires a < b && Follow(named, t, a) == Follow(named, t, b) && Follow(named, t, b).Named?
    ensures Follow(named, t, k).Named?
    decreases k
  {
    if k <= b {
      FollowAdd(named, t, k, b - k);
    } else {
      FollowAdd(named, t, b, k - b);
      FollowAdd(named, t, a, k - b);
      Cycles(named, t, a, b, a + (k - b));
    }
  }

  lemma Pigeonhole(s: seq<nat>, n: nat)
    requires forall i | 0 <= i < |s| :: s[i] < n
    requires forall i, j | 0 <= i < j < |s| :: s[i] != s[j]
    ensures |s| <= n
  {
    Counted(s);
    forall x | x in Elements(s) ensures x in Upto(n) { Members(s, x); UptoAll(n, x); }
    Subset(Elements(s), Upto(n));
  }

  function Upto(n: nat): (r: set<nat>)
    ensures |r| <= n
  {
    if n == 0 then {} else Upto(n - 1) + {n - 1}
  }

  lemma UptoAll(n: nat, x: nat)
    requires x < n
    ensures x in Upto(n)
  {}

  function Elements(s: seq<nat>): set<nat> {
    if s == [] then {} else Elements(s[..|s| - 1]) + {s[|s| - 1]}
  }

  lemma Members(s: seq<nat>, x: nat)
    ensures x in Elements(s) <==> x in s
  {
    if s != [] {
      var t := s[..|s| - 1];
      Members(t, x);
      assert s == t + [s[|s| - 1]];
    }
  }

  lemma {:induction false} Counted(s: seq<nat>)
    requires forall i, j | 0 <= i < j < |s| :: s[i] != s[j]
    ensures |Elements(s)| == |s|
  {
    if s != [] {
      var t, x := s[..|s| - 1], s[|s| - 1];
      forall i, j | 0 <= i < j < |t| ensures t[i] != t[j] { assert s[i] != s[j]; }
      Counted(t);
      Members(t, x);
      forall i | 0 <= i < |t| ensures t[i] != x { assert s[i] != s[|s| - 1]; }
    }
  }

  lemma Subset(a: set<nat>, b: set<nat>)
    requires a <= b
    ensures |a| <= |b|
  {
    if a != {} {
      var x :| x in a;
      Subset(a - {x}, b - {x});
    }
  }

  // ----- declared cycles -----

  /** i is on a cycle of declarations, and is the last of it in the order of declaration. */
  ghost predicate Closes(declared: seq<Ref>, i: nat) {
    && (exists k: nat :: k > 0 && Follow(declared, Named(i), k) == Named(i))
    && (forall k: nat :: Follow(declared, Named(i), k).Named? ==> Follow(declared, Named(i), k).n <= i)
  }

  ghost function Closing(declared: seq<Ref>, lo: nat, hi: nat): (n: nat)
    ensures n <= hi
  {
    if hi <= lo then 0 else Closing(declared, lo, hi - 1) + (if Closes(declared, hi - 1) then 1 else 0)
  }

  /** Two names on one cycle cannot both be its last. */
  lemma OneLast(declared: seq<Ref>, i: nat, j: nat)
    requires Closes(declared, i) && Closes(declared, j) && exists k :: Follow(declared, Named(i), k) == Named(j)
    ensures i == j
  {
    var p: nat :| p > 0 && Follow(declared, Named(i), p) == Named(i);
    var k: nat :| Follow(declared, Named(i), k) == Named(j);
    Around(declared, i, p, k);
    FollowAdd(declared, Named(i), k, k * p - k);
    assert Follow(declared, Named(j), k * p - k) == Named(i);
  }

  lemma Around(declared: seq<Ref>, i: nat, p: nat, times: nat)
    requires p > 0 && Follow(declared, Named(i), p) == Named(i)
    ensures times * p >= times && Follow(declared, Named(i), times * p) == Named(i)
  {
    if times > 0 {
      Around(declared, i, p, times - 1);
      FollowAdd(declared, Named(i), (times - 1) * p, p);
    }
  }

  /** Every cycle has a last name. */
  lemma SomeLast(declared: seq<Ref>, i: nat, p: nat) returns (last: nat)
    requires p > 0 && Follow(declared, Named(i), p) == Named(i)
    ensures Closes(declared, last) && exists k :: Follow(declared, Named(i), k) == Named(last)
  {
    last := i;
    var at := 0;
    forall k: nat | k <= p ensures Follow(declared, Named(i), k).Named? { FollowAdd(declared, Named(i), k, p - k); }
    var k := 0;
    while k < p
      invariant k <= p && at <= p && Follow(declared, Named(i), at) == Named(last)
      invariant forall j | 0 <= j <= k :: Follow(declared, Named(i), j).n <= last
    {
      k := k + 1;
      if Follow(declared, Named(i), k).n > last { last, at := Follow(declared, Named(i), k).n, k; }
    }
    FollowAdd(declared, Named(i), at, p - at);
    FollowAdd(declared, Named(last), p - at, at);
    assert Follow(declared, Named(last), (p - at) + at) == Named(last);
    forall j: nat ensures Follow(declared, Named(last), j).Named? ==> Follow(declared, Named(last), j).n <= last {
      FollowAdd(declared, Named(i), at, j);
      var at' := Wraps(declared, i, p, at + j);
    }
  }

  /** Positions on a cycle repeat. */
  lemma {:induction false} Wraps(declared: seq<Ref>, i: nat, p: nat, k: nat) returns (j: nat)
    requires p > 0 && Follow(declared, Named(i), p) == Named(i)
    ensures j <= p && Follow(declared, Named(i), k) == Follow(declared, Named(i), j)
    decreases k
  {
    j := k;
    if k > p {
      FollowAdd(declared, Named(i), p, k - p);
      j := Wraps(declared, i, p, k - p);
    }
  }

  // ----- completing one name -----

  /** The table while a chunk is checked: names before i are complete, the others have no body. */
  ghost predicate Checked(declared: seq<Ref>, now: seq<Ref>, base: nat, i: nat) {
    && base <= i <= |declared| == |now| && Within(declared, |declared|)
    && (forall j | 0 <= j < |now| :: Sound(now, Named(j)))
    && (forall j | 0 <= j < base :: now[j] == declared[j])
    && (forall j | base <= j < i :: now[j] == if Closes(declared, j) then Void else declared[j])
    && (forall j | i <= j < |now| :: now[j] == Unset)
  }

  /** Along a chain that meets only complete names the table agrees with the declarations. */
  lemma SameChain(declared: seq<Ref>, now: seq<Ref>, t: Ref, k: nat)
    requires |now| == |declared|
    requires forall j: nat :: j < k && Follow(declared, t, j).Named? && Follow(declared, t, j).n < |declared| ==>
               now[Follow(declared, t, j).n] == declared[Follow(declared, t, j).n]
    ensures Follow(now, t, k) == Follow(declared, t, k)
    decreases k
  {
    if k > 0 && t.Named? && t.n < |declared| {
      assert Follow(declared, t, 0) == t;
      forall j: nat | j < k - 1 ensures Follow(declared, declared[t.n], j) == Follow(declared, t, j + 1) {}
      SameChain(declared, now, declared[t.n], k - 1);
    }
  }

  /** The body of the last name of a cycle closes a cycle in the table. */
  lemma ClosesLoops(declared: seq<Ref>, now: seq<Ref>, base: nat, i: nat)
    requires base <= i < |declared| && Checked(declared, now, base, i) && Closes(declared, i)
    requires forall j | 0 <= j < base :: declared[j].Named? ==> declared[j].n < base
    ensures !Sound(now[i := declared[i]], Named(i))
  {
    var next := now[i := declared[i]];
    var p: nat :| p > 0 && Follow(declared, Named(i), p) == Named(i);
    forall k: nat ensures Follow(declared, Named(i), k).Named? && base <= Follow(declared, Named(i), k).n {
      Cycles(declared, Named(i), 0, p, k);
      OutsideStays(declared, base, i, p, k);
    }
    forall k: nat ensures next[Follow(declared, Named(i), k).n] == declared[Follow(declared, Named(i), k).n] {
      var m := Follow(declared, Named(i), k).n;
      if m != i && Closes(declared, m) { OneLast(declared, i, m); }
    }
    forall k: nat ensures Follow(next, Named(i), k).Named? { SameChain(declared, next, Named(i), k); }
  }

  /** Names of enclosing scopes do not refer to the chunk, so no cycle goes through them. */
  lemma OutsideStays(declared: seq<Ref>, base: nat, i: nat, p: nat, k: nat)
    requires base <= i < |declared| && p > 0 && Follow(declared, Named(i), p) == Named(i)
    requires forall j | 0 <= j < base :: declared[j].Named? ==> declared[j].n < base
    ensures Follow(declared, Named(i), k).Named? ==> base <= Follow(declared, Named(i), k).n
  {
    var t := Follow(declared, Named(i), k);
    if t.Named? && t.n < base {
      Around(declared, i, p, k);
      FollowAdd(declared, Named(i), k, k * p - k);
      Below(declared, base, t, k * p - k);
    }
  }

  lemma Below(declared: seq<Ref>, base: nat, t: Ref, k: nat)
    requires t.Named? && t.n < base <= |declared|
    requires forall j | 0 <= j < base :: declared[j].Named? ==> declared[j].n < base
    ensures Follow(declared, t, k).Named? ==> Follow(declared, t, k).n < base
    decreases k
  {
    if k > 0 && declared[t.n].Named? { Below(declared, base, declared[t.n], k - 1); }
  }

  /** If the table does not stop from i, the name i closes a declared cycle. */
  lemma LoopsClose(declared: seq<Ref>, now: seq<Ref>, base: nat, i: nat)
    requires base <= i < |declared| && Checked(declared, now, base, i) && !Sound(now[i := declared[i]], Named(i))
    ensures Closes(declared, i)
  {
    var next := now[i := declared[i]];
    forall k: nat ensures Follow(next, Named(i), k).Named? { assert !Stops(next, Named(i), k); }
    forall k: nat
      ensures Follow(next, Named(i), k).n <= i && next[Follow(next, Named(i), k).n] == declared[Follow(next, Named(i), k).n]
    {
      FollowWithin(next, Named(i), k);
      FollowAdd(next, Named(i), k, 1);
      assert Follow(next, Named(i), k + 1) == next[Follow(next, Named(i), k).n];
    }
    forall k: nat ensures Follow(declared, Named(i), k) == Follow(next, Named(i), k) { SameChain(next, declared, Named(i), k); }
    var t := declared[i];
    assert Follow(next, Named(i), 1) == Follow(next, t, 0) == t;
    if t != Named(i) {
      var k: nat :| Stops(now, t, k);
      assert Follow(next, t, k) == Follow(next, Named(i), k + 1);
      var j := ChangedOnTheWay(now, next, i, t, k);
      assert Follow(next, Named(i), j + 1) == Follow(next, t, j) == Named(i);
    }
  }

  /** If a chain no longer stops where it did, it meets the name that changed. */
  lemma ChangedOnTheWay(now: seq<Ref>, next: seq<Ref>, i: nat, t: Ref, k: nat) returns (j: nat)
    requires i < |now| == |next| && next == now[i := next[i]] && Stops(now, t, k) && !Stops(next, t, k)
    ensures Follow(next, t, j) == Named(i)
    decreases k
  {
    if t == Named(i) {
      j := 0;
    } else {
      j := ChangedOnTheWay(now, next, i, now[t.n], k - 1);
      j := j + 1;
    }
  }

  /** Completing a name whose chain stops leaves every chain stopping. */
  lemma StillSound(now: seq<Ref>, next: seq<Ref>, i: nat, t: Ref, k: nat)
    requires i < |now| == |next| && next == now[i := next[i]] && Stops(now, t, k) && Sound(next, Named(i))
    ensures Sound(next, t)
    decreases k
  {
    if k == 0 || !t.Named? || t.n >= |now| {
      assert Stops(next, t, 0) || Stops(next, t, k);
    } else if t.n != i {
      StillSound(now, next, i, now[t.n], k - 1);
      var j: nat :| Stops(next, now[t.n], j);
      assert Follow(next, t, j + 1) == Follow(next, now[t.n], j);
      assert Stops(next, t, j + 1);
    }
  }

  lemma Completed(declared: seq<Ref>, now: seq<Ref>, next: seq<Ref>, base: nat, i: nat)
    requires base <= i < |declared| && Checked(declared, now, base, i) && Sound(next, Named(i))
    requires next == now[i := if Closes(declared, i) then Void else declared[i]]
    ensures Checked(declared, next, base, i + 1)
  {
    forall j | 0 <= j < |next| ensures Sound(next, Named(j)) {
      var k: nat :| Stops(now, Named(j), k);
      StillSound(now, next, i, Named(j), k);
    }
  }

  // ----- the checker -----

  class NamedTypes {
    var target: seq<Ref>
    var errors: nat

    constructor ()
      ensures target == [] && errors == 0
    {
      target, errors := [], 0;
    }

    /** Every name has a body, and following names always ends. */
    ghost predicate Settled()
      reads this
    {
      && Within(target, |target|)
      && forall i | 0 <= i < |target| :: target[i] != Unset && Sound(target, Named(i))
    }

    /** `Named::sound`: walk along the names until one is met again. */
    method IsSound(i: nat) returns (ok: bool)
      requires i < |target| && Within(target, |target|)
      ensures ok <==> Sound(target, Named(i))
    {
      var visited: seq<nat> := [];
      var t := Named(i);
      while t.Named?
        invariant t == Follow(target, Named(i), |visited|) && (t.Named? ==> t.n < |target|)
        invariant forall j | 0 <= j < |visited| :: visited[j] < |target| && Follow(target, Named(i), j) == Named(visited[j])
        invariant forall j, k | 0 <= j < k < |visited| :: visited[j] != visited[k]
        invariant |visited| <= |target|
        decreases |target| - |visited|
      {
        if t.n in visited {
          var j :| 0 <= j < |visited| && visited[j] == t.n;
          forall k: nat ensures !Stops(target, Named(i), k) { Cycles(target, Named(i), j, |visited|, k); }
          return false;
        }
        FollowAdd(target, Named(i), |visited|, 1);
        assert Follow(target, t, 1) == target[t.n];
        visited := visited + [t.n];
        Pigeonhole(visited, |target|);
        t := target[t.n];
      }
      assert Stops(target, Named(i), |visited|);
      ok := true;
    }

    /** The names of a chunk, without bodies. */
    method VisitHeaders(n: nat)
      modifies this`target
      ensures target == old(target) + seq(n, _ => Unset)
    {
      var k := 0;
      while k < n
        invariant k <= n && target == old(target) + seq(k, _ => Unset)
      {
        target := target + [Unset];
        k := k + 1;
      }
    }

    /** The body of one name, which becomes Void if it closes a cycle. */
    method VisitBody(i: nat, body: Ref, ghost declared: seq<Ref>, ghost base: nat)
      requires base <= i < |declared| && Checked(declared, target, base, i) && body == declared[i]
      requires forall j | 0 <= j < base :: declared[j].Named? ==> declared[j].n < base
      modifies this
      ensures Checked(declared, target, base, i + 1)
      ensures errors == old(errors) + if Closes(declared, i) then 1 else 0
    {
      ghost var now := target;
      target := target[i := body];
      var ok := IsSound(i);
      if Closes(declared, i) { ClosesLoops(declared, now, base, i); } else if !ok { LoopsClose(declared, now, base, i); }
      if !ok {
        errors := errors + 1;
        target := target[i := Void];
        assert Stops(target, Named(i), 1);
      }
      Completed(declared, now, target, base, i);
    }

    /** The bodies of a chunk in order, the first of which completes the name base. */
    method VisitBodies(bodies: seq<Ref>, base: nat, ghost declared: seq<Ref>)
      requires base + |bodies| == |declared| && declared[base..] == bodies && Checked(declared, target, base, base)
      requires forall j | 0 <= j < base :: declared[j].Named? ==> declared[j].n < base
      modifies this
      ensures Checked(declared, target, base, |declared|)
      ensures errors == old(errors) + Closing(declared, base, |declared|)
    {
      hide Checked, Closes;
      var i := base;
      while i < base + |bodies|
        invariant base <= i <= |declared| && Checked(declared, target, base, i)
        invariant errors == old(errors) + Closing(declared, base, i)
      {
        assert bodies[i - base] == declared[i];
        VisitBody(i, bodies[i - base], declared, base);
        i := i + 1;
      }
    }

    /** A chunk of declarations: all the names, then their bodies in order.  The table ends up
        settled; exactly the last name of each declared cycle is redirected to Void, with one error. */
    method DeclareChunk(bodies: seq<Ref>)
      requires Settled() && Within(bodies, |target| + |bodies|) && forall i | 0 <= i < |bodies| :: bodies[i] != Unset
      modifies this
      ensures Settled() && |target| == old(|target|) + |bodies|
      ensures var base, declared := old(|target|), old(target) + bodies;
        && (forall i | 0 <= i < base :: target[i] == declared[i])
        && (forall i | base <= i < |target| :: target[i] == if Closes(declared, i) then Void else declared[i])
        && errors == old(errors) + Closing(declared, base, |declared|)
    {
      hide Checked, Closes;
      var base := |target|;
      ghost var declared := target + bodies;
      VisitHeaders(|bodies|);
      ChunkStarts(old(target), bodies, target);
      VisitBodies(bodies, base, declared);
      ChunkEnds(declared, target, base);
    }
  }

  lemma ChunkStarts(before: seq<Ref>, bodies: seq<Ref>, now: seq<Ref>)
    requires Within(before, |before|) && Within(bodies, |before| + |bodies|) && now == before + seq(|bodies|, _ => Unset)
    requires forall j | 0 <= j < |before| :: Sound(before, Named(j))
    ensures Checked(before + bodies, now, |before|, |before|)
  {
    HeadersSound(before, now);
  }

  lemma ChunkEnds(declared: seq<Ref>, now: seq<Ref>, base: nat)
    requires Checked(declared, now, base, |declared|) && forall i | 0 <= i < |declared| :: declared[i] != Unset
    ensures Within(now, |now|) && |now| == |declared|
    ensures forall i | 0 <= i < |now| :: now[i] != Unset && Sound(now, Named(i))
    ensures (forall i | 0 <= i < base :: now[i] == declared[i])
    ensures forall i | base <= i < |now| :: now[i] == if Closes(declared, i) then Void else declared[i]
  {}

  lemma HeadersSound(before: seq<Ref>, now: seq<Ref>)
    requires before <= now && Within(before, |before|) && (forall j | |before| <= j < |now| :: now[j] == Unset)
    requires forall j | 0 <= j < |before| :: Sound(before, Named(j))
    ensures forall j | 0 <= j < |now| :: Sound(now, Named(j))
  {
    forall j | 0 <= j < |now| ensures Sound(now, Named(j)) {
      if j < |before| {
        var k: nat :| Stops(before, Named(j), k);
        MoreNames(before, now, Named(j), k);
        assert Stops(now, Named(j), k);
      } else {
        assert Follow(now, Named(j), 1) == Follow(now, Unset, 0);
        assert Stops(now, Named(j), 1);
      }
    }
  }

  lemma MoreNames(before: seq<Ref>, now: seq<Ref>, t: Ref, k: nat)
    requires before <= now && Within(before, |before|) && (t.Named? ==> t.n < |before|)
    ensures Follow(now, t, k) == Follow(before, t, k)
    decreases k
  {
    if k > 0 && t.Named? { MoreNames(before, now, before[t.n], k - 1); }
  }
}
