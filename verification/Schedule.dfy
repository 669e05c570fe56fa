/** The task scheduler: enabling a task first enables what it depends on.  Ordinary tasks need all
    their dependencies, disjunctive ones need one, the first by default. */
module Scheduling {
  import opened Options
  import opened Tasks

  // ----- what a request does -----

  /** The order of the tasks to execute, and the errors so far. */
  datatype Log = Log(order: seq<string>, errors: nat)

  /** The dependencies of a task that are to be enabled, given those that already are. */
  function Resolve(t: Task, enabled: seq<string>): seq<string> {
    if !t.disjunctive then t.deps
    else if enabled != [] || t.deps == [] then []
    else [t.deps[0]]
  }

  function Unknown(tasks: Tasks, ds: seq<string>): nat {
    if ds == [] then 0 else (if ds[0] in tasks then 0 else 1) + Unknown(tasks, ds[1..])
  }

  function Enabled(tasks: Tasks, order: seq<string>, ds: seq<string>): seq<string> {
    if ds == [] then []
    else (if ds[0] in tasks && ds[0] in order then [ds[0]] else []) + Enabled(tasks, order, ds[1..])
  }

  /** One request.  The fuel bounds the depth of requests within requests; without enough of it
      there is no result. */
  function Enable(tasks: Tasks, g: Log, name: string, fuel: nat): Option<Log>
    decreases fuel, 0
  {
    if name !in tasks then Some(g.(errors := g.errors + 1))
    else if fuel == 0 then None
    else
      var r := EnableMissing(tasks, Noted(tasks, g, name), Wants(tasks, g, name), fuel - 1);
      if r.None? then None else Some(r.value.(order := r.value.order + [name]))
  }

  /** The unknown dependencies of name are errors. */
  function Noted(tasks: Tasks, g: Log, name: string): Log
    requires name in tasks
  {
    g.(errors := g.errors + Unknown(tasks, tasks[name].deps))
  }

  function Wants(tasks: Tasks, g: Log, name: string): seq<string>
    requires name in tasks
  {
    Resolve(tasks[name], Enabled(tasks, g.order, tasks[name].deps))
  }

  /** One after the other, those that are not there yet. */
  function EnableMissing(tasks: Tasks, g: Log, ds: seq<string>, fuel: nat): Option<Log>
    decreases fuel, |ds| + 1
  {
    if ds == [] then Some(g)
    else if ds[0] !in tasks || ds[0] in g.order then EnableMissing(tasks, g, ds[1..], fuel)
    else
      var r := Enable(tasks, g, ds[0], fuel);
      if r.None? then None else EnableMissing(tasks, r.value, ds[1..], fuel)
  }

  /** Any sequence of requests. */
  function EnableEach(tasks: Tasks, g: Log, requests: seq<string>, fuel: nat): Option<Log>
    decreases |requests|
  {
    if requests == [] then Some(g)
    else
      var r := Enable(tasks, g, requests[0], fuel);
      if r.None? then None else EnableEach(tasks, r.value, requests[1..], fuel)
  }

  lemma {:induction false} MoreFuel(tasks: Tasks, g: Log, name: string, fuel: nat, more: nat)
    requires Enable(tasks, g, name, fuel).Some? && fuel <= more
    ensures Enable(tasks, g, name, more) == Enable(tasks, g, name, fuel)
    decreases fuel, 0
  {
    if name in tasks { MoreFuelMissing(tasks, Noted(tasks, g, name), Wants(tasks, g, name), fuel - 1, more - 1); }
  }

  lemma {:induction false} MoreFuelMissing(tasks: Tasks, g: Log, ds: seq<string>, fuel: nat, more: nat)
    requires EnableMissing(tasks, g, ds, fuel).Some? && fuel <= more
    ensures EnableMissing(tasks, g, ds, more) == EnableMissing(tasks, g, ds, fuel)
    decreases fuel, |ds| + 1
  {
    if ds == [] {
    } else if ds[0] !in tasks || ds[0] in g.order {
      MoreFuelMissing(tasks, g, ds[1..], fuel, more);
    } else {
      MoreFuel(tasks, g, ds[0], fuel, more);
      MoreFuelMissing(tasks, Enable(tasks, g, ds[0], fuel).value, ds[1..], fuel, more);
    }
  }

  // ----- dependencies that may be followed -----

  /** All, or for a disjunctive task the first. */
  function Followed(t: Task): seq<string> { if t.disjunctive && t.deps != [] then [t.deps[0]] else t.deps }

  /** Enabling a may enable b, which is not in the order yet. */
  predicate Leads(tasks: Tasks, order: seq<string>, a: string, b: string) {
    a in tasks && b in tasks && b !in order && b in Followed(tasks[a])
  }

  ghost predicate Path(tasks: Tasks, order: seq<string>, path: seq<string>) {
    path != [] && path[0] in tasks && forall i | 0 < i < |path| :: Leads(tasks, order, path[i - 1], path[i])
  }

  ghost predicate Reaches(tasks: Tasks, order: seq<string>, a: string, b: string) {
    exists path :: Path(tasks, order, path) && path[0] == a && path[|path| - 1] == b
  }

  lemma ReachesSelf(tasks: Tasks, order: seq<string>, a: string)
    requires a in tasks
    ensures Reaches(tasks, order, a, a)
  {
    assert Path(tasks, order, [a]) && [a][|[a]| - 1] == a;
  }

  lemma ReachesStep(tasks: Tasks, order: seq<string>, a: string, d: string, b: string)
    requires Leads(tasks, order, a, d) && Reaches(tasks, order, d, b)
    ensures Reaches(tasks, order, a, b)
  {
    var path :| Path(tasks, order, path) && path[0] == d && path[|path| - 1] == b;
    var longer := [a] + path;
    forall i | 0 < i < |longer| ensures Leads(tasks, order, longer[i - 1], longer[i]) {
      if i > 1 { assert Leads(tasks, order, path[i - 2], path[i - 1]); }
    }
    assert Path(tasks, order, longer) && longer[|longer| - 1] == b;
  }

  /** A way that is not empty starts with a step. */
  lemma ReachesFirst(tasks: Tasks, order: seq<string>, a: string, b: string) returns (d: string)
    requires Reaches(tasks, order, a, b) && a != b
    ensures Leads(tasks, order, a, d) && Reaches(tasks, order, d, b)
  {
    var path :| Path(tasks, order, path) && path[0] == a && path[|path| - 1] == b;
    d := path[1];
    assert Leads(tasks, order, path[1 - 1], path[1]);
    var rest := path[1..];
    forall i | 0 < i < |rest| ensures Leads(tasks, order, rest[i - 1], rest[i]) {
      assert Leads(tasks, order, path[i], path[i + 1]) by { assert Leads(tasks, order, path[(i + 1) - 1], path[i + 1]); }
    }
    assert Path(tasks, order, rest) && rest[|rest| - 1] == b;
  }

  lemma ReachesKnown(tasks: Tasks, order: seq<string>, a: string, b: string)
    requires Reaches(tasks, order, a, b)
    ensures a in tasks && b in tasks
  {
    var path :| Path(tasks, order, path) && path[0] == a && path[|path| - 1] == b;
    if |path| > 1 { assert Leads(tasks, order, path[(|path| - 1) - 1], path[|path| - 1]); }
  }

  predicate Within(a: seq<string>, b: seq<string>) { forall x | x in a :: x in b }

  lemma ReachesLess(tasks: Tasks, order: seq<string>, more: seq<string>, a: string, b: string)
    requires Within(order, more) && Reaches(tasks, more, a, b)
    ensures Reaches(tasks, order, a, b)
  {
    var path :| Path(tasks, more, path) && path[0] == a && path[|path| - 1] == b;
    forall i | 0 < i < |path| ensures Leads(tasks, order, path[i - 1], path[i]) { assert Leads(tasks, more, path[i - 1], path[i]); }
    assert Path(tasks, order, path);
  }

  /** From name on, no way comes back to a task through tasks not in the order yet. */
  ghost predicate Clear(tasks: Tasks, order: seq<string>, name: string) {
    forall a, b | Reaches(tasks, order, name, a) && Leads(tasks, order, a, b) :: !Reaches(tasks, order, b, a)
  }

  lemma ClearLess(tasks: Tasks, order: seq<string>, more: seq<string>, name: string)
    requires Clear(tasks, order, name) && Within(order, more)
    ensures Clear(tasks, more, name)
  {
    forall a, b | Reaches(tasks, more, name, a) && Leads(tasks, more, a, b) ensures !Reaches(tasks, more, b, a) {
      ReachesLess(tasks, order, more, name, a);
      assert Leads(tasks, order, a, b);
      if Reaches(tasks, more, b, a) { ReachesLess(tasks, order, more, b, a); }
    }
  }

  lemma ClearNext(tasks: Tasks, order: seq<string>, name: string, d: string)
    requires Clear(tasks, order, name) && Leads(tasks, order, name, d)
    ensures Clear(tasks, order, d) && !Reaches(tasks, order, d, name)
  {
    ReachesSelf(tasks, order, name);
    forall a, b | Reaches(tasks, order, d, a) && Leads(tasks, order, a, b) ensures !Reaches(tasks, order, b, a) {
      ReachesStep(tasks, order, name, d, a);
    }
  }

  // ----- what is added -----

  /** What the task at position i needs has gone before. */
  ghost predicate Met(tasks: Tasks, order: seq<string>, i: nat)
    requires i < |order|
  {
    order[i] in tasks && Served(tasks, tasks[order[i]], order[..i])
  }

  ghost predicate Served(tasks: Tasks, t: Task, before: seq<string>) {
    if !t.disjunctive then forall d | d in t.deps && d in tasks :: d in before
    else t.deps != [] && t.deps[0] in tasks ==> exists d :: d in t.deps && d in before
  }

  /** From before to after, for the sake of root: the new tasks are needed by root, come after what
      they need, and were not there before. */
  ghost predicate Adds(tasks: Tasks, before: seq<string>, after: seq<string>, root: string) {
    && before <= after
    && forall i | |before| <= i < |after| ::
         Met(tasks, after, i) && Reaches(tasks, before, root, after[i]) && after[i] !in before
  }

  /** The new tasks are each new but once, and root is not among them. */
  ghost predicate Once(before: seq<string>, after: seq<string>, root: string) {
    && before <= after && (forall i | |before| <= i < |after| :: after[i] != root)
    && (forall i, j | |before| <= i < j < |after| :: after[i] != after[j])
  }

  lemma PrefixWithin(a: seq<string>, b: seq<string>)
    requires a <= b
    ensures Within(a, b)
  {
    forall x | x in a ensures x in b {
      var i :| 0 <= i < |a| && a[i] == x;
      assert b[i] == x;
    }
  }

  /** First for the sake of d, to which root leads, then for that of root. */
  lemma AddsTrans(tasks: Tasks, a: seq<string>, b: seq<string>, c: seq<string>, root: string, d: string)
    requires Adds(tasks, a, b, d) && Adds(tasks, b, c, root) && Leads(tasks, a, root, d)
    ensures Adds(tasks, a, c, root)
  {
    hide Reaches, Served, Leads;
    PrefixWithin(a, b);
    forall i | |a| <= i < |c| ensures Met(tasks, c, i) && Reaches(tasks, a, root, c[i]) && c[i] !in a {
      if i < |b| {
        assert c[i] == b[i] && c[..i] == b[..i] && Met(tasks, b, i);
        ReachesStep(tasks, a, root, d, c[i]);
      } else {
        ReachesLess(tasks, a, b, root, c[i]);
      }
    }
  }

  /** The task d itself, after what it needs. */
  lemma AddsLast(tasks: Tasks, before: seq<string>, mid: seq<string>, d: string)
    requires d in tasks && d !in before && Adds(tasks, before, mid, d) && Served(tasks, tasks[d], mid)
    ensures Adds(tasks, before, mid + [d], d)
  {
    hide Reaches, Served;
    var after := mid + [d];
    ReachesSelf(tasks, before, d);
    forall i | |before| <= i < |after| ensures Met(tasks, after, i) && Reaches(tasks, before, d, after[i]) && after[i] !in before {
      if i < |mid| { assert after[i] == mid[i] && after[..i] == mid[..i] && Met(tasks, mid, i); } else { assert after[..i] == mid; }
    }
  }

  /** name was requested: what it needs went from before to mid, then itself. */
  ghost predicate Granted(tasks: Tasks, before: seq<string>, mid: seq<string>, name: string) {
    name in tasks && Served(tasks, tasks[name], mid) && Adds(tasks, before, mid, name)
  }

  /** What a request that ends does. */
  lemma {:induction false} EnableGrants(tasks: Tasks, g: Log, name: string, fuel: nat) returns (mid: seq<string>)
    requires name in tasks && Enable(tasks, g, name, fuel).Some?
    ensures var r := Enable(tasks, g, name, fuel).value;
      r.order == mid + [name] && Granted(tasks, g.order, mid, name) && r.errors >= g.errors
    decreases fuel, 0
  {
    var ds := Wants(tasks, g, name);
    WantsFollowed(tasks, g, name);
    MissingGrants(tasks, Noted(tasks, g, name), ds, name, fuel - 1);
    mid := EnableMissing(tasks, Noted(tasks, g, name), ds, fuel - 1).value.order;
    WantsServe(tasks, g, name, mid);
  }

  lemma {:induction false} MissingGrants(tasks: Tasks, g: Log, ds: seq<string>, root: string, fuel: nat)
    requires root in tasks && Within(ds, Followed(tasks[root])) && EnableMissing(tasks, g, ds, fuel).Some?
    ensures var r := EnableMissing(tasks, g, ds, fuel).value;
      && Adds(tasks, g.order, r.order, root) && r.errors >= g.errors
      && forall d | d in ds && d in tasks :: d in r.order
    decreases fuel, |ds| + 1
  {
    hide Reaches, Served, Met;
    if ds == [] {
    } else {
      var d, rest := ds[0], ds[1..];
      assert d in ds && Within(rest, Followed(tasks[root]));
      if d !in tasks || d in g.order {
        MissingGrants(tasks, g, rest, root, fuel);
        PrefixWithin(g.order, EnableMissing(tasks, g, rest, fuel).value.order);
      } else {
        var mid := EnableGrants(tasks, g, d, fuel);
        var g1 := Enable(tasks, g, d, fuel).value;
        AddsLast(tasks, g.order, mid, d);
        MissingGrants(tasks, g1, rest, root, fuel);
        var r := EnableMissing(tasks, g1, rest, fuel).value;
        AddsTrans(tasks, g.order, g1.order, r.order, root, d);
        PrefixWithin(g1.order, r.order);
      }
      forall x | x in ds && x in tasks ensures x in EnableMissing(tasks, g, ds, fuel).value.order {
        if x != d { assert x in rest; }
      }
    }
  }

  lemma EnabledThere(tasks: Tasks, order: seq<string>, ds: seq<string>)
    ensures forall d | d in Enabled(tasks, order, ds) :: d in ds && d in order
  {}

  lemma WantsFollowed(tasks: Tasks, g: Log, name: string)
    requires name in tasks
    ensures Within(Wants(tasks, g, name), Followed(tasks[name]))
  {}

  lemma WantsServe(tasks: Tasks, g: Log, name: string, mid: seq<string>)
    requires name in tasks && g.order <= mid && forall d | d in Wants(tasks, g, name) && d in tasks :: d in mid
    ensures Served(tasks, tasks[name], mid)
  {
    var t := tasks[name];
    var enabled := Enabled(tasks, g.order, t.deps);
    EnabledThere(tasks, g.order, t.deps);
    PrefixWithin(g.order, mid);
    if t.disjunctive && t.deps != [] {
      if enabled != [] { assert enabled[0] in enabled; } else { assert t.deps[0] in [t.deps[0]]; }
    }
  }

  /** In a clear register each new task is new but once. */
  lemma {:induction false} EnableOnce(tasks: Tasks, g: Log, name: string, mid: seq<string>, fuel: nat)
    requires name in tasks && Enable(tasks, g, name, fuel).Some? && Enable(tasks, g, name, fuel).value.order == mid + [name]
    requires Clear(tasks, g.order, name)
    ensures Once(g.order, mid, name)
    decreases fuel, 0
  {
    var ds := Wants(tasks, g, name);
    WantsFollowed(tasks, g, name);
    MissingOnce(tasks, Noted(tasks, g, name), ds, name, fuel - 1);
    var r := EnableMissing(tasks, Noted(tasks, g, name), ds, fuel - 1).value.order;
    assert r == (r + [name])[..|r|] && mid == (mid + [name])[..|mid|];
  }

  lemma {:induction false} MissingOnce(tasks: Tasks, g: Log, ds: seq<string>, root: string, fuel: nat)
    requires root in tasks && Within(ds, Followed(tasks[root])) && EnableMissing(tasks, g, ds, fuel).Some?
    requires Clear(tasks, g.order, root)
    ensures Once(g.order, EnableMissing(tasks, g, ds, fuel).value.order, root)
    decreases fuel, |ds| + 1
  {
    hide Reaches, Served, Met, Clear;
    if ds != [] {
      var d, rest := ds[0], ds[1..];
      assert d in ds && Within(rest, Followed(tasks[root]));
      if d !in tasks || d in g.order {
        MissingOnce(tasks, g, rest, root, fuel);
      } else {
        var mid := EnableGrants(tasks, g, d, fuel);
        var g1 := Enable(tasks, g, d, fuel).value;
        ClearNext(tasks, g.order, root, d);
        EnableOnce(tasks, g, d, mid, fuel);
        PrefixWithin(g.order, g1.order);
        ClearLess(tasks, g.order, g1.order, root);
        MissingGrants(tasks, g1, rest, root, fuel);
        MissingOnce(tasks, g1, rest, root, fuel);
        AddsLast(tasks, g.order, mid, d);
        OnceLast(tasks, g.order, mid, d, root);
        OnceTrans(tasks, g.order, g1.order, EnableMissing(tasks, g1, rest, fuel).value.order, root);
      }
    }
  }

  lemma OnceLast(tasks: Tasks, before: seq<string>, mid: seq<string>, d: string, root: string)
    requires Once(before, mid, d) && Adds(tasks, before, mid + [d], d) && !Reaches(tasks, before, d, root)
    ensures Once(before, mid + [d], root)
  {}

  lemma OnceTrans(tasks: Tasks, a: seq<string>, b: seq<string>, c: seq<string>, root: string)
    requires Once(a, b, root) && Once(b, c, root) && Adds(tasks, b, c, root)
    ensures Once(a, c, root)
  {
    forall i, j | |a| <= i < j < |c| ensures c[i] != c[j] {
      if j < |b| { assert c[i] == b[i] && c[j] == b[j]; } else if i < |b| { assert c[i] == b[i] && b[i] in b; }
    }
    forall i | |a| <= i < |c| ensures c[i] != root { if i < |b| { assert c[i] == b[i]; } }
  }

  // ----- when a request ends -----

  /** The tasks that may be enabled for the sake of name. */
  ghost function Ahead(tasks: Tasks, order: seq<string>, name: string): set<string> {
    set x | x in tasks && Reaches(tasks, order, name, x)
  }

  lemma AheadLess(tasks: Tasks, order: seq<string>, more: seq<string>, name: string)
    requires Within(order, more)
    ensures Ahead(tasks, more, name) <= Ahead(tasks, order, name)
  {
    forall x | x in Ahead(tasks, more, name) ensures x in Ahead(tasks, order, name) { ReachesLess(tasks, order, more, name, x); }
  }

  lemma AheadNext(tasks: Tasks, order: seq<string>, name: string, d: string)
    requires Clear(tasks, order, name) && Leads(tasks, order, name, d)
    ensures Ahead(tasks, order, d) < Ahead(tasks, order, name)
  {
    ClearNext(tasks, order, name, d);
    ReachesSelf(tasks, order, name);
    forall x | x in Ahead(tasks, order, d) ensures x in Ahead(tasks, order, name) { ReachesStep(tasks, order, name, d, x); }
    assert name in Ahead(tasks, order, name) && name !in Ahead(tasks, order, d);
  }

  lemma Fewer(s: set<string>, t: set<string>)
    requires s <= t
    ensures |s| <= |t| && (s < t ==> |s| < |t|)
  {
    if s != {} {
      var y :| y in s;
      Fewer(s - {y}, t - {y});
    }
  }

  /** A clear request ends, with fuel for the tasks ahead of it. */
  lemma {:induction false} ClearEnds(tasks: Tasks, g: Log, name: string, fuel: nat)
    requires Clear(tasks, g.order, name) && fuel >= |Ahead(tasks, g.order, name)|
    ensures Enable(tasks, g, name, fuel).Some?
    decreases fuel, 0
  {
    if name in tasks {
      ReachesSelf(tasks, g.order, name);
      assert name in Ahead(tasks, g.order, name);
      WantsFollowed(tasks, g, name);
      MissingEnds(tasks, Noted(tasks, g, name), Wants(tasks, g, name), name, fuel - 1);
    }
  }

  lemma {:induction false} MissingEnds(tasks: Tasks, g: Log, ds: seq<string>, root: string, fuel: nat)
    requires root in tasks && Within(ds, Followed(tasks[root]))
    requires Clear(tasks, g.order, root) && fuel + 1 >= |Ahead(tasks, g.order, root)|
    ensures EnableMissing(tasks, g, ds, fuel).Some?
    decreases fuel, |ds| + 1
  {
    hide Reaches, Served, Met, Clear, Ahead;
    if ds != [] {
      var d, rest := ds[0], ds[1..];
      assert d in ds && Within(rest, Followed(tasks[root]));
      if d !in tasks || d in g.order {
        MissingEnds(tasks, g, rest, root, fuel);
      } else {
        AheadNext(tasks, g.order, root, d);
        Fewer(Ahead(tasks, g.order, d), Ahead(tasks, g.order, root));
        ClearNext(tasks, g.order, root, d);
        ClearEnds(tasks, g, d, fuel);
        var mid := EnableGrants(tasks, g, d, fuel);
        var g1 := Enable(tasks, g, d, fuel).value;
        assert g.order <= g1.order;
        PrefixWithin(g.order, g1.order);
        ClearLess(tasks, g.order, g1.order, root);
        AheadLess(tasks, g.order, g1.order, root);
        Fewer(Ahead(tasks, g1.order, root), Ahead(tasks, g.order, root));
        MissingEnds(tasks, g1, rest, root, fuel);
      }
    }
  }

  /** Ordinary tasks not in the order yet, each of which depends on another of them. */
  ghost predicate Trap(tasks: Tasks, order: seq<string>, c: set<string>) {
    forall x | x in c :: x in tasks && !tasks[x].disjunctive && x !in order && DependsOn(tasks, x, c)
  }

  ghost predicate DependsOn(tasks: Tasks, x: string, c: set<string>)
    requires x in tasks
  {
    exists d :: d in tasks[x].deps && d in c
  }

  lemma TrapGrows(tasks: Tasks, order: seq<string>, name: string, c: set<string>)
    requires Trap(tasks, order, c) && name !in c
    ensures Trap(tasks, order + [name], c)
  {
    hide DependsOn;
  }

  /** A request that ends enables no task of a trap. */
  lemma {:induction false} Trapped(tasks: Tasks, g: Log, name: string, fuel: nat, c: set<string>)
    requires Trap(tasks, g.order, c) && Enable(tasks, g, name, fuel).Some?
    ensures name !in c && Trap(tasks, Enable(tasks, g, name, fuel).value.order, c)
    ensures name in tasks && !tasks[name].disjunctive ==> !DependsOn(tasks, name, c)
    decreases fuel, 0
  {
    if name in tasks {
      var r := EnableMissing(tasks, Noted(tasks, g, name), Wants(tasks, g, name), fuel - 1);
      TrappedMissing(tasks, Noted(tasks, g, name), Wants(tasks, g, name), fuel - 1, c);
      if !tasks[name].disjunctive { assert Wants(tasks, g, name) == tasks[name].deps; }
      TrapGrows(tasks, r.value.order, name, c);
    }
  }

  lemma {:induction false} TrappedMissing(tasks: Tasks, g: Log, ds: seq<string>, fuel: nat, c: set<string>)
    requires Trap(tasks, g.order, c) && EnableMissing(tasks, g, ds, fuel).Some?
    ensures Trap(tasks, EnableMissing(tasks, g, ds, fuel).value.order, c) && forall d | d in ds :: d !in c
    decreases fuel, |ds| + 1
  {
    hide DependsOn;
    if ds == [] {
    } else {
      var g1 := g;
      if ds[0] in tasks && ds[0] !in g.order {
        Trapped(tasks, g, ds[0], fuel, c);
        g1 := Enable(tasks, g, ds[0], fuel).value;
      }
      TrappedMissing(tasks, g1, ds[1..], fuel, c);
      forall d | d in ds ensures d !in c { if d != ds[0] { assert d in ds[1..]; } }
    }
  }

  predicate Ordinary(tasks: Tasks) { forall n | n in tasks :: !tasks[n].disjunctive }

  /** In a register without disjunctive tasks, a way that comes back is a trap. */
  lemma NotClearTrap(tasks: Tasks, order: seq<string>, name: string) returns (c: set<string>)
    requires Ordinary(tasks) && !Clear(tasks, order, name)
    ensures Trap(tasks, order, c) && name in tasks
    ensures name in c || DependsOn(tasks, name, c)
  {
    hide Reaches;
    var a, b :| Reaches(tasks, order, name, a) && Leads(tasks, order, a, b) && Reaches(tasks, order, b, a);
    c := set x | x in tasks && x !in order && Reaches(tasks, order, x, a);
    forall x | x in c ensures DependsOn(tasks, x, c) {
      if x == a {
        assert b in c;
      } else {
        var d := ReachesFirst(tasks, order, x, a);
        assert d in c;
      }
    }
    ReachesKnown(tasks, order, name, a);
    if name !in c {
      if name == a {
        assert b in c;
      } else {
        var d := ReachesFirst(tasks, order, name, a);
        assert d in c;
      }
    }
  }

  /** A request of a register without disjunctive tasks ends exactly when no way from it comes back. */
  lemma EndsExactly(tasks: Tasks, g: Log, name: string)
    requires Ordinary(tasks)
    ensures (exists fuel :: Enable(tasks, g, name, fuel).Some?) <==> Clear(tasks, g.order, name)
  {
    if Clear(tasks, g.order, name) { ClearEnds(tasks, g, name, |Ahead(tasks, g.order, name)|); }
    if fuel :| Enable(tasks, g, name, fuel).Some? {
      if !Clear(tasks, g.order, name) {
        var c := NotClearTrap(tasks, g.order, name);
        Trapped(tasks, g, name, fuel, c);
      }
    }
  }

  /** The same for any sequence of requests. */
  lemma EachEndsExactly(tasks: Tasks, g: Log, requests: seq<string>)
    requires Ordinary(tasks)
    ensures (exists fuel :: EnableEach(tasks, g, requests, fuel).Some?) <==> forall r | r in requests :: Clear(tasks, g.order, r)
  {
    if forall r | r in requests :: Clear(tasks, g.order, r) { ClearEachEnds(tasks, g, requests); }
    if fuel :| EnableEach(tasks, g, requests, fuel).Some? {
      forall r | r in requests ensures Clear(tasks, g.order, r) {
        if !Clear(tasks, g.order, r) {
          var c := NotClearTrap(tasks, g.order, r);
          TrappedEach(tasks, g, requests, r, fuel, c);
        }
      }
    }
  }

  lemma {:induction false} ClearEachEnds(tasks: Tasks, g: Log, requests: seq<string>)
    requires forall r | r in requests :: Clear(tasks, g.order, r)
    ensures EnableEach(tasks, g, requests, |tasks|).Some?
    decreases |requests|
  {
    if requests != [] {
      var name := requests[0];
      Fewer(Ahead(tasks, g.order, name), tasks.Keys);
      ClearEnds(tasks, g, name, |tasks|);
      var g1 := Enable(tasks, g, name, |tasks|).value;
      if name in tasks { var mid := EnableGrants(tasks, g, name, |tasks|); }
      PrefixWithin(g.order, g1.order);
      forall r | r in requests[1..] ensures Clear(tasks, g1.order, r) { ClearLess(tasks, g.order, g1.order, r); }
      ClearEachEnds(tasks, g1, requests[1..]);
    }
  }

  lemma {:induction false} TrappedEach(tasks: Tasks, g: Log, requests: seq<string>, name: string, fuel: nat, c: set<string>)
    requires Trap(tasks, g.order, c) && EnableEach(tasks, g, requests, fuel).Some? && name in requests
    requires name in tasks && !tasks[name].disjunctive && (name in c || DependsOn(tasks, name, c))
    ensures false
    decreases |requests|
  {
    hide Trap, DependsOn;
    Trapped(tasks, g, requests[0], fuel, c);
    if requests[0] != name { TrappedEach(tasks, Enable(tasks, g, requests[0], fuel).value, requests[1..], name, fuel, c); }
  }

  // ----- any sequence of requests -----

  ghost predicate Wanted(tasks: Tasks, requests: seq<string>, x: string) {
    exists r :: r in requests && Reaches(tasks, [], r, x)
  }

  /** Everything comes after what it needs and is needed by a request; all registered requests are
      there. */
  ghost predicate Fulfils(tasks: Tasks, order: seq<string>, requests: seq<string>) {
    && (forall i | 0 <= i < |order| :: Met(tasks, order, i))
    && (forall x | x in order :: Wanted(tasks, requests, x))
    && (forall r | r in requests && r in tasks :: r in order)
  }

  /** Nothing occurs more often than once more than it was requested. */
  ghost predicate Sparing(order: seq<string>, requests: seq<string>) {
    forall x :: multiset(order)[x] <= multiset(requests)[x] + 1
  }

  lemma OneGranted(tasks: Tasks, before: seq<string>, mid: seq<string>, name: string, requests: seq<string>)
    requires Fulfils(tasks, before, requests) && Granted(tasks, before, mid, name)
    ensures Fulfils(tasks, mid + [name], requests + [name])
  {
    hide Met, Wanted, Served;
    GrantedMet(tasks, before, mid, name);
    GrantedWanted(tasks, before, mid, name, requests);
    PrefixWithin(before, mid);
  }

  lemma OneRefused(tasks: Tasks, order: seq<string>, name: string, requests: seq<string>)
    requires Fulfils(tasks, order, requests) && name !in tasks
    ensures Fulfils(tasks, order, requests + [name])
  {
    hide Met, Reaches;
    forall x | x in order ensures Wanted(tasks, requests + [name], x) {
      assert Wanted(tasks, requests, x);
      var r :| r in requests && Reaches(tasks, [], r, x);
      assert r in requests + [name];
    }
  }

  lemma GrantedMet(tasks: Tasks, before: seq<string>, mid: seq<string>, name: string)
    requires Granted(tasks, before, mid, name) && forall i | 0 <= i < |before| :: Met(tasks, before, i)
    ensures forall i | 0 <= i < |mid + [name]| :: Met(tasks, mid + [name], i)
  {
    var after := mid + [name];
    forall i | 0 <= i < |after| ensures Met(tasks, after, i) {
      if i < |before| { assert after[i] == before[i] && after[..i] == before[..i] && Met(tasks, before, i); }
      else if i < |mid| { assert after[i] == mid[i] && after[..i] == mid[..i] && Met(tasks, mid, i); }
      else { assert after[..i] == mid; }
    }
  }

  lemma GrantedWanted(tasks: Tasks, before: seq<string>, mid: seq<string>, name: string, requests: seq<string>)
    requires Granted(tasks, before, mid, name) && forall x | x in before :: Wanted(tasks, requests, x)
    ensures forall x | x in mid + [name] :: Wanted(tasks, requests + [name], x)
  {
    hide Reaches, Met, Served;
    ReachesSelf(tasks, [], name);
    forall x | x in mid + [name] ensures Wanted(tasks, requests + [name], x) {
      assert name in requests + [name];
      if x in before {
        assert Wanted(tasks, requests, x);
        var r :| r in requests && Reaches(tasks, [], r, x);
        assert r in requests + [name];
      } else if x != name {
        var i :| 0 <= i < |mid| && mid[i] == x;
        assert i >= |before| && Reaches(tasks, before, name, mid[i]);
        ReachesLess(tasks, [], before, name, x);
      }
    }
  }

  lemma GrantedSparing(tasks: Tasks, before: seq<string>, mid: seq<string>, name: string, requests: seq<string>)
    requires Granted(tasks, before, mid, name) && Once(before, mid, name) && Sparing(before, requests)
    ensures Sparing(mid + [name], requests + [name])
  {
    hide Reaches, Met, Served;
    forall x ensures multiset(mid + [name])[x] <= multiset(requests + [name])[x] + 1 {
      NewOnce(before, mid, x);
      if x == name && x !in before {
        assert x !in mid;
      }
    }
  }

  /** New tasks are new, and distinct. */
  lemma NewOnce(before: seq<string>, after: seq<string>, x: string)
    requires before <= after && forall i | |before| <= i < |after| :: after[i] !in before
    requires forall i, j | |before| <= i < j < |after| :: after[i] != after[j]
    ensures multiset(after)[x] <= if x in before then multiset(before)[x] else 1
    decreases |after|
  {
    if |after| == |before| {
      assert after == before;
    } else {
      var n := |after| - 1;
      assert after == after[..n] + [after[n]];
      NewOnce(before, after[..n], x);
      if x == after[n] {
        assert x !in after[..n] by {
          forall i | 0 <= i < n ensures after[..n][i] != x { if i < |before| { assert after[i] == before[i]; } }
        }
      }
    }
  }

  /** Requests that end are fulfilled; done are those before. */
  lemma {:induction false} EachFulfils(tasks: Tasks, g: Log, done: seq<string>, requests: seq<string>, fuel: nat)
    requires EnableEach(tasks, g, requests, fuel).Some? && Fulfils(tasks, g.order, done)
    ensures Fulfils(tasks, EnableEach(tasks, g, requests, fuel).value.order, done + requests)
    decreases |requests|
  {
    hide Fulfils, Granted;
    if requests == [] {
      assert done + requests == done;
    } else {
      var name, rest := requests[0], requests[1..];
      var g1 := Enable(tasks, g, name, fuel).value;
      if name in tasks {
        var mid := EnableGrants(tasks, g, name, fuel);
        OneGranted(tasks, g.order, mid, name, done);
      } else {
        OneRefused(tasks, g.order, name, done);
      }
      assert done + [name] + rest == done + requests;
      EachFulfils(tasks, g1, done + [name], rest, fuel);
    }
  }

  /** In a clear register they are fulfilled sparingly. */
  lemma {:induction false} EachSparing(tasks: Tasks, g: Log, done: seq<string>, requests: seq<string>, fuel: nat)
    requires EnableEach(tasks, g, requests, fuel).Some? && Sparing(g.order, done)
    requires forall r | r in requests :: Clear(tasks, g.order, r)
    ensures Sparing(EnableEach(tasks, g, requests, fuel).value.order, done + requests)
    decreases |requests|
  {
    hide Sparing, Reaches, Met, Served, Clear;
    if requests == [] {
      assert done + requests == done;
    } else {
      var name, rest := requests[0], requests[1..];
      var g1 := Enable(tasks, g, name, fuel).value;
      if name in tasks {
        var mid := EnableGrants(tasks, g, name, fuel);
        EnableOnce(tasks, g, name, mid, fuel);
        GrantedSparing(tasks, g.order, mid, name, done);
      } else {
        SparingMore(g.order, done, name);
      }
      PrefixWithin(g.order, g1.order);
      forall r | r in rest ensures Clear(tasks, g1.order, r) { ClearLess(tasks, g.order, g1.order, r); }
      assert done + [name] + rest == done + requests;
      EachSparing(tasks, g1, done + [name], rest, fuel);
    }
  }

  /** From an empty order. */
  lemma RequestsMet(tasks: Tasks, g: Log, requests: seq<string>, fuel: nat)
    requires g.order == [] && EnableEach(tasks, g, requests, fuel).Some?
    ensures var r := EnableEach(tasks, g, requests, fuel).value.order;
      Fulfils(tasks, r, requests) && ((forall q | q in requests :: Clear(tasks, [], q)) ==> Sparing(r, requests))
  {
    hide Clear;
    assert [] + requests == requests;
    EachFulfils(tasks, g, [], requests, fuel);
    if forall q | q in requests :: Clear(tasks, [], q) { EachSparing(tasks, g, [], requests, fuel); }
  }

  lemma SparingMore(order: seq<string>, requests: seq<string>, name: string)
    requires Sparing(order, requests)
    ensures Sparing(order, requests + [name])
  {}

  // ----- disjunctive tasks -----

  lemma {:induction false} EnabledHas(tasks: Tasks, order: seq<string>, ds: seq<string>, d: string)
    requires d in ds && d in tasks && d in order
    ensures Enabled(tasks, order, ds) != []
    decreases |ds|
  {
    if d != ds[0] { EnabledHas(tasks, order, ds[1..], d); }
  }

  /** A disjunctive task adds nothing but itself once one of its dependencies is there; otherwise it
      asks for the first, and for no other. */
  lemma DisjunctiveExactly(tasks: Tasks, g: Log, name: string, fuel: nat)
    requires name in tasks && tasks[name].disjunctive
    ensures var ds := tasks[name].deps; var g1 := Noted(tasks, g, name); var r := Enable(tasks, g, name, fuel + 1);
      if ds == [] || ds[0] !in tasks || exists d :: d in ds && d in tasks && d in g.order then r == Some(g1.(order := g.order + [name]))
      else
        var first := Enable(tasks, g1, ds[0], fuel);
        r == if first.None? then None else Some(first.value.(order := first.value.order + [name]))
  {
    var ds, g1 := tasks[name].deps, Noted(tasks, g, name);
    if d :| d in ds && d in tasks && d in g.order {
      EnabledHas(tasks, g.order, ds, d);
      assert Wants(tasks, g, name) == [];
    } else {
      EnabledNone(tasks, g.order, ds);
      if ds != [] {
        assert Wants(tasks, g, name) == [ds[0]] && [ds[0]][1..] == [];
        OneMissing(tasks, g1, ds[0], fuel);
      }
    }
  }

  /** When nothing is there yet, a task asks for exactly the dependencies that may be followed. */
  lemma FollowedExactly(tasks: Tasks, g: Log, name: string)
    requires name in tasks
    ensures Wants(tasks, Log([], 0), name) == Followed(tasks[name]) && Within(Wants(tasks, g, name), Followed(tasks[name]))
  {
    EnabledNone(tasks, [], tasks[name].deps);
    WantsFollowed(tasks, g, name);
  }

  lemma {:induction false} EnabledNone(tasks: Tasks, order: seq<string>, ds: seq<string>)
    requires forall d | d in ds :: d !in tasks || d !in order
    ensures Enabled(tasks, order, ds) == []
    decreases |ds|
  {
    if ds != [] {
      assert ds[0] in ds;
      EnabledNone(tasks, order, ds[1..]);
    }
  }

  lemma OneMissing(tasks: Tasks, g: Log, d: string, fuel: nat)
    ensures EnableMissing(tasks, g, [d], fuel) == if d !in tasks || d in g.order then Some(g) else Enable(tasks, g, d, fuel)
  {
    assert [d][1..] == [];
  }

  // ----- errors -----

  /** One error for each unknown name. */
  lemma {:induction false} UnknownCat(tasks: Tasks, a: seq<string>, b: seq<string>)
    ensures Unknown(tasks, a + b) == Unknown(tasks, a) + Unknown(tasks, b)
    ensures forall x :: Unknown(tasks, [x]) == if x in tasks then 0 else 1
    decreases |a|
  {
    forall x ensures Unknown(tasks, [x]) == if x in tasks then 0 else 1 { assert [x][1..] == []; }
    if a == [] {
      assert a + b == b;
    } else {
      assert (a + b)[1..] == a[1..] + b;
      UnknownCat(tasks, a[1..], b);
    }
  }

  /** The unknown dependencies of the tasks xs, as often as they occur. */
  function Faults(tasks: Tasks, xs: seq<string>): nat {
    if xs == [] then 0 else (if xs[0] in tasks then Unknown(tasks, tasks[xs[0]].deps) else 0) + Faults(tasks, xs[1..])
  }

  lemma {:induction false} FaultsCat(tasks: Tasks, a: seq<string>, b: seq<string>)
    ensures Faults(tasks, a + b) == Faults(tasks, a) + Faults(tasks, b)
    decreases |a|
  {
    if a == [] {
      assert a + b == b;
    } else {
      assert (a + b)[1..] == a[1..] + b;
      FaultsCat(tasks, a[1..], b);
    }
  }

  /** From g to r every task added cost its unknown dependencies. */
  predicate Costs(tasks: Tasks, g: Log, r: Log) {
    g.order <= r.order && r.errors == g.errors + Faults(tasks, r.order[|g.order|..])
  }

  lemma CostsTrans(tasks: Tasks, a: Log, b: Log, c: Log)
    requires Costs(tasks, a, b) && Costs(tasks, b, c)
    ensures Costs(tasks, a, c)
  {
    assert c.order[|a.order|..] == b.order[|a.order|..] + c.order[|b.order|..];
    FaultsCat(tasks, b.order[|a.order|..], c.order[|b.order|..]);
  }

  /** A request that ends reports the unknown dependencies of every task it adds, and itself if it is
      unknown, and nothing else. */
  lemma {:induction false} ErrorsExactly(tasks: Tasks, g: Log, name: string, fuel: nat)
    requires Enable(tasks, g, name, fuel).Some?
    ensures var r := Enable(tasks, g, name, fuel).value;
      if name in tasks then Costs(tasks, g, r) else r == g.(errors := g.errors + 1)
    decreases fuel, 0
  {
    if name in tasks {
      hide Wants;
      var g1 := Noted(tasks, g, name);
      var mid := EnableMissing(tasks, g1, Wants(tasks, g, name), fuel - 1).value;
      var r := mid.(order := mid.order + [name]);
      MissingErrors(tasks, g1, Wants(tasks, g, name), fuel - 1);
      assert r.order[|g.order|..] == mid.order[|g.order|..] + [name];
      FaultsCat(tasks, mid.order[|g.order|..], [name]);
      assert [name][1..] == [];
    }
  }

  lemma {:induction false} MissingErrors(tasks: Tasks, g: Log, ds: seq<string>, fuel: nat)
    requires EnableMissing(tasks, g, ds, fuel).Some?
    ensures Costs(tasks, g, EnableMissing(tasks, g, ds, fuel).value)
    decreases fuel, |ds| + 1
  {
    if ds == [] {
      assert g.order[|g.order|..] == [];
    } else if ds[0] !in tasks || ds[0] in g.order {
      MissingErrors(tasks, g, ds[1..], fuel);
    } else {
      var r := Enable(tasks, g, ds[0], fuel).value;
      ErrorsExactly(tasks, g, ds[0], fuel);
      MissingErrors(tasks, r, ds[1..], fuel);
      CostsTrans(tasks, g, r, EnableMissing(tasks, r, ds[1..], fuel).value);
    }
  }

  // ----- the register -----

  class TaskRegister {
    var tasks: Tasks
    var order: seq<string>
    var errors: nat

    function Now(): Log
      reads this`order, this`errors
    {
      Log(order, errors)
    }

    constructor ()
      ensures tasks == map[] && Now() == Log([], 0)
    {
      tasks, order, errors := map[], [], 0;
    }

    /** The first task of a name is kept. */
    method RegisterTask(t: Task)
      modifies this`tasks, this`errors
      ensures t.name in old(tasks) ==> tasks == old(tasks) && errors == old(errors) + 1
      ensures t.name !in old(tasks) ==> tasks == old(tasks)[t.name := t] && errors == old(errors)
    {
      if t.name in tasks { errors := errors + 1; } else { tasks := tasks[t.name := t]; }
    }

    /** What it needs, then the task itself, even when it is there already.  The call must end. */
    method EnableTask(name: string, ghost fuel: nat)
      requires Enable(tasks, Now(), name, fuel).Some?
      modifies this`order, this`errors
      ensures Enable(tasks, old(Now()), name, fuel) == Some(Now())
      decreases fuel, 0
    {
      if name !in tasks {
        errors := errors + 1;
      } else {
        ResolveDependencies(name, fuel - 1);
        order := order + [name];
      }
    }

    /** Enable the missing dependencies of a task. */
    method ResolveDependencies(name: string, ghost fuel: nat)
      requires name in tasks && EnableMissing(tasks, Noted(tasks, Now(), name), Wants(tasks, Now(), name), fuel).Some?
      modifies this`order, this`errors
      ensures EnableMissing(tasks, Noted(tasks, old(Now()), name), Wants(tasks, old(Now()), name), fuel) == Some(Now())
      decreases fuel, 1
    {
      var enabled := FindEnabled(tasks[name].deps);
      var needed := Resolve(tasks[name], enabled);
      ghost var from := Now();
      var k := 0;
      assert needed[0..] == needed;
      hide Enabled, Unknown, Noted, Wants;
      while k < |needed|
        invariant k <= |needed|
        invariant EnableMissing(tasks, Now(), needed[k..], fuel) == EnableMissing(tasks, from, needed, fuel)
      {
        assert needed[k..][1..] == needed[k + 1..];
        var d := needed[k];
        if d in tasks && d !in order { EnableTask(d, fuel); }
        k := k + 1;
      }
    }

    /** The dependencies already in the order; unknown ones are errors. */
    method FindEnabled(deps: seq<string>) returns (enabled: seq<string>)
      modifies this`errors
      ensures errors == old(errors) + Unknown(tasks, deps) && enabled == Enabled(tasks, order, deps)
    {
      enabled := [];
      var k := 0;
      assert deps[0..] == deps;
      while k < |deps|
        invariant k <= |deps|
        invariant errors + Unknown(tasks, deps[k..]) == old(errors) + Unknown(tasks, deps)
        invariant enabled + Enabled(tasks, order, deps[k..]) == Enabled(tasks, order, deps)
      {
        assert deps[k..][1..] == deps[k + 1..];
        if deps[k] !in tasks { errors := errors + 1; }
        else if deps[k] in order { enabled := enabled + [deps[k]]; }
        k := k + 1;
      }
    }

    /** Any sequence of requests that end. */
    method EnableAll(requests: seq<string>, ghost fuel: nat)
      requires order == [] && EnableEach(tasks, Now(), requests, fuel).Some?
      modifies this`order, this`errors
      ensures EnableEach(tasks, old(Now()), requests, fuel) == Some(Now())
      ensures Fulfils(tasks, order, requests)
      ensures (forall r | r in requests :: Clear(tasks, [], r)) ==> Sparing(order, requests)
    {
      hide Fulfils, Sparing, Clear, Enable;
      ghost var from := Now();
      var k := 0;
      assert requests[0..] == requests;
      while k < |requests|
        invariant k <= |requests|
        invariant EnableEach(tasks, Now(), requests[k..], fuel) == EnableEach(tasks, from, requests, fuel)
      {
        assert requests[k..][1..] == requests[k + 1..];
        EnableTask(requests[k], fuel);
        k := k + 1;
      }
      RequestsMet(tasks, from, requests, fuel);
    }
  }

  // ----- registers with cycles -----

  function Plain(name: string, deps: seq<string>): Task { Task(name, name, deps, false) }
  function Either(name: string, deps: seq<string>): Task { Task(name, name, deps, true) }

  /** Two tasks that need each other. */
  const MUTUAL: Tasks := map["a" := Plain("a", ["b"]), "b" := Plain("b", ["a"])]

  /** Nothing looks for cycles: the request never ends. */
  lemma MutualNeverEnds(g: Log, fuel: nat)
    requires g.order == []
    ensures Enable(MUTUAL, g, "a", fuel).None?
  {
    if Enable(MUTUAL, g, "a", fuel).Some? {
      assert "b" in MUTUAL["a"].deps && "a" in MUTUAL["b"].deps by {
        assert MUTUAL["a"].deps[0] == "b" && MUTUAL["b"].deps[0] == "a";
      }
      Trapped(MUTUAL, g, "a", fuel, {"a", "b"});
    }
  }

  /** One request without errors, given what those for its dependencies ds do. */
  lemma OneRun(tasks: Tasks, g: Log, name: string, ds: seq<string>, mid: seq<string>, done: seq<string>, fuel: nat)
    requires name in tasks && fuel > 0 && Unknown(tasks, tasks[name].deps) == 0 && Wants(tasks, g, name) == ds
    requires EnableMissing(tasks, g, ds, fuel - 1) == Some(Log(mid, g.errors)) && done == mid + [name]
    ensures Enable(tasks, g, name, fuel) == Some(Log(done, g.errors))
    ensures name !in g.order ==> EnableMissing(tasks, g, [name], fuel) == Some(Log(done, g.errors))
  {
    assert Noted(tasks, g, name) == g;
    if name !in g.order {
      assert [name][1..] == [];
      assert EnableMissing(tasks, Log(done, g.errors), [], fuel) == Some(Log(done, g.errors));
    }
  }

  /** A cycle through a later alternative of a disjunctive task. */
  const ALTERNATIVE: Tasks := map["a" := Plain("a", ["b"]), "b" := Either("b", ["c", "a"]), "c" := Plain("c", [])]

  /** It is not followed. */
  lemma AlternativeEnds()
    ensures Enable(ALTERNATIVE, Log([], 0), "a", 3) == Some(Log(["c", "b", "a"], 0))
  {
    var g, t := Log([], 0), ALTERNATIVE;
    OneRun(t, g, "c", [], [], ["c"], 1);
    assert Enabled(t, [], ["c", "a"]) == Enabled(t, [], ["a"]) == [] && Unknown(t, ["c", "a"]) == Unknown(t, ["a"]) == 0 by {
      assert ["c", "a"][1..] == ["a"];
    }
    OneRun(t, g, "b", ["c"], ["c"], ["c", "b"], 2);
    OneRun(t, g, "a", ["b"], ["c", "b"], ["c", "b", "a"], 3);
  }

  /** A disjunctive task whose first alternative leads back to it, and whose second is enabled on
      the way. */
  const BROKEN: Tasks :=
    map["a" := Plain("a", ["f"]), "f" := Either("f", ["g", "h"]), "g" := Plain("g", ["h", "a"]), "h" := Plain("h", [])]

  /** The way comes back, and yet the request ends, with tasks executed twice. */
  lemma BrokenCycleRepeats()
    ensures Enable(BROKEN, Log([], 0), "a", 6) == Some(Log(["h", "f", "a", "g", "f", "a"], 0))
    ensures !Clear(BROKEN, [], "a")
    ensures !Sparing(["h", "f", "a", "g", "f", "a"], ["a"])
  {
    BrokenRuns();
    BrokenNotClear();
    assert multiset(["h", "f", "a", "g", "f", "a"])["f"] == 2 && multiset(["a"])["f"] == 0;
  }

  lemma BrokenNotClear()
    ensures !Clear(BROKEN, [], "a")
  {
    assert Leads(BROKEN, [], "a", "f") by { assert BROKEN["a"].deps[0] == "f"; }
    assert Leads(BROKEN, [], "f", "g");
    assert Leads(BROKEN, [], "g", "a") by { assert BROKEN["g"].deps[1] == "a"; }
    ReachesSelf(BROKEN, [], "a");
    ReachesStep(BROKEN, [], "g", "a", "a");
    ReachesStep(BROKEN, [], "f", "g", "a");
  }

  lemma BrokenRuns()
    ensures Enable(BROKEN, Log([], 0), "a", 6) == Some(Log(["h", "f", "a", "g", "f", "a"], 0))
  {
    var g, h, t := Log([], 0), Log(["h"], 0), BROKEN;
    assert ["g", "h"][1..] == ["h"] && ["h", "a"][1..] == ["a"];
    assert Unknown(t, ["g", "h"]) == Unknown(t, ["h"]) == 0 && Unknown(t, ["h", "a"]) == Unknown(t, ["a"]) == 0;
    assert Unknown(t, ["f"]) == 0;
    assert Enabled(t, [], ["g", "h"]) == Enabled(t, [], ["h"]) == [];
    assert Enabled(t, ["h"], ["g", "h"]) == Enabled(t, ["h"], ["h"]) == ["h"];
    OneRun(t, g, "h", [], [], ["h"], 3);
    OneRun(t, h, "f", [], ["h"], ["h", "f"], 2);
    OneRun(t, h, "a", ["f"], ["h", "f"], ["h", "f", "a"], 3);
    assert EnableMissing(t, g, ["h", "a"], 3) == EnableMissing(t, h, ["a"], 3);
    OneRun(t, g, "g", ["h", "a"], ["h", "f", "a"], ["h", "f", "a", "g"], 4);
    OneRun(t, g, "f", ["g"], ["h", "f", "a", "g"], ["h", "f", "a", "g", "f"], 5);
    OneRun(t, g, "a", ["f"], ["h", "f", "a", "g", "f"], ["h", "f", "a", "g", "f", "a"], 6);
  }
}
