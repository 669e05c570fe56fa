/** Tasks: a name, perhaps with a short option, and the names of the tasks it depends on. */
module Tasks {
  datatype Task = Task(name: string, fullname: string, deps: seq<string>, disjunctive: bool)

  type Tasks = map<string, Task>

  // ----- making a task -----

  /** Underscores become dashes. */
  function Normalize(s: string): (r: string)
    ensures '_' !in r && |r| == |s|
  {
    seq(|s|, i requires 0 <= i < |s| => if s[i] == '_' then '-' else s[i])
  }

  /** The strings that normalise to themselves are those without underscores. */
  lemma NormalSame(s: string)
    ensures Normalize(s) == s <==> '_' !in s
  {
    if '_' in s {
      var i :| 0 <= i < |s| && s[i] == '_';
      assert Normalize(s)[i] == '-';
    }
  }

  /** The two spellings of a character in the name of a task. */
  predicate SameChar(c: char, d: char) { c == d || {c, d} == {'_', '-'} }

  /** Two names denote the same task exactly when they differ in underscores for dashes only. */
  lemma NormalizeAlike(s: string, t: string)
    ensures Normalize(s) == Normalize(t) <==> |s| == |t| && forall i | 0 <= i < |s| :: SameChar(s[i], t[i])
  {
    if Normalize(s) == Normalize(t) {
      forall i | 0 <= i < |s| ensures SameChar(s[i], t[i]) { assert Normalize(s)[i] == Normalize(t)[i]; }
    }
    if |s| == |t| && forall i | 0 <= i < |s| :: SameChar(s[i], t[i]) {
      forall i | 0 <= i < |s| ensures Normalize(s)[i] == Normalize(t)[i] {
        if s[i] != t[i] { assert {s[i], t[i]} == {'_', '-'} && s[i] in {'_', '-'} && t[i] in {'_', '-'}; }
      }
    }
  }

  /** The position of the first space from start on, or the end. */
  method Find(s: string, start: nat) returns (end: nat)
    requires start <= |s|
    ensures start <= end <= |s| && (end < |s| ==> s[end] == ' ') && ' ' !in s[start..end]
  {
    end := start;
    while end < |s| && s[end] != ' '
      invariant start <= end <= |s| && ' ' !in s[start..end]
    {
      end := end + 1;
    }
  }

  function FirstSpace(s: string): (end: nat)
    ensures end <= |s|
  {
    if s == "" || s[0] == ' ' then 0 else 1 + FirstSpace(s[1..])
  }

  lemma FirstSpaceAt(s: string, end: nat)
    requires end <= |s| && (end < |s| ==> s[end] == ' ') && ' ' !in s[..end]
    ensures FirstSpace(s) == end
  {
    if end > 0 {
      assert s[0] == s[..end][0] && s[1..][..end - 1] == s[..end][1..];
      FirstSpaceAt(s[1..], end - 1);
    }
  }

  /** The pieces of a list of dependencies: each space ends one. */
  function Pieces(s: string): seq<string>
    decreases |s|, 0
  {
    if s == "" then [] else [s[..FirstSpace(s)]] + PiecesFrom(s, FirstSpace(s) + 1)
  }

  /** The pieces from start on. */
  function PiecesFrom(s: string, start: nat): seq<string>
    decreases if start < |s| then |s| - start else 0, 1
  {
    if start < |s| then Pieces(s[start..]) else []
  }

  function NormalizeAll(names: seq<string>): seq<string> {
    if names == [] then [] else [Normalize(names[0])] + NormalizeAll(names[1..])
  }

  lemma PieceAt(s: string, start: nat, end: nat)
    requires start < |s| && start <= end <= |s| && (end < |s| ==> s[end] == ' ') && ' ' !in s[start..end]
    ensures PiecesFrom(s, start) == [s[start..end]] + PiecesFrom(s, end + 1)
  {
    hide Pieces, PiecesFrom, FirstSpace;
    var t := s[start..];
    assert t[..end - start] == s[start..end];
    FirstSpaceAt(t, end - start);
    NextPiece(t);
    FromThere(s, start);
    if end < |s| {
      assert t[end - start + 1..] == s[end + 1..];
      RestPieces(s, end + 1);
      RestPieces(t, end - start + 1);
    } else {
      NoPiece(s, end + 1);
      NoPiece(t, end - start + 1);
    }
  }

  lemma NextPiece(t: string)
    requires t != ""
    ensures Pieces(t) == [t[..FirstSpace(t)]] + PiecesFrom(t, FirstSpace(t) + 1)
  {}

  lemma FromThere(s: string, start: nat)
    requires start < |s|
    ensures PiecesFrom(s, start) == Pieces(s[start..])
  {}

  lemma NoPiece(s: string, start: nat)
    requires start >= |s|
    ensures PiecesFrom(s, start) == []
  {}

  lemma RestPieces(s: string, start: nat)
    requires start <= |s|
    ensures PiecesFrom(s, start) == Pieces(s[start..])
  {}

  lemma NormalizePiece(s: string, start: nat, end: nat, r: seq<string>)
    requires start < |s| && start <= end <= |s| && (end < |s| ==> s[end] == ' ') && ' ' !in s[start..end]
    ensures r + NormalizeAll(PiecesFrom(s, start)) == r + [Normalize(s[start..end])] + NormalizeAll(PiecesFrom(s, end + 1))
  {
    hide PiecesFrom, Normalize;
    PieceAt(s, start, end);
    var rest := PiecesFrom(s, end + 1);
    assert ([s[start..end]] + rest)[1..] == rest;
  }

  /** The loop of the constructor over the list of dependencies. */
  method SplitDependencies(deps: string) returns (r: seq<string>)
    ensures r == NormalizeAll(Pieces(deps))
  {
    hide Pieces;
    r := [];
    var start := 0;
    assert deps[0..] == deps;
    assert PiecesFrom(deps, 0) == Pieces(deps) by { NoPieces(); }
    hide PiecesFrom, NormalizeAll;
    while start < |deps|
      invariant r + NormalizeAll(PiecesFrom(deps, start)) == NormalizeAll(Pieces(deps))
    {
      var end := Find(deps, start);
      NormalizePiece(deps, start, end, r);
      r := r + [Normalize(deps[start..end])];
      start := end + 1;
    }
    NoneFrom(deps, start);
  }

  lemma NoPieces()
    ensures Pieces("") == []
  {}

  lemma NoneFrom(s: string, start: nat)
    requires start >= |s|
    ensures NormalizeAll(PiecesFrom(s, start)) == []
  {}

  function Join(names: seq<string>): string {
    if names == [] then "" else if |names| == 1 then names[0] else names[0] + " " + Join(names[1..])
  }

  predicate Words(names: seq<string>) { forall i | 0 <= i < |names| :: names[i] != "" && ' ' !in names[i] }

  /** Splitting loses nothing but a space at the very end, whatever the list. */
  lemma {:induction false} SplitJoins(s: string)
    ensures Join(Pieces(s)) == if s != "" && s[|s| - 1] == ' ' then s[..|s| - 1] else s
    decreases |s|
  {
    hide FirstSpace;
    FirstSpaceStops(s);
    var end := FirstSpace(s);
    if s != "" && end == |s| {
      assert s[..end] == s && s[|s| - 1] in s[..end];
      assert Pieces(s) == [s];
    } else if s != "" {
      var w, rest := s[..end], s[end + 1..];
      SplitJoins(rest);
      assert s == w + " " + rest;
      if rest == "" {
        assert Pieces(s) == [w];
      } else {
        assert Pieces(s)[1..] == Pieces(rest) && Pieces(s)[0] == w;
        assert s[|s| - 1] == rest[|rest| - 1];
      }
    }
  }

  /** No piece has a space in it. */
  lemma {:induction false} PiecesPlain(s: string, p: string)
    requires p in Pieces(s)
    ensures ' ' !in p
    decreases |s|
  {
    hide FirstSpace;
    FirstSpaceStops(s);
    if p != s[..FirstSpace(s)] { PiecesPlain(s[FirstSpace(s) + 1..], p); }
  }

  lemma {:induction false} FirstSpaceStops(s: string)
    ensures var end := FirstSpace(s); (end < |s| ==> s[end] == ' ') && ' ' !in s[..end]
  {
    if s != "" && s[0] != ' ' {
      var end := FirstSpace(s[1..]);
      FirstSpaceStops(s[1..]);
      assert s[..end + 1] == [s[0]] + s[1..][..end];
    }
  }

  /** Names joined by single spaces are found again. */
  lemma {:induction false} JoinSplits(names: seq<string>)
    requires Words(names)
    ensures Pieces(Join(names)) == names
  {
    if names != [] {
      var w, s := names[0], Join(names);
      assert s[..|w|] == w;
      if |names| == 1 {
        FirstSpaceAt(s, |w|);
      } else {
        assert s[|w|] == ' ' && s[|w| + 1..] == Join(names[1..]);
        FirstSpaceAt(s, |w|);
        JoinSplits(names[1..]);
      }
    }
  }

  /** `Task::Task`: "h|help" has a short option. */
  method MakeTask(name: string, deps: string, disjunctive: bool) returns (t: Task)
    ensures var n := Normalize(name);
      if |n| >= 2 && n[1] == '|' then t.name == n[2..] && t.fullname == n[2..] + "," + [n[0]] else t.name == t.fullname == n
    ensures t.deps == NormalizeAll(Pieces(deps)) && t.disjunctive == disjunctive
  {
    var n := Normalize(name);
    var full := n;
    var ds := SplitDependencies(deps);
    if |n| >= 2 && n[1] == '|' {
      full := full + ",";
      full := full + [n[0]];
      full, n := full[2..], n[2..];
    }
    t := Task(n, full, ds, disjunctive);
  }
}
