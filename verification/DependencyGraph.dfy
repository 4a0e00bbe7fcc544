/** Dependencies between orchestration steps, and the cycles that are not allowed in them. */
module DependencyGraph {

  datatype Id = Id(name: string)

  /** For each step, the steps it waits for. */
  type Deps = map<Id, seq<Id>>

  function DepsOf(deps: Deps, x: Id): seq<Id> {
    if x in deps then deps[x] else []
  }

  /** Every element of the path waits for the one after it. */
  predicate Path(deps: Deps, p: seq<Id>) {
    |p| >= 2 && forall i :: 0 <= i < |p| - 1 ==> p[i + 1] in DepsOf(deps, p[i])
  }

  predicate PathBetween(deps: Deps, p: seq<Id>, x: Id, y: Id) {
    Path(deps, p) && p[0] == x && p[|p| - 1] == y
  }

  /** `x` waits for `y`, directly or through other steps. */
  ghost predicate DependsOn(deps: Deps, x: Id, y: Id) {
    exists p :: PathBetween(deps, p, x, y)
  }

  ghost predicate Acyclic(deps: Deps) {
    forall x :: !DependsOn(deps, x, x)
  }

  /** The steps that wait for `y`, directly or through other steps. */
  ghost function Downstream(deps: Deps, y: Id): set<Id> {
    set x | x in deps && DependsOn(deps, x, y)
  }

  lemma DirectDependency(deps: Deps, x: Id, y: Id)
    requires y in DepsOf(deps, x)
    ensures DependsOn(deps, x, y)
  {
    assert PathBetween(deps, [x, y], x, y);
  }

  lemma ExtendDependency(deps: Deps, x: Id, y: Id, z: Id)
    requires y in DepsOf(deps, x) && DependsOn(deps, y, z)
    ensures DependsOn(deps, x, z)
  {
    var p :| PathBetween(deps, p, y, z);
    assert PathBetween(deps, [x] + p, x, z);
  }

  // ----- closed sets and cycles

  predicate WaitsIn(deps: Deps, x: Id, s: set<Id>) {
    exists y :: y in DepsOf(deps, x) && y in s
  }

  lemma AwaitedIn(deps: Deps, s: set<Id>, x: Id) returns (y: Id)
    requires WaitsIn(deps, x, s)
    ensures y in DepsOf(deps, x) && y in s
  {
    y :| y in DepsOf(deps, x) && y in s;
  }

  /** Each member of the set waits for a member of the set. */
  predicate Trap(deps: Deps, s: set<Id>) {
    forall x :: x in s ==> WaitsIn(deps, x, s)
  }

  predicate WalkIn(deps: Deps, s: set<Id>, p: seq<Id>) {
    && p != []
    && (forall i :: 0 <= i < |p| ==> p[i] in s)
    && (forall i :: 0 <= i < |p| - 1 ==> p[i + 1] in DepsOf(deps, p[i]))
  }

  lemma LoopIsCycle(deps: Deps, s: set<Id>, p: seq<Id>, i: nat)
    requires WalkIn(deps, s, p) && i < |p| && p[i] in DepsOf(deps, p[|p| - 1])
    ensures !Acyclic(deps)
  {
    var loop := p[i..] + [p[i]];
    forall k | 0 <= k < |loop| - 1 ensures loop[k + 1] in DepsOf(deps, loop[k]) {
      if k < |loop| - 2 { assert p[i + k + 1] in DepsOf(deps, p[i + k]); }
    }
    assert PathBetween(deps, loop, p[i], p[i]);
    assert DependsOn(deps, p[i], p[i]);
  }

  /** A walk that stays in a trap must come back to a step it has visited. */
  lemma {:induction false} WalkCloses(deps: Deps, s: set<Id>, p: seq<Id>, unseen: set<Id>)
    requires Trap(deps, s) && WalkIn(deps, s, p)
    requires forall x :: x in unseen <==> x in s && x !in p
    ensures !Acyclic(deps)
    decreases unseen
  {
    hide Acyclic, WaitsIn;
    assert p[|p| - 1] in s;
    var y := AwaitedIn(deps, s, p[|p| - 1]);
    if y in p {
      var i :| 0 <= i < |p| && p[i] == y;
      LoopIsCycle(deps, s, p, i);
    } else {
      WalkCloses(deps, s, p + [y], unseen - {y});
    }
  }

  /** Without cycles, a set in which everyone waits for someone is empty. */
  lemma TrapIsEmpty(deps: Deps, s: set<Id>)
    requires Acyclic(deps) && Trap(deps, s)
    ensures s == {}
  {
    hide Acyclic, Trap, DependsOn;
    if s != {} {
      var x :| x in s;
      WalkCloses(deps, s, [x], s - {x});
    }
  }

  /** Every step comes after the steps it waits for. */
  predicate Ordered(deps: Deps, order: seq<Id>) {
    forall i, y :: 0 <= i < |order| && y in DepsOf(deps, order[i]) ==> y in order[..i]
  }

  lemma {:induction false} OrderedPathFalls(deps: Deps, order: seq<Id>, p: seq<Id>, i: nat)
    requires Ordered(deps, order) && Path(deps, p) && i < |order| && p[0] == order[i]
    ensures p[|p| - 1] in order[..i]
    decreases |p|
  {
    assert p[1] in DepsOf(deps, p[0]);
    var j :| 0 <= j < i && order[..i][j] == p[1];
    if |p| > 2 {
      assert Path(deps, p[1..]) by {
        forall k | 0 <= k < |p[1..]| - 1 ensures p[1..][k + 1] in DepsOf(deps, p[1..][k]) {
          assert p[k + 2] in DepsOf(deps, p[k + 1]);
        }
      }
      OrderedPathFalls(deps, order, p[1..], j);
      assert p[1..][|p| - 2] in order[..j];
      assert order[..j] == order[..i][..j];
    }
  }

  predicate Distinct(s: seq<Id>) {
    forall i, j :: 0 <= i < j < |s| ==> s[i] != s[j]
  }

  function Elements(s: seq<Id>): set<Id> {
    set x | x in s
  }

  /** A step that can be put in order is on no cycle. */
  lemma OrderedIsAcyclic(deps: Deps, order: seq<Id>)
    requires Distinct(order) && Ordered(deps, order) && deps.Keys <= Elements(order)
    ensures Acyclic(deps)
  {
    forall x ensures !DependsOn(deps, x, x) {
      if DependsOn(deps, x, x) {
        var p :| PathBetween(deps, p, x, x);
        assert p[1] in DepsOf(deps, p[0]);
        assert x in Elements(order);
        var i :| 0 <= i < |order| && order[i] == x;
        OrderedPathFalls(deps, order, p, i);
      }
    }
  }

  lemma {:induction false} DistinctCount(s: seq<Id>)
    ensures |Elements(s)| <= |s|
    ensures |Elements(s)| == |s| <==> Distinct(s)
  {
    if s != [] {
      var t, x := s[..|s| - 1], s[|s| - 1];
      DistinctCount(t);
      DistinctPush(t, x);
      assert s == t + [x];
      assert Elements(s) == Elements(t) + {x};
    }
  }

  lemma DistinctPush(t: seq<Id>, x: Id)
    ensures Distinct(t + [x]) <==> Distinct(t) && x !in t
    ensures Elements(t + [x]) == Elements(t) + {x}
  {
    var s := t + [x];
    if Distinct(s) {
      assert forall i :: 0 <= i < |t| ==> t[i] == s[i] && s[i] != s[|t|];
    }
  }

  // ----- unmet dependencies

  /** How many entries of a dependency list are not in `done`. */
  function Unmet(list: seq<Id>, done: set<Id>): (n: nat) {
    if list == [] then 0
    else Unmet(list[..|list| - 1], done) + if list[|list| - 1] in done then 0 else 1
  }

  lemma {:induction false} UnmetShrinks(list: seq<Id>, done: set<Id>, x: Id)
    requires x !in done
    ensures Unmet(list, done) == Unmet(list, done + {x}) + multiset(list)[x]
  {
    if list != [] {
      UnmetShrinks(list[..|list| - 1], done, x);
      assert list == list[..|list| - 1] + [list[|list| - 1]];
    }
  }

  lemma {:induction false} UnmetZero(list: seq<Id>, done: set<Id>)
    ensures Unmet(list, done) == 0 <==> forall y :: y in list ==> y in done
  {
    if list != [] {
      UnmetZero(list[..|list| - 1], done);
      assert list == list[..|list| - 1] + [list[|list| - 1]];
    }
  }

  lemma {:induction false} UnmetAll(list: seq<Id>)
    ensures Unmet(list, {}) == |list|
  {
    if list != [] {
      UnmetAll(list[..|list| - 1]);
    }
  }
}
