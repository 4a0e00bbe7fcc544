/** Validation of an orchestration's dependencies by Kahn's algorithm: `validate_dag`. */
module DagValidation {
  import opened DependencyGraph

  datatype Verdict = Valid | UnknownDependency(step: Id, dep: Id) | SelfDependency(step: Id) | Cycle

  /** How often `b` occurs in the list of `a`. */
  function Times(m: Deps, a: Id, b: Id): nat {
    multiset(DepsOf(m, a))[b]
  }

  /** `dependents` holds each dependency, as often as it is listed, the other way round. */
  ghost predicate Mirrors(deps: Deps, dependents: Deps) {
    forall d, x :: Times(dependents, d, x) == Times(deps, x, d)
  }

  ghost predicate MirrorsUpTo(deps: Deps, dependents: Deps, finished: set<Id>, step: Id, prefix: seq<Id>) {
    forall d, x ::
      Times(dependents, d, x) == if x in finished then Times(deps, x, d)
                                 else if x == step then multiset(prefix)[d] else 0
  }

  lemma MirrorsPush(deps: Deps, dependents: Deps, finished: set<Id>, step: Id, prefix: seq<Id>, d: Id, more: seq<Id>)
    requires MirrorsUpTo(deps, dependents, finished, step, prefix) && step !in finished
    requires multiset(more) == multiset(prefix) + multiset{d}
    ensures MirrorsUpTo(deps, dependents[d := DepsOf(dependents, d) + [step]], finished, step, more)
  {
    hide Times;
    var after := dependents[d := DepsOf(dependents, d) + [step]];
    forall e, x
      ensures Times(after, e, x) == if x in finished then Times(deps, x, e)
                                    else if x == step then multiset(more)[e] else 0
    {
      TimesPush(dependents, d, step, e, x);
    }
  }

  lemma TimesPush(dependents: Deps, d: Id, step: Id, e: Id, x: Id)
    ensures Times(dependents[d := DepsOf(dependents, d) + [step]], e, x)
         == Times(dependents, e, x) + if e == d && x == step then 1 else 0
  {
  }

  lemma {:induction false} PrefixPush(list: seq<Id>, j: nat)
    requires j < |list|
    ensures multiset(list[..j + 1]) == multiset(list[..j]) + multiset{list[j]}
  {
    assert list[..j + 1] == list[..j] + [list[j]];
  }

  /** Builds the map from each step to the steps that wait for it; the order of the lists is not fixed. */
  method ReverseDeps(steps: seq<Id>, deps: Deps) returns (dependents: Deps)
    ensures Mirrors(deps, dependents)
  {
    dependents := map x | x in steps :: [];
    var todo := deps.Keys;
    ghost var finished: set<Id> := {};
    while todo != {}
      invariant finished == deps.Keys - todo && todo <= deps.Keys
      invariant forall d, x :: Times(dependents, d, x) == if x in finished then Times(deps, x, d) else 0
    {
      var step :| step in todo;
      dependents := ReverseOne(deps, dependents, finished, step);
      todo := todo - {step};
      finished := finished + {step};
    }
  }

  method ReverseOne(deps: Deps, before: Deps, ghost finished: set<Id>, step: Id) returns (dependents: Deps)
    requires step in deps && step !in finished
    requires forall d, x :: Times(before, d, x) == if x in finished then Times(deps, x, d) else 0
    ensures forall d, x :: Times(dependents, d, x) == if x in finished + {step} then Times(deps, x, d) else 0
  {
    hide Times;
    dependents := before;
    var list := deps[step];
    for j := 0 to |list|
      invariant MirrorsUpTo(deps, dependents, finished, step, list[..j])
    {
      PrefixPush(list, j);
      MirrorsPush(deps, dependents, finished, step, list[..j], list[j], list[..j + 1]);
      dependents := dependents[list[j] := DepsOf(dependents, list[j]) + [step]];
    }
    TimesOf(deps, step, list);
    assert list[..|list|] == list;
  }

  lemma TimesOf(m: Deps, a: Id, list: seq<Id>)
    requires a in m && m[a] == list
    ensures forall b :: Times(m, a, b) == multiset(list)[b]
  {
  }

  predicate Known(steps: seq<Id>, deps: Deps) {
    forall x, y :: x in deps && y in deps[x] ==> y in steps
  }

  predicate NoSelf(deps: Deps) {
    forall x :: x in deps ==> x !in deps[x]
  }

  method CheckReferences(steps: seq<Id>, deps: Deps) returns (v: Verdict)
    ensures v.Valid? ==> Known(steps, deps) && NoSelf(deps)
    ensures v.UnknownDependency? ==> v.step in deps && v.dep in deps[v.step] && v.dep !in steps
    ensures v.SelfDependency? ==> v.step in deps && v.step in deps[v.step]
    ensures !v.Cycle?
  {
    var todo := deps.Keys;
    while todo != {}
      invariant todo <= deps.Keys
      invariant forall x :: x in deps && x !in todo ==> x !in deps[x]
      invariant forall x, y :: x in deps && x !in todo && y in deps[x] ==> y in steps
    {
      var step :| step in todo;
      var list := deps[step];
      for j := 0 to |list|
        invariant forall k :: 0 <= k < j ==> list[k] in steps
      {
        if list[j] !in steps { return UnknownDependency(step, list[j]); }
      }
      if step in list { return SelfDependency(step); }
      todo := todo - {step};
    }
    v := Valid;
  }

  /** The steps Kahn's algorithm counts: those given, and any other that waits for something. */
  function Nodes(steps: seq<Id>, deps: Deps): set<Id> {
    (set x | x in steps) + (set x | x in deps && deps[x] != [])
  }

  method Enumerate(s: set<Id>) returns (list: seq<Id>)
    ensures Distinct(list) && Elements(list) == s
  {
    list := [];
    var todo := s;
    while todo != {}
      invariant Distinct(list) && Elements(list) == s - todo && todo <= s
    {
      var x :| x in todo;
      assert x !in Elements(list);
      DistinctPush(list, x);
      list, todo := list + [x], todo - {x};
    }
  }

  /**
   * Kahn's algorithm has put the steps of `order` in order and has `queue` to go through next:
   * the in-degrees count what each step still waits for, and exactly the steps that wait for
   * nothing have been ordered or queued.
   */
  ghost predicate Kahn(nodes: set<Id>, deps: Deps, degrees: map<Id, nat>, order: seq<Id>, queue: seq<Id>) {
    && degrees.Keys == nodes
    && (forall x :: x in nodes ==> degrees[x] == Unmet(DepsOf(deps, x), Elements(order)))
    && Distinct(order) && Distinct(queue) && Elements(order) !! Elements(queue)
    && (forall x :: x in order || x in queue <==> x in nodes && degrees[x] == 0)
    && Ordered(deps, order)
  }

  /** The same while `step`'s dependents are being told: those in `told` have been. */
  ghost predicate Releasing(nodes: set<Id>, deps: Deps, degrees: map<Id, nat>, order: seq<Id>, queue: seq<Id>,
                            step: Id, told: seq<Id>) {
    && degrees.Keys == nodes
    && (forall x :: x in nodes ==>
          degrees[x] + multiset(told)[x] == Unmet(DepsOf(deps, x), Elements(order)))
    && Distinct(queue) && Elements(order) !! Elements(queue) && step !in queue
    && (forall x :: x in order || x == step || x in queue <==> x in nodes && degrees[x] == 0)
  }

  method Release(nodes: set<Id>, deps: Deps, degrees0: map<Id, nat>, ghost order: seq<Id>, queue0: seq<Id>,
                 step: Id, neighbors: seq<Id>)
    returns (degrees: map<Id, nat>, queue: seq<Id>)
    requires step !in order && Releasing(nodes, deps, degrees0, order, queue0, step, [])
    requires forall x :: multiset(neighbors)[x] <= Unmet(DepsOf(deps, x), Elements(order))
    requires forall x :: x in neighbors ==> x in nodes
    ensures Releasing(nodes, deps, degrees, order, queue, step, neighbors)
  {
    hide Releasing, Unmet;
    degrees, queue := degrees0, queue0;
    for j := 0 to |neighbors|
      invariant Releasing(nodes, deps, degrees, order, queue, step, neighbors[..j])
    {
      var x := neighbors[j];
      PrefixPush(neighbors, j);
      StillUnmet(nodes, deps, degrees, order, queue, step, neighbors, j);
      ghost var before, was := degrees, queue;
      degrees := degrees[x := if degrees[x] > 0 then degrees[x] - 1 else 0];
      if degrees[x] == 0 {
        queue := queue + [x];
      }
      ReleaseOne(nodes, deps, before, order, was, step, neighbors[..j], x, neighbors[..j + 1], degrees, queue);
    }
    assert neighbors[..|neighbors|] == neighbors;
  }

  /** A dependent that is still to be told has something left to wait for. */
  lemma StillUnmet(nodes: set<Id>, deps: Deps, degrees: map<Id, nat>, order: seq<Id>, queue: seq<Id>, step: Id,
                   neighbors: seq<Id>, j: nat)
    requires j < |neighbors| && Releasing(nodes, deps, degrees, order, queue, step, neighbors[..j])
    requires neighbors[j] in nodes
    requires multiset(neighbors)[neighbors[j]] <= Unmet(DepsOf(deps, neighbors[j]), Elements(order))
    ensures degrees.Keys == nodes && degrees[neighbors[j]] > 0
  {
    hide Unmet;
    PrefixPush(neighbors, j);
    assert neighbors == neighbors[..j + 1] + neighbors[j + 1..];
  }

  lemma ReleaseOne(nodes: set<Id>, deps: Deps, before: map<Id, nat>, order: seq<Id>, was: seq<Id>, step: Id,
                   told: seq<Id>, x: Id, told': seq<Id>, degrees: map<Id, nat>, queue: seq<Id>)
    requires Releasing(nodes, deps, before, order, was, step, told)
    requires x in nodes && before[x] > 0 && multiset(told') == multiset(told) + multiset{x}
    requires degrees == before[x := before[x] - 1]
    requires queue == if degrees[x] == 0 then was + [x] else was
    ensures Releasing(nodes, deps, degrees, order, queue, step, told')
  {
    hide Unmet, Distinct;
    assert x !in was && x !in order && x != step;
    QueueMore(order, was, x, queue);
    forall y | y in nodes ensures degrees[y] + multiset(told')[y] == Unmet(DepsOf(deps, y), Elements(order)) {
      assert before[y] + multiset(told)[y] == Unmet(DepsOf(deps, y), Elements(order));
    }
  }

  /** A step that is neither ordered nor queued can be queued. */
  lemma QueueMore(order: seq<Id>, was: seq<Id>, x: Id, queue: seq<Id>)
    requires Distinct(was) && Elements(order) !! Elements(was) && x !in was && x !in order
    requires queue == was || queue == was + [x]
    ensures Distinct(queue) && Elements(order) !! Elements(queue)
    ensures forall y :: y in queue <==> y in was || (y == x && queue != was)
  {
    DistinctPush(was, x);
  }

  /** `step`, which waits for nothing unordered, is taken from the queue. */
  lemma TakeStep(nodes: set<Id>, deps: Deps, degrees: map<Id, nat>, order: seq<Id>, queue: seq<Id>)
    requires Kahn(nodes, deps, degrees, order, queue) && queue != []
    ensures Distinct(order + [queue[0]]) && Ordered(deps, order + [queue[0]])
    ensures queue[0] in nodes && queue[0] !in order
    ensures Releasing(nodes, deps, degrees, order, queue[1..], queue[0], [])
  {
    var step := queue[0];
    assert queue == [step] + queue[1..];
    assert step in Elements(queue);
    DistinctPush(order, step);
    UnmetZero(DepsOf(deps, step), Elements(order));
    var more := order + [step];
    forall i, y | 0 <= i < |more| && y in DepsOf(deps, more[i]) ensures y in more[..i] {
      assert more[..i] == order[..i];
      if i == |order| { assert y in Elements(order); }
    }
    forall x ensures x in order || x == step || x in queue[1..] <==> x in nodes && degrees[x] == 0 {
      assert x in queue <==> x == step || x in queue[1..];
    }
  }

  /** All of `step`'s dependents have been told. */
  lemma ReleasedAll(nodes: set<Id>, deps: Deps, degrees: map<Id, nat>, order: seq<Id>, queue: seq<Id>,
                    step: Id, neighbors: seq<Id>)
    requires Releasing(nodes, deps, degrees, order, queue, step, neighbors)
    requires step !in order && Distinct(order + [step]) && Ordered(deps, order + [step])
    requires forall x :: multiset(neighbors)[x] == multiset(DepsOf(deps, x))[step]
    ensures Kahn(nodes, deps, degrees, order + [step], queue)
  {
    DistinctPush(order, step);
    forall x | x in nodes ensures degrees[x] == Unmet(DepsOf(deps, x), Elements(order + [step])) {
      UnmetShrinks(DepsOf(deps, x), Elements(order), step);
    }
    assert forall x :: x in order + [step] <==> x in order || x == step;
    assert Elements(order + [step]) !! Elements(queue);
  }

  lemma NeighborsOf(steps: seq<Id>, deps: Deps, dependents: Deps, order: seq<Id>, step: Id)
    requires Mirrors(deps, dependents) && step !in order
    ensures forall x :: multiset(DepsOf(dependents, step))[x] == multiset(DepsOf(deps, x))[step]
    ensures forall x :: multiset(DepsOf(dependents, step))[x] <= Unmet(DepsOf(deps, x), Elements(order))
    ensures forall x :: x in DepsOf(dependents, step) ==> x in Nodes(steps, deps)
  {
    forall x
      ensures multiset(DepsOf(dependents, step))[x] == multiset(DepsOf(deps, x))[step]
      ensures multiset(DepsOf(dependents, step))[x] <= Unmet(DepsOf(deps, x), Elements(order))
      ensures x in DepsOf(dependents, step) ==> x in Nodes(steps, deps)
    {
      assert Times(dependents, step, x) == Times(deps, x, step);
      UnmetShrinks(DepsOf(deps, x), Elements(order), step);
      if x in DepsOf(dependents, step) {
        assert multiset(DepsOf(deps, x))[step] > 0;
        assert step in DepsOf(deps, x);
      }
    }
  }

  lemma KahnStarts(steps: seq<Id>, deps: Deps, degrees: map<Id, nat>, queue: seq<Id>)
    requires degrees == map x | x in Nodes(steps, deps) :: |DepsOf(deps, x)|
    requires Distinct(queue) && Elements(queue) == set x | x in Nodes(steps, deps) && degrees[x] == 0
    ensures Kahn(Nodes(steps, deps), deps, degrees, [], queue)
  {
    forall x | x in Nodes(steps, deps) ensures degrees[x] == Unmet(DepsOf(deps, x), Elements([])) {
      UnmetAll(DepsOf(deps, x));
      assert Elements([]) == {};
    }
    assert forall x :: x in queue <==> x in Elements(queue);
  }

  /** What is left when the queue runs dry waits for itself. */
  lemma LeftoversTrap(steps: seq<Id>, deps: Deps, degrees: map<Id, nat>, order: seq<Id>)
    requires Known(steps, deps) && Kahn(Nodes(steps, deps), deps, degrees, order, [])
    ensures Elements(order) <= Nodes(steps, deps)
    ensures Trap(deps, Nodes(steps, deps) - Elements(order))
  {
    var nodes := Nodes(steps, deps);
    forall x | x in nodes - Elements(order) ensures WaitsIn(deps, x, nodes - Elements(order)) {
      UnmetZero(DepsOf(deps, x), Elements(order));
      var y :| y in DepsOf(deps, x) && y !in Elements(order);
    }
  }

  /** `validate_dag` */
  method ValidateDag(steps: seq<Id>, deps: Deps) returns (v: Verdict, ghost order: seq<Id>)
    ensures v.UnknownDependency? ==> v.step in deps && v.dep in deps[v.step] && v.dep !in steps
    ensures v.SelfDependency? ==> v.step in deps && v.step in deps[v.step]
    ensures v.Valid? || v.Cycle? ==> Known(steps, deps) && NoSelf(deps)
    ensures v.Valid? || v.Cycle? ==> Ordering(steps, deps, order)
    ensures v.Valid? || v.Cycle? ==> (v.Valid? <==> |order| == |steps|)
  {
    hide Mirrors, Kahn, Releasing, Ordering, Known, Nodes;
    order := [];
    v := CheckReferences(steps, deps);
    if !v.Valid? { return; }
    var adj := ReverseDeps(steps, deps);
    ghost var nodes := Nodes(steps, deps);
    var degrees: map<Id, nat> := map x | x in Nodes(steps, deps) :: |DepsOf(deps, x)|;
    var queue := Enumerate(set x | x in Nodes(steps, deps) && degrees[x] == 0);
    var processed := 0;
    KahnStarts(steps, deps, degrees, queue);
    while queue != []
      invariant Kahn(nodes, deps, degrees, order, queue)
      invariant processed == |order|
      decreases nodes - Elements(order)
    {
      var step := queue[0];
      TakeStep(nodes, deps, degrees, order, queue);
      NeighborsOf(steps, deps, adj, order, step);
      queue, processed := queue[1..], processed + 1;
      degrees, queue := Release(Nodes(steps, deps), deps, degrees, order, queue, step, DepsOf(adj, step));
      ReleasedAll(nodes, deps, degrees, order, queue, step, DepsOf(adj, step));
      DistinctPush(order, step);
      order := order + [step];
    }
    KahnOrders(steps, deps, degrees, order);
    v := if processed != |steps| then Cycle else Valid;
  }

  /** A longest possible ordering: whatever cannot be added to it waits for itself. */
  ghost predicate Ordering(steps: seq<Id>, deps: Deps, order: seq<Id>) {
    && Distinct(order) && Ordered(deps, order) && Elements(order) <= Nodes(steps, deps)
    && Trap(deps, Nodes(steps, deps) - Elements(order))
  }

  lemma KahnOrders(steps: seq<Id>, deps: Deps, degrees: map<Id, nat>, order: seq<Id>)
    requires Known(steps, deps) && Kahn(Nodes(steps, deps), deps, degrees, order, [])
    ensures Ordering(steps, deps, order)
  {
    LeftoversTrap(steps, deps, degrees, order);
  }

  /**
   * When dependencies are listed only for known steps, the count comparison at the end of
   * `validate_dag` accepts exactly the orchestrations without cycles and without repeated steps.
   */
  lemma CountDecidesCycles(steps: seq<Id>, deps: Deps, order: seq<Id>)
    requires deps.Keys <= Elements(steps) && Ordering(steps, deps, order)
    ensures |order| == |steps| <==> Distinct(steps) && Acyclic(deps)
  {
    hide Acyclic, Ordered, Distinct, Trap;
    DistinctCount(order);
    DistinctCount(steps);
    assert Nodes(steps, deps) == Elements(steps);
    if |order| == |steps| {
      SubsetSize(Elements(order), Elements(steps));
      OrderedIsAcyclic(deps, order);
    }
    if Distinct(steps) && Acyclic(deps) {
      TrapIsEmpty(deps, Elements(steps) - Elements(order));
      assert Elements(order) == Elements(steps);
    }
  }

  /**
   * Dependencies may also be listed for steps that were not given: such a step is counted, and so
   * reported as a cycle, exactly if it waits for anything.
   */
  lemma StrangersCount(steps: seq<Id>, deps: Deps, order: seq<Id>)
    requires Distinct(steps) && Acyclic(deps) && Ordering(steps, deps, order)
    ensures |order| == |steps| <==> forall x :: x in deps && deps[x] != [] ==> x in steps
  {
    hide Acyclic, Ordered, Distinct, Trap;
    DistinctCount(order);
    DistinctCount(steps);
    var left := Nodes(steps, deps) - Elements(order);
    TrapIsEmpty(deps, left);
    assert Elements(order) == Nodes(steps, deps) by { assert Nodes(steps, deps) == Elements(order) + left; }
    NodesGiven(steps, deps);
    hide Nodes, Elements;
    SubsetSize(Elements(steps), Nodes(steps, deps));
  }

  lemma NodesGiven(steps: seq<Id>, deps: Deps)
    ensures Elements(steps) <= Nodes(steps, deps)
    ensures Elements(steps) == Nodes(steps, deps) <==> forall x :: x in deps && deps[x] != [] ==> x in steps
  {
    if Elements(steps) == Nodes(steps, deps) {
      forall x | x in deps && deps[x] != [] ensures x in steps { assert x in Nodes(steps, deps); }
    } else {
      var x :| x in Nodes(steps, deps) && x !in Elements(steps);
      assert x in deps && deps[x] != [] && x !in steps;
    }
  }

  lemma SubsetSize(s: set<Id>, t: set<Id>)
    requires s <= t
    ensures |s| <= |t| && (|s| == |t| ==> s == t)
  {
    assert |t| == |s| + |t - s| by { assert t == s + (t - s); }
    if |s| == |t| { assert t - s == {}; }
  }
}
