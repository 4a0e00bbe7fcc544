/** The scheduler that decides which orchestration steps may run: `DagScheduler`. */
module DagScheduler {
  import opened DependencyGraph
  import opened DagValidation

  datatype StepState = Pending | Ready | Running | Completed | Failed | Blocked

  /** The scheduler's changing part: the state of each step, and how much each still waits for. */
  datatype Sched = Sched(states: map<Id, StepState>, degrees: map<Id, nat>)

  predicate Waiting(state: StepState) {
    state == Pending || state == Ready
  }

  predicate Terminal(state: StepState) {
    state == Completed || state == Failed || state == Blocked
  }

  function Less(n: nat, k: nat): nat {
    if k <= n then n - k else 0
  }

  function SetState(states: map<Id, StepState>, id: Id, state: StepState): map<Id, StepState> {
    if id in states then states[id := state] else states
  }

  function Initial(steps: seq<Id>, deps: Deps): Sched {
    Sched(map x | x in steps :: if DepsOf(deps, x) == [] then Ready else Pending,
          map x | x in steps :: |DepsOf(deps, x)|)
  }

  function Starting(s: Sched, id: Id): Sched {
    s.(states := SetState(s.states, id, Running))
  }

  /** `x` waits for `id` and for nothing else. */
  predicate Freed(deps: Deps, s: Sched, id: Id, x: Id) {
    x in s.degrees && Times(deps, x, id) > 0 && s.degrees[x] <= Times(deps, x, id)
  }

  /** `id` has completed: what waits for it waits for one thing less, and is ready if that was all. */
  function Completing(deps: Deps, s: Sched, id: Id): Sched {
    var states := SetState(s.states, id, Completed);
    Sched(map x | x in states :: if states[x] == Pending && Freed(deps, s, id, x) then Ready else states[x],
          map x | x in s.degrees :: Less(s.degrees[x], Times(deps, x, id)))
  }

  /** `id` has failed: whatever waits for it, however indirectly, will not run. */
  ghost function Failing(deps: Deps, s: Sched, id: Id): Sched {
    var states := SetState(s.states, id, Failed);
    s.(states := map x | x in states ::
                   if x in Downstream(deps, id) && Waiting(states[x]) then Blocked else states[x])
  }

  /** The steps that `id`'s failure blocks. */
  ghost function BlockedBy(deps: Deps, s: Sched, id: Id): set<Id> {
    var states := SetState(s.states, id, Failed);
    set x | x in states && x in Downstream(deps, id) && Waiting(states[x])
  }

  // ----- how failure spreads

  /** The steps in `seen` wait for `id`, and those that wait for them are seen or queued. */
  ghost predicate Spreading(deps: Deps, dependents: Deps, id: Id, seen: set<Id>, queue: seq<Id>) {
    && (forall x :: x in seen || x in queue ==> x in Downstream(deps, id))
    && (forall x :: x in DepsOf(dependents, id) ==> x in seen || x in queue)
    && (forall v, x :: v in seen && x in DepsOf(dependents, v) ==> x in seen || x in queue)
  }

  lemma MirrorIn(deps: Deps, dependents: Deps, d: Id, x: Id)
    requires Mirrors(deps, dependents)
    ensures x in DepsOf(dependents, d) <==> d in DepsOf(deps, x)
  {
    assert Times(dependents, d, x) == Times(deps, x, d);
    assert x in DepsOf(dependents, d) <==> multiset(DepsOf(dependents, d))[x] > 0;
    assert d in DepsOf(deps, x) <==> multiset(DepsOf(deps, x))[d] > 0;
  }

  lemma SpreadingStarts(deps: Deps, dependents: Deps, id: Id)
    requires Mirrors(deps, dependents)
    ensures Spreading(deps, dependents, id, {}, DepsOf(dependents, id))
  {
    hide DependsOn;
    forall x | x in DepsOf(dependents, id) ensures x in Downstream(deps, id) {
      MirrorIn(deps, dependents, id, x);
      DirectDependency(deps, x, id);
    }
  }

  lemma SpreadingStep(deps: Deps, dependents: Deps, id: Id, seen: set<Id>, queue: seq<Id>)
    requires Mirrors(deps, dependents) && Spreading(deps, dependents, id, seen, queue) && queue != []
    ensures var v, rest := queue[0], queue[1..];
            && v in Downstream(deps, id)
            && (v in seen ==> Spreading(deps, dependents, id, seen, rest))
            && (v !in seen ==> Spreading(deps, dependents, id, seen + {v}, rest + DepsOf(dependents, v)))
  {
    hide DependsOn;
    var v, rest := queue[0], queue[1..];
    assert forall x :: x in queue <==> x == v || x in rest;
    assert v in Downstream(deps, id);
    forall x | x in DepsOf(dependents, v) ensures x in Downstream(deps, id) {
      MirrorIn(deps, dependents, v, x);
      ExtendDependency(deps, x, v, id);
    }
  }

  lemma {:induction false} SpreadingReaches(deps: Deps, dependents: Deps, id: Id, seen: set<Id>, p: seq<Id>)
    requires Mirrors(deps, dependents) && Spreading(deps, dependents, id, seen, [])
    requires Path(deps, p) && p[|p| - 1] == id
    ensures p[0] in seen
    decreases |p|
  {
    assert p[1] in DepsOf(deps, p[0]);
    MirrorIn(deps, dependents, p[1], p[0]);
    if |p| > 2 {
      assert Path(deps, p[1..]) by {
        forall k | 0 <= k < |p[1..]| - 1 ensures p[1..][k + 1] in DepsOf(deps, p[1..][k]) {
          assert p[k + 2] in DepsOf(deps, p[k + 1]);
        }
      }
      SpreadingReaches(deps, dependents, id, seen, p[1..]);
    }
  }

  /** Once the queue is empty, exactly the steps downstream of `id` have been seen. */
  lemma SpreadingEnds(deps: Deps, dependents: Deps, id: Id, seen: set<Id>)
    requires Mirrors(deps, dependents) && Spreading(deps, dependents, id, seen, [])
    ensures seen == Downstream(deps, id)
  {
    forall x | x in Downstream(deps, id) ensures x in seen {
      var p :| PathBetween(deps, p, x, id);
      SpreadingReaches(deps, dependents, id, seen, p);
    }
  }

  lemma OwnDependency(deps: Deps, x: Id)
    requires x in DepsOf(deps, x)
    ensures !Acyclic(deps)
  {
    DirectDependency(deps, x, x);
  }

  // ----- the scheduler itself

  class DagScheduler {
    var steps: seq<Id>
    var dependents: Deps
    var states: map<Id, StepState>
    var degrees: map<Id, nat>
    ghost var deps: Deps

    ghost predicate Valid()
      reads this
    {
      && Mirrors(deps, dependents)
      && states.Keys == Elements(steps) && degrees.Keys == Elements(steps)
    }

    ghost function Value(): Sched
      reads this
    {
      Sched(states, degrees)
    }

    constructor (steps: seq<Id>, deps: Deps)
      ensures Valid() && this.steps == steps && this.deps == deps
      ensures Value() == Initial(steps, deps)
    {
      var reversed := ReverseDeps(steps, deps);
      this.steps := steps;
      this.deps := deps;
      dependents := reversed;
      states := map x | x in steps :: if DepsOf(deps, x) == [] then Ready else Pending;
      degrees := map x | x in steps :: |DepsOf(deps, x)|;
    }

    /** `DagScheduler::new`: only an orchestration without cycles gets a scheduler. */
    static method New(steps: seq<Id>, deps: Deps) returns (v: Verdict, scheduler: DagScheduler?)
      ensures v.Valid? <==> scheduler != null
      ensures deps.Keys <= Elements(steps) ==>
                (v.Valid? <==> Known(steps, deps) && Distinct(steps) && Acyclic(deps))
      ensures v.Valid? ==>
                && fresh(scheduler) && scheduler.Valid() && scheduler.steps == steps && scheduler.deps == deps
                && scheduler.Value() == Initial(steps, deps)
    {
      hide Acyclic, Distinct, Ordering, DependsOn;
      ghost var order;
      v, order := ValidateDag(steps, deps);
      if deps.Keys <= Elements(steps) {
        if v.Valid? || v.Cycle? {
          CountDecidesCycles(steps, deps, order);
        } else if v.SelfDependency? {
          OwnDependency(deps, v.step);
        }
      }
      scheduler := null;
      if v.Valid? {
        scheduler := new DagScheduler(steps, deps);
      }
    }

    /** The steps in a given state, in the order in which they were given. */
    method InState(state: StepState) returns (ids: seq<Id>)
      requires Valid()
      ensures ids == Select(steps, states, state)
    {
      ids := [];
      for i := 0 to |steps|
        invariant ids == Select(steps[..i], states, state)
      {
        assert steps[..i + 1][..i] == steps[..i];
        if steps[i] in states && states[steps[i]] == state {
          ids := ids + [steps[i]];
        }
      }
      assert steps[..|steps|] == steps;
    }

    method NextReady() returns (ids: seq<Id>)
      requires Valid()
      ensures ids == Select(steps, states, Ready)
    {
      ids := InState(Ready);
    }

    method RunningIds() returns (ids: seq<Id>)
      requires Valid()
      ensures ids == Select(steps, states, Running)
    {
      ids := InState(Running);
    }

    method IsComplete() returns (done: bool)
      requires Valid()
      ensures done <==> AllTerminal(Value())
    {
      done := true;
      var todo := states.Keys;
      while todo != {}
        invariant todo <= states.Keys
        invariant done <==> forall x :: x in states && x !in todo ==> Terminal(states[x])
      {
        var x :| x in todo;
        done := done && Terminal(states[x]);
        todo := todo - {x};
      }
    }

    method MarkRunning(id: Id)
      requires Valid()
      modifies this`states
      ensures Valid() && Value() == Starting(old(Value()), id)
    {
      if id in states {
        states := states[id := Running];
      }
    }

    method MarkCompleted(id: Id) returns (newlyReady: seq<Id>)
      requires Valid()
      modifies this`states, this`degrees
      ensures Valid() && Value() == Completing(deps, old(Value()), id)
      ensures NewlyReady(SetState(old(states), id, Completed), states, newlyReady)
    {
      hide ToldDegrees, ToldStates, Mirrors, NewlyReady, Less;
      if id in states {
        states := states[id := Completed];
      }
      newlyReady := [];
      var downstream := DepsOf(dependents, id);
      ghost var before := Sched(states, degrees);
      ToldNone(before);
      for j := 0 to |downstream|
        invariant degrees == ToldDegrees(before.degrees, multiset(downstream[..j]))
        invariant states == ToldStates(before, multiset(downstream[..j]))
        invariant NewlyReady(before.states, states, newlyReady)
      {
        var x := downstream[j];
        PrefixPush(downstream, j);
        ToldOneDegree(before.degrees, multiset(downstream[..j]), x);
        ToldOneState(before, multiset(downstream[..j]), x);
        if x in degrees {
          var n := Less(degrees[x], 1);
          degrees := degrees[x := n];
          if n == 0 && x in states && states[x] == Pending {
            NewlyReadyPush(before.states, states, newlyReady, x);
            states := states[x := Ready];
            newlyReady := newlyReady + [x];
          }
        }
      }
      assert downstream[..|downstream|] == downstream;
      ToldAll(deps, dependents, old(Value()), id);
      ToldKeys(before, multiset(downstream));
    }

    method MarkFailed(id: Id) returns (blocked: seq<Id>)
      requires Valid()
      modifies this`states
      ensures Valid() && Value() == Failing(deps, old(Value()), id)
      ensures Distinct(blocked) && Elements(blocked) == BlockedBy(deps, old(Value()), id)
    {
      if id in states {
        states := states[id := Failed];
      }
      ghost var before := states;
      blocked := [];
      var queue := DepsOf(dependents, id);
      var visited: set<Id> := {};
      SpreadingStarts(deps, dependents, id);
      while queue != []
        invariant Spreading(deps, dependents, id, visited, queue)
        invariant states == BlockSeen(before, visited)
        invariant Distinct(blocked) && Elements(blocked) == Stopped(before, visited)
        decreases Downstream(deps, id) - visited, |queue|
      {
        var ds := queue[0];
        SpreadingStep(deps, dependents, id, visited, queue);
        queue := queue[1..];
        if ds in visited { continue; }
        BlockOne(before, visited, ds);
        DistinctPush(blocked, ds);
        visited := visited + {ds};
        if ds in states && (states[ds] == Pending || states[ds] == Ready) {
          states := states[ds := Blocked];
          blocked := blocked + [ds];
        }
        queue := queue + DepsOf(dependents, ds);
      }
      SpreadingEnds(deps, dependents, id, visited);
    }
  }

  function Select(steps: seq<Id>, states: map<Id, StepState>, state: StepState): seq<Id> {
    if steps == [] then []
    else
      var last := steps[|steps| - 1];
      Select(steps[..|steps| - 1], states, state) + if last in states && states[last] == state then [last] else []
  }

  ghost predicate AllTerminal(s: Sched) {
    forall x :: x in s.states ==> Terminal(s.states[x])
  }

  ghost function BlockSeen(states: map<Id, StepState>, seen: set<Id>): map<Id, StepState> {
    map x | x in states :: if x in seen && Waiting(states[x]) then Blocked else states[x]
  }

  ghost function Stopped(states: map<Id, StepState>, seen: set<Id>): set<Id> {
    set x | x in states && x in seen && Waiting(states[x])
  }

  lemma BlockOne(states: map<Id, StepState>, seen: set<Id>, x: Id)
    requires x !in seen
    ensures var now := BlockSeen(states, seen);
            && (x in now ==> now[x] == states[x])
            && BlockSeen(states, seen + {x})
               == (if x in now && Waiting(now[x]) then now[x := Blocked] else now)
            && Stopped(states, seen + {x})
               == Stopped(states, seen) + (if x in now && Waiting(now[x]) then {x} else {})
  {
  }

  /** The in-degrees after some of a completed step's dependents have been told. */
  ghost function ToldDegrees(degrees: map<Id, nat>, told: multiset<Id>): map<Id, nat> {
    map x | x in degrees :: Less(degrees[x], told[x])
  }

  ghost function ToldState(state: StepState, degree: nat, times: nat): StepState {
    if state == Pending && times > 0 && degree <= times then Ready else state
  }

  ghost function ToldStates(s: Sched, told: multiset<Id>): map<Id, StepState> {
    map x | x in s.states :: if x in s.degrees then ToldState(s.states[x], s.degrees[x], told[x]) else s.states[x]
  }

  lemma ToldNone(s: Sched)
    ensures ToldDegrees(s.degrees, multiset([])) == s.degrees && ToldStates(s, multiset([])) == s.states
    ensures NewlyReady(s.states, s.states, [])
  {
  }

  lemma ToldKeys(s: Sched, told: multiset<Id>)
    ensures ToldDegrees(s.degrees, told).Keys == s.degrees.Keys && ToldStates(s, told).Keys == s.states.Keys
  {
  }

  /** `list` names, once each, the steps that have gone from pending to ready. */
  ghost predicate NewlyReady(before: map<Id, StepState>, states: map<Id, StepState>, list: seq<Id>) {
    && states.Keys == before.Keys && Distinct(list)
    && (forall x :: x in states && states[x] == Pending ==> before[x] == Pending)
    && (forall x :: x in list <==> x in states && states[x] == Ready && before[x] == Pending)
  }

  lemma NewlyReadyPush(before: map<Id, StepState>, states: map<Id, StepState>, list: seq<Id>, x: Id)
    requires NewlyReady(before, states, list) && x in states && states[x] == Pending
    ensures NewlyReady(before, states[x := Ready], list + [x])
  {
    DistinctPush(list, x);
  }

  lemma ToldOneDegree(degrees: map<Id, nat>, told: multiset<Id>, x: Id)
    ensures var now := ToldDegrees(degrees, told);
            ToldDegrees(degrees, told + multiset{x})
            == if x in now then now[x := Less(now[x], 1)] else now
  {
    var now, then' := ToldDegrees(degrees, told), ToldDegrees(degrees, told + multiset{x});
    forall y | y in degrees ensures then'[y] == if y == x then Less(now[y], 1) else now[y] {
      assert (told + multiset{x})[y] == told[y] + if y == x then 1 else 0;
    }
  }

  lemma ToldOneState(s: Sched, told: multiset<Id>, x: Id)
    ensures var now, degrees := ToldStates(s, told), ToldDegrees(s.degrees, told);
            ToldStates(s, told + multiset{x})
            == if x in degrees && Less(degrees[x], 1) == 0 && x in now && now[x] == Pending
               then now[x := Ready] else now
  {
    hide Less, ToldState;
    var now, then' := ToldStates(s, told), ToldStates(s, told + multiset{x});
    forall y | y in s.states && y != x ensures then'[y] == now[y] {
      assert (told + multiset{x})[y] == told[y];
    }
    if x in s.states && x in s.degrees {
      assert (told + multiset{x})[x] == told[x] + 1;
      ToldOnce(s.states[x], s.degrees[x], told[x]);
    }
  }

  lemma ToldOnce(state: StepState, degree: nat, times: nat)
    ensures ToldState(state, degree, times + 1)
         == (if Less(Less(degree, times), 1) == 0 && ToldState(state, degree, times) == Pending
             then Ready else ToldState(state, degree, times))
  {
  }

  lemma ToldAll(deps: Deps, dependents: Deps, s: Sched, id: Id)
    requires Mirrors(deps, dependents)
    ensures var before := s.(states := SetState(s.states, id, Completed));
            var told := multiset(DepsOf(dependents, id));
            Completing(deps, s, id) == Sched(ToldStates(before, told), ToldDegrees(s.degrees, told))
  {
    hide Times, DepsOf, Less;
    var before := s.(states := SetState(s.states, id, Completed));
    var told := multiset(DepsOf(dependents, id));
    forall x ensures told[x] == Times(deps, x, id) {
      ToldTimes(deps, dependents, id, x);
    }
    assert ToldDegrees(s.degrees, told) == Completing(deps, s, id).degrees;
    forall x | x in before.states ensures ToldStates(before, told)[x] == Completing(deps, s, id).states[x] {
    }
    assert ToldStates(before, told) == Completing(deps, s, id).states;
  }

  lemma ToldTimes(deps: Deps, dependents: Deps, id: Id, x: Id)
    requires Mirrors(deps, dependents)
    ensures multiset(DepsOf(dependents, id))[x] == Times(deps, x, id)
  {
    assert Times(dependents, id, x) == Times(deps, x, id);
  }
}
