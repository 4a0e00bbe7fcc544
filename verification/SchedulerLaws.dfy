/** What every scheduling decision keeps, and why a scheduler without cycles never gets stuck. */
module SchedulerLaws {
  import opened DependencyGraph
  import opened DagValidation
  import opened DagScheduler

  ghost function Done(s: Sched): set<Id> {
    set x | x in s.states && s.states[x] == Completed
  }

  predicate Dead(state: StepState) {
    state == Failed || state == Blocked
  }

  /** Every dependency of a step is a step. */
  ghost predicate Closed(deps: Deps, s: Sched) {
    s.degrees.Keys == s.states.Keys
    && forall x, y :: x in s.states && y in DepsOf(deps, x) ==> y in s.states
  }

  /** The state of `x` agrees with the states of the steps it waits for. */
  ghost predicate Agrees(deps: Deps, s: Sched, x: Id)
    requires Closed(deps, s) && x in s.states
  {
    && s.degrees[x] == Unmet(DepsOf(deps, x), Done(s))
    && match s.states[x]
       case Pending => s.degrees[x] > 0 && forall y :: y in DepsOf(deps, x) ==> !Dead(s.states[y])
       case Blocked => exists y :: y in DepsOf(deps, x) && Dead(s.states[y])
       case _ => s.degrees[x] == 0
  }

  /** The scheduler is consistent: in-degrees count unfinished dependencies, and nothing starts too soon. */
  ghost predicate Consistent(deps: Deps, s: Sched) {
    Closed(deps, s) && forall x :: x in s.states ==> Agrees(deps, s, x)
  }

  /** A step that waits for nothing has every dependency completed. */
  lemma DependenciesDone(deps: Deps, s: Sched, x: Id)
    requires Closed(deps, s) && x in s.states && Agrees(deps, s, x)
    requires s.states[x] != Pending && s.states[x] != Blocked
    ensures forall y :: y in DepsOf(deps, x) ==> s.states[y] == Completed
  {
    UnmetZero(DepsOf(deps, x), Done(s));
  }

  lemma AgreesIn(deps: Deps, s: Sched, x: Id)
    requires Consistent(deps, s) && x in s.states
    ensures Closed(deps, s) && Agrees(deps, s, x)
  {
  }

  lemma InitialConsistent(steps: seq<Id>, deps: Deps)
    requires Known(steps, deps) && deps.Keys <= Elements(steps)
    ensures Consistent(deps, Initial(steps, deps))
  {
    var s := Initial(steps, deps);
    assert Closed(deps, s);
    forall x | x in s.states ensures Agrees(deps, s, x) {
      assert Done(s) == {};
      UnmetAll(DepsOf(deps, x));
    }
  }

  lemma StartingConsistent(deps: Deps, s: Sched, id: Id)
    requires Consistent(deps, s) && id in s.states && s.states[id] == Ready
    ensures Consistent(deps, Starting(s, id))
  {
    hide DepsOf, Unmet;
    var t := Starting(s, id);
    assert Done(t) == Done(s);
    forall x | x in t.states ensures Agrees(deps, t, x) {
      assert Agrees(deps, s, x);
      if s.states[x] == Blocked {
        var y :| y in DepsOf(deps, x) && Dead(s.states[y]);
        assert Dead(t.states[y]);
      }
    }
  }

  /** Completing a running step moves only pending steps, and only to ready. */
  lemma CompletingMoves(deps: Deps, s: Sched, id: Id)
    requires Consistent(deps, s) && id in s.states && s.states[id] == Running
    ensures var t := Completing(deps, s, id);
            && t.states.Keys == s.states.Keys && t.states[id] == Completed
            && Done(t) == Done(s) + {id}
            && (forall x :: x in s.states && x != id ==>
                  t.states[x] == s.states[x] || (s.states[x] == Pending && t.states[x] == Ready))
            && (forall x :: x in s.states ==> t.degrees[x] == Unmet(DepsOf(deps, x), Done(t)))
  {
    hide DepsOf, Unmet, Consistent, Agrees, Times, Freed;
    var t := Completing(deps, s, id);
    AgreesIn(deps, s, id);
    assert Done(t) == Done(s) + {id};
    forall x | x in s.states ensures t.degrees[x] == Unmet(DepsOf(deps, x), Done(t)) {
      AgreesIn(deps, s, x);
      CompletingDegree(deps, s, id, x);
    }
  }

  lemma CompletingDegree(deps: Deps, s: Sched, id: Id, x: Id)
    requires Closed(deps, s) && x in s.states && Agrees(deps, s, x)
    requires id in s.states && s.states[id] == Running
    ensures Completing(deps, s, id).degrees[x] == Unmet(DepsOf(deps, x), Done(s) + {id})
  {
    hide DepsOf, Unmet;
    UnmetShrinks(DepsOf(deps, x), Done(s), id);
  }

  lemma CompletingConsistent(deps: Deps, s: Sched, id: Id)
    requires Consistent(deps, s) && id in s.states && s.states[id] == Running
    ensures Consistent(deps, Completing(deps, s, id))
  {
    hide DepsOf, Unmet, Done;
    CompletingMoves(deps, s, id);
    var t := Completing(deps, s, id);
    forall x | x in t.states ensures Agrees(deps, t, x) {
      assert Agrees(deps, s, x);
      AgreesIn(deps, s, id);
      CompletingOne(deps, s, id, x);
    }
  }

  lemma CompletingOne(deps: Deps, s: Sched, id: Id, x: Id)
    requires Closed(deps, s) && id in s.states && s.states[id] == Running && x in s.states
    requires Agrees(deps, s, x) && Agrees(deps, s, id)
    requires var t := Completing(deps, s, id);
             && Closed(deps, t) && t.states.Keys == s.states.Keys
             && (forall y :: y in s.states && y != id ==>
                   t.states[y] == s.states[y] || (s.states[y] == Pending && t.states[y] == Ready))
             && t.degrees[x] == Unmet(DepsOf(deps, x), Done(t))
    ensures Agrees(deps, Completing(deps, s, id), x)
  {
    hide Unmet, DepsOf, Done, Times;
    var t := Completing(deps, s, id);
    assert t.states[id] == Completed;
    assert t.states[x] == Pending ==> s.states[x] == Pending && t.degrees[x] > 0;
    assert t.states[x] == Ready && s.states[x] == Pending ==> t.degrees[x] == 0;
    hide Completing, Freed, Less;
    if s.states[x] == Blocked {
      var y :| y in DepsOf(deps, x) && Dead(s.states[y]);
      assert Dead(t.states[y]);
    }
  }

  // ----- failure

  /** Everything upstream of a step that waits for nothing has completed. */
  lemma {:induction false} UpstreamDone(deps: Deps, s: Sched, p: seq<Id>)
    requires Consistent(deps, s) && Path(deps, p) && p[0] in s.states
    requires s.states[p[0]] != Pending && s.states[p[0]] != Blocked
    ensures p[|p| - 1] in s.states && s.states[p[|p| - 1]] == Completed
    decreases |p|
  {
    DependenciesDone(deps, s, p[0]);
    assert p[1] in DepsOf(deps, p[0]);
    if |p| > 2 {
      assert Path(deps, p[1..]) by {
        forall k | 0 <= k < |p[1..]| - 1 ensures p[1..][k + 1] in DepsOf(deps, p[1..][k]) {
          assert p[k + 2] in DepsOf(deps, p[k + 1]);
        }
      }
      UpstreamDone(deps, s, p[1..]);
    }
  }

  /** Only pending steps are downstream of a step that has not completed. */
  lemma DownstreamWaits(deps: Deps, s: Sched, id: Id, x: Id)
    requires Consistent(deps, s) && id in s.states && s.states[id] != Completed
    requires x in s.states && DependsOn(deps, x, id)
    ensures s.states[x] == Pending || s.states[x] == Blocked
  {
    hide Consistent;
    var p :| PathBetween(deps, p, x, id);
    if s.states[x] != Pending && s.states[x] != Blocked {
      UpstreamDone(deps, s, p);
    }
  }

  /** A failure blocks pending steps and touches nothing else. */
  lemma FailingMoves(deps: Deps, s: Sched, id: Id)
    requires Consistent(deps, s) && id in s.states && (s.states[id] == Running || s.states[id] == Ready)
    ensures var t := Failing(deps, s, id);
            && t.states.Keys == s.states.Keys && t.states[id] == Failed && t.degrees == s.degrees
            && Done(t) == Done(s)
            && (forall x :: x in s.states && x != id ==>
                  if x in Downstream(deps, id) && s.states[x] == Pending then t.states[x] == Blocked
                  else t.states[x] == s.states[x])
  {
    hide DependsOn, Consistent;
    var t := Failing(deps, s, id);
    forall x | x in s.states && x != id
      ensures if x in Downstream(deps, id) && s.states[x] == Pending then t.states[x] == Blocked
              else t.states[x] == s.states[x]
    {
      if x in Downstream(deps, id) { DownstreamWaits(deps, s, id, x); }
    }
  }

  lemma FailingConsistent(deps: Deps, s: Sched, id: Id)
    requires Consistent(deps, s) && id in s.states && (s.states[id] == Running || s.states[id] == Ready)
    ensures Consistent(deps, Failing(deps, s, id))
  {
    hide DepsOf, Unmet, Done, DependsOn, Downstream;
    FailingMoves(deps, s, id);
    var t := Failing(deps, s, id);
    forall x | x in t.states ensures Agrees(deps, t, x) {
      assert Agrees(deps, s, x);
      FailingOne(deps, s, id, x);
    }
  }

  lemma FailingOne(deps: Deps, s: Sched, id: Id, x: Id)
    requires Consistent(deps, s) && id in s.states && x in s.states
    requires s.states[id] == Running || s.states[id] == Ready
    ensures Closed(deps, Failing(deps, s, id)) && Agrees(deps, Failing(deps, s, id), x)
  {
    hide DepsOf, Unmet, DependsOn, Done;
    FailingMoves(deps, s, id);
    var t := Failing(deps, s, id);
    assert Agrees(deps, s, x);
    if t.states[x] == Blocked {
      if s.states[x] == Blocked {
        var y :| y in DepsOf(deps, x) && Dead(s.states[y]);
        assert Dead(t.states[y]);
      } else {
        BlockedHasReason(deps, s, id, x);
      }
    } else if t.states[x] == Pending {
      forall y | y in DepsOf(deps, x) ensures !Dead(t.states[y]) {
        PendingHasNone(deps, s, id, x, y);
      }
    }
  }

  lemma BlockedHasReason(deps: Deps, s: Sched, id: Id, x: Id)
    requires Consistent(deps, s) && id in s.states && x in s.states && s.states[x] == Pending
    requires s.states[id] == Running || s.states[id] == Ready
    requires x in Downstream(deps, id)
    ensures exists y :: y in DepsOf(deps, x) && y in s.states && Dead(Failing(deps, s, id).states[y])
  {
    hide Failing, Unmet, Done;
    var y := WaitsThrough(deps, x, id);
    assert y in s.states;
    AgreesIn(deps, s, x);
    FailingMoves(deps, s, id);
    if y != id {
      hide DependsOn;
      DownstreamWaits(deps, s, id, y);
      hide Consistent, Agrees, DepsOf;
    }
  }

  /** Whoever waits for `id` waits directly for it, or for someone who does. */
  lemma WaitsThrough(deps: Deps, x: Id, id: Id) returns (y: Id)
    requires DependsOn(deps, x, id)
    ensures y in DepsOf(deps, x) && (y == id || (DependsOn(deps, y, id) && y in Downstream(deps, id)))
  {
    var p :| PathBetween(deps, p, x, id);
    y := p[1];
    assert p[1] in DepsOf(deps, p[0]);
    if y != id {
      assert PathBetween(deps, p[1..], y, id) by {
        forall k | 0 <= k < |p[1..]| - 1 ensures p[1..][k + 1] in DepsOf(deps, p[1..][k]) {
          assert p[k + 2] in DepsOf(deps, p[k + 1]);
        }
      }
      assert p[1..][1] in DepsOf(deps, y);
    }
  }

  lemma PendingHasNone(deps: Deps, s: Sched, id: Id, x: Id, y: Id)
    requires Consistent(deps, s) && id in s.states && x in s.states && s.states[x] == Pending
    requires s.states[id] == Running || s.states[id] == Ready
    requires x !in Downstream(deps, id) && y in DepsOf(deps, x)
    ensures y in s.states && !Dead(Failing(deps, s, id).states[y])
  {
    hide DependsOn;
    FailingMoves(deps, s, id);
    assert Agrees(deps, s, x);
    if y == id {
      DirectDependency(deps, x, id);
    } else if y in Downstream(deps, id) {
      ExtendDependency(deps, x, y, id);
    }
  }

  // ----- progress

  /**
   * Without cycles the scheduler never gets stuck: when no step is running and none is ready,
   * every step has completed, failed or been blocked.
   */
  lemma NeverStuck(deps: Deps, s: Sched)
    requires Consistent(deps, s) && Acyclic(deps)
    requires forall x :: x in s.states ==> s.states[x] != Ready && s.states[x] != Running
    ensures AllTerminal(s)
  {
    hide Acyclic;
    var pending := set x | x in s.states && s.states[x] == Pending;
    forall x | x in pending ensures WaitsIn(deps, x, pending) {
      PendingWaits(deps, s, x, pending);
    }
    hide WaitsIn;
    TrapIsEmpty(deps, pending);
    forall x | x in s.states ensures Terminal(s.states[x]) {
      assert x !in pending;
    }
  }

  lemma PendingWaits(deps: Deps, s: Sched, x: Id, pending: set<Id>)
    requires Consistent(deps, s) && x in s.states && s.states[x] == Pending
    requires forall y :: y in s.states ==> s.states[y] != Ready && s.states[y] != Running
    requires pending == set y | y in s.states && s.states[y] == Pending
    ensures WaitsIn(deps, x, pending)
  {
    assert Agrees(deps, s, x);
    UnmetZero(DepsOf(deps, x), Done(s));
    var y :| y in DepsOf(deps, x) && y !in Done(s);
    assert y in s.states;
  }
}
