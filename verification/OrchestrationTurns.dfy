/** Runs put together one turn of the loop at a time. */
module OrchestrationTurns {
  import opened DependencyGraph
  import opened DagValidation
  import opened DagScheduler
  import opened SchedulerLaws
  import opened Orchestration
  import opened OrchestrationSafety
  import opened OrchestrationLog
  import opened OrchestrationRuns
  import opened OrchestrationProgress
  import opened OrchestrationChains

  /** `spawn` is certain to refuse the step: it may not be approved, or has nothing in its prompt. */
  predicate Refused(c: Config, x: Id) {
    && x in c.steps
    && (x in c.unapprovable || (DepsOf(c.deps, x) == [] && x in c.prompts && c.prompts[x] == ""))
  }

  // ----- reaching states

  /** Some actions lead from `s` to `t`. */
  ghost predicate Leads(c: Config, s: State, t: State) {
    exists states, actions :: Trace(c, states, actions) && states[0] == s && states[|states| - 1] == t
  }

  lemma LeadsHere(c: Config, s: State)
    ensures Leads(c, s, s)
  {
    assert Trace(c, [s], []);
  }

  lemma LeadsOn(c: Config, s: State, t: State, a: Action) returns (u: State)
    requires Leads(c, s, t) && Enabled(c, t, a)
    ensures u == Apply(c, t, a) && Leads(c, s, u)
  {
    hide Enabled, Apply;
    u := Apply(c, t, a);
    var states, actions :| Trace(c, states, actions) && states[0] == s && states[|states| - 1] == t;
    var more, taken := states + [u], actions + [a];
    forall i | 0 <= i < |taken| ensures Enabled(c, more[i], taken[i]) && more[i + 1] == Apply(c, more[i], taken[i]) {
      if i < |actions| { assert Enabled(c, states[i], actions[i]) && states[i + 1] == Apply(c, states[i], actions[i]); }
    }
    assert Trace(c, more, taken);
  }

  lemma LeadsBy(c: Config, s: State, t: State) returns (states: seq<State>, actions: seq<Action>)
    requires Leads(c, s, t)
    ensures Trace(c, states, actions) && states != [] && states[0] == s && states[|states| - 1] == t
  {
    hide Enabled, Apply;
    states, actions :| Trace(c, states, actions) && states[0] == s && states[|states| - 1] == t;
  }

  /** A state that can be reached, before anything has failed. */
  ghost predicate Reached(c: Config, s: State) {
    Leads(c, Init(c), s) && Safe(c, s) && s.tally.failed == 0
  }

  lemma ReachedNext(c: Config, s: State, a: Action) returns (t: State)
    requires Accepted(c) && Reached(c, s) && Enabled(c, s, a) && Apply(c, s, a).tally.failed == 0
    ensures t == Apply(c, s, a) && Reached(c, t)
  {
    hide Accepted, Safe, Enabled, Apply, Leads, Init;
    t := LeadsOn(c, Init(c), s, a);
    StepSafe(c, s, a);
  }

  lemma ReachedSafe(c: Config, s: State)
    requires Reached(c, s)
    ensures Safe(c, s) && Planned(c, s) && AllTracked(s) && AllAgreed(s) && s.tally.failed == 0
  {
  }

  // ----- launching

  /** No running step has exited. */
  ghost predicate AllBusy(s: State) {
    forall x :: IsIn(s.sched, x, Running) ==> AtStage(s.tasks, x, Watching)
  }

  /** Every ready step has been started. */
  ghost predicate StartedAll(s: Sched, t: Sched) {
    && t.states.Keys == s.states.Keys
    && forall x :: x in s.states ==> t.states[x] == if s.states[x] == Ready then Running else s.states[x]
  }

  ghost predicate NoneRefused(c: Config, s: Sched) {
    forall x :: IsIn(s, x, Ready) ==> !Refused(c, x)
  }

  lemma {:induction false} ContextOfResults(deps: seq<Id>, results: map<Id, string>)
    requires deps != [] && forall y :: y in deps ==> y in results
    ensures Context(deps, results) != ""
  {
    assert deps[|deps| - 1] in deps;
  }

  lemma ReadyIsPromptable(c: Config, s: State, x: Id)
    requires Accepted(c) && Safe(c, s) && IsIn(s.sched, x, Ready) && !Refused(c, x)
    ensures Prompt(c, s.tally.results, x) != ""
  {
    hide Acyclic, Distinct, Known, Consistent, LoopOk, AllTracked, AllAgreed, Prompted, Lawful;
    ReadyAfterDependencies(c.deps, s.sched, x);
    assert x in Elements(c.steps);
    if DepsOf(c.deps, x) != [] {
      ContextOfResults(DepsOf(c.deps, x), s.tally.results);
    }
  }

  /** A step that has not been launched holds no permit. */
  lemma ReadyHoldsNothing(c: Config, s: State, x: Id)
    requires AllAgreed(s) && IsIn(s.sched, x, Ready) && !BeingAnnounced(s.pc, x)
    ensures x !in Held(s.tasks)
  {
    assert Agreed(s.tasks, s.sched, s.pc, x);
  }

  lemma CanSpawn(c: Config, s: State)
    requires Accepted(c) && Safe(c, s) && s.pc.Mapped? && s.pc.queue != [] && |Held(s.tasks)| < c.capacity
    requires IsIn(s.sched, s.pc.queue[0], Ready) && !Refused(c, s.pc.queue[0])
    ensures Enabled(c, s, Loop)
  {
    hide Prompt, Planned, AllTracked, AllAgreed, Logged, Prompted, Held, Accepted;
    var x := s.pc.queue[0];
    ReadyIsPromptable(c, s, x);
    assert x in c.steps by { ReadyIsStep(c, s, x); }
  }

  lemma ReadyIsStep(c: Config, s: State, x: Id)
    requires Planned(c, s) && IsIn(s.sched, x, Ready)
    ensures x in c.steps
  {
    hide Consistent, LoopOk;
    assert x in Elements(c.steps);
  }

  /** The steps in `done` have succeeded and left the `running` map; every other running step is busy. */
  ghost predicate Succeeded(s: State, done: set<Id>) {
    && (forall x :: x in done ==> IsIn(s.sched, x, Running) && x !in s.tasks.running)
    && (forall x :: x in done ==> x in s.tasks.db && s.tasks.db[x].status == RowCompleted)
    && (forall x :: IsIn(s.sched, x, Running) && x !in done ==> AtStage(s.tasks, x, Watching))
  }

  /** `spawn` goes through: the step is in the maps and its monitor watches it. */
  lemma SpawnOne(c: Config, s: State) returns (t: State)
    requires Accepted(c) && Reached(c, s) && s.pc.Launch? && s.pc.queue != []
    requires !Refused(c, s.pc.queue[0]) && |Held(s.tasks)| < c.capacity
    ensures Reached(c, t) && t.pc == Watched(s.pc.queue) && t.permit == s.permit && t.sched == s.sched
    ensures OneLaunched(s.tasks, t.tasks, s.pc.queue[0]) && t.tally.failed == 0
  {
    hide Accepted, Reached, Safe, Refused, Prompt, Spawnable;
    var q, x := s.pc.queue, s.pc.queue[0];
    assert IsIn(s.sched, x, Ready) && s.tally.failed == 0 by { ReachedSafe(c, s); QueueIsReady(c, s); }
    var a := ReachedNext(c, s, Loop);
    assert a.pc == Mapped(q) && a.sched == s.sched && a.tally == s.tally && a.tasks.monitors == s.tasks.monitors;
    assert Enabled(c, a, Loop) by { ReachedSafe(c, a); CanSpawn(c, a); }
    var b := ReachedNext(c, a, Loop);
    var d := ReachedNext(c, b, Loop);
    t := ReachedNext(c, d, Loop);
  }

  /** The first step of the queue can be launched if the pool has room. */
  lemma LaunchOne(c: Config, s: State, done: set<Id>) returns (t: State)
    requires Accepted(c) && Reached(c, s) && Succeeded(s, done) && s.pc.Launch? && s.pc.queue != []
    requires !Refused(c, s.pc.queue[0]) && |Held(s.tasks)| < c.capacity
    ensures Reached(c, t) && Succeeded(t, done) && t.pc == Launch(s.pc.queue[1..]) && t.permit == s.permit
    ensures t.sched == Starting(s.sched, s.pc.queue[0]) && Held(t.tasks) == Held(s.tasks) + {s.pc.queue[0]}
    ensures IsIn(t.sched, s.pc.queue[0], Running) && s.pc.queue[0] !in done
  {
    hide Accepted, Reached, Succeeded, Safe, Refused, OneLaunched, Held, Starting, IsIn;
    assert IsIn(s.sched, s.pc.queue[0], Ready) by { ReachedSafe(c, s); QueueIsReady(c, s); }
    var e := SpawnOne(c, s);
    t := ReachedNext(c, e, Loop);
    LaunchedSucceeded(s, t, done, s.pc.queue[0]);
  }

  /** The maps after `x` has been launched. */
  ghost predicate OneLaunched(k: Tasks, t: Tasks, x: Id) {
    && t.monitors == k.monitors[x := Watching] && t.running == k.running + {x}
    && (forall y :: y != x ==> (y in t.db <==> y in k.db))
    && (forall y :: y != x && y in k.db ==> t.db[y] == k.db[y])
  }

  lemma LaunchedSucceeded(s: State, t: State, done: set<Id>, x: Id)
    requires Succeeded(s, done) && IsIn(s.sched, x, Ready)
    requires t.sched == Starting(s.sched, x) && OneLaunched(s.tasks, t.tasks, x)
    ensures Succeeded(t, done) && IsIn(t.sched, x, Running) && x !in done
    ensures Held(t.tasks) == Held(s.tasks) + {x}
  {
    forall y | IsIn(t.sched, y, Running) && y !in done ensures AtStage(t.tasks, y, Watching) {
      assert y == x || IsIn(s.sched, y, Running);
    }
    forall y | y in done ensures IsIn(t.sched, y, Running) && y !in t.tasks.running && y in t.tasks.db {
      assert IsIn(s.sched, y, Running);
    }
  }

  lemma QueueIsReady(c: Config, s: State)
    requires Planned(c, s) && s.pc.Launch? && s.pc.queue != []
    ensures IsIn(s.sched, s.pc.queue[0], Ready) && IsIn(s.sched, s.pc.queue[|s.pc.queue| - 1], Ready)
  {
    hide Consistent;
    assert s.pc.queue[0] in s.pc.queue && s.pc.queue[|s.pc.queue| - 1] in s.pc.queue;
  }

  lemma EmptyQueue(c: Config, s: State)
    requires Reached(c, s) && s.pc == Launch([])
    ensures NoneReady(s.sched)
  {
    hide Leads, Consistent, AllTracked, AllAgreed, Logged, Prompted;
    forall x ensures !IsIn(s.sched, x, Ready) {
      assert x !in s.pc.queue;
    }
  }

  lemma RunningSelected(c: Config, s: State, w: Id)
    requires Planned(c, s) && IsIn(s.sched, w, Running)
    ensures w in Select(c.steps, s.sched.states, Running)
  {
    hide Consistent, LoopOk;
    assert w in Elements(c.steps);
    SelectIs(c.steps, s.sched.states, Running);
  }

  // ----- finishing

  /** A busy step can succeed and leave the `running` map, without having notified. */
  lemma WithdrawOne(c: Config, s: State, done: set<Id>, w: Id) returns (t: State)
    requires Accepted(c) && Reached(c, s) && Succeeded(s, done) && w !in done
    requires IsIn(s.sched, w, Running) && !s.pc.Ended?
    ensures Reached(c, t) && t.permit == s.permit && t.pc == s.pc && t.sched == s.sched
    ensures Succeeded(t, done + {w}) && AtStage(t.tasks, w, Withdrawn) && w in t.tasks.mapped && t.registered
    ensures forall x :: x != w ==> (AtStage(s.tasks, x, Watching) <==> AtStage(t.tasks, x, Watching))
    ensures Held(t.tasks) == Held(s.tasks)
  {
    hide Accepted, Reached, IsIn;
    assert Tracked(s.tasks, s.pc, w) && s.registered && s.tally.failed == 0 by { ReachedSafe(c, s); }
    assert AtStage(s.tasks, w, Watching);
    var a := ReachedNext(c, s, Exits(w, true, ""));
    assert AtStage(a.tasks, w, Recorded) && a.tally == s.tally;
    t := ReachedNext(c, a, Withdraw(w));
    assert t.tasks.mapped == s.tasks.mapped && t.tasks.running == s.tasks.running - {w};
  }

  /** A withdrawn step notifies the loop. */
  lemma NotifyOne(c: Config, s: State, w: Id) returns (t: State)
    requires Accepted(c) && Reached(c, s) && AtStage(s.tasks, w, Withdrawn) && w in s.tasks.mapped && s.registered
    ensures Reached(c, t) && t.permit && t.pc == s.pc && t.sched == s.sched && t.registered
    ensures t.tasks == s.tasks.(monitors := s.tasks.monitors[w := Notified]) && Held(t.tasks) == Held(s.tasks)
  {
    hide Accepted, Reached;
    assert s.tally.failed == 0 by { ReachedSafe(c, s); }
    t := ReachedNext(c, s, Notify(w));
  }

  lemma StillSucceeded(s: State, t: State, done: set<Id>, w: Id)
    requires Succeeded(s, done) && w in done && t.sched == s.sched
    requires t.tasks == s.tasks.(monitors := s.tasks.monitors[w := Notified])
    ensures Succeeded(t, done)
  {
  }

  /** A monitor that has notified ends, and with it the subagent's permit. */
  lemma UnmapOne(c: Config, s: State, w: Id) returns (t: State)
    requires Accepted(c) && Reached(c, s) && AtStage(s.tasks, w, Notified)
    ensures Reached(c, t) && t.permit == s.permit && t.pc == s.pc && t.sched == s.sched && t.registered == s.registered
    ensures t.tasks == s.tasks.(mapped := s.tasks.mapped - {w}, monitors := s.tasks.monitors[w := Gone])
    ensures Held(t.tasks) == Held(s.tasks) - {w}
  {
    hide Accepted, Reached;
    assert s.tally.failed == 0 by { ReachedSafe(c, s); }
    t := ReachedNext(c, s, Unmap(w));
  }

  lemma GoneSucceeded(s: State, t: State, done: set<Id>, w: Id)
    requires Succeeded(s, done) && w in done && t.sched == s.sched
    requires t.tasks == s.tasks.(mapped := s.tasks.mapped - {w}, monitors := s.tasks.monitors[w := Gone])
    ensures Succeeded(t, done)
  {
  }

  /** A busy step can succeed, notify the loop and give its permit back. */
  lemma FinishOne(c: Config, s: State, done: set<Id>, w: Id) returns (t: State)
    requires Accepted(c) && Reached(c, s) && Succeeded(s, done) && w !in done
    requires IsIn(s.sched, w, Running) && !s.pc.Ended?
    ensures Reached(c, t) && t.permit && t.pc == s.pc && t.sched == s.sched
    ensures Succeeded(t, done + {w}) && Held(t.tasks) == Held(s.tasks) - {w}
  {
    hide Accepted, Reached, Succeeded, IsIn;
    var a := WithdrawOne(c, s, done, w);
    var b := NotifyOne(c, a, w);
    StillSucceeded(a, b, done + {w}, w);
    t := UnmapOne(c, b, w);
    GoneSucceeded(b, t, done + {w}, w);
  }

  // ----- launching everything

  ghost predicate LastIn(q: seq<Id>, kept: set<Id>) {
    q == [] || q[|q| - 1] in kept
  }

  /** What is still to be launched and kept holds no permit, so there is room for the next step. */
  lemma RoomForNext(c: Config, s: State, kept: set<Id>)
    requires Reached(c, s) && s.pc.Launch? && s.pc.queue != [] && LastIn(s.pc.queue, kept)
    requires Held(s.tasks) <= kept && |kept| <= c.capacity
    ensures |Held(s.tasks)| < c.capacity && IsIn(s.sched, s.pc.queue[0], Ready)
  {
    hide Planned, Safe, AllTracked, AllAgreed, Held, Leads;
    ReachedSafe(c, s);
    QueueIsReady(c, s);
    var last := s.pc.queue[|s.pc.queue| - 1];
    ReadyHoldsNothing(c, s, last);
    SubsetSize(Held(s.tasks), kept - {last});
  }

  /**
   * Everything that is ready can be launched, with the steps in `kept` staying busy and every other
   * finishing before the next is launched, if what is kept fits in the pool and is launched last.
   */
  lemma {:induction false} LaunchAll(c: Config, s: State, kept: set<Id>, done: set<Id>) returns (t: State)
    requires Accepted(c) && NoneRefused(c, s.sched) && Reached(c, s) && Succeeded(s, done) && s.pc.Launch?
    requires Held(s.tasks) <= kept && |kept| <= c.capacity && LastIn(s.pc.queue, kept)
    ensures Reached(c, t) && t.pc == Launch([]) && StartedAll(s.sched, t.sched) && Held(t.tasks) <= kept
    ensures Succeeded(t, done + (Elements(s.pc.queue) - kept))
    ensures t.permit <==> s.permit || Elements(s.pc.queue) - kept != {}
    decreases |s.pc.queue|
  {
    hide Accepted, Reached, Succeeded, Refused, Held;
    var q := s.pc.queue;
    if q == [] {
      t := s;
      assert NoneReady(s.sched) by { EmptyQueue(c, s); }
      assert forall x :: x in s.sched.states ==> !IsIn(s.sched, x, Ready);
      assert done + (Elements(q) - kept) == done;
    } else {
      RoomForNext(c, s, kept);
      var u := LaunchOne(c, s, done);
      var v, more := u, done;
      if q[0] !in kept {
        v := FinishOne(c, u, done, q[0]);
        more := done + {q[0]};
      }
      StartingKeeps(c, s.sched, q[0]);
      t := LaunchAll(c, v, kept, more);
      LaunchedRest(q, kept, done);
    }
  }

  lemma StartingKeeps(c: Config, s: Sched, x: Id)
    requires NoneRefused(c, s) && IsIn(s, x, Ready)
    ensures NoneRefused(c, Starting(s, x))
    ensures forall t :: StartedAll(Starting(s, x), t) ==> StartedAll(s, t)
  {
    hide Refused;
  }

  lemma LaunchedRest(q: seq<Id>, kept: set<Id>, done: set<Id>)
    requires q != [] && LastIn(q, kept)
    ensures LastIn(q[1..], kept)
    ensures q[0] in kept ==> Elements(q) - kept == Elements(q[1..]) - kept
    ensures q[0] !in kept ==> done + {q[0]} + (Elements(q[1..]) - kept) == done + (Elements(q) - kept)
    ensures q[0] !in kept ==> Elements(q) - kept != {}
  {
    assert q == [q[0]] + q[1..];
  }

  lemma ScannedIsTracked(c: Config, s: State)
    requires Planned(c, s) && AllTracked(s) && s.pc.Scan? && s.pc.queue != []
    ensures IsIn(s.sched, s.pc.queue[0], Running) && Tracked(s.tasks, s.pc, s.pc.queue[0])
    ensures Distinct(s.pc.queue)
  {
    hide Consistent;
    assert s.pc.queue[0] in s.pc.queue;
  }

  lemma ScanFinds(c: Config, s: State, w: Id)
    requires s.pc.Scan? && HeadOf(s.pc.queue, w) && w !in s.tasks.running
    ensures LoopStep(c, s) == s.(pc := Read(s.pc.queue))
  {
  }

  lemma ScanSkips(c: Config, s: State)
    requires s.pc.Scan? && s.pc.queue != [] && s.pc.queue[0] in s.tasks.running
    ensures LoopStep(c, s) == s.(pc := Scan(s.pc.queue[1..]))
  {
  }

  lemma ReadCompletes(c: Config, s: State, w: Id)
    requires s.pc.Read? && HeadOf(s.pc.queue, w) && w in s.tasks.db && s.tasks.db[w].status == RowCompleted
    ensures var t := LoopStep(c, s);
            && t.pc == Scan(s.pc.queue[1..]) && t.sched == Completing(c.deps, s.sched, w)
            && t.tasks == s.tasks && t.permit == s.permit && t.tally.failed == s.tally.failed
            && t.registered == s.registered
  {
    hide Completing;
  }

  /** The steps in `done` have completed, and pending steps may have become ready. */
  ghost predicate Closes(s: Sched, t: Sched, done: set<Id>) {
    && t.states.Keys == s.states.Keys && done <= s.states.Keys && (done == {} ==> t == s)
    && forall x :: x in s.states ==>
         if x in done then t.states[x] == Completed
         else if s.states[x] == Pending then t.states[x] == Pending || t.states[x] == Ready
         else t.states[x] == s.states[x]
  }

  lemma CompletingCloses(c: Config, s: State, w: Id)
    requires Planned(c, s) && IsIn(s.sched, w, Running)
    ensures Closes(s.sched, Completing(c.deps, s.sched, w), {w})
  {
    hide Consistent, Freed, Done, LoopOk;
    CompletingMoves(c.deps, s.sched, w);
    hide Completing;
  }

  lemma ClosesThen(a: Sched, b: Sched, d: Sched, w: Id, rest: set<Id>)
    requires Closes(a, b, {w}) && Closes(b, d, rest) && w !in rest
    requires forall x :: x in rest ==> IsIn(a, x, Running)
    ensures Closes(a, d, rest + {w})
  {
    forall x | x in a.states ensures
      if x in rest + {w} then d.states[x] == Completed
      else if a.states[x] == Pending then d.states[x] == Pending || d.states[x] == Ready
      else d.states[x] == a.states[x]
    {
      assert x in b.states && x in d.states;
    }
  }

  lemma SucceededAt(s: State, done: set<Id>, w: Id)
    requires Succeeded(s, done) && w in done
    ensures IsIn(s.sched, w, Running) && w !in s.tasks.running
    ensures w in s.tasks.db && s.tasks.db[w].status == RowCompleted
  {
  }

  /** Looking at a step that has succeeded completes it. */
  lemma ScanHit(c: Config, s: State, done: set<Id>, w: Id) returns (t: State)
    requires Accepted(c) && Reached(c, s) && s.pc.Scan? && HeadOf(s.pc.queue, w) && w in done && Succeeded(s, done)
    ensures Reached(c, t) && t.pc == Scan(s.pc.queue[1..]) && t.permit == s.permit && t.tasks == s.tasks
    ensures t.registered == s.registered && Closes(s.sched, t.sched, {w}) && Succeeded(t, done - {w})
  {
    hide Accepted, Reached, Completing, LoopStep, Succeeded, Closes, Planned, Safe, AllTracked, AllAgreed, IsIn;
    ReachedSafe(c, s);
    SucceededAt(s, done, w);
    CompletingCloses(c, s, w);
    ScanFinds(c, s, w);
    var a := ReachedNext(c, s, Loop);
    ReadCompletes(c, a, w);
    t := ReachedNext(c, a, Loop);
    SucceededLess(s, t, done, w);
  }

  lemma SucceededLess(s: State, t: State, done: set<Id>, w: Id)
    requires Succeeded(s, done) && w in done && t.tasks == s.tasks && Closes(s.sched, t.sched, {w})
    ensures Succeeded(t, done - {w})
  {
    forall x ensures IsIn(t.sched, x, Running) <==> IsIn(s.sched, x, Running) && x != w {
      if x in s.sched.states || x in t.sched.states { assert x in s.sched.states && x in t.sched.states; }
    }
  }

  /** Looking at running steps completes those that have succeeded. */
  lemma {:induction false} ScanAll(c: Config, s: State, done: set<Id>) returns (t: State)
    requires Accepted(c) && Reached(c, s) && s.pc.Scan? && Succeeded(s, done) && done <= Elements(s.pc.queue)
    ensures Reached(c, t) && AllBusy(t) && t.pc.Top? && t.permit == s.permit && t.tasks == s.tasks
    ensures t.registered == s.registered && Closes(s.sched, t.sched, done)
    decreases |s.pc.queue|
  {
    hide Accepted, Reached, Closes;
    assert s.tally.failed == 0 by { ReachedSafe(c, s); }
    var q := s.pc.queue;
    if q == [] {
      t := ReachedNext(c, s, Loop);
      ClosesNone(s.sched);
      assert done == {};
    } else if q[0] in done {
      assert Distinct(q) by { ReachedSafe(c, s); ScannedIsTracked(c, s); }
      DistinctTail(q);
      var u := ScanHit(c, s, done, q[0]);
      t := ScanAll(c, u, done - {q[0]});
      ClosesThen(s.sched, u.sched, t.sched, q[0], done - {q[0]});
      assert done - {q[0]} + {q[0]} == done;
    } else {
      assert q[0] in s.tasks.running by { ReachedSafe(c, s); ScannedIsTracked(c, s); }
      ScanSkips(c, s);
      hide LoopStep, Succeeded;
      assert forall x :: x in q <==> x == q[0] || x in q[1..];
      var u := ReachedNext(c, s, Loop);
      SameSucceeded(s, u, done);
      t := ScanAll(c, u, done);
    }
  }

  lemma SameSucceeded(s: State, t: State, done: set<Id>)
    requires Succeeded(s, done) && t.sched == s.sched && t.tasks == s.tasks
    ensures Succeeded(t, done)
  {
  }

  lemma ClosesNone(s: Sched)
    ensures Closes(s, s, {})
  {
  }

  /** From a wait that has been notified back to the top. */
  lemma FinishTurn(c: Config, s: State, done: set<Id>) returns (t: State)
    requires Accepted(c) && Reached(c, s) && s.permit && s.pc.WaitStep? && Succeeded(s, done)
    ensures Reached(c, t) && AllBusy(t) && t.pc.Top? && !t.permit && t.tasks == s.tasks
    ensures t.registered == s.registered && Closes(s.sched, t.sched, done)
  {
    hide Accepted, Reached, AllBusy, Select, Closes;
    var q := Select(c.steps, s.sched.states, Running);
    assert s.tally.failed == 0 by { ReachedSafe(c, s); }
    forall x | x in done ensures x in q { ReachedSafe(c, s); RunningSelected(c, s, x); }
    var f := ReachedNext(c, s, Loop);
    assert f.pc == Scan(q) && f.tasks == s.tasks && f.sched == s.sched && !f.permit && f.registered == s.registered;
    SameSucceeded(s, f, done);
    t := ScanAll(c, f, done);
  }

  // ----- whole turns

  /** The steps in `done` have completed; what was ready is running, and what was pending may be ready. */
  ghost predicate Advanced(s: Sched, t: Sched, done: set<Id>) {
    && t.states.Keys == s.states.Keys && done <= s.states.Keys
    && forall x :: x in s.states ==>
         if x in done then t.states[x] == Completed
         else if s.states[x] == Ready then t.states[x] == Running
         else if s.states[x] == Pending then t.states[x] == Pending || t.states[x] == Ready
         else t.states[x] == s.states[x]
  }

  lemma LaunchedThenClosed(a: Sched, b: Sched, d: Sched, done: set<Id>)
    requires StartedAll(a, b) && Closes(b, d, done)
    ensures Advanced(a, d, done)
  {
    forall x | x in a.states ensures x in b.states && x in d.states {}
  }

  lemma BusyIsSucceeded(s: State)
    requires AllBusy(s)
    ensures Succeeded(s, {})
  {
  }

  lemma ToWait(c: Config, s: State, done: set<Id>, w: Id) returns (t: State)
    requires Accepted(c) && Reached(c, s) && Succeeded(s, done) && s.pc == Launch([]) && IsIn(s.sched, w, Running)
    ensures Reached(c, t) && Succeeded(t, done) && t.pc.WaitStep?
    ensures t.sched == s.sched && t.permit == s.permit && t.tasks == s.tasks
  {
    hide Accepted, Reached, Succeeded, Select;
    assert s.tally.failed == 0 by { ReachedSafe(c, s); }
    assert w in Select(c.steps, s.sched.states, Running) by { ReachedSafe(c, s); RunningSelected(c, s, w); }
    var a := ReachedNext(c, s, Loop);
    assert a == s.(pc := Launched);
    t := ReachedNext(c, a, Loop);
    assert t == s.(pc := WaitStep);
    SameSucceeded(s, t, done);
  }

  /** The ready steps, in the order in which they are launched. */
  ghost function Queue(c: Config, s: Sched): seq<Id> {
    Select(c.steps, s.states, Ready)
  }

  lemma QueueIs(c: Config, s: State)
    requires Planned(c, s)
    ensures forall x :: x in Queue(c, s.sched) <==> IsIn(s.sched, x, Ready)
  {
    hide Consistent, LoopOk;
    forall x ensures x in Queue(c, s.sched) <==> IsIn(s.sched, x, Ready) {
      if IsIn(s.sched, x, Ready) { assert x in Elements(c.steps); }
      SelectIs(c.steps, s.sched.states, Ready);
    }
  }

  /** From the top of the loop to its wait, with everything that is ready launched. */
  lemma LaunchTurn(c: Config, s: State, kept: set<Id>) returns (t: State)
    requires Accepted(c) && Reached(c, s) && AllBusy(s) && s.pc.Top? && NoneRefused(c, s.sched)
    requires Queue(c, s.sched) != [] && LastIn(Queue(c, s.sched), kept) && Held(s.tasks) <= kept && |kept| <= c.capacity
    ensures Reached(c, t) && t.pc.WaitStep? && StartedAll(s.sched, t.sched) && Held(t.tasks) <= kept
    ensures Succeeded(t, Elements(Queue(c, s.sched)) - kept)
    ensures t.permit <==> s.permit || Elements(Queue(c, s.sched)) - kept != {}
  {
    hide Accepted, Reached, AllBusy, AllTerminal, Select, NoneRefused, Succeeded, Held;
    var q := Queue(c, s.sched);
    assert s.tally.failed == 0 && IsIn(s.sched, q[0], Ready) by {
      ReachedSafe(c, s);
      QueueIs(c, s);
      assert q[0] in q;
    }
    var a := ReachedNext(c, s, Loop);
    assert a == s.(pc := Launch(q));
    BusyIsSucceeded(s);
    SameSucceeded(s, a, {});
    var b := LaunchAll(c, a, kept, {});
    assert {} + (Elements(q) - kept) == Elements(q) - kept;
    t := ToWait(c, b, Elements(q) - kept, q[0]);
  }

  /** The ready steps that are not in `held`. */
  ghost function Free(c: Config, s: Sched, held: set<Id>): set<Id> {
    Elements(Queue(c, s)) - held
  }

  /** A turn of the loop in which the steps in `kept` stay busy and the others that are launched complete. */
  lemma KeepTurn(c: Config, s: State, kept: set<Id>) returns (t: State)
    requires Accepted(c) && Reached(c, s) && AllBusy(s) && s.pc.Top? && NoneRefused(c, s.sched)
    requires Queue(c, s.sched) != [] && LastIn(Queue(c, s.sched), kept) && Held(s.tasks) <= kept && |kept| <= c.capacity
    requires s.permit || Free(c, s.sched, kept) != {}
    ensures Reached(c, t) && AllBusy(t) && t.pc.Top? && Advanced(s.sched, t.sched, Free(c, s.sched, kept))
    ensures Free(c, s.sched, kept) == {} ==> NoneReady(t.sched)
  {
    hide Accepted, Reached, AllBusy, Queue, NoneRefused, Succeeded, Held, StartedAll, Closes, Advanced, NoneReady;
    var a := LaunchTurn(c, s, kept);
    t := FinishTurn(c, a, Free(c, s.sched, kept));
    LaunchedThenClosed(s.sched, a.sched, t.sched, Free(c, s.sched, kept));
    NoneReadyAfter(s.sched, a.sched, t.sched, Free(c, s.sched, kept));
  }

  lemma NoneReadyAfter(a: Sched, b: Sched, d: Sched, done: set<Id>)
    requires StartedAll(a, b) && Closes(b, d, done)
    ensures done == {} ==> NoneReady(d)
  {
    forall x | x in b.states ensures b.states[x] != Ready { assert x in a.states; }
  }

  /**
   * A turn in which every step that is launched completes, except those in `held`. The last of
   * them, `y`, notifies only after it has been looked at, if the loop is woken without it; the
   * notification is then left over.
   */
  lemma WaveTurn(c: Config, s: State, held: set<Id>, y: Id) returns (t: State)
    requires Accepted(c) && Reached(c, s) && AllBusy(s) && s.pc.Top? && NoneRefused(c, s.sched)
    requires Held(s.tasks) <= held && |held| < c.capacity
    requires y in Free(c, s.sched, held) && LastIn(Queue(c, s.sched), held + {y})
    ensures Reached(c, t) && AllBusy(t) && t.pc.Top? && Held(t.tasks) <= held
    ensures Advanced(s.sched, t.sched, Free(c, s.sched, held))
    ensures t.permit <==> s.permit || Free(c, s.sched, held) != {y}
  {
    hide Accepted, Reached, AllBusy, Queue, NoneRefused, Succeeded, Held, StartedAll, Closes, Advanced, IsIn;
    var free, rest := Free(c, s.sched, held), Free(c, s.sched, held + {y});
    assert free == rest + {y} && rest == free - {y};
    var a := LaunchTurn(c, s, held + {y});
    assert IsIn(a.sched, y, Running) by { LaunchedRuns(c, s, a, y); }
    var b := WithdrawOne(c, a, rest, y);
    if a.permit {
      t := WakeThenNotify(c, b, free, y);
    } else {
      t := NotifyThenWake(c, b, free, y);
    }
    LaunchedThenClosed(s.sched, a.sched, t.sched, free);
  }

  lemma LaunchedRuns(c: Config, s: State, t: State, y: Id)
    requires Reached(c, s) && y in Queue(c, s.sched) && StartedAll(s.sched, t.sched)
    ensures IsIn(t.sched, y, Running)
  {
    hide Planned, Safe, AllTracked, AllAgreed, Leads;
    ReachedSafe(c, s);
    QueueIs(c, s);
  }

  lemma WakeThenNotify(c: Config, s: State, done: set<Id>, y: Id) returns (t: State)
    requires Accepted(c) && Reached(c, s) && s.permit && s.pc.WaitStep? && Succeeded(s, done)
    requires y in done && AtStage(s.tasks, y, Withdrawn) && y in s.tasks.mapped && s.registered
    ensures Reached(c, t) && AllBusy(t) && t.pc.Top? && t.permit && Closes(s.sched, t.sched, done)
    ensures Held(t.tasks) == Held(s.tasks) - {y}
  {
    hide Accepted, Reached, AllBusy, Succeeded, Closes;
    var a := FinishTurn(c, s, done);
    var b := NotifyOne(c, a, y);
    t := UnmapOne(c, b, y);
    LateIsBusy(a, t, y);
  }

  lemma NotifyThenWake(c: Config, s: State, done: set<Id>, y: Id) returns (t: State)
    requires Accepted(c) && Reached(c, s) && s.pc.WaitStep? && Succeeded(s, done)
    requires y in done && AtStage(s.tasks, y, Withdrawn) && y in s.tasks.mapped && s.registered
    ensures Reached(c, t) && AllBusy(t) && t.pc.Top? && !t.permit && Closes(s.sched, t.sched, done)
    ensures Held(t.tasks) == Held(s.tasks) - {y}
  {
    hide Accepted, Reached, AllBusy, Succeeded, Closes;
    var a := NotifyOne(c, s, y);
    StillSucceeded(s, a, done, y);
    var b := UnmapOne(c, a, y);
    GoneSucceeded(a, b, done, y);
    t := FinishTurn(c, b, done);
  }

  lemma LateIsBusy(s: State, t: State, v: Id)
    requires AllBusy(s) && AtStage(s.tasks, v, Withdrawn) && t.sched == s.sched
    requires forall x :: x != v ==> (AtStage(s.tasks, x, Watching) <==> AtStage(t.tasks, x, Watching))
    ensures AllBusy(t)
  {
    forall x | IsIn(t.sched, x, Running) ensures AtStage(t.tasks, x, Watching) {
      assert IsIn(s.sched, x, Running);
    }
  }
}
