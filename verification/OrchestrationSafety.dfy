/** What every step of the orchestration protocol keeps. */
module OrchestrationSafety {
  import opened DependencyGraph
  import opened DagValidation
  import opened DagScheduler
  import opened SchedulerLaws
  import opened Orchestration

  // ----- the loop and its scheduler

  predicate IsIn(s: Sched, x: Id, state: StepState) {
    x in s.states && s.states[x] == state
  }

  ghost predicate NoneReady(s: Sched) {
    forall x :: !IsIn(s, x, Ready)
  }

  /** The queue holds exactly the ready steps. */
  ghost predicate ToLaunch(s: Sched, q: seq<Id>) {
    Distinct(q) && forall x :: x in q <==> IsIn(s, x, Ready)
  }

  ghost predicate ToScan(s: Sched, q: seq<Id>) {
    Distinct(q) && forall x :: x in q ==> IsIn(s, x, Running)
  }

  ghost predicate LoopOk(s: State) {
    match s.pc
    case Top => true
    case WaitIdle => NoneReady(s.sched) && !AllTerminal(s.sched) && s.tally.failed == 0
    case Launch(q) => ToLaunch(s.sched, q)
    case Mapped(q) => q != [] && ToLaunch(s.sched, q)
    case Entered(q) => q != [] && ToLaunch(s.sched, q)
    case Marked(q) => q != [] && ToLaunch(s.sched, q)
    case Watched(q) => q != [] && ToLaunch(s.sched, q)
    case Launched => NoneReady(s.sched)
    case WaitStep => NoneReady(s.sched) && exists x :: IsIn(s.sched, x, Running)
    case Scan(q) => ToScan(s.sched, q)
    case Read(q) => q != [] && ToScan(s.sched, q) && q[0] !in s.tasks.running
    case Finished => NoneReady(s.sched) && (AllTerminal(s.sched) || s.tally.failed > 0)
    case Ended => NoneReady(s.sched) && (AllTerminal(s.sched) || s.tally.failed > 0)
  }

  /** The scheduler is consistent, and the loop is where its state allows it to be. */
  ghost predicate Planned(c: Config, s: State) {
    && Consistent(c.deps, s.sched) && s.sched.states.Keys == Elements(c.steps)
    && LoopOk(s)
  }

  /** The selected steps come in the order of the list; `at` is where they are in it. */
  lemma {:induction false} SelectInOrder(steps: seq<Id>, states: map<Id, StepState>, state: StepState)
    returns (at: seq<nat>)
    ensures var ids := Select(steps, states, state);
            && |at| == |ids| && (forall i :: 0 <= i < |at| ==> at[i] < |steps| && steps[at[i]] == ids[i])
            && (forall i, j :: 0 <= i < j < |at| ==> at[i] < at[j])
            && (forall k :: 0 <= k < |steps| && steps[k] in states && states[steps[k]] == state ==> k in at)
  {
    at := [];
    if steps != [] {
      var n := |steps| - 1;
      var front := SelectInOrder(steps[..n], states, state);
      var last := steps[n];
      at := front + if last in states && states[last] == state then [n] else [];
      forall k | 0 <= k < |steps| && steps[k] in states && states[steps[k]] == state ensures k in at {
        if k < n { assert steps[..n][k] == steps[k]; } else { assert at[|front|] == n; }
      }
    }
  }

  lemma {:induction false} SelectIs(steps: seq<Id>, states: map<Id, StepState>, state: StepState)
    ensures forall x :: x in Select(steps, states, state) <==> x in steps && x in states && states[x] == state
    ensures Distinct(steps) ==> Distinct(Select(steps, states, state))
  {
    if steps != [] {
      var front, last := steps[..|steps| - 1], steps[|steps| - 1];
      SelectIs(front, states, state);
      assert steps == front + [last];
      DistinctPush(front, last);
      DistinctPush(Select(front, states, state), last);
      assert Select(front, states, state) + [] == Select(front, states, state);
    }
  }

  lemma DistinctTail(q: seq<Id>)
    requires Distinct(q) && q != []
    ensures Distinct(q[1..]) && q[0] !in q[1..]
    ensures forall x :: x in q[1..] <==> x in q && x != q[0]
  {
    assert q == [q[0]] + q[1..];
  }

  /** An action of a monitor or of `cancel` does not touch the scheduler or the loop's position. */
  lemma OthersKeepPlan(c: Config, s: State, a: Action)
    requires Planned(c, s) && Enabled(c, s, a) && !a.Loop? && !a.SpawnFails?
    ensures Planned(c, Apply(c, s, a))
  {
    hide Consistent, AllTerminal, NoneReady, ToLaunch, ToScan;
  }

  lemma SpawnFailureKeepsPlan(c: Config, s: State, reason: string)
    requires Planned(c, s) && Enabled(c, s, SpawnFails(reason))
    ensures Planned(c, Apply(c, s, SpawnFails(reason)))
  {
    hide Consistent, Downstream, AllTerminal;
    var q := s.pc.queue;
    assert q[0] in q && IsIn(s.sched, q[0], Ready);
    DistinctTail(q);
    FailingMoves(c.deps, s.sched, q[0]);
    FailingConsistent(c.deps, s.sched, q[0]);
  }

  lemma LoopKeepsPlan(c: Config, s: State)
    requires Distinct(c.steps) && Planned(c, s) && Enabled(c, s, Loop)
    ensures Planned(c, Apply(c, s, Loop))
  {
    hide Planned, LoopStep, Distinct;
    match s.pc
    case Top => TopKeepsPlan(c, s);
    case Watched(q) => LaunchKeepsPlan(c, s);
    case Launched => SelectIs(c.steps, s.sched.states, Running); LaunchedKeepsPlan(c, s);
    case WaitStep => SelectIs(c.steps, s.sched.states, Running); WaitKeepsPlan(c, s);
    case Scan(q) => ScanKeepsPlan(c, s);
    case Read(q) => ReadKeepsPlan(c, s);
    case _ => SimpleKeepsPlan(c, s);
  }

  lemma TopKeepsPlan(c: Config, s: State)
    requires Distinct(c.steps) && Planned(c, s) && s.pc.Top?
    ensures Planned(c, LoopStep(c, s))
  {
    hide Consistent, AllTerminal;
    SelectIs(c.steps, s.sched.states, Ready);
    hide Select;
    var ready := Select(c.steps, s.sched.states, Ready);
    assert forall x :: x in ready <==> IsIn(s.sched, x, Ready);
  }

  /** The steps of the loop that leave the scheduler alone and ask it nothing. */
  lemma SimpleKeepsPlan(c: Config, s: State)
    requires Planned(c, s) && Enabled(c, s, Loop)
    requires s.pc.WaitIdle? || s.pc.Launch? || s.pc.Mapped? || s.pc.Entered? || s.pc.Marked? || s.pc.Finished?
    ensures Planned(c, LoopStep(c, s))
  {
    hide Consistent, AllTerminal, Distinct, Prompt, Spawnable;
    if s.pc.Launch? && s.pc.queue == [] {
      forall x ensures !IsIn(s.sched, x, Ready) {
        assert x !in s.pc.queue;
      }
    }
  }

  lemma WaitKeepsPlan(c: Config, s: State)
    requires Distinct(c.steps) && Planned(c, s) && s.pc.WaitStep?
    ensures Planned(c, LoopStep(c, s))
  {
    hide Consistent;
    SelectIs(c.steps, s.sched.states, Running);
  }

  lemma ScanKeepsPlan(c: Config, s: State)
    requires Planned(c, s) && s.pc.Scan?
    ensures Planned(c, LoopStep(c, s))
  {
    hide Consistent;
    if s.pc.queue != [] { DistinctTail(s.pc.queue); }
  }

  lemma LaunchKeepsPlan(c: Config, s: State)
    requires Planned(c, s) && s.pc.Watched?
    ensures Planned(c, LoopStep(c, s))
  {
    hide Consistent;
    var q := s.pc.queue;
    assert q[0] in q && IsIn(s.sched, q[0], Ready);
    DistinctTail(q);
    StartingConsistent(c.deps, s.sched, q[0]);
  }

  lemma LaunchedKeepsPlan(c: Config, s: State)
    requires Planned(c, s) && s.pc.Launched?
    requires forall x :: x in Select(c.steps, s.sched.states, Running)
                   <==> x in c.steps && x in s.sched.states && s.sched.states[x] == Running
    ensures Planned(c, LoopStep(c, s))
  {
    hide Consistent;
    var list := Select(c.steps, s.sched.states, Running);
    if list != [] {
      assert list[0] in list && IsIn(s.sched, list[0], Running);
    }
  }

  lemma ReadKeepsPlan(c: Config, s: State)
    requires Planned(c, s) && s.pc.Read?
    ensures Planned(c, LoopStep(c, s))
  {
    hide Consistent, Failing, Completing, BlockedBy;
    var q := s.pc.queue;
    assert q[0] in q && IsIn(s.sched, q[0], Running);
    DistinctTail(q);
    ScanOnAfterFailure(c.deps, s.sched, q);
    ScanOnAfterCompletion(c.deps, s.sched, q);
  }

  lemma ScanOnAfterFailure(deps: Deps, s: Sched, q: seq<Id>)
    requires Consistent(deps, s) && ToScan(s, q) && q != []
    ensures var t := Failing(deps, s, q[0]);
            Consistent(deps, t) && t.states.Keys == s.states.Keys && ToScan(t, q[1..])
  {
    hide Consistent, Downstream;
    assert q[0] in q && IsIn(s, q[0], Running);
    DistinctTail(q);
    FailingMoves(deps, s, q[0]);
    FailingConsistent(deps, s, q[0]);
  }

  lemma ScanOnAfterCompletion(deps: Deps, s: Sched, q: seq<Id>)
    requires Consistent(deps, s) && ToScan(s, q) && q != []
    ensures var t := Completing(deps, s, q[0]);
            Consistent(deps, t) && t.states.Keys == s.states.Keys && ToScan(t, q[1..])
  {
    hide Consistent, Freed;
    assert q[0] in q && IsIn(s, q[0], Running);
    DistinctTail(q);
    CompletingMoves(deps, s, q[0]);
    CompletingConsistent(deps, s, q[0]);
  }

  // ----- subagents: the running map, the orchestration map and the database

  predicate HeadOf(q: seq<Id>, x: Id) {
    q != [] && q[0] == x
  }

  /** The loop has put `x` in the orchestration map but not started its monitor. */
  predicate BeingMapped(pc: Pc, x: Id) {
    (pc.Mapped? || pc.Entered? || pc.Marked?) && HeadOf(pc.queue, x)
  }

  /** The loop has put `x` in the `running` map but not started its monitor. */
  predicate BeingEntered(pc: Pc, x: Id) {
    (pc.Entered? || pc.Marked?) && HeadOf(pc.queue, x)
  }

  /** The loop has started the monitor of `x` but not yet told the scheduler. */
  predicate BeingAnnounced(pc: Pc, x: Id) {
    pc.Watched? && HeadOf(pc.queue, x)
  }

  predicate Tried(s: Sched, x: Id) {
    IsIn(s, x, Running) || IsIn(s, x, Completed) || IsIn(s, x, Failed)
  }

  /**
   * Where subagent `x` is registered follows from how far its monitor has come: a subagent with a
   * monitor that is not in the `running` map has a final status in the database, and stays in the
   * orchestration map until the orchestration has been notified.
   */
  predicate Monitored(k: Tasks, x: Id) {
    && x in k.monitors && x in k.db
    && (x in k.running <==> k.monitors[x] == Watching || k.monitors[x] == Recorded)
    && (x in k.mapped <==> k.monitors[x] != Gone)
    && (k.monitors[x] != Watching ==> Over(k.db[x].status))
  }

  predicate Unmonitored(k: Tasks, pc: Pc, x: Id) {
    && x !in k.monitors
    && (x in k.running <==> BeingEntered(pc, x))
    && (x in k.mapped <==> BeingMapped(pc, x))
    && (x in k.db <==> BeingEntered(pc, x))
  }

  predicate Tracked(k: Tasks, pc: Pc, x: Id) {
    Monitored(k, x) || Unmonitored(k, pc, x)
  }

  /** The scheduler knows which steps have monitors, except for the one being announced. */
  predicate Agreed(k: Tasks, s: Sched, pc: Pc, x: Id) {
    if x in k.monitors then if BeingAnnounced(pc, x) then IsIn(s, x, Ready) else Tried(s, x)
    else !BeingAnnounced(pc, x) && !IsIn(s, x, Running) && !IsIn(s, x, Completed)
  }

  ghost predicate AllTracked(s: State) {
    && (forall x :: Tracked(s.tasks, s.pc, x))
    && (forall x, reason :: (x, reason) in s.tasks.cancels ==> x in s.tasks.db)
    && (s.registered <==> !s.pc.Ended?)
  }

  ghost predicate AllAgreed(s: State) {
    forall x :: Agreed(s.tasks, s.sched, s.pc, x)
  }

  lemma OthersKeepTracked(c: Config, s: State, a: Action)
    requires AllTracked(s) && AllAgreed(s) && Enabled(c, s, a) && !a.Loop? && !a.SpawnFails?
    ensures AllTracked(Apply(c, s, a)) && AllAgreed(Apply(c, s, a))
  {
    hide AllAgreed, AllTracked;
    TaskStepKeepsTracked(c, s, a);
    TaskStepKeepsAgreed(c, s, a);
  }

  lemma TaskStepKeepsTracked(c: Config, s: State, a: Action)
    requires AllTracked(s) && Enabled(c, s, a) && !a.Loop? && !a.SpawnFails?
    ensures AllTracked(Apply(c, s, a))
  {
    hide Tracked, TaskStep, Enabled;
    forall x ensures Tracked(TaskStep(s.tasks, a), s.pc, x) {
      assert Tracked(s.tasks, s.pc, x);
      OneStaysTracked(c, s, a, x);
    }
    CancelsHaveRows(c, s, a);
  }

  lemma OneStaysTracked(c: Config, s: State, a: Action, x: Id)
    requires Tracked(s.tasks, s.pc, x) && Enabled(c, s, a) && !a.Loop? && !a.SpawnFails?
    ensures Tracked(TaskStep(s.tasks, a), s.pc, x)
  {
    hide LoopEnabled;
    if a.id == x { MonitorStaysTracked(s.tasks, a, s.pc); }
  }

  /** The subagent that the action is about. */
  lemma MonitorStaysTracked(k: Tasks, a: Action, pc: Pc)
    requires !a.Loop? && !a.SpawnFails? && Tracked(k, pc, a.id)
    requires match a
             case Exits(id, _, _) => AtStage(k, id, Watching)
             case Withdraw(id) => AtStage(k, id, Recorded)
             case Notify(id) => AtStage(k, id, Withdrawn)
             case Unmap(id) => AtStage(k, id, Notified)
             case _ => true
    ensures Tracked(TaskStep(k, a), pc, a.id)
  {
  }

  lemma CancelsHaveRows(c: Config, s: State, a: Action)
    requires AllTracked(s) && Enabled(c, s, a) && !a.Loop? && !a.SpawnFails?
    ensures var l := TaskStep(s.tasks, a); forall x, reason :: (x, reason) in l.cancels ==> x in l.db
  {
    if a.CancelBegins? { assert Tracked(s.tasks, s.pc, a.id); }
    hide Tracked;
  }

  lemma TaskStepKeepsAgreed(c: Config, s: State, a: Action)
    requires AllAgreed(s) && Enabled(c, s, a) && !a.Loop? && !a.SpawnFails?
    ensures AllAgreed(Apply(c, s, a))
  {
    hide IsIn, Tried;
    var t := Apply(c, s, a);
    assert t.tasks.monitors.Keys == s.tasks.monitors.Keys && t.sched == s.sched && t.pc == s.pc;
    forall x ensures Agreed(t.tasks, t.sched, t.pc, x) {
      assert Agreed(s.tasks, s.sched, s.pc, x);
    }
  }

  lemma SpawnFailureKeepsTracked(c: Config, s: State, reason: string)
    requires Planned(c, s) && AllTracked(s) && AllAgreed(s) && Enabled(c, s, SpawnFails(reason))
    ensures AllTracked(Apply(c, s, SpawnFails(reason))) && AllAgreed(Apply(c, s, SpawnFails(reason)))
  {
    hide Consistent, Distinct, Failing, BlockedBy, AllTracked, AllAgreed;
    var q, t := s.pc.queue, Apply(c, s, SpawnFails(reason));
    assert q[0] in q && IsIn(s.sched, q[0], Ready);
    ReadyFails(c.deps, s.sched, q[0]);
    hide IsIn;
    UntriedFails(s, t, q[0]);
    UnmappedIsTracked(c, s, t);
  }

  /** A ready step has failed, and nothing has been started. */
  ghost predicate FailsUntried(s: Sched, t: Sched, id: Id) {
    && IsIn(s, id, Ready) && IsIn(t, id, Failed)
    && (forall x :: Tried(s, x) ==> Tried(t, x))
    && (forall x :: IsIn(t, x, Running) || IsIn(t, x, Completed) ==> IsIn(s, x, Running) || IsIn(s, x, Completed))
  }

  lemma ReadyFails(deps: Deps, s: Sched, id: Id)
    requires Consistent(deps, s) && IsIn(s, id, Ready)
    ensures FailsUntried(s, Failing(deps, s, id), id)
  {
    hide Consistent, Downstream, Done;
    FailingMoves(deps, s, id);
    hide Failing;
  }

  lemma UntriedFails(s: State, t: State, id: Id)
    requires AllAgreed(s) && FailsUntried(s.sched, t.sched, id) && t.tasks.monitors == s.tasks.monitors
    requires s.pc.Mapped? && t.pc.Launch?
    ensures AllAgreed(t) && id !in s.tasks.monitors
  {
    assert Agreed(s.tasks, s.sched, s.pc, id);
    forall x ensures Agreed(t.tasks, t.sched, t.pc, x) {
      assert Agreed(s.tasks, s.sched, s.pc, x);
      assert Tried(s.sched, x) ==> Tried(t.sched, x);
    }
  }

  lemma UnmappedIsTracked(c: Config, s: State, t: State)
    requires AllTracked(s) && s.pc.Mapped? && s.pc.queue != [] && s.pc.queue[0] !in s.tasks.monitors
    requires t.pc.Launch? && t.tasks == s.tasks.(mapped := s.tasks.mapped - {s.pc.queue[0]})
    requires t.registered == s.registered
    ensures AllTracked(t)
  {
    forall x ensures Tracked(t.tasks, t.pc, x) {
      assert Tracked(s.tasks, s.pc, x);
    }
  }

  predicate Launching(pc: Pc) {
    pc.Mapped? || pc.Entered? || pc.Marked? || pc.Watched?
  }

  /** No step has been started: one that runs or has completed did so, or ran, before. */
  ghost predicate SameTries(s: Sched, t: Sched) {
    && (forall x :: Tried(s, x) ==> Tried(t, x))
    && (forall x :: IsIn(t, x, Running) || IsIn(t, x, Completed) ==> IsIn(s, x, Running) || IsIn(s, x, Completed))
  }

  lemma OutcomeSameTries(deps: Deps, s: Sched, id: Id)
    requires Consistent(deps, s) && IsIn(s, id, Running)
    ensures SameTries(s, Failing(deps, s, id)) && SameTries(s, Completing(deps, s, id))
  {
    hide SameTries;
    FailureSameTries(deps, s, id);
    CompletionSameTries(deps, s, id);
  }

  lemma FailureSameTries(deps: Deps, s: Sched, id: Id)
    requires Consistent(deps, s) && IsIn(s, id, Running)
    ensures SameTries(s, Failing(deps, s, id))
  {
    hide Consistent, Downstream, Done;
    FailingMoves(deps, s, id);
    hide Failing;
  }

  lemma CompletionSameTries(deps: Deps, s: Sched, id: Id)
    requires Consistent(deps, s) && IsIn(s, id, Running)
    ensures SameTries(s, Completing(deps, s, id))
  {
    hide Consistent, Freed, Done;
    CompletingMoves(deps, s, id);
    hide Completing;
  }

  /** Outside the launching of a step, only what the scheduler says of a step can change. */
  lemma SameTasksTracked(s: State, t: State)
    requires AllTracked(s) && AllAgreed(s) && t.tasks == s.tasks
    requires !Launching(s.pc) && !Launching(t.pc) && (t.registered <==> !t.pc.Ended?)
    requires SameTries(s.sched, t.sched)
    ensures AllTracked(t) && AllAgreed(t)
  {
    forall x ensures Tracked(t.tasks, t.pc, x) && Agreed(t.tasks, t.sched, t.pc, x) {
      assert Tracked(s.tasks, s.pc, x) && Agreed(s.tasks, s.sched, s.pc, x);
      assert Tried(s.sched, x) ==> Tried(t.sched, x);
    }
  }

  lemma LoopKeepsTracked(c: Config, s: State)
    requires Planned(c, s) && AllTracked(s) && AllAgreed(s) && Enabled(c, s, Loop)
    ensures AllTracked(Apply(c, s, Loop)) && AllAgreed(Apply(c, s, Loop))
  {
    hide Planned, LoopStep, AllAgreed;
    if s.pc.Launch? || s.pc.Mapped? || s.pc.Entered? || s.pc.Marked? {
      LaunchKeepsTracked(c, s);
    } else if s.pc.Watched? {
      AnnounceKeepsTracked(c, s);
    } else if s.pc.Read? {
      ReadKeepsTracked(c, s);
    } else {
      WaitKeepsTracked(c, s);
    }
  }

  lemma WaitKeepsTracked(c: Config, s: State)
    requires AllTracked(s) && AllAgreed(s) && Enabled(c, s, Loop)
    requires !Launching(s.pc) && !s.pc.Launch? && !s.pc.Read?
    ensures AllTracked(LoopStep(c, s)) && AllAgreed(LoopStep(c, s))
  {
    hide Select, AllTerminal, AllAgreed, IsIn;
    var t := LoopStep(c, s);
    assert t.tasks == s.tasks && t.sched == s.sched && !Launching(t.pc) && (t.registered <==> !t.pc.Ended?);
    hide LoopStep;
    SameTasksTracked(s, t);
  }

  lemma LaunchKeepsTracked(c: Config, s: State)
    requires Planned(c, s) && AllTracked(s) && AllAgreed(s)
    requires s.pc.Launch? || s.pc.Mapped? || s.pc.Entered? || s.pc.Marked?
    ensures AllTracked(LoopStep(c, s)) && AllAgreed(LoopStep(c, s))
  {
    hide Consistent, Distinct, Prompt, Spawnable;
    var t := LoopStep(c, s);
    var q := s.pc.queue;
    if q != [] {
      assert q[0] in q && IsIn(s.sched, q[0], Ready);
      assert Tracked(s.tasks, s.pc, q[0]) && Agreed(s.tasks, s.sched, s.pc, q[0]);
    }
    forall x ensures Tracked(t.tasks, t.pc, x) && Agreed(t.tasks, t.sched, t.pc, x) {
      assert Tracked(s.tasks, s.pc, x) && Agreed(s.tasks, s.sched, s.pc, x);
    }
  }

  lemma AnnounceKeepsTracked(c: Config, s: State)
    requires Planned(c, s) && AllTracked(s) && AllAgreed(s) && s.pc.Watched?
    ensures AllTracked(LoopStep(c, s)) && AllAgreed(LoopStep(c, s))
  {
    hide Consistent, Distinct;
    var t := LoopStep(c, s);
    var q := s.pc.queue;
    assert Tracked(s.tasks, s.pc, q[0]) && Agreed(s.tasks, s.sched, s.pc, q[0]);
    forall x ensures Tracked(t.tasks, t.pc, x) && Agreed(t.tasks, t.sched, t.pc, x) {
      assert Tracked(s.tasks, s.pc, x) && Agreed(s.tasks, s.sched, s.pc, x);
    }
  }

  lemma ReadKeepsTracked(c: Config, s: State)
    requires Planned(c, s) && AllTracked(s) && AllAgreed(s) && s.pc.Read?
    ensures AllTracked(LoopStep(c, s)) && AllAgreed(LoopStep(c, s))
  {
    hide Consistent, Distinct, AllAgreed, Failing, Completing, BlockedBy;
    var q := s.pc.queue;
    assert q[0] in q && IsIn(s.sched, q[0], Running);
    OutcomeSameTries(c.deps, s.sched, q[0]);
    assert SameTries(s.sched, s.sched);
    hide SameTries, IsIn;
    var t := LoopStep(c, s);
    assert t.tasks == s.tasks && t.pc.Scan? && t.registered == s.registered && SameTries(s.sched, t.sched);
    hide LoopStep;
    SameTasksTracked(s, t);
  }

  /** A notification waits until the loop takes it, and comes only from a mapped subagent of a registered orchestration. */
  lemma PermitExactly(c: Config, s: State, a: Action)
    requires Enabled(c, s, a)
    ensures Apply(c, s, a).permit
       <==> || (a.Notify? && a.id in s.tasks.mapped && s.registered)
            || (s.permit && !(a.Loop? && (s.pc.WaitIdle? || s.pc.WaitStep?)))
  {
    hide Select, AllTerminal, Completing, Failing, BlockedBy, LaunchStep, TaskStep, Spawnable, Log;
  }
}
