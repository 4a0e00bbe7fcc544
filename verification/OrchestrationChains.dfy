/** Orchestrations in which of any two steps one depends on the other run one step at a time, to their end. */
module OrchestrationChains {
  import opened DependencyGraph
  import opened DagValidation
  import opened DagScheduler
  import opened SchedulerLaws
  import opened Orchestration
  import opened OrchestrationSafety
  import opened OrchestrationLog
  import opened OrchestrationRuns
  import opened OrchestrationProgress

  ghost predicate Comparable(deps: Deps, x: Id, y: Id) {
    x == y || DependsOn(deps, x, y) || DependsOn(deps, y, x)
  }

  /** Of any two steps, one waits for the other. */
  ghost predicate Chain(c: Config) {
    forall x, y :: x in c.steps && y in c.steps ==> Comparable(c.deps, x, y)
  }

  // ----- a chain runs one step at a time

  predicate Live(s: Sched, x: Id) {
    IsIn(s, x, Ready) || IsIn(s, x, Running)
  }

  lemma OnlyOneLive(c: Config, s: Sched, x: Id, y: Id)
    requires Consistent(c.deps, s) && s.states.Keys == Elements(c.steps)
    requires Live(s, x) && Live(s, y) && Comparable(c.deps, x, y)
    ensures x == y
  {
    hide Consistent;
    if DependsOn(c.deps, x, y) {
      var p :| PathBetween(c.deps, p, x, y);
      UpstreamDone(c.deps, s, p);
    } else if DependsOn(c.deps, y, x) {
      var p :| PathBetween(c.deps, p, y, x);
      UpstreamDone(c.deps, s, p);
    }
  }

  ghost predicate OneLive(s: Sched) {
    forall x, y :: Live(s, x) && Live(s, y) ==> x == y
  }

  lemma ChainHasOneLive(c: Config, s: State)
    requires Chain(c) && Planned(c, s)
    ensures OneLive(s.sched)
  {
    hide Consistent, Comparable, LoopOk;
    forall x, y | Live(s.sched, x) && Live(s.sched, y) ensures x == y {
      assert x in Elements(c.steps) && y in Elements(c.steps);
      OnlyOneLive(c, s.sched, x, y);
    }
  }

  ghost predicate NoneRunning(s: Sched) {
    forall x :: !IsIn(s, x, Running)
  }

  /** Every running step has notified and is about to be looked at. */
  ghost predicate AllToScan(s: State, q: seq<Id>) {
    !s.permit && forall x :: IsIn(s.sched, x, Running) ==> x in q && HasNotified(s.tasks, x)
  }

  /** A waiting notification comes from an active step. */
  ghost predicate PermitIsTimely(s: State) {
    s.permit ==> exists x :: Active(s, x) && HasNotified(s.tasks, x)
  }

  ghost predicate MonitorsAreTimely(s: State) {
    forall x :: x in s.tasks.monitors && !HasNotified(s.tasks, x) ==> Active(s, x)
  }

  ghost predicate LoopInStep(s: State) {
    match s.pc
    case WaitIdle => false
    case Launch(q) => q != [] ==> NoneRunning(s.sched)
    case Launched => true
    case WaitStep => true
    case Scan(q) => AllToScan(s, q)
    case Read(q) => AllToScan(s, q)
    case _ => NoneRunning(s.sched)
  }

  /** The loop and the monitors work on one step at a time. */
  ghost predicate InStep(s: State) {
    MonitorsAreTimely(s) && PermitIsTimely(s) && LoopInStep(s)
  }

  lemma OthersKeepInStep(c: Config, s: State, a: Action)
    requires InStep(s) && Enabled(c, s, a) && !a.Loop? && !a.SpawnFails?
    ensures InStep(Apply(c, s, a))
  {
    hide IsIn;
    var t := Apply(c, s, a);
    assert forall x :: HasNotified(s.tasks, x) ==> HasNotified(t.tasks, x);
    assert forall x :: Active(s, x) == Active(t, x);
    assert t.tasks.monitors.Keys == s.tasks.monitors.Keys;
    if a.Notify? {
      assert !HasNotified(s.tasks, a.id) && Active(s, a.id);
      assert Active(t, a.id) && HasNotified(t.tasks, a.id);
    }
  }

  lemma SpawnFailureKeepsInStep(c: Config, s: State, reason: string)
    requires Planned(c, s) && AllAgreed(s) && InStep(s) && OneLive(s.sched) && Enabled(c, s, SpawnFails(reason))
    ensures InStep(Apply(c, s, SpawnFails(reason)))
  {
    hide Consistent, Downstream;
    var q, t := s.pc.queue, Apply(c, s, SpawnFails(reason));
    assert q[0] in q && IsIn(s.sched, q[0], Ready);
    SingleLaunch(s.sched, q);
    FailingMoves(c.deps, s.sched, q[0]);
    hide Failing, BlockedBy;
    assert forall x :: !Active(s, x);
  }

  lemma SingleLaunch(s: Sched, q: seq<Id>)
    requires OneLive(s) && ToLaunch(s, q) && q != []
    ensures q == [q[0]]
  {
    if |q| > 1 {
      assert q[0] in q && q[1] in q;
      assert Live(s, q[0]) && Live(s, q[1]);
    }
  }

  lemma LoopKeepsInStep(c: Config, s: State)
    requires Acyclic(c.deps) && Safe(c, s) && InStep(s) && OneLive(s.sched) && Enabled(c, s, Loop)
    ensures InStep(LoopStep(c, s))
  {
    hide Planned, AllTracked, AllAgreed, Logged, Prompted, LoopStep, InStep, OneLive, Acyclic;
    match s.pc
    case Top => TopKeepsInStep(c, s);
    case Watched(_) => AnnounceKeepsInStep(c, s);
    case Launched => LaunchedKeepsInStep(c, s);
    case WaitStep => WaitKeepsInStep(c, s);
    case Scan(_) => ScanKeepsInStep(c, s);
    case Read(_) => ReadKeepsInStep(c, s);
    case WaitIdle => InStepIsNotIdle(s);
    case _ => LaunchKeepsInStep(c, s);
  }

  lemma InStepIsNotIdle(s: State)
    requires InStep(s)
    ensures !s.pc.WaitIdle?
  {
  }

  lemma TopKeepsInStep(c: Config, s: State)
    requires Acyclic(c.deps) && Planned(c, s) && InStep(s) && s.pc.Top?
    ensures InStep(LoopStep(c, s))
  {
    hide Consistent, Acyclic, AllTerminal;
    SelectIs(c.steps, s.sched.states, Ready);
    var t, ready := LoopStep(c, s), Select(c.steps, s.sched.states, Ready);
    if ready == [] {
      forall x | x in s.sched.states ensures s.sched.states[x] != Ready && s.sched.states[x] != Running {
        assert x in Elements(c.steps) && x !in ready && !IsIn(s.sched, x, Running);
      }
      NeverStuck(c.deps, s.sched);
    }
    hide Select;
    assert forall x :: Active(t, x) == Active(s, x);
  }

  lemma LaunchKeepsInStep(c: Config, s: State)
    requires Planned(c, s) && AllAgreed(s) && InStep(s) && Enabled(c, s, Loop)
    requires s.pc.Launch? || s.pc.Mapped? || s.pc.Entered? || s.pc.Marked? || s.pc.Finished?
    ensures InStep(LoopStep(c, s))
  {
    hide Consistent, Distinct, Prompt, Spawnable;
    var t := LoopStep(c, s);
    forall x ensures Active(s, x) ==> Active(t, x) {}
  }

  lemma AnnounceKeepsInStep(c: Config, s: State)
    requires Planned(c, s) && AllAgreed(s) && InStep(s) && OneLive(s.sched) && s.pc.Watched?
    ensures InStep(LoopStep(c, s))
  {
    hide Consistent;
    var q, t := s.pc.queue, LoopStep(c, s);
    SingleLaunch(s.sched, q);
    assert q[0] in q && IsIn(s.sched, q[0], Ready);
    forall x ensures Active(s, x) ==> Active(t, x) {}
  }

  lemma LaunchedKeepsInStep(c: Config, s: State)
    requires Planned(c, s) && InStep(s) && s.pc.Launched?
    ensures InStep(LoopStep(c, s))
  {
    hide Consistent;
    SelectIs(c.steps, s.sched.states, Running);
    var t, running := LoopStep(c, s), Select(c.steps, s.sched.states, Running);
    hide Select;
    forall x ensures Active(s, x) == Active(t, x) && (IsIn(s.sched, x, Running) ==> x in running) {
      if IsIn(s.sched, x, Running) { assert x in Elements(c.steps); }
    }
  }

  lemma WaitKeepsInStep(c: Config, s: State)
    requires Planned(c, s) && InStep(s) && OneLive(s.sched) && s.pc.WaitStep? && s.permit
    ensures InStep(LoopStep(c, s))
  {
    hide Consistent;
    SelectIs(c.steps, s.sched.states, Running);
    var t, running := LoopStep(c, s), Select(c.steps, s.sched.states, Running);
    hide Select;
    var x :| Active(s, x) && HasNotified(s.tasks, x);
    assert Live(s.sched, x);
    forall y | IsIn(t.sched, y, Running) ensures y in running && HasNotified(t.tasks, y) {
      assert Live(s.sched, y) && y in Elements(c.steps);
    }
    forall y ensures Active(s, y) == Active(t, y) {}
  }

  lemma ScanKeepsInStep(c: Config, s: State)
    requires Planned(c, s) && AllTracked(s) && InStep(s) && s.pc.Scan?
    ensures InStep(LoopStep(c, s))
  {
    hide Consistent, Distinct;
    var q, t := s.pc.queue, LoopStep(c, s);
    if q != [] {
      assert q[0] in q && IsIn(s.sched, q[0], Running);
      assert Tracked(s.tasks, s.pc, q[0]);
    }
    forall x ensures Active(s, x) == Active(t, x) {}
  }

  lemma ReadKeepsInStep(c: Config, s: State)
    requires Planned(c, s) && AllTracked(s) && AllAgreed(s) && InStep(s) && s.pc.Read?
    ensures InStep(LoopStep(c, s))
  {
    hide Consistent, LoopStep, AllTracked, AllAgreed, Distinct;
    ReadSettles(c, s);
    var q, t := s.pc.queue, LoopStep(c, s);
    assert q == [q[0]] + q[1..];
    forall x ensures Active(t, x) <==> Active(s, x) && x != q[0] {}
    assert q[0] in q && IsIn(s.sched, q[0], Running) && HasNotified(s.tasks, q[0]);
  }

  lemma {:induction false} ChainStaysInStep(c: Config, states: seq<State>, actions: seq<Action>, i: nat)
    requires Accepted(c) && Chain(c) && Run(c, states, actions) && i < |states|
    ensures InStep(states[i])
  {
    hide Chain, Known, Acyclic, Distinct, Safe, Enabled, Apply, InStep, OneLive, Init;
    if i == 0 {
      InitInStep(c);
    } else {
      var s, a := states[i - 1], actions[i - 1];
      ChainStaysInStep(c, states, actions, i - 1);
      RunsAreSafe(c, states, actions, i - 1);
      assert Enabled(c, s, a);
      StepKeepsInStep(c, s, a);
    }
  }

  lemma InitInStep(c: Config)
    ensures InStep(Init(c))
  {
  }

  lemma StepKeepsInStep(c: Config, s: State, a: Action)
    requires Accepted(c) && Chain(c) && Safe(c, s) && InStep(s) && Enabled(c, s, a)
    ensures InStep(Apply(c, s, a))
  {
    hide Chain, Known, Acyclic, Distinct, Planned, AllTracked, AllAgreed, Logged, Prompted, InStep, OneLive, LoopStep,
      SpawnFailed;
    ChainHasOneLive(c, s);
    match a
    case Loop => LoopKeepsInStep(c, s);
    case SpawnFails(reason) => SpawnFailureKeepsInStep(c, s, reason);
    case _ => OthersKeepInStep(c, s, a);
  }

  /** If of any two steps one depends on the other, no run ever waits with nothing to launch. */
  lemma ChainsNeverIdle(c: Config, states: seq<State>, actions: seq<Action>)
    requires Accepted(c) && Chain(c) && Run(c, states, actions)
    ensures NeverIdle(states)
  {
    hide Accepted, Chain, Run, InStep;
    forall i | 0 <= i < |states| ensures !states[i].pc.WaitIdle? {
      ChainStaysInStep(c, states, actions, i);
      InStepIsNotIdle(states[i]);
    }
  }

  /** So when nothing is left to do, the final event has been sent. */
  lemma ChainsEnd(c: Config, states: seq<State>, actions: seq<Action>)
    requires Accepted(c) && Chain(c) && Run(c, states, actions) && Quiescent(c, states[|states| - 1])
    ensures states[|states| - 1].pc.Ended?
  {
    hide Accepted, Chain, NeverIdle, Quiescent;
    ChainsNeverIdle(c, states, actions);
    MaximalRunsEnd(c, states, actions);
  }

  /** The sequential strategy makes each step depend on the one before it. */
  predicate Sequential(c: Config) {
    forall i :: 0 < i < |c.steps| ==> c.steps[i - 1] in DepsOf(c.deps, c.steps[i])
  }

  lemma {:induction false} LaterDepends(c: Config, i: nat, j: nat)
    requires Sequential(c) && i < j < |c.steps|
    ensures DependsOn(c.deps, c.steps[j], c.steps[i])
    decreases j
  {
    hide DependsOn;
    if i == j - 1 {
      DirectDependency(c.deps, c.steps[j], c.steps[i]);
    } else {
      LaterDepends(c, i, j - 1);
      ExtendDependency(c.deps, c.steps[j], c.steps[j - 1], c.steps[i]);
    }
  }

  /** Sequential orchestrations are chains. */
  lemma SequentialIsChain(c: Config)
    requires Sequential(c)
    ensures Chain(c)
  {
    hide Sequential, DependsOn;
    forall x, y | x in c.steps && y in c.steps ensures Comparable(c.deps, x, y) {
      var i :| 0 <= i < |c.steps| && c.steps[i] == x;
      var j :| 0 <= j < |c.steps| && c.steps[j] == y;
      if i < j { LaterDepends(c, i, j); }
      if j < i { LaterDepends(c, j, i); }
    }
  }

  // ----- a chain uses one notification for each step it launches

  /** How many of the first `i` actions were the loop waking up. */
  ghost function Wakeups(states: seq<State>, actions: seq<Action>, i: nat): nat
    requires i <= |states| && i <= |actions|
  {
    if i == 0 then 0
    else Wakeups(states, actions, i - 1) + if states[i - 1].pc.WaitStep? && actions[i - 1].Loop? then 1 else 0
  }

  /** A step has been launched that the loop has not been woken for. */
  ghost predicate Outstanding(s: State) {
    !s.pc.Scan? && !s.pc.Read? && exists x :: Active(s, x)
  }

  ghost function Owing(s: State): nat {
    if Outstanding(s) then 1 else 0
  }

  lemma StepOwes(c: Config, s: State, a: Action)
    requires Safe(c, s) && InStep(s) && Enabled(c, s, a)
    requires var t := Apply(c, s, a); InStep(t) && Planned(c, t)
    ensures var t := Apply(c, s, a);
            |t.tasks.monitors| + Owing(s) == |s.tasks.monitors| + Owing(t) + if s.pc.WaitStep? && a.Loop? then 1 else 0
  {
    hide Planned, AllTracked, AllAgreed, Logged, Prompted, InStep, LoopStep, SpawnFailed, Outstanding;
    if a.Loop? {
      LoopOwes(c, s);
    } else if a.SpawnFails? {
      SpawnFailureOwes(c, s, a.reason);
    } else {
      OthersOwe(c, s, a);
    }
  }

  lemma OthersOwe(c: Config, s: State, a: Action)
    requires Enabled(c, s, a) && !a.Loop? && !a.SpawnFails?
    ensures var t := Apply(c, s, a);
            |t.tasks.monitors| == |s.tasks.monitors| && (Outstanding(t) <==> Outstanding(s))
  {
    hide IsIn;
    var t := Apply(c, s, a);
    assert t.tasks.monitors.Keys == s.tasks.monitors.Keys;
    assert forall x :: Active(t, x) == Active(s, x);
  }

  lemma SpawnFailureOwes(c: Config, s: State, reason: string)
    requires Planned(c, s) && InStep(s) && Enabled(c, s, SpawnFails(reason))
    ensures var t := Apply(c, s, SpawnFails(reason));
            t.tasks.monitors == s.tasks.monitors && !Outstanding(t) && !Outstanding(s)
  {
    hide Consistent, Downstream, Distinct;
    var q, t := s.pc.queue, Apply(c, s, SpawnFails(reason));
    assert q[0] in q && IsIn(s.sched, q[0], Ready);
    FailingMoves(c.deps, s.sched, q[0]);
    hide Failing, BlockedBy;
    assert NoneRunning(s.sched);
    forall x ensures !Active(s, x) && !Active(t, x) {
      assert !IsIn(s.sched, x, Running);
    }
  }

  lemma LoopOwes(c: Config, s: State)
    requires Safe(c, s) && InStep(s) && Enabled(c, s, Loop) && InStep(LoopStep(c, s)) && Planned(c, LoopStep(c, s))
    ensures var t := LoopStep(c, s);
            |t.tasks.monitors| + Owing(s) == |s.tasks.monitors| + Owing(t) + if s.pc.WaitStep? then 1 else 0
  {
    hide Planned, AllTracked, AllAgreed, Logged, Prompted, InStep, LoopStep, Outstanding;
    match s.pc
    case Marked(_) => MarkedOwes(c, s);
    case Watched(_) => WatchedOwes(c, s);
    case WaitStep => WaitOwes(c, s);
    case Scan(_) => ScanOwes(c, s);
    case Read(_) => ScanOwes(c, s);
    case Launched => LaunchedOwes(c, s);
    case WaitIdle => InStepIsNotIdle(s);
    case _ => QuietOwes(c, s);
  }

  lemma MarkedOwes(c: Config, s: State)
    requires Planned(c, s) && AllAgreed(s) && InStep(s) && s.pc.Marked?
    ensures var t := LoopStep(c, s);
            |t.tasks.monitors| == |s.tasks.monitors| + 1 && !Outstanding(s) && Outstanding(t)
  {
    hide AllAgreed, Planned, IsIn;
    MarkedIsReady(c, s);
    var q, t := s.pc.queue, LoopStep(c, s);
    assert t.tasks.monitors == s.tasks.monitors[q[0] := Watching];
    assert t.tasks.monitors.Keys == s.tasks.monitors.Keys + {q[0]};
    assert Active(t, q[0]);
  }

  lemma MarkedIsReady(c: Config, s: State)
    requires Planned(c, s) && AllAgreed(s) && s.pc.Marked?
    ensures s.pc.queue != [] && s.pc.queue[0] !in s.tasks.monitors
  {
    hide Consistent, Distinct;
    var q := s.pc.queue;
    assert Agreed(s.tasks, s.sched, s.pc, q[0]) && q[0] in q && IsIn(s.sched, q[0], Ready);
  }

  lemma WatchedOwes(c: Config, s: State)
    requires Planned(c, s) && s.pc.Watched?
    ensures var t := LoopStep(c, s); t.tasks == s.tasks && Outstanding(s) && Outstanding(t)
  {
    hide Consistent, Distinct;
    var q, t := s.pc.queue, LoopStep(c, s);
    assert q[0] in q && IsIn(s.sched, q[0], Ready);
    assert Active(s, q[0]) && Active(t, q[0]);
  }

  lemma WaitOwes(c: Config, s: State)
    requires Planned(c, s) && s.pc.WaitStep?
    ensures var t := LoopStep(c, s); t.tasks == s.tasks && Outstanding(s) && !Outstanding(t)
  {
    hide Consistent;
    var x :| IsIn(s.sched, x, Running);
    assert Active(s, x);
  }

  lemma ScanOwes(c: Config, s: State)
    requires (s.pc.Scan? || s.pc.Read?) && InStep(LoopStep(c, s))
    ensures var t := LoopStep(c, s); t.tasks == s.tasks && !Outstanding(s) && !Outstanding(t)
  {
    hide Completing, Failing, BlockedBy;
  }

  lemma LaunchedOwes(c: Config, s: State)
    requires Planned(c, s) && s.pc.Launched?
    ensures var t := LoopStep(c, s); t.tasks == s.tasks && (Outstanding(s) <==> Outstanding(t))
  {
    hide Consistent;
    SelectIs(c.steps, s.sched.states, Running);
    var t := LoopStep(c, s);
    hide Select;
    SameActive(s, t);
    forall x | IsIn(s.sched, x, Running) ensures t.pc.WaitStep? {
      assert x in Elements(c.steps);
    }
  }

  lemma QuietOwes(c: Config, s: State)
    requires Enabled(c, s, Loop)
    requires s.pc.Top? || s.pc.Launch? || s.pc.Mapped? || s.pc.Entered? || s.pc.Finished?
    ensures var t := LoopStep(c, s); t.tasks.monitors == s.tasks.monitors && (Outstanding(s) <==> Outstanding(t))
  {
    hide Select, AllTerminal, Prompt, Spawnable;
    SameActive(s, LoopStep(c, s));
  }

  lemma SameActive(s: State, t: State)
    requires t.sched == s.sched && !s.pc.Watched? && !t.pc.Watched?
    ensures (exists x :: Active(s, x)) <==> (exists x :: Active(t, x))
  {
    assert forall x :: Active(s, x) == Active(t, x);
  }

  lemma {:induction false} ChainOwes(c: Config, states: seq<State>, actions: seq<Action>, i: nat)
    requires Accepted(c) && Chain(c) && Run(c, states, actions) && i < |states|
    ensures Wakeups(states, actions, i) + Owing(states[i]) == |states[i].tasks.monitors|
  {
    hide Accepted, Chain, Enabled, Apply, Planned, AllTracked, AllAgreed, Logged, Prompted, InStep;
    if i > 0 {
      ChainOwes(c, states, actions, i - 1);
      RunsAreSafe(c, states, actions, i - 1);
      RunsAreSafe(c, states, actions, i);
      ChainStaysInStep(c, states, actions, i - 1);
      ChainStaysInStep(c, states, actions, i);
      assert Enabled(c, states[i - 1], actions[i - 1]);
      StepOwes(c, states[i - 1], actions[i - 1]);
    }
  }

  /** A chain that has ended was woken exactly once for each step it launched. */
  lemma ChainsWakeOncePerStep(c: Config, states: seq<State>, actions: seq<Action>, i: nat)
    requires Accepted(c) && Chain(c) && Run(c, states, actions) && i < |states| && states[i].pc.Ended?
    ensures Wakeups(states, actions, i) == |StartedIn(states[i].tally.events)|
  {
    hide Accepted, Chain, Run, Safe, InStep;
    ChainOwes(c, states, actions, i);
    ChainStaysInStep(c, states, actions, i);
    RunsAreSafe(c, states, actions, i);
    EndedHasStarted(c, states[i]);
  }

  lemma EndedHasStarted(c: Config, s: State)
    requires Safe(c, s) && InStep(s) && s.pc.Ended?
    ensures !Outstanding(s) && |s.tasks.monitors| == |StartedIn(s.tally.events)|
  {
    hide Planned, AllTracked, AllAgreed, Prompted, Lawful, StartedIn, CompletedIn, FailedIn, BlockedIn;
    assert Announced(s) == s.tasks.monitors.Keys;
  }
}
