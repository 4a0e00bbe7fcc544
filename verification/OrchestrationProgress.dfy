/**
 * How orchestration runs end. Every run does a bounded amount of work; when nothing is left to do
 * the final event has been sent, unless the loop ever waited with nothing to launch, after which it
 * never looks at a subagent again. Steps that all depend on one another never bring it to that.
 */
module OrchestrationProgress {
  import opened DependencyGraph
  import opened DagValidation
  import opened DagScheduler
  import opened SchedulerLaws
  import opened Orchestration
  import opened OrchestrationSafety
  import opened OrchestrationLog
  import opened OrchestrationRuns

  // ----- a measure of the work left

  predicate IsCancel(a: Action) {
    a.CancelBegins? || a.CancelWrites?
  }

  /** Steps that may still be launched. */
  ghost function Unlaunched(s: State): set<Id> {
    set x | x in s.sched.states && Waiting(s.sched.states[x]) && x !in s.tasks.monitors
  }

  /** How many actions a monitor has left to take, a notification counting twice. */
  function StagesLeft(m: Monitor): nat {
    match m
    case Watching => 5
    case Recorded => 4
    case Withdrawn => 3
    case Notified => 1
    case Gone => 0
  }

  ghost function AtLeast(k: Tasks, n: nat): set<Id> {
    set x | x in k.monitors && StagesLeft(k.monitors[x]) >= n
  }

  ghost function MonitorWork(k: Tasks): nat {
    |AtLeast(k, 1)| + |AtLeast(k, 2)| + |AtLeast(k, 3)| + |AtLeast(k, 4)| + |AtLeast(k, 5)|
  }

  function PcWork(pc: Pc): nat {
    match pc
    case Watched(_) => 8
    case Launch(q) => if q == [] then 7 else 3
    case Launched => 6
    case Scan(q) => 5 + 2 * |q|
    case Read(q) => 4 + 2 * |q|
    case Top => 4
    case Mapped(_) => 2
    case Entered(_) => 1
    case Finished => 1
    case Marked(_) => 0
    case WaitStep => 0
    case WaitIdle => 0
    case Ended => 0
  }

  ghost function Permits(s: State): nat {
    MonitorWork(s.tasks) + if s.permit then 1 else 0
  }

  /** More than the loop's position can account for. */
  function Unit(c: Config): nat {
    2 * |c.steps| + 10
  }

  /** A bound on the number of actions, other than those of `cancel`, that can still be taken. */
  ghost function Work(c: Config, s: State): nat {
    |Unlaunched(s)| * (6 * Unit(c)) + Permits(s) * Unit(c) + PcWork(s.pc)
  }

  lemma {:induction false} StageMoves(k: Tasks, l: Tasks, id: Id, m: Monitor, n: nat)
    requires id in k.monitors && l.monitors == k.monitors[id := m]
    requires StagesLeft(m) < StagesLeft(k.monitors[id])
    ensures |AtLeast(l, n)| == |AtLeast(k, n)| - if StagesLeft(m) < n <= StagesLeft(k.monitors[id]) then 1 else 0
  {
    if StagesLeft(m) < n <= StagesLeft(k.monitors[id]) {
      assert AtLeast(l, n) == AtLeast(k, n) - {id};
    } else {
      assert AtLeast(l, n) == AtLeast(k, n);
    }
  }

  lemma MonitorMoves(k: Tasks, l: Tasks, id: Id, m: Monitor)
    requires id in k.monitors && l.monitors == k.monitors[id := m]
    requires StagesLeft(m) < StagesLeft(k.monitors[id])
    ensures MonitorWork(l) == MonitorWork(k) - (StagesLeft(k.monitors[id]) - StagesLeft(m))
  {
    hide AtLeast;
    StageMoves(k, l, id, m, 1);
    StageMoves(k, l, id, m, 2);
    StageMoves(k, l, id, m, 3);
    StageMoves(k, l, id, m, 4);
    StageMoves(k, l, id, m, 5);
  }

  lemma MonitorStarts(k: Tasks, l: Tasks, id: Id)
    requires id !in k.monitors && l.monitors == k.monitors[id := Watching]
    ensures MonitorWork(l) == MonitorWork(k) + 5
  {
    forall n | 1 <= n <= 5 ensures |AtLeast(l, n)| == |AtLeast(k, n)| + 1 {
      assert AtLeast(l, n) == AtLeast(k, n) + {id};
    }
  }

  /** Monitors and notifications use up permits; launching nothing, they leave the rest of the work alone. */
  lemma TaskWork(c: Config, s: State, a: Action)
    requires Enabled(c, s, a) && !a.Loop? && !a.SpawnFails?
    ensures var t := Apply(c, s, a);
            && Unlaunched(t) == Unlaunched(s) && t.pc == s.pc
            && if IsCancel(a) then Permits(t) == Permits(s) else Permits(t) + 1 <= Permits(s)
  {
    hide MonitorWork, StagesLeft;
    var t := Apply(c, s, a);
    assert t.tasks.monitors.Keys == s.tasks.monitors.Keys;
    StageOrder();
    match a
    case Exits(id, _, _) => MonitorMoves(s.tasks, t.tasks, id, Recorded);
    case Withdraw(id) => MonitorMoves(s.tasks, t.tasks, id, Withdrawn);
    case Notify(id) => MonitorMoves(s.tasks, t.tasks, id, Notified);
    case Unmap(id) => MonitorMoves(s.tasks, t.tasks, id, Gone);
    case _ => SameMonitors(s.tasks, t.tasks);
  }

  lemma StageOrder()
    ensures StagesLeft(Watching) == 5 && StagesLeft(Recorded) == 4 && StagesLeft(Withdrawn) == 3
    ensures StagesLeft(Notified) == 1 && StagesLeft(Gone) == 0
  {
  }

  lemma SameMonitors(k: Tasks, l: Tasks)
    requires l.monitors == k.monitors
    ensures MonitorWork(l) == MonitorWork(k)
  {
    assert forall n :: AtLeast(l, n) == AtLeast(k, n);
  }

  /** The loop has launched a step, used a notification, or come closer to doing so. */
  ghost predicate Lighter(s: State, t: State) {
    var u, u', p, p' := |Unlaunched(s)|, |Unlaunched(t)|, Permits(s), Permits(t);
    || (u' < u && p' <= p + 5)
    || (u' <= u && p' < p)
    || (u' <= u && p' <= p && PcWork(t.pc) < PcWork(s.pc))
  }

  lemma SameLaunchWork(s: State, t: State)
    requires t.tasks.monitors == s.tasks.monitors && t.sched == s.sched
    ensures Unlaunched(t) == Unlaunched(s) && MonitorWork(t.tasks) == MonitorWork(s.tasks)
  {
    SameMonitors(s.tasks, t.tasks);
  }

  /** Steps that change neither the scheduler nor the monitors. */
  lemma QuietWork(c: Config, s: State)
    requires Planned(c, s) && Enabled(c, s, Loop) && !s.pc.Marked? && !s.pc.Watched? && !s.pc.Read?
    ensures Lighter(s, LoopStep(c, s))
  {
    hide Consistent, Select, AllTerminal, Prompt, Spawnable, Unlaunched, MonitorWork;
    var t := LoopStep(c, s);
    assert t.tasks.monitors == s.tasks.monitors && t.sched == s.sched;
    SameLaunchWork(s, t);
    QuietPc(c, s);
  }

  lemma QuietPc(c: Config, s: State)
    requires Planned(c, s) && Enabled(c, s, Loop) && !s.pc.Marked? && !s.pc.Watched? && !s.pc.Read?
    ensures var t := LoopStep(c, s);
            if s.pc.WaitIdle? || s.pc.WaitStep? then s.permit && !t.permit
            else t.permit == s.permit && PcWork(t.pc) < PcWork(s.pc)
  {
    hide Consistent, Select, AllTerminal, Prompt, Spawnable;
  }

  lemma FewerIsLess(some: set<Id>, fewer: set<Id>, id: Id)
    requires fewer <= some && id in some && id !in fewer
    ensures |fewer| < |some|
  {
    SubsetSize(fewer, some);
  }

  /** Starting the monitor of a step, with its row marked as running. */
  lemma MarkedWork(c: Config, s: State)
    requires Planned(c, s) && AllAgreed(s) && s.pc.Marked?
    ensures Lighter(s, LoopStep(c, s))
  {
    hide Consistent, MonitorWork;
    var q, t := s.pc.queue, LoopStep(c, s);
    assert q[0] in q && IsIn(s.sched, q[0], Ready);
    assert Agreed(s.tasks, s.sched, s.pc, q[0]);
    MonitorStarts(s.tasks, t.tasks, q[0]);
    FewerIsLess(Unlaunched(s), Unlaunched(t), q[0]);
  }

  lemma WatchedWork(c: Config, s: State)
    requires Planned(c, s) && AllAgreed(s) && s.pc.Watched?
    ensures Lighter(s, LoopStep(c, s))
  {
    hide Consistent, MonitorWork;
    var q, t := s.pc.queue, LoopStep(c, s);
    assert Agreed(s.tasks, s.sched, s.pc, q[0]);
    SameMonitors(s.tasks, t.tasks);
    assert Unlaunched(t) <= Unlaunched(s);
    SubsetSize(Unlaunched(t), Unlaunched(s));
  }

  lemma ReadWork(c: Config, s: State)
    requires Planned(c, s) && s.pc.Read?
    ensures Lighter(s, LoopStep(c, s))
  {
    hide Consistent, MonitorWork, Distinct, Completing, Failing, BlockedBy;
    var q, t := s.pc.queue, LoopStep(c, s);
    assert q[0] in q && IsIn(s.sched, q[0], Running);
    assert t.tasks == s.tasks && t.permit == s.permit && t.pc == Scan(q[1..]);
    OutcomeUnlaunched(c.deps, s.sched, q[0]);
    assert Unlaunched(t) <= Unlaunched(s);
    SubsetSize(Unlaunched(t), Unlaunched(s));
  }

  lemma OutcomeUnlaunched(deps: Deps, s: Sched, id: Id)
    requires Consistent(deps, s) && IsIn(s, id, Running)
    ensures forall x :: x in Failing(deps, s, id).states && Waiting(Failing(deps, s, id).states[x]) ==>
              x in s.states && Waiting(s.states[x])
    ensures forall x :: x in Completing(deps, s, id).states && Waiting(Completing(deps, s, id).states[x]) ==>
              x in s.states && Waiting(s.states[x])
  {
    hide Consistent, Downstream, Freed;
    FailingMoves(deps, s, id);
    CompletingMoves(deps, s, id);
    hide Failing, Completing, Done;
  }

  lemma SpawnFailureWork(c: Config, s: State, reason: string)
    requires Planned(c, s) && AllAgreed(s) && Enabled(c, s, SpawnFails(reason))
    ensures Lighter(s, Apply(c, s, SpawnFails(reason)))
  {
    hide Consistent, MonitorWork, Downstream;
    var q, t := s.pc.queue, Apply(c, s, SpawnFails(reason));
    assert q[0] in q && IsIn(s.sched, q[0], Ready);
    assert Agreed(s.tasks, s.sched, s.pc, q[0]);
    FailingMoves(c.deps, s.sched, q[0]);
    hide Failing, BlockedBy;
    SameMonitors(s.tasks, t.tasks);
    FewerIsLess(Unlaunched(s), Unlaunched(t), q[0]);
  }

  lemma PcWorkBounded(c: Config, s: State)
    requires Planned(c, s)
    ensures PcWork(s.pc) < Unit(c)
  {
    hide Consistent;
    if s.pc.Scan? || s.pc.Read? {
      var q := s.pc.queue;
      DistinctCount(q);
      DistinctCount(c.steps);
      forall x | x in q ensures x in Elements(c.steps) { assert IsIn(s.sched, x, Running); }
      SubsetSize(Elements(q), Elements(c.steps));
    }
  }

  lemma ProductGrows(a: nat, b: nat, k: nat)
    requires a <= b
    ensures a * k <= b * k
  {
  }

  lemma FewerUnlaunched(u: nat, u': nat, p: nat, p': nat, k: nat)
    requires u' < u && p' <= p + 5
    ensures u' * (6 * k) + p' * k + k <= u * (6 * k) + p * k
  {
    ProductGrows(u' + 1, u, 6 * k);
    ProductGrows(p', p + 5, k);
    assert (u' + 1) * (6 * k) == u' * (6 * k) + 6 * k;
    assert (p + 5) * k == p * k + 5 * k;
  }

  lemma FewerPermits(u: nat, u': nat, p: nat, p': nat, k: nat)
    requires u' <= u && p' < p
    ensures u' * (6 * k) + p' * k + k <= u * (6 * k) + p * k
  {
    ProductGrows(u', u, 6 * k);
    ProductGrows(p' + 1, p, k);
    assert (p' + 1) * k == p' * k + k;
  }

  lemma LighterIsLess(u: nat, u': nat, p: nat, p': nat, w: nat, w': nat, k: nat)
    requires w' < k
    requires (u' < u && p' <= p + 5) || (u' <= u && p' < p) || (u' <= u && p' <= p && w' < w)
    ensures u' * (6 * k) + p' * k + w' < u * (6 * k) + p * k + w
  {
    if u' < u && p' <= p + 5 {
      FewerUnlaunched(u, u', p, p', k);
    } else if p' < p {
      FewerPermits(u, u', p, p', k);
    } else {
      ProductGrows(u', u, 6 * k);
      ProductGrows(p', p, k);
    }
  }

  /** Every action but those of `cancel` uses up work; those leave it as it is. */
  lemma WorkFalls(c: Config, s: State, a: Action)
    requires Accepted(c) && Safe(c, s) && Enabled(c, s, a)
    ensures if IsCancel(a) then Work(c, Apply(c, s, a)) == Work(c, s) else Work(c, Apply(c, s, a)) < Work(c, s)
  {
    hide Planned, AllTracked, AllAgreed, Logged, Prompted, Acyclic, Unlaunched, Permits, Lighter, LoopStep, SpawnFailed;
    var t := Apply(c, s, a);
    if a.Loop? || a.SpawnFails? {
      LoopIsLighter(c, s, a);
      StepSafe(c, s, a);
      PcWorkBounded(c, t);
      LighterMeans(s, t);
      LighterIsLess(|Unlaunched(s)|, |Unlaunched(t)|, Permits(s), Permits(t), PcWork(s.pc), PcWork(t.pc), Unit(c));
    } else {
      TaskWork(c, s, a);
      if !IsCancel(a) {
        StepSafe(c, s, a);
        PcWorkBounded(c, t);
        LighterIsLess(|Unlaunched(s)|, |Unlaunched(t)|, Permits(s), Permits(t), PcWork(s.pc), PcWork(t.pc), Unit(c));
      }
    }
  }

  lemma LighterMeans(s: State, t: State)
    requires Lighter(s, t)
    ensures var u, u', p, p' := |Unlaunched(s)|, |Unlaunched(t)|, Permits(s), Permits(t);
            (u' < u && p' <= p + 5) || (u' <= u && p' < p) || (u' <= u && p' <= p && PcWork(t.pc) < PcWork(s.pc))
  {
  }

  lemma LoopIsLighter(c: Config, s: State, a: Action)
    requires Safe(c, s) && Enabled(c, s, a) && (a.Loop? || a.SpawnFails?)
    ensures Lighter(s, Apply(c, s, a))
  {
    hide Planned, AllTracked, AllAgreed, Logged, Prompted, LoopStep, SpawnFailed, Lighter;
    if a.SpawnFails? {
      SpawnFailureWork(c, s, a.reason);
    } else if s.pc.Marked? {
      MarkedWork(c, s);
    } else if s.pc.Watched? {
      WatchedWork(c, s);
    } else if s.pc.Read? {
      ReadWork(c, s);
    } else {
      QuietWork(c, s);
    }
  }

  /** How many of the actions are not those of `cancel`. */
  function Effort(actions: seq<Action>): nat {
    if actions == [] then 0
    else Effort(actions[..|actions| - 1]) + if IsCancel(actions[|actions| - 1]) then 0 else 1
  }

  lemma {:induction false} EffortIsPaidFor(c: Config, states: seq<State>, actions: seq<Action>, i: nat)
    requires Accepted(c) && Run(c, states, actions) && i < |states|
    ensures Effort(actions[..i]) + Work(c, states[i]) <= Work(c, Init(c))
  {
    hide Accepted, Safe, Enabled, Apply, Init, Work;
    if i > 0 {
      EffortIsPaidFor(c, states, actions, i - 1);
      RunsAreSafe(c, states, actions, i - 1);
      assert Enabled(c, states[i - 1], actions[i - 1]);
      WorkFalls(c, states[i - 1], actions[i - 1]);
      assert actions[..i][..i - 1] == actions[..i - 1];
    }
  }

  /** However long a run is, the loop and the monitors take at most this many actions in it. */
  lemma RunsAreBounded(c: Config, states: seq<State>, actions: seq<Action>)
    requires Accepted(c) && Run(c, states, actions)
    ensures Effort(actions) <= |c.steps| * (12 * |c.steps| + 60) + 4
  {
    hide Accepted, Trace, Init, Work;
    TraceLength(c, states, actions);
    EffortIsPaidFor(c, states, actions, |actions|);
    assert actions[..|actions|] == actions;
    InitialWork(c);
  }

  lemma InitialWork(c: Config)
    requires Accepted(c)
    ensures Work(c, Init(c)) == |c.steps| * (12 * |c.steps| + 60) + 4
  {
    hide Acyclic, Known, Initial, Unlaunched, MonitorWork, Distinct;
    var s := Init(c);
    NothingLaunched(c);
    DistinctCount(c.steps);
    NoMonitors(s.tasks);
    assert Permits(s) == 0;
    assert 6 * Unit(c) == 12 * |c.steps| + 60;
  }

  lemma NothingLaunched(c: Config)
    ensures Unlaunched(Init(c)) == Elements(c.steps)
  {
  }

  lemma NoMonitors(k: Tasks)
    requires k.monitors == map[]
    ensures MonitorWork(k) == 0
  {
    assert forall n :: AtLeast(k, n) == {};
  }

  lemma TraceLength(c: Config, states: seq<State>, actions: seq<Action>)
    requires Trace(c, states, actions)
    ensures |states| == |actions| + 1
  {
  }

  // ----- no notification is lost while the loop waits for running steps

  predicate HasNotified(k: Tasks, x: Id) {
    AtStage(k, x, Notified) || AtStage(k, x, Gone)
  }

  /** `x` has a monitor and the scheduler is not done with it. */
  predicate Active(s: State, x: Id) {
    IsIn(s.sched, x, Running) || BeingAnnounced(s.pc, x)
  }

  predicate BeingScanned(pc: Pc, x: Id) {
    (pc.Scan? || pc.Read?) && x in pc.queue
  }

  /** An active step that has notified is about to be looked at, or a notification is waiting. */
  ghost predicate Owed(s: State) {
    s.pc.Ended? || forall x :: Active(s, x) && HasNotified(s.tasks, x) ==> s.permit || BeingScanned(s.pc, x)
  }

  lemma OthersKeepOwed(c: Config, s: State, a: Action)
    requires AllTracked(s) && Owed(s) && Enabled(c, s, a) && !a.Loop? && !a.SpawnFails?
    ensures Owed(Apply(c, s, a))
  {
    hide IsIn;
    var t := Apply(c, s, a);
    if a.Notify? { assert Tracked(s.tasks, s.pc, a.id); }
    if !t.pc.Ended? {
      forall x | Active(t, x) && HasNotified(t.tasks, x) ensures t.permit || BeingScanned(t.pc, x) {
        assert Active(s, x);
      }
    }
  }

  lemma SpawnFailureKeepsOwed(c: Config, s: State, reason: string)
    requires Planned(c, s) && AllAgreed(s) && Owed(s) && Enabled(c, s, SpawnFails(reason))
    ensures Owed(Apply(c, s, SpawnFails(reason)))
  {
    hide Consistent, Downstream, Distinct;
    var q, t := s.pc.queue, Apply(c, s, SpawnFails(reason));
    assert q[0] in q && IsIn(s.sched, q[0], Ready);
    FailingMoves(c.deps, s.sched, q[0]);
    hide Failing, BlockedBy;
    forall x | Active(t, x) && HasNotified(t.tasks, x) ensures t.permit || BeingScanned(t.pc, x) {
      assert Active(s, x);
    }
  }

  lemma LoopKeepsOwed(c: Config, s: State)
    requires Safe(c, s) && Owed(s) && Enabled(c, s, Loop) && !s.pc.WaitIdle?
    ensures Owed(LoopStep(c, s))
  {
    hide Planned, AllTracked, AllAgreed, Logged, Prompted, LoopStep, Owed;
    if s.pc.Read? {
      ReadKeepsOwed(c, s);
    } else if s.pc.WaitStep? {
      WaitKeepsOwed(c, s);
    } else if s.pc.Scan? {
      ScanKeepsOwed(c, s);
    } else {
      LaunchKeepsOwed(c, s);
    }
  }

  lemma WaitKeepsOwed(c: Config, s: State)
    requires Planned(c, s) && s.pc.WaitStep?
    ensures Owed(LoopStep(c, s))
  {
    hide Consistent;
    SelectIs(c.steps, s.sched.states, Running);
  }

  lemma ScanKeepsOwed(c: Config, s: State)
    requires Owed(s) && AllTracked(s) && s.pc.Scan?
    ensures Owed(LoopStep(c, s))
  {
    var q, t := s.pc.queue, LoopStep(c, s);
    if q != [] {
      assert Tracked(s.tasks, s.pc, q[0]);
      assert q == [q[0]] + q[1..];
    }
    forall x | Active(t, x) && HasNotified(t.tasks, x) ensures t.permit || BeingScanned(t.pc, x) {
      assert Active(s, x);
    }
  }

  /** Looking at a step whose subagent has gone settles it. */
  lemma ReadSettles(c: Config, s: State)
    requires Planned(c, s) && AllTracked(s) && AllAgreed(s) && s.pc.Read?
    ensures var q, t := s.pc.queue, LoopStep(c, s);
            && t.pc == Scan(q[1..]) && t.tasks == s.tasks && t.permit == s.permit
            && (forall x :: IsIn(t.sched, x, Running) <==> IsIn(s.sched, x, Running) && x != q[0])
  {
    hide Consistent, Downstream, Freed, Done, Distinct, Failing, Completing, BlockedBy;
    var q := s.pc.queue;
    assert q[0] in q && IsIn(s.sched, q[0], Running);
    assert Tracked(s.tasks, s.pc, q[0]) && Agreed(s.tasks, s.sched, s.pc, q[0]);
    FailureRuns(c.deps, s.sched, q[0]);
    CompletionRuns(c.deps, s.sched, q[0]);
    hide IsIn, AllTracked, AllAgreed;
  }

  lemma ReadKeepsOwed(c: Config, s: State)
    requires Planned(c, s) && AllTracked(s) && AllAgreed(s) && Owed(s) && s.pc.Read?
    ensures Owed(LoopStep(c, s))
  {
    hide Planned, AllTracked, AllAgreed, LoopStep, IsIn;
    ReadSettles(c, s);
    var q, t := s.pc.queue, LoopStep(c, s);
    assert q != [] by { ReadingSome(c, s); }
    assert q == [q[0]] + q[1..];
    forall x | Active(t, x) && HasNotified(t.tasks, x) ensures t.permit || BeingScanned(t.pc, x) {
      assert Active(s, x);
    }
  }

  lemma ReadingSome(c: Config, s: State)
    requires Planned(c, s) && s.pc.Read?
    ensures s.pc.queue != []
  {
  }

  /** Launching makes no step active that has notified. */
  lemma LaunchedIsNew(c: Config, s: State, x: Id)
    requires Planned(c, s) && AllAgreed(s) && Enabled(c, s, Loop)
    requires s.pc.Launch? || s.pc.Mapped? || s.pc.Entered? || s.pc.Marked? || s.pc.Watched?
    requires var t := LoopStep(c, s); Active(t, x) && HasNotified(t.tasks, x)
    ensures Active(s, x) && HasNotified(s.tasks, x)
  {
    hide Consistent, Prompt, Spawnable, Distinct, Select, AllTerminal;
    assert Agreed(s.tasks, s.sched, s.pc, x);
  }

  lemma LaunchKeepsOwed(c: Config, s: State)
    requires Planned(c, s) && AllAgreed(s) && Owed(s) && Enabled(c, s, Loop)
    requires !s.pc.WaitIdle? && !s.pc.WaitStep? && !s.pc.Scan? && !s.pc.Read?
    ensures Owed(LoopStep(c, s))
  {
    hide Planned, AllAgreed, Select, AllTerminal, Spawnable, Active, HasNotified, LaunchStep, Starting;
    var t := LoopStep(c, s);
    if s.pc.Launch? || s.pc.Mapped? || s.pc.Entered? || s.pc.Marked? || s.pc.Watched? {
      forall x | Active(t, x) && HasNotified(t.tasks, x) ensures t.permit || BeingScanned(t.pc, x) {
        LaunchedIsNew(c, s, x);
      }
    } else {
      forall x | Active(t, x) && HasNotified(t.tasks, x) && !t.pc.Ended? ensures t.permit || BeingScanned(t.pc, x) {
        SameActive(s, t, x);
      }
    }
  }

  lemma SameActive(s: State, t: State, x: Id)
    requires t.sched == s.sched && t.tasks == s.tasks && !t.pc.Watched? && Active(t, x) && HasNotified(t.tasks, x)
    ensures Active(s, x) && HasNotified(s.tasks, x)
  {
  }

  /** A run in which the loop never waited with nothing to launch. */
  ghost predicate NeverIdle(states: seq<State>) {
    forall i :: 0 <= i < |states| ==> !states[i].pc.WaitIdle?
  }

  lemma {:induction false} NotificationsAreKept(c: Config, states: seq<State>, actions: seq<Action>, i: nat)
    requires Accepted(c) && Run(c, states, actions) && i < |states| && NeverIdle(states)
    ensures Owed(states[i])
  {
    hide Accepted, Enabled, Apply, Planned, AllTracked, AllAgreed, Logged, Prompted;
    if i > 0 {
      NotificationsAreKept(c, states, actions, i - 1);
      RunsAreSafe(c, states, actions, i - 1);
      assert Enabled(c, states[i - 1], actions[i - 1]);
      StepKeepsOwed(c, states[i - 1], actions[i - 1]);
    }
  }

  lemma StepKeepsOwed(c: Config, s: State, a: Action)
    requires Safe(c, s) && Owed(s) && Enabled(c, s, a) && !s.pc.WaitIdle?
    ensures Owed(Apply(c, s, a))
  {
    hide Planned, AllTracked, AllAgreed, Logged, Prompted, LoopStep, SpawnFailed, Owed;
    match a
    case Loop => LoopKeepsOwed(c, s);
    case SpawnFails(reason) => SpawnFailureKeepsOwed(c, s, reason);
    case _ => OthersKeepOwed(c, s, a);
  }

  /** Nothing is left to do but to cancel subagents. */
  ghost predicate Quiescent(c: Config, s: State) {
    forall a :: Enabled(c, s, a) ==> IsCancel(a)
  }

  lemma RunningHasNotified(c: Config, s: State, x: Id)
    requires AllAgreed(s) && Quiescent(c, s) && IsIn(s.sched, x, Running)
    ensures Active(s, x) && HasNotified(s.tasks, x)
  {
    assert Agreed(s.tasks, s.sched, s.pc, x);
    assert !Enabled(c, s, Exits(x, true, "")) && !Enabled(c, s, Withdraw(x));
    assert !Enabled(c, s, Notify(x)) && !Enabled(c, s, Unmap(x));
  }

  lemma QuiescentHasEnded(c: Config, s: State)
    requires Planned(c, s) && AllAgreed(s) && Owed(s) && Quiescent(c, s) && !s.pc.WaitIdle?
    ensures s.pc.Ended?
  {
    hide Consistent, Prompt, Spawnable, Distinct;
    assert !Enabled(c, s, Loop) && !Enabled(c, s, SpawnFails(""));
    if s.pc.WaitStep? {
      var x :| IsIn(s.sched, x, Running);
      RunningHasNotified(c, s, x);
    }
  }

  // ----- waiting with nothing to launch is final

  /** The loop asks for ready steps and waits, over and over. */
  ghost predicate Stalled(s: State) {
    (s.pc.WaitIdle? || s.pc.Top?) && NoneReady(s.sched) && !AllTerminal(s.sched) && s.tally.failed == 0
  }

  lemma StalledStays(c: Config, s: State, a: Action)
    requires Stalled(s) && Enabled(c, s, a)
    ensures var t := Apply(c, s, a); Stalled(t) && t.sched == s.sched && t.tally == s.tally
  {
    hide AllTerminal;
    if s.pc.Top? { NothingSelected(c, s.sched); }
    hide Select;
  }

  lemma NothingSelected(c: Config, s: Sched)
    requires NoneReady(s)
    ensures Select(c.steps, s.states, Ready) == []
  {
    var ready := Select(c.steps, s.states, Ready);
    assert ready != [] ==> ready[0] in ready;
    SelectIs(c.steps, s.states, Ready);
    assert forall x :: x in ready ==> IsIn(s, x, Ready);
  }

  /**
   * Once the loop has waited with nothing to launch it does nothing else: whatever subagents do
   * from then on, no step changes state, no event is sent and the orchestration never ends.
   */
  lemma {:induction false} IdleIsForever(c: Config, states: seq<State>, actions: seq<Action>, i: nat, j: nat)
    requires Accepted(c) && Run(c, states, actions) && i <= j < |states| && states[i].pc.WaitIdle?
    ensures Stalled(states[j]) && states[j].sched == states[i].sched && states[j].tally == states[i].tally
    decreases j
  {
    hide Accepted, Enabled, Apply, AllTracked, AllAgreed, Logged, Prompted, Consistent;
    if i == j {
      RunsAreSafe(c, states, actions, i);
    } else {
      IdleIsForever(c, states, actions, i, j - 1);
      assert Enabled(c, states[j - 1], actions[j - 1]);
      StalledStays(c, states[j - 1], actions[j - 1]);
    }
  }

  /**
   * When a run has nothing left to do, the final event has been sent exactly if the loop never
   * waited with nothing to launch.
   */
  lemma MaximalRunsEnd(c: Config, states: seq<State>, actions: seq<Action>)
    requires Accepted(c) && Run(c, states, actions) && Quiescent(c, states[|states| - 1])
    ensures states[|states| - 1].pc.Ended? <==> NeverIdle(states)
  {
    hide Accepted, Init, Trace, Quiescent, Planned, AllTracked, AllAgreed, Logged, Prompted, Owed;
    TraceLength(c, states, actions);
    var last := |states| - 1;
    if NeverIdle(states) {
      RunsAreSafe(c, states, actions, last);
      NotificationsAreKept(c, states, actions, last);
      QuiescentHasEnded(c, states[last]);
    } else {
      var i :| 0 <= i < |states| && states[i].pc.WaitIdle?;
      IdleIsForever(c, states, actions, i, last);
    }
  }
}
