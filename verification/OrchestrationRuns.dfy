/** Safety of whole orchestration runs, however the loop, the monitors and `cancel` calls interleave. */
module OrchestrationRuns {
  import opened DependencyGraph
  import opened DagValidation
  import opened DagScheduler
  import opened SchedulerLaws
  import opened Orchestration
  import opened OrchestrationSafety
  import opened OrchestrationLog

  // ----- the prompts subagents are given

  /** The subagent was given the results of all its step's dependencies. */
  predicate PromptedWith(c: Config, results: map<Id, string>, x: Id, prompt: string) {
    && (forall y :: y in DepsOf(c.deps, x) ==> y in results)
    && prompt == Prompt(c, results, x)
  }

  ghost predicate Prompted(c: Config, s: State) {
    forall x :: x in s.tasks.db ==> PromptedWith(c, s.tally.results, x, s.tasks.db[x].prompt)
  }

  lemma {:induction false} ContextStays(list: seq<Id>, results: map<Id, string>, more: map<Id, string>)
    requires forall y :: y in list ==> y in results && y in more && more[y] == results[y]
    ensures Context(list, more) == Context(list, results)
  {
    if list != [] {
      ContextStays(list[..|list| - 1], results, more);
    }
  }

  /** A result that comes later does not change a prompt that had all it needed. */
  lemma PromptStays(c: Config, results: map<Id, string>, x: Id, prompt: string, id: Id, summary: string)
    requires PromptedWith(c, results, x, prompt) && id !in results
    ensures PromptedWith(c, results[id := summary], x, prompt)
  {
    ContextStays(DepsOf(c.deps, x), results, results[id := summary]);
  }

  lemma OthersKeepPrompts(c: Config, s: State, a: Action)
    requires Prompted(c, s) && Enabled(c, s, a) && !a.Loop? && !a.SpawnFails?
    ensures Prompted(c, Apply(c, s, a))
  {
    hide PromptedWith, TaskStep;
    TaskKeepsPrompts(s.tasks, a);
  }

  lemma TaskKeepsPrompts(k: Tasks, a: Action)
    ensures var t := TaskStep(k, a).db;
            forall x :: x in t ==> x in k.db && t[x].prompt == k.db[x].prompt
  {
  }

  lemma SpawnFailureKeepsPrompts(c: Config, s: State, reason: string)
    requires Prompted(c, s) && Enabled(c, s, SpawnFails(reason))
    ensures Prompted(c, Apply(c, s, SpawnFails(reason)))
  {
    hide PromptedWith, Failing, BlockedBy;
    var t := Apply(c, s, SpawnFails(reason));
    assert t.tally.results == s.tally.results && t.tasks.db == s.tasks.db;
  }

  lemma LoopKeepsPrompts(c: Config, s: State)
    requires Prompted(c, s) && Planned(c, s) && Logged(c, s) && Enabled(c, s, Loop)
    ensures Prompted(c, Apply(c, s, Loop))
  {
    hide Planned, Logged, LoopStep, Prompted;
    if s.pc.Mapped? {
      EnterKeepsPrompts(c, s);
    } else if s.pc.Read? {
      ReadKeepsPrompts(c, s);
    } else {
      QuietKeepsPrompts(c, s);
    }
  }

  lemma QuietKeepsPrompts(c: Config, s: State)
    requires Prompted(c, s) && !s.pc.Mapped? && !s.pc.Read?
    ensures Prompted(c, LoopStep(c, s))
  {
    hide PromptedWith, Select, AllTerminal, ReadStep, Prompt, Spawnable;
    var t := LoopStep(c, s);
    assert t.tally.results == s.tally.results;
    assert forall x :: x in t.tasks.db ==> x in s.tasks.db && t.tasks.db[x].prompt == s.tasks.db[x].prompt;
  }

  lemma EnterKeepsPrompts(c: Config, s: State)
    requires Prompted(c, s) && Planned(c, s) && Logged(c, s) && s.pc.Mapped?
    ensures Prompted(c, LoopStep(c, s))
  {
    hide Consistent, Lawful, Prompt, Spawnable;
    var q, t := s.pc.queue, LoopStep(c, s);
    assert q[0] in q && IsIn(s.sched, q[0], Ready);
    ReadyAfterDependencies(c.deps, s.sched, q[0]);
    assert s.tally.results.Keys == StepsIn(s.sched, Completed);
    hide Logged;
    forall x | x in t.tasks.db ensures PromptedWith(c, t.tally.results, x, t.tasks.db[x].prompt) {
      if x != q[0] { assert x in s.tasks.db; }
    }
  }

  lemma ReadKeepsPrompts(c: Config, s: State)
    requires Prompted(c, s) && Planned(c, s) && Logged(c, s) && s.pc.Read?
    ensures Prompted(c, LoopStep(c, s))
  {
    hide Consistent, PromptedWith, Lawful, ReadStep, Distinct;
    var q, t := s.pc.queue, LoopStep(c, s);
    assert q[0] in q && IsIn(s.sched, q[0], Running) && q[0] !in StepsIn(s.sched, Completed);
    assert q[0] !in s.tally.results;
    hide Logged, Planned;
    ReadKeeps(c, s, q);
    hide LoopStep;
    if t.tally.results != s.tally.results {
      forall x | x in t.tasks.db ensures PromptedWith(c, t.tally.results, x, t.tasks.db[x].prompt) {
        PromptStays(c, s.tally.results, x, s.tasks.db[x].prompt, q[0], SummaryOr(s.tasks.db[q[0]], ""));
      }
    }
  }

  /** Reading a row may add a result and changes no row. */
  lemma ReadKeeps(c: Config, s: State, q: seq<Id>)
    requires q != []
    ensures var t := ReadStep(c, s, q);
            && t.tasks == s.tasks
            && (t.tally.results == s.tally.results
                || (q[0] in s.tasks.db && t.tally.results == s.tally.results[q[0] := SummaryOr(s.tasks.db[q[0]], "")]))
  {
    hide Completing, Failing, BlockedBy;
  }

  // ----- every reachable state

  ghost predicate Safe(c: Config, s: State) {
    Planned(c, s) && AllTracked(s) && AllAgreed(s) && Logged(c, s) && Prompted(c, s)
  }

  lemma InitSafe(c: Config)
    requires Accepted(c)
    ensures Safe(c, Init(c))
  {
    hide Logged, AllAgreed, AllTracked, Acyclic, Consistent;
    InitialConsistent(c.steps, c.deps);
    InitTracked(c);
    InitLogged(c);
  }

  lemma InitTracked(c: Config)
    ensures AllTracked(Init(c)) && AllAgreed(Init(c))
  {
  }

  lemma InitLogged(c: Config)
    ensures Logged(c, Init(c))
  {
    var s := Init(c);
    assert StepsIn(s.sched, Completed) == {} && StepsIn(s.sched, Failed) == {};
    assert StepsIn(s.sched, Blocked) == {} && Announced(s) == {};
  }

  lemma StepSafe(c: Config, s: State, a: Action)
    requires Accepted(c) && Safe(c, s) && Enabled(c, s, a)
    ensures Safe(c, Apply(c, s, a))
  {
    hide Planned, AllTracked, AllAgreed, Logged, Prompted, Acyclic, Enabled, Apply;
    match a
    case Loop => LoopSafe(c, s);
    case SpawnFails(reason) =>
      SpawnFailureKeepsPlan(c, s, reason);
      SpawnFailureKeepsTracked(c, s, reason);
      SpawnFailureKeepsRecord(c, s, reason);
      SpawnFailureKeepsPrompts(c, s, reason);
    case _ =>
      OthersKeepPlan(c, s, a);
      OthersKeepTracked(c, s, a);
      OthersKeepRecord(c, s, a);
      OthersKeepPrompts(c, s, a);
  }

  lemma LoopSafe(c: Config, s: State)
    requires Accepted(c) && Safe(c, s) && Enabled(c, s, Loop)
    ensures Safe(c, Apply(c, s, Loop))
  {
    hide Planned, AllTracked, AllAgreed, Logged, Prompted, Acyclic, Enabled, LoopStep;
    LoopKeepsPlan(c, s);
    LoopKeepsTracked(c, s);
    LoopKeepsPrompts(c, s);
    if s.pc.Watched? {
      AnnounceKeepsRecord(c, s);
    } else if s.pc.Read? {
      ReadKeepsRecord(c, s);
    } else if s.pc.Finished? {
      FinishKeepsRecord(c, s);
    } else {
      QuietKeepsRecord(c, s);
    }
  }

  /** Every state of every run is safe. */
  lemma {:induction false} RunsAreSafe(c: Config, states: seq<State>, actions: seq<Action>, i: nat)
    requires Accepted(c) && Run(c, states, actions) && i < |states|
    ensures Safe(c, states[i])
  {
    hide Accepted, Safe, Enabled, Apply, Init;
    if i == 0 {
      InitSafe(c);
    } else {
      RunsAreSafe(c, states, actions, i - 1);
      assert Enabled(c, states[i - 1], actions[i - 1]);
      StepSafe(c, states[i - 1], actions[i - 1]);
    }
  }

  // ----- what that means for a run

  /**
   * A running step whose subagent has left the `running` map has a final status in the database,
   * so the scan's last arm is never taken. Its monitor has notified the orchestration, or is about
   * to and will find it; only an orchestration that has ended after a failure is not found.
   */
  lemma FinishedStepsAreSettled(c: Config, states: seq<State>, actions: seq<Action>, i: nat, x: Id)
    requires Accepted(c) && Run(c, states, actions) && i < |states|
    requires IsIn(states[i].sched, x, Running) && x !in states[i].tasks.running
    ensures var k := states[i].tasks;
            && x in k.db && Over(k.db[x].status)
            && (AtStage(k, x, Notified) || AtStage(k, x, Gone)
                || (AtStage(k, x, Withdrawn) && Enabled(c, states[i], Notify(x))
                    && (Apply(c, states[i], Notify(x)).permit || (states[i].pc.Ended? && states[i].tally.failed > 0))))
  {
    hide Accepted, Run, Consistent, Logged, Prompted;
    RunsAreSafe(c, states, actions, i);
    var s := states[i];
    assert Tracked(s.tasks, s.pc, x) && Agreed(s.tasks, s.sched, s.pc, x);
    if s.pc.Ended? { assert s.sched.states[x] == Running; }
  }

  /**
   * Along every run: no step starts, completes or fails twice, none starts before its dependencies
   * have completed, completions are numbered 1, 2, 3, ..., and the final event, which reports
   * success only when every step has completed, is sent once and last.
   */
  lemma RunEventsAreLawful(c: Config, states: seq<State>, actions: seq<Action>, i: nat)
    requires Accepted(c) && Run(c, states, actions) && i < |states|
    ensures var s := states[i];
            && Lawful(c, s.tally.events)
            && (s.pc.Ended? <==> s.tally.events != [] && IsFinal(s.tally.events[|s.tally.events| - 1]))
  {
    hide Accepted, Run, Planned, AllTracked, AllAgreed, Prompted, Lawful;
    RunsAreSafe(c, states, actions, i);
    var e := states[i].tally.events;
    if !states[i].pc.Ended? && e != [] { assert !IsFinal(e[|e| - 1]); }
  }

  /** How many of the first `i` actions were the return of a call of `spawn`, with or without a subagent. */
  ghost function Attempts(states: seq<State>, actions: seq<Action>, i: nat): nat
    requires i <= |states| && i <= |actions|
  {
    if i == 0 then 0
    else
      Attempts(states, actions, i - 1)
      + if states[i - 1].pc.Mapped? && (actions[i - 1].Loop? || actions[i - 1].SpawnFails?) then 1 else 0
  }

  /** A subagent is there that the scheduler has not been told of. */
  function BeingLaunched(pc: Pc): nat {
    if pc.Entered? || pc.Marked? || pc.Watched? then 1 else 0
  }

  ghost function Accounted(s: State): nat {
    s.tally.completed + s.tally.failed + |StepsIn(s.sched, Running)| + BeingLaunched(s.pc)
  }

  lemma SameRunning(s: Sched, t: Sched)
    requires forall x :: IsIn(t, x, Running) <==> IsIn(s, x, Running)
    ensures StepsIn(t, Running) == StepsIn(s, Running)
  {
    assert forall x :: x in StepsIn(t, Running) <==> IsIn(t, x, Running);
    assert forall x :: x in StepsIn(s, Running) <==> IsIn(s, x, Running);
  }

  lemma LessRunning(s: Sched, t: Sched, id: Id)
    requires IsIn(s, id, Running) && forall x :: IsIn(t, x, Running) <==> IsIn(s, x, Running) && x != id
    ensures |StepsIn(t, Running)| == |StepsIn(s, Running)| - 1
  {
    assert forall x :: x in StepsIn(t, Running) <==> IsIn(t, x, Running);
    assert StepsIn(t, Running) == StepsIn(s, Running) - {id};
  }

  lemma FailureRuns(deps: Deps, s: Sched, id: Id)
    requires Consistent(deps, s) && (IsIn(s, id, Ready) || IsIn(s, id, Running))
    ensures forall x :: IsIn(Failing(deps, s, id), x, Running) <==> IsIn(s, x, Running) && x != id
  {
    hide Consistent, Downstream, Done;
    FailingMoves(deps, s, id);
    hide Failing;
  }

  lemma CompletionRuns(deps: Deps, s: Sched, id: Id)
    requires Consistent(deps, s) && IsIn(s, id, Running)
    ensures forall x :: IsIn(Completing(deps, s, id), x, Running) <==> IsIn(s, x, Running) && x != id
  {
    hide Consistent, Freed, Done;
    CompletingMoves(deps, s, id);
    hide Completing;
  }

  lemma SpawnFailureCounts(c: Config, s: State, reason: string)
    requires Planned(c, s) && Enabled(c, s, SpawnFails(reason))
    ensures Accounted(Apply(c, s, SpawnFails(reason))) == Accounted(s) + 1
  {
    hide Consistent, Distinct, Failing, BlockedBy, StepsIn;
    var q, t := s.pc.queue, Apply(c, s, SpawnFails(reason));
    assert q[0] in q && IsIn(s.sched, q[0], Ready) && !IsIn(s.sched, q[0], Running);
    FailureRuns(c.deps, s.sched, q[0]);
    SameRunning(s.sched, t.sched);
  }

  lemma ReadCounts(c: Config, s: State)
    requires Planned(c, s) && s.pc.Read?
    ensures Accounted(LoopStep(c, s)) == Accounted(s)
  {
    hide Consistent, Distinct, Failing, Completing, BlockedBy, StepsIn;
    var q, t := s.pc.queue, LoopStep(c, s);
    assert q[0] in q && IsIn(s.sched, q[0], Running);
    FailureRuns(c.deps, s.sched, q[0]);
    CompletionRuns(c.deps, s.sched, q[0]);
    LessRunning(s.sched, Failing(c.deps, s.sched, q[0]), q[0]);
    LessRunning(s.sched, Completing(c.deps, s.sched, q[0]), q[0]);
    hide IsIn;
  }

  lemma LoopCounts(c: Config, s: State)
    requires Planned(c, s) && Enabled(c, s, Loop)
    ensures Accounted(LoopStep(c, s)) == Accounted(s) + if s.pc.Mapped? then 1 else 0
  {
    hide Planned, StepsIn, Select, AllTerminal, Prompt, Spawnable;
    if s.pc.Read? {
      ReadCounts(c, s);
    } else if s.pc.Watched? {
      AnnounceCounts(c, s);
    }
  }

  lemma AnnounceCounts(c: Config, s: State)
    requires Planned(c, s) && s.pc.Watched?
    ensures Accounted(LoopStep(c, s)) == Accounted(s)
  {
    hide Consistent, Distinct;
    var q, t := s.pc.queue, LoopStep(c, s);
    assert q[0] in q && IsIn(s.sched, q[0], Ready);
    assert StepsIn(t.sched, Running) == StepsIn(s.sched, Running) + {q[0]};
  }

  /** Every call of `spawn` is accounted for: its step completed, failed, is running or is being launched. */
  lemma {:induction false} SpawnsAreAccountedFor(c: Config, states: seq<State>, actions: seq<Action>, i: nat)
    requires Accepted(c) && Run(c, states, actions) && i < |states|
    ensures Attempts(states, actions, i) == Accounted(states[i])
  {
    hide Accepted, Planned, AllTracked, AllAgreed, Logged, Prompted, LoopStep, SpawnFailed;
    if i == 0 {
      assert StepsIn(Init(c).sched, Running) == {};
    } else {
      var s, a := states[i - 1], actions[i - 1];
      SpawnsAreAccountedFor(c, states, actions, i - 1);
      RunsAreSafe(c, states, actions, i - 1);
      assert Enabled(c, s, a);
      match a
      case Loop => LoopCounts(c, s);
      case SpawnFails(reason) => SpawnFailureCounts(c, s, reason);
      case _ =>
    }
  }

  /** In terms of what was announced: a step that was started or has failed completed, failed or is running. */
  lemma AttemptsAreAccountedFor(c: Config, states: seq<State>, actions: seq<Action>, i: nat)
    requires Accepted(c) && Run(c, states, actions) && i < |states|
    ensures var s := states[i];
            s.tally.completed + s.tally.failed + |StepsIn(s.sched, Running)|
            == |StartedIn(s.tally.events) + FailedIn(s.tally.events)|
  {
    hide Accepted, Run, Planned, AllTracked, Prompted, Lawful;
    RunsAreSafe(c, states, actions, i);
    var s := states[i];
    AnnouncedWereTried(s);
    hide AllAgreed, StepsIn;
    Disjoint(StepsIn(s.sched, Running), StepsIn(s.sched, Completed), StepsIn(s.sched, Failed));
  }

  lemma AnnouncedWereTried(s: State)
    requires AllAgreed(s)
    ensures var running, completed, failed :=
              StepsIn(s.sched, Running), StepsIn(s.sched, Completed), StepsIn(s.sched, Failed);
            && Announced(s) + failed == running + completed + failed
            && running !! completed && (running + completed) !! failed
  {
    forall x ensures x in Announced(s) || IsIn(s.sched, x, Failed) <==> Tried(s.sched, x) {
      assert Agreed(s.tasks, s.sched, s.pc, x);
    }
  }

  lemma Disjoint(a: set<Id>, b: set<Id>, c: set<Id>)
    requires a !! b && (a + b) !! c
    ensures |a + b + c| == |a| + |b| + |c|
  {
  }

  /** How a result is shown to the steps that wait for it. */
  function Section(id: Id, result: string): string {
    "[Context from step " + id.name + "]: " + result + "\n\n"
  }

  /**
   * The prompt is one section for each dependency, in the order in which the step lists them, and
   * then the step's own text; section `k` is what lies between the offsets `o[k]` and `o[k + 1]`.
   */
  predicate LaidOut(prompt: string, deps: seq<Id>, results: map<Id, string>, own: string, o: seq<nat>)
    requires forall y :: y in deps ==> y in results
  {
    && |o| == |deps| + 1 && o[0] == 0 && (forall k :: 0 <= k < |deps| ==> o[k] <= o[k + 1])
    && (forall k :: 0 <= k < |o| ==> o[k] <= |prompt|)
    && (forall k :: 0 <= k < |deps| ==> prompt[o[k]..o[k + 1]] == Section(deps[k], results[deps[k]]))
    && prompt[o[|deps|]..] == own
  }

  lemma {:induction false} ContextLaidOut(deps: seq<Id>, results: map<Id, string>, own: string) returns (o: seq<nat>)
    requires forall y :: y in deps ==> y in results
    ensures |o| == |deps| + 1 && LaidOut(Context(deps, results) + own, deps, results, own, o)
  {
    hide LaidOut, Section, Context;
    if deps == [] {
      o := [0];
      NoContext(results);
      OwnTextOnly(Context(deps, results) + own, results, own);
    } else {
      var n := |deps| - 1;
      assert deps[n] in deps && forall y :: y in deps[..n] ==> y in deps;
      var section := Section(deps[n], results[deps[n]]);
      var front := ContextLaidOut(deps[..n], results, section + own);
      ContextOfMore(deps, results, own);
      o := front + [front[n] + |section|];
      SectionAdded(Context(deps[..n], results) + (section + own), deps, results, section, own, front);
    }
  }

  lemma NoContext(results: map<Id, string>)
    ensures Context([], results) == []
  {
  }

  lemma ContextOfMore(deps: seq<Id>, results: map<Id, string>, own: string)
    requires deps != [] && deps[|deps| - 1] in results
    ensures var n := |deps| - 1;
            Context(deps, results) + own == Context(deps[..n], results) + (Section(deps[n], results[deps[n]]) + own)
  {
    var n := |deps| - 1;
    Associates(Context(deps[..n], results), Section(deps[n], results[deps[n]]), own);
  }

  lemma Associates(a: string, b: string, c: string)
    ensures (a + b) + c == a + (b + c)
  {
  }

  lemma OwnTextOnly(prompt: string, results: map<Id, string>, own: string)
    requires prompt == [] + own
    ensures LaidOut(prompt, [], results, own, [0])
  {
    assert prompt == own;
  }

  lemma SectionAdded(prompt: string, deps: seq<Id>, results: map<Id, string>, section: string, own: string, front: seq<nat>)
    requires deps != [] && forall y :: y in deps ==> y in results
    requires var n := |deps| - 1;
             && (forall y :: y in deps[..n] ==> y in results)
             && LaidOut(prompt, deps[..n], results, section + own, front)
             && deps[n] in results && section == Section(deps[n], results[deps[n]])
    ensures LaidOut(prompt, deps, results, own, front + [front[|deps| - 1] + |section|])
  {
    hide Section;
    var n := |deps| - 1;
    var o := front + [front[n] + |section|];
    var tail := prompt[front[n]..];
    assert tail == section + own;
    assert tail[..|section|] == section && tail[|section|..] == own;
    assert prompt[o[n]..o[n + 1]] == tail[..|section|] && prompt[o[n + 1]..] == tail[|section|..];
    forall k | 0 <= k < n ensures prompt[o[k]..o[k + 1]] == Section(deps[k], results[deps[k]]) {
      assert deps[..n][k] == deps[k] && o[k] == front[k] && o[k + 1] == front[k + 1];
    }
  }

  /**
   * Every subagent was launched with the results of all its step's dependencies, in the order in
   * which the step lists them, followed by the step's own prompt; these results are the ones with
   * which the dependencies were reported as completed.
   */
  lemma PromptsHoldResults(c: Config, states: seq<State>, actions: seq<Action>, i: nat, x: Id) returns (o: seq<nat>)
    requires Accepted(c) && Run(c, states, actions) && i < |states| && x in states[i].tasks.db
    ensures var s := states[i];
            && (forall y :: y in DepsOf(c.deps, x) ==> y in CompletedIn(s.tally.events) && y in s.tally.results)
            && x in c.prompts
            && LaidOut(s.tasks.db[x].prompt, DepsOf(c.deps, x), s.tally.results, c.prompts[x], o)
            && Kept(s.tally.results, s.tally.events)
  {
    hide Run, Acyclic, Known, Distinct, AllTracked, AllAgreed, Lawful, LaidOut;
    RunsAreSafe(c, states, actions, i);
    var s := states[i];
    RowIsOfStep(c, s, x);
    hide Planned;
    o := ContextLaidOut(DepsOf(c.deps, x), s.tally.results, c.prompts[x]);
  }

  /** Only steps have rows. */
  lemma RowIsOfStep(c: Config, s: State, x: Id)
    requires Planned(c, s) && AllTracked(s) && AllAgreed(s) && x in s.tasks.db
    ensures x in Elements(c.steps)
  {
    hide Consistent, Distinct;
    assert Tracked(s.tasks, s.pc, x) && Agreed(s.tasks, s.sched, s.pc, x);
    if BeingEntered(s.pc, x) { assert x in s.pc.queue; }
  }
}
