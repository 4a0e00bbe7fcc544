/** What the events of an orchestration say of its subagents: how each process ended, and who cancelled it. */
module OrchestrationOutcomes {
  import opened Options
  import opened DependencyGraph
  import opened DagValidation
  import opened DagScheduler
  import opened SchedulerLaws
  import opened Orchestration
  import opened OrchestrationSafety
  import opened OrchestrationLog
  import opened OrchestrationRuns

  // ----- who wrote a subagent's row last

  /** A monitor that has seen its process end, or a `cancel` call, writes the row of `id`. */
  predicate Writes(a: Action, id: Id) {
    (a.Exits? || a.CancelWrites?) && a.id == id
  }

  /** The last of some actions to write the row of `id`. */
  function LastWord(actions: seq<Action>, id: Id): Option<Action> {
    if actions == [] then None
    else if Writes(actions[|actions| - 1], id) then Some(actions[|actions| - 1])
    else LastWord(actions[..|actions| - 1], id)
  }

  lemma LastWordNext(actions: seq<Action>, a: Action, id: Id)
    ensures LastWord(actions + [a], id) == if Writes(a, id) then Some(a) else LastWord(actions, id)
  {
    assert (actions + [a])[..|actions|] == actions;
  }

  /** It is one of the actions, and none after it writes the row. */
  lemma {:induction false} LastWordIs(actions: seq<Action>, id: Id) returns (k: nat)
    ensures match LastWord(actions, id)
            case None => forall j :: 0 <= j < |actions| ==> !Writes(actions[j], id)
            case Some(a) => k < |actions| && actions[k] == a && Writes(a, id)
                            && forall j :: k < j < |actions| ==> !Writes(actions[j], id)
  {
    k := 0;
    if actions != [] {
      var n := |actions| - 1;
      if Writes(actions[n], id) {
        k := n;
      } else {
        k := LastWordIs(actions[..n], id);
      }
    }
  }

  /** The row says what the action has done. */
  predicate Says(row: Row, a: Action) {
    match a
    case Exits(_, success, summary) =>
      row.status == (if success then RowCompleted else RowFailed) && row.summary == Some(summary)
    case CancelWrites(_, reason) => row.status == RowCancelled && row.summary == Some(reason)
    case _ => false
  }

  /** Once a process has been seen to end, its row says what the last to write it has done. */
  predicate RowIsWord(k: Tasks, actions: seq<Action>, id: Id) {
    id in k.monitors && k.monitors[id] != Watching ==>
      id in k.db && LastWord(actions, id).Some? && Says(k.db[id], LastWord(actions, id).value)
  }

  ghost predicate RowsAreWords(k: Tasks, actions: seq<Action>) {
    forall id :: RowIsWord(k, actions, id)
  }

  /** One step of a monitor or of `cancel`. */
  lemma TaskKeepsWord(k: Tasks, pc: Pc, actions: seq<Action>, a: Action, id: Id)
    requires RowIsWord(k, actions, id) && Tracked(k, pc, id) && !a.Loop? && !a.SpawnFails?
    requires (a.Exits? || a.Withdraw? || a.Notify? || a.Unmap?) ==> a.id in k.monitors
    requires (a.Withdraw? || a.Notify? || a.Unmap?) ==> k.monitors[a.id] != Watching
    ensures RowIsWord(TaskStep(k, a), actions + [a], id)
  {
    LastWordNext(actions, a, id);
    hide LastWord;
  }

  /** Launching writes no row that a monitor has written. */
  lemma LaunchKeepsWord(c: Config, s: State, q: seq<Id>, actions: seq<Action>, id: Id)
    requires RowIsWord(s.tasks, actions, id) && q != []
    requires q[0] !in s.tasks.monitors || s.pc.Launch?
    ensures RowIsWord(LaunchStep(c, s, q), actions + [Loop], id)
  {
    hide Prompt;
    LastWordNext(actions, Loop, id);
    hide LastWord;
  }

  /** The step that is being launched has no monitor yet. */
  lemma LaunchedIsUnmonitored(c: Config, s: State)
    requires Planned(c, s) && AllAgreed(s) && (s.pc.Mapped? || s.pc.Entered? || s.pc.Marked?)
    ensures s.pc.queue != [] && s.pc.queue[0] !in s.tasks.monitors
  {
    hide Consistent, Distinct;
    var q := s.pc.queue;
    assert q[0] in q && IsIn(s.sched, q[0], Ready) && Agreed(s.tasks, s.sched, s.pc, q[0]);
  }

  lemma SameKeepsWord(k: Tasks, t: Tasks, actions: seq<Action>, a: Action, id: Id)
    requires RowIsWord(k, actions, id) && t.monitors == k.monitors && t.db == k.db && (a.Loop? || a.SpawnFails?)
    ensures RowIsWord(t, actions + [a], id)
  {
    LastWordNext(actions, a, id);
    hide LastWord;
  }

  lemma LoopKeepsWord(c: Config, s: State, actions: seq<Action>, id: Id)
    requires Planned(c, s) && AllAgreed(s) && RowIsWord(s.tasks, actions, id) && LoopEnabled(c, s)
    ensures RowIsWord(LoopStep(c, s).tasks, actions + [Loop], id)
  {
    hide RowIsWord, Planned, AllAgreed, Select, AllTerminal, LaunchStep, Completing, Failing, BlockedBy;
    if s.pc.Mapped? || s.pc.Entered? || s.pc.Marked? {
      LaunchedIsUnmonitored(c, s);
      LaunchKeepsWord(c, s, s.pc.queue, actions, id);
    } else if s.pc.Launch? && s.pc.queue != [] {
      LaunchKeepsWord(c, s, s.pc.queue, actions, id);
    } else {
      SameKeepsWord(s.tasks, LoopStep(c, s).tasks, actions, Loop, id);
    }
  }

  lemma StepKeepsWords(c: Config, s: State, a: Action, actions: seq<Action>)
    requires Safe(c, s) && RowsAreWords(s.tasks, actions) && Enabled(c, s, a)
    ensures RowsAreWords(Apply(c, s, a).tasks, actions + [a])
  {
    hide RowIsWord, Planned, AllAgreed, Logged, Prompted, LoopStep, TaskStep, Tracked, Failing, BlockedBy;
    var t := Apply(c, s, a).tasks;
    forall id ensures RowIsWord(t, actions + [a], id) {
      assert RowIsWord(s.tasks, actions, id) && Tracked(s.tasks, s.pc, id);
      match a
      case Loop => LoopKeepsWord(c, s, actions, id);
      case SpawnFails(_) => SameKeepsWord(s.tasks, t, actions, a, id);
      case _ => TaskKeepsWord(s.tasks, s.pc, actions, a, id);
    }
  }

  lemma {:induction false} RunsKeepWords(c: Config, states: seq<State>, actions: seq<Action>, i: nat)
    requires Accepted(c) && Run(c, states, actions) && i < |states|
    ensures RowsAreWords(states[i].tasks, actions[..i])
  {
    hide Accepted, Safe, Enabled, Apply;
    if i > 0 {
      RunsKeepWords(c, states, actions, i - 1);
      RunsAreSafe(c, states, actions, i - 1);
      assert Enabled(c, states[i - 1], actions[i - 1]);
      StepKeepsWords(c, states[i - 1], actions[i - 1], actions[..i - 1]);
      assert actions[..i] == actions[..i - 1] + [actions[i - 1]];
    }
  }

  // ----- how far a subagent has come

  /** A row is pending only until `spawn` has written it a second time, and running only until its process ends. */
  predicate RowInTime(k: Tasks, pc: Pc, id: Id) {
    && (id in k.db && k.db[id].status == RowPending ==> pc.Entered? && HeadOf(pc.queue, id))
    && (id in k.db && k.db[id].status == RowRunning ==>
          (pc.Marked? && HeadOf(pc.queue, id)) || AtStage(k, id, Watching))
  }

  ghost predicate RowsInTime(s: State) {
    forall id :: RowInTime(s.tasks, s.pc, id)
  }

  lemma TaskKeepsTime(k: Tasks, pc: Pc, a: Action, id: Id)
    requires RowInTime(k, pc, id) && !a.Loop? && !a.SpawnFails?
    requires pc.Marked? && HeadOf(pc.queue, id) ==> id !in k.monitors
    requires (a.Exits? || a.Withdraw? || a.Notify? || a.Unmap?) ==> a.id in k.monitors
    requires (a.Withdraw? || a.Notify? || a.Unmap?) ==> k.monitors[a.id] != Watching
    ensures RowInTime(TaskStep(k, a), pc, id)
  {
  }

  lemma LaunchKeepsTime(c: Config, s: State, id: Id)
    requires RowInTime(s.tasks, s.pc, id) && (s.pc.Mapped? || s.pc.Entered? || s.pc.Marked?) && s.pc.queue != []
    ensures RowInTime(LoopStep(c, s).tasks, LoopStep(c, s).pc, id)
  {
    hide Prompt;
  }

  lemma QuietKeepsTime(k: Tasks, pc: Pc, t: Tasks, next: Pc, id: Id)
    requires RowInTime(k, pc, id) && !pc.Entered? && !pc.Marked? && t.db == k.db && t.monitors == k.monitors
    ensures RowInTime(t, next, id)
  {
  }

  lemma LoopKeepsTime(c: Config, s: State, id: Id)
    requires Planned(c, s) && RowInTime(s.tasks, s.pc, id) && LoopEnabled(c, s)
    ensures RowInTime(LoopStep(c, s).tasks, LoopStep(c, s).pc, id)
  {
    hide RowInTime, Select, AllTerminal, Completing, Failing, BlockedBy, Prompt, Spawnable, Consistent, Distinct;
    if s.pc.Mapped? || s.pc.Entered? || s.pc.Marked? {
      LaunchKeepsTime(c, s, id);
    } else {
      QuietKeepsTime(s.tasks, s.pc, LoopStep(c, s).tasks, LoopStep(c, s).pc, id);
    }
  }

  lemma StepKeepsTime(c: Config, s: State, a: Action)
    requires Safe(c, s) && RowsInTime(s) && Enabled(c, s, a)
    ensures RowsInTime(Apply(c, s, a))
  {
    hide RowInTime, Planned, AllTracked, AllAgreed, Logged, Prompted, LoopStep, TaskStep, Failing, BlockedBy;
    var t := Apply(c, s, a);
    if s.pc.Marked? { LaunchedIsUnmonitored(c, s); }
    forall id ensures RowInTime(t.tasks, t.pc, id) {
      assert RowInTime(s.tasks, s.pc, id);
      match a
      case Loop => LoopKeepsTime(c, s, id);
      case SpawnFails(_) => QuietKeepsTime(s.tasks, s.pc, t.tasks, t.pc, id);
      case _ => TaskKeepsTime(s.tasks, s.pc, a, id);
    }
  }

  /** In every run: rows go from pending to running to an ending as their subagents do. */
  lemma {:induction false} RowsKeepTime(c: Config, states: seq<State>, actions: seq<Action>, i: nat)
    requires Accepted(c) && Run(c, states, actions) && i < |states|
    ensures RowsInTime(states[i])
  {
    hide Accepted, Safe, Enabled, Apply;
    if i > 0 {
      RowsKeepTime(c, states, actions, i - 1);
      RunsAreSafe(c, states, actions, i - 1);
      assert Enabled(c, states[i - 1], actions[i - 1]);
      StepKeepsTime(c, states[i - 1], actions[i - 1]);
    }
  }

  // ----- what is reported

  /** Action `j` is the loop looking at what became of `id`. */
  predicate ReadsAt(states: seq<State>, actions: seq<Action>, j: nat, id: Id) {
    && j < |actions| && j < |states| && actions[j] == Loop
    && states[j].pc.Read? && HeadOf(states[j].pc.queue, id)
  }

  /** Action `j` is `spawn` refusing `id`. */
  predicate RefusedAt(states: seq<State>, actions: seq<Action>, j: nat, id: Id, reason: string) {
    && j < |actions| && j < |states| && actions[j] == SpawnFails(reason)
    && states[j].pc.Mapped? && HeadOf(states[j].pc.queue, id)
  }

  /** The event tells what the last word on the step's subagent was. */
  predicate Reports(e: Event, id: Id, word: Action) {
    match word
    case Exits(_, true, summary) => e.StepCompleted? && e.id == id && e.summary == summary
    case Exits(_, false, summary) => e.StepFailed? && e.id == id && e.message == summary
    case CancelWrites(_, reason) => e.StepFailed? && e.id == id && e.message == reason
    case _ => false
  }

  lemma ReadReports(c: Config, s: State, actions: seq<Action>)
    requires Safe(c, s) && RowsAreWords(s.tasks, actions) && s.pc.Read?
    ensures s.pc.queue != []
    ensures var id, t := s.pc.queue[0], LoopStep(c, s).tally.events;
            && LastWord(actions, id).Some? && |t| == |s.tally.events| + 1
            && t[..|s.tally.events|] == s.tally.events && Reports(t[|s.tally.events|], id, LastWord(actions, id).value)
  {
    hide Planned, AllTracked, AllAgreed, Logged, Prompted, LastWord, Completing, Failing, BlockedBy;
    ReadHasEnded(c, s);
    var id := s.pc.queue[0];
    assert RowIsWord(s.tasks, actions, id);
  }

  /** The process of a step whose row is read has been seen to end. */
  lemma ReadHasEnded(c: Config, s: State)
    requires Planned(c, s) && AllTracked(s) && AllAgreed(s) && s.pc.Read?
    ensures s.pc.queue != [] && s.pc.queue[0] in s.tasks.monitors && s.tasks.monitors[s.pc.queue[0]] != Watching
  {
    hide Consistent;
    var id := s.pc.queue[0];
    assert id in s.pc.queue && IsIn(s.sched, id, Running) && id !in s.tasks.running;
    assert Tracked(s.tasks, s.pc, id) && Agreed(s.tasks, s.sched, s.pc, id);
  }

  /** Whenever the loop looks at what became of a step, it sends one event, which tells how its subagent ended. */
  lemma OutcomesAreReported(c: Config, states: seq<State>, actions: seq<Action>, j: nat, id: Id)
    requires Accepted(c) && Run(c, states, actions) && ReadsAt(states, actions, j, id)
    ensures var before, after := states[j].tally.events, states[j + 1].tally.events;
            && LastWord(actions[..j], id).Some? && |after| == |before| + 1
            && after[..|before|] == before && Reports(after[|before|], id, LastWord(actions[..j], id).value)
  {
    hide Accepted, Safe, Reports, RowsAreWords, LoopStep;
    RunsAreSafe(c, states, actions, j);
    RunsKeepWords(c, states, actions, j);
    ReadReports(c, states[j], actions[..j]);
    assert Enabled(c, states[j], actions[j]) && states[j + 1] == Apply(c, states[j], actions[j]);
  }

  /** What brought an event about. */
  ghost predicate Caused(states: seq<State>, actions: seq<Action>, j: nat, e: Event) {
    match e
    case StepCompleted(id, summary, _, _) =>
      ReadsAt(states, actions, j, id) && LastWord(actions[..j], id) == Some(Exits(id, true, summary))
    case StepFailed(id, message, _) =>
      || RefusedAt(states, actions, j, id, message)
      || (ReadsAt(states, actions, j, id) && LastWord(actions[..j], id) == Some(Exits(id, false, message)))
      || (ReadsAt(states, actions, j, id) && LastWord(actions[..j], id) == Some(CancelWrites(id, message)))
    case StepStarted(id) =>
      j < |actions| && j < |states| && actions[j] == Loop && states[j].pc.Watched? && HeadOf(states[j].pc.queue, id)
    case _ => j < |actions| && j < |states| && actions[j] == Loop && states[j].pc.Finished?
  }

  /** Events are only added at the end, one at a time. */
  predicate AddsOne(before: seq<Event>, after: seq<Event>) {
    after == before || (|after| == |before| + 1 && after[..|before|] == before)
  }

  lemma QuietSteps(c: Config, s: State, a: Action)
    requires Planned(c, s) && Enabled(c, s, a) && (a.Loop? ==> !s.pc.Read?)
    ensures var t := Apply(c, s, a).tally.events; var b := s.tally.events;
            && AddsOne(b, t)
            && (t != b ==> match t[|b|]
                           case StepFailed(id, message, _) =>
                             a == SpawnFails(message) && s.pc.Mapped? && HeadOf(s.pc.queue, id)
                           case StepStarted(id) => a == Loop && s.pc.Watched? && HeadOf(s.pc.queue, id)
                           case StepCompleted(_, _, _, _) => false
                           case _ => a == Loop && s.pc.Finished?)
  {
    hide Consistent, Select, AllTerminal, Completing, Failing, BlockedBy, LaunchStep, TaskStep, Distinct;
  }

  lemma StepCauses(c: Config, states: seq<State>, actions: seq<Action>, j: nat)
    requires Accepted(c) && Run(c, states, actions) && j < |actions|
    ensures AddsOne(states[j].tally.events, states[j + 1].tally.events)
    ensures states[j + 1].tally.events != states[j].tally.events ==>
              Caused(states, actions, j, states[j + 1].tally.events[|states[j].tally.events|])
  {
    hide Accepted, LoopStep, LastWord, Planned, AllTracked, AllAgreed, Logged, Prompted, SpawnFailed, TaskStep;
    RunsAreSafe(c, states, actions, j);
    var s, a := states[j], actions[j];
    assert Enabled(c, s, a) && states[j + 1] == Apply(c, s, a);
    if a.Loop? && s.pc.Read? {
      ReadIsOf(c, s);
      OutcomesAreReported(c, states, actions, j, s.pc.queue[0]);
      var k := LastWordIs(actions[..j], s.pc.queue[0]);
    } else {
      QuietSteps(c, s, a);
    }
  }

  lemma ReadIsOf(c: Config, s: State)
    requires Planned(c, s) && s.pc.Read?
    ensures s.pc.queue != []
  {
    hide Consistent;
  }

  /**
   * In every run: a completion was reported because the last word on the subagent was that its
   * process exited with code 0, with that summary; a failure because it was another exit or a
   * cancellation, with that message, or because `spawn` refused the step with it.
   */
  lemma {:induction false} EventsHaveCauses(c: Config, states: seq<State>, actions: seq<Action>, i: nat, k: nat)
    returns (j: nat)
    requires Accepted(c) && Run(c, states, actions) && i < |states| && k < |states[i].tally.events|
    ensures j < i && Caused(states, actions, j, states[i].tally.events[k])
    ensures states[j + 1].tally.events == states[i].tally.events[..k + 1]
  {
    hide Accepted, Caused, Trace, Init;
    StartsSilent(c);
    if i > 0 {
      assert i - 1 < |actions| by { TraceLength(c, states, actions); }
      StepCauses(c, states, actions, i - 1);
      var before, now := states[i - 1].tally.events, states[i].tally.events;
      if k < |before| {
        j := EventsHaveCauses(c, states, actions, i - 1, k);
        assert now[..k + 1] == before[..k + 1] && now[k] == before[k];
      } else {
        j := i - 1;
        assert now[..k + 1] == now;
      }
    }
  }

  lemma StartsSilent(c: Config)
    ensures Init(c).tally.events == []
  {
  }

  lemma TraceLength(c: Config, states: seq<State>, actions: seq<Action>)
    requires Run(c, states, actions)
    ensures |states| == |actions| + 1
  {
    hide Enabled, Apply;
  }
}
