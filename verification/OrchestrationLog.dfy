/** The events an orchestration sends, its counters, and the prompts its subagents are given. */
module OrchestrationLog {
  import opened DependencyGraph
  import opened DagValidation
  import opened DagScheduler
  import opened SchedulerLaws
  import opened Orchestration
  import opened OrchestrationSafety

  function StartedIn(events: seq<Event>): set<Id> {
    if events == [] then {}
    else
      var last := events[|events| - 1];
      StartedIn(events[..|events| - 1]) + if last.StepStarted? then {last.id} else {}
  }

  function CompletedIn(events: seq<Event>): set<Id> {
    if events == [] then {}
    else
      var last := events[|events| - 1];
      CompletedIn(events[..|events| - 1]) + if last.StepCompleted? then {last.id} else {}
  }

  function FailedIn(events: seq<Event>): set<Id> {
    if events == [] then {}
    else
      var last := events[|events| - 1];
      FailedIn(events[..|events| - 1]) + if last.StepFailed? then {last.id} else {}
  }

  /** The steps reported as blocked by a failure. */
  function BlockedIn(events: seq<Event>): set<Id> {
    if events == [] then {}
    else
      var last := events[|events| - 1];
      BlockedIn(events[..|events| - 1]) + if last.StepFailed? then last.blocked else {}
  }

  predicate IsFinal(e: Event) {
    e.AllCompleted? || e.SomeFailed?
  }

  /** What may be sent after `before`: every step starts once and ends once, and completions are numbered. */
  predicate Follows(c: Config, before: seq<Event>, e: Event) {
    && (forall i :: 0 <= i < |before| ==> !IsFinal(before[i]))
    && match e
       case StepStarted(id) =>
         && id !in StartedIn(before) && id !in CompletedIn(before) && id !in FailedIn(before) && id !in BlockedIn(before)
         && (forall y :: y in DepsOf(c.deps, id) ==> y in CompletedIn(before))
       case StepCompleted(id, _, count, of) =>
         && id in StartedIn(before) && id !in CompletedIn(before) && id !in FailedIn(before)
         && count == |CompletedIn(before)| + 1 <= of == |c.steps|
       case StepFailed(id, _, blocked) =>
         && id !in CompletedIn(before) && id !in FailedIn(before) && id !in BlockedIn(before)
         && blocked !! StartedIn(before) && blocked !! FailedIn(before) + {id} && blocked !! BlockedIn(before)
       case AllCompleted(of, succeeded) =>
         of == succeeded == |c.steps| == |CompletedIn(before)| && FailedIn(before) == {}
       case SomeFailed(completed, failed) =>
         completed == |CompletedIn(before)| && failed == |FailedIn(before)| > 0
  }

  predicate Lawful(c: Config, events: seq<Event>) {
    forall i :: 0 <= i < |events| ==> Follows(c, events[..i], events[i])
  }

  lemma LawfulPush(c: Config, events: seq<Event>, e: Event)
    requires Lawful(c, events) && Follows(c, events, e)
    ensures Lawful(c, events + [e])
    ensures StartedIn(events + [e]) == if e.StepStarted? then StartedIn(events) + {e.id} else StartedIn(events)
    ensures CompletedIn(events + [e]) == if e.StepCompleted? then CompletedIn(events) + {e.id} else CompletedIn(events)
    ensures FailedIn(events + [e]) == if e.StepFailed? then FailedIn(events) + {e.id} else FailedIn(events)
    ensures BlockedIn(events + [e]) == if e.StepFailed? then BlockedIn(events) + e.blocked else BlockedIn(events)
  {
    hide Follows;
    var more := events + [e];
    assert more[..|events|] == events;
    forall i | 0 <= i < |more| ensures Follows(c, more[..i], more[i]) {
      if i < |events| {
        assert more[..i] == events[..i] && more[i] == events[i];
      }
    }
  }

  ghost function StepsIn(s: Sched, state: StepState): set<Id> {
    set x | x in s.states && s.states[x] == state
  }

  /** The steps whose monitors the loop has announced. */
  ghost function Announced(s: State): set<Id> {
    set x | x in s.tasks.monitors && !BeingAnnounced(s.pc, x)
  }

  /** The result kept for a completed step is the one it was announced with. */
  predicate Kept(results: map<Id, string>, events: seq<Event>) {
    forall i :: 0 <= i < |events| && events[i].StepCompleted? ==>
      events[i].id in results && results[events[i].id] == events[i].summary
  }

  lemma KeptPush(results: map<Id, string>, events: seq<Event>, id: Id, e: Event)
    requires Kept(results, events) && id !in results && e.StepCompleted? && e.id == id
    ensures Kept(results[id := e.summary], events + [e])
  {
  }

  /** The counters, results and events of the loop tell of the same steps. */
  ghost predicate Ledger(c: Config, t: Tally, started: set<Id>, completed: set<Id>, failed: set<Id>,
                         blocked: set<Id>, over: bool) {
    && Lawful(c, t.events)
    && StartedIn(t.events) == started && BlockedIn(t.events) == blocked
    && CompletedIn(t.events) == completed == t.results.Keys && t.completed == |completed|
    && FailedIn(t.events) == failed && t.failed == |failed|
    && Kept(t.results, t.events)
    && (if over then t.events != [] && IsFinal(t.events[|t.events| - 1])
        else forall i :: 0 <= i < |t.events| ==> !IsFinal(t.events[i]))
  }

  /** They also agree with the scheduler and the monitors. */
  ghost predicate Logged(c: Config, s: State) {
    Ledger(c, s.tally, Announced(s), StepsIn(s.sched, Completed), StepsIn(s.sched, Failed),
           StepsIn(s.sched, Blocked), s.pc.Ended?)
  }

  lemma LedgerStart(c: Config, t: Tally, started: set<Id>, completed: set<Id>, failed: set<Id>, blocked: set<Id>, id: Id)
    requires Ledger(c, t, started, completed, failed, blocked, false)
    requires id !in started && id !in completed && id !in failed && id !in blocked
    requires forall y :: y in DepsOf(c.deps, id) ==> y in completed
    ensures Ledger(c, Log(t, StepStarted(id)), started + {id}, completed, failed, blocked, false)
  {
    hide Lawful, StartedIn, CompletedIn, FailedIn, BlockedIn;
    LawfulPush(c, t.events, StepStarted(id));
  }

  lemma CompletionFollows(c: Config, t: Tally, started: set<Id>, completed: set<Id>, failed: set<Id>, blocked: set<Id>,
                          e: Event)
    requires Ledger(c, t, started, completed, failed, blocked, false)
    requires e.StepCompleted? && e.count == t.completed + 1 && e.total == |c.steps|
    requires e.id in started && e.id !in completed && e.id !in failed && |completed| < |c.steps|
    ensures Follows(c, t.events, e)
  {
    hide Lawful, StartedIn, CompletedIn, FailedIn, BlockedIn, Kept;
  }

  lemma FinalFollows(c: Config, t: Tally, started: set<Id>, completed: set<Id>, failed: set<Id>, blocked: set<Id>,
                     e: Event)
    requires Ledger(c, t, started, completed, failed, blocked, false)
    requires t.failed == 0 ==> |completed| == |c.steps|
    requires e == if t.failed > 0 then SomeFailed(t.completed, t.failed) else AllCompleted(|c.steps|, t.completed)
    ensures Follows(c, t.events, e)
  {
    hide Lawful, StartedIn, CompletedIn, FailedIn, BlockedIn, Kept;
  }

  lemma LedgerComplete(c: Config, t: Tally, started: set<Id>, completed: set<Id>, failed: set<Id>, blocked: set<Id>,
                       id: Id, summary: string)
    requires Ledger(c, t, started, completed, failed, blocked, false)
    requires id in started && id !in completed && id !in failed && |completed| < |c.steps|
    ensures var n := t.completed + 1;
            Ledger(c, Log(t.(completed := n, results := t.results[id := summary]), StepCompleted(id, summary, n, |c.steps|)),
                   started, completed + {id}, failed, blocked, false)
  {
    hide Lawful, StartedIn, CompletedIn, FailedIn, BlockedIn, Follows;
    var e := StepCompleted(id, summary, t.completed + 1, |c.steps|);
    CompletionFollows(c, t, started, completed, failed, blocked, e);
    LawfulPush(c, t.events, e);
    KeptPush(t.results, t.events, id, e);
    hide Kept;
  }

  lemma LedgerFail(c: Config, t: Tally, started: set<Id>, completed: set<Id>, failed: set<Id>, blocked: set<Id>,
                   id: Id, message: string, more: set<Id>)
    requires Ledger(c, t, started, completed, failed, blocked, false)
    requires id !in completed && id !in failed && id !in blocked
    requires more !! started && more !! failed + {id} && more !! blocked
    ensures Ledger(c, Log(t.(failed := t.failed + 1), StepFailed(id, message, more)),
                   started, completed, failed + {id}, blocked + more, false)
  {
    hide Lawful, StartedIn, CompletedIn, FailedIn, BlockedIn;
    LawfulPush(c, t.events, StepFailed(id, message, more));
  }

  lemma LedgerEnd(c: Config, t: Tally, started: set<Id>, completed: set<Id>, failed: set<Id>, blocked: set<Id>, e: Event)
    requires Ledger(c, t, started, completed, failed, blocked, false)
    requires t.failed == 0 ==> |completed| == |c.steps|
    requires e == if t.failed > 0 then SomeFailed(t.completed, t.failed) else AllCompleted(|c.steps|, t.completed)
    ensures Ledger(c, Log(t, e), started, completed, failed, blocked, true)
  {
    hide Lawful, StartedIn, CompletedIn, FailedIn, BlockedIn, Follows;
    FinalFollows(c, t, started, completed, failed, blocked, e);
    LawfulPush(c, t.events, e);
  }

  lemma OthersKeepRecord(c: Config, s: State, a: Action)
    requires Logged(c, s) && Enabled(c, s, a) && !a.Loop? && !a.SpawnFails?
    ensures Logged(c, Apply(c, s, a))
  {
    hide Ledger;
    var t := Apply(c, s, a);
    assert t.tasks.monitors.Keys == s.tasks.monitors.Keys;
    assert Announced(t) == Announced(s);
  }

  /** Steps of the loop that send no event. */
  lemma QuietKeepsRecord(c: Config, s: State)
    requires Logged(c, s) && Planned(c, s) && AllAgreed(s) && Enabled(c, s, Loop)
    requires !s.pc.Watched? && !s.pc.Read? && !s.pc.Finished?
    ensures Logged(c, LoopStep(c, s))
  {
    hide Ledger, Consistent, Select, AllTerminal, Prompt, Spawnable;
    var t := LoopStep(c, s);
    assert Announced(t) == Announced(s) by {
      if s.pc.Marked? {
        var q := s.pc.queue;
        assert q[0] in q && IsIn(s.sched, q[0], Ready);
        assert Agreed(s.tasks, s.sched, s.pc, q[0]);
      }
    }
  }

  // ----- steps that send an event

  lemma ReadyAfterDependencies(deps: Deps, s: Sched, x: Id)
    requires Consistent(deps, s) && IsIn(s, x, Ready)
    ensures forall y :: y in DepsOf(deps, x) ==> y in StepsIn(s, Completed)
  {
    AgreesIn(deps, s, x);
    hide Consistent;
    DependenciesDone(deps, s, x);
  }

  lemma AnnounceKeepsRecord(c: Config, s: State)
    requires Logged(c, s) && Planned(c, s) && AllAgreed(s) && s.pc.Watched?
    ensures Logged(c, LoopStep(c, s))
  {
    hide Ledger, Consistent, Distinct;
    var q, t := s.pc.queue, LoopStep(c, s);
    assert q[0] in q && IsIn(s.sched, q[0], Ready);
    assert Agreed(s.tasks, s.sched, s.pc, q[0]);
    ReadyAfterDependencies(c.deps, s.sched, q[0]);
    LedgerStart(c, s.tally, Announced(s), StepsIn(s.sched, Completed), StepsIn(s.sched, Failed),
                StepsIn(s.sched, Blocked), q[0]);
    AnnounceMoves(s, t);
  }

  lemma AnnounceMoves(s: State, t: State)
    requires s.pc.Watched? && s.pc.queue != [] && t.pc == Launch(s.pc.queue[1..]) && t.tasks == s.tasks
    requires s.pc.queue[0] in s.tasks.monitors && IsIn(s.sched, s.pc.queue[0], Ready)
    requires t.sched == Starting(s.sched, s.pc.queue[0])
    ensures Announced(t) == Announced(s) + {s.pc.queue[0]}
    ensures forall state :: state != Ready && state != Running ==> StepsIn(t.sched, state) == StepsIn(s.sched, state)
  {
  }

  /** A step's failure, as the scheduler and the log see it. */
  lemma FailureKeepsRecord(c: Config, s: State, u: State, id: Id, message: string, pc: Pc)
    requires Logged(c, s) && Consistent(c.deps, s.sched) && !s.pc.Ended? && !pc.Ended?
    requires IsIn(s.sched, id, Ready) || IsIn(s.sched, id, Running)
    requires forall x :: IsIn(s.sched, x, Pending) ==> x !in Announced(s)
    requires u.tally == s.tally && u.sched == s.sched
    requires Announced(FailStep(c, u, id, message, pc)) == Announced(s)
    ensures Logged(c, FailStep(c, u, id, message, pc))
  {
    hide Ledger, Consistent, Announced;
    FailingSets(c.deps, s.sched, id);
    hide Failing;
    LedgerFail(c, s.tally, Announced(s), StepsIn(s.sched, Completed), StepsIn(s.sched, Failed),
               StepsIn(s.sched, Blocked), id, message, BlockedBy(c.deps, s.sched, id));
  }

  lemma FailingSets(deps: Deps, s: Sched, id: Id)
    requires Consistent(deps, s) && (IsIn(s, id, Ready) || IsIn(s, id, Running))
    ensures var t, blocked := Failing(deps, s, id), BlockedBy(deps, s, id);
            && StepsIn(t, Completed) == StepsIn(s, Completed)
            && StepsIn(t, Failed) == StepsIn(s, Failed) + {id}
            && StepsIn(t, Blocked) == StepsIn(s, Blocked) + blocked
            && (forall x :: x in blocked ==> IsIn(s, x, Pending))
  {
    hide Consistent, DependsOn;
    FailingMoves(deps, s, id);
    BlockedArePending(deps, s, id);
    hide Failing, Done;
  }

  lemma BlockedArePending(deps: Deps, s: Sched, id: Id)
    requires Consistent(deps, s) && (IsIn(s, id, Ready) || IsIn(s, id, Running))
    ensures forall x :: x in BlockedBy(deps, s, id) ==> IsIn(s, x, Pending)
  {
    hide Consistent, DependsOn;
    forall x | x in BlockedBy(deps, s, id) ensures IsIn(s, x, Pending) {
      DownstreamWaits(deps, s, id, x);
    }
  }

  lemma PendingUnannounced(s: State, x: Id)
    requires AllAgreed(s) && IsIn(s.sched, x, Pending)
    ensures x !in Announced(s)
  {
    assert Agreed(s.tasks, s.sched, s.pc, x);
  }

  lemma SpawnFailureKeepsRecord(c: Config, s: State, reason: string)
    requires Logged(c, s) && Planned(c, s) && AllAgreed(s) && Enabled(c, s, SpawnFails(reason))
    ensures Logged(c, Apply(c, s, SpawnFails(reason)))
  {
    hide Logged, Consistent, Failing, BlockedBy, AllAgreed;
    var q := s.pc.queue;
    assert q[0] in q && IsIn(s.sched, q[0], Ready);
    var u := s.(tasks := s.tasks.(mapped := s.tasks.mapped - {q[0]}));
    assert Announced(FailStep(c, u, q[0], reason, Launch(q[1..]))) == Announced(s);
    forall x | IsIn(s.sched, x, Pending) ensures x !in Announced(s) { PendingUnannounced(s, x); }
    FailureKeepsRecord(c, s, u, q[0], reason, Launch(q[1..]));
  }

  lemma CompletionKeepsRecord(c: Config, s: State, id: Id, summary: string, pc: Pc)
    requires Logged(c, s) && Consistent(c.deps, s.sched) && s.sched.states.Keys == Elements(c.steps)
    requires IsIn(s.sched, id, Running) && id in Announced(s) && !s.pc.Ended? && !pc.Ended?
    requires Announced(CompleteStep(c, s, id, summary, pc)) == Announced(s)
    ensures Logged(c, CompleteStep(c, s, id, summary, pc))
  {
    hide Ledger, Consistent, Announced;
    CompletingSets(c.deps, s.sched, id);
    hide Completing;
    FewerThanSteps(c.steps, StepsIn(s.sched, Completed), id);
    LedgerComplete(c, s.tally, Announced(s), StepsIn(s.sched, Completed), StepsIn(s.sched, Failed),
                   StepsIn(s.sched, Blocked), id, summary);
  }

  lemma FewerThanSteps(steps: seq<Id>, some: set<Id>, id: Id)
    requires some <= Elements(steps) && id in Elements(steps) && id !in some
    ensures |some| + 1 <= |steps|
  {
    DistinctCount(steps);
    SubsetSize(some + {id}, Elements(steps));
  }

  lemma CompletingSets(deps: Deps, s: Sched, id: Id)
    requires Consistent(deps, s) && IsIn(s, id, Running)
    ensures var t := Completing(deps, s, id);
            && StepsIn(t, Completed) == StepsIn(s, Completed) + {id}
            && StepsIn(t, Failed) == StepsIn(s, Failed)
            && StepsIn(t, Blocked) == StepsIn(s, Blocked)
  {
    hide Consistent;
    CompletingMoves(deps, s, id);
    hide Completing, Done;
  }

  lemma ReadKeepsRecord(c: Config, s: State)
    requires Logged(c, s) && Planned(c, s) && AllTracked(s) && AllAgreed(s) && s.pc.Read?
    ensures Logged(c, LoopStep(c, s))
  {
    hide Logged, Consistent, Failing, Completing, BlockedBy, AllAgreed, AllTracked;
    var q := s.pc.queue;
    assert q[0] in q && IsIn(s.sched, q[0], Running);
    ReadFindsResult(c, s);
    assert Announced(LoopStep(c, s)) == Announced(s);
    forall x | IsIn(s.sched, x, Pending) ensures x !in Announced(s) { PendingUnannounced(s, x); }
    if s.tasks.db[q[0]].status == RowCompleted {
      CompletionKeepsRecord(c, s, q[0], SummaryOr(s.tasks.db[q[0]], ""), Scan(q[1..]));
    } else {
      FailureKeepsRecord(c, s, s, q[0], SummaryOr(s.tasks.db[q[0]], "Unknown failure"), Scan(q[1..]));
    }
  }

  /** When the scan reads the row of a step that has left the `running` map, the row is final. */
  lemma ReadFindsResult(c: Config, s: State)
    requires Planned(c, s) && AllTracked(s) && AllAgreed(s) && s.pc.Read?
    ensures var id := s.pc.queue[0];
            id in s.tasks.db && Over(s.tasks.db[id].status) && id in Announced(s)
  {
    hide Consistent;
    var id := s.pc.queue[0];
    assert id in s.pc.queue && IsIn(s.sched, id, Running);
    assert Tracked(s.tasks, s.pc, id) && Agreed(s.tasks, s.sched, s.pc, id);
  }

  // ----- the final event

  /** A blocked step has a failed step upstream. */
  lemma BlockedNeedsFailure(deps: Deps, s: Sched)
    requires Consistent(deps, s) && Acyclic(deps) && StepsIn(s, Failed) == {}
    ensures StepsIn(s, Blocked) == {}
  {
    hide Acyclic;
    var blocked := StepsIn(s, Blocked);
    forall x | x in blocked ensures WaitsIn(deps, x, blocked) {
      BlockedWaits(deps, s, x);
    }
    hide WaitsIn;
    TrapIsEmpty(deps, blocked);
  }

  lemma BlockedWaits(deps: Deps, s: Sched, x: Id)
    requires Consistent(deps, s) && StepsIn(s, Failed) == {} && x in StepsIn(s, Blocked)
    ensures WaitsIn(deps, x, StepsIn(s, Blocked))
  {
    AgreesIn(deps, s, x);
    hide Consistent;
    var y :| y in DepsOf(deps, x) && Dead(s.states[y]);
    assert y !in StepsIn(s, Failed);
  }

  lemma FinishKeepsRecord(c: Config, s: State)
    requires Accepted(c) && Logged(c, s) && Planned(c, s) && s.pc.Finished?
    ensures Logged(c, LoopStep(c, s))
  {
    hide Lawful, StartedIn, CompletedIn, FailedIn, BlockedIn, Consistent, Accepted;
    assert Announced(LoopStep(c, s)) == Announced(s);
    if s.tally.failed == 0 {
      FinishedIsComplete(c, s);
    }
    hide Ledger;
    LedgerEnd(c, s.tally, Announced(s), StepsIn(s.sched, Completed), StepsIn(s.sched, Failed),
              StepsIn(s.sched, Blocked), FinalEvent(c, s.tally));
  }

  lemma FinishedIsComplete(c: Config, s: State)
    requires Accepted(c) && Consistent(c.deps, s.sched) && s.sched.states.Keys == Elements(c.steps)
    requires AllTerminal(s.sched) && StepsIn(s.sched, Failed) == {}
    ensures |StepsIn(s.sched, Completed)| == |c.steps|
  {
    hide Consistent, Acyclic;
    BlockedNeedsFailure(c.deps, s.sched);
    forall x | x in s.sched.states ensures x in StepsIn(s.sched, Completed) {
      assert x !in StepsIn(s.sched, Failed) && x !in StepsIn(s.sched, Blocked);
    }
    assert StepsIn(s.sched, Completed) == Elements(c.steps);
    DistinctCount(c.steps);
  }
}
