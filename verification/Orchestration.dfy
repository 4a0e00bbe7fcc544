/**
 * The orchestration protocol of `SubagentManager`: the scheduling loop of `run_orchestration`,
 * one monitor task for each subagent, and `cancel` calls, as interleaved atomic steps on the
 * `running` map, the subagent rows of the database, the subagent-to-orchestration map and the
 * one-permit `Notify` that wakes the loop. A subagent is named by the step it runs.
 */
module Orchestration {
  import opened Options
  import opened DependencyGraph
  import opened DagValidation
  import opened DagScheduler

  /** What an orchestration is created from, and the size of the subagent pool. */
  datatype Config = Config(
    steps: seq<Id>,
    deps: Deps,
    prompts: map<Id, string>,
    unapprovable: set<Id>,  // steps that ask for auto-approval and allow no tools
    capacity: nat)

  /** A configuration that `DagScheduler::new` accepts, with an entry for each step. */
  ghost predicate Accepted(c: Config) {
    && Distinct(c.steps) && Known(c.steps, c.deps) && Acyclic(c.deps)
    && c.deps.Keys == Elements(c.steps) && c.prompts.Keys == Elements(c.steps)
  }

  datatype Status = RowPending | RowRunning | RowCompleted | RowFailed | RowCancelled

  predicate Over(status: Status) {
    status == RowCompleted || status == RowFailed || status == RowCancelled
  }

  /** A row of the `subagents` table. */
  datatype Row = Row(prompt: string, status: Status, summary: Option<string>)

  /** How far a subagent's monitor task has come. */
  datatype Monitor =
    | Watching   // the process has not been seen to exit
    | Recorded   // the final status is in the database
    | Withdrawn  // the subagent has left the `running` map
    | Notified   // the orchestration has been notified
    | Gone       // the subagent has left the orchestration map

  datatype Event =
    | StepStarted(id: Id)
    | StepCompleted(id: Id, summary: string, count: nat, total: nat)
    | StepFailed(id: Id, message: string, blocked: set<Id>)
    | AllCompleted(total: nat, succeeded: nat)
    | SomeFailed(completed: nat, failed: nat)

  /** Where the scheduling loop is; `queue` holds the steps its current `for` loop has not finished. */
  datatype Pc =
    | Top                       // about to ask for ready steps
    | WaitIdle                  // waiting with nothing to launch
    | Launch(queue: seq<Id>)    // about to launch the first step of the queue
    | Mapped(queue: seq<Id>)    // its subagent is in the orchestration map
    | Entered(queue: seq<Id>)   // and in the `running` map
    | Marked(queue: seq<Id>)    // and its row says it is running
    | Watched(queue: seq<Id>)   // and its monitor task has been started
    | Launched                  // everything ready has been launched
    | WaitStep                  // waiting for a running step
    | Scan(queue: seq<Id>)      // about to look at the first step of the queue
    | Read(queue: seq<Id>)      // its subagent was not running: about to read its row
    | Finished                  // out of the loop
    | Ended                     // the final event has been sent

  /** What the monitors, `cancel` and the loop share. */
  datatype Tasks = Tasks(
    running: set<Id>,                   // the `running` map
    mapped: set<Id>,                    // the map from subagents to their orchestration
    db: map<Id, Row>,                   // the `subagents` table
    monitors: map<Id, Monitor>,
    cancels: multiset<(Id, string)>)    // `cancel` calls that have yet to write their row

  /** The loop's own counters, the results it has collected, and the events it has sent. */
  datatype Tally = Tally(completed: nat, failed: nat, results: map<Id, string>, events: seq<Event>)

  datatype State = State(
    sched: Sched,
    pc: Pc,
    tally: Tally,
    tasks: Tasks,
    registered: bool,                   // the orchestration can be notified
    permit: bool)                       // a notification is waiting

  function Init(c: Config): State {
    State(Initial(c.steps, c.deps), Top, Tally(0, 0, map[], []),
          Tasks({}, {}, map[], map[], multiset{}), true, false)
  }

  datatype Action =
    | Loop                                             // the loop takes its next step; spawning succeeds
    | SpawnFails(reason: string)                       // the loop's call of `spawn` returns an error
    | Exits(id: Id, success: bool, summary: string)    // a monitor records how its process ended
    | Withdraw(id: Id)
    | Notify(id: Id)
    | Unmap(id: Id)
    | CancelBegins(id: Id, reason: string)             // `cancel` has found the subagent running
    | CancelWrites(id: Id, reason: string)             // and now writes its row

  /** The results of a step's dependencies, in the order in which they are listed, before its own prompt. */
  function Context(deps: seq<Id>, results: map<Id, string>): string {
    if deps == [] then ""
    else
      var last := deps[|deps| - 1];
      Context(deps[..|deps| - 1], results)
      + if last in results then "[Context from step " + last.name + "]: " + results[last] + "\n\n" else ""
  }

  function Prompt(c: Config, results: map<Id, string>, id: Id): string {
    Context(DepsOf(c.deps, id), results) + if id in c.prompts then c.prompts[id] else ""
  }

  /** `unwrap_or_default` and `unwrap_or` on a row's summary. */
  function SummaryOr(row: Row, default: string): string {
    if row.summary.Some? then row.summary.value else default
  }

  ghost predicate Enabled(c: Config, s: State, a: Action) {
    match a
    case Loop => LoopEnabled(c, s)
    case SpawnFails(_) => s.pc.Mapped? && s.pc.queue != []
    case Exits(id, _, _) => AtStage(s.tasks, id, Watching)
    case Withdraw(id) => AtStage(s.tasks, id, Recorded)
    case Notify(id) => AtStage(s.tasks, id, Withdrawn)
    case Unmap(id) => AtStage(s.tasks, id, Notified)
    case CancelBegins(id, _) => id in s.tasks.running
    case CancelWrites(id, reason) => (id, reason) in s.tasks.cancels
  }

  predicate LoopEnabled(c: Config, s: State) {
    match s.pc
    case WaitIdle => s.permit
    case WaitStep => s.permit
    case Mapped(q) => q != [] && Spawnable(c, s, q[0])
    case Ended => false
    case _ => true
  }

  /** The permits of the pool are held by subagents whose monitors have not finished. */
  function Held(k: Tasks): set<Id> {
    set x | x in k.monitors && k.monitors[x] != Gone
  }

  /** `spawn` refuses an empty prompt, auto-approval without allowed tools, and a full pool. */
  predicate Spawnable(c: Config, s: State, id: Id) {
    Prompt(c, s.tally.results, id) != "" && id !in c.unapprovable && |Held(s.tasks)| < c.capacity
  }

  predicate AtStage(k: Tasks, id: Id, m: Monitor) {
    id in k.monitors && k.monitors[id] == m
  }

  ghost function Apply(c: Config, s: State, a: Action): State
    requires Enabled(c, s, a)
  {
    match a
    case Loop => LoopStep(c, s)
    case SpawnFails(reason) => SpawnFailed(c, s, s.pc.queue, reason)
    case Notify(id) =>
      s.(permit := s.permit || (id in s.tasks.mapped && s.registered), tasks := TaskStep(s.tasks, a))
    case _ => s.(tasks := TaskStep(s.tasks, a))
  }

  function Write(db: map<Id, Row>, id: Id, status: Status, summary: Option<string>): map<Id, Row> {
    if id in db then db[id := db[id].(status := status, summary := summary)] else db
  }

  /** What monitors and `cancel` do to the shared maps. */
  function TaskStep(k: Tasks, a: Action): Tasks {
    match a
    case Exits(id, success, summary) =>
      k.(db := Write(k.db, id, if success then RowCompleted else RowFailed, Some(summary)),
         monitors := k.monitors[id := Recorded])
    case Withdraw(id) => k.(running := k.running - {id}, monitors := k.monitors[id := Withdrawn])
    case Notify(id) => k.(monitors := k.monitors[id := Notified])
    case Unmap(id) => k.(mapped := k.mapped - {id}, monitors := k.monitors[id := Gone])
    case CancelBegins(id, reason) => k.(cancels := k.cancels + multiset{(id, reason)})
    case CancelWrites(id, reason) =>
      k.(db := Write(k.db, id, RowCancelled, Some(reason)), cancels := k.cancels - multiset{(id, reason)})
    case _ => k
  }

  ghost function LoopStep(c: Config, s: State): State {
    match s.pc
    case Top => s.(pc := AfterTop(c, s))
    case WaitIdle => s.(permit := false, pc := Top)
    case Launch(q) => if q == [] then s.(pc := Launched) else s.(tasks := LaunchStep(c, s, q), pc := Mapped(q))
    case Mapped(q) => if q == [] then s else s.(tasks := LaunchStep(c, s, q), pc := Entered(q))
    case Entered(q) => if q == [] then s else s.(tasks := LaunchStep(c, s, q), pc := Marked(q))
    case Marked(q) => if q == [] then s else s.(tasks := LaunchStep(c, s, q), pc := Watched(q))
    case Watched(q) =>
      if q == [] then s
      else s.(tally := Log(s.tally, StepStarted(q[0])), sched := Starting(s.sched, q[0]), pc := Launch(q[1..]))
    case Launched => if Select(c.steps, s.sched.states, Running) == [] then s.(pc := Scan([])) else s.(pc := WaitStep)
    case WaitStep => s.(permit := false, pc := Scan(Select(c.steps, s.sched.states, Running)))
    case Scan(q) => s.(pc := AfterScan(s, q))
    case Read(q) => if q == [] then s else ReadStep(c, s, q)
    case Finished => s.(tally := Log(s.tally, FinalEvent(c, s.tally)), registered := false, pc := Ended)
    case Ended => s
  }

  function Log(tally: Tally, event: Event): Tally {
    tally.(events := tally.events + [event])
  }

  ghost function AfterTop(c: Config, s: State): Pc {
    var ready := Select(c.steps, s.sched.states, Ready);
    if ready == [] && !AllTerminal(s.sched) && s.tally.failed == 0 then WaitIdle
    else if ready == [] then Finished
    else Launch(ready)
  }

  function AfterScan(s: State, q: seq<Id>): Pc {
    if q == [] then Top else if q[0] in s.tasks.running then Scan(q[1..]) else Read(q)
  }

  /** Launching the first step of the queue, one shared map at a time. */
  function LaunchStep(c: Config, s: State, q: seq<Id>): Tasks
    requires q != []
  {
    var k, id := s.tasks, q[0];
    match s.pc
    case Launch(_) => k.(mapped := k.mapped + {id})
    case Mapped(_) =>
      k.(running := k.running + {id}, db := k.db[id := Row(Prompt(c, s.tally.results, id), RowPending, None)])
    case Entered(_) => k.(db := if id in k.db then k.db[id := k.db[id].(status := RowRunning)] else k.db)
    case Marked(_) => k.(monitors := k.monitors[id := Watching])
    case _ => k
  }

  /** `spawn` has returned an error: the step is taken out of the orchestration map again. */
  ghost function SpawnFailed(c: Config, s: State, q: seq<Id>, reason: string): State
    requires q != []
  {
    FailStep(c, s.(tasks := s.tasks.(mapped := s.tasks.mapped - {q[0]})), q[0], reason, Launch(q[1..]))
  }

  /** The first step of the queue has left the `running` map: what became of it is in the database. */
  ghost function ReadStep(c: Config, s: State, q: seq<Id>): State
    requires q != []
  {
    if q[0] !in s.tasks.db then s.(pc := Scan(q[1..]))
    else
      var row := s.tasks.db[q[0]];
      if row.status == RowCompleted then CompleteStep(c, s, q[0], SummaryOr(row, ""), Scan(q[1..]))
      else if row.status == RowFailed || row.status == RowCancelled then
        FailStep(c, s, q[0], SummaryOr(row, "Unknown failure"), Scan(q[1..]))
      else s.(pc := Scan(q[1..]))  // still pending or unknown
  }

  ghost function CompleteStep(c: Config, s: State, id: Id, summary: string, pc: Pc): State {
    var n := s.tally.completed + 1;
    s.(sched := Completing(c.deps, s.sched, id),
       tally := Log(s.tally.(completed := n, results := s.tally.results[id := summary]),
                    StepCompleted(id, summary, n, |c.steps|)),
       pc := pc)
  }

  /** A step has failed, in its process or before that could be started. */
  ghost function FailStep(c: Config, s: State, id: Id, message: string, pc: Pc): State {
    s.(sched := Failing(c.deps, s.sched, id),
       tally := Log(s.tally.(failed := s.tally.failed + 1),
                    StepFailed(id, message, BlockedBy(c.deps, s.sched, id))),
       pc := pc)
  }

  function FinalEvent(c: Config, tally: Tally): Event {
    if tally.failed > 0 then SomeFailed(tally.completed, tally.failed) else AllCompleted(|c.steps|, tally.completed)
  }

  /** Actions taken one after the other, and the states around them. */
  ghost predicate Trace(c: Config, states: seq<State>, actions: seq<Action>) {
    && |states| == |actions| + 1
    && (forall i :: 0 <= i < |actions| ==> Enabled(c, states[i], actions[i]))
    && (forall i :: 0 <= i < |actions| ==> states[i + 1] == Apply(c, states[i], actions[i]))
  }

  /** A run of the whole system from its start. */
  ghost predicate Run(c: Config, states: seq<State>, actions: seq<Action>) {
    Trace(c, states, actions) && states[0] == Init(c)
  }
}
