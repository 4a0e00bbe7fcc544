# Verification of betcode's cores

A Dafny 4.11 model of the parts of betcode whose correctness rests on an invariant: the input line's
word wrapping, the orchestration of subagents, the conversation and its prompts, the base64 codec,
the crypto session and the event stream it protects, fingerprint trust, and the permission rules.
`dafny verify dfyconfig.toml` checks everything.

| files | what they model |
|---|---|
| `WordWrap`, `WrappedCursor` | where the input line wraps, and where the cursor is shown |
| `DependencyGraph`, `DagValidation`, `DagScheduler`, `SchedulerLaws` | the dependency graph of an orchestration, its validation, and the scheduler over it |
| `Orchestration`, `OrchestrationSafety`, `OrchestrationLog`, `OrchestrationRuns`, `OrchestrationOutcomes` | the orchestration protocol as interleaved atomic steps, its safety, and what its events tell |
| `OrchestrationProgress`, `OrchestrationChains`, `OrchestrationTurns`, `OrchestrationStalls` | how runs end, and exactly when they can fail to |
| `Conversation`, `ConversationLaws`, `ConversationResume`, `ConversationTexts` | live handling and replay of agent events |
| `Bytes`, `Utf8`, `PermissionEditor`, `Prompts`, `PromptRuns` | the permission and question prompts and their text editor |
| `InputLine` | the main input line's cursor |
| `App` | the client's state, updated in place by the handlers that the conversation and prompt files specify |
| `JsonStruct` | tool inputs as JSON and as protocol messages |
| `Words`, `Base64` | what shifts and masks do to machine words, and the codec for stored payloads that uses them |
| `CryptoSession`, `EventStream`, `Trust` | nonces and encryption, the decrypting reader, trust on first use |
| `PermissionRules` | the permission rule engine |

The main results, each for all inputs or all runs:

- For every text, the wrapping rules have one solution and the algorithm finds it: every break has a reason, and every
  line fits or is a single character wider than a line. All lines fit exactly if no character of a word is wider than
  a line; breaks are strictly inside the text exactly if every word that starts with such a character follows a line
  of whitespace that shows nothing.
- In every interleaving of the scheduling loop, the monitors and `cancel`, the events of an orchestration are in
  order and counted right, prompts hold the results of all dependencies in the order listed, and a subagent that is no
  longer running has a final status. A completion is reported only of a process that exited with code 0, a failure only
  of another exit, a cancellation or a refused spawn, with the words of the last that wrote the row. The work of a run
  is bounded.
- An orchestration is stallable if some steps can be held running together, with every step that `spawn` is certain to
  refuse waiting for one of them, while another step wakes the loop: the `continue` after the first wait of the loop
  skips the scan, so a loop that gets there never looks at a subagent again. Some run stalls if the pool has room for
  the held steps and one more, and none does if it has no room for the held ones. Where nothing is refused, some run
  stalls exactly if the pool has any room and two steps do not depend on one another. When a run has nothing left to
  do, it has ended exactly if it never stalled.
- Live handling and replay of a log agree after every entry exactly if no entry is an empty completing text delta on a
  streaming message, an empty user input, or a turn's end with a pending command whose effect shows. Once settled, a
  resumed conversation shows what was on the screen exactly if no text completed by an empty delta is followed by more
  text before anything else is shown.
- Both show every line of the log in order, with each text put together from its deltas in order.
- Permission responses answer requests in order and at most once; a request can still be answered exactly in the
  permission modes, so that a question arriving over a request strands it, and a request over a question likewise.
- A run of keys in an empty main input line panics exactly if it types a character of several bytes.
- `decode(encode(d)) = d`, with the accepted inputs and their canonical form described exactly, for the code's own
  shifts, masks and ors on 32-bit words.
- Nonces of a session never repeat, whatever threads load and whichever exchanges fail. While a session is active,
  every event delivered was sealed for it, in the order sent, and plaintext never arrives.
- A session is still trusted exactly if, since it was installed, its machine was not forgotten and no other fingerprint
  was the last to be accepted for it. A relay converses exactly if keys were exchanged since it was last connected.
- The rule engine answers by the rule that ranks first among those meant for the request, however rules were added.

Where code and documentation differ the model follows the code: `validate_dag` reports a repeated step as a cycle;
`load_history_event` says all messages are added as non-streaming, but text stays streaming until something finishes
it; a wrapped line may start with a break at its very beginning when one character is wider than the line; a path
pattern that ends in `/**` also matches paths beside the directory whose names begin like it.

## Model

| member | source | states |
|---|---|---|
| `WordWrap.Tokenize` | crates/betcode-cli/src/ui/render.rs:573-608 | The tokens tile the text: whitespace and words take turns, each with its exact byte range and width, with no 16-bit overflow when the whole text can be measured |
| `WordWrap.Measure` | crates/betcode-cli/src/ui/render.rs:656-660 | The 16-bit sum of widths between two positions is the width of that stretch |
| `WordWrap.BreakLongWord` | crates/betcode-cli/src/ui/render.rs:706-724 | A word wider than the line is broken only where the next character does not fit; the width returned is that of the text since the last break, and the breaks before it are kept |
| `WordWrap.ComputeBreaks` | crates/betcode-cli/src/ui/render.rs:568-700 | For every text, the breaks are the byte offsets of the one well-wrapped way to break it: every break is of a kind its line calls for, every line without trailing whitespace fits or is one character wider than a line, and a line that shows nothing comes before exactly the words that start with such a character |
| `WordWrap.CutsInOrder` | crates/betcode-cli/src/ui/render.rs:611-699 | Breaks never go backwards |
| `WordWrap.NarrowCutAdvances` | crates/betcode-cli/src/ui/render.rs:611-699 | When every word character fits a line, each break lies strictly after the start of its line and strictly inside the text |
| `WordWrap.CutAdvances` | crates/betcode-cli/src/ui/render.rs:706-724 | For every text, a break that does not advance is before a word that starts with a character wider than a line |
| `WordWrap.FittingIsNarrow` | crates/betcode-cli/src/ui/render.rs:611-699 | If every line fits, no word character is wider than a line |
| `WordWrap.LinesFitExactly` | crates/betcode-cli/src/ui/render.rs:611-699 | In a well-wrapped text all lines fit exactly if no character of a word is wider than a line |
| `WordWrap.WordsStayWhole` | crates/betcode-cli/src/ui/render.rs:682-694 | No break falls inside a word that fits on a line |
| `WordWrap.BreaksAreForced` | crates/betcode-cli/src/ui/render.rs:611-698 | Greedy: at every break, the line together with the word or character after the break would be too wide |
| `WordWrap.WrapIsUnique` | crates/betcode-cli/src/ui/render.rs:611-724 | Two well-wrapped ways to break any text are the same: the declarative description determines the algorithm's result |
| `WordWrap.BreaksAreUnique` | crates/betcode-cli/src/ui/render.rs:568-724 | So are their byte offsets, which ComputeBreaks returns |
| `WordWrap.BreaksAreInside` | crates/betcode-cli/src/ui/render.rs:611-724 | Break offsets are strictly increasing and strictly inside the text if no word starts with a character wider than a line |
| `WordWrap.InsideExactly` | crates/betcode-cli/src/ui/render.rs:611-724 | For every text, break offsets are strictly increasing and strictly inside exactly if each word that starts with a character wider than a line follows a line of characters that show nothing |
| `WordWrap.InsideWhereBlanksShow` | crates/betcode-cli/src/ui/render.rs:611-724 | So, where every whitespace character has a width, exactly if no word starts with such a character |
| `WordWrap.BreaksAreFew` | crates/betcode-cli/src/ui/render.rs:611-699 | When every word character fits a line, there are at most as many breaks as columns of text |
| `WordWrap.WideGlyphBreaksFirst` | crates/betcode-cli/src/ui/render.rs:706-724 | One character of two columns in a line of one: the only break is at offset 0 |
| `WrappedCursor.ComputeCursor` | crates/betcode-cli/src/ui/render.rs:518-554 | Row and column of the cursor are the number of breaks at or before it and the width from the line's start to it |
| `WrappedCursor.ColumnFrom` | crates/betcode-cli/src/ui/render.rs:545-551 | The early-exit sum of widths is the width of exactly the characters that start before the cursor |
| `WrappedCursor.FirstAfter` | crates/betcode-cli/src/ui/render.rs:529-536 | In increasing breaks, the row at which the scan stops is the number of breaks at or before the cursor |
| `WrappedCursor.BreaksInOrder` | crates/betcode-cli/src/ui/render.rs:611-699 | The computed breaks are in the order the scan needs |
| `WrappedCursor.CursorOnItsLine` | crates/betcode-cli/src/ui/render.rs:529-543 | The cursor lies at or after its line's start and before the next line's |
| `WrappedCursor.CursorMovesForward` | crates/betcode-cli/src/ui/render.rs:518-554 | Moving the cursor forward never moves (row, column) back in lexicographic order |
| `DagValidation.ReverseDeps` | crates/betcode-daemon/src/orchestration/scheduler.rs:55-66 | The reverse map lists a dependent exactly as often as it lists the dependency |
| `DagValidation.CheckReferences` | crates/betcode-daemon/src/orchestration/scheduler.rs:230-247 | References are accepted exactly if every dependency is known and no step depends on itself; an error names an offending pair |
| `DagValidation.Release` | crates/betcode-daemon/src/orchestration/scheduler.rs:275-284 | Releasing a step's dependents lowers their in-degrees to their unmet dependencies and queues exactly those that reach zero |
| `DagValidation.ValidateDag` | crates/betcode-daemon/src/orchestration/scheduler.rs:229-294 | Kahn's algorithm yields a maximal dependency order; the verdict compares its length with the number of steps |
| `DagValidation.CountDecidesCycles` | crates/betcode-daemon/src/orchestration/scheduler.rs:287-291 | The count comparison accepts exactly the orchestrations without cycles and without repeated steps (a repeated step is reported as a cycle) |
| `DagValidation.StrangersCount` | crates/betcode-daemon/src/orchestration/scheduler.rs:249-291 | Without cycles and repeats, the count comparison fails exactly if a step that was not given is listed with dependencies |
| `DependencyGraph.TrapIsEmpty` | crates/betcode-daemon/src/orchestration/scheduler.rs:272-291 | Without cycles, a set of steps each of which waits for another in the set is empty |
| `DependencyGraph.OrderedIsAcyclic` | crates/betcode-daemon/src/orchestration/scheduler.rs:272-291 | Steps that can be put in dependency order are on no cycle |
| `DagScheduler.DagScheduler.New` | crates/betcode-daemon/src/orchestration/scheduler.rs:50-95 | A scheduler is returned exactly if references are known, steps are distinct and the graph has no cycle; it starts with exactly the steps without dependencies ready |
| `DagScheduler.DagScheduler.constructor` | crates/betcode-daemon/src/orchestration/scheduler.rs:55-95 | The initial state, with the reverse map mirroring the dependencies |
| `DagScheduler.DagScheduler.NextReady` | crates/betcode-daemon/src/orchestration/scheduler.rs:101-107 | The ready steps in the order given |
| `DagScheduler.DagScheduler.RunningIds` | crates/betcode-daemon/src/orchestration/scheduler.rs:205-211 | The running steps in the order given |
| `DagScheduler.DagScheduler.InState` | crates/betcode-daemon/src/orchestration/scheduler.rs:101-107 | The filter both use |
| `DagScheduler.DagScheduler.IsComplete` | crates/betcode-daemon/src/orchestration/scheduler.rs:190-197 | True exactly if every step is terminal |
| `DagScheduler.DagScheduler.MarkRunning` | crates/betcode-daemon/src/orchestration/scheduler.rs:110-114 | Only that step changes, to running |
| `DagScheduler.DagScheduler.MarkCompleted` | crates/betcode-daemon/src/orchestration/scheduler.rs:120-144 | In-degrees fall by how often the step was listed, pending steps that reach zero become ready, and the list returned names exactly those, once each |
| `DagScheduler.DagScheduler.MarkFailed` | crates/betcode-daemon/src/orchestration/scheduler.rs:150-187 | The breadth-first cascade blocks exactly the waiting steps that depend on the failed one, directly or not, and returns each once |
| `SchedulerLaws.InitialConsistent` | crates/betcode-daemon/src/orchestration/scheduler.rs:69-95 | The initial scheduler is consistent: each in-degree counts unmet dependencies, and each state agrees with it |
| `SchedulerLaws.StartingConsistent` | crates/betcode-daemon/src/orchestration/scheduler.rs:110-114 | Starting a ready step keeps the scheduler consistent |
| `SchedulerLaws.CompletingConsistent` | crates/betcode-daemon/src/orchestration/scheduler.rs:120-144 | Completing a running step keeps it consistent |
| `SchedulerLaws.FailingConsistent` | crates/betcode-daemon/src/orchestration/scheduler.rs:150-187 | Failing a step keeps it consistent: blocked steps have a failed or blocked dependency and no others do |
| `SchedulerLaws.CompletingMoves` | crates/betcode-daemon/src/orchestration/scheduler.rs:120-144 | Completion changes only that step and pending steps, which may become ready |
| `SchedulerLaws.FailingMoves` | crates/betcode-daemon/src/orchestration/scheduler.rs:150-187 | Failure changes only that step and the pending steps downstream of it |
| `SchedulerLaws.UpstreamDone` | crates/betcode-daemon/src/orchestration/scheduler.rs:120-144 | Everything upstream of a step that is ready, running or over has completed |
| `SchedulerLaws.NeverStuck` | crates/betcode-daemon/src/orchestration/scheduler.rs:101-197 | With nothing ready and nothing running, everything is terminal |
| `OrchestrationRuns.RunsAreSafe` | crates/betcode-daemon/src/orchestration/manager.rs:275-448 | Every state of every interleaving of the loop, the monitors and cancel calls satisfies the protocol invariant |
| `OrchestrationRuns.StepSafe` | crates/betcode-daemon/src/orchestration/manager.rs:275-448 | Every step of the loop, of a monitor and of cancel keeps the protocol invariant |
| `OrchestrationRuns.FinishedStepsAreSettled` | crates/betcode-daemon/src/orchestration/manager.rs:393-448 | A running step whose subagent is not in the running map has a final database status, and its monitor has notified, or is about to and its notification leaves a permit, unless the orchestration has ended after a failure |
| `OrchestrationLog.ReadFindsResult` | crates/betcode-daemon/src/orchestration/manager.rs:783-848 | When the scan reads a row, the row is final: the fallback arm is never taken |
| `OrchestrationRuns.RunEventsAreLawful` | crates/betcode-daemon/src/orchestration/manager.rs:654-889 | No step starts, completes or fails twice; none starts before its dependencies completed; completions are numbered 1, 2, 3, ... up to at most the total; the final event is sent once and last, and reports success only when every step completed |
| `OrchestrationRuns.AttemptsAreAccountedFor` | crates/betcode-daemon/src/orchestration/manager.rs:654-848 | In the events, completed plus failed plus running steps equal the steps started or failed |
| `OrchestrationRuns.SpawnsAreAccountedFor` | crates/betcode-daemon/src/orchestration/manager.rs:690-776 | The number of spawn calls made in a run equals the steps completed, failed, running and being launched |
| `OrchestrationRuns.PromptsHoldResults` | crates/betcode-daemon/src/orchestration/manager.rs:677-688 | Every subagent's prompt is cut by increasing offsets into one labelled section for each dependency, in the order the step lists them, each with the result that dependency was reported with, and then the step's own text |
| `OrchestrationOutcomes.RunsKeepWords` | crates/betcode-daemon/src/orchestration/manager.rs:364-398 | In every run, once a process has been seen to end, its row has the status and summary of the last exit or cancellation that wrote it |
| `OrchestrationOutcomes.OutcomesAreReported` | crates/betcode-daemon/src/orchestration/manager.rs:783-848 | Whenever the loop looks at what became of a step it sends one event: completed with the summary if the last word was exit code 0, failed with the message if it was another exit or a cancellation |
| `OrchestrationOutcomes.EventsHaveCauses` | crates/betcode-daemon/src/orchestration/manager.rs:364-848 | In every run, each event was sent at an action that accounts for it: a completion only for a process that exited with code 0, with its summary; a failure only for another exit, a cancellation or a refused spawn, with its message |
| `OrchestrationOutcomes.LastWordIs` | crates/betcode-daemon/src/orchestration/manager.rs:783-848 | The last word on a subagent is one of the actions, and no later one writes its row |
| `OrchestrationOutcomes.RowsKeepTime` | crates/betcode-daemon/src/orchestration/manager.rs:161-291 | In every run, a row is pending only between the two writes of spawn, and running only until its process has been seen to end |
| `OrchestrationLog.FinishedIsComplete` | crates/betcode-daemon/src/orchestration/manager.rs:662-674 | When the loop ends without a failure every step has completed |
| `OrchestrationLog.BlockedNeedsFailure` | crates/betcode-daemon/src/orchestration/scheduler.rs:150-187 | A blocked step has a failed step upstream |
| `OrchestrationSafety.LoopKeepsPlan` | crates/betcode-daemon/src/orchestration/manager.rs:662-850 | Each loop step keeps the scheduler consistent and its queues what they claim: exactly the ready steps, or running ones |
| `OrchestrationSafety.LoopKeepsTracked` | crates/betcode-daemon/src/orchestration/manager.rs:275-292 | Each loop step keeps running map, database, orchestration map and monitors in agreement for every subagent |
| `OrchestrationSafety.OthersKeepTracked` | crates/betcode-daemon/src/orchestration/manager.rs:393-521 | So does each step of a monitor and of cancel |
| `OrchestrationSafety.PermitExactly` | crates/betcode-daemon/src/orchestration/manager.rs:440-447 | A notification waits exactly from when a mapped subagent of a registered orchestration sends it until one of the loop's two waits takes it |
| `OrchestrationSafety.SelectInOrder` | crates/betcode-daemon/src/orchestration/scheduler.rs:101-107 | The steps selected by state are those and only those in that state, in the order given |
| `OrchestrationProgress.WorkFalls` | crates/betcode-daemon/src/orchestration/manager.rs:654-889 | Every action but cancel's strictly lowers a measure; cancel's leave it alone |
| `OrchestrationProgress.RunsAreBounded` | crates/betcode-daemon/src/orchestration/manager.rs:654-889 | In a run of n steps the loop and the monitors take at most n(12n + 60) + 4 actions, however often cancel is called |
| `OrchestrationProgress.NotificationsAreKept` | crates/betcode-daemon/src/orchestration/manager.rs:442-448 | Until the loop waits with nothing to launch, a notified running step is about to be scanned or a notification is waiting |
| `OrchestrationProgress.MaximalRunsEnd` | crates/betcode-daemon/src/orchestration/manager.rs:662-889 | When nothing is left to do, the final event has been sent exactly if the loop never waited with nothing to launch |
| `OrchestrationProgress.IdleIsForever` | crates/betcode-daemon/src/orchestration/manager.rs:663-668 | Once the loop has waited with nothing to launch, no step changes state, no event is sent and the orchestration never ends |
| `OrchestrationChains.ChainsNeverIdle` | crates/betcode-daemon/src/orchestration/manager.rs:662-850 | If of any two steps one depends on the other, no run ever waits with nothing to launch |
| `OrchestrationChains.ChainsEnd` | crates/betcode-daemon/src/orchestration/manager.rs:662-889 | So every run of such an orchestration with nothing left to do has sent its final event |
| `OrchestrationChains.SequentialIsChain` | crates/betcode-daemon/src/server/subagent_svc.rs:306-314 | Orchestrations with the sequential strategy are of this kind |
| `OrchestrationChains.ChainsWakeOncePerStep` | crates/betcode-daemon/src/orchestration/manager.rs:778-781 | Such an orchestration, when it ends, has consumed exactly one notification for each step it launched |
| `OrchestrationStalls.RefusedIsNeverLaunched` | crates/betcode-daemon/src/orchestration/manager.rs:139-150 | No run gets past asking for a step whose own prompt is empty, without dependencies, or which wants auto-approval without allowed tools |
| `OrchestrationStalls.RefusedRootNeverStalls` | crates/betcode-daemon/src/orchestration/manager.rs:139-150 | An orchestration with such a step that has no dependencies is not stallable |
| `OrchestrationStalls.StallNeeds` | crates/betcode-daemon/src/orchestration/manager.rs:662-850 | An orchestration with a run that stalls is stallable with at most as many held steps as the pool has room for: independent steps held running with every refused step waiting for one of them, and an unrelated step, or two unrelated ones before them, to wake the loop |
| `OrchestrationStalls.RunsAreFitting` | crates/betcode-daemon/src/orchestration/manager.rs:153-154 | In every run the permits in use fit the pool, and from each scan to the next launch so do the running steps |
| `OrchestrationStalls.SomeRunStalls` | crates/betcode-daemon/src/orchestration/manager.rs:663-668 | If the pool has room for one step besides the held ones of some stallable choice, some run stalls |
| `OrchestrationStalls.WhoCanStall` | crates/betcode-daemon/src/orchestration/manager.rs:662-850 | For every pool: some run stalls if the orchestration is stallable with fewer held steps than there is room for, and only if with as many; with room for every step, exactly if it is stallable |
| `OrchestrationStalls.UnrefusedStalls` | crates/betcode-daemon/src/orchestration/manager.rs:662-850 | Without refused steps, for every pool: some run stalls exactly if the pool has any room and two steps do not depend on one another |
| `OrchestrationStalls.UnrefusedStallable` | crates/betcode-daemon/src/orchestration/manager.rs:662-850 | Without refused steps, an orchestration is stallable exactly if two of its steps do not depend on one another |
| `Conversation.WhenPreviewable` | crates/betcode-cli/src/app/state.rs:550-554 | A tool result can be shown (the slice does not panic) exactly if it has at most 200 bytes or byte 200 is a character boundary |
| `Conversation.WideCharacterAtTheCut` | crates/betcode-cli/src/app/state.rs:550-554 | It cannot when a character of several bytes follows 199 of one byte |
| `Conversation.LettersAndUmlaut` | crates/betcode-cli/src/app/state.rs:550-554 | A concrete such output: 199 letters and an umlaut |
| `ConversationLaws.LiveIsSound` | crates/betcode-cli/src/app/state.rs:496-646 | Live handling keeps: only assistant messages stream, and every tool call points at its own line, in order |
| `ConversationLaws.ReplayIsSound` | crates/betcode-cli/src/app/state.rs:655-774 | So does replay |
| `ConversationLaws.WatchAllSound` | crates/betcode-cli/src/app/state.rs:496-646 | Both hold along every live log |
| `ConversationLaws.ReplayAllSound` | crates/betcode-cli/src/app/state.rs:655-774 | Both hold along every replayed log |
| `ConversationLaws.TextAgreesExactly` | crates/betcode-cli/src/app/state.rs:506-523 | The two text interpreters agree on a delta exactly if it is not an empty completing delta on a streaming message |
| `ConversationLaws.EntryAgreesExactly` | crates/betcode-cli/src/app/state.rs:496-774 | For every event kind, live handling and replay keep two equal conversations equal exactly if the entry does not diverge: an empty completing delta on a streaming message, an empty user input, or a pending command whose effect shows |
| `ConversationLaws.LogsAgreeExactly` | crates/betcode-cli/src/app/state.rs:496-774 | For every log, the screen agrees with a replay of the log so far after each entry exactly if no entry diverges where it stands |
| `ConversationLaws.CleanLogsAgree` | crates/betcode-cli/src/app/state.rs:496-774 | A log without empty completing deltas and empty inputs, with no command pending, gives the same messages, flags, labels, tool calls (apart from finishing times), session id and model |
| `ConversationLaws.StartsAgree` | crates/betcode-cli/src/app/state.rs:692-717 | Replay's own code for the start of a tool call does what the live code does |
| `ConversationLaws.FinishesAgree` | crates/betcode-cli/src/app/state.rs:718-750 | Replay's own code for a tool result does what the live code does, except for the finishing time |
| `ConversationResume.ResumeAgreesExactly` | crates/betcode-cli/src/app/state.rs:506-781 | After finish_history_load a resumed session shows what was on the screen, with nothing streaming, exactly if in its log no text that an empty delta completed is followed by more text before anything else is shown; no command is pending and no input is empty |
| `ConversationResume.LogTracks` | crates/betcode-cli/src/app/state.rs:506-774 | Until then the two differ only in which messages are streaming |
| `ConversationResume.SplitStays` | crates/betcode-cli/src/app/state.rs:506-774 | Once a text has been split, the screen has more messages than the replay for ever |
| `ConversationLaws.EmptyCompletionDiverges` | crates/betcode-cli/src/app/state.rs:506-523 | A concrete log with an empty completing delta that shows two messages live and one when replayed |
| `ConversationLaws.ResultSettlesOneCall` | crates/betcode-cli/src/app/state.rs:562-577 | A tool result settles the latest call with its id, keeps what was known of it and touches no other call |
| `ConversationLaws.LastAssistantIs` | crates/betcode-cli/src/app/state.rs:461-466 | The compaction summary is the last thing the assistant said |
| `ConversationTexts.LiveSays` | crates/betcode-cli/src/app/state.rs:506-523 | A live text is added at the end of the last message while that is streaming, and is otherwise all of a new assistant message; nothing else changes |
| `ConversationTexts.ReplaySays` | crates/betcode-cli/src/app/state.rs:665-691 | So it is in a replay |
| `ConversationTexts.ScreenShowsLog` | crates/betcode-cli/src/app/state.rs:421-646 | Along every live log the screen shows one line for each thing said, in order, each text being its deltas joined in order, with the texts of tool calls, results and errors spelled out |
| `ConversationTexts.ReplayShowsLog` | crates/betcode-cli/src/app/state.rs:655-774 | So does a replay, except that an empty delta does not end a text there |
| `ConversationTexts.PreviewShows` | crates/betcode-cli/src/app/state.rs:550-554 | A result of at most 200 bytes is shown whole; of a longer one, the characters in its first 200 bytes and three dots |
| `ConversationTexts.StartAddsCall` | crates/betcode-cli/src/app/state.rs:536-546 | A start adds one entry, running and without a result, that points at its own line |
| `ConversationTexts.LiveChrome` | crates/betcode-cli/src/app/state.rs:609-643 | What each kind of live event does to the status line, the busy flag, the pending command and the summary |
| `ConversationTexts.TurnTakesCommand` | crates/betcode-cli/src/app/state.rs:436-482 | When a turn completes, compaction leaves one divider and keeps the assistant's last words or a default, clearing leaves nothing, switching changes only the model, and without a command the conversation stays |
| `App.App.HandleEvent` | crates/betcode-cli/src/app/state.rs:496-646 | The in-place handler computes the live interpretation of the event, leaves the prompts alone and keeps the client's invariant; it panics exactly if a result's preview would be cut inside a character |
| `App.App.HandleText` | crates/betcode-cli/src/app/state.rs:506-523 | The text arm, with start_assistant_message, append_text and finish_streaming |
| `App.App.HandleToolStart` | crates/betcode-cli/src/app/state.rs:524-547 | Closes streaming text, adds the line and an entry that points at it |
| `App.App.HandleToolResult` | crates/betcode-cli/src/app/state.rs:548-577 | Adds the result line and updates the last entry with that id, searched from the end |
| `App.App.ExecutePendingClientCommand` | crates/betcode-cli/src/app/state.rs:436-452 | Takes the command and applies it |
| `App.App.ApplyCompaction` | crates/betcode-cli/src/app/state.rs:459-482 | Leaves one divider and keeps the last assistant message as summary |
| `App.App.LoadHistoryEvent` | crates/betcode-cli/src/app/state.rs:655-774 | The in-place replay computes the replay interpretation, changes nothing but messages, calls, session id and model, and keeps the client's invariant; it panics where the live handler does |
| `App.App.LoadToolStart` | crates/betcode-cli/src/app/state.rs:692-717 | Its tool call arm |
| `App.App.LoadToolResult` | crates/betcode-cli/src/app/state.rs:718-750 | Its tool result arm, with the search from the end |
| `App.App.LoadText` | crates/betcode-cli/src/app/state.rs:665-691 | Its text arm |
| `App.App.FinishHistoryLoad` | crates/betcode-cli/src/app/state.rs:777-781 | No message is left streaming and nothing else changes |
| `App.App.SubmitInput` | crates/betcode-cli/src/app/state.rs:784-798 | Shows and returns a nonempty input, clears it, and keeps exactly the latest hundred inputs, the latest first |
| `App.App.constructor` | crates/betcode-cli/src/app/state.rs:233-266 | The initial state meets the client's invariant: prompts and requests sent are what the inputs so far lead to, and the conversation is sound |
| `App.App.SentAnswersInOrder` | crates/betcode-cli/src/tui/permission_input.rs:10-181 | From the invariant alone: the permission responses sent answer requests that arrived, each at most once and in order, and a pending request is the latest and unanswered |
| `App.App.HandlePermissionRequest` | crates/betcode-cli/src/app/state.rs:578-590 | A permission request replaces the pending one and takes the screen |
| `App.App.HandleUserQuestion` | crates/betcode-cli/src/app/state.rs:591-608 | A question replaces the pending one and takes the screen; a pending permission stays |
| `App.App.HandleKey` | crates/betcode-cli/src/tui/input.rs:111-131 | Keys go to the handler of the mode, the outcome is the specified one, and the invariant is kept |
| `App.App.HandlePermissionKey` | crates/betcode-cli/src/tui/permission_input.rs:10-42 | Each key's outcome, what is sent included |
| `App.App.HandlePermissionEditKey` | crates/betcode-cli/src/tui/permission_input.rs:45-95 | Each editing key's outcome |
| `App.App.SubmitPermissionEdit` | crates/betcode-cli/src/tui/permission_input.rs:98-155 | What Enter sends in each of the three editing modes; an edit that is not JSON is sent as no edit |
| `App.App.HandleQuestionKey` | crates/betcode-cli/src/tui/question_input.rs:12-39 | Each key's outcome |
| `App.App.SubmitQuestion` | crates/betcode-cli/src/tui/question_input.rs:42-68 | Nothing happens without a selection; otherwise the joined labels are sent |
| `App.App.MoveQuestionHighlight` | crates/betcode-cli/src/app/state.rs:860-873 | Only the highlight changes: it moves by the delta, stopping at the first and last option |
| `App.App.SelectQuestionOption` | crates/betcode-cli/src/app/state.rs:876-892 | Only highlight and selection change: among several the option is added at the end or its first occurrence removed, otherwise it is the selection; an index out of range changes nothing |
| `Prompts.StepStaysValid` | crates/betcode-cli/src/tui/permission_input.rs:10-181 | Every event and key keeps: a permission mode has a pending permission, question mode a pending question, the editor's cursor is between characters, and selections are distinct options |
| `Prompts.ToggleToggles` | crates/betcode-cli/src/app/state.rs:882-889 | Toggling changes the membership of that option alone and keeps the selection free of repeats |
| `Prompts.LabelsAreSelected` | crates/betcode-cli/src/tui/question_input.rs:48-53 | The answer names every selected option, in the order of selection |
| `Prompts.JoinFromFront` | crates/betcode-cli/src/tui/question_input.rs:53 | Labels are joined from the first to the last, with a comma and a space between them |
| `PromptRuns.ModesHavePrompts` | crates/betcode-cli/src/tui/permission_input.rs:10-181 | These hold after every run of events and keys |
| `PromptRuns.StepResponds` | crates/betcode-cli/src/tui/permission_input.rs:158-181 | An input answers at most one request, the pending one, which is then no longer pending |
| `PromptRuns.ResponsesAnswerInOrder` | crates/betcode-cli/src/tui/permission_input.rs:10-181 | In every run the responses sent answer requests received, each at most once and in order; a pending request is the latest and unanswered |
| `PromptRuns.StrandedForever` | crates/betcode-cli/src/app/state.rs:591-608 | Outside the permission modes a pending request is never answered |
| `PromptRuns.StillAnswerable` | crates/betcode-cli/src/tui/permission_input.rs:10-95 | In a permission mode one or two keys answer it |
| `PromptRuns.AnswerableExactly` | crates/betcode-cli/src/tui/input.rs:111-131 | Whether a pending request can still be answered is decided exactly by the mode |
| `PromptRuns.QuestionStrandsPermission` | crates/betcode-cli/src/app/state.rs:591-608 | A question that arrives over a permission request strands it |
| `PromptRuns.OneKeyAnswers` | crates/betcode-cli/src/tui/permission_input.rs:12-39 | A single key answers exactly if it allows once, allows for the session or is Escape, with that decision; every other key leaves the request pending in a permission mode |
| `PromptRuns.ChoiceSendsLabel` | crates/betcode-cli/src/tui/question_input.rs:24-35 | In a question with one answer, a digit and Enter send the label of that option |
| `PromptRuns.ArrowsMove` | crates/betcode-cli/src/tui/question_input.rs:14-19 | Up and Down move the highlight of a question by one, no further than its first and last option, send nothing and change nothing else |
| `PromptRuns.SpaceChooses` | crates/betcode-cli/src/tui/question_input.rs:20-25 | Space chooses the highlighted option: alone, or by adding it to the selection or taking it out |
| `PromptRuns.EscapeDismisses` | crates/betcode-cli/src/tui/question_input.rs:33-36 | Escape dismisses the question and sends nothing |
| `PromptRuns.EnterSendsLabels` | crates/betcode-cli/src/tui/question_input.rs:42-68 | Enter sends the joined labels of the options chosen, in the order in which they were chosen, or does nothing if none was |
| `PromptRuns.DenialSendsText` | crates/betcode-cli/src/tui/permission_input.rs:31-36 | N or X, any text and Enter sends one denial with exactly that text, interrupting exactly for X |
| `PromptRuns.CommentFollowsApproval` | crates/betcode-cli/src/tui/permission_input.rs:117-137 | E, any text and Enter allows once and sends the text after it, unless it is empty |
| `PromptRuns.EditSendsWhatIsRead` | crates/betcode-cli/src/tui/permission_input.rs:100-116 | Tab and Enter send what reading the shown input back gives, and nothing if it cannot be read |
| `PromptRuns.EditKeepsInput` | crates/betcode-cli/src/tui/permission_input.rs:100-116 | Where the JSON library reads back what it writes, a request accepted as shown gets its input back exactly if every value in it has a kind and every null the code 0 |
| `PromptRuns.MalformedEditIsDropped` | crates/betcode-cli/src/tui/permission_input.rs:101-105 | Text that is not JSON is approved with no edit at all |
| `PromptRuns.UnansweredForever` | crates/betcode-cli/src/tui/question_input.rs:12-68 | A question that is not shown, or has no options, is never answered |
| `PromptRuns.QuestionAnswerableExactly` | crates/betcode-cli/src/tui/question_input.rs:12-68 | Whether a pending question can still be answered is decided exactly by the mode and by its having options |
| `PromptRuns.PermissionStrandsQuestion` | crates/betcode-cli/src/app/state.rs:578-590 | A permission request that arrives over a question strands it, even once the request is answered |
| `InputLine.PressExactly` | crates/betcode-cli/src/tui/input.rs:447-463 | One key in the main input line, with the completion update that slices the text before the cursor (app/state.rs:269-272, completion/controller.rs:36-37), does what it does in the permission editor, and leaves a line that can be edited, exactly if the character typed, removed or stepped over has one byte |
| `InputLine.WidePanics` | crates/betcode-cli/src/completion/controller.rs:36-37 | Typing a character of several bytes panics at once, because the cursor is left inside it |
| `InputLine.AsciiLinesHold` | crates/betcode-cli/src/tui/input.rs:447-463 | As long as only ASCII is typed no run of keys panics, and the cursor stays between characters |
| `InputLine.KeysPanicExactly` | crates/betcode-cli/src/app/state.rs:269-272 | A run of keys in an empty line, whatever it types, erases and steps over, panics exactly if it types a character of several bytes |
| `InputLine.TypingPanicsExactly` | crates/betcode-cli/src/tui/input.rs:447-450 | Typing a text panics exactly if any of its characters has several bytes |
| `InputLine.OneAccentPanics` | crates/betcode-cli/src/tui/input.rs:447-450 | A concrete such input: one accented letter |
| `PermissionEditor.EditableIs` | crates/betcode-cli/src/tui/permission_input.rs:55-92 | The refinement's domain is exactly: valid UTF-8 with the cursor on a character boundary |
| `PermissionEditor.HoldsOneThing` | crates/betcode-cli/src/tui/permission_input.rs:55-92 | Bytes and byte cursor determine characters and character cursor |
| `PermissionEditor.InsertInserts` | crates/betcode-cli/src/tui/permission_input.rs:55-60 | Insertion on bytes is insertion of a character at the character cursor |
| `PermissionEditor.BackspaceRemoves` | crates/betcode-cli/src/tui/permission_input.rs:61-72 | Backspace on bytes removes the character before the cursor, or nothing at the start |
| `PermissionEditor.LeftMoves` | crates/betcode-cli/src/tui/permission_input.rs:73-82 | Left moves one character, stopping at the start |
| `PermissionEditor.RightMoves` | crates/betcode-cli/src/tui/permission_input.rs:83-92 | Right moves one character, stopping at the end |
| `PermissionEditor.BackspaceUndoesInsert` | crates/betcode-cli/src/tui/permission_input.rs:55-72 | Insert then backspace restores the editor |
| `PermissionEditor.RightUndoesLeft` | crates/betcode-cli/src/tui/permission_input.rs:73-92 | Left then right restores it away from the start |
| `PermissionEditor.LeftUndoesRight` | crates/betcode-cli/src/tui/permission_input.rs:73-92 | Right then left restores it away from the end |
| `Utf8.TextInjective` | crates/betcode-cli/src/tui/permission_input.rs:55-92 | The bytes of a text determine its characters |
| `Utf8.OffsetIsBoundary` | crates/betcode-cli/src/tui/permission_input.rs:65-68 | Characters start at boundaries |
| `Utf8.BoundaryIsOffset` | crates/betcode-cli/src/tui/permission_input.rs:65-68 | Every boundary is where a character starts, or the end |
| `Utf8.BeforeIsPrevious` | crates/betcode-cli/src/tui/permission_input.rs:65-68 | Scanning back over continuation bytes finds the previous character's start |
| `Utf8.WidthIsNext` | crates/betcode-cli/src/tui/permission_input.rs:86-89 | The lead byte's width leads to the next character's start |
| `JsonStruct.JsonSurvives` | crates/betcode-cli/src/app/state.rs:902-951 | JSON converted to the protocol's values and back is the same JSON |
| `JsonStruct.PlainSurvives` | crates/betcode-cli/src/app/state.rs:902-951 | A protocol value converted to JSON and back is the same exactly if every value in it has a kind and every null the code 0 |
| `JsonStruct.PlainStructSurvives` | crates/betcode-cli/src/app/state.rs:902-951 | The same for a Struct |
| `JsonStruct.ToValueSaysSame` | crates/betcode-cli/src/app/state.rs:902-951 | The protocol value made from JSON says the same: each null, truth value, number, text, list item and member is itself |
| `JsonStruct.ToJsonSaysSame` | crates/betcode-cli/src/app/state.rs:902-951 | So does the JSON made from any protocol value, where a missing kind and any null are null |
| `Base64.Encode` | crates/betcode-core/src/db.rs:153-180 | The text is the letters of the data's bits six at a time, zero-filled, with padding |
| `Base64.ChunkText` | crates/betcode-core/src/db.rs:159-176 | The four characters, computed with shifts and masks, of a chunk of one, two or three bytes are the letters of its base-64 digits, padded |
| `Base64.CharsAreLetters` | crates/betcode-core/src/db.rs:155 | The alphabet string is Table 1 of RFC 4648 |
| `Words.PackedBytes` | crates/betcode-core/src/db.rs:162 | Three bytes put together by shifts and ors are the base-256 digits of the word |
| `Words.PackedSextets` | crates/betcode-core/src/db.rs:208 | Four sextets put together by shifts and ors are the base-64 digits of the word |
| `Words.SextetsOf` | crates/betcode-core/src/db.rs:164-176 | What the shifts and masks take out of a 24-bit word are its base-64 digits |
| `Words.BytesOf` | crates/betcode-core/src/db.rs:211-217 | What the shifts and masks take out of a 24-bit word are its base-256 digits |
| `Words.NatOr` | crates/betcode-core/src/db.rs:162 | Words that share no bits are added by an or |
| `Words.WordIs` | crates/betcode-core/src/db.rs:159-161 | Widening a byte to a word keeps its number |
| `Base64.SextetsOfPacked` | crates/betcode-core/src/db.rs:162-176 | The sextets taken out of three packed bytes are the base-64 digits of their number |
| `Base64.AccumulatedIs` | crates/betcode-core/src/db.rs:203-209 | The word that or accumulates stands for the sum of its digits in their places |
| `Base64.WordBytes` | crates/betcode-core/src/db.rs:211-217 | The bytes pushed for two, three or four letters are the leading base-256 digits of the word |
| `Base64.SextetsUnique` | crates/betcode-core/src/db.rs:153-180 | The description determines the digits |
| `Base64.OneEncoding` | crates/betcode-core/src/db.rs:153-180 | Any two encodings of the same data are equal, and their length is 4 times the number of started groups of three bytes |
| `Base64.DecodeTable` | crates/betcode-core/src/db.rs:185-195 | The table has each letter's digit and 255 everywhere else |
| `Base64.Collect` | crates/betcode-core/src/db.rs:203-209 | A chunk's digits accumulated with or, or its first byte that is not a letter |
| `Base64.Decode` | crates/betcode-core/src/db.rs:183-221 | Bad length is reported exactly for one letter too many, then the first bad byte; otherwise the data is the digits' number without the last letter's unused bits |
| `Base64.RoundTrip` | crates/betcode-core/src/db.rs:153-221 | Decoding the encoding of any data gives Ok of that data |
| `Base64.AcceptedExactly` | crates/betcode-core/src/db.rs:183-221 | Accepted are exactly the inputs whose part before padding consists of letters and has no length of 1 modulo 4 |
| `Base64.EncodeDecoded` | crates/betcode-core/src/db.rs:153-221 | An accepted input decodes to floor(3n/4) bytes and encodes again to its padded form with the unused bits of its last letter zero |
| `CryptoSession.RunsAreCounted` | crates/betcode-crypto/src/session.rs:141-159 | In every interleaving, with stale loads and spurious failures, the nonces handed out are 0, 1, 2, ... up to the counter, which never wraps |
| `CryptoSession.NoncesAreUnique` | crates/betcode-crypto/src/session.rs:141-159 | No two calls of one session get the same nonce, and at most 2^32 - 1 calls get one |
| `CryptoSession.ExhaustionIsPermanent` | crates/betcode-crypto/src/session.rs:141-146 | A call is refused only after all 2^32 - 1 nonces are out, and from then on none succeeds |
| `CryptoSession.ExhaustedSwapsFail` | crates/betcode-crypto/src/session.rs:147-152 | At the maximum no exchange succeeds, whatever was loaded |
| `CryptoSession.AllNoncesReachable` | crates/betcode-crypto/src/session.rs:141-159 | Some run hands out n nonces for every n up to 2^32 - 1 |
| `CryptoSession.NonceInjective` | crates/betcode-crypto/src/session.rs:153-156 | Big-endian counter and prefix give different nonces for different counters |
| `CryptoSession.Session.NextNonce` | crates/betcode-crypto/src/session.rs:141-159 | The retry loop returns the nonce of the old counter and advances it by one, or reports exhaustion and changes nothing |
| `CryptoSession.Session.Encrypt` | crates/betcode-crypto/src/session.rs:100-113 | At exhaustion an error and no change; otherwise a nonce is used up, and the text is sealed under it or reported as one that cannot be sealed |
| `CryptoSession.DecryptWith` | crates/betcode-crypto/src/session.rs:116-127 | A nonce of the wrong length is reported as such, and only then |
| `CryptoSession.SendAndReceive` | crates/betcode-crypto/src/session.rs:100-127 | What one session encrypts another with the same key decrypts; the only errors are exhaustion and a text that cannot be sealed |
| `EventStream.ReadEvents` | crates/betcode-cli/src/connection.rs:531-583 | The reader delivers the in-order decryptions before the first five failures in a row, then one error, or the stream's own error; a receiver that leaves gets a prefix. With a session, each delivered event was in an envelope at its own place in the stream, with a full nonce, that authenticates and decodes to it |
| `EventStream.DecryptResumeEvents` | crates/betcode-cli/src/connection.rs:1651-1668 | Resuming keeps, in order, exactly the events in envelopes that authenticate and decode, and all events without a session |
| `EventStream.OpenedExactly` | crates/betcode-cli/src/connection.rs:1629-1645 | With a session, an event is opened exactly if it is an envelope with a nonce of 12 bytes whose text authenticates and decodes |
| `EventStream.GoodKeeps` | crates/betcode-cli/src/connection.rs:1658-1667 | What is kept comes from increasing places in the list, and no envelope that opens is missed |
| `EventStream.CappedDelivers` | crates/betcode-cli/src/connection.rs:531-583 | However many deliveries a receiver takes, they are events opened from increasing places in the stream, and then at most an error |
| `EventStream.NothingElseArrives` | crates/betcode-cli/src/connection.rs:531-583 | Of events none of which opens, none arrives, and the fifth ends the stream with an error |
| `EventStream.PlaintextIsRefused` | crates/betcode-cli/src/connection.rs:1643 | In particular plaintext, while a session is active |
| `EventStream.WithoutSession` | crates/betcode-cli/src/connection.rs:531-583 | Without a session every event passes as it is, and the stream never ends for failures |
| `EventStream.StreamAgainstResume` | crates/betcode-cli/src/connection.rs:531-583 | The stream delivers exactly what resuming keeps unless five failures come in a row; then a prefix of it and one error |
| `EventStream.SealedEventsArrive` | crates/betcode-cli/src/connection.rs:1629-1646 | Everything a peer with the same key sends arrives whole and in order |
| `Trust.FingerprintStore.Record` | crates/betcode-crypto/src/fingerprint_store.rs:90-104 | Adds an unverified entry, or moves only the last-seen time; no other machine's entry changes |
| `Trust.FingerprintStore.MarkVerified` | crates/betcode-crypto/src/fingerprint_store.rs:107-114 | Sets only the verified flag, only of that machine, and reports whether it is known |
| `Trust.FingerprintStore.UpdateFingerprint` | crates/betcode-crypto/src/fingerprint_store.rs:119-134 | A known machine gets the fingerprint in an unverified entry; no other entry changes, and an unknown machine changes nothing |
| `Trust.FingerprintStore.Remove` | crates/betcode-crypto/src/fingerprint_store.rs:137-139 | Removes that machine only |
| `Trust.Connection.ExchangeKeys` | crates/betcode-cli/src/connection.rs:282-360 | Records and installs on first use and on a match; on a mismatch or a failed call changes nothing |
| `Trust.Connection.AcceptFingerprintChange` | crates/betcode-cli/src/connection.rs:379-389 | Updates the store and leaves the session |
| `Trust.Connection.VerifyFingerprint` | crates/betcode-cli/src/connection.rs:392-395 | Marks the machine verified |
| `Trust.Connection.EnsureRelayKeyExchange` | crates/betcode-cli/src/connection.rs:405-417 | Succeeds exactly for a connection that is no relay, or on an answer that does not mismatch |
| `Trust.FingerprintPersists` | crates/betcode-crypto/src/fingerprint_store.rs:76-139 | Along any stretch of a run a stored fingerprint changes only by accepting a change or by removal |
| `Trust.VerifiedMeansMarked` | crates/betcode-crypto/src/fingerprint_store.rs:107-134 | A machine is verified exactly if it was marked and its fingerprint has not been touched since |
| `Trust.CheckExactly` | crates/betcode-crypto/src/fingerprint_store.rs:76-87 | A machine is trusted on first use exactly if it is unknown, matches exactly if its stored fingerprint is the one shown, and otherwise the mismatch names both |
| `Trust.SeenWhen` | crates/betcode-crypto/src/fingerprint_store.rs:90-134 | In every run, an entry's first-seen time is that of the exchange or acceptance that stored its fingerprint, and its last-seen time that of the last exchange or acceptance since |
| `Trust.MarkLasts` | crates/betcode-crypto/src/fingerprint_store.rs:107-134 | The fingerprint that was marked is the one that is stored |
| `Trust.MismatchChangesNothing` | crates/betcode-cli/src/connection.rs:345-354 | A mismatch is exactly another fingerprint for a known machine, and leaves store and session as they were |
| `Trust.SessionsWereTrusted` | crates/betcode-cli/src/connection.rs:324-359 | Whatever session is present was installed by a key exchange when the store held its daemon's fingerprint |
| `Trust.RelayConversationsAreTrusted` | crates/betcode-cli/src/connection.rs:470-472 | A relay conversation starts only with such a session |
| `Trust.ConverseExactly` | crates/betcode-cli/src/connection.rs:470-472 | In every run, a relay converses exactly if keys were exchanged without a mismatch since it was last connected, and is otherwise told that an exchange is required; other connections always converse |
| `Trust.TrustCanBeOutlived` | crates/betcode-cli/src/connection.rs:379-389 | A concrete run in which the session stays in use after its fingerprint was replaced |
| `Trust.TrustLostExactly` | crates/betcode-cli/src/connection.rs:379-389 | While connected, one action makes a session lose its stored fingerprint exactly by accepting another one or by removal of its machine |
| `Trust.TrustOutlivedExactly` | crates/betcode-cli/src/connection.rs:282-389 | In every run, a session is still trusted exactly if, since it was installed, its machine has not been removed and the fingerprint last accepted for it, if any, is the session's |
| `Trust.SomeInstallIsLast` | crates/betcode-cli/src/connection.rs:324-359 | Every session present has a last key exchange that installed it |
| `PermissionRules.ToolPatterns` | crates/betcode-core/src/permissions.rs:129-137 | A tool pattern ending in a star matches exactly the names that begin with the rest, any other only itself |
| `PermissionRules.MatchesToolExactly` | crates/betcode-core/src/permissions.rs:129-137 | A tool pattern matches exactly what it is meant for: every name, the names with its prefix, or itself |
| `PermissionRules.MatchesPathExactly` | crates/betcode-core/src/permissions.rs:140-154 | A path pattern matches exactly what it is meant for: every path, what starts like the directory, what lies directly in it, or itself |
| `PermissionRules.MatchesExactly` | crates/betcode-core/src/permissions.rs:89-109 | A rule matches exactly if it is meant for the tool and, where it has a path pattern, a path is given and meant |
| `PermissionRules.TreePatternExactly` | crates/betcode-core/src/permissions.rs:140-154 | A directory pattern ending in /** matches exactly what is inside the directory or beside it with a longer name |
| `PermissionRules.TreePatternMatchesBeside` | crates/betcode-core/src/permissions.rs:145-147 | A concrete path beside the directory that such a pattern matches |
| `PermissionRules.StableSortUnique` | crates/betcode-core/src/permissions.rs:77-86 | Priority order with equal priorities in their old order determines the list |
| `PermissionRules.SortedIsStable` | crates/betcode-core/src/permissions.rs:77-80 | The model's sort is such a stable sort |
| `PermissionRules.BatchesDoNotMatter` | crates/betcode-core/src/permissions.rs:83-86 | Adding batches one by one gives one stable sort of everything added |
| `PermissionRules.FirstIsBest` | crates/betcode-core/src/permissions.rs:89-109 | The first match in the sorted list is the best match among the rules as added |
| `PermissionRules.BestOfIs` | crates/betcode-core/src/permissions.rs:89-109 | The best match is the earliest added of the matching rules with the lowest priority number |
| `PermissionRules.DecidesOnce` | crates/betcode-core/src/permissions.rs:89-109 | The specification allows one decision |
| `PermissionRules.DecidesIsAnswers` | crates/betcode-core/src/permissions.rs:89-109 | Deciding by the best match is answering by the rule that ranks first among those meant for the request |
| `PermissionRules.NewEngineAnswers` | crates/betcode-core/src/permissions.rs:157-214 | What a new engine answers for every tool: reading, globbing and searching are allowed, shell commands, writing and editing are asked for by their rule, anything else is asked for without one |
| `PermissionRules.DefaultsAreSorted` | crates/betcode-core/src/permissions.rs:157-213 | The built-in rules are in priority order, so new need not sort |
| `PermissionRules.PermissionEngine.constructor` | crates/betcode-core/src/permissions.rs:69-74 | A new engine holds the built-in rules |
| `PermissionRules.PermissionEngine.WithRules` | crates/betcode-core/src/permissions.rs:77-80 | An engine with given rules holds their stable sort |
| `PermissionRules.PermissionEngine.AddRules` | crates/betcode-core/src/permissions.rs:83-86 | The rule list is the stable sort of all rules ever added |
| `PermissionRules.PermissionEngine.Evaluate` | crates/betcode-core/src/permissions.rs:89-109 | The answer is action, id and description of the rule that ranks first, by priority number and then by when it was added, among the rules meant for this tool and path; Ask without a rule when none is meant |

## Left out

- WordWrap.ComputeBreaks: widths of the whole text are taken to add up in 16 bits, as the code's unchecked additions need; the display width of a character is given, not computed.
- WrappedCursor.ComputeCursor: the cast of the line width and of the row to 16 bits is covered only while they fit.
- OrchestrationRuns.RunsAreSafe: database writes succeed, one orchestration is modelled at a time, and a spawn that fails leaves no row that anyone reads; step rows of the database, working directories, models, timeouts and process signals are not modelled.
- OrchestrationStalls.WhoCanStall: with refused steps, and a pool with room for exactly the fewest steps that must be held, whether a run stalls is not stated; it may depend on the order in which the steps are listed, since the loop launches them in that order. Failures to start a process may or may not strike.
- OrchestrationProgress.MaximalRunsEnd: speaks of runs with nothing left to do, that is, every subagent exits in time; fairness of the runtime is not modelled.
- App.App.HandleEvent: usage, scrolling and completion state are not modelled; after the panic the client is gone, and the model leaves its state as it was.
- App.App.HandleKey: the fingerprint panel and the session list, which no code outside tests enters, and the main input line, which does not touch the prompts; its cursor is modelled apart, in InputLine, in an empty line at first and without submission, history, accepting a completion, and the drawing of a suggestion, which slices at the cursor too.
- App.App.SubmitPermissionEdit: writing and reading JSON text is a parameter, not modelled; nor is a closed request channel.
- ConversationResume.ResumeAgreesExactly: supposes no command is pending; LogsAgreeExactly says when a pending one shows.
- WordWrap.BreaksAreFew: supposes that no word character is wider than a line.
- JsonStruct.JsonSurvives: numbers are reals; rounding of large integers, NaN and infinities are not modelled.
- CryptoSession.SendAndReceive: the AEAD's promise that it opens what it sealed with the same key is a hypothesis; ChaCha20-Poly1305, X25519, HKDF and the random prefix are not modelled, so nothing is said of nonces across sessions.
- EventStream.ReadEvents: errors of the encrypting direction, which share the channel, are not modelled.
- Trust.Connection.ExchangeKeys: saving the store succeeds, and comparing fingerprints is equality; its constant time is not modelled.
- PermissionRules.PermissionEngine.Evaluate: a path comes with its parent as the platform's path library computes it.
- Not modelled: gRPC clients, relay metadata and TLS, the command-line commands, drawing, fuzzy matching, plugins, file watching, the setup wizard and configuration.
