# Verified models of juex

This project models the parts of juex whose correctness depends on interleavings, aliasing or
exact positions, and proves what they promise for every input, every run and every reachable
state. `dafny verify dfyconfig.toml` checks all of it.

## What is modelled

**The open thread** (`ThreadRead*.dfy`, `LiveThreadProjection.dfy`, `QueuedInputs.dfy`,
`ReducerProperties.dfy`, `TurnProperties.dfy`, `DrainingProperties.dfy`). Refreshes, older-page loads, status GETs and stream events are in
flight together. `ThreadReadProtocol` is a step system cut at every await: the pending requests
are part of the state and may be answered in any order, fail, or stay unanswered. Its history
records when things happened and is read by no step. `ThreadReadController` is the same protocol
as a class with the controller's variables; every method is proved to be exactly one step.
Under it sits the event reducer with its queued, draining and drained inputs; what each event
shows is said of the transcript before and after (`ReducerProperties`, `TurnProperties`), and
which pages, statuses and events count in `ThreadReadDelivery`.

**Tool events** (`LiveTool*.dfy`, `LiveOutputStream.dfy`). Where tool uses and results go in a
message list, and how streamed output is capped.

**Fleet** (`Fleet*.dfy`). `FleetWorld` is what several managers act on at once: processes that
die, pids that are reused, runtime records, the registry, the lifecycle locks, and the endpoint
guards that starting or serving processes and managers in maintenance exclude each other by; a run
is any interleaving of guarded steps. What a manager has observed is noted in the world, and its
removals and spawns are guarded by those notes alone: whether they are right is proved over all
runs. `FleetLifecycle.Manager` holds the operations. Each call into the system first lets everybody
else run any number of steps, so its contracts hold under all interleavings; its ghost `run`
collects all steps, to which the theorems of `FleetWorld` apply. What an operation claims to have
seen or done, a stop above all, it must show by signs: steps of its own in that run, each with a
guard that makes it true where it can be.

**The Supervisor record** (`SupervisorBinding.dfy`). Each operation may be cut off by a crash
between any two persistent writes; the history of written records is shown to be a legal chain.

**Configuration redaction** (`Yaml*.dfy`, `Config*.dfy`). YAML nodes live in one heap and are
shared by position. The walks edit the heap they walk. `ConfigEditor` does so in place on an
array; the theorems are about the functions it is proved to compute. `YamlEntries` says which
entries a walk meets, `ConfigRecovery` when redaction is undone, `ConfigEdits` and
`ConfigMerging` what becomes of a document the user has edited.

**Observations** (`Observation*.dfy`, `JsonString.dfy`, `Unicode.dfy`, `JsText.dfy`). A text
printed in Go, its content framed by a count of UTF-8 octets, and parsed in the browser in
UTF-16 code units.

**Transcript grouping** (`Display*.dfy`, `Work*.dfy`, `ThreadBatches.dfy`). Pairing tool uses with results, batching, gathering work, and
ordering threads by depth.

## Assumptions

- Two process incarnations never have the same fingerprint; a record is published, and withdrawn,
  by the process it names while that has the agent's endpoint; the endpoint guard of a process ends
  with the process.
- A planned Supervisor id was never planned before.
- In a parsed YAML graph an alias names a node that is not itself an alias, and scalars have no
  children. Positions in the heap stand for references to nodes.
- A thread response is about the thread that was asked for. Input-tracking annotations are opaque
  values.
- Drain counts are not negative. Octet counts and attachment sizes are within the integers that
  JavaScript represents exactly.
- A missing tool id and the empty one are the same, as everywhere in the code.

## Where promises fail

- Redaction accepts documents it cannot undo: a value that is an alias of its own key hides the
  key as well (`ConfigRecovery.SelfNamedIsLost`). `ConfigRecovery.MergeUndoesRedact` says exactly
  which documents come back.
- Once output of a call has streamed, the event that ends the call is taken for a replay
  (`ThreadReadProperties.StreamedOutputHidesCompletion`); `OutcomeShownIff` says exactly when the
  outcome of a call is shown.
- Output goes to the last message of a turn that waits and the answer to the first; only where two
  of them wait does streamed output stay beside the answer (`ReducerProperties.StreamingLeavesTrace`).
- Of two names that share one redacted value a merge looks up the first, unless its current value
  is itself the placeholder's text (`ConfigMerging.MergedValues`).
- A status GET is outdated only by events of its own subscription: exactly where two live
  subscriptions show one thread's status, one can overwrite what the other delivered
  (`ThreadReadGuarantees.StatusNeverOverwritten`, `OverlappingSubscriptionsOverwrite`).
- A turn id that is the empty string stops work groups from being told apart by turn
  (`WorkProperties.EmptyTurnSharesItem`). Only the type admits it: the server leaves empty turn ids
  out, and the projection makes no assistant message with one.
- Streamed text that itself begins with a truncation notice is counted on from it, and one of zero
  is dropped (`LiveOutputStream.StreamContentClosedForm`); two of them make the cut matter
  (`LiveOutputStream.CutMatters`).
- The flag for loading older messages can outlive its request, and the request its flag, in exactly
  the cases of `ThreadReadLoading.PartedIff`.
- A blank observable id is read from the line after it (`ObservationRoundTrip.IDFound`).
- A thread that is its own ancestor cannot go before it (`ThreadBatches.OrderedIff`,
  `ThreadBatches.CycleSharesBatch`).

## Model

| member | source | states |
|---|---|---|
| ThreadReadGuarantees.KeptHistoryIsAnnotated | frontend/src/lib/thread-read-controller.ts:168-195 | In every run, a history-keeping refresh that applies had asked for the annotations of every user message it keeps; every message with an id loaded before is still there; so if the server annotates what it was asked for, every user message ends up annotated |
| ThreadReadGuarantees.RefreshesApplyInOrder | frontend/src/lib/thread-read-controller.ts:168-190 | In every run the refreshes that applied did so in strictly increasing start order, and the next one to apply was started after all of them |
| ThreadReadGuarantees.EarlierRouteIsInert | frontend/src/lib/thread-read-controller.ts:121-127 | In every run the answer or failure of a refresh or older-page request begun before the route last changed only leaves the pending set: no state changes and nothing is sent again |
| ThreadReadGuarantees.OlderPageAfterRefresh | frontend/src/lib/thread-read-controller.ts:276-295 | In every run an older page whose last request precedes the latest refresh start does not touch the state; if its route is still current, it is requested again with its old cursor and the current history revision |
| ThreadReadGuarantees.StatusNotOverwritten | frontend/src/lib/thread-read-controller.ts:205-229 | In every run a status GET sent before a later event of the same subscription changes nothing when answered or failed |
| ThreadReadGuarantees.StatusNeverOverwritten | frontend/src/lib/thread-read-controller.ts:197-274 | In every run in which no two live subscriptions show the status of one thread, no status GET, answered or failed, changes the status of a thread after a later event of any subscription delivered it, whatever other threads are subscribed to |
| ThreadReadGuarantees.OverlappingSubscriptionsOverwrite | frontend/src/lib/thread-read-controller.ts:197-274 | From every reachable state with two live subscriptions that show one thread's status, three more steps and an answer overwrite the later status of the one by the earlier GET of the other |
| ThreadReadGuarantees.RefreshShowsLive | frontend/src/lib/thread-read-controller.ts:176-187 | In every run a refresh that applies leaves of the live transcript, if it keeps it, exactly the messages, in order, that the page then held does not carry, and none otherwise; queue, announced slots and compact admission stay |
| ThreadReadGuarantees.ReopenedKeepsLive | frontend/src/lib/thread-read-controller.ts:252-256 | From every reachable state a stream that reopens on the route asks for a refresh that counts, and its answer leaves exactly the live messages the page does not carry |
| ThreadReadGuarantees.EventRefreshes | frontend/src/lib/thread-read-controller.ts:144-165 | The event that ends a turn, delivered live, starts a refresh that replaces the live transcript; an ended compaction or a changed input scope one that keeps it |
| ThreadReadDelivery.StatusDelivered | frontend/src/lib/thread-read-controller.ts:240-273 | An event of a live subscription shows its status; a stream error and unsubscribing take it away; no other thread's status is touched |
| ThreadReadDelivery.OtherStatuses | frontend/src/lib/thread-read-controller.ts:96-295 | Any step changes at most one thread's status, and only an event, error, unsubscription or GET answer of a subscription to that thread does |
| ThreadReadDelivery.FreshGetShown | frontend/src/lib/thread-read-controller.ts:205-232 | Whatever happens between, the GET sent when a live stream opens is shown when answered, and clears the status when it fails, unless the route or a sign of life of its own subscription came before |
| ThreadReadDelivery.RefreshShowsPage | frontend/src/lib/thread-read-controller.ts:176-187 | A refresh that counts shows its page, with what was held and is not in it in front if history is kept, and nothing else; one that does not leaves the state |
| ThreadReadDelivery.OlderShowsPage | frontend/src/lib/thread-read-controller.ts:279-287 | An older page that counts goes in front of the page held, without what that carries already, with its own cursor; one that does not leaves the state |
| ThreadReadDelivery.FailureShown | frontend/src/lib/thread-read-controller.ts:187-195 | The failure of a refresh is shown, and takes the page away, exactly if it is current and was to be recorded |
| ThreadReadDelivery.RefreshSent | frontend/src/lib/thread-read-controller.ts:168-175 | A refresh started for the route is sent and counts, and every one sent before it no longer does |
| ThreadReadLoading.PartedIff | frontend/src/lib/thread-read-controller.ts:276-295 | As long as the loading flag is up exactly while one older-page request of the current route is in flight, a step parts the two if and only if it is one of five named ones: a route change or a reset during a load, a load begun off the route, and a refresh that drops the history or records its failure during a load |
| ThreadReadLoading.LoadingMirrors | frontend/src/lib/thread-read-controller.ts:276-295 | In every run without such a step, flag and request agree and there is never a second request |
| ThreadReadLoading.RouteChangeRestores | frontend/src/lib/thread-read-controller.ts:121-133 | A reset right after a route change makes them agree again from every reachable state |
| ThreadReadSafety.RunInv | frontend/src/lib/thread-read-controller.ts:96-295 | The invariant of every reachable state that ties each request in flight to the times it was begun and sent and to the history it covers |
| ThreadReadSafety.ActSound | frontend/src/lib/thread-read-controller.ts:96-295 | Every single step, from any reachable state, keeps that invariant |
| ThreadReadController.Controller.Refresh | frontend/src/lib/thread-read-controller.ts:168-175 | Starting a refresh is exactly the protocol step of that name, on all variables at once |
| ThreadReadController.Controller.RefreshAnswered | frontend/src/lib/thread-read-controller.ts:176-187 | What follows the await of a refresh: stale answers dropped, refresh asked again if older history was loaded meanwhile, otherwise applied; exactly the protocol step |
| ThreadReadController.Controller.RefreshFailed | frontend/src/lib/thread-read-controller.ts:187-195 | The failure path of a refresh; exactly the protocol step |
| ThreadReadController.Controller.LoadOlderMessages | frontend/src/lib/thread-read-controller.ts:276-280 | Starting an older-page load; exactly the protocol step |
| ThreadReadController.Controller.OlderAnswered | frontend/src/lib/thread-read-controller.ts:279-287 | What follows the await of an older-page load, with its retry; exactly the protocol step |
| ThreadReadController.Controller.OlderFailed | frontend/src/lib/thread-read-controller.ts:287-295 | The failure path of an older-page load, with its retry; exactly the protocol step |
| ThreadReadController.Controller.SetRoute | frontend/src/lib/thread-read-controller.ts:121-127 | Changing the route opens a new route epoch; exactly the protocol step |
| ThreadReadController.Controller.ResetForRoute | frontend/src/lib/thread-read-controller.ts:129-133 | Resetting the read state; exactly the protocol step |
| ThreadReadController.Controller.SubscribeLiveEvents | frontend/src/lib/thread-read-controller.ts:197-275 | A subscription starts with a status GET; exactly the protocol step |
| ThreadReadController.Controller.Unsubscribe | frontend/src/lib/thread-read-controller.ts:265-273 | Unsubscribing outdates the GETs in flight and clears the status; exactly the protocol step |
| ThreadReadController.Controller.OnOpen | frontend/src/lib/thread-read-controller.ts:252-256 | A stream that opens asks for the status and refreshes, keeping live messages and history; exactly the protocol step |
| ThreadReadController.Controller.OnEvent | frontend/src/lib/thread-read-controller.ts:240-251 | A stream event delivers its status, outdates the GETs in flight and is projected; exactly the protocol step |
| ThreadReadController.Controller.OnError | frontend/src/lib/thread-read-controller.ts:257-262 | A stream error outdates the GETs in flight and clears the status; exactly the protocol step |
| ThreadReadController.Controller.StatusAnswered | frontend/src/lib/thread-read-controller.ts:208-220 | What follows the await of a status GET; exactly the protocol step |
| ThreadReadController.Controller.StatusFailed | frontend/src/lib/thread-read-controller.ts:221-232 | The failure path of a status GET; exactly the protocol step |
| ThreadReadController.Controller.RunThreadReadResult | frontend/src/lib/thread-read-controller.ts:144-165 | A projection from elsewhere, with its refresh effects; exactly the protocol step |
| ThreadReadProperties.MergeKeepsIDs | frontend/src/lib/thread-messages.ts:20-43 | Merging an older page loses no message with an id from either side and leaves the newer messages last and untouched |
| ThreadReadProperties.LoadKeepsIDs | frontend/src/lib/thread-read-state.ts:94-132 | After a load exactly the ids of the page are there, and those loaded before if history is kept; the annotations are those of the page |
| ThreadReadProperties.LiveAfterLoad | frontend/src/lib/thread-read-state.ts:94-132 | A load that keeps live messages leaves exactly those, in order, whose id is absent or not in the page then held; one that does not leaves none; everything else in the projection stays |
| ThreadReadProperties.ShownOnce | frontend/src/lib/thread-read-state.ts:116-132 | After such a load every live message with an id is shown in the page or live, never both |
| ThreadReadProperties.MergedPage | frontend/src/lib/thread-messages.ts:20-43 | A merged page is the newer page preceded by exactly the older messages it does not carry, in order, with the older cursor and the annotations of both, the newer first |
| ThreadReadProperties.LoadedPage | frontend/src/lib/thread-read-state.ts:94-114 | The page a load leaves is the fresh one, preceded by what was held and is not in it exactly if it is about the same thread and history is kept |
| ThreadReadProperties.OtherLoads | frontend/src/lib/thread-read-state.ts:134-174 | A failed load takes the page away and shows its error; an older page, arrived or failed, leaves live messages and queue alone |
| ThreadReadDelivery.SkippedIff | frontend/src/lib/thread-read-state.ts:176-195 | An event is skipped if and only if the message, tool block or queued input it would add is there already, said of messages and blocks; any other has its whole effect |
| ThreadReadProperties.ReplayIsIdempotent | frontend/src/lib/thread-read-state.ts:176-195 | From any state, delivering an event that carries its message or tool id a second time changes nothing and asks for nothing |
| ThreadReadProperties.RecordedOrUnchanged | frontend/src/lib/thread-read-state.ts:378-443 | The first delivery either leaves a record of the id that the replay guard recognizes, or changes nothing |
| ThreadReadProperties.OutcomeShownIff | frontend/src/lib/thread-read-state.ts:176-195 | The event that ends a tool call leaves its turn showing its content, error flag and media as the only result of the call and not streaming, if and only if it names turn and call and no result of the call was held before, loaded or live, final or streamed, or the turn showed just that already |
| ThreadReadProperties.StreamedOutputHidesCompletion | frontend/src/lib/thread-read-state.ts:176-195 | Once output of a call has streamed, the event that ends the call is skipped, because the guard also matches the provisional block |
| DrainingProperties.AnnouncedDrain | frontend/src/lib/live-thread-projection.ts:490-527 | Announcing n and then draining leaves the same queue and transcript as draining without the announcement |
| DrainingProperties.DrainInParts | frontend/src/lib/live-thread-projection.ts:490-510 | Draining a and then b is draining a + b |
| DrainingProperties.LaterInputsAreNotDrained | frontend/src/lib/live-thread-projection.ts:490-527 | From any state, whatever events come between announcing n more inputs and draining all that was announced, other than a drain or the end of a turn, the drain shows exactly the inputs announced by then, in order, and leaves the queue and later announcements as those events made them |
| DrainingProperties.AppendTwice | frontend/src/lib/live-thread-projection.ts:549-576 | Two batches of drained inputs land in the transcript like one |
| ReducerProperties.ResponseShown | frontend/src/lib/live-thread-projection.ts:685-737 | llm.responded changes exactly one message, the turn's first one that waits or a new last one, which then shows the event's blocks and model and waits no longer, with the notice right in front of it; all other messages stay, in order |
| ReducerProperties.DeltaShown | frontend/src/lib/live-thread-projection.ts:755-818 | An output delta adds its text to its stream in the turn's last message that waits, or in a new one, and changes nothing else |
| ReducerProperties.RestartShown | frontend/src/lib/live-thread-projection.ts:739-753 | An error, fallback or retry empties exactly the messages of the turn that wait |
| ReducerProperties.StreamShown | frontend/src/lib/live-thread-projection.ts:739-818 | However a stream was cut, and whatever other streams, failed attempts and fallbacks came between, the turn shows exactly what was said in it since the last restart |
| ReducerProperties.StreamingLeavesNoTrace | frontend/src/lib/live-thread-projection.ts:685-818 | Whatever was streamed before it, in however many attempts, an answer leaves the same transcript as if nothing had been, as long as at most one message of the turn waits |
| ReducerProperties.StreamingLeavesTrace | frontend/src/lib/live-thread-projection.ts:685-818 | Where two messages of a turn wait, every delta makes a difference that the answer does not undo: so the condition above is exact |
| TurnProperties.TurnStartedShown | frontend/src/lib/live-thread-projection.ts:258-290 | turn.started shows its input and takes it from the queue, the first item that matches, unless the turn is shown already |
| TurnProperties.TurnShown | frontend/src/lib/live-thread-projection.ts:578-640 | A turn that begins appends its input and a message that waits; one that is there only gets its id |
| TurnProperties.ProvisionalRenamed | frontend/src/lib/live-thread-projection.ts:606-621 | A turn shown under a provisional id is renamed, all of it, and nothing else changes |
| TurnProperties.PromotedShown | frontend/src/lib/live-thread-projection.ts:373-393 | A promoted input leaves the front of the queue and is shown as the turn's |
| TurnProperties.DrainedShown | frontend/src/lib/live-thread-projection.ts:549-576 | Drained inputs stand together, in order, with their texts and attachments, in front of the turn's first message that waits, or last |
| TurnProperties.DrainShown | frontend/src/lib/live-thread-projection.ts:490-510 | A drain takes the announced inputs first and then the queue's, in order, and shows exactly these |
| TurnProperties.QueuedShown | frontend/src/lib/queued-inputs.ts:21-84 | A queued input joins the end of the queue, or brings its last item up to date where the count says that is meant |
| TurnProperties.DroppedShown | frontend/src/lib/queued-inputs.ts:98-107 | Dropping takes the oldest inputs |
| TurnProperties.TurnEnded | frontend/src/lib/live-thread-projection.ts:539-547 | The end of a turn empties queue and announcements, except that of an admitted compaction |
| TurnProperties.RepairShown | frontend/src/lib/live-thread-projection.ts:441-459 | A repair removes exactly the messages with a block of a repaired call |
| TurnProperties.CompactionShown | frontend/src/lib/live-thread-projection.ts:195-232 | A compaction that starts shows its command and its notice, once |
| TurnProperties.CompactionEnded | frontend/src/lib/live-thread-projection.ts:96-103 | Its end removes exactly these |
| TurnProperties.TraceShown | frontend/src/lib/live-thread-projection.ts:860-878 | A policy trace is appended once, under its own id or that of its event |
| LiveThreadProjection.ReserveDrainingQueuedInputs | frontend/src/lib/live-thread-projection.ts:512-527 | The reserving loop computes the reserved slots and the remaining queue of its specification |
| LiveToolEvents.ToolUpdateTargetIndex | frontend/src/lib/live-tool-events.ts:256-281 | The backward search finds the message its specification names: the last assistant message of the turn with the use, else the last assistant message of the turn |
| LiveToolEvents.EnsureToolUseBeforeResult | frontend/src/lib/live-tool-events.ts:156-240 | The forward search and the edit after it compute the transcript of the specification |
| LiveToolEvents.ToolResultTarget | frontend/src/lib/live-tool-events.ts:283-348 | The backward search with its forward search inside finds the place the specification names, over the last stretch of messages of the turn |
| LiveToolProperties.OutputDeltaPaired | frontend/src/lib/live-tool-events.ts:82-95 | After a nonempty output delta with turn, id and name, a result for the call is in the turn, a use of it in an earlier message of the turn, and every block not about the call is where it was |
| LiveToolProperties.ToolResultPaired | frontend/src/lib/live-tool-events.ts:97-154 | The same after a final result |
| LiveToolProperties.ToolRequestedPlaced | frontend/src/lib/live-tool-events.ts:42-80 | After a request the turn holds a use of the call, and every block not about the call is where it was |
| LiveToolProperties.RequestShown | frontend/src/lib/live-tool-events.ts:42-80 | The use a request leaves holds its name, input and timeout; an existing one keeps its input or timeout only where the request brings none; nothing else changes |
| LiveToolProperties.RoomShown | frontend/src/lib/live-tool-events.ts:156-240 | Making room for a result changes at most one message, by the use it adds or brings up to date |
| LiveToolProperties.WithToolUsePrecedes | frontend/src/lib/live-tool-events.ts:156-240 | Making room for a result puts a use of the call before every result for it in the turn |
| LiveOutputStream.StreamContentClosedForm | frontend/src/lib/live-tool-events.ts:350-429 | Folding two or more deltas gives, however the text was cut: the whole text if it fits in 12000 characters, else the notice with the number of characters dropped and the last 12000; after a notice the text itself begins with, the same with the count going on from its number, and a notice of zero is dropped. It covers every text but those with a notice too long to be shown or a notice of zero followed by another notice |
| LiveOutputStream.CutMatters | frontend/src/lib/live-tool-events.ts:410-429 | Of two notices of zero in a row it depends on the cut what is shown, so no closed form covers that text |
| LiveOutputStream.StreamStarts | frontend/src/lib/live-tool-events.ts:82-95 | The first delta of a call without a result opens one streaming block holding the text |
| LiveOutputStream.StreamContinues | frontend/src/lib/live-tool-events.ts:350-363 | Each further delta extends that same block and disturbs nothing else |
| LiveOutputStream.StreamFinalized | frontend/src/lib/live-tool-events.ts:364-383 | The final result replaces the streamed content in the same block, with its media and error flag, ends the streaming, and leaves everything else |
| LiveOutputStream.StreamedOutput | frontend/src/lib/live-tool-events.ts:82-95 | From a transcript without a result for the call, any two or more nonempty deltas end in one streaming block that holds that closed form |
| FleetWorld.RemovedAreDead | internal/fleet/lifecycle.go:467-519 | Every runtime record a manager removes anywhere in any run is the one on disk, is removed under the agent's lock and endpoint guard on its own observations, which classify the runtime as Unhealthy, and names an incarnation that is dead by then and stays dead; that it is dead is derived from how the observations were made, not assumed by the step |
| FleetWorld.SpawnIsJustified | internal/fleet/lifecycle.go:45-78 | Before every spawn in any run its actor was cleared for the cause it gives: it held the lock and either took the endpoint guard after seeing no record (Stopped), or under both removed the record as Unhealthy or found it gone; since then nobody spawned the agent, took or let go of its lock, or changed its entry; the entry is registered, enabled and bound |
| FleetWorld.DisabledIsNotSpawned | internal/fleet/registration.go:90-126 | A disabled agent is not spawned in any run until it is enabled or registered anew |
| FleetWorld.OthersDoNotDisturb | internal/fleet/lifecycle.go:21-43 | Steps of others cannot take a held lock, change the entry under it, or undo what its holder has seen |
| FleetStatus.ClassifyMeans | internal/fleet/status.go:132-171 | Healthy and Unhealthy, each by an if and only if over what was observed; everything else is Ambiguous |
| FleetStatus.SameDecision | internal/fleet/status.go:132-171 | On the same observations of a record, classification says Unhealthy exactly when the cleanup removes it and exactly when the stop loop cleans up |
| FleetLifecycle.Manager.Guarantees | internal/fleet/lifecycle.go:21-519 | Whatever the operations below did, interleaved with everybody else: records removed were judged Unhealthy under the guard and name the dead, and every spawn was made by a lock holder cleared for its cause, Stopped or cleaned up |
| FleetLifecycle.Manager.InspectRecordedProcess | internal/fleet/process.go:24-44 | A recorded process found gone or replaced means that the incarnation that wrote the record is dead |
| FleetLifecycle.Manager.InspectStatus | internal/fleet/status.go:69-181 | Whatever it says was observed by steps of the run meanwhile: Healthy a live, matching process and an endpoint that answered as itself; Stopped, under the lock, a missing record and then the endpoint guard; Unhealthy a dead or replaced process and a silent endpoint; and doubts and a binding at fault are kept too |
| FleetLifecycle.Manager.ObserveForCleanup | internal/fleet/lifecycle.go:480-514 | The cleanup decides to remove exactly when its observations classify the runtime as unhealthy, and then the writer of the record is dead |
| FleetLifecycle.Manager.CleanStaleRuntime | internal/fleet/lifecycle.go:467-519 | A cleanup that succeeds clears the actor to spawn for having cleaned up, under lock and endpoint guard, and not for having found the agent stopped; the guard is given back |
| FleetLifecycle.Manager.PrepareStart | internal/fleet/lifecycle.go:45-65 | A start goes on for a bound and enabled agent seen Healthy or Stopped, always, and unless it is Healthy only with a clearance that matches the classification: Stopped, or Unhealthy and cleaned up |
| FleetLifecycle.Manager.StartEntry | internal/fleet/lifecycle.go:45-123 | It spawns at most once, the agent it was asked for, after classifying it as Stopped, or as Unhealthy and cleaning up; an enabled, bound agent seen Healthy is accepted, and one seen Stopped is spawned; success ends Healthy; all this on observations made by steps of the run |
| FleetLifecycle.Manager.StaleWhileStopping | internal/fleet/lifecycle.go:208-252 | The stop loop goes to the cleanup exactly when its observations classify the runtime as Unhealthy |
| FleetLifecycle.Manager.StopEntryPolicy | internal/fleet/lifecycle.go:169-252 | By what steps of the run observed: a Stopped agent is stopped at once; an Ambiguous one is refused; an Unhealthy one succeeds only if it was cleaned up meanwhile; a Healthy one only if the writer of the record that was asked to shut down is dead; an acknowledgement is reported only for restarts that asked |
| FleetLifecycle.Manager.RequestShutdown | internal/fleet/lifecycle.go:188-206 | The shutdown is asked of the record last read, and the run keeps that |
| FleetLifecycle.Manager.AwaitStopped | internal/fleet/lifecycle.go:208-252 | The shutdown poll ends well only when that incarnation is dead |
| FleetLifecycle.Manager.RestartEntry | internal/fleet/lifecycle.go:282-372 | At most one continuation is posted, and only a justified one: replacement Healthy, intent acknowledged, the same thread and turn reported with the expected cancelled or same-failure state; sent implies required and no error, required but unsent implies an error; success means the agent was stopped, as StopEntryPolicy says, and is Healthy again; what a Healthy runtime was working on is asked for first, and if that was interrupted a continuation was posted or there is an error |
| FleetLifecycle.Manager.ConfirmRestartInterrupted | internal/fleet/lifecycle.go:374-444 | Either the report confirms the interrupted turn, or there is an error to show |
| FleetLifecycle.Manager.Start | internal/fleet/lifecycle.go:21-43 | A start that succeeds ends Healthy, as observed meanwhile, with the entry enabled, and with autostart set if the agent is the bound Supervisor; it spawns as StartEntry does |
| FleetLifecycle.Manager.Stop | internal/fleet/lifecycle.go:125-147 | A stop that succeeds has, by steps of the run since it was called, found the agent stopped, or found it Unhealthy and cleaned up, or found it Healthy and asked a process to shut down that is dead; so never on an Ambiguous one |
| FleetLifecycle.Manager.Restart | internal/fleet/lifecycle.go:254-280 | What RestartEntry promises, over the whole locked operation |
| FleetLifecycle.Manager.SetEnabled | internal/fleet/registration.go:90-126 | On success the entry says what was asked for, and disabling succeeds only after a stop that succeeded as Stop says |
| FleetLifecycle.Manager.RemoveAgent | internal/fleet/registration.go:128-181 | On success the entry is gone, and the agent was stopped as Stop says |
| FleetLifecycle.Manager.Add | internal/fleet/registration.go:17-88 | A new agent is required to be new where asked, and started ones end Healthy |
| FleetLifecycle.Manager.ApplyManagedLifecycle | internal/fleet/management.go:220-265 | Each managed action does what its name says: stopping, disabling and restarting go with a stop as Stop says, starting and restarting end Healthy as observed; a continuation is posted only when a restart interrupts |
| FleetLifecycle.Manager.ManagedLifecycle | internal/fleet/management.go:190-218 | The same over the whole locked operation; a caller never acts on itself: that is an error that spawns and posts nothing |
| FleetLifecycle.Manager.Reconcile | internal/fleet/supervisor.go:8-90 | The reports are those of the entries in turn, and each is exactly what its stretch of the run calls for: adopted if and only if seen Healthy, cleaned if and only if cleaned up after being seen Unhealthy, started or failed if it was then to be started, skipped if not, failed if Ambiguous or not cleaned; it spawned only that agent, once, and only if enabled and set to start automatically |
| FleetLifecycle.Manager.ReconcileOne | internal/fleet/supervisor.go:27-73 | The same for one entry |
| FleetLifecycle.Manager.ReconcileSupervisor | internal/fleet/supervisor.go:75-90 | The Supervisor is started last, under its lock, on a fresh look at its entry, and only if that is enabled and set to start automatically |
| SupervisorBinding.RetainedGrows | internal/fleet/supervisor_agent.go:226-267 | Over every history of records, crashes included, the retained list only grows |
| SupervisorBinding.RetainedAreTheRetired | internal/fleet/supervisor_agent.go:226-267 | It lists exactly the agents that were retired, in order |
| SupervisorBinding.RetiredStayRetired | internal/fleet/supervisor_agent.go:226-267 | A retired agent stays retained and never holds the role again |
| SupervisorBinding.Supervisor.WriteRole | internal/fleet/supervisor_agent.go:62-68 | Every write keeps the history a chain: initializing to ready to removed to a fresh initializing, no duplicates, the recorded agent retained exactly when removed |
| SupervisorBinding.Supervisor.EnsureSupervisor | internal/fleet/supervisor_agent.go:105-135 | Completed, initialization leaves a role that is no longer initializing and whose agent is registered; a recorded agent keeps the role, unchanged but for being initialized or acknowledged; where no Supervisor is wanted none is planned, and a ready one is disabled and its work settled; no other agent is touched |
| SupervisorBinding.Supervisor.EnsureUntilDone | internal/fleet/supervisor_agent.go:105-135 | Initialization cut off any number of times is completed by the first run that is not, for the agent recorded first |
| SupervisorBinding.Supervisor.PlanSupervisor | internal/fleet/supervisor_agent.go:137-153 | A plan is written under an id never planned before, with the retained list unchanged |
| SupervisorBinding.Supervisor.FinishInitialization | internal/fleet/supervisor_agent.go:155-178 | Completed, the planned role is ready, otherwise unchanged, and its agent registered as planned unless it was; if not, the record is as before; no other agent is touched |
| SupervisorBinding.Supervisor.RepairSupervisor | internal/fleet/supervisor_agent.go:180-218 | A role that was not removed becomes ready, disabled and without autostart, otherwise unchanged, and its agent is restored disabled if it was gone |
| SupervisorBinding.Supervisor.RetireSupervisor | internal/fleet/supervisor_agent.go:226-267 | Completed, a removal leaves the record as it was but for being removed with its agent retained, and a reset a fresh ready agent, enabled and with autostart, with the retired agent retained and the acknowledgement of its work carried on; the retired agent is disabled and its work settled before; cut off anywhere, a role being initialized is as it was, and any other is at the agent it had, retired or not, or at the newly planned one; no other agent is touched |
| SupervisorBinding.Supervisor.ResetUntilDone | internal/fleet/supervisor_agent.go:220-267 | A reset cut off any number of times, anywhere, is completed by the first run that is not: one fresh ready Supervisor under an id planned on the way, the agent it started from retained exactly once; a role that was being initialized becomes ready and nothing else of it changes |
| SupervisorBinding.Supervisor.SettleWork | internal/fleet/supervisor_agent.go:337-349 | With a settler the acknowledgement, about this agent, is recorded beside an otherwise unchanged role; without one, or if it fails, the role stays |
| ConfigRecovery.MergeUndoesRedact | internal/fleet/config_redaction.go:18-137 | For every accepted document, merging the redacted document against the original gives the original back, node for node, if and only if the original is recoverable: the walk goes through, values are scalars, names stay distinct, neither the keys on the way nor merge keys are values, and no entry is reached while its name is hidden |
| ConfigRecovery.MergeOfRedacted | internal/fleet/config_redaction.go:51-137 | What the merge yields otherwise: an error, or the redacted document where environment.variables can no longer be found; never another value |
| ConfigRecovery.SharedValuesRecover | internal/fleet/config_redaction.go:18-137 | As long as no value stands as a key, redaction is always undone, however values are shared through anchors, aliases and merge keys |
| ConfigRecovery.SelfNamedIsLost | internal/fleet/config_redaction.go:18-137 | A document whose value is an alias of its own key is accepted by redaction, and its merge fails |
| ConfigEdits.MergeOfEdited | internal/fleet/config_redaction.go:51-137 | For every submitted document and every current one: the merge succeeds if and only if the document's variables can be walked, are scalars of distinct names and bear the literal mark only on placeholders, and, if any value was left redacted, the current document is there and legible and each entry can be passed in turn; and what it then makes of the graph |
| ConfigMerging.MergedValues | internal/fleet/config_redaction.go:51-137 | After an accepted merge every node that is no value is untouched; a marked placeholder is the plain placeholder; every other value the user wrote is as written; and each value left redacted is the current value of one of its names, the first whose current value is not the placeholder again, or the last |
| ConfigMerging.MergeableByName | internal/fleet/config_redaction.go:51-137 | Where no value stands as a key, the merge fails exactly if a document is not well-formed or a placeholder has a current value neither by its own name nor by an earlier name of the same value |
| ConfigMerging.MergedByName | internal/fleet/config_redaction.go:118-137 | There, a value left redacted becomes the current value of its own name |
| ConfigEdits.ScanEdits | internal/fleet/config_redaction.go:62-98 | Scanning an edited document goes through exactly when every value is a scalar, no name is met twice and marks stand only on placeholders; it takes off exactly the marks and tells whether a value was left redacted |
| ConfigEdits.ExistingValuesAre | internal/fleet/config_redaction.go:99-117 | The current configuration is read exactly if its values are scalars of distinct names, or it has none, and then gives every name the scalar of its entry |
| ConfigRecovery.RedactionIs | internal/fleet/config_redaction.go:18-49 | A malformed configuration is refused, one without variables is given as it is, and of any other whose variables can be walked exactly the values are redacted, if and only if each is a scalar with a name that is new as shown by then; where no value stands as a key: if and only if values are scalars and names distinct |
| ConfigPlaces.VariablesAre | internal/fleet/config_redaction.go:214-249 | The variables are the mapping under the only environment key and its only variables key; malformed exactly if one of the keys stands twice or something that is neither mapping nor null is there |
| ConfigPlaces.LookupIs | internal/fleet/config_redaction.go:251-265 | A lookup finds the one pair with its key, and tells none from several |
| YamlEntries.EntriesMet | internal/fleet/config_redaction.go:139-197 | The walk goes through exactly when some set of containers is not left by merging; it visits the least such set, and its entries are exactly the pairs of the mappings in it, each once |
| YamlTrace.WalkIsFold | internal/fleet/config_redaction.go:153-197 | The recursive walk, while the graph is rewritten under it, is a fold over the list of entries of the graph it started on |
| ConfigRoundTrip.RedactFold | internal/fleet/config_redaction.go:18-49 | Redaction goes through exactly if each value is a scalar and each name, as it shows by then, is new, and changes exactly the scalars the entries stand for |
| ConfigRoundTrip.ScanFold | internal/fleet/config_redaction.go:62-98 | Scanning a redacted graph changes nothing and goes through exactly when no merge key is hidden and the names shown differ |
| ConfigRoundTrip.CollectFold | internal/fleet/config_redaction.go:99-117 | Collecting goes through exactly when every value is a scalar and no name is met twice, and then finds every value under its name and nothing else |
| ConfigRoundTrip.RestoreFold | internal/fleet/config_redaction.go:118-137 | Restoring goes through exactly when every entry can be replayed in turn, and then every value is back in its place |
| ConfigRedaction.FindMappingValue | internal/fleet/config_redaction.go:251-265 | The loop finds the one pair with the key, or that there are two |
| ConfigEditor.Editor.ScalarEnvironmentValue | internal/fleet/config_redaction.go:199-212 | Following aliases gives the scalar an entry stands for, or none |
| ConfigEditor.Editor.Visit | internal/fleet/config_redaction.go:139-151 | One visit in place is one visit of the specification; a key seen before is refused |
| ConfigEditor.Editor.WalkNode | internal/fleet/config_redaction.go:153-197 | The walk in place, over a graph with sharing and cycles of merge keys, terminates and is the walk of the specification |
| ConfigEditor.Redact | internal/fleet/config_redaction.go:18-49 | Redacting in place is redacting as specified |
| ConfigEditor.Merge | internal/fleet/config_redaction.go:51-137 | Merging in place is merging as specified, and leaves the current configuration untouched |
| ObservationRoundTrip.ObservationRoundTrip | frontend/src/lib/mcp-events.ts:155-254 | Parsing a rendered observation gives back the id (trimmed), every valid attachment in order, and the content, exactly if anything follows it and else without its trailing newlines, whatever lines the content holds |
| ObservationFooter.FooterRoundTrip | frontend/src/lib/mcp-events.ts:196-254 | From what follows the content exactly the attachments listed are read, in order, and no error line is taken for one |
| ObservationItems.ItemRoundTrip | frontend/src/lib/mcp-events.ts:233-254 | A rendered attachment line is read back as that attachment |
| ObservationContent.PrefixOfContent | frontend/src/lib/mcp-events.ts:213-231 | Counting as many octets as Go counted ends exactly at the end of the content, whatever follows |
| ObservationContent.PrefixOfShort | frontend/src/lib/mcp-events.ts:213-231 | Counting more octets than a text has finds no end |
| ObservationContent.WidthIsOctets | frontend/src/lib/mcp-events.ts:217-224 | The widths used by the browser are the lengths of the UTF-8 encoding (section 3 of RFC 3629) |
| ObservationRoundTrip.IDFound | frontend/src/lib/mcp-events.ts:313-316 | The id is read from its line, past every other line; a blank one is passed over and the next line read instead |
| ObservationLines.MetadataShown | internal/app/app.go:812-833 | Id, observable, kind, severity, window and length each stand on a line of their own, and the mark of truncation and the artifact where the record has them |
| ObservationLines.ErrorsShown | internal/app/app.go:834-841 | So does every attachment error, with its path where it has one, and every stored one; the final trim touches none of them |
| JsonString.JsonRoundTrip | internal/app/app.go:895-896 | Reading a written JSON string gives the string back |
| JsonString.BodyOfEscaped | frontend/src/lib/mcp-events.ts:235-236 | The pattern finds the end of a written string, past every escape |
| ObservationText.RenderObservationText | internal/app/app.go:812-841 | The builder produces the text of the specification |
| ObservationText.WriteSection | internal/app/app.go:883-916 | Each list is written with its title, line by line, and nothing if it is empty |
| ObservationParser.Utf8PrefixCodeUnits | frontend/src/lib/mcp-events.ts:213-231 | The counting loop computes its specification |
| ObservationParser.ParseObservationAttachments | frontend/src/lib/mcp-events.ts:233-254 | The reading loop computes its specification: items up to the first line that is none |
| WorkProperties.WorkPartitions | frontend/src/lib/assistant-work-groups.ts:50-130 | The groups behind the output items, one after another, are the input |
| WorkGathering.ItemsGather | frontend/src/lib/assistant-work-groups.ts:50-130 | Which groups share an item, exactly: work begins with an assistant's group that uses a tool, goes on as long as there is nothing but work of the same model and turn, up to and including the first group with content, and stops short of that only at the end or before a group that differs or neither works nor answers; the last item is in progress exactly while it has no content and its turn is active |
| WorkGathering.ItemHolds | frontend/src/lib/assistant-work-groups.ts:240-301 | An item is named by a call of its first group, or by that group if it has none; it holds the work of its groups part by part, numbered, and once done the text and images of the last |
| WorkConservation.NothingVisibleIsLost | frontend/src/lib/assistant-work-groups.ts:50-130 | The items show every reasoning and tool unit, every nonblank text and every image exactly once, each kind in order |
| WorkConservation.CountedToolsAreShown | frontend/src/lib/assistant-work-groups.ts:303-309 | The tool count of an item is the number of tools it shows |
| WorkProperties.WorkAgrees | frontend/src/lib/assistant-work-groups.ts:79-105 | Within an item all nonblank models are the item's model; all turns agree if no input group that can be gathered with a later one has the empty string as turn id; an item in progress shows no content |
| WorkProperties.EmptyTurnSharesItem | frontend/src/lib/assistant-work-groups.ts:102-105 | Every group that can be gathered with a later one and has an empty turn id can stand among groups without any, in one item with groups of two different turns |
| WorkProperties.OnlyLastInProgress | frontend/src/lib/assistant-work-groups.ts:115-127 | At most the last item is in progress |
| WorkGroups.AssistantWorkItems | frontend/src/lib/assistant-work-groups.ts:50-130 | The loop terminates, although flushing does not advance it, and computes the items of the specification |
| WorkGroups.BuildWorkItem | frontend/src/lib/assistant-work-groups.ts:240-285 | The item is built as specified, process groups numbered in order |
| DisplayProperties.ToolsExplained | frontend/src/lib/display-units.ts:92-131 | Every tool use has exactly one tool, holding the last result that belongs to it; a result belongs to the latest earlier use with its id, and one that belongs to none has a tool of its own; there are no others |
| DisplayProperties.EveryToolShownOnce | frontend/src/lib/display-units.ts:69-149 | Over all groups every tool is shown exactly once, in order |
| DisplayProperties.UnitsShowNewTools | frontend/src/lib/display-units.ts:82-131 | A message shows exactly the tools its own blocks opened |
| DisplayContent.UnitsDisplay | frontend/src/lib/display-units.ts:82-131 | The units of a message stand in the order of its blocks: each text or image block one unit, each maximal stretch of adjacent reasoning one with its visible texts joined, redacted exactly if one of them was, each use and each lone result one |
| DisplayContent.GroupsPresent | frontend/src/lib/display-units.ts:131-149 | A message has a group if and only if it is pending or has a block that is not a result joined to an earlier tool; groups stand in the order of the messages and carry their fields |
| DisplayContent.TextAndImagesShown | frontend/src/lib/display-units.ts:82-91 | The text and image units of a group, batches flattened, are exactly the text and image blocks of its message, in order |
| DisplayContent.VisibleTextIs | frontend/src/lib/display-units.ts:167-188 | The text of reasoning that is seen: its own unless blank, else its content unless redacted |
| DisplayOutcomes.OutcomesShown | frontend/src/lib/display-units.ts:151-162 | Once the runtime's status is known, shown as failed are exactly the uses that are the latest of their id, to which no result belongs, of which the runtime knows nothing and which are not of the active turn; every other tool is as it was |
| DisplayProperties.GroupsAreWellBatched | frontend/src/lib/display-units.ts:190-214 | In every group batches hold at least two tools, and no tools or batches are adjacent |
| DisplayUnits.FoldFlattens | frontend/src/lib/display-units.ts:190-214 | Flattening the batches gives the units back |
| DisplayUnits.FoldToolBatches | frontend/src/lib/display-units.ts:190-214 | The loop with its buffer computes the batches of the specification |
| DisplayGrouping.MessagesToGroups | frontend/src/lib/display-units.ts:69-165 | With tools as shared objects completed in place, the groups are those of the specification and each object ends as its tool should |
| DisplayGrouping.Grouping.AddResult | frontend/src/lib/display-units.ts:109-129 | A result changes only the latest tool of its id, through the alias, or stands alone |
| DisplayGrouping.Grouping.MarkLost | frontend/src/lib/display-units.ts:151-162 | Exactly the calls that are the latest of their id, without state and result and not of the active turn, become failed |
| ThreadBatches.BatchesPartition | frontend/src/lib/thread-list.ts:14-30 | Every target is in exactly one batch, as often as it was given |
| ThreadBatches.BatchIsDepth | frontend/src/lib/thread-list.ts:24-29 | Each batch is the targets of one depth in the order given, and none is empty |
| ThreadBatches.GroupInOrder | frontend/src/lib/thread-list.ts:14-30 | The batch of a depth holds exactly the targets of that depth, in the order given |
| ThreadBatches.DepthCountsAncestors | frontend/src/lib/thread-list.ts:16-23 | The depth of a target is the number of its distinct ancestors other than itself, a missing one counted, whatever cycles there are |
| ThreadBatches.DescendantsFirst | frontend/src/lib/thread-list.ts:14-30 | A target the index knows stands in a strictly earlier batch than each of its ancestors that is not its own ancestor, whatever other cycles there are |
| ThreadBatches.OrderedIff | frontend/src/lib/thread-list.ts:14-30 | If the index knows the targets, all of them stand in earlier batches than their ancestors among them if and only if none is its own ancestor |
| ThreadBatches.CycleSharesBatch | frontend/src/lib/thread-list.ts:16-23 | Two threads that are each other's parent share a batch |
| ThreadBatches.ThreadBatchGroups | frontend/src/lib/thread-list.ts:14-30 | Grouping by depth and sorting the depths computes the batches of the specification |
| ThreadBatches.FindDepth | frontend/src/lib/thread-list.ts:16-23 | The ancestor walk terminates on any ancestry, cyclic ones included, and counts the depth of the specification |

## Left out

- Timestamps of messages and items, composer hints and their timers, the resume cursor of a
  stream, and notifications of errors: they do not influence what is proved.
- The details of submitting a prompt (thread-read-controller.ts:297-328): the controller may
  replace its projection by any other and run any refresh effects instead.
- The live state of input tracking and the list of compact commands in the projection.
- Loading tool results from their artifacts: the reducer receives the content as resolved.
- ThreadReadGuarantees.KeptHistoryIsAnnotated: does not claim a gap-free history, because a
  refresh that does not keep history resets it while an older-page load repeats its old cursor.
- Fleet selectors, permissions, management configuration publishing and the files behind a spawn:
  their outcomes are arbitrary answers. Polling intervals and deadlines are a number of ticks.
- The Supervisor's start, stop and restart action (supervisor_agent.go:288-335), which only adds
  locking around the lifecycle operations.
- FleetLifecycle.Manager.Reconcile: the health of an adopted agent is what was observed without a
  lock and may have changed since; the lock that keeps a second supervisor out and the texts of the
  reports are left out.
- FleetLifecycle.Manager.InspectRecordedProcess: reading a process may fail at any time, so it is not
  said when a dead process is found dead, only that what is found is true.
- LiveOutputStream.StreamContentClosedForm: counts are exact integers; rounding of counts beyond the
  integers JavaScript represents exactly is not modelled.
- YAML text parsing and printing: models start and end with the node graph.
- ConfigRecovery.RedactionIs: is about documents whose variables can be walked as they are; redacting
  another one may still go through where a merge key is redacted before it is read.
- ConfigRecovery.MergeOfRedacted: is about documents whose walk goes through; for others
  MergeUndoesRedact still says that nothing is recovered.
- ObservationParser.ParseObservationAttachments: the size is the exact number printed; rounding
  of sizes beyond the integers JavaScript represents exactly is not modelled.
- Whether a media type is an image is given by the media package, which is not part of this model.
- The summary of the latest tools of a work item, its title and duration, and model labels.
- DisplayGrouping.MessagesToGroups: the key of a group without an id is the pair of its turn and
  place instead of their text.
- Rendering of MCP notifications, HTTP, the user interface, and the startup of MCP servers.
