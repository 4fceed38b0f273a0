# A verified model of the Grok supervisor

This project models how the supervisor runs jobs, stores them, answers callers and talks to its agent, and proves
what the design relies on: that one turn of a job runs at a time, that a late turn changes no record, that a plan
decision is delivered once, that a terminal never opens over a running turn, that queued work is neither lost nor
reordered, that a chain of waits reports each boundary once, that a request with effects is never put on the wire
twice, and that the self-contained algorithms (paging, mode scanning, tracing, task states) keep their promises.
Where the code keeps less than that, the model keeps the code as it is; a run that shows the gap is proved, and so is
the condition under which the promise holds.

`dafny verify dfyconfig.toml` checks everything.

## How the model is built

**The job machine** is in seven layers.

- `Protocol.dfy` holds the job record and its enumerations. Ids are numbers, 0 being the empty string.
- `Supervisor.dfy` gives one function for each section that runs under a job's coordination lock: what it does to the
  record, the runtime and a history of events, for every outcome of its store writes (`ok`) and of the foreign calls
  it looks at. A store write commits as a whole or leaves nothing.
- `JobRuntime.dfy` is the same in the supervisor's own form: an object whose methods update it in place. Every method
  is proved to do exactly what the function does.
- `Runs.dfy` interleaves these sections with everything that can be under way at the same time: turns between their
  dequeue and their end, cancellations and plan decisions waiting for the agent, launches and detaches of terminals, a
  dispatch waiting for its session, disconnects, crashes and restarts. Every sequence of actions is a run, because an
  action that is not enabled changes nothing.
- `JobMachine.dfy` puts the two together: an object that carries out every action with the methods of `JobRuntime` and is
  proved to be in the state of the run after any sequence of them, so the run theorems are theorems about the object.
- `RunTurns.dfy`, `RunApprovals.dfy`, `RunQueue.dfy`, `RunViews.dfy` and `RunGates.dfy` prove one aspect each over all
  runs, by an invariant that every action keeps. `RunLimits.dfy` holds the runs that show where a promise ends. `ViewSteps.dfy`
  classifies the actions that only concern views.
- `Writes.dfy` says, from the history alone and without looking at the sections, what every write may make of the record:
  what the turn's answer or failure was, which decision was made, which record had been read. `RunRecords.dfy` proves that
  every write of every run is such a write, and from it what answers and plan decisions come to. `RunRuntime.dfy` does the
  same for the runtime, and proves exactly when each section goes ahead.

History predicates such as `FencedWrites` or `HandoffExcludesTurns` are recursive: they speak about every event of a
run given what came before it, so they are safety statements over whole runs and not about final states.

**The store and waiting**: `Store.dfy` has the tables and their transactions, `Rows.dfy` tells from the transactions alone
what the records, the notifications and the rows of accepted requests say, and `Wait.dfy` has the waits on top of them. A
wait is given every sequence of transactions and every moment at which each of its jobs is looked at.

**The rest** stands alone: `Ipc.dfy` (client and retrying session), `AgentApprovals.dfy` (pending permissions),
`Lifecycle.dfy` (the one connection of the agent), `Paging.dfy`, `Console.dfy`, `Trace.dfy`, and `TaskState.dfy` with the
grammar of JSON objects in `Grammar.dfy`. Outcomes of the network, the agent and other threads are parameters or steps
with arbitrary values.

## What the code does not keep

- While a terminal request stands the supervisor keeps the input exactly if it held the job and the request was not
  saved, or if a turn or the dispatcher wrote back a copy of the record that said so, and no later record moved the input
  (`RunViews.LeftWithSupervisor`). Then a turn can be taken, and the launch saves its view over it; that is exactly when
  a launch does (`RunViews.RunsHandOver`). Both ways are shown: `RunLimits.UnsavedRequestOpensOverATurn`,
  `RunLimits.StaleCopyTakesTheInputBack`.
- A turn that yields to a terminal moves the fence without restamping the queue, so a request that waited behind it is
  taken from the queue and dropped: `RunLimits.YieldLeavesARequestBehind`. An item is outside the fence exactly if a yield
  came after it was accepted and nothing restamped the queue since (`RunQueue.RunsConserveTheQueue`).
- A turn that is cancelled after it has read a record under which a terminal is being closed puts its item back when it
  ends, inside the new fence, so the cancelled work waits again: `RunLimits.CancelledItemComesBack`. That is the one
  write of a turn outside the fence, it leaves the record as it was, and nothing else of a late turn has any effect
  (`RunTurns.LateTurnsPutBack`).
- When a prompt goes out the record says "sent" for it exactly if the dispatcher's copy of a new job, or the mark of a
  yielded turn, was not written in between (`RunGates.RunsRecordTheirPrompts`). The copy also puts back the dispatched
  request: `RunLimits.DispatchCopyHidesAPrompt`. The copy is written only while the job has no session, so in that run the
  agent has loaded and prompted a session without a name; an agent that refuses such a session does not allow it.
- A turn that fails before its prompt writes back the record it had read, and with it the request, the approval and the
  pause of that time: whatever callers wrote meanwhile is gone (`RecordWrites.CopyWrites`, in
  `RunRecords.RunsExplainTheRecord`).
- A dequeue whose commit fails has already taken its item (`internal/supervisor/fifo.go:174-215`); the item counts as
  gone and the pump leaves, which is one of the two exits that `RunQueue.RunsLoseNoWakeup` names.
- A stall that is raised under an unchanged reason reaches a boundary without a notification: `JobStore.SilentStall`. No
  caller of PutJob stores a reason without a stall, so this is a gap of PutJob taken by itself.
- A wait for "any" job that times out moves its cursors past boundaries that it does not return; a completion that
  arrives while something is still queued can go unreported for good: `Waiting.AnyTimeoutSwallows`. What such a timeout
  loses is exactly the completions it saw with a turn still running or items queued (`Waiting.TimeoutLoses`,
  `Waiting.PassedExactly`); when it moves a cursor at all is in `Waiting.TimeoutSkips`.
- An empty trace snapshot skips a matching event that is emitted between its two reads of the log, and nothing else is
  ever skipped: `Trace.SnapshotSkips`.
- A mode sequence that two reads cut more than 128 bytes after its start, the length of the kept tail, is lost, so the
  bound of `Console.ChunksDoNotMatter` cannot be moved: `Console.LongSequenceIsLost`.
- A call with effects whose answer cannot be decoded fails with an error that looks certain, although its whole request
  left: `Ipc.UnreadableAnswerLooksCertain`. Nothing else does (`Ipc.EffectsLeaveOnce`).
- The comment on the uncertain error (`internal/ipc/errors.go:8-9`) speaks of lost responses; the code marks errors that
  the peer did return as uncertain as well, and the model follows the code.

## Model

| member | source | states |
|---|---|---|
| RunTurns.RunsKeepTheFence | internal/supervisor/fifo.go:165-360 | In every run: a turn is dequeued only when none is in flight and its id is new; a turn writes the record only if no cancel, disconnect, plan cancellation or yield came since its dequeue, but for the write that puts its item back, which leaves the record as it was; a prompt is sent once, after the durable record said "sent" for that very turn, and only for an item taken inside the fence; once a record says the user cancelled, every later one does and no prompt is sent; the job is busy exactly when it has a turn id, and that turn is the only one under way |
| RunTurns.LateTurnsPutBack | internal/supervisor/fifo.go:222-278 | In every run, a turn that ends outside the fence leaves the record as it is; its item is accepted again, inside the fence, if and only if the turn had read a detaching record, the service is open and the write succeeds, and otherwise the turn does nothing |
| RunApprovals.RunsDeliverOnce | internal/supervisor/plan.go:29-103 | In every run, through disconnects, crashes and restarts: each approval id reaches ResolveApproval at most once and only after a durable record marked it submitted, and an id whose delivery was recorded as confirmed or unknown is never recorded as submitted again |
| RunViews.RunsHandOver | internal/supervisor/view.go:193-237 | In every run: while a terminal request stands the supervisor owns the input exactly if the job was left with it, by an unsaved request or a copy written back; a turn is taken under the request only then; when a launch saves its view a turn is in flight exactly if it was taken so, and none is dequeued until a record gives the input back to the supervisor; a launch saves and a terminal is installed only for the request that stands, an older detach, failed launch or closed launch changes nothing under a newer request; the record turns headless, headed or the supervisor's only with such an event |
| RunQueue.RunsConserveTheQueue | internal/supervisor/fifo.go:32-84 | In every run: each accepted item is waiting or gone, exactly once; items are dequeued in order of acceptance but for automatic continues; a waiting item is outside the fence, and an item is dequeued outside it, exactly if a yield came after its acceptance and nothing restamped the queue since |
| RunQueue.RunsLoseNoWakeup | internal/supervisor/fifo.go:86-239 | In every run: when items wait and no turn runs, some pump is on its way, or the last one left at a named gate or on a failed commit |
| RunGates.RunsRecordTheirPrompts | internal/supervisor/fifo.go:142-334 | In every run, when a prompt goes out, whatever came since its turn was taken: the durable record holds no plan waiting for a decision and no cancellation by the user, names the request of the turn's item unless the dispatcher's copy came since, and says "sent" for that very turn exactly if no dispatcher's copy and no yield mark was written over it; and turns are taken only while the record has no open plan, review, unknown decision or detach, and leaves the input with the supervisor |
| RunGates.NoTurnDuringACancel | internal/supervisor/cancel.go:109-137 | In every run: while a cancellation is on its way to the agent no pump takes a turn |
| RunRecords.RunsExplainTheRecord | internal/supervisor/turn.go:31-243 | In every run every write has its cause in the history before it, and changes nothing else: a turn writes its request when it is taken, "sent" when it is marked, and at its end what its answer, its failure or the lost connection makes of the job; a copy is the record that the turn had read; follow-ups, continues, cancellations, decisions, approvals, yields, view events, the dispatcher and restarts each write what they stand for; every item is accepted as it was asked for and dequeued as it was accepted |
| RunRecords.RunsSettleAnswers | internal/supervisor/turn.go:57-96 | In every run, a record that a turn writes as returned follows an answer to its prompt: it is blocked exactly for a blocked marker, waits for review exactly for an answer without one, for input exactly for needs_input, is completed exactly for completed with nothing waiting, executes exactly for working or for completed with items waiting; it names the turn as its result and confirms a submitted decision |
| RunRecords.RunsSettleDecisions | internal/supervisor/plan.go:29-81 | In every run, a record newly submits a decision exactly if it writes one down, which names the open approval, its request, turn and version; it is executing, planning or cancelled exactly for approve, revise or cancel; the agent is handed that decision; at every write the record is approved exactly if the last decision on its approval was to approve and nothing took that back, and cancelled by the user exactly if a decision cancelled the plan |
| RunRuntime.RuntimeFollows | internal/supervisor/fifo.go:176-234 | In every run the runtime holds what the history says: the request of the turn in flight; that it is cancelled exactly if the fence moved since it was taken, and its context over exactly then or when the service closed; the terminal that was installed last or none; and a new attachment generation for each one installed, dropped or lost |
| RunRuntime.PumpsTakeExactly | internal/supervisor/fifo.go:128-217 | In every run a pump takes the first item exactly if the service is open, no cancellation is under way, no plan, review, unknown decision or detach stands open, the supervisor holds the job with no terminal alive, no turn is in flight and an item waits |
| RunRuntime.TurnsAreMarkedExactly | internal/supervisor/fifo.go:319-333 | In every run a turn that got ready is marked sent exactly if its item is inside the fence, the service is open and the write succeeds |
| RunRuntime.AnswersApplyExactly | internal/supervisor/turn.go:31-109 | In every run an answer is written down exactly if its turn is inside the fence, nobody cancelled its request or the job and the write succeeds; a continue is queued ahead of everything exactly if it is marked working, the supervisor holds the job and the service is open |
| RunRuntime.ApprovalsOpenExactly | internal/supervisor/plan.go:113-174 | In every run a new approval opens a plan exactly if it names the turn in flight, its request and session, and the turn is not cancelled |
| RunRuntime.DecisionsAreTakenExactly | internal/supervisor/plan.go:16-81 | In every run a plan decision is written down exactly if it is on the open plan as it stands and the agent waits for that very approval; a refused one does nothing |
| RunRuntime.CancelsBeginExactly | internal/supervisor/cancel.go:94-128 | In every run a cancellation begins exactly if the job takes control, none is under way and the expected turn is the one in flight |
| RunRuntime.CancelTargetExactly | internal/supervisor/cancel.go:18-68 | In every run, exactly when a request's cancellation empties its place in the queue and when it goes to the turn in flight |
| RunRuntime.FollowupsAreTakenExactly | internal/supervisor/turn.go:111-172 | A follow-up goes behind everything that waits exactly if the job is not cancelled, no plan is open and it can be written |
| RunRuntime.ContinuesAreTakenExactly | internal/supervisor/turn.go:174-243 | In every run, exactly when a continue is accepted, and that the rows of the other requests follow it, each once and in order, exactly if nothing waited and no turn still to answer runs |
| RunRuntime.DetachesBegin | internal/supervisor/view.go:616-662 | In every run a detach that goes on belongs to the terminal of that moment |
| RunRuntime.DetachesFinishExactly | internal/supervisor/view.go:722-743 | In every run a detach brings the input back, and wakes the queue, exactly if since it began no terminal was installed or dropped, the connection was not lost and none is asked for |
| RunRuntime.RestartsPutToRest | internal/supervisor/recover.go:28-72 | In every run a restart leaves a record cancelled by the user, and one at rest, alone, and puts any other to rest |
| RunQueue.CancelledRequestLeaves | internal/supervisor/cancel.go:70-92 | Cancelling a queued request removes exactly its items; any two others keep their order |
| RunQueue.CancelledTurnKeepsTheQueue | internal/supervisor/cancel.go:112-121 | Cancelling the active turn keeps every waiting item in its place, restamped so that the fence lets it through |
| RunLimits.UnsavedRequestOpensOverATurn | internal/supervisor/view.go:28-45 | A run in which the record of a terminal request is not saved and the launch later saves its view while a turn is in flight |
| RunLimits.StaleCopyTakesTheInputBack | internal/supervisor/fifo.go:267-318 | A run in which a failing turn writes back the record it had read, and the supervisor owns the input although a saved terminal request stands; carried on, the launch saves its view while a turn is in flight |
| RunLimits.DispatchCopyHidesAPrompt | internal/supervisor/service.go:328-340 | A run in which a prompt goes out while the record names another request and does not say "sent" |
| RunLimits.CancelledItemComesBack | internal/supervisor/fifo.go:275-278 | A run in which a turn reads a detaching record, is cancelled, and its item is accepted again inside the fence |
| RunLimits.YieldLeavesARequestBehind | internal/supervisor/view.go:277-292 | A run in which a follow-up that nobody cancelled is taken outside the fence after a yield, and is not sent |
| RunLimits.NeverSent | internal/supervisor/fifo.go:319-334 | In any run, what a turn took outside the fence is never sent |
| JobRuntime.JobRuntime.PutJob | internal/supervisor/fifo.go:373-386 | A failed write changes nothing; a committed one replaces the record, with the phase it names or "queued" for a new request |
| JobRuntime.JobRuntime.Save | internal/supervisor/service.go:524-549 | Saving writes the record with the runtime's turn id |
| JobRuntime.JobRuntime.SaveView | internal/supervisor/coordinator.go:28-39 | Saving a view changes the view fields of the current record only |
| JobRuntime.JobRuntime.Fail | internal/supervisor/service.go:636-648 | Failing a job makes a submitted approval's delivery unknown |
| JobRuntime.JobRuntime.Enqueue | internal/supervisor/fifo.go:32-84 | An accepted item is stamped, written with its job, put last (automatic continues first) and gets a pump when none runs; a closed service or a failed write accepts nothing |
| JobRuntime.JobRuntime.Kick | internal/supervisor/fifo.go:86-99 | A pump starts only for waiting items of an idle, open job |
| JobRuntime.JobRuntime.PumpTop | internal/supervisor/fifo.go:128-217 | The gates in their order; past them the first item is taken, the job prepared and committed, or the turn given up when the commit fails |
| JobRuntime.JobRuntime.MarkSent | internal/supervisor/fifo.go:319-333 | The turn is marked sent only inside the fence and with its context alive; otherwise nothing changes |
| JobRuntime.JobRuntime.ApplyPromptResult | internal/supervisor/turn.go:31-109 | An answer is applied inside the fence only, and work goes on by an automatic continue; which state each marker leads to is in RunsSettleAnswers |
| JobRuntime.JobRuntime.EndTurn | internal/supervisor/fifo.go:222-239 | The turn ends, its closing action is applied under the fence, and the pump goes round when items were waiting |
| JobRuntime.JobRuntime.DisconnectLocked | internal/supervisor/recover.go:84-129 | A disconnect clears the queue, the terminal and the view, moves the fence and settles the approval, unless the user cancelled |
| JobRuntime.JobRuntime.Followup | internal/supervisor/turn.go:111-172 | A follow-up is refused for cancelled jobs and open plans, and changes the record only when the job is free |
| JobRuntime.JobRuntime.RequestQueued | internal/supervisor/view.go:246-259 | Whether some waiting item belongs to the request |
| JobRuntime.JobRuntime.Continue | internal/supervisor/turn.go:174-243 | A continue resumes the current request, once while the terminal holds the job, and brings back the durable queue when it was empty |
| JobRuntime.JobRuntime.Restore | internal/supervisor/turn.go:233-241 | The durable rows other than the current request's are enqueued in their order |
| JobRuntime.JobRuntime.CancelRequest | internal/supervisor/cancel.go:18-68 | Which cancellations are refused, which remove queued items and which go to the active turn |
| JobRuntime.JobRuntime.CancelQueued | internal/supervisor/cancel.go:70-92 | The queue without the items of the request |
| JobRuntime.JobRuntime.CancelStart | internal/supervisor/cancel.go:94-128 | A cancellation moves the fence, restamps the queue and closes the pump's gate; a stale or second one is refused |
| JobRuntime.JobRuntime.Restamp | internal/supervisor/cancel.go:115-117 | Every waiting item takes the current generation and nothing else changes |
| JobRuntime.JobRuntime.CancelFinish | internal/supervisor/cancel.go:134-159 | The gate opens; the outcome is written if the fence has not moved since, and a confirmed cancellation wakes the pump |
| JobRuntime.JobRuntime.PlanSubmit | internal/supervisor/plan.go:16-89 | A decision is accepted exactly when it names the open approval, its request, turn, version and connection, and is written down as submitted; what it does to the job is in RunsSettleDecisions |
| JobRuntime.JobRuntime.PlanFinish | internal/supervisor/plan.go:90-111 | A failed delivery becomes unknown if it is still the submitted one; a plan cancellation clears the queue and moves the fence |
| JobRuntime.JobRuntime.OnApproval | internal/supervisor/plan.go:113-174 | Only a complete request of the turn in flight opens an approval, with a new version; a repeated one changes nothing |
| JobRuntime.JobRuntime.StartBegin | internal/supervisor/service.go:328-340 | Starting writes the dispatched copy and notes the generation |
| JobRuntime.JobRuntime.StartFinish | internal/supervisor/service.go:341-386 | A superseded start only keeps its session; otherwise the job starts with its first item, or fails |
| JobRuntime.JobRuntime.Close | internal/supervisor/service.go:195-234 | Closing ends the turn's context and lets the terminal go |
| JobRuntime.JobRuntime.Restart | internal/supervisor/service.go:178-193 | A new process has a fresh runtime and the record put to rest |
| JobRuntime.JobRuntime.MarkAwaitingResume | internal/supervisor/recover.go:28-72 | An active record becomes disconnected, an open plan expires, a submitted decision becomes unknown, and the view headless; other records stay |
| JobRuntime.JobRuntime.RequestHeaded | internal/supervisor/view.go:27-45 | A terminal request starts a new view epoch and takes the input from the supervisor |
| JobRuntime.JobRuntime.RequestHeadless | internal/supervisor/view.go:46-57 | A headless request starts a new view epoch and withdraws the terminal request |
| JobRuntime.JobRuntime.DetachBegin | internal/supervisor/view.go:616-662 | A stale detach does nothing, an idle one only settles the wish, any other marks the job detaching and forgets the terminal |
| JobRuntime.JobRuntime.DetachCheck | internal/supervisor/view.go:664-694 | A detach overtaken by a request stops; a worker that lives on keeps the input |
| JobRuntime.JobRuntime.DetachFinish | internal/supervisor/view.go:722-743 | The input returns to the supervisor only if no newer request or launch came, and the queue is woken |
| JobRuntime.JobRuntime.YieldBump | internal/supervisor/view.go:282-295 | A yielding turn moves the fence and loses its context |
| JobRuntime.JobRuntime.MarkYieldedRequest | internal/supervisor/view.go:320-355 | The yielded request waits for input with its phase and outcome unknown, and an open approval expires |
| JobRuntime.JobRuntime.LaunchSave | internal/supervisor/view.go:589-598 | The launch's view is saved only for the request that stands |
| JobRuntime.JobRuntime.CommitHeaded | internal/supervisor/view.go:411-439 | A terminal is installed only for the request that stands and an open service |
| JobRuntime.JobRuntime.MarkHeaded | internal/supervisor/view.go:556-580 | A terminal that is still alive is shown again only for the request that stands |
| JobRuntime.JobRuntime.WatchEnded | internal/supervisor/view.go:441-471 | A terminal that went away is forgotten unless a newer one took its place |
| JobRuntime.JobRuntime.FailHeadless | internal/supervisor/view.go:380-409 | A failed launch makes the job headless only while its own request stands, and ends that request |
| JobRuntime.JobRuntime.ReconcileClosed | internal/supervisor/view.go:357-378 | A closed launch makes the job headless only when no request stands |
| JobMachine.JobMachine.Do | internal/supervisor/fifo.go:128-360 | Every action, carried out by the object's methods, takes the object to the state that the machine's step has |
| JobMachine.Drive | internal/supervisor/fifo.go:128-360 | After any sequence of actions the object is in the state of the run, keeps the fence and the send discipline, has delivered each decision once, and every write of it is explained |
| JobStore.Store.PutJob | internal/store/store.go:141-257 | The new tables after a write: record, cursor, notification and request rows |
| JobStore.Store.UpdateRows | internal/store/store.go:220-254 | Each request row after the statements of one write, applied in their order |
| JobStore.Store.DeleteJob | internal/store/store.go:361-379 | Everything of the job is gone and nothing else |
| JobStore.Store.CancelQueuedRequest | internal/store/notifications.go:104-111 | A waiting row of the request is cancelled; true exactly when there was one |
| JobStore.Store.ReadQueuedRequests | internal/store/notifications.go:34-49 | The queued rows of the job in the order of acceptance |
| JobStore.Store.WaitSnapshot | internal/store/notifications.go:52-96 | The record and the notifications of its own request after the cursor; nothing for a missing job or a cursor ahead of it |
| JobStore.CursorsAreGreatest | internal/store/store.go:166-187 | After any transactions: each record's cursor is the greatest id of its notifications, 0 without any; ids ascend, and no notification outlives its job |
| JobStore.BoundariesAgree | internal/store/store.go:166-187 | After any transactions whose stalls carry a reason: a record at a boundary agrees on all seven fields with the notification its cursor names |
| JobStore.SilentStall | internal/store/store.go:167-168 | Without that, a record can stand at a boundary with no notification at all |
| JobStore.CursorNeverDecreases | internal/store/store.go:166-187 | Until its job is deleted, a cursor never goes back |
| JobStore.IdsAreNeverReused | internal/store/store.go:173-180 | A notification numbered below the counter of an earlier time was there at that time, deletions or not |
| JobStore.OneNotificationPerId | internal/store/store.go:173-180 | One id read at two times names the same notification |
| JobStore.CancelDropsOneRequest | internal/store/notifications.go:104-111 | After a successful cancellation the queued requests are the same without that one, in order |
| JobStore.CancelTouchesOneRequest | internal/store/notifications.go:104-111 | Other jobs' queues do not change, nor the job's own when no row of the request was waiting |
| WorkRows.QueueFollowsOps | internal/store/notifications.go:34-49 | After any transactions, told from them alone: the queued requests of a job are those that stand accepted, whose writes named no other phase, and that no cancellation, of theirs or of their job by the user, has taken; in order of acceptance |
| WorkRows.RowsFollowOps | internal/store/store.go:220-254 | After any transactions every row has the phase named last, is completed or cancelled exactly if the transactions say so, and the rows stand in order of acceptance |
| WorkRows.CompletedStays | internal/store/store.go:225-227 | A completed request stays completed, and is never cancelled, until a result names it or its job is deleted |
| WorkRows.WriteSettles | internal/store/store.go:225-254 | After a write a row has its result's state and turn if there is one, else stays as it was completed, else has the job's state and turn if it is the job's request, and the phase that was named |
| WorkRows.RecordsFollowOps | internal/store/store.go:141-165 | After any transactions a record holds what was last written of its job, with the phase named, "queued" for a changed request, or its own |
| WorkRows.NotifiesExactly | internal/store/store.go:166-187 | A write adds a notification exactly if its job stands at a boundary or is stalled and differs in one of the seven fields from the last write before it |
| Waiting.Validate | internal/supervisor/wait.go:14-38 | Exactly the requests with known mode, timeout, distinct ids and cursors of those ids are accepted |
| Waiting.TakeSnapshot | internal/supervisor/wait.go:56-103 | The loop over the jobs finds the boundaries, cursors and hits of the specification, or the first failure |
| Waiting.Wait | internal/supervisor/wait.go:104-149 | The waiting loop answers on the first ready snapshot, or reports at the timeout |
| Waiting.AnswersMoveForward | internal/supervisor/wait.go:56-148 | In any answer no cursor is before the caller's; boundaries are notifications of the jobs asked about, each once, after the caller's cursor and up to the answer's; a timed-out answer has none, and a timed-out "all" consumes nothing |
| Waiting.AnyWaitMissesNothing | internal/supervisor/wait.go:72-103 | A wait for any job never times out past a snapshot in which a job could be acted on and was news to the caller |
| Waiting.HitsExactly | internal/supervisor/wait.go:71-92 | A job makes a wait answer exactly if it stands at a boundary or is stalled, has not completed while a turn runs or items wait, and the caller gave no cursor or an older one |
| Waiting.ReachedMeansActionable | internal/supervisor/wait.go:86-103 | An answered wait saw something to act on: one job, or every one in mode "all" |
| Waiting.BoundariesAreReported | internal/supervisor/wait.go:74-90 | An answer shows, for each job whose record stands at a boundary new to the caller, the very notification of that boundary |
| Waiting.CarriedGrows | internal/supervisor/wait.go:56-103 | Along a chain of waits no cursor goes back |
| Waiting.ChainsReportOnce | internal/supervisor/wait.go:56-148 | Along a chain each notification id is in at most one answer |
| Waiting.TimeoutSkips | internal/supervisor/wait.go:119-145 | A timeout moves a cursor exactly when it waits for any job and the job had a newer notification |
| Waiting.TimeoutLoses | internal/supervisor/wait.go:71-145 | A wait for any job that times out passes a record at a boundary new to the caller only if it completed while a turn ran or items were queued, and then no answer of the whole chain reports that boundary's notification |
| Waiting.PassedExactly | internal/supervisor/wait.go:71-103 | A snapshot of a wait for any job is passed over exactly if every new boundary in it is such a completion and nothing else could be acted on |
| Waiting.AnyTimeoutSwallows | internal/supervisor/wait.go:119-145 | A completion seen while something is queued can be passed by a timeout and never be reported |
| Ipc.ClassifyWrite | internal/ipc/disconnect.go:20-34 | A request counts as not sent exactly when no byte left and the error is a disconnect; a failed sent one is uncertain, an unsent one disconnected |
| Ipc.Client.Receive | internal/ipc/client.go:53-76 | A response reaches the call that sent its id, once, and no other |
| Ipc.Client.InvokeOnce | internal/ipc/client.go:87-141 | One whole call: its bytes are written at most once, under a new id, and any byte makes the request sent; it succeeds exactly if all of it left and the first response with its own id, among all that came in, is no error; the other calls get what those responses bring them |
| Ipc.OwnReply | internal/ipc/client.go:53-76 | Whatever lines arrive, a waiting call gets the first response with its id and nothing else, and the other calls get what they would get without it |
| Ipc.Client.Call | internal/ipc/client.go:78-85 | An error that is not uncertain means that no byte left; errors the peer returns are uncertain as well |
| Ipc.CallIsHonest | internal/ipc/client.go:78-141 | A call succeeds exactly if the peer answered it without an error, its request left whole then, and no byte of it left when it fails for certain |
| Ipc.Session.Ready | internal/runtime/session.go:59-116 | Hands out a client exactly when it has no error, and that client is the session's own: the live one, another caller's or a new one; none once closed, also when it is closed during a wait or a dial |
| Ipc.Session.Invalidate | internal/runtime/session.go:125-132 | Only the client that failed is dropped |
| Ipc.Session.CallClient | internal/runtime/session.go:134-166 | At most two attempts, those of which CallsSucceedExactly speaks; an effect leaves once in the sense of EffectsLeaveOnce |
| Ipc.EffectsLeaveOnce | internal/runtime/session.go:134-166 | Whatever happens: an effect has bytes on the wire in at most one attempt, in exactly the last when it succeeds; when it fails for certain no byte left if and only if the last attempt was not one whose answer could not be decoded |
| Ipc.CallsSucceedExactly | internal/runtime/session.go:134-166 | Whatever happens to its two attempts: a second one follows exactly if the context is alive and the first was in vain for a read, or never left for an effect; the call succeeds exactly if one of the attempts is answered without an error and readably, and fails for want of a client exactly if one cannot be had |
| Ipc.ClientsAreHadExactly | internal/runtime/session.go:59-116 | A client is had exactly if the session is open and has a live one, or another caller brings one, or dialing succeeds |
| Ipc.UnreadableAnswerLooksCertain | internal/ipc/client.go:143-152 | An effect whose answer cannot be decoded fails with a certain error after its whole request left |
| AgentApprovals.Agent.Begin | internal/agent/grok.go:321-345 | A permission waits under a new channel and id, unless it is stale or its session already waits |
| AgentApprovals.Agent.ClearPending | internal/agent/grok.go:272-285 | A leaving waiter takes its session's entries only while its own channel is the pending one |
| AgentApprovals.Agent.PendingApproval | internal/agent/approval.go:19-27 | The approval is shown while its connection is current and its session waits |
| AgentApprovals.Agent.ResolveApproval | internal/agent/approval.go:28-58 | A decision is accepted exactly for the identity it names, and a refused one changes nothing |
| AgentApprovals.Agent.Lost | internal/agent/lifecycle.go:148-166 | A lost connection leaves no approval open |
| AgentApprovals.RunsKeepTheTable | internal/agent/grok.go:272-364 | In every interleaving: waiting sessions and open approvals match one to one through the channel's owner, and what is handed over and taken is the owner's own decision, once |
| AgentApprovals.OneApprovalPerWaiter | internal/agent/grok.go:327-345 | A session waits exactly when it has an open approval, it has one at most, and that one's waiter owns the channel |
| AgentApprovals.WaitersAreEmpty | internal/agent/approval.go:49-57 | A waiting channel is empty, so an acceptable decision is never refused as a second one |
| AgentApprovals.OneDecisionPerApproval | internal/agent/approval.go:28-58 | No two accepted decisions are on one approval, and what a waiter takes is the one made on its own |
| AgentApprovals.OthersStay | internal/agent/grok.go:272-285 | A late clear by another waiter leaves the newer one pending with its approval |
| AgentApprovals.PermissionsAreAskedExactly | internal/agent/grok.go:321-345 | In every run a permission request is taken up exactly if its origin still stands and its session does not wait; it names the connection and the session's last prompt |
| AgentApprovals.DecisionsAreAcceptedExactly | internal/agent/approval.go:28-58 | In every run a decision is accepted exactly if it names an open approval of the current connection in its id, session, request, turn and connection, with notes only where offered |
| Lifecycle.Leader.EnsureLeader | internal/agent/lifecycle.go:62-86 | A caller is refused, served or sent to wait; an attempt starts only when none is under way |
| Lifecycle.Leader.Publish | internal/agent/lifecycle.go:110-122 | A connection is published unless the agent was closed meanwhile |
| Lifecycle.Leader.FinishAttempt | internal/agent/lifecycle.go:127-133 | Only the attempt itself clears its mark |
| Lifecycle.Leader.MonitorEnds | internal/agent/lifecycle.go:148-168 | A monitor clears the connection only if it is its own |
| Lifecycle.Leader.Take | internal/agent/lifecycle.go:245-263 | A release takes whatever is published and leaves no connection |
| Lifecycle.OneStartAtATime | internal/agent/lifecycle.go:62-134 | In every run at most one attempt starts a connection or has not told its callers yet |
| Lifecycle.NothingLeaks | internal/agent/lifecycle.go:95-174 | In every run, when no one is at work, every set of resources that was ever opened is closed or is the published one |
| Lifecycle.ConnectionsEndOnce | internal/agent/lifecycle.go:148-168 | In every run a connection ends by its own monitor or by a release, and is never replaced by another |
| Lifecycle.ClosedStaysClosed | internal/agent/lifecycle.go:235-268 | After a Close has returned there is no connection in any continuation |
| Paging.ClampJobLimit | internal/protocol/group.go:88-96 | Limits stay between 1 and the maximum, and sensible ones stay as they are |
| Paging.JobsTotallyOrdered | internal/protocol/group.go:42-53 | CompareJobs is antisymmetric, transitive, and distinguishes jobs with different ids |
| Paging.CursorsFollowTheOrder | internal/store/store.go:318-330 | The keyset condition of the query is exactly that order |
| Paging.OrderedSorts | internal/store/store.go:331-333 | The sorted rows are the rows, each as often, in the order of CompareJobs |
| Paging.PageThenRest | internal/store/store.go:350-358 | What a page's cursor leads to is exactly what the page left out |
| Paging.WalkVisitsAll | internal/store/store.go:283-359 | From any cursor and with any limits, the pages together are the sorted rest |
| Paging.PagesVisitEveryJobOnce | internal/store/store.go:283-359 | From the empty cursor, with any filter and limits: the walk ends and visits every matching job exactly once, in order, and no other |
| Paging.BeforeExactly | internal/protocol/group.go:42-53 | Open jobs come first, then what changed last, what was made last, and the greater id |
| Paging.PagesAreFilled | internal/store/store.go:284-358 | A page holds the first of all that is left, up to the limit, and says exactly whether there is more |
| Console.Console.Output | internal/ownedprocess/console.go:47-56 | One read updates modes, tail and bounded history |
| Console.Console.RecordModes | internal/ownedprocess/console.go:76-89 | The loop applies every sequence of the tail and the new part, and keeps the new tail |
| Console.Console.SetModes | internal/ownedprocess/console.go:79-83 | Each number between semicolons is set, empty and too large ones are not |
| Console.Console.Restore | internal/ownedprocess/console.go:91-108 | One sequence for each known mode, in ascending order |
| Console.ChunksDoNotMatter | internal/ownedprocess/console.go:73-89 | However the output is cut: modes, tail and history are those of one scan of all of it, when no sequence exceeds the tail by more than one byte |
| Console.RestoredModes | internal/ownedprocess/console.go:91-108 | Printing the modes and scanning the result gives the same modes |
| Console.ParamsExactly | internal/ownedprocess/console.go:79-83 | A sequence sets exactly the modes that stand as numbers between its semicolons or ends and are not too large, all the same way |
| Console.ModesExactly | internal/ownedprocess/console.go:76-84 | A scan sets exactly the modes that some sequence in the output names, each as the last one says |
| Console.LongSequenceIsLost | internal/ownedprocess/console.go:85-88 | A sequence cut in two reads is kept exactly as it would be whole if its first part fits into the tail, and lost if it does not |
| Console.LostMode | internal/ownedprocess/console.go:85-88 | A sequence of any length beyond the tail that does set a mode, and is lost when it is cut before its last byte |
| Trace.Log.Emit | internal/trace/log.go:161-207 | An event gets the next number of its job, goes to the window and the file, and touches no other job; dropped levels change nothing |
| Trace.Log.After | internal/trace/log.go:333-351 | The events after the cursor, from the window when it reaches back far enough and from the file when not |
| Trace.Log.Page | internal/trace/log.go:209-248 | The events come from the log as it was at the start, the last number from the log as it is at the end, whatever is emitted in between; the loop stops at the limit and the byte budget and moves the cursor as specified |
| Trace.WindowAgreesWithFile | internal/trace/log.go:333-376 | At every cursor the bounded window answers what the whole log would |
| Trace.SnapshotSkips | internal/trace/log.go:219-247 | The cursor moves over exactly what is returned if and only if the page is not empty or no matching event came between its two reads |
| Trace.ChainsReturnAll | internal/trace/log.go:209-248 | A chain of snapshots over a growing log, with any limits, returns every matching event up to its cursor once and in order; after an empty one, all of them |
| Trace.PagesAreFilled | internal/trace/log.go:209-248 | A snapshot holds as many of the first matching events as the limit and the byte budget allow, and the first in any case |
| TaskState.PiecesReadBack | internal/protocol/taskstate.go:29-33 | A string is read back as what it stands for, in whatever way RFC 8259 allows to spell it: plain, by short escapes, by code units in either case, by surrogate pairs |
| TaskState.DecodesExactly | internal/protocol/taskstate.go:29-33 | A text is decoded into three fields exactly if it is an object in the grammar of RFC 8259, with any white space, members in any order and strings in any spelling, whose last members under the three keys say so |
| TaskState.QuotedRoundTrip | internal/protocol/taskstate.go:42-45 | Any string, escaped and closed by a quote, is read back with what follows it |
| TaskState.DecodeEncoded | internal/protocol/taskstate.go:29-45 | The printed object is one of the grammar, and is decoded into the same three fields |
| TaskState.TaskStateRoundTrip | internal/protocol/taskstate.go:19-45 | A rendered state is parsed back from any text in which it is the last one, whatever its summary and next contain |
| TaskState.TaskStateExactly | internal/protocol/taskstate.go:19-40 | A text has a task state exactly if a closing tag follows its last opening tag and up to the first such closing tag stands, with any space around it, an object of the grammar whose last members say that state, with a known marker. For objects of strings with the keys as they are printed; see below |
| TaskState.NoStateWithoutBlock | internal/protocol/taskstate.go:19-27 | A text without an opening tag, or without a closing tag after the last one, has no task state |

## Left out

- Display texts, activity times, digests and elapsed time; answers to callers show the stored record without them.
- The wall clock: timeouts are steps, and the timer of a wait is its last snapshot.
- Deletion of a job together with its running pump, the adoption of a terminal that already runs, and the watchdog's
  stall flags.
- The single-flight flag `attaching` of launches: the model lets the launches of a job interleave freely, which only
  adds runs.
- The rows of `work_requests` in the job machine: what a continue finds there is arbitrary. Their own rules are in
  `Store.dfy` and `Rows.dfy`.
- Assumptions about foreign parties: ids from the uuid library are new, and the agent asks for approval of a turn only
  after that turn was passed to Prompt.
- SQLite, migrations, projects and settings; a transaction is all or nothing.
- JobRuntime.JobRuntime.EndTurn: the goroutine of the pump is split at its locked sections, so its loop is a sequence of
  PumpTop and EndTurn calls with other sections in between.
- Ipc.Session.Ready: other callers' dialing and closing are seen only through what they leave behind, and subscriptions
  are not carried over to a new client.
- Ipc.Client.InvokeOnce: one call's own steps in order; the ids other calls take and the lines that arrive are its
  parameters.
- Waiting.TakeSnapshot: the texts that an answer clears are not modelled.
- Paging.PagesVisitEveryJobOnce: the table does not change during the walk, the text search is an arbitrary predicate,
  and the base64 and JSON coding of cursors is left out.
- Trace.ChainsReturnAll: a named job in one process, whose file is complete and not rotated; an event is appended to the
  file before the next snapshot reads it.
- TaskState.DecodesExactly: the decoder reads objects of strings only; other JSON values, and keys in another case, count
  as malformed or unknown.
- TaskState.TaskStateExactly: so its "only if" speaks of such objects; the program's decoder also takes keys in another
  case, other values under unknown keys, and null.
- JobRuntime.JobRuntime.Close: closing the service takes effect between two locked sections. In the program it can fall
  inside a section of the pump before the turn's cancel function is set, and that turn's context then survives it.
- Lifecycle.NothingLeaks: closing the same resources twice is harmless and not distinguished.
- The terminal viewers, process groups, pipes, the ACP library and the user interface.
