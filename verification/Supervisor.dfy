/**
 One job of the supervisor: the in-memory runtime, the durable record, and the history of what
 happened to them. Each function below is one section run under the job's coordination lock, given
 the outcome of every store write (`ok`) and of every foreign call it looks at.
 */
module Supervisor {
  import opened Protocol

  datatype Kind = PlanItem | FollowupItem | ContinueItem

  /** A queued prompt. `number` is its place in the order of acceptance; `gen` the stamp of the fence. */
  datatype Item = Item(number: nat, kind: Kind, connect: bool, planning: bool, gen: nat, requestID: Id)

  /** Continues that the supervisor issues by itself, which go to the front of the queue. */
  predicate Automatic(i: Item) {
    i.kind.ContinueItem? && !i.connect
  }

  // ---------------------------------------------------------------- history

  /**
   Who wrote the record: a turn, a turn from a copy read before, a turn that puts its item back, the dispatcher
   from its copy, a launch that had a turn give way, a follow-up or a continue (`live`: a terminal process is alive),
   the outcome of a cancellation, a plan decision, one that could not be delivered, a new approval, a session that came
   too late, or another caller.
   */
  datatype Writer =
    | ByTurn(turn: Id) | ByTurnCopy(turn: Id) | ByRequeue(turn: Id) | ByDispatchCopy | ByYield
    | ByFollowup(planning: bool, live: bool) | ByContinue(planning: bool, live: bool) | ByOutcome(failed: bool)
    | ByDecision(decision: Decision) | ByUndelivered | ByApproval | BySession | ByCaller

  /** Neither a turn nor the dispatcher nor a launch. */
  predicate Outside(w: Writer) {
    !w.ByTurn? && !w.ByTurnCopy? && !w.ByRequeue? && !w.ByDispatchCopy? && !w.ByYield?
  }

  datatype Cause = CancelledTurn | Disconnect | PlanCancelled | Yielded

  /** Which late thread makes the job headless. */
  datatype Origin = FailedLaunch(epoch: nat) | ClosedLaunch | FinishedDetach

  datatype Event =
    | Committed(job: Job, writer: Writer)
    | Accepted(item: Item)
    | Dequeued(turn: Id, item: Item)
    | TurnEnded(turn: Id)
    | RecordRead(turn: Id)
    | SetupBroke(turn: Id, loading: bool, disconnect: bool)
    | PromptCalled(turn: Id)
    | PromptReturned(turn: Id, failed: bool, disconnect: bool, marker: Option<TaskMarker>)
    | Bumped(cause: Cause)
    | Removed(numbers: seq<nat>)
    | Resolved(approval: Id, decide: Decide, failed: bool)
    | HeadedRequested(epoch: nat, saved: bool)
    | HeadlessRequested(closing: bool, fromClose: bool)
    | ViewReset
    | LaunchSaved(epoch: nat, saved: bool)
    | Installed(epoch: nat, handle: Option<Id>)
    | MadeHeadless(origin: Origin, alive: bool)
    | Crashed

  datatype History = Start | Then(past: History, event: Event)

  // ---------------------------------------------------------------- state

  datatype Runtime = Runtime(
    busy: bool, queue: seq<Item>, gen: nat, turnID: Id, requestID: Id,
    cancelledTurn: bool, ctxDone: bool, controlPending: bool,
    viewRequested: bool, viewEpoch: nat, attachGen: nat, term: Id)

  const FreshRuntime := Runtime(false, [], 0, 0, 0, false, false, false, false, 0, 0, 0)

  datatype Exit = NotYet | Gate(reason: GateReason) | CommitFailed | NothingToDo | Drained
  datatype GateReason = ClosedGate | ApprovalGate | DetachingGate | TuiGate

  /** `heads` counts the pump goroutines that stand at the top of their loop; `lastExit` how the last one left. */
  datatype Shared = Shared(
    job: Job, rt: Runtime, closed: bool, heads: nat, lastExit: Exit, accepted: nat, log: History)

  function Note(s: Shared, e: Event): Shared {
    s.(log := Then(s.log, e))
  }

  function Numbers(q: seq<Item>): seq<nat> {
    seq(|q|, i requires 0 <= i < |q| => q[i].number)
  }

  // ---------------------------------------------------------------- writes

  /** `PutJob` for the fields of the record: all of it, or nothing. */
  function Stamped(stored: Job, job: Job, phase: Phase): Job {
    job.(phase := StampedPhase(stored.requestID, job, phase))
  }

  function Commit(s: Shared, job: Job, phase: Phase, w: Writer, ok: bool): Shared {
    if !ok then s else
    var j := Stamped(s.job, job, phase);
    s.(job := j, log := Then(s.log, Committed(j, w)))
  }

  function Save(s: Shared, job: Job, w: Writer, ok: bool): Shared {
    Commit(s, job.(activeTurnID := s.rt.turnID), NoPhase, w, ok)
  }

  function SaveView(s: Shared, v: View, ok: bool): Shared {
    Save(s, s.job.(view := v), ByCaller, ok)
  }

  function FailedJob(job: Job): Job {
    var j := job.(state := JobState.Failed);
    if j.approval.delivery == Submitted
    then j.(pause := ApprovalUnknown, approval := j.approval.(delivery := Unknown, approved := false))
    else j
  }

  // ---------------------------------------------------------------- queue

  /** A queued item without its request falls back to the record's request, then the runtime's, then a new one. */
  function RequestOr(s: Shared, requestID: Id, newID: Id): Id {
    if requestID != 0 then requestID else if s.job.requestID != 0 then s.job.requestID
    else if s.rt.requestID != 0 then s.rt.requestID else newID
  }

  function Enqueue(s: Shared, q: Item, acceptedJob: Option<Job>, newID: Id, w: Writer, ok: bool): Shared {
    if s.closed || !ok then s else
    var item := q.(number := s.accepted, gen := s.rt.gen, requestID := RequestOr(s, q.requestID, newID));
    var s1 := Commit(s, if acceptedJob.Some? then acceptedJob.value else s.job, NoPhase, w, true);
    var s2 := Note(s1, Accepted(item));
    s2.(accepted := s.accepted + 1,
        heads := if s.rt.busy then s.heads else s.heads + 1,
        rt := s.rt.(queue := if Automatic(item) then [item] + s.rt.queue else s.rt.queue + [item]))
  }

  function Kick(s: Shared): Shared {
    if s.closed || s.rt.busy || s.rt.queue == [] then s else s.(heads := s.heads + 1)
  }

  function Held(job: Job, live: bool): bool {
    !job.view.owner.SupervisorOwner? || live
  }

  /** A plan waits for a decision, an answer for review, or a decision's delivery is unknown. */
  predicate ApprovalWaits(job: Job) {
    job.state.PlanReady? || job.pause.ReviewRequired? || job.approval.delivery.Unknown?
  }

  /** Why a pump at the top of its loop leaves without taking an item, if it does. */
  function GateOf(s: Shared, live: bool): Exit {
    if s.closed || s.rt.controlPending then Gate(ClosedGate)
    else if ApprovalWaits(s.job) && s.rt.queue != [] then Gate(ApprovalGate)
    else if s.job.view.mode.Detaching? && s.rt.queue != [] then Gate(DetachingGate)
    else if Held(s.job, live) && s.rt.queue != [] then Gate(TuiGate)
    else if s.rt.busy || s.rt.queue == [] then NothingToDo
    else NotYet
  }

  /** The record as the pump commits it when it takes `item` for turn `turn`. */
  function PreparedJob(job: Job, item: Item, turn: Id): Job {
    var j := job.(requestID := item.requestID, pause := NoPause, activeTurnID := turn);
    if item.planning
    then j.(state := JobState.Planning, approval := j.approval.(approved := false, content := ""))
    else if !j.state.PlanReady? then j.(state := JobState.Executing) else j
  }

  function Take(s: Shared, turn: Id, ok: bool): Shared
    requires s.heads > 0 && s.rt.queue != []
  {
    var item := s.rt.queue[0];
    var rt := s.rt.(queue := s.rt.queue[1..], busy := true, cancelledTurn := false, ctxDone := false, turnID := turn,
      requestID := item.requestID);
    var s1 := Note(s, Dequeued(turn, item)).(rt := rt, heads := s.heads - 1);
    if ok then Commit(s1, PreparedJob(s.job, item, turn), PreparingPhase, ByTurn(turn), true)
    else Note(s1, TurnEnded(turn)).(rt := rt.(busy := false, turnID := 0), lastExit := CommitFailed)
  }

  function PumpTop(s: Shared, turn: Id, live: bool, ok: bool): Shared
    requires s.heads > 0
  {
    var gate := GateOf(s, live);
    if !gate.NotYet? then s.(heads := s.heads - 1, lastExit := gate) else Take(s, turn, ok)
  }

  /** True when the pump goes on to run the turn it took. */
  predicate Took(s: Shared, live: bool, ok: bool) {
    GateOf(s, live).NotYet? && ok
  }

  // ---------------------------------------------------------------- turns

  predicate Fenced(s: Shared, item: Item) {
    item.gen != s.rt.gen
  }

  function MarkSent(s: Shared, turn: Id, ok: bool): Shared {
    Commit(s, s.job.(activeTurnID := turn), SentPhase, ByTurn(turn), ok)
  }

  function DisconnectedJob(job: Job): Job {
    var j := job.(view := View(Headless, Headless, SupervisorOwner),
                  state := if job.state.PlanReady? then job.state else JobState.Disconnected);
    if j.approval.delivery == Submitted
    then j.(pause := ApprovalUnknown, approval := j.approval.(delivery := Unknown, approved := false))
    else if j.state.PlanReady? then j.(pause := ApprovalExpired, approval := j.approval.(delivery := Expired))
    else j
  }

  /** The bump is noted after the write it goes with; both belong to one locked section. */
  function DisconnectLocked(s: Shared, w: Writer, ok: bool): Shared {
    if s.job.userCancelled then s else
    var s1 := Save(Note(s, ViewReset), DisconnectedJob(s.job), w, ok);
    var s2 := Note(Note(s1, Bumped(Disconnect)), Removed(Numbers(s.rt.queue)));
    s2.(rt := s.rt.(gen := s.rt.gen + 1, cancelledTurn := true, queue := [], ctxDone := s.rt.busy,
                    term := 0, viewRequested := false, attachGen := s.rt.attachGen + 1))
  }

  /** The record after an answer: an unmarked one waits for review, a marked one follows its marker. */
  function AnsweredJob(s: Shared, turn: Id, marker: Option<TaskMarker>): Job {
    var j := s.job.(activeTurnID := 0, resultTurnID := turn, pause := NoPause);
    var k := if j.approval.delivery == Submitted then j.(approval := j.approval.(delivery := Confirmed)) else j;
    match marker
    case None => k.(state := JobState.NeedsInput, pause := ReviewRequired)
    case Some(MarkerWorking) => k.(state := JobState.Executing)
    case Some(MarkerNeedsInput) => k.(state := JobState.NeedsInput)
    case Some(MarkerBlocked) => k.(state := JobState.Blocked)
    case Some(MarkerCompleted) => k.(state := if s.rt.queue != [] then JobState.Executing else JobState.Completed)
  }

  /** `cancelledRequest`: the request's row is already cancelled. `ok2`: the write of the automatic continue. */
  function ApplyResult(s: Shared, item: Item, turn: Id, marker: Option<TaskMarker>, cancelledRequest: bool, ok: bool,
    ok2: bool): Shared {
    if Fenced(s, item) || cancelledRequest || s.job.userCancelled || !ok then s else
    var s1 := Commit(s, AnsweredJob(s, turn, marker), ReturnedPhase, ByTurn(turn), true);
    if marker == Some(MarkerWorking) && s1.job.view.owner.SupervisorOwner?
    then Enqueue(s1, Item(0, ContinueItem, false, false, 0, item.requestID), None, 0, ByTurn(turn), ok2)
    else s1
  }

  /** What `runItem` hands back to the pump. */
  datatype Finish =
    | Nothing
    | Reenqueue
    | LoadFailed
    | SetupFailed(disconnect: bool, copy: Job)
    | PromptFailed(disconnect: bool)
    | Answer(marker: Option<TaskMarker>)

  function RunFinish(s: Shared, item: Item, turn: Id, f: Finish, cancelledRequest: bool, ok: bool, ok2: bool): Shared {
    match f
    case Nothing => s
    case Reenqueue => Enqueue(s, item, None, 0, ByRequeue(turn), ok)
    case LoadFailed => if Fenced(s, item) then s else DisconnectLocked(s, ByTurn(turn), ok)
    case SetupFailed(disconnect, copy) =>
      if Fenced(s, item) then s
      else if disconnect then DisconnectLocked(s, ByTurn(turn), ok)
      else Save(s, FailedJob(copy), ByTurnCopy(turn), ok)
    case PromptFailed(disconnect) =>
      if Fenced(s, item) then s
      else if disconnect then DisconnectLocked(s, ByTurn(turn), ok)
      else Save(s, FailedJob(s.job), ByTurn(turn), ok)
    case Answer(marker) => ApplyResult(s, item, turn, marker, cancelledRequest, ok, ok2)
  }

  /** The pump's last section for a turn; it goes round again when items were waiting before `f` ran. */
  function EndTurn(s: Shared, item: Item, turn: Id, f: Finish, cancelledRequest: bool, ok: bool, ok2: bool): Shared {
    var more := s.rt.queue != [];
    var s1 := Note(s, TurnEnded(turn)).(rt := s.rt.(busy := false, ctxDone := false, turnID := 0));
    var s2 := RunFinish(s1, item, turn, f, cancelledRequest, ok, ok2);
    if more then s2.(heads := s2.heads + 1) else s2.(lastExit := Drained)
  }

  // ---------------------------------------------------------------- control

  function Followup(s: Shared, requestID: Id, planning: bool, live: bool, ok: bool): Shared {
    if s.job.state.Cancelled? || (s.job.state.PlanReady? && s.job.pause != ApprovalExpired) then s else
    var j := s.job.(requestID := requestID, pause := NoPause, resultTurnID := 0, state := JobState.Executing);
    var k := if planning then j.(state := JobState.Planning, approval := j.approval.(approved := false, content := ""))
      else j;
    var acceptedJob := if !s.rt.busy && !Held(s.job, live) then Some(k) else None;
    Enqueue(s, Item(0, FollowupItem, true, planning, 0, requestID), acceptedJob, 0, ByFollowup(planning, live), ok)
  }

  /** The rows leave the record and everything but the queue and the pumps alone. */
  function EnqueueAll(s: Shared, rows: seq<(Id, bool)>): (r: Shared)
    ensures r.job == s.job && r.closed == s.closed && r.rt == s.rt.(queue := r.rt.queue)
    ensures s.rt.queue <= r.rt.queue
    decreases |rows|
  {
    if rows == [] then s else
    var s1 := if rows[0].0 == s.job.requestID then s
              else Enqueue(s, Item(0, FollowupItem, true, rows[0].1, 0, rows[0].0), None, 0, ByCaller, true);
    EnqueueAll(s1, rows[1..])
  }

  predicate RequestQueued(s: Shared, requestID: Id) {
    requestID != 0 && exists i | 0 <= i < |s.rt.queue| :: s.rt.queue[i].requestID == requestID
  }

  /** `planning` comes from the request's row; `rows` are the queued rows re-enqueued before any write failed. */
  function Continue(s: Shared, planning: bool, live: bool, rows: seq<(Id, bool)>, newID: Id, ok: bool): Shared {
    if !AcceptsTurnControl(s.job) || (s.job.state.PlanReady? && s.job.pause != ApprovalExpired) then s
    else if Held(s.job, live) then
      if RequestQueued(s, s.job.requestID) then s
      else Enqueue(s, Item(0, ContinueItem, true, planning, 0, s.job.requestID), None, newID,
        ByContinue(planning, live), ok)
    else
      var j := s.job.(state := JobState.Executing, pause := NoPause,
        approval := s.job.approval.(delivery := NoDelivery));
      var k := if planning then j.(state := JobState.Planning, approval := j.approval.(approved := false)) else j;
      var restore := s.rt.queue == [] && (!s.rt.busy || s.rt.cancelledTurn);
      var s1 := Enqueue(s, Item(0, ContinueItem, true, planning, 0, s.job.requestID), Some(k), newID,
        ByContinue(planning, live), ok);
      if restore && ok && !s.closed then EnqueueAll(s1, rows) else s1
  }

  function Without(q: seq<Item>, requestID: Id): (r: seq<Item>)
    ensures |r| <= |q|
  {
    if q == [] then [] else
    (if q[0].requestID == requestID then [] else [q[0]]) + Without(q[1..], requestID)
  }

  function Only(q: seq<Item>, requestID: Id): (r: seq<Item>)
    ensures |r| <= |q|
  {
    if q == [] then [] else
    (if q[0].requestID == requestID then [q[0]] else []) + Only(q[1..], requestID)
  }

  datatype CancelOutcome = CancelRefused | CancelRemoved | CancelActive

  /**
   Where a cancellation goes. `persisted`: the request's row is still queued; `updated`: its row could be
   cancelled.
   */
  function CancelTarget(s: Shared, requestID: Id, turnID: Id, persisted: bool, updated: bool): CancelOutcome {
    var active := s.rt.busy && requestID == s.rt.requestID;
    var queued := RequestQueued(s, requestID) || persisted;
    if !AcceptsTurnControl(s.job) then CancelRefused
    else if requestID != 0 && turnID != 0 && !(active && turnID == s.rt.turnID) then CancelRefused
    else if requestID != 0 && turnID == 0 && queued && !active then if updated then CancelRemoved else CancelRefused
    else if requestID != 0 && !active then CancelRefused
    else CancelActive
  }

  function CancelRequest(s: Shared, requestID: Id, turnID: Id, persisted: bool, updated: bool): Shared {
    if !CancelTarget(s, requestID, turnID, persisted, updated).CancelRemoved? then s else
    Note(s, Removed(Numbers(Only(s.rt.queue, requestID)))).(rt := s.rt.(queue := Without(s.rt.queue, requestID)))
  }

  function Restamp(q: seq<Item>, gen: nat): seq<Item> {
    seq(|q|, i requires 0 <= i < |q| => q[i].(gen := gen))
  }

  predicate CancelStarts(s: Shared, expected: Id) {
    AcceptsTurnControl(s.job) && !s.rt.controlPending && (expected == 0 || expected == s.rt.turnID)
  }

  function CancelStart(s: Shared, expected: Id, ok: bool): Shared {
    if !CancelStarts(s, expected) then s else
    var gen := s.rt.gen + 1;
    var s1 := Note(s, Bumped(CancelledTurn)).(
      rt := s.rt.(gen := gen, cancelledTurn := true, controlPending := true, ctxDone := s.rt.busy,
        queue := Restamp(s.rt.queue, gen)));
    Save(s1, s.job.(state := JobState.NeedsInput, pause := CancelDelivery), ByCaller, ok)
  }

  /** `failed`: the agent did not confirm the cancellation. */
  function CancelFinish(s: Shared, generation: nat, failed: bool, ok: bool): Shared {
    var s1 := s.(rt := s.rt.(controlPending := false));
    var s2 := if s.rt.gen == generation
              then Save(s1, s.job.(pause := if failed then CancelUnknown else NoPause), ByOutcome(failed), ok) else s1;
    if failed || (s.rt.gen == generation && !ok) then s2 else Kick(s2)
  }

  /** What the caller of PlanDecide names, and what the agent says about that approval. */
  datatype Decision = Decision(approvalID: Id, requestID: Id, turnID: Id, planVersion: nat, decide: Decide, notes: bool)
  datatype PlanRequest = PlanRequest(id: Id, connectionID: Id, sessionID: Id, requestID: Id, turnID: Id,
    supportsNotes: bool)

  predicate Decidable(s: Shared, d: Decision, pending: Option<PlanRequest>) {
    && s.job.state.PlanReady? && s.job.approval.delivery != Submitted
    && d.approvalID != 0 && d.approvalID == s.job.approval.id && d.requestID == s.job.requestID
    && d.turnID == s.job.approval.planTurnID && d.planVersion == s.job.approval.planVersion
    && (d.decide.Approve? ==> s.job.approval.content != "")
    && pending.Some?
    && pending.value.connectionID == s.job.approval.connectionID && pending.value.requestID == s.job.requestID
    && pending.value.turnID == s.job.approval.planTurnID && pending.value.sessionID == s.job.sessionID
    && (d.notes ==> pending.value.supportsNotes)
  }

  function SubmittedJob(job: Job, decide: Decide): Job {
    var j := job.(approval := job.approval.(delivery := Submitted), pause := DeliveringApproval);
    match decide
    case Approve => j.(state := JobState.Executing, approval := j.approval.(approved := true))
    case Revise => j.(state := JobState.Planning, approval := j.approval.(approved := false))
    case CancelPlan => j.(state := JobState.Cancelled, userCancelled := true)
  }

  function PlanSubmit(s: Shared, d: Decision, pending: Option<PlanRequest>, ok: bool): Shared {
    if !Decidable(s, d, pending) then s else Save(s, SubmittedJob(s.job, d.decide), ByDecision(d), ok)
  }

  /** `failed`: ResolveApproval returned an error. */
  function PlanFinish(s: Shared, approvalID: Id, decide: Decide, failed: bool, ok: bool): Shared {
    var stillOpen := failed && s.job.approval.id == approvalID && s.job.approval.delivery == Submitted;
    var s1 := if !stillOpen then s else
      Save(s, s.job.(state := JobState.NeedsInput, pause := ApprovalUnknown,
                     approval := s.job.approval.(delivery := Unknown, approved := false)), ByUndelivered, ok);
    if !decide.CancelPlan? || (stillOpen && !ok) then s1 else
    Note(Note(s1, Bumped(PlanCancelled)), Removed(Numbers(s.rt.queue))).(
      rt := s1.rt.(gen := s1.rt.gen + 1, cancelledTurn := true, queue := [], ctxDone := s1.rt.busy))
  }

  predicate ApprovalValid(s: Shared, p: PlanRequest) {
    && p.id != 0 && p.connectionID != 0 && p.requestID != 0 && p.turnID != 0 && p.sessionID != 0
    && p.sessionID == s.job.sessionID
    && s.rt.busy && s.rt.turnID == p.turnID && s.rt.requestID == p.requestID && !s.rt.cancelledTurn
    && !s.job.userCancelled && s.job.requestID == p.requestID
  }

  /** `content`: the plan text, from the request or from the plan file; "" when neither has it. */
  function OnApproval(s: Shared, p: PlanRequest, content: string, ok: bool): Shared {
    if !ApprovalValid(s, p) || p.id == s.job.approval.id then s else
    Save(s, s.job.(state := JobState.PlanReady,
                   pause := if content == "" then PlanContentMissing else ApprovalPause,
                   approval := Approval(p.id, p.connectionID, p.supportsNotes, Pending, false,
                                        s.job.approval.planVersion + 1, p.turnID, content)), ByApproval, ok)
  }

  // ---------------------------------------------------------------- start, close and restart

  /** The first section of `startJob`; `copy` is the record as it was dispatched. */
  function StartBegin(s: Shared, copy: Job, ok: bool): Shared {
    Save(s, copy.(state := JobState.Starting), ByDispatchCopy, ok)
  }

  /** The section after NewSession; `copy` and `gen` are from the first. `sessionID` is 0 when the call failed. */
  function StartFinish(s: Shared, copy: Job, gen: nat, sessionID: Id, planning: bool, ok: bool, ok2: bool): Shared {
    if s.rt.gen != gen || s.closed then
      if sessionID != 0 then Save(s, s.job.(sessionID := sessionID), BySession, ok) else s
    else if sessionID == 0 then Save(s, FailedJob(copy), ByDispatchCopy, ok)
    else if !ok then s
    else
      var j := copy.(sessionID := sessionID, state := if planning then JobState.Planning else JobState.Executing,
                     view := copy.view.(desired := Headless));
      Enqueue(Save(s, j, ByDispatchCopy, true), Item(0, PlanItem, false, planning, 0, copy.requestID), None, 0,
        ByCaller, ok2)
  }

  function CloseAll(s: Shared): Shared {
    s.(closed := true, rt := s.rt.(ctxDone := s.rt.busy, term := 0))
  }

  /** What a restart writes into a record it finds; the record itself when it leaves it alone. */
  function AwaitingResume(job: Job): Job {
    if job.userCancelled then job else
    var j := if job.state.PlanReady? then job.(pause := ApprovalExpired, approval := job.approval.(delivery := Expired))
      else job;
    var k := if j.approval.delivery == Submitted
             then j.(pause := ApprovalUnknown, approval := j.approval.(delivery := Unknown, approved := false)) else j;
    var active := IsActive(k.state) || k.state.Disconnected?;
    if !active && !k.state.PlanReady? && k.view == View(Headless, Headless, SupervisorOwner) then job else
    var l := if !active then k else
      k.(state := JobState.Disconnected,
         pause := if k.pause != NoPause then k.pause
                  else if k.phase.QueuedPhase? || k.phase.PreparingPhase? then RequestNotSent else ExecutionUnknown);
    l.(view := View(Headless, Headless, SupervisorOwner))
  }

  function Restart(s: Shared, ok: bool): Shared {
    var s1 := Note(Note(s, Removed(Numbers(s.rt.queue))), Crashed).(
      rt := FreshRuntime, closed := false, heads := 0, lastExit := NotYet);
    if AwaitingResume(s.job) == s.job then s1 else Commit(s1, AwaitingResume(s.job), NoPhase, ByCaller, ok)
  }

  // ---------------------------------------------------------------- views

  /** SetView(headed) and OpenTerminal: the job asks for a terminal and leaves the supervisor's hands. */
  function RequestHeaded(s: Shared, ok: bool): Shared {
    var epoch := s.rt.viewEpoch + 1;
    var v := View(if s.job.view.mode.Headless? then Attaching else s.job.view.mode, Headed,
                  if s.job.view.owner.SupervisorOwner? then HandoffOwner else s.job.view.owner);
    SaveView(Note(s, HeadedRequested(epoch, ok)).(rt := s.rt.(viewRequested := true, viewEpoch := epoch)), v, ok)
  }

  function RequestHeadless(s: Shared, ok: bool): Shared {
    var s1 := Note(s, HeadlessRequested(false, false)).(
      rt := s.rt.(viewRequested := false, viewEpoch := s.rt.viewEpoch + 1));
    SaveView(s1, s.job.view.(desired := Headless), ok)
  }

  predicate ViewCurrent(s: Shared, epoch: nat) {
    s.rt.viewRequested && s.rt.viewEpoch == epoch
  }

  /** `expected` is 0 for a detach that no view request started. */
  predicate DetachCurrent(s: Shared, expected: nat) {
    expected == 0 || s.rt.viewEpoch == expected
  }

  /** Nothing is left to close: the job is already headless and the supervisor's. */
  predicate DetachIdle(s: Shared, fromClose: bool) {
    !fromClose && s.job.view.mode.Headless? && s.job.view.owner.SupervisorOwner?
  }

  function DetachBegin(s: Shared, fromClose: bool, expected: nat, ok: bool): Shared {
    if !DetachCurrent(s, expected) then s else
    var s1 := Note(s, HeadlessRequested(!DetachIdle(s, fromClose), fromClose)).(
      rt := s.rt.(viewRequested := false, viewEpoch := s.rt.viewEpoch + 1));
    if DetachIdle(s, fromClose) then
      if s.job.view.desired.Headless? then s1 else SaveView(s1, s.job.view.(desired := Headless), ok)
    else
      var s2 := SaveView(s1, s.job.view.(desired := Headless, mode := Detaching), ok);
      if fromClose then s2 else s2.(rt := s2.rt.(attachGen := s2.rt.attachGen + 1, term := 0))
  }

  predicate DetachOwnsView(s: Shared, gen: nat) {
    s.rt.attachGen == gen && !s.rt.viewRequested
  }

  /** The worker outlives its closed window: the job is headless and stays with the terminal. */
  function DetachToBackground(s: Shared, ok: bool): Shared {
    SaveView(Note(s, MadeHeadless(FinishedDetach, true)), s.job.view.(mode := Headless, owner := TuiOwner), ok)
  }

  function DetachFinish(s: Shared, gen: nat, ok: bool): Shared {
    if !DetachOwnsView(s, gen) then s else
    Kick(SaveView(Note(s, MadeHeadless(FinishedDetach, false)),
                  s.job.view.(mode := Headless, owner := SupervisorOwner), ok))
  }

  predicate ApprovalHoldsTurn(job: Job) {
    job.state.PlanReady? || job.pause == ApprovalPause || job.pause == PlanContentMissing
  }

  /** The turn waiting for an approval gives way to a terminal. Queued items keep their old stamp. */
  function YieldBump(s: Shared): Shared {
    if !s.rt.busy then s else
    Note(s, Bumped(Yielded)).(rt := s.rt.(cancelledTurn := true, gen := s.rt.gen + 1, ctxDone := true))
  }

  function YieldedJob(job: Job): Job {
    var j := if job.state.PlanReady? || job.approval.delivery == Pending
             then job.(approval := job.approval.(delivery := Expired)) else job;
    var running := j.state.PlanReady? || j.state.Executing? || j.state.Planning? || j.state.Starting?;
    j.(state := if running then JobState.NeedsInput else j.state,
       pause := ExecutionUnknown, activeTurnID := 0)
  }

  function YieldMark(s: Shared, ok: bool): Shared {
    Commit(s, YieldedJob(s.job), UnknownPhase, ByYield, ok)
  }

  function LaunchSave(s: Shared, epoch: nat, ok: bool): Shared {
    if !ViewCurrent(s, epoch) then s else
    SaveView(Note(s, LaunchSaved(epoch, ok)), View(Attaching, Headed, HandoffOwner), ok)
  }

  function CommitHeaded(s: Shared, epoch: nat, handle: Id, ok: bool): Shared {
    if s.closed || !ViewCurrent(s, epoch) then s else
    SaveView(Note(s, Installed(epoch, Some(handle))).(rt := s.rt.(term := handle, attachGen := s.rt.attachGen + 1)),
             View(Headed, Headed, TuiOwner), ok)
  }

  /** The live terminal of an earlier launch is shown again. */
  function MarkHeaded(s: Shared, epoch: nat, ok: bool): Shared {
    if !ViewCurrent(s, epoch) then s else
    SaveView(Note(s, Installed(epoch, None)), View(Headed, Headed, TuiOwner), ok)
  }

  function HeadlessView(alive: bool): View {
    View(Headless, Headless, if alive then TuiOwner else SupervisorOwner)
  }

  function FailHeadless(s: Shared, epoch: nat, alive: bool, ok: bool): Shared {
    if !ViewCurrent(s, epoch) then s else
    var s1 := Note(s, MadeHeadless(FailedLaunch(epoch), alive)).(
      rt := s.rt.(viewRequested := false, viewEpoch := epoch + 1));
    SaveView(s1, HeadlessView(alive), ok)
  }

  function ReconcileClosed(s: Shared, alive: bool, ok: bool): Shared {
    if s.rt.viewRequested then s else
    SaveView(Note(s, MadeHeadless(ClosedLaunch, alive)), HeadlessView(alive), ok)
  }

  /** The watcher of a terminal that went away forgets it, unless a newer one took its place. */
  function WatchEnded(s: Shared, handle: Id, gen: nat): Shared {
    if s.rt.term != handle || s.rt.attachGen != gen then s else s.(rt := s.rt.(term := 0))
  }
}
