/**
 What every write may make of the record, told from the history before it: which turn is in flight, what its prompt or
 its setup came to, which record it had read, which decision was made. Nothing here looks at the sections themselves.
 */
module RecordWrites {
  import opened Protocol
  import opened Supervisor
  import opened Runs
  import opened ViewSteps
  import RunQueue

  // ---------------------------------------------------------------- what a history says

  function TurnOf(h: History): Option<Id> {
    match h
    case Start => None
    case Then(p, e) => if e.Dequeued? then Some(e.turn) else if e.TurnEnded? || e.Crashed? then None else TurnOf(p)
  }

  /** The turn id that a save puts into the record. */
  function TurnID(h: History): Id {
    if TurnOf(h).Some? then TurnOf(h).value else 0
  }

  function ItemOf(h: History, turn: Id): Option<Item> {
    match h
    case Start => None
    case Then(p, e) => if e.Dequeued? && e.turn == turn then Some(e.item) else ItemOf(p, turn)
  }

  /** The item as it was accepted under its number. */
  function AcceptedAs(h: History, n: nat): Option<Item> {
    match h
    case Start => None
    case Then(p, e) => if e.Accepted? && e.item.number == n then Some(e.item) else AcceptedAs(p, n)
  }

  /** The record that the turn read before it got ready. */
  function ReadBy(h: History, turn: Id): Option<Job> {
    match h
    case Start => None
    case Then(p, e) => if e == RecordRead(turn) then LastJob(p) else ReadBy(p, turn)
  }

  /** What the turn's setup or prompt came to. */
  function EndOf(h: History, turn: Id): (r: Option<Event>)
    ensures r.Some? ==> (r.value.SetupBroke? || r.value.PromptReturned?) && r.value.turn == turn
  {
    match h
    case Start => None
    case Then(p, e) =>
      if (e.SetupBroke? || e.PromptReturned?) && e.turn == turn then Some(e) else EndOf(p, turn)
  }

  /** The marker of the answer to the turn's prompt, if there was an answer. */
  function AnswerTo(h: History, turn: Id): Option<Option<TaskMarker>> {
    var end := EndOf(h, turn);
    if end.Some? && end.value.PromptReturned? && !end.value.failed then Some(end.value.marker) else None
  }

  /** The turn failed because the agent is gone; a session that cannot be loaded counts, but for a first prompt. */
  predicate LosesAgent(h: History, turn: Id) {
    var end := EndOf(h, turn);
    && end.Some? && (end.value.PromptReturned? ==> end.value.failed)
    && (end.value.disconnect || (end.value.SetupBroke? && end.value.loading && !FirstPrompt(h, turn)))
  }

  predicate FirstPrompt(h: History, turn: Id) {
    ItemOf(h, turn).Some? && ItemOf(h, turn).value.kind.PlanItem?
  }

  /** The turn failed, and the agent is still there. */
  predicate Breaks(h: History, turn: Id) {
    var end := EndOf(h, turn);
    end.Some? && (end.value.PromptReturned? ==> end.value.failed) && !LosesAgent(h, turn)
  }

  /** The dispatched record. */
  function FirstJob(h: History): Option<Job> {
    match h
    case Start => None
    case Then(p, e) => if p.Start? && e.Committed? then Some(e.job) else FirstJob(p)
  }

  predicate CopyWritten(h: History) {
    match h
    case Start => false
    case Then(p, e) => (e.Committed? && e.writer.ByDispatchCopy?) || CopyWritten(p)
  }

  /** A decision on this approval was handed to the agent and refused. */
  predicate Undelivered(h: History, id: Id) {
    match h
    case Start => false
    case Then(p, e) => (e.Resolved? && e.approval == id && e.failed) || Undelivered(p, id)
  }

  /**
   The last decision on the record's approval was to approve it, and nothing has taken that back: no new approval, no
   planning, no delivery in doubt. A turn that puts back the record it had read puts back what that said.
   */
  predicate Approved(h: History) {
    match h
    case Start => false
    case Then(p, e) =>
      if !e.Committed? then Approved(p)
      else if e.writer.ByDecision? then e.writer.decision.decide.Approve?
      else if e.writer.ByApproval? || e.writer.ByDispatchCopy? || e.job.approval.delivery.Unknown? then false
      else if e.writer.ByTurnCopy? then ReadApproved(p, e.writer.turn)
      else !e.job.state.Planning? && Approved(p)
  }

  predicate ReadApproved(h: History, turn: Id) {
    match h
    case Start => false
    case Then(p, e) => if e == RecordRead(turn) then Approved(p) else ReadApproved(p, turn)
  }

  /** The user has cancelled the job with a plan decision. */
  predicate PlanWasCancelled(h: History) {
    match h
    case Start => false
    case Then(p, e) =>
      (e.Committed? && e.writer.ByDecision? && e.writer.decision.decide.CancelPlan?) || PlanWasCancelled(p)
  }

  // ---------------------------------------------------------------- turns

  /** A turn that is taken makes its own request the current one, and plans or executes as its item says. */
  predicate Takes(p: History, b: Job, a: Job, turn: Id) {
    p.Then? && p.event.Dequeued? && p.event.turn == turn &&
    var item := p.event.item;
    && a == b.(state := a.state, requestID := item.requestID, pause := NoPause, phase := PreparingPhase,
               activeTurnID := turn, approval := a.approval)
    && (if item.planning
        then a.state.Planning? && a.approval == b.approval.(approved := false, content := "")
        else a.state.Executing? && a.approval == b.approval)
  }

  /**
   An answered turn names itself as the result and confirms a submitted decision. The job is blocked exactly for that
   marker, waits for review exactly if the answer has none, for input exactly if it asks for it, is completed exactly if
   the answer says so and nothing waits, and goes on otherwise.
   */
  predicate Answers(p: History, b: Job, a: Job, turn: Id) {
    AnswerTo(p, turn).Some? &&
    var marker, waiting := AnswerTo(p, turn).value, RunQueue.AcceptedBag(p) != RunQueue.GoneBag(p);
    && a == b.(state := a.state, pause := a.pause, phase := ReturnedPhase, activeTurnID := 0, resultTurnID := turn,
               approval := a.approval)
    && a.approval == (if b.approval.delivery.Submitted? then b.approval.(delivery := Confirmed) else b.approval)
    && (a.state.Blocked? <==> marker == Some(MarkerBlocked))
    && (a.state.NeedsInput? && a.pause.ReviewRequired? <==> marker.None?)
    && (a.state.NeedsInput? && a.pause.NoPause? <==> marker == Some(MarkerNeedsInput))
    && (a.state.Completed? <==> marker == Some(MarkerCompleted) && !waiting)
    && (a.state.Executing? <==> marker == Some(MarkerWorking) || (marker == Some(MarkerCompleted) && waiting))
    && (a.pause.NoPause? <==> marker.Some?)
  }

  /** A decision that was on its way when its outcome was lost is in doubt; any other approval stays as it was. */
  predicate Doubts(c: Job, a: Job) {
    if c.approval.delivery.Submitted?
    then a.pause == ApprovalUnknown && a.approval == c.approval.(delivery := Unknown, approved := false)
    else a.pause == c.pause && a.approval == c.approval
  }

  /** The connection is lost: a ready plan expires, everything else is disconnected, and no terminal has the job. */
  predicate Disconnects(p: History, b: Job, a: Job) {
    && !b.userCancelled
    && a == b.(state := a.state, pause := a.pause, approval := a.approval, activeTurnID := TurnID(p),
               view := View(Headless, Headless, SupervisorOwner))
    && (if b.state.PlanReady?
        then a.state.PlanReady? && a.pause == ApprovalExpired && a.approval == b.approval.(delivery := Expired)
        else a.state.Disconnected? && Doubts(b, a))
  }

  /** The job has failed; `c` is the record that the writer goes by. */
  predicate Fails(p: History, c: Job, a: Job) {
    && a.state.Failed? && Doubts(c, a)
    && a == c.(state := a.state, pause := a.pause, approval := a.approval, activeTurnID := TurnID(p), phase := a.phase)
  }

  /** What a turn writes: in flight it takes its item and marks it sent, and at its end says how it went. */
  predicate TurnWrites(p: History, b: Job, a: Job, turn: Id) {
    if TurnOf(p).Some? then
      TurnOf(p).value == turn && (Takes(p, b, a, turn) || a == b.(phase := SentPhase, activeTurnID := turn))
    else if a.phase.ReturnedPhase? then Answers(p, b, a, turn)
    else if p.Then? && p.event.ViewReset? then LosesAgent(p, turn) && Disconnects(p, b, a)
    else (EndOf(p, turn).Some? && EndOf(p, turn).value.PromptReturned? && Breaks(p, turn) && Fails(p, b, a)
          && a.phase == b.phase)
  }

  /** A turn that fails before its prompt writes back the record that it had read. */
  predicate CopyWrites(p: History, b: Job, a: Job, turn: Id) {
    && TurnOf(p).None? && EndOf(p, turn).Some? && EndOf(p, turn).value.SetupBroke? && Breaks(p, turn)
    && ReadBy(p, turn).Some? && Fails(p, ReadBy(p, turn).value, a)
    && a.phase == (if a.requestID != b.requestID then QueuedPhase else ReadBy(p, turn).value.phase)
  }

  /** The dispatcher writes its copy twice at most: as starting, and then with its session or as failed without one. */
  predicate DispatchWrites(p: History, b: Job, a: Job) {
    FirstJob(p).Some? &&
    var c := FirstJob(p).value;
    && Dispatched(c) && !b.userCancelled
    && a.phase == (if a.requestID != b.requestID then QueuedPhase else NoPhase)
    && a == c.(state := a.state, sessionID := a.sessionID, activeTurnID := TurnID(p), phase := a.phase)
    && (a.state.Starting? <==> !CopyWritten(p))
    && (a.sessionID == 0 <==> a.state.Starting? || a.state.Failed?)
    && (a.sessionID != 0 <==> a.state.Planning? || a.state.Executing?)
  }

  // ---------------------------------------------------------------- callers

  /** A plan decision names the open approval, its request, turn and version, and says what becomes of the job. */
  predicate Decides(p: History, b: Job, a: Job, d: Decision) {
    && b.state.PlanReady? && !b.userCancelled && !b.approval.delivery.Submitted?
    && d.approvalID == b.approval.id && d.approvalID != 0 && d.requestID == b.requestID
    && d.turnID == b.approval.planTurnID && d.planVersion == b.approval.planVersion
    && (d.decide.Approve? ==> b.approval.content != "")
    && (a.state.Executing? <==> d.decide.Approve?)
    && (a.state.Planning? <==> d.decide.Revise?)
    && (a.state.Cancelled? <==> d.decide.CancelPlan?)
    && (a.approval.approved <==> d.decide.Approve?) && (a.userCancelled <==> d.decide.CancelPlan?)
    && a == b.(state := a.state, userCancelled := a.userCancelled, pause := DeliveringApproval,
               activeTurnID := TurnID(p),
               approval := b.approval.(delivery := Submitted, approved := a.approval.approved))
  }

  /** A decision that the agent refused, on an approval that is still the submitted one. */
  predicate Refuses(p: History, b: Job, a: Job) {
    && b.approval.delivery.Submitted? && Undelivered(p, b.approval.id)
    && a == b.(state := JobState.NeedsInput, pause := ApprovalUnknown, activeTurnID := TurnID(p),
               approval := b.approval.(delivery := Unknown, approved := false))
  }

  /** A new approval is asked for by the turn in flight and opens the next version of the plan. */
  predicate Asks(p: History, b: Job, a: Job) {
    && TurnOf(p) == Some(a.approval.planTurnID) && Prompted(p, a.approval.planTurnID) && !b.userCancelled
    && a.approval.id != 0 && !ApprovalSeen(p, a.approval.id) && a.approval.planVersion == b.approval.planVersion + 1
    && a.approval.delivery.Pending? && !a.approval.approved
    && (a.pause == PlanContentMissing <==> a.approval.content == "")
    && (a.pause == ApprovalPause <==> a.approval.content != "")
    && a == b.(state := JobState.PlanReady, pause := a.pause, approval := a.approval, activeTurnID := TurnID(p))
  }

  /** The supervisor holds the job, and no terminal process is alive. */
  predicate AtHand(b: Job, live: bool) {
    b.view.owner.SupervisorOwner? && !live
  }

  /** A ready plan that is still open takes no new work. */
  predicate PlanStandsOpen(b: Job) {
    b.state.PlanReady? && b.pause != ApprovalExpired
  }

  /** A follow-up starts its request in the record exactly if no turn runs and the job is at hand. */
  predicate FollowsUp(p: History, b: Job, a: Job, planning: bool, live: bool) {
    && !b.state.Cancelled? && !PlanStandsOpen(b)
    && if TurnOf(p).Some? || !AtHand(b, live) then a == b else
       && a == b.(state := if planning then JobState.Planning else JobState.Executing, requestID := a.requestID,
                  pause := NoPause, resultTurnID := 0, phase := a.phase,
                  approval := if planning then b.approval.(approved := false, content := "") else b.approval)
       && a.phase == (if a.requestID != b.requestID then QueuedPhase else b.phase)
  }

  /** A continue resumes the request in the record exactly if the job is at hand, and forgets the delivery. */
  predicate Continues(b: Job, a: Job, planning: bool, live: bool) {
    && !b.userCancelled && !b.state.Cancelled? && !b.state.Completed? && !b.state.Failed? && !PlanStandsOpen(b)
    && if !AtHand(b, live) then a == b else
       a == b.(state := if planning then JobState.Planning else JobState.Executing, pause := NoPause,
               approval := b.approval.(delivery := NoDelivery, approved := !planning && b.approval.approved))
  }

  /** A turn that gave way to a terminal waits for input, and what it came to is unknown. */
  predicate Yields(b: Job, a: Job) {
    && a == b.(state := a.state, pause := ExecutionUnknown, phase := UnknownPhase, activeTurnID := 0,
               approval := b.approval.(delivery := a.approval.delivery))
    && a.state == (if b.state in {JobState.PlanReady, JobState.Executing, JobState.Planning, JobState.Starting}
                   then JobState.NeedsInput else b.state)
    && a.approval.delivery == (if b.state.PlanReady? || b.approval.delivery.Pending? then Expired
                               else b.approval.delivery)
  }

  /** A job that a restart finds in the middle of something. */
  predicate Midway(b: Job) {
    b.state in {JobState.Starting, JobState.Planning, JobState.Executing, JobState.Recovering, JobState.Disconnected}
  }

  /**
   A restart puts the record to rest: an open plan expires, a submitted decision is in doubt, a job in the middle of
   something is disconnected, and says whether its request can have reached the agent unless it already says why it
   pauses.
   */
  predicate Rests(b: Job, a: Job) {
    && !b.userCancelled
    && a == b.(state := a.state, pause := a.pause, approval := a.approval,
               view := View(Headless, Headless, SupervisorOwner))
    && a.state == (if Midway(b) then JobState.Disconnected else b.state)
    && a.approval == (if b.state.PlanReady? then b.approval.(delivery := Expired)
                      else if b.approval.delivery.Submitted? then b.approval.(delivery := Unknown, approved := false)
                      else b.approval)
    && a.pause == (if b.state.PlanReady? then ApprovalExpired
                   else if b.approval.delivery.Submitted? then ApprovalUnknown
                   else if !Midway(b) || !b.pause.NoPause? then b.pause
                   else if b.phase in {QueuedPhase, PreparingPhase} then RequestNotSent else ExecutionUnknown)
  }

  /** Writes of other callers: after a crash, a lost connection or a cancellation, or of a view. */
  predicate CallerWrites(p: History, b: Job, a: Job) {
    p.Then? &&
    if p.event.Crashed? then Rests(b, a)
    else if p.event.ViewReset? then Disconnects(p, b, a)
    else if p.event == Bumped(CancelledTurn) then
      a == b.(state := JobState.NeedsInput, pause := CancelDelivery, activeTurnID := TurnID(p))
    else if ViewEvent(p.event) then
      a == b.(view := a.view, activeTurnID := TurnID(p)) && ViewAfter(p.event, b.view, a.view)
    else a == b
  }

  /** What the write `a` by `w` may make of the record `b`, after history `p`. */
  predicate Writes(p: History, b: Job, a: Job, w: Writer) {
    match w
    case ByTurn(turn) => TurnWrites(p, b, a, turn)
    case ByTurnCopy(turn) => CopyWrites(p, b, a, turn)
    case ByRequeue(_) => a == b
    case ByDispatchCopy => DispatchWrites(p, b, a)
    case ByYield => Yields(b, a)
    case ByFollowup(planning, live) => FollowsUp(p, b, a, planning, live)
    case ByContinue(planning, live) => Continues(b, a, planning, live)
    case ByOutcome(failed) => a == b.(pause := if failed then CancelUnknown else NoPause, activeTurnID := TurnID(p))
    case ByDecision(d) => Decides(p, b, a, d)
    case ByUndelivered => Refuses(p, b, a)
    case ByApproval => Asks(p, b, a)
    case BySession =>
      b.sessionID == 0 && a.sessionID != 0 && a == b.(sessionID := a.sessionID, activeTurnID := TurnID(p))
    case ByCaller => CallerWrites(p, b, a)
  }

  // ---------------------------------------------------------------- items

  /** A request that the caller names is taken over; without one an item falls back to the record's. */
  predicate Carries(item: Item, requestID: Id) {
    requestID == 0 || item.requestID == requestID
  }

  /** What is accepted, by the write that comes with it. */
  predicate Accepts(p: History, item: Item) {
    p.Then? && p.event.Committed? &&
    var a := p.event.job;
    match p.event.writer
    case ByFollowup(planning, live) =>
      && item.kind.FollowupItem? && item.connect && item.planning == planning
      && (TurnOf(p).None? && AtHand(a, live) ==> Carries(item, a.requestID))
    case ByContinue(planning, _) =>
      item.kind.ContinueItem? && item.connect && item.planning == planning && Carries(item, a.requestID)
    case ByTurn(turn) =>
      && AnswerTo(p, turn) == Some(Some(MarkerWorking)) && a.view.owner.SupervisorOwner?
      && Automatic(item) && !item.planning && ItemOf(p, turn).Some? && Carries(item, ItemOf(p, turn).value.requestID)
    case ByRequeue(turn) =>
      && ItemOf(p, turn).Some? && Carries(item, ItemOf(p, turn).value.requestID)
      && item == ItemOf(p, turn).value.(number := item.number, gen := item.gen, requestID := item.requestID)
    case ByCaller =>
      if item.kind.PlanItem?
      then !item.connect && Carries(item, a.requestID) && (item.planning <==> a.state.Planning?)
      else item.kind.FollowupItem? && item.connect
    case _ => false
  }

  /** What is dequeued is what was accepted under that number, but for the stamp of the fence. */
  predicate Dequeues(p: History, item: Item) {
    AcceptedAs(p, item.number).Some? && AcceptedAs(p, item.number).value.(gen := item.gen) == item
  }

  /** Every write has its cause in the history before it, and every item is what was asked for. */
  predicate Explained(h: History) {
    match h
    case Start => true
    case Then(p, e) =>
      && Explained(p)
      && (e.Committed? && LastJob(p).Some? ==> Writes(p, LastJob(p).value, e.job, e.writer))
      && (e.Accepted? ==> Accepts(p, e.item))
      && (e.Dequeued? ==> Dequeues(p, e.item))
  }

  // ---------------------------------------------------------------- what is read from it

  /** What the record says of approval and cancellation is what the decisions made say. */
  predicate DecisionsStand(h: History) {
    match h
    case Start => true
    case Then(p, e) =>
      DecisionsStand(p) && (e.Committed? ==>
        (e.job.approval.approved <==> Approved(h)) && (e.job.userCancelled <==> PlanWasCancelled(h)))
  }

  /** A record that a turn wrote as returned follows the answer to its prompt. */
  predicate AnswersSettle(h: History) {
    match h
    case Start => true
    case Then(p, e) =>
      AnswersSettle(p) && (e.Committed? && e.writer.ByTurn? && e.job.phase.ReturnedPhase? ==>
        LastJob(p).Some? && Answers(p, LastJob(p).value, e.job, e.writer.turn))
  }

  /** The decision that was written down for this approval. */
  function DecisionOn(h: History, id: Id): Option<Decide> {
    match h
    case Start => None
    case Then(p, e) =>
      if e.Committed? && e.writer.ByDecision? && e.job.approval.id == id then Some(e.writer.decision.decide)
      else DecisionOn(p, id)
  }

  /**
   Every record that submits a decision, or is newly cancelled, is the one that writes down a decision; and the agent
   is handed the decision that was written down.
   */
  predicate DecisionsSettle(h: History) {
    match h
    case Start => true
    case Then(p, e) =>
      && DecisionsSettle(p)
      && (e.Committed? && LastJob(p).Some? ==>
            var b, a := LastJob(p).value, e.job;
            && (e.writer.ByDecision? <==>
                  a.approval.delivery.Submitted? && !(b.approval.delivery.Submitted? && a.approval.id == b.approval.id))
            && (a.state.Cancelled? && !b.state.Cancelled? ==> e.writer.ByDecision?)
            && (e.writer.ByDecision? ==> Decides(p, b, a, e.writer.decision)))
      && (e.Resolved? ==> DecisionOn(p, e.approval) == Some(e.decide))
  }
}
