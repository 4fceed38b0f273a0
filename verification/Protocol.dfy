/** The job record and the small enumerations every other module speaks about. */
module Protocol {

  /** Job, request, turn, approval, connection and session ids. 0 stands for the empty string. */
  type Id = nat

  datatype Option<+T> = None | Some(value: T)

  datatype JobState =
    | Created | Starting | Planning | PlanReady | Executing | Completed
    | NeedsInput | Disconnected | Recovering | Cancelled | Blocked | Failed

  predicate IsBoundary(s: JobState) {
    s.PlanReady? || s.NeedsInput? || s.Completed? || s.Blocked? || s.Failed? || s.Disconnected? || s.Cancelled?
  }

  predicate IsActive(s: JobState) {
    s.Starting? || s.Planning? || s.Executing? || s.Recovering?
  }

  datatype ViewMode = Headless | Attaching | Headed | Detaching

  datatype InputOwner = SupervisorOwner | TuiOwner | HandoffOwner

  datatype TaskMarker = MarkerWorking | MarkerNeedsInput | MarkerCompleted | MarkerBlocked

  /** `request_phase`; NoPhase is the empty string. */
  datatype Phase = NoPhase | QueuedPhase | PreparingPhase | SentPhase | ReturnedPhase | UnknownPhase

  /** `approval_delivery`; NoDelivery is the empty string. */
  datatype Delivery = NoDelivery | Pending | Submitted | Confirmed | Unknown | Expired

  /** `pause_reason`; NoPause is the empty string. */
  datatype Pause =
    | NoPause | ApprovalPause | PlanContentMissing | DeliveringApproval | ApprovalUnknown | ApprovalExpired
    | ReviewRequired | ExecutionUnknown | RequestNotSent | CancelDelivery | CancelUnknown

  datatype Decide = Approve | Revise | CancelPlan

  /** The fields that a view save rewrites, and nothing else does on its own. */
  datatype View = View(mode: ViewMode, desired: ViewMode, owner: InputOwner)

  datatype Approval = Approval(
    id: Id, connectionID: Id, supportsNotes: bool, delivery: Delivery, approved: bool,
    planVersion: nat, planTurnID: Id, content: string)

  /** What the notification rule looks at besides state, request, approval and pause. */
  datatype Notice = Notice(summary: string, stalled: bool, stalledReason: string, cursor: nat)

  datatype Job = Job(
    jobID: Id,
    requestID: Id,
    sessionID: Id,
    state: JobState,
    pause: Pause,
    userCancelled: bool,
    phase: Phase,
    activeTurnID: Id,
    resultTurnID: Id,
    approval: Approval,
    view: View,
    notice: Notice)

  predicate AcceptsTurnControl(job: Job) {
    !job.userCancelled && !job.state.Cancelled? && !job.state.Completed? && !job.state.Failed?
  }

  /** The phase a write leaves in the record: the one it names, or a new request's "queued". */
  function StampedPhase(storedRequest: Id, job: Job, phase: Phase): Phase {
    if phase != NoPhase then phase else if job.requestID != storedRequest then QueuedPhase else job.phase
  }
}
