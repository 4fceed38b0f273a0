/**
 The generation fence and the send discipline over whole runs: one turn at a time, no late turn writes,
 every prompt is marked first, and a user's cancellation is final.
 */
module RunTurns {
  import opened Protocol
  import opened Supervisor
  import opened Runs
  import opened ViewSteps

  // ---------------------------------------------------------------- what the history must satisfy

  /** A cancel, disconnect, plan-cancel or yield came after turn `turn` was dequeued. */
  predicate BumpedSince(h: History, turn: Id) {
    match h
    case Start => false
    case Then(p, e) => !(e.Dequeued? && e.turn == turn) && (e.Bumped? || BumpedSince(p, turn))
  }

  predicate InFlight(h: History) {
    match h
    case Start => false
    case Then(p, e) => e.Dequeued? || (!e.TurnEnded? && !e.Crashed? && InFlight(p))
  }

  /** The durable record said "sent" for this very turn. */
  predicate SentMarked(h: History, turn: Id) {
    match h
    case Start => false
    case Then(p, e) => (e.Committed? && e.job.phase.SentPhase? && e.job.activeTurnID == turn) || SentMarked(p, turn)
  }

  predicate CancelledByUser(h: History) {
    match h
    case Start => false
    case Then(p, e) => (e.Committed? && e.job.userCancelled) || CancelledByUser(p)
  }

  predicate OneTurnAtATime(h: History) {
    match h
    case Start => true
    case Then(p, e) => OneTurnAtATime(p) && (e.Dequeued? ==> !InFlight(p) && !TurnSeen(p, e.turn))
  }

  /**
   A turn writes the record only if nothing moved the fence since the turn was dequeued, but for the write with
   which it puts its item back: that one leaves the record as it was.
   */
  predicate FencedWrites(h: History) {
    match h
    case Start => true
    case Then(p, e) =>
      FencedWrites(p) &&
      (e.Committed? && (e.writer.ByTurn? || e.writer.ByTurnCopy?) ==>
         TurnSeen(p, e.writer.turn) && !BumpedSince(p, e.writer.turn)) &&
      (e.Committed? && e.writer.ByRequeue? ==> TurnSeen(p, e.writer.turn) && LastJob(p) == Some(e.job))
  }

  predicate MarkedBeforeSent(h: History) {
    match h
    case Start => true
    case Then(p, e) =>
      MarkedBeforeSent(p) &&
      (e.PromptCalled? ==> SentMarked(p, e.turn) && !Prompted(p, e.turn))
  }

  /** Once a durable record says that the user cancelled, all later ones do, and no prompt is sent. */
  predicate CancelIsFinal(h: History) {
    match h
    case Start => true
    case Then(p, e) =>
      CancelIsFinal(p) &&
      (CancelledByUser(p) ==> !e.PromptCalled? && (e.Committed? ==> e.job.userCancelled))
  }

  /** How often the fence moved since the process started. */
  function Bumps(h: History): nat {
    match h
    case Start => 0
    case Then(p, e) => if e.Crashed? then 0 else if e.Bumped? then Bumps(p) + 1 else Bumps(p)
  }

  /** The item of turn `turn` carried an old stamp when it was dequeued. */
  predicate TakenOutside(h: History, turn: Id) {
    match h
    case Start => false
    case Then(p, e) => if e.Dequeued? && e.turn == turn then e.item.gen != Bumps(p) else TakenOutside(p, turn)
  }

  /** A prompt is sent for a turn that was dequeued, and inside the fence; an item from outside is dropped. */
  predicate SentFromInside(h: History) {
    match h
    case Start => true
    case Then(p, e) => SentFromInside(p) && (e.PromptCalled? ==> TurnSeen(p, e.turn) && !TakenOutside(p, e.turn))
  }

  ghost predicate TurnHistory(h: History) {
    OneTurnAtATime(h) && FencedWrites(h) && MarkedBeforeSent(h) && CancelIsFinal(h) && SentFromInside(h)
  }

  // ---------------------------------------------------------------- the invariant

  /** The stages before the prompt, and what `runItem` returns from them. */
  predicate BeforePrompt(st: Stage) {
    st.Taken? || st.Preparing? || st.Marked? ||
    (st.Ending? && (st.finish.Reenqueue? || st.finish.LoadFailed? || st.finish.SetupFailed?))
  }

  /** The stages that are reached only when the job was not cancelled by the user. */
  predicate PastCheck(st: Stage) {
    st.Preparing? || st.Marked? || (st.Ending? && st.finish.SetupFailed?)
  }

  predicate CleanCopy(job: Job) {
    !job.userCancelled && !job.state.PlanReady?
  }

  predicate StageHolds(s: Shared, turn: Id, st: Stage) {
    && (BeforePrompt(st) ==> !Prompted(s.log, turn))
    && (st.Marked? ==> SentMarked(s.log, turn))
    && (!Prompted(s.log, turn) ==> !s.job.state.PlanReady?)
    && (PastCheck(st) ==> !s.job.userCancelled)
    && (st.Preparing? ==> CleanCopy(st.copy))
    && (st.Ending? && st.finish.SetupFailed? ==> CleanCopy(st.finish.copy))
  }

  function CopyOf(st: Stage): Option<Job> {
    if st.Preparing? then Some(st.copy)
    else if st.Ending? && st.finish.SetupFailed? then Some(st.finish.copy)
    else None
  }

  /** The job has no session yet, so no approval and no decision can reach it. */
  predicate Unstarted(job: Job) {
    job.sessionID == 0 && CleanCopy(job)
  }

  predicate UnstartedCopy(st: Stage) {
    CopyOf(st).Some? ==> Unstarted(CopyOf(st).value)
  }

  /** Until the dispatcher is done, the record and every copy of it are those of an unstarted job. */
  predicate DispatchHolds(w: World) {
    !w.dispatch.Over? ==>
      && Unstarted(w.s.job) && Unstarted(w.dispatch.copy)
      && (forall t | t in w.turns :: UnstartedCopy(w.turns[t].stage))
  }

  ghost predicate Stamps(s: Shared) {
    forall i | 0 <= i < |s.rt.queue| :: s.rt.queue[i].gen <= s.rt.gen
  }

  predicate TurnHolds(s: Shared, t: Turn, turn: Id) {
    && TurnSeen(s.log, turn)
    && t.item.gen <= s.rt.gen
    && (t.item.gen == s.rt.gen ==> !BumpedSince(s.log, turn))
    && (TakenOutside(s.log, turn) ==> t.item.gen < s.rt.gen && !t.stage.Marked?)
    && StageHolds(s, turn, t.stage)
  }

  ghost predicate PromptsSeen(h: History) {
    forall t :: Prompted(h, t) ==> TurnSeen(h, t)
  }

  ghost predicate TurnsHold(s: Shared, turns: map<Id, Turn>) {
    && TurnHistory(s.log) && PromptsSeen(s.log)
    && (s.rt.busy <==> s.rt.turnID != 0)
    && turns.Keys == (if s.rt.busy then {s.rt.turnID} else {})
    && (s.rt.busy ==> TurnHolds(s, turns[s.rt.turnID], s.rt.turnID))
    && (InFlight(s.log) <==> s.rt.busy)
    && (CancelledByUser(s.log) <==> s.job.userCancelled)
    && Bumps(s.log) == s.rt.gen
    && LastJob(s.log) == Some(s.job)
    && Stamps(s)
  }

  ghost predicate TurnInv(w: World) {
    TurnsHold(w.s, w.turns) && DispatchHolds(w)
  }

  // ---------------------------------------------------------------- what keeps it

  /** Events that say nothing about turns. */
  predicate Neutral(e: Event) {
    e.Accepted? || e.Removed? || e.Resolved? || e.HeadedRequested? || e.HeadlessRequested? || e.ViewReset? ||
    e.LaunchSaved? || e.Installed? || e.MadeHeadless? || e.RecordRead? || e.SetupBroke? || e.PromptReturned?
  }

  lemma NoteKeeps(s: Shared, turns: map<Id, Turn>, e: Event)
    requires TurnsHold(s, turns) && Neutral(e)
    ensures TurnsHold(Note(s, e), turns)
  {
    var h := Note(s, e).log;
    assert h == Then(s.log, e);
    assert InFlight(h) == InFlight(s.log);
    assert CancelledByUser(h) == CancelledByUser(s.log);
    assert Bumps(h) == Bumps(s.log) && LastJob(h) == LastJob(s.log);
  }

  /** Two shared states that agree on everything turns depend on. */
  predicate SameTurns(s: Shared, s': Shared) {
    && s'.job == s.job && s'.log == s.log
    && s'.rt.busy == s.rt.busy && s'.rt.turnID == s.rt.turnID && s'.rt.gen == s.rt.gen
  }

  lemma SameKeeps(s: Shared, s': Shared, turns: map<Id, Turn>)
    requires TurnsHold(s, turns) && SameTurns(s, s') && Stamps(s')
    ensures TurnsHold(s', turns)
  {
  }

  /** The writer may write: a turn only while it is inside the fence, or to put its item back. */
  predicate MayWrite(s: Shared, w: Writer) {
    && (w.ByTurn? || w.ByTurnCopy? ==> TurnSeen(s.log, w.turn) && !BumpedSince(s.log, w.turn))
    && (w.ByRequeue? ==> TurnSeen(s.log, w.turn))
  }

  lemma CommitKeeps(s: Shared, turns: map<Id, Turn>, job: Job, phase: Phase, w: Writer, ok: bool)
    requires TurnsHold(s, turns) && MayWrite(s, w)
    requires w.ByRequeue? ==> job == s.job && phase == NoPhase
    requires s.job.userCancelled ==> job.userCancelled
    requires job.userCancelled && s.rt.busy && !s.job.userCancelled ==> !PastCheck(turns[s.rt.turnID].stage)
    requires job.state.PlanReady? && s.rt.busy ==> Prompted(s.log, s.rt.turnID)
    ensures TurnsHold(Commit(s, job, phase, w, ok), turns)
  {
    if ok {
      var s' := Commit(s, job, phase, w, ok);
      assert s'.log == Then(s.log, Committed(s'.job, w));
      assert InFlight(s'.log) == InFlight(s.log);
      assert CancelledByUser(s'.log) == (s'.job.userCancelled || CancelledByUser(s.log));
      assert Bumps(s'.log) == Bumps(s.log) && LastJob(s'.log) == Some(s'.job);
    }
  }

  lemma EnqueueKeeps(s: Shared, turns: map<Id, Turn>, q: Item, acceptedJob: Option<Job>, newID: Id, w: Writer, ok: bool)
    requires TurnsHold(s, turns) && MayWrite(s, w)
    requires acceptedJob.Some? ==> !w.ByRequeue?
    requires acceptedJob.Some? ==>
      acceptedJob.value.userCancelled == s.job.userCancelled && !acceptedJob.value.state.PlanReady?
    ensures TurnsHold(Enqueue(s, q, acceptedJob, newID, w, ok), turns)
  {
    if !s.closed && ok {
      var j := if acceptedJob.Some? then acceptedJob.value else s.job;
      CommitKeeps(s, turns, j, NoPhase, w, true);
      var s1 := Commit(s, j, NoPhase, w, true);
      var item := q.(number := s.accepted, gen := s.rt.gen, requestID := RequestOr(s, q.requestID, newID));
      NoteKeeps(s1, turns, Accepted(item));
      SameKeeps(Note(s1, Accepted(item)), Enqueue(s, q, acceptedJob, newID, w, ok), turns);
    }
  }

  /** Moving the fence: any turn in flight is now outside it. */
  lemma BumpKeeps(s: Shared, turns: map<Id, Turn>, cause: Cause, s': Shared)
    requires TurnsHold(s, turns)
    requires s'.job == s.job && s'.log == Then(s.log, Bumped(cause))
    requires s'.rt.busy == s.rt.busy && s'.rt.turnID == s.rt.turnID && s'.rt.gen == s.rt.gen + 1 && Stamps(s')
    ensures TurnsHold(s', turns)
  {
    assert InFlight(s'.log) == InFlight(s.log);
    assert CancelledByUser(s'.log) == CancelledByUser(s.log);
    assert Bumps(s'.log) == Bumps(s.log) + 1 && LastJob(s'.log) == LastJob(s.log);
  }

  lemma DisconnectKeeps(s: Shared, turns: map<Id, Turn>, w: Writer, ok: bool)
    requires TurnsHold(s, turns) && MayWrite(s, w) && !w.ByRequeue?
    ensures TurnsHold(DisconnectLocked(s, w, ok), turns)
  {
    if !s.job.userCancelled {
      var s0 := Note(s, ViewReset);
      NoteKeeps(s, turns, ViewReset);
      CommitKeeps(s0, turns, DisconnectedJob(s.job).(activeTurnID := s.rt.turnID), NoPhase, w, ok);
      var s1 := Save(s0, DisconnectedJob(s.job), w, ok);
      var b := Note(s1, Bumped(Disconnect)).(rt := DisconnectLocked(s, w, ok).rt);
      hide TurnsHold, DisconnectedJob;
      BumpKeeps(s1, turns, Disconnect, b);
      NoteKeeps(b, turns, Removed(Numbers(s.rt.queue)));
    }
  }

  lemma EnqueueAllKeeps(s: Shared, turns: map<Id, Turn>, rows: seq<(Id, bool)>)
    requires TurnsHold(s, turns)
    ensures TurnsHold(EnqueueAll(s, rows), turns)
    decreases |rows|
  {
    if rows != [] {
      var q := Item(0, FollowupItem, true, rows[0].1, 0, rows[0].0);
      if rows[0].0 == s.job.requestID {
        EnqueueAllKeeps(s, turns, rows[1..]);
      } else {
        EnqueueKeeps(s, turns, q, None, 0, ByCaller, true);
        EnqueueAllKeeps(Enqueue(s, q, None, 0, ByCaller, true), turns, rows[1..]);
      }
    }
  }

  /** A new turn starts outside any prompt and inside the fence. */
  lemma TakeKeeps(s: Shared, turns: map<Id, Turn>, turn: Id, ok: bool)
    requires TurnsHold(s, turns) && !s.rt.busy && s.heads > 0 && s.rt.queue != []
    requires turn != 0 && !TurnSeen(s.log, turn) && !s.job.state.PlanReady?
    ensures TurnsHold(Take(s, turn, ok), if ok then turns[turn := Turn(s.rt.queue[0], Taken)] else turns)
  {
    var item := s.rt.queue[0];
    var s1 := Note(s, Dequeued(turn, item));
    var taken := turns[turn := Turn(item, Taken)];
    var up := s1.(rt := Take(s, turn, true).rt);
    assert CancelledByUser(up.log) == CancelledByUser(s.log);
    assert InFlight(up.log);
    assert Bumps(up.log) == Bumps(s.log) && LastJob(up.log) == LastJob(s.log);
    assert TurnsHold(up, taken);
    if ok {
      CommitKeeps(up, taken, PreparedJob(s.job, item, turn), PreparingPhase, ByTurn(turn), true);
      SameKeeps(Commit(up, PreparedJob(s.job, item, turn), PreparingPhase, ByTurn(turn), true), Take(s, turn, true),
        taken);
    } else {
      EndKeeps(up, taken, Take(s, turn, false));
    }
  }

  /** The end of a turn: the pump lets go of it. */
  lemma EndKeeps(s: Shared, turns: map<Id, Turn>, s': Shared)
    requires TurnsHold(s, turns) && s.rt.busy
    requires s'.job == s.job && s'.log == Then(s.log, TurnEnded(s.rt.turnID))
    requires !s'.rt.busy && s'.rt.turnID == 0 && s'.rt.gen == s.rt.gen && Stamps(s')
    ensures TurnsHold(s', turns - {s.rt.turnID})
    ensures TurnSeen(s'.log, s.rt.turnID)
    ensures turns[s.rt.turnID].item.gen == s.rt.gen ==> !BumpedSince(s'.log, s.rt.turnID)
  {
    assert CancelledByUser(s'.log) == CancelledByUser(s.log);
    assert !InFlight(s'.log);
    assert Bumps(s'.log) == Bumps(s.log) && LastJob(s'.log) == LastJob(s.log);
  }

  lemma FinishKeeps(s: Shared, turns: map<Id, Turn>, item: Item, turn: Id, f: Finish, cancelledRequest: bool, ok: bool,
    ok2: bool)
    requires TurnsHold(s, turns) && !s.rt.busy && TurnSeen(s.log, turn)
    requires item.gen == s.rt.gen ==> !BumpedSince(s.log, turn)
    requires f.SetupFailed? ==> CleanCopy(f.copy) && !s.job.userCancelled
    ensures TurnsHold(RunFinish(s, item, turn, f, cancelledRequest, ok, ok2), turns)
  {
    match f
    case Nothing =>
    case Reenqueue => EnqueueKeeps(s, turns, item, None, 0, ByRequeue(turn), ok);
    case LoadFailed => if !Fenced(s, item) { DisconnectKeeps(s, turns, ByTurn(turn), ok); }
    case SetupFailed(disconnect, copy) =>
      if !Fenced(s, item) {
        if disconnect { DisconnectKeeps(s, turns, ByTurn(turn), ok); }
        else { CommitKeeps(s, turns, FailedJob(copy).(activeTurnID := s.rt.turnID), NoPhase, ByTurnCopy(turn), ok); }
      }
    case PromptFailed(disconnect) =>
      if !Fenced(s, item) {
        if disconnect { DisconnectKeeps(s, turns, ByTurn(turn), ok); }
        else { CommitKeeps(s, turns, FailedJob(s.job).(activeTurnID := s.rt.turnID), NoPhase, ByTurn(turn), ok); }
      }
    case Answer(marker) =>
      if !Fenced(s, item) && ok {
        CommitKeeps(s, turns, AnsweredJob(s, turn, marker), ReturnedPhase, ByTurn(turn), true);
        var s1 := Commit(s, AnsweredJob(s, turn, marker), ReturnedPhase, ByTurn(turn), true);
        EnqueueKeeps(s1, turns, Item(0, ContinueItem, false, false, 0, item.requestID), None, 0, ByTurn(turn), ok2);
      }
  }

  // ---------------------------------------------------------------- every action keeps it

  lemma TurnInvInit(job: Job)
    requires Dispatched(job)
    ensures TurnInv(Init(job))
  {
    var h := Init(job).s.log;
    assert h == Then(Start, Committed(job, ByCaller));
    assert !InFlight(Start) && !CancelledByUser(Start);
    assert !InFlight(h) && !CancelledByUser(h) && Bumps(h) == Bumps(Start) && LastJob(h) == Some(job);
    assert forall t :: !Prompted(Start, t);
  }

  /** The turn moves to another stage; nothing shared changes. */
  lemma StageKeeps(w: World, turn: Id, st: Stage)
    requires TurnInv(w) && turn in w.turns && StageHolds(w.s, turn, st) && (!w.dispatch.Over? ==> UnstartedCopy(st))
    requires st.Marked? ==> !TakenOutside(w.s.log, turn)
    ensures TurnInv(WithStage(w, turn, st))
  {
  }

  lemma UnstartedFinish(s: Shared, item: Item, turn: Id, f: Finish, cancelledRequest: bool, ok: bool, ok2: bool)
    requires Unstarted(s.job) && (f.SetupFailed? ==> Unstarted(f.copy))
    ensures Unstarted(RunFinish(s, item, turn, f, cancelledRequest, ok, ok2).job)
  {
  }

  lemma UnstartedControl(w: World, a: ControlAction)
    requires Unstarted(w.s.job)
    ensures Unstarted(NextControl(w, a).s.job)
  {
  }

  lemma CancelKeeps(s: Shared, turns: map<Id, Turn>, expected: Id, ok: bool)
    requires TurnsHold(s, turns) && CancelStarts(s, expected)
    ensures TurnsHold(CancelStart(s, expected, ok), turns)
  {
    var s1 := Note(s, Bumped(CancelledTurn)).(rt := CancelStart(s, expected, ok).rt);
    BumpKeeps(s, turns, CancelledTurn, s1);
    CommitKeeps(s1, turns, s.job.(state := JobState.NeedsInput, pause := CancelDelivery, activeTurnID := s1.rt.turnID),
      NoPhase, ByCaller, ok);
  }

  lemma KickKeeps(s: Shared, turns: map<Id, Turn>)
    requires TurnsHold(s, turns)
    ensures TurnsHold(Kick(s), turns)
  {
    SameKeeps(s, Kick(s), turns);
  }

  lemma OutcomeKeeps(s: Shared, turns: map<Id, Turn>, failed: bool, ok: bool)
    requires TurnsHold(s, turns)
    ensures TurnsHold(Save(s, s.job.(pause := if failed then CancelUnknown else NoPause), ByOutcome(failed), ok), turns)
  {
    CommitKeeps(s, turns, s.job.(pause := if failed then CancelUnknown else NoPause, activeTurnID := s.rt.turnID),
                NoPhase, ByOutcome(failed), ok);
  }

  lemma CancelFinishKeeps(s: Shared, turns: map<Id, Turn>, generation: nat, failed: bool, ok: bool)
    requires TurnsHold(s, turns)
    ensures TurnsHold(CancelFinish(s, generation, failed, ok), turns)
  {
    var s1 := s.(rt := s.rt.(controlPending := false));
    SameKeeps(s, s1, turns);
    hide TurnsHold, Save, Kick;
    OutcomeKeeps(s1, turns, failed, ok);
    var j := s1.job.(pause := if failed then CancelUnknown else NoPause);
    var s2 := if s.rt.gen == generation then Save(s1, j, ByOutcome(failed), ok) else s1;
    KickKeeps(s2, turns);
  }

  /** Nobody can cancel a plan while a turn is on its way to the prompt: the plan is not ready then. */
  lemma SubmitKeeps(s: Shared, turns: map<Id, Turn>, d: Decision, pending: Option<PlanRequest>)
    requires TurnsHold(s, turns) && Decidable(s, d, pending)
    ensures TurnsHold(PlanSubmit(s, d, pending, true), turns)
  {
    CommitKeeps(s, turns, SubmittedJob(s.job, d.decide).(activeTurnID := s.rt.turnID), NoPhase, ByDecision(d), true);
  }

  /** A delivery that failed while it was still the submitted one becomes unknown. */
  lemma UnknownKeeps(s: Shared, turns: map<Id, Turn>, ok: bool)
    requires TurnsHold(s, turns)
    ensures var j := s.job.(state := JobState.NeedsInput, pause := ApprovalUnknown,
                            approval := s.job.approval.(delivery := Unknown, approved := false));
      TurnsHold(Save(s, j, ByUndelivered, ok), turns)
  {
    var j := s.job.(state := JobState.NeedsInput, pause := ApprovalUnknown,
                    approval := s.job.approval.(delivery := Unknown, approved := false), activeTurnID := s.rt.turnID);
    CommitKeeps(s, turns, j, NoPhase, ByUndelivered, ok);
  }

  /** A plan cancellation moves the fence and clears the queue. */
  lemma PlanCancelKeeps(s: Shared, turns: map<Id, Turn>, numbers: seq<nat>)
    requires TurnsHold(s, turns)
    ensures TurnsHold(Note(Note(s, Bumped(PlanCancelled)), Removed(numbers)).(
      rt := s.rt.(gen := s.rt.gen + 1, cancelledTurn := true, queue := [], ctxDone := s.rt.busy)), turns)
  {
    var b := Note(s, Bumped(PlanCancelled)).(
      rt := s.rt.(gen := s.rt.gen + 1, cancelledTurn := true, queue := [], ctxDone := s.rt.busy));
    BumpKeeps(s, turns, PlanCancelled, b);
    hide TurnsHold;
    NoteKeeps(b, turns, Removed(numbers));
  }

  lemma PlanFinishKeeps(s: Shared, turns: map<Id, Turn>, approvalID: Id, decide: Protocol.Decide, failed: bool,
    ok: bool)
    requires TurnsHold(s, turns)
    ensures TurnsHold(PlanFinish(s, approvalID, decide, failed, ok), turns)
  {
    hide TurnsHold, Save;
    var stillOpen := failed && s.job.approval.id == approvalID && s.job.approval.delivery == Submitted;
    var j := s.job.(state := JobState.NeedsInput, pause := ApprovalUnknown,
                    approval := s.job.approval.(delivery := Unknown, approved := false));
    UnknownKeeps(s, turns, ok);
    var s1 := if stillOpen then Save(s, j, ByUndelivered, ok) else s;
    PlanCancelKeeps(s1, turns, Numbers(s.rt.queue));
  }

  lemma ApprovalKeeps(s: Shared, turns: map<Id, Turn>, p: PlanRequest, content: string, ok: bool)
    requires TurnsHold(s, turns) && Prompted(s.log, p.turnID)
    ensures TurnsHold(OnApproval(s, p, content, ok), turns)
  {
    if ApprovalValid(s, p) {
      var j := s.job.(state := JobState.PlanReady, activeTurnID := s.rt.turnID,
                      pause := if content == "" then PlanContentMissing else ApprovalPause,
                      approval := Protocol.Approval(p.id, p.connectionID, p.supportsNotes, Pending, false,
                                                    s.job.approval.planVersion + 1, p.turnID, content));
      CommitKeeps(s, turns, j, NoPhase, ByApproval, ok);
    }
  }

  lemma ContinueKeeps(s: Shared, turns: map<Id, Turn>, planning: bool, live: bool, rows: seq<(Id, bool)>, newID: Id,
    ok: bool)
    requires TurnsHold(s, turns)
    ensures TurnsHold(Continue(s, planning, live, rows, newID, ok), turns)
  {
    var q := Item(0, ContinueItem, true, planning, 0, s.job.requestID);
    var j := s.job.(state := JobState.Executing, pause := NoPause, approval := s.job.approval.(delivery := NoDelivery));
    var k := if planning then j.(state := JobState.Planning, approval := j.approval.(approved := false)) else j;
    EnqueueKeeps(s, turns, q, None, newID, ByContinue(planning, live), ok);
    EnqueueKeeps(s, turns, q, Some(k), newID, ByContinue(planning, live), ok);
    EnqueueAllKeeps(Enqueue(s, q, Some(k), newID, ByContinue(planning, live), ok), turns, rows);
  }

  lemma FollowupKeeps(s: Shared, turns: map<Id, Turn>, requestID: Id, planning: bool, live: bool, ok: bool)
    requires TurnsHold(s, turns)
    ensures TurnsHold(Followup(s, requestID, planning, live, ok), turns)
  {
    var q := Item(0, FollowupItem, true, planning, 0, requestID);
    var j := s.job.(requestID := requestID, pause := NoPause, resultTurnID := 0, state := JobState.Executing);
    var k := if planning then j.(state := JobState.Planning, approval := j.approval.(approved := false, content := ""))
      else j;
    EnqueueKeeps(s, turns, q, None, 0, ByFollowup(planning, live), ok);
    EnqueueKeeps(s, turns, q, Some(k), 0, ByFollowup(planning, live), ok);
  }

  lemma WithoutStamps(q: seq<Item>, requestID: Id, gen: nat)
    requires forall i | 0 <= i < |q| :: q[i].gen <= gen
    ensures forall i | 0 <= i < |Without(q, requestID)| :: Without(q, requestID)[i].gen <= gen
  {
  }

  lemma CancelRequestKeeps(s: Shared, turns: map<Id, Turn>, requestID: Id, turnID: Id, persisted: bool, updated: bool)
    requires TurnsHold(s, turns)
    ensures TurnsHold(CancelRequest(s, requestID, turnID, persisted, updated), turns)
  {
    hide CancelTarget;
    var s1 := Note(s, Removed(Numbers(Only(s.rt.queue, requestID))));
    WithoutStamps(s.rt.queue, requestID, s.rt.gen);
    NoteKeeps(s, turns, Removed(Numbers(Only(s.rt.queue, requestID))));
    SameKeeps(s1, s1.(rt := s.rt.(queue := Without(s.rt.queue, requestID))), turns);
  }

  lemma TurnInvControl(w: World, a: ControlAction)
    requires TurnInv(w)
    ensures TurnInv(NextControl(w, a))
  {
    hide TurnsHold;
    if !w.dispatch.Over? { UnstartedControl(w, a); }
    match a
    case DoFollowup(requestID, planning, live, ok) => FollowupKeeps(w.s, w.turns, requestID, planning, live, ok);
    case DoContinue(planning, live, rows, newID, ok) => ContinueKeeps(w.s, w.turns, planning, live, rows, newID, ok);
    case DoCancelRequest(requestID, turnID, persisted, updated) =>
      CancelRequestKeeps(w.s, w.turns, requestID, turnID, persisted, updated);
    case BeginCancel(expected, ok) => if CancelStarts(w.s, expected) { CancelKeeps(w.s, w.turns, expected, ok); }
    case EndCancel(generation, failed, ok) => CancelFinishKeeps(w.s, w.turns, generation, failed, ok);
    case Decide(key, d, pending, ok) => if Decidable(w.s, d, pending) { SubmitKeeps(w.s, w.turns, d, pending); }
    case Resolve(key, failed) =>
      if key in w.decisions {
        NoteKeeps(w.s, w.turns, Resolved(w.decisions[key].approvalID, w.decisions[key].decide, failed));
      }
    case EndDecide(key, ok) =>
      if key in w.decisions {
        PlanFinishKeeps(w.s, w.turns, w.decisions[key].approvalID, w.decisions[key].decide, w.decisions[key].failed,
          ok);
      }
    case Approval(p, content, ok) => if Prompted(w.s.log, p.turnID) { ApprovalKeeps(w.s, w.turns, p, content, ok); }
    case LoseConnection(ok) => DisconnectKeeps(w.s, w.turns, ByCaller, ok);
  }

  lemma PumpKeeps(s: Shared, turns: map<Id, Turn>, turn: Id, live: bool, ok: bool)
    requires TurnsHold(s, turns) && s.heads > 0 && turn != 0 && !TurnSeen(s.log, turn)
    ensures TurnsHold(PumpTop(s, turn, live, ok),
                      if Took(s, live, ok) then turns[turn := Turn(s.rt.queue[0], Taken)] else turns)
  {
    if GateOf(s, live).NotYet? {
      TakeKeeps(s, turns, turn, ok);
    } else {
      SameKeeps(s, PumpTop(s, turn, live, ok), turns);
    }
  }

  lemma PumpGoKeeps(w: World, turn: Id, live: bool, ok: bool)
    requires TurnInv(w) && w.s.heads > 0 && turn != 0 && !TurnSeen(w.s.log, turn)
    ensures TurnInv(NextTurn(w, PumpGo(turn, live, ok)))
  {
    hide TurnHistory, PromptsSeen;
    PumpKeeps(w.s, w.turns, turn, live, ok);
  }

  lemma CallKeeps(w: World, turn: Id)
    requires TurnInv(w) && turn in w.turns && w.turns[turn].stage.Marked?
    ensures TurnInv(NextTurn(w, CallPrompt(turn)))
  {
    var h := Then(w.s.log, PromptCalled(turn));
    assert InFlight(h) == InFlight(w.s.log) && CancelledByUser(h) == CancelledByUser(w.s.log)
      && Bumps(h) == Bumps(w.s.log) && LastJob(h) == LastJob(w.s.log);
  }

  lemma MarkKeeps(w: World, turn: Id)
    requires TurnInv(w) && turn in w.turns && w.turns[turn].stage.Preparing? && !Fenced(w.s, w.turns[turn].item)
    ensures TurnInv(WithStage(w, turn, Marked).(s := MarkSent(w.s, turn, true)))
  {
    CommitKeeps(w.s, w.turns, w.s.job.(activeTurnID := turn), SentPhase, ByTurn(turn), true);
    StageKeeps(w.(s := MarkSent(w.s, turn, true)), turn, Marked);
  }

  lemma FinishTurnKeeps(w: World, turn: Id, cancelledRequest: bool, ok: bool, ok2: bool)
    requires TurnInv(w) && turn in w.turns && w.turns[turn].stage.Ending?
    ensures TurnInv(NextTurn(w, FinishTurn(turn, cancelledRequest, ok, ok2)))
  {
    hide TurnHistory, PromptsSeen, RunFinish;
    var t := w.turns[turn];
    var s1 := Note(w.s, TurnEnded(turn)).(rt := w.s.rt.(busy := false, ctxDone := false, turnID := 0));
    EndKeeps(w.s, w.turns, s1);
    FinishKeeps(s1, w.turns - {turn}, t.item, turn, t.stage.finish, cancelledRequest, ok, ok2);
    var s2 := RunFinish(s1, t.item, turn, t.stage.finish, cancelledRequest, ok, ok2);
    SameKeeps(s2, EndTurn(w.s, t.item, turn, t.stage.finish, cancelledRequest, ok, ok2), w.turns - {turn});
    if !w.dispatch.Over? { UnstartedFinish(s1, t.item, turn, t.stage.finish, cancelledRequest, ok, ok2); }
  }

  /** The reads and calls of `runItem` that only move the turn on, and say so in the history. */
  predicate Moves(a: TurnAction) {
    a.ReadJob? || a.SetupFails? || a.PromptReturns?
  }

  lemma MoveNotes(w: World, a: TurnAction)
    requires Moves(a)
    ensures var w' := NextTurn(w, a);
      w' == w || (a.turn in w.turns && a.turn in w'.turns && !w'.turns[a.turn].stage.Marked?
                  && w' == WithStage(w, a.turn, w'.turns[a.turn].stage).(s := w'.s)
                  && (w'.s == w.s || (w'.s.log.Then? && w'.s == Note(w.s, w'.s.log.event) && Neutral(w'.s.log.event))))
  {
    hide Returned, Fenced;
  }

  lemma MoveHolds(w: World, a: TurnAction)
    requires Moves(a) && a.turn in w.turns && NextTurn(w, a) != w && StageHolds(w.s, a.turn, w.turns[a.turn].stage)
    ensures a.turn in NextTurn(w, a).turns && StageHolds(w.s, a.turn, NextTurn(w, a).turns[a.turn].stage)
  {
    hide Prompted, SentMarked, Fenced;
  }

  lemma MoveUnstarted(w: World, a: TurnAction)
    requires Moves(a) && a.turn in w.turns && NextTurn(w, a) != w && DispatchHolds(w) && !w.dispatch.Over?
    requires StageHolds(w.s, a.turn, w.turns[a.turn].stage)
    ensures a.turn in NextTurn(w, a).turns && UnstartedCopy(NextTurn(w, a).turns[a.turn].stage)
  {
    hide Prompted, SentMarked, Fenced;
  }

  lemma MoveKeeps(w: World, a: TurnAction)
    requires TurnInv(w) && Moves(a)
    ensures TurnInv(NextTurn(w, a))
  {
    MoveNotes(w, a);
    var w' := NextTurn(w, a);
    if w' != w {
      assert StageHolds(w.s, a.turn, w.turns[a.turn].stage);
      MoveHolds(w, a);
      if !w.dispatch.Over? { MoveUnstarted(w, a); }
      hide NextTurn, StageHolds, UnstartedCopy;
      StageKeeps(w, a.turn, w'.turns[a.turn].stage);
      hide TurnsHold;
      if w'.s != w.s { NoteKeeps(w.s, w'.turns, w'.s.log.event); }
    }
  }

  lemma TurnInvTurn(w: World, a: TurnAction)
    requires TurnInv(w)
    ensures TurnInv(NextTurn(w, a))
  {
    match a
    case KickPump => KickKeeps(w.s, w.turns);
    case PumpGo(turn, live, ok) =>
      if w.s.heads > 0 && turn != 0 && !TurnSeen(w.s.log, turn) { PumpGoKeeps(w, turn, live, ok); }
    case ReadJob(turn) => MoveKeeps(w, a);
    case SetupFails(turn, loading, disconnect) => MoveKeeps(w, a);
    case MarkTurn(turn, ok) =>
      if turn in w.turns && w.turns[turn].stage.Preparing? {
        if Fenced(w.s, w.turns[turn].item) || w.s.rt.ctxDone || !ok {
          StageKeeps(w, turn, Ending(Nothing));
        } else {
          MarkKeeps(w, turn);
        }
      }
    case CallPrompt(turn) => if turn in w.turns && w.turns[turn].stage.Marked? { CallKeeps(w, turn); }
    case PromptReturns(turn, failed, disconnect, marker) => MoveKeeps(w, a);
    case FinishTurn(turn, cancelledRequest, ok, ok2) =>
      if turn in w.turns && w.turns[turn].stage.Ending? { FinishTurnKeeps(w, turn, cancelledRequest, ok, ok2); }
  }

  lemma LifeKeeps(w: World, a: LifeAction)
    requires TurnInv(w)
    ensures TurnInv(NextLife(w, a))
  {
    match a
    case BeginStart(ok) =>
      if w.dispatch.NotBegun? {
        CommitKeeps(w.s, w.turns, w.dispatch.copy.(state := JobState.Starting, activeTurnID := w.s.rt.turnID), NoPhase,
          ByDispatchCopy, ok);
      }
    case EndStart(sessionID, planning, ok, ok2) =>
      if w.dispatch.Waiting? { StartFinishKeeps(w, sessionID, planning, ok, ok2); }
    case CloseService => SameKeeps(w.s, CloseAll(w.s), w.turns);
    case RestartService(ok) => RestartKeeps(w.s, w.turns, ok);
  }

  lemma StartFinishKeeps(w: World, sessionID: Id, planning: bool, ok: bool, ok2: bool)
    requires TurnInv(w) && w.dispatch.Waiting?
    ensures TurnInv(NextLife(w, EndStart(sessionID, planning, ok, ok2)))
  {
    StartedKeeps(w.s, w.turns, w.dispatch.copy, w.dispatch.gen, sessionID, planning, ok, ok2);
  }

  lemma StartedKeeps(s: Shared, turns: map<Id, Turn>, copy: Job, gen: nat, sessionID: Id, planning: bool, ok: bool,
    ok2: bool)
    requires TurnsHold(s, turns) && Unstarted(s.job) && Unstarted(copy)
    ensures TurnsHold(StartFinish(s, copy, gen, sessionID, planning, ok, ok2), turns)
  {
    hide TurnHistory, PromptsSeen;
    if s.rt.gen != gen || s.closed {
      CommitKeeps(s, turns, s.job.(sessionID := sessionID, activeTurnID := s.rt.turnID), NoPhase, BySession, ok);
    } else if sessionID == 0 {
      CommitKeeps(s, turns, FailedJob(copy).(activeTurnID := s.rt.turnID), NoPhase, ByDispatchCopy, ok);
    } else {
      var j := copy.(sessionID := sessionID, state := if planning then JobState.Planning else JobState.Executing,
                     view := copy.view.(desired := Headless));
      CommitKeeps(s, turns, j.(activeTurnID := s.rt.turnID), NoPhase, ByDispatchCopy, true);
      EnqueueKeeps(Save(s, j, ByDispatchCopy, true), turns, Item(0, PlanItem, false, planning, 0, copy.requestID), None,
        0, ByCaller, ok2);
    }
  }

  lemma RestartKeeps(s: Shared, turns: map<Id, Turn>, ok: bool)
    requires TurnsHold(s, turns)
    ensures TurnsHold(Restart(s, ok), map[])
  {
    NoteKeeps(s, turns, Removed(Numbers(s.rt.queue)));
    var s0 := Note(s, Removed(Numbers(s.rt.queue)));
    var s1 := Note(s0, Crashed).(rt := FreshRuntime, closed := false, heads := 0, lastExit := NotYet);
    assert !InFlight(s1.log) && CancelledByUser(s1.log) == CancelledByUser(s0.log) && Bumps(s1.log) == 0
      && LastJob(s1.log) == LastJob(s0.log);
    CommitKeeps(s1, map[], AwaitingResume(s.job), NoPhase, ByCaller, ok);
  }

  // ---------------------------------------------------------------- views

  lemma EffectKeeps(s: Shared, s': Shared, turns: map<Id, Turn>, e: Option<Event>, saved: bool)
    requires TurnsHold(s, turns) && ViewEffect(s, s', e, saved)
    ensures TurnsHold(s', turns)
  {
    var s1 := if e.Some? then Note(s, e.value) else s;
    if e.Some? { NoteKeeps(s, turns, e.value); }
    CommitKeeps(s1, turns, s'.job, NoPhase, ByCaller, saved);
    SameKeeps(Commit(s1, s'.job, NoPhase, ByCaller, saved), s', turns);
  }

  lemma YieldKeeps(s: Shared, turns: map<Id, Turn>, ok: bool)
    requires TurnsHold(s, turns)
    ensures TurnsHold(YieldBump(s), turns) && TurnsHold(YieldMark(s, ok), turns)
  {
    if s.rt.busy { BumpKeeps(s, turns, Yielded, YieldBump(s)); }
    CommitKeeps(s, turns, YieldedJob(s.job), UnknownPhase, ByYield, ok);
  }

  lemma TurnInvLaunch(w: World, a: LaunchAction)
    requires TurnInv(w)
    ensures TurnInv(NextLaunch(w, a))
  {
    LaunchThreads(w, a);
    if ViewOnly(a) {
      var e, saved := LaunchEffect(w, a);
      EffectKeeps(w.s, NextLaunch(w, a).s, w.turns, e, saved);
    } else {
      YieldKeeps(w.s, w.turns, if a.MarkYielded? then a.ok else false);
    }
  }

  lemma TurnInvDetach(w: World, a: DetachAction)
    requires TurnInv(w)
    ensures TurnInv(NextDetach(w, a))
  {
    DetachThreads(w, a);
    var e, saved := DetachEffect(w, a);
    EffectKeeps(w.s, NextDetach(w, a).s, w.turns, e, saved);
  }

  // ---------------------------------------------------------------- every run

  lemma TurnInvNext(w: World, a: Action)
    requires TurnInv(w)
    ensures TurnInv(Next(w, a))
  {
    match a
    case OnTurn(t) => TurnInvTurn(w, t);
    case OnControl(c) => TurnInvControl(w, c);
    case OnLife(l) => LifeKeeps(w, l);
    case OnLaunch(v) => TurnInvLaunch(w, v);
    case OnDetach(d) => TurnInvDetach(w, d);
  }

  lemma {:induction false} TurnInvRun(job: Job, actions: seq<Action>)
    requires Dispatched(job)
    ensures TurnInv(Run(job, actions))
  {
    if actions == [] {
      TurnInvInit(job);
    } else {
      TurnInvRun(job, actions[..|actions| - 1]);
      TurnInvNext(Run(job, actions[..|actions| - 1]), actions[|actions| - 1]);
    }
  }

  /** In every run: one turn at a time, fenced writes, marked prompts, final cancellations. */
  lemma RunsKeepTheFence(job: Job, actions: seq<Action>)
    requires Dispatched(job)
    ensures var w := Run(job, actions);
      && OneTurnAtATime(w.s.log) && FencedWrites(w.s.log) && MarkedBeforeSent(w.s.log) && CancelIsFinal(w.s.log)
        && SentFromInside(w.s.log)
      && (w.s.rt.busy <==> w.s.rt.turnID != 0)
      && w.turns.Keys == (if w.s.rt.busy then {w.s.rt.turnID} else {})
  {
    TurnInvRun(job, actions);
  }

  // ---------------------------------------------------------------- what a late turn does

  /** The turn, just taken, reads a record under which a terminal is being closed. */
  predicate ReadsDetaching(w: World, a: Action, turn: Id) {
    && a == OnTurn(ReadJob(turn)) && turn in w.turns && w.turns[turn].stage.Taken?
    && !w.s.job.userCancelled && w.s.job.view.mode.Detaching?
  }

  /** The turn in flight has read such a record. */
  predicate PutOff(job: Job, actions: seq<Action>, turn: Id) {
    actions != [] &&
    var most := actions[..|actions| - 1];
    ReadsDetaching(Run(job, most), actions[|actions| - 1], turn)
      || (turn in Run(job, most).turns && PutOff(job, most, turn))
  }

  lemma OthersKeepTurns(w: World, a: Action)
    requires !a.OnTurn?
    ensures Next(w, a).turns == w.turns || Next(w, a).turns == map[]
  {
    match a {
      case OnControl(c) =>
        hide Followup, Continue, CancelRequest, CancelStarts, CancelStart, CancelFinish, Decidable, PlanSubmit,
          PlanFinish, OnApproval, DisconnectLocked;
      case OnLife(l) =>
        hide StartBegin, StartFinish, Restart;
      case OnLaunch(v) =>
        LaunchThreads(w, v);
        hide NextLaunch;
      case OnDetach(d) =>
        DetachThreads(w, d);
        hide NextDetach;
    }
  }

  lemma UnderwaySeen(w: World, turn: Id)
    requires TurnInv(w) && turn in w.turns
    ensures TurnSeen(w.s.log, turn)
  {
    hide TurnHistory, PromptsSeen, DispatchHolds;
  }

  /** A turn's stage over one action: only such a read makes it put its item back. */
  lemma PutOffStep(w: World, a: Action, turn: Id)
    requires (turn in w.turns ==> TurnSeen(w.s.log, turn)) && turn in Next(w, a).turns
    ensures Next(w, a).turns[turn].stage == Ending(Reenqueue) <==>
      ReadsDetaching(w, a, turn) || (turn in w.turns && w.turns[turn].stage == Ending(Reenqueue))
  {
    if a.OnTurn? {
      PutOffTurn(w, a.t, turn);
    } else {
      OthersKeepTurns(w, a);
    }
    hide Next, NextTurn;
  }

  lemma OtherTurnsStay(w: World, a: TurnAction, turn: Id)
    requires (a.KickPump? || a.turn != turn) && turn in NextTurn(w, a).turns
    ensures turn in w.turns && NextTurn(w, a).turns[turn] == w.turns[turn]
  {
    hide PumpTop, EndTurn, MarkSent, Kick, Took, Fenced, Returned, TurnSeen;
  }

  lemma PutOffOwn(w: World, a: TurnAction)
    requires !a.KickPump? && (a.turn in w.turns ==> TurnSeen(w.s.log, a.turn)) && a.turn in NextTurn(w, a).turns
    ensures NextTurn(w, a).turns[a.turn].stage == Ending(Reenqueue) <==>
      ReadsDetaching(w, OnTurn(a), a.turn) || (a.turn in w.turns && w.turns[a.turn].stage == Ending(Reenqueue))
  {
    hide PumpTop, EndTurn, MarkSent, Took, Fenced, Returned, TurnSeen;
    if a.turn in w.turns { ReturnsElse(w.s, w.turns[a.turn].item, a); }
  }

  lemma PutOffTurn(w: World, a: TurnAction, turn: Id)
    requires (turn in w.turns ==> TurnSeen(w.s.log, turn)) && turn in NextTurn(w, a).turns
    ensures NextTurn(w, a).turns[turn].stage == Ending(Reenqueue) <==>
      ReadsDetaching(w, OnTurn(a), turn) || (turn in w.turns && w.turns[turn].stage == Ending(Reenqueue))
  {
    hide NextTurn;
    if a.KickPump? || a.turn != turn { OtherTurnsStay(w, a, turn); } else { PutOffOwn(w, a); }
  }

  lemma ReturnsElse(s: Shared, item: Item, a: TurnAction)
    ensures a.PromptReturns? ==> !Returned(s, item, a.failed, a.disconnect, a.marker).Reenqueue?
  {
  }

  lemma {:induction false} PutOffExactly(job: Job, actions: seq<Action>, turn: Id)
    requires Dispatched(job) && turn in Run(job, actions).turns
    ensures Run(job, actions).turns[turn].stage == Ending(Reenqueue) <==> PutOff(job, actions, turn)
  {
    if actions != [] {
      var most := actions[..|actions| - 1];
      TurnInvRun(job, most);
      if turn in Run(job, most).turns {
        UnderwaySeen(Run(job, most), turn);
        PutOffExactly(job, most, turn);
      }
      hide Next, ReadsDetaching, TurnInv;
      PutOffStep(Run(job, most), actions[|actions| - 1], turn);
    }
  }

  /** The item as a turn puts it back: numbered and stamped anew. */
  function PutBack(s: Shared, item: Item): Item {
    item.(number := s.accepted, gen := s.rt.gen, requestID := RequestOr(s, item.requestID, 0))
  }

  /**
   A turn that ends outside the fence leaves the record as it is. It does nothing, unless it read a detaching record:
   then its item comes back, inside the fence, however the turn came to be outside.
   */
  lemma LateTurnsPutBack(job: Job, actions: seq<Action>, turn: Id, cancelledRequest: bool, ok: bool, ok2: bool)
    requires Dispatched(job)
    requires var w := Run(job, actions); turn in w.turns && w.turns[turn].stage.Ending? && BumpedSince(w.s.log, turn)
    ensures var w := Run(job, actions); var s' := Next(w, OnTurn(FinishTurn(turn, cancelledRequest, ok, ok2))).s;
      var ended := Then(w.s.log, TurnEnded(turn)); var item := PutBack(w.s, w.turns[turn].item);
      && s'.job == w.s.job
      && if PutOff(job, actions, turn) && ok && !w.s.closed
         then s'.log == Then(Then(ended, Committed(w.s.job, ByRequeue(turn))), Accepted(item)) && item in s'.rt.queue
           && !Fenced(s', item)
         else s'.log == ended && s'.rt.queue == w.s.rt.queue
  {
    var w := Run(job, actions);
    TurnInvRun(job, actions);
    PutOffExactly(job, actions, turn);
    assert w.turns[turn].item.gen != w.s.rt.gen;
    hide Run, PutOff, TurnInv;
    LateFinish(w.s, w.turns[turn].item, turn, w.turns[turn].stage.finish, cancelledRequest, ok, ok2);
  }

  lemma LateFinish(s: Shared, item: Item, turn: Id, f: Finish, cancelledRequest: bool, ok: bool, ok2: bool)
    requires Fenced(s, item)
    ensures var s' := EndTurn(s, item, turn, f, cancelledRequest, ok, ok2);
      && s'.job == s.job
      && if f.Reenqueue? && ok && !s.closed
         then s'.log == Then(Then(Then(s.log, TurnEnded(turn)), Committed(s.job, ByRequeue(turn))),
           Accepted(PutBack(s, item)))
              && PutBack(s, item) in s'.rt.queue && !Fenced(s', PutBack(s, item))
         else s'.log == Then(s.log, TurnEnded(turn)) && s'.rt.queue == s.rt.queue
  {
  }
}
