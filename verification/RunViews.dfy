/**
 The handoff between the supervisor and a terminal over whole runs: when the supervisor keeps the input although a
 terminal was asked for, when a launch saves its view over a turn, that no turn starts while a launch holds the
 job, and that the last view request wins.
 */
module RunViews {
  import opened Protocol
  import opened Supervisor
  import opened Runs
  import opened ViewSteps
  import RunTurns

  // ---------------------------------------------------------------- what the history must satisfy

  function LastView(h: History): Option<View> {
    match h
    case Start => None
    case Then(p, e) => if e.Committed? then Some(e.job.view) else LastView(p)
  }

  predicate SupervisorHolds(h: History) {
    LastView(h).Some? && LastView(h).value.owner.SupervisorOwner?
  }

  /** Writers that put back a record they read before. */
  predicate Copies(w: Writer) {
    w.ByTurnCopy? || w.ByDispatchCopy?
  }

  /**
   The two ways in which a job that asks for a terminal stays with the supervisor: the supervisor held it and
   the request was not saved, or a copy was written back that said so; and no later record moved the input.
   */
  predicate LeftWithSupervisor(h: History) {
    match h
    case Start => false
    case Then(p, e) =>
      if e.HeadedRequested? then !e.saved && SupervisorHolds(p)
      else if e.Committed? then e.job.view.owner.SupervisorOwner? && (Copies(e.writer) || LeftWithSupervisor(p))
      else LeftWithSupervisor(p)
  }

  /** At some time since the job last asked for a terminal, it was left with the supervisor in one of those ways. */
  predicate Tainted(h: History) {
    match h
    case Start => false
    case Then(p, e) =>
      if e.HeadedRequested? then !e.saved && SupervisorHolds(p)
      else (e.Committed? && Copies(e.writer) && e.job.view.owner.SupervisorOwner?) || Tainted(p)
  }

  /** The turn in flight was taken after the job last asked for a terminal, while that request stood. */
  predicate TakenUnder(h: History) {
    match h
    case Start => false
    case Then(p, e) =>
      if e.Dequeued? then Standing(p).Some?
      else !e.TurnEnded? && !e.Crashed? && !e.HeadedRequested? && TakenUnder(p)
  }

  /** A launch has taken the job over, and no record has given it back since. */
  predicate HandedOff(h: History) {
    match h
    case Start => false
    case Then(p, e) =>
      if e.LaunchSaved? then e.saved || HandedOff(p)
      else if e.Committed? then !e.job.view.owner.SupervisorOwner? && HandedOff(p)
      else HandedOff(p)
  }

  /**
   When a launch takes the job over, a turn is in flight exactly if one was taken under its request, and one is
   taken under a request only if the job was left with the supervisor. Until the job is given back none starts.
   */
  predicate HandoffExcludesTurns(h: History) {
    match h
    case Start => true
    case Then(p, e) =>
      HandoffExcludesTurns(p)
      && (e.LaunchSaved? ==> (RunTurns.InFlight(p) <==> TakenUnder(p)) && (!Tainted(p) ==> !RunTurns.InFlight(p)))
      && (e.Dequeued? ==> !HandedOff(p) && (Standing(p).Some? ==> LeftWithSupervisor(p)))
  }

  /** The epoch of the terminal request that stands. */
  function Standing(h: History): Option<nat> {
    match h
    case Start => None
    case Then(p, e) =>
      if e.HeadedRequested? then Some(e.epoch)
      else if e.HeadlessRequested? || e.ViewReset? || e.Crashed?
        || (e.MadeHeadless? && e.origin.FailedLaunch?) then None
      else Standing(p)
  }

  /**
   A launch saves, and a terminal is installed, only for the request that stands; a late thread takes it away
   only if none does.
   */
  predicate LastRequestWins(h: History) {
    match h
    case Start => true
    case Then(p, e) =>
      LastRequestWins(p)
      && (e.LaunchSaved? || e.Installed? ==> Standing(p) == Some(e.epoch))
      && (e.MadeHeadless? ==> Standing(p) == if e.origin.FailedLaunch? then Some(e.origin.epoch) else None)
  }

  /** The record turns headless, headed or back to the supervisor only together with the event that says so. */
  predicate ViewsAreAnnounced(h: History) {
    match h
    case Start => true
    case Then(p, e) =>
      ViewsAreAnnounced(p) &&
      (e.Committed? && LastView(p).Some? && !Copies(e.writer)
       ==> Announced(LastView(p).value, e.job.view, p))
  }

  predicate Announced(before: View, after: View, p: History) {
    && (after.mode.Headless? && !before.mode.Headless? ==>
          p.Then? && (p.event.MadeHeadless? || p.event.ViewReset? || p.event.Crashed?))
    && (after.owner.SupervisorOwner? && !before.owner.SupervisorOwner? ==>
          p.Then? && (p.event.MadeHeadless? || p.event.ViewReset? || p.event.Crashed?))
    && (after.mode.Headed? && !before.mode.Headed? ==> p.Then? && p.event.Installed?)
  }

  // ---------------------------------------------------------------- the invariant

  ghost predicate Holds(h: History, view: View, requested: bool, epoch: nat) {
    && HandoffExcludesTurns(h) && LastRequestWins(h) && ViewsAreAnnounced(h)
    && Standing(h) == (if requested then Some(epoch) else None)
    && LastView(h) == Some(view)
    && (requested ==> (view.owner.SupervisorOwner? <==> LeftWithSupervisor(h)))
    && (HandedOff(h) ==> !view.owner.SupervisorOwner?)
  }

  /** Launches past the wait for the running turn have seen it gone. */
  predicate SawQuiet(st: LaunchStage) {
    st.Quiet? || st.Ready?
  }

  predicate LaunchHolds(s: Shared, l: Launch) {
    && l.epoch <= s.rt.viewEpoch
    && (SawQuiet(l.stage) && ViewCurrent(s, l.epoch) && s.rt.busy ==> TakenUnder(s.log))
  }

  ghost predicate Fine(s: Shared) {
    Holds(s.log, s.job.view, s.rt.viewRequested, s.rt.viewEpoch)
  }

  ghost predicate ViewInv(w: World) {
    && Fine(w.s)
    && (forall k | k in w.launches :: LaunchHolds(w.s, w.launches[k]))
  }

  // ---------------------------------------------------------------- single events

  predicate Neutral(e: Event) {
    e.Accepted? || e.TurnEnded? || e.PromptCalled? || e.Bumped? || e.Removed? || e.Resolved? || e.RecordRead?
      || e.SetupBroke? || e.PromptReturned?
  }

  lemma NeutralKeeps(h: History, view: View, requested: bool, epoch: nat, e: Event)
    requires Holds(h, view, requested, epoch) && Neutral(e)
    ensures Holds(Then(h, e), view, requested, epoch) && (!e.TurnEnded? ==> TakenUnder(Then(h, e)) == TakenUnder(h))
  {
  }

  lemma CommitKeeps(h: History, view: View, requested: bool, epoch: nat, job: Job, w: Writer)
    requires Holds(h, view, requested, epoch) && job.view == view
    ensures Holds(Then(h, Committed(job, w)), view, requested, epoch)
    ensures TakenUnder(Then(h, Committed(job, w))) == TakenUnder(h)
  {
  }

  /** A copy read before is written back, and with it the view of that time. */
  lemma CopyKeeps(h: History, view: View, requested: bool, epoch: nat, job: Job, w: Writer)
    requires Holds(h, view, requested, epoch) && Copies(w)
    ensures Holds(Then(h, Committed(job, w)), job.view, requested, epoch)
    ensures TakenUnder(Then(h, Committed(job, w))) == TakenUnder(h)
  {
  }

  lemma DequeueKeeps(h: History, view: View, requested: bool, epoch: nat, turn: Id, item: Item)
    requires Holds(h, view, requested, epoch) && view.owner.SupervisorOwner?
    ensures Holds(Then(h, Dequeued(turn, item)), view, requested, epoch)
      && TakenUnder(Then(h, Dequeued(turn, item))) == requested
  {
  }

  /** The connection is lost: no request stands, and the record, if it is written, is headless. */
  lemma ResetKeeps(h: History, view: View, requested: bool, epoch: nat, job: Job, w: Writer)
    requires Holds(h, view, requested, epoch) && job.view == View(Headless, Headless, SupervisorOwner)
    ensures Holds(Then(h, ViewReset), view, false, epoch)
    ensures Holds(Then(Then(h, ViewReset), Committed(job, w)), job.view, false, epoch)
  {
    assert Standing(Then(h, ViewReset)).None?;
  }

  lemma CrashKeeps(h: History, view: View, requested: bool, epoch: nat, job: Job)
    requires Holds(h, view, requested, epoch)
      && (job.view == view || job.view == View(Headless, Headless, SupervisorOwner))
    ensures Holds(Then(h, Crashed), view, false, 0)
    ensures Holds(Then(Then(h, Crashed), Committed(job, ByCaller)), job.view, false, 0)
  {
    assert Standing(Then(h, Crashed)).None?;
  }

  // ---------------------------------------------------------------- sections that leave the view alone

  predicate Steady(s: Shared, s': Shared) {
    && s'.job.view == s.job.view && s'.rt.viewRequested == s.rt.viewRequested && s'.rt.viewEpoch == s.rt.viewEpoch
    && s'.rt.busy == s.rt.busy && (s.rt.busy ==> TakenUnder(s'.log) == TakenUnder(s.log))
  }

  lemma NoteSteady(s: Shared, e: Event)
    requires Fine(s) && Neutral(e)
    ensures Fine(Note(s, e)) && (!e.TurnEnded? ==> Steady(s, Note(s, e)))
  {
    NeutralKeeps(s.log, s.job.view, s.rt.viewRequested, s.rt.viewEpoch, e);
  }

  lemma CommitSteady(s: Shared, job: Job, phase: Phase, w: Writer, ok: bool)
    requires Fine(s) && job.view == s.job.view && !Copies(w)
    ensures Fine(Commit(s, job, phase, w, ok)) && Steady(s, Commit(s, job, phase, w, ok))
  {
    hide Holds;
    if ok { CommitKeeps(s.log, s.job.view, s.rt.viewRequested, s.rt.viewEpoch, Stamped(s.job, job, phase), w); }
  }

  lemma EnqueueSteady(s: Shared, q: Item, acceptedJob: Option<Job>, newID: Id, w: Writer, ok: bool)
    requires Fine(s) && !Copies(w) && (acceptedJob.Some? ==> acceptedJob.value.view == s.job.view)
    ensures var r := Enqueue(s, q, acceptedJob, newID, w, ok); Fine(r) && Steady(s, r)
  {
    hide Holds;
    if !s.closed && ok {
      var j := if acceptedJob.Some? then acceptedJob.value else s.job;
      CommitSteady(s, j, NoPhase, w, true);
      NoteSteady(Commit(s, j, NoPhase, w, true),
                 Accepted(q.(number := s.accepted, gen := s.rt.gen, requestID := RequestOr(s, q.requestID, newID))));
    }
  }

  lemma EnqueueAllSteady(s: Shared, rows: seq<(Id, bool)>)
    requires Fine(s)
    ensures Fine(EnqueueAll(s, rows)) && Steady(s, EnqueueAll(s, rows))
    decreases |rows|
  {
    hide Fine;
    if rows != [] {
      var q := Item(0, FollowupItem, true, rows[0].1, 0, rows[0].0);
      if rows[0].0 == s.job.requestID {
        EnqueueAllSteady(s, rows[1..]);
      } else {
        EnqueueSteady(s, q, None, 0, ByCaller, true);
        EnqueueAllSteady(Enqueue(s, q, None, 0, ByCaller, true), rows[1..]);
      }
    }
  }

  lemma FollowupSteady(s: Shared, requestID: Id, planning: bool, live: bool, ok: bool)
    requires Fine(s)
    ensures var r := Followup(s, requestID, planning, live, ok); Fine(r) && Steady(s, r)
  {
    hide Fine;
    var q := Item(0, FollowupItem, true, planning, 0, requestID);
    var j := s.job.(requestID := requestID, pause := NoPause, resultTurnID := 0, state := JobState.Executing);
    var k := if planning then j.(state := JobState.Planning, approval := j.approval.(approved := false, content := ""))
      else j;
    EnqueueSteady(s, q, None, 0, ByFollowup(planning, live), ok);
    EnqueueSteady(s, q, Some(k), 0, ByFollowup(planning, live), ok);
  }

  lemma ContinueSteady(s: Shared, planning: bool, live: bool, rows: seq<(Id, bool)>, newID: Id, ok: bool)
    requires Fine(s)
    ensures var r := Continue(s, planning, live, rows, newID, ok); Fine(r) && Steady(s, r)
  {
    hide Fine;
    var q := Item(0, ContinueItem, true, planning, 0, s.job.requestID);
    var j := s.job.(state := JobState.Executing, pause := NoPause, approval := s.job.approval.(delivery := NoDelivery));
    var k := if planning then j.(state := JobState.Planning, approval := j.approval.(approved := false)) else j;
    EnqueueSteady(s, q, None, newID, ByContinue(planning, live), ok);
    EnqueueSteady(s, q, Some(k), newID, ByContinue(planning, live), ok);
    EnqueueAllSteady(Enqueue(s, q, Some(k), newID, ByContinue(planning, live), ok), rows);
  }

  lemma CancelStartSteady(s: Shared, expected: Id, ok: bool)
    requires Fine(s)
    ensures var r := CancelStart(s, expected, ok); Fine(r) && Steady(s, r)
  {
    hide Holds;
    if CancelStarts(s, expected) {
      NoteSteady(s, Bumped(CancelledTurn));
      var s1 := Note(s, Bumped(CancelledTurn)).(rt := CancelStart(s, expected, ok).rt);
      CommitSteady(s1, s.job.(state := JobState.NeedsInput, pause := CancelDelivery, activeTurnID := s1.rt.turnID),
        NoPhase, ByCaller, ok);
    }
  }

  lemma CancelFinishSteady(s: Shared, generation: nat, failed: bool, ok: bool)
    requires Fine(s)
    ensures var r := CancelFinish(s, generation, failed, ok); Fine(r) && Steady(s, r)
  {
    hide Holds;
    var s2 := s.(rt := s.rt.(controlPending := false));
    CommitSteady(s2, s.job.(pause := if failed then CancelUnknown else NoPause, activeTurnID := s2.rt.turnID), NoPhase,
      ByOutcome(failed), ok);
  }

  lemma SubmitSteady(s: Shared, d: Decision, pending: Option<PlanRequest>, ok: bool)
    requires Fine(s)
    ensures var r := PlanSubmit(s, d, pending, ok); Fine(r) && Steady(s, r)
  {
    hide Holds;
    CommitSteady(s, SubmittedJob(s.job, d.decide).(activeTurnID := s.rt.turnID), NoPhase, ByDecision(d), ok);
  }

  lemma PlanFinishSteady(s: Shared, approvalID: Id, decide: Protocol.Decide, failed: bool, ok: bool)
    requires Fine(s)
    ensures var r := PlanFinish(s, approvalID, decide, failed, ok); Fine(r) && Steady(s, r)
  {
    hide Holds;
    var stillOpen := failed && s.job.approval.id == approvalID && s.job.approval.delivery == Submitted;
    var j := s.job.(state := JobState.NeedsInput, pause := ApprovalUnknown,
                    approval := s.job.approval.(delivery := Unknown, approved := false), activeTurnID := s.rt.turnID);
    CommitSteady(s, j, NoPhase, ByUndelivered, ok);
    var s1 := if stillOpen then Commit(s, j, NoPhase, ByUndelivered, ok) else s;
    NoteSteady(s1, Bumped(PlanCancelled));
    NoteSteady(Note(s1, Bumped(PlanCancelled)), Removed(Numbers(s.rt.queue)));
  }

  lemma ApprovalSteady(s: Shared, p: PlanRequest, content: string, ok: bool)
    requires Fine(s)
    ensures var r := OnApproval(s, p, content, ok); Fine(r) && Steady(s, r)
  {
    hide Holds;
    CommitSteady(s, OnApproval(s, p, content, true).job.(activeTurnID := s.rt.turnID), NoPhase, ByApproval, ok);
    if ApprovalValid(s, p) && p.id != s.job.approval.id {
      var j := s.job.(state := JobState.PlanReady, activeTurnID := s.rt.turnID,
                      pause := if content == "" then PlanContentMissing else ApprovalPause,
                      approval := Protocol.Approval(p.id, p.connectionID, p.supportsNotes, Pending, false,
                                                    s.job.approval.planVersion + 1, p.turnID, content));
      CommitSteady(s, j, NoPhase, ByApproval, ok);
    }
  }

  lemma YieldSteady(s: Shared, ok: bool)
    requires Fine(s)
    ensures Fine(YieldBump(s)) && Steady(s, YieldBump(s)) && Fine(YieldMark(s, ok)) && Steady(s, YieldMark(s, ok))
  {
    hide Holds;
    NoteSteady(s, Bumped(Yielded));
    CommitSteady(s, YieldedJob(s.job), UnknownPhase, ByYield, ok);
  }

  // ---------------------------------------------------------------- sections that may end a request

  /** No new request, and a turn that starts under a request counts as taken under it. */
  predicate Calm(s: Shared, s': Shared) {
    && s'.rt.viewEpoch == s.rt.viewEpoch && (s'.rt.viewRequested ==> s.rt.viewRequested)
    && (s'.rt.busy && s.rt.viewRequested && (s.rt.busy ==> TakenUnder(s.log)) ==> TakenUnder(s'.log))
  }

  /** The write of a disconnect, with the request already withdrawn. */
  lemma ResetFine(s: Shared, w: Writer, ok: bool) returns (s1: Shared)
    requires Fine(s) && !Copies(w)
    ensures s1 == Save(Note(s, ViewReset), DisconnectedJob(s.job), w, ok).(rt := s.rt.(viewRequested := false))
    ensures Fine(s1) && TakenUnder(s1.log) == TakenUnder(s.log)
  {
    hide Holds;
    var j := Stamped(s.job, DisconnectedJob(s.job).(activeTurnID := s.rt.turnID), NoPhase);
    ResetKeeps(s.log, s.job.view, s.rt.viewRequested, s.rt.viewEpoch, j, w);
    s1 := Save(Note(s, ViewReset), DisconnectedJob(s.job), w, ok).(rt := s.rt.(viewRequested := false));
  }

  lemma DisconnectCalm(s: Shared, w: Writer, ok: bool)
    requires Fine(s) && !Copies(w)
    ensures Fine(DisconnectLocked(s, w, ok)) && Calm(s, DisconnectLocked(s, w, ok))
  {
    hide Holds, Save, DisconnectedJob;
    if !s.job.userCancelled {
      var s1 := ResetFine(s, w, ok);
      NoteSteady(s1, Bumped(Disconnect));
      NoteSteady(Note(s1, Bumped(Disconnect)), Removed(Numbers(s.rt.queue)));
    }
  }

  lemma CopyCalm(s: Shared, job: Job, w: Writer, ok: bool)
    requires Fine(s) && Copies(w)
    ensures Fine(Save(s, job, w, ok)) && Calm(s, Save(s, job, w, ok))
  {
    hide Holds;
    if ok {
      CopyKeeps(s.log, s.job.view, s.rt.viewRequested, s.rt.viewEpoch,
        Stamped(s.job, job.(activeTurnID := s.rt.turnID), NoPhase), w);
    }
  }

  lemma FinishCalm(s: Shared, item: Item, turn: Id, f: Finish, cancelledRequest: bool, ok: bool, ok2: bool)
    requires Fine(s)
    ensures var r := RunFinish(s, item, turn, f, cancelledRequest, ok, ok2); Fine(r) && Calm(s, r)
  {
    hide Fine;
    match f
    case Nothing =>
    case Reenqueue => EnqueueSteady(s, item, None, 0, ByRequeue(turn), ok);
    case LoadFailed => DisconnectCalm(s, ByTurn(turn), ok);
    case SetupFailed(disconnect, copy) =>
      DisconnectCalm(s, ByTurn(turn), ok);
      CopyCalm(s, FailedJob(copy), ByTurnCopy(turn), ok);
    case PromptFailed(disconnect) =>
      DisconnectCalm(s, ByTurn(turn), ok);
      CommitSteady(s, FailedJob(s.job).(activeTurnID := s.rt.turnID), NoPhase, ByTurn(turn), ok);
    case Answer(marker) =>
      CommitSteady(s, AnsweredJob(s, turn, marker), ReturnedPhase, ByTurn(turn), true);
      var s1 := Commit(s, AnsweredJob(s, turn, marker), ReturnedPhase, ByTurn(turn), true);
      EnqueueSteady(s1, Item(0, ContinueItem, false, false, 0, item.requestID), None, 0, ByTurn(turn), ok2);
  }

  lemma EndTurnCalm(s: Shared, item: Item, turn: Id, f: Finish, cancelledRequest: bool, ok: bool, ok2: bool)
    requires Fine(s)
    ensures var r := EndTurn(s, item, turn, f, cancelledRequest, ok, ok2); Fine(r) && Calm(s, r)
  {
    hide Holds, RunFinish;
    NoteSteady(s, TurnEnded(turn));
    var s1 := Note(s, TurnEnded(turn)).(rt := s.rt.(busy := false, ctxDone := false, turnID := 0));
    FinishCalm(s1, item, turn, f, cancelledRequest, ok, ok2);
    FinishIdle(s1, item, turn, f, cancelledRequest, ok, ok2);
  }

  lemma FinishIdle(s: Shared, item: Item, turn: Id, f: Finish, cancelledRequest: bool, ok: bool, ok2: bool)
    ensures RunFinish(s, item, turn, f, cancelledRequest, ok, ok2).rt.busy == s.rt.busy
  {
  }

  /** The pump takes an item only while the supervisor owns the job. */
  lemma PumpCalm(s: Shared, turn: Id, live: bool, ok: bool)
    requires Fine(s) && s.heads > 0
    ensures Fine(PumpTop(s, turn, live, ok)) && Calm(s, PumpTop(s, turn, live, ok))
  {
    hide Holds;
    if GateOf(s, live).NotYet? {
      var item := s.rt.queue[0];
      DequeueKeeps(s.log, s.job.view, s.rt.viewRequested, s.rt.viewEpoch, turn, item);
      var up := Note(s, Dequeued(turn, item)).(rt := Take(s, turn, true).rt, heads := s.heads - 1);
      CommitSteady(up, PreparedJob(s.job, item, turn), PreparingPhase, ByTurn(turn), true);
      NoteSteady(up, TurnEnded(turn));
    }
  }

  lemma StartCalm(s: Shared, copy: Job, gen: nat, sessionID: Id, planning: bool, ok: bool, ok2: bool)
    requires Fine(s)
    ensures Fine(StartBegin(s, copy, ok)) && Calm(s, StartBegin(s, copy, ok))
    ensures var r := StartFinish(s, copy, gen, sessionID, planning, ok, ok2); Fine(r) && Calm(s, r)
  {
    hide Fine;
    CopyCalm(s, copy.(state := JobState.Starting), ByDispatchCopy, ok);
    CommitSteady(s, s.job.(sessionID := sessionID, activeTurnID := s.rt.turnID), NoPhase, BySession, ok);
    CopyCalm(s, FailedJob(copy), ByDispatchCopy, ok);
    var j := copy.(sessionID := sessionID, state := if planning then JobState.Planning else JobState.Executing,
                   view := copy.view.(desired := Headless));
    CopyCalm(s, j, ByDispatchCopy, true);
    EnqueueSteady(Save(s, j, ByDispatchCopy, true), Item(0, PlanItem, false, planning, 0, copy.requestID), None, 0,
      ByCaller, ok2);
  }

  lemma RestartFine(s: Shared, ok: bool)
    requires Fine(s)
    ensures Fine(Restart(s, ok))
  {
    hide Holds;
    NoteSteady(s, Removed(Numbers(s.rt.queue)));
    var j := Stamped(s.job, AwaitingResume(s.job), NoPhase);
    CrashKeeps(Then(s.log, Removed(Numbers(s.rt.queue))), s.job.view, s.rt.viewRequested, s.rt.viewEpoch, j);
  }

  // ---------------------------------------------------------------- the view sections

  /** A turn taken under a request is in flight, and was taken only because the request had left it the job. */
  lemma {:induction false} UnderInFlight(h: History)
    requires HandoffExcludesTurns(h) && TakenUnder(h)
    ensures RunTurns.InFlight(h) && Tainted(h)
  {
    if h.event.Dequeued? { LeftIsTainted(h.past); } else { UnderInFlight(h.past); }
  }

  lemma {:induction false} LeftIsTainted(h: History)
    requires LeftWithSupervisor(h)
    ensures Tainted(h)
  {
    if !h.event.HeadedRequested? && !(h.event.Committed? && Copies(h.event.writer)) { LeftIsTainted(h.past); }
  }

  /** A view event with the save that belongs to it. */
  lemma PairKeeps(h: History, view: View, requested: bool, epoch: nat, e: Event, requested': bool, epoch': nat,
    job: Job, saved: bool)
    requires Holds(h, view, requested, epoch) && ViewEvent(e)
    requires Standing(Then(h, e)) == if requested' then Some(epoch') else None
    requires e.LaunchSaved? || e.Installed? ==> Standing(h) == Some(e.epoch)
    requires e.MadeHeadless? ==> Standing(h) == if e.origin.FailedLaunch? then Some(e.origin.epoch) else None
    requires e.LaunchSaved? && RunTurns.InFlight(h) ==> TakenUnder(h)
    requires Announced(view, job.view, Then(h, e))
    requires var after := if saved then job.view else view;
      && (requested' && after.owner.SupervisorOwner? ==> LeftWithSupervisor(Then(h, e)))
      && (requested' && !saved && LeftWithSupervisor(Then(h, e)) ==> after.owner.SupervisorOwner?)
      && (e.LaunchSaved? && e.saved && !saved ==> !view.owner.SupervisorOwner?)
    ensures !saved ==> Holds(Then(h, e), view, requested', epoch')
    ensures saved ==> Holds(Then(Then(h, e), Committed(job, ByCaller)), job.view, requested', epoch')
    ensures !e.HeadedRequested? ==>
      TakenUnder(Then(h, e)) == TakenUnder(h) == TakenUnder(Then(Then(h, e), Committed(job, ByCaller)))
  {
    if TakenUnder(h) { UnderInFlight(h); }
  }

  lemma SaveViewPair(s: Shared, e: Event, rt: Runtime, v: View, ok: bool)
    requires Fine(s) && ViewEvent(e)
    requires Standing(Then(s.log, e)) == if rt.viewRequested then Some(rt.viewEpoch) else None
    requires e.LaunchSaved? || e.Installed? ==> Standing(s.log) == Some(e.epoch)
    requires e.MadeHeadless? ==> Standing(s.log) == if e.origin.FailedLaunch? then Some(e.origin.epoch) else None
    requires e.LaunchSaved? && RunTurns.InFlight(s.log) ==> TakenUnder(s.log)
    requires Announced(s.job.view, v, Then(s.log, e))
    requires var after := if ok then v else s.job.view;
      && (rt.viewRequested && after.owner.SupervisorOwner? ==> LeftWithSupervisor(Then(s.log, e)))
      && (rt.viewRequested && !ok && LeftWithSupervisor(Then(s.log, e)) ==> after.owner.SupervisorOwner?)
    requires e.LaunchSaved? ==> e.saved == ok
    ensures var r := SaveView(Note(s, e).(rt := rt), v, ok);
      Fine(r) && (!e.HeadedRequested? ==> TakenUnder(r.log) == TakenUnder(s.log))
  {
    hide Holds, Announced;
    var s1 := Note(s, e).(rt := rt);
    var j := Stamped(s.job, s.job.(view := v, activeTurnID := rt.turnID), NoPhase);
    PairKeeps(s.log, s.job.view, s.rt.viewRequested, s.rt.viewEpoch, e, rt.viewRequested, rt.viewEpoch, j, ok);
  }

  lemma RequestHeadedFine(s: Shared, ok: bool)
    requires Fine(s)
    ensures Fine(RequestHeaded(s, ok))
  {
    assert LastView(s.log) == Some(s.job.view);
    hide Holds, SaveView;
    var epoch := s.rt.viewEpoch + 1;
    var v := View(if s.job.view.mode.Headless? then Attaching else s.job.view.mode, Headed,
                  if s.job.view.owner.SupervisorOwner? then HandoffOwner else s.job.view.owner);
    SaveViewPair(s, HeadedRequested(epoch, ok), s.rt.(viewRequested := true, viewEpoch := epoch), v, ok);
  }

  lemma RequestHeadlessFine(s: Shared, ok: bool)
    requires Fine(s)
    ensures Fine(RequestHeadless(s, ok))
  {
    hide Holds, SaveView;
    SaveViewPair(s, HeadlessRequested(false, false), s.rt.(viewRequested := false, viewEpoch := s.rt.viewEpoch + 1),
      s.job.view.(desired := Headless), ok);
  }

  lemma LaunchSaveFine(s: Shared, epoch: nat, ok: bool)
    requires Fine(s) && ViewCurrent(s, epoch) && (RunTurns.InFlight(s.log) ==> TakenUnder(s.log))
    ensures Fine(LaunchSave(s, epoch, ok)) && Calm(s, LaunchSave(s, epoch, ok))
  {
    SaveViewPair(s, LaunchSaved(epoch, ok), s.rt, View(Attaching, Headed, HandoffOwner), ok);
  }

  lemma InstallFine(s: Shared, epoch: nat, handle: Id, ok: bool)
    requires Fine(s)
    ensures Fine(CommitHeaded(s, epoch, handle, ok)) && Calm(s, CommitHeaded(s, epoch, handle, ok))
    ensures Fine(MarkHeaded(s, epoch, ok)) && Calm(s, MarkHeaded(s, epoch, ok))
  {
    if ViewCurrent(s, epoch) {
      SaveViewPair(s, Installed(epoch, None), s.rt, View(Headed, Headed, TuiOwner), ok);
      SaveViewPair(s, Installed(epoch, Some(handle)), s.rt.(term := handle, attachGen := s.rt.attachGen + 1),
        View(Headed, Headed, TuiOwner), ok);
    }
  }

  lemma FailFine(s: Shared, epoch: nat, alive: bool, ok: bool)
    requires Fine(s)
    ensures Fine(FailHeadless(s, epoch, alive, ok)) && Fine(ReconcileClosed(s, alive, ok))
      && Calm(s, ReconcileClosed(s, alive, ok))
  {
    if ViewCurrent(s, epoch) {
      SaveViewPair(s, MadeHeadless(FailedLaunch(epoch), alive), s.rt.(viewRequested := false, viewEpoch := epoch + 1),
        HeadlessView(alive), ok);
    }
    if !s.rt.viewRequested { SaveViewPair(s, MadeHeadless(ClosedLaunch, alive), s.rt, HeadlessView(alive), ok); }
  }

  lemma DetachBeginFine(s: Shared, fromClose: bool, expected: nat, ok: bool)
    requires Fine(s)
    ensures Fine(DetachBegin(s, fromClose, expected, ok))
  {
    if DetachCurrent(s, expected) {
      var rt := s.rt.(viewRequested := false, viewEpoch := s.rt.viewEpoch + 1);
      var e := HeadlessRequested(!DetachIdle(s, fromClose), fromClose);
      SaveViewPair(s, e, rt, s.job.view.(desired := Headless), ok);
      SaveViewPair(s, e, rt, s.job.view, false);
      SaveViewPair(s, e, rt, s.job.view.(desired := Headless, mode := Detaching), ok);
    }
  }

  lemma DetachFine(s: Shared, gen: nat, ok: bool)
    requires Fine(s)
    ensures Fine(DetachFinish(s, gen, ok)) && Calm(s, DetachFinish(s, gen, ok))
    ensures !s.rt.viewRequested ==> Fine(DetachToBackground(s, ok)) && Calm(s, DetachToBackground(s, ok))
  {
    if !s.rt.viewRequested {
      SaveViewPair(s, MadeHeadless(FinishedDetach, false), s.rt,
        s.job.view.(mode := Headless, owner := SupervisorOwner), ok);
      SaveViewPair(s, MadeHeadless(FinishedDetach, true), s.rt, s.job.view.(mode := Headless, owner := TuiOwner), ok);
    }
  }

  // ---------------------------------------------------------------- every action keeps it

  lemma LaunchesCalm(s: Shared, s': Shared, launches: map<nat, Launch>)
    requires Fine(s) && (forall k | k in launches :: LaunchHolds(s, launches[k]))
    requires Calm(s, s') || Steady(s, s') || (s'.rt.viewEpoch > s.rt.viewEpoch)
    ensures forall k | k in launches :: LaunchHolds(s', launches[k])
  {
  }

  lemma ViewInvMoves(w: World, a: TurnAction)
    requires ViewInv(w) && RunTurns.Moves(a)
    ensures ViewInv(NextTurn(w, a))
  {
    hide Holds, Returned, Fenced;
    match a {
      case ReadJob(turn) => NoteSteady(w.s, RecordRead(turn));
      case SetupFails(turn, loading, disconnect) => NoteSteady(w.s, SetupBroke(turn, loading, disconnect));
      case PromptReturns(turn, failed, disconnect, marker) =>
        NoteSteady(w.s, PromptReturned(turn, failed, disconnect, marker));
    }
    LaunchesCalm(w.s, NextTurn(w, a).s, w.launches);
  }

  lemma ViewInvTurn(w: World, a: TurnAction)
    requires ViewInv(w) && !RunTurns.Moves(a)
    ensures ViewInv(NextTurn(w, a))
  {
    hide Holds, PumpTop, EndTurn, Took, Returned, Fenced, TurnSeen;
    match a {
      case PumpGo(turn, live, ok) => if w.s.heads > 0 { PumpCalm(w.s, turn, live, ok); }
      case MarkTurn(turn, ok) => CommitSteady(w.s, w.s.job.(activeTurnID := turn), SentPhase, ByTurn(turn), true);
      case CallPrompt(turn) => NoteSteady(w.s, PromptCalled(turn));
      case FinishTurn(turn, cancelledRequest, ok, ok2) =>
        if turn in w.turns && w.turns[turn].stage.Ending? {
          EndTurnCalm(w.s, w.turns[turn].item, turn, w.turns[turn].stage.finish, cancelledRequest, ok, ok2);
        }
      case _ =>
    }
    LaunchesCalm(w.s, NextTurn(w, a).s, w.launches);
  }

  lemma ViewInvControl(w: World, a: ControlAction)
    requires ViewInv(w)
    ensures ViewInv(NextControl(w, a))
  {
    hide Holds;
    match a {
      case DoFollowup(requestID, planning, live, ok) => FollowupSteady(w.s, requestID, planning, live, ok);
      case DoContinue(planning, live, rows, newID, ok) => ContinueSteady(w.s, planning, live, rows, newID, ok);
      case DoCancelRequest(requestID, turnID, persisted, updated) =>
        NoteSteady(w.s, Removed(Numbers(Only(w.s.rt.queue, requestID))));
      case BeginCancel(expected, ok) => CancelStartSteady(w.s, expected, ok);
      case EndCancel(generation, failed, ok) => CancelFinishSteady(w.s, generation, failed, ok);
      case Decide(key, d, pending, ok) => SubmitSteady(w.s, d, pending, true);
      case Resolve(key, failed) =>
        if key in w.decisions {
          NoteSteady(w.s, Resolved(w.decisions[key].approvalID, w.decisions[key].decide, failed));
        }
      case EndDecide(key, ok) =>
        if key in w.decisions {
          PlanFinishSteady(w.s, w.decisions[key].approvalID, w.decisions[key].decide, w.decisions[key].failed, ok);
        }
      case Approval(p, content, ok) => ApprovalSteady(w.s, p, content, ok);
      case LoseConnection(ok) => DisconnectCalm(w.s, ByCaller, ok);
    }
    LaunchesCalm(w.s, NextControl(w, a).s, w.launches);
  }

  lemma ViewInvLife(w: World, a: LifeAction)
    requires ViewInv(w)
    ensures ViewInv(NextLife(w, a))
  {
    hide Holds;
    match a {
      case BeginStart(ok) => if w.dispatch.NotBegun? { StartCalm(w.s, w.dispatch.copy, 0, 0, false, ok, false); }
      case EndStart(sessionID, planning, ok, ok2) =>
        if w.dispatch.Waiting? { StartCalm(w.s, w.dispatch.copy, w.dispatch.gen, sessionID, planning, ok, ok2); }
      case CloseService =>
      case RestartService(ok) => RestartFine(w.s, ok);
    }
    if !a.RestartService? { LaunchesCalm(w.s, NextLife(w, a).s, w.launches); }
  }

  /** A launch moves on, or starts, or ends; the others are as they were. */
  lemma LaunchMoves(w: World, launches': map<nat, Launch>, s': Shared, key: nat)
    requires ViewInv(w) && Fine(s')
    requires Calm(w.s, s') || Steady(w.s, s') || s'.rt.viewEpoch > w.s.rt.viewEpoch
    requires forall k | k in launches' && k != key :: k in w.launches && launches'[k] == w.launches[k]
    requires key in launches' ==> LaunchHolds(s', launches'[key])
    ensures ViewInv(w.(s := s', launches := launches'))
  {
    LaunchesCalm(w.s, s', w.launches);
  }

  lemma ViewInvAsk(w: World, key: nat, ok: bool)
    requires ViewInv(w)
    ensures ViewInv(NextLaunch(w, AskHeaded(key, ok)))
  {
    RequestHeadedFine(w.s, ok);
    var w' := NextLaunch(w, AskHeaded(key, ok));
    assert RequestHeaded(w.s, ok).rt.viewEpoch == w.s.rt.viewEpoch + 1;
    hide Holds, RequestHeaded;
    LaunchMoves(w, w'.launches, w'.s, key);
  }

  lemma ViewInvAttach(w: World, key: nat)
    requires ViewInv(w)
    ensures ViewInv(NextLaunch(w, AttachDesired(key)))
  {
    hide Holds;
    LaunchMoves(w, NextLaunch(w, AttachDesired(key)).launches, w.s, key);
  }

  /** A turn that has been seen gone while the request stands cannot come back before the launch is saved. */
  lemma ViewInvSave(w: World, key: nat, ok: bool)
    requires ViewInv(w) && (RunTurns.InFlight(w.s.log) <==> w.s.rt.busy)
    ensures ViewInv(NextLaunch(w, SaveLaunch(key, ok)))
  {
    if AtLaunch(w, key, Ready) && ViewCurrent(w.s, w.launches[key].epoch) {
      assert LaunchHolds(w.s, w.launches[key]);
      LaunchSaveFine(w.s, w.launches[key].epoch, ok);
    }
    var w' := NextLaunch(w, SaveLaunch(key, ok));
    LaunchMoves(w, w'.launches, w'.s, key);
  }

  predicate Waits(a: LaunchAction) {
    a.CheckLaunch? || a.DeferLaunch? || a.SeeQuiet? || a.GiveUp? || a.TerminalReady?
  }

  lemma WaitMoves(w: World, a: LaunchAction)
    requires Waits(a) && a.key in w.launches && LaunchHolds(w.s, w.launches[a.key])
    ensures var w' := NextLaunch(w, a);
      && w' == w.(launches := w'.launches)
      && (a.key !in w'.launches ==> w'.launches == w.launches - {a.key})
      && (a.key in w'.launches ==>
            w'.launches == w.launches[a.key := w'.launches[a.key]] && LaunchHolds(w.s, w'.launches[a.key]))
  {
    var w' := NextLaunch(w, a);
    if a.key in w'.launches {
      assert w'.launches == w.launches[a.key := w'.launches[a.key]];
    }
  }

  lemma ViewInvWait(w: World, a: LaunchAction)
    requires ViewInv(w) && Waits(a)
    ensures ViewInv(NextLaunch(w, a))
  {
    hide Holds;
    if a.key in w.launches {
      WaitMoves(w, a);
      hide NextLaunch, LaunchHolds;
      LaunchMoves(w, NextLaunch(w, a).launches, w.s, a.key);
    }
  }

  /** A launch ends with a section that leaves the other launches in order. */
  lemma LaunchEnds(w: World, s': Shared, key: nat)
    requires ViewInv(w) && Fine(s')
    requires Calm(w.s, s') || Steady(w.s, s') || s'.rt.viewEpoch > w.s.rt.viewEpoch
    ensures ViewInv(w.(s := s', launches := w.launches - {key}))
  {
    LaunchMoves(w, w.launches - {key}, s', key);
  }

  lemma ViewInvYield(w: World, key: nat)
    requires ViewInv(w)
    ensures ViewInv(NextLaunch(w, YieldTurn(key)))
  {
    hide Holds;
    YieldSteady(w.s, false);
    var w' := NextLaunch(w, YieldTurn(key));
    LaunchMoves(w, w'.launches, w'.s, key);
  }

  lemma ViewInvYielded(w: World, key: nat, ok: bool, cancelFailed: bool)
    requires ViewInv(w)
    ensures ViewInv(NextLaunch(w, MarkYielded(key, ok, cancelFailed)))
  {
    hide Holds;
    YieldSteady(w.s, ok);
    var w' := NextLaunch(w, MarkYielded(key, ok, cancelFailed));
    LaunchMoves(w, w'.launches, w'.s, key);
  }

  lemma ForgetFine(w: World)
    requires ViewInv(w)
    ensures ViewInv(w.(s := w.s.(rt := w.s.rt.(term := 0))))
  {
    LaunchesCalm(w.s, w.s.(rt := w.s.rt.(term := 0)), w.launches);
  }

  lemma ViewInvReuse(w: World, key: nat, alive: bool, ready: bool, ok: bool)
    requires ViewInv(w)
    ensures ViewInv(NextLaunch(w, ReuseTerminal(key, alive, ready, ok)))
  {
    ForgetFine(w);
    assert Fine(w.s);
    hide ViewInv, Fine;
    if AtLaunch(w, key, Checked) && w.s.rt.term != 0 && alive {
      InstallFine(w.s, w.launches[key].epoch, 0, ok);
      LaunchEnds(w, w.s, key);
      LaunchEnds(w, MarkHeaded(w.s, w.launches[key].epoch, ok), key);
    }
  }

  lemma ViewInvInstall(w: World, key: nat, handle: Id, ok: bool)
    requires ViewInv(w)
    ensures ViewInv(NextLaunch(w, InstallTerminal(key, handle, ok)))
  {
    if AtLaunch(w, key, Opened) {
      InstallFine(w.s, w.launches[key].epoch, handle, ok);
      LaunchEnds(w, CommitHeaded(w.s, w.launches[key].epoch, handle, ok), key);
    }
  }

  lemma ViewInvFail(w: World, key: nat, alive: bool, ok: bool)
    requires ViewInv(w)
    ensures ViewInv(NextLaunch(w, FailLaunch(key, alive, ok)))
  {
    if AtLaunch(w, key, Opening) || AtLaunch(w, key, Failing) {
      FailFine(w.s, w.launches[key].epoch, alive, ok);
      LaunchEnds(w, FailHeadless(w.s, w.launches[key].epoch, alive, ok), key);
    }
  }

  lemma ViewInvReconcile(w: World, key: nat, alive: bool, ok: bool)
    requires ViewInv(w)
    ensures ViewInv(NextLaunch(w, ReconcileLaunch(key, alive, ok)))
  {
    if AtLaunch(w, key, Reconciling) {
      FailFine(w.s, 0, alive, ok);
      LaunchEnds(w, ReconcileClosed(w.s, alive, ok), key);
    }
  }

  lemma ViewInvLaunch(w: World, a: LaunchAction)
    requires ViewInv(w) && (RunTurns.InFlight(w.s.log) <==> w.s.rt.busy)
    ensures ViewInv(NextLaunch(w, a))
  {
    hide ViewInv;
    if Waits(a) { ViewInvWait(w, a); }
    else if a.AskHeaded? { ViewInvAsk(w, a.key, a.ok); }
    else if a.AttachDesired? { ViewInvAttach(w, a.key); }
    else if a.SaveLaunch? { ViewInvSave(w, a.key, a.ok); }
    else if a.EndWatch? { ViewInvWatch(w, a.handle, a.gen); }
    else if a.YieldTurn? { ViewInvYield(w, a.key); }
    else if a.MarkYielded? { ViewInvYielded(w, a.key, a.ok, a.cancelFailed); }
    else if a.ReuseTerminal? { ViewInvReuse(w, a.key, a.alive, a.ready, a.ok); }
    else if a.InstallTerminal? { ViewInvInstall(w, a.key, a.handle, a.ok); }
    else if a.FailLaunch? { ViewInvFail(w, a.key, a.alive, a.ok); }
    else { ViewInvReconcile(w, a.key, a.alive, a.ok); }
  }

  lemma ViewInvWatch(w: World, handle: Id, gen: nat)
    requires ViewInv(w)
    ensures ViewInv(NextLaunch(w, EndWatch(handle, gen)))
  {
    LaunchesCalm(w.s, WatchEnded(w.s, handle, gen), w.launches);
  }

  lemma ViewInvBegin(w: World, key: nat, fromClose: bool, expected: nat, ok: bool)
    requires ViewInv(w)
    ensures ViewInv(StartDetach(w, key, fromClose, expected, ok))
  {
    hide Holds;
    DetachBeginFine(w.s, fromClose, expected, ok);
    var s' := DetachBegin(w.s, fromClose, expected, ok);
    assert s'.rt.viewEpoch > w.s.rt.viewEpoch || s' == w.s;
    hide DetachBegin;
    LaunchesCalm(w.s, s', w.launches);
  }

  lemma ViewInvDetach(w: World, a: DetachAction)
    requires ViewInv(w)
    ensures ViewInv(NextDetach(w, a))
  {
    hide Holds, StartDetach, RequestHeadless;
    match a
    case AskHeadless(key, ok) =>
      RequestHeadlessFine(w.s, ok);
      LaunchesLater(w.s, ok, w.launches);
    case BeginDetach(key, fromClose, ok) => ViewInvBegin(w, key, fromClose, 0, ok);
    case GoDetach(key, ok) =>
      if key in w.detaches && w.detaches[key].Wanted? {
        ViewInvBegin(w.(detaches := w.detaches - {key}), key, false, w.detaches[key].epoch, ok);
      }
    case CheckDetach(key, alive, ok) =>
      DetachFine(w.s, 0, ok);
      LaunchesCalm(w.s, NextDetach(w, a).s, w.launches);
    case EndDetach(key, ok) =>
      if key in w.detaches && w.detaches[key].Loading? {
        DetachFine(w.s, w.detaches[key].gen, ok);
        LaunchesCalm(w.s, NextDetach(w, a).s, w.launches);
      }
  }

  lemma LaunchesLater(s: Shared, ok: bool, launches: map<nat, Launch>)
    requires Fine(s) && (forall k | k in launches :: LaunchHolds(s, launches[k]))
    ensures forall k | k in launches :: LaunchHolds(RequestHeadless(s, ok), launches[k])
  {
    LaunchesCalm(s, RequestHeadless(s, ok), launches);
  }

  // ---------------------------------------------------------------- every run

  lemma ViewInvNext(w: World, a: Action)
    requires ViewInv(w) && (RunTurns.InFlight(w.s.log) <==> w.s.rt.busy)
    ensures ViewInv(Next(w, a))
  {
    hide ViewInv;
    match a
    case OnTurn(t) => if RunTurns.Moves(t) { ViewInvMoves(w, t); } else { ViewInvTurn(w, t); }
    case OnControl(c) => ViewInvControl(w, c);
    case OnLife(l) => ViewInvLife(w, l);
    case OnLaunch(v) => ViewInvLaunch(w, v);
    case OnDetach(d) => ViewInvDetach(w, d);
  }

  lemma ViewInvInit(job: Job)
    requires Dispatched(job)
    ensures ViewInv(Init(job))
  {
    var h := Init(job).s.log;
    assert h == Then(Start, Committed(job, ByCaller));
    assert HandoffExcludesTurns(Start) && LastRequestWins(Start) && ViewsAreAnnounced(Start) && !HandedOff(Start);
    assert Standing(h) == Standing(Start) && LastView(Start).None?;
  }

  lemma {:induction false} ViewInvRun(job: Job, actions: seq<Action>)
    requires Dispatched(job)
    ensures ViewInv(Run(job, actions))
  {
    if actions == [] {
      ViewInvInit(job);
    } else {
      var before := actions[..|actions| - 1];
      ViewInvRun(job, before);
      RunTurns.TurnInvRun(job, before);
      ViewInvNext(Run(job, before), actions[|actions| - 1]);
    }
  }

  /**
   In every run the handoff excludes turns, the last view request wins, and no view changes unannounced; and while
   a request stands, the supervisor owns the input exactly if the job was left with it.
   */
  lemma RunsHandOver(job: Job, actions: seq<Action>)
    requires Dispatched(job)
    ensures var s := Run(job, actions).s;
      && HandoffExcludesTurns(s.log) && LastRequestWins(s.log) && ViewsAreAnnounced(s.log)
      && (Standing(s.log).Some? ==> (s.job.view.owner.SupervisorOwner? <==> LeftWithSupervisor(s.log)))
  {
    ViewInvRun(job, actions);
  }
}
