/**
 Approval delivery over whole runs, through disconnects and restarts: an approval is handed to the agent
 at most once, after its "submitted" mark is durable, and a settled delivery is never submitted again.
 */
module RunApprovals {
  import opened Protocol
  import opened Supervisor
  import opened Runs
  import opened ViewSteps

  predicate SubmittedIn(h: History, id: Id) {
    match h
    case Start => false
    case Then(p, e) =>
      (e.Committed? && e.job.approval.id == id && e.job.approval.delivery == Submitted) || SubmittedIn(p, id)
  }

  /** A durable record said that the delivery of `id` was confirmed, or that its outcome is unknown. */
  predicate SettledIn(h: History, id: Id) {
    match h
    case Start => false
    case Then(p, e) =>
      (e.Committed? && e.job.approval.id == id
        && (e.job.approval.delivery == Confirmed || e.job.approval.delivery == Unknown))
      || SettledIn(p, id)
  }

  predicate ResolvedIn(h: History, id: Id) {
    match h
    case Start => false
    case Then(p, e) => (e.Resolved? && e.approval == id) || ResolvedIn(p, id)
  }

  predicate ResolvedOnceAfterMark(h: History) {
    match h
    case Start => true
    case Then(p, e) =>
      ResolvedOnceAfterMark(p) &&
      (e.Resolved? ==> SubmittedIn(p, e.approval) && !ResolvedIn(p, e.approval))
  }

  predicate SettledStaysSettled(h: History) {
    match h
    case Start => true
    case Then(p, e) =>
      SettledStaysSettled(p) &&
      (e.Committed? && e.job.approval.delivery == Submitted ==> !SettledIn(p, e.job.approval.id))
  }

  // ---------------------------------------------------------------- the invariant

  predicate Untouched(d: Delivery) {
    d == Pending || d == Expired
  }

  /** What the record may say, given the history before it. */
  predicate MayCommit(h: History, job: Job) {
    && (job.state.PlanReady? ==>
          Untouched(job.approval.delivery) && !SubmittedIn(h, job.approval.id) && !SettledIn(h, job.approval.id))
    && (job.approval.delivery == Submitted ==> !SettledIn(h, job.approval.id))
  }

  ghost predicate ApprovalsHold(h: History, job: Job) {
    ResolvedOnceAfterMark(h) && SettledStaysSettled(h) && MayCommit(h, job)
  }

  lemma SeenFirst(h: History, id: Id)
    ensures SubmittedIn(h, id) || SettledIn(h, id) ==> ApprovalSeen(h, id)
    ensures ResolvedOnceAfterMark(h) && ResolvedIn(h, id) ==> SubmittedIn(h, id)
  {
  }

  ghost predicate DecisionsHold(h: History, ds: map<nat, Decided>) {
    && (forall k | k in ds :: !ds[k].resolved ==> SubmittedIn(h, ds[k].approvalID) && !ResolvedIn(h, ds[k].approvalID))
    && (forall k, l | k in ds && l in ds && k != l :: !ds[k].resolved && !ds[l].resolved ==>
       ds[k].approvalID != ds[l].approvalID)
  }

  ghost predicate Holds(h: History, job: Job, ds: map<nat, Decided>) {
    ApprovalsHold(h, job) && DecisionsHold(h, ds)
  }

  ghost predicate ApprovalInv(w: World) {
    && Holds(w.s.log, w.s.job, w.decisions)
    && (!w.dispatch.Over? ==> !w.dispatch.copy.state.PlanReady? && w.dispatch.copy.approval.delivery == NoDelivery)
  }

  // ---------------------------------------------------------------- what keeps it

  /** A record for the same approval that does not newly submit it, and does not make a plan ready again. */
  predicate Mild(before: Job, job: Job) {
    job.approval.id == before.approval.id
    && (job.approval.delivery == Submitted ==> before.approval.delivery == Submitted)
    && (job.state.PlanReady? ==>
          before.state.PlanReady?
            && (Untouched(job.approval.delivery) || job.approval.delivery == before.approval.delivery))
  }

  /** A record that neither has a plan ready nor a decision on its way. */
  predicate Plain(job: Job) {
    job.approval.delivery != Submitted && !job.state.PlanReady?
  }

  lemma NoteKeeps(s: Shared, ds: map<nat, Decided>, e: Event)
    requires Holds(s.log, s.job, ds) && !e.Committed? && !e.Resolved?
    ensures Holds(Note(s, e).log, Note(s, e).job, ds)
  {
    assert Note(s, e).log == Then(s.log, e);
  }

  lemma CommitKeeps(s: Shared, ds: map<nat, Decided>, job: Job, phase: Phase, w: Writer, ok: bool)
    requires Holds(s.log, s.job, ds)
    requires Mild(s.job, job) || Plain(job) || MayCommit(s.log, job)
    ensures Holds(Commit(s, job, phase, w, ok).log, Commit(s, job, phase, w, ok).job, ds)
  {
    if ok {
      var s' := Commit(s, job, phase, w, ok);
      assert s'.log == Then(s.log, Committed(s'.job, w));
    }
  }

  lemma EnqueueKeeps(s: Shared, ds: map<nat, Decided>, q: Item, acceptedJob: Option<Job>, newID: Id, w: Writer,
    ok: bool)
    requires Holds(s.log, s.job, ds)
    requires acceptedJob.Some? ==> Mild(s.job, acceptedJob.value)
    ensures var r := Enqueue(s, q, acceptedJob, newID, w, ok); Holds(r.log, r.job, ds)
  {
    hide Holds;
    if !s.closed && ok {
      var j := if acceptedJob.Some? then acceptedJob.value else s.job;
      CommitKeeps(s, ds, j, NoPhase, w, true);
      var item := q.(number := s.accepted, gen := s.rt.gen, requestID := RequestOr(s, q.requestID, newID));
      NoteKeeps(Commit(s, j, NoPhase, w, true), ds, Accepted(item));
    }
  }

  lemma EnqueueAllKeeps(s: Shared, ds: map<nat, Decided>, rows: seq<(Id, bool)>)
    requires Holds(s.log, s.job, ds)
    ensures Holds(EnqueueAll(s, rows).log, EnqueueAll(s, rows).job, ds)
    decreases |rows|
  {
    if rows != [] {
      var q := Item(0, FollowupItem, true, rows[0].1, 0, rows[0].0);
      if rows[0].0 == s.job.requestID {
        EnqueueAllKeeps(s, ds, rows[1..]);
      } else {
        EnqueueKeeps(s, ds, q, None, 0, ByCaller, true);
        EnqueueAllKeeps(Enqueue(s, q, None, 0, ByCaller, true), ds, rows[1..]);
      }
    }
  }

  lemma DisconnectKeeps(s: Shared, ds: map<nat, Decided>, w: Writer, ok: bool)
    requires Holds(s.log, s.job, ds)
    ensures var r := DisconnectLocked(s, w, ok); Holds(r.log, r.job, ds)
  {
    if !s.job.userCancelled {
      var s0 := Note(s, ViewReset);
      NoteKeeps(s, ds, ViewReset);
      CommitKeeps(s0, ds, DisconnectedJob(s.job).(activeTurnID := s.rt.turnID), NoPhase, w, ok);
      var s1 := Save(s0, DisconnectedJob(s.job), w, ok);
      NoteKeeps(s1, ds, Bumped(Disconnect));
      NoteKeeps(Note(s1, Bumped(Disconnect)), ds, Removed(Numbers(s.rt.queue)));
    }
  }

  lemma FinishKeeps(s: Shared, ds: map<nat, Decided>, item: Item, turn: Id, f: Finish, cancelledRequest: bool, ok: bool,
    ok2: bool)
    requires Holds(s.log, s.job, ds)
    ensures var r := RunFinish(s, item, turn, f, cancelledRequest, ok, ok2); Holds(r.log, r.job, ds)
  {
    hide Holds;
    DisconnectKeeps(s, ds, ByTurn(turn), ok);
    match f
    case Nothing =>
    case Reenqueue => EnqueueKeeps(s, ds, item, None, 0, ByRequeue(turn), ok);
    case LoadFailed =>
    case SetupFailed(disconnect, copy) =>
      CommitKeeps(s, ds, FailedJob(copy).(activeTurnID := s.rt.turnID), NoPhase, ByTurnCopy(turn), ok);
    case PromptFailed(disconnect) =>
      CommitKeeps(s, ds, FailedJob(s.job).(activeTurnID := s.rt.turnID), NoPhase, ByTurn(turn), ok);
    case Answer(marker) =>
      CommitKeeps(s, ds, AnsweredJob(s, turn, marker), ReturnedPhase, ByTurn(turn), true);
      var s1 := Commit(s, AnsweredJob(s, turn, marker), ReturnedPhase, ByTurn(turn), true);
      EnqueueKeeps(s1, ds, Item(0, ContinueItem, false, false, 0, item.requestID), None, 0, ByTurn(turn), ok2);
  }

  lemma TakeKeeps(s: Shared, ds: map<nat, Decided>, turn: Id, live: bool, ok: bool)
    requires Holds(s.log, s.job, ds) && s.heads > 0
    ensures var r := PumpTop(s, turn, live, ok); Holds(r.log, r.job, ds)
  {
    hide Holds;
    if GateOf(s, live).NotYet? {
      var item := s.rt.queue[0];
      var s1 := Note(s, Dequeued(turn, item));
      NoteKeeps(s, ds, Dequeued(turn, item));
      CommitKeeps(s1, ds, PreparedJob(s.job, item, turn), PreparingPhase, ByTurn(turn), true);
      NoteKeeps(s1, ds, TurnEnded(turn));
    }
  }

  lemma ApprovalInvTurn(w: World, a: TurnAction)
    requires ApprovalInv(w)
    ensures ApprovalInv(NextTurn(w, a))
  {
    hide Holds;
    match a
    case PumpGo(turn, live, ok) => if w.s.heads > 0 { TakeKeeps(w.s, w.decisions, turn, live, ok); }
    case ReadJob(turn) => NoteKeeps(w.s, w.decisions, RecordRead(turn));
    case SetupFails(turn, loading, disconnect) =>
      NoteKeeps(w.s, w.decisions, SetupBroke(turn, loading, disconnect));
    case PromptReturns(turn, failed, disconnect, marker) =>
      NoteKeeps(w.s, w.decisions, PromptReturned(turn, failed, disconnect, marker));
    case MarkTurn(turn, ok) =>
      CommitKeeps(w.s, w.decisions, w.s.job.(activeTurnID := turn), SentPhase, ByTurn(turn), true);
    case CallPrompt(turn) => NoteKeeps(w.s, w.decisions, PromptCalled(turn));
    case FinishTurn(turn, cancelledRequest, ok, ok2) =>
      if turn in w.turns && w.turns[turn].stage.Ending? {
        NoteKeeps(w.s, w.decisions, TurnEnded(turn));
        var s1 := Note(w.s, TurnEnded(turn)).(rt := w.s.rt.(busy := false, ctxDone := false, turnID := 0));
        FinishKeeps(s1, w.decisions, w.turns[turn].item, turn, w.turns[turn].stage.finish, cancelledRequest, ok, ok2);
      }
    case _ =>
  }

  lemma FollowupKeeps(s: Shared, ds: map<nat, Decided>, planning: bool, live: bool, id: Id, ok: bool)
    requires Holds(s.log, s.job, ds)
    ensures var r := Followup(s, id, planning, live, ok); Holds(r.log, r.job, ds)
  {
    hide Holds;
    var q := Item(0, FollowupItem, true, planning, 0, id);
    var j := s.job.(requestID := id, pause := NoPause, resultTurnID := 0, state := JobState.Executing);
    var k := if planning then j.(state := JobState.Planning, approval := j.approval.(approved := false, content := ""))
      else j;
    EnqueueKeeps(s, ds, q, None, 0, ByFollowup(planning, live), ok);
    EnqueueKeeps(s, ds, q, Some(k), 0, ByFollowup(planning, live), ok);
  }

  lemma ContinueKeeps(s: Shared, ds: map<nat, Decided>, planning: bool, live: bool, rows: seq<(Id, bool)>, id: Id,
    ok: bool)
    requires Holds(s.log, s.job, ds)
    ensures var r := Continue(s, planning, live, rows, id, ok); Holds(r.log, r.job, ds)
  {
    hide Holds;
    var q := Item(0, ContinueItem, true, planning, 0, s.job.requestID);
    var j := s.job.(state := JobState.Executing, pause := NoPause, approval := s.job.approval.(delivery := NoDelivery));
    var k := if planning then j.(state := JobState.Planning, approval := j.approval.(approved := false)) else j;
    EnqueueKeeps(s, ds, q, None, id, ByContinue(planning, live), ok);
    EnqueueKeeps(s, ds, q, Some(k), id, ByContinue(planning, live), ok);
    EnqueueAllKeeps(Enqueue(s, q, Some(k), id, ByContinue(planning, live), ok), ds, rows);
  }

  lemma CancelKeeps(s: Shared, ds: map<nat, Decided>, expected: Id, generation: nat, failed: bool, ok: bool)
    requires Holds(s.log, s.job, ds)
    ensures var r := CancelStart(s, expected, ok); Holds(r.log, r.job, ds)
    ensures var r := CancelFinish(s, generation, failed, ok); Holds(r.log, r.job, ds)
  {
    hide Holds;
    NoteKeeps(s, ds, Bumped(CancelledTurn));
    var s1 := Note(s, Bumped(CancelledTurn));
    CommitKeeps(s1, ds, s.job.(state := JobState.NeedsInput, pause := CancelDelivery, activeTurnID := s1.rt.turnID),
      NoPhase, ByCaller, ok);
    CommitKeeps(s, ds, s.job.(pause := if failed then CancelUnknown else NoPause, activeTurnID := s.rt.turnID), NoPhase,
      ByOutcome(failed), ok);
  }

  /** A decision on a ready plan is the first for its approval. */
  lemma SubmitKeeps(w: World, key: nat, d: Decision, pending: Option<PlanRequest>)
    requires ApprovalInv(w) && key !in w.decisions && Decidable(w.s, d, pending)
    ensures ApprovalInv(NextControl(w, Decide(key, d, pending, true)))
  {
    hide ResolvedOnceAfterMark, SettledStaysSettled;
    SeenFirst(w.s.log, d.approvalID);
    var j := SubmittedJob(w.s.job, d.decide).(activeTurnID := w.s.rt.turnID);
    CommitKeeps(w.s, w.decisions, j, NoPhase, ByDecision(d), true);
    var s' := PlanSubmit(w.s, d, pending, true);
    assert s'.log == Then(w.s.log, Committed(s'.job, ByDecision(d)));
  }

  lemma ResolveKeeps(w: World, key: nat, failed: bool)
    requires ApprovalInv(w) && key in w.decisions && !w.decisions[key].resolved
    ensures ApprovalInv(NextControl(w, Resolve(key, failed)))
  {
    var e := Resolved(w.decisions[key].approvalID, w.decisions[key].decide, failed);
    assert Note(w.s, e).log == Then(w.s.log, e);
  }

  lemma PlanFinishKeeps(s: Shared, ds: map<nat, Decided>, approvalID: Id, decide: Protocol.Decide, failed: bool,
    ok: bool)
    requires Holds(s.log, s.job, ds)
    ensures var r := PlanFinish(s, approvalID, decide, failed, ok); Holds(r.log, r.job, ds)
  {
    hide Holds;
    var stillOpen := failed && s.job.approval.id == approvalID && s.job.approval.delivery == Submitted;
    var j := s.job.(state := JobState.NeedsInput, pause := ApprovalUnknown,
                    approval := s.job.approval.(delivery := Unknown, approved := false), activeTurnID := s.rt.turnID);
    CommitKeeps(s, ds, j, NoPhase, ByUndelivered, ok);
    var s1 := if stillOpen then Commit(s, j, NoPhase, ByUndelivered, ok) else s;
    NoteKeeps(s1, ds, Bumped(PlanCancelled));
    NoteKeeps(Note(s1, Bumped(PlanCancelled)), ds, Removed(Numbers(s.rt.queue)));
  }

  /** A new approval has a new id, so nothing was ever submitted for it. */
  lemma ApprovalKeeps(s: Shared, ds: map<nat, Decided>, p: PlanRequest, content: string, ok: bool)
    requires Holds(s.log, s.job, ds) && !ApprovalSeen(s.log, p.id)
    ensures var r := OnApproval(s, p, content, ok); Holds(r.log, r.job, ds)
  {
    SeenFirst(s.log, p.id);
    if ApprovalValid(s, p) {
      var j := s.job.(state := JobState.PlanReady, activeTurnID := s.rt.turnID,
                      pause := if content == "" then PlanContentMissing else ApprovalPause,
                      approval := Protocol.Approval(p.id, p.connectionID, p.supportsNotes, Pending, false,
                                                    s.job.approval.planVersion + 1, p.turnID, content));
      CommitKeeps(s, ds, j, NoPhase, ByApproval, ok);
    }
  }

  lemma EndKeeps(h: History, job: Job, ds: map<nat, Decided>, key: nat)
    requires Holds(h, job, ds)
    ensures Holds(h, job, ds - {key})
  {
  }

  lemma ApprovalInvControl(w: World, a: ControlAction)
    requires ApprovalInv(w)
    ensures ApprovalInv(NextControl(w, a))
  {
    hide Holds;
    match a
    case DoFollowup(requestID, planning, live, ok) => FollowupKeeps(w.s, w.decisions, planning, live, requestID, ok);
    case DoContinue(planning, live, rows, newID, ok) =>
      ContinueKeeps(w.s, w.decisions, planning, live, rows, newID, ok);
    case DoCancelRequest(requestID, turnID, persisted, updated) =>
      NoteKeeps(w.s, w.decisions, Removed(Numbers(Only(w.s.rt.queue, requestID))));
    case BeginCancel(expected, ok) => CancelKeeps(w.s, w.decisions, expected, 0, false, ok);
    case EndCancel(generation, failed, ok) => CancelKeeps(w.s, w.decisions, 0, generation, failed, ok);
    case Decide(key, d, pending, ok) =>
      if key !in w.decisions && Decidable(w.s, d, pending) && ok { SubmitKeeps(w, key, d, pending); }
    case Resolve(key, failed) => if key in w.decisions && !w.decisions[key].resolved { ResolveKeeps(w, key, failed); }
    case EndDecide(key, ok) =>
      if key in w.decisions {
        PlanFinishKeeps(w.s, w.decisions, w.decisions[key].approvalID, w.decisions[key].decide, w.decisions[key].failed,
          ok);
        var r := PlanFinish(w.s, w.decisions[key].approvalID, w.decisions[key].decide, w.decisions[key].failed, ok);
        EndKeeps(r.log, r.job, w.decisions, key);
      }
    case Approval(p, content, ok) =>
      if !ApprovalSeen(w.s.log, p.id) { ApprovalKeeps(w.s, w.decisions, p, content, ok); }
    case LoseConnection(ok) => DisconnectKeeps(w.s, w.decisions, ByCaller, ok);
  }

  lemma StartedKeeps(s: Shared, ds: map<nat, Decided>, copy: Job, gen: nat, sessionID: Id, planning: bool, ok: bool,
    ok2: bool)
    requires Holds(s.log, s.job, ds) && Plain(copy)
    ensures var r := StartFinish(s, copy, gen, sessionID, planning, ok, ok2); Holds(r.log, r.job, ds)
  {
    hide Holds;
    CommitKeeps(s, ds, s.job.(sessionID := sessionID, activeTurnID := s.rt.turnID), NoPhase, BySession, ok);
    CommitKeeps(s, ds, FailedJob(copy).(activeTurnID := s.rt.turnID), NoPhase, ByDispatchCopy, ok);
    var j := copy.(sessionID := sessionID, state := if planning then JobState.Planning else JobState.Executing,
                   view := copy.view.(desired := Headless));
    CommitKeeps(s, ds, j.(activeTurnID := s.rt.turnID), NoPhase, ByDispatchCopy, true);
    EnqueueKeeps(Save(s, j, ByDispatchCopy, true), ds, Item(0, PlanItem, false, planning, 0, copy.requestID), None, 0,
      ByCaller, ok2);
  }

  lemma RestartKeeps(s: Shared, ds: map<nat, Decided>, ok: bool)
    requires Holds(s.log, s.job, ds)
    ensures Holds(Restart(s, ok).log, Restart(s, ok).job, map[])
  {
    NoteKeeps(s, map[], Removed(Numbers(s.rt.queue)));
    var s0 := Note(s, Removed(Numbers(s.rt.queue)));
    NoteKeeps(s0, map[], Crashed);
    CommitKeeps(Note(s0, Crashed), map[], AwaitingResume(s.job), NoPhase, ByCaller, ok);
  }

  lemma ApprovalInvLife(w: World, a: LifeAction)
    requires ApprovalInv(w)
    ensures ApprovalInv(NextLife(w, a))
  {
    hide Holds;
    match a
    case BeginStart(ok) =>
      if w.dispatch.NotBegun? {
        CommitKeeps(w.s, w.decisions, w.dispatch.copy.(state := JobState.Starting, activeTurnID := w.s.rt.turnID),
          NoPhase, ByDispatchCopy, ok);
      }
    case EndStart(sessionID, planning, ok, ok2) =>
      if w.dispatch.Waiting? {
        StartedKeeps(w.s, w.decisions, w.dispatch.copy, w.dispatch.gen, sessionID, planning, ok, ok2);
      }
    case CloseService =>
    case RestartService(ok) => RestartKeeps(w.s, w.decisions, ok);
  }

  lemma EffectKeeps(s: Shared, s': Shared, ds: map<nat, Decided>, e: Option<Event>, saved: bool)
    requires Holds(s.log, s.job, ds) && ViewEffect(s, s', e, saved)
    ensures Holds(s'.log, s'.job, ds)
  {
    hide Holds;
    var s1 := if e.Some? then Note(s, e.value) else s;
    if e.Some? { NoteKeeps(s, ds, e.value); }
    CommitKeeps(s1, ds, s'.job, NoPhase, ByCaller, saved);
  }

  lemma YieldKeeps(s: Shared, ds: map<nat, Decided>, ok: bool)
    requires Holds(s.log, s.job, ds)
    ensures Holds(YieldBump(s).log, YieldBump(s).job, ds)
    ensures Holds(YieldMark(s, ok).log, YieldMark(s, ok).job, ds)
  {
    hide Holds;
    NoteKeeps(s, ds, Bumped(Yielded));
    CommitKeeps(s, ds, YieldedJob(s.job), UnknownPhase, ByYield, ok);
  }

  lemma ApprovalInvView(w: World, a: LaunchAction, d: DetachAction)
    requires ApprovalInv(w)
    ensures ApprovalInv(NextLaunch(w, a)) && ApprovalInv(NextDetach(w, d))
  {
    hide Holds;
    LaunchThreads(w, a);
    DetachThreads(w, d);
    var e, saved := DetachEffect(w, d);
    EffectKeeps(w.s, NextDetach(w, d).s, w.decisions, e, saved);
    if ViewOnly(a) {
      var e', saved' := LaunchEffect(w, a);
      EffectKeeps(w.s, NextLaunch(w, a).s, w.decisions, e', saved');
    } else {
      YieldKeeps(w.s, w.decisions, if a.MarkYielded? then a.ok else false);
    }
  }

  lemma {:induction false} ApprovalInvRun(job: Job, actions: seq<Action>)
    requires Dispatched(job)
    ensures ApprovalInv(Run(job, actions))
  {
    if actions == [] {
      assert Init(job).s.log == Then(Start, Committed(job, ByCaller));
    } else {
      var w := Run(job, actions[..|actions| - 1]);
      ApprovalInvRun(job, actions[..|actions| - 1]);
      match actions[|actions| - 1]
      case OnTurn(t) => ApprovalInvTurn(w, t);
      case OnControl(c) => ApprovalInvControl(w, c);
      case OnLife(l) => ApprovalInvLife(w, l);
      case OnLaunch(v) => ApprovalInvView(w, v, EndDetach(0, false));
      case OnDetach(d) => ApprovalInvView(w, GiveUp(0), d);
    }
  }

  /** In every run an approval is resolved at most once, after its durable mark; what settled stays settled. */
  lemma RunsDeliverOnce(job: Job, actions: seq<Action>)
    requires Dispatched(job)
    ensures ResolvedOnceAfterMark(Run(job, actions).s.log) && SettledStaysSettled(Run(job, actions).s.log)
  {
    ApprovalInvRun(job, actions);
  }
}
