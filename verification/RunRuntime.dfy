/**
 What the runtime of a job holds, told from the history, in every run; and from that exactly when the sections of the
 job machine go ahead, in terms of the history and of the record, not of the runtime's own flags.
 */
module RunRuntime {
  import opened Protocol
  import opened Supervisor
  import opened Runs
  import opened ViewSteps
  import opened RecordWrites
  import RunTurns
  import RunGates
  import RunRecords
  import RunViews

  // ---------------------------------------------------------------- what a history says

  /** How often a terminal was installed or dropped, or the connection was lost, since the process started. */
  function Attachments(h: History): nat {
    match h
    case Start => 0
    case Then(p, e) =>
      if e.Crashed? then 0
      else if e.ViewReset? || (e.Installed? && e.handle.Some?) || (e.HeadlessRequested? && e.closing && !e.fromClose)
      then Attachments(p) + 1
      else Attachments(p)
  }

  /** The terminal that was installed last, unless it was dropped since. */
  function TerminalOf(h: History): Option<Id> {
    match h
    case Start => None
    case Then(p, e) =>
      if e.Installed? && e.handle.Some? then e.handle
      else if e.Crashed? || e.ViewReset? || (e.HeadlessRequested? && e.closing && !e.fromClose) then None
      else TerminalOf(p)
  }

  /** The turn's item carries an old stamp: it was taken so, or the fence has moved since. */
  predicate OutsideFence(h: History, turn: Id) {
    RunTurns.BumpedSince(h, turn) || RunTurns.TakenOutside(h, turn)
  }

  // ---------------------------------------------------------------- the invariant

  predicate TurnTold(s: Shared) {
    var h, turn := s.log, s.rt.turnID;
    && ItemOf(h, turn).Some? && s.rt.requestID == ItemOf(h, turn).value.requestID
    && ItemOf(h, turn).value.gen <= s.rt.gen
    && (ItemOf(h, turn).value.gen != s.rt.gen <==> OutsideFence(h, turn))
    && (s.rt.cancelledTurn <==> RunTurns.BumpedSince(h, turn))
    && (s.rt.ctxDone <==> s.closed || RunTurns.BumpedSince(h, turn))
  }

  predicate Told(s: Shared) {
    && (s.rt.busy ==> TurnTold(s))
    && s.rt.attachGen == Attachments(s.log)
    && (s.rt.term != 0 ==> TerminalOf(s.log) == Some(s.rt.term))
  }

  /** Events that these facts do not look at. */
  predicate Neutral(e: Event) {
    !e.Dequeued? && !e.Bumped? && !e.Crashed? && !e.ViewReset? && !e.Installed? && !e.HeadlessRequested?
  }

  /** Two states that differ in nothing that these facts look at. */
  predicate SameRuntime(s: Shared, s': Shared) {
    && s'.log == s.log && s'.closed == s.closed && s'.rt.busy == s.rt.busy && s'.rt.turnID == s.rt.turnID
    && s'.rt.requestID == s.rt.requestID && s'.rt.gen == s.rt.gen && s'.rt.cancelledTurn == s.rt.cancelledTurn
    && s'.rt.ctxDone == s.rt.ctxDone && s'.rt.attachGen == s.rt.attachGen && s'.rt.term == s.rt.term
  }

  lemma NoteTold(s: Shared, e: Event)
    requires Told(s) && Neutral(e)
    ensures Told(Note(s, e))
  {
  }

  lemma SameTold(s: Shared, s': Shared)
    requires Told(s) && SameRuntime(s, s')
    ensures Told(s')
  {
  }

  lemma CommitTold(s: Shared, job: Job, phase: Phase, w: Writer, ok: bool)
    requires Told(s)
    ensures Told(Commit(s, job, phase, w, ok))
  {
    hide Told;
    if ok {
      var a := Stamped(s.job, job, phase);
      NoteTold(s, Committed(a, w));
      SameTold(Note(s, Committed(a, w)), Commit(s, job, phase, w, true));
    }
  }

  lemma SaveTold(s: Shared, job: Job, w: Writer, ok: bool)
    requires Told(s)
    ensures Told(Save(s, job, w, ok))
  {
    CommitTold(s, job.(activeTurnID := s.rt.turnID), NoPhase, w, ok);
  }

  lemma EnqueueTold(s: Shared, q: Item, acceptedJob: Option<Job>, newID: Id, w: Writer, ok: bool)
    requires Told(s)
    ensures Told(Enqueue(s, q, acceptedJob, newID, w, ok))
  {
    hide Told;
    if !s.closed && ok {
      var j := if acceptedJob.Some? then acceptedJob.value else s.job;
      var item := q.(number := s.accepted, gen := s.rt.gen, requestID := RequestOr(s, q.requestID, newID));
      var s1 := Commit(s, j, NoPhase, w, true);
      CommitTold(s, j, NoPhase, w, true);
      NoteTold(s1, Accepted(item));
      SameTold(Note(s1, Accepted(item)), Enqueue(s, q, acceptedJob, newID, w, ok));
    }
  }

  lemma {:induction false} EnqueueAllTold(s: Shared, rows: seq<(Id, bool)>)
    requires Told(s)
    ensures Told(EnqueueAll(s, rows))
    decreases |rows|
  {
    hide Told, Enqueue;
    if rows != [] {
      var q := Item(0, FollowupItem, true, rows[0].1, 0, rows[0].0);
      EnqueueTold(s, q, None, 0, ByCaller, true);
      EnqueueAllTold(if rows[0].0 == s.job.requestID then s else Enqueue(s, q, None, 0, ByCaller, true), rows[1..]);
    }
  }

  /** The fence moves; a turn in flight is cancelled. */
  lemma BumpTold(s: Shared, s': Shared, cause: Cause)
    requires Told(s) && s'.log == Then(s.log, Bumped(cause)) && s'.closed == s.closed
    requires s'.rt.busy == s.rt.busy && s'.rt.turnID == s.rt.turnID && s'.rt.requestID == s.rt.requestID
      && s'.rt.gen == s.rt.gen + 1 && s'.rt.attachGen == s.rt.attachGen && s'.rt.term == s.rt.term
    requires s.rt.busy ==> s'.rt.cancelledTurn && s'.rt.ctxDone
    ensures Told(s')
  {
  }

  lemma ResetTold(s: Shared)
    requires Told(s)
    ensures Told(Note(s, ViewReset).(rt := s.rt.(term := 0, attachGen := s.rt.attachGen + 1)))
  {
  }

  lemma DisconnectTold(s: Shared, w: Writer, ok: bool)
    requires Told(s)
    ensures Told(DisconnectLocked(s, w, ok))
  {
    if !s.job.userCancelled {
      var s0 := Note(s, ViewReset).(rt := s.rt.(term := 0, attachGen := s.rt.attachGen + 1));
      ResetTold(s);
      hide Told, DisconnectedJob;
      var s' := DisconnectLocked(s, w, ok);
      var s1 := Save(s0, DisconnectedJob(s.job), w, ok);
      SaveTold(s0, DisconnectedJob(s.job), w, ok);
      var s2 := Note(s1, Bumped(Disconnect)).(rt := s'.rt);
      BumpTold(s1, s2, Disconnect);
      NoteTold(s2, Removed(Numbers(s.rt.queue)));
      SameTold(Note(s2, Removed(Numbers(s.rt.queue))), s');
    }
  }

  // ---------------------------------------------------------------- turns

  lemma TakeTold(s: Shared, turn: Id, ok: bool)
    requires Told(s) && !s.rt.busy && !s.closed && s.heads > 0 && s.rt.queue != [] && s.rt.gen == RunTurns.Bumps(s.log)
    requires s.rt.queue[0].gen <= s.rt.gen && turn != 0
    ensures Told(Take(s, turn, ok))
  {
    var item := s.rt.queue[0];
    var s1 := Note(s, Dequeued(turn, item)).(rt := Take(s, turn, true).rt, heads := s.heads - 1);
    assert Told(s1);
    hide Told;
    if ok {
      CommitTold(s1, PreparedJob(s.job, item, turn), PreparingPhase, ByTurn(turn), true);
    } else {
      EndTold(s1, Take(s, turn, false), turn);
    }
  }

  lemma EndTold(s: Shared, s': Shared, turn: Id)
    requires Told(s) && s'.log == Then(s.log, TurnEnded(turn)) && !s'.rt.busy
      && s'.rt.attachGen == s.rt.attachGen && s'.rt.term == s.rt.term
    ensures Told(s')
  {
  }

  lemma FinishTold(s: Shared, item: Item, turn: Id, f: Finish, cancelledRequest: bool, ok: bool, ok2: bool)
    requires Told(s)
    ensures Told(RunFinish(s, item, turn, f, cancelledRequest, ok, ok2))
  {
    hide Told, DisconnectLocked, Save, Enqueue, FailedJob;
    DisconnectTold(s, ByTurn(turn), ok);
    match f
    case Nothing =>
    case Reenqueue => EnqueueTold(s, item, None, 0, ByRequeue(turn), ok);
    case LoadFailed =>
    case SetupFailed(disconnect, copy) => SaveTold(s, FailedJob(copy), ByTurnCopy(turn), ok);
    case PromptFailed(disconnect) => SaveTold(s, FailedJob(s.job), ByTurn(turn), ok);
    case Answer(marker) =>
      CommitTold(s, AnsweredJob(s, turn, marker), ReturnedPhase, ByTurn(turn), true);
      var s1 := Commit(s, AnsweredJob(s, turn, marker), ReturnedPhase, ByTurn(turn), true);
      EnqueueTold(s1, Item(0, ContinueItem, false, false, 0, item.requestID), None, 0, ByTurn(turn), ok2);
  }

  lemma EndTurnTold(s: Shared, item: Item, turn: Id, f: Finish, cancelledRequest: bool, ok: bool, ok2: bool)
    requires Told(s)
    ensures Told(EndTurn(s, item, turn, f, cancelledRequest, ok, ok2))
  {
    hide Told, RunFinish;
    var s1 := Note(s, TurnEnded(turn)).(rt := s.rt.(busy := false, ctxDone := false, turnID := 0));
    EndTold(s, s1, turn);
    FinishTold(s1, item, turn, f, cancelledRequest, ok, ok2);
    SameTold(RunFinish(s1, item, turn, f, cancelledRequest, ok, ok2),
      EndTurn(s, item, turn, f, cancelledRequest, ok, ok2));
  }

  lemma PumpTold(w: World, turn: Id, live: bool, ok: bool)
    requires Told(w.s) && RunTurns.TurnInv(w)
    ensures Told(NextTurn(w, PumpGo(turn, live, ok)).s)
  {
    if w.s.heads > 0 && turn != 0 && !TurnSeen(w.s.log, turn) {
      assert GateOf(w.s, live).NotYet? ==>
        !w.s.closed && !w.s.rt.busy && w.s.rt.queue != [] && w.s.rt.gen == RunTurns.Bumps(w.s.log)
          && w.s.rt.queue[0].gen <= w.s.rt.gen;
      hide RunTurns.TurnInv, Told, Take;
      if GateOf(w.s, live).NotYet? {
        TakeTold(w.s, turn, ok);
      } else {
        hide GateOf;
        SameTold(w.s, PumpTop(w.s, turn, live, ok));
      }
    }
  }

  lemma TurnActionTold(w: World, a: TurnAction)
    requires Told(w.s) && RunTurns.TurnInv(w)
    ensures Told(NextTurn(w, a).s)
  {
    hide Told;
    if a.PumpGo? {
      PumpTold(w, a.turn, a.live, a.ok);
    } else {
      hide RunTurns.TurnInv, EndTurn, Returned, Fenced;
      match a
      case KickPump => SameTold(w.s, Kick(w.s));
      case ReadJob(turn) => NoteTold(w.s, RecordRead(turn));
      case SetupFails(turn, loading, disconnect) => NoteTold(w.s, SetupBroke(turn, loading, disconnect));
      case MarkTurn(turn, ok) => CommitTold(w.s, w.s.job.(activeTurnID := turn), SentPhase, ByTurn(turn), true);
      case CallPrompt(turn) => NoteTold(w.s, PromptCalled(turn));
      case PromptReturns(turn, failed, disconnect, marker) =>
        NoteTold(w.s, PromptReturned(turn, failed, disconnect, marker));
      case FinishTurn(turn, cancelledRequest, ok, ok2) =>
        if turn in w.turns && w.turns[turn].stage.Ending? {
          EndTurnTold(w.s, w.turns[turn].item, turn, w.turns[turn].stage.finish, cancelledRequest, ok, ok2);
        }
    }
  }

  // ---------------------------------------------------------------- callers

  lemma FollowupTold(s: Shared, requestID: Id, planning: bool, live: bool, ok: bool)
    requires Told(s)
    ensures Told(Followup(s, requestID, planning, live, ok))
  {
    hide Told, Enqueue;
    var q := Item(0, FollowupItem, true, planning, 0, requestID);
    var j := s.job.(requestID := requestID, pause := NoPause, resultTurnID := 0, state := JobState.Executing);
    var k := if planning then j.(state := JobState.Planning, approval := j.approval.(approved := false, content := ""))
      else j;
    EnqueueTold(s, q, None, 0, ByFollowup(planning, live), ok);
    EnqueueTold(s, q, Some(k), 0, ByFollowup(planning, live), ok);
  }

  lemma ContinueTold(s: Shared, planning: bool, live: bool, rows: seq<(Id, bool)>, newID: Id, ok: bool)
    requires Told(s)
    ensures Told(Continue(s, planning, live, rows, newID, ok))
  {
    hide Told, Enqueue, EnqueueAll;
    var q := Item(0, ContinueItem, true, planning, 0, s.job.requestID);
    var j := s.job.(state := JobState.Executing, pause := NoPause, approval := s.job.approval.(delivery := NoDelivery));
    var k := if planning then j.(state := JobState.Planning, approval := j.approval.(approved := false)) else j;
    EnqueueTold(s, q, None, newID, ByContinue(planning, live), ok);
    EnqueueTold(s, q, Some(k), newID, ByContinue(planning, live), ok);
    EnqueueAllTold(Enqueue(s, q, Some(k), newID, ByContinue(planning, live), ok), rows);
  }

  lemma CancelRequestTold(s: Shared, requestID: Id, turnID: Id, persisted: bool, updated: bool)
    requires Told(s)
    ensures Told(CancelRequest(s, requestID, turnID, persisted, updated))
  {
    hide Told, CancelTarget;
    var s1 := Note(s, Removed(Numbers(Only(s.rt.queue, requestID))));
    NoteTold(s, Removed(Numbers(Only(s.rt.queue, requestID))));
    SameTold(s1, s1.(rt := s.rt.(queue := Without(s.rt.queue, requestID))));
  }

  lemma CancelTold(s: Shared, expected: Id, generation: nat, failed: bool, ok: bool)
    requires Told(s)
    ensures Told(CancelStart(s, expected, ok)) && Told(CancelFinish(s, generation, failed, ok))
  {
    if CancelStarts(s, expected) {
      var s1 := Note(s, Bumped(CancelledTurn)).(rt := CancelStart(s, expected, ok).rt);
      BumpTold(s, s1, CancelledTurn);
      SaveTold(s1, s.job.(state := JobState.NeedsInput, pause := CancelDelivery), ByCaller, ok);
    }
    hide Told;
    var s2 := s.(rt := s.rt.(controlPending := false));
    SameTold(s, s2);
    var j := s.job.(pause := if failed then CancelUnknown else NoPause);
    SaveTold(s2, j, ByOutcome(failed), ok);
    var s3 := if s.rt.gen == generation then Save(s2, j, ByOutcome(failed), ok) else s2;
    SameTold(s3, Kick(s3));
  }

  lemma PlanFinishTold(s: Shared, approvalID: Id, decide: Protocol.Decide, failed: bool, ok: bool)
    requires Told(s)
    ensures Told(PlanFinish(s, approvalID, decide, failed, ok))
  {
    var stillOpen := failed && s.job.approval.id == approvalID && s.job.approval.delivery == Submitted;
    var j := s.job.(state := JobState.NeedsInput, pause := ApprovalUnknown,
                    approval := s.job.approval.(delivery := Unknown, approved := false));
    SaveTold(s, j, ByUndelivered, ok);
    var s1 := if stillOpen then Save(s, j, ByUndelivered, ok) else s;
    if decide.CancelPlan? && !(stillOpen && !ok) {
      var s' := PlanFinish(s, approvalID, decide, failed, ok);
      var s2 := Note(s1, Bumped(PlanCancelled)).(rt := s'.rt);
      hide Save;
      BumpTold(s1, s2, PlanCancelled);
      hide Told;
      NoteTold(s2, Removed(Numbers(s.rt.queue)));
      SameTold(Note(s2, Removed(Numbers(s.rt.queue))), s');
    }
  }

  lemma ControlTold(w: World, a: ControlAction)
    requires Told(w.s)
    ensures Told(NextControl(w, a).s)
  {
    hide Told, Followup, Continue, CancelRequest, CancelStarts, CancelStart, CancelFinish, PlanFinish, DisconnectLocked,
      Save, Decidable, ApprovalValid, ApprovalSeen, Prompted, SubmittedJob;
    match a
    case DoFollowup(requestID, planning, live, ok) => FollowupTold(w.s, requestID, planning, live, ok);
    case DoContinue(planning, live, rows, newID, ok) => ContinueTold(w.s, planning, live, rows, newID, ok);
    case DoCancelRequest(requestID, turnID, persisted, updated) =>
      CancelRequestTold(w.s, requestID, turnID, persisted, updated);
    case BeginCancel(expected, ok) => CancelTold(w.s, expected, 0, false, ok);
    case EndCancel(generation, failed, ok) => CancelTold(w.s, 0, generation, failed, ok);
    case Decide(key, d, pending, ok) => SaveTold(w.s, SubmittedJob(w.s.job, d.decide), ByDecision(d), true);
    case Resolve(key, failed) =>
      if key in w.decisions { NoteTold(w.s, Resolved(w.decisions[key].approvalID, w.decisions[key].decide, failed)); }
    case EndDecide(key, ok) =>
      if key in w.decisions {
        PlanFinishTold(w.s, w.decisions[key].approvalID, w.decisions[key].decide, w.decisions[key].failed, ok);
      }
    case Approval(p, content, ok) => ApprovalTold(w.s, p, content, ok);
    case LoseConnection(ok) => DisconnectTold(w.s, ByCaller, ok);
  }

  lemma ApprovalTold(s: Shared, p: PlanRequest, content: string, ok: bool)
    requires Told(s)
    ensures Told(OnApproval(s, p, content, ok))
  {
    hide Told;
    if ApprovalValid(s, p) && p.id != s.job.approval.id {
      CommitTold(s, OnApproval(s, p, content, true).job, NoPhase, ByApproval, ok);
    }
  }

  // ---------------------------------------------------------------- start, close, restart and views

  lemma StartTold(s: Shared, copy: Job, gen: nat, sessionID: Id, planning: bool, ok: bool, ok2: bool)
    requires Told(s)
    ensures Told(StartFinish(s, copy, gen, sessionID, planning, ok, ok2)) && Told(StartBegin(s, copy, ok))
  {
    hide Told, Save, Enqueue, FailedJob;
    SaveTold(s, copy.(state := JobState.Starting), ByDispatchCopy, ok);
    SaveTold(s, s.job.(sessionID := sessionID), BySession, ok);
    SaveTold(s, FailedJob(copy), ByDispatchCopy, ok);
    var j := copy.(sessionID := sessionID, state := if planning then JobState.Planning else JobState.Executing,
                   view := copy.view.(desired := Headless));
    SaveTold(s, j, ByDispatchCopy, true);
    EnqueueTold(Save(s, j, ByDispatchCopy, true), Item(0, PlanItem, false, planning, 0, copy.requestID), None, 0,
      ByCaller, ok2);
  }

  lemma LifeTold(w: World, a: LifeAction)
    requires Told(w.s)
    ensures Told(NextLife(w, a).s)
  {
    if a.RestartService? { RestartTold(w.s, a.ok); }
    if a.CloseService? { assert Told(CloseAll(w.s)); }
    hide Told, StartBegin, StartFinish, Restart, CloseAll;
    match a
    case BeginStart(ok) => if w.dispatch.NotBegun? { StartTold(w.s, w.dispatch.copy, 0, 0, false, ok, false); }
    case EndStart(sessionID, planning, ok, ok2) =>
      if w.dispatch.Waiting? { StartTold(w.s, w.dispatch.copy, w.dispatch.gen, sessionID, planning, ok, ok2); }
    case _ =>
  }

  lemma RestartTold(s: Shared, ok: bool)
    ensures Told(Restart(s, ok))
  {
    var s1 := Note(Note(s, Removed(Numbers(s.rt.queue))), Crashed).(
      rt := FreshRuntime, closed := false, heads := 0, lastExit := NotYet);
    assert Told(s1);
    hide Told, AwaitingResume;
    CommitTold(s1, AwaitingResume(s.job), NoPhase, ByCaller, ok);
  }

  lemma EffectTold(s: Shared, s': Shared, e: Option<Event>, saved: bool)
    requires Told(s) && ViewEffect(s, s', e, saved)
    ensures Told(s')
  {
    var s1 := (if e.Some? then Note(s, e.value) else s).(rt := s'.rt);
    assert Told(s1);
    hide Told, RuntimeAfter, ViewAfter;
    if saved { NoteTold(s1, Committed(s'.job, ByCaller)); }
    SameTold(if saved then Note(s1, Committed(s'.job, ByCaller)) else s1, s');
  }

  lemma YieldTold(s: Shared, ok: bool)
    requires Told(s)
    ensures Told(YieldBump(s)) && Told(YieldMark(s, ok))
  {
    if s.rt.busy { BumpTold(s, YieldBump(s), Yielded); }
    hide Told;
    CommitTold(s, YieldedJob(s.job), UnknownPhase, ByYield, ok);
  }

  lemma NextTold(w: World, a: Action)
    requires Told(w.s) && RunTurns.TurnInv(w)
    ensures Told(Next(w, a).s)
  {
    hide Told, RunTurns.TurnInv, NextTurn, NextControl, NextLife, ViewEffect;
    match a
    case OnTurn(t) => TurnActionTold(w, t);
    case OnControl(c) => ControlTold(w, c);
    case OnLife(l) => LifeTold(w, l);
    case OnLaunch(v) =>
      if ViewOnly(v) {
        var e, saved := LaunchEffect(w, v);
        hide NextLaunch;
        EffectTold(w.s, NextLaunch(w, v).s, e, saved);
      } else {
        YieldTold(w.s, v.MarkYielded? && v.ok);
      }
    case OnDetach(d) =>
      var e, saved := DetachEffect(w, d);
      hide NextDetach;
      EffectTold(w.s, NextDetach(w, d).s, e, saved);
  }

  lemma {:induction false} ToldRun(job: Job, actions: seq<Action>)
    requires Dispatched(job)
    ensures Told(Run(job, actions).s)
  {
    if actions == [] {
      var h := Init(job).s.log;
      assert h == Then(Start, Committed(job, ByCaller)) && Attachments(h) == Attachments(Start);
    } else {
      var before := actions[..|actions| - 1];
      ToldRun(job, before);
      RunTurns.TurnInvRun(job, before);
      hide Told, RunTurns.TurnInv, Next;
      NextTold(Run(job, before), actions[|actions| - 1]);
    }
  }

  /**
   In every run the runtime holds what the history says: the current request and the cancellation of the turn in
   flight, whether its context has ended, and the terminal that was installed last, or none.
   */
  lemma RuntimeFollows(job: Job, actions: seq<Action>)
    requires Dispatched(job)
    ensures var s := Run(job, actions).s; var turn := s.rt.turnID;
      && (s.rt.busy ==>
            && TurnOf(s.log) == Some(turn) && ItemOf(s.log, turn).Some?
            && s.rt.requestID == ItemOf(s.log, turn).value.requestID
            && (s.rt.cancelledTurn <==> RunTurns.BumpedSince(s.log, turn))
            && (s.rt.ctxDone <==> s.closed || RunTurns.BumpedSince(s.log, turn)))
      && s.rt.attachGen == Attachments(s.log) && (s.rt.term != 0 ==> TerminalOf(s.log) == Some(s.rt.term))
  {
    ToldRun(job, actions);
    RunRecords.RecordsRun(job, actions);
    hide RunRecords.Told, Run;
  }

  // ---------------------------------------------------------------- when turns go ahead

  /** What the pump needs to take the first item, told from the history and the record. */
  predicate FreeToTake(w: World, live: bool) {
    && !w.s.closed && w.cancels == {} && RunGates.Open(w.s.job) && !live && TurnOf(w.s.log).None? && w.s.rt.queue != []
  }

  /** A pump takes the first item exactly if nothing stands in its way, and then prepares the turn, if it can write. */
  lemma PumpsTakeExactly(job: Job, actions: seq<Action>, turn: Id, live: bool, ok: bool)
    requires Dispatched(job)
    requires var s := Run(job, actions).s; s.heads > 0 && turn != 0 && !TurnSeen(s.log, turn)
    ensures var w := Run(job, actions); var w' := Next(w, OnTurn(PumpGo(turn, live, ok)));
      && w'.s.heads == w.s.heads - 1
      && if !FreeToTake(w, live) then w'.s.log == w.s.log && w'.s.rt == w.s.rt && w'.turns == w.turns else
         var taken := Then(w.s.log, Dequeued(turn, w.s.rt.queue[0]));
         && w'.s.rt.queue == w.s.rt.queue[1..]
         && (if ok then w'.s.log == Then(taken, Committed(w'.s.job, ByTurn(turn))) && turn in w'.turns
             else w'.s.log == Then(taken, TurnEnded(turn)) && w'.turns == w.turns)
  {
    RunGates.OneCancelRun(job, actions);
    RunRecords.RecordsRun(job, actions);
    var w := Run(job, actions);
    assert w.s.rt.busy <==> TurnOf(w.s.log).Some?;
    hide RunRecords.Records, Run, TurnSeen, PreparedJob, Stamped;
    assert GateOf(w.s, live).NotYet? <==> FreeToTake(w, live);
  }

  /** A turn that has got ready is marked exactly if its item is inside the fence, the service is open and can write. */
  lemma TurnsAreMarkedExactly(job: Job, actions: seq<Action>, turn: Id, ok: bool)
    requires Dispatched(job)
    requires var w := Run(job, actions); turn in w.turns && w.turns[turn].stage.Preparing?
    ensures var w := Run(job, actions); var w' := Next(w, OnTurn(MarkTurn(turn, ok)));
      if !OutsideFence(w.s.log, turn) && !w.s.closed && ok
      then w'.s.log == Then(w.s.log, Committed(w'.s.job, ByTurn(turn))) && w'.s.job.phase.SentPhase?
        && w'.turns[turn].stage.Marked?
      else w'.s == w.s && w'.turns[turn].stage == Ending(Nothing)
  {
    UnderwayTold(job, actions, turn);
    hide Run;
  }

  /** What is told of the turn under way. */
  lemma UnderwayTold(job: Job, actions: seq<Action>, turn: Id)
    requires Dispatched(job) && turn in Run(job, actions).turns
    ensures var w := Run(job, actions); var item := w.turns[turn].item;
      && w.s.rt.busy && w.s.rt.turnID == turn && TurnOf(w.s.log) == Some(turn) && ItemOf(w.s.log, turn) == Some(item)
      && (Fenced(w.s, item) <==> OutsideFence(w.s.log, turn))
      && (w.s.rt.ctxDone <==> w.s.closed || RunTurns.BumpedSince(w.s.log, turn))
  {
    ToldRun(job, actions);
    RunRecords.RecordsRun(job, actions);
    RunTurns.TurnInvRun(job, actions);
    var w := Run(job, actions);
    assert RunRecords.TurnFacts(w.s.log, turn, w.turns[turn]);
    hide Run;
  }

  lemma AppliedExactly(s: Shared, item: Item, turn: Id, marker: Option<TaskMarker>, cancelledRequest: bool, ok: bool,
    ok2: bool)
    ensures var s' := EndTurn(s, item, turn, Answer(marker), cancelledRequest, ok, ok2);
      var ended := Then(s.log, TurnEnded(turn));
      var goesOn := marker == Some(MarkerWorking) && s.job.view.owner.SupervisorOwner? && !s.closed && ok2;
      if Fenced(s, item) || cancelledRequest || s.job.userCancelled || !ok
      then s'.log == ended && s'.rt.queue == s.rt.queue && s'.job == s.job
      else
        var written := Then(ended, Committed(s'.job, ByTurn(turn)));
        && s'.job.phase.ReturnedPhase?
        && if !goesOn then s'.log == written && s'.rt.queue == s.rt.queue else
           && |s'.rt.queue| == |s.rt.queue| + 1 && s'.rt.queue[1..] == s.rt.queue && Automatic(s'.rt.queue[0])
           && s'.log == Then(Then(written, Committed(s'.job, ByTurn(turn))), Accepted(s'.rt.queue[0]))
  {
    hide RequestOr;
  }

  /**
   An answer is written down exactly if its turn is inside the fence, nobody cancelled its request or the job, and the
   write succeeds. The work goes on by itself, ahead of everything that waits, exactly if it is marked as working, the
   supervisor holds the job, the service is open and that write succeeds too.
   */
  lemma AnswersApplyExactly(job: Job, actions: seq<Action>, turn: Id, marker: Option<TaskMarker>,
    cancelledRequest: bool, ok: bool, ok2: bool)
    requires Dispatched(job)
    requires var w := Run(job, actions); turn in w.turns && w.turns[turn].stage == Ending(Answer(marker))
    ensures var w := Run(job, actions); var s' := Next(w, OnTurn(FinishTurn(turn, cancelledRequest, ok, ok2))).s;
      var ended := Then(w.s.log, TurnEnded(turn));
      var goesOn := marker == Some(MarkerWorking) && w.s.job.view.owner.SupervisorOwner? && !w.s.closed && ok2;
      if OutsideFence(w.s.log, turn) || cancelledRequest || PlanWasCancelled(w.s.log) || !ok
      then s'.log == ended && s'.rt.queue == w.s.rt.queue && s'.job == w.s.job
      else
        var written := Then(ended, Committed(s'.job, ByTurn(turn)));
        && s'.job.phase.ReturnedPhase?
        && if !goesOn then s'.log == written && s'.rt.queue == w.s.rt.queue else
           && |s'.rt.queue| == |w.s.rt.queue| + 1 && s'.rt.queue[1..] == w.s.rt.queue && Automatic(s'.rt.queue[0])
           && s'.log == Then(Then(written, Committed(s'.job, ByTurn(turn))), Accepted(s'.rt.queue[0]))
  {
    UnderwayTold(job, actions, turn);
    RunRecords.RecordsRun(job, actions);
    var w := Run(job, actions);
    assert w.s.job.userCancelled <==> PlanWasCancelled(w.s.log);
    hide Run, RunRecords.Records;
    AppliedExactly(w.s, w.turns[turn].item, turn, marker, cancelledRequest, ok, ok2);
  }

  // ---------------------------------------------------------------- when callers are heard

  /** What the agent asks names the turn in flight, its request and its session, and the turn is not cancelled. */
  predicate AskedInTime(w: World, p: PlanRequest) {
    && p.id != 0 && p.connectionID != 0 && p.sessionID != 0 && p.requestID != 0 && p.turnID != 0
    && p.sessionID == w.s.job.sessionID && p.requestID == w.s.job.requestID
    && TurnOf(w.s.log) == Some(p.turnID) && ItemOf(w.s.log, p.turnID).Some?
    && ItemOf(w.s.log, p.turnID).value.requestID == p.requestID
    && !RunTurns.BumpedSince(w.s.log, p.turnID) && !PlanWasCancelled(w.s.log)
  }

  /** A new approval opens a plan exactly if it is asked for in time and can be written. */
  lemma ApprovalsOpenExactly(job: Job, actions: seq<Action>, p: PlanRequest, content: string, ok: bool)
    requires Dispatched(job)
    requires var s := Run(job, actions).s; !ApprovalSeen(s.log, p.id) && Prompted(s.log, p.turnID)
    ensures var w := Run(job, actions); var s' := Next(w, OnControl(ControlAction.Approval(p, content, ok))).s;
      if AskedInTime(w, p) && ok
      then s'.log == Then(w.s.log, Committed(s'.job, ByApproval)) && s'.job.approval.id == p.id
        && s'.job.approval.content == content && s'.job.approval.connectionID == p.connectionID
        && s'.job.approval.supportsNotes == p.supportsNotes
      else s' == w.s
  {
    var w := Run(job, actions);
    RuntimeFollows(job, actions);
    RunRecords.RecordsRun(job, actions);
    assert w.s.job.userCancelled <==> PlanWasCancelled(w.s.log);
    assert w.s.rt.busy <==> TurnOf(w.s.log).Some?;
    SeenInRecord(w.s.log);
    hide Run, RunRecords.Records, ApprovalSeen, Prompted, ItemOf, TurnOf, PlanWasCancelled;
  }

  lemma SeenInRecord(h: History)
    ensures LastJob(h).Some? ==> ApprovalSeen(h, LastJob(h).value.approval.id)
  {
  }

  /** The decision is on the plan that is open, as it stands, and the agent still waits for exactly that approval. */
  predicate DecidesOpenPlan(b: Job, d: Decision, pending: Option<PlanRequest>) {
    && b.state.PlanReady? && d.approvalID != 0 && d.approvalID == b.approval.id && d.requestID == b.requestID
    && d.turnID == b.approval.planTurnID && d.planVersion == b.approval.planVersion
    && (d.decide.Approve? ==> b.approval.content != "")
    && pending.Some? && pending.value.sessionID == b.sessionID && pending.value.requestID == b.requestID
    && pending.value.turnID == b.approval.planTurnID && pending.value.connectionID == b.approval.connectionID
    && (d.notes ==> pending.value.supportsNotes)
  }

  /** A decision is written down exactly if it decides the open plan and can be written; a refused one does nothing. */
  lemma DecisionsAreTakenExactly(job: Job, actions: seq<Action>, key: nat, d: Decision, pending: Option<PlanRequest>,
    ok: bool)
    requires Dispatched(job) && key !in Run(job, actions).decisions
    ensures var w := Run(job, actions); var w' := Next(w, OnControl(Decide(key, d, pending, ok)));
      if DecidesOpenPlan(w.s.job, d, pending) && ok
      then w'.s.log == Then(w.s.log, Committed(w'.s.job, ByDecision(d))) && key in w'.decisions
      else w' == w
  {
    var w := Run(job, actions);
    RunRecords.RecordsRun(job, actions);
    assert w.s.job.state.PlanReady? ==> !w.s.job.approval.delivery.Submitted?;
    hide Run, RunRecords.Records;
  }

  /** The job takes no control any more. */
  predicate Settled(b: Job) {
    b.userCancelled || b.state in {JobState.Cancelled, JobState.Completed, JobState.Failed}
  }

  lemma CancelBegins(w: World, expected: Id, ok: bool)
    ensures var w' := NextControl(w, BeginCancel(expected, ok));
      if CancelStarts(w.s, expected) then w'.s.rt.gen == w.s.rt.gen + 1 && w'.cancels == w.cancels + {w'.s.rt.gen}
      else w' == w
  {
    hide CancelStarts, Restamp, Stamped;
  }

  /**
   A cancellation of the active turn begins exactly if the job takes control, none is under way, and the turn that the
   caller expects, if any, is the one in flight.
   */
  lemma CancelsBeginExactly(job: Job, actions: seq<Action>, expected: Id, ok: bool)
    requires Dispatched(job)
    ensures var w := Run(job, actions); var w' := Next(w, OnControl(BeginCancel(expected, ok)));
      if !Settled(w.s.job) && w.cancels == {} && (expected == 0 || TurnOf(w.s.log) == Some(expected))
      then w'.cancels == {w'.s.rt.gen} && w'.s.rt.gen == w.s.rt.gen + 1
      else w' == w
  {
    var w := Run(job, actions);
    RunGates.OneCancelRun(job, actions);
    RunRecords.RecordsRun(job, actions);
    assert TurnID(w.s.log) == w.s.rt.turnID && (w.s.rt.busy <==> TurnOf(w.s.log).Some?);
    hide Run, RunRecords.Records, TurnOf, CancelStart;
    CancelBegins(w, expected, ok);
    hide NextControl;
    assert w.cancels == {} ==> forall g :: w.cancels + {g} == {g};
  }

  /** Some waiting item is of the request. */
  predicate Waits(s: Shared, requestID: Id) {
    requestID != 0 && exists i | 0 <= i < |s.rt.queue| :: s.rt.queue[i].requestID == requestID
  }

  /**
   Where the cancellation of a request goes, told from the history: its items leave the queue exactly if it waits, here
   or in its row, is not the request in flight, and its row could be cancelled; it goes to the turn in flight if that
   is the request, and the turn the caller names if any; else it is refused.
   */
  lemma CancelTargetExactly(job: Job, actions: seq<Action>, requestID: Id, turnID: Id, persisted: bool, updated: bool)
    requires Dispatched(job)
    ensures var s := Run(job, actions).s; var r := CancelTarget(s, requestID, turnID, persisted, updated);
      var active := TurnOf(s.log).Some? && ItemOf(s.log, TurnID(s.log)).Some?
        && ItemOf(s.log, TurnID(s.log)).value.requestID == requestID;
      && (r.CancelRemoved? <==> !Settled(s.job) && requestID != 0 && turnID == 0 && !active
                                && (Waits(s, requestID) || persisted) && updated)
      && (r.CancelActive? <==> !Settled(s.job) && (requestID == 0
                                || (active && (turnID == 0 || TurnOf(s.log) == Some(turnID)))))
  {
    var s := Run(job, actions).s;
    RuntimeFollows(job, actions);
    RunRecords.RecordsRun(job, actions);
    assert TurnID(s.log) == s.rt.turnID && (s.rt.busy <==> TurnOf(s.log).Some?);
    hide Run, RunRecords.Records, TurnOf, ItemOf;
  }

  /** A follow-up is accepted, behind everything that waits, exactly if the job is not cancelled and no plan is open. */
  lemma FollowupsAreTakenExactly(s: Shared, requestID: Id, planning: bool, live: bool, ok: bool)
    ensures var s' := Followup(s, requestID, planning, live, ok);
      if s.job.state.Cancelled? || PlanStandsOpen(s.job) || s.closed || !ok then s' == s else
      && |s'.rt.queue| == |s.rt.queue| + 1 && s'.rt.queue[..|s.rt.queue|] == s.rt.queue
      && s'.log.Then? && s'.log.event == Accepted(s'.rt.queue[|s.rt.queue|])
      && Carries(s'.rt.queue[|s.rt.queue|], requestID)
  {
  }

  /** The rows of other requests, in their order. */
  function Others(rows: seq<(Id, bool)>, requestID: Id): seq<(Id, bool)> {
    if rows == [] then [] else
    (if rows[0].0 == requestID then [] else [rows[0]]) + Others(rows[1..], requestID)
  }

  /** The items are follow-ups for these rows, one each and in their order. */
  predicate AreFor(q: seq<Item>, rows: seq<(Id, bool)>) {
    && |q| == |rows|
    && (forall i | 0 <= i < |q| ::
          q[i].kind.FollowupItem? && q[i].connect && q[i].planning == rows[i].1 && Carries(q[i], rows[i].0))
  }

  lemma RestoresOne(s: Shared, row: (Id, bool))
    requires !s.closed
    ensures var s1 := Enqueue(s, Item(0, FollowupItem, true, row.1, 0, row.0), None, 0, ByCaller, true);
      var n := |s.rt.queue|;
      && !s1.closed && s1.job.requestID == s.job.requestID && |s1.rt.queue| == n + 1 && s1.rt.queue[..n] == s.rt.queue
      && AreFor([s1.rt.queue[n]], [row])
  {
  }

  lemma OneMore(x: Item, q: seq<Item>, row: (Id, bool), rows: seq<(Id, bool)>)
    requires AreFor([x], [row]) && AreFor(q, rows)
    ensures AreFor([x] + q, [row] + rows)
  {
  }

  lemma {:induction false} RestoresRows(s: Shared, rows: seq<(Id, bool)>)
    requires !s.closed
    ensures var q := EnqueueAll(s, rows).rt.queue;
      |q| >= |s.rt.queue| && AreFor(q[|s.rt.queue|..], Others(rows, s.job.requestID))
    decreases |rows|
  {
    hide AreFor;
    if rows == [] {
      assert AreFor([], []) by { NoneAre(); }
      assert s.rt.queue[|s.rt.queue|..] == [];
    } else if rows[0].0 == s.job.requestID {
      RestoresRows(s, rows[1..]);
      assert [] + Others(rows[1..], s.job.requestID) == Others(rows[1..], s.job.requestID);
    } else {
      var n := |s.rt.queue|;
      var s1 := Enqueue(s, Item(0, FollowupItem, true, rows[0].1, 0, rows[0].0), None, 0, ByCaller, true);
      RestoresOne(s, rows[0]);
      RestoresRows(s1, rows[1..]);
      var q := EnqueueAll(s1, rows[1..]).rt.queue;
      assert EnqueueAll(s, rows) == EnqueueAll(s1, rows[1..]);
      hide Enqueue, EnqueueAll;
      assert q[n] == s1.rt.queue[n] && q[n..] == [q[n]] + q[n + 1..];
      OneMore(q[n], q[n + 1..], rows[0], Others(rows[1..], s.job.requestID));
    }
  }

  lemma NoneAre()
    ensures AreFor([], [])
  {
  }

  /**
   A continue is accepted exactly if the job takes control, no plan is open, and, while a terminal has the job, the
   request does not wait already. It goes behind everything that waits; if nothing did, and no turn that is still to
   answer runs, the other requests in the rows follow it in their order, and otherwise nothing does.
   */
  lemma ContinuesAreTakenExactly(job: Job, actions: seq<Action>, planning: bool, live: bool, rows: seq<(Id, bool)>,
    newID: Id, ok: bool)
    requires Dispatched(job)
    ensures var s := Run(job, actions).s; var s' := Continue(s, planning, live, rows, newID, ok);
      var n, b := |s.rt.queue|, s.job;
      if Settled(b) || PlanStandsOpen(b) || s.closed || !ok || (!AtHand(b, live) && Waits(s, b.requestID)) then s' == s
      else
        var restores := AtHand(b, live) && n == 0
          && (TurnOf(s.log).None? || RunTurns.BumpedSince(s.log, TurnID(s.log)));
        && |s'.rt.queue| > n && s'.rt.queue[..n] == s.rt.queue
        && s'.rt.queue[n].kind.ContinueItem? && Carries(s'.rt.queue[n], b.requestID)
        && AreFor(s'.rt.queue[n + 1..], if restores then Others(rows, b.requestID) else [])
  {
    var s := Run(job, actions).s;
    RuntimeFollows(job, actions);
    RunRecords.RecordsRun(job, actions);
    assert TurnID(s.log) == s.rt.turnID && (s.rt.busy <==> TurnOf(s.log).Some?);
    hide Run, RunRecords.Records;
    ContinuedExactly(s, planning, live, rows, newID, ok);
  }

  lemma ContinuedExactly(s: Shared, planning: bool, live: bool, rows: seq<(Id, bool)>, newID: Id, ok: bool)
    ensures var s' := Continue(s, planning, live, rows, newID, ok); var n, b := |s.rt.queue|, s.job;
      if Settled(b) || PlanStandsOpen(b) || s.closed || !ok || (!AtHand(b, live) && Waits(s, b.requestID)) then s' == s
      else
        var restores := AtHand(b, live) && n == 0 && (!s.rt.busy || s.rt.cancelledTurn);
        && |s'.rt.queue| > n && s'.rt.queue[..n] == s.rt.queue
        && s'.rt.queue[n].kind.ContinueItem? && Carries(s'.rt.queue[n], b.requestID)
        && AreFor(s'.rt.queue[n + 1..], if restores then Others(rows, b.requestID) else [])
  {
    if !s.closed {
      var j := s.job.(state := JobState.Executing, pause := NoPause,
        approval := s.job.approval.(delivery := NoDelivery));
      var k := if planning then j.(state := JobState.Planning, approval := j.approval.(approved := false)) else j;
      var s1 := Enqueue(s, Item(0, ContinueItem, true, planning, 0, s.job.requestID), Some(k), newID,
        ByContinue(planning, live), true);
      RestoresRows(s1, rows);
      assert |s1.rt.queue| == |s.rt.queue| + 1 && s1.job.requestID == s.job.requestID;
    }
  }

  // ---------------------------------------------------------------- detaches and restarts

  /** A detach that goes on belongs to the terminal of this moment. */
  lemma DetachesBegin(job: Job, actions: seq<Action>, key: nat, fromClose: bool, ok: bool)
    requires Dispatched(job) && key !in Run(job, actions).detaches
    ensures var w := Run(job, actions); var w' := Next(w, OnDetach(BeginDetach(key, fromClose, ok)));
      if w.s.closed || (!fromClose && w.s.job.view.mode.Headless? && w.s.job.view.owner.SupervisorOwner?)
      then key !in w'.detaches
      else key in w'.detaches && w'.detaches[key] == Closing(Attachments(w'.s.log))
  {
    var w := Run(job, actions);
    ToldRun(job, actions);
    RunTurns.TurnInvRun(job, actions);
    NextTold(w, OnDetach(BeginDetach(key, fromClose, ok)));
    hide Run, RunTurns.TurnInv, Attachments;
  }

  /**
   A detach brings the input back exactly if since it began no terminal was installed or dropped, the connection was
   not lost, and no terminal is asked for; a late one does nothing.
   */
  lemma DetachesFinishExactly(job: Job, actions: seq<Action>, key: nat, ok: bool)
    requires Dispatched(job)
    requires var w := Run(job, actions); key in w.detaches && w.detaches[key].Loading?
    ensures var w := Run(job, actions); var w' := Next(w, OnDetach(EndDetach(key, ok)));
      var mine := w.detaches[key].gen == Attachments(w.s.log) && RunViews.Standing(w.s.log).None?;
      && key !in w'.detaches
      && if !mine then w'.s == w.s else
         var said := Then(w.s.log, MadeHeadless(FinishedDetach, false));
         w'.s.log == (if ok then Then(said, Committed(w'.s.job, ByCaller)) else said)
           && w'.s.heads == (if w.s.closed || TurnOf(w.s.log).Some? || w.s.rt.queue == [] then w.s.heads
                             else w.s.heads + 1)
  {
    var w := Run(job, actions);
    ToldRun(job, actions);
    RunViews.ViewInvRun(job, actions);
    RunRecords.RecordsRun(job, actions);
    assert RunViews.Standing(w.s.log).None? <==> !w.s.rt.viewRequested;
    assert w.s.rt.busy <==> TurnOf(w.s.log).Some?;
    hide Run, RunRecords.Records, RunViews.ViewInv, RunViews.Standing, TurnOf, Stamped;
  }

  lemma RestsExactly(s: Shared)
    requires s.job.state.PlanReady? ==> !s.job.approval.delivery.Submitted?
    ensures var s' := Restart(s, true);
      if s.job.userCancelled
        || (!Midway(s.job) && !s.job.state.PlanReady? && s.job.view == View(Headless, Headless, SupervisorOwner))
      then s'.job == s.job else Rests(s.job, s'.job)
  {
  }

  /** A restart leaves a cancelled record alone, and one that is at rest already; any other it puts to rest. */
  lemma RestartsPutToRest(job: Job, actions: seq<Action>)
    requires Dispatched(job)
    ensures var s := Run(job, actions).s; var s' := Next(Run(job, actions), OnLife(RestartService(true))).s;
      if PlanWasCancelled(s.log)
        || (!Midway(s.job) && !s.job.state.PlanReady? && s.job.view == View(Headless, Headless, SupervisorOwner))
      then s'.job == s.job else Rests(s.job, s'.job)
  {
    var s := Run(job, actions).s;
    RunRecords.RecordsRun(job, actions);
    assert s.job.userCancelled <==> PlanWasCancelled(s.log);
    assert s.job.state.PlanReady? ==> !s.job.approval.delivery.Submitted?;
    hide Run, RunRecords.Records, PlanWasCancelled, Restart, Rests;
    RestsExactly(s);
  }
}
