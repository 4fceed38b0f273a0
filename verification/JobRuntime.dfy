/**
 The runtime of one job in the supervisor's own form: an object whose methods, one per section run
 under the coordination lock, update its fields in place. Each method is proved to do to the state
 exactly what the function of the same name in `Supervisor` does; `JobMachine` drives the object
 through whole runs.
 */
module JobRuntime {
  import opened Protocol
  import S = Supervisor

  /** The next item of the filter, behind what it has kept. */
  lemma WithoutFrom(q: seq<S.Item>, i: nat, id: Id, kept: seq<S.Item>)
    requires i < |q|
    ensures kept + S.Without(q[i..], id) ==
      (if q[i].requestID != id then kept + [q[i]] else kept) + S.Without(q[i + 1..], id)
  {
    assert q[i..][0] == q[i] && q[i..][1..] == q[i + 1..];
    var rest := S.Without(q[i + 1..], id);
    assert kept + ([q[i]] + rest) == (kept + [q[i]]) + rest && kept + ([] + rest) == kept + rest;
  }

  class JobRuntime {
    var job: Job
    var closed: bool
    /** The runtime struct: a Go assignment to one of its fields replaces that field of the record. */
    var rt: S.Runtime
    var accepted: nat
    /** The pumps on their way, how the last one left, and the trace of what happened. */
    var heads: nat
    var lastExit: S.Exit
    var log: S.History

    ghost function State(): S.Shared
      reads this
    {
      S.Shared(job, rt, closed, heads, lastExit, accepted, log)
    }

    constructor (dispatched: Job)
      ensures State() == S.Shared(dispatched, S.FreshRuntime, false, 0, S.NotYet, 0,
        S.Then(S.Start, S.Committed(dispatched, S.ByCaller)))
    {
      job, closed, accepted := dispatched, false, 0;
      rt := S.FreshRuntime;
      heads, lastExit, log := 0, S.NotYet, S.Then(S.Start, S.Committed(dispatched, S.ByCaller));
    }

    // -------------------------------------------------------------- writes

    method PutJob(j: Job, phase: Phase, w: S.Writer, ok: bool)
      modifies this`job, this`log
      ensures State() == S.Commit(old(State()), j, phase, w, ok)
    {
      if !ok { return; }
      var stamped := j;
      if phase != NoPhase {
        stamped := stamped.(phase := phase);
      } else if j.requestID != job.requestID {
        stamped := stamped.(phase := QueuedPhase);
      }
      job := stamped;
      log := S.Then(log, S.Committed(stamped, w));
    }

    method Save(j: Job, w: S.Writer, ok: bool)
      modifies this`job, this`log
      ensures State() == S.Save(old(State()), j, w, ok)
    {
      PutJob(j.(activeTurnID := rt.turnID), NoPhase, w, ok);
    }

    method SaveView(v: View, ok: bool)
      modifies this`job, this`log
      ensures State() == S.SaveView(old(State()), v, ok)
    {
      Save(job.(view := v), S.ByCaller, ok);
    }

    method Fail(j: Job, w: S.Writer, ok: bool)
      modifies this`job, this`log
      ensures State() == S.Save(old(State()), S.FailedJob(j), w, ok)
    {
      var failed := j.(state := JobState.Failed);
      if failed.approval.delivery == Submitted {
        failed := failed.(pause := ApprovalUnknown,
          approval := failed.approval.(delivery := Unknown, approved := false));
      }
      Save(failed, w, ok);
    }

    // -------------------------------------------------------------- the queue and its pump

    /** A queued item without its request takes the record's, then the runtime's, then a new one. */
    method RequestFor(requestID: Id, newID: Id) returns (r: Id)
      ensures r == S.RequestOr(State(), requestID, newID)
    {
      r := requestID;
      if r == 0 { r := job.requestID; }
      if r == 0 { r := rt.requestID; }
      if r == 0 { r := newID; }
    }

    method Enqueue(q: S.Item, acceptedJob: Option<Job>, newID: Id, w: S.Writer, ok: bool) returns (done: bool)
      modifies this`job, this`log, this`rt, this`accepted, this`heads
      ensures State() == S.Enqueue(old(State()), q, acceptedJob, newID, w, ok)
      ensures done == (!closed && ok)
    {
      hide S.Commit, S.RequestOr;
      if closed { return false; }
      var requestID := RequestFor(q.requestID, newID);
      var item := q.(number := accepted, gen := rt.gen, requestID := requestID);
      if !ok { return false; }
      PutJob(if acceptedJob.Some? then acceptedJob.value else job, NoPhase, w, true);
      if item.kind.ContinueItem? && !item.connect {
        rt := rt.(queue := [item] + rt.queue);
      } else {
        rt := rt.(queue := rt.queue + [item]);
      }
      accepted := accepted + 1;
      log := S.Then(log, S.Accepted(item));
      if !rt.busy { heads := heads + 1; }
      return true;
    }

    method Kick()
      modifies this`heads
      ensures State() == S.Kick(old(State()))
    {
      if closed || rt.busy || |rt.queue| == 0 { return; }
      heads := heads + 1;
    }

    /** One pass over the top of `pump`; `taken` is the item to run. */
    method PumpTop(turn: Id, live: bool, ok: bool) returns (taken: Option<S.Item>)
      requires heads > 0
      modifies this
      ensures State() == S.PumpTop(old(State()), turn, live, ok)
      ensures taken == if S.Took(old(State()), live, ok) then Some(old(rt.queue)[0]) else None
    {
      hide S.Commit;
      heads, taken := heads - 1, None;
      if closed || rt.controlPending { lastExit := S.Gate(S.ClosedGate); return; }
      if (job.state.PlanReady? || job.pause.ReviewRequired? || job.approval.delivery.Unknown?) && |rt.queue| > 0 {
        lastExit := S.Gate(S.ApprovalGate); return;
      }
      if job.view.mode.Detaching? && |rt.queue| > 0 { lastExit := S.Gate(S.DetachingGate); return; }
      if S.Held(job, live) && |rt.queue| > 0 { lastExit := S.Gate(S.TuiGate); return; }
      if rt.busy || |rt.queue| == 0 { lastExit := S.NothingToDo; return; }
      var item := rt.queue[0];
      rt := rt.(queue := rt.queue[1..]);
      rt := rt.(busy := true, cancelledTurn := false, ctxDone := false);
      rt := rt.(turnID := turn, requestID := item.requestID);
      log := S.Then(log, S.Dequeued(turn, item));
      var j := job.(requestID := item.requestID);
      if item.planning {
        j := j.(state := JobState.Planning, approval := j.approval.(approved := false, content := ""));
      } else if !j.state.PlanReady? {
        j := j.(state := JobState.Executing);
      }
      j := j.(pause := NoPause, activeTurnID := turn);
      if !ok {
        rt := rt.(busy := false, turnID := 0);
        log := S.Then(log, S.TurnEnded(turn));
        lastExit := S.CommitFailed;
        return;
      }
      PutJob(j, PreparingPhase, S.ByTurn(turn), true);
      taken := Some(item);
    }

    /** `runItem` just before the prompt: false when the fence or the turn's context has gone. */
    method MarkSent(item: S.Item, turn: Id, ok: bool) returns (sent: bool)
      modifies this`job, this`log
      ensures sent == (!S.Fenced(old(State()), item) && !rt.ctxDone && ok)
      ensures State() == if sent then S.MarkSent(old(State()), turn, true) else old(State())
    {
      if item.gen != rt.gen || rt.ctxDone { return false; }
      PutJob(job.(activeTurnID := turn), SentPhase, S.ByTurn(turn), ok);
      return ok;
    }

    /** A call of the agent, which changes nothing here. */
    method Record(e: S.Event)
      modifies this`log
      ensures State() == S.Note(old(State()), e)
    {
      log := S.Then(log, e);
    }

    method ApplyPromptResult(item: S.Item, turn: Id, marker: Option<TaskMarker>, cancelledRequest: bool, ok: bool,
      ok2: bool)
      modifies this
      ensures State() == S.ApplyResult(old(State()), item, turn, marker, cancelledRequest, ok, ok2)
    {
      if item.gen != rt.gen || cancelledRequest || job.userCancelled { return; }
      var j := job.(activeTurnID := 0, resultTurnID := turn, pause := NoPause);
      if j.approval.delivery == Submitted { j := j.(approval := j.approval.(delivery := Confirmed)); }
      match marker {
        case None => j := j.(state := JobState.NeedsInput, pause := ReviewRequired);
        case Some(MarkerWorking) => j := j.(state := JobState.Executing);
        case Some(MarkerNeedsInput) => j := j.(state := JobState.NeedsInput);
        case Some(MarkerBlocked) => j := j.(state := JobState.Blocked);
        case Some(MarkerCompleted) => j := j.(state := JobState.Completed);
      }
      if j.state.Completed? && |rt.queue| > 0 { j := j.(state := JobState.Executing); }
      if !ok { return; }
      PutJob(j, ReturnedPhase, S.ByTurn(turn), true);
      if marker == Some(MarkerWorking) && j.view.owner.SupervisorOwner? {
        var _ := Enqueue(S.Item(0, S.ContinueItem, false, false, 0, item.requestID), None, 0, S.ByTurn(turn), ok2);
      }
    }

    /** The last section of a turn, with the closure that `runItem` handed back. */
    method EndTurn(item: S.Item, turn: Id, f: S.Finish, cancelledRequest: bool, ok: bool, ok2: bool)
      returns (more: bool)
      modifies this
      ensures State() == S.EndTurn(old(State()), item, turn, f, cancelledRequest, ok, ok2)
      ensures more == (old(rt.queue) != [])
    {
      hide S.Commit;
      hide S.Save;
      hide S.Enqueue;
      hide S.DisconnectLocked;
      hide S.ApplyResult;
      rt := rt.(busy := false, ctxDone := false, turnID := 0);
      log := S.Then(log, S.TurnEnded(turn));
      more := |rt.queue| > 0;
      match f {
        case Nothing =>
        case Reenqueue => var _ := Enqueue(item, None, 0, S.ByRequeue(turn), ok);
        case LoadFailed => if item.gen == rt.gen { DisconnectLocked(S.ByTurn(turn), ok); }
        case SetupFailed(disconnect, copy) =>
          if item.gen == rt.gen {
            if disconnect { DisconnectLocked(S.ByTurn(turn), ok); } else { Fail(copy, S.ByTurnCopy(turn), ok); }
          }
        case PromptFailed(disconnect) =>
          if item.gen == rt.gen {
            if disconnect { DisconnectLocked(S.ByTurn(turn), ok); } else { Fail(job, S.ByTurn(turn), ok); }
          }
        case Answer(marker) => ApplyPromptResult(item, turn, marker, cancelledRequest, ok, ok2);
      }
      if more { heads := heads + 1; } else { lastExit := S.Drained; }
    }

    method DisconnectLocked(w: S.Writer, ok: bool)
      modifies this
      ensures State() == S.DisconnectLocked(old(State()), w, ok)
    {
      hide S.Commit;
      hide S.Save;
      if job.userCancelled { return; }
      log := S.Then(log, S.ViewReset);
      var j := job.(view := View(Headless, Headless, SupervisorOwner));
      if !j.state.PlanReady? { j := j.(state := JobState.Disconnected); }
      if j.approval.delivery == Submitted {
        j := j.(pause := ApprovalUnknown, approval := j.approval.(delivery := Unknown, approved := false));
      } else if j.state.PlanReady? {
        j := j.(pause := ApprovalExpired, approval := j.approval.(delivery := Expired));
      }
      Save(j, w, ok);
      log := S.Then(log, S.Bumped(S.Disconnect));
      log := S.Then(log, S.Removed(S.Numbers(rt.queue)));
      rt := rt.(gen := rt.gen + 1, cancelledTurn := true, queue := [], ctxDone := rt.busy);
      rt := rt.(term := 0, viewRequested := false, attachGen := rt.attachGen + 1);
    }

    // -------------------------------------------------------------- follow-ups and continues

    method Followup(id: Id, planning: bool, live: bool, ok: bool)
      modifies this`job, this`log, this`rt, this`accepted, this`heads
      ensures State() == S.Followup(old(State()), id, planning, live, ok)
    {
      if job.state.Cancelled? || (job.state.PlanReady? && job.pause != ApprovalExpired) { return; }
      var acceptedJob := None;
      if !rt.busy && !S.Held(job, live) {
        var j := job.(requestID := id, pause := NoPause, resultTurnID := 0, state := JobState.Executing);
        if planning { j := j.(state := JobState.Planning, approval := j.approval.(approved := false, content := "")); }
        acceptedJob := Some(j);
      }
      var _ := Enqueue(S.Item(0, S.FollowupItem, true, planning, 0, id), acceptedJob, 0,
        S.ByFollowup(planning, live), ok);
    }

    method RequestQueued(id: Id) returns (queued: bool)
      ensures queued == S.RequestQueued(State(), id)
    {
      if id == 0 { return false; }
      for i := 0 to |rt.queue|
        invariant forall k :: 0 <= k < i ==> rt.queue[k].requestID != id
      {
        if rt.queue[i].requestID == id { return true; }
      }
      return false;
    }

    method Continue(planning: bool, live: bool, rows: seq<(Id, bool)>, newID: Id, ok: bool)
      modifies this`job, this`log, this`rt, this`accepted, this`heads
      ensures State() == S.Continue(old(State()), planning, live, rows, newID, ok)
    {
      hide S.Enqueue;
      hide S.EnqueueAll;
      if !AcceptsTurnControl(job) || (job.state.PlanReady? && job.pause != ApprovalExpired) { return; }
      var item := S.Item(0, S.ContinueItem, true, planning, 0, job.requestID);
      if S.Held(job, live) {
        var queued := RequestQueued(job.requestID);
        if !queued { var _ := Enqueue(item, None, newID, S.ByContinue(planning, live), ok); }
        return;
      }
      var j := job.(state := JobState.Executing);
      if planning { j := j.(state := JobState.Planning, approval := j.approval.(approved := false)); }
      j := j.(pause := NoPause, approval := j.approval.(delivery := NoDelivery));
      var restore := |rt.queue| == 0 && (!rt.busy || rt.cancelledTurn);
      var accepted := Enqueue(item, Some(j), newID, S.ByContinue(planning, live), ok);
      if accepted && restore { Restore(rows); }
    }

    /** The durable rows that are still queued go back behind the continue. */
    method Restore(rows: seq<(Id, bool)>)
      modifies this`job, this`log, this`rt, this`accepted, this`heads
      ensures State() == S.EnqueueAll(old(State()), rows)
    {
      for i := 0 to |rows|
        invariant S.EnqueueAll(old(State()), rows) == S.EnqueueAll(State(), rows[i..])
      {
        assert rows[i..][0] == rows[i] && rows[i..][1..] == rows[i + 1..];
        if rows[i].0 != job.requestID {
          var _ := Enqueue(S.Item(0, S.FollowupItem, true, rows[i].1, 0, rows[i].0), None, 0, S.ByCaller, true);
        }
      }
    }

    // -------------------------------------------------------------- cancellation

    method CancelRequest(id: Id, turn: Id, persisted: bool, updated: bool) returns (outcome: S.CancelOutcome)
      modifies this`rt, this`log
      ensures State() == S.CancelRequest(old(State()), id, turn, persisted, updated)
      ensures outcome == S.CancelTarget(old(State()), id, turn, persisted, updated)
    {
      if !AcceptsTurnControl(job) { return S.CancelRefused; }
      var queued := RequestQueued(id);
      queued := queued || persisted;
      if id != 0 && turn != 0 {
        if !(rt.busy && id == rt.requestID && turn == rt.turnID) { return S.CancelRefused; }
      }
      if id != 0 && turn == 0 && queued && !(rt.busy && id == rt.requestID) {
        if !updated { return S.CancelRefused; }
        CancelQueued(id);
        return S.CancelRemoved;
      }
      if id != 0 && (!rt.busy || id != rt.requestID) { return S.CancelRefused; }
      return S.CancelActive;
    }

    /** Drops the request's items and keeps every other one in its place. */
    method CancelQueued(id: Id)
      modifies this`rt, this`log
      ensures rt == old(rt.(queue := S.Without(rt.queue, id)))
      ensures log == S.Then(old(log), S.Removed(S.Numbers(S.Only(old(rt.queue), id))))
    {
      var was := rt.queue;
      var next := [];
      for i := 0 to |rt.queue|
        invariant rt == old(rt) && log == old(log)
        invariant S.Without(was, id) == next + S.Without(was[i..], id)
      {
        hide S.Without;
        WithoutFrom(was, i, id, next);
        if rt.queue[i].requestID != id { next := next + [rt.queue[i]]; }
      }
      rt := rt.(queue := next);
      log := S.Then(log, S.Removed(S.Numbers(S.Only(was, id))));
    }

    method CancelStart(expected: Id, ok: bool) returns (generation: Option<nat>)
      modifies this
      ensures State() == S.CancelStart(old(State()), expected, ok)
      ensures generation == if S.CancelStarts(old(State()), expected) then Some(old(rt.gen) + 1) else None
    {
      hide S.Commit;
      hide S.Save;
      hide S.Restamp;
      if !AcceptsTurnControl(job) || rt.controlPending || (expected != 0 && expected != rt.turnID) { return None; }
      rt := rt.(gen := rt.gen + 1);
      rt := rt.(cancelledTurn := true, controlPending := true);
      Restamp();
      rt := rt.(ctxDone := rt.busy);
      log := S.Then(log, S.Bumped(S.CancelledTurn));
      Save(job.(state := JobState.NeedsInput, pause := CancelDelivery), S.ByCaller, ok);
      return Some(rt.gen);
    }

    /** Every waiting item takes the new stamp, so the fence lets it through. */
    method Restamp()
      modifies this`rt
      ensures rt == old(rt.(queue := S.Restamp(rt.queue, rt.gen)))
    {
      for i := 0 to |rt.queue|
        invariant |rt.queue| == |old(rt.queue)| && rt == old(rt).(queue := rt.queue)
        invariant forall k :: 0 <= k < i ==> rt.queue[k] == old(rt.queue)[k].(gen := rt.gen)
        invariant forall k :: i <= k < |rt.queue| ==> rt.queue[k] == old(rt.queue)[k]
      {
        rt := rt.(queue := rt.queue[i := rt.queue[i].(gen := rt.gen)]);
      }
    }

    method CancelFinish(generation: nat, failed: bool, ok: bool)
      modifies this
      ensures State() == S.CancelFinish(old(State()), generation, failed, ok)
    {
      var confirmed := !failed;
      rt := rt.(controlPending := false);
      if rt.gen == generation {
        Save(job.(pause := if failed then CancelUnknown else NoPause), S.ByOutcome(failed), ok);
        confirmed := confirmed && ok;
      }
      if confirmed { Kick(); }
    }

    // -------------------------------------------------------------- plan decisions

    method PlanSubmit(d: S.Decision, pending: Option<S.PlanRequest>, ok: bool) returns (submitted: bool)
      modifies this`job, this`log
      ensures State() == S.PlanSubmit(old(State()), d, pending, ok)
      ensures submitted == (S.Decidable(old(State()), d, pending) && ok)
    {
      hide S.Commit;
      hide S.Save;
      if !job.state.PlanReady? || job.approval.delivery == Submitted { return false; }
      if d.approvalID == 0 || d.approvalID != job.approval.id || d.requestID != job.requestID { return false; }
      if d.turnID != job.approval.planTurnID || d.planVersion != job.approval.planVersion { return false; }
      if d.decide.Approve? && |job.approval.content| == 0 { return false; }
      if pending.None? { return false; }
      var p := pending.value;
      if p.connectionID != job.approval.connectionID || p.requestID != job.requestID
        || p.turnID != job.approval.planTurnID || p.sessionID != job.sessionID {
        return false;
      }
      if d.notes && !p.supportsNotes { return false; }
      var j := job.(approval := job.approval.(delivery := Submitted), pause := DeliveringApproval);
      match d.decide {
        case Approve => j := j.(state := JobState.Executing, approval := j.approval.(approved := true));
        case Revise => j := j.(state := JobState.Planning, approval := j.approval.(approved := false));
        case CancelPlan => j := j.(state := JobState.Cancelled, userCancelled := true);
      }
      Save(j, S.ByDecision(d), ok);
      return ok;
    }

    method PlanFinish(approvalID: Id, decide: Decide, failed: bool, ok: bool)
      modifies this
      ensures State() == S.PlanFinish(old(State()), approvalID, decide, failed, ok)
    {
      hide S.Commit;
      hide S.Save;
      if job.approval.id == approvalID && job.approval.delivery == Submitted && failed {
        Save(job.(state := JobState.NeedsInput, pause := ApprovalUnknown,
                  approval := job.approval.(delivery := Unknown, approved := false)), S.ByUndelivered, ok);
        if !ok { return; }
      }
      if decide.CancelPlan? {
        log := S.Then(log, S.Bumped(S.PlanCancelled));
        log := S.Then(log, S.Removed(S.Numbers(rt.queue)));
        rt := rt.(gen := rt.gen + 1, cancelledTurn := true, queue := [], ctxDone := rt.busy);
      }
    }

    method OnApproval(p: S.PlanRequest, content: string, ok: bool)
      modifies this`job, this`log
      ensures State() == S.OnApproval(old(State()), p, content, ok)
    {
      if p.id == 0 || p.connectionID == 0 || p.requestID == 0 || p.turnID == 0 || p.sessionID == 0 { return; }
      if p.sessionID != job.sessionID { return; }
      var valid := rt.busy && rt.turnID == p.turnID && rt.requestID == p.requestID && !rt.cancelledTurn;
      if !valid || job.userCancelled || job.requestID != p.requestID || p.id == job.approval.id { return; }
      var j := job.(state := JobState.PlanReady, pause := ApprovalPause,
                    approval := Approval(p.id, p.connectionID, p.supportsNotes, Pending, false,
                                         job.approval.planVersion + 1, p.turnID, content));
      if |content| == 0 { j := j.(pause := PlanContentMissing); }
      Save(j, S.ByApproval, ok);
    }

    // -------------------------------------------------------------- start, close and restart

    method StartBegin(copy: Job, ok: bool) returns (generation: nat)
      modifies this`job, this`log
      ensures State() == S.StartBegin(old(State()), copy, ok) && generation == rt.gen
    {
      generation := rt.gen;
      Save(copy.(state := JobState.Starting), S.ByDispatchCopy, ok);
    }

    method StartFinish(copy: Job, generation: nat, sessionID: Id, planning: bool, ok: bool, ok2: bool)
      modifies this
      ensures State() == S.StartFinish(old(State()), copy, generation, sessionID, planning, ok, ok2)
    {
      if rt.gen != generation || closed {
        if sessionID != 0 { Save(job.(sessionID := sessionID), S.BySession, ok); }
        return;
      }
      if sessionID == 0 { Fail(copy, S.ByDispatchCopy, ok); return; }
      if !ok { return; }
      var j := copy.(sessionID := sessionID, state := JobState.Executing, view := copy.view.(desired := Headless));
      if planning { j := j.(state := JobState.Planning); }
      Save(j, S.ByDispatchCopy, true);
      var _ := Enqueue(S.Item(0, S.PlanItem, false, planning, 0, copy.requestID), None, 0, S.ByCaller, ok2);
    }

    method Close()
      modifies this
      ensures State() == S.CloseAll(old(State()))
    {
      closed := true;
      rt := rt.(ctxDone := rt.busy, term := 0);
    }

    /** A new process: the runtime is gone, and the record is put to rest. */
    method Restart(ok: bool)
      modifies this
      ensures State() == S.Restart(old(State()), ok)
    {
      hide S.Commit;
      hide S.AwaitingResume;
      log := S.Then(log, S.Removed(S.Numbers(rt.queue)));
      log := S.Then(log, S.Crashed);
      closed := false;
      rt := S.FreshRuntime;
      heads, lastExit := 0, S.NotYet;
      MarkAwaitingResume(ok);
    }

    method MarkAwaitingResume(ok: bool)
      modifies this`job, this`log
      ensures State() == if S.AwaitingResume(old(job)) == old(job) then old(State())
                         else S.Commit(old(State()), S.AwaitingResume(old(job)), NoPhase, S.ByCaller, ok)
    {
      var j := job;
      if j.userCancelled { return; }
      if j.state.PlanReady? { j := j.(pause := ApprovalExpired, approval := j.approval.(delivery := Expired)); }
      if j.approval.delivery == Submitted {
        j := j.(pause := ApprovalUnknown, approval := j.approval.(delivery := Unknown, approved := false));
      }
      var active := IsActive(j.state) || j.state.Disconnected?;
      if !active && !j.state.PlanReady? && j.view == View(Headless, Headless, SupervisorOwner) { return; }
      if active {
        j := j.(state := JobState.Disconnected);
        if j.pause == NoPause {
          var unsent := j.phase.QueuedPhase? || j.phase.PreparingPhase?;
          j := j.(pause := if unsent then RequestNotSent else ExecutionUnknown);
        }
      }
      j := j.(view := View(Headless, Headless, SupervisorOwner));
      if j != job { PutJob(j, NoPhase, S.ByCaller, ok); }
    }

    // -------------------------------------------------------------- views

    /** SetView(headed) and OpenTerminal. */
    method RequestHeaded(ok: bool) returns (epoch: nat)
      modifies this`job, this`log, this`rt
      ensures State() == S.RequestHeaded(old(State()), ok) && epoch == rt.viewEpoch
    {
      hide S.Commit;
      hide S.Save;
      hide S.SaveView;
      rt := rt.(viewRequested := true, viewEpoch := rt.viewEpoch + 1);
      epoch := rt.viewEpoch;
      log := S.Then(log, S.HeadedRequested(epoch, ok));
      var v := job.view.(desired := Headed);
      if v.owner.SupervisorOwner? { v := v.(owner := HandoffOwner); }
      if v.mode.Headless? { v := v.(mode := Attaching); }
      SaveView(v, ok);
    }

    method RequestHeadless(ok: bool) returns (epoch: nat)
      modifies this`job, this`log, this`rt
      ensures State() == S.RequestHeadless(old(State()), ok) && epoch == rt.viewEpoch
    {
      rt := rt.(viewRequested := false, viewEpoch := rt.viewEpoch + 1);
      epoch := rt.viewEpoch;
      log := S.Then(log, S.HeadlessRequested(false, false));
      SaveView(job.view.(desired := Headless), ok);
    }

    /** The job is detaching; unless the terminal closed by itself it is forgotten here. */
    method MarkDetaching(fromClose: bool, ok: bool)
      modifies this`job, this`log, this`rt
      ensures var s := S.SaveView(old(State()), old(job.view).(desired := Headless, mode := Detaching), ok);
        State() == if fromClose then s else s.(rt := s.rt.(attachGen := s.rt.attachGen + 1, term := 0))
    {
      hide S.SaveView;
      SaveView(job.view.(desired := Headless, mode := Detaching), ok);
      if !fromClose { rt := rt.(attachGen := rt.attachGen + 1, term := 0); }
    }

    /** The locked part of `detachExpected`; `go` when a thread goes on to close the window. */
    method DetachBegin(fromClose: bool, expected: nat, ok: bool) returns (go: bool)
      modifies this
      ensures State() == S.DetachBegin(old(State()), fromClose, expected, ok)
      ensures go == (S.DetachCurrent(old(State()), expected) && !S.DetachIdle(old(State()), fromClose))
    {
      hide S.Save, S.SaveView;
      if expected != 0 && rt.viewEpoch != expected { return false; }
      go := fromClose || !job.view.mode.Headless? || !job.view.owner.SupervisorOwner?;
      rt := rt.(viewRequested := false, viewEpoch := rt.viewEpoch + 1);
      log := S.Then(log, S.HeadlessRequested(go, fromClose));
      assert State() == S.Note(old(State()), S.HeadlessRequested(go, fromClose)).(rt := rt);
      if go {
        MarkDetaching(fromClose, ok);
      } else if !job.view.desired.Headless? {
        SaveView(job.view.(desired := Headless), ok);
      }
    }

    /** The first half of `finishDetach`: a worker that lives on keeps the input. */
    method DetachCheck(generation: nat, alive: bool, ok: bool) returns (goOn: bool)
      modifies this`job, this`log
      ensures goOn == (S.DetachOwnsView(old(State()), generation) && !alive)
      ensures State() == if S.DetachOwnsView(old(State()), generation) && alive
        then S.DetachToBackground(old(State()), ok) else old(State())
    {
      if rt.attachGen != generation || rt.viewRequested { return false; }
      if alive {
        log := S.Then(log, S.MadeHeadless(S.FinishedDetach, true));
        SaveView(job.view.(mode := Headless, owner := TuiOwner), ok);
        return false;
      }
      return true;
    }

    method DetachFinish(generation: nat, ok: bool)
      modifies this
      ensures State() == S.DetachFinish(old(State()), generation, ok)
    {
      if rt.attachGen != generation || rt.viewRequested { return; }
      log := S.Then(log, S.MadeHeadless(S.FinishedDetach, false));
      SaveView(job.view.(mode := Headless, owner := SupervisorOwner), ok);
      Kick();
    }

    method YieldBump() returns (wasBusy: bool)
      modifies this`rt, this`log
      ensures State() == S.YieldBump(old(State())) && wasBusy == rt.busy
    {
      if rt.busy {
        rt := rt.(cancelledTurn := true, gen := rt.gen + 1, ctxDone := true);
        log := S.Then(log, S.Bumped(S.Yielded));
      }
      return rt.busy;
    }

    method MarkYieldedRequest(ok: bool)
      modifies this`job, this`log
      ensures State() == S.YieldMark(old(State()), ok)
    {
      var j := job;
      if j.state.PlanReady? || j.approval.delivery == Pending { j := j.(approval := j.approval.(delivery := Expired)); }
      if j.state.PlanReady? || j.state.Executing? || j.state.Planning? || j.state.Starting? {
        j := j.(state := JobState.NeedsInput);
      }
      PutJob(j.(pause := ExecutionUnknown, activeTurnID := 0), UnknownPhase, S.ByYield, ok);
    }

    /** `saveRequestedView` with the view that `launchTUI` puts into its copy. */
    method LaunchSave(epoch: nat, ok: bool) returns (current: bool)
      modifies this`job, this`log
      ensures State() == S.LaunchSave(old(State()), epoch, ok)
      ensures current == S.ViewCurrent(old(State()), epoch)
    {
      if !(rt.viewRequested && rt.viewEpoch == epoch) { return false; }
      log := S.Then(log, S.LaunchSaved(epoch, ok));
      SaveView(View(Attaching, Headed, HandoffOwner), ok);
      return true;
    }

    method CommitHeaded(epoch: nat, handle: Id, ok: bool)
      modifies this
      ensures State() == S.CommitHeaded(old(State()), epoch, handle, ok)
    {
      if closed || !rt.viewRequested || rt.viewEpoch != epoch { return; }
      rt := rt.(term := handle, attachGen := rt.attachGen + 1);
      log := S.Then(log, S.Installed(epoch, Some(handle)));
      SaveView(View(Headed, Headed, TuiOwner), ok);
    }

    /** The live terminal of an earlier launch is shown again. */
    method MarkHeaded(epoch: nat, ok: bool)
      modifies this`job, this`log
      ensures State() == S.MarkHeaded(old(State()), epoch, ok)
    {
      if !rt.viewRequested || rt.viewEpoch != epoch { return; }
      log := S.Then(log, S.Installed(epoch, None));
      SaveView(View(Headed, Headed, TuiOwner), ok);
    }

    /** A terminal that turned out to be gone. */
    method ForgetTerminal()
      modifies this`rt
      ensures rt == old(rt).(term := 0)
    {
      rt := rt.(term := 0);
    }

    method WatchEnded(handle: Id, generation: nat)
      modifies this`rt
      ensures State() == S.WatchEnded(old(State()), handle, generation)
    {
      if rt.term == handle && rt.attachGen == generation { rt := rt.(term := 0); }
    }

    method FailHeadless(epoch: nat, alive: bool, ok: bool)
      modifies this
      ensures State() == S.FailHeadless(old(State()), epoch, alive, ok)
    {
      if !(rt.viewRequested && rt.viewEpoch == epoch) { return; }
      rt := rt.(viewRequested := false, viewEpoch := rt.viewEpoch + 1);
      log := S.Then(log, S.MadeHeadless(S.FailedLaunch(epoch), alive));
      SaveView(View(Headless, Headless, if alive then TuiOwner else SupervisorOwner), ok);
    }

    method ReconcileClosed(alive: bool, ok: bool)
      modifies this`job, this`log
      ensures State() == S.ReconcileClosed(old(State()), alive, ok)
    {
      if rt.viewRequested { return; }
      log := S.Then(log, S.MadeHeadless(S.ClosedLaunch, alive));
      SaveView(View(Headless, Headless, if alive then TuiOwner else SupervisorOwner), ok);
    }
  }
}
