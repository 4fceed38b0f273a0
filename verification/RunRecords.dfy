/**
 Every write of every run has its cause: the invariant behind `RecordWrites.Explained`, and what follows from it for
 the answers of turns and for plan decisions.
 */
module RunRecords {
  import opened Protocol
  import opened Supervisor
  import opened Runs
  import opened ViewSteps
  import opened RecordWrites
  import RunTurns
  import RunQueue
  import RunApprovals

  // ---------------------------------------------------------------- the invariant

  /** The history predicates of this module and of `RecordWrites`. */
  ghost predicate Told(h: History) {
    Explained(h) && DecisionsStand(h) && AnswersSettle(h) && DecisionsSettle(h)
  }

  /** What the record says of approval and cancellation, and when it cannot be approved. */
  predicate Flags(h: History, job: Job) {
    && (job.approval.approved <==> Approved(h)) && (job.userCancelled <==> PlanWasCancelled(h))
    && (job.state.PlanReady? || job.state.Planning? || job.approval.delivery.Unknown? ==> !job.approval.approved)
    && (job.state.PlanReady? ==> !job.userCancelled && !job.approval.delivery.Submitted?)
  }

  predicate ReadFacts(h: History, turn: Id, copy: Job) {
    && ReadBy(h, turn) == Some(copy) && (ReadApproved(h, turn) <==> copy.approval.approved)
    && (copy.approval.delivery.Unknown? ==> !copy.approval.approved)
  }

  /** What the history says of a turn under way, by how far it has got. */
  predicate TurnFacts(h: History, turn: Id, t: Turn) {
    && ItemOf(h, turn) == Some(t.item)
    && match t.stage
       case Preparing(copy) => ReadFacts(h, turn, copy)
       case Ending(SetupFailed(disconnect, copy)) =>
         && ReadFacts(h, turn, copy) && EndOf(h, turn).Some? && EndOf(h, turn).value.SetupBroke?
         && (if disconnect then LosesAgent(h, turn) else Breaks(h, turn))
       case Ending(LoadFailed) => LosesAgent(h, turn)
       case Ending(PromptFailed(disconnect)) =>
         && EndOf(h, turn).Some? && EndOf(h, turn).value.PromptReturned?
         && (if disconnect then LosesAgent(h, turn) else Breaks(h, turn))
       case Ending(Answer(marker)) => AnswerTo(h, turn) == Some(marker)
       case _ => true
  }

  predicate DecisionFacts(h: History, d: Decided) {
    && (d.resolved && d.failed ==> Undelivered(h, d.approvalID))
    && (!d.resolved ==> DecisionOn(h, d.approvalID) == Some(d.decide))
  }

  /** The dispatcher's copy is the dispatched record, without its phase. */
  predicate DispatchFacts(h: History, d: Dispatch) {
    && FirstJob(h).Some? && Dispatched(FirstJob(h).value)
    && (!d.Over? ==>
          && (CopyWritten(h) <==> d.Waiting?)
          && d.copy == FirstJob(h).value.(phase := NoPhase, state := d.copy.state))
  }

  /** The waiting items are the accepted ones. */
  ghost predicate Items(s: Shared) {
    forall i | 0 <= i < |s.rt.queue| ::
      && s.rt.queue[i].number < s.accepted
      && AcceptedAs(s.log, s.rt.queue[i].number).Some?
      && AcceptedAs(s.log, s.rt.queue[i].number).value.(gen := s.rt.queue[i].gen) == s.rt.queue[i]
  }

  ghost predicate Sound(w: World) {
    && Told(w.s.log)
    && LastJob(w.s.log) == Some(w.s.job)
    && TurnOf(w.s.log) == (if w.s.rt.busy then Some(w.s.rt.turnID) else None)
    && (w.s.rt.busy <==> w.s.rt.turnID != 0)
    && Flags(w.s.log, w.s.job)
    && (forall t | t in w.turns :: TurnFacts(w.s.log, t, w.turns[t]))
    && (forall k | k in w.decisions :: DecisionFacts(w.s.log, w.decisions[k]))
    && DispatchFacts(w.s.log, w.dispatch) && Items(w.s)
  }

  /** A turn in flight has not been written as returned. */
  ghost predicate Records(w: World) {
    Sound(w) && (w.s.rt.busy ==> !w.s.job.phase.ReturnedPhase?)
  }

  // ---------------------------------------------------------------- what keeps it

  /** Events that these facts do not look at. */
  predicate Neutral(e: Event) {
    !e.Committed? && !e.Accepted? && !e.Dequeued? && !e.TurnEnded? && !e.Crashed? && !e.Resolved? && !e.RecordRead?
      && !e.SetupBroke? && !e.PromptReturned?
  }

  lemma NoteRecords(w: World, e: Event)
    requires Records(w) && Neutral(e)
    ensures Records(w.(s := Note(w.s, e)))
  {
  }

  lemma SameRecords(w: World, s': Shared)
    requires Records(w) && s'.log == w.s.log && s'.job == w.s.job && s'.rt.busy == w.s.rt.busy
      && s'.rt.turnID == w.s.rt.turnID && Items(s')
    ensures Records(w.(s := s'))
  {
  }

  /** An answer leaves one of four states. */
  lemma AnswersDecide(p: History, b: Job, a: Job, w: Writer)
    ensures w.ByTurn? && Answers(p, b, a, w.turn) ==>
      a.state.Blocked? || a.state.NeedsInput? || a.state.Completed? || a.state.Executing?
  {
    if w.ByTurn? && Answers(p, b, a, w.turn) {
      match AnswerTo(p, w.turn).value
      case None =>
      case Some(m) => assert m.MarkerWorking? || m.MarkerNeedsInput? || m.MarkerCompleted? || m.MarkerBlocked?;
    }
  }

  /** A turn that writes back what it had read writes no cancellation and nothing that the record cancels. */
  predicate HonestCopy(p: History, b: Job, w: Writer) {
    w.ByTurnCopy? ==>
      ReadBy(p, w.turn).Some? && ReadFacts(p, w.turn, ReadBy(p, w.turn).value)
        && !ReadBy(p, w.turn).value.userCancelled && !b.userCancelled
  }

  /** A write that has its cause keeps approval and cancellation in step with the decisions. */
  lemma WriteFlags(p: History, b: Job, a: Job, w: Writer)
    requires Flags(p, b) && Writes(p, b, a, w) && HonestCopy(p, b, w)
    ensures Flags(Then(p, Committed(a, w)), a)
  {
    AnswersDecide(p, b, a, w);
  }

  lemma WriteSettles(p: History, b: Job, a: Job, w: Writer)
    requires Writes(p, b, a, w) && LastJob(p) == Some(b)
    ensures w.ByTurn? && a.phase.ReturnedPhase? && !b.phase.ReturnedPhase? ==> Answers(p, b, a, w.turn)
    ensures w.ByDecision? <==>
      a.approval.delivery.Submitted? && !(b.approval.delivery.Submitted? && a.approval.id == b.approval.id)
    ensures a.state.Cancelled? && !b.state.Cancelled? ==> w.ByDecision?
  {
    AnswersDecide(p, b, a, w);
  }

  lemma CommitTold(p: History, b: Job, a: Job, who: Writer)
    requires Told(p) && LastJob(p) == Some(b) && Flags(p, b)
    requires Writes(p, b, a, who) && HonestCopy(p, b, who)
    requires who.ByTurn? && a.phase.ReturnedPhase? ==> Answers(p, b, a, who.turn)
    ensures Told(Then(p, Committed(a, who))) && Flags(Then(p, Committed(a, who)), a)
  {
    WriteFlags(p, b, a, who);
    WriteSettles(p, b, a, who);
    hide Answers, ReadFacts, Approved, PlanWasCancelled;
  }

  /** The write `a` is one that the writer may make now. */
  ghost predicate Fits(w: World, a: Job, who: Writer) {
    && Writes(w.s.log, w.s.job, a, who) && HonestCopy(w.s.log, w.s.job, who)
    && (w.s.rt.busy ==> !a.phase.ReturnedPhase?)
    && (who.ByTurn? && a.phase.ReturnedPhase? ==> Answers(w.s.log, w.s.job, a, who.turn))
    && (who.ByDecision? ==> forall k | k in w.decisions ::
          !w.decisions[k].resolved ==> w.decisions[k].approvalID != who.decision.approvalID)
    && (who.ByDispatchCopy? ==> w.dispatch.Over?)
  }

  lemma EventKeepsTurn(h: History, e: Event, turn: Id, t: Turn)
    requires TurnFacts(h, turn, t) && !e.Dequeued? && !e.RecordRead? && !e.SetupBroke? && !e.PromptReturned?
    ensures TurnFacts(Then(h, e), turn, t)
  {
  }

  lemma CommitRecords(w: World, job: Job, phase: Phase, who: Writer, ok: bool)
    requires if ok then Sound(w) && Fits(w, Stamped(w.s.job, job, phase), who) else Records(w)
    ensures Records(w.(s := Commit(w.s, job, phase, who, ok)))
  {
    if ok {
      var a := Stamped(w.s.job, job, phase);
      CommitTold(w.s.log, w.s.job, a, who);
      forall t | t in w.turns ensures TurnFacts(Then(w.s.log, Committed(a, who)), t, w.turns[t]) {
        EventKeepsTurn(w.s.log, Committed(a, who), t, w.turns[t]);
      }
      hide Told, Flags, Writes, HonestCopy, Answers, TurnFacts;
    }
  }

  lemma AcceptRecords(w: World, item: Item)
    requires Records(w) && Accepts(w.s.log, item) && item.number == w.s.accepted
    ensures Records(w.(s := Note(w.s, Accepted(item))))
  {
  }

  // ---------------------------------------------------------------- sections

  lemma EnqueueRecords(w: World, q: Item, acceptedJob: Option<Job>, newID: Id, who: Writer, ok: bool)
    requires Records(w)
    requires var j := if acceptedJob.Some? then acceptedJob.value else w.s.job;
      var a, item := Stamped(w.s.job, j, NoPhase), q.(number := w.s.accepted, gen := w.s.rt.gen,
        requestID := RequestOr(w.s, q.requestID, newID));
      !w.s.closed && ok ==> Fits(w, a, who) && Accepts(Then(w.s.log, Committed(a, who)), item)
    ensures Records(w.(s := Enqueue(w.s, q, acceptedJob, newID, who, ok)))
  {
    if !w.s.closed && ok {
      var j := if acceptedJob.Some? then acceptedJob.value else w.s.job;
      var item := q.(number := w.s.accepted, gen := w.s.rt.gen, requestID := RequestOr(w.s, q.requestID, newID));
      var w1 := w.(s := Commit(w.s, j, NoPhase, who, true));
      CommitRecords(w, j, NoPhase, who, true);
      AcceptRecords(w1, item);
      var w2 := w1.(s := Note(w1.s, Accepted(item)));
      var s' := Enqueue(w.s, q, acceptedJob, newID, who, ok);
      assert Items(w2.s) && Items(s');
      hide Records, Items;
      SameRecords(w2, s');
    }
  }

  lemma SaveRecords(w: World, job: Job, who: Writer, ok: bool)
    requires Records(w) && (ok ==> Fits(w, Stamped(w.s.job, job.(activeTurnID := w.s.rt.turnID), NoPhase), who))
    ensures Records(w.(s := Save(w.s, job, who, ok)))
  {
    CommitRecords(w, job.(activeTurnID := w.s.rt.turnID), NoPhase, who, ok);
  }

  lemma FollowupRecords(w: World, requestID: Id, planning: bool, live: bool, ok: bool)
    requires Records(w)
    ensures Records(w.(s := Followup(w.s, requestID, planning, live, ok)))
  {
    hide Told, Flags, TurnFacts, DecisionFacts, DispatchFacts, Items, LastJob;
    var s := w.s;
    var j := s.job.(requestID := requestID, pause := NoPause, resultTurnID := 0, state := JobState.Executing);
    var k := if planning then j.(state := JobState.Planning, approval := j.approval.(approved := false, content := ""))
      else j;
    var acceptedJob := if !s.rt.busy && !Held(s.job, live) then Some(k) else None;
    if !(s.job.state.Cancelled? || (s.job.state.PlanReady? && s.job.pause != ApprovalExpired)) {
      EnqueueRecords(w, Item(0, FollowupItem, true, planning, 0, requestID), acceptedJob, 0,
        ByFollowup(planning, live), ok);
    }
  }

  /** A durable row that is queued again. */
  function Restored(row: (Id, bool)): Item {
    Item(0, FollowupItem, true, row.1, 0, row.0)
  }

  lemma RestoreRecords(w: World, row: (Id, bool))
    requires Records(w) && w.s.log.Then? && w.s.log.event.Accepted?
    ensures var s' := Enqueue(w.s, Restored(row), None, 0, ByCaller, true);
      Records(w.(s := s')) && s'.log.Then? && s'.log.event.Accepted?
  {
    hide Told, Flags, TurnFacts, DecisionFacts, DispatchFacts, Items, LastJob;
    EnqueueRecords(w, Restored(row), None, 0, ByCaller, true);
  }

  lemma {:induction false} EnqueueAllRecords(w: World, rows: seq<(Id, bool)>)
    requires Records(w) && w.s.log.Then? && w.s.log.event.Accepted?
    ensures Records(w.(s := EnqueueAll(w.s, rows)))
    decreases |rows|
  {
    hide Records, Enqueue;
    if rows != [] {
      if rows[0].0 == w.s.job.requestID {
        EnqueueAllRecords(w, rows[1..]);
      } else {
        RestoreRecords(w, rows[0]);
        EnqueueAllRecords(w.(s := Enqueue(w.s, Restored(rows[0]), None, 0, ByCaller, true)), rows[1..]);
      }
    }
  }

  lemma ContinueRecords(w: World, planning: bool, live: bool, rows: seq<(Id, bool)>, newID: Id, ok: bool)
    requires Records(w)
    ensures Records(w.(s := Continue(w.s, planning, live, rows, newID, ok)))
  {
    hide Told, Flags, TurnFacts, DecisionFacts, DispatchFacts, Items, LastJob;
    var s := w.s;
    var q := Item(0, ContinueItem, true, planning, 0, s.job.requestID);
    var j := s.job.(state := JobState.Executing, pause := NoPause, approval := s.job.approval.(delivery := NoDelivery));
    var k := if planning then j.(state := JobState.Planning, approval := j.approval.(approved := false)) else j;
    if AcceptsTurnControl(s.job) && !(s.job.state.PlanReady? && s.job.pause != ApprovalExpired) {
      if Held(s.job, live) {
        EnqueueRecords(w, q, None, newID, ByContinue(planning, live), ok);
      } else {
        EnqueueRecords(w, q, Some(k), newID, ByContinue(planning, live), ok);
        if ok && !s.closed {
          hide Records;
          EnqueueAllRecords(w.(s := Enqueue(s, q, Some(k), newID, ByContinue(planning, live), ok)), rows);
        }
      }
    }
  }

  lemma CancelRequestRecords(w: World, requestID: Id, turnID: Id, persisted: bool, updated: bool)
    requires Records(w)
    ensures Records(w.(s := CancelRequest(w.s, requestID, turnID, persisted, updated)))
  {
    hide Told, Flags, TurnFacts, DecisionFacts, DispatchFacts, CancelTarget;
    NoteRecords(w, Removed(Numbers(Only(w.s.rt.queue, requestID))));
    RunQueue.WithoutMembers(w.s.rt.queue, requestID);
    var s1 := Note(w.s, Removed(Numbers(Only(w.s.rt.queue, requestID))));
    var s' := s1.(rt := s1.rt.(queue := Without(w.s.rt.queue, requestID)));
    assert Items(s1);
    FewerItems(s1, s'.rt.queue);
    SameRecords(w.(s := s1), s');
  }

  lemma FewerItems(s: Shared, q: seq<Item>)
    requires Items(s) && forall x :: x in q ==> x in s.rt.queue
    ensures Items(s.(rt := s.rt.(queue := q)))
  {
    forall i | 0 <= i < |q| ensures q[i] in s.rt.queue { assert q[i] in q; }
  }

  lemma CancelStartRecords(w: World, expected: Id, ok: bool)
    requires Records(w) && CancelStarts(w.s, expected)
    ensures Records(w.(s := CancelStart(w.s, expected, ok)))
  {
    hide Told, Flags, TurnFacts, DecisionFacts, DispatchFacts, LastJob;
    NoteRecords(w, Bumped(CancelledTurn));
    var s1 := Note(w.s, Bumped(CancelledTurn)).(rt := CancelStart(w.s, expected, ok).rt);
    SameRecords(w.(s := Note(w.s, Bumped(CancelledTurn))), s1);
    hide Items;
    SaveRecords(w.(s := s1), w.s.job.(state := JobState.NeedsInput, pause := CancelDelivery), ByCaller, ok);
  }

  lemma CancelFinishRecords(w: World, generation: nat, failed: bool, ok: bool)
    requires Records(w)
    ensures Records(w.(s := CancelFinish(w.s, generation, failed, ok)))
  {
    hide Told, Flags, TurnFacts, DecisionFacts, DispatchFacts, Items, LastJob;
    var s1 := w.s.(rt := w.s.rt.(controlPending := false));
    OpenGate(w);
    var j := w.s.job.(pause := if failed then CancelUnknown else NoPause);
    SaveRecords(w.(s := s1), j, ByOutcome(failed), ok);
    var s2 := if w.s.rt.gen == generation then Save(s1, j, ByOutcome(failed), ok) else s1;
    hide Records, Save;
    KickRecords(w.(s := s2));
  }

  lemma OpenGate(w: World)
    requires Records(w)
    ensures Records(w.(s := w.s.(rt := w.s.rt.(controlPending := false))))
  {
    SameRecords(w, w.s.(rt := w.s.rt.(controlPending := false)));
  }

  lemma KickRecords(w: World)
    requires Records(w)
    ensures Records(w.(s := Kick(w.s)))
  {
    SameRecords(w, Kick(w.s));
  }

  /** A decision is the first on its approval. */
  lemma SubmitRecords(w: World, d: Decision, pending: Option<PlanRequest>)
    requires Records(w) && RunApprovals.ApprovalInv(w) && Decidable(w.s, d, pending)
    ensures Records(w.(s := PlanSubmit(w.s, d, pending, true)))
  {
    hide Told, TurnFacts, DecisionFacts, DispatchFacts, Items, LastJob;
    assert !w.s.job.userCancelled && !w.s.job.approval.approved;
    assert forall k | k in w.decisions :: !w.decisions[k].resolved ==> w.decisions[k].approvalID != d.approvalID;
    hide Flags;
    SaveRecords(w, SubmittedJob(w.s.job, d.decide), ByDecision(d), true);
  }

  lemma PlanFinishRecords(w: World, key: nat, ok: bool)
    requires Records(w) && key in w.decisions && w.decisions[key].resolved
    ensures var d := w.decisions[key]; Records(w.(s := PlanFinish(w.s, d.approvalID, d.decide, d.failed, ok)))
  {
    hide Told, Flags, TurnFacts, DispatchFacts, LastJob;
    var s, d := w.s, w.decisions[key];
    assert d.failed ==> Undelivered(s.log, d.approvalID);
    var stillOpen := d.failed && s.job.approval.id == d.approvalID && s.job.approval.delivery == Submitted;
    var j := s.job.(state := JobState.NeedsInput, pause := ApprovalUnknown,
                    approval := s.job.approval.(delivery := Unknown, approved := false));
    if stillOpen { SaveRecords(w, j, ByUndelivered, ok); }
    hide Items;
    var s1 := if stillOpen then Save(s, j, ByUndelivered, ok) else s;
    hide Records, Save;
    ClearRecords(w.(s := s1), Bumped(PlanCancelled), Numbers(s.rt.queue),
      PlanFinish(s, d.approvalID, CancelPlan, d.failed, ok));
  }

  /** The fence moves and the queue is cleared. */
  lemma ClearRecords(w: World, e: Event, numbers: seq<nat>, s': Shared)
    requires Records(w) && e.Bumped?
    ensures Cleared(w.s, e, numbers, s') ==> Records(w.(s := s'))
  {
    NoteRecords(w, e);
    NoteRecords(w.(s := Note(w.s, e)), Removed(numbers));
    if Cleared(w.s, e, numbers, s') { SameRecords(w.(s := Note(Note(w.s, e), Removed(numbers))), s'); }
  }

  predicate Cleared(s: Shared, e: Event, numbers: seq<nat>, s': Shared) {
    && s'.log == Then(Then(s.log, e), Removed(numbers)) && s'.job == s.job && s'.rt.queue == []
    && s'.rt.busy == s.rt.busy && s'.rt.turnID == s.rt.turnID
  }

  lemma ApprovalRecords(w: World, p: PlanRequest, content: string, ok: bool)
    requires Records(w) && !ApprovalSeen(w.s.log, p.id) && Prompted(w.s.log, p.turnID)
    ensures Records(w.(s := OnApproval(w.s, p, content, ok)))
  {
    hide Told, Flags, TurnFacts, DecisionFacts, DispatchFacts, Items, LastJob;
    var s := w.s;
    if ApprovalValid(s, p) && p.id != s.job.approval.id {
      var j := s.job.(state := JobState.PlanReady, pause := if content == "" then PlanContentMissing else ApprovalPause,
                      approval := Protocol.Approval(p.id, p.connectionID, p.supportsNotes, Pending, false,
                                                    s.job.approval.planVersion + 1, p.turnID, content));
      SaveRecords(w, j, ByApproval, ok);
    }
  }

  lemma DisconnectFits(w: World, who: Writer)
    requires Records(w) && (who.ByCaller? || (who.ByTurn? && !w.s.rt.busy && LosesAgent(w.s.log, who.turn)))
    requires who.ByTurn? ==> !w.s.job.phase.ReturnedPhase?
    requires !w.s.job.userCancelled
    ensures var w0 := w.(s := Note(w.s, ViewReset));
      Fits(w0, Stamped(w.s.job, DisconnectedJob(w.s.job).(activeTurnID := w.s.rt.turnID), NoPhase), who)
  {
    hide Told, TurnFacts, DecisionFacts, DispatchFacts, Items, LastJob;
    assert w.s.job.state.PlanReady? ==> !w.s.job.approval.delivery.Submitted?;
    assert w.s.job.phase.ReturnedPhase? ==> !w.s.rt.busy && who.ByCaller?;
    assert who.ByTurn? ==> LosesAgent(Then(w.s.log, ViewReset), who.turn);
    hide LosesAgent, Flags;
  }

  lemma DisconnectRecords(w: World, who: Writer, ok: bool)
    requires Records(w) && (who.ByCaller? || (who.ByTurn? && !w.s.rt.busy && LosesAgent(w.s.log, who.turn)))
    requires who.ByTurn? ==> !w.s.job.phase.ReturnedPhase?
    ensures Records(w.(s := DisconnectLocked(w.s, who, ok)))
  {
    if !w.s.job.userCancelled {
      var w0 := w.(s := Note(w.s, ViewReset));
      NoteRecords(w, ViewReset);
      DisconnectFits(w, who);
      hide Records, Fits, LosesAgent, DisconnectedJob;
      SaveRecords(w0, DisconnectedJob(w.s.job), who, ok);
      hide Save;
      ClearRecords(w.(s := Save(w0.s, DisconnectedJob(w.s.job), who, ok)), Bumped(Disconnect), Numbers(w.s.rt.queue),
        DisconnectLocked(w.s, who, ok));
    }
  }

  // ---------------------------------------------------------------- turns

  /** A turn is taken with the item that was accepted under its number. */
  lemma DequeueRecords(w: World, turn: Id, s': Shared)
    requires Sound(w) && !w.s.rt.busy && w.s.rt.queue != [] && turn != 0 && w.turns == map[]
    requires s'.log == Then(w.s.log, Dequeued(turn, w.s.rt.queue[0])) && s'.job == w.s.job
    requires s'.rt.busy && s'.rt.turnID == turn && s'.rt.queue == w.s.rt.queue[1..] && s'.accepted == w.s.accepted
    ensures Sound(w.(s := s', turns := map[turn := Turn(w.s.rt.queue[0], Taken)]))
  {
  }

  /** The end of a turn: no turn is in flight. */
  lemma EndRecords(w: World, s': Shared)
    requires Sound(w) && w.s.rt.busy && s'.log == Then(w.s.log, TurnEnded(w.s.rt.turnID)) && s'.job == w.s.job
    requires !s'.rt.busy && s'.rt.turnID == 0 && s'.rt.queue == w.s.rt.queue && s'.accepted == w.s.accepted
    ensures Records(w.(s := s'))
  {
  }

  lemma FewerTurns(w: World, turns': map<Id, Turn>)
    requires Records(w) && forall t | t in turns' :: t in w.turns && turns'[t] == w.turns[t]
    ensures Records(w.(turns := turns'))
  {
  }

  lemma TakeRecords(w: World, turn: Id, ok: bool)
    requires Records(w) && w.s.heads > 0 && w.s.rt.queue != [] && !w.s.rt.busy && !w.s.job.state.PlanReady? && turn != 0
      && w.turns == map[]
    ensures var s' := Take(w.s, turn, ok);
      Records(w.(s := s', turns := if ok then map[turn := Turn(w.s.rt.queue[0], Taken)] else map[]))
  {
    var item := w.s.rt.queue[0];
    var up := Note(w.s, Dequeued(turn, item)).(rt := Take(w.s, turn, true).rt, heads := w.s.heads - 1);
    var w1 := w.(s := up, turns := map[turn := Turn(item, Taken)]);
    DequeueRecords(w, turn, up);
    hide Told, Flags, TurnFacts, DecisionFacts, DispatchFacts, Items, LastJob;
    if ok {
      CommitRecords(w1, PreparedJob(w.s.job, item, turn), PreparingPhase, ByTurn(turn), true);
    } else {
      EndRecords(w1, Take(w.s, turn, false));
      FewerTurns(w1.(s := Take(w.s, turn, false)), map[]);
    }
  }

  lemma PumpRecords(w: World, turn: Id, live: bool, ok: bool)
    requires Records(w) && (w.turns != map[] ==> w.s.rt.busy)
    ensures Records(NextTurn(w, PumpGo(turn, live, ok)))
  {
    if w.s.heads > 0 && turn != 0 && !TurnSeen(w.s.log, turn) {
      if GateOf(w.s, live).NotYet? {
        TakeRecords(w, turn, ok);
        hide Records, Take;
      } else {
        SameRecords(w, PumpTop(w.s, turn, live, ok));
        hide Records, GateOf;
      }
    }
  }

  lemma MarkRecords(w: World, turn: Id, ok: bool)
    requires Records(w) && (turn in w.turns ==> w.s.rt.busy && w.s.rt.turnID == turn)
    ensures Records(NextTurn(w, MarkTurn(turn, ok)))
  {
    hide Told, Flags, TurnFacts, DecisionFacts, DispatchFacts, Items, LastJob;
    if turn in w.turns {
      CommitRecords(w, w.s.job.(activeTurnID := turn), SentPhase, ByTurn(turn), true);
      hide Records, Fenced;
      StageRecords(w, turn, Ending(Nothing));
      StageRecords(w.(s := MarkSent(w.s, turn, true)), turn, Marked);
    }
  }

  /** The stages of which the history says no more than the item. */
  predicate Plain(st: Stage) {
    st.Taken? || st.Marked? || st.Prompting? || (st.Ending? && (st.finish.Nothing? || st.finish.Reenqueue?))
  }

  lemma StageRecords(w: World, turn: Id, st: Stage)
    requires Records(w) && turn in w.turns && Plain(st)
    ensures Records(WithStage(w, turn, st))
  {
  }

  lemma CallRecords(w: World, turn: Id)
    requires Records(w)
    ensures Records(NextTurn(w, CallPrompt(turn)))
  {
    NoteRecords(w, PromptCalled(turn));
    hide Records;
    if turn in w.turns { StageRecords(w.(s := Note(w.s, PromptCalled(turn))), turn, Prompting); }
  }

  /** The record that a turn reads is the one that its copy is. */
  lemma ReadRecords(w: World, turn: Id)
    requires Records(w) && turn in w.turns && w.turns.Keys == {turn}
    ensures Records(WithStage(w, turn, Preparing(w.s.job)).(s := Note(w.s, RecordRead(turn))))
  {
  }

  /** An event of one turn leaves what the history says of everything else. */
  lemma TurnNoteRecords(w: World, turn: Id, e: Event, st: Stage)
    requires Records(w) && turn in w.turns && w.turns.Keys == {turn}
    requires (e.SetupBroke? || e.PromptReturned?) && e.turn == turn
    requires TurnFacts(Then(w.s.log, e), turn, w.turns[turn].(stage := st))
    ensures Records(WithStage(w, turn, st).(s := Note(w.s, e)))
  {
    hide TurnFacts;
  }

  lemma BreakFacts(h: History, turn: Id, t: Turn, copy: Job, loading: bool, disconnect: bool)
    requires ReadFacts(h, turn, copy) && ItemOf(h, turn) == Some(t.item)
    ensures var broken := loading && !t.item.kind.PlanItem?;
      TurnFacts(Then(h, SetupBroke(turn, loading, disconnect)), turn,
        t.(stage := Ending(if broken then LoadFailed else SetupFailed(disconnect, copy))))
  {
  }

  lemma BreakRecords(w: World, turn: Id, loading: bool, disconnect: bool)
    requires Records(w) && turn in w.turns && w.turns.Keys == {turn} && w.turns[turn].stage.Preparing?
    ensures Records(NextTurn(w, SetupFails(turn, loading, disconnect)))
  {
    assert TurnFacts(w.s.log, turn, w.turns[turn]);
    hide Records, ReadFacts;
    BreakFacts(w.s.log, turn, w.turns[turn], w.turns[turn].stage.copy, loading, disconnect);
    hide TurnFacts;
    TurnNoteRecords(w, turn, SetupBroke(turn, loading, disconnect),
      NextTurn(w, SetupFails(turn, loading, disconnect)).turns[turn].stage);
  }

  lemma ReturnRecords(w: World, turn: Id, failed: bool, disconnect: bool, marker: Option<TaskMarker>)
    requires Records(w) && turn in w.turns && w.turns.Keys == {turn} && w.turns[turn].stage.Prompting?
    ensures Records(NextTurn(w, PromptReturns(turn, failed, disconnect, marker)))
  {
    var e := PromptReturned(turn, failed, disconnect, marker);
    var st := NextTurn(w, PromptReturns(turn, failed, disconnect, marker)).turns[turn].stage;
    assert TurnFacts(w.s.log, turn, w.turns[turn]);
    hide Sound;
    assert TurnFacts(Then(w.s.log, e), turn, w.turns[turn].(stage := st));
    hide Records, TurnFacts;
    TurnNoteRecords(w, turn, e, st);
  }

  lemma MoveRecords(w: World, a: TurnAction)
    requires Records(w) && RunTurns.Moves(a) && (a.turn in w.turns ==> w.turns.Keys == {a.turn})
    ensures Records(NextTurn(w, a))
  {
    hide Records;
    if a.turn in w.turns && NextTurn(w, a) != w {
      match a
      case ReadJob(turn) =>
        ReadRecords(w, turn);
        StageRecords(w, turn, Ending(Nothing));
        StageRecords(w, turn, Ending(Reenqueue));
      case SetupFails(turn, loading, disconnect) => BreakRecords(w, turn, loading, disconnect);
      case PromptReturns(turn, failed, disconnect, marker) => ReturnRecords(w, turn, failed, disconnect, marker);
    }
  }

  lemma CopyFits(w: World, turn: Id, copy: Job)
    requires Records(w) && !w.s.rt.busy && !w.s.job.userCancelled && !copy.userCancelled
    requires ReadFacts(w.s.log, turn, copy) && EndOf(w.s.log, turn).Some? && EndOf(w.s.log, turn).value.SetupBroke?
      && Breaks(w.s.log, turn)
    ensures Fits(w, Stamped(w.s.job, FailedJob(copy).(activeTurnID := w.s.rt.turnID), NoPhase), ByTurnCopy(turn))
  {
    hide Told, TurnFacts, DecisionFacts, DispatchFacts, Items, LastJob, Flags, Breaks, EndOf;
  }

  lemma PromptFailedRecords(w: World, turn: Id, ok: bool)
    requires Records(w) && !w.s.rt.busy && !w.s.job.phase.ReturnedPhase?
    requires EndOf(w.s.log, turn).Some? && EndOf(w.s.log, turn).value.PromptReturned? && Breaks(w.s.log, turn)
      && !LosesAgent(w.s.log, turn)
    requires w.s.log.Then? && !w.s.log.event.ViewReset?
    ensures Records(w.(s := Save(w.s, FailedJob(w.s.job), ByTurn(turn), ok)))
  {
    hide Told, TurnFacts, DecisionFacts, DispatchFacts, Items, LastJob, Flags, Breaks, EndOf;
    SaveRecords(w, FailedJob(w.s.job), ByTurn(turn), ok);
  }

  /** Nothing waits exactly if everything accepted is gone. */
  lemma NothingWaits(s: Shared)
    requires RunQueue.Conserved(s.log, s.rt.queue, s.accepted)
    ensures s.rt.queue == [] <==> RunQueue.AcceptedBag(s.log) == RunQueue.GoneBag(s.log)
  {
    if s.rt.queue == [] {
      assert Numbers(s.rt.queue) == [];
    } else {
      assert Numbers(s.rt.queue)[0] in multiset(Numbers(s.rt.queue));
    }
  }

  lemma AnswerFits(w: World, turn: Id, marker: Option<TaskMarker>)
    requires Records(w) && !w.s.rt.busy && AnswerTo(w.s.log, turn) == Some(marker)
    requires RunQueue.Conserved(w.s.log, w.s.rt.queue, w.s.accepted)
    ensures Fits(w, Stamped(w.s.job, AnsweredJob(w.s, turn, marker), ReturnedPhase), ByTurn(turn))
  {
    NothingWaits(w.s);
    hide Told, TurnFacts, DecisionFacts, DispatchFacts, Items, LastJob, Flags, AnswerTo;
  }

  lemma AnswerRecords(w: World, item: Item, turn: Id, marker: Option<TaskMarker>, cancelledRequest: bool, ok: bool,
    ok2: bool)
    requires Records(w) && !w.s.rt.busy && TurnFacts(w.s.log, turn, Turn(item, Ending(Answer(marker))))
    requires RunQueue.Conserved(w.s.log, w.s.rt.queue, w.s.accepted)
    ensures Records(w.(s := ApplyResult(w.s, item, turn, marker, cancelledRequest, ok, ok2)))
  {
    AnswerFits(w, turn, marker);
    CommitRecords(w, AnsweredJob(w.s, turn, marker), ReturnedPhase, ByTurn(turn), ok);
    if ok {
      var w1 := w.(s := Commit(w.s, AnsweredJob(w.s, turn, marker), ReturnedPhase, ByTurn(turn), true));
      hide Told, DecisionFacts, DispatchFacts, Items, LastJob, Flags;
      if marker == Some(MarkerWorking) && w1.s.job.view.owner.SupervisorOwner? {
        var h := Then(w1.s.log, Committed(w1.s.job, ByTurn(turn)));
        assert ItemOf(w1.s.log, turn) == Some(item) && AnswerTo(w1.s.log, turn) == Some(marker);
        assert ItemOf(h, turn) == Some(item) && AnswerTo(h, turn) == Some(marker);
        hide ItemOf, AnswerTo;
        EnqueueRecords(w1, Item(0, ContinueItem, false, false, 0, item.requestID), None, 0, ByTurn(turn), ok2);
      }
    }
  }

  lemma RequeueRecords(w: World, item: Item, turn: Id, ok: bool)
    requires Records(w) && !w.s.rt.busy && ItemOf(w.s.log, turn) == Some(item)
    ensures Records(w.(s := Enqueue(w.s, item, None, 0, ByRequeue(turn), ok)))
  {
    hide Told, TurnFacts, DecisionFacts, DispatchFacts, Items, LastJob, Flags;
    EnqueueRecords(w, item, None, 0, ByRequeue(turn), ok);
  }

  /** A turn just ended, with what the history says of it. */
  predicate JustEnded(s: Shared, item: Item, turn: Id, f: Finish) {
    && !s.rt.busy && s.log.Then? && s.log.event == TurnEnded(turn) && !s.job.phase.ReturnedPhase?
    && TurnFacts(s.log, turn, Turn(item, Ending(f)))
    && (f.SetupFailed? ==> !f.copy.userCancelled && !s.job.userCancelled)
  }

  lemma SetupRecords(w: World, item: Item, turn: Id, f: Finish, ok: bool)
    requires Records(w) && JustEnded(w.s, item, turn, f) && (f.LoadFailed? || f.SetupFailed?)
    ensures Records(w.(s := RunFinish(w.s, item, turn, f, false, ok, false)))
  {
    if !Fenced(w.s, item) {
      if f.LoadFailed? || f.disconnect {
        DisconnectRecords(w, ByTurn(turn), ok);
      } else {
        CopyFits(w, turn, f.copy);
        hide Records, Fits, FailedJob;
        SaveRecords(w, FailedJob(f.copy), ByTurnCopy(turn), ok);
      }
    }
  }

  lemma BrokenRecords(w: World, item: Item, turn: Id, disconnect: bool, ok: bool)
    requires Records(w) && JustEnded(w.s, item, turn, PromptFailed(disconnect))
    ensures Records(w.(s := RunFinish(w.s, item, turn, PromptFailed(disconnect), false, ok, false)))
  {
    hide Records;
    if !Fenced(w.s, item) {
      if disconnect { DisconnectRecords(w, ByTurn(turn), ok); } else { PromptFailedRecords(w, turn, ok); }
    }
  }

  lemma FinishRecords(w: World, item: Item, turn: Id, f: Finish, cancelledRequest: bool, ok: bool, ok2: bool)
    requires Records(w) && JustEnded(w.s, item, turn, f)
    requires RunQueue.Conserved(w.s.log, w.s.rt.queue, w.s.accepted)
    ensures Records(w.(s := RunFinish(w.s, item, turn, f, cancelledRequest, ok, ok2)))
  {
    hide Records;
    match f
    case Nothing =>
    case Reenqueue => RequeueRecords(w, item, turn, ok);
    case LoadFailed => SetupRecords(w, item, turn, f, ok);
    case SetupFailed(_, _) => SetupRecords(w, item, turn, f, ok);
    case PromptFailed(disconnect) => BrokenRecords(w, item, turn, disconnect, ok);
    case Answer(marker) => AnswerRecords(w, item, turn, marker, cancelledRequest, ok, ok2);
  }

  lemma FinishTurnRecords(w: World, turn: Id, cancelledRequest: bool, ok: bool, ok2: bool)
    requires Records(w) && RunQueue.QueueInv(w.s) && RunTurns.TurnInv(w) && turn in w.turns
      && w.turns[turn].stage.Ending?
    ensures Records(NextTurn(w, FinishTurn(turn, cancelledRequest, ok, ok2)))
  {
    var t := w.turns[turn];
    var s1 := Note(w.s, TurnEnded(turn)).(rt := w.s.rt.(busy := false, ctxDone := false, turnID := 0));
    var w1 := w.(s := s1);
    EndRecords(w, s1);
    EndedFacts(w, turn, s1);
    var s2 := RunFinish(s1, t.item, turn, t.stage.finish, cancelledRequest, ok, ok2);
    var s3 := EndTurn(w.s, t.item, turn, t.stage.finish, cancelledRequest, ok, ok2);
    hide RunTurns.TurnInv, RunQueue.QueueInv;
    hide Records, RunFinish, JustEnded;
    FinishRecords(w1, t.item, turn, t.stage.finish, cancelledRequest, ok, ok2);
    PumpsRecords(w.(s := s2), s3);
    FewerTurns(w.(s := s3), w.turns - {turn});
  }

  lemma PumpsRecords(w: World, s': Shared)
    requires Records(w) && s' == w.s.(heads := s'.heads, lastExit := s'.lastExit)
    ensures Records(w.(s := s'))
  {
    SameRecords(w, s');
  }

  lemma EndedFacts(w: World, turn: Id, s1: Shared)
    requires Records(w) && RunQueue.QueueInv(w.s) && RunTurns.TurnInv(w) && turn in w.turns
      && w.turns[turn].stage.Ending?
    requires s1 == Note(w.s, TurnEnded(turn)).(rt := w.s.rt.(busy := false, ctxDone := false, turnID := 0))
    ensures w.s.rt.busy && w.s.rt.turnID == turn
    ensures JustEnded(s1, w.turns[turn].item, turn, w.turns[turn].stage.finish)
    ensures RunQueue.Conserved(s1.log, s1.rt.queue, s1.accepted)
  {
  }

  lemma TurnRecords(w: World, a: TurnAction)
    requires Records(w) && RunQueue.QueueInv(w.s) && RunTurns.TurnInv(w)
    ensures Records(NextTurn(w, a))
  {
    assert w.turns.Keys == (if w.s.rt.busy then {w.s.rt.turnID} else {});
    hide RunTurns.TurnInv, RunQueue.QueueInv, Records;
    if RunTurns.Moves(a) {
      MoveRecords(w, a);
    } else {
      match a
      case KickPump => KickRecords(w);
      case PumpGo(turn, live, ok) => PumpRecords(w, turn, live, ok);
      case MarkTurn(turn, ok) => MarkRecords(w, turn, ok);
      case CallPrompt(turn) => CallRecords(w, turn);
      case FinishTurn(turn, cancelledRequest, ok, ok2) =>
        if turn in w.turns && w.turns[turn].stage.Ending? { FinishTurnRecords(w, turn, cancelledRequest, ok, ok2); }
    }
  }

  // ---------------------------------------------------------------- callers

  lemma ThreadRecords(w: World, w': World)
    requires Records(w) && w'.s == w.s && SameThreads(w.(cancels := w'.cancels), w')
    ensures Records(w')
  {
  }

  lemma DecideRecords(w: World, key: nat, d: Decision, pending: Option<PlanRequest>)
    requires Records(w) && RunApprovals.ApprovalInv(w) && key !in w.decisions && Decidable(w.s, d, pending)
    ensures Records(NextControl(w, Decide(key, d, pending, true)))
  {
    SubmitRecords(w, d, pending);
    var s' := PlanSubmit(w.s, d, pending, true);
    assert DecisionOn(s'.log, d.approvalID) == Some(d.decide);
    hide RunApprovals.ApprovalInv, Decidable, PlanSubmit, Told, Flags, TurnFacts, DispatchFacts, Items, LastJob;
  }

  lemma ResolveRecords(w: World, key: nat, failed: bool)
    requires Records(w) && key in w.decisions && !w.decisions[key].resolved
    ensures Records(NextControl(w, Resolve(key, failed)))
  {
    var d := w.decisions[key];
    assert DecisionOn(w.s.log, d.approvalID) == Some(d.decide);
  }

  lemma FewerDecisions(w: World, key: nat)
    requires Records(w)
    ensures Records(w.(decisions := w.decisions - {key}))
  {
  }

  lemma ControlRecords(w: World, a: ControlAction)
    requires Records(w) && RunApprovals.ApprovalInv(w)
    ensures Records(NextControl(w, a))
  {
    hide Records, RunApprovals.ApprovalInv, Followup, Continue, CancelRequest, CancelStarts, CancelStart, CancelFinish,
      Decidable, PlanSubmit, PlanFinish, OnApproval, DisconnectLocked, ApprovalSeen, Prompted;
    match a
    case DoFollowup(requestID, planning, live, ok) => FollowupRecords(w, requestID, planning, live, ok);
    case DoContinue(planning, live, rows, newID, ok) => ContinueRecords(w, planning, live, rows, newID, ok);
    case DoCancelRequest(requestID, turnID, persisted, updated) =>
      CancelRequestRecords(w, requestID, turnID, persisted, updated);
    case BeginCancel(expected, ok) =>
      if CancelStarts(w.s, expected) {
        CancelStartRecords(w, expected, ok);
        ThreadRecords(w.(s := CancelStart(w.s, expected, ok)), NextControl(w, a));
      }
    case EndCancel(generation, failed, ok) =>
      CancelFinishRecords(w, generation, failed, ok);
      if generation in w.cancels {
        ThreadRecords(w.(s := CancelFinish(w.s, generation, failed, ok)), NextControl(w, a));
      }
    case Decide(key, d, pending, ok) =>
      if key !in w.decisions && Decidable(w.s, d, pending) && ok { DecideRecords(w, key, d, pending); }
    case Resolve(key, failed) => if key in w.decisions && !w.decisions[key].resolved { ResolveRecords(w, key, failed); }
    case EndDecide(key, ok) =>
      if key in w.decisions && w.decisions[key].resolved {
        PlanFinishRecords(w, key, ok);
        var d := w.decisions[key];
        FewerDecisions(w.(s := PlanFinish(w.s, d.approvalID, d.decide, d.failed, ok)), key);
      }
    case Approval(p, content, ok) =>
      if !ApprovalSeen(w.s.log, p.id) && Prompted(w.s.log, p.turnID) { ApprovalRecords(w, p, content, ok); }
    case LoseConnection(ok) => DisconnectRecords(w, ByCaller, ok);
  }

  // ---------------------------------------------------------------- start, close and restart

  lemma NotYetStarted(w: World)
    requires RunTurns.TurnInv(w) && !w.dispatch.Over?
    ensures w.s.job.sessionID == 0 && !w.s.job.userCancelled
  {
    hide RunTurns.TurnsHold;
  }

  lemma BeginStartRecords(w: World, ok: bool)
    requires Records(w) && RunTurns.TurnInv(w) && w.dispatch.NotBegun?
    ensures Records(NextLife(w, BeginStart(ok)))
  {
    var w0 := w.(dispatch := Over);
    NotYetStarted(w);
    hide RunTurns.TurnInv, Told, Flags, TurnFacts, DecisionFacts, Items, LastJob;
    assert ok ==> Fits(w0, Stamped(w.s.job, w.dispatch.copy.(state := JobState.Starting, activeTurnID := w.s.rt.turnID),
      NoPhase), ByDispatchCopy);
    hide Fits;
    SaveRecords(w0, w.dispatch.copy.(state := JobState.Starting), ByDispatchCopy, ok);
  }

  /** The dispatcher's second write: the job has its session, or has failed without one. */
  lemma StartedFits(w: World, sessionID: Id, planning: bool)
    requires Records(w) && RunTurns.TurnInv(w) && w.dispatch.Waiting?
    ensures sessionID == 0 ==> Fits(w.(dispatch := Over), Stamped(w.s.job,
      FailedJob(w.dispatch.copy).(activeTurnID := w.s.rt.turnID), NoPhase), ByDispatchCopy)
    ensures sessionID != 0 ==> Fits(w.(dispatch := Over), Stamped(w.s.job,
      w.dispatch.copy.(sessionID := sessionID, state := if planning then JobState.Planning else JobState.Executing,
        view := w.dispatch.copy.view.(desired := Headless), activeTurnID := w.s.rt.turnID), NoPhase), ByDispatchCopy)
  {
    NotYetStarted(w);
    hide RunTurns.TurnInv, Told, Flags, TurnFacts, DecisionFacts, Items, LastJob;
  }

  lemma OverRecords(w: World)
    requires Records(w)
    ensures Records(w.(dispatch := Over))
  {
  }

  lemma LateSession(w: World, sessionID: Id, ok: bool)
    requires Records(w) && w.s.job.sessionID == 0 && sessionID != 0
    ensures Records(w.(s := Save(w.s, w.s.job.(sessionID := sessionID), BySession, ok)))
  {
    hide Told, Flags, TurnFacts, DecisionFacts, DispatchFacts, Items, LastJob;
    SaveRecords(w, w.s.job.(sessionID := sessionID), BySession, ok);
  }

  lemma FirstItem(w: World, planning: bool, requestID: Id, ok: bool)
    requires Records(w) && w.s.log.Then? && w.s.log.event.Committed?
    requires w.s.job.requestID == requestID && (planning <==> w.s.job.state.Planning?)
    ensures Records(w.(s := Enqueue(w.s, Item(0, PlanItem, false, planning, 0, requestID), None, 0, ByCaller, ok)))
  {
    hide Told, Flags, TurnFacts, DecisionFacts, DispatchFacts, Items, LastJob;
    EnqueueRecords(w, Item(0, PlanItem, false, planning, 0, requestID), None, 0, ByCaller, ok);
  }

  lemma EndStartRecords(w: World, sessionID: Id, planning: bool, ok: bool, ok2: bool)
    requires Records(w) && RunTurns.TurnInv(w) && w.dispatch.Waiting?
    ensures Records(NextLife(w, EndStart(sessionID, planning, ok, ok2)))
  {
    var w0, copy := w.(dispatch := Over), w.dispatch.copy;
    NotYetStarted(w);
    OverRecords(w);
    StartedFits(w, sessionID, planning);
    hide RunTurns.TurnInv, Records, Fits, FailedJob, Save, Enqueue;
    if w.s.rt.gen != w.dispatch.gen || w.s.closed {
      if sessionID != 0 { LateSession(w0, sessionID, ok); }
    } else if sessionID == 0 {
      SaveRecords(w0, FailedJob(copy), ByDispatchCopy, ok);
    } else if ok {
      var j := copy.(sessionID := sessionID, state := if planning then JobState.Planning else JobState.Executing,
                     view := copy.view.(desired := Headless));
      SaveRecords(w0, j, ByDispatchCopy, true);
      FirstItem(w0.(s := Save(w.s, j, ByDispatchCopy, true)), planning, copy.requestID, ok2);
    }
  }

  lemma CrashRecords(w: World, s': Shared)
    requires Records(w) && s'.log == Then(w.s.log, Crashed) && s'.job == w.s.job && s'.rt == FreshRuntime
    ensures Records(World(s', map[], {}, map[], map[], map[], Over))
  {
  }

  lemma RestRecords(w: World, ok: bool)
    requires Records(w) && !w.s.rt.busy && w.s.log.Then? && w.s.log.event.Crashed? && AwaitingResume(w.s.job) != w.s.job
    ensures Records(w.(s := Commit(w.s, AwaitingResume(w.s.job), NoPhase, ByCaller, ok)))
  {
    hide Told, TurnFacts, DecisionFacts, DispatchFacts, Items, LastJob;
    assert w.s.job.state.PlanReady? ==> !w.s.job.approval.delivery.Submitted?;
    hide Flags;
    CommitRecords(w, AwaitingResume(w.s.job), NoPhase, ByCaller, ok);
  }

  lemma RestartRecords(w: World, ok: bool)
    requires Records(w)
    ensures Records(NextLife(w, RestartService(ok)))
  {
    var s0 := Note(w.s, Removed(Numbers(w.s.rt.queue)));
    NoteRecords(w, Removed(Numbers(w.s.rt.queue)));
    var s1 := Note(s0, Crashed).(rt := FreshRuntime, closed := false, heads := 0, lastExit := NotYet);
    var w1 := World(s1, map[], {}, map[], map[], map[], Over);
    CrashRecords(w.(s := s0), s1);
    hide Records, AwaitingResume, Commit;
    if AwaitingResume(w.s.job) != w.s.job { RestRecords(w1, ok); }
  }

  lemma LifeRecords(w: World, a: LifeAction)
    requires Records(w) && RunTurns.TurnInv(w)
    ensures Records(NextLife(w, a))
  {
    hide Records, RunTurns.TurnInv, Restart, StartBegin, StartFinish;
    match a
    case BeginStart(ok) => if w.dispatch.NotBegun? { BeginStartRecords(w, ok); }
    case EndStart(sessionID, planning, ok, ok2) =>
      if w.dispatch.Waiting? { EndStartRecords(w, sessionID, planning, ok, ok2); }
    case CloseService => ClosedRecords(w);
    case RestartService(ok) => RestartRecords(w, ok);
  }

  lemma ClosedRecords(w: World)
    requires Records(w)
    ensures Records(w.(s := CloseAll(w.s)))
  {
    SameRecords(w, CloseAll(w.s));
  }

  // ---------------------------------------------------------------- views

  lemma EffectFits(w: World, s': Shared, e: Option<Event>)
    requires Records(w) && ViewEffect(w.s, s', e, true) && e.Some?
    ensures Fits(w.(s := Note(w.s, e.value)), Stamped(w.s.job, s'.job, NoPhase), ByCaller)
  {
    hide Told, Flags, TurnFacts, DecisionFacts, DispatchFacts, LastJob, Items, RuntimeAfter, ViewAfter;
  }

  lemma EffectRecords(w: World, s': Shared, e: Option<Event>, saved: bool)
    requires Records(w) && ViewEffect(w.s, s', e, saved)
    ensures Records(w.(s := s'))
  {
    var w1 := if e.Some? then w.(s := Note(w.s, e.value)) else w;
    if e.Some? { NoteRecords(w, e.value); }
    if saved { EffectFits(w, s', e); }
    hide Told, Flags, TurnFacts, DecisionFacts, DispatchFacts, LastJob, RuntimeAfter, ViewAfter, Fits;
    CommitRecords(w1, s'.job, NoPhase, ByCaller, saved);
    SameRecords(w1.(s := Commit(w1.s, s'.job, NoPhase, ByCaller, saved)), s');
  }

  lemma YieldRecords(w: World, ok: bool)
    requires Records(w)
    ensures Records(w.(s := YieldBump(w.s))) && Records(w.(s := YieldMark(w.s, ok)))
  {
    hide Told, Flags, TurnFacts, DecisionFacts, DispatchFacts, LastJob;
    NoteRecords(w, Bumped(Yielded));
    if w.s.rt.busy { SameRecords(w.(s := Note(w.s, Bumped(Yielded))), YieldBump(w.s)); }
    CommitRecords(w, YieldedJob(w.s.job), UnknownPhase, ByYield, ok);
  }

  lemma LaunchRecords(w: World, a: LaunchAction)
    requires Records(w)
    ensures Records(NextLaunch(w, a))
  {
    hide Records;
    LaunchThreads(w, a);
    if ViewOnly(a) {
      var e, saved := LaunchEffect(w, a);
      hide NextLaunch;
      EffectRecords(w, NextLaunch(w, a).s, e, saved);
    } else {
      YieldRecords(w, a.MarkYielded? && a.ok);
    }
    ThreadRecords(w.(s := NextLaunch(w, a).s), NextLaunch(w, a));
  }

  lemma DetachRecords(w: World, a: DetachAction)
    requires Records(w)
    ensures Records(NextDetach(w, a))
  {
    hide Records;
    DetachThreads(w, a);
    var e, saved := DetachEffect(w, a);
    hide NextDetach;
    EffectRecords(w, NextDetach(w, a).s, e, saved);
    ThreadRecords(w.(s := NextDetach(w, a).s), NextDetach(w, a));
  }

  // ---------------------------------------------------------------- every run

  lemma RecordsInit(job: Job)
    requires Dispatched(job)
    ensures Records(Init(job))
  {
    var h := Init(job).s.log;
    assert h == Then(Start, Committed(job, ByCaller));
    assert Explained(Start) && DecisionsStand(Start) && AnswersSettle(Start) && DecisionsSettle(Start);
    assert LastJob(Start).None? && TurnOf(h) == TurnOf(Start) && Approved(h) == Approved(Start);
    assert PlanWasCancelled(h) == PlanWasCancelled(Start) && CopyWritten(h) == CopyWritten(Start);
  }

  lemma {:induction false} RecordsRun(job: Job, actions: seq<Action>)
    requires Dispatched(job)
    ensures Records(Run(job, actions))
  {
    hide Records;
    if actions == [] {
      RecordsInit(job);
    } else {
      var before, a := actions[..|actions| - 1], actions[|actions| - 1];
      var w := Run(job, before);
      RecordsRun(job, before);
      RunTurns.TurnInvRun(job, before);
      RunQueue.QueueInvRun(job, before);
      RunApprovals.ApprovalInvRun(job, before);
      hide RunTurns.TurnInv, RunQueue.QueueInv, RunApprovals.ApprovalInv;
      match a
      case OnTurn(t) => TurnRecords(w, t);
      case OnControl(c) => ControlRecords(w, c);
      case OnLife(l) => LifeRecords(w, l);
      case OnLaunch(v) => LaunchRecords(w, v);
      case OnDetach(d) => DetachRecords(w, d);
    }
  }

  /** In every run every write has its cause, and every item accepted or dequeued is what was asked for. */
  lemma RunsExplainTheRecord(job: Job, actions: seq<Action>)
    requires Dispatched(job)
    ensures Explained(Run(job, actions).s.log)
  {
    RecordsRun(job, actions);
  }

  /** In every run, what a turn writes as returned is what the marker of its answer makes of the job. */
  lemma RunsSettleAnswers(job: Job, actions: seq<Action>)
    requires Dispatched(job)
    ensures AnswersSettle(Run(job, actions).s.log)
  {
    RecordsRun(job, actions);
  }

  /**
   In every run a submitted record is the one that writes a decision down, and does what the decision says; the agent
   is handed that decision; and approval and cancellation are what the decisions made say, at every write.
   */
  lemma RunsSettleDecisions(job: Job, actions: seq<Action>)
    requires Dispatched(job)
    ensures var s := Run(job, actions).s;
      && DecisionsSettle(s.log) && DecisionsStand(s.log)
      && (s.job.approval.approved <==> Approved(s.log)) && (s.job.userCancelled <==> PlanWasCancelled(s.log))
  {
    RecordsRun(job, actions);
  }
}
