/**
 What the durable record says when a turn is taken and when its prompt goes out, over whole runs and whatever
 came in between; and that no turn is taken while a cancellation is on its way to the agent.
 */
module RunGates {
  import opened Protocol
  import opened Supervisor
  import opened Runs
  import opened ViewSteps
  import RunTurns

  /**
   No plan waits for a decision, no answer for review, no decision has an unknown outcome, and no terminal holds
   the job.
   */
  predicate Open(job: Job) {
    && !job.state.PlanReady? && !job.pause.ReviewRequired? && !job.approval.delivery.Unknown?
    && !job.view.mode.Detaching? && job.view.owner.SupervisorOwner?
  }

  predicate TakenFromOpenRecords(h: History) {
    match h
    case Start => true
    case Then(p, e) =>
      TakenFromOpenRecords(p) && (e.Dequeued? ==> LastJob(p).Some? && Open(LastJob(p).value))
  }

  /**
   Since the record said "sent" for the turn, the dispatcher wrote its copy, or a launch marked a turn as having
   given way.
   */
  predicate Displaced(h: History, turn: Id) {
    match h
    case Start => false
    case Then(p, e) =>
      if e.Committed? && e.writer == ByTurn(turn) && e.job.phase.SentPhase? then false
      else (e.Committed? && (e.writer.ByDispatchCopy? || e.writer.ByYield?)) || Displaced(p, turn)
  }

  /** The request of the turn's item, or of the dispatcher's copy if that was written since the turn was taken. */
  function RequestOf(h: History, turn: Id): Id {
    match h
    case Start => 0
    case Then(p, e) =>
      if e.Dequeued? && e.turn == turn then e.item.requestID
      else if e.Committed? && e.writer.ByDispatchCopy? then e.job.requestID
      else RequestOf(p, turn)
  }

  /**
   What the record says when a prompt goes out: no plan waits for a decision and the user has not cancelled; it is the
   turn's own request; and it says "sent" for this very turn exactly if nothing displaced that mark.
   */
  predicate PromptsAreRecorded(h: History) {
    match h
    case Start => true
    case Then(p, e) =>
      PromptsAreRecorded(p) && (e.PromptCalled? ==> LastJob(p).Some? && SaysSent(LastJob(p).value, p, e.turn))
  }

  predicate SaysSent(job: Job, p: History, turn: Id) {
    && !job.state.PlanReady? && !job.userCancelled
    && job.requestID == RequestOf(p, turn)
    && (job.phase.SentPhase? && job.activeTurnID == turn <==> !Displaced(p, turn))
  }

  // ---------------------------------------------------------------- what most sections do

  /** `h'` is `h` with more events, none of which takes a turn or sends a prompt. */
  predicate Grown(h: History, h': History) {
    h' == h || (h'.Then? && !h'.event.Dequeued? && !h'.event.PromptCalled? && Grown(h, h'.past))
  }

  /** The record keeps its request and phase, and names the turn in flight if it names another one than before. */
  predicate Kept(job: Job, job': Job, turn: Id) {
    && job'.requestID == job.requestID && job'.phase == job.phase
    && (job'.activeTurnID == job.activeTurnID || job'.activeTurnID == turn)
  }

  predicate SameTurn(s: Shared, s': Shared, turn: Id) {
    && s'.rt.busy && s'.rt.turnID == turn && Kept(s.job, s'.job, turn)
    && Displaced(s'.log, turn) == Displaced(s.log, turn) && RequestOf(s'.log, turn) == RequestOf(s.log, turn)
  }

  /** A section that leaves alone what the record says of the turn in flight. */
  predicate Calm(s: Shared, s': Shared) {
    Grown(s.log, s'.log) && (s.rt.busy ==> SameTurn(s, s', s.rt.turnID))
  }

  lemma {:induction false} GrownTransitive(a: History, b: History, c: History)
    requires Grown(a, b) && Grown(b, c)
    ensures Grown(a, c)
  {
    if b != c { GrownTransitive(a, b, c.past); }
  }

  lemma CalmTransitive(a: Shared, b: Shared, c: Shared)
    requires Calm(a, b) && Calm(b, c)
    ensures Calm(a, c)
  {
    GrownTransitive(a.log, b.log, c.log);
  }

  lemma CalmGrows(s: Shared, s': Shared)
    requires Calm(s, s')
    ensures Grown(s.log, s'.log)
  {
  }

  lemma NoteCalm(s: Shared, e: Event)
    requires !e.Dequeued? && !e.PromptCalled? && !e.Committed?
    ensures Calm(s, Note(s, e))
  {
  }

  lemma CommitCalm(s: Shared, job: Job, phase: Phase, w: Writer, ok: bool)
    ensures var s' := Commit(s, job, phase, w, ok);
      Grown(s.log, s'.log)
      && ((s.rt.busy ==> Outside(w) && phase == NoPhase && Kept(s.job, job, s.rt.turnID)) ==> Calm(s, s'))
  {
  }

  lemma EnqueueCalm(s: Shared, q: Item, acceptedJob: Option<Job>, newID: Id, w: Writer, ok: bool)
    requires s.rt.busy ==> Outside(w) && (acceptedJob.Some? ==> Kept(s.job, acceptedJob.value, s.rt.turnID))
    ensures Calm(s, Enqueue(s, q, acceptedJob, newID, w, ok))
  {
    hide Grown;
    if !s.closed && ok {
      var j := if acceptedJob.Some? then acceptedJob.value else s.job;
      var s1 := Commit(s, j, NoPhase, w, true);
      var item := q.(number := s.accepted, gen := s.rt.gen, requestID := RequestOr(s, q.requestID, newID));
      CommitCalm(s, j, NoPhase, w, true);
      NoteCalm(s1, Accepted(item));
      CalmTransitive(s, s1, Note(s1, Accepted(item)));
      SameCalm(Note(s1, Accepted(item)), Enqueue(s, q, acceptedJob, newID, w, ok));
      CalmTransitive(s, Note(s1, Accepted(item)), Enqueue(s, q, acceptedJob, newID, w, ok));
    } else {
      SameCalm(s, s);
    }
  }

  lemma SameCalm(s: Shared, s': Shared)
    requires s'.log == s.log && s'.job == s.job
    ensures Grown(s.log, s'.log) && (s'.rt.busy == s.rt.busy && s'.rt.turnID == s.rt.turnID ==> Calm(s, s'))
  {
  }

  lemma {:induction false} EnqueueAllCalm(s: Shared, rows: seq<(Id, bool)>)
    ensures Calm(s, EnqueueAll(s, rows))
    decreases |rows|
  {
    hide Calm, Enqueue;
    SameCalm(s, s);
    if rows != [] {
      var q := Item(0, FollowupItem, true, rows[0].1, 0, rows[0].0);
      var s1 := if rows[0].0 == s.job.requestID then s else Enqueue(s, q, None, 0, ByCaller, true);
      EnqueueCalm(s, q, None, 0, ByCaller, true);
      EnqueueAllCalm(s1, rows[1..]);
      CalmTransitive(s, s1, EnqueueAll(s1, rows[1..]));
    }
  }

  /** One write and one more event, in the order of a section that moves the fence. */
  lemma BumpCalm(s: Shared, s1: Shared, cause: Cause, s': Shared)
    requires Calm(s, s1) && s'.job == s1.job && s'.rt.busy == s1.rt.busy && s'.rt.turnID == s1.rt.turnID
      && s'.log == Then(Then(s1.log, Bumped(cause)), Removed(Numbers(s.rt.queue)))
    ensures Calm(s, s')
  {
    assert Grown(s.log, s1.log);
    assert Grown(s.log, Then(s1.log, Bumped(cause)));
  }

  lemma DisconnectCalm(s: Shared, w: Writer, ok: bool)
    requires s.rt.busy ==> Outside(w)
    ensures Calm(s, DisconnectLocked(s, w, ok))
  {
    SameCalm(s, s);
    if !s.job.userCancelled {
      var s0 := Note(s, ViewReset);
      var s1 := Save(s0, DisconnectedJob(s.job), w, ok);
      NoteCalm(s, ViewReset);
      CommitCalm(s0, DisconnectedJob(s.job).(activeTurnID := s0.rt.turnID), NoPhase, w, ok);
      CalmTransitive(s, s0, s1);
      hide Save, Grown;
      BumpCalm(s, s1, Disconnect, DisconnectLocked(s, w, ok));
    }
  }

  lemma FinishCalm(s: Shared, item: Item, turn: Id, f: Finish, cancelledRequest: bool, ok: bool, ok2: bool)
    requires !s.rt.busy
    ensures Calm(s, RunFinish(s, item, turn, f, cancelledRequest, ok, ok2))
  {
    hide Calm, DisconnectLocked, Enqueue;
    SameCalm(s, s);
    DisconnectCalm(s, ByTurn(turn), ok);
    match f {
      case Nothing =>
      case LoadFailed =>
      case Reenqueue => EnqueueCalm(s, item, None, 0, ByRequeue(turn), ok);
      case SetupFailed(disconnect, copy) =>
        CommitCalm(s, FailedJob(copy).(activeTurnID := s.rt.turnID), NoPhase, ByTurnCopy(turn), ok);
      case PromptFailed(disconnect) =>
        CommitCalm(s, FailedJob(s.job).(activeTurnID := s.rt.turnID), NoPhase, ByTurn(turn), ok);
      case Answer(marker) =>
        var s1 := Commit(s, AnsweredJob(s, turn, marker), ReturnedPhase, ByTurn(turn), true);
        var q := Item(0, ContinueItem, false, false, 0, item.requestID);
        CommitCalm(s, AnsweredJob(s, turn, marker), ReturnedPhase, ByTurn(turn), true);
        EnqueueCalm(s1, q, None, 0, ByTurn(turn), ok2);
        CalmTransitive(s, s1, Enqueue(s1, q, None, 0, ByTurn(turn), ok2));
    }
  }

  lemma EndTurnGrows(s: Shared, item: Item, turn: Id, f: Finish, cancelledRequest: bool, ok: bool, ok2: bool)
    ensures Grown(s.log, EndTurn(s, item, turn, f, cancelledRequest, ok, ok2).log)
  {
    hide Grown, Calm, RunFinish;
    var s1 := Note(s, TurnEnded(turn)).(rt := s.rt.(busy := false, ctxDone := false, turnID := 0));
    var s2 := RunFinish(s1, item, turn, f, cancelledRequest, ok, ok2);
    NoteCalm(s, TurnEnded(turn));
    SameCalm(Note(s, TurnEnded(turn)), s1);
    CalmGrows(s, Note(s, TurnEnded(turn)));
    GrownTransitive(s.log, Note(s, TurnEnded(turn)).log, s1.log);
    FinishCalm(s1, item, turn, f, cancelledRequest, ok, ok2);
    CalmGrows(s1, s2);
    GrownTransitive(s.log, s1.log, s2.log);
    SameCalm(s2, EndTurn(s, item, turn, f, cancelledRequest, ok, ok2));
    GrownTransitive(s.log, s2.log, EndTurn(s, item, turn, f, cancelledRequest, ok, ok2).log);
  }

  lemma CancelCalm(s: Shared, expected: Id, generation: nat, failed: bool, ok: bool)
    ensures Calm(s, CancelStart(s, expected, ok)) && Calm(s, CancelFinish(s, generation, failed, ok))
  {
    hide Restamp;
    SameCalm(s, s);
    var j := s.job.(pause := if failed then CancelUnknown else NoPause, activeTurnID := s.rt.turnID);
    CommitCalm(s, j, NoPhase, ByOutcome(failed), ok);
    if CancelStarts(s, expected) {
      NoteCalm(s, Bumped(CancelledTurn));
      var s1 := Note(s, Bumped(CancelledTurn)).(rt := CancelStart(s, expected, ok).rt);
      var k := s.job.(state := JobState.NeedsInput, pause := CancelDelivery, activeTurnID := s.rt.turnID);
      CommitCalm(s1, k, NoPhase, ByCaller, ok);
      CalmTransitive(s, s1, Commit(s1, k, NoPhase, ByCaller, ok));
    }
  }

  lemma PlanCalm(s: Shared, d: Decision, pending: Option<PlanRequest>, approvalID: Id, failed: bool, ok: bool)
    ensures Calm(s, PlanSubmit(s, d, pending, ok)) && Calm(s, PlanFinish(s, approvalID, d.decide, failed, ok))
  {
    hide Decidable;
    SameCalm(s, s);
    CommitCalm(s, SubmittedJob(s.job, d.decide).(activeTurnID := s.rt.turnID), NoPhase, ByDecision(d), ok);
    var stillOpen := failed && s.job.approval.id == approvalID && s.job.approval.delivery == Submitted;
    var j := s.job.(state := JobState.NeedsInput, pause := ApprovalUnknown,
                    approval := s.job.approval.(delivery := Unknown, approved := false));
    CommitCalm(s, j.(activeTurnID := s.rt.turnID), NoPhase, ByUndelivered, ok);
    var s1 := if stillOpen then Save(s, j, ByUndelivered, ok) else s;
    hide Save, Calm;
    if d.decide.CancelPlan? && !(stillOpen && !ok) {
      BumpCalm(s, s1, PlanCancelled, PlanFinish(s, approvalID, d.decide, failed, ok));
    }
  }

  lemma ContinueCalm(s: Shared, planning: bool, live: bool, rows: seq<(Id, bool)>, newID: Id, ok: bool)
    ensures Calm(s, Continue(s, planning, live, rows, newID, ok))
  {
    hide Calm, Enqueue, EnqueueAll;
    SameCalm(s, s);
    var q := Item(0, ContinueItem, true, planning, 0, s.job.requestID);
    var j := s.job.(state := JobState.Executing, pause := NoPause, approval := s.job.approval.(delivery := NoDelivery));
    var k := if planning then j.(state := JobState.Planning, approval := j.approval.(approved := false)) else j;
    var s1 := Enqueue(s, q, Some(k), newID, ByContinue(planning, live), ok);
    EnqueueCalm(s, q, None, newID, ByContinue(planning, live), ok);
    EnqueueCalm(s, q, Some(k), newID, ByContinue(planning, live), ok);
    EnqueueAllCalm(s1, rows);
    CalmTransitive(s, s1, EnqueueAll(s1, rows));
  }

  lemma FollowupCalm(s: Shared, requestID: Id, planning: bool, live: bool, ok: bool)
    ensures Calm(s, Followup(s, requestID, planning, live, ok))
  {
    hide Calm, Enqueue;
    SameCalm(s, s);
    var q := Item(0, FollowupItem, true, planning, 0, requestID);
    var j := s.job.(requestID := requestID, pause := NoPause, resultTurnID := 0, state := JobState.Executing);
    var k := if planning then j.(state := JobState.Planning, approval := j.approval.(approved := false, content := ""))
      else j;
    EnqueueCalm(s, q, None, 0, ByFollowup(planning, live), ok);
    if !s.rt.busy { EnqueueCalm(s, q, Some(k), 0, ByFollowup(planning, live), ok); }
  }

  /** What a copy says of the turn in flight: it displaces the mark. */
  predicate Displaces(s: Shared, s': Shared, turn: Id) {
    && s'.rt.busy == s.rt.busy && s'.rt.turnID == s.rt.turnID && !s'.job.phase.SentPhase? && Displaced(s'.log, turn)
    && (s.job.requestID == RequestOf(s.log, turn) ==> s'.job.requestID == RequestOf(s'.log, turn))
  }

  lemma CopyDisplaces(s: Shared, job: Job, phase: Phase, w: Writer, turn: Id)
    requires !Stamped(s.job, job, phase).phase.SentPhase?
    requires w.ByDispatchCopy? || (w.ByYield? && job.requestID == s.job.requestID)
    ensures var s' := Commit(s, job, phase, w, true); Grown(s.log, s'.log) && Displaces(s, s', turn)
  {
  }

  /** The dispatcher's last section either displaces the mark and goes on calmly, or is calm. */
  lemma StartFinishes(s: Shared, copy: Job, gen: nat, sessionID: Id, planning: bool, ok: bool, ok2: bool, turn: Id)
    requires copy.phase.NoPhase?
    ensures var s' := StartFinish(s, copy, gen, sessionID, planning, ok, ok2);
      Grown(s.log, s'.log) && (Calm(s, s') || (exists m :: Displaces(s, m, turn) && Calm(m, s')))
  {
    SameCalm(s, s);
    if s.rt.gen != gen || s.closed {
      CommitCalm(s, s.job.(sessionID := sessionID, activeTurnID := s.rt.turnID), NoPhase, BySession, ok);
    } else if sessionID == 0 {
      if ok {
        CopyDisplaces(s, FailedJob(copy).(activeTurnID := s.rt.turnID), NoPhase, ByDispatchCopy, turn);
        var m := Save(s, FailedJob(copy), ByDispatchCopy, true);
        SameCalm(m, m);
      }
    } else if ok {
      var j := copy.(sessionID := sessionID, state := if planning then JobState.Planning else JobState.Executing,
                     view := copy.view.(desired := Headless));
      CopyDisplaces(s, j.(activeTurnID := s.rt.turnID), NoPhase, ByDispatchCopy, turn);
      var m, q := Save(s, j, ByDispatchCopy, true), Item(0, PlanItem, false, planning, 0, copy.requestID);
      hide Save, Enqueue, Calm, Grown, Displaces;
      EnqueueCalm(m, q, None, 0, ByCaller, ok2);
      CalmGrows(m, Enqueue(m, q, None, 0, ByCaller, ok2));
      GrownTransitive(s.log, m.log, Enqueue(m, q, None, 0, ByCaller, ok2).log);
    }
  }

  lemma RestartGrows(s: Shared, ok: bool)
    ensures Grown(s.log, Restart(s, ok).log)
  {
    hide AwaitingResume;
    var s0 := Note(s, Removed(Numbers(s.rt.queue)));
    var s1 := Note(s0, Crashed).(rt := FreshRuntime, closed := false, heads := 0, lastExit := NotYet);
    NoteCalm(s, Removed(Numbers(s.rt.queue)));
    NoteCalm(s0, Crashed);
    SameCalm(Note(s0, Crashed), s1);
    GrownTransitive(s0.log, Note(s0, Crashed).log, s1.log);
    GrownTransitive(s.log, s0.log, s1.log);
    CommitCalm(s1, AwaitingResume(s.job), NoPhase, ByCaller, ok);
    hide Commit, Grown;
    if AwaitingResume(s.job) != s.job {
      GrownTransitive(s.log, s1.log, Commit(s1, AwaitingResume(s.job), NoPhase, ByCaller, ok).log);
    }
  }

  lemma YieldEffects(s: Shared, ok: bool, turn: Id)
    ensures Calm(s, YieldBump(s))
    ensures Grown(s.log, YieldMark(s, ok).log)
      && (if ok then Displaces(s, YieldMark(s, ok), turn) else Calm(s, YieldMark(s, ok)))
  {
    SameCalm(s, s);
    if ok { CopyDisplaces(s, YieldedJob(s.job), UnknownPhase, ByYield, turn); }
  }

  lemma EffectCalm(s: Shared, s': Shared, e: Option<Event>, saved: bool)
    requires ViewEffect(s, s', e, saved)
    ensures Calm(s, s')
  {
    var h := if e.Some? then Then(s.log, e.value) else s.log;
    assert Grown(s.log, h);
  }

  // ---------------------------------------------------------------- the invariant

  /** What the record says of a turn under way, by how far it has got. */
  predicate TurnRecorded(s: Shared, st: Stage, turn: Id) {
    && s.job.requestID == RequestOf(s.log, turn)
    && (st.Marked? ==> (s.job.phase.SentPhase? <==> !Displaced(s.log, turn)))
    && (st.Marked? && s.job.phase.SentPhase? ==> s.job.activeTurnID == turn)
  }

  ghost predicate GateInv(w: World) {
    && TakenFromOpenRecords(w.s.log) && PromptsAreRecorded(w.s.log)
    && (forall t | t in w.turns :: TurnRecorded(w.s, w.turns[t].stage, t))
    && (!w.dispatch.Over? ==> w.dispatch.copy.phase.NoPhase?)
  }

  /** What `RunTurns` proves of the turn under way and of the record. */
  predicate Underway(w: World) {
    && w.turns.Keys == (if w.s.rt.busy then {w.s.rt.turnID} else {}) && LastJob(w.s.log) == Some(w.s.job)
    && (forall t | t in w.turns && w.turns[t].stage.Marked? :: !w.s.job.state.PlanReady? && !w.s.job.userCancelled)
  }

  lemma TurnsUnderway(w: World)
    requires RunTurns.TurnInv(w)
    ensures Underway(w)
  {
  }

  lemma {:induction false} GrownKeeps(h: History, h': History)
    requires Grown(h, h')
    ensures TakenFromOpenRecords(h) ==> TakenFromOpenRecords(h')
    ensures PromptsAreRecorded(h) ==> PromptsAreRecorded(h')
  {
    if h' != h { GrownKeeps(h, h'.past); }
  }

  /** The threads are as before, but that turns may have ended or moved on to a stage before or after the mark. */
  predicate Fewer(w: World, w': World) {
    && w'.turns.Keys <= w.turns.Keys
      && (forall t | t in w'.turns :: w'.turns[t].stage.Marked? ==> w.turns[t].stage.Marked?)
    && (!w'.dispatch.Over? ==> !w.dispatch.Over? && w'.dispatch.copy.phase == w.dispatch.copy.phase)
  }

  lemma GrowthKeeps(w: World, w': World)
    requires GateInv(w) && Grown(w.s.log, w'.s.log) && Fewer(w, w')
    requires forall t | t in w'.turns :: TurnRecorded(w'.s, w'.turns[t].stage, t)
    ensures GateInv(w')
  {
    GrownKeeps(w.s.log, w'.s.log);
  }

  lemma CalmRecords(s: Shared, s': Shared, st: Stage)
    requires Calm(s, s') && s.rt.busy && TurnRecorded(s, st, s.rt.turnID)
    ensures TurnRecorded(s', st, s.rt.turnID)
  {
  }

  lemma DisplacedRecords(s: Shared, s': Shared, st: Stage, turn: Id)
    requires Displaces(s, s', turn) && TurnRecorded(s, st, turn)
    ensures TurnRecorded(s', st, turn)
  {
  }

  lemma CalmKeeps(w: World, w': World)
    requires GateInv(w) && Underway(w) && Calm(w.s, w'.s) && Fewer(w, w')
    ensures GateInv(w')
  {
    hide Grown, Displaced, RequestOf;
    forall t | t in w'.turns ensures TurnRecorded(w'.s, w'.turns[t].stage, t) {
      CalmRecords(w.s, w'.s, w.turns[t].stage);
    }
    hide Calm, TurnRecorded, GateInv;
    CalmGrows(w.s, w'.s);
    GrowthKeeps(w, w');
  }

  /** A turn is taken through open gates, and its first write puts its own request into the record. */
  lemma TakenOpenly(s: Shared, turn: Id, live: bool, ok: bool)
    requires LastJob(s.log) == Some(s.job) && TakenFromOpenRecords(s.log) && PromptsAreRecorded(s.log) && s.heads > 0
      && GateOf(s, live).NotYet?
    ensures var s' := PumpTop(s, turn, live, ok);
      && TakenFromOpenRecords(s'.log) && PromptsAreRecorded(s'.log)
      && (ok ==> TurnRecorded(s', Taken, turn))
  {
    assert Open(s.job);
    var s' := PumpTop(s, turn, live, ok);
    var taken := Then(s.log, Dequeued(turn, s.rt.queue[0]));
    assert s'.log == if ok then Then(taken, Committed(s'.job, ByTurn(turn))) else Then(taken, TurnEnded(turn));
    assert TakenFromOpenRecords(taken) && PromptsAreRecorded(taken)
      && RequestOf(taken, turn) == s.rt.queue[0].requestID;
  }

  lemma TakeKeeps(w: World, turn: Id, live: bool, ok: bool)
    requires GateInv(w) && Underway(w) && w.s.heads > 0 && GateOf(w.s, live).NotYet?
    ensures var s' := PumpTop(w.s, turn, live, ok);
      GateInv(if ok then w.(s := s', turns := w.turns[turn := Turn(w.s.rt.queue[0], Taken)]) else w.(s := s'))
  {
    assert w.turns == map[];
    TakenOpenly(w.s, turn, live, ok);
    hide PumpTop, GateOf, TurnRecorded, TakenFromOpenRecords, PromptsAreRecorded;
  }

  lemma PumpLeaves(w: World, turn: Id, live: bool, ok: bool)
    requires GateInv(w) && Underway(w) && w.s.heads > 0 && !GateOf(w.s, live).NotYet?
    ensures GateInv(w.(s := PumpTop(w.s, turn, live, ok)))
  {
    SameCalm(w.s, PumpTop(w.s, turn, live, ok));
    hide Calm, GateInv, Underway, GateOf;
    CalmKeeps(w, w.(s := PumpTop(w.s, turn, live, ok)));
  }

  lemma PumpKeeps(w: World, turn: Id, live: bool, ok: bool)
    requires GateInv(w) && Underway(w)
    ensures GateInv(NextTurn(w, PumpGo(turn, live, ok)))
  {
    hide GateInv, Underway, PumpTop, GateOf;
    if w.s.heads > 0 && turn != 0 && !TurnSeen(w.s.log, turn) {
      if GateOf(w.s, live).NotYet? { TakeKeeps(w, turn, live, ok); } else { PumpLeaves(w, turn, live, ok); }
    }
  }

  lemma CallKeeps(w: World, turn: Id)
    requires GateInv(w) && Underway(w)
    ensures GateInv(NextTurn(w, CallPrompt(turn)))
  {
    var w' := NextTurn(w, CallPrompt(turn));
    if w' != w {
      assert w'.s.log == Then(w.s.log, PromptCalled(turn)) && TurnRecorded(w.s, w.turns[turn].stage, turn);
      assert SaysSent(w.s.job, w.s.log, turn);
      assert w'.turns.Keys == {turn};
    }
  }

  lemma MarkKeeps(w: World, turn: Id, ok: bool)
    requires GateInv(w) && Underway(w)
    ensures GateInv(NextTurn(w, MarkTurn(turn, ok)))
  {
    hide Fenced, Returned;
    var w' := NextTurn(w, MarkTurn(turn, ok));
    if w'.s == w.s {
      SameCalm(w.s, w.s);
      hide Calm, GateInv, Underway;
      CalmKeeps(w, w');
    } else {
      CommitCalm(w.s, w.s.job.(activeTurnID := turn), SentPhase, ByTurn(turn), true);
      assert w'.turns.Keys == {turn} && w'.s.log == Then(w.s.log, Committed(w'.s.job, ByTurn(turn)));
      assert TurnRecorded(w.s, w.turns[turn].stage, turn);
      assert TurnRecorded(w'.s, Marked, turn);
      GrownKeeps(w.s.log, w'.s.log);
    }
  }

  lemma TurnKeeps(w: World, a: TurnAction)
    requires GateInv(w) && Underway(w)
    ensures GateInv(NextTurn(w, a))
  {
    hide GateInv, Calm, Grown, EndTurn, PumpTop, Took, Underway;
    match a {
      case PumpGo(turn, live, ok) => PumpKeeps(w, turn, live, ok);
      case CallPrompt(turn) => CallKeeps(w, turn);
      case MarkTurn(turn, ok) => MarkKeeps(w, turn, ok);
      case FinishTurn(turn, cancelledRequest, ok, ok2) => FinishTurnKeeps(w, turn, cancelledRequest, ok, ok2);
      case _ => StageKeeps(w, a);
    }
  }

  lemma FinishTurnKeeps(w: World, turn: Id, cancelledRequest: bool, ok: bool, ok2: bool)
    requires GateInv(w) && Underway(w)
    ensures GateInv(NextTurn(w, FinishTurn(turn, cancelledRequest, ok, ok2)))
  {
    hide GateInv, Grown, EndTurn;
    var w' := NextTurn(w, FinishTurn(turn, cancelledRequest, ok, ok2));
    if turn in w.turns && w.turns[turn].stage.Ending? {
      EndTurnGrows(w.s, w.turns[turn].item, turn, w.turns[turn].stage.finish, cancelledRequest, ok, ok2);
      assert w'.turns == map[];
      GrowthKeeps(w, w');
    }
  }

  lemma StageMoves(w: World, a: TurnAction)
    requires RunTurns.Moves(a)
    ensures var w' := NextTurn(w, a); Fewer(w, w') && Calm(w.s, w'.s)
  {
    var w' := NextTurn(w, a);
    RunTurns.MoveNotes(w, a);
    hide NextTurn;
    SameCalm(w.s, w.s);
    if w'.s != w.s { NoteCalm(w.s, w'.s.log.event); }
    hide Calm;
  }

  lemma StageKeeps(w: World, a: TurnAction)
    requires GateInv(w) && Underway(w) && (a.KickPump? || RunTurns.Moves(a))
    ensures GateInv(NextTurn(w, a))
  {
    if a.KickPump? {
      SameCalm(w.s, Kick(w.s));
    } else {
      StageMoves(w, a);
      hide NextTurn;
    }
    hide GateInv, Calm, Underway, Fewer;
    CalmKeeps(w, NextTurn(w, a));
  }

  lemma CancelsCalm(w: World, a: ControlAction)
    requires a.BeginCancel? || a.EndCancel?
    ensures var w' := NextControl(w, a); Calm(w.s, w'.s) && w'.turns == w.turns && w'.dispatch == w.dispatch
  {
    hide CancelStart, CancelFinish, Calm;
    SameCalm(w.s, w.s);
    if a.BeginCancel? {
      CancelCalm(w.s, a.expected, 0, false, a.ok);
    } else {
      CancelCalm(w.s, 0, a.generation, a.failed, a.ok);
    }
  }

  lemma CancelsKeep(w: World, a: ControlAction)
    requires GateInv(w) && Underway(w) && (a.BeginCancel? || a.EndCancel?)
    ensures GateInv(NextControl(w, a))
  {
    var w' := NextControl(w, a);
    CancelsCalm(w, a);
    hide Calm, GateInv, NextControl, Underway;
    CalmKeeps(w, w');
  }

  lemma ControlCalm(w: World, a: ControlAction)
    requires !a.BeginCancel? && !a.EndCancel?
    ensures Calm(w.s, NextControl(w, a).s)
  {
    SameCalm(w.s, w.s);
    match a {
      case DoFollowup(requestID, planning, live, ok) =>
        hide Calm, Followup; FollowupCalm(w.s, requestID, planning, live, ok);
      case DoContinue(planning, live, rows, newID, ok) =>
        hide Calm, Continue; ContinueCalm(w.s, planning, live, rows, newID, ok);
      case DoCancelRequest(requestID, turnID, persisted, updated) =>
        hide CancelTarget;
        NoteCalm(w.s, Removed(Numbers(Only(w.s.rt.queue, requestID))));
      case Decide(key, d, pending, ok) => hide Calm, PlanSubmit; PlanCalm(w.s, d, pending, 0, false, true);
      case Resolve(key, failed) =>
        if key in w.decisions {
          NoteCalm(w.s, Resolved(w.decisions[key].approvalID, w.decisions[key].decide, failed));
        }
      case EndDecide(key, ok) =>
        hide Calm, PlanFinish;
        if key in w.decisions && w.decisions[key].resolved {
          PlanCalm(w.s, Decision(0, 0, 0, 0, w.decisions[key].decide, false), None, w.decisions[key].approvalID,
            w.decisions[key].failed, ok);
        }
      case Approval(p, content, ok) =>
        hide ApprovalValid;
        CommitCalm(w.s, OnApproval(w.s, p, content, true).job, NoPhase, ByApproval, ok);
      case LoseConnection(ok) => hide Calm, DisconnectLocked; DisconnectCalm(w.s, ByCaller, ok);
      case _ =>
    }
  }

  /** A copy is written over the turn in flight, and what follows is calm. */
  lemma DisplacedKeeps(w: World, m: Shared, w': World, turn: Id)
    requires GateInv(w) && Underway(w) && Displaces(w.s, m, turn) && Grown(w.s.log, w'.s.log) && Calm(m, w'.s)
      && Fewer(w, w')
    requires w.s.rt.busy ==> turn == w.s.rt.turnID
    ensures GateInv(w')
  {
    hide Grown, Displaced, RequestOf;
    forall t | t in w'.turns ensures TurnRecorded(w'.s, w'.turns[t].stage, t) {
      DisplacedRecords(w.s, m, w.turns[t].stage, t);
      CalmRecords(m, w'.s, w.turns[t].stage);
    }
    hide Calm, Grown, TurnRecorded, GateInv;
    GrowthKeeps(w, w');
  }

  lemma BeginStartKeeps(w: World, ok: bool)
    requires GateInv(w) && Underway(w) && w.dispatch.NotBegun?
    ensures GateInv(NextLife(w, BeginStart(ok)))
  {
    var w' := NextLife(w, BeginStart(ok));
    SameCalm(w'.s, w'.s);
    SameCalm(w.s, w.s);
    if ok {
      CopyDisplaces(w.s, w.dispatch.copy.(state := JobState.Starting, activeTurnID := w.s.rt.turnID), NoPhase,
        ByDispatchCopy, w.s.rt.turnID);
      assert w'.s == StartBegin(w.s, w.dispatch.copy, true);
      hide Calm, Grown, GateInv, Displaces, Underway;
      DisplacedKeeps(w, w'.s, w', w.s.rt.turnID);
    } else {
      hide Calm, Grown, GateInv, Displaces, Underway;
      CalmKeeps(w, w');
    }
  }

  lemma EndStartKeeps(w: World, sessionID: Id, planning: bool, ok: bool, ok2: bool)
    requires GateInv(w) && Underway(w) && w.dispatch.Waiting?
    ensures GateInv(NextLife(w, EndStart(sessionID, planning, ok, ok2)))
  {
    var w' := NextLife(w, EndStart(sessionID, planning, ok, ok2));
    StartFinishes(w.s, w.dispatch.copy, w.dispatch.gen, sessionID, planning, ok, ok2, w.s.rt.turnID);
    hide Calm, Grown, GateInv, Displaces, Underway, StartFinish;
    if Calm(w.s, w'.s) {
      CalmKeeps(w, w');
    } else {
      var m :| Displaces(w.s, m, w.s.rt.turnID) && Calm(m, w'.s);
      DisplacedKeeps(w, m, w', w.s.rt.turnID);
    }
  }

  lemma LifeKeeps(w: World, a: LifeAction)
    requires GateInv(w) && Underway(w)
    ensures GateInv(NextLife(w, a))
  {
    hide GateInv, Calm, Grown, Underway, StartBegin, StartFinish, Restart;
    match a {
      case BeginStart(ok) => if w.dispatch.NotBegun? { BeginStartKeeps(w, ok); }
      case EndStart(sessionID, planning, ok, ok2) =>
        if w.dispatch.Waiting? { EndStartKeeps(w, sessionID, planning, ok, ok2); }
      case CloseService =>
        SameCalm(w.s, CloseAll(w.s));
        CalmKeeps(w, NextLife(w, a));
      case RestartService(ok) =>
        RestartGrows(w.s, ok);
        GrowthKeeps(w, NextLife(w, a));
    }
  }

  lemma LaunchKeeps(w: World, a: LaunchAction)
    requires GateInv(w) && Underway(w)
    ensures GateInv(NextLaunch(w, a))
  {
    var w' := NextLaunch(w, a);
    LaunchThreads(w, a);
    SameCalm(w.s, w.s);
    SameCalm(w'.s, w'.s);
    if ViewOnly(a) {
      var e, saved := LaunchEffect(w, a);
      EffectCalm(w.s, w'.s, e, saved);
      hide Calm, Grown, GateInv, Underway, ViewEffect, NextLaunch;
      CalmKeeps(w, w');
    } else {
      YieldEffects(w.s, a.MarkYielded? && a.ok, w.s.rt.turnID);
      assert Calm(w.s, w'.s) || (Grown(w.s.log, w'.s.log) && Displaces(w.s, w'.s, w.s.rt.turnID));
      hide Calm, Grown, GateInv, Underway, Displaces, NextLaunch;
      if Calm(w.s, w'.s) { CalmKeeps(w, w'); } else { DisplacedKeeps(w, w'.s, w', w.s.rt.turnID); }
    }
  }

  lemma DetachKeeps(w: World, a: DetachAction)
    requires GateInv(w) && Underway(w)
    ensures GateInv(NextDetach(w, a))
  {
    var w' := NextDetach(w, a);
    var e, saved := DetachEffect(w, a);
    EffectCalm(w.s, w'.s, e, saved);
    DetachThreads(w, a);
    hide Calm, GateInv;
    CalmKeeps(w, w');
  }

  lemma GateInvNext(w: World, a: Action)
    requires GateInv(w) && Underway(w)
    ensures GateInv(Next(w, a))
  {
    hide GateInv, Underway;
    match a {
      case OnTurn(t) => TurnKeeps(w, t);
      case OnControl(c) =>
        if c.BeginCancel? || c.EndCancel? {
          CancelsKeep(w, c);
        } else {
          ControlCalm(w, c);
          ControlPendingStays(w, c);
          hide Calm, NextControl;
          CalmKeeps(w, Next(w, a));
        }
      case OnLife(l) => LifeKeeps(w, l);
      case OnLaunch(v) => LaunchKeeps(w, v);
      case OnDetach(d) => DetachKeeps(w, d);
    }
  }

  lemma {:induction false} GateInvRun(job: Job, actions: seq<Action>)
    requires Dispatched(job)
    ensures GateInv(Run(job, actions))
  {
    if actions == [] {
      var h := Init(job).s.log;
      assert h == Then(Start, Committed(job, ByCaller)) && PromptsAreRecorded(Start) && TakenFromOpenRecords(Start);
    } else {
      var before := actions[..|actions| - 1];
      GateInvRun(job, before);
      RunTurns.TurnInvRun(job, before);
      TurnsUnderway(Run(job, before));
      hide GateInv, Underway;
      GateInvNext(Run(job, before), actions[|actions| - 1]);
    }
  }

  /**
   In every run, when a prompt goes out the record holds no waiting plan and no cancellation by the user, names the
   turn's own request, and says "sent" for that turn unless the mark was displaced; and turns are taken from open
   records.
   */
  lemma RunsRecordTheirPrompts(job: Job, actions: seq<Action>)
    requires Dispatched(job)
    ensures PromptsAreRecorded(Run(job, actions).s.log) && TakenFromOpenRecords(Run(job, actions).s.log)
  {
    GateInvRun(job, actions);
  }

  // ---------------------------------------------------------------- one cancellation at a time

  /** At most one cancellation is under way, and the gate is closed exactly as long as it is. */
  ghost predicate OneCancel(w: World) {
    (w.cancels != {} <==> w.s.rt.controlPending) && (forall a, b | a in w.cancels && b in w.cancels :: a == b)
  }

  lemma CancelsStayOne(w: World, a: ControlAction)
    requires OneCancel(w) && (a.BeginCancel? || a.EndCancel?)
    ensures OneCancel(NextControl(w, a))
  {
    hide Restamp, Stamped;
    if a.EndCancel? && a.generation in w.cancels {
      assert w.cancels - {a.generation} == {};
    } else if a.BeginCancel? && CancelStarts(w.s, a.expected) {
      assert w.cancels == {} && w.s.rt.gen + 1 in NextControl(w, a).cancels;
    }
  }

  lemma EndTurnControl(s: Shared, item: Item, turn: Id, f: Finish, cancelledRequest: bool, ok: bool, ok2: bool)
    ensures EndTurn(s, item, turn, f, cancelledRequest, ok, ok2).rt.controlPending == s.rt.controlPending
  {
  }

  lemma EnqueueControl(s: Shared, q: Item, acceptedJob: Option<Job>, newID: Id, w: Writer, ok: bool)
    ensures Enqueue(s, q, acceptedJob, newID, w, ok).rt.controlPending == s.rt.controlPending
  {
    hide Stamped, RequestOr;
  }

  lemma FollowupControl(s: Shared, requestID: Id, planning: bool, live: bool, ok: bool)
    ensures Followup(s, requestID, planning, live, ok).rt.controlPending == s.rt.controlPending
  {
    var q := Item(0, FollowupItem, true, planning, 0, requestID);
    var j := s.job.(requestID := requestID, pause := NoPause, resultTurnID := 0, state := JobState.Executing);
    var k := if planning then j.(state := JobState.Planning, approval := j.approval.(approved := false, content := ""))
      else j;
    EnqueueControl(s, q, if !s.rt.busy && !Held(s.job, live) then Some(k) else None, 0, ByCaller, ok);
    hide Enqueue, Held;
  }

  lemma ContinueControl(s: Shared, planning: bool, live: bool, rows: seq<(Id, bool)>, newID: Id, ok: bool)
    ensures Continue(s, planning, live, rows, newID, ok).rt.controlPending == s.rt.controlPending
  {
    var q := Item(0, ContinueItem, true, planning, 0, s.job.requestID);
    var j := s.job.(state := JobState.Executing, pause := NoPause, approval := s.job.approval.(delivery := NoDelivery));
    var k := if planning then j.(state := JobState.Planning, approval := j.approval.(approved := false)) else j;
    EnqueueControl(s, q, None, newID, ByCaller, ok);
    EnqueueControl(s, q, Some(k), newID, ByCaller, ok);
    hide Enqueue, Held, AcceptsTurnControl, RequestQueued;
  }

  lemma ControlPendingStays(w: World, a: ControlAction)
    requires !a.BeginCancel? && !a.EndCancel?
    ensures NextControl(w, a).s.rt.controlPending == w.s.rt.controlPending && NextControl(w, a).cancels == w.cancels
    ensures NextControl(w, a).turns == w.turns && NextControl(w, a).dispatch == w.dispatch
  {
    if a.DoFollowup? { FollowupControl(w.s, a.requestID, a.planning, a.live, a.ok); }
    if a.DoContinue? { ContinueControl(w.s, a.planning, a.live, a.rows, a.newID, a.ok); }
    hide Followup, Continue, Decidable, ApprovalValid, CancelTarget, Without, Only, Numbers, Stamped,
         DisconnectedJob, SubmittedJob, ApprovalSeen, Prompted;
  }

  lemma StartControl(s: Shared, copy: Job, gen: nat, sessionID: Id, planning: bool, ok: bool, ok2: bool)
    ensures StartFinish(s, copy, gen, sessionID, planning, ok, ok2).rt.controlPending == s.rt.controlPending
  {
    hide Stamped, RequestOr, FailedJob;
  }

  /** Everything but the two ends of a cancellation leaves the gate as it is; a restart forgets every thread. */
  lemma GateStays(w: World, a: Action)
    requires a.OnControl? ==> !a.c.BeginCancel? && !a.c.EndCancel?
    ensures var w' := Next(w, a);
      (w'.cancels == {} && !w'.s.rt.controlPending)
        || (w'.cancels == w.cancels && w'.s.rt.controlPending == w.s.rt.controlPending)
  {
    match a {
      case OnTurn(t) => TurnGateStays(w, t);
      case OnControl(c) => ControlPendingStays(w, c);
      case OnLife(l) =>
        if l.EndStart? && w.dispatch.Waiting? {
          StartControl(w.s, w.dispatch.copy, w.dispatch.gen, l.sessionID, l.planning, l.ok, l.ok2);
        }
        hide StartFinish, Restart, Stamped;
      case OnLaunch(v) =>
        LaunchThreads(w, v);
        if ViewOnly(v) {
          var e, saved := LaunchEffect(w, v);
          hide NextLaunch, RuntimeAfter, ViewAfter;
        } else {
          hide YieldedJob, Stamped;
        }
      case OnDetach(d) =>
        DetachThreads(w, d);
        var e, saved := DetachEffect(w, d);
        hide NextDetach, RuntimeAfter, ViewAfter;
    }
  }

  lemma TurnGateStays(w: World, a: TurnAction)
    ensures var w' := NextTurn(w, a); w'.cancels == w.cancels && w'.s.rt.controlPending == w.s.rt.controlPending
  {
    if a.FinishTurn? && a.turn in w.turns && w.turns[a.turn].stage.Ending? {
      EndTurnControl(w.s, w.turns[a.turn].item, a.turn, w.turns[a.turn].stage.finish, a.cancelledRequest, a.ok, a.ok2);
    }
    hide EndTurn, GateOf, PreparedJob, Stamped, Returned, TurnSeen, Took, Fenced;
  }

  lemma {:induction false} OneCancelRun(job: Job, actions: seq<Action>)
    ensures OneCancel(Run(job, actions))
  {
    if actions != [] {
      var w, a := Run(job, actions[..|actions| - 1]), actions[|actions| - 1];
      OneCancelRun(job, actions[..|actions| - 1]);
      if a.OnControl? && (a.c.BeginCancel? || a.c.EndCancel?) {
        CancelsStayOne(w, a.c);
      } else {
        GateStays(w, a);
        hide Next;
      }
    }
  }

  /** While a cancellation is on its way to the agent, no pump takes a turn. */
  lemma NoTurnDuringACancel(job: Job, actions: seq<Action>, turn: Id, live: bool, ok: bool)
    requires Run(job, actions).cancels != {}
    ensures var w, w' := Run(job, actions), Next(Run(job, actions), OnTurn(PumpGo(turn, live, ok)));
      w'.turns == w.turns && w'.s.rt == w.s.rt && w'.s.log == w.s.log
  {
    OneCancelRun(job, actions);
  }
}
