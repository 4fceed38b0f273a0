/**
 Where the supervisor stops short of its promises: runs in which a promise fails, and the exact step that
 breaks it. Each run is one that the machine of `Runs` can take from any dispatched job.
 */
module RunLimits {
  import opened Protocol
  import opened Supervisor
  import opened Runs
  import RunTurns

  /** One more action at the end of a run. */
  lemma Step(job: Job, actions: seq<Action>, a: Action) returns (longer: seq<Action>, w: World)
    ensures longer == actions + [a] && w == Run(job, longer) == Next(Run(job, actions), a)
  {
    longer := actions + [a];
    w := Run(job, longer);
    assert longer[..|actions|] == actions;
  }

  /** A dispatched job with a session and, when `queued`, its first item waiting for a pump. */
  lemma Started(job: Job, queued: bool) returns (actions: seq<Action>)
    requires Dispatched(job)
    ensures var w := Run(job, actions); var s := w.s;
      && s.job.sessionID == 1 && s.job.requestID == job.requestID && s.job.state.Planning? && s.job.pause == NoPause
        && !s.job.userCancelled
      && s.job.view == View(Headless, Headless, SupervisorOwner) && s.job.approval.id == 0
        && s.job.approval.delivery == NoDelivery
      && s.rt == FreshRuntime.(queue := s.rt.queue) && !s.closed
      && s.rt.queue == (if queued then [Item(0, PlanItem, false, true, 0, job.requestID)] else [])
      && s.heads == (if queued then 1 else 0) && s.accepted == |s.rt.queue|
      && w.turns == map[] && w.launches == map[] && w.detaches == map[] && Uneventful(s.log)
  {
    var a1, w1 := Step(job, [], OnLife(BeginStart(true)));
    assert w1.s.log == Then(Then(Start, Committed(job, ByCaller)), Committed(w1.s.job, ByDispatchCopy));
    assert w1.dispatch == Waiting(job.(phase := NoPhase, state := JobState.Starting), 0);
    var a2, w2 := Step(job, a1, OnLife(EndStart(1, true, true, queued)));
    actions := a2;
    UneventfulMore(Start, Committed(job, ByCaller));
    UneventfulMore(Then(Start, Committed(job, ByCaller)), w1.s.log.event);
    var saved := if queued then w2.s.log.past.past else w2.s.log;
    UneventfulMore(w1.s.log, saved.event);
    if queued {
      UneventfulMore(saved, w2.s.log.past.event);
      UneventfulMore(w2.s.log.past, w2.s.log.event);
    }
  }

  /** No turn, and no approval but the empty one. */
  predicate Uneventful(h: History) {
    !TurnSeen(h, 1) && !TurnSeen(h, 2) && !ApprovalSeen(h, 1) && !RunTurns.InFlight(h)
  }

  lemma UneventfulMore(h: History, e: Event)
    requires h.Start? || Uneventful(h)
    requires !e.Dequeued? && (e.Committed? ==> e.job.approval.id != 1)
    ensures Uneventful(Then(h, e))
  {
  }

  // ---------------------------------------------------------------- a terminal over a running turn

  /** The last write put a launch's view into the record while a turn was in flight. */
  predicate SavedOverATurn(h: History) {
    h.Then? && h.event.Committed? && h.past.Then? && h.past.event == LaunchSaved(1, true)
      && RunTurns.InFlight(h.past.past)
  }

  /**
   When the record of a terminal request is not saved, the supervisor keeps the input, a turn can start, and the
   launch goes on and saves its own view over that turn.
   */
  lemma UnsavedRequestOpensOverATurn(job: Job) returns (actions: seq<Action>)
    requires Dispatched(job)
    ensures SavedOverATurn(Run(job, actions).s.log)
  {
    var a0 := Started(job, false);
    var a1, w1 := Step(job, a0, OnLaunch(AskHeaded(0, false)));
    var a2, w2 := Step(job, a1, OnLaunch(CheckLaunch(0, false)));
    var a3, w3 := Step(job, a2, OnLaunch(DeferLaunch(0)));
    assert w3.launches == map[0 := Launch(1, false, Ready)] && w3.s.rt.viewRequested && w3.s.rt.viewEpoch == 1;
    assert w3.s.log == Then(Run(job, a0).s.log, HeadedRequested(1, false));
    actions := TurnUnderLaunch(job, a3, 1);
  }

  /** A launch about to save its view; the supervisor still owns the input, nothing runs, and `turn` is a new id. */
  predicate AboutToSave(w: World, turn: Id) {
    && w.launches == map[0 := Launch(1, false, Ready)] && !w.s.closed
    && !w.s.rt.busy && !w.s.rt.controlPending && w.s.rt.viewRequested && w.s.rt.viewEpoch == 1
    && !w.s.job.state.PlanReady? && !w.s.job.state.Cancelled? && w.s.job.pause == NoPause
      && w.s.job.approval.delivery == NoDelivery
    && w.s.job.view == View(Headless, Headless, SupervisorOwner) && turn != 0 && !TurnSeen(w.s.log, turn)
  }

  lemma FollowupArrives(w: World, turn: Id)
    requires AboutToSave(w, turn) && w.s.rt.queue == []
    ensures var w' := Next(w, OnControl(DoFollowup(7, false, false, true)));
      AboutToSave(w', turn) && w'.s.heads > 0 && |w'.s.rt.queue| == 1
  {
    var s' := Followup(w.s, 7, false, false, true);
    var c := Then(w.s.log, Committed(s'.job, ByFollowup(false, false)));
    assert s'.log == Then(c, Accepted(s'.rt.queue[0]));
    assert !TurnSeen(c, turn);
  }

  lemma TurnStarts(w: World, turn: Id)
    requires AboutToSave(w, turn) && w.s.heads > 0 && |w.s.rt.queue| == 1
    ensures var w' := Next(w, OnTurn(PumpGo(turn, false, true)));
      w'.launches == w.launches && w'.s.rt.viewRequested && w'.s.rt.viewEpoch == 1 && RunTurns.InFlight(w'.s.log)
  {
    var s' := PumpTop(w.s, turn, false, true);
    assert s'.log == Then(Then(w.s.log, Dequeued(turn, w.s.rt.queue[0])), Committed(s'.job, ByTurn(turn)));
    assert RunTurns.InFlight(Then(w.s.log, Dequeued(turn, w.s.rt.queue[0])));
  }

  lemma LaunchSaves(w: World)
    requires w.launches == map[0 := Launch(1, false, Ready)] && w.s.rt.viewRequested && w.s.rt.viewEpoch == 1
      && RunTurns.InFlight(w.s.log)
    ensures SavedOverATurn(Next(w, OnLaunch(SaveLaunch(0, true))).s.log)
  {
  }

  lemma TurnUnderLaunch(job: Job, before: seq<Action>, turn: Id) returns (actions: seq<Action>)
    requires AboutToSave(Run(job, before), turn) && Run(job, before).s.rt.queue == []
    ensures before <= actions && SavedOverATurn(Run(job, actions).s.log)
  {
    FollowupArrives(Run(job, before), turn);
    hide Run, Next;
    var a1, w1 := Step(job, before, OnControl(DoFollowup(7, false, false, true)));
    TurnStarts(w1, turn);
    hide AboutToSave;
    var a2, w2 := Step(job, a1, OnTurn(PumpGo(turn, false, true)));
    LaunchSaves(w2);
    var a3, w3 := Step(job, a2, OnLaunch(SaveLaunch(0, true)));
    actions := a3;
  }

  // ---------------------------------------------------------------- a prompt that the record does not show

  /** Turn 1 runs a follow-up that came before the dispatcher began, and has got as far as `st`. */
  predicate EarlyTurn(w: World, job: Job, st: Stage) {
    && w.turns == map[1 := Turn(Item(0, FollowupItem, true, false, 0, job.requestID + 1), st)] && !w.s.closed
    && w.dispatch == NotBegun(job.(phase := NoPhase)) && w.s.rt.gen == 0 && !w.s.rt.ctxDone
    && w.s.job.requestID == job.requestID + 1 && !w.s.job.userCancelled && w.s.job.view.mode.Headless?
  }

  lemma EarlyTaken(job: Job)
    requires Dispatched(job)
    ensures var w1 := Next(Init(job), OnControl(DoFollowup(job.requestID + 1, false, false, true)));
      EarlyTurn(Next(w1, OnTurn(PumpGo(1, false, true))), job, Taken)
  {
    var w1 := Next(Init(job), OnControl(DoFollowup(job.requestID + 1, false, false, true)));
    var item := Item(0, FollowupItem, true, false, 0, job.requestID + 1);
    assert w1.s.log == Then(Then(Init(job).s.log, Committed(w1.s.job, ByFollowup(false, false))), Accepted(item));
    assert !TurnSeen(Start, 1) && !TurnSeen(Init(job).s.log, 1) && !TurnSeen(w1.s.log.past, 1);
    assert w1.s.rt == FreshRuntime.(queue := [item]) && w1.s.heads == 1 && w1.turns == map[];
  }

  lemma EarlyMarked(w: World, job: Job)
    requires EarlyTurn(w, job, Taken)
    ensures var w1 := Next(w, OnTurn(ReadJob(1))); EarlyTurn(Next(w1, OnTurn(MarkTurn(1, true))), job, Marked)
  {
    var w1 := Next(w, OnTurn(ReadJob(1)));
    assert EarlyTurn(w1, job, Preparing(w.s.job)) by { EarlyRead(w, job); }
    hide NextControl, NextLife, NextLaunch, NextDetach;
  }

  lemma EarlyRead(w: World, job: Job)
    requires EarlyTurn(w, job, Taken)
    ensures var w1 := Next(w, OnTurn(ReadJob(1)));
      EarlyTurn(w1, job, Preparing(w.s.job)) && w1.s == Note(w.s, RecordRead(1))
  {
    assert Next(w, OnTurn(ReadJob(1))) == WithStage(w, 1, Preparing(w.s.job)).(s := Note(w.s, RecordRead(1)));
    hide Next;
  }

  /** A prompt has just gone out for turn 1, and the record names another request and does not say "sent". */
  predicate SentUnseen(w: World) {
    && w.s.log.Then? && w.s.log.event == PromptCalled(1) && 1 in w.turns
    && !w.s.job.phase.SentPhase? && w.s.job.requestID != w.turns[1].item.requestID
  }

  lemma EarlySent(w: World, job: Job)
    requires EarlyTurn(w, job, Marked)
    ensures SentUnseen(Next(Next(w, OnLife(BeginStart(true))), OnTurn(CallPrompt(1))))
  {
    var w1 := Next(w, OnLife(BeginStart(true)));
    assert w1.turns == w.turns && w1.s.job.requestID == job.requestID && w1.s.job.phase == QueuedPhase;
    hide NextControl, NextLife, NextLaunch, NextDetach;
  }

  /**
   A follow-up can be accepted and its turn marked before the dispatcher writes its copy of the new job, which
   puts back the request and the phase of the dispatch; the prompt then goes out unseen by the record.
   */
  lemma DispatchCopyHidesAPrompt(job: Job) returns (actions: seq<Action>)
    requires Dispatched(job)
    ensures SentUnseen(Run(job, actions))
  {
    EarlyTaken(job);
    assert Run(job, []) == Init(job);
    hide Run, Next, Init, EarlyTurn, SentUnseen;
    var a2 := StepTwo(job, [], OnControl(DoFollowup(job.requestID + 1, false, false, true)),
      OnTurn(PumpGo(1, false, true)));
    EarlyMarked(Run(job, a2), job);
    var a4 := StepTwo(job, a2, OnTurn(ReadJob(1)), OnTurn(MarkTurn(1, true)));
    EarlySent(Run(job, a4), job);
    actions := StepTwo(job, a4, OnLife(BeginStart(true)), OnTurn(CallPrompt(1)));
  }

  // ---------------------------------------------------------------- a request left behind by a yield

  const First := Item(0, PlanItem, false, true, 0, 0)
  const Second := Item(1, FollowupItem, true, false, 0, 7)

  /** Turn 1 runs the first item, and has got as far as `st`. */
  predicate FirstRuns(w: World, job: Job, st: Stage) {
    && w.turns == map[1 := Turn(First.(requestID := job.requestID), st)] && w.launches == map[] && !w.s.closed
    && w.s.rt == FreshRuntime.(busy := true, turnID := 1, requestID := job.requestID)
    && w.s.job.sessionID == 1 && w.s.job.requestID == job.requestID && w.s.job.state.Planning?
      && w.s.job.pause == NoPause && !w.s.job.userCancelled
    && w.s.job.view == View(Headless, Headless, SupervisorOwner) && w.s.job.approval.id == 0
      && w.s.job.approval.delivery == NoDelivery
    && w.s.heads == 0 && w.s.accepted == 1 && !TurnSeen(w.s.log, 2) && !ApprovalSeen(w.s.log, 1)
  }

  lemma FirstTaken(w: World, job: Job)
    requires Dispatched(job) && w.turns == map[] && w.launches == map[] && !w.s.closed && Uneventful(w.s.log)
    requires w.s.rt == FreshRuntime.(queue := [First.(requestID := job.requestID)]) && w.s.heads == 1
      && w.s.accepted == 1
    requires w.s.job.sessionID == 1 && w.s.job.requestID == job.requestID && w.s.job.state.Planning?
      && w.s.job.pause == NoPause && !w.s.job.userCancelled
    requires w.s.job.view == View(Headless, Headless, SupervisorOwner) && w.s.job.approval.id == 0
      && w.s.job.approval.delivery == NoDelivery
    ensures FirstRuns(Next(w, OnTurn(PumpGo(1, false, true))), job, Taken)
  {
    var s' := PumpTop(w.s, 1, false, true);
    assert s'.log == Then(Then(w.s.log, Dequeued(1, w.s.rt.queue[0])), Committed(s'.job, ByTurn(1)));
    assert !TurnSeen(Then(w.s.log, Dequeued(1, w.s.rt.queue[0])), 2)
      && !ApprovalSeen(Then(w.s.log, Dequeued(1, w.s.rt.queue[0])), 1);
  }

  lemma FirstPrompts(w: World, job: Job)
    requires FirstRuns(w, job, Taken)
    ensures var w1 := Next(w, OnTurn(ReadJob(1))); var w2 := Next(w1, OnTurn(MarkTurn(1, true)));
      var w3 := Next(w2, OnTurn(CallPrompt(1)));
      FirstRuns(w3, job, Prompting) && Prompted(w3.s.log, 1)
  {
    var w1 := Next(w, OnTurn(ReadJob(1)));
    assert w1.s.log == Then(w.s.log, RecordRead(1));
    assert FirstRuns(w1, job, Preparing(w.s.job));
    var w2 := Next(w1, OnTurn(MarkTurn(1, true)));
    assert w2.s.log == Then(w1.s.log, Committed(w2.s.job, ByTurn(1)));
    assert FirstRuns(w2, job, Marked);
    var w3 := Next(w2, OnTurn(CallPrompt(1)));
    assert w3.s.log == Then(w2.s.log, PromptCalled(1));
  }

  /** Turn 1 has read the record and failed to get ready; meanwhile a terminal was asked for, and that was saved. */
  predicate FailsLate(w: World, copy: Job) {
    && 1 in w.turns && w.turns[1].stage == Ending(SetupFailed(false, copy)) && w.turns[1].item.gen == w.s.rt.gen
    && w.launches == map[0 := Launch(1, false, Begun)] && !w.s.closed && !w.s.rt.controlPending && !TurnSeen(w.s.log, 2)
    && w.s.rt.viewRequested && w.s.rt.viewEpoch == 1 && w.s.rt.queue == [] && w.s.job.view.owner.HandoffOwner?
  }

  lemma ReadBeforeTheRequest(w: World, job: Job)
    requires FirstRuns(w, job, Taken)
    ensures var w1 := Next(w, OnTurn(ReadJob(1))); var w2 := Next(w1, OnLaunch(AskHeaded(0, true)));
      FailsLate(Next(w2, OnTurn(SetupFails(1, false, false))), w.s.job)
  {
    hide TurnSeen, ApprovalSeen;
    var w1 := Next(w, OnTurn(ReadJob(1)));
    assert w1.turns[1].stage == Preparing(w.s.job) && w1.s == Note(w.s, RecordRead(1));
    NotDequeued(w.s.log, RecordRead(1));
    var w2 := Next(w1, OnLaunch(AskHeaded(0, true)));
    assert w2.turns == w1.turns && w2.s.rt == w.s.rt.(viewRequested := true, viewEpoch := 1)
      && w2.s.job.view.owner.HandoffOwner?;
    assert w2.launches == map[0 := Launch(1, false, Begun)];
    NotDequeued(w1.s.log, HeadedRequested(1, true));
    NotDequeued(w2.s.log.past, w2.s.log.event);
    NotDequeued(w2.s.log, SetupBroke(1, false, false));
    hide NextLaunch, NextControl, NextLife, NextDetach;
  }

  /** The copy that a turn reads before any terminal is asked for. */
  predicate ReadEarly(copy: Job) {
    && copy.view == View(Headless, Headless, SupervisorOwner) && copy.pause == NoPause
      && copy.approval.delivery == NoDelivery
  }

  /** A turn that fails before its prompt writes back the record as it read it, with the view of that moment. */
  lemma CopyWrittenBack(w: World, copy: Job)
    requires FailsLate(w, copy) && ReadEarly(copy)
    ensures var w' := Next(w, OnTurn(FinishTurn(1, false, true, true)));
      && w'.s.job.view == copy.view && w'.s.rt.viewRequested && !w'.s.rt.busy && w'.s.rt.queue == []
      && AboutToSave(w'.(launches := map[0 := Launch(1, false, Ready)]), 2) && w'.launches == w.launches
  {
    var s' := Next(w, OnTurn(FinishTurn(1, false, true, true))).s;
    assert s'.log == Then(Then(w.s.log, TurnEnded(1)), Committed(s'.job, ByTurnCopy(1)));
    NotDequeued(w.s.log, TurnEnded(1));
    NotDequeued(s'.log.past, s'.log.event);
  }

  lemma LaunchGoesOn(w: World)
    requires w.launches == map[0 := Launch(1, false, Begun)]
      && AboutToSave(w.(launches := map[0 := Launch(1, false, Ready)]), 2)
    ensures Next(Next(w, OnLaunch(CheckLaunch(0, false))), OnLaunch(DeferLaunch(0))) ==
      w.(launches := map[0 := Launch(1, false, Ready)])
  {
    var w1 := Next(w, OnLaunch(CheckLaunch(0, false)));
    assert w1 == w.(launches := map[0 := Launch(1, false, Checked)]);
    assert Next(w1, OnLaunch(DeferLaunch(0))).launches == map[0 := Launch(1, false, Ready)];
  }

  /**
   So a terminal request that stands, and was saved, loses the input to the supervisor again (`back`), and its
   launch goes on to save its view over a turn that the pump takes meanwhile (`over`).
   */
  lemma StaleCopyTakesTheInputBack(job: Job) returns (back: seq<Action>, over: seq<Action>)
    requires Dispatched(job)
    ensures var s := Run(job, back).s; s.rt.viewRequested && s.job.view.owner.SupervisorOwner? && !s.rt.busy
    ensures back <= over && SavedOverATurn(Run(job, over).s.log)
  {
    var a0 := Started(job, true);
    FirstTaken(Run(job, a0), job);
    var a1, w1 := Step(job, a0, OnTurn(PumpGo(1, false, true)));
    var copy := w1.s.job;
    assert ReadEarly(copy);
    hide Run, Next, FirstRuns, Uneventful, FailsLate, AboutToSave;
    ReadBeforeTheRequest(w1, job);
    var a2 := StepThree(job, a1, OnTurn(ReadJob(1)), OnLaunch(AskHeaded(0, true)), OnTurn(SetupFails(1, false, false)));
    CopyWrittenBack(Run(job, a2), copy);
    var w2 := Run(job, a2);
    assert w2.launches == map[0 := Launch(1, false, Begun)] by { LateLaunch(w2, copy); }
    var a3, w3 := Step(job, a2, OnTurn(FinishTurn(1, false, true, true)));
    back := a3;
    LaunchGoesOn(w3);
    var a4 := StepTwo(job, a3, OnLaunch(CheckLaunch(0, false)), OnLaunch(DeferLaunch(0)));
    over := TurnUnderLaunch(job, a4, 2);
  }

  lemma LateLaunch(w: World, copy: Job)
    requires FailsLate(w, copy)
    ensures w.launches == map[0 := Launch(1, false, Begun)]
  {
  }

  // ---------------------------------------------------------------- a cancelled turn whose item comes back

  /** Turn 1 has just been taken, and a terminal that was asked for is being closed again. */
  predicate ClosingTerminal(w: World, st: Stage) {
    && 1 in w.turns && w.turns[1].stage == st && w.turns[1].item.gen == 0 && w.s.rt.gen == 0 && w.s.rt.queue == []
    && w.s.rt.busy && w.s.rt.turnID == 1 && !w.s.rt.controlPending && !w.s.closed
    && w.s.job.state.Planning? && !w.s.job.userCancelled && w.s.job.view.mode.Detaching?
  }

  lemma TerminalCloses(w: World, job: Job)
    requires FirstRuns(w, job, Taken) && w.detaches == map[]
    ensures var w1 := Next(w, OnLaunch(AskHeaded(0, true)));
      ClosingTerminal(Next(w1, OnDetach(BeginDetach(0, false, true))), Taken)
  {
    hide TurnSeen, ApprovalSeen;
    var w1 := Next(w, OnLaunch(AskHeaded(0, true)));
    assert w1.turns == w.turns && w1.s.rt == w.s.rt.(viewRequested := true, viewEpoch := 1)
      && w1.s.job.view.mode.Attaching?;
    hide NextLaunch, NextControl, NextLife, NextTurn;
  }

  /** The turn has read that record, and was cancelled afterwards. */
  predicate CancelledLate(w: World) {
    && 1 in w.turns && w.turns[1].stage == Ending(Reenqueue) && w.turns[1].item.gen == 0 && w.s.rt.gen == 1
    && w.s.rt.queue == [] && !w.s.closed && RunTurns.BumpedSince(w.s.log, 1)
  }

  lemma ReadsThenCancelled(w: World)
    requires ClosingTerminal(w, Taken)
    ensures CancelledLate(Next(Next(w, OnTurn(ReadJob(1))), OnControl(BeginCancel(1, true))))
  {
    var w1 := Next(w, OnTurn(ReadJob(1)));
    assert ClosingTerminal(w1, Ending(Reenqueue)) && w1.s == w.s;
    hide NextTurn, NextLaunch, NextLife, NextDetach;
    var w2 := Next(w1, OnControl(BeginCancel(1, true)));
    assert w2.s.log == Then(Then(w1.s.log, Bumped(CancelledTurn)), Committed(w2.s.job, ByCaller));
    assert RunTurns.BumpedSince(Then(w1.s.log, Bumped(CancelledTurn)), 1);
  }

  /** The last write was a turn's own, after a bump, and the item it put back waits inside the fence. */
  predicate CameBack(s: Shared) {
    && s.log.Then? && s.log.event.Accepted? && s.log.past.Then? && s.log.past.event == Committed(s.job, ByRequeue(1))
    && RunTurns.BumpedSince(s.log.past.past, 1) && s.rt.queue == [s.log.event.item] && !Fenced(s, s.rt.queue[0])
  }

  lemma ComesBack(w: World)
    requires CancelledLate(w)
    ensures CameBack(Next(w, OnTurn(FinishTurn(1, false, true, true))).s)
  {
    var s' := EndTurn(w.s, w.turns[1].item, 1, Reenqueue, false, true, true);
    RunTurns.LateFinish(w.s, w.turns[1].item, 1, Reenqueue, false, true, true);
    assert RunTurns.BumpedSince(Then(w.s.log, TurnEnded(1)), 1);
  }

  /** A turn that reads a detaching record and is cancelled then: its item is accepted again, inside the fence. */
  lemma CancelledItemComesBack(job: Job) returns (actions: seq<Action>)
    requires Dispatched(job)
    ensures CameBack(Run(job, actions).s)
  {
    var a0 := Started(job, true);
    FirstTaken(Run(job, a0), job);
    var a1, w1 := Step(job, a0, OnTurn(PumpGo(1, false, true)));
    assert w1.detaches == map[];
    hide Run, Next, FirstRuns, Uneventful, ClosingTerminal, CancelledLate, CameBack;
    TerminalCloses(w1, job);
    var a2 := StepTwo(job, a1, OnLaunch(AskHeaded(0, true)), OnDetach(BeginDetach(0, false, true)));
    ReadsThenCancelled(Run(job, a2));
    var a3 := StepTwo(job, a2, OnTurn(ReadJob(1)), OnControl(BeginCancel(1, true)));
    ComesBack(Run(job, a3));
    var a4, w4 := Step(job, a3, OnTurn(FinishTurn(1, false, true, true)));
    actions := a4;
  }

  /** The plan of turn 1 waits for approval, and a follow-up waits behind it. */
  predicate SecondWaits(w: World, job: Job) {
    && w.turns == map[1 := Turn(First.(requestID := job.requestID), Prompting)] && w.launches == map[] && !w.s.closed
    && w.s.rt == FreshRuntime.(busy := true, turnID := 1, requestID := job.requestID, queue := [Second])
    && w.s.job.sessionID == 1 && w.s.job.state.PlanReady? && w.s.job.pause == ApprovalPause && !w.s.job.userCancelled
    && w.s.job.view == View(Headless, Headless, SupervisorOwner) && w.s.job.approval.delivery == Pending
    && w.s.heads == 0 && !TurnSeen(w.s.log, 2)
  }

  function ThePlan(job: Job): PlanRequest {
    PlanRequest(1, 1, 1, job.requestID, 1, false)
  }

  lemma SecondAccepted(w: World, job: Job)
    requires Dispatched(job) && FirstRuns(w, job, Prompting) && Prompted(w.s.log, 1)
    ensures var w1 := Next(w, OnControl(DoFollowup(7, false, false, true)));
      var w2 := Next(w1, OnControl(ControlAction.Approval(ThePlan(job), "plan", true))); SecondWaits(w2, job)
  {
    var w1 := Next(w, OnControl(DoFollowup(7, false, false, true)));
    var c := Then(w.s.log, Committed(w1.s.job, ByFollowup(false, false)));
    assert w1.s.log == Then(c, Accepted(Second));
    assert !TurnSeen(c, 2) && !ApprovalSeen(c, 1) && Prompted(c, 1);
    assert !TurnSeen(w1.s.log, 2) && !ApprovalSeen(w1.s.log, 1) && Prompted(w1.s.log, 1);
    hide TurnSeen, ApprovalSeen, Prompted;
    var w2 := Next(w1, OnControl(ControlAction.Approval(ThePlan(job), "plan", true)));
    assert w2.s.log == Then(w1.s.log, Committed(w2.s.job, ByApproval));
    NotDequeued(w1.s.log, Committed(w2.s.job, ByApproval));
  }

  lemma NotDequeued(h: History, e: Event)
    requires !TurnSeen(h, 2) && !e.Dequeued?
    ensures !TurnSeen(Then(h, e), 2)
  {
  }

  /** The terminal is on its way, and turn 1 has been told to give way. */
  predicate Yielded(w: World, job: Job) {
    && w.turns == map[1 := Turn(First.(requestID := job.requestID), Prompting)]
      && w.launches == map[0 := Launch(1, true, Yielding)]
    && w.s.rt == FreshRuntime.(busy := true, turnID := 1, requestID := job.requestID, queue := [Second], gen := 1,
                               cancelledTurn := true, ctxDone := true, viewRequested := true, viewEpoch := 1)
    && !w.s.closed && w.s.job.state.PlanReady? && w.s.job.approval.delivery == Pending && !w.s.job.userCancelled
    && w.s.heads == 0 && !TurnSeen(w.s.log, 2)
  }

  /** The terminal is asked for and its launch has been checked; the plan still holds the turn. */
  predicate Asked(w: World, job: Job) {
    && w.turns == map[1 := Turn(First.(requestID := job.requestID), Prompting)]
      && w.launches == map[0 := Launch(1, true, Checked)]
    && w.s.rt == FreshRuntime.(busy := true, turnID := 1, requestID := job.requestID, queue := [Second],
                               viewRequested := true, viewEpoch := 1)
    && !w.s.closed && w.s.job.state.PlanReady? && w.s.job.approval.delivery == Pending && !w.s.job.userCancelled
    && w.s.heads == 0 && !TurnSeen(w.s.log, 2)
  }

  lemma FirstAsked(w: World, job: Job)
    requires SecondWaits(w, job)
    ensures var w1 := Next(w, OnLaunch(AskHeaded(0, true))); Asked(Next(w1, OnLaunch(CheckLaunch(0, true))), job)
  {
    hide TurnSeen;
    var w1 := Next(w, OnLaunch(AskHeaded(0, true)));
    NotDequeued(w.s.log, HeadedRequested(1, true));
    assert w1.s.log == Then(Then(w.s.log, HeadedRequested(1, true)), Committed(w1.s.job, ByCaller));
    NotDequeued(w1.s.log.past, w1.s.log.event);
    var w2 := Next(w1, OnLaunch(CheckLaunch(0, true)));
    assert w2.launches == map[0 := Launch(1, true, Checked)] && w2.s == w1.s;
  }

  lemma FirstYields(w: World, job: Job)
    requires Asked(w, job)
    ensures Yielded(Next(w, OnLaunch(YieldTurn(0))), job)
  {
    hide TurnSeen;
    NotDequeued(w.s.log, Bumped(Supervisor.Yielded));
    assert Next(w, OnLaunch(YieldTurn(0))).launches == map[0 := Launch(1, true, Yielding)];
  }

  /** Turn 1 is gone, the launch has failed, and the follow-up still waits, with a pump coming round. */
  predicate SecondLeft(w: World) {
    && w.turns == map[] && !w.s.closed && !w.s.rt.busy && !w.s.rt.controlPending && w.s.rt.queue == [Second]
      && w.s.rt.gen == 1
    && w.s.heads == 1 && w.s.job.state.NeedsInput? && w.s.job.pause == ExecutionUnknown
      && w.s.job.approval.delivery == Expired
    && w.s.job.view == View(Headless, Headless, SupervisorOwner) && !w.s.job.userCancelled && !TurnSeen(w.s.log, 2)
  }

  lemma FirstEnds(w: World, job: Job)
    requires Yielded(w, job)
    ensures var w1 := Next(w, OnTurn(PromptReturns(1, true, false, None)));
      var w2 := Next(w1, OnTurn(FinishTurn(1, false, true, true)));
      && w2.turns == map[] && w2.launches == w.launches && !w2.s.closed
        && w2.s.rt == w.s.rt.(busy := false, ctxDone := false, turnID := 0)
      && w2.s.heads == 1 && w2.s.job == w.s.job && !TurnSeen(w2.s.log, 2)
  {
    hide TurnSeen;
    var w1 := Next(w, OnTurn(PromptReturns(1, true, false, None)));
    assert w1.turns[1].stage == Ending(Nothing);
    NotDequeued(w.s.log, PromptReturned(1, true, false, None));
    NotDequeued(w1.s.log, TurnEnded(1));
  }

  /** The launch has seen turn 1 gone, and the agent did not confirm its cancellation. */
  predicate QuietLaunch(w: World) {
    && w.turns == map[] && w.launches == map[0 := Launch(1, true, Failing)] && !w.s.closed && !w.s.rt.busy
      && !w.s.rt.controlPending
    && w.s.rt.viewRequested && w.s.rt.viewEpoch == 1 && w.s.rt.queue == [Second] && w.s.rt.gen == 1 && w.s.heads == 1
    && w.s.job.state.NeedsInput? && w.s.job.pause == ExecutionUnknown && w.s.job.approval.delivery == Expired
    && !w.s.job.userCancelled && !TurnSeen(w.s.log, 2)
  }

  lemma TurnSeenGone(w: World)
    requires w.turns == map[] && w.launches == map[0 := Launch(1, true, Yielding)] && !w.s.closed && !w.s.rt.busy
      && !w.s.rt.controlPending
    requires w.s.rt.viewRequested && w.s.rt.viewEpoch == 1 && w.s.rt.queue == [Second] && w.s.rt.gen == 1
      && w.s.heads == 1
    requires w.s.job.state.PlanReady? && w.s.job.approval.delivery == Pending && !w.s.job.userCancelled
      && !TurnSeen(w.s.log, 2)
    ensures var w1 := Next(w, OnLaunch(SeeQuiet(0))); QuietLaunch(Next(w1, OnLaunch(MarkYielded(0, true, true))))
  {
    hide TurnSeen;
    var w1 := Next(w, OnLaunch(SeeQuiet(0)));
    assert w1.s == w.s && w1.launches == map[0 := Launch(1, true, LaunchStage.Quiet)];
    var w2 := Next(w1, OnLaunch(MarkYielded(0, true, true)));
    assert w2.s.log == Then(w.s.log, Committed(w2.s.job, ByYield));
    NotDequeued(w.s.log, w2.s.log.event);
  }

  lemma LaunchFails(w: World)
    requires QuietLaunch(w)
    ensures SecondLeft(Next(w, OnLaunch(FailLaunch(0, false, true))))
  {
    hide TurnSeen;
    var w' := Next(w, OnLaunch(FailLaunch(0, false, true)));
    assert w'.s.log == Then(Then(w.s.log, MadeHeadless(FailedLaunch(1), false)), Committed(w'.s.job, ByCaller));
    NotDequeued(w.s.log, MadeHeadless(FailedLaunch(1), false));
    NotDequeued(w'.s.log.past, w'.s.log.event);
  }

  lemma SecondTaken(w: World)
    requires SecondLeft(w) && RunTurns.Bumps(w.s.log) == w.s.rt.gen
    ensures var w' := Next(w, OnTurn(PumpGo(2, false, true)));
      2 in w'.turns && w'.turns[2].item == Second && w'.s.rt.queue == [] && RunTurns.TakenOutside(w'.s.log, 2)
  {
    var s' := PumpTop(w.s, 2, false, true);
    assert s'.log == Then(Then(w.s.log, Dequeued(2, Second)), Committed(s'.job, ByTurn(2)));
    assert RunTurns.TakenOutside(Then(w.s.log, Dequeued(2, Second)), 2);
  }

  lemma StepTwo(job: Job, actions: seq<Action>, a: Action, b: Action) returns (longer: seq<Action>)
    ensures actions <= longer && Run(job, longer) == Next(Next(Run(job, actions), a), b)
  {
    hide Next;
    var a1, w1 := Step(job, actions, a);
    var a2, w2 := Step(job, a1, b);
    longer := a2;
  }

  lemma StepThree(job: Job, actions: seq<Action>, a: Action, b: Action, c: Action) returns (longer: seq<Action>)
    ensures actions <= longer && Run(job, longer) == Next(Next(Next(Run(job, actions), a), b), c)
  {
    hide Next;
    var a2 := StepTwo(job, actions, a, b);
    var a3, w3 := Step(job, a2, c);
    longer := a3;
  }

  /**
   A turn that gives way moves the fence without restamping the queue: a follow-up that waited behind it is
   taken from the queue later, outside the fence, although nobody cancelled it.
   */
  lemma YieldLeavesARequestBehind(job: Job) returns (actions: seq<Action>)
    requires Dispatched(job)
    ensures var w := Run(job, actions);
      && 2 in w.turns && w.turns[2].item == Second && w.s.rt.queue == []
      && RunTurns.TakenOutside(w.s.log, 2) && !Prompted(w.s.log, 2) && !w.s.job.userCancelled
  {
    var a0 := Started(job, true);
    FirstTaken(Run(job, a0), job);
    hide Run, Next, FirstRuns, SecondWaits, Asked, Yielded, SecondLeft, Uneventful;
    var a1, w1 := Step(job, a0, OnTurn(PumpGo(1, false, true)));
    FirstPrompts(w1, job);
    var a2 := StepThree(job, a1, OnTurn(ReadJob(1)), OnTurn(MarkTurn(1, true)), OnTurn(CallPrompt(1)));
    SecondAccepted(Run(job, a2), job);
    var a3 := StepTwo(job, a2, OnControl(DoFollowup(7, false, false, true)),
      OnControl(ControlAction.Approval(ThePlan(job), "plan", true)));
    FirstAsked(Run(job, a3), job);
    FirstYields(Next(Next(Run(job, a3), OnLaunch(AskHeaded(0, true))), OnLaunch(CheckLaunch(0, true))), job);
    var a4 := StepThree(job, a3, OnLaunch(AskHeaded(0, true)), OnLaunch(CheckLaunch(0, true)), OnLaunch(YieldTurn(0)));
    actions := BehindTheYield(job, a4);
  }

  lemma BehindTheYield(job: Job, before: seq<Action>) returns (actions: seq<Action>)
    requires Dispatched(job) && Yielded(Run(job, before), job)
    ensures var w := Run(job, actions);
      && 2 in w.turns && w.turns[2].item == Second && w.s.rt.queue == []
      && RunTurns.TakenOutside(w.s.log, 2) && !Prompted(w.s.log, 2) && !w.s.job.userCancelled
  {
    var w0 := Run(job, before);
    FirstEnds(w0, job);
    assert w0.launches == map[0 := Launch(1, true, Yielding)] && w0.s.job.state.PlanReady?
      && w0.s.job.approval.delivery == Pending && !w0.s.job.userCancelled;
    hide Run, Next, Yielded, QuietLaunch;
    var a1 := StepTwo(job, before, OnTurn(PromptReturns(1, true, false, None)),
      OnTurn(FinishTurn(1, false, true, true)));
    TurnSeenGone(Run(job, a1));
    LaunchFails(Next(Next(Run(job, a1), OnLaunch(SeeQuiet(0))), OnLaunch(MarkYielded(0, true, true))));
    var a2 := StepThree(job, a1, OnLaunch(SeeQuiet(0)), OnLaunch(MarkYielded(0, true, true)),
      OnLaunch(FailLaunch(0, false, true)));
    RunTurns.TurnInvRun(job, a2);
    assert RunTurns.Bumps(Run(job, a2).s.log) == Run(job, a2).s.rt.gen;
    SecondTaken(Run(job, a2));
    var a3, w3 := Step(job, a2, OnTurn(PumpGo(2, false, true)));
    actions := a3;
    NeverSent(job, a3, 2);
    RunTurns.TurnInvRun(job, a3);
  }

  /** Whatever a turn took outside the fence is never sent, in any run. */
  lemma NeverSent(job: Job, actions: seq<Action>, turn: Id)
    requires Dispatched(job) && RunTurns.TakenOutside(Run(job, actions).s.log, turn)
    ensures !Prompted(Run(job, actions).s.log, turn)
  {
    RunTurns.TurnInvRun(job, actions);
    OutsideUnprompted(Run(job, actions).s.log, turn);
  }

  lemma {:induction false} PromptedWasSeen(h: History, turn: Id)
    requires RunTurns.SentFromInside(h) && Prompted(h, turn)
    ensures TurnSeen(h, turn)
  {
    if h.event != PromptCalled(turn) { PromptedWasSeen(h.past, turn); }
  }

  lemma {:induction false} OutsideUnprompted(h: History, turn: Id)
    requires RunTurns.OneTurnAtATime(h) && RunTurns.SentFromInside(h) && RunTurns.TakenOutside(h, turn)
    ensures !Prompted(h, turn)
  {
    if h.event.Dequeued? && h.event.turn == turn {
      if Prompted(h.past, turn) { PromptedWasSeen(h.past, turn); }
    } else {
      OutsideUnprompted(h.past, turn);
    }
  }
}
