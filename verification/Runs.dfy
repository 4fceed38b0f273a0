/**
 Runs of one job: the shared state of `Supervisor` together with every thread that is in the middle of
 something, moved by one locked section or one foreign call at a time, in any order. An action that
 is not enabled changes nothing, so every sequence of actions is a run.
 */
module Runs {
  import opened Protocol
  import opened Supervisor

  /** How far `runItem` has got with the turn that a pump took. */
  datatype Stage = Taken | Preparing(copy: Job) | Marked | Prompting | Ending(finish: Finish)
  datatype Turn = Turn(item: Item, stage: Stage)

  /** A plan decision that has been written down: not yet handed to the agent, or answered by it. */
  datatype Decided = Decided(approvalID: Id, decide: Decide, resolved: bool, failed: bool)

  datatype LaunchStage = Begun | Checked | Yielding | Quiet | Ready | Opening | Opened | Reconciling | Failing
  datatype Launch = Launch(epoch: nat, holds: bool, stage: LaunchStage)

  datatype Detach = Wanted(epoch: nat) | Closing(gen: nat) | Loading(gen: nat)

  datatype Dispatch = NotBegun(copy: Job) | Waiting(copy: Job, gen: nat) | Over

  datatype World = World(
    s: Shared, turns: map<Id, Turn>, cancels: set<nat>, decisions: map<nat, Decided>,
    launches: map<nat, Launch>, detaches: map<nat, Detach>, dispatch: Dispatch)

  // ---------------------------------------------------------------- what a history says

  predicate TurnSeen(h: History, turn: Id) {
    match h
    case Start => false
    case Then(p, e) => (e.Dequeued? && e.turn == turn) || TurnSeen(p, turn)
  }

  predicate Prompted(h: History, turn: Id) {
    match h
    case Start => false
    case Then(p, e) => e == PromptCalled(turn) || Prompted(p, turn)
  }

  predicate ApprovalSeen(h: History, id: Id) {
    match h
    case Start => false
    case Then(p, e) => (e.Committed? && e.job.approval.id == id) || ApprovalSeen(p, id)
  }

  /** The last record written. */
  function LastJob(h: History): Option<Job> {
    match h
    case Start => None
    case Then(p, e) => if e.Committed? then Some(e.job) else LastJob(p)
  }

  // ---------------------------------------------------------------- actions

  datatype TurnAction =
    | KickPump
    | PumpGo(turn: Id, live: bool, ok: bool)
    | ReadJob(turn: Id)
    | SetupFails(turn: Id, loading: bool, disconnect: bool)
    | MarkTurn(turn: Id, ok: bool)
    | CallPrompt(turn: Id)
    | PromptReturns(turn: Id, failed: bool, disconnect: bool, marker: Option<TaskMarker>)
    | FinishTurn(turn: Id, cancelledRequest: bool, ok: bool, ok2: bool)

  datatype ControlAction =
    | DoFollowup(requestID: Id, planning: bool, live: bool, ok: bool)
    | DoContinue(planning: bool, live: bool, rows: seq<(Id, bool)>, newID: Id, ok: bool)
    | DoCancelRequest(requestID: Id, turnID: Id, persisted: bool, updated: bool)
    | BeginCancel(expected: Id, ok: bool)
    | EndCancel(generation: nat, failed: bool, ok: bool)
    | Decide(key: nat, decision: Decision, pending: Option<PlanRequest>, ok: bool)
    | Resolve(key: nat, failed: bool)
    | EndDecide(key: nat, ok: bool)
    | Approval(request: PlanRequest, content: string, ok: bool)
    | LoseConnection(ok: bool)

  datatype LifeAction =
    | BeginStart(ok: bool)
    | EndStart(sessionID: Id, planning: bool, ok: bool, ok2: bool)
    | CloseService
    | RestartService(ok: bool)

  datatype LaunchAction =
    | AskHeaded(key: nat, ok: bool)
    | AttachDesired(key: nat)
    | CheckLaunch(key: nat, holds: bool)
    | ReuseTerminal(key: nat, alive: bool, ready: bool, ok: bool)
    | DeferLaunch(key: nat)
    | YieldTurn(key: nat)
    | SeeQuiet(key: nat)
    | MarkYielded(key: nat, ok: bool, cancelFailed: bool)
    | GiveUp(key: nat)
    | SaveLaunch(key: nat, ok: bool)
    | TerminalReady(key: nat)
    | InstallTerminal(key: nat, handle: Id, ok: bool)
    | FailLaunch(key: nat, alive: bool, ok: bool)
    | ReconcileLaunch(key: nat, alive: bool, ok: bool)
    | EndWatch(handle: Id, gen: nat)

  datatype DetachAction =
    | AskHeadless(key: nat, ok: bool)
    | BeginDetach(key: nat, fromClose: bool, ok: bool)
    | GoDetach(key: nat, ok: bool)
    | CheckDetach(key: nat, alive: bool, ok: bool)
    | EndDetach(key: nat, ok: bool)

  datatype Action = OnTurn(t: TurnAction) | OnControl(c: ControlAction) | OnLife(l: LifeAction)
    | OnLaunch(v: LaunchAction) | OnDetach(d: DetachAction)

  // ---------------------------------------------------------------- steps

  function WithStage(w: World, turn: Id, stage: Stage): World
    requires turn in w.turns
  {
    w.(turns := w.turns[turn := w.turns[turn].(stage := stage)])
  }

  /** What a returned prompt makes the pump do: nothing once the fence or the turn's context is gone. */
  function Returned(s: Shared, item: Item, failed: bool, disconnect: bool, marker: Option<TaskMarker>): Finish {
    if Fenced(s, item) then Nothing
    else if failed then if s.rt.ctxDone then Nothing else PromptFailed(disconnect)
    else Answer(marker)
  }

  function NextTurn(w: World, a: TurnAction): World {
    match a
    case KickPump => w.(s := Kick(w.s))
    case PumpGo(turn, live, ok) =>
      if w.s.heads == 0 || turn == 0 || TurnSeen(w.s.log, turn) then w else
      var s1 := PumpTop(w.s, turn, live, ok);
      if Took(w.s, live, ok) then w.(s := s1, turns := w.turns[turn := Turn(w.s.rt.queue[0], Taken)]) else w.(s := s1)
    case ReadJob(turn) =>
      if turn !in w.turns || !w.turns[turn].stage.Taken? then w
      else if w.s.job.userCancelled then WithStage(w, turn, Ending(Nothing))
      else if w.s.job.view.mode.Detaching? then WithStage(w, turn, Ending(Reenqueue))
      else WithStage(w, turn, Preparing(w.s.job)).(s := Note(w.s, RecordRead(turn)))
    case SetupFails(turn, loading, disconnect) =>
      if turn !in w.turns || !w.turns[turn].stage.Preparing? then w
      else
        var broken := w.(s := Note(w.s, SetupBroke(turn, loading, disconnect)));
        if loading && !w.turns[turn].item.kind.PlanItem? then WithStage(broken, turn, Ending(LoadFailed))
        else WithStage(broken, turn, Ending(SetupFailed(disconnect, w.turns[turn].stage.copy)))
    case MarkTurn(turn, ok) =>
      if turn !in w.turns || !w.turns[turn].stage.Preparing? then w
      else if Fenced(w.s, w.turns[turn].item) || w.s.rt.ctxDone || !ok then WithStage(w, turn, Ending(Nothing))
      else WithStage(w, turn, Marked).(s := MarkSent(w.s, turn, true))
    case CallPrompt(turn) =>
      if turn !in w.turns || !w.turns[turn].stage.Marked? then w
      else WithStage(w, turn, Prompting).(s := Note(w.s, PromptCalled(turn)))
    case PromptReturns(turn, failed, disconnect, marker) =>
      if turn !in w.turns || !w.turns[turn].stage.Prompting? then w
      else WithStage(w, turn, Ending(Returned(w.s, w.turns[turn].item, failed, disconnect, marker))).(
        s := Note(w.s, PromptReturned(turn, failed, disconnect, marker)))
    case FinishTurn(turn, cancelledRequest, ok, ok2) =>
      if turn !in w.turns || !w.turns[turn].stage.Ending? then w
      else w.(s := EndTurn(w.s, w.turns[turn].item, turn, w.turns[turn].stage.finish, cancelledRequest, ok, ok2),
              turns := w.turns - {turn})
  }

  function NextControl(w: World, a: ControlAction): World {
    match a
    case DoFollowup(requestID, planning, live, ok) => w.(s := Followup(w.s, requestID, planning, live, ok))
    case DoContinue(planning, live, rows, newID, ok) => w.(s := Continue(w.s, planning, live, rows, newID, ok))
    case DoCancelRequest(requestID, turnID, persisted, updated) =>
      w.(s := CancelRequest(w.s, requestID, turnID, persisted, updated))
    case BeginCancel(expected, ok) =>
      if !CancelStarts(w.s, expected) then w
      else w.(s := CancelStart(w.s, expected, ok), cancels := w.cancels + {w.s.rt.gen + 1})
    case EndCancel(generation, failed, ok) =>
      if generation !in w.cancels then w
      else w.(s := CancelFinish(w.s, generation, failed, ok), cancels := w.cancels - {generation})
    case Decide(key, d, pending, ok) =>
      if key in w.decisions || !Decidable(w.s, d, pending) || !ok then w
      else w.(s := PlanSubmit(w.s, d, pending, true),
        decisions := w.decisions[key := Decided(d.approvalID, d.decide, false, false)])
    case Resolve(key, failed) =>
      if key !in w.decisions || w.decisions[key].resolved then w
      else w.(s := Note(w.s, Resolved(w.decisions[key].approvalID, w.decisions[key].decide, failed)),
              decisions := w.decisions[key := w.decisions[key].(resolved := true, failed := failed)])
    case EndDecide(key, ok) =>
      if key !in w.decisions || !w.decisions[key].resolved then w
      else w.(s := PlanFinish(w.s, w.decisions[key].approvalID, w.decisions[key].decide, w.decisions[key].failed, ok),
              decisions := w.decisions - {key})
    case Approval(p, content, ok) =>
      // The agent makes up a new id for every request and names the turn it was prompted for.
      if ApprovalSeen(w.s.log, p.id) || !Prompted(w.s.log, p.turnID) then w
      else w.(s := OnApproval(w.s, p, content, ok))
    case LoseConnection(ok) => w.(s := DisconnectLocked(w.s, ByCaller, ok))
  }

  function NextLife(w: World, a: LifeAction): World {
    match a
    case BeginStart(ok) =>
      if !w.dispatch.NotBegun? then w
      else w.(s := StartBegin(w.s, w.dispatch.copy, ok),
              dispatch := if ok then Waiting(w.dispatch.copy.(state := JobState.Starting), w.s.rt.gen) else Over)
    case EndStart(sessionID, planning, ok, ok2) =>
      if !w.dispatch.Waiting? then w
      else w.(s := StartFinish(w.s, w.dispatch.copy, w.dispatch.gen, sessionID, planning, ok, ok2), dispatch := Over)
    case CloseService => w.(s := CloseAll(w.s))
    case RestartService(ok) => World(Restart(w.s, ok), map[], {}, map[], map[], map[], Over)
  }

  function AtLaunch(w: World, key: nat, stage: LaunchStage): bool {
    key in w.launches && w.launches[key].stage == stage
  }

  function ToLaunch(w: World, key: nat, stage: LaunchStage): World
    requires key in w.launches
  {
    w.(launches := w.launches[key := w.launches[key].(stage := stage)])
  }

  function NextLaunch(w: World, a: LaunchAction): World {
    match a
    case AskHeaded(key, ok) =>
      if key in w.launches then w
      else w.(s := RequestHeaded(w.s, ok),
              launches := w.launches[key := Launch(w.s.rt.viewEpoch + 1, ApprovalHoldsTurn(w.s.job),
                if w.s.job.sessionID == 0 then Failing else Begun)])
    case AttachDesired(key) =>
      if key in w.launches || !w.s.rt.viewRequested || !w.s.job.view.desired.Headed?
        || !w.s.job.view.mode.Attaching? then w
      else w.(launches := w.launches[key := Launch(w.s.rt.viewEpoch, ApprovalHoldsTurn(w.s.job), Begun)])
    case CheckLaunch(key, holds) =>
      if !AtLaunch(w, key, Begun) then w
      else if w.s.closed || !ViewCurrent(w.s, w.launches[key].epoch) then w.(launches := w.launches - {key})
      else w.(launches := w.launches[key := Launch(w.launches[key].epoch, holds, Checked)])
    case ReuseTerminal(key, alive, ready, ok) =>
      if !AtLaunch(w, key, Checked) || w.s.rt.term == 0 then w
      else if !alive then w.(s := w.s.(rt := w.s.rt.(term := 0)))
      else if !ready then w.(launches := w.launches - {key})
      else w.(s := MarkHeaded(w.s, w.launches[key].epoch, ok), launches := w.launches - {key})
    case DeferLaunch(key) =>
      if !AtLaunch(w, key, Checked) || w.launches[key].holds then w
      else if w.s.rt.busy then w.(launches := w.launches - {key})
      else ToLaunch(w, key, Ready)
    case YieldTurn(key) =>
      if !AtLaunch(w, key, Checked) || !w.launches[key].holds then w
      else if w.s.rt.busy then ToLaunch(w, key, Yielding).(s := YieldBump(w.s))
      else ToLaunch(w, key, Ready)
    case SeeQuiet(key) =>
      if !AtLaunch(w, key, Yielding) || w.s.rt.busy then w else ToLaunch(w, key, Quiet)
    case MarkYielded(key, ok, cancelFailed) =>
      if !AtLaunch(w, key, Quiet) then w
      else ToLaunch(w, key, if ok && !cancelFailed then Ready else Failing).(s := YieldMark(w.s, ok))
    case GiveUp(key) =>
      if !AtLaunch(w, key, Yielding) then w else ToLaunch(w, key, Failing)
    case SaveLaunch(key, ok) =>
      if !AtLaunch(w, key, Ready) then w
      else if !ViewCurrent(w.s, w.launches[key].epoch) then w.(launches := w.launches - {key})
      else ToLaunch(w, key, Opening).(s := LaunchSave(w.s, w.launches[key].epoch, ok))
    case TerminalReady(key) =>
      if !AtLaunch(w, key, Opening) then w
      else if ViewCurrent(w.s, w.launches[key].epoch) then ToLaunch(w, key, Opened)
      else if w.s.rt.viewRequested then w.(launches := w.launches - {key})
      else ToLaunch(w, key, Reconciling)
    case InstallTerminal(key, handle, ok) =>
      if !AtLaunch(w, key, Opened) then w
      else w.(s := CommitHeaded(w.s, w.launches[key].epoch, handle, ok), launches := w.launches - {key})
    case FailLaunch(key, alive, ok) =>
      if !AtLaunch(w, key, Opening) && !AtLaunch(w, key, Failing) then w
      else w.(s := FailHeadless(w.s, w.launches[key].epoch, alive, ok), launches := w.launches - {key})
    case ReconcileLaunch(key, alive, ok) =>
      if !AtLaunch(w, key, Reconciling) then w
      else w.(s := ReconcileClosed(w.s, alive, ok), launches := w.launches - {key})
    case EndWatch(handle, gen) => w.(s := WatchEnded(w.s, handle, gen))
  }

  function NextDetach(w: World, a: DetachAction): World {
    match a
    case AskHeadless(key, ok) =>
      if key in w.detaches then w
      else w.(s := RequestHeadless(w.s, ok), detaches := w.detaches[key := Wanted(w.s.rt.viewEpoch + 1)])
    case BeginDetach(key, fromClose, ok) =>
      if key in w.detaches then w else StartDetach(w, key, fromClose, 0, ok)
    case GoDetach(key, ok) =>
      if key !in w.detaches || !w.detaches[key].Wanted? then w
      else StartDetach(w.(detaches := w.detaches - {key}), key, false, w.detaches[key].epoch, ok)
    case CheckDetach(key, alive, ok) =>
      if key !in w.detaches || !w.detaches[key].Closing? then w
      else if !DetachOwnsView(w.s, w.detaches[key].gen) then w.(detaches := w.detaches - {key})
      else if alive then w.(s := DetachToBackground(w.s, ok), detaches := w.detaches - {key})
      else w.(detaches := w.detaches[key := Loading(w.detaches[key].gen)])
    case EndDetach(key, ok) =>
      if key !in w.detaches || !w.detaches[key].Loading? then w
      else w.(s := DetachFinish(w.s, w.detaches[key].gen, ok), detaches := w.detaches - {key})
  }

  /** `detachExpected`: a stale or idle detach starts no thread. */
  function StartDetach(w: World, key: nat, fromClose: bool, expected: nat, ok: bool): World {
    var s1 := DetachBegin(w.s, fromClose, expected, ok);
    if !DetachCurrent(w.s, expected) || DetachIdle(w.s, fromClose) || w.s.closed then w.(s := s1)
    else w.(s := s1, detaches := w.detaches[key := Closing(s1.rt.attachGen)])
  }

  function Next(w: World, a: Action): World {
    match a
    case OnTurn(t) => NextTurn(w, t)
    case OnControl(c) => NextControl(w, c)
    case OnLife(l) => NextLife(w, l)
    case OnLaunch(v) => NextLaunch(w, v)
    case OnDetach(d) => NextDetach(w, d)
  }

  /** The record that a dispatch writes. */
  predicate Dispatched(job: Job) {
    && job.state.Created? && job.sessionID == 0 && job.requestID != 0 && !job.userCancelled
    && job.activeTurnID == 0 && job.resultTurnID == 0 && job.pause == NoPause && job.phase == QueuedPhase
    && job.view == View(Headless, Headless, SupervisorOwner)
    && job.approval == Protocol.Approval(0, 0, false, NoDelivery, false, 0, 0, "")
  }

  /** The dispatcher goes on with the record as it built it, before the store put in the phase. */
  function Init(job: Job): World {
    World(Shared(job, FreshRuntime, false, 0, NotYet, 0, Then(Start, Committed(job, ByCaller))),
          map[], {}, map[], map[], map[], NotBegun(job.(phase := NoPhase)))
  }

  /** The world after `actions`, oldest first. */
  function Run(job: Job, actions: seq<Action>): World {
    if actions == [] then Init(job) else Next(Run(job, actions[..|actions| - 1]), actions[|actions| - 1])
  }
}
