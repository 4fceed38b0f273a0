/**
 The job's object together with the threads that work on it: the machine of `Runs` in the supervisor's own form.
 Every action is carried out by the methods of `JobRuntime`, so what is proved of runs holds of the object.
 */
module JobMachine {
  import opened Protocol
  import opened Supervisor
  import opened Runs
  import J = JobRuntime
  import RecordWrites
  import RunApprovals
  import RunRecords
  import RunTurns

  class JobMachine {
    const runtime: J.JobRuntime
    var turns: map<Id, Turn>
    var cancels: set<nat>
    var decisions: map<nat, Decided>
    var launches: map<nat, Launch>
    var detaches: map<nat, Detach>
    var dispatch: Dispatch

    ghost function World(): Runs.World
      reads this, runtime
    {
      Runs.World(runtime.State(), turns, cancels, decisions, launches, detaches, dispatch)
    }

    constructor (job: Job)
      ensures World() == Init(job) && fresh(runtime)
    {
      runtime := new J.JobRuntime(job);
      turns, cancels, decisions, launches, detaches := map[], {}, map[], map[], map[];
      dispatch := NotBegun(job.(phase := NoPhase));
    }

    // -------------------------------------------------------------- turns

    method Pump(turn: Id, live: bool, ok: bool)
      modifies this, runtime
      ensures World() == NextTurn(old(World()), PumpGo(turn, live, ok))
    {
      hide PumpTop, Took;
      if runtime.heads == 0 || turn == 0 || TurnSeen(runtime.log, turn) { return; }
      var taken := runtime.PumpTop(turn, live, ok);
      if taken.Some? { turns := turns[turn := Turn(taken.value, Taken)]; }
    }

    /** `runItem` up to the mark, and what it hands back when it stops. */
    method Prepare(a: TurnAction)
      requires a.ReadJob? || a.SetupFails? || a.MarkTurn?
      modifies this, runtime
      ensures World() == NextTurn(old(World()), a)
    {
      hide MarkSent, Kick, PumpTop, Took, EndTurn, Returned;
      if a.turn !in turns { return; }
      var t := turns[a.turn];
      match a {
        case ReadJob(turn) =>
          if t.stage.Taken? {
            var next := Preparing(runtime.job);
            if runtime.job.userCancelled { next := Ending(Nothing); }
            else if runtime.job.view.mode.Detaching? { next := Ending(Reenqueue); }
            else { runtime.Record(RecordRead(turn)); }
            turns := turns[turn := t.(stage := next)];
          }
        case SetupFails(turn, loading, disconnect) =>
          if t.stage.Preparing? {
            runtime.Record(SetupBroke(turn, loading, disconnect));
            var next := Ending(SetupFailed(disconnect, t.stage.copy));
            if loading && !t.item.kind.PlanItem? { next := Ending(LoadFailed); }
            turns := turns[turn := t.(stage := next)];
          }
        case MarkTurn(turn, ok) =>
          if t.stage.Preparing? {
            var sent := runtime.MarkSent(t.item, turn, ok);
            turns := turns[turn := t.(stage := if sent then Marked else Ending(Nothing))];
          }
      }
    }

    method Prompt(a: TurnAction)
      requires a.CallPrompt? || a.PromptReturns? || a.FinishTurn?
      modifies this, runtime
      ensures World() == NextTurn(old(World()), a)
    {
      hide MarkSent, Kick, PumpTop, Took, EndTurn;
      if a.turn !in turns { return; }
      var t := turns[a.turn];
      match a {
        case CallPrompt(turn) =>
          if t.stage.Marked? {
            runtime.Record(PromptCalled(turn));
            turns := turns[turn := t.(stage := Prompting)];
          }
        case PromptReturns(turn, failed, disconnect, marker) =>
          if t.stage.Prompting? {
            var finish := Answer(marker);
            if t.item.gen != runtime.rt.gen { finish := Nothing; }
            else if failed { finish := if runtime.rt.ctxDone then Nothing else PromptFailed(disconnect); }
            runtime.Record(PromptReturned(turn, failed, disconnect, marker));
            turns := turns[turn := t.(stage := Ending(finish))];
          }
        case FinishTurn(turn, cancelledRequest, ok, ok2) =>
          if t.stage.Ending? {
            var _ := runtime.EndTurn(t.item, turn, t.stage.finish, cancelledRequest, ok, ok2);
            turns := turns - {turn};
          }
      }
    }

    method DoTurn(a: TurnAction)
      modifies this, runtime
      ensures World() == NextTurn(old(World()), a)
    {
      if a.PumpGo? {
        Pump(a.turn, a.live, a.ok);
      } else if a.ReadJob? || a.SetupFails? || a.MarkTurn? {
        Prepare(a);
      } else if a.KickPump? {
        runtime.Kick();
      } else {
        Prompt(a);
      }
    }

    // -------------------------------------------------------------- callers

    method DoCancel(a: ControlAction)
      requires a.DoCancelRequest? || a.BeginCancel? || a.EndCancel?
      modifies this, runtime
      ensures World() == NextControl(old(World()), a)
    {
      hide CancelRequest, CancelStarts, CancelFinish;
      match a {
        case DoCancelRequest(requestID, turnID, persisted, updated) =>
          var _ := runtime.CancelRequest(requestID, turnID, persisted, updated);
        case BeginCancel(expected, ok) =>
          var generation := runtime.CancelStart(expected, ok);
          if generation.Some? { cancels := cancels + {generation.value}; }
        case EndCancel(generation, failed, ok) =>
          if generation in cancels {
            runtime.CancelFinish(generation, failed, ok);
            cancels := cancels - {generation};
          }
      }
    }

    method DoDecide(a: ControlAction)
      requires a.Decide? || a.Resolve? || a.EndDecide?
      modifies this, runtime
      ensures World() == NextControl(old(World()), a)
    {
      hide PlanFinish, Decidable, Save;
      match a {
        case Decide(key, d, pending, ok) =>
          if key !in decisions && ok {
            var submitted := runtime.PlanSubmit(d, pending, ok);
            if submitted { decisions := decisions[key := Decided(d.approvalID, d.decide, false, false)]; }
          }
        case Resolve(key, failed) =>
          if key in decisions && !decisions[key].resolved {
            runtime.Record(Resolved(decisions[key].approvalID, decisions[key].decide, failed));
            decisions := decisions[key := decisions[key].(resolved := true, failed := failed)];
          }
        case EndDecide(key, ok) =>
          if key in decisions && decisions[key].resolved {
            runtime.PlanFinish(decisions[key].approvalID, decisions[key].decide, decisions[key].failed, ok);
            decisions := decisions - {key};
          }
      }
    }

    method DoWork(a: ControlAction)
      requires a.DoFollowup? || a.DoContinue? || a.Approval? || a.LoseConnection?
      modifies this, runtime
      ensures World() == NextControl(old(World()), a)
    {
      hide Followup, Continue, OnApproval, DisconnectLocked;
      match a {
        case DoFollowup(requestID, planning, live, ok) => runtime.Followup(requestID, planning, live, ok);
        case DoContinue(planning, live, rows, newID, ok) => runtime.Continue(planning, live, rows, newID, ok);
        case Approval(p, content, ok) =>
          if !ApprovalSeen(runtime.log, p.id) && Prompted(runtime.log, p.turnID) { runtime.OnApproval(p, content, ok); }
        case LoseConnection(ok) => runtime.DisconnectLocked(ByCaller, ok);
      }
    }

    method DoControl(a: ControlAction)
      modifies this, runtime
      ensures World() == NextControl(old(World()), a)
    {
      if a.DoFollowup? || a.DoContinue? || a.Approval? || a.LoseConnection? {
        DoWork(a);
      } else if a.Decide? || a.Resolve? || a.EndDecide? {
        DoDecide(a);
      } else {
        DoCancel(a);
      }
    }

    method DoLife(a: LifeAction)
      modifies this, runtime
      ensures World() == NextLife(old(World()), a)
    {
      hide StartBegin, StartFinish, CloseAll, Restart;
      match a {
        case BeginStart(ok) =>
          if dispatch.NotBegun? {
            var copy := dispatch.copy;
            var generation := runtime.StartBegin(copy, ok);
            dispatch := if ok then Waiting(copy.(state := JobState.Starting), generation) else Over;
          }
        case EndStart(sessionID, planning, ok, ok2) =>
          if dispatch.Waiting? {
            runtime.StartFinish(dispatch.copy, dispatch.gen, sessionID, planning, ok, ok2);
            dispatch := Over;
          }
        case CloseService => runtime.Close();
        case RestartService(ok) =>
          runtime.Restart(ok);
          turns, cancels, decisions, launches, detaches, dispatch := map[], {}, map[], map[], map[], Over;
      }
    }

    // -------------------------------------------------------------- terminals

    /** A launch on its way to the save of its view. */
    method Approach(a: LaunchAction)
      requires a.AskHeaded? || a.AttachDesired? || a.CheckLaunch? || a.ReuseTerminal? || a.DeferLaunch?
      modifies this, runtime
      ensures World() == NextLaunch(old(World()), a)
    {
      hide RequestHeaded, MarkHeaded;
      var key := a.key;
      var rt, job := runtime.rt, runtime.job;
      match a {
        case AskHeaded(_, ok) =>
          if key !in launches {
            var epoch := runtime.RequestHeaded(ok);
            launches := launches[key := Launch(rt.viewEpoch + 1, ApprovalHoldsTurn(job),
              if job.sessionID == 0 then Failing else Begun)];
          }
        case AttachDesired(_) =>
          if key !in launches && rt.viewRequested && job.view.desired.Headed? && job.view.mode.Attaching? {
            launches := launches[key := Launch(rt.viewEpoch, ApprovalHoldsTurn(job), Begun)];
          }
        case CheckLaunch(_, holds) =>
          if key in launches && launches[key].stage.Begun? {
            if runtime.closed || !rt.viewRequested || rt.viewEpoch != launches[key].epoch {
              launches := launches - {key};
            }
            else { launches := launches[key := Launch(launches[key].epoch, holds, Checked)]; }
          }
        case ReuseTerminal(_, alive, ready, ok) =>
          if key in launches && launches[key].stage.Checked? && rt.term != 0 {
            if !alive { runtime.ForgetTerminal(); return; }
            if ready { runtime.MarkHeaded(launches[key].epoch, ok); }
            launches := launches - {key};
          }
        case DeferLaunch(_) =>
          if key in launches && launches[key].stage.Checked? && !launches[key].holds {
            if rt.busy {
              launches := launches - {key};
            } else {
              launches := launches[key := launches[key].(stage := Ready)];
            }
          }
      }
    }

    /** A launch that lets a waiting turn give way. */
    method GiveWay(a: LaunchAction)
      requires a.YieldTurn? || a.SeeQuiet? || a.MarkYielded? || a.GiveUp?
      modifies this, runtime
      ensures World() == NextLaunch(old(World()), a)
    {
      hide YieldBump, YieldMark;
      var key := a.key;
      if key !in launches { return; }
      var l := launches[key];
      match a {
        case YieldTurn(_) =>
          if l.stage.Checked? && l.holds {
            var busy := runtime.rt.busy;
            if busy { var _ := runtime.YieldBump(); }
            launches := launches[key := l.(stage := if busy then Yielding else Ready)];
          }
        case SeeQuiet(_) =>
          if l.stage.Yielding? && !runtime.rt.busy { launches := launches[key := l.(stage := Quiet)]; }
        case MarkYielded(_, ok, cancelFailed) =>
          if l.stage.Quiet? {
            runtime.MarkYieldedRequest(ok);
            launches := launches[key := l.(stage := if ok && !cancelFailed then Ready else Failing)];
          }
        case GiveUp(_) =>
          if l.stage.Yielding? { launches := launches[key := l.(stage := Failing)]; }
      }
    }

    /** A launch that saves its view, opens its terminal, and ends. */
    method Open(a: LaunchAction)
      requires a.SaveLaunch? || a.TerminalReady? || a.InstallTerminal? || a.FailLaunch? || a.ReconcileLaunch?
      modifies this, runtime
      ensures World() == NextLaunch(old(World()), a)
    {
      hide LaunchSave, CommitHeaded, FailHeadless, ReconcileClosed;
      var key := a.key;
      if key !in launches { return; }
      var l := launches[key];
      match a {
        case SaveLaunch(_, ok) =>
          if l.stage.Ready? {
            if runtime.rt.viewRequested && runtime.rt.viewEpoch == l.epoch {
              var _ := runtime.LaunchSave(l.epoch, ok);
              launches := launches[key := l.(stage := Opening)];
            } else {
              launches := launches - {key};
            }
          }
        case TerminalReady(_) =>
          if l.stage.Opening? {
            if runtime.rt.viewRequested && runtime.rt.viewEpoch == l.epoch {
              launches := launches[key := l.(stage := Opened)];
            }
            else if runtime.rt.viewRequested { launches := launches - {key}; }
            else { launches := launches[key := l.(stage := Reconciling)]; }
          }
        case InstallTerminal(_, handle, ok) =>
          if l.stage.Opened? {
            runtime.CommitHeaded(l.epoch, handle, ok);
            launches := launches - {key};
          }
        case FailLaunch(_, alive, ok) =>
          if l.stage.Opening? || l.stage.Failing? {
            runtime.FailHeadless(l.epoch, alive, ok);
            launches := launches - {key};
          }
        case ReconcileLaunch(_, alive, ok) =>
          if l.stage.Reconciling? {
            runtime.ReconcileClosed(alive, ok);
            launches := launches - {key};
          }
      }
    }

    method DoLaunch(a: LaunchAction)
      modifies this, runtime
      ensures World() == NextLaunch(old(World()), a)
    {
      if a.EndWatch? {
        runtime.WatchEnded(a.handle, a.gen);
      } else if a.AskHeaded? || a.AttachDesired? || a.CheckLaunch? || a.ReuseTerminal? || a.DeferLaunch? {
        Approach(a);
      } else if a.YieldTurn? || a.SeeQuiet? || a.MarkYielded? || a.GiveUp? {
        GiveWay(a);
      } else {
        Open(a);
      }
    }

    method BeginDetaching(key: nat, fromClose: bool, expected: nat, ok: bool)
      modifies this, runtime
      ensures World() == StartDetach(old(World()), key, fromClose, expected, ok)
    {
      hide DetachBegin, DetachCurrent, DetachIdle;
      var closed := runtime.closed;
      var go := runtime.DetachBegin(fromClose, expected, ok);
      if go && !closed { detaches := detaches[key := Closing(runtime.rt.attachGen)]; }
    }

    method DoDetach(a: DetachAction)
      modifies this, runtime
      ensures World() == NextDetach(old(World()), a)
    {
      hide RequestHeadless, DetachToBackground, DetachFinish, DetachOwnsView, StartDetach;
      var key := a.key;
      match a {
        case AskHeadless(_, ok) =>
          if key !in detaches {
            var epoch := runtime.rt.viewEpoch + 1;
            var _ := runtime.RequestHeadless(ok);
            detaches := detaches[key := Wanted(epoch)];
          }
        case BeginDetach(_, fromClose, ok) =>
          if key !in detaches { BeginDetaching(key, fromClose, 0, ok); }
        case GoDetach(_, ok) =>
          if key in detaches && detaches[key].Wanted? {
            var epoch := detaches[key].epoch;
            detaches := detaches - {key};
            BeginDetaching(key, false, epoch, ok);
          }
        case CheckDetach(_, alive, ok) =>
          if key in detaches && detaches[key].Closing? {
            var gen := detaches[key].gen;
            var goOn := runtime.DetachCheck(gen, alive, ok);
            if goOn { detaches := detaches[key := Loading(gen)]; } else { detaches := detaches - {key}; }
          }
        case EndDetach(_, ok) =>
          if key in detaches && detaches[key].Loading? {
            runtime.DetachFinish(detaches[key].gen, ok);
            detaches := detaches - {key};
          }
      }
    }

    method Do(a: Action)
      modifies this, runtime
      ensures World() == Next(old(World()), a)
    {
      match a {
        case OnTurn(t) => DoTurn(t);
        case OnControl(c) => DoControl(c);
        case OnLife(l) => DoLife(l);
        case OnLaunch(v) => DoLaunch(v);
        case OnDetach(d) => DoDetach(d);
      }
    }
  }

  /** The object after any sequence of actions: it keeps the fence and delivers each decision once. */
  method Drive(job: Job, actions: seq<Action>) returns (m: JobMachine)
    requires Dispatched(job)
    ensures fresh(m) && m.World() == Run(job, actions)
    ensures RunTurns.OneTurnAtATime(m.runtime.log) && RunTurns.FencedWrites(m.runtime.log)
      && RunTurns.MarkedBeforeSent(m.runtime.log)
    ensures RunTurns.CancelIsFinal(m.runtime.log) && RunTurns.SentFromInside(m.runtime.log)
    ensures RunApprovals.ResolvedOnceAfterMark(m.runtime.log) && RunApprovals.SettledStaysSettled(m.runtime.log)
    ensures RecordWrites.Explained(m.runtime.log) && RecordWrites.AnswersSettle(m.runtime.log)
      && RecordWrites.DecisionsSettle(m.runtime.log) && RecordWrites.DecisionsStand(m.runtime.log)
    ensures m.turns.Keys == (if m.runtime.rt.busy then {m.runtime.rt.turnID} else {})
  {
    hide Next, Init, RunTurns.OneTurnAtATime, RunTurns.FencedWrites, RunTurns.MarkedBeforeSent, RunTurns.CancelIsFinal,
      RunTurns.SentFromInside,
         RunApprovals.ResolvedOnceAfterMark, RunApprovals.SettledStaysSettled, RecordWrites.Explained,
         RecordWrites.AnswersSettle, RecordWrites.DecisionsSettle, RecordWrites.DecisionsStand;
    m := new JobMachine(job);
    for i := 0 to |actions|
      invariant fresh(m) && fresh(m.runtime) && m.World() == Run(job, actions[..i])
    {
      m.Do(actions[i]);
      assert actions[..i + 1][..i] == actions[..i];
    }
    assert actions[..|actions|] == actions;
    RunTurns.RunsKeepTheFence(job, actions);
    RunApprovals.RunsDeliverOnce(job, actions);
    RunRecords.RunsExplainTheRecord(job, actions);
    RunRecords.RunsSettleAnswers(job, actions);
    RunRecords.RunsSettleDecisions(job, actions);
  }
}
