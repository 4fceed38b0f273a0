/** What every view action does to the shared state, apart from letting a turn give way. */
module ViewSteps {
  import opened Protocol
  import opened Supervisor
  import opened Runs

  predicate ViewEvent(e: Event) {
    e.HeadedRequested? || e.HeadlessRequested? || e.LaunchSaved? || e.Installed? || e.MadeHeadless?
  }

  /**
   What a view event makes of the record's view: a request to show the job leaves its mode unless the job was
   headless and takes the input from the supervisor, a request to hide it says whether a terminal is being closed, a
   launch holds the input until its terminal is there, and a headless job is the terminal's while its worker lives on.
   */
  predicate ViewAfter(e: Event, v: View, v': View) {
    match e
    case HeadedRequested(_, _) =>
      v' == View(if v.mode.Headless? then Attaching else v.mode, Headed,
                 if v.owner.SupervisorOwner? then HandoffOwner else v.owner)
    case HeadlessRequested(closing, _) => v' == v.(desired := Headless, mode := if closing then Detaching else v.mode)
    case LaunchSaved(_, _) => v' == View(Attaching, Headed, HandoffOwner)
    case Installed(_, _) => v' == View(Headed, Headed, TuiOwner)
    case MadeHeadless(origin, alive) =>
      v' == View(Headless, if origin.FinishedDetach? then v.desired else Headless,
                 if alive then TuiOwner else SupervisorOwner)
    case _ => v' == v
  }

  /**
   What it makes of the runtime: who asked last, in a new epoch; which terminal is installed; and a new generation
   when one is installed or dropped. Without an event at most a terminal that is gone is forgotten.
   */
  predicate RuntimeAfter(e: Option<Event>, rt: Runtime, rt': Runtime) {
    match e
    case Some(HeadedRequested(epoch, _)) =>
      epoch == rt.viewEpoch + 1 && rt' == rt.(viewRequested := true, viewEpoch := epoch)
    case Some(HeadlessRequested(closing, fromClose)) =>
      var next := rt.(viewRequested := false, viewEpoch := rt.viewEpoch + 1);
      rt' == if closing && !fromClose then next.(attachGen := rt.attachGen + 1, term := 0) else next
    case Some(Installed(_, Some(handle))) => rt' == rt.(term := handle, attachGen := rt.attachGen + 1)
    case Some(MadeHeadless(FailedLaunch(epoch), _)) =>
      epoch == rt.viewEpoch && rt' == rt.(viewRequested := false, viewEpoch := epoch + 1)
    case Some(_) => rt' == rt
    case None => rt' == rt || rt' == rt.(term := 0)
  }

  /** At most one view event, then at most one save, which rewrites the view and nothing else of the record. */
  predicate ViewEffect(s: Shared, s': Shared, e: Option<Event>, saved: bool) {
    var h := if e.Some? then Then(s.log, e.value) else s.log;
    && (e.Some? ==> ViewEvent(e.value))
    && (if saved
        then s'.job == s.job.(view := s'.job.view, activeTurnID := s.rt.turnID)
          && s'.log == Then(h, Committed(s'.job, ByCaller)) && e.Some? && ViewAfter(e.value, s.job.view, s'.job.view)
        else s'.job == s.job && s'.log == h)
    && s'.rt == s.rt.(viewRequested := s'.rt.viewRequested, viewEpoch := s'.rt.viewEpoch, attachGen := s'.rt.attachGen,
      term := s'.rt.term)
    && RuntimeAfter(e, s.rt, s'.rt)
    && s'.closed == s.closed && s'.accepted == s.accepted && s'.heads >= s.heads && s'.lastExit == s.lastExit
  }

  lemma NoEffect(s: Shared)
    ensures ViewEffect(s, s, None, false)
  {
  }

  lemma RequestEffects(s: Shared, ok: bool)
    ensures ViewEffect(s, RequestHeaded(s, ok), Some(HeadedRequested(s.rt.viewEpoch + 1, ok)), ok)
    ensures ViewEffect(s, RequestHeadless(s, ok), Some(HeadlessRequested(false, false)), ok)
  {
  }

  lemma InstallEffect(s: Shared, epoch: nat, handle: Id, ok: bool) returns (e: Option<Event>)
    ensures ViewEffect(s, CommitHeaded(s, epoch, handle, ok), e, ok && e.Some?)
    ensures e.None? || e.value == Installed(epoch, Some(handle))
  {
    e := if s.closed || !ViewCurrent(s, epoch) then None else Some(Installed(epoch, Some(handle)));
  }

  lemma MarkHeadedEffect(s: Shared, epoch: nat, ok: bool) returns (e: Option<Event>)
    ensures ViewEffect(s, MarkHeaded(s, epoch, ok), e, ok && e.Some?)
    ensures e.None? || e.value == Installed(epoch, None)
  {
    e := if !ViewCurrent(s, epoch) then None else Some(Installed(epoch, None));
  }

  lemma LaunchSaveEffect(s: Shared, epoch: nat, ok: bool)
    requires ViewCurrent(s, epoch)
    ensures ViewEffect(s, LaunchSave(s, epoch, ok), Some(LaunchSaved(epoch, ok)), ok)
  {
  }

  lemma FailEffect(s: Shared, epoch: nat, alive: bool, ok: bool) returns (e: Option<Event>)
    ensures ViewEffect(s, FailHeadless(s, epoch, alive, ok), e, ok && e.Some?)
    ensures e.None? || e.value == MadeHeadless(FailedLaunch(epoch), alive)
  {
    e := if !ViewCurrent(s, epoch) then None else Some(MadeHeadless(FailedLaunch(epoch), alive));
  }

  lemma ReconcileEffect(s: Shared, alive: bool, ok: bool) returns (e: Option<Event>)
    ensures ViewEffect(s, ReconcileClosed(s, alive, ok), e, ok && e.Some?)
    ensures e.None? || e.value == MadeHeadless(ClosedLaunch, alive)
  {
    e := if s.rt.viewRequested then None else Some(MadeHeadless(ClosedLaunch, alive));
  }

  lemma DetachEffects(s: Shared, gen: nat, ok: bool)
    ensures ViewEffect(s, DetachToBackground(s, ok), Some(MadeHeadless(FinishedDetach, true)), ok)
    ensures DetachOwnsView(s, gen) ==>
      ViewEffect(s, DetachFinish(s, gen, ok), Some(MadeHeadless(FinishedDetach, false)), ok)
  {
  }

  lemma DetachBeginEffect(s: Shared, fromClose: bool, expected: nat, ok: bool) returns (e: Option<Event>, saved: bool)
    ensures ViewEffect(s, DetachBegin(s, fromClose, expected, ok), e, saved)
    ensures e.None? || e.value.HeadlessRequested?
  {
    if !DetachCurrent(s, expected) {
      e, saved := None, false;
    } else {
      e := Some(HeadlessRequested(!DetachIdle(s, fromClose), fromClose));
      saved := ok && !(DetachIdle(s, fromClose) && s.job.view.desired.Headless?);
    }
  }

  /** A launch action, other than one that ends a waiting turn. */
  predicate ViewOnly(a: LaunchAction) {
    !a.YieldTurn? && !a.MarkYielded?
  }

  predicate Saves(w: World, a: LaunchAction, e: Option<Event>) {
    e.Some? && e.value.LaunchSaved? ==>
      a.SaveLaunch? && AtLaunch(w, a.key, Ready) && ViewCurrent(w.s, e.value.epoch)
        && w.launches[a.key].epoch == e.value.epoch
  }

  lemma ForgetEffect(s: Shared, handle: Id, gen: nat)
    ensures ViewEffect(s, s.(rt := s.rt.(term := 0)), None, false)
    ensures ViewEffect(s, WatchEnded(s, handle, gen), None, false)
  {
  }

  lemma ReuseEffect(w: World, key: nat, alive: bool, ready: bool, ok: bool) returns (e: Option<Event>, saved: bool)
    ensures ViewEffect(w.s, NextLaunch(w, ReuseTerminal(key, alive, ready, ok)).s, e, saved)
    ensures e.Some? ==> e.value.Installed?
  {
    hide ViewEffect;
    NoEffect(w.s);
    ForgetEffect(w.s, 0, 0);
    e, saved := None, false;
    if AtLaunch(w, key, Checked) && w.s.rt.term != 0 && alive && ready {
      e := MarkHeadedEffect(w.s, w.launches[key].epoch, ok);
      saved := ok && e.Some?;
    }
  }

  lemma LaunchEffect(w: World, a: LaunchAction) returns (e: Option<Event>, saved: bool)
    requires ViewOnly(a)
    ensures ViewEffect(w.s, NextLaunch(w, a).s, e, saved) && Saves(w, a, e)
  {
    hide ViewEffect;
    NoEffect(w.s);
    e, saved := None, false;
    match a
    case EndWatch(handle, gen) => ForgetEffect(w.s, handle, gen);
    case AskHeaded(key, ok) =>
      RequestEffects(w.s, ok);
      if a.key !in w.launches { e, saved := Some(HeadedRequested(w.s.rt.viewEpoch + 1, a.ok)), a.ok; }
    case ReuseTerminal(key, alive, ready, ok) => e, saved := ReuseEffect(w, key, alive, ready, ok);
    case SaveLaunch(key, ok) =>
      if AtLaunch(w, key, Ready) && ViewCurrent(w.s, w.launches[key].epoch) {
        LaunchSaveEffect(w.s, w.launches[key].epoch, ok);
        e, saved := Some(LaunchSaved(w.launches[key].epoch, ok)), ok;
      }
    case InstallTerminal(key, handle, ok) =>
      if AtLaunch(w, key, Opened) {
        e := InstallEffect(w.s, w.launches[key].epoch, handle, ok);
        saved := ok && e.Some?;
      }
    case FailLaunch(key, alive, ok) =>
      if AtLaunch(w, key, Opening) || AtLaunch(w, key, Failing) {
        e := FailEffect(w.s, w.launches[key].epoch, alive, ok);
        saved := ok && e.Some?;
      }
    case ReconcileLaunch(key, alive, ok) =>
      if AtLaunch(w, key, Reconciling) {
        e := ReconcileEffect(w.s, alive, ok);
        saved := ok && e.Some?;
      }
    case _ =>
  }

  lemma DetachEffect(w: World, a: DetachAction) returns (e: Option<Event>, saved: bool)
    ensures ViewEffect(w.s, NextDetach(w, a).s, e, saved)
    ensures e.Some? ==> e.value.HeadlessRequested? || e.value.MadeHeadless?
  {
    hide ViewEffect;
    NoEffect(w.s);
    e, saved := None, false;
    match a
    case AskHeadless(key, ok) =>
      RequestEffects(w.s, ok);
      if a.key !in w.detaches { e, saved := Some(HeadlessRequested(false, false)), a.ok; }
    case BeginDetach(key, fromClose, ok) =>
      if key !in w.detaches { e, saved := DetachBeginEffect(w.s, fromClose, 0, ok); }
    case GoDetach(key, ok) =>
      if key in w.detaches && w.detaches[key].Wanted? {
        e, saved := DetachBeginEffect(w.s, false, w.detaches[key].epoch, ok);
      }
    case CheckDetach(key, alive, ok) =>
      DetachEffects(w.s, 0, ok);
      if key in w.detaches && w.detaches[key].Closing? && DetachOwnsView(w.s, w.detaches[key].gen) && alive {
        e, saved := Some(MadeHeadless(FinishedDetach, true)), ok;
      }
    case EndDetach(key, ok) =>
      if key in w.detaches && w.detaches[key].Loading? && DetachOwnsView(w.s, w.detaches[key].gen) {
        DetachEffects(w.s, w.detaches[key].gen, ok);
        e, saved := Some(MadeHeadless(FinishedDetach, false)), ok;
      }
  }

  predicate SameThreads(w: World, v: World) {
    v.turns == w.turns && v.cancels == w.cancels && v.decisions == w.decisions && v.dispatch == w.dispatch
  }

  /** The launch has not saved its view yet. */
  predicate Approaches(a: LaunchAction) {
    a.AskHeaded? || a.AttachDesired? || a.CheckLaunch? || a.ReuseTerminal? || a.DeferLaunch? || a.YieldTurn?
      || a.SeeQuiet?
  }

  lemma ApproachThreads(w: World, a: LaunchAction)
    requires Approaches(a)
    ensures SameThreads(w, NextLaunch(w, a))
  {
    hide AtLaunch, ViewCurrent, RequestHeaded, MarkHeaded, YieldBump, ApprovalHoldsTurn;
  }

  lemma OpeningThreads(w: World, a: LaunchAction)
    requires !Approaches(a)
    ensures SameThreads(w, NextLaunch(w, a))
  {
    hide AtLaunch, ViewCurrent, YieldMark, LaunchSave, CommitHeaded, FailHeadless, ReconcileClosed, WatchEnded;
  }

  /** Launches and detaches leave the turns and the other threads alone. */
  lemma LaunchThreads(w: World, a: LaunchAction)
    ensures SameThreads(w, NextLaunch(w, a))
  {
    hide NextLaunch, SameThreads;
    if Approaches(a) { ApproachThreads(w, a); } else { OpeningThreads(w, a); }
  }

  lemma DetachThreads(w: World, a: DetachAction)
    ensures SameThreads(w, NextDetach(w, a))
  {
    hide RequestHeadless, DetachBegin, DetachToBackground, DetachFinish, DetachIdle, DetachOwnsView, DetachCurrent;
  }
}
