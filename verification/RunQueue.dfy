/**
 The queue over whole runs: no accepted item is lost, doubled or overtaken, the stale stamps are exactly
 those that a yielding turn leaves behind, and a waiting item always has a pump or a named reason for having none.
 */
module RunQueue {
  import opened Protocol
  import opened Supervisor
  import opened Runs
  import opened ViewSteps
  import opened RunTurns

  /** The numbers of all items ever accepted. */
  function AcceptedBag(h: History): multiset<nat> {
    match h
    case Start => multiset{}
    case Then(p, e) => if e.Accepted? then AcceptedBag(p) + multiset{e.item.number} else AcceptedBag(p)
  }

  /** The numbers of all items that left the queue: for a turn, or with a cancellation or a cleared queue. */
  function GoneBag(h: History): multiset<nat> {
    match h
    case Start => multiset{}
    case Then(p, e) =>
      if e.Dequeued? then GoneBag(p) + multiset{e.item.number}
      else if e.Removed? then GoneBag(p) + multiset(e.numbers)
      else GoneBag(p)
  }

  /** One more than the number of the last item dequeued, automatic continues aside. */
  function NextNumber(h: History): nat {
    match h
    case Start => 0
    case Then(p, e) => if e.Dequeued? && !Automatic(e.item) then e.item.number + 1 else NextNumber(p)
  }

  predicate DequeuedInOrder(h: History) {
    match h
    case Start => true
    case Then(p, e) =>
      DequeuedInOrder(p) &&
      (e.Dequeued? && !Automatic(e.item) ==> e.item.number >= NextNumber(p))
  }

  /** After item `n` was accepted a turn gave way to a terminal, and nothing restamped or cleared the queue since. */
  predicate YieldedSince(h: History, n: nat) {
    match h
    case Start => false
    case Then(p, e) =>
      if e.Crashed? || (e.Accepted? && e.item.number == n) then false
      else if e.Bumped? then e.cause.Yielded? && AcceptedBag(p)[n] > 0
      else YieldedSince(p, n)
  }

  /** An item is dequeued outside the fence exactly when a turn gave way after it was accepted or last restamped. */
  predicate DequeuedInsideFence(h: History) {
    match h
    case Start => true
    case Then(p, e) =>
      DequeuedInsideFence(p) &&
      (e.Dequeued? ==> (e.item.gen != Bumps(p) <==> YieldedSince(p, e.item.number)))
  }

  // ---------------------------------------------------------------- the invariant

  predicate Sorted(q: seq<Item>) {
    forall i, j | 0 <= i < j < |q| :: Automatic(q[i]) || Automatic(q[j]) || q[i].number < q[j].number
  }

  predicate Between(q: seq<Item>, lo: nat, hi: nat) {
    forall i | 0 <= i < |q| :: (Automatic(q[i]) || lo <= q[i].number) && q[i].number < hi
  }

  predicate OutsideByYield(h: History, q: seq<Item>, gen: nat) {
    forall i | 0 <= i < |q| :: q[i].gen <= gen && (q[i].gen != gen <==> YieldedSince(h, q[i].number))
  }

  /** Every number below `accepted` was accepted once, and is either waiting or gone, and that once. */
  ghost predicate Conserved(h: History, q: seq<Item>, accepted: nat) {
    && (forall n: nat :: AcceptedBag(h)[n] == if n < accepted then 1 else 0)
    && AcceptedBag(h) == multiset(Numbers(q)) + GoneBag(h)
  }

  ghost predicate Ordered(h: History, q: seq<Item>, accepted: nat) {
    DequeuedInOrder(h) && Sorted(q) && Between(q, NextNumber(h), accepted) && NextNumber(h) <= accepted
  }

  ghost predicate Stamped(h: History, q: seq<Item>, gen: nat) {
    DequeuedInsideFence(h) && gen == Bumps(h) && OutsideByYield(h, q, gen)
  }

  ghost predicate Holds(h: History, q: seq<Item>, gen: nat, accepted: nat) {
    Conserved(h, q, accepted) && Ordered(h, q, accepted) && Stamped(h, q, gen)
  }

  ghost predicate QueueInv(s: Shared) {
    Holds(s.log, s.rt.queue, s.rt.gen, s.accepted)
  }

  // ---------------------------------------------------------------- what single events do

  predicate Neutral(e: Event) {
    !e.Accepted? && !e.Dequeued? && !e.Removed? && !e.Bumped? && !e.Crashed?
  }

  lemma NeutralKeeps(h: History, q: seq<Item>, gen: nat, accepted: nat, e: Event)
    requires Holds(h, q, gen, accepted) && Neutral(e)
    ensures Holds(Then(h, e), q, gen, accepted)
  {
  }

  lemma NumbersJoin(a: seq<Item>, b: seq<Item>)
    ensures Numbers(a + b) == Numbers(a) + Numbers(b)
    ensures multiset(Numbers(a + b)) == multiset(Numbers(a)) + multiset(Numbers(b))
  {
  }

  lemma NumbersOne(i: Item)
    ensures Numbers([i]) == [i.number] && multiset(Numbers([i])) == multiset{i.number} && Numbers([]) == []
  {
  }

  lemma AcceptConserves(h: History, q: seq<Item>, accepted: nat, item: Item)
    requires Conserved(h, q, accepted) && item.number == accepted
    ensures Conserved(Then(h, Accepted(item)), q + [item], accepted + 1)
    ensures Conserved(Then(h, Accepted(item)), [item] + q, accepted + 1)
  {
    NumbersJoin([item], q);
    NumbersJoin(q, [item]);
    NumbersOne(item);
  }

  lemma AcceptOrders(h: History, q: seq<Item>, gen: nat, accepted: nat, item: Item)
    requires Ordered(h, q, accepted) && Stamped(h, q, gen) && item.number == accepted && item.gen == gen
    ensures var q' := if Automatic(item) then [item] + q else q + [item];
      Ordered(Then(h, Accepted(item)), q', accepted + 1) && Stamped(Then(h, Accepted(item)), q', gen)
  {
  }

  lemma AcceptKeeps(h: History, q: seq<Item>, gen: nat, accepted: nat, item: Item)
    requires Holds(h, q, gen, accepted) && item.number == accepted && item.gen == gen
    ensures Holds(Then(h, Accepted(item)), if Automatic(item) then [item] + q else q + [item], gen, accepted + 1)
  {
    hide Conserved, Ordered, Stamped;
    AcceptConserves(h, q, accepted, item);
    AcceptOrders(h, q, gen, accepted, item);
  }

  lemma TakeConserves(h: History, q: seq<Item>, accepted: nat, turn: Id)
    requires Conserved(h, q, accepted) && q != []
    ensures Conserved(Then(h, Dequeued(turn, q[0])), q[1..], accepted)
  {
    assert q == [q[0]] + q[1..];
    NumbersJoin([q[0]], q[1..]);
    NumbersOne(q[0]);
  }

  lemma TakeHeadKeeps(h: History, q: seq<Item>, gen: nat, accepted: nat, turn: Id)
    requires Holds(h, q, gen, accepted) && q != []
    ensures Holds(Then(h, Dequeued(turn, q[0])), q[1..], gen, accepted)
  {
    TakeConserves(h, q, accepted, turn);
  }

  lemma RemoveKeeps(h: History, q: seq<Item>, gen: nat, accepted: nat, kept: seq<Item>, removed: seq<nat>)
    requires Holds(h, q, gen, accepted) && Sorted(kept) && (forall i | 0 <= i < |kept| :: kept[i] in q)
    requires multiset(Numbers(q)) == multiset(Numbers(kept)) + multiset(removed)
    ensures Holds(Then(h, Removed(removed)), kept, gen, accepted)
  {
  }

  lemma ClearKeeps(h: History, q: seq<Item>, gen: nat, accepted: nat)
    requires Holds(h, q, gen, accepted)
    ensures Holds(Then(h, Removed(Numbers(q))), [], gen, accepted)
  {
    assert Numbers([]) == [];
    RemoveKeeps(h, q, gen, accepted, [], Numbers(q));
  }

  /** Moving the fence leaves every stamp behind, unless the queue is empty or stamped anew. */
  lemma BumpKeeps(h: History, q: seq<Item>, gen: nat, accepted: nat, cause: Cause)
    requires Holds(h, q, gen, accepted)
    ensures cause.Yielded? || q == [] ==> Holds(Then(h, Bumped(cause)), q, gen + 1, accepted)
    ensures !cause.Yielded? ==> Holds(Then(h, Bumped(cause)), Restamp(q, gen + 1), gen + 1, accepted)
  {
    var h' := Then(h, Bumped(cause));
    assert Conserved(h', q, accepted) && Ordered(h', q, accepted);
    if cause.Yielded? { YieldStamps(h, q, gen, accepted); }
    if !cause.Yielded? {
      RestampSame(q, gen + 1);
      RestampStamps(h, q, gen, cause);
      RestampOrders(h', q, gen + 1, accepted);
    }
    hide Ordered, Conserved, Restamp;
  }

  lemma RestampSame(q: seq<Item>, gen: nat)
    ensures Numbers(Restamp(q, gen)) == Numbers(q)
  {
  }

  lemma RestampOrders(h: History, q: seq<Item>, gen: nat, accepted: nat)
    requires Ordered(h, q, accepted)
    ensures Ordered(h, Restamp(q, gen), accepted)
  {
  }

  /** A yield leaves every waiting item outside: all of them were accepted before it. */
  lemma YieldStamps(h: History, q: seq<Item>, gen: nat, accepted: nat)
    requires Conserved(h, q, accepted) && Ordered(h, q, accepted) && Stamped(h, q, gen)
    ensures Stamped(Then(h, Bumped(Yielded)), q, gen + 1)
  {
  }

  lemma RestampStamps(h: History, q: seq<Item>, gen: nat, cause: Cause)
    requires Stamped(h, q, gen) && !cause.Yielded?
    ensures Stamped(Then(h, Bumped(cause)), Restamp(q, gen + 1), gen + 1)
  {
  }

  lemma CrashKeeps(h: History, gen: nat, accepted: nat)
    requires Holds(h, [], gen, accepted)
    ensures Holds(Then(h, Crashed), [], 0, accepted)
  {
  }

  lemma {:induction false} WithoutSplits(q: seq<Item>, requestID: Id)
    ensures multiset(Numbers(q)) == multiset(Numbers(Without(q, requestID))) + multiset(Numbers(Only(q, requestID)))
  {
    if q == [] {
      assert Numbers([]) == [];
    } else {
      var k, o := Without(q[1..], requestID), Only(q[1..], requestID);
      WithoutSplits(q[1..], requestID);
      assert q == [q[0]] + q[1..];
      NumbersJoin([q[0]], q[1..]);
      if q[0].requestID == requestID { NumbersJoin([q[0]], o); } else { NumbersJoin([q[0]], k); }
      assert Without(q, requestID) == (if q[0].requestID == requestID then [] else [q[0]]) + k;
      assert Only(q, requestID) == (if q[0].requestID == requestID then [q[0]] else []) + o;
      hide Without, Only, Numbers;
      assert [] + k == k && [] + o == o;
    }
  }

  lemma WithoutMembers(q: seq<Item>, requestID: Id)
    ensures forall x :: x in Without(q, requestID) <==> x in q && x.requestID != requestID
    ensures forall x :: x in Only(q, requestID) <==> x in q && x.requestID == requestID
  {
  }

  lemma WithoutSorted(q: seq<Item>, requestID: Id)
    requires Sorted(q)
    ensures Sorted(Without(q, requestID))
  {
    if q != [] {
      var k := Without(q[1..], requestID);
      WithoutSorted(q[1..], requestID);
      WithoutMembers(q[1..], requestID);
      forall j | 0 <= j < |k| ensures Automatic(q[0]) || Automatic(k[j]) || q[0].number < k[j].number {
        assert k[j] in q[1..];
      }
    }
  }

  // ---------------------------------------------------------------- what sections do

  lemma NoteKeeps(s: Shared, e: Event)
    requires QueueInv(s) && Neutral(e)
    ensures QueueInv(Note(s, e))
  {
    NeutralKeeps(s.log, s.rt.queue, s.rt.gen, s.accepted, e);
  }

  lemma CommitKeeps(s: Shared, job: Job, phase: Phase, w: Writer, ok: bool)
    requires QueueInv(s)
    ensures QueueInv(Commit(s, job, phase, w, ok))
  {
    hide Holds;
    if ok {
      NeutralKeeps(s.log, s.rt.queue, s.rt.gen, s.accepted, Committed(Supervisor.Stamped(s.job, job, phase), w));
    }
  }

  lemma EnqueueKeeps(s: Shared, q: Item, acceptedJob: Option<Job>, newID: Id, w: Writer, ok: bool)
    requires QueueInv(s)
    ensures QueueInv(Enqueue(s, q, acceptedJob, newID, w, ok))
  {
    hide Holds;
    if !s.closed && ok {
      var j := if acceptedJob.Some? then acceptedJob.value else s.job;
      CommitKeeps(s, j, NoPhase, w, true);
      var s1 := Commit(s, j, NoPhase, w, true);
      var item := q.(number := s.accepted, gen := s.rt.gen, requestID := RequestOr(s, q.requestID, newID));
      AcceptKeeps(s1.log, s.rt.queue, s.rt.gen, s.accepted, item);
    }
  }

  lemma EnqueueAllKeeps(s: Shared, rows: seq<(Id, bool)>)
    requires QueueInv(s)
    ensures QueueInv(EnqueueAll(s, rows))
    decreases |rows|
  {
    hide QueueInv;
    if rows != [] {
      var q := Item(0, FollowupItem, true, rows[0].1, 0, rows[0].0);
      if rows[0].0 == s.job.requestID {
        EnqueueAllKeeps(s, rows[1..]);
      } else {
        EnqueueKeeps(s, q, None, 0, ByCaller, true);
        EnqueueAllKeeps(Enqueue(s, q, None, 0, ByCaller, true), rows[1..]);
      }
    }
  }

  lemma DisconnectKeeps(s: Shared, w: Writer, ok: bool)
    requires QueueInv(s)
    ensures QueueInv(DisconnectLocked(s, w, ok))
  {
    hide Holds;
    if !s.job.userCancelled {
      NoteKeeps(s, ViewReset);
      CommitKeeps(Note(s, ViewReset), DisconnectedJob(s.job).(activeTurnID := s.rt.turnID), NoPhase, w, ok);
      var h := Save(Note(s, ViewReset), DisconnectedJob(s.job), w, ok).log;
      ClearThenBump(h, s.rt.queue, s.rt.gen, s.accepted, Disconnect);
    }
  }

  /** The fence moves and the queue is cleared, in one section. */
  lemma ClearThenBump(h: History, q: seq<Item>, gen: nat, accepted: nat, cause: Cause)
    requires Holds(h, q, gen, accepted) && !cause.Yielded?
    ensures Holds(Then(Then(h, Bumped(cause)), Removed(Numbers(q))), [], gen + 1, accepted)
  {
    BumpKeeps(h, q, gen, accepted, cause);
    assert Numbers(Restamp(q, gen + 1)) == Numbers(q);
    ClearKeeps(Then(h, Bumped(cause)), Restamp(q, gen + 1), gen + 1, accepted);
  }

  lemma TakeKeeps(s: Shared, turn: Id, ok: bool)
    requires QueueInv(s) && s.heads > 0 && s.rt.queue != []
    ensures QueueInv(Take(s, turn, ok))
  {
    hide Holds;
    TakeHeadKeeps(s.log, s.rt.queue, s.rt.gen, s.accepted, turn);
    var item := s.rt.queue[0];
    var up := Note(s, Dequeued(turn, item)).(rt := Take(s, turn, true).rt, heads := s.heads - 1);
    CommitKeeps(up, PreparedJob(s.job, item, turn), PreparingPhase, ByTurn(turn), true);
    NoteKeeps(up, TurnEnded(turn));
  }

  lemma FinishKeeps(s: Shared, item: Item, turn: Id, f: Finish, cancelledRequest: bool, ok: bool, ok2: bool)
    requires QueueInv(s)
    ensures QueueInv(RunFinish(s, item, turn, f, cancelledRequest, ok, ok2))
  {
    hide QueueInv;
    DisconnectKeeps(s, ByTurn(turn), ok);
    match f
    case Nothing =>
    case Reenqueue => EnqueueKeeps(s, item, None, 0, ByRequeue(turn), ok);
    case LoadFailed =>
    case SetupFailed(disconnect, copy) =>
      CommitKeeps(s, FailedJob(copy).(activeTurnID := s.rt.turnID), NoPhase, ByTurnCopy(turn), ok);
    case PromptFailed(disconnect) =>
      CommitKeeps(s, FailedJob(s.job).(activeTurnID := s.rt.turnID), NoPhase, ByTurn(turn), ok);
    case Answer(marker) =>
      CommitKeeps(s, AnsweredJob(s, turn, marker), ReturnedPhase, ByTurn(turn), true);
      var s1 := Commit(s, AnsweredJob(s, turn, marker), ReturnedPhase, ByTurn(turn), true);
      EnqueueKeeps(s1, Item(0, ContinueItem, false, false, 0, item.requestID), None, 0, ByTurn(turn), ok2);
  }

  lemma EndTurnKeeps(s: Shared, item: Item, turn: Id, f: Finish, cancelledRequest: bool, ok: bool, ok2: bool)
    requires QueueInv(s)
    ensures QueueInv(EndTurn(s, item, turn, f, cancelledRequest, ok, ok2))
  {
    hide Holds;
    NoteKeeps(s, TurnEnded(turn));
    FinishKeeps(Note(s, TurnEnded(turn)).(rt := s.rt.(busy := false, ctxDone := false, turnID := 0)), item, turn, f,
      cancelledRequest, ok, ok2);
  }

  /** Cancelling a request removes its items, all of them and nothing else, and keeps the rest in order. */
  lemma CancelRequestKeeps(s: Shared, requestID: Id, turnID: Id, persisted: bool, updated: bool)
    requires QueueInv(s)
    ensures QueueInv(CancelRequest(s, requestID, turnID, persisted, updated))
  {
    WithoutSplits(s.rt.queue, requestID);
    WithoutMembers(s.rt.queue, requestID);
    WithoutSorted(s.rt.queue, requestID);
    forall i | 0 <= i < |Without(s.rt.queue, requestID)| ensures Without(s.rt.queue, requestID)[i] in s.rt.queue { }
    RemoveKeeps(s.log, s.rt.queue, s.rt.gen, s.accepted, Without(s.rt.queue, requestID),
      Numbers(Only(s.rt.queue, requestID)));
  }

  lemma CancelStartKeeps(s: Shared, expected: Id, ok: bool)
    requires QueueInv(s)
    ensures QueueInv(CancelStart(s, expected, ok))
  {
    hide Holds;
    BumpKeeps(s.log, s.rt.queue, s.rt.gen, s.accepted, CancelledTurn);
    if CancelStarts(s, expected) {
      var s1 := Note(s, Bumped(CancelledTurn)).(rt := CancelStart(s, expected, ok).rt);
      CommitKeeps(s1, s.job.(state := JobState.NeedsInput, pause := CancelDelivery, activeTurnID := s1.rt.turnID),
        NoPhase, ByCaller, ok);
    }
  }

  lemma CancelFinishKeeps(s: Shared, generation: nat, failed: bool, ok: bool)
    requires QueueInv(s)
    ensures QueueInv(CancelFinish(s, generation, failed, ok))
  {
    hide Holds;
    var s1 := s.(rt := s.rt.(controlPending := false));
    CommitKeeps(s1, s.job.(pause := if failed then CancelUnknown else NoPause, activeTurnID := s1.rt.turnID), NoPhase,
      ByOutcome(failed), ok);
  }

  lemma PlanFinishKeeps(s: Shared, approvalID: Id, decide: Protocol.Decide, failed: bool, ok: bool)
    requires QueueInv(s)
    ensures QueueInv(PlanFinish(s, approvalID, decide, failed, ok))
  {
    hide Holds;
    var stillOpen := failed && s.job.approval.id == approvalID && s.job.approval.delivery == Submitted;
    var j := s.job.(state := JobState.NeedsInput, pause := ApprovalUnknown,
                    approval := s.job.approval.(delivery := Unknown, approved := false), activeTurnID := s.rt.turnID);
    CommitKeeps(s, j, NoPhase, ByUndelivered, ok);
    var s1 := if stillOpen then Commit(s, j, NoPhase, ByUndelivered, ok) else s;
    ClearThenBump(s1.log, s.rt.queue, s.rt.gen, s.accepted, PlanCancelled);
  }

  lemma ContinueKeeps(s: Shared, planning: bool, live: bool, rows: seq<(Id, bool)>, newID: Id, ok: bool)
    requires QueueInv(s)
    ensures QueueInv(Continue(s, planning, live, rows, newID, ok))
  {
    hide QueueInv;
    var q := Item(0, ContinueItem, true, planning, 0, s.job.requestID);
    var j := s.job.(state := JobState.Executing, pause := NoPause, approval := s.job.approval.(delivery := NoDelivery));
    var k := if planning then j.(state := JobState.Planning, approval := j.approval.(approved := false)) else j;
    EnqueueKeeps(s, q, None, newID, ByContinue(planning, live), ok);
    EnqueueKeeps(s, q, Some(k), newID, ByContinue(planning, live), ok);
    EnqueueAllKeeps(Enqueue(s, q, Some(k), newID, ByContinue(planning, live), ok), rows);
  }

  lemma FollowupKeeps(s: Shared, requestID: Id, planning: bool, live: bool, ok: bool)
    requires QueueInv(s)
    ensures QueueInv(Followup(s, requestID, planning, live, ok))
  {
    hide QueueInv;
    var q := Item(0, FollowupItem, true, planning, 0, requestID);
    var j := s.job.(requestID := requestID, pause := NoPause, resultTurnID := 0, state := JobState.Executing);
    var k := if planning then j.(state := JobState.Planning, approval := j.approval.(approved := false, content := ""))
      else j;
    EnqueueKeeps(s, q, None, 0, ByFollowup(planning, live), ok);
    EnqueueKeeps(s, q, Some(k), 0, ByFollowup(planning, live), ok);
  }

  lemma StartKeeps(s: Shared, copy: Job, gen: nat, sessionID: Id, planning: bool, ok: bool, ok2: bool)
    requires QueueInv(s)
    ensures QueueInv(StartFinish(s, copy, gen, sessionID, planning, ok, ok2)) && QueueInv(StartBegin(s, copy, ok))
  {
    hide QueueInv;
    CommitKeeps(s, copy.(state := JobState.Starting, activeTurnID := s.rt.turnID), NoPhase, ByDispatchCopy, ok);
    CommitKeeps(s, s.job.(sessionID := sessionID, activeTurnID := s.rt.turnID), NoPhase, BySession, ok);
    CommitKeeps(s, FailedJob(copy).(activeTurnID := s.rt.turnID), NoPhase, ByDispatchCopy, ok);
    var j := copy.(sessionID := sessionID, state := if planning then JobState.Planning else JobState.Executing,
                   view := copy.view.(desired := Headless));
    CommitKeeps(s, j.(activeTurnID := s.rt.turnID), NoPhase, ByDispatchCopy, true);
    EnqueueKeeps(Save(s, j, ByDispatchCopy, true), Item(0, PlanItem, false, planning, 0, copy.requestID), None, 0,
      ByCaller, ok2);
  }

  lemma RestartKeeps(s: Shared, ok: bool)
    requires QueueInv(s)
    ensures QueueInv(Restart(s, ok))
  {
    hide Holds;
    ClearKeeps(s.log, s.rt.queue, s.rt.gen, s.accepted);
    CrashKeeps(Then(s.log, Removed(Numbers(s.rt.queue))), s.rt.gen, s.accepted);
    var s1 := Note(Note(s, Removed(Numbers(s.rt.queue))), Crashed).(rt := FreshRuntime, closed := false, heads := 0,
      lastExit := NotYet);
    CommitKeeps(s1, AwaitingResume(s.job), NoPhase, ByCaller, ok);
  }

  lemma YieldKeeps(s: Shared, ok: bool)
    requires QueueInv(s)
    ensures QueueInv(YieldBump(s)) && QueueInv(YieldMark(s, ok))
  {
    hide Holds;
    BumpKeeps(s.log, s.rt.queue, s.rt.gen, s.accepted, Yielded);
    CommitKeeps(s, YieldedJob(s.job), UnknownPhase, ByYield, ok);
  }

  lemma EffectKeeps(s: Shared, s': Shared, e: Option<Event>, saved: bool)
    requires QueueInv(s) && ViewEffect(s, s', e, saved)
    ensures QueueInv(s')
  {
    hide Holds;
    var s1 := if e.Some? then Note(s, e.value) else s;
    if e.Some? { NoteKeeps(s, e.value); }
    CommitKeeps(s1, s'.job, NoPhase, ByCaller, saved);
  }

  lemma ApprovalKeeps(s: Shared, p: PlanRequest, content: string, ok: bool)
    requires QueueInv(s)
    ensures QueueInv(OnApproval(s, p, content, ok))
  {
    hide Holds;
    var s' := OnApproval(s, p, content, true);
    CommitKeeps(s, s'.job, NoPhase, ByApproval, ok);
    CommitKeeps(s, s'.job, NoPhase, ByApproval, true);
  }

  // ---------------------------------------------------------------- every action keeps it

  lemma QueueInvTurn(w: World, a: TurnAction)
    requires QueueInv(w.s)
    ensures QueueInv(NextTurn(w, a).s)
  {
    hide Holds;
    match a
    case PumpGo(turn, live, ok) => if w.s.heads > 0 && GateOf(w.s, live).NotYet? { TakeKeeps(w.s, turn, ok); }
    case ReadJob(turn) => NoteKeeps(w.s, RecordRead(turn));
    case SetupFails(turn, loading, disconnect) => NoteKeeps(w.s, SetupBroke(turn, loading, disconnect));
    case PromptReturns(turn, failed, disconnect, marker) =>
      NoteKeeps(w.s, PromptReturned(turn, failed, disconnect, marker));
    case MarkTurn(turn, ok) => CommitKeeps(w.s, w.s.job.(activeTurnID := turn), SentPhase, ByTurn(turn), true);
    case CallPrompt(turn) => NoteKeeps(w.s, PromptCalled(turn));
    case FinishTurn(turn, cancelledRequest, ok, ok2) =>
      if turn in w.turns && w.turns[turn].stage.Ending? {
        EndTurnKeeps(w.s, w.turns[turn].item, turn, w.turns[turn].stage.finish, cancelledRequest, ok, ok2);
      }
    case _ =>
  }

  lemma QueueInvControl(w: World, a: ControlAction)
    requires QueueInv(w.s)
    ensures QueueInv(NextControl(w, a).s)
  {
    hide QueueInv;
    match a
    case DoFollowup(requestID, planning, live, ok) => FollowupKeeps(w.s, requestID, planning, live, ok);
    case DoContinue(planning, live, rows, newID, ok) => ContinueKeeps(w.s, planning, live, rows, newID, ok);
    case DoCancelRequest(requestID, turnID, persisted, updated) =>
      CancelRequestKeeps(w.s, requestID, turnID, persisted, updated);
    case BeginCancel(expected, ok) => CancelStartKeeps(w.s, expected, ok);
    case EndCancel(generation, failed, ok) => CancelFinishKeeps(w.s, generation, failed, ok);
    case Decide(key, d, pending, ok) =>
      CommitKeeps(w.s, SubmittedJob(w.s.job, d.decide).(activeTurnID := w.s.rt.turnID), NoPhase, ByDecision(d), true);
    case Resolve(key, failed) =>
      if key in w.decisions { NoteKeeps(w.s, Resolved(w.decisions[key].approvalID, w.decisions[key].decide, failed)); }
    case EndDecide(key, ok) =>
      if key in w.decisions {
        PlanFinishKeeps(w.s, w.decisions[key].approvalID, w.decisions[key].decide, w.decisions[key].failed, ok);
      }
    case Approval(p, content, ok) => ApprovalKeeps(w.s, p, content, ok);
    case LoseConnection(ok) => DisconnectKeeps(w.s, ByCaller, ok);
  }

  lemma QueueInvLife(w: World, a: LifeAction)
    requires QueueInv(w.s)
    ensures QueueInv(NextLife(w, a).s)
  {
    hide Holds;
    match a
    case BeginStart(ok) => if w.dispatch.NotBegun? { StartKeeps(w.s, w.dispatch.copy, 0, 0, false, ok, false); }
    case EndStart(sessionID, planning, ok, ok2) =>
      if w.dispatch.Waiting? { StartKeeps(w.s, w.dispatch.copy, w.dispatch.gen, sessionID, planning, ok, ok2); }
    case CloseService =>
    case RestartService(ok) => RestartKeeps(w.s, ok);
  }

  lemma QueueInvNext(w: World, a: Action)
    requires QueueInv(w.s)
    ensures QueueInv(Next(w, a).s)
  {
    hide QueueInv;
    match a
    case OnTurn(t) => QueueInvTurn(w, t);
    case OnControl(c) => QueueInvControl(w, c);
    case OnLife(l) => QueueInvLife(w, l);
    case OnLaunch(v) =>
      if ViewOnly(v) {
        var e, saved := LaunchEffect(w, v);
        EffectKeeps(w.s, NextLaunch(w, v).s, e, saved);
      } else {
        YieldKeeps(w.s, if v.MarkYielded? then v.ok else false);
      }
    case OnDetach(d) =>
      var e, saved := DetachEffect(w, d);
      EffectKeeps(w.s, NextDetach(w, d).s, e, saved);
  }

  lemma QueueInvInit(job: Job)
    ensures QueueInv(Init(job).s)
  {
    var h := Init(job).s.log;
    assert h == Then(Start, Committed(job, ByCaller));
    assert AcceptedBag(h) == AcceptedBag(Start) && GoneBag(h) == GoneBag(Start) && Numbers([]) == [];
    var none: multiset<nat> := multiset{};
    assert AcceptedBag(Start) == none && AcceptedBag(h) == none && GoneBag(h) == none;
    assert forall n: nat :: none[n] == 0;
    assert Conserved(h, [], 0);
    assert NextNumber(h) == NextNumber(Start) && Bumps(h) == Bumps(Start);
    assert DequeuedInOrder(Start) && DequeuedInsideFence(Start);
  }

  lemma {:induction false} QueueInvRun(job: Job, actions: seq<Action>)
    requires Dispatched(job)
    ensures QueueInv(Run(job, actions).s)
  {
    if actions == [] {
      QueueInvInit(job);
    } else {
      QueueInvRun(job, actions[..|actions| - 1]);
      QueueInvNext(Run(job, actions[..|actions| - 1]), actions[|actions| - 1]);
    }
  }

  /**
   In every run: nothing accepted is lost or doubled, nothing overtakes but automatic continues, and the items
   outside the fence are those that a yielding turn has left behind.
   */
  lemma RunsConserveTheQueue(job: Job, actions: seq<Action>)
    requires Dispatched(job)
    ensures var s := Run(job, actions).s;
      && (forall n: nat :: AcceptedBag(s.log)[n] == if n < s.accepted then 1 else 0)
      && AcceptedBag(s.log) == multiset(Numbers(s.rt.queue)) + GoneBag(s.log)
      && DequeuedInOrder(s.log) && DequeuedInsideFence(s.log)
      && (forall i | 0 <= i < |s.rt.queue| :: Fenced(s, s.rt.queue[i]) <==> YieldedSince(s.log, s.rt.queue[i].number))
  {
    QueueInvRun(job, actions);
  }

  lemma {:induction false} WithoutJoin(a: seq<Item>, b: seq<Item>, requestID: Id)
    ensures Without(a + b, requestID) == Without(a, requestID) + Without(b, requestID)
  {
    if a == [] {
      assert a + b == b;
    } else {
      assert (a + b)[1..] == a[1..] + b;
      WithoutJoin(a[1..], b, requestID);
    }
  }

  lemma TwoStay(a: seq<Item>, x: Item, b: seq<Item>, y: Item, c: seq<Item>, requestID: Id)
    requires x.requestID != requestID && y.requestID != requestID
    ensures Without(a + [x] + b + [y] + c, requestID)
         == Without(a, requestID) + [x] + Without(b, requestID) + [y] + Without(c, requestID)
  {
    assert Without([x], requestID) == [x] && Without([y], requestID) == [y];
    hide Without;
    WithoutJoin(a + [x] + b + [y], c, requestID);
    WithoutJoin(a + [x] + b, [y], requestID);
    WithoutJoin(a + [x], b, requestID);
    WithoutJoin(a, [x], requestID);
  }

  /** Cancelling a queued request takes all of its items and no other; any two that stay keep their order. */
  lemma CancelledRequestLeaves(s: Shared, requestID: Id, turnID: Id, persisted: bool, a: seq<Item>, x: Item,
    b: seq<Item>, y: Item, c: seq<Item>)
    requires CancelTarget(s, requestID, turnID, persisted, true).CancelRemoved?
    requires s.rt.queue == a + [x] + b + [y] + c && x.requestID != requestID && y.requestID != requestID
    ensures var q := CancelRequest(s, requestID, turnID, persisted, true).rt.queue;
      && q == Without(a, requestID) + [x] + Without(b, requestID) + [y] + Without(c, requestID)
      && (forall i | i in q :: i in s.rt.queue && i.requestID != requestID)
  {
    hide CancelTarget, Without;
    TwoStay(a, x, b, y, c, requestID);
    WithoutMembers(s.rt.queue, requestID);
  }

  /** Cancelling the active turn keeps every waiting item, in its place and inside the new fence. */
  lemma CancelledTurnKeepsTheQueue(s: Shared, expected: Id, ok: bool)
    requires CancelStarts(s, expected)
    ensures var r := CancelStart(s, expected, ok);
      && Numbers(r.rt.queue) == Numbers(s.rt.queue)
      && (forall i | 0 <= i < |r.rt.queue| ::
            !Fenced(r, r.rt.queue[i]) && r.rt.queue[i].(gen := 0) == s.rt.queue[i].(gen := 0))
  {
  }

  // ---------------------------------------------------------------- no lost wakeup

  predicate NamedExit(e: Exit) {
    e.Gate? || e.CommitFailed?
  }

  /** Waiting items have a turn in flight, a pump on its way, or a pump that left for a reason with a name. */
  predicate Awake(s: Shared) {
    s.rt.queue != [] && !s.rt.busy && s.heads == 0 ==> NamedExit(s.lastExit)
  }

  lemma EnqueueAwake(s: Shared, q: Item, acceptedJob: Option<Job>, newID: Id, w: Writer, ok: bool)
    requires Awake(s)
    ensures var r := Enqueue(s, q, acceptedJob, newID, w, ok);
      Awake(r) && r.rt.busy == s.rt.busy && (s.rt.queue == [] && !s.rt.busy ==> r.rt.queue == [] || r.heads > 0)
  {
  }

  lemma EnqueueAllAwake(s: Shared, rows: seq<(Id, bool)>)
    requires Awake(s)
    ensures Awake(EnqueueAll(s, rows))
    decreases |rows|
  {
    if rows != [] {
      var q := Item(0, FollowupItem, true, rows[0].1, 0, rows[0].0);
      EnqueueAwake(s, q, None, 0, ByCaller, true);
      EnqueueAllAwake(if rows[0].0 == s.job.requestID then s else Enqueue(s, q, None, 0, ByCaller, true), rows[1..]);
    }
  }

  /** What a turn's end leaves waiting was waiting before, or brought its own pump. */
  lemma FinishAwake(s: Shared, item: Item, turn: Id, f: Finish, cancelledRequest: bool, ok: bool, ok2: bool)
    requires !s.rt.busy
    ensures var r := RunFinish(s, item, turn, f, cancelledRequest, ok, ok2);
      !r.rt.busy && (s.rt.queue == [] ==> r.rt.queue == [] || r.heads > 0)
  {
  }

  lemma EndTurnAwake(s: Shared, item: Item, turn: Id, f: Finish, cancelledRequest: bool, ok: bool, ok2: bool)
    requires Awake(s)
    ensures Awake(EndTurn(s, item, turn, f, cancelledRequest, ok, ok2))
  {
    var s1 := Note(s, TurnEnded(turn)).(rt := s.rt.(busy := false, ctxDone := false, turnID := 0));
    FinishAwake(s1, item, turn, f, cancelledRequest, ok, ok2);
    hide RunFinish;
  }

  /** A pump leaves waiting items behind only with a gate's name or after a failed commit. */
  lemma PumpAwake(s: Shared, turn: Id, live: bool, ok: bool)
    requires Awake(s) && s.heads > 0
    ensures Awake(PumpTop(s, turn, live, ok))
  {
  }

  lemma AwakeTurn(w: World, a: TurnAction)
    requires Awake(w.s)
    ensures Awake(NextTurn(w, a).s)
  {
    hide EndTurn, PumpTop, Took, Fenced, Returned;
    match a {
      case PumpGo(turn, live, ok) => if w.s.heads > 0 { PumpAwake(w.s, turn, live, ok); }
      case FinishTurn(turn, cancelledRequest, ok, ok2) =>
        if turn in w.turns && w.turns[turn].stage.Ending? {
          EndTurnAwake(w.s, w.turns[turn].item, turn, w.turns[turn].stage.finish, cancelledRequest, ok, ok2);
        }
      case _ =>
    }
  }

  lemma AwakeControl(w: World, a: ControlAction)
    requires Awake(w.s)
    ensures Awake(NextControl(w, a).s)
  {
    if a.DoContinue? { ContinueAwake(w.s, a.planning, a.live, a.rows, a.newID, a.ok); }
    hide Continue;
  }

  lemma ContinueAwake(s: Shared, planning: bool, live: bool, rows: seq<(Id, bool)>, newID: Id, ok: bool)
    requires Awake(s)
    ensures Awake(Continue(s, planning, live, rows, newID, ok))
  {
    var q := Item(0, ContinueItem, true, planning, 0, s.job.requestID);
    var j := s.job.(state := JobState.Executing, pause := NoPause, approval := s.job.approval.(delivery := NoDelivery));
    var k := if planning then j.(state := JobState.Planning, approval := j.approval.(approved := false)) else j;
    EnqueueAllAwake(Enqueue(s, q, Some(k), newID, ByContinue(planning, live), ok), rows);
  }

  lemma AwakeNext(w: World, a: Action)
    requires Awake(w.s)
    ensures Awake(Next(w, a).s)
  {
    match a
    case OnTurn(t) => AwakeTurn(w, t);
    case OnControl(c) => AwakeControl(w, c);
    case OnLife(l) => AwakeLife(w, l);
    case OnLaunch(v) =>
      if ViewOnly(v) {
        var e, saved := LaunchEffect(w, v);
        hide NextLaunch, RuntimeAfter, ViewAfter;
      }
    case OnDetach(d) =>
      var e, saved := DetachEffect(w, d);
      hide NextDetach, RuntimeAfter, ViewAfter;
  }

  lemma AwakeLife(w: World, a: LifeAction)
    requires Awake(w.s)
    ensures Awake(NextLife(w, a).s)
  {
  }

  /** In every run: an item that waits while no turn runs has a pump, or the last pump left at a named gate. */
  lemma {:induction false} RunsLoseNoWakeup(job: Job, actions: seq<Action>)
    requires Dispatched(job)
    ensures Awake(Run(job, actions).s)
  {
    if actions != [] {
      RunsLoseNoWakeup(job, actions[..|actions| - 1]);
      AwakeNext(Run(job, actions[..|actions| - 1]), actions[|actions| - 1]);
    }
  }
}
