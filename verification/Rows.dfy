/**
 What the rows of accepted requests say after any transactions, told from the transactions alone: which requests
 are accepted and in which order, which phase was named last, which are completed and which cancelled. A continue
 after a restart enqueues exactly the requests that `StillQueued` finds.
 */
module WorkRows {
  import opened Protocol
  import opened JobStore

  // ---------------------------------------------------------------- told from the transactions

  /** The job a request stands accepted for, and whether it plans: the first acceptance counts until its job goes. */
  function Accepted(ops: seq<Op>, r: Id): Option<(Id, bool)> {
    if ops == [] then None else
    var before := Accepted(ops[..|ops| - 1], r);
    match ops[|ops| - 1]
    case PutOp(rec) =>
      if before.None? && rec.accepted.Some? && rec.accepted.value.0 == r
      then Some((rec.job.jobID, rec.accepted.value.1)) else before
    case DeleteOp(jobID) => if before.Some? && before.value.0 == jobID then None else before
    case CancelOp(_, _) => before
  }

  /** The accepted requests, oldest first. */
  function Order(ops: seq<Op>): seq<Id> {
    if ops == [] then [] else
    var most := ops[..|ops| - 1];
    match ops[|ops| - 1]
    case PutOp(rec) =>
      if rec.accepted.Some? && Accepted(most, rec.accepted.value.0).None? then Order(most) + [rec.accepted.value.0]
      else Order(most)
    case DeleteOp(_) => Standing(Order(most), ops)
    case CancelOp(_, _) => Order(most)
  }

  function Standing(ids: seq<Id>, ops: seq<Op>): seq<Id> {
    if ids == [] then [] else
    (if Accepted(ops, ids[0]).Some? then [ids[0]] else []) + Standing(ids[1..], ops)
  }

  /** The phase that a write of the request named last; "queued" since it was accepted. */
  function NamedPhase(ops: seq<Op>, r: Id): Phase {
    if ops == [] then QueuedPhase else
    var most, op := ops[..|ops| - 1], ops[|ops| - 1];
    if op.PutOp? && op.rec.job.requestID == r && op.rec.phase != NoPhase then op.rec.phase
    else if Accepted(most, r).None? then QueuedPhase
    else NamedPhase(most, r)
  }

  predicate Names(rec: Record, r: Id) {
    rec.result.Some? && rec.result.value.requestID == r
  }

  /** A result says how the request ended; until one does, a completed request stays so. */
  predicate Completed(ops: seq<Op>, r: Id) {
    ops != [] &&
    var most, op := ops[..|ops| - 1], ops[|ops| - 1];
    var before := Accepted(most, r).Some? && Completed(most, r);
    if !op.PutOp? then before
    else if Names(op.rec, r) then op.rec.result.value.state in {None, Some(JobState.Completed)}
    else before || (op.rec.job.requestID == r && op.rec.job.state.Completed?)
  }

  /** Cancelled alone, with its job, or by a result; a later write of the request itself may say otherwise. */
  predicate Cancelled(ops: seq<Op>, r: Id) {
    ops != [] &&
    var most, op := ops[..|ops| - 1], ops[|ops| - 1];
    var before := Accepted(most, r).Some? && Cancelled(most, r);
    match op
    case PutOp(rec) =>
      if Names(rec, r) then rec.result.value.state == Some(JobState.Cancelled)
      else if Completed(ops, r) then false
      else if rec.job.userCancelled && Accepted(ops, r).Some? && Accepted(ops, r).value.0 == rec.job.jobID then true
      else if rec.job.requestID == r then rec.job.state.Cancelled?
      else before
    case DeleteOp(_) => before
    case CancelOp(jobID, q) =>
      before || (q == r && Accepted(most, r).Some? && Accepted(most, r).value.0 == jobID
                 && NamedPhase(most, r).QueuedPhase? && !Completed(most, r))
  }

  /** The accepted requests of the job that were never sent and are not cancelled, oldest first. */
  function StillQueued(ids: seq<Id>, ops: seq<Op>, jobID: Id): seq<(Id, bool)> {
    if ids == [] then [] else
    var a := Accepted(ops, ids[0]);
    var queued := a.Some? && a.value.0 == jobID && NamedPhase(ops, ids[0]).QueuedPhase? && !Cancelled(ops, ids[0]);
    (if queued then [(ids[0], a.value.1)] else []) + StillQueued(ids[1..], ops, jobID)
  }

  // ---------------------------------------------------------------- the rows say the same

  function Ids(rows: seq<WorkRow>): seq<Id> {
    seq(|rows|, i requires 0 <= i < |rows| => rows[i].requestID)
  }

  /** The row says what the transactions say of its request. */
  predicate RowAgrees(ops: seq<Op>, x: WorkRow) {
    && Accepted(ops, x.requestID) == Some((x.jobID, x.planning)) && x.phase == NamedPhase(ops, x.requestID)
    && (Finished(x) <==> Completed(ops, x.requestID))
    && (x.state == InState(JobState.Cancelled) <==> Cancelled(ops, x.requestID))
  }

  ghost predicate RowsAgree(ops: seq<Op>) {
    var rows := After(ops).rows;
    && Ids(rows) == Order(ops)
    && (forall i | 0 <= i < |rows| :: RowAgrees(ops, rows[i]))
    && (forall r :: HasRow(rows, r) <==> Accepted(ops, r).Some?)
  }

  /** The statements of one write, on a row that was there before or comes with it. */
  lemma RowFollows(most: seq<Op>, rec: Record, j: Job, x: WorkRow)
    requires j.jobID == rec.job.jobID && j.requestID == rec.job.requestID && j.state == rec.job.state
    requires j.activeTurnID == rec.job.activeTurnID && j.userCancelled == rec.job.userCancelled
    requires RowAgrees(most, x)
      || (Accepted(most, x.requestID).None? && rec.accepted == Some((x.requestID, x.planning)) && x.jobID == j.jobID
          && x.phase == QueuedPhase && x.state == QueuedRow)
    ensures RowAgrees(most + [PutOp(rec)], RowAfter(x, j, rec))
  {
    var ops := most + [PutOp(rec)];
    assert ops[..|most|] == most;
    var r, y := x.requestID, RowAfter(x, j, rec);
    assert Accepted(ops, r) == Some((x.jobID, x.planning));
    assert y.phase == NamedPhase(ops, r);
    assert Finished(y) <==> Completed(ops, r);
  }

  lemma CarriedFields(t: Tables, rec: Record)
    ensures var j := Carried(t, rec);
      && j.jobID == rec.job.jobID && j.requestID == rec.job.requestID && j.state == rec.job.state
      && j.activeTurnID == rec.job.activeTurnID && j.userCancelled == rec.job.userCancelled
  {
  }

  lemma HasRowIds(rows: seq<WorkRow>, r: Id)
    ensures HasRow(rows, r) <==> r in Ids(rows)
  {
    if HasRow(rows, r) {
      var i :| 0 <= i < |rows| && rows[i].requestID == r;
      assert Ids(rows)[i] == r;
    }
  }

  lemma PutRows(most: seq<Op>, rec: Record)
    requires RowsAgree(most)
    ensures RowsAgree(most + [PutOp(rec)])
  {
    var t, ops := After(most), most + [PutOp(rec)];
    var j := Carried(t, rec);
    var was, rows := Inserted(t.rows, j, rec), Put(t, rec).rows;
    assert ops[..|most|] == most;
    CarriedFields(t, rec);
    hide After, Carried, RowAfter, RowAgrees, NamedPhase, Completed, Cancelled;
    assert After(ops).rows == rows by { AfterJoin(most, PutOp(rec)); }
    forall i | 0 <= i < |rows| ensures RowAgrees(ops, rows[i]) {
      if i < |t.rows| { assert was[i] == t.rows[i]; }
      RowFollows(most, rec, j, was[i]);
    }
    forall i | 0 <= i < |was| ensures rows[i].requestID == was[i].requestID { SameRequest(was[i], j, rec); }
    assert Ids(rows) == Ids(was);
    var adds := rec.accepted.Some? && !HasRow(t.rows, rec.accepted.value.0);
    assert Ids(was) == if adds then Ids(t.rows) + [rec.accepted.value.0] else Ids(t.rows);
    forall r ensures HasRow(rows, r) <==> Accepted(ops, r).Some? {
      HasRowIds(rows, r);
      HasRowIds(t.rows, r);
    }
  }

  lemma SameRequest(x: WorkRow, j: Job, rec: Record)
    ensures RowAfter(x, j, rec).requestID == x.requestID
  {
  }

  /** A deletion takes its job's rows, and what the others say stays. */
  lemma DeleteRow(most: seq<Op>, jobID: Id, x: WorkRow)
    requires RowAgrees(most, x) && x.jobID != jobID
    ensures RowAgrees(most + [DeleteOp(jobID)], x)
  {
    assert (most + [DeleteOp(jobID)])[..|most|] == most;
  }

  lemma {:induction false} OthersStand(rows: seq<WorkRow>, most: seq<Op>, jobID: Id)
    requires forall i | 0 <= i < |rows| :: RowAgrees(most, rows[i])
    ensures Ids(RowsOfOthers(rows, jobID)) == Standing(Ids(rows), most + [DeleteOp(jobID)])
  {
    var ops := most + [DeleteOp(jobID)];
    assert ops[..|most|] == most;
    if rows != [] {
      assert RowAgrees(most, rows[0]);
      hide RowAgrees;
      OthersStand(rows[1..], most, jobID);
      assert Ids(rows)[1..] == Ids(rows[1..]) && Ids(rows)[0] == rows[0].requestID;
      var rest := RowsOfOthers(rows[1..], jobID);
      hide Accepted;
      assert Ids([rows[0]] + rest) == [rows[0].requestID] + Ids(rest);
    }
  }

  lemma DeleteRows(most: seq<Op>, jobID: Id)
    requires RowsAgree(most)
    ensures RowsAgree(most + [DeleteOp(jobID)])
  {
    var t, ops := After(most), most + [DeleteOp(jobID)];
    var rows := RowsOfOthers(t.rows, jobID);
    assert ops[..|most|] == most;
    assert After(ops).rows == rows by { AfterJoin(most, DeleteOp(jobID)); }
    OthersStand(t.rows, most, jobID);
    forall i | 0 <= i < |rows| ensures RowAgrees(ops, rows[i]) {
      assert rows[i] in rows && rows[i] in t.rows;
      DeleteRow(most, jobID, rows[i]);
    }
    forall r ensures HasRow(rows, r) <==> Accepted(ops, r).Some? {
      if HasRow(rows, r) {
        var i :| 0 <= i < |rows| && rows[i].requestID == r;
        assert rows[i] in rows && rows[i] in t.rows && RowAgrees(ops, rows[i]);
      }
      if Accepted(ops, r).Some? {
        assert HasRow(t.rows, r);
        var i :| 0 <= i < |t.rows| && t.rows[i].requestID == r;
        assert RowAgrees(most, t.rows[i]) && t.rows[i] in rows;
        var k :| 0 <= k < |rows| && rows[k] == t.rows[i];
      }
    }
  }

  lemma CancelRowAgrees(most: seq<Op>, jobID: Id, q: Id, x: WorkRow)
    requires RowAgrees(most, x)
    ensures RowAgrees(most + [CancelOp(jobID, q)],
                      if Cancellable(x, jobID, q) then x.(state := InState(JobState.Cancelled)) else x)
  {
    assert (most + [CancelOp(jobID, q)])[..|most|] == most;
  }

  lemma CancelRows(most: seq<Op>, jobID: Id, q: Id)
    requires RowsAgree(most)
    ensures RowsAgree(most + [CancelOp(jobID, q)])
  {
    var t, ops := After(most), most + [CancelOp(jobID, q)];
    var rows := CancelRow(t, jobID, q).rows;
    assert ops[..|most|] == most;
    assert After(ops).rows == rows by { AfterJoin(most, CancelOp(jobID, q)); }
    forall i | 0 <= i < |rows| ensures RowAgrees(ops, rows[i]) && rows[i].requestID == t.rows[i].requestID {
      CancelRowAgrees(most, jobID, q, t.rows[i]);
    }
    assert Ids(rows) == Ids(t.rows);
    forall r ensures HasRow(rows, r) <==> Accepted(ops, r).Some? {
      HasRowIds(rows, r);
      HasRowIds(t.rows, r);
    }
  }

  /** After any transactions every row says what they say of its request, and the rows are in order of acceptance. */
  lemma {:induction false} RowsFollowOps(ops: seq<Op>)
    ensures RowsAgree(ops)
  {
    if ops == [] {
      assert forall r :: !HasRow([], r);
    } else {
      var most, op := ops[..|ops| - 1], ops[|ops| - 1];
      RowsFollowOps(most);
      assert most + [op] == ops;
      hide RowsAgree;
      match op {
        case PutOp(rec) => PutRows(most, rec);
        case DeleteOp(jobID) => DeleteRows(most, jobID);
        case CancelOp(jobID, q) => CancelRows(most, jobID, q);
      }
    }
  }

  lemma {:induction false} QueueOfRows(rows: seq<WorkRow>, ops: seq<Op>, jobID: Id)
    requires forall i | 0 <= i < |rows| :: RowAgrees(ops, rows[i])
    ensures QueuedRequests(rows, jobID) == StillQueued(Ids(rows), ops, jobID)
  {
    if rows != [] {
      QueueOfRows(rows[1..], ops, jobID);
      assert RowAgrees(ops, rows[0]);
      assert Ids(rows)[1..] == Ids(rows[1..]) && Ids(rows)[0] == rows[0].requestID;
      hide NamedPhase, Completed, Cancelled, Accepted;
    }
  }

  /**
   What is read as queued after any transactions: exactly the requests of the job that stand accepted, whose writes
   named no other phase and that are not cancelled, in the order of their acceptance.
   */
  lemma QueueFollowsOps(ops: seq<Op>, jobID: Id)
    ensures QueuedRequests(After(ops).rows, jobID) == StillQueued(Order(ops), ops, jobID)
  {
    RowsFollowOps(ops);
    QueueOfRows(After(ops).rows, ops, jobID);
    hide *;
  }

  // ---------------------------------------------------------------- states and turns

  /** No result names the request in these transactions, and its job is not deleted. */
  predicate Undisturbed(more: seq<Op>, jobID: Id, r: Id) {
    forall op | op in more :: op != DeleteOp(jobID) && (op.PutOp? ==> !Names(op.rec, r))
  }

  /** A completed request stays completed until a result names it. */
  lemma {:induction false} CompletedStays(ops: seq<Op>, more: seq<Op>, r: Id)
    requires Accepted(ops, r).Some? && Completed(ops, r) && Undisturbed(more, Accepted(ops, r).value.0, r)
    ensures Accepted(ops + more, r) == Accepted(ops, r) && Completed(ops + more, r) && !Cancelled(ops + more, r)
  {
    if more == [] {
      assert ops + more == ops;
    } else {
      var most, op := more[..|more| - 1], more[|more| - 1];
      assert op in more && ops + more == (ops + most) + [op] && (ops + more)[..|ops + more| - 1] == ops + most;
      CompletedStays(ops, most, r);
    }
    NeverBoth(ops + more, r);
  }

  lemma NeverBoth(ops: seq<Op>, r: Id)
    requires Accepted(ops, r).Some? && Completed(ops, r)
    ensures !Cancelled(ops, r)
  {
    RowsFollowOps(ops);
    var rows := After(ops).rows;
    assert HasRow(rows, r);
    var i :| 0 <= i < |rows| && rows[i].requestID == r;
    assert RowAgrees(ops, rows[i]);
    hide Accepted, Completed, Cancelled, NamedPhase;
  }

  /** What one write leaves in a row: a result's own state and turn, or the job's if the row is the job's request. */
  lemma WriteSettles(x: WorkRow, j: Job, rec: Record)
    ensures var y := RowAfter(x, j, rec); var own := x.requestID == j.requestID;
      && y.requestID == x.requestID && y.jobID == x.jobID && y.planning == x.planning
      && (y.phase != x.phase ==> own && y.phase == rec.phase)
      && (own && rec.phase != NoPhase ==> y.phase == rec.phase)
      && (Names(rec, x.requestID) ==>
            y.turnID == rec.result.value.turnID
            && y.state == InState(
              if rec.result.value.state.None? then JobState.Completed else rec.result.value.state.value))
      && (!Names(rec, x.requestID) && Finished(x) ==> y.state == x.state && y.turnID == x.turnID)
      && (!Names(rec, x.requestID) && !Finished(x) && own
          && (!j.userCancelled || x.jobID != j.jobID || j.state.Completed?) ==>
            y.state == InState(j.state) && y.turnID == j.activeTurnID)
      && (!Names(rec, x.requestID) && !own && (!j.userCancelled || x.jobID != j.jobID) ==> y == x)
  {
  }

  // ---------------------------------------------------------------- records and notifications

  /** The job as it was last written, if it was not deleted since. */
  function LastWrite(ops: seq<Op>, jobID: Id): Option<Job> {
    if ops == [] then None else
    match ops[|ops| - 1]
    case PutOp(rec) => if rec.job.jobID == jobID then Some(rec.job) else LastWrite(ops[..|ops| - 1], jobID)
    case DeleteOp(id) => if id == jobID then None else LastWrite(ops[..|ops| - 1], jobID)
    case CancelOp(_, _) => LastWrite(ops[..|ops| - 1], jobID)
  }

  /** The phase of its request: the one that the write names; "queued" when it changes the request; else as it says. */
  function PhaseWritten(ops: seq<Op>, jobID: Id): Phase {
    if ops == [] then NoPhase else
    var most := ops[..|ops| - 1];
    match ops[|ops| - 1]
    case PutOp(rec) =>
      if rec.job.jobID != jobID then PhaseWritten(most, jobID)
      else if rec.phase != NoPhase then rec.phase
      else
        var before := LastWrite(most, jobID);
        if rec.job.requestID != (if before.Some? then before.value.requestID else 0) then QueuedPhase else rec.job.phase
    case _ => PhaseWritten(most, jobID)
  }

  /** A record holds what was last written of its job, but for its cursor. */
  lemma {:induction false} RecordsFollowOps(ops: seq<Op>, jobID: Id)
    ensures var jobs, last := After(ops).jobs, LastWrite(ops, jobID);
      && (jobID in jobs <==> last.Some?)
      && (last.Some? ==>
            jobs[jobID] == last.value.(phase := PhaseWritten(ops, jobID),
                                       notice := last.value.notice.(cursor := jobs[jobID].notice.cursor)))
  {
    if ops != [] { RecordsFollowOps(ops[..|ops| - 1], jobID); }
  }

  /** The write is news to those who wait: its job stands at a boundary or is stalled, and not as it did before. */
  predicate IsNews(before: Option<Job>, j: Job) {
    && (j.notice.stalled || j.state in {JobState.PlanReady, JobState.NeedsInput, JobState.Completed, JobState.Blocked,
                                        JobState.Failed, JobState.Disconnected, JobState.Cancelled})
    && (before.Some? ==>
          var b := before.value;
          b.state != j.state || b.requestID != j.requestID || b.pause != j.pause || b.approval.id != j.approval.id
            || b.approval.planVersion != j.approval.planVersion || b.notice.summary != j.notice.summary
            || b.notice.stalledReason != j.notice.stalledReason)
  }

  /** A write adds a notification of its job exactly if it is news against the write before it. */
  lemma NotifiesExactly(ops: seq<Op>, rec: Record)
    ensures var was, now := After(ops).notifications, After(ops + [PutOp(rec)]).notifications;
      if !IsNews(LastWrite(ops, rec.job.jobID), rec.job) then now == was else
      && |now| == |was| + 1 && now[..|was|] == was && now[|was|].jobID == rec.job.jobID
      && now[|was|].snapshot.(phase := rec.job.phase, notice := rec.job.notice) == rec.job
  {
    RecordsFollowOps(ops, rec.job.jobID);
    AfterJoin(ops, PutOp(rec));
    hide After, LastWrite, PhaseWritten;
  }
}
