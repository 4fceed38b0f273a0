/**
 The durable tables behind every job: the records, the boundary notifications and the accepted requests.
 `Put`, `Delete` and `CancelRow` are the transactions as functions of the tables, `Store` updates the same
 tables in place, and the lemmas say what holds after every sequence of transactions.
 */
module JobStore {
  import opened Protocol

  /** A row of `job_notifications`: the record as it stood when its boundary was first written. */
  datatype Notification = Notification(id: nat, jobID: Id, snapshot: Job)

  /** `work_requests.state`: "queued" when accepted, later the state of the job or of its result. */
  datatype RowState = QueuedRow | InState(state: JobState)

  datatype WorkRow = WorkRow(requestID: Id, jobID: Id, planning: bool, state: RowState, turnID: Id, phase: Phase)

  datatype RequestResult = RequestResult(requestID: Id, turnID: Id, state: Option<JobState>)

  datatype Record = Record(job: Job, phase: Phase, accepted: Option<(Id, bool)>, result: Option<RequestResult>)

  /** `lastID` is the table's AUTOINCREMENT counter: it is never taken back. */
  datatype Tables = Tables(jobs: map<Id, Job>, notifications: seq<Notification>, lastID: nat, rows: seq<WorkRow>)

  const Empty := Tables(map[], [], 0, [])

  // ---------------------------------------------------------------- transactions

  predicate AtBoundary(j: Job) {
    IsBoundary(j.state) || j.notice.stalled
  }

  /** The seven columns whose change makes a boundary a new one. */
  predicate SameBoundary(a: Job, b: Job) {
    && a.state == b.state && a.requestID == b.requestID && a.approval.planVersion == b.approval.planVersion
    && a.notice.stalledReason == b.notice.stalledReason && a.notice.summary == b.notice.summary
    && a.approval.id == b.approval.id && a.pause == b.pause
  }

  predicate Notifies(t: Tables, j: Job) {
    AtBoundary(j) && (j.jobID in t.jobs ==> !SameBoundary(t.jobs[j.jobID], j))
  }

  /** The record with its phase and the cursor of the one it replaces. */
  function Carried(t: Tables, rec: Record): Job {
    var j := rec.job;
    var known := j.jobID in t.jobs;
    j.(phase := StampedPhase(if known then t.jobs[j.jobID].requestID else 0, j, rec.phase),
       notice := j.notice.(cursor := if known then t.jobs[j.jobID].notice.cursor else 0))
  }

  predicate HasRow(rows: seq<WorkRow>, requestID: Id) {
    exists i | 0 <= i < |rows| :: rows[i].requestID == requestID
  }

  predicate Finished(r: WorkRow) {
    r.state == InState(JobState.Completed)
  }

  /** What the UPDATE statements of one `PutJob` do to a row, in their order. */
  function RowAfter(r: WorkRow, j: Job, rec: Record): WorkRow {
    var mine := r.requestID == j.requestID;
    var r1 := if mine && !Finished(r) then r.(state := InState(j.state), turnID := j.activeTurnID) else r;
    var r2 := if mine && rec.phase != NoPhase then r1.(phase := rec.phase) else r1;
    var r3 := if j.userCancelled && r.jobID == j.jobID && !Finished(r2) then r2.(state := InState(JobState.Cancelled))
      else r2;
    if rec.result.Some? && r.requestID == rec.result.value.requestID
    then
      var state := if rec.result.value.state.Some? then rec.result.value.state.value else JobState.Completed;
      r3.(state := InState(state), turnID := rec.result.value.turnID)
    else r3
  }

  function Inserted(rows: seq<WorkRow>, j: Job, rec: Record): seq<WorkRow> {
    if rec.accepted.Some? && !HasRow(rows, rec.accepted.value.0)
    then rows + [WorkRow(rec.accepted.value.0, j.jobID, rec.accepted.value.1, QueuedRow, 0, QueuedPhase)]
    else rows
  }

  function Put(t: Tables, rec: Record): Tables {
    var j := Carried(t, rec);
    var news := Notifies(t, j);
    var stored := if news then j.(notice := j.notice.(cursor := t.lastID + 1)) else j;
    var rows := Inserted(t.rows, j, rec);
    Tables(t.jobs[j.jobID := stored],
           if news then t.notifications + [Notification(t.lastID + 1, j.jobID, j)] else t.notifications,
           if news then t.lastID + 1 else t.lastID,
           seq(|rows|, i requires 0 <= i < |rows| => RowAfter(rows[i], j, rec)))
  }

  function OfOthers(ns: seq<Notification>, jobID: Id): (r: seq<Notification>)
    ensures forall n :: n in r <==> n in ns && n.jobID != jobID
    ensures Ascending(ns) ==> Ascending(r)
  {
    if ns == [] then [] else
    var rest := OfOthers(ns[1..], jobID);
    if ns[0].jobID != jobID then [ns[0]] + rest else rest
  }

  function RowsOfOthers(rows: seq<WorkRow>, jobID: Id): (r: seq<WorkRow>)
    ensures forall x :: x in r <==> x in rows && x.jobID != jobID
    ensures Distinct(rows) ==> Distinct(r)
  {
    if rows == [] then [] else
    var rest := RowsOfOthers(rows[1..], jobID);
    if rows[0].jobID != jobID then [rows[0]] + rest else rest
  }

  function Delete(t: Tables, jobID: Id): Tables {
    Tables(t.jobs - {jobID}, OfOthers(t.notifications, jobID), t.lastID, RowsOfOthers(t.rows, jobID))
  }

  predicate Waiting(r: WorkRow, jobID: Id) {
    r.jobID == jobID && r.phase == QueuedPhase && r.state != InState(JobState.Cancelled)
  }

  predicate Cancellable(r: WorkRow, jobID: Id, requestID: Id) {
    Waiting(r, jobID) && r.requestID == requestID && !Finished(r)
  }

  function CancelRow(t: Tables, jobID: Id, requestID: Id): Tables {
    t.(rows := seq(|t.rows|, i requires 0 <= i < |t.rows| =>
      if Cancellable(t.rows[i], jobID, requestID) then t.rows[i].(state := InState(JobState.Cancelled)) else t.rows[i]))
  }

  /** The queued requests of a job, in the order they were accepted. */
  function QueuedRequests(rows: seq<WorkRow>, jobID: Id): seq<(Id, bool)> {
    if rows == [] then [] else
    (if Waiting(rows[0], jobID) then [(rows[0].requestID, rows[0].planning)] else []) + QueuedRequests(rows[1..], jobID)
  }

  /** The notifications of the record's own request after `after`, up to its cursor. */
  function Events(ns: seq<Notification>, jobID: Id, job: Job, after: nat): seq<Notification> {
    if ns == [] then [] else
    (if ns[0].jobID == jobID && after < ns[0].id <= job.notice.cursor && ns[0].snapshot.requestID == job.requestID
     then [ns[0]] else []) + Events(ns[1..], jobID, job, after)
  }

  /** One read transaction; None when the job is missing or the caller's cursor is ahead of it. */
  function Snapshot(t: Tables, jobID: Id, after: nat): Option<(Job, seq<Notification>)> {
    if jobID !in t.jobs || after > t.jobs[jobID].notice.cursor then None
    else Some((t.jobs[jobID], Events(t.notifications, jobID, t.jobs[jobID], after)))
  }

  datatype Op = PutOp(rec: Record) | DeleteOp(jobID: Id) | CancelOp(jobID: Id, requestID: Id)

  function Apply(t: Tables, op: Op): Tables {
    match op
    case PutOp(rec) => Put(t, rec)
    case DeleteOp(jobID) => Delete(t, jobID)
    case CancelOp(jobID, requestID) => CancelRow(t, jobID, requestID)
  }

  /** The tables after `ops`, oldest first. */
  function After(ops: seq<Op>): Tables {
    if ops == [] then Empty else Apply(After(ops[..|ops| - 1]), ops[|ops| - 1])
  }

  // ---------------------------------------------------------------- the store itself

  class Store {
    var jobs: map<Id, Job>
    var notifications: seq<Notification>
    var lastID: nat
    var rows: seq<WorkRow>

    function Contents(): Tables
      reads this
    {
      Tables(jobs, notifications, lastID, rows)
    }

    constructor ()
      ensures Contents() == Empty
    {
      jobs, notifications, lastID, rows := map[], [], 0, [];
    }

    method PutJob(rec: Record)
      modifies this
      ensures Contents() == Put(old(Contents()), rec)
    {
      var j := rec.job;
      var known := j.jobID in jobs;
      if rec.phase != NoPhase {
        j := j.(phase := rec.phase);
      } else if j.requestID != (if known then jobs[j.jobID].requestID else 0) {
        j := j.(phase := QueuedPhase);
      }
      j := j.(notice := j.notice.(cursor := if known then jobs[j.jobID].notice.cursor else 0));
      var boundary := IsBoundary(j.state) || j.notice.stalled;
      var stored := j;
      if boundary && (!known || !SameBoundary(jobs[j.jobID], j)) {
        lastID := lastID + 1;
        notifications := notifications + [Notification(lastID, j.jobID, j)];
        stored := j.(notice := j.notice.(cursor := lastID));
      }
      jobs := jobs[j.jobID := stored];
      UpdateRows(j, rec);
    }

    /** The statements on `work_requests`, row by row. */
    method UpdateRows(j: Job, rec: Record)
      modifies this`rows
      ensures var was := Inserted(old(rows), j, rec);
        rows == seq(|was|, i requires 0 <= i < |was| => RowAfter(was[i], j, rec))
    {
      if rec.accepted.Some? && !HasRow(rows, rec.accepted.value.0) {
        rows := rows + [WorkRow(rec.accepted.value.0, j.jobID, rec.accepted.value.1, QueuedRow, 0, QueuedPhase)];
      }
      ghost var was := rows;
      for i := 0 to |rows|
        invariant |rows| == |was|
        invariant forall k :: 0 <= k < i ==> rows[k] == RowAfter(was[k], j, rec)
        invariant forall k :: i <= k < |rows| ==> rows[k] == was[k]
      {
        var r := rows[i];
        if r.requestID == j.requestID && !Finished(r) { r := r.(state := InState(j.state), turnID := j.activeTurnID); }
        if r.requestID == j.requestID && rec.phase != NoPhase { r := r.(phase := rec.phase); }
        if j.userCancelled && r.jobID == j.jobID && !Finished(r) { r := r.(state := InState(JobState.Cancelled)); }
        if rec.result.Some? && r.requestID == rec.result.value.requestID {
          var state := if rec.result.value.state.Some? then rec.result.value.state.value else JobState.Completed;
          r := r.(state := InState(state), turnID := rec.result.value.turnID);
        }
        rows := rows[i := r];
      }
    }

    method DeleteJob(jobID: Id)
      modifies this
      ensures Contents() == Delete(old(Contents()), jobID)
    {
      notifications, rows, jobs := OfOthers(notifications, jobID), RowsOfOthers(rows, jobID), jobs - {jobID};
    }

    /** True when a row was still waiting and is cancelled now. */
    method CancelQueuedRequest(jobID: Id, requestID: Id) returns (found: bool)
      modifies this`rows
      ensures Contents() == CancelRow(old(Contents()), jobID, requestID)
      ensures found == exists i | 0 <= i < |old(rows)| :: Cancellable(old(rows)[i], jobID, requestID)
    {
      found := false;
      ghost var was := rows;
      for i := 0 to |rows|
        invariant |rows| == |was|
        invariant forall k :: 0 <= k < i ==> rows[k] == CancelRow(old(Contents()), jobID, requestID).rows[k]
        invariant forall k :: i <= k < |rows| ==> rows[k] == was[k]
        invariant found == exists k | 0 <= k < i :: Cancellable(was[k], jobID, requestID)
      {
        if Cancellable(rows[i], jobID, requestID) {
          rows, found := rows[i := rows[i].(state := InState(JobState.Cancelled))], true;
        }
      }
    }

    method ReadQueuedRequests(jobID: Id) returns (out: seq<(Id, bool)>)
      ensures out == QueuedRequests(rows, jobID)
    {
      out := [];
      for i := 0 to |rows|
        invariant QueuedRequests(rows, jobID) == out + QueuedRequests(rows[i..], jobID)
      {
        assert rows[i..][1..] == rows[i + 1..];
        if Waiting(rows[i], jobID) { out := out + [(rows[i].requestID, rows[i].planning)]; }
      }
    }

    method WaitSnapshot(jobID: Id, after: nat) returns (out: Option<(Job, seq<Notification>)>)
      ensures out == Snapshot(Contents(), jobID, after)
    {
      if jobID !in jobs { return None; }
      var job := jobs[jobID];
      if after > job.notice.cursor { return None; }
      var events := [];
      for i := 0 to |notifications|
        invariant Events(notifications, jobID, job, after) == events + Events(notifications[i..], jobID, job, after)
      {
        assert notifications[i..][1..] == notifications[i + 1..];
        var n := notifications[i];
        if n.jobID == jobID && after < n.id <= job.notice.cursor && n.snapshot.requestID == job.requestID {
          events := events + [n];
        }
      }
      assert notifications[|notifications|..] == [] && events + [] == events;
      return Some((job, events));
    }
  }

  // ---------------------------------------------------------------- what every sequence of transactions keeps

  predicate Ascending(ns: seq<Notification>) {
    forall i, j :: 0 <= i < j < |ns| ==> ns[i].id < ns[j].id
  }

  predicate Distinct(rows: seq<WorkRow>) {
    forall i, j :: 0 <= i < j < |rows| ==> rows[i].requestID != rows[j].requestID
  }

  /** `cursor` is the greatest id among the job's notifications, 0 when it has none. */
  predicate IsGreatest(ns: seq<Notification>, jobID: Id, cursor: nat) {
    && (forall n | n in ns && n.jobID == jobID :: n.id <= cursor)
    && (cursor == 0 || exists n | n in ns :: n.jobID == jobID && n.id == cursor)
  }

  ghost predicate Consistent(t: Tables) {
    && Ascending(t.notifications) && Distinct(t.rows)
    && (forall n | n in t.notifications :: 0 < n.id <= t.lastID && n.jobID in t.jobs)
    && (forall id | id in t.jobs :: t.jobs[id].jobID == id && IsGreatest(t.notifications, id, t.jobs[id].notice.cursor))
  }

  predicate StallNamed(j: Job) {
    j.notice.stalled <==> j.notice.stalledReason != ""
  }

  /** A record at a boundary agrees with the notification its cursor names. */
  ghost predicate Agreeing(t: Tables) {
    forall id | id in t.jobs :: StallNamed(t.jobs[id])
      && (AtBoundary(t.jobs[id]) ==> Agrees(t.notifications, t.jobs[id]))
  }

  predicate Agrees(ns: seq<Notification>, j: Job) {
    exists n | n in ns :: n.jobID == j.jobID && n.id == j.notice.cursor && SameBoundary(n.snapshot, j)
  }

  /** The statements on the rows never touch a request's id, and a second acceptance adds none. */
  lemma PutDistinct(t: Tables, rec: Record)
    requires Distinct(t.rows)
    ensures Distinct(Put(t, rec).rows)
  {
    hide SameBoundary;
    var j := Carried(t, rec);
    var rows := Inserted(t.rows, j, rec);
    assert Distinct(rows) by { hide Carried; }
    hide Inserted;
    forall i | 0 <= i < |rows| ensures Put(t, rec).rows[i].requestID == rows[i].requestID { }
  }

  /** A new notification has the next id, so the ids ascend up to the counter. */
  lemma PutAscends(t: Tables, rec: Record)
    requires Ascending(t.notifications) && forall n | n in t.notifications :: 0 < n.id <= t.lastID && n.jobID in t.jobs
    ensures Ascending(Put(t, rec).notifications)
    ensures forall n | n in Put(t, rec).notifications :: 0 < n.id <= Put(t, rec).lastID && n.jobID in Put(t, rec).jobs
  {
    hide SameBoundary, RowAfter, Inserted;
  }

  /** The written record's cursor is its newest notification; the others keep theirs. */
  lemma PutGreatest(t: Tables, rec: Record, id: Id)
    requires Consistent(t) && id in Put(t, rec).jobs
    ensures Put(t, rec).jobs[id].jobID == id
      && IsGreatest(Put(t, rec).notifications, id, Put(t, rec).jobs[id].notice.cursor)
  {
    hide SameBoundary, RowAfter, Inserted, Distinct, Ascending;
    var j, t' := Carried(t, rec), Put(t, rec);
    if id in t.jobs && t.jobs[id].notice.cursor != 0 {
      var n :| n in t.notifications && n.jobID == id && n.id == t.jobs[id].notice.cursor;
      assert n in t'.notifications;
    }
    if Notifies(t, j) { assert t'.notifications[|t.notifications|] in t'.notifications; }
  }

  lemma PutKeeps(t: Tables, rec: Record)
    requires Consistent(t)
    ensures Consistent(Put(t, rec))
  {
    PutDistinct(t, rec);
    PutAscends(t, rec);
    forall id | id in Put(t, rec).jobs
      ensures Put(t, rec).jobs[id].jobID == id
        && IsGreatest(Put(t, rec).notifications, id, Put(t, rec).jobs[id].notice.cursor)
    {
      PutGreatest(t, rec, id);
    }
    hide Put, Distinct, Ascending, IsGreatest;
  }

  lemma DeleteKeeps(t: Tables, jobID: Id)
    requires Consistent(t)
    ensures Consistent(Delete(t, jobID))
  {
    var t' := Delete(t, jobID);
    forall id | id in t'.jobs ensures IsGreatest(t'.notifications, id, t'.jobs[id].notice.cursor) {
      if t.jobs[id].notice.cursor != 0 {
        var n :| n in t.notifications && n.jobID == id && n.id == t.jobs[id].notice.cursor;
        assert n in t'.notifications;
      }
    }
  }

  /** Whatever is written, deleted and cancelled: a record's cursor is the greatest id of its notifications. */
  lemma {:induction false} CursorsAreGreatest(ops: seq<Op>)
    ensures Consistent(After(ops))
  {
    if ops != [] {
      var t, op := After(ops[..|ops| - 1]), ops[|ops| - 1];
      CursorsAreGreatest(ops[..|ops| - 1]);
      match op {
        case PutOp(rec) => PutKeeps(t, rec);
        case DeleteOp(jobID) => DeleteKeeps(t, jobID);
        case CancelOp(jobID, requestID) =>
          assert forall i | 0 <= i < |t.rows| :: Apply(t, op).rows[i].requestID == t.rows[i].requestID;
      }
    }
  }

  lemma PutAgrees(t: Tables, rec: Record)
    requires Consistent(t) && Agreeing(t) && StallNamed(rec.job)
    ensures Agreeing(Put(t, rec))
  {
    var j, t' := Carried(t, rec), Put(t, rec);
    forall id | id in t'.jobs && AtBoundary(t'.jobs[id]) ensures Agrees(t'.notifications, t'.jobs[id]) {
      if id == j.jobID && Notifies(t, j) {
        assert t'.notifications[|t.notifications|] in t'.notifications;
      } else {
        var n :| n in t.notifications && n.jobID == t.jobs[id].jobID && n.id == t.jobs[id].notice.cursor
          && SameBoundary(n.snapshot, t.jobs[id]);
        assert n in t'.notifications;
      }
    }
  }

  lemma DeleteAgrees(t: Tables, jobID: Id)
    requires Consistent(t) && Agreeing(t)
    ensures Agreeing(Delete(t, jobID))
  {
    var t' := Delete(t, jobID);
    forall id | id in t'.jobs && AtBoundary(t'.jobs[id]) ensures Agrees(t'.notifications, t'.jobs[id]) {
      var n :| n in t.notifications && n.jobID == t.jobs[id].jobID && n.id == t.jobs[id].notice.cursor
        && SameBoundary(n.snapshot, t.jobs[id]);
      assert n in t'.notifications;
    }
  }

  /** As long as stalls carry their reason, the notification under a boundary's cursor tells what the record tells. */
  lemma {:induction false} BoundariesAgree(ops: seq<Op>)
    requires forall op | op in ops && op.PutOp? :: StallNamed(op.rec.job)
    ensures Agreeing(After(ops))
  {
    if ops != [] {
      var t, op := After(ops[..|ops| - 1]), ops[|ops| - 1];
      assert op in ops;
      BoundariesAgree(ops[..|ops| - 1]);
      CursorsAreGreatest(ops[..|ops| - 1]);
      match op {
        case PutOp(rec) => PutAgrees(t, rec);
        case DeleteOp(jobID) => DeleteAgrees(t, jobID);
        case CancelOp(jobID, requestID) =>
      }
    }
  }

  /**
   Without that, a stall raised under an unchanged reason reaches a boundary in silence. No caller of PutJob in the
   supervisor writes such a record: the gap is one of PutJob taken by itself.
   */
  lemma SilentStall(job: Job)
    requires job.state.Executing? && job.notice == Notice("", false, "no activity", 0)
    ensures var ops := [PutOp(Record(job, NoPhase, None, None)),
                        PutOp(Record(job.(notice := job.notice.(stalled := true)), NoPhase, None, None))];
      AtBoundary(After(ops).jobs[job.jobID]) && After(ops).notifications == []
  {
    var op1 := PutOp(Record(job, NoPhase, None, None));
    var op2 := PutOp(Record(job.(notice := job.notice.(stalled := true)), NoPhase, None, None));
    assert [op1, op2][..1] == [op1] && [op1][..0] == [];
    assert After([op1]) == Put(Empty, op1.rec);
  }

  lemma AfterJoin(ops: seq<Op>, op: Op)
    ensures After(ops + [op]) == Apply(After(ops), op)
  {
    assert (ops + [op])[..|ops|] == ops;
  }

  lemma CursorStays(t: Tables, op: Op, id: Id)
    requires Consistent(t) && id in t.jobs && op != DeleteOp(id)
    ensures id in Apply(t, op).jobs && t.jobs[id].notice.cursor <= Apply(t, op).jobs[id].notice.cursor
  {
    hide SameBoundary, RowAfter, Inserted, OfOthers, RowsOfOthers, Cancellable;
    var c := t.jobs[id].notice.cursor;
    assert c <= t.lastID by {
      if c != 0 { var n :| n in t.notifications && n.jobID == id && n.id == c; }
    }
  }

  /** Until its job is deleted a cursor never goes back. */
  lemma {:induction false} CursorNeverDecreases(ops: seq<Op>, more: seq<Op>, id: Id)
    requires id in After(ops).jobs && DeleteOp(id) !in more
    ensures id in After(ops + more).jobs
      && After(ops).jobs[id].notice.cursor <= After(ops + more).jobs[id].notice.cursor
  {
    if more == [] {
      assert ops + more == ops;
    } else {
      var most, op := more[..|more| - 1], more[|more| - 1];
      CursorNeverDecreases(ops, most, id);
      assert ops + more == (ops + most) + [op];
      AfterJoin(ops + most, op);
      CursorsAreGreatest(ops + most);
      assert op in more;
      hide After;
      CursorStays(After(ops + most), op, id);
    }
  }

  /** An id is issued once: a notification numbered below the counter was there when the counter stood so. */
  lemma {:induction false} IdsAreNeverReused(ops: seq<Op>, more: seq<Op>, n: Notification)
    requires n in After(ops + more).notifications && n.id <= After(ops).lastID
    ensures n in After(ops).notifications
  {
    if more == [] {
      assert ops + more == ops;
    } else {
      var most, op := more[..|more| - 1], more[|more| - 1];
      assert ops + more == (ops + most) + [op];
      AfterJoin(ops + most, op);
      CounterGrows(ops, most);
      if n in After(ops + most).notifications { IdsAreNeverReused(ops, most, n); }
    }
  }

  lemma {:induction false} CounterGrows(ops: seq<Op>, more: seq<Op>)
    ensures After(ops).lastID <= After(ops + more).lastID
  {
    if more == [] {
      assert ops + more == ops;
    } else {
      var most, op := more[..|more| - 1], more[|more| - 1];
      assert ops + more == (ops + most) + [op];
      AfterJoin(ops + most, op);
      CounterGrows(ops, most);
    }
  }

  lemma SameId(ns: seq<Notification>, m: Notification, n: Notification)
    requires Ascending(ns) && m in ns && n in ns && m.id == n.id
    ensures m == n
  {
    var a :| 0 <= a < |ns| && ns[a] == m;
    var b :| 0 <= b < |ns| && ns[b] == n;
  }

  /** The two readings of one id, at any two times, are the same notification. */
  lemma OneNotificationPerId(ops: seq<Op>, i: nat, j: nat, m: Notification, n: Notification)
    requires i <= j <= |ops| && m in After(ops[..i]).notifications && n in After(ops[..j]).notifications && m.id == n.id
    ensures m == n
  {
    var before := After(ops[..i]);
    CursorsAreGreatest(ops[..i]);
    assert ops[..j] == ops[..i] + ops[i..j];
    hide After, IsGreatest;
    assert m.id <= before.lastID;
    IdsAreNeverReused(ops[..i], ops[i..j], n);
    SameId(before.notifications, m, n);
  }

  function Dropped(requests: seq<(Id, bool)>, requestID: Id): seq<(Id, bool)> {
    if requests == [] then [] else
    (if requests[0].0 == requestID then [] else [requests[0]]) + Dropped(requests[1..], requestID)
  }

  lemma {:induction false} DroppedNothing(rows: seq<WorkRow>, jobID: Id, requestID: Id)
    requires !HasRow(rows, requestID)
    ensures Dropped(QueuedRequests(rows, jobID), requestID) == QueuedRequests(rows, jobID)
  {
    if rows != [] {
      assert forall i | 0 <= i < |rows[1..]| :: rows[1..][i] == rows[i + 1];
      DroppedNothing(rows[1..], jobID, requestID);
      var rest := QueuedRequests(rows[1..], jobID);
      assert rows[0].requestID != requestID;
      if Waiting(rows[0], jobID) {
        assert ([(rows[0].requestID, rows[0].planning)] + rest)[1..] == rest;
      } else {
        assert [] + rest == rest;
      }
    }
  }

  /** A cancelled request leaves the queue for good; the others keep their places. */
  lemma {:induction false} CancelDropsOneRequest(t: Tables, jobID: Id, requestID: Id)
    requires Distinct(t.rows) && exists i | 0 <= i < |t.rows| :: Cancellable(t.rows[i], jobID, requestID)
    ensures QueuedRequests(CancelRow(t, jobID, requestID).rows, jobID)
         == Dropped(QueuedRequests(t.rows, jobID), requestID)
    decreases |t.rows|
  {
    var after := CancelRow(t, jobID, requestID);
    var rest, rest' := t.(rows := t.rows[1..]), after.(rows := after.rows[1..]);
    assert rest'.rows == CancelRow(rest, jobID, requestID).rows;
    var tail := QueuedRequests(rest.rows, jobID);
    if Waiting(t.rows[0], jobID) { assert ([(t.rows[0].requestID, t.rows[0].planning)] + tail)[1..] == tail; }
    if Cancellable(t.rows[0], jobID, requestID) {
      assert !HasRow(rest.rows, requestID);
      DroppedNothing(rest.rows, jobID, requestID);
      assert rest'.rows == rest.rows;
      assert [] + tail == tail;
    } else {
      var i :| 0 <= i < |t.rows| && Cancellable(t.rows[i], jobID, requestID);
      assert rest.rows[i - 1] == t.rows[i];
      CancelDropsOneRequest(rest, jobID, requestID);
    }
  }

  /** Cancelling touches no other job, and nothing at all when no row of the request is waiting. */
  lemma {:induction false} CancelTouchesOneRequest(t: Tables, jobID: Id, requestID: Id, other: Id)
    requires other != jobID || !exists i | 0 <= i < |t.rows| :: Cancellable(t.rows[i], jobID, requestID)
    ensures QueuedRequests(CancelRow(t, jobID, requestID).rows, other) == QueuedRequests(t.rows, other)
    decreases |t.rows|
  {
    if t.rows != [] {
      var after := CancelRow(t, jobID, requestID);
      var rest := t.(rows := t.rows[1..]);
      assert after.rows[1..] == CancelRow(rest, jobID, requestID).rows;
      assert forall i | 0 <= i < |rest.rows| :: rest.rows[i] == t.rows[i + 1];
      CancelTouchesOneRequest(rest, jobID, requestID, other);
    }
  }
}
