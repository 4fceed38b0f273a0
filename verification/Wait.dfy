/**
 Waiting for boundaries with cursors. A wait takes snapshots: each looks at its jobs one after another, while
 transactions go on in between. What a caller learns from a chain of waits is proved over every sequence
 of transactions and every moment at which the jobs are looked at.
 */
module Waiting {
  import opened Protocol
  import opened JobStore

  datatype Request = Request(jobIDs: seq<Id>, mode: string, timeoutSec: int, cursors: map<Id, int>)

  /**
   One job as one snapshot saw it: after the first `at` transactions, with what the runtime added then.
   `unsaved`: the runtime's stall reason reports a failed write.
   */
  datatype Look = Look(at: nat, stalled: bool, busy: bool, queued: nat, unsaved: bool)

  datatype Ending = TimerFires | CallerGone | ServiceClosed

  datatype Reason = BoundaryReached | ReportDue

  datatype Answer = Answer(reason: Reason, jobs: seq<Job>, boundaries: seq<Notification>, cursors: map<Id, nat>)

  // ---------------------------------------------------------------- what a wait answers

  predicate Accepted(req: Request) {
    && |req.jobIDs| > 0 && req.mode in {"", "any", "all"} && 0 <= req.timeoutSec <= 21600
    && (forall i | 0 <= i < |req.jobIDs| ::
          req.jobIDs[i] != 0 && forall j | 0 <= j < i :: req.jobIDs[j] != req.jobIDs[i])
    && (forall id | id in req.cursors :: id in req.jobIDs && req.cursors[id] >= 0)
  }

  function Cursor(req: Request, id: Id): nat {
    if id in req.cursors && req.cursors[id] >= 0 then req.cursors[id] else 0
  }

  predicate Actionable(job: Job, look: Look) {
    (IsBoundary(job.state) || look.stalled) && (!job.state.Completed? || (!look.busy && look.queued == 0))
  }

  predicate Fresh(req: Request, id: Id, job: Job) {
    id !in req.cursors || job.notice.cursor > Cursor(req, id)
  }

  /** Later states of the same request supersede an approval or an input that was asked for. */
  function Current(events: seq<Notification>, job: Job): seq<Notification> {
    if events == [] then [] else
    (if events[0].snapshot.state == job.state && events[0].snapshot.approval.id == job.approval.id
     then [events[0]] else [])
      + Current(events[1..], job)
  }

  datatype Sight = Sight(jobs: seq<Job>, boundaries: seq<Notification>, cursors: map<Id, nat>, hits: nat)

  function TablesAt(ops: seq<Op>, look: Look): Tables {
    After(if look.at <= |ops| then ops[..look.at] else ops)
  }

  /** The first `k` jobs of a snapshot; None when looking at one of them fails. */
  function Glance(ops: seq<Op>, req: Request, looks: seq<Look>, k: nat): Option<Sight>
    requires k <= |req.jobIDs| && k <= |looks|
  {
    if k == 0 then Some(Sight([], [], map[], 0)) else
    var id, look := req.jobIDs[k - 1], looks[k - 1];
    var before := Glance(ops, req, looks, k - 1);
    var read := Snapshot(TablesAt(ops, look), id, Cursor(req, id));
    if before.None? || read.None? || look.unsaved then None else
    var (job, events) := read.value;
    var current := Current(events, job);
    var hit := Actionable(job, look) && (Fresh(req, id, job) || current != []);
    Some(Sight(before.value.jobs + [job], before.value.boundaries + current,
               before.value.cursors[id := job.notice.cursor], before.value.hits + if hit then 1 else 0))
  }

  predicate Ready(req: Request, s: Sight) {
    s.hits > 0 && (req.mode != "all" || s.hits == |req.jobIDs|)
  }

  predicate Rounds(req: Request, rounds: seq<seq<Look>>) {
    |rounds| > 0 && forall r | r in rounds :: |r| == |req.jobIDs|
  }

  function Due(req: Request, s: Sight): Answer {
    Answer(ReportDue, s.jobs, [], if req.mode == "all" then map id | id in req.jobIDs :: Cursor(req, id) else s.cursors)
  }

  /** The answer after looking once per round, the last time when the wait ends. */
  function Outcome(ops: seq<Op>, req: Request, rounds: seq<seq<Look>>, ending: Ending): Option<Answer>
    requires Rounds(req, rounds)
    decreases |rounds|
  {
    var s := Glance(ops, req, rounds[0], |req.jobIDs|);
    if s.None? then None
    else if Ready(req, s.value) then Some(Answer(BoundaryReached, s.value.jobs, s.value.boundaries, s.value.cursors))
    else if |rounds| > 1 then Outcome(ops, req, rounds[1..], ending)
    else if ending.TimerFires? then Some(Due(req, s.value))
    else None
  }

  function WaitFor(ops: seq<Op>, req: Request, rounds: seq<seq<Look>>, ending: Ending): Option<Answer>
    requires Rounds(req, rounds)
  {
    if Accepted(req) then Outcome(ops, req, rounds, ending) else None
  }

  // ---------------------------------------------------------------- the loops

  method TakeSnapshot(ops: seq<Op>, req: Request, looks: seq<Look>) returns (out: Option<Sight>)
    requires |looks| == |req.jobIDs|
    ensures out == Glance(ops, req, looks, |req.jobIDs|)
  {
    hide Snapshot, After, Current, TablesAt;
    var s := Sight([], [], map[], 0);
    for i := 0 to |req.jobIDs|
      invariant Glance(ops, req, looks, i) == Some(s)
    {
      var id, look := req.jobIDs[i], looks[i];
      var read := Snapshot(TablesAt(ops, look), id, Cursor(req, id));
      if read.None? || look.unsaved {
        GlanceFails(ops, req, looks, i + 1, |req.jobIDs|);
        return None;
      }
      var job, events := read.value.0, read.value.1;
      var actionable := (IsBoundary(job.state) || look.stalled)
        && (!job.state.Completed? || (!look.busy && look.queued == 0));
      var current := KeepCurrent(events, job);
      var hit := actionable && (id !in req.cursors || job.notice.cursor > Cursor(req, id) || |current| > 0);
      s := Sight(s.jobs + [job], s.boundaries + current, s.cursors[id := job.notice.cursor],
                 s.hits + if hit then 1 else 0);
    }
    return Some(s);
  }

  method KeepCurrent(events: seq<Notification>, job: Job) returns (out: seq<Notification>)
    ensures out == Current(events, job)
  {
    out := [];
    for k := 0 to |events|
      invariant Current(events, job) == out + Current(events[k..], job)
    {
      CurrentStep(events, job, k, out);
      hide Current;
      if events[k].snapshot.state == job.state && events[k].snapshot.approval.id == job.approval.id {
        out := out + [events[k]];
      }
    }
  }

  lemma CurrentStep(events: seq<Notification>, job: Job, k: nat, out: seq<Notification>)
    requires k < |events|
    ensures out + Current(events[k..], job) ==
      (if events[k].snapshot.state == job.state && events[k].snapshot.approval.id == job.approval.id
       then out + [events[k]] else out)
        + Current(events[k + 1..], job)
  {
    assert events[k..][1..] == events[k + 1..];
    var rest := Current(events[k + 1..], job);
    assert out + ([events[k]] + rest) == (out + [events[k]]) + rest && [] + rest == rest;
  }

  method Wait(ops: seq<Op>, req: Request, rounds: seq<seq<Look>>, ending: Ending) returns (out: Option<Answer>)
    requires Rounds(req, rounds)
    ensures out == WaitFor(ops, req, rounds, ending)
  {
    var ok := Validate(req);
    if !ok { return None; }
    var r := 0;
    while true
      invariant r < |rounds| && Rounds(req, rounds[r..])
      invariant Outcome(ops, req, rounds, ending) == Outcome(ops, req, rounds[r..], ending)
      decreases |rounds| - r
    {
      assert rounds[r..][0] == rounds[r] && rounds[r..][1..] == rounds[r + 1..];
      var s := TakeSnapshot(ops, req, rounds[r]);
      if s.None? { return None; }
      if s.value.hits > 0 && (req.mode != "all" || s.value.hits == |req.jobIDs|) {
        return Some(Answer(BoundaryReached, s.value.jobs, s.value.boundaries, s.value.cursors));
      }
      if r == |rounds| - 1 {
        if !ending.TimerFires? { return None; }
        return Some(Due(req, s.value));
      }
      r := r + 1;
    }
  }

  method Validate(req: Request) returns (ok: bool)
    ensures ok == Accepted(req)
  {
    if |req.jobIDs| == 0 { return false; }
    if req.mode != "" && req.mode != "any" && req.mode != "all" { return false; }
    if req.timeoutSec < 0 || req.timeoutSec > 21600 { return false; }
    var ids := {};
    for i := 0 to |req.jobIDs|
      invariant ids == set k | 0 <= k < i :: req.jobIDs[k]
      invariant forall k | 0 <= k < i :: req.jobIDs[k] != 0 && forall j | 0 <= j < k :: req.jobIDs[j] != req.jobIDs[k]
    {
      if req.jobIDs[i] == 0 || req.jobIDs[i] in ids { return false; }
      ids := ids + {req.jobIDs[i]};
    }
    return forall id | id in req.cursors :: id in ids && req.cursors[id] >= 0;
  }

  lemma GlanceFails(ops: seq<Op>, req: Request, looks: seq<Look>, k: nat, n: nat)
    requires k <= n <= |req.jobIDs| && n <= |looks| && Glance(ops, req, looks, k).None?
    ensures Glance(ops, req, looks, n).None?
    decreases n
  {
    if k < n { GlanceFails(ops, req, looks, k, n - 1); }
  }

  // ---------------------------------------------------------------- one snapshot

  lemma CurrentMembers(events: seq<Notification>, job: Job)
    ensures forall n :: n in Current(events, job) <==>
      n in events && n.snapshot.state == job.state && n.snapshot.approval.id == job.approval.id
  {
  }

  lemma EventMembers(ns: seq<Notification>, jobID: Id, job: Job, after: nat)
    ensures forall n :: n in Events(ns, jobID, job, after) <==>
      n in ns && n.jobID == jobID && after < n.id <= job.notice.cursor && n.snapshot.requestID == job.requestID
  {
  }

  lemma CurrentAscends(events: seq<Notification>, job: Job)
    requires Ascending(events)
    ensures Ascending(Current(events, job))
  {
    if events != [] {
      CurrentMembers(events[1..], job);
      CurrentAscends(events[1..], job);
      var rest := Current(events[1..], job);
      forall i | 0 <= i < |rest| ensures events[0].id < rest[i].id { assert rest[i] in rest; }
    }
  }

  lemma EventsAscend(ns: seq<Notification>, jobID: Id, job: Job, after: nat)
    requires Ascending(ns)
    ensures Ascending(Events(ns, jobID, job, after))
  {
    if ns != [] {
      EventMembers(ns[1..], jobID, job, after);
      EventsAscend(ns[1..], jobID, job, after);
      var rest := Events(ns[1..], jobID, job, after);
      forall i | 0 <= i < |rest| ensures ns[0].id < rest[i].id { assert rest[i] in rest; }
    }
  }

  /** The notification comes from a job that was asked about, after the caller's cursor and up to the answer's. */
  predicate Reported(ops: seq<Op>, req: Request, cursors: map<Id, nat>, n: Notification) {
    && n.jobID in req.jobIDs && n.jobID in cursors && Cursor(req, n.jobID) < n.id <= cursors[n.jobID]
    && Issued(ops, n)
  }

  /** The notification was in the table at some time. */
  predicate Issued(ops: seq<Op>, n: Notification) {
    exists at | 0 <= at <= |ops| :: n in After(ops[..at]).notifications
  }

  ghost predicate IdsDiffer(ns: seq<Notification>) {
    forall i, j :: 0 <= i < j < |ns| ==> ns[i].id != ns[j].id
  }

  /** What the look at one job adds: its own notifications, in order, after the caller's cursor. */
  lemma LookReports(ops: seq<Op>, req: Request, id: Id, look: Look)
    requires Snapshot(TablesAt(ops, look), id, Cursor(req, id)).Some?
    ensures var (job, events) := Snapshot(TablesAt(ops, look), id, Cursor(req, id)).value;
      && Cursor(req, id) <= job.notice.cursor && IdsDiffer(Current(events, job))
      && (forall n | n in Current(events, job) ::
            n.jobID == id && Cursor(req, id) < n.id <= job.notice.cursor && Issued(ops, n))
  {
    var at := if look.at <= |ops| then look.at else |ops|;
    var t := TablesAt(ops, look);
    assert ops[..|ops|] == ops && t == After(ops[..at]);
    CursorsAreGreatest(ops[..at]);
    var job := t.jobs[id];
    var events := Events(t.notifications, id, job, Cursor(req, id));
    EventMembers(t.notifications, id, job, Cursor(req, id));
    EventsAscend(t.notifications, id, job, Cursor(req, id));
    CurrentMembers(events, job);
    CurrentAscends(events, job);
    forall n | n in Current(events, job) ensures Issued(ops, n) { assert n in After(ops[..at]).notifications; }
  }

  lemma IssuedOnce(ops: seq<Op>, m: Notification, n: Notification)
    requires Issued(ops, m) && Issued(ops, n) && m.id == n.id
    ensures m == n
  {
    var i :| 0 <= i <= |ops| && m in After(ops[..i]).notifications;
    var j :| 0 <= j <= |ops| && n in After(ops[..j]).notifications;
    if i <= j { OneNotificationPerId(ops, i, j, m, n); } else { OneNotificationPerId(ops, j, i, n, m); }
  }

  lemma IdsDifferJoin(a: seq<Notification>, b: seq<Notification>)
    requires IdsDiffer(a) && IdsDiffer(b) && forall m, n | m in a && n in b :: m.id != n.id
    ensures IdsDiffer(a + b)
  {
    var c := a + b;
    forall i, j | 0 <= i < j < |c| ensures c[i].id != c[j].id {
      if i < |a| <= j { assert c[i] in a && c[j] in b; }
    }
  }

  /** The last job looked at adds its cursor and its current notifications. */
  lemma GlanceStep(ops: seq<Op>, req: Request, looks: seq<Look>, k: nat)
    requires 0 < k <= |req.jobIDs| && k <= |looks| && Glance(ops, req, looks, k).Some?
    ensures Glance(ops, req, looks, k - 1).Some?
    ensures var id, read := req.jobIDs[k - 1],
      Snapshot(TablesAt(ops, looks[k - 1]), req.jobIDs[k - 1], Cursor(req, req.jobIDs[k - 1]));
      && read.Some? && read.value.0.notice.cursor >= Cursor(req, id)
      && Glance(ops, req, looks, k).value.cursors ==
        Glance(ops, req, looks, k - 1).value.cursors[id := read.value.0.notice.cursor]
      && Glance(ops, req, looks, k).value.boundaries ==
        Glance(ops, req, looks, k - 1).value.boundaries + Current(read.value.1, read.value.0)
  {
  }

  predicate CursorsFor(req: Request, cursors: map<Id, nat>, k: nat)
    requires k <= |req.jobIDs|
  {
    && (forall i | 0 <= i < k :: req.jobIDs[i] in cursors)
    && (forall id | id in cursors :: id in req.jobIDs[..k] && Cursor(req, id) <= cursors[id])
  }

  lemma CursorsForMore(req: Request, cursors: map<Id, nat>, k: nat, cursor: nat)
    requires k < |req.jobIDs| && CursorsFor(req, cursors, k) && cursor >= Cursor(req, req.jobIDs[k])
    ensures CursorsFor(req, cursors[req.jobIDs[k] := cursor], k + 1)
  {
    var now := cursors[req.jobIDs[k] := cursor];
    forall id | id in now ensures id in req.jobIDs[..k + 1] {
      assert req.jobIDs[..k + 1] == req.jobIDs[..k] + [req.jobIDs[k]];
    }
  }

  /** The cursors of a snapshot: one for each job looked at, none before the caller's. */
  lemma {:induction false} GlanceCursors(ops: seq<Op>, req: Request, looks: seq<Look>, k: nat)
    requires k <= |req.jobIDs| && k <= |looks| && Glance(ops, req, looks, k).Some?
    ensures CursorsFor(req, Glance(ops, req, looks, k).value.cursors, k)
  {
    if k == 0 {
      hide Snapshot, Current, TablesAt, Cursor, Actionable, Fresh;
    } else {
      hide *;
      GlanceStep(ops, req, looks, k);
      GlanceCursors(ops, req, looks, k - 1);
      var job := Snapshot(TablesAt(ops, looks[k - 1]), req.jobIDs[k - 1], Cursor(req, req.jobIDs[k - 1])).value.0;
      CursorsForMore(req, Glance(ops, req, looks, k - 1).value.cursors, k - 1, job.notice.cursor);
    }
  }

  /** What one snapshot reports about its first `k` jobs. */
  lemma {:induction false} GlanceReports(ops: seq<Op>, req: Request, looks: seq<Look>, k: nat)
    requires Accepted(req) && k <= |req.jobIDs| == |looks| && Glance(ops, req, looks, k).Some?
    ensures var s := Glance(ops, req, looks, k).value;
      (forall n | n in s.boundaries :: Reported(ops, req, s.cursors, n)) && IdsDiffer(s.boundaries)
  {
    hide Snapshot, Current, TablesAt, Cursor, Actionable, Fresh, Issued;
    if k > 0 {
      var id, look := req.jobIDs[k - 1], looks[k - 1];
      assert id !in req.jobIDs[..k - 1] && id in req.jobIDs;
      GlanceStep(ops, req, looks, k);
      GlanceReports(ops, req, looks, k - 1);
      GlanceCursors(ops, req, looks, k - 1);
      LookReports(ops, req, id, look);
      var (job, events) := Snapshot(TablesAt(ops, look), id, Cursor(req, id)).value;
      var was, current := Glance(ops, req, looks, k - 1).value, Current(events, job);
      hide Issued, Current, Snapshot, IdsDiffer, Glance, Accepted, TablesAt;
      forall m, n | m in was.boundaries && n in current ensures m.id != n.id {
        assert Reported(ops, req, was.cursors, m);
        if m.id == n.id { IssuedOnce(ops, m, n); }
      }
      IdsDifferJoin(was.boundaries, current);
    }
  }

  /** The `i`th job of a snapshot can be acted on, and the caller has not been told so yet. */
  predicate Hit(ops: seq<Op>, req: Request, looks: seq<Look>, i: nat)
    requires i < |req.jobIDs| && i < |looks|
  {
    var id := req.jobIDs[i];
    var read := Snapshot(TablesAt(ops, looks[i]), id, Cursor(req, id));
    read.Some? && Actionable(read.value.0, looks[i])
      && (Fresh(req, id, read.value.0) || Current(read.value.1, read.value.0) != [])
  }

  /** The record is worth an answer: it stands at a boundary or is stalled, and has not completed while work goes on. */
  predicate Worth(job: Job, look: Look) {
    && (look.stalled || job.state in {JobState.PlanReady, JobState.NeedsInput, JobState.Completed, JobState.Blocked,
                                      JobState.Failed, JobState.Disconnected, JobState.Cancelled})
    && !(job.state.Completed? && (look.busy || look.queued > 0))
  }

  /**
   A job makes a wait answer exactly if its record is worth it and the caller gave no cursor or an older one: a
   notification that is replayed is always newer than the caller's cursor.
   */
  lemma HitsExactly(ops: seq<Op>, req: Request, looks: seq<Look>, i: nat)
    requires i < |req.jobIDs| && i < |looks|
    ensures var id := req.jobIDs[i]; var read := Snapshot(TablesAt(ops, looks[i]), id, Cursor(req, id));
      Hit(ops, req, looks, i) <==>
        read.Some? && Worth(read.value.0, looks[i])
          && (id !in req.cursors || read.value.0.notice.cursor > Cursor(req, id))
  {
    var id := req.jobIDs[i];
    var t := TablesAt(ops, looks[i]);
    if Snapshot(t, id, Cursor(req, id)).Some? {
      var (job, events) := Snapshot(t, id, Cursor(req, id)).value;
      EventMembers(t.notifications, id, job, Cursor(req, id));
      CurrentMembers(events, job);
      if Current(events, job) != [] { assert Current(events, job)[0] in Current(events, job); }
    }
    hide TablesAt;
  }

  lemma {:induction false} GlanceHits(ops: seq<Op>, req: Request, looks: seq<Look>, k: nat)
    requires k <= |req.jobIDs| && k <= |looks| && Glance(ops, req, looks, k).Some?
    ensures var hits := Glance(ops, req, looks, k).value.hits;
      && hits <= k
      && (hits == 0 <==> forall i: nat | i < k :: !Hit(ops, req, looks, i))
      && (hits == k <==> forall i: nat | i < k :: Hit(ops, req, looks, i))
  {
    hide Hit, Snapshot, Current, TablesAt, Cursor, Actionable, Fresh;
    if k > 0 {
      HitCounts(ops, req, looks, k);
      GlanceHits(ops, req, looks, k - 1);
      var hits := Glance(ops, req, looks, k - 1).value.hits;
      hide Glance;
      assert hits == 0 <==> forall i: nat | i < k - 1 :: !Hit(ops, req, looks, i);
    }
  }

  lemma HitCounts(ops: seq<Op>, req: Request, looks: seq<Look>, k: nat)
    requires 0 < k <= |req.jobIDs| && k <= |looks| && Glance(ops, req, looks, k).Some?
    ensures Glance(ops, req, looks, k - 1).Some?
    ensures Glance(ops, req, looks, k).value.hits ==
      Glance(ops, req, looks, k - 1).value.hits + if Hit(ops, req, looks, k - 1) then 1 else 0
  {
    hide Current, TablesAt, Cursor, Actionable, Fresh;
  }

  // ---------------------------------------------------------------- one wait

  /** The answer was given on the snapshot `looks`. */
  predicate AnsweredOn(ops: seq<Op>, req: Request, looks: seq<Look>, a: Answer)
    requires |looks| == |req.jobIDs|
  {
    var s := Glance(ops, req, looks, |req.jobIDs|);
    s.Some? &&
    a == if Ready(req, s.value) then Answer(BoundaryReached, s.value.jobs, s.value.boundaries, s.value.cursors)
         else Due(req, s.value)
  }

  /** Which snapshot a wait answers on, and that it passed over the earlier ones. */
  lemma {:induction false} OutcomeRound(ops: seq<Op>, req: Request, rounds: seq<seq<Look>>, ending: Ending)
    returns (k: nat)
    requires Rounds(req, rounds) && Outcome(ops, req, rounds, ending).Some?
    ensures k < |rounds| && AnsweredOn(ops, req, rounds[k], Outcome(ops, req, rounds, ending).value)
    ensures Outcome(ops, req, rounds, ending).value.reason.ReportDue? ==> k == |rounds| - 1 && ending.TimerFires?
    ensures forall r: nat | r < k :: PassedOver(ops, req, rounds[r])
    ensures Outcome(ops, req, rounds, ending).value.reason.ReportDue? ==> PassedOver(ops, req, rounds[k])
    ensures Outcome(ops, req, rounds, ending).value.reason.BoundaryReached? ==> !PassedOver(ops, req, rounds[k])
    decreases |rounds|
  {
    hide Glance, Ready;
    var s := Glance(ops, req, rounds[0], |req.jobIDs|);
    if Ready(req, s.value) || |rounds| == 1 {
      k := 0;
    } else {
      k := OutcomeRound(ops, req, rounds[1..], ending);
      k := k + 1;
      forall r: nat | r < k ensures PassedOver(ops, req, rounds[r]) {
        if r > 0 { assert rounds[1..][r - 1] == rounds[r]; }
      }
    }
  }

  /** The snapshot went well and was not ready. */
  predicate PassedOver(ops: seq<Op>, req: Request, looks: seq<Look>)
    requires |looks| == |req.jobIDs|
  {
    var s := Glance(ops, req, looks, |req.jobIDs|);
    s.Some? && !Ready(req, s.value)
  }

  /**
   The answer of any wait: its cursors are the caller's or later, and its boundaries are notifications of the
   jobs asked about, each once, between the caller's cursor and the answer's. A timed-out "all" consumes nothing.
   */
  lemma AnswersMoveForward(ops: seq<Op>, req: Request, rounds: seq<seq<Look>>, ending: Ending)
    requires Rounds(req, rounds) && WaitFor(ops, req, rounds, ending).Some?
    ensures var a := WaitFor(ops, req, rounds, ending).value;
      && CursorsFor(req, a.cursors, |req.jobIDs|)
      && (forall n | n in a.boundaries :: Reported(ops, req, a.cursors, n)) && IdsDiffer(a.boundaries)
      && (a.reason.ReportDue? ==> a.boundaries == [])
      && (a.reason.ReportDue? && req.mode == "all" ==> forall id | id in req.jobIDs :: a.cursors[id] == Cursor(req, id))
  {
    var k := OutcomeRound(ops, req, rounds, ending);
    GlanceCursors(ops, req, rounds[k], |req.jobIDs|);
    GlanceReports(ops, req, rounds[k], |req.jobIDs|);
    hide Glance, Accepted, Cursor, Reported, IdsDiffer, Outcome;
    assert IdsDiffer([]) by { IdsDifferNone(); }
  }

  lemma IdsDifferNone()
    ensures IdsDiffer([])
  {
  }

  lemma PassedOverHits(ops: seq<Op>, req: Request, looks: seq<Look>, i: nat)
    requires |looks| == |req.jobIDs| && i < |req.jobIDs| && PassedOver(ops, req, looks) && req.mode != "all"
    ensures !Hit(ops, req, looks, i)
  {
    hide Hit, Glance;
    GlanceHits(ops, req, looks, |req.jobIDs|);
  }

  /** A wait that timed out had passed over every snapshot it took, and answers on the last. */
  lemma TimedOut(ops: seq<Op>, req: Request, rounds: seq<seq<Look>>, ending: Ending)
    requires Rounds(req, rounds)
    requires WaitFor(ops, req, rounds, ending).Some? && WaitFor(ops, req, rounds, ending).value.reason.ReportDue?
    ensures forall r: nat | r < |rounds| :: PassedOver(ops, req, rounds[r])
    ensures var last := Glance(ops, req, rounds[|rounds| - 1], |req.jobIDs|);
      last.Some? && WaitFor(ops, req, rounds, ending).value == Due(req, last.value)
  {
    hide Outcome, Glance, Due;
    var k := OutcomeRound(ops, req, rounds, ending);
    assert AnsweredOn(ops, req, rounds[k], WaitFor(ops, req, rounds, ending).value);
  }

  /** Waiting for any of the jobs never times out past one that could be acted on and was news to the caller. */
  lemma AnyWaitMissesNothing(ops: seq<Op>, req: Request, rounds: seq<seq<Look>>, ending: Ending, r: nat, i: nat)
    requires Rounds(req, rounds) && req.mode != "all" && r < |rounds| && i < |req.jobIDs|
    requires WaitFor(ops, req, rounds, ending).Some? && WaitFor(ops, req, rounds, ending).value.reason.ReportDue?
    ensures !Hit(ops, req, rounds[r], i)
  {
    assert |rounds[r]| == |req.jobIDs|;
    hide *;
    TimedOut(ops, req, rounds, ending);
    PassedOverHits(ops, req, rounds[r], i);
  }

  /** An answered wait had something to act on: one of the jobs, or in mode "all" every one. */
  lemma ReachedMeansActionable(ops: seq<Op>, req: Request, rounds: seq<seq<Look>>, ending: Ending) returns (k: nat)
    requires Rounds(req, rounds)
    requires WaitFor(ops, req, rounds, ending).Some? && WaitFor(ops, req, rounds, ending).value.reason.BoundaryReached?
    ensures k < |rounds| && AnsweredOn(ops, req, rounds[k], WaitFor(ops, req, rounds, ending).value)
    ensures if req.mode == "all" then forall i: nat | i < |req.jobIDs| :: Hit(ops, req, rounds[k], i)
            else exists i: nat | i < |req.jobIDs| :: Hit(ops, req, rounds[k], i)
  {
    k := OutcomeRound(ops, req, rounds, ending);
    GlanceHits(ops, req, rounds[k], |req.jobIDs|);
  }

  lemma {:induction false} GlanceKeeps(ops: seq<Op>, req: Request, looks: seq<Look>, i: nat, k: nat)
    requires i < k <= |req.jobIDs| && k <= |looks| && Glance(ops, req, looks, k).Some?
    ensures Snapshot(TablesAt(ops, looks[i]), req.jobIDs[i], Cursor(req, req.jobIDs[i])).Some?
    ensures var (job, events) := Snapshot(TablesAt(ops, looks[i]), req.jobIDs[i], Cursor(req, req.jobIDs[i])).value;
      forall n | n in Current(events, job) :: n in Glance(ops, req, looks, k).value.boundaries
    decreases k
  {
    hide Snapshot, Current, TablesAt, Cursor, Actionable, Fresh;
    GlanceStep(ops, req, looks, k);
    if i < k - 1 { GlanceKeeps(ops, req, looks, i, k - 1); }
  }

  /** A job whose record stands at a boundary the caller has not seen is reported by that very notification. */
  lemma BoundariesAreReported(ops: seq<Op>, req: Request, looks: seq<Look>, a: Answer, i: nat)
    requires |looks| == |req.jobIDs| && i < |req.jobIDs| && AnsweredOn(ops, req, looks, a) && a.reason.BoundaryReached?
    requires forall op | op in ops && op.PutOp? :: StallNamed(op.rec.job)
    ensures var read := Snapshot(TablesAt(ops, looks[i]), req.jobIDs[i], Cursor(req, req.jobIDs[i]));
      && read.Some?
      && var job := read.value.0;
         AtBoundary(job) && job.notice.cursor > Cursor(req, req.jobIDs[i]) ==>
           exists n | n in a.boundaries :: n.jobID == req.jobIDs[i] && n.id == job.notice.cursor
             && SameBoundary(n.snapshot, job)
  {
    var at := if looks[i].at <= |ops| then looks[i].at else |ops|;
    assert ops[..|ops|] == ops && TablesAt(ops, looks[i]) == After(ops[..at]);
    var id, t := req.jobIDs[i], After(ops[..at]);
    GlanceKeeps(ops, req, looks, i, |req.jobIDs|);
    hide Glance;
    BoundariesAgree(ops[..at]);
    CursorsAreGreatest(ops[..at]);
    var job := t.jobs[id];
    if AtBoundary(job) && job.notice.cursor > Cursor(req, id) {
      var n :| n in t.notifications && n.jobID == job.jobID && n.id == job.notice.cursor
        && SameBoundary(n.snapshot, job);
      EventMembers(t.notifications, id, job, Cursor(req, id));
      CurrentMembers(Events(t.notifications, id, job, Cursor(req, id)), job);
      assert n in a.boundaries;
    }
  }

  // ---------------------------------------------------------------- chains of waits

  datatype Call = Call(req: Request, rounds: seq<seq<Look>>, ending: Ending)

  predicate Callable(calls: seq<Call>) {
    forall c | c in calls :: Rounds(c.req, c.rounds)
  }

  /** The newest cursor the caller holds for each job after the first `k` calls. */
  function Carried(ops: seq<Op>, calls: seq<Call>, k: nat): map<Id, nat>
    requires Callable(calls) && k <= |calls|
  {
    if k == 0 then map[] else
    var a := WaitFor(ops, calls[k - 1].req, calls[k - 1].rounds, calls[k - 1].ending);
    Carried(ops, calls, k - 1) + if a.Some? then a.value.cursors else map[]
  }

  /** Every call passes on the cursors it holds. */
  predicate Chained(ops: seq<Op>, calls: seq<Call>)
    requires Callable(calls)
  {
    forall k: nat, id | k < |calls| && id in calls[k].req.jobIDs && id in Carried(ops, calls, k) ::
      id in calls[k].req.cursors && calls[k].req.cursors[id] == Carried(ops, calls, k)[id]
  }

  lemma CarriedStep(ops: seq<Op>, calls: seq<Call>, k: nat)
    requires Callable(calls) && k < |calls|
    ensures var a := WaitFor(ops, calls[k].req, calls[k].rounds, calls[k].ending);
      Carried(ops, calls, k + 1) == Carried(ops, calls, k) + if a.Some? then a.value.cursors else map[]
  {
    hide WaitFor;
  }

  /** A call passes on what it holds, so its answer cannot fall behind that. */
  lemma AnswerCarriesOn(ops: seq<Op>, calls: seq<Call>, k: nat, id: Id)
    requires Callable(calls) && Chained(ops, calls) && k < |calls| && id in Carried(ops, calls, k)
    requires var a := WaitFor(ops, calls[k].req, calls[k].rounds, calls[k].ending); a.Some? && id in a.value.cursors
    ensures WaitFor(ops, calls[k].req, calls[k].rounds, calls[k].ending).value.cursors[id] >= Carried(ops, calls, k)[id]
  {
    hide WaitFor, Reported, IdsDiffer, Carried;
    AnswersMoveForward(ops, calls[k].req, calls[k].rounds, calls[k].ending);
    assert calls[k].req.jobIDs[..|calls[k].req.jobIDs|] == calls[k].req.jobIDs;
  }

  lemma {:induction false} CarriedGrows(ops: seq<Op>, calls: seq<Call>, i: nat, j: nat, id: Id)
    requires Callable(calls) && Chained(ops, calls) && i <= j <= |calls| && id in Carried(ops, calls, i)
    ensures id in Carried(ops, calls, j) && Carried(ops, calls, i)[id] <= Carried(ops, calls, j)[id]
    decreases j
  {
    hide WaitFor, Carried, Chained;
    if i < j {
      CarriedGrows(ops, calls, i, j - 1, id);
      CarriedStep(ops, calls, j - 1);
      var a := WaitFor(ops, calls[j - 1].req, calls[j - 1].rounds, calls[j - 1].ending);
      if a.Some? && id in a.value.cursors { AnswerCarriesOn(ops, calls, j - 1, id); }
    }
  }

  /** Along a chain no cursor goes back, and each notification is in at most one answer, once. */
  lemma ChainsReportOnce(ops: seq<Op>, calls: seq<Call>, i: nat, j: nat, m: Notification, n: Notification)
    requires Callable(calls) && Chained(ops, calls) && i < j < |calls|
    requires var a := WaitFor(ops, calls[i].req, calls[i].rounds, calls[i].ending); a.Some? && m in a.value.boundaries
    requires var a := WaitFor(ops, calls[j].req, calls[j].rounds, calls[j].ending); a.Some? && n in a.value.boundaries
    ensures m.id != n.id
  {
    AnswersMoveForward(ops, calls[i].req, calls[i].rounds, calls[i].ending);
    AnswersMoveForward(ops, calls[j].req, calls[j].rounds, calls[j].ending);
    var id := m.jobID;
    CarriedGrows(ops, calls, i + 1, j, id);
    hide WaitFor, IdsDiffer, CursorsFor;
    if m.id == n.id { IssuedOnce(ops, m, n); }
  }

  /** A timed-out wait takes the caller past a notification exactly when it waits for any job and one had come. */
  lemma TimeoutSkips(ops: seq<Op>, req: Request, rounds: seq<seq<Look>>, ending: Ending, id: Id)
    requires Rounds(req, rounds) && id in req.jobIDs
    requires WaitFor(ops, req, rounds, ending).Some? && WaitFor(ops, req, rounds, ending).value.reason.ReportDue?
    ensures var last := Glance(ops, req, rounds[|rounds| - 1], |req.jobIDs|);
      && last.Some? && id in last.value.cursors && id in WaitFor(ops, req, rounds, ending).value.cursors
      && (WaitFor(ops, req, rounds, ending).value.cursors[id] != Cursor(req, id)
          <==> req.mode != "all" && last.value.cursors[id] > Cursor(req, id))
  {
    hide Glance, Outcome, Accepted, PassedOver, WaitFor;
    TimedOut(ops, req, rounds, ending);
    GlanceCursors(ops, req, rounds[|rounds| - 1], |req.jobIDs|);
    assert req.jobIDs[..|req.jobIDs|] == req.jobIDs;
    hide Rounds;
  }

  // ---------------------------------------------------------------- what a timeout loses

  /** The `i`th job of a snapshot stands at a boundary that the caller has not seen. */
  predicate NewBoundary(ops: seq<Op>, req: Request, looks: seq<Look>, i: nat)
    requires i < |req.jobIDs| && i < |looks|
  {
    var read := Snapshot(TablesAt(ops, looks[i]), req.jobIDs[i], Cursor(req, req.jobIDs[i]));
    read.Some? && IsBoundary(read.value.0.state) && read.value.0.notice.cursor > Cursor(req, req.jobIDs[i])
  }

  /** It has completed while a turn still ran or items were queued. */
  predicate CompletedEarly(ops: seq<Op>, req: Request, looks: seq<Look>, i: nat)
    requires i < |req.jobIDs| && i < |looks|
  {
    var read := Snapshot(TablesAt(ops, looks[i]), req.jobIDs[i], Cursor(req, req.jobIDs[i]));
    read.Some? && read.value.0.state.Completed? && (looks[i].busy || looks[i].queued > 0)
  }

  lemma NewBoundaryHits(ops: seq<Op>, req: Request, looks: seq<Look>, i: nat)
    requires i < |req.jobIDs| && i < |looks| && NewBoundary(ops, req, looks, i)
    ensures Hit(ops, req, looks, i) <==> !CompletedEarly(ops, req, looks, i)
  {
    hide Snapshot, TablesAt, Current;
  }

  /**
   A round of a wait for any job is passed over exactly if every new boundary in it completed early and nothing
   else hits.
   */
  lemma PassedExactly(ops: seq<Op>, req: Request, looks: seq<Look>)
    requires |looks| == |req.jobIDs| && req.mode != "all" && Glance(ops, req, looks, |req.jobIDs|).Some?
    ensures PassedOver(ops, req, looks) <==>
      forall i: nat | i < |req.jobIDs| ::
        if NewBoundary(ops, req, looks, i) then CompletedEarly(ops, req, looks, i) else !Hit(ops, req, looks, i)
  {
    hide Glance, Hit, NewBoundary, CompletedEarly;
    GlanceHits(ops, req, looks, |req.jobIDs|);
    forall i: nat | i < |req.jobIDs| && NewBoundary(ops, req, looks, i)
      ensures Hit(ops, req, looks, i) <==> !CompletedEarly(ops, req, looks, i)
    {
      NewBoundaryHits(ops, req, looks, i);
    }
  }

  predicate TimesOut(ops: seq<Op>, c: Call)
    requires Rounds(c.req, c.rounds)
  {
    c.req.mode != "all" && WaitFor(ops, c.req, c.rounds, c.ending).Some?
      && WaitFor(ops, c.req, c.rounds, c.ending).value.reason.ReportDue?
  }

  /** No answer of the chain holds a notification that a timeout has taken its caller past. */
  lemma NeverReported(ops: seq<Op>, calls: seq<Call>, k: nat, n: Notification, j: nat)
    requires Callable(calls) && Chained(ops, calls) && k < |calls| && j < |calls| && TimesOut(ops, calls[k])
    requires n.jobID in calls[k].req.jobIDs
      && n.jobID in WaitFor(ops, calls[k].req, calls[k].rounds, calls[k].ending).value.cursors
    requires var a := WaitFor(ops, calls[k].req, calls[k].rounds, calls[k].ending);
      Cursor(calls[k].req, n.jobID) < n.id <= a.value.cursors[n.jobID]
    ensures var a := WaitFor(ops, calls[j].req, calls[j].rounds, calls[j].ending); a.Some? ==> n !in a.value.boundaries
  {
    AnswersMoveForward(ops, calls[k].req, calls[k].rounds, calls[k].ending);
    var a := WaitFor(ops, calls[j].req, calls[j].rounds, calls[j].ending);
    if a.Some? && n in a.value.boundaries {
      AnswersMoveForward(ops, calls[j].req, calls[j].rounds, calls[j].ending);
      assert Reported(ops, calls[j].req, a.value.cursors, n);
      hide WaitFor, CursorsFor, IdsDiffer, Carried;
      CarriedStep(ops, calls, j);
      CarriedStep(ops, calls, k);
      if j < k { CarriedGrows(ops, calls, j + 1, k, n.jobID); }
      if k < j { CarriedGrows(ops, calls, k + 1, j, n.jobID); }
    }
  }

  /**
   What a timeout loses: a record that stands at a boundary new to a caller who waits for any job is passed only if
   it completed early, and then no answer of the whole chain reports the notification of that boundary.
   */
  lemma TimeoutLoses(ops: seq<Op>, calls: seq<Call>, k: nat, i: nat) returns (n: Notification)
    requires Callable(calls) && Chained(ops, calls) && k < |calls| && TimesOut(ops, calls[k])
      && i < |calls[k].req.jobIDs|
    requires NewBoundary(ops, calls[k].req, calls[k].rounds[|calls[k].rounds| - 1], i)
    requires forall op | op in ops && op.PutOp? :: StallNamed(op.rec.job)
    ensures var last := calls[k].rounds[|calls[k].rounds| - 1];
      && CompletedEarly(ops, calls[k].req, last, i) && n in TablesAt(ops, last[i]).notifications
      && SameBoundary(n.snapshot, TablesAt(ops, last[i]).jobs[calls[k].req.jobIDs[i]])
    ensures forall j: nat | j < |calls| ::
      var a := WaitFor(ops, calls[j].req, calls[j].rounds, calls[j].ending); a.Some? ==> n !in a.value.boundaries
  {
    var c := calls[k];
    n := PassedBoundary(ops, c, i);
    hide *;
    forall j: nat | j < |calls|
      ensures var a := WaitFor(ops, calls[j].req, calls[j].rounds, calls[j].ending);
        a.Some? ==> n !in a.value.boundaries
    {
      NeverReported(ops, calls, k, n, j);
    }
  }

  /** The boundary that one timed-out wait passes, and its notification. */
  lemma PassedBoundary(ops: seq<Op>, c: Call, i: nat) returns (n: Notification)
    requires Rounds(c.req, c.rounds) && TimesOut(ops, c) && i < |c.req.jobIDs|
    requires NewBoundary(ops, c.req, c.rounds[|c.rounds| - 1], i)
    requires forall op | op in ops && op.PutOp? :: StallNamed(op.rec.job)
    ensures var last := c.rounds[|c.rounds| - 1];
      && CompletedEarly(ops, c.req, last, i) && n in TablesAt(ops, last[i]).notifications && n.jobID == c.req.jobIDs[i]
      && n.jobID in TablesAt(ops, last[i]).jobs && SameBoundary(n.snapshot, TablesAt(ops, last[i]).jobs[n.jobID])
    ensures var cursors := WaitFor(ops, c.req, c.rounds, c.ending).value.cursors;
      n.jobID in cursors && Cursor(c.req, n.jobID) < n.id <= cursors[n.jobID]
  {
    var last, id := c.rounds[|c.rounds| - 1], c.req.jobIDs[i];
    AnyWaitMissesNothing(ops, c.req, c.rounds, c.ending, |c.rounds| - 1, i);
    NewBoundaryHits(ops, c.req, last, i);
    n := BoundaryNotification(ops, last[i], id, Cursor(c.req, id));
    TimeoutCursor(ops, c.req, c.rounds, c.ending, i);
    hide *;
  }

  lemma BoundaryNotification(ops: seq<Op>, look: Look, id: Id, after: nat) returns (n: Notification)
    requires var read := Snapshot(TablesAt(ops, look), id, after); read.Some? && IsBoundary(read.value.0.state)
    requires forall op | op in ops && op.PutOp? :: StallNamed(op.rec.job)
    ensures var t := TablesAt(ops, look);
      n in t.notifications && n.jobID == id && id in t.jobs && n.id == t.jobs[id].notice.cursor
        && SameBoundary(n.snapshot, t.jobs[id])
  {
    var at := if look.at <= |ops| then look.at else |ops|;
    assert ops[..|ops|] == ops && TablesAt(ops, look) == After(ops[..at]);
    BoundariesAgree(ops[..at]);
    CursorsAreGreatest(ops[..at]);
    hide After, SameBoundary;
    var t := TablesAt(ops, look);
    n :| n in t.notifications && n.jobID == t.jobs[id].jobID && n.id == t.jobs[id].notice.cursor
      && SameBoundary(n.snapshot, t.jobs[id]);
  }

  /** The cursor that a timed-out wait for any job answers is that of the record it saw last. */
  lemma TimeoutCursor(ops: seq<Op>, req: Request, rounds: seq<seq<Look>>, ending: Ending, i: nat)
    requires Rounds(req, rounds) && i < |req.jobIDs| && req.mode != "all"
    requires WaitFor(ops, req, rounds, ending).Some? && WaitFor(ops, req, rounds, ending).value.reason.ReportDue?
    ensures var read := Snapshot(TablesAt(ops, rounds[|rounds| - 1][i]), req.jobIDs[i], Cursor(req, req.jobIDs[i]));
      var cursors := WaitFor(ops, req, rounds, ending).value.cursors;
      read.Some? && req.jobIDs[i] in cursors && cursors[req.jobIDs[i]] == read.value.0.notice.cursor
  {
    assert Accepted(req);
    TimedOut(ops, req, rounds, ending);
    hide Outcome, Glance, Snapshot, TablesAt;
    CursorOfLook(ops, req, rounds[|rounds| - 1], i, |req.jobIDs|);
  }

  lemma {:induction false} CursorOfLook(ops: seq<Op>, req: Request, looks: seq<Look>, i: nat, k: nat)
    requires i < k <= |req.jobIDs| && k <= |looks| && Accepted(req) && Glance(ops, req, looks, k).Some?
    ensures var read := Snapshot(TablesAt(ops, looks[i]), req.jobIDs[i], Cursor(req, req.jobIDs[i]));
      var cursors := Glance(ops, req, looks, k).value.cursors;
      read.Some? && req.jobIDs[i] in cursors && cursors[req.jobIDs[i]] == read.value.0.notice.cursor
    decreases k
  {
    hide Snapshot, TablesAt, Cursor;
    GlanceStep(ops, req, looks, k);
    hide Glance;
    if i < k - 1 {
      assert req.jobIDs[i] != req.jobIDs[k - 1];
      CursorOfLook(ops, req, looks, i, k - 1);
    }
  }

  /** What a look at `job` adds when it is the only job asked about and shows nothing to act on. */
  lemma AloneAndIdle(ops: seq<Op>, req: Request, look: Look, job: Job, events: seq<Notification>)
    requires |req.jobIDs| == 1 && Snapshot(TablesAt(ops, look), req.jobIDs[0], Cursor(req, req.jobIDs[0])) ==
      Some((job, events)) && !look.unsaved
    requires !Actionable(job, look) || (!Fresh(req, req.jobIDs[0], job) && Current(events, job) == [])
    ensures Glance(ops, req, [look], 1).Some? && Glance(ops, req, [look], 1).value.hits == 0
    ensures Glance(ops, req, [look], 1).value.cursors == map[req.jobIDs[0] := job.notice.cursor]
  {
    hide Snapshot, TablesAt, Cursor, Actionable, Fresh, Current;
    assert Glance(ops, req, [look], 0) == Some(Sight([], [], map[], 0));
  }

  /** So a completion that arrives while something is still queued can go unreported for good. */
  lemma AnyTimeoutSwallows(done: Job)
    requires done.jobID != 0 && done.state.Completed? && !done.notice.stalled
    ensures var ops := [PutOp(Record(done, NoPhase, None, None))];
      var busy, idle := Look(1, false, false, 1, false), Look(1, false, false, 0, false);
      var first := Request([done.jobID], "any", 1, map[done.jobID := 0]);
      var second := first.(cursors := map[done.jobID := 1]);
      && WaitFor(ops, first, [[busy]], TimerFires).Some? && WaitFor(ops, second, [[idle]], TimerFires).Some?
      && WaitFor(ops, first, [[busy]], TimerFires).value.cursors == map[done.jobID := 1]
      && WaitFor(ops, first, [[busy]], TimerFires).value.reason.ReportDue?
      && WaitFor(ops, second, [[idle]], TimerFires).value.reason.ReportDue?
  {
    var op := PutOp(Record(done, NoPhase, None, None));
    assert [op][..1] == [op] && [op][..0] == [] && After([op]) == Put(Empty, op.rec);
    var t := After([op]);
    var job := t.jobs[done.jobID];
    var n := t.notifications[0];
    assert job.notice.cursor == 1 && job.state.Completed? && t.notifications == [n] && n.id == 1;
    var busy, idle := Look(1, false, false, 1, false), Look(1, false, false, 0, false);
    var first := Request([done.jobID], "any", 1, map[done.jobID := 0]);
    var second := first.(cursors := map[done.jobID := 1]);
    assert TablesAt([op], busy) == t && TablesAt([op], idle) == t;
    hide After, Put, TablesAt, Carried;
    assert [n][1..] == [];
    assert Events([n], done.jobID, job, 1) == [];
    AloneAndIdle([op], first, busy, job, Events([n], done.jobID, job, 0));
    AloneAndIdle([op], second, idle, job, []);
    hide Glance;
  }
}
