/**
 The agent's one connection: started by the first caller that finds none, watched by a monitor, released or
 closed by anyone at any time. `Leader` is the state that `mu` protects, with one method per locked section;
 `Run` interleaves those sections with the longer work done under `resourceMu`.
 */
module Lifecycle {
  import opened Protocol

  /** `conn` and `resources` name the set of resources they belong to. */
  datatype Core = Core(closed: bool, conn: Option<nat>, resources: Option<nat>, initializing: Option<nat>)

  // ---------------------------------------------------------------- sections under mu

  predicate Starts(c: Core) {
    !c.closed && c.conn.None? && c.initializing.None?
  }

  function Ensured(c: Core, attempt: nat): Core {
    if Starts(c) then c.(initializing := Some(attempt)) else c
  }

  function Published(c: Core, r: nat): Core {
    if c.closed then c else c.(conn := Some(r), resources := Some(r))
  }

  function Finished(c: Core, attempt: nat): Core {
    if c.initializing == Some(attempt) then c.(initializing := None) else c
  }

  function Lost(c: Core, r: nat): Core {
    if c.conn == Some(r) then c.(conn := None, resources := None) else c
  }

  function Taken(c: Core): Core {
    c.(conn := None, resources := None)
  }

  class Leader {
    var closed: bool
    var conn: Option<nat>
    var resources: Option<nat>
    var initializing: Option<nat>

    function Contents(): Core
      reads this
    {
      Core(closed, conn, resources, initializing)
    }

    constructor ()
      ensures Contents() == Core(false, None, None, None)
    {
      closed, conn, resources, initializing := false, None, None, None;
    }

    /** The locked part of `EnsureLeader`: `wait` is the attempt to wait for, `ok` when none is needed. */
    method EnsureLeader(attempt: nat) returns (ok: bool, wait: Option<nat>)
      modifies this`initializing
      ensures Contents() == Ensured(old(Contents()), attempt)
      ensures ok == (!closed && conn.Some?) && wait == if closed || conn.Some? then None else initializing
      ensures !closed ==> ok || wait.Some?
    {
      if closed { return false, None; }
      if conn.Some? { return true, None; }
      if initializing.None? { initializing := Some(attempt); }
      return false, initializing;
    }

    /** `initialize` with a connection in hand; false when the agent was closed meanwhile. */
    method Publish(r: nat) returns (ok: bool)
      modifies this`conn, this`resources
      ensures Contents() == Published(old(Contents()), r) && ok == !closed
    {
      if closed { return false; }
      resources, conn := Some(r), Some(r);
      return true;
    }

    method FinishAttempt(attempt: nat)
      modifies this`initializing
      ensures Contents() == Finished(old(Contents()), attempt)
    {
      if initializing == Some(attempt) { initializing := None; }
    }

    /** The monitor of `r` after one of its processes or its connection ended. */
    method MonitorEnds(r: nat) returns (lost: bool)
      modifies this`conn, this`resources
      ensures Contents() == Lost(old(Contents()), r) && lost == (old(conn) == Some(r))
    {
      lost := conn == Some(r);
      if lost { conn, resources := None, None; }
    }

    /** `Release`: what is left to close. */
    method Take() returns (r: Option<nat>)
      modifies this`conn, this`resources
      ensures Contents() == Taken(old(Contents())) && r == old(resources)
    {
      r := resources;
      resources, conn := None, None;
    }

    method Close()
      modifies this`closed
      ensures Contents() == old(Contents()).(closed := true)
    {
      closed := true;
    }
  }

  // ---------------------------------------------------------------- threads

  /** `initialize`: everything after Queued holds resourceMu; Leaving has told its callers. */
  datatype Initialize = Queued | InStart | Returned(r: nat) | Refused(held: Option<nat>) | Connected(r: nat)
    | Leaving(connected: Option<nat>)

  /** A monitor and what it still has to do once it holds resourceMu. */
  datatype Monitor = Watching | Woken | Closing

  /** `Release`, by `Close` or not: it waits for the attempt it cancelled, then holds resourceMu. */
  datatype Release = Release(byClose: bool, stage: ReleaseStage)
  datatype ReleaseStage = Awaiting(attempt: Option<nat>) | Holding | Dropping(r: Option<nat>)

  datatype Lock = Free | ByAttempt(a: nat) | ByMonitor(r: nat) | ByRelease(k: nat)

  /** `known` and `gone`: the resource sets that startConnection ever returned, and those closed. */
  datatype World = World(
    core: Core, lock: Lock, made: nat, attempts: map<nat, Initialize>, monitors: map<nat, Monitor>,
      releases: map<nat, Release>,
    known: set<nat>, gone: set<nat>, closeReturned: bool)

  const Init := World(Core(false, None, None, None), Free, 0, map[], map[], map[], {}, {}, false)

  datatype Step =
    | Ensure
    | Acquire(a: nat, contextGone: bool)
    | StartReturns(a: nat, r: nat, hasSet: bool, failed: bool)
    | PublishStep(a: nat)
    | DropRefused(a: nat)
    | Finish(a: nat)
    | Leave(a: nat)
    | Wake(r: nat)
    | MonitorClear(r: nat)
    | MonitorClose(r: nat)
    | BeginRelease(k: nat, byClose: bool)
    | Hold(k: nat)
    | Take(k: nat)
    | Drop(k: nat)

  function ToAttempt(w: World, a: nat, st: Initialize): World {
    w.(attempts := w.attempts[a := st])
  }

  predicate At(w: World, a: nat, st: Initialize) {
    a in w.attempts && w.attempts[a] == st
  }

  /** The attempt has closed its done channel. */
  predicate Done(w: World, a: nat) {
    a !in w.attempts || w.attempts[a].Leaving?
  }

  function Next(w: World, s: Step): World {
    match s
    case Ensure =>
      if !Starts(w.core) then w
      else ToAttempt(w, w.made, Queued).(core := Ensured(w.core, w.made), made := w.made + 1)
    case Acquire(a, contextGone) =>
      if !At(w, a, Queued) || w.lock != Free then w
      else ToAttempt(w, a, if contextGone then Refused(None) else InStart).(lock := ByAttempt(a))
    case StartReturns(a, r, hasSet, failed) =>
      // A new set of resources; there is one whenever the call succeeds.
      if !At(w, a, InStart) || r in w.known || (!failed && !hasSet) then w
      else
        var next := if failed then Refused(if hasSet then Some(r) else None) else Returned(r);
        ToAttempt(w, a, next).(known := if hasSet then w.known + {r} else w.known)
    case PublishStep(a) =>
      if a !in w.attempts || !w.attempts[a].Returned? then w
      else if w.core.closed then ToAttempt(w, a, Refused(Some(w.attempts[a].r)))
      else ToAttempt(w, a, Connected(w.attempts[a].r)).(core := Published(w.core, w.attempts[a].r))
    case DropRefused(a) =>
      if a !in w.attempts || !w.attempts[a].Refused? || w.attempts[a].held.None? then w
      else ToAttempt(w, a, Refused(None)).(gone := w.gone + {w.attempts[a].held.value})
    case Finish(a) =>
      if a !in w.attempts || !(w.attempts[a] == Refused(None) || w.attempts[a].Connected?) then w
      else
        var next := Leaving(if w.attempts[a].Connected? then Some(w.attempts[a].r) else None);
        ToAttempt(w, a, next).(core := Finished(w.core, a))
    case Leave(a) =>
      if a !in w.attempts || !w.attempts[a].Leaving? then w
      else w.(lock := Free, attempts := w.attempts - {a},
              monitors := if w.attempts[a].connected.Some? then w.monitors[w.attempts[a].connected.value := Watching]
                else w.monitors)
    case Wake(r) =>
      if r !in w.monitors || !w.monitors[r].Watching? || w.lock != Free then w
      else w.(lock := ByMonitor(r), monitors := w.monitors[r := Woken])
    case MonitorClear(r) =>
      if r !in w.monitors || !w.monitors[r].Woken? then w
      else w.(core := Lost(w.core, r), monitors := w.monitors[r := Closing])
    case MonitorClose(r) =>
      if r !in w.monitors || !w.monitors[r].Closing? then w
      else w.(lock := Free, monitors := w.monitors - {r}, gone := w.gone + {r})
    case BeginRelease(k, byClose) =>
      if k in w.releases then w
      else w.(core := w.core.(closed := w.core.closed || byClose),
        releases := w.releases[k := Release(byClose, Awaiting(w.core.initializing))])
    case Hold(k) =>
      if k !in w.releases || !w.releases[k].stage.Awaiting? || w.lock != Free then w
      else if w.releases[k].stage.attempt.Some? && !Done(w, w.releases[k].stage.attempt.value) then w
      else w.(lock := ByRelease(k), releases := w.releases[k := w.releases[k].(stage := Holding)])
    case Take(k) =>
      if k !in w.releases || !w.releases[k].stage.Holding? then w
      else w.(core := Taken(w.core), releases := w.releases[k := w.releases[k].(stage := Dropping(w.core.resources))])
    case Drop(k) =>
      if k !in w.releases || !w.releases[k].stage.Dropping? then w
      else w.(lock := Free, releases := w.releases - {k}, closeReturned := w.closeReturned || w.releases[k].byClose,
              gone := if w.releases[k].stage.r.Some? then w.gone + {w.releases[k].stage.r.value} else w.gone)
  }

  function Run(steps: seq<Step>): World {
    if steps == [] then Init else Next(Run(steps[..|steps| - 1]), steps[|steps| - 1])
  }

  // ---------------------------------------------------------------- what every run keeps

  /** Whoever works on the resources holds the lock. */
  predicate Locked(w: World) {
    && (forall a | a in w.attempts :: !w.attempts[a].Queued? ==> w.lock == ByAttempt(a))
    && (forall r | r in w.monitors :: !w.monitors[r].Watching? ==> w.lock == ByMonitor(r))
    && (forall k | k in w.releases :: !w.releases[k].stage.Awaiting? ==> w.lock == ByRelease(k))
  }

  /** An attempt that has not told its callers is the one that `initializing` names, and has no connection before it. */
  predicate Single(w: World) {
    && (forall a | a in w.attempts :: a < w.made && (!w.attempts[a].Leaving? ==> w.core.initializing == Some(a)))
    && (w.core.initializing.Some? ==> !Done(w, w.core.initializing.value))
    && (forall a | a in w.attempts :: (w.attempts[a].Connected? || w.attempts[a].Leaving?) || w.core.conn.None?)
    && w.core.conn == w.core.resources
  }

  predicate InHand(w: World, r: nat) {
    || (exists a | a in w.attempts :: Carries(w, a, r))
    || (r in w.monitors && w.monitors[r].Closing?)
    || (exists k | k in w.releases :: Drops(w, k, r))
  }

  /** Every set of resources is published, closed, or about to be closed or published by someone. */
  predicate Accounted(w: World) {
    forall r | r in w.known :: r in w.gone || w.core.resources == Some(r) || InHand(w, r)
  }

  /** Once a Close has taken the connection, there is none. */
  predicate ClosedForGood(w: World) {
    && (w.closeReturned ==> w.core.closed && w.core.conn.None?)
    && (forall k | k in w.releases && w.releases[k].byClose :: w.core.closed)
    && (forall k | k in w.releases && w.releases[k].byClose && w.releases[k].stage.Dropping? :: w.core.conn.None?)
  }

  lemma LockedNext(w: World, s: Step)
    requires Locked(w)
    ensures Locked(Next(w, s))
  {
  }

  lemma SingleNext(w: World, s: Step)
    requires Locked(w) && Single(w)
    ensures Single(Next(w, s))
  {
  }

  predicate Kept(w: World, r: nat) {
    r in w.gone || w.core.resources == Some(r) || InHand(w, r)
  }

  predicate Carries(w: World, a: nat, r: nat) {
    a in w.attempts && (w.attempts[a] == Returned(r) || w.attempts[a] == Refused(Some(r)))
  }

  lemma CarriesNext(w: World, s: Step, a: nat, r: nat)
    requires Single(w) && Carries(w, a, r)
    ensures Carries(Next(w, s), a, r) || r in Next(w, s).gone || Next(w, s).core.resources == Some(r)
  {
  }

  predicate Drops(w: World, k: nat, r: nat) {
    k in w.releases && w.releases[k].stage == Dropping(Some(r))
  }

  lemma DropsNext(w: World, s: Step, k: nat, r: nat)
    requires Drops(w, k, r)
    ensures Drops(Next(w, s), k, r) || r in Next(w, s).gone
  {
  }

  lemma ClosingNext(w: World, s: Step, r: nat)
    requires Locked(w) && r in w.monitors && w.monitors[r].Closing?
    ensures var w' := Next(w, s); r in w'.gone || (r in w'.monitors && w'.monitors[r].Closing?)
  {
  }

  lemma InHandNext(w: World, s: Step, r: nat)
    requires Locked(w) && Single(w) && InHand(w, r)
    ensures Kept(Next(w, s), r)
  {
    if a :| Carries(w, a, r) {
      CarriesNext(w, s, a, r);
    } else if k :| Drops(w, k, r) {
      DropsNext(w, s, k, r);
    } else {
      ClosingNext(w, s, r);
    }
  }

  lemma PublishedNext(w: World, s: Step, r: nat)
    requires Locked(w) && Single(w) && w.core.resources == Some(r)
    ensures Kept(Next(w, s), r)
  {
    var w' := Next(w, s);
    if s.Take? && s.k in w.releases && w.releases[s.k].stage.Holding? { assert Drops(w', s.k, r); }
  }

  lemma AccountedNext(w: World, s: Step)
    requires Locked(w) && Single(w) && Accounted(w)
    ensures Accounted(Next(w, s))
  {
    var w' := Next(w, s);
    forall r | r in w'.known ensures Kept(w', r) {
      if r in w.gone {
        assert r in w'.gone;
      } else if r in w.known {
        if w.core.resources == Some(r) { PublishedNext(w, s, r); } else { InHandNext(w, s, r); }
      } else {
        assert Carries(w', s.a, r);
      }
      hide InHand;
    }
  }

  lemma ClosedNext(w: World, s: Step)
    requires ClosedForGood(w)
    ensures ClosedForGood(Next(w, s))
  {
  }

  lemma {:induction false} RunsKeepTheConnection(steps: seq<Step>)
    ensures var w := Run(steps); Locked(w) && Single(w) && Accounted(w) && ClosedForGood(w)
  {
    if steps != [] {
      var w, s := Run(steps[..|steps| - 1]), steps[|steps| - 1];
      RunsKeepTheConnection(steps[..|steps| - 1]);
      LockedNext(w, s);
      SingleNext(w, s);
      AccountedNext(w, s);
      ClosedNext(w, s);
    }
  }

  /** At most one attempt at a time starts a connection, or has one it has not told its callers about. */
  lemma OneStartAtATime(steps: seq<Step>, a: nat, b: nat)
    requires var w := Run(steps);
      a in w.attempts && b in w.attempts && !w.attempts[a].Leaving? && !w.attempts[b].Leaving?
    ensures a == b
  {
    RunsKeepTheConnection(steps);
  }

  /** When nobody is in the middle of anything, every set of resources but the published one is closed. */
  lemma NothingLeaks(steps: seq<Step>, r: nat)
    requires var w := Run(steps); r in w.known && w.lock == Free
    ensures var w := Run(steps); r in w.gone || w.core.resources == Some(r)
  {
    RunsKeepTheConnection(steps);
    var w := Run(steps);
    assert Locked(w) && (r in w.gone || w.core.resources == Some(r) || InHand(w, r));
  }

  /** A connection ends by its own monitor or by a release, and is never replaced by another. */
  lemma ConnectionsEndOnce(steps: seq<Step>, s: Step, r: nat)
    requires Run(steps).core.conn == Some(r) && Next(Run(steps), s).core.conn != Some(r)
    ensures s == MonitorClear(r) || s.Take?
    ensures Next(Run(steps), s).core.conn.None?
  {
    RunsKeepTheConnection(steps);
  }

  lemma ReturnedNext(w: World, s: Step)
    requires w.closeReturned
    ensures Next(w, s).closeReturned
  {
  }

  lemma {:induction false} ReturnedStays(steps: seq<Step>, more: seq<Step>)
    requires Run(steps).closeReturned
    ensures Run(steps + more).closeReturned
  {
    if more == [] {
      assert steps + more == steps;
    } else {
      var most, last := more[..|more| - 1], more[|more| - 1];
      ReturnedStays(steps, most);
      ReturnedNext(Run(steps + most), last);
      hide Next;
      assert (steps + more)[..|steps + more| - 1] == steps + most;
    }
  }

  /** After any Close has returned there is no connection, whatever happens next. */
  lemma ClosedStaysClosed(steps: seq<Step>, more: seq<Step>)
    requires Run(steps).closeReturned
    ensures Run(steps + more).closeReturned && Run(steps + more).core.conn.None?
  {
    ReturnedStays(steps, more);
    RunsKeepTheConnection(steps + more);
    hide Run;
  }
}
