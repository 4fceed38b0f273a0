/**
 The client side of the supervisor's connection: when the bytes of a request may be on the wire, what the
 caller is told, and when a request may be sent again on a new connection. Whatever the peer, the network and
 the other callers do comes in as the parameters of type `Invocation` and `Readying`; the methods are proved
 to do what `Invoked`, `Called`, `Readied` and `CallsFrom` say, and the promises are proved of those.
 */
module Ipc {
  import opened Protocol

  /** What `errors.Is` finds in an error; joining errors unites what it finds. */
  datatype Tag = ResultUncertain | NotConnected | NetClosed | PlatformBroken | ContextEnded | Remote | Other
  type Error = set<Tag>

  predicate Uncertain(err: Option<Error>) {
    err.Some? && ResultUncertain in err.value
  }

  predicate IsDisconnectError(e: Error) {
    NotConnected in e || NetClosed in e || PlatformBroken in e
  }

  /** The request is known not to have left exactly when no byte was written and the error is a disconnect. */
  function ClassifyWrite(n: nat, err: Option<Error>): (r: (bool, Option<Error>))
    ensures r.0 <==> err.None? || n > 0 || !IsDisconnectError(err.value)
    ensures r.1.Some? <==> err.Some?
    ensures err.Some? && r.0 ==> Uncertain(r.1)
    ensures err.Some? && !r.0 ==> NotConnected in r.1.value
    ensures err.Some? ==> err.value <= r.1.value
  {
    if err.None? then (true, None)
    else if n == 0 && IsDisconnectError(err.value) then
      if NotConnected in err.value then (false, err) else (false, Some({NotConnected} + err.value))
    else if ResultUncertain in err.value then (true, err)
    else (true, Some({ResultUncertain} + err.value))
  }

  // ---------------------------------------------------------------- one call

  datatype Response = Response(id: nat, failed: bool)

  datatype WaitEnd = ConnectionEnds | ContextEnds

  /**
   What one invocation meets, in its order: the two checks, the ids that other callers take, the connection, the
   write, and the wait. `lines` arrive while it waits; `takesReply` is the choice when its reply and `end` are both
   there.
   */
  datatype Invocation = Invocation(
    contextGone: bool, closed: bool, others: nat, contextGoneLocked: bool, closedLocked: bool,
    connected: bool, written: nat, writeError: Option<Error>, lines: seq<Response>, takesReply: bool, end: WaitEnd)

  /** The contract of a connection's Write: everything is written, or there is an error. */
  predicate Writes(env: Invocation, size: nat) {
    env.written <= size && (env.writeError.None? ==> env.written == size)
  }

  /** The request left whole and the caller came to wait for its reply. */
  predicate Awaited(env: Invocation) {
    !env.contextGone && !env.closed && !env.contextGoneLocked && !env.closedLocked && env.connected
      && env.writeError.None?
  }

  /** The response that reaches the call with this id: the first that carries it. */
  function ReplyTo(id: nat, lines: seq<Response>): Option<Response> {
    if lines == [] then None else if lines[0].id == id then Some(lines[0]) else ReplyTo(id, lines[1..])
  }

  /** The peer's answer to the call that took this id, if the call came to see one. */
  function Answer(env: Invocation, id: nat): Option<Response> {
    if Awaited(env) && env.takesReply then ReplyTo(id, env.lines) else None
  }

  /**
   The call's id (the last one taken if it takes none), the bytes that left, whether that counts as sent, and the
   error.
   */
  datatype Outcome = Outcome(id: nat, bytes: nat, sent: bool, err: Option<Error>)

  function Invoked(env: Invocation, lastID: nat): Outcome {
    if env.contextGone then Outcome(lastID, 0, false, Some({ContextEnded}))
    else if env.closed then Outcome(lastID, 0, false, Some({NotConnected}))
    else
      var id := lastID + env.others + 1;
      if env.contextGoneLocked then Outcome(id, 0, false, Some({ContextEnded}))
      else if env.closedLocked then Outcome(id, 0, false, Some({NotConnected}))
      else
        var n := if env.connected then env.written else 0;
        var writeError := if env.connected then env.writeError else Some({NotConnected});
        if writeError.Some? then Outcome(id, n, ClassifyWrite(n, writeError).0, ClassifyWrite(n, writeError).1)
        else match Answer(env, id)
          case Some(reply) => Outcome(id, n, true, if reply.failed then Some({Remote}) else None)
          case None =>
            Outcome(id, n, true,
              Some({ResultUncertain, if env.end.ConnectionEnds? then NotConnected else ContextEnded}))
  }

  /** A request that was sent and failed is uncertain, whatever the error. */
  function Called(env: Invocation, lastID: nat): Outcome {
    var o := Invoked(env, lastID);
    if o.err.Some? && o.sent && !Uncertain(o.err) then o.(err := Some({ResultUncertain} + o.err.value)) else o
  }

  /** Success is an answer without an error to a whole request; a certain error means that no byte left. */
  lemma CallIsHonest(size: nat, env: Invocation, lastID: nat)
    requires Writes(env, size)
    ensures var o := Called(env, lastID);
      && (o.err.None? <==> Answer(env, o.id).Some? && !Answer(env, o.id).value.failed)
      && (o.err.None? ==> o.bytes == size) && (o.err.Some? && !Uncertain(o.err) ==> o.bytes == 0)
      && (Awaited(env) ==> o.bytes == size && (o.err.Some? ==> Uncertain(o.err)))
  {
  }

  // ---------------------------------------------------------------- responses and the calls that wait

  datatype Waiters = Waiters(pending: set<nat>, inbox: map<nat, Response>)

  /** Each line goes to the call that sent its id, if that still waits. */
  function Delivered(w: Waiters, lines: seq<Response>): Waiters
    decreases |lines|
  {
    if lines == [] then w
    else if lines[0].id in w.pending
      then Delivered(Waiters(w.pending - {lines[0].id}, w.inbox[lines[0].id := lines[0]]), lines[1..])
    else Delivered(w, lines[1..])
  }

  function Forget(w: Waiters, id: nat): Waiters {
    Waiters(w.pending - {id}, w.inbox - {id})
  }

  /** An id that no call waits for gets nothing, and what it has got stays. */
  lemma {:induction false} UnawaitedStays(w: Waiters, lines: seq<Response>, id: nat)
    requires id !in w.pending
    ensures var v := Delivered(w, lines);
      && id !in v.pending && (id in v.inbox <==> id in w.inbox) && (id in w.inbox ==> v.inbox[id] == w.inbox[id])
      && Forget(v, id) == Delivered(Forget(w, id), lines)
    decreases |lines|
  {
    if lines != [] {
      if lines[0].id in w.pending {
        var w1 := Waiters(w.pending - {lines[0].id}, w.inbox[lines[0].id := lines[0]]);
        UnawaitedStays(w1, lines[1..], id);
        assert Forget(w1, id) == Waiters((w.pending - {id}) - {lines[0].id}, (w.inbox - {id})[lines[0].id := lines[0]]);
      } else {
        UnawaitedStays(w, lines[1..], id);
      }
    }
  }

  /**
   A waiting call gets the first response with its id and nothing else, and the other calls get what they would
   without it.
   */
  lemma {:induction false} OwnReply(w: Waiters, lines: seq<Response>, id: nat)
    requires id in w.pending && id !in w.inbox
    ensures var v := Delivered(w, lines);
      && (id in v.inbox <==> ReplyTo(id, lines).Some?) && (id in v.inbox ==> Some(v.inbox[id]) == ReplyTo(id, lines))
      && Forget(v, id) == Delivered(Forget(w, id), lines)
    decreases |lines|
  {
    if lines != [] {
      if lines[0].id == id {
        var w1 := Waiters(w.pending - {id}, w.inbox[id := lines[0]]);
        UnawaitedStays(w1, lines[1..], id);
        assert Forget(w1, id) == Forget(w, id);
      } else if lines[0].id in w.pending {
        var w1 := Waiters(w.pending - {lines[0].id}, w.inbox[lines[0].id := lines[0]]);
        OwnReply(w1, lines[1..], id);
        assert Forget(w1, id) == Waiters((w.pending - {id}) - {lines[0].id}, (w.inbox - {id})[lines[0].id := lines[0]]);
      } else {
        OwnReply(w, lines[1..], id);
      }
    }
  }

  class Client {
    var lastID: nat
    var pending: set<nat>
    var inbox: map<nat, Response>
    /** Every write so far: the request's id and how many of its bytes left. */
    var wire: seq<(nat, nat)>

    ghost predicate Valid()
      reads this
    {
      && (forall id | id in pending :: 0 < id <= lastID && id !in inbox)
      && (forall id | id in inbox :: 0 < id <= lastID && inbox[id].id == id)
    }

    function Waiting(): Waiters
      reads this
    {
      Waiters(pending, inbox)
    }

    constructor ()
      ensures Valid() && wire == [] && lastID == 0 && Waiting() == Waiters({}, map[])
    {
      lastID, pending, inbox, wire := 0, {}, map[], [];
    }

    /** One line from the peer: it reaches the call that sent this id, if that still waits, and no other. */
    method Receive(resp: Response) returns (delivered: bool)
      requires Valid()
      modifies this`pending, this`inbox
      ensures Valid() && delivered == (resp.id in old(pending))
      ensures inbox == if delivered then old(inbox)[resp.id := resp] else old(inbox)
      ensures pending == old(pending) - {resp.id}
    {
      delivered := resp.id in pending;
      if delivered {
        pending := pending - {resp.id};
        inbox := inbox[resp.id := resp];
      }
    }

    method ReceiveAll(lines: seq<Response>)
      requires Valid()
      modifies this`pending, this`inbox
      ensures Valid() && Waiting() == Delivered(old(Waiting()), lines)
    {
      for i := 0 to |lines|
        invariant Valid() && Delivered(Waiting(), lines[i..]) == Delivered(old(Waiting()), lines)
      {
        assert lines[i..][0] == lines[i] && lines[i..][1..] == lines[i + 1..];
        ghost var before := pending;
        var delivered := Receive(lines[i]);
        assert delivered || pending == before;
      }
    }

    /**
     The whole of one call. The lines that come in while it waits go to the calls that sent their ids, its own
     reply among them; when it leaves, the others are as those lines leave them.
     */
    method InvokeOnce(size: nat, env: Invocation) returns (n: nat, sent: bool, err: Option<Error>)
      requires Valid() && size > 0 && Writes(env, size)
      modifies this
      ensures Valid() && Outcome(lastID, n, sent, err) == Invoked(env, old(lastID))
      ensures Waiting() == if Awaited(env) then Delivered(old(Waiting()), env.lines) else old(Waiting())
      ensures (wire == old(wire) && n == 0) || (wire == old(wire) + [(lastID, n)] && lastID > old(lastID))
      ensures n > 0 ==> sent
    {
      n, sent, err := 0, false, None;
      if env.contextGone { err := Some({ContextEnded}); return; }
      if env.closed { err := Some({NotConnected}); return; }
      lastID := lastID + env.others + 1;
      pending := pending + {lastID};
      if env.contextGoneLocked {
        err := Some({ContextEnded});
      } else if env.closedLocked {
        err := Some({NotConnected});
      } else {
        var writeError := Some({NotConnected});
        if env.connected {
          n, writeError := env.written, env.writeError;
          wire := wire + [(lastID, n)];
        }
        if writeError.Some? {
          var classified := ClassifyWrite(n, writeError);
          sent, err := classified.0, classified.1;
        } else {
          assert Forget(Waiting(), lastID) == old(Waiting());
          sent := true;
          err := Await(env);
        }
      }
      pending := pending - {lastID};
      assert Awaited(env) || pending == old(pending);
    }

    method Await(env: Invocation) returns (err: Option<Error>)
      requires Valid() && lastID in pending
      modifies this`pending, this`inbox
      ensures Valid() && lastID !in pending && Waiting() == Delivered(Forget(old(Waiting()), lastID), env.lines)
      ensures var reply := if env.takesReply then ReplyTo(lastID, env.lines) else None;
        err == if reply.Some? then if reply.value.failed then Some({Remote}) else None
               else Some({ResultUncertain, if env.end.ConnectionEnds? then NotConnected else ContextEnded})
    {
      OwnReply(Waiting(), env.lines, lastID);
      ReceiveAll(env.lines);
      err := Some({ResultUncertain, if env.end.ConnectionEnds? then NotConnected else ContextEnded});
      if env.takesReply && lastID in inbox { err := if inbox[lastID].failed then Some({Remote}) else None; }
      pending, inbox := pending - {lastID}, inbox - {lastID};
    }

    /**
     What a caller may conclude: success means the whole request left, a certain error that nothing did. An
     error that the peer itself returned is marked uncertain as well.
     */
    method Call(size: nat, env: Invocation) returns (n: nat, err: Option<Error>)
      requires Valid() && size > 0 && Writes(env, size)
      modifies this
      ensures Valid() && Waiting() == if Awaited(env) then Delivered(old(Waiting()), env.lines) else old(Waiting())
      ensures (wire == old(wire) && n == 0) || (wire == old(wire) + [(lastID, n)] && lastID > old(lastID))
      ensures var o := Called(env, old(lastID)); lastID == o.id && n == o.bytes && err == o.err
      ensures err.None? ==> n == size
      ensures err.Some? && !Uncertain(err) ==> n == 0
      ensures Awaited(env) && err.Some? ==> Uncertain(err)
    {
      var sent;
      n, sent, err := InvokeOnce(size, env);
      if err.Some? && sent && !Uncertain(err) { err := Some({ResultUncertain} + err.value); }
    }
  }

  // ---------------------------------------------------------------- the retrying session

  /** How a wait for another caller's dialing goes on; in the meantime the session may have been closed. */
  datatype Wake = ContextEndsWaiting | Woken(closed: bool, live: bool)

  /**
   `closedBefore`: another caller closed the session; `alive`: the current client's connection, when it is looked
   at.
   */
  datatype Readying = Readying(
    closedBefore: bool, alive: bool, wakes: seq<Wake>, dialError: Option<Error>, closedMeanwhile: bool,
    connectedNotice: Option<Error>, contextGone: bool)

  /** `decodes`: the result of an answered call can be read. */
  datatype Attempt = Attempt(ready: Readying, call: Invocation, decodes: bool, contextGone: bool)

  /** What has become of the session's client. */
  datatype Holding = Kept | Dropped | Fresh

  datatype Ready = Ready(holding: Holding, closed: bool, err: Option<Error>)

  function Readied(has: bool, closed: bool, env: Readying): Ready {
    if closed then Ready(Kept, true, Some({NotConnected}))
    else if env.closedBefore then Ready(Dropped, true, Some({NotConnected}))
    else if has && env.alive then Ready(Kept, false, None)
    else AfterWakes(Kept, env, env.wakes)
  }

  function AfterWakes(holding: Holding, env: Readying, wakes: seq<Wake>): Ready
    decreases |wakes|
  {
    if wakes == [] then
      if env.dialError.Some? then Ready(Dropped, env.closedMeanwhile, env.dialError)
      else if env.closedMeanwhile then Ready(Dropped, true, Some({NotConnected}))
      else Ready(Fresh, false, if env.contextGone then env.connectedNotice else None)
    else match wakes[0]
      case ContextEndsWaiting => Ready(holding, false, Some({ContextEnded}))
      case Woken(closed, live) =>
        if closed then Ready(Dropped, true, Some({NotConnected}))
        else if live then Ready(Fresh, false, None)
        else AfterWakes(Dropped, env, wakes[1..])
  }

  /** What an attempt put on the wire: the id of its request and how many of its bytes left. */
  datatype Send = Send(id: nat, bytes: nat)

  /** The error that the caller's function returns: the call's own, or that its result cannot be read. */
  function AttemptError(a: Attempt, err: Option<Error>): Option<Error> {
    if err.None? && !a.decodes then Some({Other}) else err
  }

  /** Reads are sent again after any disconnect, effects only when their request did not leave. */
  predicate Again(effect: bool, a: Attempt, err: Option<Error>) {
    err.Some? && !a.contextGone && (if Uncertain(err) then !effect else NotConnected in err.value)
  }

  /** The attempts that are left, one for each element of `env`; `last` is the error of the one before. */
  function CallsFrom(has: bool, lastID: nat, closed: bool, effect: bool, env: seq<Attempt>,
    last: Option<Error>): (Option<Error>, seq<Send>)
    decreases |env|
  {
    if env == [] then (last, []) else
    var r := Readied(has, closed, env[0].ready);
    if r.err.Some? then (r.err, []) else
    var o := Called(env[0].call, if r.holding.Fresh? then 0 else lastID);
    var err := AttemptError(env[0], o.err);
    if !Again(effect, env[0], err) then (err, [Send(o.id, o.bytes)]) else
    var rest := CallsFrom(false, 0, r.closed, effect, env[1..], err);
    (rest.0, [Send(o.id, o.bytes)] + rest.1)
  }

  /** The definition, one attempt at a time. */
  lemma FirstOf(has: bool, lastID: nat, closed: bool, effect: bool, env: seq<Attempt>, last: Option<Error>)
    ensures var all := CallsFrom(has, lastID, closed, effect, env, last);
      if env == [] then all == (last, []) else
      var r := Readied(has, closed, env[0].ready);
      if r.err.Some? then all == (r.err, []) else
      var o := Called(env[0].call, if r.holding.Fresh? then 0 else lastID);
      var err := AttemptError(env[0], o.err);
      var rest := CallsFrom(false, 0, r.closed, effect, env[1..], err);
      all == if Again(effect, env[0], err) then (rest.0, [Send(o.id, o.bytes)] + rest.1)
        else (err, [Send(o.id, o.bytes)])
  {
  }

  predicate Silent(writes: seq<Send>) {
    forall i | 0 <= i < |writes| :: writes[i].bytes == 0
  }

  predicate AtMostOnce(writes: seq<Send>) {
    forall i, j :: 0 <= i < j < |writes| ==> writes[i].bytes == 0 || writes[j].bytes == 0
  }

  /** The peer answered the request of this attempt without an error, and the result cannot be read. */
  predicate Unreadable(a: Attempt, id: nat) {
    Answer(a.call, id).Some? && !Answer(a.call, id).value.failed && !a.decodes
  }

  predicate LastUnreadable(env: seq<Attempt>, writes: seq<Send>) {
    0 < |writes| <= |env| && Unreadable(env[|writes| - 1], writes[|writes| - 1].id)
  }

  /**
   An effect is on the wire in one attempt at most: in exactly the last one when the call succeeds. When it fails
   for certain, no byte left if and only if the last attempt was not one that the peer answered with a result that
   cannot be read.
   */
  predicate LeavesOnce(size: nat, env: seq<Attempt>, err: Option<Error>, writes: seq<Send>) {
    && |writes| <= |env| && AtMostOnce(writes)
    && (err.None? ==> |writes| > 0 && writes[|writes| - 1].bytes == size && Silent(writes[..|writes| - 1]))
    && (err.Some? && !Uncertain(err) ==> (Silent(writes) <==> !LastUnreadable(env, writes)))
  }

  lemma OneSend(size: nat, env: seq<Attempt>, lastID: nat)
    requires size > 0 && env != [] && Writes(env[0].call, size)
    ensures var o := Called(env[0].call, lastID);
      LeavesOnce(size, env, AttemptError(env[0], o.err), [Send(o.id, o.bytes)])
  {
    CallIsHonest(size, env[0].call, lastID);
    hide Called, Answer, Writes;
    var writes := [Send(Called(env[0].call, lastID).id, Called(env[0].call, lastID).bytes)];
    assert writes[0].bytes == Called(env[0].call, lastID).bytes;
  }

  lemma SilentFirst(first: Send, rest: seq<Send>)
    requires first.bytes == 0
    ensures Silent([first] + rest) <==> Silent(rest)
    ensures rest != [] && Silent(rest[..|rest| - 1]) ==> Silent(([first] + rest)[..|rest|])
  {
    var writes := [first] + rest;
    assert forall i | 0 <= i < |rest| :: rest[i] == writes[i + 1];
  }

  lemma AtMostOnceFirst(first: Send, rest: seq<Send>)
    requires first.bytes == 0 && AtMostOnce(rest)
    ensures AtMostOnce([first] + rest)
  {
  }

  lemma NoSendFirst(size: nat, env: seq<Attempt>, err: Option<Error>, first: Send, rest: seq<Send>)
    requires env != [] && first.bytes == 0 && !Unreadable(env[0], first.id)
    requires LeavesOnce(size, env[1..], err, rest)
    ensures LeavesOnce(size, env, err, [first] + rest)
  {
    SilentFirst(first, rest);
    if AtMostOnce(rest) { AtMostOnceFirst(first, rest); }
    hide Silent, AtMostOnce, Unreadable;
    var writes := [first] + rest;
    if rest != [] {
      assert writes[|writes| - 1] == rest[|rest| - 1] && env[1..][|rest| - 1] == env[|writes| - 1];
    }
  }

  /** What an attempt leaves when it is followed by another: nothing of an effect, and no answer. */
  lemma NothingLeft(size: nat, a: Attempt, lastID: nat)
    requires Writes(a.call, size)
    ensures var o := Called(a.call, lastID);
      Again(true, a, AttemptError(a, o.err)) ==> o.bytes == 0 && !Unreadable(a, o.id)
  {
    CallIsHonest(size, a.call, lastID);
  }

  /** Whatever happens to its attempts, an effect leaves once. */
  lemma {:induction false} EffectsLeaveOnce(size: nat, has: bool, lastID: nat, closed: bool, env: seq<Attempt>,
    last: Option<Error>)
    requires size > 0 && (forall i | 0 <= i < |env| :: Writes(env[i].call, size)) && (last.Some? || env != [])
    ensures var r := CallsFrom(has, lastID, closed, true, env, last); LeavesOnce(size, env, r.0, r.1)
    decreases |env|
  {
    if env != [] && Readied(has, closed, env[0].ready).err.None? {
      var r := Readied(has, closed, env[0].ready);
      var before := if r.holding.Fresh? then 0 else lastID;
      OneSend(size, env, before);
      NothingLeft(size, env[0], before);
      hide Called, Readied, Writes, Unreadable, LeavesOnce;
      var o := Called(env[0].call, before);
      var err := AttemptError(env[0], o.err);
      if Again(true, env[0], err) {
        EffectsLeaveOnce(size, false, 0, r.closed, env[1..], err);
        var rest := CallsFrom(false, 0, r.closed, true, env[1..], err);
        NoSendFirst(size, env, rest.0, Send(o.id, o.bytes), rest.1);
      }
    }
  }

  // ---------------------------------------------------------------- when an attempt is followed by another

  /** The caller's context ended before anything was written. */
  predicate Stops(c: Invocation) {
    c.contextGone || (!c.closed && c.contextGoneLocked)
  }

  /** The request did not leave because the connection was gone, and nothing casts doubt on that. */
  predicate NeverLeft(c: Invocation) {
    && !Stops(c)
    && (c.closed || c.closedLocked || !c.connected
        || (c.writeError.Some? && c.written == 0 && IsDisconnectError(c.writeError.value)
            && ResultUncertain !in c.writeError.value))
  }

  /** The peer answered without an error, and the result can be read. */
  predicate Succeeds(a: Attempt, id: nat) {
    Answer(a.call, id).Some? && !Answer(a.call, id).value.failed && a.decodes
  }

  /** An attempt of a read was in vain: no answer that counts, for whatever reason but the end of the context. */
  predicate InVain(a: Attempt, id: nat) {
    !Stops(a.call) && !Succeeds(a, id) && !Unreadable(a, id)
  }

  /** What an attempt needs to be followed by another, told from what happened to it. */
  predicate Followed(effect: bool, a: Attempt, id: nat) {
    !a.contextGone && if effect then NeverLeft(a.call) else InVain(a, id)
  }

  /** The id that the request takes, unless the call ends before it takes one. */
  function IdAfter(a: Attempt, lastID: nat): nat {
    if a.call.contextGone || a.call.closed then lastID else lastID + a.call.others + 1
  }

  lemma AttemptsExactly(effect: bool, a: Attempt, size: nat, lastID: nat)
    requires Writes(a.call, size)
    ensures var o := Called(a.call, lastID); var err := AttemptError(a, o.err);
      && o.id == IdAfter(a, lastID)
      && (err.None? <==> Succeeds(a, o.id)) && (Again(effect, a, err) <==> Followed(effect, a, o.id))
  {
  }

  /**
   A call with two attempts, whatever happens to them. It fails at once without a client, and a second attempt follows
   the first exactly as `Followed` says: of an effect when the first never left, of a read when it was in vain. The
   call succeeds exactly if one of its attempts does, and only the second client can be missing then.
   */
  lemma CallsSucceedExactly(effect: bool, size: nat, has: bool, lastID: nat, closed: bool, env: seq<Attempt>)
    requires |env| == 2 && forall i | 0 <= i < |env| :: Writes(env[i].call, size)
    ensures var r := CallsFrom(has, lastID, closed, effect, env, None);
      var first := Readied(has, closed, env[0].ready);
      if first.err.Some? then r == (first.err, []) else
      var id := IdAfter(env[0], if first.holding.Fresh? then 0 else lastID);
      var second := Readied(false, first.closed, env[1].ready);
      var follows := Followed(effect, env[0], id) && second.err.None?;
      && |r.1| == (if follows then 2 else 1)
      && (r.0.None? <==> Succeeds(env[0], id) || (follows && Succeeds(env[1], IdAfter(env[1], 0))))
      && (Followed(effect, env[0], id) && second.err.Some? ==> r.0 == second.err)
  {
    var first := Readied(has, closed, env[0].ready);
    if first.err.None? {
      var before := if first.holding.Fresh? then 0 else lastID;
      AttemptsExactly(effect, env[0], size, before);
      AttemptsExactly(effect, env[1], size, 0);
      var err := AttemptError(env[0], Called(env[0].call, before).err);
      FirstOf(has, lastID, closed, effect, env, None);
      FirstOf(false, 0, first.closed, effect, env[1..], err);
      var last := AttemptError(env[1], Called(env[1].call, 0).err);
      FirstOf(false, 0, Readied(false, first.closed, env[1].ready).closed, effect, env[2..], last);
      assert env[1..][0] == env[1] && env[1..][1..] == env[2..] && env[2..] == [];
      AloneSucceeds(effect, env[0], IdAfter(env[0], before));
      hide *;
    }
  }

  /** An attempt that succeeds is not followed by another. */
  lemma AloneSucceeds(effect: bool, a: Attempt, id: nat)
    ensures Succeeds(a, id) ==> !Followed(effect, a, id)
  {
  }

  /** The caller was woken by another's dialing with a live client, after none that was not. */
  predicate WokenLive(wakes: seq<Wake>) {
    exists k | 0 <= k < |wakes| :: wakes[k] == Woken(false, true) && SleepsOn(wakes[..k])
  }

  /** The caller found another caller dialing again each time it was woken. */
  predicate SleepsOn(wakes: seq<Wake>) {
    forall w | w in wakes :: w == Woken(false, false)
  }

  /** The dialing succeeded, nobody closed the session meanwhile, and its notice did not outlast the context. */
  predicate Dials(env: Readying) {
    env.dialError.None? && !env.closedMeanwhile && !(env.contextGone && env.connectedNotice.Some?)
  }

  lemma {:induction false} WakesExactly(holding: Holding, env: Readying, wakes: seq<Wake>)
    ensures AfterWakes(holding, env, wakes).err.None? <==> WokenLive(wakes) || (SleepsOn(wakes) && Dials(env))
    decreases |wakes|
  {
    if wakes != [] {
      WakesExactly(Dropped, env, wakes[1..]);
      WakesOn(wakes);
    }
  }

  lemma SleepsMore(first: Wake, rest: seq<Wake>)
    ensures SleepsOn([first] + rest) <==> first == Woken(false, false) && SleepsOn(rest)
  {
    var wakes := [first] + rest;
    assert wakes[0] == first && first in wakes;
    forall w | w in rest ensures w in wakes { }
    forall w | w in wakes ensures w == first || w in rest { }
  }

  lemma WakesOn(wakes: seq<Wake>)
    requires wakes != []
    ensures SleepsOn(wakes) <==> wakes[0] == Woken(false, false) && SleepsOn(wakes[1..])
    ensures WokenLive(wakes) <==>
      wakes[0] == Woken(false, true) || (wakes[0] == Woken(false, false) && WokenLive(wakes[1..]))
  {
    var rest := wakes[1..];
    assert wakes == [wakes[0]] + rest;
    SleepsMore(wakes[0], rest);
    forall k | 0 <= k < |rest|
      ensures SleepsOn(wakes[..k + 1]) <==> wakes[0] == Woken(false, false) && SleepsOn(rest[..k])
    {
      assert wakes[..k + 1] == [wakes[0]] + rest[..k];
      SleepsMore(wakes[0], rest[..k]);
    }
    assert SleepsOn(wakes[..0]);
    hide SleepsOn;
    if wakes[0] == Woken(false, true) { assert wakes[0] == Woken(false, true) && SleepsOn(wakes[..0]); }
    if WokenLive(wakes) {
      var k :| 0 <= k < |wakes| && wakes[k] == Woken(false, true) && SleepsOn(wakes[..k]);
      if k > 0 {
        assert rest[k - 1] == wakes[k];
        assert SleepsOn(wakes[..(k - 1) + 1]) && SleepsOn(rest[..k - 1]);
      }
    }
    if wakes[0] == Woken(false, false) && WokenLive(rest) {
      var k :| 0 <= k < |rest| && rest[k] == Woken(false, true) && SleepsOn(rest[..k]);
      assert wakes[k + 1] == rest[k] && SleepsOn(wakes[..k + 1]);
    }
  }

  /** A caller gets a client exactly if the open session has a live one, another caller brings one, or it dials one. */
  lemma ClientsAreHadExactly(has: bool, closed: bool, env: Readying)
    ensures Readied(has, closed, env).err.None? <==>
      !closed && !env.closedBefore
        && ((has && env.alive) || WokenLive(env.wakes) || (SleepsOn(env.wakes) && Dials(env)))
  {
    WakesExactly(Kept, env, env.wakes);
  }

  /** The input that the last clause is about: one answered attempt, whose result cannot be read. */
  lemma UnreadableAnswerLooksCertain(size: nat)
    requires size > 0
    ensures var ready := Readying(false, true, [], None, false, None, false);
      var call := Invocation(false, false, 0, false, false, true, size, None, [Response(1, false)], true,
        ConnectionEnds);
      var a := Attempt(ready, call, false, false);
      CallsFrom(true, 0, false, true, [a, a], None) == (Some({Other}), [Send(1, size)])
  {
    var lines := [Response(1, false)];
    assert ReplyTo(1, lines) == Some(lines[0]);
  }

  class Session {
    var client: Client?
    var closed: bool

    ghost predicate Valid()
      reads this, client
    {
      client != null ==> client.Valid()
    }

    function LastID(): (r: nat)
      reads this, client
      ensures client == null ==> r == 0
    {
      if client == null then 0 else client.lastID
    }

    constructor (c: Client)
      requires c.Valid()
      ensures Valid() && client == c && !closed
    {
      client, closed := c, false;
    }

    /** A live client: the current one, one that another caller has dialed, or a new one. */
    method Ready(env: Readying) returns (out: Client?, err: Option<Error>)
      requires Valid()
      modifies this
      ensures Valid() && Session.Became(old(client), Readied(old(client) != null, old(closed), env).holding, client)
      ensures Readied(old(client) != null, old(closed), env).holding.Fresh? ==> fresh(client) && client.lastID == 0
      ensures closed == Readied(old(client) != null, old(closed), env).closed
        && err == Readied(old(client) != null, old(closed), env).err
      ensures out == if err.None? then client else null
      ensures out == null <==> err.Some?
      ensures closed ==> out == null
    {
      if closed { return null, Some({NotConnected}); }
      if env.closedBefore { client, closed := null, true; return null, Some({NotConnected}); }
      if client != null && env.alive { return client, None; }
      for i := 0 to |env.wakes|
        invariant Valid() && !closed && (if i == 0 then client == old(client) else client == null)
        invariant AfterWakes(if i == 0 then Kept else Dropped, env, env.wakes[i..]) ==
          Readied(old(client) != null, old(closed), env)
      {
        assert env.wakes[i..][0] == env.wakes[i] && env.wakes[i..][1..] == env.wakes[i + 1..];
        match env.wakes[i] {
          case ContextEndsWaiting => return null, Some({ContextEnded});
          case Woken(closes, live) =>
            client := null;
            if closes { closed := true; return null, Some({NotConnected}); }
            if live {
              client := new Client();
              return client, None;
            }
        }
      }
      client := null;
      closed := env.closedMeanwhile;
      if env.dialError.Some? { return null, env.dialError; }
      if closed { return null, Some({NotConnected}); }
      client := new Client();
      if env.connectedNotice.Some? && env.contextGone { return null, env.connectedNotice; }
      return client, None;
    }

    static predicate Became(before: Client?, h: Holding, after: Client?) {
      match h
      case Kept => after == before
      case Dropped => after == null
      case Fresh => after != null
    }

    method Invalidate(c: Client)
      requires Valid()
      modifies this`client
      ensures client == if old(client) == c then null else old(client)
      ensures Valid()
    {
      if client == c { client := null; }
    }

    /** One attempt: a client, the call on it, and the reading of its result. */
    method Try(size: nat, a: Attempt) returns (c: Client?, send: Send, err: Option<Error>)
      requires Valid() && size > 0 && Writes(a.call, size)
      modifies this, client
      ensures Valid() && (client == old(client) || client == null || fresh(client))
      ensures var r := old(Readied(client != null, closed, a.ready));
        closed == r.closed && (r.err.Some? ==> c == null && err == r.err)
      ensures var r := old(Readied(client != null, closed, a.ready));
        r.err.None? ==>
          var o := Called(a.call, if r.holding.Fresh? then 0 else old(LastID()));
          c != null && c == client && send == Send(o.id, o.bytes) && err == AttemptError(a, o.err)
    {
      hide Called, Readied;
      send := Send(0, 0);
      c, err := Ready(a.ready);
      if c != null {
        var n;
        n, err := c.Call(size, a.call);
        if err.None? && !a.decodes { err := Some({Other}); }
        send := Send(c.lastID, n);
      }
    }

    /** Whether the call is tried again; a client that failed is dropped. */
    method Retries(effect: bool, c: Client, a: Attempt, err: Option<Error>) returns (again: bool)
      requires Valid() && client == c
      modifies this`client
      ensures Valid() && again == Again(effect, a, err) && (client == c || client == null) && (again ==> client == null)
    {
      if err.None? { return false; }
      if Uncertain(err) {
        Invalidate(c);
        return !effect && !a.contextGone;
      }
      if a.contextGone || NotConnected !in err.value { return false; }
      Invalidate(c);
      return true;
    }

    /**
     A call with at most one retry; `writes` holds what each attempt put on the wire. What `EffectsLeaveOnce` says of
     the attempts holds of the method. A read is sent at most twice.
     */
    method CallClient(effect: bool, size: nat, env: seq<Attempt>) returns (err: Option<Error>, writes: seq<Send>)
      requires Valid() && size > 0 && |env| == 2 && forall i | 0 <= i < |env| :: Writes(env[i].call, size)
      modifies this, client
      ensures Valid() && |writes| <= 2
      ensures (err, writes) == old(CallsFrom(client != null, LastID(), closed, effect, env, None))
      ensures effect ==> LeavesOnce(size, env, err, writes)
    {
      hide *;
      if effect { EffectsLeaveOnce(size, client != null, LastID(), closed, env, None); }
      writes := [];
      err := None;
      ghost var rest := CallsFrom(client != null, LastID(), closed, effect, env, None);
      ghost var total := rest;
      assert env[0..] == env && writes + rest.1 == rest.1;
      for attempt := 0 to 2
        invariant Valid() && |writes| == attempt
        invariant client == old(client) || client == null || fresh(client)
        invariant rest == CallsFrom(client != null, LastID(), closed, effect, env[attempt..], err)
        invariant total.0 == rest.0 && total.1 == writes + rest.1
      {
        var a := env[attempt];
        FirstOf(client != null, LastID(), closed, effect, env[attempt..], err);
        assert env[attempt..][0] == a && env[attempt..][1..] == env[attempt + 1..];
        var c, send, callError := Try(size, a);
        if c == null {
          assert writes + [] == writes;
          return callError, writes;
        }
        var again := Retries(effect, c, a, callError);
        if !again { return callError, writes + [send]; }
        rest := CallsFrom(false, 0, closed, effect, env[attempt + 1..], callError);
        assert writes + ([send] + rest.1) == (writes + [send]) + rest.1;
        writes, err := writes + [send], callError;
      }
      FirstOf(client != null, LastID(), closed, effect, env[2..], err);
      assert env[2..] == [] && writes + [] == writes;
    }
  }
}
