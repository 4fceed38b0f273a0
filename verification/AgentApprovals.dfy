/**
 The agent's table of plan permissions: which sessions wait for a decision, on which channel, and under which
 approval id. Waiters come and go in any order; `Run` interleaves every locked section with every other.
 */
module AgentApprovals {
  import opened Protocol
  import S = Supervisor

  datatype Choice = Choice(decide: Decide, notes: bool)

  /** Where a permission request comes from; 0 where its context does not say. */
  datatype Origin = Origin(connectionID: Id, turnID: Id, requestID: Id)

  datatype Handover = Handover(channel: nat, approvalID: Id, choice: Choice)

  /**
   `channels` holds what each channel ever made has in it, `owners` the request it was made for; `handed` and
   `taken` are the choices put into channels and taken out of them so far.
   */
  datatype Table = Table(
    connectionID: Id, turns: map<Id, Id>, requests: map<Id, Id>, pending: map<Id, nat>,
      approvals: map<Id, S.PlanRequest>,
    channels: map<nat, Option<Choice>>, made: nat, owners: map<nat, S.PlanRequest>, handed: seq<Handover>,
      taken: seq<Handover>)

  const Empty := Table(0, map[], map[], map[], map[], map[], 0, map[], [], [])

  // ---------------------------------------------------------------- the locked sections

  function Of(m: map<Id, Id>, session: Id): Id {
    if session in m then m[session] else 0
  }

  predicate Stale(t: Table, origin: Origin, session: Id) {
    || (origin.connectionID != 0 && origin.connectionID != t.connectionID)
    || (origin.turnID != 0 && origin.turnID != Of(t.turns, session))
    || (origin.requestID != 0 && origin.requestID != Of(t.requests, session))
  }

  function Begun(t: Table, origin: Origin, session: Id, notes: bool, newID: Id): Table {
    if Stale(t, origin, session) || session in t.pending then t else
    var request := S.PlanRequest(newID, t.connectionID, session, Of(t.requests, session), Of(t.turns, session), notes);
    t.(made := t.made + 1, channels := t.channels[t.made := None], owners := t.owners[t.made := request],
       pending := t.pending[session := t.made], approvals := t.approvals[newID := request])
  }

  function Cleared(t: Table, session: Id, expected: nat): Table {
    if session !in t.pending || t.pending[session] != expected then t else
    t.(pending := t.pending - {session},
       approvals := map id | id in t.approvals && t.approvals[id].sessionID != session :: t.approvals[id])
  }

  /** The decision names a permission of this connection as it was asked for, and its session still waits. */
  predicate Resolvable(t: Table, d: S.PlanRequest, choice: Choice) {
    d.id in t.approvals &&
    var p := t.approvals[d.id];
    && p.connectionID == t.connectionID && p.connectionID == d.connectionID && p.sessionID == d.sessionID
    && p.requestID == d.requestID && p.turnID == d.turnID
    && p.sessionID in t.pending && (choice.notes ==> p.supportsNotes)
  }

  /** `full` when the channel already holds a choice; the send is then refused. */
  predicate Full(t: Table, d: S.PlanRequest)
    requires d.id in t.approvals && t.approvals[d.id].sessionID in t.pending
  {
    var ch := t.pending[t.approvals[d.id].sessionID];
    ch in t.channels && t.channels[ch].Some?
  }

  function Resolved(t: Table, d: S.PlanRequest, choice: Choice): Table {
    if !Resolvable(t, d, choice) || Full(t, d) then t else
    var session := t.approvals[d.id].sessionID;
    var ch := t.pending[session];
    t.(channels := t.channels[ch := Some(choice)], handed := t.handed + [Handover(ch, d.id, choice)],
       pending := t.pending - {session}, approvals := t.approvals - {t.approvals[d.id].id})
  }

  function Received(t: Table, ch: nat): Table {
    if ch !in t.channels || t.channels[ch].None? || ch !in t.owners then t else
    t.(channels := t.channels[ch := None], taken := t.taken + [Handover(ch, t.owners[ch].id, t.channels[ch].value)])
  }

  function Forgotten(t: Table): Table {
    t.(connectionID := 0, pending := map[], approvals := map[])
  }

  // ---------------------------------------------------------------- the agent itself

  class Agent {
    var connectionID: Id
    var turns: map<Id, Id>
    var requests: map<Id, Id>
    var pending: map<Id, nat>
    var approvals: map<Id, S.PlanRequest>
    var channels: map<nat, Option<Choice>>
    var made: nat
    ghost var owners: map<nat, S.PlanRequest>
    ghost var handed: seq<Handover>
    ghost var taken: seq<Handover>

    ghost function Contents(): Table
      reads this
    {
      Table(connectionID, turns, requests, pending, approvals, channels, made, owners, handed, taken)
    }

    constructor ()
      ensures Contents() == Empty
    {
      connectionID, turns, requests, pending, approvals := 0, map[], map[], map[], map[];
      channels, made, owners, handed, taken := map[], 0, map[], [], [];
    }

    /** The first part of `awaitPlanChoiceWithNotes`: None when the request is refused. */
    method Begin(origin: Origin, session: Id, notes: bool, newID: Id) returns (ch: Option<nat>)
      modifies this`pending, this`approvals, this`channels, this`made, this`owners
      ensures Contents() == Begun(old(Contents()), origin, session, notes, newID)
      ensures ch == if Stale(old(Contents()), origin, session) || session in old(pending) then None else Some(old(made))
    {
      var turnID, requestID := Of(turns, session), Of(requests, session);
      if (origin.connectionID != 0 && origin.connectionID != connectionID)
         || (origin.turnID != 0 && origin.turnID != turnID)
         || (origin.requestID != 0 && origin.requestID != requestID) { return None; }
      if session in pending { return None; }
      var request := S.PlanRequest(newID, connectionID, session, requestID, turnID, notes);
      ch := Some(made);
      channels, owners := channels[made := None], owners[made := request];
      pending, approvals := pending[session := made], approvals[newID := request];
      made := made + 1;
    }

    method ClearPending(session: Id, expected: nat)
      modifies this`pending, this`approvals
      ensures Contents() == Cleared(old(Contents()), session, expected)
    {
      if session !in pending || pending[session] != expected { return; }
      pending := pending - {session};
      ghost var was := approvals;
      var todo := approvals.Keys;
      while todo != {}
        invariant todo <= approvals.Keys && pending == old(pending) - {session}
        invariant approvals == map id | id in was && (id in todo || was[id].sessionID != session) :: was[id]
        decreases todo
      {
        var id :| id in todo;
        todo := todo - {id};
        if approvals[id].sessionID == session { approvals := approvals - {id}; }
      }
      assert approvals == Cleared(old(Contents()), session, expected).approvals;
    }

    method PendingApproval(id: Id) returns (out: Option<S.PlanRequest>)
      ensures out == if id in approvals && approvals[id].connectionID == connectionID
        && approvals[id].sessionID in pending
                     then Some(approvals[id]) else None
    {
      if id !in approvals || approvals[id].connectionID != connectionID || approvals[id].sessionID !in pending {
        return None;
      }
      return Some(approvals[id]);
    }

    method ResolveApproval(d: S.PlanRequest, choice: Choice, contextGone: bool) returns (ok: bool)
      modifies this`pending, this`approvals, this`channels, this`handed
      ensures Contents() == if contextGone then old(Contents()) else Resolved(old(Contents()), d, choice)
      ensures ok == (!contextGone && Resolvable(old(Contents()), d, choice) && !Full(old(Contents()), d))
    {
      if contextGone || d.id !in approvals { return false; }
      var p := approvals[d.id];
      if p.connectionID != connectionID || p.connectionID != d.connectionID || p.sessionID != d.sessionID
         || p.requestID != d.requestID || p.turnID != d.turnID { return false; }
      if p.sessionID !in pending || (choice.notes && !p.supportsNotes) { return false; }
      var ch := pending[p.sessionID];
      if ch in channels && channels[ch].Some? { return false; }
      channels := channels[ch := Some(choice)];
      handed := handed + [Handover(ch, d.id, choice)];
      pending, approvals := pending - {p.sessionID}, approvals - {p.id};
      return true;
    }

    method Lost()
      modifies this`connectionID, this`pending, this`approvals
      ensures Contents() == Forgotten(old(Contents()))
    {
      connectionID, approvals, pending := 0, map[], map[];
    }
  }

  // ---------------------------------------------------------------- every interleaving

  datatype Step =
    | BeginStep(origin: Origin, session: Id, notes: bool, newID: Id)
    | ClearStep(channel: nat)
    | ResolveStep(d: S.PlanRequest, choice: Choice)
    | ReceiveStep(channel: nat)
    | ForgetStep
    | ConnectStep(connectionID: Id)
    | PromptStep(session: Id, requestID: Id, turnID: Id)

  predicate NewID(t: Table, id: Id) {
    id != 0 && forall ch | ch in t.owners :: t.owners[ch].id != id
  }

  /** A waiter clears its own session with its own channel, at any time. Approval ids are never made twice. */
  function Next(t: Table, a: Step): Table {
    match a
    case BeginStep(origin, session, notes, newID) =>
      if NewID(t, newID) then Begun(t, origin, session, notes, newID) else t
    case ClearStep(ch) => if ch in t.owners then Cleared(t, t.owners[ch].sessionID, ch) else t
    case ResolveStep(d, choice) => Resolved(t, d, choice)
    case ReceiveStep(ch) => Received(t, ch)
    case ForgetStep => Forgotten(t)
    case ConnectStep(connectionID) => t.(connectionID := connectionID)
    case PromptStep(session, requestID, turnID) =>
      t.(turns := t.turns[session := turnID], requests := t.requests[session := requestID])
  }

  function Run(steps: seq<Step>): Table {
    if steps == [] then Empty else Next(Run(steps[..|steps| - 1]), steps[|steps| - 1])
  }

  predicate OnePerId(owners: map<nat, S.PlanRequest>) {
    forall c, d | c in owners && d in owners && owners[c].id == owners[d].id :: c == d
  }

  /** Sessions that wait and open approvals belong to each other one to one, through the channel's owner. */
  ghost predicate Matched(t: Table) {
    && (forall ch | ch in t.owners :: ch < t.made) && t.owners.Keys == t.channels.Keys
    && OnePerId(t.owners)
    && (forall s | s in t.pending :: t.pending[s] in t.owners && Owns(t, s, t.owners[t.pending[s]].id))
    && (forall id | id in t.approvals :: Owns(t, t.approvals[id].sessionID, id))
  }

  predicate Owns(t: Table, session: Id, id: Id) {
    && id in t.approvals && t.approvals[id].id == id && t.approvals[id].sessionID == session
    && session in t.pending && t.pending[session] in t.owners && t.owners[t.pending[session]] == t.approvals[id]
  }

  predicate OncePerChannel(hs: seq<Handover>) {
    forall j, k :: 0 <= j < k < |hs| ==> hs[j].channel != hs[k].channel
  }

  /** What was handed over went to the owner of its approval, once; what was taken had been handed over. */
  ghost predicate Delivered(t: Table) {
    && OncePerChannel(t.handed) && OncePerChannel(t.taken)
    && (forall h | h in t.handed ::
         h.channel in t.owners && t.owners[h.channel].id == h.approvalID && !StillWaits(t, h.channel))
    && (forall h | h in t.taken :: h in t.handed)
    && (forall ch | ch in t.channels && t.channels[ch].Some? && ch in t.owners ::
          Handover(ch, t.owners[ch].id, t.channels[ch].value) in t.handed && forall h | h in t.taken :: h.channel != ch)
  }

  predicate StillWaits(t: Table, ch: nat) {
    ch in t.owners && t.owners[ch].sessionID in t.pending && t.pending[t.owners[ch].sessionID] == ch
  }

  lemma MatchedMore(t: Table, session: Id, request: S.PlanRequest)
    requires Matched(t) && NewID(t, request.id) && session !in t.pending && request.sessionID == session
    ensures Matched(t.(made := t.made + 1, channels := t.channels[t.made := None],
      owners := t.owners[t.made := request],
                       pending := t.pending[session := t.made], approvals := t.approvals[request.id := request]))
  {
    var t' := t.(made := t.made + 1, channels := t.channels[t.made := None], owners := t.owners[t.made := request],
                 pending := t.pending[session := t.made], approvals := t.approvals[request.id := request]);
    assert t.made !in t.owners;
    assert OnePerId(t'.owners);
    forall id | id in t'.approvals ensures Owns(t', t'.approvals[id].sessionID, id) {
      if id in t.approvals { assert Owns(t, t.approvals[id].sessionID, id); }
    }
    forall s | s in t'.pending ensures t'.pending[s] in t'.owners && Owns(t', s, t'.owners[t'.pending[s]].id) {
      if s != session { assert Owns(t, s, t.owners[t.pending[s]].id); }
    }
  }

  lemma MatchedBegin(t: Table, origin: Origin, session: Id, notes: bool, newID: Id)
    requires Matched(t) && NewID(t, newID)
    ensures Matched(Begun(t, origin, session, notes, newID))
  {
    hide Matched, NewID;
    if session !in t.pending {
      MatchedMore(t, session,
        S.PlanRequest(newID, t.connectionID, session, Of(t.requests, session), Of(t.turns, session), notes));
    }
  }

  lemma MatchedClear(t: Table, session: Id, ch: nat)
    requires Matched(t)
    ensures Matched(Cleared(t, session, ch))
  {
    var t' := Cleared(t, session, ch);
    if t' != t {
      forall id | id in t'.approvals ensures Owns(t', t'.approvals[id].sessionID, id) {
        assert Owns(t, t.approvals[id].sessionID, id);
      }
      assert forall s | s in t'.pending :: Owns(t, s, t.owners[t.pending[s]].id);
    }
  }

  lemma MatchedResolve(t: Table, d: S.PlanRequest, choice: Choice)
    requires Matched(t)
    ensures Matched(Resolved(t, d, choice))
  {
    var t' := Resolved(t, d, choice);
    if Resolvable(t, d, choice) && !Full(t, d) {
      assert Owns(t, t.approvals[d.id].sessionID, d.id);
      assert t'.owners == t.owners && t'.channels.Keys == t.channels.Keys && t'.approvals == t.approvals - {d.id}
          && t'.pending == t.pending - {t.approvals[d.id].sessionID} && t'.made == t.made;
      hide Resolved, Resolvable, Full;
      forall id | id in t'.approvals ensures Owns(t', t'.approvals[id].sessionID, id) {
        assert Owns(t, t.approvals[id].sessionID, id);
      }
      assert forall s | s in t'.pending :: Owns(t, s, t.owners[t.pending[s]].id);
    }
  }

  lemma MatchedNext(t: Table, a: Step)
    requires Matched(t)
    ensures Matched(Next(t, a))
  {
    hide Begun, Cleared, Resolved;
    match a {
      case BeginStep(origin, session, notes, newID) =>
        if NewID(t, newID) { MatchedBegin(t, origin, session, notes, newID); }
      case ClearStep(ch) => if ch in t.owners { MatchedClear(t, t.owners[ch].sessionID, ch); }
      case ResolveStep(d, choice) => MatchedResolve(t, d, choice);
      case _ =>
    }
  }

  lemma DeliveredBegin(t: Table, origin: Origin, session: Id, notes: bool, newID: Id)
    requires Matched(t) && Delivered(t) && NewID(t, newID)
    ensures Delivered(Begun(t, origin, session, notes, newID))
  {
    var t' := Begun(t, origin, session, notes, newID);
    assert forall h | h in t.handed :: h.channel != t.made;
  }

  lemma DeliveredResolve(t: Table, d: S.PlanRequest, choice: Choice)
    requires Matched(t) && Delivered(t)
    ensures Delivered(Resolved(t, d, choice))
  {
    if Resolvable(t, d, choice) && !Full(t, d) {
      assert Owns(t, t.approvals[d.id].sessionID, d.id);
      var ch := t.pending[t.approvals[d.id].sessionID];
      assert StillWaits(t, ch);
      var t' := Resolved(t, d, choice);
      assert t'.handed[|t.handed|] == Handover(ch, d.id, choice);
      assert forall h | h in t.handed :: h in t'.handed;
    }
  }

  lemma DeliveredReceive(t: Table, ch: nat)
    requires Matched(t) && Delivered(t)
    ensures Delivered(Received(t, ch))
  {
  }

  lemma DeliveredNext(t: Table, a: Step)
    requires Matched(t) && Delivered(t)
    ensures Delivered(Next(t, a))
  {
    match a {
      case BeginStep(origin, session, notes, newID) =>
        if NewID(t, newID) { DeliveredBegin(t, origin, session, notes, newID); }
      case ResolveStep(d, choice) => DeliveredResolve(t, d, choice);
      case ReceiveStep(ch) => DeliveredReceive(t, ch);
      case _ =>
    }
  }

  /** In every run the two maps agree, and every decision reaches its own waiter, at most once. */
  lemma {:induction false} RunsKeepTheTable(steps: seq<Step>)
    ensures Matched(Run(steps)) && Delivered(Run(steps))
  {
    if steps != [] {
      var t := Run(steps[..|steps| - 1]);
      RunsKeepTheTable(steps[..|steps| - 1]);
      MatchedNext(t, steps[|steps| - 1]);
      DeliveredNext(t, steps[|steps| - 1]);
    }
  }

  /**
   A session waits exactly when it has an open approval, it has one at most, and that one's waiter owns the
   channel.
   */
  lemma OneApprovalPerWaiter(steps: seq<Step>, session: Id)
    ensures var t := Run(steps);
      && (session in t.pending <==> exists id | id in t.approvals :: t.approvals[id].sessionID == session)
      && (forall a, b | a in t.approvals && b in t.approvals && t.approvals[a].sessionID == session
         && t.approvals[b].sessionID == session :: a == b)
      && (session in t.pending ==> t.pending[session] in t.owners && Owns(t, session, t.owners[t.pending[session]].id))
  {
    RunsKeepTheTable(steps);
    var t := Run(steps);
    if session in t.pending { assert Owns(t, session, t.owners[t.pending[session]].id); }
    forall a, b | a in t.approvals && b in t.approvals && t.approvals[a].sessionID == session
      && t.approvals[b].sessionID == session ensures a == b {
      assert Owns(t, session, a) && Owns(t, session, b);
    }
  }

  /** A waiting session's channel is empty, so a decision on its approval is never refused as a second one. */
  lemma WaitersAreEmpty(steps: seq<Step>, d: S.PlanRequest, choice: Choice)
    requires Resolvable(Run(steps), d, choice)
    ensures !Full(Run(steps), d)
  {
    RunsKeepTheTable(steps);
    var t := Run(steps);
    assert Owns(t, t.approvals[d.id].sessionID, d.id);
    assert StillWaits(t, t.pending[t.approvals[d.id].sessionID]);
  }

  /**
   Two decisions that were accepted were made on different approvals, and what a waiter took is the one made on
   its own.
   */
  lemma OneDecisionPerApproval(steps: seq<Step>, j: nat, k: nat)
    requires j < k < |Run(steps).handed|
    ensures var t := Run(steps); t.handed[j].approvalID != t.handed[k].approvalID
    ensures var t := Run(steps);
      forall h | h in t.taken :: h in t.handed && h.channel in t.owners && t.owners[h.channel].id == h.approvalID
  {
    RunsKeepTheTable(steps);
    var t := Run(steps);
    assert t.handed[j] in t.handed && t.handed[k] in t.handed;
  }

  /** A refused decision changes nothing, and a waiter that leaves late takes no one else with it. */
  lemma OthersStay(steps: seq<Step>, ch: nat, session: Id)
    requires ch in Run(steps).owners && session in Run(steps).pending && Run(steps).pending[session] != ch
    ensures var t, t' := Run(steps), Next(Run(steps), ClearStep(ch));
      && session in t'.pending && t'.pending[session] == t.pending[session] && t.pending[session] in t.owners
      && Owns(t', session, t.owners[t.pending[session]].id)
  {
    RunsKeepTheTable(steps);
    assert Owns(Run(steps), session, Run(steps).owners[Run(steps).pending[session]].id);
  }

  // ---------------------------------------------------------------- what is asked and what is accepted

  /** The request and the turn of the session's last prompt, zero before any. */
  function LastPrompt(steps: seq<Step>, session: Id): (Id, Id) {
    if steps == [] then (0, 0) else
    match steps[|steps| - 1]
    case PromptStep(s, requestID, turnID) =>
      if s == session then (requestID, turnID) else LastPrompt(steps[..|steps| - 1], session)
    case _ => LastPrompt(steps[..|steps| - 1], session)
  }

  lemma {:induction false} TurnsArePrompted(steps: seq<Step>, session: Id)
    ensures (Of(Run(steps).requests, session), Of(Run(steps).turns, session)) == LastPrompt(steps, session)
  {
    if steps != [] { TurnsArePrompted(steps[..|steps| - 1], session); }
  }

  /** Where the request says it comes from, that is still so. */
  predicate StillThere(origin: Origin, connectionID: Id, prompt: (Id, Id)) {
    && origin.connectionID in {0, connectionID} && origin.requestID in {0, prompt.0} && origin.turnID in {0, prompt.1}
  }

  /**
   A permission request is taken up exactly if its origin still stands and its session does not wait already; the
   approval then names the connection and the session's last prompt.
   */
  lemma PermissionsAreAskedExactly(steps: seq<Step>, origin: Origin, session: Id, notes: bool, newID: Id)
    requires NewID(Run(steps), newID)
    ensures var t := Run(steps); var t' := Next(t, BeginStep(origin, session, notes, newID));
      var prompt := LastPrompt(steps, session);
      var waits := exists id | id in t.approvals :: t.approvals[id].sessionID == session;
      var request := S.PlanRequest(newID, t.connectionID, session, prompt.0, prompt.1, notes);
      if StillThere(origin, t.connectionID, prompt) && !waits
      then t'.approvals == t.approvals[newID := request] && session in t'.pending
      else t' == t
  {
    TurnsArePrompted(steps, session);
    OneApprovalPerWaiter(steps, session);
  }

  /**
   A decision is accepted exactly if it names an open approval of the current connection in all it says: its id,
   session, request, turn and connection; and brings notes only if that was offered.
   */
  lemma DecisionsAreAcceptedExactly(steps: seq<Step>, d: S.PlanRequest, choice: Choice)
    ensures var t := Run(steps); var t' := Next(t, ResolveStep(d, choice));
      if d.id in t.approvals && d.(supportsNotes := t.approvals[d.id].supportsNotes) == t.approvals[d.id]
        && d.connectionID == t.connectionID && (choice.notes ==> t.approvals[d.id].supportsNotes)
      then |t'.handed| == |t.handed| + 1 && t'.handed[..|t.handed|] == t.handed
        && t'.handed[|t.handed|].approvalID == d.id && t'.handed[|t.handed|].choice == choice
        && t'.approvals == t.approvals - {d.id}
      else t' == t
  {
    RunsKeepTheTable(steps);
    var t := Run(steps);
    if d.id in t.approvals {
      assert Owns(t, t.approvals[d.id].sessionID, d.id);
      assert StillWaits(t, t.pending[t.approvals[d.id].sessionID]);
    }
  }
}
