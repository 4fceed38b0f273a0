/**
 The trace log of the jobs in one process: events are numbered, kept in a bounded window of memory and appended
 to the job's file. Readers page through them with a cursor, a limit and a byte budget.
 */
module Trace {
  import opened Protocol

  datatype Level = NoLevel | Debug | Info | Warn | Error

  /** `size` is the length of the event's JSON. */
  datatype Event = Event(seqNo: nat, level: Level, source: Id, size: nat)

  /** Everything about one job: the last number given out, the window in memory, and the file. */
  datatype Stream = Stream(last: nat, mem: seq<Event>, file: seq<Event>)

  const EmptyStream := Stream(0, [], [])

  const WINDOW_LIMIT := 5000
  const WINDOW_KEPT := 4000
  const DEFAULT_LIMIT := 200
  const MAX_LIMIT := 1000
  const MAX_SNAPSHOT_BYTES := 256 * 1024

  // ---------------------------------------------------------------- emitting and reading

  function Trimmed(mem: seq<Event>): seq<Event> {
    if |mem| > WINDOW_LIMIT then mem[|mem| - WINDOW_KEPT..] else mem
  }

  function Emitted(s: Stream, ev: Event): Stream {
    var e := ev.(seqNo := s.last + 1);
    Stream(s.last + 1, Trimmed(s.mem + [e]), s.file + [e])
  }

  function EmitAll(s: Stream, events: seq<Event>): Stream
    decreases |events|
  {
    if events == [] then s else EmitAll(Emitted(s, events[0]), events[1..])
  }

  /** One call of Emit. */
  datatype Emission = Emission(job: Id, event: Event, debugEnabled: bool)

  function Leveled(ev: Event): Event {
    ev.(level := if ev.level.NoLevel? then Info else ev.level)
  }

  predicate Dropped(e: Emission) {
    Leveled(e.event).level.Debug? && !e.debugEnabled
  }

  /** The events that an open log takes up for the job. */
  function TakenUp(emissions: seq<Emission>, job: Id): seq<Event> {
    if emissions == [] then [] else
    var first := if emissions[0].job == job && !Dropped(emissions[0]) then [Leveled(emissions[0].event)] else [];
    first + TakenUp(emissions[1..], job)
  }

  function Above(events: seq<Event>, cursor: int): seq<Event> {
    if events == [] then [] else (if events[0].seqNo > cursor then [events[0]] else []) + Above(events[1..], cursor)
  }

  /** From the window when it reaches back far enough, from the file when it does not. */
  function EventsAfter(s: Stream, cursor: int): seq<Event> {
    if |s.mem| > 0 && s.mem[0].seqNo <= cursor + 1 then Above(s.mem, cursor) else Above(s.file, cursor)
  }

  datatype Query = Query(levels: seq<Level>, sources: seq<Id>)

  predicate Matching(q: Query, ev: Event) {
    (q.levels == [] || ev.level in q.levels) && (q.sources == [] || ev.source in q.sources)
  }

  function Pick(events: seq<Event>, q: Query): seq<Event> {
    if events == [] then [] else (if Matching(q, events[0]) then [events[0]] else []) + Pick(events[1..], q)
  }

  function ClampLimit(limit: int): (n: nat)
    ensures 0 < n <= MAX_LIMIT
  {
    if limit <= 0 then DEFAULT_LIMIT else if limit > MAX_LIMIT then MAX_LIMIT else limit
  }

  /** The loop of a snapshot from here on: at most `n` events, within the budget but for the first. */
  function Fill(events: seq<Event>, q: Query, n: nat, out: seq<Event>, bytes: nat): seq<Event> {
    if events == [] then out
    else if !Matching(q, events[0]) then Fill(events[1..], q, n, out, bytes)
    else if bytes + events[0].size > MAX_SNAPSHOT_BYTES && out != [] then out
    else if |out| + 1 >= n then out + [events[0]]
    else Fill(events[1..], q, n, out + [events[0]], bytes + events[0].size + 1)
  }

  /** `later` is the stream when the last number is read, after the events were. */
  function Snapshot(s: Stream, later: Stream, cursor: int, limit: int, q: Query): (seq<Event>, int) {
    var out := Fill(EventsAfter(s, cursor), q, ClampLimit(limit), [], 0);
    (out, if out != [] then out[|out| - 1].seqNo else if later.last > cursor then later.last else cursor)
  }

  // ---------------------------------------------------------------- the log itself

  class Log {
    var last: map<Id, nat>
    var mem: map<Id, seq<Event>>
    var files: map<Id, seq<Event>>
    var closed: bool

    function StreamOf(job: Id): Stream
      reads this
    {
      Stream(if job in last then last[job] else 0,
             if job in mem then mem[job] else [],
             if job in files then files[job] else [])
    }

    constructor ()
      ensures !closed && forall job :: StreamOf(job) == EmptyStream
    {
      last, mem, files, closed := map[], map[], map[], false;
    }

    method Emit(job: Id, ev: Event, debugEnabled: bool)
      modifies this`last, this`mem, this`files
      ensures StreamOf(job) ==
        if closed || Dropped(Emission(job, ev, debugEnabled)) then old(StreamOf(job))
          else Emitted(old(StreamOf(job)), Leveled(ev))
      ensures forall other | other != job :: StreamOf(other) == old(StreamOf(other))
    {
      if closed { return; }
      var e := ev;
      if e.level.NoLevel? { e := e.(level := Info); }
      if e.level.Debug? && !debugEnabled { return; }
      var was := StreamOf(job);
      last := last[job := was.last + 1];
      e := e.(seqNo := was.last + 1);
      var window := was.mem + [e];
      if |window| > WINDOW_LIMIT { window := window[|window| - WINDOW_KEPT..]; }
      mem := mem[job := window];
      files := files[job := was.file + [e]];
      assert StreamOf(job) == Stream(was.last + 1, window, was.file + [e]);
    }

    method After(job: Id, cursor: int) returns (out: seq<Event>)
      ensures out == EventsAfter(StreamOf(job), cursor)
    {
      var s := StreamOf(job);
      if |s.mem| > 0 && s.mem[0].seqNo <= cursor + 1 {
        out := KeepAbove(s.mem, cursor);
      } else {
        out := KeepAbove(s.file, cursor);
      }
    }

    method EmitEach(emissions: seq<Emission>)
      modifies this`last, this`mem, this`files
      ensures forall job :: StreamOf(job) == EmitAll(old(StreamOf(job)), if closed then [] else TakenUp(emissions, job))
    {
      for i := 0 to |emissions|
        invariant !closed ==> forall job ::
            EmitAll(StreamOf(job), TakenUp(emissions[i..], job)) == EmitAll(old(StreamOf(job)), TakenUp(emissions, job))
        invariant closed ==> forall job :: StreamOf(job) == old(StreamOf(job))
      {
        assert emissions[i..][0] == emissions[i] && emissions[i..][1..] == emissions[i + 1..];
        label Before:
        Emit(emissions[i].job, emissions[i].event, emissions[i].debugEnabled);
        if !closed {
          forall job
            ensures EmitAll(StreamOf(job), TakenUp(emissions[i + 1..], job))
                 == EmitAll(old@Before(StreamOf(job)), TakenUp(emissions[i..], job))
          {
            TakenFirst(old@Before(StreamOf(job)), emissions[i..], job);
          }
        }
      }
    }

    /** `between` is what other callers emit after the events are read and before the last number is. */
    method Page(job: Id, cursor: int, limit: int, q: Query, between: seq<Emission>) returns (out: seq<Event>, next: int)
      modifies this`last, this`mem, this`files
      ensures forall j :: StreamOf(j) == EmitAll(old(StreamOf(j)), if closed then [] else TakenUp(between, j))
      ensures (out, next) == Snapshot(old(StreamOf(job)), StreamOf(job), cursor, limit, q)
    {
      var events := After(job, cursor);
      out := Collect(events, ClampLimit(limit), q);
      EmitEach(between);
      hide EmitAll, TakenUp, Fill, EventsAfter;
      next := cursor;
      if |out| > 0 {
        next := out[|out| - 1].seqNo;
      } else if StreamOf(job).last > cursor {
        next := StreamOf(job).last;
      }
    }
  }

  /** The matching events from the first on, up to the limit and the byte budget. */
  method Collect(events: seq<Event>, n: nat, q: Query) returns (out: seq<Event>)
    requires n > 0
    ensures out == Fill(events, q, n, [], 0)
  {
    out := [];
    var bytes: nat, i: nat := 0, 0;
    while i < |events|
      invariant i <= |events| && |out| < n
      invariant Fill(events, q, n, [], 0) == Fill(events[i..], q, n, out, bytes)
    {
      assert events[i..][1..] == events[i + 1..];
      var ev := events[i];
      i := i + 1;
      if !Matching(q, ev) { continue; }
      if bytes + ev.size > MAX_SNAPSHOT_BYTES && |out| > 0 { break; }
      out := out + [ev];
      bytes := bytes + ev.size + 1;
      if |out| >= n { break; }
    }
  }

  lemma TakenFirst(s: Stream, emissions: seq<Emission>, job: Id)
    requires emissions != []
    ensures var taken := emissions[0].job == job && !Dropped(emissions[0]);
      EmitAll(s, TakenUp(emissions, job)) ==
      EmitAll(if taken then Emitted(s, Leveled(emissions[0].event)) else s, TakenUp(emissions[1..], job))
  {
    var rest := TakenUp(emissions[1..], job);
    assert [] + rest == rest;
    assert ([Leveled(emissions[0].event)] + rest)[1..] == rest;
  }

  method KeepAbove(events: seq<Event>, cursor: int) returns (out: seq<Event>)
    ensures out == Above(events, cursor)
  {
    out := [];
    for i := 0 to |events|
      invariant Above(events, cursor) == out + Above(events[i..], cursor)
    {
      assert events[i..][1..] == events[i + 1..];
      if events[i].seqNo > cursor { out := out + [events[i]]; }
    }
  }

  // ---------------------------------------------------------------- the window and the file

  /** The file holds the events 1 to `last`, and the window the newest of them. */
  ghost predicate Sound(s: Stream) {
    && |s.file| == s.last && (forall i | 0 <= i < |s.file| :: s.file[i].seqNo == i + 1)
    && |s.mem| <= |s.file| && s.mem == s.file[|s.file| - |s.mem|..]
  }

  lemma EmittedSound(s: Stream, ev: Event)
    requires Sound(s)
    ensures Sound(Emitted(s, ev)) && s.file <= Emitted(s, ev).file
  {
  }

  lemma {:induction false} AboveIsSuffix(events: seq<Event>, first: nat, cursor: int)
    requires forall i | 0 <= i < |events| :: events[i].seqNo == first + i
    ensures Above(events, cursor) ==
      if cursor < first then events else if cursor - first + 1 >= |events| then [] else events[cursor - first + 1..]
  {
    if events != [] {
      AboveIsSuffix(events[1..], first + 1, cursor);
      assert events == [events[0]] + events[1..];
    }
  }

  lemma {:induction false} AboveJoin(older: seq<Event>, mem: seq<Event>, cursor: int)
    requires forall i | 0 <= i < |older| :: older[i].seqNo <= cursor
    ensures Above(older + mem, cursor) == Above(mem, cursor)
  {
    if older == [] {
      assert older + mem == mem;
    } else {
      AboveJoin(older[1..], mem, cursor);
      assert (older + mem)[1..] == older[1..] + mem;
    }
  }

  /** The window answers what the whole log would have answered, at every cursor. */
  lemma WindowAgreesWithFile(s: Stream, cursor: int)
    requires Sound(s)
    ensures EventsAfter(s, cursor) == Above(s.file, cursor)
    ensures 0 <= cursor <= s.last ==> EventsAfter(s, cursor) == s.file[cursor..]
  {
    hide Sound;
    hide Above;
    if |s.mem| > 0 && s.mem[0].seqNo <= cursor + 1 { WindowSuffices(s, cursor); }
    if 0 <= cursor <= s.last { FileAbove(s, cursor); }
  }

  lemma FileAbove(s: Stream, cursor: nat)
    requires Sound(s) && cursor <= s.last
    ensures Above(s.file, cursor) == s.file[cursor..]
  {
    AboveIsSuffix(s.file, 1, cursor);
    hide Above;
    if cursor == 0 { assert s.file[0..] == s.file; }
    if cursor == s.last { assert s.file[cursor..] == []; }
  }

  lemma WindowSuffices(s: Stream, cursor: int)
    requires Sound(s) && |s.mem| > 0 && s.mem[0].seqNo <= cursor + 1
    ensures Above(s.mem, cursor) == Above(s.file, cursor)
  {
    hide Above;
    var gap := |s.file| - |s.mem|;
    assert s.mem[0] == s.file[gap];
    assert s.file == s.file[..gap] + s.file[gap..];
    AboveJoin(s.file[..gap], s.mem, cursor);
  }

  // ---------------------------------------------------------------- one snapshot

  lemma {:induction false} PickJoin(a: seq<Event>, b: seq<Event>, q: Query)
    ensures Pick(a + b, q) == Pick(a, q) + Pick(b, q)
  {
    if a == [] {
      assert a + b == b;
    } else {
      assert (a + b)[1..] == a[1..] + b;
      PickJoin(a[1..], b, q);
    }
  }

  lemma PickPrefix(events: seq<Event>, q: Query, k: nat)
    requires k < |events|
    ensures Pick(events[..k + 1], q) == (if Matching(q, events[0]) then [events[0]] else []) + Pick(events[1..][..k], q)
    ensures Pick(events[..0], q) == []
  {
    assert events[..k + 1][1..] == events[1..][..k];
  }

  /** The loop takes the matching events of some prefix, up to the one it takes last. */
  lemma {:induction false} FillTakes(events: seq<Event>, q: Query, n: nat, out: seq<Event>, bytes: nat) returns (k: nat)
    requires |out| < n
    ensures k <= |events|
    ensures var r := Fill(events, q, n, out, bytes);
      && r == out + Pick(events[..k], q)
      && (r != out ==> k > 0 && r[|r| - 1] == events[k - 1])
      && (out == [] && r == [] ==> Pick(events, q) == [])
    decreases |events|, 1
  {
    k := 0;
    if events == [] { return; }
    hide Pick, Matching;
    PickFirst(events, q);
    PickPrefix(events, q, 0);
    PickNone(events[1..], q);
    if !Matching(q, events[0]) {
      k := FillTakes(events[1..], q, n, out, bytes);
      PickPrefix(events, q, k);
      EmptyFirst(Pick(events[1..][..k], q));
      EmptyFirst(Pick(events[1..], q));
      k := k + 1;
    } else if bytes + events[0].size <= MAX_SNAPSHOT_BYTES || out == [] {
      k := FillOne(events, q, n, out, bytes);
    }
  }

  /** The loop takes the first event, and goes on if there is room. */
  lemma {:induction false} FillOne(events: seq<Event>, q: Query, n: nat, out: seq<Event>, bytes: nat) returns (k: nat)
    requires |out| < n && events != [] && Matching(q, events[0])
      && (bytes + events[0].size <= MAX_SNAPSHOT_BYTES || out == [])
    ensures 0 < k <= |events|
    ensures var r := Fill(events, q, n, out, bytes);
      r == out + Pick(events[..k], q) && r != [] && r[|r| - 1] == events[k - 1]
    decreases |events|, 0
  {
    var e, more := events[0], out + [events[0]];
    k := 0;
    if |out| + 1 < n {
      k := FillTakes(events[1..], q, n, more, bytes + e.size + 1);
      if Fill(events[1..], q, n, more, bytes + e.size + 1) == more { k := 0; }
    }
    PickPrefix(events, q, k);
    PickNone(events[1..], q);
    hide Pick;
    assert out + ([e] + Pick(events[1..][..k], q)) == more + Pick(events[1..][..k], q);
    k := k + 1;
  }

  lemma EmptyFirst(s: seq<Event>)
    ensures [] + s == s
  {
  }

  lemma PickFirst(events: seq<Event>, q: Query)
    requires events != []
    ensures Pick(events, q) == (if Matching(q, events[0]) then [events[0]] else []) + Pick(events[1..], q)
  {
  }

  lemma PickNone(events: seq<Event>, q: Query)
    ensures Pick(events[..0], q) == []
  {
  }

  /** Numbering an event does not change whether it matches. */
  lemma {:induction false} EmittedMatches(s: Stream, events: seq<Event>, q: Query)
    requires Sound(s)
    ensures var later := EmitAll(s, events);
      && Sound(later) && s.file <= later.file
      && (Pick(later.file[s.last..], q) == [] <==> Pick(events, q) == [])
    decreases |events|
  {
    if events == [] {
      assert s.file[s.last..] == [];
    } else {
      var s1 := Emitted(s, events[0]);
      EmittedSound(s, events[0]);
      EmittedMatches(s1, events[1..], q);
      var e, rest := s1.file[s.last], EmitAll(s, events).file[s1.last..];
      assert EmitAll(s, events).file[s.last..] == [e] + rest;
      PickJoin([e], rest, q);
      assert Matching(q, e) == Matching(q, events[0]);
      assert Pick([e], q) == if Matching(q, e) then [e] else [];
    }
  }

  lemma NumberedUpTo(s: Stream, later: Stream, cursor: nat, k: nat)
    requires Sound(s) && Sound(later) && s.file <= later.file && 0 < k && cursor + k <= s.last
    ensures s.file[cursor..][k - 1].seqNo == cursor + k && later.file[cursor..cursor + k] == s.file[cursor..][..k]
    ensures s.last <= later.last
  {
    assert later.file[cursor..cursor + k] == s.file[cursor..cursor + k] == s.file[cursor..][..k];
  }

  lemma RestOfLog(s: Stream, later: Stream, cursor: nat, q: Query)
    requires Sound(s) && Sound(later) && s.file <= later.file && cursor <= s.last
    ensures Pick(later.file[cursor..later.last], q) == Pick(s.file[cursor..], q) + Pick(later.file[s.last..], q)
    ensures s.last <= later.last
  {
    hide Pick;
    assert later.file[cursor..later.last] == s.file[cursor..] + later.file[s.last..];
    PickJoin(s.file[cursor..], later.file[s.last..], q);
  }

  lemma AtBeginning(s: Stream, cursor: nat, limit: int, q: Query) returns (k: nat)
    requires Sound(s) && cursor <= s.last
    ensures k <= s.last - cursor
    ensures var out := Fill(EventsAfter(s, cursor), q, ClampLimit(limit), [], 0);
      && out == Pick(s.file[cursor..][..k], q)
      && (out != [] ==> k > 0 && out[|out| - 1] == s.file[cursor..][k - 1])
      && (out == [] ==> Pick(s.file[cursor..], q) == [])
  {
    hide Fill, Pick, EventsAfter;
    WindowAgreesWithFile(s, cursor);
    k := FillTakes(s.file[cursor..], q, ClampLimit(limit), [], 0);
    assert [] + Pick(s.file[cursor..][..k], q) == Pick(s.file[cursor..][..k], q);
  }

  /**
   A snapshot moves the cursor over exactly what it returns, unless it is empty and a matching event came between
   its two reads of the log: that event, and only such an event, is skipped.
   */
  lemma SnapshotSkips(s: Stream, between: seq<Event>, cursor: nat, limit: int, q: Query)
    requires Sound(s) && cursor <= s.last
    ensures var later := EmitAll(s, between);
      var (out, next) := Snapshot(s, later, cursor, limit, q);
      && Sound(later) && s.file <= later.file && cursor <= next <= later.last
      && (out == [] ==> next == later.last && Pick(s.file[cursor..], q) == [])
      && (out != [] ==> cursor < next)
      && (out == Pick(later.file[cursor..next], q) <==> (out != [] || Pick(between, q) == []))
  {
    var later := EmitAll(s, between);
    SnapshotParts(s, later, cursor, limit, q);
    var next := Snapshot(s, later, cursor, limit, q).1;
    hide *;
    EmittedMatches(s, between, q);
    var k := AtBeginning(s, cursor, limit, q);
    if k > 0 { NumberedUpTo(s, later, cursor, k); }
    RestOfLog(s, later, cursor, q);
  }

  lemma SnapshotParts(s: Stream, later: Stream, cursor: int, limit: int, q: Query)
    ensures var (out, next) := Snapshot(s, later, cursor, limit, q);
      && out == Fill(EventsAfter(s, cursor), q, ClampLimit(limit), [], 0)
      && next == if out != [] then out[|out| - 1].seqNo else if later.last > cursor then later.last else cursor
  {
    hide Fill, EventsAfter;
  }

  // ---------------------------------------------------------------- chains of snapshots

  /** A snapshot with a limit, the events that were emitted before it, and those that came between its two reads. */
  datatype Poll = Poll(before: seq<Event>, between: seq<Event>, limit: int)

  datatype Reader = Reader(log: Stream, cursor: int, returned: seq<Event>)

  function Answered(r: Reader, p: Poll, q: Query): (seq<Event>, int) {
    var s := EmitAll(r.log, p.before);
    Snapshot(s, EmitAll(s, p.between), r.cursor, p.limit, q)
  }

  function Polled(r: Reader, p: Poll, q: Query): Reader {
    Reader(EmitAll(EmitAll(r.log, p.before), p.between), Answered(r, p, q).1, r.returned + Answered(r, p, q).0)
  }

  function Chain(polls: seq<Poll>, q: Query): Reader {
    if polls == [] then Reader(EmptyStream, 0, []) else Polled(Chain(polls[..|polls| - 1], q), polls[|polls| - 1], q)
  }

  /** No matching event falls between the two reads of a snapshot that is empty. */
  predicate NoGap(polls: seq<Poll>, q: Query) {
    polls == [] ||
    var most, p := polls[..|polls| - 1], polls[|polls| - 1];
    NoGap(most, q) && (Answered(Chain(most, q), p, q).0 != [] || Pick(p.between, q) == [])
  }

  ghost predicate UpToCursor(r: Reader, q: Query) {
    Sound(r.log) && 0 <= r.cursor <= r.log.last && r.returned == Pick(r.log.file[..r.cursor], q)
  }

  lemma PickSplit(file: seq<Event>, a: nat, b: nat, q: Query)
    requires a <= b <= |file|
    ensures Pick(file[..b], q) == Pick(file[..a], q) + Pick(file[a..b], q)
  {
    hide Pick;
    assert file[..b] == file[..a] + file[a..b];
    PickJoin(file[..a], file[a..b], q);
  }

  lemma PolledReturns(r: Reader, p: Poll, q: Query)
    requires UpToCursor(r, q) && (Answered(r, p, q).0 != [] || Pick(p.between, q) == [])
    ensures UpToCursor(Polled(r, p, q), q)
    ensures Answered(r, p, q).0 == [] ==> Polled(r, p, q).cursor == Polled(r, p, q).log.last
  {
    hide Snapshot, EmitAll, Pick;
    var s := EmitAll(r.log, p.before);
    EmittedMatches(r.log, p.before, q);
    SnapshotSkips(s, p.between, r.cursor, p.limit, q);
    var r' := Polled(r, p, q);
    assert r.log.file[..r.cursor] == r'.log.file[..r.cursor];
    PickSplit(r'.log.file, r.cursor, r'.cursor, q);
  }

  /**
   Whatever the limits and however the log grows meanwhile: what a reader has been given is every matching event
   up to its cursor, once and in order; after an empty answer that is every matching event there is.
   */
  lemma {:induction false} ChainsReturnAll(polls: seq<Poll>, q: Query)
    requires NoGap(polls, q)
    ensures UpToCursor(Chain(polls, q), q)
    ensures polls != [] && Answered(Chain(polls[..|polls| - 1], q), polls[|polls| - 1], q).0 == [] ==>
      Chain(polls, q).returned == Pick(Chain(polls, q).log.file, q)
  {
    if polls != [] {
      var most := polls[..|polls| - 1];
      ChainsReturnAll(most, q);
      PolledReturns(Chain(most, q), polls[|polls| - 1], q);
      var r := Chain(polls, q);
      hide Polled, Answered, Sound;
      if r.cursor == r.log.last && |r.log.file| == r.log.last { assert r.log.file[..r.cursor] == r.log.file; }
    } else {
      assert EmptyStream.file[..0] == [];
    }
  }

  // ---------------------------------------------------------------- what is kept and what a page holds

  /** Only debug events outside debug mode are dropped, and an event without a level is an information. */
  lemma {:induction false} TakenUpExactly(emissions: seq<Emission>, e: Emission, job: Id)
    ensures TakenUp(emissions + [e], job) == TakenUp(emissions, job) +
      (if e.job != job || (e.event.level.Debug? && !e.debugEnabled) then []
       else [if e.event.level.NoLevel? then e.event.(level := Info) else e.event])
  {
    if emissions == [] {
      assert emissions + [e] == [e] && [e][1..] == [];
    } else {
      assert (emissions + [e])[1..] == emissions[1..] + [e];
      TakenUpExactly(emissions[1..], e, job);
    }
  }

  /** The length of a page as it is counted, one byte between the events. */
  function Bytes(events: seq<Event>): nat {
    if events == [] then 0 else Bytes(events[..|events| - 1]) + events[|events| - 1].size + 1
  }

  /** Each event but the first keeps the page within the budget. */
  predicate WithinBudget(out: seq<Event>) {
    forall k | 0 < k < |out| :: Bytes(out[..k]) + out[k].size <= MAX_SNAPSHOT_BYTES
  }

  /** What `all` gives a page of at most `n` events: as much of its start as the limit and the budget allow. */
  ghost predicate Fills(out: seq<Event>, all: seq<Event>, n: nat) {
    && out <= all && |out| <= n && WithinBudget(out)
    && (|out| < |all| ==> |out| == n || (out != [] && Bytes(out) + all[|out|].size > MAX_SNAPSHOT_BYTES))
  }

  lemma OneMoreFits(out: seq<Event>, e: Event)
    requires WithinBudget(out) && (out == [] || Bytes(out) + e.size <= MAX_SNAPSHOT_BYTES)
    ensures WithinBudget(out + [e]) && Bytes(out + [e]) == Bytes(out) + e.size + 1
  {
    var more := out + [e];
    assert more[..|out|] == out;
    forall k | 0 < k < |more| ensures Bytes(more[..k]) + more[k].size <= MAX_SNAPSHOT_BYTES {
      if k < |out| { assert more[..k] == out[..k]; }
    }
  }

  lemma {:induction false} FillExactly(events: seq<Event>, q: Query, n: nat, out: seq<Event>)
    requires WithinBudget(out) && |out| < n
    ensures Fills(Fill(events, q, n, out, Bytes(out)), out + Pick(events, q), n)
    decreases |events|
  {
    hide Bytes, WithinBudget, Matching;
    if events == [] {
      assert out + [] == out;
    } else if !Matching(q, events[0]) {
      FillExactly(events[1..], q, n, out);
      assert [] + Pick(events[1..], q) == Pick(events[1..], q);
    } else {
      var e, rest := events[0], Pick(events[1..], q);
      assert out + Pick(events, q) == (out + [e]) + rest;
      if Bytes(out) + e.size > MAX_SNAPSHOT_BYTES && out != [] {
        assert (out + Pick(events, q))[|out|] == e;
      } else {
        OneMoreFits(out, e);
        if |out| + 1 < n { FillExactly(events[1..], q, n, out + [e]); }
      }
    }
  }

  lemma PickMembers(events: seq<Event>, q: Query)
    ensures forall e :: e in Pick(events, q) <==>
      e in events && (q.levels != [] ==> e.level in q.levels) && (q.sources != [] ==> e.source in q.sources)
  {
  }

  /**
   A snapshot returns the first of the events that match, as many as its limit and its byte budget allow, and the first
   of them in any case.
   */
  lemma PagesAreFilled(s: Stream, later: Stream, cursor: int, limit: int, q: Query)
    ensures Fills(Snapshot(s, later, cursor, limit, q).0, Pick(EventsAfter(s, cursor), q),
                  if limit <= 0 then 200 else if limit > 1000 then 1000 else limit)
    ensures forall e :: e in Pick(EventsAfter(s, cursor), q) <==>
      e in EventsAfter(s, cursor) && (q.levels != [] ==> e.level in q.levels)
        && (q.sources != [] ==> e.source in q.sources)
  {
    var events := EventsAfter(s, cursor);
    FillExactly(events, q, ClampLimit(limit), []);
    PickMembers(events, q);
    assert [] + Pick(events, q) == Pick(events, q);
    hide EventsAfter, Fill, Fills;
  }
}
