/**
 The background console: it scans the output of a terminal program, chunk by chunk, for the sequences that
 switch private modes, and can print sequences that restore the modes it has seen. A byte is the character
 with its code.
 */
module Console {

  const ESC := 27 as char
  const TAIL := 128
  const HISTORY_LIMIT := 1024 * 1024
  const MAX_MODE := 999999

  // ---------------------------------------------------------------- one sequence

  predicate IsDigit(c: char) {
    '0' <= c <= '9'
  }

  /** How many digits and semicolons the data starts with. */
  function Run(data: string): (k: nat)
    ensures k <= |data| && (k < |data| ==> !IsDigit(data[k]) && data[k] != ';')
    ensures forall i | 0 <= i < k :: IsDigit(data[i]) || data[i] == ';'
  {
    if data == [] || !(IsDigit(data[0]) || data[0] == ';') then 0 else 1 + Run(data[1..])
  }

  /** The length of the mode sequence that the data starts with; 0 when there is none. */
  function MatchLength(data: string): (n: nat)
    ensures n <= |data|
  {
    if |data| < 3 || data[0] != ESC || data[1] != '[' || data[2] != '?' then 0 else
    var k := Run(data[3..]);
    if k == 0 || 3 + k == |data| || !(data[3 + k] == 'h' || data[3 + k] == 'l') then 0 else k + 4
  }

  /** How many characters come before the first semicolon. */
  function Field(run: string): (k: nat)
    ensures k <= |run| && (k < |run| ==> run[k] == ';') && forall i | 0 <= i < k :: run[i] != ';'
  {
    if run == [] || run[0] == ';' then 0 else 1 + Field(run[1..])
  }

  function Value(digits: string): nat
    requires forall i | 0 <= i < |digits| :: IsDigit(digits[i])
  {
    if digits == [] then 0 else
    assert IsDigit(digits[|digits| - 1]);
    Value(digits[..|digits| - 1]) * 10 + (digits[|digits| - 1] as int - '0' as int)
  }

  /** The modes named between semicolons; an empty or too large number names none. */
  function Params(run: string, on: bool): map<nat, bool>
    requires forall i | 0 <= i < |run| :: IsDigit(run[i]) || run[i] == ';'
  {
    var k := Field(run);
    var named := if k > 0 && Value(run[..k]) <= MAX_MODE then map[Value(run[..k]) := on] else map[];
    if k == |run| then named else named + Params(run[k + 1..], on)
  }

  function Head(data: string): map<nat, bool> {
    var n := MatchLength(data);
    if n == 0 then map[] else assert data[3..][..n - 4] == data[3..n - 1]; Params(data[3..n - 1], data[n - 1] == 'h')
  }

  /** The modes that the sequences in the data set, later ones over earlier ones. */
  function Modes(data: string): map<nat, bool> {
    if data == [] then map[] else Head(data) + Modes(data[1..])
  }

  function Last(data: string, n: nat): string {
    if |data| > n then data[|data| - n..] else data
  }

  function Number(n: nat): (s: string)
    ensures |s| > 0 && forall i | 0 <= i < |s| :: IsDigit(s[i])
  {
    if n < 10 then [('0' as int + n) as char] else Number(n / 10) + [('0' as int + n % 10) as char]
  }

  function Opened(rest: string): string {
    [ESC] + Bracket(rest)
  }

  function Bracket(rest: string): string {
    ['['] + (['?'] + rest)
  }

  function Sequence(mode: nat, on: bool): string {
    Opened(Number(mode) + [if on then 'h' else 'l'])
  }

  function Printed(keys: seq<nat>, modes: map<nat, bool>): string
    requires forall k | k in keys :: k in modes
  {
    if keys == [] then [] else Sequence(keys[0], modes[keys[0]]) + Printed(keys[1..], modes)
  }

  // ---------------------------------------------------------------- the console itself

  lemma Regroup(a: map<nat, bool>, b: map<nat, bool>, c: map<nat, bool>)
    ensures (a + b) + c == a + (b + c)
  {
  }

  lemma Absorbed(a: map<nat, bool>, b: map<nat, bool>)
    requires a.Keys <= b.Keys
    ensures a + b == b
  {
  }

  lemma ScanStep(modes: map<nat, bool>, rest: string)
    requires rest != []
    ensures modes + Modes(rest) == (modes + Head(rest)) + Modes(rest[1..])
  {
    hide Head;
    Regroup(modes, Head(rest), Modes(rest[1..]));
  }

  class Console {
    var modes: map<nat, bool>
    var controlTail: string
    var history: string

    constructor ()
      ensures modes == map[] && controlTail == [] && history == []
    {
      modes, controlTail, history := map[], [], [];
    }

    /** What `drain` does with one read. */
    method Output(part: string)
      modifies this
      ensures modes == old(modes) + Modes(old(controlTail) + part)
      ensures controlTail == Last(old(controlTail) + part, TAIL)
      ensures history == Last(old(history) + part, HISTORY_LIMIT)
    {
      RecordModes(part);
      history := history + part;
      if |history| > HISTORY_LIMIT { history := history[|history| - HISTORY_LIMIT..]; }
    }

    method RecordModes(part: string)
      modifies this`modes, this`controlTail
      ensures modes == old(modes) + Modes(old(controlTail) + part)
      ensures controlTail == Last(old(controlTail) + part, TAIL)
    {
      hide Head;
      var data := controlTail + part;
      for i := 0 to |data|
        invariant old(modes) + Modes(data) == modes + Modes(data[i..])
        invariant controlTail == old(controlTail)
      {
        var rest := data[i..];
        ScanStep(modes, rest);
        assert rest[1..] == data[i + 1..];
        ApplyMatch(rest);
      }
      NothingInNothing();
      hide Modes;
      assert data[|data|..] == [] && modes + map[] == modes;
      if |data| > TAIL { data := data[|data| - TAIL..]; }
      controlTail := data;
    }

    /** The sequence that the data starts with, if it starts with one. */
    method ApplyMatch(data: string)
      modifies this`modes
      ensures modes == old(modes) + Head(data)
    {
      var n := MatchLength(data);
      if n > 0 {
        assert data[3..][..n - 4] == data[3..n - 1];
        SetModes(data[3..n - 1], data[n - 1] == 'h');
      }
    }

    method SetModes(run: string, on: bool)
      requires forall i | 0 <= i < |run| :: IsDigit(run[i]) || run[i] == ';'
      modifies this`modes
      ensures modes == old(modes) + Params(run, on)
    {
      var rest := run;
      while true
        invariant forall i | 0 <= i < |rest| :: IsDigit(rest[i]) || rest[i] == ';'
        invariant old(modes) + Params(run, on) == modes + Params(rest, on)
        decreases |rest|
      {
        var k := Field(rest);
        ghost var before := modes;
        ghost var named := if k > 0 && Value(rest[..k]) <= MAX_MODE then map[Value(rest[..k]) := on] else map[];
        if k > 0 && Value(rest[..k]) <= MAX_MODE { modes := modes[Value(rest[..k]) := on]; }
        assert modes == before + named;
        if k == |rest| { return; }
        Regroup(before, named, Params(rest[k + 1..], on));
        rest := rest[k + 1..];
      }
    }

    method SortedKeys() returns (keys: seq<nat>)
      ensures Ascending(keys) && forall k :: k in keys <==> k in modes
    {
      keys := [];
      var todo := modes.Keys;
      while todo != {}
        invariant todo <= modes.Keys && Ascending(keys)
        invariant forall k | k in keys :: forall j | j in todo :: k < j
        invariant forall k :: k in modes <==> k in keys || k in todo
        decreases todo
      {
        var least := Least(todo);
        assert forall i | 0 <= i < |keys| :: keys[i] in keys;
        keys, todo := keys + [least], todo - {least};
      }
    }

    method Restore() returns (out: string)
      ensures exists keys: seq<nat> ::
        Ascending(keys) && (forall k :: k in keys <==> k in modes) && out == Printed(keys, modes)
    {
      hide Sequence;
      var keys := SortedKeys();
      out := [];
      for i := 0 to |keys|
        invariant Printed(keys, modes) == out + Printed(keys[i..], modes)
      {
        assert keys[i..][1..] == keys[i + 1..];
        out := out + Sequence(keys[i], modes[keys[i]]);
      }
      assert keys[|keys|..] == [] && out + [] == out;
    }
  }

  method Least(s: set<nat>) returns (least: nat)
    requires s != {}
    ensures least in s
    ensures forall k | k in s :: least <= k
  {
    least :| least in s;
    var todo := s - {least};
    while todo != {}
      invariant todo <= s && least in s
      invariant forall k | k in s && k !in todo :: least <= k
      decreases todo
    {
      var k :| k in todo;
      todo := todo - {k};
      if k < least { least := k; }
    }
  }

  predicate Ascending(keys: seq<nat>) {
    forall i, j :: 0 <= i < j < |keys| ==> keys[i] < keys[j]
  }

  // ---------------------------------------------------------------- which modes are set

  predicate IsRun(run: string) {
    forall i | 0 <= i < |run| :: IsDigit(run[i]) || run[i] == ';'
  }

  /** Between two semicolons, or an end, stands this number, and it is not too large. */
  predicate NamesAt(run: string, n: nat, i: int, j: int)
    requires IsRun(run)
  {
    && 0 <= i < j <= |run| && (i == 0 || run[i - 1] == ';') && (j == |run| || run[j] == ';')
    && (forall k | i <= k < j :: run[k] != ';') && n <= MAX_MODE && Value(run[i..j]) == n
  }

  ghost predicate Names(run: string, n: nat)
    requires IsRun(run)
  {
    exists i, j :: NamesAt(run, n, i, j)
  }

  lemma NamesShift(run: string, k: nat, n: nat, i: int, j: int)
    requires IsRun(run) && k < |run| && run[k] == ';' && i > k
    ensures NamesAt(run, n, i, j) <==> NamesAt(run[k + 1..], n, i - k - 1, j - k - 1)
  {
    var rest := run[k + 1..];
    if i < j <= |run| { assert rest[i - k - 1..j - k - 1] == run[i..j]; }
  }

  predicate FirstIs(run: string, n: nat)
    requires IsRun(run)
  {
    var k := Field(run);
    k > 0 && n <= MAX_MODE && Value(run[..k]) == n
  }

  /** What stands before the first semicolon. */
  lemma NamesAtStart(run: string, n: nat, i: int, j: int)
    requires IsRun(run) && NamesAt(run, n, i, j) && i <= Field(run)
    ensures FirstIs(run, n)
  {
    assert run[0..j] == run[..j];
  }

  lemma NamesOne(run: string, k: nat, n: nat)
    requires IsRun(run) && Names(run, n) && k == Field(run) && (k < |run| ==> run[k] == ';' && IsRun(run[k + 1..]))
    ensures FirstIs(run, n) || (k < |run| && Names(run[k + 1..], n))
  {
    hide IsRun, Value, IsDigit, Field;
    var i, j :| NamesAt(run, n, i, j);
    NamesInside(run, n, i, j);
    if i <= k {
      NamesAtStart(run, n, i, j);
    } else {
      NamesShift(run, k, n, i, j);
      hide *;
      NamedBy(run[k + 1..], n, i - k - 1, j - k - 1);
    }
  }

  lemma NamedBy(run: string, n: nat, i: int, j: int)
    requires IsRun(run) && NamesAt(run, n, i, j)
    ensures Names(run, n)
  {
    hide NamesAt, IsRun;
  }

  lemma RestIsRun(run: string, k: nat)
    requires IsRun(run) && k < |run|
    ensures IsRun(run[k + 1..])
  {
  }

  lemma FirstIsNamed(run: string, n: nat)
    requires IsRun(run) && FirstIs(run, n)
    ensures Names(run, n)
  {
    assert run[0..Field(run)] == run[..Field(run)] && NamesAt(run, n, 0, Field(run));
  }

  lemma LaterIsNamed(run: string, k: nat, n: nat)
    requires IsRun(run) && k < |run| && run[k] == ';' && IsRun(run[k + 1..]) && Names(run[k + 1..], n)
    ensures Names(run, n)
  {
    hide NamesAt, IsRun, Field, Value, IsDigit;
    var i, j :| NamesAt(run[k + 1..], n, i, j);
    assert i >= 0 by { NamesInside(run[k + 1..], n, i, j); }
    NamesShift(run, k, n, i + k + 1, j + k + 1);
    assert (i + k + 1) - k - 1 == i && (j + k + 1) - k - 1 == j;
    NamedBy(run, n, i + k + 1, j + k + 1);
  }

  lemma NamesInside(run: string, n: nat, i: int, j: int)
    requires IsRun(run) && NamesAt(run, n, i, j)
    ensures 0 <= i < j <= |run|
  {
  }

  /** The first number of a run is named or one after the first semicolon is. */
  lemma NamesFirst(run: string, n: nat)
    requires IsRun(run)
    ensures Field(run) < |run| ==> IsRun(run[Field(run) + 1..])
    ensures Names(run, n) <==> FirstIs(run, n) || (Field(run) < |run| && Names(run[Field(run) + 1..], n))
  {
    var k := Field(run);
    if k < |run| { RestIsRun(run, k); }
    hide Names, FirstIs, IsRun;
    if Names(run, n) { NamesOne(run, k, n); }
    if FirstIs(run, n) { FirstIsNamed(run, n); }
    if k < |run| && Names(run[k + 1..], n) { LaterIsNamed(run, k, n); }
  }

  /** A run sets exactly the modes that it names, all of them the same way. */
  lemma {:induction false} ParamsExactly(run: string, on: bool)
    requires IsRun(run)
    ensures forall n: nat :: n in Params(run, on) <==> Names(run, n)
    ensures forall n | n in Params(run, on) :: Params(run, on)[n] == on
    decreases |run|
  {
    var k := Field(run);
    if k < |run| { ParamsExactly(run[k + 1..], on); }
    forall n: nat ensures n in Params(run, on) <==> Names(run, n) { NamesFirst(run, n); }
  }

  /** At this place stands a sequence, with `k` characters between its mark and its last letter, that names the mode. */
  ghost predicate SetsWith(data: string, i: int, k: int, mode: nat, on: bool) {
    && 0 <= i && 0 < k && i + 3 + k < |data| && data[i] == ESC && data[i + 1] == '[' && data[i + 2] == '?'
    && IsRun(data[i + 3..i + 3 + k]) && data[i + 3 + k] == (if on then 'h' else 'l')
    && Names(data[i + 3..i + 3 + k], mode)
  }

  ghost predicate SetsAt(data: string, i: int, mode: nat, on: bool) {
    exists k :: SetsWith(data, i, k, mode, on)
  }

  lemma RunIs(data: string, k: nat)
    requires k < |data| && IsRun(data[..k]) && !IsDigit(data[k]) && data[k] != ';'
    ensures Run(data) == k
  {
    if k > 0 {
      assert data[..k][0] == data[0] && data[1..][..k - 1] == data[..k][1..];
      RunIs(data[1..], k - 1);
    }
  }

  lemma HeadIsSet(data: string, mode: nat)
    requires mode in Head(data)
    ensures SetsAt(data, 0, mode, Head(data)[mode])
  {
    var n := MatchLength(data);
    assert data[3..][..n - 4] == data[3..n - 1];
    var run := data[3..3 + (n - 4)];
    ParamsExactly(run, data[n - 1] == 'h');
    hide Names, Params;
    assert SetsWith(data, 0, n - 4, mode, Head(data)[mode]);
  }

  lemma HeadOf(data: string, run: string, on: bool)
    requires IsRun(run) && run != [] && |data| > 3 + |run| && data[3..3 + |run|] == run
    requires data[0] == ESC && data[1] == '[' && data[2] == '?' && data[3 + |run|] == (if on then 'h' else 'l')
    ensures Head(data) == Params(run, on)
  {
    assert data[3..][..|run|] == run;
    RunIs(data[3..], |run|);
    assert MatchLength(data) == |run| + 4;
    hide Params, IsRun, Run;
  }

  lemma SetIsHead(data: string, k: int, mode: nat, on: bool)
    requires SetsWith(data, 0, k, mode, on)
    ensures mode in Head(data) && Head(data)[mode] == on
  {
    var run := data[3..3 + k];
    hide Names, Params, IsRun, Head, Value, IsDigit;
    HeadOf(data, run, on);
    ParamsExactly(run, on);
  }

  lemma HeadExactly(data: string, mode: nat, on: bool)
    ensures mode in Head(data) && Head(data)[mode] == on <==> SetsAt(data, 0, mode, on)
  {
    hide Head, SetsWith;
    if mode in Head(data) { HeadIsSet(data, mode); }
    if SetsAt(data, 0, mode, on) {
      var k :| SetsWith(data, 0, k, mode, on);
      SetIsHead(data, k, mode, on);
    }
  }

  lemma SetsLater(data: string, i: int, mode: nat, on: bool)
    requires data != [] && i > 0
    ensures SetsAt(data, i, mode, on) <==> SetsAt(data[1..], i - 1, mode, on)
  {
    var rest := data[1..];
    forall k ensures SetsWith(data, i, k, mode, on) <==> SetsWith(rest, i - 1, k, mode, on) {
      if 0 < k && i + 3 + k < |data| {
        assert rest[i - 1 + 3..i - 1 + 3 + k] == data[i + 3..i + 3 + k];
      }
    }
    if SetsAt(data, i, mode, on) {
      var k :| SetsWith(data, i, k, mode, on);
      assert SetsWith(rest, i - 1, k, mode, on);
    }
    if SetsAt(rest, i - 1, mode, on) {
      var k :| SetsWith(rest, i - 1, k, mode, on);
      assert SetsWith(data, i, k, mode, on);
    }
  }

  /** The last sequence that names the mode stands at `i`. */
  ghost predicate SetLastAt(data: string, i: int, mode: nat, on: bool) {
    SetsAt(data, i, mode, on) && forall j, other :: j > i ==> !SetsAt(data, j, mode, other)
  }

  /** The scan sets exactly the modes that some sequence names, each as the last one that names it says. */
  lemma {:induction false} ModesExactly(data: string, mode: nat)
    ensures mode in Modes(data) <==> exists i, on :: SetsAt(data, i, mode, on)
    ensures mode in Modes(data) ==> exists i :: SetLastAt(data, i, mode, Modes(data)[mode])
  {
    if data != [] {
      var rest := data[1..];
      ModesExactly(rest, mode);
      HeadExactly(data, mode, true);
      HeadExactly(data, mode, false);
      forall i, on | i > 0 ensures SetsAt(data, i, mode, on) <==> SetsAt(rest, i - 1, mode, on) {
        SetsLater(data, i, mode, on);
      }
      forall i, on | i < 0 ensures !SetsAt(data, i, mode, on) { }
      hide Head, SetsAt;
      ModesFromFirst(data, mode);
    }
  }

  lemma ModesFromFirst(data: string, mode: nat)
    requires data != []
    requires forall on :: mode in Head(data) && Head(data)[mode] == on <==> SetsAt(data, 0, mode, on)
    requires forall i, on | i > 0 :: SetsAt(data, i, mode, on) <==> SetsAt(data[1..], i - 1, mode, on)
    requires forall i, on | i < 0 :: !SetsAt(data, i, mode, on)
    requires mode in Modes(data[1..]) <==> exists i, on :: SetsAt(data[1..], i, mode, on)
    requires mode in Modes(data[1..]) ==> exists i :: SetLastAt(data[1..], i, mode, Modes(data[1..])[mode])
    ensures mode in Modes(data) <==> exists i, on :: SetsAt(data, i, mode, on)
    ensures mode in Modes(data) ==> exists i :: SetLastAt(data, i, mode, Modes(data)[mode])
  {
    var rest := data[1..];
    hide Head, SetsAt;
    if mode in Modes(rest) {
      var i :| SetLastAt(rest, i, mode, Modes(rest)[mode]);
      assert i >= 0;
      assert SetsAt(data, i + 1, mode, Modes(rest)[mode]);
      assert SetLastAt(data, i + 1, mode, Modes(data)[mode]);
    } else {
      assert forall i, on :: i > 0 ==> !SetsAt(data, i, mode, on);
      if mode in Head(data) { assert SetLastAt(data, 0, mode, Head(data)[mode]); }
    }
  }

  // ---------------------------------------------------------------- chunks

  lemma {:induction false} RunStays(data: string, more: string)
    requires Run(data) < |data|
    ensures Run(data + more) == Run(data)
  {
    if IsDigit(data[0]) || data[0] == ';' {
      RunStays(data[1..], more);
      assert (data + more)[1..] == data[1..] + more;
    }
  }

  /** A sequence that is there stays, whatever follows. */
  lemma MatchStays(data: string, more: string)
    requires MatchLength(data) > 0
    ensures MatchLength(data + more) == MatchLength(data) && Head(data + more) == Head(data)
  {
    RunStays(data[3..], more);
    assert (data + more)[3..] == data[3..] + more;
    var n := MatchLength(data);
    assert (data + more)[3..n - 1] == data[3..n - 1];
  }

  lemma {:induction false} RunWasThere(data: string, more: string)
    requires Run(data + more) < |data|
    ensures Run(data) == Run(data + more)
  {
    if data != [] && (IsDigit(data[0]) || data[0] == ';') {
      assert (data + more)[1..] == data[1..] + more;
      RunWasThere(data[1..], more);
    }
  }

  /** A sequence that ends before `more` was there without it. */
  lemma MatchWasThere(data: string, more: string)
    requires MatchLength(data + more) <= |data|
    ensures MatchLength(data) == MatchLength(data + more) && Head(data) == Head(data + more)
  {
    if MatchLength(data) > 0 {
      MatchStays(data, more);
    } else if MatchLength(data + more) > 0 {
      assert (data + more)[3..] == data[3..] + more;
      RunWasThere(data[3..], more);
    }
  }

  /** Every mode sequence in the data is at most one byte longer than the tail that is kept. */
  ghost predicate Short(data: string) {
    forall i | 0 <= i <= |data| :: MatchLength(data[i..]) <= TAIL + 1
  }

  lemma ShortRest(data: string)
    requires Short(data) && data != []
    ensures Short(data[1..])
  {
    forall i | 0 <= i <= |data[1..]| ensures MatchLength(data[1..][i..]) <= TAIL + 1 {
      assert data[1..][i..] == data[i + 1..];
    }
  }

  lemma {:induction false} ModesStay(data: string, more: string)
    ensures Modes(data).Keys <= Modes(data + more).Keys
  {
    if data != [] {
      ModesStay(data[1..], more);
      assert (data + more)[1..] == data[1..] + more;
      if MatchLength(data) > 0 { MatchStays(data, more); }
    }
  }

  /** Scanning on from the tail sees what a scan of everything would have seen. */
  lemma {:induction false} ScanFromTail(data: string, part: string)
    requires Short(data + part)
    ensures Modes(data) + Modes(Last(data, TAIL) + part) == Modes(data + part)
  {
    hide Head, MatchLength;
    if |data| <= TAIL {
      ModesStay(data, part);
      Absorbed(Modes(data), Modes(data + part));
    } else {
      assert (data + part)[1..] == data[1..] + part;
      ShortRest(data + part);
      ScanFromTail(data[1..], part);
      assert Last(data[1..], TAIL) == Last(data, TAIL);
      assert (data + part)[0..] == data + part;
      MatchWasThere(data, part);
      Regroup(Head(data), Modes(data[1..]), Modes(Last(data, TAIL) + part));
    }
  }

  function Joined(chunks: seq<string>): string {
    if chunks == [] then [] else Joined(chunks[..|chunks| - 1]) + chunks[|chunks| - 1]
  }

  datatype Scan = Scan(modes: map<nat, bool>, tail: string, history: string)

  /** The console after these reads, as `Console.Output` updates it. */
  function Scanned(chunks: seq<string>): Scan {
    if chunks == [] then Scan(map[], [], []) else
    var s, part := Scanned(chunks[..|chunks| - 1]), chunks[|chunks| - 1];
    Scan(s.modes + Modes(s.tail + part), Last(s.tail + part, TAIL), Last(s.history + part, HISTORY_LIMIT))
  }

  lemma LastJoin(data: string, part: string, n: nat)
    ensures Last(Last(data, n) + part, n) == Last(data + part, n)
  {
  }

  lemma ShortPrefix(data: string, part: string)
    requires Short(data + part)
    ensures Short(data)
  {
    forall i | 0 <= i <= |data| ensures MatchLength(data[i..]) <= TAIL + 1 {
      assert (data + part)[i..] == data[i..] + part;
      if MatchLength(data[i..]) > 0 { MatchStays(data[i..], part); }
    }
  }

  /** However the output is cut into reads: the modes are those of one scan over all of it. */
  lemma {:induction false} ChunksDoNotMatter(chunks: seq<string>)
    requires Short(Joined(chunks))
    ensures Scanned(chunks).modes == Modes(Joined(chunks))
    ensures Scanned(chunks).tail == Last(Joined(chunks), TAIL)
    ensures Scanned(chunks).history == Last(Joined(chunks), HISTORY_LIMIT)
  {
    if chunks != [] {
      var data, part := Joined(chunks[..|chunks| - 1]), chunks[|chunks| - 1];
      ShortPrefix(data, part);
      ChunksDoNotMatter(chunks[..|chunks| - 1]);
      ScanFromTail(data, part);
      LastJoin(data, part, TAIL);
      LastJoin(data, part, HISTORY_LIMIT);
    }
  }

  // ---------------------------------------------------------------- restoring

  lemma {:induction false} NumberValue(n: nat)
    ensures Value(Number(n)) == n
  {
    if n >= 10 {
      NumberValue(n / 10);
      var s := Number(n / 10);
      assert (s + [('0' as int + n % 10) as char])[..|s|] == s;
    } else {
      assert Number(n)[..0] == [];
    }
  }

  lemma {:induction false} FieldOfDigits(run: string)
    requires forall i | 0 <= i < |run| :: IsDigit(run[i])
    ensures Field(run) == |run|
  {
    if run != [] { FieldOfDigits(run[1..]); }
  }

  lemma {:induction false} RunOfDigits(digits: string, more: string)
    requires forall i | 0 <= i < |digits| :: IsDigit(digits[i])
    requires more != [] && !IsDigit(more[0]) && more[0] != ';'
    ensures Run(digits + more) == |digits|
  {
    if digits != [] {
      RunOfDigits(digits[1..], more);
      assert (digits + more)[1..] == digits[1..] + more;
    } else {
      assert digits + more == more;
    }
  }

  lemma {:induction false} NothingWithoutEscape(quiet: string, data: string)
    requires forall i | 0 <= i < |quiet| :: quiet[i] != ESC
    ensures Modes(quiet + data) == Modes(data)
  {
    if quiet == [] {
      assert quiet + data == data;
    } else {
      assert (quiet + data)[1..] == quiet[1..] + data;
      NothingWithoutEscape(quiet[1..], data);
    }
  }

  lemma OpenedDrops(rest: string)
    ensures Opened(rest)[3..] == rest && Opened(rest)[1..] == Bracket(rest)
  {
  }

  lemma MatchAfter(all: string, rest: string)
    requires |all| == |rest| + 3 && all[0] == ESC && all[1] == '[' && all[2] == '?' && all[3..] == rest
    ensures MatchLength(all) == var k := Run(rest);
      if k == 0 || k == |rest| || !(rest[k] == 'h' || rest[k] == 'l') then 0 else k + 4
  {
    hide Run;
  }

  lemma OpenedMatch(rest: string)
    ensures MatchLength(Opened(rest)) == var k := Run(rest);
      if k == 0 || k == |rest| || !(rest[k] == 'h' || rest[k] == 'l') then 0 else k + 4
  {
    OpenedDrops(rest);
    hide Run;
    MatchAfter(Opened(rest), rest);
    hide MatchLength;
  }

  lemma BracketJoin(a: string, b: string)
    ensures Bracket(a) + b == Bracket(a + b) && Opened(a) + b == Opened(a + b)
  {
    Assoc(['?'], a, b);
    Assoc(['['], ['?'] + a, b);
    Assoc([ESC], Bracket(a), b);
  }

  lemma BracketQuiet(rest: string)
    requires forall i | 0 <= i < |rest| :: rest[i] != ESC
    ensures forall i | 0 <= i < |Bracket(rest)| :: Bracket(rest)[i] != ESC
  {
  }

  lemma DigitsParam(digits: string, on: bool)
    requires digits != [] && (forall i | 0 <= i < |digits| :: IsDigit(digits[i])) && Value(digits) <= MAX_MODE
    ensures Params(digits, on) == map[Value(digits) := on]
  {
    FieldOfDigits(digits);
    hide Value;
    assert digits[..|digits|] == digits;
  }

  /** The head of data whose sequence has `digits` between its start and its final character. */
  lemma HeadParams(all: string, digits: string, on: bool)
    requires digits != [] && (forall i | 0 <= i < |digits| :: IsDigit(digits[i])) && Value(digits) <= MAX_MODE
    requires MatchLength(all) == |digits| + 4 && all[3..|digits| + 3] == digits && (all[|digits| + 3] == 'h') == on
    ensures Head(all) == map[Value(digits) := on]
  {
    DigitsParam(digits, on);
    hide Params, Value, IsDigit, MatchLength;
  }

  lemma Middle(all: string, digits: string, more: string)
    requires |all| > 3 && all[3..] == digits + more && more != []
    ensures all[3..|digits| + 3] == digits && all[|digits| + 3] == more[0]
  {
    assert all[3..][..|digits|] == digits;
    assert all[3..][|digits|] == more[0];
  }

  lemma NumberHead(digits: string, on: bool, data: string)
    requires digits != [] && (forall i | 0 <= i < |digits| :: IsDigit(digits[i])) && Value(digits) <= MAX_MODE
    ensures Head(Opened(digits + ([if on then 'h' else 'l'] + data))) == map[Value(digits) := on]
  {
    var more := [if on then 'h' else 'l'] + data;
    RunOfDigits(digits, more);
    OpenedMatch(digits + more);
    OpenedDrops(digits + more);
    hide Run, Value, IsDigit, MatchLength, Opened, Head;
    Middle(Opened(digits + more), digits, more);
    HeadParams(Opened(digits + more), digits, on);
  }

  lemma Assoc(a: string, b: string, c: string)
    ensures (a + b) + c == a + (b + c)
  {
  }

  lemma QuietAfter(digits: string, on: bool)
    requires forall i | 0 <= i < |digits| :: IsDigit(digits[i])
    ensures var quiet := Bracket(digits + [if on then 'h' else 'l']); forall i | 0 <= i < |quiet| :: quiet[i] != ESC
  {
    BracketQuiet(digits + [if on then 'h' else 'l']);
  }

  lemma ModesStep(data: string)
    requires data != []
    ensures Modes(data) == Head(data) + Modes(data[1..])
  {
  }

  lemma NumberSets(digits: string, on: bool, data: string)
    requires digits != [] && (forall i | 0 <= i < |digits| :: IsDigit(digits[i])) && Value(digits) <= MAX_MODE
    ensures Modes(Opened(digits + ([if on then 'h' else 'l'] + data))) == map[Value(digits) := on] + Modes(data)
  {
    hide *;
    var final := [if on then 'h' else 'l'];
    var rest := digits + (final + data);
    NumberHead(digits, on, data);
    OpenedDrops(rest);
    OpenedSize(rest);
    ModesStep(Opened(rest));
    Assoc(digits, final, data);
    BracketJoin(digits + final, data);
    QuietAfter(digits, on);
    NothingWithoutEscape(Bracket(digits + final), data);
  }

  lemma OpenedSize(rest: string)
    ensures Opened(rest) != []
  {
  }

  lemma SequenceSets(mode: nat, on: bool, data: string)
    requires mode <= MAX_MODE
    ensures Modes(Sequence(mode, on) + data) == map[mode := on] + Modes(data)
  {
    var final := [if on then 'h' else 'l'];
    assert Sequence(mode, on) == Opened(Number(mode) + final);
    hide *;
    NumberValue(mode);
    NumberSets(Number(mode), on, data);
    BracketJoin(Number(mode) + final, data);
    Assoc(Number(mode), final, data);
  }

  lemma {:induction false} PrintedModes(keys: seq<nat>, modes: map<nat, bool>)
    requires forall k | k in keys :: k in modes && k <= MAX_MODE
    ensures Modes(Printed(keys, modes)) == map k | k in keys :: modes[k]
  {
    hide Sequence, Modes;
    if keys == [] {
      NothingInNothing();
    } else {
      var rest := keys[1..];
      assert keys[0] in keys;
      forall k | k in rest ensures k in keys { }
      PrintedModes(rest, modes);
      SequenceSets(keys[0], modes[keys[0]], Printed(rest, modes));
      assert forall k :: k in keys <==> k == keys[0] || k in rest;
    }
  }

  lemma {:induction false} ParamsAreSmall(run: string, on: bool)
    requires forall i | 0 <= i < |run| :: IsDigit(run[i]) || run[i] == ';'
    ensures forall k | k in Params(run, on) :: k <= MAX_MODE
    decreases |run|
  {
    if Field(run) < |run| { ParamsAreSmall(run[Field(run) + 1..], on); }
  }

  lemma {:induction false} ModesAreSmall(data: string)
    ensures forall k | k in Modes(data) :: k <= MAX_MODE
  {
    if data != [] {
      ModesAreSmall(data[1..]);
      var n := MatchLength(data);
      if n > 0 {
        assert data[3..][..n - 4] == data[3..n - 1];
        ParamsAreSmall(data[3..n - 1], data[n - 1] == 'h');
      }
    }
  }

  /** What a console prints sets the same modes in a new console, in whatever order the modes are printed. */
  lemma RestoredModes(data: string, keys: seq<nat>)
    requires forall k :: k in keys <==> k in Modes(data)
    ensures Modes(Printed(keys, Modes(data))) == Modes(data)
  {
    ModesAreSmall(data);
    PrintedModes(keys, Modes(data));
  }

  // ---------------------------------------------------------------- sequences that are cut

  lemma QuietModes(quiet: string)
    requires forall i | 0 <= i < |quiet| :: quiet[i] != ESC
    ensures Modes(quiet) == map[]
  {
    NothingWithoutEscape(quiet, []);
    NothingInNothing();
    assert quiet + [] == quiet;
  }

  /** Only the first byte of a sequence is an escape. */
  lemma QuietInside(q: string, i: nat)
    requires MatchLength(q) == |q| && 0 < i < |q|
    ensures q[i] != ESC
  {
    var k := Run(q[3..]);
    assert k == |q| - 4;
    if 3 <= i < |q| - 1 { assert q[i] == q[3..][i - 3]; }
  }

  lemma {:induction false} RunToTheEnd(data: string)
    requires forall i | 0 <= i < |data| :: IsDigit(data[i]) || data[i] == ';'
    ensures Run(data) == |data|
  {
    if data != [] { RunToTheEnd(data[1..]); }
  }

  /** A sequence without its end is none. */
  lemma CutIsNone(q: string, c: nat)
    requires MatchLength(q) == |q| && c < |q|
    ensures MatchLength(q[..c]) == 0
  {
    if c >= 3 {
      var body := q[..c][3..];
      forall i | 0 <= i < |body| ensures IsDigit(body[i]) || body[i] == ';' {
        assert Run(q[3..]) == |q| - 4 && body[i] == q[3..][i];
      }
      RunToTheEnd(body);
    }
  }

  lemma BeforeTheCut(q: string, c: nat)
    requires MatchLength(q) == |q| && 0 < c < |q|
    ensures Modes(q[..c]) == map[] && Modes(q) == Head(q)
  {
    CutIsNone(q, c);
    forall i | 1 <= i < |q| ensures q[i] != ESC { QuietInside(q, i); }
    QuietModes(q[..c][1..]);
    QuietModes(q[1..]);
    ModesStep(q[..c]);
    ModesStep(q);
    assert Head(q[..c]) == map[];
  }

  lemma TwoReads(a: string, b: string)
    ensures Scanned([a, b]).modes == Modes(a) + Modes(Last(a, TAIL) + b) && Joined([a, b]) == a + b
  {
    hide Modes;
    assert [a, b][..1] == [a] && [a][..0] == [] && [] + a == a;
    assert Scanned([]) == Scan(map[], [], []);
    assert Scanned([a]).modes == Modes(a) && Scanned([a]).tail == Last(a, TAIL);
    assert Joined([a]) == a;
  }

  lemma NoModes(modes: map<nat, bool>)
    ensures map[] + modes == modes
  {
  }

  /** What the second read is scanned with: the whole sequence, or a part without its escape. */
  lemma AfterTheCut(q: string, c: nat)
    requires MatchLength(q) == |q| && 0 < c < |q|
    ensures var kept := Last(q[..c], TAIL) + q[c..]; if c <= TAIL then kept == q else Modes(kept) == map[]
  {
    hide MatchLength, Modes;
    if c > TAIL {
      var kept := q[c - TAIL..];
      assert Last(q[..c], TAIL) + q[c..] == kept;
      forall i | 0 <= i < |kept| ensures kept[i] != ESC { QuietInside(q, c - TAIL + i); }
      QuietModes(kept);
    }
  }

  /**
   A sequence that two reads cut is kept if its first part fits into the tail, and lost if it does not. So any
   sequence at least two bytes longer than the tail is lost when it is cut before its last byte.
   */
  lemma LongSequenceIsLost(q: string, c: nat)
    requires MatchLength(q) == |q| && 0 < c < |q|
    ensures Modes(Joined([q[..c], q[c..]])) == Head(q)
    ensures Scanned([q[..c], q[c..]]).modes == if c <= TAIL then Head(q) else map[]
  {
    hide *;
    var a, b := q[..c], q[c..];
    assert a + b == q;
    BeforeTheCut(q, c);
    AfterTheCut(q, c);
    TwoReads(a, b);
    NoModes(Head(q));
  }

  lemma LostAtItsEnd(q: string)
    requires MatchLength(q) == |q| >= TAIL + 2
    ensures Scanned([q[..|q| - 1], q[|q| - 1..]]).modes == map[]
  {
    LongSequenceIsLost(q, |q| - 1);
    hide *;
  }

  lemma SetsOneMode(digits: string)
    requires digits != [] && (forall i | 0 <= i < |digits| :: IsDigit(digits[i])) && Value(digits) <= MAX_MODE
    ensures Modes(Opened(digits + ['h'])) == map[Value(digits) := true]
  {
    hide *;
    NumberSets(digits, true, []);
    NothingInNothing();
    assert ['h'] + [] == ['h'];
  }

  /** Such sequences do set modes: here one mode, written with leading zeros. */
  lemma LostMode(digits: string, q: string)
    requires |digits| >= TAIL - 2 && (forall i | 0 <= i < |digits| :: IsDigit(digits[i])) && Value(digits) <= MAX_MODE
    requires q == Opened(digits + ['h'])
    ensures Modes(q) == map[Value(digits) := true]
    ensures Scanned([q[..|q| - 1], q[|q| - 1..]]).modes == map[]
  {
    assert |digits| >= 126;
    hide *;
    SetsOneMode(digits);
    WholeNumber(digits);
    LostAtItsEnd(q);
  }

  lemma WholeNumber(digits: string)
    requires digits != [] && forall i | 0 <= i < |digits| :: IsDigit(digits[i])
    ensures MatchLength(Opened(digits + ['h'])) == |Opened(digits + ['h'])| == |digits| + 4
  {
    RunOfDigits(digits, ['h']);
    OpenedDrops(digits + ['h']);
    OpenedMatch(digits + ['h']);
    OpenedSize(digits + ['h']);
    hide *;
  }

  lemma NothingInNothing()
    ensures Modes([]) == map[]
  {
  }
}
