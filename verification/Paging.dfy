/**
 The job list, page by page. The order of jobs, the keyset condition of the query and the pages it gives are
 functions; the lemmas show that following the cursors walks through the whole list in order, once.
 */
module Paging {
  import opened Protocol

  /** The columns that the list filters and sorts by. Times are in whole seconds. */
  datatype JobRow = JobRow(
    jobID: string, state: JobState, updatedAt: int, createdAt: int, archived: bool, viewMode: ViewMode,
      projectID: string)

  datatype StateFilter = AnyState | Attention | Working | OneState(state: JobState)

  /** `text` is what the LIKE clauses answer. */
  datatype Filter = Filter(includeArchived: bool, state: StateFilter, view: Option<ViewMode>, project: Option<string>,
    text: JobRow -> bool)

  datatype JobCursor = JobCursor(group: int, updatedAt: int, createdAt: int, jobID: string)

  datatype Cursor = NoCursor | Position(at: JobCursor) | Malformed

  datatype Page = Page(rows: seq<JobRow>, next: Cursor, hasMore: bool)

  const DEFAULT_JOB_LIMIT := 40
  const MAX_JOB_LIMIT := 100

  // ---------------------------------------------------------------- the order

  predicate DashboardActive(s: JobState) {
    IsActive(s) || s.PlanReady? || s.NeedsInput? || s.Disconnected?
  }

  function ActiveGroup(s: JobState): int {
    if DashboardActive(s) then 1 else 0
  }

  function Compare(a: int, b: int): int {
    if a < b then -1 else if a > b then 1 else 0
  }

  function CompareStrings(a: string, b: string): int {
    if a == [] && b == [] then 0
    else if a == [] then -1
    else if b == [] then 1
    else if a[0] != b[0] then if a[0] < b[0] then -1 else 1
    else CompareStrings(a[1..], b[1..])
  }

  function CompareJobs(a: JobRow, b: JobRow): int {
    var g := Compare(ActiveGroup(b.state), ActiveGroup(a.state));
    var u := Compare(b.updatedAt, a.updatedAt);
    var c := Compare(b.createdAt, a.createdAt);
    if g != 0 then g else if u != 0 then u else if c != 0 then c else CompareStrings(b.jobID, a.jobID)
  }

  predicate Before(a: JobRow, b: JobRow) {
    CompareJobs(a, b) < 0
  }

  // ---------------------------------------------------------------- the query

  function ClampJobLimit(n: int): (r: nat)
    ensures 0 < r <= MAX_JOB_LIMIT && (0 < n <= MAX_JOB_LIMIT ==> r == n)
  {
    if n <= 0 then DEFAULT_JOB_LIMIT else if n > MAX_JOB_LIMIT then MAX_JOB_LIMIT else n
  }

  predicate Matches(f: Filter, r: JobRow) {
    && r.archived == f.includeArchived
    && (match f.state
        case AnyState => true
        case Attention => r.state.PlanReady? || r.state.NeedsInput?
        case Working => IsActive(r.state)
        case OneState(s) => r.state == s)
    && (f.view.Some? ==> r.viewMode == f.view.value)
    && (f.project.Some? ==> r.projectID == f.project.value)
    && f.text(r)
  }

  function CursorOf(r: JobRow): JobCursor {
    JobCursor(ActiveGroup(r.state), r.updatedAt, r.createdAt, r.jobID)
  }

  /** The keyset condition as the query spells it out. */
  predicate After(c: JobCursor, r: JobRow) {
    var g := ActiveGroup(r.state);
    || g < c.group
    || (g == c.group && r.updatedAt < c.updatedAt)
    || (g == c.group && r.updatedAt == c.updatedAt && r.createdAt < c.createdAt)
    || (g == c.group && r.updatedAt == c.updatedAt && r.createdAt == c.createdAt
       && CompareStrings(r.jobID, c.jobID) < 0)
  }

  predicate Wanted(f: Filter, cursor: Cursor, r: JobRow) {
    Matches(f, r) && (cursor.Position? ==> After(cursor.at, r))
  }

  function Select(rows: seq<JobRow>, keep: JobRow -> bool): (s: seq<JobRow>)
    ensures |s| <= |rows|
    ensures forall x :: x in s <==> x in rows && keep(x)
  {
    if rows == [] then [] else (if keep(rows[0]) then [rows[0]] else []) + Select(rows[1..], keep)
  }

  function Insert(x: JobRow, s: seq<JobRow>): (r: seq<JobRow>)
    ensures |r| == |s| + 1
  {
    if s == [] || Before(x, s[0]) then [x] + s else [s[0]] + Insert(x, s[1..])
  }

  /** ORDER BY. */
  function Ordered(rows: seq<JobRow>): (s: seq<JobRow>)
    ensures |s| == |rows|
  {
    if rows == [] then [] else Insert(rows[0], Ordered(rows[1..]))
  }

  function Result(table: seq<JobRow>, f: Filter, cursor: Cursor): seq<JobRow> {
    Ordered(Select(table, r => Wanted(f, cursor, r)))
  }

  /** One query: the page asks for one row more than it returns, to know whether there is more. */
  function ListJobsPage(table: seq<JobRow>, f: Filter, limit: int, cursor: Cursor): Option<Page> {
    if cursor.Malformed? then None else
    var n := ClampJobLimit(limit);
    var all := Result(table, f, cursor);
    var out := if |all| > n + 1 then all[..n + 1] else all;
    if |out| > n then Some(Page(out[..n], Position(CursorOf(out[n - 1])), true)) else Some(Page(out, NoCursor, false))
  }

  // ---------------------------------------------------------------- the order is total

  lemma {:induction false} StringsOrdered(a: string, b: string)
    ensures CompareStrings(a, b) == -CompareStrings(b, a)
    ensures CompareStrings(a, b) == 0 <==> a == b
  {
    if a != [] && b != [] && a[0] == b[0] {
      StringsOrdered(a[1..], b[1..]);
      assert a == [a[0]] + a[1..] && b == [b[0]] + b[1..];
    }
  }

  lemma {:induction false} StringsTransitive(a: string, b: string, c: string)
    requires CompareStrings(a, b) < 0 && CompareStrings(b, c) < 0
    ensures CompareStrings(a, c) < 0
  {
    if a != [] && a[0] == b[0] && b[0] == c[0] { StringsTransitive(a[1..], b[1..], c[1..]); }
  }

  /** CompareJobs is a strict total order on jobs with different ids. */
  lemma JobsTotallyOrdered(a: JobRow, b: JobRow, c: JobRow)
    ensures CompareJobs(a, b) == -CompareJobs(b, a)
    ensures a.jobID != b.jobID ==> CompareJobs(a, b) != 0
    ensures Before(a, b) && Before(b, c) ==> Before(a, c)
  {
    StringsOrdered(a.jobID, b.jobID);
    if CompareStrings(b.jobID, a.jobID) < 0 && CompareStrings(c.jobID, b.jobID) < 0 {
      StringsTransitive(c.jobID, b.jobID, a.jobID);
    }
  }

  /** The query's keyset condition is that order. */
  lemma CursorsFollowTheOrder(a: JobRow, b: JobRow)
    ensures After(CursorOf(a), b) <==> Before(a, b)
  {
  }

  // ---------------------------------------------------------------- sorting

  predicate Sorted(s: seq<JobRow>) {
    forall i, j :: 0 <= i < j < |s| ==> Before(s[i], s[j])
  }

  predicate DistinctIDs(s: seq<JobRow>) {
    forall i, j :: 0 <= i < j < |s| ==> s[i].jobID != s[j].jobID
  }

  lemma {:induction false} InsertBag(x: JobRow, s: seq<JobRow>)
    ensures multiset(Insert(x, s)) == multiset(s) + multiset{x}
  {
    hide Before;
    if s != [] && !Before(x, s[0]) {
      InsertBag(x, s[1..]);
      assert s == [s[0]] + s[1..];
    }
  }

  lemma InsertMembers(x: JobRow, s: seq<JobRow>)
    ensures forall y :: y in Insert(x, s) <==> y == x || y in s
  {
    InsertBag(x, s);
    hide Insert;
    forall y ensures y in Insert(x, s) <==> y == x || y in s {
      assert y in multiset(Insert(x, s)) <==> y in multiset(s) + multiset{x};
    }
  }

  lemma {:induction false} InsertSorted(x: JobRow, s: seq<JobRow>)
    requires Sorted(s) && forall y | y in s :: y.jobID != x.jobID
    ensures Sorted(Insert(x, s))
  {
    if s != [] && !Before(x, s[0]) {
      InsertSorted(x, s[1..]);
      InsertMembers(x, s[1..]);
      JobsTotallyOrdered(s[0], x, x);
      assert Before(s[0], x);
      hide Before;
      var r := Insert(x, s[1..]);
      forall j | 0 <= j < |r| ensures Before(s[0], r[j]) { assert r[j] in r; }
    } else if s != [] {
      forall j | 0 <= j < |s| ensures Before(x, s[j]) { JobsTotallyOrdered(x, s[0], s[j]); }
      hide Before;
    }
  }

  /** The sorted rows are the rows, each once, in the order of CompareJobs. */
  lemma {:induction false} OrderedSorts(rows: seq<JobRow>)
    ensures multiset(Ordered(rows)) == multiset(rows)
    ensures DistinctIDs(rows) ==> Sorted(Ordered(rows))
  {
    hide Before, Insert;
    if rows != [] {
      var rest := Ordered(rows[1..]);
      OrderedSorts(rows[1..]);
      InsertBag(rows[0], rest);
      assert rows == [rows[0]] + rows[1..];
      if DistinctIDs(rows) {
        forall y | y in rest ensures y.jobID != rows[0].jobID { assert y in multiset(rest) && y in rows[1..]; }
        InsertSorted(rows[0], rest);
      }
    }
  }

  lemma {:induction false} SelectDistinct(rows: seq<JobRow>, keep: JobRow -> bool)
    requires DistinctIDs(rows)
    ensures DistinctIDs(Select(rows, keep))
  {
    if rows != [] {
      SelectDistinct(rows[1..], keep);
      var rest := Select(rows[1..], keep);
      forall j | 0 <= j < |rest| ensures rest[j].jobID != rows[0].jobID { assert rest[j] in rest; }
    }
  }

  lemma SelectStep(head: JobRow, tail: seq<JobRow>, keep: JobRow -> bool)
    ensures Select([head] + tail, keep) == if keep(head) then [head] + Select(tail, keep) else Select(tail, keep)
  {
    assert ([head] + tail)[1..] == tail;
  }

  lemma InsertStep(x: JobRow, head: JobRow, tail: seq<JobRow>)
    ensures Insert(x, [head] + tail) == if Before(x, head) then [x] + ([head] + tail) else [head] + Insert(x, tail)
  {
    assert ([head] + tail)[1..] == tail;
  }

  /** A row that belongs before all of `s` is inserted at its front. */
  lemma InsertFirst(x: JobRow, s: seq<JobRow>)
    requires forall r | r in s :: Before(x, r)
    ensures Insert(x, s) == [x] + s
  {
    if s != [] { assert s[0] in s; }
  }

  lemma {:induction false} InsertSelect(x: JobRow, s: seq<JobRow>, keep: JobRow -> bool)
    requires Sorted(s)
    ensures Select(Insert(x, s), keep) == if keep(x) then Insert(x, Select(s, keep)) else Select(s, keep)
  {
    if s == [] {
      SelectStep(x, s, keep);
    } else {
      var head, tail := s[0], s[1..];
      assert s == [head] + tail;
      SelectStep(head, tail, keep);
      InsertStep(x, head, tail);
      if Before(x, head) {
        SelectStep(x, s, keep);
        forall i | 0 <= i < |s| ensures Before(x, s[i]) { JobsTotallyOrdered(x, head, s[i]); }
        InsertFirst(x, Select(s, keep));
      } else {
        hide Before, Insert, Select;
        InsertSelect(x, tail, keep);
        SelectStep(head, Insert(x, tail), keep);
        InsertStep(x, head, Select(tail, keep));
      }
    }
  }

  /** Filtering before sorting or after it is the same. */
  lemma {:induction false} OrderedSelect(rows: seq<JobRow>, keep: JobRow -> bool)
    requires DistinctIDs(rows)
    ensures Ordered(Select(rows, keep)) == Select(Ordered(rows), keep)
  {
    if rows != [] {
      OrderedSelect(rows[1..], keep);
      OrderedSorts(rows[1..]);
      InsertSelect(rows[0], Ordered(rows[1..]), keep);
      assert rows == [rows[0]] + rows[1..];
      SelectStep(rows[0], rows[1..], keep);
      var rest := Select(rows[1..], keep);
      assert keep(rows[0]) ==> ([rows[0]] + rest)[1..] == rest;
      hide Select, Insert;
    }
  }

  lemma {:induction false} SelectTwice(rows: seq<JobRow>, f: JobRow -> bool, g: JobRow -> bool)
    ensures Select(Select(rows, f), g) == Select(rows, r => f(r) && g(r))
  {
    if rows != [] {
      SelectTwice(rows[1..], f, g);
      var rest := Select(rows[1..], f);
      if f(rows[0]) { assert ([rows[0]] + rest)[1..] == rest; } else { assert [] + rest == rest; }
    }
  }

  lemma {:induction false} SelectSame(rows: seq<JobRow>, f: JobRow -> bool, g: JobRow -> bool)
    requires forall r | r in rows :: f(r) == g(r)
    ensures Select(rows, f) == Select(rows, g)
  {
    if rows != [] { SelectSame(rows[1..], f, g); }
  }

  lemma {:induction false} SelectAll(s: seq<JobRow>, keep: JobRow -> bool)
    requires forall r | r in s :: keep(r)
    ensures Select(s, keep) == s
  {
    if s != [] {
      SelectAll(s[1..], keep);
      assert s == [s[0]] + s[1..];
    }
  }

  // ---------------------------------------------------------------- following the cursors

  lemma NeverBoth(a: JobRow, b: JobRow)
    requires Before(a, b) || a == b
    ensures !Before(b, a)
  {
    JobsTotallyOrdered(a, b, a);
  }

  lemma {:induction false} AfterAt(s: seq<JobRow>, k: nat, keep: JobRow -> bool)
    requires Sorted(s) && k < |s| && forall i | 0 <= i < |s| :: keep(s[i]) == Before(s[k], s[i])
    ensures Select(s, keep) == s[k + 1..]
  {
    hide Before;
    var tail := s[1..];
    NeverBoth(s[0], s[k]);
    assert Select(s, keep) == [] + Select(tail, keep) == Select(tail, keep);
    if k == 0 {
      SelectAll(tail, keep);
    } else {
      AfterAt(tail, k - 1, keep);
      assert tail[k..] == s[k + 1..];
    }
  }

  lemma LaterRows(cursor: Cursor, f: Filter, at: JobRow, r: JobRow)
    requires Wanted(f, cursor, at) && !cursor.Malformed?
    ensures Wanted(f, Position(CursorOf(at)), r) <==> Wanted(f, cursor, r) && Before(at, r)
  {
    CursorsFollowTheOrder(at, r);
    if cursor.Position? && Before(at, r) {
      StringsOrdered(at.jobID, r.jobID);
      if CompareStrings(r.jobID, at.jobID) < 0 && CompareStrings(at.jobID, cursor.at.jobID) < 0 {
        StringsTransitive(r.jobID, at.jobID, cursor.at.jobID);
      }
    }
  }

  /** What a page's cursor leads to is what the page left out. */
  lemma PageThenRest(table: seq<JobRow>, f: Filter, cursor: Cursor, k: nat)
    requires DistinctIDs(table) && !cursor.Malformed? && k < |Result(table, f, cursor)|
    ensures Result(table, f, Position(CursorOf(Result(table, f, cursor)[k]))) == Result(table, f, cursor)[k + 1..]
  {
    var wanted := r => Wanted(f, cursor, r);
    var rows, all := Select(table, wanted), Result(table, f, cursor);
    var at := all[k];
    var later, both := r => Wanted(f, Position(CursorOf(at)), r), r => wanted(r) && Before(at, r);
    OrderedSorts(rows);
    SelectDistinct(table, wanted);
    assert at in multiset(all) && at in rows;
    forall r | r in table ensures later(r) == both(r) { LaterRows(cursor, f, at, r); }
    SelectSame(table, later, both);
    var after := r => Before(at, r);
    SelectTwice(table, wanted, after);
    SelectSame(table, both, r => wanted(r) && after(r));
    OrderedSelect(rows, after);
    assert forall i | 0 <= i < |all| :: after(all[i]) == Before(all[k], all[i]);
    AfterAt(all, k, after);
  }

  /** Every page from `cursor` on, asking for `limits(i)` rows the `i`th time; it ends. */
  function Walk(table: seq<JobRow>, f: Filter, limits: nat -> int, i: nat, cursor: Cursor): seq<JobRow>
    requires DistinctIDs(table) && !cursor.Malformed?
    decreases |Result(table, f, cursor)|
  {
    var page := ListJobsPage(table, f, limits(i), cursor).value;
    if !page.hasMore then page.rows else
    PageThenRest(table, f, cursor, ClampJobLimit(limits(i)) - 1);
    page.rows + Walk(table, f, limits, i + 1, page.next)
  }

  /** Whatever the limits: the pages together are the matching jobs after the cursor, sorted. */
  lemma {:induction false} WalkVisitsAll(table: seq<JobRow>, f: Filter, limits: nat -> int, i: nat, cursor: Cursor)
    requires DistinctIDs(table) && !cursor.Malformed?
    ensures Walk(table, f, limits, i, cursor) == Result(table, f, cursor)
    decreases |Result(table, f, cursor)|
  {
    hide Result, ClampJobLimit, CursorOf;
    var n, all := ClampJobLimit(limits(i)), Result(table, f, cursor);
    PageIsPrefix(table, f, limits(i), cursor);
    var page := ListJobsPage(table, f, limits(i), cursor).value;
    hide ListJobsPage;
    if page.hasMore {
      PageThenRest(table, f, cursor, n - 1);
      WalkVisitsAll(table, f, limits, i + 1, page.next);
      assert all == all[..n] + all[n..];
    }
  }

  lemma PageIsPrefix(table: seq<JobRow>, f: Filter, limit: int, cursor: Cursor)
    requires !cursor.Malformed?
    ensures var n, all, page := ClampJobLimit(limit), Result(table, f, cursor),
      ListJobsPage(table, f, limit, cursor).value;
      if |all| > n then page == Page(all[..n], Position(CursorOf(all[n - 1])), true)
        else page == Page(all, NoCursor, false)
  {
    hide Result;
  }

  /** From the empty cursor: every matching job exactly once, in the order of CompareJobs, and no other. */
  lemma PagesVisitEveryJobOnce(table: seq<JobRow>, f: Filter, limits: nat -> int)
    requires DistinctIDs(table)
    ensures var visited := Walk(table, f, limits, 0, NoCursor);
      && Sorted(visited) && DistinctIDs(visited)
      && (forall r :: r in visited <==> r in table && Matches(f, r))
  {
    var wanted := r => Wanted(f, NoCursor, r);
    WalkVisitsAll(table, f, limits, 0, NoCursor);
    SelectDistinct(table, wanted);
    var rows := Select(table, wanted);
    OrderedSorts(rows);
    var visited := Ordered(rows);
    forall r ensures r in visited <==> r in rows { assert r in multiset(visited) <==> r in multiset(rows); }
    forall i, j | 0 <= i < j < |visited| ensures visited[i].jobID != visited[j].jobID {
      if visited[i].jobID == visited[j].jobID {
        SameRow(rows, visited[i], visited[j]);
        JobsTotallyOrdered(visited[i], visited[j], visited[i]);
      }
    }
  }

  lemma SameRow(rows: seq<JobRow>, a: JobRow, b: JobRow)
    requires DistinctIDs(rows) && a in rows && b in rows && a.jobID == b.jobID
    ensures a == b
  {
  }

  // ---------------------------------------------------------------- the order and the pages, spelled out

  /** The strings differ first where `a` has the smaller character, or `a` is a proper prefix of `b`. */
  ghost predicate Smaller(a: string, b: string) {
    exists k :: SmallerAt(a, b, k)
  }

  predicate SmallerAt(a: string, b: string, k: int) {
    0 <= k <= |a| && k < |b| && a[..k] == b[..k] && (k < |a| ==> a[k] < b[k])
  }

  lemma SameStart(a: string, b: string, k: int)
    requires SmallerAt(a, b, k)
    ensures k > 0 ==> a[0] == b[0]
  {
    if k > 0 { assert a[..k][0] == b[..k][0]; }
  }

  lemma {:induction false} StringsExactly(a: string, b: string)
    ensures CompareStrings(a, b) < 0 <==> Smaller(a, b)
  {
    if a == [] || b == [] || a[0] != b[0] {
      if CompareStrings(a, b) < 0 { assert SmallerAt(a, b, 0); }
      forall k | SmallerAt(a, b, k) ensures k == 0 { SameStart(a, b, k); }
    } else {
      StringsExactly(a[1..], b[1..]);
      if Smaller(a[1..], b[1..]) {
        var k :| SmallerAt(a[1..], b[1..], k);
        assert a[..k + 1] == [a[0]] + a[1..][..k] && b[..k + 1] == [b[0]] + b[1..][..k];
        assert SmallerAt(a, b, k + 1);
      }
      if Smaller(a, b) {
        var k :| SmallerAt(a, b, k);
        assert k > 0 && a[..k][1..] == a[1..][..k - 1] && b[..k][1..] == b[1..][..k - 1];
        assert SmallerAt(a[1..], b[1..], k - 1);
      }
    }
  }

  /** The job is under way or waits for someone. */
  predicate Open(r: JobRow) {
    r.state in {JobState.Starting, JobState.Planning, JobState.Executing, JobState.Recovering, JobState.PlanReady,
                JobState.NeedsInput, JobState.Disconnected}
  }

  /** Open jobs come first; then what changed last, what was made last, and the greater id. */
  lemma BeforeExactly(a: JobRow, b: JobRow)
    ensures Before(a, b) <==>
      if Open(a) != Open(b) then Open(a)
      else if a.updatedAt != b.updatedAt then a.updatedAt > b.updatedAt
      else if a.createdAt != b.createdAt then a.createdAt > b.createdAt
      else Smaller(b.jobID, a.jobID)
  {
    StringsExactly(b.jobID, a.jobID);
    hide CompareStrings, Smaller;
  }

  /** A page holds the first of all that is left, up to its limit, and says whether there is more. */
  lemma PagesAreFilled(table: seq<JobRow>, f: Filter, limit: int, cursor: Cursor)
    requires !cursor.Malformed?
    ensures var all := Result(table, f, cursor); var page := ListJobsPage(table, f, limit, cursor);
      var n := if limit <= 0 then 40 else if limit > 100 then 100 else limit;
      && page.Some? && page.value.rows == (if |all| > n then all[..n] else all)
      && (page.value.hasMore <==> |all| > n) && (page.value.next.Position? <==> |all| > n)
  {
    hide Result;
  }

  /** What the filter lets through. */
  lemma MatchesExactly(f: Filter, r: JobRow)
    ensures Matches(f, r) <==>
      && r.archived == f.includeArchived && f.text(r)
      && (f.view.Some? ==> r.viewMode == f.view.value) && (f.project.Some? ==> r.projectID == f.project.value)
      && (f.state.Attention? ==> r.state in {JobState.PlanReady, JobState.NeedsInput})
      && (f.state.Working? ==> Open(r) && r.state !in {JobState.PlanReady, JobState.NeedsInput, JobState.Disconnected})
      && (f.state.OneState? ==> r.state == f.state.state)
  {
  }
}
