/**
 The task state that an answer carries between its tags: printed as JSON with the angle brackets escaped, and
 found again in whatever text surrounds it. A character is a Unicode scalar value.
 */
module TaskState {
  import opened ObjectGrammar
  import opened Protocol

  const OPEN := "<GROK_TASK_STATE>"
  const CLOSE := "</GROK_TASK_STATE>"

  datatype TaskState = TaskState(marker: TaskMarker, summary: string, next: string)

  function MarkerName(m: TaskMarker): string {
    match m
    case MarkerWorking => "working"
    case MarkerNeedsInput => "needs_input"
    case MarkerCompleted => "completed"
    case MarkerBlocked => "blocked"
  }

  function MarkerOf(name: string): Option<TaskMarker> {
    if name == "working" then Some(MarkerWorking)
    else if name == "needs_input" then Some(MarkerNeedsInput)
    else if name == "completed" then Some(MarkerCompleted)
    else if name == "blocked" then Some(MarkerBlocked)
    else None
  }

  // ---------------------------------------------------------------- printing JSON strings

  function HexDigit(n: nat): char
    requires n < 16
  {
    if n < 10 then ('0' as int + n) as char else ('a' as int + n - 10) as char
  }

  /** A code point below 0x10000 as `\u` and four digits. */
  function UnicodeEscape(n: nat): string
    requires n < 0x10000
  {
    ['\\', 'u', HexDigit(n / 0x1000), HexDigit(n / 0x100 % 0x10), HexDigit(n / 0x10 % 0x10), HexDigit(n % 0x10)]
  }

  /** Section 7 of RFC 8259, with the characters that HTML and JavaScript give a meaning escaped as well. */
  function Escape(c: char): string {
    if c == '"' then "\\\""
    else if c == '\\' then "\\\\"
    else if c as int == 8 then "\\b"
    else if c as int == 12 then "\\f"
    else if c == '\n' then "\\n"
    else if c == '\r' then "\\r"
    else if c == '\t' then "\\t"
    else if c as int < 0x20 || c in {'<', '>', '&'} || c as int in {0x2028, 0x2029} then UnicodeEscape(c as int)
    else [c]
  }

  function Quoted(s: string): string {
    if s == [] then [] else Escape(s[0]) + Quoted(s[1..])
  }

  function Member(key: string, value: string): string {
    "\"" + Quoted(key) + "\":\"" + Quoted(value) + "\""
  }

  function Encode(ts: TaskState): string {
    "{" + Member("state", MarkerName(ts.marker)) + ","
      + Member("summary", ts.summary) + "," + Member("next", ts.next) + "}"
  }

  function RenderTaskState(ts: TaskState): string {
    OPEN + "\n" + Encode(ts) + "\n" + CLOSE
  }

  // ---------------------------------------------------------------- reading JSON strings

  function HexValue(c: char): Option<nat> {
    if '0' <= c <= '9' then Some(c as int - '0' as int)
    else if 'a' <= c <= 'f' then Some(c as int - 'a' as int + 10)
    else if 'A' <= c <= 'F' then Some(c as int - 'A' as int + 10)
    else None
  }

  function Hex4(data: string): (r: Option<nat>)
    ensures r.Some? ==> r.value < 0x10000
  {
    if |data| < 4 then None else
    var (a, b, c, d) := (HexValue(data[0]), HexValue(data[1]), HexValue(data[2]), HexValue(data[3]));
    if a.None? || b.None? || c.None? || d.None? then None
    else Some(a.value * 0x1000 + b.value * 0x100 + c.value * 0x10 + d.value)
  }

  /** The character after a backslash and what follows it; surrogates count in pairs only. */
  function Unescape(data: string): (r: Option<(char, string)>)
    ensures r.Some? ==> |r.value.1| < |data|
  {
    if data == [] then None
    else if data[0] == '"' || data[0] == '\\' || data[0] == '/' then Some((data[0], data[1..]))
    else if data[0] == 'b' then Some((8 as char, data[1..]))
    else if data[0] == 'f' then Some((12 as char, data[1..]))
    else if data[0] == 'n' then Some(('\n', data[1..]))
    else if data[0] == 'r' then Some(('\r', data[1..]))
    else if data[0] == 't' then Some(('\t', data[1..]))
    else if data[0] == 'u' then
      var high := Hex4(data[1..]);
      if high.None? then None
      else if !(0xD800 <= high.value < 0xE000) then Some((high.value as char, data[5..]))
      else
        var low := if |data| >= 11 && data[5] == '\\' && data[6] == 'u' then Hex4(data[7..]) else None;
        if high.value < 0xDC00 && low.Some? && 0xDC00 <= low.value < 0xE000
        then Some(((0x10000 + (high.value - 0xD800) * 0x400 + (low.value - 0xDC00)) as char, data[11..]))
        else Some((REPLACEMENT, data[5..]))
    else None
  }

  /** What stands before the closing quote, and what follows it. */
  function ReadString(data: string): (r: Option<(string, string)>)
    ensures r.Some? ==> |r.value.1| < |data|
    decreases |data|
  {
    if data == [] || (data[0] as int) < 0x20 then None
    else if data[0] == '"' then Some(([], data[1..]))
    else if data[0] == '\\' then
      var u := Unescape(data[1..]);
      if u.None? then None else Prepend(u.value.0, ReadString(u.value.1))
    else Prepend(data[0], ReadString(data[1..]))
  }

  function Prepend(c: char, r: Option<(string, string)>): Option<(string, string)> {
    if r.None? then None else Some(([c] + r.value.0, r.value.1))
  }

  function SkipSpace(data: string): (r: string)
    ensures |r| <= |data|
  {
    if data != [] && data[0] in {' ', '\t', '\n', '\r'} then SkipSpace(data[1..]) else data
  }

  datatype Fields = Fields(state: string, summary: string, next: string)

  function Told(ts: TaskState): Fields {
    Fields(MarkerName(ts.marker), ts.summary, ts.next)
  }

  function With(f: Fields, key: string, value: string): Fields {
    if key == "state" then f.(state := value) else if key == "summary" then f.(summary := value)
    else if key == "next" then f.(next := value) else f
  }

  /** The members of an object up to its end, which must be the end of the text. */
  function ReadMembers(data: string, f: Fields): Option<Fields>
    decreases |data|
  {
    var d := SkipSpace(data);
    if d == [] || d[0] != '"' then None else
    var key := ReadString(d[1..]);
    if key.None? then None else
    var colon := SkipSpace(key.value.1);
    if colon == [] || colon[0] != ':' then None else
    var v := SkipSpace(colon[1..]);
    if v == [] || v[0] != '"' then None else
    var value := ReadString(v[1..]);
    if value.None? then None else
    var after, f1 := SkipSpace(value.value.1), With(f, key.value.0, value.value.0);
    if after == [] then None
    else if after[0] == ',' then ReadMembers(after[1..], f1)
    else if after[0] == '}' && SkipSpace(after[1..]) == [] then Some(f1)
    else None
  }

  function Decode(raw: string): Option<Fields> {
    var d := SkipSpace(raw);
    if d == [] || d[0] != '{' then None else
    var e := SkipSpace(d[1..]);
    if e != [] && e[0] == '}' then if SkipSpace(e[1..]) == [] then Some(Fields([], [], [])) else None
    else ReadMembers(e, Fields([], [], []))
  }

  // ---------------------------------------------------------------- finding the block

  predicate StartsAt(text: string, sub: string, p: nat) {
    p + |sub| <= |text| && text[p..p + |sub|] == sub
  }

  /** The last place at or before `p` where `sub` starts. */
  function LastIndex(text: string, sub: string, p: nat): (r: Option<nat>)
    ensures r.Some? ==> r.value <= p && StartsAt(text, sub, r.value)
    ensures r.Some? ==> forall q | r.value < q <= p :: !StartsAt(text, sub, q)
    ensures r.None? ==> forall q | 0 <= q <= p :: !StartsAt(text, sub, q)
  {
    if StartsAt(text, sub, p) then Some(p) else if p == 0 then None else LastIndex(text, sub, p - 1)
  }

  /** The first place at or after `p` where `sub` starts. */
  function Index(text: string, sub: string, p: nat): (r: Option<nat>)
    ensures r.Some? ==> p <= r.value && StartsAt(text, sub, r.value)
    ensures r.Some? ==> forall q | p <= q < r.value :: !StartsAt(text, sub, q)
    ensures r.None? ==> forall q | p <= q :: !StartsAt(text, sub, q)
    decreases if p <= |text| then |text| - p + 1 else 0
  {
    if StartsAt(text, sub, p) then Some(p) else if p >= |text| then None else Index(text, sub, p + 1)
  }

  predicate IsSpace(c: char) {
    var n := c as int;
    9 <= n <= 13 || n == 0x20 || n == 0x85 || n == 0xA0 || n == 0x1680 || 0x2000 <= n <= 0x200A
    || n == 0x2028 || n == 0x2029 || n == 0x202F || n == 0x205F || n == 0x3000
  }

  function TrimSpace(s: string): string
    decreases |s|
  {
    if s == [] then []
    else if IsSpace(s[0]) then TrimSpace(s[1..])
    else if IsSpace(s[|s| - 1]) then TrimSpace(s[..|s| - 1])
    else s
  }

  function ParseTaskState(text: string): Option<TaskState> {
    var start := LastIndex(text, OPEN, |text|);
    if start.None? then None else
    var rest := text[start.value + |OPEN|..];
    var end := Index(rest, CLOSE, 0);
    if end.None? then None else
    var f := Decode(TrimSpace(rest[..end.value]));
    if f.None? || MarkerOf(f.value.state).None? then None
    else Some(TaskState(MarkerOf(f.value.state).value, f.value.summary, f.value.next))
  }

  // ---------------------------------------------------------------- the reader reads exactly the grammar

  lemma HexExactly(c: char)
    ensures HexValue(c) == if IsHex(c) then Some(Digit(c)) else None
  {
  }

  lemma Hex4Exactly(data: string)
    ensures Hex4(data) ==
      if |data| >= 4 && WellSpelled(Unit(data[..4])) then Some(Code(data[..4])) else None
  {
    if |data| >= 4 {
      HexExactly(data[0]);
      HexExactly(data[1]);
      HexExactly(data[2]);
      HexExactly(data[3]);
      hide HexValue, Digit, IsHex;
    }
  }

  /** The low surrogate that the text goes on with, if it does. */
  function LowNext(rest: string): Option<nat> {
    var low := if |rest| >= 6 && rest[0] == '\\' && rest[1] == 'u' then Hex4(rest[2..]) else None;
    if low.Some? && 0xDC00 <= low.value < 0xE000 then low else None
  }

  lemma UnitRead(digits: string, rest: string)
    requires WellSpelled(Unit(digits))
    ensures var n, r := Code(digits), Unescape(['u'] + digits + rest);
      if !(0xD800 <= n < 0xE000) then r == Some((n as char, rest))
      else if n < 0xDC00 && LowNext(rest).Some?
      then r == Some((Joined(n, LowNext(rest).value), rest[6..]))
      else r == Some((REPLACEMENT, rest))
  {
    var data := ['u'] + digits + rest;
    assert data[1..][..4] == digits && data[5..] == rest;
    if |rest| >= 6 {
      assert data[7..] == rest[2..] && data[11..] == rest[6..] && data[5] == rest[0] && data[6] == rest[1];
    }
    Hex4Exactly(data[1..]);
    hide Hex4, Code, WellSpelled;
  }

  /** The pieces of a string, its closing quote, and what follows it. */
  function Closed(ps: seq<Piece>, more: string): string {
    Spelled(ps) + (['"'] + more)
  }

  lemma ClosedMore(ps: seq<Piece>, more: string)
    requires ps != []
    ensures Closed(ps, more) == Spelling(ps[0]) + Closed(ps[1..], more)
  {
    hide Spelling;
    var a, b, c := Spelling(ps[0]), Spelled(ps[1..]), ['"'] + more;
    assert (a + b) + c == a + (b + c);
  }

  lemma ClosedStarts(ps: seq<Piece>, more: string)
    requires AllSpelled(ps)
    ensures ps == [] || ps[0].Plain? ==> Closed(ps, more) != [] && Closed(ps, more)[0] != '\\'
  {
    if ps != [] { assert WellSpelled(ps[0]); }
  }

  /** What follows a high surrogate in a spelled string is a low one exactly if the next piece is. */
  lemma LowPiece(ps: seq<Piece>, more: string)
    requires AllSpelled(ps)
    ensures var rest := Closed(ps, more);
      if ps != [] && IsLow(ps[0])
      then LowNext(rest) == Some(Code(ps[0].digits)) && rest[6..] == Closed(ps[1..], more)
      else LowNext(rest).None?
  {
    var rest := Closed(ps, more);
    ClosedStarts(ps, more);
    if ps != [] {
      assert WellSpelled(ps[0]);
      ClosedMore(ps, more);
      var tail := Closed(ps[1..], more);
      hide Closed, AllSpelled;
      if ps[0].Unit? {
        assert rest[2..] == ps[0].digits + tail && rest[2..][..4] == ps[0].digits && rest[6..] == tail;
        Hex4Exactly(rest[2..]);
      }
      hide Hex4, Code, WellSpelled;
    }
  }

  lemma FewerSpelled(ps: seq<Piece>, k: nat)
    requires AllSpelled(ps) && k <= |ps|
    ensures AllSpelled(ps[k..])
  {
  }

  lemma ShortRead(letter: char, rest: string)
    requires letter in SHORT_LETTERS
    ensures Unescape([letter] + rest) == Some((Sign(letter), rest))
  {
    assert ([letter] + rest)[1..] == rest;
  }

  /** One step of the reader. */
  lemma EscapeStep(rest: string)
    ensures var u := Unescape(rest);
      ReadString(['\\'] + rest) == if u.None? then None else Prepend(u.value.0, ReadString(u.value.1))
  {
    assert (['\\'] + rest)[1..] == rest;
    hide Unescape;
  }

  lemma PlainStep(c: char, rest: string)
    requires WellSpelled(Plain(c))
    ensures ReadString([c] + rest) == Prepend(c, ReadString(rest))
  {
    assert ([c] + rest)[1..] == rest;
    hide Unescape;
  }

  /** The pieces are read back from a closed text. */
  ghost predicate ReadsBack(ps: seq<Piece>, more: string) {
    AllSpelled(ps) && ReadString(Closed(ps, more)) == Some((Meaning(ps), more))
  }

  lemma MeaningMore(ps: seq<Piece>)
    requires AllSpelled(ps) && ps != [] && AllSpelled(ps[1..])
    ensures ps[0].Plain? ==> Meaning(ps) == [ps[0].c] + Meaning(ps[1..])
    ensures ps[0].Short? ==> Meaning(ps) == [Sign(ps[0].letter)] + Meaning(ps[1..])
    ensures ps[0].Unit? && !(IsHigh(ps[0]) && |ps| > 1 && IsLow(ps[1])) ==>
      var n := Code(ps[0].digits);
      Meaning(ps) == [if 0xD800 <= n < 0xE000 then REPLACEMENT else n as char] + Meaning(ps[1..])
    ensures IsHigh(ps[0]) && |ps| > 1 && IsLow(ps[1]) && AllSpelled(ps[2..]) ==>
      Meaning(ps) == [Joined(Code(ps[0].digits), Code(ps[1].digits))] + Meaning(ps[2..])
  {
    hide Code, WellSpelled, Sign;
  }

  lemma FirstSpelled(ps: seq<Piece>)
    requires AllSpelled(ps) && ps != []
    ensures WellSpelled(ps[0]) && AllSpelled(ps[1..]) && (|ps| > 1 ==> WellSpelled(ps[1]) && AllSpelled(ps[2..]))
  {
  }

  /** How the reader goes over the code unit that the text starts with. */
  lemma UnitStep(digits: string, rest: string)
    requires WellSpelled(Unit(digits))
    ensures var n, r := Code(digits), ReadString(Spelling(Unit(digits)) + rest);
      if !(0xD800 <= n < 0xE000) then r == Prepend(n as char, ReadString(rest))
      else if n < 0xDC00 && LowNext(rest).Some?
      then r == Prepend(Joined(n, LowNext(rest).value), ReadString(rest[6..]))
      else r == Prepend(REPLACEMENT, ReadString(rest))
  {
    assert Spelling(Unit(digits)) + rest == ['\\'] + (['u'] + digits + rest);
    hide Unescape, LowNext, Code, ReadString, WellSpelled, Spelling, Joined;
    EscapeStep(['u'] + digits + rest);
    UnitRead(digits, rest);
  }

  lemma UnitReadBack(ps: seq<Piece>, more: string)
    requires AllSpelled(ps) && ps != [] && ps[0].Unit? && ReadsBack(ps[1..], more)
    requires |ps| > 1 ==> ReadsBack(ps[2..], more)
    ensures ReadsBack(ps, more)
  {
    FirstSpelled(ps);
    hide Closed, Meaning, AllSpelled, ReadString, Code, WellSpelled, Spelling, LowNext, Joined;
    ClosedMore(ps, more);
    MeaningMore(ps);
    if |ps| > 1 { assert ps[1..][1..] == ps[2..] && ps[1..][0] == ps[1]; }
    UnitStep(ps[0].digits, Closed(ps[1..], more));
    LowPiece(ps[1..], more);
  }

  lemma OtherReadBack(ps: seq<Piece>, more: string)
    requires AllSpelled(ps) && ps != [] && !ps[0].Unit? && ReadsBack(ps[1..], more)
    ensures ReadsBack(ps, more)
  {
    var p, tail := ps[0], Closed(ps[1..], more);
    FirstSpelled(ps);
    hide Closed, Meaning, AllSpelled, Unescape, ReadString;
    ClosedMore(ps, more);
    MeaningMore(ps);
    OtherStep(p, tail);
    hide Spelling, WellSpelled, Sign;
  }

  lemma OtherStep(p: Piece, rest: string)
    requires WellSpelled(p) && !p.Unit?
    ensures ReadString(Spelling(p) + rest) == Prepend(if p.Plain? then p.c else Sign(p.letter), ReadString(rest))
  {
    hide Unescape, ReadString, Sign;
    if p.Plain? {
      PlainStep(p.c, rest);
    } else {
      assert Spelling(p) + rest == ['\\'] + ([p.letter] + rest);
      EscapeStep([p.letter] + rest);
      ShortRead(p.letter, rest);
    }
  }

  /** A string is read back as what its pieces stand for, however it is spelled. */
  lemma {:induction false} PiecesReadBack(ps: seq<Piece>, more: string)
    requires AllSpelled(ps)
    ensures ReadsBack(ps, more)
    decreases |ps|
  {
    if ps == [] {
      assert Closed(ps, more) == ['"'] + more;
      assert (['"'] + more)[1..] == more;
    } else {
      FewerSpelled(ps, 1);
      PiecesReadBack(ps[1..], more);
      if |ps| > 1 {
        FewerSpelled(ps, 2);
        PiecesReadBack(ps[2..], more);
      }
      hide ReadsBack, AllSpelled;
      if ps[0].Unit? { UnitReadBack(ps, more); } else { OtherReadBack(ps, more); }
    }
  }

  /** The pieces spell the text up to its closing quote, and stand for what is read from it. */
  ghost predicate Spells(ps: seq<Piece>, data: string) {
    && ReadString(data).Some? && AllSpelled(ps)
    && data == Closed(ps, ReadString(data).value.1) && Meaning(ps) == ReadString(data).value.0
  }

  lemma MoreSpelled(p: Piece, qs: seq<Piece>)
    requires WellSpelled(p) && AllSpelled(qs)
    ensures AllSpelled([p] + qs)
  {
  }

  /** One more piece in front of what is spelled already. */
  lemma SpellsMore(data: string, p: Piece, c: char, qs: seq<Piece>, rest: string)
    requires WellSpelled(p) && Spells(qs, rest) && data == Spelling(p) + rest
      && ReadString(data) == Prepend(c, ReadString(rest))
    requires p.Plain? ==> c == p.c
    requires p.Short? ==> c == Sign(p.letter)
    requires p.Unit? ==>
      var n := Code(p.digits);
      !(IsHigh(p) && qs != [] && AllSpelled(qs) && IsLow(qs[0]))
        && c == if 0xD800 <= n < 0xE000 then REPLACEMENT else n as char
    ensures Spells([p] + qs, data)
  {
    var ps := [p] + qs;
    assert ps[1..] == qs && ps[0] == p;
    MoreSpelled(p, qs);
    MeaningMore(ps);
    if qs != [] { assert ps[1] == qs[0]; }
    hide AllSpelled, WellSpelled, Meaning, Code, Sign, ReadString;
    ClosedMore(ps, ReadString(data).value.1);
    hide Closed, Spelling;
  }

  /** Whatever is read as a string is spelled in the grammar. */
  lemma {:induction false} ReadPieces(data: string) returns (ps: seq<Piece>)
    requires ReadString(data).Some?
    ensures Spells(ps, data)
    decreases |data|, 2
  {
    if data[0] == '"' {
      ps := [];
      assert data == ['"'] + data[1..];
      assert Closed([], data[1..]) == ['"'] + data[1..];
    } else {
      assert data == [data[0]] + data[1..];
      hide Spells;
      if data[0] == '\\' {
        EscapeStep(data[1..]);
        hide ReadString;
        if data[1] == 'u' { ps := ReadUnit(data); } else { ps := ReadShort(data); }
      } else {
        PlainStep(data[0], data[1..]);
        hide Unescape, ReadString;
        var qs := ReadPieces(data[1..]);
        SpellsMore(data, Plain(data[0]), data[0], qs, data[1..]);
        ps := [Plain(data[0])] + qs;
      }
    }
  }

  lemma ReadShort(data: string) returns (ps: seq<Piece>)
    requires |data| > 1 && data[0] == '\\' && data[1] != 'u' && ReadString(data).Some?
    ensures Spells(ps, data)
    decreases |data|, 1
  {
    var p := Short(data[1]);
    assert data == ['\\'] + data[1..] && data[1..] == [data[1]] + data[2..] && data == Spelling(p) + data[2..];
    EscapeStep(data[1..]);
    assert p.letter in SHORT_LETTERS && Unescape(data[1..]) == Some((Sign(p.letter), data[2..]));
    hide Unescape, ReadString, Spells;
    var qs := ReadPieces(data[2..]);
    SpellsMore(data, p, Sign(p.letter), qs, data[2..]);
    ps := [p] + qs;
  }

  lemma ReadUnit(data: string) returns (ps: seq<Piece>)
    requires |data| > 1 && data[0] == '\\' && data[1] == 'u' && ReadString(data).Some?
    ensures Spells(ps, data)
    decreases |data|, 1
  {
    assert data == ['\\'] + data[1..];
    EscapeStep(data[1..]);
    assert Unescape(data[1..]).Some?;
    Hex4Exactly(data[1..][1..]);
    assert data[1..][1..] == data[2..];
    var digits, rest := data[2..6], data[6..];
    var p := Unit(digits);
    assert data[2..][..4] == digits && data[1..] == ['u'] + digits + rest && data == Spelling(p) + rest;
    UnitRead(digits, rest);
    hide Unescape, ReadString, Spells;
    if IsHigh(p) && LowNext(rest).Some? {
      hide Code, Joined;
      ps := ReadTwo(data, p, rest);
    } else {
      var qs := ReadPieces(rest);
      NotLow(qs, rest);
      hide LowNext;
      SpellsMore(data, p, if 0xD800 <= Code(digits) < 0xE000 then REPLACEMENT else Code(digits) as char, qs, rest);
      ps := [p] + qs;
    }
  }

  lemma NotLow(qs: seq<Piece>, rest: string)
    requires Spells(qs, rest)
    ensures AllSpelled(qs) && (LowNext(rest).None? ==> !(qs != [] && IsLow(qs[0])))
  {
    LowPiece(qs, ReadString(rest).value.1);
    hide Closed, LowNext, Code, Meaning, ReadString;
  }

  lemma ReadTwo(data: string, p: Piece, rest: string) returns (ps: seq<Piece>)
    requires WellSpelled(p) && IsHigh(p) && LowNext(rest).Some? && data == Spelling(p) + rest && |rest| >= 6
    requires ReadString(data).Some?
    requires ReadString(data) == Prepend(Joined(Code(p.digits), LowNext(rest).value), ReadString(rest[6..]))
    ensures Spells(ps, data)
    decreases |rest|, 3
  {
    Hex4Exactly(rest[2..]);
    var low := Unit(rest[2..6]);
    assert rest[2..][..4] == low.digits && rest == Spelling(low) + rest[6..];
    assert WellSpelled(low) && IsLow(low) && LowNext(rest) == Some(Code(low.digits));
    hide LowNext, Hex4, ReadString;
    var qs := ReadPieces(rest[6..]);
    ps := [p] + ([low] + qs);
    TwoSpell(data, p, low, qs, rest, rest[6..]);
  }

  lemma TwoSpell(data: string, p: Piece, low: Piece, qs: seq<Piece>, rest: string, tail: string)
    requires WellSpelled(p) && IsHigh(p) && WellSpelled(low) && IsLow(low) && Spells(qs, tail)
    requires data == Spelling(p) + rest && rest == Spelling(low) + tail
    requires ReadString(data) == Prepend(Joined(Code(p.digits), Code(low.digits)), ReadString(tail))
    ensures Spells([p] + ([low] + qs), data)
  {
    var ps, lows := [p] + ([low] + qs), [low] + qs;
    assert ps[1..] == lows && ps[0] == p && ps[1] == low && ps[2..] == qs && lows[1..] == qs;
    MoreSpelled(low, qs);
    MoreSpelled(p, lows);
    MeaningMore(ps);
    hide AllSpelled, WellSpelled, Meaning, Code, Joined, ReadString;
    ClosedMore(ps, ReadString(data).value.1);
    ClosedMore(lows, ReadString(data).value.1);
    hide Closed, Spelling;
  }

  predicate IsWhite(c: char) {
    c in {' ', '\t', '\n', '\r'}
  }

  lemma {:induction false} SkipsWhite(w: string, rest: string)
    requires White(w) && (rest == [] || !IsWhite(rest[0]))
    ensures SkipSpace(w + rest) == rest
  {
    if w == [] {
      assert w + rest == rest;
    } else {
      SkipsWhite(w[1..], rest);
      assert (w + rest)[1..] == w[1..] + rest;
    }
  }

  /** What is skipped is white space, and what is left starts with none. */
  lemma {:induction false} SkippedWhite(data: string) returns (w: string)
    ensures White(w) && data == w + SkipSpace(data)
    ensures SkipSpace(data) == [] || !IsWhite(SkipSpace(data)[0])
  {
    if data != [] && IsWhite(data[0]) {
      var v := SkippedWhite(data[1..]);
      w := [data[0]] + v;
      assert data == [data[0]] + data[1..];
    } else {
      w := [];
    }
  }

  /** A token with white space before it. */
  lemma TokenAfter(w: string, token: char, rest: string)
    requires White(w) && !IsWhite(token)
    ensures var d := SkipSpace(w + ([token] + rest)); d != [] && d[0] == token && d[1..] == rest
  {
    SkipsWhite(w, [token] + rest);
    assert ([token] + rest)[1..] == rest;
  }

  /** A string and the white space before it, up to what follows its closing quote. */
  function SpacedString(w: string, ps: seq<Piece>, more: string): string {
    w + (['"'] + Closed(ps, more))
  }

  lemma QuotedReadBack(w: string, ps: seq<Piece>, more: string)
    requires White(w) && AllSpelled(ps)
    ensures var d := SkipSpace(SpacedString(w, ps, more));
      d != [] && d[0] == '"' && ReadString(d[1..]) == Some((Meaning(ps), more))
  {
    hide Closed, ReadString, Meaning, AllSpelled, White;
    TokenAfter(w, '"', Closed(ps, more));
    PiecesReadBack(ps, more);
  }

  /** A string that is read after white space. */
  lemma ReadQuoted(data: string) returns (w: string, ps: seq<Piece>)
    requires var d := SkipSpace(data); d != [] && d[0] == '"' && ReadString(d[1..]).Some?
    ensures var r := ReadString(SkipSpace(data)[1..]).value;
      White(w) && AllSpelled(ps) && data == SpacedString(w, ps, r.1) && Meaning(ps) == r.0
  {
    var d := SkipSpace(data);
    w := SkippedWhite(data);
    assert d == ['"'] + d[1..];
    hide SkipSpace, ReadString, White, AllSpelled, Meaning;
    ps := ReadPieces(d[1..]);
    hide Closed;
  }

  /** One member, as it stands in the text before `more`. */
  function Placed(m: Pair, more: string): string {
    SpacedString(m.a, m.key, m.b + ([':'] + SpacedString(m.c, m.value, m.d + more)))
  }

  lemma PlacedIs(m: Pair, more: string)
    ensures Placed(m, more) == PairText(m) + more
  {
    hide Spelled;
    var a, k, b, c, v, d := m.a, InQuotes(m.key), m.b, m.c, InQuotes(m.value), m.d;
    assert Closed(m.key, b + ([':'] + SpacedString(c, m.value, d + more)))
        == Spelled(m.key) + ['"'] + (b + ([':'] + SpacedString(c, m.value, d + more)));
    assert SpacedString(c, m.value, d + more) == c + v + d + more;
    assert Placed(m, more) == a + k + (b + ([':'] + (c + v + d + more)));
    assert a + k + (b + ([':'] + (c + v + d + more))) == (a + k + b + [':'] + c + v + d) + more;
  }

  /** A member is read back, and what follows it decides how the object goes on. */
  lemma PairReadBack(m: Pair, mark: char, rest: string, f: Fields)
    requires WellFormed(m) && mark in {',', '}'}
    ensures ReadMembers(Placed(m, [mark] + rest), f) ==
      var f1 := With(f, Meaning(m.key), Meaning(m.value));
      if mark == ',' then ReadMembers(rest, f1) else if SkipSpace(rest) == [] then Some(f1) else None
  {
    hide ReadString, Meaning, AllSpelled, White, SpacedString, SkipSpace, With;
    var second := SpacedString(m.c, m.value, m.d + ([mark] + rest));
    QuotedReadBack(m.a, m.key, m.b + ([':'] + second));
    TokenAfter(m.b, ':', second);
    QuotedReadBack(m.c, m.value, m.d + ([mark] + rest));
    TokenAfter(m.d, mark, rest);
  }

  /** The members' values put into the fields, one after another. */
  function AllWith(ms: seq<Pair>, f: Fields): Fields
    requires AllFormed(ms)
  {
    if ms == [] then f else AllWith(ms[1..], With(f, Meaning(ms[0].key), Meaning(ms[0].value)))
  }

  /** The members of an object up to its end, and the white space after it. */
  function Members(ms: seq<Pair>, after: string): string
    requires ms != []
  {
    if |ms| == 1 then Placed(ms[0], ['}'] + after) else Placed(ms[0], [','] + Members(ms[1..], after))
  }

  lemma {:induction false} MembersAre(ms: seq<Pair>, after: string)
    requires ms != []
    ensures Members(ms, after) == PairsText(ms) + (['}'] + after)
  {
    hide Placed, PairText;
    if |ms| == 1 {
      PlacedIs(ms[0], ['}'] + after);
    } else {
      MembersAre(ms[1..], after);
      PlacedIs(ms[0], [','] + Members(ms[1..], after));
      var a, b, c := PairText(ms[0]), PairsText(ms[1..]), ['}'] + after;
      assert a + ([','] + (b + c)) == (a + [','] + b) + c;
    }
  }

  lemma {:induction false} MembersReadBack(ms: seq<Pair>, after: string, f: Fields)
    requires ms != [] && AllFormed(ms) && White(after)
    ensures ReadMembers(Members(ms, after), f) == Some(AllWith(ms, f))
    decreases |ms|
  {
    assert WellFormed(ms[0]);
    hide ReadMembers, WellFormed, With, Placed, White;
    if |ms| == 1 {
      PairReadBack(ms[0], '}', after, f);
      SkipsWhite(after, []);
      assert after + [] == after;
    } else {
      PairReadBack(ms[0], ',', Members(ms[1..], after), f);
      MembersReadBack(ms[1..], after, With(f, Meaning(ms[0].key), Meaning(ms[0].value)));
    }
  }

  /** The text starts, after white space, with a string; what that is and what follows it. */
  predicate StringFirst(data: string) {
    var d := SkipSpace(data);
    d != [] && d[0] == '"' && ReadString(d[1..]).Some?
  }

  function AfterString(data: string): string
    requires StringFirst(data)
  {
    SkipSpace(ReadString(SkipSpace(data)[1..]).value.1)
  }

  lemma MemberParts(data: string, f: Fields)
    requires ReadMembers(data, f).Some?
    ensures StringFirst(data)
    ensures var colon := AfterString(data);
      && colon != [] && colon[0] == ':' && StringFirst(colon[1..])
      && AfterString(colon[1..]) != [] && AfterString(colon[1..])[0] in {',', '}'}
  {
    hide SkipSpace, ReadString, With;
  }

  /** Whatever is read as a member stands in the text as one. */
  lemma ReadPair(data: string, f: Fields) returns (m: Pair, mark: char, rest: string)
    requires ReadMembers(data, f).Some?
    ensures WellFormed(m) && AllSpelled(m.key) && AllSpelled(m.value)
    ensures mark in {',', '}'} && data == Placed(m, [mark] + rest)
  {
    MemberParts(data, f);
    hide ReadMembers, ReadString, Meaning, AllSpelled, White, SpacedString, SkipSpace;
    var colon := AfterString(data);
    var end := AfterString(colon[1..]);
    var a, ks := ReadQuoted(data);
    var b := SkippedWhite(ReadString(SkipSpace(data)[1..]).value.1);
    var c, vs := ReadQuoted(colon[1..]);
    var d := SkippedWhite(ReadString(SkipSpace(colon[1..])[1..]).value.1);
    assert colon == [':'] + colon[1..] && end == [end[0]] + end[1..];
    m, mark, rest := Pair(a, ks, b, c, vs, d), end[0], end[1..];
  }

  lemma {:induction false} ReadAllMembers(data: string, f: Fields) returns (ms: seq<Pair>, after: string)
    requires ReadMembers(data, f).Some?
    ensures ms != [] && AllFormed(ms) && White(after) && data == Members(ms, after)
    decreases |data|
  {
    hide ReadMembers, WellFormed, Placed, SkipSpace;
    var m, mark, rest := ReadPair(data, f);
    PairReadBack(m, mark, rest, f);
    PlacedIs(m, [mark] + rest);
    if mark == ',' {
      var more, end := ReadAllMembers(rest, With(f, Meaning(m.key), Meaning(m.value)));
      ms, after := [m] + more, end;
      assert ms[1..] == more;
    } else {
      var w := SkippedWhite(rest);
      assert w + [] == w;
      ms, after := [m], w;
    }
  }

  // ---------------------------------------------------------------- objects

  /** What the last members under the three keys say. */
  function FieldsOf(ms: seq<Pair>): Fields
    requires AllFormed(ms)
  {
    Fields(TextUnder(ms, "state"), TextUnder(ms, "summary"), TextUnder(ms, "next"))
  }

  lemma {:induction false} AllWithLast(ms: seq<Pair>, f: Fields)
    requires ms != [] && AllFormed(ms)
    ensures AllFormed(ms[..|ms| - 1])
    ensures AllWith(ms, f) ==
      With(AllWith(ms[..|ms| - 1], f), Meaning(ms[|ms| - 1].key), Meaning(ms[|ms| - 1].value))
    decreases |ms|
  {
    hide With, Meaning;
    var most := ms[..|ms| - 1];
    assert WellFormed(ms[0]);
    if |ms| > 1 {
      AllWithLast(ms[1..], With(f, Meaning(ms[0].key), Meaning(ms[0].value)));
      assert ms[1..][..|ms| - 2] == most[1..] && most[0] == ms[0] && ms[1..][|ms| - 2] == ms[|ms| - 1];
    } else {
      assert most == [] && ms[1..] == [];
    }
  }

  lemma {:induction false} AllWithIs(ms: seq<Pair>)
    requires AllFormed(ms)
    ensures AllWith(ms, Fields([], [], [])) == FieldsOf(ms)
    decreases |ms|
  {
    if ms != [] {
      AllWithLast(ms, Fields([], [], []));
      AllWithIs(ms[..|ms| - 1]);
      hide AllWith, Meaning, AllFormed;
    }
  }

  /** The text is an object's, with white space around it. */
  ghost predicate Denotes(raw: string, f: Fields) {
    exists a: string, o: Object, b: string ::
      White(a) && IsObject(o) && White(b) && raw == a + ObjectText(o) + b && FieldsOf(o.members) == f
  }

  lemma Between(a: string, o: Object, b: string)
    ensures var inner := if o.members == [] then o.inside else PairsText(o.members);
      a + ObjectText(o) + b == a + (['{'] + (inner + (['}'] + b)))
  {
    hide PairsText;
    var inner := if o.members == [] then o.inside else PairsText(o.members);
    assert ObjectText(o) + b == ['{'] + (inner + (['}'] + b));
    assert a + ObjectText(o) + b == a + (ObjectText(o) + b);
  }

  /** One step of the decoder. */
  lemma DecodeStep(a: string, rest: string)
    requires White(a)
    ensures Decode(a + (['{'] + rest)) ==
      var e := SkipSpace(rest);
      if e != [] && e[0] == '}' then if SkipSpace(e[1..]) == [] then Some(Fields([], [], [])) else None
      else ReadMembers(e, Fields([], [], []))
  {
    TokenAfter(a, '{', rest);
    hide SkipSpace, ReadMembers, White;
  }

  lemma ObjectReadBack(a: string, o: Object, b: string)
    requires White(a) && IsObject(o) && White(b)
    ensures Decode(a + ObjectText(o) + b) == Some(FieldsOf(o.members))
  {
    hide ReadMembers, White, AllFormed, FieldsOf, AllWith, SkipSpace, Decode, ObjectText, PairsText;
    var ms := o.members;
    AllWithIs(ms);
    Between(a, o, b);
    if ms == [] {
      DecodeStep(a, o.inside + (['}'] + b));
      TokenAfter(o.inside, '}', b);
      SkipsWhite(b, []);
      assert b + [] == b;
      NothingUnder();
    } else {
      MembersAre(ms, b);
      DecodeStep(a, Members(ms, b));
      MembersReadBack(ms, b, Fields([], [], []));
      MembersGoOn(Members(ms, b), Fields([], [], []));
    }
  }

  lemma NothingUnder()
    ensures AllFormed([]) && FieldsOf([]) == Fields([], [], [])
  {
  }

  /** Members start with a quote, after white space that does not matter. */
  lemma MembersGoOn(data: string, f: Fields)
    requires ReadMembers(data, f).Some?
    ensures SkipSpace(data) != [] && SkipSpace(data)[0] == '"'
    ensures ReadMembers(SkipSpace(data), f) == ReadMembers(data, f)
  {
    var w := SkippedWhite(data);
    SkipsWhite([], SkipSpace(data));
    assert [] + SkipSpace(data) == SkipSpace(data);
    hide ReadString, With;
  }

  lemma MembersGoBack(data: string, f: Fields)
    requires ReadMembers(SkipSpace(data), f).Some?
    ensures ReadMembers(data, f) == ReadMembers(SkipSpace(data), f)
  {
    var w := SkippedWhite(data);
    SkipsWhite([], SkipSpace(data));
    assert [] + SkipSpace(data) == SkipSpace(data);
    hide ReadString, With;
  }

  lemma Witnessed(a: string, o: Object, b: string)
    requires White(a) && IsObject(o) && White(b)
    ensures Denotes(a + ObjectText(o) + b, FieldsOf(o.members))
  {
    hide White, IsObject, ObjectText, FieldsOf;
  }

  lemma ReadObject(raw: string)
    requires Decode(raw).Some?
    ensures Denotes(raw, Decode(raw).value)
  {
    var a := SkippedWhite(raw);
    var d := SkipSpace(raw);
    assert d != [] && d[0] == '{' && d == ['{'] + d[1..];
    hide SkipSpace, White, Decode;
    DecodeStep(a, d[1..]);
    if SkipSpace(d[1..]) != [] && SkipSpace(d[1..])[0] == '}' {
      ReadNone(a, d[1..], raw);
    } else {
      ReadSome(a, d[1..], raw);
    }
  }

  lemma ReadNone(a: string, rest: string, raw: string)
    requires White(a) && raw == a + (['{'] + rest)
    requires var e := SkipSpace(rest); e != [] && e[0] == '}' && SkipSpace(e[1..]) == []
    ensures Denotes(raw, Fields([], [], []))
  {
    var e := SkipSpace(rest);
    var w := SkippedWhite(rest);
    var b := SkippedWhite(e[1..]);
    assert e == ['}'] + e[1..] && b + [] == b;
    NothingUnder();
    hide SkipSpace, White, Denotes, FieldsOf, ObjectText, AllFormed;
    var o := Object(w, []);
    Between(a, o, b);
    Witnessed(a, o, b);
  }

  lemma ReadSome(a: string, rest: string, raw: string)
    requires White(a) && raw == a + (['{'] + rest) && ReadMembers(SkipSpace(rest), Fields([], [], [])).Some?
    ensures Denotes(raw, ReadMembers(SkipSpace(rest), Fields([], [], [])).value)
  {
    hide SkipSpace, White, Denotes, FieldsOf, ObjectText, AllFormed, ReadMembers, PairsText, AllWith;
    MembersGoBack(rest, Fields([], [], []));
    var ms, b := ReadAllMembers(rest, Fields([], [], []));
    MembersAre(ms, b);
    MembersReadBack(ms, b, Fields([], [], []));
    AllWithIs(ms);
    var o := Object([], ms);
    NoSpace();
    Between(a, o, b);
    Witnessed(a, o, b);
  }

  lemma NoSpace()
    ensures White([])
  {
  }

  /** The decoder accepts exactly the texts of objects, whatever their spelling, and gives what their members say. */
  lemma DecodesExactly(raw: string, f: Fields)
    ensures Decode(raw) == Some(f) <==> Denotes(raw, f)
  {
    hide Decode;
    if Decode(raw).Some? { ReadObject(raw); }
    if Denotes(raw, f) {
      var a: string, o: Object, b: string :|
        White(a) && IsObject(o) && White(b) && raw == a + ObjectText(o) + b && FieldsOf(o.members) == f;
      ObjectReadBack(a, o, b);
    }
  }

  // ---------------------------------------------------------------- what is printed is an object

  /** The piece as which the printer writes the character. */
  function PieceFor(c: char): Piece {
    if c == '"' || c == '\\' then Short(c)
    else if c as int == 8 then Short('b')
    else if c as int == 12 then Short('f')
    else if c == '\n' then Short('n')
    else if c == '\r' then Short('r')
    else if c == '\t' then Short('t')
    else if c as int < 0x20 || c in {'<', '>', '&'} || c as int in {0x2028, 0x2029}
    then Unit(UnicodeEscape(c as int)[2..]) else Plain(c)
  }

  function PiecesFor(s: string): seq<Piece> {
    if s == [] then [] else [PieceFor(s[0])] + PiecesFor(s[1..])
  }

  lemma HexSum(n: nat)
    requires n < 0x10000
    ensures n / 0x1000 < 16
    ensures ((n / 0x1000 * 16 + n / 0x100 % 0x10) * 16 + n / 0x10 % 0x10) * 16 + n % 0x10 == n
  {
  }

  lemma UnicodeIs(n: nat)
    requires n < 0x10000
    ensures var digits := UnicodeEscape(n)[2..];
      WellSpelled(Unit(digits)) && Code(digits) == n && Spelling(Unit(digits)) == UnicodeEscape(n)
  {
    HexSum(n);
  }

  lemma PieceIs(c: char)
    ensures var p := PieceFor(c);
      && WellSpelled(p) && Spelling(p) == Escape(c) && Meaning([p]) == [c]
      && (p.Unit? ==> Code(p.digits) == c as int)
  {
    if c as int < 0x10000 { UnicodeIs(c as int); }
    hide UnicodeEscape, Code;
  }

  /** A printed string is one of the ways to spell it. */
  lemma {:induction false} PiecesAre(s: string)
    ensures AllSpelled(PiecesFor(s)) && Spelled(PiecesFor(s)) == Quoted(s) && Meaning(PiecesFor(s)) == s
  {
    if s != [] {
      var p, ps := PieceFor(s[0]), PiecesFor(s[1..]);
      PieceIs(s[0]);
      PiecesAre(s[1..]);
      MoreSpelled(p, ps);
      assert ([p] + ps)[1..] == ps && [s[0]] + s[1..] == s;
      MeaningMore([p] + ps);
      hide Escape, PieceFor, Spelling, Code;
    }
  }

  /** Any string, printed and closed by a quote, is read back with what follows it. */
  lemma QuotedRoundTrip(s: string, more: string)
    ensures ReadString(Quoted(s) + ['"'] + more) == Some((s, more))
  {
    PiecesAre(s);
    PiecesReadBack(PiecesFor(s), more);
    hide Quoted, Spelled, ReadString;
    assert Quoted(s) + ['"'] + more == Closed(PiecesFor(s), more);
  }

  function PairFor(key: string, value: string): Pair {
    Pair([], PiecesFor(key), [], [], PiecesFor(value), [])
  }

  lemma PairIs(key: string, value: string)
    ensures var m := PairFor(key, value);
      WellFormed(m) && PairText(m) == Member(key, value) && AllSpelled(m.key) && AllSpelled(m.value)
        && Meaning(m.key) == key && Meaning(m.value) == value
  {
    PiecesAre(key);
    PiecesAre(value);
    NoSpace();
    hide Spelled, Quoted, PiecesFor;
    assert InQuotes(PiecesFor(key)) == ['"'] + Quoted(key) + ['"'];
    assert InQuotes(PiecesFor(value)) == ['"'] + Quoted(value) + ['"'];
  }

  /** The printed state is an object's text, with these three fields. */
  lemma PrintedIsObject(ts: TaskState) returns (o: Object)
    ensures IsObject(o) && Encode(ts) == ObjectText(o) && FieldsOf(o.members) == Told(ts)
  {
    var a, b := PairFor("state", MarkerName(ts.marker)), PairFor("summary", ts.summary);
    var c := PairFor("next", ts.next);
    PairIs("state", MarkerName(ts.marker));
    PairIs("summary", ts.summary);
    PairIs("next", ts.next);
    NoSpace();
    hide PairFor, PairText, Member, Meaning, WellFormed, MarkerName;
    o := Object([], [a, b, c]);
    assert AllFormed(o.members);
    ThreeTexts(a, b, c);
    ThreeFields(a, b, c);
    assert Encode(ts) == ObjectText(o);
  }

  lemma ThreeTexts(a: Pair, b: Pair, c: Pair)
    ensures PairsText([a, b, c]) == PairText(a) + "," + PairText(b) + "," + PairText(c)
  {
    hide PairText;
    assert [a, b, c][1..] == [b, c] && [b, c][1..] == [c];
    assert PairsText([b, c]) == PairText(b) + "," + PairText(c);
  }

  lemma ThreeFields(a: Pair, b: Pair, c: Pair)
    requires AllFormed([a, b, c]) && AllSpelled(a.key) && AllSpelled(b.key) && AllSpelled(c.key)
    requires AllSpelled(a.value) && AllSpelled(b.value) && AllSpelled(c.value)
    requires Meaning(a.key) == "state" && Meaning(b.key) == "summary" && Meaning(c.key) == "next"
    ensures FieldsOf([a, b, c]) == Fields(Meaning(a.value), Meaning(b.value), Meaning(c.value))
  {
    var none := Fields([], [], []);
    AllWithIs([a, b, c]);
    assert [a, b, c][1..] == [b, c] && [b, c][1..] == [c] && [c][1..] == [];
    assert AllFormed([b, c]) && AllFormed([c]) && AllFormed([]);
    hide Meaning, FieldsOf, AllFormed;
    var f1 := none.(state := Meaning(a.value));
    var f2 := f1.(summary := Meaning(b.value));
    assert AllWith([a, b, c], none) == AllWith([b, c], f1);
    assert AllWith([b, c], f1) == AllWith([c], f2);
    assert AllWith([c], f2) == f2.(next := Meaning(c.value));
  }

  lemma DecodeEncoded(ts: TaskState)
    ensures Decode(Encode(ts)) == Some(Told(ts))
  {
    var o := PrintedIsObject(ts);
    NoSpace();
    hide ObjectText, Encode, Decode, IsObject, FieldsOf, Told;
    ObjectReadBack([], o, []);
    assert [] + ObjectText(o) + [] == ObjectText(o);
  }

  // ---------------------------------------------------------------- the block is found

  predicate Tagless(s: string) {
    forall i | 0 <= i < |s| :: s[i] != '<'
  }

  lemma EscapeTagless(c: char)
    ensures Tagless(Escape(c))
  {
  }

  /** No printed string holds an angle bracket, whatever it says. */
  lemma {:induction false} QuotedTagless(s: string)
    ensures Tagless(Quoted(s))
  {
    if s != [] {
      EscapeTagless(s[0]);
      QuotedTagless(s[1..]);
    }
  }

  lemma MemberTagless(key: string, value: string)
    ensures Tagless(Member(key, value))
  {
    QuotedTagless(key);
    QuotedTagless(value);
  }

  lemma EncodedTagless(ts: TaskState)
    ensures Tagless(Encode(ts)) && |Encode(ts)| > 1 && Encode(ts)[0] == '{' && Encode(ts)[|Encode(ts)| - 1] == '}'
  {
    hide Member;
    MemberTagless("state", MarkerName(ts.marker));
    MemberTagless("summary", ts.summary);
    MemberTagless("next", ts.next);
  }

  lemma TagStart(text: string, sub: string, p: nat)
    requires StartsAt(text, sub, p) && |sub| > 1
    ensures text[p] == sub[0] && text[p + 1] == sub[1]
  {
    assert text[p] == text[p..p + |sub|][0] && text[p + 1] == text[p..p + |sub|][1];
  }

  /** In the text from the opening tag on, no other opening tag starts before what follows the block. */
  lemma NoLaterOpen(json: string, after: string, p: nat)
    requires Tagless(json) && (forall q | 0 <= q <= |after| :: !StartsAt(after, OPEN, q)) && p > 0
    ensures !StartsAt(OPEN + "\n" + json + "\n" + CLOSE + after, OPEN, p)
  {
    var block := OPEN + "\n" + json + "\n" + CLOSE;
    var text := block + after;
    assert text == OPEN + "\n" + json + "\n" + CLOSE + after;
    var close := |OPEN| + |json| + 2;
    assert block[close..] == CLOSE;
    if p < |block| {
      assert text[p] == block[p];
      assert p < |OPEN| ==> block[p] == OPEN[p];
      assert |OPEN| < p < close - 1 ==> block[p] == json[p - |OPEN| - 1];
      assert p >= close ==> block[p] == CLOSE[p - close];
      assert p == close ==> text[p + 1] == block[p + 1] == CLOSE[1];
      if StartsAt(text, OPEN, p) { TagStart(text, OPEN, p); }
    } else if p + |OPEN| <= |text| {
      assert text[p..p + |OPEN|] == after[p - |block|..p - |block| + |OPEN|];
      assert !StartsAt(after, OPEN, p - |block|);
    }
  }

  lemma TrimKeeps(json: string)
    requires |json| > 1 && json[0] == '{' && json[|json| - 1] == '}'
    ensures TrimSpace("\n" + json + "\n") == json
  {
    var spaced := "\n" + json + "\n";
    assert spaced[1..] == json + "\n";
    assert (json + "\n")[..|json|] == json;
    assert TrimSpace(json) == json;
    assert TrimSpace(json + "\n") == json;
  }

  /** The first closing tag after the opening one is the block's own. */
  lemma FirstClose(json: string, after: string)
    requires Tagless(json)
    ensures Index("\n" + json + "\n" + CLOSE + after, CLOSE, 0) == Some(|json| + 2)
  {
    var rest := "\n" + json + "\n" + CLOSE + after;
    var close := |json| + 2;
    assert rest[close..close + |CLOSE|] == CLOSE;
    assert StartsAt(rest, CLOSE, close);
    forall q | 0 <= q < close ensures !StartsAt(rest, CLOSE, q) {
      assert q == 0 || q == close - 1 || rest[q] == json[q - 1];
      if StartsAt(rest, CLOSE, q) { TagStart(rest, CLOSE, q); }
    }
  }

  lemma StartsLater(before: string, text: string, sub: string, p: nat)
    ensures StartsAt(before + text, sub, |before| + p) <==> StartsAt(text, sub, p)
  {
    if p + |sub| <= |text| { assert (before + text)[|before| + p..|before| + p + |sub|] == text[p..p + |sub|]; }
  }

  /** The last opening tag is the block's own. */
  lemma LastOpen(before: string, json: string, after: string)
    requires Tagless(json) && forall q | 0 <= q <= |after| :: !StartsAt(after, OPEN, q)
    ensures var text := before + (OPEN + "\n" + json + "\n" + CLOSE + after);
      LastIndex(text, OPEN, |text|) == Some(|before|)
  {
    var tail := OPEN + "\n" + json + "\n" + CLOSE + after;
    var text := before + tail;
    assert tail[0..|OPEN|] == OPEN && StartsAt(tail, OPEN, 0);
    StartsLater(before, tail, OPEN, 0);
    forall q | |before| < q <= |text| ensures !StartsAt(text, OPEN, q) {
      NoLaterOpen(json, after, q - |before|);
      StartsLater(before, tail, OPEN, q - |before|);
    }
  }

  /**
   A rendered state is parsed back from any text in which it is the last: whatever comes before it, whatever its
   summary and next say, and whatever follows it short of another opening tag.
   */
  lemma TaskStateRoundTrip(before: string, ts: TaskState, after: string)
    requires forall q | 0 <= q <= |after| :: !StartsAt(after, OPEN, q)
    ensures ParseTaskState(before + RenderTaskState(ts) + after) == Some(ts)
  {
    hide Encode, Decode, LastIndex, Index, TrimSpace, StartsAt;
    KnownMarkers(MarkerName(ts.marker), ts.marker);
    var json := Encode(ts);
    var rest := "\n" + json + "\n" + CLOSE + after;
    var tail := OPEN + "\n" + json + "\n" + CLOSE + after;
    var text := before + RenderTaskState(ts) + after;
    assert text == before + tail;
    EncodedTagless(ts);
    DecodeEncoded(ts);
    LastOpen(before, json, after);
    assert text[|before| + |OPEN|..] == rest;
    FirstClose(json, after);
    assert rest[..|json| + 2] == "\n" + json + "\n";
    TrimKeeps(json);
  }

  // ---------------------------------------------------------------- nothing else is a task state

  predicate IsLastOpen(text: string, p: nat) {
    StartsAt(text, OPEN, p) && forall q | p < q <= |text| :: !StartsAt(text, OPEN, q)
  }

  predicate IsFirstClose(text: string, from: nat, e: nat) {
    from <= e && StartsAt(text, CLOSE, e) && forall q | from <= q < e :: !StartsAt(text, CLOSE, q)
  }

  /** The tags of the text's task state: `p` is where the opening one starts, `e` where the closing one does. */
  predicate Block(text: string, p: nat, e: nat) {
    IsLastOpen(text, p) && IsFirstClose(text, p + |OPEN|, e)
  }

  predicate AllSpace(s: string) {
    forall i | 0 <= i < |s| :: IsSpace(s[i])
  }

  /**
   Between the tags stands, with any space around it, the text of an object whose last members under the three keys
   give these three fields, the first a known marker.
   */
  ghost predicate Says(raw: string, ts: TaskState) {
    exists a: string, o: Object, b: string ::
      AllSpace(a) && IsObject(o) && AllSpace(b) && raw == a + ObjectText(o) + b && FieldsOf(o.members) == Told(ts)
  }

  /** Space around an object goes, and nothing else does. */
  lemma {:induction false} TrimIs(a: string, core: string, b: string)
    requires AllSpace(a) && AllSpace(b) && |core| > 1 && core[0] == '{' && core[|core| - 1] == '}'
    ensures TrimSpace(a + core + b) == core
    decreases |a| + |b|
  {
    var s := a + core + b;
    if a != [] {
      assert s[1..] == a[1..] + core + b;
      TrimIs(a[1..], core, b);
    } else if b != [] {
      assert s[..|s| - 1] == a + core + b[..|b| - 1] && s[0] == core[0];
      TrimIs(a, core, b[..|b| - 1]);
    } else {
      assert s == core;
    }
  }

  lemma {:induction false} Trimmed(s: string) returns (a: string, b: string)
    ensures AllSpace(a) && AllSpace(b) && s == a + TrimSpace(s) + b
    decreases |s|
  {
    a, b := [], [];
    if s != [] {
      if IsSpace(s[0]) {
        var a1, b1 := Trimmed(s[1..]);
        a, b := [s[0]] + a1, b1;
        assert s == [s[0]] + s[1..];
        Nested([s[0]], a1, TrimSpace(s[1..]), b1, []);
        assert b1 + [] == b1;
      } else if IsSpace(s[|s| - 1]) {
        var a1, b1 := Trimmed(s[..|s| - 1]);
        a, b := a1, b1 + [s[|s| - 1]];
        assert s == s[..|s| - 1] + [s[|s| - 1]];
        Nested([], a1, TrimSpace(s[..|s| - 1]), b1, [s[|s| - 1]]);
        assert [] + a1 == a1;
      }
    }
    hide IsSpace;
  }

  lemma WhiteIsSpace(w: string, s: string)
    requires White(w) && AllSpace(s)
    ensures AllSpace(w) && AllSpace(s + w) && AllSpace(w + s)
  {
    assert forall i | 0 <= i < |w| :: IsSpace(w[i]);
  }

  lemma SaidIsRead(a: string, o: Object, b: string)
    requires AllSpace(a) && IsObject(o) && AllSpace(b)
    ensures Decode(TrimSpace(a + ObjectText(o) + b)) == Some(FieldsOf(o.members))
  {
    ObjectEnds(o);
    NoSpace();
    hide Decode, TrimSpace, ObjectText, IsObject, AllSpace, FieldsOf, White;
    TrimIs(a, ObjectText(o), b);
    ObjectReadBack([], o, []);
    assert [] + ObjectText(o) + [] == ObjectText(o);
  }

  lemma Saying(a: string, o: Object, b: string, ts: TaskState)
    requires AllSpace(a) && IsObject(o) && AllSpace(b) && FieldsOf(o.members) == Told(ts)
    ensures Says(a + ObjectText(o) + b, ts)
  {
    hide AllSpace, IsObject, ObjectText, FieldsOf, Told;
  }

  lemma ReadIsSaid(raw: string, ts: TaskState)
    requires Decode(TrimSpace(raw)) == Some(Told(ts))
    ensures Says(raw, ts)
  {
    hide Decode, TrimSpace, ObjectText, AllSpace, FieldsOf, White, Told, AllFormed, Says;
    var a, b := Trimmed(raw);
    DecodesExactly(TrimSpace(raw), Told(ts));
    var v: string, o: Object, w: string :|
      White(v) && IsObject(o) && White(w) && TrimSpace(raw) == v + ObjectText(o) + w
        && FieldsOf(o.members) == Told(ts);
    WhiteIsSpace(v, a);
    WhiteIsSpace(w, b);
    Nested(a, v, ObjectText(o), w, b);
    Saying(a + v, o, w + b, ts);
  }

  lemma Nested(a: string, v: string, t: string, w: string, b: string)
    ensures a + (v + t + w) + b == (a + v) + t + (w + b)
  {
  }

  lemma SaysExactly(raw: string, ts: TaskState)
    ensures Says(raw, ts) <==> Decode(TrimSpace(raw)) == Some(Told(ts))
  {
    hide Decode, TrimSpace, ObjectText, AllSpace, FieldsOf, Told, AllFormed;
    if Says(raw, ts) {
      var a: string, o: Object, b: string :|
        AllSpace(a) && IsObject(o) && AllSpace(b) && raw == a + ObjectText(o) + b && FieldsOf(o.members) == Told(ts);
      SaidIsRead(a, o, b);
    }
    if Decode(TrimSpace(raw)) == Some(Told(ts)) { ReadIsSaid(raw, ts); }
  }

  lemma ObjectEnds(o: Object)
    ensures var t := ObjectText(o); |t| > 1 && t[0] == '{' && t[|t| - 1] == '}'
  {
  }

  lemma KnownMarkers(name: string, m: TaskMarker)
    ensures MarkerOf(name) == Some(m) <==> name == MarkerName(m)
  {
  }

  /** The first closing tag of the text after the opening one, found in the rest of the text. */
  lemma CloseInRest(text: string, from: nat)
    requires from <= |text|
    ensures var r := Index(text[from..], CLOSE, 0);
      && (r.Some? ==> from + r.value <= |text| && IsFirstClose(text, from, from + r.value))
      && (r.Some? ==> text[from..][..r.value] == text[from..from + r.value])
      && (r.None? ==> forall e | from <= e :: !StartsAt(text, CLOSE, e))
  {
    var rest := text[from..];
    assert text == text[..from] + rest;
    forall q: nat ensures StartsAt(text, CLOSE, from + q) <==> StartsAt(rest, CLOSE, q) {
      StartsLater(text[..from], rest, CLOSE, q);
    }
    var r := Index(rest, CLOSE, 0);
    var to := if r.Some? then from + r.value else |text| + 1;
    forall e | from <= e && (r.None? || e < to) ensures !StartsAt(text, CLOSE, e) {
      assert StartsAt(text, CLOSE, from + (e - from)) <==> StartsAt(rest, CLOSE, e - from);
    }
  }

  lemma OpenInText(text: string)
    ensures var r := LastIndex(text, OPEN, |text|);
      && (r.Some? ==> r.value + |OPEN| <= |text| && IsLastOpen(text, r.value))
      && (r.None? ==> forall p: nat :: !IsLastOpen(text, p))
  {
  }

  lemma OneLastOpen(text: string, p: nat, q: nat)
    requires IsLastOpen(text, p) && IsLastOpen(text, q)
    ensures p == q
  {
  }

  lemma NoFirstClose(text: string, from: nat, e: nat)
    requires forall d | from <= d :: !StartsAt(text, CLOSE, d)
    ensures !IsFirstClose(text, from, e)
  {
  }

  lemma OneFirstClose(text: string, from: nat, d: nat, e: nat)
    requires IsFirstClose(text, from, d) && IsFirstClose(text, from, e)
    ensures d == e
  {
  }

  /**
   A text has exactly the task state that an object between its last opening tag and the first closing tag after it
   says, however that is spelled and spaced, and none if one of the tags is missing, what stands there is no object, or
   its marker is not known.
   */
  lemma TaskStateExactly(text: string, ts: TaskState)
    ensures ParseTaskState(text) == Some(ts) <==>
      exists p: nat, e: nat :: Block(text, p, e) && Says(text[p + |OPEN|..e], ts)
  {
    hide Decode, TrimSpace, StartsAt, IsLastOpen, IsFirstClose, LastIndex, Index, MarkerOf, MarkerName, Says;
    OpenInText(text);
    var start := LastIndex(text, OPEN, |text|);
    if start.Some? {
      var from := start.value + |OPEN|;
      forall p: nat | IsLastOpen(text, p) ensures p == start.value { OneLastOpen(text, p, start.value); }
      CloseInRest(text, from);
      var end := Index(text[from..], CLOSE, 0);
      if end.None? {
        forall e: nat ensures !IsFirstClose(text, from, e) { NoFirstClose(text, from, e); }
      } else {
        forall e: nat | IsFirstClose(text, from, e) ensures e == from + end.value {
          OneFirstClose(text, from, e, from + end.value);
        }
        assert Block(text, start.value, from + end.value);
        var f := Decode(TrimSpace(text[from..from + end.value]));
        SaysExactly(text[from..from + end.value], ts);
        if f.Some? { KnownMarkers(f.value.state, ts.marker); }
      }
    }
  }

  /** In particular no text without an opening tag, or without a closing one after the last, has a task state. */
  lemma NoStateWithoutBlock(text: string)
    requires forall p: nat, e: nat :: !Block(text, p, e)
    ensures ParseTaskState(text).None?
  {
    hide ParseTaskState, Says, Block;
    var r := ParseTaskState(text);
    if r.Some? { TaskStateExactly(text, r.value); }
  }
}
