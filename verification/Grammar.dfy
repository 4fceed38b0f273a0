/**
 The texts of flat JSON objects, after sections 2, 4 and 7 of RFC 8259: white space around every token, members in
 any order and number, and each string written in any of the ways that the standard allows. Nothing here reads a
 text; a text is an object's if some tree of this grammar spells it.
 */
module ObjectGrammar {
  import opened Protocol

  // ---------------------------------------------------------------- strings

  /** One piece of a string's text: a character as it is, a short escape, or four digits of a UTF-16 code unit. */
  datatype Piece = Plain(c: char) | Short(letter: char) | Unit(digits: string)

  const SHORT_LETTERS := "\"\\/bfnrt"

  predicate IsHex(c: char) {
    '0' <= c <= '9' || 'a' <= c <= 'f' || 'A' <= c <= 'F'
  }

  predicate WellSpelled(p: Piece) {
    match p
    case Plain(c) => c as int >= 0x20 && c != '"' && c != '\\'
    case Short(letter) => letter in SHORT_LETTERS
    case Unit(digits) => |digits| == 4 && IsHex(digits[0]) && IsHex(digits[1]) && IsHex(digits[2]) && IsHex(digits[3])
  }

  predicate AllSpelled(ps: seq<Piece>) {
    forall i | 0 <= i < |ps| :: WellSpelled(ps[i])
  }

  function Spelling(p: Piece): string {
    match p
    case Plain(c) => [c]
    case Short(letter) => ['\\', letter]
    case Unit(digits) => ['\\', 'u'] + digits
  }

  function Spelled(ps: seq<Piece>): string {
    if ps == [] then [] else Spelling(ps[0]) + Spelled(ps[1..])
  }

  /** What a short escape stands for. */
  function Sign(letter: char): char {
    match letter
    case 'b' => 8 as char
    case 'f' => 12 as char
    case 'n' => '\n'
    case 'r' => '\r'
    case 't' => '\t'
    case _ => letter
  }

  function Digit(c: char): nat
    requires IsHex(c)
  {
    if c <= '9' then c as int - '0' as int else if c <= 'F' then c as int - 'A' as int + 10
    else c as int - 'a' as int + 10
  }

  function Code(digits: string): (n: nat)
    requires WellSpelled(Unit(digits))
    ensures n < 0x10000
  {
    ((Digit(digits[0]) * 16 + Digit(digits[1])) * 16 + Digit(digits[2])) * 16 + Digit(digits[3])
  }

  predicate IsHigh(p: Piece)
    requires WellSpelled(p)
  {
    p.Unit? && 0xD800 <= Code(p.digits) < 0xDC00
  }

  predicate IsLow(p: Piece)
    requires WellSpelled(p)
  {
    p.Unit? && 0xDC00 <= Code(p.digits) < 0xE000
  }

  /** The character of a surrogate pair. */
  function Joined(high: nat, low: nat): char
    requires 0xD800 <= high < 0xDC00 <= low < 0xE000
  {
    (0x10000 + (high - 0xD800) * 0x400 + (low - 0xDC00)) as char
  }

  const REPLACEMENT := 0xFFFD as char

  /** The characters that the pieces stand for; two surrogates in a row are one, and one by itself is replaced. */
  function Meaning(ps: seq<Piece>): string
    requires AllSpelled(ps)
  {
    if ps == [] then []
    else if ps[0].Plain? then [ps[0].c] + Meaning(ps[1..])
    else if ps[0].Short? then [Sign(ps[0].letter)] + Meaning(ps[1..])
    else if IsHigh(ps[0]) && |ps| > 1 && IsLow(ps[1]) then
      [Joined(Code(ps[0].digits), Code(ps[1].digits))] + Meaning(ps[2..])
    else if IsHigh(ps[0]) || IsLow(ps[0]) then [REPLACEMENT] + Meaning(ps[1..])
    else [Code(ps[0].digits) as char] + Meaning(ps[1..])
  }

  // ---------------------------------------------------------------- objects

  predicate White(s: string) {
    forall i | 0 <= i < |s| :: s[i] in {' ', '\t', '\n', '\r'}
  }

  /** A key and a value, with the white space before and after each. */
  datatype Pair = Pair(a: string, key: seq<Piece>, b: string, c: string, value: seq<Piece>, d: string)

  predicate WellFormed(m: Pair) {
    White(m.a) && AllSpelled(m.key) && White(m.b) && White(m.c) && AllSpelled(m.value) && White(m.d)
  }

  predicate AllFormed(ms: seq<Pair>) {
    forall i | 0 <= i < |ms| :: WellFormed(ms[i])
  }

  function InQuotes(ps: seq<Piece>): string {
    ['"'] + Spelled(ps) + ['"']
  }

  function PairText(m: Pair): string {
    m.a + InQuotes(m.key) + m.b + [':'] + m.c + InQuotes(m.value) + m.d
  }

  function PairsText(ms: seq<Pair>): string {
    if ms == [] then [] else if |ms| == 1 then PairText(ms[0]) else PairText(ms[0]) + [','] + PairsText(ms[1..])
  }

  /** An object without members may hold white space. */
  datatype Object = Object(inside: string, members: seq<Pair>)

  predicate IsObject(o: Object) {
    White(o.inside) && AllFormed(o.members)
  }

  function ObjectText(o: Object): string {
    ['{'] + (if o.members == [] then o.inside else PairsText(o.members)) + ['}']
  }

  /** The value of the last member under this key. */
  function LastUnder(ms: seq<Pair>, key: string): Option<string>
    requires AllFormed(ms)
  {
    if ms == [] then None
    else if Meaning(ms[|ms| - 1].key) == key then Some(Meaning(ms[|ms| - 1].value))
    else LastUnder(ms[..|ms| - 1], key)
  }

  function TextUnder(ms: seq<Pair>, key: string): string
    requires AllFormed(ms)
  {
    var v := LastUnder(ms, key);
    if v.Some? then v.value else []
  }
}
