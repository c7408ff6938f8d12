/**
 * JSON text: decimal numerals, escaped strings and the printer. JSON.stringify, section 25.5.2 of
 * ECMA-262; string escapes, section 7 of RFC 8259. JsonReader reads it back.
 */
module JsonText {
  // ---------- decimal numerals ----------

  predicate IsDigit(c: char) {
    '0' <= c <= '9'
  }

  function DigitChar(d: nat): (c: char)
    requires d < 10
    ensures IsDigit(c) && c as int - '0' as int == d
  {
    ['0', '1', '2', '3', '4', '5', '6', '7', '8', '9'][d]
  }

  function Digits(n: nat): (s: string)
    ensures s != [] && forall i :: 0 <= i < |s| ==> IsDigit(s[i])
  {
    if n < 10 then [DigitChar(n)] else Digits(n / 10) + [DigitChar(n % 10)]
  }

  /** BigInt.prototype.toString(10); also how JSON.stringify prints an integer. */
  function Decimal(i: int): (s: string)
    ensures s != []
  {
    if i < 0 then "-" + Digits(-i) else Digits(i)
  }

  /** The number a digit string denotes. */
  function Value(s: string): int {
    if s == [] then 0 else 10 * Value(s[..|s| - 1]) + (s[|s| - 1] as int - '0' as int)
  }

  lemma {:induction false} ValueOfDigits(n: nat)
    ensures Value(Digits(n)) == n
  {
    if n >= 10 {
      ValueOfDigits(n / 10);
      assert Digits(n)[..|Digits(n)| - 1] == Digits(n / 10);
    }
  }

  lemma DigitsInjective(m: nat, n: nat)
    requires Digits(m) == Digits(n)
    ensures m == n
  {
    ValueOfDigits(m);
    ValueOfDigits(n);
  }

  lemma DecimalInjective(i: int, j: int)
    requires Decimal(i) == Decimal(j)
    ensures i == j
  {
    SignReadable(i);
    SignReadable(j);
    DigitsInjective(if i < 0 then -i else i, if j < 0 then -j else j);
  }

  lemma SignReadable(i: int)
    ensures i < 0 <==> Decimal(i)[0] == '-'
    ensures (if Decimal(i)[0] == '-' then Decimal(i)[1..] else Decimal(i)) == Digits(if i < 0 then -i else i)
  {
    assert IsDigit(Digits(if i < 0 then -i else i)[0]);
  }

  predicate IsNumeralChar(c: char) {
    IsDigit(c) || c == '-'
  }

  /** What may follow a value: nothing, or one of the closing and separating characters. */
  predicate EndsValue(s: string) {
    s == [] || s[0] == ',' || s[0] == ']' || s[0] == '}'
  }

  // ---------- strings ----------

  function HexChar(d: nat): char
    requires d < 16
  {
    "0123456789abcdef"[d]
  }

  const BACKSPACE: char := '\U{0008}'
  const FORM_FEED: char := '\U{000c}'

  /** The letter of a two-character escape, or a space when the character has none. */
  function ShortEscape(c: char): char {
    if c == '\"' then '\"'
    else if c == '\\' then '\\'
    else if c == BACKSPACE then 'b'
    else if c == FORM_FEED then 'f'
    else if c == '\n' then 'n'
    else if c == '\r' then 'r'
    else if c == '\t' then 't'
    else ' '
  }

  function EscapeChar(c: char): (s: string)
    ensures s != []
  {
    if ShortEscape(c) != ' ' then ['\\', ShortEscape(c)]
    else if c as int < 0x20 then ['\\', 'u', '0', '0', HexChar(c as int / 16), HexChar(c as int % 16)]
    else [c]
  }

  function Escape(s: string): string {
    if s == [] then [] else EscapeChar(s[0]) + Escape(s[1..])
  }

  function Quote(s: string): string {
    ['\"'] + Escape(s) + ['\"']
  }

  // ---------- values ----------

  /** A JSON value as it is printed: object members in order. */
  datatype Tree =
    | TNull
    | TBool(b: bool)
    | TNum(n: int)
    | TStr(s: string)
    | TArr(items: seq<Tree>)
    | TObj(members: seq<Member>)

  datatype Member = Member(key: string, value: Tree)

  function Print(t: Tree): string {
    match t
    case TNull => "null"
    case TBool(b) => if b then "true" else "false"
    case TNum(n) => Decimal(n)
    case TStr(s) => Quote(s)
    case TArr(items) => "[" + PrintItems(items, true)
    case TObj(members) => "{" + PrintMembers(members, true)
  }

  /** The rest of an array: each further item is preceded by a comma, and the bracket closes it. */
  function PrintItems(items: seq<Tree>, first: bool): string {
    if items == [] then "]"
    else (if first then "" else ",") + (Print(items[0]) + PrintItems(items[1..], false))
  }

  function PrintMembers(members: seq<Member>, first: bool): string {
    if members == [] then "}"
    else
      (if first then "" else ",")
      + (Quote(members[0].key) + (":" + (Print(members[0].value) + PrintMembers(members[1..], false))))
  }

  /** The first character tells the kind of a value, and is never a closing or separating one. */
  lemma PrintStarts(t: Tree)
    ensures Print(t) != [] && !EndsValue(Print(t))
    ensures t.TNull? <==> Print(t)[0] == 'n'
    ensures t.TBool? <==> Print(t)[0] == 't' || Print(t)[0] == 'f'
    ensures t.TNum? <==> IsNumeralChar(Print(t)[0])
    ensures t.TStr? <==> Print(t)[0] == '\"'
    ensures t.TArr? <==> Print(t)[0] == '['
    ensures t.TObj? <==> Print(t)[0] == '{'
  {
  }

  /** What follows an item or member: a comma or the closing character. */
  lemma RestEndsValue(items: seq<Tree>, members: seq<Member>, s: string)
    ensures EndsValue(PrintItems(items, false) + s) && EndsValue(PrintMembers(members, false) + s)
  {
  }

  lemma MembersUnfold(xs: seq<Member>, s: string, first: bool)
    requires xs != []
    ensures (PrintMembers(xs, first) + s)[if first then 0 else 1..]
         == Quote(xs[0].key) + (":" + (Print(xs[0].value) + (PrintMembers(xs[1..], false) + s)))
  {
    var comma := if first then "" else ",";
    var q, v, m := Quote(xs[0].key), Print(xs[0].value), PrintMembers(xs[1..], false);
    assert PrintMembers(xs, first) == comma + (q + (":" + (v + m)));
    Reassociate(comma, q, v, m, s);
  }

  lemma Reassociate(c: string, q: string, v: string, m: string, s: string)
    ensures ((c + (q + (":" + (v + m)))) + s)[|c|..] == q + (":" + (v + (m + s)))
  {
  }
}
