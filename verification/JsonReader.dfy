/**
 * A reader of JSON text without white space, section 2 to 7 of RFC 8259 restricted to integers, which
 * knows nothing of the printer: every printed value is read back, so that its text is the right one.
 */
module JsonReader {
  import opened Wrappers
  import opened JsonText

  // ---------- numerals ----------

  /** The number of digits that s starts with. */
  function LeadingDigits(s: string): (n: nat)
    ensures n <= |s| && (forall i :: 0 <= i < n ==> IsDigit(s[i])) && (n < |s| ==> !IsDigit(s[n]))
  {
    if s == [] || !IsDigit(s[0]) then 0 else 1 + LeadingDigits(s[1..])
  }

  function ReadNatural(s: string): (r: Option<(int, string)>)
    ensures r.Some? ==> |r.value.1| < |s|
  {
    var n := LeadingDigits(s);
    if n == 0 || (n > 1 && s[0] == '0') then None else Some((Value(s[..n]), s[n..]))
  }

  function ReadInteger(s: string): (r: Option<(int, string)>)
    ensures r.Some? ==> |r.value.1| < |s|
  {
    if s != [] && s[0] == '-' then
      match ReadNatural(s[1..])
      case None => None
      case Some((n, rest)) => Some((-n, rest))
    else ReadNatural(s)
  }

  // ---------- strings ----------

  function HexValue(c: char): (v: Option<nat>)
    ensures v.Some? ==> v.value < 16
  {
    if '0' <= c <= '9' then Some(c as int - '0' as int)
    else if 'a' <= c <= 'f' then Some(c as int - 'a' as int + 10)
    else if 'A' <= c <= 'F' then Some(c as int - 'A' as int + 10)
    else None
  }

  /** The character of an escape, after the backslash. A surrogate is no character here. */
  function ReadEscape(s: string): (r: Option<(char, string)>)
    ensures r.Some? ==> |r.value.1| < |s|
  {
    if s == [] then None
    else if s[0] == '\"' || s[0] == '\\' || s[0] == '/' then Some((s[0], s[1..]))
    else if s[0] == 'b' then Some(('\U{0008}', s[1..]))
    else if s[0] == 'f' then Some(('\U{000c}', s[1..]))
    else if s[0] == 'n' then Some(('\U{000a}', s[1..]))
    else if s[0] == 'r' then Some(('\U{000d}', s[1..]))
    else if s[0] == 't' then Some(('\U{0009}', s[1..]))
    else if s[0] == 'u' && |s| >= 5 then
      var a, b, c, d := HexValue(s[1]), HexValue(s[2]), HexValue(s[3]), HexValue(s[4]);
      if a.None? || b.None? || c.None? || d.None? then None
      else
        var code := a.value * 4096 + b.value * 256 + c.value * 16 + d.value;
        if 0xD800 <= code < 0xE000 then None else Some((code as char, s[5..]))
    else None
  }

  /** The characters up to the closing quote. */
  function ReadChars(s: string): (r: Option<(string, string)>)
    ensures r.Some? ==> |r.value.1| < |s|
    decreases |s|
  {
    if s == [] then None
    else if s[0] == '\"' then Some(([], s[1..]))
    else if s[0] as int < 0x20 then None
    else
      var one := if s[0] == '\\' then ReadEscape(s[1..]) else Some((s[0], s[1..]));
      if one.None? then None
      else
        match ReadChars(one.value.1)
        case None => None
        case Some((more, rest)) => Some(([one.value.0] + more, rest))
  }

  // ---------- values ----------

  function ReadLiteral(literal: string, t: Tree, s: string): (r: Option<(Tree, string)>)
    requires literal != []
    ensures r.Some? ==> |r.value.1| < |s|
  {
    if literal <= s then Some((t, s[|literal|..])) else None
  }

  function ReadValue(s: string): (r: Option<(Tree, string)>)
    ensures r.Some? ==> |r.value.1| < |s|
    decreases |s|, 1
  {
    if s == [] then None
    else if s[0] == 'n' then ReadLiteral("null", TNull, s)
    else if s[0] == 't' then ReadLiteral("true", TBool(true), s)
    else if s[0] == 'f' then ReadLiteral("false", TBool(false), s)
    else if s[0] == '\"' then
      match ReadChars(s[1..])
      case None => None
      case Some((text, rest)) => Some((TStr(text), rest))
    else if s[0] == '[' then
      if |s| > 1 && s[1] == ']' then Some((TArr([]), s[2..]))
      else
        match ReadItems(s[1..])
        case None => None
        case Some((items, rest)) => Some((TArr(items), rest))
    else if s[0] == '{' then
      if |s| > 1 && s[1] == '}' then Some((TObj([]), s[2..]))
      else
        match ReadMembers(s[1..])
        case None => None
        case Some((members, rest)) => Some((TObj(members), rest))
    else
      match ReadInteger(s)
      case None => None
      case Some((n, rest)) => Some((TNum(n), rest))
  }

  /** Items separated by commas, up to the closing bracket. */
  function ReadItems(s: string): (r: Option<(seq<Tree>, string)>)
    ensures r.Some? ==> |r.value.1| < |s|
    decreases |s|, 2
  {
    match ReadValue(s)
    case None => None
    case Some((item, rest)) =>
      if rest == [] then None
      else if rest[0] == ']' then Some(([item], rest[1..]))
      else if rest[0] == ',' then
        match ReadItems(rest[1..])
        case None => None
        case Some((more, after)) => Some(([item] + more, after))
      else None
  }

  function ReadMembers(s: string): (r: Option<(seq<Member>, string)>)
    ensures r.Some? ==> |r.value.1| < |s|
    decreases |s|, 2
  {
    if s == [] || s[0] != '\"' then None
    else
      match ReadChars(s[1..])
      case None => None
      case Some((key, colon)) =>
        if colon == [] || colon[0] != ':' then None
        else
          match ReadValue(colon[1..])
          case None => None
          case Some((value, rest)) =>
            if rest == [] then None
            else if rest[0] == '}' then Some(([Member(key, value)], rest[1..]))
            else if rest[0] == ',' then
              match ReadMembers(rest[1..])
              case None => None
              case Some((more, after)) => Some(([Member(key, value)] + more, after))
            else None
  }

  /** One value and nothing after it. */
  function Read(s: string): Option<Tree> {
    match ReadValue(s)
    case None => None
    case Some((t, rest)) => if rest == [] then Some(t) else None
  }

  // ---------- numerals are read back ----------

  lemma {:induction false} AllDigits(d: string, s: string)
    requires (forall i :: 0 <= i < |d| ==> IsDigit(d[i])) && (s == [] || !IsDigit(s[0]))
    ensures LeadingDigits(d + s) == |d|
  {
    if d == [] {
      assert d + s == s;
    } else {
      assert (d + s)[1..] == d[1..] + s;
      AllDigits(d[1..], s);
    }
  }

  lemma {:induction false} NoLeadingZero(n: nat)
    ensures |Digits(n)| > 1 ==> Digits(n)[0] != '0'
  {
    if n >= 10 {
      NoLeadingZero(n / 10);
      if n / 10 < 10 {
        assert Digits(n / 10) == [DigitChar(n / 10)];
      }
    }
  }

  lemma NaturalRead(n: nat, s: string)
    requires EndsValue(s)
    ensures ReadNatural(Digits(n) + s) == Some((n, s))
  {
    hide Digits;
    var d := Digits(n);
    AllDigits(d, s);
    NoLeadingZero(n);
    ValueOfDigits(n);
    assert (d + s)[..|d|] == d && (d + s)[|d|..] == s;
  }

  lemma IntegerRead(i: int, s: string)
    requires EndsValue(s)
    ensures ReadInteger(Decimal(i) + s) == Some((i, s))
  {
    hide ReadNatural, Digits, Decimal;
    SignReadable(i);
    var n := if i < 0 then -i else i;
    NaturalRead(n, s);
    var text := Decimal(i) + s;
    assert text[0] == Decimal(i)[0];
    if i < 0 {
      assert text[1..] == Digits(n) + s;
    }
  }

  // ---------- strings are read back ----------

  lemma CharRead(c: char, s: string)
    ensures var text := EscapeChar(c) + s;
            && text[0] != '\"' && text[0] as int >= 0x20
            && (if text[0] == '\\' then ReadEscape(text[1..]) else Some((text[0], text[1..]))) == Some((c, s))
  {
    var e := EscapeChar(c);
    var text := e + s;
    assert text[|e|..] == s && forall i :: 0 <= i < |e| ==> text[i] == e[i];
    if e[0] == '\\' {
      assert text[1..][1..] == text[2..];
      if e[1] == 'u' {
        HexRead(c as int / 16);
        HexRead(c as int % 16);
        assert text[1..][5..] == text[6..];
      }
    }
  }

  lemma HexRead(d: nat)
    requires d < 16
    ensures HexValue(HexChar(d)) == Some(d)
  {
  }

  lemma Associate(a: string, b: string, c: string)
    ensures (a + b) + c == a + (b + c)
  {
  }

  lemma {:induction false} CharsRead(a: string, s: string)
    ensures ReadChars(Escape(a) + (['\"'] + s)) == Some((a, s))
  {
    hide EscapeChar, ReadEscape;
    if a == [] {
      assert Escape(a) + (['\"'] + s) == ['\"'] + s;
    } else {
      var more := Escape(a[1..]) + (['\"'] + s);
      CharsRead(a[1..], s);
      CharRead(a[0], more);
      Associate(EscapeChar(a[0]), Escape(a[1..]), ['\"'] + s);
      assert [a[0]] + a[1..] == a;
    }
  }

  lemma QuoteRead(a: string, s: string)
    ensures var text := Quote(a) + s; text[0] == '\"' && ReadChars(text[1..]) == Some((a, s))
  {
    CharsRead(a, s);
    assert (Quote(a) + s)[1..] == Escape(a) + (['\"'] + s);
  }

  // ---------- values are read back ----------

  lemma LiteralRead(literal: string, t: Tree, s: string)
    requires literal != []
    ensures ReadLiteral(literal, t, literal + s) == Some((t, s))
  {
    assert (literal + s)[|literal|..] == s;
  }

  /** A printed value is read back, up to where it ends. */
  lemma {:induction false} ValueRead(t: Tree, s: string)
    requires EndsValue(s)
    ensures ReadValue(Print(t) + s) == Some((t, s))
    decreases t, 1
  {
    hide ReadChars, ReadInteger, ReadItems, ReadMembers, Quote, Decimal;
    PrintStarts(t);
    var text := Print(t) + s;
    assert text[0] == Print(t)[0];
    match t
    case TNull => LiteralRead("null", TNull, s);
    case TBool(b) => LiteralRead(if b then "true" else "false", t, s);
    case TNum(n) => IntegerRead(n, s);
    case TStr(x) => QuoteRead(x, s);
    case TArr(items) =>
      assert text == "[" + (PrintItems(items, true) + s);
      assert text[1..] == PrintItems(items, true) + s;
      if items == [] {
        assert text[2..] == s;
      } else {
        ItemsRead(items, s);
        PrintStarts(items[0]);
      }
    case TObj(members) =>
      assert text == "{" + (PrintMembers(members, true) + s);
      assert text[1..] == PrintMembers(members, true) + s;
      if members == [] {
        assert text[2..] == s;
      } else {
        MembersRead(members, s);
      }
  }

  lemma {:induction false} ItemsRead(items: seq<Tree>, s: string)
    requires items != []
    ensures ReadItems(PrintItems(items, true) + s) == Some((items, s))
    ensures PrintItems(items, true) != [] && PrintItems(items, true)[0] != ']'
    decreases items, 0
  {
    hide ReadValue, Print;
    var more := PrintItems(items[1..], false) + s;
    assert PrintItems(items, true) + s == Print(items[0]) + more;
    PrintStarts(items[0]);
    RestEndsValue(items[1..], [], s);
    ValueRead(items[0], more);
    if items[1..] == [] {
      assert more[1..] == s && items == [items[0]];
    } else {
      ItemsRead(items[1..], s);
      CommaItems(items[1..], s);
      assert items == [items[0]] + items[1..];
    }
  }

  lemma CommaItems(items: seq<Tree>, s: string)
    requires items != []
    ensures var more := PrintItems(items, false) + s; more[0] == ',' && more[1..] == PrintItems(items, true) + s
  {
    hide Print;
    var rest := Print(items[0]) + PrintItems(items[1..], false);
    assert PrintItems(items, false) == "," + rest && PrintItems(items, true) == "" + rest;
    AfterComma(rest, s);
  }

  lemma AfterComma(rest: string, s: string)
    ensures "" + rest == rest
    ensures (("," + rest) + s)[0] == ',' && (("," + rest) + s)[1..] == rest + s
  {
  }

  lemma {:induction false} MembersRead(members: seq<Member>, s: string)
    requires members != []
    ensures ReadMembers(PrintMembers(members, true) + s) == Some((members, s))
    ensures PrintMembers(members, true) != [] && PrintMembers(members, true)[0] == '\"'
    decreases members, 0
  {
    hide ReadValue, Print, ReadChars;
    var key, value := members[0].key, members[0].value;
    var more := PrintMembers(members[1..], false) + s;
    var text := PrintMembers(members, true) + s;
    MembersUnfold(members, s, true);
    assert text == Quote(key) + (":" + (Print(value) + more));
    QuoteRead(key, ":" + (Print(value) + more));
    assert (":" + (Print(value) + more))[1..] == Print(value) + more;
    RestEndsValue([], members[1..], s);
    ValueRead(value, more);
    if members[1..] == [] {
      assert more[1..] == s && members == [members[0]];
    } else {
      MembersRead(members[1..], s);
      CommaMembers(members[1..], s);
      assert members == [members[0]] + members[1..];
    }
  }

  lemma CommaMembers(members: seq<Member>, s: string)
    requires members != []
    ensures var more := PrintMembers(members, false) + s; more[0] == ',' && more[1..] == PrintMembers(members, true) + s
  {
    hide Print, Quote;
    var rest := Quote(members[0].key) + (":" + (Print(members[0].value) + PrintMembers(members[1..], false)));
    assert PrintMembers(members, false) == "," + rest && PrintMembers(members, true) == "" + rest;
    AfterComma(rest, s);
  }

  /** What is printed is read back. */
  lemma PrintedIsRead(t: Tree)
    ensures Read(Print(t)) == Some(t)
  {
    ValueRead(t, []);
    assert Print(t) + [] == Print(t);
  }

  // ---------- unique readability ----------

  /** A numeral is read up to the first character that cannot belong to it. */
  lemma NumeralReadable(i: int, s: string, j: int, r: string)
    requires EndsValue(s) && EndsValue(r)
    requires Decimal(i) + s == Decimal(j) + r
    ensures i == j && s == r
  {
    IntegerRead(i, s);
    IntegerRead(j, r);
  }

  lemma QuoteReadable(a: string, s: string, b: string, r: string)
    requires Quote(a) + s == Quote(b) + r
    ensures a == b && s == r
  {
    QuoteRead(a, s);
    QuoteRead(b, r);
  }

  /** Two values printed with what may follow a value, giving the same text, are the same value and rest. */
  lemma PrintReadable(t: Tree, s: string, u: Tree, r: string)
    requires EndsValue(s) && EndsValue(r)
    requires Print(t) + s == Print(u) + r
    ensures t == u && s == r
  {
    ValueRead(t, s);
    ValueRead(u, r);
  }

  /** The printer has unique readability. */
  lemma PrintInjective(t: Tree, u: Tree)
    ensures Print(t) == Print(u) <==> t == u
  {
    PrintedIsRead(t);
    PrintedIsRead(u);
  }

  /**
   * The escapes are those of JSON.stringify: two characters for quotes, backslashes and the five
   * control characters that have a letter, six for the other control characters, and none else.
   */
  lemma EscapeIs(c: char)
    ensures c == '\"' ==> EscapeChar(c) == "\\\""
    ensures c == '\\' ==> EscapeChar(c) == "\\\\"
    ensures c as int == 8 ==> EscapeChar(c) == "\\b"
    ensures c as int == 9 ==> EscapeChar(c) == "\\t"
    ensures c as int == 10 ==> EscapeChar(c) == "\\n"
    ensures c as int == 12 ==> EscapeChar(c) == "\\f"
    ensures c as int == 13 ==> EscapeChar(c) == "\\r"
    ensures c as int < 32 && c as int !in {8, 9, 10, 12, 13} ==>
              |EscapeChar(c)| == 6 && EscapeChar(c)[..4] == "\\u00"
              && EscapeChar(c)[4] in "01" && EscapeChar(c)[5] in "0123456789abcdef"
    ensures c as int >= 32 && c != '\"' && c != '\\' ==> EscapeChar(c) == [c]
  {
    var d := c as int / 16;
    assert c as int < 32 ==> d < 2 && HexChar(d) == "01"[d];
  }
}
