/**
 * The governance store in a JSON file, packages/protocol-moonwell/src/governance/file-store.ts:
 * what a restart does to big integers and dates that were written as strings.
 */
module FileStore {
  import opened Wrappers
  import opened JsonText
  import opened CanonicalJson
  import opened Receipts

  /** new Date(text).toISOString(), or None for an invalid date. */
  type DateParser = string -> Option<string>

  predicate BigintKey(key: string) {
    key == "lastProcessedBlock" || key == "lastProposalId" || key == "blockNumber"
    || key == "valueRaw" || key == "suppliedRaw" || key == "borrowedRaw"
  }

  predicate DateKey(key: string) {
    |key| >= 2 && key[|key| - 2] == 'A' && key[|key| - 1] == 't'
  }

  // ---------- revive ----------

  function Revive(v: Js, key: Option<string>, dates: DateParser): Js
    decreases v, 1
  {
    match v
    case Text(s) =>
      if key.Some? && BigintKey(key.value) && IsNumeral(s) then BigInt(ParseBigint(s).value) else v
    case Array(items) => Array(seq(|items|, i requires 0 <= i < |items| => Revive(items[i], None, dates)))
    case Object(props) => Object(ReviveProps(props, dates))
    case _ => v
  }

  /** An invalid date is kept as null, which is how it is written. */
  function ReviveEntry(key: string, v: Js, dates: DateParser): Js
    decreases v, 2
  {
    if DateKey(key) && v.Text? then
      match dates(v.s)
      case Some(iso) => Date(iso)
      case None => Null
    else Revive(v, Some(key), dates)
  }

  function ReviveProps(props: seq<Prop>, dates: DateParser): seq<Prop>
    decreases props, 0
  {
    if props == [] then []
    else
      var last := props[|props| - 1];
      Assign(ReviveProps(props[..|props| - 1], dates), last.key, ReviveEntry(last.key, last.value, dates))
  }

  method ReviveValue(v: Js, key: Option<string>, dates: DateParser) returns (revived: Js)
    ensures revived == Revive(v, key, dates)
    decreases v
  {
    match v
    case Text(s) =>
      if key.Some? && BigintKey(key.value) && IsNumeral(s) {
        return BigInt(ParseBigint(s).value);
      }
      return v;
    case Array(items) =>
      var out: seq<Js> := [];
      for i := 0 to |items|
        invariant |out| == i && forall j :: 0 <= j < i ==> out[j] == Revive(items[j], None, dates)
      {
        var item := ReviveValue(items[i], None, dates);
        out := out + [item];
      }
      return Array(out);
    case Object(props) =>
      var out: seq<Prop> := [];
      for i := 0 to |props|
        invariant out == ReviveProps(props[..i], dates)
      {
        assert props[..i + 1][..i] == props[..i];
        var key, entry := props[i].key, props[i].value;
        if DateKey(key) && entry.Text? {
          var iso := dates(entry.s);
          out := Assign(out, key, if iso.Some? then Date(iso.value) else Null);
        } else {
          var value := ReviveValue(entry, Some(key), dates);
          out := Assign(out, key, value);
        }
      }
      assert props[..|props|] == props;
      return Object(out);
    case _ => return v;
  }

  // ---------- numerals ----------

  /** No sign before zero and no leading zeros. */
  predicate CanonicalNumeral(s: string) {
    var digits := if s != [] && s[0] == '-' then s[1..] else s;
    IsNumeral(s) && (digits[0] != '0' || s == "0")
  }

  lemma {:induction false} DigitsOfValue(s: string)
    requires s != [] && (forall i :: 0 <= i < |s| ==> IsDigit(s[i])) && (s[0] != '0' || |s| == 1)
    ensures Value(s) >= 0 && Digits(Value(s)) == s && (s[0] != '0' ==> Value(s) > 0)
  {
    var front, last := s[..|s| - 1], s[|s| - 1];
    var d := last as int - '0' as int;
    assert s == front + [last] && DigitChar(d) == last;
    if front == [] {
      assert Value(front) == 0;
      assert s == [last];
    } else {
      DigitsOfValue(front);
      var n := Value(s);
      assert n == 10 * Value(front) + d && n / 10 == Value(front) && n % 10 == d;
    }
  }

  lemma {:induction false} ValueOfDigitsNonNegative(s: string)
    requires forall i :: 0 <= i < |s| ==> IsDigit(s[i])
    ensures Value(s) >= 0
  {
    if s != [] {
      ValueOfDigitsNonNegative(s[..|s| - 1]);
    }
  }

  /** Digits never start with a zero, but for zero itself. */
  lemma {:induction false} DigitsStart(n: nat)
    ensures Digits(n)[0] == '0' <==> n == 0
    ensures n == 0 ==> Digits(n) == "0"
  {
    if n >= 10 {
      DigitsStart(n / 10);
    }
  }

  lemma UnsignedRoundTrip(digits: string)
    requires digits != [] && forall i :: 0 <= i < |digits| ==> IsDigit(digits[i])
    ensures Value(digits) >= 0
    ensures Digits(Value(digits)) == digits <==> digits[0] != '0' || digits == "0"
    ensures digits[0] != '0' ==> Value(digits) > 0
  {
    ValueOfDigitsNonNegative(digits);
    DigitsStart(Value(digits));
    if digits[0] != '0' || |digits| == 1 {
      DigitsOfValue(digits);
    }
  }

  /** Reading and printing a numeral gives it back exactly when it is canonical. */
  lemma NumeralRoundTrip(s: string)
    requires IsNumeral(s)
    ensures Decimal(ParseBigint(s).value) == s <==> CanonicalNumeral(s)
  {
    hide Value, Digits, Decimal;
    NumeralDigits(s);
    if s[0] == '-' {
      var digits := s[1..];
      UnsignedRoundTrip(digits);
      var n := Value(digits);
      assert s == "-" + digits;
      if n > 0 {
        DecimalOfNegative(-n);
        assert ("-" + Digits(n))[1..] == Digits(n);
        assert digits == "0" ==> Value("0") == 0 by { ZeroIsZero(); }
      } else {
        SignReadable(0);
      }
    } else {
      UnsignedRoundTrip(s);
      SignReadable(Value(s));
    }
  }

  lemma NumeralDigits(s: string)
    requires IsNumeral(s)
    ensures var digits := if s[0] == '-' then s[1..] else s;
            digits != [] && forall i :: 0 <= i < |digits| ==> IsDigit(digits[i])
  {
  }

  lemma DecimalOfNegative(i: int)
    requires i < 0
    ensures Decimal(i) == "-" + Digits(-i)
  {
  }

  lemma ZeroIsZero()
    ensures Value("0") == 0
  {
    assert "0"[..0] == "";
  }

  // ---------- parsed files ----------

  /** Index keys first and in numeric order, the order every object is enumerated in. */
  ghost predicate Enumerated(props: seq<Prop>) {
    && DistinctKeys(KeysOf(props))
    && forall i, j :: 0 <= i < j < |props| ==> !Overtakes(props[j].key, props[i].key)
  }

  /** What JSON.parse gives: no undefined, no big integers, no dates, numbers are finite. */
  ghost predicate Parsed(v: Js) {
    match v
    case Array(items) => forall i :: 0 <= i < |items| ==> Parsed(items[i])
    case Object(props) => Enumerated(props) && forall i :: 0 <= i < |props| ==> Parsed(props[i].value)
    case Null => true
    case Bool(_) => true
    case Number(_) => true
    case Text(_) => true
    case _ => false
  }

  /**
   * Canonical numerals under the keys of big integers, ISO dates under the keys of dates, and no
   * member named "__proto__".
   */
  ghost predicate Stable(v: Js, key: Option<string>, dates: DateParser)
    decreases v, 1
  {
    match v
    case Text(s) => key.Some? && BigintKey(key.value) && IsNumeral(s) ==> CanonicalNumeral(s)
    case Array(items) => forall i :: 0 <= i < |items| ==> Stable(items[i], None, dates)
    case Object(props) =>
      forall i :: 0 <= i < |props| ==> props[i].key != PROTO && StableEntry(props[i].key, props[i].value, dates)
    case _ => true
  }

  ghost predicate StableEntry(key: string, v: Js, dates: DateParser)
    decreases v, 2
  {
    if DateKey(key) && v.Text? then dates(v.s) == Some(v.s) else Stable(v, Some(key), dates)
  }

  // ---------- reviving objects ----------

  lemma {:induction false} AppendProp(props: seq<Prop>, p: Prop)
    requires forall i :: 0 <= i < |props| ==> !Overtakes(p.key, props[i].key)
    ensures InsertProp(props, p) == props + [p]
  {
    if props != [] {
      AppendProp(props[1..], p);
      assert props == [props[0]] + props[1..];
    }
  }

  lemma {:induction false} InsertPropMembers(props: seq<Prop>, p: Prop)
    ensures |InsertProp(props, p)| == |props| + 1
    ensures forall q :: q in InsertProp(props, p) <==> q == p || q in props
  {
    if props != [] && !Overtakes(p.key, props[0].key) {
      InsertPropMembers(props[1..], p);
      assert props == [props[0]] + props[1..];
    }
  }

  /** A member named "__proto__" is lost. */
  lemma {:induction false} RevivedSize(props: seq<Prop>, dates: DateParser)
    ensures |ReviveProps(props, dates)| <= |props|
    ensures PROTO in KeysOf(props) ==> |ReviveProps(props, dates)| < |props|
    decreases props
  {
    hide ReviveEntry, InsertProp;
    if props != [] {
      var front, last := props[..|props| - 1], props[|props| - 1];
      assert KeysOf(props) == KeysOf(front) + [last.key];
      RevivedSize(front, dates);
      InsertPropMembers(ReviveProps(front, dates), Prop(last.key, ReviveEntry(last.key, last.value, dates)));
    }
  }

  ghost predicate RevivedAs(props: seq<Prop>, out: seq<Prop>, dates: DateParser) {
    && |out| == |props|
    && forall i :: 0 <= i < |props| ==> out[i] == Prop(props[i].key, ReviveEntry(props[i].key, props[i].value, dates))
  }

  /** Without one, every member is revived in its place. */
  lemma {:induction false} RevivedInPlace(props: seq<Prop>, dates: DateParser)
    requires Enumerated(props) && PROTO !in KeysOf(props)
    ensures RevivedAs(props, ReviveProps(props, dates), dates)
    decreases props
  {
    hide ReviveEntry, Enumerated;
    if props != [] {
      var front, last := props[..|props| - 1], props[|props| - 1];
      FrontEnumerated(props);
      RevivedInPlace(front, dates);
      NewKey(front, ReviveProps(front, dates), last, dates);
    }
  }

  lemma FrontEnumerated(props: seq<Prop>)
    requires props != [] && Enumerated(props)
    ensures Enumerated(props[..|props| - 1])
    ensures KeysOf(props) == KeysOf(props[..|props| - 1]) + [props[|props| - 1].key]
    ensures forall i :: 0 <= i < |props| - 1 ==>
              props[i].key != props[|props| - 1].key && !Overtakes(props[|props| - 1].key, props[i].key)
    ensures props == props[..|props| - 1] + [props[|props| - 1]]
  {
    var n := |props| - 1;
    var keys, front := KeysOf(props), KeysOf(props[..n]);
    assert forall i :: 0 <= i < n ==> front[i] == keys[i];
    forall i | 0 <= i < n
      ensures props[i].key != props[n].key
    {
      assert keys[i] != keys[n];
    }
  }

  lemma NewKey(front: seq<Prop>, out: seq<Prop>, last: Prop, dates: DateParser)
    requires RevivedAs(front, out, dates) && last.key != PROTO
    requires forall i :: 0 <= i < |front| ==> front[i].key != last.key && !Overtakes(last.key, front[i].key)
    ensures RevivedAs(front + [last], Assign(out, last.key, ReviveEntry(last.key, last.value, dates)), dates)
  {
    hide ReviveEntry;
    var p := Prop(last.key, ReviveEntry(last.key, last.value, dates));
    assert !Has(out, last.key);
    forall i | 0 <= i < |out|
      ensures !Overtakes(p.key, out[i].key)
    {
      assert out[i].key == front[i].key;
    }
    AppendProp(out, p);
  }

  // ---------- a file that survives a restart ----------

  predicate AllDefined(props: seq<Prop>) {
    forall i :: 0 <= i < |props| ==> props[i].value != Undefined
  }

  lemma {:induction false} UndefinedIsDropped(props: seq<Prop>)
    ensures |MembersOf(props)| <= |props|
    ensures |MembersOf(props)| == |props| ==> AllDefined(props)
  {
    if props != [] {
      UndefinedIsDropped(props[1..]);
      assert forall i :: 1 <= i < |props| ==> props[i] == props[1..][i - 1];
    }
  }

  lemma EntryWritten(key: string, v: Js, dates: DateParser)
    requires Parsed(v)
    requires TreeOf(Revive(v, Some(key), dates)) == TreeOf(v) <==> Stable(v, Some(key), dates)
    ensures ReviveEntry(key, v, dates) != Undefined
    ensures TreeOf(ReviveEntry(key, v, dates)) == TreeOf(v) <==> StableEntry(key, v, dates)
  {
  }

  ghost predicate EntriesWritten(props: seq<Prop>, dates: DateParser) {
    forall i :: 0 <= i < |props| ==>
      var revived := ReviveEntry(props[i].key, props[i].value, dates);
      && revived != Undefined
      && (TreeOf(revived) == TreeOf(props[i].value) <==> StableEntry(props[i].key, props[i].value, dates))
  }

  lemma ObjectWritten(props: seq<Prop>, dates: DateParser)
    requires Parsed(Object(props)) && EntriesWritten(props, dates)
    ensures MembersOf(ReviveProps(props, dates)) == MembersOf(props) <==> Stable(Object(props), None, dates)
  {
    hide ReviveEntry, StableEntry, ReviveProps, MembersOf;
    var out := ReviveProps(props, dates);
    MembersOfDefined(props);
    if PROTO in KeysOf(props) {
      RevivedSize(props, dates);
      UndefinedIsDropped(out);
      assert props[IndexOf(props, PROTO)].key == PROTO;
    } else {
      RevivedInPlace(props, dates);
      MembersOfDefined(out);
      assert forall i :: 0 <= i < |props| ==> KeysOf(props)[i] == props[i].key;
      MembersCompare(props, out, dates);
    }
  }

  lemma MembersCompare(props: seq<Prop>, out: seq<Prop>, dates: DateParser)
    requires RevivedAs(props, out, dates) && EntriesWritten(props, dates)
    requires forall i :: 0 <= i < |props| ==> props[i].value != Undefined
    ensures MembersOf(out) == MembersOf(props)
       <==> forall i :: 0 <= i < |props| ==> StableEntry(props[i].key, props[i].value, dates)
  {
    hide ReviveEntry, StableEntry, MembersOf;
    MembersOfDefined(props);
    MembersOfDefined(out);
    if MembersOf(out) == MembersOf(props) {
      forall i | 0 <= i < |props|
        ensures StableEntry(props[i].key, props[i].value, dates)
      {
        assert MembersOf(out)[i] == MembersOf(props)[i];
      }
    }
  }

  /** Writing a revived file gives the same text exactly when the file is stable. */
  lemma {:induction false} WrittenAgainIffStable(v: Js, key: Option<string>, dates: DateParser)
    requires Parsed(v)
    ensures TreeOf(Revive(v, key, dates)) == TreeOf(v) <==> Stable(v, key, dates)
    decreases v
  {
    match v
    case Text(s) =>
      if IsNumeral(s) {
        NumeralRoundTrip(s);
      }
    case Array(items) =>
      var revived := Revive(v, key, dates).items;
      forall i | 0 <= i < |items|
        ensures TreeOf(revived[i]) == TreeOf(items[i]) <==> Stable(items[i], None, dates)
      {
        WrittenAgainIffStable(items[i], None, dates);
      }
      ItemsCompare(revived, items);
    case Object(props) =>
      forall i | 0 <= i < |props|
        ensures ReviveEntry(props[i].key, props[i].value, dates) != Undefined
        ensures TreeOf(ReviveEntry(props[i].key, props[i].value, dates)) == TreeOf(props[i].value)
           <==> StableEntry(props[i].key, props[i].value, dates)
      {
        WrittenAgainIffStable(props[i].value, Some(props[i].key), dates);
        EntryWritten(props[i].key, props[i].value, dates);
      }
      ObjectWritten(props, dates);
    case _ =>
  }

  lemma ItemsCompare(a: seq<Js>, b: seq<Js>)
    requires |a| == |b|
    ensures TreeOf(Array(a)) == TreeOf(Array(b)) <==> forall i :: 0 <= i < |a| ==> TreeOf(a[i]) == TreeOf(b[i])
  {
    var x, y := TreeOf(Array(a)).items, TreeOf(Array(b)).items;
    assert |x| == |a| && forall i :: 0 <= i < |a| ==> x[i] == TreeOf(a[i]);
    assert |y| == |b| && forall i :: 0 <= i < |b| ==> y[i] == TreeOf(b[i]);
    if forall i :: 0 <= i < |a| ==> TreeOf(a[i]) == TreeOf(b[i]) {
      assert x == y;
    }
    if x == y {
      forall i | 0 <= i < |a|
        ensures TreeOf(a[i]) == TreeOf(b[i])
      {
        assert x[i] == y[i];
      }
    }
  }

  // ---------- the store and its file ----------

  /** The text of JSON.stringify read back by JSON.parse. */
  function Reparse(t: Tree): Js
    decreases t, 1
  {
    match t
    case TNull => Null
    case TBool(b) => Bool(b)
    case TNum(n) => Number(n)
    case TStr(s) => Text(s)
    case TArr(items) => Array(seq(|items|, i requires 0 <= i < |items| => Reparse(items[i])))
    case TObj(members) => Object(ReparseMembers(members))
  }

  /** JSON.parse defines properties, so that "__proto__" is a key like any other. */
  function ReparseMembers(members: seq<Member>): seq<Prop>
    decreases members, 0
  {
    if members == [] then []
    else
      var last := members[|members| - 1];
      Define(ReparseMembers(members[..|members| - 1]), last.key, Reparse(last.value))
  }

  function Define(props: seq<Prop>, key: string, value: Js): seq<Prop> {
    if Has(props, key) then props[IndexOf(props, key) := Prop(key, value)] else InsertProp(props, Prop(key, value))
  }

  /** Map.prototype.set on a map in insertion order, whose values hold their key. */
  function SetValue(values: seq<Js>, v: Js, keyOf: Js -> Js): seq<Js> {
    if values == [] then [v]
    else if keyOf(values[0]) == keyOf(v) then [v] + values[1..]
    else [values[0]] + SetValue(values[1..], v, keyOf)
  }

  function Hydrated(file: seq<Js>, keyOf: Js -> Js, dates: DateParser): seq<Js> {
    if file == [] then []
    else
      var n := |file| - 1;
      SetValue(Hydrated(file[..n], keyOf, dates), Revive(file[n], None, dates), keyOf)
  }

  ghost predicate DistinctValues(values: seq<Js>, keyOf: Js -> Js) {
    forall i, j :: 0 <= i < j < |values| ==> keyOf(values[i]) != keyOf(values[j])
  }

  lemma {:induction false} SetValueDistinct(values: seq<Js>, v: Js, keyOf: Js -> Js)
    requires DistinctValues(values, keyOf)
    ensures DistinctValues(SetValue(values, v, keyOf), keyOf)
    ensures forall w :: w in SetValue(values, v, keyOf) ==> w == v || w in values
  {
    if values != [] && keyOf(values[0]) != keyOf(v) {
      var rest := SetValue(values[1..], v, keyOf);
      SetValueDistinct(values[1..], v, keyOf);
      forall i | 0 <= i < |rest|
        ensures keyOf(rest[i]) != keyOf(values[0])
      {
        assert rest[i] in rest;
      }
    }
  }

  lemma {:induction false} HydratedDistinct(file: seq<Js>, keyOf: Js -> Js, dates: DateParser)
    ensures DistinctValues(Hydrated(file, keyOf, dates), keyOf)
  {
    hide Revive;
    if file != [] {
      var n := |file| - 1;
      HydratedDistinct(file[..n], keyOf, dates);
      SetValueDistinct(Hydrated(file[..n], keyOf, dates), Revive(file[n], None, dates), keyOf);
    }
  }

  function WrittenValues(values: seq<Js>): seq<Tree> {
    seq(|values|, i requires 0 <= i < |values| => TreeOf(values[i]))
  }

  /** Values with different keys keep their order in the map. */
  lemma {:induction false} SetNew(values: seq<Js>, v: Js, keyOf: Js -> Js)
    requires forall i :: 0 <= i < |values| ==> keyOf(values[i]) != keyOf(v)
    ensures SetValue(values, v, keyOf) == values + [v]
  {
    if values != [] {
      SetNew(values[1..], v, keyOf);
      assert values == [values[0]] + values[1..];
    }
  }

  /** A value whose key is there takes the place of the one that has it. */
  lemma {:induction false} SetInPlace(values: seq<Js>, v: Js, keyOf: Js -> Js, i: nat)
    requires DistinctValues(values, keyOf) && i < |values| && keyOf(values[i]) == keyOf(v)
    ensures SetValue(values, v, keyOf) == values[i := v]
  {
    if i > 0 {
      assert keyOf(values[0]) != keyOf(values[i]);
      SetInPlace(values[1..], v, keyOf, i - 1);
      assert values[i := v] == [values[0]] + values[1..][i - 1 := v];
    }
  }

  lemma SetOne(values: seq<Js>, v: Js, keyOf: Js -> Js)
    requires DistinctValues(values, keyOf)
    ensures forall i :: 0 <= i < |values| && keyOf(values[i]) == keyOf(v)
              ==> SetValue(values, v, keyOf) == values[i := v]
    ensures (forall i :: 0 <= i < |values| ==> keyOf(values[i]) != keyOf(v))
        ==> SetValue(values, v, keyOf) == values + [v]
  {
    if i :| 0 <= i < |values| && keyOf(values[i]) == keyOf(v) {
      SetInPlace(values, v, keyOf, i);
    } else {
      SetNew(values, v, keyOf);
    }
  }

  function CursorKey(v: Js): Js {
    Field(v, "sourceId")
  }

  function ChangeKey(v: Js): Js {
    Field(Field(v, "change"), "id")
  }

  datatype File = File(cursors: seq<Tree>, changes: seq<Tree>)

  /** What the next process parses from a file. */
  function Reparsed(trees: seq<Tree>): seq<Js> {
    seq(|trees|, i requires 0 <= i < |trees| => Reparse(trees[i]))
  }

  class JsonFileGovernanceStore {
    const dates: DateParser
    var file: Option<File>
    var loaded: bool
    var cursors: seq<Js>
    var changes: seq<Js>

    constructor (onDisk: Option<File>, dateParser: DateParser)
      ensures Valid() && file == onDisk && dates == dateParser && !loaded && cursors == [] && changes == []
    {
      dates, file, loaded, cursors, changes := dateParser, onDisk, false, [], [];
    }

    ghost predicate Valid()
      reads this
    {
      && (loaded || (cursors == [] && changes == []))
      && DistinctValues(cursors, CursorKey)
      && DistinctValues(changes, ChangeKey)
    }

    /** What the store answers with: before the first use, what the file holds. */
    ghost function Cursors(): seq<Js>
      reads this
    {
      if loaded || file.None? then cursors else Hydrated(Reparsed(file.value.cursors), CursorKey, dates)
    }

    ghost function Changes(): seq<Js>
      reads this
    {
      if loaded || file.None? then changes else Hydrated(Reparsed(file.value.changes), ChangeKey, dates)
    }

    /** The first use reads the file; a missing file leaves the store empty. */
    method Hydrate()
      requires Valid()
      modifies this
      ensures Valid() && loaded && file == old(file)
      ensures cursors == old(Cursors()) && changes == old(Changes())
    {
      if loaded || file.None? {
        loaded := true;
        return;
      }
      loaded := true;
      var raw := Reparsed(file.value.cursors);
      for i := 0 to |raw|
        invariant loaded && file == old(file) && changes == old(changes)
        invariant cursors == Hydrated(raw[..i], CursorKey, dates)
      {
        assert raw[..i + 1][..i] == raw[..i];
        var revived := ReviveValue(raw[i], None, dates);
        cursors := SetValue(cursors, revived, CursorKey);
      }
      assert raw[..|raw|] == raw;
      var rawChanges := Reparsed(file.value.changes);
      for i := 0 to |rawChanges|
        invariant loaded && file == old(file)
        invariant cursors == Hydrated(raw, CursorKey, dates)
        invariant changes == Hydrated(rawChanges[..i], ChangeKey, dates)
      {
        assert rawChanges[..i + 1][..i] == rawChanges[..i];
        var revived := ReviveValue(rawChanges[i], None, dates);
        changes := SetValue(changes, revived, ChangeKey);
      }
      assert rawChanges[..|rawChanges|] == rawChanges;
      HydratedDistinct(raw, CursorKey, dates);
      HydratedDistinct(rawChanges, ChangeKey, dates);
    }

    method Persist()
      modifies `file
      ensures file == Some(File(WrittenValues(cursors), WrittenValues(changes)))
    {
      file := Some(File(WrittenValues(cursors), WrittenValues(changes)));
    }

    method SaveCursor(cursor: Js)
      requires Valid()
      modifies this
      ensures Valid() && loaded
      ensures changes == old(Changes())
      ensures forall i :: 0 <= i < |old(Cursors())| && Field(old(Cursors())[i], "sourceId") == Field(cursor, "sourceId")
                ==> cursors == old(Cursors())[i := cursor]
      ensures (forall i :: 0 <= i < |old(Cursors())| ==>
                 Field(old(Cursors())[i], "sourceId") != Field(cursor, "sourceId"))
          ==> cursors == old(Cursors()) + [cursor]
      ensures file == Some(File(WrittenValues(cursors), WrittenValues(changes)))
    {
      Hydrate();
      SetValueDistinct(cursors, cursor, CursorKey);
      SetOne(cursors, cursor, CursorKey);
      cursors := SetValue(cursors, cursor, CursorKey);
      Persist();
    }

    method UpsertIndexedChange(record: Js)
      requires Valid()
      modifies this
      ensures Valid() && loaded
      ensures cursors == old(Cursors())
      ensures forall i :: 0 <= i < |old(Changes())|
                          && Field(Field(old(Changes())[i], "change"), "id") == Field(Field(record, "change"), "id")
                ==> changes == old(Changes())[i := record]
      ensures (forall i :: 0 <= i < |old(Changes())| ==>
                 Field(Field(old(Changes())[i], "change"), "id") != Field(Field(record, "change"), "id"))
          ==> changes == old(Changes()) + [record]
      ensures file == Some(File(WrittenValues(cursors), WrittenValues(changes)))
    {
      Hydrate();
      SetValueDistinct(changes, record, ChangeKey);
      SetOne(changes, record, ChangeKey);
      changes := SetValue(changes, record, ChangeKey);
      Persist();
    }
  }

  ghost predicate DistinctKeysOf(file: seq<Js>, keyOf: Js -> Js, dates: DateParser) {
    forall i, j :: 0 <= i < j < |file| ==>
      keyOf(Revive(file[i], None, dates)) != keyOf(Revive(file[j], None, dates))
  }

  lemma {:induction false} HydratedInOrder(file: seq<Js>, keyOf: Js -> Js, dates: DateParser)
    requires DistinctKeysOf(file, keyOf, dates)
    ensures |Hydrated(file, keyOf, dates)| == |file|
    ensures forall i :: 0 <= i < |file| ==> Hydrated(file, keyOf, dates)[i] == Revive(file[i], None, dates)
  {
    hide Revive;
    if file != [] {
      var n := |file| - 1;
      HydratedInOrder(file[..n], keyOf, dates);
      SetNew(Hydrated(file[..n], keyOf, dates), Revive(file[n], None, dates), keyOf);
    }
  }
}
