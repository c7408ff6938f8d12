/**
 * The canonical JSON of packages/blockchain/src/serialize.ts: bigints and dates become
 * strings, object keys are sorted, undefined members are dropped, and the result is printed.
 * Two values get the same text exactly when they mean the same JSON.
 */
module CanonicalJson {
  import opened Wrappers
  import opened JsonText
  import opened JsonReader

  /** A JavaScript value without functions and symbols; a date is its ISO string. */
  datatype Js =
    | Undefined
    | Null
    | Bool(b: bool)
    | Number(n: int)
    | NaN
    | Infinite(negative: bool)
    | BigInt(i: int)
    | Text(s: string)
    | Date(iso: string)
    | Array(items: seq<Js>)
    | Object(props: seq<Prop>)

  /** One own property. The properties of an object are in enumeration order. */
  datatype Prop = Prop(key: string, value: Js)

  const PROTO := "__proto__"

  // ---------- the order of keys ----------

  /** Where the first UTF-16 unit of a character sorts: surrogates lie between U+D7FF and U+E000. */
  function Utf16Rank(c: char): int {
    if c as int < 0xD800 then c as int
    else if c as int >= 0x10000 then c as int
    else c as int + 0x200000
  }

  /** Array.prototype.sort without a comparator: by UTF-16 code units. */
  predicate Utf16Less(a: string, b: string) {
    if b == [] then false
    else if a == [] then true
    else if a[0] == b[0] then Utf16Less(a[1..], b[1..])
    else Utf16Rank(a[0]) < Utf16Rank(b[0])
  }

  /** An array index, section 6.1.7 of ECMA-262: a canonical numeral below 2^32 - 1. */
  predicate IsIndex(key: string) {
    0 <= Value(key) < 0xFFFF_FFFF && key == Decimal(Value(key))
  }

  /** OrdinaryOwnPropertyKeys, section 10.1.11 of ECMA-262, for keys inserted in sorted order. */
  predicate Precedes(a: string, b: string) {
    if IsIndex(a) && IsIndex(b) then Value(a) < Value(b)
    else if IsIndex(a) || IsIndex(b) then IsIndex(a)
    else Utf16Less(a, b)
  }

  lemma {:induction false} Utf16LessTrichotomy(a: string, b: string)
    ensures a == b ==> !Utf16Less(a, b)
    ensures a != b ==> (Utf16Less(a, b) <==> !Utf16Less(b, a))
  {
    if a != [] && b != [] && a[0] == b[0] {
      Utf16LessTrichotomy(a[1..], b[1..]);
      assert a == [a[0]] + a[1..] && b == [b[0]] + b[1..];
    }
  }

  lemma {:induction false} Utf16LessTransitive(a: string, b: string, c: string)
    requires Utf16Less(a, b) && Utf16Less(b, c)
    ensures Utf16Less(a, c)
  {
    if a != [] && a[0] == b[0] && b[0] == c[0] {
      Utf16LessTransitive(a[1..], b[1..], c[1..]);
    }
  }

  lemma PrecedesTrichotomy(a: string, b: string)
    ensures a == b ==> !Precedes(a, b)
    ensures a != b ==> (Precedes(a, b) <==> !Precedes(b, a))
  {
    Utf16LessTrichotomy(a, b);
  }

  lemma PrecedesTransitive(a: string, b: string, c: string)
    requires Precedes(a, b) && Precedes(b, c)
    ensures Precedes(a, c)
  {
    if !IsIndex(a) && !IsIndex(b) && !IsIndex(c) {
      Utf16LessTransitive(a, b, c);
    }
  }

  function InsertKey(key: string, sorted: seq<string>): seq<string> {
    if sorted == [] || Utf16Less(key, sorted[0]) then [key] + sorted
    else [sorted[0]] + InsertKey(key, sorted[1..])
  }

  function SortKeys(keys: seq<string>): seq<string> {
    if keys == [] then [] else InsertKey(keys[0], SortKeys(keys[1..]))
  }

  ghost predicate Ascending(keys: seq<string>) {
    forall i, j :: 0 <= i < j < |keys| ==> Utf16Less(keys[i], keys[j])
  }

  lemma {:induction false} InsertKeyAscending(key: string, sorted: seq<string>)
    requires Ascending(sorted) && key !in sorted
    ensures Ascending(InsertKey(key, sorted))
    ensures forall k :: k in InsertKey(key, sorted) <==> k == key || k in sorted
  {
    if sorted == [] {
    } else if Utf16Less(key, sorted[0]) {
      forall j | 0 < j < |sorted|
        ensures Utf16Less(key, sorted[j])
      {
        Utf16LessTransitive(key, sorted[0], sorted[j]);
      }
    } else {
      InsertKeyAscending(key, sorted[1..]);
      Utf16LessTrichotomy(key, sorted[0]);
      var rest := InsertKey(key, sorted[1..]);
      assert sorted == [sorted[0]] + sorted[1..];
      forall j | 0 <= j < |rest|
        ensures Utf16Less(sorted[0], rest[j])
      {
        assert rest[j] in rest;
      }
    }
  }

  ghost predicate DistinctKeys(keys: seq<string>) {
    forall i, j :: 0 <= i < j < |keys| ==> keys[i] != keys[j]
  }

  lemma {:induction false} SortKeysAscending(keys: seq<string>)
    requires DistinctKeys(keys)
    ensures Ascending(SortKeys(keys))
    ensures forall k :: k in SortKeys(keys) <==> k in keys
  {
    if keys != [] {
      SortKeysAscending(keys[1..]);
      assert keys == [keys[0]] + keys[1..];
      InsertKeyAscending(keys[0], SortKeys(keys[1..]));
    }
  }

  // ---------- objects ----------

  function KeysOf(props: seq<Prop>): (keys: seq<string>)
    ensures |keys| == |props|
  {
    seq(|props|, i requires 0 <= i < |props| => props[i].key)
  }

  /** The position of an own property, or the number of properties when it is absent. */
  function IndexOf(props: seq<Prop>, key: string): (i: nat)
    ensures i <= |props|
    ensures i < |props| ==> props[i].key == key
    ensures key in KeysOf(props) <==> i < |props|
    ensures forall j :: 0 <= j < i ==> props[j].key != key
  {
    if props == [] then 0
    else if props[0].key == key then assert KeysOf(props)[0] == key; 0
    else
      var i := IndexOf(props[1..], key);
      assert KeysOf(props) == [props[0].key] + KeysOf(props[1..]);
      i + 1
  }

  function Has(props: seq<Prop>, key: string): bool {
    IndexOf(props, key) < |props|
  }

  function Get(props: seq<Prop>, key: string): Js {
    if Has(props, key) then props[IndexOf(props, key)].value else Undefined
  }

  predicate Overtakes(key: string, other: string) {
    IsIndex(key) && (!IsIndex(other) || Value(key) < Value(other))
  }

  /** Where a new key goes: index keys in numeric order before all others, others at the end. */
  function InsertProp(props: seq<Prop>, p: Prop): seq<Prop> {
    if props == [] then [p]
    else if Overtakes(p.key, props[0].key) then [p] + props
    else [props[0]] + InsertProp(props[1..], p)
  }

  /** out[key] = value. Assigning "__proto__" sets the prototype and makes no own property. */
  function Assign(props: seq<Prop>, key: string, value: Js): seq<Prop> {
    if key == PROTO then props
    else if Has(props, key) then props[IndexOf(props, key) := Prop(key, value)]
    else InsertProp(props, Prop(key, value))
  }

  // ---------- the functions of serialize.ts ----------

  function SerializeBigint(i: int): string {
    Decimal(i)
  }

  predicate IsNumeral(s: string) {
    var digits := if s != [] && s[0] == '-' then s[1..] else s;
    digits != [] && forall i :: 0 <= i < |digits| ==> IsDigit(digits[i])
  }

  /** Leading zeros and "-0" are accepted. */
  function ParseBigint(s: string): Result<int> {
    if !IsNumeral(s) then Err("Invalid decimal bigint")
    else if s[0] == '-' then Ok(-Value(s[1..]))
    else Ok(Value(s))
  }

  lemma BigintRoundTrip(i: int)
    ensures ParseBigint(SerializeBigint(i)) == Ok(i)
  {
    SignReadable(i);
    ValueOfDigits(if i < 0 then -i else i);
  }

  function JsonSafe(v: Js): Js
    decreases v, 1
  {
    match v
    case BigInt(i) => Text(Decimal(i))
    case Date(iso) => Text(iso)
    case Array(items) => Array(seq(|items|, i requires 0 <= i < |items| => JsonSafe(items[i])))
    case Object(props) => Object(SafeProps(props))
    case _ => v
  }

  function SafeProps(props: seq<Prop>): seq<Prop>
    decreases props, 0
  {
    if props == [] then []
    else
      var last := props[|props| - 1];
      Assign(SafeProps(props[..|props| - 1]), last.key, JsonSafe(last.value))
  }

  function Sorted(v: Js): Js
    decreases v, 1, 0
  {
    match v
    case Array(items) => Array(seq(|items|, i requires 0 <= i < |items| => Sorted(items[i])))
    case Object(props) => Object(SortedProps(v, SortKeys(KeysOf(props))))
    case _ => v
  }

  /** The members of v at the keys, in the order the keys are assigned; undefined ones are skipped. */
  function SortedProps(v: Js, keys: seq<string>): seq<Prop>
    requires v.Object?
    decreases v, 0, |keys|
  {
    if keys == [] then []
    else
      var key := keys[|keys| - 1];
      var rest := SortedProps(v, keys[..|keys| - 1]);
      if !Has(v.props, key) || Get(v.props, key) == Undefined then rest
      else
        var i := IndexOf(v.props, key);
        Assign(rest, key, Sorted(v.props[i].value))
  }

  /** What JSON.stringify sees: undefined members are absent, other undefined and non-finite values are null. */
  function TreeOf(v: Js): Tree
    decreases v, 1
  {
    match v
    case Undefined => TNull
    case Null => TNull
    case NaN => TNull
    case Infinite(_) => TNull
    case Bool(b) => TBool(b)
    case Number(n) => TNum(n)
    case BigInt(i) => TStr(Decimal(i))
    case Text(s) => TStr(s)
    case Date(iso) => TStr(iso)
    case Array(items) => TArr(seq(|items|, i requires 0 <= i < |items| => TreeOf(items[i])))
    case Object(props) => TObj(MembersOf(props))
  }

  function MembersOf(props: seq<Prop>): seq<Member>
    decreases props, 0
  {
    if props == [] then []
    else
      var rest := MembersOf(props[1..]);
      if props[0].value == Undefined then rest else [Member(props[0].key, TreeOf(props[0].value))] + rest
  }

  /** JSON.stringify of undefined is undefined. */
  function Stringify(v: Js): Option<string> {
    if v == Undefined then None else Some(Print(TreeOf(v)))
  }

  function Canonical(v: Js): Option<string> {
    Stringify(Sorted(JsonSafe(v)))
  }

  method ToJsonSafe(value: Js) returns (safe: Js)
    ensures safe == JsonSafe(value)
    decreases value
  {
    match value
    case BigInt(i) => safe := Text(SerializeBigint(i));
    case Array(items) =>
      var out: seq<Js> := [];
      for i := 0 to |items|
        invariant |out| == i && forall j :: 0 <= j < i ==> out[j] == JsonSafe(items[j])
      {
        var item := ToJsonSafe(items[i]);
        out := out + [item];
      }
      safe := Array(out);
    case Date(iso) => safe := Text(iso);
    case Object(props) =>
      var out: seq<Prop> := [];
      for i := 0 to |props|
        invariant out == SafeProps(props[..i])
      {
        var entry := ToJsonSafe(props[i].value);
        out := Assign(out, props[i].key, entry);
        assert props[..i + 1][..i] == props[..i];
      }
      assert props[..|props|] == props;
      safe := Object(out);
    case _ => safe := value;
  }

  method SortJsonValue(value: Js) returns (sorted: Js)
    ensures sorted == Sorted(value)
    decreases value
  {
    match value
    case Array(items) =>
      var out: seq<Js> := [];
      for i := 0 to |items|
        invariant |out| == i && forall j :: 0 <= j < i ==> out[j] == Sorted(items[j])
      {
        var item := SortJsonValue(items[i]);
        out := out + [item];
      }
      sorted := Array(out);
    case Object(props) =>
      var keys := SortKeys(KeysOf(props));
      var out: seq<Prop> := [];
      for i := 0 to |keys|
        invariant out == SortedProps(value, keys[..i])
      {
        assert keys[..i + 1][..i] == keys[..i];
        if Has(props, keys[i]) && Get(props, keys[i]) != Undefined {
          var entry := SortJsonValue(props[IndexOf(props, keys[i])].value);
          out := Assign(out, keys[i], entry);
        }
      }
      assert keys[..|keys|] == keys;
      sorted := Object(out);
    case _ => sorted := value;
  }

  method CanonicalizeJson(value: Js) returns (text: Option<string>)
    ensures text == Canonical(value)
  {
    var safe := ToJsonSafe(value);
    var sorted := SortJsonValue(safe);
    text := Stringify(sorted);
  }

  // ---------- what a value means ----------

  /** A JSON value with the order of members forgotten. */
  datatype Json =
    | JNull
    | JBool(b: bool)
    | JNum(n: int)
    | JStr(s: string)
    | JArr(items: seq<Json>)
    | JObj(members: map<string, Json>)

  /** The keys of one JavaScript object are distinct. */
  ghost predicate WellFormed(v: Js) {
    match v
    case Array(items) => forall i :: 0 <= i < |items| ==> WellFormed(items[i])
    case Object(props) =>
      && DistinctKeys(KeysOf(props))
      && forall i :: 0 <= i < |props| ==> WellFormed(props[i].value)
    case _ => true
  }

  /** A member counts unless it is undefined or would set the prototype. */
  predicate Kept(props: seq<Prop>, key: string) {
    key != PROTO && Get(props, key) != Undefined
  }

  /**
   * Independent of the order of keys: big integers read as decimal strings and dates as ISO
   * strings, undefined members are absent, undefined and non-finite values are null.
   */
  function Meaning(v: Js): Json {
    match v
    case Undefined => JNull
    case Null => JNull
    case NaN => JNull
    case Infinite(_) => JNull
    case Bool(b) => JBool(b)
    case Number(n) => JNum(n)
    case BigInt(i) => JStr(Decimal(i))
    case Text(s) => JStr(s)
    case Date(iso) => JStr(iso)
    case Array(items) => JArr(seq(|items|, i requires 0 <= i < |items| => Meaning(items[i])))
    case Object(props) =>
      JObj(map k | k in KeysOf(props) && Kept(props, k) :: Meaning(props[IndexOf(props, k)].value))
  }

  /** Two objects whose kept members agree mean the same. */
  lemma SameMembersSameMeaning(props: seq<Prop>, others: seq<Prop>)
    requires forall k :: Kept(props, k) <==> Kept(others, k)
    requires forall k :: Kept(props, k) ==> Meaning(Get(props, k)) == Meaning(Get(others, k))
    ensures Meaning(Object(props)) == Meaning(Object(others))
  {
    var left, right := Meaning(Object(props)).members, Meaning(Object(others)).members;
    forall k
      ensures k in left <==> k in right
      ensures k in left ==> left[k] == right[k]
    {
      assert Kept(props, k) ==> k in KeysOf(props);
      assert Kept(others, k) ==> k in KeysOf(others);
    }
    assert left == right;
  }

  // ---------- assignment ----------

  lemma HeadGets(p: Prop, props: seq<Prop>, q: string)
    ensures Has([p] + props, q) <==> q == p.key || Has(props, q)
    ensures Get([p] + props, q) == if q == p.key then p.value else Get(props, q)
  {
    var all := [p] + props;
    assert all[1..] == props;
    assert IndexOf(all, q) == if q == p.key then 0 else IndexOf(props, q) + 1;
  }

  lemma {:induction false} InsertPropGets(props: seq<Prop>, p: Prop, q: string)
    requires !Has(props, p.key)
    ensures Has(InsertProp(props, p), q) <==> q == p.key || Has(props, q)
    ensures Get(InsertProp(props, p), q) == if q == p.key then p.value else Get(props, q)
  {
    if props == [] || Overtakes(p.key, props[0].key) {
      HeadGets(p, props, q);
    } else {
      var head, tail := props[0], props[1..];
      assert props == [head] + tail;
      HeadGets(head, tail, p.key);
      HeadGets(head, tail, q);
      InsertPropGets(tail, p, q);
      HeadGets(head, InsertProp(tail, p), q);
    }
  }

  lemma AssignGets(props: seq<Prop>, key: string, value: Js, q: string)
    ensures Has(Assign(props, key, value), q) <==> (q == key && key != PROTO) || Has(props, q)
    ensures Get(Assign(props, key, value), q) == if q == key && key != PROTO then value else Get(props, q)
  {
    if key != PROTO {
      if Has(props, key) {
        ReplaceGets(props, IndexOf(props, key), Prop(key, value), q);
      } else {
        InsertPropGets(props, Prop(key, value), q);
      }
    }
  }

  lemma ReplaceGets(props: seq<Prop>, i: nat, p: Prop, q: string)
    requires i < |props| && i == IndexOf(props, p.key)
    ensures IndexOf(props[i := p], q) == IndexOf(props, q)
  {
    var after := props[i := p];
    assert KeysOf(after) == KeysOf(props);
    var a, b := IndexOf(props, q), IndexOf(after, q);
    assert a < |props| ==> after[a].key == props[a].key;
    assert b < |props| ==> after[b].key == props[b].key;
  }

  lemma DistinctTail(key: string, rest: seq<string>)
    ensures DistinctKeys([key] + rest) <==> key !in rest && DistinctKeys(rest)
  {
    var keys := [key] + rest;
    if key !in rest && DistinctKeys(rest) {
      forall i, j | 0 <= i < j < |keys|
        ensures keys[i] != keys[j]
      {
        assert keys[j] == rest[j - 1];
        assert i > 0 ==> keys[i] == rest[i - 1];
      }
    }
    if DistinctKeys(keys) {
      forall j | 0 <= j < |rest|
        ensures rest[j] != key && forall i :: 0 <= i < j ==> rest[i] != rest[j]
      {
        assert keys[0] != keys[j + 1];
        assert forall i :: 0 <= i < j ==> rest[i] == keys[i + 1];
      }
    }
  }

  lemma TailKeys(props: seq<Prop>)
    requires props != []
    ensures KeysOf(props) == [props[0].key] + KeysOf(props[1..])
    ensures DistinctKeys(KeysOf(props)) <==> !Has(props[1..], props[0].key) && DistinctKeys(KeysOf(props[1..]))
  {
    var keys, rest := KeysOf(props), KeysOf(props[1..]);
    assert keys == [props[0].key] + rest;
    DistinctTail(props[0].key, rest);
  }

  lemma {:induction false} InsertPropDistinct(props: seq<Prop>, p: Prop)
    requires DistinctKeys(KeysOf(props)) && !Has(props, p.key)
    ensures DistinctKeys(KeysOf(InsertProp(props, p)))
  {
    if props == [] || Overtakes(p.key, props[0].key) {
      assert ([p] + props)[1..] == props;
      TailKeys([p] + props);
    } else {
      var head, tail := props[0], props[1..];
      assert props == [head] + tail;
      HeadGets(head, tail, p.key);
      TailKeys(props);
      InsertPropDistinct(tail, p);
      InsertPropGets(tail, p, head.key);
      var rest := InsertProp(tail, p);
      assert ([head] + rest)[1..] == rest;
      TailKeys([head] + rest);
    }
  }

  lemma AssignDistinct(props: seq<Prop>, key: string, value: Js)
    requires DistinctKeys(KeysOf(props))
    ensures DistinctKeys(KeysOf(Assign(props, key, value)))
  {
    if key != PROTO {
      if Has(props, key) {
        assert KeysOf(Assign(props, key, value)) == KeysOf(props);
      } else {
        InsertPropDistinct(props, Prop(key, value));
      }
    }
  }

  ghost predicate Ordered(props: seq<Prop>) {
    forall i, j :: 0 <= i < j < |props| ==> Precedes(props[i].key, props[j].key)
  }

  lemma {:induction false} InsertPropOrdered(props: seq<Prop>, p: Prop)
    requires Ordered(props)
    requires forall i :: 0 <= i < |props| ==> Utf16Less(props[i].key, p.key)
    ensures Ordered(InsertProp(props, p))
    ensures forall q :: q in InsertProp(props, p) <==> q == p || q in props
  {
    if props != [] && !Overtakes(p.key, props[0].key) {
      InsertPropOrdered(props[1..], p);
      var rest := InsertProp(props[1..], p);
      BeforeIsPrecedes(props[0].key, p.key);
      forall j | 0 <= j < |rest|
        ensures Precedes(props[0].key, rest[j].key)
      {
        assert rest[j] in rest;
      }
      assert props == [props[0]] + props[1..];
    } else if props != [] {
      forall j | 0 <= j < |props|
        ensures Precedes(p.key, props[j].key)
      {
        assert j == 0 || Precedes(props[0].key, props[j].key);
        if j > 0 {
          PrecedesTransitive(p.key, props[0].key, props[j].key);
        }
      }
    }
  }

  /** A key that comes first in UTF-16 order precedes, unless only the other one is a smaller index. */
  lemma BeforeIsPrecedes(a: string, b: string)
    requires Utf16Less(a, b)
    requires !Overtakes(b, a)
    ensures Precedes(a, b)
  {
    Utf16LessTrichotomy(a, b);
  }

  // ---------- conversion and sorting keep the meaning ----------

  lemma {:induction false} SafePropsGet(props: seq<Prop>, q: string)
    requires DistinctKeys(KeysOf(props))
    ensures DistinctKeys(KeysOf(SafeProps(props)))
    ensures Has(SafeProps(props), q) <==> q != PROTO && Has(props, q)
    ensures Has(SafeProps(props), q) ==> Get(SafeProps(props), q) == JsonSafe(Get(props, q))
    decreases props
  {
    if props != [] {
      var front, last := props[..|props| - 1], props[|props| - 1];
      FrontGets(props, q);
      SafePropsGet(front, q);
      AssignDistinct(SafeProps(front), last.key, JsonSafe(last.value));
      AssignGets(SafeProps(front), last.key, JsonSafe(last.value), q);
    }
  }

  lemma FrontGets(props: seq<Prop>, q: string)
    requires props != [] && DistinctKeys(KeysOf(props))
    ensures DistinctKeys(KeysOf(props[..|props| - 1]))
    ensures Has(props, q) <==> q == props[|props| - 1].key || Has(props[..|props| - 1], q)
    ensures Has(props, q) ==>
              Get(props, q) == if q == props[|props| - 1].key then props[|props| - 1].value
                               else Get(props[..|props| - 1], q)
  {
    var n := |props| - 1;
    var keys, front := KeysOf(props), KeysOf(props[..n]);
    assert keys == front + [keys[n]];
    assert forall i :: 0 <= i < n ==> keys[i] == front[i];
    if Has(props, q) {
      assert keys[IndexOf(props, q)] == q;
      if q != keys[n] {
        assert front[IndexOf(props[..n], q)] == q;
      }
    }
  }

  lemma {:induction false} JsonSafeMeans(v: Js)
    requires WellFormed(v)
    ensures WellFormed(JsonSafe(v)) && Meaning(JsonSafe(v)) == Meaning(v)
    ensures JsonSafe(v) == Undefined <==> v == Undefined
    decreases v
  {
    match v
    case Array(items) =>
      forall i | 0 <= i < |items|
        ensures WellFormed(JsonSafe(items[i])) && Meaning(JsonSafe(items[i])) == Meaning(items[i])
      {
        JsonSafeMeans(items[i]);
      }
      assert Meaning(JsonSafe(v)).items == Meaning(v).items;
    case Object(props) =>
      forall i | 0 <= i < |props|
        ensures WellFormed(JsonSafe(props[i].value))
        ensures Meaning(JsonSafe(props[i].value)) == Meaning(props[i].value)
        ensures JsonSafe(props[i].value) == Undefined <==> props[i].value == Undefined
      {
        JsonSafeMeans(props[i].value);
      }
      SafeObjectMeans(props);
    case _ =>
  }

  ghost predicate SafeValues(props: seq<Prop>) {
    forall i :: 0 <= i < |props| ==>
      var safe := JsonSafe(props[i].value);
      && WellFormed(safe)
      && Meaning(safe) == Meaning(props[i].value)
      && (safe == Undefined <==> props[i].value == Undefined)
  }

  lemma SafeMember(props: seq<Prop>, q: string)
    requires DistinctKeys(KeysOf(props)) && SafeValues(props)
    ensures Has(SafeProps(props), q) ==> WellFormed(Get(SafeProps(props), q))
    ensures Kept(SafeProps(props), q) <==> Kept(props, q)
    ensures Kept(props, q) ==> Meaning(Get(SafeProps(props), q)) == Meaning(Get(props, q))
  {
    SafePropsGet(props, q);
  }

  lemma SafeObjectMeans(props: seq<Prop>)
    requires DistinctKeys(KeysOf(props)) && SafeValues(props)
    ensures WellFormed(Object(SafeProps(props)))
    ensures Meaning(Object(SafeProps(props))) == Meaning(Object(props))
  {
    SafePropsGet(props, PROTO);
    SafeMembers(props, SafeProps(props));
  }

  lemma SafeMembers(props: seq<Prop>, safe: seq<Prop>)
    requires DistinctKeys(KeysOf(props)) && SafeValues(props)
    requires safe == SafeProps(props) && DistinctKeys(KeysOf(safe))
    ensures WellFormed(Object(safe))
    ensures Meaning(Object(safe)) == Meaning(Object(props))
  {
    forall i | 0 <= i < |safe|
      ensures WellFormed(safe[i].value)
    {
      DistinctGet(safe, i);
      SafeMember(props, safe[i].key);
    }
    forall q
      ensures Kept(safe, q) <==> Kept(props, q)
      ensures Kept(safe, q) ==> Meaning(Get(safe, q)) == Meaning(Get(props, q))
    {
      SafeMember(props, q);
    }
    SameMembersSameMeaning(safe, props);
  }

  lemma DistinctGet(props: seq<Prop>, i: nat)
    requires i < |props| && DistinctKeys(KeysOf(props))
    ensures Has(props, props[i].key) && Get(props, props[i].key) == props[i].value
  {
    assert KeysOf(props)[i] == props[i].key;
    var j := IndexOf(props, props[i].key);
    assert KeysOf(props)[j] == props[i].key;
  }

  /** The form sorting gives: members in one fixed order, none undefined and none named "__proto__". */
  ghost predicate InOrder(v: Js) {
    match v
    case Array(items) => forall i :: 0 <= i < |items| ==> InOrder(items[i])
    case Object(props) =>
      && Ordered(props)
      && forall i :: 0 <= i < |props| ==>
           props[i].key != PROTO && props[i].value != Undefined && InOrder(props[i].value)
    case _ => true
  }

  lemma LastKey(keys: seq<string>)
    requires keys != [] && Ascending(keys)
    ensures var front, key := keys[..|keys| - 1], keys[|keys| - 1];
            && Ascending(front) && (forall k :: k in front ==> Utf16Less(k, key))
            && (forall k :: k in keys <==> k == key || k in front)
            && key !in front
  {
    hide Utf16Less;
    var front, key := keys[..|keys| - 1], keys[|keys| - 1];
    assert keys == front + [key];
    forall k | k in front
      ensures Utf16Less(k, key) && k != key
    {
      var i :| 0 <= i < |front| && front[i] == k;
      assert Utf16Less(keys[i], keys[|keys| - 1]);
      Utf16LessTrichotomy(k, key);
    }
  }

  lemma {:induction false} SortedPropsOrdered(v: Js, keys: seq<string>)
    requires v.Object? && Ascending(keys)
    ensures Ordered(SortedProps(v, keys))
    ensures forall p :: p in SortedProps(v, keys) ==> p.key in keys
    decreases keys
  {
    hide Sorted, Ascending, Ordered, Utf16Less, Assign;
    if keys == [] {
      NothingOrdered();
    } else {
      var front, key := keys[..|keys| - 1], keys[|keys| - 1];
      LastKey(keys);
      SortedPropsOrdered(v, front);
      if Has(v.props, key) && Get(v.props, key) != Undefined {
        AssignOrdered(SortedProps(v, front), key, Sorted(v.props[IndexOf(v.props, key)].value));
      }
    }
  }

  lemma NothingOrdered()
    ensures Ordered([])
  {
  }

  lemma {:induction false} SortedPropsGet(v: Js, keys: seq<string>, q: string)
    requires v.Object? && Ascending(keys)
    ensures Has(SortedProps(v, keys), q) <==> q in keys && Kept(v.props, q)
    ensures Has(SortedProps(v, keys), q) ==> Get(SortedProps(v, keys), q) == Sorted(Get(v.props, q))
    decreases keys
  {
    hide Sorted, Ascending, Assign;
    if keys != [] {
      var front, key := keys[..|keys| - 1], keys[|keys| - 1];
      LastKey(keys);
      SortedPropsGet(v, front, q);
      if Has(v.props, key) && Get(v.props, key) != Undefined {
        AssignGets(SortedProps(v, front), key, Sorted(Get(v.props, key)), q);
      }
    }
  }

  lemma AssignOrdered(props: seq<Prop>, key: string, value: Js)
    requires Ordered(props)
    requires forall p :: p in props ==> Utf16Less(p.key, key)
    ensures Ordered(Assign(props, key, value))
    ensures forall q :: q in Assign(props, key, value) ==> q.key == key || q in props
  {
    Utf16LessTrichotomy(key, key);
    InsertPropOrdered(props, Prop(key, value));
  }

  lemma {:induction false} SortedMeans(v: Js)
    requires WellFormed(v)
    ensures InOrder(Sorted(v)) && Meaning(Sorted(v)) == Meaning(v)
    ensures Sorted(v) == Undefined <==> v == Undefined
    decreases v
  {
    match v
    case Array(items) =>
      forall i | 0 <= i < |items|
        ensures InOrder(Sorted(items[i])) && Meaning(Sorted(items[i])) == Meaning(items[i])
      {
        SortedMeans(items[i]);
      }
      assert Meaning(Sorted(v)).items == Meaning(v).items;
    case Object(props) =>
      forall i | 0 <= i < |props|
        ensures InOrder(Sorted(props[i].value))
        ensures Meaning(Sorted(props[i].value)) == Meaning(props[i].value)
        ensures Sorted(props[i].value) == Undefined <==> props[i].value == Undefined
      {
        SortedMeans(props[i].value);
      }
      SortKeysAscending(KeysOf(props));
      SortedObjectMeans(v, SortKeys(KeysOf(props)), SortedProps(v, SortKeys(KeysOf(props))));
    case _ =>
  }

  ghost predicate SortedValues(props: seq<Prop>) {
    forall i :: 0 <= i < |props| ==>
      var sorted := Sorted(props[i].value);
      && InOrder(sorted)
      && Meaning(sorted) == Meaning(props[i].value)
      && (sorted == Undefined <==> props[i].value == Undefined)
  }

  lemma SortedMember(v: Js, keys: seq<string>, q: string)
    requires v.Object? && SortedValues(v.props)
    requires Ascending(keys) && (forall k :: k in keys <==> k in KeysOf(v.props))
    ensures Kept(SortedProps(v, keys), q) <==> Kept(v.props, q)
    ensures Has(SortedProps(v, keys), q) ==> Kept(v.props, q) && InOrder(Get(SortedProps(v, keys), q))
    ensures Kept(v.props, q) ==> Meaning(Get(SortedProps(v, keys), q)) == Meaning(Get(v.props, q))
  {
    SortedPropsGet(v, keys, q);
  }

  lemma SortedObjectMeans(v: Js, keys: seq<string>, sorted: seq<Prop>)
    requires v.Object? && SortedValues(v.props)
    requires Ascending(keys) && (forall k :: k in keys <==> k in KeysOf(v.props))
    requires sorted == SortedProps(v, keys)
    ensures InOrder(Object(sorted))
    ensures Meaning(Object(sorted)) == Meaning(v)
  {
    SortedPropsOrdered(v, keys);
    OrderedDistinct(sorted);
    forall i | 0 <= i < |sorted|
      ensures sorted[i].key != PROTO && sorted[i].value != Undefined && InOrder(sorted[i].value)
    {
      DistinctGet(sorted, i);
      SortedMember(v, keys, sorted[i].key);
    }
    forall q
      ensures Kept(sorted, q) <==> Kept(v.props, q)
      ensures Kept(sorted, q) ==> Meaning(Get(sorted, q)) == Meaning(Get(v.props, q))
    {
      SortedMember(v, keys, q);
    }
    SameMembersSameMeaning(sorted, v.props);
  }

  lemma OrderedDistinct(props: seq<Prop>)
    requires Ordered(props)
    ensures DistinctKeys(KeysOf(props))
  {
    forall i, j | 0 <= i < j < |props|
      ensures KeysOf(props)[i] != KeysOf(props)[j]
    {
      PrecedesTrichotomy(props[i].key, props[j].key);
    }
  }

  // ---------- a value in order is determined by its meaning, and by its text ----------

  lemma {:induction false} MembersOfDefined(props: seq<Prop>)
    requires forall i :: 0 <= i < |props| ==> props[i].value != Undefined
    ensures |MembersOf(props)| == |props|
    ensures forall i :: 0 <= i < |props| ==> MembersOf(props)[i] == Member(props[i].key, TreeOf(props[i].value))
  {
    if props != [] {
      MembersOfDefined(props[1..]);
    }
  }

  /** The first keys of two objects in order with the same keys are the same. */
  lemma SameFirstKey(props: seq<Prop>, others: seq<Prop>)
    requires Ordered(props) && Ordered(others)
    requires forall k :: k in KeysOf(props) <==> k in KeysOf(others)
    requires props != []
    ensures others != [] && others[0].key == props[0].key
  {
    assert KeysOf(props)[0] in KeysOf(others);
    assert KeysOf(others)[0] in KeysOf(props);
    var i, j := IndexOf(others, props[0].key), IndexOf(props, others[0].key);
    assert i > 0 ==> Precedes(others[0].key, others[i].key);
    assert j > 0 ==> Precedes(props[0].key, props[j].key);
    PrecedesTrichotomy(props[0].key, others[0].key);
  }

  lemma FirstKey(props: seq<Prop>)
    ensures props == [] <==> forall k :: k !in KeysOf(props)
  {
    if props != [] {
      assert KeysOf(props)[0] in KeysOf(props);
    }
  }

  lemma {:induction false} SameKeysSameOrder(props: seq<Prop>, others: seq<Prop>)
    requires Ordered(props) && Ordered(others)
    requires forall k :: k in KeysOf(props) <==> k in KeysOf(others)
    ensures KeysOf(props) == KeysOf(others)
  {
    if props == [] {
      FirstKey(others);
    } else {
      SameFirstKey(props, others);
      OrderedDistinct(props);
      OrderedDistinct(others);
      TailKeys(props);
      TailKeys(others);
      var head := props[0].key;
      assert forall k :: k in KeysOf(props[1..]) <==> k in KeysOf(props) && k != head;
      assert forall k :: k in KeysOf(others[1..]) <==> k in KeysOf(others) && k != head;
      SameKeysSameOrder(props[1..], others[1..]);
    }
  }

  lemma MeaningOfMember(props: seq<Prop>, i: nat)
    requires InOrder(Object(props)) && i < |props|
    ensures props[i].key in Meaning(Object(props)).members
    ensures Meaning(Object(props)).members[props[i].key] == Meaning(props[i].value)
  {
    OrderedDistinct(props);
    DistinctGet(props, i);
  }

  lemma MeaningKeys(props: seq<Prop>, k: string)
    requires InOrder(Object(props))
    ensures k in KeysOf(props) <==> k in Meaning(Object(props)).members
  {
    if Has(props, k) {
      MeaningOfMember(props, IndexOf(props, k));
    }
  }

  lemma {:induction false} MeaningGivesText(v: Js, w: Js)
    requires InOrder(v) && InOrder(w) && Meaning(v) == Meaning(w)
    ensures TreeOf(v) == TreeOf(w)
    decreases v
  {
    match v
    case Array(items) =>
      assert |Meaning(v).items| == |items| && |Meaning(w).items| == |w.items|;
      forall i | 0 <= i < |items|
        ensures TreeOf(items[i]) == TreeOf(w.items[i])
      {
        assert Meaning(v).items[i] == Meaning(w).items[i];
        MeaningGivesText(items[i], w.items[i]);
      }
      assert TreeOf(v).items == TreeOf(w).items;
    case Object(props) =>
      MeaningGivesKeys(props, w.props);
      forall i | 0 <= i < |props|
        ensures TreeOf(props[i].value) == TreeOf(w.props[i].value)
      {
        MeaningOfMember(props, i);
        MeaningOfMember(w.props, i);
        assert KeysOf(props)[i] == KeysOf(w.props)[i];
        MeaningGivesText(props[i].value, w.props[i].value);
      }
      MembersOfAgree(props, w.props);
    case _ =>
  }

  lemma MeaningGivesKeys(props: seq<Prop>, others: seq<Prop>)
    requires InOrder(Object(props)) && InOrder(Object(others))
    requires Meaning(Object(props)) == Meaning(Object(others))
    ensures KeysOf(props) == KeysOf(others)
  {
    forall k
      ensures k in KeysOf(props) <==> k in KeysOf(others)
    {
      MeaningKeys(props, k);
      MeaningKeys(others, k);
    }
    SameKeysSameOrder(props, others);
  }

  lemma MembersOfAgree(props: seq<Prop>, others: seq<Prop>)
    requires InOrder(Object(props)) && InOrder(Object(others))
    requires KeysOf(props) == KeysOf(others)
    requires forall i :: 0 <= i < |props| ==> TreeOf(props[i].value) == TreeOf(others[i].value)
    ensures MembersOf(props) == MembersOf(others)
  {
    MembersOfDefined(props);
    MembersOfDefined(others);
    assert forall i :: 0 <= i < |props| ==> props[i].key == KeysOf(props)[i] && others[i].key == KeysOf(others)[i];
  }

  lemma {:induction false} TextGivesMeaning(v: Js, w: Js)
    requires InOrder(v) && InOrder(w) && TreeOf(v) == TreeOf(w)
    ensures Meaning(v) == Meaning(w)
    decreases v
  {
    match v
    case Array(items) =>
      assert |TreeOf(v).items| == |items| && |TreeOf(w).items| == |w.items|;
      forall i | 0 <= i < |items|
        ensures Meaning(items[i]) == Meaning(w.items[i])
      {
        assert TreeOf(v).items[i] == TreeOf(w).items[i];
        TextGivesMeaning(items[i], w.items[i]);
      }
      assert Meaning(v).items == Meaning(w).items;
    case Object(props) =>
      MembersOfDefined(props);
      MembersOfDefined(w.props);
      forall i | 0 <= i < |props|
        ensures props[i].key == w.props[i].key && Meaning(props[i].value) == Meaning(w.props[i].value)
      {
        assert MembersOf(props)[i] == MembersOf(w.props)[i];
        TextGivesMeaning(props[i].value, w.props[i].value);
      }
      AgreeingObjects(props, w.props);
    case _ =>
  }

  lemma AgreeingObjects(props: seq<Prop>, others: seq<Prop>)
    requires InOrder(Object(props)) && InOrder(Object(others)) && |props| == |others|
    requires forall i :: 0 <= i < |props| ==> props[i].key == others[i].key
    requires forall i :: 0 <= i < |props| ==> Meaning(props[i].value) == Meaning(others[i].value)
    ensures Meaning(Object(props)) == Meaning(Object(others))
  {
    OrderedDistinct(props);
    OrderedDistinct(others);
    forall q
      ensures Kept(props, q) <==> Kept(others, q)
      ensures Kept(props, q) ==> Meaning(Get(props, q)) == Meaning(Get(others, q))
    {
      if Has(props, q) {
        DistinctGet(others, IndexOf(props, q));
      }
      if Has(others, q) {
        DistinctGet(props, IndexOf(others, q));
      }
    }
    SameMembersSameMeaning(props, others);
  }

  /**
   * Canonical JSON has unique readability: two values give the same text exactly when they agree
   * up to the order of keys, undefined members, and big integers or dates against their strings.
   */
  lemma CanonicalIffSameMeaning(v: Js, w: Js)
    requires WellFormed(v) && WellFormed(w)
    ensures Canonical(v) == Canonical(w)
       <==> (v == Undefined <==> w == Undefined) && Meaning(v) == Meaning(w)
  {
    JsonSafeMeans(v);
    JsonSafeMeans(w);
    var a, b := Sorted(JsonSafe(v)), Sorted(JsonSafe(w));
    SortedMeans(JsonSafe(v));
    SortedMeans(JsonSafe(w));
    PrintInjective(TreeOf(a), TreeOf(b));
    if TreeOf(a) == TreeOf(b) {
      TextGivesMeaning(a, b);
    }
    if Meaning(a) == Meaning(b) {
      MeaningGivesText(a, b);
    }
  }
}
