/**
 * The canonical text of packages/blockchain/src/serialize.ts as a reader sees it: it reads back as a
 * value of the same meaning, in which every object has its members in the order of the code.
 */
module CanonicalText {
  import opened Wrappers
  import opened JsonText
  import opened JsonReader
  import opened CanonicalJson

  // ---------- the order of strings ----------

  /** The UTF-16 code units of a character, section 2.5 of RFC 2781. */
  function Units(c: char): (units: seq<int>)
    ensures 1 <= |units| <= 2
  {
    var code := c as int;
    if code < 0x10000 then [code] else [0xD800 + (code - 0x10000) / 0x400, 0xDC00 + (code - 0x10000) % 0x400]
  }

  function Encode(s: string): seq<int> {
    if s == [] then [] else Units(s[0]) + Encode(s[1..])
  }

  /** a is a proper prefix of b, or smaller at the first difference. */
  ghost predicate Before(a: seq<int>, b: seq<int>) {
    exists n :: 0 <= n <= |a| && n < |b| && a[..n] == b[..n] && (n == |a| || a[n] < b[n])
  }

  lemma BeforeFrom(x: seq<int>, a: seq<int>, b: seq<int>)
    ensures Before(x + a, x + b) <==> Before(a, b)
  {
    if Before(a, b) {
      var n :| 0 <= n <= |a| && n < |b| && a[..n] == b[..n] && (n == |a| || a[n] < b[n]);
      assert (x + a)[..|x| + n] == x + a[..n] && (x + b)[..|x| + n] == x + b[..n];
      assert |x| + n < |x + a| ==> (x + a)[|x| + n] == a[n];
      assert (x + b)[|x| + n] == b[n];
    }
    if Before(x + a, x + b) {
      var n :| 0 <= n <= |x + a| && n < |x + b| && (x + a)[..n] == (x + b)[..n]
        && (n == |x + a| || (x + a)[n] < (x + b)[n]);
      assert forall i :: 0 <= i < |x| ==> (x + a)[i] == (x + b)[i];
      var k := n - |x|;
      assert (x + a)[..n] == x + a[..k] && (x + b)[..n] == x + b[..k];
      assert (x + a)[..n][|x|..] == a[..k] && (x + b)[..n][|x|..] == b[..k];
    }
  }

  lemma BeforeByFirst(a: seq<int>, b: seq<int>)
    requires a != [] && b != [] && a[0] != b[0]
    ensures Before(a, b) <==> a[0] < b[0]
  {
    if a[0] < b[0] {
      assert a[..0] == b[..0];
    }
    if Before(a, b) {
      var n :| 0 <= n <= |a| && n < |b| && a[..n] == b[..n] && (n == |a| || a[n] < b[n]);
      assert forall m :: 0 < m <= |a| ==> a[..m][0] == a[0];
      assert forall m :: 0 < m <= |b| ==> b[..m][0] == b[0];
    }
  }

  lemma EmptyBefore(a: seq<int>)
    ensures Before([], a) <==> a != []
    ensures !Before(a, [])
  {
    if a != [] {
      assert [][..0] == a[..0];
    }
  }

  /** Of two different characters, the first differing unit decides. */
  lemma CharBefore(c: char, d: char, x: seq<int>, y: seq<int>)
    requires c != d
    ensures Before(Units(c) + x, Units(d) + y) <==> Utf16Rank(c) < Utf16Rank(d)
  {
    var a, b := Units(c), Units(d);
    assert (a + x)[0] == a[0] && (b + y)[0] == b[0];
    if a[0] != b[0] {
      BeforeByFirst(a + x, b + y);
    } else {
      assert c as int >= 0x10000 && d as int >= 0x10000;
      assert a + x == [a[0]] + ([a[1]] + x) && b + y == [a[0]] + ([b[1]] + y);
      BeforeFrom([a[0]], [a[1]] + x, [b[1]] + y);
      BeforeByFirst([a[1]] + x, [b[1]] + y);
    }
  }

  /** Keys are sorted by their UTF-16 code units. */
  lemma {:induction false} SortedByUnits(a: string, b: string)
    ensures Utf16Less(a, b) <==> Before(Encode(a), Encode(b))
  {
    hide Units, Before, Utf16Rank;
    if a == [] || b == [] {
      EmptyBefore(Encode(a));
      EmptyBefore(Encode(b));
      EncodeEmpty(a);
      EncodeEmpty(b);
    } else if a[0] == b[0] {
      BeforeFrom(Units(a[0]), Encode(a[1..]), Encode(b[1..]));
      SortedByUnits(a[1..], b[1..]);
    } else {
      CharBefore(a[0], b[0], Encode(a[1..]), Encode(b[1..]));
    }
  }

  lemma EncodeEmpty(s: string)
    ensures Encode(s) == [] <==> s == []
  {
  }

  // ---------- what the text reads as ----------

  /** What a tree means; of members with one key the last one counts. */
  function JsonOf(t: Tree): Json
    decreases t, 1
  {
    match t
    case TNull => JNull
    case TBool(b) => JBool(b)
    case TNum(n) => JNum(n)
    case TStr(s) => JStr(s)
    case TArr(items) => JArr(seq(|items|, i requires 0 <= i < |items| => JsonOf(items[i])))
    case TObj(members) => JObj(JsonMembers(members))
  }

  function JsonMembers(members: seq<Member>): map<string, Json>
    decreases members, 0
  {
    if members == [] then map[]
    else
      var last := members[|members| - 1];
      JsonMembers(members[..|members| - 1])[last.key := JsonOf(last.value)]
  }

  /** Array indices first, by number; the other keys by their code units; no key twice. */
  ghost predicate KeyBefore(a: string, b: string) {
    if IsIndex(a) && IsIndex(b) then Value(a) < Value(b)
    else if IsIndex(a) || IsIndex(b) then IsIndex(a)
    else Before(Encode(a), Encode(b))
  }

  ghost predicate MembersInOrder(t: Tree) {
    match t
    case TArr(items) => forall i :: 0 <= i < |items| ==> MembersInOrder(items[i])
    case TObj(members) =>
      && (forall i, j :: 0 <= i < j < |members| ==> KeyBefore(members[i].key, members[j].key))
      && (forall i :: 0 <= i < |members| ==> members[i].key != PROTO && MembersInOrder(members[i].value))
    case _ => true
  }

  lemma {:induction false} JsonOfMembers(props: seq<Prop>, n: nat, k: string)
    requires InOrder(Object(props)) && n <= |props|
    ensures |MembersOf(props)| == |props|
    ensures k in JsonMembers(MembersOf(props)[..n]) <==> exists i :: 0 <= i < n && props[i].key == k
    ensures forall i :: 0 <= i < n && props[i].key == k ==>
              k in JsonMembers(MembersOf(props)[..n])
              && JsonMembers(MembersOf(props)[..n])[k] == JsonOf(TreeOf(props[i].value))
  {
    hide JsonOf, TreeOf, MembersOf, InOrder;
    DefinedInOrder(props);
    MembersOfDefined(props);
    if n > 0 {
      var members := MembersOf(props);
      JsonOfMembers(props, n - 1, k);
      assert members[..n][..n - 1] == members[..n - 1] && members[..n][n - 1] == members[n - 1];
    }
  }

  lemma DefinedInOrder(props: seq<Prop>)
    requires InOrder(Object(props))
    ensures forall i :: 0 <= i < |props| ==> props[i].value != Undefined
    ensures forall i, j :: 0 <= i < j < |props| ==> props[i].key != props[j].key
  {
    OrderedDistinct(props);
    assert forall i :: 0 <= i < |props| ==> KeysOf(props)[i] == props[i].key;
  }

  /** A value in order is written as a tree of its meaning. */
  lemma {:induction false} TreeMeans(v: Js)
    requires InOrder(v)
    ensures JsonOf(TreeOf(v)) == Meaning(v)
    decreases v
  {
    match v
    case Array(items) =>
      forall i | 0 <= i < |items|
        ensures JsonOf(TreeOf(items[i])) == Meaning(items[i])
      {
        TreeMeans(items[i]);
      }
      assert JsonOf(TreeOf(v)).items == Meaning(v).items;
    case Object(props) =>
      forall i | 0 <= i < |props|
        ensures JsonOf(TreeOf(props[i].value)) == Meaning(props[i].value)
      {
        TreeMeans(props[i].value);
      }
      ObjectMeans(props, Meaning(v).members);
    case _ =>
  }

  lemma HasKey(props: seq<Prop>, k: string)
    ensures Has(props, k) <==> exists i :: 0 <= i < |props| && props[i].key == k
    ensures Has(props, k) ==> IndexOf(props, k) < |props| && props[IndexOf(props, k)].key == k
  {
    assert forall i :: 0 <= i < |props| ==> KeysOf(props)[i] == props[i].key;
  }

  lemma MemberMeans(props: seq<Prop>, k: string)
    requires InOrder(Object(props))
    requires forall i :: 0 <= i < |props| ==> JsonOf(TreeOf(props[i].value)) == Meaning(props[i].value)
    ensures k in JsonMembers(MembersOf(props)) <==> k in Meaning(Object(props)).members
    ensures k in JsonMembers(MembersOf(props)) ==>
              JsonMembers(MembersOf(props))[k] == Meaning(Object(props)).members[k]
  {
    hide JsonMembers, MembersOf, JsonOf, TreeOf, InOrder, Has;
    JsonOfMembers(props, |props|, k);
    assert MembersOf(props)[..|props|] == MembersOf(props);
    MeaningKeys(props, k);
    HasKey(props, k);
    if Has(props, k) {
      MeaningOfMember(props, IndexOf(props, k));
    }
  }

  lemma SameMap(left: map<string, Json>, right: map<string, Json>)
    requires forall k :: (k in left <==> k in right) && (k in left ==> left[k] == right[k])
    ensures left == right
  {
  }

  lemma ObjectMeans(props: seq<Prop>, right: map<string, Json>)
    requires InOrder(Object(props)) && Meaning(Object(props)) == JObj(right)
    requires forall i :: 0 <= i < |props| ==> JsonOf(TreeOf(props[i].value)) == Meaning(props[i].value)
    ensures JsonMembers(MembersOf(props)) == right
  {
    hide JsonMembers, MembersOf, JsonOf, TreeOf, InOrder, Meaning;
    var left := JsonMembers(MembersOf(props));
    forall k
      ensures (k in left <==> k in right) && (k in left ==> left[k] == right[k])
    {
      MemberMeans(props, k);
    }
    SameMap(left, right);
  }

  lemma {:induction false} TreeInOrder(v: Js)
    requires InOrder(v)
    ensures MembersInOrder(TreeOf(v))
    decreases v
  {
    hide IsIndex, Utf16Less, Before;
    match v
    case Array(items) =>
      forall i | 0 <= i < |items|
        ensures MembersInOrder(TreeOf(items[i]))
      {
        TreeInOrder(items[i]);
      }
    case Object(props) =>
      DefinedInOrder(props);
      MembersOfDefined(props);
      forall i | 0 <= i < |props|
        ensures MembersInOrder(TreeOf(props[i].value))
      {
        TreeInOrder(props[i].value);
      }
      forall i, j | 0 <= i < j < |props|
        ensures KeyBefore(props[i].key, props[j].key)
      {
        assert Precedes(props[i].key, props[j].key);
        SortedByUnits(props[i].key, props[j].key);
      }
    case _ =>
  }

  /**
   * The canonical text of a value reads back: what is read has the meaning of the value, and its
   * members stand in order at every depth.
   */
  lemma CanonicalReads(v: Js) returns (t: Tree)
    requires WellFormed(v) && v != Undefined
    ensures Canonical(v).Some? && Read(Canonical(v).value) == Some(t)
    ensures JsonOf(t) == Meaning(v) && MembersInOrder(t)
  {
    JsonSafeMeans(v);
    SortedMeans(JsonSafe(v));
    var sorted := Sorted(JsonSafe(v));
    t := TreeOf(sorted);
    PrintedIsRead(t);
    TreeMeans(sorted);
    TreeInOrder(sorted);
  }
}
