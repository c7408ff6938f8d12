/**
 * What the governance store holds after a restart, packages/protocol-moonwell/src/governance/file-store.ts:
 * which values written by persist come back from hydrate as they were in memory, which do not,
 * and when the file itself stays as it was.
 */
module FileRoundTrip {
  import opened Wrappers
  import opened JsonText
  import opened CanonicalJson
  import opened Receipts
  import opened FileStore

  // ---------- the order of members ----------

  ghost predicate InEnumerationOrder(props: seq<Prop>) {
    forall i, j :: 0 <= i < j < |props| ==> !Overtakes(props[j].key, props[i].key)
  }

  lemma {:induction false} InsertPropKeepsOrder(props: seq<Prop>, p: Prop)
    requires InEnumerationOrder(props)
    ensures InEnumerationOrder(InsertProp(props, p))
  {
    hide IsIndex;
    if props == [] {
    } else if Overtakes(p.key, props[0].key) {
      forall j | 0 <= j < |props|
        ensures !Overtakes(props[j].key, p.key)
      {
        assert j == 0 || !Overtakes(props[j].key, props[0].key);
      }
    } else {
      var rest := InsertProp(props[1..], p);
      InsertPropKeepsOrder(props[1..], p);
      InsertPropMembers(props[1..], p);
      forall j | 0 <= j < |rest|
        ensures !Overtakes(rest[j].key, props[0].key)
      {
        assert rest[j] in rest;
      }
    }
  }

  lemma InsertEnumerated(props: seq<Prop>, p: Prop)
    requires Enumerated(props) && !Has(props, p.key)
    ensures Enumerated(InsertProp(props, p))
  {
    InsertPropKeepsOrder(props, p);
    InsertPropDistinct(props, p);
  }

  lemma ReplaceEnumerated(props: seq<Prop>, i: nat, p: Prop)
    requires Enumerated(props) && i < |props| && props[i].key == p.key
    ensures Enumerated(props[i := p])
  {
    assert KeysOf(props[i := p]) == KeysOf(props);
    assert forall j :: 0 <= j < |props| ==> props[i := p][j].key == props[j].key;
  }

  lemma DefineEnumerated(props: seq<Prop>, key: string, value: Js)
    requires Enumerated(props)
    ensures Enumerated(Define(props, key, value))
    ensures forall q :: q in Define(props, key, value) ==> q == Prop(key, value) || q in props
    ensures |Define(props, key, value)| <= |props| + 1
  {
    hide Enumerated;
    if Has(props, key) {
      ReplaceEnumerated(props, IndexOf(props, key), Prop(key, value));
    } else {
      InsertEnumerated(props, Prop(key, value));
      InsertPropMembers(props, Prop(key, value));
    }
  }

  lemma NoMembersEnumerated()
    ensures Enumerated([])
  {
  }

  // ---------- JSON.parse ----------

  /** Whatever the text, JSON.parse gives objects whose members are enumerated in order. */
  lemma {:induction false} ReparseIsParsed(t: Tree)
    ensures Parsed(Reparse(t))
    decreases t, 1
  {
    match t
    case TArr(items) =>
      forall i | 0 <= i < |items|
        ensures Parsed(Reparse(items[i]))
      {
        ReparseIsParsed(items[i]);
      }
    case TObj(members) => ReparsedMembersParsed(members);
    case _ =>
  }

  lemma {:induction false} ReparsedMembersParsed(members: seq<Member>)
    ensures Enumerated(ReparseMembers(members)) && |ReparseMembers(members)| <= |members|
    ensures forall p :: p in ReparseMembers(members) ==> Parsed(p.value)
    decreases members, 0
  {
    hide Enumerated, Parsed;
    if members == [] {
      NoMembersEnumerated();
    } else {
      var n := |members| - 1;
      ReparsedMembersParsed(members[..n]);
      ReparseIsParsed(members[n].value);
      DefineEnumerated(ReparseMembers(members[..n]), members[n].key, Reparse(members[n].value));
    }
  }

  /** The members with every value written and parsed again. */
  function ThroughText(props: seq<Prop>): (out: seq<Prop>)
    ensures |out| == |props| && KeysOf(out) == KeysOf(props)
  {
    seq(|props|, i requires 0 <= i < |props| => Prop(props[i].key, Reparse(TreeOf(props[i].value))))
  }

  lemma ThroughTextEnumerated(props: seq<Prop>)
    requires Enumerated(props)
    ensures Enumerated(ThroughText(props))
  {
    hide TreeOf, Reparse, Overtakes;
    var out := ThroughText(props);
    assert forall i :: 0 <= i < |props| ==> out[i].key == props[i].key;
  }

  lemma AppendDefined(props: seq<Prop>, p: Prop)
    requires !Has(props, p.key) && forall i :: 0 <= i < |props| ==> !Overtakes(p.key, props[i].key)
    ensures Define(props, p.key, p.value) == props + [p]
  {
    AppendProp(props, p);
  }

  /** A key that is last in an enumerated object is new and overtakes none of those before it. */
  lemma LastIsNew(props: seq<Prop>, n: nat)
    requires Enumerated(props) && n < |props|
    ensures !Has(props[..n], props[n].key)
    ensures forall i :: 0 <= i < n ==> !Overtakes(props[n].key, props[..n][i].key)
  {
    hide Overtakes;
    var front := props[..n];
    forall i | 0 <= i < n
      ensures front[i].key != props[n].key && !Overtakes(props[n].key, front[i].key)
    {
      assert KeysOf(props)[i] != KeysOf(props)[n];
    }
  }

  lemma {:induction false} MembersReparsed(props: seq<Prop>, n: nat)
    requires Enumerated(props) && AllDefined(props) && n <= |props|
    ensures |MembersOf(props)| == |props|
    ensures ReparseMembers(MembersOf(props)[..n]) == ThroughText(props)[..n]
  {
    hide TreeOf, Reparse, Overtakes, Enumerated, Define, MembersOf;
    MembersOfDefined(props);
    if n > 0 {
      var out, members := ThroughText(props), MembersOf(props);
      MembersReparsed(props, n - 1);
      assert members[..n][..n - 1] == members[..n - 1] && members[..n][n - 1] == members[n - 1];
      ThroughTextEnumerated(props);
      LastIsNew(out, n - 1);
      AppendDefined(out[..n - 1], out[n - 1]);
      assert out[..n] == out[..n - 1] + [out[n - 1]];
    }
  }

  /** An object with its members in order, none of them undefined, is parsed member by member. */
  lemma ObjectReparsed(props: seq<Prop>)
    requires Enumerated(props) && AllDefined(props)
    ensures ReparseMembers(MembersOf(props)) == ThroughText(props)
  {
    hide ReparseMembers, MembersOf, ThroughText, Enumerated;
    MembersReparsed(props, |props|);
    assert MembersOf(props)[..|props|] == MembersOf(props);
    assert ThroughText(props)[..|props|] == ThroughText(props);
  }

  /** What JSON.parse gives is written and parsed back unchanged. */
  lemma {:induction false} ReparseParsed(v: Js)
    requires Parsed(v)
    ensures Reparse(TreeOf(v)) == v
    decreases v
  {
    match v
    case Array(items) =>
      forall i | 0 <= i < |items|
        ensures Reparse(TreeOf(items[i])) == items[i]
      {
        ReparseParsed(items[i]);
      }
      assert Reparse(TreeOf(v)).items == items;
    case Object(props) =>
      forall i | 0 <= i < |props|
        ensures Reparse(TreeOf(props[i].value)) == props[i].value
      {
        ReparseParsed(props[i].value);
      }
      ObjectReparsed(props);
      assert ThroughText(props) == props;
    case _ =>
  }

  // ---------- the values that come back ----------

  /**
   * The values that are written and read back as they are: no numeral as a string under the key of a
   * big integer and no string under the key of a date, big integers and dates only under keys of
   * their own, every date in the form it is parsed to, nothing that JSON has no form for, and objects
   * in enumeration order without a member named "__proto__".
   */
  ghost predicate ComesBack(v: Js, key: Option<string>, dates: DateParser)
    decreases v, 1
  {
    match v
    case Text(s) => !(key.Some? && BigintKey(key.value) && IsNumeral(s))
    case BigInt(_) => key.Some? && BigintKey(key.value)
    case Array(items) => forall i :: 0 <= i < |items| ==> ComesBack(items[i], None, dates)
    case Object(props) =>
      && Enumerated(props)
      && forall i :: 0 <= i < |props| ==> props[i].key != PROTO && ComesBackEntry(props[i].key, props[i].value, dates)
    case Null => true
    case Bool(_) => true
    case Number(_) => true
    case _ => false
  }

  ghost predicate ComesBackEntry(key: string, v: Js, dates: DateParser)
    decreases v, 2
  {
    match v
    case Date(iso) => DateKey(key) && dates(iso) == Some(iso)
    case Text(_) => !DateKey(key) && ComesBack(v, Some(key), dates)
    case BigInt(_) => !DateKey(key) && ComesBack(v, Some(key), dates)
    case _ => ComesBack(v, Some(key), dates)
  }

  /** What the next process holds for a value of this one. */
  function AfterRestart(v: Js, key: Option<string>, dates: DateParser): Js {
    Revive(Reparse(TreeOf(v)), key, dates)
  }

  function EntryAfterRestart(key: string, v: Js, dates: DateParser): Js {
    ReviveEntry(key, Reparse(TreeOf(v)), dates)
  }

  lemma EntryComesBackIff(key: string, v: Js, dates: DateParser)
    requires AfterRestart(v, Some(key), dates) == v <==> ComesBack(v, Some(key), dates)
    ensures EntryAfterRestart(key, v, dates) == v <==> ComesBackEntry(key, v, dates)
  {
    hide IsNumeral, BigintKey, DateKey;
  }

  ghost predicate EntriesComeBackIff(props: seq<Prop>, dates: DateParser) {
    forall i :: 0 <= i < |props| ==>
      (EntryAfterRestart(props[i].key, props[i].value, dates) == props[i].value
       <==> ComesBackEntry(props[i].key, props[i].value, dates))
  }

  /** Reviving gives objects in order, and no member named "__proto__". */
  lemma {:induction false} RevivedEnumerated(props: seq<Prop>, dates: DateParser)
    ensures Enumerated(ReviveProps(props, dates)) && !Has(ReviveProps(props, dates), PROTO)
    decreases props
  {
    hide ReviveEntry, Enumerated;
    if props == [] {
      NoMembersEnumerated();
    } else {
      var front, last := props[..|props| - 1], props[|props| - 1];
      var value := ReviveEntry(last.key, last.value, dates);
      RevivedEnumerated(front, dates);
      DefineEnumerated(ReviveProps(front, dates), last.key, value);
      AssignGets(ReviveProps(front, dates), last.key, value, PROTO);
    }
  }

  /** An object that comes back has its members in order and lost none of them. */
  lemma CameBackInOrder(props: seq<Prop>, dates: DateParser)
    requires ReviveProps(ReparseMembers(MembersOf(props)), dates) == props
    ensures Enumerated(props) && PROTO !in KeysOf(props) && AllDefined(props)
  {
    hide MembersOf, ReparseMembers, ReviveProps, Enumerated, AllDefined;
    var parsed := ReparseMembers(MembersOf(props));
    RevivedEnumerated(parsed, dates);
    RevivedSize(parsed, dates);
    ReparsedMembersParsed(MembersOf(props));
    UndefinedIsDropped(props);
  }

  /** In an ordered object every member is revived in its place. */
  lemma OrderedAfterRestart(props: seq<Prop>, dates: DateParser)
    requires Enumerated(props) && PROTO !in KeysOf(props) && AllDefined(props)
    ensures var out := ReviveProps(ReparseMembers(MembersOf(props)), dates);
            && |out| == |props|
            && forall i :: 0 <= i < |props| ==>
                 out[i] == Prop(props[i].key, EntryAfterRestart(props[i].key, props[i].value, dates))
  {
    hide MembersOf, ReparseMembers, ReviveProps, Enumerated, ReviveEntry, Reparse, TreeOf;
    ObjectReparsed(props);
    ThroughTextEnumerated(props);
    RevivedInPlace(ThroughText(props), dates);
  }

  lemma ComesBackDefined(props: seq<Prop>, dates: DateParser)
    requires ComesBack(Object(props), None, dates)
    ensures Enumerated(props) && PROTO !in KeysOf(props) && AllDefined(props)
  {
    assert forall i :: 0 <= i < |props| ==> KeysOf(props)[i] == props[i].key;
  }

  lemma ObjectComesBackIff(props: seq<Prop>, dates: DateParser)
    requires EntriesComeBackIff(props, dates)
    ensures ReviveProps(ReparseMembers(MembersOf(props)), dates) == props <==> ComesBack(Object(props), None, dates)
  {
    hide MembersOf, ReparseMembers, ReviveProps, Enumerated, EntryAfterRestart, ComesBackEntry, AllDefined;
    var out := ReviveProps(ReparseMembers(MembersOf(props)), dates);
    if out == props {
      CameBackInOrder(props, dates);
      OrderedAfterRestart(props, dates);
      forall i | 0 <= i < |props|
        ensures props[i].key != PROTO && ComesBackEntry(props[i].key, props[i].value, dates)
      {
        assert KeysOf(props)[i] == props[i].key;
        assert out[i] == props[i];
      }
    }
    if ComesBack(Object(props), None, dates) {
      ComesBackDefined(props, dates);
      OrderedAfterRestart(props, dates);
    }
  }

  lemma ScalarComesBackIff(v: Js, key: Option<string>, dates: DateParser)
    requires !v.Array? && !v.Object?
    ensures AfterRestart(v, key, dates) == v <==> ComesBack(v, key, dates)
  {
    hide IsNumeral, BigintKey, Decimal, Value, ReviveProps, ReparseMembers, MembersOf;
    if v.BigInt? {
      BigintRoundTrip(v.i);
      SignReadable(v.i);
    }
  }

  lemma ItemsComeBackIff(items: seq<Js>, key: Option<string>, dates: DateParser)
    requires forall i :: 0 <= i < |items| ==>
               (AfterRestart(items[i], None, dates) == items[i] <==> ComesBack(items[i], None, dates))
    ensures AfterRestart(Array(items), key, dates) == Array(items) <==> ComesBack(Array(items), key, dates)
  {
    var out := AfterRestart(Array(items), key, dates).items;
    assert |out| == |items| && forall i :: 0 <= i < |items| ==> out[i] == AfterRestart(items[i], None, dates);
    hide AfterRestart;
    assert (forall i :: 0 <= i < |items| ==> out[i] == items[i]) <==> out == items;
  }

  /** A value written to the file and read back is itself exactly when it meets these conditions. */
  lemma {:induction false} ComesBackIff(v: Js, key: Option<string>, dates: DateParser)
    ensures AfterRestart(v, key, dates) == v <==> ComesBack(v, key, dates)
    decreases v
  {
    hide ComesBackEntry;
    match v
    case Array(items) =>
      forall i | 0 <= i < |items|
        ensures AfterRestart(items[i], None, dates) == items[i] <==> ComesBack(items[i], None, dates)
      {
        ComesBackIff(items[i], None, dates);
      }
      ItemsComeBackIff(items, key, dates);
    case Object(props) =>
      forall i | 0 <= i < |props|
        ensures EntryAfterRestart(props[i].key, props[i].value, dates) == props[i].value
           <==> ComesBackEntry(props[i].key, props[i].value, dates)
      {
        ComesBackIff(props[i].value, Some(props[i].key), dates);
        EntryComesBackIff(props[i].key, props[i].value, dates);
      }
      ObjectComesBackIff(props, dates);
    case _ => ScalarComesBackIff(v, key, dates);
  }

  // ---------- one member through the file ----------

  lemma {:induction false} MembersOfLast(props: seq<Prop>)
    requires props != []
    ensures var n := |props| - 1;
            MembersOf(props) ==
              MembersOf(props[..n])
              + if props[n].value == Undefined then [] else [Member(props[n].key, TreeOf(props[n].value))]
  {
    hide TreeOf;
    var n := |props| - 1;
    if n > 0 {
      MembersOfLast(props[1..]);
      assert props[1..][..n - 1] == props[..n][1..] && props[1..][n - 1] == props[n] && props[..n][0] == props[0];
    }
  }

  lemma DefineGets(props: seq<Prop>, key: string, value: Js, q: string)
    requires DistinctKeys(KeysOf(props))
    ensures DistinctKeys(KeysOf(Define(props, key, value)))
    ensures Get(Define(props, key, value), q) == if q == key then value else Get(props, q)
  {
    if Has(props, key) {
      assert KeysOf(Define(props, key, value)) == KeysOf(props);
      ReplaceGets(props, IndexOf(props, key), Prop(key, value), q);
    } else {
      InsertPropGets(props, Prop(key, value), q);
      InsertPropDistinct(props, Prop(key, value));
    }
  }

  lemma {:induction false} ParsedGets(props: seq<Prop>, q: string)
    requires DistinctKeys(KeysOf(props))
    ensures DistinctKeys(KeysOf(ReparseMembers(MembersOf(props))))
    ensures Get(ReparseMembers(MembersOf(props)), q)
         == if Get(props, q) == Undefined then Undefined else Reparse(TreeOf(Get(props, q)))
    decreases props
  {
    hide TreeOf, Reparse, MembersOf, Define, DistinctKeys;
    if props == [] {
      NoMembers();
    } else {
      var front, last := props[..|props| - 1], props[|props| - 1];
      var members := MembersOf(front);
      FrontGets(props, q);
      LastGets(props);
      ParsedGets(front, q);
      MembersOfLast(props);
      if last.value == Undefined {
        assert MembersOf(props) == members;
      } else {
        var member := Member(last.key, TreeOf(last.value));
        assert (members + [member])[..|members|] == members;
        DefineGets(ReparseMembers(members), last.key, Reparse(member.value), q);
      }
    }
  }

  lemma NoMembers()
    ensures MembersOf([]) == [] && DistinctKeys(KeysOf([]))
  {
  }

  lemma LastGets(props: seq<Prop>)
    requires props != [] && DistinctKeys(KeysOf(props))
    ensures !Has(props[..|props| - 1], props[|props| - 1].key) && Has(props, props[|props| - 1].key)
  {
    var n := |props| - 1;
    assert KeysOf(props)[n] == props[n].key;
    assert forall i :: 0 <= i < n ==> KeysOf(props)[i] == KeysOf(props[..n])[i];
  }

  lemma {:induction false} RevivedGets(props: seq<Prop>, dates: DateParser, q: string)
    requires DistinctKeys(KeysOf(props)) && q != PROTO
    ensures Has(ReviveProps(props, dates), q) <==> Has(props, q)
    ensures Has(props, q) ==> Get(ReviveProps(props, dates), q) == ReviveEntry(q, Get(props, q), dates)
    decreases props
  {
    hide ReviveEntry, Assign;
    if props != [] {
      var front, last := props[..|props| - 1], props[|props| - 1];
      FrontGets(props, q);
      RevivedGets(front, dates, q);
      AssignGets(ReviveProps(front, dates), last.key, ReviveEntry(last.key, last.value, dates), q);
    }
  }

  /** A defined member of any object is read back by its own key alone. */
  lemma MemberAfterRestart(v: Js, key: Option<string>, member: string, dates: DateParser)
    requires v.Object? && DistinctKeys(KeysOf(v.props)) && member != PROTO && Field(v, member) != Undefined
    ensures Field(AfterRestart(v, key, dates), member) == EntryAfterRestart(member, Field(v, member), dates)
  {
    hide ReviveEntry, ReviveProps, ReparseMembers, MembersOf, DistinctKeys;
    ParsedGets(v.props, member);
    ReparseIsParsed(TreeOf(Field(v, member)));
    RevivedGets(ReparseMembers(MembersOf(v.props)), dates, member);
  }

  lemma MemberWellFormed(v: Js, member: string)
    requires WellFormed(v)
    ensures WellFormed(Field(v, member))
  {
  }

  /** A member that is an object or an array is not touched by the kind of its key. */
  lemma ContainerAfterRestart(member: string, v: Js, dates: DateParser)
    requires v.Object? || v.Array?
    ensures EntryAfterRestart(member, v, dates) == AfterRestart(v, None, dates)
  {
    var parsed := Reparse(TreeOf(v));
    assert parsed.Object? || parsed.Array?;
    assert ReviveEntry(member, parsed, dates) == Revive(parsed, Some(member), dates);
    if parsed.Object? {
      assert Revive(parsed, Some(member), dates) == Revive(parsed, None, dates);
    } else {
      assert Revive(parsed, Some(member), dates).items == Revive(parsed, None, dates).items;
    }
  }

  function EvidenceOf(record: Js): Js {
    Field(Field(record, "change"), "evidence")
  }

  /**
   * Evidence of an indexed change keeps its block number as a string, and the next process holds a
   * big integer there: such a record never comes back as it was.
   */
  lemma EvidenceComesBackAsBigint(record: Js, i: nat, s: string, dates: DateParser)
    requires WellFormed(record) && EvidenceOf(record).Array? && i < |EvidenceOf(record).items|
    requires Field(EvidenceOf(record).items[i], "blockNumber") == Text(s) && IsNumeral(s)
    ensures var after := EvidenceOf(AfterRestart(record, None, dates));
            && after.Array? && |after.items| == |EvidenceOf(record).items|
            && Field(after.items[i], "blockNumber") == BigInt(ParseBigint(s).value)
    ensures !ComesBack(record, None, dates)
  {
    hide AfterRestart, EntryAfterRestart, WellFormed, ComesBack;
    var change, evidence := Field(record, "change"), EvidenceOf(record);
    EvidenceWellFormed(record, i);
    MemberAfterRestart(record, None, "change", dates);
    ContainerAfterRestart("change", change, dates);
    MemberAfterRestart(change, None, "evidence", dates);
    ContainerAfterRestart("evidence", evidence, dates);
    ItemAfterRestart(evidence.items, None, i, dates);
    MemberAfterRestart(evidence.items[i], None, "blockNumber", dates);
    BlockNumberAfterRestart(s, dates);
    ComesBackIff(record, None, dates);
  }

  lemma EvidenceWellFormed(record: Js, i: nat)
    requires WellFormed(record) && EvidenceOf(record).Array? && i < |EvidenceOf(record).items|
    requires Field(EvidenceOf(record).items[i], "blockNumber").Text?
    ensures record.Object? && DistinctKeys(KeysOf(record.props))
    ensures Field(record, "change").Object? && DistinctKeys(KeysOf(Field(record, "change").props))
    ensures EvidenceOf(record).items[i].Object? && DistinctKeys(KeysOf(EvidenceOf(record).items[i].props))
  {
    hide DistinctKeys;
    MemberWellFormed(record, "change");
    MemberWellFormed(Field(record, "change"), "evidence");
  }

  lemma ItemAfterRestart(items: seq<Js>, key: Option<string>, i: nat, dates: DateParser)
    requires i < |items|
    ensures var after := AfterRestart(Array(items), key, dates);
            after.Array? && |after.items| == |items| && after.items[i] == AfterRestart(items[i], None, dates)
  {
  }

  lemma BlockNumberAfterRestart(s: string, dates: DateParser)
    requires IsNumeral(s)
    ensures EntryAfterRestart("blockNumber", Text(s), dates) == BigInt(ParseBigint(s).value)
  {
    hide IsNumeral, Value;
    var key := "blockNumber";
    assert BigintKey(key) && !DateKey(key) by {
      assert key[10] == 'r';
    }
    assert Reparse(TreeOf(Text(s))) == Text(s);
    assert ReviveEntry(key, Text(s), dates) == Revive(Text(s), Some(key), dates);
  }

  // ---------- the cursors ----------

  /** An index cursor as the store holds it. */
  datatype IndexCursor = IndexCursor(
    sourceId: string, chainId: int, lastProcessedBlock: int, lastProcessedBlockHash: string, lastProposalId: int,
    updatedAt: string)

  function CursorKeys(): seq<string> {
    ["sourceId", "chainId", "lastProcessedBlock", "lastProcessedBlockHash", "lastProposalId", "updatedAt"]
  }

  function CursorValues(c: IndexCursor): seq<Js> {
    [Text(c.sourceId), Number(c.chainId), BigInt(c.lastProcessedBlock), Text(c.lastProcessedBlockHash),
     BigInt(c.lastProposalId), Date(c.updatedAt)]
  }

  function CursorRecord(c: IndexCursor): Js {
    Record(CursorKeys(), CursorValues(c))
  }

  lemma NotAnIndex(key: string)
    requires key != "" && !IsDigit(key[0])
    ensures !IsIndex(key)
  {
    if IsIndex(key) {
      SignReadable(Value(key));
    }
  }

  lemma CursorKeysPlain()
    ensures Plain(CursorKeys())
    ensures forall i :: 0 <= i < |CursorKeys()| ==> !IsIndex(CursorKeys()[i])
  {
    CodesArePlain(CursorKeys(), Codes(CursorKeys()));
    forall i | 0 <= i < |CursorKeys()|
      ensures !IsIndex(CursorKeys()[i])
    {
      NotAnIndex(CursorKeys()[i]);
    }
  }

  /** A record with plain keys, none of them an index, comes back exactly when its members do. */
  lemma RecordComesBackIff(keys: seq<string>, values: seq<Js>, dates: DateParser)
    requires Plain(keys) && |keys| == |values| && forall i :: 0 <= i < |keys| ==> !IsIndex(keys[i])
    ensures ComesBack(Record(keys, values), None, dates)
       <==> forall i :: 0 <= i < |keys| ==> ComesBackEntry(keys[i], values[i], dates)
  {
    hide ComesBackEntry, IsIndex;
    var props := Zip(keys, values);
    assert forall i :: 0 <= i < |keys| ==> props[i] == Prop(keys[i], values[i]);
  }

  lemma CursorKeyKinds()
    ensures var k := CursorKeys();
            && |k| == 6
            && !BigintKey(k[0]) && !DateKey(k[0])
            && !BigintKey(k[1]) && !DateKey(k[1])
            && BigintKey(k[2]) && !DateKey(k[2])
            && !BigintKey(k[3]) && !DateKey(k[3])
            && BigintKey(k[4]) && !DateKey(k[4])
            && DateKey(k[5])
  {
    assert "sourceId"[0] == 's' && "valueRaw"[0] == 'v';
  }

  /** A cursor comes back exactly when its date is one that toISOString gives. */
  lemma CursorComesBackIff(c: IndexCursor, dates: DateParser)
    ensures ComesBack(CursorRecord(c), None, dates) <==> dates(c.updatedAt) == Some(c.updatedAt)
  {
    hide CursorKeys, BigintKey, DateKey, IsNumeral, IsIndex, Record;
    CursorKeysPlain();
    CursorKeyKinds();
    var keys, values := CursorKeys(), CursorValues(c);
    RecordComesBackIff(keys, values, dates);
    assert forall i :: 0 <= i < 5 ==> ComesBackEntry(keys[i], values[i], dates);
  }

  lemma CursorKeyIs(c: IndexCursor)
    ensures CursorKey(CursorRecord(c)) == Text(c.sourceId)
  {
    var props := Zip(CursorKeys(), CursorValues(c));
    assert props[0].key == "sourceId" && KeysOf(props)[0] == "sourceId";
  }

  // ---------- a whole file ----------

  lemma {:induction false} SetValueSize(values: seq<Js>, v: Js, keyOf: Js -> Js)
    ensures |values| <= |SetValue(values, v, keyOf)| <= |values| + 1
    ensures |SetValue(values, v, keyOf)| == |values| + 1 ==>
              forall i :: 0 <= i < |values| ==> keyOf(values[i]) != keyOf(v)
  {
    if values != [] && keyOf(values[0]) != keyOf(v) {
      SetValueSize(values[1..], v, keyOf);
      assert forall i :: 1 <= i < |values| ==> values[i] == values[1..][i - 1];
    }
  }

  /** A file with two values of one key loses one of them. */
  lemma {:induction false} HydratedSize(file: seq<Js>, keyOf: Js -> Js, dates: DateParser)
    ensures |Hydrated(file, keyOf, dates)| <= |file|
    ensures |Hydrated(file, keyOf, dates)| == |file| <==> DistinctKeysOf(file, keyOf, dates)
  {
    hide Revive, DistinctKeysOf, Hydrated;
    NothingHydrated(keyOf, dates);
    if file != [] {
      var n := |file| - 1;
      HydratedSize(file[..n], keyOf, dates);
      LastHydrated(file, keyOf, dates);
      if DistinctKeysOf(file, keyOf, dates) {
        HydratedInOrder(file, keyOf, dates);
      }
    }
  }

  lemma NothingHydrated(keyOf: Js -> Js, dates: DateParser)
    ensures Hydrated([], keyOf, dates) == [] && DistinctKeysOf([], keyOf, dates)
  {
  }

  lemma LastHydrated(file: seq<Js>, keyOf: Js -> Js, dates: DateParser)
    requires file != []
    ensures |Hydrated(file, keyOf, dates)| <= |Hydrated(file[..|file| - 1], keyOf, dates)| + 1
    ensures DistinctKeysOf(file[..|file| - 1], keyOf, dates) && |Hydrated(file, keyOf, dates)| == |file| ==>
              DistinctKeysOf(file, keyOf, dates)
  {
    hide Revive, DistinctKeysOf;
    var n := |file| - 1;
    var front, last := Hydrated(file[..n], keyOf, dates), Revive(file[n], None, dates);
    SetValueSize(front, last, keyOf);
    if DistinctKeysOf(file[..n], keyOf, dates) && |Hydrated(file, keyOf, dates)| == |file| {
      HydratedInOrder(file[..n], keyOf, dates);
      assert forall i :: 0 <= i < n ==> front[i] == Revive(file[i], None, dates);
      OneMoreKey(file, keyOf, dates);
    }
  }

  lemma OneMoreKey(file: seq<Js>, keyOf: Js -> Js, dates: DateParser)
    requires file != [] && DistinctKeysOf(file[..|file| - 1], keyOf, dates)
    requires forall i :: 0 <= i < |file| - 1 ==>
               keyOf(Revive(file[i], None, dates)) != keyOf(Revive(file[|file| - 1], None, dates))
    ensures DistinctKeysOf(file, keyOf, dates)
  {
    hide Revive;
    var front := file[..|file| - 1];
    assert forall i :: 0 <= i < |front| ==> front[i] == file[i];
  }

  /** What the next process holds for a map of values. */
  function MemoryAfterRestart(values: seq<Js>, keyOf: Js -> Js, dates: DateParser): seq<Js> {
    Hydrated(Reparsed(WrittenValues(values)), keyOf, dates)
  }

  lemma RevivedIsAfterRestart(values: seq<Js>, i: nat, dates: DateParser)
    requires i < |values|
    ensures |Reparsed(WrittenValues(values))| == |values|
    ensures Revive(Reparsed(WrittenValues(values))[i], None, dates) == AfterRestart(values[i], None, dates)
  {
  }

  lemma InOrderAfterRestart(values: seq<Js>, keyOf: Js -> Js, dates: DateParser)
    requires DistinctKeysOf(Reparsed(WrittenValues(values)), keyOf, dates)
    ensures var after := MemoryAfterRestart(values, keyOf, dates);
            && |after| == |values|
            && forall i :: 0 <= i < |values| ==> after[i] == AfterRestart(values[i], None, dates)
  {
    hide Revive, AfterRestart;
    var file := Reparsed(WrittenValues(values));
    HydratedInOrder(file, keyOf, dates);
    forall i | 0 <= i < |values|
      ensures Revive(file[i], None, dates) == AfterRestart(values[i], None, dates)
    {
      RevivedIsAfterRestart(values, i, dates);
    }
  }

  /** The next process holds the same values in the same order exactly when each of them comes back. */
  lemma MemoryComesBackIff(values: seq<Js>, keyOf: Js -> Js, dates: DateParser)
    requires DistinctValues(values, keyOf)
    ensures MemoryAfterRestart(values, keyOf, dates) == values
       <==> forall i :: 0 <= i < |values| ==> ComesBack(values[i], None, dates)
  {
    hide Revive, Reparse, TreeOf, Hydrated, AfterRestart, ComesBack;
    var file := Reparsed(WrittenValues(values));
    forall i | 0 <= i < |values|
      ensures Revive(file[i], None, dates) == AfterRestart(values[i], None, dates)
      ensures AfterRestart(values[i], None, dates) == values[i] <==> ComesBack(values[i], None, dates)
    {
      RevivedIsAfterRestart(values, i, dates);
      ComesBackIff(values[i], None, dates);
    }
    HydratedSize(file, keyOf, dates);
    if DistinctKeysOf(file, keyOf, dates) {
      InOrderAfterRestart(values, keyOf, dates);
    }
  }

  function CursorRecords(cursors: seq<IndexCursor>): seq<Js> {
    seq(|cursors|, i requires 0 <= i < |cursors| => CursorRecord(cursors[i]))
  }

  /** The cursors of one store, one for each source, come back together exactly when each date does. */
  lemma CursorsComeBackIff(cursors: seq<IndexCursor>, dates: DateParser)
    requires forall i, j :: 0 <= i < j < |cursors| ==> cursors[i].sourceId != cursors[j].sourceId
    ensures MemoryAfterRestart(CursorRecords(cursors), CursorKey, dates) == CursorRecords(cursors)
       <==> forall i :: 0 <= i < |cursors| ==> dates(cursors[i].updatedAt) == Some(cursors[i].updatedAt)
  {
    hide CursorRecord, CursorKey, ComesBack, MemoryAfterRestart;
    var records := CursorRecords(cursors);
    forall i | 0 <= i < |cursors|
      ensures CursorKey(records[i]) == Text(cursors[i].sourceId)
      ensures ComesBack(records[i], None, dates) <==> dates(cursors[i].updatedAt) == Some(cursors[i].updatedAt)
    {
      CursorKeyIs(cursors[i]);
      CursorComesBackIff(cursors[i], dates);
    }
    MemoryComesBackIff(records, CursorKey, dates);
  }

  // ---------- the file itself ----------

  /** A tree that JSON.stringify gives again for what JSON.parse makes of it. */
  predicate Written(t: Tree) {
    TreeOf(Reparse(t)) == t
  }

  /** Objects in enumeration order, nothing undefined. */
  ghost predicate Whole(v: Js) {
    match v
    case Undefined => false
    case Array(items) => forall i :: 0 <= i < |items| ==> Whole(items[i])
    case Object(props) => Enumerated(props) && forall i :: 0 <= i < |props| ==> Whole(props[i].value)
    case _ => true
  }

  lemma {:induction false} RevivedWhole(v: Js, key: Option<string>, dates: DateParser)
    requires Parsed(v)
    ensures Whole(Revive(v, key, dates))
    decreases v, 1
  {
    hide Enumerated, BigintKey, IsNumeral;
    match v
    case Array(items) =>
      forall i | 0 <= i < |items|
        ensures Whole(Revive(items[i], None, dates))
      {
        RevivedWhole(items[i], None, dates);
      }
    case Object(props) =>
      RevivedPropsWhole(props, dates);
      RevivedEnumerated(props, dates);
    case _ =>
  }

  lemma {:induction false} RevivedPropsWhole(props: seq<Prop>, dates: DateParser)
    requires forall i :: 0 <= i < |props| ==> Parsed(props[i].value)
    ensures forall p :: p in ReviveProps(props, dates) ==> Whole(p.value)
    decreases props, 0
  {
    hide Parsed, Whole, ReviveEntry;
    if props != [] {
      var front, last := props[..|props| - 1], props[|props| - 1];
      RevivedPropsWhole(front, dates);
      RevivedWhole(last.value, Some(last.key), dates);
      var value := ReviveEntry(last.key, last.value, dates);
      EntryWhole(last.key, last.value, dates);
      RevivedEnumerated(front, dates);
      DefineEnumerated(ReviveProps(front, dates), last.key, value);
    }
  }

  lemma EntryWhole(key: string, v: Js, dates: DateParser)
    requires Whole(Revive(v, Some(key), dates))
    ensures Whole(ReviveEntry(key, v, dates))
  {
  }

  /** What is written for a whole value is written again after parsing. */
  lemma {:induction false} WholeIsWritten(v: Js)
    requires Whole(v)
    ensures Written(TreeOf(v))
    decreases v
  {
    match v
    case Array(items) =>
      forall i | 0 <= i < |items|
        ensures Written(TreeOf(items[i]))
      {
        WholeIsWritten(items[i]);
      }
      assert TreeOf(Reparse(TreeOf(v))).items == TreeOf(v).items;
    case Object(props) =>
      forall i | 0 <= i < |props|
        ensures props[i].value != Undefined && Written(TreeOf(props[i].value))
      {
        WholeIsWritten(props[i].value);
      }
      ObjectWrittenAgain(props);
    case _ =>
  }

  lemma ObjectWrittenAgain(props: seq<Prop>)
    requires Enumerated(props) && AllDefined(props)
    requires forall i :: 0 <= i < |props| ==> Written(TreeOf(props[i].value))
    ensures Written(TreeOf(Object(props)))
  {
    hide ReparseMembers, Enumerated;
    ObjectReparsed(props);
    var out := ThroughText(props);
    forall i | 0 <= i < |props|
      ensures out[i].value != Undefined && TreeOf(out[i].value) == TreeOf(props[i].value)
    {
      ReparseIsParsed(TreeOf(props[i].value));
    }
    MembersOfDefined(props);
    MembersOfDefined(out);
    assert MembersOf(out) == MembersOf(props);
  }

  ghost predicate UnchangedByRestart(t: Tree, dates: DateParser) {
    Written(t) && Stable(Reparse(t), None, dates)
  }

  lemma TreeUnchangedIff(t: Tree, dates: DateParser)
    ensures TreeOf(Revive(Reparse(t), None, dates)) == t <==> UnchangedByRestart(t, dates)
  {
    hide Revive, Stable, Reparse, TreeOf, Parsed, Whole;
    ReparseIsParsed(t);
    WrittenAgainIffStable(Reparse(t), None, dates);
    RevivedWhole(Reparse(t), None, dates);
    WholeIsWritten(Revive(Reparse(t), None, dates));
  }

  /**
   * Reading a list of the file and writing it back leaves it as it was exactly when no key comes
   * twice and every value is one the store writes and is stable.
   */
  lemma FileUnchangedIff(trees: seq<Tree>, keyOf: Js -> Js, dates: DateParser)
    ensures WrittenValues(Hydrated(Reparsed(trees), keyOf, dates)) == trees
       <==> && DistinctKeysOf(Reparsed(trees), keyOf, dates)
            && forall i :: 0 <= i < |trees| ==> UnchangedByRestart(trees[i], dates)
  {
    hide Revive, Reparse, TreeOf, UnchangedByRestart, Hydrated;
    var file := Reparsed(trees);
    var hydrated := Hydrated(file, keyOf, dates);
    HydratedSize(file, keyOf, dates);
    if DistinctKeysOf(file, keyOf, dates) {
      HydratedInOrder(file, keyOf, dates);
      forall i | 0 <= i < |trees|
        ensures TreeOf(hydrated[i]) == trees[i] <==> UnchangedByRestart(trees[i], dates)
      {
        TreeUnchangedIff(trees[i], dates);
      }
      var written := WrittenValues(hydrated);
      assert written == trees <==> forall i :: 0 <= i < |trees| ==> written[i] == trees[i];
    }
  }

  /** A process writes its store and the next one reads it. */
  method Restart(store: JsonFileGovernanceStore) returns (next: JsonFileGovernanceStore)
    requires store.Valid() && store.loaded
    modifies store`file
    ensures store.loaded && store.cursors == old(store.cursors) && store.changes == old(store.changes)
    ensures fresh(next) && next.Valid() && next.loaded && next.file == store.file
    ensures next.cursors == store.cursors
       <==> forall i :: 0 <= i < |store.cursors| ==> ComesBack(store.cursors[i], None, store.dates)
    ensures next.changes == store.changes
       <==> forall i :: 0 <= i < |store.changes| ==> ComesBack(store.changes[i], None, store.dates)
  {
    hide Hydrated, Reparsed, WrittenValues, DistinctValues, ComesBack;
    store.Persist();
    next := new JsonFileGovernanceStore(store.file, store.dates);
    MemoryComesBackIff(store.cursors, CursorKey, store.dates);
    MemoryComesBackIff(store.changes, ChangeKey, store.dates);
    next.Hydrate();
  }

  /** A process reads the file and writes it again. */
  method Rewrite(onDisk: File, dates: DateParser) returns (store: JsonFileGovernanceStore)
    ensures fresh(store) && store.Valid()
    ensures store.file == Some(onDisk)
       <==> && DistinctKeysOf(Reparsed(onDisk.cursors), CursorKey, dates)
            && DistinctKeysOf(Reparsed(onDisk.changes), ChangeKey, dates)
            && (forall i :: 0 <= i < |onDisk.cursors| ==> UnchangedByRestart(onDisk.cursors[i], dates))
            && (forall i :: 0 <= i < |onDisk.changes| ==> UnchangedByRestart(onDisk.changes[i], dates))
  {
    hide Hydrated, Reparsed, WrittenValues, DistinctKeysOf, UnchangedByRestart;
    store := new JsonFileGovernanceStore(Some(onDisk), dates);
    store.Hydrate();
    store.Persist();
    FileUnchangedIff(onDisk.cursors, CursorKey, dates);
    FileUnchangedIff(onDisk.changes, ChangeKey, dates);
  }
}
