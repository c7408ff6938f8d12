/**
 * The text of a receipt that is hashed, packages/simulation-core/src/receipt.ts, as a reader sees it:
 * under which name each field stands.
 */
module ReceiptText {
  import opened Wrappers
  import opened LowerCase
  import opened JsonText
  import opened JsonReader
  import opened CanonicalJson
  import opened CanonicalText
  import opened Receipts

  /** The member of an object under a name. */
  function Member(j: Json, name: string): Option<Json> {
    if j.JObj? && name in j.members then Some(j.members[name]) else None
  }

  /** A string, or null for none. */
  function StringOrNull(value: Option<string>): Json {
    if value.Some? then JStr(value.value) else JNull
  }

  /** The strings of the list, sorted. */
  ghost predicate SortedStrings(j: Json, values: seq<string>) {
    && j.JArr? && |j.items| == |values|
    && (forall i :: 0 <= i < |j.items| ==> j.items[i].JStr?)
    && multiset(seq(|j.items|, i requires 0 <= i < |j.items| => if j.items[i].JStr? then j.items[i].s else ""))
       == multiset(values)
    && forall i, k :: 0 <= i < k < |j.items| && j.items[i].JStr? && j.items[k].JStr? ==>
         !Before(Encode(j.items[k].s), Encode(j.items[i].s))
  }

  function LowerAll(values: seq<string>): seq<string> {
    seq(|values|, i requires 0 <= i < |values| => Lower(values[i]))
  }

  // ---------- sorted lists ----------

  lemma {:induction false} InsertKeyMembers(key: string, sorted: seq<string>)
    ensures multiset(InsertKey(key, sorted)) == multiset(sorted) + multiset{key}
    ensures forall k :: k in InsertKey(key, sorted) <==> k == key || k in sorted
  {
    hide Utf16Less;
    if sorted != [] && !Utf16Less(key, sorted[0]) {
      InsertKeyMembers(key, sorted[1..]);
      assert sorted == [sorted[0]] + sorted[1..];
    }
  }

  ghost predicate NotDescending(keys: seq<string>) {
    forall i, j :: 0 <= i < j < |keys| ==> !Utf16Less(keys[j], keys[i])
  }

  lemma NotDescendingCons(key: string, rest: seq<string>)
    requires NotDescending(rest) && forall k :: k in rest ==> !Utf16Less(k, key)
    ensures NotDescending([key] + rest)
  {
    hide Utf16Less;
  }

  lemma {:induction false} InsertKeySorted(key: string, sorted: seq<string>)
    requires NotDescending(sorted)
    ensures NotDescending(InsertKey(key, sorted))
  {
    hide Utf16Less;
    if sorted == [] {
    } else if Utf16Less(key, sorted[0]) {
      Utf16LessTrichotomy(sorted[0], sorted[0]);
      forall k | k in sorted
        ensures !Utf16Less(k, key)
      {
        NotAfter(key, sorted[0], k);
      }
      NotDescendingCons(key, sorted);
    } else {
      InsertKeySorted(key, sorted[1..]);
      InsertKeyMembers(key, sorted[1..]);
      assert forall k :: k in sorted[1..] ==> !Utf16Less(k, sorted[0]);
      NotDescendingCons(sorted[0], InsertKey(key, sorted[1..]));
    }
  }

  /** What is not before something after key is not before key. */
  lemma NotAfter(key: string, head: string, other: string)
    requires Utf16Less(key, head) && !Utf16Less(other, head)
    ensures !Utf16Less(other, key)
  {
    hide Utf16Less;
    if Utf16Less(other, key) {
      Utf16LessTransitive(other, key, head);
    }
  }

  lemma {:induction false} SortKeysSorted(keys: seq<string>)
    ensures multiset(SortKeys(keys)) == multiset(keys) && NotDescending(SortKeys(keys))
  {
    hide Utf16Less, InsertKey, NotDescending;
    if keys == [] {
      NothingDescends();
    } else {
      SortKeysSorted(keys[1..]);
      InsertKeyMembers(keys[0], SortKeys(keys[1..]));
      InsertKeySorted(keys[0], SortKeys(keys[1..]));
      assert keys == [keys[0]] + keys[1..];
    }
  }

  lemma NothingDescends()
    ensures NotDescending([])
  {
  }

  lemma SortedTexts(values: seq<string>)
    ensures SortedStrings(Meaning(Texts(SortKeys(values))), values)
  {
    hide SortKeys, Utf16Less, Before, Encode;
    var sorted := SortKeys(values);
    SortKeysSorted(values);
    var texts := Texts(sorted).items;
    assert |texts| == |sorted| && forall i :: 0 <= i < |sorted| ==> texts[i] == Text(sorted[i]);
    var items := Meaning(Texts(sorted)).items;
    assert |items| == |texts| && forall i :: 0 <= i < |texts| ==> items[i] == Meaning(texts[i]);
    assert |items| == |sorted| && forall i :: 0 <= i < |sorted| ==> items[i] == JStr(sorted[i]);
    assert seq(|items|, i requires 0 <= i < |items| => if items[i].JStr? then items[i].s else "") == sorted;
    assert |multiset(sorted)| == |sorted| && |multiset(values)| == |values|;
    forall i, k | 0 <= i < k < |items|
      ensures !Before(Encode(items[k].s), Encode(items[i].s))
    {
      SortedByUnits(sorted[k], sorted[i]);
    }
  }

  // ---------- records ----------

  lemma MemberOf(keys: seq<string>, values: seq<Js>, i: nat)
    requires Plain(keys) && |keys| == |values| && Defined(values) && i < |keys|
    ensures Member(Meaning(Record(keys, values)), keys[i]) == Some(Meaning(values[i]))
  {
    hide Plain, Defined;
    RecordMember(keys, values, i);
  }

  /** All members of a record at once. */
  lemma MembersOfRecord(keys: seq<string>, values: seq<Js>)
    requires Plain(keys) && |keys| == |values| && Defined(values)
    ensures forall i :: 0 <= i < |keys| ==> Member(Meaning(Record(keys, values)), keys[i]) == Some(Meaning(values[i]))
  {
    hide Plain, Defined, Meaning, Record, Member;
    forall i | 0 <= i < |keys|
      ensures Member(Meaning(Record(keys, values)), keys[i]) == Some(Meaning(values[i]))
    {
      MemberOf(keys, values, i);
    }
  }

  ghost predicate ForkReads(j: Json, a: Anchor) {
    && Member(j, "chainId") == Some(JNum(a.chainId))
    && Member(j, "blockNumber") == Some(JStr(Decimal(a.blockNumber)))
    && Member(j, "blockHash") == Some(JStr(Lower(a.blockHash)))
  }

  lemma ForkIsRead(a: Anchor)
    ensures ForkReads(Meaning(ForkBody(a)), a)
  {
    hide Member, Record, Decimal, Lower, Plain;
    PlainRecords();
    MembersOfRecord(ForkKeys(), ForkValues(a));
    var k := ForkKeys();
    assert k[0] == "chainId" && k[1] == "blockNumber" && k[2] == "blockHash";
  }

  ghost predicate SideReads(j: Json, s: Side) {
    && Member(j, "collateralFactorMantissa") == Some(JStr(s.collateralFactorMantissa))
    && Member(j, "liquidityRaw") == Some(JStr(Decimal(s.risk.liquidityRaw)))
    && Member(j, "shortfallRaw") == Some(JStr(Decimal(s.risk.shortfallRaw)))
    && Member(j, "status") == Some(JStr(s.risk.status))
  }

  lemma SideIsRead(s: Side)
    ensures SideReads(Meaning(SideBody(s)), s)
  {
    hide Member, Record, Decimal, Plain;
    PlainRecords();
    MembersOfRecord(SideKeys(), SideValues(s));
    var k := SideKeys();
    assert k[0] == "collateralFactorMantissa" && k[1] == "liquidityRaw" && k[2] == "shortfallRaw" && k[3] == "status";
  }

  ghost predicate CallReads(j: Json, c: TargetCall) {
    && Member(j, "destinationChainId") == Some(JNum(c.destinationChainId))
    && Member(j, "target") == Some(JStr(Lower(c.target)))
    && Member(j, "valueRaw") == Some(JStr(c.valueRaw))
    && Member(j, "calldata") == Some(JStr(Lower(c.calldata)))
    && Member(j, "selector") == Some(JStr(Lower(c.selector)))
  }

  lemma CallIsRead(c: TargetCall)
    ensures CallReads(Meaning(CallBody(c)), c)
  {
    hide Member, Record, Lower, Plain;
    PlainRecords();
    MembersOfRecord(CallKeys(), CallValues(c));
    var k := CallKeys();
    assert k[0] == "destinationChainId" && k[1] == "target" && k[2] == "valueRaw" && k[3] == "calldata";
    assert k[4] == "selector";
  }

  ghost predicate ImpersonationReads(j: Json, i: Impersonation) {
    Member(j, "account") == Some(JStr(Lower(i.account))) && Member(j, "reason") == Some(JStr(i.reason))
  }

  lemma ImpersonationIsRead(i: Impersonation)
    ensures ImpersonationReads(Meaning(ImpersonationBody(i)), i)
  {
    hide Member, Record, Lower, Plain;
    PlainRecords();
    MembersOfRecord(ImpersonationKeys(), ImpersonationValues(i));
    var k := ImpersonationKeys();
    assert k[0] == "account" && k[1] == "reason";
  }

  ghost predicate ExposureReads(j: Json, e: Exposure) {
    && Member(j, "relevant") == Some(JBool(e.relevant))
    && Member(j, "severityHint") == Some(JStr(e.severityHint))
    && Member(j, "matchedMarkets").Some? && SortedStrings(Member(j, "matchedMarkets").value, LowerAll(e.matchedMarkets))
    && Member(j, "matchedAssets").Some? && SortedStrings(Member(j, "matchedAssets").value, LowerAll(e.matchedAssets))
    && Member(j, "rationaleCodes").Some? && SortedStrings(Member(j, "rationaleCodes").value, e.rationaleCodes)
  }

  lemma ExposureIsRead(e: Exposure)
    ensures ExposureReads(Meaning(ExposureBody(e)), e)
  {
    hide Member, Record, Plain, SortedStrings, SortKeys;
    PlainRecords();
    MembersOfRecord(ExposureKeys(), ExposureValues(e));
    var k := ExposureKeys();
    assert k[0] == "relevant" && k[1] == "severityHint" && k[2] == "matchedMarkets" && k[3] == "matchedAssets";
    assert k[4] == "rationaleCodes";
    LowerThenSort(e.matchedMarkets);
    LowerThenSort(e.matchedAssets);
    SortedTexts(e.rationaleCodes);
  }

  lemma LowerThenSort(values: seq<string>)
    ensures SortedStrings(Meaning(Texts(SortedLower(values))), LowerAll(values))
  {
    hide SortedStrings, Texts, SortKeys, Meaning;
    assert seq(|values|, i requires 0 <= i < |values| => Lower(values[i])) == LowerAll(values);
    SortedTexts(LowerAll(values));
  }

  ghost predicate MaterialReads(j: Json, m: MaterialRisk) {
    && Member(j, "classification") == Some(JStr(m.classification))
    && Member(j, "liquidityDropBps") == Some(StringOrNull(m.liquidityDropBps))
    && Member(j, "liquidityDeltaRaw") == Some(JStr(m.liquidityDeltaRaw))
    && Member(j, "shortfallDeltaRaw") == Some(JStr(m.shortfallDeltaRaw))
  }

  lemma MaterialIsRead(m: MaterialRisk)
    ensures MaterialReads(Meaning(RiskBody(m)), m)
  {
    hide Member, Record, Plain;
    PlainMoreRecords();
    MembersOfRecord(RiskKeys(), RiskValues(m));
    var k := RiskKeys();
    assert k[0] == "classification" && k[1] == "liquidityDropBps" && k[2] == "liquidityDeltaRaw";
    assert k[3] == "shortfallDeltaRaw";
  }

  ghost predicate PolicyReads(j: Json, p: Policy) {
    && Member(j, "policyVersion") == Some(JStr(p.policyVersion))
    && Member(j, "minSafetyBufferBps") == Some(JNum(p.minSafetyBufferBps))
    && Member(j, "minSafetyBufferBpsSource") == Some(JStr(p.minSafetyBufferBpsSource))
  }

  lemma PolicyIsRead(p: Policy)
    ensures PolicyReads(Meaning(PolicyBody(p)), p)
  {
    hide Member, Record, Plain;
    PlainMoreRecords();
    MembersOfRecord(PolicyKeys(), PolicyValues(p));
    var k := PolicyKeys();
    assert k[0] == "policyVersion" && k[1] == "minSafetyBufferBps" && k[2] == "minSafetyBufferBpsSource";
  }

  ghost predicate EvaluationReads(j: Json, e: Evaluation) {
    && Member(j, "passed") == Some(JBool(e.passed))
    && Member(j, "reasons").Some? && SortedStrings(Member(j, "reasons").value, e.reasons)
  }

  lemma EvaluationIsRead(e: Evaluation)
    ensures EvaluationReads(Meaning(EvaluationBody(e)), e)
  {
    hide Member, Record, Plain, SortedStrings, SortKeys;
    PlainMoreRecords();
    MembersOfRecord(EvaluationKeys(), EvaluationValues(e));
    var k := EvaluationKeys();
    assert k[0] == "passed" && k[1] == "reasons";
    SortedTexts(e.reasons);
  }

  ghost predicate ProvenanceReads(j: Json, p: Provenance) {
    && Member(j, "comptroller") == Some(JStr(Lower(p.comptroller)))
    && Member(j, "temporalGovernor") == Some(JStr(Lower(p.temporalGovernor)))
    && Member(j, "market") == Some(JStr(Lower(p.market)))
    && Member(j, "comptrollerCodeHash") == Some(StringOrNull(p.comptrollerCodeHash))
    && Member(j, "marketCodeHash") == Some(StringOrNull(p.marketCodeHash))
    && Member(j, "temporalGovernorCodeHash") == Some(StringOrNull(p.temporalGovernorCodeHash))
  }

  lemma ProvenanceIsRead(p: Provenance)
    ensures ProvenanceReads(Meaning(ProvenanceBody(p)), p)
  {
    hide Member, Record, Plain, Lower;
    PlainMoreRecords();
    MembersOfRecord(ProvenanceKeys(), ProvenanceValues(p));
    var k := ProvenanceKeys();
    assert k[0] == "comptroller" && k[1] == "temporalGovernor" && k[2] == "market" && k[3] == "comptrollerCodeHash";
    assert k[4] == "marketCodeHash" && k[5] == "temporalGovernorCodeHash";
  }

  // ---------- the whole receipt ----------

  ghost predicate CallsRead(j: Json, calls: seq<TargetCall>) {
    j.JArr? && |j.items| == |calls| && forall i :: 0 <= i < |calls| ==> CallReads(j.items[i], calls[i])
  }

  lemma CallsAreRead(calls: seq<TargetCall>)
    ensures CallsRead(Meaning(CallBodies(calls)), calls)
  {
    hide CallBody, CallReads;
    var bodies := CallBodies(calls).items;
    assert |bodies| == |calls| && forall i :: 0 <= i < |calls| ==> bodies[i] == CallBody(calls[i]);
    var items := Meaning(CallBodies(calls)).items;
    assert |items| == |bodies| && forall i :: 0 <= i < |bodies| ==> items[i] == Meaning(bodies[i]);
    forall i | 0 <= i < |calls|
      ensures CallReads(items[i], calls[i])
    {
      CallIsRead(calls[i]);
    }
  }

  ghost predicate ImpersonationsRead(j: Json, items: seq<Impersonation>) {
    j.JArr? && |j.items| == |items| && forall i :: 0 <= i < |items| ==> ImpersonationReads(j.items[i], items[i])
  }

  lemma ImpersonationsAreRead(list: seq<Impersonation>)
    ensures ImpersonationsRead(Meaning(ImpersonationBodies(list)), list)
  {
    hide ImpersonationBody, ImpersonationReads;
    var bodies := ImpersonationBodies(list).items;
    assert |bodies| == |list| && forall i :: 0 <= i < |list| ==> bodies[i] == ImpersonationBody(list[i]);
    var items := Meaning(ImpersonationBodies(list)).items;
    assert |items| == |bodies| && forall i :: 0 <= i < |bodies| ==> items[i] == Meaning(bodies[i]);
    forall i | 0 <= i < |list|
      ensures ImpersonationReads(items[i], list[i])
    {
      ImpersonationIsRead(list[i]);
    }
  }

  ghost predicate IdentityReads(j: Json, r: Receipt) {
    && Member(j, "receiptSchemaVersion") == Some(JStr(r.receiptSchemaVersion))
    && Member(j, "engineVersion") == Some(JStr(r.engineVersion))
    && Member(j, "replayGrade") == Some(JStr(r.replayGrade))
    && Member(j, "proposalId") == Some(JStr(r.proposalId))
    && Member(j, "changeId") == Some(JStr(r.changeId))
    && Member(j, "wallet") == Some(JStr(Lower(r.wallet)))
    && Member(j, "chainId") == Some(JNum(r.chainId))
    && Member(j, "liquidityDeltaRaw") == Some(JStr(r.liquidityDeltaRaw))
  }

  ghost predicate ActionReads(j: Json, r: Receipt) {
    && Member(j, "fork").Some? && ForkReads(Member(j, "fork").value, r.fork)
    && Member(j, "targetCalls").Some? && CallsRead(Member(j, "targetCalls").value, r.targetCalls)
    && Member(j, "impersonations").Some? && ImpersonationsRead(Member(j, "impersonations").value, r.impersonations)
    && Member(j, "timeJumps") == Some(Meaning(Array(r.timeJumps)))
  }

  ghost predicate EffectReads(j: Json, r: Receipt) {
    && Member(j, "before").Some? && SideReads(Member(j, "before").value, r.before)
    && Member(j, "after").Some? && SideReads(Member(j, "after").value, r.after)
    && Member(j, "exposure").Some? && ExposureReads(Member(j, "exposure").value, r.exposure)
    && Member(j, "materialRisk").Some? && MaterialReads(Member(j, "materialRisk").value, r.materialRisk)
  }

  ghost predicate VerdictReads(j: Json, r: Receipt) {
    && Member(j, "policy").Some? && PolicyReads(Member(j, "policy").value, r.policy)
    && Member(j, "policyEvaluation").Some?
    && EvaluationReads(Member(j, "policyEvaluation").value, r.policyEvaluation)
    && Member(j, "provenance").Some? && ProvenanceReads(Member(j, "provenance").value, r.provenance)
  }

  lemma FourLists(a: seq<Js>, b: seq<Js>, c: seq<Js>, d: seq<Js>)
    requires |a| == 6 && |b| == 5 && |c| == 4 && |d| == 4
    ensures var all := a + (b + (c + d));
            && |all| == 19
            && (forall i :: 0 <= i < 6 ==> all[i] == a[i])
            && (forall i :: 6 <= i < 11 ==> all[i] == b[i - 6])
            && (forall i :: 11 <= i < 15 ==> all[i] == c[i - 11])
            && (forall i :: 15 <= i < 19 ==> all[i] == d[i - 15])
            && (Defined(a) && Defined(b) && Defined(c) && Defined(d) ==> Defined(all))
  {
    var all := a + (b + (c + d));
    forall i | 0 <= i < 19
      ensures all[i] in a || all[i] in b || all[i] in c || all[i] in d
    {
      assert i < 6 ==> all[i] == a[i];
      assert 6 <= i < 11 ==> all[i] == b[i - 6];
      assert 11 <= i < 15 ==> all[i] == c[i - 11];
      assert i >= 15 ==> all[i] == d[i - 15];
    }
  }

  lemma ListsDefined(r: Receipt)
    ensures Defined(IdentityValues(r)) && Defined(ActionValues(r))
    ensures Defined(EffectValues(r)) && Defined(VerdictValues(r))
  {
    hide ForkValues, SideValues, ExposureValues, RiskValues, PolicyValues, EvaluationValues, ProvenanceValues;
  }

  lemma BodyNames()
    ensures var k := BodyKeys();
            && |k| == 19
            && k[0] == "receiptSchemaVersion" && k[1] == "engineVersion" && k[2] == "replayGrade"
            && k[3] == "proposalId" && k[4] == "changeId" && k[5] == "wallet" && k[6] == "chainId" && k[7] == "fork"
            && k[8] == "targetCalls" && k[9] == "impersonations" && k[10] == "timeJumps" && k[11] == "before"
            && k[12] == "after" && k[13] == "liquidityDeltaRaw" && k[14] == "exposure" && k[15] == "materialRisk"
            && k[16] == "policy" && k[17] == "policyEvaluation" && k[18] == "provenance"
  {
  }

  lemma BodyMember(r: Receipt, j: Json, i: nat, name: string)
    requires j == Meaning(ReceiptHashBody(r)) && i < 19 && |BodyKeys()| == 19 && name == BodyKeys()[i]
    ensures |BodyValues(r)| == 19 && Member(j, name) == Some(Meaning(BodyValues(r)[i]))
  {
    hide Member, Record, Plain, BodyKeys, IdentityValues, ActionValues, EffectValues, VerdictValues;
    PlainBody();
    ListLengths(r);
    ListsDefined(r);
    FourLists(IdentityValues(r), ActionValues(r), EffectValues(r), VerdictValues(r));
    MemberOf(BodyKeys(), BodyValues(r), i);
  }

  lemma ListLengths(r: Receipt)
    ensures |IdentityValues(r)| == 6 && |ActionValues(r)| == 5 && |EffectValues(r)| == 4 && |VerdictValues(r)| == 4
  {
  }

  lemma BodyAt(r: Receipt)
    ensures |BodyValues(r)| == 19
    ensures forall i :: 0 <= i < 6 ==> BodyValues(r)[i] == IdentityValues(r)[i]
    ensures forall i :: 6 <= i < 11 ==> BodyValues(r)[i] == ActionValues(r)[i - 6]
    ensures forall i :: 11 <= i < 15 ==> BodyValues(r)[i] == EffectValues(r)[i - 11]
    ensures forall i :: 15 <= i < 19 ==> BodyValues(r)[i] == VerdictValues(r)[i - 15]
  {
    hide IdentityValues, ActionValues, EffectValues, VerdictValues;
    ListLengths(r);
    FourLists(IdentityValues(r), ActionValues(r), EffectValues(r), VerdictValues(r));
  }

  lemma IdentityIsRead(r: Receipt, j: Json)
    requires j == Meaning(ReceiptHashBody(r))
    ensures IdentityReads(j, r)
  {
    hide Member, ReceiptHashBody, BodyValues, BodyKeys, Lower, Meaning, IdentityValues, ActionValues, EffectValues;
    BodyNames();
    BodyAt(r);
    BodyMember(r, j, 0, "receiptSchemaVersion");
    BodyMember(r, j, 1, "engineVersion");
    BodyMember(r, j, 2, "replayGrade");
    BodyMember(r, j, 3, "proposalId");
    BodyMember(r, j, 4, "changeId");
    BodyMember(r, j, 5, "wallet");
    BodyMember(r, j, 6, "chainId");
    BodyMember(r, j, 13, "liquidityDeltaRaw");
    IdentityMeanings(r);
  }

  lemma IdentityMeanings(r: Receipt)
    ensures var v := IdentityValues(r);
            && |v| == 6
            && Meaning(v[0]) == JStr(r.receiptSchemaVersion) && Meaning(v[1]) == JStr(r.engineVersion)
            && Meaning(v[2]) == JStr(r.replayGrade) && Meaning(v[3]) == JStr(r.proposalId)
            && Meaning(v[4]) == JStr(r.changeId) && Meaning(v[5]) == JStr(Lower(r.wallet))
    ensures |ActionValues(r)| == 5 && Meaning(ActionValues(r)[0]) == JNum(r.chainId)
    ensures |EffectValues(r)| == 4 && Meaning(EffectValues(r)[2]) == JStr(r.liquidityDeltaRaw)
  {
  }

  lemma ActionIsRead(r: Receipt, j: Json)
    requires j == Meaning(ReceiptHashBody(r))
    ensures ActionReads(j, r)
  {
    hide Member, ReceiptHashBody, BodyValues, BodyKeys, Meaning, ForkReads, CallsRead, ImpersonationsRead, ForkBody;
    hide CallBodies, ImpersonationBodies;
    BodyNames();
    BodyAt(r);
    BodyMember(r, j, 7, "fork");
    BodyMember(r, j, 8, "targetCalls");
    BodyMember(r, j, 9, "impersonations");
    BodyMember(r, j, 10, "timeJumps");
    var v := BodyValues(r);
    assert v[7] == ForkBody(r.fork) && v[8] == CallBodies(r.targetCalls);
    assert v[9] == ImpersonationBodies(r.impersonations) && v[10] == Array(r.timeJumps);
    ForkIsRead(r.fork);
    CallsAreRead(r.targetCalls);
    ImpersonationsAreRead(r.impersonations);
  }

  lemma EffectIsRead(r: Receipt, j: Json)
    requires j == Meaning(ReceiptHashBody(r))
    ensures EffectReads(j, r)
  {
    hide Member, ReceiptHashBody, BodyValues, BodyKeys, Meaning, SideReads, ExposureReads, MaterialReads;
    hide SideBody, ExposureBody, RiskBody;
    BodyNames();
    BodyAt(r);
    BodyMember(r, j, 11, "before");
    BodyMember(r, j, 12, "after");
    BodyMember(r, j, 14, "exposure");
    BodyMember(r, j, 15, "materialRisk");
    var v := BodyValues(r);
    assert v[11] == SideBody(r.before) && v[12] == SideBody(r.after) && v[14] == ExposureBody(r.exposure);
    assert v[15] == RiskBody(r.materialRisk);
    SideIsRead(r.before);
    SideIsRead(r.after);
    ExposureIsRead(r.exposure);
    MaterialIsRead(r.materialRisk);
  }

  lemma VerdictIsRead(r: Receipt, j: Json)
    requires j == Meaning(ReceiptHashBody(r))
    ensures VerdictReads(j, r)
  {
    hide Member, ReceiptHashBody, BodyValues, BodyKeys, Meaning, PolicyReads, EvaluationReads, ProvenanceReads;
    hide PolicyBody, EvaluationBody, ProvenanceBody;
    BodyNames();
    BodyAt(r);
    BodyMember(r, j, 16, "policy");
    BodyMember(r, j, 17, "policyEvaluation");
    BodyMember(r, j, 18, "provenance");
    var v := BodyValues(r);
    assert v[16] == PolicyBody(r.policy) && v[17] == EvaluationBody(r.policyEvaluation);
    assert v[18] == ProvenanceBody(r.provenance);
    PolicyIsRead(r.policy);
    EvaluationIsRead(r.policyEvaluation);
    ProvenanceIsRead(r.provenance);
  }

  /** The text of a receipt reads back with every hashed field under its name. */
  lemma ReceiptReads(r: Receipt) returns (t: Tree)
    requires WellFormed(Array(r.timeJumps))
    ensures CanonicalizeReceipt(r).Some? && Read(CanonicalizeReceipt(r).value) == Some(t) && MembersInOrder(t)
    ensures var j := JsonOf(t); IdentityReads(j, r) && ActionReads(j, r) && EffectReads(j, r) && VerdictReads(j, r)
  {
    hide ReceiptHashBody, IdentityReads, ActionReads, EffectReads, VerdictReads, MembersInOrder, Meaning, Canonical;
    hide Read;
    BodyWellFormed(r);
    BodyIsObject(r);
    t := CanonicalReads(ReceiptHashBody(r));
    IdentityIsRead(r, JsonOf(t));
    ActionIsRead(r, JsonOf(t));
    EffectIsRead(r, JsonOf(t));
    VerdictIsRead(r, JsonOf(t));
  }

  lemma BodyIsObject(r: Receipt)
    ensures ReceiptHashBody(r) != Undefined
  {
  }
}
