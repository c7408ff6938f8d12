/**
 * Simulation receipts, packages/simulation-core/src/receipt.ts: the projection that is hashed,
 * its canonical text, and the comparison of two receipts field by field.
 */
module Receipts {
  import opened Wrappers
  import opened LowerCase
  import opened JsonText
  import opened JsonReader
  import opened CanonicalJson

  // ---------- receipts ----------

  /** extra holds the further members, which are neither hashed nor compared. */
  datatype Anchor = Anchor(chainId: int, blockNumber: int, blockHash: string, extra: seq<Prop>)

  datatype TargetCall = TargetCall(
    destinationChainId: int, target: string, valueRaw: string, calldata: string, selector: string, extra: seq<Prop>)

  datatype Impersonation = Impersonation(account: string, reason: string, extra: seq<Prop>)

  datatype Risk = Risk(liquidityRaw: int, shortfallRaw: int, status: string, extra: seq<Prop>)

  datatype Side = Side(collateralFactorMantissa: string, risk: Risk)

  datatype Exposure = Exposure(
    relevant: bool, severityHint: string,
    matchedMarkets: seq<string>, matchedAssets: seq<string>, rationaleCodes: seq<string>, extra: seq<Prop>)

  datatype MaterialRisk = MaterialRisk(
    classification: string, liquidityDropBps: Option<string>, liquidityDeltaRaw: string, shortfallDeltaRaw: string,
    extra: seq<Prop>)

  datatype Policy = Policy(policyVersion: string, minSafetyBufferBps: int, minSafetyBufferBpsSource: string,
    extra: seq<Prop>)

  datatype Evaluation = Evaluation(passed: bool, reasons: seq<string>, extra: seq<Prop>)

  datatype Provenance = Provenance(
    comptroller: string, temporalGovernor: string, market: string,
    comptrollerCodeHash: Option<string>, marketCodeHash: Option<string>, temporalGovernorCodeHash: Option<string>)

  datatype Receipt = Receipt(
    receiptSchemaVersion: string, engineVersion: string, replayGrade: string, proposalId: string, changeId: string,
    wallet: string, chainId: int, fork: Anchor, policy: Policy, policyEvaluation: Evaluation, exposure: Exposure,
    impersonations: seq<Impersonation>, timeJumps: seq<Js>, targetCalls: seq<TargetCall>,
    before: Side, after: Side, liquidityDeltaRaw: string, materialRisk: MaterialRisk, provenance: Provenance,
    extra: seq<Prop>)

  // ---------- the projection that is hashed ----------

  function SortedLower(values: seq<string>): seq<string> {
    SortKeys(seq(|values|, i requires 0 <= i < |values| => Lower(values[i])))
  }

  function Zip(keys: seq<string>, values: seq<Js>): (props: seq<Prop>)
    requires |keys| == |values|
    ensures |props| == |keys|
    ensures KeysOf(props) == keys
  {
    seq(|keys|, i requires 0 <= i < |keys| => Prop(keys[i], values[i]))
  }

  /** An object literal with these keys and values. */
  function Record(keys: seq<string>, values: seq<Js>): Js
    requires |keys| == |values|
  {
    Object(Zip(keys, values))
  }

  function Texts(values: seq<string>): Js {
    Array(seq(|values|, i requires 0 <= i < |values| => Text(values[i])))
  }

  function OrNull(value: Option<string>): Js {
    if value.Some? then Text(value.value) else Null
  }

  function ForkKeys(): seq<string> {
    ["chainId", "blockNumber", "blockHash"]
  }
  function CallKeys(): seq<string> {
    ["destinationChainId", "target", "valueRaw", "calldata", "selector"]
  }
  function ImpersonationKeys(): seq<string> {
    ["account", "reason"]
  }
  function SideKeys(): seq<string> {
    ["collateralFactorMantissa", "liquidityRaw", "shortfallRaw", "status"]
  }
  function ExposureKeys(): seq<string> {
    ["relevant", "severityHint", "matchedMarkets", "matchedAssets", "rationaleCodes"]
  }
  function RiskKeys(): seq<string> {
    ["classification", "liquidityDropBps", "liquidityDeltaRaw", "shortfallDeltaRaw"]
  }
  function PolicyKeys(): seq<string> {
    ["policyVersion", "minSafetyBufferBps", "minSafetyBufferBpsSource"]
  }
  function EvaluationKeys(): seq<string> {
    ["passed", "reasons"]
  }
  function ProvenanceKeys(): seq<string> {
    [
     "comptroller", "temporalGovernor", "market", "comptrollerCodeHash", "marketCodeHash", "temporalGovernorCodeHash"]
  }
  function BodyKeys(): seq<string> {
    [
     "receiptSchemaVersion", "engineVersion", "replayGrade", "proposalId", "changeId", "wallet", "chainId", "fork",
     "targetCalls", "impersonations", "timeJumps", "before", "after", "liquidityDeltaRaw", "exposure", "materialRisk",
     "policy", "policyEvaluation", "provenance"]
  }

  function ForkValues(a: Anchor): seq<Js> {
    [Number(a.chainId), Text(Decimal(a.blockNumber)), Text(Lower(a.blockHash))]
  }

  function ForkBody(a: Anchor): Js {
    Record(ForkKeys(), ForkValues(a))
  }

  function CallValues(c: TargetCall): seq<Js> {
    [
      Number(c.destinationChainId), Text(Lower(c.target)), Text(c.valueRaw), Text(Lower(c.calldata)),
      Text(Lower(c.selector))]
  }

  function CallBody(c: TargetCall): Js {
    Record(CallKeys(), CallValues(c))
  }

  function ImpersonationValues(i: Impersonation): seq<Js> {
    [Text(Lower(i.account)), Text(i.reason)]
  }

  function ImpersonationBody(i: Impersonation): Js {
    Record(ImpersonationKeys(), ImpersonationValues(i))
  }

  function SideValues(s: Side): seq<Js> {
    [
      Text(s.collateralFactorMantissa), Text(Decimal(s.risk.liquidityRaw)), Text(Decimal(s.risk.shortfallRaw)),
      Text(s.risk.status)]
  }

  function SideBody(s: Side): Js {
    Record(SideKeys(), SideValues(s))
  }

  function ExposureValues(e: Exposure): seq<Js> {
    [
      Bool(e.relevant), Text(e.severityHint), Texts(SortedLower(e.matchedMarkets)), Texts(SortedLower(e.matchedAssets)),
      Texts(SortKeys(e.rationaleCodes))]
  }

  function ExposureBody(e: Exposure): Js {
    Record(ExposureKeys(), ExposureValues(e))
  }

  function RiskValues(m: MaterialRisk): seq<Js> {
    [
      Text(m.classification), OrNull(m.liquidityDropBps), Text(m.liquidityDeltaRaw), Text(m.shortfallDeltaRaw)]
  }

  function RiskBody(m: MaterialRisk): Js {
    Record(RiskKeys(), RiskValues(m))
  }

  function PolicyValues(p: Policy): seq<Js> {
    [Text(p.policyVersion), Number(p.minSafetyBufferBps), Text(p.minSafetyBufferBpsSource)]
  }

  function PolicyBody(p: Policy): Js {
    Record(PolicyKeys(), PolicyValues(p))
  }

  function EvaluationValues(e: Evaluation): seq<Js> {
    [Bool(e.passed), Texts(SortKeys(e.reasons))]
  }

  function EvaluationBody(e: Evaluation): Js {
    Record(EvaluationKeys(), EvaluationValues(e))
  }

  function ProvenanceValues(p: Provenance): seq<Js> {
    [
      Text(Lower(p.comptroller)), Text(Lower(p.temporalGovernor)), Text(Lower(p.market)),
      OrNull(p.comptrollerCodeHash), OrNull(p.marketCodeHash), OrNull(p.temporalGovernorCodeHash)]
  }

  function ProvenanceBody(p: Provenance): Js {
    Record(ProvenanceKeys(), ProvenanceValues(p))
  }

  function CallBodies(calls: seq<TargetCall>): Js {
    Array(seq(|calls|, i requires 0 <= i < |calls| => CallBody(calls[i])))
  }

  function ImpersonationBodies(items: seq<Impersonation>): Js {
    Array(seq(|items|, i requires 0 <= i < |items| => ImpersonationBody(items[i])))
  }

  function IdentityValues(r: Receipt): seq<Js> {
    [Text(r.receiptSchemaVersion), Text(r.engineVersion), Text(r.replayGrade), Text(r.proposalId), Text(r.changeId),
     Text(Lower(r.wallet))]
  }

  function ActionValues(r: Receipt): seq<Js> {
    [Number(r.chainId), ForkBody(r.fork), CallBodies(r.targetCalls), ImpersonationBodies(r.impersonations),
     Array(r.timeJumps)]
  }

  function EffectValues(r: Receipt): seq<Js> {
    [SideBody(r.before), SideBody(r.after), Text(r.liquidityDeltaRaw), ExposureBody(r.exposure)]
  }

  function VerdictValues(r: Receipt): seq<Js> {
    [RiskBody(r.materialRisk), PolicyBody(r.policy), EvaluationBody(r.policyEvaluation), ProvenanceBody(r.provenance)]
  }

  function BodyValues(r: Receipt): (values: seq<Js>)
    ensures |values| == |BodyKeys()|
  {
    IdentityValues(r) + (ActionValues(r) + (EffectValues(r) + VerdictValues(r)))
  }

  function ReceiptHashBody(r: Receipt): Js {
    Record(BodyKeys(), BodyValues(r))
  }

  function CanonicalizeReceipt(r: Receipt): Option<string> {
    Canonical(ReceiptHashBody(r))
  }

  // ---------- records are read key by key ----------

  /** A number that tells the keys of a record apart. */
  function Code(s: string): int {
    if |s| < 2 then 0 else |s| * 0x1_0000_0000 + s[0] as int * 0x1_0000 + s[|s| - 1] as int
  }

  /** Keys that can be told apart, none of them "__proto__". */
  ghost predicate Plain(keys: seq<string>) {
    DistinctKeys(keys) && PROTO !in keys
  }

  lemma CodesArePlain(keys: seq<string>, codes: seq<int>)
    requires |keys| == |codes| && forall i :: 0 <= i < |keys| ==> codes[i] == Code(keys[i])
    requires forall i, j :: 0 <= i < j < |codes| ==> codes[i] != codes[j]
    requires forall i :: 0 <= i < |codes| ==> codes[i] != Code(PROTO)
    ensures Plain(keys)
  {
    forall i, j | 0 <= i < j < |keys|
      ensures keys[i] != keys[j]
    {
      assert codes[i] != codes[j];
    }
  }

  function Codes(keys: seq<string>): (codes: seq<int>)
    ensures |codes| == |keys| && forall i :: 0 <= i < |keys| ==> codes[i] == Code(keys[i])
  {
    seq(|keys|, i requires 0 <= i < |keys| => Code(keys[i]))
  }

  lemma PlainRecords()
    ensures Plain(ForkKeys()) && Plain(CallKeys()) && Plain(ImpersonationKeys())
    ensures Plain(SideKeys()) && Plain(ExposureKeys())
  {
    CodesArePlain(ForkKeys(), Codes(ForkKeys()));
    CodesArePlain(CallKeys(), Codes(CallKeys()));
    CodesArePlain(ImpersonationKeys(), Codes(ImpersonationKeys()));
    CodesArePlain(SideKeys(), Codes(SideKeys()));
    CodesArePlain(ExposureKeys(), Codes(ExposureKeys()));
  }

  lemma PlainMoreRecords()
    ensures Plain(RiskKeys()) && Plain(PolicyKeys()) && Plain(EvaluationKeys()) && Plain(ProvenanceKeys())
  {
    CodesArePlain(RiskKeys(), Codes(RiskKeys()));
    CodesArePlain(PolicyKeys(), Codes(PolicyKeys()));
    CodesArePlain(EvaluationKeys(), Codes(EvaluationKeys()));
    CodesArePlain(ProvenanceKeys(), Codes(ProvenanceKeys()));
  }

  /** Plain keys, none of them with a code of the others. */
  lemma PlainJoin(a: seq<string>, b: seq<string>)
    requires Plain(a) && Plain(b)
    requires forall i, j :: 0 <= i < |a| && 0 <= j < |b| ==> Codes(a)[i] != Codes(b)[j]
    ensures Plain(a + b)
  {
    hide Code;
    var keys := a + b;
    forall i, j | 0 <= i < j < |keys|
      ensures keys[i] != keys[j]
    {
      if i < |a| <= j {
        assert Codes(a)[i] != Codes(b)[j - |a|];
      }
    }
  }

  lemma PlainBody()
    ensures Plain(BodyKeys())
  {
    var front, back := BodyKeys()[..9], BodyKeys()[9..];
    PlainFront(front);
    PlainBack(back);
    PlainAcross(front, back);
    PlainJoin(front, back);
    assert front + back == BodyKeys();
  }

  lemma PlainFront(front: seq<string>)
    requires front == BodyKeys()[..9]
    ensures Plain(front)
  {
    CodesArePlain(front, Codes(front));
  }

  lemma PlainBack(back: seq<string>)
    requires back == BodyKeys()[9..]
    ensures Plain(back)
  {
    CodesArePlain(back, Codes(back));
  }

  lemma PlainAcross(front: seq<string>, back: seq<string>)
    requires front == BodyKeys()[..9] && back == BodyKeys()[9..]
    ensures forall i, j :: 0 <= i < |front| && 0 <= j < |back| ==> Codes(front)[i] != Codes(back)[j]
  {
  }

  lemma RecordGet(keys: seq<string>, values: seq<Js>, i: nat)
    requires Plain(keys) && |keys| == |values| && i < |keys|
    ensures Has(Zip(keys, values), keys[i]) && Get(Zip(keys, values), keys[i]) == values[i]
  {
    DistinctGet(Zip(keys, values), i);
  }

  ghost predicate Defined(values: seq<Js>) {
    forall i :: 0 <= i < |values| ==> values[i] != Undefined
  }

  ghost predicate SameMeanings(xs: seq<Js>, ys: seq<Js>) {
    |xs| == |ys| && forall i :: 0 <= i < |xs| ==> Meaning(xs[i]) == Meaning(ys[i])
  }

  lemma RecordMember(keys: seq<string>, values: seq<Js>, i: nat)
    requires Plain(keys) && |keys| == |values| && Defined(values) && i < |keys|
    ensures keys[i] in Meaning(Record(keys, values)).members
    ensures Meaning(Record(keys, values)).members[keys[i]] == Meaning(values[i])
  {
    RecordGet(keys, values, i);
    var props := Zip(keys, values);
    assert Kept(props, keys[i]) && keys[i] in KeysOf(props);
  }

  lemma RecordDomain(keys: seq<string>, values: seq<Js>, k: string)
    requires Plain(keys) && |keys| == |values| && Defined(values)
    ensures k in Meaning(Record(keys, values)).members <==> k in keys
  {
    if k in keys {
      var i :| 0 <= i < |keys| && keys[i] == k;
      RecordMember(keys, values, i);
    }
  }

  lemma RecordMeaning(keys: seq<string>, xs: seq<Js>, ys: seq<Js>)
    requires Plain(keys) && |keys| == |xs| == |ys| && Defined(xs) && Defined(ys)
    ensures Meaning(Record(keys, xs)) == Meaning(Record(keys, ys)) <==> SameMeanings(xs, ys)
  {
    var left, right := Meaning(Record(keys, xs)), Meaning(Record(keys, ys));
    RecordsAgree(keys, xs, ys, left, right);
  }

  lemma RecordsAgree(keys: seq<string>, xs: seq<Js>, ys: seq<Js>, left: Json, right: Json)
    requires Plain(keys) && |keys| == |xs| == |ys| && Defined(xs) && Defined(ys)
    requires left == Meaning(Record(keys, xs)) && left.JObj? && right == Meaning(Record(keys, ys)) && right.JObj?
    ensures left == right <==> SameMeanings(xs, ys)
  {
    hide Meaning, Record, Plain, Defined;
    forall i | 0 <= i < |keys|
      ensures keys[i] in left.members && left.members[keys[i]] == Meaning(xs[i])
      ensures keys[i] in right.members && right.members[keys[i]] == Meaning(ys[i])
    {
      RecordMember(keys, xs, i);
      RecordMember(keys, ys, i);
    }
    if SameMeanings(xs, ys) {
      forall k
        ensures k in left.members <==> k in right.members
        ensures k in left.members ==> left.members[k] == right.members[k]
      {
        RecordDomain(keys, xs, k);
        RecordDomain(keys, ys, k);
      }
      assert left.members == right.members;
    }
  }

  lemma ListMeaning(xs: seq<Js>, ys: seq<Js>)
    ensures Meaning(Array(xs)) == Meaning(Array(ys)) <==> SameMeanings(xs, ys)
  {
    var left, right := Meaning(Array(xs)).items, Meaning(Array(ys)).items;
    assert |left| == |xs| && forall i :: 0 <= i < |xs| ==> left[i] == Meaning(xs[i]);
    assert |right| == |ys| && forall i :: 0 <= i < |ys| ==> right[i] == Meaning(ys[i]);
    if left == right {
      forall i | 0 <= i < |xs|
        ensures Meaning(xs[i]) == Meaning(ys[i])
      {
        assert left[i] == right[i];
      }
      assert SameMeanings(xs, ys);
    } else {
      assert Meaning(Array(xs)) != Meaning(Array(ys));
    }
  }

  lemma TextsMeaning(a: seq<string>, b: seq<string>)
    ensures Meaning(Texts(a)) == Meaning(Texts(b)) <==> a == b
  {
    var xs, ys := Texts(a).items, Texts(b).items;
    ListMeaning(xs, ys);
    if SameMeanings(xs, ys) {
      forall i | 0 <= i < |a|
        ensures a[i] == b[i]
      {
        assert Meaning(xs[i]) == Meaning(ys[i]);
      }
      assert |xs| == |a| && |ys| == |b|;
      assert a == b;
    }
  }

  // ---------- the economics of a receipt ----------

  predicate SameFork(a: Anchor, b: Anchor) {
    a.chainId == b.chainId && a.blockNumber == b.blockNumber && Lower(a.blockHash) == Lower(b.blockHash)
  }

  predicate SameCall(a: TargetCall, b: TargetCall) {
    && a.destinationChainId == b.destinationChainId
    && Lower(a.target) == Lower(b.target)
    && a.valueRaw == b.valueRaw
    && Lower(a.calldata) == Lower(b.calldata)
    && Lower(a.selector) == Lower(b.selector)
  }

  predicate SameCalls(a: seq<TargetCall>, b: seq<TargetCall>) {
    |a| == |b| && forall i :: 0 <= i < |a| ==> SameCall(a[i], b[i])
  }

  predicate SameImpersonation(a: Impersonation, b: Impersonation) {
    Lower(a.account) == Lower(b.account) && a.reason == b.reason
  }

  predicate SameImpersonations(a: seq<Impersonation>, b: seq<Impersonation>) {
    |a| == |b| && forall i :: 0 <= i < |a| ==> SameImpersonation(a[i], b[i])
  }

  predicate SameSide(a: Side, b: Side) {
    && a.collateralFactorMantissa == b.collateralFactorMantissa
    && a.risk.liquidityRaw == b.risk.liquidityRaw
    && a.risk.shortfallRaw == b.risk.shortfallRaw
    && a.risk.status == b.risk.status
  }

  predicate SameExposure(a: Exposure, b: Exposure) {
    && a.relevant == b.relevant
    && a.severityHint == b.severityHint
    && SortedLower(a.matchedMarkets) == SortedLower(b.matchedMarkets)
    && SortedLower(a.matchedAssets) == SortedLower(b.matchedAssets)
    && SortKeys(a.rationaleCodes) == SortKeys(b.rationaleCodes)
  }

  predicate SameRisk(a: MaterialRisk, b: MaterialRisk) {
    && a.classification == b.classification
    && a.liquidityDropBps == b.liquidityDropBps
    && a.liquidityDeltaRaw == b.liquidityDeltaRaw
    && a.shortfallDeltaRaw == b.shortfallDeltaRaw
  }

  predicate SamePolicy(a: Policy, b: Policy) {
    && a.policyVersion == b.policyVersion
    && a.minSafetyBufferBps == b.minSafetyBufferBps
    && a.minSafetyBufferBpsSource == b.minSafetyBufferBpsSource
  }

  predicate SameEvaluation(a: Evaluation, b: Evaluation) {
    a.passed == b.passed && SortKeys(a.reasons) == SortKeys(b.reasons)
  }

  predicate SameProvenance(a: Provenance, b: Provenance) {
    && Lower(a.comptroller) == Lower(b.comptroller)
    && Lower(a.temporalGovernor) == Lower(b.temporalGovernor)
    && Lower(a.market) == Lower(b.market)
    && a.comptrollerCodeHash == b.comptrollerCodeHash
    && a.marketCodeHash == b.marketCodeHash
    && a.temporalGovernorCodeHash == b.temporalGovernorCodeHash
  }

  /** The first members of two short lists of values, one by one. */
  lemma ShortLists(xs: seq<Js>, ys: seq<Js>)
    requires 2 <= |xs| == |ys| <= 6
    ensures SameMeanings(xs, ys) <==>
              && Meaning(xs[0]) == Meaning(ys[0])
              && Meaning(xs[1]) == Meaning(ys[1])
              && (|xs| > 2 ==> Meaning(xs[2]) == Meaning(ys[2]))
              && (|xs| > 3 ==> Meaning(xs[3]) == Meaning(ys[3]))
              && (|xs| > 4 ==> Meaning(xs[4]) == Meaning(ys[4]))
              && (|xs| > 5 ==> Meaning(xs[5]) == Meaning(ys[5]))
  {
  }

  lemma NumeralMeaning(i: int, j: int)
    ensures Decimal(i) == Decimal(j) <==> i == j
  {
    if Decimal(i) == Decimal(j) {
      DecimalInjective(i, j);
    }
  }

  lemma ForkMeaning(a: Anchor, b: Anchor)
    ensures Meaning(ForkBody(a)) == Meaning(ForkBody(b)) <==> SameFork(a, b)
  {
    PlainRecords();
    RecordMeaning(ForkKeys(), ForkValues(a), ForkValues(b));
    ShortLists(ForkValues(a), ForkValues(b));
    NumeralMeaning(a.blockNumber, b.blockNumber);
  }

  lemma CallMeaning(a: TargetCall, b: TargetCall)
    ensures Meaning(CallBody(a)) == Meaning(CallBody(b)) <==> SameCall(a, b)
  {
    PlainRecords();
    RecordMeaning(CallKeys(), CallValues(a), CallValues(b));
    ShortLists(CallValues(a), CallValues(b));
  }

  lemma ImpersonationMeaning(a: Impersonation, b: Impersonation)
    ensures Meaning(ImpersonationBody(a)) == Meaning(ImpersonationBody(b)) <==> SameImpersonation(a, b)
  {
    PlainRecords();
    RecordMeaning(ImpersonationKeys(), ImpersonationValues(a), ImpersonationValues(b));
    ShortLists(ImpersonationValues(a), ImpersonationValues(b));
  }

  lemma SideMeaning(a: Side, b: Side)
    ensures Meaning(SideBody(a)) == Meaning(SideBody(b)) <==> SameSide(a, b)
  {
    PlainRecords();
    RecordMeaning(SideKeys(), SideValues(a), SideValues(b));
    ShortLists(SideValues(a), SideValues(b));
    NumeralMeaning(a.risk.liquidityRaw, b.risk.liquidityRaw);
    NumeralMeaning(a.risk.shortfallRaw, b.risk.shortfallRaw);
  }

  lemma ExposureMeaning(a: Exposure, b: Exposure)
    ensures Meaning(ExposureBody(a)) == Meaning(ExposureBody(b)) <==> SameExposure(a, b)
  {
    PlainRecords();
    RecordMeaning(ExposureKeys(), ExposureValues(a), ExposureValues(b));
    ShortLists(ExposureValues(a), ExposureValues(b));
    TextsMeaning(SortedLower(a.matchedMarkets), SortedLower(b.matchedMarkets));
    TextsMeaning(SortedLower(a.matchedAssets), SortedLower(b.matchedAssets));
    TextsMeaning(SortKeys(a.rationaleCodes), SortKeys(b.rationaleCodes));
  }

  lemma RiskMeaning(a: MaterialRisk, b: MaterialRisk)
    ensures Meaning(RiskBody(a)) == Meaning(RiskBody(b)) <==> SameRisk(a, b)
  {
    PlainMoreRecords();
    RecordMeaning(RiskKeys(), RiskValues(a), RiskValues(b));
    ShortLists(RiskValues(a), RiskValues(b));
  }

  lemma PolicyMeaning(a: Policy, b: Policy)
    ensures Meaning(PolicyBody(a)) == Meaning(PolicyBody(b)) <==> SamePolicy(a, b)
  {
    PlainMoreRecords();
    RecordMeaning(PolicyKeys(), PolicyValues(a), PolicyValues(b));
    ShortLists(PolicyValues(a), PolicyValues(b));
  }

  lemma EvaluationMeaning(a: Evaluation, b: Evaluation)
    ensures Meaning(EvaluationBody(a)) == Meaning(EvaluationBody(b)) <==> SameEvaluation(a, b)
  {
    PlainMoreRecords();
    RecordMeaning(EvaluationKeys(), EvaluationValues(a), EvaluationValues(b));
    ShortLists(EvaluationValues(a), EvaluationValues(b));
    TextsMeaning(SortKeys(a.reasons), SortKeys(b.reasons));
  }

  lemma ProvenanceMeaning(a: Provenance, b: Provenance)
    ensures Meaning(ProvenanceBody(a)) == Meaning(ProvenanceBody(b)) <==> SameProvenance(a, b)
  {
    PlainMoreRecords();
    RecordMeaning(ProvenanceKeys(), ProvenanceValues(a), ProvenanceValues(b));
    ShortLists(ProvenanceValues(a), ProvenanceValues(b));
  }

  lemma CallsMeaning(a: seq<TargetCall>, b: seq<TargetCall>)
    ensures Meaning(CallBodies(a)) == Meaning(CallBodies(b)) <==> SameCalls(a, b)
  {
    var xs, ys := CallBodies(a).items, CallBodies(b).items;
    ListMeaning(xs, ys);
    if |a| == |b| {
      forall i | 0 <= i < |a|
        ensures Meaning(xs[i]) == Meaning(ys[i]) <==> SameCall(a[i], b[i])
      {
        CallMeaning(a[i], b[i]);
      }
    }
  }

  lemma ImpersonationsMeaning(a: seq<Impersonation>, b: seq<Impersonation>)
    ensures Meaning(ImpersonationBodies(a)) == Meaning(ImpersonationBodies(b)) <==> SameImpersonations(a, b)
  {
    var xs, ys := ImpersonationBodies(a).items, ImpersonationBodies(b).items;
    ListMeaning(xs, ys);
    if |a| == |b| {
      forall i | 0 <= i < |a|
        ensures Meaning(xs[i]) == Meaning(ys[i]) <==> SameImpersonation(a[i], b[i])
      {
        ImpersonationMeaning(a[i], b[i]);
      }
    }
  }

  lemma JoinedLists(a: seq<Js>, b: seq<Js>, c: seq<Js>, d: seq<Js>)
    requires |a| == |c|
    ensures SameMeanings(a + b, c + d) <==> SameMeanings(a, c) && SameMeanings(b, d)
  {
    if SameMeanings(a + b, c + d) {
      assert forall i :: 0 <= i < |a| ==> (a + b)[i] == a[i] && (c + d)[i] == c[i];
      forall i | 0 <= i < |b|
        ensures Meaning(b[i]) == Meaning(d[i])
      {
        assert (a + b)[|a| + i] == b[i] && (c + d)[|a| + i] == d[i];
      }
    }
  }

  ghost predicate SameIdentity(r: Receipt, q: Receipt) {
    && r.receiptSchemaVersion == q.receiptSchemaVersion
    && r.engineVersion == q.engineVersion
    && r.replayGrade == q.replayGrade
    && r.proposalId == q.proposalId
    && r.changeId == q.changeId
    && Lower(r.wallet) == Lower(q.wallet)
  }

  ghost predicate SameAction(r: Receipt, q: Receipt) {
    && r.chainId == q.chainId
    && SameFork(r.fork, q.fork)
    && SameCalls(r.targetCalls, q.targetCalls)
    && SameImpersonations(r.impersonations, q.impersonations)
    && SameMeanings(r.timeJumps, q.timeJumps)
  }

  ghost predicate SameEffect(r: Receipt, q: Receipt) {
    && SameSide(r.before, q.before)
    && SameSide(r.after, q.after)
    && r.liquidityDeltaRaw == q.liquidityDeltaRaw
    && SameExposure(r.exposure, q.exposure)
  }

  ghost predicate SameVerdict(r: Receipt, q: Receipt) {
    && SameRisk(r.materialRisk, q.materialRisk)
    && SamePolicy(r.policy, q.policy)
    && SameEvaluation(r.policyEvaluation, q.policyEvaluation)
    && SameProvenance(r.provenance, q.provenance)
  }

  /** Equal up to the case of addresses and hashes, the order of matches and reasons, and what is not hashed. */
  ghost predicate SameEconomics(r: Receipt, q: Receipt) {
    SameIdentity(r, q) && SameAction(r, q) && SameEffect(r, q) && SameVerdict(r, q)
  }

  lemma IdentityMeaning(r: Receipt, q: Receipt)
    ensures SameMeanings(IdentityValues(r), IdentityValues(q)) <==> SameIdentity(r, q)
  {
    ShortLists(IdentityValues(r), IdentityValues(q));
  }

  lemma NumberMeaning(m: int, n: int)
    ensures Meaning(Number(m)) == Meaning(Number(n)) <==> m == n
  {
  }

  lemma ActionMeaning(r: Receipt, q: Receipt)
    ensures SameMeanings(ActionValues(r), ActionValues(q)) <==> SameAction(r, q)
  {
    hide Meaning, SameMeanings, SameFork, SameCalls, SameImpersonations, ForkBody, CallBodies, ImpersonationBodies;
    NumberMeaning(r.chainId, q.chainId);
    ShortLists(ActionValues(r), ActionValues(q));
    ForkMeaning(r.fork, q.fork);
    CallsMeaning(r.targetCalls, q.targetCalls);
    ImpersonationsMeaning(r.impersonations, q.impersonations);
    ListMeaning(r.timeJumps, q.timeJumps);
  }

  lemma EffectMeaning(r: Receipt, q: Receipt)
    ensures SameMeanings(EffectValues(r), EffectValues(q)) <==> SameEffect(r, q)
  {
    ShortLists(EffectValues(r), EffectValues(q));
    SideMeaning(r.before, q.before);
    SideMeaning(r.after, q.after);
    ExposureMeaning(r.exposure, q.exposure);
  }

  lemma VerdictMeaning(r: Receipt, q: Receipt)
    ensures SameMeanings(VerdictValues(r), VerdictValues(q)) <==> SameVerdict(r, q)
  {
    ShortLists(VerdictValues(r), VerdictValues(q));
    RiskMeaning(r.materialRisk, q.materialRisk);
    PolicyMeaning(r.policy, q.policy);
    EvaluationMeaning(r.policyEvaluation, q.policyEvaluation);
    ProvenanceMeaning(r.provenance, q.provenance);
  }

  lemma SameBody(r: Receipt, q: Receipt)
    ensures Meaning(ReceiptHashBody(r)) == Meaning(ReceiptHashBody(q)) <==> SameEconomics(r, q)
  {
    hide Meaning, SameMeanings, SameIdentity, SameAction, SameEffect, SameVerdict, BodyKeys;
    PlainBody();
    RecordMeaning(BodyKeys(), BodyValues(r), BodyValues(q));
    IdentityMeaning(r, q);
    ActionMeaning(r, q);
    EffectMeaning(r, q);
    VerdictMeaning(r, q);
    JoinedLists(EffectValues(r), VerdictValues(r), EffectValues(q), VerdictValues(q));
    JoinedLists(ActionValues(r), EffectValues(r) + VerdictValues(r),
                ActionValues(q), EffectValues(q) + VerdictValues(q));
    JoinedLists(IdentityValues(r), ActionValues(r) + (EffectValues(r) + VerdictValues(r)),
                IdentityValues(q), ActionValues(q) + (EffectValues(q) + VerdictValues(q)));
  }

  lemma RecordWellFormed(keys: seq<string>, values: seq<Js>)
    requires Plain(keys) && |keys| == |values| && forall i :: 0 <= i < |values| ==> WellFormed(values[i])
    ensures WellFormed(Record(keys, values))
  {
  }

  lemma EffectWellFormed(r: Receipt)
    ensures WellFormed(ForkBody(r.fork)) && WellFormed(SideBody(r.before)) && WellFormed(SideBody(r.after))
    ensures WellFormed(ExposureBody(r.exposure))
  {
    PlainRecords();
    RecordWellFormed(ForkKeys(), ForkValues(r.fork));
    RecordWellFormed(SideKeys(), SideValues(r.before));
    RecordWellFormed(SideKeys(), SideValues(r.after));
    RecordWellFormed(ExposureKeys(), ExposureValues(r.exposure));
  }

  lemma VerdictWellFormed(r: Receipt)
    ensures WellFormed(RiskBody(r.materialRisk)) && WellFormed(PolicyBody(r.policy))
    ensures WellFormed(EvaluationBody(r.policyEvaluation)) && WellFormed(ProvenanceBody(r.provenance))
  {
    PlainMoreRecords();
    RecordWellFormed(RiskKeys(), RiskValues(r.materialRisk));
    RecordWellFormed(PolicyKeys(), PolicyValues(r.policy));
    RecordWellFormed(EvaluationKeys(), EvaluationValues(r.policyEvaluation));
    RecordWellFormed(ProvenanceKeys(), ProvenanceValues(r.provenance));
  }

  lemma ListsWellFormed(r: Receipt)
    ensures WellFormed(CallBodies(r.targetCalls)) && WellFormed(ImpersonationBodies(r.impersonations))
  {
    PlainRecords();
    forall i | 0 <= i < |r.targetCalls|
      ensures WellFormed(CallBody(r.targetCalls[i]))
    {
      RecordWellFormed(CallKeys(), CallValues(r.targetCalls[i]));
    }
    forall i | 0 <= i < |r.impersonations|
      ensures WellFormed(ImpersonationBody(r.impersonations[i]))
    {
      RecordWellFormed(ImpersonationKeys(), ImpersonationValues(r.impersonations[i]));
    }
  }

  lemma BodyWellFormed(r: Receipt)
    requires WellFormed(Array(r.timeJumps))
    ensures WellFormed(ReceiptHashBody(r))
  {
    PlainBody();
    EffectWellFormed(r);
    VerdictWellFormed(r);
    ListsWellFormed(r);
    RecordWellFormed(BodyKeys(), BodyValues(r));
  }

  /** Equal canonical strings mean equal economics, and the other way round. */
  lemma SameTextIffSameEconomics(r: Receipt, q: Receipt)
    requires WellFormed(Array(r.timeJumps)) && WellFormed(Array(q.timeJumps))
    ensures CanonicalizeReceipt(r) == CanonicalizeReceipt(q) <==> SameEconomics(r, q)
  {
    BodyWellFormed(r);
    BodyWellFormed(q);
    CanonicalIffSameMeaning(ReceiptHashBody(r), ReceiptHashBody(q));
    SameBody(r, q);
  }

  // ---------- comparing receipts ----------

  /** How a field is compared: as it is, as text in lower case, or as text. */
  datatype Rule = AsIs | Lowered | Numeral

  datatype Path = Path(parts: seq<string>, rule: Rule)

  datatype Diff = Diff(path: seq<string>, expected: Js, actual: Js)

  function CorePaths(): seq<Path> {
    [
      Path(["receiptSchemaVersion"], AsIs),
      Path(["replayGrade"], AsIs),
      Path(["proposalId"], AsIs),
      Path(["wallet"], Lowered),
      Path(["chainId"], AsIs),
      Path(["fork", "blockNumber"], Numeral),
      Path(["fork", "blockHash"], Lowered),
      Path(["before", "collateralFactorMantissa"], Numeral),
      Path(["after", "collateralFactorMantissa"], Numeral),
      Path(["before", "risk", "liquidityRaw"], Numeral),
      Path(["after", "risk", "liquidityRaw"], Numeral),
      Path(["before", "risk", "shortfallRaw"], Numeral),
      Path(["after", "risk", "shortfallRaw"], Numeral),
      Path(["before", "risk", "status"], AsIs),
      Path(["after", "risk", "status"], AsIs),
      Path(["liquidityDeltaRaw"], Numeral)]
  }

  function Phase5Paths(): seq<Path> {
    [
      Path(["exposure", "relevant"], AsIs),
      Path(["exposure", "severityHint"], AsIs),
      Path(["materialRisk", "classification"], AsIs),
      Path(["materialRisk", "liquidityDropBps"], Numeral),
      Path(["policy", "policyVersion"], AsIs),
      Path(["policy", "minSafetyBufferBps"], Numeral),
      Path(["policyEvaluation", "passed"], AsIs)]
  }

  function AsString(v: Js): Option<string> {
    match v
    case BigInt(i) => Some(Decimal(i))
    case Number(n) => Some(Decimal(n))
    case NaN => Some("NaN")
    case Infinite(negative) => Some(if negative then "-Infinity" else "Infinity")
    case Bool(b) => Some(if b then "true" else "false")
    case Text(s) => Some(s)
    case _ => None
  }

  /** A member of a value; arrays, dates and primitives have none of the names that are read. */
  function Field(v: Js, part: string): Js {
    if v.Object? then Get(v.props, part) else Undefined
  }

  function Fields(v: Js, parts: seq<string>): Js
    decreases parts
  {
    if parts == [] then v else Fields(Field(v, parts[0]), parts[1..])
  }

  function ReadPath(v: Js, parts: seq<string>): Js {
    var current := Fields(v, parts);
    if current.BigInt? then Text(Decimal(current.i)) else current
  }

  function Comparable(v: Js, rule: Rule): Js {
    match rule
    case AsIs => v
    case Lowered => (match AsString(v) case Some(s) => Text(Lower(s)) case None => Undefined)
    case Numeral => (match AsString(v) case Some(s) => Text(s) case None => Undefined)
  }

  /** The operator ===, for values that share no object. */
  predicate StrictlyEqual(a: Js, b: Js) {
    a == b && !(a.NaN? || a.Date? || a.Array? || a.Object?)
  }

  predicate Truthy(v: Js) {
    match v
    case Undefined => false
    case Null => false
    case NaN => false
    case Bool(b) => b
    case Number(n) => n != 0
    case BigInt(i) => i != 0
    case Text(s) => s != []
    case _ => true
  }

  lemma FalsyIff(v: Js)
    ensures !Truthy(v) <==> v in {Undefined, Null, NaN, Bool(false), Number(0), BigInt(0), Text("")}
  {
  }

  /** Numbers and booleans as their texts, texts as they are, and nothing else. */
  lemma AsStringIs(v: Js)
    ensures AsString(v).None? <==> v.Undefined? || v.Null? || v.Date? || v.Array? || v.Object?
    ensures v.Text? ==> AsString(v) == Some(v.s)
    ensures v.Bool? ==> AsString(v) == Some(if v.b then "true" else "false")
    ensures v.BigInt? ==> ParseBigint(AsString(v).value) == Ok(v.i)
  {
    if v.BigInt? {
      BigintRoundTrip(v.i);
    }
  }

  predicate IsPhase5Receipt(v: Js) {
    Truthy(Field(v, "exposure")) && Truthy(Field(v, "materialRisk")) && Truthy(Field(v, "policy"))
  }

  function ComparePaths(expected: Js): seq<Path> {
    if IsPhase5Receipt(expected) then CorePaths() + Phase5Paths() else CorePaths()
  }

  function PathDiff(expected: Js, actual: Js, path: Path): seq<Diff> {
    var leftRaw, rightRaw := ReadPath(expected, path.parts), ReadPath(actual, path.parts);
    var left, right := Comparable(leftRaw, path.rule), Comparable(rightRaw, path.rule);
    if leftRaw == Undefined && rightRaw == Undefined then []
    else if StrictlyEqual(left, right) then []
    else [Diff(path.parts, left, right)]
  }

  function PathDiffs(expected: Js, actual: Js, paths: seq<Path>): seq<Diff> {
    if paths == [] then []
    else PathDiffs(expected, actual, paths[..|paths| - 1]) + PathDiff(expected, actual, paths[|paths| - 1])
  }

  function Lowercase(v: Js): string {
    match AsString(v) case Some(s) => Lower(s) case None => "undefined"
  }

  /** Reading a member of null or undefined throws. */
  function CallText(call: Js): Result<string> {
    if call.Undefined? || call.Null? then Err("Cannot read properties of null or undefined")
    else
      var valueRaw := match AsString(Field(call, "valueRaw")) case Some(s) => s case None => "0";
      Ok(Lowercase(Field(call, "target")) + ":" + Lowercase(Field(call, "calldata")) + ":" + valueRaw)
  }

  /** The line of a call without any of the members that are read. */
  lemma BareCallText()
    ensures CallText(Object([])) == Ok("undefined:undefined:0")
  {
    assert Lowercase(Undefined) == "undefined" && Field(Object([]), "valueRaw") == Undefined;
    assert "undefined" + ":" + "undefined" + ":" + "0" == "undefined:undefined:0";
  }

  function CallTexts(calls: seq<Js>): Result<seq<string>> {
    if calls == [] then Ok([])
    else
      var front :- CallTexts(calls[..|calls| - 1]);
      var last :- CallText(calls[|calls| - 1]);
      Ok(front + [last])
  }

  function TextTree(keys: seq<string>): Tree {
    TreeOf(Texts(keys))
  }

  function CallDiffs(expected: Js, actual: Js): Result<seq<Diff>> {
    var left, right := ReadPath(expected, ["targetCalls"]), ReadPath(actual, ["targetCalls"]);
    if !left.Array? || !right.Array? then Ok([])
    else
      var leftKeys :- CallTexts(left.items);
      var rightKeys :- CallTexts(right.items);
      Ok(if Print(TextTree(leftKeys)) == Print(TextTree(rightKeys)) then []
         else [Diff(["targetCalls"], Texts(leftKeys), Texts(rightKeys))])
  }

  function Comparison(expected: Js, actual: Js): Result<seq<Diff>> {
    var calls :- CallDiffs(expected, actual);
    Ok(PathDiffs(expected, actual, ComparePaths(expected)) + calls)
  }

  method CompareFields(expected: Js, actual: Js, paths: seq<Path>) returns (diffs: seq<Diff>)
    ensures diffs == PathDiffs(expected, actual, paths)
  {
    diffs := [];
    for n := 0 to |paths|
      invariant diffs == PathDiffs(expected, actual, paths[..n])
    {
      var path := paths[n];
      assert paths[..n + 1][..n] == paths[..n];
      var leftRaw := ReadPath(expected, path.parts);
      var rightRaw := ReadPath(actual, path.parts);
      if leftRaw == Undefined && rightRaw == Undefined {
        continue;
      }
      var left, right := Comparable(leftRaw, path.rule), Comparable(rightRaw, path.rule);
      if !StrictlyEqual(left, right) {
        diffs := diffs + [Diff(path.parts, left, right)];
      }
    }
    assert paths[..|paths|] == paths;
  }

  method CompareEconomicReceipts(expected: Js, actual: Js) returns (diffs: Result<seq<Diff>>)
    ensures diffs == Comparison(expected, actual)
  {
    var found := CompareFields(expected, actual, ComparePaths(expected));
    var calls := CallDiffs(expected, actual);
    match calls
    case Err(error) => diffs := Err(error);
    case Ok(more) => diffs := Ok(found + more);
  }

  // ---------- the comparison of two receipts ----------

  /** An object literal with these keys and values and any further members. */
  function Extended(keys: seq<string>, values: seq<Js>, extra: seq<Prop>): Js
    requires |keys| == |values|
  {
    Object(Zip(keys, values) + extra)
  }

  function SideObjectKeys(): seq<string> {
    ["collateralFactorMantissa", "risk"]
  }
  function RiskObjectKeys(): seq<string> {
    ["liquidityRaw", "shortfallRaw", "status"]
  }

  function AnchorMembers(a: Anchor): seq<Js> {
    [Number(a.chainId), BigInt(a.blockNumber), Text(a.blockHash)]
  }

  function AnchorObject(a: Anchor): Js {
    Extended(ForkKeys(), AnchorMembers(a), a.extra)
  }

  function CallObject(c: TargetCall): Js {
    Extended(CallKeys(),
             [Number(c.destinationChainId), Text(c.target), Text(c.valueRaw), Text(c.calldata), Text(c.selector)],
             c.extra)
  }

  function ImpersonationObject(i: Impersonation): Js {
    Extended(ImpersonationKeys(), [Text(i.account), Text(i.reason)], i.extra)
  }

  function RiskMembers(r: Risk): seq<Js> {
    [BigInt(r.liquidityRaw), BigInt(r.shortfallRaw), Text(r.status)]
  }

  function RiskObject(r: Risk): Js {
    Extended(RiskObjectKeys(), RiskMembers(r), r.extra)
  }

  function SideMembers(s: Side): seq<Js> {
    [Text(s.collateralFactorMantissa), RiskObject(s.risk)]
  }

  function SideObject(s: Side): Js {
    Extended(SideObjectKeys(), SideMembers(s), [])
  }

  function ExposureMembers(e: Exposure): seq<Js> {
    [Bool(e.relevant), Text(e.severityHint), Texts(e.matchedMarkets), Texts(e.matchedAssets), Texts(e.rationaleCodes)]
  }

  function ExposureObject(e: Exposure): Js {
    Extended(ExposureKeys(), ExposureMembers(e), e.extra)
  }

  function MaterialObject(m: MaterialRisk): Js {
    Extended(RiskKeys(), RiskValues(m), m.extra)
  }

  function PolicyObject(p: Policy): Js {
    Extended(PolicyKeys(), PolicyValues(p), p.extra)
  }

  function EvaluationMembers(e: Evaluation): seq<Js> {
    [Bool(e.passed), Texts(e.reasons)]
  }

  function EvaluationObject(e: Evaluation): Js {
    Extended(EvaluationKeys(), EvaluationMembers(e), e.extra)
  }

  function ProvenanceObject(p: Provenance): Js {
    Record(ProvenanceKeys(),
           [Text(p.comptroller), Text(p.temporalGovernor), Text(p.market),
            OrNull(p.comptrollerCodeHash), OrNull(p.marketCodeHash), OrNull(p.temporalGovernorCodeHash)])
  }

  function CallObjects(calls: seq<TargetCall>): seq<Js> {
    seq(|calls|, i requires 0 <= i < |calls| => CallObject(calls[i]))
  }

  function ImpersonationObjects(items: seq<Impersonation>): seq<Js> {
    seq(|items|, i requires 0 <= i < |items| => ImpersonationObject(items[i]))
  }

  function ReceiptMembers(r: Receipt): (values: seq<Js>)
    ensures |values| == 19
  {
    [ Text(r.receiptSchemaVersion), Text(r.engineVersion), Text(r.replayGrade), Text(r.proposalId), Text(r.changeId),
      Text(r.wallet), Number(r.chainId), AnchorObject(r.fork), Array(CallObjects(r.targetCalls)),
      Array(ImpersonationObjects(r.impersonations)), Array(r.timeJumps), SideObject(r.before), SideObject(r.after),
      Text(r.liquidityDeltaRaw), ExposureObject(r.exposure), MaterialObject(r.materialRisk), PolicyObject(r.policy),
      EvaluationObject(r.policyEvaluation), ProvenanceObject(r.provenance) ]
  }

  /** The receipt as the value that is compared. */
  function ReceiptObject(r: Receipt): Js {
    Extended(BodyKeys(), ReceiptMembers(r), r.extra)
  }

  lemma ExtendedField(keys: seq<string>, values: seq<Js>, extra: seq<Prop>, i: nat)
    requires DistinctKeys(keys) && |keys| == |values| && i < |keys|
    ensures Field(Extended(keys, values, extra), keys[i]) == values[i]
  {
    var props := Zip(keys, values) + extra;
    assert KeysOf(props)[i] == keys[i];
    assert forall j :: 0 <= j < |keys| ==> props[j].key == keys[j];
    var at := IndexOf(props, keys[i]);
    assert KeysOf(props)[at] == keys[i];
    assert at <= i;
  }

  lemma OneStep(v: Js, a: string)
    ensures Fields(v, [a]) == Field(v, a)
  {
    assert [a][1..] == [];
    assert Fields(v, [a]) == Fields(Field(v, a), []);
  }

  lemma TwoSteps(v: Js, a: string, b: string)
    ensures Fields(v, [a, b]) == Field(Field(v, a), b)
  {
    assert [a, b][1..] == [b];
    OneStep(Field(v, a), b);
  }

  lemma ThreeSteps(v: Js, a: string, b: string, c: string)
    ensures Fields(v, [a, b, c]) == Field(Field(Field(v, a), b), c)
  {
    assert [a, b, c][1..] == [b, c];
    TwoSteps(Field(v, a), b, c);
  }

  function Raw(v: Js): Js {
    if v.BigInt? then Text(Decimal(v.i)) else v
  }

  /** The values a and b compare as equal, when they are read at one path. */
  ghost predicate Agree(a: Js, b: Js, rule: Rule) {
    StrictlyEqual(Comparable(Raw(a), rule), Comparable(Raw(b), rule))
  }

  ghost predicate NoDiff(e: Js, a: Js, parts: seq<string>, rule: Rule) {
    PathDiff(e, a, Path(parts, rule)) == []
  }

  lemma TopDiff(e: Js, a: Js, name: string, rule: Rule)
    requires Field(e, name) != Undefined && Field(a, name) != Undefined
    ensures NoDiff(e, a, [name], rule) <==> Agree(Field(e, name), Field(a, name), rule)
  {
    OneStep(e, name);
    OneStep(a, name);
  }

  lemma NestedDiff(e: Js, a: Js, name: string, inner: string, rule: Rule)
    requires Field(Field(e, name), inner) != Undefined && Field(Field(a, name), inner) != Undefined
    ensures NoDiff(e, a, [name, inner], rule)
       <==> Agree(Field(Field(e, name), inner), Field(Field(a, name), inner), rule)
  {
    TwoSteps(e, name, inner);
    TwoSteps(a, name, inner);
  }

  lemma DeepDiff(e: Js, a: Js, name: string, inner: string, leaf: string, rule: Rule)
    requires Field(Field(Field(e, name), inner), leaf) != Undefined
    requires Field(Field(Field(a, name), inner), leaf) != Undefined
    ensures NoDiff(e, a, [name, inner, leaf], rule)
       <==> Agree(Field(Field(Field(e, name), inner), leaf), Field(Field(Field(a, name), inner), leaf), rule)
  {
    ThreeSteps(e, name, inner, leaf);
    ThreeSteps(a, name, inner, leaf);
  }

  lemma TextDiff(e: Js, a: Js, name: string, x: string, y: string)
    requires Field(e, name) == Text(x) && Field(a, name) == Text(y)
    ensures NoDiff(e, a, [name], AsIs) <==> x == y
    ensures NoDiff(e, a, [name], Numeral) <==> x == y
    ensures NoDiff(e, a, [name], Lowered) <==> Lower(x) == Lower(y)
  {
    TopDiff(e, a, name, AsIs);
    TopDiff(e, a, name, Numeral);
    TopDiff(e, a, name, Lowered);
  }

  // The names n stand for the keys of a receipt, in the order of BodyKeys.

  ghost predicate TopShape(v: Js, n: seq<string>, r: Receipt) {
    && |n| == 19
    && Field(v, n[0]) == Text(r.receiptSchemaVersion)
    && Field(v, n[2]) == Text(r.replayGrade)
    && Field(v, n[3]) == Text(r.proposalId)
    && Field(v, n[5]) == Text(r.wallet)
    && Field(v, n[6]) == Number(r.chainId)
    && Field(v, n[8]) == Array(CallObjects(r.targetCalls))
    && Field(v, n[13]) == Text(r.liquidityDeltaRaw)
  }

  ghost predicate AnchorShape(v: Js, a: Anchor) {
    Field(v, "blockNumber") == BigInt(a.blockNumber) && Field(v, "blockHash") == Text(a.blockHash)
  }

  ghost predicate RiskShape(v: Js, r: Risk) {
    && Field(v, "liquidityRaw") == BigInt(r.liquidityRaw)
    && Field(v, "shortfallRaw") == BigInt(r.shortfallRaw)
    && Field(v, "status") == Text(r.status)
  }

  ghost predicate SideShape(v: Js, s: Side) {
    Field(v, "collateralFactorMantissa") == Text(s.collateralFactorMantissa) && RiskShape(Field(v, "risk"), s.risk)
  }

  ghost predicate EffectShape(v: Js, n: seq<string>, r: Receipt) {
    && |n| == 19
    && AnchorShape(Field(v, n[7]), r.fork)
    && SideShape(Field(v, n[11]), r.before)
    && SideShape(Field(v, n[12]), r.after)
  }

  ghost predicate VerdictShape(v: Js, n: seq<string>, r: Receipt) {
    && |n| == 19
    && Field(v, n[14]).Object? && Field(v, n[15]).Object? && Field(v, n[16]).Object?
    && Field(Field(v, n[14]), "relevant") == Bool(r.exposure.relevant)
    && Field(Field(v, n[14]), "severityHint") == Text(r.exposure.severityHint)
    && Field(Field(v, n[15]), "classification") == Text(r.materialRisk.classification)
    && Field(Field(v, n[15]), "liquidityDropBps") == OrNull(r.materialRisk.liquidityDropBps)
    && Field(Field(v, n[16]), "policyVersion") == Text(r.policy.policyVersion)
    && Field(Field(v, n[16]), "minSafetyBufferBps") == Number(r.policy.minSafetyBufferBps)
    && Field(Field(v, n[17]), "passed") == Bool(r.policyEvaluation.passed)
  }

  lemma AnchorIs(a: Anchor)
    ensures AnchorShape(AnchorObject(a), a)
  {
    PlainRecords();
    ExtendedField(ForkKeys(), AnchorMembers(a), a.extra, 1);
    ExtendedField(ForkKeys(), AnchorMembers(a), a.extra, 2);
  }

  lemma RiskIs(r: Risk)
    ensures RiskShape(RiskObject(r), r)
  {
    CodesArePlain(RiskObjectKeys(), Codes(RiskObjectKeys()));
    ExtendedField(RiskObjectKeys(), RiskMembers(r), r.extra, 0);
    ExtendedField(RiskObjectKeys(), RiskMembers(r), r.extra, 1);
    ExtendedField(RiskObjectKeys(), RiskMembers(r), r.extra, 2);
  }

  lemma SideIs(s: Side)
    ensures SideShape(SideObject(s), s)
  {
    RiskIs(s.risk);
    CodesArePlain(SideObjectKeys(), Codes(SideObjectKeys()));
    ExtendedField(SideObjectKeys(), SideMembers(s), [], 0);
    ExtendedField(SideObjectKeys(), SideMembers(s), [], 1);
  }

  lemma ExposureIs(e: Exposure)
    ensures Field(ExposureObject(e), "relevant") == Bool(e.relevant)
    ensures Field(ExposureObject(e), "severityHint") == Text(e.severityHint)
  {
    PlainRecords();
    ExtendedField(ExposureKeys(), ExposureMembers(e), e.extra, 0);
    ExtendedField(ExposureKeys(), ExposureMembers(e), e.extra, 1);
  }

  lemma MaterialIs(m: MaterialRisk)
    ensures Field(MaterialObject(m), "classification") == Text(m.classification)
    ensures Field(MaterialObject(m), "liquidityDropBps") == OrNull(m.liquidityDropBps)
  {
    PlainMoreRecords();
    ExtendedField(RiskKeys(), RiskValues(m), m.extra, 0);
    ExtendedField(RiskKeys(), RiskValues(m), m.extra, 1);
  }

  lemma PolicyIs(p: Policy)
    ensures Field(PolicyObject(p), "policyVersion") == Text(p.policyVersion)
    ensures Field(PolicyObject(p), "minSafetyBufferBps") == Number(p.minSafetyBufferBps)
  {
    PlainMoreRecords();
    ExtendedField(PolicyKeys(), PolicyValues(p), p.extra, 0);
    ExtendedField(PolicyKeys(), PolicyValues(p), p.extra, 1);
  }

  lemma EvaluationIs(e: Evaluation)
    ensures Field(EvaluationObject(e), "passed") == Bool(e.passed)
  {
    PlainMoreRecords();
    ExtendedField(EvaluationKeys(), EvaluationMembers(e), e.extra, 0);
  }

  lemma MembersAre(v: Js, n: seq<string>, r: Receipt)
    requires |n| == 19 && forall i :: 0 <= i < 19 ==> Field(v, n[i]) == ReceiptMembers(r)[i]
    ensures TopShape(v, n, r)
    ensures Field(v, n[7]) == AnchorObject(r.fork)
    ensures Field(v, n[11]) == SideObject(r.before) && Field(v, n[12]) == SideObject(r.after)
    ensures Field(v, n[14]) == ExposureObject(r.exposure) && Field(v, n[15]) == MaterialObject(r.materialRisk)
    ensures Field(v, n[16]) == PolicyObject(r.policy) && Field(v, n[17]) == EvaluationObject(r.policyEvaluation)
  {
    hide Field, Extended, AnchorObject, SideObject, ExposureObject, MaterialObject, PolicyObject, EvaluationObject;
  }

  lemma ReceiptShape(v: Js, n: seq<string>, r: Receipt)
    requires |n| == 19 && forall i :: 0 <= i < 19 ==> Field(v, n[i]) == ReceiptMembers(r)[i]
    ensures TopShape(v, n, r) && EffectShape(v, n, r) && VerdictShape(v, n, r)
  {
    MembersAre(v, n, r);
    AnchorIs(r.fork);
    SideIs(r.before);
    SideIs(r.after);
    ExposureIs(r.exposure);
    MaterialIs(r.materialRisk);
    PolicyIs(r.policy);
    EvaluationIs(r.policyEvaluation);
  }

  lemma ReceiptObjectShape(r: Receipt)
    ensures var n, v := BodyKeys(), ReceiptObject(r); TopShape(v, n, r) && EffectShape(v, n, r) && VerdictShape(v, n, r)
  {
    PlainBody();
    forall i | 0 <= i < 19
      ensures Field(ReceiptObject(r), BodyKeys()[i]) == ReceiptMembers(r)[i]
    {
      ExtendedField(BodyKeys(), ReceiptMembers(r), r.extra, i);
    }
    ReceiptShape(ReceiptObject(r), BodyKeys(), r);
  }

  lemma TopDiffs(e: Js, a: Js, n: seq<string>, r: Receipt, q: Receipt)
    requires TopShape(e, n, r) && TopShape(a, n, q)
    ensures NoDiff(e, a, [n[0]], AsIs) <==> r.receiptSchemaVersion == q.receiptSchemaVersion
    ensures NoDiff(e, a, [n[2]], AsIs) <==> r.replayGrade == q.replayGrade
    ensures NoDiff(e, a, [n[3]], AsIs) <==> r.proposalId == q.proposalId
    ensures NoDiff(e, a, [n[5]], Lowered) <==> Lower(r.wallet) == Lower(q.wallet)
    ensures NoDiff(e, a, [n[6]], AsIs) <==> r.chainId == q.chainId
    ensures NoDiff(e, a, [n[13]], Numeral) <==> r.liquidityDeltaRaw == q.liquidityDeltaRaw
  {
    hide NoDiff, Field;
    TextDiff(e, a, n[0], r.receiptSchemaVersion, q.receiptSchemaVersion);
    TextDiff(e, a, n[2], r.replayGrade, q.replayGrade);
    TextDiff(e, a, n[3], r.proposalId, q.proposalId);
    TextDiff(e, a, n[5], r.wallet, q.wallet);
    TopDiff(e, a, n[6], AsIs);
    TextDiff(e, a, n[13], r.liquidityDeltaRaw, q.liquidityDeltaRaw);
  }

  lemma ForkDiffs(e: Js, a: Js, name: string, f: Anchor, g: Anchor)
    requires AnchorShape(Field(e, name), f) && AnchorShape(Field(a, name), g)
    ensures NoDiff(e, a, [name, "blockNumber"], Numeral) <==> f.blockNumber == g.blockNumber
    ensures NoDiff(e, a, [name, "blockHash"], Lowered) <==> Lower(f.blockHash) == Lower(g.blockHash)
  {
    hide NoDiff, Field;
    NumeralMeaning(f.blockNumber, g.blockNumber);
    NestedDiff(e, a, name, "blockNumber", Numeral);
    NestedDiff(e, a, name, "blockHash", Lowered);
  }

  lemma SideDiffs(e: Js, a: Js, name: string, s: Side, t: Side)
    requires SideShape(Field(e, name), s) && SideShape(Field(a, name), t)
    ensures NoDiff(e, a, [name, "collateralFactorMantissa"], Numeral)
       <==> s.collateralFactorMantissa == t.collateralFactorMantissa
    ensures NoDiff(e, a, [name, "risk", "liquidityRaw"], Numeral) <==> s.risk.liquidityRaw == t.risk.liquidityRaw
    ensures NoDiff(e, a, [name, "risk", "shortfallRaw"], Numeral) <==> s.risk.shortfallRaw == t.risk.shortfallRaw
    ensures NoDiff(e, a, [name, "risk", "status"], AsIs) <==> s.risk.status == t.risk.status
  {
    hide NoDiff, Field;
    NumeralMeaning(s.risk.liquidityRaw, t.risk.liquidityRaw);
    NumeralMeaning(s.risk.shortfallRaw, t.risk.shortfallRaw);
    NestedDiff(e, a, name, "collateralFactorMantissa", Numeral);
    DeepDiff(e, a, name, "risk", "liquidityRaw", Numeral);
    DeepDiff(e, a, name, "risk", "shortfallRaw", Numeral);
    DeepDiff(e, a, name, "risk", "status", AsIs);
  }

  lemma ExposureDiffs(e: Js, a: Js, n: seq<string>, r: Receipt, q: Receipt)
    requires VerdictShape(e, n, r) && VerdictShape(a, n, q)
    ensures NoDiff(e, a, [n[14], "relevant"], AsIs) <==> r.exposure.relevant == q.exposure.relevant
    ensures NoDiff(e, a, [n[14], "severityHint"], AsIs) <==> r.exposure.severityHint == q.exposure.severityHint
    ensures NoDiff(e, a, [n[15], "classification"], AsIs)
       <==> r.materialRisk.classification == q.materialRisk.classification
    ensures NoDiff(e, a, [n[15], "liquidityDropBps"], Numeral)
       <==> r.materialRisk.liquidityDropBps == q.materialRisk.liquidityDropBps
  {
    hide NoDiff, Field;
    NestedDiff(e, a, n[14], "relevant", AsIs);
    NestedDiff(e, a, n[14], "severityHint", AsIs);
    NestedDiff(e, a, n[15], "classification", AsIs);
    NestedDiff(e, a, n[15], "liquidityDropBps", Numeral);
  }

  lemma PolicyDiffs(e: Js, a: Js, n: seq<string>, r: Receipt, q: Receipt)
    requires VerdictShape(e, n, r) && VerdictShape(a, n, q)
    ensures NoDiff(e, a, [n[16], "policyVersion"], AsIs) <==> r.policy.policyVersion == q.policy.policyVersion
    ensures NoDiff(e, a, [n[16], "minSafetyBufferBps"], Numeral)
       <==> r.policy.minSafetyBufferBps == q.policy.minSafetyBufferBps
    ensures NoDiff(e, a, [n[17], "passed"], AsIs) <==> r.policyEvaluation.passed == q.policyEvaluation.passed
  {
    hide NoDiff, Field;
    NumeralMeaning(r.policy.minSafetyBufferBps, q.policy.minSafetyBufferBps);
    NestedDiff(e, a, n[16], "policyVersion", AsIs);
    NestedDiff(e, a, n[16], "minSafetyBufferBps", Numeral);
    NestedDiff(e, a, n[17], "passed", AsIs);
  }

  ghost predicate NoDiffs(e: Js, a: Js, paths: seq<Path>) {
    forall p :: p in paths ==> PathDiff(e, a, p) == []
  }

  lemma {:induction false} PathDiffsEmpty(e: Js, a: Js, paths: seq<Path>)
    ensures PathDiffs(e, a, paths) == [] <==> NoDiffs(e, a, paths)
  {
    hide PathDiff;
    if paths != [] {
      PathDiffsEmpty(e, a, paths[..|paths| - 1]);
      assert paths == paths[..|paths| - 1] + [paths[|paths| - 1]];
    }
  }

  lemma NoDiffsSplit(e: Js, a: Js, paths: seq<Path>, i: nat)
    requires i <= |paths|
    ensures NoDiffs(e, a, paths) <==> NoDiffs(e, a, paths[..i]) && NoDiffs(e, a, paths[i..])
  {
    hide PathDiff;
    assert paths == paths[..i] + paths[i..];
    assert forall p :: p in paths <==> p in paths[..i] || p in paths[i..];
  }

  lemma NoDiffsEach(e: Js, a: Js, paths: seq<Path>)
    requires 2 <= |paths| <= 7
    ensures NoDiffs(e, a, paths) <==>
              && PathDiff(e, a, paths[0]) == [] && PathDiff(e, a, paths[1]) == []
              && (|paths| > 2 ==> PathDiff(e, a, paths[2]) == [])
              && (|paths| > 3 ==> PathDiff(e, a, paths[3]) == [])
              && (|paths| > 4 ==> PathDiff(e, a, paths[4]) == [])
              && (|paths| > 5 ==> PathDiff(e, a, paths[5]) == [])
              && (|paths| > 6 ==> PathDiff(e, a, paths[6]) == [])
  {
    hide PathDiff;
  }

  lemma CoreSplit(e: Js, a: Js)
    ensures NoDiffs(e, a, CorePaths()) <==>
              && NoDiffs(e, a, CorePaths()[..5]) && NoDiffs(e, a, CorePaths()[5..7])
              && NoDiffs(e, a, CorePaths()[7..9]) && NoDiffs(e, a, CorePaths()[9..11])
              && NoDiffs(e, a, CorePaths()[11..13]) && NoDiffs(e, a, CorePaths()[13..])
  {
    hide PathDiff, NoDiffs;
    var paths := CorePaths();
    NoDiffsSplit(e, a, paths, 13);
    NoDiffsSplit(e, a, paths[..13], 11);
    NoDiffsSplit(e, a, paths[..11], 9);
    NoDiffsSplit(e, a, paths[..9], 7);
    NoDiffsSplit(e, a, paths[..7], 5);
    assert paths[..13][..11] == paths[..11] && paths[..13][11..] == paths[11..13];
    assert paths[..11][..9] == paths[..9] && paths[..11][9..] == paths[9..11];
    assert paths[..9][..7] == paths[..7] && paths[..9][7..] == paths[7..9];
    assert paths[..7][..5] == paths[..5] && paths[..7][5..] == paths[5..7];
  }

  lemma CorePathsAre(n: seq<string>)
    requires n == BodyKeys()
    ensures CorePaths()[..5]
         == [Path([n[0]], AsIs), Path([n[2]], AsIs), Path([n[3]], AsIs), Path([n[5]], Lowered), Path([n[6]], AsIs)]
    ensures CorePaths()[5..7] == [Path([n[7], "blockNumber"], Numeral), Path([n[7], "blockHash"], Lowered)]
    ensures CorePaths()[7..9]
         == [Path([n[11], "collateralFactorMantissa"], Numeral), Path([n[12], "collateralFactorMantissa"], Numeral)]
    ensures CorePaths()[9..11]
         == [Path([n[11], "risk", "liquidityRaw"], Numeral), Path([n[12], "risk", "liquidityRaw"], Numeral)]
    ensures CorePaths()[11..13]
         == [Path([n[11], "risk", "shortfallRaw"], Numeral), Path([n[12], "risk", "shortfallRaw"], Numeral)]
    ensures CorePaths()[13..]
         == [Path([n[11], "risk", "status"], AsIs), Path([n[12], "risk", "status"], AsIs), Path([n[13]], Numeral)]
  {
  }

  lemma Phase5PathsAre(n: seq<string>)
    requires n == BodyKeys()
    ensures Phase5Paths()
         == [Path([n[14], "relevant"], AsIs), Path([n[14], "severityHint"], AsIs),
             Path([n[15], "classification"], AsIs),
             Path([n[15], "liquidityDropBps"], Numeral), Path([n[16], "policyVersion"], AsIs),
             Path([n[16], "minSafetyBufferBps"], Numeral), Path([n[17], "passed"], AsIs)]
  {
  }

  /** The fields that are compared, but for the calls. */
  ghost predicate SameFields(r: Receipt, q: Receipt) {
    && r.receiptSchemaVersion == q.receiptSchemaVersion && r.replayGrade == q.replayGrade
    && r.proposalId == q.proposalId && Lower(r.wallet) == Lower(q.wallet) && r.chainId == q.chainId
    && r.fork.blockNumber == q.fork.blockNumber && Lower(r.fork.blockHash) == Lower(q.fork.blockHash)
    && SameSide(r.before, q.before) && SameSide(r.after, q.after) && r.liquidityDeltaRaw == q.liquidityDeltaRaw
  }

  ghost predicate SameFindings(r: Receipt, q: Receipt) {
    && r.exposure.relevant == q.exposure.relevant && r.exposure.severityHint == q.exposure.severityHint
    && r.materialRisk.classification == q.materialRisk.classification
    && r.materialRisk.liquidityDropBps == q.materialRisk.liquidityDropBps
    && r.policy.policyVersion == q.policy.policyVersion
    && r.policy.minSafetyBufferBps == q.policy.minSafetyBufferBps
    && r.policyEvaluation.passed == q.policyEvaluation.passed
  }

  lemma CoreDiffs(e: Js, a: Js, n: seq<string>, r: Receipt, q: Receipt)
    requires n == BodyKeys()
    requires TopShape(e, n, r) && EffectShape(e, n, r) && TopShape(a, n, q) && EffectShape(a, n, q)
    ensures NoDiffs(e, a, CorePaths()) <==> SameFields(r, q)
  {
    hide PathDiff, TopShape, SideShape, AnchorShape, Field;
    CorePathsAre(n);
    CoreSplit(e, a);
    TopDiffs(e, a, n, r, q);
    ForkDiffs(e, a, n[7], r.fork, q.fork);
    SideDiffs(e, a, n[11], r.before, q.before);
    SideDiffs(e, a, n[12], r.after, q.after);
    NoDiffsEach(e, a, CorePaths()[..5]);
    NoDiffsEach(e, a, CorePaths()[5..7]);
    NoDiffsEach(e, a, CorePaths()[7..9]);
    NoDiffsEach(e, a, CorePaths()[9..11]);
    NoDiffsEach(e, a, CorePaths()[11..13]);
    NoDiffsEach(e, a, CorePaths()[13..]);
  }

  lemma Phase5Diffs(e: Js, a: Js, n: seq<string>, r: Receipt, q: Receipt)
    requires n == BodyKeys() && VerdictShape(e, n, r) && VerdictShape(a, n, q)
    ensures NoDiffs(e, a, Phase5Paths()) <==> SameFindings(r, q)
  {
    hide PathDiff, VerdictShape, Field;
    Phase5PathsAre(n);
    ExposureDiffs(e, a, n, r, q);
    PolicyDiffs(e, a, n, r, q);
    NoDiffsEach(e, a, Phase5Paths());
  }

  // ---------- the calls of a receipt ----------

  function CallLine(c: TargetCall): string {
    Lower(c.target) + ":" + Lower(c.calldata) + ":" + c.valueRaw
  }

  function CallLines(calls: seq<TargetCall>): (lines: seq<string>)
    ensures |lines| == |calls|
  {
    seq(|calls|, i requires 0 <= i < |calls| => CallLine(calls[i]))
  }

  lemma CallIs(c: TargetCall)
    ensures CallText(CallObject(c)) == Ok(CallLine(c))
  {
    PlainRecords();
    var values := [Number(c.destinationChainId), Text(c.target), Text(c.valueRaw), Text(c.calldata), Text(c.selector)];
    ExtendedField(CallKeys(), values, c.extra, 1);
    ExtendedField(CallKeys(), values, c.extra, 2);
    ExtendedField(CallKeys(), values, c.extra, 3);
    CallFields(CallObject(c), c);
  }

  lemma CallFields(v: Js, c: TargetCall)
    requires v.Object? && Field(v, "target") == Text(c.target)
    requires Field(v, "valueRaw") == Text(c.valueRaw) && Field(v, "calldata") == Text(c.calldata)
    ensures CallText(v) == Ok(CallLine(c))
  {
    hide Field;
  }

  lemma {:induction false} CallsAre(calls: seq<TargetCall>)
    ensures CallTexts(CallObjects(calls)) == Ok(CallLines(calls))
  {
    hide CallObject, CallText, CallLine;
    if calls != [] {
      var front, last := calls[..|calls| - 1], calls[|calls| - 1];
      CallsAre(front);
      CallIs(last);
      assert CallObjects(calls)[..|calls| - 1] == CallObjects(front);
      assert CallLines(calls) == CallLines(front) + [CallLine(last)];
    }
  }

  lemma TextTreeItems(a: seq<string>)
    ensures TextTree(a).TArr? && |TextTree(a).items| == |a|
    ensures forall i :: 0 <= i < |a| ==> TextTree(a).items[i] == TStr(a[i])
  {
    var texts := Texts(a).items;
    assert forall i :: 0 <= i < |a| ==> texts[i] == Text(a[i]);
    assert forall i :: 0 <= i < |a| ==> TextTree(a).items[i] == TreeOf(texts[i]);
  }

  lemma TextTreeInjective(a: seq<string>, b: seq<string>)
    ensures Print(TextTree(a)) == Print(TextTree(b)) <==> a == b
  {
    hide TextTree;
    PrintInjective(TextTree(a), TextTree(b));
    TextTreeItems(a);
    TextTreeItems(b);
    if TextTree(a) == TextTree(b) {
      forall i | 0 <= i < |a|
        ensures a[i] == b[i]
      {
        assert TextTree(a).items[i] == TStr(a[i]) && TextTree(b).items[i] == TStr(b[i]);
      }
      assert a == b;
    }
  }

  lemma SameCallLines(e: Js, a: Js, n: seq<string>, r: Receipt, q: Receipt)
    requires n == BodyKeys() && TopShape(e, n, r) && TopShape(a, n, q)
    ensures CallDiffs(e, a).Ok?
    ensures CallDiffs(e, a).value == [] <==> CallLines(r.targetCalls) == CallLines(q.targetCalls)
  {
    hide Field, CallObjects, CallTexts, CallLines, TextTree;
    assert n[8] == "targetCalls";
    OneStep(e, n[8]);
    OneStep(a, n[8]);
    CallsAre(r.targetCalls);
    CallsAre(q.targetCalls);
    TextTreeInjective(CallLines(r.targetCalls), CallLines(q.targetCalls));
  }

  /** The comparison of two receipts never throws, and is empty exactly when the compared fields agree. */
  lemma NoDiffsIffSameFields(r: Receipt, q: Receipt)
    ensures var diffs := Comparison(ReceiptObject(r), ReceiptObject(q));
            && diffs.Ok?
            && (diffs.value == [] <==>
                  SameFields(r, q) && SameFindings(r, q) && CallLines(r.targetCalls) == CallLines(q.targetCalls))
  {
    ReceiptObjectShape(r);
    ReceiptObjectShape(q);
    ComparedShapes(ReceiptObject(r), ReceiptObject(q), BodyKeys(), r, q);
  }

  lemma IsPhase5(e: Js, n: seq<string>, r: Receipt)
    requires n == BodyKeys() && VerdictShape(e, n, r)
    ensures IsPhase5Receipt(e)
  {
    hide Field;
    assert n[14] == "exposure" && n[15] == "materialRisk" && n[16] == "policy";
  }

  lemma ComparedShapes(e: Js, a: Js, n: seq<string>, r: Receipt, q: Receipt)
    requires n == BodyKeys()
    requires TopShape(e, n, r) && EffectShape(e, n, r) && VerdictShape(e, n, r)
    requires TopShape(a, n, q) && EffectShape(a, n, q) && VerdictShape(a, n, q)
    ensures Comparison(e, a).Ok?
    ensures Comparison(e, a).value == [] <==>
              SameFields(r, q) && SameFindings(r, q) && CallLines(r.targetCalls) == CallLines(q.targetCalls)
  {
    hide TopShape, EffectShape, VerdictShape, CallDiffs, PathDiffs, NoDiffs, IsPhase5Receipt, SameFields, SameFindings;
    IsPhase5(e, n, r);
    SameCallLines(e, a, n, r, q);
    CoreDiffs(e, a, n, r, q);
    Phase5Diffs(e, a, n, r, q);
    var core, more := CorePaths(), Phase5Paths();
    PathDiffsEmpty(e, a, core + more);
    NoDiffsSplit(e, a, core + more, |core|);
    assert (core + more)[..|core|] == core && (core + more)[|core|..] == more;
  }

  /** Two receipts with the same canonical text show no differences, in either order. */
  lemma SameTextNoDiffs(r: Receipt, q: Receipt)
    requires WellFormed(Array(r.timeJumps)) && WellFormed(Array(q.timeJumps))
    requires CanonicalizeReceipt(r) == CanonicalizeReceipt(q)
    ensures Comparison(ReceiptObject(r), ReceiptObject(q)) == Ok([])
    ensures Comparison(ReceiptObject(q), ReceiptObject(r)) == Ok([])
  {
    hide Comparison, CanonicalizeReceipt;
    SameTextIffSameEconomics(r, q);
    NoDiffsIffSameFields(r, q);
    NoDiffsIffSameFields(q, r);
    assert CallLines(r.targetCalls) == CallLines(q.targetCalls);
  }

  /** The comparison is coarser: it does not see the engine that made a receipt, and the text does. */
  lemma TextSeesTheEngine(r: Receipt, engineVersion: string)
    requires WellFormed(Array(r.timeJumps)) && engineVersion != r.engineVersion
    ensures var q := r.(engineVersion := engineVersion);
            && Comparison(ReceiptObject(r), ReceiptObject(q)) == Ok([])
            && CanonicalizeReceipt(r) != CanonicalizeReceipt(q)
  {
    hide Comparison, CanonicalizeReceipt;
    var q := r.(engineVersion := engineVersion);
    NoDiffsIffSameFields(r, q);
    SameTextIffSameEconomics(r, q);
  }
}
