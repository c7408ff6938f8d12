/**
 * The governance index: proposals read from the governor, their status on both chains, and the
 * monitor's tick over them. packages/protocol-moonwell/src/governance (sync, normalize, refresh,
 * destination), packages/governance-core/src (status, store) and apps/indexer/src/monitor.ts.
 */
module GovernanceIndex {
  import opened Wrappers
  import opened GovernanceCursor

  datatype ChangeStatus =
    | ADVISORY | PROPOSED | APPROVED | DESTINATION_PENDING | QUEUED | EXECUTABLE | EXECUTED | CANCELLED | EXPIRED
    | UNKNOWN

  datatype SupportLevel = DESTINATION_EFFECT_REPLAY | ANALYSIS_ONLY | UNSUPPORTED

  /** A decoded call: another one, a collateral factor selector that does not decode, or one that does. */
  datatype Call = OtherCall | MalformedFactorCall | FactorCall(factor: Factor)

  datatype Factor = Factor(market: string, mantissa: nat)

  /** Calls published to a Temporal Governor, and whether that is Base's. */
  datatype Batch = Batch(toBaseGovernor: bool, calls: seq<Call>)

  /** A proposal as it is decoded: one source call for each target, and the batches found in them. */
  datatype Proposal = Proposal(sourceCalls: seq<Call>, batches: seq<Batch>, votes: (nat, nat, nat))

  /** collateralFactorChange is the type COLLATERAL_FACTOR_CHANGE; every other change is of type UNKNOWN. */
  datatype Record = Record(
    proposalId: nat, status: ChangeStatus, sourceStatus: ChangeStatus, destinationStatus: ChangeStatus,
    rawGovernorState: nat, collateralFactorChange: bool, targetCalls: seq<Call>, supportLevel: SupportLevel,
    votes: (nat, nat, nat))

  // ---------- statuses ----------

  function MapMultichainGovernorState(raw: nat): ChangeStatus {
    match raw
    case 0 => PROPOSED
    case 1 => APPROVED
    case 2 => CANCELLED
    case 3 => UNKNOWN
    case 4 => APPROVED
    case 5 => EXECUTED
    case 6 => EXPIRED
    case _ => UNKNOWN
  }

  function CombineChangeStatus(
    source: ChangeStatus, destination: ChangeStatus, hasDestinationCalls: bool): ChangeStatus
  {
    if source == CANCELLED || source == EXPIRED then source
    else if source == EXECUTED && hasDestinationCalls then
      if destination == EXECUTED then EXECUTED else DESTINATION_PENDING
    else source
  }

  function DestinationStatusFromFactor(source: ChangeStatus, current: nat, target: nat): ChangeStatus {
    if source == CANCELLED || source == EXPIRED then source
    else if source == EXECUTED then if current == target then EXECUTED else DESTINATION_PENDING
    else UNKNOWN
  }

  // ---------- the chains as one tick sees them ----------

  /** Reads at the safe blocks; Err is a read that fails even after its retries. */
  datatype View = View(
    ethereum: ChainView, base: Option<ChainView>, proposalCount: nat,
    proposal: nat -> Result<Proposal>, rawState: nat -> Result<nat>, factor: string -> Result<nat>)

  // ---------- normalising a proposal ----------

  function BaseDestinationCalls(batches: seq<Batch>): seq<Call> {
    if batches == [] then []
    else (if batches[0].toBaseGovernor then batches[0].calls else []) + BaseDestinationCalls(batches[1..])
  }

  predicate AnyFactorSelector(calls: seq<Call>) {
    exists i :: 0 <= i < |calls| && !calls[i].OtherCall?
  }

  function NormalizeGovernorProposal(id: nat, p: Proposal, rawState: nat): Record {
    var source := MapMultichainGovernorState(rawState);
    var destinationCalls := BaseDestinationCalls(p.batches);
    var hasDestination := destinationCalls != [];
    var destination := if source == EXECUTED && hasDestination then DESTINATION_PENDING else UNKNOWN;
    var factorChange := AnyFactorSelector(destinationCalls);
    Record(id, CombineChangeStatus(source, destination, hasDestination), source, destination, rawState, factorChange,
           if hasDestination then destinationCalls else p.sourceCalls,
           if factorChange && hasDestination then DESTINATION_EFFECT_REPLAY
           else if hasDestination then ANALYSIS_ONLY else UNSUPPORTED,
           p.votes)
  }

  // ---------- the store ----------

  /** The position of a record, or the number of records: a Map in insertion order. */
  function IndexOf(changes: seq<Record>, id: nat): (i: nat)
    ensures i <= |changes|
    ensures i < |changes| ==> changes[i].proposalId == id
    ensures forall j :: 0 <= j < i ==> changes[j].proposalId != id
  {
    if changes == [] then 0
    else if changes[0].proposalId == id then 0
    else IndexOf(changes[1..], id) + 1
  }

  function Upsert(changes: seq<Record>, record: Record): seq<Record> {
    var i := IndexOf(changes, record.proposalId);
    if i < |changes| then changes[i := record] else changes + [record]
  }

  // ---------- syncing the governor ----------

  const FIRST_ETHEREUM_GOVERNOR_PROPOSAL := 169

  /** What a loop has done when it ends, and whether a read failed before its end. */
  datatype Progress = Progress(changes: seq<Record>, failed: bool)

  /** One proposal: one without targets is passed over. */
  function SyncOne(view: View, changes: seq<Record>, id: nat): Progress {
    match view.proposal(id)
    case Err(_) => Progress(changes, true)
    case Ok(p) =>
      if p.sourceCalls == [] then Progress(changes, false)
      else
        match view.rawState(id)
        case Err(_) => Progress(changes, true)
        case Ok(raw) => Progress(Upsert(changes, NormalizeGovernorProposal(id, p, raw)), false)
  }

  /** Proposals from id up to end, exclusive; a failing read ends the loop. */
  function SyncRange(view: View, changes: seq<Record>, from: nat, end: nat): Progress
    decreases end
  {
    if end <= from then Progress(changes, false)
    else
      var front := SyncRange(view, changes, from, end - 1);
      if front.failed then front else SyncOne(view, front.changes, end - 1)
  }

  function FromProposalId(previous: Option<Cursor>): nat {
    var start := if previous.Some? then previous.value.lastProposalId else FIRST_ETHEREUM_GOVERNOR_PROPOSAL;
    if start < FIRST_ETHEREUM_GOVERNOR_PROPOSAL then FIRST_ETHEREUM_GOVERNOR_PROPOSAL else start
  }

  // ---------- refreshing statuses ----------

  /** One record against the governor's state now: unchanged records are left alone. */
  function RefreshSource(record: Record, rawState: nat): Record {
    var source := MapMultichainGovernorState(rawState);
    if source == record.sourceStatus && rawState == record.rawGovernorState then record
    else
      record.(sourceStatus := source, rawGovernorState := rawState,
              status := CombineChangeStatus(source, record.destinationStatus, record.targetCalls != []))
  }

  /** The factor of the first decoded factor call. */
  function FirstFactor(calls: seq<Call>): Option<Factor> {
    if calls == [] then None
    else if calls[0].FactorCall? then Some(calls[0].factor)
    else FirstFactor(calls[1..])
  }

  function TargetFactor(record: Record): Option<Factor> {
    if record.collateralFactorChange then FirstFactor(record.targetCalls) else None
  }

  function RefreshDestination(record: Record, target: Factor, current: nat): Record {
    var destination := DestinationStatusFromFactor(record.sourceStatus, current, target.mantissa);
    record.(destinationStatus := destination, status := CombineChangeStatus(record.sourceStatus, destination, true))
  }

  function SourceStep(view: View, record: Record): Result<Record> {
    var raw :- view.rawState(record.proposalId);
    Ok(RefreshSource(record, raw))
  }

  function DestinationStep(view: View, record: Record): Result<Record> {
    var target := TargetFactor(record);
    if target.None? then Ok(record)
    else
      var current :- view.factor(target.value.market);
      Ok(RefreshDestination(record, target.value, current))
  }

  /** The records after the first n of them were refreshed; a failing read ends the pass. */
  function Pass(step: Record -> Result<Record>, changes: seq<Record>, n: nat): Progress
    requires n <= |changes|
    ensures |Pass(step, changes, n).changes| == |changes|
  {
    if n == 0 then Progress(changes, false)
    else
      var front := Pass(step, changes, n - 1);
      if front.failed then front
      else
        match step(changes[n - 1])
        case Err(_) => Progress(front.changes, true)
        case Ok(record) => Progress(front.changes[n - 1 := record], false)
  }

  // ---------- a tick ----------

  datatype Index = Index(changes: seq<Record>, sourceCursor: Option<Cursor>, destinationCursor: Option<Cursor>)

  function SyncMoonwellGovernor(view: View, index: Index): (Index, bool) {
    var synced := SyncRange(view, index.changes, FromProposalId(index.sourceCursor), view.proposalCount + 1);
    if synced.failed then (index.(changes := synced.changes), false)
    else
      (index.(changes := synced.changes,
              sourceCursor := Some(NextCursor(view.ethereum, index.sourceCursor, view.proposalCount))), true)
  }

  function RefreshIndexedChangeStatuses(view: View, index: Index): (Index, bool) {
    var passed := Pass(r => SourceStep(view, r), index.changes, |index.changes|);
    (index.(changes := passed.changes), !passed.failed)
  }

  function RefreshDestinationStatuses(view: View, base: ChainView, index: Index): (Index, bool) {
    var passed := Pass(r => DestinationStep(view, r), index.changes, |index.changes|);
    if passed.failed then (index.(changes := passed.changes), false)
    else
      var last := if index.destinationCursor.Some? then index.destinationCursor.value.lastProposalId else 0;
      (index.(changes := passed.changes,
              destinationCursor := Some(NextCursor(base, index.destinationCursor, last))), true)
  }

  /** The store after the three passes of runMonitorTick; the first one that fails ends the tick. */
  function Tick(view: View, index: Index): (Index, bool) {
    var (synced, ok) := SyncMoonwellGovernor(view, index);
    if !ok then (synced, false)
    else
      var (refreshed, alsoOk) := RefreshIndexedChangeStatuses(view, synced);
      if !alsoOk then (refreshed, false)
      else if view.base.None? then (refreshed, true)
      else RefreshDestinationStatuses(view, view.base.value, refreshed)
  }

  /** The store after ticks over these views, in order. */
  function Ticks(index: Index, views: seq<View>): Index {
    if views == [] then index else Tick(views[|views| - 1], Ticks(index, views[..|views| - 1])).0
  }

  datatype Transition = Transition(proposalId: nat, from: ChangeStatus, to: ChangeStatus)

  /** The records whose status differs from the one they had before the tick. */
  function Transitions(before: seq<Record>, after: seq<Record>): seq<Transition> {
    if after == [] then []
    else
      var n := |after| - 1;
      var record := after[n];
      var i := IndexOf(before, record.proposalId);
      Transitions(before, after[..n])
      + if i < |before| && before[i].status != record.status
        then [Transition(record.proposalId, before[i].status, record.status)] else []
  }

  // ---------- what every reachable index satisfies ----------

  ghost predicate UniqueIds(changes: seq<Record>) {
    forall i, j :: 0 <= i < j < |changes| ==> changes[i].proposalId != changes[j].proposalId
  }

  predicate HasDestination(record: Record) {
    record.supportLevel != UNSUPPORTED
  }

  /**
   * A change with Base calls has the combined status of both chains. One without has the source
   * status, or the status a refresh gives it by mistake. Without a decoded factor to compare, the
   * destination is never more than pending.
   */
  ghost predicate RecordOk(record: Record) {
    && record.targetCalls != []
    && record.sourceStatus == MapMultichainGovernorState(record.rawGovernorState)
    && (HasDestination(record) ==>
          record.status == CombineChangeStatus(record.sourceStatus, record.destinationStatus, true))
    && (!HasDestination(record) ==>
          && !record.collateralFactorChange
          && record.destinationStatus == UNKNOWN
          && (record.status == record.sourceStatus
              || (record.sourceStatus == EXECUTED && record.status == DESTINATION_PENDING)))
    && (TargetFactor(record).None? ==>
          record.destinationStatus == UNKNOWN || record.destinationStatus == DESTINATION_PENDING)
  }

  ghost predicate ChangesOk(changes: seq<Record>) {
    UniqueIds(changes) && forall i :: 0 <= i < |changes| ==> RecordOk(changes[i])
  }

  /** EXECUTED needs both sides executed. */
  lemma ExecutedNeedsBothSides(record: Record)
    requires RecordOk(record) && HasDestination(record)
    ensures record.status == EXECUTED <==> record.sourceStatus == EXECUTED && record.destinationStatus == EXECUTED
  {
  }

  /**
   * A refresh takes any calls for destination calls. It gives the combined status exactly when the
   * change has destination calls or its source is not executed.
   */
  lemma RefreshRightIff(record: Record, rawState: nat)
    requires RecordOk(record)
    requires MapMultichainGovernorState(rawState) != record.sourceStatus || rawState != record.rawGovernorState
    ensures var after := RefreshSource(record, rawState);
            after.status == CombineChangeStatus(after.sourceStatus, after.destinationStatus, HasDestination(record))
            <==> HasDestination(record) || after.sourceStatus != EXECUTED
  {
  }

  /** A proposal with source calls only, executed after it was indexed, is shown as pending on the destination. */
  lemma SourceOnlyNeverExecuted(id: nat, p: Proposal, pendingState: nat)
    requires p.sourceCalls != [] && BaseDestinationCalls(p.batches) == [] && pendingState != 5
    ensures var record := NormalizeGovernorProposal(id, p, pendingState);
            && RefreshSource(record, 5).status == DESTINATION_PENDING
            && NormalizeGovernorProposal(id, p, 5).status == EXECUTED
  {
  }

  lemma NormalizedOk(id: nat, p: Proposal, rawState: nat)
    requires p.sourceCalls != []
    ensures RecordOk(NormalizeGovernorProposal(id, p, rawState))
    ensures NormalizeGovernorProposal(id, p, rawState).proposalId == id
  {
  }

  lemma SourceStepOk(view: View, record: Record)
    requires RecordOk(record) && SourceStep(view, record).Ok?
    ensures RecordOk(SourceStep(view, record).value)
    ensures SourceStep(view, record).value.proposalId == record.proposalId
  {
  }

  lemma DestinationStepOk(view: View, record: Record)
    requires RecordOk(record) && DestinationStep(view, record).Ok?
    ensures RecordOk(DestinationStep(view, record).value)
    ensures DestinationStep(view, record).value.proposalId == record.proposalId
  {
  }

  // ---------- the store keeps its ids ----------

  ghost predicate HasId(changes: seq<Record>, id: nat) {
    exists i :: 0 <= i < |changes| && changes[i].proposalId == id
  }

  lemma UpsertKeeps(changes: seq<Record>, record: Record, id: nat)
    requires ChangesOk(changes) && RecordOk(record)
    ensures ChangesOk(Upsert(changes, record))
    ensures HasId(Upsert(changes, record), id) <==> id == record.proposalId || HasId(changes, id)
  {
    hide RecordOk;
    var i := IndexOf(changes, record.proposalId);
    var after := Upsert(changes, record);
    if i < |changes| {
      assert after[i].proposalId == record.proposalId;
    } else {
      assert after[|changes|] == record;
    }
    if HasId(changes, id) {
      var k :| 0 <= k < |changes| && changes[k].proposalId == id;
      assert after[k].proposalId == id;
    }
  }

  /** A proposal without targets at the time it was read. */
  ghost predicate Empty(view: View, id: nat) {
    view.proposal(id).Ok? && view.proposal(id).value.sourceCalls == []
  }

  lemma SyncOneKeeps(view: View, changes: seq<Record>, id: nat, other: nat)
    requires ChangesOk(changes)
    ensures ChangesOk(SyncOne(view, changes, id).changes)
    ensures HasId(changes, other) ==> HasId(SyncOne(view, changes, id).changes, other)
    ensures !SyncOne(view, changes, id).failed ==> Empty(view, id) || HasId(SyncOne(view, changes, id).changes, id)
  {
    hide ChangesOk, HasId, RecordOk;
    if view.proposal(id).Ok? && view.rawState(id).Ok? {
      var p, raw := view.proposal(id).value, view.rawState(id).value;
      if p.sourceCalls != [] {
        NormalizedOk(id, p, raw);
        UpsertKeeps(changes, NormalizeGovernorProposal(id, p, raw), other);
        UpsertKeeps(changes, NormalizeGovernorProposal(id, p, raw), id);
      }
    }
  }

  /** A loop that ends well has been at every id of its range. */
  lemma {:induction false} SyncRangeKeeps(view: View, changes: seq<Record>, from: nat, end: nat, id: nat)
    requires ChangesOk(changes)
    ensures var synced := SyncRange(view, changes, from, end);
            && ChangesOk(synced.changes)
            && (HasId(changes, id) ==> HasId(synced.changes, id))
            && (!synced.failed && from <= id < end ==> Empty(view, id) || HasId(synced.changes, id))
    decreases end
  {
    hide ChangesOk, HasId, SyncOne, Empty;
    if from < end {
      SyncRangeKeeps(view, changes, from, end - 1, id);
      var front := SyncRange(view, changes, from, end - 1);
      if !front.failed {
        SyncOneKeeps(view, front.changes, end - 1, id);
      }
    }
  }

  /** Every step keeps ids and the invariant of a record. */
  ghost predicate Sound(step: Record -> Result<Record>) {
    forall r :: RecordOk(r) && step(r).Ok? ==> RecordOk(step(r).value) && step(r).value.proposalId == r.proposalId
  }

  /** A pass refreshes each record in place; when no read fails, all of them. */
  lemma {:induction false} PassKeeps(step: Record -> Result<Record>, changes: seq<Record>, n: nat)
    requires ChangesOk(changes) && Sound(step) && n <= |changes|
    ensures var passed := Pass(step, changes, n);
            && ChangesOk(passed.changes)
            && (forall i :: 0 <= i < |changes| ==> passed.changes[i].proposalId == changes[i].proposalId)
            && (forall i :: n <= i < |changes| ==> passed.changes[i] == changes[i])
            && (!passed.failed ==> forall i :: 0 <= i < n ==> step(changes[i]) == Ok(passed.changes[i]))
  {
    hide RecordOk;
    if n > 0 {
      PassKeeps(step, changes, n - 1);
    }
  }

  lemma SameIdsSameHasId(a: seq<Record>, b: seq<Record>, id: nat)
    requires |a| == |b| && forall i :: 0 <= i < |a| ==> a[i].proposalId == b[i].proposalId
    ensures HasId(a, id) <==> HasId(b, id)
  {
    if HasId(a, id) {
      var i :| 0 <= i < |a| && a[i].proposalId == id;
      assert b[i].proposalId == id;
    }
  }

  /** Every proposal from the first to the cursor is in the index, or had no targets when it was read. */
  ghost predicate Covered(index: Index, views: seq<View>) {
    index.sourceCursor.Some? ==>
      forall id :: FIRST_ETHEREUM_GOVERNOR_PROPOSAL <= id <= index.sourceCursor.value.lastProposalId ==>
        HasId(index.changes, id) || exists v :: 0 <= v < |views| && Empty(views[v], id)
  }

  ghost predicate IndexOk(index: Index, views: seq<View>) {
    ChangesOk(index.changes) && Covered(index, views)
  }

  lemma PassKeepsIndex(step: Record -> Result<Record>, index: Index, views: seq<View>, after: Index)
    requires IndexOk(index, views) && Sound(step)
    requires after.changes == Pass(step, index.changes, |index.changes|).changes
    requires after.sourceCursor == index.sourceCursor
    ensures IndexOk(after, views)
  {
    hide ChangesOk, HasId, Sound, Empty;
    PassKeeps(step, index.changes, |index.changes|);
    forall id: nat
      ensures HasId(after.changes, id) <==> HasId(index.changes, id)
    {
      SameIdsSameHasId(after.changes, index.changes, id);
    }
  }

  lemma SyncKeepsIndex(view: View, index: Index, views: seq<View>)
    requires IndexOk(index, views)
    ensures IndexOk(SyncMoonwellGovernor(view, index).0, views + [view])
  {
    hide ChangesOk, HasId, SyncRange, Empty;
    var from, end := FromProposalId(index.sourceCursor), view.proposalCount + 1;
    var after := SyncMoonwellGovernor(view, index).0;
    SyncRangeKeeps(view, index.changes, from, end, 0);
    if after.sourceCursor.Some? {
      forall id | FIRST_ETHEREUM_GOVERNOR_PROPOSAL <= id <= after.sourceCursor.value.lastProposalId
        ensures HasId(after.changes, id) || exists v :: 0 <= v < |views + [view]| && Empty((views + [view])[v], id)
      {
        SyncRangeKeeps(view, index.changes, from, end, id);
        assert (views + [view])[|views|] == view;
        if index.sourceCursor.Some? && id <= index.sourceCursor.value.lastProposalId && !HasId(index.changes, id) {
          var v :| 0 <= v < |views| && Empty(views[v], id);
          assert (views + [view])[v] == views[v];
        }
      }
    }
  }

  lemma TickKeepsIndex(view: View, index: Index, views: seq<View>)
    requires IndexOk(index, views)
    ensures IndexOk(Tick(view, index).0, views + [view])
  {
    hide IndexOk, Pass, Sound, SourceStep, DestinationStep, SyncMoonwellGovernor;
    SyncKeepsIndex(view, index, views);
    var (synced, ok) := SyncMoonwellGovernor(view, index);
    if ok {
      StepsSound(view);
      var (refreshed, alsoOk) := RefreshIndexedChangeStatuses(view, synced);
      PassKeepsIndex(r => SourceStep(view, r), synced, views + [view], refreshed);
      if alsoOk && view.base.Some? {
        PassKeepsIndex(r => DestinationStep(view, r), refreshed, views + [view],
                       RefreshDestinationStatuses(view, view.base.value, refreshed).0);
      }
    }
  }

  lemma StepsSound(view: View)
    ensures Sound(r => SourceStep(view, r)) && Sound(r => DestinationStep(view, r))
  {
    forall r | RecordOk(r)
      ensures SourceStep(view, r).Ok? ==>
                RecordOk(SourceStep(view, r).value) && SourceStep(view, r).value.proposalId == r.proposalId
      ensures DestinationStep(view, r).Ok? ==>
                RecordOk(DestinationStep(view, r).value) && DestinationStep(view, r).value.proposalId == r.proposalId
    {
      if SourceStep(view, r).Ok? {
        SourceStepOk(view, r);
      }
      if DestinationStep(view, r).Ok? {
        DestinationStepOk(view, r);
      }
    }
  }

  /** After any ticks over any views, failing reads included. */
  lemma {:induction false} ReachableIndexOk(views: seq<View>)
    ensures IndexOk(Ticks(Index([], None, None), views), views)
    decreases |views|
  {
    if views != [] {
      var front := views[..|views| - 1];
      ReachableIndexOk(front);
      TickKeepsIndex(views[|views| - 1], Ticks(Index([], None, None), front), front);
      assert front + [views[|views| - 1]] == views;
    }
  }

  // ---------- a change with source calls only ----------

  /** A tick that does not sync the proposal anew, and finds it still executed if it can read it. */
  ghost predicate LeavesAlone(view: View, index: Index, id: nat) {
    && (id < FromProposalId(index.sourceCursor) || id > view.proposalCount)
    && (view.rawState(id).Ok? ==> view.rawState(id).value == 5)
  }

  lemma OtherSynced(view: View, changes: seq<Record>, id: nat, record: Record)
    requires record in changes && record.proposalId != id
    ensures record in SyncOne(view, changes, id).changes
  {
    if view.proposal(id).Ok? && view.rawState(id).Ok? && view.proposal(id).value.sourceCalls != [] {
      var anew := NormalizeGovernorProposal(id, view.proposal(id).value, view.rawState(id).value);
      var k :| 0 <= k < |changes| && changes[k] == record;
      assert Upsert(changes, anew)[k] == record;
    }
  }

  lemma {:induction false} OthersSynced(view: View, changes: seq<Record>, from: nat, end: nat, record: Record)
    requires record in changes && (record.proposalId < from || record.proposalId >= end)
    ensures record in SyncRange(view, changes, from, end).changes
    decreases end
  {
    hide SyncOne;
    if from < end {
      OthersSynced(view, changes, from, end - 1, record);
      OtherSynced(view, SyncRange(view, changes, from, end - 1).changes, end - 1, record);
    }
  }

  lemma {:induction false} PassLeaves(
      step: Record -> Result<Record>, changes: seq<Record>, n: nat, record: Record, k: nat)
    requires n <= |changes| && k < |changes| && changes[k] == record
    requires step(record).Ok? ==> step(record).value == record
    ensures Pass(step, changes, n).changes[k] == record
  {
    if n > 0 {
      PassLeaves(step, changes, n - 1, record, k);
    }
  }

  lemma PassLeavesRecord(step: Record -> Result<Record>, changes: seq<Record>, record: Record)
    requires record in changes && (step(record).Ok? ==> step(record).value == record)
    ensures record in Pass(step, changes, |changes|).changes
  {
    var k :| 0 <= k < |changes| && changes[k] == record;
    PassLeaves(step, changes, |changes|, record, k);
  }

  lemma TickLeavesPending(view: View, index: Index, record: Record)
    requires record in index.changes && RecordOk(record) && !HasDestination(record)
    requires record.status == DESTINATION_PENDING && LeavesAlone(view, index, record.proposalId)
    ensures record in Tick(view, index).0.changes
  {
    hide SyncRange, Pass, NextCursor;
    OthersSynced(view, index.changes, FromProposalId(index.sourceCursor), view.proposalCount + 1, record);
    var (synced, ok) := SyncMoonwellGovernor(view, index);
    PassLeavesRecord(r => SourceStep(view, r), synced.changes, record);
    var refreshed := RefreshIndexedChangeStatuses(view, synced).0;
    PassLeavesRecord(r => DestinationStep(view, r), refreshed.changes, record);
  }

  /**
   * Once a change with source calls only is shown as pending on a destination it does not have, it
   * stays so through all ticks that do not sync its proposal anew.
   */
  lemma {:induction false} SourceOnlyStaysPending(index: Index, views: seq<View>, record: Record)
    requires record in index.changes && RecordOk(record) && !HasDestination(record)
    requires record.status == DESTINATION_PENDING
    requires forall i :: 0 <= i < |views| ==> LeavesAlone(views[i], Ticks(index, views[..i]), record.proposalId)
    ensures record in Ticks(index, views).changes
    decreases |views|
  {
    hide Tick, LeavesAlone, RecordOk;
    if views != [] {
      var front := views[..|views| - 1];
      assert forall i :: 0 <= i < |front| ==> front[..i] == views[..i];
      SourceOnlyStaysPending(index, front, record);
      TickLeavesPending(views[|views| - 1], Ticks(index, front), record);
    }
  }

  // ---------- a second tick on an unchanged chain ----------

  /** The record after both passes of a tick. */
  function Settled(view: View, record: Record): Result<Record> {
    var refreshed :- SourceStep(view, record);
    if view.base.None? then Ok(refreshed) else DestinationStep(view, refreshed)
  }

  lemma SettledStays(view: View, record: Record)
    requires Settled(view, record).Ok?
    ensures SourceStep(view, Settled(view, record).value) == Ok(Settled(view, record).value)
    ensures view.base.Some? ==> DestinationStep(view, Settled(view, record).value) == Ok(Settled(view, record).value)
  {
  }

  lemma {:induction false} StillPass(step: Record -> Result<Record>, changes: seq<Record>, n: nat)
    requires n <= |changes| && forall i :: 0 <= i < n ==> step(changes[i]) == Ok(changes[i])
    ensures Pass(step, changes, n) == Progress(changes, false)
  {
    if n > 0 {
      StillPass(step, changes, n - 1);
    }
  }

  /** A tick whose reads all work settles every record that the sync left. */
  lemma TickSettles(view: View, index: Index)
    requires ChangesOk(index.changes) && Tick(view, index).1
    ensures SyncMoonwellGovernor(view, index).1
    ensures var synced := SyncMoonwellGovernor(view, index).0.changes;
            var after := Tick(view, index).0.changes;
            && ChangesOk(synced)
            && |after| == |synced|
            && forall i :: 0 <= i < |synced| ==>
                 after[i].proposalId == synced[i].proposalId && Settled(view, synced[i]) == Ok(after[i])
  {
    hide ChangesOk, SyncRange, SourceStep, DestinationStep, Pass, Sound;
    var (synced, ok) := SyncMoonwellGovernor(view, index);
    SyncRangeKeeps(view, index.changes, FromProposalId(index.sourceCursor), view.proposalCount + 1, 0);
    StepsSound(view);
    PassKeeps(r => SourceStep(view, r), synced.changes, |synced.changes|);
    var (refreshed, alsoOk) := RefreshIndexedChangeStatuses(view, synced);
    if view.base.Some? {
      PassKeeps(r => DestinationStep(view, r), refreshed.changes, |refreshed.changes|);
    }
  }

  lemma LastSynced(view: View, changes: seq<Record>, from: nat, end: nat)
    requires ChangesOk(changes) && from < end && !SyncRange(view, changes, from, end).failed
    requires !Empty(view, end - 1)
    ensures view.proposal(end - 1).Ok? && view.rawState(end - 1).Ok?
    ensures var synced := SyncRange(view, changes, from, end).changes;
            var record :=
              NormalizeGovernorProposal(end - 1, view.proposal(end - 1).value, view.rawState(end - 1).value);
            exists i :: 0 <= i < |synced| && synced[i] == record
  {
    hide RecordOk, NormalizeGovernorProposal;
    var front := SyncRange(view, changes, from, end - 1).changes;
    var record := NormalizeGovernorProposal(end - 1, view.proposal(end - 1).value, view.rawState(end - 1).value);
    var i := IndexOf(front, record.proposalId);
    assert Upsert(front, record)[i] == record;
  }

  /** Normalising the last proposal once more and settling it gives the settled record again. */
  lemma ResyncedSettles(view: View, after: seq<Record>, i: nat, record: Record)
    requires UniqueIds(after) && i < |after| && Settled(view, record) == Ok(after[i])
    requires record.proposalId == after[i].proposalId
    ensures Upsert(after, record) == after[i := record]
  {
    assert IndexOf(after, record.proposalId) == i;
  }

  ghost predicate AllSettled(view: View, changes: seq<Record>, after: seq<Record>) {
    |changes| == |after| && forall i :: 0 <= i < |changes| ==> Settled(view, changes[i]) == Ok(after[i])
  }

  /** Records that settle as they did before settle the same. */
  lemma SettledPasses(view: View, index: Index, after: seq<Record>)
    requires ChangesOk(index.changes) && AllSettled(view, index.changes, after)
    ensures var (refreshed, ok) := RefreshIndexedChangeStatuses(view, index);
            && ok
            && (view.base.None? ==> refreshed.changes == after)
            && (view.base.Some? ==>
                  var (done, alsoOk) := RefreshDestinationStatuses(view, view.base.value, refreshed);
                  alsoOk && done.changes == after)
  {
    hide ChangesOk, SourceStep, DestinationStep, Pass, Sound, RecordOk;
    StepsSound(view);
    var source := r => SourceStep(view, r);
    NoFailure(source, index.changes, |index.changes|);
    PassKeeps(source, index.changes, |index.changes|);
    var (refreshed, ok) := RefreshIndexedChangeStatuses(view, index);
    if view.base.Some? {
      var destination := r => DestinationStep(view, r);
      NoFailure(destination, refreshed.changes, |refreshed.changes|);
      PassKeeps(destination, refreshed.changes, |refreshed.changes|);
    }
  }

  lemma {:induction false} NoFailure(step: Record -> Result<Record>, changes: seq<Record>, n: nat)
    requires n <= |changes| && forall i :: 0 <= i < n ==> step(changes[i]).Ok?
    ensures !Pass(step, changes, n).failed
  {
    if n > 0 {
      NoFailure(step, changes, n - 1);
    }
  }

  lemma SettledSelf(view: View, changes: seq<Record>, after: seq<Record>)
    requires AllSettled(view, changes, after)
    ensures AllSettled(view, after, after)
  {
    hide SourceStep, DestinationStep;
    forall i | 0 <= i < |after|
      ensures Settled(view, after[i]) == Ok(after[i])
    {
      SettledStays(view, changes[i]);
    }
  }

  /** What a second sync over the same view leaves settles to what the first tick left. */
  lemma ResyncSettles(view: View, synced: seq<Record>, after: seq<Record>, from: nat, count: nat)
    requires ChangesOk(after) && AllSettled(view, synced, after)
    requires forall i :: 0 <= i < |synced| ==> after[i].proposalId == synced[i].proposalId
    requires Empty(view, count)
          || (view.proposal(count).Ok? && view.rawState(count).Ok?
              && exists i :: 0 <= i < |synced|
                   && synced[i]
                      == NormalizeGovernorProposal(count, view.proposal(count).value, view.rawState(count).value))
    ensures !SyncOne(view, after, count).failed
    ensures AllSettled(view, SyncOne(view, after, count).changes, after)
  {
    hide NormalizeGovernorProposal, Settled, RecordOk;
    SettledSelf(view, synced, after);
    if !Empty(view, count) {
      var record := NormalizeGovernorProposal(count, view.proposal(count).value, view.rawState(count).value);
      var i :| 0 <= i < |synced| && synced[i] == record;
      ResyncedSettles(view, after, i, record);
    }
  }

  /**
   * On an unchanged chain a second tick changes nothing, as long as the governor's proposal count
   * has not moved back before the first one.
   */
  lemma SecondTickIsQuiet(view: View, index: Index)
    requires ChangesOk(index.changes) && Tick(view, index).1
    requires FromProposalId(index.sourceCursor) <= view.proposalCount
          || view.proposalCount < FIRST_ETHEREUM_GOVERNOR_PROPOSAL
    ensures var first := Tick(view, index).0;
            var (second, ok) := Tick(view, first);
            ok && second.changes == first.changes && Transitions(first.changes, second.changes) == []
  {
    hide ChangesOk, AllSettled, Settled, SyncRange, Pass, NextCursor;
    var first := Tick(view, index).0;
    var synced := SyncMoonwellGovernor(view, index).0.changes;
    TickSettles(view, index);
    FirstTickState(view, index);
    SecondSync(view, index, synced, first);
    var again := SyncMoonwellGovernor(view, first).0;
    SettledPasses(view, again, first.changes);
    NoTransitions(first.changes, |first.changes|);
    assert first.changes[..|first.changes|] == first.changes;
  }

  lemma FirstTickState(view: View, index: Index)
    requires ChangesOk(index.changes) && Tick(view, index).1
    ensures AllSettled(view, SyncMoonwellGovernor(view, index).0.changes, Tick(view, index).0.changes)
    ensures ChangesOk(Tick(view, index).0.changes)
    ensures Tick(view, index).0.sourceCursor.Some?
    ensures Tick(view, index).0.sourceCursor.value.lastProposalId == view.proposalCount
  {
    hide Settled, SyncRange, Pass, RecordOk, SourceStep, DestinationStep, Sound;
    TickSettles(view, index);
    var (synced, ok) := SyncMoonwellGovernor(view, index);
    StepsSound(view);
    PassKeeps(r => SourceStep(view, r), synced.changes, |synced.changes|);
    if view.base.Some? {
      var (refreshed, alsoOk) := RefreshIndexedChangeStatuses(view, synced);
      PassKeeps(r => DestinationStep(view, r), refreshed.changes, |refreshed.changes|);
    }
  }

  lemma SecondSync(view: View, index: Index, synced: seq<Record>, first: Index)
    requires ChangesOk(index.changes) && ChangesOk(first.changes)
    requires SyncMoonwellGovernor(view, index).1 && synced == SyncMoonwellGovernor(view, index).0.changes
    requires AllSettled(view, synced, first.changes)
    requires forall i :: 0 <= i < |synced| ==> first.changes[i].proposalId == synced[i].proposalId
    requires first.sourceCursor.Some? && first.sourceCursor.value.lastProposalId == view.proposalCount
    requires FromProposalId(index.sourceCursor) <= view.proposalCount
          || view.proposalCount < FIRST_ETHEREUM_GOVERNOR_PROPOSAL
    ensures SyncMoonwellGovernor(view, first).1
    ensures ChangesOk(SyncMoonwellGovernor(view, first).0.changes)
    ensures AllSettled(view, SyncMoonwellGovernor(view, first).0.changes, first.changes)
  {
    hide ChangesOk, Settled, SyncOne, NextCursor, NormalizeGovernorProposal, Empty;
    var count := view.proposalCount;
    SyncRangeKeeps(view, first.changes, FromProposalId(first.sourceCursor), count + 1, 0);
    SettledSelf(view, synced, first.changes);
    if count >= FIRST_ETHEREUM_GOVERNOR_PROPOSAL {
      var from := FromProposalId(index.sourceCursor);
      if !Empty(view, count) {
        LastSynced(view, index.changes, from, count + 1);
      }
      ResyncSettles(view, synced, first.changes, from, count);
      assert SyncRange(view, first.changes, count, count) == Progress(first.changes, false);
    }
  }

  lemma {:induction false} NoTransitions(changes: seq<Record>, n: nat)
    requires ChangesOk(changes) && n <= |changes|
    ensures Transitions(changes, changes[..n]) == []
  {
    if n > 0 {
      NoTransitions(changes, n - 1);
      assert changes[..n][..n - 1] == changes[..n - 1];
      assert IndexOf(changes, changes[n - 1].proposalId) == n - 1;
    }
  }

  lemma {:induction false} NoTransitionsIff(before: seq<Record>, after: seq<Record>)
    ensures Transitions(before, after) == []
       <==> forall k :: 0 <= k < |after| ==>
              var i := IndexOf(before, after[k].proposalId);
              i < |before| ==> before[i].status == after[k].status
    decreases |after|
  {
    if after != [] {
      var front := after[..|after| - 1];
      NoTransitionsIff(before, front);
      assert forall k :: 0 <= k < |front| ==> front[k] == after[k];
    }
  }

  /** The cursor stands behind the last proposal: nothing is synced. */
  predicate MovedBack(view: View, index: Index) {
    FIRST_ETHEREUM_GOVERNOR_PROPOSAL <= view.proposalCount < FromProposalId(index.sourceCursor)
  }

  /** The last proposal as a sync reads it now. */
  function Fresh(view: View): Record
    requires view.proposal(view.proposalCount).Ok? && view.rawState(view.proposalCount).Ok?
  {
    NormalizeGovernorProposal(view.proposalCount, view.proposal(view.proposalCount).value,
                              view.rawState(view.proposalCount).value)
  }

  /** A record of the last proposal is indexed, and reading the proposal anew gives it another status. */
  ghost predicate ResyncDiffers(view: View, changes: seq<Record>) {
    var i := IndexOf(changes, view.proposalCount);
    && i < |changes| && !Empty(view, view.proposalCount)
    && view.proposal(view.proposalCount).Ok? && view.rawState(view.proposalCount).Ok?
    && Settled(view, Fresh(view)).Ok?
    && Settled(view, Fresh(view)).value.status != changes[i].status
  }

  lemma MovedBackFirst(view: View, index: Index)
    requires ChangesOk(index.changes) && Tick(view, index).1 && MovedBack(view, index)
    ensures var first := Tick(view, index).0;
            && AllSettled(view, first.changes, first.changes) && ChangesOk(first.changes)
            && first.sourceCursor.Some? && first.sourceCursor.value.lastProposalId == view.proposalCount
  {
    hide ChangesOk, Tick, NextCursor, AllSettled;
    FirstTickState(view, index);
    SettledSelf(view, SyncMoonwellGovernor(view, index).0.changes, Tick(view, index).0.changes);
  }

  /** The second tick reads the last proposal again and settles it. */
  lemma MovedBackSecond(view: View, first: Index)
    requires ChangesOk(first.changes) && AllSettled(view, first.changes, first.changes) && Tick(view, first).1
    requires first.sourceCursor.Some? && first.sourceCursor.value.lastProposalId == view.proposalCount
    requires FIRST_ETHEREUM_GOVERNOR_PROPOSAL <= view.proposalCount
    ensures var second := Tick(view, first).0.changes;
            if Empty(view, view.proposalCount) then second == first.changes
            else
              && view.proposal(view.proposalCount).Ok? && view.rawState(view.proposalCount).Ok?
              && Settled(view, Fresh(view)).Ok?
              && second == Upsert(first.changes, Settled(view, Fresh(view)).value)
              && Settled(view, Fresh(view)).value.proposalId == view.proposalCount
  {
    hide ChangesOk, Tick, NextCursor, Settled, NormalizeGovernorProposal;
    var count := view.proposalCount;
    var synced := SyncMoonwellGovernor(view, first).0.changes;
    var second := Tick(view, first).0.changes;
    TickSettles(view, first);
    assert SyncRange(view, first.changes, count, count) == Progress(first.changes, false);
    assert SyncRange(view, first.changes, count, count + 1) == SyncOne(view, first.changes, count);
    if Empty(view, count) {
      assert second == first.changes;
    } else {
      var anew := Fresh(view);
      FreshId(view);
      assert synced == Upsert(first.changes, anew);
      var i := IndexOf(first.changes, count);
      assert Settled(view, synced[i]) == Ok(second[i]) && synced[i] == anew;
      assert forall k :: 0 <= k < |first.changes| && k != i ==> synced[k] == first.changes[k];
      assert second == Upsert(first.changes, second[i]);
    }
  }

  lemma FreshId(view: View)
    requires view.proposal(view.proposalCount).Ok? && view.rawState(view.proposalCount).Ok?
    ensures Fresh(view).proposalId == view.proposalCount
  {
  }

  lemma UpsertTransitions(changes: seq<Record>, record: Record)
    requires ChangesOk(changes)
    ensures Transitions(changes, Upsert(changes, record)) == []
       <==> var i := IndexOf(changes, record.proposalId); i < |changes| ==> changes[i].status == record.status
  {
    hide RecordOk, Transitions, IndexOf;
    var after := Upsert(changes, record);
    NoTransitionsIff(changes, after);
    var i := IndexOf(changes, record.proposalId);
    forall k | 0 <= k < |changes|
      ensures IndexOf(changes, changes[k].proposalId) == k
    {
      var found := IndexOf(changes, changes[k].proposalId);
      assert found <= k;
    }
    assert after[i] == record;
    assert forall k :: 0 <= k < |changes| && k != i ==> after[k] == changes[k];
  }

  /**
   * The exact condition for a quiet second tick on an unchanged chain: it shows transitions exactly
   * when the proposal count had moved back before the first tick, and the record of what is now the
   * last proposal gets another status from reading that proposal anew than from being refreshed.
   */
  lemma SecondTickQuietIff(view: View, index: Index)
    requires ChangesOk(index.changes) && Tick(view, index).1 && Tick(view, Tick(view, index).0).1
    ensures var first := Tick(view, index).0;
            Transitions(first.changes, Tick(view, first).0.changes) == []
            <==> !(MovedBack(view, index) && ResyncDiffers(view, first.changes))
  {
    hide ChangesOk, Tick, FromProposalId, Settled, AllSettled, Empty, Fresh, Transitions, Upsert;
    var first := Tick(view, index).0;
    if MovedBack(view, index) {
      MovedBackFirst(view, index);
      MovedBackSecond(view, first);
      NoTransitions(first.changes, |first.changes|);
      assert first.changes[..|first.changes|] == first.changes;
      if !Empty(view, view.proposalCount) {
        UpsertTransitions(first.changes, Settled(view, Fresh(view)).value);
      }
    } else {
      SecondTickIsQuiet(view, index);
    }
  }

  /** A proposal with one source call, the only one among empty ones, in this state. */
  function OnlySource(ethereum: ChainView, count: nat, rawState: nat): View {
    View(ethereum, None, count,
         id => Ok(Proposal(if id == FIRST_ETHEREUM_GOVERNOR_PROPOSAL then [OtherCall] else [], [], (0, 0, 0))),
         _ => Ok(rawState), _ => Err("no Base client"))
  }

  lemma SingleRefresh(view: View, record: Record, after: Record)
    requires SourceStep(view, record) == Ok(after)
    ensures Pass(r => SourceStep(view, r), [record], 1) == Progress([after], false)
  {
    var step := r => SourceStep(view, r);
    assert Pass(step, [record], 0) == Progress([record], false);
    assert [record][0 := after] == [after];
  }

  lemma IndexedWhileProposed(view: View, record: Record)
    requires view == OnlySource(view.ethereum, FIRST_ETHEREUM_GOVERNOR_PROPOSAL + 1, 0)
    requires record
          == NormalizeGovernorProposal(FIRST_ETHEREUM_GOVERNOR_PROPOSAL, Proposal([OtherCall], [], (0, 0, 0)), 0)
    ensures var index := Tick(view, Index([], None, None)).0;
            && index.changes == [record] && index.sourceCursor.Some?
            && index.sourceCursor.value.lastProposalId == FIRST_ETHEREUM_GOVERNOR_PROPOSAL + 1
  {
    var id := FIRST_ETHEREUM_GOVERNOR_PROPOSAL;
    assert SyncRange(view, [], id, id) == Progress([], false);
    assert SyncRange(view, [], id, id + 1) == Progress([record], false);
    assert SyncRange(view, [], id, id + 2) == Progress([record], false);
    SingleRefresh(view, record, record);
  }

  lemma MovesBack(view: View, index: Index, record: Record, pending: Record)
    requires view == OnlySource(view.ethereum, FIRST_ETHEREUM_GOVERNOR_PROPOSAL, 5)
    requires record.proposalId == FIRST_ETHEREUM_GOVERNOR_PROPOSAL && pending == RefreshSource(record, 5)
    requires index.changes == [record] && index.sourceCursor.Some?
    requires index.sourceCursor.value.lastProposalId == FIRST_ETHEREUM_GOVERNOR_PROPOSAL + 1
    ensures var first := Tick(view, index).0;
            && first.changes == [pending] && first.sourceCursor.Some?
            && first.sourceCursor.value.lastProposalId == FIRST_ETHEREUM_GOVERNOR_PROPOSAL
  {
    SingleRefresh(view, record, pending);
  }

  lemma SyncedAnew(view: View, index: Index, pending: Record, executed: Record)
    requires view == OnlySource(view.ethereum, FIRST_ETHEREUM_GOVERNOR_PROPOSAL, 5)
    requires pending.proposalId == FIRST_ETHEREUM_GOVERNOR_PROPOSAL
    requires executed
          == NormalizeGovernorProposal(FIRST_ETHEREUM_GOVERNOR_PROPOSAL, Proposal([OtherCall], [], (0, 0, 0)), 5)
    requires index.changes == [pending] && index.sourceCursor.Some?
    requires index.sourceCursor.value.lastProposalId == FIRST_ETHEREUM_GOVERNOR_PROPOSAL
    ensures Tick(view, index).0.changes == [executed]
  {
    var id := FIRST_ETHEREUM_GOVERNOR_PROPOSAL;
    assert Upsert([pending], executed) == [executed];
    assert SyncRange(view, [pending], id, id) == Progress([pending], false);
    assert SyncRange(view, [pending], id, id + 1) == Progress([executed], false);
    SingleRefresh(view, executed, executed);
  }

  lemma ThreeTicks(index: Index, a: View, b: View)
    ensures Ticks(index, [a, b]) == Tick(b, Tick(a, index).0).0
    ensures Ticks(index, [a, b, b]) == Tick(b, Ticks(index, [a, b])).0
  {
    hide Tick;
    assert [a, b, b][..2] == [a, b] && [a, b][..1] == [a] && [a][..0] == [];
    assert Ticks(index, [a]) == Tick(a, Ticks(index, [])).0;
  }

  /**
   * From the empty index: the proposal is indexed while it is proposed, the count moves back to it
   * when it is executed, and the tick after that reports it once more.
   */
  lemma CountMovedBackTransitions(ethereum: ChainView)
    ensures var id := FIRST_ETHEREUM_GOVERNOR_PROPOSAL;
            var before, after := OnlySource(ethereum, id + 1, 0), OnlySource(ethereum, id, 5);
            var first := Ticks(Index([], None, None), [before, after]);
            var second := Ticks(Index([], None, None), [before, after, after]);
            Transitions(first.changes, second.changes) == [Transition(id, DESTINATION_PENDING, EXECUTED)]
  {
    hide Tick, Ticks;
    var id := FIRST_ETHEREUM_GOVERNOR_PROPOSAL;
    var before, after := OnlySource(ethereum, id + 1, 0), OnlySource(ethereum, id, 5);
    var p := Proposal([OtherCall], [], (0, 0, 0));
    var proposed, executed := NormalizeGovernorProposal(id, p, 0), NormalizeGovernorProposal(id, p, 5);
    var pending := RefreshSource(proposed, 5);
    IndexedWhileProposed(before, proposed);
    var index := Tick(before, Index([], None, None)).0;
    MovesBack(after, index, proposed, pending);
    SyncedAnew(after, Tick(after, index).0, pending, executed);
    ThreeTicks(Index([], None, None), before, after);
    assert [executed][..0] == [];
  }

  // ---------- the store, and the passes over it ----------

  class GovernanceStore {
    var changes: seq<Record>
    var sourceCursor: Option<Cursor>
    var destinationCursor: Option<Cursor>

    constructor ()
      ensures Contents() == Index([], None, None)
    {
      changes, sourceCursor, destinationCursor := [], None, None;
    }

    function Contents(): Index
      reads this
    {
      Index(changes, sourceCursor, destinationCursor)
    }

    method UpsertIndexedChange(record: Record)
      modifies `changes
      ensures changes == Upsert(old(changes), record)
    {
      var i := IndexOf(changes, record.proposalId);
      changes := if i < |changes| then changes[i := record] else changes + [record];
    }

    method Sync(view: View) returns (ok: bool)
      modifies this
      ensures (Contents(), ok) == SyncMoonwellGovernor(view, old(Contents()))
    {
      hide SyncRange, NextCursor, NormalizeGovernorProposal, FromProposalId;
      var from := FromProposalId(sourceCursor);
      var id := from;
      NothingSynced(view, changes, from);
      while id <= view.proposalCount
        invariant from <= id && (id <= view.proposalCount + 1 || id == from)
        invariant SyncRange(view, old(changes), from, id) == Progress(changes, false)
        invariant sourceCursor == old(sourceCursor) && destinationCursor == old(destinationCursor)
        decreases view.proposalCount + 1 - id
      {
        ghost var before := changes;
        var proposal := view.proposal(id);
        if proposal.Err? {
          SyncFails(view, old(changes), from, id, view.proposalCount + 1);
          return false;
        }
        if proposal.value.sourceCalls != [] {
          var raw := view.rawState(id);
          if raw.Err? {
            SyncFails(view, old(changes), from, id, view.proposalCount + 1);
            return false;
          }
          UpsertIndexedChange(NormalizeGovernorProposal(id, proposal.value, raw.value));
        }
        SyncNext(view, old(changes), from, id, before);
        id := id + 1;
      }
      EmptyRange(view, old(changes), from, id, view.proposalCount + 1);
      sourceCursor := Some(NextCursor(view.ethereum, sourceCursor, view.proposalCount));
      ok := true;
    }

    method RefreshSources(view: View) returns (ok: bool)
      requires UniqueIds(changes)
      modifies `changes
      ensures (Contents(), ok) == RefreshIndexedChangeStatuses(view, old(Contents()))
    {
      ok := RefreshAll(r => SourceStep(view, r));
    }

    method RefreshDestinations(view: View, base: ChainView) returns (ok: bool)
      requires UniqueIds(changes)
      modifies this
      ensures (Contents(), ok) == RefreshDestinationStatuses(view, base, old(Contents()))
    {
      ok := RefreshAll(r => DestinationStep(view, r));
      if ok {
        var last := if destinationCursor.Some? then destinationCursor.value.lastProposalId else 0;
        destinationCursor := Some(NextCursor(base, destinationCursor, last));
      }
    }

    /** The loop of both refreshes: over the records as they were listed, upserting those that differ. */
    method RefreshAll(step: Record -> Result<Record>) returns (ok: bool)
      requires UniqueIds(changes)
      requires forall r :: step(r).Ok? ==> step(r).value.proposalId == r.proposalId
      modifies `changes
      ensures Pass(step, old(changes), |old(changes)|) == Progress(changes, !ok)
    {
      var listed := changes;
      for i := 0 to |listed|
        invariant |changes| == |listed|
        invariant forall k :: 0 <= k < |listed| ==> changes[k].proposalId == listed[k].proposalId
        invariant forall k :: i <= k < |listed| ==> changes[k] == listed[k]
        invariant Pass(step, listed, i) == Progress(changes, false)
      {
        var next := step(listed[i]);
        if next.Err? {
          PassFails(step, listed, i, |listed|);
          return false;
        }
        if next.value != listed[i] {
          assert IndexOf(changes, next.value.proposalId) == i;
          UpsertIndexedChange(next.value);
        } else {
          assert changes[i := next.value] == changes;
        }
      }
      ok := true;
    }

    /** The three passes of a tick; the first one that fails ends it. */
    method RunPasses(view: View) returns (ok: bool)
      requires ChangesOk(changes)
      modifies this
      ensures (Contents(), ok) == Tick(view, old(Contents()))
      ensures ChangesOk(changes)
    {
      hide ChangesOk, SyncRange, Pass, Sound, SourceStep, DestinationStep, NextCursor;
      SyncRangeKeeps(view, changes, FromProposalId(sourceCursor), view.proposalCount + 1, 0);
      StepsSound(view);
      ok := Sync(view);
      if ok {
        UniqueInOk(changes);
        PassKeeps(r => SourceStep(view, r), changes, |changes|);
        ok := RefreshSources(view);
      }
      if ok && view.base.Some? {
        UniqueInOk(changes);
        PassKeeps(r => DestinationStep(view, r), changes, |changes|);
        ok := RefreshDestinations(view, view.base.value);
      }
    }

    /** The snapshot, the passes, and the comparison of runMonitorTick; a failed tick reports nothing. */
    method RunMonitorTick(view: View) returns (transitions: Result<seq<Transition>>)
      requires ChangesOk(changes)
      modifies this
      ensures Contents() == Tick(view, old(Contents())).0
      ensures transitions.Ok? == Tick(view, old(Contents())).1
      ensures transitions.Ok? ==> transitions.value == Transitions(old(changes), changes)
      ensures ChangesOk(changes)
    {
      hide ChangesOk, Tick, Transitions;
      var before := changes;
      var ok := RunPasses(view);
      if !ok {
        return Err("tick failed");
      }
      var found := CompareStatuses(before, changes);
      transitions := Ok(found);
    }
  }

  method CompareStatuses(before: seq<Record>, after: seq<Record>) returns (transitions: seq<Transition>)
    ensures transitions == Transitions(before, after)
  {
    transitions := [];
    for n := 0 to |after|
      invariant transitions == Transitions(before, after[..n])
    {
      assert after[..n + 1][..n] == after[..n];
      var i := IndexOf(before, after[n].proposalId);
      if i < |before| && before[i].status != after[n].status {
        transitions := transitions + [Transition(after[n].proposalId, before[i].status, after[n].status)];
      }
    }
    assert after[..|after|] == after;
  }

  lemma UniqueInOk(changes: seq<Record>)
    requires ChangesOk(changes)
    ensures UniqueIds(changes)
  {
  }

  lemma NothingSynced(view: View, changes: seq<Record>, from: nat)
    ensures SyncRange(view, changes, from, from) == Progress(changes, false)
  {
  }

  lemma SyncNext(view: View, changes: seq<Record>, from: nat, id: nat, before: seq<Record>)
    requires from <= id && SyncRange(view, changes, from, id) == Progress(before, false)
    ensures SyncRange(view, changes, from, id + 1) == SyncOne(view, before, id)
  {
    hide SyncOne;
  }

  lemma SyncOneFails(view: View, changes: seq<Record>, id: nat)
    ensures SyncOne(view, changes, id).failed ==> SyncOne(view, changes, id).changes == changes
  {
  }

  lemma {:induction false} SyncFails(view: View, changes: seq<Record>, from: nat, id: nat, end: nat)
    requires from <= id < end && !SyncRange(view, changes, from, id).failed
    requires SyncOne(view, SyncRange(view, changes, from, id).changes, id).failed
    ensures SyncRange(view, changes, from, end) == Progress(SyncRange(view, changes, from, id).changes, true)
    decreases end
  {
    hide SyncOne;
    SyncOneFails(view, SyncRange(view, changes, from, id).changes, id);
    if id < end - 1 {
      SyncFails(view, changes, from, id, end - 1);
    }
  }

  lemma EmptyRange(view: View, changes: seq<Record>, from: nat, id: nat, end: nat)
    requires id >= end && (id == end || id == from)
    ensures SyncRange(view, changes, from, end) == SyncRange(view, changes, from, id)
  {
  }

  lemma {:induction false} PassFails(step: Record -> Result<Record>, changes: seq<Record>, i: nat, n: nat)
    requires i < n <= |changes| && !Pass(step, changes, i).failed && step(changes[i]).Err?
    ensures Pass(step, changes, n) == Progress(Pass(step, changes, i).changes, true)
  {
    if i < n - 1 {
      PassFails(step, changes, i, n - 1);
    }
  }
}
