/**
 * What the index says about the chains: the status of a change after a tick in terms of the state
 * of its proposal and the collateral factor on Base, and the record of a proposal in terms of its
 * calls. packages/governance-core/src/status.ts and packages/protocol-moonwell/src/governance
 * (destination, normalize, refresh).
 */
module GovernanceMeaning {
  import opened Wrappers
  import opened GovernanceCursor
  import opened GovernanceIndex

  // ---------- the calls of a change ----------

  /** The first call that decodes to a collateral factor asks for this one. */
  ghost predicate AsksFor(calls: seq<Call>, factor: Factor) {
    exists k :: 0 <= k < |calls| && calls[k] == FactorCall(factor) && forall j :: 0 <= j < k ==> !calls[j].FactorCall?
  }

  ghost predicate AsksForNone(calls: seq<Call>) {
    forall k :: 0 <= k < |calls| ==> !calls[k].FactorCall?
  }

  lemma {:induction false} FirstFactorIs(calls: seq<Call>)
    ensures FirstFactor(calls).None? <==> AsksForNone(calls)
    ensures forall factor :: FirstFactor(calls) == Some(factor) <==> AsksFor(calls, factor)
  {
    if calls != [] {
      FirstFactorIs(calls[1..]);
      forall factor
        ensures FirstFactor(calls) == Some(factor) <==> AsksFor(calls, factor)
      {
        AsksForUnfolds(calls, factor);
      }
      assert AsksForNone(calls[1..]) <==> forall k :: 1 <= k < |calls| ==> !calls[k].FactorCall? by {
        assert forall k :: 1 <= k < |calls| ==> calls[k] == calls[1..][k - 1];
      }
    }
  }

  lemma AsksForUnfolds(calls: seq<Call>, factor: Factor)
    requires calls != []
    ensures AsksFor(calls, factor)
       <==> if calls[0].FactorCall? then calls[0] == FactorCall(factor) else AsksFor(calls[1..], factor)
  {
    var rest := calls[1..];
    assert forall k :: 1 <= k < |calls| ==> calls[k] == rest[k - 1];
    if AsksFor(calls, factor) && !calls[0].FactorCall? {
      var k :| 0 <= k < |calls| && calls[k] == FactorCall(factor) && forall j :: 0 <= j < k ==> !calls[j].FactorCall?;
      assert rest[k - 1] == FactorCall(factor);
      assert forall j :: 0 <= j < k - 1 ==> rest[j] == calls[j + 1];
    }
    if AsksFor(rest, factor) && !calls[0].FactorCall? {
      var k :| 0 <= k < |rest| && rest[k] == FactorCall(factor) && forall j :: 0 <= j < k ==> !rest[j].FactorCall?;
      assert calls[k + 1] == FactorCall(factor);
    }
  }

  // ---------- statuses after a tick ----------

  /** The record that a tick left settles the one its sync left. */
  lemma TickedRecord(view: View, index: Index, i: nat) returns (synced: Record)
    requires ChangesOk(index.changes) && Tick(view, index).1 && i < |Tick(view, index).0.changes|
    ensures RecordOk(synced) && Settled(view, synced) == Ok(Tick(view, index).0.changes[i])
  {
    hide Tick, Settled, RecordOk, SyncMoonwellGovernor;
    TickSettles(view, index);
    synced := SyncMoonwellGovernor(view, index).0.changes[i];
  }

  /**
   * After a tick that works, every change whose governor state is not 5 (executed) has the status of
   * that state, which is also that of its source: 0 proposed, 1 and 4 approved, 2 cancelled, 6
   * expired, any other unknown.
   */
  lemma UnexecutedStatus(view: View, index: Index, i: nat)
    requires ChangesOk(index.changes) && Tick(view, index).1 && i < |Tick(view, index).0.changes|
    ensures var r := Tick(view, index).0.changes[i];
            && view.rawState(r.proposalId) == Ok(r.rawGovernorState)
            && (r.rawGovernorState == 0 ==> r.status == PROPOSED)
            && (r.rawGovernorState == 1 || r.rawGovernorState == 4 ==> r.status == APPROVED)
            && (r.rawGovernorState == 2 ==> r.status == CANCELLED)
            && (r.rawGovernorState == 6 ==> r.status == EXPIRED)
            && (r.rawGovernorState == 3 || r.rawGovernorState > 6 ==> r.status == UNKNOWN)
            && (r.rawGovernorState == 5 ==> r.status == EXECUTED || r.status == DESTINATION_PENDING)
            && r.sourceStatus == (if r.rawGovernorState == 5 then EXECUTED else r.status)
  {
    var synced := TickedRecord(view, index, i);
    SettledStatus(view, synced);
  }

  lemma SettledStatus(view: View, synced: Record)
    requires RecordOk(synced) && Settled(view, synced).Ok?
    ensures var r := Settled(view, synced).value;
            && r.proposalId == synced.proposalId
            && view.rawState(r.proposalId) == Ok(r.rawGovernorState)
            && (r.rawGovernorState == 0 ==> r.status == PROPOSED)
            && (r.rawGovernorState == 1 || r.rawGovernorState == 4 ==> r.status == APPROVED)
            && (r.rawGovernorState == 2 ==> r.status == CANCELLED)
            && (r.rawGovernorState == 6 ==> r.status == EXPIRED)
            && (r.rawGovernorState == 3 || r.rawGovernorState > 6 ==> r.status == UNKNOWN)
            && (r.rawGovernorState == 5 ==> r.status == EXECUTED || r.status == DESTINATION_PENDING)
            && r.sourceStatus == (if r.rawGovernorState == 5 then EXECUTED else r.status)
  {
    hide FirstFactor;
  }

  /**
   * After a tick that works and sees Base, a factor change is EXECUTED exactly when its proposal is
   * executed and the market on Base has the factor that its first decoded call asks for, and
   * pending on the destination exactly when it is executed and the market has another factor. The
   * destination's own status is that of the change, or unknown before the proposal has ended.
   */
  lemma FactorChangeStatus(view: View, index: Index, i: nat, factor: Factor)
    requires ChangesOk(index.changes) && Tick(view, index).1 && view.base.Some?
    requires i < |Tick(view, index).0.changes|
    requires var r := Tick(view, index).0.changes[i]; r.collateralFactorChange && AsksFor(r.targetCalls, factor)
    ensures var r := Tick(view, index).0.changes[i];
            && view.rawState(r.proposalId).Ok? && view.factor(factor.market).Ok?
            && (r.status == EXECUTED <==>
                  view.rawState(r.proposalId) == Ok(5) && view.factor(factor.market) == Ok(factor.mantissa))
            && (r.status == DESTINATION_PENDING <==>
                  view.rawState(r.proposalId) == Ok(5) && view.factor(factor.market) != Ok(factor.mantissa))
            && r.destinationStatus
               == (if r.status in {EXECUTED, DESTINATION_PENDING, CANCELLED, EXPIRED} then r.status else UNKNOWN)
  {
    var r := Tick(view, index).0.changes[i];
    var synced := TickedRecord(view, index, i);
    FirstFactorIs(r.targetCalls);
    SettledFactor(view, synced, factor);
    SettledStatus(view, synced);
  }

  lemma SettledFactor(view: View, synced: Record, factor: Factor)
    requires RecordOk(synced) && Settled(view, synced).Ok? && view.base.Some?
    requires var r := Settled(view, synced).value;
             r.collateralFactorChange && FirstFactor(r.targetCalls) == Some(factor)
    ensures view.factor(factor.market).Ok?
    ensures Settled(view, synced).value.rawGovernorState == 5 ==>
              (Settled(view, synced).value.status == EXECUTED <==> view.factor(factor.market) == Ok(factor.mantissa))
    ensures var r := Settled(view, synced).value;
            r.destinationStatus
            == (if r.status in {EXECUTED, DESTINATION_PENDING, CANCELLED, EXPIRED} then r.status else UNKNOWN)
  {
    hide FirstFactor;
  }

  /** Without a factor to compare, a change with Base calls is never EXECUTED. */
  lemma NoFactorNeverExecuted(view: View, index: Index, i: nat)
    requires ChangesOk(index.changes) && Tick(view, index).1 && i < |Tick(view, index).0.changes|
    requires var r := Tick(view, index).0.changes[i];
             HasDestination(r) && (!r.collateralFactorChange || AsksForNone(r.targetCalls))
    ensures var r := Tick(view, index).0.changes[i];
            && r.status != EXECUTED
            && (r.status == DESTINATION_PENDING <==> view.rawState(r.proposalId) == Ok(5))
  {
    var synced := TickedRecord(view, index, i);
    FirstFactorIs(Tick(view, index).0.changes[i].targetCalls);
    SettledStatus(view, synced);
    SettledNoFactor(view, synced);
  }

  lemma SettledNoFactor(view: View, synced: Record)
    requires RecordOk(synced) && Settled(view, synced).Ok?
    requires var r := Settled(view, synced).value; HasDestination(r) && TargetFactor(r).None?
    ensures Settled(view, synced).value.status != EXECUTED
  {
    hide FirstFactor;
  }

  // ---------- the record of a proposal ----------

  /** A call of a batch that goes to Base's Temporal Governor. */
  ghost predicate BaseCall(p: Proposal, call: Call) {
    exists b :: b in p.batches && b.toBaseGovernor && call in b.calls
  }

  lemma {:induction false} BaseCallsAre(batches: seq<Batch>, call: Call)
    ensures call in BaseDestinationCalls(batches) <==> exists b :: b in batches && b.toBaseGovernor && call in b.calls
  {
    if batches != [] {
      BaseCallsAre(batches[1..], call);
      assert batches == [batches[0]] + batches[1..];
    }
  }

  /** The calls of the first batch come first, if it goes to Base. */
  lemma BaseCallsInOrder(batch: Batch, rest: seq<Batch>)
    ensures BaseDestinationCalls([batch] + rest)
         == (if batch.toBaseGovernor then batch.calls else []) + BaseDestinationCalls(rest)
  {
    assert ([batch] + rest)[1..] == rest;
  }

  /**
   * A proposal is indexed with its Base calls, or with its source calls when it has none. It is a
   * factor change when some Base call has that selector, decoded or not; only then is its effect
   * replayed, and without any Base call it is unsupported.
   */
  lemma NormalizedMeans(id: nat, p: Proposal, rawState: nat)
    ensures var r := NormalizeGovernorProposal(id, p, rawState);
            && r.proposalId == id && r.rawGovernorState == rawState && r.votes == p.votes
            && (r.collateralFactorChange <==> exists call :: BaseCall(p, call) && !call.OtherCall?)
            && (r.supportLevel == UNSUPPORTED <==> forall call :: !BaseCall(p, call))
            && (r.supportLevel == DESTINATION_EFFECT_REPLAY <==> exists call :: BaseCall(p, call) && !call.OtherCall?)
            && (if r.supportLevel == UNSUPPORTED then r.targetCalls == p.sourceCalls
                else forall call :: call in r.targetCalls <==> BaseCall(p, call))
            && (r.status == EXECUTED <==> rawState == 5 && r.supportLevel == UNSUPPORTED)
            && (r.status == DESTINATION_PENDING <==> rawState == 5 && r.supportLevel != UNSUPPORTED)
  {
    hide BaseDestinationCalls;
    var calls := BaseDestinationCalls(p.batches);
    forall call
      ensures call in calls <==> BaseCall(p, call)
    {
      BaseCallsAre(p.batches, call);
    }
    if calls != [] {
      assert calls[0] in calls;
    }
    if call :| call in calls && !call.OtherCall? {
      var i :| 0 <= i < |calls| && calls[i] == call;
      assert AnyFactorSelector(calls);
    }
  }

  lemma {:induction false} StaysSynced(view: View, changes: seq<Record>, from: nat, id: nat, end: nat, record: Record)
    requires from <= id < end && record.proposalId == id
    requires record in SyncRange(view, changes, from, id + 1).changes
    ensures record in SyncRange(view, changes, from, end).changes
    decreases end
  {
    hide SyncOne;
    if id + 1 < end {
      StaysSynced(view, changes, from, id, end - 1, record);
      OtherSynced(view, SyncRange(view, changes, from, end - 1).changes, end - 1, record);
    }
  }

  lemma {:induction false} NoEarlierFailure(view: View, changes: seq<Record>, from: nat, id: nat, end: nat)
    requires from <= id < end && !SyncRange(view, changes, from, end).failed
    ensures !SyncRange(view, changes, from, id + 1).failed
    decreases end
  {
    hide SyncOne;
    if id + 1 < end {
      NoEarlierFailure(view, changes, from, id, end - 1);
    }
  }

  /** What does not change with the status. */
  ghost predicate SameChange(a: Record, b: Record) {
    && a.proposalId == b.proposalId && a.collateralFactorChange == b.collateralFactorChange
    && a.targetCalls == b.targetCalls && a.supportLevel == b.supportLevel && a.votes == b.votes
  }

  /**
   * A tick that works reads every proposal from the cursor to the count anew: the record of one with
   * targets is that of its calls and votes now.
   */
  lemma SyncedAsRead(view: View, index: Index, id: nat) returns (i: nat)
    requires ChangesOk(index.changes) && Tick(view, index).1 && !Empty(view, id)
    requires FromProposalId(index.sourceCursor) <= id <= view.proposalCount
    ensures i < |Tick(view, index).0.changes| && view.proposal(id).Ok? && view.rawState(id).Ok?
    ensures SameChange(Tick(view, index).0.changes[i],
                       NormalizeGovernorProposal(id, view.proposal(id).value, view.rawState(id).value))
  {
    hide Tick, Settled, RecordOk, NormalizeGovernorProposal, SameChange;
    var from, end := FromProposalId(index.sourceCursor), view.proposalCount + 1;
    TickSettles(view, index);
    var synced := SyncMoonwellGovernor(view, index).0.changes;
    NoEarlierFailure(view, index.changes, from, id, end);
    LastSynced(view, index.changes, from, id + 1);
    var record := NormalizeGovernorProposal(id, view.proposal(id).value, view.rawState(id).value);
    NormalizedId(id, view.proposal(id).value, view.rawState(id).value);
    StaysSynced(view, index.changes, from, id, end, record);
    i :| 0 <= i < |synced| && synced[i] == record;
    SettledSameChange(view, record);
  }

  lemma NormalizedId(id: nat, p: Proposal, rawState: nat)
    ensures NormalizeGovernorProposal(id, p, rawState).proposalId == id
  {
  }

  lemma SettledSameChange(view: View, record: Record)
    requires Settled(view, record).Ok?
    ensures SameChange(Settled(view, record).value, record)
  {
  }

  /** The cursor's proposal, and never one before 169. */
  lemma FromProposalIdIs(cursor: Option<Cursor>)
    ensures FromProposalId(cursor) == if cursor.Some? && cursor.value.lastProposalId > 169
                                      then cursor.value.lastProposalId else 169
  {
  }
}
