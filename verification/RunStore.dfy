/**
 * Simulation runs and receipts as documents, packages/persistence/src/runs.ts: each update is one
 * atomic step of the store. Runs are numbered in insertion order and are never deleted.
 */
module RunStore {
  import opened Wrappers

  type RunId = nat

  type Hash = string

  datatype RunStatus = QUEUED | RUNNING | COMPLETED | FAILED | CANCELLED | STALE

  /** The types of events that carry a meaning for the run; AGENT stands for every AGENT_* type. */
  datatype EventType =
    | SIMULATION_QUEUED
    | FORK_STARTING
    | CHANGE_REPLAY_STARTED
    | CHANGE_REPLAY_COMPLETED
    | RISK_MEASURED
    | AGENT
    | STRATEGY_OPTIMIZATION_STARTED
    | STRATEGY_BRANCH_RESULT
    | RECOMMENDATION_READY
    | PROOF_READY
    | FAILED
    | CANCELLED

  datatype EventData =
    | NoData
    | ReceiptData(receiptHash: Hash)
    | FailureData(code: string)
    | ChangeData(changeStatus: string)
    | Payload(text: string)

  datatype Event = Event(id: nat, kind: EventType, data: EventData)

  datatype Measured = Measured(receiptHash: Hash, before: string, after: string)

  /** The $set document of appendRunEvent; a missing field is left as it is. */
  datatype Patch = Patch(status: Option<RunStatus>, measured: Option<Measured>, errorCode: Option<string>)

  const NO_PATCH := Patch(None, None, None)

  datatype Run = Run(
    key: string, wallet: string, protocolChangeId: string, status: RunStatus, includeStrategies: bool,
    receiptHash: Option<Hash>, before: Option<string>, after: Option<string>, errorCode: Option<string>,
    events: seq<Event>)

  /** The body of a receipt as far as a run copies it. */
  datatype Receipt = Receipt(before: string, after: string, rest: string)

  datatype Store = Store(runs: seq<Run>, receipts: map<Hash, Receipt>)

  // ---------- one document ----------

  function Patched(run: Run, event: Event, patch: Patch): Run {
    var appended := run.(events := run.events + [event]);
    var withStatus := if patch.status.Some? then appended.(status := patch.status.value) else appended;
    var withCode := if patch.errorCode.Some? then withStatus.(errorCode := patch.errorCode) else withStatus;
    if patch.measured.Some? then
      withCode.(receiptHash := Some(patch.measured.value.receiptHash),
                before := Some(patch.measured.value.before),
                after := Some(patch.measured.value.after))
    else withCode
  }

  function Requeued(run: Run, event: Event, includeStrategies: Option<bool>): Run {
    run.(status := RunStatus.QUEUED,
         includeStrategies := if includeStrategies.Some? then includeStrategies.value else run.includeStrategies,
         receiptHash := None, before := None, after := None, errorCode := None,
         events := run.events + [event])
  }

  predicate IsOpen(run: Run, changeId: string) {
    run.protocolChangeId == changeId && (run.status == RunStatus.QUEUED || run.status == RunStatus.RUNNING)
  }

  /** The event is pushed, and the fields of the patch that are present are set. */
  ghost predicate PushedAndSet(before: Run, after: Run, event: Event, patch: Patch) {
    && after.events == before.events + [event]
    && after.status == (if patch.status.Some? then patch.status.value else before.status)
    && after.errorCode == (if patch.errorCode.Some? then patch.errorCode else before.errorCode)
    && (patch.measured.None? ==>
          after.receiptHash == before.receiptHash && after.before == before.before && after.after == before.after)
    && (patch.measured.Some? ==>
          && after.receiptHash == Some(patch.measured.value.receiptHash)
          && after.before == Some(patch.measured.value.before) && after.after == Some(patch.measured.value.after))
    && after.includeStrategies == before.includeStrategies
    && after.key == before.key && after.wallet == before.wallet && after.protocolChangeId == before.protocolChangeId
  }

  /** The run is queued again, and nothing of what it has measured is left but its log. */
  ghost predicate QueuedAgain(before: Run, after: Run, event: Event, includeStrategies: Option<bool>) {
    && after.events == before.events + [event] && after.status == RunStatus.QUEUED
    && after.receiptHash.None? && after.before.None? && after.after.None? && after.errorCode.None?
    && after.includeStrategies
       == (if includeStrategies.Some? then includeStrategies.value else before.includeStrategies)
    && after.key == before.key && after.wallet == before.wallet && after.protocolChangeId == before.protocolChangeId
  }

  /** Cancelled with a change that is cancelled or has expired, stale with any other. */
  ghost predicate ClosedWith(before: Run, after: Run, id: nat, nextStatus: string) {
    var cancel := nextStatus == "CANCELLED" || nextStatus == "EXPIRED";
    && after.events
       == before.events + [Event(id, if cancel then EventType.CANCELLED else EventType.FAILED, ChangeData(nextStatus))]
    && after.status == (if cancel then RunStatus.CANCELLED else RunStatus.STALE)
    && after.errorCode == Some(if cancel then "CHANGE_CANCELLED" else "SIMULATION_STALE")
    && after.receiptHash == before.receiptHash && after.before == before.before && after.after == before.after
    && after.includeStrategies == before.includeStrategies
    && after.key == before.key && after.wallet == before.wallet && after.protocolChangeId == before.protocolChangeId
  }

  // ---------- one update of the store ----------

  function Append(st: Store, id: RunId, event: Event, patch: Patch): Store {
    if id < |st.runs| then st.(runs := st.runs[id := Patched(st.runs[id], event, patch)]) else st
  }

  function Requeue(st: Store, id: RunId, event: Event, includeStrategies: Option<bool>): Store {
    if id < |st.runs| then st.(runs := st.runs[id := Requeued(st.runs[id], event, includeStrategies)]) else st
  }

  /** An upsert with $setOnInsert: a receipt that is stored already is kept. */
  function Save(st: Store, receiptHash: Hash, body: Receipt): Store {
    if receiptHash in st.receipts then st else st.(receipts := st.receipts[receiptHash := body])
  }

  function FindOpen(st: Store, changeId: string, upTo: nat): (ids: seq<RunId>)
    requires upTo <= |st.runs|
    ensures forall i :: 0 <= i < |ids| ==> ids[i] < upTo && IsOpen(st.runs[ids[i]], changeId)
    ensures forall id: RunId :: id < upTo && IsOpen(st.runs[id], changeId) ==> id in ids
    ensures forall i, j :: 0 <= i < j < |ids| ==> ids[i] < ids[j]
  {
    if upTo == 0 then []
    else FindOpen(st, changeId, upTo - 1) + if IsOpen(st.runs[upTo - 1], changeId) then [upTo - 1] else []
  }

  function FindByKey(runs: seq<Run>, key: string): (id: Option<RunId>)
    ensures id.Some? ==> id.value < |runs| && runs[id.value].key == key
    ensures id.None? ==> forall i :: 0 <= i < |runs| ==> runs[i].key != key
  {
    if runs == [] then None
    else
      var front := FindByKey(runs[..|runs| - 1], key);
      if front.Some? then front
      else if runs[|runs| - 1].key == key then Some(|runs| - 1) else None
  }

  function NewRun(key: string, wallet: string, changeId: string, includeStrategies: bool, queued: Event): Run {
    Run(key, wallet, changeId, RunStatus.QUEUED, includeStrategies, None, None, None, None, [queued])
  }

  /** create fails with a duplicate key when the unique index holds the key. */
  function Insert(st: Store, run: Run): Result<Store> {
    if FindByKey(st.runs, run.key).Some? then Err("E11000 duplicate key") else Ok(st.(runs := st.runs + [run]))
  }

  function ShouldCancelOpenSimulations(nextStatus: string): bool {
    nextStatus == "CANCELLED" || nextStatus == "EXPIRED"
  }

  function StaleEvent(id: nat, nextStatus: string): Event {
    Event(id, if ShouldCancelOpenSimulations(nextStatus) then EventType.CANCELLED else EventType.FAILED,
          ChangeData(nextStatus))
  }

  function StalePatch(nextStatus: string): Patch {
    if ShouldCancelOpenSimulations(nextStatus) then Patch(Some(RunStatus.CANCELLED), None, Some("CHANGE_CANCELLED"))
    else Patch(Some(RunStatus.STALE), None, Some("SIMULATION_STALE"))
  }

  /** The store after marking the runs ids in order, with events numbered from next. */
  function MarkAll(st: Store, ids: seq<RunId>, nextStatus: string, next: nat): Store {
    if ids == [] then st
    else
      var n := |ids| - 1;
      Append(MarkAll(st, ids[..n], nextStatus, next), ids[n], StaleEvent(next + n, nextStatus), StalePatch(nextStatus))
  }

  class Models {
    var runs: seq<Run>
    var receipts: map<Hash, Receipt>
    var nextEvent: nat

    constructor ()
      ensures Contents() == Store([], map[]) && nextEvent == 0
    {
      runs, receipts, nextEvent := [], map[], 0;
    }

    function Contents(): Store
      reads this
    {
      Store(runs, receipts)
    }

    /** Every event gets an id no other event has. */
    method CreateEvent(kind: EventType, data: EventData) returns (event: Event)
      modifies `nextEvent
      ensures event == Event(old(nextEvent), kind, data) && nextEvent == old(nextEvent) + 1
    {
      event := Event(nextEvent, kind, data);
      nextEvent := nextEvent + 1;
    }

    method AppendRunEvent(id: RunId, event: Event, patch: Patch) returns (doc: Option<Run>)
      modifies `runs
      ensures Contents() == Append(old(Contents()), id, event, patch)
      ensures id < |runs| ==> PushedAndSet(old(runs)[id], runs[id], event, patch)
      ensures doc == if id < |runs| then Some(runs[id]) else None
    {
      if id < |runs| {
        runs := runs[id := Patched(runs[id], event, patch)];
        doc := Some(runs[id]);
      } else {
        doc := None;
      }
    }

    method RequeueSimulationRun(id: RunId, includeStrategies: Option<bool>) returns (doc: Option<Run>)
      modifies this
      ensures nextEvent == old(nextEvent) + 1
      ensures Contents()
           == Requeue(old(Contents()), id, Event(old(nextEvent), SIMULATION_QUEUED, NoData), includeStrategies)
      ensures id < |runs|
          ==> QueuedAgain(old(runs)[id], runs[id], Event(old(nextEvent), SIMULATION_QUEUED, NoData), includeStrategies)
      ensures doc == if id < |runs| then Some(runs[id]) else None
    {
      var queued := CreateEvent(SIMULATION_QUEUED, NoData);
      if id < |runs| {
        runs := runs[id := Requeued(runs[id], queued, includeStrategies)];
        doc := Some(runs[id]);
      } else {
        doc := None;
      }
    }

    method FindRunByIdempotencyKey(key: string) returns (id: Option<RunId>)
      ensures id.Some? ==> id.value < |runs| && runs[id.value].key == key
      ensures id.None? ==> forall i :: 0 <= i < |runs| ==> runs[i].key != key
    {
      id := FindByKey(runs, key);
    }

    method InsertSimulationRun(run: Run) returns (id: Result<RunId>)
      modifies `runs
      ensures match Insert(old(Contents()), run)
              case Ok(st) => Contents() == st && id == Ok(|old(runs)|)
              case Err(error) => Contents() == old(Contents()) && id == Err(error)
      ensures (exists i :: 0 <= i < |old(runs)| && old(runs)[i].key == run.key) ==> id.Err? && runs == old(runs)
      ensures (forall i :: 0 <= i < |old(runs)| ==> old(runs)[i].key != run.key)
          ==> id == Ok(|old(runs)|) && runs == old(runs) + [run]
    {
      if FindByKey(runs, run.key).Some? {
        id := Err("E11000 duplicate key");
      } else {
        id := Ok(|runs|);
        runs := runs + [run];
      }
    }

    method SaveReceipt(receiptHash: Hash, body: Receipt)
      modifies `receipts
      ensures Contents() == Save(old(Contents()), receiptHash, body)
      ensures receipts == if receiptHash in old(receipts) then old(receipts) else old(receipts)[receiptHash := body]
    {
      if receiptHash !in receipts {
        receipts := receipts[receiptHash := body];
      }
    }

    method MarkOpenRunsForChange(changeId: string, nextStatus: string) returns (marked: nat)
      modifies this
      ensures var open := FindOpen(old(Contents()), changeId, |old(runs)|);
              && marked == |open|
              && nextEvent == old(nextEvent) + |open|
              && Contents() == MarkAll(old(Contents()), open, nextStatus, old(nextEvent))
    {
      hide FindOpen, StalePatch, ShouldCancelOpenSimulations;
      var open := FindOpen(Contents(), changeId, |runs|);
      var patch := StalePatch(nextStatus);
      marked := 0;
      for i := 0 to |open|
        invariant marked == i && nextEvent == old(nextEvent) + i
        invariant Contents() == MarkAll(old(Contents()), open[..i], nextStatus, old(nextEvent))
      {
        assert open[..i + 1][..i] == open[..i];
        var data := StaleEvent(0, nextStatus);
        var event := CreateEvent(data.kind, data.data);
        var _ := AppendRunEvent(open[i], event, patch);
        marked := marked + 1;
      }
      assert open[..|open|] == open;
    }
  }

  /** Marking closes the runs in order, each with one event; other runs are untouched. */
  lemma {:induction false} MarkedRuns(st: Store, ids: seq<RunId>, nextStatus: string, next: nat, k: nat)
    requires forall i :: 0 <= i < |ids| ==> ids[i] < |st.runs|
    requires forall i, j :: 0 <= i < j < |ids| ==> ids[i] < ids[j]
    ensures var after := MarkAll(st, ids, nextStatus, next);
            && |after.runs| == |st.runs| && after.receipts == st.receipts
            && (forall id :: 0 <= id < |st.runs| && id !in ids ==> after.runs[id] == st.runs[id])
            && (k < |ids| ==> ClosedWith(st.runs[ids[k]], after.runs[ids[k]], next + k, nextStatus))
  {
    if ids != [] {
      var n := |ids| - 1;
      var front := ids[..n];
      MarkedRuns(st, front, nextStatus, next, k);
      assert ids == front + [ids[n]];
      assert ids[n] !in front;
    }
  }

  /**
   * After a pass on its own no run of the change is queued or running: each that was is closed by one
   * event, and every other run is untouched.
   */
  lemma MarkingClosesTheChange(st: Store, changeId: string, nextStatus: string, next: nat, id: RunId)
    requires id < |st.runs|
    ensures var ids := FindOpen(st, changeId, |st.runs|);
            var before, after := st.runs[id], MarkAll(st, ids, nextStatus, next).runs;
            var open := before.protocolChangeId == changeId
                        && (before.status == RunStatus.QUEUED || before.status == RunStatus.RUNNING);
            && |after| == |st.runs|
            && (open ==>
                  exists k :: 0 <= k < |ids| && ids[k] == id && ClosedWith(before, after[id], next + k, nextStatus))
            && (!open ==> after[id] == before)
  {
    var ids := FindOpen(st, changeId, |st.runs|);
    if IsOpen(st.runs[id], changeId) {
      var k :| 0 <= k < |ids| && ids[k] == id;
      MarkedRuns(st, ids, nextStatus, next, k);
    } else {
      MarkedRuns(st, ids, nextStatus, next, 0);
    }
  }
}
