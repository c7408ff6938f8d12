/**
 * Everything that writes to a simulation run, interleaved: queue workers
 * (apps/simulator/src/process-impact.ts), agent tracers started by them, stale markers
 * (apps/indexer/src/stale.ts) and producers that create and requeue runs
 * (apps/api/src/simulations/simulations.service.ts, apps/indexer/src/enqueue.ts).
 * Each database call is one atomic step.
 */
module RunProtocol {
  import opened Wrappers
  import opened LowerCase
  import opened RunStore

  datatype Job = Job(simulationRunId: RunId, wallet: string, changeId: string, includeStrategies: bool)

  // ---------- processes ----------

  /** Where a worker stands: the constructor names the call it makes next. */
  datatype Pc =
    | Load
    | Begin
    | StartReplay
    | Replay
    | SaveBody(receipt: Receipt)
    | CompleteReplay(receipt: Receipt)
    | Measure(receipt: Receipt)
    | StartAgent(receipt: Receipt)
    | StartOptimization(receipt: Receipt)
    | Compare(receipt: Receipt)
    | ReportBranches(receipt: Receipt, strategies: string)
    | Recommend(receipt: Receipt, strategies: string)
    | Prove(receipt: Receipt)
    | Fail(code: string)
    | Done

  datatype Worker = Worker(job: Job, pc: Pc)

  /** A marker has read the ids of the open runs of a change, and has marked the first ones. */
  datatype Marker = Marker(nextStatus: string, open: seq<RunId>, marked: nat)

  /** A producer that read a run as failed, stale or cancelled, and has yet to requeue it. */
  datatype Producer = Producer(run: RunId, includeStrategies: bool, requeued: bool)

  /** hasRpcUrl and hasGroqKey are configuration; hashOf is the receipt hash. */
  datatype System = System(
    store: Store, nextEvent: nat, workers: seq<Worker>, markers: seq<Marker>, producers: seq<Producer>,
    tracers: seq<RunId>, hasRpcUrl: bool, hasGroqKey: bool, hashOf: Receipt -> Hash)

  /**
   * What the outside answers to a worker's call: it works (with a receipt or a comparison where one
   * is asked for), or it throws, with a write either applied or lost.
   */
  datatype Answer = Works(receipt: Receipt, strategies: string) | Throws(code: string, applied: bool)

  datatype Action =
    | CreateRun(key: string, wallet: string, changeId: string, includeStrategies: bool)
    | StartWorker(job: Job)
    | StepWorker(worker: nat, answer: Answer)
    | StartMarker(changeId: string, nextStatus: string)
    | StepMarker(marker: nat)
    | ReadForRequeue(run: RunId, includeStrategies: bool)
    | StepProducer(producer: nat)
    | StepTracer(tracer: nat, text: string)

  // ---------- the worker's program ----------

  predicate Terminal(status: RunStatus) {
    status == RunStatus.COMPLETED || status == RunStatus.FAILED || status == RunStatus.CANCELLED
    || status == RunStatus.STALE
  }

  /** A worker reads its run once, and goes on only with an open run of its wallet and change. */
  function Loaded(st: Store, job: Job): Pc {
    if job.simulationRunId >= |st.runs| then Done
    else
      var run := st.runs[job.simulationRunId];
      if Terminal(run.status) || Lower(run.wallet) != Lower(job.wallet) || run.protocolChangeId != job.changeId
      then Done else Begin
  }

  /** What one call writes. */
  datatype Write = Nothing | AppendEvent(kind: EventType, data: EventData, patch: Patch) | SaveReceipt(receipt: Receipt)

  function WriteOf(sys: System, pc: Pc): Write {
    match pc
    case Begin => AppendEvent(FORK_STARTING, NoData, Patch(Some(RunStatus.RUNNING), None, None))
    case StartReplay => AppendEvent(CHANGE_REPLAY_STARTED, NoData, NO_PATCH)
    case SaveBody(receipt) => SaveReceipt(receipt)
    case CompleteReplay(receipt) => AppendEvent(CHANGE_REPLAY_COMPLETED, ReceiptData(sys.hashOf(receipt)), NO_PATCH)
    case Measure(receipt) =>
      AppendEvent(RISK_MEASURED, NoData,
                  Patch(None, Some(Measured(sys.hashOf(receipt), receipt.before, receipt.after)), None))
    case StartAgent(_) => AppendEvent(AGENT, NoData, NO_PATCH)
    case StartOptimization(_) => AppendEvent(STRATEGY_OPTIMIZATION_STARTED, NoData, NO_PATCH)
    case ReportBranches(_, strategies) => AppendEvent(STRATEGY_BRANCH_RESULT, Payload(strategies), NO_PATCH)
    case Recommend(_, strategies) => AppendEvent(RECOMMENDATION_READY, Payload(strategies), NO_PATCH)
    case Prove(receipt) =>
      AppendEvent(PROOF_READY, ReceiptData(sys.hashOf(receipt)), Patch(Some(RunStatus.COMPLETED), None, None))
    case Fail(code) => AppendEvent(EventType.FAILED, FailureData(code), Patch(Some(RunStatus.FAILED), None, Some(code)))
    case _ => Nothing
  }

  /** Where a worker goes when its call works. */
  function Next(sys: System, job: Job, pc: Pc, answer: Answer): Pc
    requires answer.Works?
  {
    match pc
    case Load => Loaded(sys.store, job)
    case Begin => if sys.hasRpcUrl then StartReplay else Done
    case StartReplay => Replay
    case Replay => SaveBody(answer.receipt)
    case SaveBody(receipt) => CompleteReplay(receipt)
    case CompleteReplay(receipt) => Measure(receipt)
    case Measure(receipt) =>
      if !job.includeStrategies then Prove(receipt)
      else if sys.hasGroqKey then StartAgent(receipt) else StartOptimization(receipt)
    case StartAgent(receipt) => StartOptimization(receipt)
    case StartOptimization(receipt) => Compare(receipt)
    case Compare(receipt) => ReportBranches(receipt, answer.strategies)
    case ReportBranches(receipt, strategies) => Recommend(receipt, strategies)
    case Recommend(receipt, _) => Prove(receipt)
    case Prove(_) => Done
    case Fail(_) => Done
    case Done => Done
  }

  /** Calls before the try block, and the one in the catch block, are not caught. */
  function Thrown(pc: Pc, code: string): Pc {
    if pc.Load? || pc.Begin? || pc.Fail? || pc.Done? then Done else Fail(code)
  }

  function Written(sys: System, id: RunId, write: Write): System {
    match write
    case Nothing => sys
    case AppendEvent(kind, data, patch) =>
      sys.(store := Append(sys.store, id, Event(sys.nextEvent, kind, data), patch), nextEvent := sys.nextEvent + 1)
    case SaveReceipt(receipt) => sys.(store := Save(sys.store, sys.hashOf(receipt), receipt))
  }

  function WorkerStep(sys: System, w: nat, answer: Answer): System
    requires w < |sys.workers|
  {
    var worker := sys.workers[w];
    var id, pc := worker.job.simulationRunId, worker.pc;
    var written := if answer.Works? || answer.applied then Written(sys, id, WriteOf(sys, pc)) else sys;
    var next := if answer.Works? then Next(sys, worker.job, pc, answer) else Thrown(pc, answer.code);
    written.(workers := sys.workers[w := worker.(pc := next)],
             tracers := if pc.StartAgent? && answer.Works? then sys.tracers + [id] else sys.tracers)
  }

  // ---------- the other processes ----------

  function CreateStep(sys: System, key: string, wallet: string, changeId: string, includeStrategies: bool): System {
    var queued := Event(sys.nextEvent, SIMULATION_QUEUED, NoData);
    match Insert(sys.store, NewRun(key, wallet, changeId, includeStrategies, queued))
    case Ok(store) => sys.(store := store, nextEvent := sys.nextEvent + 1)
    case Err(_) => sys
  }

  function MarkerStep(sys: System, m: nat): System
    requires m < |sys.markers|
  {
    var marker := sys.markers[m];
    if marker.marked >= |marker.open| then sys
    else
      sys.(store := Append(sys.store, marker.open[marker.marked], StaleEvent(sys.nextEvent, marker.nextStatus),
                           StalePatch(marker.nextStatus)),
           nextEvent := sys.nextEvent + 1,
           markers := sys.markers[m := marker.(marked := marker.marked + 1)])
  }

  predicate MayRequeue(status: RunStatus) {
    status == RunStatus.FAILED || status == RunStatus.STALE || status == RunStatus.CANCELLED
  }

  function ProducerStep(sys: System, p: nat): System
    requires p < |sys.producers|
  {
    var producer := sys.producers[p];
    if producer.requeued then sys
    else
      sys.(store := Requeue(sys.store, producer.run, Event(sys.nextEvent, SIMULATION_QUEUED, NoData),
                            Some(producer.includeStrategies)),
           nextEvent := sys.nextEvent + 1,
           producers := sys.producers[p := producer.(requeued := true)])
  }

  function TracerStep(sys: System, t: nat, text: string): System
    requires t < |sys.tracers|
  {
    Written(sys, sys.tracers[t], AppendEvent(AGENT, Payload(text), NO_PATCH))
  }

  /** One step of the whole system; an action that is not possible changes nothing. */
  function Step(sys: System, action: Action): System {
    match action
    case CreateRun(key, wallet, changeId, includeStrategies) =>
      CreateStep(sys, key, wallet, changeId, includeStrategies)
    case StartWorker(job) => sys.(workers := sys.workers + [Worker(job, Load)])
    case StepWorker(w, answer) => if w < |sys.workers| then WorkerStep(sys, w, answer) else sys
    case StartMarker(changeId, nextStatus) =>
      sys.(markers := sys.markers + [Marker(nextStatus, FindOpen(sys.store, changeId, |sys.store.runs|), 0)])
    case StepMarker(m) => if m < |sys.markers| then MarkerStep(sys, m) else sys
    case ReadForRequeue(id, includeStrategies) =>
      if id < |sys.store.runs| && MayRequeue(sys.store.runs[id].status)
      then sys.(producers := sys.producers + [Producer(id, includeStrategies, false)])
      else sys
    case StepProducer(p) => if p < |sys.producers| then ProducerStep(sys, p) else sys
    case StepTracer(t, text) => if t < |sys.tracers| then TracerStep(sys, t, text) else sys
  }

  function Steps(sys: System, actions: seq<Action>): System {
    if actions == [] then sys else Step(Steps(sys, actions[..|actions| - 1]), actions[|actions| - 1])
  }

  function Initial(hasRpcUrl: bool, hasGroqKey: bool, hashOf: Receipt -> Hash): System {
    System(Store([], map[]), 0, [], [], [], [], hasRpcUrl, hasGroqKey, hashOf)
  }

  /** A worker starts a tracer of its run when, and only when, its agent has started. */
  lemma StartsTracer(sys: System, w: nat, answer: Answer)
    requires w < |sys.workers|
    ensures var worker := sys.workers[w];
            Step(sys, StepWorker(w, answer)).tracers
            == sys.tracers + if worker.pc.StartAgent? && answer.Works? then [worker.job.simulationRunId] else []
  {
    hide Written, WriteOf, Next, Thrown;
  }

  /** A producer that has queued its run again does nothing more. */
  lemma RequeuesOnce(sys: System, p: nat)
    requires p < |sys.producers|
    ensures var once := Step(sys, StepProducer(p)); Step(once, StepProducer(p)) == once
  {
    hide Requeue;
  }

  /** A marker takes the next of the runs it has found, and nothing more after the last. */
  lemma MarksEachOnce(sys: System, m: nat)
    requires m < |sys.markers|
    ensures var marker, after := sys.markers[m], Step(sys, StepMarker(m));
            if marker.marked < |marker.open|
            then after.markers == sys.markers[m := marker.(marked := marker.marked + 1)] else after == sys
  {
    hide Append;
  }

  // ---------- what the log says about the run ----------

  /** The status an event gives, if it gives one. */
  function StatusGiven(event: Event): Option<RunStatus> {
    match event.kind
    case SIMULATION_QUEUED => Some(RunStatus.QUEUED)
    case FORK_STARTING => Some(RunStatus.RUNNING)
    case PROOF_READY => Some(RunStatus.COMPLETED)
    case CANCELLED => Some(RunStatus.CANCELLED)
    case FAILED => Some(if event.data.ChangeData? then RunStatus.STALE else RunStatus.FAILED)
    case _ => None
  }

  /** The status of a run is that of the last event that gives one. */
  function LoggedStatus(log: seq<Event>): RunStatus {
    if log == [] then RunStatus.QUEUED
    else
      var given := StatusGiven(log[|log| - 1]);
      if given.Some? then given.value else LoggedStatus(log[..|log| - 1])
  }

  /** A risk was measured after the run was last queued. */
  predicate MeasuredSinceQueued(log: seq<Event>) {
    if log == [] then false
    else
      var last := log[|log| - 1].kind;
      if last == SIMULATION_QUEUED then false
      else last == RISK_MEASURED || MeasuredSinceQueued(log[..|log| - 1])
  }

  ghost predicate Replayed(log: seq<Event>, receiptHash: Hash) {
    exists k :: 0 <= k < |log| && log[k].kind == CHANGE_REPLAY_COMPLETED && log[k].data == ReceiptData(receiptHash)
  }

  /** The replay with this receipt was completed, and a risk was measured after it. */
  ghost predicate MeasuredAfter(log: seq<Event>, receiptHash: Hash) {
    exists j :: 0 <= j < |log| && log[j].kind == RISK_MEASURED && Replayed(log[..j], receiptHash)
  }

  /** Every proof in the log follows the replay and the measurement of the receipt it names. */
  ghost predicate ProofsFollow(log: seq<Event>) {
    forall i :: 0 <= i < |log| && log[i].kind == PROOF_READY ==>
      log[i].data.ReceiptData? && MeasuredAfter(log[..i], log[i].data.receiptHash)
  }

  ghost predicate UniqueIds(log: seq<Event>, next: nat) {
    && (forall i :: 0 <= i < |log| ==> log[i].id < next)
    && (forall i, j :: 0 <= i < j < |log| ==> log[i].id < log[j].id)
  }

  // ---------- the invariant ----------

  /** The hash of a run names a stored receipt; before and after are set with it, from a receipt of that hash. */
  ghost predicate ReceiptKept(sys: System, run: Run) {
    && (run.before.Some? <==> run.receiptHash.Some?)
    && (run.after.Some? <==> run.receiptHash.Some?)
    && (run.receiptHash.Some? ==>
          && run.receiptHash.value in sys.store.receipts
          && Replayed(run.events, run.receiptHash.value)
          && exists r: Receipt ::
               sys.hashOf(r) == run.receiptHash.value && run.before == Some(r.before) && run.after == Some(r.after))
  }

  ghost predicate RunOk(sys: System, run: Run) {
    && run.events != []
    && UniqueIds(run.events, sys.nextEvent)
    && ProofsFollow(run.events)
    && run.status == LoggedStatus(run.events)
    && (run.receiptHash.Some? <==> MeasuredSinceQueued(run.events))
    && ReceiptKept(sys, run)
  }

  /** The receipt a worker has in hand. */
  function InHand(pc: Pc): Option<Receipt> {
    match pc
    case SaveBody(receipt) => Some(receipt)
    case CompleteReplay(receipt) => Some(receipt)
    case Measure(receipt) => Some(receipt)
    case StartAgent(receipt) => Some(receipt)
    case StartOptimization(receipt) => Some(receipt)
    case Compare(receipt) => Some(receipt)
    case ReportBranches(receipt, _) => Some(receipt)
    case Recommend(receipt, _) => Some(receipt)
    case Prove(receipt) => Some(receipt)
    case _ => None
  }

  ghost predicate WorkerOk(sys: System, worker: Worker) {
    var id, pc := worker.job.simulationRunId, worker.pc;
    !pc.Load? && !pc.Done? ==>
      && id < |sys.store.runs|
      && (InHand(pc).Some? && !pc.SaveBody? ==>
            var h := sys.hashOf(InHand(pc).value);
            && h in sys.store.receipts
            && (!pc.CompleteReplay? ==> Replayed(sys.store.runs[id].events, h))
            && (!pc.CompleteReplay? && !pc.Measure? ==> MeasuredAfter(sys.store.runs[id].events, h)))
  }

  ghost predicate StoreOk(sys: System) {
    && (forall h :: h in sys.store.receipts ==> sys.hashOf(sys.store.receipts[h]) == h)
    && (forall id :: 0 <= id < |sys.store.runs| ==> RunOk(sys, sys.store.runs[id]))
    && (forall i, j :: 0 <= i < j < |sys.store.runs| ==> sys.store.runs[i].key != sys.store.runs[j].key)
  }

  ghost predicate WorkersOk(sys: System, workers: seq<Worker>) {
    forall w :: 0 <= w < |workers| ==> WorkerOk(sys, workers[w])
  }

  ghost predicate Invariant(sys: System) {
    StoreOk(sys) && WorkersOk(sys, sys.workers)
  }

  // ---------- logs and receipts only grow ----------

  /** What no step takes back. */
  ghost predicate Extends(before: System, after: System) {
    && after.hashOf == before.hashOf
    && before.nextEvent <= after.nextEvent
    && |before.store.runs| <= |after.store.runs|
    && (forall id :: 0 <= id < |before.store.runs| ==> before.store.runs[id].events <= after.store.runs[id].events)
    && (forall id :: 0 <= id < |before.store.runs| ==> before.store.runs[id].key == after.store.runs[id].key)
    && (forall h :: h in before.store.receipts ==>
          h in after.store.receipts && after.store.receipts[h] == before.store.receipts[h])
  }

  lemma AppendExtends(sys: System, id: RunId, event: Event, patch: Patch, after: System)
    requires after.store == Append(sys.store, id, event, patch)
    requires after.hashOf == sys.hashOf && sys.nextEvent <= after.nextEvent
    ensures Extends(sys, after)
  {
  }

  lemma RequeueExtends(sys: System, id: RunId, event: Event, includeStrategies: Option<bool>, after: System)
    requires after.store == Requeue(sys.store, id, event, includeStrategies)
    requires after.hashOf == sys.hashOf && sys.nextEvent <= after.nextEvent
    ensures Extends(sys, after)
  {
  }

  lemma SameStoreExtends(sys: System, after: System)
    requires after.store == sys.store && after.hashOf == sys.hashOf && after.nextEvent == sys.nextEvent
    ensures Extends(sys, after)
  {
  }

  lemma WrittenExtends(sys: System, id: RunId, write: Write, after: System)
    requires after.store == Written(sys, id, write).store && after.nextEvent == Written(sys, id, write).nextEvent
    requires after.hashOf == sys.hashOf
    ensures Extends(sys, after)
  {
    match write
    case Nothing => SameStoreExtends(sys, after);
    case AppendEvent(kind, data, patch) => AppendExtends(sys, id, Event(sys.nextEvent, kind, data), patch, after);
    case SaveReceipt(receipt) =>
  }

  lemma WorkerStepExtends(sys: System, w: nat, answer: Answer)
    requires w < |sys.workers|
    ensures Extends(sys, WorkerStep(sys, w, answer))
  {
    hide Extends, WriteOf;
    var worker := sys.workers[w];
    var write := if answer.Works? || answer.applied then WriteOf(sys, worker.pc) else Nothing;
    WrittenExtends(sys, worker.job.simulationRunId, write, WorkerStep(sys, w, answer));
  }

  lemma CreateStepExtends(sys: System, key: string, wallet: string, changeId: string, includeStrategies: bool)
    ensures Extends(sys, CreateStep(sys, key, wallet, changeId, includeStrategies))
  {
  }

  lemma StepExtends(sys: System, action: Action)
    ensures Extends(sys, Step(sys, action))
  {
    hide Extends, WorkerStep, CreateStep;
    var after := Step(sys, action);
    match action
    case CreateRun(key, wallet, changeId, s) => CreateStepExtends(sys, key, wallet, changeId, s);
    case StepWorker(w, answer) =>
      if w < |sys.workers| { WorkerStepExtends(sys, w, answer); } else { SameStoreExtends(sys, after); }
    case StepMarker(m) =>
      if m < |sys.markers| && sys.markers[m].marked < |sys.markers[m].open| {
        var k := sys.markers[m];
        AppendExtends(sys, k.open[k.marked], StaleEvent(sys.nextEvent, k.nextStatus), StalePatch(k.nextStatus), after);
      } else {
        SameStoreExtends(sys, after);
      }
    case StepProducer(p) =>
      if p < |sys.producers| && !sys.producers[p].requeued {
        var k := sys.producers[p];
        RequeueExtends(sys, k.run, Event(sys.nextEvent, SIMULATION_QUEUED, NoData), Some(k.includeStrategies), after);
      } else {
        SameStoreExtends(sys, after);
      }
    case StepTracer(t, text) =>
      if t < |sys.tracers| {
        WrittenExtends(sys, sys.tracers[t], AppendEvent(AGENT, Payload(text), NO_PATCH), after);
      } else {
        SameStoreExtends(sys, after);
      }
    case _ => SameStoreExtends(sys, after);
  }

  /** Along every run of the system, logs grow at the end only and stored receipts stay as they are. */
  lemma {:induction false} StepsExtend(sys: System, actions: seq<Action>, prefix: nat)
    requires prefix <= |actions|
    ensures Extends(Steps(sys, actions[..prefix]), Steps(sys, actions))
    decreases |actions|
  {
    if prefix < |actions| {
      var front := actions[..|actions| - 1];
      assert front[..prefix] == actions[..prefix];
      StepsExtend(sys, front, prefix);
      StepExtends(Steps(sys, front), actions[|actions| - 1]);
    } else {
      assert actions[..prefix] == actions;
    }
  }

  // ---------- the log grows by one event ----------

  lemma LogPrefix(log: seq<Event>, more: seq<Event>, receiptHash: Hash)
    requires log <= more
    ensures Replayed(log, receiptHash) ==> Replayed(more, receiptHash)
    ensures MeasuredAfter(log, receiptHash) ==> MeasuredAfter(more, receiptHash)
  {
    if MeasuredAfter(log, receiptHash) {
      var j :| 0 <= j < |log| && log[j].kind == RISK_MEASURED && Replayed(log[..j], receiptHash);
      assert more[..j] == log[..j] && more[j] == log[j];
    }
  }

  lemma LogGrows(log: seq<Event>, event: Event)
    ensures var more := log + [event];
            && LoggedStatus(more) == (if StatusGiven(event).Some? then StatusGiven(event).value else LoggedStatus(log))
            && MeasuredSinceQueued(more)
               == (event.kind != SIMULATION_QUEUED && (event.kind == RISK_MEASURED || MeasuredSinceQueued(log)))
  {
    assert (log + [event])[..|log|] == log;
  }

  lemma ProofsGrow(log: seq<Event>, event: Event)
    requires ProofsFollow(log)
    requires event.kind == PROOF_READY ==> event.data.ReceiptData? && MeasuredAfter(log, event.data.receiptHash)
    ensures ProofsFollow(log + [event])
  {
    var more := log + [event];
    forall i | 0 <= i < |more| && more[i].kind == PROOF_READY
      ensures more[i].data.ReceiptData? && MeasuredAfter(more[..i], more[i].data.receiptHash)
    {
      if i < |log| {
        assert more[..i] == log[..i] && more[i] == log[i];
      } else {
        assert more[..i] == log;
      }
    }
  }

  /** The patch says about the run what the event says. */
  ghost predicate Fits(sys: System, log: seq<Event>, event: Event, patch: Patch) {
    && event.id == sys.nextEvent
    && event.kind != SIMULATION_QUEUED
    && patch.status == StatusGiven(event)
    && (patch.measured.Some? <==> event.kind == RISK_MEASURED)
    && (patch.measured.Some? ==> MeasuredFits(sys, log, patch.measured.value))
    && (event.kind == PROOF_READY ==> event.data.ReceiptData? && MeasuredAfter(log, event.data.receiptHash))
  }

  ghost predicate MeasuredFits(sys: System, log: seq<Event>, m: Measured) {
    && m.receiptHash in sys.store.receipts
    && Replayed(log, m.receiptHash)
    && exists r: Receipt :: sys.hashOf(r) == m.receiptHash && m.before == r.before && m.after == r.after
  }

  lemma PatchedOk(sys: System, run: Run, event: Event, patch: Patch, after: System)
    requires RunOk(sys, run) && Fits(sys, run.events, event, patch)
    requires Extends(sys, after) && after.nextEvent == sys.nextEvent + 1
    ensures RunOk(after, Patched(run, event, patch))
  {
    hide Replayed, MeasuredAfter, ProofsFollow, LoggedStatus, MeasuredSinceQueued;
    LogGrows(run.events, event);
    ProofsGrow(run.events, event);
    if run.receiptHash.Some? {
      LogPrefix(run.events, run.events + [event], run.receiptHash.value);
    }
    if patch.measured.Some? {
      LogPrefix(run.events, run.events + [event], patch.measured.value.receiptHash);
    }
  }

  lemma RequeuedOk(sys: System, run: Run, event: Event, includeStrategies: Option<bool>, after: System)
    requires RunOk(sys, run) && event.kind == SIMULATION_QUEUED && event.id == sys.nextEvent
    requires Extends(sys, after) && after.nextEvent == sys.nextEvent + 1
    ensures RunOk(after, Requeued(run, event, includeStrategies))
  {
    hide Replayed, MeasuredAfter, ProofsFollow, LoggedStatus, MeasuredSinceQueued;
    LogGrows(run.events, event);
    ProofsGrow(run.events, event);
  }

  lemma RunStaysOk(sys: System, run: Run, after: System)
    requires RunOk(sys, run) && Extends(sys, after)
    ensures RunOk(after, run)
  {
    hide Replayed, MeasuredAfter, ProofsFollow, LoggedStatus, MeasuredSinceQueued;
  }

  lemma WorkerStaysOk(sys: System, worker: Worker, after: System)
    requires WorkerOk(sys, worker) && Extends(sys, after)
    ensures WorkerOk(after, worker)
  {
    hide Replayed, MeasuredAfter;
    var id := worker.job.simulationRunId;
    if InHand(worker.pc).Some? && id < |sys.store.runs| {
      LogPrefix(sys.store.runs[id].events, after.store.runs[id].events, sys.hashOf(InHand(worker.pc).value));
    }
  }

  // ---------- every step keeps the invariant ----------

  lemma WorkersStayOk(sys: System, after: System)
    requires WorkersOk(sys, sys.workers) && Extends(sys, after)
    ensures WorkersOk(after, sys.workers)
  {
    hide Extends, WorkerOk;
    forall w | 0 <= w < |sys.workers|
      ensures WorkerOk(after, sys.workers[w])
    {
      WorkerStaysOk(sys, sys.workers[w], after);
    }
  }

  lemma AppendKeepsStore(sys: System, id: RunId, event: Event, patch: Patch, after: System)
    requires StoreOk(sys) && (id < |sys.store.runs| ==> Fits(sys, sys.store.runs[id].events, event, patch))
    requires after.store == Append(sys.store, id, event, patch)
    requires after.hashOf == sys.hashOf && after.nextEvent == sys.nextEvent + 1
    ensures StoreOk(after) && Extends(sys, after)
  {
    hide RunOk, Fits, Extends;
    AppendExtends(sys, id, event, patch, after);
    forall r | 0 <= r < |after.store.runs|
      ensures RunOk(after, after.store.runs[r])
    {
      if r == id {
        PatchedOk(sys, sys.store.runs[r], event, patch, after);
      } else {
        RunStaysOk(sys, sys.store.runs[r], after);
      }
    }
  }

  lemma RequeueKeepsStore(sys: System, id: RunId, event: Event, includeStrategies: Option<bool>, after: System)
    requires StoreOk(sys) && event.kind == SIMULATION_QUEUED && event.id == sys.nextEvent
    requires after.store == Requeue(sys.store, id, event, includeStrategies)
    requires after.hashOf == sys.hashOf && after.nextEvent == sys.nextEvent + 1
    ensures StoreOk(after) && Extends(sys, after)
  {
    hide RunOk, Extends;
    RequeueExtends(sys, id, event, includeStrategies, after);
    forall r | 0 <= r < |after.store.runs|
      ensures RunOk(after, after.store.runs[r])
    {
      if r == id {
        RequeuedOk(sys, sys.store.runs[r], event, includeStrategies, after);
      } else {
        RunStaysOk(sys, sys.store.runs[r], after);
      }
    }
  }

  lemma SaveKeepsStore(sys: System, receipt: Receipt, after: System)
    requires StoreOk(sys)
    requires after.store == Save(sys.store, sys.hashOf(receipt), receipt)
    requires after.hashOf == sys.hashOf && after.nextEvent == sys.nextEvent
    ensures StoreOk(after) && Extends(sys, after)
  {
    hide RunOk;
    forall r | 0 <= r < |after.store.runs|
      ensures RunOk(after, after.store.runs[r])
    {
      RunStaysOk(sys, sys.store.runs[r], after);
    }
  }

  lemma SameStoreKeeps(sys: System, after: System)
    requires StoreOk(sys)
    requires after.store == sys.store && after.hashOf == sys.hashOf && after.nextEvent == sys.nextEvent
    ensures StoreOk(after) && Extends(sys, after)
  {
    hide RunOk, Extends;
    SameStoreExtends(sys, after);
    forall r | 0 <= r < |after.store.runs|
      ensures RunOk(after, after.store.runs[r])
    {
      RunStaysOk(sys, sys.store.runs[r], after);
    }
  }

  lemma CreateKeepsStore(sys: System, key: string, wallet: string, changeId: string, includeStrategies: bool)
    requires StoreOk(sys)
    ensures StoreOk(CreateStep(sys, key, wallet, changeId, includeStrategies))
    ensures CreateStep(sys, key, wallet, changeId, includeStrategies).workers == sys.workers
  {
    hide RunOk;
    var after := CreateStep(sys, key, wallet, changeId, includeStrategies);
    CreateStepExtends(sys, key, wallet, changeId, includeStrategies);
    forall r | 0 <= r < |after.store.runs|
      ensures RunOk(after, after.store.runs[r])
    {
      if r < |sys.store.runs| {
        RunStaysOk(sys, sys.store.runs[r], after);
      } else {
        NewRunOk(after, NewRun(key, wallet, changeId, includeStrategies,
                               Event(sys.nextEvent, SIMULATION_QUEUED, NoData)));
      }
    }
  }

  lemma NewRunOk(sys: System, run: Run)
    requires exists e: Event :: e.kind == SIMULATION_QUEUED && e.id < sys.nextEvent &&
               run == NewRun(run.key, run.wallet, run.protocolChangeId, run.includeStrategies, e)
    ensures RunOk(sys, run)
  {
    LogGrows([], run.events[0]);
    assert [] + run.events == run.events;
  }

  lemma WorkerWriteFits(sys: System, worker: Worker)
    requires WorkerOk(sys, worker) && WriteOf(sys, worker.pc).AppendEvent?
    ensures worker.job.simulationRunId < |sys.store.runs|
    ensures var w := WriteOf(sys, worker.pc);
            Fits(sys, sys.store.runs[worker.job.simulationRunId].events, Event(sys.nextEvent, w.kind, w.data), w.patch)
  {
    hide Replayed, MeasuredAfter;
  }

  lemma WrittenKeepsStore(sys: System, worker: Worker, after: System)
    requires StoreOk(sys) && WorkerOk(sys, worker)
    requires var written := Written(sys, worker.job.simulationRunId, WriteOf(sys, worker.pc));
             after.store == written.store && after.nextEvent == written.nextEvent
    requires after.hashOf == sys.hashOf
    ensures StoreOk(after) && Extends(sys, after)
  {
    hide StoreOk, WorkerOk, Fits, WriteOf, Extends;
    var write := WriteOf(sys, worker.pc);
    match write
    case Nothing => SameStoreKeeps(sys, after);
    case AppendEvent(kind, data, patch) =>
      WorkerWriteFits(sys, worker);
      AppendKeepsStore(sys, worker.job.simulationRunId, Event(sys.nextEvent, kind, data), patch, after);
    case SaveReceipt(receipt) => SaveKeepsStore(sys, receipt, after);
  }

  /** The worker that took the step is where its program says, with what the log now holds. */
  lemma SteppedWorkerOk(sys: System, worker: Worker, answer: Answer, after: System)
    requires WorkerOk(sys, worker) && Extends(sys, after) && answer.Works?
    requires var written := Written(sys, worker.job.simulationRunId, WriteOf(sys, worker.pc));
             after.store == written.store && after.nextEvent == written.nextEvent
    ensures WorkerOk(after, worker.(pc := Next(sys, worker.job, worker.pc, answer)))
  {
    hide Replayed, MeasuredAfter, Fits;
    WorkerStaysOk(sys, worker, after);
    if worker.pc.CompleteReplay? {
      ReplayedNow(sys, worker, after);
    } else if worker.pc.Measure? {
      MeasuredNow(sys, worker, after);
    }
  }

  lemma ReplayedNow(sys: System, worker: Worker, after: System)
    requires worker.pc.CompleteReplay? && worker.job.simulationRunId < |sys.store.runs|
    requires after.store == Written(sys, worker.job.simulationRunId, WriteOf(sys, worker.pc)).store
    ensures Replayed(after.store.runs[worker.job.simulationRunId].events, sys.hashOf(worker.pc.receipt))
  {
    var log := after.store.runs[worker.job.simulationRunId].events;
    assert log[|log| - 1].kind == CHANGE_REPLAY_COMPLETED;
  }

  lemma MeasuredNow(sys: System, worker: Worker, after: System)
    requires worker.pc.Measure? && worker.job.simulationRunId < |sys.store.runs|
    requires Replayed(sys.store.runs[worker.job.simulationRunId].events, sys.hashOf(worker.pc.receipt))
    requires after.store == Written(sys, worker.job.simulationRunId, WriteOf(sys, worker.pc)).store
    ensures MeasuredAfter(after.store.runs[worker.job.simulationRunId].events, sys.hashOf(worker.pc.receipt))
  {
    var log := after.store.runs[worker.job.simulationRunId].events;
    assert log[|log| - 1].kind == RISK_MEASURED;
    assert log[..|log| - 1] == sys.store.runs[worker.job.simulationRunId].events;
  }

  lemma WorkerStepKeeps(sys: System, w: nat, answer: Answer)
    requires Invariant(sys) && w < |sys.workers|
    ensures Invariant(WorkerStep(sys, w, answer))
  {
    hide StoreOk, WorkerOk, Extends, WriteOf, Next;
    var after := WorkerStep(sys, w, answer);
    var worker := sys.workers[w];
    if answer.Works? || answer.applied {
      WrittenKeepsStore(sys, worker, after);
    } else {
      SameStoreKeeps(sys, after);
    }
    WorkersStayOk(sys, after);
    if answer.Works? {
      SteppedWorkerOk(sys, worker, answer, after);
    } else {
      ThrownWorkerOk(sys, worker, answer.code, after);
    }
  }

  lemma ThrownWorkerOk(sys: System, worker: Worker, code: string, after: System)
    requires WorkerOk(sys, worker) && Extends(sys, after)
    ensures WorkerOk(after, worker.(pc := Thrown(worker.pc, code)))
  {
    hide Replayed, MeasuredAfter;
  }

  lemma StepKeeps(sys: System, action: Action)
    requires Invariant(sys)
    ensures Invariant(Step(sys, action))
  {
    hide StoreOk, WorkerOk, Extends, WorkerStep, CreateStep, RunOk;
    var after := Step(sys, action);
    StepExtends(sys, action);
    WorkersStayOk(sys, after);
    match action
    case CreateRun(key, wallet, changeId, s) => CreateKeepsStore(sys, key, wallet, changeId, s);
    case StartWorker(job) =>
      SameStoreKeeps(sys, after);
      NewWorkerOk(after, job);
    case StepWorker(w, answer) =>
      if w < |sys.workers| { WorkerStepKeeps(sys, w, answer); }
    case StepMarker(m) =>
      if m < |sys.markers| && sys.markers[m].marked < |sys.markers[m].open| {
        var k := sys.markers[m];
        AppendKeepsStore(sys, k.open[k.marked], StaleEvent(sys.nextEvent, k.nextStatus), StalePatch(k.nextStatus),
                         after);
      }
    case StepProducer(p) =>
      if p < |sys.producers| && !sys.producers[p].requeued {
        var k := sys.producers[p];
        RequeueKeepsStore(sys, k.run, Event(sys.nextEvent, SIMULATION_QUEUED, NoData), Some(k.includeStrategies),
                          after);
      }
    case StepTracer(t, text) =>
      if t < |sys.tracers| {
        AppendKeepsStore(sys, sys.tracers[t], Event(sys.nextEvent, AGENT, Payload(text)), NO_PATCH, after);
      }
    case _ => SameStoreKeeps(sys, after);
  }

  lemma NewWorkerOk(sys: System, job: Job)
    ensures WorkerOk(sys, Worker(job, Load))
  {
  }

  /** Every reachable state satisfies the invariant, whatever the interleaving. */
  lemma {:induction false} ReachableOk(hasRpcUrl: bool, hasGroqKey: bool, hashOf: Receipt -> Hash, actions: seq<Action>)
    ensures Invariant(Steps(Initial(hasRpcUrl, hasGroqKey, hashOf), actions))
    decreases |actions|
  {
    if actions != [] {
      ReachableOk(hasRpcUrl, hasGroqKey, hashOf, actions[..|actions| - 1]);
      StepKeeps(Steps(Initial(hasRpcUrl, hasGroqKey, hashOf), actions[..|actions| - 1]), actions[|actions| - 1]);
    }
  }

  // ---------- what the invariant means for a run ----------

  /** The last event that gives a status, when the log gives the status of a finished proof. */
  lemma {:induction false} CompletedByProof(log: seq<Event>) returns (i: nat)
    requires LoggedStatus(log) == RunStatus.COMPLETED
    ensures i < |log| && log[i].kind == PROOF_READY
    ensures forall k :: i < k < |log| ==> StatusGiven(log[k]).None?
  {
    var n := |log| - 1;
    if StatusGiven(log[n]).Some? {
      i := n;
    } else {
      i := CompletedByProof(log[..n]);
    }
  }

  lemma {:induction false} MeasuredSinceQueuedMeans(log: seq<Event>)
    ensures MeasuredSinceQueued(log) <==>
              exists j :: 0 <= j < |log| && log[j].kind == RISK_MEASURED
                && forall q :: j < q < |log| ==> log[q].kind != SIMULATION_QUEUED
  {
    if log != [] {
      var n := |log| - 1;
      var front := log[..n];
      MeasuredSinceQueuedMeans(front);
      if MeasuredSinceQueued(log) {
        if log[n].kind != RISK_MEASURED {
          var j :| 0 <= j < n && front[j].kind == RISK_MEASURED
            && forall q :: j < q < n ==> front[q].kind != SIMULATION_QUEUED;
          assert log[j].kind == RISK_MEASURED;
        }
      } else {
        forall j | 0 <= j < n && log[j].kind == RISK_MEASURED && log[n].kind != SIMULATION_QUEUED
          ensures exists q :: j < q < |log| && log[q].kind == SIMULATION_QUEUED
        {
          assert front[j].kind == RISK_MEASURED;
          var q :| j < q < n && front[q].kind == SIMULATION_QUEUED;
          assert log[q].kind == SIMULATION_QUEUED;
        }
      }
    }
  }

  /** In the log of a completed run stand a replay, then a measurement, then a proof of the same receipt. */
  lemma CompletedHasProof(sys: System, id: RunId)
    requires Invariant(sys) && id < |sys.store.runs| && sys.store.runs[id].status == RunStatus.COMPLETED
    ensures var log := sys.store.runs[id].events;
            exists k, j, i :: 0 <= k < j < i < |log|
              && log[i].kind == PROOF_READY && log[i].data.ReceiptData?
              && log[j].kind == RISK_MEASURED
              && log[k].kind == CHANGE_REPLAY_COMPLETED && log[k].data == log[i].data
  {
    var log := sys.store.runs[id].events;
    var i := CompletedByProof(log);
    var receiptHash := log[i].data.receiptHash;
    var j :| 0 <= j < i && log[..i][j].kind == RISK_MEASURED && Replayed(log[..i][..j], receiptHash);
    var k :| 0 <= k < j && log[..i][..j][k].kind == CHANGE_REPLAY_COMPLETED
      && log[..i][..j][k].data == ReceiptData(receiptHash);
    assert log[k] == log[..i][..j][k] && log[j].kind == RISK_MEASURED;
  }

  /**
   * COMPLETED does not imply a receipt: it fails exactly when the run was queued again between the
   * last measurement and the proof.
   */
  lemma CompletedWithoutReceipt(sys: System, id: RunId)
    requires Invariant(sys) && id < |sys.store.runs| && sys.store.runs[id].status == RunStatus.COMPLETED
    ensures var log := sys.store.runs[id].events;
            sys.store.runs[id].receiptHash.None? <==>
              exists q, i :: 0 <= q < i < |log| && log[q].kind == SIMULATION_QUEUED && log[i].kind == PROOF_READY
                && forall k :: q < k < |log| ==> log[k].kind != SIMULATION_QUEUED && log[k].kind != RISK_MEASURED
  {
    var log := sys.store.runs[id].events;
    MeasuredSinceQueuedMeans(log);
    var i := CompletedByProof(log);
    if sys.store.runs[id].receiptHash.None? {
      var q := LastQueued(log, i);
    }
  }

  /** A log with a measurement, none of them after the last time the run was queued. */
  lemma LastQueued(log: seq<Event>, i: nat) returns (q: nat)
    requires i < |log| && log[i].kind == PROOF_READY && ProofsFollow(log) && !MeasuredSinceQueued(log)
    requires forall k :: i < k < |log| ==> StatusGiven(log[k]).None?
    ensures q < i && log[q].kind == SIMULATION_QUEUED
    ensures forall k :: q < k < |log| ==> log[k].kind != SIMULATION_QUEUED && log[k].kind != RISK_MEASURED
  {
    var j :| 0 <= j < i && log[..i][j].kind == RISK_MEASURED;
    assert log[j].kind == RISK_MEASURED;
    q := QueuedAfter(log, j);
    assert log[q].kind == SIMULATION_QUEUED;
  }

  lemma {:induction false} QueuedAfter(log: seq<Event>, j: nat) returns (q: nat)
    requires j < |log| && log[j].kind == RISK_MEASURED && !MeasuredSinceQueued(log)
    ensures j < q < |log| && log[q].kind == SIMULATION_QUEUED
    ensures forall k :: q < k < |log| ==> log[k].kind != SIMULATION_QUEUED && log[k].kind != RISK_MEASURED
  {
    var n := |log| - 1;
    if log[n].kind == SIMULATION_QUEUED {
      q := n;
    } else {
      q := QueuedAfter(log[..n], j);
    }
  }

  /** A run that was queued only once and is completed has its receipt. */
  lemma NeverRequeuedHasReceipt(sys: System, id: RunId)
    requires Invariant(sys) && id < |sys.store.runs| && sys.store.runs[id].status == RunStatus.COMPLETED
    requires forall k :: 0 < k < |sys.store.runs[id].events| ==> sys.store.runs[id].events[k].kind != SIMULATION_QUEUED
    ensures sys.store.runs[id].receiptHash.Some?
    ensures sys.store.runs[id].receiptHash.value in sys.store.receipts
  {
    var log := sys.store.runs[id].events;
    CompletedWithoutReceipt(sys, id);
    var i := CompletedByProof(log);
    var j :| 0 <= j < i && log[..i][j].kind == RISK_MEASURED && Replayed(log[..i][..j], log[i].data.receiptHash);
    assert log[j].kind == RISK_MEASURED && j > 0;
  }

  // ---------- a run that is completed without a receipt ----------

  /** A system with one run and one worker on it. */
  ghost predicate Solo(sys: System, job: Job, pc: Pc, status: RunStatus, hasReceipt: bool) {
    && sys.hasRpcUrl
    && |sys.store.runs| == 1
    && job.simulationRunId == 0 && !job.includeStrategies
    && sys.store.runs[0].wallet == job.wallet && sys.store.runs[0].protocolChangeId == job.changeId
    && sys.store.runs[0].status == status && sys.store.runs[0].receiptHash.Some? == hasReceipt
    && sys.workers == [Worker(job, pc)]
  }

  lemma SoloStep(sys: System, job: Job, pc: Pc, status: RunStatus, hasReceipt: bool, receipt: Receipt)
    requires Solo(sys, job, pc, status, hasReceipt) && (pc.Load? ==> status == RunStatus.QUEUED)
    ensures var after := Step(sys, StepWorker(0, Works(receipt, "")));
            && after.markers == sys.markers && after.producers == sys.producers
            && Solo(after, job, Next(sys, job, pc, Works(receipt, "")),
                    if pc.Begin? then RunStatus.RUNNING
                    else if pc.Prove? then RunStatus.COMPLETED
                    else if pc.Fail? then RunStatus.FAILED else status,
                    hasReceipt || pc.Measure?)
  {
  }

  lemma SoloSteps(sys: System, actions: seq<Action>, last: Action)
    ensures Steps(sys, actions + [last]) == Step(Steps(sys, actions), last)
  {
    hide Step;
    assert (actions + [last])[..|actions|] == actions;
  }

  /** n steps of the worker, from loading the run on. */
  function Towards(receipt: Receipt, n: nat): seq<Action> {
    if n == 0 then [] else Towards(receipt, n - 1) + [StepWorker(0, Works(receipt, ""))]
  }

  function ProgressStatus(n: nat): RunStatus {
    if n < 2 then RunStatus.QUEUED else RunStatus.RUNNING
  }

  lemma {:induction false} SoloProgress(sys: System, job: Job, receipt: Receipt, n: nat)
    requires n <= 7 && Solo(sys, job, Load, RunStatus.QUEUED, false)
    ensures var after := Steps(sys, Towards(receipt, n));
            && after.markers == sys.markers && after.producers == sys.producers
            && Solo(after, job, ProgressPc(receipt, n), ProgressStatus(n), n == 7)
  {
    hide Solo, Step;
    if n > 0 {
      SoloProgress(sys, job, receipt, n - 1);
      SoloSteps(sys, Towards(receipt, n - 1), StepWorker(0, Works(receipt, "")));
      SoloNext(Steps(sys, Towards(receipt, n - 1)), job, receipt, n - 1);
    }
  }

  function ProgressPc(receipt: Receipt, n: nat): Pc {
    match n
    case 0 => Load
    case 1 => Begin
    case 2 => StartReplay
    case 3 => Replay
    case 4 => SaveBody(receipt)
    case 5 => CompleteReplay(receipt)
    case 6 => Measure(receipt)
    case _ => Prove(receipt)
  }

  lemma SoloNext(sys: System, job: Job, receipt: Receipt, n: nat)
    requires n < 7 && Solo(sys, job, ProgressPc(receipt, n), ProgressStatus(n), false)
    ensures var after := Step(sys, StepWorker(0, Works(receipt, "")));
            && after.markers == sys.markers && after.producers == sys.producers
            && Solo(after, job, ProgressPc(receipt, n + 1), ProgressStatus(n + 1), n + 1 == 7)
  {
    hide Step;
    SoloStep(sys, job, ProgressPc(receipt, n), ProgressStatus(n), false, receipt);
  }

  /**
   * The worker has measured the risk when the change moves: the run is marked stale, queued again,
   * and then completed by the old worker, with its receipt gone.
   */
  function RaceActions(job: Job, receipt: Receipt): seq<Action> {
    [CreateRun("key", job.wallet, job.changeId, false), StartWorker(job)]
    + Towards(receipt, 7)
    + [StartMarker(job.changeId, "QUEUED"), StepMarker(0), ReadForRequeue(0, false), StepProducer(0),
       StepWorker(0, Works(receipt, ""))]
  }

  lemma RaceStart(sys: System, job: Job)
    requires sys.store == Store([], map[]) && sys.workers == [] && sys.markers == [] && sys.producers == []
    requires sys.hasRpcUrl
    requires job.simulationRunId == 0 && !job.includeStrategies
    ensures var created := Step(Step(sys, CreateRun("key", job.wallet, job.changeId, false)), StartWorker(job));
            Solo(created, job, Load, RunStatus.QUEUED, false) && created.markers == [] && created.producers == []
  {
  }

  lemma RaceEnd(sys: System, job: Job, receipt: Receipt)
    requires Solo(sys, job, Prove(receipt), RunStatus.RUNNING, true) && sys.markers == [] && sys.producers == []
    ensures var marked := Step(Step(sys, StartMarker(job.changeId, "QUEUED")), StepMarker(0));
            var requeued := Step(Step(marked, ReadForRequeue(0, false)), StepProducer(0));
            Solo(requeued, job, Prove(receipt), RunStatus.QUEUED, false)
  {
    var found := Step(sys, StartMarker(job.changeId, "QUEUED"));
    assert FindOpen(sys.store, job.changeId, 1) == [0] by {
      assert FindOpen(sys.store, job.changeId, 0) == [];
    }
    var marked := Step(found, StepMarker(0));
    assert Solo(marked, job, Prove(receipt), RunStatus.STALE, true);
    var read := Step(marked, ReadForRequeue(0, false));
    assert read.producers == [Producer(0, false, false)];
  }

  lemma {:induction false} StepsJoin(sys: System, front: seq<Action>, back: seq<Action>)
    ensures Steps(sys, front + back) == Steps(Steps(sys, front), back)
    decreases |back|
  {
    hide Step;
    if back == [] {
      assert front + back == front;
    } else {
      var n := |back| - 1;
      assert (front + back)[..|front| + n] == front + back[..n];
      StepsJoin(sys, front, back[..n]);
    }
  }

  lemma TwoActions(sys: System, a: Action, b: Action)
    ensures Steps(sys, [a, b]) == Step(Step(sys, a), b)
  {
    hide Step;
    assert [a, b][..1] == [a] && [a][..0] == [];
    assert Steps(sys, [a]) == Step(Steps(sys, []), a);
  }

  /** The action sequence RaceActions is possible, and ends with a completed run that has no receipt. */
  lemma RaceLosesReceipt(hasGroqKey: bool, hashOf: Receipt -> Hash, job: Job, receipt: Receipt)
    requires job.simulationRunId == 0 && !job.includeStrategies
    ensures var after := Steps(Initial(true, hasGroqKey, hashOf), RaceActions(job, receipt));
            && |after.store.runs| == 1
            && after.store.runs[0].status == RunStatus.COMPLETED
            && after.store.runs[0].receiptHash.None?
  {
    var start := [CreateRun("key", job.wallet, job.changeId, false), StartWorker(job)];
    var mark := [StartMarker(job.changeId, "QUEUED"), StepMarker(0)];
    var requeue := [ReadForRequeue(0, false), StepProducer(0)];
    var prove := StepWorker(0, Works(receipt, ""));
    var s0 := Initial(true, hasGroqKey, hashOf);
    assert RaceActions(job, receipt) == (((start + Towards(receipt, 7)) + mark) + requeue) + [prove];
    SoloSteps(s0, ((start + Towards(receipt, 7)) + mark) + requeue, prove);
    StepsJoin(s0, (start + Towards(receipt, 7)) + mark, requeue);
    StepsJoin(s0, start + Towards(receipt, 7), mark);
    StepsJoin(s0, start, Towards(receipt, 7));
    var s1 := Steps(s0, start);
    var s2 := Steps(s1, Towards(receipt, 7));
    var s3 := Steps(s2, mark);
    var s4 := Steps(s3, requeue);
    RaceRuns(s0, s1, s2, s3, s4, job, receipt);
    assert Solo(Step(s4, prove), job, Done, RunStatus.COMPLETED, false);
  }

  lemma RaceRuns(s0: System, s1: System, s2: System, s3: System, s4: System, job: Job, receipt: Receipt)
    requires s0.store == Store([], map[]) && s0.workers == [] && s0.markers == [] && s0.producers == [] && s0.hasRpcUrl
    requires job.simulationRunId == 0 && !job.includeStrategies
    requires s1 == Steps(s0, [CreateRun("key", job.wallet, job.changeId, false), StartWorker(job)])
    requires s2 == Steps(s1, Towards(receipt, 7))
    requires s3 == Steps(s2, [StartMarker(job.changeId, "QUEUED"), StepMarker(0)])
    requires s4 == Steps(s3, [ReadForRequeue(0, false), StepProducer(0)])
    ensures Solo(Step(s4, StepWorker(0, Works(receipt, ""))), job, Done, RunStatus.COMPLETED, false)
  {
    hide Step, Solo, Steps;
    RaceStart(s0, job);
    TwoActions(s0, CreateRun("key", job.wallet, job.changeId, false), StartWorker(job));
    SoloProgress(s1, job, receipt, 7);
    TwoActions(s2, StartMarker(job.changeId, "QUEUED"), StepMarker(0));
    TwoActions(s3, ReadForRequeue(0, false), StepProducer(0));
    RaceEnd(s2, job, receipt);
    SoloStep(s4, job, Prove(receipt), RunStatus.QUEUED, false, receipt);
  }

  // ---------- a worker that nobody interrupts ----------

  function Rank(pc: Pc): nat {
    match pc
    case Load => 14
    case Begin => 13
    case StartReplay => 12
    case Replay => 11
    case SaveBody(_) => 10
    case CompleteReplay(_) => 9
    case Measure(_) => 8
    case StartAgent(_) => 7
    case StartOptimization(_) => 6
    case Compare(_) => 5
    case ReportBranches(_, _) => 4
    case Recommend(_, _) => 3
    case Prove(_) => 2
    case Fail(_) => 1
    case Done => 0
  }

  /** The system after a worker's remaining calls, with the answer the outside gives to each. */
  function Finish(sys: System, job: Job, pc: Pc, answers: Pc -> Answer): System
    decreases Rank(pc)
  {
    if pc.Done? then sys
    else
      var answer := answers(pc);
      var written :=
        if answer.Works? || answer.applied then Written(sys, job.simulationRunId, WriteOf(sys, pc)) else sys;
      Finish(written, job, if answer.Works? then Next(sys, job, pc, answer) else Thrown(pc, answer.code), answers)
  }
}
