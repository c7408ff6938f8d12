/**
 * What a worker of apps/simulator/src/process-impact.ts leaves in the log of its run when nobody else
 * writes: event by event when all its calls work, and the failure when one throws.
 */
module WorkerLog {
  import opened Wrappers
  import opened LowerCase
  import opened RunStore
  import opened RunProtocol

  // ---------- statements ----------

  datatype Entry = Entry(kind: EventType, data: EventData)

  /** Events with these contents and consecutive ids. */
  function Numbered(next: nat, entries: seq<Entry>): (events: seq<Event>)
    ensures |events| == |entries|
  {
    seq(|entries|, i requires 0 <= i < |entries| => Event(next + i, entries[i].kind, entries[i].data))
  }

  /** The log of a worker whose calls all work. */
  function WorkerEntries(receiptHash: Hash, includeStrategies: bool, hasGroqKey: bool, strategies: string): seq<Entry> {
    [Entry(FORK_STARTING, NoData), Entry(CHANGE_REPLAY_STARTED, NoData),
     Entry(CHANGE_REPLAY_COMPLETED, ReceiptData(receiptHash)), Entry(RISK_MEASURED, NoData)]
    + (if includeStrategies && hasGroqKey then [Entry(AGENT, NoData)] else [])
    + (if includeStrategies
       then [Entry(STRATEGY_OPTIMIZATION_STARTED, NoData), Entry(STRATEGY_BRANCH_RESULT, Payload(strategies)),
             Entry(RECOMMENDATION_READY, Payload(strategies))]
       else [])
    + [Entry(PROOF_READY, ReceiptData(receiptHash))]
  }

  /** The run a worker may go on with. */
  predicate Accepts(runs: seq<Run>, job: Job) {
    && job.simulationRunId < |runs|
    && var run := runs[job.simulationRunId];
       && (run.status == RunStatus.QUEUED || run.status == RunStatus.RUNNING)
       && Lower(run.wallet) == Lower(job.wallet) && run.protocolChangeId == job.changeId
  }

  /** Only one run differs, and that one by more events and by fields that a worker sets. */
  ghost predicate OnlyRun(before: seq<Run>, after: seq<Run>, id: RunId) {
    && |after| == |before|
    && (forall i :: 0 <= i < |before| && i != id ==> after[i] == before[i])
    && (id < |before| ==>
          && before[id].events <= after[id].events && after[id].key == before[id].key
          && after[id].wallet == before[id].wallet && after[id].protocolChangeId == before[id].protocolChangeId
          && after[id].includeStrategies == before[id].includeStrategies)
  }

  /** The run is completed with this receipt, which is stored unless one of its hash was, and these events. */
  ghost predicate Completes(
      before: Store, next: nat, after: Store, afterNext: nat, id: RunId, entries: seq<Entry>, receiptHash: Hash,
      receipt: Receipt)
  {
    && id < |before.runs| && OnlyRun(before.runs, after.runs, id)
    && afterNext == next + |entries|
    && after.runs[id].events == before.runs[id].events + Numbered(next, entries)
    && after.runs[id].status == RunStatus.COMPLETED && after.runs[id].receiptHash == Some(receiptHash)
    && after.runs[id].before == Some(receipt.before) && after.runs[id].after == Some(receipt.after)
    && after.runs[id].errorCode == before.runs[id].errorCode
    && after.receipts
       == if receiptHash in before.receipts then before.receipts else before.receipts[receiptHash := receipt]
  }

  /** The run is failed with this code, by its last event. */
  ghost predicate FailsWith(before: Store, after: Store, afterNext: nat, id: RunId, code: string) {
    && id < |before.runs| && OnlyRun(before.runs, after.runs, id) && afterNext > 0
    && after.runs[id].status == RunStatus.FAILED && after.runs[id].errorCode == Some(code)
    && |after.runs[id].events| > |before.runs[id].events|
    && after.runs[id].events[|after.runs[id].events| - 1] == Event(afterNext - 1, EventType.FAILED, FailureData(code))
  }

  /** The run has one event more, FORK_STARTING, and is running. */
  ghost predicate OnlyForks(before: Store, next: nat, after: Store, afterNext: nat, id: RunId) {
    && id < |before.runs| && OnlyRun(before.runs, after.runs, id) && after.receipts == before.receipts
    && afterNext == next + 1
    && after.runs[id].events == before.runs[id].events + [Event(next, FORK_STARTING, NoData)]
    && after.runs[id].status == RunStatus.RUNNING && after.runs[id].errorCode == before.runs[id].errorCode
    && after.runs[id].receiptHash == before.runs[id].receiptHash
  }

  /** The calls of the try block, in order. */
  function TryCalls(job: Job, hasGroqKey: bool, receipt: Receipt, strategies: string): seq<Pc> {
    [StartReplay, Replay, SaveBody(receipt), CompleteReplay(receipt), Measure(receipt)]
    + (if job.includeStrategies && hasGroqKey then [StartAgent(receipt)] else [])
    + (if job.includeStrategies
       then [StartOptimization(receipt), Compare(receipt), ReportBranches(receipt, strategies),
             Recommend(receipt, strategies)]
       else [])
    + [Prove(receipt)]
  }

  /** The code of the first of the calls that throws. */
  function FirstThrown(answers: Pc -> Answer, calls: seq<Pc>): Option<string> {
    if calls == [] then None
    else if answers(calls[0]).Throws? then Some(answers(calls[0]).code)
    else FirstThrown(answers, calls[1..])
  }

  function ReceiptOf(answers: Pc -> Answer): Receipt {
    if answers(Replay).Works? then answers(Replay).receipt else Receipt("", "", "")
  }

  function StrategiesOf(answers: Pc -> Answer): string {
    var compared := answers(Compare(ReceiptOf(answers)));
    if compared.Works? then compared.strategies else ""
  }

  /** The calls of the try block with the receipt and the strategies that they return. */
  function CallsOf(job: Job, hasGroqKey: bool, answers: Pc -> Answer): seq<Pc> {
    TryCalls(job, hasGroqKey, ReceiptOf(answers), StrategiesOf(answers))
  }

  /** What a worker that begins with Load and is left alone makes of the store. */
  ghost predicate WorkerLeaves(sys: System, end: System, job: Job, answers: Pc -> Answer) {
    var id, receipt, thrown := job.simulationRunId, ReceiptOf(answers),
                               FirstThrown(answers, CallsOf(job, sys.hasGroqKey, answers));
    if !Accepts(sys.store.runs, job) || answers(Load).Throws? then
      end.store == sys.store && end.nextEvent == sys.nextEvent
    else if answers(Begin).Throws? then
      if answers(Begin).applied then OnlyForks(sys.store, sys.nextEvent, end.store, end.nextEvent, id)
      else end.store == sys.store && end.nextEvent == sys.nextEvent
    else if !sys.hasRpcUrl then OnlyForks(sys.store, sys.nextEvent, end.store, end.nextEvent, id)
    else if thrown.None? then
      Completes(sys.store, sys.nextEvent, end.store, end.nextEvent, id,
                WorkerEntries(sys.hashOf(receipt), job.includeStrategies, sys.hasGroqKey, StrategiesOf(answers)),
                sys.hashOf(receipt), receipt)
    else
      var recorded := answers(Fail(thrown.value));
      FailsWith(sys.store, end.store, end.nextEvent, id, thrown.value) <==> recorded.Works? || recorded.applied
  }

  // ---------- one run moves on ----------

  /** What has happened to the run since the worker began, and the receipts that are stored. */
  datatype Progress = Progress(
    entries: seq<Entry>, status: RunStatus, measured: Option<Measured>, errorCode: Option<string>,
    receipts: map<Hash, Receipt>)

  function RunAt(run: Run, next: nat, p: Progress): Run {
    var logged := run.(events := run.events + Numbered(next, p.entries), status := p.status, errorCode := p.errorCode);
    if p.measured.None? then logged
    else logged.(receiptHash := Some(p.measured.value.receiptHash), before := Some(p.measured.value.before),
                 after := Some(p.measured.value.after))
  }

  function At(sys: System, id: RunId, p: Progress): System
    requires id < |sys.store.runs|
  {
    sys.(store := Store(sys.store.runs[id := RunAt(sys.store.runs[id], sys.nextEvent, p)], p.receipts),
         nextEvent := sys.nextEvent + |p.entries|)
  }

  function StartOf(sys: System, id: RunId): Progress
    requires id < |sys.store.runs|
  {
    Progress([], sys.store.runs[id].status, None, sys.store.runs[id].errorCode, sys.store.receipts)
  }

  lemma AtStart(sys: System, id: RunId)
    requires id < |sys.store.runs|
    ensures At(sys, id, StartOf(sys, id)) == sys
  {
    var run := sys.store.runs[id];
    assert run.events + [] == run.events;
    assert sys.store.runs[id := run] == sys.store.runs;
  }

  /** The progress after one write. */
  function Further(sys: System, p: Progress, write: Write): Progress {
    match write
    case Nothing => p
    case AppendEvent(kind, data, patch) =>
      p.(entries := p.entries + [Entry(kind, data)],
         status := if patch.status.Some? then patch.status.value else p.status,
         measured := if patch.measured.Some? then patch.measured else p.measured,
         errorCode := if patch.errorCode.Some? then patch.errorCode else p.errorCode)
    case SaveReceipt(receipt) =>
      if sys.hashOf(receipt) in p.receipts then p
      else p.(receipts := p.receipts[sys.hashOf(receipt) := receipt])
  }

  lemma NumberedOneMore(run: Run, next: nat, p: Progress, entry: Entry)
    ensures run.events + Numbered(next, p.entries + [entry])
         == (run.events + Numbered(next, p.entries)) + [Event(next + |p.entries|, entry.kind, entry.data)]
  {
  }

  lemma WrittenAt(sys: System, id: RunId, p: Progress, write: Write)
    requires id < |sys.store.runs|
    ensures Written(At(sys, id, p), id, write) == At(sys, id, Further(sys, p, write))
  {
    hide Numbered;
    if write.AppendEvent? {
      NumberedOneMore(sys.store.runs[id], sys.nextEvent, p, Entry(write.kind, write.data));
      var now, then_ := At(sys, id, p), At(sys, id, Further(sys, p, write));
      assert now.store.runs[id := then_.store.runs[id]] == then_.store.runs;
    }
  }

  lemma ProgramAt(sys: System, id: RunId, p: Progress, job: Job, pc: Pc, answer: Answer)
    requires id < |sys.store.runs|
    ensures WriteOf(At(sys, id, p), pc) == WriteOf(sys, pc)
    ensures answer.Works? && !pc.Load? ==> Next(At(sys, id, p), job, pc, answer) == Next(sys, job, pc, answer)
  {
    hide RunAt;
  }

  /** One step of the worker. */
  lemma StepFurther(sys: System, job: Job, pc: Pc, answers: Pc -> Answer, p: Progress)
    requires job.simulationRunId < |sys.store.runs| && !pc.Load? && !pc.Done?
    ensures var id := job.simulationRunId;
            var q := if answers(pc).Works? || answers(pc).applied then Further(sys, p, WriteOf(sys, pc)) else p;
            Finish(At(sys, id, p), job, pc, answers)
            == Finish(At(sys, id, q), job,
                      if answers(pc).Works? then Next(sys, job, pc, answers(pc)) else Thrown(pc, answers(pc).code),
                      answers)
  {
    hide WriteOf, Written, At, Next, Thrown, Further;
    var id := job.simulationRunId;
    ProgramAt(sys, id, p, job, pc, answers(pc));
    WrittenAt(sys, id, p, WriteOf(sys, pc));
  }

  // ---------- all calls work ----------

  lemma {:induction false} NoneThrown(answers: Pc -> Answer, calls: seq<Pc>)
    requires FirstThrown(answers, calls) == None
    ensures forall pc :: pc in calls ==> answers(pc).Works?
  {
    if calls != [] {
      NoneThrown(answers, calls[1..]);
      assert forall pc :: pc in calls ==> pc == calls[0] || pc in calls[1..];
    }
  }

  /** Every call of the try block works. */
  ghost predicate AllWork(job: Job, hasGroqKey: bool, answers: Pc -> Answer) {
    FirstThrown(answers, CallsOf(job, hasGroqKey, answers)) == None
  }

  lemma WorkingCalls(job: Job, hasGroqKey: bool, answers: Pc -> Answer)
    requires AllWork(job, hasGroqKey, answers)
    ensures var receipt := ReceiptOf(answers);
            && answers(StartReplay).Works? && answers(Replay).Works? && answers(SaveBody(receipt)).Works?
            && answers(CompleteReplay(receipt)).Works? && answers(Measure(receipt)).Works?
            && answers(Prove(receipt)).Works?
    ensures job.includeStrategies ==>
              var receipt, strategies := ReceiptOf(answers), StrategiesOf(answers);
              && (hasGroqKey ==> answers(StartAgent(receipt)).Works?)
              && answers(StartOptimization(receipt)).Works? && answers(Compare(receipt)).Works?
              && answers(ReportBranches(receipt, strategies)).Works? && answers(Recommend(receipt, strategies)).Works?
  {
    hide ReceiptOf, StrategiesOf, FirstThrown;
    var receipt, strategies := ReceiptOf(answers), StrategiesOf(answers);
    var calls := CallsOf(job, hasGroqKey, answers);
    NoneThrown(answers, calls);
    assert calls[0] == StartReplay && calls[1] == Replay && calls[2] == SaveBody(receipt);
    assert calls[3] == CompleteReplay(receipt) && calls[4] == Measure(receipt) && calls[|calls| - 1] == Prove(receipt);
    if job.includeStrategies {
      var k := |calls|;
      assert hasGroqKey ==> calls[5] == StartAgent(receipt);
      assert calls[k - 2] == Recommend(receipt, strategies) && calls[k - 3] == ReportBranches(receipt, strategies);
      assert calls[k - 4] == Compare(receipt) && calls[k - 5] == StartOptimization(receipt);
    }
  }

  /** Where a worker goes once its receipt is published. */
  function AfterPublish(job: Job, hasGroqKey: bool, receipt: Receipt): Pc {
    if !job.includeStrategies then Prove(receipt)
    else if hasGroqKey then StartAgent(receipt) else StartOptimization(receipt)
  }

  function Measurement(sys: System, receipt: Receipt): Measured {
    Measured(sys.hashOf(receipt), receipt.before, receipt.after)
  }

  /** The progress of a worker that has published its receipt. */
  function Published(sys: System, id: RunId, receipt: Receipt): Progress
    requires id < |sys.store.runs|
  {
    var h := sys.hashOf(receipt);
    Progress([Entry(FORK_STARTING, NoData), Entry(CHANGE_REPLAY_STARTED, NoData),
              Entry(CHANGE_REPLAY_COMPLETED, ReceiptData(h)), Entry(RISK_MEASURED, NoData)],
             RunStatus.RUNNING, Some(Measurement(sys, receipt)), sys.store.runs[id].errorCode,
             if h in sys.store.receipts then sys.store.receipts else sys.store.receipts[h := receipt])
  }

  lemma Publishes(sys: System, job: Job, answers: Pc -> Answer)
    requires job.simulationRunId < |sys.store.runs| && AllWork(job, sys.hasGroqKey, answers) && sys.hasRpcUrl
    requires answers(Begin).Works?
    ensures var id, receipt := job.simulationRunId, ReceiptOf(answers);
            Finish(sys, job, Begin, answers)
            == Finish(At(sys, id, Published(sys, id, receipt)), job, AfterPublish(job, sys.hasGroqKey, receipt),
                      answers)
  {
    hide AllWork, Finish, At;
    WorkingCalls(job, sys.hasGroqKey, answers);
    var id, receipt := job.simulationRunId, ReceiptOf(answers);
    var p0 := StartOf(sys, id);
    AtStart(sys, id);
    StepFurther(sys, job, Begin, answers, p0);
    var p1 := Further(sys, p0, WriteOf(sys, Begin));
    StepFurther(sys, job, StartReplay, answers, p1);
    var p2 := Further(sys, p1, WriteOf(sys, StartReplay));
    StepFurther(sys, job, Replay, answers, p2);
    StepFurther(sys, job, SaveBody(receipt), answers, p2);
    var p3 := Further(sys, p2, WriteOf(sys, SaveBody(receipt)));
    StepFurther(sys, job, CompleteReplay(receipt), answers, p3);
    var p4 := Further(sys, p3, WriteOf(sys, CompleteReplay(receipt)));
    StepFurther(sys, job, Measure(receipt), answers, p4);
    assert Further(sys, p4, WriteOf(sys, Measure(receipt))) == Published(sys, id, receipt);
  }

  function Logged(p: Progress, entries: seq<Entry>): Progress {
    p.(entries := p.entries + entries)
  }

  /** What the strategies add to the log. */
  function StrategyEntries(hasGroqKey: bool, strategies: string): seq<Entry> {
    (if hasGroqKey then [Entry(AGENT, NoData)] else []) + OptimizationEntries(strategies)
  }

  function OptimizationEntries(strategies: string): seq<Entry> {
    [Entry(STRATEGY_OPTIMIZATION_STARTED, NoData), Entry(STRATEGY_BRANCH_RESULT, Payload(strategies)),
     Entry(RECOMMENDATION_READY, Payload(strategies))]
  }

  lemma Optimizes(sys: System, job: Job, answers: Pc -> Answer, p: Progress)
    requires job.simulationRunId < |sys.store.runs| && AllWork(job, sys.hasGroqKey, answers) && job.includeStrategies
    ensures var id, receipt := job.simulationRunId, ReceiptOf(answers);
            Finish(At(sys, id, p), job, StartOptimization(receipt), answers)
            == Finish(At(sys, id, Logged(p, OptimizationEntries(StrategiesOf(answers)))), job, Prove(receipt), answers)
  {
    hide AllWork, Finish, At;
    WorkingCalls(job, sys.hasGroqKey, answers);
    var receipt, strategies := ReceiptOf(answers), StrategiesOf(answers);
    StepFurther(sys, job, StartOptimization(receipt), answers, p);
    var p2 := Further(sys, p, WriteOf(sys, StartOptimization(receipt)));
    StepFurther(sys, job, Compare(receipt), answers, p2);
    StepFurther(sys, job, ReportBranches(receipt, strategies), answers, p2);
    var p3 := Further(sys, p2, WriteOf(sys, ReportBranches(receipt, strategies)));
    StepFurther(sys, job, Recommend(receipt, strategies), answers, p3);
    var p4 := Further(sys, p3, WriteOf(sys, Recommend(receipt, strategies)));
    assert p4.entries == p.entries + OptimizationEntries(strategies);
  }

  lemma ReportsStrategies(sys: System, job: Job, answers: Pc -> Answer, p: Progress)
    requires job.simulationRunId < |sys.store.runs| && AllWork(job, sys.hasGroqKey, answers) && job.includeStrategies
    ensures var id, receipt := job.simulationRunId, ReceiptOf(answers);
            Finish(At(sys, id, p), job, AfterPublish(job, sys.hasGroqKey, receipt), answers)
            == Finish(At(sys, id, Logged(p, StrategyEntries(sys.hasGroqKey, StrategiesOf(answers)))), job,
                      Prove(receipt), answers)
  {
    hide AllWork, Finish, At, OptimizationEntries;
    WorkingCalls(job, sys.hasGroqKey, answers);
    var receipt, optimization := ReceiptOf(answers), OptimizationEntries(StrategiesOf(answers));
    var p1 := p;
    if sys.hasGroqKey {
      StepFurther(sys, job, StartAgent(receipt), answers, p);
      p1 := Further(sys, p, WriteOf(sys, StartAgent(receipt)));
    }
    Optimizes(sys, job, answers, p1);
    assert p1.entries + optimization
        == p.entries + ((if sys.hasGroqKey then [Entry(AGENT, NoData)] else []) + optimization);
  }

  function Proved(sys: System, p: Progress, receipt: Receipt): Progress {
    Logged(p, [Entry(PROOF_READY, ReceiptData(sys.hashOf(receipt)))]).(status := RunStatus.COMPLETED)
  }

  lemma Proves(sys: System, job: Job, answers: Pc -> Answer, p: Progress)
    requires job.simulationRunId < |sys.store.runs| && AllWork(job, sys.hasGroqKey, answers)
    ensures var id, receipt := job.simulationRunId, ReceiptOf(answers);
            Finish(At(sys, id, p), job, Prove(receipt), answers)
            == At(sys, id, Proved(sys, p, receipt))
  {
    hide AllWork, At;
    WorkingCalls(job, sys.hasGroqKey, answers);
    StepFurther(sys, job, Prove(ReceiptOf(answers)), answers, p);
  }

  /** A worker whose calls all work completes its run. */
  lemma WorkerCompletes(sys: System, job: Job, answers: Pc -> Answer)
    requires Accepts(sys.store.runs, job) && answers(Load).Works? && answers(Begin).Works? && sys.hasRpcUrl
    requires AllWork(job, sys.hasGroqKey, answers)
    ensures var end := Finish(sys, job, Load, answers);
            var receipt := ReceiptOf(answers);
            Completes(sys.store, sys.nextEvent, end.store, end.nextEvent, job.simulationRunId,
                      WorkerEntries(sys.hashOf(receipt), job.includeStrategies, sys.hasGroqKey, StrategiesOf(answers)),
                      sys.hashOf(receipt), receipt)
  {
    hide AllWork, Finish, At, Completes;
    var id, receipt := job.simulationRunId, ReceiptOf(answers);
    var p := Published(sys, id, receipt);
    LoadsAccepted(sys, job, answers);
    Publishes(sys, job, answers);
    if job.includeStrategies {
      ReportsStrategies(sys, job, answers, p);
      p := Logged(p, StrategyEntries(sys.hasGroqKey, StrategiesOf(answers)));
    }
    Proves(sys, job, answers, p);
    p := Proved(sys, p, receipt);
    assert p.entries
        == WorkerEntries(sys.hashOf(receipt), job.includeStrategies, sys.hasGroqKey, StrategiesOf(answers));
    CompletedAt(sys, id, p, receipt);
  }

  lemma LoadsAccepted(sys: System, job: Job, answers: Pc -> Answer)
    requires Accepts(sys.store.runs, job) && answers(Load).Works?
    ensures Finish(sys, job, Load, answers) == Finish(sys, job, Begin, answers)
  {
    hide Lower;
  }

  lemma CompletedAt(sys: System, id: RunId, p: Progress, receipt: Receipt)
    requires id < |sys.store.runs| && p.status == RunStatus.COMPLETED && p.errorCode == sys.store.runs[id].errorCode
    requires p.measured == Some(Measurement(sys, receipt))
    requires var h := sys.hashOf(receipt);
             p.receipts == if h in sys.store.receipts then sys.store.receipts else sys.store.receipts[h := receipt]
    ensures Completes(sys.store, sys.nextEvent, At(sys, id, p).store, At(sys, id, p).nextEvent, id, p.entries,
                      sys.hashOf(receipt), receipt)
  {
  }

  // ---------- a call throws ----------

  /** A call inside the try block. */
  predicate InTry(pc: Pc) {
    !pc.Load? && !pc.Begin? && !pc.Fail? && !pc.Done?
  }

  /** The call at i is inside the try block, and the call after it is the one the worker makes next. */
  ghost predicate LinkedAt(sys: System, job: Job, answers: Pc -> Answer, calls: seq<Pc>, i: nat)
    requires i < |calls|
  {
    && InTry(calls[i])
    && (i + 1 < |calls| && answers(calls[i]).Works? ==> Next(sys, job, calls[i], answers(calls[i])) == calls[i + 1])
  }

  lemma TryCallsLinked(sys: System, job: Job, answers: Pc -> Answer, i: nat)
    requires i < |CallsOf(job, sys.hasGroqKey, answers)|
    ensures LinkedAt(sys, job, answers, CallsOf(job, sys.hasGroqKey, answers), i)
  {
    hide StrategiesOf;
    var calls := CallsOf(job, sys.hasGroqKey, answers);
    if i == 1 && answers(Replay).Works? {
      assert ReceiptOf(answers) == answers(Replay).receipt;
    }
    if calls[i].Compare? && answers(calls[i]).Works? {
      ComparedStrategies(answers);
    }
  }

  lemma ComparedStrategies(answers: Pc -> Answer)
    requires answers(Compare(ReceiptOf(answers))).Works?
    ensures StrategiesOf(answers) == answers(Compare(ReceiptOf(answers))).strategies
  {
  }

  lemma FurtherGrows(sys: System, p: Progress, pc: Pc)
    requires InTry(pc)
    ensures p.entries <= Further(sys, p, WriteOf(sys, pc)).entries
    ensures p.status != RunStatus.FAILED ==> Further(sys, p, WriteOf(sys, pc)).status != RunStatus.FAILED
  {
  }

  /** From any call of the try block, the first one that throws leads to the catch block. */
  lemma {:induction false} ThrowsFrom(sys: System, job: Job, answers: Pc -> Answer, p: Progress, i: nat, code: string)
    returns (q: Progress)
    requires job.simulationRunId < |sys.store.runs| && i < |CallsOf(job, sys.hasGroqKey, answers)|
    requires FirstThrown(answers, CallsOf(job, sys.hasGroqKey, answers)[i..]) == Some(code)
    requires p.status != RunStatus.FAILED
    ensures Finish(At(sys, job.simulationRunId, p), job, CallsOf(job, sys.hasGroqKey, answers)[i], answers)
         == Finish(At(sys, job.simulationRunId, q), job, Fail(code), answers)
    ensures p.entries <= q.entries && q.status != RunStatus.FAILED
    decreases |CallsOf(job, sys.hasGroqKey, answers)| - i
  {
    hide CallsOf, Finish, At, WriteOf, Further, Next;
    var calls := CallsOf(job, sys.hasGroqKey, answers);
    var pc := calls[i];
    TryCallsLinked(sys, job, answers, i);
    StepFurther(sys, job, pc, answers, p);
    FurtherGrows(sys, p, pc);
    var next := if answers(pc).Works? || answers(pc).applied then Further(sys, p, WriteOf(sys, pc)) else p;
    assert calls[i..][0] == pc && calls[i..][1..] == calls[i + 1..];
    if answers(pc).Throws? {
      q := next;
    } else {
      q := ThrowsFrom(sys, job, answers, next, i + 1, code);
    }
  }

  lemma FailedAt(sys: System, id: RunId, p: Progress, code: string)
    requires id < |sys.store.runs| && p.status == RunStatus.FAILED && p.errorCode == Some(code) && p.entries != []
    requires p.entries[|p.entries| - 1] == Entry(EventType.FAILED, FailureData(code))
    ensures FailsWith(sys.store, At(sys, id, p).store, At(sys, id, p).nextEvent, id, code)
  {
  }

  lemma NotFailedAt(sys: System, id: RunId, p: Progress, code: string)
    requires id < |sys.store.runs| && p.status != RunStatus.FAILED
    ensures !FailsWith(sys.store, At(sys, id, p).store, At(sys, id, p).nextEvent, id, code)
  {
  }

  lemma CatchBlock(sys: System, job: Job, answers: Pc -> Answer, q: Progress, code: string)
    requires job.simulationRunId < |sys.store.runs| && q.status != RunStatus.FAILED
    ensures var end := Finish(At(sys, job.simulationRunId, q), job, Fail(code), answers);
            FailsWith(sys.store, end.store, end.nextEvent, job.simulationRunId, code)
            <==> answers(Fail(code)).Works? || answers(Fail(code)).applied
  {
    hide At, FailsWith;
    var id := job.simulationRunId;
    StepFurther(sys, job, Fail(code), answers, q);
    if answers(Fail(code)).Works? || answers(Fail(code)).applied {
      FailedAt(sys, id, Further(sys, q, WriteOf(sys, Fail(code))), code);
    } else {
      NotFailedAt(sys, id, q, code);
    }
  }

  lemma BeginsRun(sys: System, job: Job, answers: Pc -> Answer) returns (p: Progress)
    requires Accepts(sys.store.runs, job) && answers(Load).Works? && answers(Begin).Works?
    ensures p == Progress([Entry(FORK_STARTING, NoData)], RunStatus.RUNNING, None,
                          sys.store.runs[job.simulationRunId].errorCode, sys.store.receipts)
    ensures Finish(sys, job, Load, answers)
         == Finish(At(sys, job.simulationRunId, p), job, if sys.hasRpcUrl then StartReplay else Done, answers)
  {
    hide At, Finish;
    var id := job.simulationRunId;
    LoadsAccepted(sys, job, answers);
    AtStart(sys, id);
    StepFurther(sys, job, Begin, answers, StartOf(sys, id));
    p := Further(sys, StartOf(sys, id), WriteOf(sys, Begin));
    assert p.entries == [Entry(FORK_STARTING, NoData)];
  }

  /** The first call of the try block that throws fails the run with its code, if that can be written. */
  lemma WorkerFails(sys: System, job: Job, answers: Pc -> Answer, code: string)
    requires Accepts(sys.store.runs, job) && answers(Load).Works? && answers(Begin).Works? && sys.hasRpcUrl
    requires FirstThrown(answers, CallsOf(job, sys.hasGroqKey, answers)) == Some(code)
    ensures var end := Finish(sys, job, Load, answers);
            FailsWith(sys.store, end.store, end.nextEvent, job.simulationRunId, code)
            <==> answers(Fail(code)).Works? || answers(Fail(code)).applied
  {
    hide FirstThrown, Finish, At, FailsWith;
    var calls := CallsOf(job, sys.hasGroqKey, answers);
    var p := BeginsRun(sys, job, answers);
    assert calls[0..] == calls && calls[0] == StartReplay;
    var q := ThrowsFrom(sys, job, answers, p, 0, code);
    CatchBlock(sys, job, answers, q, code);
  }

  /** Without a URL for the fork the worker stops after FORK_STARTING, and the run stays running. */
  lemma WithoutRpcUrl(sys: System, job: Job, answers: Pc -> Answer)
    requires Accepts(sys.store.runs, job) && answers(Load).Works? && answers(Begin).Works? && !sys.hasRpcUrl
    ensures var end := Finish(sys, job, Load, answers);
            OnlyForks(sys.store, sys.nextEvent, end.store, end.nextEvent, job.simulationRunId)
  {
    var p := BeginsRun(sys, job, answers);
    assert Numbered(sys.nextEvent, p.entries) == [Event(sys.nextEvent, FORK_STARTING, NoData)];
  }

  /** A first event that cannot be written leaves nothing or itself, and nothing follows. */
  lemma BeginThrows(sys: System, job: Job, answers: Pc -> Answer)
    requires Accepts(sys.store.runs, job) && answers(Load).Works? && answers(Begin).Throws?
    ensures var end := Finish(sys, job, Load, answers);
            if answers(Begin).applied
            then OnlyForks(sys.store, sys.nextEvent, end.store, end.nextEvent, job.simulationRunId)
            else end.store == sys.store && end.nextEvent == sys.nextEvent
  {
    var id := job.simulationRunId;
    LoadsAccepted(sys, job, answers);
    AtStart(sys, id);
    StepFurther(sys, job, Begin, answers, StartOf(sys, id));
    var p := Further(sys, StartOf(sys, id), WriteOf(sys, Begin));
    assert Numbered(sys.nextEvent, p.entries) == [Event(sys.nextEvent, FORK_STARTING, NoData)];
  }

  /** A run that is closed, or of another wallet or change, gets nothing. */
  lemma RefusesRun(sys: System, job: Job, answers: Pc -> Answer)
    requires !Accepts(sys.store.runs, job) || answers(Load).Throws?
    ensures Finish(sys, job, Load, answers) == sys
  {
    hide Lower;
  }

  /** Every worker that is left alone: nothing, the first event only, a completed run, or a failed one. */
  lemma WorkerAlone(sys: System, job: Job, answers: Pc -> Answer)
    ensures WorkerLeaves(sys, Finish(sys, job, Load, answers), job, answers)
  {
    hide Finish, Accepts, OnlyForks, Completes, FailsWith, FirstThrown, CallsOf, WorkerEntries;
    var thrown := FirstThrown(answers, CallsOf(job, sys.hasGroqKey, answers));
    if !Accepts(sys.store.runs, job) || answers(Load).Throws? {
      RefusesRun(sys, job, answers);
    } else if answers(Begin).Throws? {
      BeginThrows(sys, job, answers);
    } else if !sys.hasRpcUrl {
      WithoutRpcUrl(sys, job, answers);
    } else if thrown.None? {
      WorkerCompletes(sys, job, answers);
    } else {
      WorkerFails(sys, job, answers, thrown.value);
    }
  }
}
