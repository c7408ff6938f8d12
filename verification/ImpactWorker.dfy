/**
 * processImpactSimulation as it is written, apps/simulator/src/process-impact.ts: one worker with
 * nobody else at the store does what its program counter does in RunProtocol.
 */
module ImpactWorker {
  import opened Wrappers
  import opened LowerCase
  import opened RunStore
  import opened RunProtocol
  import opened WorkerLog

  /** The store as a system of its own. */
  function Snapshot(store: Store, nextEvent: nat, hasRpcUrl: bool, hasGroqKey: bool, hashOf: Receipt -> Hash): System {
    System(store, nextEvent, [], [], [], [], hasRpcUrl, hasGroqKey, hashOf)
  }

  lemma FinishStep(sys: System, job: Job, pc: Pc, answers: Pc -> Answer, after: System)
    requires !pc.Done?
    requires after == if answers(pc).Works? || answers(pc).applied
                      then Written(sys, job.simulationRunId, WriteOf(sys, pc)) else sys
    ensures answers(pc).Works?
        ==> Finish(sys, job, pc, answers) == Finish(after, job, Next(sys, job, pc, answers(pc)), answers)
    ensures answers(pc).Throws?
        ==> Finish(sys, job, pc, answers) == Finish(after, job, Thrown(pc, answers(pc).code), answers)
  {
  }

  /** The same for a call that appends an event. */
  lemma EventStep(sys: System, job: Job, pc: Pc, answers: Pc -> Answer, write: Write, after: System)
    requires !pc.Done? && write == WriteOf(sys, pc) && write.AppendEvent?
    requires after == if answers(pc).Works? || answers(pc).applied
                      then sys.(store := Append(sys.store, job.simulationRunId,
                                                Event(sys.nextEvent, write.kind, write.data), write.patch),
                                nextEvent := sys.nextEvent + 1)
                      else sys
    ensures answers(pc).Works?
        ==> Finish(sys, job, pc, answers) == Finish(after, job, Next(sys, job, pc, answers(pc)), answers)
    ensures answers(pc).Throws?
        ==> Finish(sys, job, pc, answers) == Finish(after, job, Thrown(pc, answers(pc).code), answers)
  {
    hide Finish, WriteOf, Append, Next, Thrown;
    FinishStep(sys, job, pc, answers, after);
  }

  /** appendRunEvent with createEvent: returns the code of the exception, if one is thrown. */
  method AppendEventTo(models: Models, id: RunId, kind: EventType, data: EventData, patch: Patch, answer: Answer)
    returns (thrown: Option<string>)
    modifies models
    ensures models.receipts == old(models.receipts)
    ensures if answer.Works? || answer.applied
            then models.Contents()
                   == Append(old(models.Contents()), id, Event(old(models.nextEvent), kind, data), patch)
                 && models.nextEvent == old(models.nextEvent) + 1
            else models.Contents() == old(models.Contents()) && models.nextEvent == old(models.nextEvent)
    ensures thrown == if answer.Works? then None else Some(answer.code)
  {
    if answer.Works? || answer.applied {
      var event := models.CreateEvent(kind, data);
      var _ := models.AppendRunEvent(id, event, patch);
    }
    thrown := if answer.Works? then None else Some(answer.code);
  }

  method ProcessImpactSimulation(models: Models, hasRpcUrl: bool, hasGroqKey: bool, hashOf: Receipt -> Hash, job: Job,
                                 answers: Pc -> Answer)
    modifies models
    ensures var end := Finish(Snapshot(old(models.Contents()), old(models.nextEvent), hasRpcUrl, hasGroqKey, hashOf),
                              job, Load, answers);
            models.Contents() == end.store && models.nextEvent == end.nextEvent
    ensures WorkerLeaves(Snapshot(old(models.Contents()), old(models.nextEvent), hasRpcUrl, hasGroqKey, hashOf),
                         Snapshot(models.Contents(), models.nextEvent, hasRpcUrl, hasGroqKey, hashOf), job, answers)
  {
    hide Finish, Append, Save, WorkerLeaves;
    var id := job.simulationRunId;
    ghost var s := Snapshot(models.Contents(), models.nextEvent, hasRpcUrl, hasGroqKey, hashOf);
    WorkerAlone(s, job, answers);
    FinishStep(s, job, Load, answers, s);
    Stopped(s, job, answers);
    if answers(Load).Throws? || id >= |models.runs| {
      return;
    }
    var run := models.runs[id];
    if Terminal(run.status) || Lower(run.wallet) != Lower(job.wallet) || run.protocolChangeId != job.changeId {
      return;
    }
    var thrown := AppendEventTo(models, id, FORK_STARTING, NoData, Patch(Some(RunStatus.RUNNING), None, None),
                                answers(Begin));
    ghost var s1 := Snapshot(models.Contents(), models.nextEvent, hasRpcUrl, hasGroqKey, hashOf);
    EventStep(s, job, Begin, answers,
              AppendEvent(FORK_STARTING, NoData, Patch(Some(RunStatus.RUNNING), None, None)), s1);
    Stopped(s1, job, answers);
    if thrown.Some? || !hasRpcUrl {
      return;
    }
    var failed := Attempt(models, hasRpcUrl, hasGroqKey, hashOf, job, answers);
    if failed.Some? {
      ghost var s2 := Snapshot(models.Contents(), models.nextEvent, hasRpcUrl, hasGroqKey, hashOf);
      var code := failed.value;
      var _ := AppendEventTo(models, id, EventType.FAILED, FailureData(code),
                             Patch(Some(RunStatus.FAILED), None, Some(code)), answers(Fail(code)));
      ghost var s3 := Snapshot(models.Contents(), models.nextEvent, hasRpcUrl, hasGroqKey, hashOf);
      EventStep(s2, job, Fail(code), answers,
                AppendEvent(EventType.FAILED, FailureData(code), Patch(Some(RunStatus.FAILED), None, Some(code))), s3);
      Stopped(s3, job, answers);
    } else {
      Stopped(Snapshot(models.Contents(), models.nextEvent, hasRpcUrl, hasGroqKey, hashOf), job, answers);
    }
  }

  lemma Stopped(sys: System, job: Job, answers: Pc -> Answer)
    ensures Finish(sys, job, Done, answers) == sys
  {
  }

  /** The try block: returns the code of the exception that leaves it, if any. */
  method Attempt(models: Models, hasRpcUrl: bool, hasGroqKey: bool, hashOf: Receipt -> Hash, job: Job,
                 answers: Pc -> Answer)
    returns (failed: Option<string>)
    modifies models
    ensures Finish(Snapshot(old(models.Contents()), old(models.nextEvent), hasRpcUrl, hasGroqKey, hashOf),
                   job, StartReplay, answers)
         == Finish(Snapshot(models.Contents(), models.nextEvent, hasRpcUrl, hasGroqKey, hashOf),
                   job, if failed.Some? then Fail(failed.value) else Done, answers)
  {
    hide Finish, Append, Save;
    var id := job.simulationRunId;
    ghost var s0 := Snapshot(models.Contents(), models.nextEvent, hasRpcUrl, hasGroqKey, hashOf);
    failed := AppendEventTo(models, id, CHANGE_REPLAY_STARTED, NoData, NO_PATCH, answers(StartReplay));
    ghost var s1 := Snapshot(models.Contents(), models.nextEvent, hasRpcUrl, hasGroqKey, hashOf);
    EventStep(s0, job, StartReplay, answers, AppendEvent(CHANGE_REPLAY_STARTED, NoData, NO_PATCH), s1);
    if failed.Some? {
      return;
    }
    FinishStep(s1, job, Replay, answers, s1);
    if answers(Replay).Throws? {
      return Some(answers(Replay).code);
    }
    var receipt := answers(Replay).receipt;
    failed := Publish(models, hasRpcUrl, hasGroqKey, hashOf, job, receipt, answers);
    if failed.Some? {
      return;
    }
    if job.includeStrategies {
      failed := Optimize(models, hasRpcUrl, hasGroqKey, hashOf, job, receipt, answers);
      if failed.Some? {
        return;
      }
    }
    ghost var s2 := Snapshot(models.Contents(), models.nextEvent, hasRpcUrl, hasGroqKey, hashOf);
    failed := AppendEventTo(models, id, PROOF_READY, ReceiptData(hashOf(receipt)),
                            Patch(Some(RunStatus.COMPLETED), None, None), answers(Prove(receipt)));
    ghost var s3 := Snapshot(models.Contents(), models.nextEvent, hasRpcUrl, hasGroqKey, hashOf);
    EventStep(s2, job, Prove(receipt), answers,
              AppendEvent(PROOF_READY, ReceiptData(hashOf(receipt)), Patch(Some(RunStatus.COMPLETED), None, None)), s3);
  }

  method Publish(models: Models, hasRpcUrl: bool, hasGroqKey: bool, hashOf: Receipt -> Hash, job: Job, receipt: Receipt,
                 answers: Pc -> Answer)
    returns (failed: Option<string>)
    modifies models
    ensures Finish(Snapshot(old(models.Contents()), old(models.nextEvent), hasRpcUrl, hasGroqKey, hashOf),
                   job, SaveBody(receipt), answers)
         == Finish(Snapshot(models.Contents(), models.nextEvent, hasRpcUrl, hasGroqKey, hashOf),
                   job, if failed.Some? then Fail(failed.value) else AfterPublish(job, hasGroqKey, receipt), answers)
  {
    hide Finish, Append, Save;
    var id := job.simulationRunId;
    var receiptHash := hashOf(receipt);
    ghost var s0 := Snapshot(models.Contents(), models.nextEvent, hasRpcUrl, hasGroqKey, hashOf);
    if answers(SaveBody(receipt)).Works? || answers(SaveBody(receipt)).applied {
      models.SaveReceipt(receiptHash, receipt);
    }
    ghost var s1 := Snapshot(models.Contents(), models.nextEvent, hasRpcUrl, hasGroqKey, hashOf);
    FinishStep(s0, job, SaveBody(receipt), answers, s1);
    if answers(SaveBody(receipt)).Throws? {
      return Some(answers(SaveBody(receipt)).code);
    }
    failed := AppendEventTo(models, id, CHANGE_REPLAY_COMPLETED, ReceiptData(receiptHash), NO_PATCH,
                            answers(CompleteReplay(receipt)));
    ghost var s2 := Snapshot(models.Contents(), models.nextEvent, hasRpcUrl, hasGroqKey, hashOf);
    EventStep(s1, job, CompleteReplay(receipt), answers,
              AppendEvent(CHANGE_REPLAY_COMPLETED, ReceiptData(receiptHash), NO_PATCH), s2);
    if failed.Some? {
      return;
    }
    failed := AppendEventTo(models, id, RISK_MEASURED, NoData,
                            Patch(None, Some(Measured(receiptHash, receipt.before, receipt.after)), None),
                            answers(Measure(receipt)));
    ghost var s3 := Snapshot(models.Contents(), models.nextEvent, hasRpcUrl, hasGroqKey, hashOf);
    EventStep(s2, job, Measure(receipt), answers,
              AppendEvent(RISK_MEASURED, NoData,
                          Patch(None, Some(Measured(receiptHash, receipt.before, receipt.after)), None)), s3);
  }

  method Optimize(models: Models, hasRpcUrl: bool, hasGroqKey: bool, hashOf: Receipt -> Hash, job: Job,
                  receipt: Receipt, answers: Pc -> Answer)
    returns (failed: Option<string>)
    requires job.includeStrategies
    modifies models
    ensures Finish(Snapshot(old(models.Contents()), old(models.nextEvent), hasRpcUrl, hasGroqKey, hashOf),
                   job, AfterPublish(job, hasGroqKey, receipt), answers)
         == Finish(Snapshot(models.Contents(), models.nextEvent, hasRpcUrl, hasGroqKey, hashOf),
                   job, if failed.Some? then Fail(failed.value) else Prove(receipt), answers)
  {
    hide Finish, Append, Save;
    var id := job.simulationRunId;
    ghost var s0 := Snapshot(models.Contents(), models.nextEvent, hasRpcUrl, hasGroqKey, hashOf);
    if hasGroqKey {
      failed := AppendEventTo(models, id, AGENT, NoData, NO_PATCH, answers(StartAgent(receipt)));
      ghost var s := Snapshot(models.Contents(), models.nextEvent, hasRpcUrl, hasGroqKey, hashOf);
      EventStep(s0, job, StartAgent(receipt), answers, AppendEvent(AGENT, NoData, NO_PATCH), s);
      if failed.Some? {
        return;
      }
    }
    ghost var s1 := Snapshot(models.Contents(), models.nextEvent, hasRpcUrl, hasGroqKey, hashOf);
    failed := AppendEventTo(models, id, STRATEGY_OPTIMIZATION_STARTED, NoData, NO_PATCH,
                            answers(StartOptimization(receipt)));
    ghost var s2 := Snapshot(models.Contents(), models.nextEvent, hasRpcUrl, hasGroqKey, hashOf);
    EventStep(s1, job, StartOptimization(receipt), answers,
              AppendEvent(STRATEGY_OPTIMIZATION_STARTED, NoData, NO_PATCH), s2);
    if failed.Some? {
      return;
    }
    FinishStep(s2, job, Compare(receipt), answers, s2);
    if answers(Compare(receipt)).Throws? {
      return Some(answers(Compare(receipt)).code);
    }
    failed := ReportStrategies(models, hasRpcUrl, hasGroqKey, hashOf, job, receipt,
                               answers(Compare(receipt)).strategies, answers);
  }

  method ReportStrategies(models: Models, hasRpcUrl: bool, hasGroqKey: bool, hashOf: Receipt -> Hash, job: Job,
                          receipt: Receipt, strategies: string, answers: Pc -> Answer)
    returns (failed: Option<string>)
    modifies models
    ensures Finish(Snapshot(old(models.Contents()), old(models.nextEvent), hasRpcUrl, hasGroqKey, hashOf),
                   job, ReportBranches(receipt, strategies), answers)
         == Finish(Snapshot(models.Contents(), models.nextEvent, hasRpcUrl, hasGroqKey, hashOf),
                   job, if failed.Some? then Fail(failed.value) else Prove(receipt), answers)
  {
    hide Finish, Append, Save;
    var id := job.simulationRunId;
    ghost var s0 := Snapshot(models.Contents(), models.nextEvent, hasRpcUrl, hasGroqKey, hashOf);
    failed := AppendEventTo(models, id, STRATEGY_BRANCH_RESULT, Payload(strategies), NO_PATCH,
                            answers(ReportBranches(receipt, strategies)));
    ghost var s1 := Snapshot(models.Contents(), models.nextEvent, hasRpcUrl, hasGroqKey, hashOf);
    EventStep(s0, job, ReportBranches(receipt, strategies), answers,
              AppendEvent(STRATEGY_BRANCH_RESULT, Payload(strategies), NO_PATCH), s1);
    if failed.Some? {
      return;
    }
    failed := AppendEventTo(models, id, RECOMMENDATION_READY, Payload(strategies), NO_PATCH,
                            answers(Recommend(receipt, strategies)));
    ghost var s2 := Snapshot(models.Contents(), models.nextEvent, hasRpcUrl, hasGroqKey, hashOf);
    EventStep(s1, job, Recommend(receipt, strategies), answers,
              AppendEvent(RECOMMENDATION_READY, Payload(strategies), NO_PATCH), s2);
  }

  // ---------- the same worker among the others ----------

  /** Steps of one worker in a row, until it is done. */
  function Drive(sys: System, w: nat, answers: Pc -> Answer): System
    requires w < |sys.workers|
    decreases Rank(sys.workers[w].pc)
  {
    var pc := sys.workers[w].pc;
    if pc.Done? then sys else Drive(WorkerStep(sys, w, answers(pc)), w, answers)
  }

  ghost predicate SameDocuments(a: System, b: System) {
    && a.store == b.store && a.nextEvent == b.nextEvent
    && a.hasRpcUrl == b.hasRpcUrl && a.hasGroqKey == b.hasGroqKey && a.hashOf == b.hashOf
  }

  lemma SameProgram(a: System, b: System, worker: Worker, answer: Answer)
    requires SameDocuments(a, b)
    ensures WriteOf(a, worker.pc) == WriteOf(b, worker.pc)
    ensures answer.Works? ==> Next(a, worker.job, worker.pc, answer) == Next(b, worker.job, worker.pc, answer)
    ensures answer.Works? && !worker.pc.Done? ==> Rank(Next(a, worker.job, worker.pc, answer)) < Rank(worker.pc)
    ensures answer.Throws? && !worker.pc.Done? ==> Rank(Thrown(worker.pc, answer.code)) < Rank(worker.pc)
  {
  }

  /** A worker of the whole system that is left alone writes what processImpactSimulation writes. */
  lemma {:induction false} DriveIsFinish(sys: System, twin: System, w: nat, answers: Pc -> Answer)
    requires w < |sys.workers| && SameDocuments(sys, twin)
    ensures SameDocuments(Drive(sys, w, answers), Finish(twin, sys.workers[w].job, sys.workers[w].pc, answers))
    decreases Rank(sys.workers[w].pc)
  {
    hide WriteOf, Next, Thrown;
    var worker := sys.workers[w];
    if !worker.pc.Done? {
      SameProgram(sys, twin, worker, answers(worker.pc));
      var answer := answers(worker.pc);
      var next := WorkerStep(sys, w, answer);
      var written := if answer.Works? || answer.applied
                     then Written(twin, worker.job.simulationRunId, WriteOf(twin, worker.pc)) else twin;
      assert next.workers[w].job == worker.job;
      DriveIsFinish(next, written, w, answers);
    }
  }
}
