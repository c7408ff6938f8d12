/**
 * Who changes the status of a run: what a step writes is read off the processes before it, the
 * status after any steps is the last one written, and a status is final exactly when it is COMPLETED
 * and no process holds the run.
 */
module RunStatuses {
  import opened Wrappers
  import opened RunStore
  import opened RunProtocol

  // ---------- one step ----------

  /** The status a worker gives its run with the call it makes next. */
  function WorkerWrites(pc: Pc): Option<RunStatus> {
    match pc
    case Begin => Some(RunStatus.RUNNING)
    case Prove(_) => Some(RunStatus.COMPLETED)
    case Fail(_) => Some(RunStatus.FAILED)
    case _ => None
  }

  function MarkerWrites(nextStatus: string): RunStatus {
    if ShouldCancelOpenSimulations(nextStatus) then RunStatus.CANCELLED else RunStatus.STALE
  }

  /** The status an action writes to a run, by the process that takes the step. */
  function Writes(sys: System, action: Action, id: RunId): Option<RunStatus> {
    match action
    case StepWorker(w, answer) =>
      if w < |sys.workers| && sys.workers[w].job.simulationRunId == id && (answer.Works? || answer.applied)
      then WorkerWrites(sys.workers[w].pc) else None
    case StepMarker(m) =>
      if m < |sys.markers| && sys.markers[m].marked < |sys.markers[m].open|
         && sys.markers[m].open[sys.markers[m].marked] == id
      then Some(MarkerWrites(sys.markers[m].nextStatus)) else None
    case StepProducer(p) =>
      if p < |sys.producers| && !sys.producers[p].requeued && sys.producers[p].run == id
      then Some(RunStatus.QUEUED) else None
    case _ => None
  }

  function Status(sys: System, id: RunId): Option<RunStatus> {
    if id < |sys.store.runs| then Some(sys.store.runs[id].status) else None
  }

  lemma WorkerStepStatus(sys: System, w: nat, answer: Answer, id: RunId)
    requires w < |sys.workers| && id < |sys.store.runs|
    ensures Status(WorkerStep(sys, w, answer), id)
         == if Writes(sys, StepWorker(w, answer), id).Some? then Writes(sys, StepWorker(w, answer), id)
            else Status(sys, id)
  {
  }

  /** A step gives a run the status it writes, and otherwise leaves the one it has. */
  lemma StatusAfterStep(sys: System, action: Action, id: RunId)
    requires id < |sys.store.runs|
    ensures Status(Step(sys, action), id)
         == if Writes(sys, action, id).Some? then Writes(sys, action, id) else Status(sys, id)
    ensures Status(Step(sys, action), id) == Status(sys, id)
       <==> Writes(sys, action, id).None? || Writes(sys, action, id) == Status(sys, id)
  {
    hide WorkerStep;
    if action.StepWorker? && action.worker < |sys.workers| {
      WorkerStepStatus(sys, action.worker, action.answer, id);
    }
  }

  // ---------- any number of steps ----------

  /** The last status that the actions write to a run. */
  function LastWritten(sys: System, actions: seq<Action>, id: RunId): Option<RunStatus> {
    if actions == [] then None
    else
      var n := |actions| - 1;
      var written := Writes(Steps(sys, actions[..n]), actions[n], id);
      if written.Some? then written else LastWritten(sys, actions[..n], id)
  }

  /** Along every interleaving the status of a run is the last one that a process holding it wrote. */
  lemma {:induction false} StatusAfterSteps(sys: System, actions: seq<Action>, id: RunId)
    requires id < |sys.store.runs|
    ensures Status(Steps(sys, actions), id)
         == if LastWritten(sys, actions, id).Some? then LastWritten(sys, actions, id) else Status(sys, id)
  {
    hide Step, Writes;
    if actions != [] {
      var front := actions[..|actions| - 1];
      StatusAfterSteps(sys, front, id);
      RunsStay(sys, front, id);
      StatusAfterStep(Steps(sys, front), actions[|actions| - 1], id);
    }
  }

  lemma RunsStay(sys: System, actions: seq<Action>, id: RunId)
    requires id < |sys.store.runs|
    ensures id < |Steps(sys, actions).store.runs|
  {
    hide Steps;
    StepsExtend(sys, actions, 0);
    assert actions[..0] == [];
    NoSteps(sys);
  }

  lemma NoSteps(sys: System)
    ensures Steps(sys, []) == sys
  {
  }

  // ---------- the processes that hold a run ----------

  ghost predicate WorkerHolds(worker: Worker, id: RunId) {
    worker.job.simulationRunId == id && !worker.pc.Load? && !worker.pc.Done?
  }

  ghost predicate MarkerHolds(marker: Marker, id: RunId) {
    exists k :: marker.marked <= k < |marker.open| && marker.open[k] == id
  }

  ghost predicate ProducerHolds(producer: Producer, id: RunId) {
    producer.run == id && !producer.requeued
  }

  /** Some process is past the point where it looks at the status. */
  ghost predicate Held(sys: System, id: RunId) {
    || (exists worker :: worker in sys.workers && WorkerHolds(worker, id))
    || (exists marker :: marker in sys.markers && MarkerHolds(marker, id))
    || (exists producer :: producer in sys.producers && ProducerHolds(producer, id))
  }

  /** A terminal status that nobody is about to change. */
  ghost predicate Quiet(sys: System, id: RunId) {
    && id < |sys.store.runs| && Terminal(sys.store.runs[id].status) && !Held(sys, id)
  }

  predicate ReadsForRequeue(action: Action, id: RunId) {
    action.ReadForRequeue? && action.run == id
  }

  lemma NobodyWrites(sys: System, action: Action, id: RunId)
    requires !Held(sys, id)
    ensures Writes(sys, action, id).None?
  {
    match action
    case StepWorker(w, answer) =>
      if w < |sys.workers| {
        assert sys.workers[w] in sys.workers;
      }
    case StepMarker(m) =>
      if m < |sys.markers| {
        assert sys.markers[m] in sys.markers;
      }
    case StepProducer(p) =>
      if p < |sys.producers| {
        assert sys.producers[p] in sys.producers;
      }
    case _ =>
  }

  lemma SteppedWorkerHoldsNot(sys: System, worker: Worker, answer: Answer, id: RunId)
    requires id < |sys.store.runs| && Terminal(sys.store.runs[id].status) && !WorkerHolds(worker, id)
    ensures var next :=
              if answer.Works? then Next(sys, worker.job, worker.pc, answer) else Thrown(worker.pc, answer.code);
            !WorkerHolds(worker.(pc := next), id)
  {
  }

  lemma WorkerStepHoldsNot(sys: System, w: nat, answer: Answer, id: RunId)
    requires w < |sys.workers| && Quiet(sys, id)
    ensures !Held(WorkerStep(sys, w, answer), id)
  {
    hide Next, Thrown, WriteOf, Written, WorkerHolds, MarkerHolds, ProducerHolds, Terminal;
    var after := WorkerStep(sys, w, answer);
    assert sys.workers[w] in sys.workers;
    SteppedWorkerHoldsNot(sys, sys.workers[w], answer, id);
    WrittenSame(sys, sys.workers[w].job.simulationRunId,
                if answer.Works? || answer.applied then WriteOf(sys, sys.workers[w].pc) else Nothing);
    forall worker | worker in after.workers
      ensures !WorkerHolds(worker, id)
    {
      var i :| 0 <= i < |after.workers| && after.workers[i] == worker;
      assert i == w || worker in sys.workers;
    }
  }

  lemma WrittenSame(sys: System, id: RunId, write: Write)
    ensures var after := Written(sys, id, write);
            after.workers == sys.workers && after.markers == sys.markers && after.producers == sys.producers
  {
  }

  lemma MarkerStepHoldsNot(sys: System, m: nat, id: RunId)
    requires m < |sys.markers| && !Held(sys, id)
    ensures !Held(MarkerStep(sys, m), id)
  {
    hide WorkerHolds, ProducerHolds, Append;
    var after := MarkerStep(sys, m);
    assert sys.markers[m] in sys.markers;
    forall marker | marker in after.markers
      ensures !MarkerHolds(marker, id)
    {
      var i :| 0 <= i < |after.markers| && after.markers[i] == marker;
      assert i == m || marker in sys.markers;
    }
  }

  lemma ProducerStepHoldsNot(sys: System, p: nat, id: RunId)
    requires p < |sys.producers| && !Held(sys, id)
    ensures !Held(ProducerStep(sys, p), id)
  {
    hide WorkerHolds, MarkerHolds, Requeue;
    var after := ProducerStep(sys, p);
    assert sys.producers[p] in sys.producers;
    forall producer | producer in after.producers
      ensures !ProducerHolds(producer, id)
    {
      var i :| 0 <= i < |after.producers| && after.producers[i] == producer;
      assert i == p || producer in sys.producers;
    }
  }

  lemma StartMarkerHoldsNot(sys: System, changeId: string, nextStatus: string, id: RunId)
    requires Quiet(sys, id)
    ensures !Held(Step(sys, StartMarker(changeId, nextStatus)), id)
  {
    hide WorkerHolds, ProducerHolds, FindOpen;
    var marker := Marker(nextStatus, FindOpen(sys.store, changeId, |sys.store.runs|), 0);
    assert !MarkerHolds(marker, id);
    hide MarkerHolds;
  }

  /** A quiet run stays quiet, unless a producer reads it in order to queue it again. */
  lemma StaysQuiet(sys: System, action: Action, id: RunId)
    requires Quiet(sys, id)
    requires ReadsForRequeue(action, id) ==> sys.store.runs[id].status == RunStatus.COMPLETED
    ensures Quiet(Step(sys, action), id) && Status(Step(sys, action), id) == Status(sys, id)
  {
    NobodyWrites(sys, action, id);
    StatusAfterStep(sys, action, id);
    NobodyNew(sys, action, id);
  }

  lemma NobodyNew(sys: System, action: Action, id: RunId)
    requires Quiet(sys, id)
    requires ReadsForRequeue(action, id) ==> sys.store.runs[id].status == RunStatus.COMPLETED
    ensures !Held(Step(sys, action), id)
  {
    hide WorkerStep, MarkerStep, ProducerStep, Append, CreateStep, MarkerHolds;
    match action
    case StepWorker(w, answer) =>
      if w < |sys.workers| {
        WorkerStepHoldsNot(sys, w, answer, id);
      }
    case StartMarker(changeId, nextStatus) => StartMarkerHoldsNot(sys, changeId, nextStatus, id);
    case StepMarker(m) =>
      if m < |sys.markers| {
        MarkerStepHoldsNot(sys, m, id);
      }
    case StepProducer(p) =>
      if p < |sys.producers| {
        ProducerStepHoldsNot(sys, p, id);
      }
    case CreateRun(key, wallet, changeId, includeStrategies) =>
      CreateStepSame(sys, key, wallet, changeId, includeStrategies);
    case _ =>
  }

  lemma CreateStepSame(sys: System, key: string, wallet: string, changeId: string, includeStrategies: bool)
    ensures var after := CreateStep(sys, key, wallet, changeId, includeStrategies);
            after.workers == sys.workers && after.markers == sys.markers && after.producers == sys.producers
  {
  }

  /** A terminal status that no process holds stays, whatever happens, as long as nobody queues the run again. */
  lemma {:induction false} TerminalStays(sys: System, actions: seq<Action>, id: RunId)
    requires Quiet(sys, id)
    requires sys.store.runs[id].status == RunStatus.COMPLETED
          || forall i :: 0 <= i < |actions| ==> !ReadsForRequeue(actions[i], id)
    ensures Quiet(Steps(sys, actions), id) && Status(Steps(sys, actions), id) == Status(sys, id)
  {
    hide Step, Held, ReadsForRequeue;
    if actions != [] {
      var n := |actions| - 1;
      TerminalStays(sys, actions[..n], id);
      StaysQuiet(Steps(sys, actions[..n]), actions[n], id);
    }
  }

  // ---------- final statuses ----------

  lemma OneAction(sys: System, action: Action)
    ensures Steps(sys, [action]) == Step(sys, action)
  {
    assert [action][..0] == [];
    NoSteps(sys);
  }

  /** A holder whose next call writes changes the status at once, any other one by failing. */
  lemma WorkerChanges(sys: System, w: nat, id: RunId) returns (actions: seq<Action>)
    requires id < |sys.store.runs| && w < |sys.workers| && WorkerHolds(sys.workers[w], id)
    requires sys.store.runs[id].status == RunStatus.COMPLETED
    ensures Status(Steps(sys, actions), id) != Status(sys, id)
  {
    hide Steps, Step;
    var last := StepWorker(w, Works(Receipt("", "", ""), ""));
    var pc := sys.workers[w].pc;
    if pc.Begin? || pc.Fail? {
      actions := [last];
      OneAction(sys, last);
      StatusAfterStep(sys, last, id);
    } else {
      var first := StepWorker(w, Throws("RISK_READ_FAILED", false));
      actions := [first, last];
      TwoActions(sys, first, last);
      StatusAfterStep(sys, first, id);
      ThrowsToFail(sys, w);
      StatusAfterStep(Step(sys, first), last, id);
    }
  }

  lemma ThrowsToFail(sys: System, w: nat)
    requires w < |sys.workers| && !sys.workers[w].pc.Load? && !sys.workers[w].pc.Begin?
    requires !sys.workers[w].pc.Fail? && !sys.workers[w].pc.Done?
    ensures var after := Step(sys, StepWorker(w, Throws("RISK_READ_FAILED", false)));
            && after.store == sys.store && |after.workers| == |sys.workers|
            && after.workers[w] == sys.workers[w].(pc := Fail("RISK_READ_FAILED"))
  {
  }

  /** A marker comes to every run it has still to mark. */
  lemma {:induction false} MarkerReaches(sys: System, m: nat, k: nat, id: RunId) returns (actions: seq<Action>)
    requires id < |sys.store.runs| && m < |sys.markers|
    requires sys.markers[m].marked <= k < |sys.markers[m].open| && sys.markers[m].open[k] == id
    ensures Status(Steps(sys, actions), id) == Some(MarkerWrites(sys.markers[m].nextStatus))
    decreases k - sys.markers[m].marked
  {
    hide Steps, Append;
    var step := StepMarker(m);
    OneAction(sys, step);
    if sys.markers[m].marked == k {
      actions := [step];
      StatusAfterStep(sys, step, id);
    } else {
      RunsStay(sys, [step], id);
      var rest := MarkerReaches(Step(sys, step), m, k, id);
      StepsJoin(sys, [step], rest);
      actions := [step] + rest;
    }
  }

  lemma ProducerChanges(sys: System, p: nat, id: RunId) returns (actions: seq<Action>)
    requires id < |sys.store.runs| && p < |sys.producers| && ProducerHolds(sys.producers[p], id)
    requires sys.store.runs[id].status != RunStatus.QUEUED
    ensures Status(Steps(sys, actions), id) != Status(sys, id)
  {
    hide Steps, Step;
    actions := [StepProducer(p)];
    OneAction(sys, StepProducer(p));
    StatusAfterStep(sys, StepProducer(p), id);
  }

  lemma HolderChanges(sys: System, id: RunId) returns (actions: seq<Action>)
    requires id < |sys.store.runs| && sys.store.runs[id].status == RunStatus.COMPLETED && Held(sys, id)
    ensures Status(Steps(sys, actions), id) != Status(sys, id)
  {
    hide Steps, WorkerHolds, ProducerHolds;
    if worker :| worker in sys.workers && WorkerHolds(worker, id) {
      var w :| 0 <= w < |sys.workers| && sys.workers[w] == worker;
      actions := WorkerChanges(sys, w, id);
    } else if marker :| marker in sys.markers && MarkerHolds(marker, id) {
      var m :| 0 <= m < |sys.markers| && sys.markers[m] == marker;
      var k :| marker.marked <= k < |marker.open| && marker.open[k] == id;
      actions := MarkerReaches(sys, m, k, id);
    } else {
      var producer :| producer in sys.producers && ProducerHolds(producer, id);
      var p :| 0 <= p < |sys.producers| && sys.producers[p] == producer;
      actions := ProducerChanges(sys, p, id);
    }
  }

  /** A failed, stale or cancelled run can be queued again, an open one can be marked. */
  lemma OthersChange(sys: System, id: RunId) returns (actions: seq<Action>)
    requires id < |sys.store.runs| && sys.store.runs[id].status != RunStatus.COMPLETED
    ensures Status(Steps(sys, actions), id) != Status(sys, id)
  {
    hide Steps;
    if Terminal(sys.store.runs[id].status) {
      var first := ReadForRequeue(id, false);
      var more := ProducerChanges(Step(sys, first), |sys.producers|, id);
      actions := [first] + more;
      OneAction(sys, first);
      StepsJoin(sys, [first], more);
    } else {
      var first := StartMarker(sys.store.runs[id].protocolChangeId, "QUEUED");
      var open := FindOpen(sys.store, sys.store.runs[id].protocolChangeId, |sys.store.runs|);
      var k :| 0 <= k < |open| && open[k] == id;
      var more := MarkerReaches(Step(sys, first), |sys.markers|, k, id);
      actions := [first] + more;
      OneAction(sys, first);
      StepsJoin(sys, [first], more);
    }
  }

  ghost predicate Final(sys: System, id: RunId) {
    forall actions: seq<Action> :: Status(Steps(sys, actions), id) == Status(sys, id)
  }

  /** The status of a run can never change again exactly when it is COMPLETED and no process holds the run. */
  lemma FinalIffCompletedAndReleased(sys: System, id: RunId)
    requires id < |sys.store.runs|
    ensures Final(sys, id) <==> sys.store.runs[id].status == RunStatus.COMPLETED && !Held(sys, id)
  {
    hide Steps, Held;
    if sys.store.runs[id].status != RunStatus.COMPLETED {
      var actions := OthersChange(sys, id);
    } else if Held(sys, id) {
      var actions := HolderChanges(sys, id);
    } else {
      forall actions: seq<Action>
        ensures Status(Steps(sys, actions), id) == Status(sys, id)
      {
        TerminalStays(sys, actions, id);
      }
    }
  }
}
