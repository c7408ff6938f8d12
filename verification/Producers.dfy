/**
 * Producers of simulation runs: claiming a run for an idempotency key
 * (packages/persistence/src/runs.ts), resuming it, and adding its job to the bounded queue
 * (apps/api/src/simulations/simulations.service.ts, apps/indexer/src/enqueue.ts). Any number of
 * producers interleave, each database or queue call being one atomic step.
 */
module Producers {
  import opened Wrappers
  import opened RunStore

  const IMPACT_QUEUE_MAX_INFLIGHT := 16
  const CLAIM_ATTEMPTS := 8

  type JobId = string

  datatype JobState = Waiting | Delayed | Active | Completed | Failed

  /** A job carries the run it was added for. */
  datatype Job = Job(run: RunId, state: JobState)

  predicate InFlight(state: JobState) {
    state == Waiting || state == Delayed || state == Active
  }

  /** impactSimulationJobId: colons become dashes. */
  function JobIdOf(key: string): JobId {
    seq(|key|, i requires 0 <= i < |key| => if key[i] == ':' then '-' else key[i])
  }

  // ---------- one claim, with others inserting in between ----------

  /** Runs that other processes insert, one after the other; each insert may meet the unique index. */
  function Interfere(st: Store, others: seq<Run>): (after: Store)
    ensures |st.runs| <= |after.runs|
    ensures forall i :: 0 <= i < |st.runs| ==> after.runs[i] == st.runs[i]
  {
    if others == [] then st
    else
      var front := Interfere(st, others[..|others| - 1]);
      match Insert(front, others[|others| - 1]) case Ok(next) => next case Err(_) => front
  }

  method Meddle(models: Models, others: seq<Run>)
    modifies models`runs
    ensures models.Contents() == Interfere(old(models.Contents()), others)
  {
    for i := 0 to |others|
      invariant models.Contents() == Interfere(old(models.Contents()), others[..i])
    {
      assert others[..i + 1][..i] == others[..i];
      var _ := models.InsertSimulationRun(others[i]);
    }
    assert others[..|others|] == others;
  }

  /**
   * claimSimulationRun. others(n) are the runs inserted by other processes between the find and the
   * insert of attempt n. The claim always returns a run with its key, after at most two attempts.
   */
  method ClaimSimulationRun(models: Models, run: Run, others: nat -> seq<Run>)
    returns (id: Result<RunId>, attempts: nat)
    modifies models`runs
    ensures id.Ok? && id.value < |models.runs| && models.runs[id.value].key == run.key
    ensures 1 <= attempts <= 2
    ensures |old(models.runs)| <= |models.runs|
    ensures forall i :: 0 <= i < |old(models.runs)| ==> models.runs[i] == old(models.runs)[i]
  {
    attempts := 0;
    var attempt := 0;
    while attempt < CLAIM_ATTEMPTS
      invariant attempt == attempts <= 1
      invariant attempt == 1 ==> exists i :: 0 <= i < |models.runs| && models.runs[i].key == run.key
      invariant |old(models.runs)| <= |models.runs|
      invariant forall i :: 0 <= i < |old(models.runs)| ==> models.runs[i] == old(models.runs)[i]
    {
      attempts := attempts + 1;
      var existing := models.FindRunByIdempotencyKey(run.key);
      if existing.Some? {
        return Ok(existing.value), attempts;
      }
      Meddle(models, others(attempt));
      id := models.InsertSimulationRun(run);
      if id.Ok? {
        return id, attempts;
      }
      attempt := attempt + 1;
    }
    assert false;
    id := Err("Failed to claim simulation run");
  }

  // ---------- producers ----------

  /** Where a producer stands: the constructor names the call it makes next, or how it ended. */
  datatype Phase =
    | Idle
    | Finding(attempt: nat)
    | Inserting(attempt: nat)
    | Requeueing(run: RunId)
    | Counting(run: RunId)
    | LookingUp(run: RunId)
    | ReadingState(run: RunId)
    | Removing(run: RunId)
    | Adding(run: RunId)
    | Returned(run: RunId)
    | Refused
    | Crashed
    | DuplicateEscaped

  datatype Producer = Producer(seed: Run, phase: Phase)

  datatype System = System(store: Store, jobs: map<JobId, Job>, producers: seq<Producer>, nextEvent: nat)

  datatype Action =
    | Begin(producer: nat, seed: Run)
    | StepProducer(producer: nat, works: bool)
    | SetStatus(run: RunId, status: RunStatus)
    | MoveJob(job: JobId, state: JobState)
    | DropJob(job: JobId)

  /** What a producer does with the run it claimed, by the status it read. */
  function Resume(run: RunId, status: RunStatus): Phase {
    if status == RunStatus.FAILED || status == RunStatus.STALE || status == RunStatus.CANCELLED then Requeueing(run)
    else if status == RunStatus.COMPLETED then Returned(run) else Counting(run)
  }

  function InFlightJobs(jobs: map<JobId, Job>): set<JobId> {
    set id | id in jobs && InFlight(jobs[id].state)
  }

  function Moved(sys: System, p: nat, phase: Phase): System
    requires p < |sys.producers|
  {
    sys.(producers := sys.producers[p := sys.producers[p].(phase := phase)])
  }

  function FindStep(sys: System, p: nat, attempt: nat): System
    requires p < |sys.producers|
  {
    var seed := sys.producers[p].seed;
    var found := FindByKey(sys.store.runs, seed.key);
    if found.Some? then Moved(sys, p, Resume(found.value, sys.store.runs[found.value].status))
    else if attempt < CLAIM_ATTEMPTS then Moved(sys, p, Inserting(attempt))
    else Moved(sys, p, DuplicateEscaped)
  }

  function InsertStep(sys: System, p: nat, attempt: nat): System
    requires p < |sys.producers|
  {
    var seed := sys.producers[p].seed;
    match Insert(sys.store, seed)
    case Ok(store) => Moved(sys.(store := store), p, Resume(|sys.store.runs|, seed.status))
    case Err(_) => Moved(sys, p, Finding(attempt + 1))
  }

  /** remove throws for a job that a worker holds; a removed or missing job is gone. */
  function RemoveStep(sys: System, p: nat, run: RunId, id: JobId): System
    requires p < |sys.producers|
  {
    if id in sys.jobs && sys.jobs[id].state == Active then Moved(sys, p, Crashed)
    else Moved(sys.(jobs := sys.jobs - {id}), p, Adding(run))
  }

  /** add leaves a job alone that is there already. */
  function AddStep(sys: System, p: nat, run: RunId, id: JobId): System
    requires p < |sys.producers|
  {
    Moved(if id in sys.jobs then sys else sys.(jobs := sys.jobs[id := Job(run, Waiting)]), p, Returned(run))
  }

  /** A call that fails for another reason than a duplicate ends the producer. */
  function ProducerStep(sys: System, p: nat, works: bool): System
    requires p < |sys.producers|
  {
    var producer := sys.producers[p];
    var id := JobIdOf(producer.seed.key);
    if !works && !Ended(producer.phase) then Moved(sys, p, Crashed)
    else
      match producer.phase
      case Finding(attempt) => FindStep(sys, p, attempt)
      case Inserting(attempt) => InsertStep(sys, p, attempt)
      case Requeueing(run) =>
        Moved(sys.(store := Requeue(sys.store, run, Event(sys.nextEvent, SIMULATION_QUEUED, NoData),
                                    Some(producer.seed.includeStrategies)),
                   nextEvent := sys.nextEvent + 1), p, Counting(run))
      case Counting(run) =>
        Moved(sys, p, if |InFlightJobs(sys.jobs)| >= IMPACT_QUEUE_MAX_INFLIGHT then Refused else LookingUp(run))
      case LookingUp(run) => Moved(sys, p, if id in sys.jobs then ReadingState(run) else Adding(run))
      case ReadingState(run) =>
        Moved(sys, p, if id in sys.jobs && InFlight(sys.jobs[id].state) then Returned(run) else Removing(run))
      case Removing(run) => RemoveStep(sys, p, run, id)
      case Adding(run) => AddStep(sys, p, run, id)
      case _ => sys
  }

  /** The jobs that count against the bound and are left alone: those that wait, are delayed or run. */
  lemma InFlightJob(jobs: map<JobId, Job>, id: JobId)
    ensures id in InFlightJobs(jobs) <==> id in jobs && jobs[id].state in {Waiting, Delayed, Active}
  {
  }

  /**
   * What a producer does to the queue: it adds a job of its own run under an id that is free, having
   * removed one that was neither waiting nor delayed when it looked; removing one that runs fails.
   */
  lemma ProducerAtQueue(sys: System, p: nat)
    requires p < |sys.producers|
    ensures var after, phase := ProducerStep(sys, p, true), sys.producers[p].phase;
            var id, next := JobIdOf(sys.producers[p].seed.key), after.producers[p].phase;
            match phase
            case Counting(run) =>
              next == (if |InFlightJobs(sys.jobs)| >= 16 then Refused else LookingUp(run)) && after.jobs == sys.jobs
            case LookingUp(run) =>
              next == (if id in sys.jobs then ReadingState(run) else Adding(run)) && after.jobs == sys.jobs
            case ReadingState(run) =>
              var kept := id in sys.jobs && sys.jobs[id].state in {Waiting, Delayed, Active};
              next == (if kept then Returned(run) else Removing(run)) && after.jobs == sys.jobs
            case Removing(run) =>
              if id in sys.jobs && sys.jobs[id].state == Active then next == Crashed && after.jobs == sys.jobs
              else next == Adding(run) && after.jobs == sys.jobs - {id}
            case Adding(run) =>
              && next == Returned(run)
              && after.jobs == if id in sys.jobs then sys.jobs else sys.jobs[id := Job(run, Waiting)]
            case _ => after.jobs == sys.jobs
  {
    hide JobIdOf, InFlightJobs, Insert, Requeue, FindByKey;
  }

  /** Where a producer goes with a run it has claimed, by the status it read. */
  ghost predicate Resumes(next: Phase, run: RunId, status: RunStatus) {
    match status
    case COMPLETED => next == Returned(run)
    case QUEUED => next == Counting(run)
    case RUNNING => next == Counting(run)
    case _ => next == Requeueing(run)
  }

  ghost predicate FirstOfKey(runs: seq<Run>, key: string, i: nat)
    requires i < |runs|
  {
    runs[i].key == key && forall j :: 0 <= j < i ==> runs[j].key != key
  }

  /**
   * What a producer does to the store: it looks its key up, inserts its run if the key is not taken by
   * then, looks again if it is, and queues a run that has ended without a proof again, with its own
   * wish for strategies.
   */
  lemma ProducerAtStore(sys: System, p: nat)
    requires p < |sys.producers|
    ensures var after, seed, phase := ProducerStep(sys, p, true), sys.producers[p].seed, sys.producers[p].phase;
            var next, runs := after.producers[p].phase, sys.store.runs;
            match phase
            case Finding(attempt) =>
              && after.store == sys.store
              && (forall i :: 0 <= i < |runs| && FirstOfKey(runs, seed.key, i) ==> Resumes(next, i, runs[i].status))
              && ((forall i :: 0 <= i < |runs| ==> runs[i].key != seed.key) && attempt < 8 ==>
                    next == Inserting(attempt))
            case Inserting(attempt) =>
              if exists i :: 0 <= i < |runs| && runs[i].key == seed.key
              then after.store == sys.store && next == Finding(attempt + 1)
              else after.store.runs == runs + [seed] && Resumes(next, |runs|, seed.status)
            case Requeueing(run) =>
              && next == Counting(run) && |after.store.runs| == |runs| && after.nextEvent == sys.nextEvent + 1
              && (forall i :: 0 <= i < |runs| && i != run ==> after.store.runs[i] == runs[i])
              && (run < |runs| ==>
                    QueuedAgain(runs[run], after.store.runs[run], Event(sys.nextEvent, SIMULATION_QUEUED, NoData),
                                Some(seed.includeStrategies)))
            case _ => after.store == sys.store
  {
    hide JobIdOf, InFlightJobs;
    FirstWithKey(sys.store.runs, sys.producers[p].seed.key);
  }

  lemma {:induction false} FirstWithKey(runs: seq<Run>, key: string)
    ensures FindByKey(runs, key).Some? ==>
              forall j :: 0 <= j < |runs| && j < FindByKey(runs, key).value ==> runs[j].key != key
  {
    if runs != [] {
      FirstWithKey(runs[..|runs| - 1], key);
    }
  }

  predicate Ended(phase: Phase) {
    phase.Idle? || phase.Returned? || phase.Refused? || phase.Crashed? || phase.DuplicateEscaped?
  }

  /** Queue workers start, retry and finish jobs; a job that is not in flight never is again. */
  predicate MayMove(from: JobState, to: JobState) {
    InFlight(from) || !InFlight(to)
  }

  function Step(sys: System, action: Action): System {
    match action
    case Begin(p, seed) =>
      if p < |sys.producers| && Ended(sys.producers[p].phase)
      then sys.(producers := sys.producers[p := Producer(seed, Finding(0))]) else sys
    case StepProducer(p, works) => if p < |sys.producers| then ProducerStep(sys, p, works) else sys
    case SetStatus(run, status) =>
      if run < |sys.store.runs|
      then sys.(store := sys.store.(runs := sys.store.runs[run := sys.store.runs[run].(status := status)])) else sys
    case MoveJob(id, state) =>
      if id in sys.jobs && MayMove(sys.jobs[id].state, state)
      then sys.(jobs := sys.jobs[id := sys.jobs[id].(state := state)]) else sys
    case DropJob(id) => sys.(jobs := sys.jobs - {id})
  }

  function Steps(sys: System, actions: seq<Action>): System {
    if actions == [] then sys else Step(Steps(sys, actions[..|actions| - 1]), actions[|actions| - 1])
  }

  function Initial(idle: seq<Producer>): System {
    System(Store([], map[]), map[], idle, 0)
  }

  // ---------- the invariants ----------

  ghost predicate UniqueKeys(runs: seq<Run>) {
    forall i, j :: 0 <= i < j < |runs| ==> runs[i].key != runs[j].key
  }

  ghost predicate HasKey(runs: seq<Run>, key: string) {
    exists i :: 0 <= i < |runs| && runs[i].key == key
  }

  function RunOf(phase: Phase): Option<RunId> {
    match phase
    case Requeueing(run) => Some(run)
    case Counting(run) => Some(run)
    case LookingUp(run) => Some(run)
    case ReadingState(run) => Some(run)
    case Removing(run) => Some(run)
    case Adding(run) => Some(run)
    case Returned(run) => Some(run)
    case _ => None
  }

  /** A second attempt finds its key; a claimed run is the one with the producer's key. */
  ghost predicate ProducerOk(runs: seq<Run>, producer: Producer) {
    var phase := producer.phase;
    && !phase.DuplicateEscaped?
    && (phase.Finding? ==> phase.attempt == 0 || (phase.attempt == 1 && HasKey(runs, producer.seed.key)))
    && (phase.Inserting? ==> phase.attempt == 0)
    && (RunOf(phase).Some? ==> RunOf(phase).value < |runs| && runs[RunOf(phase).value].key == producer.seed.key)
  }

  /** Between counting the queue and adding to it. */
  predicate Pending(phase: Phase) {
    phase.LookingUp? || phase.ReadingState? || phase.Removing? || phase.Adding?
  }

  function PendingProducers(producers: seq<Producer>): set<nat> {
    set p: nat | p < |producers| && Pending(producers[p].phase)
  }

  ghost predicate QueueBounded(sys: System) {
    |InFlightJobs(sys.jobs)| + |PendingProducers(sys.producers)| <= IMPACT_QUEUE_MAX_INFLIGHT - 1 + |sys.producers|
  }

  /** Every job carries a run whose key gives the job's id. */
  ghost predicate JobsOk(runs: seq<Run>, jobs: map<JobId, Job>) {
    forall id :: id in jobs ==> jobs[id].run < |runs| && JobIdOf(runs[jobs[id].run].key) == id
  }

  ghost predicate ClaimsOk(sys: System) {
    && UniqueKeys(sys.store.runs)
    && forall p :: 0 <= p < |sys.producers| ==> ProducerOk(sys.store.runs, sys.producers[p])
  }

  // ---------- claims ----------

  /** The keys of the store only grow at the end. */
  ghost predicate KeysGrow(before: seq<Run>, after: seq<Run>) {
    |before| <= |after| && forall i :: 0 <= i < |before| ==> after[i].key == before[i].key
  }

  lemma ProducerStaysOk(before: seq<Run>, after: seq<Run>, producer: Producer)
    requires KeysGrow(before, after) && ProducerOk(before, producer)
    ensures ProducerOk(after, producer)
  {
    if HasKey(before, producer.seed.key) {
      var i :| 0 <= i < |before| && before[i].key == producer.seed.key;
      assert after[i].key == producer.seed.key;
    }
  }

  lemma MovedKeepsClaims(sys: System, store: Store, p: nat, phase: Phase, after: System)
    requires ClaimsOk(sys) && p < |sys.producers|
    requires KeysGrow(sys.store.runs, store.runs) && UniqueKeys(store.runs)
    requires ProducerOk(store.runs, sys.producers[p].(phase := phase))
    requires after.store == store && after.producers == sys.producers[p := sys.producers[p].(phase := phase)]
    ensures ClaimsOk(after)
  {
    hide ProducerOk, KeysGrow;
    forall q | 0 <= q < |after.producers|
      ensures ProducerOk(after.store.runs, after.producers[q])
    {
      if q != p {
        ProducerStaysOk(sys.store.runs, store.runs, sys.producers[q]);
      }
    }
  }

  lemma InsertStepKeepsClaims(sys: System, p: nat)
    requires ClaimsOk(sys) && p < |sys.producers| && sys.producers[p].phase.Inserting?
    ensures ClaimsOk(InsertStep(sys, p, sys.producers[p].phase.attempt))
  {
    var after := InsertStep(sys, p, sys.producers[p].phase.attempt);
    var seed := sys.producers[p].seed;
    var found := FindByKey(sys.store.runs, seed.key);
    if found.Some? {
      assert sys.store.runs[found.value].key == seed.key;
    }
    MovedKeepsClaims(sys, after.store, p, after.producers[p].phase, after);
  }

  lemma ProducerStepKeepsClaims(sys: System, p: nat, works: bool)
    requires ClaimsOk(sys) && p < |sys.producers|
    ensures ClaimsOk(ProducerStep(sys, p, works))
  {
    var after := ProducerStep(sys, p, works);
    if works && sys.producers[p].phase.Inserting? {
      InsertStepKeepsClaims(sys, p);
    } else if works || !Ended(sys.producers[p].phase) {
      MovedKeepsClaims(sys, after.store, p, after.producers[p].phase, after);
    }
  }

  lemma StepKeepsClaims(sys: System, action: Action)
    requires ClaimsOk(sys)
    ensures ClaimsOk(Step(sys, action))
  {
    var after := Step(sys, action);
    match action
    case StepProducer(p, works) =>
      if p < |sys.producers| {
        ProducerStepKeepsClaims(sys, p, works);
      }
    case SetStatus(run, status) =>
      forall q | 0 <= q < |after.producers|
        ensures ProducerOk(after.store.runs, after.producers[q])
      {
        ProducerStaysOk(sys.store.runs, after.store.runs, sys.producers[q]);
      }
    case _ =>
  }

  // ---------- jobs and their runs ----------

  lemma JobsStayOk(before: seq<Run>, after: seq<Run>, jobs: map<JobId, Job>)
    requires KeysGrow(before, after) && JobsOk(before, jobs)
    ensures JobsOk(after, jobs)
  {
    hide JobIdOf;
  }

  lemma ProducerStepKeepsJobs(sys: System, p: nat, works: bool)
    requires ClaimsOk(sys) && JobsOk(sys.store.runs, sys.jobs) && p < |sys.producers|
    ensures JobsOk(ProducerStep(sys, p, works).store.runs, ProducerStep(sys, p, works).jobs)
  {
    hide JobIdOf, UniqueKeys, HasKey, FindByKey, InFlightJobs;
    var after := ProducerStep(sys, p, works);
    var phase := sys.producers[p].phase;
    assert ProducerOk(sys.store.runs, sys.producers[p]);
    assert KeysGrow(sys.store.runs, after.store.runs);
    if !(works && (phase.Adding? || phase.Removing?)) {
      assert after.jobs == sys.jobs;
      JobsStayOk(sys.store.runs, after.store.runs, sys.jobs);
    }
  }

  lemma StepKeepsJobs(sys: System, action: Action)
    requires ClaimsOk(sys) && JobsOk(sys.store.runs, sys.jobs)
    ensures JobsOk(Step(sys, action).store.runs, Step(sys, action).jobs)
  {
    hide ClaimsOk, ProducerStep, JobIdOf;
    if action.StepProducer? && action.producer < |sys.producers| {
      ProducerStepKeepsJobs(sys, action.producer, action.works);
    }
  }

  /** Two keys share a job id when they differ in nothing but colons and dashes. */
  lemma SameJobIff(a: string, b: string)
    ensures JobIdOf(a) == JobIdOf(b)
       <==> |a| == |b| && forall i :: 0 <= i < |a| ==> a[i] == b[i] || (a[i] in ":-" && b[i] in ":-")
  {
    var x, y := JobIdOf(a), JobIdOf(b);
    if x == y {
      forall i | 0 <= i < |a|
        ensures a[i] == b[i] || (a[i] in ":-" && b[i] in ":-")
      {
        assert x[i] == y[i];
      }
    }
  }

  /** No other stored key has the job id of this run. */
  ghost predicate OwnJobId(runs: seq<Run>, run: RunId)
    requires run < |runs|
  {
    forall q: RunId :: q < |runs| && q != run ==> JobIdOf(runs[q].key) != JobIdOf(runs[run].key)
  }

  /** The job under a run's job id is always that run's own exactly when no other stored key has the same id. */
  lemma JobIsOwnIff(runs: seq<Run>, run: RunId)
    requires run < |runs|
    ensures OwnJobId(runs, run)
       <==> forall jobs: map<JobId, Job> :: JobsOk(runs, jobs) && JobIdOf(runs[run].key) in jobs ==>
              jobs[JobIdOf(runs[run].key)].run == run
  {
    hide JobIdOf;
    var id := JobIdOf(runs[run].key);
    forall q: RunId | q < |runs| && q != run && JobIdOf(runs[q].key) == id
      ensures exists jobs: map<JobId, Job> :: JobsOk(runs, jobs) && id in jobs && jobs[id].run != run
    {
      var jobs := map[id := Job(q, Waiting)];
      assert JobsOk(runs, jobs) && id in jobs;
    }
  }

  // ---------- the queue bound ----------

  lemma SubsetSize(a: set<JobId>, b: set<JobId>)
    requires a <= b
    ensures |a| <= |b|
  {
    assert b == a + (b - a);
  }

  lemma JobSetSize(jobs: map<JobId, Job>, id: JobId, job: Job)
    ensures |InFlightJobs(jobs[id := job])| <= |InFlightJobs(jobs)| + 1
    ensures !InFlight(job.state) || id in InFlightJobs(jobs) ==>
              |InFlightJobs(jobs[id := job])| <= |InFlightJobs(jobs)|
    ensures |InFlightJobs(jobs - {id})| <= |InFlightJobs(jobs)|
  {
    var before, after := InFlightJobs(jobs), InFlightJobs(jobs[id := job]);
    SubsetSize(after, before + {id});
    if !InFlight(job.state) || id in before {
      SubsetSize(after, before);
    }
    SubsetSize(InFlightJobs(jobs - {id}), before);
  }

  lemma {:induction false} IndexSetSize(a: set<nat>, n: nat)
    requires forall i: nat :: i in a ==> i < n
    ensures |a| <= n
  {
    if n == 0 {
      assert a == {};
    } else {
      IndexSetSize(a - {n - 1}, n - 1);
    }
  }

  /** Replacing one producer changes the pending ones by that producer only. */
  lemma PendingAfter(producers: seq<Producer>, p: nat, producer: Producer)
    requires p < |producers|
    ensures var before, after := PendingProducers(producers), PendingProducers(producers[p := producer]);
            && after == (if Pending(producer.phase) then before + {p} else before - {p})
            && |after| == |before| + (if Pending(producer.phase) then 1 else 0)
                          - (if Pending(producers[p].phase) then 1 else 0)
  {
    var before, after := PendingProducers(producers), PendingProducers(producers[p := producer]);
    assert after == if Pending(producer.phase) then before + {p} else before - {p};
    assert p in before <==> Pending(producers[p].phase);
  }

  /** A step of a producer that does not touch more jobs than it stops being pending for. */
  lemma QuietStep(sys: System, p: nat, producer: Producer, after: System)
    requires QueueBounded(sys) && p < |sys.producers|
    requires after.producers == sys.producers[p := producer]
    requires Pending(producer.phase) ==> Pending(sys.producers[p].phase)
    requires |InFlightJobs(after.jobs)| <= |InFlightJobs(sys.jobs)|
               + (if Pending(sys.producers[p].phase) && !Pending(producer.phase) then 1 else 0)
    ensures QueueBounded(after)
  {
    PendingAfter(sys.producers, p, producer);
  }

  lemma CountStep(sys: System, p: nat, after: System)
    requires p < |sys.producers| && sys.producers[p].phase.Counting?
    requires |InFlightJobs(sys.jobs)| < IMPACT_QUEUE_MAX_INFLIGHT
    requires after.jobs == sys.jobs && |after.producers| == |sys.producers|
    ensures QueueBounded(after)
  {
    IndexSetSize(PendingProducers(after.producers), |after.producers|);
  }

  lemma ProducerStepKeepsBound(sys: System, p: nat, works: bool)
    requires QueueBounded(sys) && p < |sys.producers|
    ensures QueueBounded(ProducerStep(sys, p, works))
  {
    hide QueueBounded, InFlightJobs, FindByKey;
    var after := ProducerStep(sys, p, works);
    var producer := sys.producers[p];
    if producer.phase.Adding? {
      JobSetSize(sys.jobs, JobIdOf(producer.seed.key), Job(producer.phase.run, Waiting));
    } else {
      JobSetSize(sys.jobs, JobIdOf(producer.seed.key), Job(0, Waiting));
    }
    if works && producer.phase.Counting? && |InFlightJobs(sys.jobs)| < IMPACT_QUEUE_MAX_INFLIGHT {
      CountStep(sys, p, after);
    } else if works || !Ended(producer.phase) {
      QuietStep(sys, p, after.producers[p], after);
    }
  }

  lemma StepKeepsBound(sys: System, action: Action)
    requires QueueBounded(sys)
    ensures QueueBounded(Step(sys, action))
  {
    hide InFlightJobs;
    var after := Step(sys, action);
    match action
    case Begin(p, seed) =>
      if p < |sys.producers| && Ended(sys.producers[p].phase) {
        QuietStep(sys, p, Producer(seed, Finding(0)), after);
      }
    case StepProducer(p, works) =>
      if p < |sys.producers| {
        ProducerStepKeepsBound(sys, p, works);
      }
    case SetStatus(run, status) =>
    case MoveJob(id, state) =>
      if id in sys.jobs && MayMove(sys.jobs[id].state, state) {
        MovedJobSize(sys.jobs, id, state);
      }
    case DropJob(id) => JobSetSize(sys.jobs, id, Job(0, Waiting));
  }

  lemma MovedJobSize(jobs: map<JobId, Job>, id: JobId, state: JobState)
    requires id in jobs && MayMove(jobs[id].state, state)
    ensures |InFlightJobs(jobs[id := jobs[id].(state := state)])| <= |InFlightJobs(jobs)|
  {
    JobSetSize(jobs, id, jobs[id].(state := state));
  }

  /**
   * In every reachable state there is at most one run per key, every claim has returned its run or
   * is within two attempts, no duplicate-key error has escaped, every job is that of a stored run
   * with its id, and the queue holds at most 15 jobs in flight more than there are producers.
   */
  lemma {:induction false} ReachableOk(idle: seq<Producer>, actions: seq<Action>)
    requires forall p :: 0 <= p < |idle| ==> idle[p].phase == Idle
    ensures var sys := Steps(Initial(idle), actions);
            && |sys.producers| == |idle|
            && ClaimsOk(sys)
            && JobsOk(sys.store.runs, sys.jobs)
            && QueueBounded(sys)
            && |InFlightJobs(sys.jobs)| <= 15 + |idle|
    decreases |actions|
  {
    hide ClaimsOk, JobsOk, QueueBounded, Step, InFlightJobs;
    if actions == [] {
      InitiallyOk(idle);
    } else {
      var front := actions[..|actions| - 1];
      var before := Steps(Initial(idle), front);
      ReachableOk(idle, front);
      StepKeepsClaims(before, actions[|actions| - 1]);
      StepKeepsJobs(before, actions[|actions| - 1]);
      StepKeepsBound(before, actions[|actions| - 1]);
      StepKeepsProducers(before, actions[|actions| - 1]);
    }
    BoundedInFlight(Steps(Initial(idle), actions));
  }

  lemma InitiallyOk(idle: seq<Producer>)
    requires forall p :: 0 <= p < |idle| ==> idle[p].phase == Idle
    ensures ClaimsOk(Initial(idle)) && JobsOk([], map[]) && QueueBounded(Initial(idle))
  {
    assert PendingProducers(idle) == {};
    assert InFlightJobs(map[]) == {};
  }

  lemma StepKeepsProducers(sys: System, action: Action)
    ensures |Step(sys, action).producers| == |sys.producers|
  {
  }

  lemma BoundedInFlight(sys: System)
    requires QueueBounded(sys)
    ensures |InFlightJobs(sys.jobs)| <= 15 + |sys.producers|
  {
  }

  /** Everyone who claims a key gets the same run. */
  lemma SameKeySameRun(sys: System, p: nat, q: nat)
    requires ClaimsOk(sys) && p < |sys.producers| && q < |sys.producers|
    requires sys.producers[p].seed.key == sys.producers[q].seed.key
    requires RunOf(sys.producers[p].phase).Some? && RunOf(sys.producers[q].phase).Some?
    ensures RunOf(sys.producers[p].phase) == RunOf(sys.producers[q].phase)
  {
    assert ProducerOk(sys.store.runs, sys.producers[p]) && ProducerOk(sys.store.runs, sys.producers[q]);
  }

  // ---------- the queue bound is reached ----------

  /** One successful step of each of the first n producers, in turn. */
  function Round(n: nat): seq<Action> {
    if n == 0 then [] else Round(n - 1) + [StepProducer(n - 1, true)]
  }

  lemma StepsSnoc(sys: System, actions: seq<Action>, last: Action)
    ensures Steps(sys, actions + [last]) == Step(Steps(sys, actions), last)
  {
    assert (actions + [last])[..|actions|] == actions;
  }

  lemma NoSteps(sys: System)
    ensures Steps(sys, []) == sys
  {
  }

  /** The stations on the way to the queue of a producer whose job is not there yet. */
  predicate At(phase: Phase, station: nat) {
    match station
    case 0 => phase.Counting?
    case 1 => phase.LookingUp?
    case 2 => phase.Adding?
    case _ => phase.Returned?
  }

  /** Different job ids, none of them in the queue yet; the first n producers are one station ahead. */
  ghost predicate Ahead(sys: System, station: nat, n: nat) {
    && n <= |sys.producers|
    && (forall p :: 0 <= p < n ==> At(sys.producers[p].phase, station + 1))
    && (forall p :: n <= p < |sys.producers| ==> At(sys.producers[p].phase, station))
    && (forall p :: (if station == 2 then n else 0) <= p < |sys.producers| ==>
          JobIdOf(sys.producers[p].seed.key) !in sys.jobs)
    && (forall p, q :: 0 <= p < q < |sys.producers| ==>
          JobIdOf(sys.producers[p].seed.key) != JobIdOf(sys.producers[q].seed.key))
  }

  lemma OneMoreInFlight(jobs: map<JobId, Job>, id: JobId, job: Job)
    requires id !in jobs && InFlight(job.state)
    ensures |InFlightJobs(jobs[id := job])| == |InFlightJobs(jobs)| + 1
  {
    assert InFlightJobs(jobs[id := job]) == InFlightJobs(jobs) + {id};
  }

  lemma AheadStep(sys: System, station: nat, n: nat)
    requires station <= 2 && Ahead(sys, station, n) && n < |sys.producers|
    requires station == 0 ==> |InFlightJobs(sys.jobs)| < IMPACT_QUEUE_MAX_INFLIGHT
    ensures var after := Step(sys, StepProducer(n, true));
            && Ahead(after, station, n + 1)
            && |after.producers| == |sys.producers|
            && |InFlightJobs(after.jobs)| == |InFlightJobs(sys.jobs)| + (if station == 2 then 1 else 0)
  {
    hide JobIdOf, InFlightJobs, FindByKey;
    var id := JobIdOf(sys.producers[n].seed.key);
    if station == 2 {
      OneMoreInFlight(sys.jobs, id, Job(sys.producers[n].phase.run, Waiting));
    }
  }

  lemma {:induction false} RoundRuns(sys: System, station: nat, n: nat)
    requires station <= 2 && Ahead(sys, station, 0) && n <= |sys.producers|
    requires station == 0 ==> |InFlightJobs(sys.jobs)| < IMPACT_QUEUE_MAX_INFLIGHT
    ensures var after := Steps(sys, Round(n));
            && Ahead(after, station, n)
            && |after.producers| == |sys.producers|
            && |InFlightJobs(after.jobs)| == |InFlightJobs(sys.jobs)| + (if station == 2 then n else 0)
  {
    hide Ahead, Step, Steps, InFlightJobs;
    if n == 0 {
      NoSteps(sys);
    } else {
      RoundRuns(sys, station, n - 1);
      StepsSnoc(sys, Round(n - 1), StepProducer(n - 1, true));
      AheadStep(Steps(sys, Round(n - 1)), station, n - 1);
    }
  }

  lemma NextStation(sys: System, station: nat)
    requires station < 2 && Ahead(sys, station, |sys.producers|)
    ensures Ahead(sys, station + 1, 0)
  {
  }

  /** From such a state all producers may count before any of them adds. */
  lemma AllAdd(sys: System) returns (actions: seq<Action>)
    requires Ahead(sys, 0, 0) && |InFlightJobs(sys.jobs)| == IMPACT_QUEUE_MAX_INFLIGHT - 1
    ensures |InFlightJobs(Steps(sys, actions).jobs)| == 15 + |sys.producers|
  {
    hide Ahead, InFlightJobs, Steps;
    var n := |sys.producers|;
    var counted := Steps(sys, Round(n));
    RoundRuns(sys, 0, n);
    NextStation(counted, 0);
    var lookedUp := Steps(counted, Round(n));
    RoundRuns(counted, 1, n);
    NextStation(lookedUp, 1);
    RoundRuns(lookedUp, 2, n);
    actions := Round(n) + (Round(n) + Round(n));
    StepsJoin(counted, Round(n), Round(n));
    StepsJoin(sys, Round(n), Round(n) + Round(n));
  }

  lemma {:induction false} StepsJoin(sys: System, front: seq<Action>, back: seq<Action>)
    ensures Steps(sys, front + back) == Steps(Steps(sys, front), back)
    decreases |back|
  {
    hide Step;
    if back == [] {
      assert front + back == front;
    } else {
      var n := |back| - 1;
      assert (front + back)[..|front| + n] == front + back[..n];
      StepsJoin(sys, front, back[..n]);
    }
  }

  /** A run with a key of this length. */
  function Seed(length: nat): Run {
    NewRun(seq(length, _ => 'a'), "", "", false, Event(0, SIMULATION_QUEUED, NoData))
  }

  lemma NewLength(runs: seq<Run>, length: nat)
    requires forall i :: 0 <= i < |runs| ==> |runs[i].key| < length
    ensures FindByKey(runs, Seed(length).key).None?
  {
  }

  /** A producer that begins with a new key inserts its run and comes to the queue. */
  lemma ClaimsNew(sys: System, p: nat, seed: Run) returns (actions: seq<Action>)
    requires p < |sys.producers| && Ended(sys.producers[p].phase)
    requires FindByKey(sys.store.runs, seed.key).None? && seed.status == RunStatus.QUEUED
    ensures Steps(sys, actions)
         == sys.(store := sys.store.(runs := sys.store.runs + [seed]),
                 producers := sys.producers[p := Producer(seed, Counting(|sys.store.runs|))])
  {
    hide FindByKey, JobIdOf, Steps;
    var step := StepProducer(p, true);
    var begun := Step(sys, Begin(p, seed));
    var found := Step(begun, step);
    assert found == sys.(producers := sys.producers[p := Producer(seed, Inserting(0))]);
    actions := [Begin(p, seed), step, step];
    ThreeSteps(sys, Begin(p, seed), step, step);
    assert Step(found, step).producers == sys.producers[p := Producer(seed, Counting(|sys.store.runs|))];
  }

  lemma ThreeSteps(sys: System, a: Action, b: Action, c: Action)
    ensures Steps(sys, [a, b, c]) == Step(Step(Step(sys, a), b), c)
  {
    hide Step;
    assert [a, b, c][..2] == [a, b] && [a, b][..1] == [a] && [a][..0] == [];
    assert Steps(sys, []) == sys;
    assert Steps(sys, [a]) == Step(sys, a);
    assert Steps(sys, [a, b]) == Step(Steps(sys, [a]), b);
  }

  /** And, when the queue has room and no job of its id, adds its job. */
  lemma AddsNew(sys: System, p: nat, seed: Run, run: RunId) returns (actions: seq<Action>)
    requires p < |sys.producers| && sys.producers[p] == Producer(seed, Counting(run))
    requires JobIdOf(seed.key) !in sys.jobs && |InFlightJobs(sys.jobs)| < IMPACT_QUEUE_MAX_INFLIGHT
    ensures Steps(sys, actions)
         == sys.(jobs := sys.jobs[JobIdOf(seed.key) := Job(run, Waiting)],
                 producers := sys.producers[p := Producer(seed, Returned(run))])
  {
    hide JobIdOf, Steps, InFlightJobs;
    var step := StepProducer(p, true);
    var counted := Step(sys, step);
    assert counted == sys.(producers := sys.producers[p := Producer(seed, LookingUp(run))]);
    var lookedUp := Step(counted, step);
    assert lookedUp == sys.(producers := sys.producers[p := Producer(seed, Adding(run))]);
    actions := [step, step, step];
    ThreeSteps(sys, step, step, step);
    assert Step(lookedUp, step).producers == sys.producers[p := Producer(seed, Returned(run))];
  }

  /**
   * m jobs are in flight, with ids shorter than m, and the first c producers are about to count with
   * keys of m characters and more, one longer than the other.
   */
  ghost predicate Filled(sys: System, n: nat, m: nat, c: nat) {
    && |sys.producers| == n && c <= n
    && (forall i :: 0 <= i < |sys.store.runs| ==> |sys.store.runs[i].key| < m + c)
    && (forall id :: id in sys.jobs ==> |id| < m)
    && |InFlightJobs(sys.jobs)| == m
    && (forall p :: 0 <= p < c ==> sys.producers[p].phase.Counting? && |sys.producers[p].seed.key| == m + p)
    && (forall p :: c <= p < n ==> Ended(sys.producers[p].phase))
  }

  lemma FillOne(sys: System, n: nat, m: nat) returns (actions: seq<Action>)
    requires n > 0 && m < 15 && Filled(sys, n, m, 0)
    ensures Filled(Steps(sys, actions), n, m + 1, 0)
  {
    hide Steps, InFlightJobs;
    NewLength(sys.store.runs, m);
    var claim := ClaimsNew(sys, 0, Seed(m));
    var claimed := Steps(sys, claim);
    var id := JobIdOf(Seed(m).key);
    assert |id| == m;
    var add := AddsNew(claimed, 0, Seed(m), |sys.store.runs|);
    actions := claim + add;
    StepsJoin(sys, claim, add);
    OneMoreInFlight(claimed.jobs, id, Job(|sys.store.runs|, Waiting));
  }

  lemma {:induction false} Fill(sys: System, n: nat, m: nat) returns (actions: seq<Action>)
    requires n > 0 && m <= 15 && Filled(sys, n, m, 0)
    ensures Filled(Steps(sys, actions), n, 15, 0)
    decreases 15 - m
  {
    hide Filled, Step;
    if m == 15 {
      actions := [];
    } else {
      var one := FillOne(sys, n, m);
      var more := Fill(Steps(sys, one), n, m + 1);
      actions := one + more;
      StepsJoin(sys, one, more);
    }
  }

  lemma GatherOne(sys: System, n: nat, c: nat) returns (actions: seq<Action>)
    requires c < n && Filled(sys, n, 15, c)
    ensures Filled(Steps(sys, actions), n, 15, c + 1)
  {
    hide Steps, InFlightJobs;
    NewLength(sys.store.runs, 15 + c);
    actions := ClaimsNew(sys, c, Seed(15 + c));
  }

  lemma {:induction false} Gather(sys: System, n: nat, c: nat) returns (actions: seq<Action>)
    requires c <= n && Filled(sys, n, 15, c)
    ensures Filled(Steps(sys, actions), n, 15, n)
    decreases n - c
  {
    hide Filled, Step;
    if c == n {
      actions := [];
    } else {
      var one := GatherOne(sys, n, c);
      var more := Gather(Steps(sys, one), n, c + 1);
      actions := one + more;
      StepsJoin(sys, one, more);
    }
  }

  lemma FilledIsAhead(sys: System, n: nat)
    requires Filled(sys, n, 15, n)
    ensures Ahead(sys, 0, 0) && |InFlightJobs(sys.jobs)| == 15 && |sys.producers| == n
  {
    assert forall p :: 0 <= p < n ==> |JobIdOf(sys.producers[p].seed.key)| == 15 + p;
  }

  /** The bound is reached from the empty store, by any number of producers. */
  lemma BoundIsReached(idle: seq<Producer>) returns (actions: seq<Action>)
    requires idle != [] && forall p :: 0 <= p < |idle| ==> idle[p].phase == Idle
    ensures |InFlightJobs(Steps(Initial(idle), actions).jobs)| == 15 + |idle|
  {
    hide Steps, Step, Ahead;
    var n := |idle|;
    var start := Initial(idle);
    assert InFlightJobs(start.jobs) == {};
    var fill := Fill(start, n, 0);
    var gather := Gather(Steps(start, fill), n, 0);
    var ready := Steps(Steps(start, fill), gather);
    FilledIsAhead(ready, n);
    var add := AllAdd(ready);
    actions := fill + (gather + add);
    StepsJoin(Steps(start, fill), gather, add);
    StepsJoin(start, fill, gather + add);
  }

  // ---------- two runs with one job id ----------

  /** A producer that finds the job of its id in flight takes it for its own. */
  lemma MeetsJob(sys: System, p: nat, seed: Run, run: RunId) returns (actions: seq<Action>)
    requires p < |sys.producers| && sys.producers[p] == Producer(seed, Counting(run))
    requires JobIdOf(seed.key) in InFlightJobs(sys.jobs) && |InFlightJobs(sys.jobs)| < IMPACT_QUEUE_MAX_INFLIGHT
    ensures Steps(sys, actions) == sys.(producers := sys.producers[p := Producer(seed, Returned(run))])
  {
    hide JobIdOf, Steps;
    var step := StepProducer(p, true);
    var counted := Step(sys, step);
    assert counted == sys.(producers := sys.producers[p := Producer(seed, LookingUp(run))]);
    var lookedUp := Step(counted, step);
    assert lookedUp == sys.(producers := sys.producers[p := Producer(seed, ReadingState(run))]);
    actions := [step, step, step];
    ThreeSteps(sys, step, step, step);
    assert Step(lookedUp, step).producers == sys.producers[p := Producer(seed, Returned(run))];
  }

  lemma KeysCollide()
    ensures JobIdOf("w:moonwell:eth:176") == JobIdOf("w:moonwell:eth-176")
    ensures "w:moonwell:eth:176" != "w:moonwell:eth-176"
  {
    SameJobIff("w:moonwell:eth:176", "w:moonwell:eth-176");
    assert "w:moonwell:eth:176"[14] != "w:moonwell:eth-176"[14];
  }

  lemma FirstAdds(idle: seq<Producer>, first: Run) returns (actions: seq<Action>)
    requires |idle| == 2 && idle[0].phase == Idle && first.status == RunStatus.QUEUED
    ensures Steps(Initial(idle), actions)
         == System(Store([first], map[]), map[JobIdOf(first.key) := Job(0, Waiting)],
                   idle[0 := Producer(first, Returned(0))], 0)
  {
    hide Steps, Step, JobIdOf;
    var start := Initial(idle);
    assert InFlightJobs(start.jobs) == {};
    var claim := ClaimsNew(start, 0, first);
    var add := AddsNew(Steps(start, claim), 0, first, 0);
    actions := claim + add;
    StepsJoin(start, claim, add);
  }

  lemma SecondMeets(sys: System, first: Run, second: Run) returns (actions: seq<Action>)
    requires sys.store.runs == [first] && |sys.producers| == 2 && sys.producers[1].phase == Idle
    requires sys.jobs == map[JobIdOf(first.key) := Job(0, Waiting)]
    requires JobIdOf(second.key) == JobIdOf(first.key) && second.key != first.key
    requires second.status == RunStatus.QUEUED
    ensures Steps(sys, actions)
         == sys.(store := sys.store.(runs := [first, second]),
                 producers := sys.producers[1 := Producer(second, Returned(1))])
  {
    hide Steps, Step, JobIdOf;
    assert InFlightJobs(sys.jobs) == {JobIdOf(first.key)};
    FindOther(first, second);
    var claim := ClaimsNew(sys, 1, second);
    var meet := MeetsJob(Steps(sys, claim), 1, second, 1);
    actions := claim + meet;
    StepsJoin(sys, claim, meet);
  }

  /**
   * Two runs, for the changes moonwell:eth:176 and moonwell:eth-176: both producers return, both runs
   * are queued, and only the first of them has a job.
   */
  lemma CollisionLeavesRunWithoutJob(idle: seq<Producer>, first: Run, second: Run) returns (actions: seq<Action>)
    requires |idle| == 2 && idle[0].phase == Idle && idle[1].phase == Idle
    requires first.status == second.status == RunStatus.QUEUED
    requires first.key == "w:moonwell:eth:176" && second.key == "w:moonwell:eth-176"
    ensures var sys := Steps(Initial(idle), actions);
            && sys.store.runs == [first, second] && |sys.producers| == 2
            && sys.producers[0].phase == Returned(0) && sys.producers[1].phase == Returned(1)
            && forall id :: id in sys.jobs ==> sys.jobs[id].run != 1
  {
    hide Steps, Step, JobIdOf;
    KeysCollide();
    var one := FirstAdds(idle, first);
    var two := SecondMeets(Steps(Initial(idle), one), first, second);
    actions := one + two;
    StepsJoin(Initial(idle), one, two);
  }

  lemma FindOther(first: Run, second: Run)
    requires first.key != second.key
    ensures FindByKey([first], second.key).None?
  {
  }

  // ---------- one producer with nobody else at the queue ----------

  class Queue {
    var jobs: map<JobId, Job>

    constructor ()
      ensures jobs == map[]
    {
      jobs := map[];
    }

    /**
     * ensureQueued: a full queue refuses; a job of the same id that is in flight is left alone,
     * whichever run it carries; otherwise a job of this run is waiting afterwards.
     */
    method EnsureQueued(key: string, run: RunId) returns (added: Result<bool>)
      modifies this
      ensures var id := JobIdOf(key);
              if |InFlightJobs(old(jobs))| >= IMPACT_QUEUE_MAX_INFLIGHT then added.Err? && jobs == old(jobs)
              else if id in InFlightJobs(old(jobs)) then added == Ok(false) && jobs == old(jobs)
              else added == Ok(true) && jobs == old(jobs)[id := Job(run, Waiting)]
    {
      var inflight := |InFlightJobs(jobs)|;
      if inflight >= IMPACT_QUEUE_MAX_INFLIGHT {
        return Err("RATE_LIMITED");
      }
      var id := JobIdOf(key);
      if id in jobs {
        if InFlight(jobs[id].state) {
          return Ok(false);
        }
        jobs := jobs - {id};
      }
      jobs := jobs[id := Job(run, Waiting)];
      added := Ok(true);
    }
  }

  /** A job of this run is in flight. */
  predicate HasOwnJob(jobs: map<JobId, Job>, runs: seq<Run>, run: RunId)
    requires run < |runs|
  {
    var id := JobIdOf(runs[run].key);
    id in InFlightJobs(jobs) && jobs[id].run == run
  }

  /**
   * resumeExistingRun: a run that ended without a proof is queued again, and unless the run is
   * completed a job of its id is in flight when the call returns. It is the run's own job exactly
   * when no job of another run was in flight under that id, and so whenever no other stored key has
   * the same id.
   */
  method ResumeExistingRun(models: Models, queue: Queue, id: RunId, includeStrategies: bool)
    returns (resumed: Result<Run>)
    requires id < |models.runs|
    modifies models, queue
    ensures |models.runs| == |old(models.runs)|
    ensures forall other :: 0 <= other < |models.runs| && other != id ==> models.runs[other] == old(models.runs)[other]
    ensures var before, after := old(models.runs)[id], models.runs[id];
            if before.status in {RunStatus.FAILED, RunStatus.STALE, RunStatus.CANCELLED}
            then after.status == RunStatus.QUEUED && after.receiptHash.None?
                 && after.events == before.events + [Event(old(models.nextEvent), SIMULATION_QUEUED, NoData)]
            else after == before
    ensures models.runs[id].key == old(models.runs)[id].key
    ensures resumed.Ok? ==> resumed.value == models.runs[id]
    ensures resumed.Err? <==>
              old(models.runs)[id].status != RunStatus.COMPLETED
              && |InFlightJobs(old(queue.jobs))| >= IMPACT_QUEUE_MAX_INFLIGHT
    ensures resumed.Ok? && resumed.value.status != RunStatus.COMPLETED ==>
              var job := JobIdOf(models.runs[id].key);
              && job in InFlightJobs(queue.jobs)
              && (HasOwnJob(queue.jobs, models.runs, id)
                  <==> !(job in InFlightJobs(old(queue.jobs)) && old(queue.jobs)[job].run != id))
    ensures resumed.Ok? && resumed.value.status != RunStatus.COMPLETED
            && JobsOk(old(models.runs), old(queue.jobs)) && OwnJobId(old(models.runs), id)
        ==> HasOwnJob(queue.jobs, models.runs, id)
    ensures |InFlightJobs(queue.jobs)| <= |InFlightJobs(old(queue.jobs))|
         || |InFlightJobs(queue.jobs)| <= IMPACT_QUEUE_MAX_INFLIGHT
  {
    hide JobIdOf;
    var run := models.runs[id];
    if run.status == RunStatus.FAILED || run.status == RunStatus.STALE || run.status == RunStatus.CANCELLED {
      var doc := models.RequeueSimulationRun(id, Some(includeStrategies));
      run := doc.value;
    }
    if run.status != RunStatus.COMPLETED {
      JobSetSize(queue.jobs, JobIdOf(run.key), Job(id, Waiting));
      var queued := queue.EnsureQueued(run.key, id);
      if queued.Err? {
        return Err(queued.error);
      }
    }
    resumed := Ok(run);
  }
}
