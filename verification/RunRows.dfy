/** One analysis run as the database holds it, and every committed change to it.

    Each function below is the effect of one committed transaction of the worker
    repository, the pipeline or the reconciler on the run's row, its event log
    and the rows an attempt wrote. */
module RunRows {
  import opened Options
  import opened StagePlans

  /** `In(stage)` is a working status; the column then holds the stage name. */
  datatype Status = InQueue | In(stage: Stage) | Completed | Partial | Failed | Cancelled

  predicate Terminal(status: Status) {
    status.Completed? || status.Partial? || status.Failed? || status.Cancelled?
  }

  datatype Row = Row(
    status: Status,
    currentStage: Stage,
    completed: seq<Stage>,
    skipped: seq<Stage>,
    attempt: nat,
    lease: Option<int>,
    createdAt: int)

  /** `plan` stands for the skipped stages the record stores, which determine it (see
      `StoredPlanIsThePlan`). `attempt` is auxiliary: no column says which attempt emitted. */
  datatype Event = Event(
    sequence: nat,
    status: Status,
    stage: Stage,
    completed: seq<Stage>,
    plan: StagePlan,
    percent: nat,
    attempt: nat)

  /** Rows an attempt leaves behind; `attempt` is auxiliary here too. */
  datatype DataRow =
    | EvidenceRow(attempt: nat)
    | AgentRow(attempt: nat)
    | TraceRow(attempt: nat)
    | ReportRow(attempt: nat)

  datatype Run = Run(row: Row, log: seq<Event>, data: seq<DataRow>)

  datatype Settings = Settings(
    leaseSeconds: int,
    hardLimitSeconds: int,
    graceSeconds: int,
    maxAttempts: nat)
  {
    /** The settings validator: the lease is longer than the task's hard limit. */
    predicate Valid() {
      leaseSeconds > hardLimitSeconds && maxAttempts >= 1
    }

    /** What the protocol needs of it: the lease is not shorter. */
    predicate Outlives() {
      leaseSeconds >= hardLimitSeconds && maxAttempts >= 1
    }
  }

  const FIRST_STAGE: Stage := CollectingEvidence

  /** The row `create` commits before it dispatches anything. */
  function NewRun(createdAt: int): Run {
    Run(Row(InQueue, Queued, [Queued], [], 0, None, createdAt), [], [])
  }

  // -------------------------------------------------------- conditional updates

  predicate CanClaim(row: Row, maxAttempts: nat) {
    row.status == InQueue && row.attempt <= maxAttempts
  }

  /** A run requeued earlier already reserved its number; only a lease-less one counts up. */
  function Claim(run: Run, leaseUntil: int): Run {
    run.(row := run.row.(
      status := In(FIRST_STAGE),
      currentStage := FIRST_STAGE,
      lease := Some(leaseUntil),
      attempt := if run.row.lease.None? then run.row.attempt + 1 else run.row.attempt))
  }

  predicate CanRenew(row: Row, attempt: nat) {
    row.attempt == attempt && !Terminal(row.status) && row.status != InQueue
  }

  function Renew(run: Run, leaseUntil: int): Run {
    run.(row := run.row.(lease := Some(leaseUntil)))
  }

  /** The status flush that precedes the guarded renewal in the same transaction. */
  function FlushStage(run: Run, stage: Stage): Run {
    run.(row := run.row.(status := In(stage), currentStage := stage))
  }

  function RecordSkipped(run: Run, skipped: seq<Stage>): Run {
    run.(row := run.row.(skipped := skipped))
  }

  /** Runs that no worker is executing, as the reconciler's query selects them. */
  predicate Stuck(row: Row, moment: int, graceSeconds: int) {
    && !Terminal(row.status)
    && if row.status == InQueue then
         match row.lease
         case None => row.createdAt < moment - graceSeconds
         case Some(lease) => lease < moment
       else
         match row.lease
         case None => true
         case Some(lease) => lease < moment
  }

  /** The requeue guard: non-terminal and unchanged since `seen` was read. */
  predicate Unchanged(row: Row, seen: Row) {
    !Terminal(row.status)
    && row.status == seen.status && row.attempt == seen.attempt && row.lease == seen.lease
  }

  /** Back to `queued` with the next attempt reserved; the aborted attempt's rows go. */
  function Requeue(run: Run, graceUntil: int): Run {
    Run(run.row.(
          status := InQueue,
          currentStage := Queued,
          completed := [Queued],
          lease := Some(graceUntil),
          attempt := run.row.attempt + 1),
        run.log, [])
  }

  function Finish(run: Run, status: Status, plan: StagePlan, batch: seq<DataRow>): Run {
    Run(run.row.(
          status := status,
          currentStage := ValidatingReport,
          completed := plan.stages,
          lease := None),
        run.log, run.data + batch)
  }

  function WriteFailed(run: Run, batch: seq<DataRow>): Run {
    Run(run.row.(status := Failed, lease := None), run.log, run.data + batch)
  }

  // -------------------------------------------------------------------- the log

  function MaxSequence(log: seq<Event>): nat {
    if log == [] then 0
    else
      var rest := MaxSequence(log[..|log| - 1]);
      var last := log[|log| - 1].sequence;
      if last > rest then last else rest
  }

  function NextSequence(log: seq<Event>): nat { MaxSequence(log) + 1 }

  predicate SequenceTaken(log: seq<Event>, sequence: nat) {
    exists i :: 0 <= i < |log| && log[i].sequence == sequence
  }

  function Append(run: Run, event: Event): Run {
    run.(log := run.log + [event])
  }

  /** The reconciler's give-up writes `failed` with no condition in its UPDATE, and the
      event it inserts in the same transaction describes the scanned row. */
  function GiveUp(run: Run, seen: Row): Run {
    var plan := PlanFromStored(seen.skipped);
    Append(
      run.(row := run.row.(status := Failed, lease := None)),
      Event(NextSequence(run.log), Failed, seen.currentStage, seen.completed, plan,
            plan.Percent(seen.completed), seen.attempt))
  }

  /** Sequences 1..n with no gap: what the unique key and max+1 are there to give. */
  predicate Contiguous(log: seq<Event>) {
    forall i :: 0 <= i < |log| ==> log[i].sequence == i + 1
  }

  lemma ContiguousMax(log: seq<Event>)
    requires Contiguous(log)
    ensures MaxSequence(log) == |log|
  {
    if log != [] {
      ContiguousMax(log[..|log| - 1]);
    }
  }
}
