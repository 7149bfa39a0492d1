/** What every reachable state of the lease protocol satisfies, and the proof that
    each step keeps it. */
module LeaseInvariant {
  import opened Options
  import opened StagePlans
  import opened RunRows
  import opened LeaseProtocol

  // ------------------------------------------------------------ shape of the log

  /** What the proofs use of a plan; both plans a worker can pick have it. */
  ghost predicate IsPlan(plan: StagePlan) {
    && |plan.stages| >= 2
    && plan.stages[1] == FIRST_STAGE
    && plan.stages[|plan.stages| - 1] == ValidatingReport
    && plan.TotalWeight() > 0
    && Ascending(plan.stages)
  }

  /** Place of a stage in the documented order. */
  function Rank(stage: Stage): nat {
    match stage
    case Queued => 0
    case CollectingEvidence => 1
    case BuildingContext => 2
    case Simulating => 3
    case CalculatingFinance => 4
    case Scoring => 5
    case ComposingReport => 6
    case ValidatingReport => 7
  }

  ghost predicate Ascending(stages: seq<Stage>) {
    forall k :: 0 <= k < |stages| - 1 ==> Rank(stages[k]) < Rank(stages[k + 1])
  }

  /** Position of a stage event in its plan: the number of stages already completed. */
  function Pos(e: Event): nat { |e.completed| }

  /** A stage event names the stage right after the plan prefix it reports as complete. */
  ghost predicate StageEvent(e: Event) {
    var plan := e.plan;
    && 1 <= Pos(e) < |plan.stages|
    && e.status == In(plan.stages[Pos(e)]) && e.stage == plan.stages[Pos(e)]
    && e.completed == plan.stages[..Pos(e)]
    && e.percent == plan.Percent(e.completed)
  }

  ghost predicate SuccessEvent(e: Event) {
    && (e.status == Completed || e.status == Partial)
    && e.stage == ValidatingReport && e.completed == e.plan.stages && e.percent == 100
  }

  ghost predicate FailureEvent(e: Event) {
    e.status == Failed && e.completed == [Queued] && e.percent == 0
  }

  ghost predicate LogEvent(e: Event) { StageEvent(e) || SuccessEvent(e) || FailureEvent(e) }

  /** `b` may directly follow `a`. */
  ghost predicate Follows(a: Event, b: Event) {
    && StageEvent(a)
    && a.attempt <= b.attempt
    && (StageEvent(b) ==>
          if a.attempt == b.attempt then b.plan == a.plan && Pos(b) == Pos(a) + 1
          else Pos(b) == 1)
    && (SuccessEvent(b) ==>
          a.attempt == b.attempt && b.plan == a.plan && Pos(a) + 1 == |a.plan.stages|)
  }

  ghost predicate First(e: Event) {
    (StageEvent(e) ==> Pos(e) == 1) && !SuccessEvent(e)
  }

  ghost predicate LogShape(log: seq<Event>) {
    && (forall i :: 0 <= i < |log| ==> LogEvent(log[i]) && log[i].attempt >= 1)
    && (log != [] ==> First(log[0]))
    && (forall i :: 0 < i < |log| ==> Follows(log[i - 1], log[i]))
  }

  ghost predicate NoTerminal(log: seq<Event>) {
    forall i :: 0 <= i < |log| ==> !Terminal(log[i].status)
  }

  ghost predicate AttemptsUpTo(log: seq<Event>, attempt: int) {
    forall i :: 0 <= i < |log| ==> log[i].attempt <= attempt
  }

  /** The last event says this attempt entered the stage at `pos`. */
  ghost predicate LastEntered(log: seq<Event>, attempt: nat, plan: StagePlan, pos: nat) {
    && log != []
    && var e := log[|log| - 1];
       StageEvent(e) && e.attempt == attempt && e.plan == plan && Pos(e) == pos
  }

  // ------------------------------------------------------------------ invariants

  ghost predicate ReportPresent(data: seq<DataRow>) {
    exists i :: 0 <= i < |data| && data[i].ReportRow?
  }

  ghost predicate OneReport(data: seq<DataRow>) {
    forall i, j :: 0 <= i < j < |data| ==> !(data[i].ReportRow? && data[j].ReportRow?)
  }

  ghost predicate RowsOf(data: seq<DataRow>, attempt: nat) {
    forall i :: 0 <= i < |data| ==> data[i].attempt == attempt
  }

  /** The rows an attempt leaves: nothing until the run is terminal. */
  ghost predicate DataOK(row: Row, data: seq<DataRow>) {
    && (!Terminal(row.status) ==> data == [])
    && RowsOf(data, row.attempt)
    && OneReport(data)
    && (ReportPresent(data) <==> row.status == Completed || row.status == Partial)
  }

  ghost predicate RowOK(c: Settings, row: Row) {
    && row.attempt <= c.maxAttempts
    && (row.status == InQueue ==> (row.lease.None? <==> row.attempt == 0))
    && (row.status.In? ==> row.lease.Some? && row.attempt >= 1 && row.currentStage == row.status.stage)
    && (Terminal(row.status) ==> row.lease.None? && row.attempt >= 1 && row.status != Cancelled)
    && (!Terminal(row.status) ==> row.completed == [Queued])
  }

  ghost predicate LogOK(row: Row, log: seq<Event>) {
    && LogShape(log)
    && AttemptsUpTo(log, if row.status == InQueue then row.attempt - 1 else row.attempt)
    && (!Terminal(row.status) ==> NoTerminal(log))
  }

  ghost predicate RunOK(c: Settings, run: Run) {
    RowOK(c, run.row) && LogOK(run.row, run.log) && DataOK(run.row, run.data) && Contiguous(run.log)
  }

  /** Still owns a working row: everything claimed except a pending terminal event. */
  ghost predicate Holding(pc: Pc) {
    Executing(pc) && !((pc.Announcing? || pc.Inserting?) && Terminal(pc.note.status))
  }

  /** Where the row and the log stand while this worker works. */
  ghost predicate Progress(run: Run, w: Worker) {
    match w.pc
    case Claimed => run.row.status == In(FIRST_STAGE) && AttemptsUpTo(run.log, run.row.attempt - 1)
    case Loaded => run.row.status == In(FIRST_STAGE) && AttemptsUpTo(run.log, run.row.attempt - 1)
    case Announcing(note, pos) => Pending(run, w, note, pos)
    case Inserting(note, pos, sequence) =>
      Pending(run, w, note, pos) && sequence == |run.log| + 1
    case At(pos) =>
      && pos < |w.plan.stages| && run.row.status == In(w.plan.stages[pos])
      && LastEntered(run.log, w.attempt, w.plan, pos)
    case Failing(seen) => seen == run.row
    case Retrying(seen) => seen == run.row
    case _ => true
  }

  ghost predicate Pending(run: Run, w: Worker, note: Note, pos: nat) {
    && 1 <= pos < |w.plan.stages|
    && note == StageNote(w.plan, pos)
    && run.row.status == note.status
    && if pos == 1 then AttemptsUpTo(run.log, w.attempt - 1)
       else LastEntered(run.log, w.attempt, w.plan, pos - 1)
  }

  /** A live holder's lease outlasts the moment its process is killed. */
  ghost predicate HolderOK(c: Settings, run: Run, w: Worker) {
    && run.row.status.In?
    && run.row.lease.Some? && run.row.lease.value >= w.started + c.hardLimitSeconds
    && (!w.pc.Claimed? ==> w.attempt == run.row.attempt)
    && (w.pc.Retrying? ==> w.attempt < c.maxAttempts)
    && Progress(run, w)
  }

  /** A live worker whose terminal event is pending: the row already is terminal. */
  ghost predicate CloserOK(run: Run, w: Worker) {
    && (w.pc.Announcing? || w.pc.Inserting?)
    && w.pc.note.status == run.row.status && Terminal(run.row.status)
    && w.attempt == run.row.attempt
    && NoTerminal(run.log)
    && (w.pc.Inserting? ==> w.pc.sequence == |run.log| + 1)
    && ClosingNote(run.log, w, w.pc.note)
  }

  ghost predicate ClosingNote(log: seq<Event>, w: Worker, note: Note) {
    if note.status == Failed then note.completed == [Queued]
    else
      && (note.status == Completed || note.status == Partial)
      && note.stage == ValidatingReport && note.completed == w.plan.stages
      && |w.plan.stages| >= 1 && LastEntered(log, w.attempt, w.plan, |w.plan.stages| - 1)
  }

  ghost predicate WorkerOK(c: Settings, now: int, run: Run, w: Worker) {
    && w.started <= now
    && IsPlan(w.plan)
    && (Executing(w.pc) && Alive(c, now, w) ==>
          if Holding(w.pc) then HolderOK(c, run, w) else CloserOK(run, w))
  }

  ghost predicate ScanOK(c: Settings, now: int, scan: Scan) {
    && scan.moment <= now
    && Stuck(scan.row, scan.moment, c.graceSeconds)
    && scan.row.completed == [Queued]
  }

  ghost predicate AtMostOneLive(c: Settings, s: State) {
    forall i, j :: Live(c, s, i) && Live(c, s, j) ==> i == j
  }

  ghost predicate Inv(c: Settings, s: State) {
    && RunOK(c, s.run)
    && (forall i :: 0 <= i < |s.workers| ==> WorkerOK(c, s.now, s.run, s.workers[i]))
    && (forall i :: 0 <= i < |s.scans| ==> ScanOK(c, s.now, s.scans[i]))
    && AtMostOneLive(c, s)
  }

  // ---------------------------------------------------------------- log appends

  lemma WorkerPlansArePlans(simulationPlanned: bool)
    ensures IsPlan(StagePlanFor(simulationPlanned))
  {
    var plan := StagePlanFor(simulationPlanned);
    assert plan.stages[1..][0] == FIRST_STAGE;
  }

  lemma NewStageEvent(w: Worker, pos: nat, sequence: nat)
    requires IsPlan(w.plan) && 1 <= pos < |w.plan.stages|
    ensures var e := EventOf(w, StageNote(w.plan, pos), sequence);
            StageEvent(e) && Pos(e) == pos && !Terminal(e.status)
  {
  }

  lemma NewSuccessEvent(w: Worker, status: Status, sequence: nat)
    requires IsPlan(w.plan) && (status == Completed || status == Partial)
    ensures SuccessEvent(EventOf(w, Note(status, ValidatingReport, w.plan.stages), sequence))
  {
    FinishedPlanIsHundred(w.plan);
  }

  lemma NewFailureEvent(w: Worker, note: Note, sequence: nat)
    requires note.status == Failed && note.completed == [Queued]
    ensures FailureEvent(EventOf(w, note, sequence))
  {
    QueuedOnlyIsZero(w.plan);
  }

  lemma AppendKeepsShape(log: seq<Event>, e: Event)
    requires LogShape(log) && LogEvent(e) && e.attempt >= 1
    requires log == [] ==> First(e)
    requires log != [] ==> Follows(log[|log| - 1], e)
    ensures LogShape(log + [e])
  {
  }

  lemma AppendStageEvent(log: seq<Event>, w: Worker, pos: nat, sequence: nat)
    requires LogShape(log) && NoTerminal(log) && w.attempt >= 1
    requires IsPlan(w.plan) && 1 <= pos < |w.plan.stages|
    requires if pos == 1 then AttemptsUpTo(log, w.attempt - 1)
             else LastEntered(log, w.attempt, w.plan, pos - 1)
    ensures var log' := log + [EventOf(w, StageNote(w.plan, pos), sequence)];
            LogShape(log') && NoTerminal(log') && LastEntered(log', w.attempt, w.plan, pos)
  {
    NewStageEvent(w, pos, sequence);
    AppendKeepsShape(log, EventOf(w, StageNote(w.plan, pos), sequence));
  }

  lemma AppendFailureEvent(log: seq<Event>, e: Event)
    requires LogShape(log) && NoTerminal(log) && FailureEvent(e) && e.attempt >= 1
    requires AttemptsUpTo(log, e.attempt)
    ensures LogShape(log + [e])
  {
    AppendKeepsShape(log, e);
  }

  lemma AppendSuccessEvent(log: seq<Event>, w: Worker, status: Status, sequence: nat)
    requires LogShape(log) && NoTerminal(log) && w.attempt >= 1
    requires IsPlan(w.plan) && (status == Completed || status == Partial)
    requires LastEntered(log, w.attempt, w.plan, |w.plan.stages| - 1)
    ensures LogShape(log + [EventOf(w, Note(status, ValidatingReport, w.plan.stages), sequence)])
  {
    NewSuccessEvent(w, status, sequence);
    AppendKeepsShape(log, EventOf(w, Note(status, ValidatingReport, w.plan.stages), sequence));
  }

  // -------------------------------------------------------------- frame lemmas

  /** Replacing the one live worker and the run: every other worker is dead or idle. */
  lemma ReplaceLive(c: Settings, s: State, i: nat, run: Run, w: Worker)
    requires Inv(c, s) && Live(c, s, i)
    requires RunOK(c, run) && WorkerOK(c, s.now, run, w)
    ensures Inv(c, s.(run := run, workers := s.workers[i := w]))
  {
    var s' := s.(run := run, workers := s.workers[i := w]);
    forall j | 0 <= j < |s'.workers|
      ensures WorkerOK(c, s'.now, run, s'.workers[j])
    {
      if j != i {
        assert !Live(c, s, j);
      }
    }
    forall j, k | Live(c, s', j) && Live(c, s', k)
      ensures j == k
    {
      assert j != i ==> Live(c, s, j);
      assert k != i ==> Live(c, s, k);
    }
  }

  /** A worker that was not executing steps while nobody is live. */
  lemma ReplaceIdle(c: Settings, s: State, i: nat, run: Run, w: Worker)
    requires Inv(c, s) && i < |s.workers| && (forall j :: !Live(c, s, j))
    requires RunOK(c, run) && WorkerOK(c, s.now, run, w)
    ensures Inv(c, s.(run := run, workers := s.workers[i := w]))
  {
    var s' := s.(run := run, workers := s.workers[i := w]);
    forall j | 0 <= j < |s'.workers|
      ensures WorkerOK(c, s'.now, run, s'.workers[j])
    {
      if j != i {
        assert !Live(c, s, j);
      }
    }
    forall j, k | Live(c, s', j) && Live(c, s', k)
      ensures j == k
    {
      assert j != i ==> Live(c, s, j);
      assert k != i ==> Live(c, s, k);
    }
  }

  /** The run changes while nobody is live. */
  lemma ReplaceRun(c: Settings, s: State, run: Run)
    requires Inv(c, s) && (forall j :: !Live(c, s, j)) && RunOK(c, run)
    ensures Inv(c, s.(run := run))
  {
    var s' := s.(run := run);
    forall j
      ensures !Live(c, s', j)
    {
      assert !Live(c, s, j);
    }
    forall j | 0 <= j < |s'.workers|
      ensures WorkerOK(c, s'.now, run, s'.workers[j])
    {
      assert WorkerOK(c, s.now, s.run, s.workers[j]) && !Live(c, s, j);
    }
  }

  /** Stopping, or failing to claim, changes nothing but one worker's place. */
  lemma RetireWorker(c: Settings, s: State, i: nat)
    requires Inv(c, s) && i < |s.workers|
    ensures Inv(c, s.(workers := s.workers[i := s.workers[i].(pc := Done)]))
  {
    var s' := s.(workers := s.workers[i := s.workers[i].(pc := Done)]);
    forall j, k | Live(c, s', j) && Live(c, s', k)
      ensures j == k
    {
      assert Live(c, s, j) && Live(c, s, k);
    }
  }

  // ------------------------------------------------------- nobody is live when ...

  lemma NobodyLiveInQueue(c: Settings, s: State)
    requires Inv(c, s) && s.run.row.status == InQueue
    ensures forall j :: !Live(c, s, j)
  {
    forall j ensures !Live(c, s, j) {
      if 0 <= j < |s.workers| {
        assert WorkerOK(c, s.now, s.run, s.workers[j]);
      }
    }
  }

  /** A lapsed lease means its holder is already dead: the real-time argument. */
  lemma NobodyLiveWhenLapsed(c: Settings, s: State)
    requires Inv(c, s) && !Terminal(s.run.row.status)
    requires s.run.row.lease.Some? ==> s.run.row.lease.value < s.now
    ensures forall j :: !Live(c, s, j)
  {
    forall j ensures !Live(c, s, j) {
      if 0 <= j < |s.workers| {
        assert WorkerOK(c, s.now, s.run, s.workers[j]);
      }
    }
  }

  lemma NobodyLiveWhenScanHolds(c: Settings, s: State, scan: Scan)
    requires Inv(c, s) && ScanOK(c, s.now, scan) && Unchanged(s.run.row, scan.row)
    ensures forall j :: !Live(c, s, j)
  {
    NobodyLiveWhenLapsed(c, s);
  }

  // -------------------------------------------------------- environment actions

  lemma InitialInv(c: Settings, s: State)
    requires c.Outlives() && Initial(s)
    ensures Inv(c, s)
  {
  }

  lemma TickKeeps(c: Settings, s: State, dt: nat)
    requires Inv(c, s)
    ensures Inv(c, s.(now := s.now + dt))
  {
    var s' := s.(now := s.now + dt);
    forall j | 0 <= j < |s'.workers|
      ensures WorkerOK(c, s'.now, s'.run, s'.workers[j])
    {
      assert WorkerOK(c, s.now, s.run, s.workers[j]);
    }
    forall j, k | Live(c, s', j) && Live(c, s', k)
      ensures j == k
    {
      assert Live(c, s, j) && Live(c, s, k);
    }
  }

  lemma AddIdle(c: Settings, s: State, w: Worker)
    requires Inv(c, s) && WorkerOK(c, s.now, s.run, w) && w.pc.Waiting?
    ensures Inv(c, s.(workers := s.workers + [w]))
  {
    var s' := s.(workers := s.workers + [w]);
    forall j, k | Live(c, s', j) && Live(c, s', k)
      ensures j == k
    {
      assert Live(c, s, j) && Live(c, s, k);
    }
  }

  lemma StartTaskKeeps(c: Settings, s: State, simulationPlanned: bool)
    requires Inv(c, s)
    ensures Inv(c, Next(c, s, StartTask(simulationPlanned)))
  {
    WorkerPlansArePlans(simulationPlanned);
    AddIdle(c, s, Worker(s.now, StagePlanFor(simulationPlanned), 0, Waiting));
  }

  lemma ScanRunKeeps(c: Settings, s: State, moment: int)
    requires Inv(c, s) && Enabled(c, s, ScanRun(moment))
    ensures Inv(c, Next(c, s, ScanRun(moment)))
  {
    var s' := Next(c, s, ScanRun(moment));
    forall j, k | Live(c, s', j) && Live(c, s', k)
      ensures j == k
    {
      assert Live(c, s, j) && Live(c, s, k);
    }
  }

  lemma RequeueOK(c: Settings, run: Run, until: int)
    requires RunOK(c, run) && !Terminal(run.row.status) && run.row.attempt < c.maxAttempts
    ensures RunOK(c, Requeue(run, until))
  {
  }

  lemma RecoverRequeueKeeps(c: Settings, s: State, scan: nat, read: int)
    requires Inv(c, s) && Enabled(c, s, RecoverRequeue(scan, read))
    ensures Inv(c, Next(c, s, RecoverRequeue(scan, read)))
  {
    if Unchanged(s.run.row, s.scans[scan].row) {
      NobodyLiveWhenScanHolds(c, s, s.scans[scan]);
      RequeueOK(c, s.run, read + c.graceSeconds);
      ReplaceRun(c, s, Requeue(s.run, read + c.graceSeconds));
    }
  }

  lemma GiveUpOK(c: Settings, run: Run, seen: Row)
    requires c.Outlives() && RunOK(c, run) && Unchanged(run.row, seen)
    requires seen.completed == [Queued] && seen.attempt >= c.maxAttempts
    ensures RunOK(c, GiveUp(run, seen))
  {
    var run' := GiveUp(run, seen);
    var e := run'.log[|run.log|];
    QueuedOnlyIsZero(PlanFromStored(seen.skipped));
    assert FailureEvent(e);
    AppendFailureEvent(run.log, e);
    ContiguousMax(run.log);
  }

  lemma GiveUpKeeps(c: Settings, s: State, scan: nat)
    requires c.Outlives() && Inv(c, s) && Enabled(c, s, RecoverGiveUp(scan)) && Current(s, RecoverGiveUp(scan))
    ensures Inv(c, Next(c, s, RecoverGiveUp(scan)))
  {
    NobodyLiveWhenScanHolds(c, s, s.scans[scan]);
    GiveUpOK(c, s.run, s.scans[scan].row);
    ReplaceRun(c, s, GiveUp(s.run, s.scans[scan].row));
  }

  // ------------------------------------------------------------- worker actions

  lemma ClaimOK(c: Settings, run: Run, until: int)
    requires c.Outlives() && RunOK(c, run) && CanClaim(run.row, c.maxAttempts)
    ensures RunOK(c, Claim(run, until))
    ensures AttemptsUpTo(run.log, Claim(run, until).row.attempt - 1)
  {
  }

  lemma TryClaimKeeps(c: Settings, s: State, i: nat, read: int)
    requires c.Outlives() && Inv(c, s) && Enabled(c, s, TryClaim(i, read))
    ensures Inv(c, Next(c, s, TryClaim(i, read)))
  {
    if CanClaim(s.run.row, c.maxAttempts) {
      NobodyLiveInQueue(c, s);
      ClaimOK(c, s.run, read + c.leaseSeconds);
      ReplaceIdle(c, s, i, Claim(s.run, read + c.leaseSeconds), s.workers[i].(pc := Claimed));
    } else {
      RetireWorker(c, s, i);
    }
  }

  /** What a step of a live worker must establish, about the run and itself only. */
  ghost predicate StepOK(c: Settings, now: int, run: Run, w: Worker, a: Action)
    requires a.ByWorker() && WorkerEnabled(c, now, w, a)
  {
    var (run', w') := WorkerStep(c, now, run, w, a);
    RunOK(c, run') && WorkerOK(c, now, run', w')
  }

  /** The standing of a live worker, from which its next step is proved. */
  ghost predicate Ready(c: Settings, now: int, run: Run, w: Worker) {
    c.Outlives() && RunOK(c, run) && WorkerOK(c, now, run, w) && Executing(w.pc) && Alive(c, now, w)
  }

  lemma LoadOK(c: Settings, now: int, run: Run, w: Worker, a: Action)
    requires Ready(c, now, run, w) && (a.Load? || a.StoreSkipped?) && WorkerEnabled(c, now, w, a)
    ensures StepOK(c, now, run, w, a)
  {
  }

  lemma ReadSequenceOK(c: Settings, now: int, run: Run, w: Worker, a: Action)
    requires Ready(c, now, run, w) && a.ReadSequence? && WorkerEnabled(c, now, w, a)
    ensures StepOK(c, now, run, w, a)
  {
    ContiguousMax(run.log);
  }

  /** A live worker's insert never meets a taken sequence: it is the only emitter. */
  lemma InsertEventOK(c: Settings, now: int, run: Run, w: Worker, a: Action)
    requires Ready(c, now, run, w) && a.InsertEvent? && WorkerEnabled(c, now, w, a)
    ensures StepOK(c, now, run, w, a)
    ensures !SequenceTaken(run.log, w.pc.sequence)
  {
    var e := EventOf(w, w.pc.note, w.pc.sequence);
    if Holding(w.pc) {
      AppendStageEvent(run.log, w, w.pc.pos, w.pc.sequence);
    } else if w.pc.note.status == Failed {
      NewFailureEvent(w, w.pc.note, w.pc.sequence);
      AppendFailureEvent(run.log, e);
    } else {
      AppendSuccessEvent(run.log, w, w.pc.note.status, w.pc.sequence);
    }
  }

  lemma EnterNextOK(c: Settings, now: int, run: Run, w: Worker, a: Action)
    requires Ready(c, now, run, w) && a.EnterNext? && WorkerEnabled(c, now, w, a)
    ensures StepOK(c, now, run, w, a)
    ensures w.attempt == run.row.attempt && w.pc.pos < |w.plan.stages| && run.row.status == In(w.plan.stages[w.pc.pos])
  {
  }

  lemma FinishRunOK(c: Settings, now: int, run: Run, w: Worker, a: Action)
    requires Ready(c, now, run, w) && a.FinishRun? && WorkerEnabled(c, now, w, a)
    ensures StepOK(c, now, run, w, a)
  {
    assert run.data + a.batch == a.batch;
  }

  lemma HandlerReadOK(c: Settings, now: int, run: Run, w: Worker, a: Action)
    requires Ready(c, now, run, w) && (a.ReadForFailure? || a.ReadForRetry?) && WorkerEnabled(c, now, w, a)
    ensures StepOK(c, now, run, w, a)
  {
  }

  /** The re-read of `_fail` may be stale only if somebody else could write: nobody can. */
  lemma WriteFailureOK(c: Settings, now: int, run: Run, w: Worker, a: Action)
    requires Ready(c, now, run, w) && a.WriteFailure? && WorkerEnabled(c, now, w, a)
    ensures StepOK(c, now, run, w, a)
    ensures StillMine(run.row, w.attempt) && w.pc.seen == run.row
  {
    assert run.data + a.batch == a.batch;
  }

  lemma RequeueForRetryOK(c: Settings, now: int, run: Run, w: Worker, a: Action)
    requires Ready(c, now, run, w) && a.RequeueForRetry? && WorkerEnabled(c, now, w, a)
    ensures StepOK(c, now, run, w, a)
    ensures Unchanged(run.row, w.pc.seen)
  {
    RequeueOK(c, run, a.read + c.graceSeconds);
  }

  lemma WorkerStepOK(c: Settings, now: int, run: Run, w: Worker, a: Action)
    requires Ready(c, now, run, w) && a.ByWorker() && !a.TryClaim? && WorkerEnabled(c, now, w, a)
    ensures StepOK(c, now, run, w, a)
  {
    match a
    case Load(_) => LoadOK(c, now, run, w, a);
    case StoreSkipped(_) => LoadOK(c, now, run, w, a);
    case ReadSequence(_) => ReadSequenceOK(c, now, run, w, a);
    case InsertEvent(_) => InsertEventOK(c, now, run, w, a);
    case EnterNext(_, _) => EnterNextOK(c, now, run, w, a);
    case FinishRun(_, _, _) => FinishRunOK(c, now, run, w, a);
    case ReadForFailure(_) => HandlerReadOK(c, now, run, w, a);
    case ReadForRetry(_) => HandlerReadOK(c, now, run, w, a);
    case WriteFailure(_, _) => WriteFailureOK(c, now, run, w, a);
    case RequeueForRetry(_, _) => RequeueForRetryOK(c, now, run, w, a);
    case Stop(_) =>
  }

  lemma LiveReady(c: Settings, s: State, i: nat)
    requires c.Outlives() && Inv(c, s) && Live(c, s, i)
    ensures Ready(c, s.now, s.run, s.workers[i])
  {
  }

  lemma WorkerActionKeeps(c: Settings, s: State, a: Action)
    requires c.Outlives() && Inv(c, s) && a.ByWorker() && !a.TryClaim? && !a.Stop? && Enabled(c, s, a)
    ensures Inv(c, Next(c, s, a))
  {
    var w := s.workers[a.w];
    assert Live(c, s, a.w);
    LiveReady(c, s, a.w);
    WorkerStepOK(c, s.now, s.run, w, a);
    var (run, w') := WorkerStep(c, s.now, s.run, w, a);
    ReplaceLive(c, s, a.w, run, w');
  }

  lemma RecoveryKeeps(c: Settings, s: State, a: Action)
    requires c.Outlives() && Inv(c, s) && Enabled(c, s, a) && Current(s, a)
    requires a.ScanRun? || a.RecoverRequeue? || a.RecoverGiveUp?
    ensures Inv(c, Next(c, s, a))
  {
    if a.ScanRun? { ScanRunKeeps(c, s, a.moment); }
    if a.RecoverRequeue? { RecoverRequeueKeeps(c, s, a.scan, a.read); }
    if a.RecoverGiveUp? { GiveUpKeeps(c, s, a.scan); }
  }

  lemma ArrivalKeeps(c: Settings, s: State, a: Action)
    requires c.Outlives() && Inv(c, s) && Enabled(c, s, a) && (a.Tick? || a.StartTask?)
    ensures Inv(c, Next(c, s, a))
  {
    if a.Tick? { TickKeeps(c, s, a.dt); } else { StartTaskKeeps(c, s, a.simulationPlanned); }
  }

  lemma ClaimOrStopKeeps(c: Settings, s: State, a: Action)
    requires c.Outlives() && Inv(c, s) && Enabled(c, s, a) && (a.TryClaim? || a.Stop?)
    ensures Inv(c, Next(c, s, a))
  {
    if a.TryClaim? { TryClaimKeeps(c, s, a.w, a.read); } else { RetireWorker(c, s, a.w); }
  }

  /** Every step keeps the invariant; a give-up must find the row its scan saw. */
  lemma StepKeeps(c: Settings, s: State, a: Action)
    requires c.Outlives() && Inv(c, s) && Enabled(c, s, a) && Current(s, a)
    ensures Inv(c, Next(c, s, a))
  {
    if a.ScanRun? || a.RecoverRequeue? || a.RecoverGiveUp? {
      RecoveryKeeps(c, s, a);
    } else if a.Tick? || a.StartTask? {
      ArrivalKeeps(c, s, a);
    } else if a.TryClaim? || a.Stop? {
      ClaimOrStopKeeps(c, s, a);
    } else {
      WorkerActionKeeps(c, s, a);
    }
  }
}
