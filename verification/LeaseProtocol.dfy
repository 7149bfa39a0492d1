/** The lease protocol as a timed transition system over one run.

    Any number of task deliveries, reconciler scans and crashes interleave. One
    committed transaction, or one read outside it, is one step; a worker takes
    steps only until Celery's hard limit kills its task. */
module LeaseProtocol {
  import opened StagePlans
  import opened RunRows

  /** What an event will say once its sequence number is known. */
  datatype Note = Note(status: Status, stage: Stage, completed: seq<Stage>)

  datatype Pc =
    | Waiting                                  // delivered, nothing claimed yet
    | Claimed                                  // claim committed, row not read back
    | Loaded                                   // row read, skipped stages not stored
    | Announcing(note: Note, pos: nat)         // transition committed, event pending
    | Inserting(note: Note, pos: nat, sequence: nat)
    | At(pos: nat)                             // executing the stage at this position
    | Failing(seen: Row)                       // `_fail` re-read the row, write pending
    | Retrying(seen: Row)                      // transient error, requeue pending
    | Done

  datatype Worker = Worker(started: int, plan: StagePlan, attempt: nat, pc: Pc)

  datatype Scan = Scan(moment: int, row: Row)

  datatype State = State(now: int, run: Run, workers: seq<Worker>, scans: seq<Scan>)

  datatype Action =
    | Tick(dt: nat)
    | StartTask(simulationPlanned: bool)
    | TryClaim(w: nat, read: int)
    | Load(w: nat)
    | StoreSkipped(w: nat)
    | ReadSequence(w: nat)
    | InsertEvent(w: nat)
    | EnterNext(w: nat, read: int)
    | FinishRun(w: nat, status: Status, batch: seq<DataRow>)
    | ReadForFailure(w: nat)
    | WriteFailure(w: nat, batch: seq<DataRow>)
    | ReadForRetry(w: nat)
    | RequeueForRetry(w: nat, read: int)
    | Stop(w: nat)
    | ScanRun(moment: int)
    | RecoverRequeue(scan: nat, read: int)
    | RecoverGiveUp(scan: nat)
  {
    predicate ByWorker() {
      !Tick? && !StartTask? && !ScanRun? && !RecoverRequeue? && !RecoverGiveUp?
    }
  }

  predicate Initial(s: State) {
    s.run == NewRun(s.now) && s.workers == [] && s.scans == []
  }

  /** The hard limit: after `started + hardLimitSeconds` the task's process is gone. */
  predicate Alive(c: Settings, now: int, w: Worker) {
    now <= w.started + c.hardLimitSeconds
  }

  /** Inside the try block of `run`, where an exception reaches a handler. */
  predicate InTry(pc: Pc) {
    pc.Announcing? || pc.Inserting? || pc.At? || pc.Failing?
  }

  /** `_persist` adds exactly one report and any evidence, agent and trace rows. */
  predicate ReportBatch(batch: seq<DataRow>, attempt: nat) {
    && (forall i :: 0 <= i < |batch| ==> batch[i].attempt == attempt)
    && (exists i :: 0 <= i < |batch| && batch[i].ReportRow?)
    && (forall i, j :: 0 <= i < j < |batch| ==> !(batch[i].ReportRow? && batch[j].ReportRow?))
  }

  /** A failed run keeps at most the retention record of its trace. */
  predicate TraceBatch(batch: seq<DataRow>, attempt: nat) {
    batch == [] || batch == [TraceRow(attempt)]
  }

  predicate Enabled(c: Settings, s: State, a: Action) {
    match a
    case Tick(_) => true
    case StartTask(_) => true
    case ScanRun(moment) => moment <= s.now && Stuck(s.run.row, moment, c.graceSeconds)
    case RecoverRequeue(scan, read) =>
      scan < |s.scans| && read <= s.now && s.scans[scan].row.attempt < c.maxAttempts
    case RecoverGiveUp(scan) =>
      scan < |s.scans| && s.scans[scan].row.attempt >= c.maxAttempts
    case _ =>
      && a.w < |s.workers|
      && Alive(c, s.now, s.workers[a.w])
      && WorkerEnabled(c, s.now, s.workers[a.w], a)
  }

  predicate WorkerEnabled(c: Settings, now: int, w: Worker, a: Action)
    requires a.ByWorker()
  {
    match a
    case TryClaim(_, read) => w.pc.Waiting? && w.started <= read <= now
    case Load(_) => w.pc.Claimed?
    case StoreSkipped(_) => w.pc.Loaded? && 1 < |w.plan.stages|
    case ReadSequence(_) => w.pc.Announcing?
    case InsertEvent(_) => w.pc.Inserting?
    case EnterNext(_, read) =>
      w.pc.At? && w.pc.pos + 1 < |w.plan.stages| && w.started <= read <= now
    case FinishRun(_, status, batch) =>
      && w.pc.At? && w.pc.pos + 1 == |w.plan.stages|
      && (status == Completed || status == Partial) && ReportBatch(batch, w.attempt)
    case ReadForFailure(_) => InTry(w.pc)
    case WriteFailure(_, batch) => w.pc.Failing? && TraceBatch(batch, w.attempt)
    case ReadForRetry(_) => InTry(w.pc) && w.attempt < c.maxAttempts
    case RequeueForRetry(_, read) => w.pc.Retrying? && read <= now
    case Stop(_) => true
  }

  /** The note of the stage at `pos`: everything planned before it is complete. */
  function StageNote(plan: StagePlan, pos: nat): Note
    requires pos < |plan.stages|
  {
    Note(In(plan.stages[pos]), plan.stages[pos], plan.stages[..pos])
  }

  function EventOf(w: Worker, note: Note, sequence: nat): Event {
    Event(sequence, note.status, note.stage, note.completed, w.plan,
          w.plan.Percent(note.completed), w.attempt)
  }

  /** What the handlers check before they write: still this attempt, still working. */
  predicate StillMine(row: Row, attempt: nat) {
    row.attempt == attempt && row.status != InQueue && !Terminal(row.status)
  }

  /** The status is flushed before the guarded renewal, so only the attempt number fences;
      a failed guard rolls both back. */
  function EnterStep(run: Run, w: Worker, leaseUntil: int): (Run, Worker)
    requires w.pc.At? && w.pc.pos + 1 < |w.plan.stages|
  {
    var pos := w.pc.pos + 1;
    var flushed := FlushStage(run, w.plan.stages[pos]);
    if CanRenew(flushed.row, w.attempt)
    then (Renew(flushed, leaseUntil), w.(pc := Announcing(StageNote(w.plan, pos), pos)))
    else (run, w.(pc := Done))
  }

  /** One worker step: the run afterwards and where the worker stands. */
  function WorkerStep(c: Settings, now: int, run: Run, w: Worker, a: Action): (Run, Worker)
    requires a.ByWorker() && WorkerEnabled(c, now, w, a)
  {
    match a
    case TryClaim(_, read) =>
      if CanClaim(run.row, c.maxAttempts)
      then (Claim(run, read + c.leaseSeconds), w.(pc := Claimed))
      else (run, w.(pc := Done))
    case Load(_) =>
      (run, w.(attempt := run.row.attempt, pc := Loaded))
    case StoreSkipped(_) =>
      (RecordSkipped(run, w.plan.skipped),
       w.(pc := Announcing(StageNote(w.plan, 1), 1)))
    case ReadSequence(_) =>
      (run, w.(pc := Inserting(w.pc.note, w.pc.pos, NextSequence(run.log))))
    case InsertEvent(_) =>
      if SequenceTaken(run.log, w.pc.sequence)
      then (run, w)  // unique key violated: only the exception handlers are left
      else (Append(run, EventOf(w, w.pc.note, w.pc.sequence)),
            w.(pc := if Terminal(w.pc.note.status) then Done else At(w.pc.pos)))
    case EnterNext(_, read) => EnterStep(run, w, read + c.leaseSeconds)
    case FinishRun(_, status, batch) =>
      if CanRenew(run.row, w.attempt)
      then (Finish(run, status, w.plan, batch),
            w.(pc := Announcing(Note(status, ValidatingReport, w.plan.stages), w.pc.pos)))
      else (run, w.(pc := Done))
    case ReadForFailure(_) =>
      (run, w.(pc := if StillMine(run.row, w.attempt) then Failing(run.row) else Done))
    case WriteFailure(_, batch) =>
      (WriteFailed(run, batch),
       w.(pc := Announcing(Note(Failed, w.pc.seen.currentStage, w.pc.seen.completed), 0)))
    case ReadForRetry(_) =>
      (run, w.(pc := if StillMine(run.row, w.attempt) then Retrying(run.row) else Done))
    case RequeueForRetry(_, read) =>
      (if Unchanged(run.row, w.pc.seen) then Requeue(run, read + c.graceSeconds) else run,
       w.(pc := Done))
    case Stop(_) => (run, w.(pc := Done))
  }

  function Next(c: Settings, s: State, a: Action): State
    requires Enabled(c, s, a)
  {
    match a
    case Tick(dt) => s.(now := s.now + dt)
    case StartTask(simulationPlanned) =>
      s.(workers := s.workers + [Worker(s.now, StagePlanFor(simulationPlanned), 0, Waiting)])
    case ScanRun(moment) => s.(scans := s.scans + [Scan(moment, s.run.row)])
    case RecoverRequeue(scan, read) =>
      if Unchanged(s.run.row, s.scans[scan].row)
      then s.(run := Requeue(s.run, read + c.graceSeconds))
      else s
    case RecoverGiveUp(scan) => s.(run := GiveUp(s.run, s.scans[scan].row))
    case _ =>
      var (run, w) := WorkerStep(c, s.now, s.run, s.workers[a.w], a);
      s.(run := run, workers := s.workers[a.w := w])
  }

  /** A history: states[i] becomes states[i + 1] by actions[i]. */
  datatype History = History(states: seq<State>, actions: seq<Action>)

  ghost predicate IsHistory(c: Settings, h: History) {
    && |h.states| == |h.actions| + 1
    && Initial(h.states[0])
    && forall i :: 0 <= i < |h.actions| ==>
         Enabled(c, h.states[i], h.actions[i])
         && h.states[i + 1] == Next(c, h.states[i], h.actions[i])
  }

  /** The give-up's UPDATE has no condition. It is current when the row still is what
      the scan saw, which is what an atomic check-and-write would require. */
  predicate Current(s: State, a: Action) {
    a.RecoverGiveUp? && a.scan < |s.scans| ==> Unchanged(s.run.row, s.scans[a.scan].row)
  }

  ghost predicate GiveUpsAreCurrent(h: History)
    requires |h.states| == |h.actions| + 1
  {
    forall i :: 0 <= i < |h.actions| ==> Current(h.states[i], h.actions[i])
  }

  /** Executing the run: claimed, not yet done. */
  predicate Executing(pc: Pc) { !pc.Waiting? && !pc.Done? }

  predicate Live(c: Settings, s: State, i: int) {
    0 <= i < |s.workers| && Executing(s.workers[i].pc) && Alive(c, s.now, s.workers[i])
  }
}
