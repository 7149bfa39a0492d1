/** The worker repository, the reconciler's loop and the pipeline, updating the table of
    runs in place. Each method commits one of the changes `RunRows` defines. */
module RunTables {
  import opened Options
  import opened StagePlans
  import opened RunRows
  import opened RunExecution
  import LeaseInvariant
  import LeaseProtocol

  type RunId = nat

  /** A run as the reconciler's scan returned it. */
  datatype StuckRun = StuckRun(id: RunId, seen: Row)

  /** What the reconciler does to one run, given what its scan saw of it. */
  function Recovered(run: Run, seen: Row, graceUntil: int, maxAttempts: nat): Run {
    if seen.attempt >= maxAttempts then GiveUp(run, seen)
    else if Unchanged(run.row, seen) then Requeue(run, graceUntil)
    else run
  }

  datatype Outcome = Requeued | GaveUp | MovedOn

  function OutcomeOf(run: Run, seen: Row, maxAttempts: nat): Outcome {
    if seen.attempt >= maxAttempts then GaveUp
    else if Unchanged(run.row, seen) then Requeued
    else MovedOn
  }

  predicate DistinctIds(stuck: seq<StuckRun>) {
    forall i, j :: 0 <= i < j < |stuck| ==> stuck[i].id != stuck[j].id
  }

  predicate Mentions(stuck: seq<StuckRun>, id: RunId) {
    exists i :: 0 <= i < |stuck| && stuck[i].id == id
  }

  lemma MentionsNext(stuck: seq<StuckRun>, n: nat)
    requires DistinctIds(stuck) && n < |stuck|
    ensures !Mentions(stuck[..n], stuck[n].id)
    ensures forall id :: Mentions(stuck[..n + 1], id) <==> Mentions(stuck[..n], id) || id == stuck[n].id
  {
    var longer := stuck[..n + 1];
    assert longer == stuck[..n] + [stuck[n]];
    assert longer[n] == stuck[n];
    forall id | Mentions(stuck[..n], id) ensures Mentions(longer, id) {
      var k :| 0 <= k < n && stuck[..n][k].id == id;
      assert longer[k].id == id;
    }
  }

  lemma NotYetDone(stuck: seq<StuckRun>, n: nat)
    requires DistinctIds(stuck) && n < |stuck|
    ensures !Mentions(stuck[..n], stuck[n].id)
  {
  }

  /** Every scanned run is as `Recovered` says, every other run as it was. */
  ghost predicate PassDone(before: map<RunId, Run>, now: map<RunId, Run>, stuck: seq<StuckRun>, graceUntil: int,
                           maxAttempts: nat)
  {
    && now.Keys == before.Keys
    && (forall i :: 0 <= i < |stuck| ==>
          stuck[i].id in before
          && now[stuck[i].id] == Recovered(before[stuck[i].id], stuck[i].seen, graceUntil, maxAttempts))
    && forall id :: id in before && !Mentions(stuck, id) ==> now[id] == before[id]
  }

  lemma PassNext(before: map<RunId, Run>, now: map<RunId, Run>, stuck: seq<StuckRun>, n: nat, graceUntil: int,
                 maxAttempts: nat)
    requires DistinctIds(stuck) && n < |stuck| && stuck[n].id in before
    requires PassDone(before, now, stuck[..n], graceUntil, maxAttempts)
    ensures now[stuck[n].id] == before[stuck[n].id]
    ensures PassDone(before,
                     now[stuck[n].id := Recovered(now[stuck[n].id], stuck[n].seen, graceUntil, maxAttempts)],
                     stuck[..n + 1], graceUntil, maxAttempts)
  {
    NotYetDone(stuck, n);
    ExtendPass(before, now, stuck[..n], stuck[n], graceUntil, maxAttempts,
               Recovered(now[stuck[n].id], stuck[n].seen, graceUntil, maxAttempts));
    assert stuck[..n + 1] == stuck[..n] + [stuck[n]];
  }

  lemma ExtendPass(before: map<RunId, Run>, now: map<RunId, Run>, done: seq<StuckRun>, next: StuckRun, graceUntil: int,
                   maxAttempts: nat, after: Run)
    requires PassDone(before, now, done, graceUntil, maxAttempts)
    requires next.id in before && !Mentions(done, next.id)
    requires after == Recovered(before[next.id], next.seen, graceUntil, maxAttempts)
    ensures PassDone(before, now[next.id := after], done + [next], graceUntil, maxAttempts)
  {
    var all := done + [next];
    forall i | 0 <= i < |all|
      ensures all[i].id in before
              && now[next.id := after][all[i].id] == Recovered(before[all[i].id], all[i].seen, graceUntil, maxAttempts)
    {
      if i < |done| { assert all[i] == done[i] && done[i].id != next.id; }
    }
    forall id | id in before && !Mentions(all, id) ensures now[next.id := after][id] == before[id] {
      MentionsMore(done, next, id);
    }
  }

  lemma MentionsMore(done: seq<StuckRun>, next: StuckRun, id: RunId)
    ensures Mentions(done + [next], id) <==> Mentions(done, id) || id == next.id
  {
    var all := done + [next];
    assert all[|done|] == next;
    if Mentions(done, id) {
      var k :| 0 <= k < |done| && done[k].id == id;
      assert all[k].id == id;
    }
  }

  /** The report names exactly the runs that were requeued and given up. */
  ghost predicate Listed(before: map<RunId, Run>, stuck: seq<StuckRun>, maxAttempts: nat, requeued: seq<RunId>,
                         failed: seq<RunId>)
  {
    && (forall i :: 0 <= i < |stuck| ==>
          stuck[i].id in before
          && var outcome := OutcomeOf(before[stuck[i].id], stuck[i].seen, maxAttempts);
          (stuck[i].id in failed <==> outcome == GaveUp) && (stuck[i].id in requeued <==> outcome == Requeued))
    && forall id :: id in requeued || id in failed ==> Mentions(stuck, id)
  }

  lemma ListedNext(before: map<RunId, Run>, stuck: seq<StuckRun>, n: nat, maxAttempts: nat, requeued: seq<RunId>,
                   failed: seq<RunId>)
    requires DistinctIds(stuck) && n < |stuck| && stuck[n].id in before
    requires Listed(before, stuck[..n], maxAttempts, requeued, failed)
    ensures var outcome := OutcomeOf(before[stuck[n].id], stuck[n].seen, maxAttempts);
      Listed(before, stuck[..n + 1], maxAttempts,
             if outcome == Requeued then requeued + [stuck[n].id] else requeued,
             if outcome == GaveUp then failed + [stuck[n].id] else failed)
  {
    MentionsNext(stuck, n);
  }

  class RunTable {
    var runs: map<RunId, Run>

    constructor ()
      ensures runs == map[]
    {
      runs := map[];
    }

    /** Leaves `queued` at most once per queueing; the row read back is returned. */
    method Claim(id: RunId, leaseUntil: int, maxAttempts: nat) returns (claimed: Option<Row>)
      modifies this
      ensures claimed.Some? <==> id in old(runs) && CanClaim(old(runs)[id].row, maxAttempts)
      ensures claimed.Some? ==>
                runs == old(runs)[id := RunRows.Claim(old(runs)[id], leaseUntil)]
                && claimed.value == runs[id].row && !CanClaim(claimed.value, maxAttempts)
      ensures claimed.None? ==> runs == old(runs)
    {
      claimed := None;
      if id in runs && CanClaim(runs[id].row, maxAttempts) {
        runs := runs[id := RunRows.Claim(runs[id], leaseUntil)];
        claimed := Some(runs[id].row);
      }
    }

    method RenewLease(id: RunId, attempt: nat, leaseUntil: int) returns (owned: bool)
      modifies this
      ensures owned <==> id in old(runs) && CanRenew(old(runs)[id].row, attempt)
      ensures runs == if owned then old(runs)[id := Renew(old(runs)[id], leaseUntil)] else old(runs)
    {
      owned := id in runs && CanRenew(runs[id].row, attempt);
      if owned {
        runs := runs[id := Renew(runs[id], leaseUntil)];
      }
    }

    /** `_enter`: flush the stage, renew under guard, commit; a fenced worker rolls back. */
    method EnterStage(id: RunId, attempt: nat, stage: Stage, leaseUntil: int) returns (owned: bool)
      requires id in runs
      modifies this
      ensures owned <==> old(runs)[id].row.attempt == attempt
      ensures runs == if owned
                      then old(runs)[id := Renew(FlushStage(old(runs)[id], stage), leaseUntil)]
                      else old(runs)
    {
      var before := runs;
      runs := runs[id := FlushStage(runs[id], stage)];
      owned := RenewLease(id, attempt, leaseUntil);
      if owned {
        assert runs == before[id := Renew(FlushStage(before[id], stage), leaseUntil)];
      } else {
        runs := before;
      }
    }

    /** `_emit` without a competing emitter. */
    method Emit(id: RunId, status: Status, stage: Stage, completed: seq<Stage>, plan: StagePlan, attempt: nat)
      requires id in runs && Contiguous(runs[id].log)
      modifies this
      ensures runs == old(runs)[id := Append(old(runs)[id],
                Event(|old(runs)[id].log| + 1, status, stage, completed, plan,
                      plan.Percent(completed), attempt))]
      ensures Contiguous(runs[id].log)
    {
      ContiguousMax(runs[id].log);
      var sequence := NextSequence(runs[id].log);
      runs := runs[id := Append(runs[id],
                Event(sequence, status, stage, completed, plan, plan.Percent(completed), attempt))];
    }

    method Requeue(id: RunId, seen: Row, graceUntil: int) returns (won: bool)
      modifies this
      ensures won <==> id in old(runs) && Unchanged(old(runs)[id].row, seen)
      ensures runs == if won then old(runs)[id := RunRows.Requeue(old(runs)[id], graceUntil)]
                      else old(runs)
    {
      won := id in runs && Unchanged(runs[id].row, seen);
      if won {
        runs := runs[id := RunRows.Requeue(runs[id], graceUntil)];
      }
    }

    method FailExhausted(id: RunId, seen: Row)
      requires id in runs
      modifies this
      ensures runs == old(runs)[id := GiveUp(old(runs)[id], seen)]
    {
      runs := runs[id := GiveUp(runs[id], seen)];
    }

    method RecoverOne(run: StuckRun, graceUntil: int, maxAttempts: nat) returns (outcome: Outcome)
      requires run.id in runs
      modifies this
      ensures runs == old(runs)[run.id := Recovered(old(runs)[run.id], run.seen, graceUntil, maxAttempts)]
      ensures outcome == OutcomeOf(old(runs)[run.id], run.seen, maxAttempts)
    {
      if run.seen.attempt >= maxAttempts {
        FailExhausted(run.id, run.seen);
        outcome := GaveUp;
      } else {
        var won := Requeue(run.id, run.seen, graceUntil);
        outcome := if won then Requeued else MovedOn;
        assert runs == old(runs)[run.id := runs[run.id]];
      }
    }

    /** The reconciler's pass over one scan: each run is requeued, given up or, if it moved
        on since the scan, left alone; nothing else is touched and the report lists exactly
        what happened. */
    method RecoverStuckRuns(stuck: seq<StuckRun>, graceUntil: int, maxAttempts: nat)
      returns (requeued: seq<RunId>, failed: seq<RunId>)
      requires DistinctIds(stuck) && forall i :: 0 <= i < |stuck| ==> stuck[i].id in runs
      modifies this
      ensures PassDone(old(runs), runs, stuck, graceUntil, maxAttempts)
      ensures Listed(old(runs), stuck, maxAttempts, requeued, failed)
    {
      requeued, failed := [], [];
      for n := 0 to |stuck|
        invariant PassDone(old(runs), runs, stuck[..n], graceUntil, maxAttempts)
        invariant Listed(old(runs), stuck[..n], maxAttempts, requeued, failed)
      {
        PassNext(old(runs), runs, stuck, n, graceUntil, maxAttempts);
        ListedNext(old(runs), stuck, n, maxAttempts, requeued, failed);
        var outcome := RecoverOne(stuck[n], graceUntil, maxAttempts);
        if outcome == GaveUp { failed := failed + [stuck[n].id]; }
        if outcome == Requeued { requeued := requeued + [stuck[n].id]; }
      }
      assert stuck[..|stuck|] == stuck;
    }

    /** `_execute` from the first event to the last stage: every planned stage is entered
        in order, its renewal owned, and logged. */
    method WalkStages(id: RunId, plan: StagePlan, attempt: nat, leaseUntil: int)
      requires id in runs && Contiguous(runs[id].log)
      requires |plan.stages| >= 2 && plan.stages[1] == FIRST_STAGE
      requires runs[id].row.status == In(FIRST_STAGE) && runs[id].row.currentStage == FIRST_STAGE
      requires runs[id].row.attempt == attempt && runs[id].row.lease == Some(leaseUntil)
      modifies this
      ensures runs == old(runs)[id := Walked(old(runs)[id], plan, attempt, |plan.stages| - 1)]
      ensures Contiguous(runs[id].log)
    {
      ghost var start := runs[id];
      Emit(id, In(FIRST_STAGE), FIRST_STAGE, plan.stages[..1], plan, attempt);
      WalkedNext(start, plan, attempt, 1);
      var pos := 1;
      while pos + 1 < |plan.stages|
        invariant 1 <= pos < |plan.stages|
        invariant runs == old(runs)[id := Walked(start, plan, attempt, pos)] && Contiguous(runs[id].log)
      {
        pos := pos + 1;
        WalkedNext(start, plan, attempt, pos);
        EnterAndEmit(id, plan, attempt, pos, leaseUntil);
      }
    }

    method EnterAndEmit(id: RunId, plan: StagePlan, attempt: nat, pos: nat, leaseUntil: int)
      requires id in runs && Contiguous(runs[id].log) && pos < |plan.stages|
      requires runs[id].row.attempt == attempt && runs[id].row.lease == Some(leaseUntil)
      modifies this
      ensures runs == old(runs)[id := Entered(old(runs)[id], plan, attempt, pos)]
      ensures Contiguous(runs[id].log)
    {
      var owned := EnterStage(id, attempt, plan.stages[pos], leaseUntil);
      Emit(id, In(plan.stages[pos]), plan.stages[pos], plan.stages[..pos], plan, attempt);
    }

    /** The end of `_execute`: renew and store the report, or fail a report that does not
        validate, and one last event. A worker that has lost the run changes nothing. */
    method Conclude(id: RunId, plan: StagePlan, attempt: nat, leaseUntil: int, valid: bool, status: Status,
                    report: seq<DataRow>, trace: seq<DataRow>)
      requires id in runs && Contiguous(runs[id].log) && plan.stages != []
      requires runs[id].row.currentStage == plan.stages[|plan.stages| - 1]
      requires status == Completed || status == Partial
      modifies this
      ensures runs == old(runs)[id := Concluded(old(runs)[id], plan, attempt, valid, status, report, trace)]
      ensures old(runs)[id].row.attempt != attempt || Terminal(old(runs)[id].row.status) ==> runs == old(runs)
    {
      var row := runs[id].row;
      if valid {
        var owned := RenewLease(id, attempt, leaseUntil);
        if !owned { return; }
        runs := runs[id := Finish(runs[id], status, plan, report)];
        Emit(id, status, ValidatingReport, plan.stages, plan, attempt);
      } else if LeaseProtocol.StillMine(row, attempt) {
        runs := runs[id := WriteFailed(runs[id], trace)];
        Emit(id, Failed, row.currentStage, row.completed, plan, attempt);
      }
    }

    /** `run` on one delivery with nothing else interfering: a run that cannot be claimed is
        left alone; a claimed one ends terminal, its attempt's whole walk logged, and a well
        formed run stays one. */
    method Execute(id: RunId, plan: StagePlan, leaseUntil: int, maxAttempts: nat,
                   valid: bool, status: Status, report: seq<DataRow>, trace: seq<DataRow>)
      requires id in runs && Contiguous(runs[id].log)
      requires |plan.stages| >= 2 && plan.stages[1] == FIRST_STAGE
      requires status == Completed || status == Partial
      modifies this
      ensures runs == if CanClaim(old(runs)[id].row, maxAttempts)
                      then old(runs)[id := Executed(old(runs)[id], plan, leaseUntil, valid, status, report, trace)]
                      else old(runs)
    {
      var claimed := Claim(id, leaseUntil, maxAttempts);
      if claimed.None? { return; }
      var attempt := claimed.value.attempt;
      runs := runs[id := RecordSkipped(runs[id], plan.skipped)];
      WalkStages(id, plan, attempt, leaseUntil);
      Conclude(id, plan, attempt, leaseUntil, valid, status, report, trace);
    }
  }

  /** Every run of the table satisfies what the lease protocol keeps of a run. */
  ghost predicate AllRunsOK(c: Settings, runs: map<RunId, Run>) {
    forall id :: id in runs ==> LeaseInvariant.RunOK(c, runs[id])
  }

  /** The scans of a pass: rows as some query saw them, and those it gives up unchanged. */
  ghost predicate ScansCurrent(c: Settings, runs: map<RunId, Run>, stuck: seq<StuckRun>) {
    forall i :: 0 <= i < |stuck| ==>
      && stuck[i].id in runs && stuck[i].seen.completed == [Queued]
      && (stuck[i].seen.attempt >= c.maxAttempts ==> Unchanged(runs[stuck[i].id].row, stuck[i].seen))
  }

  lemma RecoveredOK(c: Settings, run: Run, seen: Row, graceUntil: int)
    requires c.Outlives() && LeaseInvariant.RunOK(c, run) && seen.completed == [Queued]
    requires seen.attempt >= c.maxAttempts ==> Unchanged(run.row, seen)
    ensures LeaseInvariant.RunOK(c, Recovered(run, seen, graceUntil, c.maxAttempts))
  {
    if seen.attempt >= c.maxAttempts {
      LeaseInvariant.GiveUpOK(c, run, seen);
    } else if Unchanged(run.row, seen) {
      LeaseInvariant.RequeueOK(c, run, graceUntil);
    }
  }

  /** A pass of the reconciler keeps every run of the table well formed: rows, log and the
      rows an attempt left. */
  lemma PassKeepsRuns(c: Settings, before: map<RunId, Run>, after: map<RunId, Run>, stuck: seq<StuckRun>,
                      graceUntil: int)
    requires c.Outlives() && AllRunsOK(c, before) && ScansCurrent(c, before, stuck)
    requires PassDone(before, after, stuck, graceUntil, c.maxAttempts)
    ensures AllRunsOK(c, after)
  {
    forall id | id in after ensures LeaseInvariant.RunOK(c, after[id]) {
      if Mentions(stuck, id) {
        var i :| 0 <= i < |stuck| && stuck[i].id == id;
        RecoveredOK(c, before[id], stuck[i].seen, graceUntil);
      }
    }
  }

  /** So does one delivery, under either plan a deployment can pick. */
  lemma ExecuteKeepsRuns(c: Settings, before: map<RunId, Run>, id: RunId, simulationPlanned: bool, leaseUntil: int,
                         valid: bool, status: Status, report: seq<DataRow>, trace: seq<DataRow>)
    requires c.Outlives() && AllRunsOK(c, before) && id in before && CanClaim(before[id].row, c.maxAttempts)
    requires status == Completed || status == Partial
    requires var attempt := RunRows.Claim(before[id], leaseUntil).row.attempt;
             LeaseProtocol.ReportBatch(report, attempt) && LeaseProtocol.TraceBatch(trace, attempt)
    ensures AllRunsOK(c, before[id := Executed(before[id], StagePlanFor(simulationPlanned), leaseUntil, valid, status,
                                               report, trace)])
  {
    LeaseInvariant.WorkerPlansArePlans(simulationPlanned);
    ExecutedOK(c, before[id], StagePlanFor(simulationPlanned), leaseUntil, valid, status, report, trace);
  }

  /** A pass of the reconciler never lets an attempt number past the maximum, and moves the
      number only by requeueing. */
  lemma RecoveredAttempts(run: Run, seen: Row, graceUntil: int, maxAttempts: nat)
    requires run.row.attempt <= maxAttempts
    ensures var after := Recovered(run, seen, graceUntil, maxAttempts);
      && run.row.attempt <= after.row.attempt <= maxAttempts
      && run.log <= after.log
      && (after.row.attempt != run.row.attempt ==>
            after.row.status == InQueue && after.row.attempt == seen.attempt + 1)
  {
  }
}
