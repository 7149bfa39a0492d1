/** What one attempt that nothing interferes with makes of its run. */
module RunExecution {
  import opened Options
  import opened StagePlans
  import opened RunRows
  import opened LeaseProtocol
  import opened LeaseInvariant

  /** The stage events of one attempt up to a position, numbered after `base`. */
  function Walk(plan: StagePlan, attempt: nat, base: nat, pos: nat): seq<Event>
    requires pos < |plan.stages|
  {
    if pos == 0 then []
    else Walk(plan, attempt, base, pos - 1)
         + [Event(base + pos, In(plan.stages[pos]), plan.stages[pos], plan.stages[..pos], plan,
                  plan.Percent(plan.stages[..pos]), attempt)]
  }

  /** A run that has entered and logged every stage up to a position. */
  function Walked(run: Run, plan: StagePlan, attempt: nat, pos: nat): Run
    requires pos < |plan.stages|
  {
    Run(run.row.(status := In(plan.stages[pos]), currentStage := plan.stages[pos]),
        run.log + Walk(plan, attempt, |run.log|, pos), run.data)
  }

  /** One stage entered and logged. */
  function Entered(run: Run, plan: StagePlan, attempt: nat, pos: nat): Run
    requires pos < |plan.stages|
  {
    var stage := plan.stages[pos];
    Run(run.row.(status := In(stage), currentStage := stage),
        run.log + [Event(|run.log| + 1, In(stage), stage, plan.stages[..pos], plan,
                         plan.Percent(plan.stages[..pos]), attempt)], run.data)
  }

  /** Walking one position further enters one more stage. */
  lemma WalkedNext(run: Run, plan: StagePlan, attempt: nat, pos: nat)
    requires 0 < pos < |plan.stages|
    ensures Walked(run, plan, attempt, pos)
            == Entered(if pos == 1 then run else Walked(run, plan, attempt, pos - 1), plan, attempt, pos)
  {
    WalkLength(plan, attempt, |run.log|, pos - 1);
  }

  lemma {:induction false} WalkLength(plan: StagePlan, attempt: nat, base: nat, pos: nat)
    requires pos < |plan.stages|
    ensures |Walk(plan, attempt, base, pos)| == pos
  {
    if pos > 0 { WalkLength(plan, attempt, base, pos - 1); }
  }

  function EndEvent(plan: StagePlan, claimed: Row, logged: nat, valid: bool, status: Status): Event
    requires plan.stages != []
  {
    if valid then
      Event(logged + 1, status, ValidatingReport, plan.stages, plan, plan.Percent(plan.stages),
            claimed.attempt)
    else
      Event(logged + 1, Failed, plan.stages[|plan.stages| - 1], claimed.completed, plan,
            plan.Percent(claimed.completed), claimed.attempt)
  }

  /** The end of `_execute`: the renewal guards the report, the re-read guards the failure; a
      worker that has lost the run leaves it as it is. */
  function Concluded(run: Run, plan: StagePlan, attempt: nat, valid: bool, status: Status, report: seq<DataRow>,
                     trace: seq<DataRow>): Run
    requires plan.stages != []
  {
    if valid && CanRenew(run.row, attempt) then
      Append(Finish(run, status, plan, report), EndEvent(plan, run.row, |run.log|, valid, status))
    else if !valid && StillMine(run.row, attempt) then
      Append(WriteFailed(run, trace), EndEvent(plan, run.row, |run.log|, valid, status))
    else run
  }

  /** A claimed run with its skipped stages recorded. */
  function Started(run: Run, plan: StagePlan, leaseUntil: int): Run {
    RecordSkipped(Claim(run, leaseUntil), plan.skipped)
  }

  /** One delivery of a claimable run: claimed, walked through the plan, concluded. */
  function Executed(run: Run, plan: StagePlan, leaseUntil: int, valid: bool, status: Status, report: seq<DataRow>,
                    trace: seq<DataRow>): Run
    requires plan.stages != []
  {
    var started := Started(run, plan, leaseUntil);
    var attempt := started.row.attempt;
    Concluded(Walked(started, plan, attempt, |plan.stages| - 1), plan, attempt, valid, status, report, trace)
  }

  /** A run on its way: well formed, working, its attempt's last stage event logged. */
  ghost predicate OnItsWay(c: Settings, run: Run, plan: StagePlan, pos: nat) {
    && RunOK(c, run) && pos < |plan.stages| && run.row.status == In(plan.stages[pos])
    && LastEntered(run.log, run.row.attempt, plan, pos)
  }

  lemma StartedOK(c: Settings, run: Run, plan: StagePlan, leaseUntil: int)
    requires c.Outlives() && RunOK(c, run) && CanClaim(run.row, c.maxAttempts)
    ensures var started := Started(run, plan, leaseUntil);
      && RunOK(c, started) && started.row.status == In(FIRST_STAGE) && NoTerminal(started.log)
      && AttemptsUpTo(started.log, started.row.attempt - 1) && started.data == []
  {
    ClaimOK(c, run, leaseUntil);
  }

  lemma EnteredOK(c: Settings, run: Run, plan: StagePlan, pos: nat)
    requires IsPlan(plan) && RunOK(c, run) && run.row.status.In? && 1 <= pos < |plan.stages|
    requires if pos == 1 then AttemptsUpTo(run.log, run.row.attempt - 1)
             else LastEntered(run.log, run.row.attempt, plan, pos - 1)
    ensures OnItsWay(c, Entered(run, plan, run.row.attempt, pos), plan, pos)
    ensures Entered(run, plan, run.row.attempt, pos).row.attempt == run.row.attempt
  {
    AppendStageEvent(run.log, Worker(0, plan, run.row.attempt, Waiting), pos, |run.log| + 1);
  }

  lemma {:induction false} WalkedOK(c: Settings, run: Run, plan: StagePlan, attempt: nat, pos: nat)
    requires IsPlan(plan) && RunOK(c, run) && run.row.status == In(FIRST_STAGE) && 1 <= pos < |plan.stages|
    requires attempt == run.row.attempt && AttemptsUpTo(run.log, attempt - 1)
    ensures OnItsWay(c, Walked(run, plan, attempt, pos), plan, pos)
    ensures Walked(run, plan, attempt, pos).row.attempt == attempt
  {
    WalkedNext(run, plan, attempt, pos);
    if pos == 1 {
      EnteredOK(c, run, plan, 1);
    } else {
      WalkedOK(c, run, plan, attempt, pos - 1);
      EnteredOK(c, Walked(run, plan, attempt, pos - 1), plan, pos);
    }
  }

  lemma CompletedLog(run: Run, plan: StagePlan, status: Status)
    requires IsPlan(plan) && LogShape(run.log) && NoTerminal(run.log) && run.row.attempt >= 1
    requires LastEntered(run.log, run.row.attempt, plan, |plan.stages| - 1)
    requires status == Completed || status == Partial
    ensures LogShape(run.log + [EndEvent(plan, run.row, |run.log|, true, status)])
  {
    AppendSuccessEvent(run.log, Worker(0, plan, run.row.attempt, Waiting), status, |run.log| + 1);
  }

  lemma CompletedOK(c: Settings, run: Run, plan: StagePlan, status: Status, report: seq<DataRow>)
    requires IsPlan(plan) && OnItsWay(c, run, plan, |plan.stages| - 1)
    requires (status == Completed || status == Partial) && ReportBatch(report, run.row.attempt)
    ensures RunOK(c, Append(Finish(run, status, plan, report), EndEvent(plan, run.row, |run.log|, true, status)))
  {
    CompletedLog(run, plan, status);
    ReportIsData(Finish(run, status, plan, report).row, report);
    assert run.data + report == report;
    assert AttemptsUpTo(run.log, run.row.attempt);
  }

  lemma ReportIsData(row: Row, report: seq<DataRow>)
    requires (row.status == Completed || row.status == Partial) && ReportBatch(report, row.attempt)
    ensures DataOK(row, report)
  {
  }

  lemma FailedLog(run: Run, plan: StagePlan, status: Status)
    requires plan.stages != [] && LogShape(run.log) && NoTerminal(run.log) && run.row.attempt >= 1
    requires AttemptsUpTo(run.log, run.row.attempt) && run.row.completed == [Queued]
    ensures LogShape(run.log + [EndEvent(plan, run.row, |run.log|, false, status)])
  {
    QueuedOnlyIsZero(plan);
    AppendFailureEvent(run.log, EndEvent(plan, run.row, |run.log|, false, status));
  }

  lemma FailedOK(c: Settings, run: Run, plan: StagePlan, status: Status, trace: seq<DataRow>)
    requires IsPlan(plan) && OnItsWay(c, run, plan, |plan.stages| - 1) && TraceBatch(trace, run.row.attempt)
    ensures RunOK(c, Append(WriteFailed(run, trace), EndEvent(plan, run.row, |run.log|, false, status)))
  {
    FailedLog(run, plan, status);
    TraceIsData(run.row.(status := Failed, lease := None), trace);
    assert run.data + trace == trace;
  }

  lemma TraceIsData(row: Row, trace: seq<DataRow>)
    requires row.status == Failed && TraceBatch(trace, row.attempt)
    ensures DataOK(row, trace)
  {
  }

  lemma ConcludedOK(c: Settings, run: Run, plan: StagePlan, valid: bool, status: Status, report: seq<DataRow>,
                    trace: seq<DataRow>)
    requires IsPlan(plan) && OnItsWay(c, run, plan, |plan.stages| - 1)
    requires status == Completed || status == Partial
    requires ReportBatch(report, run.row.attempt) && TraceBatch(trace, run.row.attempt)
    ensures RunOK(c, Concluded(run, plan, run.row.attempt, valid, status, report, trace))
  {
    if valid { CompletedOK(c, run, plan, status, report); } else { FailedOK(c, run, plan, status, trace); }
  }

  lemma ExecutedOK(c: Settings, run: Run, plan: StagePlan, leaseUntil: int, valid: bool, status: Status,
                   report: seq<DataRow>, trace: seq<DataRow>)
    requires c.Outlives() && IsPlan(plan) && RunOK(c, run) && CanClaim(run.row, c.maxAttempts)
    requires status == Completed || status == Partial
    requires var attempt := Claim(run, leaseUntil).row.attempt;
             ReportBatch(report, attempt) && TraceBatch(trace, attempt)
    ensures RunOK(c, Executed(run, plan, leaseUntil, valid, status, report, trace))
  {
    StartedOK(c, run, plan, leaseUntil);
    WalkAndConclude(c, Started(run, plan, leaseUntil), plan, valid, status, report, trace);
  }

  lemma WalkAndConclude(c: Settings, run: Run, plan: StagePlan, valid: bool, status: Status, report: seq<DataRow>,
                        trace: seq<DataRow>)
    requires IsPlan(plan) && RunOK(c, run) && run.row.status == In(FIRST_STAGE)
    requires AttemptsUpTo(run.log, run.row.attempt - 1)
    requires status == Completed || status == Partial
    requires ReportBatch(report, run.row.attempt) && TraceBatch(trace, run.row.attempt)
    ensures var last := |plan.stages| - 1;
      RunOK(c, Concluded(Walked(run, plan, run.row.attempt, last), plan, run.row.attempt, valid, status, report, trace))
  {
    WalkedOK(c, run, plan, run.row.attempt, |plan.stages| - 1);
    ConcludedOK(c, Walked(run, plan, run.row.attempt, |plan.stages| - 1), plan, valid, status, report, trace);
  }

  /** An undisturbed attempt ends terminal, with its whole walk and one last event logged. */
  lemma ExecutedEndsTerminal(run: Run, plan: StagePlan, leaseUntil: int, valid: bool, status: Status,
                             report: seq<DataRow>, trace: seq<DataRow>)
    requires |plan.stages| >= 1 && (status == Completed || status == Partial)
    ensures var after, claimed := Executed(run, plan, leaseUntil, valid, status, report, trace), Claim(run, leaseUntil);
      var walked := claimed.log + Walk(plan, claimed.row.attempt, |claimed.log|, |plan.stages| - 1);
      && after.row.status == (if valid then status else Failed) && after.row.lease == None
      && after.row.attempt == claimed.row.attempt && after.data == claimed.data + (if valid then report else trace)
      && after.log == walked + [EndEvent(plan, claimed.row, |walked|, valid, status)]
  {
  }
}
