/** One delivery end to end, from the claim to the stored report: the councils simulate, the
    engines compute, the composer composes, and the validator decides whether the run
    completes. */
module Pipelines {
  import opened Options
  import opened StagePlans
  import opened RunRows
  import opened RunExecution
  import opened RunTables
  import opened Finance
  import opened Scoring
  import opened Reports
  import opened ReportValidation
  import opened Councils
  import opened CouncilRecords
  import Provenance
  import LeaseInvariant
  import LeaseProtocol
  import Orchestration

  /** What the deterministic stages of a run are given. */
  datatype Inputs = Inputs(
    finance: FinanceInput,
    radius: int,
    evidence: seq<Evidence>,
    missing: seq<Metric>,
    lowConfidence: bool)
  {
    /** Nothing raises before the report is composed. */
    predicate Computable() {
      Usable(finance) && !DividesByZero(InputOf(finance, radius, evidence))
    }

    function Score(): ScoreResult
      requires Computable()
    {
      CalculateScore(InputOf(finance, radius, evidence)).value
    }

    function Report(simulation: Option<Simulation>): Reports.Report
      requires Computable()
    {
      Composed(finance, radius, evidence, missing, lowConfidence, Shown(simulation))
    }
  }

  // ---------------------------------------------------- what a simulation shows

  /** `SimulationOutcome.artifact`: the first artifact of a type. */
  function ArtifactOf(records: seq<Record>, t: ArtifactType): Option<Artifact> {
    if records == [] then None
    else if Provenance.Holds(records[0], t) then records[0].artifact
    else ArtifactOf(records[1..], t)
  }

  function View(s: Simulation): SimulationOutcome {
    var customer, market := ArtifactOf(s.records, CustomerSimulationResult), ArtifactOf(s.records, MarketAssessment);
    var finance, narrative := ArtifactOf(s.records, FinanceReview), ArtifactOf(s.records, ReportNarrative);
    SimulationOutcome(
      s.status == SimulationCompleted,
      if Is(customer, CustomerSimulationResult) then Some(customer.value.result) else None,
      if Is(market, MarketAssessment) then Some(market.value.observations) else None,
      if Is(finance, FinanceReview) then Some(finance.value.critiques) else None,
      if Is(finance, FinanceReview) then finance.value.fragile else [],
      if Is(narrative, ReportNarrative) then Some(narrative.value.sections) else None,
      if Is(narrative, ReportNarrative) then narrative.value.redTeam else [])
  }

  predicate Is(artifact: Option<Artifact>, t: ArtifactType) {
    artifact.Some? && artifact.value.Type() == t
  }

  function Shown(simulation: Option<Simulation>): Option<SimulationOutcome> {
    if simulation.Some? then Some(View(simulation.value)) else None
  }

  lemma {:induction false} ArtifactsWellMade(records: seq<Record>, t: ArtifactType)
    requires forall k :: 0 <= k < |records| && records[k].artifact.Some? ==> WellMade(records[k].artifact.value)
    ensures ArtifactOf(records, t).Some? ==> WellMade(ArtifactOf(records, t).value)
  {
    if records != [] { ArtifactsWellMade(records[1..], t); }
  }

  /** Whatever the councils replied, what a simulation that returned shows the composer meets
      every bound the validator asks of it. */
  lemma SimulationIsValid(s: Simulation)
    requires Sound(s.records)
    ensures ValidOutcome(View(s))
  {
    forall k | 0 <= k < |s.records| && s.records[k].artifact.Some? ensures WellMade(s.records[k].artifact.value) {
      assert SoundRecord(s.records, k);
    }
    ArtifactsWellMade(s.records, CustomerSimulationResult);
    ArtifactsWellMade(s.records, MarketAssessment);
    ArtifactsWellMade(s.records, FinanceReview);
    ArtifactsWellMade(s.records, ReportNarrative);
  }

  // -------------------------------------------------------- composing, validating

  /** The evidence is unambiguous, and every number an agent wrote was in its own material. */
  ghost predicate Acceptable(i: Inputs, simulation: Option<Simulation>) {
    && i.Computable() && FirstIsLast(i.evidence)
    && AllWellSourced(AgentTexts(i.Report(simulation), SourcesOf(i.Report(simulation))))
  }

  lemma AcceptedExactly(i: Inputs, simulation: Option<Simulation>)
    requires i.Computable() && (simulation.Some? ==> Sound(simulation.value.records))
    ensures Violations(i.Report(simulation), SourcesOf(i.Report(simulation))) == [] <==> Acceptable(i, simulation)
  {
    var r, words := i.Report(simulation), SourcesOf(i.Report(simulation));
    ComposedFacts(i.finance, i.radius, i.evidence, i.missing, i.lowConfidence, Shown(simulation));
    if simulation.Some? {
      SimulationIsValid(simulation.value);
      CleanSimulation(View(simulation.value), r);
    } else {
      NoTexts(r, words);
    }
    NoneReported(AgentTexts(r, words));
    NothingFound(FactViolations(r), AgentViolations(AgentTexts(r, words)));
  }

  lemma NothingFound(facts: seq<Violation>, texts: seq<Violation>)
    ensures facts + [] + texts == [] <==> facts == [] && texts == []
  {
    if facts + [] + texts == [] {
      assert |facts + [] + texts| == |facts| + |texts|;
    }
  }

  /** Calculating, scoring, composing and validating, as the run's stages do in turn. */
  method ComposeAndValidate(i: Inputs, simulation: Option<Simulation>) returns (score: ScoreResult, valid: bool)
    requires i.Computable() && (simulation.Some? ==> Sound(simulation.value.records))
    ensures score == i.Score() && (valid <==> Acceptable(i, simulation))
  {
    var outcome := CalculateFinance(i.finance);
    score := CalculateScore(InputOf(i.finance, i.radius, i.evidence)).value;
    var report := Compose(i.finance, i.radius, i.evidence, i.missing, outcome.result, score, i.lowConfidence,
                          Shown(simulation));
    var found := ValidateReport(report);
    valid := found == [];
    AcceptedExactly(i, simulation);
  }

  /** `_final_status`. */
  function FinalStatus(i: Inputs, score: ScoreResult, simulation: Option<Simulation>): Status {
    if i.missing == [] && score.available && simulation.Some? && simulation.value.status == SimulationCompleted
    then Completed else Partial
  }

  // ------------------------------------------------------------------- the rows

  function TraceRows(traced: bool, attempt: nat): seq<DataRow> {
    if traced then [TraceRow(attempt)] else []
  }

  /** The council's row, one for each member, and its artifact. */
  function RecordRows(record: Record): nat { 1 + |record.instances| + if record.artifact.Some? then 1 else 0 }

  function AgentRows(records: seq<Record>): nat {
    if records == [] then 0 else AgentRows(records[..|records| - 1]) + RecordRows(records[|records| - 1])
  }

  /** `_persist`: every evidence record, the trace, the councils, and the report. */
  function ReportRows(i: Inputs, traced: bool, simulation: Option<Simulation>, attempt: nat): seq<DataRow> {
    seq(|i.evidence|, _ => EvidenceRow(attempt)) + TraceRows(traced, attempt)
    + seq(if simulation.Some? then AgentRows(simulation.value.records) else 0, _ => AgentRow(attempt))
    + [ReportRow(attempt)]
  }

  lemma ReportRowsAreOne(i: Inputs, traced: bool, simulation: Option<Simulation>, attempt: nat)
    ensures LeaseProtocol.ReportBatch(ReportRows(i, traced, simulation, attempt), attempt)
    ensures LeaseProtocol.TraceBatch(TraceRows(traced, attempt), attempt)
  {
    var rows := ReportRows(i, traced, simulation, attempt);
    assert rows[|rows| - 1] == ReportRow(attempt);
  }

  // ---------------------------------------------------------------- the delivery

  /** What the simulating stage is given; the trace directory may fail to be allocated. */
  datatype Council = Council(
    request: Request,
    tokenBudget: nat,
    deadline: int,
    toolCalls: seq<int>,
    picks: nat -> nat,
    directory: bool)

  /** A simulation that returned. */
  ghost predicate Simulated(s: Simulation, tokenBudget: nat) {
    && |s.records| == COUNCILS && InRoleOrder(s.records) && Sound(s.records)
    && s == CouncilRecords.OutcomeOf(s.records) && SumTotals(s.records) <= tokenBudget
  }

  /** `_simulate`: without a plan for it, without a directory, or when the adapter raises,
      there is no simulation. */
  method Simulate(planned: bool, council: Council, runtime: Orchestration.Runtime)
    returns (simulation: Option<Simulation>)
    requires council.request.roundLimit >= 1 && runtime.Valid()
    modifies runtime
    ensures simulation.Some? ==> planned && council.directory && Simulated(simulation.value, council.tokenBudget)
  {
    simulation := None;
    if planned && council.directory {
      var r, consumed := Orchestration.RunSimulation(council.request, runtime, council.tokenBudget, council.deadline,
                                                     council.toolCalls, council.picks);
      if r.Ok? { simulation := Some(r.value); }
    }
  }

  /** What one undisturbed delivery makes of a claimable run. */
  function Delivered(run: Run, i: Inputs, planned: bool, directory: bool, simulation: Option<Simulation>,
                     leaseUntil: int, valid: bool): Run
    requires i.Computable()
  {
    var attempt := RunRows.Claim(run, leaseUntil).row.attempt;
    var traced := planned && directory;
    Executed(run, StagePlanFor(planned), leaseUntil, valid, FinalStatus(i, i.Score(), simulation),
             ReportRows(i, traced, simulation, attempt), TraceRows(traced, attempt))
  }

  /** What a delivery leaves: a well formed run, its report exactly when that was valid, and
      the status that says how complete it is. */
  ghost predicate EndsWell(c: Settings, after: Run, i: Inputs, simulation: Option<Simulation>, valid: bool)
    requires i.Computable()
  {
    && LeaseInvariant.RunOK(c, after)
    && after.row.status == (if valid then FinalStatus(i, i.Score(), simulation) else Failed)
    && (LeaseInvariant.ReportPresent(after.data) <==> valid)
    && (after.row.status == Completed <==>
          valid && i.missing == [] && i.Score().available && simulation.Some?
          && forall t :: Produced(simulation.value.records, t))
  }

  lemma DeliveredEndsWell(c: Settings, run: Run, i: Inputs, planned: bool, directory: bool,
                          simulation: Option<Simulation>, tokenBudget: nat, leaseUntil: int, valid: bool)
    requires i.Computable() && c.Outlives() && LeaseInvariant.RunOK(c, run) && CanClaim(run.row, c.maxAttempts)
    requires simulation.Some? ==> Simulated(simulation.value, tokenBudget)
    ensures EndsWell(c, Delivered(run, i, planned, directory, simulation, leaseUntil, valid), i, simulation, valid)
  {
    var attempt := RunRows.Claim(run, leaseUntil).row.attempt;
    var traced := planned && directory;
    ReportRowsAreOne(i, traced, simulation, attempt);
    DeliveredKeepsRun(c, run, planned, leaseUntil, valid, FinalStatus(i, i.Score(), simulation),
                      ReportRows(i, traced, simulation, attempt), TraceRows(traced, attempt));
    if simulation.Some? { OutcomeMeaning(simulation.value.records); }
  }

  lemma DeliveredKeepsRun(c: Settings, run: Run, planned: bool, leaseUntil: int, valid: bool, status: Status,
                          report: seq<DataRow>, trace: seq<DataRow>)
    requires c.Outlives() && LeaseInvariant.RunOK(c, run) && CanClaim(run.row, c.maxAttempts)
    requires status == Completed || status == Partial
    requires var attempt := RunRows.Claim(run, leaseUntil).row.attempt;
             LeaseProtocol.ReportBatch(report, attempt) && LeaseProtocol.TraceBatch(trace, attempt)
    ensures var after := Executed(run, StagePlanFor(planned), leaseUntil, valid, status, report, trace);
      && LeaseInvariant.RunOK(c, after) && after.row.status == (if valid then status else Failed)
      && (LeaseInvariant.ReportPresent(after.data) <==> valid)
  {
    var plan := StagePlanFor(planned);
    LeaseInvariant.WorkerPlansArePlans(planned);
    ExecutedOK(c, run, plan, leaseUntil, valid, status, report, trace);
    ExecutedEndsTerminal(run, plan, leaseUntil, valid, status, report, trace);
  }

  /** The stages after the simulation, on the table. */
  method Deliver(table: RunTable, id: RunId, i: Inputs, planned: bool, directory: bool,
                 simulation: Option<Simulation>, leaseUntil: int, maxAttempts: nat) returns (valid: bool)
    requires id in table.runs && Contiguous(table.runs[id].log) && CanClaim(table.runs[id].row, maxAttempts)
    requires i.Computable() && (simulation.Some? ==> Sound(simulation.value.records))
    modifies table
    ensures valid <==> Acceptable(i, simulation)
    ensures table.runs == old(table.runs)[id :=
              Delivered(old(table.runs)[id], i, planned, directory, simulation, leaseUntil, valid)]
  {
    var score;
    score, valid := ComposeAndValidate(i, simulation);
    LeaseInvariant.WorkerPlansArePlans(planned);
    var attempt := RunRows.Claim(table.runs[id], leaseUntil).row.attempt;
    var traced := planned && directory;
    table.Execute(id, StagePlanFor(planned), leaseUntil, maxAttempts, valid, FinalStatus(i, score, simulation),
                  ReportRows(i, traced, simulation, attempt), TraceRows(traced, attempt));
  }

  /** A claimable run whose inputs can be computed, whatever its councils reply, ends with its
      report stored if and only if the evidence is unambiguous and no agent invented a number;
      it is then completed exactly when nothing was missing, the score available and all four
      councils produced an artifact, and partial otherwise. Else it fails and stores no report.
      It stays well formed, and every other run is untouched. */
  method RunAnalysis(table: RunTable, id: RunId, i: Inputs, planned: bool, council: Council,
                     runtime: Orchestration.Runtime, leaseUntil: int, c: Settings)
    returns (simulation: Option<Simulation>, valid: bool)
    requires c.Outlives() && id in table.runs && LeaseInvariant.RunOK(c, table.runs[id])
    requires CanClaim(table.runs[id].row, c.maxAttempts)
    requires i.Computable() && council.request.roundLimit >= 1 && runtime.Valid()
    modifies table, runtime
    ensures simulation.Some? ==> planned && council.directory && Simulated(simulation.value, council.tokenBudget)
    ensures valid <==> Acceptable(i, simulation)
    ensures table.runs == old(table.runs)[id :=
              Delivered(old(table.runs)[id], i, planned, council.directory, simulation, leaseUntil, valid)]
    ensures EndsWell(c, table.runs[id], i, simulation, valid)
  {
    simulation := Simulate(planned, council, runtime);
    ghost var run := table.runs[id];
    valid := Deliver(table, id, i, planned, council.directory, simulation, leaseUntil, c.maxAttempts);
    DeliveredEndsWell(c, run, i, planned, council.directory, simulation, council.tokenBudget, leaseUntil, valid);
  }
}
