/** The analysis state machine: stage order, stage plans and weighted progress. */
module StagePlans {
  import opened Options
  import opened Arithmetic

  datatype Stage =
    | Queued
    | CollectingEvidence
    | BuildingContext
    | Simulating
    | CalculatingFinance
    | Scoring
    | ComposingReport
    | ValidatingReport

  const ANALYSIS_STAGES: seq<Stage> :=
    [Queued, CollectingEvidence, BuildingContext, Simulating,
     CalculatingFinance, Scoring, ComposingReport, ValidatingReport]

  /** Relative cost of each stage. */
  function Weight(stage: Stage): nat {
    match stage
    case Queued => 0
    case CollectingEvidence => 15
    case BuildingContext => 10
    case Simulating => 25
    case CalculatingFinance => 15
    case Scoring => 15
    case ComposingReport => 10
    case ValidatingReport => 10
  }

  function SumWeights(stages: seq<Stage>): nat {
    if stages == [] then 0 else Weight(stages[0]) + SumWeights(stages[1..])
  }

  function Keep(stages: seq<Stage>, skip: seq<Stage>): (r: seq<Stage>)
    ensures forall stage :: stage in r <==> stage in stages && stage !in skip
  {
    if stages == [] then []
    else if stages[0] in skip then Keep(stages[1..], skip)
    else [stages[0]] + Keep(stages[1..], skip)
  }

  function OnlyIn(stages: seq<Stage>, wanted: seq<Stage>): seq<Stage> {
    if stages == [] then []
    else if stages[0] in wanted then [stages[0]] + OnlyIn(stages[1..], wanted)
    else OnlyIn(stages[1..], wanted)
  }

  /** Position of the first occurrence, or the length when absent. */
  function IndexOf(stages: seq<Stage>, stage: Stage): (i: nat)
    ensures i <= |stages|
    ensures i < |stages| ==> stages[i] == stage
    ensures i == |stages| <==> stage !in stages
  {
    if stages == [] then 0
    else if stages[0] == stage then 0
    else 1 + IndexOf(stages[1..], stage)
  }

  /** The ordered stages one run intends to execute. */
  datatype StagePlan = StagePlan(stages: seq<Stage>, skipped: seq<Stage>) {

    function TotalWeight(): nat { SumWeights(stages) }

    /** `None` stands for both a last stage and an unknown one: neither may be left. */
    function NextStage(current: Stage): Option<Stage> {
      var index := IndexOf(stages, current);
      if index + 1 < |stages| then Some(stages[index + 1]) else None
    }

    predicate AllowsTransition(current: Stage, target: Stage) {
      NextStage(current) == Some(target)
    }

    function Percent(completed: seq<Stage>): nat {
      var total := TotalWeight();
      if total == 0 then 0
      else
        var rounded := (SumWeights(OnlyIn(completed, stages)) * 100 + total / 2) / total;
        if rounded > 100 then 100 else rounded
    }
  }

  function BuildStagePlan(skip: seq<Stage>): StagePlan {
    StagePlan(Keep(ANALYSIS_STAGES, skip), skip)
  }

  const FULL_STAGE_PLAN := StagePlan(ANALYSIS_STAGES, [])

  const DETERMINISTIC_STAGE_PLAN :=
    StagePlan([Queued, CollectingEvidence, BuildingContext,
               CalculatingFinance, Scoring, ComposingReport, ValidatingReport],
              [Simulating])

  function StagePlanFor(simulationPlanned: bool): StagePlan {
    if simulationPlanned then FULL_STAGE_PLAN else DETERMINISTIC_STAGE_PLAN
  }

  function PlanFromStored(skipped: seq<Stage>): StagePlan {
    BuildStagePlan(OnlyIn(ANALYSIS_STAGES, skipped))
  }

  // ------------------------------------------------------------------ lemmas

  lemma KeepAppend(a: seq<Stage>, b: seq<Stage>, skip: seq<Stage>)
    ensures Keep(a + b, skip) == Keep(a, skip) + Keep(b, skip)
  {
    if a == [] {
      assert a + b == b;
    } else {
      assert (a + b)[0] == a[0] && (a + b)[1..] == a[1..] + b;
      KeepAppend(a[1..], b, skip);
    }
  }

  lemma SumWeightsAppend(a: seq<Stage>, b: seq<Stage>)
    ensures SumWeights(a + b) == SumWeights(a) + SumWeights(b)
  {
    if a == [] {
      assert a + b == b;
    } else {
      assert (a + b)[0] == a[0] && (a + b)[1..] == a[1..] + b;
      SumWeightsAppend(a[1..], b);
    }
  }

  lemma OnlyInAppend(a: seq<Stage>, b: seq<Stage>, wanted: seq<Stage>)
    ensures OnlyIn(a + b, wanted) == OnlyIn(a, wanted) + OnlyIn(b, wanted)
  {
    if a == [] {
      assert a + b == b;
    } else {
      assert (a + b)[0] == a[0] && (a + b)[1..] == a[1..] + b;
      OnlyInAppend(a[1..], b, wanted);
    }
  }

  lemma OnlyInAll(stages: seq<Stage>, wanted: seq<Stage>)
    requires forall stage :: stage in stages ==> stage in wanted
    ensures OnlyIn(stages, wanted) == stages
  {
    if stages != [] {
      OnlyInAll(stages[1..], wanted);
    }
  }

  /** Completing more stages, in any order and with any plan, never lowers the percentage. */
  lemma {:induction false} PercentNeverFalls(plan: StagePlan, completed: seq<Stage>, more: seq<Stage>)
    ensures plan.Percent(completed) <= plan.Percent(completed + more) <= 100
  {
    OnlyInAppend(completed, more, plan.stages);
    SumWeightsAppend(OnlyIn(completed, plan.stages), OnlyIn(more, plan.stages));
    var total := plan.TotalWeight();
    if total > 0 {
      DivMonotone(SumWeights(OnlyIn(completed, plan.stages)) * 100 + total / 2,
                  SumWeights(OnlyIn(completed + more, plan.stages)) * 100 + total / 2, total);
    }
  }

  /** Finishing every stage of a plan that has any weight reads exactly 100. */
  lemma {:induction false} FinishedPlanIsHundred(plan: StagePlan)
    requires plan.TotalWeight() > 0
    ensures plan.Percent(plan.stages) == 100
  {
    OnlyInAll(plan.stages, plan.stages);
    var total := plan.TotalWeight();
    DivExact(total, 100, total / 2);
  }

  /** A run that has stored only `queued` reports 0 under every stored plan. */
  lemma QueuedOnlyIsZero(plan: StagePlan)
    ensures plan.Percent([Queued]) == 0
  {
    assert OnlyIn([Queued], plan.stages) == (if Queued in plan.stages then [Queued] else []) by {
      assert OnlyIn([], plan.stages) == [];
      assert [Queued][1..] == [];
    }
    assert SumWeights([Queued]) == 0 by { assert [Queued][1..] == []; }
    var total := plan.TotalWeight();
    if total > 0 { DivExact(total, 0, total / 2); }
  }

  lemma KeepAll(stages: seq<Stage>, skip: seq<Stage>)
    requires forall stage :: stage in stages ==> stage !in skip
    ensures Keep(stages, skip) == stages
  {
    if stages != [] {
      assert stages[0] in stages;
      KeepAll(stages[1..], skip);
    }
  }

  lemma KeepAllBut(before: seq<Stage>, stage: Stage, after: seq<Stage>, skip: seq<Stage>)
    requires stage in skip
    requires forall other :: other in before || other in after ==> other !in skip
    ensures Keep(before + ([stage] + after), skip) == before + after
  {
    KeepAppend(before, [stage] + after, skip);
    KeepAll(before, skip);
    KeepAll(after, skip);
    assert ([stage] + after)[1..] == after;
  }

  lemma OnlyInAllBut(before: seq<Stage>, stage: Stage, after: seq<Stage>, wanted: seq<Stage>)
    requires stage in wanted
    requires forall other :: other in before || other in after ==> other !in wanted
    ensures OnlyIn(before + ([stage] + after), wanted) == [stage]
  {
    OnlyInAppend(before, [stage] + after, wanted);
    OnlyInNone(before, wanted);
    OnlyInNone(after, wanted);
    assert ([stage] + after)[1..] == after;
  }

  /** The two plans the worker can pick are the ones rebuilt from what it stores. */
  lemma {:induction false} StoredPlanIsThePlan(simulationPlanned: bool)
    ensures PlanFromStored(StagePlanFor(simulationPlanned).skipped) == StagePlanFor(simulationPlanned)
  {
    var plan := StagePlanFor(simulationPlanned);
    if simulationPlanned {
      StoredFullPlan(ANALYSIS_STAGES, plan.skipped);
    } else {
      StoredDeterministic(ANALYSIS_STAGES, plan.skipped, plan.stages);
    }
  }

  lemma SplitAt(stages: seq<Stage>, k: nat)
    requires k < |stages|
    ensures stages == stages[..k] + ([stages[k]] + stages[k + 1..])
  {
  }

  lemma AroundSimulating(all: seq<Stage>)
    requires all == ANALYSIS_STAGES
    ensures |all| == 8 && all[3] == Simulating && Simulating !in all[..3] && Simulating !in all[4..]
  {
  }

  lemma DeterministicStages(all: seq<Stage>, kept: seq<Stage>)
    requires all == ANALYSIS_STAGES && kept == DETERMINISTIC_STAGE_PLAN.stages
    ensures kept == all[..3] + all[4..]
  {
  }

  lemma StoredDeterministic(all: seq<Stage>, skip: seq<Stage>, kept: seq<Stage>)
    requires all == ANALYSIS_STAGES && skip == [Simulating] && kept == DETERMINISTIC_STAGE_PLAN.stages
    ensures OnlyIn(all, skip) == skip && Keep(all, skip) == kept
  {
    AroundSimulating(all);
    SplitAt(all, 3);
    DeterministicStages(all, kept);
    StoredDeterministicPlan(all[..3], Simulating, all[4..], skip);
  }

  lemma StoredFullPlan(all: seq<Stage>, skip: seq<Stage>)
    requires skip == []
    ensures Keep(all, OnlyIn(all, skip)) == all
  {
    OnlyInNone(all, skip);
    KeepAll(all, skip);
  }

  lemma StoredDeterministicPlan(before: seq<Stage>, stage: Stage, after: seq<Stage>, skip: seq<Stage>)
    requires skip == [stage] && stage !in before && stage !in after
    ensures OnlyIn(before + ([stage] + after), skip) == skip
    ensures Keep(before + ([stage] + after), skip) == before + after
  {
    OnlyInAllBut(before, stage, after, skip);
    KeepAllBut(before, stage, after, skip);
  }

  lemma OnlyInNone(stages: seq<Stage>, wanted: seq<Stage>)
    requires forall stage :: stage in stages ==> stage !in wanted
    ensures OnlyIn(stages, wanted) == []
  {
    if stages != [] {
      assert stages[0] in stages;
      OnlyInNone(stages[1..], wanted);
    }
  }

  predicate NoRepeat(stages: seq<Stage>) {
    forall i, j :: 0 <= i < j < |stages| ==> stages[i] != stages[j]
  }

  ghost predicate Successive(stages: seq<Stage>, current: Stage, target: Stage) {
    exists i: nat :: StepAt(stages, i, current, target)
  }

  predicate StepAt(stages: seq<Stage>, i: nat, current: Stage, target: Stage) {
    i + 1 < |stages| && stages[i] == current && stages[i + 1] == target
  }

  lemma {:induction false} IndexOfAt(stages: seq<Stage>, i: nat)
    requires NoRepeat(stages) && i < |stages|
    ensures IndexOf(stages, stages[i]) == i
  {
    if i > 0 {
      assert stages[0] != stages[i] && stages[1..][i - 1] == stages[i];
      IndexOfAt(stages[1..], i - 1);
    }
  }

  lemma PlansDoNotRepeat(stages: seq<Stage>, simulationPlanned: bool)
    requires stages == StagePlanFor(simulationPlanned).stages
    ensures NoRepeat(stages)
  {
  }

  lemma SuccessiveAllowed(plan: StagePlan, current: Stage, target: Stage)
    requires NoRepeat(plan.stages)
    ensures plan.AllowsTransition(current, target) <==> Successive(plan.stages, current, target)
  {
    if plan.AllowsTransition(current, target) {
      assert StepAt(plan.stages, IndexOf(plan.stages, current), current, target);
    }
    if i: nat :| StepAt(plan.stages, i, current, target) {
      IndexOfAt(plan.stages, i);
    }
  }

  /** `require_transition` lets a run go from each planned stage to the next one and nowhere
      else, so the pipeline, which enters the plan's stages in order, is never stopped. */
  lemma TransitionsExactly(simulationPlanned: bool, current: Stage, target: Stage)
    ensures var plan := StagePlanFor(simulationPlanned);
            plan.AllowsTransition(current, target) <==> Successive(plan.stages, current, target)
  {
    var plan := StagePlanFor(simulationPlanned);
    PlansDoNotRepeat(plan.stages, simulationPlanned);
    SuccessiveAllowed(plan, current, target);
  }
}
