/** The deterministic report composer. Prose is left out; an agent's text is the numbers the
    validator reads in it. */
module Reports {
  import opened Options
  import opened Finance
  import opened Scoring
  import Councils
  import Reducers

  type Text = Reducers.Text

  /** The artifacts of a simulation, as the composer finds them. */
  datatype SimulationOutcome = SimulationOutcome(
    completed: bool,
    customer: Option<Reducers.SimulationResult>,
    market: Option<seq<Councils.Observation>>,
    finance: Option<seq<Councils.Critique>>,
    fragile: seq<Text>,
    narrative: Option<seq<Councils.Section>>,
    redTeam: seq<Text>)

  /** Counts of the simulation section, as the `metrics` dictionary holds them. */
  datatype SimulationMetrics = SimulationMetrics(activated: int, purchases: int, positives: int, shifted: int)

  datatype SimulationSection = SimulationSection(
    available: bool,
    hasReason: bool,
    cohortSize: Option<int>,
    rounds: Option<int>,
    metrics: Option<SimulationMetrics>,
    segments: seq<Reducers.SegmentTally>,
    objections: seq<Reducers.ObjectionTally>,
    band: Option<Reducers.PriceBand>,
    quotes: seq<Reducers.Quote>)

  datatype AgentReview = AgentReview(
    hasManifest: bool,
    observations: seq<Councils.Observation>,
    critiques: seq<Councils.Critique>,
    fragile: seq<Text>,
    sections: seq<Councils.Section>,
    redTeam: seq<Text>)

  datatype Market = Market(
    competitorCount: Option<int>,
    populationCount: Option<int>,
    priceMedian: Option<int>,
    priceSampleSize: Option<int>)
  {
    function Reported(metric: Metric): Option<int> {
      match metric
      case CompetitorCount => competitorCount
      case PopulationCount => populationCount
      case PriceMedian => priceMedian
      case PriceSampleSize => priceSampleSize
      case OtherMetric(_) => None
    }
  }

  datatype RiskId = MarginBelowZero | MarginIsZero | BepOverCapacity | BaseNotProfitable | ShortRunway
                  | ScoreUnavailable | LowConfidence | AgentRisk(critique: int)

  datatype RecommendationId = FixMargin | FixBase | FixCapacity | BuildRunway | AlignVolume
                            | CollectEvidence(metric: Metric) | CompleteDimension(key: DimensionKey)

  /** The artifact a statement names; `NoSource` is the empty string. */
  datatype Source = NoSource | MarginSource | BepSource | BaseSource | RunwaySource | ScoreSource
                  | ConfidenceSource | CritiqueSource(id: int) | MissingSource(metric: Metric)
                  | DimensionSource(key: DimensionKey)

  datatype Risk = Risk(id: RiskId, source: Source)
  datatype Recommendation = Recommendation(id: RecommendationId, source: Source)

  datatype Report = Report(
    input: FinanceInput,
    radius: int,
    finance: FinanceResult,
    readiness: ScoreResult,
    market: Market,
    simulation: SimulationSection,
    review: AgentReview,
    risks: seq<Risk>,
    recommendations: seq<Recommendation>,
    evidence: seq<Evidence>)

  // --------------------------------------------------------------------- sections

  function ValueOf(items: seq<Evidence>, metric: Metric): Option<int> {
    var record := Find(items, metric);
    if record.Some? then Some(record.value.value) else None
  }

  /** `_market_section`. */
  function MarketOf(items: seq<Evidence>): Market {
    Market(ValueOf(items, CompetitorCount), ValueOf(items, PopulationCount), ValueOf(items, PriceMedian),
           ValueOf(items, PriceSampleSize))
  }

  /** An entry that is appended only under a condition. */
  function When<T>(raised: bool, item: T): seq<T> {
    if raised then [item] else []
  }

  function AgentRisks(critiques: seq<Councils.Critique>): seq<Risk> {
    if critiques == [] then []
    else [Risk(AgentRisk(critiques[0].id), CritiqueSource(critiques[0].id))] + AgentRisks(critiques[1..])
  }

  predicate OverCapacity(v: FinanceInput, finance: FinanceResult) {
    finance.bepDay.Some? && finance.bepDay.value > v.capacity
  }

  predicate BaseLoses(finance: FinanceResult) {
    var base := finance.ScenarioNamed(Base);
    base.Some? && base.value.profit <= 0
  }

  predicate RunwayIsShort(finance: FinanceResult) {
    finance.runway.Some? && finance.runway.value < 3
  }

  /** `_risks`, up to the score. */
  function FinanceRisks(v: FinanceInput, finance: FinanceResult): seq<Risk> {
    When(finance.margin < 0, Risk(MarginBelowZero, MarginSource))
    + When(finance.margin == 0, Risk(MarginIsZero, MarginSource))
    + When(OverCapacity(v, finance), Risk(BepOverCapacity, BepSource))
    + When(BaseLoses(finance), Risk(BaseNotProfitable, BaseSource))
    + When(RunwayIsShort(finance), Risk(ShortRunway, RunwaySource))
  }

  /** `_risks`. */
  function RisksOf(v: FinanceInput, finance: FinanceResult, score: ScoreResult, lowConfidence: bool): seq<Risk> {
    FinanceRisks(v, finance) + When(!score.available, Risk(ScoreUnavailable, ScoreSource))
    + When(lowConfidence, Risk(LowConfidence, ConfidenceSource))
  }

  function MissingEvidence(missing: seq<Metric>): seq<Recommendation> {
    if missing == [] then []
    else [Recommendation(CollectEvidence(missing[0]), MissingSource(missing[0]))] + MissingEvidence(missing[1..])
  }

  predicate AllIn(inputs: seq<Metric>, missing: seq<Metric>) {
    forall i :: 0 <= i < |inputs| ==> inputs[i] in missing
  }

  /** A dimension whose inputs were all reported missing is already covered. */
  function IncompleteDimensions(dimensions: seq<Dimension>, missing: seq<Metric>): seq<Recommendation> {
    if dimensions == [] then []
    else
      var d := dimensions[0];
      When(!d.scored && !(d.missing != [] && AllIn(d.missing, missing)),
           Recommendation(CompleteDimension(d.key), DimensionSource(d.key)))
      + IncompleteDimensions(dimensions[1..], missing)
  }

  /** The recommendations drawn from the finance result. */
  function OwnRecommendations(v: FinanceInput, finance: FinanceResult): seq<Recommendation> {
    When(finance.margin <= 0, Recommendation(FixMargin, MarginSource))
    + When(BaseLoses(finance), Recommendation(FixBase, BaseSource))
    + When(OverCapacity(v, finance), Recommendation(FixCapacity, BepSource))
    + When(RunwayIsShort(finance), Recommendation(BuildRunway, RunwaySource))
    + When(finance.ScenarioNamed(Base).Some? && finance.ScenarioNamed(Base).value.exceedsCapacity,
           Recommendation(AlignVolume, BaseSource))
  }

  /** `_recommendations`. */
  function RecommendationsOf(v: FinanceInput, finance: FinanceResult, score: ScoreResult, missing: seq<Metric>)
    : seq<Recommendation>
  {
    OwnRecommendations(v, finance) + MissingEvidence(missing) + IncompleteDimensions(score.dimensions, missing)
  }

  /** `_simulation_section`: an unavailable simulation keeps its slot and says why. */
  function SimulationOf(simulation: Option<SimulationOutcome>): SimulationSection {
    if simulation.None? || simulation.value.customer.None? then
      SimulationSection(false, true, None, None, None, [], [], None, [])
    else
      var r := simulation.value.customer.value;
      SimulationSection(true, false, Some(r.cohortSize), Some(r.rounds),
                        Some(SimulationMetrics(r.activated, r.purchases, r.positives, r.shifted)),
                        r.segments, r.objections, r.band,
                        r.quotes)
  }

  function OrEmpty<T>(items: Option<seq<T>>): seq<T> {
    if items.Some? then items.value else []
  }

  /** `_agent_review`. */
  function ReviewOf(simulation: Option<SimulationOutcome>): AgentReview {
    if simulation.None? then AgentReview(false, [], [], [], [], [])
    else
      var s := simulation.value;
      AgentReview(true, OrEmpty(s.market), OrEmpty(s.finance),
                  if s.finance.Some? then s.fragile else [], OrEmpty(s.narrative),
                  if s.narrative.Some? then s.redTeam else [])
  }

  /** `compose_report`. */
  function Compose(v: FinanceInput, radius: int, evidence: seq<Evidence>, missing: seq<Metric>,
                   finance: FinanceResult, score: ScoreResult, lowConfidence: bool,
                   simulation: Option<SimulationOutcome>): Report
  {
    Report(v, radius, finance, score, MarketOf(evidence), SimulationOf(simulation), ReviewOf(simulation),
           RisksOf(v, finance, score, lowConfidence)
           + AgentRisks(if simulation.Some? then OrEmpty(simulation.value.finance) else []),
           RecommendationsOf(v, finance, score, missing), evidence)
  }

  predicate Raises(risks: seq<Risk>, id: RiskId) {
    exists i :: 0 <= i < |risks| && risks[i].id == id
  }

  lemma RaisesAppend(a: seq<Risk>, b: seq<Risk>, id: RiskId)
    ensures Raises(a + b, id) <==> Raises(a, id) || Raises(b, id)
  {
    if Raises(a, id) {
      var i :| 0 <= i < |a| && a[i].id == id;
      assert (a + b)[i].id == id;
    }
    if Raises(b, id) {
      var i :| 0 <= i < |b| && b[i].id == id;
      assert (a + b)[|a| + i].id == id;
    }
  }

  lemma RaisesWhen(raised: bool, risk: Risk, id: RiskId)
    ensures Raises(When(raised, risk), id) <==> raised && risk.id == id
  {
    if raised { assert When(raised, risk)[0] == risk; }
  }

  lemma FinanceRisksRaised(v: FinanceInput, finance: FinanceResult, id: RiskId)
    ensures Raises(FinanceRisks(v, finance), id)
            <==> || (id == MarginBelowZero && finance.margin < 0) || (id == MarginIsZero && finance.margin == 0)
                 || (id == BepOverCapacity && OverCapacity(v, finance))
                 || (id == BaseNotProfitable && BaseLoses(finance))
                 || (id == ShortRunway && RunwayIsShort(finance))
  {
    var a, b := When(finance.margin < 0, Risk(MarginBelowZero, MarginSource)),
                When(finance.margin == 0, Risk(MarginIsZero, MarginSource));
    var c, d := When(OverCapacity(v, finance), Risk(BepOverCapacity, BepSource)),
                When(BaseLoses(finance), Risk(BaseNotProfitable, BaseSource));
    var e := When(RunwayIsShort(finance), Risk(ShortRunway, RunwaySource));
    RaisesWhen(finance.margin < 0, Risk(MarginBelowZero, MarginSource), id);
    RaisesWhen(finance.margin == 0, Risk(MarginIsZero, MarginSource), id);
    RaisesWhen(OverCapacity(v, finance), Risk(BepOverCapacity, BepSource), id);
    RaisesWhen(BaseLoses(finance), Risk(BaseNotProfitable, BaseSource), id);
    RaisesWhen(RunwayIsShort(finance), Risk(ShortRunway, RunwaySource), id);
    RaisesAppend(a, b, id);
    RaisesAppend(a + b, c, id);
    RaisesAppend(a + b + c, d, id);
    RaisesAppend(a + b + c + d, e, id);
  }

  /** Of a calculated result, the finance risks are raised exactly when the owner would lose
      money at full capacity, not earn at the planned volume, or hold less than three months
      of fixed cost. */
  lemma RisksAreReal(v: FinanceInput)
    requires Usable(v)
    ensures var risks := FinanceRisks(v, Calculation(v));
      && (Raises(risks, BepOverCapacity) <==> Margin(v) > 0 && Profit(v, v.capacity) < 0)
      && (Raises(risks, BaseNotProfitable) <==> Profit(v, v.volumeBase) <= 0)
      && (Raises(risks, ShortRunway) <==> v.fixedCost > 0 && v.investment < 3 * v.fixedCost)
  {
    var finance := Calculation(v);
    if Margin(v) > 0 { BreakEvenExact(v, v.capacity); }
    if v.fixedCost > 0 { RunwayIsGreatest(v, 3); }
    ScenariosAre(v);
    FinanceRisksRaised(v, finance, BepOverCapacity);
    FinanceRisksRaised(v, finance, BaseNotProfitable);
    FinanceRisksRaised(v, finance, ShortRunway);
  }
}
