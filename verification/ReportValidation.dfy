/** The validator that re-checks a report against the inputs it claims to come from, and its
    agreement with the composer. */
module ReportValidation {
  import opened Options
  import opened Finance
  import opened Scoring
  import opened Reports
  import Councils
  import Reducers
  import Sorting

  datatype Label =
    | NarrativeBody(id: int)
    | NarrativeTitle(id: int)
    | RedTeamFinding(index: nat)
    | ObservationClaim(id: int)
    | CritiqueWords(id: int)
    | FragileAssumption(index: nat)
    | PersonaQuote(agent: int)

  datatype Violation =
    | MarginMismatch
    | ScenarioSetIncomplete
    | UnitsMismatch(name: ScenarioName)
    | RevenueMismatch(name: ScenarioName)
    | ProfitMismatch(name: ScenarioName)
    | PaybackWithoutProfit(name: ScenarioName)
    | BepWithoutMargin
    | ScoreWhileUnavailable
    | ScoreMissing
    | ScoreWithMissingDimensions
    | DefaultScore(key: DimensionKey)
    | RecommendationWithoutSource(recommendation: RecommendationId)
    | RiskWithoutSource(risk: RiskId)
    | MarketValueWithoutEvidence(metric: Metric)
    | UnavailableWithData
    | UnavailableWithoutReason
    | WithoutCohortSize
    | ActivatedAboveCohort
    | CountsAboveActivated
    | WithoutManifest
    | ObservationWithoutEvidence(observation: int)
    | CritiqueWithoutToolCall(critique: int)
    | SectionWithoutSource(section: int)
    | UnsourcedNumber(text: Label, number: int)

  // -------------------------------------------------------------------- arithmetic

  function ScenarioChecks(r: Report, s: Scenario): seq<Violation> {
    When(s.units != s.volume * r.input.days, UnitsMismatch(s.name))
    + When(s.revenue != s.units * r.input.price, RevenueMismatch(s.name))
    + When(s.profit != s.units * r.finance.margin - r.input.fixedCost, ProfitMismatch(s.name))
    + When(s.profit <= 0 && s.payback.Some?, PaybackWithoutProfit(s.name))
  }

  function ScenarioViolations(r: Report, scenarios: seq<Scenario>): seq<Violation> {
    if scenarios == [] then []
    else
      var n := |scenarios| - 1;
      ScenarioViolations(r, scenarios[..n]) + ScenarioChecks(r, scenarios[n])
  }

  predicate Named(scenarios: seq<Scenario>, name: ScenarioName) {
    exists i :: 0 <= i < |scenarios| && scenarios[i].name == name
  }

  predicate AllNamed(scenarios: seq<Scenario>) {
    Named(scenarios, Conservative) && Named(scenarios, Base) && Named(scenarios, Optimistic)
  }

  function FinanceViolations(r: Report): seq<Violation> {
    When(r.finance.margin != r.input.price - r.input.variableCost, MarginMismatch)
    + When(!AllNamed(r.finance.scenarios), ScenarioSetIncomplete)
    + ScenarioViolations(r, r.finance.scenarios)
    + When(r.finance.margin <= 0 && (r.finance.bepMonth.Some? || r.finance.bepRevenue.Some?), BepWithoutMargin)
  }

  /** The violations of each entry, in order. */
  function Each<T>(items: seq<T>, check: T -> seq<Violation>): seq<Violation> {
    if items == [] then []
    else Each(items[..|items| - 1], check) + check(items[|items| - 1])
  }

  function DimensionCheck(d: Dimension): seq<Violation> {
    When(!d.scored && d.score.Some?, DefaultScore(d.key))
  }

  function ReadinessViolations(readiness: ScoreResult): seq<Violation> {
    When(!readiness.available && readiness.score.Some?, ScoreWhileUnavailable)
    + When(readiness.available && readiness.score.None?, ScoreMissing)
    + When(readiness.available && readiness.missingDimensions != [], ScoreWithMissingDimensions)
    + Each(readiness.dimensions, DimensionCheck)
  }

  // -------------------------------------------------------------------- provenance

  function RecommendationCheck(r: Recommendation): seq<Violation> {
    When(r.source == NoSource, RecommendationWithoutSource(r.id))
  }

  function RiskCheck(r: Risk): seq<Violation> {
    When(r.source == NoSource, RiskWithoutSource(r.id))
  }

  /** The dictionary of evidence values keeps the last record of each metric. */
  function LastValue(items: seq<Evidence>, metric: Metric): Option<int> {
    if items == [] then None
    else
      var n := |items| - 1;
      if items[n].metric == metric then Some(items[n].value) else LastValue(items[..n], metric)
  }

  function MarketCheck(r: Report, metric: Metric): seq<Violation> {
    When(r.market.Reported(metric).Some? && LastValue(r.evidence, metric) != r.market.Reported(metric),
         MarketValueWithoutEvidence(metric))
  }

  function MarketViolations(r: Report): seq<Violation> {
    MarketCheck(r, CompetitorCount) + MarketCheck(r, PopulationCount) + MarketCheck(r, PriceMedian)
    + MarketCheck(r, PriceSampleSize)
  }

  // -------------------------------------------------------------------- simulation

  function ObservationCheck(o: Councils.Observation): seq<Violation> {
    When(o.stance != Councils.Uncertainty && o.metrics == [], ObservationWithoutEvidence(o.id))
  }

  function CritiqueCheck(c: Councils.Critique): seq<Violation> {
    When(c.toolCallIds == [], CritiqueWithoutToolCall(c.id))
  }

  function SectionCheck(s: Councils.Section): seq<Violation> {
    When(s.sources == [], SectionWithoutSource(s.id))
  }

  /** `metrics.get(name, 0)`. */
  function Counted(metrics: Option<SimulationMetrics>): SimulationMetrics {
    if metrics.Some? then metrics.value else SimulationMetrics(0, 0, 0, 0)
  }

  function SimulationViolations(r: Report): seq<Violation> {
    var s := r.simulation;
    if !s.available then
      When(s.quotes != [] || s.metrics.Some?, UnavailableWithData) + When(!s.hasReason, UnavailableWithoutReason)
    else if s.cohortSize.None? then [WithoutCohortSize]
    else
      var m := Counted(s.metrics);
      When(m.activated > s.cohortSize.value, ActivatedAboveCohort)
      + When(m.purchases > m.activated || m.positives > m.activated, CountsAboveActivated)
      + When(!r.review.hasManifest, WithoutManifest)
      + (Each(r.review.observations, ObservationCheck) + Each(r.review.critiques, CritiqueCheck)
         + Each(r.review.sections, SectionCheck))
  }

  // ----------------------------------------------------------------- agent numbers

  /** A dumped model: its whole numbers, and the values that hold none. */
  datatype Node = Number(value: int) | Other | Many(nodes: seq<Node>)

  function Magnitude(n: int): nat { if n < 0 then -n else n }

  /** Every number somewhere in the tree, without its sign. */
  function NumbersOf(node: Node): set<int> {
    match node
    case Number(value) => {Magnitude(value)}
    case Other => {}
    case Many(nodes) => NumbersIn(nodes)
  }

  function NumbersIn(nodes: seq<Node>): set<int> {
    if nodes == [] then {} else NumbersOf(nodes[0]) + NumbersIn(nodes[1..])
  }

  lemma {:induction false} NumbersInNext(nodes: seq<Node>, k: nat)
    requires k < |nodes|
    ensures NumbersIn(nodes[..k + 1]) == NumbersIn(nodes[..k]) + NumbersOf(nodes[k])
  {
    if k == 0 {
      assert nodes[..1] == [nodes[0]] && nodes[..0] == [];
    } else {
      assert nodes[..k + 1][1..] == nodes[1..][..k] && nodes[..k][1..] == nodes[1..][..k - 1];
      NumbersInNext(nodes[1..], k - 1);
    }
  }

  /** `_collect`: adds what the tree holds to what was found before. */
  method Collect(node: Node, into: set<int>) returns (found: set<int>)
    ensures found == into + NumbersOf(node)
    decreases node
  {
    found := into;
    match node {
      case Number(value) => found := found + {Magnitude(value)};
      case Other =>
      case Many(nodes) =>
        for k := 0 to |nodes|
          invariant found == into + NumbersIn(nodes[..k])
        {
          NumbersInNext(nodes, k);
          found := Collect(nodes[k], found);
        }
        assert nodes[..|nodes|] == nodes;
    }
  }

  function Maybe(n: Option<int>): Node { if n.Some? then Number(n.value) else Other }

  function InputNode(r: Report): Node {
    var v := r.input;
    Many([Number(r.radius), Number(v.price), Number(v.variableCost), Number(v.investment), Number(v.fixedCost),
          Number(v.days), Number(v.capacity), Many([Number(v.volumeMin), Number(v.volumeBase), Number(v.volumeMax)])])
  }

  function ScenarioNodes(scenarios: seq<Scenario>): seq<Node> {
    if scenarios == [] then []
    else
      var s := scenarios[0];
      [Many([Number(s.volume), Number(s.units), Number(s.revenue), Number(s.profit), Maybe(s.payback)])]
      + ScenarioNodes(scenarios[1..])
  }

  function FinanceNode(f: FinanceResult): Node {
    Many([Number(f.margin), Maybe(f.ratioBps), Maybe(f.bepMonth), Maybe(f.bepDay), Maybe(f.bepRevenue),
          Maybe(f.runway), Many(ScenarioNodes(f.scenarios))])
  }

  function DimensionNodes(dimensions: seq<Dimension>): seq<Node> {
    if dimensions == [] then []
    else [Many([Number(Weight(dimensions[0].key)), Maybe(dimensions[0].score)])] + DimensionNodes(dimensions[1..])
  }

  function ReadinessNode(s: ScoreResult): Node { Many([Maybe(s.score), Many(DimensionNodes(s.dimensions))]) }

  function EvidenceNodes(items: seq<Evidence>): seq<Node> {
    if items == [] then []
    else [Number(items[0].value), Maybe(items[0].meters)] + EvidenceNodes(items[1..])
  }

  function MarketNode(r: Report): Node {
    Many([Number(r.radius), Maybe(r.market.competitorCount), Maybe(r.market.populationCount),
          Maybe(r.market.priceMedian), Maybe(r.market.priceSampleSize), Many(EvidenceNodes(r.evidence))])
  }

  function SegmentNodes(items: seq<Reducers.SegmentTally>): seq<Node> {
    if items == [] then []
    else [Number(items[0].personaCount), Number(items[0].purchaseCount)] + SegmentNodes(items[1..])
  }

  function ObjectionNodes(items: seq<Reducers.ObjectionTally>): seq<Node> {
    if items == [] then [] else [Number(items[0].count)] + ObjectionNodes(items[1..])
  }

  function SimulationNode(s: SimulationSection): Node {
    Many([Maybe(s.cohortSize), Maybe(s.rounds),
          if s.metrics.None? then Other
          else Many([Maybe(s.cohortSize), Number(s.metrics.value.activated), Number(s.metrics.value.purchases),
                     Number(s.metrics.value.positives), Number(s.metrics.value.shifted)]),
          Many(SegmentNodes(s.segments)), Many(ObjectionNodes(s.objections)),
          if s.band.None? then Other else Many([Number(s.band.value.minIdr), Number(s.band.value.maxIdr)])])
  }

  /** The parts of a report an agent may quote from. */
  datatype Vocabulary = Vocabulary(
    input: set<int>,
    finance: set<int>,
    readiness: set<int>,
    market: set<int>,
    simulation: set<int>)

  function SourcesOf(r: Report): Vocabulary {
    Vocabulary(NumbersOf(InputNode(r)), NumbersOf(FinanceNode(r.finance)), NumbersOf(ReadinessNode(r.readiness)),
               NumbersOf(MarketNode(r)), NumbersOf(SimulationNode(r.simulation)))
  }

  function ArtifactScope(words: Vocabulary, t: Councils.ArtifactType): set<int> {
    match t
    case MarketAssessment => words.market
    case CustomerSimulationResult => words.simulation
    case FinanceReview => words.finance
    case ReportNarrative => {}
  }

  function SectionScope(words: Vocabulary, sources: seq<Councils.ArtifactType>): set<int> {
    if sources == [] then words.input + words.readiness
    else SectionScope(words, sources[..|sources| - 1]) + ArtifactScope(words, sources[|sources| - 1])
  }

  function RedTeamScope(words: Vocabulary): set<int> {
    words.market + words.finance + words.readiness + words.simulation + words.input
  }

  datatype AgentText = AgentText(text: Label, words: Text, allowed: set<int>)

  function SectionTexts(words: Vocabulary, items: seq<Councils.Section>): seq<AgentText> {
    if items == [] then []
    else
      var n := |items| - 1;
      var allowed := SectionScope(words, items[n].sources);
      SectionTexts(words, items[..n])
      + [AgentText(NarrativeBody(items[n].id), items[n].body, allowed),
         AgentText(NarrativeTitle(items[n].id), items[n].title, allowed)]
  }

  function RedTeamTexts(words: Vocabulary, items: seq<Text>): seq<AgentText> {
    if items == [] then []
    else
      var n := |items| - 1;
      RedTeamTexts(words, items[..n]) + [AgentText(RedTeamFinding(n), items[n], RedTeamScope(words))]
  }

  function ObservationTexts(words: Vocabulary, items: seq<Councils.Observation>): seq<AgentText> {
    if items == [] then []
    else
      var n := |items| - 1;
      ObservationTexts(words, items[..n])
      + [AgentText(ObservationClaim(items[n].id), items[n].claim, words.market + words.input)]
  }

  function CritiqueTexts(words: Vocabulary, items: seq<Councils.Critique>): seq<AgentText> {
    if items == [] then []
    else
      var n := |items| - 1;
      CritiqueTexts(words, items[..n])
      + [AgentText(CritiqueWords(items[n].id), items[n].words, words.finance + words.input)]
  }

  function FragileTexts(words: Vocabulary, items: seq<Text>): seq<AgentText> {
    if items == [] then []
    else
      var n := |items| - 1;
      FragileTexts(words, items[..n]) + [AgentText(FragileAssumption(n), items[n], words.finance + words.input)]
  }

  function QuoteTexts(words: Vocabulary, items: seq<Reducers.Quote>): seq<AgentText> {
    if items == [] then []
    else
      var n := |items| - 1;
      QuoteTexts(words, items[..n])
      + [AgentText(PersonaQuote(items[n].agent), items[n].words, words.simulation + words.input)]
  }

  /** `_agent_authored_text`. */
  function AgentTexts(r: Report, words: Vocabulary): seq<AgentText> {
    SectionTexts(words, r.review.sections) + RedTeamTexts(words, r.review.redTeam)
    + ObservationTexts(words, r.review.observations) + CritiqueTexts(words, r.review.critiques)
    + FragileTexts(words, r.review.fragile) + QuoteTexts(words, r.simulation.quotes)
  }

  function NotIn(numbers: seq<int>, allowed: set<int>): (r: seq<int>)
    ensures forall n :: n in r <==> n in numbers && n !in allowed
  {
    if numbers == [] then []
    else (if numbers[0] in allowed then [] else [numbers[0]]) + NotIn(numbers[1..], allowed)
  }

  function Unsourced(text: Label, numbers: seq<int>): (r: seq<Violation>)
    ensures |r| == |numbers| && forall i :: 0 <= i < |r| ==> r[i] == UnsourcedNumber(text, numbers[i])
  {
    seq(|numbers|, i requires 0 <= i < |numbers| => UnsourcedNumber(text, numbers[i]))
  }

  /** The invented numbers of one text, ascending and each once. */
  function TextViolations(t: AgentText): seq<Violation> {
    Unsourced(t.text, Sorting.Keys(NotIn(t.words.numbers, t.allowed)))
  }

  function AgentViolations(texts: seq<AgentText>): seq<Violation> {
    if texts == [] then []
    else AgentViolations(texts[..|texts| - 1]) + TextViolations(texts[|texts| - 1])
  }

  /** The order of the checks, given the numbers each part of the report holds. */
  function Violations(r: Report, words: Vocabulary): seq<Violation> {
    FactViolations(r) + SimulationViolations(r) + AgentViolations(AgentTexts(r, words))
  }

  function FactViolations(r: Report): seq<Violation> {
    FinanceViolations(r) + ReadinessViolations(r.readiness) + Each(r.recommendations, RecommendationCheck)
    + Each(r.risks, RiskCheck) + MarketViolations(r)
  }

  // -------------------------------------------------------------- the validator runs

  method CheckScenarios(r: Report) returns (found: seq<Violation>)
    ensures found == ScenarioViolations(r, r.finance.scenarios)
  {
    found := [];
    var items := r.finance.scenarios;
    for k := 0 to |items|
      invariant found == ScenarioViolations(r, items[..k])
    {
      ScenarioViolationsNext(r, items, k);
      found := found + ScenarioChecks(r, items[k]);
    }
    assert items[..|items|] == items;
  }

  lemma ScenarioViolationsNext(r: Report, items: seq<Scenario>, k: nat)
    requires k < |items|
    ensures ScenarioViolations(r, items[..k + 1]) == ScenarioViolations(r, items[..k]) + ScenarioChecks(r, items[k])
  {
    assert items[..k + 1][..k] == items[..k];
  }

  /** One loop over a list, appending what each entry violates. */
  method CheckEach<T>(items: seq<T>, check: T -> seq<Violation>) returns (found: seq<Violation>)
    ensures found == Each(items, check)
  {
    found := [];
    for k := 0 to |items|
      invariant found == Each(items[..k], check)
    {
      assert items[..k + 1][..k] == items[..k];
      found := found + check(items[k]);
    }
    assert items[..|items|] == items;
  }

  method CheckText(t: AgentText) returns (found: seq<Violation>)
    ensures found == TextViolations(t)
  {
    found := [];
    var numbers := Sorting.Keys(NotIn(t.words.numbers, t.allowed));
    for i := 0 to |numbers|
      invariant |found| == i && forall k :: 0 <= k < i ==> found[k] == UnsourcedNumber(t.text, numbers[k])
    {
      found := found + [UnsourcedNumber(t.text, numbers[i])];
    }
  }

  /** `validate_agent_numbers`. */
  method ValidateAgentNumbers(texts: seq<AgentText>) returns (found: seq<Violation>)
    ensures found == AgentViolations(texts)
  {
    found := [];
    for k := 0 to |texts|
      invariant found == AgentViolations(texts[..k])
    {
      assert texts[..k + 1][..k] == texts[..k];
      var here := CheckText(texts[k]);
      found := found + here;
    }
    assert texts[..|texts|] == texts;
  }

  method CheckFinance(r: Report) returns (found: seq<Violation>)
    ensures found == FinanceViolations(r)
  {
    var scenarios := CheckScenarios(r);
    found := When(r.finance.margin != r.input.price - r.input.variableCost, MarginMismatch)
             + When(!AllNamed(r.finance.scenarios), ScenarioSetIncomplete) + scenarios
             + When(r.finance.margin <= 0 && (r.finance.bepMonth.Some? || r.finance.bepRevenue.Some?),
                    BepWithoutMargin);
  }

  method CheckReadiness(s: ScoreResult) returns (found: seq<Violation>)
    ensures found == ReadinessViolations(s)
  {
    var dimensions := CheckEach(s.dimensions, DimensionCheck);
    found := When(!s.available && s.score.Some?, ScoreWhileUnavailable)
             + When(s.available && s.score.None?, ScoreMissing)
             + When(s.available && s.missingDimensions != [], ScoreWithMissingDimensions) + dimensions;
  }

  /** The dictionary comprehension over the evidence: a later record replaces an earlier one. */
  method EvidenceValues(items: seq<Evidence>) returns (values: map<Metric, int>)
    ensures forall metric ::
        LastValue(items, metric) == if metric in values then Some(values[metric]) else None
  {
    values := map[];
    for k := 0 to |items|
      invariant forall metric ::
          LastValue(items[..k], metric) == if metric in values then Some(values[metric]) else None
    {
      assert items[..k + 1][..k] == items[..k];
      values := values[items[k].metric := items[k].value];
    }
    assert items[..|items|] == items;
  }

  function MetricAt(k: nat): Metric {
    if k == 0 then CompetitorCount else if k == 1 then PopulationCount
    else if k == 2 then PriceMedian else PriceSampleSize
  }

  function MarketChecks(r: Report, count: nat): seq<Violation> {
    if count == 0 then [] else MarketChecks(r, count - 1) + MarketCheck(r, MetricAt(count - 1))
  }

  method CheckMarket(r: Report) returns (found: seq<Violation>)
    ensures found == MarketViolations(r)
  {
    var values := EvidenceValues(r.evidence);
    found := [];
    for k := 0 to 4
      invariant found == MarketChecks(r, k)
    {
      var metric, reported := MetricAt(k), r.market.Reported(MetricAt(k));
      if reported.Some? && (metric !in values || values[metric] != reported.value) {
        found := found + [MarketValueWithoutEvidence(metric)];
      }
    }
    assert MarketChecks(r, 1) == MarketCheck(r, CompetitorCount);
    assert MarketChecks(r, 2) == MarketChecks(r, 1) + MarketCheck(r, PopulationCount);
    assert MarketChecks(r, 3) == MarketChecks(r, 2) + MarketCheck(r, PriceMedian);
  }

  /** `_validate_simulation`. */
  method ValidateSimulation(r: Report) returns (found: seq<Violation>)
    ensures found == SimulationViolations(r)
  {
    var s := r.simulation;
    if !s.available {
      return When(s.quotes != [] || s.metrics.Some?, UnavailableWithData)
             + When(!s.hasReason, UnavailableWithoutReason);
    }
    if s.cohortSize.None? { return [WithoutCohortSize]; }
    var m := Counted(s.metrics);
    found := When(m.activated > s.cohortSize.value, ActivatedAboveCohort)
             + When(m.purchases > m.activated || m.positives > m.activated, CountsAboveActivated)
             + When(!r.review.hasManifest, WithoutManifest);
    var observations := CheckEach(r.review.observations, ObservationCheck);
    var critiques := CheckEach(r.review.critiques, CritiqueCheck);
    var sections := CheckEach(r.review.sections, SectionCheck);
    found := found + (observations + critiques + sections);
  }

  /** `_number_sources`. */
  method NumberSources(r: Report) returns (words: Vocabulary)
    ensures words == SourcesOf(r)
  {
    var input := Collect(InputNode(r), {});
    var finance := Collect(FinanceNode(r.finance), {});
    var readiness := Collect(ReadinessNode(r.readiness), {});
    var market := Collect(MarketNode(r), {});
    var simulation := Collect(SimulationNode(r.simulation), {});
    words := Vocabulary(input, finance, readiness, market, simulation);
  }

  /** `validate_report`. */
  method ValidateReport(r: Report) returns (found: seq<Violation>)
    ensures found == Violations(r, SourcesOf(r))
  {
    var finance := CheckFinance(r);
    var readiness := CheckReadiness(r.readiness);
    var recommendations := CheckEach(r.recommendations, RecommendationCheck);
    var risks := CheckEach(r.risks, RiskCheck);
    var market := CheckMarket(r);
    var facts := finance + readiness + recommendations + risks + market;
    var simulation := ValidateSimulation(r);
    var words := NumberSources(r);
    var numbers := ValidateAgentNumbers(AgentTexts(r, words));
    found := facts + simulation + numbers;
  }

  // ------------------------------------------------------ what the composer guarantees

  lemma CleanScenario(v: FinanceInput, r: Report, name: ScenarioName)
    requires r.input == v && r.finance.margin == Margin(v)
    ensures ScenarioChecks(r, ScenarioFor(v, name)) == []
  {
  }

  lemma {:induction false} CleanScenarioList(r: Report, scenarios: seq<Scenario>)
    requires forall i :: 0 <= i < |scenarios| ==> ScenarioChecks(r, scenarios[i]) == []
    ensures ScenarioViolations(r, scenarios) == []
  {
    if scenarios != [] { CleanScenarioList(r, scenarios[..|scenarios| - 1]); }
  }

  lemma ScenarioAt(v: FinanceInput, i: nat)
    requires i < SCENARIOS
    ensures |Scenarios(v, SCENARIOS)| == SCENARIOS
    ensures Scenarios(v, SCENARIOS)[i] == ScenarioFor(v, NameAt(i))
  {
    ScenariosAre(v);
  }

  lemma NamedAt(v: FinanceInput, i: nat)
    requires i < SCENARIOS
    ensures Named(Scenarios(v, SCENARIOS), NameAt(i))
  {
    ScenarioAt(v, i);
  }

  lemma CleanFinance(v: FinanceInput, r: Report)
    requires Usable(v) && r.input == v && r.finance == Calculation(v)
    ensures FinanceViolations(r) == []
  {
    var items := r.finance.scenarios;
    ScenarioAt(v, 0);
    forall i | 0 <= i < |items| ensures ScenarioChecks(r, items[i]) == [] {
      ScenarioAt(v, i);
      CleanScenario(v, r, NameAt(i));
    }
    CleanScenarioList(r, items);
    NamedAt(v, 0);
    NamedAt(v, 1);
    NamedAt(v, 2);
  }

  lemma {:induction false} CleanEach<T>(items: seq<T>, check: T -> seq<Violation>)
    requires forall i :: 0 <= i < |items| ==> check(items[i]) == []
    ensures Each(items, check) == []
  {
    if items != [] { CleanEach(items[..|items| - 1], check); }
  }

  lemma CleanReadiness(s: ScoringInput)
    requires !DividesByZero(s)
    ensures ReadinessViolations(CalculateScore(s).value) == []
  {
    UnavailableExactly(s);
    DimensionStatus(s);
    forall i | 0 <= i < |Dimensions(s)| ensures DimensionCheck(Dimensions(s)[i]) == [] {
      assert StatusAgrees(Dimensions(s)[i]);
    }
    CleanEach(Dimensions(s), DimensionCheck);
  }

  predicate SourcedRisks(items: seq<Risk>) {
    forall i :: 0 <= i < |items| ==> items[i].source != NoSource
  }

  predicate SourcedRecommendations(items: seq<Recommendation>) {
    forall i :: 0 <= i < |items| ==> items[i].source != NoSource
  }

  lemma {:induction false} AgentRisksSourced(critiques: seq<Councils.Critique>)
    ensures SourcedRisks(AgentRisks(critiques))
  {
    if critiques != [] { AgentRisksSourced(critiques[1..]); }
  }

  lemma {:induction false} MissingSourced(missing: seq<Metric>)
    ensures SourcedRecommendations(MissingEvidence(missing))
  {
    if missing != [] { MissingSourced(missing[1..]); }
  }

  lemma {:induction false} IncompleteSourced(dimensions: seq<Dimension>, missing: seq<Metric>)
    ensures SourcedRecommendations(IncompleteDimensions(dimensions, missing))
  {
    if dimensions != [] { IncompleteSourced(dimensions[1..], missing); }
  }

  lemma SourcedWhen(a: seq<Risk>, raised: bool, risk: Risk)
    requires SourcedRisks(a) && risk.source != NoSource
    ensures SourcedRisks(a + When(raised, risk))
  {
  }

  lemma RisksSourced(v: FinanceInput, finance: FinanceResult, score: ScoreResult, lowConfidence: bool)
    ensures SourcedRisks(RisksOf(v, finance, score, lowConfidence))
  {
    var a := When(finance.margin < 0, Risk(MarginBelowZero, MarginSource));
    var b := a + When(finance.margin == 0, Risk(MarginIsZero, MarginSource));
    var c := b + When(OverCapacity(v, finance), Risk(BepOverCapacity, BepSource));
    var d := c + When(BaseLoses(finance), Risk(BaseNotProfitable, BaseSource));
    var e := d + When(RunwayIsShort(finance), Risk(ShortRunway, RunwaySource));
    var f := e + When(!score.available, Risk(ScoreUnavailable, ScoreSource));
    SourcedWhen(a, finance.margin == 0, Risk(MarginIsZero, MarginSource));
    SourcedWhen(b, OverCapacity(v, finance), Risk(BepOverCapacity, BepSource));
    SourcedWhen(c, BaseLoses(finance), Risk(BaseNotProfitable, BaseSource));
    SourcedWhen(d, RunwayIsShort(finance), Risk(ShortRunway, RunwaySource));
    SourcedWhen(e, !score.available, Risk(ScoreUnavailable, ScoreSource));
    SourcedWhen(f, lowConfidence, Risk(LowConfidence, ConfidenceSource));
  }

  lemma AdviceWhen(a: seq<Recommendation>, raised: bool, item: Recommendation)
    requires SourcedRecommendations(a) && item.source != NoSource
    ensures SourcedRecommendations(a + When(raised, item))
  {
  }

  lemma OwnRecommendationsSourced(v: FinanceInput, finance: FinanceResult)
    ensures SourcedRecommendations(OwnRecommendations(v, finance))
  {
    var base := finance.ScenarioNamed(Base);
    var a := When(finance.margin <= 0, Recommendation(FixMargin, MarginSource));
    var b := a + When(BaseLoses(finance), Recommendation(FixBase, BaseSource));
    var c := b + When(OverCapacity(v, finance), Recommendation(FixCapacity, BepSource));
    var d := c + When(RunwayIsShort(finance), Recommendation(BuildRunway, RunwaySource));
    AdviceWhen(a, BaseLoses(finance), Recommendation(FixBase, BaseSource));
    AdviceWhen(b, OverCapacity(v, finance), Recommendation(FixCapacity, BepSource));
    AdviceWhen(c, RunwayIsShort(finance), Recommendation(BuildRunway, RunwaySource));
    AdviceWhen(d, base.Some? && base.value.exceedsCapacity, Recommendation(AlignVolume, BaseSource));
  }

  /** Every risk and recommendation of a composed report names its source. */
  lemma EverythingIsSourced(v: FinanceInput, finance: FinanceResult, score: ScoreResult, lowConfidence: bool,
                            critiques: seq<Councils.Critique>, missing: seq<Metric>)
    ensures Each(RisksOf(v, finance, score, lowConfidence) + AgentRisks(critiques), RiskCheck) == []
    ensures Each(RecommendationsOf(v, finance, score, missing), RecommendationCheck) == []
  {
    RisksSourced(v, finance, score, lowConfidence);
    AgentRisksSourced(critiques);
    JoinSourced(RisksOf(v, finance, score, lowConfidence), AgentRisks(critiques));
    OwnRecommendationsSourced(v, finance);
    MissingSourced(missing);
    IncompleteSourced(score.dimensions, missing);
    JoinAdvice(OwnRecommendations(v, finance), MissingEvidence(missing));
    JoinAdvice(OwnRecommendations(v, finance) + MissingEvidence(missing),
               IncompleteDimensions(score.dimensions, missing));
    CleanEach(RecommendationsOf(v, finance, score, missing), RecommendationCheck);
  }

  lemma JoinAdvice(a: seq<Recommendation>, b: seq<Recommendation>)
    requires SourcedRecommendations(a) && SourcedRecommendations(b)
    ensures SourcedRecommendations(a + b)
  {
  }

  lemma JoinSourced(a: seq<Risk>, b: seq<Risk>)
    requires SourcedRisks(a) && SourcedRisks(b)
    ensures Each(a + b, RiskCheck) == []
  {
    CleanEach(a + b, RiskCheck);
  }

  // ------------------------------------------------------------- market figures

  /** The composer reads the first record of a metric, the validator the last. */
  predicate FirstIsLast(items: seq<Evidence>) {
    && ValueOf(items, CompetitorCount) == LastValue(items, CompetitorCount)
    && ValueOf(items, PopulationCount) == LastValue(items, PopulationCount)
    && ValueOf(items, PriceMedian) == LastValue(items, PriceMedian)
    && ValueOf(items, PriceSampleSize) == LastValue(items, PriceSampleSize)
  }

  lemma {:induction false} LastFound(items: seq<Evidence>, metric: Metric)
    ensures LastValue(items, metric).None? <==> forall i :: 0 <= i < |items| ==> items[i].metric != metric
    ensures LastValue(items, metric).Some? ==>
              exists i :: 0 <= i < |items| && items[i].metric == metric
                          && LastValue(items, metric) == Some(items[i].value)
  {
    if items != [] {
      var n := |items| - 1;
      LastFound(items[..n], metric);
      if items[n].metric == metric { assert LastValue(items, metric) == Some(items[n].value); }
    }
  }

  lemma MarketCheckExactly(items: seq<Evidence>, r: Report, metric: Metric)
    requires r.market == MarketOf(items) && r.evidence == items && !metric.OtherMetric?
    ensures MarketCheck(r, metric) == [] <==> ValueOf(items, metric) == LastValue(items, metric)
  {
    LastFound(items, metric);
  }

  lemma MarketAgreesExactly(items: seq<Evidence>, r: Report)
    requires r.market == MarketOf(items) && r.evidence == items
    ensures MarketViolations(r) == [] <==> FirstIsLast(items)
  {
    MarketCheckExactly(items, r, CompetitorCount);
    MarketCheckExactly(items, r, PopulationCount);
    MarketCheckExactly(items, r, PriceMedian);
    MarketCheckExactly(items, r, PriceSampleSize);
  }

  predicate DistinctMetrics(items: seq<Evidence>) {
    forall i, j :: 0 <= i < j < |items| ==> items[i].metric != items[j].metric
  }

  lemma DistinctAgree(items: seq<Evidence>, metric: Metric)
    requires DistinctMetrics(items)
    ensures ValueOf(items, metric) == LastValue(items, metric)
  {
    LastFound(items, metric);
    var first := Find(items, metric);
    if first.Some? {
      var i :| 0 <= i < |items| && items[i] == first.value;
      var j :| 0 <= j < |items| && items[j].metric == metric && LastValue(items, metric) == Some(items[j].value);
      assert i == j;
    }
  }

  lemma DistinctImplies(evidence: seq<Evidence>)
    requires DistinctMetrics(evidence)
    ensures FirstIsLast(evidence)
  {
    DistinctAgree(evidence, CompetitorCount);
    DistinctAgree(evidence, PopulationCount);
    DistinctAgree(evidence, PriceMedian);
    DistinctAgree(evidence, PriceSampleSize);
  }

  // ------------------------------------------------------------- main theorems

  /** What the pipeline composes from an input, its evidence and a simulation. */
  function Composed(v: FinanceInput, radius: int, evidence: seq<Evidence>, missing: seq<Metric>,
                    lowConfidence: bool, simulation: Option<SimulationOutcome>): Report
    requires Usable(v) && !DividesByZero(InputOf(v, radius, evidence))
  {
    Compose(v, radius, evidence, missing, Calculation(v), CalculateScore(InputOf(v, radius, evidence)).value,
            lowConfidence, simulation)
  }

  lemma ComposedFacts(v: FinanceInput, radius: int, evidence: seq<Evidence>, missing: seq<Metric>,
                      lowConfidence: bool, simulation: Option<SimulationOutcome>)
    requires Usable(v) && !DividesByZero(InputOf(v, radius, evidence))
    ensures var r := Composed(v, radius, evidence, missing, lowConfidence, simulation);
            FactViolations(r) == MarketViolations(r)
    ensures MarketViolations(Composed(v, radius, evidence, missing, lowConfidence, simulation)) == []
            <==> FirstIsLast(evidence)
  {
    var r := Composed(v, radius, evidence, missing, lowConfidence, simulation);
    CleanFinance(v, r);
    CleanReadiness(InputOf(v, radius, evidence));
    EverythingIsSourced(v, r.finance, r.readiness, lowConfidence,
                        if simulation.Some? then OrEmpty(simulation.value.finance) else [], missing);
    MarketAgreesExactly(evidence, r);
  }

  /** A composed report without a simulation is accepted exactly when no catalogue metric has
      two records that disagree; distinct metric names are enough. */
  lemma ComposedReportAccepted(v: FinanceInput, radius: int, evidence: seq<Evidence>, missing: seq<Metric>,
                               lowConfidence: bool, words: Vocabulary)
    requires Usable(v) && !DividesByZero(InputOf(v, radius, evidence))
    ensures Violations(Composed(v, radius, evidence, missing, lowConfidence, None), words) == []
            <==> FirstIsLast(evidence)
    ensures DistinctMetrics(evidence) ==> FirstIsLast(evidence)
  {
    var r := Composed(v, radius, evidence, missing, lowConfidence, None);
    ComposedFacts(v, radius, evidence, missing, lowConfidence, None);
    NoTexts(r, words);
    if DistinctMetrics(evidence) { DistinctImplies(evidence); }
  }

  lemma NoTexts(r: Report, words: Vocabulary)
    requires r.review == ReviewOf(None) && r.simulation == SimulationOf(None)
    ensures SimulationViolations(r) == [] && AgentViolations(AgentTexts(r, words)) == []
  {
    assert AgentTexts(r, words) == [];
  }

  /** What the artifact schemas and their validators leave of a simulation. */
  predicate ValidOutcome(s: SimulationOutcome) {
    && (s.customer.Some? ==> Reducers.Accepted(s.customer.value))
    && Councils.Supported(OrEmpty(s.market)) && Councils.CritiquesCite(OrEmpty(s.finance))
    && Councils.SectionsCite(OrEmpty(s.narrative))
  }

  lemma CleanSimulation(s: SimulationOutcome, r: Report)
    requires ValidOutcome(s) && r.simulation == SimulationOf(Some(s)) && r.review == ReviewOf(Some(s))
    ensures SimulationViolations(r) == []
  {
    CleanEach(r.review.observations, ObservationCheck);
    CleanEach(r.review.critiques, CritiqueCheck);
    CleanEach(r.review.sections, SectionCheck);
  }

  /** Every number of a text belongs to the material its author was given. */
  predicate WellSourced(t: AgentText) {
    forall i :: 0 <= i < |t.words.numbers| ==> t.words.numbers[i] in t.allowed
  }

  lemma TextViolationsExactly(t: AgentText, w: Violation)
    ensures w in TextViolations(t)
            <==> Invents(t, w)
  {
    var numbers := Sorting.Keys(NotIn(t.words.numbers, t.allowed));
    if w in TextViolations(t) {
      var i :| 0 <= i < |TextViolations(t)| && TextViolations(t)[i] == w;
      assert w == UnsourcedNumber(t.text, numbers[i]) && numbers[i] in numbers;
    }
    if Invents(t, w) {
      assert w.number in numbers;
      var i :| 0 <= i < |numbers| && numbers[i] == w.number;
      assert TextViolations(t)[i] == w;
    }
  }

  predicate Invents(t: AgentText, w: Violation) {
    w.UnsourcedNumber? && w.text == t.text && w.number in t.words.numbers && w.number !in t.allowed
  }

  predicate SomeInvents(texts: seq<AgentText>, w: Violation) {
    exists i :: 0 <= i < |texts| && Invents(texts[i], w)
  }

  lemma SomeInventsNext(texts: seq<AgentText>, w: Violation)
    requires texts != []
    ensures SomeInvents(texts, w)
            <==> SomeInvents(texts[..|texts| - 1], w) || Invents(texts[|texts| - 1], w)
  {
    var n := |texts| - 1;
    if i :| 0 <= i < n && Invents(texts[..n][i], w) { assert Invents(texts[i], w); }
    if i :| 0 <= i < n && Invents(texts[i], w) { assert Invents(texts[..n][i], w); }
  }

  /** The validator reports exactly the invented numbers: each with the text that holds it. */
  lemma {:induction false} AgentViolationsExactly(texts: seq<AgentText>, w: Violation)
    ensures w in AgentViolations(texts) <==> SomeInvents(texts, w)
  {
    if texts != [] {
      AgentViolationsExactly(texts[..|texts| - 1], w);
      TextViolationsExactly(texts[|texts| - 1], w);
      SomeInventsNext(texts, w);
    }
  }

  predicate AllWellSourced(texts: seq<AgentText>) {
    forall i :: 0 <= i < |texts| ==> WellSourced(texts[i])
  }

  lemma OnlyTextsLeft(r: Report, words: Vocabulary, texts: seq<AgentText>)
    requires FactViolations(r) == [] && SimulationViolations(r) == [] && texts == AgentTexts(r, words)
    ensures Violations(r, words) == AgentViolations(texts)
  {
  }

  /** With a valid simulation the only violations a composed report can have are invented
      numbers: it is accepted exactly when every number an agent wrote was in the material
      that agent was given. */
  lemma ComposedReportWithSimulation(v: FinanceInput, radius: int, evidence: seq<Evidence>, missing: seq<Metric>,
                                     lowConfidence: bool, s: SimulationOutcome, words: Vocabulary)
    requires Usable(v) && !DividesByZero(InputOf(v, radius, evidence)) && FirstIsLast(evidence) && ValidOutcome(s)
    ensures var r := Composed(v, radius, evidence, missing, lowConfidence, Some(s));
      && (forall w :: w in Violations(r, words) <==> SomeInvents(AgentTexts(r, words), w))
      && (Violations(r, words) == [] <==> AllWellSourced(AgentTexts(r, words)))
  {
    var r := Composed(v, radius, evidence, missing, lowConfidence, Some(s));
    var texts := AgentTexts(r, words);
    ComposedFacts(v, radius, evidence, missing, lowConfidence, Some(s));
    CleanSimulation(s, r);
    OnlyTextsLeft(r, words, texts);
    NoneReported(texts);
    forall w ensures w in AgentViolations(texts) <==> SomeInvents(texts, w) {
      AgentViolationsExactly(texts, w);
    }
  }

  lemma NoneReported(texts: seq<AgentText>)
    ensures AgentViolations(texts) == [] <==> AllWellSourced(texts)
  {
    if AgentViolations(texts) != [] {
      var w := AgentViolations(texts)[0];
      AgentViolationsExactly(texts, w);
    }
    if i :| 0 <= i < |texts| && !WellSourced(texts[i]) {
      var j :| 0 <= j < |texts[i].words.numbers| && texts[i].words.numbers[j] !in texts[i].allowed;
      var w := UnsourcedNumber(texts[i].text, texts[i].words.numbers[j]);
      assert Invents(texts[i], w);
      assert SomeInvents(texts, w);
      AgentViolationsExactly(texts, w);
    }
  }

  /** Two competitor counts in one snapshot: the composed report shows the first, and the
      validator rejects it. */
  lemma DuplicateMetricRejected(v: FinanceInput, missing: seq<Metric>, lowConfidence: bool, words: Vocabulary)
    requires Usable(v)
    ensures var evidence := [Evidence(CompetitorCount, 3, Some(500)), Evidence(CompetitorCount, 5, Some(500))];
      Violations(Composed(v, 500, evidence, missing, lowConfidence, None), words) != []
  {
    var a, b := Evidence(CompetitorCount, 3, Some(500)), Evidence(CompetitorCount, 5, Some(500));
    var evidence := [a, b];
    assert evidence[..1] == [a] && evidence[1..] == [b];
    assert ValueOf(evidence, CompetitorCount) == Some(3);
    assert LastValue(evidence, CompetitorCount) == Some(5);
    ComposedReportAccepted(v, 500, evidence, missing, lowConfidence, words);
  }

  // ------------------------------------------------------- tool figures may be cited

  lemma {:induction false} PartNumbers(nodes: seq<Node>, k: nat)
    requires k < |nodes|
    ensures NumbersOf(nodes[k]) <= NumbersIn(nodes)
  {
    if k > 0 {
      assert nodes[1..][k - 1] == nodes[k];
      PartNumbers(nodes[1..], k - 1);
    }
  }

  function ScenarioRow(s: Scenario): seq<Node> {
    [Number(s.volume), Number(s.units), Number(s.revenue), Number(s.profit), Maybe(s.payback)]
  }

  lemma {:induction false} RowPlace(scenarios: seq<Scenario>, k: nat)
    requires k < |scenarios|
    ensures k < |ScenarioNodes(scenarios)| && ScenarioNodes(scenarios)[k] == Many(ScenarioRow(scenarios[k]))
  {
    if k > 0 {
      RowPlace(scenarios[1..], k - 1);
    }
  }

  function ToolNumbers(call: ToolCall): set<int> {
    NumbersOf(Number(call.volume)) + NumbersOf(Number(call.output.margin)) + NumbersOf(Maybe(call.output.bepMonth))
    + NumbersOf(Number(call.output.revenue)) + NumbersOf(Number(call.output.profit))
    + NumbersOf(Maybe(call.output.payback))
  }

  lemma ScenarioPart(f: FinanceResult, k: nat, part: nat)
    requires k < |f.scenarios| && part < 5
    ensures NumbersOf(ScenarioRow(f.scenarios[k])[part]) <= NumbersOf(FinanceNode(f))
  {
    var rows, row := ScenarioNodes(f.scenarios), ScenarioRow(f.scenarios[k]);
    RowPlace(f.scenarios, k);
    PartNumbers(row, part);
    PartNumbers(rows, k);
    assert NumbersOf(Many(row)) == NumbersIn(row) && NumbersOf(Many(rows)) == NumbersIn(rows);
    FinancePart(f, 6);
  }

  lemma FinancePart(f: FinanceResult, part: nat)
    requires part < 7
    ensures NumbersOf(FinanceNode(f).nodes[part]) <= NumbersOf(FinanceNode(f))
  {
    PartNumbers(FinanceNode(f).nodes, part);
  }

  /** A critique that only repeats what the deterministic tool showed the council is never
      reported: the tool's figures are the report's own. */
  lemma ToolFiguresAreSourced(f: FinanceResult, k: nat, call: ToolCall, words: Vocabulary, critique: Councils.Critique)
    requires AgreesWith(call, f, k) && words.finance == NumbersOf(FinanceNode(f))
    requires forall i :: 0 <= i < |critique.words.numbers| ==> critique.words.numbers[i] in ToolNumbers(call)
    ensures WellSourced(AgentText(CritiqueWords(critique.id), critique.words, words.finance + words.input))
  {
    ScenarioPart(f, k, 0);
    ScenarioPart(f, k, 2);
    ScenarioPart(f, k, 3);
    ScenarioPart(f, k, 4);
    FinancePart(f, 0);
    FinancePart(f, 2);
    assert ToolNumbers(call) <= words.finance;
  }
}
