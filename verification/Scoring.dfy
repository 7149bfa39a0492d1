/** The Launch Readiness Score, rule set `lrs-v0.2-unvalidated`. Decimals are exact rationals. */
module Scoring {
  import opened Options
  import opened Arithmetic
  import opened Finance

  datatype Metric = CompetitorCount | PopulationCount | PriceMedian | PriceSampleSize | OtherMetric(id: int)

  datatype Evidence = Evidence(metric: Metric, value: int, meters: Option<int>)

  /** `EvidenceSnapshot.find`: the first record of the metric. */
  function Find(items: seq<Evidence>, metric: Metric): (r: Option<Evidence>)
    ensures r.Some? ==> r.value in items && r.value.metric == metric
    ensures r.None? <==> forall i :: 0 <= i < |items| ==> items[i].metric != metric
  {
    if items == [] then None
    else if items[0].metric == metric then Some(items[0])
    else Find(items[1..], metric)
  }

  datatype ScoringInput = ScoringInput(
    plannedPrice: int,
    radius: int,
    capacity: int,
    baseVolume: int,
    fixedCost: int,
    finance: FinanceResult,
    evidence: seq<Evidence>)

  datatype DimensionKey = MarketSaturation | DemandPotential | PricePositioning | OperationalReadiness

  /** `scored` is the status field, kept apart from the score as in the schema. */
  datatype Dimension = Dimension(key: DimensionKey, scored: bool, score: Option<int>, missing: seq<Metric>)

  function Scored(key: DimensionKey, score: int): Dimension { Dimension(key, true, Some(score), []) }

  function NotScorable(key: DimensionKey, missing: seq<Metric>): Dimension {
    Dimension(key, false, None, missing)
  }

  datatype Interpretation = StronglyViable | ViableWithMitigation | NeedsReevaluation | NotRecommended

  datatype ScoreResult = ScoreResult(
    available: bool,
    score: Option<int>,
    interpretation: Option<Interpretation>,
    dimensions: seq<Dimension>,
    missingDimensions: seq<DimensionKey>)

  /** PI to twenty decimals, over 10^20. */
  const PI_DIGITS: int := 314159265358979323846
  const PI_SCALE: int := 100_000_000_000_000_000_000

  function AreaDenominator(radius: int): int { PI_DIGITS * (radius * radius) }

  /** Outlets per square kilometre, times 100, rounded half up. */
  function DensityX100(competitors: int, radius: int): int
    requires AreaDenominator(radius) > 0
  {
    RoundHalfUp(competitors * 100 * 1_000_000 * PI_SCALE, AreaDenominator(radius))
  }

  function SaturationPoints(density: int): int {
    if density <= 200 then 90 else if density <= 500 then 75 else if density <= 1_000 then 60
    else if density <= 2_000 then 40 else 20
  }

  function ScoreSaturation(v: ScoringInput): Dimension {
    var record := Find(v.evidence, CompetitorCount);
    if record.None? || record.value.meters != Some(v.radius) || AreaDenominator(v.radius) <= 0 then
      NotScorable(MarketSaturation, [CompetitorCount])
    else
      Scored(MarketSaturation, SaturationPoints(DensityX100(record.value.value, v.radius)))
  }

  function DemandPoints(perOutlet: int): int {
    if perOutlet >= 5_000 then 85 else if perOutlet >= 2_500 then 70 else if perOutlet >= 1_000 then 55
    else if perOutlet >= 400 then 35 else 20
  }

  /** `//`: the quotient rounded down, whatever the sign of the divisor; `None` is the error a
      zero divisor raises. */
  function FloorDiv(n: int, d: int): Option<int> {
    if d == 0 then None else if d > 0 then Some(n / d) else Some((-n) / (-d))
  }

  function Lacking(items: seq<Evidence>, metrics: seq<Metric>): seq<Metric> {
    if metrics == [] then []
    else (if Find(items, metrics[0]).None? then [metrics[0]] else []) + Lacking(items, metrics[1..])
  }

  /** A competitor count of -1 leaves no outlet to divide by. */
  predicate DividesByZero(v: ScoringInput) {
    var population, competitors := Find(v.evidence, PopulationCount), Find(v.evidence, CompetitorCount);
    population.Some? && competitors.Some? && population.value.meters == Some(v.radius)
    && competitors.value.value == -1
  }

  /** `_demand_potential`; the error of its division is passed on. */
  function TryDemand(v: ScoringInput): (r: Option<Dimension>)
    ensures r.None? <==> DividesByZero(v)
  {
    var population, competitors := Find(v.evidence, PopulationCount), Find(v.evidence, CompetitorCount);
    if population.None? || competitors.None? then
      Some(NotScorable(DemandPotential, Lacking(v.evidence, [PopulationCount, CompetitorCount])))
    else if population.value.meters != Some(v.radius) then
      Some(NotScorable(DemandPotential, [PopulationCount]))
    else
      var perOutlet := FloorDiv(population.value.value, competitors.value.value + 1);
      if perOutlet.None? then None else Some(Scored(DemandPotential, DemandPoints(perOutlet.value)))
  }

  function ScoreDemand(v: ScoringInput): Dimension
    requires !DividesByZero(v)
  {
    TryDemand(v).value
  }

  const MIN_PRICE_SAMPLE_SIZE: int := 5

  function PricePoints(ratio: int): int {
    if 80 <= ratio <= 120 then 80 else if 60 <= ratio < 80 then 65
    else if 120 < ratio <= 150 then 55 else if ratio < 60 then 40 else 30
  }

  function ScorePrice(v: ScoringInput): Dimension {
    var median, sample := Find(v.evidence, PriceMedian), Find(v.evidence, PriceSampleSize);
    if median.None? || sample.None? then
      NotScorable(PricePositioning, Lacking(v.evidence, [PriceMedian, PriceSampleSize]))
    else if sample.value.value < MIN_PRICE_SAMPLE_SIZE then
      NotScorable(PricePositioning, [PriceSampleSize])
    else if median.value.value <= 0 then
      NotScorable(PricePositioning, [PriceMedian])
    else
      var points := PricePoints(RoundHalfUp(v.plannedPrice * 100, median.value.value));
      Scored(PricePositioning, if v.finance.margin <= 0 && points > 20 then 20 else points)
  }

  function MarginPoints(margin: int): int {
    if margin > 0 then 40 else if margin == 0 then 10 else 0
  }

  function CapacityPoints(bepDay: Option<int>, capacity: int): int {
    if bepDay.None? then 0
    else if capacity >= bepDay.value * 2 then 30
    else if capacity >= bepDay.value then 20
    else 0
  }

  function RunwayPoints(fixedCost: int, runway: Option<int>): int {
    if fixedCost == 0 then 20
    else if runway.None? then 0
    else if runway.value >= 6 then 20
    else if runway.value >= 3 then 12
    else if runway.value >= 1 then 6
    else 0
  }

  function VolumePoints(baseVolume: int, capacity: int): int {
    if baseVolume <= capacity then 10 else 0
  }

  function ScoreReadiness(v: ScoringInput): Dimension {
    Scored(OperationalReadiness,
           MarginPoints(v.finance.margin) + CapacityPoints(v.finance.bepDay, v.capacity)
           + RunwayPoints(v.fixedCost, v.finance.runway) + VolumePoints(v.baseVolume, v.capacity))
  }

  function Weight(key: DimensionKey): int {
    match key
    case MarketSaturation => 20
    case DemandPotential => 25
    case PricePositioning => 15
    case OperationalReadiness => 40
  }

  function Dimensions(v: ScoringInput): seq<Dimension>
    requires !DividesByZero(v)
  {
    [ScoreSaturation(v), ScoreDemand(v), ScorePrice(v), ScoreReadiness(v)]
  }

  function Unscored(dimensions: seq<Dimension>): (r: seq<DimensionKey>)
    ensures r == [] <==> forall i :: 0 <= i < |dimensions| ==> dimensions[i].scored
    ensures forall key :: key in r <==>
              exists i :: 0 <= i < |dimensions| && dimensions[i].key == key && !dimensions[i].scored
  {
    if dimensions == [] then []
    else
      assert dimensions == [dimensions[0]] + dimensions[1..];
      (if dimensions[0].scored then [] else [dimensions[0].key]) + Unscored(dimensions[1..])
  }

  function Weighted(dimensions: seq<Dimension>): int {
    if dimensions == [] then 0
    else Weight(dimensions[0].key) * (if dimensions[0].score.Some? then dimensions[0].score.value else 0)
         + Weighted(dimensions[1..])
  }

  function Interpret(score: int): Interpretation {
    if score >= 80 then StronglyViable else if score >= 65 then ViableWithMitigation
    else if score >= 50 then NeedsReevaluation else NotRecommended
  }

  function Total(dimensions: seq<Dimension>): int { RoundHalfUp(Weighted(dimensions), 100) }

  function ScoreOf(dimensions: seq<Dimension>): ScoreResult {
    var missing := Unscored(dimensions);
    if missing != [] then ScoreResult(false, None, None, dimensions, missing)
    else
      var total := Total(dimensions);
      ScoreResult(true, Some(total), Some(Interpret(total)), dimensions, [])
  }

  /** `calculate_score`; `None` is the division by zero. */
  function CalculateScore(v: ScoringInput): Option<ScoreResult> {
    var demand := TryDemand(v);
    if demand.None? then None
    else Some(ScoreOf([ScoreSaturation(v), demand.value, ScorePrice(v), ScoreReadiness(v)]))
  }

  /** Scoring raises exactly when a population at the analysis radius meets a competitor count
      of -1. */
  lemma DivisionFailsExactly(v: ScoringInput)
    ensures CalculateScore(v).None? <==> DividesByZero(v)
    ensures CalculateScore(v).Some? ==> CalculateScore(v) == Some(ScoreOf(Dimensions(v)))
  {
  }

  /** Such a snapshot: the record type allows the count, and scoring raises on it. */
  lemma MinusOneCompetitors(v: ScoringInput, population: int)
    requires v.evidence == [Evidence(PopulationCount, population, Some(v.radius)),
                            Evidence(CompetitorCount, -1, Some(v.radius))]
    ensures CalculateScore(v).None?
  {
    assert v.evidence[1..] == [Evidence(CompetitorCount, -1, Some(v.radius))];
    assert Find(v.evidence[1..], CompetitorCount) == Some(v.evidence[1]);
  }

  // ------------------------------------------------------------------ availability

  predicate SomeUnscored(dimensions: seq<Dimension>, key: DimensionKey) {
    exists i :: 0 <= i < |dimensions| && dimensions[i].key == key && dimensions[i].score.None?
  }

  lemma WithheldExactly(dimensions: seq<Dimension>)
    requires forall i :: 0 <= i < |dimensions| ==> StatusAgrees(dimensions[i])
    ensures var r := ScoreOf(dimensions);
      && (r.available <==> forall key :: !SomeUnscored(dimensions, key))
      && (r.available <==> r.score.Some?) && (r.available <==> r.missingDimensions == [])
      && (forall key :: key in r.missingDimensions <==> SomeUnscored(dimensions, key))
  {
    if !ScoreOf(dimensions).available {
      var i :| 0 <= i < |dimensions| && !dimensions[i].scored;
      assert StatusAgrees(dimensions[i]) && SomeUnscored(dimensions, dimensions[i].key);
    }
  }

  predicate StatusAgrees(d: Dimension) { d.scored == d.score.Some? }

  lemma EachStatus(v: ScoringInput)
    requires !DividesByZero(v)
    ensures StatusAgrees(ScoreSaturation(v)) && ScoreSaturation(v).key == MarketSaturation
    ensures StatusAgrees(ScoreDemand(v)) && ScoreDemand(v).key == DemandPotential
    ensures StatusAgrees(ScorePrice(v)) && ScorePrice(v).key == PricePositioning
    ensures StatusAgrees(ScoreReadiness(v)) && ScoreReadiness(v).scored
  {
  }

  lemma FourStatus(a: Dimension, b: Dimension, c: Dimension, d: Dimension)
    requires StatusAgrees(a) && StatusAgrees(b) && StatusAgrees(c) && StatusAgrees(d) && d.scored
    requires a.key != OperationalReadiness && b.key != OperationalReadiness && c.key != OperationalReadiness
    ensures forall i :: 0 <= i < 4 ==> StatusAgrees([a, b, c, d][i])
    ensures !SomeUnscored([a, b, c, d], OperationalReadiness)
  {
  }

  lemma DimensionStatus(v: ScoringInput)
    requires !DividesByZero(v)
    ensures |Dimensions(v)| == 4 && forall i :: 0 <= i < 4 ==> StatusAgrees(Dimensions(v)[i])
    ensures !SomeUnscored(Dimensions(v), OperationalReadiness)
  {
    EachStatus(v);
    FourStatus(ScoreSaturation(v), ScoreDemand(v), ScorePrice(v), ScoreReadiness(v));
  }

  /** The total is withheld exactly when some dimension is not scorable, every such dimension
      is named, and readiness, which needs no evidence, never is. */
  lemma UnavailableExactly(v: ScoringInput)
    requires !DividesByZero(v)
    ensures var r := CalculateScore(v).value;
      && (r.available <==> forall key :: !SomeUnscored(r.dimensions, key))
      && (r.available <==> r.score.Some?) && (r.available <==> r.missingDimensions == [])
      && (forall key :: key in r.missingDimensions <==> SomeUnscored(r.dimensions, key))
      && OperationalReadiness !in r.missingDimensions
  {
    DimensionStatus(v);
    WithheldExactly(Dimensions(v));
  }

  /** With the whole catalogue of evidence at the analysis radius, enough price observations
      and a positive median, the score is available, and only then. */
  lemma AvailableExactly(v: ScoringInput)
    requires !DividesByZero(v)
    ensures CalculateScore(v).value.available <==>
            && Find(v.evidence, CompetitorCount).Some? && Find(v.evidence, PopulationCount).Some?
            && Find(v.evidence, PriceMedian).Some? && Find(v.evidence, PriceSampleSize).Some?
            && Find(v.evidence, CompetitorCount).value.meters == Some(v.radius)
            && Find(v.evidence, PopulationCount).value.meters == Some(v.radius)
            && Find(v.evidence, PriceSampleSize).value.value >= MIN_PRICE_SAMPLE_SIZE
            && Find(v.evidence, PriceMedian).value.value > 0
            && v.radius != 0
  {
    AreaPositive(v.radius);
    var d := Dimensions(v);
    assert CalculateScore(v).value.available <==>
           d[0].score.Some? && d[1].score.Some? && d[2].score.Some? && d[3].score.Some?;
  }

  lemma AreaPositive(radius: int)
    ensures AreaDenominator(radius) >= 0
    ensures AreaDenominator(radius) > 0 <==> radius != 0
  {
    if radius > 0 { MulPositive(radius, radius); }
    if radius < 0 { MulPositive(-radius, -radius); assert (-radius) * (-radius) == radius * radius; }
  }

  // ------------------------------------------------------------------ monotonicity

  lemma DensityMonotone(a: int, b: int, radius: int)
    requires a <= b && AreaDenominator(radius) > 0
    ensures SaturationPoints(DensityX100(b, radius)) <= SaturationPoints(DensityX100(a, radius))
  {
    RoundHalfUpMonotone(a * 100 * 1_000_000 * PI_SCALE, b * 100 * 1_000_000 * PI_SCALE, AreaDenominator(radius));
  }

  lemma DemandAntitone(population: int, a: int, b: int)
    requires 0 <= a <= b
    ensures DemandPoints(population / (b + 1)) <= DemandPoints(population / (a + 1))
  {
    var qa, qb := population / (a + 1), population / (b + 1);
    if population >= 0 {
      DivAtLeast(population, b + 1, qb);
      DivAtLeast(population, b + 1, 0);
      MulMonotone(a + 1, b + 1, qb);
      assert qb * (a + 1) == (a + 1) * qb && qb * (b + 1) == (b + 1) * qb;
      DivAtLeast(population, a + 1, qb);
    } else {
      DivAtLeast(population, b + 1, 0);
      assert qb < 0;
    }
  }

  /** Raising the fixed cost never lowers the break-even volume. */
  lemma BepMonotone(v: FinanceInput, w: FinanceInput)
    requires Usable(v) && w == v.(fixedCost := w.fixedCost) && v.fixedCost <= w.fixedCost
    ensures CapacityPoints(BepDay(w), w.capacity) <= CapacityPoints(BepDay(v), v.capacity)
  {
    if Margin(v) > 0 {
      CeilDivMonotone(v.fixedCost, w.fixedCost, Margin(v));
      CeilDivMonotone(CeilDiv(v.fixedCost, Margin(v)), CeilDiv(w.fixedCost, Margin(v)), v.days);
    }
  }

  /** Raising the fixed cost never lengthens the runway. */
  lemma RunwayAntitone(v: FinanceInput, w: FinanceInput)
    requires Usable(v) && w == v.(fixedCost := w.fixedCost) && v.fixedCost <= w.fixedCost
    ensures RunwayPoints(w.fixedCost, Runway(w)) <= RunwayPoints(v.fixedCost, Runway(v))
  {
    if v.fixedCost > 0 {
      var q := w.investment / w.fixedCost;
      DivAtLeast(w.investment, w.fixedCost, q);
      DivAtLeast(w.investment, w.fixedCost, 0);
      MulMonotone(v.fixedCost, w.fixedCost, q);
      DivAtLeast(v.investment, v.fixedCost, q);
    }
  }

  /** What the pipeline hands to the scorer. */
  function InputOf(v: FinanceInput, radius: int, evidence: seq<Evidence>): ScoringInput
    requires v.days > 0
  {
    ScoringInput(v.price, radius, v.capacity, v.volumeBase, v.fixedCost, Calculation(v), evidence)
  }

  /** The same evidence, except that no fewer competitors were counted. */
  ghost predicate MoreCompetitors(before: seq<Evidence>, after: seq<Evidence>) {
    && (forall metric :: metric != CompetitorCount ==> Find(after, metric) == Find(before, metric))
    && (Find(before, CompetitorCount).Some? <==> Find(after, CompetitorCount).Some?)
    && (Find(before, CompetitorCount).Some? ==>
          && Find(before, CompetitorCount).value.meters == Find(after, CompetitorCount).value.meters
          && 0 <= Find(before, CompetitorCount).value.value <= Find(after, CompetitorCount).value.value)
  }

  predicate NoHigher(a: Dimension, b: Dimension) {
    a.key == b.key && a.scored == b.scored && a.score.Some? == b.score.Some?
    && (a.score.Some? ==> a.score.value <= b.score.value)
  }

  lemma SaturationFalls(v: FinanceInput, w: FinanceInput, radius: int, before: seq<Evidence>, after: seq<Evidence>)
    requires Usable(v) && w == v.(fixedCost := w.fixedCost) && v.fixedCost <= w.fixedCost
    requires MoreCompetitors(before, after)
    ensures NoHigher(ScoreSaturation(InputOf(w, radius, after)), ScoreSaturation(InputOf(v, radius, before)))
  {
    if Find(before, CompetitorCount).Some? && AreaDenominator(radius) > 0 {
      DensityMonotone(Find(before, CompetitorCount).value.value, Find(after, CompetitorCount).value.value, radius);
    }
  }

  lemma DemandFalls(v: FinanceInput, w: FinanceInput, radius: int, before: seq<Evidence>, after: seq<Evidence>)
    requires Usable(v) && w == v.(fixedCost := w.fixedCost) && v.fixedCost <= w.fixedCost
    requires MoreCompetitors(before, after)
    ensures !DividesByZero(InputOf(v, radius, before)) && !DividesByZero(InputOf(w, radius, after))
    ensures NoHigher(ScoreDemand(InputOf(w, radius, after)), ScoreDemand(InputOf(v, radius, before)))
  {
    assert Find(after, PopulationCount) == Find(before, PopulationCount);
    if Find(before, CompetitorCount).Some? && Find(before, PopulationCount).Some? {
      DemandAntitone(Find(before, PopulationCount).value.value,
                     Find(before, CompetitorCount).value.value, Find(after, CompetitorCount).value.value);
    }
  }

  lemma PriceKeeps(v: FinanceInput, w: FinanceInput, radius: int, before: seq<Evidence>, after: seq<Evidence>)
    requires Usable(v) && w == v.(fixedCost := w.fixedCost) && v.fixedCost <= w.fixedCost
    requires MoreCompetitors(before, after)
    ensures NoHigher(ScorePrice(InputOf(w, radius, after)), ScorePrice(InputOf(v, radius, before)))
  {
    assert Find(after, PriceMedian) == Find(before, PriceMedian);
    assert Find(after, PriceSampleSize) == Find(before, PriceSampleSize);
  }

  lemma ReadinessFalls(v: FinanceInput, w: FinanceInput, radius: int, before: seq<Evidence>, after: seq<Evidence>)
    requires Usable(v) && w == v.(fixedCost := w.fixedCost) && v.fixedCost <= w.fixedCost
    ensures NoHigher(ScoreReadiness(InputOf(w, radius, after)), ScoreReadiness(InputOf(v, radius, before)))
  {
    BepMonotone(v, w);
    RunwayAntitone(v, w);
  }

  lemma {:induction false} WeightedMonotone(a: seq<Dimension>, b: seq<Dimension>)
    requires |a| == |b| && forall i :: 0 <= i < |a| ==> NoHigher(a[i], b[i])
    ensures Weighted(a) <= Weighted(b)
    ensures Unscored(a) == Unscored(b)
  {
    if a != [] {
      WeightedMonotone(a[1..], b[1..]);
      var x := if a[0].score.Some? then a[0].score.value else 0;
      var y := if b[0].score.Some? then b[0].score.value else 0;
      assert Weight(a[0].key) * x <= Weight(a[0].key) * y;
    }
  }

  lemma DimensionsFall(v: FinanceInput, w: FinanceInput, radius: int, before: seq<Evidence>, after: seq<Evidence>)
    requires Usable(v) && w == v.(fixedCost := w.fixedCost) && v.fixedCost <= w.fixedCost
    requires MoreCompetitors(before, after)
    ensures !DividesByZero(InputOf(v, radius, before)) && !DividesByZero(InputOf(w, radius, after))
    ensures var a, b := Dimensions(InputOf(w, radius, after)), Dimensions(InputOf(v, radius, before));
            |a| == |b| && forall i :: 0 <= i < |a| ==> NoHigher(a[i], b[i])
  {
    SaturationFalls(v, w, radius, before, after);
    DemandFalls(v, w, radius, before, after);
    PriceKeeps(v, w, radius, before, after);
    ReadinessFalls(v, w, radius, before, after);
  }

  /** End to end, through break-even, runway, thresholds and rounding: counting more
      competitors or raising the fixed monthly cost changes neither which dimensions are
      scorable nor ever raises the score. */
  lemma ScoreNeverRises(v: FinanceInput, w: FinanceInput, radius: int, before: seq<Evidence>, after: seq<Evidence>)
    requires Usable(v) && w == v.(fixedCost := w.fixedCost) && v.fixedCost <= w.fixedCost
    requires MoreCompetitors(before, after)
    ensures var x, y := CalculateScore(InputOf(v, radius, before)), CalculateScore(InputOf(w, radius, after));
      && x.Some? && y.Some? && x.value.available == y.value.available
      && x.value.missingDimensions == y.value.missingDimensions
      && (x.value.available ==> y.value.score.value <= x.value.score.value)
  {
    DimensionsFall(v, w, radius, before, after);
    var a, b := Dimensions(InputOf(w, radius, after)), Dimensions(InputOf(v, radius, before));
    WeightedMonotone(a, b);
    RoundHalfUpMonotone(Weighted(a), Weighted(b), 100);
  }

  /** An available score lies in 0..100, and its interpretation is the band it falls in. */
  lemma ScoreInRange(v: ScoringInput)
    ensures CalculateScore(v).Some? && CalculateScore(v).value.available ==>
      var r := CalculateScore(v).value;
      && r.score.Some? && r.interpretation.Some? && 0 <= r.score.value <= 100
      && (r.interpretation.value == StronglyViable <==> r.score.value >= 80)
      && (r.interpretation.value == ViableWithMitigation <==> 65 <= r.score.value < 80)
      && (r.interpretation.value == NeedsReevaluation <==> 50 <= r.score.value < 65)
      && (r.interpretation.value == NotRecommended <==> r.score.value < 50)
  {
    if CalculateScore(v).None? || !CalculateScore(v).value.available { return; }
    var d := Dimensions(v);
    EachStatus(v);
    EachInRange(v);
    FourInRange(ScoreSaturation(v), ScoreDemand(v), ScorePrice(v), ScoreReadiness(v));
    RoundHalfUpMonotone(0, Weighted(d), 100);
    RoundHalfUpMonotone(Weighted(d), 10_000, 100);
  }

  predicate InRange(d: Dimension) { d.score.Some? ==> 0 <= d.score.value <= 100 }

  lemma EachInRange(v: ScoringInput)
    requires !DividesByZero(v)
    ensures InRange(ScoreSaturation(v)) && InRange(ScoreDemand(v)) && InRange(ScorePrice(v))
    ensures InRange(ScoreReadiness(v))
  {
  }

  lemma FourInRange(a: Dimension, b: Dimension, c: Dimension, d: Dimension)
    requires InRange(a) && InRange(b) && InRange(c) && InRange(d)
    requires a.key == MarketSaturation && b.key == DemandPotential && c.key == PricePositioning
    requires d.key == OperationalReadiness
    requires StatusAgrees(a) && StatusAgrees(b) && StatusAgrees(c) && StatusAgrees(d)
    ensures Unscored([a, b, c, d]) == [] ==> 0 <= Weighted([a, b, c, d]) <= 10_000
  {
    var all := [a, b, c, d];
    if Unscored(all) == [] {
      assert all[0].scored && all[1].scored && all[2].scored && all[3].scored;
      WeightedOfFour(all);
    }
  }

  lemma WeightedOfFour(d: seq<Dimension>)
    requires |d| == 4 && forall i :: 0 <= i < |d| ==> d[i].score.Some?
    requires d[0].key == MarketSaturation && d[1].key == DemandPotential
    requires d[2].key == PricePositioning && d[3].key == OperationalReadiness
    ensures Weighted(d) == 20 * d[0].score.value + 25 * d[1].score.value + 15 * d[2].score.value
                           + 40 * d[3].score.value
  {
    var b := d[1..];
    var c := b[1..];
    var e := c[1..];
    assert b[0] == d[1] && c[0] == d[2] && e[0] == d[3] && e[1..] == [];
    assert Weighted(e) == 40 * d[3].score.value;
    assert Weighted(c) == 15 * d[2].score.value + Weighted(e);
    assert Weighted(b) == 25 * d[1].score.value + Weighted(c);
  }
}
