/** The deterministic finance engine. Money is whole rupiah; undefined stays undefined. */
module Finance {
  import opened Options
  import opened Arithmetic

  datatype FinanceInput = FinanceInput(
    price: int,
    variableCost: int,
    fixedCost: int,
    investment: int,
    days: int,
    capacity: int,
    volumeMin: int,
    volumeBase: int,
    volumeMax: int)

  datatype Field = PriceField | VariableCostField | FixedCostField | InvestmentField
                 | CapacityField | DaysField | VolumeField

  datatype ScenarioName = Conservative | Base | Optimistic

  datatype Scenario = Scenario(
    name: ScenarioName,
    volume: int,
    units: int,
    revenue: int,
    profit: int,
    payback: Option<int>,
    exceedsCapacity: bool)

  datatype Warning =
    | SellingPriceZero
    | MarginZero
    | MarginNegative
    | BepAboveCapacity
    | VolumeZero
    | ProfitNotPositive(name: ScenarioName)
    | VolumeExceedsCapacity(name: ScenarioName)

  datatype FinanceResult = FinanceResult(
    margin: int,
    ratioBps: Option<int>,
    bepMonth: Option<int>,
    bepDay: Option<int>,
    bepRevenue: Option<int>,
    runway: Option<int>,
    scenarios: seq<Scenario>,
    warnings: seq<Warning>)
  {
    /** `scenario(name)`: the first of that name. */
    function ScenarioNamed(name: ScenarioName): Option<Scenario> {
      if |scenarios| > 0 && scenarios[0].name == name then Some(scenarios[0])
      else if |scenarios| > 1 && scenarios[1].name == name then Some(scenarios[1])
      else if |scenarios| > 2 && scenarios[2].name == name then Some(scenarios[2])
      else None
    }
  }

  datatype Outcome = Calculated(result: FinanceResult) | Invalid(fields: seq<Field>)

  function Reject(wrong: bool, field: Field): seq<Field> {
    if wrong then [field] else []
  }

  /** `_validate`: the fields that make a calculation meaningless. */
  function InvalidFields(v: FinanceInput): seq<Field> {
    Reject(v.price < 0, PriceField) + Reject(v.variableCost < 0, VariableCostField)
    + Reject(v.fixedCost < 0, FixedCostField) + Reject(v.investment < 0, InvestmentField)
    + Reject(v.capacity < 0, CapacityField) + Reject(!(1 <= v.days <= 31), DaysField)
    + Reject(!(0 <= v.volumeMin <= v.volumeBase <= v.volumeMax), VolumeField)
  }

  predicate Usable(v: FinanceInput) {
    && v.price >= 0 && v.variableCost >= 0 && v.fixedCost >= 0 && v.investment >= 0
    && v.capacity >= 0 && 1 <= v.days <= 31 && 0 <= v.volumeMin <= v.volumeBase <= v.volumeMax
  }

  function Margin(v: FinanceInput): int { v.price - v.variableCost }

  function RatioBps(v: FinanceInput): Option<int> {
    if v.price <= 0 then None else Some(RoundHalfUp(Margin(v) * 10_000, v.price))
  }

  function BepMonth(v: FinanceInput): Option<int> {
    if Margin(v) > 0 then Some(CeilDiv(v.fixedCost, Margin(v))) else None
  }

  function BepDay(v: FinanceInput): Option<int>
    requires v.days > 0
  {
    if Margin(v) > 0 then Some(CeilDiv(CeilDiv(v.fixedCost, Margin(v)), v.days)) else None
  }

  function BepRevenue(v: FinanceInput): Option<int> {
    if Margin(v) > 0 then Some(CeilDiv(v.fixedCost * v.price, Margin(v))) else None
  }

  function Runway(v: FinanceInput): Option<int> {
    if v.fixedCost > 0 then Some(v.investment / v.fixedCost) else None
  }

  function Profit(v: FinanceInput, volume: int): int {
    volume * v.days * Margin(v) - v.fixedCost
  }

  function Payback(v: FinanceInput, volume: int): Option<int> {
    if Profit(v, volume) > 0 then Some(CeilDiv(v.investment, Profit(v, volume))) else None
  }

  function ScenarioFor(v: FinanceInput, name: ScenarioName): Scenario {
    var volume := VolumeOf(v, name);
    Scenario(name, volume, volume * v.days, volume * v.days * v.price, Profit(v, volume),
             Payback(v, volume), volume > v.capacity)
  }

  function NameAt(k: nat): ScenarioName {
    if k == 0 then Conservative else if k == 1 then Base else Optimistic
  }

  function VolumeOf(v: FinanceInput, name: ScenarioName): int {
    match name
    case Conservative => v.volumeMin
    case Base => v.volumeBase
    case Optimistic => v.volumeMax
  }

  function Scenarios(v: FinanceInput, count: nat): seq<Scenario> {
    if count == 0 then [] else Scenarios(v, count - 1) + [ScenarioFor(v, NameAt(count - 1))]
  }

  function Warn(raised: bool, warning: Warning): seq<Warning> {
    if raised then [warning] else []
  }

  function UnitWarnings(v: FinanceInput): seq<Warning>
    requires v.days > 0
  {
    Warn(v.price == 0, SellingPriceZero)
    + Warn(Margin(v) == 0, MarginZero) + Warn(Margin(v) < 0, MarginNegative)
    + Warn(BepDay(v).Some? && BepDay(v).value > v.capacity, BepAboveCapacity)
    + Warn(v.volumeBase == 0, VolumeZero)
  }

  function ScenarioWarnings(v: FinanceInput, name: ScenarioName): seq<Warning> {
    Warn(Profit(v, VolumeOf(v, name)) <= 0, ProfitNotPositive(name))
    + Warn(VolumeOf(v, name) > v.capacity, VolumeExceedsCapacity(name))
  }

  function AllWarnings(v: FinanceInput, count: nat): seq<Warning>
    requires v.days > 0
  {
    if count == 0 then UnitWarnings(v)
    else AllWarnings(v, count - 1) + ScenarioWarnings(v, NameAt(count - 1))
  }

  const SCENARIOS: nat := 3

  function Calculation(v: FinanceInput): FinanceResult
    requires v.days > 0
  {
    FinanceResult(Margin(v), RatioBps(v), BepMonth(v), BepDay(v), BepRevenue(v), Runway(v),
                  Scenarios(v, SCENARIOS), AllWarnings(v, SCENARIOS))
  }

  /** `calculate_finance`: rejects exactly the unusable inputs, naming the fields. */
  method CalculateFinance(v: FinanceInput) returns (r: Outcome)
    ensures Usable(v) ==> r == Calculated(Calculation(v))
    ensures !Usable(v) ==> r == Invalid(InvalidFields(v)) && InvalidFields(v) != []
  {
    var fields := InvalidFields(v);
    if fields != [] { return Invalid(fields); }
    var margin := v.price - v.variableCost;
    var warnings: seq<Warning> := [];
    if v.price == 0 { warnings := warnings + [SellingPriceZero]; }
    var bepMonth: Option<int>, bepDay: Option<int>, bepRevenue: Option<int> := None, None, None;
    if margin > 0 {
      var units := CeilDiv(v.fixedCost, margin);
      bepMonth, bepDay := Some(units), Some(CeilDiv(units, v.days));
      bepRevenue := Some(CeilDiv(v.fixedCost * v.price, margin));
    } else if margin == 0 {
      warnings := warnings + [MarginZero];
    } else {
      warnings := warnings + [MarginNegative];
    }
    if bepDay.Some? && bepDay.value > v.capacity { warnings := warnings + [BepAboveCapacity]; }
    if v.volumeBase == 0 { warnings := warnings + [VolumeZero]; }
    var scenarios;
    scenarios, warnings := BuildScenarios(v, margin, warnings);
    var runway: Option<int> := None;
    if v.fixedCost > 0 { runway := Some(v.investment / v.fixedCost); }
    r := Calculated(FinanceResult(margin, RatioBps(v), bepMonth, bepDay, bepRevenue, runway, scenarios, warnings));
  }

  /** The scenario loop: each volume's figures, and its warnings after those so far. */
  method BuildScenarios(v: FinanceInput, margin: int, soFar: seq<Warning>)
    returns (scenarios: seq<Scenario>, warnings: seq<Warning>)
    requires v.days > 0 && margin == Margin(v) && soFar == UnitWarnings(v)
    ensures scenarios == Scenarios(v, SCENARIOS) && warnings == AllWarnings(v, SCENARIOS)
  {
    scenarios, warnings := [], soFar;
    for k := 0 to SCENARIOS
      invariant scenarios == Scenarios(v, k) && warnings == AllWarnings(v, k)
    {
      var scenario, raised := BuildScenario(v, margin, NameAt(k));
      warnings := warnings + raised;
      scenarios := scenarios + [scenario];
    }
  }

  method BuildScenario(v: FinanceInput, margin: int, name: ScenarioName) returns (s: Scenario, raised: seq<Warning>)
    requires v.days > 0 && margin == Margin(v)
    ensures s == ScenarioFor(v, name) && raised == ScenarioWarnings(v, name)
  {
    var volume := VolumeOf(v, name);
    var units := volume * v.days;
    var profit := units * margin - v.fixedCost;
    var payback: Option<int> := None;
    raised := [];
    if profit > 0 {
      payback := Some(CeilDiv(v.investment, profit));
    } else {
      raised := [ProfitNotPositive(name)];
    }
    if volume > v.capacity { raised := raised + [VolumeExceedsCapacity(name)]; }
    s := Scenario(name, volume, units, units * v.price, profit, payback, volume > v.capacity);
  }

  // ------------------------------------------------------------------- break-even

  /** A volume covers the fixed cost exactly when it reaches the daily break-even, which is
      one exact ceiling although the engine rounds up twice. */
  lemma BreakEvenExact(v: FinanceInput, volume: int)
    requires Usable(v) && Margin(v) > 0
    ensures Margin(v) * v.days > 0
    ensures BepDay(v) == Some(CeilDiv(v.fixedCost, Margin(v) * v.days))
    ensures Profit(v, volume) >= 0 <==> volume >= BepDay(v).value
  {
    var m, d := Margin(v), v.days;
    CeilDivNested(v.fixedCost, m, d);
    CeilDivAtMost(v.fixedCost, m * d, volume);
    MulAssociate(volume, d, m);
  }

  lemma MulAssociate(a: int, b: int, c: int)
    ensures a * b * c == a * (c * b)
  {
    assert b * c == c * b;
    MulSwap(a, b, c);
  }

  /** Break-even exists exactly for a positive margin; otherwise no volume ever earns, and no
      scenario has a payback. */
  lemma BreakEvenDefined(v: FinanceInput, volume: int)
    requires Usable(v) && volume >= 0
    ensures BepDay(v).Some? == BepMonth(v).Some? == BepRevenue(v).Some? == (Margin(v) > 0)
    ensures Margin(v) <= 0 ==> Profit(v, volume) <= 0 && Payback(v, volume).None?
  {
    if Margin(v) <= 0 {
      MulMonotone(0, volume, v.days);
      MulMonotone(Margin(v), 0, volume * v.days);
      assert volume * v.days * Margin(v) == Margin(v) * (volume * v.days);
    }
  }

  /** Rounding the break-even revenue loses less than one unit's price against the break-even
      units, and never asks for more revenue than they bring. */
  lemma BreakEvenRevenueBracket(v: FinanceInput)
    requires Usable(v) && Margin(v) > 0
    ensures (BepMonth(v).value - 1) * v.price < BepRevenue(v).value || v.price == 0
    ensures BepRevenue(v).value <= BepMonth(v).value * v.price
  {
    var m, f, p := Margin(v), v.fixedCost, v.price;
    var units := CeilDiv(f, m);
    CeilDivAtMost(f, m, units);
    CeilDivAtMost(f, m, units - 1);
    MulMonotone(f, units * m, p);
    assert (units * m) * p == (units * p) * m by { MulRotate(units, m, p); }
    CeilDivAtMost(f * p, m, units * p);
    if p > 0 {
      var less := units - 1;
      assert less * m < f;
      MulStrict(less * m, f, p);
      assert (less * m) * p == (less * p) * m by { MulRotate(less, m, p); }
      CeilDivAtMost(f * p, m, less * p);
    }
  }

  lemma MulRotate(a: int, b: int, c: int)
    ensures (a * b) * c == (a * c) * b
  {
    MulSwap(a, b, c);
    MulSwap(a, c, b);
    assert b * c == c * b;
  }

  lemma MulStrict(a: int, b: int, c: int)
    requires a < b && c > 0
    ensures a * c < b * c
  {
    MulMonotone(a + 1, b, c);
    assert (a + 1) * c == a * c + c;
  }

  /** The capacity warning is raised exactly when running at the full planned capacity on
      every operating day would still lose money. */
  lemma CapacityWarningExact(v: FinanceInput)
    requires Usable(v)
    ensures BepAboveCapacity in Calculation(v).warnings
            <==> Margin(v) > 0 && Profit(v, v.capacity) < 0
  {
    if Margin(v) > 0 { BreakEvenExact(v, v.capacity); }
    WarningsSplit(v, BepAboveCapacity);
  }

  lemma WarningsSplit(v: FinanceInput, w: Warning)
    requires v.days > 0
    ensures w in AllWarnings(v, SCENARIOS)
            <==> w in UnitWarnings(v) || w in ScenarioWarnings(v, Conservative)
                 || w in ScenarioWarnings(v, Base) || w in ScenarioWarnings(v, Optimistic)
  {
    assert AllWarnings(v, 1) == UnitWarnings(v) + ScenarioWarnings(v, Conservative);
    assert AllWarnings(v, 2) == AllWarnings(v, 1) + ScenarioWarnings(v, Base);
    assert AllWarnings(v, 3) == AllWarnings(v, 2) + ScenarioWarnings(v, Optimistic);
  }

  lemma WarningNamesItsScenario(v: FinanceInput, own: ScenarioName, name: ScenarioName)
    ensures ProfitNotPositive(name) in ScenarioWarnings(v, own)
            <==> own == name && Profit(v, VolumeOf(v, name)) <= 0
  {
  }

  /** A scenario lacks a payback exactly when the result warns about it. */
  lemma PaybackWarningExact(v: FinanceInput, name: ScenarioName)
    requires Usable(v)
    ensures ProfitNotPositive(name) in Calculation(v).warnings <==> ScenarioFor(v, name).payback.None?
  {
    WarningsSplit(v, ProfitNotPositive(name));
    WarningNamesItsScenario(v, Conservative, name);
    WarningNamesItsScenario(v, Base, name);
    WarningNamesItsScenario(v, Optimistic, name);
    NotAUnitWarning(v, name);
  }

  lemma NotAUnitWarning(v: FinanceInput, name: ScenarioName)
    requires v.days > 0
    ensures ProfitNotPositive(name) !in UnitWarnings(v)
  {
  }

  // ---------------------------------------------------------------------- payback

  /** The payback is the least number of months whose profit covers the investment. */
  lemma PaybackIsLeast(v: FinanceInput, volume: int, months: int)
    requires Usable(v) && Payback(v, volume).Some?
    ensures months >= Payback(v, volume).value <==> months * Profit(v, volume) >= v.investment
    ensures Payback(v, volume).value >= 0
  {
    CeilDivAtMost(v.investment, Profit(v, volume), months);
    CeilDivAtMost(v.investment, Profit(v, volume), -1);
    assert -1 * Profit(v, volume) < 0;
  }

  /** The runway is the greatest number of months of fixed cost the investment covers. */
  lemma RunwayIsGreatest(v: FinanceInput, months: int)
    requires Usable(v) && v.fixedCost > 0
    ensures Runway(v).Some? && (months <= Runway(v).value <==> months * v.fixedCost <= v.investment)
  {
    DivAtLeast(v.investment, v.fixedCost, months);
  }

  /** The ratio in basis points is the nearest whole number, and a tie goes away from zero. */
  lemma RatioIsNearest(v: FinanceInput)
    requires Usable(v) && v.price > 0
    ensures var exact, shown := Margin(v) * 10_000, RatioBps(v).value * v.price;
            if Margin(v) >= 0 then 2 * exact - v.price < 2 * shown <= 2 * exact + v.price
            else 2 * exact - v.price <= 2 * shown < 2 * exact + v.price
  {
    RoundHalfUpNearest(Margin(v) * 10_000, v.price);
  }

  lemma ProfitMonotone(v: FinanceInput, low: int, high: int)
    requires v.days > 0 && low <= high && Margin(v) >= 0
    ensures Profit(v, low) <= Profit(v, high)
  {
    MulMonotone(low, high, v.days);
    MulMonotone(low * v.days, high * v.days, Margin(v));
  }

  lemma CeilDivAntitone(n: int, d: int, e: int)
    requires n >= 0 && 0 < d <= e
    ensures CeilDiv(n, e) <= CeilDiv(n, d)
  {
    var q := CeilDiv(n, d);
    CeilDivAtMost(n, d, q);
    CeilDivAtMost(n, d, -1);
    assert q >= 0;
    MulMonotone(d, e, q);
    assert q * d <= q * e;
    CeilDivAtMost(n, e, q);
  }

  /** With a non-negative margin a higher volume never earns less, never loses a defined
      payback and never takes longer to pay back. */
  lemma HigherVolumeNeverWorse(v: FinanceInput, low: int, high: int)
    requires Usable(v) && low <= high && Margin(v) >= 0
    ensures Profit(v, low) <= Profit(v, high)
    ensures Payback(v, low).Some? ==>
              Payback(v, high).Some? && Payback(v, high).value <= Payback(v, low).value
  {
    ProfitMonotone(v, low, high);
    if Payback(v, low).Some? {
      CeilDivAntitone(v.investment, Profit(v, low), Profit(v, high));
    }
  }

  lemma ScenariosAre(v: FinanceInput)
    ensures Scenarios(v, SCENARIOS)
            == [ScenarioFor(v, Conservative), ScenarioFor(v, Base), ScenarioFor(v, Optimistic)]
  {
    assert Scenarios(v, 0) == [];
    assert Scenarios(v, 1) == [ScenarioFor(v, Conservative)];
    assert Scenarios(v, 2) == [ScenarioFor(v, Conservative), ScenarioFor(v, Base)];
  }

  /** From conservative to optimistic, profit and payback only improve. */
  lemma ScenariosAreOrdered(v: FinanceInput)
    requires Usable(v) && Margin(v) >= 0
    ensures |Calculation(v).scenarios| == SCENARIOS
    ensures forall i, j :: 0 <= i <= j < SCENARIOS ==>
              var low, high := Calculation(v).scenarios[i], Calculation(v).scenarios[j];
              && low.profit <= high.profit && low.revenue <= high.revenue
              && (low.payback.Some? ==> high.payback.Some? && high.payback.value <= low.payback.value)
  {
    ScenariosAre(v);
    forall i, j | 0 <= i <= j < SCENARIOS
      ensures var low, high := Calculation(v).scenarios[i], Calculation(v).scenarios[j];
              && low.profit <= high.profit && low.revenue <= high.revenue
              && (low.payback.Some? ==> high.payback.Some? && high.payback.value <= low.payback.value)
    {
      var a, b := VolumeOf(v, NameAt(i)), VolumeOf(v, NameAt(j));
      HigherVolumeNeverWorse(v, a, b);
      MulMonotone(a, b, v.days);
      MulMonotone(a * v.days, b * v.days, v.price);
    }
  }

  // ----------------------------------------------------------------- the agents' tool

  datatype ToolOutput = ToolOutput(margin: int, bepMonth: Option<int>, revenue: int, profit: int, payback: Option<int>)
  datatype ToolCall = ToolCall(volume: int, output: ToolOutput)

  function Clamp(v: FinanceInput, requested: int): int {
    var low := if requested < v.volumeMax then requested else v.volumeMax;
    if low > v.volumeMin then low else v.volumeMin
  }

  /** `_finance_tool_for`: the calculator rerun with all three volumes set to the clamped
      request, reported from its base scenario. */
  method FinanceTool(v: FinanceInput, requested: int) returns (call: ToolCall)
    requires Usable(v)
    ensures call.volume == Clamp(v, requested)
    ensures call.output == ToolOutput(Margin(v), BepMonth(v), call.volume * v.days * v.price,
                                      Profit(v, call.volume), Payback(v, call.volume))
  {
    var chosen := Clamp(v, requested);
    var scoped := v.(volumeMin := chosen, volumeBase := chosen, volumeMax := chosen);
    var outcome := CalculateFinance(scoped);
    ScenariosAre(scoped);
    var base := outcome.result.ScenarioNamed(Base).value;
    call := ToolCall(chosen, ToolOutput(outcome.result.margin, outcome.result.bepMonth, base.revenue,
                                        base.profit, base.payback));
  }

  /** The three calls the orchestrator makes for the council. */
  method RunFinanceTool(v: FinanceInput) returns (calls: seq<ToolCall>)
    requires Usable(v)
    ensures |calls| == SCENARIOS
    ensures forall k :: 0 <= k < SCENARIOS ==> AgreesWith(calls[k], Calculation(v), k)
  {
    calls := [];
    ScenariosAre(v);
    for k := 0 to SCENARIOS
      invariant |calls| == k && forall i :: 0 <= i < k ==> AgreesWith(calls[i], Calculation(v), i)
    {
      var call := FinanceTool(v, VolumeOf(v, NameAt(k)));
      calls := calls + [call];
    }
  }

  /** A tool call shows the council exactly the figures of the report's scenario. */
  predicate AgreesWith(call: ToolCall, result: FinanceResult, k: nat) {
    k < |result.scenarios|
    && var scenario := result.scenarios[k];
    call == ToolCall(scenario.volume, ToolOutput(result.margin, result.bepMonth, scenario.revenue,
                                                 scenario.profit, scenario.payback))
  }

  /** No request widens the range the user gave, and with a non-negative margin its profit lies
      between the conservative and the optimistic one. */
  lemma ToolStaysInRange(v: FinanceInput, requested: int)
    requires Usable(v)
    ensures v.volumeMin <= Clamp(v, requested) <= v.volumeMax
    ensures v.volumeMin <= requested <= v.volumeMax ==> Clamp(v, requested) == requested
    ensures Margin(v) >= 0 ==>
              Profit(v, v.volumeMin) <= Profit(v, Clamp(v, requested)) <= Profit(v, v.volumeMax)
    ensures Margin(v) <= 0 ==>
              Profit(v, v.volumeMax) <= Profit(v, Clamp(v, requested)) <= Profit(v, v.volumeMin)
  {
    var chosen := Clamp(v, requested);
    if Margin(v) >= 0 {
      ProfitMonotone(v, v.volumeMin, chosen);
      ProfitMonotone(v, chosen, v.volumeMax);
    }
    if Margin(v) <= 0 {
      ProfitAntitone(v, v.volumeMin, chosen);
      ProfitAntitone(v, chosen, v.volumeMax);
    }
  }

  /** A loss on every unit grows with the volume. */
  lemma ProfitAntitone(v: FinanceInput, low: int, high: int)
    requires v.days > 0 && low <= high && Margin(v) <= 0
    ensures Profit(v, high) <= Profit(v, low)
  {
    MulMonotone(low, high, v.days);
    MulMonotone(low * v.days, high * v.days, -Margin(v));
    assert low * v.days * -Margin(v) == -(low * v.days * Margin(v));
    assert high * v.days * -Margin(v) == -(high * v.days * Margin(v));
  }
}
