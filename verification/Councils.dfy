/** The agent boundary: roles, artifacts, the cohort and its roster, and the checks a
    council's output must pass. An agent is its roster index: agent names are distinct. */
module Councils {
  import opened Options
  import opened Reducers

  datatype Role = MarketAnalyst | CustomerPersona | FinanceCouncil | ReportCouncil

  const COUNCILS: nat := 4

  /** `AGENT_ROLES`, by position. */
  function RoleAt(k: nat): Role {
    if k == 0 then MarketAnalyst else if k == 1 then CustomerPersona
    else if k == 2 then FinanceCouncil else ReportCouncil
  }

  datatype ArtifactType = MarketAssessment | CustomerSimulationResult | FinanceReview | ReportNarrative

  function TypeOf(role: Role): ArtifactType {
    match role
    case MarketAnalyst => MarketAssessment
    case CustomerPersona => CustomerSimulationResult
    case FinanceCouncil => FinanceReview
    case ReportCouncil => ReportNarrative
  }

  /** The artifacts a council may be handed. */
  function UpstreamFor(role: Role): seq<ArtifactType> {
    if role == ReportCouncil then [MarketAssessment, CustomerSimulationResult, FinanceReview] else []
  }

  datatype Stance = Opportunity | Risk | Uncertainty
  datatype Observation = Observation(id: int, stance: Stance, metrics: seq<int>, claim: Text)
  datatype Critique = Critique(id: int, toolCallIds: seq<int>, words: Text)
  datatype Section = Section(id: int, title: Text, body: Text, sources: seq<ArtifactType>)

  datatype Artifact =
    | Assessment(observations: seq<Observation>)
    | Simulated(result: SimulationResult)
    | Review(toolCalls: seq<int>, critiques: seq<Critique>, fragile: seq<Text>)
    | Narrative(sections: seq<Section>, redTeam: seq<Text>)
  {
    function Type(): ArtifactType {
      match this
      case Assessment(_) => MarketAssessment
      case Simulated(_) => CustomerSimulationResult
      case Review(_, _, _) => FinanceReview
      case Narrative(_, _) => ReportNarrative
    }
  }

  /** A JSON object, by what the fields of each schema read in it; `None` is a schema error. */
  datatype Json = Json(
    observations: Option<seq<Observation>>,
    critiques: Option<seq<Critique>>,
    fragile: seq<Text>,
    sections: Option<seq<Section>>,
    redTeam: seq<Text>,
    ballot: Option<Ballot>)

  /** One ballot entry after its identity was overwritten. */
  datatype Entry = Entry(agent: nat, ballot: Option<Ballot>)

  datatype Payload =
    | Object(json: Json)
    | Ballots(baseline: seq<Entry>, final: seq<Entry>, reactions: map<int, int>, exposed: nat, rounds: nat)

  datatype Member = Member(role: Role, archetype: int)

  datatype Request = Request(roster: seq<Member>, metrics: seq<int>, cohortSize: nat, roundLimit: nat)

  // ------------------------------------------------------------- cohort and roster

  const ARCHETYPES: nat := 4

  /** `build_cohort_manifest`: one more for each of the first `size % 4` archetypes. */
  function Allocation(size: nat): seq<nat> {
    seq(ARCHETYPES, i => size / ARCHETYPES + if i < size % ARCHETYPES then 1 else 0)
  }

  function Repeat(member: Member, count: nat): (r: seq<Member>)
    ensures |r| == count && forall i :: 0 <= i < count ==> r[i] == member
  {
    seq(count, _ => member)
  }

  /** `persona_council`: the members of each archetype, in allocation order. */
  function PersonaCouncil(allocation: seq<nat>, first: int): seq<Member> {
    if allocation == [] then []
    else Repeat(Member(CustomerPersona, first), allocation[0]) + PersonaCouncil(allocation[1..], first + 1)
  }

  function FixedCouncil(role: Role, size: nat): seq<Member> { Repeat(Member(role, 0), size) }

  function BuildRoster(cohort: nat, market: nat, finance: nat, report: nat): seq<Member> {
    FixedCouncil(MarketAnalyst, market) + PersonaCouncil(Allocation(cohort), 0)
    + FixedCouncil(FinanceCouncil, finance) + FixedCouncil(ReportCouncil, report)
  }

  /** `_indices_for`. */
  function IndicesFor(roster: seq<Member>, role: Role): (r: seq<nat>)
    ensures forall k :: 0 <= k < |r| ==> r[k] < |roster| && roster[r[k]].role == role
    ensures forall i :: 0 <= i < |roster| && roster[i].role == role ==> i in r
    ensures Distinct(r) && |r| <= |roster|
  {
    if roster == [] then []
    else
      var last := |roster| - 1;
      var front := IndicesFor(roster[..last], role);
      if roster[last].role == role then front + [last] else front
  }

  predicate Distinct(s: seq<nat>) {
    forall i, j :: 0 <= i < j < |s| ==> s[i] != s[j]
  }

  lemma IndicesNext(members: seq<Member>, member: Member, role: Role)
    ensures |IndicesFor(members + [member], role)|
            == |IndicesFor(members, role)| + if member.role == role then 1 else 0
  {
    assert (members + [member])[..|members|] == members;
  }

  lemma {:induction false} IndicesAppend(a: seq<Member>, b: seq<Member>, role: Role)
    ensures |IndicesFor(a + b, role)| == |IndicesFor(a, role)| + |IndicesFor(b, role)|
  {
    if b == [] {
      assert a + b == a;
    } else {
      var front, last := b[..|b| - 1], b[|b| - 1];
      IndicesAppend(a, front, role);
      IndicesNext(a + front, last, role);
      IndicesNext(front, last, role);
      assert front + [last] == b && a + front + [last] == a + b;
    }
  }

  lemma {:induction false} IndicesUniform(members: seq<Member>, own: Role, role: Role)
    requires forall i :: 0 <= i < |members| ==> members[i].role == own
    ensures |IndicesFor(members, role)| == if own == role then |members| else 0
  {
    if members != [] { IndicesUniform(members[..|members| - 1], own, role); }
  }

  function Sum(counts: seq<nat>): nat {
    if counts == [] then 0 else counts[0] + Sum(counts[1..])
  }

  lemma {:induction false} PersonaCouncilSize(allocation: seq<nat>, first: int)
    ensures |PersonaCouncil(allocation, first)| == Sum(allocation)
    ensures forall i :: 0 <= i < |PersonaCouncil(allocation, first)| ==>
              PersonaCouncil(allocation, first)[i].role == CustomerPersona
  {
    if allocation != [] { PersonaCouncilSize(allocation[1..], first + 1); }
  }

  /** The cohort is split evenly: every persona is allocated, no two archetypes differ by
      more than one, and earlier archetypes are never smaller. */
  lemma AllocationIsFair(size: nat)
    ensures |Allocation(size)| == ARCHETYPES && Sum(Allocation(size)) == size
    ensures forall i, j :: 0 <= i <= j < ARCHETYPES ==>
              Allocation(size)[j] <= Allocation(size)[i] <= Allocation(size)[j] + 1
  {
    var a := Allocation(size);
    assert a == [a[0]] + [a[1]] + [a[2]] + [a[3]];
    assert a[1..][1..] == a[2..] && a[2..][1..] == a[3..] && a[3..][1..] == [];
    assert Sum(a) == a[0] + (a[1] + (a[2] + (a[3] + 0))) by {
      assert Sum(a[3..]) == a[3] && Sum(a[2..]) == a[2] + Sum(a[3..]) && Sum(a[1..]) == a[1] + Sum(a[2..]);
    }
  }

  /** The roster holds exactly one persona for each member of the cohort. */
  lemma RosterHoldsCohort(cohort: nat, market: nat, finance: nat, report: nat)
    ensures |IndicesFor(BuildRoster(cohort, market, finance, report), CustomerPersona)| == cohort
  {
    var personas := PersonaCouncil(Allocation(cohort), 0);
    var a, c, d := FixedCouncil(MarketAnalyst, market), FixedCouncil(FinanceCouncil, finance),
                   FixedCouncil(ReportCouncil, report);
    AllocationIsFair(cohort);
    PersonaCouncilSize(Allocation(cohort), 0);
    IndicesUniform(personas, CustomerPersona, CustomerPersona);
    IndicesUniform(a, MarketAnalyst, CustomerPersona);
    IndicesUniform(c, FinanceCouncil, CustomerPersona);
    IndicesUniform(d, ReportCouncil, CustomerPersona);
    IndicesAppend(a, personas, CustomerPersona);
    IndicesAppend(a + personas, c, CustomerPersona);
    IndicesAppend(a + personas + c, d, CustomerPersona);
  }

  // -------------------------------------------------------------- payload validation

  /** `require_support`: only an uncertainty may stand without evidence. */
  predicate Supported(observations: seq<Observation>) {
    forall i :: 0 <= i < |observations| ==>
      observations[i].stance == Uncertainty || observations[i].metrics != []
  }

  predicate Cites(observations: seq<Observation>, metric: int) {
    exists i :: 0 <= i < |observations| && metric in observations[i].metrics
  }

  ghost predicate NothingInvented(observations: seq<Observation>, available: seq<int>) {
    forall metric :: Cites(observations, metric) ==> metric in available
  }

  predicate AllKnown(observations: seq<Observation>, available: seq<int>) {
    forall i :: 0 <= i < |observations| ==>
      forall j :: 0 <= j < |observations[i].metrics| ==> observations[i].metrics[j] in available
  }

  lemma AllKnownMeans(observations: seq<Observation>, available: seq<int>)
    ensures AllKnown(observations, available) <==> NothingInvented(observations, available)
  {
    if NothingInvented(observations, available) {
      forall i, j | 0 <= i < |observations| && 0 <= j < |observations[i].metrics|
        ensures observations[i].metrics[j] in available
      {
        assert Cites(observations, observations[i].metrics[j]);
      }
    }
    if AllKnown(observations, available) {
      forall metric | Cites(observations, metric) ensures metric in available {
        var i :| 0 <= i < |observations| && metric in observations[i].metrics;
        var j :| 0 <= j < |observations[i].metrics| && observations[i].metrics[j] == metric;
      }
    }
  }

  /** `unsupported_evidence_metrics`: each invented metric, once. */
  method UnsupportedMetrics(observations: seq<Observation>, available: seq<int>) returns (cited: seq<int>)
    ensures forall metric :: metric in cited <==> Cites(observations, metric) && metric !in available
    ensures forall i, j :: 0 <= i < j < |cited| ==> cited[i] != cited[j]
    ensures cited == [] <==> AllKnown(observations, available)
  {
    cited := [];
    for n := 0 to |observations|
      invariant forall metric :: metric in cited <==> Cites(observations[..n], metric) && metric !in available
      invariant forall i, j :: 0 <= i < j < |cited| ==> cited[i] != cited[j]
    {
      var metrics := observations[n].metrics;
      for k := 0 to |metrics|
        invariant forall metric ::
            metric in cited <==> (Cites(observations[..n], metric) || metric in metrics[..k]) && metric !in available
        invariant forall i, j :: 0 <= i < j < |cited| ==> cited[i] != cited[j]
      {
        if metrics[k] !in available && metrics[k] !in cited { cited := cited + [metrics[k]]; }
      }
      CitesNext(observations, n);
      assert metrics[..|metrics|] == metrics;
    }
    assert observations[..|observations|] == observations;
    AllKnownMeans(observations, available);
    if cited == [] {
      forall metric | Cites(observations, metric) ensures metric in available { assert metric !in cited; }
      assert NothingInvented(observations, available);
    } else {
      assert Cites(observations, cited[0]) && cited[0] !in available;
      assert !NothingInvented(observations, available);
    }
  }

  lemma CitesNext(observations: seq<Observation>, n: nat)
    requires n < |observations|
    ensures forall metric :: Cites(observations[..n + 1], metric)
                             <==> Cites(observations[..n], metric) || metric in observations[n].metrics
  {
    var a, b := observations[..n], observations[..n + 1];
    assert b == a + [observations[n]];
    forall metric | Cites(a, metric) || metric in observations[n].metrics ensures Cites(b, metric) {
      if metric in observations[n].metrics {
        assert b[n] == observations[n];
      } else {
        var i :| 0 <= i < |a| && metric in a[i].metrics;
        assert b[i] == a[i];
      }
    }
  }

  predicate KnownToolCalls(critiques: seq<Critique>, toolCalls: seq<int>) {
    forall i :: 0 <= i < |critiques| ==>
      forall j :: 0 <= j < |critiques[i].toolCallIds| ==> critiques[i].toolCallIds[j] in toolCalls
  }

  /** A critique names the tool call it rests on, a section the artifacts it was drawn from. */
  predicate CritiquesCite(critiques: seq<Critique>) {
    forall i :: 0 <= i < |critiques| ==> critiques[i].toolCallIds != []
  }

  predicate SectionsCite(sections: seq<Section>) {
    forall i :: 0 <= i < |sections| ==> sections[i].sources != []
  }

  /** What every schema requires of an artifact, whatever the request was. */
  predicate WellMade(artifact: Artifact) {
    match artifact
    case Assessment(observations) => Supported(observations)
    case Simulated(result) => Accepted(result)
    case Review(_, critiques, _) => CritiquesCite(critiques)
    case Narrative(sections, _) => SectionsCite(sections)
  }

  predicate WellFormed(entries: seq<Entry>) {
    forall i :: 0 <= i < |entries| ==> entries[i].ballot.Some? && entries[i].ballot.value.Valid()
  }

  function BallotsOf(entries: seq<Entry>): (r: seq<Ballot>)
    requires WellFormed(entries)
    ensures |r| == |entries| && forall i :: 0 <= i < |r| ==> r[i] == entries[i].ballot.value
  {
    seq(|entries|, i requires 0 <= i < |entries| => entries[i].ballot.value)
  }

  const MAX_QUOTES: nat := 4

  /** `validate_council_payload`; `None` stands for the error that rejects the artifact. */
  function Validate(role: Role, payload: Payload, request: Request, toolCalls: seq<int>): Option<Artifact> {
    match payload
    case Object(json) => (
      match role
      case MarketAnalyst =>
        if json.observations.Some? && Supported(json.observations.value)
           && AllKnown(json.observations.value, request.metrics)
        then Some(Assessment(json.observations.value)) else None
      case FinanceCouncil =>
        if toolCalls != [] && json.critiques.Some? && CritiquesCite(json.critiques.value)
           && KnownToolCalls(json.critiques.value, toolCalls)
        then Some(Review(toolCalls, json.critiques.value, json.fragile)) else None
      case ReportCouncil =>
        if json.sections.Some? && SectionsCite(json.sections.value)
        then Some(Narrative(json.sections.value, json.redTeam)) else None
      case CustomerPersona => None)
    case Ballots(baseline, final, reactions, exposed, rounds) =>
      if role != CustomerPersona || final == [] || !WellFormed(final) || !WellFormed(baseline) then None
      else
        var result := Reduced(payload, request.cohortSize);
        if result.Some? then Some(Simulated(result.value)) else None
  }

  function Reduced(payload: Payload, cohortSize: nat): Option<SimulationResult>
    requires payload.Ballots? && WellFormed(payload.final) && WellFormed(payload.baseline)
  {
    ReduceBallots(BallotsOf(payload.final), cohortSize, payload.rounds, BallotsOf(payload.baseline),
                  payload.reactions, payload.exposed == cohortSize, MAX_QUOTES)
  }

  lemma ReducedExactly(payload: Payload, cohortSize: nat)
    requires payload.Ballots? && WellFormed(payload.final) && WellFormed(payload.baseline) && payload.final != []
    ensures Reduced(payload, cohortSize).Some? <==> |payload.final| <= cohortSize && payload.rounds >= 1
  {
    AcceptedExactly(BallotsOf(payload.final), cohortSize, payload.rounds, BallotsOf(payload.baseline),
                    payload.reactions, payload.exposed == cohortSize, MAX_QUOTES);
  }

  /** No council artifact cites evidence or a calculation that does not exist or leaves out
      what its schema makes it cite, and each is of the council's own type. */
  lemma ArtifactsAreGrounded(role: Role, payload: Payload, request: Request, toolCalls: seq<int>)
    ensures var artifact := Validate(role, payload, request, toolCalls);
      artifact.Some? ==>
        && artifact.value.Type() == TypeOf(role) && WellMade(artifact.value)
        && (artifact.value.Assessment? ==> NothingInvented(artifact.value.observations, request.metrics))
        && (artifact.value.Review? ==>
              artifact.value.toolCalls == toolCalls && KnownToolCalls(artifact.value.critiques, toolCalls))
        && (artifact.value.Simulated? ==> Accepted(artifact.value.result))
  {
    if payload.Object? && payload.json.observations.Some? {
      AllKnownMeans(payload.json.observations.value, request.metrics);
    }
  }

  /** The persona payload is rejected only for an empty final round, a malformed ballot or more
      ballots than the cohort: none of the reducer's other bounds can fail. */
  lemma BallotsAcceptedExactly(payload: Payload, request: Request, toolCalls: seq<int>)
    requires payload.Ballots?
    ensures Validate(CustomerPersona, payload, request, toolCalls).Some?
            <==> && payload.final != [] && WellFormed(payload.final) && WellFormed(payload.baseline)
                 && |payload.final| <= request.cohortSize && payload.rounds >= 1
  {
    if payload.final != [] && WellFormed(payload.final) && WellFormed(payload.baseline) {
      ReducedExactly(payload, request.cohortSize);
    }
  }
}
