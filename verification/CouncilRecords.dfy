/** What a simulation records, and what its replies mean: the functions the orchestrator's
    loops are proved against. */
module CouncilRecords {
  import opened Options
  import opened Reducers
  import opened Councils

  /** One reply: its JSON object, if it holds one, and its cost. */
  datatype Answer = Raised | Answer(json: Option<Json>, tokens: int)
  {
    function Cost(): int { if Raised? then 0 else tokens }
    predicate Parsed() { Answer? && json.Some? }
  }

  /** One observed social action; a like is the only positive one. */
  datatype Action = Action(agent: int, liked: bool, observed: bool, tokens: int)

  datatype RoundKind = BaselineInterview | Exposure | Interaction | Intervention | FinalBallot

  const PLANNED_ROUNDS: nat := 4

  /** `ROUND_PLAN`, by round index. */
  function KindAt(k: nat): RoundKind {
    if k == 0 then BaselineInterview else if k == 1 then Exposure
    else if k == 2 then Interaction else Intervention
  }

  /** `rounds_for`: how many rounds of the plan are played. */
  function RoundsFor(roundLimit: nat): nat {
    if roundLimit < PLANNED_ROUNDS then roundLimit else PLANNED_ROUNDS
  }

  datatype Round = Round(index: nat, kind: RoundKind, activated: seq<nat>, exposed: seq<int>)
  datatype Instance = Instance(agent: nat, position: nat, tokens: int, completed: bool)

  datatype Record = Record(
    role: Role,
    completed: bool,
    instances: seq<Instance>,
    totalTokens: int,
    schemaFailures: nat,
    artifact: Option<Artifact>,
    consumed: seq<ArtifactType>,
    rounds: seq<Round>)

  /** What a council hands to `finish_run`. */
  datatype Work = Work(
    role: Role,
    payload: Option<Payload>,
    instances: seq<Instance>,
    totalTokens: int,
    failures: nat,
    consumed: seq<ArtifactType>,
    rounds: seq<Round>)

  /** `finish_run`: an absent or rejected payload fails the council and counts once more. */
  function FinishRun(work: Work, request: Request, toolCalls: seq<int>): Record {
    var artifact := if work.payload.None? then None
                    else Validate(work.role, work.payload.value, request, toolCalls);
    Record(work.role, artifact.Some?, work.instances, work.totalTokens,
           if artifact.Some? then work.failures else work.failures + 1, artifact, work.consumed, work.rounds)
  }

  function SumInstances(instances: seq<Instance>): int {
    if instances == [] then 0
    else SumInstances(instances[..|instances| - 1]) + instances[|instances| - 1].tokens
  }

  function SumTotals(records: seq<Record>): int {
    if records == [] then 0
    else SumTotals(records[..|records| - 1]) + records[|records| - 1].totalTokens
  }

  // ----------------------------------------------------------------------- replies

  predicate AllAnswered(heard: seq<Answer>) {
    forall i :: 0 <= i < |heard| ==> heard[i].Answer?
  }

  function Spent(heard: seq<Answer>): int {
    if heard == [] then 0 else Spent(heard[..|heard| - 1]) + heard[|heard| - 1].Cost()
  }

  function Unparsed(heard: seq<Answer>): nat {
    if heard == [] then 0
    else Unparsed(heard[..|heard| - 1]) + if heard[|heard| - 1].Parsed() then 0 else 1
  }

  /** The last member's object that parsed is the council's draft. */
  function LastDraft(heard: seq<Answer>): Option<Json> {
    if heard == [] then None
    else
      var last := heard[|heard| - 1];
      if last.Parsed() then last.json else LastDraft(heard[..|heard| - 1])
  }

  function Spoken(indices: seq<nat>, heard: seq<Answer>): seq<Instance>
    requires |indices| == |heard|
  {
    seq(|heard|, i requires 0 <= i < |heard| =>
      Instance(indices[i], i, heard[i].Cost(), heard[i].Parsed()))
  }

  function DeliberationWork(role: Role, indices: seq<nat>, heard: seq<Answer>, consumed: seq<ArtifactType>): Work
    requires |heard| == |indices|
  {
    var draft := LastDraft(heard);
    Work(role, if draft.None? then None else Some(Object(draft.value)),
         Spoken(indices, heard), Spent(heard), Unparsed(heard), consumed, [])
  }

  lemma {:induction false} SpokenSums(indices: seq<nat>, heard: seq<Answer>)
    requires |indices| == |heard|
    ensures SumInstances(Spoken(indices, heard)) == Spent(heard)
  {
    if heard != [] {
      var n := |heard| - 1;
      SpokenSums(indices[..n], heard[..n]);
      assert Spoken(indices, heard)[..n] == Spoken(indices[..n], heard[..n]);
    }
  }

  // ----------------------------------------------------------------------- ballots

  /** Identity and archetype come from the roster, never from the reply. */
  function EntryOf(roster: seq<Member>, index: nat, json: Json): Entry
    requires index < |roster|
  {
    Entry(index, if json.ballot.None? then None
                 else Some(json.ballot.value.(agentId := index, archetype := roster[index].archetype)))
  }

  predicate InRoster(order: seq<nat>, roster: seq<Member>) {
    forall i :: 0 <= i < |order| ==> order[i] < |roster|
  }

  function EntriesFrom(roster: seq<Member>, order: seq<nat>, heard: seq<Answer>): (r: seq<Entry>)
    requires |order| == |heard| && InRoster(order, roster)
    ensures |r| <= |order|
    ensures |r| + Unparsed(heard) == |order|
  {
    if heard == [] then []
    else
      var n := |heard| - 1;
      EntriesFrom(roster, order[..n], heard[..n])
      + if heard[n].Parsed() then [EntryOf(roster, order[n], heard[n].json.value)] else []
  }

  predicate Voted(entries: seq<Entry>, agent: nat) {
    exists i :: 0 <= i < |entries| && entries[i].agent == agent
  }

  /** An agent has an entry exactly when its own reply parsed. */
  lemma {:induction false} VotedExactly(roster: seq<Member>, order: seq<nat>, heard: seq<Answer>)
    requires |order| == |heard| && InRoster(order, roster) && Distinct(order)
    ensures forall i :: 0 <= i < |order| ==>
              (Voted(EntriesFrom(roster, order, heard), order[i]) <==> heard[i].Parsed())
    ensures forall k :: 0 <= k < |EntriesFrom(roster, order, heard)| ==>
              EntriesFrom(roster, order, heard)[k].agent in order
  {
    if heard != [] {
      var n := |heard| - 1;
      var front, all := EntriesFrom(roster, order[..n], heard[..n]), EntriesFrom(roster, order, heard);
      VotedExactly(roster, order[..n], heard[..n]);
      forall k | 0 <= k < |all| ensures all[k].agent in order {
        if k < |front| { assert all[k] == front[k] && front[k].agent in order[..n]; }
      }
      forall i | 0 <= i < |order| ensures Voted(all, order[i]) <==> heard[i].Parsed() {
        if i < n {
          assert order[..n][i] == order[i];
          if k :| 0 <= k < |front| && front[k].agent == order[i] { assert all[k] == front[k]; }
          if k :| 0 <= k < |all| && all[k].agent == order[i] { assert k < |front|; assert front[k] == all[k]; }
        } else {
          if heard[n].Parsed() { assert all[|front|].agent == order[n]; }
          if k :| 0 <= k < |front| && front[k].agent == order[n] { assert front[k].agent in order[..n]; }
        }
      }
    }
  }

  // ------------------------------------------------------------------ social rounds

  function StepTotal(taken: seq<Action>): int {
    if taken == [] then 0 else StepTotal(taken[..|taken| - 1]) + taken[|taken| - 1].tokens
  }

  /** What one agent spent in a round. */
  function TokensIn(taken: seq<Action>, agent: int): int {
    if taken == [] then 0
    else
      var last := taken[|taken| - 1];
      TokensIn(taken[..|taken| - 1], agent) + if last.agent == agent then last.tokens else 0
  }

  function TokensOver(steps: seq<seq<Action>>, agent: int): int {
    if steps == [] then 0
    else TokensOver(steps[..|steps| - 1], agent) + TokensIn(steps[|steps| - 1], agent)
  }

  predicate Positive(a: Action) { a.observed && a.liked }

  function LikesIn(taken: seq<Action>, agent: int): nat {
    if taken == [] then 0
    else
      var last := taken[|taken| - 1];
      LikesIn(taken[..|taken| - 1], agent) + if last.agent == agent && Positive(last) then 1 else 0
  }

  function LikesOver(steps: seq<seq<Action>>, agent: int): nat {
    if steps == [] then 0
    else LikesOver(steps[..|steps| - 1], agent) + LikesIn(steps[|steps| - 1], agent)
  }

  predicate KnownAgents(taken: seq<Action>, order: seq<nat>) {
    forall i :: 0 <= i < |taken| ==> taken[i].agent in order
  }

  function ExposedBy(taken: seq<Action>): seq<int> {
    if taken == [] then []
    else
      var last := taken[|taken| - 1];
      ExposedBy(taken[..|taken| - 1]) + if last.observed then [last.agent] else []
  }

  function InitiallyExposed(steps: seq<seq<Action>>): set<int> {
    if steps == [] then {} else set agent | agent in ExposedBy(steps[0])
  }

  function SubsetSize(cohort: nat): (r: nat)
    ensures r <= cohort && (cohort > 0 ==> 0 < r)
    ensures cohort > 1 ==> r < cohort
  {
    var size := if cohort * 3 / 4 > 1 then cohort * 3 / 4 else 1;
    if size <= cohort then size else cohort
  }

  function Activated(order: seq<nat>, kind: RoundKind): seq<nat> {
    if kind == Interaction || kind == Intervention then order[..SubsetSize(|order|)] else order
  }

  function RoundOf(order: seq<nat>, k: nat, taken: seq<Action>): Round {
    Round(k, KindAt(k), Activated(order, KindAt(k)), ExposedBy(taken))
  }

  /** The round records: the interview and each step of the plan, then the final ballot,
      which closes the last round instead of opening another. */
  function RoundLog(order: seq<nat>, steps: seq<seq<Action>>): (r: seq<Round>)
    ensures |r| == |steps| + 1
  {
    if steps == [] then [Round(0, BaselineInterview, order, [])]
    else
      RoundLog(order, steps[..|steps| - 1]) + [RoundOf(order, |steps|, steps[|steps| - 1])]
  }

  // ------------------------------------------------------- dictionaries by agent

  function At(m: map<int, int>, agent: int): int {
    if agent in m then m[agent] else 0
  }

  function SumOver(order: seq<nat>, m: map<int, int>): int {
    if order == [] then 0 else SumOver(order[..|order| - 1], m) + At(m, order[|order| - 1])
  }

  /** `dict.fromkeys(order, 0)`. */
  function FromKeys(order: seq<nat>): (r: map<int, int>)
    ensures HasKeys(r, order) && forall agent :: agent in r ==> r[agent] == 0
  {
    if order == [] then map[] else FromKeys(order[..|order| - 1])[order[|order| - 1] := 0]
  }

  ghost predicate HasKeys(m: map<int, int>, order: seq<nat>) {
    forall agent :: agent in m <==> agent in order
  }

  function AddCosts(tokens: map<int, int>, order: seq<nat>, heard: seq<Answer>): map<int, int>
    requires |heard| == |order|
  {
    if order == [] then tokens
    else
      var n := |order| - 1;
      var before := AddCosts(tokens, order[..n], heard[..n]);
      before[order[n] := At(before, order[n]) + heard[n].Cost()]
  }

  function AddActions(tokens: map<int, int>, taken: seq<Action>): map<int, int> {
    if taken == [] then tokens
    else
      var n := |taken| - 1;
      var before := AddActions(tokens, taken[..n]);
      before[taken[n].agent := At(before, taken[n].agent) + taken[n].tokens]
  }

  function AddLikes(liked: map<int, int>, taken: seq<Action>): map<int, int> {
    if taken == [] then liked
    else
      var n := |taken| - 1;
      var before := AddLikes(liked, taken[..n]);
      if Positive(taken[n]) then before[taken[n].agent := At(before, taken[n].agent) + 1] else before
  }

  lemma {:induction false} SumOverUpdate(order: seq<nat>, m: map<int, int>, agent: int, value: int)
    requires Distinct(order)
    ensures SumOver(order, m[agent := value])
            == SumOver(order, m) + if agent in order then value - At(m, agent) else 0
  {
    if order != [] {
      var n := |order| - 1;
      SumOverUpdate(order[..n], m, agent, value);
      assert order == order[..n] + [order[n]];
    }
  }

  lemma {:induction false} SumOverZero(order: seq<nat>, m: map<int, int>)
    requires forall agent :: agent in m ==> m[agent] == 0
    ensures SumOver(order, m) == 0
  {
    if order != [] { SumOverZero(order[..|order| - 1], m); }
  }

  /** A ballot round charges each persona its own reply and nobody else. */
  lemma {:induction false} AddCostsAt(tokens: map<int, int>, order: seq<nat>, heard: seq<Answer>, agent: int)
    requires |heard| == |order| && Distinct(order)
    ensures agent !in order ==> At(AddCosts(tokens, order, heard), agent) == At(tokens, agent)
    ensures forall i :: 0 <= i < |order| && order[i] == agent ==>
              At(AddCosts(tokens, order, heard), agent) == At(tokens, agent) + heard[i].Cost()
    ensures forall a :: a in AddCosts(tokens, order, heard) <==> a in tokens || a in order
  {
    if order != [] {
      var n := |order| - 1;
      assert order == order[..n] + [order[n]];
      AddCostsAt(tokens, order[..n], heard[..n], agent);
      assert forall i :: 0 <= i < n ==> order[..n][i] == order[i] && heard[..n][i] == heard[i];
      if order[n] == agent { assert agent !in order[..n]; }
    }
  }

  lemma {:induction false} AddCostsSum(order: seq<nat>, tokens: map<int, int>, part: seq<nat>, heard: seq<Answer>)
    requires Distinct(order) && |heard| == |part| && forall i :: 0 <= i < |part| ==> part[i] in order
    ensures SumOver(order, AddCosts(tokens, part, heard)) == SumOver(order, tokens) + Spent(heard)
  {
    if part != [] {
      var n := |part| - 1;
      var before := AddCosts(tokens, part[..n], heard[..n]);
      AddCostsSum(order, tokens, part[..n], heard[..n]);
      SumOverUpdate(order, before, part[n], At(before, part[n]) + heard[n].Cost());
    }
  }

  lemma {:induction false} AddActionsAt(tokens: map<int, int>, taken: seq<Action>, agent: int)
    ensures At(AddActions(tokens, taken), agent) == At(tokens, agent) + TokensIn(taken, agent)
  {
    if taken != [] { AddActionsAt(tokens, taken[..|taken| - 1], agent); }
  }

  lemma {:induction false} AddActionsSum(order: seq<nat>, tokens: map<int, int>, taken: seq<Action>)
    requires Distinct(order) && KnownAgents(taken, order)
    ensures SumOver(order, AddActions(tokens, taken)) == SumOver(order, tokens) + StepTotal(taken)
  {
    if taken != [] {
      var n := |taken| - 1;
      var before := AddActions(tokens, taken[..n]);
      AddActionsSum(order, tokens, taken[..n]);
      SumOverUpdate(order, before, taken[n].agent, At(before, taken[n].agent) + taken[n].tokens);
    }
  }

  lemma {:induction false} AddActionsKeys(tokens: map<int, int>, taken: seq<Action>)
    requires forall i :: 0 <= i < |taken| ==> taken[i].agent in tokens
    ensures AddActions(tokens, taken).Keys == tokens.Keys
  {
    if taken != [] { AddActionsKeys(tokens, taken[..|taken| - 1]); }
  }

  lemma {:induction false} AddLikesAt(liked: map<int, int>, taken: seq<Action>, agent: int)
    ensures At(AddLikes(liked, taken), agent) == At(liked, agent) + LikesIn(taken, agent)
    ensures agent in AddLikes(liked, taken) <==> agent in liked || LikesIn(taken, agent) > 0
  {
    if taken != [] { AddLikesAt(liked, taken[..|taken| - 1], agent); }
  }

  // -------------------------------------------------------------- persona protocol

  /** What the protocol carries from round to round. */
  datatype Ledger = Ledger(
    tokens: map<int, int>,
    liked: map<int, int>,
    exposed: set<int>,
    baseline: seq<Entry>,
    failures: nat)

  function Opening(request: Request, order: seq<nat>, first: seq<Answer>): Ledger
    requires |first| == |order| && InRoster(order, request.roster)
  {
    Ledger(AddCosts(FromKeys(order), order, first), map[], {},
           EntriesFrom(request.roster, order, first), Unparsed(first))
  }

  function Advance(l: Ledger, kind: RoundKind, taken: seq<Action>): Ledger {
    l.(tokens := AddActions(l.tokens, taken), liked := AddLikes(l.liked, taken),
       exposed := if kind == Exposure then set agent | agent in ExposedBy(taken) else l.exposed)
  }

  /** The ledger after the interview and the given social rounds. */
  function LedgerOf(request: Request, order: seq<nat>, first: seq<Answer>, steps: seq<seq<Action>>): Ledger
    requires |first| == |order| && InRoster(order, request.roster)
  {
    if steps == [] then Opening(request, order, first)
    else
      var n := |steps| - 1;
      Advance(LedgerOf(request, order, first, steps[..n]), KindAt(|steps|), steps[n])
  }

  /** The ledger means what it says: each persona is charged its interview and its own
      actions, and liked exactly what the trace shows it liked. */
  lemma {:induction false} LedgerMeaning(request: Request, order: seq<nat>, first: seq<Answer>,
                                         steps: seq<seq<Action>>, i: nat)
    requires |first| == |order| && InRoster(order, request.roster)
    requires Distinct(order) && i < |order|
    ensures var l := LedgerOf(request, order, first, steps);
      && At(l.tokens, order[i]) == first[i].Cost() + TokensOver(steps, order[i])
      && At(l.liked, order[i]) == LikesOver(steps, order[i])
      && (order[i] in l.liked <==> LikesOver(steps, order[i]) > 0)
      && l.exposed == InitiallyExposed(steps)
      && l.baseline == EntriesFrom(request.roster, order, first) && l.failures == Unparsed(first)
  {
    if steps == [] {
      AddCostsAt(FromKeys(order), order, first, order[i]);
    } else {
      var n := |steps| - 1;
      var l := LedgerOf(request, order, first, steps[..n]);
      LedgerMeaning(request, order, first, steps[..n], i);
      AddActionsAt(l.tokens, steps[n], order[i]);
      AddLikesAt(l.liked, steps[n], order[i]);
      assert n > 0 ==> steps[..n][0] == steps[0];
    }
  }

  function PersonaInstances(order: seq<nat>, tokens: map<int, int>, final: seq<Entry>): (r: seq<Instance>)
    ensures |r| == |order|
  {
    if order == [] then []
    else
      var n := |order| - 1;
      PersonaInstances(order[..n], tokens, final)
      + [Instance(order[n], n, At(tokens, order[n]), Voted(final, order[n]))]
  }

  lemma {:induction false} PersonaInstancesSum(order: seq<nat>, tokens: map<int, int>, final: seq<Entry>)
    ensures SumInstances(PersonaInstances(order, tokens, final)) == SumOver(order, tokens)
  {
    if order != [] { PersonaInstancesSum(order[..|order| - 1], tokens, final); }
  }

  lemma {:induction false} PersonaInstanceAt(order: seq<nat>, tokens: map<int, int>, final: seq<Entry>, i: nat)
    requires i < |order|
    ensures PersonaInstances(order, tokens, final)[i]
            == Instance(order[i], i, At(tokens, order[i]), Voted(final, order[i]))
  {
    if i < |order| - 1 { PersonaInstanceAt(order[..|order| - 1], tokens, final, i); }
  }

  /** The persona council's work as a function of everything it heard and saw. */
  function PersonaWork(request: Request, order: seq<nat>, first: seq<Answer>, steps: seq<seq<Action>>,
                       last: seq<Answer>): Work
    requires |first| == |last| == |order| && InRoster(order, request.roster)
  {
    ClosingWork(request, order, LedgerOf(request, order, first, steps), steps, last)
  }

  function ClosingWork(request: Request, order: seq<nat>, l: Ledger, steps: seq<seq<Action>>,
                       last: seq<Answer>): Work
    requires |last| == |order| && InRoster(order, request.roster)
  {
    var final := EntriesFrom(request.roster, order, last);
    var tokens := AddCosts(l.tokens, order, last);
    Work(CustomerPersona,
         if final == [] then None
         else Some(Ballots(l.baseline, final, l.liked, |l.exposed|, |steps| + 1)),
         PersonaInstances(order, tokens, final), SumOver(order, tokens), l.failures + Unparsed(last), [],
         RoundLog(order, steps) + [Round(|steps|, FinalBallot, order, [])])
  }

  lemma PersonaWorkSums(request: Request, order: seq<nat>, first: seq<Answer>, steps: seq<seq<Action>>,
                        last: seq<Answer>)
    requires |first| == |last| == |order| && InRoster(order, request.roster)
    ensures var work := PersonaWork(request, order, first, steps, last);
      work.totalTokens == SumInstances(work.instances) && work.role == CustomerPersona && work.consumed == []
  {
    var tokens := AddCosts(LedgerOf(request, order, first, steps).tokens, order, last);
    PersonaInstancesSum(order, tokens, EntriesFrom(request.roster, order, last));
  }

  /** Each persona's row carries exactly its own two replies and its own actions, and is
      completed exactly when its final reply parsed. */
  lemma PersonaRowsAreOwn(request: Request, order: seq<nat>, first: seq<Answer>, steps: seq<seq<Action>>,
                          last: seq<Answer>, i: nat)
    requires |first| == |last| == |order| && InRoster(order, request.roster)
    requires Distinct(order) && i < |order|
    ensures var work := PersonaWork(request, order, first, steps, last);
      && |work.instances| == |order|
      && work.instances[i]
         == Instance(order[i], i, first[i].Cost() + TokensOver(steps, order[i]) + last[i].Cost(), last[i].Parsed())
  {
    var l := LedgerOf(request, order, first, steps);
    var final := EntriesFrom(request.roster, order, last);
    var tokens := AddCosts(l.tokens, order, last);
    LedgerMeaning(request, order, first, steps, i);
    AddCostsAt(l.tokens, order, last, order[i]);
    VotedExactly(request.roster, order, last);
    PersonaInstanceAt(order, tokens, final, i);
  }

  /** With no more personas than the cohort, the council is accepted exactly when some final
      reply parsed and every object a persona sent is a well-formed ballot. */
  lemma PersonaAcceptedExactly(request: Request, order: seq<nat>, first: seq<Answer>, steps: seq<seq<Action>>,
                               last: seq<Answer>)
    requires |first| == |last| == |order| && InRoster(order, request.roster)
    requires Distinct(order) && 1 <= |order| <= request.cohortSize
    ensures FinishRun(PersonaWork(request, order, first, steps, last), request, []).completed
            <==> && (exists i :: 0 <= i < |last| && last[i].Parsed())
                 && WellFormed(EntriesFrom(request.roster, order, first))
                 && WellFormed(EntriesFrom(request.roster, order, last))
  {
    var l := LedgerOf(request, order, first, steps);
    var final := EntriesFrom(request.roster, order, last);
    LedgerMeaning(request, order, first, steps, 0);
    VotedExactly(request.roster, order, last);
    if i :| 0 <= i < |last| && last[i].Parsed() { assert Voted(final, order[i]); }
    if final != [] {
      assert final[0].agent in order;
      var i :| 0 <= i < |order| && order[i] == final[0].agent;
      assert Voted(final, order[i]);
      BallotsAcceptedExactly(Ballots(l.baseline, final, l.liked, |l.exposed|, |steps| + 1), request, []);
    }
  }

  // --------------------------------------------------------------- whole simulation

  datatype SimulationStatus = SimulationFailed | SimulationPartial | SimulationCompleted
  datatype Simulation = Simulation(status: SimulationStatus, records: seq<Record>)

  predicate Produced(records: seq<Record>, t: ArtifactType) {
    exists j :: 0 <= j < |records| && records[j].completed && TypeOf(records[j].role) == t
  }

  function OnlyProduced(wanted: seq<ArtifactType>, records: seq<Record>): seq<ArtifactType> {
    if wanted == [] then []
    else (if Produced(records, wanted[0]) then [wanted[0]] else []) + OnlyProduced(wanted[1..], records)
  }

  /** A record is what its council did, each total is the sum of its members, a completed
      council and no other has an artifact, well made and of its own type, and the artifacts it reports as
      consumed are exactly the listed ones that earlier councils completed. */
  predicate SoundRecord(records: seq<Record>, k: nat)
    requires k < |records|
  {
    var record := records[k];
    && record.totalTokens == SumInstances(record.instances)
    && record.completed == record.artifact.Some?
    && (record.completed ==> MadeFor(record.artifact.value, record.role))
    && record.consumed == OnlyProduced(UpstreamFor(record.role), records[..k])
  }

  predicate MadeFor(artifact: Artifact, role: Role) { artifact.Type() == TypeOf(role) && WellMade(artifact) }

  predicate Sound(records: seq<Record>) {
    forall k :: 0 <= k < |records| ==> SoundRecord(records, k)
  }

  lemma SoundNext(records: seq<Record>, record: Record)
    requires Sound(records)
    requires record.totalTokens == SumInstances(record.instances)
    requires record.completed == record.artifact.Some?
    requires record.completed ==> MadeFor(record.artifact.value, record.role)
    requires record.consumed == OnlyProduced(UpstreamFor(record.role), records)
    ensures Sound(records + [record])
  {
    var all := records + [record];
    forall k | 0 <= k < |all| ensures SoundRecord(all, k) {
      if k < |records| {
        assert SoundRecord(records, k);
        assert all[..k] == records[..k];
      } else {
        assert all[..k] == records;
      }
    }
  }

  predicate InRoleOrder(records: seq<Record>) {
    forall k :: 0 <= k < |records| ==> records[k].role == RoleAt(k)
  }

  function Completed(records: seq<Record>): nat {
    if records == [] then 0
    else Completed(records[..|records| - 1]) + if records[|records| - 1].completed then 1 else 0
  }

  /** `_outcome`. */
  function OutcomeOf(records: seq<Record>): Simulation {
    var succeeded := Completed(records);
    Simulation(if succeeded == 0 then SimulationFailed
               else if succeeded == COUNCILS then SimulationCompleted else SimulationPartial, records)
  }

  lemma {:induction false} CompletedBounds(records: seq<Record>)
    ensures Completed(records) <= |records|
    ensures Completed(records) == |records| <==> forall k :: 0 <= k < |records| ==> records[k].completed
    ensures Completed(records) == 0 <==> forall k :: 0 <= k < |records| ==> !records[k].completed
  {
    if records != [] { CompletedBounds(records[..|records| - 1]); }
  }

  /** The status tells whether every council, none, or only some produced an artifact. */
  lemma OutcomeMeaning(records: seq<Record>)
    requires |records| == COUNCILS && Sound(records) && InRoleOrder(records)
    ensures OutcomeOf(records).status == SimulationCompleted
            <==> forall t :: Produced(records, t)
    ensures OutcomeOf(records).status == SimulationFailed
            <==> forall t :: !Produced(records, t)
  {
    CompletedBounds(records);
    forall t ensures Produced(records, t) <==> records[CouncilFor(t)].completed {
      assert TypeOf(RoleAt(CouncilFor(t))) == t;
      assert forall j :: 0 <= j < COUNCILS && TypeOf(records[j].role) == t ==> j == CouncilFor(t);
    }
    assert CouncilFor(MarketAssessment) == 0 && CouncilFor(CustomerSimulationResult) == 1;
    assert CouncilFor(FinanceReview) == 2 && CouncilFor(ReportNarrative) == 3;
    forall k | 0 <= k < COUNCILS ensures records[k].completed <==> Produced(records, TypeOf(RoleAt(k))) {
      assert CouncilFor(TypeOf(RoleAt(k))) == k;
    }
  }

  function CouncilFor(t: ArtifactType): (k: nat)
    ensures k < COUNCILS && TypeOf(RoleAt(k)) == t
  {
    match t
    case MarketAssessment => 0
    case CustomerSimulationResult => 1
    case FinanceReview => 2
    case ReportNarrative => 3
  }

  lemma ProducedNext(records: seq<Record>, record: Record, t: ArtifactType)
    ensures Produced(records + [record], t)
            <==> Produced(records, t) || (record.completed && TypeOf(record.role) == t)
  {
    var all := records + [record];
    if Produced(records, t) {
      var j :| 0 <= j < |records| && records[j].completed && TypeOf(records[j].role) == t;
      assert all[j] == records[j];
    }
    if record.completed && TypeOf(record.role) == t { assert all[|records|] == record; }
  }

  lemma FinishedRecord(work: Work, request: Request, toolCalls: seq<int>)
    ensures var record := FinishRun(work, request, toolCalls);
      && record.completed == record.artifact.Some?
      && (record.completed ==> MadeFor(record.artifact.value, record.role))
      && record.role == work.role && record.consumed == work.consumed
      && record.totalTokens == work.totalTokens && record.instances == work.instances
  {
    if work.payload.Some? { ArtifactsAreGrounded(work.role, work.payload.value, request, toolCalls); }
  }

  // --------------------------------------------------------------- one step further

  lemma SpokenNext(indices: seq<nat>, heard: seq<Answer>, reply: Answer)
    requires |heard| < |indices|
    ensures Spoken(indices[..|heard| + 1], heard + [reply])
            == Spoken(indices[..|heard|], heard)
               + [Instance(indices[|heard|], |heard|, reply.Cost(), reply.Parsed())]
  {
    var n := |heard|;
    var longer := heard + [reply];
    forall i | 0 <= i <= n
      ensures Spoken(indices[..n + 1], longer)[i]
              == Instance(indices[i], i, longer[i].Cost(), longer[i].Parsed())
    {
    }
  }

  lemma DraftNext(heard: seq<Answer>, reply: Answer)
    ensures LastDraft(heard + [reply]) == if reply.Parsed() then reply.json else LastDraft(heard)
    ensures Unparsed(heard + [reply]) == Unparsed(heard) + if reply.Parsed() then 0 else 1
    ensures Spent(heard + [reply]) == Spent(heard) + reply.Cost()
  {
    assert (heard + [reply])[..|heard|] == heard;
  }

  lemma EntriesNext(roster: seq<Member>, order: seq<nat>, heard: seq<Answer>, i: nat)
    requires |heard| == |order| && i < |order| && InRoster(order, roster)
    ensures EntriesFrom(roster, order[..i + 1], heard[..i + 1])
            == EntriesFrom(roster, order[..i], heard[..i])
               + if heard[i].Parsed() then [EntryOf(roster, order[i], heard[i].json.value)] else []
    ensures Unparsed(heard[..i + 1]) == Unparsed(heard[..i]) + if heard[i].Parsed() then 0 else 1
    ensures Costs(heard[..i + 1]) == Costs(heard[..i]) + [heard[i].Cost()]
  {
    assert order[..i + 1][..i] == order[..i] && heard[..i + 1][..i] == heard[..i];
  }

  lemma {:induction false} CostsAt(heard: seq<Answer>, i: nat)
    requires i < |heard|
    ensures Costs(heard)[i] == heard[i].Cost()
  {
    if i < |heard| - 1 { CostsAt(heard[..|heard| - 1], i); }
  }

  function Costs(heard: seq<Answer>): (r: seq<int>)
    ensures |r| == |heard|
  {
    if heard == [] then [] else Costs(heard[..|heard| - 1]) + [heard[|heard| - 1].Cost()]
  }

  lemma LedgerNext(request: Request, order: seq<nat>, first: seq<Answer>, steps: seq<seq<Action>>, taken: seq<Action>)
    requires |first| == |order| && InRoster(order, request.roster)
    ensures LedgerOf(request, order, first, steps + [taken])
            == Advance(LedgerOf(request, order, first, steps), KindAt(|steps| + 1), taken)
  {
    var all := steps + [taken];
    LastOf(steps, taken, all);
    LedgerLast(request, order, first, steps, taken, all);
  }

  lemma LedgerLast(request: Request, order: seq<nat>, first: seq<Answer>, steps: seq<seq<Action>>, taken: seq<Action>,
                   all: seq<seq<Action>>)
    requires |first| == |order| && InRoster(order, request.roster)
    requires all != [] && all[..|all| - 1] == steps && all[|all| - 1] == taken
    ensures LedgerOf(request, order, first, all)
            == Advance(LedgerOf(request, order, first, steps), KindAt(|all|), taken)
  {
  }

  lemma LastOf(steps: seq<seq<Action>>, taken: seq<Action>, all: seq<seq<Action>>)
    requires all == steps + [taken]
    ensures |all| == |steps| + 1 && all[..|all| - 1] == steps && all[|all| - 1] == taken
  {
  }

  lemma RoundLogNext(order: seq<nat>, steps: seq<seq<Action>>, taken: seq<Action>)
    ensures RoundLog(order, steps + [taken])
            == RoundLog(order, steps) + [RoundOf(order, |steps| + 1, taken)]
  {
    assert (steps + [taken])[..|steps|] == steps;
  }

  lemma OpeningKeys(request: Request, order: seq<nat>, first: seq<Answer>)
    requires |first| == |order| && InRoster(order, request.roster) && Distinct(order)
    ensures HasKeys(Opening(request, order, first).tokens, order)
  {
    AddCostsAt(FromKeys(order), order, first, 0);
  }

  function Available(wanted: seq<ArtifactType>, artifacts: map<ArtifactType, Artifact>): seq<ArtifactType> {
    if wanted == [] then []
    else (if wanted[0] in artifacts then [wanted[0]] else []) + Available(wanted[1..], artifacts)
  }

  /** The artifacts at hand are those the councils so far completed. */
  ghost predicate HoldsProduced(artifacts: map<ArtifactType, Artifact>, records: seq<Record>) {
    forall t :: t in artifacts <==> Produced(records, t)
  }

  lemma {:induction false} AvailableIsProduced(wanted: seq<ArtifactType>, artifacts: map<ArtifactType, Artifact>,
                                               records: seq<Record>)
    requires HoldsProduced(artifacts, records)
    ensures Available(wanted, artifacts) == OnlyProduced(wanted, records)
  {
    if wanted != [] { AvailableIsProduced(wanted[1..], artifacts, records); }
  }

  lemma ArtifactsNext(artifacts: map<ArtifactType, Artifact>, records: seq<Record>, record: Record)
    requires HoldsProduced(artifacts, records)
    requires record.completed == record.artifact.Some?
    requires record.completed ==> record.artifact.value.Type() == TypeOf(record.role)
    ensures HoldsProduced(if record.completed then artifacts[TypeOf(record.role) := record.artifact.value]
                          else artifacts, records + [record])
    ensures SumTotals(records + [record]) == SumTotals(records) + record.totalTokens
  {
    forall t ensures Produced(records + [record], t)
                     <==> Produced(records, t) || (record.completed && TypeOf(record.role) == t)
    {
      ProducedNext(records, record, t);
    }
    assert (records + [record])[..|records|] == records;
  }

  lemma RoleOrderNext(records: seq<Record>, record: Record)
    requires InRoleOrder(records) && record.role == RoleAt(|records|)
    ensures InRoleOrder(records + [record])
  {
  }

  lemma PermutationInRoster(order: seq<nat>, roster: seq<Member>)
    requires multiset(order) == multiset(IndicesFor(roster, CustomerPersona))
    ensures InRoster(order, roster)
  {
    forall i | 0 <= i < |order| ensures order[i] < |roster| {
      assert order[i] in multiset(order);
      assert order[i] in IndicesFor(roster, CustomerPersona);
    }
  }
}
