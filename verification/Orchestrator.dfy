/** The council protocol: four councils in order, under one token budget and one deadline.
    The social runtime answers from tapes, so a statement for all tapes covers every model,
    every prompt and every network failure. */
module Orchestration {
  import opened Options
  import opened Reducers
  import opened Councils
  import opened CouncilRecords

  datatype Failure = BudgetExceeded | TimedOut | RuntimeRaised | UnknownAgent | RecordInvalid
  datatype Outcome<+T> = Ok(value: T) | Err(error: Failure)

  /** `CouncilRuntime` and the monotonic clock. A tape that ends raises, or runs late. */
  class Runtime {
    const answers: seq<Answer>
    const steps: seq<seq<Action>>
    const clock: seq<int>
    var asked: nat
    var stepped: nat
    var looked: nat

    constructor (answers: seq<Answer>, steps: seq<seq<Action>>, clock: seq<int>)
      ensures this.answers == answers && this.steps == steps && this.clock == clock
      ensures asked == 0 && stepped == 0 && looked == 0
    {
      this.answers, this.steps, this.clock := answers, steps, clock;
      asked, stepped, looked := 0, 0, 0;
    }

    predicate Valid() reads this { asked <= |answers| && stepped <= |steps| }

    method Interview(index: nat) returns (answer: Answer)
      requires Valid()
      modifies this`asked
      ensures Valid() && (answer.Answer? ==> asked == old(asked) + 1 && answer == answers[old(asked)])
    {
      if asked == |answers| || answers[asked].Raised? { return Raised; }
      answer := answers[asked];
      asked := asked + 1;
    }

    method Step(activated: seq<nat>) returns (taken: Option<seq<Action>>)
      requires Valid()
      modifies this`stepped
      ensures Valid() && (taken.Some? ==> stepped == old(stepped) + 1 && taken.value == steps[old(stepped)])
    {
      if stepped == |steps| { return None; }
      taken := Some(steps[stepped]);
      stepped := stepped + 1;
    }

    method Now() returns (now: Option<int>)
      modifies this`looked
      ensures looked == old(looked) + 1
      ensures now == if old(looked) < |clock| then Some(clock[old(looked)]) else None
    {
      now := if looked < |clock| then Some(clock[looked]) else None;
      looked := looked + 1;
    }
  }

  class RunBudget {
    const tokenBudget: int
    const deadline: int
    var consumed: int

    constructor (tokenBudget: int, deadline: int)
      ensures this.tokenBudget == tokenBudget && this.deadline == deadline && consumed == 0
    {
      this.tokenBudget, this.deadline, consumed := tokenBudget, deadline, 0;
    }

    /** The tokens are charged even when they break the budget. */
    method Spend(tokens: int) returns (ok: bool)
      modifies this
      ensures consumed == old(consumed) + tokens
      ensures ok <==> consumed <= tokenBudget
    {
      consumed := consumed + tokens;
      ok := consumed <= tokenBudget;
    }

    predicate Kept() reads this { consumed <= tokenBudget }
  }

  /** `check_clock`. */
  method CheckClock(budget: RunBudget, runtime: Runtime) returns (ok: bool)
    modifies runtime`looked
    ensures ok <==> old(runtime.looked) < |runtime.clock|
                    && runtime.clock[old(runtime.looked)] <= budget.deadline
  {
    var now := runtime.Now();
    ok := now.Some? && now.value <= budget.deadline;
  }

  // ---------------------------------------------------------- deliberative councils

  /** One member's turn: the clock, the reply, the budget, and a row that must not be negative. */
  method AskMember(index: nat, runtime: Runtime, budget: RunBudget) returns (r: Outcome<Answer>)
    requires runtime.Valid()
    modifies runtime, budget
    ensures runtime.Valid() && runtime.stepped == old(runtime.stepped)
    ensures r.Ok? ==>
              && runtime.asked == old(runtime.asked) + 1 && r.value == runtime.answers[old(runtime.asked)]
              && r.value.Answer? && r.value.tokens >= 0
              && budget.consumed == old(budget.consumed) + r.value.tokens && budget.Kept()
    ensures r == Err(BudgetExceeded) ==> !budget.Kept()
  {
    var inTime := CheckClock(budget, runtime);
    if !inTime { return Err(TimedOut); }
    var reply := runtime.Interview(index);
    if reply.Raised? { return Err(RuntimeRaised); }
    var ok := budget.Spend(reply.tokens);
    if !ok { return Err(BudgetExceeded); }
    if reply.tokens < 0 { return Err(RecordInvalid); }
    r := Ok(reply);
  }

  /** Draft, challenge, revise: one member after another. A council that finishes charged
      the budget for exactly what its members said. */
  method Deliberate(role: Role, request: Request, runtime: Runtime, budget: RunBudget,
                    consumed: seq<ArtifactType>) returns (r: Outcome<Work>)
    requires role != CustomerPersona && budget.Kept() && runtime.Valid()
    modifies runtime, budget
    ensures runtime.Valid()
    ensures r.Ok? ==>
              var indices := IndicesFor(request.roster, role);
              runtime.asked == old(runtime.asked) + |indices|
              && var heard := runtime.answers[old(runtime.asked)..runtime.asked];
              && AllAnswered(heard) && r.value == DeliberationWork(role, indices, heard, consumed)
              && budget.consumed == old(budget.consumed) + Spent(heard) && budget.Kept()
    ensures r == Err(BudgetExceeded) ==> !budget.Kept()
  {
    var indices := IndicesFor(request.roster, role);
    ghost var heard: seq<Answer> := [];
    var instances: seq<Instance> := [];
    var draft: Option<Json> := None;
    var failures: nat, tokens := 0, 0;
    for order := 0 to |indices|
      invariant runtime.Valid() && runtime.asked == old(runtime.asked) + order
      invariant heard == runtime.answers[old(runtime.asked)..runtime.asked] && AllAnswered(heard)
      invariant instances == Spoken(indices[..order], heard) && draft == LastDraft(heard)
      invariant failures == Unparsed(heard) && tokens == Spent(heard)
      invariant budget.consumed == old(budget.consumed) + tokens && budget.Kept()
    {
      var said := AskMember(indices[order], runtime, budget);
      if said.Err? { return Err(said.error); }
      var reply := said.value;
      tokens := tokens + reply.tokens;
      if reply.json.Some? { draft := reply.json; } else { failures := failures + 1; }
      instances := instances + [Instance(indices[order], order, reply.tokens, reply.json.Some?)];
      SpokenNext(indices, heard, reply);
      DraftNext(heard, reply);
      heard := heard + [reply];
    }
    assert indices[..|indices|] == indices;
    r := Ok(Work(role, if draft.None? then None else Some(Object(draft.value)),
                 instances, tokens, failures, consumed, []));
  }

  // ---------------------------------------------------------------- persona protocol

  function Swapped(s: seq<nat>, i: nat, j: nat): (r: seq<nat>)
    requires j <= i < |s|
    ensures |r| == |s|
  {
    s[i := s[j]][j := s[i]]
  }

  lemma SwappedMultiset(s: seq<nat>, i: nat, j: nat)
    requires j <= i < |s|
    ensures multiset(Swapped(s, i, j)) == multiset(s)
  {
    var first := s[i := s[j]];
    assert multiset(first) == multiset(s) - multiset{s[i]} + multiset{s[j]};
    assert j < i ==> first[j] == s[j];
  }

  lemma SwappedDistinct(s: seq<nat>, i: nat, j: nat)
    requires j <= i < |s| && Distinct(s)
    ensures Distinct(Swapped(s, i, j))
  {
    var r := Swapped(s, i, j);
    forall x, y | 0 <= x < y < |r| ensures r[x] != r[y] {
      var x', y' := if x == i then j else if x == j then i else x, if y == i then j else if y == j then i else y;
      assert r[x] == s[x'] && r[y] == s[y'] && x' != y';
    }
  }

  /** `Random.shuffle`: exchange each position with an earlier one, from the last down. The
      seeded generator's picks are a parameter; whatever they are, no persona is lost. */
  method ActivationOrder(indices: seq<nat>, picks: nat -> nat) returns (order: seq<nat>)
    requires Distinct(indices)
    ensures multiset(order) == multiset(indices) && |order| == |indices| && Distinct(order)
  {
    order := indices;
    var i := |order|;
    while i > 1
      invariant 0 <= i <= |order| == |indices|
      invariant multiset(order) == multiset(indices) && Distinct(order)
    {
      i := i - 1;
      var j := picks(i) % (i + 1);
      SwappedMultiset(order, i, j);
      SwappedDistinct(order, i, j);
      order := Swapped(order, i, j);
    }
  }

  /** `_ballot_round`: every persona is asked privately, then the replies are read. */
  method BallotRound(request: Request, order: seq<nat>, runtime: Runtime)
    returns (r: Outcome<(seq<Entry>, seq<int>, nat)>)
    requires InRoster(order, request.roster) && runtime.Valid()
    modifies runtime`asked
    ensures runtime.Valid()
    ensures r.Ok? ==>
              && runtime.asked == old(runtime.asked) + |order|
              && var heard := runtime.answers[old(runtime.asked)..runtime.asked];
              && AllAnswered(heard)
              && r.value == (EntriesFrom(request.roster, order, heard), Costs(heard), Unparsed(heard))
    ensures r.Err? ==> r.error == RuntimeRaised
  {
    var replies: seq<Answer> := [];
    for i := 0 to |order|
      invariant runtime.Valid() && runtime.asked == old(runtime.asked) + i
      invariant replies == runtime.answers[old(runtime.asked)..runtime.asked] && AllAnswered(replies)
    {
      var reply := runtime.Interview(order[i]);
      if reply.Raised? { return Err(RuntimeRaised); }
      replies := replies + [reply];
    }
    var ballots, cost, failures := ReadReplies(request, order, replies);
    r := Ok((ballots, cost, failures));
  }

  /** A reply that does not parse costs its tokens and casts no ballot. The costs are listed
      in activation order, which is also the order of the dictionary they fill. */
  method ReadReplies(request: Request, order: seq<nat>, replies: seq<Answer>)
    returns (ballots: seq<Entry>, cost: seq<int>, failures: nat)
    requires InRoster(order, request.roster)
    requires |replies| == |order| && AllAnswered(replies)
    ensures ballots == EntriesFrom(request.roster, order, replies)
    ensures cost == Costs(replies) && failures == Unparsed(replies)
  {
    ballots, cost, failures := [], [], 0;
    for i := 0 to |order|
      invariant ballots == EntriesFrom(request.roster, order[..i], replies[..i])
      invariant cost == Costs(replies[..i]) && failures == Unparsed(replies[..i])
    {
      EntriesNext(request.roster, order, replies, i);
      cost := cost + [replies[i].tokens];
      if replies[i].json.None? {
        failures := failures + 1;
      } else {
        ballots := ballots + [EntryOf(request.roster, order[i], replies[i].json.value)];
      }
    }
    assert order[..|order|] == order && replies[..|order|] == replies;
  }

  /** Adds one ballot round's cost to the tokens of each persona, and to the budget. */
  method Charge(budget: RunBudget, order: seq<nat>, before: map<int, int>, cost: seq<int>, ghost heard: seq<Answer>)
    returns (ok: bool, after: map<int, int>)
    requires |heard| == |order| && cost == Costs(heard)
    modifies budget
    ensures after == AddCosts(before, order, heard)
    ensures budget.consumed == old(budget.consumed) + Spent(heard) && (ok <==> budget.Kept())
  {
    after := before;
    var total := 0;
    for i := 0 to |order|
      invariant after == AddCosts(before, order[..i], heard[..i]) && total == Spent(heard[..i])
      invariant budget.consumed == old(budget.consumed)
    {
      CostsAt(heard, i);
      assert order[..i + 1][..i] == order[..i] && heard[..i + 1][..i] == heard[..i];
      after := after[order[i] := At(after, order[i]) + cost[i]];
      total := total + cost[i];
    }
    assert order[..|order|] == order && heard[..|heard|] == heard;
    ok := budget.Spend(total);
  }

  /** The bookkeeping of one social round: an action of an agent outside the cohort has no
      row in the token table. */
  method RecordActions(order: seq<nat>, taken: seq<Action>, tokens: map<int, int>, liked: map<int, int>)
    returns (ok: bool, tokens': map<int, int>, liked': map<int, int>)
    requires HasKeys(tokens, order)
    ensures ok <==> KnownAgents(taken, order)
    ensures ok ==> tokens' == AddActions(tokens, taken) && liked' == AddLikes(liked, taken)
  {
    tokens', liked' := tokens, liked;
    for i := 0 to |taken|
      invariant KnownAgents(taken[..i], order) && tokens'.Keys == tokens.Keys
      invariant tokens' == AddActions(tokens, taken[..i]) && liked' == AddLikes(liked, taken[..i])
    {
      var action := taken[i];
      assert taken[..i + 1][..i] == taken[..i];
      if action.agent !in tokens' { return false, tokens', liked'; }
      tokens' := tokens'[action.agent := tokens'[action.agent] + action.tokens];
      if Positive(action) { liked' := liked'[action.agent := At(liked', action.agent) + 1]; }
    }
    assert taken[..|taken|] == taken;
    ok := true;
  }

  /** The rows of the persona members, in activation order; a negative cost has no row. */
  method BuildInstances(order: seq<nat>, tokens: map<int, int>, final: seq<Entry>)
    returns (r: Outcome<seq<Instance>>)
    ensures r.Ok? ==> r.value == PersonaInstances(order, tokens, final)
    ensures r.Ok? <==> forall i :: 0 <= i < |order| ==> At(tokens, order[i]) >= 0
    ensures r.Err? ==> r.error == RecordInvalid
  {
    var instances: seq<Instance> := [];
    for i := 0 to |order|
      invariant forall k :: 0 <= k < i ==> At(tokens, order[k]) >= 0
      invariant instances == PersonaInstances(order[..i], tokens, final)
    {
      if At(tokens, order[i]) < 0 { return Err(RecordInvalid); }
      assert order[..i + 1][..i] == order[..i];
      instances := instances + [Instance(order[i], i, At(tokens, order[i]), Voted(final, order[i]))];
    }
    assert order[..|order|] == order;
    r := Ok(instances);
  }

  /** The interview that opens the protocol. */
  method Open(request: Request, runtime: Runtime, budget: RunBudget, order: seq<nat>)
    returns (r: Outcome<Ledger>)
    requires Distinct(order) && InRoster(order, request.roster) && runtime.Valid()
    modifies runtime, budget
    ensures runtime.Valid() && runtime.stepped == old(runtime.stepped)
    ensures r.Ok? ==>
              && runtime.asked == old(runtime.asked) + |order|
              && var first := runtime.answers[old(runtime.asked)..runtime.asked];
              && AllAnswered(first)
              && r.value == Opening(request, order, first)
              && budget.consumed == old(budget.consumed) + SumOver(order, r.value.tokens) && budget.Kept()
    ensures r == Err(BudgetExceeded) ==> !budget.Kept()
  {
    var inTime := CheckClock(budget, runtime);
    if !inTime { return Err(TimedOut); }
    var replies := BallotRound(request, order, runtime);
    if replies.Err? { return Err(replies.error); }
    ghost var first := runtime.answers[old(runtime.asked)..runtime.asked];
    var ok, tokens := Charge(budget, order, FromKeys(order), replies.value.1, first);
    if !ok { return Err(BudgetExceeded); }
    SumOverZero(order, FromKeys(order));
    AddCostsSum(order, FromKeys(order), order, first);
    r := Ok(Ledger(tokens, map[], {}, replies.value.0, replies.value.2));
  }

  /** A social round: the activated personas act, and their actions are charged. */
  method SocialRound(runtime: Runtime, budget: RunBudget, order: seq<nat>, kind: RoundKind, l: Ledger)
    returns (r: Outcome<(Ledger, seq<Action>)>)
    requires Distinct(order) && HasKeys(l.tokens, order) && runtime.Valid()
    modifies runtime, budget
    ensures runtime.Valid()
    ensures r.Ok? ==>
              && runtime.stepped == old(runtime.stepped) + 1 && runtime.asked == old(runtime.asked)
              && r.value.1 == runtime.steps[old(runtime.stepped)]
              && KnownAgents(r.value.1, order) && r.value.0 == Advance(l, kind, r.value.1)
              && HasKeys(r.value.0.tokens, order)
              && budget.consumed - SumOver(order, r.value.0.tokens)
                 == old(budget.consumed) - SumOver(order, l.tokens) && budget.Kept()
    ensures r == Err(BudgetExceeded) ==> !budget.Kept()
  {
    var inTime := CheckClock(budget, runtime);
    if !inTime { return Err(TimedOut); }
    var seen := runtime.Step(Activated(order, kind));
    if seen.None? { return Err(RuntimeRaised); }
    var taken := seen.value;
    var ok := budget.Spend(StepTotal(taken));
    if !ok { return Err(BudgetExceeded); }
    var known, tokens, liked := RecordActions(order, taken, l.tokens, l.liked);
    if !known { return Err(UnknownAgent); }
    AddActionsSum(order, l.tokens, taken);
    AddActionsKeys(l.tokens, taken);
    var exposed := if kind == Exposure then set agent | agent in ExposedBy(taken) else l.exposed;
    r := Ok((l.(tokens := tokens, liked := liked, exposed := exposed), taken));
  }

  /** The interview, as the first round of the plan. */
  method FirstRound(request: Request, runtime: Runtime, budget: RunBudget, order: seq<nat>)
    returns (r: Outcome<(Ledger, seq<Round>)>)
    requires Distinct(order) && InRoster(order, request.roster) && runtime.Valid()
    modifies runtime, budget
    ensures runtime.Valid() && runtime.stepped == old(runtime.stepped)
    ensures r.Ok? ==>
              && runtime.asked == old(runtime.asked) + |order|
              && var first := runtime.answers[old(runtime.asked)..runtime.asked];
              && AllAnswered(first) && r.value.0 == LedgerOf(request, order, first, [])
              && HasKeys(r.value.0.tokens, order) && r.value.1 == RoundLog(order, [])
    ensures r.Ok? ==> budget.consumed == old(budget.consumed) + SumOver(order, r.value.0.tokens) && budget.Kept()
    ensures r == Err(BudgetExceeded) ==> !budget.Kept()
  {
    var begun := Open(request, runtime, budget, order);
    if begun.Err? { return Err(begun.error); }
    OpeningKeys(request, order, runtime.answers[old(runtime.asked)..runtime.asked]);
    r := Ok((begun.value, [Round(0, BaselineInterview, order, [])]));
  }

  /** The ledger and the round records stand for the interview and the given social rounds. */
  ghost predicate Played(request: Request, order: seq<nat>, first: seq<Answer>, steps: seq<seq<Action>>, l: Ledger,
                         rounds: seq<Round>)
    requires |first| == |order| && InRoster(order, request.roster)
  {
    l == LedgerOf(request, order, first, steps) && rounds == RoundLog(order, steps) && HasKeys(l.tokens, order)
  }

  lemma PlayedNext(request: Request, order: seq<nat>, first: seq<Answer>, all: seq<seq<Action>>, from: nat, to: nat,
                   l: Ledger, rounds: seq<Round>, l': Ledger)
    requires |first| == |order| && InRoster(order, request.roster) && from <= to < |all|
    requires Played(request, order, first, all[from..to], l, rounds)
    requires l' == Advance(l, KindAt(|rounds|), all[to]) && HasKeys(l'.tokens, order)
    ensures Played(request, order, first, all[from..to + 1], l', rounds + [RoundOf(order, |rounds|, all[to])])
  {
    var steps := all[from..to];
    SliceNext(all, from, to);
    LedgerNext(request, order, first, steps, all[to]);
    RoundLogNext(order, steps, all[to]);
  }

  /** One more social round on the ledger and on the round records: after it they stand for
      the rounds seen since `from`. */
  method NextRound(request: Request, runtime: Runtime, budget: RunBudget, order: seq<nat>, l: Ledger,
                   rounds: seq<Round>, ghost first: seq<Answer>, ghost from: nat)
    returns (r: Outcome<(Ledger, seq<Round>)>)
    requires Distinct(order) && InRoster(order, request.roster) && |first| == |order|
    requires runtime.Valid() && from <= runtime.stepped
    requires Played(request, order, first, runtime.steps[from..runtime.stepped], l, rounds)
    modifies runtime, budget
    ensures runtime.Valid()
    ensures r.Ok? ==> runtime.asked == old(runtime.asked) && runtime.stepped == old(runtime.stepped) + 1
    ensures r.Ok? ==>
              Played(request, order, first, runtime.steps[from..runtime.stepped], r.value.0, r.value.1)
    ensures r.Ok? ==> budget.consumed - SumOver(order, r.value.0.tokens)
                      == old(budget.consumed) - SumOver(order, l.tokens) && budget.Kept()
    ensures r == Err(BudgetExceeded) ==> !budget.Kept()
  {
    var k := |rounds|;
    var round := SocialRound(runtime, budget, order, KindAt(k), l);
    if round.Err? { return Err(round.error); }
    PlayedNext(request, order, first, runtime.steps, from, runtime.stepped - 1, l, rounds, round.value.0);
    r := Ok((round.value.0, rounds + [RoundOf(order, k, round.value.1)]));
  }

  /** The final ballot and the council's work. */
  method CloseCouncil(request: Request, runtime: Runtime, budget: RunBudget, order: seq<nat>, l: Ledger,
                      rounds: seq<Round>, ghost steps: seq<seq<Action>>)
    returns (r: Outcome<Work>)
    requires Distinct(order) && InRoster(order, request.roster)
    requires rounds == RoundLog(order, steps) && runtime.Valid()
    modifies runtime, budget
    ensures runtime.Valid() && runtime.stepped == old(runtime.stepped)
    ensures r.Ok? ==>
              && runtime.asked == old(runtime.asked) + |order|
              && var last := runtime.answers[old(runtime.asked)..runtime.asked];
              && AllAnswered(last) && r.value == ClosingWork(request, order, l, steps, last)
              && budget.consumed - r.value.totalTokens == old(budget.consumed) - SumOver(order, l.tokens)
              && budget.Kept()
    ensures r == Err(BudgetExceeded) ==> !budget.Kept()
  {
    var inTime := CheckClock(budget, runtime);
    if !inTime { return Err(TimedOut); }
    var replies := BallotRound(request, order, runtime);
    if replies.Err? { return Err(replies.error); }
    var final, failures := replies.value.0, l.failures + replies.value.2;
    ghost var last := runtime.answers[old(runtime.asked)..runtime.asked];
    var ok, tokens := Charge(budget, order, l.tokens, replies.value.1, last);
    if !ok { return Err(BudgetExceeded); }
    AddCostsSum(order, l.tokens, order, last);
    var instances := BuildInstances(order, tokens, final);
    if instances.Err? { return Err(instances.error); }
    r := Ok(Work(CustomerPersona,
                 if final == [] then None
                 else Some(Ballots(l.baseline, final, l.liked, |l.exposed|, |rounds|)),
                 instances.value, SumOver(order, tokens), failures, [],
                 rounds + [Round(|rounds| - 1, FinalBallot, order, [])]));
  }

  /** The rounds of the plan, whose first is the interview, then each social round. */
  method PlayRounds(request: Request, runtime: Runtime, budget: RunBudget, order: seq<nat>)
    returns (r: Outcome<(Ledger, seq<Round>)>, ghost steps: seq<seq<Action>>)
    requires Distinct(order) && InRoster(order, request.roster) && request.roundLimit >= 1 && runtime.Valid()
    modifies runtime, budget
    ensures runtime.Valid()
    ensures r.Ok? ==>
              && runtime.asked == old(runtime.asked) + |order|
              && var first := runtime.answers[old(runtime.asked)..runtime.asked];
              && AllAnswered(first)
              && |steps| + 1 == RoundsFor(request.roundLimit)
              && runtime.stepped == old(runtime.stepped) + |steps|
              && steps == runtime.steps[old(runtime.stepped)..runtime.stepped]
              && r.value.0 == LedgerOf(request, order, first, steps)
              && r.value.1 == RoundLog(order, steps)
              && budget.consumed == old(budget.consumed) + SumOver(order, r.value.0.tokens) && budget.Kept()
    ensures r == Err(BudgetExceeded) ==> !budget.Kept()
  {
    steps := [];
    var begun := FirstRound(request, runtime, budget, order);
    if begun.Err? { return Err(begun.error), steps; }
    var l, rounds := begun.value.0, begun.value.1;
    ghost var from, first := runtime.stepped, runtime.answers[old(runtime.asked)..runtime.asked];
    assert runtime.steps[from..from] == [];
    for k := 1 to RoundsFor(request.roundLimit)
      invariant runtime.Valid() && runtime.stepped == from + k - 1
      invariant runtime.asked == old(runtime.asked) + |order|
      invariant Played(request, order, first, runtime.steps[from..runtime.stepped], l, rounds)
      invariant budget.consumed == old(budget.consumed) + SumOver(order, l.tokens) && budget.Kept()
    {
      var round := NextRound(request, runtime, budget, order, l, rounds, first, from);
      if round.Err? { return Err(round.error), steps; }
      l, rounds := round.value.0, round.value.1;
    }
    steps := runtime.steps[from..runtime.stepped];
    r := Ok((l, rounds));
  }

  lemma SliceNext<T>(s: seq<T>, a: nat, b: nat)
    requires a <= b < |s|
    ensures s[a..b + 1] == s[a..b] + [s[b]]
  {
  }

  /** The persona council in a given activation order: a private interview, up to three social
      rounds, a final ballot. Its work is the function `PersonaWork` of what was heard and
      seen, and the budget was charged exactly its total. */
  method RunPersonas(request: Request, runtime: Runtime, budget: RunBudget, order: seq<nat>)
    returns (r: Outcome<Work>)
    requires Distinct(order) && InRoster(order, request.roster) && request.roundLimit >= 1 && runtime.Valid()
    modifies runtime, budget
    ensures runtime.Valid()
    ensures r.Ok? ==>
              && runtime.asked == old(runtime.asked) + |order| + |order|
              && runtime.stepped + 1 == old(runtime.stepped) + RoundsFor(request.roundLimit)
    ensures r.Ok? ==>
              var first := runtime.answers[old(runtime.asked)..runtime.asked - |order|];
              var last := runtime.answers[runtime.asked - |order|..runtime.asked];
              var steps := runtime.steps[old(runtime.stepped)..runtime.stepped];
              && AllAnswered(first) && AllAnswered(last)
              && r.value == PersonaWork(request, order, first, steps, last)
    ensures r.Ok? ==> budget.consumed == old(budget.consumed) + r.value.totalTokens && budget.Kept()
    ensures r == Err(BudgetExceeded) ==> !budget.Kept()
  {
    var played, steps := PlayRounds(request, runtime, budget, order);
    if played.Err? { return Err(played.error); }
    r := CloseCouncil(request, runtime, budget, order, played.value.0, played.value.1, steps);
  }

  /** `_persona_protocol`: the shuffled cohort, each persona once. */
  method PersonaProtocol(request: Request, runtime: Runtime, budget: RunBudget, picks: nat -> nat)
    returns (r: Outcome<Work>, order: seq<nat>)
    requires request.roundLimit >= 1 && runtime.Valid()
    modifies runtime, budget
    ensures runtime.Valid()
    ensures multiset(order) == multiset(IndicesFor(request.roster, CustomerPersona))
    ensures r.Ok? ==> r.value.role == CustomerPersona && r.value.consumed == []
    ensures r.Ok? ==> r.value.totalTokens == SumInstances(r.value.instances)
    ensures r.Ok? ==> budget.consumed == old(budget.consumed) + r.value.totalTokens && budget.Kept()
    ensures r == Err(BudgetExceeded) ==> !budget.Kept()
  {
    order := ActivationOrder(IndicesFor(request.roster, CustomerPersona), picks);
    PermutationInRoster(order, request.roster);
    r := RunPersonas(request, runtime, budget, order);
    if r.Ok? {
      ghost var first := runtime.answers[old(runtime.asked)..runtime.asked - |order|];
      ghost var last := runtime.answers[runtime.asked - |order|..runtime.asked];
      ghost var steps := runtime.steps[old(runtime.stepped)..runtime.stepped];
      PersonaWorkSums(request, order, first, steps, last);
    }
  }

  // ---------------------------------------------------------------- whole simulation

  /** One council's turn. */
  method RunCouncil(role: Role, request: Request, runtime: Runtime, budget: RunBudget, toolCalls: seq<int>,
                    consumed: seq<ArtifactType>, picks: nat -> nat)
    returns (r: Outcome<Record>)
    requires request.roundLimit >= 1 && runtime.Valid() && budget.Kept()
    requires role == CustomerPersona ==> consumed == []
    modifies runtime, budget
    ensures runtime.Valid()
    ensures r.Ok? ==> r.value.role == role && r.value.consumed == consumed
    ensures r.Ok? ==> r.value.totalTokens == SumInstances(r.value.instances)
    ensures r.Ok? ==> r.value.completed == r.value.artifact.Some?
    ensures r.Ok? && r.value.completed ==> MadeFor(r.value.artifact.value, role)
    ensures r.Ok? ==> budget.consumed == old(budget.consumed) + r.value.totalTokens && budget.Kept()
    ensures r == Err(BudgetExceeded) ==> !budget.Kept()
  {
    var inTime := CheckClock(budget, runtime);
    if !inTime { return Err(TimedOut); }
    var work: Outcome<Work>;
    if role == CustomerPersona {
      var order;
      work, order := PersonaProtocol(request, runtime, budget, picks);
    } else {
      work := Deliberate(role, request, runtime, budget, consumed);
      if work.Ok? {
        ghost var heard := runtime.answers[old(runtime.asked)..runtime.asked];
        SpokenSums(IndicesFor(request.roster, role), heard);
      }
    }
    if work.Err? { return Err(work.error); }
    FinishedRecord(work.value, request, toolCalls);
    r := Ok(FinishRun(work.value, request, toolCalls));
  }

  /** The next council is handed what is at hand, and its record and artifact are kept. */
  method NextCouncil(role: Role, request: Request, runtime: Runtime, budget: RunBudget, toolCalls: seq<int>,
                     picks: nat -> nat, artifacts: map<ArtifactType, Artifact>, ghost records: seq<Record>)
    returns (r: Outcome<Record>, artifacts': map<ArtifactType, Artifact>)
    requires request.roundLimit >= 1 && runtime.Valid() && budget.Kept()
    requires Sound(records) && HoldsProduced(artifacts, records)
    modifies runtime, budget
    ensures runtime.Valid()
    ensures r.Ok? ==>
              && r.value.role == role && Sound(records + [r.value])
              && HoldsProduced(artifacts', records + [r.value])
              && budget.consumed - SumTotals(records + [r.value]) == old(budget.consumed) - SumTotals(records)
              && budget.Kept()
    ensures r == Err(BudgetExceeded) ==> !budget.Kept()
  {
    var handed := Available(UpstreamFor(role), artifacts);
    AvailableIsProduced(UpstreamFor(role), artifacts, records);
    artifacts' := artifacts;
    r := RunCouncil(role, request, runtime, budget, toolCalls, handed, picks);
    if r.Err? { return; }
    SoundNext(records, r.value);
    ArtifactsNext(artifacts, records, r.value);
    if r.value.artifact.Some? && r.value.completed {
      artifacts' := artifacts[r.value.artifact.value.Type() := r.value.artifact.value];
    }
  }

  /** `run`: whenever it returns, for any number of personas, rounds and failures, every
      token charged is on the record of exactly one council, the sum is within the budget,
      and each council's provenance lists exactly the artifacts it was handed. */
  method RunSimulation(request: Request, runtime: Runtime, tokenBudget: nat, deadline: int, toolCalls: seq<int>,
                       picks: nat -> nat)
    returns (r: Outcome<Simulation>, consumed: int)
    requires request.roundLimit >= 1 && runtime.Valid()
    modifies runtime
    ensures r.Ok? ==> r.value == OutcomeOf(r.value.records)
    ensures r.Ok? ==> |r.value.records| == COUNCILS && InRoleOrder(r.value.records) && Sound(r.value.records)
    ensures r.Ok? ==> consumed == SumTotals(r.value.records) && consumed <= tokenBudget
    ensures r == Err(BudgetExceeded) ==> consumed > tokenBudget
  {
    var budget := new RunBudget(tokenBudget, deadline);
    var artifacts: map<ArtifactType, Artifact>, records: seq<Record>, calls: seq<int> := map[], [], [];
    for k := 0 to COUNCILS
      invariant runtime.Valid() && budget.Kept() && fresh(budget) && budget.tokenBudget == tokenBudget
      invariant |records| == k && InRoleOrder(records) && Sound(records)
      invariant HoldsProduced(artifacts, records) && budget.consumed == SumTotals(records)
    {
      if RoleAt(k) == FinanceCouncil { calls := toolCalls; }
      var record, artifacts' :=
        NextCouncil(RoleAt(k), request, runtime, budget, calls, picks, artifacts, records);
      if record.Err? { return Err(record.error), budget.consumed; }
      RoleOrderNext(records, record.value);
      records, artifacts := records + [record.value], artifacts';
    }
    r, consumed := Ok(OutcomeOf(records)), budget.consumed;
  }
}
