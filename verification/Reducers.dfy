/** Counting the persona ballots. Archetypes, objection codes, labels and agents are compared
    and ordered but never read, so opaque integers stand for the strings; of a quote, as of
    every text an agent writes, the report's validator reads the numbers. */
module Reducers {
  import opened Options
  import opened Sorting

  /** The digit groups of one text, in order of appearance. */
  datatype Text = Text(numbers: seq<int>)

  datatype Choice = Purchase | Consider | Reject

  datatype Ballot = Ballot(
    agentId: int,
    archetype: int,
    choice: Choice,
    objectionCode: int,
    objectionLabel: int,
    priceMin: int,
    priceMax: int,
    quote: Text)
  {
    /** The field bounds and `validate_band`. */
    predicate Valid() { 0 <= priceMin <= priceMax }
  }

  datatype SegmentTally = SegmentTally(archetype: int, personaCount: nat, purchaseCount: nat)
  datatype ObjectionTally = ObjectionTally(code: int, objectionLabel: int, count: nat)
  datatype Quote = Quote(agent: int, words: Text)
  datatype PriceBand = PriceBand(minIdr: int, maxIdr: int)

  datatype SimulationResult = SimulationResult(
    cohortSize: int,
    rounds: int,
    activated: nat,
    purchases: nat,
    positives: nat,
    shifted: nat,
    segments: seq<SegmentTally>,
    objections: seq<ObjectionTally>,
    band: Option<PriceBand>,
    quotes: seq<Quote>,
    exposureNoted: bool)

  // ------------------------------------------------------------------- reductions

  /** `_median`: the middle of the sorted copy, or the floored mean of the middle two. */
  function Median(values: seq<int>): int
    requires values != []
  {
    var ordered := SortInts(values);
    var middle := |ordered| / 2;
    if |ordered| % 2 == 1 then ordered[middle]
    else (ordered[middle - 1] + ordered[middle]) / 2
  }

  function Column(ballots: seq<Ballot>, field: Ballot -> int): (r: seq<int>)
    ensures |r| == |ballots|
    ensures forall i :: 0 <= i < |ballots| ==> r[i] == field(ballots[i])
  {
    if ballots == [] then [] else [field(ballots[0])] + Column(ballots[1..], field)
  }

  predicate Bought(b: Ballot) { b.choice == Purchase }

  /** Last baseline ballot of an agent, as the dictionary comprehension keeps it. */
  function BaselineChoice(baseline: seq<Ballot>, agentId: int): Option<Choice> {
    if baseline == [] then None
    else
      var last := baseline[|baseline| - 1];
      if last.agentId == agentId then Some(last.choice)
      else BaselineChoice(baseline[..|baseline| - 1], agentId)
  }

  predicate Shifted(baseline: seq<Ballot>, b: Ballot) {
    var before := BaselineChoice(baseline, b.agentId);
    before.Some? && before.value != b.choice
  }

  predicate Reacted(reactions: map<int, int>, b: Ballot) {
    b.agentId in reactions && reactions[b.agentId] > 0
  }

  function Segments(ballots: seq<Ballot>, keys: seq<int>): seq<SegmentTally> {
    if keys == [] then []
    else
      [SegmentTally(keys[0],
                    Count(ballots, (b: Ballot) => b.archetype == keys[0]),
                    Count(ballots, (b: Ballot) => b.archetype == keys[0] && Bought(b)))]
      + Segments(ballots, keys[1..])
  }

  datatype Tally = Tally(code: int, count: nat)

  /** The sort key `(-count, code)`. */
  predicate Before(x: Tally, y: Tally) {
    x.count > y.count || (x.count == y.count && x.code <= y.code)
  }

  function Tallies(ballots: seq<Ballot>, keys: seq<int>): seq<Tally> {
    if keys == [] then []
    else
      [Tally(keys[0], Count(ballots, (b: Ballot) => b.objectionCode == keys[0]))]
      + Tallies(ballots, keys[1..])
  }

  /** The tallies in report order. `Counter` lists them by first occurrence; the sort key is
      a total order on them, so the order before sorting does not matter. */
  function ObjectionOrder(ballots: seq<Ballot>): seq<Tally> {
    Sort(Tallies(ballots, Keys(Column(ballots, (b: Ballot) => b.objectionCode))), Before)
  }

  /** The label of the last ballot that names the code. */
  function LabelOf(ballots: seq<Ballot>, code: int): int {
    if ballots == [] then 0
    else
      var last := ballots[|ballots| - 1];
      if last.objectionCode == code then last.objectionLabel
      else LabelOf(ballots[..|ballots| - 1], code)
  }

  function Labelled(ballots: seq<Ballot>, tallies: seq<Tally>): seq<ObjectionTally> {
    if tallies == [] then []
    else [ObjectionTally(tallies[0].code, LabelOf(ballots, tallies[0].code), tallies[0].count)]
         + Labelled(ballots, tallies[1..])
  }

  function SumPersonas(segments: seq<SegmentTally>): nat {
    if segments == [] then 0 else segments[0].personaCount + SumPersonas(segments[1..])
  }

  function SumPurchases(segments: seq<SegmentTally>): nat {
    if segments == [] then 0 else segments[0].purchaseCount + SumPurchases(segments[1..])
  }

  function SumObjections(objections: seq<ObjectionTally>): nat {
    if objections == [] then 0 else objections[0].count + SumObjections(objections[1..])
  }

  /** What the artifact's own validators demand of it. */
  predicate AcceptedBand(band: Option<PriceBand>) {
    band.Some? ==> 0 <= band.value.minIdr <= band.value.maxIdr
  }

  predicate AcceptedSegments(segments: seq<SegmentTally>) {
    forall i :: 0 <= i < |segments| ==> segments[i].purchaseCount <= segments[i].personaCount
  }

  predicate Accepted(r: SimulationResult) {
    && r.cohortSize >= 1 && r.rounds >= 1
    && r.activated <= r.cohortSize && r.purchases <= r.activated && r.positives <= r.activated
    && SumPersonas(r.segments) <= r.cohortSize
    && AcceptedSegments(r.segments) && AcceptedBand(r.band) && |r.quotes| <= 12
  }

  function Quotes(ballots: seq<Ballot>, maxQuotes: nat): seq<Quote> {
    var quoted := if |ballots| <= maxQuotes then ballots else ballots[..maxQuotes];
    seq(|quoted|, i requires 0 <= i < |quoted| => Quote(quoted[i].agentId, quoted[i].quote))
  }

  function BandOf(ballots: seq<Ballot>): Option<PriceBand> {
    if ballots == [] then None
    else Some(PriceBand(Median(Column(ballots, (b: Ballot) => b.priceMin)),
                        Median(Column(ballots, (b: Ballot) => b.priceMax))))
  }

  /** The reduction before any validator looks at it. */
  function Tabulate(ballots: seq<Ballot>, cohortSize: int, rounds: int, baseline: seq<Ballot>,
                    reactions: map<int, int>, exposureComplete: bool, maxQuotes: nat): SimulationResult
  {
    SimulationResult(
      cohortSize, rounds, |ballots|,
      Count(ballots, Bought),
      Count(ballots, (b: Ballot) => Reacted(reactions, b)),
      Count(ballots, (b: Ballot) => Shifted(baseline, b)),
      Segments(ballots, Keys(Column(ballots, (b: Ballot) => b.archetype))),
      Labelled(ballots, ObjectionOrder(ballots)),
      BandOf(ballots),
      Quotes(ballots, maxQuotes),
      !exposureComplete)
  }

  /** `None` is the validation error that rejects the council's artifact. */
  function ReduceBallots(ballots: seq<Ballot>, cohortSize: int, rounds: int, baseline: seq<Ballot>,
                         reactions: map<int, int>, exposureComplete: bool, maxQuotes: nat)
    : Option<SimulationResult>
  {
    var r := Tabulate(ballots, cohortSize, rounds, baseline, reactions, exposureComplete, maxQuotes);
    if Accepted(r) then Some(r) else None
  }

  // ------------------------------------------------------------- the price band

  lemma DivTwoMonotone(a: int, b: int)
    requires a <= b
    ensures a / 2 <= b / 2
  {
  }

  /** If every ballot's band is ordered, so is the band of the two separate medians. */
  lemma MediansKeepOrder(lows: seq<int>, highs: seq<int>)
    requires |lows| == |highs| > 0
    requires forall i :: 0 <= i < |lows| ==> lows[i] <= highs[i]
    ensures Median(lows) <= Median(highs)
  {
    var middle := |lows| / 2;
    SortedPointwise(lows, highs, middle);
    if |lows| % 2 == 0 {
      SortedPointwise(lows, highs, middle - 1);
      DivTwoMonotone(SortInts(lows)[middle - 1] + SortInts(lows)[middle],
                     SortInts(highs)[middle - 1] + SortInts(highs)[middle]);
    }
  }

  lemma MedianBetween(values: seq<int>, ordered: seq<int>)
    requires values != [] && ordered == SortInts(values)
    ensures ordered[(|ordered| - 1) / 2] <= Median(values) <= ordered[|ordered| / 2]
  {
    var low, high := (|ordered| - 1) / 2, |ordered| / 2;
    SortIntsSorted(values);
    if low < high { assert AtMost(ordered[low], ordered[high]); }
  }

  lemma CountAtMost(values: seq<int>, ordered: seq<int>, k: nat, v: int)
    requires ordered == SortInts(values) && k < |ordered|
    ensures ordered[k] <= v <==> Count(values, x => x <= v) >= k + 1
  {
    SortIntsSorted(values);
    RankByCount(ordered, k, v);
    CountPermutation(ordered, values, x => x <= v);
  }

  /** The reported bound is a median: at most half of the ballots lie below it, and at least
      half lie at or below it. */
  lemma MedianSplits(values: seq<int>)
    requires values != []
    ensures 2 * Count(values, x => x <= Median(values)) >= |values|
    ensures 2 * Count(values, x => x <= Median(values) - 1) <= |values|
  {
    var ordered := SortInts(values);
    MedianBetween(values, ordered);
    CountAtMost(values, ordered, (|ordered| - 1) / 2, Median(values));
    CountAtMost(values, ordered, |ordered| / 2, Median(values) - 1);
  }

  lemma BandAccepted(ballots: seq<Ballot>)
    requires forall i :: 0 <= i < |ballots| ==> ballots[i].Valid()
    ensures AcceptedBand(BandOf(ballots))
  {
    if ballots == [] { return; }
    var lows := Column(ballots, (b: Ballot) => b.priceMin);
    var highs := Column(ballots, (b: Ballot) => b.priceMax);
    MediansKeepOrder(lows, highs);
    MedianAtLeast(lows, 0);
  }

  lemma MedianAtLeast(values: seq<int>, low: int)
    requires values != [] && forall i :: 0 <= i < |values| ==> low <= values[i]
    ensures low <= Median(values)
  {
    var ordered := SortInts(values);
    forall i | 0 <= i < |ordered| ensures low <= ordered[i] {
      assert ordered[i] in multiset(ordered);
      assert ordered[i] in multiset(values);
    }
  }

  // --------------------------------------------------------------- conservation

  /** Per-key counts of the ballots that satisfy `p`, added over the keys. */
  function SumByKey(ballots: seq<Ballot>, key: Ballot -> int, p: Ballot -> bool, keys: seq<int>): nat {
    if keys == [] then 0
    else Count(ballots, (b: Ballot) => key(b) == keys[0] && p(b)) + SumByKey(ballots, key, p, keys[1..])
  }

  lemma {:induction false} SumByKeyEmpty(key: Ballot -> int, p: Ballot -> bool, keys: seq<int>)
    ensures SumByKey([], key, p, keys) == 0
  {
    if keys != [] { SumByKeyEmpty(key, p, keys[1..]); }
  }

  /** One more ballot raises the total by one exactly when it counts and its key is listed. */
  lemma {:induction false} SumByKeyStep(ballots: seq<Ballot>, key: Ballot -> int, p: Ballot -> bool, keys: seq<int>)
    requires ballots != [] && Ascending(keys)
    ensures SumByKey(ballots, key, p, keys)
            == SumByKey(ballots[1..], key, p, keys)
               + (if p(ballots[0]) && key(ballots[0]) in keys then 1 else 0)
  {
    if keys != [] {
      SumByKeyStep(ballots, key, p, keys[1..]);
      assert keys == [keys[0]] + keys[1..];
      assert keys[0] !in keys[1..];
    }
  }

  /** Distinct keys that cover every ballot partition the count. */
  lemma {:induction false} KeysPartitionCount(ballots: seq<Ballot>, key: Ballot -> int, p: Ballot -> bool,
                                              keys: seq<int>)
    requires Ascending(keys) && forall i :: 0 <= i < |ballots| ==> key(ballots[i]) in keys
    ensures SumByKey(ballots, key, p, keys) == Count(ballots, p)
  {
    if ballots == [] {
      SumByKeyEmpty(key, p, keys);
    } else {
      SumByKeyStep(ballots, key, p, keys);
      KeysPartitionCount(ballots[1..], key, p, keys);
    }
  }

  lemma {:induction false} CountSame<T>(s: seq<T>, p: T -> bool, q: T -> bool)
    requires forall i :: 0 <= i < |s| ==> p(s[i]) == q(s[i])
    ensures Count(s, p) == Count(s, q)
  {
    if s != [] { CountSame(s[1..], p, q); }
  }

  lemma {:induction false} CountFewer<T>(s: seq<T>, p: T -> bool, q: T -> bool)
    requires forall i :: 0 <= i < |s| ==> p(s[i]) ==> q(s[i])
    ensures Count(s, p) <= Count(s, q)
  {
    if s != [] { CountFewer(s[1..], p, q); }
  }

  lemma {:induction false} CountAll<T>(s: seq<T>, p: T -> bool)
    requires forall i :: 0 <= i < |s| ==> p(s[i])
    ensures Count(s, p) == |s|
  {
    if s != [] { CountAll(s[1..], p); }
  }

  lemma {:induction false} SegmentPersonas(ballots: seq<Ballot>, key: Ballot -> int, p: Ballot -> bool, keys: seq<int>)
    requires forall b: Ballot :: key(b) == b.archetype && p(b)
    ensures SumPersonas(Segments(ballots, keys)) == SumByKey(ballots, key, p, keys)
  {
    if keys != [] {
      SegmentPersonas(ballots, key, p, keys[1..]);
      assert Segments(ballots, keys)[1..] == Segments(ballots, keys[1..]);
      CountSame(ballots, (b: Ballot) => b.archetype == keys[0], (b: Ballot) => key(b) == keys[0] && p(b));
    }
  }

  lemma {:induction false} SegmentPurchases(ballots: seq<Ballot>, key: Ballot -> int, p: Ballot -> bool, keys: seq<int>)
    requires forall b: Ballot :: key(b) == b.archetype && p(b) == Bought(b)
    ensures SumPurchases(Segments(ballots, keys)) == SumByKey(ballots, key, p, keys)
  {
    if keys != [] {
      SegmentPurchases(ballots, key, p, keys[1..]);
      assert Segments(ballots, keys)[1..] == Segments(ballots, keys[1..]);
      CountSame(ballots, (b: Ballot) => b.archetype == keys[0] && Bought(b),
                (b: Ballot) => key(b) == keys[0] && p(b));
    }
  }

  lemma {:induction false} SegmentsAccepted(ballots: seq<Ballot>, keys: seq<int>)
    ensures AcceptedSegments(Segments(ballots, keys))
  {
    if keys != [] {
      var k := keys[0];
      var all, rest := Segments(ballots, keys), Segments(ballots, keys[1..]);
      SegmentsAccepted(ballots, keys[1..]);
      CountFewer(ballots, (b: Ballot) => b.archetype == k && Bought(b), (b: Ballot) => b.archetype == k);
      forall i | 0 <= i < |all| ensures all[i].purchaseCount <= all[i].personaCount {
        assert i > 0 ==> all[i] == rest[i - 1];
      }
    }
  }

  lemma SegmentsConserve(ballots: seq<Ballot>)
    ensures var segments := Segments(ballots, Keys(Column(ballots, (b: Ballot) => b.archetype)));
      && SumPersonas(segments) == |ballots|
      && SumPurchases(segments) == Count(ballots, Bought)
      && AcceptedSegments(segments)
  {
    var column := Column(ballots, (b: Ballot) => b.archetype);
    var keys := Keys(column);
    KeysAscending(column);
    forall i | 0 <= i < |ballots| ensures ballots[i].archetype in keys {
      assert column[i] in column;
    }
    var key, all := (b: Ballot) => b.archetype, (b: Ballot) => true;
    SegmentPersonas(ballots, key, all, keys);
    SegmentPurchases(ballots, key, Bought, keys);
    SegmentsAccepted(ballots, keys);
    KeysPartitionCount(ballots, key, all, keys);
    KeysPartitionCount(ballots, key, Bought, keys);
    CountAll(ballots, all);
  }

  // Objections are reordered before they are added up, so the sum goes through the multiset.

  function SumTallies(tallies: seq<Tally>): nat {
    if tallies == [] then 0 else tallies[0].count + SumTallies(tallies[1..])
  }

  lemma {:induction false} SumInsert(x: Tally, s: seq<Tally>)
    ensures SumTallies(Insert(x, s, Before)) == x.count + SumTallies(s)
  {
    if s != [] && !Before(x, s[0]) {
      SumInsert(x, s[1..]);
      assert ([s[0]] + Insert(x, s[1..], Before))[1..] == Insert(x, s[1..], Before);
    } else {
      assert ([x] + s)[1..] == s;
    }
  }

  lemma {:induction false} SumSort(s: seq<Tally>)
    ensures SumTallies(Sort(s, Before)) == SumTallies(s)
  {
    if s != [] {
      SumSort(s[1..]);
      SumInsert(s[0], Sort(s[1..], Before));
    }
  }

  lemma {:induction false} LabelledSums(ballots: seq<Ballot>, tallies: seq<Tally>)
    ensures SumObjections(Labelled(ballots, tallies)) == SumTallies(tallies)
  {
    if tallies != [] { LabelledSums(ballots, tallies[1..]); }
  }

  lemma {:induction false} TallySums(ballots: seq<Ballot>, keys: seq<int>)
    ensures SumTallies(Tallies(ballots, keys))
            == SumByKey(ballots, (b: Ballot) => b.objectionCode, (b: Ballot) => true, keys)
  {
    if keys != [] {
      var k := keys[0];
      TallySums(ballots, keys[1..]);
      CountSame(ballots, (b: Ballot) => b.objectionCode == k,
                (b: Ballot) => ((b: Ballot) => b.objectionCode)(b) == k && ((b: Ballot) => true)(b));
    }
  }

  lemma ObjectionsConserve(ballots: seq<Ballot>)
    ensures SumObjections(Labelled(ballots, ObjectionOrder(ballots))) == |ballots|
  {
    var column := Column(ballots, (b: Ballot) => b.objectionCode);
    var keys := Keys(column);
    KeysAscending(column);
    forall i | 0 <= i < |ballots| ensures ballots[i].objectionCode in keys {
      assert column[i] in column;
    }
    LabelledSums(ballots, ObjectionOrder(ballots));
    SumSort(Tallies(ballots, keys));
    TallySums(ballots, keys);
    KeysPartitionCount(ballots, (b: Ballot) => b.objectionCode, (b: Ballot) => true, keys);
    CountAll(ballots, (b: Ballot) => true);
  }

  /** Nothing is lost or counted twice: segments add up to the activated personas and their
      purchases to the purchase count, objections to the activated personas, and every
      ballot is at most one reaction and one shift. */
  lemma CountsConserved(ballots: seq<Ballot>, cohortSize: int, rounds: int, baseline: seq<Ballot>,
                        reactions: map<int, int>, exposureComplete: bool, maxQuotes: nat)
    ensures var r := Tabulate(ballots, cohortSize, rounds, baseline, reactions, exposureComplete, maxQuotes);
      && r.activated == |ballots|
      && SumPersonas(r.segments) == r.activated && SumPurchases(r.segments) == r.purchases
      && SumObjections(r.objections) == r.activated
      && r.purchases <= r.activated && r.positives <= r.activated && r.shifted <= r.activated
  {
    SegmentsConserve(ballots);
    ObjectionsConserve(ballots);
    CountAtMostLength(ballots, Bought);
    CountAtMostLength(ballots, (b: Ballot) => Reacted(reactions, b));
    CountAtMostLength(ballots, (b: Ballot) => Shifted(baseline, b));
  }

  lemma TableAccepted(activated: nat, r: SimulationResult)
    requires r.activated == activated && SumPersonas(r.segments) == activated
    requires r.purchases <= r.activated && r.positives <= r.activated
    requires AcceptedSegments(r.segments) && AcceptedBand(r.band)
    ensures Accepted(r) <==> 1 <= r.cohortSize && activated <= r.cohortSize && r.rounds >= 1 && |r.quotes| <= 12
  {
  }

  lemma QuotesFit(ballots: seq<Ballot>, maxQuotes: nat)
    ensures |Quotes(ballots, maxQuotes)| == if |ballots| <= maxQuotes then |ballots| else maxQuotes
  {
  }

  lemma TableFits(ballots: seq<Ballot>, r: SimulationResult, cohortSize: int, rounds: int, baseline: seq<Ballot>,
                  reactions: map<int, int>, exposureComplete: bool, maxQuotes: nat)
    requires forall i :: 0 <= i < |ballots| ==> ballots[i].Valid()
    requires r == Tabulate(ballots, cohortSize, rounds, baseline, reactions, exposureComplete, maxQuotes)
    ensures AcceptedSegments(r.segments) && AcceptedBand(r.band)
    ensures |r.quotes| == if |ballots| <= maxQuotes then |ballots| else maxQuotes
  {
    SegmentsConserve(ballots);
    BandAccepted(ballots);
    QuotesFit(ballots, maxQuotes);
  }

  /** Valid ballots are accepted exactly when there are no more of them than the cohort and
      the sizes themselves are sensible: at least one round, at most twelve quotes. */
  lemma AcceptedExactly(ballots: seq<Ballot>, cohortSize: int, rounds: int, baseline: seq<Ballot>,
                        reactions: map<int, int>, exposureComplete: bool, maxQuotes: nat)
    requires forall i :: 0 <= i < |ballots| ==> ballots[i].Valid()
    ensures ReduceBallots(ballots, cohortSize, rounds, baseline, reactions, exposureComplete, maxQuotes).Some?
            <==> && 1 <= cohortSize && |ballots| <= cohortSize && rounds >= 1
                 && (|ballots| <= 12 || maxQuotes <= 12)
  {
    var r := Tabulate(ballots, cohortSize, rounds, baseline, reactions, exposureComplete, maxQuotes);
    CountsConserved(ballots, cohortSize, rounds, baseline, reactions, exposureComplete, maxQuotes);
    TableFits(ballots, r, cohortSize, rounds, baseline, reactions, exposureComplete, maxQuotes);
    TableAccepted(|ballots|, r);
  }

  // ------------------------------------------------------ activation order

  lemma {:induction false} ColumnCount(ballots: seq<Ballot>, field: Ballot -> int, v: int)
    ensures multiset(Column(ballots, field))[v] == Count(ballots, (b: Ballot) => field(b) == v)
  {
    if ballots != [] {
      ColumnCount(ballots[1..], field, v);
    }
  }

  lemma ColumnPermutation(a: seq<Ballot>, b: seq<Ballot>, field: Ballot -> int)
    requires multiset(a) == multiset(b)
    ensures multiset(Column(a, field)) == multiset(Column(b, field))
  {
    forall v ensures multiset(Column(a, field))[v] == multiset(Column(b, field))[v] {
      ColumnCount(a, field, v);
      ColumnCount(b, field, v);
      CountPermutation(a, b, (x: Ballot) => field(x) == v);
    }
  }

  lemma MedianPermutation(a: seq<int>, b: seq<int>)
    requires a != [] && b != [] && multiset(a) == multiset(b)
    ensures Median(a) == Median(b)
  {
    SortIntsSorted(a);
    SortIntsSorted(b);
    SortedUnique(SortInts(a), SortInts(b), AtMost);
  }

  lemma {:induction false} SegmentsPermutation(a: seq<Ballot>, b: seq<Ballot>, keys: seq<int>)
    requires multiset(a) == multiset(b)
    ensures Segments(a, keys) == Segments(b, keys)
  {
    if keys != [] {
      var k := keys[0];
      CountPermutation(a, b, (x: Ballot) => x.archetype == k);
      CountPermutation(a, b, (x: Ballot) => x.archetype == k && Bought(x));
      SegmentsPermutation(a, b, keys[1..]);
    }
  }

  lemma {:induction false} TalliesPermutation(a: seq<Ballot>, b: seq<Ballot>, keys: seq<int>)
    requires multiset(a) == multiset(b)
    ensures Tallies(a, keys) == Tallies(b, keys)
  {
    if keys != [] {
      var k := keys[0];
      CountPermutation(a, b, (x: Ballot) => x.objectionCode == k);
      TalliesPermutation(a, b, keys[1..]);
    }
  }

  lemma ObjectionOrderPermutation(a: seq<Ballot>, b: seq<Ballot>)
    requires multiset(a) == multiset(b)
    ensures ObjectionOrder(a) == ObjectionOrder(b)
  {
    var code := (x: Ballot) => x.objectionCode;
    ColumnPermutation(a, b, code);
    KeysPermutation(Column(a, code), Column(b, code));
    TalliesPermutation(a, b, Keys(Column(a, code)));
  }

  /** The shuffled activation order is invisible in every count, segment, objection tally
      and in the price band; only the quotes and contested labels can follow the order. */
  lemma OrderIsInvisible(a: seq<Ballot>, b: seq<Ballot>, cohortSize: int, rounds: int, baseline: seq<Ballot>,
                         reactions: map<int, int>, exposureComplete: bool, maxQuotes: nat)
    requires multiset(a) == multiset(b)
    ensures var x := Tabulate(a, cohortSize, rounds, baseline, reactions, exposureComplete, maxQuotes);
      var y := Tabulate(b, cohortSize, rounds, baseline, reactions, exposureComplete, maxQuotes);
      && y.(objections := x.objections, quotes := x.quotes) == x
      && ObjectionOrder(a) == ObjectionOrder(b)
  {
    assert |a| == |multiset(a)| == |multiset(b)| == |b|;
    CountPermutation(a, b, Bought);
    CountPermutation(a, b, (x: Ballot) => Reacted(reactions, x));
    CountPermutation(a, b, (x: Ballot) => Shifted(baseline, x));
    var archetype := (x: Ballot) => x.archetype;
    ColumnPermutation(a, b, archetype);
    KeysPermutation(Column(a, archetype), Column(b, archetype));
    SegmentsPermutation(a, b, Keys(Column(a, archetype)));
    ObjectionOrderPermutation(a, b);
    BandPermutation(a, b);
  }

  lemma BandPermutation(a: seq<Ballot>, b: seq<Ballot>)
    requires multiset(a) == multiset(b)
    ensures BandOf(a) == BandOf(b)
  {
    assert |a| == |multiset(a)| == |multiset(b)| == |b|;
    if a == [] { return; }
    ColumnPermutation(a, b, (x: Ballot) => x.priceMin);
    ColumnPermutation(a, b, (x: Ballot) => x.priceMax);
    MedianPermutation(Column(a, (x: Ballot) => x.priceMin), Column(b, (x: Ballot) => x.priceMin));
    MedianPermutation(Column(a, (x: Ballot) => x.priceMax), Column(b, (x: Ballot) => x.priceMax));
  }

  // ------------------------------------------------------------- objection labels

  /** Ballots that raise the same objection word it the same way. */
  ghost predicate LabelsAgree(ballots: seq<Ballot>) {
    forall i, j ::
      (0 <= i < |ballots| && 0 <= j < |ballots| && ballots[i].objectionCode == ballots[j].objectionCode)
      ==> ballots[i].objectionLabel == ballots[j].objectionLabel
  }

  lemma {:induction false} LabelOfSome(ballots: seq<Ballot>, i: nat)
    requires i < |ballots| && LabelsAgree(ballots)
    ensures LabelOf(ballots, ballots[i].objectionCode) == ballots[i].objectionLabel
  {
    var last := |ballots| - 1;
    if ballots[last].objectionCode != ballots[i].objectionCode {
      assert ballots[..last][i] == ballots[i];
      LabelOfSome(ballots[..last], i);
    }
  }

  lemma {:induction false} LabelledSame(a: seq<Ballot>, b: seq<Ballot>, tallies: seq<Tally>)
    requires forall i :: 0 <= i < |tallies| ==> LabelOf(a, tallies[i].code) == LabelOf(b, tallies[i].code)
    ensures Labelled(a, tallies) == Labelled(b, tallies)
  {
    if tallies != [] { LabelledSame(a, b, tallies[1..]); }
  }

  lemma {:induction false} LabelledLength(ballots: seq<Ballot>, tallies: seq<Tally>)
    ensures |Labelled(ballots, tallies)| == |tallies|
  {
    if tallies != [] { LabelledLength(ballots, tallies[1..]); }
  }

  lemma {:induction false} LabelledCodes(ballots: seq<Ballot>, tallies: seq<Tally>, i: nat)
    requires i < |tallies|
    ensures i < |Labelled(ballots, tallies)|
    ensures Labelled(ballots, tallies)[i]
            == ObjectionTally(tallies[i].code, LabelOf(ballots, tallies[i].code), tallies[i].count)
  {
    if i > 0 {
      LabelledCodes(ballots, tallies[1..], i - 1);
    }
  }

  lemma {:induction false} TallyHasKey(ballots: seq<Ballot>, keys: seq<int>, j: nat)
    requires j < |Tallies(ballots, keys)|
    ensures Tallies(ballots, keys)[j].code in keys
  {
    if j > 0 { TallyHasKey(ballots, keys[1..], j - 1); }
  }

  lemma {:induction false} TallyAt(ballots: seq<Ballot>, keys: seq<int>, j: nat, p: Ballot -> bool)
    requires j < |Tallies(ballots, keys)|
    requires forall b: Ballot :: p(b) == (b.objectionCode == Tallies(ballots, keys)[j].code)
    ensures Tallies(ballots, keys)[j].count == Count(ballots, p)
  {
    if j > 0 {
      TallyAt(ballots, keys[1..], j - 1, p);
    } else {
      CountSame(ballots, (b: Ballot) => b.objectionCode == keys[0], p);
    }
  }

  lemma BeforeIsTotal()
    ensures TotalPreorder(Before)
  {
  }

  /** Objections are ranked by count, ties by code, and each count is the number of ballots
      that raise the objection. */
  lemma ObjectionsAreRanked(ballots: seq<Ballot>, i: nat, p: Ballot -> bool)
    requires i < |ObjectionOrder(ballots)|
    requires forall b: Ballot :: p(b) == (b.objectionCode == ObjectionOrder(ballots)[i].code)
    ensures ObjectionOrder(ballots)[i].count == Count(ballots, p)
    ensures Sorted(ObjectionOrder(ballots), Before)
  {
    var keys := Keys(Column(ballots, (b: Ballot) => b.objectionCode));
    var tallies, sorted := Tallies(ballots, keys), ObjectionOrder(ballots);
    BeforeIsTotal();
    SortSorted(tallies, Before);
    assert sorted[i] in multiset(sorted) && sorted[i] in multiset(tallies);
    var j :| 0 <= j < |tallies| && tallies[j] == sorted[i];
    TallyAt(ballots, keys, j, p);
  }

  lemma {:induction false} KeyHasTally(ballots: seq<Ballot>, keys: seq<int>, code: int) returns (j: nat)
    requires code in keys
    ensures j < |Tallies(ballots, keys)| && Tallies(ballots, keys)[j].code == code
  {
    if keys[0] == code {
      j := 0;
    } else {
      j := KeyHasTally(ballots, keys[1..], code);
      j := j + 1;
    }
  }

  /** A code is reported exactly when some ballot raises it. */
  lemma CodeIsReported(ballots: seq<Ballot>, code: int)
    ensures (exists i :: 0 <= i < |ObjectionOrder(ballots)| && ObjectionOrder(ballots)[i].code == code)
            <==> exists k :: 0 <= k < |ballots| && ballots[k].objectionCode == code
  {
    var column := Column(ballots, (b: Ballot) => b.objectionCode);
    var keys := Keys(column);
    var tallies, sorted := Tallies(ballots, keys), ObjectionOrder(ballots);
    assert multiset(sorted) == multiset(tallies);
    if i :| 0 <= i < |sorted| && sorted[i].code == code {
      assert sorted[i] in multiset(tallies);
      var j :| 0 <= j < |tallies| && tallies[j] == sorted[i];
      TallyHasKey(ballots, keys, j);
      assert code in column;
    }
    if k :| 0 <= k < |ballots| && ballots[k].objectionCode == code {
      assert column[k] in column;
      var j := KeyHasTally(ballots, keys, code);
      assert tallies[j] in multiset(sorted);
    }
  }

  function Objections(ballots: seq<Ballot>): seq<ObjectionTally> {
    Labelled(ballots, ObjectionOrder(ballots))
  }

  lemma AgreedLabelsIgnoreOrder(a: seq<Ballot>, b: seq<Ballot>)
    requires multiset(a) == multiset(b) && LabelsAgree(a)
    ensures Objections(a) == Objections(b)
  {
    ObjectionOrderPermutation(a, b);
    assert LabelsAgree(b) by {
      forall i, j | 0 <= i < |b| && 0 <= j < |b| && b[i].objectionCode == b[j].objectionCode
        ensures b[i].objectionLabel == b[j].objectionLabel
      {
        assert b[i] in multiset(a) && b[j] in multiset(a);
      }
    }
    var tallies := ObjectionOrder(a);
    forall i | 0 <= i < |tallies|
      ensures LabelOf(a, tallies[i].code) == LabelOf(b, tallies[i].code)
    {
      CodeIsReported(a, tallies[i].code);
      var k :| 0 <= k < |a| && a[k].objectionCode == tallies[i].code;
      assert a[k] in multiset(b);
      var m :| 0 <= m < |b| && b[m] == a[k];
      LabelOfSome(a, k);
      LabelOfSome(b, m);
    }
    LabelledSame(a, b, tallies);
  }

  function MoveToEnd(ballots: seq<Ballot>, i: nat): (r: seq<Ballot>)
    requires i < |ballots|
    ensures multiset(r) == multiset(ballots)
  {
    assert ballots == ballots[..i] + ([ballots[i]] + ballots[i + 1..]);
    ballots[..i] + ballots[i + 1..] + [ballots[i]]
  }

  /** Moving one ballot last makes its wording the reported one. */
  lemma MovedLabelWins(ballots: seq<Ballot>, i: nat, x: ObjectionTally)
    requires i < |ballots| && x in Objections(MoveToEnd(ballots, i))
    requires x.code == ballots[i].objectionCode
    ensures x.objectionLabel == ballots[i].objectionLabel
  {
    var moved := MoveToEnd(ballots, i);
    var k :| 0 <= k < |Objections(moved)| && Objections(moved)[k] == x;
    LabelledLength(moved, ObjectionOrder(moved));
    LabelledCodes(moved, ObjectionOrder(moved), k);
  }

  lemma CodeHasTally(ballots: seq<Ballot>, i: nat) returns (x: ObjectionTally)
    requires i < |ballots|
    ensures x in Objections(ballots) && x.code == ballots[i].objectionCode
  {
    CodeIsReported(ballots, ballots[i].objectionCode);
    var k :| 0 <= k < |ObjectionOrder(ballots)|
             && ObjectionOrder(ballots)[k].code == ballots[i].objectionCode;
    LabelledCodes(ballots, ObjectionOrder(ballots), k);
    x := Objections(ballots)[k];
  }

  /** The reported objections ignore activation order exactly when ballots agree on labels:
      the dictionary of labels keeps whichever ballot came last. */
  lemma LabelsIgnoreOrderExactly(a: seq<Ballot>)
    ensures LabelsAgree(a) <==>
            forall b: seq<Ballot> :: multiset(b) == multiset(a) ==> Objections(b) == Objections(a)
  {
    if LabelsAgree(a) {
      forall b: seq<Ballot> | multiset(b) == multiset(a) ensures Objections(b) == Objections(a) {
        AgreedLabelsIgnoreOrder(a, b);
      }
    } else {
      var i, j :| 0 <= i < |a| && 0 <= j < |a| && a[i].objectionCode == a[j].objectionCode
                  && a[i].objectionLabel != a[j].objectionLabel;
      var x := CodeHasTally(a, i);
      if Objections(MoveToEnd(a, i)) == Objections(a) && Objections(MoveToEnd(a, j)) == Objections(a) {
        MovedLabelWins(a, i, x);
        MovedLabelWins(a, j, x);
      }
    }
  }
}
