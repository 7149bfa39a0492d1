/** Storing a simulation: which artifacts each stored artifact says it was built from. */
module Provenance {
  import opened Options
  import opened Reducers
  import opened Councils
  import opened CouncilRecords
  import opened Orchestration

  datatype ArtifactRow = ArtifactRow(id: nat, artifactType: ArtifactType, sources: seq<nat>)

  predicate Holds(record: Record, t: ArtifactType) {
    record.artifact.Some? && record.artifact.value.Type() == t
  }

  predicate StoredEarlier(records: seq<Record>, t: ArtifactType) {
    exists j :: 0 <= j < |records| && Holds(records[j], t)
  }

  function Kept(consumed: seq<ArtifactType>, produced: map<ArtifactType, nat>): seq<ArtifactType> {
    if consumed == [] then []
    else (if consumed[0] in produced then [consumed[0]] else []) + Kept(consumed[1..], produced)
  }

  /** The ids of the consumed artifacts that were stored. */
  function SourcesOf(consumed: seq<ArtifactType>, produced: map<ArtifactType, nat>): seq<nat> {
    if consumed == [] then []
    else (if consumed[0] in produced then [produced[consumed[0]]] else [])
         + SourcesOf(consumed[1..], produced)
  }

  lemma {:induction false} SourcesPointwise(consumed: seq<ArtifactType>, produced: map<ArtifactType, nat>)
    ensures |SourcesOf(consumed, produced)| == |Kept(consumed, produced)|
    ensures forall i :: 0 <= i < |Kept(consumed, produced)| ==>
              && Kept(consumed, produced)[i] in produced
              && SourcesOf(consumed, produced)[i] == produced[Kept(consumed, produced)[i]]
  {
    if consumed != [] {
      SourcesPointwise(consumed[1..], produced);
    }
  }

  lemma {:induction false} AllKept(consumed: seq<ArtifactType>, produced: map<ArtifactType, nat>)
    ensures Kept(consumed, produced) == consumed
            <==> forall i :: 0 <= i < |consumed| ==> consumed[i] in produced
    ensures |Kept(consumed, produced)| <= |consumed|
  {
    if consumed != [] {
      AllKept(consumed[1..], produced);
      var rest := Kept(consumed[1..], produced);
      if consumed[0] in produced {
        assert ([consumed[0]] + rest)[1..] == rest;
        assert consumed == [consumed[0]] + consumed[1..];
      }
    }
  }

  /** A stored row of one of the first rows, by id and type. */
  predicate Names(rows: seq<Option<ArtifactRow>>, id: nat, t: ArtifactType) {
    exists j :: 0 <= j < |rows| && rows[j].Some? && rows[j].value.id == id && rows[j].value.artifactType == t
  }

  /** The sources are stored artifacts of earlier councils, of the listed types in order. */
  predicate SourcesAre(row: ArtifactRow, types: seq<ArtifactType>, earlier: seq<Option<ArtifactRow>>) {
    |row.sources| == |types|
    && forall i :: 0 <= i < |types| ==> Names(earlier, row.sources[i], types[i])
  }

  /** A row exists exactly for a council with an artifact, its id is new, its sources were
      stored before it, and they are all that the council consumed exactly when all of that
      was stored. */
  ghost predicate RowFor(record: Record, row: Option<ArtifactRow>, records: seq<Record>,
                         rows: seq<Option<ArtifactRow>>)
  {
    && row.Some? == record.artifact.Some?
    && (row.Some? ==>
          && Holds(record, row.value.artifactType)
          && (forall j :: 0 <= j < |rows| && rows[j].Some? ==> rows[j].value.id < row.value.id)
          && NamesConsumed(row.value, record.consumed, rows)
          && (SourcesAre(row.value, record.consumed, rows) <==> AllStored(record.consumed, records)))
  }

  ghost predicate NamesConsumed(row: ArtifactRow, consumed: seq<ArtifactType>, rows: seq<Option<ArtifactRow>>) {
    forall i :: 0 <= i < |row.sources| ==> NamesOneOf(rows, row.sources[i], consumed)
  }

  predicate NamesOneOf(rows: seq<Option<ArtifactRow>>, id: nat, consumed: seq<ArtifactType>) {
    exists i :: 0 <= i < |consumed| && Names(rows, id, consumed[i])
  }

  ghost predicate AllStored(consumed: seq<ArtifactType>, records: seq<Record>) {
    forall i :: 0 <= i < |consumed| ==> StoredEarlier(records, consumed[i])
  }

  ghost predicate StoredRow(records: seq<Record>, rows: seq<Option<ArtifactRow>>, k: nat)
    requires k < |rows| == |records|
  {
    RowFor(records[k], rows[k], records[..k], rows[..k])
  }

  /** What the `produced` dictionary knows after the first rows. */
  ghost predicate Knows(produced: map<ArtifactType, nat>, records: seq<Record>, rows: seq<Option<ArtifactRow>>,
                        next: nat)
  {
    && (forall t :: t in produced <==> StoredEarlier(records, t))
    && (forall t :: t in produced ==> Names(rows, produced[t], t))
    && forall j :: 0 <= j < |rows| && rows[j].Some? ==> rows[j].value.id < next
  }

  lemma RowIsSound(record: Record, row: ArtifactRow, produced: map<ArtifactType, nat>, records: seq<Record>,
                   rows: seq<Option<ArtifactRow>>, next: nat)
    requires Knows(produced, records, rows, next)
    requires row.sources == SourcesOf(record.consumed, produced)
    ensures NamesConsumed(row, record.consumed, rows)
    ensures SourcesAre(row, record.consumed, rows) <==> AllStored(record.consumed, records)
  {
    var kept := Kept(record.consumed, produced);
    SourcesPointwise(record.consumed, produced);
    AllKept(record.consumed, produced);
    KeptIsConsumed(record.consumed, produced);
    forall i | 0 <= i < |row.sources| ensures NamesOneOf(rows, row.sources[i], record.consumed) {
      assert row.sources[i] == produced[kept[i]];
      var n :| 0 <= n < |record.consumed| && record.consumed[n] == kept[i];
      assert Names(rows, row.sources[i], record.consumed[n]);
    }
    if AllStored(record.consumed, records) {
      assert forall i :: 0 <= i < |record.consumed| ==> record.consumed[i] in produced;
      assert kept == record.consumed;
      forall i | 0 <= i < |kept| ensures Names(rows, row.sources[i], record.consumed[i]) {
        assert row.sources[i] == produced[kept[i]];
      }
    }
    if SourcesAre(row, record.consumed, rows) {
      KeptAll(record.consumed, produced);
      forall i | 0 <= i < |record.consumed| ensures StoredEarlier(records, record.consumed[i]) {
        assert record.consumed[i] in produced;
      }
    }
  }

  lemma {:induction false} KeptIsConsumed(consumed: seq<ArtifactType>, produced: map<ArtifactType, nat>)
    ensures forall i :: 0 <= i < |Kept(consumed, produced)| ==> Kept(consumed, produced)[i] in consumed
  {
    if consumed != [] {
      KeptIsConsumed(consumed[1..], produced);
      assert consumed == [consumed[0]] + consumed[1..];
    }
  }

  lemma {:induction false} KeptAll(consumed: seq<ArtifactType>, produced: map<ArtifactType, nat>)
    requires |Kept(consumed, produced)| == |consumed|
    ensures Kept(consumed, produced) == consumed
  {
    if consumed != [] {
      AllKept(consumed[1..], produced);
      KeptAll(consumed[1..], produced);
    }
  }

  lemma KnowsNext(produced: map<ArtifactType, nat>, records: seq<Record>, rows: seq<Option<ArtifactRow>>, next: nat,
                  record: Record, row: Option<ArtifactRow>)
    requires Knows(produced, records, rows, next)
    requires row.Some? == record.artifact.Some?
    requires row.Some? ==> row.value.id == next && Holds(record, row.value.artifactType)
    ensures Knows(if row.Some? then produced[row.value.artifactType := next] else produced,
                  records + [record], rows + [row], if row.Some? then next + 1 else next)
  {
    var all, allRows := records + [record], rows + [row];
    var now := if row.Some? then produced[row.value.artifactType := next] else produced;
    forall t ensures t in now <==> StoredEarlier(all, t) {
      if j :| 0 <= j < |records| && Holds(records[j], t) { assert Holds(all[j], t); }
      if Holds(record, t) { assert Holds(all[|records|], t); }
      if j :| 0 <= j < |all| && Holds(all[j], t) { assert j < |records| ==> Holds(records[j], t); }
    }
    forall t | t in now ensures Names(allRows, now[t], t) {
      if row.Some? && t == row.value.artifactType {
        assert allRows[|rows|] == row;
      } else {
        var j :| 0 <= j < |rows| && rows[j].Some? && rows[j].value.id == produced[t] && rows[j].value.artifactType == t;
        assert allRows[j] == rows[j];
      }
    }
  }

  /** `_persist_simulation`: the rows of one run, in council order. Fresh identifiers are
      consecutive numbers. */
  method PersistSimulation(records: seq<Record>, firstId: nat) returns (rows: seq<Option<ArtifactRow>>)
    ensures |rows| == |records| && forall k :: 0 <= k < |rows| ==> StoredRow(records, rows, k)
  {
    rows := [];
    var produced: map<ArtifactType, nat> := map[];
    var next := firstId;
    for k := 0 to |records|
      invariant |rows| == k && Knows(produced, records[..k], rows, next)
      invariant forall j :: 0 <= j < k ==> StoredRow(records[..k], rows, j)
    {
      var record, row: Option<ArtifactRow> := records[k], None;
      if record.artifact.Some? {
        row := Some(ArtifactRow(next, record.artifact.value.Type(), SourcesOf(record.consumed, produced)));
        RowIsSound(record, row.value, produced, records[..k], rows, next);
      }
      KnowsNext(produced, records[..k], rows, next, record, row);
      StoredNext(records[..k], rows, record, row);
      assert records[..k + 1] == records[..k] + [record];
      rows := rows + [row];
      if row.Some? {
        produced := produced[row.value.artifactType := next];
        next := next + 1;
      }
    }
    assert records[..|records|] == records;
  }

  lemma StoredNext(records: seq<Record>, rows: seq<Option<ArtifactRow>>, record: Record, row: Option<ArtifactRow>)
    requires |rows| == |records| && forall k :: 0 <= k < |rows| ==> StoredRow(records, rows, k)
    requires RowFor(record, row, records, rows)
    ensures forall k :: 0 <= k < |rows| + 1 ==> StoredRow(records + [record], rows + [row], k)
  {
    var all, allRows := records + [record], rows + [row];
    forall k | 0 <= k < |rows| + 1 ensures StoredRow(all, allRows, k) {
      if k < |rows| {
        assert StoredRow(records, rows, k);
        assert all[..k] == records[..k] && allRows[..k] == rows[..k];
      } else {
        assert all[..k] == records && allRows[..k] == rows;
      }
    }
  }

  /** What a council of a sound simulation consumed was stored before it. */
  lemma {:induction false} ProducedIsStored(wanted: seq<ArtifactType>, records: seq<Record>)
    requires forall j :: 0 <= j < |records| && records[j].completed ==> Holds(records[j], TypeOf(records[j].role))
    ensures forall i :: 0 <= i < |OnlyProduced(wanted, records)| ==>
              StoredEarlier(records, OnlyProduced(wanted, records)[i])
  {
    if wanted != [] { ProducedIsStored(wanted[1..], records); }
  }

  /** Whatever councils failed, each stored artifact of a simulation that returned names, in
      order, stored artifacts of exactly the types its council was handed, all of the same
      run and stored before it. */
  lemma ProvenanceIsExact(records: seq<Record>, rows: seq<Option<ArtifactRow>>, k: nat)
    requires Sound(records) && k < |rows| == |records| && StoredRow(records, rows, k) && rows[k].Some?
    ensures SourcesAre(rows[k].value, OnlyProduced(UpstreamFor(records[k].role), records[..k]), rows[..k])
  {
    assert SoundRecord(records, k);
    var earlier := records[..k];
    forall j | 0 <= j < |earlier| && earlier[j].completed ensures Holds(earlier[j], TypeOf(earlier[j].role)) {
      assert SoundRecord(records, j);
    }
    ProducedIsStored(UpstreamFor(records[k].role), earlier);
  }

  /** The simulation stage: simulate, then store. */
  method SimulateAndPersist(request: Request, runtime: Runtime, tokenBudget: nat, deadline: int,
                            toolCalls: seq<int>, picks: nat -> nat, firstId: nat)
    returns (r: Outcome<Simulation>, rows: seq<Option<ArtifactRow>>)
    requires request.roundLimit >= 1 && runtime.Valid()
    modifies runtime
    ensures r.Err? ==> rows == []
    ensures r.Ok? ==>
              && |rows| == |r.value.records| == COUNCILS && SumTotals(r.value.records) <= tokenBudget
              && forall k :: 0 <= k < COUNCILS && rows[k].Some? ==>
                   SourcesAre(rows[k].value, OnlyProduced(UpstreamFor(RoleAt(k)), r.value.records[..k]), rows[..k])
  {
    var consumed;
    r, consumed := RunSimulation(request, runtime, tokenBudget, deadline, toolCalls, picks);
    if r.Err? { return r, []; }
    rows := PersistSimulation(r.value.records, firstId);
    forall k | 0 <= k < COUNCILS && rows[k].Some?
      ensures SourcesAre(rows[k].value, OnlyProduced(UpstreamFor(RoleAt(k)), r.value.records[..k]), rows[..k])
    {
      ProvenanceIsExact(r.value.records, rows, k);
    }
  }
}
