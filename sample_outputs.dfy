/** The relational `sample_outputs` table: one row inserted per sample record, and the per-run
    listing ordered by sample index. */
module SampleOutputs {
  import opened Wrappers
  import opened Json
  import opened Eval
  import opened Effects
  import opened Ordering

  /** A row of the `sample_outputs` table, column by column; the three JSON columns hold text. */
  datatype SampleOutputRow = SampleOutputRow(
    id: Uuid,
    runId: Uuid,
    dataset: string,
    subset: Option<string>,
    split: Option<string>,
    sampleIndex: i64,
    inputText: string,
    referenceText: Option<string>,
    outputText: string,
    metricsJson: Option<string>,
    latencyMs: Option<i64>,
    tokenCountsJson: Option<string>,
    errorJson: Option<string>,
    createdAt: Timestamp)

  /** A sample output as `list_by_run` returns it: the JSON columns parsed into values. */
  datatype SampleOutput = SampleOutput(
    id: Uuid,
    runId: Uuid,
    dataset: string,
    subset: Option<string>,
    split: Option<string>,
    sampleIndex: i64,
    input: string,
    reference: Option<string>,
    output: string,
    metrics: Option<Json>,
    latencyMs: Option<i64>,
    tokenCounts: Option<Json>,
    error: Option<Json>,
    createdAt: Timestamp)

  function TokenCountsValue(r: SampleRecord): Option<Json> {
    if r.tokenCounts.Some? then Some(TokenCountJson(r.tokenCounts.value)) else None
  }

  function ErrorValue(r: SampleRecord): Option<Json> {
    if r.error.Some? then Some(SampleErrorJson(r.error.value)) else None
  }

  /** The row inserted for `r` with the fresh id and clock reading `s`; each JSON column is the
      serde text of its value, `{}` when encoding fails. */
  function RowOf(c: Codec, r: SampleRecord, s: Stamp): SampleOutputRow {
    SampleOutputRow(s.id, r.runId, r.dataset, r.subset, r.split, r.sampleIndex, r.input,
                    r.reference, r.output, EncodeColumn(c, r.metrics, "{}"), r.latencyMs,
                    EncodeColumn(c, TokenCountsValue(r), "{}"), EncodeColumn(c, ErrorValue(r), "{}"),
                    s.at)
  }

  function RowsOf(c: Codec, records: seq<SampleRecord>, stamps: seq<Stamp>): seq<SampleOutputRow>
    requires |stamps| == |records|
  {
    seq(|records|, i requires 0 <= i < |records| => RowOf(c, records[i], stamps[i]))
  }

  /** Reading a row back; a JSON column that does not parse reads as `Null`. */
  function ReadSample(c: Codec, row: SampleOutputRow): SampleOutput {
    SampleOutput(row.id, row.runId, row.dataset, row.subset, row.split, row.sampleIndex,
                 row.inputText, row.referenceText, row.outputText, DecodeColumn(c, row.metricsJson),
                 row.latencyMs, DecodeColumn(c, row.tokenCountsJson), DecodeColumn(c, row.errorJson),
                 row.createdAt)
  }

  function ReadSamples(c: Codec, rows: seq<SampleOutputRow>): seq<SampleOutput> {
    seq(|rows|, i requires 0 <= i < |rows| => ReadSample(c, rows[i]))
  }

  /** The effect of `save_inline`: insert after insert until one fails; the rows inserted before
      the failure stay. On success the records themselves are the location. */
  function SaveInlineSpec(rows: seq<SampleOutputRow>, c: Codec, records: seq<SampleRecord>,
                          stamps: seq<Stamp>, fault: Option<Fault>)
    : (seq<SampleOutputRow>, Result<SampleResultLocation, DomainError>)
    requires |stamps| == |records|
  {
    var n := Succeeded(|records|, fault);
    (rows + RowsOf(c, records[..n], stamps[..n]),
     if Fails(|records|, fault) then Err(Internal(fault.value.message)) else Ok(Inline(records)))
  }

  /** Every JSON part of the record has a serde encoding. */
  predicate Encodable(c: Codec, r: SampleRecord) {
    && (r.metrics.Some? ==> c.encode(r.metrics.value).Some?)
    && (r.tokenCounts.Some? ==> c.encode(TokenCountJson(r.tokenCounts.value)).Some?)
    && (r.error.Some? ==> c.encode(SampleErrorJson(r.error.value)).Some?)
  }

  /** A stored record reads back with every field as the record has it, the nested token counts
      and error as their serde JSON objects. */
  lemma {:induction false} RowReadsBackAsRecord(c: Codec, r: SampleRecord, s: Stamp)
    requires Faithful(c) && Encodable(c, r)
    ensures ReadSample(c, RowOf(c, r, s))
         == SampleOutput(s.id, r.runId, r.dataset, r.subset, r.split, r.sampleIndex, r.input,
                         r.reference, r.output, r.metrics, r.latencyMs, TokenCountsValue(r),
                         ErrorValue(r), s.at)
  {
    ColumnRoundTrip(c, r.metrics, "{}");
    ColumnRoundTrip(c, TokenCountsValue(r), "{}");
    ColumnRoundTrip(c, ErrorValue(r), "{}");
  }

  /** On success the location is the records themselves, and there is exactly one new row per
      record, in input order, reading back as that record with its own fresh id. */
  lemma {:induction false} SaveInlineOnePerRecord(rows: seq<SampleOutputRow>, c: Codec,
                                                  records: seq<SampleRecord>, stamps: seq<Stamp>,
                                                  fault: Option<Fault>, i: nat)
    requires |stamps| == |records|
    requires SaveInlineSpec(rows, c, records, stamps, fault).1.Ok?
    requires i < |records|
    requires Faithful(c) && Encodable(c, records[i])
    ensures var (after, loc) := SaveInlineSpec(rows, c, records, stamps, fault);
      && loc == Ok(Inline(records))
      && |after| == |rows| + |records|
      && after[..|rows|] == rows
      && var r := records[i];
         ReadSample(c, after[|rows| + i])
         == SampleOutput(stamps[i].id, r.runId, r.dataset, r.subset, r.split, r.sampleIndex, r.input,
                         r.reference, r.output, r.metrics, r.latencyMs, TokenCountsValue(r),
                         ErrorValue(r), stamps[i].at)
  {
    assert records[..|records|] == records;
    assert stamps[..|stamps|] == stamps;
    RowReadsBackAsRecord(c, records[i], stamps[i]);
  }

  /** The first failing insert stops the loop and is the error returned: exactly the records
      before it have rows. */
  lemma {:induction false} SaveInlineStopsAtFault(rows: seq<SampleOutputRow>, c: Codec,
                                                  records: seq<SampleRecord>, stamps: seq<Stamp>,
                                                  k: nat, msg: string)
    requires |stamps| == |records|
    requires k < |records|
    ensures var (after, loc) := SaveInlineSpec(rows, c, records, stamps, Some(Fault(k, msg)));
      && loc == Err(Internal(msg))
      && |after| == |rows| + k
      && after == rows + RowsOf(c, records[..k], stamps[..k])
  {
  }

  ghost function IdsOf(rows: seq<SampleOutputRow>): set<Uuid> {
    set i | 0 <= i < |rows| :: rows[i].id
  }

  ghost predicate UniqueIds(rows: seq<SampleOutputRow>) {
    forall i, j :: 0 <= i < j < |rows| ==> rows[i].id != rows[j].id
  }

  /** With fresh UUIDs, the table's ids stay pairwise distinct. */
  lemma {:induction false} SaveInlineKeepsIdsUnique(rows: seq<SampleOutputRow>, c: Codec,
                                                    records: seq<SampleRecord>, stamps: seq<Stamp>,
                                                    fault: Option<Fault>)
    requires |stamps| == |records|
    requires UniqueIds(rows)
    requires FreshIds(stamps, IdsOf(rows))
    ensures UniqueIds(SaveInlineSpec(rows, c, records, stamps, fault).0)
  {
    var after := SaveInlineSpec(rows, c, records, stamps, fault).0;
    forall i, j | 0 <= i < j < |after|
      ensures after[i].id != after[j].id
    {
      if j >= |rows| {
        assert after[j].id == stamps[j - |rows|].id;
        if i >= |rows| {
          assert after[i].id == stamps[i - |rows|].id;
        } else {
          assert after[i].id in IdsOf(rows);
        }
      }
    }
  }

  /** The query of `list_by_run`: the run's rows ordered by sample index ascending. */
  function Query(rows: seq<SampleOutputRow>, runId: Uuid): seq<SampleOutputRow> {
    SortBy(Where(rows, (row: SampleOutputRow) => row.runId == runId),
           (row: SampleOutputRow) => row.sampleIndex as int)
  }

  /** What `list_by_run` returns is every sample of the run, each as often as its row is in the
      table, no sample of another run, in ascending sample index. */
  lemma {:induction false} ListingOfRun(c: Codec, rows: seq<SampleOutputRow>, runId: Uuid)
    ensures var q := Query(rows, runId);
      var l := ReadSamples(c, q);
      && |l| == |q|
      && (forall i :: 0 <= i < |l| ==> l[i] == ReadSample(c, q[i]) && l[i].runId == runId)
      && (forall i, j :: 0 <= i < j < |l| ==> l[i].sampleIndex <= l[j].sampleIndex)
      && (forall x :: multiset(q)[x] == if x.runId == runId then multiset(rows)[x] else 0)
  {
    SelectSorted(rows, (row: SampleOutputRow) => row.runId == runId,
                 (row: SampleOutputRow) => row.sampleIndex as int);
  }

  lemma ReadSamplesSnoc(c: Codec, rows: seq<SampleOutputRow>, i: nat)
    requires i < |rows|
    ensures ReadSamples(c, rows[..i + 1]) == ReadSamples(c, rows[..i]) + [ReadSample(c, rows[i])]
  {
  }

  /** The `sample_outputs` table. */
  class SampleOutputTable {
    var rows: seq<SampleOutputRow>

    constructor ()
      ensures rows == []
    {
      rows := [];
    }

    /** `save_inline`: one insert per record, each with a fresh id, stopping at the first
        failure; on success the records are returned as the inline location. */
    method SaveInline(c: Codec, records: seq<SampleRecord>, stamps: seq<Stamp>, fault: Option<Fault>)
      returns (r: Result<SampleResultLocation, DomainError>)
      requires |stamps| == |records|
      modifies this
      ensures (rows, r) == SaveInlineSpec(old(rows), c, records, stamps, fault)
    {
      var i := 0;
      while i < |records|
        invariant 0 <= i <= |records|
        invariant !Fails(i, fault)
        invariant rows == old(rows) + RowsOf(c, records[..i], stamps[..i])
      {
        if fault.Some? && fault.value.step == i {
          return Err(Internal(fault.value.message));
        }
        assert RowsOf(c, records[..i + 1], stamps[..i + 1])
            == RowsOf(c, records[..i], stamps[..i]) + [RowOf(c, records[i], stamps[i])];
        rows := rows + [RowOf(c, records[i], stamps[i])];
        i := i + 1;
      }
      r := Ok(Inline(records));
    }

    /** `list_by_run`: the run's samples in sample-index order (`ListingOfRun`), or the query's
        error. */
    method ListByRun(c: Codec, runId: Uuid, fault: Option<Fault>)
      returns (r: Result<seq<SampleOutput>, DomainError>)
      ensures Fails(1, fault) ==> r == Err(Internal(fault.value.message))
      ensures !Fails(1, fault) ==> r == Ok(ReadSamples(c, Query(rows, runId)))
    {
      if Fails(1, fault) {
        return Err(Internal(fault.value.message));
      }
      var found := Query(rows, runId);
      var samples: seq<SampleOutput> := [];
      for i := 0 to |found|
        invariant samples == ReadSamples(c, found[..i])
      {
        ReadSamplesSnoc(c, found, i);
        samples := samples + [ReadSample(c, found[i])];
      }
      assert found[..|found|] == found;
      r := Ok(samples);
    }
  }
}
