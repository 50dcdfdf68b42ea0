/** The relational `metrics` table: one row inserted per metric record, and the per-run listing
    ordered by timestamp. */
module Metrics {
  import opened Wrappers
  import opened Json
  import opened Eval
  import opened Effects
  import opened Ordering

  /** A row of the `metrics` table, column by column. */
  datatype MetricRow = MetricRow(
    id: Uuid,
    runId: Uuid,
    dataset: string,
    subset: Option<string>,
    split: Option<string>,
    metricName: string,
    value: F64,
    nSamples: Option<i64>,
    ciLow: Option<F64>,
    ciHigh: Option<F64>,
    extraJson: Option<string>,
    timestamp: Timestamp)

  /** A metric as `list_by_run` returns it. */
  datatype Metric = Metric(
    id: Uuid,
    runId: Uuid,
    dataset: string,
    subset: Option<string>,
    split: Option<string>,
    metricName: string,
    value: F64,
    nSamples: Option<i64>,
    ciLow: Option<F64>,
    ciHigh: Option<F64>,
    extra: Option<Json>,
    timestamp: Timestamp)

  /** The row inserted for `r` with the fresh id and clock reading `s`; `extra` is stored as JSON
      text, `{}` when it fails to encode. */
  function RowOf(c: Codec, r: MetricRecord, s: Stamp): MetricRow {
    MetricRow(s.id, r.runId, r.dataset, r.subset, r.split, r.metricName, r.value, r.nSamples,
              r.ciLow, r.ciHigh, EncodeColumn(c, r.extra, "{}"), s.at)
  }

  /** The rows inserted for `records`, one per record, in order. */
  function RowsOf(c: Codec, records: seq<MetricRecord>, stamps: seq<Stamp>): seq<MetricRow>
    requires |stamps| == |records|
  {
    seq(|records|, i requires 0 <= i < |records| => RowOf(c, records[i], stamps[i]))
  }

  /** Reading a row back; `extra_json` that does not parse reads as `Null`. */
  function ReadMetric(c: Codec, row: MetricRow): Metric {
    Metric(row.id, row.runId, row.dataset, row.subset, row.split, row.metricName, row.value,
           row.nSamples, row.ciLow, row.ciHigh, DecodeColumn(c, row.extraJson), row.timestamp)
  }

  function ReadMetrics(c: Codec, rows: seq<MetricRow>): seq<Metric> {
    seq(|rows|, i requires 0 <= i < |rows| => ReadMetric(c, rows[i]))
  }

  /** The effect of `save_records`: insert after insert until one fails; the rows inserted before
      the failure stay. */
  function SaveRecordsSpec(rows: seq<MetricRow>, c: Codec, records: seq<MetricRecord>,
                           stamps: seq<Stamp>, fault: Option<Fault>)
    : (seq<MetricRow>, Outcome<DomainError>)
    requires |stamps| == |records|
  {
    var n := Succeeded(|records|, fault);
    (rows + RowsOf(c, records[..n], stamps[..n]),
     if Fails(|records|, fault) then Fail(Internal(fault.value.message)) else Pass)
  }

  /** On success there is exactly one new row per record, in input order, each with its own
      fresh id and a copy of every field of its record; `extra` reads back as written. */
  lemma {:induction false} SaveRecordsOnePerRecord(rows: seq<MetricRow>, c: Codec, records: seq<MetricRecord>,
                                  stamps: seq<Stamp>, fault: Option<Fault>, i: nat)
    requires |stamps| == |records|
    requires SaveRecordsSpec(rows, c, records, stamps, fault).1.Pass?
    requires i < |records|
    requires Faithful(c)
    requires records[i].extra.Some? ==> c.encode(records[i].extra.value).Some?
    ensures var after := SaveRecordsSpec(rows, c, records, stamps, fault).0;
      && |after| == |rows| + |records|
      && after[..|rows|] == rows
      && var m := ReadMetric(c, after[|rows| + i]);
         var r := records[i];
         && m.id == stamps[i].id && m.timestamp == stamps[i].at
         && m == Metric(stamps[i].id, r.runId, r.dataset, r.subset, r.split, r.metricName, r.value,
                        r.nSamples, r.ciLow, r.ciHigh, r.extra, stamps[i].at)
  {
    assert records[..|records|] == records;
    assert stamps[..|stamps|] == stamps;
    ColumnRoundTrip(c, records[i].extra, "{}");
  }

  /** The first failing insert stops the loop: exactly the records before it have rows, and
      nothing before the table's old end changes. */
  lemma {:induction false} SaveRecordsStopsAtFault(rows: seq<MetricRow>, c: Codec, records: seq<MetricRecord>,
                                  stamps: seq<Stamp>, k: nat, msg: string)
    requires |stamps| == |records|
    requires k < |records|
    ensures var (after, r) := SaveRecordsSpec(rows, c, records, stamps, Some(Fault(k, msg)));
      && r == Fail(Internal(msg))
      && |after| == |rows| + k
      && after == rows + RowsOf(c, records[..k], stamps[..k])
  {
  }

  /** Saving no records inserts nothing and succeeds, whatever the database would do. */
  lemma SaveNoRecords(rows: seq<MetricRow>, c: Codec, fault: Option<Fault>)
    ensures SaveRecordsSpec(rows, c, [], [], fault) == (rows, Pass)
  {
    var none: seq<MetricRecord> := [];
    var noStamps: seq<Stamp> := [];
    assert Succeeded(0, fault) == 0;
    assert none[..0] == none && noStamps[..0] == noStamps;
    assert RowsOf(c, none, noStamps) == [];
    assert rows + [] == rows;
  }

  ghost function IdsOf(rows: seq<MetricRow>): set<Uuid> {
    set i | 0 <= i < |rows| :: rows[i].id
  }

  ghost predicate UniqueIds(rows: seq<MetricRow>) {
    forall i, j :: 0 <= i < j < |rows| ==> rows[i].id != rows[j].id
  }

  /** With fresh UUIDs, the table's ids stay pairwise distinct. */
  lemma {:induction false} SaveRecordsKeepsIdsUnique(rows: seq<MetricRow>, c: Codec, records: seq<MetricRecord>,
                                    stamps: seq<Stamp>, fault: Option<Fault>)
    requires |stamps| == |records|
    requires UniqueIds(rows)
    requires FreshIds(stamps, IdsOf(rows))
    ensures UniqueIds(SaveRecordsSpec(rows, c, records, stamps, fault).0)
  {
    var n := Succeeded(|records|, fault);
    var after := SaveRecordsSpec(rows, c, records, stamps, fault).0;
    forall i, j | 0 <= i < j < |after|
      ensures after[i].id != after[j].id
    {
      if j >= |rows| {
        assert after[j].id == stamps[j - |rows|].id;
        if i >= |rows| {
          assert after[i].id == stamps[i - |rows|].id;
        } else {
          assert after[i].id in IdsOf(rows);
        }
      }
    }
  }

  /** The query of `list_by_run`: the run's rows ordered by timestamp ascending. */
  function Query(rows: seq<MetricRow>, runId: Uuid): seq<MetricRow> {
    SortBy(Where(rows, (row: MetricRow) => row.runId == runId), (row: MetricRow) => row.timestamp)
  }

  /** What `list_by_run` returns is every metric of the run, each as often as its row is in the
      table, no metric of another run, oldest first. */
  lemma {:induction false} ListingOfRun(c: Codec, rows: seq<MetricRow>, runId: Uuid)
    ensures var q := Query(rows, runId);
      var l := ReadMetrics(c, q);
      && |l| == |q|
      && (forall i :: 0 <= i < |l| ==> l[i] == ReadMetric(c, q[i]) && l[i].runId == runId)
      && (forall i, j :: 0 <= i < j < |l| ==> l[i].timestamp <= l[j].timestamp)
      && (forall x :: multiset(q)[x] == if x.runId == runId then multiset(rows)[x] else 0)
  {
    SelectSorted(rows, (row: MetricRow) => row.runId == runId, (row: MetricRow) => row.timestamp);
  }

  lemma ReadMetricsSnoc(c: Codec, rows: seq<MetricRow>, i: nat)
    requires i < |rows|
    ensures ReadMetrics(c, rows[..i + 1]) == ReadMetrics(c, rows[..i]) + [ReadMetric(c, rows[i])]
  {
  }

  /** The `metrics` table. */
  class MetricTable {
    var rows: seq<MetricRow>

    constructor ()
      ensures rows == []
    {
      rows := [];
    }

    /** `save_records`: one insert per record, each with a fresh id, stopping at the first
        failure. */
    method SaveRecords(c: Codec, records: seq<MetricRecord>, stamps: seq<Stamp>, fault: Option<Fault>)
      returns (r: Outcome<DomainError>)
      requires |stamps| == |records|
      modifies this
      ensures (rows, r) == SaveRecordsSpec(old(rows), c, records, stamps, fault)
    {
      var i := 0;
      while i < |records|
        invariant 0 <= i <= |records|
        invariant !Fails(i, fault)
        invariant rows == old(rows) + RowsOf(c, records[..i], stamps[..i])
      {
        if fault.Some? && fault.value.step == i {
          return Fail(Internal(fault.value.message));
        }
        assert RowsOf(c, records[..i + 1], stamps[..i + 1])
            == RowsOf(c, records[..i], stamps[..i]) + [RowOf(c, records[i], stamps[i])];
        rows := rows + [RowOf(c, records[i], stamps[i])];
        i := i + 1;
      }
      r := Pass;
    }

    /** `list_by_run`: the run's metrics, oldest first (`ListingOfRun`), or the query's error. */
    method ListByRun(c: Codec, runId: Uuid, fault: Option<Fault>) returns (r: Result<seq<Metric>, DomainError>)
      ensures Fails(1, fault) ==> r == Err(Internal(fault.value.message))
      ensures !Fails(1, fault) ==> r == Ok(ReadMetrics(c, Query(rows, runId)))
    {
      if Fails(1, fault) {
        return Err(Internal(fault.value.message));
      }
      var found := Query(rows, runId);
      var metrics: seq<Metric> := [];
      for i := 0 to |found|
        invariant metrics == ReadMetrics(c, found[..i])
      {
        ReadMetricsSnoc(c, found, i);
        metrics := metrics + [ReadMetric(c, found[i])];
      }
      assert found[..|found|] == found;
      r := Ok(metrics);
    }
  }
}
