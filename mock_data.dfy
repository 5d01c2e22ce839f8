/**
 * The browser-side aggregation of records into a `DataSummary`
 * (`calculateSummary`) and the demo-data generators (`generateMockRecords`,
 * `generateMockHistory`). Every `Math.random()` draw is a parameter of type
 * `Unit`; dates and timestamps are given as the strings the code would have
 * formatted.
 */
module MockData {
  import opened Common
  import opened Text
  import opened Numbers
  import opened Equipment

  // ---------------------------------------------------------------------------
  // Category counts
  // ---------------------------------------------------------------------------

  /** The three fields a summary counts by. */
  datatype Category = ByType | ByStatus | ByManufacturer

  function CategoryOf(r: EquipmentRecord, c: Category): string {
    match c
    case ByType => r.equipmentType
    case ByStatus => r.status
    case ByManufacturer => r.manufacturer
  }

  /** The value of category `c` of every record, in order. */
  function CategoryValues(rs: seq<EquipmentRecord>, c: Category): seq<string> {
    seq(|rs|, i requires 0 <= i < |rs| => CategoryOf(rs[i], c))
  }

  /** How many records have `v` as their value of category `c`. */
  function Occurrences(rs: seq<EquipmentRecord>, c: Category, v: string): nat {
    multiset(CategoryValues(rs, c))[v]
  }

  /**
   * The counting map built by one pass over `rs`, record after record:
   * `dist[key] = (dist[key] || 0) + 1`.
   */
  function Histogram(rs: seq<EquipmentRecord>, c: Category): map<string, nat> {
    if rs == [] then map[]
    else
      var h := Histogram(rs[..|rs| - 1], c);
      Counted(h, CategoryOf(rs[|rs| - 1], c))
  }

  /** `dist[k] = (dist[k] || 0) + 1`. */
  function Counted(h: map<string, nat>, k: string): map<string, nat> {
    h[k := (if k in h then h[k] else 0) + 1]
  }

  /**
   * A key is present exactly when some record has it, and its count is its
   * number of occurrences.
   */
  lemma {:induction false} HistogramCounts(rs: seq<EquipmentRecord>, c: Category, v: string)
    ensures v in Histogram(rs, c) <==> Occurrences(rs, c, v) > 0
    ensures v in Histogram(rs, c) ==> Histogram(rs, c)[v] == Occurrences(rs, c, v)
  {
    if rs != [] {
      var init := rs[..|rs| - 1];
      HistogramCounts(init, c, v);
      assert CategoryValues(rs, c) == CategoryValues(init, c) + [CategoryOf(rs[|rs| - 1], c)];
    }
  }

  /** The sum of the counts of a map. */
  ghost function SumValues(m: map<string, nat>): nat
    decreases |m|
  {
    if m == map[] then 0
    else
      var k :| k in m;
      m[k] + SumValues(m - {k})
  }

  /** The sum does not depend on which key is taken out first. */
  lemma {:induction false} SumValuesRemove(m: map<string, nat>, k: string)
    requires k in m
    ensures SumValues(m) == m[k] + SumValues(m - {k})
    decreases |m|
  {
    var j :| j in m && SumValues(m) == m[j] + SumValues(m - {j});
    if j != k {
      SumValuesRemove(m - {j}, k);
      SumValuesRemove(m - {k}, j);
      assert m - {j} - {k} == m - {k} - {j};
    }
  }

  lemma SumValuesUpdate(m: map<string, nat>, k: string, v: nat)
    ensures SumValues(m[k := v]) == SumValues(m) - (if k in m then m[k] else 0) + v
  {
    var m' := m[k := v];
    SumValuesRemove(m', k);
    assert m' - {k} == m - {k};
    if k in m {
      SumValuesRemove(m, k);
    } else {
      assert m - {k} == m;
    }
  }

  /** The counts of a distribution add up to the number of records. */
  lemma {:induction false} HistogramSum(rs: seq<EquipmentRecord>, c: Category)
    ensures SumValues(Histogram(rs, c)) == |rs|
  {
    if rs != [] {
      var init := rs[..|rs| - 1];
      HistogramSum(init, c);
      var h := Histogram(init, c);
      var k := CategoryOf(rs[|rs| - 1], c);
      SumValuesUpdate(h, k, (if k in h then h[k] else 0) + 1);
    }
  }

  // ---------------------------------------------------------------------------
  // Totals and means
  // ---------------------------------------------------------------------------

  /** The three numeric fields a summary averages. */
  datatype Metric = CostMetric | EfficiencyMetric | RuntimeMetric

  function MetricOf(r: EquipmentRecord, m: Metric): Tenths {
    match m
    case CostMetric => r.cost
    case EfficiencyMetric => r.efficiencyRating
    case RuntimeMetric => r.runtimeHours
  }

  /** The running total of one metric over `rs`, in tenths. */
  function Total(rs: seq<EquipmentRecord>, m: Metric): int {
    if rs == [] then 0 else Total(rs[..|rs| - 1], m) + MetricOf(rs[|rs| - 1], m)
  }

  /** `Math.round(total / n)` for a total in tenths: a whole number, NaN when n is 0. */
  function WholeMean(total: Tenths, n: nat): Mean {
    if n == 0 then NaN else Mean(10 * RoundHalfUp(total, 10 * n))
  }

  /** `Math.round((total / n) * 10) / 10`: a mean to one decimal, NaN when n is 0. */
  function TenthsMean(total: Tenths, n: nat): Mean {
    if n == 0 then NaN else Mean(RoundHalfUp(total, n))
  }

  /** A whole-number mean is a multiple of ten tenths, rounded half up from the exact quotient. */
  lemma WholeMeanRounds(total: Tenths, n: nat)
    requires n > 0
    ensures WholeMean(total, n).Mean? && WholeMean(total, n).tenths % 10 == 0
    ensures IsRoundHalfUp(WholeMean(total, n).tenths / 10, total, 10 * n)
  {
    var q := RoundHalfUp(total, 10 * n);
    assert 10 * q / 10 == q;
  }

  /** A one-decimal mean is the exact quotient rounded half up to tenths. */
  lemma TenthsMeanRounds(total: Tenths, n: nat)
    requires n > 0
    ensures TenthsMean(total, n).Mean? && IsRoundHalfUp(TenthsMean(total, n).tenths, total, n)
  {
  }

  /** The summary `calculateSummary(records)` returns. */
  function Summarize(rs: seq<EquipmentRecord>): DataSummary {
    DataSummary(
      |rs|,
      Averages(
        Some(WholeMean(Total(rs, CostMetric), |rs|)),
        Some(TenthsMean(Total(rs, EfficiencyMetric), |rs|)),
        Some(WholeMean(Total(rs, RuntimeMetric), |rs|))),
      Histogram(rs, ByType),
      Histogram(rs, ByStatus),
      Histogram(rs, ByManufacturer))
  }

  function Distribution(s: DataSummary, c: Category): map<string, nat> {
    match c
    case ByType => s.equipmentTypeDistribution
    case ByStatus => s.statusDistribution
    case ByManufacturer => s.manufacturerDistribution
  }

  /** What one more record does to the counting maps and the running totals of a prefix. */
  lemma PrefixStep(rs: seq<EquipmentRecord>, i: nat)
    requires i < |rs|
    ensures Histogram(rs[..i + 1], ByType) == Counted(Histogram(rs[..i], ByType), rs[i].equipmentType)
    ensures Histogram(rs[..i + 1], ByStatus) == Counted(Histogram(rs[..i], ByStatus), rs[i].status)
    ensures Histogram(rs[..i + 1], ByManufacturer) == Counted(Histogram(rs[..i], ByManufacturer), rs[i].manufacturer)
    ensures Total(rs[..i + 1], CostMetric) == Total(rs[..i], CostMetric) + rs[i].cost
    ensures Total(rs[..i + 1], EfficiencyMetric) == Total(rs[..i], EfficiencyMetric) + rs[i].efficiencyRating
    ensures Total(rs[..i + 1], RuntimeMetric) == Total(rs[..i], RuntimeMetric) + rs[i].runtimeHours
  {
    assert rs[..i + 1][..i] == rs[..i];
  }

  /**
   * `calculateSummary`: one loop over the records fills three counting maps
   * and three running totals, then the count and the rounded means are taken.
   */
  method CalculateSummary(records: seq<EquipmentRecord>) returns (summary: DataSummary)
    ensures summary == Summarize(records)
    ensures summary.totalCount == |records|
    ensures forall c: Category :: SumValues(Distribution(summary, c)) == |records|
  {
    var typeDistribution: map<string, nat> := map[];
    var statusDistribution: map<string, nat> := map[];
    var manufacturerDistribution: map<string, nat> := map[];
    var totalCost, totalEfficiency, totalRuntime := 0, 0, 0;
    for i := 0 to |records|
      invariant typeDistribution == Histogram(records[..i], ByType)
      invariant statusDistribution == Histogram(records[..i], ByStatus)
      invariant manufacturerDistribution == Histogram(records[..i], ByManufacturer)
      invariant totalCost == Total(records[..i], CostMetric)
      invariant totalEfficiency == Total(records[..i], EfficiencyMetric)
      invariant totalRuntime == Total(records[..i], RuntimeMetric)
    {
      var r := records[i];
      PrefixStep(records, i);
      typeDistribution := Counted(typeDistribution, r.equipmentType);
      statusDistribution := Counted(statusDistribution, r.status);
      manufacturerDistribution := Counted(manufacturerDistribution, r.manufacturer);
      totalCost := totalCost + r.cost;
      totalEfficiency := totalEfficiency + r.efficiencyRating;
      totalRuntime := totalRuntime + r.runtimeHours;
    }
    assert records[..|records|] == records;
    var n := |records|;
    summary := DataSummary(
      n,
      Averages(
        Some(WholeMean(totalCost, n)),
        Some(TenthsMean(totalEfficiency, n)),
        Some(WholeMean(totalRuntime, n))),
      typeDistribution, statusDistribution, manufacturerDistribution);
    assert summary == Summarize(records);
    DistributionSums(records);
  }

  /** The counts of every distribution of a summary add up to the number of records. */
  lemma DistributionSums(rs: seq<EquipmentRecord>)
    ensures forall c: Category :: SumValues(Distribution(Summarize(rs), c)) == |rs|
  {
    var s := Summarize(rs);
    assert s.equipmentTypeDistribution == Histogram(rs, ByType);
    assert s.statusDistribution == Histogram(rs, ByStatus);
    assert s.manufacturerDistribution == Histogram(rs, ByManufacturer);
    HistogramSum(rs, ByType);
    HistogramSum(rs, ByStatus);
    HistogramSum(rs, ByManufacturer);
  }

  // ---------------------------------------------------------------------------
  // What a summary says about its records
  // ---------------------------------------------------------------------------

  /**
   * Each distribution has a key exactly for the values that occur, with the
   * number of records that carry it; a value that does not occur is absent
   * (never present with count 0); the counts add up to `totalCount`.
   */
  lemma SummaryDistributions(rs: seq<EquipmentRecord>, c: Category, v: string)
    ensures Summarize(rs).totalCount == |rs|
    ensures v in Distribution(Summarize(rs), c) <==> Occurrences(rs, c, v) > 0
    ensures v in Distribution(Summarize(rs), c) ==> Distribution(Summarize(rs), c)[v] == Occurrences(rs, c, v)
    ensures SumValues(Distribution(Summarize(rs), c)) == Summarize(rs).totalCount
  {
    HistogramCounts(rs, c, v);
    HistogramSum(rs, c);
  }

  /**
   * For records, the cost and runtime means are `Math.round(total / n)`
   * (whole numbers) and the efficiency mean is `Math.round(total * 10 / n) / 10`
   * (a whole number of tenths).
   */
  lemma SummaryMeans(rs: seq<EquipmentRecord>)
    requires |rs| > 0
    ensures var a := Summarize(rs).averages;
      && a.cost.Some? && a.cost.value.Mean? && a.cost.value.tenths % 10 == 0
      && IsRoundHalfUp(a.cost.value.tenths / 10, Total(rs, CostMetric), 10 * |rs|)
      && a.efficiencyRating.Some? && a.efficiencyRating.value.Mean?
      && IsRoundHalfUp(a.efficiencyRating.value.tenths, Total(rs, EfficiencyMetric), |rs|)
      && a.runtimeHours.Some? && a.runtimeHours.value.Mean? && a.runtimeHours.value.tenths % 10 == 0
      && IsRoundHalfUp(a.runtimeHours.value.tenths / 10, Total(rs, RuntimeMetric), 10 * |rs|)
  {
    WholeMeanRounds(Total(rs, CostMetric), |rs|);
    TenthsMeanRounds(Total(rs, EfficiencyMetric), |rs|);
    WholeMeanRounds(Total(rs, RuntimeMetric), |rs|);
  }

  /** With no records the count is 0, the distributions are empty and every mean is NaN. */
  lemma SummaryOfNothing()
    ensures Summarize([]) == DataSummary(0, Averages(Some(NaN), Some(NaN), Some(NaN)), map[], map[], map[])
  {
  }

  /** The total of values that all lie in [lo, hi] lies in [n*lo, n*hi]. */
  lemma {:induction false} TotalBounds(rs: seq<EquipmentRecord>, m: Metric, lo: int, hi: int)
    requires forall i :: 0 <= i < |rs| ==> lo <= MetricOf(rs[i], m) <= hi
    ensures |rs| * lo <= Total(rs, m) <= |rs| * hi
  {
    if rs != [] {
      var n := |rs| - 1;
      var init := rs[..n];
      assert forall i :: 0 <= i < |init| ==> init[i] == rs[i];
      TotalBounds(init, m, lo, hi);
      MulSucc(n, lo);
      MulSucc(n, hi);
    }
  }

  lemma MulSucc(n: int, k: int)
    ensures (n + 1) * k == n * k + k
  {
  }

  /** A rounded mean lies between the smallest and the largest value averaged. */
  lemma MeanWithinBounds(rs: seq<EquipmentRecord>, m: Metric, lo: int, hi: int)
    requires |rs| > 0
    requires forall i :: 0 <= i < |rs| ==> lo <= MetricOf(rs[i], m) <= hi
    ensures var t := RoundHalfUp(Total(rs, m), |rs|); lo <= t <= hi
  {
    TotalBounds(rs, m, lo, hi);
    RoundHalfUpBounds(Total(rs, m), |rs|, lo, hi);
  }

  /** Two pumps, one operational costing 1000 and one faulty costing 3000. */
  lemma SummaryExample(a: EquipmentRecord, b: EquipmentRecord)
    requires a.equipmentType == "Pump" && a.status == "operational" && a.cost == 10000
    requires b.equipmentType == "Pump" && b.status == "faulty" && b.cost == 30000
    ensures Summarize([a, b]).totalCount == 2
    ensures Summarize([a, b]).equipmentTypeDistribution == map["Pump" := 2]
    ensures Summarize([a, b]).statusDistribution == map["operational" := 1, "faulty" := 1]
    ensures Summarize([a, b]).averages.cost == Some(Mean(20000))
  {
    var rs := [a, b];
    assert rs[..1] == [a];
    assert [a][..0] == [];
    assert Histogram([a], ByType) == map["Pump" := 1];
    assert Histogram(rs, ByType) == map["Pump" := 2];
    assert Histogram([a], ByStatus) == map["operational" := 1];
    assert Histogram(rs, ByStatus) == map["operational" := 1, "faulty" := 1];
    assert Total([a], CostMetric) == 10000;
    assert Total(rs, CostMetric) == 40000;
    assert RoundHalfUp(40000, 20) == 2000;
  }

  // ---------------------------------------------------------------------------
  // Demo records
  // ---------------------------------------------------------------------------

  /** One value of `Math.random()`. */
  type Unit = r: real | 0.0 <= r < 1.0

  /** `Math.floor(r * k)`: an index below `k`. */
  function Scale(r: Unit, k: nat): (i: nat)
    requires k > 0
    ensures i < k
  {
    var x := r * (k as real);
    assert 0.0 <= x < k as real;
    x.Floor
  }

  /** `xs[Math.floor(Math.random() * xs.length)]`. */
  function Pick(xs: seq<string>, r: Unit): (x: string)
    requires |xs| > 0
    ensures x in xs
  {
    xs[Scale(r, |xs|)]
  }

  const EquipmentTypes: seq<string> := ["Pump", "Motor", "Compressor", "Generator", "Conveyor", "Valve"]
  const Manufacturers: seq<string> := ["Siemens", "ABB", "GE", "Caterpillar", "Bosch", "Schneider"]
  const Locations: seq<string> := ["Building A", "Building B", "Warehouse 1", "Plant Floor", "Utility Room"]

  /**
   * The random draws one generated record consumes. The two dates are the
   * `YYYY-MM-DD` strings the code derives from its own draws.
   */
  datatype RecordDraw = RecordDraw(
    typeDraw: Unit,
    manufacturerDraw: Unit,
    modelDraw: Unit,
    installationDate: string,
    lastMaintenance: string,
    statusDraw: Unit,
    locationDraw: Unit,
    costDraw: Unit,
    efficiencyDraw: Unit,
    runtimeDraw: Unit)

  /** `EQ-` followed by `i + 1` padded with zeros to four digits. */
  function MockId(i: nat): string {
    "EQ-" + PadStart(NatToString(i + 1), 4, '0')
  }

  /** `Math.round((r * 30 + 70) * 10)`: the efficiency rating in tenths. */
  function EfficiencyTenths(r: Unit): (t: int)
    ensures 700 <= t <= 1000
  {
    (r * 300.0 + 700.0 + 0.5).Floor
  }

  /** The record `generateMockRecords` builds at index `i`. */
  function MockRecord(i: nat, d: RecordDraw): EquipmentRecord {
    var id := MockId(i);
    EquipmentRecord(
      id, id,
      Pick(EquipmentTypes, d.typeDraw),
      Pick(Manufacturers, d.manufacturerDraw),
      "Model-" + NatToString(Scale(d.modelDraw, 100)),
      d.installationDate,
      d.lastMaintenance,
      Pick(Statuses, d.statusDraw),
      Pick(Locations, d.locationDraw),
      10 * (Scale(d.costDraw, 50000) + 5000),
      EfficiencyTenths(d.efficiencyDraw),
      10 * (Scale(d.runtimeDraw, 15000) + 1000),
      [])
  }

  /** `generateMockRecords(count)`: `Array.from({ length: count }, ...)`. */
  function GenerateMockRecords(count: int, draw: nat -> RecordDraw): seq<EquipmentRecord> {
    var n := if count < 0 then 0 else count;
    seq(n, i requires 0 <= i < n => MockRecord(i, draw(i)))
  }

  /** `MockId(i)` starts with "EQ-" and its digits read back as `i + 1`. */
  lemma MockIdRoundTrip(i: nat)
    ensures |MockId(i)| >= 7 && MockId(i)[..3] == "EQ-"
    ensures AllDigits(MockId(i)[3..]) && DigitsValue(MockId(i)[3..]) == i + 1
    ensures i < 9999 ==> |MockId(i)| == 7
  {
    var digits := NatToString(i + 1);
    var padded := PadStart(digits, 4, '0');
    assert MockId(i)[3..] == padded;
    var z := padded[..|padded| - |digits|];
    assert padded == z + digits;
    LeadingZeros(z, digits);
    NatToStringRoundTrip(i + 1);
    if i < 9999 {
      NatToStringShort(i + 1);
    }
  }

  /** Different positions get different ids. */
  lemma MockIdsDistinct(i: nat, j: nat)
    requires i != j
    ensures MockId(i) != MockId(j)
  {
    MockIdRoundTrip(i);
    MockIdRoundTrip(j);
  }

  /**
   * `generateMockRecords(count)` returns `count` records (none for a negative
   * count); record `i` has `id == equipment_id == MockId(i)`, a cost in
   * [5000, 54999], a runtime in [1000, 15999], an efficiency in [70.0, 100.0],
   * one of the four statuses and a type, manufacturer and location from the
   * fixed lists.
   */
  lemma MockRecordsShape(count: int, draw: nat -> RecordDraw, i: int)
    ensures |GenerateMockRecords(count, draw)| == if count < 0 then 0 else count
    ensures 0 <= i < count ==>
      var r := GenerateMockRecords(count, draw)[i];
      && r.id == r.equipmentId == MockId(i)
      && r.cost % 10 == 0 && 50000 <= r.cost <= 549990
      && r.runtimeHours % 10 == 0 && 10000 <= r.runtimeHours <= 159990
      && 700 <= r.efficiencyRating <= 1000
      && r.status in Statuses
      && r.equipmentType in EquipmentTypes
      && r.manufacturer in Manufacturers
      && r.location in Locations
      && r.extra == []
  {
    if 0 <= i < count {
      var d := draw(i);
      assert GenerateMockRecords(count, draw)[i] == MockRecord(i, d);
      var c := Scale(d.costDraw, 50000);
      var h := Scale(d.runtimeDraw, 15000);
      assert 0 <= c < 50000 && 0 <= h < 15000;
    }
  }

  /** Over generated records, every rounded mean stays within the generator's bounds. */
  lemma MockMeansWithinBounds(count: nat, draw: nat -> RecordDraw)
    requires count > 0
    ensures var a := Summarize(GenerateMockRecords(count, draw)).averages;
      && a.cost.Some? && a.cost.value.Mean? && 50000 <= a.cost.value.tenths <= 549990
      && a.runtimeHours.Some? && a.runtimeHours.value.Mean? && 10000 <= a.runtimeHours.value.tenths <= 159990
      && a.efficiencyRating.Some? && a.efficiencyRating.value.Mean? && 700 <= a.efficiencyRating.value.tenths <= 1000
  {
    var rs := GenerateMockRecords(count, draw);
    forall k | 0 <= k < |rs|
      ensures 50000 <= MetricOf(rs[k], CostMetric) <= 549990
      ensures 10000 <= MetricOf(rs[k], RuntimeMetric) <= 159990
      ensures 700 <= MetricOf(rs[k], EfficiencyMetric) <= 1000
    {
      MockRecordsShape(count, draw, k);
    }
    TotalBounds(rs, CostMetric, 50000, 549990);
    RoundHalfUpBounds(Total(rs, CostMetric), 10 * |rs|, 5000, 54999);
    TotalBounds(rs, RuntimeMetric, 10000, 159990);
    RoundHalfUpBounds(Total(rs, RuntimeMetric), 10 * |rs|, 1000, 15999);
    MeanWithinBounds(rs, EfficiencyMetric, 700, 1000);
  }

  // ---------------------------------------------------------------------------
  // Demo history
  // ---------------------------------------------------------------------------

  const MockFilenames: seq<string> := [
    "q1_equipment_data.csv",
    "maintenance_report_jan.csv",
    "factory_a_inventory.csv",
    "annual_equipment_audit.csv",
    "equipment_updates_dec.csv"]

  /** The draws one history entry consumes: its size, its records and its timestamp. */
  datatype HistoryDraw = HistoryDraw(countDraw: Unit, records: nat -> RecordDraw, uploadedAt: string)

  function MockHistoryEntry(i: nat, d: HistoryDraw): UploadHistory
    requires i < |MockFilenames|
  {
    var records := GenerateMockRecords(Scale(d.countDraw, 100) + 30, d.records);
    UploadHistory("upload-" + NatToString(i + 1), MockFilenames[i], d.uploadedAt, |records|, Summarize(records))
  }

  /** `generateMockHistory()`: one entry per demo file name. */
  function GenerateMockHistory(draw: nat -> HistoryDraw): seq<UploadHistory> {
    seq(5, i requires 0 <= i < 5 => MockHistoryEntry(i, draw(i)))
  }

  /**
   * The demo history has five entries with ids "upload-1" .. "upload-5" and
   * the five demo file names; each entry's record count is the total count of
   * its summary and lies in [30, 129].
   */
  lemma MockHistoryShape(draw: nat -> HistoryDraw, i: int)
    ensures |GenerateMockHistory(draw)| == 5
    ensures 0 <= i < 5 ==>
      var e := GenerateMockHistory(draw)[i];
      && e.id == "upload-" + NatToString(i + 1)
      && e.filename == MockFilenames[i]
      && e.recordCount == e.summary.totalCount
      && 30 <= e.recordCount <= 129
  {
    if 0 <= i < 5 {
      var d := draw(i);
      assert GenerateMockHistory(draw)[i] == MockHistoryEntry(i, d);
      var n := Scale(d.countDraw, 100) + 30;
      assert |GenerateMockRecords(n, d.records)| == n;
    }
  }

  /** The ids of the demo history are pairwise different. */
  lemma MockHistoryIdsDistinct(draw: nat -> HistoryDraw, i: int, j: int)
    requires 0 <= i < 5 && 0 <= j < 5 && i != j
    ensures GenerateMockHistory(draw)[i].id != GenerateMockHistory(draw)[j].id
  {
    var h := GenerateMockHistory(draw);
    var p := "upload-";
    MockHistoryShape(draw, i);
    MockHistoryShape(draw, j);
    assert h[i].id[|p|..] == NatToString(i + 1);
    assert h[j].id[|p|..] == NatToString(j + 1);
    NatToStringRoundTrip(i + 1);
    NatToStringRoundTrip(j + 1);
  }
}
