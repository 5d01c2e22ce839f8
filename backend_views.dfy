/**
 * The Django views of the backend: the summary computed when a CSV file is
 * uploaded (`DataSetViewSet.create`), the latest-dataset view, the decisions
 * and the data table of the PDF export, and the records view.
 *
 * A parsed CSV file is a `Frame`: named columns of equal height, each either
 * numeric (pandas puts a column of numbers, with gaps, under a number dtype)
 * or text. A missing cell is `None`. Reading the file is outside the model:
 * each view receives the outcome of `pd.read_csv` as a parameter.
 */
module BackendViews {
  import opened Common
  import opened Text
  import opened Serializers

  // ---------------------------------------------------------------------------
  // Frames
  // ---------------------------------------------------------------------------

  /** One cell value: a string or a number. */
  datatype Key = TextKey(s: string) | NumberKey(r: real)

  datatype ColumnData = NumberColumn(numbers: seq<Option<real>>) | TextColumn(texts: seq<Option<string>>)

  datatype Column = Column(name: string, data: ColumnData)

  datatype Frame = Frame(columns: seq<Column>, rowCount: nat)

  function Height(d: ColumnData): nat {
    match d
    case NumberColumn(v) => |v|
    case TextColumn(v) => |v|
  }

  /** Every column has one cell per row. */
  predicate WellFormed(df: Frame) {
    forall c | c in df.columns :: Height(c.data) == df.rowCount
  }

  /** The cell of a column in row `i`. */
  function CellAt(d: ColumnData, i: nat): Option<Key>
    requires i < Height(d)
  {
    match d
    case NumberColumn(v) => if v[i].Some? then Some(NumberKey(v[i].value)) else None
    case TextColumn(v) => if v[i].Some? then Some(TextKey(v[i].value)) else None
  }

  function Cells(d: ColumnData): seq<Option<Key>> {
    seq(Height(d), i requires 0 <= i < Height(d) => CellAt(d, i))
  }

  function Names(cols: seq<Column>): seq<string> {
    seq(|cols|, i requires 0 <= i < |cols| => cols[i].name)
  }

  /** `df[name]`: the first column with that name, if any. */
  function ColumnNamed(cols: seq<Column>, name: string): (r: Option<Column>)
    ensures r.None? <==> name !in Names(cols)
    ensures r.Some? ==> r.value in cols && r.value.name == name
  {
    if cols == [] then None
    else if cols[0].name == name then
      assert Names(cols)[0] == name;
      Some(cols[0])
    else
      assert Names(cols) == [cols[0].name] + Names(cols[1..]);
      ColumnNamed(cols[1..], name)
  }

  // ---------------------------------------------------------------------------
  // Column names
  // ---------------------------------------------------------------------------

  /** `name.strip().lower().replace(' ', '_')`. */
  function NormalizeName(name: string): string {
    ReplaceAll(ToLower(Strip(name)), " ", "_")
  }

  lemma LowerCharSpace(c: char)
    ensures IsSpace(LowerChar(c)) <==> IsSpace(c)
    ensures LowerChar(LowerChar(c)) == LowerChar(c)
  {
  }

  /** Lower-casing keeps a string stripped and leaves nothing to lower-case again. */
  lemma LowerKeepsStripped(s: string)
    requires IsStripped(s)
    ensures IsStripped(ToLower(s)) && ToLower(ToLower(s)) == ToLower(s)
  {
    if s != [] {
      LowerCharSpace(s[0]);
      LowerCharSpace(s[|s| - 1]);
    }
    ToLowerIdempotent(s);
  }

  /** Replacing the spaces of a stripped lower-case string by "_" keeps it stripped and lower-case. */
  lemma UnderscoreSpaces(t: string)
    requires IsStripped(t) && ToLower(t) == t
    ensures ' ' !in ReplaceAll(t, " ", "_")
    ensures IsStripped(ReplaceAll(t, " ", "_"))
    ensures ToLower(ReplaceAll(t, " ", "_")) == ReplaceAll(t, " ", "_")
  {
    var r := ReplaceAll(t, " ", "_");
    ReplaceCharAt(t, ' ', '_');
    forall i | 0 <= i < |r| ensures LowerChar(r[i]) == r[i] {
      assert LowerChar(t[i]) == t[i] by {
        assert ToLower(t)[i] == LowerChar(t[i]);
      }
    }
  }

  /** A string without spaces is left alone by the replacement. */
  lemma NoSpaceUnchanged(r: string)
    requires ' ' !in r
    ensures ReplaceAll(r, " ", "_") == r
  {
    ReplaceCharAt(r, ' ', '_');
  }

  /**
   * A normalised name has no space, no white space at either end and no
   * upper-case letter, so normalising it again changes nothing.
   */
  lemma NormalizeNameSpec(name: string)
    ensures ' ' !in NormalizeName(name)
    ensures IsStripped(NormalizeName(name))
    ensures ToLower(NormalizeName(name)) == NormalizeName(name)
    ensures NormalizeName(NormalizeName(name)) == NormalizeName(name)
  {
    var st := Strip(name);
    LowerKeepsStripped(st);
    var r := NormalizeName(name);
    UnderscoreSpaces(ToLower(st));
    StripStripped(r);
    NoSpaceUnchanged(r);
  }

  /** `df.columns = df.columns.str.strip().str.lower().str.replace(' ', '_')`. */
  function NormalizeFrame(df: Frame): (r: Frame)
    ensures |r.columns| == |df.columns| && r.rowCount == df.rowCount
    ensures forall i :: 0 <= i < |r.columns| ==>
      r.columns[i].name == NormalizeName(df.columns[i].name) && r.columns[i].data == df.columns[i].data
    ensures WellFormed(df) ==> WellFormed(r)
  {
    var cols := seq(|df.columns|, i requires 0 <= i < |df.columns| =>
      Column(NormalizeName(df.columns[i].name), df.columns[i].data));
    assert WellFormed(df) ==> forall c | c in cols :: Height(c.data) == df.rowCount by {
      if WellFormed(df) {
        forall c | c in cols ensures Height(c.data) == df.rowCount {
          var i :| 0 <= i < |cols| && cols[i] == c;
          assert df.columns[i] in df.columns;
        }
      }
    }
    Frame(cols, df.rowCount)
  }

  // ---------------------------------------------------------------------------
  // Means
  // ---------------------------------------------------------------------------

  /** A column mean: a number, or NaN for a column without values. */
  datatype Avg = Avg(value: real) | AvgNaN

  /** The values of a numeric column, gaps left out. */
  function Present(v: seq<Option<real>>): seq<real> {
    if v == [] then []
    else (if v[0].Some? then [v[0].value] else []) + Present(v[1..])
  }

  function SumReal(xs: seq<real>): real {
    if xs == [] then 0.0 else xs[0] + SumReal(xs[1..])
  }

  /** `series.mean()`: the average of the values present, NaN if there are none. */
  function MeanOf(v: seq<Option<real>>): Avg {
    var p := Present(v);
    if |p| == 0 then AvgNaN else Avg(SumReal(p) / |p| as real)
  }

  function ColumnMean(c: Column): Avg
    requires c.data.NumberColumn?
  {
    MeanOf(c.data.numbers)
  }

  lemma {:induction false} SumRealBounds(xs: seq<real>, lo: real, hi: real)
    requires forall i :: 0 <= i < |xs| ==> lo <= xs[i] <= hi
    ensures (|xs| as real) * lo <= SumReal(xs) <= (|xs| as real) * hi
  {
    if xs != [] {
      SumRealBounds(xs[1..], lo, hi);
    }
  }

  /** A mean lies between the smallest and the largest value of the column. */
  lemma MeanWithin(v: seq<Option<real>>, lo: real, hi: real)
    requires forall i :: 0 <= i < |Present(v)| ==> lo <= Present(v)[i] <= hi
    ensures MeanOf(v).Avg? ==> lo <= MeanOf(v).value <= hi
  {
    var p := Present(v);
    if |p| > 0 {
      SumRealBounds(p, lo, hi);
      DivBounds(SumReal(p), |p| as real, lo, hi);
    }
  }

  /** A quotient by a positive divisor keeps the bounds the divisor scales. */
  lemma DivBounds(s: real, n: real, lo: real, hi: real)
    requires n > 0.0 && n * lo <= s <= n * hi
    ensures lo <= s / n <= hi
  {
    var q := s / n;
    assert q * n == s;
  }

  // ---------------------------------------------------------------------------
  // The averages dictionary (insertion-ordered, like a Python dict)
  // ---------------------------------------------------------------------------

  type Dict = seq<(string, Avg)>

  function DictKeys(d: Dict): seq<string> {
    seq(|d|, i requires 0 <= i < |d| => d[i].0)
  }

  function DictGet(d: Dict, k: string): Option<Avg> {
    if d == [] then None else if d[0].0 == k then Some(d[0].1) else DictGet(d[1..], k)
  }

  /** `d[k] = v`: an existing key keeps its place, a new key goes last. */
  function DictSet(d: Dict, k: string, v: Avg): Dict {
    if d == [] then [(k, v)]
    else if d[0].0 == k then [(k, v)] + d[1..]
    else [d[0]] + DictSet(d[1..], k, v)
  }

  predicate Distinct(s: seq<string>) {
    forall i, j :: 0 <= i < j < |s| ==> s[i] != s[j]
  }

  /**
   * After `d[k] = v`, looking `k` up gives `v`, every other key keeps its
   * value, and the keys are the old ones (with `k` added last if it is new).
   */
  lemma {:induction false} DictSetSpec(d: Dict, k: string, v: Avg, other: string)
    ensures DictGet(DictSet(d, k, v), k) == Some(v)
    ensures other != k ==> DictGet(DictSet(d, k, v), other) == DictGet(d, other)
    ensures DictKeys(DictSet(d, k, v)) == if k in DictKeys(d) then DictKeys(d) else DictKeys(d) + [k]
  {
    if d != [] {
      if d[0].0 != k {
        DictSetSpec(d[1..], k, v, other);
      }
      DictKeysCons(d, k, v);
    }
  }

  /** How the keys of `d[k] = v` follow from the keys of the tail. */
  lemma DictKeysCons(d: Dict, k: string, v: Avg)
    requires d != []
    ensures DictKeys(d) == [d[0].0] + DictKeys(d[1..])
    ensures d[0].0 == k ==> DictKeys(DictSet(d, k, v)) == DictKeys(d)
    ensures d[0].0 != k ==> DictKeys(DictSet(d, k, v)) == [d[0].0] + DictKeys(DictSet(d[1..], k, v))
  {
    assert DictKeys(d) == [d[0].0] + DictKeys(d[1..]);
    if d[0].0 == k {
      assert DictKeys([(k, v)] + d[1..]) == [k] + DictKeys(d[1..]);
    } else {
      assert DictKeys([d[0]] + DictSet(d[1..], k, v)) == [d[0].0] + DictKeys(DictSet(d[1..], k, v));
    }
  }

  lemma DictGetPresent(d: Dict, k: string)
    ensures DictGet(d, k).Some? <==> k in DictKeys(d)
  {
    if d != [] {
      assert DictKeys(d) == [d[0].0] + DictKeys(d[1..]);
      DictGetPresent(d[1..], k);
    }
  }

  // ---------------------------------------------------------------------------
  // The upload summary
  // ---------------------------------------------------------------------------

  /**
   * The summary JSON: the row count, the averages in insertion order, and the
   * two value counts (no manufacturer distribution is computed here).
   */
  datatype SummaryJson = SummaryJson(
    totalCount: nat,
    averages: Dict,
    equipmentTypeDistribution: map<Key, nat>,
    statusDistribution: map<Key, nat>)

  /** `df.select_dtypes(include='number').columns`, in column order. */
  function NumericColumns(cols: seq<Column>): (r: seq<Column>)
    ensures forall c | c in r :: c in cols && c.data.NumberColumn?
  {
    if cols == [] then []
    else (if cols[0].data.NumberColumn? then [cols[0]] else []) + NumericColumns(cols[1..])
  }

  lemma {:induction false} NumericColumnsComplete(cols: seq<Column>, c: Column)
    ensures c in NumericColumns(cols) <==> c in cols && c.data.NumberColumn?
  {
    if cols != [] {
      NumericColumnsComplete(cols[1..], c);
      assert cols == [cols[0]] + cols[1..];
    }
  }

  /** What `summary['averages']` holds after the loop over the numeric columns. */
  function AveragesOf(cols: seq<Column>): Dict
    requires forall c | c in cols :: c.data.NumberColumn?
  {
    if cols == [] then []
    else
      var last := cols[|cols| - 1];
      assert last in cols;
      DictSet(AveragesOf(cols[..|cols| - 1]), last.name, ColumnMean(last))
  }

  /** The last column with the given name, which a later assignment to the same key leaves in place. */
  function LastNamed(cols: seq<Column>, name: string): (r: Option<Column>)
    ensures r.Some? ==> r.value in cols && r.value.name == name
    ensures r.None? <==> name !in Names(cols)
  {
    if cols == [] then None
    else
      var init := cols[..|cols| - 1];
      assert Names(cols) == Names(init) + [cols[|cols| - 1].name];
      if cols[|cols| - 1].name == name then Some(cols[|cols| - 1]) else LastNamed(init, name)
  }

  lemma DistinctAppend(s: seq<string>, k: string)
    requires Distinct(s) && k !in s
    ensures Distinct(s + [k])
  {
  }

  /** The keys of the averages are the numeric column names, each once. */
  lemma {:induction false} AveragesKeys(cols: seq<Column>, name: string)
    requires forall c | c in cols :: c.data.NumberColumn?
    ensures Distinct(DictKeys(AveragesOf(cols)))
    ensures name in DictKeys(AveragesOf(cols)) <==> name in Names(cols)
  {
    if cols != [] {
      var init := cols[..|cols| - 1];
      var last := cols[|cols| - 1];
      assert forall c | c in init :: c in cols;
      assert last in cols;
      AveragesKeys(init, name);
      var prev := AveragesOf(init);
      assert AveragesOf(cols) == DictSet(prev, last.name, ColumnMean(last));
      DictSetKeys(prev, last.name, ColumnMean(last), name);
      assert Names(cols) == Names(init) + [last.name];
    }
  }

  /** Setting a key keeps the keys distinct and adds exactly that key. */
  lemma DictSetKeys(d: Dict, k: string, v: Avg, name: string)
    requires Distinct(DictKeys(d))
    ensures Distinct(DictKeys(DictSet(d, k, v)))
    ensures name in DictKeys(DictSet(d, k, v)) <==> name in DictKeys(d) || name == k
  {
    DictSetSpec(d, k, v, name);
    if k !in DictKeys(d) {
      DistinctAppend(DictKeys(d), k);
    }
  }

  /** Each key holds the mean of the last numeric column of that name. */
  lemma {:induction false} AveragesGet(cols: seq<Column>, name: string)
    requires forall c | c in cols :: c.data.NumberColumn?
    ensures DictGet(AveragesOf(cols), name) ==
      if name in Names(cols) then Some(ColumnMean(LastNamed(cols, name).value)) else None
  {
    if cols != [] {
      var init := cols[..|cols| - 1];
      var last := cols[|cols| - 1];
      assert forall c | c in init :: c in cols;
      assert last in cols;
      var prev := AveragesOf(init);
      assert AveragesOf(cols) == DictSet(prev, last.name, ColumnMean(last));
      DictSetSpec(prev, last.name, ColumnMean(last), name);
      assert Names(cols) == Names(init) + [last.name];
      if name != last.name {
        AveragesGet(init, name);
        assert LastNamed(cols, name) == LastNamed(init, name);
      }
    }
  }

  /** `'cost' in col.lower()`. */
  predicate NamedCost(c: Column) {
    Contains(ToLower(c.name), "cost")
  }

  /** Column `i` is the first whose lower-cased name contains "cost". */
  predicate FirstNamedCostAt(cols: seq<Column>, i: int)
    requires 0 <= i < |cols|
  {
    NamedCost(cols[i]) && forall j :: 0 <= j < i ==> !NamedCost(cols[j])
  }

  /** `cost_cols[0]`: the first column whose lower-cased name contains "cost". */
  function FirstCostColumn(cols: seq<Column>): (r: Option<Column>)
    ensures r.None? <==> forall c | c in cols :: !NamedCost(c)
    ensures r.Some? ==> exists i :: 0 <= i < |cols| && cols[i] == r.value && FirstNamedCostAt(cols, i)
  {
    if cols == [] then None
    else if NamedCost(cols[0]) then
      assert FirstNamedCostAt(cols, 0);
      Some(cols[0])
    else
      var r := FirstCostColumn(cols[1..]);
      assert forall c | c in cols :: c == cols[0] || c in cols[1..];
      if r.Some? then
        var i :| 0 <= i < |cols[1..]| && cols[1..][i] == r.value && FirstNamedCostAt(cols[1..], i);
        assert cols[i + 1] == r.value && forall j :: 1 <= j < i + 1 ==> cols[j] == cols[1..][j - 1];
        assert FirstNamedCostAt(cols, i + 1);
        r
      else r
  }

  /** Column `i` is the first numeric column whose lower-cased name contains "cost". */
  predicate FirstNumericCostAt(cols: seq<Column>, i: int)
    requires 0 <= i < |cols|
  {
    && cols[i].data.NumberColumn? && NamedCost(cols[i])
    && forall j :: 0 <= j < i ==> !(cols[j].data.NumberColumn? && NamedCost(cols[j]))
  }

  /**
   * Read on the frame itself: the "cost" average is the mean of the first
   * numeric column, in frame order, whose lower-cased name contains "cost",
   * and 0.0 when there is none.
   */
  lemma {:induction false} NumericCostAverage(cols: seq<Column>)
    ensures (forall c | c in cols :: !(c.data.NumberColumn? && NamedCost(c))) ==>
      CostAverage(NumericColumns(cols)) == Avg(0.0)
    ensures forall i | 0 <= i < |cols| && FirstNumericCostAt(cols, i) ::
      CostAverage(NumericColumns(cols)) == ColumnMean(cols[i])
  {
    if cols != [] {
      var rest := cols[1..];
      NumericCostAverage(rest);
      if cols[0].data.NumberColumn? && NamedCost(cols[0]) {
        CostAverageHead(cols);
        assert forall i | 0 < i < |cols| :: !FirstNumericCostAt(cols, i);
      } else {
        CostAverageSkip(cols);
        assert forall c | c in cols :: c == cols[0] || c in rest;
        forall i | 0 <= i < |cols| && FirstNumericCostAt(cols, i)
          ensures CostAverage(NumericColumns(cols)) == ColumnMean(cols[i])
        {
          assert i > 0 && cols[i] == rest[i - 1];
          assert FirstNumericCostAt(rest, i - 1);
        }
      }
    }
  }

  /** A leading numeric "cost" column gives the average. */
  lemma CostAverageHead(cols: seq<Column>)
    requires cols != [] && cols[0].data.NumberColumn? && NamedCost(cols[0])
    ensures CostAverage(NumericColumns(cols)) == ColumnMean(cols[0])
  {
    var n := NumericColumns(cols);
    assert n == [cols[0]] + NumericColumns(cols[1..]);
    assert FirstCostColumn(n) == Some(cols[0]);
  }

  /** A leading column that is not a numeric "cost" column does not decide the average. */
  lemma CostAverageSkip(cols: seq<Column>)
    requires cols != [] && !(cols[0].data.NumberColumn? && NamedCost(cols[0]))
    ensures CostAverage(NumericColumns(cols)) == CostAverage(NumericColumns(cols[1..]))
  {
    var n := NumericColumns(cols);
    var r := NumericColumns(cols[1..]);
    if cols[0].data.NumberColumn? {
      assert n == [cols[0]] + r;
      assert n[1..] == r;
      assert FirstCostColumn(n) == FirstCostColumn(r);
    } else {
      assert n == r;
    }
  }

  /** `sub` is `src` read at the positions `idx`. */
  ghost predicate AtPositions<T>(src: seq<T>, sub: seq<T>, idx: seq<nat>) {
    |idx| == |sub| && forall k :: 0 <= k < |idx| ==> idx[k] < |src| && sub[k] == src[idx[k]]
  }

  predicate Increasing(idx: seq<nat>) {
    forall k, l :: 0 <= k < l < |idx| ==> idx[k] < idx[l]
  }

  /** The positions `idx` are exactly those of the numeric columns. */
  predicate NumericPositions(cols: seq<Column>, idx: seq<nat>) {
    forall i :: 0 <= i < |cols| ==> (cols[i].data.NumberColumn? <==> i in idx)
  }

  /**
   * `select_dtypes(include='number')` keeps the numeric columns in frame
   * order: its result is the frame read at strictly increasing positions,
   * and those positions are exactly the numeric ones.
   */
  lemma {:induction false} NumericColumnsOrder(cols: seq<Column>) returns (idx: seq<nat>)
    ensures AtPositions(cols, NumericColumns(cols), idx)
    ensures Increasing(idx)
    ensures NumericPositions(cols, idx)
  {
    if cols == [] {
      idx := [];
    } else {
      var tail := cols[1..];
      var rest := NumericColumnsOrder(tail);
      var shifted := Shifted(rest);
      ShiftedPositions(cols, NumericColumns(tail), rest, shifted);
      if cols[0].data.NumberColumn? {
        idx := [0] + shifted;
        assert NumericColumns(cols) == [cols[0]] + NumericColumns(tail);
        ConsPositions(cols, NumericColumns(tail), shifted);
      } else {
        idx := shifted;
        assert NumericColumns(cols) == NumericColumns(tail);
        assert 0 !in idx;
      }
      forall i | 0 < i < |cols| ensures cols[i].data.NumberColumn? <==> i in idx {
        assert cols[i] == tail[i - 1];
        assert i in idx <==> i in shifted;
      }
    }
  }

  /** Positions into the tail, moved one along, are positions into the whole sequence. */
  lemma ShiftedPositions<T>(src: seq<T>, sub: seq<T>, rest: seq<nat>, shifted: seq<nat>)
    requires src != [] && AtPositions(src[1..], sub, rest) && Increasing(rest)
    requires |shifted| == |rest| && forall k :: 0 <= k < |rest| ==> shifted[k] == rest[k] + 1
    ensures AtPositions(src, sub, shifted) && Increasing(shifted)
    ensures forall k :: 0 <= k < |shifted| ==> shifted[k] > 0
  {
    forall k | 0 <= k < |shifted| ensures shifted[k] < |src| && sub[k] == src[shifted[k]] {
      assert src[1..][rest[k]] == src[rest[k] + 1];
    }
  }

  /** Prepending the first element and position 0 keeps the alignment and the order. */
  lemma ConsPositions<T>(src: seq<T>, sub: seq<T>, shifted: seq<nat>)
    requires src != [] && AtPositions(src, sub, shifted) && Increasing(shifted)
    requires forall k :: 0 <= k < |shifted| ==> shifted[k] > 0
    ensures AtPositions(src, [src[0]] + sub, [0] + shifted) && Increasing([0] + shifted)
  {
    var idx := [0] + shifted;
    forall k | 0 < k < |idx| ensures idx[k] < |src| && ([src[0]] + sub)[k] == src[idx[k]] {
      assert idx[k] == shifted[k - 1];
    }
  }

  /** Every position moved one further along. */
  lemma Shifted(idx: seq<nat>) returns (shifted: seq<nat>)
    ensures |shifted| == |idx|
    ensures forall k :: 0 <= k < |idx| ==> shifted[k] == idx[k] + 1
    ensures forall i: nat :: i in shifted <==> i >= 1 && i - 1 in idx
  {
    shifted := seq(|idx|, k requires 0 <= k < |idx| => idx[k] + 1);
    forall i: nat ensures i in shifted <==> i >= 1 && i - 1 in idx {
      if i >= 1 && i - 1 in idx {
        var k :| 0 <= k < |idx| && idx[k] == i - 1;
        assert shifted[k] == i;
      }
    }
  }

  /** `averages['cost']`: the mean of the first numeric "cost" column, else 0.0. */
  function CostAverage(numeric: seq<Column>): Avg
    requires forall c | c in numeric :: c.data.NumberColumn?
  {
    match FirstCostColumn(numeric)
    case None => Avg(0.0)
    case Some(c) => ColumnMean(c)
  }

  /** `series.value_counts().to_dict()`: how often each present value occurs. */
  function ValueCounts(cells: seq<Option<Key>>): map<Key, nat> {
    if cells == [] then map[]
    else
      var m := ValueCounts(cells[..|cells| - 1]);
      match cells[|cells| - 1]
      case None => m
      case Some(k) => m[k := (if k in m then m[k] else 0) + 1]
  }

  /** A value is counted exactly when it occurs, as often as it occurs; gaps are not counted. */
  lemma {:induction false} ValueCountsSpec(cells: seq<Option<Key>>, k: Key)
    ensures k in ValueCounts(cells) <==> Some(k) in cells
    ensures k in ValueCounts(cells) ==> ValueCounts(cells)[k] == multiset(cells)[Some(k)]
  {
    if cells != [] {
      var init := cells[..|cells| - 1];
      ValueCountsSpec(init, k);
      assert cells == init + [cells[|cells| - 1]];
    }
  }

  /** The counts of a named column, or an empty map when there is no such column. */
  function DistributionOf(cols: seq<Column>, name: string): (m: map<Key, nat>)
    ensures name !in Names(cols) ==> m == map[]
  {
    match ColumnNamed(cols, name)
    case None => map[]
    case Some(c) => ValueCounts(Cells(c.data))
  }

  /** The summary `create` stores for a frame whose columns are already normalised. */
  function SummaryOf(df: Frame): SummaryJson {
    var numeric := NumericColumns(df.columns);
    SummaryJson(
      df.rowCount,
      DictSet(AveragesOf(numeric), "cost", CostAverage(numeric)),
      DistributionOf(df.columns, "equipment_type"),
      DistributionOf(df.columns, "status"))
  }

  /**
   * The summary skeleton is filled in place: one dictionary entry per numeric
   * column, then the "cost" entry, then the two value counts.
   */
  method BuildSummary(df: Frame) returns (summary: SummaryJson)
    ensures summary == SummaryOf(df)
    ensures summary.totalCount == df.rowCount
    ensures DictGet(summary.averages, "cost") == Some(CostAverage(NumericColumns(df.columns)))
    ensures (forall c | c in df.columns :: !(c.data.NumberColumn? && NamedCost(c))) ==>
      DictGet(summary.averages, "cost") == Some(Avg(0.0))
    ensures forall i | 0 <= i < |df.columns| && FirstNumericCostAt(df.columns, i) ::
      DictGet(summary.averages, "cost") == Some(ColumnMean(df.columns[i]))
  {
    NumericCostAverage(df.columns);
    summary := SummaryJson(df.rowCount, [], map[], map[]);
    var numeric := NumericColumns(df.columns);
    var averages: Dict := [];
    for i := 0 to |numeric|
      invariant forall c | c in numeric[..i] :: c.data.NumberColumn?
      invariant averages == AveragesOf(numeric[..i])
    {
      AveragesStep(numeric, i);
      averages := DictSet(averages, numeric[i].name, ColumnMean(numeric[i]));
    }
    assert numeric[..|numeric|] == numeric;
    var costCol := FirstCostColumn(numeric);
    if costCol.Some? {
      averages := DictSet(averages, "cost", ColumnMean(costCol.value));
    } else {
      averages := DictSet(averages, "cost", Avg(0.0));
    }
    DictSetSpec(AveragesOf(numeric), "cost", CostAverage(numeric), "cost");
    summary := summary.(averages := averages);
    if "equipment_type" in Names(df.columns) {
      summary := summary.(equipmentTypeDistribution := ValueCounts(Cells(ColumnNamed(df.columns, "equipment_type").value.data)));
    }
    if "status" in Names(df.columns) {
      summary := summary.(statusDistribution := ValueCounts(Cells(ColumnNamed(df.columns, "status").value.data)));
    }
    DistributionPresent(df.columns, "equipment_type");
    DistributionPresent(df.columns, "status");
  }

  /** One more numeric column sets its mean in the averages of the columns before it. */
  lemma AveragesStep(numeric: seq<Column>, i: nat)
    requires i < |numeric|
    requires forall c | c in numeric :: c.data.NumberColumn?
    ensures forall c | c in numeric[..i + 1] :: c.data.NumberColumn?
    ensures numeric[i].data.NumberColumn?
    ensures AveragesOf(numeric[..i + 1]) == DictSet(AveragesOf(numeric[..i]), numeric[i].name, ColumnMean(numeric[i]))
  {
    assert numeric[..i + 1][..i] == numeric[..i];
    assert numeric[i] in numeric;
  }

  /** A named column's counts are the value counts of its cells. */
  lemma DistributionPresent(cols: seq<Column>, name: string)
    ensures name in Names(cols) ==> DistributionOf(cols, name) == ValueCounts(Cells(ColumnNamed(cols, name).value.data))
  {
  }

  /**
   * The stored summary: `total_count` is the row count; "cost" is always a
   * key, holding the mean of the first numeric column whose name contains
   * "cost", or 0.0; every other key is a numeric column's name with that
   * column's mean; no key repeats; a distribution is empty when its column
   * is absent and otherwise counts the column's present values.
   */
  lemma SummaryOfSpec(df: Frame, name: string, k: Key)
    ensures SummaryOf(df).totalCount == df.rowCount
    ensures DictGet(SummaryOf(df).averages, "cost") == Some(CostAverage(NumericColumns(df.columns)))
    ensures (forall c | c in df.columns :: !(c.data.NumberColumn? && NamedCost(c))) ==>
      DictGet(SummaryOf(df).averages, "cost") == Some(Avg(0.0))
    ensures forall i | 0 <= i < |df.columns| && FirstNumericCostAt(df.columns, i) ::
      DictGet(SummaryOf(df).averages, "cost") == Some(ColumnMean(df.columns[i]))
    ensures Distinct(DictKeys(SummaryOf(df).averages))
    ensures name != "cost" ==>
      (name in DictKeys(SummaryOf(df).averages) <==> name in Names(NumericColumns(df.columns)))
    ensures name != "cost" && name in Names(NumericColumns(df.columns)) ==>
      DictGet(SummaryOf(df).averages, name) == Some(ColumnMean(LastNamed(NumericColumns(df.columns), name).value))
    ensures "status" !in Names(df.columns) ==> SummaryOf(df).statusDistribution == map[]
    ensures "status" in Names(df.columns) ==>
      var cells := Cells(ColumnNamed(df.columns, "status").value.data);
      && (k in SummaryOf(df).statusDistribution <==> Some(k) in cells)
      && (k in SummaryOf(df).statusDistribution ==> SummaryOf(df).statusDistribution[k] == multiset(cells)[Some(k)])
    ensures "equipment_type" !in Names(df.columns) ==> SummaryOf(df).equipmentTypeDistribution == map[]
    ensures "equipment_type" in Names(df.columns) ==>
      var cells := Cells(ColumnNamed(df.columns, "equipment_type").value.data);
      && (k in SummaryOf(df).equipmentTypeDistribution <==> Some(k) in cells)
      && (k in SummaryOf(df).equipmentTypeDistribution ==> SummaryOf(df).equipmentTypeDistribution[k] == multiset(cells)[Some(k)])
  {
    CostAveragesSpec(NumericColumns(df.columns), name);
    NumericCostAverage(df.columns);
    if "status" in Names(df.columns) {
      ValueCountsSpec(Cells(ColumnNamed(df.columns, "status").value.data), k);
    }
    if "equipment_type" in Names(df.columns) {
      ValueCountsSpec(Cells(ColumnNamed(df.columns, "equipment_type").value.data), k);
    }
  }

  /** The averages with the "cost" entry set: the facts above about the `averages` field. */
  lemma CostAveragesSpec(numeric: seq<Column>, name: string)
    requires forall c | c in numeric :: c.data.NumberColumn?
    ensures var d := DictSet(AveragesOf(numeric), "cost", CostAverage(numeric));
      && DictGet(d, "cost") == Some(CostAverage(numeric))
      && Distinct(DictKeys(d))
      && (name != "cost" ==> (name in DictKeys(d) <==> name in Names(numeric)))
      && (name != "cost" && name in Names(numeric) ==> DictGet(d, name) == Some(ColumnMean(LastNamed(numeric, name).value)))
  {
    var avgs := AveragesOf(numeric);
    AveragesKeys(numeric, name);
    AveragesGet(numeric, name);
    AveragesKeys(numeric, "cost");
    DictSetSpec(avgs, "cost", CostAverage(numeric), name);
    DictGetPresent(DictSet(avgs, "cost", CostAverage(numeric)), name);
    DictGetPresent(avgs, name);
  }

  // ---------------------------------------------------------------------------
  // Stored datasets and the views
  // ---------------------------------------------------------------------------

  /** A stored `DataSet`: its key, its file path (empty when there is none), its upload time and its summary. */
  datatype DataSet = DataSet(pk: nat, fileName: string, uploadedAt: int, summary: Option<SummaryJson>)

  /** `DataSetSerializer(dataset).data`. */
  datatype Serialized = Serialized(id: nat, filename: Option<string>, file: string, uploadedAt: int, summary: Option<SummaryJson>)

  function Serialize(d: DataSet): Serialized {
    Serialized(d.pk, GetFilename(d.fileName), d.fileName, d.uploadedAt, d.summary)
  }

  /** A view's answer: 200, 201, 404, 400 or 500 with a body or a message. */
  datatype Http<T> =
    | Ok(body: T)
    | Created(created: T)
    | NotFound(detail: string)
    | BadRequest(error: string)
    | ServerError(message: string)

  function StatusCode<T>(r: Http<T>): int {
    match r
    case Ok(_) => 200
    case Created(_) => 201
    case NotFound(_) => 404
    case BadRequest(_) => 400
    case ServerError(_) => 500
  }

  /**
   * `create`: the upload is validated first (`is_valid(raise_exception=True)`);
   * `invalid` stands for the serializer's errors, such as a missing file, and
   * when there are any the answer is 400 and nothing is stored. Otherwise the
   * dataset is stored; its summary is computed from the normalised columns
   * when the file reads, and stays empty when reading fails. The answer is
   * then 201 either way.
   */
  method Create(pk: nat, fileName: string, uploadedAt: int, invalid: Option<string>, parsed: Result<Frame>)
    returns (stored: Option<DataSet>, response: Http<Serialized>)
    ensures invalid.Some? <==> stored.None?
    ensures invalid.Some? ==> response == BadRequest(invalid.value) && StatusCode(response) == 400
    ensures stored.Some? ==>
      && stored.value.pk == pk && stored.value.fileName == fileName && stored.value.uploadedAt == uploadedAt
      && (parsed.Failure? ==> stored.value.summary.None?)
      && (parsed.Success? ==> stored.value.summary == Some(SummaryOf(NormalizeFrame(parsed.value))))
      && response == Created(Serialize(stored.value)) && StatusCode(response) == 201
  {
    if invalid.Some? {
      return None, BadRequest(invalid.value);
    }
    var dataset := DataSet(pk, fileName, uploadedAt, None);
    if parsed.Success? {
      var df := NormalizeFrame(parsed.value);
      var summary := BuildSummary(df);
      dataset := dataset.(summary := Some(summary));
    }
    stored := Some(dataset);
    response := Created(Serialize(dataset));
  }

  /** `order_by('-uploaded_at').first()`: a dataset uploaded no earlier than any other. */
  function Latest(ds: seq<DataSet>): (r: DataSet)
    requires |ds| > 0
    ensures r in ds
    ensures forall d | d in ds :: d.uploadedAt <= r.uploadedAt
  {
    if |ds| == 1 then ds[0]
    else
      var rest := Latest(ds[1..]);
      assert forall d | d in ds :: d == ds[0] || d in ds[1..];
      if ds[0].uploadedAt >= rest.uploadedAt then ds[0] else rest
  }

  /** The latest-dataset view: 404 when nothing was uploaded. */
  function LatestView(ds: seq<DataSet>): (r: Http<Serialized>)
    ensures ds == [] <==> r == NotFound("No datasets found.")
    ensures ds != [] ==> r.Ok? && r.body == Serialize(Latest(ds))
  {
    if ds == [] then NotFound("No datasets found.") else Ok(Serialize(Latest(ds)))
  }

  /** The columns the PDF lists when the file has them, in this order. */
  const TargetColumns: seq<string> := ["equipment_id", "equipment_type", "status", "maintenance_cost"]

  const PdfRowLimit: nat := 50

  /** The members of `targets` that are among `names`, in the order of `targets`. */
  function PresentTargets(targets: seq<string>, names: seq<string>): (r: seq<string>)
    ensures |r| <= |targets|
    ensures forall c :: c in r <==> c in targets && c in names
  {
    if targets == [] then []
    else (if targets[0] in names then [targets[0]] else []) + PresentTargets(targets[1..], names)
  }

  /**
   * The present targets come in target order: they are `targets` read at
   * strictly increasing positions, and those positions are exactly the
   * targets among `names`.
   */
  lemma {:induction false} PresentTargetsOrder(targets: seq<string>, names: seq<string>) returns (idx: seq<nat>)
    ensures AtPositions(targets, PresentTargets(targets, names), idx)
    ensures Increasing(idx)
    ensures forall i :: 0 <= i < |targets| ==> (targets[i] in names <==> i in idx)
  {
    if targets == [] {
      idx := [];
    } else {
      var tail := targets[1..];
      var rest := PresentTargetsOrder(tail, names);
      var shifted := Shifted(rest);
      ShiftedPositions(targets, PresentTargets(tail, names), rest, shifted);
      if targets[0] in names {
        idx := [0] + shifted;
        assert PresentTargets(targets, names) == [targets[0]] + PresentTargets(tail, names);
        ConsPositions(targets, PresentTargets(tail, names), shifted);
      } else {
        idx := shifted;
        assert PresentTargets(targets, names) == PresentTargets(tail, names);
        assert 0 !in idx;
      }
      forall i | 0 < i < |targets| ensures targets[i] in names <==> i in idx {
        assert targets[i] == tail[i - 1];
        assert i in idx <==> i in shifted;
      }
    }
  }

  /**
   * `existing_cols`: the present target columns, or, when none is present,
   * the first four columns of the file.
   */
  function PdfColumns(names: seq<string>): (cols: seq<string>)
    ensures |cols| <= 4
    ensures forall c | c in cols :: c in names
    ensures (exists t | t in TargetColumns :: t in names) ==> cols == PresentTargets(TargetColumns, names)
    ensures (forall t | t in TargetColumns :: t !in names) ==> cols == names[..Min(4, |names|)]
    ensures cols == [] <==> names == []
  {
    var existing := PresentTargets(TargetColumns, names);
    if existing != [] then
      assert existing[0] in existing;
      existing
    else
      assert forall t | t in TargetColumns :: t !in names;
      names[..Min(4, |names|)]
  }

  /**
   * When some target is present the PDF columns are the present targets in
   * the order of `TargetColumns`, whatever their order in the file.
   */
  lemma PdfColumnsOrder(names: seq<string>) returns (idx: seq<nat>)
    requires exists t | t in TargetColumns :: t in names
    ensures AtPositions(TargetColumns, PdfColumns(names), idx)
    ensures Increasing(idx)
    ensures forall i :: 0 <= i < |TargetColumns| ==> (TargetColumns[i] in names <==> i in idx)
  {
    idx := PresentTargetsOrder(TargetColumns, names);
  }

  /** A file listing "status" before "equipment_id" still gets them in target order. */
  lemma PdfColumnsExample()
    ensures PdfColumns(["status", "equipment_id"]) == ["equipment_id", "status"]
  {
    var names := ["status", "equipment_id"];
    assert "equipment_id" in names && "status" in names;
    assert "equipment_type" !in names && "maintenance_cost" !in names;
    assert PresentTargets(TargetColumns, names) == ["equipment_id", "status"];
  }

  predicate IsAsciiLetter(c: char) {
    'a' <= c <= 'z' || 'A' <= c <= 'Z'
  }

  /**
   * Python's `str.title()` on ASCII, with `afterLetter` telling whether the
   * character before `s` was a letter: a letter is upper-cased after a
   * non-letter and lower-cased after a letter.
   */
  function TitleFrom(s: string, afterLetter: bool): (r: string)
    ensures |r| == |s|
  {
    if s == [] then []
    else
      var c := s[0];
      var d := if !IsAsciiLetter(c) then c else if afterLetter then LowerChar(c) else UpperChar(c);
      [d] + TitleFrom(s[1..], IsAsciiLetter(c))
  }

  /** `col.replace('_', ' ').title()`. */
  function Header(col: string): string {
    TitleFrom(ReplaceAll(col, "_", " "), false)
  }

  lemma {:induction false} TitleFromAt(s: string, afterLetter: bool, i: nat)
    requires i < |s|
    ensures var before := if i == 0 then afterLetter else IsAsciiLetter(s[i - 1]);
      TitleFrom(s, afterLetter)[i] ==
        if !IsAsciiLetter(s[i]) then s[i] else if before then LowerChar(s[i]) else UpperChar(s[i])
  {
    if i > 0 {
      TitleFromAt(s[1..], IsAsciiLetter(s[0]), i - 1);
    }
  }

  /**
   * A header has the column name's length, a space for every "_", and each
   * letter upper-cased when it starts a word and lower-cased otherwise.
   */
  lemma HeaderSpec(col: string, i: nat)
    requires i < |col|
    ensures |Header(col)| == |col|
    ensures col[i] == '_' ==> Header(col)[i] == ' '
    ensures IsAsciiLetter(col[i]) && (i == 0 || !IsAsciiLetter(col[i - 1])) ==> Header(col)[i] == UpperChar(col[i])
    ensures IsAsciiLetter(col[i]) && i > 0 && IsAsciiLetter(col[i - 1]) ==> Header(col)[i] == LowerChar(col[i])
  {
    var spaced := ReplaceAll(col, "_", " ");
    ReplaceCharAt(col, '_', ' ');
    TitleFromAt(spaced, false, i);
  }

  lemma SpacedUnitId()
    ensures ReplaceAll("unit_id", "_", " ") == "unit id"
  {
    ReplaceCharAt("unit_id", '_', ' ');
  }

  /** "_" becomes a space and each word starts upper-case. */
  lemma HeaderExample()
    ensures Header("unit_id") == "Unit Id"
  {
    SpacedUnitId();
    TitledFirstWordTail();
  }

  lemma TitledFirstWordTail()
    ensures TitleFrom("nit id", true) == "nit Id"
  {
    TitledSecondWord();
    assert TitleFrom("t id", true) == "t Id";
    assert TitleFrom("it id", true) == "it Id";
  }

  lemma TitledSecondWord()
    ensures TitleFrom(" id", true) == " Id"
  {
    assert TitleFrom("d", true) == "d";
    assert TitleFrom("id", false) == "Id";
  }

  /** The data table of the PDF: the headers, then the cells of the first 50 rows. */
  datatype PdfTable = PdfTable(headers: seq<string>, rows: seq<seq<Option<Key>>>)

  /** The cell in row `i` of each listed column. */
  function RowCells(df: Frame, cols: seq<string>, i: nat): seq<Option<Key>>
    requires WellFormed(df) && i < df.rowCount
    requires forall c | c in cols :: c in Names(df.columns)
  {
    seq(|cols|, j requires 0 <= j < |cols| =>
      var col := ColumnNamed(df.columns, cols[j]).value;
      CellAt(col.data, i))
  }

  /** The cells of the first `n` rows. */
  function PdfRows(df: Frame, cols: seq<string>, n: nat): (rows: seq<seq<Option<Key>>>)
    requires WellFormed(df) && n <= df.rowCount
    requires forall c | c in cols :: c in Names(df.columns)
    ensures |rows| == n
    ensures forall i :: 0 <= i < n ==> rows[i] == RowCells(df, cols, i)
  {
    seq(n, i requires 0 <= i < n => RowCells(df, cols, i))
  }

  /** One more row appends that row's cells. */
  lemma PdfRowsStep(df: Frame, cols: seq<string>, n: nat)
    requires WellFormed(df) && n < df.rowCount
    requires forall c | c in cols :: c in Names(df.columns)
    ensures PdfRows(df, cols, n + 1) == PdfRows(df, cols, n) + [RowCells(df, cols, n)]
  {
    var longer := PdfRows(df, cols, n + 1);
    var shorter := PdfRows(df, cols, n);
    assert forall i :: 0 <= i < n ==> longer[i] == shorter[i];
  }

  /** The data table the report lists for a frame, or none when the frame has no columns. */
  function PdfTableOf(df: Frame): Option<PdfTable>
    requires WellFormed(df)
  {
    var cols := PdfColumns(Names(df.columns));
    if cols == [] then None
    else
      var limit := Min(PdfRowLimit, df.rowCount);
      var headers := seq(|cols|, j requires 0 <= j < |cols| => Header(cols[j]));
      Some(PdfTable(headers, PdfRows(df, cols, limit)))
  }

  /**
   * The data table, appended row by row: one header per listed column and
   * one row of cells for each of the first 50 rows of the file; no table when
   * the file has no columns.
   */
  method BuildPdfTable(df: Frame) returns (table: Option<PdfTable>)
    requires WellFormed(df)
    ensures table == PdfTableOf(df)
    ensures df.columns == [] <==> table.None?
    ensures table.Some? ==>
      var cols := PdfColumns(Names(df.columns));
      && table.value.headers == seq(|cols|, j requires 0 <= j < |cols| => Header(cols[j]))
      && |table.value.rows| == Min(PdfRowLimit, df.rowCount)
      && forall i :: 0 <= i < |table.value.rows| ==> table.value.rows[i] == RowCells(df, cols, i)
  {
    var cols := PdfColumns(Names(df.columns));
    if cols == [] {
      return None;
    }
    var headers := seq(|cols|, j requires 0 <= j < |cols| => Header(cols[j]));
    var rows: seq<seq<Option<Key>>> := [];
    var limit := Min(PdfRowLimit, df.rowCount);
    for i := 0 to limit
      invariant rows == PdfRows(df, cols, i)
    {
      PdfRowsStep(df, cols, i);
      rows := rows + [RowCells(df, cols, i)];
    }
    table := Some(PdfTable(headers, rows));
    PdfTableOfSpec(df);
  }

  /** The report's table exists exactly when the frame has columns, with one header per listed column and at most 50 rows. */
  lemma PdfTableOfSpec(df: Frame)
    requires WellFormed(df)
    ensures df.columns == [] <==> PdfTableOf(df).None?
    ensures PdfTableOf(df).Some? ==>
      var cols := PdfColumns(Names(df.columns));
      && PdfTableOf(df).value.headers == seq(|cols|, j requires 0 <= j < |cols| => Header(cols[j]))
      && |PdfTableOf(df).value.rows| == Min(PdfRowLimit, df.rowCount)
      && forall i :: 0 <= i < |PdfTableOf(df).value.rows| ==> PdfTableOf(df).value.rows[i] == RowCells(df, cols, i)
  {
    assert df.columns == [] <==> Names(df.columns) == [];
  }

  /**
   * `next((c for c in df.columns if 'cost' in c), None)`: the first column,
   * numeric or not, whose (already normalised) name contains "cost".
   */
  function PdfCostColumn(cols: seq<Column>): (r: Option<Column>)
    ensures r.None? <==> forall c | c in cols :: !Contains(c.name, "cost")
    ensures r.Some? ==> exists i :: 0 <= i < |cols| && cols[i] == r.value && FirstCostAt(cols, i)
  {
    if cols == [] then None
    else if Contains(cols[0].name, "cost") then Some(cols[0])
    else
      var r := PdfCostColumn(cols[1..]);
      assert forall c | c in cols :: c == cols[0] || c in cols[1..];
      if r.Some? then
        var i :| 0 <= i < |cols[1..]| && cols[1..][i] == r.value && FirstCostAt(cols[1..], i);
        assert cols[i + 1] == r.value && forall j :: 1 <= j < i + 1 ==> cols[j] == cols[1..][j - 1];
        assert FirstCostAt(cols, i + 1);
        r
      else r
  }

  /** Column `i` is the first whose name contains "cost". */
  predicate FirstCostAt(cols: seq<Column>, i: int)
    requires 0 <= i < |cols|
  {
    Contains(cols[i].name, "cost") && forall j :: 0 <= j < i ==> !Contains(cols[j].name, "cost")
  }

  /** A text column holding at least one value. */
  predicate HoldsText(d: ColumnData) {
    d.TextColumn? && exists i :: 0 <= i < |d.texts| && d.texts[i].Some?
  }

  /**
   * `df[cost_col].mean()` on a text column holding a value raises
   * `TypeError`, and nothing in the view catches it: the request then ends in
   * Django's server error. A text column without any value (a file with a
   * header and no rows) has a NaN mean and does not raise.
   */
  predicate CostMeanRaises(df: Frame) {
    var c := PdfCostColumn(df.columns);
    c.Some? && HoldsText(c.value.data)
  }

  /** Django's answer to an exception the view does not catch. */
  const UncaughtError: string := "Server Error (500)"

  /**
   * The report's cost column is the first one whose name contains "cost",
   * whatever its type: a text `cost_center` column in front of a numeric
   * `maintenance_cost` makes the report fail, while the reverse order does not.
   */
  lemma CostColumnOrder()
    ensures var text := Column("cost_center", TextColumn([Some("A1")]));
      var number := Column("maintenance_cost", NumberColumn([Some(1200.0)]));
      CostMeanRaises(Frame([text, number], 1)) && !CostMeanRaises(Frame([number, text], 1))
  {
    TextCostFirst();
    NumberCostFirst();
  }

  lemma TextCostFirst()
    ensures var text := Column("cost_center", TextColumn([Some("A1")]));
      PdfCostColumn([text, Column("maintenance_cost", NumberColumn([Some(1200.0)]))]) == Some(text)
      && HoldsText(text.data)
  {
    var text := Column("cost_center", TextColumn([Some("A1")]));
    assert text.data.texts[0].Some?;
    assert OccursAt(text.name, "cost", 0);
  }

  lemma NumberCostFirst()
    ensures var number := Column("maintenance_cost", NumberColumn([Some(1200.0)]));
      PdfCostColumn([number, Column("cost_center", TextColumn([Some("A1")]))]) == Some(number)
  {
    var number := Column("maintenance_cost", NumberColumn([Some(1200.0)]));
    assert OccursAt(number.name, "cost", 12);
    ContainsSpec(number.name, "cost");
  }

  /** A header-only file: its text "cost_center" column is empty, the mean is NaN and nothing raises. */
  lemma EmptyTextCostColumn()
    ensures var text := Column("cost_center", TextColumn([]));
      PdfCostColumn([text]) == Some(text) && !CostMeanRaises(Frame([text], 0))
  {
    assert OccursAt("cost_center", "cost", 0);
  }

  /** Without a column named with "cost" the report computes no cost mean and cannot fail on it. */
  lemma NoCostColumn()
    ensures !CostMeanRaises(Frame([Column("status", TextColumn([Some("faulty")]))], 1))
  {
    assert forall i | 0 <= i <= 6 :: !OccursAt("status", "cost", i) by {
      assert "status"[0..4] == "stat" != "cost";
      assert "status"[1..5] == "tatu" != "cost";
      assert "status"[2..6] == "atus" != "cost";
    }
    ContainsSpec("status", "cost");
  }

  /**
   * The PDF export: only the latest dataset is considered; 404 when there is
   * none or it has no file or no summary (older datasets are never used),
   * 400 when its file does not read, and otherwise the report's data table
   * built from the normalised columns.
   */
  method PdfExport(ds: seq<DataSet>, parsed: Result<Frame>) returns (r: Http<Option<PdfTable>>)
    requires parsed.Success? ==> WellFormed(parsed.value)
    ensures ds == [] || Latest(ds).fileName == "" || Latest(ds).summary.None? ==>
      r == NotFound("No data available or incomplete dataset found")
    ensures ds != [] && Latest(ds).fileName != "" && Latest(ds).summary.Some? ==>
      && (parsed.Failure? ==> r == BadRequest("Could not read file: " + parsed.message))
      && (parsed.Success? && CostMeanRaises(NormalizeFrame(parsed.value)) ==> r == ServerError(UncaughtError))
      && (parsed.Success? && !CostMeanRaises(NormalizeFrame(parsed.value)) ==>
            && r == Ok(PdfTableOf(NormalizeFrame(parsed.value)))
            && (r.body.None? <==> parsed.value.columns == []))
  {
    if ds == [] || Latest(ds).fileName == "" || Latest(ds).summary.None? {
      return NotFound("No data available or incomplete dataset found");
    }
    if parsed.Failure? {
      return BadRequest("Could not read file: " + parsed.message);
    }
    var df := NormalizeFrame(parsed.value);
    var costCol := PdfCostColumn(df.columns);
    if costCol.Some? && HoldsText(costCol.value.data) {
      return ServerError(UncaughtError);
    }
    var table := BuildPdfTable(df);
    r := Ok(table);
  }

  /** `DataSet.objects.get(pk=pk)`. */
  function FindDataSet(ds: seq<DataSet>, pk: nat): (r: Option<DataSet>)
    ensures r.Some? ==> r.value in ds && r.value.pk == pk
    ensures r.None? ==> forall d | d in ds :: d.pk != pk
  {
    if ds == [] then None else if ds[0].pk == pk then Some(ds[0]) else FindDataSet(ds[1..], pk)
  }

  /**
   * The records view: 404 for an unknown key or a dataset without a file,
   * 500 when the file does not read, otherwise the rows under the file's own
   * (not normalised) column names.
   */
  function RecordsView(ds: seq<DataSet>, pk: nat, parsed: Result<Frame>): (r: Http<Frame>)
    ensures (forall d | d in ds :: d.pk != pk) ==> r == NotFound("Dataset not found.")
    ensures FindDataSet(ds, pk).Some? && FindDataSet(ds, pk).value.fileName == "" ==>
      r == NotFound("Dataset file not found.")
    ensures FindDataSet(ds, pk).Some? && FindDataSet(ds, pk).value.fileName != "" ==>
      (parsed.Failure? ==> r == ServerError("Error processing dataset file: " + parsed.message))
      && (parsed.Success? ==> r == Ok(parsed.value))
  {
    match FindDataSet(ds, pk)
    case None => NotFound("Dataset not found.")
    case Some(d) =>
      if d.fileName == "" then NotFound("Dataset file not found.")
      else if parsed.Failure? then ServerError("Error processing dataset file: " + parsed.message)
      else Ok(parsed.value)
  }
}
