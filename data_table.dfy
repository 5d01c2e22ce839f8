/**
 * The record table of the web dashboard: the search filter, the one-field
 * sort, pagination by pages of ten rows, the sort-header toggle, the page
 * buttons and the status badge style.
 *
 * `Array.prototype.sort` is a stable sort whose algorithm belongs to the
 * JavaScript engine; it is modelled by a stable insertion sort, specified by
 * the three facts that determine a stable sort: the result is a permutation,
 * it is ordered by the comparator, and records with equal keys keep their
 * relative order.
 */
module DataTable {
  import opened Common
  import opened Text
  import opened Equipment

  const PageSize: nat := 10

  /** The columns whose headers sort the table. */
  datatype Field =
    | EquipmentIdField | TypeField | ManufacturerField | StatusField | LocationField
    | CostField | EfficiencyField | RuntimeField

  /** `record[field]`. */
  function FieldValue(r: EquipmentRecord, f: Field): Value {
    match f
    case EquipmentIdField => Str(r.equipmentId)
    case TypeField => Str(r.equipmentType)
    case ManufacturerField => Str(r.manufacturer)
    case StatusField => Str(r.status)
    case LocationField => Str(r.location)
    case CostField => Num(r.cost)
    case EfficiencyField => Num(r.efficiencyRating)
    case RuntimeField => Num(r.runtimeHours)
  }

  predicate IsNumericField(f: Field) {
    f == CostField || f == EfficiencyField || f == RuntimeField
  }

  /** A column holds numbers in every record or strings in every record. */
  lemma FieldKind(r: EquipmentRecord, f: Field)
    ensures FieldValue(r, f).Num? <==> IsNumericField(f)
  {
  }

  /** `String(value)`. */
  function Render(v: Value): string {
    match v
    case Str(s) => s
    case Num(t) => DecimalString(t)
  }

  // ---------------------------------------------------------------------------
  // Search
  // ---------------------------------------------------------------------------

  /** `Object.values(record)`: the typed fields in declaration order, then the further columns. */
  function RecordValues(r: EquipmentRecord): seq<Value> {
    [Str(r.id), Str(r.equipmentId), Str(r.equipmentType), Str(r.manufacturer), Str(r.model),
     Str(r.installationDate), Str(r.lastMaintenance), Str(r.status), Str(r.location),
     Num(r.cost), Num(r.efficiencyRating), Num(r.runtimeHours)]
    + seq(|r.extra|, i requires 0 <= i < |r.extra| => r.extra[i].1)
  }

  /** Some value of the record, rendered and lower-cased, contains `lowerSearch`. */
  predicate Matches(r: EquipmentRecord, lowerSearch: string) {
    exists v | v in RecordValues(r) :: Contains(ToLower(Render(v)), lowerSearch)
  }

  /** `records.filter(item => Matches(item, lowerSearch))`. */
  function Filter(rs: seq<EquipmentRecord>, lowerSearch: string): seq<EquipmentRecord> {
    if rs == [] then []
    else (if Matches(rs[0], lowerSearch) then [rs[0]] else []) + Filter(rs[1..], lowerSearch)
  }

  /** The search step: no filtering for an empty search string. */
  function SearchFilter(rs: seq<EquipmentRecord>, search: string): seq<EquipmentRecord> {
    if search == "" then rs else Filter(rs, ToLower(search))
  }

  /**
   * The filter keeps every copy of a matching record and drops every copy of
   * any other, so a record is kept exactly when it matches.
   */
  lemma {:induction false} FilterCounts(rs: seq<EquipmentRecord>, q: string, r: EquipmentRecord)
    ensures multiset(Filter(rs, q))[r] == if Matches(r, q) then multiset(rs)[r] else 0
    ensures r in Filter(rs, q) <==> r in rs && Matches(r, q)
  {
    if rs != [] {
      FilterCounts(rs[1..], q, r);
      assert rs == [rs[0]] + rs[1..];
    }
  }

  /**
   * An empty search keeps the input as it is; a non-empty one keeps exactly
   * (the copies of) the records some value of which, lower-cased, contains
   * the lower-cased search.
   */
  lemma SearchFilterSpec(rs: seq<EquipmentRecord>, search: string, r: EquipmentRecord)
    ensures search == "" ==> SearchFilter(rs, search) == rs
    ensures search != "" ==>
      multiset(SearchFilter(rs, search))[r] == if Matches(r, ToLower(search)) then multiset(rs)[r] else 0
    ensures r in SearchFilter(rs, search) <==> r in rs && (search == "" || Matches(r, ToLower(search)))
  {
    if search != "" {
      FilterCounts(rs, ToLower(search), r);
    }
  }

  lemma FilterCons(a: EquipmentRecord, s: seq<EquipmentRecord>, q: string)
    ensures Filter([a] + s, q) == (if Matches(a, q) then [a] else []) + Filter(s, q)
  {
    assert ([a] + s)[0] == a && ([a] + s)[1..] == s;
  }

  /** Filtering and picking out the records of one key commute: the filter moves no record. */
  lemma {:induction false} FilterWithKey(rs: seq<EquipmentRecord>, q: string, f: Field, v: Value)
    ensures WithKey(Filter(rs, q), f, v) == Filter(WithKey(rs, f, v), q)
  {
    if rs != [] {
      var a, rest := rs[0], rs[1..];
      FilterWithKey(rest, q, f, v);
      assert rs == [a] + rest;
      FilterCons(a, rest, q);
      WithKeyCons(a, rest, f, v);
      var m, k := Matches(a, q), FieldValue(a, f) == v;
      if m && k {
        assert Filter(rs, q) == [a] + Filter(rest, q);
        assert WithKey(rs, f, v) == [a] + WithKey(rest, f, v);
        WithKeyCons(a, Filter(rest, q), f, v);
        FilterCons(a, WithKey(rest, f, v), q);
      } else if m {
        assert Filter(rs, q) == [a] + Filter(rest, q);
        WithKeyCons(a, Filter(rest, q), f, v);
        assert WithKey(Filter(rs, q), f, v) == WithKey(Filter(rest, q), f, v);
        assert WithKey(rs, f, v) == WithKey(rest, f, v);
      } else if k {
        assert Filter(rs, q) == Filter(rest, q);
        assert WithKey(rs, f, v) == [a] + WithKey(rest, f, v);
        FilterCons(a, WithKey(rest, f, v), q);
        assert Filter(WithKey(rs, f, v), q) == Filter(WithKey(rest, f, v), q);
      } else {
        assert Filter(rs, q) == Filter(rest, q);
        assert WithKey(rs, f, v) == WithKey(rest, f, v);
      }
    }
  }

  /**
   * The search keeps the relative order of the records it keeps: the
   * records of any one key come out of the search in the order the search
   * of those records alone gives.
   */
  lemma SearchFilterOrder(rs: seq<EquipmentRecord>, search: string, f: Field, v: Value)
    ensures WithKey(SearchFilter(rs, search), f, v) == SearchFilter(WithKey(rs, f, v), search)
  {
    if search != "" {
      FilterWithKey(rs, ToLower(search), f, v);
    }
  }

  // ---------------------------------------------------------------------------
  // Sorting
  // ---------------------------------------------------------------------------

  /**
   * The comparator: the difference when both values are numbers, otherwise a
   * comparison of the two strings; descending swaps the operands.
   */
  function KeyCompare(a: EquipmentRecord, b: EquipmentRecord, f: Field, asc: bool): int {
    var x, y := FieldValue(a, f), FieldValue(b, f);
    if x.Num? && y.Num? then (if asc then x.tenths - y.tenths else y.tenths - x.tenths)
    else if asc then Compare(Render(x), Render(y))
    else Compare(Render(y), Render(x))
  }

  /** Descending order compares the operands the other way round. */
  lemma DescendingSwaps(a: EquipmentRecord, b: EquipmentRecord, f: Field)
    ensures KeyCompare(a, b, f, false) == KeyCompare(b, a, f, true)
  {
  }

  lemma KeyCompareAntisymmetric(a: EquipmentRecord, b: EquipmentRecord, f: Field, asc: bool)
    ensures KeyCompare(a, b, f, asc) == -KeyCompare(b, a, f, asc)
  {
    CompareAntisymmetric(Render(FieldValue(a, f)), Render(FieldValue(b, f)));
  }

  /** The comparator ties two records exactly when they hold the same key. */
  lemma KeyCompareZero(a: EquipmentRecord, b: EquipmentRecord, f: Field, asc: bool)
    ensures KeyCompare(a, b, f, asc) == 0 <==> FieldValue(a, f) == FieldValue(b, f)
  {
    CompareZeroIffEqual(Render(FieldValue(a, f)), Render(FieldValue(b, f)));
    CompareZeroIffEqual(Render(FieldValue(b, f)), Render(FieldValue(a, f)));
  }

  lemma KeyCompareTransitive(a: EquipmentRecord, b: EquipmentRecord, c: EquipmentRecord, f: Field, asc: bool)
    requires KeyCompare(a, b, f, asc) <= 0 && KeyCompare(b, c, f, asc) <= 0
    ensures KeyCompare(a, c, f, asc) <= 0
  {
    if !IsNumericField(f) {
      var x, y, z := Render(FieldValue(a, f)), Render(FieldValue(b, f)), Render(FieldValue(c, f));
      if asc {
        CompareTransitive(x, y, z);
      } else {
        CompareTransitive(z, y, x);
      }
    }
  }

  /** Every record sorts no later than every record after it. */
  predicate Ordered(s: seq<EquipmentRecord>, f: Field, asc: bool) {
    forall i, j :: 0 <= i < j < |s| ==> KeyCompare(s[i], s[j], f, asc) <= 0
  }

  /** Puts `x` before the first record it does not sort after. */
  function Insert(x: EquipmentRecord, s: seq<EquipmentRecord>, f: Field, asc: bool): seq<EquipmentRecord> {
    if s == [] then [x]
    else if KeyCompare(x, s[0], f, asc) <= 0 then [x] + s
    else [s[0]] + Insert(x, s[1..], f, asc)
  }

  /** `result.sort(comparator)`. */
  function SortRecords(s: seq<EquipmentRecord>, f: Field, asc: bool): seq<EquipmentRecord> {
    if s == [] then [] else Insert(s[0], SortRecords(s[1..], f, asc), f, asc)
  }

  lemma {:induction false} InsertPermutes(x: EquipmentRecord, s: seq<EquipmentRecord>, f: Field, asc: bool)
    ensures multiset(Insert(x, s, f, asc)) == multiset{x} + multiset(s)
  {
    if s != [] && KeyCompare(x, s[0], f, asc) > 0 {
      InsertPermutes(x, s[1..], f, asc);
      assert s == [s[0]] + s[1..];
    }
  }

  /** Sorting rearranges the records and neither adds nor drops any. */
  lemma {:induction false} SortPermutes(s: seq<EquipmentRecord>, f: Field, asc: bool)
    ensures multiset(SortRecords(s, f, asc)) == multiset(s)
  {
    if s != [] {
      SortPermutes(s[1..], f, asc);
      InsertPermutes(s[0], SortRecords(s[1..], f, asc), f, asc);
      assert s == [s[0]] + s[1..];
    }
  }

  lemma {:induction false} InsertOrdered(x: EquipmentRecord, s: seq<EquipmentRecord>, f: Field, asc: bool)
    requires Ordered(s, f, asc)
    ensures Ordered(Insert(x, s, f, asc), f, asc)
  {
    if s == [] {
    } else if KeyCompare(x, s[0], f, asc) <= 0 {
      OrderedFront(x, s, f, asc);
    } else {
      InsertOrdered(x, s[1..], f, asc);
      InsertPermutes(x, s[1..], f, asc);
      KeyCompareAntisymmetric(x, s[0], f, asc);
      OrderedBehind(x, s, Insert(x, s[1..], f, asc), f, asc);
    }
  }

  /** A record that sorts no later than the head of an ordered list can go in front of it. */
  lemma OrderedFront(x: EquipmentRecord, s: seq<EquipmentRecord>, f: Field, asc: bool)
    requires Ordered(s, f, asc) && s != [] && KeyCompare(x, s[0], f, asc) <= 0
    ensures Ordered([x] + s, f, asc)
  {
    var r := [x] + s;
    forall i, j | 0 <= i < j < |r| ensures KeyCompare(r[i], r[j], f, asc) <= 0 {
      if i == 0 && j > 1 {
        KeyCompareTransitive(x, s[0], s[j - 1], f, asc);
      }
    }
  }

  /**
   * The head of an ordered list can go in front of any ordered rearrangement
   * of its tail plus a record that sorts after it.
   */
  lemma OrderedBehind(x: EquipmentRecord, s: seq<EquipmentRecord>, t: seq<EquipmentRecord>, f: Field, asc: bool)
    requires Ordered(s, f, asc) && s != [] && KeyCompare(s[0], x, f, asc) <= 0
    requires Ordered(t, f, asc) && multiset(t) == multiset{x} + multiset(s[1..])
    ensures Ordered([s[0]] + t, f, asc)
  {
    var r := [s[0]] + t;
    forall i, j | 0 <= i < j < |r| ensures KeyCompare(r[i], r[j], f, asc) <= 0 {
      if i == 0 {
        var y := t[j - 1];
        assert y in multiset(t);
        if y != x {
          assert y in multiset(s[1..]);
          var k :| 0 <= k < |s[1..]| && s[1..][k] == y;
          assert s[k + 1] == y;
        }
      }
    }
  }

  /** The sorted table is ordered by the comparator. */
  lemma {:induction false} SortOrdered(s: seq<EquipmentRecord>, f: Field, asc: bool)
    ensures Ordered(SortRecords(s, f, asc), f, asc)
  {
    if s != [] {
      SortOrdered(s[1..], f, asc);
      InsertOrdered(s[0], SortRecords(s[1..], f, asc), f, asc);
    }
  }

  /** The records, in order, whose key in column `f` is `v`. */
  function WithKey(s: seq<EquipmentRecord>, f: Field, v: Value): seq<EquipmentRecord> {
    if s == [] then []
    else (if FieldValue(s[0], f) == v then [s[0]] else []) + WithKey(s[1..], f, v)
  }

  lemma WithKeyCons(a: EquipmentRecord, s: seq<EquipmentRecord>, f: Field, v: Value)
    ensures WithKey([a] + s, f, v) == (if FieldValue(a, f) == v then [a] else []) + WithKey(s, f, v)
  {
    assert ([a] + s)[0] == a && ([a] + s)[1..] == s;
  }

  lemma {:induction false} InsertWithKey(x: EquipmentRecord, s: seq<EquipmentRecord>, f: Field, asc: bool, v: Value)
    ensures WithKey(Insert(x, s, f, asc), f, v)
         == (if FieldValue(x, f) == v then [x] else []) + WithKey(s, f, v)
  {
    if s == [] {
      WithKeyCons(x, [], f, v);
    } else if KeyCompare(x, s[0], f, asc) <= 0 {
      WithKeyCons(x, s, f, v);
    } else {
      var t := s[1..];
      InsertWithKey(x, t, f, asc, v);
      KeyCompareZero(x, s[0], f, asc);
      WithKeyCons(s[0], Insert(x, t, f, asc), f, v);
      WithKeyCons(s[0], t, f, v);
      assert s == [s[0]] + t;
      var px := if FieldValue(x, f) == v then [x] else [];
      var p0 := if FieldValue(s[0], f) == v then [s[0]] else [];
      assert px == [] || p0 == [];
      assert p0 + (px + WithKey(t, f, v)) == px + (p0 + WithKey(t, f, v));
    }
  }

  /** Sorting is stable: the records sharing a key keep their input order. */
  lemma {:induction false} SortStable(s: seq<EquipmentRecord>, f: Field, asc: bool, v: Value)
    ensures WithKey(SortRecords(s, f, asc), f, v) == WithKey(s, f, v)
  {
    if s != [] {
      SortStable(s[1..], f, asc, v);
      InsertWithKey(s[0], SortRecords(s[1..], f, asc), f, asc, v);
    }
  }

  /** `filteredData`: a copy of the records, filtered by the search and sorted. */
  function Query(data: seq<EquipmentRecord>, search: string, f: Field, asc: bool): seq<EquipmentRecord> {
    SortRecords(SearchFilter(data, search), f, asc)
  }

  /**
   * The filtered table is a permutation of the search result, ordered by the
   * chosen column and direction, stable, and with an empty search a
   * permutation of all the records.
   */
  lemma QuerySpec(data: seq<EquipmentRecord>, search: string, f: Field, asc: bool, v: Value)
    ensures multiset(Query(data, search, f, asc)) == multiset(SearchFilter(data, search))
    ensures search == "" ==> multiset(Query(data, search, f, asc)) == multiset(data)
    ensures Ordered(Query(data, search, f, asc), f, asc)
    ensures WithKey(Query(data, search, f, asc), f, v) == WithKey(SearchFilter(data, search), f, v)
  {
    SortPermutes(SearchFilter(data, search), f, asc);
    SortOrdered(SearchFilter(data, search), f, asc);
    SortStable(SearchFilter(data, search), f, asc, v);
  }

  // ---------------------------------------------------------------------------
  // Pages
  // ---------------------------------------------------------------------------

  /** `Math.ceil(n / PAGE_SIZE)`. */
  function TotalPages(n: nat): (k: nat)
    ensures k * PageSize >= n
    ensures k > 0 ==> (k - 1) * PageSize < n
  {
    (n + PageSize - 1) / PageSize
  }

  /** `s.slice(start, end)` for non-negative bounds: both are clamped to the length. */
  function Slice<T>(s: seq<T>, start: nat, end: nat): (r: seq<T>)
    ensures |r| <= |s|
    ensures start <= end <= |s| ==> r == s[start..end]
  {
    var lo, hi := Min(start, |s|), Min(end, |s|);
    if lo >= hi then [] else s[lo..hi]
  }

  /** `paginatedData`: the rows of page `page`. */
  function PageOf<T>(s: seq<T>, page: nat): (r: seq<T>)
    ensures |r| <= PageSize
  {
    Slice(s, page * PageSize, (page + 1) * PageSize)
  }

  /** Pages `0 .. k-1`, one after the other. */
  function FirstPages<T>(s: seq<T>, k: nat): seq<T> {
    if k == 0 then [] else FirstPages(s, k - 1) + PageOf(s, k - 1)
  }

  lemma {:induction false} FirstPagesPrefix<T>(s: seq<T>, k: nat)
    ensures FirstPages(s, k) == s[..Min(|s|, k * PageSize)]
  {
    if k > 0 {
      FirstPagesPrefix(s, k - 1);
    }
  }

  /** Every page has at most ten rows and the pages, in order, make up the whole list. */
  lemma PagesCoverList<T>(s: seq<T>, page: nat)
    ensures |PageOf(s, page)| <= PageSize
    ensures page < TotalPages(|s|) ==> PageOf(s, page) == s[page * PageSize..Min(|s|, (page + 1) * PageSize)]
    ensures page >= TotalPages(|s|) ==> PageOf(s, page) == []
    ensures FirstPages(s, TotalPages(|s|)) == s
  {
    FirstPagesPrefix(s, TotalPages(|s|));
  }

  /** The page after `page`: `Math.min(totalPages - 1, page + 1)`. */
  function NextPageIndex(page: nat, totalPages: nat): (p: nat)
    requires totalPages > 0
    ensures p < totalPages
    ensures page < totalPages - 1 ==> p == page + 1
    ensures page >= totalPages - 1 ==> p == totalPages - 1
  {
    Min(totalPages - 1, page + 1)
  }

  /** The page before `page`: `Math.max(0, page - 1)`. */
  function PrevPageIndex(page: nat): (p: nat)
    ensures p <= page
    ensures page > 0 ==> p == page - 1
    ensures page == 0 ==> p == 0
  {
    Max(0, page - 1)
  }

  /** What a click on the header of `clicked` makes of the sort column and direction. */
  function SortToggle(field: Field, asc: bool, clicked: Field): (r: (Field, bool))
    ensures r.0 == clicked
    ensures field == clicked ==> r.1 == !asc
    ensures field != clicked ==> r.1
  {
    if field == clicked then (field, !asc) else (clicked, true)
  }

  /** Two clicks on the current column restore its direction; a new column always starts ascending. */
  lemma SortToggleTwice(field: Field, asc: bool, clicked: Field)
    ensures var once := SortToggle(field, asc, clicked);
      SortToggle(once.0, once.1, clicked) == (clicked, if field == clicked then asc else false)
  {
  }

  // ---------------------------------------------------------------------------
  // Status badge
  // ---------------------------------------------------------------------------

  const StatusColors: map<string, string> := map[
    "operational" := "bg-success/10 text-success border-success/30",
    "maintenance" := "bg-accent/10 text-accent-foreground border-accent/30",
    "faulty" := "bg-destructive/10 text-destructive border-destructive/30",
    "retired" := "bg-muted text-muted-foreground border-muted"]

  /** `statusColors[status] || statusColors.retired`. */
  function StatusStyle(status: string): string {
    if status in StatusColors then StatusColors[status] else StatusColors["retired"]
  }

  /**
   * The four statuses get four different styles, and every other status is
   * drawn like "retired".
   */
  lemma StatusStyleSpec(status: string, other: string)
    ensures status !in Statuses ==> StatusStyle(status) == StatusStyle("retired")
    ensures status in Statuses && other in Statuses && status != other ==> StatusStyle(status) != StatusStyle(other)
  {
  }

  // ---------------------------------------------------------------------------
  // The component's state
  // ---------------------------------------------------------------------------

  /** The four state variables of the table component. */
  class TableState {
    var search: string
    var sortField: Field
    var sortAsc: bool
    var page: nat

    /** Empty search, sorted by equipment id ascending, first page. */
    constructor ()
      ensures search == "" && sortField == EquipmentIdField && sortAsc && page == 0
    {
      search := "";
      sortField := EquipmentIdField;
      sortAsc := true;
      page := 0;
    }

    /** `handleSort(field)`: the page and the search stay as they are. */
    method HandleSort(field: Field)
      modifies this
      ensures (sortField, sortAsc) == SortToggle(old(sortField), old(sortAsc), field)
      ensures search == old(search) && page == old(page)
    {
      if sortField == field {
        sortAsc := !sortAsc;
      } else {
        sortField := field;
        sortAsc := true;
      }
    }

    /** Typing in the search box: the new search, back on the first page. */
    method OnSearchChange(value: string)
      modifies this
      ensures search == value && page == 0
      ensures sortField == old(sortField) && sortAsc == old(sortAsc)
    {
      search := value;
      page := 0;
    }

    /** The "previous" button. */
    method PrevPage()
      modifies this
      ensures page == PrevPageIndex(old(page))
      ensures search == old(search) && sortField == old(sortField) && sortAsc == old(sortAsc)
    {
      page := Max(0, page - 1);
    }

    /** The "next" button, which is shown only when there is more than one page. */
    method NextPage(totalPages: nat)
      requires totalPages > 1
      modifies this
      ensures page == NextPageIndex(old(page), totalPages) && page < totalPages
      ensures search == old(search) && sortField == old(sortField) && sortAsc == old(sortAsc)
    {
      page := Min(totalPages - 1, page + 1);
    }

    /**
     * What the component shows for `data`: the rows of the current page, the
     * number of records that pass the search, and the number of pages.
     */
    method View(data: seq<EquipmentRecord>) returns (rows: seq<EquipmentRecord>, shown: nat, totalPages: nat)
      ensures shown == |SearchFilter(data, search)|
      ensures totalPages == TotalPages(shown)
      ensures rows == PageOf(Query(data, search, sortField, sortAsc), page)
      ensures |rows| <= PageSize
    {
      var filtered := Query(data, search, sortField, sortAsc);
      SortPermutes(SearchFilter(data, search), sortField, sortAsc);
      assert |filtered| == |multiset(filtered)|;
      shown := |filtered|;
      totalPages := (shown + PageSize - 1) / PageSize;
      rows := Slice(filtered, page * PageSize, (page + 1) * PageSize);
    }
  }
}
