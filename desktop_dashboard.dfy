/**
 * The desktop client's dashboard window: how `update_dashboard` rebuilds the
 * row of stat cards from the latest summary, and how `load_history_data`
 * fills the history table. The Qt widgets are reduced to what they show: the
 * stats layout is a sequence of cards, the history table a sequence of rows.
 */
module DesktopDashboard {
  import opened Common
  import opened Text
  import opened Serializers

  const TotalTitle: string := "TOTAL RECORDS"
  const TotalColor: string := "#2196F3"
  const Colors: seq<string> := ["#FF5722", "#FFC107", "#9C27B0", "#009688", "#E91E63"]

  /** A value of the `averages` object as decoded from JSON. */
  datatype JsonNumber = Number(r: real) | NotANumber | Null

  /** What a card displays. */
  datatype CardValue = Count(n: nat) | Amount(r: real) | NaNAmount

  datatype Card = Card(title: string, value: CardValue, color: string)

  /** The decoded `summary` object; an absent field is `None`. */
  datatype Summary = Summary(totalCount: Option<nat>, averages: Option<seq<(string, JsonNumber)>>)

  /** The response's `summary` field: absent, JSON null, or an object. */
  datatype SummaryField = Missing | NullSummary | Present(summary: Summary)

  // ---------------------------------------------------------------------------
  // Which averages get a card
  // ---------------------------------------------------------------------------

  /** `key.strip().lower()`. */
  function CleanKey(key: string): string {
    ToLower(Strip(key))
  }

  /** The key names one of the metrics the desktop never shows. */
  predicate Ignored(key: string) {
    Contains(CleanKey(key), "efficiency_rating") || Contains(CleanKey(key), "runtime_hours")
  }

  /** `key_clean.replace('avg', '').replace('_', '').strip()`: keys that agree here share one card. */
  function SimpleKey(key: string): string {
    Strip(ReplaceAll(ReplaceAll(CleanKey(key), "avg", ""), "_", ""))
  }

  /** `key.replace('_', ' ').upper()`. */
  function Title(key: string): string {
    ToUpper(ReplaceAll(key, "_", " "))
  }

  /** An entry of `averages` with what the loop derives from its key. */
  datatype Entry = Entry(key: string, value: JsonNumber, ignored: bool, simple: string)

  /** What the loop body derives from one entry's key. */
  function ClassifyOne(item: (string, JsonNumber)): Entry {
    Entry(item.0, item.1, Ignored(item.0), SimpleKey(item.0))
  }

  function Classify(items: seq<(string, JsonNumber)>): (es: seq<Entry>)
    ensures |es| == |items|
  {
    if items == [] then [] else Classify(items[..|items| - 1]) + [ClassifyOne(items[|items| - 1])]
  }

  lemma {:induction false} ClassifyIndex(items: seq<(string, JsonNumber)>, i: nat)
    requires i < |items|
    ensures Classify(items)[i] == ClassifyOne(items[i])
  {
    var init := items[..|items| - 1];
    var last := ClassifyOne(items[|items| - 1]);
    assert Classify(items) == Classify(init) + [last];
    if i < |items| - 1 {
      ClassifyIndex(init, i);
      assert init[i] == items[i];
    }
  }

  /** The loop body's `key_clean`, `should_skip` and `simple_key`, for every entry in turn. */
  method ClassifyAll(items: seq<(string, JsonNumber)>) returns (es: seq<Entry>)
    ensures es == Classify(items)
  {
    es := [];
    for i := 0 to |items|
      invariant es == Classify(items[..i])
    {
      var key := items[i].0;
      var keyClean := ToLower(Strip(key));
      var shouldSkip := Contains(keyClean, "efficiency_rating") || Contains(keyClean, "runtime_hours");
      var simpleKey := Strip(ReplaceAll(ReplaceAll(keyClean, "avg", ""), "_", ""));
      assert items[..i + 1][..i] == items[..i];
      es := es + [Entry(key, items[i].1, shouldSkip, simpleKey)];
    }
    assert items[..|items|] == items;
  }

  /** `seen_metrics` after the loop has visited `es`. */
  function SeenKeys(es: seq<Entry>): set<string> {
    if es == [] then {}
    else
      var e := es[|es| - 1];
      var seen := SeenKeys(es[..|es| - 1]);
      if e.ignored then seen else seen + {e.simple}
  }

  /** The entries that reach the card code: not ignored, and first of their simple key. */
  function ShownItems(es: seq<Entry>): seq<Entry> {
    if es == [] then []
    else
      var init := es[..|es| - 1];
      var e := es[|es| - 1];
      if e.ignored || e.simple in SeenKeys(init) then ShownItems(init)
      else ShownItems(init) + [e]
  }

  /** The position of the first entry whose value is null (`float(None)` raises there), or the length. */
  function FirstNull(shown: seq<Entry>): (n: nat)
    ensures n <= |shown|
    ensures forall i :: 0 <= i < n ==> !shown[i].value.Null?
    ensures n < |shown| ==> shown[n].value.Null?
  {
    if shown == [] then 0
    else if shown[0].value.Null? then 0
    else 1 + FirstNull(shown[1..])
  }

  function ValueOf(v: JsonNumber): CardValue
    requires !v.Null?
  {
    if v.Number? then Amount(v.r) else NaNAmount
  }

  /** The cards for the shown entries, colours cycling; none from the first null value on. */
  function AverageCards(shown: seq<Entry>): seq<Card> {
    seq(FirstNull(shown), i requires 0 <= i < FirstNull(shown) =>
      Card(Title(shown[i].key), ValueOf(shown[i].value), Colors[i % |Colors|]))
  }

  function AveragesOf(s: Summary): seq<(string, JsonNumber)> {
    if s.averages.Some? then s.averages.value else []
  }

  /** The stats layout after `update_dashboard`. */
  function DashboardCards(field: SummaryField): seq<Card> {
    match field
    case NullSummary => []
    case Missing => [Card(TotalTitle, Count(0), TotalColor)]
    case Present(s) =>
      var total := if s.totalCount.Some? then s.totalCount.value else 0;
      CardsRow(total, Classify(AveragesOf(s)))
  }

  /** The total card, then one card per shown entry. */
  function CardsRow(total: nat, es: seq<Entry>): seq<Card> {
    [Card(TotalTitle, Count(total), TotalColor)] + AverageCards(ShownItems(es))
  }

  // ---------------------------------------------------------------------------
  // Properties of the card selection
  // ---------------------------------------------------------------------------

  /** `seen_metrics` holds exactly the simple keys of the entries not ignored. */
  lemma {:induction false} SeenKeysSpec(es: seq<Entry>, k: string)
    ensures k in SeenKeys(es) <==> exists i :: 0 <= i < |es| && !es[i].ignored && es[i].simple == k
  {
    if es != [] {
      var init := es[..|es| - 1];
      SeenKeysSpec(init, k);
      assert forall i :: 0 <= i < |init| ==> init[i] == es[i];
    }
  }

  /** Entry `j` is not ignored and no earlier entry that is not ignored has its simple key. */
  predicate FirstOfItsKind(es: seq<Entry>, j: int)
    requires 0 <= j < |es|
  {
    && !es[j].ignored
    && forall i :: 0 <= i < j ==> es[i].ignored || es[i].simple != es[j].simple
  }

  /** An entry gets to the card code exactly when it is the first of its kind. */
  lemma {:induction false} ShownItemsSpec(es: seq<Entry>, x: Entry)
    ensures x in ShownItems(es) <==> exists j :: 0 <= j < |es| && es[j] == x && FirstOfItsKind(es, j)
  {
    if es != [] {
      var n := |es| - 1;
      var init := es[..n];
      var last := es[n];
      ShownItemsSpec(init, x);
      SeenKeysSpec(init, last.simple);
      assert forall i :: 0 <= i < n ==> init[i] == es[i];
      assert forall j :: 0 <= j < n ==> (FirstOfItsKind(es, j) <==> FirstOfItsKind(init, j));
      if exists j :: 0 <= j < |es| && es[j] == x && FirstOfItsKind(es, j) {
        var j :| 0 <= j < |es| && es[j] == x && FirstOfItsKind(es, j);
        if j < n {
          assert init[j] == x && FirstOfItsKind(init, j);
        }
      }
    }
  }

  /** Every shown entry's simple key is among the seen ones. */
  lemma {:induction false} ShownInSeen(es: seq<Entry>)
    ensures forall i :: 0 <= i < |ShownItems(es)| ==> ShownItems(es)[i].simple in SeenKeys(es)
  {
    if es != [] {
      ShownInSeen(es[..|es| - 1]);
    }
  }

  /** No shown entry is ignored, and no two shown entries share a simple key. */
  lemma {:induction false} ShownDistinct(es: seq<Entry>)
    ensures forall i :: 0 <= i < |ShownItems(es)| ==> !ShownItems(es)[i].ignored
    ensures forall i, j :: 0 <= i < j < |ShownItems(es)| ==> ShownItems(es)[i].simple != ShownItems(es)[j].simple
  {
    if es != [] {
      var init := es[..|es| - 1];
      ShownDistinct(init);
      ShownInSeen(init);
    }
  }

  /** Visiting more entries only appends to the shown ones. */
  lemma {:induction false} ShownPrefix(es: seq<Entry>, k: nat)
    requires k <= |es|
    ensures var p := ShownItems(es[..k]);
      |p| <= |ShownItems(es)| && ShownItems(es)[..|p|] == p
    decreases |es| - k
  {
    if k < |es| {
      ShownPrefix(es, k + 1);
      assert es[..k + 1][..k] == es[..k];
    } else {
      assert es[..k] == es;
    }
  }

  /** Once a null value is among the shown entries, later entries add no card. */
  lemma {:induction false} FirstNullPrefix(shown: seq<Entry>, p: seq<Entry>)
    requires |p| <= |shown| && shown[..|p|] == p
    requires FirstNull(p) < |p|
    ensures FirstNull(shown) == FirstNull(p)
  {
    if p != [] && !p[0].value.Null? {
      assert shown[1..][..|p| - 1] == p[1..];
      FirstNullPrefix(shown[1..], p[1..]);
    }
  }

  /** Appending an entry with a value after a null-free sequence adds its card. */
  lemma {:induction false} FirstNullAppend(p: seq<Entry>, x: Entry)
    requires FirstNull(p) == |p| && !x.value.Null?
    ensures FirstNull(p + [x]) == |p| + 1
    ensures AverageCards(p + [x]) == AverageCards(p) + [Card(Title(x.key), ValueOf(x.value), Colors[|p| % |Colors|])]
  {
    if p != [] {
      assert (p + [x])[1..] == p[1..] + [x];
      FirstNullAppend(p[1..], x);
    }
  }

  /** Appending an entry whose value is null after a null-free sequence adds no card. */
  lemma {:induction false} FirstNullAppendNull(p: seq<Entry>, x: Entry)
    requires FirstNull(p) == |p| && x.value.Null?
    ensures FirstNull(p + [x]) == |p|
    ensures AverageCards(p + [x]) == AverageCards(p)
  {
    if p != [] {
      assert (p + [x])[1..] == p[1..] + [x];
      FirstNullAppendNull(p[1..], x);
    }
  }

  /** One step of the loop: entry `i` is skipped, or appended to the shown entries and its key to the seen ones. */
  lemma LoopStep(es: seq<Entry>, i: nat)
    requires i < |es|
    ensures var before := ShownItems(es[..i]);
      && (es[i].ignored || es[i].simple in SeenKeys(es[..i]) ==> ShownItems(es[..i + 1]) == before)
      && (!es[i].ignored && es[i].simple !in SeenKeys(es[..i]) ==> ShownItems(es[..i + 1]) == before + [es[i]])
      && SeenKeys(es[..i + 1]) == if es[i].ignored then SeenKeys(es[..i]) else SeenKeys(es[..i]) + {es[i].simple}
  {
    assert es[..i + 1][..i] == es[..i];
  }

  /** When the entry just shown has a null value, the loop's cards are all the cards there will be. */
  lemma NullStops(es: seq<Entry>, i: nat)
    requires i < |es| && es[i].value.Null?
    requires FirstNull(ShownItems(es[..i])) == |ShownItems(es[..i])|
    requires ShownItems(es[..i + 1]) == ShownItems(es[..i]) + [es[i]]
    ensures AverageCards(ShownItems(es)) == AverageCards(ShownItems(es[..i]))
    ensures FirstNull(ShownItems(es)) < |ShownItems(es)|
  {
    var shown := ShownItems(es[..i + 1]);
    FirstNullAppendNull(ShownItems(es[..i]), es[i]);
    ShownPrefix(es, i + 1);
    FirstNullPrefix(ShownItems(es), shown);
    assert AverageCards(ShownItems(es)) == AverageCards(shown);
  }

  /** A title is the key with "_" read as a space and every letter upper-case. */
  lemma TitleSpec(key: string)
    ensures |Title(key)| == |key|
    ensures forall i :: 0 <= i < |key| ==> Title(key)[i] == if key[i] == '_' then ' ' else UpperChar(key[i])
    ensures '_' !in Title(key)
    ensures forall i :: 0 <= i < |key| ==> !('a' <= Title(key)[i] <= 'z')
  {
    ReplaceCharAt(key, '_', ' ');
  }

  /**
   * Below the total card, every card belongs to a shown entry, in order, is
   * titled after its key and takes the colour of its position among the
   * average cards.
   */
  lemma {:induction false} AverageCardsSpec(es: seq<Entry>)
    ensures var cards := AverageCards(ShownItems(es));
      var shown := ShownItems(es);
      && |cards| <= |shown|
      && (forall i :: 0 <= i < |cards| ==>
            && cards[i].title == Title(shown[i].key)
            && !shown[i].ignored
            && cards[i].color == Colors[i % 5])
  {
    ShownDistinct(es);
  }

  /**
   * The total card always comes first, showing `total_count` or 0, with the
   * average cards after it; a null summary leaves the row empty.
   */
  lemma DashboardCardsSpec(field: SummaryField)
    ensures field.NullSummary? <==> DashboardCards(field) == []
    ensures field.Missing? ==> DashboardCards(field) == [Card(TotalTitle, Count(0), TotalColor)]
    ensures field.Present? ==>
      var s := field.summary;
      && DashboardCards(field)[0] == Card(TotalTitle, Count(if s.totalCount.Some? then s.totalCount.value else 0), TotalColor)
      && DashboardCards(field)[1..] == AverageCards(ShownItems(Classify(AveragesOf(s))))
  {
  }

  /** Two average cards share a colour exactly when their positions agree modulo 5. */
  lemma ColorsCycle(shown: seq<Entry>)
    ensures var cards := AverageCards(shown);
      forall i, j :: 0 <= i < |cards| && 0 <= j < |cards| ==>
        (cards[i].color == cards[j].color <==> i % 5 == j % 5)
  {
  }

  // ---------------------------------------------------------------------------
  // The history table
  // ---------------------------------------------------------------------------

  /** The `id` of a history entry: absent from the object, JSON null, or a number. */
  datatype IdField = NoId | NullId | Id(n: nat)

  /**
   * One entry of the history response. An absent `uploaded_at` is `None`; an
   * absent or null `file` is `None`, both being falsy for the code.
   */
  datatype HistoryItem = HistoryItem(id: IdField, uploadedAt: Option<string>, file: Option<string>)

  /** The three cells of a history row. */
  datatype HistoryRow = HistoryRow(id: string, date: string, filename: string)

  /** `file_path.split('/')[-1] if file_path else "Unknown"`. */
  function HistoryFilename(file: Option<string>): (r: string)
    ensures file.None? || file.value == "" ==> r == "Unknown"
    ensures file.Some? && file.value != "" ==> '/' !in r && EndsWith(file.value, r)
  {
    if file.Some? && file.value != "" then LastSegment(file.value) else "Unknown"
  }

  /** The desktop shows a stored file under the same name as the backend's `filename` field. */
  lemma HistoryFilenameAgrees(file: string)
    requires file != ""
    ensures HistoryFilename(Some(file)) == GetFilename(file).value
  {
  }

  /**
   * The date cell: the parsed and reformatted date when `parse` (standing for
   * `datetime.fromisoformat` and `strftime`) succeeds, the raw text otherwise.
   */
  function DateCell(raw: string, parse: string -> Option<string>): string {
    match parse(raw)
    case Some(d) => d
    case None => raw
  }

  /**
   * `str(item.get('id', ''))`: the empty string when the key is absent,
   * "None" for a null, and the decimal digits of a number.
   */
  function IdCell(id: IdField): (r: string)
    ensures r == "" <==> id.NoId?
    ensures r == "None" <==> id.NullId?
    ensures id.Id? ==> |r| >= 1 && AllDigits(r) && DigitsValue(r) == id.n
  {
    match id
    case NoId => ""
    case NullId => "None"
    case Id(n) =>
      NatToStringRoundTrip(n);
      var r := NatToString(n);
      assert IsDigit(r[0]) && !IsDigit('N');
      r
  }

  function RowOf(item: HistoryItem, parse: string -> Option<string>): HistoryRow {
    HistoryRow(
      IdCell(item.id),
      DateCell(if item.uploadedAt.Some? then item.uploadedAt.value else "", parse),
      HistoryFilename(item.file))
  }

  /** The widgets of the window that the two operations change. */
  class Window {
    var stats: seq<Card>
    var historyRows: seq<HistoryRow>

    constructor ()
      ensures stats == [] && historyRows == []
    {
      stats := [];
      historyRows := [];
    }

    /** Drains the stats layout one widget at a time. */
    method ClearStats()
      modifies this
      ensures stats == [] && historyRows == old(historyRows)
    {
      while |stats| > 0
        invariant historyRows == old(historyRows)
        decreases |stats|
      {
        stats := stats[1..];
      }
    }

    /**
     * `update_dashboard`: clears the row, adds the total card, then one card
     * per shown average. It raises (leaving the cards added so far) when the
     * summary is null or a shown average is null.
     */
    method UpdateDashboard(field: SummaryField) returns (raised: bool)
      modifies this
      ensures stats == DashboardCards(field)
      ensures var shown := if field.Present? then ShownItems(Classify(AveragesOf(field.summary))) else [];
        raised <==> field.NullSummary? || FirstNull(shown) < |shown|
      ensures historyRows == old(historyRows)
    {
      ClearStats();
      match field
      case NullSummary =>
        raised := true;
      case Missing =>
        stats := [Card(TotalTitle, Count(0), TotalColor)];
        raised := false;
      case Present(s) =>
        var total := if s.totalCount.Some? then s.totalCount.value else 0;
        var totalCard := Card(TotalTitle, Count(total), TotalColor);
        stats := [totalCard];
        var es := ClassifyAll(AveragesOf(s));
        raised := AddAverageCards(es);
        assert stats == CardsRow(total, es);
    }

    /**
     * The loop over `averages`, given each entry with what the loop body
     * derives from its key: appends one card per shown entry, with
     * `color_idx` advancing only for those, and stops at the first shown
     * entry whose value is null, as `float(None)` raises there.
     */
    method AddAverageCards(es: seq<Entry>) returns (raised: bool)
      modifies this
      ensures stats == old(stats) + AverageCards(ShownItems(es))
      ensures raised <==> FirstNull(ShownItems(es)) < |ShownItems(es)|
      ensures historyRows == old(historyRows)
    {
      var seen: set<string> := {};
      var colorIdx := 0;
      for i := 0 to |es|
        invariant seen == SeenKeys(es[..i])
        invariant colorIdx == |ShownItems(es[..i])|
        invariant FirstNull(ShownItems(es[..i])) == colorIdx
        invariant stats == old(stats) + AverageCards(ShownItems(es[..i]))
        invariant historyRows == old(historyRows)
      {
        var e := es[i];
        LoopStep(es, i);
        if !e.ignored && e.simple !in seen {
          seen := seen + {e.simple};
          if e.value.Null? {
            NullStops(es, i);
            return true;
          }
          FirstNullAppend(ShownItems(es[..i]), e);
          stats := stats + [Card(Title(e.key), ValueOf(e.value), Colors[colorIdx % |Colors|])];
          colorIdx := colorIdx + 1;
        }
      }
      assert es[..|es|] == es;
      raised := false;
    }

    /**
     * `load_history_data` on a 200 answer: one row per entry, in order; on any
     * other answer the table is left as it was.
     */
    method LoadHistory(response: Option<seq<HistoryItem>>, parse: string -> Option<string>)
      modifies this
      ensures response.None? ==> historyRows == old(historyRows)
      ensures response.Some? ==>
        |historyRows| == |response.value|
        && forall i :: 0 <= i < |historyRows| ==> historyRows[i] == RowOf(response.value[i], parse)
      ensures stats == old(stats)
    {
      if response.None? {
        return;
      }
      var data := response.value;
      var previous := historyRows;
      historyRows := seq(|data|, i requires 0 <= i < |data| =>
        if i < |previous| then previous[i] else HistoryRow("", "", ""));
      for i := 0 to |data|
        invariant |historyRows| == |data|
        invariant forall r :: 0 <= r < i ==> historyRows[r] == RowOf(data[r], parse)
        invariant stats == old(stats)
      {
        historyRows := historyRows[i := RowOf(data[i], parse)];
      }
    }
  }
}
