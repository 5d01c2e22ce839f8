/**
 * The dashboard page's session state and its three handlers: the initial
 * load, a finished upload (`handleDataLoaded`) and a click on a history entry
 * (`handleSelectDataset`), each in its demo (mock) and its connected form.
 *
 * Each handler is one atomic transition. What the outside world supplies is
 * a parameter: the outcome of parsing the file (demo mode), the responses of
 * the backend calls (connected mode, a `Failure` being a thrown error), the
 * random draws, and the id and timestamp derived from the clock.
 */
module IndexPage {
  import opened Common
  import opened Equipment
  import opened MockData

  /**
   * `history.find(h => h.id === id)`: the position of the first entry with
   * that id, if there is one.
   */
  function FindById(history: seq<UploadHistory>, id: string): (r: Option<nat>)
    ensures r.None? <==> id !in HistoryIds(history)
    ensures r.Some? ==> r.value < |history| && history[r.value].id == id
    ensures r.Some? ==> forall j :: 0 <= j < r.value ==> history[j].id != id
  {
    if history == [] then None
    else if history[0].id == id then
      assert HistoryIds(history)[0] == id;
      Some(0)
    else
      match FindById(history[1..], id)
      case None =>
        assert HistoryIds(history) == [history[0].id] + HistoryIds(history[1..]);
        None
      case Some(k) =>
        assert HistoryIds(history) == [history[0].id] + HistoryIds(history[1..]);
        Some(k + 1)
  }

  /**
   * `[entry, ...prev.slice(0, 4)]`: the new entry first, then at most four of
   * the previous entries, in their order.
   */
  function PrependHistory(entry: UploadHistory, prev: seq<UploadHistory>): (h: seq<UploadHistory>)
    ensures |h| == 1 + Min(4, |prev|) && |h| <= 5
    ensures h[0] == entry
    ensures h[1..] == prev[..|h| - 1]
    ensures |prev| <= 4 ==> h[1..] == prev
  {
    [entry] + prev[..Min(4, |prev|)]
  }

  /** The state variables of the page. */
  class Dashboard {
    var data: seq<EquipmentRecord>
    var summary: Option<DataSummary>
    var history: seq<UploadHistory>
    var selectedDatasetId: Option<string>
    var currentFilename: string
    var isLoading: bool
    var activeTab: string
    /** No backend URL is configured: the page runs on generated data. */
    const mockMode: bool

    /**
     * What a demo session keeps true: at most five history entries, each
     * giving the record count of its own summary; the selected id, if any,
     * is one of the history's; a shown summary counts the shown records.
     */
    predicate MockValid()
      reads this
    {
      && |history| <= 5
      && (forall i :: 0 <= i < |history| ==> history[i].recordCount == history[i].summary.totalCount)
      && (selectedDatasetId.Some? ==> selectedDatasetId.value in HistoryIds(history))
      && (summary.Some? ==> summary.value.totalCount == |data|)
    }

    constructor (mockMode: bool)
      ensures this.mockMode == mockMode
      ensures data == [] && summary.None? && history == [] && selectedDatasetId.None?
      ensures currentFilename == "" && !isLoading && activeTab == "charts"
      ensures MockValid()
    {
      this.mockMode := mockMode;
      data := [];
      summary := None;
      history := [];
      selectedDatasetId := None;
      currentFilename := "";
      isLoading := false;
      activeTab := "charts";
    }

    /**
     * The initial load in demo mode: five generated history entries; the
     * first one is selected, its stored summary is shown, and fresh records
     * are generated to its record count.
     */
    method InitialLoadMock(historyDraw: nat -> HistoryDraw, recordDraw: nat -> RecordDraw)
      requires mockMode
      modifies this
      ensures history == GenerateMockHistory(historyDraw) && |history| == 5
      ensures data == GenerateMockRecords(history[0].recordCount, recordDraw)
      ensures summary == Some(history[0].summary)
      ensures selectedDatasetId == Some(history[0].id) && currentFilename == history[0].filename
      ensures isLoading == old(isLoading) && activeTab == old(activeTab)
      ensures MockValid()
    {
      var mockHistory := GenerateMockHistory(historyDraw);
      MockHistoryShape(historyDraw, 0);
      forall i | 0 <= i < |mockHistory|
        ensures mockHistory[i].recordCount == mockHistory[i].summary.totalCount
      {
        MockHistoryShape(historyDraw, i);
      }
      history := mockHistory;
      if |mockHistory| > 0 {
        var first := mockHistory[0];
        var initialRecords := GenerateMockRecords(first.recordCount, recordDraw);
        MockRecordsShape(first.recordCount, recordDraw, 0);
        data := initialRecords;
        summary := Some(first.summary);
        selectedDatasetId := Some(first.id);
        currentFilename := first.filename;
        assert HistoryIds(history)[0] == first.id;
      }
    }

    /**
     * The initial load in connected mode: the fetched history is shown; when
     * it is not empty and both fetches for its first entry succeed, that
     * entry's summary and records are shown and it is selected. A failed
     * history fetch changes nothing.
     */
    method InitialLoadConnected(
      fetchedHistory: Result<seq<UploadHistory>>,
      fetchedSummary: Result<Option<DataSummary>>,
      fetchedRecords: Result<seq<EquipmentRecord>>)
      requires !mockMode
      modifies this
      ensures fetchedHistory.Failure? ==> history == old(history)
      ensures fetchedHistory.Success? ==> history == fetchedHistory.value
      ensures var loaded := fetchedHistory.Success? && |fetchedHistory.value| > 0
                            && fetchedSummary.Success? && fetchedRecords.Success?;
        && (loaded ==>
              && data == fetchedRecords.value && summary == fetchedSummary.value
              && selectedDatasetId == Some(fetchedHistory.value[0].id)
              && currentFilename == fetchedHistory.value[0].filename)
        && (!loaded ==>
              && data == old(data) && summary == old(summary)
              && selectedDatasetId == old(selectedDatasetId) && currentFilename == old(currentFilename))
      ensures isLoading == old(isLoading) && activeTab == old(activeTab)
    {
      if fetchedHistory.Success? {
        history := fetchedHistory.value;
        if |fetchedHistory.value| > 0 && fetchedSummary.Success? && fetchedRecords.Success? {
          var latest := fetchedHistory.value[0];
          data := fetchedRecords.value;
          summary := fetchedSummary.value;
          selectedDatasetId := Some(latest.id);
          currentFilename := latest.filename;
        }
      }
    }

    /**
     * A parsed upload in demo mode. On success: the records are shown with
     * their summary, a new history entry for them goes in front of at most
     * four earlier ones and is selected, and the charts tab opens. A parse
     * error changes nothing but the loading flag.
     */
    method HandleDataLoadedMock(filename: string, parsed: Result<seq<EquipmentRecord>>, newId: string, uploadedAt: string)
      requires mockMode
      modifies this
      ensures !isLoading
      ensures parsed.Failure? ==>
        && data == old(data) && summary == old(summary) && history == old(history)
        && selectedDatasetId == old(selectedDatasetId) && currentFilename == old(currentFilename)
        && activeTab == old(activeTab)
      ensures parsed.Success? ==>
        var entry := UploadHistory(newId, filename, uploadedAt, |parsed.value|, Summarize(parsed.value));
        && data == parsed.value && summary == Some(Summarize(parsed.value))
        && currentFilename == filename
        && history == PrependHistory(entry, old(history))
        && selectedDatasetId == Some(newId) && activeTab == "charts"
      ensures old(MockValid()) ==> MockValid()
    {
      isLoading := true;
      match parsed {
        case Failure(_) =>
          isLoading := false;
        case Success(records) =>
          data := records;
          var newSummary := CalculateSummary(records);
          summary := Some(newSummary);
          currentFilename := filename;
          var entry := UploadHistory(newId, filename, uploadedAt, |records|, newSummary);
          ghost var prev := history;
          history := [entry] + history[..Min(4, |history|)];
          assert HistoryIds(history)[0] == newId;
          assert forall i :: 1 <= i < |history| ==> history[i] == prev[i - 1];
          selectedDatasetId := Some(entry.id);
          isLoading := false;
          activeTab := "charts";
      }
    }

    /**
     * An upload in connected mode. If the upload or the records fetch fails,
     * nothing but the loading flag changes. Otherwise the records, the
     * returned summary and the file name are shown; then, if the history
     * fetch succeeds, the history is replaced, the new dataset selected and
     * the charts tab opened; if it fails, those three stay as they were.
     */
    method HandleDataLoadedConnected(
      filename: string,
      uploaded: Result<(string, Option<DataSummary>)>,
      fetchedRecords: Result<seq<EquipmentRecord>>,
      fetchedHistory: Result<seq<UploadHistory>>)
      requires !mockMode
      modifies this
      ensures !isLoading
      ensures uploaded.Failure? || fetchedRecords.Failure? ==>
        && data == old(data) && summary == old(summary) && history == old(history)
        && selectedDatasetId == old(selectedDatasetId) && currentFilename == old(currentFilename)
        && activeTab == old(activeTab)
      ensures uploaded.Success? && fetchedRecords.Success? ==>
        && data == fetchedRecords.value && summary == uploaded.value.1 && currentFilename == filename
        && (fetchedHistory.Success? ==>
              history == fetchedHistory.value && selectedDatasetId == Some(uploaded.value.0)
              && activeTab == "charts")
        && (fetchedHistory.Failure? ==>
              history == old(history) && selectedDatasetId == old(selectedDatasetId)
              && activeTab == old(activeTab))
    {
      isLoading := true;
      if uploaded.Success? && fetchedRecords.Success? {
        var (newDatasetId, newSummary) := uploaded.value;
        data := fetchedRecords.value;
        summary := newSummary;
        currentFilename := filename;
        if fetchedHistory.Success? {
          history := fetchedHistory.value;
          selectedDatasetId := Some(newDatasetId);
          activeTab := "charts";
        }
      }
      isLoading := false;
    }

    /**
     * A click on a history entry in demo mode. An id not in the history
     * changes nothing. Otherwise fresh records are generated to the entry's
     * record count and summarised, and the entry is selected.
     */
    method HandleSelectDatasetMock(id: string, recordDraw: nat -> RecordDraw)
      requires mockMode
      modifies this
      ensures id !in HistoryIds(old(history)) ==>
        && data == old(data) && summary == old(summary) && selectedDatasetId == old(selectedDatasetId)
        && currentFilename == old(currentFilename)
      ensures id in HistoryIds(old(history)) ==>
        var entry := old(history)[FindById(old(history), id).value];
        && data == GenerateMockRecords(entry.recordCount, recordDraw)
        && summary == Some(Summarize(data))
        && selectedDatasetId == Some(id) && currentFilename == entry.filename
      ensures history == old(history) && isLoading == old(isLoading) && activeTab == old(activeTab)
      ensures old(MockValid()) ==> MockValid()
    {
      var found := FindById(history, id);
      if found.Some? {
        var entry := history[found.value];
        var records := GenerateMockRecords(entry.recordCount, recordDraw);
        data := records;
        var s := CalculateSummary(records);
        summary := Some(s);
        selectedDatasetId := Some(id);
        currentFilename := entry.filename;
      }
    }

    /**
     * A click on a history entry in connected mode. An id not in the history
     * changes nothing. Otherwise the summary and the records are shown when
     * both fetches succeed (neither when one fails), and in either case the
     * entry is selected.
     */
    method HandleSelectDatasetConnected(
      id: string,
      fetchedSummary: Result<Option<DataSummary>>,
      fetchedRecords: Result<seq<EquipmentRecord>>)
      requires !mockMode
      modifies this
      ensures id !in HistoryIds(old(history)) ==>
        && data == old(data) && summary == old(summary) && selectedDatasetId == old(selectedDatasetId)
        && currentFilename == old(currentFilename)
      ensures id in HistoryIds(old(history)) ==>
        && (if fetchedSummary.Success? && fetchedRecords.Success?
            then data == fetchedRecords.value && summary == fetchedSummary.value
            else data == old(data) && summary == old(summary))
        && selectedDatasetId == Some(id)
        && currentFilename == old(history)[FindById(old(history), id).value].filename
      ensures history == old(history) && isLoading == old(isLoading) && activeTab == old(activeTab)
    {
      var found := FindById(history, id);
      if found.Some? {
        var entry := history[found.value];
        if fetchedSummary.Success? && fetchedRecords.Success? {
          data := fetchedRecords.value;
          summary := fetchedSummary.value;
        }
        selectedDatasetId := Some(id);
        currentFilename := entry.filename;
      }
    }
  }
}
