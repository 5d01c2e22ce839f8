/**
 * The web client's backend access: the mode switch and base URL taken from
 * the `VITE_API_URL` build variable, the endpoint URLs, and what each call
 * makes of the response status. A response is abstract: its `ok` flag, its
 * status text and its already-decoded body.
 */
module Api {
  import opened Common
  import opened Equipment

  const DefaultBaseUrl: string := "http://localhost:8000/api"

  /** `VITE_API_URL` is unset or empty: the page runs on generated data. */
  predicate UseMockMode(apiUrl: Option<string>) {
    apiUrl.None? || apiUrl.value == ""
  }

  /** `VITE_API_URL || 'http://localhost:8000/api'`. */
  function BaseUrl(apiUrl: Option<string>): (base: string)
    ensures UseMockMode(apiUrl) ==> base == DefaultBaseUrl
    ensures !UseMockMode(apiUrl) ==> base == apiUrl.value
  {
    if apiUrl.Some? && apiUrl.value != "" then apiUrl.value else DefaultBaseUrl
  }

  const UploadPath: string := "/datasets/"
  const LatestPath: string := "/datasets/latest/"
  const HistoryPath: string := "/datasets/history/"
  const DatasetsPath: string := "/datasets/"

  function UploadUrl(base: string): string { base + UploadPath }

  function HistoryUrl(base: string): string { base + HistoryPath }

  /** `fetchDataSummary(id)`: the dataset's own URL for a non-empty id, otherwise the latest dataset's. */
  function SummaryUrl(base: string, datasetId: Option<string>): string {
    if datasetId.Some? && datasetId.value != "" then base + DatasetsPath + datasetId.value + "/"
    else base + LatestPath
  }

  /** `fetchDatasetRecords(id)`. */
  function RecordsUrl(base: string, datasetId: string): string {
    base + DatasetsPath + datasetId + "/records/"
  }

  /**
   * A summary URL for an id carries that id between the datasets prefix and
   * the closing "/", so different ids give different URLs; an absent or empty
   * id gives the latest-dataset URL.
   */
  lemma SummaryUrlSpec(base: string, datasetId: Option<string>)
    ensures datasetId.None? || datasetId.value == "" ==> SummaryUrl(base, datasetId) == base + "/datasets/latest/"
    ensures datasetId.Some? && datasetId.value != "" ==>
      var url := SummaryUrl(base, datasetId);
      && |url| == |base| + 11 + |datasetId.value|
      && url[..|base| + 10] == base + "/datasets/"
      && url[|base| + 10..|url| - 1] == datasetId.value
      && url[|url| - 1] == '/'
  {
  }

  /** The id "latest" addresses the same URL as no id at all. */
  lemma LatestIdAlias(base: string)
    ensures SummaryUrl(base, Some("latest")) == SummaryUrl(base, None)
  {
  }

  /** The records URL carries its id between the datasets prefix and "/records/". */
  lemma RecordsUrlSpec(base: string, datasetId: string)
    ensures var url := RecordsUrl(base, datasetId);
      && |url| == |base| + 19 + |datasetId|
      && url[..|base| + 10] == base + "/datasets/"
      && url[|base| + 10..|base| + 10 + |datasetId|] == datasetId
      && url[|base| + 10 + |datasetId|..] == "/records/"
  {
  }

  /** Different ids give different records URLs. */
  lemma RecordsUrlInjective(base: string, a: string, b: string)
    requires RecordsUrl(base, a) == RecordsUrl(base, b)
    ensures a == b
  {
    RecordsUrlSpec(base, a);
    RecordsUrlSpec(base, b);
  }

  /** A response: whether the status is 2xx, its status text and its decoded body. */
  datatype Response<T> = Response(ok: bool, statusText: string, body: T)

  /** The decoded body of the upload response. */
  datatype UploadBody = UploadBody(id: string, summary: Option<DataSummary>)

  /** The decoded body of a dataset or latest-dataset response; an error body has no summary. */
  datatype DatasetBody = DatasetBody(summary: Option<DataSummary>)

  /** The status check of the checked calls: a non-ok response raises with the given prefix. */
  function Checked<T>(prefix: string, r: Response<T>): (res: Result<T>)
    ensures res.Failure? <==> !r.ok
    ensures res.Failure? ==> res.message == prefix + r.statusText
    ensures res.Success? ==> res.value == r.body
  {
    if !r.ok then Failure(prefix + r.statusText) else Success(r.body)
  }

  function UploadCsv(r: Response<UploadBody>): Result<UploadBody> {
    Checked("Upload failed: ", r)
  }

  function FetchUploadHistory(r: Response<seq<UploadHistory>>): Result<seq<UploadHistory>> {
    Checked("Failed to fetch history: ", r)
  }

  function FetchDatasetRecords(r: Response<seq<EquipmentRecord>>): Result<seq<EquipmentRecord>> {
    Checked("Failed to fetch records: ", r)
  }

  /** `fetchDataSummary`: no status check, the body's `summary` field whatever the status. */
  function FetchDataSummary(r: Response<DatasetBody>): Option<DataSummary> {
    r.body.summary
  }

  /**
   * The upload, history and records calls fail exactly on a non-ok response
   * and otherwise return the body; the summary call returns the same for an
   * ok and a non-ok response with the same body.
   */
  lemma StatusDecisions(
    up: Response<UploadBody>, hist: Response<seq<UploadHistory>>,
    recs: Response<seq<EquipmentRecord>>, summ: Response<DatasetBody>)
    ensures UploadCsv(up).Failure? <==> !up.ok
    ensures up.ok ==> UploadCsv(up) == Success(up.body)
    ensures FetchUploadHistory(hist).Failure? <==> !hist.ok
    ensures hist.ok ==> FetchUploadHistory(hist) == Success(hist.body)
    ensures FetchDatasetRecords(recs).Failure? <==> !recs.ok
    ensures recs.ok ==> FetchDatasetRecords(recs) == Success(recs.body)
    ensures FetchDataSummary(summ) == FetchDataSummary(summ.(ok := !summ.ok)) == summ.body.summary
  {
  }
}
