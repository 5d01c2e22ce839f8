/**
 * The record, summary and history shapes of the dashboard
 * (`EquipmentRecord`, `DataSummary`, `UploadHistory`).
 *
 * Every number the dashboard handles is a decimal with at most one
 * fractional digit (costs and runtimes are whole, efficiency ratings carry
 * one decimal), so a number is held exactly as a count of tenths.
 */
module Equipment {
  import opened Common

  /** A number `t / 10`, held as the integer `t`. */
  type Tenths = int

  /** One value of a record: a string or a number (`string | number`). */
  datatype Value = Str(s: string) | Num(tenths: Tenths)

  /**
   * One piece of equipment. The typed fields carry the keys `id`,
   * `equipment_id`, `equipment_type`, `manufacturer`, `model`,
   * `installation_date`, `last_maintenance`, `status`, `location`, `cost`,
   * `efficiency_rating` and `runtime_hours`; `extra` holds the further
   * columns of a CSV file, by column name. `status` is a string: the four
   * statuses are what the type promises, not what a parsed file guarantees.
   */
  datatype EquipmentRecord = EquipmentRecord(
    id: string,
    equipmentId: string,
    equipmentType: string,
    manufacturer: string,
    model: string,
    installationDate: string,
    lastMaintenance: string,
    status: string,
    location: string,
    cost: Tenths,
    efficiencyRating: Tenths,
    runtimeHours: Tenths,
    extra: seq<(string, Value)>)

  /** The four statuses of the record type. */
  const Statuses: seq<string> := ["operational", "maintenance", "faulty", "retired"]

  /** A mean as JavaScript computes it: a number, or NaN after dividing by zero. */
  datatype Mean = Mean(tenths: Tenths) | NaN

  /**
   * The `averages` object. A summary computed in the browser has all three
   * keys; one sent by the backend has `cost` and only those other keys whose
   * columns were numeric, so each is optional (`None` is `undefined`/`null`).
   */
  datatype Averages = Averages(
    cost: Option<Mean>,
    efficiencyRating: Option<Mean>,
    runtimeHours: Option<Mean>)

  /** `DataSummary`: the record count, the averages and three category counts. */
  datatype DataSummary = DataSummary(
    totalCount: nat,
    averages: Averages,
    equipmentTypeDistribution: map<string, nat>,
    statusDistribution: map<string, nat>,
    manufacturerDistribution: map<string, nat>)

  /** `UploadHistory`: one entry of the history list. */
  datatype UploadHistory = UploadHistory(
    id: string,
    filename: string,
    uploadedAt: string,
    recordCount: int,
    summary: DataSummary)

  /** The ids of a history list, in order. */
  function HistoryIds(history: seq<UploadHistory>): seq<string> {
    seq(|history|, i requires 0 <= i < |history| => history[i].id)
  }
}
