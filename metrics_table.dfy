/**
 * The metrics table: the latest sample shown as eight labelled rows, with
 * "-" standing in for every count that is missing.
 */
module MetricsTable {

  import opened Wrappers
  import opened Metrics

  /** A sample as the table receives it: absent fields are `null`/`undefined`. */
  datatype Reading = Reading(
    timestamp: Option<int>,
    poolSize: Option<int>,
    poolUsed: Option<int>,
    poolAvailable: Option<int>,
    poolQueue: Option<int>,
    queriesCount: Option<int>,
    errorsCount: Option<int>,
    newConnectionsCount: Option<int>)

  /** A complete snapshot as a reading. */
  function ReadingOf(s: Snapshot): Reading {
    Reading(Some(s.timestamp), Some(s.poolSize), Some(s.poolUsed), Some(s.poolAvailable),
            Some(s.poolQueue), Some(s.queriesCount), Some(s.errorsCount),
            Some(s.newConnectionsCount))
  }

  /** What a cell shows: a number or a string. */
  datatype Shown = Count(n: int) | Text(s: string)

  const Dash := Text("-")

  /** `Display<IMetrics>` */
  datatype Display = Display(
    timestamp: Shown,
    poolSize: Shown,
    poolUsed: Shown,
    poolAvailable: Shown,
    poolQueue: Shown,
    queriesCount: Shown,
    errorsCount: Shown,
    newConnectionsCount: Shown)

  /** `metrics?.field`: absent when the record is. */
  function Get(metrics: Option<Reading>, field: Reading -> Option<int>): (v: Option<int>)
    ensures metrics.None? ==> v.None?
    ensures metrics.Some? ==> v == field(metrics.value)
  {
    match metrics
    case None => None
    case Some(m) => field(m)
  }

  /** `value ?? "-"` */
  function OrDash(v: Option<int>): (r: Shown)
    ensures v.Some? <==> r.Count?
    ensures v.Some? ==> r == Count(v.value)
    ensures v.None? ==> r == Dash
  {
    match v
    case Some(n) => Count(n)
    case None => Dash
  }

  /**
   * `displayMetrics(metrics)`. The timestamp goes through the formatting
   * library, given here as `format`: it receives `metrics?.timestamp` and
   * has no "-" fallback. Each count falls back to "-" on its own.
   */
  function DisplayMetrics(metrics: Option<Reading>, format: Option<int> -> string): (d: Display)
    ensures d.timestamp == Text(format(if metrics.Some? then metrics.value.timestamp else None))
    ensures metrics.None? ==>
      && d.poolSize == Dash && d.poolUsed == Dash && d.poolAvailable == Dash && d.poolQueue == Dash
      && d.queriesCount == Dash && d.errorsCount == Dash && d.newConnectionsCount == Dash
    ensures metrics.Some? ==>
      && (metrics.value.poolSize.Some? ==> d.poolSize == Count(metrics.value.poolSize.value))
      && (metrics.value.poolSize.None? ==> d.poolSize == Dash)
      && (metrics.value.poolUsed.Some? ==> d.poolUsed == Count(metrics.value.poolUsed.value))
      && (metrics.value.poolUsed.None? ==> d.poolUsed == Dash)
      && (metrics.value.poolAvailable.Some? ==> d.poolAvailable == Count(metrics.value.poolAvailable.value))
      && (metrics.value.poolAvailable.None? ==> d.poolAvailable == Dash)
      && (metrics.value.poolQueue.Some? ==> d.poolQueue == Count(metrics.value.poolQueue.value))
      && (metrics.value.poolQueue.None? ==> d.poolQueue == Dash)
      && (metrics.value.queriesCount.Some? ==> d.queriesCount == Count(metrics.value.queriesCount.value))
      && (metrics.value.queriesCount.None? ==> d.queriesCount == Dash)
      && (metrics.value.errorsCount.Some? ==> d.errorsCount == Count(metrics.value.errorsCount.value))
      && (metrics.value.errorsCount.None? ==> d.errorsCount == Dash)
      && (metrics.value.newConnectionsCount.Some? ==>
            d.newConnectionsCount == Count(metrics.value.newConnectionsCount.value))
      && (metrics.value.newConnectionsCount.None? ==> d.newConnectionsCount == Dash)
  {
    Display(
      Text(format(Get(metrics, (m: Reading) => m.timestamp))),
      OrDash(Get(metrics, (m: Reading) => m.poolSize)),
      OrDash(Get(metrics, (m: Reading) => m.poolUsed)),
      OrDash(Get(metrics, (m: Reading) => m.poolAvailable)),
      OrDash(Get(metrics, (m: Reading) => m.poolQueue)),
      OrDash(Get(metrics, (m: Reading) => m.queriesCount)),
      OrDash(Get(metrics, (m: Reading) => m.errorsCount)),
      OrDash(Get(metrics, (m: Reading) => m.newConnectionsCount)))
  }

  /** A complete snapshot shows every count as it is, and never a "-". */
  lemma SnapshotShownAsIs(s: Snapshot, format: Option<int> -> string)
    ensures var d := DisplayMetrics(Some(ReadingOf(s)), format);
      && d.timestamp == Text(format(Some(s.timestamp)))
      && d.poolSize == Count(s.poolSize) && d.poolUsed == Count(s.poolUsed)
      && d.poolAvailable == Count(s.poolAvailable) && d.poolQueue == Count(s.poolQueue)
      && d.queriesCount == Count(s.queriesCount) && d.errorsCount == Count(s.errorsCount)
      && d.newConnectionsCount == Count(s.newConnectionsCount)
  {
  }

  datatype Row = Row(name: string, value: Shown)

  /** The row labels, top to bottom; they are also the rows' React keys. */
  const Labels: seq<string> := [
    "Timestamp",
    "[Pool] Tamanho",
    "[Pool] Em uso",
    "[Pool] Disponíveis",
    "[Pool] Fila",
    "[Queries] Total",
    "[Erros] Total",
    "Novas conexões"
  ]

  /** The table's rows. */
  function Rows(d: Display): (rows: seq<Row>)
    ensures |rows| == 8
    ensures forall i :: 0 <= i < 8 ==> rows[i].name == Labels[i]
    ensures forall i, j :: 0 <= i < j < 8 ==> rows[i].name != rows[j].name
    ensures rows[0] == Row("Timestamp", d.timestamp)
    ensures rows[1].value == d.poolSize && rows[2].value == d.poolUsed
    ensures rows[3].value == d.poolAvailable && rows[4].value == d.poolQueue
    ensures rows[5].value == d.queriesCount && rows[6].value == d.errorsCount
    ensures rows[7] == Row("Novas conexões", d.newConnectionsCount)
  {
    [ Row(Labels[0], d.timestamp),
      Row(Labels[1], d.poolSize),
      Row(Labels[2], d.poolUsed),
      Row(Labels[3], d.poolAvailable),
      Row(Labels[4], d.poolQueue),
      Row(Labels[5], d.queriesCount),
      Row(Labels[6], d.errorsCount),
      Row(Labels[7], d.newConnectionsCount) ]
  }
}
