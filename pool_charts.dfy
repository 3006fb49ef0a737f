/**
 * The pool chart: queue length, connections in use and pool size over the
 * last 160 samples.
 */
module PoolCharts {

  import opened Wrappers
  import opened Metrics
  import opened ChartWindow

  /** The component's state after its first render and its mount effect at time `now`. */
  method Mount(now: int) returns (c: Chart)
    ensures c.Valid() && fresh(c.Repr) && c.Aligned()
    ensures c.names == ["Queue", "Used", "Size"]
    ensures c.labels == c.timestamps
    ensures c.timestamps.items == Timeline(now, Window)
    ensures forall k :: 0 <= k < 3 ==> c.datasets[k].items == seq(Window, _ => Null)
  {
    c := new Chart(["Queue", "Used", "Size"]);
    c.Init(now);
    assert Nulled([], Window) == seq(Window, _ => Null);
  }

  /**
   * The update effect for a new `metrics` value; `mounted` says whether the
   * chart ref is set. Without metrics or before the chart exists nothing
   * changes; otherwise every array slides by one sample.
   */
  method OnMetrics(c: Chart, metrics: Option<Snapshot>, mounted: bool)
    requires c.Valid()
    modifies c.Repr
    ensures c.Valid() && c.labels == c.timestamps
    ensures metrics.None? || !mounted ==>
      && c.timestamps.items == old(c.timestamps.items)
      && forall k :: 0 <= k < 3 ==> c.datasets[k].items == old(c.datasets[k].items)
    ensures metrics.Some? && mounted ==>
      && c.timestamps.items == Slid(old(c.timestamps.items), Num(metrics.value.timestamp))
      && c.datasets[0].items == Slid(old(c.datasets[0].items), Num(metrics.value.poolQueue))
      && c.datasets[1].items == Slid(old(c.datasets[1].items), Num(metrics.value.poolUsed))
      && c.datasets[2].items == Slid(old(c.datasets[2].items), Num(metrics.value.poolSize))
    ensures old(c.Aligned()) ==> c.Aligned()
  {
    if metrics.None? {
      return;
    }
    if !mounted {
      return;
    }
    var m := metrics.value;
    c.Slide(m.timestamp, m.poolQueue, m.poolUsed, m.poolSize);
  }
}
