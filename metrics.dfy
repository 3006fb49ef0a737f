/**
 * The metrics snapshot the simulation samples every 500 ms and the dashboard
 * consumes (the `IMetrics` interface shared by both halves of the system).
 * Every field is an integer: `timestamp` is epoch milliseconds, the rest are
 * counts.
 */
module Metrics {

  datatype Snapshot = Snapshot(
    timestamp: int,
    poolSize: int,
    poolUsed: int,
    poolAvailable: int,
    poolQueue: int,
    queriesCount: int,
    errorsCount: int,
    newConnectionsCount: int)
}
