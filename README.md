# pool-sim in Dafny

A model of pool-sim, a teaching demo that puts randomized load on a database
connection pool and streams metrics to a live dashboard. The model covers the
parts of the demo whose behaviour can be stated exactly.

- **The simulation** (`simulation.dfy`, module `Simulation`). This covers:
  - the connection factory, which counts every attempt and starts failing slow
    attempts once more than MAX_POOL connections have been attempted;
  - the repository's query counter;
  - the load simulator: its one-way `running` flag, its id taken from a
    process-wide counter, batches of parallel queries that count one error per
    failed batch, and the weighted band choice of `doSomething`, including the
    missing `break` that makes draws 3 and 4 fall into the low-load case;
  - the world built by `initWorld`: its seed loop, its two interval timers, the
    metrics snapshot, and `stop(err)`.
- **The chart window** (`chart_window.dfy`, module `ChartWindow`). Both charts
  keep a 160-slot `timestamps` array. The same array is the chart's `labels`.
  Beside it are three dataset arrays. Mounting fills the window. Every sample
  does `shift` and then `push` on all four arrays. JavaScript arrays are
  `Series` objects whose `items` the methods reassign, so `labels ==
  timestamps` is reference equality.
- **The two chart components** (`pool_charts.dfy`, `totals_charts.dfy`). Each
  one mounts a window and states which metrics fields land in which dataset.
- **The metrics table** (`metrics_table.dfy`). `displayMetrics` falls back to
  "-" field by field, and the table has a fixed list of 8 labelled rows.
- `metrics.dfy` holds the snapshot record (`IMetrics`). `wrappers.dfy` holds
  `Option`.

Inputs stand in for I/O and randomness:

- the connect latency is a `duration` parameter;
- each band draw is an element of a `draws` sequence;
- the pool's answer to each query's `acquire()` is an element of an
  `acquires` sequence;
- `Date.now()` is a `now` parameter;
- the chart ref is a `mounted` flag;
- the `moment` formatter is a `format` function parameter.

The connection pool (`sequelize-pool`) is an external library and is not part
of this model. The same goes for the publisher's socket transport. The
`Publisher` class only records the events it is given.

A chain (`doSomething` calling itself) runs on the draws it is given. Each call
that finds the simulation running uses one draw, so the length of `draws`
bounds the recursion. A run records how many draws it used; acquire outcomes
are used one per issued query, so what is left for the rest of the chain is the
remainder of each sequence. A run ends in one of three ways:

- `Done`: the call returned.
- `Rejected`: a batch failed and the failure propagated. Nothing after it runs.
- `Starved`: a draw or an acquire outcome was needed but not supplied.

Three details of the code shape the model:

- Cases 3 and 4 have no `break`. The code issues the MIN_POOL/2 batch, makes a
  full recursive call, then issues the batch of 2 and recurses again (`Plan`,
  `FallthroughRunsBothBands`).
- `stop(err)` publishes the error only when `err` is truthy, so an empty
  string is not published (`World.Stop`).
- `create()` takes its id when it bumps the counter, but checks for failure
  against the counter as it stands after the simulated latency. A call that
  overlaps later calls can therefore fail even though its own attempt was
  within MAX_POOL (`Outcome`, `OverlapFailsWithinPool`).

## Model

| member | source | states |
|---|---|---|
| `Simulation.Ceil` | simulation/src/simulation.ts:114 | `Math.ceil`: the result is the least integer not below its argument |
| `Simulation.BatchSize` | simulation/src/simulation.ts:114 | a batch for `noQueries` issues the least whole number of queries not below `noQueries` |
| `Simulation.Outcome` | simulation/src/simulation.ts:42-50 | the end of a `create()`: it fails exactly when the counter read after the latency exceeds MAX_POOL and the latency exceeds 500, with "failed to connect"; otherwise the connection carries the id taken before the latency |
| `Simulation.LaterCheckOnlyFails` | simulation/src/simulation.ts:46 | a counter raised further by overlapping calls can only turn a connect into a failure, never the reverse |
| `Simulation.OverlapFailsWithinPool` | simulation/src/simulation.ts:41-48 | an attempt within MAX_POOL that connects on its own fails with "failed to connect" when other calls push the counter past MAX_POOL during its slow connect |
| `Simulation.Attempts` | simulation/src/simulation.ts:40-51 | successive non-overlapping `create()` calls from counter `start`: one outcome per latency, the k-th being `Attempt` for counter start + k + 1 |
| `Simulation.Attempt` | simulation/src/simulation.ts:40-51 | a `create()` that no other call overlaps fails exactly when the counter it set exceeds MAX_POOL and the latency exceeds 500, with "failed to connect"; otherwise its connection id is that counter |
| `Simulation.EarlyAttemptsConnect` | simulation/src/simulation.ts:41-48 | while the counter stays within MAX_POOL every attempt connects, whatever its latency, and the k-th further attempt gets id start + k + 1 |
| `Simulation.FreshManagerConnects` | simulation/src/simulation.ts:38-50 | a fresh manager whose creates do not overlap connects its first MAX_POOL attempts, with ids 1, 2, ... |
| `Simulation.ConnectionManager.constructor` | simulation/src/simulation.ts:38 | the attempt counter starts at 0 |
| `Simulation.ConnectionManager.Begin` | simulation/src/simulation.ts:41-42 | the counter goes up by one and the call's id is the new value |
| `Simulation.ConnectionManager.Finish` | simulation/src/simulation.ts:46-50 | after the latency the call fails exactly when the counter as it stands now exceeds MAX_POOL and the latency exceeds 500; otherwise it returns its id; the outcome is `Outcome` |
| `Simulation.ConnectionManager.Create` | simulation/src/simulation.ts:40-51 | a `create()` with no other call between its halves: the counter goes up by one before the failure check, so failed attempts count too; the outcome is the one `Attempt` gives for the new counter |
| `Simulation.Repository.constructor` | simulation/src/simulation.ts:74 | the query counter starts at 0 |
| `Simulation.Repository.ExecuteQuery` | simulation/src/simulation.ts:82-90 | a query succeeds exactly when acquire did; it adds exactly one to `queryCount` then, none on a failed acquire, and the counter never decreases |
| `Simulation.Completed` | simulation/src/simulation.ts:113-121 | the number of a batch's queries that complete is at most the batch size, and equals it exactly when every acquire succeeded |
| `Simulation.AllAcquiredIffNoFailure` | simulation/src/simulation.ts:117 | `Promise.all` succeeds exactly when no query of the batch failed to acquire |
| `Simulation.Simulation.constructor` | simulation/src/simulation.ts:103-107 | the simulation takes the counter's current id, the counter moves on by one, and the simulation starts running with no errors |
| `Simulation.IdCounter.constructor` | simulation/src/simulation.ts:3 | ids start at 1 |
| `Simulation.Simulation.Stop` | simulation/src/simulation.ts:109-111 | `running` becomes false and the error count is untouched |
| `Simulation.Simulation.ParallelQueries` | simulation/src/simulation.ts:113-121 | a batch issues all ceil(n) queries, adds the completed ones to `queryCount`, and succeeds exactly when all acquires succeed; a failed batch adds exactly one to the error count, a successful one none |
| `Simulation.Plan` | simulation/src/simulation.ts:139-171 | the band `switch`: draws outside 1..7 plan nothing; exactly draws 3 and 4 plan four actions; every plan alternates a batch with a recursive call, a batch first |
| `Simulation.LowLoad` | simulation/src/simulation.ts:162-168 | cases 5-7: one batch of exactly 2 queries, then a recursive call |
| `Simulation.PlanBands` | simulation/src/simulation.ts:138-171 | draws 1-2 plan [Batch(MAX_POOL/5), Recurse]; draws 3-4 plan [Batch(MIN_POOL/2), Recurse, Batch(2), Recurse] through the fallthrough; draws 5-7 plan [Batch(2), Recurse]; draws 8-10 plan nothing |
| `Simulation.Call` | simulation/src/simulation.ts:131-172 | one `doSomething`: it uses no more draws and acquire outcomes than it is given, one acquire per issued query; it completes fewer queries than it issued exactly when it rejected, and then counts exactly one error, otherwise none; a stopped simulation does nothing; a running call uses no draw exactly when none is supplied |
| `Simulation.Perform` | simulation/src/simulation.ts:139-171 | the actions of one call, with the same bookkeeping as `Call`; a rejected batch or a failed recursive call skips the remaining actions |
| `Simulation.StoppedCallIsIdle` | simulation/src/simulation.ts:131-134 | after `stop()` a call issues no batch and uses no draw |
| `Simulation.AtMostOneErrorPerChain` | simulation/src/simulation.ts:113-171 | a chain counts at most one error, and counts it exactly when it rejects |
| `Simulation.IdleBand` | simulation/src/simulation.ts:169-170 | draws 8-10 return at once with nothing issued, and the chain does not go on |
| `Simulation.RejectedBatchAborts` | simulation/src/simulation.ts:144-168 | when the first batch of a band fails, the call rejects with exactly that batch issued and one error, and does not recurse |
| `Simulation.FallthroughRunsBothBands` | simulation/src/simulation.ts:153-168 | a draw of 3 or 4, followed by two idle draws with every acquire succeeding, issues ceil(MIN_POOL/2) + 2 queries and uses three draws |
| `Simulation.LowLoadThenIdle` | simulation/src/simulation.ts:162-168 | the low-load body followed by an idle draw issues and completes exactly 2 queries |
| `Simulation.FallthroughPlan` | simulation/src/simulation.ts:153-168 | proof step for `FallthroughRunsBothBands` (one unfolding of a definition): the plan of draws 3 and 4 is their own batch followed by the recursion and the whole low-load body |
| `Simulation.FallthroughBody` | simulation/src/simulation.ts:153-168 | that plan, on two idle draws with every acquire succeeding, issues and completes every query supplied and uses both draws |
| `Simulation.RunningCallPlans` | simulation/src/simulation.ts:131-172 | proof step for `FallthroughRunsBothBands` (one unfolding of a definition): a running call with a draw uses that draw, carries out its plan, and uses one draw more than the plan |
| `Simulation.BatchSucceeds` | simulation/src/simulation.ts:113-121 | proof step for `FallthroughRunsBothBands` (one unfolding of a definition): a batch whose acquires all succeed issues and completes ceil(n) queries, counts no error and lets the call go on with the remaining acquires |
| `Simulation.RecurseSucceeds` | simulation/src/simulation.ts:146-167 | proof step for `FallthroughRunsBothBands` (one unfolding of a definition): after a recursive call that returns normally, the call goes on with the draws and acquires the recursion left |
| `Simulation.RecurseThenLowLoad` | simulation/src/simulation.ts:155-168 | a recursion into an idle draw, then the low-load body on a second idle draw, issues and completes 2 queries and uses both draws |
| `Simulation.IdleRecursionEnds` | simulation/src/simulation.ts:167-170 | a last recursive call that draws an idle band issues nothing and uses its one draw |
| `Simulation.Simulation.DoSomething` | simulation/src/simulation.ts:131-172 | running `doSomething` on the object gives the run `Call` describes; the error count grows by its errors, `queryCount` by its completed queries, and `running` is unchanged |
| `Simulation.Simulation.PerformPlan` | simulation/src/simulation.ts:139-171 | carrying out one plan on the object matches `Perform`, with the same counter updates |
| `Simulation.Publisher.Start` | simulation/src/simulation.ts:6 | records one start event |
| `Simulation.Publisher.Stop` | simulation/src/simulation.ts:7 | records one stop event |
| `Simulation.Publisher.Metrics` | simulation/src/simulation.ts:8 | records one metrics event carrying the snapshot |
| `Simulation.Publisher.Error` | simulation/src/simulation.ts:9 | records one error event carrying the message |
| `Simulation.Cleared` | simulation/src/simulation.ts:202 | every timer is cleared and keeps its kind and position |
| `Simulation.ClearedIdempotent` | simulation/src/simulation.ts:199-207 | clearing the timers a second time changes nothing, so a second `stop` is harmless for the timers |
| `Simulation.NewConnections` | simulation/src/simulation.ts:233-236 | the count of connections beyond the pool is never negative: 0 up to MAX_POOL attempts, and attempts minus MAX_POOL above that |
| `Simulation.NewConnectionsExample` | simulation/src/simulation.ts:233-236 | with MAX_POOL 10 and 13 attempts it is 3 |
| `Simulation.SeedBound` | simulation/src/simulation.ts:210 | with real division, i <= MAX_POOL/5 holds exactly when i is at most floor(MAX_POOL/5) |
| `Simulation.DefaultSeedRange` | simulation/src/simulation.ts:25 | with the default MAX_POOL of 100 the seed loop of `initWorld` runs exactly for i = 0 .. 20, so the default world launches 21 chains |
| `Simulation.World.constructor` | simulation/src/simulation.ts:176-198 | the world holds the factory, repository, simulation and publisher, with no timers and no chains launched yet |
| `Simulation.World.Sample` | simulation/src/simulation.ts:224-237 | the snapshot copies `now`, the pool reading and the two counters, and its `newConnectionsCount` is the non-negative `NewConnections`; it is a function, so taking it changes no state |
| `Simulation.World.Stop` | simulation/src/simulation.ts:199-207 | the simulation is stopped and both timers cleared; the publisher hears stop, then the error only when one is given and non-empty; the error count and chain count are untouched |
| `Simulation.World.NudgeTick` | simulation/src/simulation.ts:215-221 | while its timer is active, one chain is launched exactly when the pool has no connection in use |
| `Simulation.World.SampleTick` | simulation/src/simulation.ts:223-240 | while its timer is active, exactly one metrics event with the current snapshot is published; only the publisher changes |
| `Simulation.World.RunChain` | simulation/src/simulation.ts:211 | a launched chain runs as `Call` describes, with its counter updates, and a rejected chain publishes "operation failed" |
| `Simulation.InitWorld` | simulation/src/simulation.ts:175-245 | the world starts with fresh components, zero counters and a running simulation with the next id; the publisher hears start; exactly floor(MAX_POOL/5) + 1 chains are launched; two active timers are started |
| `ChartWindow.Shifted` | web-ui/src/components/PoolCharts.tsx:142 | `shift()` moves each entry one place left and drops the first; an empty array stays empty |
| `ChartWindow.Stored` | web-ui/src/components/PoolCharts.tsx:119 | `a[i] = c` puts c in slot i, keeps every other slot, and leaves holes between the old end and i |
| `ChartWindow.Slid` | web-ui/src/components/PoolCharts.tsx:142-143 | after `shift` and `push` a non-empty array keeps its length, its last entry is the new value, and entry k is the old entry k+1 |
| `ChartWindow.SlideKeepsWindow` | web-ui/src/components/PoolCharts.tsx:142-143 | a 160-slot window stays at 160 slots after each update, with the newest value last |
| `ChartWindow.Timeline` | web-ui/src/components/PoolCharts.tsx:113-120 | the initial timestamps are all numbers, strictly increasing in steps of 500, and the last is now - 500 |
| `ChartWindow.Nulled` | web-ui/src/components/PoolCharts.tsx:123-127 | after the second loop every slot below len is null and longer arrays keep their other entries |
| `ChartWindow.Series.Holes` | web-ui/src/components/PoolCharts.tsx:83 | `new Array(n)` has n empty slots |
| `ChartWindow.Series.Empty` | web-ui/src/components/PoolCharts.tsx:90 | `[]` has no slots |
| `ChartWindow.Series.Shift` | web-ui/src/components/PoolCharts.tsx:142 | the array loses its first slot, which is returned |
| `ChartWindow.Series.Push` | web-ui/src/components/PoolCharts.tsx:143 | the value is appended |
| `ChartWindow.Series.Store` | web-ui/src/components/PoolCharts.tsx:119 | the array becomes `Stored` of its old value |
| `ChartWindow.Chart.constructor` | web-ui/src/components/PoolCharts.tsx:83-110 | `labels` is the `timestamps` array itself, which has 160 empty slots; the three datasets start empty and are distinct arrays |
| `ChartWindow.Chart.Init` | web-ui/src/components/PoolCharts.tsx:112-130 | the two loops set `timestamps` to the timeline ending at now - 500 and null every dataset slot below the timestamps' length; `labels` still aliases `timestamps` |
| `ChartWindow.Chart.Slide` | web-ui/src/components/PoolCharts.tsx:142-151 | each of the four arrays slides by one sample, `labels` is again `timestamps`, and aligned 160-slot arrays stay aligned |
| `PoolCharts.Mount` | web-ui/src/components/PoolCharts.tsx:81-130 | after mounting, the window is full: 160 timestamps ending at now - 500, three datasets of 160 nulls named Queue, Used and Size, and `labels` is `timestamps` |
| `PoolCharts.OnMetrics` | web-ui/src/components/PoolCharts.tsx:132-153 | if metrics are missing or the chart is not mounted, nothing changes; otherwise the timestamps slide by `timestamp` and datasets 0, 1, 2 slide by `poolQueue`, `poolUsed`, `poolSize`; lengths stay aligned and `labels` stays `timestamps` |
| `TotalsCharts.Mount` | web-ui/src/components/TotalsCharts.tsx:73-119 | after mounting, the window is full: 160 timestamps ending at now - 500, three datasets of 160 nulls named Queries, New conn. and Errors, and `labels` is `timestamps` |
| `TotalsCharts.OnMetrics` | web-ui/src/components/TotalsCharts.tsx:121-142 | if metrics are missing or the chart is not mounted, nothing changes; otherwise the timestamps slide by `timestamp` and datasets 0, 1, 2 slide by `queriesCount`, `newConnectionsCount`, `errorsCount`; lengths stay aligned and `labels` stays `timestamps` |
| `MetricsTable.Get` | web-ui/src/components/MetricsTable.tsx:7-13 | `metrics?.field` is absent when the record is, and is the field otherwise |
| `MetricsTable.OrDash` | web-ui/src/components/MetricsTable.tsx:7-13 | `?? "-"` shows the number when it is present and "-" exactly when it is absent |
| `MetricsTable.DisplayMetrics` | web-ui/src/components/MetricsTable.tsx:4-15 | with no metrics all seven counts show "-"; with metrics, each count shows its value when present and "-" when absent, field by field; the timestamp is always the formatter's output, with no "-" fallback |
| `MetricsTable.SnapshotShownAsIs` | web-ui/src/components/MetricsTable.tsx:7-13 | a complete snapshot shows every count unchanged |
| `MetricsTable.Rows` | web-ui/src/components/MetricsTable.tsx:23-31 | the table has exactly 8 rows with pairwise distinct labels (the React keys), in the fixed order from Timestamp to "Novas conexões"; row i shows the matching displayed field |

## Left out

- The connection pool (`sequelize-pool`): it is a library whose source is not part of this model. Each query's `acquire()` is an outcome given as input. `release`, idle reaping, queuing and the pool's size bounds are not modelled. `pool.size`, `using`, `available` and `waiting` are a `PoolReading` given as input.
- The `createConnection` wrapper and `Connection.destroy`/`validate` (simulation/src/simulation.ts:54-66, 178-193): only the pool calls them, and the pool is not modelled.
- Randomness and time: latencies, band draws and `Date.now()` are inputs. The `sleep` calls (the 500 ms pacing, connect latency, query latency) have no effect on the model.
- Concurrency:
  - `Simulation.ConnectionManager.Create`: the failure check at simulation/src/simulation.ts:46 reads the counter again after the sleep. `Create` runs both halves back to back and checks the value this call set, so `Attempt`, `Attempts` and `FreshManagerConnects` describe creates that do not overlap. Overlapping creates are expressible through `Begin` and `Finish`, and `Outcome` and `OverlapFailsWithinPool` state what they do. No scheduler interleaves them.
  - A batch's queries run one after another.
  - Launched chains run one at a time through `World.RunChain`.
  - A timer tick is a method the caller invokes.
  - A stop cannot happen in the middle of a chain, so in-flight queries that land after `stop` are not modelled.
- `Simulation.Call`: the chain's unbounded self-recursion is bounded by the draws supplied. When the draws or acquire outcomes run out, the run ends as `Starved`, and the model says nothing about what would follow.
- `Simulation.World.NudgeTick`: it records a launched chain as a count and does not run it. Running a chain is `World.RunChain`.
- `Simulation.World.NudgeTick`, `Simulation.World.SampleTick`: a cleared timer never fires again. The model expresses this by making a tick of an inactive timer do nothing.
- Environment parsing of MIN_POOL and MAX_POOL (simulation/src/simulation.ts:24-25): the values are a `Config` of natural numbers. `parseInt` yielding NaN or a negative number is not modelled.
- `console.log` lines, the socket server (`simulation/src/server.ts`) and the start/stop event dispatch (`simulation/src/index.ts`).
- React and chart.js plumbing: hooks, `setTimestamps`/`setPoolData` (they store the same objects again), chart registration and options, dataset colours, `chart.update()` and the JSX rendering. Which arrays are updated, and in what order, is modelled. The redraw is not.
- `moment(...).format("HH:mm:ss")`: a foreign call, passed in as the `format` parameter. It gets `metrics?.timestamp`, absent included, and has no "-" fallback.
- `web-ui/src/metrics.ts` holds only types. `IMetrics` is `Metrics.Snapshot`. For the table, where any field may be null or undefined, it is `MetricsTable.Reading`.
