/**
 * The workload generator: a connection factory that starts failing once more
 * than MAX_POOL connections have been attempted, a repository that counts
 * queries, a self-rescheduling load simulator with weighted load bands, and
 * the "world" that wires them together, seeds load, runs two timers and can
 * be stopped.
 *
 * The connection pool between the repository and the factory is an external
 * library and is not modelled: each query's `acquire` is an oracle outcome
 * (true = a connection was handed out, false = acquire rejected). Randomness
 * and time are inputs: the connect latency, the band draws and `Date.now()`.
 */
module Simulation {

  import opened Wrappers
  import opened Metrics

  /** MIN_POOL and MAX_POOL, read once from the environment at startup. */
  datatype Config = Config(minPool: nat, maxPool: nat)

  /** The values used when the environment sets neither variable. */
  const DefaultConfig := Config(10, 100)

  /** Latency above which an attempt beyond MAX_POOL fails. */
  const SlowConnect: real := 500.0

  const ConnectFailure := "failed to connect"

  /** The message of the error a rejected batch throws. */
  const OperationFailed := "operation failed"

  /** `Math.ceil` */
  function Ceil(x: real): (r: int)
    ensures r as real - 1.0 < x <= r as real
  {
    -((-x).Floor)
  }

  // ---------------------------------------------------------------------------
  // Connection factory

  datatype Connection = Connection(id: int)

  datatype Result<T> = Ok(value: T) | Err(message: string)

  /**
   * The end of one `create()`: the id was taken when the counter was bumped,
   * but the failure check reads the counter again after the latency, when
   * overlapping calls may have bumped it further; `counter` is that value.
   */
  function Outcome(id: int, counter: int, duration: real, maxPool: nat): (r: Result<Connection>)
    ensures r.Err? <==> counter > maxPool && duration > SlowConnect
    ensures r.Err? ==> r.message == ConnectFailure
    ensures r.Ok? ==> r.value.id == id
  {
    if counter > maxPool && duration > SlowConnect then Err(ConnectFailure)
    else Ok(Connection(id))
  }

  /**
   * The outcome of one `create()` that no other call overlaps: the counter
   * checked is the one it set, `attempt`.
   */
  function Attempt(attempt: int, duration: real, maxPool: nat): (r: Result<Connection>)
    ensures r.Err? <==> attempt > maxPool && duration > SlowConnect
    ensures r.Err? ==> r.message == ConnectFailure
    ensures r.Ok? ==> r.value.id == attempt
  {
    Outcome(attempt, attempt, duration, maxPool)
  }

  /** Later bumps can only turn a connect into a failure, never the reverse. */
  lemma LaterCheckOnlyFails(id: int, counter: int, later: int, duration: real, maxPool: nat)
    requires counter <= later
    ensures Outcome(id, later, duration, maxPool).Ok? ==> Outcome(id, counter, duration, maxPool).Ok?
    ensures Outcome(id, counter, duration, maxPool).Err? ==> Outcome(id, later, duration, maxPool).Err?
  {
  }

  /**
   * An attempt within MAX_POOL that would connect on its own fails when a
   * later call has pushed the counter past MAX_POOL before its slow connect
   * finishes.
   */
  lemma OverlapFailsWithinPool(id: int, counter: int, duration: real, maxPool: nat)
    requires id <= maxPool < counter && duration > SlowConnect
    ensures Attempt(id, duration, maxPool) == Ok(Connection(id))
    ensures Outcome(id, counter, duration, maxPool) == Err(ConnectFailure)
  {
  }

  /** The outcomes of successive `create()` calls on a manager whose counter starts at `start`. */
  function Attempts(start: int, durations: seq<real>, maxPool: nat): (rs: seq<Result<Connection>>)
    decreases |durations|
    ensures |rs| == |durations|
    ensures forall k :: 0 <= k < |rs| ==> rs[k] == Attempt(start + k + 1, durations[k], maxPool)
  {
    if durations == [] then []
    else [Attempt(start + 1, durations[0], maxPool)] + Attempts(start + 1, durations[1..], maxPool)
  }

  /**
   * Starting from a counter at `start`, the k-th further attempt sees counter
   * `start + k + 1`; so as long as the counter stays within MAX_POOL every
   * attempt connects, whatever its latency, and connection ids count up.
   */
  lemma {:induction false} EarlyAttemptsConnect(start: int, durations: seq<real>, maxPool: nat, k: nat)
    requires k < |durations|
    requires start + |durations| <= maxPool
    ensures Attempts(start, durations, maxPool)[k] == Ok(Connection(start + k + 1))
    decreases |durations|
  {
    if k > 0 {
      EarlyAttemptsConnect(start + 1, durations[1..], maxPool, k - 1);
    }
  }

  /** In particular a fresh manager's first MAX_POOL attempts all connect, with ids 1, 2, ... */
  lemma FreshManagerConnects(durations: seq<real>, maxPool: nat)
    requires |durations| <= maxPool
    ensures forall k :: 0 <= k < |durations| ==> Attempts(0, durations, maxPool)[k] == Ok(Connection(k + 1))
  {
    forall k | 0 <= k < |durations|
      ensures Attempts(0, durations, maxPool)[k] == Ok(Connection(k + 1))
    {
      EarlyAttemptsConnect(0, durations, maxPool, k);
    }
  }

  class ConnectionManager {
    const maxPool: nat
    var totalConnections: int

    constructor (maxPool: nat)
      ensures this.maxPool == maxPool && totalConnections == 0
    {
      this.maxPool := maxPool;
      totalConnections := 0;
    }

    /** The first half of `create()`: bump the counter and take the new value as id. */
    method Begin() returns (id: int)
      modifies this
      ensures totalConnections == old(totalConnections) + 1
      ensures id == totalConnections
    {
      totalConnections := totalConnections + 1;
      id := totalConnections;
    }

    /** The second half, after the latency: check the counter as it stands now. */
    method Finish(id: int, duration: real) returns (r: Result<Connection>)
      ensures r == Outcome(id, totalConnections, duration, maxPool)
      ensures r.Err? <==> totalConnections > maxPool && duration > SlowConnect
    {
      if totalConnections > maxPool && duration > SlowConnect {
        return Err(ConnectFailure);
      }
      return Ok(Connection(id));
    }

    /**
     * `create()` with no other call in between its halves: the counter is
     * bumped before the (simulated) connect, so failed attempts are counted
     * too; `duration` is the drawn latency.
     */
    method Create(duration: real) returns (r: Result<Connection>)
      modifies this
      ensures totalConnections == old(totalConnections) + 1
      ensures r == Attempt(totalConnections, duration, maxPool)
      ensures r == Attempts(old(totalConnections), [duration], maxPool)[0]
    {
      var id := Begin();
      r := Finish(id, duration);
    }
  }

  // ---------------------------------------------------------------------------
  // Repository

  class Repository {
    var queryCount: nat

    constructor ()
      ensures queryCount == 0
    {
      queryCount := 0;
    }

    /**
     * `executeQuery()` given the pool's answer to `acquire()`: a query that
     * got a connection completes and is counted; a rejected acquire throws
     * before the counter is touched.
     */
    method ExecuteQuery(acquired: bool) returns (ok: bool)
      modifies this
      ensures ok == acquired
      ensures queryCount == old(queryCount) + (if acquired then 1 else 0)
      ensures queryCount >= old(queryCount)
    {
      if !acquired {
        return false;
      }
      queryCount := queryCount + 1;
      return true;
    }
  }

  // ---------------------------------------------------------------------------
  // Batches of parallel queries

  /** Every query of the batch got a connection. */
  predicate AllAcquired(outcomes: seq<bool>) {
    forall i :: 0 <= i < |outcomes| ==> outcomes[i]
  }

  /** `Promise.all` resolves exactly when no query of the batch failed to acquire. */
  lemma AllAcquiredIffNoFailure(outcomes: seq<bool>)
    ensures AllAcquired(outcomes) <==> false !in outcomes
  {
  }

  /** The number of queries of a batch that complete. */
  function Completed(outcomes: seq<bool>): (n: nat)
    ensures n <= |outcomes|
    ensures n == |outcomes| <==> AllAcquired(outcomes)
  {
    if outcomes == [] then 0
    else Completed(outcomes[..|outcomes| - 1]) + (if outcomes[|outcomes| - 1] then 1 else 0)
  }

  /** The argument of `parallelQueries`: MAX_POOL/5, MIN_POOL/2 or 2. */
  type Amount = r: real | r >= 0.0

  /** `Math.ceil(noQueries)`: the number of queries a batch issues. */
  function BatchSize(noQueries: Amount): (k: nat)
    ensures noQueries <= k as real < noQueries + 1.0
  {
    Ceil(noQueries)
  }

  // ---------------------------------------------------------------------------
  // The load bands of doSomething

  datatype Action = Batch(amount: Amount) | Recurse

  /** Cases 5, 6 and 7: two queries, then the chain goes on. */
  function LowLoad(): (plan: seq<Action>)
    ensures |plan| == 2 && plan[0].Batch? && BatchSize(plan[0].amount) == 2 && plan[1] == Recurse
  {
    [Batch(2.0), Recurse]
  }

  /**
   * What one call does for the draw `draw`. Cases 3 and 4 have no `break`,
   * so after their own batch and recursive call they fall into the body of
   * cases 5..7.
   */
  function Plan(cfg: Config, draw: int): (plan: seq<Action>)
    ensures plan == [] <==> !(1 <= draw <= 7)
    ensures |plan| == 4 <==> draw == 3 || draw == 4
    ensures |plan| % 2 == 0
    ensures forall i :: 0 <= i < |plan| ==> (plan[i].Batch? <==> i % 2 == 0)
  {
    if draw == 1 || draw == 2 then [Batch(cfg.maxPool as real / 5.0), Recurse]
    else if draw == 3 || draw == 4 then [Batch(cfg.minPool as real / 2.0), Recurse] + LowLoad()
    else if 5 <= draw <= 7 then LowLoad()
    else []
  }

  /** The plan of each band of draws 1..10. */
  lemma PlanBands(cfg: Config, draw: int)
    requires 1 <= draw <= 10
    ensures draw <= 2 ==> Plan(cfg, draw) == [Batch(cfg.maxPool as real / 5.0), Recurse]
    ensures 3 <= draw <= 4 ==>
      Plan(cfg, draw) == [Batch(cfg.minPool as real / 2.0), Recurse, Batch(2.0), Recurse]
    ensures 5 <= draw <= 7 ==> Plan(cfg, draw) == [Batch(2.0), Recurse]
    ensures 8 <= draw ==> Plan(cfg, draw) == []
  {
  }

  // ---------------------------------------------------------------------------
  // Running a chain

  /**
   * Done: the call returned. Rejected: a batch failed and the rejection
   * propagated. Starved: the run needed a draw or an acquire outcome that was
   * not supplied, so the model says nothing about what comes next.
   */
  datatype Status = Done | Rejected | Starved

  /**
   * What a run did: queries issued and completed, errors counted, and band
   * draws used. Draws and acquire outcomes are used from the front, one
   * acquire per issued query, so a run that used `used` draws leaves
   * `draws[used..]` and `acquires[issued..]` for what comes next.
   */
  datatype Run = Run(status: Status, issued: nat, completed: nat, errors: nat, used: nat)

  /** `b` ran after `a` finished normally. */
  function Then(a: Run, b: Run): Run {
    Run(b.status, a.issued + b.issued, a.completed + b.completed, a.errors + b.errors, a.used + b.used)
  }

  /**
   * The bookkeeping every run keeps: it uses no more draws and acquire
   * outcomes than it is given, it completes fewer queries than it issued
   * exactly when it was rejected, and it counts one error exactly then.
   */
  ghost predicate Accounted(r: Run, draws: seq<int>, acquires: seq<bool>) {
    && r.used <= |draws| && r.issued <= |acquires|
    && r.completed <= r.issued
    && (r.completed < r.issued <==> r.status == Rejected)
    && r.errors == (if r.status == Rejected then 1 else 0)
  }

  /**
   * One `doSomething()`: nothing once the simulation is stopped; otherwise
   * one draw picks the plan. `running` stays fixed for the whole chain.
   */
  function Call(cfg: Config, running: bool, draws: seq<int>, acquires: seq<bool>): (r: Run)
    decreases |draws|, 0, 0
    ensures Accounted(r, draws, acquires)
    ensures running ==> (r.used == 0 <==> draws == [])
    ensures !running ==> r == Run(Done, 0, 0, 0, 0)
  {
    if !running then Run(Done, 0, 0, 0, 0)
    else if draws == [] then Run(Starved, 0, 0, 0, 0)
    else
      var r := Perform(cfg, running, Plan(cfg, draws[0]), draws[1..], acquires);
      r.(used := r.used + 1)
  }

  /** The remaining actions of one call; a rejection skips the rest. */
  function Perform(cfg: Config, running: bool, plan: seq<Action>, draws: seq<int>, acquires: seq<bool>): (r: Run)
    decreases |draws|, 1, |plan|
    ensures Accounted(r, draws, acquires)
  {
    if plan == [] then Run(Done, 0, 0, 0, 0)
    else match plan[0]
      case Batch(amount) =>
        var k := BatchSize(amount);
        if |acquires| < k then Run(Starved, 0, 0, 0, 0)
        else if !AllAcquired(acquires[..k]) then Run(Rejected, k, Completed(acquires[..k]), 1, 0)
        else Then(Run(Done, k, k, 0, 0), Perform(cfg, running, plan[1..], draws, acquires[k..]))
      case Recurse =>
        var inner := Call(cfg, running, draws, acquires);
        if inner.status != Done then inner
        else Then(inner, Perform(cfg, running, plan[1..], draws[inner.used..], acquires[inner.issued..]))
  }

  /** After `stop()` a call issues nothing and uses no draw. */
  lemma StoppedCallIsIdle(cfg: Config, draws: seq<int>, acquires: seq<bool>)
    ensures Call(cfg, false, draws, acquires) == Run(Done, 0, 0, 0, 0)
  {
  }

  /** A chain counts at most one error, exactly when it rejects. */
  lemma AtMostOneErrorPerChain(cfg: Config, running: bool, draws: seq<int>, acquires: seq<bool>)
    ensures Call(cfg, running, draws, acquires).errors <= 1
    ensures Call(cfg, running, draws, acquires).errors == 1 <==> Call(cfg, running, draws, acquires).status == Rejected
  {
  }

  /** Draws 8..10: the call returns at once, having used its one draw, and the chain ends. */
  lemma IdleBand(cfg: Config, draws: seq<int>, acquires: seq<bool>)
    requires draws != [] && 8 <= draws[0] <= 10
    ensures Call(cfg, true, draws, acquires) == Run(Done, 0, 0, 0, 1)
  {
    assert Plan(cfg, draws[0]) == [];
  }

  /** A rejected first batch ends the call: one error, nothing after it runs. */
  lemma RejectedBatchAborts(cfg: Config, draws: seq<int>, acquires: seq<bool>)
    requires draws != [] && 1 <= draws[0] <= 7
    requires Plan(cfg, draws[0])[0].Batch?
    requires |acquires| >= BatchSize(Plan(cfg, draws[0])[0].amount)
    requires !AllAcquired(acquires[..BatchSize(Plan(cfg, draws[0])[0].amount)])
    ensures var k := BatchSize(Plan(cfg, draws[0])[0].amount);
      Call(cfg, true, draws, acquires) == Run(Rejected, k, Completed(acquires[..k]), 1, 1)
  {
  }

  /**
   * The fallthrough made visible: with draws 3 (or 4), then two idle draws,
   * and every acquire succeeding, a call issues MIN_POOL/2 queries, recurses,
   * issues 2 more and recurses again, using all three draws.
   */
  lemma FallthroughRunsBothBands(cfg: Config, draws: seq<int>, acquires: seq<bool>)
    requires |draws| == 3 && (draws[0] == 3 || draws[0] == 4)
    requires 8 <= draws[1] <= 10 && 8 <= draws[2] <= 10
    requires |acquires| == BatchSize(cfg.minPool as real / 2.0) + 2 && AllAcquired(acquires)
    ensures Call(cfg, true, draws, acquires) == Run(Done, |acquires|, |acquires|, 0, 3)
  {
    RunningCallPlans(cfg, draws, acquires);
    FallthroughPlan(cfg, draws[0]);
    FallthroughBody(cfg, draws[1..], acquires);
  }

  /** The plan of draws 3 and 4 carried out on two idle draws, every acquire succeeding. */
  lemma FallthroughBody(cfg: Config, draws: seq<int>, acquires: seq<bool>)
    requires |draws| == 2 && 8 <= draws[0] <= 10 && 8 <= draws[1] <= 10
    requires |acquires| == BatchSize(cfg.minPool as real / 2.0) + 2 && AllAcquired(acquires)
    ensures Perform(cfg, true, [Batch(cfg.minPool as real / 2.0)] + ([Recurse] + LowLoad()), draws, acquires)
      == Run(Done, |acquires|, |acquires|, 0, 2)
  {
    var amount: Amount := cfg.minPool as real / 2.0;
    var k := BatchSize(amount);
    assert AllAcquired(acquires[..k]) && AllAcquired(acquires[k..]);
    BatchSucceeds(cfg, amount, [Recurse] + LowLoad(), draws, acquires);
    RecurseThenLowLoad(cfg, draws, acquires[k..]);
  }

  /** A running call uses one draw and carries out that draw's plan on the rest. */
  lemma RunningCallPlans(cfg: Config, draws: seq<int>, acquires: seq<bool>)
    requires draws != []
    ensures var body := Perform(cfg, true, Plan(cfg, draws[0]), draws[1..], acquires);
      Call(cfg, true, draws, acquires) == body.(used := body.used + 1)
  {
  }

  /** The plan of draws 3 and 4: their own batch, then the recursion and the low-load body. */
  lemma FallthroughPlan(cfg: Config, draw: int)
    requires draw == 3 || draw == 4
    ensures Plan(cfg, draw) == [Batch(cfg.minPool as real / 2.0)] + ([Recurse] + LowLoad())
  {
    var b := Batch(cfg.minPool as real / 2.0);
    assert Plan(cfg, draw) == [b, Recurse] + LowLoad();
    assert [b, Recurse] == [b] + [Recurse];
  }

  /** A batch whose acquires all succeed completes in full, and the call goes on. */
  lemma BatchSucceeds(cfg: Config, amount: Amount, tail: seq<Action>, draws: seq<int>, acquires: seq<bool>)
    requires |acquires| >= BatchSize(amount) && AllAcquired(acquires[..BatchSize(amount)])
    ensures var k := BatchSize(amount);
      Perform(cfg, true, [Batch(amount)] + tail, draws, acquires)
        == Then(Run(Done, k, k, 0, 0), Perform(cfg, true, tail, draws, acquires[k..]))
  {
    var plan := [Batch(amount)] + tail;
    assert plan[0] == Batch(amount) && plan[1..] == tail;
  }

  /** A recursive call that returns normally, and the call goes on where it left off. */
  lemma RecurseSucceeds(cfg: Config, tail: seq<Action>, draws: seq<int>, acquires: seq<bool>)
    requires Call(cfg, true, draws, acquires).status == Done
    ensures var inner := Call(cfg, true, draws, acquires);
      Perform(cfg, true, [Recurse] + tail, draws, acquires)
        == Then(inner, Perform(cfg, true, tail, draws[inner.used..], acquires[inner.issued..]))
  {
    var plan := [Recurse] + tail;
    assert plan[0] == Recurse && plan[1..] == tail;
  }

  /** A recursive call that draws an idle band, then the low-load actions and a last idle call. */
  lemma RecurseThenLowLoad(cfg: Config, draws: seq<int>, acquires: seq<bool>)
    requires |draws| == 2 && 8 <= draws[0] <= 10 && 8 <= draws[1] <= 10
    requires |acquires| == 2 && AllAcquired(acquires)
    ensures Perform(cfg, true, [Recurse] + LowLoad(), draws, acquires) == Run(Done, 2, 2, 0, 2)
  {
    IdleBand(cfg, draws, acquires);
    RecurseSucceeds(cfg, LowLoad(), draws, acquires);
    assert acquires[0..] == acquires;
    LowLoadThenIdle(cfg, draws[1..], acquires);
  }

  /** The low-load actions followed by a call that draws an idle band. */
  lemma LowLoadThenIdle(cfg: Config, draws: seq<int>, acquires: seq<bool>)
    requires |draws| == 1 && 8 <= draws[0] <= 10
    requires |acquires| == 2 && AllAcquired(acquires)
    ensures Perform(cfg, true, LowLoad(), draws, acquires) == Run(Done, 2, 2, 0, 1)
  {
    assert LowLoad() == [Batch(2.0)] + [Recurse];
    assert BatchSize(2.0) == 2;
    assert acquires[..2] == acquires;
    BatchSucceeds(cfg, 2.0, [Recurse], draws, acquires);
    IdleRecursionEnds(cfg, draws, acquires[2..]);
  }

  /** A last recursive call that draws an idle band. */
  lemma IdleRecursionEnds(cfg: Config, draws: seq<int>, acquires: seq<bool>)
    requires |draws| == 1 && 8 <= draws[0] <= 10
    ensures Perform(cfg, true, [Recurse], draws, acquires) == Run(Done, 0, 0, 0, 1)
  {
    IdleBand(cfg, draws, acquires);
    assert [Recurse] + [] == [Recurse];
    RecurseSucceeds(cfg, [], draws, acquires);
  }

  // ---------------------------------------------------------------------------
  // The simulation object

  /** The module-level `id` counter that hands out simulation ids. */
  class IdCounter {
    var next: int

    constructor ()
      ensures next == 1
    {
      next := 1;
    }
  }

  class Simulation {
    const id: int
    const cfg: Config
    const repository: Repository
    var running: bool
    var errorCount: nat

    /** Takes the next id from the counter and starts in the running state. */
    constructor (cfg: Config, repository: Repository, ids: IdCounter)
      modifies ids
      ensures id == old(ids.next) && ids.next == old(ids.next) + 1
      ensures this.cfg == cfg && this.repository == repository
      ensures running && errorCount == 0
    {
      id := ids.next;
      this.cfg := cfg;
      this.repository := repository;
      running := true;
      errorCount := 0;
      new;
      ids.next := ids.next + 1;
    }

    /** The only transition of `running`: to false, for good. */
    method Stop()
      modifies this
      ensures !running && errorCount == old(errorCount)
    {
      running := false;
    }

    /**
     * `parallelQueries(noQueries)`: issues ceil(noQueries) queries, the i-th
     * of which gets acquire outcome `outcomes[i]`; all of them run to the
     * end, and if any failed the batch counts one error and rejects.
     */
    method ParallelQueries(noQueries: Amount, outcomes: seq<bool>) returns (ok: bool)
      requires |outcomes| == BatchSize(noQueries)
      modifies this, repository
      ensures ok == AllAcquired(outcomes)
      ensures repository.queryCount == old(repository.queryCount) + Completed(outcomes)
      ensures errorCount == old(errorCount) + (if ok then 0 else 1)
      ensures running == old(running)
    {
      var failed := false;
      for i := 0 to |outcomes|
        invariant repository.queryCount == old(repository.queryCount) + Completed(outcomes[..i])
        invariant failed == !AllAcquired(outcomes[..i])
        invariant errorCount == old(errorCount) && running == old(running)
      {
        assert outcomes[..i + 1][..i] == outcomes[..i];
        var done := repository.ExecuteQuery(outcomes[i]);
        failed := failed || !done;
      }
      assert outcomes[..|outcomes|] == outcomes;
      if failed {
        errorCount := errorCount + 1;
        return false;
      }
      return true;
    }

    /**
     * `doSomething()`, run sequentially: `draws` are the successive band
     * draws and `acquires` the successive acquire outcomes of the queries.
     */
    method DoSomething(draws: seq<int>, acquires: seq<bool>) returns (r: Run)
      modifies this, repository
      decreases |draws|, 0, 0
      ensures r == Call(cfg, old(running), draws, acquires)
      ensures errorCount == old(errorCount) + r.errors
      ensures repository.queryCount == old(repository.queryCount) + r.completed
      ensures running == old(running)
    {
      if !running {
        return Run(Done, 0, 0, 0, 0);
      }
      if draws == [] {
        return Run(Starved, 0, 0, 0, 0);
      }
      r := PerformPlan(Plan(cfg, draws[0]), draws[1..], acquires);
      r := r.(used := r.used + 1);
    }

    /** The actions of a call of `DoSomething`, in order, stopping at a rejection. */
    method PerformPlan(plan: seq<Action>, draws: seq<int>, acquires: seq<bool>) returns (r: Run)
      requires running
      modifies this, repository
      decreases |draws|, 1, |plan|
      ensures r == Perform(cfg, true, plan, draws, acquires)
      ensures errorCount == old(errorCount) + r.errors
      ensures repository.queryCount == old(repository.queryCount) + r.completed
      ensures running
    {
      if plan == [] {
        return Run(Done, 0, 0, 0, 0);
      }
      match plan[0]
      case Batch(amount) =>
        var k := BatchSize(amount);
        if |acquires| < k {
          return Run(Starved, 0, 0, 0, 0);
        }
        var ok := ParallelQueries(amount, acquires[..k]);
        if !ok {
          return Run(Rejected, k, Completed(acquires[..k]), 1, 0);
        }
        var rest := PerformPlan(plan[1..], draws, acquires[k..]);
        r := Then(Run(Done, k, k, 0, 0), rest);
      case Recurse =>
        var inner := DoSomething(draws, acquires);
        if inner.status != Done {
          return inner;
        }
        var rest := PerformPlan(plan[1..], draws[inner.used..], acquires[inner.issued..]);
        r := Then(inner, rest);
    }
  }

  // ---------------------------------------------------------------------------
  // The world

  datatype Event = StartEvent | StopEvent | ErrorEvent(message: string) | MetricsEvent(snapshot: Snapshot)

  /** The publisher handed to `initWorld`; the model records what it is told. */
  class Publisher {
    var events: seq<Event>

    constructor ()
      ensures events == []
    {
      events := [];
    }

    method Start()
      modifies this
      ensures events == old(events) + [StartEvent]
    {
      events := events + [StartEvent];
    }

    method Stop()
      modifies this
      ensures events == old(events) + [StopEvent]
    {
      events := events + [StopEvent];
    }

    method Error(message: string)
      modifies this
      ensures events == old(events) + [ErrorEvent(message)]
    {
      events := events + [ErrorEvent(message)];
    }

    method Metrics(snapshot: Snapshot)
      modifies this
      ensures events == old(events) + [MetricsEvent(snapshot)]
    {
      events := events + [MetricsEvent(snapshot)];
    }
  }

  /** What the world reads from the pool: `size`, `using`, `available`, `waiting`. */
  datatype PoolReading = PoolReading(size: int, using: int, available: int, waiting: int)

  datatype TimerKind = Nudge | Sampler

  /** An interval timer; `active` goes false on `clearInterval`. */
  datatype Timer = Timer(kind: TimerKind, active: bool)

  /** The timers after `timers.forEach(clearInterval)`. */
  function Cleared(timers: seq<Timer>): (r: seq<Timer>)
    ensures |r| == |timers|
    ensures forall i :: 0 <= i < |r| ==> r[i] == Timer(timers[i].kind, false)
  {
    seq(|timers|, i requires 0 <= i < |timers| => Timer(timers[i].kind, false))
  }

  /** Clearing twice is the same as clearing once. */
  lemma ClearedIdempotent(timers: seq<Timer>)
    ensures Cleared(Cleared(timers)) == Cleared(timers)
  {
  }

  /** `Math.max(totalConnections - MAX_POOL, 0)` */
  function NewConnections(totalConnections: int, maxPool: nat): (n: nat)
    ensures totalConnections <= maxPool ==> n == 0
    ensures totalConnections > maxPool ==> n == totalConnections - maxPool
  {
    if totalConnections - maxPool > 0 then totalConnections - maxPool else 0
  }

  /** With MAX_POOL = 10 and 13 attempts, 3 connections were beyond the pool. */
  lemma NewConnectionsExample()
    ensures NewConnections(13, 10) == 3
  {
  }

  /**
   * The number of seed chains: `for (i = 0; i <= MAX_POOL / 5; i++)` with
   * JavaScript's real division runs for i = 0 .. floor(MAX_POOL / 5).
   */
  lemma SeedBound(maxPool: nat, i: int)
    ensures i as real <= maxPool as real / 5.0 <==> i <= maxPool / 5
  {
    var q, m := maxPool / 5, maxPool % 5;
    assert maxPool as real / 5.0 == q as real + m as real / 5.0;
    assert 0.0 <= m as real / 5.0 < 1.0;
  }

  /**
   * With the defaults the seed loop runs for i = 0 .. 20: the 21 chains of
   * `InitWorld`, whose count is floor(MAX_POOL/5) + 1.
   */
  lemma DefaultSeedRange(i: nat)
    ensures i as real <= DefaultConfig.maxPool as real / 5.0 <==> i <= 20
  {
    SeedBound(DefaultConfig.maxPool, i);
  }

  /** The state captured by `initWorld`'s closures; `Stop` is the returned `stop`. */
  class World {
    const cfg: Config
    const manager: ConnectionManager
    const repository: Repository
    const simulation: Simulation
    const publisher: Publisher
    var timers: seq<Timer>
    /** `doSomething` chains started, by the seed loop and by the idle nudge. */
    var launched: nat

    ghost predicate Valid()
      reads this, simulation, manager
    {
      && simulation.repository == repository
      && simulation.cfg == cfg
      && manager.maxPool == cfg.maxPool
      && |timers| == 2 && timers[0].kind == Nudge && timers[1].kind == Sampler
    }

    /**
     * The components wired together, before any timer exists. `Valid()`
     * holds only once `InitWorld` has started both timers, as in `initWorld`,
     * whose `stop` closure is built before the timers are.
     */
    constructor (cfg: Config, manager: ConnectionManager, repository: Repository,
                 simulation: Simulation, publisher: Publisher)
      ensures this.cfg == cfg && this.manager == manager && this.repository == repository
      ensures this.simulation == simulation && this.publisher == publisher
      ensures timers == [] && launched == 0
    {
      this.cfg := cfg;
      this.manager := manager;
      this.repository := repository;
      this.simulation := simulation;
      this.publisher := publisher;
      timers := [];
      launched := 0;
    }

    /**
     * The metrics-timer callback's table: a function of the state, so taking
     * it changes nothing.
     */
    function Sample(now: int, pool: PoolReading): (s: Snapshot)
      reads this, manager, repository, simulation
      ensures s.timestamp == now
      ensures s.poolSize == pool.size && s.poolUsed == pool.using
      ensures s.poolAvailable == pool.available && s.poolQueue == pool.waiting
      ensures s.queriesCount == repository.queryCount && s.errorsCount == simulation.errorCount
      ensures s.newConnectionsCount >= 0
      ensures s.newConnectionsCount == NewConnections(manager.totalConnections, cfg.maxPool)
    {
      Snapshot(now, pool.size, pool.using, pool.available, pool.waiting,
               repository.queryCount, simulation.errorCount,
               NewConnections(manager.totalConnections, cfg.maxPool))
    }

    /**
     * `stop(err)`: the simulation stops, the publisher hears `stop`, both
     * timers are cleared, and `err` is published only when it is given and
     * truthy (the empty string is not). Calling it again is harmless.
     */
    method Stop(err: Option<string>)
      requires Valid()
      modifies this, simulation, publisher
      ensures Valid()
      ensures !simulation.running
      ensures simulation.errorCount == old(simulation.errorCount)
      ensures timers == Cleared(old(timers)) && launched == old(launched)
      ensures publisher.events == old(publisher.events) + [StopEvent]
        + (if err.Some? && err.value != "" then [ErrorEvent(err.value)] else [])
    {
      simulation.Stop();
      publisher.Stop();
      for k := 0 to |timers|
        modifies this
        invariant |timers| == |old(timers)| && launched == old(launched)
        invariant forall i :: 0 <= i < k ==> timers[i] == Timer(old(timers)[i].kind, false)
        invariant forall i :: k <= i < |timers| ==> timers[i] == old(timers)[i]
      {
        timers := timers[k := Timer(timers[k].kind, false)];
      }
      if err.Some? && err.value != "" {
        publisher.Error(err.value);
      }
    }

    /** The idle-nudge timer's callback: a new chain when no connection is in use. */
    method NudgeTick(pool: PoolReading)
      requires Valid()
      modifies this
      ensures Valid() && timers == old(timers)
      ensures launched == old(launched) + (if timers[0].active && pool.using == 0 then 1 else 0)
    {
      if timers[0].active && pool.using == 0 {
        launched := launched + 1;
      }
    }

    /** The metrics timer's callback: publish the current table. */
    method SampleTick(now: int, pool: PoolReading)
      requires Valid()
      modifies publisher
      ensures publisher.events == old(publisher.events)
        + (if timers[1].active then [MetricsEvent(Sample(now, pool))] else [])
    {
      if timers[1].active {
        publisher.Metrics(Sample(now, pool));
      }
    }

    /**
     * One launched chain, `simulation.doSomething().catch(err =>
     * publisher.error(err.message))`, run to its end on the given draws and
     * acquire outcomes.
     */
    method RunChain(draws: seq<int>, acquires: seq<bool>) returns (r: Run)
      requires Valid()
      modifies simulation, repository, publisher
      ensures Valid()
      ensures r == Call(cfg, old(simulation.running), draws, acquires)
      ensures simulation.running == old(simulation.running)
      ensures simulation.errorCount == old(simulation.errorCount) + r.errors
      ensures repository.queryCount == old(repository.queryCount) + r.completed
      ensures publisher.events == old(publisher.events)
        + (if r.status == Rejected then [ErrorEvent(OperationFailed)] else [])
    {
      r := simulation.DoSomething(draws, acquires);
      if r.status == Rejected {
        publisher.Error(OperationFailed);
      }
    }
  }

  /**
   * `initWorld(publisher)`: builds the factory, repository and simulation,
   * tells the publisher it started, launches floor(MAX_POOL/5) + 1 chains and
   * starts the two timers.
   */
  method InitWorld(cfg: Config, ids: IdCounter, publisher: Publisher) returns (w: World)
    modifies ids, publisher
    ensures w.Valid() && w.publisher == publisher && w.cfg == cfg
    ensures fresh(w) && fresh(w.manager) && fresh(w.repository) && fresh(w.simulation)
    ensures w.simulation.id == old(ids.next) && ids.next == old(ids.next) + 1
    ensures w.simulation.running && w.simulation.errorCount == 0
    ensures w.repository.queryCount == 0 && w.manager.totalConnections == 0
    ensures publisher.events == old(publisher.events) + [StartEvent]
    ensures w.launched == cfg.maxPool / 5 + 1
    ensures w.timers == [Timer(Nudge, true), Timer(Sampler, true)]
  {
    var manager := new ConnectionManager(cfg.maxPool);
    var repository := new Repository();
    var simulation := new Simulation(cfg, repository, ids);
    publisher.Start();
    w := new World(cfg, manager, repository, simulation, publisher);
    var i := 0;
    while i as real <= cfg.maxPool as real / 5.0
      invariant 0 <= i <= cfg.maxPool / 5 + 1
      modifies w
      invariant w.launched == i && w.timers == []
      decreases cfg.maxPool / 5 + 1 - i
    {
      SeedBound(cfg.maxPool, i);
      w.launched := w.launched + 1;
      i := i + 1;
    }
    SeedBound(cfg.maxPool, i);
    w.timers := w.timers + [Timer(Nudge, true)];
    w.timers := w.timers + [Timer(Sampler, true)];
  }
}
