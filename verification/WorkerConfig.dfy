/** Reading the worker's configuration (internal/worker/config.go). */
module WorkerConfig {
  import opened Common
  import Runner

  /** An environment variable as `strconv.Atoi` sees it. */
  datatype Env = Unset | Malformed | Value(n: int)

  /** A Go `int`. */
  predicate IsInt(n: int) {
    -MAX_INT64 - 1 <= n <= MAX_INT64
  }

  predicate Readable(e: Env) {
    e.Value? ==> IsInt(e.n)
  }

  /** A Go `time.Duration`. */
  type Nanoseconds = int

  const ONE_SECOND: Nanoseconds := 1_000_000_000

  function IntFromEnv(e: Env, fallback: int): int {
    if e.Value? && e.n >= 1 then e.n else fallback
  }

  /**
    The clamps. Whatever the environment says, the result satisfies what the runner needs. Only the
    last clamp ever acts: when the queue size is set below the number of workers, or when doubling the
    number of workers wraps around. The tick is positive, as a ticker needs it; `rawTick` is
    SCHEDULER_TICK if it is set and a duration.
   */
  method LoadConfigFromEnv(workers: Env, batch: Env, queue: Env, rawTick: Option<Nanoseconds>)
    returns (c: Runner.Config, tick: Nanoseconds)
    requires Readable(workers) && Readable(batch) && Readable(queue)
    ensures tick > 0
    ensures tick == if rawTick.Some? && rawTick.value > 0 then rawTick.value else 1_000_000_000
    ensures c.workerCount >= 1 && c.batchSize >= 1 && c.queueSize >= c.workerCount && Runner.ValidConfig(c)
    ensures c.workerCount == if workers.Value? && workers.n >= 1 then workers.n else 4
    ensures c.batchSize == if batch.Value? && batch.n >= 1 then batch.n else c.workerCount
    ensures queue.Value? && queue.n >= 1 ==> c.queueSize == if queue.n < c.workerCount then c.workerCount else queue.n
    ensures !(queue.Value? && queue.n >= 1) ==>
              c.queueSize == if 2 * c.workerCount <= MAX_INT64 then 2 * c.workerCount else c.workerCount
  {
    var workerCount := IntFromEnv(workers, 4);
    var batchSize := IntFromEnv(batch, workerCount);
    var queueSize := IntFromEnv(queue, WrapInt64(workerCount * 2));
    tick := ONE_SECOND;
    if rawTick.Some? && rawTick.value > 0 {
      tick := rawTick.value;
    }
    if workerCount < 1 {
      workerCount := 1;
    }
    if batchSize < 1 {
      batchSize := workerCount;
    }
    if queueSize < workerCount {
      queueSize := workerCount;
    }
    c := Runner.Config(workerCount, batchSize, queueSize);
  }
}
