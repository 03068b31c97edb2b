/**
  The worker process (internal/worker/runner.go) as a state machine: one scheduler, a bounded queue,
  the workers, the goroutine that waits for all of them, and `Run` itself. Its steps interleave in
  any order with each other, with cancellation, with the API and with the worker processes of other
  hosts, which share the database.
 */
module Runner {
  import opened Common
  import opened Health
  import opened Tables
  import opened Runs
  import opened Reports

  datatype Config = Config(workerCount: nat, batchSize: nat, queueSize: nat)

  /** What `LoadConfigFromEnv` guarantees. */
  predicate ValidConfig(c: Config) {
    c.workerCount >= 1 && c.batchSize >= 1 && c.queueSize >= c.workerCount
  }

  datatype SchedulerPhase =
    | Claiming(late: bool)          // a claim is under way; `late` if it began after cancellation
    | Pushing(batch: seq<Id>)       // the rest of the claimed batch
    | Waiting                       // for the next tick or cancellation
    | Reporting                     // a failed claim is about to be reported on `errCh`
    | Closing                       // about to close the queue
    | SchedulerDone

  datatype WorkerPhase =
    | Idle
    | Checking(job: Id)
    | Applying(job: Id, check: CheckResult)
    | Alerting(event: Event)        // loading the user's channels
    | Notifying(event: Event)
    | WorkerDone

  datatype MainPhase = Selecting | Joining | Returned(failed: bool)

  datatype Proc = Proc(
    scheduler: SchedulerPhase,
    queue: seq<Id>,
    closed: bool,
    workers: seq<WorkerPhase>,
    cancelled: bool,
    errCh: bool,
    done: bool,
    main: MainPhase)

  /**
    What has happened: jobs returned by claims, in order; jobs taken from the queue, in order; the
    rest of a batch dropped at cancellation; jobs whose apply call has returned; events worth reporting
    that apply calls have returned; those handed to the notifier, and those for which there was no
    channel to be found; and committed checks, by any process.
   */
  datatype History = History(
    claimed: seq<Id>,
    dequeued: seq<Id>,
    dropped: seq<Id>,
    completed: seq<Id>,
    returned: seq<Event>,
    notified: seq<Event>,
    muted: seq<Event>,
    applied: seq<Id>)

  /** `foreign` are the jobs that other processes have claimed and not yet dealt with. */
  datatype State = State(world: World, foreign: multiset<Id>, proc: Proc, history: History)

  datatype SchedulerAction =
    | ClaimOk(now: Time, skipped: set<Id>, ids: seq<Id>)
    | ClaimFail(canceled: bool)                                           // nothing was committed
    | ClaimLost(now: Time, skipped: set<Id>, ids: seq<Id>, canceled: bool)   // it was, but the call failed
    | Push
    | BatchDone
    | DropBatch
    | Tick
    | StopScheduler
    | ReportError
    | CloseQueue

  datatype WorkerAction =
    | Dequeue
    | StopWorker
    | Check(result: CheckResult)
    | ApplyOk(uuid: Id)
    | ApplyFail
    | ApplyLost(uuid: Id)      // committed, but the call failed
    | ListChannels(some: bool)
    | NotifyReturns

  datatype RunAction = CloseDone | ReturnError | ReturnDone | SeeCancel | Join

  /** Cancellation, other worker processes, and the API. */
  datatype EnvironmentAction =
    | Cancel
    | ForeignClaim(now: Time, limit: nat, skipped: set<Id>, ids: seq<Id>)
    | ForeignApply(monitor: Id, check: CheckResult, uuid: Id)
    | ForeignDrop(monitor: Id)
    | Api(op: Op)

  datatype Action =
    | Scheduler(s: SchedulerAction)
    | Worker(i: nat, w: WorkerAction)
    | Run(r: RunAction)
    | Environment(e: EnvironmentAction)

  ghost function InitProc(c: Config): Proc {
    Proc(Claiming(false), [], false, seq(c.workerCount, _ => Idle), false, false, false, Selecting)
  }

  ghost function Init(c: Config): State {
    State(START, multiset{}, InitProc(c), History([], [], [], [], [], [], [], []))
  }

  // ---------------------------------------------------------------------------------------------
  // Steps
  // ---------------------------------------------------------------------------------------------

  ghost predicate AllDone(p: Proc) {
    p.scheduler == SchedulerDone && forall i :: 0 <= i < |p.workers| ==> p.workers[i] == WorkerDone
  }

  /** A claim that begins after cancellation fails with the context's error. */
  predicate ClaimFails(p: Proc, canceled: bool) {
    p.scheduler.Claiming? && (canceled ==> p.cancelled) && (p.scheduler.late ==> canceled)
  }

  ghost predicate SchedulerEnabled(c: Config, db: Db, p: Proc, s: SchedulerAction) {
    match s
    case ClaimOk(now, skipped, ids) =>
      p.scheduler == Claiming(false) && IsClaimSelection(db, now, c.batchSize, skipped, ids)
    case ClaimFail(canceled) => ClaimFails(p, canceled)
    case ClaimLost(now, skipped, ids, canceled) =>
      ClaimFails(p, canceled) && !p.scheduler.late && IsClaimSelection(db, now, c.batchSize, skipped, ids)
    case Push => p.scheduler.Pushing? && p.scheduler.batch != [] && |p.queue| < c.queueSize
    case BatchDone => p.scheduler == Pushing([])
    case DropBatch => p.scheduler.Pushing? && p.scheduler.batch != [] && p.cancelled
    case Tick => p.scheduler == Waiting
    case StopScheduler => p.scheduler == Waiting && p.cancelled
    case ReportError => p.scheduler == Reporting
    case CloseQueue => p.scheduler == Closing
  }

  predicate CommitsCheck(db: Db, phase: WorkerPhase, uuid: Id) {
    phase.Applying? && uuid !in db.issued && ApplyCheck(db, phase.job, phase.check, uuid).1.Ok?
  }

  predicate WorkerEnabled(db: Db, p: Proc, phase: WorkerPhase, w: WorkerAction) {
    match w
    case Dequeue => phase == Idle && p.queue != []
    case StopWorker => phase == Idle && (p.cancelled || (p.closed && p.queue == []))
    case Check(_) => phase.Checking?
    case ApplyOk(uuid) => CommitsCheck(db, phase, uuid)
    case ApplyFail => phase.Applying?
    case ApplyLost(uuid) => CommitsCheck(db, phase, uuid)
    case ListChannels(_) => phase.Alerting?
    case NotifyReturns => phase.Notifying?
  }

  ghost predicate RunEnabled(p: Proc, r: RunAction) {
    match r
    case CloseDone => AllDone(p) && !p.done
    case ReturnError => p.main == Selecting && p.errCh
    case ReturnDone => p.main == Selecting && p.done
    case SeeCancel => p.main == Selecting && p.cancelled
    case Join => p.main == Joining && p.done
  }

  ghost predicate EnvironmentEnabled(db: Db, foreign: multiset<Id>, e: EnvironmentAction) {
    match e
    case Cancel => true
    case ForeignClaim(now, limit, skipped, ids) => IsClaimSelection(db, now, limit, skipped, ids)
    case ForeignApply(m, _, uuid) => m in foreign && uuid !in db.issued
    case ForeignDrop(m) => m in foreign
    case Api(op) => Allowed(db, op) && !op.ClaimOp? && !op.ApplyOp?
  }

  /** When a step can be taken. A `select` with several ready cases may take any of them. */
  ghost predicate Enabled(c: Config, s: State, a: Action) {
    match a
    case Scheduler(x) => SchedulerEnabled(c, s.world.db, s.proc, x)
    case Worker(i, w) => i < |s.proc.workers| && WorkerEnabled(s.world.db, s.proc, s.proc.workers[i], w)
    case Run(r) => RunEnabled(s.proc, r)
    case Environment(e) => EnvironmentEnabled(s.world.db, s.foreign, e)
  }

  /** The database operation a step commits, if any. */
  ghost function Committed(c: Config, s: State, a: Action): Option<Op>
    requires Enabled(c, s, a)
  {
    match a
    case Scheduler(ClaimOk(now, skipped, ids)) => Some(ClaimOp(now, c.batchSize, skipped, ids))
    case Scheduler(ClaimLost(now, skipped, ids, _)) => Some(ClaimOp(now, c.batchSize, skipped, ids))
    case Worker(i, ApplyOk(uuid)) => Some(ApplyOp(s.proc.workers[i].job, s.proc.workers[i].check, uuid))
    case Worker(i, ApplyLost(uuid)) => Some(ApplyOp(s.proc.workers[i].job, s.proc.workers[i].check, uuid))
    case Environment(ForeignClaim(now, limit, skipped, ids)) => Some(ClaimOp(now, limit, skipped, ids))
    case Environment(ForeignApply(m, check, uuid)) => Some(ApplyOp(m, check, uuid))
    case Environment(Api(op)) => Some(op)
    case _ => None
  }

  function AfterClaimError(canceled: bool): SchedulerPhase {
    if canceled then Closing else Reporting
  }

  ghost function DoScheduler(c: Config, db: Db, p: Proc, s: SchedulerAction): Proc
    requires SchedulerEnabled(c, db, p, s)
  {
    match s
    case ClaimOk(_, _, ids) => p.(scheduler := Pushing(ids))
    case ClaimFail(canceled) => p.(scheduler := AfterClaimError(canceled))
    case ClaimLost(_, _, _, canceled) => p.(scheduler := AfterClaimError(canceled))
    case Push => p.(scheduler := Pushing(p.scheduler.batch[1..]), queue := p.queue + [p.scheduler.batch[0]])
    case BatchDone => p.(scheduler := Waiting)
    case DropBatch => p.(scheduler := Waiting)
    case Tick => p.(scheduler := Claiming(p.cancelled))
    case StopScheduler => p.(scheduler := Closing)
    case ReportError => p.(scheduler := Closing, errCh := true)
    case CloseQueue => p.(scheduler := SchedulerDone, closed := true)
  }

  function AfterApply(event: Event): WorkerPhase {
    if event.kind != NoEvent then Alerting(event) else Idle
  }

  function Reportable(event: Event): seq<Event> {
    if event.kind != NoEvent then [event] else []
  }

  /** What a worker does next. */
  function NextPhase(db: Db, p: Proc, phase: WorkerPhase, w: WorkerAction): WorkerPhase
    requires WorkerEnabled(db, p, phase, w)
  {
    match w
    case Dequeue => Checking(p.queue[0])
    case StopWorker => WorkerDone
    case Check(result) => Applying(phase.job, result)
    case ApplyOk(uuid) => AfterApply(ApplyCheck(db, phase.job, phase.check, uuid).1.value)
    case ApplyFail => Idle
    case ApplyLost(_) => Idle
    case ListChannels(some) => if some then Notifying(phase.event) else Idle
    case NotifyReturns => Idle
  }

  function DoWorker(db: Db, p: Proc, i: nat, w: WorkerAction): Proc
    requires i < |p.workers| && WorkerEnabled(db, p, p.workers[i], w)
  {
    p.(workers := p.workers[i := NextPhase(db, p, p.workers[i], w)],
       queue := if w.Dequeue? then p.queue[1..] else p.queue)
  }

  ghost function DoRun(p: Proc, r: RunAction): Proc {
    match r
    case CloseDone => p.(done := true)
    case ReturnError => p.(main := Returned(true))
    case ReturnDone => p.(main := Returned(false))
    case SeeCancel => p.(main := Joining)
    case Join => p.(main := Returned(false))
  }

  ghost function DoProc(c: Config, s: State, a: Action): Proc
    requires Enabled(c, s, a)
  {
    match a
    case Scheduler(x) => DoScheduler(c, s.world.db, s.proc, x)
    case Worker(i, w) => DoWorker(s.world.db, s.proc, i, w)
    case Run(r) => DoRun(s.proc, r)
    case Environment(e) => if e.Cancel? then s.proc.(cancelled := true) else s.proc
  }

  function SchedulerHistory(h: History, p: Proc, s: SchedulerAction): History {
    match s
    case ClaimOk(_, _, ids) => h.(claimed := h.claimed + ids)
    case DropBatch => if p.scheduler.Pushing? then h.(dropped := h.dropped + p.scheduler.batch) else h
    case _ => h
  }

  function WorkerHistory(db: Db, h: History, p: Proc, phase: WorkerPhase, w: WorkerAction): History
    requires WorkerEnabled(db, p, phase, w)
  {
    match w
    case Dequeue => h.(dequeued := h.dequeued + [p.queue[0]])
    case ApplyOk(uuid) =>
      h.(completed := h.completed + [phase.job],
         applied := h.applied + [phase.job],
         returned := h.returned + Reportable(ApplyCheck(db, phase.job, phase.check, uuid).1.value))
    case ApplyLost(_) => h.(completed := h.completed + [phase.job], applied := h.applied + [phase.job])
    case ApplyFail => h.(completed := h.completed + [phase.job])
    case ListChannels(some) =>
      if some then h.(notified := h.notified + [phase.event]) else h.(muted := h.muted + [phase.event])
    case _ => h
  }

  function EnvironmentHistory(db: Db, h: History, e: EnvironmentAction): History {
    if e.ForeignApply? && ApplyCheck(db, e.monitor, e.check, e.uuid).1.Ok? then h.(applied := h.applied + [e.monitor])
    else h
  }

  ghost function DoHistory(c: Config, s: State, a: Action): History
    requires Enabled(c, s, a)
  {
    match a
    case Scheduler(x) => SchedulerHistory(s.history, s.proc, x)
    case Worker(i, w) => WorkerHistory(s.world.db, s.history, s.proc, s.proc.workers[i], w)
    case Run(_) => s.history
    case Environment(e) => EnvironmentHistory(s.world.db, s.history, e)
  }

  function DoForeign(foreign: multiset<Id>, a: Action): multiset<Id> {
    match a
    case Environment(ForeignClaim(_, _, _, ids)) => foreign + multiset(ids)
    case Environment(ForeignApply(m, _, _)) => foreign - multiset{m}
    case Environment(ForeignDrop(m)) => foreign - multiset{m}
    case _ => foreign
  }

  ghost function DoWorld(c: Config, s: State, a: Action): World
    requires Enabled(c, s, a)
  {
    match Committed(c, s, a)
    case None => s.world
    case Some(op) => Next(s.world, op)
  }

  ghost function Do(c: Config, s: State, a: Action): State
    requires Enabled(c, s, a)
  {
    State(DoWorld(c, s, a), DoForeign(s.foreign, a), DoProc(c, s, a), DoHistory(c, s, a))
  }

  ghost predicate Executable(c: Config, s: State, actions: seq<Action>)
    decreases actions
  {
    actions == [] || (Enabled(c, s, actions[0]) && Executable(c, Do(c, s, actions[0]), actions[1..]))
  }

  ghost function Final(c: Config, s: State, actions: seq<Action>): State
    requires Executable(c, s, actions)
    decreases actions
  {
    if actions == [] then s else Final(c, Do(c, s, actions[0]), actions[1..])
  }
}
