/** Shutdown of the worker process, and what the result of `Run` says. */
module RunnerLiveness {
  import opened Common
  import opened Health
  import opened Tables
  import opened Runs
  import opened Runner
  import opened RunnerSafety

  // ---------------------------------------------------------------------------------------------
  // Shutdown terminates
  // ---------------------------------------------------------------------------------------------

  function WorkerWeight(w: WorkerPhase): nat {
    match w
    case WorkerDone => 0
    case Idle => 1
    case Notifying(_) => 2
    case Alerting(_) => 3
    case Applying(_, _) => 4
    case Checking(_) => 5
  }

  ghost function WorkersWeight(workers: seq<WorkerPhase>): nat {
    if workers == [] then 0 else WorkerWeight(workers[0]) + WorkersWeight(workers[1..])
  }

  function SchedulerWeight(c: Config, ph: SchedulerPhase): nat {
    match ph
    case SchedulerDone => 0
    case Closing => 1
    case Reporting => 2
    case Claiming(late) => if late then 3 else 6 + 6 * c.batchSize
    case Waiting => 4
    case Pushing(batch) => 5 + 6 * |batch|
  }

  function MainWeight(main: MainPhase): nat {
    match main
    case Returned(_) => 0
    case Joining => 1
    case Selecting => 2
  }

  /** A bound on the steps the process can still take once it is cancelled. */
  ghost function Measure(c: Config, p: Proc): nat {
    SchedulerWeight(c, p.scheduler) + JobsWeight(p) + (if p.done then 0 else 1) + MainWeight(p.main)
  }

  lemma {:induction false} MoveWeight(workers: seq<WorkerPhase>, i: nat, w: WorkerPhase)
    requires i < |workers|
    ensures WorkersWeight(workers[i := w]) == WorkersWeight(workers) - WorkerWeight(workers[i]) + WorkerWeight(w)
  {
    if i == 0 {
      assert workers[i := w][1..] == workers[1..];
    } else {
      MoveWeight(workers[1..], i - 1, w);
      assert workers[i := w][1..] == workers[1..][i - 1 := w];
    }
  }

  /** What is left to do for jobs that have been claimed and for the workers. */
  ghost function JobsWeight(p: Proc): nat {
    5 * |p.queue| + WorkersWeight(p.workers)
  }

  lemma WorkerStepDecreases(db: Db, p: Proc, i: nat, w: WorkerAction)
    requires i < |p.workers| && WorkerEnabled(db, p, p.workers[i], w)
    ensures JobsWeight(DoWorker(db, p, i, w)) < JobsWeight(p)
  {
    MoveWeight(p.workers, i, NextPhase(db, p, p.workers[i], w));
  }

  lemma SchedulerStepDecreases(c: Config, db: Db, p: Proc, x: SchedulerAction)
    requires p.cancelled && SchedulerEnabled(c, db, p, x)
    ensures
      var p' := DoScheduler(c, db, p, x);
      && SchedulerWeight(c, p'.scheduler) + 5 * |p'.queue| < SchedulerWeight(c, p.scheduler) + 5 * |p.queue|
      && p' == p.(scheduler := p'.scheduler, queue := p'.queue, closed := p'.closed, errCh := p'.errCh)
  {
  }

  /** After cancellation every step of the process brings it closer to its end; other processes cannot set it back. */
  lemma StepsDecreaseMeasure(c: Config, s: State, a: Action)
    requires s.proc.cancelled && Enabled(c, s, a)
    ensures DoProc(c, s, a).cancelled
    ensures if IsProcessStep(a) then Measure(c, DoProc(c, s, a)) < Measure(c, s.proc) else DoProc(c, s, a) == s.proc
  {
    match a
    case Worker(i, w) => WorkerStepDecreases(s.world.db, s.proc, i, w);
    case Scheduler(x) => SchedulerStepDecreases(c, s.world.db, s.proc, x);
    case _ =>
  }

  ghost function ProcessSteps(actions: seq<Action>): nat {
    if actions == [] then 0 else (if IsProcessStep(actions[0]) then 1 else 0) + ProcessSteps(actions[1..])
  }

  /** A cancelled process takes at most `Measure` more steps, whatever happens around it. */
  lemma {:induction false} ShutdownTerminates(c: Config, s: State, actions: seq<Action>)
    requires s.proc.cancelled && Executable(c, s, actions)
    ensures ProcessSteps(actions) <= Measure(c, s.proc) - Measure(c, Final(c, s, actions).proc)
    decreases actions
  {
    if actions != [] {
      StepsDecreaseMeasure(c, s, actions[0]);
      ShutdownTerminates(c, Do(c, s, actions[0]), actions[1..]);
    }
  }

  // ---------------------------------------------------------------------------------------------
  // Nobody blocks
  // ---------------------------------------------------------------------------------------------

  predicate IsProcessStep(a: Action) {
    !a.Environment?
  }

  /** After cancellation the scheduler can always take a step until it is done. */
  lemma SchedulerNeverBlocks(c: Config, s: State) returns (a: Action)
    requires s.proc.cancelled && s.proc.scheduler != SchedulerDone
    ensures a.Scheduler? && Enabled(c, s, a)
  {
    match s.proc.scheduler
    case Claiming(_) => a := Scheduler(ClaimFail(true));
    case Pushing(batch) => a := Scheduler(if batch == [] then BatchDone else DropBatch);
    case Waiting => a := Scheduler(StopScheduler);
    case Reporting => a := Scheduler(ReportError);
    case Closing => a := Scheduler(CloseQueue);
  }

  /** So can every worker; a busy one always can, and one that waits is released by cancellation. */
  lemma WorkerNeverBlocks(c: Config, s: State, i: nat) returns (a: Action)
    requires i < |s.proc.workers| && s.proc.workers[i] != WorkerDone
    requires s.proc.cancelled || s.proc.workers[i] != Idle || s.proc.queue != [] || s.proc.closed
    ensures a.Worker? && a.i == i && Enabled(c, s, a)
  {
    match s.proc.workers[i]
    case Idle => a := Worker(i, if s.proc.queue != [] then Dequeue else StopWorker);
    case Checking(_) => a := Worker(i, Check(CheckResult(0, 0, false, "", 0)));
    case Applying(_, _) => a := Worker(i, ApplyFail);
    case Alerting(_) => a := Worker(i, ListChannels(false));
    case Notifying(_) => a := Worker(i, NotifyReturns);
  }

  ghost predicate Terminated(p: Proc) {
    AllDone(p) && p.done && p.main.Returned?
  }

  /** A cancelled process that can take no more steps has ended: all goroutines are done and `Run` has returned. */
  lemma NoDeadlock(c: Config, s: State)
    requires Inv(c, s) && s.proc.cancelled
    requires forall a :: Enabled(c, s, a) ==> !IsProcessStep(a)
    ensures Terminated(s.proc)
  {
    var p := s.proc;
    if p.scheduler != SchedulerDone {
      var a := SchedulerNeverBlocks(c, s);
    }
    forall i | 0 <= i < |p.workers| ensures p.workers[i] == WorkerDone {
      if p.workers[i] != WorkerDone {
        var a := WorkerNeverBlocks(c, s, i);
      }
    }
    assert !Enabled(c, s, Run(CloseDone)) && !Enabled(c, s, Run(SeeCancel)) && !Enabled(c, s, Run(Join));
  }

  /** Before cancellation the scheduler blocks only on a full queue, and then some worker can make room. */
  lemma FullQueueDrains(c: Config, s: State) returns (i: nat, a: Action)
    requires ValidConfig(c) && Inv(c, s) && !s.proc.cancelled
    requires s.proc.scheduler.Pushing? && s.proc.scheduler.batch != [] && !Enabled(c, s, Scheduler(Push))
    ensures i < |s.proc.workers| && a.Worker? && a.i == i && Enabled(c, s, a)
  {
    i := 0;
    a := WorkerNeverBlocks(c, s, i);
  }

  // ---------------------------------------------------------------------------------------------
  // The process keeps going
  // ---------------------------------------------------------------------------------------------

  /** Has the process a reason to stop? */
  predicate MayStop(p: Proc) {
    p.cancelled || p.errCh
  }

  /** A process that is neither cancelled nor failed stops nowhere: not its scheduler, nor a worker, nor `Run`. */
  lemma KeepsRunning(c: Config, actions: seq<Action>)
    requires Executable(c, Init(c), actions) && !MayStop(Final(c, Init(c), actions).proc)
    ensures
      var p := Final(c, Init(c), actions).proc;
      && p.scheduler != Closing && p.scheduler != SchedulerDone && !p.closed
      && (forall i :: 0 <= i < |p.workers| ==> p.workers[i] != WorkerDone)
      && p.main == Selecting
  {
    InvInit(c);
    InvThroughout(c, Init(c), actions);
  }

  /** A claim that failed otherwise than by cancellation. */
  predicate ClaimBreaks(a: Action) {
    a.Scheduler? && (a.s == ClaimFail(false) || (a.s.ClaimLost? && !a.s.canceled))
  }

  predicate Broken(p: Proc) {
    p.errCh || p.scheduler == Reporting
  }

  lemma BreakStep(c: Config, s: State, a: Action)
    requires Enabled(c, s, a)
    ensures Broken(DoProc(c, s, a)) <==> Broken(s.proc) || ClaimBreaks(a)
  {
  }

  lemma {:induction false} BrokenSince(c: Config, s: State, actions: seq<Action>)
    requires Executable(c, s, actions)
    ensures Broken(Final(c, s, actions).proc) <==>
              Broken(s.proc) || exists i :: 0 <= i < |actions| && ClaimBreaks(actions[i])
    decreases actions
  {
    if actions != [] {
      var rest := actions[1..];
      BreakStep(c, s, actions[0]);
      BrokenSince(c, Do(c, s, actions[0]), rest);
      assert forall i :: 0 <= i < |rest| ==> rest[i] == actions[i + 1];
      assert ClaimBreaks(actions[0]) ==> exists i :: 0 <= i < |actions| && ClaimBreaks(actions[i]);
      assert forall i :: 0 < i < |actions| ==> actions[i] == rest[i - 1];
    }
  }

  /** An error is reported, or about to be, exactly if some claim failed otherwise than by cancellation. */
  lemma ErrorIffClaimBroke(c: Config, actions: seq<Action>)
    requires Executable(c, Init(c), actions)
    ensures
      var p := Final(c, Init(c), actions).proc;
      p.errCh || p.scheduler == Reporting <==> exists i :: 0 <= i < |actions| && ClaimBreaks(actions[i])
  {
    BrokenSince(c, Init(c), actions);
  }

  /** A batch that is finished, or dropped, is followed by the wait for the next tick. */
  lemma BatchThenTick(c: Config, s: State, x: SchedulerAction)
    requires Enabled(c, s, Scheduler(x)) && (x == BatchDone || x == DropBatch)
    ensures Enabled(c, Do(c, s, Scheduler(x)), Scheduler(Tick))
  {
  }

  /** The steps that put a batch of `n` jobs into the queue. */
  ghost function Pushes(n: nat): seq<Action> {
    if n == 0 then [] else [Scheduler(Push)] + Pushes(n - 1)
  }

  lemma {:induction false} BatchIsPushed(c: Config, s: State, batch: seq<Id>)
    requires s.proc.scheduler == Pushing(batch) && |s.proc.queue| + |batch| <= c.queueSize
    ensures Executable(c, s, Pushes(|batch|))
    ensures
      var s' := Final(c, s, Pushes(|batch|));
      && s'.proc == s.proc.(scheduler := Pushing([]), queue := s.proc.queue + batch)
      && s'.world == s.world && s'.history == s.history && s'.foreign == s.foreign
    decreases |batch|
  {
    if batch == [] {
      assert s.proc.queue + [] == s.proc.queue;
    } else {
      var s1 := Do(c, s, Scheduler(Push));
      BatchIsPushed(c, s1, batch[1..]);
      OneMore(c, s, Scheduler(Push), Pushes(|batch| - 1));
      assert s.proc.queue + batch == (s.proc.queue + [batch[0]]) + batch[1..];
    }
  }

  /**
    The scheduler goes round: after a tick it can claim whatever its query selects, push all of it if the queue
    has room, and wait for the next tick, with the claim committed.
   */
  lemma SchedulerGoesRound(c: Config, s: State, now: Time, skipped: set<Id>, ids: seq<Id>) returns (round: seq<Action>)
    requires s.proc.scheduler == Waiting && !s.proc.cancelled && |s.proc.queue| + |ids| <= c.queueSize
    requires IsClaimSelection(s.world.db, now, c.batchSize, skipped, ids)
    ensures Executable(c, s, round)
    ensures
      var s' := Final(c, s, round);
      && s'.proc == s.proc.(queue := s.proc.queue + ids)
      && s'.world.db == Step(s.world.db, ClaimOp(now, c.batchSize, skipped, ids))
      && Enabled(c, s', Scheduler(Tick))
  {
    var claim := Scheduler(ClaimOk(now, skipped, ids));
    var s1 := Do(c, s, Scheduler(Tick));
    var s2 := Do(c, s1, claim);
    BatchIsPushed(c, s2, ids);
    var s3 := Final(c, s2, Pushes(|ids|));
    OneMore(c, s3, Scheduler(BatchDone), []);
    RunsCompose(c, s2, Pushes(|ids|), s3, [Scheduler(BatchDone)] + []);
    var rest := Pushes(|ids|) + ([Scheduler(BatchDone)] + []);
    OneMore(c, s1, claim, rest);
    OneMore(c, s, Scheduler(Tick), [claim] + rest);
    round := [Scheduler(Tick)] + ([claim] + rest);
  }

  /** What a worker does after a check has been recorded. */
  function Aftermath(i: nat, event: Event): seq<Action> {
    if event.kind == NoEvent then [] else [Worker(i, ListChannels(true)), Worker(i, NotifyReturns)]
  }

  lemma EventIsNotified(c: Config, s: State, i: nat, event: Event)
    requires i < |s.proc.workers| && s.proc.workers[i] == AfterApply(event)
    ensures Executable(c, s, Aftermath(i, event))
    ensures
      var s' := Final(c, s, Aftermath(i, event));
      && s'.proc == s.proc.(workers := s.proc.workers[i := Idle]) && s'.world == s.world
      && s'.history == s.history.(notified := s.history.notified + Reportable(event))
  {
    if event.kind == NoEvent {
      assert s.proc.workers[i := Idle] == s.proc.workers;
      assert s.history.notified + [] == s.history.notified;
    } else {
      var s1 := Do(c, s, Worker(i, ListChannels(true)));
      OneMore(c, s1, Worker(i, NotifyReturns), []);
      OneMore(c, s, Worker(i, ListChannels(true)), [Worker(i, NotifyReturns)]);
    }
  }

  /** An idle worker can take the first job of the queue, check it with any result, and record the result. */
  lemma JobIsRecorded(c: Config, s: State, i: nat, r: CheckResult, uuid: Id)
    requires i < |s.proc.workers| && s.proc.workers[i] == Idle && s.proc.queue != []
    requires uuid !in s.world.db.issued && ApplyCheck(s.world.db, s.proc.queue[0], r, uuid).1.Ok?
    ensures Enabled(c, s, Worker(i, Dequeue))
    ensures
      var s1 := Do(c, s, Worker(i, Dequeue));
      && Enabled(c, s1, Worker(i, Check(r)))
      && var s2 := Do(c, s1, Worker(i, Check(r)));
      && Enabled(c, s2, Worker(i, ApplyOk(uuid)))
      && var s3 := Do(c, s2, Worker(i, ApplyOk(uuid)));
      && var (db', outcome) := ApplyCheck(s.world.db, s.proc.queue[0], r, uuid);
      && s3.world.db == db'
      && s3.proc == s.proc.(queue := s.proc.queue[1..], workers := s.proc.workers[i := AfterApply(outcome.value)])
      && s3.history.completed == s.history.completed + [s.proc.queue[0]]
      && s3.history.notified == s.history.notified
  {
  }

  /**
    A job runs through: the result is recorded as one atomic check does it, the event, if it is worth
    reporting, reaches the notifier, and the worker is idle again.
   */
  lemma JobRunsThrough(c: Config, s: State, i: nat, r: CheckResult, uuid: Id) returns (steps: seq<Action>)
    requires i < |s.proc.workers| && s.proc.workers[i] == Idle && s.proc.queue != []
    requires uuid !in s.world.db.issued && ApplyCheck(s.world.db, s.proc.queue[0], r, uuid).1.Ok?
    ensures Executable(c, s, steps)
    ensures
      var s', (db', outcome) := Final(c, s, steps), ApplyCheck(s.world.db, s.proc.queue[0], r, uuid);
      && s'.world.db == db'
      && s'.proc == s.proc.(queue := s.proc.queue[1..])
      && s'.history.completed == s.history.completed + [s.proc.queue[0]]
      && s'.history.notified == s.history.notified + (if outcome.value.kind == NoEvent then [] else [outcome.value])
  {
    var event := ApplyCheck(s.world.db, s.proc.queue[0], r, uuid).1.value;
    JobIsRecorded(c, s, i, r, uuid);
    var s1 := Do(c, s, Worker(i, Dequeue));
    var s2 := Do(c, s1, Worker(i, Check(r)));
    var s3 := Do(c, s2, Worker(i, ApplyOk(uuid)));
    EventIsNotified(c, s3, i, event);
    assert s3.proc.workers[i := Idle] == s.proc.workers;
    steps := Aftermath(i, event);
    OneMore(c, s2, Worker(i, ApplyOk(uuid)), steps);
    steps := [Worker(i, ApplyOk(uuid))] + steps;
    OneMore(c, s1, Worker(i, Check(r)), steps);
    steps := [Worker(i, Check(r))] + steps;
    OneMore(c, s, Worker(i, Dequeue), steps);
    steps := [Worker(i, Dequeue)] + steps;
  }

  // ---------------------------------------------------------------------------------------------
  // The result of Run
  // ---------------------------------------------------------------------------------------------

  /**
    `Run` returns nil only when the scheduler and all workers are done, because of a cancellation or a failed claim; and
    an error only if a claim failed.
   */
  lemma NilMeansAllDone(c: Config, actions: seq<Action>)
    requires Executable(c, Init(c), actions)
    ensures
      var p := Final(c, Init(c), actions).proc;
      && (p.main == Returned(false) ==> AllDone(p) && (p.cancelled || p.errCh))
      && (p.main == Returned(true) ==> p.errCh)
  {
    InvInit(c);
    InvThroughout(c, Init(c), actions);
  }

  /** `Run` takes its decision: it leaves its first `select`. */
  predicate Decides(p: Proc, a: Action) {
    p.main == Selecting && (a == Run(ReturnError) || a == Run(ReturnDone) || a == Run(SeeCancel))
  }

  /** A decision other than that for the error. */
  predicate DecidesForNil(p: Proc, a: Action) {
    p.main == Selecting && ((a == Run(ReturnDone) && p.done) || (a == Run(SeeCancel) && p.cancelled))
  }

  /**
    Once an error has been reported, `Run` may decide for it, and must do so exactly while not everything
    is done and the process is not cancelled: otherwise the `select` has another case ready and may take it.
   */
  lemma ErrorMustBeReturnedIff(c: Config, s: State)
    requires s.proc.main == Selecting && s.proc.errCh
    ensures Enabled(c, s, Run(ReturnError)) && Do(c, s, Run(ReturnError)).proc.main == Returned(true)
    ensures (forall a :: Enabled(c, s, a) && Decides(s.proc, a) ==> Do(c, s, a).proc.main == Returned(true)) <==>
              !s.proc.done && !s.proc.cancelled
  {
    if s.proc.done {
      assert Enabled(c, s, Run(ReturnDone)) && Decides(s.proc, Run(ReturnDone));
      assert Do(c, s, Run(ReturnDone)).proc.main == Returned(false);
    } else if s.proc.cancelled {
      assert Enabled(c, s, Run(SeeCancel)) && Decides(s.proc, Run(SeeCancel));
      assert Do(c, s, Run(SeeCancel)).proc.main == Joining;
    }
  }

  ghost predicate HeadedForNil(p: Proc) {
    p.main == Joining || p.main == Returned(false)
  }

  /** Decided is decided: a `Run` that waits for the goroutines, or has returned nil, never returns the error. */
  lemma {:induction false} NilIsFinal(c: Config, s: State, actions: seq<Action>)
    requires Executable(c, s, actions) && HeadedForNil(s.proc)
    ensures HeadedForNil(Final(c, s, actions).proc)
    decreases actions
  {
    if actions != [] {
      NilIsFinal(c, Do(c, s, actions[0]), actions[1..]);
    }
  }

  lemma OneMore(c: Config, s: State, a: Action, rest: seq<Action>)
    requires Enabled(c, s, a)
    ensures Executable(c, s, [a] + rest) <==> Executable(c, Do(c, s, a), rest)
    ensures Executable(c, s, [a] + rest) ==> Final(c, s, [a] + rest) == Final(c, Do(c, s, a), rest)
  {
    assert ([a] + rest)[1..] == rest;
  }

  /** Does `Run` decide for nil at the `i`-th step of a run? */
  ghost predicate NilDecidedAt(c: Config, s: State, actions: seq<Action>, i: nat) {
    && i < |actions|
    && Executable(c, s, actions[..i])
    && DecidesForNil(Final(c, s, actions[..i]).proc, actions[i])
  }

  lemma NilDecidedFirst(c: Config, s: State, actions: seq<Action>)
    ensures NilDecidedAt(c, s, actions, 0) <==> actions != [] && DecidesForNil(s.proc, actions[0])
  {
    if actions != [] {
      assert actions[..0] == [];
    }
  }

  lemma NilDecidedLater(c: Config, s: State, actions: seq<Action>, i: nat)
    requires Executable(c, s, actions) && actions != []
    ensures NilDecidedAt(c, s, actions, i + 1) <==> NilDecidedAt(c, Do(c, s, actions[0]), actions[1..], i)
  {
    if i + 1 < |actions| {
      assert actions[..i + 1] == [actions[0]] + actions[1..][..i];
      OneMore(c, s, actions[0], actions[1..][..i]);
    }
  }

  /** Does `Run` decide for nil at some step of a run? */
  ghost predicate NilDecided(c: Config, s: State, actions: seq<Action>)
    requires Executable(c, s, actions)
    decreases actions
  {
    actions != [] && (DecidesForNil(s.proc, actions[0]) || NilDecided(c, Do(c, s, actions[0]), actions[1..]))
  }

  lemma {:induction false} NilDecidedSomewhere(c: Config, s: State, actions: seq<Action>) returns (i: nat)
    requires Executable(c, s, actions) && NilDecided(c, s, actions)
    ensures NilDecidedAt(c, s, actions, i)
    decreases actions
  {
    if DecidesForNil(s.proc, actions[0]) {
      NilDecidedFirst(c, s, actions);
      i := 0;
    } else {
      var j := NilDecidedSomewhere(c, Do(c, s, actions[0]), actions[1..]);
      NilDecidedLater(c, s, actions, j);
      i := j + 1;
    }
  }

  lemma {:induction false} NilDecidedOverall(c: Config, s: State, actions: seq<Action>, i: nat)
    requires Executable(c, s, actions) && NilDecidedAt(c, s, actions, i)
    ensures NilDecided(c, s, actions)
    decreases actions
  {
    if i == 0 {
      NilDecidedFirst(c, s, actions);
    } else {
      NilDecidedLater(c, s, actions, i - 1);
      NilDecidedOverall(c, Do(c, s, actions[0]), actions[1..], i - 1);
    }
  }

  lemma {:induction false} ErrorIsFinal(c: Config, s: State, actions: seq<Action>)
    requires Executable(c, s, actions) && s.proc.main == Returned(true)
    ensures Final(c, s, actions).proc.main == Returned(true) && !NilDecided(c, s, actions)
    decreases actions
  {
    if actions != [] {
      ErrorIsFinal(c, Do(c, s, actions[0]), actions[1..]);
    }
  }

  /** Where a step of somebody, or of `Run` itself, leaves `Run`. */
  lemma DecisionStep(c: Config, s: State, a: Action)
    requires Enabled(c, s, a) && s.proc.main == Selecting
    ensures
      var main := Do(c, s, a).proc.main;
      if DecidesForNil(s.proc, a) then main == Joining || main == Returned(false)
      else main == Selecting || main == Returned(true)
  {
  }

  /** From the `select` on, `Run` is headed for nil exactly if it has decided for it. */
  lemma {:induction false} NilIffDecided(c: Config, s: State, actions: seq<Action>)
    requires Executable(c, s, actions) && s.proc.main == Selecting
    ensures HeadedForNil(Final(c, s, actions).proc) <==> NilDecided(c, s, actions)
    decreases actions
  {
    if actions != [] {
      var s', rest := Do(c, s, actions[0]), actions[1..];
      DecisionStep(c, s, actions[0]);
      if DecidesForNil(s.proc, actions[0]) {
        NilIsFinal(c, s', rest);
      } else if s'.proc.main == Selecting {
        NilIffDecided(c, s', rest);
      } else {
        ErrorIsFinal(c, s', rest);
      }
    }
  }

  /**
    What a nil result says about failed claims. A run of a process that has reported an error and whose
    `Run` has returned ended with nil exactly if at some step `Run` left its `select` because everything was
    done or because it saw the cancellation; otherwise it returned the error.
   */
  lemma NilDespiteError(c: Config, actions: seq<Action>)
    requires Executable(c, Init(c), actions)
    requires Final(c, Init(c), actions).proc.main.Returned? && Final(c, Init(c), actions).proc.errCh
    ensures Final(c, Init(c), actions).proc.main == Returned(false) <==>
              exists i: nat :: NilDecidedAt(c, Init(c), actions, i)
  {
    NilIffDecided(c, Init(c), actions);
    if NilDecided(c, Init(c), actions) {
      var i := NilDecidedSomewhere(c, Init(c), actions);
    }
    if i: nat :| NilDecidedAt(c, Init(c), actions, i) {
      NilDecidedOverall(c, Init(c), actions, i);
    }
  }

  lemma {:induction false} RunsCompose(c: Config, s: State, first: seq<Action>, mid: State, second: seq<Action>)
    requires Executable(c, s, first) && Final(c, s, first) == mid && Executable(c, mid, second)
    ensures Executable(c, s, first + second) && Final(c, s, first + second) == Final(c, mid, second)
    decreases first
  {
    if first == [] {
      assert first + second == second;
    } else {
      var a, rest := first[0], first[1..];
      RunsCompose(c, Do(c, s, a), rest, mid, second);
      OneMore(c, s, a, rest + second);
      assert first == [a] + rest;
      AppendAssociates([a], rest, second);
    }
  }

  const SMALL: Config := Config(1, 1, 1)

  /** The first claim fails, and the error is reported. */
  lemma ErrorReported() returns (actions: seq<Action>)
    ensures ValidConfig(SMALL) && Executable(SMALL, Init(SMALL), actions)
    ensures Final(SMALL, Init(SMALL), actions).proc ==
            Proc(SchedulerDone, [], true, [Idle], false, true, false, Selecting)
  {
    var s0 := Init(SMALL);
    assert s0.proc.workers == [Idle];
    var s1 := Do(SMALL, s0, Scheduler(ClaimFail(false)));
    var s2 := Do(SMALL, s1, Scheduler(ReportError));
    OneMore(SMALL, s2, Scheduler(CloseQueue), []);
    OneMore(SMALL, s1, Scheduler(ReportError), [Scheduler(CloseQueue)] + []);
    actions := [Scheduler(ClaimFail(false))] + ([Scheduler(ReportError)] + ([Scheduler(CloseQueue)] + []));
    OneMore(SMALL, s0, Scheduler(ClaimFail(false)), [Scheduler(ReportError)] + ([Scheduler(CloseQueue)] + []));
  }

  /** The idle worker stops, and `Run` finishes with `last`. */
  lemma WorkerStopsAndRunReturns(c: Config, s: State, last: RunAction) returns (actions: seq<Action>)
    requires s.proc.scheduler == SchedulerDone && s.proc.queue == [] && s.proc.closed && s.proc.workers == [Idle]
    requires s.proc.errCh && !s.proc.done
    requires (s.proc.main == Selecting && last == ReturnDone) || (s.proc.main == Joining && last == Join)
    ensures Executable(c, s, actions)
    ensures Final(c, s, actions).proc.errCh && Final(c, s, actions).proc.main == Returned(false)
  {
    var s1 := Do(c, s, Worker(0, StopWorker));
    assert s1.proc == s.proc.(workers := [WorkerDone]);
    var s2 := Do(c, s1, Run(CloseDone));
    OneMore(c, s2, Run(last), []);
    OneMore(c, s1, Run(CloseDone), [Run(last)] + []);
    actions := [Worker(0, StopWorker)] + ([Run(CloseDone)] + ([Run(last)] + []));
    OneMore(c, s, Worker(0, StopWorker), [Run(CloseDone)] + ([Run(last)] + []));
  }

  /** A reported error is lost: everything is done before `Run` looks, and it returns nil. */
  lemma ErrorCanBeLost() returns (actions: seq<Action>)
    ensures ValidConfig(SMALL) && Executable(SMALL, Init(SMALL), actions)
    ensures
      var p := Final(SMALL, Init(SMALL), actions).proc;
      p.errCh && p.main == Returned(false)
  {
    var before := ErrorReported();
    var after := WorkerStopsAndRunReturns(SMALL, Final(SMALL, Init(SMALL), before), ReturnDone);
    RunsCompose(SMALL, Init(SMALL), before, Final(SMALL, Init(SMALL), before), after);
    actions := before + after;
  }

  /** It is lost in another way: the process is cancelled, and `Run` sees that before anything is done. */
  lemma ErrorCanBeLostToCancel() returns (before: seq<Action>, after: seq<Action>)
    ensures ValidConfig(SMALL) && Executable(SMALL, Init(SMALL), before + after)
    ensures Executable(SMALL, Init(SMALL), before)
    ensures
      var p := Final(SMALL, Init(SMALL), before).proc;
      p.errCh && !p.done && p.main == Selecting
    ensures after != [] && after[0] == Run(SeeCancel)
    ensures Final(SMALL, Init(SMALL), before + after).proc.main == Returned(false)
  {
    var reported := ErrorReported();
    var s := Final(SMALL, Init(SMALL), reported);
    var s1 := Do(SMALL, s, Environment(Cancel));
    OneMore(SMALL, s, Environment(Cancel), []);
    RunsCompose(SMALL, Init(SMALL), reported, s, [Environment(Cancel)] + []);
    before := reported + ([Environment(Cancel)] + []);
    var rest := WorkerStopsAndRunReturns(SMALL, Do(SMALL, s1, Run(SeeCancel)), Join);
    after := [Run(SeeCancel)] + rest;
    OneMore(SMALL, s1, Run(SeeCancel), rest);
    RunsCompose(SMALL, Init(SMALL), before, Final(SMALL, Init(SMALL), before), after);
  }
}
