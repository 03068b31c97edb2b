/**
  What every run of the worker process keeps: no claimed job is lost or duplicated, jobs are taken
  in the order they were claimed, the queue stays within its bound, every event reaches the notifier
  at most once, and disabling a monitor leaves only the checks already under way.
 */
module RunnerSafety {
  import opened Common
  import opened Health
  import opened Tables
  import opened Runs
  import opened Reports
  import opened Runner

  // ---------------------------------------------------------------------------------------------
  // Jobs and events held by the workers
  // ---------------------------------------------------------------------------------------------

  function Count<T(==)>(s: seq<T>, x: T): nat {
    if s == [] then 0 else Count(s[..|s| - 1], x) + if s[|s| - 1] == x then 1 else 0
  }

  lemma {:induction false} CountAppend<T>(s: seq<T>, t: seq<T>, x: T)
    ensures Count(s + t, x) == Count(s, x) + Count(t, x)
  {
    if t == [] {
      assert s + t == s;
    } else {
      assert (s + t)[..|s + t| - 1] == s + t[..|t| - 1];
      CountAppend(s, t[..|t| - 1], x);
    }
  }

  lemma {:induction false} CountAbsent<T>(s: seq<T>, x: T)
    requires forall i :: 0 <= i < |s| ==> s[i] != x
    ensures Count(s, x) == 0
  {
    if s != [] {
      CountAbsent(s[..|s| - 1], x);
    }
  }

  predicate HasJob(w: WorkerPhase, m: Id) {
    (w.Checking? || w.Applying?) && w.job == m
  }

  /** A worker that has yet to hand `e` to the notifier. */
  predicate HasEvent(w: WorkerPhase, e: Event) {
    w.Alerting? && w.event == e
  }

  /** How many workers hold a job of `m`. */
  ghost function Jobs(workers: seq<WorkerPhase>, m: Id): nat {
    if workers == [] then 0 else (if HasJob(workers[0], m) then 1 else 0) + Jobs(workers[1..], m)
  }

  /** How many workers have yet to hand `e` to the notifier. */
  ghost function Pending(workers: seq<WorkerPhase>, e: Event): nat {
    if workers == [] then 0 else (if HasEvent(workers[0], e) then 1 else 0) + Pending(workers[1..], e)
  }

  lemma {:induction false} MoveJob(workers: seq<WorkerPhase>, i: nat, w: WorkerPhase, m: Id)
    requires i < |workers|
    ensures Jobs(workers[i := w], m) + (if HasJob(workers[i], m) then 1 else 0) ==
            Jobs(workers, m) + (if HasJob(w, m) then 1 else 0)
  {
    if i == 0 {
      assert workers[i := w][1..] == workers[1..];
    } else {
      MoveJob(workers[1..], i - 1, w, m);
      assert workers[i := w][1..] == workers[1..][i - 1 := w];
    }
  }

  lemma {:induction false} MoveEvent(workers: seq<WorkerPhase>, i: nat, w: WorkerPhase, e: Event)
    requires i < |workers|
    ensures Pending(workers[i := w], e) + (if HasEvent(workers[i], e) then 1 else 0) ==
            Pending(workers, e) + (if HasEvent(w, e) then 1 else 0)
  {
    if i == 0 {
      assert workers[i := w][1..] == workers[1..];
    } else {
      MoveEvent(workers[1..], i - 1, w, e);
      assert workers[i := w][1..] == workers[1..][i - 1 := w];
    }
  }

  lemma {:induction false} IdleWorkersHoldNothing(workers: seq<WorkerPhase>)
    requires forall i :: 0 <= i < |workers| ==> workers[i] == Idle
    ensures forall m :: Jobs(workers, m) == 0
    ensures forall e :: Pending(workers, e) == 0
  {
    if workers != [] {
      IdleWorkersHoldNothing(workers[1..]);
    }
  }

  ghost function Hand(p: Proc): seq<Id> {
    if p.scheduler.Pushing? then p.scheduler.batch else []
  }

  // ---------------------------------------------------------------------------------------------
  // Invariants
  // ---------------------------------------------------------------------------------------------

  /** The queue is bounded, and who has stopped had a reason to. */
  ghost predicate Orderly(c: Config, p: Proc) {
    && |p.workers| == c.workerCount
    && |p.queue| <= c.queueSize
    && (p.closed <==> p.scheduler == SchedulerDone)
    && (p.scheduler == Claiming(true) ==> p.cancelled)
    && (forall i :: 0 <= i < |p.workers| && p.workers[i] == WorkerDone ==> p.cancelled || (p.closed && p.queue == []))
    && (p.done ==> AllDone(p))
    && (p.main == Returned(false) ==> p.done)
    && (p.main == Returned(true) ==> p.errCh)
    && (p.main == Joining ==> p.cancelled)
    && (p.scheduler == Closing || p.scheduler == SchedulerDone ==> p.cancelled || p.errCh)
  }

  /** Jobs leave in the order in which they were claimed; whatever is dropped is dropped last. */
  ghost predicate InOrder(p: Proc, h: History) {
    && h.claimed == h.dequeued + p.queue + Hand(p) + h.dropped
    && (h.dropped != [] ==> p.cancelled && !p.scheduler.Pushing? && p.scheduler != Claiming(false))
  }

  /** Each job taken from the queue is with one worker, or its apply call has returned. */
  ghost predicate Accounted(p: Proc, h: History, m: Id) {
    Count(h.dequeued, m) == Jobs(p.workers, m) + Count(h.completed, m)
  }

  /** Each event returned to a worker is with it, or was handed to the notifier, or had nowhere to go. */
  ghost predicate Delivered(events: seq<Event>, p: Proc, h: History, e: Event) {
    && Count(h.returned, e) == Pending(p.workers, e) + Count(h.notified, e) + Count(h.muted, e)
    && Count(h.returned, e) <= Count(events, e)
  }

  ghost predicate Inv(c: Config, s: State) {
    && Orderly(c, s.proc)
    && InOrder(s.proc, s.history)
    && (forall m: Id :: Accounted(s.proc, s.history, m))
    && (forall e: Event :: Delivered(s.world.events, s.proc, s.history, e))
    && Reported(s.world)
  }

  lemma InvInit(c: Config)
    ensures Inv(c, Init(c))
  {
    IdleWorkersHoldNothing(InitProc(c).workers);
  }

  lemma OrderlyKeptByScheduler(c: Config, db: Db, p: Proc, x: SchedulerAction)
    requires Orderly(c, p) && SchedulerEnabled(c, db, p, x)
    ensures Orderly(c, DoScheduler(c, db, p, x))
  {
  }

  lemma OrderlyKeptByWorker(c: Config, db: Db, p: Proc, i: nat, w: WorkerAction)
    requires Orderly(c, p) && i < |p.workers| && WorkerEnabled(db, p, p.workers[i], w)
    ensures Orderly(c, DoWorker(db, p, i, w))
  {
  }

  lemma OrderlyKept(c: Config, s: State, a: Action)
    requires Orderly(c, s.proc) && Enabled(c, s, a)
    ensures Orderly(c, DoProc(c, s, a))
  {
    match a
    case Scheduler(x) => OrderlyKeptByScheduler(c, s.world.db, s.proc, x);
    case Worker(i, w) => OrderlyKeptByWorker(c, s.world.db, s.proc, i, w);
    case Run(_) =>
    case Environment(_) =>
  }

  lemma PushKeepsOrder(d: seq<Id>, q: seq<Id>, batch: seq<Id>, rest: seq<Id>)
    requires batch != []
    ensures d + (q + [batch[0]]) + batch[1..] + rest == d + q + batch + rest
  {
    assert batch == [batch[0]] + batch[1..];
  }

  lemma DequeueKeepsOrder(d: seq<Id>, q: seq<Id>, batch: seq<Id>, rest: seq<Id>)
    requires q != []
    ensures (d + [q[0]]) + q[1..] + batch + rest == d + q + batch + rest
  {
    assert q == [q[0]] + q[1..];
  }

  lemma InOrderKeptByScheduler(c: Config, db: Db, p: Proc, h: History, x: SchedulerAction)
    requires Orderly(c, p) && InOrder(p, h) && SchedulerEnabled(c, db, p, x)
    ensures InOrder(DoScheduler(c, db, p, x), SchedulerHistory(h, p, x))
  {
    if x.Push? {
      PushKeepsOrder(h.dequeued, p.queue, p.scheduler.batch, h.dropped);
    } else if x.ClaimOk? {
      assert h.dropped == [];
      assert h.dequeued + p.queue + [] + [] + x.ids == h.dequeued + p.queue + x.ids + [];
    } else if x.DropBatch? {
      assert h.dropped == [];
      assert h.dequeued + p.queue + p.scheduler.batch + [] == h.dequeued + p.queue + [] + ([] + p.scheduler.batch);
    }
  }

  lemma InOrderKept(c: Config, s: State, a: Action)
    requires Orderly(c, s.proc) && InOrder(s.proc, s.history) && Enabled(c, s, a)
    ensures InOrder(DoProc(c, s, a), DoHistory(c, s, a))
  {
    if a.Scheduler? {
      InOrderKeptByScheduler(c, s.world.db, s.proc, s.history, a.s);
    } else if a.Worker? && a.w.Dequeue? {
      DequeueKeepsOrder(s.history.dequeued, s.proc.queue, Hand(s.proc), s.history.dropped);
    }
  }

  /** How a step of a worker moves jobs: from the queue to the worker, from it to the completed ones, or not at all. */
  lemma WorkerMovesJobs(db: Db, p: Proc, h: History, phase: WorkerPhase, w: WorkerAction, m: Id)
    requires WorkerEnabled(db, p, phase, w)
    ensures
      var phase', h' := NextPhase(db, p, phase, w), WorkerHistory(db, h, p, phase, w);
      if w.Dequeue? then
        && h'.dequeued == h.dequeued + [p.queue[0]] && h'.completed == h.completed
        && !HasJob(phase, m) && (HasJob(phase', m) <==> p.queue[0] == m)
      else if phase.Applying? then
        && h'.dequeued == h.dequeued && h'.completed == h.completed + [phase.job]
        && !HasJob(phase', m) && (HasJob(phase, m) <==> phase.job == m)
      else
        && h'.dequeued == h.dequeued && h'.completed == h.completed
        && (HasJob(phase, m) <==> HasJob(phase', m))
  {
  }

  lemma AccountedKeptByWorker(db: Db, p: Proc, h: History, i: nat, w: WorkerAction, m: Id)
    requires Accounted(p, h, m) && i < |p.workers| && WorkerEnabled(db, p, p.workers[i], w)
    ensures Accounted(DoWorker(db, p, i, w), WorkerHistory(db, h, p, p.workers[i], w), m)
  {
    MoveJob(p.workers, i, NextPhase(db, p, p.workers[i], w), m);
    WorkerMovesJobs(db, p, h, p.workers[i], w, m);
    if w.Dequeue? {
      CountAppend(h.dequeued, [p.queue[0]], m);
    } else if p.workers[i].Applying? {
      CountAppend(h.completed, [p.workers[i].job], m);
    }
  }

  /** Only workers take jobs from the queue and complete them. */
  lemma OthersMoveNoJobs(c: Config, s: State, a: Action)
    requires Enabled(c, s, a) && !a.Worker?
    ensures DoProc(c, s, a).workers == s.proc.workers
    ensures DoHistory(c, s, a).dequeued == s.history.dequeued
    ensures DoHistory(c, s, a).completed == s.history.completed
  {
  }

  lemma AccountedKept(c: Config, s: State, a: Action, m: Id)
    requires Accounted(s.proc, s.history, m) && Enabled(c, s, a)
    ensures Accounted(DoProc(c, s, a), DoHistory(c, s, a), m)
  {
    if a.Worker? {
      AccountedKeptByWorker(s.world.db, s.proc, s.history, a.i, a.w, m);
    } else {
      OthersMoveNoJobs(c, s, a);
    }
  }

  /** How a step of a worker moves events: it gets one from its apply call, and hands it on with the channels. */
  lemma WorkerMovesEvents(db: Db, p: Proc, h: History, phase: WorkerPhase, w: WorkerAction, e: Event)
    requires WorkerEnabled(db, p, phase, w)
    ensures
      var phase', h' := NextPhase(db, p, phase, w), WorkerHistory(db, h, p, phase, w);
      if w.ApplyOk? then
        && h'.returned == h.returned + Emitted(db, ApplyOp(phase.job, phase.check, w.uuid))
        && h'.notified == h.notified && h'.muted == h.muted
        && !HasEvent(phase, e)
        && Emitted(db, ApplyOp(phase.job, phase.check, w.uuid)) == if phase'.Alerting? then [phase'.event] else []
      else if w.ListChannels? then
        && h'.returned == h.returned
        && h'.notified == (if w.some then h.notified + [phase.event] else h.notified)
        && h'.muted == (if w.some then h.muted else h.muted + [phase.event])
        && !HasEvent(phase', e) && phase.Alerting?
      else
        && h'.returned == h.returned && h'.notified == h.notified && h'.muted == h.muted
        && !HasEvent(phase, e) && !HasEvent(phase', e)
  {
  }

  lemma DeliveredAfterApply(w: World, p: Proc, h: History, i: nat, uuid: Id, e: Event)
    requires Delivered(w.events, p, h, e) && i < |p.workers| && WorkerEnabled(w.db, p, p.workers[i], ApplyOk(uuid))
    ensures
      var phase := p.workers[i];
      var more := Emitted(w.db, ApplyOp(phase.job, phase.check, uuid));
      var p', h' := DoWorker(w.db, p, i, ApplyOk(uuid)), WorkerHistory(w.db, h, p, phase, ApplyOk(uuid));
      Delivered(w.events + more, p', h', e)
  {
    var phase := p.workers[i];
    var more := Emitted(w.db, ApplyOp(phase.job, phase.check, uuid));
    MoveEvent(p.workers, i, NextPhase(w.db, p, phase, ApplyOk(uuid)), e);
    WorkerMovesEvents(w.db, p, h, phase, ApplyOk(uuid), e);
    CountAppend(w.events, more, e);
    CountAppend(h.returned, more, e);
  }

  lemma DeliveredAfterOther(w: World, p: Proc, h: History, i: nat, x: WorkerAction, e: Event)
    requires Delivered(w.events, p, h, e) && i < |p.workers| && WorkerEnabled(w.db, p, p.workers[i], x)
    requires !x.ApplyOk?
    ensures Delivered(w.events, DoWorker(w.db, p, i, x), WorkerHistory(w.db, h, p, p.workers[i], x), e)
  {
    var phase := p.workers[i];
    MoveEvent(p.workers, i, NextPhase(w.db, p, phase, x), e);
    WorkerMovesEvents(w.db, p, h, phase, x, e);
    if x.ListChannels? {
      CountAppend(if x.some then h.notified else h.muted, [phase.event], e);
    }
  }

  lemma DeliveredWithMoreEvents(events: seq<Event>, more: seq<Event>, p: Proc, h: History, e: Event)
    requires Delivered(events, p, h, e)
    ensures Delivered(events + more, p, h, e)
  {
    CountAppend(events, more, e);
  }

  /** Only workers hold events, and only they call the notifier. */
  lemma OthersDeliverNothing(c: Config, s: State, a: Action)
    requires Enabled(c, s, a) && !a.Worker?
    ensures DoProc(c, s, a).workers == s.proc.workers
    ensures DoHistory(c, s, a).returned == s.history.returned
    ensures DoHistory(c, s, a).notified == s.history.notified
    ensures DoHistory(c, s, a).muted == s.history.muted
  {
  }

  lemma DeliveredKept(c: Config, s: State, a: Action, e: Event)
    requires Delivered(s.world.events, s.proc, s.history, e) && Enabled(c, s, a)
    ensures Delivered(DoWorld(c, s, a).events, DoProc(c, s, a), DoHistory(c, s, a), e)
  {
    var more := if Committed(c, s, a).Some? then Emitted(s.world.db, Committed(c, s, a).value) else [];
    assert DoWorld(c, s, a).events == s.world.events + more;
    if a.Worker? {
      if a.w.ApplyOk? {
        DeliveredAfterApply(s.world, s.proc, s.history, a.i, a.w.uuid, e);
      } else {
        DeliveredAfterOther(s.world, s.proc, s.history, a.i, a.w, e);
        DeliveredWithMoreEvents(s.world.events, more, DoProc(c, s, a), DoHistory(c, s, a), e);
      }
    } else {
      OthersDeliverNothing(c, s, a);
      DeliveredWithMoreEvents(s.world.events, more, s.proc, s.history, e);
    }
  }

  lemma CommittedIsAllowed(c: Config, s: State, a: Action)
    requires Enabled(c, s, a) && Committed(c, s, a).Some?
    ensures Allowed(s.world.db, Committed(c, s, a).value)
  {
  }

  lemma InvKept(c: Config, s: State, a: Action)
    requires Inv(c, s) && Enabled(c, s, a)
    ensures Inv(c, Do(c, s, a))
  {
    OrderlyKept(c, s, a);
    InOrderKept(c, s, a);
    forall m: Id ensures Accounted(DoProc(c, s, a), DoHistory(c, s, a), m) {
      AccountedKept(c, s, a, m);
    }
    forall e: Event ensures Delivered(DoWorld(c, s, a).events, DoProc(c, s, a), DoHistory(c, s, a), e) {
      DeliveredKept(c, s, a, e);
    }
    if Committed(c, s, a).Some? {
      CommittedIsAllowed(c, s, a);
      ReportedKept(s.world, Committed(c, s, a).value);
    }
  }

  lemma {:induction false} InvThroughout(c: Config, s: State, actions: seq<Action>)
    requires Inv(c, s) && Executable(c, s, actions)
    ensures Inv(c, Final(c, s, actions))
    decreases actions
  {
    if actions != [] {
      InvKept(c, s, actions[0]);
      InvThroughout(c, Do(c, s, actions[0]), actions[1..]);
    }
  }

  // ---------------------------------------------------------------------------------------------
  // Main results
  // ---------------------------------------------------------------------------------------------

  /**
    In every reachable state the claimed jobs are those in the scheduler's hand, in the queue, with
    a worker, finished, or dropped at cancellation, each as often as it was claimed; the queue holds
    at most `QueueSize` jobs; and jobs have been taken from it in exactly the order of the claims.
   */
  lemma JobsConserved(c: Config, actions: seq<Action>, m: Id)
    requires Executable(c, Init(c), actions)
    ensures
      var s := Final(c, Init(c), actions);
      && Count(s.history.claimed, m) ==
         Count(Hand(s.proc), m) + Count(s.proc.queue, m) + Jobs(s.proc.workers, m)
         + Count(s.history.completed, m) + Count(s.history.dropped, m)
      && |s.proc.queue| <= c.queueSize
      && s.history.dequeued <= s.history.claimed
      && (s.history.dropped != [] ==> s.proc.cancelled)
  {
    InvInit(c);
    InvThroughout(c, Init(c), actions);
    var s := Final(c, Init(c), actions);
    var h, p := s.history, s.proc;
    assert Accounted(p, h, m);
    CountAppend(h.dequeued + p.queue + Hand(p), h.dropped, m);
    CountAppend(h.dequeued + p.queue, Hand(p), m);
    CountAppend(h.dequeued, p.queue, m);
    assert h.claimed[..|h.dequeued|] == h.dequeued;
  }

  /**
    In every reachable state each event that an apply call returned is held by one worker, or has
    been handed to the notifier, or its user had no channel (or none could be loaded): none is lost
    in between or doubled.
   */
  lemma EventsConserved(c: Config, actions: seq<Action>, e: Event)
    requires Executable(c, Init(c), actions)
    ensures
      var s := Final(c, Init(c), actions);
      && Count(s.history.returned, e) ==
         Pending(s.proc.workers, e) + Count(s.history.notified, e) + Count(s.history.muted, e)
      && Count(s.history.returned, e) <= Count(s.world.events, e)
  {
    InvInit(c);
    InvThroughout(c, Init(c), actions);
    var s := Final(c, Init(c), actions);
    assert Delivered(s.world.events, s.proc, s.history, e);
  }

  lemma {:induction false} AtMostOnce(events: seq<Event>, e: Event)
    requires NoDuplicates(events)
    ensures Count(events, e) <= 1
  {
    if events != [] {
      var front, last := events[..|events| - 1], events[|events| - 1];
      AtMostOnce(front, e);
      if last == e {
        forall i | 0 <= i < |front| ensures front[i] != e {
          assert KeyOf(events[i]) != KeyOf(events[|events| - 1]);
        }
        CountAbsent(front, e);
      }
    }
  }

  lemma {:induction false} CountMember<T>(s: seq<T>, j: nat)
    requires j < |s|
    ensures Count(s, s[j]) >= 1
  {
    if j < |s| - 1 {
      CountMember(s[..|s| - 1], j);
    }
  }

  lemma {:induction false} CountTwice<T>(s: seq<T>, j: nat, k: nat)
    requires j < k < |s|
    ensures s[j] == s[k] ==> Count(s, s[j]) >= 2
  {
    if k < |s| - 1 {
      CountTwice(s[..|s| - 1], j, k);
    } else {
      CountMember(s[..|s| - 1], j);
    }
  }

  lemma MemberOfCount(events: seq<Event>, e: Event) returns (i: nat)
    requires Count(events, e) >= 1
    ensures i < |events| && events[i] == e
  {
    if events[|events| - 1] == e {
      i := |events| - 1;
    } else {
      i := MemberOfCount(events[..|events| - 1], e);
    }
  }

  /** The notifier is called at most once for each event, whichever workers check the monitor. */
  lemma NotifiedOnce(c: Config, actions: seq<Action>, j: nat, k: nat)
    requires Executable(c, Init(c), actions)
    requires j < k < |Final(c, Init(c), actions).history.notified|
    ensures
      var notified := Final(c, Init(c), actions).history.notified;
      KeyOf(notified[j]) != KeyOf(notified[k])
  {
    InvInit(c);
    InvThroughout(c, Init(c), actions);
    var s := Final(c, Init(c), actions);
    var events, notified := s.world.events, s.history.notified;
    assert Delivered(events, s.proc, s.history, notified[j]) && Delivered(events, s.proc, s.history, notified[k]);
    AtMostOnce(events, notified[j]);
    CountTwice(notified, j, k);
    CountMember(notified, j);
    CountMember(notified, k);
    var x := MemberOfCount(events, notified[j]);
    var y := MemberOfCount(events, notified[k]);
  }

  // ---------------------------------------------------------------------------------------------
  // Committed checks
  // ---------------------------------------------------------------------------------------------

  /** What a step adds to the committed checks. */
  ghost function NewlyApplied(c: Config, s: State, a: Action): seq<Id>
    requires Enabled(c, s, a)
  {
    match Committed(c, s, a)
    case Some(op) =>
      if op.ApplyOp? && ApplyCheck(s.world.db, op.monitor, op.check, op.uuid).1.Ok? then [op.monitor] else []
    case None => []
  }

  lemma AppliedStep(c: Config, s: State, a: Action)
    requires Enabled(c, s, a)
    ensures DoHistory(c, s, a).applied == s.history.applied + NewlyApplied(c, s, a)
  {
  }

  /** The log of a monitor is as long as its committed checks are many; nobody checks what never existed. */
  ghost predicate Logged(db: Db, applied: seq<Id>, m: Id) {
    && (m in db.monitors ==> |ChecksOf(db.checklogs, m)| == Count(applied, m))
    && (m !in db.issued ==> Count(applied, m) == 0)
  }

  lemma LoggedAfterCheck(db: Db, applied: seq<Id>, k: Id, check: CheckResult, uuid: Id, m: Id)
    requires Logged(db, applied, m) && ApplyCheck(db, k, check, uuid).1.Ok? && db.monitors.Keys <= db.issued
    ensures Logged(Step(db, ApplyOp(k, check, uuid)), applied + [k], m)
  {
    CountAppend(applied, [k], m);
    RecordedStep(db, k, check, uuid, m);
  }

  lemma LoggedAfterOther(db: Db, applied: seq<Id>, op: Op, m: Id)
    requires Logged(db, applied, m) && Allowed(db, op) && Wf(db)
    requires op.ApplyOp? ==> ApplyCheck(db, op.monitor, op.check, op.uuid).1.Err?
    ensures Logged(Step(db, op), applied, m)
  {
    IssuedGrows(db, op);
    if m !in db.monitors {
      NoChecksWithoutRow(db.checklogs, m);
      if m in db.issued {
        StaysGone(db, op, m);
      }
    }
    match op
    case DeleteOp(k, _) => ChecksOfWithout(db.checklogs, k, m);
    case _ =>
  }

  lemma LoggedKept(c: Config, s: State, a: Action, m: Id)
    requires Enabled(c, s, a) && Reported(s.world) && Logged(s.world.db, s.history.applied, m)
    ensures Logged(Do(c, s, a).world.db, Do(c, s, a).history.applied, m)
  {
    AppliedStep(c, s, a);
    assert s.history.applied + [] == s.history.applied;
    if Committed(c, s, a).Some? {
      CommittedIsAllowed(c, s, a);
      var op := Committed(c, s, a).value;
      if NewlyApplied(c, s, a) == [] {
        LoggedAfterOther(s.world.db, s.history.applied, op, m);
      } else {
        LoggedAfterCheck(s.world.db, s.history.applied, op.monitor, op.check, op.uuid, m);
      }
    }
  }

  lemma {:induction false} LoggedThroughout(c: Config, s: State, actions: seq<Action>, m: Id)
    requires Inv(c, s) && Executable(c, s, actions) && Logged(s.world.db, s.history.applied, m)
    ensures Logged(Final(c, s, actions).world.db, Final(c, s, actions).history.applied, m)
    decreases actions
  {
    if actions != [] {
      LoggedKept(c, s, actions[0], m);
      InvKept(c, s, actions[0]);
      LoggedThroughout(c, Do(c, s, actions[0]), actions[1..], m);
    }
  }

  /** In every reachable state the log of a monitor holds as many checks as were committed, by whichever process. */
  lemma AppliedIsLogged(c: Config, actions: seq<Action>, m: Id)
    requires Executable(c, Init(c), actions) && m in Final(c, Init(c), actions).world.db.monitors
    ensures
      var s := Final(c, Init(c), actions);
      Count(s.history.applied, m) == |ChecksOf(s.world.db.checklogs, m)|
  {
    InvInit(c);
    LoggedThroughout(c, Init(c), actions, m);
  }

  // ---------------------------------------------------------------------------------------------
  // Disabling a monitor
  // ---------------------------------------------------------------------------------------------

  /** All copies of a job that any process has claimed and not yet applied. */
  ghost function InFlight(s: State, m: Id): nat {
    Count(Hand(s.proc), m) + Count(s.proc.queue, m) + Jobs(s.proc.workers, m) + s.foreign[m]
  }

  ghost predicate Unclaimable(s: State, m: Id) {
    m in s.world.db.monitors ==> !s.world.db.monitors[m].enabled
  }

  lemma NotSelected(db: Db, now: Time, limit: nat, skipped: set<Id>, ids: seq<Id>, m: Id)
    requires IsClaimSelection(db, now, limit, skipped, ids)
    requires m in db.monitors ==> !db.monitors[m].enabled
    ensures multiset(ids)[m] == 0 && Count(ids, m) == 0
  {
    assert m !in Candidates(db, now, skipped);
    assert m !in ids;
    CountAbsent(ids, m);
  }

  lemma FlightLandsByWorker(db: Db, p: Proc, h: History, i: nat, w: WorkerAction, m: Id)
    requires i < |p.workers| && WorkerEnabled(db, p, p.workers[i], w)
    ensures
      var p', h' := DoWorker(db, p, i, w), WorkerHistory(db, h, p, p.workers[i], w);
      Count(p'.queue, m) + Jobs(p'.workers, m) + Count(h'.applied, m) <=
      Count(p.queue, m) + Jobs(p.workers, m) + Count(h.applied, m)
  {
    MoveJob(p.workers, i, NextPhase(db, p, p.workers[i], w), m);
    if w.Dequeue? {
      assert p.queue == [p.queue[0]] + p.queue[1..];
      CountAppend([p.queue[0]], p.queue[1..], m);
    } else if p.workers[i].Applying? {
      CountAppend(h.applied, [p.workers[i].job], m);
    }
  }

  lemma FlightKeptByScheduler(c: Config, db: Db, p: Proc, x: SchedulerAction, m: Id)
    requires SchedulerEnabled(c, db, p, x) && (m in db.monitors ==> !db.monitors[m].enabled)
    ensures
      var p' := DoScheduler(c, db, p, x);
      Count(Hand(p'), m) + Count(p'.queue, m) <= Count(Hand(p), m) + Count(p.queue, m) && p'.workers == p.workers
  {
    if x.ClaimOk? {
      NotSelected(db, x.now, c.batchSize, x.skipped, x.ids, m);
    } else if x.Push? {
      var batch := p.scheduler.batch;
      assert batch == [batch[0]] + batch[1..];
      CountAppend([batch[0]], batch[1..], m);
      CountAppend(p.queue, [batch[0]], m);
    }
  }

  lemma FlightLandsByEnvironment(db: Db, foreign: multiset<Id>, h: History, e: EnvironmentAction, m: Id)
    requires EnvironmentEnabled(db, foreign, e) && (m in db.monitors ==> !db.monitors[m].enabled)
    ensures
      var foreign', h' := DoForeign(foreign, Environment(e)), EnvironmentHistory(db, h, e);
      foreign'[m] + Count(h'.applied, m) <= foreign[m] + Count(h.applied, m)
  {
    if e.ForeignClaim? {
      NotSelected(db, e.now, e.limit, e.skipped, e.ids, m);
    } else if e.ForeignApply? {
      CountAppend(h.applied, [e.monitor], m);
    }
  }

  lemma FlightOnlyLands(c: Config, s: State, a: Action, m: Id)
    requires Enabled(c, s, a) && Unclaimable(s, m)
    ensures
      var s' := Do(c, s, a);
      InFlight(s', m) + Count(s'.history.applied, m) <= InFlight(s, m) + Count(s.history.applied, m)
  {
    match a
    case Worker(i, w) => FlightLandsByWorker(s.world.db, s.proc, s.history, i, w, m);
    case Scheduler(x) => FlightKeptByScheduler(c, s.world.db, s.proc, x, m);
    case Run(_) =>
    case Environment(e) => FlightLandsByEnvironment(s.world.db, s.foreign, s.history, e, m);
  }

  /** Another process may lose a job it has claimed: one copy less is in flight, and nothing else changes. */
  lemma ForeignJobLost(c: Config, s: State, m: Id)
    requires m in s.foreign
    ensures Enabled(c, s, Environment(ForeignDrop(m)))
    ensures
      var s' := Do(c, s, Environment(ForeignDrop(m)));
      InFlight(s', m) == InFlight(s, m) - 1 && s' == s.(foreign := s.foreign - multiset{m})
  {
  }

  ghost predicate UnclaimableThroughout(c: Config, s: State, actions: seq<Action>, m: Id)
    requires Executable(c, s, actions)
    decreases actions
  {
    Unclaimable(s, m) && (actions != [] ==> UnclaimableThroughout(c, Do(c, s, actions[0]), actions[1..], m))
  }

  /**
    While a monitor stays disabled, the checks of it that still commit, by any process, are at most
    the copies of it that were in flight when it was disabled.
   */
  lemma {:induction false} DisabledMonitorWindsDown(c: Config, s: State, actions: seq<Action>, m: Id)
    requires Executable(c, s, actions) && UnclaimableThroughout(c, s, actions, m)
    ensures
      var s' := Final(c, s, actions);
      Count(s'.history.applied, m) + InFlight(s', m) <= Count(s.history.applied, m) + InFlight(s, m)
    decreases actions
  {
    if actions != [] {
      FlightOnlyLands(c, s, actions[0], m);
      DisabledMonitorWindsDown(c, Do(c, s, actions[0]), actions[1..], m);
    }
  }
}
