/**
  The worker process of `Runner` on the statement-level database of `Transactions`: claims and applies
  are no single steps here, but transactions whose statements interleave with everybody else's. Only
  when a transaction commits can the call that runs it return success. Every run of the two together is
  a run of `Runner`, so what holds of that machine holds of the process on the real database.
 */
module JointSystem {
  import opened Common
  import opened Health
  import opened Tables
  import opened Runs
  import T = Transactions
  import P = Progress
  import R = Runner
  import RunnerSafety
  import RunnerLiveness
  import Reports

  datatype State = State(statements: T.State, process: R.State)

  /**
    A statement that nobody else can see yet, a step of a process that touches no table, or a commit (or
    a single statement of the API) together with what the process makes of it.
   */
  datatype Action =
    | Statement(a: T.Action)
    | Local(r: R.Action)
    | Commits(a: T.Action, r: R.Action)

  /** Is the process about to learn of a commit in the way `r` says? Nothing is asked of the tables. */
  ghost predicate Ready(p: R.Proc, foreign: multiset<Id>, r: R.Action) {
    match r
    case Scheduler(x) =>
      (match x
       case ClaimOk(_, _, _) => p.scheduler == R.Claiming(false)
       case ClaimLost(_, _, _, canceled) => R.ClaimFails(p, canceled) && !p.scheduler.late
       case _ => false)
    case Worker(i, w) => (w.ApplyOk? || w.ApplyLost?) && i < |p.workers| && p.workers[i].Applying?
    case Run(_) => false
    case Environment(e) =>
      match e
      case ForeignClaim(_, _, _, _) => true
      case ForeignApply(m, _, _) => m in foreign
      case Api(op) => !op.ClaimOp? && !op.ApplyOp?
      case _ => false
  }

  /** The operation that the process takes to have been committed. */
  ghost function Operation(c: R.Config, p: R.Proc, foreign: multiset<Id>, r: R.Action): Op
    requires Ready(p, foreign, r)
  {
    match r
    case Scheduler(x) =>
      (match x
       case ClaimOk(now, skipped, ids) => ClaimOp(now, c.batchSize, skipped, ids)
       case ClaimLost(now, skipped, ids, _) => ClaimOp(now, c.batchSize, skipped, ids))
    case Worker(i, w) =>
      ApplyOp(p.workers[i].job, p.workers[i].check, w.uuid)
    case Environment(e) =>
      match e
      case ForeignClaim(now, limit, skipped, ids) => ClaimOp(now, limit, skipped, ids)
      case ForeignApply(m, check, uuid) => ApplyOp(m, check, uuid)
      case Api(op) => op
  }

  ghost predicate Enabled(c: R.Config, s: State, x: Action) {
    match x
    case Statement(a) => T.Enabled(s.statements, a) && T.Visible(s.statements, a) == None
    case Local(r) => R.Enabled(c, s.process, r) && R.Committed(c, s.process, r) == None
    case Commits(a, r) =>
      && T.Enabled(s.statements, a)
      && Ready(s.process.proc, s.process.foreign, r)
      && T.Visible(s.statements, a) == Some(Operation(c, s.process.proc, s.process.foreign, r))
  }

  /** Both halves see the same committed tables. */
  ghost predicate Linked(s: State) {
    T.Inv(s.statements) && s.process.world.db == s.statements.db
  }

  /** A commit of a check has recorded it. */
  lemma CommittedCheckRecorded(s: T.State, a: T.Action)
    requires T.Inv(s) && T.Enabled(s, a) && T.Visible(s, a).Some? && T.Visible(s, a).value.ApplyOp?
    ensures
      var op := T.Visible(s, a).value;
      ApplyCheck(s.db, op.monitor, op.check, op.uuid).1.Ok?
  {
    assert T.TxRight(s.db, s.txs[a.t]);
    T.ApplyCommits(s.db, s.txs[a.t]);
  }

  /** A commit the process learns of is a step of `Runner`, with the same effect on the tables. */
  lemma CommitIsStep(c: R.Config, s: State, a: T.Action, r: R.Action)
    requires Linked(s) && Enabled(c, s, Commits(a, r))
    ensures R.Enabled(c, s.process, r)
    ensures R.Committed(c, s.process, r) == T.Visible(s.statements, a)
    ensures R.Do(c, s.process, r).world.db == T.Do(s.statements, a).db
  {
    T.StepReduces(s.statements, a);
    if T.Visible(s.statements, a).value.ApplyOp? {
      CommittedCheckRecorded(s.statements, a);
    }
  }

  /** Conversely, every step of `Runner` is one here: on its own if it touches no table, else with a fitting commit. */
  lemma StepIsJoint(c: R.Config, s: State, r: R.Action)
    requires R.Enabled(c, s.process, r)
    ensures R.Committed(c, s.process, r) == None ==> Enabled(c, s, Local(r))
    ensures R.Committed(c, s.process, r).Some? ==>
              forall a :: T.Enabled(s.statements, a) && T.Visible(s.statements, a) == R.Committed(c, s.process, r) ==>
                Enabled(c, s, Commits(a, r))
  {
  }

  ghost function Do(c: R.Config, s: State, x: Action): State
    requires Linked(s) && Enabled(c, s, x)
  {
    match x
    case Statement(a) => s.(statements := T.Do(s.statements, a))
    case Local(r) => s.(process := R.Do(c, s.process, r))
    case Commits(a, r) =>
      CommitIsStep(c, s, a, r);
      State(T.Do(s.statements, a), R.Do(c, s.process, r))
  }

  lemma LinkKept(c: R.Config, s: State, x: Action)
    requires Linked(s) && Enabled(c, s, x)
    ensures Linked(Do(c, s, x))
  {
    match x
    case Statement(a) =>
      T.InvKept(s.statements, a);
      T.StepReduces(s.statements, a);
    case Local(_) =>
    case Commits(a, r) =>
      T.InvKept(s.statements, a);
      CommitIsStep(c, s, a, r);
  }

  ghost function Init(c: R.Config): State {
    State(T.State(EMPTY, map[]), R.Init(c))
  }

  ghost predicate Executable(c: R.Config, s: State, actions: seq<Action>)
    requires Linked(s)
    decreases actions
  {
    actions == [] ||
      (Enabled(c, s, actions[0]) && (LinkKept(c, s, actions[0]); Executable(c, Do(c, s, actions[0]), actions[1..])))
  }

  ghost function Final(c: R.Config, s: State, actions: seq<Action>): State
    requires Linked(s) && Executable(c, s, actions)
    decreases actions
  {
    if actions == [] then s
    else
      LinkKept(c, s, actions[0]);
      Final(c, Do(c, s, actions[0]), actions[1..])
  }

  /** The statements of a run, and the steps of the process. */
  function Statements(actions: seq<Action>): seq<T.Action> {
    if actions == [] then []
    else (if actions[0].Local? then [] else [actions[0].a]) + Statements(actions[1..])
  }

  function Steps(actions: seq<Action>): seq<R.Action> {
    if actions == [] then []
    else (if actions[0].Statement? then [] else [actions[0].r]) + Steps(actions[1..])
  }

  lemma StatementsCons(s: T.State, a: T.Action, rest: seq<T.Action>)
    requires T.Enabled(s, a) && T.Executable(T.Do(s, a), rest)
    ensures T.Executable(s, [a] + rest) && T.Final(s, [a] + rest) == T.Final(T.Do(s, a), rest)
  {
    assert ([a] + rest)[1..] == rest;
  }

  lemma StepsCons(c: R.Config, s: R.State, r: R.Action, rest: seq<R.Action>)
    requires R.Enabled(c, s, r) && R.Executable(c, R.Do(c, s, r), rest)
    ensures R.Executable(c, s, [r] + rest) && R.Final(c, s, [r] + rest) == R.Final(c, R.Do(c, s, r), rest)
  {
    assert ([r] + rest)[1..] == rest;
  }

  /** One step is a statement or none, and a step of the process or none. */
  lemma StepProjects(c: R.Config, s: State, x: Action)
    requires Linked(s) && Enabled(c, s, x)
    ensures if x.Local? then Do(c, s, x).statements == s.statements
            else T.Enabled(s.statements, x.a) && Do(c, s, x).statements == T.Do(s.statements, x.a)
    ensures if x.Statement? then Do(c, s, x).process == s.process
            else R.Enabled(c, s.process, x.r) && Do(c, s, x).process == R.Do(c, s.process, x.r)
  {
    if x.Commits? {
      CommitIsStep(c, s, x.a, x.r);
    }
  }

  lemma {:induction false} StatementsRefine(c: R.Config, s: State, actions: seq<Action>)
    requires Linked(s) && Executable(c, s, actions)
    ensures T.Executable(s.statements, Statements(actions))
    ensures T.Final(s.statements, Statements(actions)) == Final(c, s, actions).statements
    decreases actions
  {
    if actions != [] {
      var x, rest := actions[0], actions[1..];
      LinkKept(c, s, x);
      StepProjects(c, s, x);
      StatementsRefine(c, Do(c, s, x), rest);
      if x.Local? {
        assert Statements(actions) == Statements(rest);
      } else {
        assert Statements(actions) == [x.a] + Statements(rest);
        StatementsCons(s.statements, x.a, Statements(rest));
      }
    }
  }

  lemma {:induction false} StepsRefine(c: R.Config, s: State, actions: seq<Action>)
    requires Linked(s) && Executable(c, s, actions)
    ensures R.Executable(c, s.process, Steps(actions))
    ensures R.Final(c, s.process, Steps(actions)) == Final(c, s, actions).process
    decreases actions
  {
    if actions != [] {
      var x, rest := actions[0], actions[1..];
      LinkKept(c, s, x);
      StepProjects(c, s, x);
      StepsRefine(c, Do(c, s, x), rest);
      if x.Statement? {
        assert Steps(actions) == Steps(rest);
      } else {
        assert Steps(actions) == [x.r] + Steps(rest);
        StepsCons(c, s.process, x.r, Steps(rest));
      }
    }
  }

  lemma {:induction false} LinkThroughout(c: R.Config, s: State, actions: seq<Action>)
    requires Linked(s) && Executable(c, s, actions)
    ensures Linked(Final(c, s, actions))
    decreases actions
  {
    if actions != [] {
      LinkKept(c, s, actions[0]);
      LinkThroughout(c, Do(c, s, actions[0]), actions[1..]);
    }
  }

  /**
    Refinement: seen from the database a run of the joint system is an interleaving of statements, seen from
    the process it is a run of `Runner`, and both end with the same tables.
   */
  lemma JointRunRefines(c: R.Config, actions: seq<Action>)
    requires Executable(c, Init(c), actions)
    ensures
      var s := Final(c, Init(c), actions);
      && T.Executable(T.State(EMPTY, map[]), Statements(actions))
      && T.Final(T.State(EMPTY, map[]), Statements(actions)) == s.statements
      && R.Executable(c, R.Init(c), Steps(actions))
      && R.Final(c, R.Init(c), Steps(actions)) == s.process
      && s.process.world.db == s.statements.db
  {
    StatementsRefine(c, Init(c), actions);
    StepsRefine(c, Init(c), actions);
    LinkThroughout(c, Init(c), actions);
  }

  /** So jobs and events are conserved, and no event is notified twice, when claims and applies take many statements. */
  lemma JointRunIsSafe(c: R.Config, actions: seq<Action>, m: Id, e: Event)
    requires Executable(c, Init(c), actions)
    ensures
      var s := Final(c, Init(c), actions).process;
      && RunnerSafety.Count(s.history.claimed, m) ==
         RunnerSafety.Count(RunnerSafety.Hand(s.proc), m) + RunnerSafety.Count(s.proc.queue, m)
         + RunnerSafety.Jobs(s.proc.workers, m)
         + RunnerSafety.Count(s.history.completed, m) + RunnerSafety.Count(s.history.dropped, m)
      && RunnerSafety.Count(s.history.returned, e) ==
         RunnerSafety.Pending(s.proc.workers, e)
         + RunnerSafety.Count(s.history.notified, e) + RunnerSafety.Count(s.history.muted, e)
      && (forall j, k :: 0 <= j < k < |s.history.notified| ==>
            Reports.KeyOf(s.history.notified[j]) != Reports.KeyOf(s.history.notified[k]))
      && (s.proc.main == R.Returned(false) ==> R.AllDone(s.proc))
  {
    JointRunRefines(c, actions);
    var steps := Steps(actions);
    RunnerSafety.JobsConserved(c, steps, m);
    RunnerSafety.EventsConserved(c, steps, e);
    var s := Final(c, Init(c), actions).process;
    forall j, k | 0 <= j < k < |s.history.notified|
      ensures Reports.KeyOf(s.history.notified[j]) != Reports.KeyOf(s.history.notified[k])
    {
      RunnerSafety.NotifiedOnce(c, steps, j, k);
    }
    RunnerLiveness.NilMeansAllDone(c, steps);
  }

  // ---------------------------------------------------------------------------------------------
  // Calls go through
  // ---------------------------------------------------------------------------------------------

  function Wrapped(statements: seq<T.Action>): seq<Action> {
    if statements == [] then [] else [Statement(statements[0])] + Wrapped(statements[1..])
  }

  lemma OneMore(c: R.Config, s: State, x: Action, rest: seq<Action>)
    requires Linked(s) && Enabled(c, s, x) && Linked(Do(c, s, x)) && Executable(c, Do(c, s, x), rest)
    ensures Executable(c, s, [x] + rest) && Final(c, s, [x] + rest) == Final(c, Do(c, s, x), rest)
  {
    assert ([x] + rest)[1..] == rest;
  }

  /** Statements that nobody can see yet, and then a commit that the process learns of. */
  lemma {:induction false} StatementsThenCommit(
      c: R.Config, s: State, first: seq<T.Action>, mid: T.State, a: T.Action, r: R.Action)
    requires Linked(s) && P.Leads(s.statements, first, mid, [])
    requires Enabled(c, State(mid, s.process), Commits(a, r)) && Linked(State(mid, s.process))
    ensures Executable(c, s, Wrapped(first) + [Commits(a, r)])
    ensures Final(c, s, Wrapped(first) + [Commits(a, r)]) == Do(c, State(mid, s.process), Commits(a, r))
    decreases first
  {
    if first == [] {
      assert s == State(mid, s.process);
      LinkKept(c, s, Commits(a, r));
      OneMore(c, s, Commits(a, r), []);
      assert Wrapped(first) + [Commits(a, r)] == [Commits(a, r)] + [];
    } else {
      var x, rest := Statement(first[0]), Wrapped(first[1..]) + [Commits(a, r)];
      SilentHead(s.statements, first, mid);
      LinkKept(c, s, x);
      StatementsThenCommit(c, Do(c, s, x), first[1..], mid, a, r);
      OneMore(c, s, x, rest);
      assert Wrapped(first) + [Commits(a, r)] == [x] + rest;
    }
  }

  lemma SilentHead(s: T.State, first: seq<T.Action>, mid: T.State)
    requires first != [] && P.Leads(s, first, mid, [])
    ensures T.Enabled(s, first[0]) && T.Visible(s, first[0]) == None
    ensures P.Leads(T.Do(s, first[0]), first[1..], mid, [])
  {
  }

  /** What the process makes of the commit of its worker's apply transaction. */
  lemma ApplyReturns(c: R.Config, s: State, mid: T.State, i: nat, t: T.TxId, uuid: Id)
    requires Linked(s) && i < |s.process.proc.workers| && s.process.proc.workers[i].Applying? && t !in s.statements.txs
    requires T.Inv(mid)
    requires P.ReadyToCommit(
      s.statements, mid, t, s.process.proc.workers[i].job, s.process.proc.workers[i].check, uuid)
    ensures
      var phase, x := s.process.proc.workers[i], Commits(T.Commit(t), R.Worker(i, R.ApplyOk(uuid)));
      && Linked(State(mid, s.process)) && Enabled(c, State(mid, s.process), x)
      && var s', applied := Do(c, State(mid, s.process), x), ApplyCheck(s.statements.db, phase.job, phase.check, uuid);
      && applied.1.Ok?
      && s'.statements == T.State(applied.0, s.statements.txs)
      && s'.process.proc == s.process.proc.(workers := s.process.proc.workers[i := R.AfterApply(applied.1.value)])
  {
    CommittedCheckRecorded(mid, T.Commit(t));
    CommitIsStep(c, State(mid, s.process), T.Commit(t), R.Worker(i, R.ApplyOk(uuid)));
    T.StepReduces(mid, T.Commit(t));
    assert mid.txs - {t} == s.statements.txs;
  }

  /**
    A worker's apply call goes through: unless its row is locked, its statements can run and commit, the call
    returns, and the worker goes on with the event.
   */
  lemma ApplyCallGoesThrough(c: R.Config, s: State, i: nat, t: T.TxId, uuid: Id) returns (actions: seq<Action>)
    requires Linked(s) && i < |s.process.proc.workers| && s.process.proc.workers[i].Applying?
    requires P.NotInTheWay(s.statements, t, s.process.proc.workers[i].job, uuid)
    requires ApplyCheck(s.statements.db, s.process.proc.workers[i].job, s.process.proc.workers[i].check, uuid).1.Ok?
    ensures Executable(c, s, actions)
    ensures
      var phase, s' := s.process.proc.workers[i], Final(c, s, actions);
      var applied := ApplyCheck(s.statements.db, phase.job, phase.check, uuid);
      && s'.statements == T.State(applied.0, s.statements.txs)
      && s'.process.proc == s.process.proc.(workers := s.process.proc.workers[i := R.AfterApply(applied.1.value)])
  {
    var phase := s.process.proc.workers[i];
    var first := P.ApplyStatements(t, phase.job, phase.check, uuid);
    var mid := P.StatementsGoThrough(s.statements, t, phase.job, phase.check, uuid);
    P.InvAlong(s.statements, first, mid, []);
    ApplyReturns(c, s, mid, i, t, uuid);
    StatementsThenCommit(c, s, first, mid, T.Commit(t), R.Worker(i, R.ApplyOk(uuid)));
    actions := Wrapped(first) + [Commits(T.Commit(t), R.Worker(i, R.ApplyOk(uuid)))];
  }

  /** What the process makes of the commit of its claim. */
  lemma ClaimReturns(c: R.Config, s: State, mid: T.State, t: T.TxId, now: Time, ids: seq<Id>) returns (r: R.Action)
    requires Linked(s) && s.process.proc.scheduler == R.Claiming(false) && t !in s.statements.txs
    requires T.Inv(mid) && P.Claiming(s.statements, mid, t, now, c.batchSize, ids, |ids|)
    ensures Linked(State(mid, s.process)) && Enabled(c, State(mid, s.process), Commits(T.Commit(t), r))
    ensures
      var s' := Do(c, State(mid, s.process), Commits(T.Commit(t), r));
      && s'.statements.txs == s.statements.txs
      && s'.statements.db.monitors == Reschedule(s.statements.db.monitors, SetOf(ids), now)
      && s'.process.proc == s.process.proc.(scheduler := R.Pushing(ids))
  {
    r := R.Scheduler(R.ClaimOk(now, T.PassedOver(mid.db, mid.txs[t]), ids));
    CommitIsStep(c, State(mid, s.process), T.Commit(t), r);
    T.StepReduces(mid, T.Commit(t));
    assert mid.txs - {t} == s.statements.txs - {t} == s.statements.txs;
  }

  /** The scheduler's claim call goes through, whatever rows are locked: it returns the rows its query selects. */
  lemma ClaimCallGoesThrough(c: R.Config, s: State, t: T.TxId, now: Time, ids: seq<Id>) returns (actions: seq<Action>)
    requires Linked(s) && s.process.proc.scheduler == R.Claiming(false) && t !in s.statements.txs
    requires IsClaimSelection(s.statements.db, now, c.batchSize, T.LockedRows(s.statements), ids)
    ensures Executable(c, s, actions)
    ensures
      var s' := Final(c, s, actions);
      && s'.statements.txs == s.statements.txs
      && s'.statements.db.monitors == Reschedule(s.statements.db.monitors, SetOf(ids), now)
      && s'.process.proc == s.process.proc.(scheduler := R.Pushing(ids))
  {
    var first, mid := P.ClaimStatementsGoThrough(s.statements, t, now, c.batchSize, ids);
    var r := ClaimReturns(c, s, mid, t, now, ids);
    StatementsThenCommit(c, s, first, mid, T.Commit(t), r);
    actions := Wrapped(first) + [Commits(T.Commit(t), r)];
  }
}
