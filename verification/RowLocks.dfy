/**
  What row locks achieve in the interleaved system of `Transactions`: they order the checks of each
  monitor, and they never deadlock.
 */
module RowLocks {
  import opened Common
  import opened Health
  import opened Tables
  import opened Runs
  import opened Transactions

  // ---------------------------------------------------------------------------------------------
  // Row locks order the checks of a monitor
  // ---------------------------------------------------------------------------------------------

  ghost predicate Ends(a: Action, t: TxId) {
    a == Commit(t) || a == Rollback(t)
  }

  ghost predicate Holds(s: State, t: TxId, m: Id) {
    t in s.txs && m in s.txs[t].rows
  }

  lemma {:induction false} HoldsUntilEnd(s: State, actions: seq<Action>, t: TxId, m: Id)
    requires Inv(s) && Executable(s, actions) && Holds(s, t, m)
    requires forall i :: 0 <= i < |actions| ==> !Ends(actions[i], t)
    ensures Holds(Final(s, actions), t, m)
    decreases actions
  {
    if actions != [] {
      InvKept(s, actions[0]);
      assert TxRight(s.db, s.txs[t]);
      assert Holds(Do(s, actions[0]), t, m);
      HoldsUntilEnd(Do(s, actions[0]), actions[1..], t, m);
    }
  }

  /** Between two transactions locking the row of the same monitor the first one ends. */
  lemma LockReleasedInBetween(s: State, actions: seq<Action>, t: TxId, u: TxId, m: Id)
    requires Inv(s) && Executable(s, actions) && Holds(s, t, m) && t != u
    requires
      var s' := Final(s, actions);
      Enabled(s', LockRow(u)) && s'.txs[u].monitor == m
    ensures exists i :: 0 <= i < |actions| && Ends(actions[i], t)
  {
    if forall i :: 0 <= i < |actions| ==> !Ends(actions[i], t) {
      HoldsUntilEnd(s, actions, t, m);
      assert LockedByOther(Final(s, actions), Some(u), m);
    }
  }

  /** Transaction `t` ends with a commit. */
  ghost predicate Commits(actions: seq<Action>, t: TxId) {
    actions != [] && if Ends(actions[0], t) then actions[0].Commit? else Commits(actions[1..], t)
  }

  /** The operation that an apply transaction is going to commit. */
  function ApplyOpOf(tx: Tx): Op
    requires tx.ApplyTx?
  {
    ApplyOp(tx.monitor, tx.check, tx.uuid)
  }

  function ChecksOn(ops: seq<Op>, m: Id): seq<Op> {
    if ops == [] then [] else (if IsCheckOf(ops[0], m) then [ops[0]] else []) + ChecksOn(ops[1..], m)
  }

  /** Does the step lock the row of `m` for an apply transaction? */
  ghost predicate Locks(s: State, a: Action, m: Id)
    requires Enabled(s, a)
  {
    a.LockRow? && s.txs[a.t].monitor == m && m in s.db.monitors
  }

  /** The check of `m` whose transaction locks the row in this step and goes on to commit. */
  ghost function Locking(s: State, a: Action, rest: seq<Action>, m: Id): seq<Op>
    requires Enabled(s, a)
  {
    if Locks(s, a, m) && Commits(rest, a.t) then [ApplyOpOf(s.txs[a.t])] else []
  }

  /** The check of `m` that this step commits. */
  ghost function Committing(s: State, a: Action, m: Id): seq<Op>
    requires Enabled(s, a)
  {
    var v := Visible(s, a);
    if v.Some? && IsCheckOf(v.value, m) then [v.value] else []
  }

  /** The checks of a monitor whose transactions commit, in the order in which they lock its row. */
  ghost function LockOrder(s: State, actions: seq<Action>, m: Id): seq<Op>
    requires Executable(s, actions)
    decreases actions
  {
    if actions == [] then []
    else
      Locking(s, actions[0], actions[1..], m) + LockOrder(Do(s, actions[0]), actions[1..], m)
  }

  ghost predicate HoldsForApply(s: State, t: TxId, m: Id) {
    t in s.txs && s.txs[t].ApplyTx? && s.txs[t].stage != Begun && s.txs[t].monitor == m
  }

  /** `holder` is the apply transaction that has locked the row of `m`, if there is one. */
  ghost predicate IsHolder(s: State, m: Id, holder: Option<TxId>) {
    forall t: TxId :: HoldsForApply(s, t, m) <==> holder == Some(t)
  }

  ghost predicate HolderIsApply(s: State, holder: Option<TxId>) {
    holder.Some? ==> holder.value in s.txs && s.txs[holder.value].ApplyTx?
  }

  /** What the holder of the lock still has to commit. */
  ghost function Outstanding(s: State, actions: seq<Action>, holder: Option<TxId>): seq<Op>
    requires HolderIsApply(s, holder)
  {
    if holder.Some? && Commits(actions, holder.value) then [ApplyOpOf(s.txs[holder.value])] else []
  }

  ghost function HolderAfter(s: State, a: Action, m: Id, holder: Option<TxId>): Option<TxId>
    requires Enabled(s, a)
  {
    if Locks(s, a, m) then Some(a.t)
    else if holder.Some? && Ends(a, holder.value) then None
    else holder
  }

  /** A transaction that is not concerned by a step is what it was. */
  lemma StepFrame(s: State, a: Action, t: TxId)
    requires Enabled(s, a) && (a.Api? || a.t != t)
    ensures t in Do(s, a).txs <==> t in s.txs
    ensures t in s.txs ==> Do(s, a).txs[t] == s.txs[t]
  {
  }

  ghost predicate TxRightAt(s: State, t: TxId) {
    t in s.txs ==> TxRight(s.db, s.txs[t])
  }

  /** What a step makes of its own apply transaction. */
  lemma OwnApplyStep(s: State, a: Action, m: Id)
    requires Enabled(s, a) && !a.Api? && TxRightAt(s, a.t)
    ensures HoldsForApply(Do(s, a), a.t, m) <==>
              Locks(s, a, m) || (HoldsForApply(s, a.t, m) && !Ends(a, a.t))
    ensures HoldsForApply(s, a.t, m) && !Ends(a, a.t) ==> ApplyOpOf(Do(s, a).txs[a.t]) == ApplyOpOf(s.txs[a.t])
    ensures Locks(s, a, m) ==> ApplyOpOf(Do(s, a).txs[a.t]) == ApplyOpOf(s.txs[a.t])
  {
  }

  /** Locking a row excludes that another transaction holds it. */
  lemma LockExcludesHolder(s: State, a: Action, m: Id, u: TxId)
    requires Inv(s) && Enabled(s, a) && Locks(s, a, m)
    ensures !HoldsForApply(s, u, m)
  {
    assert !LockedByOther(s, Some(a.t), m);
    if u in s.txs {
      assert TxRight(s.db, s.txs[u]);
    }
  }

  lemma HolderKeptAt(s: State, a: Action, m: Id, holder: Option<TxId>, t: TxId)
    requires Enabled(s, a) && TxRightAt(s, t)
    requires HoldsForApply(s, t, m) <==> holder == Some(t)
    requires Locks(s, a, m) ==> holder == None
    ensures HoldsForApply(Do(s, a), t, m) <==> HolderAfter(s, a, m, holder) == Some(t)
  {
    if a.Api? || a.t != t {
      StepFrame(s, a, t);
    } else {
      OwnApplyStep(s, a, m);
    }
  }

  lemma HolderKept(s: State, a: Action, m: Id, holder: Option<TxId>)
    requires Inv(s) && Enabled(s, a) && IsHolder(s, m, holder)
    ensures IsHolder(Do(s, a), m, HolderAfter(s, a, m, holder))
    ensures Locks(s, a, m) ==> holder == None
  {
    if Locks(s, a, m) && holder.Some? {
      LockExcludesHolder(s, a, m, holder.value);
    }
    forall t: TxId ensures HoldsForApply(Do(s, a), t, m) <==> HolderAfter(s, a, m, holder) == Some(t) {
      assert HoldsForApply(s, t, m) <==> holder == Some(t);
      HolderKeptAt(s, a, m, holder, t);
    }
  }

  /** A check of `m` becomes visible exactly when the holder of its lock commits. */
  lemma VisibleCheck(s: State, a: Action, m: Id, holder: Option<TxId>)
    requires Inv(s) && Enabled(s, a) && IsHolder(s, m, holder)
    ensures HolderIsApply(s, holder)
    ensures Committing(s, a, m) ==
            if holder.Some? && a == Commit(holder.value) then [ApplyOpOf(s.txs[holder.value])] else []
  {
    assert holder.Some? ==> HoldsForApply(s, holder.value, m);
    if a.Commit? {
      assert HoldsForApply(s, a.t, m) <==> holder == Some(a.t);
    }
  }

  lemma ChecksOnSerial(s: State, actions: seq<Action>, m: Id)
    requires Executable(s, actions) && actions != []
    ensures ChecksOn(Serial(s, actions), m) ==
            Committing(s, actions[0], m) + ChecksOn(Serial(Do(s, actions[0]), actions[1..]), m)
  {
    var rest := Serial(Do(s, actions[0]), actions[1..]);
    if Visible(s, actions[0]).Some? {
      assert ([Visible(s, actions[0]).value] + rest)[1..] == rest;
    }
  }

  /** A check that is locked and not ended by a step stays what it is. */
  lemma SameOp(s: State, a: Action, m: Id, t: TxId)
    requires Inv(s) && Enabled(s, a) && !Ends(a, t)
    requires HoldsForApply(s, t, m) || (Locks(s, a, m) && a.t == t)
    ensures t in Do(s, a).txs && Do(s, a).txs[t].ApplyTx? && ApplyOpOf(Do(s, a).txs[t]) == ApplyOpOf(s.txs[t])
  {
    assert TxRightAt(s, t);
    if a.Api? || a.t != t {
      StepFrame(s, a, t);
    } else {
      OwnApplyStep(s, a, m);
    }
  }

  /** Whatever a step commits was outstanding, and whatever becomes outstanding is locked by it. */
  lemma OutstandingStep(s: State, a: Action, rest: seq<Action>, m: Id, holder: Option<TxId>)
    requires Inv(s) && Enabled(s, a) && IsHolder(s, m, holder)
    requires Locks(s, a, m) ==> holder == None
    ensures HolderIsApply(s, holder) && HolderIsApply(Do(s, a), HolderAfter(s, a, m, holder))
    ensures Committing(s, a, m) + Outstanding(Do(s, a), rest, HolderAfter(s, a, m, holder)) ==
            Outstanding(s, [a] + rest, holder) + Locking(s, a, rest, m)
  {
    VisibleCheck(s, a, m, holder);
    assert ([a] + rest)[1..] == rest;
    if Locks(s, a, m) {
      SameOp(s, a, m, a.t);
    } else if holder.Some? && !Ends(a, holder.value) {
      assert HoldsForApply(s, holder.value, m);
      SameOp(s, a, m, holder.value);
    }
  }

  lemma Regroup(visible: seq<Op>, after: seq<Op>, before: seq<Op>, locked: seq<Op>, rest: seq<Op>)
    requires visible + after == before + locked
    ensures visible + (after + rest) == before + (locked + rest)
  {
    assert visible + (after + rest) == (visible + after) + rest;
    assert before + (locked + rest) == (before + locked) + rest;
  }

  lemma LockOrderHead(s: State, actions: seq<Action>, m: Id, holder: Option<TxId>)
    requires Inv(s) && Executable(s, actions) && actions != [] && IsHolder(s, m, holder)
    requires Locks(s, actions[0], m) ==> holder == None
    ensures HolderIsApply(s, holder) && HolderIsApply(Do(s, actions[0]), HolderAfter(s, actions[0], m, holder))
    ensures
      var s', rest, holder' := Do(s, actions[0]), actions[1..], HolderAfter(s, actions[0], m, holder);
      ChecksOn(Serial(s', rest), m) == Outstanding(s', rest, holder') + LockOrder(s', rest, m) ==>
        ChecksOn(Serial(s, actions), m) == Outstanding(s, actions, holder) + LockOrder(s, actions, m)
  {
    var a, rest := actions[0], actions[1..];
    assert actions == [a] + rest;
    OutstandingStep(s, a, rest, m, holder);
    ChecksOnSerial(s, actions, m);
    Regroup(
      Committing(s, a, m),
      Outstanding(Do(s, a), rest, HolderAfter(s, a, m, holder)),
      Outstanding(s, actions, holder),
      Locking(s, a, rest, m),
      LockOrder(Do(s, a), rest, m));
  }

  lemma {:induction false} LockOrderFrom(s: State, actions: seq<Action>, m: Id, holder: Option<TxId>)
    requires Inv(s) && Executable(s, actions) && IsHolder(s, m, holder)
    ensures HolderIsApply(s, holder)
    ensures ChecksOn(Serial(s, actions), m) == Outstanding(s, actions, holder) + LockOrder(s, actions, m)
    decreases actions
  {
    assert holder.Some? ==> HoldsForApply(s, holder.value, m);
    if actions != [] {
      InvKept(s, actions[0]);
      HolderKept(s, actions[0], m, holder);
      LockOrderFrom(Do(s, actions[0]), actions[1..], m, HolderAfter(s, actions[0], m, holder));
      LockOrderHead(s, actions, m, holder);
    }
  }

  /**
    Per monitor the serial order of checks is the order in which their transactions lock its row: the
    checks of a monitor in the serial run of an interleaving are those of the transactions that lock
    the row and go on to commit, in the order of their locks.
   */
  lemma LockOrderIsSerialOrder(actions: seq<Action>, m: Id)
    requires Executable(State(EMPTY, map[]), actions)
    ensures ChecksOn(Serial(State(EMPTY, map[]), actions), m) == LockOrder(State(EMPTY, map[]), actions, m)
  {
    LockOrderFrom(State(EMPTY, map[]), actions, m, None);
  }

  /** Every check of a run is recorded: none finds its monitor missing or fails of itself. */
  ghost predicate AllRecorded(db: Db, ops: seq<Op>)
    decreases ops
  {
    ops != [] ==>
      && (ops[0].ApplyOp? ==> ApplyCheck(db, ops[0].monitor, ops[0].check, ops[0].uuid).1.Ok?)
      && AllRecorded(Step(db, ops[0]), ops[1..])
  }

  /** Checks that commit are recorded. */
  lemma {:induction false} SerialRecordsAll(s: State, actions: seq<Action>)
    requires Inv(s) && Executable(s, actions)
    ensures AllRecorded(s.db, Serial(s, actions))
    decreases actions
  {
    if actions != [] {
      var a, rest := actions[0], actions[1..];
      InvKept(s, a);
      SerialRecordsAll(Do(s, a), rest);
      StepReduces(s, a);
      if a.Commit? && s.txs[a.t].ApplyTx? {
        assert TxRight(s.db, s.txs[a.t]);
        ApplyCommits(s.db, s.txs[a.t]);
      }
      if Visible(s, a).Some? {
        RecordedCons(s.db, Visible(s, a).value, Serial(Do(s, a), rest));
      }
    }
  }

  lemma RecordedCons(db: Db, op: Op, rest: seq<Op>)
    requires op.ApplyOp? ==> ApplyCheck(db, op.monitor, op.check, op.uuid).1.Ok?
    requires AllRecorded(Step(db, op), rest)
    ensures AllRecorded(db, [op] + rest)
  {
    assert ([op] + rest)[1..] == rest;
  }

  /** What the checks among some operations found. */
  function ResultsOf(ops: seq<Op>): seq<CheckResult> {
    if ops == [] then [] else (if ops[0].ApplyOp? then [ops[0].check] else []) + ResultsOf(ops[1..])
  }

  lemma ResultsOfHead(ops: seq<Op>, m: Id)
    requires ops != []
    ensures ResultsOf(ChecksOn(ops, m)) ==
            (if IsCheckOf(ops[0], m) then [ops[0].check] else []) + ResultsOf(ChecksOn(ops[1..], m))
  {
    var rest := ChecksOn(ops[1..], m);
    if IsCheckOf(ops[0], m) {
      assert ChecksOn(ops, m) == [ops[0]] + rest;
      assert ChecksOn(ops, m)[1..] == rest;
    } else {
      assert ChecksOn(ops, m) == rest;
    }
  }

  lemma {:induction false} DeletedStaysDeleted(w: World, ops: seq<Op>, m: Id)
    requires ValidRun(w.db, ops) && m in w.db.issued && m !in w.db.monitors
    ensures m !in Exec(w, ops).db.monitors
    decreases ops
  {
    if ops != [] {
      StaysGone(w.db, ops[0], m);
      DeletedStaysDeleted(Next(w, ops[0]), ops[1..], m);
    }
  }

  /** The first operation of a run that does not end with `m` deleted. */
  lemma FirstLogStep(w: World, ops: seq<Op>, m: Id)
    requires Wf(w.db) && ValidRun(w.db, ops) && AllRecorded(w.db, ops) && ops != []
    requires m in Exec(w, ops).db.monitors
    ensures Wf(Step(w.db, ops[0]))
    ensures ChecksOf(Step(w.db, ops[0]).checklogs, m) ==
            ChecksOf(w.db.checklogs, m) + if IsCheckOf(ops[0], m) then [ops[0].check] else []
  {
    WfKept(w.db, ops[0]);
    if m in w.db.monitors && m !in Step(w.db, ops[0]).monitors {
      DeletedStaysDeleted(Next(w, ops[0]), ops[1..], m);
    }
    if m !in w.db.monitors {
      NoChecksWithoutRow(w.db.checklogs, m);
    }
    LogStep(w.db, ops[0], m);
  }

  lemma FirstLogStepAppends(w: World, ops: seq<Op>, m: Id)
    requires Wf(w.db) && ValidRun(w.db, ops) && AllRecorded(w.db, ops) && ops != []
    requires m in Exec(w, ops).db.monitors
    ensures ChecksOf(Step(w.db, ops[0]).checklogs, m) + ResultsOf(ChecksOn(ops[1..], m)) ==
            ChecksOf(w.db.checklogs, m) + ResultsOf(ChecksOn(ops, m))
  {
    FirstLogStep(w, ops, m);
    ResultsOfHead(ops, m);
    AppendAssociates(
      ChecksOf(w.db.checklogs, m),
      if IsCheckOf(ops[0], m) then [ops[0].check] else [],
      ResultsOf(ChecksOn(ops[1..], m)));
  }

  lemma {:induction false} LogFollowsChecks(w: World, ops: seq<Op>, m: Id)
    requires Wf(w.db) && ValidRun(w.db, ops) && AllRecorded(w.db, ops) && m in Exec(w, ops).db.monitors
    ensures ChecksOf(Exec(w, ops).db.checklogs, m) == ChecksOf(w.db.checklogs, m) + ResultsOf(ChecksOn(ops, m))
    decreases ops
  {
    if ops == [] {
      assert ChecksOn(ops, m) == [];
    } else {
      FirstLogStep(w, ops, m);
      FirstLogStepAppends(w, ops, m);
      LogFollowsChecks(Next(w, ops[0]), ops[1..], m);
    }
  }

  /** So the log of a monitor holds the checks in the order in which their transactions locked its row. */
  lemma LogIsInLockOrder(actions: seq<Action>, m: Id)
    requires Executable(State(EMPTY, map[]), actions) && m in Final(State(EMPTY, map[]), actions).db.monitors
    ensures ChecksOf(Final(State(EMPTY, map[]), actions).db.checklogs, m) ==
            ResultsOf(LockOrder(State(EMPTY, map[]), actions, m))
  {
    var s := State(EMPTY, map[]);
    LockOrderIsSerialOrder(actions, m);
    Reduction(s, actions, []);
    SerialRecordsAll(s, actions);
    LogFollowsChecks(World(EMPTY, []), Serial(s, actions), m);
  }

  // ---------------------------------------------------------------------------------------------
  // Row locks never deadlock
  // ---------------------------------------------------------------------------------------------

  lemma {:induction false} EarliestExists(rows: map<Id, MonitorRow>, ids: set<Id>) returns (m: Id)
    requires ids != {} && ids <= rows.Keys
    ensures m in ids && forall k :: k in ids ==> rows[m].nextCheckAt <= rows[k].nextCheckAt
    decreases ids
  {
    m :| m in ids;
    if ids != {m} {
      assert ids - {m} < ids;
      var k := EarliestExists(rows, ids - {m});
      if rows[k].nextCheckAt < rows[m].nextCheckAt {
        m := k;
      }
    }
  }

  /** The claim query has an answer on every table. */
  lemma {:induction false} SelectionExists(db: Db, now: Time, limit: nat, skipped: set<Id>) returns (ids: seq<Id>)
    ensures IsClaimSelection(db, now, limit, skipped, ids)
  {
    ids := [];
    if limit > 0 {
      ids := SelectionExists(db, now, limit - 1, skipped);
      var rest := Candidates(db, now, skipped) - SetOf(ids);
      if rest == {} {
        assert forall m :: m in Candidates(db, now, skipped) ==> m !in rest;
      } else {
        var m := EarliestExists(db.monitors, rest);
        assert |ids| == limit - 1;
        assert forall k :: 0 <= k < |ids| ==> ids[k] in ids;
        ids := ids + [m];
      }
    }
  }

  ghost predicate IsStatementOf(a: Action, t: TxId) {
    !a.Api? && !a.Rollback? && a.t == t
  }

  /** Transaction `t` has a statement that can be executed, other than rolling back. */
  ghost predicate CanGoOn(s: State, t: TxId) {
    exists a :: IsStatementOf(a, t) && Enabled(s, a)
  }

  /** The counter of the monitor does not fit its column any more: the transaction can only roll back. */
  ghost predicate Overflows(s: State, t: TxId) {
    && AtStage(s, t, LogInserted)
    && s.txs[t].monitor in s.txs[t].rows
    && !s.txs[t].check.success && s.txs[t].rows[s.txs[t].monitor].failures >= MAX_INT32
  }

  lemma GoesOnBy(s: State, t: TxId, a: Action)
    requires IsStatementOf(a, t) && Enabled(s, a)
    ensures CanGoOn(s, t)
  {
  }

  lemma RowUpdateGoesThrough(s: State, t: TxId)
    requires AtStage(s, t, LogInserted) && TxRight(s.db, s.txs[t]) && !Overflows(s, t)
    ensures Enabled(s, UpdateRow(t))
  {
  }

  lemma ApplyWithLockGoesOn(s: State, t: TxId)
    requires Inv(s) && Wf(s.db) && t in s.txs && s.txs[t].ApplyTx? && s.txs[t].stage != Begun
    ensures CanGoOn(s, t) || Overflows(s, t)
  {
    match s.txs[t].stage
    case RowLocked => GoesOnBy(s, t, InsertLog(t));
    case LogInserted =>
      if !Overflows(s, t) {
        RowUpdateGoesThrough(s, t);
        GoesOnBy(s, t, UpdateRow(t));
      }
    case RowUpdated =>
      IndexAgreesInState(s, t);
      GoesOnBy(s, t, WriteIncident(t));
    case IncidentWritten => GoesOnBy(s, t, Commit(t));
  }

  lemma ClaimGoesOn(s: State, t: TxId)
    requires Inv(s) && t in s.txs && s.txs[t].ClaimTx?
    ensures CanGoOn(s, t)
  {
    assert TxRight(s.db, s.txs[t]);
    var tx := s.txs[t];
    if !tx.selected {
      var ids := SelectionExists(s.db, tx.now, tx.limit, LockedRows(s));
      assert Enabled(s, SelectDue(t, ids)) && IsStatementOf(SelectDue(t, ids), t);
    } else if tx.updated < |tx.ids| {
      assert tx.ids[tx.updated] in tx.rows;
      assert Enabled(s, UpdateNextCheck(t)) && IsStatementOf(UpdateNextCheck(t), t);
    } else {
      assert Enabled(s, Commit(t)) && IsStatementOf(Commit(t), t);
    }
  }

  /** Whoever holds a row lock does not wait for one. */
  lemma LockHolderGoesOn(s: State, t: TxId)
    requires Inv(s) && Wf(s.db) && t in s.txs && s.txs[t].rows != map[]
    ensures CanGoOn(s, t) || Overflows(s, t)
  {
    assert TxRight(s.db, s.txs[t]);
    if s.txs[t].ApplyTx? {
      ApplyWithLockGoesOn(s, t);
    } else {
      ClaimGoesOn(s, t);
    }
  }

  /**
    In every reachable state each transaction can go on, except that a failed check is rolled back
    when the counter overflows, and that an apply transaction waits for the lock of its row while
    another transaction holds it; and that one is not itself waiting. So locks never deadlock.
   */
  lemma LocksNeverDeadlock(actions: seq<Action>, t: TxId)
    requires Executable(State(EMPTY, map[]), actions) && t in Final(State(EMPTY, map[]), actions).txs
    ensures
      var s := Final(State(EMPTY, map[]), actions);
      || CanGoOn(s, t) || Overflows(s, t)
      || (AtStage(s, t, Begun) &&
          exists u :: u != t && Holds(s, u, s.txs[t].monitor) && (CanGoOn(s, u) || Overflows(s, u)))
  {
    var s := Final(State(EMPTY, map[]), actions);
    InvThroughout(State(EMPTY, map[]), actions);
    InterleavingIsSafe(actions);
    if s.txs[t].ClaimTx? {
      ClaimGoesOn(s, t);
    } else if s.txs[t].stage != Begun {
      ApplyWithLockGoesOn(s, t);
    } else if LockedByOther(s, Some(t), s.txs[t].monitor) {
      var u :| u in s.txs && Some(u) != Some(t) && s.txs[t].monitor in s.txs[u].rows;
      LockHolderGoesOn(s, u);
      assert Holds(s, u, s.txs[t].monitor);
    } else {
      assert Enabled(s, LockRow(t)) && IsStatementOf(LockRow(t), t);
    }
  }
}
