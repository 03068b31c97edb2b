/**
  Transactions that nobody is in the way of go through: the atomic operations of `Runs` are not only what
  interleavings amount to, each of them can be carried out statement by statement.
 */
module Progress {
  import opened Common
  import opened Health
  import opened Tables
  import opened Runs
  import opened Transactions

  /** `actions` lead from `s` to `s'` and commit `ops`. */
  ghost predicate Leads(s: State, actions: seq<Action>, s': State, ops: seq<Op>) {
    Executable(s, actions) && Final(s, actions) == s' && Serial(s, actions) == ops
  }

  lemma SilentFirst(s: State, a: Action, rest: seq<Action>, s': State, ops: seq<Op>)
    requires Enabled(s, a) && Visible(s, a) == None && Leads(Do(s, a), rest, s', ops)
    ensures Leads(s, [a] + rest, s', ops)
  {
    assert ([a] + rest)[1..] == rest;
  }

  lemma VisibleFirst(s: State, a: Action, op: Op, rest: seq<Action>, s': State, ops: seq<Op>)
    requires Enabled(s, a) && Visible(s, a) == Some(op) && Leads(Do(s, a), rest, s', ops)
    ensures Leads(s, [a] + rest, s', [op] + ops)
  {
    assert ([a] + rest)[1..] == rest && ([op] + ops)[1..] == ops;
  }

  lemma {:induction false} SilentPrefix(
      s: State, first: seq<Action>, mid: State, rest: seq<Action>, s': State, ops: seq<Op>)
    requires Leads(s, first, mid, []) && Leads(mid, rest, s', ops)
    ensures Leads(s, first + rest, s', ops)
    decreases first
  {
    if first == [] {
      assert first + rest == rest;
    } else {
      SilentPrefix(Do(s, first[0]), first[1..], mid, rest, s', ops);
      SilentFirst(s, first[0], first[1..] + rest, s', ops);
      assert first == [first[0]] + first[1..];
      AppendAssociates([first[0]], first[1..], rest);
    }
  }

  /** A transaction can always be rolled back, and then it might as well never have begun. */
  lemma RollbackLeavesNoTrace(s: State, t: TxId)
    requires t in s.txs
    ensures Enabled(s, Rollback(t)) && Visible(s, Rollback(t)) == None
    ensures Do(s, Rollback(t)) == State(s.db, s.txs - {t})
  {
  }

  // ---------------------------------------------------------------------------------------------
  // Recording a check
  // ---------------------------------------------------------------------------------------------

  /** The statements of an apply transaction that come before its commit. */
  function ApplyStatements(t: TxId, m: Id, check: CheckResult, uuid: Id): seq<Action> {
    [BeginApply(t, m, check, uuid), LockRow(t), InsertLog(t), UpdateRow(t), WriteIncident(t)]
  }

  ghost predicate NotInTheWay(s: State, t: TxId, m: Id, uuid: Id) {
    t !in s.txs && FreshKey(s, uuid) && !LockedByOther(s, Some(t), m)
  }

  /** The transaction that has executed them. */
  ghost predicate ReadyToCommit(s: State, s': State, t: TxId, m: Id, check: CheckResult, uuid: Id) {
    && s'.db == s.db && s'.txs.Keys == s.txs.Keys + {t} && s'.txs - {t} == s.txs
    && s'.txs[t].ApplyTx? && s'.txs[t].stage == IncidentWritten
    && s'.txs[t].monitor == m && s'.txs[t].check == check && s'.txs[t].uuid == uuid
  }

  /** A begun transaction that has the lock. */
  ghost predicate HasLocked(s: State, s': State, t: TxId, m: Id, check: CheckResult, uuid: Id) {
    && m in s.db.monitors
    && s' == WithTx(s, t, ApplyTx(m, check, uuid, RowLocked, map[m := s.db.monitors[m]], None, NOTHING))
  }

  lemma LockGoesThrough(s: State, t: TxId, m: Id, check: CheckResult, uuid: Id)
    requires m in s.db.monitors && NotInTheWay(s, t, m, uuid)
    ensures Enabled(s, BeginApply(t, m, check, uuid)) && Visible(s, BeginApply(t, m, check, uuid)) == None
    ensures
      var s1 := Do(s, BeginApply(t, m, check, uuid));
      Enabled(s1, LockRow(t)) && Visible(s1, LockRow(t)) == None && HasLocked(s, Do(s1, LockRow(t)), t, m, check, uuid)
  {
    var s1 := Do(s, BeginApply(t, m, check, uuid));
    forall u | u in s1.txs && u != t ensures m !in s1.txs[u].rows {
      assert u in s.txs && s.txs[u] == s1.txs[u];
    }
  }

  lemma WritesGoThrough(s: State, s2: State, t: TxId, m: Id, check: CheckResult, uuid: Id)
    requires t !in s.txs && HasLocked(s, s2, t, m, check, uuid) && ApplyCheck(s.db, m, check, uuid).1.Ok?
    ensures Enabled(s2, InsertLog(t)) && Visible(s2, InsertLog(t)) == None
    ensures
      var s3 := Do(s2, InsertLog(t));
      && Enabled(s3, UpdateRow(t)) && Visible(s3, UpdateRow(t)) == None
      && var s4 := Do(s3, UpdateRow(t));
      && Enabled(s4, WriteIncident(t)) && Visible(s4, WriteIncident(t)) == None
      && ReadyToCommit(s, Do(s4, WriteIncident(t)), t, m, check, uuid)
  {
  }

  lemma WritesLead(s: State, s2: State, t: TxId, m: Id, check: CheckResult, uuid: Id) returns (s': State)
    requires t !in s.txs && HasLocked(s, s2, t, m, check, uuid) && ApplyCheck(s.db, m, check, uuid).1.Ok?
    ensures Leads(s2, [InsertLog(t), UpdateRow(t), WriteIncident(t)], s', [])
    ensures ReadyToCommit(s, s', t, m, check, uuid)
  {
    WritesGoThrough(s, s2, t, m, check, uuid);
    var s3 := Do(s2, InsertLog(t));
    var s4 := Do(s3, UpdateRow(t));
    s' := Do(s4, WriteIncident(t));
    assert Leads(s', [], s', []);
    SilentFirst(s4, WriteIncident(t), [], s', []);
    SilentFirst(s3, UpdateRow(t), [WriteIncident(t)], s', []);
    SilentFirst(s2, InsertLog(t), [UpdateRow(t), WriteIncident(t)], s', []);
  }

  /** Up to its commit an apply transaction goes through. */
  lemma StatementsGoThrough(s: State, t: TxId, m: Id, check: CheckResult, uuid: Id) returns (s': State)
    requires NotInTheWay(s, t, m, uuid) && ApplyCheck(s.db, m, check, uuid).1.Ok?
    ensures Leads(s, ApplyStatements(t, m, check, uuid), s', [])
    ensures ReadyToCommit(s, s', t, m, check, uuid)
  {
    LockGoesThrough(s, t, m, check, uuid);
    var s1 := Do(s, BeginApply(t, m, check, uuid));
    s' := WritesLead(s, Do(s1, LockRow(t)), t, m, check, uuid);
    var writes := [InsertLog(t), UpdateRow(t), WriteIncident(t)];
    SilentFirst(s1, LockRow(t), writes, s', []);
    SilentFirst(s, BeginApply(t, m, check, uuid), [LockRow(t)] + writes, s', []);
    assert ApplyStatements(t, m, check, uuid) == [BeginApply(t, m, check, uuid)] + ([LockRow(t)] + writes);
  }

  lemma {:induction false} InvAlong(s: State, actions: seq<Action>, s': State, ops: seq<Op>)
    requires Inv(s) && Leads(s, actions, s', ops)
    ensures Inv(s')
  {
    InvThroughout(s, actions);
  }

  /** An apply transaction whose row nobody has locked can run from its beginning to its commit. */
  lemma ApplyGoesThrough(s: State, t: TxId, m: Id, check: CheckResult, uuid: Id) returns (s': State)
    requires Inv(s) && NotInTheWay(s, t, m, uuid) && ApplyCheck(s.db, m, check, uuid).1.Ok?
    ensures Leads(s, ApplyStatements(t, m, check, uuid) + [Commit(t)], s', [ApplyOp(m, check, uuid)])
    ensures s' == State(ApplyCheck(s.db, m, check, uuid).0, s.txs)
  {
    var s1 := StatementsGoThrough(s, t, m, check, uuid);
    InvAlong(s, ApplyStatements(t, m, check, uuid), s1, []);
    s' := Do(s1, Commit(t));
    StepReduces(s1, Commit(t));
    assert s'.txs == s1.txs - {t} == s.txs;
    assert Leads(s', [], s', []);
    VisibleFirst(s1, Commit(t), ApplyOp(m, check, uuid), [], s', []);
    SilentPrefix(s, ApplyStatements(t, m, check, uuid), s1, [Commit(t)], s', [ApplyOp(m, check, uuid)]);
  }

  // ---------------------------------------------------------------------------------------------
  // Claiming
  // ---------------------------------------------------------------------------------------------

  /** In `s'` the claim transaction `t` has selected `ids` and updated `n` of them; all else is as in `s`. */
  ghost predicate Claiming(s: State, s': State, t: TxId, now: Time, limit: nat, ids: seq<Id>, n: nat) {
    && s'.db == s.db && t in s'.txs && s'.txs - {t} == s.txs - {t}
    && s'.txs[t].ClaimTx? && s'.txs[t].selected && s'.txs[t].updated == n
    && s'.txs[t].now == now && s'.txs[t].limit == limit && s'.txs[t].ids == ids
  }

  lemma NextUpdate(s: State, s1: State, t: TxId, now: Time, limit: nat, ids: seq<Id>, n: nat)
    requires Inv(s1) && Claiming(s, s1, t, now, limit, ids, n) && n < |ids|
    ensures Enabled(s1, UpdateNextCheck(t)) && Visible(s1, UpdateNextCheck(t)) == None
    ensures Claiming(s, Do(s1, UpdateNextCheck(t)), t, now, limit, ids, n + 1)
  {
    assert TxRight(s1.db, s1.txs[t]);
    assert ids[n] in s1.txs[t].rows;
    assert Do(s1, UpdateNextCheck(t)).txs - {t} == s1.txs - {t};
  }

  lemma UpdateGoesThrough(s: State, s1: State, t: TxId, now: Time, limit: nat, ids: seq<Id>, n: nat)
    returns (s2: State)
    requires Inv(s1) && Claiming(s, s1, t, now, limit, ids, n) && n < |ids|
    ensures Enabled(s1, UpdateNextCheck(t)) && Visible(s1, UpdateNextCheck(t)) == None
    ensures s2 == Do(s1, UpdateNextCheck(t)) && Inv(s2)
    ensures Claiming(s, s2, t, now, limit, ids, n + 1)
  {
    NextUpdate(s, s1, t, now, limit, ids, n);
    InvKept(s1, UpdateNextCheck(t));
    s2 := Do(s1, UpdateNextCheck(t));
  }

  lemma {:induction false} UpdatesGoThrough(
      s: State, s1: State, t: TxId, now: Time, limit: nat, ids: seq<Id>, n: nat)
    returns (actions: seq<Action>, s': State)
    requires n <= |ids| && Inv(s1) && Claiming(s, s1, t, now, limit, ids, n)
    ensures Leads(s1, actions, s', [])
    ensures Inv(s') && Claiming(s, s', t, now, limit, ids, |ids|)
    decreases |ids| - n
  {
    if n == |ids| {
      s' := s1;
      actions := [];
    } else {
      var s2 := UpdateGoesThrough(s, s1, t, now, limit, ids, n);
      var rest;
      rest, s' := UpdatesGoThrough(s, s2, t, now, limit, ids, n + 1);
      actions := [UpdateNextCheck(t)] + rest;
      SilentFirst(s1, UpdateNextCheck(t), rest, s', []);
    }
  }

  lemma LocksNothingYet(s: State, t: TxId, tx: Tx)
    requires t !in s.txs && tx.rows == map[]
    ensures LockedRows(WithTx(s, t, tx)) == LockedRows(s)
  {
    var s' := WithTx(s, t, tx);
    forall m ensures m in LockedRows(s) <==> m in LockedRows(s') {
      if m in LockedRows(s) {
        var u :| u in s.txs && m in s.txs[u].rows;
        assert u in s'.txs && s'.txs[u] == s.txs[u];
      }
    }
  }

  lemma SelectionGoesThrough(s: State, t: TxId, now: Time, limit: nat, ids: seq<Id>)
    requires t !in s.txs && IsClaimSelection(s.db, now, limit, LockedRows(s), ids)
    ensures Enabled(s, BeginClaim(t, now, limit)) && Visible(s, BeginClaim(t, now, limit)) == None
    ensures
      var s1 := Do(s, BeginClaim(t, now, limit));
      && Enabled(s1, SelectDue(t, ids)) && Visible(s1, SelectDue(t, ids)) == None
      && Claiming(s, Do(s1, SelectDue(t, ids)), t, now, limit, ids, 0)
  {
    var s1 := Do(s, BeginClaim(t, now, limit));
    LocksNothingYet(s, t, s1.txs[t]);
    assert Do(s1, SelectDue(t, ids)).txs - {t} == s.txs - {t};
  }

  lemma ClaimCommits(s: State, s3: State, t: TxId, now: Time, limit: nat, ids: seq<Id>) returns (op: Op)
    requires Inv(s3) && t !in s.txs && Claiming(s, s3, t, now, limit, ids, |ids|)
    ensures op.ClaimOp? && op.now == now && op.limit == limit && op.ids == ids
    ensures Leads(s3, [Commit(t)], State(Step(s.db, op), s.txs), [op])
  {
    op := ClaimOp(now, limit, PassedOver(s3.db, s3.txs[t]), ids);
    var s' := Do(s3, Commit(t));
    StepReduces(s3, Commit(t));
    assert s3.txs - {t} == s.txs - {t} == s.txs;
    assert Leads(s', [], s', []);
    VisibleFirst(s3, Commit(t), op, [], s', []);
  }

  /** Up to its commit a claim goes through, whatever rows others have locked. */
  lemma ClaimStatementsGoThrough(s: State, t: TxId, now: Time, limit: nat, ids: seq<Id>)
    returns (actions: seq<Action>, s': State)
    requires Inv(s) && t !in s.txs && IsClaimSelection(s.db, now, limit, LockedRows(s), ids)
    ensures Leads(s, actions, s', [])
    ensures Inv(s') && Claiming(s, s', t, now, limit, ids, |ids|)
  {
    SelectionGoesThrough(s, t, now, limit, ids);
    var s1 := Do(s, BeginClaim(t, now, limit));
    InvKept(s, BeginClaim(t, now, limit));
    var s2 := Do(s1, SelectDue(t, ids));
    InvKept(s1, SelectDue(t, ids));
    actions, s' := UpdatesGoThrough(s, s2, t, now, limit, ids, 0);
    SilentFirst(s1, SelectDue(t, ids), actions, s', []);
    actions := [SelectDue(t, ids)] + actions;
    SilentFirst(s, BeginClaim(t, now, limit), actions, s', []);
    actions := [BeginClaim(t, now, limit)] + actions;
  }

  /** A claim can run from its beginning to its commit. */
  lemma ClaimGoesThrough(s: State, t: TxId, now: Time, limit: nat, ids: seq<Id>)
    returns (actions: seq<Action>, op: Op)
    requires Inv(s) && t !in s.txs && IsClaimSelection(s.db, now, limit, LockedRows(s), ids)
    ensures op.ClaimOp? && op.now == now && op.limit == limit && op.ids == ids
    ensures Leads(s, actions, State(Step(s.db, op), s.txs), [op])
  {
    var first, s3 := ClaimStatementsGoThrough(s, t, now, limit, ids);
    op := ClaimCommits(s, s3, t, now, limit, ids);
    SilentPrefix(s, first, s3, [Commit(t)], State(Step(s.db, op), s.txs), [op]);
    actions := first + [Commit(t)];
  }

  /** A statement of the API goes through unless its row is locked. */
  lemma ApiGoesThrough(s: State, op: Op)
    requires match op
             case CreateOp(uuid, _, _, _, interval, _, _) => FreshKey(s, uuid) && ValidInterval(interval)
             case PatchOp(m, _, _, _, interval, _) => !LockedByOther(s, None, m) && ValidInterval(interval)
             case DeleteOp(m, _) => !LockedByOther(s, None, m)
             case _ => false
    ensures Leads(s, [Api(op)], State(Step(s.db, op), s.txs), [op])
  {
    var s' := State(Step(s.db, op), s.txs);
    assert Leads(s', [], s', []);
    VisibleFirst(s, Api(op), op, [], s', []);
  }
}
