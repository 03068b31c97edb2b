/**
  The worker's transactions statement by statement. Any number of apply and claim transactions,
  of any number of processes, run interleaved with the API's single statements; each sees its own
  writes and the committed rows (read committed), and holds the row locks it has taken until it
  ends. The result: every interleaving has the effect of the committed transactions executed one
  after the other in commit order, and a rolled back transaction leaves no trace.
 */
module Transactions {
  import opened Common
  import opened Health
  import opened Tables
  import opened Runs
  import Reports

  type TxId = nat

  datatype Stage = Begun | RowLocked | LogInserted | RowUpdated | IncidentWritten

  /** What a transaction has written so far, visible to itself only. */
  datatype Writes = Writes(rows: map<Id, MonitorRow>, logs: seq<LogRow>, incident: IncidentWrite)

  datatype IncidentWrite = NoIncidentWrite | InsertIncident(row: IncidentRow) | ResolveIncidents(monitor: Id, at: Time)

  const NOTHING: Writes := Writes(map[], [], NoIncidentWrite)

  /** `rows` are the rows a transaction has locked, with the values its query returned. */
  datatype Tx =
    | ApplyTx(monitor: Id, check: CheckResult, uuid: Id, stage: Stage,
              rows: map<Id, MonitorRow>, touched: Option<Id>, writes: Writes)
    | ClaimTx(now: Time, limit: nat, selected: bool, ids: seq<Id>, candidates: map<Id, MonitorRow>, updated: nat,
              rows: map<Id, MonitorRow>, writes: Writes)

  datatype State = State(db: Db, txs: map<TxId, Tx>)

  datatype Action =
    | BeginApply(t: TxId, monitor: Id, check: CheckResult, uuid: Id)
    | LockRow(t: TxId)
    | InsertLog(t: TxId)
    | UpdateRow(t: TxId)
    | WriteIncident(t: TxId)
    | BeginClaim(t: TxId, now: Time, limit: nat)
    | SelectDue(t: TxId, ids: seq<Id>)
    | UpdateNextCheck(t: TxId)
    | Commit(t: TxId)
    | Rollback(t: TxId)
    | Api(op: Op)

  // ---------------------------------------------------------------------------------------------
  // Locks and keys
  // ---------------------------------------------------------------------------------------------

  ghost predicate LockedByOther(s: State, t: Option<TxId>, m: Id) {
    exists u :: u in s.txs && Some(u) != t && m in s.txs[u].rows
  }

  ghost function LockedRows(s: State): set<Id> {
    set u, m | u in s.txs && m in s.txs[u].rows :: m
  }

  /** A generated key is new to every table and to every transaction under way. */
  ghost predicate FreshKey(s: State, uuid: Id) {
    uuid !in s.db.issued && forall t :: t in s.txs && s.txs[t].ApplyTx? ==> s.txs[t].uuid != uuid
  }

  function TransitionOf(tx: Tx): Transition
    requires tx.ApplyTx? && tx.monitor in tx.rows
  {
    EvaluateStateTransition(tx.rows[tx.monitor].status, tx.rows[tx.monitor].failures, tx.check.success)
  }

  // ---------------------------------------------------------------------------------------------
  // Statements
  // ---------------------------------------------------------------------------------------------

  ghost predicate AtStage(s: State, t: TxId, stage: Stage) {
    t in s.txs && s.txs[t].ApplyTx? && s.txs[t].stage == stage
  }

  /**
    When a statement can be executed. A statement that has to wait for a row lock, or that would
    violate a constraint, cannot; in the second case the transaction can only be rolled back.
   */
  ghost predicate Enabled(s: State, a: Action) {
    match a
    case BeginApply(t, _, _, uuid) => t !in s.txs && FreshKey(s, uuid)
    case LockRow(t) => AtStage(s, t, Begun) && !LockedByOther(s, Some(t), s.txs[t].monitor)
    case InsertLog(t) => AtStage(s, t, RowLocked)
    case UpdateRow(t) =>
      && AtStage(s, t, LogInserted)
      && s.txs[t].monitor in s.txs[t].rows && s.txs[t].monitor in s.db.monitors
      && TransitionOf(s.txs[t]).nextFailures <= MAX_INT32
    case WriteIncident(t) =>
      && AtStage(s, t, RowUpdated)
      && s.txs[t].monitor in s.txs[t].rows
      && (TransitionOf(s.txs[t]).event == DownEvent ==>
            FirstOpen(IncidentsOf(s.db.incidents, s.txs[t].monitor)) == None)
    case BeginClaim(t, _, _) => t !in s.txs
    case SelectDue(t, ids) =>
      && t in s.txs && s.txs[t].ClaimTx? && !s.txs[t].selected
      && IsClaimSelection(s.db, s.txs[t].now, s.txs[t].limit, LockedRows(s), ids)
    case UpdateNextCheck(t) =>
      && t in s.txs && s.txs[t].ClaimTx? && s.txs[t].selected && s.txs[t].updated < |s.txs[t].ids|
      && s.txs[t].ids[s.txs[t].updated] in s.txs[t].rows
      && s.txs[t].ids[s.txs[t].updated] in s.db.monitors
    case Commit(t) =>
      && t in s.txs
      && (s.txs[t].ApplyTx? ==> s.txs[t].stage == IncidentWritten)
      && (s.txs[t].ClaimTx? ==> s.txs[t].selected && s.txs[t].updated == |s.txs[t].ids|)
    case Rollback(t) => t in s.txs
    case Api(op) =>
      && Allowed(s.db, op)
      && match op
         case CreateOp(uuid, _, _, _, _, _, _) => FreshKey(s, uuid)
         case PatchOp(m, _, _, _, _, _) => !LockedByOther(s, None, m)
         case DeleteOp(m, _) => !LockedByOther(s, None, m)
         case _ => false
  }

  function Merge(db: Db, w: Writes): Db {
    Db(db.monitors + w.rows,
       db.checklogs + w.logs,
       match w.incident
       case NoIncidentWrite => db.incidents
       case InsertIncident(row) => db.incidents + [row]
       case ResolveIncidents(m, at) => ResolveOpen(db.incidents, m, at),
       match w.incident
       case InsertIncident(row) => db.issued + {row.id}
       case _ => db.issued)
  }

  ghost function WithTx(s: State, t: TxId, tx: Tx): State {
    s.(txs := s.txs[t := tx])
  }

  ghost function WithoutTx(s: State, t: TxId): State {
    s.(txs := s.txs - {t})
  }

  ghost function Do(s: State, a: Action): State
    requires Enabled(s, a)
  {
    match a
    case BeginApply(t, m, check, uuid) => WithTx(s, t, ApplyTx(m, check, uuid, Begun, map[], None, NOTHING))
    case LockRow(t) =>
      var tx := s.txs[t];
      if tx.monitor !in s.db.monitors then WithoutTx(s, t)
      else WithTx(s, t, tx.(stage := RowLocked, rows := map[tx.monitor := s.db.monitors[tx.monitor]]))
    case InsertLog(t) =>
      var tx := s.txs[t];
      var logs := tx.writes.logs + [LogRow(tx.monitor, tx.check)];
      WithTx(s, t, tx.(stage := LogInserted, writes := tx.writes.(logs := logs)))
    case UpdateRow(t) =>
      var tx := s.txs[t];
      var row := s.db.monitors[tx.monitor].(
        status := TransitionOf(tx).nextStatus,
        failures := TransitionOf(tx).nextFailures,
        lastCheckedAt := Some(tx.check.checkedAt));
      WithTx(s, t, tx.(stage := RowUpdated, writes := tx.writes.(rows := tx.writes.rows[tx.monitor := row])))
    case WriteIncident(t) =>
      var tx := s.txs[t];
      var written := match TransitionOf(tx).event
        case NoEvent => NoIncidentWrite
        case DownEvent => InsertIncident(OpenedIncident(tx.monitor, tx.check, tx.uuid))
        case RecoveredEvent => ResolveIncidents(tx.monitor, tx.check.checkedAt);
      var touched := IncidentTouched(TransitionOf(tx).event, IncidentsOf(s.db.incidents, tx.monitor), tx.uuid);
      WithTx(s, t, tx.(stage := IncidentWritten, touched := touched, writes := tx.writes.(incident := written)))
    case BeginClaim(t, now, limit) => WithTx(s, t, ClaimTx(now, limit, false, [], map[], 0, map[], NOTHING))
    case SelectDue(t, ids) =>
      var tx := s.txs[t];
      var candidates := Candidates(s.db, tx.now, LockedRows(s));
      WithTx(s, t, tx.(
        selected := true,
        ids := ids,
        candidates := map m | m in candidates :: s.db.monitors[m],
        rows := map m | m in SetOf(ids) && m in s.db.monitors :: s.db.monitors[m]))
    case UpdateNextCheck(t) =>
      var tx := s.txs[t];
      var m := tx.ids[tx.updated];
      var row := s.db.monitors[m].(nextCheckAt := tx.now + tx.rows[m].interval * SECOND);
      WithTx(s, t, tx.(updated := tx.updated + 1, writes := tx.writes.(rows := tx.writes.rows[m := row])))
    case Commit(t) => WithoutTx(s, t).(db := Merge(s.db, s.txs[t].writes))
    case Rollback(t) => WithoutTx(s, t)
    case Api(op) => s.(db := Step(s.db, op))
  }

  // ---------------------------------------------------------------------------------------------
  // The invariant
  // ---------------------------------------------------------------------------------------------

  /** A locked row still has the value that was read. */
  ghost predicate RowsCurrent(db: Db, tx: Tx) {
    forall m :: m in tx.rows ==> m in db.monitors && db.monitors[m] == tx.rows[m]
  }

  /** No two transactions hold the lock of the same row. */
  ghost predicate LocksExclusive(txs: map<TxId, Tx>) {
    forall t, u, m :: t in txs && u in txs && t != u && m in txs[t].rows ==> m !in txs[u].rows
  }

  ghost predicate KeysDistinct(txs: map<TxId, Tx>) {
    forall t, u :: t in txs && u in txs && t != u && txs[t].ApplyTx? && txs[u].ApplyTx? ==> txs[t].uuid != txs[u].uuid
  }

  /** What an apply transaction has locked and written at each stage. */
  ghost predicate ApplyProgress(db: Db, tx: Tx)
    requires tx.ApplyTx?
  {
    && (tx.stage == Begun ==> tx.rows == map[] && tx.writes == NOTHING)
    && (tx.stage != Begun ==> tx.rows.Keys == {tx.monitor})
    && (tx.stage == RowLocked ==> tx.writes == NOTHING)
    && (tx.stage == LogInserted ==> tx.writes == NOTHING.(logs := [LogRow(tx.monitor, tx.check)]))
    && (tx.stage == RowUpdated || tx.stage == IncidentWritten ==>
          && tx.writes.logs == [LogRow(tx.monitor, tx.check)]
          && tx.writes.rows == map[tx.monitor := Advance(tx.rows[tx.monitor], tx.check)]
          && TransitionOf(tx).nextFailures <= MAX_INT32)
    && (tx.stage == RowUpdated ==> tx.writes.incident == NoIncidentWrite)
    && (tx.stage == IncidentWritten ==> IncidentWriteRight(db, tx))
  }

  ghost predicate IncidentWriteRight(db: Db, tx: Tx)
    requires tx.ApplyTx? && tx.monitor in tx.rows
  {
    var kind, mine := TransitionOf(tx).event, IncidentsOf(db.incidents, tx.monitor);
    && tx.touched == IncidentTouched(kind, mine, tx.uuid)
    && match kind
       case NoEvent => tx.writes.incident == NoIncidentWrite
       case DownEvent =>
         tx.writes.incident == InsertIncident(OpenedIncident(tx.monitor, tx.check, tx.uuid)) && FirstOpen(mine) == None
       case RecoveredEvent => tx.writes.incident == ResolveIncidents(tx.monitor, tx.check.checkedAt)
  }

  /** What a claim transaction has locked and written. */
  ghost predicate ClaimProgress(tx: Tx)
    requires tx.ClaimTx?
  {
    && tx.writes.logs == [] && tx.writes.incident == NoIncidentWrite
    && (!tx.selected ==> tx.rows == map[] && tx.writes.rows == map[] && tx.updated == 0)
    && (tx.selected ==>
          && tx.updated <= |tx.ids|
          && SelectedFrom(tx.candidates, tx.now, tx.limit, tx.ids)
          && tx.rows.Keys == SetOf(tx.ids)
          && (forall m :: m in tx.ids ==> m in tx.candidates && tx.rows[m] == tx.candidates[m])
          && tx.writes.rows.Keys == SetOf(tx.ids[..tx.updated])
          && (forall m :: m in tx.writes.rows ==>
                m in tx.rows && tx.writes.rows[m] == RescheduleRow(tx.rows[m], tx.now)))
  }

  /** The rows of a claim are the first of the candidates its query saw. */
  ghost predicate SelectedFrom(candidates: map<Id, MonitorRow>, now: Time, limit: nat, ids: seq<Id>) {
    && Distinct(ids) && |ids| <= limit
    && (forall k :: 0 <= k < |ids| ==> ids[k] in candidates)
    && (forall m :: m in candidates ==> Due(candidates[m], now))
    && (forall i, j :: 0 <= i < j < |ids| ==> candidates[ids[i]].nextCheckAt <= candidates[ids[j]].nextCheckAt)
    && (forall m, k :: m in candidates && m !in ids && 0 <= k < |ids| ==>
          candidates[ids[k]].nextCheckAt <= candidates[m].nextCheckAt)
    && (|ids| < limit ==> forall m :: m in candidates ==> m in ids)
  }

  ghost predicate Progress(db: Db, tx: Tx) {
    if tx.ApplyTx? then ApplyProgress(db, tx) else ClaimProgress(tx)
  }

  /** Everything the invariant says about one transaction. */
  ghost predicate TxRight(db: Db, tx: Tx) {
    && Progress(db, tx)
    && RowsCurrent(db, tx)
    && (tx.ApplyTx? ==> tx.uuid !in db.issued)
  }

  ghost predicate Inv(s: State) {
    && s.db.monitors.Keys <= s.db.issued
    && LocksExclusive(s.txs)
    && KeysDistinct(s.txs)
    && forall t :: t in s.txs ==> TxRight(s.db, s.txs[t])
  }

  // ---------------------------------------------------------------------------------------------
  // Reduction of one step
  // ---------------------------------------------------------------------------------------------

  /** The rows a claim query passed over, as seen when the claim commits: not candidates then, or claimed since. */
  ghost function PassedOver(db: Db, tx: Tx): set<Id>
    requires tx.ClaimTx?
  {
    set m | m in db.monitors && !(m in tx.candidates && db.monitors[m].nextCheckAt == tx.candidates[m].nextCheckAt)
  }

  /** The operation that a statement makes visible to everybody, if it makes any. */
  ghost function Visible(s: State, a: Action): Option<Op>
    requires Enabled(s, a)
  {
    match a
    case Commit(t) =>
      (match s.txs[t]
       case ApplyTx(m, check, uuid, _, _, _, _) => Some(ApplyOp(m, check, uuid))
       case ClaimTx(now, limit, _, ids, _, _, _, _) => Some(ClaimOp(now, limit, PassedOver(s.db, s.txs[t]), ids)))
    case Api(op) => Some(op)
    case _ => None
  }

  /** The event a committed apply transaction returns to its worker. */
  function ReturnedEvent(tx: Tx): Event
    requires tx.ApplyTx? && tx.monitor in tx.writes.rows && tx.monitor in tx.rows
  {
    Event(TransitionOf(tx).event, tx.monitor, tx.writes.rows[tx.monitor], tx.check, tx.touched)
  }

  lemma ApplyCommits(db: Db, tx: Tx)
    requires tx.ApplyTx? && TxRight(db, tx) && tx.stage == IncidentWritten
    ensures tx.monitor in tx.writes.rows && tx.monitor in tx.rows
    ensures ApplyCheck(db, tx.monitor, tx.check, tx.uuid) == (Merge(db, tx.writes), Ok(ReturnedEvent(tx)))
  {
    var row := db.monitors[tx.monitor];
    assert row == tx.rows[tx.monitor];
    assert db.monitors + tx.writes.rows == db.monitors[tx.monitor := Advance(row, tx.check)];
  }

  lemma ClaimMerges(db: Db, tx: Tx)
    requires tx.ClaimTx? && TxRight(db, tx) && tx.selected && tx.updated == |tx.ids|
    ensures forall m :: m in tx.ids ==> m in db.monitors && db.monitors[m] == tx.candidates[m]
    ensures Merge(db, tx.writes) == db.(monitors := Reschedule(db.monitors, SetOf(tx.ids), tx.now))
  {
    assert tx.ids[..tx.updated] == tx.ids;
    forall m | m in tx.ids ensures m in db.monitors && db.monitors[m] == tx.candidates[m] {
      assert m in tx.rows;
    }
    assert Merge(db, tx.writes).monitors == Reschedule(db.monitors, SetOf(tx.ids), tx.now);
  }

  lemma ClaimStillSelected(db: Db, tx: Tx)
    requires tx.ClaimTx? && TxRight(db, tx) && tx.selected && tx.updated == |tx.ids|
    ensures IsClaimSelection(db, tx.now, tx.limit, PassedOver(db, tx), tx.ids)
  {
    ClaimMerges(db, tx);
    var skipped := PassedOver(db, tx);
    assert forall k :: 0 <= k < |tx.ids| ==> tx.ids[k] in tx.ids;
    assert forall m :: m in Candidates(db, tx.now, skipped) ==>
        m in tx.candidates && db.monitors[m].nextCheckAt == tx.candidates[m].nextCheckAt;
  }

  /** A step changes the committed database only as the operation it makes visible does, which is allowed. */
  lemma StepReduces(s: State, a: Action)
    requires Inv(s) && Enabled(s, a)
    ensures Visible(s, a) == None ==> Do(s, a).db == s.db
    ensures Visible(s, a).Some? ==> Allowed(s.db, Visible(s, a).value) && Do(s, a).db == Step(s.db, Visible(s, a).value)
  {
    if a.Commit? {
      var tx := s.txs[a.t];
      assert TxRight(s.db, tx);
      if tx.ApplyTx? {
        ApplyCommits(s.db, tx);
      } else {
        ClaimMerges(s.db, tx);
        ClaimStillSelected(s.db, tx);
      }
    }
  }

  // ---------------------------------------------------------------------------------------------
  // Every step keeps the invariant
  // ---------------------------------------------------------------------------------------------

  /** A statement that changes nothing but its own transaction. */
  lemma InvKeptByOwnStep(s: State, t: TxId, tx': Tx)
    requires Inv(s) && TxRight(s.db, tx')
    requires forall m :: m in tx'.rows ==> !LockedByOther(s, Some(t), m)
    requires tx'.ApplyTx? ==>
               if t in s.txs && s.txs[t].ApplyTx? then tx'.uuid == s.txs[t].uuid else FreshKey(s, tx'.uuid)
    ensures Inv(WithTx(s, t, tx'))
  {
    forall u, m | u in s.txs && u != t && m in tx'.rows ensures m !in s.txs[u].rows {
      assert !LockedByOther(s, Some(t), m);
    }
  }

  lemma OwnRowsNotLockedByOthers(s: State, t: TxId)
    requires Inv(s) && t in s.txs
    ensures forall m :: m in s.txs[t].rows ==> !LockedByOther(s, Some(t), m)
  {
  }

  lemma SelectRight(db: Db, tx: Tx, skipped: set<Id>, ids: seq<Id>, tx': Tx)
    requires tx.ClaimTx? && TxRight(db, tx) && !tx.selected && IsClaimSelection(db, tx.now, tx.limit, skipped, ids)
    requires tx' == tx.(
      selected := true,
      ids := ids,
      candidates := map m | m in Candidates(db, tx.now, skipped) :: db.monitors[m],
      rows := map m | m in SetOf(ids) && m in db.monitors :: db.monitors[m])
    ensures TxRight(db, tx')
    ensures tx'.rows.Keys <= Candidates(db, tx.now, skipped)
  {
    forall m | m in ids ensures m in Candidates(db, tx.now, skipped) {
      var k :| 0 <= k < |ids| && ids[k] == m;
    }
    assert tx'.ids[..0] == [];
  }

  lemma SetOfPrefix(ids: seq<Id>, n: nat)
    requires n < |ids|
    ensures SetOf(ids[..n + 1]) == SetOf(ids[..n]) + {ids[n]}
  {
    assert ids[..n + 1] == ids[..n] + [ids[n]];
  }

  lemma UpdateNextCheckRight(s: State, t: TxId)
    requires Enabled(s, UpdateNextCheck(t)) && TxRight(s.db, s.txs[t])
    ensures t in Do(s, UpdateNextCheck(t)).txs && TxRight(s.db, Do(s, UpdateNextCheck(t)).txs[t])
    ensures Do(s, UpdateNextCheck(t)).txs[t].rows == s.txs[t].rows
  {
    var tx, tx' := s.txs[t], Do(s, UpdateNextCheck(t)).txs[t];
    var m := tx.ids[tx.updated];
    SetOfPrefix(tx.ids, tx.updated);
    assert tx'.writes.rows.Keys == tx.writes.rows.Keys + {m};
    assert tx'.writes.rows[m] == RescheduleRow(tx.rows[m], tx.now);
    assert ClaimProgress(tx');
  }

  lemma InvKeptByClaimStatement(s: State, a: Action)
    requires Inv(s) && Enabled(s, a) && (a.SelectDue? || a.UpdateNextCheck?)
    ensures Inv(Do(s, a))
  {
    var t, s' := a.t, Do(s, a);
    assert TxRight(s.db, s.txs[t]);
    OwnRowsNotLockedByOthers(s, t);
    if a.SelectDue? {
      SelectRight(s.db, s.txs[t], LockedRows(s), a.ids, s'.txs[t]);
      forall m | m in s'.txs[t].rows ensures !LockedByOther(s, Some(t), m) {
        assert m !in LockedRows(s);
      }
    } else {
      UpdateNextCheckRight(s, t);
    }
    InvKeptByOwnStep(s, t, s'.txs[t]);
  }

  ghost predicate IsApplyStatement(a: Action) {
    a.LockRow? || a.InsertLog? || a.UpdateRow? || a.WriteIncident?
  }

  lemma ApplyStatementRight(s: State, a: Action)
    requires Enabled(s, a) && IsApplyStatement(a) && TxRight(s.db, s.txs[a.t])
    ensures a.t in Do(s, a).txs ==>
              && TxRight(s.db, Do(s, a).txs[a.t])
              && Do(s, a) == WithTx(s, a.t, Do(s, a).txs[a.t])
              && Do(s, a).txs[a.t].ApplyTx? && Do(s, a).txs[a.t].uuid == s.txs[a.t].uuid
              && (!a.LockRow? ==> Do(s, a).txs[a.t].rows == s.txs[a.t].rows)
              && (a.LockRow? ==> Do(s, a).txs[a.t].rows.Keys == {s.txs[a.t].monitor})
  {
  }

  lemma InvKeptByApplyStatement(s: State, a: Action)
    requires Inv(s) && Enabled(s, a) && IsApplyStatement(a)
    ensures Inv(Do(s, a))
  {
    var t, s' := a.t, Do(s, a);
    assert TxRight(s.db, s.txs[t]);
    if t in s'.txs {
      OwnRowsNotLockedByOthers(s, t);
      ApplyStatementRight(s, a);
      InvKeptByOwnStep(s, t, s'.txs[t]);
    }
  }

  lemma InvKeptByBeginOrEnd(s: State, a: Action)
    requires Inv(s) && Enabled(s, a) && (a.BeginApply? || a.BeginClaim? || a.Rollback?)
    ensures Inv(Do(s, a))
  {
    if !a.Rollback? {
      InvKeptByOwnStep(s, a.t, Do(s, a).txs[a.t]);
    }
  }

  /** What a transaction knows survives any change that leaves its rows, their incidents and its key alone. */
  lemma TxRightKept(db: Db, db': Db, tx: Tx)
    requires TxRight(db, tx)
    requires forall m :: m in tx.rows ==> m in db'.monitors && db'.monitors[m] == db.monitors[m]
    requires forall m :: m in tx.rows ==> IncidentsOf(db'.incidents, m) == IncidentsOf(db.incidents, m)
    requires tx.ApplyTx? ==> tx.uuid !in db'.issued
    ensures TxRight(db', tx)
  {
  }

  /** A commit leaves the rows it has not locked, and their incidents, alone. */
  lemma MergeLeavesOthers(db: Db, tx: Tx, m: Id)
    requires TxRight(db, tx) && m !in tx.rows && m in db.monitors
    requires tx.ApplyTx? ==> tx.stage == IncidentWritten
    requires tx.ClaimTx? ==> tx.selected && tx.updated == |tx.ids|
    ensures m in Merge(db, tx.writes).monitors && Merge(db, tx.writes).monitors[m] == db.monitors[m]
    ensures IncidentsOf(Merge(db, tx.writes).incidents, m) == IncidentsOf(db.incidents, m)
  {
    if tx.ApplyTx? {
      IncidentsOfAppend(db.incidents, OpenedIncident(tx.monitor, tx.check, tx.uuid), m);
      IncidentsOfResolve(db.incidents, tx.monitor, tx.check.checkedAt, m);
    } else {
      assert tx.ids[..tx.updated] == tx.ids;
    }
  }

  lemma InvKeptByCommit(s: State, t: TxId)
    requires Inv(s) && Enabled(s, Commit(t))
    ensures Inv(Do(s, Commit(t)))
  {
    var tx, s' := s.txs[t], Do(s, Commit(t));
    assert TxRight(s.db, tx);
    if tx.ApplyTx? {
      ApplyCommits(s.db, tx);
    } else {
      ClaimMerges(s.db, tx);
    }
    forall u | u in s'.txs ensures TxRight(s'.db, s'.txs[u]) {
      assert TxRight(s.db, s.txs[u]);
      forall m | m in s.txs[u].rows
        ensures m in s'.db.monitors && s'.db.monitors[m] == s.db.monitors[m]
        ensures IncidentsOf(s'.db.incidents, m) == IncidentsOf(s.db.incidents, m)
      {
        MergeLeavesOthers(s.db, tx, m);
      }
      TxRightKept(s.db, s'.db, s.txs[u]);
    }
  }

  lemma InvKeptByApi(s: State, op: Op)
    requires Inv(s) && Enabled(s, Api(op))
    ensures Inv(Do(s, Api(op)))
  {
    var s' := Do(s, Api(op));
    forall u | u in s'.txs ensures TxRight(s'.db, s'.txs[u]) {
      assert TxRight(s.db, s.txs[u]);
      forall m | m in s.txs[u].rows
        ensures m in s'.db.monitors && s'.db.monitors[m] == s.db.monitors[m]
        ensures IncidentsOf(s'.db.incidents, m) == IncidentsOf(s.db.incidents, m)
      {
        if op.DeleteOp? {
          IncidentsOfWithout(s.db.incidents, op.monitor, m);
        }
      }
      TxRightKept(s.db, s'.db, s.txs[u]);
    }
  }

  lemma InvKept(s: State, a: Action)
    requires Inv(s) && Enabled(s, a)
    ensures Inv(Do(s, a))
  {
    match a
    case Commit(t) => InvKeptByCommit(s, t);
    case Api(op) => InvKeptByApi(s, op);
    case SelectDue(_, _) => InvKeptByClaimStatement(s, a);
    case UpdateNextCheck(_) => InvKeptByClaimStatement(s, a);
    case BeginApply(_, _, _, _) => InvKeptByBeginOrEnd(s, a);
    case BeginClaim(_, _, _) => InvKeptByBeginOrEnd(s, a);
    case Rollback(_) => InvKeptByBeginOrEnd(s, a);
    case _ => InvKeptByApplyStatement(s, a);
  }

  // ---------------------------------------------------------------------------------------------
  // Main results
  // ---------------------------------------------------------------------------------------------

  ghost predicate Executable(s: State, actions: seq<Action>)
    decreases actions
  {
    actions == [] || (Enabled(s, actions[0]) && Executable(Do(s, actions[0]), actions[1..]))
  }

  ghost function Final(s: State, actions: seq<Action>): State
    requires Executable(s, actions)
    decreases actions
  {
    if actions == [] then s else Final(Do(s, actions[0]), actions[1..])
  }

  /** The committed operations of an interleaving, in commit order. */
  ghost function Serial(s: State, actions: seq<Action>): seq<Op>
    requires Executable(s, actions)
    decreases actions
  {
    if actions == [] then []
    else
      var rest := Serial(Do(s, actions[0]), actions[1..]);
      match Visible(s, actions[0])
      case None => rest
      case Some(op) => [op] + rest
  }

  /** The event worth reporting that a step returns to a worker. */
  ghost function ReturnedBy(s: State, a: Action): seq<Event>
    requires Inv(s) && Enabled(s, a)
  {
    if a.Commit? && s.txs[a.t].ApplyTx? then
      assert TxRight(s.db, s.txs[a.t]);
      if ReturnedEvent(s.txs[a.t]).kind == NoEvent then [] else [ReturnedEvent(s.txs[a.t])]
    else []
  }

  /** The events the committed apply transactions return, in commit order. */
  ghost function Returned(s: State, actions: seq<Action>): seq<Event>
    requires Executable(s, actions) && Inv(s)
    decreases actions
  {
    if actions == [] then []
    else
      InvKept(s, actions[0]);
      ReturnedBy(s, actions[0]) + Returned(Do(s, actions[0]), actions[1..])
  }

  lemma StepReturns(s: State, a: Action)
    requires Inv(s) && Enabled(s, a)
    ensures ReturnedBy(s, a) == if Visible(s, a).Some? then Emitted(s.db, Visible(s, a).value) else []
  {
    if a.Commit? && s.txs[a.t].ApplyTx? {
      assert TxRight(s.db, s.txs[a.t]);
      ApplyCommits(s.db, s.txs[a.t]);
    }
  }

  lemma {:induction false} InvThroughout(s: State, actions: seq<Action>)
    requires Inv(s) && Executable(s, actions)
    ensures Inv(Final(s, actions))
    decreases actions
  {
    if actions != [] {
      InvKept(s, actions[0]);
      InvThroughout(Do(s, actions[0]), actions[1..]);
    }
  }

  lemma ReturnedHead(s: State, actions: seq<Action>, events: seq<Event>)
    requires Inv(s) && Executable(s, actions) && actions != [] && Inv(Do(s, actions[0]))
    ensures events + Returned(s, actions) ==
            (events + ReturnedBy(s, actions[0])) + Returned(Do(s, actions[0]), actions[1..])
  {
    AppendAssociates(events, ReturnedBy(s, actions[0]), Returned(Do(s, actions[0]), actions[1..]));
  }

  lemma SerialSkips(s: State, actions: seq<Action>, events: seq<Event>)
    requires Inv(s) && Executable(s, actions) && actions != [] && Visible(s, actions[0]) == None
    ensures Serial(s, actions) == Serial(Do(s, actions[0]), actions[1..])
    ensures World(Do(s, actions[0]).db, events + ReturnedBy(s, actions[0])) == World(s.db, events)
  {
    StepReduces(s, actions[0]);
    StepReturns(s, actions[0]);
    assert events + [] == events;
  }

  /** A step that makes an operation visible puts it at the head of the serial run. */
  lemma SerialCons(s: State, actions: seq<Action>, events: seq<Event>, op: Op)
    requires Inv(s) && Executable(s, actions) && actions != [] && Visible(s, actions[0]) == Some(op)
    ensures Serial(s, actions) == [op] + Serial(Do(s, actions[0]), actions[1..])
    ensures Next(World(s.db, events), op) == World(Do(s, actions[0]).db, events + ReturnedBy(s, actions[0]))
    ensures Allowed(s.db, op)
  {
    StepReduces(s, actions[0]);
    StepReturns(s, actions[0]);
  }

  /** The serial run of an interleaving is what its first step contributes, and then that of the rest. */
  lemma SerialHead(s: State, actions: seq<Action>, events: seq<Event>)
    requires Inv(s) && Executable(s, actions) && actions != []
    ensures
      var s', rest := Do(s, actions[0]), Serial(Do(s, actions[0]), actions[1..]);
      && Exec(World(s.db, events), Serial(s, actions)) == Exec(World(s'.db, events + ReturnedBy(s, actions[0])), rest)
      && (ValidRun(s'.db, rest) ==> ValidRun(s.db, Serial(s, actions)))
  {
    if Visible(s, actions[0]).Some? {
      SerialCons(s, actions, events, Visible(s, actions[0]).value);
      RunCons(World(s.db, events), Visible(s, actions[0]).value, Serial(Do(s, actions[0]), actions[1..]));
    } else {
      SerialSkips(s, actions, events);
    }
  }

  /**
    Reduction: the database and the events after any interleaving of statements are those of the
    committed transactions executed atomically, one after the other, in commit order. Transactions
    that were rolled back, or are still open, do not occur in that serial run.
   */
  lemma {:induction false} Reduction(s: State, actions: seq<Action>, events: seq<Event>)
    requires Inv(s) && Executable(s, actions)
    ensures ValidRun(s.db, Serial(s, actions))
    ensures Exec(World(s.db, events), Serial(s, actions)) == World(Final(s, actions).db, events + Returned(s, actions))
    decreases actions
  {
    if actions == [] {
      assert events + [] == events;
    } else {
      InvKept(s, actions[0]);
      SerialHead(s, actions, events);
      ReturnedHead(s, actions, events);
      Reduction(Do(s, actions[0]), actions[1..], events + ReturnedBy(s, actions[0]));
    }
  }

  /** Every guarantee about serial runs holds of interleaved ones: tables, statuses and events always agree. */
  lemma InterleavingIsSafe(actions: seq<Action>)
    requires Executable(State(EMPTY, map[]), actions)
    ensures Reports.Reported(World(Final(State(EMPTY, map[]), actions).db, Returned(State(EMPTY, map[]), actions)))
  {
    var s := State(EMPTY, map[]);
    Reduction(s, actions, []);
    Reports.ReportedFromStart(Serial(s, actions));
    assert [] + Returned(s, actions) == Returned(s, actions);
  }

  lemma IndexAgrees(db: Db, tx: Tx)
    requires tx.ApplyTx? && TxRight(db, tx) && tx.stage == RowUpdated && Consistent(db, tx.monitor)
    ensures TransitionOf(tx).event == DownEvent ==> FirstOpen(IncidentsOf(db.incidents, tx.monitor)) == None
    ensures TransitionOf(tx).event == RecoveredEvent ==> FirstOpen(IncidentsOf(db.incidents, tx.monitor)).Some?
  {
    OpenIncident(ChecksOf(db.checklogs, tx.monitor), IncidentsOf(db.incidents, tx.monitor));
  }

  lemma IndexAgreesInState(s: State, t: TxId)
    requires Inv(s) && Wf(s.db) && AtStage(s, t, RowUpdated)
    ensures Enabled(s, WriteIncident(t))
    ensures TransitionOf(s.txs[t]).event == RecoveredEvent ==> Do(s, WriteIncident(t)).txs[t].touched.Some?
  {
    assert TxRight(s.db, s.txs[t]);
    assert Consistent(s.db, s.txs[t].monitor);
    IndexAgrees(s.db, s.txs[t]);
  }

  /**
    In every reachable state the partial unique index lets the incident statement through, and a
    recovery finds an open incident: no apply transaction is ever doomed by another one.
   */
  lemma IncidentStatementSucceeds(actions: seq<Action>, t: TxId)
    requires Executable(State(EMPTY, map[]), actions)
    requires AtStage(Final(State(EMPTY, map[]), actions), t, RowUpdated)
    ensures
      var s := Final(State(EMPTY, map[]), actions);
      && Enabled(s, WriteIncident(t))
      && (TransitionOf(s.txs[t]).event == RecoveredEvent ==> Do(s, WriteIncident(t)).txs[t].touched.Some?)
  {
    InvThroughout(State(EMPTY, map[]), actions);
    InterleavingIsSafe(actions);
    IndexAgreesInState(Final(State(EMPTY, map[]), actions), t);
  }
}
