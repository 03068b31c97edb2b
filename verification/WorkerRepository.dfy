/**
  The worker's repository (internal/worker/repository.go): the claim and apply transactions as the
  code runs them, statement by statement on the tables, rolled back when a statement fails. Both are
  proved to have exactly the effect that `Tables` gives them, or none.
 */
module WorkerRepository {
  import opened Common
  import opened Health
  import opened Tables
  import opened Runs

  /** The tables behind `*sqlx.DB`. */
  class Store {
    var monitors: map<Id, MonitorRow>
    var checklogs: seq<LogRow>
    var incidents: seq<IncidentRow>
    var issued: set<Id>

    constructor ()
      ensures Contents() == EMPTY
    {
      monitors, checklogs, incidents, issued := map[], [], [], {};
    }

    function Contents(): Db
      reads this
    {
      Db(monitors, checklogs, incidents, issued)
    }

    method Rollback(saved: Db)
      modifies this
      ensures Contents() == saved
    {
      monitors, checklogs, incidents, issued := saved.monitors, saved.checklogs, saved.incidents, saved.issued;
    }
  }

  /** The statement, if any, at which the connection or the server fails. */
  datatype Fault = NoFault | AtBegin | AtSelect | AtInsertLog | AtUpdateMonitor(count: nat) | AtIncident | AtCommit

  lemma RescheduleOneMore(monitors: map<Id, MonitorRow>, ids: seq<Id>, i: nat, now: Time)
    requires Distinct(ids) && i < |ids| && ids[i] in monitors
    ensures Reschedule(monitors, SetOf(ids[..i]), now)[ids[i]] == monitors[ids[i]]
    ensures Reschedule(monitors, SetOf(ids[..i + 1]), now) ==
            Reschedule(monitors, SetOf(ids[..i]), now)[ids[i] := RescheduleRow(monitors[ids[i]], now)]
  {
    assert ids[..i + 1] == ids[..i] + [ids[i]];
  }

  /** One row of `ClaimDueMonitors`' result. */
  datatype Claimed = Claimed(id: Id, row: MonitorRow)

  /**
    The claimed rows are enabled and unlocked, never checked or due by now, in the order of their next check
    times, and no more than the limit; whatever is left of that kind is not earlier, and nothing is left if the
    limit was not reached.
   */
  ghost predicate ClaimsFirstDue(rows: map<Id, MonitorRow>, now: Time, limit: nat, locked: set<Id>, ids: seq<Id>) {
    && |ids| <= limit && Distinct(ids)
    && (forall i :: 0 <= i < |ids| ==>
          && ids[i] in rows && ids[i] !in locked && rows[ids[i]].enabled
          && (rows[ids[i]].lastCheckedAt == None || rows[ids[i]].nextCheckAt <= now))
    && (forall i, j :: 0 <= i < j < |ids| ==> rows[ids[i]].nextCheckAt <= rows[ids[j]].nextCheckAt)
    && (forall m :: m in rows && m !in locked && m !in ids && rows[m].enabled
                    && (rows[m].lastCheckedAt == None || rows[m].nextCheckAt <= now) ==>
          |ids| == limit && forall i :: 0 <= i < |ids| ==> rows[ids[i]].nextCheckAt <= rows[m].nextCheckAt)
  }

  /** The next check of a claimed monitor is one interval after `now`, and nothing else changes. */
  ghost predicate ReschedulesOnly(db: Db, db': Db, now: Time, ids: seq<Id>) {
    && db'.checklogs == db.checklogs && db'.incidents == db.incidents && db'.issued == db.issued
    && db'.monitors.Keys == db.monitors.Keys
    && forall m :: m in db.monitors ==>
         db'.monitors[m] ==
         if m in ids then db.monitors[m].(nextCheckAt := now + db.monitors[m].interval * 1_000_000) else db.monitors[m]
  }

  lemma SelectionClaimsFirstDue(db: Db, now: Time, limit: nat, locked: set<Id>, ids: seq<Id>)
    requires IsClaimSelection(db, now, limit, locked, ids)
    ensures ClaimsFirstDue(db.monitors, now, limit, locked, ids)
    ensures ReschedulesOnly(db, Step(db, ClaimOp(now, limit, locked, ids)), now, ids)
  {
    forall m | m in db.monitors && m !in locked && m !in ids && db.monitors[m].enabled
               && (db.monitors[m].lastCheckedAt == None || db.monitors[m].nextCheckAt <= now)
      ensures |ids| == limit
      ensures forall i :: 0 <= i < |ids| ==> db.monitors[ids[i]].nextCheckAt <= db.monitors[m].nextCheckAt
    {
      assert m in Candidates(db, now, locked);
    }
  }

  class Repository {
    const db: Store

    constructor (db: Store)
      ensures this.db == db
    {
      this.db := db;
    }

    /** The row that comes first in `order by next_check_at asc`. */
    method Earliest(rows: map<Id, MonitorRow>, ids: set<Id>) returns (m: Id)
      requires ids != {} && ids <= rows.Keys
      ensures m in ids
      ensures forall k :: k in ids ==> rows[m].nextCheckAt <= rows[k].nextCheckAt
    {
      m :| m in ids;
      var rest := ids - {m};
      while rest != {}
        invariant rest <= ids && m in ids
        invariant forall k :: k in ids && k !in rest ==> rows[m].nextCheckAt <= rows[k].nextCheckAt
        decreases rest
      {
        var k :| k in rest;
        if rows[k].nextCheckAt < rows[m].nextCheckAt {
          m := k;
        }
        rest := rest - {k};
      }
    }

    /** The claim query: due rows, earliest first, at most `limit`, skipping locked ones. */
    method SelectDue(now: Time, limit: nat, skipped: set<Id>) returns (ids: seq<Id>)
      ensures IsClaimSelection(db.Contents(), now, limit, skipped, ids)
    {
      var rows := db.monitors;
      var due := set m | m in rows && Due(rows[m], now) && m !in skipped;
      ids := [];
      while |ids| < limit && due != {}
        invariant |ids| <= limit && Distinct(ids)
        invariant due <= Candidates(db.Contents(), now, skipped)
        invariant forall k :: 0 <= k < |ids| ==> ids[k] in Candidates(db.Contents(), now, skipped) && ids[k] !in due
        invariant forall m :: m in Candidates(db.Contents(), now, skipped) ==> m in due || m in ids
        invariant forall i, j :: 0 <= i < j < |ids| ==> rows[ids[i]].nextCheckAt <= rows[ids[j]].nextCheckAt
        invariant forall m, k :: m in due && 0 <= k < |ids| ==> rows[ids[k]].nextCheckAt <= rows[m].nextCheckAt
        decreases due
      {
        var m := Earliest(rows, due);
        ids := ids + [m];
        due := due - {m};
      }
    }

    /** The update loop; returns how many rows it updated before it failed, if it did. */
    method UpdateNextChecks(claimed: seq<Claimed>, ids: seq<Id>, now: Time, fault: Fault)
      returns (updated: seq<Claimed>, done: bool)
      requires Distinct(ids) && |claimed| == |ids|
      requires forall k :: 0 <= k < |ids| ==>
                 ids[k] in db.monitors && claimed[k] == Claimed(ids[k], db.monitors[ids[k]])
      modifies db
      ensures !fault.AtUpdateMonitor? ==> done
      ensures done ==> db.Contents() == old(db.Contents()).(monitors := Reschedule(old(db.monitors), SetOf(ids), now))
      ensures |updated| == |ids|
      ensures done ==> forall k :: 0 <= k < |ids| ==>
                updated[k] == Claimed(ids[k], RescheduleRow(old(db.monitors)[ids[k]], now))
    {
      ghost var before := db.monitors;
      updated := claimed;
      var i := 0;
      assert ids[..0] == [];
      while i < |ids|
        invariant 0 <= i <= |ids| == |updated|
        invariant db.Contents() == old(db.Contents()).(monitors := Reschedule(before, SetOf(ids[..i]), now))
        invariant forall k :: 0 <= k < i ==> updated[k] == Claimed(ids[k], RescheduleRow(before[ids[k]], now))
        invariant forall k :: i <= k < |ids| ==> updated[k] == claimed[k]
      {
        var nextCheckAt := now + updated[i].row.interval * SECOND;
        if fault == AtUpdateMonitor(i) {
          return updated, false;
        }
        RescheduleOneMore(before, ids, i, now);
        db.monitors := db.monitors[ids[i] := db.monitors[ids[i]].(nextCheckAt := nextCheckAt)];
        updated := updated[i := Claimed(ids[i], updated[i].row.(nextCheckAt := nextCheckAt))];
        i := i + 1;
      }
      assert ids[..i] == ids;
      done := true;
    }

    /**
      Claims the first due monitors: their rows are rescheduled one interval after `now` and
      returned with the new time, or the transaction fails and nothing changes.
     */
    method ClaimDueMonitors(now: Time, limit: nat, skipped: set<Id>, fault: Fault)
      returns (result: Result<seq<Claimed>, ApplyError>, ghost ids: seq<Id>)
      modifies db
      ensures fault == NoFault ==> result.Ok?
      ensures result.Err? ==> db.Contents() == old(db.Contents())
      ensures result.Ok? ==>
                && IsClaimSelection(old(db.Contents()), now, limit, skipped, ids)
                && db.Contents() == Step(old(db.Contents()), ClaimOp(now, limit, skipped, ids))
                && |result.value| == |ids|
                && forall i :: 0 <= i < |ids| ==>
                     ids[i] in db.monitors && result.value[i] == Claimed(ids[i], db.monitors[ids[i]])
      ensures result.Ok? ==> ClaimsFirstDue(old(db.monitors), now, limit, skipped, ids)
      ensures result.Ok? ==> ReschedulesOnly(old(db.Contents()), db.Contents(), now, ids)
    {
      ids := [];
      if fault.AtBegin? {
        return Err(StatementFailed), ids;
      }
      var saved := db.Contents();
      if fault.AtSelect? {
        return Err(StatementFailed), ids;
      }
      var selected := SelectDue(now, limit, skipped);
      ids := selected;
      assert forall k :: 0 <= k < |ids| ==> ids[k] in Candidates(saved, now, skipped);
      var claimed := seq(
        |selected|,
        i requires 0 <= i < |selected| => Claimed(selected[i], saved.monitors[selected[i]]));
      var updated, done := UpdateNextChecks(claimed, selected, now, fault);
      if !done || fault.AtCommit? {
        db.Rollback(saved);
        return Err(StatementFailed), ids;
      }
      SelectionClaimsFirstDue(saved, now, limit, skipped, ids);
      result := Ok(updated);
    }

    /**
      Records one check result: either everything `ApplyCheck` says happens and its event, which tells the
      truth about it, is returned; or the transaction fails and nothing changes.
     */
    method ApplyCheckResult(id: Id, result: CheckResult, uuid: Id, fault: Fault)
      returns (outcome: Result<Event, ApplyError>)
      modifies db
      ensures fault == NoFault ==> (db.Contents(), outcome) == ApplyCheck(old(db.Contents()), id, result, uuid)
      ensures outcome.Ok? ==> (db.Contents(), outcome) == ApplyCheck(old(db.Contents()), id, result, uuid)
      ensures outcome.Err? ==> db.Contents() == old(db.Contents())
      ensures outcome.Ok? ==>
                && TellsTruth(old(db.Contents()), db.Contents(), id, result, uuid, outcome.value)
                && ChangesOnlyHealth(old(db.Contents()), db.Contents(), id, result)
    {
      if fault.AtBegin? {
        return Err(StatementFailed);
      }
      var saved := db.Contents();
      if fault.AtSelect? {
        return Err(StatementFailed);
      }
      if id !in db.monitors {
        return Err(MonitorNotFound);
      }
      var monitor := db.monitors[id];

      if fault.AtInsertLog? {
        return Err(StatementFailed);
      }
      db.checklogs := db.checklogs + [LogRow(id, result)];

      var transition := EvaluateStateTransition(monitor.status, monitor.failures, result.success);
      if fault.AtUpdateMonitor? || transition.nextFailures > MAX_INT32 {
        db.Rollback(saved);
        return Err(StatementFailed);
      }
      monitor := monitor.(
        status := transition.nextStatus,
        failures := transition.nextFailures,
        lastCheckedAt := Some(result.checkedAt));
      db.monitors := db.monitors[id := monitor];

      var incident: Option<Id> := None;
      match transition.event {
        case DownEvent =>
          if fault.AtIncident? || FirstOpen(IncidentsOf(db.incidents, id)).Some? {
            db.Rollback(saved);
            return Err(StatementFailed);
          }
          db.incidents := db.incidents + [IncidentRow(uuid, id, true, IncidentReason(result), result.checkedAt, None)];
          db.issued := db.issued + {uuid};
          incident := Some(uuid);
        case RecoveredEvent =>
          if fault.AtIncident? {
            db.Rollback(saved);
            return Err(StatementFailed);
          }
          incident := FirstOpen(IncidentsOf(db.incidents, id));
          db.incidents := ResolveOpen(db.incidents, id, result.checkedAt);
        case NoEvent =>
      }

      if fault.AtCommit? {
        db.Rollback(saved);
        return Err(StatementFailed);
      }
      outcome := Ok(Event(transition.event, id, monitor, result, incident));
      CheckTellsTruth(saved, id, result, uuid);
    }
  }
}
