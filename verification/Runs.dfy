/**
  Runs of committed transactions from an empty database, interleaved in any way: what the monitor,
  check log and incident tables always say about one another, and about the events reported.
 */
module Runs {
  import opened Common
  import opened Health
  import opened Tables

  // ---------------------------------------------------------------------------------------------
  // Operations
  // ---------------------------------------------------------------------------------------------

  /**
    The committed operations. In a `ClaimOp`, `skipped` are the rows its query passed over: those
    locked by other transactions when it ran, and those that only became candidates before it committed.
   */
  datatype Op =
    | CreateOp(uuid: Id, user: Id, url: string, name: string, interval: int, enabled: bool, now: Time)
    | PatchOp(monitor: Id, user: Id, url: string, name: string, interval: int, enabled: bool)
    | DeleteOp(monitor: Id, user: Id)
    | ClaimOp(now: Time, limit: nat, skipped: set<Id>, ids: seq<Id>)
    | ApplyOp(monitor: Id, check: CheckResult, uuid: Id)

  predicate ValidInterval(interval: int) {
    MIN_INTERVAL <= interval <= MAX_INTERVAL
  }

  /** What the services and the database guarantee about an operation that is carried out on `db`. */
  ghost predicate Allowed(db: Db, op: Op) {
    match op
    case CreateOp(uuid, _, _, _, interval, _, _) => uuid !in db.issued && ValidInterval(interval)
    case PatchOp(_, _, _, _, interval, _) => ValidInterval(interval)
    case DeleteOp(_, _) => true
    case ClaimOp(now, limit, skipped, ids) => IsClaimSelection(db, now, limit, skipped, ids)
    case ApplyOp(_, _, uuid) => uuid !in db.issued
  }

  ghost function Step(db: Db, op: Op): Db {
    match op
    case CreateOp(uuid, user, url, name, interval, enabled, now) =>
      InsertMonitor(db, uuid, NewMonitor(user, url, name, interval, enabled, now))
    case PatchOp(m, user, url, name, interval, enabled) => PatchMonitor(db, m, user, url, name, interval, enabled)
    case DeleteOp(m, user) => DeleteMonitor(db, m, user)
    case ClaimOp(now, _, _, ids) => db.(monitors := Reschedule(db.monitors, SetOf(ids), now))
    case ApplyOp(m, check, uuid) => ApplyCheck(db, m, check, uuid).0
  }

  /** The events worth reporting that an operation produces. */
  ghost function Emitted(db: Db, op: Op): seq<Event> {
    if op.ApplyOp? then
      match ApplyCheck(db, op.monitor, op.check, op.uuid).1
      case Ok(event) => if event.kind == NoEvent then [] else [event]
      case Err(_) => []
    else []
  }

  /** The database together with all events committed so far. */
  datatype World = World(db: Db, events: seq<Event>)

  const START: World := World(EMPTY, [])

  ghost function Next(w: World, op: Op): World {
    World(Step(w.db, op), w.events + Emitted(w.db, op))
  }

  ghost function Exec(w: World, ops: seq<Op>): World
    decreases ops
  {
    if ops == [] then w else Exec(Next(w, ops[0]), ops[1..])
  }

  ghost predicate ValidRun(db: Db, ops: seq<Op>)
    decreases ops
  {
    ops == [] || (Allowed(db, ops[0]) && ValidRun(Step(db, ops[0]), ops[1..]))
  }

  lemma RunCons(w: World, op: Op, rest: seq<Op>)
    ensures Exec(w, [op] + rest) == Exec(Next(w, op), rest)
    ensures ValidRun(w.db, [op] + rest) <==> Allowed(w.db, op) && ValidRun(Next(w, op).db, rest)
  {
    assert ([op] + rest)[1..] == rest;
  }

  // ---------------------------------------------------------------------------------------------
  // The invariant
  // ---------------------------------------------------------------------------------------------

  /** The incident row of one outage: opened at its third failed check, resolved by the success that ends it. */
  ghost predicate RecordsOutage(checks: seq<CheckResult>, o: Outage, i: IncidentRow) {
    && o.start + THRESHOLD <= o.end <= |checks|
    && i.startedAt == checks[o.start + THRESHOLD - 1].checkedAt
    && i.reason == IncidentReason(checks[o.start + THRESHOLD - 1])
    && (i.open <==> o.end == |checks|)
    && i.resolvedAt == if o.end == |checks| then None else Some(checks[o.end].checkedAt)
  }

  /** The incidents of a monitor are exactly the outages of its log, in order. */
  ghost predicate RecordsOutages(checks: seq<CheckResult>, incidents: seq<IncidentRow>) {
    RecordsEach(checks, Outages(checks), incidents)
  }

  ghost predicate RecordsEach(checks: seq<CheckResult>, outages: seq<Outage>, incidents: seq<IncidentRow>) {
    && |incidents| == |outages|
    && forall k :: 0 <= k < |incidents| ==> RecordsOutage(checks, outages[k], incidents[k])
  }

  ghost predicate DistinctIds(incidents: seq<IncidentRow>) {
    forall j, k :: 0 <= j < k < |incidents| ==> incidents[j].id != incidents[k].id
  }

  ghost function LastCheckedAt(checks: seq<CheckResult>): Option<Time> {
    if checks == [] then None else Some(checks[|checks| - 1].checkedAt)
  }

  ghost predicate MonitorConsistent(row: MonitorRow, checks: seq<CheckResult>, incidents: seq<IncidentRow>) {
    && row.failures == FailingSuffix(checks)
    && row.status == StatusFrom(checks)
    && row.lastCheckedAt == LastCheckedAt(checks)
    && RecordsOutages(checks, incidents)
    && DistinctIds(incidents)
  }

  ghost predicate Consistent(db: Db, m: Id)
    requires m in db.monitors
  {
    MonitorConsistent(db.monitors[m], ChecksOf(db.checklogs, m), IncidentsOf(db.incidents, m))
  }

  /** Foreign keys and primary keys hold, intervals are in range, and every monitor is consistent. */
  ghost predicate Wf(db: Db) {
    && db.monitors.Keys <= db.issued
    && (forall l :: l in db.checklogs ==> l.monitor in db.monitors)
    && (forall i :: i in db.incidents ==> i.monitor in db.monitors && i.id in db.issued)
    && KeysUnique(db.incidents)
    && (forall m :: m in db.monitors ==> ValidInterval(db.monitors[m].interval))
    && (forall m :: m in db.monitors ==> Consistent(db, m))
  }

  // ---------------------------------------------------------------------------------------------
  // One monitor, one check
  // ---------------------------------------------------------------------------------------------

  lemma OnlyLastOpen(checks: seq<CheckResult>, os: seq<Outage>, incidents: seq<IncidentRow>, k: nat)
    requires RecordsEach(checks, os, incidents) && k < |incidents|
    requires forall j, k :: 0 <= j < k < |os| ==> os[j].end < os[k].start
    ensures incidents[k].open <==> os[k].end == |checks|
    ensures k < |incidents| - 1 ==> !incidents[k].open
  {
    assert RecordsOutage(checks, os[k], incidents[k]);
    if k < |incidents| - 1 {
      assert RecordsOutage(checks, os[k + 1], incidents[k + 1]);
    }
  }

  /** An outage reaches the end of the log exactly while it is under way. */
  lemma LastOutageEnds(checks: seq<CheckResult>)
    requires Outages(checks) != []
    ensures Outages(checks)[|Outages(checks)| - 1].end == |checks| <==> FailingSuffix(checks) >= THRESHOLD
  {
    OutagesSound(checks);
    assert IsOutage(checks, Outages(checks)[|Outages(checks)| - 1]);
  }

  /** Only the newest incident can be open, and it is open exactly during an outage. */
  lemma OnlyNewestOpen(checks: seq<CheckResult>, incidents: seq<IncidentRow>)
    requires RecordsOutages(checks, incidents)
    ensures forall k :: 0 <= k < |incidents| - 1 ==> !incidents[k].open
    ensures incidents != [] && incidents[|incidents| - 1].open <==> FailingSuffix(checks) >= THRESHOLD
  {
    OutagesSound(checks);
    forall k | 0 <= k < |incidents| - 1 ensures !incidents[k].open {
      OnlyLastOpen(checks, Outages(checks), incidents, k);
    }
    if incidents != [] {
      OnlyLastOpen(checks, Outages(checks), incidents, |incidents| - 1);
      LastOutageEnds(checks);
    }
  }

  lemma {:induction false} FirstOpenIsNewest(incidents: seq<IncidentRow>)
    requires forall k :: 0 <= k < |incidents| - 1 ==> !incidents[k].open
    ensures FirstOpen(incidents) ==
            if incidents != [] && incidents[|incidents| - 1].open then Some(incidents[|incidents| - 1].id) else None
  {
    if |incidents| > 1 {
      FirstOpenIsNewest(incidents[1..]);
    }
  }

  /** The open incidents of a consistent monitor: one during an outage, otherwise none. */
  lemma OpenIncident(checks: seq<CheckResult>, incidents: seq<IncidentRow>)
    requires RecordsOutages(checks, incidents)
    ensures FirstOpen(incidents) ==
            if FailingSuffix(checks) >= THRESHOLD && incidents != [] then Some(incidents[|incidents| - 1].id) else None
    ensures FailingSuffix(checks) >= THRESHOLD ==> incidents != []
  {
    OnlyNewestOpen(checks, incidents);
    FirstOpenIsNewest(incidents);
  }

  /** The row of an outage that is over stays right. */
  lemma ClosedRecordKept(checks: seq<CheckResult>, o: Outage, i: IncidentRow, r: CheckResult)
    requires RecordsOutage(checks, o, i) && !i.open
    ensures RecordsOutage(checks + [r], o, i)
  {
  }

  /** The row of the outage under way stays right when the outage gets longer. */
  lemma OpenRecordKept(checks: seq<CheckResult>, o: Outage, i: IncidentRow, r: CheckResult)
    requires RecordsOutage(checks, o, i) && i.open
    ensures RecordsOutage(checks + [r], Outage(o.start, |checks| + 1), i)
  {
  }

  lemma ClosedRecordsKept(checks: seq<CheckResult>, os: seq<Outage>, incidents: seq<IncidentRow>, r: CheckResult)
    requires RecordsEach(checks, os, incidents)
    requires forall k :: 0 <= k < |incidents| ==> !incidents[k].open
    ensures RecordsEach(checks + [r], os, incidents)
  {
    forall k | 0 <= k < |incidents| ensures RecordsOutage(checks + [r], os[k], incidents[k]) {
      ClosedRecordKept(checks, os[k], incidents[k], r);
    }
  }

  lemma LengthenedRecordsKept(checks: seq<CheckResult>, os: seq<Outage>, incidents: seq<IncidentRow>, r: CheckResult)
    requires RecordsEach(checks, os, incidents)
    requires incidents != [] && incidents[|incidents| - 1].open
    requires forall k :: 0 <= k < |incidents| - 1 ==> !incidents[k].open
    ensures RecordsEach(checks + [r], os[|os| - 1 := Outage(os[|os| - 1].start, |checks| + 1)], incidents)
  {
    var n := |incidents| - 1;
    ClosedRecordsKept(checks, os[..n], incidents[..n], r);
    OpenRecordKept(checks, os[n], incidents[n], r);
  }

  /** A check that neither starts nor ends an outage leaves the incidents right as they are. */
  lemma RecordsKept(checks: seq<CheckResult>, incidents: seq<IncidentRow>, r: CheckResult)
    requires RecordsOutages(checks, incidents)
    requires if r.success then FailingSuffix(checks) < THRESHOLD else FailingSuffix(checks) != THRESHOLD - 1
    ensures RecordsOutages(checks + [r], incidents)
  {
    OutagesAdvance(checks, r);
    OnlyNewestOpen(checks, incidents);
    if FailingSuffix(checks) < THRESHOLD {
      ClosedRecordsKept(checks, Outages(checks), incidents, r);
    } else {
      LengthenedRecordsKept(checks, Outages(checks), incidents, r);
    }
  }

  lemma RecordsOpened(checks: seq<CheckResult>, incidents: seq<IncidentRow>, m: Id, r: CheckResult, uuid: Id)
    requires RecordsOutages(checks, incidents)
    requires !r.success && FailingSuffix(checks) == THRESHOLD - 1
    ensures RecordsOutages(checks + [r], incidents + [OpenedIncident(m, r, uuid)])
  {
    OutagesAdvance(checks, r);
    OnlyNewestOpen(checks, incidents);
    ClosedRecordsKept(checks, Outages(checks), incidents, r);
  }

  lemma RecordsResolved(checks: seq<CheckResult>, incidents: seq<IncidentRow>, m: Id, r: CheckResult)
    requires RecordsOutages(checks, incidents)
    requires forall k :: 0 <= k < |incidents| ==> incidents[k].monitor == m
    requires r.success && FailingSuffix(checks) >= THRESHOLD
    ensures incidents != []
    ensures ResolveOpen(incidents, m, r.checkedAt) ==
            incidents[|incidents| - 1 := ResolveRow(incidents[|incidents| - 1], r.checkedAt)]
    ensures RecordsOutages(checks + [r], ResolveOpen(incidents, m, r.checkedAt))
  {
    OutagesAdvance(checks, r);
    OnlyNewestOpen(checks, incidents);
    ResolveOpenAt(incidents, m, r.checkedAt);
    var os, incidents' := Outages(checks), ResolveOpen(incidents, m, r.checkedAt);
    assert incidents' == incidents[|incidents| - 1 := ResolveRow(incidents[|incidents| - 1], r.checkedAt)];
    forall k | 0 <= k < |incidents| ensures RecordsOutage(checks + [r], os[k], incidents'[k]) {
      assert RecordsOutage(checks, os[k], incidents[k]);
    }
  }

  // ---------------------------------------------------------------------------------------------
  // Every operation keeps the invariant
  // ---------------------------------------------------------------------------------------------

  /**
    The apply transaction fails of itself in one case only: a failed check when the failure counter
    is already the largest `int` the column holds. The unique index on open incidents is never
    violated, and a recovery always finds the incident it resolves.
   */
  lemma ApplyOutcome(db: Db, m: Id, r: CheckResult, uuid: Id)
    requires Wf(db)
    ensures ApplyCheck(db, m, r, uuid).1 == Err(MonitorNotFound) <==> m !in db.monitors
    ensures ApplyCheck(db, m, r, uuid).1 == Err(StatementFailed) <==>
            m in db.monitors && !r.success && db.monitors[m].failures >= 2147483647
    ensures ApplyCheck(db, m, r, uuid).1.Err? ==> ApplyCheck(db, m, r, uuid).0 == db
    ensures
      var outcome := ApplyCheck(db, m, r, uuid).1;
      outcome.Ok? && outcome.value.kind == RecoveredEvent ==>
        exists i :: i in db.incidents && i.monitor == m && i.open && outcome.value.incident == Some(i.id)
  {
    if m in db.monitors {
      var checks, incidents := ChecksOf(db.checklogs, m), IncidentsOf(db.incidents, m);
      assert Consistent(db, m);
      MachineFollowsHistory(checks, r);
      assert (checks + [r])[..|checks|] == checks;
      OpenIncident(checks, incidents);
      OnlyNewestOpen(checks, incidents);
      if incidents != [] {
        var i := incidents[|incidents| - 1];
        assert i in db.incidents && i.monitor == m;
      }
    }
  }

  /** What a committed check makes of its own monitor. */
  lemma ConsistentAfterCheck(
      row: MonitorRow, checks: seq<CheckResult>, incidents: seq<IncidentRow>, m: Id, r: CheckResult, uuid: Id)
    requires MonitorConsistent(row, checks, incidents)
    requires forall k :: 0 <= k < |incidents| ==> incidents[k].monitor == m && incidents[k].id != uuid
    ensures
      var kind := EvaluateStateTransition(row.status, row.failures, r.success).event;
      MonitorConsistent(Advance(row, r), checks + [r], IncidentsAfter(kind, incidents, m, r, uuid))
  {
    MachineFollowsHistory(checks, r);
    assert (checks + [r])[..|checks|] == checks;
    match EvaluateStateTransition(row.status, row.failures, r.success).event {
      case NoEvent =>
        RecordsKept(checks, incidents, r);
      case DownEvent =>
        RecordsOpened(checks, incidents, m, r, uuid);
      case RecoveredEvent =>
        RecordsResolved(checks, incidents, m, r);
    }
  }

  lemma ApplyKeepsConsistent(db: Db, m: Id, r: CheckResult, uuid: Id, other: Id)
    requires m in db.monitors && other in db.monitors && Consistent(db, other)
    requires forall i :: i in db.incidents ==> i.id != uuid
    ensures other in ApplyCheck(db, m, r, uuid).0.monitors && Consistent(ApplyCheck(db, m, r, uuid).0, other)
  {
    var row := db.monitors[m];
    var kind := EvaluateStateTransition(row.status, row.failures, r.success).event;
    ChecksOfAppend(db.checklogs, LogRow(m, r), other);
    IncidentsOfAfter(kind, db.incidents, m, r, uuid, other);
    if ApplyCheck(db, m, r, uuid).1.Ok? && other == m {
      ConsistentAfterCheck(row, ChecksOf(db.checklogs, m), IncidentsOf(db.incidents, m), m, r, uuid);
    }
  }

  ghost predicate KeysUnique(incidents: seq<IncidentRow>) {
    forall i, j :: i in incidents && j in incidents && i.id == j.id ==> i == j
  }

  /** Resolving incidents keeps their keys and monitors. */
  lemma ResolveKeepsKeys(incidents: seq<IncidentRow>, m: Id, at: Time)
    requires KeysUnique(incidents)
    ensures KeysUnique(ResolveOpen(incidents, m, at))
    ensures forall i :: i in ResolveOpen(incidents, m, at) ==>
              exists j :: j in incidents && i.id == j.id && i.monitor == j.monitor
  {
    ResolveOpenAt(incidents, m, at);
    var after := ResolveOpen(incidents, m, at);
    forall i | i in after ensures exists j :: j in incidents && i == ResolveIfOpen(j, m, at) {
      var k :| 0 <= k < |after| && after[k] == i;
      assert incidents[k] in incidents;
    }
  }

  lemma WfKeptByIncident(db: Db, db': Db, kind: EventKind, m: Id, r: CheckResult, uuid: Id)
    requires Wf(db) && m in db.monitors && uuid !in db.issued
    requires db'.incidents == IncidentsAfter(kind, db.incidents, m, r, uuid)
    requires db'.monitors.Keys == db.monitors.Keys
    requires db'.issued == if kind == DownEvent then db.issued + {uuid} else db.issued
    ensures KeysUnique(db'.incidents)
    ensures forall i :: i in db'.incidents ==> i.monitor in db'.monitors && i.id in db'.issued
  {
    ResolveKeepsKeys(db.incidents, m, r.checkedAt);
  }

  lemma WfKeptByApply(db: Db, m: Id, r: CheckResult, uuid: Id)
    requires Wf(db) && uuid !in db.issued
    ensures Wf(ApplyCheck(db, m, r, uuid).0)
  {
    if m in db.monitors {
      var row := db.monitors[m];
      var db' := ApplyCheck(db, m, r, uuid).0;
      if db' != db {
        WfKeptByIncident(db, db', EvaluateStateTransition(row.status, row.failures, r.success).event, m, r, uuid);
      }
      forall other | other in db'.monitors ensures Consistent(db', other) {
        ApplyKeepsConsistent(db, m, r, uuid, other);
      }
    }
  }

  lemma WfKeptByCreate(db: Db, uuid: Id, row: MonitorRow)
    requires Wf(db) && uuid !in db.issued && ValidInterval(row.interval)
    requires row.status == Unknown && row.failures == 0 && row.lastCheckedAt == None
    ensures Wf(InsertMonitor(db, uuid, row))
  {
    NoChecksWithoutRow(db.checklogs, uuid);
    NoIncidentsWithoutRow(db.incidents, uuid);
    var db' := InsertMonitor(db, uuid, row);
    forall m | m in db'.monitors ensures Consistent(db', m) {
      if m != uuid {
        assert Consistent(db, m);
      }
    }
  }

  lemma DeleteKeepsConsistent(db: Db, gone: Id, user: Id, m: Id)
    requires m in db.monitors && Consistent(db, m)
    ensures m in DeleteMonitor(db, gone, user).monitors ==> Consistent(DeleteMonitor(db, gone, user), m)
  {
    ChecksOfWithout(db.checklogs, gone, m);
    IncidentsOfWithout(db.incidents, gone, m);
  }

  lemma WithoutKeepsKeys(incidents: seq<IncidentRow>, gone: Id)
    requires KeysUnique(incidents)
    ensures KeysUnique(IncidentsWithout(incidents, gone))
  {
  }

  lemma WfKeptByDelete(db: Db, gone: Id, user: Id)
    requires Wf(db)
    ensures Wf(DeleteMonitor(db, gone, user))
  {
    if Owns(db, gone, user) {
      var db' := DeleteMonitor(db, gone, user);
      WithoutKeepsKeys(db.incidents, gone);
      forall m | m in db'.monitors ensures Consistent(db', m) {
        DeleteKeepsConsistent(db, gone, user, m);
      }
    }
  }

  lemma WfKeptByRowUpdates(db: Db, db': Db)
    requires Wf(db)
    requires db'.monitors.Keys == db.monitors.Keys
    requires db' == db.(monitors := db'.monitors)
    requires forall m :: m in db'.monitors ==>
               && ValidInterval(db'.monitors[m].interval)
               && db'.monitors[m].status == db.monitors[m].status
               && db'.monitors[m].failures == db.monitors[m].failures
               && db'.monitors[m].lastCheckedAt == db.monitors[m].lastCheckedAt
    ensures Wf(db')
  {
    forall m | m in db'.monitors ensures Consistent(db', m) {
      assert Consistent(db, m);
    }
  }

  /** A patch or a claim updates rows, and no column that the checks maintain. */
  lemma ConfiguringUpdatesRows(db: Db, op: Op)
    requires Allowed(db, op) && (op.PatchOp? || op.ClaimOp?)
    requires forall m :: m in db.monitors ==> ValidInterval(db.monitors[m].interval)
    ensures
      var db' := Step(db, op);
      && db'.monitors.Keys == db.monitors.Keys
      && db' == db.(monitors := db'.monitors)
      && forall m :: m in db'.monitors ==>
           && ValidInterval(db'.monitors[m].interval)
           && db'.monitors[m].status == db.monitors[m].status
           && db'.monitors[m].failures == db.monitors[m].failures
           && db'.monitors[m].lastCheckedAt == db.monitors[m].lastCheckedAt
  {
  }

  lemma WfKeptByConfiguring(db: Db, op: Op)
    requires Wf(db) && Allowed(db, op) && (op.PatchOp? || op.ClaimOp?)
    ensures Wf(Step(db, op))
  {
    ConfiguringUpdatesRows(db, op);
    WfKeptByRowUpdates(db, Step(db, op));
  }

  lemma IssuedGrows(db: Db, op: Op)
    ensures db.issued <= Step(db, op).issued
  {
  }

  lemma WfKept(db: Db, op: Op)
    requires Wf(db) && Allowed(db, op)
    ensures Wf(Step(db, op))
    ensures db.issued <= Step(db, op).issued
  {
    IssuedGrows(db, op);
    match op
    case CreateOp(uuid, user, url, name, interval, enabled, now) =>
      WfKeptByCreate(db, uuid, NewMonitor(user, url, name, interval, enabled, now));
    case DeleteOp(m, user) => WfKeptByDelete(db, m, user);
    case ApplyOp(m, check, uuid) => WfKeptByApply(db, m, check, uuid);
    case _ => WfKeptByConfiguring(db, op);
  }

  // ---------------------------------------------------------------------------------------------
  // The log of one monitor
  // ---------------------------------------------------------------------------------------------

  predicate IsCheckOf(op: Op, m: Id) {
    op.ApplyOp? && op.monitor == m
  }

  lemma RecordedStep(db: Db, k: Id, check: CheckResult, uuid: Id, m: Id)
    requires ApplyCheck(db, k, check, uuid).1.Ok?
    ensures ChecksOf(Step(db, ApplyOp(k, check, uuid)).checklogs, m) ==
            ChecksOf(db.checklogs, m) + if k == m then [check] else []
  {
    assert Step(db, ApplyOp(k, check, uuid)).checklogs == db.checklogs + [LogRow(k, check)];
    ChecksOfAppend(db.checklogs, LogRow(k, check), m);
  }

  /** The log of a monitor after one operation that does not delete it. */
  lemma LogStep(db: Db, op: Op, m: Id)
    requires op.ApplyOp? ==> ApplyCheck(db, op.monitor, op.check, op.uuid).1.Ok?
    requires m in db.monitors ==> m in Step(db, op).monitors
    requires m !in db.monitors ==> ChecksOf(db.checklogs, m) == []
    ensures ChecksOf(Step(db, op).checklogs, m) ==
            ChecksOf(db.checklogs, m) + if IsCheckOf(op, m) then [op.check] else []
  {
    match op
    case ApplyOp(k, check, uuid) => RecordedStep(db, k, check, uuid, m);
    case DeleteOp(k, _) => ChecksOfWithout(db.checklogs, k, m);
    case _ =>
  }

  lemma StaysGone(db: Db, op: Op, m: Id)
    requires Allowed(db, op) && m in db.issued && m !in db.monitors
    ensures m in Step(db, op).issued && m !in Step(db, op).monitors
  {
  }
}
