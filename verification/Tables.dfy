/**
  The database the API, the worker and the bot share, and the meaning of each committed
  transaction on it. A table is a sequence of rows in commit order, or a map from primary keys.
 */
module Tables {
  import opened Common
  import opened Health

  datatype MonitorRow = MonitorRow(
    user: Id,
    url: string,
    name: string,
    interval: int,
    timeout: int,
    enabled: bool,
    status: Status,
    failures: nat,
    nextCheckAt: Time,
    lastCheckedAt: Option<Time>,
    createdAt: Time)

  datatype LogRow = LogRow(monitor: Id, check: CheckResult)

  datatype IncidentRow = IncidentRow(
    id: Id,
    monitor: Id,
    open: bool,
    reason: string,
    startedAt: Time,
    resolvedAt: Option<Time>)

  /** `issued` holds every uuid that a committed row has ever had. */
  datatype Db = Db(
    monitors: map<Id, MonitorRow>,
    checklogs: seq<LogRow>,
    incidents: seq<IncidentRow>,
    issued: set<Id>)

  const EMPTY: Db := Db(map[], [], [], {})

  const MIN_INTERVAL: int := 30
  const MAX_INTERVAL: int := 3600
  const DEFAULT_TIMEOUT: int := 5

  // ---------------------------------------------------------------------------------------------
  // Queries
  // ---------------------------------------------------------------------------------------------

  /** The checks recorded for one monitor, in commit order. */
  function ChecksOf(logs: seq<LogRow>, m: Id): seq<CheckResult> {
    if logs == [] then []
    else
      var l := logs[|logs| - 1];
      ChecksOf(logs[..|logs| - 1], m) + if l.monitor == m then [l.check] else []
  }

  /** The incidents of one monitor, in commit order. */
  function IncidentsOf(incidents: seq<IncidentRow>, m: Id): (r: seq<IncidentRow>)
    ensures forall i :: i in r ==> i in incidents && i.monitor == m
  {
    if incidents == [] then []
    else
      var i := incidents[|incidents| - 1];
      IncidentsOf(incidents[..|incidents| - 1], m) + if i.monitor == m then [i] else []
  }

  /** The id returned by a statement that touches the open incidents of a monitor. */
  function FirstOpen(incidents: seq<IncidentRow>): Option<Id> {
    if incidents == [] then None
    else if incidents[0].open then Some(incidents[0].id)
    else FirstOpen(incidents[1..])
  }

  // ---------------------------------------------------------------------------------------------
  // The worker's transactions
  // ---------------------------------------------------------------------------------------------

  datatype Event = Event(
    kind: EventKind,
    monitor: Id,
    row: MonitorRow,
    check: CheckResult,
    incident: Option<Id>)

  datatype ApplyError = MonitorNotFound | StatementFailed

  function IncidentReason(r: CheckResult): string {
    if r.errorMessage != "" then r.errorMessage
    else if r.statusCode != 0 then "http status " + Decimal(r.statusCode)
    else "check failed"
  }

  function Advance(row: MonitorRow, r: CheckResult): MonitorRow {
    var t := EvaluateStateTransition(row.status, row.failures, r.success);
    row.(status := t.nextStatus, failures := t.nextFailures, lastCheckedAt := Some(r.checkedAt))
  }

  function OpenedIncident(m: Id, r: CheckResult, uuid: Id): IncidentRow {
    IncidentRow(uuid, m, true, IncidentReason(r), r.checkedAt, None)
  }

  function ResolveRow(i: IncidentRow, at: Time): IncidentRow {
    i.(open := false, resolvedAt := Some(at))
  }

  function ResolveIfOpen(i: IncidentRow, m: Id, at: Time): IncidentRow {
    if i.monitor == m && i.open then ResolveRow(i, at) else i
  }

  /** `update incidents set status = 'resolved' ... where monitor_id = m and status = 'open'`. */
  function ResolveOpen(incidents: seq<IncidentRow>, m: Id, at: Time): (r: seq<IncidentRow>) {
    if incidents == [] then []
    else
      ResolveOpen(incidents[..|incidents| - 1], m, at) + [ResolveIfOpen(incidents[|incidents| - 1], m, at)]
  }

  /** The incidents table after a check that produces an event of kind `kind`. */
  function IncidentsAfter(kind: EventKind, incidents: seq<IncidentRow>, m: Id, r: CheckResult, uuid: Id)
    : seq<IncidentRow>
  {
    match kind
    case NoEvent => incidents
    case DownEvent => incidents + [OpenedIncident(m, r, uuid)]
    case RecoveredEvent => ResolveOpen(incidents, m, r.checkedAt)
  }

  /** The incident id the event carries; `mine` are the incidents of the monitor before the check. */
  function IncidentTouched(kind: EventKind, mine: seq<IncidentRow>, uuid: Id): Option<Id> {
    match kind
    case NoEvent => None
    case DownEvent => Some(uuid)
    case RecoveredEvent => FirstOpen(mine)
  }

  /**
    What one run of the apply transaction makes of the database and reports. `uuid` is the key the
    incidents table generates if a row is inserted. Two statements can fail of themselves: the
    failure counter does not fit its `int` column, and a second open incident of the same monitor
    violates the partial unique index. Either way nothing is committed.
   */
  function ApplyCheck(db: Db, m: Id, r: CheckResult, uuid: Id): (Db, Result<Event, ApplyError>) {
    if m !in db.monitors then (db, Err(MonitorNotFound))
    else
      var row := db.monitors[m];
      var row' := Advance(row, r);
      var kind := EvaluateStateTransition(row.status, row.failures, r.success).event;
      var mine := IncidentsOf(db.incidents, m);
      if row'.failures > MAX_INT32 || (kind == DownEvent && FirstOpen(mine).Some?) then
        (db, Err(StatementFailed))
      else
        (Db(db.monitors[m := row'],
            db.checklogs + [LogRow(m, r)],
            IncidentsAfter(kind, db.incidents, m, r, uuid),
            if kind == DownEvent then db.issued + {uuid} else db.issued),
         Ok(Event(kind, m, row', r, IncidentTouched(kind, mine, uuid))))
  }

  /** What the reason of an incident tells of the check that opened it: its error, or else its status code. */
  ghost predicate Explains(reason: string, r: CheckResult) {
    && (r.errorMessage != "" ==> reason == r.errorMessage)
    && (r.errorMessage == "" && r.statusCode != 0 ==>
          exists digits :: IsDecimal(digits, r.statusCode) && reason == "http status " + digits)
    && (r.errorMessage == "" && r.statusCode == 0 ==> reason == "check failed")
  }

  lemma ReasonExplains(r: CheckResult)
    ensures Explains(IncidentReason(r), r)
  {
    DecimalExact(r.statusCode);
  }

  /** Only the columns that describe a monitor's health differ. */
  predicate SameButHealth(row: MonitorRow, row': MonitorRow) {
    && row'.user == row.user && row'.url == row.url && row'.name == row.name
    && row'.interval == row.interval && row'.timeout == row.timeout && row'.enabled == row.enabled
    && row'.nextCheckAt == row.nextCheckAt && row'.createdAt == row.createdAt
  }

  /**
    What an event says is true: it carries the check, and the monitor as it is stored after it; it says down
    exactly when the check has taken the monitor down, with the incident that is opened, and recovered exactly
    when it has brought the monitor up from down.
   */
  ghost predicate TellsTruth(db: Db, db': Db, m: Id, r: CheckResult, uuid: Id, e: Event) {
    && m in db.monitors && m in db'.monitors
    && e.monitor == m && e.check == r && e.row == db'.monitors[m]
    && e.row.lastCheckedAt == Some(r.checkedAt)
    && (e.kind == DownEvent <==> db.monitors[m].status != Down && e.row.status == Down)
    && (e.kind == RecoveredEvent <==> db.monitors[m].status == Down && e.row.status == Up)
    && (e.kind == RecoveredEvent ==> r.success)
    && (e.kind == DownEvent ==>
          && !r.success && e.row.failures >= 3
          && e.incident == Some(uuid)
          && exists reason ::
               && Explains(reason, r)
               && db'.incidents == db.incidents + [IncidentRow(uuid, m, true, reason, r.checkedAt, None)])
    && (e.kind == NoEvent ==> e.incident == None && db'.incidents == db.incidents)
  }

  /** A check appends one log row, and changes no other monitor and no column but those of its monitor's health. */
  ghost predicate ChangesOnlyHealth(db: Db, db': Db, m: Id, r: CheckResult) {
    && m in db.monitors && db'.monitors.Keys == db.monitors.Keys
    && db'.monitors - {m} == db.monitors - {m}
    && SameButHealth(db.monitors[m], db'.monitors[m])
    && db'.checklogs == db.checklogs + [LogRow(m, r)]
  }

  lemma CheckTellsTruth(db: Db, m: Id, r: CheckResult, uuid: Id)
    requires ApplyCheck(db, m, r, uuid).1.Ok?
    ensures TellsTruth(db, ApplyCheck(db, m, r, uuid).0, m, r, uuid, ApplyCheck(db, m, r, uuid).1.value)
    ensures ChangesOnlyHealth(db, ApplyCheck(db, m, r, uuid).0, m, r)
  {
    ReasonExplains(r);
  }

  /** The where clause of the claim query. */
  predicate Due(row: MonitorRow, now: Time) {
    row.enabled && (row.lastCheckedAt == None || row.nextCheckAt <= now)
  }

  /** Rows the claim query may return: due, and not passed over. */
  ghost function Candidates(db: Db, now: Time, skipped: set<Id>): set<Id> {
    set m | m in db.monitors && Due(db.monitors[m], now) && m !in skipped
  }

  /**
    `order by next_check_at asc limit ... for update skip locked`: the earliest candidates, in
    order, as many as the limit allows. Ties may be broken either way. `skipped` are the rows the
    query passes over because another transaction has them locked.
   */
  ghost predicate IsClaimSelection(db: Db, now: Time, limit: nat, skipped: set<Id>, ids: seq<Id>) {
    && Distinct(ids)
    && |ids| <= limit
    && (forall k :: 0 <= k < |ids| ==> ids[k] in Candidates(db, now, skipped))
    && (forall i, j :: 0 <= i < j < |ids| ==> db.monitors[ids[i]].nextCheckAt <= db.monitors[ids[j]].nextCheckAt)
    && (forall m, k :: m in Candidates(db, now, skipped) && m !in ids && 0 <= k < |ids| ==>
          db.monitors[ids[k]].nextCheckAt <= db.monitors[m].nextCheckAt)
    && (|ids| < limit ==> forall m :: m in Candidates(db, now, skipped) ==> m in ids)
  }

  function RescheduleRow(row: MonitorRow, now: Time): MonitorRow {
    row.(nextCheckAt := now + row.interval * SECOND)
  }

  function Reschedule(monitors: map<Id, MonitorRow>, ids: set<Id>, now: Time): map<Id, MonitorRow> {
    map m | m in monitors :: if m in ids then RescheduleRow(monitors[m], now) else monitors[m]
  }

  ghost function SetOf(ids: seq<Id>): set<Id> {
    set m | m in ids
  }

  // ---------------------------------------------------------------------------------------------
  // The API's statements
  // ---------------------------------------------------------------------------------------------

  function NewMonitor(user: Id, url: string, name: string, interval: int, enabled: bool, now: Time): MonitorRow {
    MonitorRow(user, url, name, interval, DEFAULT_TIMEOUT, enabled, Unknown, 0, now, None, now)
  }

  /** The columns a patch writes; all others keep their values. */
  function PatchRow(row: MonitorRow, url: string, name: string, interval: int, enabled: bool): MonitorRow {
    row.(url := url, name := name, interval := interval, enabled := enabled)
  }

  function InsertMonitor(db: Db, uuid: Id, row: MonitorRow): Db {
    db.(monitors := db.monitors[uuid := row], issued := db.issued + {uuid})
  }

  predicate Owns(db: Db, m: Id, user: Id) {
    m in db.monitors && db.monitors[m].user == user
  }

  function PatchMonitor(db: Db, m: Id, user: Id, url: string, name: string, interval: int, enabled: bool): Db {
    if !Owns(db, m, user) then db
    else db.(monitors := db.monitors[m := PatchRow(db.monitors[m], url, name, interval, enabled)])
  }

  function LogsWithout(logs: seq<LogRow>, m: Id): (r: seq<LogRow>)
    ensures forall l :: l in r ==> l in logs && l.monitor != m
  {
    if logs == [] then []
    else
      var l := logs[|logs| - 1];
      LogsWithout(logs[..|logs| - 1], m) + if l.monitor == m then [] else [l]
  }

  function IncidentsWithout(incidents: seq<IncidentRow>, m: Id): (r: seq<IncidentRow>)
    ensures forall i :: i in r ==> i in incidents && i.monitor != m
  {
    if incidents == [] then []
    else
      var i := incidents[|incidents| - 1];
      IncidentsWithout(incidents[..|incidents| - 1], m) + if i.monitor == m then [] else [i]
  }

  /** Deleting a monitor cascades to its check logs and incidents. */
  function DeleteMonitor(db: Db, m: Id, user: Id): Db {
    if !Owns(db, m, user) then db
    else db.(
      monitors := db.monitors - {m},
      checklogs := LogsWithout(db.checklogs, m),
      incidents := IncidentsWithout(db.incidents, m))
  }

  // ---------------------------------------------------------------------------------------------
  // How the tables of one monitor respond to changes of the whole tables
  // ---------------------------------------------------------------------------------------------

  lemma ChecksOfAppend(logs: seq<LogRow>, l: LogRow, m: Id)
    ensures ChecksOf(logs + [l], m) == if l.monitor == m then ChecksOf(logs, m) + [l.check] else ChecksOf(logs, m)
  {
    assert (logs + [l])[..|logs|] == logs;
  }

  lemma IncidentsOfAppend(incidents: seq<IncidentRow>, i: IncidentRow, m: Id)
    ensures IncidentsOf(incidents + [i], m) ==
            if i.monitor == m then IncidentsOf(incidents, m) + [i] else IncidentsOf(incidents, m)
  {
    assert (incidents + [i])[..|incidents|] == incidents;
  }

  lemma {:induction false} ChecksOfWithout(logs: seq<LogRow>, gone: Id, m: Id)
    ensures ChecksOf(LogsWithout(logs, gone), m) == if m == gone then [] else ChecksOf(logs, m)
  {
    if logs != [] {
      var l := logs[|logs| - 1];
      ChecksOfWithout(logs[..|logs| - 1], gone, m);
      var rest := LogsWithout(logs[..|logs| - 1], gone);
      if l.monitor != gone {
        ChecksOfAppend(rest, l, m);
      } else {
        assert LogsWithout(logs, gone) == rest;
      }
    }
  }

  lemma {:induction false} IncidentsOfWithout(incidents: seq<IncidentRow>, gone: Id, m: Id)
    ensures IncidentsOf(IncidentsWithout(incidents, gone), m) == if m == gone then [] else IncidentsOf(incidents, m)
  {
    if incidents != [] {
      var i := incidents[|incidents| - 1];
      IncidentsOfWithout(incidents[..|incidents| - 1], gone, m);
      var rest := IncidentsWithout(incidents[..|incidents| - 1], gone);
      if i.monitor != gone {
        IncidentsOfAppend(rest, i, m);
      } else {
        assert IncidentsWithout(incidents, gone) == rest;
      }
    }
  }

  lemma {:induction false} ResolveOpenAt(incidents: seq<IncidentRow>, m: Id, at: Time)
    ensures |ResolveOpen(incidents, m, at)| == |incidents|
    ensures forall k :: 0 <= k < |incidents| ==> ResolveOpen(incidents, m, at)[k] == ResolveIfOpen(incidents[k], m, at)
  {
    if incidents != [] {
      ResolveOpenAt(incidents[..|incidents| - 1], m, at);
    }
  }

  lemma ResolveOpenAppend(incidents: seq<IncidentRow>, i: IncidentRow, m: Id, at: Time)
    ensures ResolveOpen(incidents + [i], m, at) == ResolveOpen(incidents, m, at) + [ResolveIfOpen(i, m, at)]
  {
    assert (incidents + [i])[..|incidents|] == incidents;
  }

  lemma {:induction false} IncidentsOfResolve(incidents: seq<IncidentRow>, resolved: Id, at: Time, m: Id)
    ensures
      IncidentsOf(ResolveOpen(incidents, resolved, at), m) ==
      if m == resolved then ResolveOpen(IncidentsOf(incidents, m), m, at) else IncidentsOf(incidents, m)
  {
    if incidents != [] {
      var i := incidents[|incidents| - 1];
      var front := incidents[..|incidents| - 1];
      var front' := ResolveOpen(front, resolved, at);
      var i' := ResolveIfOpen(i, resolved, at);
      assert i'.monitor == i.monitor;
      IncidentsOfResolve(front, resolved, at, m);
      assert ResolveOpen(incidents, resolved, at) == front' + [i'];
      IncidentsOfAppend(front', i', m);
      if i.monitor != m {
        assert IncidentsOf(incidents, m) == IncidentsOf(front, m);
      } else {
        assert IncidentsOf(incidents, m) == IncidentsOf(front, m) + [i];
        if m == resolved {
          ResolveOpenAppend(IncidentsOf(front, m), i, m, at);
        }
      }
    }
  }

  lemma IncidentsOfAfter(kind: EventKind, incidents: seq<IncidentRow>, m: Id, r: CheckResult, uuid: Id, other: Id)
    ensures
      IncidentsOf(IncidentsAfter(kind, incidents, m, r, uuid), other) ==
      if other == m then IncidentsAfter(kind, IncidentsOf(incidents, m), m, r, uuid) else IncidentsOf(incidents, other)
  {
    IncidentsOfAppend(incidents, OpenedIncident(m, r, uuid), other);
    IncidentsOfResolve(incidents, m, r.checkedAt, other);
  }

  lemma {:induction false} NoChecksWithoutRow(logs: seq<LogRow>, m: Id)
    requires forall l :: l in logs ==> l.monitor != m
    ensures ChecksOf(logs, m) == []
  {
    if logs != [] {
      assert logs[|logs| - 1] in logs;
      NoChecksWithoutRow(logs[..|logs| - 1], m);
    }
  }

  lemma {:induction false} NoIncidentsWithoutRow(incidents: seq<IncidentRow>, m: Id)
    requires forall i :: i in incidents ==> i.monitor != m
    ensures IncidentsOf(incidents, m) == []
  {
    if incidents != [] {
      assert incidents[|incidents| - 1] in incidents;
      NoIncidentsWithoutRow(incidents[..|incidents| - 1], m);
    }
  }
}
