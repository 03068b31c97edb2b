/**
  The main results about the worker's incident machine: what every run of committed operations
  says about the incident table, the status of a monitor and the sequence of events.
 */
module Reports {
  import opened Common
  import opened Health
  import opened Tables
  import opened Runs

  // ---------------------------------------------------------------------------------------------
  // Events and incidents
  // ---------------------------------------------------------------------------------------------

  /** What identifies an event: its kind and the incident it announces or closes. */
  datatype Key = Key(kind: EventKind, incident: Option<Id>)

  function KeyOf(e: Event): Key {
    Key(e.kind, e.incident)
  }

  /** The events of one monitor, in commit order. */
  function KeysOf(events: seq<Event>, m: Id): seq<Key> {
    if events == [] then []
    else
      var e := events[|events| - 1];
      KeysOf(events[..|events| - 1], m) + if e.monitor == m then [KeyOf(e)] else []
  }

  function OpeningAndClosing(i: IncidentRow): seq<Key> {
    if i.open then [Key(DownEvent, Some(i.id))]
    else [Key(DownEvent, Some(i.id)), Key(RecoveredEvent, Some(i.id))]
  }

  /** The events that a list of incidents calls for. */
  function IncidentKeys(incidents: seq<IncidentRow>): seq<Key> {
    if incidents == [] then []
    else IncidentKeys(incidents[..|incidents| - 1]) + OpeningAndClosing(incidents[|incidents| - 1])
  }

  /** down, recovered, down, recovered, ...; each recovery closes the incident announced just before. */
  ghost predicate Alternates(keys: seq<Key>) {
    forall i :: 0 <= i < |keys| ==>
      && keys[i].incident.Some?
      && (i % 2 == 0 ==> keys[i].kind == DownEvent)
      && (i % 2 == 1 ==> keys[i] == Key(RecoveredEvent, keys[i - 1].incident))
  }

  lemma KeysOfAppend(events: seq<Event>, e: Event, m: Id)
    ensures KeysOf(events + [e], m) == if e.monitor == m then KeysOf(events, m) + [KeyOf(e)] else KeysOf(events, m)
  {
    assert (events + [e])[..|events|] == events;
  }

  lemma {:induction false} KeysOfMember(events: seq<Event>, m: Id, key: Key)
    ensures key in KeysOf(events, m) <==> exists e :: e in events && e.monitor == m && KeyOf(e) == key
  {
    if events != [] {
      var front, e := events[..|events| - 1], events[|events| - 1];
      KeysOfMember(front, m, key);
      KeysOfAppend(front, e, m);
      assert events == front + [e];
    }
  }

  lemma {:induction false} IncidentKeysMember(incidents: seq<IncidentRow>, key: Key)
    ensures key in IncidentKeys(incidents) <==> exists i :: i in incidents && key in OpeningAndClosing(i)
  {
    if incidents != [] {
      var front, i := incidents[..|incidents| - 1], incidents[|incidents| - 1];
      IncidentKeysMember(front, key);
      assert incidents == front + [i];
    }
  }

  lemma AlternatesAppend(keys: seq<Key>, id: Id)
    requires Alternates(keys) && |keys| % 2 == 0
    ensures Alternates(keys + [Key(DownEvent, Some(id))])
    ensures Alternates(keys + [Key(DownEvent, Some(id)), Key(RecoveredEvent, Some(id))])
  {
  }

  lemma {:induction false} IncidentKeysAlternate(incidents: seq<IncidentRow>)
    requires forall k :: 0 <= k < |incidents| - 1 ==> !incidents[k].open
    ensures Alternates(IncidentKeys(incidents))
    ensures incidents == [] || !incidents[|incidents| - 1].open ==> |IncidentKeys(incidents)| % 2 == 0
  {
    if incidents != [] {
      var front := incidents[..|incidents| - 1];
      IncidentKeysAlternate(front);
      AlternatesAppend(IncidentKeys(front), incidents[|incidents| - 1].id);
    }
  }

  lemma IncidentKeysAppend(incidents: seq<IncidentRow>, i: IncidentRow)
    ensures IncidentKeys(incidents + [i]) == IncidentKeys(incidents) + OpeningAndClosing(i)
  {
    assert (incidents + [i])[..|incidents|] == incidents;
  }

  /** Resolving the newest incident calls for one more event. */
  lemma IncidentKeysResolved(incidents: seq<IncidentRow>, at: Time)
    requires incidents != [] && incidents[|incidents| - 1].open
    ensures
      var i := incidents[|incidents| - 1];
      IncidentKeys(incidents[|incidents| - 1 := ResolveRow(i, at)]) ==
      IncidentKeys(incidents) + [Key(RecoveredEvent, Some(i.id))]
  {
    var front, i := incidents[..|incidents| - 1], incidents[|incidents| - 1];
    assert incidents == front + [i];
    assert incidents[|incidents| - 1 := ResolveRow(i, at)] == front + [ResolveRow(i, at)];
    IncidentKeysAppend(front, i);
    IncidentKeysAppend(front, ResolveRow(i, at));
  }

  /** A check reports exactly the event that its change of the incidents calls for. */
  lemma CheckReportsChange(
      row: MonitorRow, checks: seq<CheckResult>, mine: seq<IncidentRow>, m: Id, r: CheckResult, uuid: Id)
    requires MonitorConsistent(row, checks, mine)
    requires forall k :: 0 <= k < |mine| ==> mine[k].monitor == m
    ensures
      var kind := EvaluateStateTransition(row.status, row.failures, r.success).event;
      var key := Key(kind, IncidentTouched(kind, mine, uuid));
      && IncidentKeys(IncidentsAfter(kind, mine, m, r, uuid)) ==
         (if kind == NoEvent then IncidentKeys(mine) else IncidentKeys(mine) + [key])
      && (kind == RecoveredEvent ==> exists i :: i in mine && i.open && key.incident == Some(i.id))
  {
    MachineFollowsHistory(checks, r);
    OpenIncident(checks, mine);
    OnlyNewestOpen(checks, mine);
    match EvaluateStateTransition(row.status, row.failures, r.success).event {
      case NoEvent =>
      case DownEvent =>
        IncidentKeysAppend(mine, OpenedIncident(m, r, uuid));
      case RecoveredEvent =>
        RecordsResolved(checks, mine, m, r);
        IncidentKeysResolved(mine, r.checkedAt);
        assert mine[|mine| - 1] in mine;
    }
  }

  // ---------------------------------------------------------------------------------------------
  // The invariant of a world
  // ---------------------------------------------------------------------------------------------

  /** The events of a monitor that still exists are the ones its incidents call for. */
  ghost predicate EventsMatchIncidents(w: World, m: Id) {
    KeysOf(w.events, m) == IncidentKeys(IncidentsOf(w.db.incidents, m))
  }

  ghost predicate KnownEvents(w: World) {
    forall e :: e in w.events ==>
      e.kind != NoEvent && e.monitor in w.db.issued && e.incident.Some? && e.incident.value in w.db.issued
  }

  /** An incident belongs to one monitor, also after both have been deleted. */
  ghost predicate OneMonitorPerIncident(events: seq<Event>) {
    forall e, f :: e in events && f in events && e.incident == f.incident ==> e.monitor == f.monitor
  }

  ghost predicate NoDuplicates(events: seq<Event>) {
    forall i, j :: 0 <= i < j < |events| ==> KeyOf(events[i]) != KeyOf(events[j])
  }

  ghost predicate Reported(w: World) {
    && Wf(w.db)
    && KnownEvents(w)
    && OneMonitorPerIncident(w.events)
    && NoDuplicates(w.events)
    && (forall m :: m in w.db.monitors ==> EventsMatchIncidents(w, m))
    && (forall m: Id :: m !in w.db.monitors ==> Alternates(KeysOf(w.events, m)))
  }

  /** The event of a committed check, seen from the incidents of its monitor. */
  lemma EmittedEvent(db: Db, m: Id, r: CheckResult, uuid: Id)
    requires m in db.monitors && Consistent(db, m)
    requires ApplyCheck(db, m, r, uuid).1.Ok?
    ensures
      var e := ApplyCheck(db, m, r, uuid).1.value;
      var mine, mine' := IncidentsOf(db.incidents, m), IncidentsOf(ApplyCheck(db, m, r, uuid).0.incidents, m);
      && IncidentKeys(mine') == (if e.kind == NoEvent then IncidentKeys(mine) else IncidentKeys(mine) + [KeyOf(e)])
      && (e.kind == RecoveredEvent ==> exists i :: i in mine && i.open && e.incident == Some(i.id))
  {
    var kind := EvaluateStateTransition(db.monitors[m].status, db.monitors[m].failures, r.success).event;
    CheckReportsChange(db.monitors[m], ChecksOf(db.checklogs, m), IncidentsOf(db.incidents, m), m, r, uuid);
    IncidentsOfAfter(kind, db.incidents, m, r, uuid, m);
  }

  lemma ConsistentAlternates(row: MonitorRow, checks: seq<CheckResult>, mine: seq<IncidentRow>)
    requires MonitorConsistent(row, checks, mine)
    ensures Alternates(IncidentKeys(mine))
  {
    OnlyNewestOpen(checks, mine);
    IncidentKeysAlternate(mine);
  }

  /** An open incident has been announced, and not closed. */
  lemma OpenIncidentKeys(events: seq<Event>, mine: seq<IncidentRow>, m: Id, i: IncidentRow)
    requires KeysOf(events, m) == IncidentKeys(mine) && KeysUnique(mine) && i in mine && i.open
    ensures exists e :: e in events && e.monitor == m && KeyOf(e) == Key(DownEvent, Some(i.id))
    ensures forall e :: e in events && e.monitor == m ==> KeyOf(e) != Key(RecoveredEvent, Some(i.id))
  {
    IncidentKeysMember(mine, Key(DownEvent, Some(i.id)));
    KeysOfMember(events, m, Key(DownEvent, Some(i.id)));
    IncidentKeysMember(mine, Key(RecoveredEvent, Some(i.id)));
    KeysOfMember(events, m, Key(RecoveredEvent, Some(i.id)));
  }

  /** The event of a check is news, and no other monitor has an event of the same incident. */
  lemma FreshKey(w: World, m: Id, r: CheckResult, uuid: Id)
    requires m in w.db.monitors && Consistent(w.db, m) && EventsMatchIncidents(w, m) && uuid !in w.db.issued
    requires KnownEvents(w) && OneMonitorPerIncident(w.events) && KeysUnique(IncidentsOf(w.db.incidents, m))
    requires forall i :: i in w.db.incidents ==> i.id in w.db.issued
    requires ApplyCheck(w.db, m, r, uuid).1.Ok? && ApplyCheck(w.db, m, r, uuid).1.value.kind != NoEvent
    ensures
      var e := ApplyCheck(w.db, m, r, uuid).1.value;
      && e.incident.Some? && e.incident.value in ApplyCheck(w.db, m, r, uuid).0.issued
      && FreshAmong(w.events, e)
  {
    EmittedEvent(w.db, m, r, uuid);
    var e := ApplyCheck(w.db, m, r, uuid).1.value;
    if e.kind == RecoveredEvent {
      var mine := IncidentsOf(w.db.incidents, m);
      var i :| i in mine && i.open && e.incident == Some(i.id);
      OpenIncidentKeys(w.events, mine, m, i);
    }
  }

  /** The world after a committed check. */
  lemma WorldAfterApply(w: World, m: Id, r: CheckResult, uuid: Id)
    requires ApplyCheck(w.db, m, r, uuid).1.Ok?
    ensures
      var e := ApplyCheck(w.db, m, r, uuid).1.value;
      && Next(w, ApplyOp(m, r, uuid)) ==
         World(ApplyCheck(w.db, m, r, uuid).0, if e.kind == NoEvent then w.events else w.events + [e])
      && e.monitor == m
  {
    assert w.events + [] == w.events;
  }

  /** A committed check leaves the events and incidents of other monitors alone. */
  lemma OthersKeepEvents(w: World, m: Id, r: CheckResult, uuid: Id, other: Id)
    requires ApplyCheck(w.db, m, r, uuid).1.Ok? && other != m
    ensures
      var w' := Next(w, ApplyOp(m, r, uuid));
      && KeysOf(w'.events, other) == KeysOf(w.events, other)
      && IncidentsOf(w'.db.incidents, other) == IncidentsOf(w.db.incidents, other)
  {
    WorldAfterApply(w, m, r, uuid);
    var e := ApplyCheck(w.db, m, r, uuid).1.value;
    KeysOfAppend(w.events, e, other);
    IncidentsOfAfter(e.kind, w.db.incidents, m, r, uuid, other);
  }

  lemma KeysFollowIncidents(events: seq<Event>, e: Event, m: Id, mine: seq<IncidentRow>, mine': seq<IncidentRow>)
    requires KeysOf(events, m) == IncidentKeys(mine) && e.monitor == m
    requires IncidentKeys(mine') == if e.kind == NoEvent then IncidentKeys(mine) else IncidentKeys(mine) + [KeyOf(e)]
    ensures KeysOf(if e.kind == NoEvent then events else events + [e], m) == IncidentKeys(mine')
  {
    KeysOfAppend(events, e, m);
  }

  lemma OwnEventsMatch(w: World, m: Id, r: CheckResult, uuid: Id)
    requires m in w.db.monitors && Consistent(w.db, m) && EventsMatchIncidents(w, m)
    requires ApplyCheck(w.db, m, r, uuid).1.Ok?
    ensures EventsMatchIncidents(Next(w, ApplyOp(m, r, uuid)), m)
  {
    var db', e := ApplyCheck(w.db, m, r, uuid).0, ApplyCheck(w.db, m, r, uuid).1.value;
    EmittedEvent(w.db, m, r, uuid);
    WorldAfterApply(w, m, r, uuid);
    KeysFollowIncidents(w.events, e, m, IncidentsOf(w.db.incidents, m), IncidentsOf(db'.incidents, m));
  }

  ghost predicate FreshAmong(events: seq<Event>, e: Event) {
    forall earlier :: earlier in events ==>
      KeyOf(earlier) != KeyOf(e) && (earlier.incident == e.incident ==> earlier.monitor == e.monitor)
  }

  lemma AppendFreshEvent(events: seq<Event>, e: Event)
    requires OneMonitorPerIncident(events) && NoDuplicates(events) && FreshAmong(events, e)
    ensures OneMonitorPerIncident(events + [e]) && NoDuplicates(events + [e])
  {
    assert forall i :: 0 <= i < |events| ==> events[i] in events;
  }

  lemma KeysFreshAfterApply(w: World, m: Id, r: CheckResult, uuid: Id)
    requires m in w.db.monitors && Consistent(w.db, m) && EventsMatchIncidents(w, m) && uuid !in w.db.issued
    requires m in w.db.issued && KeysUnique(w.db.incidents)
    requires forall i :: i in w.db.incidents ==> i.id in w.db.issued
    requires KnownEvents(w) && OneMonitorPerIncident(w.events) && NoDuplicates(w.events)
    requires ApplyCheck(w.db, m, r, uuid).1.Ok?
    ensures
      var w' := Next(w, ApplyOp(m, r, uuid));
      KnownEvents(w') && OneMonitorPerIncident(w'.events) && NoDuplicates(w'.events)
  {
    var w', e := Next(w, ApplyOp(m, r, uuid)), ApplyCheck(w.db, m, r, uuid).1.value;
    if e.kind != NoEvent {
      FreshKey(w, m, r, uuid);
      assert w'.events == w.events + [e];
      AppendFreshEvent(w.events, e);
    } else {
      assert w'.events == w.events;
    }
  }

  lemma MatchAfterApply(w: World, m: Id, r: CheckResult, uuid: Id, other: Id)
    requires m in w.db.monitors && Consistent(w.db, m) && EventsMatchIncidents(w, m)
    requires other in w.db.monitors ==> EventsMatchIncidents(w, other)
    requires ApplyCheck(w.db, m, r, uuid).1.Ok?
    ensures
      var w' := Next(w, ApplyOp(m, r, uuid));
      && (other in w.db.monitors ==> EventsMatchIncidents(w', other))
      && (other !in w.db.monitors ==> KeysOf(w'.events, other) == KeysOf(w.events, other))
  {
    if other == m {
      OwnEventsMatch(w, m, r, uuid);
    } else {
      OthersKeepEvents(w, m, r, uuid, other);
    }
  }

  lemma ReportedAfterApply(w: World, m: Id, r: CheckResult, uuid: Id)
    requires Reported(w) && uuid !in w.db.issued
    ensures Reported(Next(w, ApplyOp(m, r, uuid)))
  {
    if ApplyCheck(w.db, m, r, uuid).1.Ok? {
      WfKeptByApply(w.db, m, r, uuid);
      assert Consistent(w.db, m) && EventsMatchIncidents(w, m);
      KeysFreshAfterApply(w, m, r, uuid);
      forall other: Id
        ensures other !in w.db.monitors ==> Alternates(KeysOf(Next(w, ApplyOp(m, r, uuid)).events, other))
        ensures other in Next(w, ApplyOp(m, r, uuid)).db.monitors ==>
                  EventsMatchIncidents(Next(w, ApplyOp(m, r, uuid)), other)
      {
        MatchAfterApply(w, m, r, uuid, other);
      }
    } else {
      assert w.events + [] == w.events;
    }
  }

  /** The events of a monitor that exists alternate, because its incidents do. */
  lemma LiveAlternates(w: World, m: Id)
    requires m in w.db.monitors && Consistent(w.db, m) && EventsMatchIncidents(w, m)
    ensures Alternates(KeysOf(w.events, m))
  {
    ConsistentAlternates(w.db.monitors[m], ChecksOf(w.db.checklogs, m), IncidentsOf(w.db.incidents, m));
  }

  /** What remains to be shown of an operation that reports no event. */
  lemma ReportedSilently(w: World, db': Db)
    requires Reported(w) && Wf(db') && w.db.issued <= db'.issued
    requires forall m :: m in db'.monitors ==> KeysOf(w.events, m) == IncidentKeys(IncidentsOf(db'.incidents, m))
    requires forall m :: m in w.db.monitors && m !in db'.monitors ==> Alternates(KeysOf(w.events, m))
    ensures Reported(World(db', w.events))
  {
  }

  lemma NoEventsBeforeCreation(w: World, uuid: Id)
    requires KnownEvents(w) && uuid !in w.db.issued
    ensures KeysOf(w.events, uuid) == []
  {
    if KeysOf(w.events, uuid) != [] {
      KeysOfMember(w.events, uuid, KeysOf(w.events, uuid)[0]);
    }
  }

  lemma ReportedAfterCreate(w: World, uuid: Id, row: MonitorRow)
    requires Reported(w) && uuid !in w.db.issued && Wf(InsertMonitor(w.db, uuid, row))
    ensures Reported(World(InsertMonitor(w.db, uuid, row), w.events))
  {
    NoIncidentsWithoutRow(w.db.incidents, uuid);
    NoEventsBeforeCreation(w, uuid);
    var db' := InsertMonitor(w.db, uuid, row);
    forall m | m in db'.monitors ensures KeysOf(w.events, m) == IncidentKeys(IncidentsOf(db'.incidents, m)) {
      assert m != uuid ==> EventsMatchIncidents(w, m);
    }
    ReportedSilently(w, db');
  }

  lemma ReportedAfterDelete(w: World, gone: Id, user: Id)
    requires Reported(w) && Wf(DeleteMonitor(w.db, gone, user))
    ensures Reported(World(DeleteMonitor(w.db, gone, user), w.events))
  {
    var db' := DeleteMonitor(w.db, gone, user);
    forall m | m in db'.monitors ensures KeysOf(w.events, m) == IncidentKeys(IncidentsOf(db'.incidents, m)) {
      assert EventsMatchIncidents(w, m);
      IncidentsOfWithout(w.db.incidents, gone, m);
    }
    forall m | m in w.db.monitors && m !in db'.monitors ensures Alternates(KeysOf(w.events, m)) {
      assert EventsMatchIncidents(w, m) && Consistent(w.db, m);
      LiveAlternates(w, m);
    }
    ReportedSilently(w, db');
  }

  lemma ReportedAfterRowUpdates(w: World, db': Db)
    requires Reported(w) && Wf(db') && db' == w.db.(monitors := db'.monitors)
    requires db'.monitors.Keys == w.db.monitors.Keys
    ensures Reported(World(db', w.events))
  {
    forall m | m in db'.monitors ensures KeysOf(w.events, m) == IncidentKeys(IncidentsOf(db'.incidents, m)) {
      assert m in w.db.monitors && EventsMatchIncidents(w, m);
    }
    ReportedSilently(w, db');
  }

  lemma ReportedKept(w: World, op: Op)
    requires Reported(w) && Allowed(w.db, op)
    ensures Reported(Next(w, op))
  {
    if op.ApplyOp? {
      ReportedAfterApply(w, op.monitor, op.check, op.uuid);
    } else {
      WfKept(w.db, op);
      assert w.events + [] == w.events;
      match op
      case CreateOp(uuid, user, url, name, interval, enabled, now) =>
        ReportedAfterCreate(w, uuid, NewMonitor(user, url, name, interval, enabled, now));
      case DeleteOp(m, user) => ReportedAfterDelete(w, m, user);
      case _ => ReportedAfterRowUpdates(w, Step(w.db, op));
    }
  }

  lemma {:induction false} ReportedThroughout(w: World, ops: seq<Op>)
    requires Reported(w) && ValidRun(w.db, ops)
    ensures Reported(Exec(w, ops))
    decreases ops
  {
    if ops != [] {
      ReportedKept(w, ops[0]);
      ReportedThroughout(Next(w, ops[0]), ops[1..]);
    }
  }

  lemma ReportedFromStart(ops: seq<Op>)
    requires ValidRun(EMPTY, ops)
    ensures Reported(Exec(START, ops))
  {
    ReportedThroughout(START, ops);
  }

  // ---------------------------------------------------------------------------------------------
  // Main results
  // ---------------------------------------------------------------------------------------------

  lemma ReasonExplainsOutage(log: seq<CheckResult>, o: Outage, i: IncidentRow)
    requires RecordsOutage(log, o, i)
    ensures Explains(i.reason, log[o.start + THRESHOLD - 1])
  {
    ReasonExplains(log[o.start + THRESHOLD - 1]);
  }

  /** The reason of each incident tells of the third failed check of its outage. */
  ghost predicate ReasonsExplained(log: seq<CheckResult>, os: seq<Outage>, incidents: seq<IncidentRow>) {
    && |incidents| == |os|
    && forall k :: 0 <= k < |os| ==>
         os[k].start + THRESHOLD <= |log| && Explains(incidents[k].reason, log[os[k].start + THRESHOLD - 1])
  }

  lemma RecordsExplain(log: seq<CheckResult>, os: seq<Outage>, incidents: seq<IncidentRow>)
    requires RecordsEach(log, os, incidents)
    ensures ReasonsExplained(log, os, incidents)
  {
    forall k | 0 <= k < |os|
      ensures os[k].start + THRESHOLD <= |log| && Explains(incidents[k].reason, log[os[k].start + THRESHOLD - 1])
    {
      ReasonExplainsOutage(log, os[k], incidents[k]);
    }
  }

  /**
    After any run the incidents of a monitor are its outages: row `k` opens at the third failed
    check of the `k`-th maximal failing run of at least three, it is resolved by the success that
    ends the run, and it is open exactly while the run lasts. No outage lacks a row.
   */
  lemma IncidentTableRefinesLog(ops: seq<Op>, m: Id)
    requires ValidRun(EMPTY, ops) && m in Exec(START, ops).db.monitors
    ensures
      var db := Exec(START, ops).db;
      var log, incidents := ChecksOf(db.checklogs, m), IncidentsOf(db.incidents, m);
      var outages := Outages(log);
      && |incidents| == |outages|
      && (forall k :: 0 <= k < |outages| ==> IsOutage(log, outages[k]) && RecordsOutage(log, outages[k], incidents[k]))
      && (forall j, k :: 0 <= j < k < |outages| ==> outages[j].end < outages[k].start)
      && (forall o :: IsOutage(log, o) ==> o in outages)
  {
    ReportedFromStart(ops);
    var db := Exec(START, ops).db;
    assert Consistent(db, m);
    OutagesExact(ChecksOf(db.checklogs, m));
    OutagesSound(ChecksOf(db.checklogs, m));
  }

  /** After any run the reason of each incident is what the check that opened it says. */
  lemma IncidentReasonsExplain(ops: seq<Op>, m: Id)
    requires ValidRun(EMPTY, ops) && m in Exec(START, ops).db.monitors
    ensures
      var db := Exec(START, ops).db;
      var log := ChecksOf(db.checklogs, m);
      ReasonsExplained(log, Outages(log), IncidentsOf(db.incidents, m))
  {
    ReportedFromStart(ops);
    var db := Exec(START, ops).db;
    assert Consistent(db, m);
    RecordsExplain(ChecksOf(db.checklogs, m), Outages(ChecksOf(db.checklogs, m)), IncidentsOf(db.incidents, m));
  }

  /** The columns the worker maintains are functions of the committed log. */
  lemma StatusIsFunctionOfHistory(ops: seq<Op>, m: Id)
    requires ValidRun(EMPTY, ops) && m in Exec(START, ops).db.monitors
    ensures
      var db := Exec(START, ops).db;
      var row, log := db.monitors[m], ChecksOf(db.checklogs, m);
      && row.failures == FailingSuffix(log)
      && row.status == StatusFrom(log)
      && row.lastCheckedAt == LastCheckedAt(log)
  {
    ReportedFromStart(ops);
    assert Consistent(Exec(START, ops).db, m);
  }

  function OpenCount(incidents: seq<IncidentRow>): nat {
    if incidents == [] then 0
    else OpenCount(incidents[..|incidents| - 1]) + if incidents[|incidents| - 1].open then 1 else 0
  }

  lemma {:induction false} NoneOpen(incidents: seq<IncidentRow>)
    requires forall k :: 0 <= k < |incidents| ==> !incidents[k].open
    ensures OpenCount(incidents) == 0
  {
    if incidents != [] {
      NoneOpen(incidents[..|incidents| - 1]);
    }
  }

  lemma OpenCountExact(checks: seq<CheckResult>, incidents: seq<IncidentRow>)
    requires RecordsOutages(checks, incidents)
    ensures OpenCount(incidents) == if StatusFrom(checks) == Down then 1 else 0
  {
    OnlyNewestOpen(checks, incidents);
    OpenIncident(checks, incidents);
    if incidents != [] {
      NoneOpen(incidents[..|incidents| - 1]);
    }
  }

  /** A monitor is down iff it has exactly one open incident; otherwise it has none. */
  lemma DownIffOneOpenIncident(ops: seq<Op>, m: Id)
    requires ValidRun(EMPTY, ops) && m in Exec(START, ops).db.monitors
    ensures
      var db := Exec(START, ops).db;
      OpenCount(IncidentsOf(db.incidents, m)) == if db.monitors[m].status == Down then 1 else 0
  {
    ReportedFromStart(ops);
    var db := Exec(START, ops).db;
    assert Consistent(db, m);
    OpenCountExact(ChecksOf(db.checklogs, m), IncidentsOf(db.incidents, m));
  }

  /**
    The events of a monitor alternate, starting with down, each recovery naming the incident of the
    outage before it; this also holds of monitors that have since been deleted. No event is ever
    committed twice, so no two down events name the same incident.
   */
  lemma EventsAlternate(ops: seq<Op>, m: Id)
    requires ValidRun(EMPTY, ops)
    ensures Alternates(KeysOf(Exec(START, ops).events, m))
    ensures NoDuplicates(Exec(START, ops).events)
  {
    ReportedFromStart(ops);
    var w := Exec(START, ops);
    if m in w.db.monitors {
      assert EventsMatchIncidents(w, m) && Consistent(w.db, m);
      LiveAlternates(w, m);
    }
  }

  /** A deleted monitor leaves nothing behind, and later checks of it write nothing. */
  lemma DeletedMonitorLeavesNothing(ops: seq<Op>, m: Id, r: CheckResult, uuid: Id)
    requires ValidRun(EMPTY, ops) && m !in Exec(START, ops).db.monitors
    ensures ChecksOf(Exec(START, ops).db.checklogs, m) == []
    ensures IncidentsOf(Exec(START, ops).db.incidents, m) == []
    ensures Next(Exec(START, ops), ApplyOp(m, r, uuid)) == Exec(START, ops)
  {
    ReportedFromStart(ops);
    NoChecksWithoutRow(Exec(START, ops).db.checklogs, m);
    NoIncidentsWithoutRow(Exec(START, ops).db.incidents, m);
  }
}
