/**
  The times of incidents. They come from the checks, which are stamped before their transactions take
  the row lock; so they need not be in order, and this module says exactly when they are.
 */
module IncidentTimes {
  import opened Common
  import opened Health
  import opened Tables
  import opened Runs
  import opened Reports

  ghost predicate InTimeOrder(log: seq<CheckResult>) {
    forall i, j :: 0 <= i < j < |log| ==> log[i].checkedAt <= log[j].checkedAt
  }

  /** No incident ends before it starts. */
  ghost predicate AllWellTimed(incidents: seq<IncidentRow>) {
    forall k :: 0 <= k < |incidents| && incidents[k].resolvedAt.Some? ==>
      incidents[k].startedAt <= incidents[k].resolvedAt.value
  }

  /** Each incident ends before the later ones start. */
  ghost predicate NoOverlap(incidents: seq<IncidentRow>) {
    forall j, k :: 0 <= j < k < |incidents| ==>
      incidents[j].resolvedAt.Some? && incidents[j].resolvedAt.value <= incidents[k].startedAt
  }

  /** The third failure of an outage was stamped no later than the success that ends it. */
  ghost predicate OutageTimed(log: seq<CheckResult>, o: Outage)
    requires IsOutage(log, o)
  {
    o.end < |log| ==> log[o.start + THRESHOLD - 1].checkedAt <= log[o.end].checkedAt
  }

  /** The success that ends an outage was stamped no later than the third failure of a later one. */
  ghost predicate OutagesApart(log: seq<CheckResult>, o: Outage, p: Outage)
    requires IsOutage(log, o) && IsOutage(log, p) && o.end < p.start
  {
    log[o.end].checkedAt <= log[p.start + THRESHOLD - 1].checkedAt
  }

  ghost predicate AllOutagesTimed(log: seq<CheckResult>) {
    forall o :: IsOutage(log, o) ==> OutageTimed(log, o)
  }

  ghost predicate AllOutagesApart(log: seq<CheckResult>) {
    forall o, p :: IsOutage(log, o) && IsOutage(log, p) && o.end < p.start ==> OutagesApart(log, o, p)
  }

  lemma WellTimedIff(log: seq<CheckResult>, incidents: seq<IncidentRow>)
    requires RecordsOutages(log, incidents)
    ensures AllWellTimed(incidents) <==> AllOutagesTimed(log)
  {
    OutagesExact(log);
    var os := Outages(log);
    forall k | 0 <= k < |incidents|
      ensures IsOutage(log, os[k])
      ensures (incidents[k].resolvedAt.Some? ==> incidents[k].startedAt <= incidents[k].resolvedAt.value) <==>
                OutageTimed(log, os[k])
    {
      assert os[k] in os && RecordsOutage(log, os[k], incidents[k]);
    }
    if AllWellTimed(incidents) {
      forall o | IsOutage(log, o) ensures OutageTimed(log, o) {
        var k :| 0 <= k < |os| && os[k] == o;
      }
    }
  }

  lemma PairApartIff(log: seq<CheckResult>, incidents: seq<IncidentRow>, j: nat, k: nat)
    requires RecordsOutages(log, incidents) && j < k < |incidents|
    ensures
      var os := Outages(log);
      && IsOutage(log, os[j]) && IsOutage(log, os[k]) && os[j].end < os[k].start
      && ((incidents[j].resolvedAt.Some? && incidents[j].resolvedAt.value <= incidents[k].startedAt) <==>
            OutagesApart(log, os[j], os[k]))
  {
    OutagesSound(log);
    assert RecordsOutage(log, Outages(log)[j], incidents[j]) && RecordsOutage(log, Outages(log)[k], incidents[k]);
  }

  lemma NoOverlapThenApart(log: seq<CheckResult>, incidents: seq<IncidentRow>, o: Outage, p: Outage)
    requires RecordsOutages(log, incidents) && NoOverlap(incidents)
    requires IsOutage(log, o) && IsOutage(log, p) && o.end < p.start
    ensures OutagesApart(log, o, p)
  {
    OutagesExact(log);
    var os := Outages(log);
    assert o in os && p in os;
    var j :| 0 <= j < |os| && os[j] == o;
    var k :| 0 <= k < |os| && os[k] == p;
    assert j < k;
    PairApartIff(log, incidents, j, k);
  }

  lemma ApartThenNoOverlap(log: seq<CheckResult>, incidents: seq<IncidentRow>)
    requires RecordsOutages(log, incidents) && AllOutagesApart(log)
    ensures NoOverlap(incidents)
  {
    forall j, k | 0 <= j < k < |incidents|
      ensures incidents[j].resolvedAt.Some? && incidents[j].resolvedAt.value <= incidents[k].startedAt
    {
      PairApartIff(log, incidents, j, k);
      assert OutagesApart(log, Outages(log)[j], Outages(log)[k]);
    }
  }

  lemma NoOverlapIff(log: seq<CheckResult>, incidents: seq<IncidentRow>)
    requires RecordsOutages(log, incidents)
    ensures NoOverlap(incidents) <==> AllOutagesApart(log)
  {
    if NoOverlap(incidents) {
      forall o, p | IsOutage(log, o) && IsOutage(log, p) && o.end < p.start ensures OutagesApart(log, o, p) {
        NoOverlapThenApart(log, incidents, o, p);
      }
    }
    if AllOutagesApart(log) {
      ApartThenNoOverlap(log, incidents);
    }
  }

  /**
    After any run, incidents end after they start exactly if each outage's third failure was stamped no
    later than the success that ends it, and they do not overlap exactly if each such success was
    stamped no later than the third failure of every later outage.
   */
  lemma IncidentTimesExact(ops: seq<Op>, m: Id)
    requires ValidRun(EMPTY, ops) && m in Exec(START, ops).db.monitors
    ensures
      var db := Exec(START, ops).db;
      var log, incidents := ChecksOf(db.checklogs, m), IncidentsOf(db.incidents, m);
      && (AllWellTimed(incidents) <==> AllOutagesTimed(log))
      && (NoOverlap(incidents) <==> AllOutagesApart(log))
  {
    ReportedFromStart(ops);
    var db := Exec(START, ops).db;
    assert Consistent(db, m);
    WellTimedIff(ChecksOf(db.checklogs, m), IncidentsOf(db.incidents, m));
    NoOverlapIff(ChecksOf(db.checklogs, m), IncidentsOf(db.incidents, m));
  }

  /** In particular, if the checks of a monitor commit in the order of their timestamps, so are its incident times. */
  lemma IncidentTimesOrdered(ops: seq<Op>, m: Id)
    requires ValidRun(EMPTY, ops) && m in Exec(START, ops).db.monitors
    requires InTimeOrder(ChecksOf(Exec(START, ops).db.checklogs, m))
    ensures
      var incidents := IncidentsOf(Exec(START, ops).db.incidents, m);
      AllWellTimed(incidents) && NoOverlap(incidents)
  {
    IncidentTimesExact(ops, m);
  }

  /** A row is resolved iff it is not open. */
  lemma ResolvedIffClosed(checks: seq<CheckResult>, incidents: seq<IncidentRow>)
    requires RecordsOutages(checks, incidents)
    ensures forall k :: 0 <= k < |incidents| ==> (incidents[k].resolvedAt.Some? <==> !incidents[k].open)
  {
    forall k | 0 <= k < |incidents| ensures incidents[k].resolvedAt.Some? <==> !incidents[k].open {
      assert RecordsOutage(checks, Outages(checks)[k], incidents[k]);
    }
  }

  /** The incidents of a monitor after one more check that is recorded. */
  lemma TimesAfterCheck(
      row: MonitorRow, checks: seq<CheckResult>, mine: seq<IncidentRow>, m: Id, r: CheckResult, uuid: Id)
    requires MonitorConsistent(row, checks, mine) && AllWellTimed(mine) && NoOverlap(mine)
    requires forall k :: 0 <= k < |mine| ==> mine[k].monitor == m
    ensures
      var kind := EvaluateStateTransition(row.status, row.failures, r.success).event;
      var mine' := IncidentsAfter(kind, mine, m, r, uuid);
      && (AllWellTimed(mine') <==>
            (kind == RecoveredEvent ==> forall i :: i in mine && i.open ==> i.startedAt <= r.checkedAt))
      && (NoOverlap(mine') <==>
            (kind == DownEvent ==> forall i :: i in mine ==> i.resolvedAt.Some? && i.resolvedAt.value <= r.checkedAt))
  {
    MachineFollowsHistory(checks, r);
    OnlyNewestOpen(checks, mine);
    ResolvedIffClosed(checks, mine);
    match EvaluateStateTransition(row.status, row.failures, r.success).event {
      case NoEvent =>
      case DownEvent =>
        TimesAfterOpening(mine, OpenedIncident(m, r, uuid));
      case RecoveredEvent =>
        RecordsResolved(checks, mine, m, r);
        TimesAfterResolving(mine, r.checkedAt);
    }
  }

  lemma TimesAfterOpening(mine: seq<IncidentRow>, i: IncidentRow)
    requires AllWellTimed(mine) && NoOverlap(mine) && i.resolvedAt == None
    ensures AllWellTimed(mine + [i])
    ensures NoOverlap(mine + [i]) <==>
              forall j :: j in mine ==> j.resolvedAt.Some? && j.resolvedAt.value <= i.startedAt
  {
    var mine' := mine + [i];
    if NoOverlap(mine') {
      forall j | j in mine ensures j.resolvedAt.Some? && j.resolvedAt.value <= i.startedAt {
        var k :| 0 <= k < |mine| && mine[k] == j;
        assert mine'[k] == j && mine'[|mine|] == i;
      }
    }
  }

  lemma TimesAfterResolving(mine: seq<IncidentRow>, at: Time)
    requires AllWellTimed(mine) && NoOverlap(mine)
    requires mine != [] && mine[|mine| - 1].open
    requires forall k :: 0 <= k < |mine| - 1 ==> !mine[k].open
    ensures
      var mine' := mine[|mine| - 1 := ResolveRow(mine[|mine| - 1], at)];
      && (AllWellTimed(mine') <==> forall i :: i in mine && i.open ==> i.startedAt <= at)
      && NoOverlap(mine')
  {
    var last := mine[|mine| - 1];
    var mine' := mine[|mine| - 1 := ResolveRow(last, at)];
    assert last in mine && mine'[|mine| - 1] == ResolveRow(last, at);
  }

  /**
    What a caller can check beforehand: a check keeps the incident times of its monitor in order exactly
    if a success that ends an outage is stamped no earlier than the open incident, and a failure that opens an
    incident no earlier than the end of every earlier one.
   */
  lemma CheckKeepsTimesIff(db: Db, m: Id, r: CheckResult, uuid: Id)
    requires Wf(db) && ApplyCheck(db, m, r, uuid).1.Ok?
    requires AllWellTimed(IncidentsOf(db.incidents, m)) && NoOverlap(IncidentsOf(db.incidents, m))
    ensures
      var row, mine := db.monitors[m], IncidentsOf(db.incidents, m);
      var mine' := IncidentsOf(ApplyCheck(db, m, r, uuid).0.incidents, m);
      && (AllWellTimed(mine') <==>
            (row.status == Down && r.success ==> forall i :: i in mine && i.open ==> i.startedAt <= r.checkedAt))
      && (NoOverlap(mine') <==>
            (row.status != Down && !r.success && row.failures + 1 >= THRESHOLD ==>
               forall i :: i in mine ==> i.resolvedAt.Some? && i.resolvedAt.value <= r.checkedAt))
  {
    assert Consistent(db, m);
    var row := db.monitors[m];
    TimesAfterCheck(row, ChecksOf(db.checklogs, m), IncidentsOf(db.incidents, m), m, r, uuid);
    IncidentsOfAfter(EvaluateStateTransition(row.status, row.failures, r.success).event, db.incidents, m, r, uuid, m);
  }

  // ---------------------------------------------------------------------------------------------
  // A run that reverses an incident
  // ---------------------------------------------------------------------------------------------

  function Failure(at: Time): CheckResult {
    CheckResult(0, 0, false, "", at)
  }

  function Success(at: Time): CheckResult {
    CheckResult(200, 0, true, "", at)
  }

  const LATE_CREATE: Op := CreateOp(1, 7, "http://a.example", "a", 30, true, 0)

  /** Three failures, then a success that was stamped before them but gets the row lock last. */
  const LATE_RUN: seq<Op> :=
    [LATE_CREATE,
     ApplyOp(1, Failure(10), 2), ApplyOp(1, Failure(11), 3), ApplyOp(1, Failure(12), 4), ApplyOp(1, Success(5), 5)]

  function LateRow(status: Status, failures: nat, last: Option<Time>): MonitorRow {
    MonitorRow(7, "http://a.example", "a", 30, DEFAULT_TIMEOUT, true, status, failures, 0, last, 0)
  }

  lemma LateFailures(w: World)
    requires w == Next(START, LATE_CREATE)
    ensures
      var w1 := Next(w, ApplyOp(1, Failure(10), 2));
      var w2 := Next(w1, ApplyOp(1, Failure(11), 3));
      && w1.db.monitors == map[1 := LateRow(Unknown, 1, Some(10))] && w1.db.incidents == [] && w1.db.issued == {1}
      && w2.db.monitors == map[1 := LateRow(Unknown, 2, Some(11))] && w2.db.incidents == [] && w2.db.issued == {1}
  {
    assert w.db.monitors == map[1 := LateRow(Unknown, 0, None)];
  }

  const LATE_INCIDENT: IncidentRow := IncidentRow(4, 1, true, "check failed", 12, None)

  lemma LateOutage(w: World)
    requires w.db.monitors == map[1 := LateRow(Unknown, 2, Some(11))] && w.db.incidents == [] && w.db.issued == {1}
    ensures
      var db' := Next(w, ApplyOp(1, Failure(12), 4)).db;
      && db'.monitors == map[1 := LateRow(Down, 3, Some(12))]
      && db'.incidents == [LATE_INCIDENT] && db'.issued == {1, 4}
  {
  }

  lemma LateSuccess(w: World)
    requires w.db.monitors == map[1 := LateRow(Down, 3, Some(12))] && w.db.incidents == [LATE_INCIDENT]
    ensures
      var db' := Next(w, ApplyOp(1, Success(5), 5)).db;
      && 1 in db'.monitors
      && db'.incidents == [ResolveRow(LATE_INCIDENT, 5)]
  {
    assert [LATE_INCIDENT][..0] == [];
    assert ResolveOpen([LATE_INCIDENT], 1, 5) == [ResolveRow(LATE_INCIDENT, 5)];
  }

  /**
    Without such a premise it fails: a check is stamped before its transaction takes the row lock, so
    a success stamped early can commit last, and its incident ends before it starts.
   */
  lemma LateCommitReversesIncident()
    ensures ValidRun(EMPTY, LATE_RUN) && 1 in Exec(START, LATE_RUN).db.monitors
    ensures IncidentsOf(Exec(START, LATE_RUN).db.incidents, 1) ==
            [IncidentRow(4, 1, false, "check failed", 12, Some(5))]
    ensures !AllWellTimed(IncidentsOf(Exec(START, LATE_RUN).db.incidents, 1))
  {
    var a, b := ApplyOp(1, Failure(10), 2), ApplyOp(1, Failure(11), 3);
    var c, d := ApplyOp(1, Failure(12), 4), ApplyOp(1, Success(5), 5);
    var w0 := Next(START, LATE_CREATE);
    var w1 := Next(w0, a);
    var w2 := Next(w1, b);
    var w3 := Next(w2, c);
    LateFailures(w0);
    LateOutage(w2);
    LateSuccess(w3);
    RunCons(w3, d, []);
    RunCons(w2, c, [d]);
    RunCons(w1, b, [c, d]);
    RunCons(w0, a, [b, c, d]);
    RunCons(START, LATE_CREATE, [a, b, c, d]);
    var i := ResolveRow(LATE_INCIDENT, 5);
    assert [i][..0] == [];
    assert IncidentsOf([i], 1) == [i];
    assert [i][0].resolvedAt == Some(5);
  }
}
