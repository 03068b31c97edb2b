/**
  Claiming due monitors: no monitor starves, no monitor is checked too often, none is forgotten,
  and what the API and the scheduler write never disturbs what the checks write.
 */
module Claims {
  import opened Common
  import opened Health
  import opened Tables
  import opened Runs

  // ---------------------------------------------------------------------------------------------
  // Starvation-freedom
  // ---------------------------------------------------------------------------------------------

  /** The enabled monitors that the claim query may put before `m`. */
  ghost function Rivals(db: Db, m: Id): set<Id>
    requires m in db.monitors
  {
    set k | k in db.monitors && k != m && db.monitors[k].enabled
            && db.monitors[k].nextCheckAt <= db.monitors[m].nextCheckAt
  }

  /** `m` is enabled and has been due since some earlier time. */
  ghost predicate Overdue(db: Db, m: Id, since: Time) {
    m in db.monitors && db.monitors[m].enabled && db.monitors[m].nextCheckAt == since
  }

  ghost predicate ClaimsMonitor(op: Op, m: Id) {
    op.ClaimOp? && m in op.ids
  }

  /** A claim of at least `limit` rows whose query did not have to pass over `m`. */
  ghost predicate Opportunity(op: Op, m: Id, limit: nat) {
    op.ClaimOp? && m !in op.skipped && op.limit >= limit
  }

  /**
    Nothing jumps the queue ahead of `m`, due since `since`: claims and creations happen at or after
    the time it fell due (creations strictly after), no rival is enabled by a patch, and `m` itself
    is neither disabled nor deleted.
   */
  ghost predicate Calm(db: Db, op: Op, m: Id, since: Time) {
    match op
    case CreateOp(_, _, _, _, _, enabled, now) => enabled ==> now > since
    case PatchOp(k, user, _, _, _, enabled) =>
      Owns(db, k, user) ==>
        && (k == m ==> enabled)
        && (k != m && enabled && !db.monitors[k].enabled ==> db.monitors[k].nextCheckAt > since)
    case DeleteOp(k, user) => k == m ==> !Owns(db, k, user)
    case ClaimOp(now, _, _, _) => now >= since
    case ApplyOp(_, _, _) => true
  }

  ghost function Opportunities(ops: seq<Op>, m: Id, limit: nat): nat {
    if ops == [] then 0
    else (if Opportunity(ops[0], m, limit) then 1 else 0) + Opportunities(ops[1..], m, limit)
  }

  ghost predicate IntervalsValid(db: Db) {
    forall m :: m in db.monitors ==> ValidInterval(db.monitors[m].interval)
  }

  lemma IntervalsStayValid(db: Db, op: Op)
    requires IntervalsValid(db) && Allowed(db, op)
    ensures IntervalsValid(Step(db, op))
  {
  }

  lemma SubsetSize<T>(a: set<T>, b: set<T>)
    requires a <= b
    ensures |a| <= |b| && |b - a| == |b| - |a|
  {
    assert b == a + (b - a);
  }

  lemma {:induction false} DistinctSize(ids: seq<Id>)
    requires Distinct(ids)
    ensures |SetOf(ids)| == |ids|
  {
    if ids != [] {
      var front, last := ids[..|ids| - 1], ids[|ids| - 1];
      DistinctSize(front);
      assert SetOf(ids) == SetOf(front) + {last};
      assert last !in front;
    } else {
      assert SetOf(ids) == {};
    }
  }

  /** A claim moves the rows it takes past the time it is made. */
  lemma ClaimedBehind(db: Db, now: Time, limit: nat, skipped: set<Id>, ids: seq<Id>)
    requires IntervalsValid(db) && IsClaimSelection(db, now, limit, skipped, ids)
    ensures
      var db' := Step(db, ClaimOp(now, limit, skipped, ids));
      forall k :: k in ids ==> k in db'.monitors && db'.monitors[k].nextCheckAt > now
  {
    forall k | k in ids ensures k in db.monitors && db.monitors[k].interval >= MIN_INTERVAL {
      var i :| 0 <= i < |ids| && ids[i] == k;
      assert k in Candidates(db, now, skipped);
    }
  }

  /** A claim that could have taken `m` and did not has put a full batch of rivals behind it. */
  lemma MissedClaim(db: Db, m: Id, now: Time, limit: nat, skipped: set<Id>, ids: seq<Id>)
    requires IntervalsValid(db) && IsClaimSelection(db, now, limit, skipped, ids)
    requires m in db.monitors && Due(db.monitors[m], now) && db.monitors[m].nextCheckAt <= now
    requires m !in skipped && m !in ids
    ensures
      var db' := Step(db, ClaimOp(now, limit, skipped, ids));
      && Rivals(db', m) == Rivals(db, m) - SetOf(ids)
      && |Rivals(db', m)| == |Rivals(db, m)| - limit
  {
    assert m in Candidates(db, now, skipped);
    assert |ids| == limit;
    forall k | k in ids ensures k in Rivals(db, m) {
      var i :| 0 <= i < |ids| && ids[i] == k;
      assert k in Candidates(db, now, skipped);
    }
    var db' := Step(db, ClaimOp(now, limit, skipped, ids));
    ClaimedBehind(db, now, limit, skipped, ids);
    assert Rivals(db', m) == Rivals(db, m) - SetOf(ids);
    DistinctSize(ids);
    SubsetSize(SetOf(ids), Rivals(db, m));
  }

  /** Nothing that happens calmly adds a rival, or moves `m`, unless it claims `m`. */
  lemma RivalsNeverGrow(db: Db, op: Op, m: Id, since: Time)
    requires IntervalsValid(db) && m in db.issued && Allowed(db, op)
    requires Overdue(db, m, since) && Calm(db, op, m, since) && !ClaimsMonitor(op, m)
    ensures Overdue(Step(db, op), m, since)
    ensures Rivals(Step(db, op), m) <= Rivals(db, m)
  {
    var db' := Step(db, op);
    if op.ClaimOp? {
      ClaimedBehind(db, op.now, op.limit, op.skipped, op.ids);
    }
  }

  /** Calm until the first claim of `m`; what happens later does not matter. */
  ghost predicate CalmUntilClaimed(db: Db, ops: seq<Op>, m: Id, since: Time)
    decreases ops
  {
    ops != [] && !ClaimsMonitor(ops[0], m) ==>
      Calm(db, ops[0], m, since) && CalmUntilClaimed(Step(db, ops[0]), ops[1..], m, since)
  }

  /** One operation uses up no more rivals than the opportunities it grants allow. */
  lemma RivalsBudget(db: Db, op: Op, m: Id, since: Time, limit: nat)
    requires IntervalsValid(db) && m in db.issued && Allowed(db, op)
    requires Overdue(db, m, since) && Calm(db, op, m, since) && !ClaimsMonitor(op, m)
    ensures Overdue(Step(db, op), m, since)
    ensures |Rivals(Step(db, op), m)| <= |Rivals(db, m)|
    ensures Opportunity(op, m, limit) ==> |Rivals(Step(db, op), m)| + limit <= |Rivals(db, m)|
  {
    RivalsNeverGrow(db, op, m, since);
    SubsetSize(Rivals(Step(db, op), m), Rivals(db, m));
    if Opportunity(op, m, limit) {
      MissedClaim(db, m, op.now, op.limit, op.skipped, op.ids);
    }
  }

  lemma {:induction false} ClaimedEventually(db: Db, ops: seq<Op>, m: Id, since: Time, limit: nat, spare: nat)
    requires IntervalsValid(db) && m in db.issued && ValidRun(db, ops)
    requires Overdue(db, m, since) && CalmUntilClaimed(db, ops, m, since)
    requires spare == Batches(ops, m, limit) && spare > |Rivals(db, m)|
    ensures exists i :: 0 <= i < |ops| && ClaimsMonitor(ops[i], m)
    decreases ops
  {
    var op, rest := ops[0], ops[1..];
    if ClaimsMonitor(op, m) {
      assert ClaimsMonitor(ops[0], m);
    } else {
      RivalsBudget(db, op, m, since, limit);
      IntervalsStayValid(db, op);
      ScheduleStep(db, op, m);
      ClaimedEventually(Step(db, op), rest, m, since, limit, Batches(rest, m, limit));
      var i :| 0 <= i < |rest| && ClaimsMonitor(rest[i], m);
      assert ops[i + 1] == rest[i];
    }
  }

  /** The rows that the opportunities of a run can take altogether. */
  ghost function Batches(ops: seq<Op>, m: Id, limit: nat): nat {
    if ops == [] then 0
    else (if Opportunity(ops[0], m, limit) then limit else 0) + Batches(ops[1..], m, limit)
  }

  lemma {:induction false} BatchesMultiply(ops: seq<Op>, m: Id, limit: nat)
    ensures Batches(ops, m, limit) == Opportunities(ops, m, limit) * limit
  {
    if ops != [] {
      BatchesMultiply(ops[1..], m, limit);
      OneMoreTimes(Opportunities(ops[1..], m, limit), limit);
    }
  }

  lemma OneMoreTimes(n: nat, limit: nat)
    ensures (1 + n) * limit == limit + n * limit
  {
  }

  lemma EnoughBatches(r: nat, n: nat, limit: nat)
    requires limit > 0 && n >= r / limit + 1
    ensures n * limit > r
  {
    OneMoreTimes(r / limit, limit);
    TimesMonotone(r / limit + 1, n, limit);
    assert r == (r / limit) * limit + r % limit;
  }

  /**
    Starvation-freedom with a bound: with `r` rivals, a monitor that is due is claimed at the latest
    by the `r / limit + 1`-th claim that is not barred by a lock on its row, whatever else the API,
    the workers and other schedulers calmly do in between.
   */
  lemma NoStarvation(db: Db, ops: seq<Op>, m: Id, since: Time, limit: nat)
    requires Wf(db) && ValidRun(db, ops) && Overdue(db, m, since) && CalmUntilClaimed(db, ops, m, since)
    requires limit > 0 && Opportunities(ops, m, limit) >= |Rivals(db, m)| / limit + 1
    ensures exists i :: 0 <= i < |ops| && ClaimsMonitor(ops[i], m)
  {
    EnoughBatches(|Rivals(db, m)|, Opportunities(ops, m, limit), limit);
    BatchesMultiply(ops, m, limit);
    ClaimedEventually(db, ops, m, since, limit, Batches(ops, m, limit));
  }

  // ---------------------------------------------------------------------------------------------
  // Claim spacing
  // ---------------------------------------------------------------------------------------------

  /** One claim of a monitor: when, the interval stored then, and whether it had ever been checked. */
  datatype Sighting = Sighting(now: Time, interval: int, checked: bool)

  /** All claims of one monitor in a run, by whichever scheduler. */
  ghost function ClaimsOf(db: Db, ops: seq<Op>, m: Id): seq<Sighting>
    decreases ops
  {
    if ops == [] then []
    else
      var rest := ClaimsOf(Step(db, ops[0]), ops[1..], m);
      if ClaimsMonitor(ops[0], m) && m in db.monitors then
        [Sighting(ops[0].now, db.monitors[m].interval, db.monitors[m].lastCheckedAt.Some?)] + rest
      else rest
  }

  ghost predicate Spaced(sightings: seq<Sighting>) {
    forall k :: 0 < k < |sightings| && sightings[k].checked ==>
      sightings[k].now >= sightings[k - 1].now + sightings[k - 1].interval * SECOND
  }

  lemma ClaimedIsCandidate(db: Db, op: Op, m: Id)
    requires Allowed(db, op) && ClaimsMonitor(op, m)
    ensures m in db.monitors && Due(db.monitors[m], op.now)
  {
    var i :| 0 <= i < |op.ids| && op.ids[i] == m;
    assert m in Candidates(db, op.now, op.skipped);
  }

  /** What one operation does to the schedule of a monitor that exists or has existed. */
  lemma ScheduleStep(db: Db, op: Op, m: Id)
    requires Allowed(db, op) && m in db.issued
    ensures m in Step(db, op).issued
    ensures m in Step(db, op).monitors ==>
              && m in db.monitors
              && Step(db, op).monitors[m].nextCheckAt ==
                 (if ClaimsMonitor(op, m) then op.now + db.monitors[m].interval * SECOND
                  else db.monitors[m].nextCheckAt)
              && (db.monitors[m].lastCheckedAt.Some? ==> Step(db, op).monitors[m].lastCheckedAt.Some?)
              && (ValidInterval(db.monitors[m].interval) ==> ValidInterval(Step(db, op).monitors[m].interval))
  {
  }

  lemma {:induction false} DeletedIsNeverClaimed(db: Db, ops: seq<Op>, m: Id)
    requires ValidRun(db, ops) && m !in db.monitors && m in db.issued
    ensures ClaimsOf(db, ops, m) == []
    decreases ops
  {
    if ops != [] {
      ScheduleStep(db, ops[0], m);
      DeletedIsNeverClaimed(Step(db, ops[0]), ops[1..], m);
    }
  }

  /**
    Two consecutive claims of a monitor that had been checked before the second are at least the
    interval stored at the first one apart, even when several schedulers claim concurrently.
   */
  lemma {:induction false} ClaimSpacing(db: Db, ops: seq<Op>, m: Id)
    requires ValidRun(db, ops) && m in db.monitors && m in db.issued
    ensures Spaced(ClaimsOf(db, ops, m))
    ensures
      var sightings := ClaimsOf(db, ops, m);
      sightings != [] && sightings[0].checked ==> sightings[0].now >= db.monitors[m].nextCheckAt
    decreases ops
  {
    if ops != [] {
      var op, db' := ops[0], Step(db, ops[0]);
      ScheduleStep(db, op, m);
      if m in db'.monitors {
        ClaimSpacing(db', ops[1..], m);
      } else {
        DeletedIsNeverClaimed(db', ops[1..], m);
      }
      if ClaimsMonitor(op, m) {
        ClaimedIsCandidate(db, op, m);
        SpacedCons(
          Sighting(op.now, db.monitors[m].interval, db.monitors[m].lastCheckedAt.Some?),
          ClaimsOf(db', ops[1..], m));
      }
    }
  }

  lemma SpacedCons(first: Sighting, rest: seq<Sighting>)
    requires Spaced(rest)
    requires rest != [] && rest[0].checked ==> rest[0].now >= first.now + first.interval * SECOND
    ensures Spaced([first] + rest)
  {
  }

  ghost predicate CheckedRegularly(sightings: seq<Sighting>) {
    forall k :: 0 <= k < |sightings| ==> sightings[k].checked && ValidInterval(sightings[k].interval)
  }

  lemma {:induction false} CheckedStaysChecked(db: Db, ops: seq<Op>, m: Id)
    requires ValidRun(db, ops) && m in db.monitors && m in db.issued
    requires db.monitors[m].lastCheckedAt.Some? && ValidInterval(db.monitors[m].interval)
    ensures CheckedRegularly(ClaimsOf(db, ops, m))
    decreases ops
  {
    if ops != [] {
      var op, db' := ops[0], Step(db, ops[0]);
      ScheduleStep(db, op, m);
      if m in db'.monitors {
        CheckedStaysChecked(db', ops[1..], m);
      } else {
        DeletedIsNeverClaimed(db', ops[1..], m);
      }
    }
  }

  lemma {:induction false} FarApart(sightings: seq<Sighting>, i: nat, j: nat)
    requires Spaced(sightings) && i <= j < |sightings|
    requires CheckedRegularly(sightings)
    ensures sightings[j].now - sightings[i].now >= (j - i) * MIN_INTERVAL * SECOND
  {
    if i < j {
      FarApart(sightings, i, j - 1);
    }
  }

  /** A window of `width` seconds holds at most `width / 30 + 1` claims of a monitor that has been checked. */
  lemma ClaimsPerWindow(db: Db, ops: seq<Op>, m: Id, i: nat, j: nat, width: nat)
    requires Wf(db) && ValidRun(db, ops) && m in db.monitors && db.monitors[m].lastCheckedAt.Some?
    requires i <= j < |ClaimsOf(db, ops, m)|
    requires ClaimsOf(db, ops, m)[j].now - ClaimsOf(db, ops, m)[i].now <= width * 1_000_000
    ensures j - i + 1 <= width / 30 + 1
  {
    ClaimSpacing(db, ops, m);
    CheckedStaysChecked(db, ops, m);
    FarApart(ClaimsOf(db, ops, m), i, j);
  }

  /** A claimed row is due again at once exactly when the monitor has never been checked. */
  lemma DueAgainAtOnce(db: Db, op: Op, m: Id)
    requires Wf(db) && Allowed(db, op) && ClaimsMonitor(op, m)
    ensures m in Step(db, op).monitors
    ensures Due(Step(db, op).monitors[m], op.now) <==> db.monitors[m].lastCheckedAt == None
  {
    ClaimedIsCandidate(db, op, m);
  }

  // ---------------------------------------------------------------------------------------------
  // No monitor is forgotten
  // ---------------------------------------------------------------------------------------------

  /** The time of the latest committed claim of each monitor, or else of its creation. */
  ghost function Anchors(anchors: map<Id, Time>, ops: seq<Op>): map<Id, Time>
    decreases ops
  {
    if ops == [] then anchors else Anchors(AnchorsAfter(anchors, ops[0]), ops[1..])
  }

  ghost function AnchorsAfter(anchors: map<Id, Time>, op: Op): map<Id, Time> {
    match op
    case CreateOp(uuid, _, _, _, _, _, now) => anchors[uuid := now]
    case ClaimOp(now, _, _, ids) => map m | m in anchors :: if m in ids then now else anchors[m]
    case _ => anchors
  }

  ghost predicate ScheduledNearAnchor(db: Db, anchors: map<Id, Time>) {
    forall m :: m in db.monitors ==>
      m in anchors && anchors[m] <= db.monitors[m].nextCheckAt <= anchors[m] + MAX_INTERVAL * SECOND
  }

  lemma {:induction false} StaysNearAnchor(w: World, anchors: map<Id, Time>, ops: seq<Op>)
    requires IntervalsValid(w.db) && ValidRun(w.db, ops) && ScheduledNearAnchor(w.db, anchors)
    ensures ScheduledNearAnchor(Exec(w, ops).db, Anchors(anchors, ops))
    decreases ops
  {
    if ops != [] {
      IntervalsStayValid(w.db, ops[0]);
      StaysNearAnchor(Next(w, ops[0]), AnchorsAfter(anchors, ops[0]), ops[1..]);
    }
  }

  /**
    Whatever is lost on the way, an enabled monitor is due again at the latest 3600 seconds after
    its latest committed claim, or its creation.
   */
  lemma NoOrphanedMonitor(ops: seq<Op>, m: Id, now: Time)
    requires ValidRun(EMPTY, ops) && m in Exec(START, ops).db.monitors
    ensures m in Anchors(map[], ops)
    ensures Exec(START, ops).db.monitors[m].enabled && now >= Anchors(map[], ops)[m] + 3600 * 1_000_000 ==>
              Due(Exec(START, ops).db.monitors[m], now)
  {
    StaysNearAnchor(START, map[], ops);
  }

  // ---------------------------------------------------------------------------------------------
  // Patches and claims do not disturb checks
  // ---------------------------------------------------------------------------------------------

  /** A patch and a check give the same database in either order, the same monitor or not. */
  lemma PatchCommutesWithCheck(db: Db, patch: Op, check: Op)
    requires patch.PatchOp? && check.ApplyOp?
    ensures Step(Step(db, patch), check) == Step(Step(db, check), patch)
  {
    var a, b := Step(Step(db, patch), check), Step(Step(db, check), patch);
    assert a.monitors == b.monitors;
  }

  /** Equal in everything except what patches and claims write. */
  ghost predicate SameHealth(a: Db, b: Db) {
    && a.monitors.Keys == b.monitors.Keys
    && a.checklogs == b.checklogs && a.incidents == b.incidents && a.issued == b.issued
    && forall m :: m in a.monitors ==>
         && a.monitors[m].user == b.monitors[m].user
         && a.monitors[m].status == b.monitors[m].status
         && a.monitors[m].failures == b.monitors[m].failures
         && a.monitors[m].lastCheckedAt == b.monitors[m].lastCheckedAt
         && a.monitors[m].createdAt == b.monitors[m].createdAt
  }

  predicate SameEvent(e: Event, f: Event) {
    e.kind == f.kind && e.monitor == f.monitor && e.check == f.check && e.incident == f.incident
  }

  ghost predicate SameEvents(a: seq<Event>, b: seq<Event>) {
    |a| == |b| && forall i :: 0 <= i < |a| ==> SameEvent(a[i], b[i])
  }

  predicate Configures(op: Op) {
    op.PatchOp? || op.ClaimOp?
  }

  function WithoutConfiguration(ops: seq<Op>): seq<Op> {
    if ops == [] then []
    else if Configures(ops[0]) then WithoutConfiguration(ops[1..])
    else [ops[0]] + WithoutConfiguration(ops[1..])
  }

  lemma SameHealthKept(a: Db, b: Db, op: Op)
    requires SameHealth(a, b) && !Configures(op)
    ensures SameHealth(Step(a, op), Step(b, op))
    ensures SameEvents(Emitted(a, op), Emitted(b, op))
  {
  }

  /**
    Erasing every patch and every claim from a run, wherever they stand, leaves statuses, failure
    counters, logs, incidents and events as they are.
   */
  lemma {:induction false} ConfigurationDoesNotDisturbChecks(a: World, b: World, ops: seq<Op>)
    requires SameHealth(a.db, b.db) && SameEvents(a.events, b.events)
    ensures SameHealth(Exec(a, ops).db, Exec(b, WithoutConfiguration(ops)).db)
    ensures SameEvents(Exec(a, ops).events, Exec(b, WithoutConfiguration(ops)).events)
    decreases ops
  {
    if ops != [] {
      var op, rest := ops[0], ops[1..];
      if Configures(op) {
        ConfigurationDoesNotDisturbChecks(Next(a, op), b, rest);
      } else {
        SameHealthKept(a.db, b.db, op);
        ConfigurationDoesNotDisturbChecks(Next(a, op), Next(b, op), rest);
        assert WithoutConfiguration(ops)[1..] == WithoutConfiguration(rest);
      }
    }
  }
}
