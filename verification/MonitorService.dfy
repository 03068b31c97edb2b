/**
  The API's side of the monitors table (internal/monitor/service.go and repository.go): validation
  and the statements that run next to the worker's. `validUrl` stands for `url.ParseRequestURI`
  accepting an http or https URL with a host.
 */
module MonitorService {
  import opened Common
  import opened Health
  import opened Tables
  import opened Runs
  import opened Text
  import opened WorkerRepository

  datatype MonitorError = InvalidUrl | InvalidInterval | EmptyUpdate | NotFound

  /** The values a write sets. */
  datatype Params = Params(url: string, name: string, interval: int, enabled: bool)

  datatype Patch = Patch(url: Option<string>, name: Option<string>, interval: Option<int>, enabled: Option<bool>)

  const EMPTY_PATCH: Patch := Patch(None, None, None, None)

  function Merge(row: MonitorRow, patch: Patch): Params {
    Params(
      OrElse(patch.url, row.url),
      OrElse(patch.name, row.name),
      OrElse(patch.interval, row.interval),
      OrElse(patch.enabled, row.enabled))
  }

  function Normalize(validUrl: string -> bool, p: Params): Result<Params, MonitorError> {
    var url := TrimSpace(p.url);
    if url == "" || !validUrl(url) then Err(InvalidUrl)
    else if p.interval < MIN_INTERVAL || p.interval > MAX_INTERVAL then Err(InvalidInterval)
    else Ok(Params(url, TrimSpace(p.name), p.interval, p.enabled))
  }

  /** When parameters are accepted, what becomes of them, and what is reported otherwise. */
  lemma NormalizeExact(validUrl: string -> bool, p: Params)
    ensures
      var r, url := Normalize(validUrl, p), TrimSpace(p.url);
      && (r.Ok? <==> url != "" && validUrl(url) && 30 <= p.interval <= 3600)
      && (r == Err(InvalidUrl) <==> url == "" || !validUrl(url))
      && (r == Err(InvalidInterval) <==> url != "" && validUrl(url) && !(30 <= p.interval <= 3600))
      && (r.Ok? ==> r.value == Params(url, TrimSpace(p.name), p.interval, p.enabled))
  {
  }

  /** What is stored is a fixed point of the validation, so an untouched field never makes a later patch fail. */
  lemma StoredParamsStayValid(validUrl: string -> bool, p: Params)
    ensures Normalize(validUrl, p).Ok? ==> Normalize(validUrl, Normalize(validUrl, p).value) == Normalize(validUrl, p)
    ensures Normalize(validUrl, p).Ok? ==> ValidInterval(Normalize(validUrl, p).value.interval)
  {
    TrimSpaceExact(p.url);
    TrimSpaceExact(TrimSpace(p.url));
    TrimSpaceExact(p.name);
    TrimSpaceExact(TrimSpace(p.name));
  }

  function WriteOp(m: Id, user: Id, p: Params): Op {
    PatchOp(m, user, p.url, p.name, p.interval, p.enabled)
  }

  class Service {
    const db: Store
    const validUrl: string -> bool

    constructor (db: Store, validUrl: string -> bool)
      ensures this.db == db && this.validUrl == validUrl
    {
      this.db, this.validUrl := db, validUrl;
    }

    /** Inserts a monitor that is due at once, or reports what is invalid and changes nothing. */
    method Create(uuid: Id, user: Id, input: Params, now: Time) returns (r: Result<MonitorRow, MonitorError>)
      requires uuid !in db.issued
      modifies db
      ensures
        var n := Normalize(validUrl, input);
        if n.Err? then r == Err(n.error) && db.Contents() == old(db.Contents())
        else
          var op := CreateOp(uuid, user, n.value.url, n.value.name, n.value.interval, n.value.enabled, now);
          && Allowed(old(db.Contents()), op)
          && db.Contents() == Step(old(db.Contents()), op)
          && uuid in db.monitors && r == Ok(db.monitors[uuid])
          && (n.value.enabled ==> Due(db.monitors[uuid], now))
      ensures
        var url := TrimSpace(input.url);
        && (r.Ok? <==> url != "" && validUrl(url) && 30 <= input.interval <= 3600)
        && (r == Err(InvalidUrl) <==> url == "" || !validUrl(url))
        && (r == Err(InvalidInterval) <==> url != "" && validUrl(url) && !(30 <= input.interval <= 3600))
        && (r.Err? ==> db.Contents() == old(db.Contents()))
        && (r.Ok? ==>
              && r.value.user == user && r.value.url == url && r.value.name == TrimSpace(input.name)
              && r.value.interval == input.interval && r.value.enabled == input.enabled && r.value.timeout == 5
              && r.value.status == Unknown && r.value.failures == 0 && r.value.lastCheckedAt == None
              && r.value.nextCheckAt == now && r.value.createdAt == now
              && db.monitors == old(db.monitors)[uuid := r.value]
              && db.checklogs == old(db.checklogs) && db.incidents == old(db.incidents)
              && db.issued == old(db.issued) + {uuid})
    {
      NormalizeExact(validUrl, input);
      var n := Normalize(validUrl, input);
      if n.Err? {
        return Err(n.error);
      }
      var p := n.value;
      var row := MonitorRow(user, p.url, p.name, p.interval, DEFAULT_TIMEOUT, p.enabled, Unknown, 0, now, None, now);
      db.monitors := db.monitors[uuid := row];
      db.issued := db.issued + {uuid};
      return Ok(row);
    }

    /** The first half of a patch: read the row, lay the given fields over it, validate. */
    method Prepare(m: Id, user: Id, patch: Patch) returns (r: Result<Params, MonitorError>)
      ensures r == if patch == EMPTY_PATCH then Err(EmptyUpdate)
                   else if !Owns(db.Contents(), m, user) then Err(NotFound)
                   else Normalize(validUrl, Merge(db.monitors[m], patch))
      ensures r.Ok? ==> ValidInterval(r.value.interval) && Normalize(validUrl, r.value) == r
      ensures
        if patch.url == None && patch.name == None && patch.interval == None && patch.enabled == None then
          r == Err(EmptyUpdate)
        else if m !in db.monitors || db.monitors[m].user != user then r == Err(NotFound)
        else
          var row := db.monitors[m];
          var url := TrimSpace(if patch.url.Some? then patch.url.value else row.url);
          var name := TrimSpace(if patch.name.Some? then patch.name.value else row.name);
          var interval := if patch.interval.Some? then patch.interval.value else row.interval;
          var enabled := if patch.enabled.Some? then patch.enabled.value else row.enabled;
          && (r.Ok? <==> url != "" && validUrl(url) && 30 <= interval <= 3600)
          && (r == Err(InvalidUrl) <==> url == "" || !validUrl(url))
          && (r == Err(InvalidInterval) <==> url != "" && validUrl(url) && !(30 <= interval <= 3600))
          && (r.Ok? ==> r.value == Params(url, name, interval, enabled))
    {
      if patch.url == None && patch.name == None && patch.interval == None && patch.enabled == None {
        return Err(EmptyUpdate);
      }
      if m !in db.monitors || db.monitors[m].user != user {
        return Err(NotFound);
      }
      var current := db.monitors[m];
      if patch.url.Some? {
        current := current.(url := patch.url.value);
      }
      if patch.name.Some? {
        current := current.(name := patch.name.value);
      }
      if patch.interval.Some? {
        current := current.(interval := patch.interval.value);
      }
      if patch.enabled.Some? {
        current := current.(enabled := patch.enabled.value);
      }
      StoredParamsStayValid(validUrl, Merge(db.monitors[m], patch));
      NormalizeExact(validUrl, Merge(db.monitors[m], patch));
      r := Normalize(validUrl, Params(current.url, current.name, current.interval, current.enabled));
    }

    /**
      The second half: one statement, on whatever the row has become by then. It sets the four columns the
      user configures, and leaves those of the worker, all other rows and all other tables alone.
     */
    method Write(m: Id, user: Id, p: Params) returns (r: Result<MonitorRow, MonitorError>)
      requires ValidInterval(p.interval)
      modifies db
      ensures db.Contents() == Step(old(db.Contents()), WriteOp(m, user, p))
      ensures r == if Owns(old(db.Contents()), m, user) then Ok(db.monitors[m]) else Err(NotFound)
      ensures db.checklogs == old(db.checklogs) && db.incidents == old(db.incidents) && db.issued == old(db.issued)
      ensures db.monitors.Keys == old(db.monitors).Keys && db.monitors - {m} == old(db.monitors) - {m}
      ensures r.Err? ==> db.monitors == old(db.monitors)
      ensures r.Ok? ==>
                var row, was := r.value, old(db.monitors)[m];
                && Params(row.url, row.name, row.interval, row.enabled) == p
                && row.user == was.user && row.timeout == was.timeout && row.createdAt == was.createdAt
                && row.status == was.status && row.failures == was.failures
                && row.nextCheckAt == was.nextCheckAt && row.lastCheckedAt == was.lastCheckedAt
    {
      if m !in db.monitors || db.monitors[m].user != user {
        return Err(NotFound);
      }
      var row := db.monitors[m].(url := p.url, name := p.name, interval := p.interval, enabled := p.enabled);
      db.monitors := db.monitors[m := row];
      return Ok(db.monitors[m]);
    }

    /** Deletes the monitor with all its logs and incidents, and leaves everything of other monitors alone. */
    method Delete(m: Id, user: Id) returns (r: Result<(), MonitorError>)
      modifies db
      ensures db.Contents() == Step(old(db.Contents()), DeleteOp(m, user))
      ensures r == if Owns(old(db.Contents()), m, user) then Ok(()) else Err(NotFound)
      ensures r.Ok? ==>
                && m !in db.monitors
                && (forall l :: l in db.checklogs ==> l.monitor != m)
                && (forall i :: i in db.incidents ==> i.monitor != m)
      ensures r.Err? ==> db.Contents() == old(db.Contents())
      ensures db.monitors - {m} == old(db.monitors) - {m} && db.issued == old(db.issued)
      ensures forall other :: other != m ==>
                && ChecksOf(db.checklogs, other) == ChecksOf(old(db.checklogs), other)
                && IncidentsOf(db.incidents, other) == IncidentsOf(old(db.incidents), other)
    {
      if m !in db.monitors || db.monitors[m].user != user {
        return Err(NotFound);
      }
      forall other | other != m
        ensures ChecksOf(LogsWithout(db.checklogs, m), other) == ChecksOf(db.checklogs, other)
        ensures IncidentsOf(IncidentsWithout(db.incidents, m), other) == IncidentsOf(db.incidents, other)
      {
        ChecksOfWithout(db.checklogs, m, other);
        IncidentsOfWithout(db.incidents, m, other);
      }
      db.monitors := db.monitors - {m};
      db.checklogs := LogsWithout(db.checklogs, m);
      db.incidents := IncidentsWithout(db.incidents, m);
      return Ok(());
    }
  }

  /** Has `written` changed nothing but fields that `second` sets too? */
  predicate Covers(row: MonitorRow, written: Params, second: Patch) {
    && (second.url.Some? || written.url == row.url)
    && (second.name.Some? || written.name == row.name)
    && (second.interval.Some? || written.interval == row.interval)
    && (second.enabled.Some? || written.enabled == row.enabled)
  }

  /** Laid over the row as `written` left it, a patch that was valid before is still valid. */
  lemma PatchStaysValid(validUrl: string -> bool, row: MonitorRow, written: Params, second: Patch)
    requires Normalize(validUrl, Merge(row, second)).Ok? && Normalize(validUrl, written) == Ok(written)
    ensures
      var later := PatchRow(row, written.url, written.name, written.interval, written.enabled);
      Normalize(validUrl, Merge(later, second)) == Ok(Params(
        if second.url.Some? then TrimSpace(second.url.value) else written.url,
        if second.name.Some? then TrimSpace(second.name.value) else written.name,
        OrElse(second.interval, written.interval),
        OrElse(second.enabled, written.enabled)))
  {
  }

  lemma WritesReplace(db: Db, m: Id, user: Id, p: Params, q: Params)
    requires Owns(db, m, user)
    ensures
      var db' := Step(db, WriteOp(m, user, p));
      && Owns(db', m, user)
      && db'.monitors[m] == PatchRow(db.monitors[m], p.url, p.name, p.interval, p.enabled)
      && Step(db', WriteOp(m, user, q)) == Step(db, WriteOp(m, user, q))
  {
    var db' := Step(db, WriteOp(m, user, p));
    assert Step(db', WriteOp(m, user, q)).monitors == Step(db, WriteOp(m, user, q)).monitors;
  }

  lemma WritesDiffer(db: Db, m: Id, user: Id, p: Params, q: Params)
    requires Owns(db, m, user)
    ensures Step(db, WriteOp(m, user, p)) == Step(db, WriteOp(m, user, q)) <==> p == q
  {
    var a, b := Step(db, WriteOp(m, user, p)).monitors[m], Step(db, WriteOp(m, user, q)).monitors[m];
    assert a.url == p.url && a.name == p.name && a.interval == p.interval && a.enabled == p.enabled;
    assert b.url == q.url && b.name == q.name && b.interval == q.interval && b.enabled == q.enabled;
  }

  /** What a patch of `row` writes. */
  function Written(validUrl: string -> bool, row: MonitorRow, patch: Patch): Result<Params, MonitorError> {
    Normalize(validUrl, Merge(row, patch))
  }

  /** The row holds what validation returns, as every row that a service has written does. */
  predicate IsNormal(validUrl: string -> bool, row: MonitorRow) {
    Written(validUrl, row, EMPTY_PATCH) == Ok(Merge(row, EMPTY_PATCH))
  }

  /** The table after a patch that reads and writes undisturbed. */
  function Patched(validUrl: string -> bool, db: Db, m: Id, user: Id, patch: Patch): Result<Db, MonitorError>
    requires Owns(db, m, user)
  {
    match Written(validUrl, db.monitors[m], patch)
    case Err(e) => Err(e)
    case Ok(p) => Ok(PatchMonitor(db, m, user, p.url, p.name, p.interval, p.enabled))
  }

  /** The fields that `patch` sets from `theirs`, the others from `rest`. */
  function Overlay(patch: Patch, theirs: Params, rest: Params): Params {
    Params(
      if patch.url.Some? then theirs.url else rest.url,
      if patch.name.Some? then theirs.name else rest.name,
      if patch.interval.Some? then theirs.interval else rest.interval,
      if patch.enabled.Some? then theirs.enabled else rest.enabled)
  }

  /** One patch after the other: the second one writes its own fields, and leaves those of the first. */
  lemma SerialPatches(validUrl: string -> bool, db: Db, m: Id, user: Id, first: Patch, second: Patch)
    requires Owns(db, m, user) && IsNormal(validUrl, db.monitors[m])
    requires Written(validUrl, db.monitors[m], first).Ok? && Written(validUrl, db.monitors[m], second).Ok?
    ensures
      var row := db.monitors[m];
      var a, b := Written(validUrl, row, first).value, Written(validUrl, row, second).value;
      var db' := Step(db, WriteOp(m, user, a));
      && Owns(db', m, user)
      && Patched(validUrl, db', m, user, second) == Ok(Step(db, WriteOp(m, user, Overlay(second, b, a))))
  {
    var row := db.monitors[m];
    var a := Written(validUrl, row, first).value;
    StoredParamsStayValid(validUrl, Merge(row, first));
    PatchStaysValid(validUrl, row, a, second);
    PatchStaysValid(validUrl, row, Merge(row, EMPTY_PATCH), second);
    WritesReplace(db, m, user, a, Written(validUrl, Step(db, WriteOp(m, user, a)).monitors[m], second).value);
  }

  /** What a patch does not mention, it writes back as it was. */
  lemma UntouchedFieldsKept(validUrl: string -> bool, row: MonitorRow, patch: Patch)
    requires IsNormal(validUrl, row) && Written(validUrl, row, patch).Ok?
    ensures Overlay(patch, Merge(row, EMPTY_PATCH), Written(validUrl, row, patch).value) == Merge(row, EMPTY_PATCH)
  {
  }

  /** When writing `b` alone makes up for both patches. */
  lemma OverlayCovers(row: MonitorRow, first: Patch, a: Params, second: Patch, b: Params)
    requires Overlay(first, Merge(row, EMPTY_PATCH), a) == Merge(row, EMPTY_PATCH)
    requires Overlay(second, Merge(row, EMPTY_PATCH), b) == Merge(row, EMPTY_PATCH)
    ensures b == Overlay(second, b, a) <==> Covers(row, a, second)
    ensures b == Overlay(first, a, b) ==> Covers(row, a, second)
  {
  }

  /**
    Two patches that both read the row before either writes. The second write undoes the first one
    altogether. The outcome is that of carrying out one patch after the other, in whichever order, exactly
    when the first changed nothing but fields that the second sets as well.
   */
  lemma FirstPatchIsLost(validUrl: string -> bool, db: Db, m: Id, user: Id, first: Patch, second: Patch)
    requires Owns(db, m, user) && IsNormal(validUrl, db.monitors[m])
    requires Written(validUrl, db.monitors[m], first).Ok? && Written(validUrl, db.monitors[m], second).Ok?
    ensures
      var row := db.monitors[m];
      var a, b := Written(validUrl, row, first).value, Written(validUrl, row, second).value;
      var afterFirst, afterSecond := Step(db, WriteOp(m, user, a)), Step(db, WriteOp(m, user, b));
      var outcome := Step(afterFirst, WriteOp(m, user, b));
      && outcome == afterSecond
      && Owns(afterFirst, m, user) && Owns(afterSecond, m, user)
      && (Ok(outcome) == Patched(validUrl, afterFirst, m, user, second) <==> Covers(row, a, second))
      && (Ok(outcome) == Patched(validUrl, afterSecond, m, user, first) ==> Covers(row, a, second))
  {
    var row := db.monitors[m];
    var a, b := Written(validUrl, row, first).value, Written(validUrl, row, second).value;
    WritesReplace(db, m, user, a, b);
    SerialPatches(validUrl, db, m, user, first, second);
    SerialPatches(validUrl, db, m, user, second, first);
    WritesDiffer(db, m, user, b, Overlay(second, b, a));
    WritesDiffer(db, m, user, b, Overlay(first, a, b));
    UntouchedFieldsKept(validUrl, row, first);
    UntouchedFieldsKept(validUrl, row, second);
    OverlayCovers(row, first, a, second, b);
  }

  // ---------------------------------------------------------------------------------------------
  // A run that loses a patch
  // ---------------------------------------------------------------------------------------------

  const CREATE: Op := CreateOp(1, 7, "http://a.example", "old", 60, true, 0)
  const RENAME: Patch := EMPTY_PATCH.(name := Some("new"))
  const PAUSE: Patch := EMPTY_PATCH.(enabled := Some(false))
  const RENAMED: Params := Params("http://a.example", "new", 60, true)
  const PAUSED: Params := Params("http://a.example", "old", 60, false)
  const LOSING_RUN: seq<Op> := [CREATE, WriteOp(1, 7, RENAMED), WriteOp(1, 7, PAUSED)]

  /** What the two requests prepare to write, both having read the monitor as it was created. */
  lemma BothReadFirst(validUrl: string -> bool)
    requires validUrl("http://a.example")
    ensures
      var db := Step(EMPTY, CREATE);
      && Owns(db, 1, 7) && IsNormal(validUrl, db.monitors[1])
      && Written(validUrl, db.monitors[1], RENAME) == Ok(RENAMED)
      && Written(validUrl, db.monitors[1], PAUSE) == Ok(PAUSED)
      && !Covers(db.monitors[1], RENAMED, PAUSE)
  {
    TrimmedStays("http://a.example");
    TrimmedStays("old");
    TrimmedStays("new");
    var row := Step(EMPTY, CREATE).monitors[1];
    assert Merge(row, EMPTY_PATCH) == Params("http://a.example", "old", 60, true);
    assert Merge(row, RENAME) == RENAMED && Merge(row, PAUSE) == PAUSED;
  }

  /** The monitor ends up paused under its old name. */
  lemma RenameIsLost()
    ensures ValidRun(EMPTY, LOSING_RUN) && 1 in Exec(START, LOSING_RUN).db.monitors
    ensures
      var row := Exec(START, LOSING_RUN).db.monitors[1];
      row.name == "old" && !row.enabled
  {
    var w1 := Next(START, CREATE);
    var w2 := Next(w1, WriteOp(1, 7, RENAMED));
    RunCons(w2, WriteOp(1, 7, PAUSED), []);
    RunCons(w1, WriteOp(1, 7, RENAMED), [WriteOp(1, 7, PAUSED)]);
    RunCons(START, CREATE, [WriteOp(1, 7, RENAMED), WriteOp(1, 7, PAUSED)]);
  }
}
