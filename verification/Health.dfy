/**
  The three-state health machine of a monitor (internal/worker/state.go), and what it means in
  terms of the history of checks: how many checks have failed in a row, and which outages the
  history contains.
 */
module Health {
  import opened Common

  datatype CheckResult = CheckResult(
    statusCode: int,
    responseTimeMs: int,
    success: bool,
    errorMessage: string,
    checkedAt: Time)

  datatype Status = Unknown | Up | Down

  datatype EventKind = NoEvent | DownEvent | RecoveredEvent

  datatype Transition = Transition(nextStatus: Status, nextFailures: nat, event: EventKind)

  /** Failed checks in a row that make an outage. */
  const THRESHOLD: nat := 3

  function EvaluateStateTransition(status: Status, failures: nat, success: bool): Transition {
    if success then
      Transition(Up, 0, if status == Down then RecoveredEvent else NoEvent)
    else
      var nextFailures := failures + 1;
      if nextFailures >= THRESHOLD then
        Transition(Down, nextFailures, if status != Down then DownEvent else NoEvent)
      else
        Transition(status, nextFailures, NoEvent)
  }

  /** The number of failed checks at the end of the history. */
  function FailingSuffix(log: seq<CheckResult>): (n: nat)
    ensures n <= |log|
    ensures forall i :: |log| - n <= i < |log| ==> !log[i].success
    ensures n == |log| || log[|log| - n - 1].success
  {
    if log == [] || log[|log| - 1].success then 0 else 1 + FailingSuffix(log[..|log| - 1])
  }

  ghost predicate EverSucceeded(log: seq<CheckResult>) {
    exists i :: 0 <= i < |log| && log[i].success
  }

  /** The status a history of checks deserves, said without the machine. */
  ghost function StatusFrom(log: seq<CheckResult>): Status {
    if FailingSuffix(log) >= THRESHOLD then Down
    else if EverSucceeded(log) then Up
    else Unknown
  }

  /**
    The machine computes that status incrementally, reports an outage exactly at its third failed
    check, and a recovery exactly at the success that ends an outage.
   */
  lemma MachineFollowsHistory(log: seq<CheckResult>, r: CheckResult)
    ensures
      var t := EvaluateStateTransition(StatusFrom(log), FailingSuffix(log), r.success);
      && t.nextStatus == StatusFrom(log + [r])
      && t.nextFailures == FailingSuffix(log + [r])
      && (t.event == DownEvent <==> FailingSuffix(log + [r]) == THRESHOLD)
      && (t.event == RecoveredEvent <==> r.success && FailingSuffix(log) >= THRESHOLD)
  {
    var log' := log + [r];
    assert log'[..|log'| - 1] == log;
    if r.success {
      assert log'[|log|].success;
    } else if i :| 0 <= i < |log| && log[i].success {
      assert log'[i].success;
    }
  }

  // ---------------------------------------------------------------------------------------------
  // Outages
  // ---------------------------------------------------------------------------------------------

  /** The checks with positions in `start .. end` (end excluded). */
  datatype Outage = Outage(start: nat, end: nat)

  ghost predicate MaximalFailingRun(log: seq<CheckResult>, start: int, end: int) {
    && 0 <= start < end <= |log|
    && (forall i :: start <= i < end ==> !log[i].success)
    && (start == 0 || log[start - 1].success)
    && (end == |log| || log[end].success)
  }

  /** A maximal run of failed checks, long enough to be reported. */
  ghost predicate IsOutage(log: seq<CheckResult>, o: Outage) {
    MaximalFailingRun(log, o.start, o.end) && o.end - o.start >= THRESHOLD
  }

  /** All outages of a history, oldest first. */
  function Outages(log: seq<CheckResult>): seq<Outage> {
    if log == [] then []
    else
      var n := |log|;
      var earlier := Outages(log[..n - 1]);
      var failing := FailingSuffix(log);
      if failing == THRESHOLD then earlier + [Outage(n - THRESHOLD, n)]
      else if failing > THRESHOLD && earlier != [] then earlier[|earlier| - 1 := Outage(n - failing, n)]
      else earlier
  }

  /** An outage that is over, or that the next check ends, stays an outage. */
  lemma OutageStays(log: seq<CheckResult>, o: Outage)
    requires log != [] && IsOutage(log[..|log| - 1], o)
    requires o.end < |log| - 1 || log[|log| - 1].success
    ensures IsOutage(log, o)
  {
    var log' := log[..|log| - 1];
    assert forall i :: 0 <= i < |log'| ==> log'[i] == log[i];
  }

  /** The outage under way. */
  lemma CurrentOutage(log: seq<CheckResult>)
    requires FailingSuffix(log) >= THRESHOLD
    ensures IsOutage(log, Outage(|log| - FailingSuffix(log), |log|))
  {
  }

  lemma FailingSuffixStep(log: seq<CheckResult>)
    requires log != []
    ensures FailingSuffix(log) == if log[|log| - 1].success then 0 else 1 + FailingSuffix(log[..|log| - 1])
  {
  }

  lemma {:induction false} OutagesEnd(log: seq<CheckResult>)
    ensures FailingSuffix(log) >= THRESHOLD ==>
              && Outages(log) != []
              && Outages(log)[|Outages(log)| - 1] == Outage(|log| - FailingSuffix(log), |log|)
  {
    if log != [] {
      OutagesEnd(log[..|log| - 1]);
      FailingSuffixStep(log);
    }
  }

  /** While fewer than three checks have failed in a row, every outage ended before them. */
  lemma OutageBeforeSuffix(log: seq<CheckResult>, o: Outage)
    requires IsOutage(log, o) && FailingSuffix(log) < THRESHOLD
    ensures o.end < |log| - FailingSuffix(log)
  {
    assert log[|log| - FailingSuffix(log) - 1].success;
  }

  lemma {:induction false} OutagesSound(log: seq<CheckResult>)
    ensures forall k :: 0 <= k < |Outages(log)| ==> IsOutage(log, Outages(log)[k])
    ensures forall j, k :: 0 <= j < k < |Outages(log)| ==> Outages(log)[j].end < Outages(log)[k].start
    ensures FailingSuffix(log) >= THRESHOLD ==>
              && Outages(log) != []
              && Outages(log)[|Outages(log)| - 1] == Outage(|log| - FailingSuffix(log), |log|)
  {
    OutagesEnd(log);
    if log != [] {
      var n, log' := |log|, log[..|log| - 1];
      OutagesSound(log');
      FailingSuffixStep(log);
      var earlier, os, failing := Outages(log'), Outages(log), FailingSuffix(log);
      forall k | 0 <= k < |os| ensures IsOutage(log, os[k]) {
        if failing >= THRESHOLD && k == |os| - 1 {
          CurrentOutage(log);
        } else {
          assert IsOutage(log', earlier[k]);
          if failing <= THRESHOLD {
            if failing > 0 {
              OutageBeforeSuffix(log', earlier[k]);
            }
          } else {
            assert IsOutage(log', earlier[k + 1]);
          }
          OutageStays(log, earlier[k]);
        }
      }
      if failing == THRESHOLD {
        forall j | 0 <= j < |earlier| ensures earlier[j].end < n - THRESHOLD {
          OutageBeforeSuffix(log', earlier[j]);
        }
      }
    }
  }

  lemma {:induction false} OutagesComplete(log: seq<CheckResult>, o: Outage)
    requires IsOutage(log, o)
    ensures o in Outages(log)
  {
    var n, log' := |log|, log[..|log| - 1];
    var earlier, os, failing := Outages(log'), Outages(log), FailingSuffix(log);
    FailingSuffixStep(log);
    OutagesEnd(log);
    OutagesEnd(log');
    if o.end < n {
      assert !log[o.end - 1].success && log[o.end].success;
      assert IsOutage(log', o) by {
        assert forall i :: 0 <= i < |log'| ==> log'[i] == log[i];
      }
      OutagesComplete(log', o);
      var k :| 0 <= k < |earlier| && earlier[k] == o;
      assert failing > 0 ==> o.end < n - 1;
      assert os[k] == o;
    } else {
      assert o.start == n - failing;
      assert os[|os| - 1] == o;
    }
  }

  /** `Outages` lists the reportable maximal failing runs: only those, every one, in order, once. */
  lemma OutagesExact(log: seq<CheckResult>)
    ensures forall o :: o in Outages(log) <==> IsOutage(log, o)
    ensures forall j, k :: 0 <= j < k < |Outages(log)| ==> Outages(log)[j].end < Outages(log)[k].start
  {
    OutagesSound(log);
    forall o | IsOutage(log, o) ensures o in Outages(log) {
      OutagesComplete(log, o);
    }
  }

  /** How one more check changes the list of outages. */
  lemma OutagesAdvance(log: seq<CheckResult>, r: CheckResult)
    ensures
      var os, os' := Outages(log), Outages(log + [r]);
      if r.success || FailingSuffix(log) < THRESHOLD - 1 then
        os' == os
      else if FailingSuffix(log) == THRESHOLD - 1 then
        os' == os + [Outage(|log| - 2, |log| + 1)]
      else
        && os != []
        && os' == os[|os| - 1 := Outage(os[|os| - 1].start, |log| + 1)]
        && os[|os| - 1].end == |log|
  {
    assert (log + [r])[..|log|] == log;
    OutagesEnd(log);
  }
}
