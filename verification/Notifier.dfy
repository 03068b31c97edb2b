/** Handing an event to the user's channels (internal/worker/notifier.go). Sending is an oracle. */
module Notifier {
  import opened Common
  import opened Channels

  /** A message that was sent, and whether the other side accepted it. */
  datatype Attempt = Attempt(channel: Channel, accepted: bool)

  /** The channels that are tried at all: webhooks, and Telegram chats if the bot token is configured. */
  predicate Reachable(tokenConfigured: bool, c: Channel) {
    c.kind == WEBHOOK || (c.kind == TELEGRAM && tokenConfigured)
  }

  /** The positions of the reachable channels, in order. */
  function ReachableIn(tokenConfigured: bool, channels: seq<Channel>): (r: seq<nat>)
    ensures forall i :: 0 <= i < |r| ==> r[i] < |channels| && Reachable(tokenConfigured, channels[r[i]])
    ensures forall k :: 0 <= k < |channels| && Reachable(tokenConfigured, channels[k]) ==> k in r
    ensures forall i, j :: 0 <= i < j < |r| ==> r[i] < r[j]
  {
    if channels == [] then []
    else
      var last := |channels| - 1;
      ReachableIn(tokenConfigured, channels[..last]) + if Reachable(tokenConfigured, channels[last]) then [last] else []
  }

  /** The channels whose message was refused, in order. */
  function Refused(attempts: seq<Attempt>): seq<Channel> {
    if attempts == [] then []
    else
      var a := attempts[|attempts| - 1];
      Refused(attempts[..|attempts| - 1]) + if a.accepted then [] else [a.channel]
  }

  lemma {:induction false} RefusedExact(attempts: seq<Attempt>)
    ensures forall c :: c in Refused(attempts) <==> Attempt(c, false) in attempts
    ensures Refused(attempts) == [] <==> forall k :: 0 <= k < |attempts| ==> attempts[k].accepted
  {
    if attempts != [] {
      var front, a := attempts[..|attempts| - 1], attempts[|attempts| - 1];
      RefusedExact(front);
      assert attempts == front + [a];
    }
  }

  /** The messages to the reachable channels, each with its own channel's answer. */
  function Attempts(tokenConfigured: bool, channels: seq<Channel>, accepts: seq<bool>): seq<Attempt>
    requires |accepts| == |channels|
  {
    if channels == [] then []
    else
      var last := |channels| - 1;
      Attempts(tokenConfigured, channels[..last], accepts[..last])
      + if Reachable(tokenConfigured, channels[last]) then [Attempt(channels[last], accepts[last])] else []
  }

  /** Every reachable channel is tried exactly once, in order, with the answer that is its own. */
  lemma {:induction false} AttemptsExact(tokenConfigured: bool, channels: seq<Channel>, accepts: seq<bool>)
    requires |accepts| == |channels|
    ensures
      var attempts, tried := Attempts(tokenConfigured, channels, accepts), ReachableIn(tokenConfigured, channels);
      && |attempts| == |tried|
      && forall i :: 0 <= i < |tried| ==> attempts[i] == Attempt(channels[tried[i]], accepts[tried[i]])
  {
    if channels != [] {
      var last := |channels| - 1;
      AttemptsExact(tokenConfigured, channels[..last], accepts[..last]);
    }
  }

  lemma NoneRefusedIff(tokenConfigured: bool, channels: seq<Channel>, accepts: seq<bool>)
    requires |accepts| == |channels|
    ensures Refused(Attempts(tokenConfigured, channels, accepts)) == [] <==>
              forall k :: 0 <= k < |channels| && MustTry(tokenConfigured, channels[k]) ==> accepts[k]
  {
    AttemptsExact(tokenConfigured, channels, accepts);
    RefusedExact(Attempts(tokenConfigured, channels, accepts));
    var attempts, tried := Attempts(tokenConfigured, channels, accepts), ReachableIn(tokenConfigured, channels);
    if forall i :: 0 <= i < |attempts| ==> attempts[i].accepted {
      forall k | 0 <= k < |channels| && MustTry(tokenConfigured, channels[k]) ensures accepts[k] {
        assert Reachable(tokenConfigured, channels[k]);
        var i :| 0 <= i < |tried| && tried[i] == k;
        assert attempts[i].accepted;
      }
    }
  }

  /** What one more channel adds. */
  lemma AttemptsStep(tokenConfigured: bool, channels: seq<Channel>, accepts: seq<bool>, k: nat)
    requires |accepts| == |channels| && k < |channels|
    ensures
      var attempts := Attempts(tokenConfigured, channels[..k], accepts[..k]);
      var a := Attempt(channels[k], accepts[k]);
      && Attempts(tokenConfigured, channels[..k + 1], accepts[..k + 1]) ==
         (if Reachable(tokenConfigured, channels[k]) then attempts + [a] else attempts)
      && Refused(attempts + [a]) == if a.accepted then Refused(attempts) else Refused(attempts) + [a.channel]
  {
    assert channels[..k + 1][..k] == channels[..k] && accepts[..k + 1][..k] == accepts[..k];
    var attempts := Attempts(tokenConfigured, channels[..k], accepts[..k]);
    assert (attempts + [Attempt(channels[k], accepts[k])])[..|attempts|] == attempts;
  }

  /** The positions of the messages that were refused, in order. */
  ghost function RefusedIn(attempts: seq<Attempt>): (r: seq<nat>)
    ensures forall i :: 0 <= i < |r| ==> r[i] < |attempts|
  {
    if attempts == [] then []
    else
      var last := |attempts| - 1;
      RefusedIn(attempts[..last]) + if attempts[last].accepted then [] else [last]
  }

  ghost predicate Increasing(s: seq<nat>) {
    forall i, j :: 0 <= i < j < |s| ==> s[i] < s[j]
  }

  lemma {:induction false} RefusedPositions(attempts: seq<Attempt>)
    ensures Increasing(RefusedIn(attempts))
    ensures forall k: nat :: k in RefusedIn(attempts) <==> k < |attempts| && !attempts[k].accepted
  {
    if attempts != [] {
      RefusedPositions(attempts[..|attempts| - 1]);
    }
  }

  lemma {:induction false} RefusedAt(attempts: seq<Attempt>)
    ensures |Refused(attempts)| == |RefusedIn(attempts)|
    ensures forall i :: 0 <= i < |Refused(attempts)| ==>
              Refused(attempts)[i] == attempts[RefusedIn(attempts)[i]].channel
  {
    if attempts != [] {
      RefusedAt(attempts[..|attempts| - 1]);
    }
  }

  /** Is the channel one that has to be tried: a webhook, or a Telegram chat with the bot token configured? */
  predicate MustTry(tokenConfigured: bool, c: Channel) {
    c.kind == "webhook" || (c.kind == "telegram" && tokenConfigured)
  }

  /** At the positions `tried`, in order, are the channels that must be tried; each has one attempt, with its answer. */
  ghost predicate TriesExactly(
      tokenConfigured: bool, channels: seq<Channel>, accepts: seq<bool>, attempts: seq<Attempt>, tried: seq<nat>)
    requires |accepts| == |channels|
  {
    && Increasing(tried)
    && (forall k: nat :: k in tried <==> k < |channels| && MustTry(tokenConfigured, channels[k]))
    && |attempts| == |tried|
    && forall i :: 0 <= i < |tried| ==>
         tried[i] < |channels| && attempts[i] == Attempt(channels[tried[i]], accepts[tried[i]])
  }

  /** At the positions `refused`, in order, are the attempts that failed; their channels are the errors. */
  ghost predicate ReportsExactly(attempts: seq<Attempt>, errors: seq<Channel>, refused: seq<nat>) {
    && Increasing(refused)
    && (forall k: nat :: k in refused <==> k < |attempts| && !attempts[k].accepted)
    && |errors| == |refused|
    && forall i :: 0 <= i < |refused| ==> refused[i] < |attempts| && errors[i] == attempts[refused[i]].channel
  }

  lemma AttemptsTryExactly(tokenConfigured: bool, channels: seq<Channel>, accepts: seq<bool>)
    requires |accepts| == |channels|
    ensures TriesExactly(
              tokenConfigured, channels, accepts,
              Attempts(tokenConfigured, channels, accepts), ReachableIn(tokenConfigured, channels))
  {
    AttemptsExact(tokenConfigured, channels, accepts);
  }

  lemma RefusedReportExactly(attempts: seq<Attempt>)
    ensures ReportsExactly(attempts, Refused(attempts), RefusedIn(attempts))
  {
    RefusedPositions(attempts);
    RefusedAt(attempts);
  }

  /**
    Tries every webhook channel exactly once, and every Telegram channel if the bot token is configured, in
    order, whatever the others answer; and reports exactly those that refuse, in order. `accepts[k]` is the answer
    of the `k`-th channel, `tried` are the positions of the channels that are tried, `refused` those of the
    attempts that fail.
   */
  method Notify(tokenConfigured: bool, channels: seq<Channel>, accepts: seq<bool>)
    returns (errors: seq<Channel>, attempts: seq<Attempt>, ghost tried: seq<nat>, ghost refused: seq<nat>)
    requires |accepts| == |channels|
    ensures TriesExactly(tokenConfigured, channels, accepts, attempts, tried)
    ensures ReportsExactly(attempts, errors, refused)
    ensures errors == [] <==>
              forall k :: 0 <= k < |channels| && MustTry(tokenConfigured, channels[k]) ==> accepts[k]
  {
    errors, attempts := [], [];
    var k := 0;
    while k < |channels|
      invariant 0 <= k <= |channels|
      invariant attempts == Attempts(tokenConfigured, channels[..k], accepts[..k])
      invariant errors == Refused(attempts)
    {
      var c := channels[k];
      AttemptsStep(tokenConfigured, channels, accepts, k);
      if (c.kind == TELEGRAM && tokenConfigured) || c.kind == WEBHOOK {
        attempts := attempts + [Attempt(c, accepts[k])];
        if !accepts[k] {
          errors := errors + [c];
        }
      }
      k := k + 1;
    }
    assert channels[..k] == channels && accepts[..k] == accepts;
    tried, refused := ReachableIn(tokenConfigured, channels), RefusedIn(attempts);
    AttemptsTryExactly(tokenConfigured, channels, accepts);
    RefusedReportExactly(attempts);
    NoneRefusedIff(tokenConfigured, channels, accepts);
  }
}
