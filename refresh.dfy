/** The instance-refresh lifecycle controller: starting a rolling refresh of an Auto Scaling
    Group, reading its status back, and polling until it reaches a terminal status or times out.

    The remote Auto Scaling API is an object that answers each call from a script and logs the
    request it received; the wall clock is a sequence of elapsed readings, reading `n` being
    the one taken right after describe call number `n`; the injectable sleep function is a log
    of the durations it was called with, and the progress callback a log of the snapshots it
    was handed. */
module Refresh {
  import opened Wrappers
  import opened GoInts

  /** `time.Duration`: a signed 64-bit count of nanoseconds. */
  type Duration = int64

  const RollingStrategy := "Rolling"

  /** Refresh statuses that will not progress further. */
  const TerminalStates: set<string> :=
    {"Successful", "Failed", "Cancelled", "RollbackSuccessful", "RollbackFailed"}

  /** A status outside the terminal set, known or not, counts as still in progress. */
  predicate IsTerminal(status: string) {
    status in TerminalStates
  }

  /** What the caller asks for; the optional fields are Go pointers, nil meaning "not supplied". */
  datatype RefreshOptions = RefreshOptions(
    minHealthyPercentage: int64,
    maxHealthyPercentage: Option<int32>,
    instanceWarmup: Option<int32>,
    skipMatching: bool)

  /** The preference fields of the outgoing request; `None` is a field left out of the request. */
  datatype RefreshPreferences = RefreshPreferences(
    minHealthyPercentage: Option<int32>,
    skipMatching: Option<bool>,
    instanceWarmup: Option<int32>,
    maxHealthyPercentage: Option<int32>)

  datatype StartInstanceRefreshInput = StartInstanceRefreshInput(
    autoScalingGroupName: Option<string>,
    strategy: string,
    preferences: Option<RefreshPreferences>)

  datatype DescribeInstanceRefreshesInput = DescribeInstanceRefreshesInput(
    autoScalingGroupName: Option<string>,
    instanceRefreshIds: seq<string>)

  /** One status record of a refresh, as the remote API describes it. */
  datatype InstanceRefresh = InstanceRefresh(
    instanceRefreshId: Option<string>,
    status: string,
    percentageComplete: Option<int32>)

  /** The remote API's answer to a start call: a transport or remote error, or the new id
      (a pointer that may be nil). */
  datatype StartReply = StartRejected(cause: string) | Started(instanceRefreshId: Option<string>)

  /** The remote API's answer to a describe call: an error, or zero or more records. */
  datatype DescribeReply = DescribeRejected(cause: string) | Described(instanceRefreshes: seq<InstanceRefresh>)

  /** The handle returned by a successful start. */
  datatype StartResult = StartResult(instanceRefreshId: string, autoScalingGroupName: string)

  datatype Error =
    | StartFailed(cause: string)                       // "start instance refresh: <cause>"
    | DescribeFailed(cause: string)                    // "describe instance refresh: <cause>"
    | TimedOut(timeout: Duration, refreshId: string)   // names the configured timeout and the id

  /** `aws.ToString`: the pointed-to text, or "" for nil. */
  function ToString(p: Option<string>): string {
    if p.Some? then p.value else ""
  }

  /** The request StartRefresh sends for `asgName` and `opts`: the group by name, the rolling
      strategy, the minimum healthy percentage (as Go's `int32(...)` conversion leaves it) and the
      skip-matching flag always present, and warm-up and maximum healthy percentage present
      exactly when supplied, with the supplied values. */
  predicate RequestFor(input: StartInstanceRefreshInput, asgName: string, opts: RefreshOptions) {
    && input.autoScalingGroupName == Some(asgName)
    && input.strategy == RollingStrategy
    && input.preferences.Some?
    && input.preferences.value.minHealthyPercentage == Some(WrapInt32(opts.minHealthyPercentage as int))
    && input.preferences.value.skipMatching == Some(opts.skipMatching)
    && input.preferences.value.instanceWarmup == opts.instanceWarmup
    && input.preferences.value.maxHealthyPercentage == opts.maxHealthyPercentage
  }

  /** How StartRefresh reads the reply to its start call. */
  function StartOutcome(reply: StartReply, asgName: string): (r: Result<StartResult, Error>)
    ensures r.Failure? <==> reply.StartRejected?
    ensures reply.StartRejected? ==> r.error == StartFailed(reply.cause)
    ensures r.Success? ==> r.value.autoScalingGroupName == asgName
    ensures r.Success? ==> (reply.instanceRefreshId.Some? ==> r.value.instanceRefreshId == reply.instanceRefreshId.value)
    ensures r.Success? ==> (reply.instanceRefreshId.None? ==> r.value.instanceRefreshId == "")
  {
    match reply
    case StartRejected(cause) => Failure(StartFailed(cause))
    case Started(id) => Success(StartResult(ToString(id), asgName))
  }

  /** How DescribeRefresh reads the reply to its describe call: an error, absent (`None`, not an
      error) when no record matched, and otherwise the first record. */
  function DescribeResult(reply: DescribeReply): (r: Result<Option<InstanceRefresh>, Error>)
    ensures r.Failure? <==> reply.DescribeRejected?
    ensures reply.DescribeRejected? ==> r.error == DescribeFailed(reply.cause)
    ensures r == Success(None) <==> reply.Described? && reply.instanceRefreshes == []
    ensures r.Success? && r.value.Some? ==> r.value.value == reply.instanceRefreshes[0]
  {
    match reply
    case DescribeRejected(cause) => Failure(DescribeFailed(cause))
    case Described(records) => if |records| == 0 then Success(None) else Success(Some(records[0]))
  }

  /** The poll that got `reply` found a refresh in a terminal status. */
  predicate EndsInTerminal(reply: DescribeReply) {
    var r := DescribeResult(reply);
    r.Success? && r.value.Some? && IsTerminal(r.value.value.status)
  }

  /** The wait ends at a poll that got `reply` and then read `elapsed` on the clock: the
      describe call failed, or it found a terminal status, or the timeout has passed. */
  predicate Stops(reply: DescribeReply, elapsed: Duration, timeout: Duration) {
    reply.DescribeRejected? || EndsInTerminal(reply) || elapsed >= timeout
  }

  /** The script of replies and clock readings holds a poll, at index `k` or later, at which
      the wait ends. */
  predicate Decides(replies: seq<DescribeReply>, elapsed: seq<Duration>, k: nat, timeout: Duration) {
    exists i :: k <= i < |replies| && i < |elapsed| && Stops(replies[i], elapsed[i], timeout)
  }

  /** None of the polls `lo` up to (excluding) `hi` of the script may end the wait. */
  predicate StopsNowhereBetween(replies: seq<DescribeReply>, elapsed: seq<Duration>, lo: nat, hi: nat,
                                timeout: Duration)
    requires lo <= hi <= |replies| && hi <= |elapsed|
    decreases hi
  {
    hi == lo || (StopsNowhereBetween(replies, elapsed, lo, hi - 1, timeout) && !Stops(replies[hi - 1], elapsed[hi - 1], timeout))
  }

  lemma {:induction false} StopsNowhereBetweenAll(replies: seq<DescribeReply>, elapsed: seq<Duration>,
                                                  lo: nat, hi: nat, timeout: Duration)
    requires lo <= hi <= |replies| && hi <= |elapsed|
    ensures StopsNowhereBetween(replies, elapsed, lo, hi, timeout) <==>
              forall j :: lo <= j < hi ==> !Stops(replies[j], elapsed[j], timeout)
    decreases hi
  {
    if hi > lo {
      StopsNowhereBetweenAll(replies, elapsed, lo, hi - 1, timeout);
    }
  }

  /** How a wait ended: its result, and how many describe calls it made. */
  datatype WaitTrace = WaitTrace(outcome: Result<InstanceRefresh, Error>, polls: nat)

  /** The snapshot a poll that got `reply` hands to the callback: the first record of a
      non-empty reply; an error reply or an empty reply yields none. */
  function Observed(reply: DescribeReply): seq<InstanceRefresh> {
    if reply.Described? && |reply.instanceRefreshes| > 0 then [reply.instanceRefreshes[0]] else []
  }

  /** What one poll decides, once it got `reply` and the clock then read `elapsed`: the result
      the wait returns, or `None` to sleep and poll again. */
  function PollVerdict(reply: DescribeReply, elapsed: Duration, refreshId: string, timeout: Duration)
    : (v: Option<Result<InstanceRefresh, Error>>)
    ensures v.Some? <==> Stops(reply, elapsed, timeout)
    ensures reply.DescribeRejected? ==> v == Some(Failure(DescribeFailed(reply.cause)))
    ensures EndsInTerminal(reply) ==> v == Some(Success(reply.instanceRefreshes[0]))
    ensures v.Some? && !reply.DescribeRejected? && !EndsInTerminal(reply) ==>
              v == Some(Failure(TimedOut(timeout, refreshId)))
  {
    match DescribeResult(reply)
    case Failure(e) => Some(Failure(e))
    case Success(found) =>
      if found.Some? && IsTerminal(found.value.status) then Some(Success(found.value))
      else if elapsed >= timeout then Some(Failure(TimedOut(timeout, refreshId)))
      else None
  }

  /** The polling loop of WaitForRefresh, from poll `k` of a script of replies and clock
      readings on: poll once; stop on an error; hand a present snapshot to the callback and stop
      if its status is terminal; otherwise stop with a timeout error once the clock reads at
      least `timeout`, and else sleep for `interval` and poll again. */
  function Wait(replies: seq<DescribeReply>, elapsed: seq<Duration>, k: nat, refreshId: string,
                interval: Duration, timeout: Duration): (t: WaitTrace)
    requires Decides(replies, elapsed, k, timeout)
    ensures 1 <= t.polls && k + t.polls <= |replies| && k + t.polls <= |elapsed|
    decreases |replies| - k
  {
    match PollVerdict(replies[k], elapsed[k], refreshId, timeout)
    case Some(outcome) => WaitTrace(outcome, 1)
    case None =>
      var rest := Wait(replies, elapsed, k + 1, refreshId, interval, timeout);
      WaitTrace(rest.outcome, rest.polls + 1)
  }

  /** A poll that does not end the wait is followed by the rest of the wait. */
  lemma WaitContinues(replies: seq<DescribeReply>, elapsed: seq<Duration>, k: nat,
                      refreshId: string, interval: Duration, timeout: Duration)
    requires Decides(replies, elapsed, k, timeout)
    requires !Stops(replies[k], elapsed[k], timeout)
    ensures Decides(replies, elapsed, k + 1, timeout)
    ensures var t := Wait(replies, elapsed, k, refreshId, interval, timeout);
      var rest := Wait(replies, elapsed, k + 1, refreshId, interval, timeout);
      && t.outcome == rest.outcome
      && t.polls == rest.polls + 1
  {
  }

  /** The wait from poll `k` makes exactly the polls up to and including the first one at which
      it may stop: every earlier poll was absent or in progress with time left, and no poll
      after that one is made. */
  lemma {:induction false} WaitEndsAtFirstStop(replies: seq<DescribeReply>, elapsed: seq<Duration>, k: nat,
                                               refreshId: string, interval: Duration, timeout: Duration)
    requires Decides(replies, elapsed, k, timeout)
    ensures var t := Wait(replies, elapsed, k, refreshId, interval, timeout);
      && Stops(replies[k + t.polls - 1], elapsed[k + t.polls - 1], timeout)
      && forall j :: k <= j < k + t.polls - 1 ==> !Stops(replies[j], elapsed[j], timeout)
    decreases |replies| - k
  {
    if !Stops(replies[k], elapsed[k], timeout) {
      WaitContinues(replies, elapsed, k, refreshId, interval, timeout);
      WaitEndsAtFirstStop(replies, elapsed, k + 1, refreshId, interval, timeout);
    }
  }

  /** The result of a wait is decided by its last poll: a describe error is returned as it came;
      a terminal status, `Failed` and the rollback statuses as much as `Successful`, is returned
      as the snapshot itself with no error; and otherwise the wait timed out, naming the
      configured timeout and the refresh id. */
  lemma {:induction false} WaitOutcome(replies: seq<DescribeReply>, elapsed: seq<Duration>, k: nat,
                                       refreshId: string, interval: Duration, timeout: Duration)
    requires Decides(replies, elapsed, k, timeout)
    ensures var t := Wait(replies, elapsed, k, refreshId, interval, timeout);
      var last := replies[k + t.polls - 1];
      && (last.DescribeRejected? ==> t.outcome == Failure(DescribeFailed(last.cause)))
      && (EndsInTerminal(last) ==> t.outcome == Success(last.instanceRefreshes[0]))
      && (!last.DescribeRejected? && !EndsInTerminal(last) ==>
            elapsed[k + t.polls - 1] >= timeout && t.outcome == Failure(TimedOut(timeout, refreshId)))
    decreases |replies| - k
  {
    if !Stops(replies[k], elapsed[k], timeout) {
      WaitContinues(replies, elapsed, k, refreshId, interval, timeout);
      WaitOutcome(replies, elapsed, k + 1, refreshId, interval, timeout);
    }
  }

  /** The snapshots that polls `lo` up to (excluding) `hi` of a script yield, in order. */
  function Snapshots(replies: seq<DescribeReply>, lo: nat, hi: nat): seq<InstanceRefresh>
    requires lo <= hi <= |replies|
    decreases hi
  {
    if hi == lo then [] else Snapshots(replies, lo, hi - 1) + Observed(replies[hi - 1])
  }

  /** The callback is handed at most one snapshot per poll. */
  lemma {:induction false} SnapshotsAtMostOnePerPoll(replies: seq<DescribeReply>, lo: nat, hi: nat)
    requires lo <= hi <= |replies|
    ensures |Snapshots(replies, lo, hi)| <= hi - lo
    decreases hi
  {
    if hi > lo {
      SnapshotsAtMostOnePerPoll(replies, lo, hi - 1);
    }
  }

  /** Polls that found no record, because the reply was an error or empty, hand the callback
      nothing. */
  lemma {:induction false} SnapshotsNoneWhenAbsent(replies: seq<DescribeReply>, lo: nat, hi: nat)
    requires lo <= hi <= |replies|
    requires forall j :: lo <= j < hi ==> DescribeResult(replies[j]).Failure? || DescribeResult(replies[j]).value.None?
    ensures Snapshots(replies, lo, hi) == []
    decreases hi
  {
    if hi > lo {
      SnapshotsNoneWhenAbsent(replies, lo, hi - 1);
    }
  }

  /** The callback runs before the status is checked: a wait that ends on a terminal status has
      handed that very snapshot to the callback last, and a wait that ends on a describe error
      handed nothing for the failed poll. */
  lemma WaitNotifiesBeforeReturning(replies: seq<DescribeReply>, elapsed: seq<Duration>, k: nat,
                                    refreshId: string, interval: Duration, timeout: Duration)
    requires Decides(replies, elapsed, k, timeout)
    ensures var t := Wait(replies, elapsed, k, refreshId, interval, timeout);
      var seen := Snapshots(replies, k, k + t.polls);
      && (t.outcome.Success? ==> |seen| > 0 && seen[|seen| - 1] == t.outcome.value)
      && (replies[k + t.polls - 1].DescribeRejected? ==> seen == Snapshots(replies, k, k + t.polls - 1))
  {
    WaitOutcome(replies, elapsed, k, refreshId, interval, timeout);
  }

  /** One more poll extends the callback's log by that poll's snapshot. */
  lemma NotifiedStep(base: seq<InstanceRefresh>, before: seq<InstanceRefresh>, after: seq<InstanceRefresh>,
                     replies: seq<DescribeReply>, lo: nat, hi: nat)
    requires lo <= hi < |replies|
    requires before == base + Snapshots(replies, lo, hi)
    requires after == before + Observed(replies[hi])
    ensures after == base + Snapshots(replies, lo, hi + 1)
  {
  }

  /** A zero (or negative) timeout still allows one poll, and exactly one, so the wait ends
      without sleeping. */
  lemma WaitZeroTimeout(replies: seq<DescribeReply>, elapsed: seq<Duration>,
                        refreshId: string, interval: Duration, timeout: Duration)
    requires |replies| > 0 && |elapsed| > 0 && elapsed[0] >= 0
    requires timeout <= 0
    ensures Decides(replies, elapsed, 0, timeout)
    ensures Wait(replies, elapsed, 0, refreshId, interval, timeout).polls == 1
  {
    assert Stops(replies[0], elapsed[0], timeout);
  }

  /** The first poll at or after `k` at which the wait may stop decides the wait from `k`: it
      is the last poll made, and the result is read from it. */
  lemma WaitStopsAt(replies: seq<DescribeReply>, elapsed: seq<Duration>, k: nat,
                    refreshId: string, interval: Duration, timeout: Duration, n: nat)
    requires k <= n < |replies| && n < |elapsed|
    requires StopsNowhereBetween(replies, elapsed, k, n, timeout)
    requires Stops(replies[n], elapsed[n], timeout)
    ensures Decides(replies, elapsed, k, timeout)
    ensures var t := Wait(replies, elapsed, k, refreshId, interval, timeout);
      && k + t.polls == n + 1
      && Some(t.outcome) == PollVerdict(replies[n], elapsed[n], refreshId, timeout)
  {
    StopsNowhereBetweenAll(replies, elapsed, k, n, timeout);
    WaitEndsAtFirstStop(replies, elapsed, k, refreshId, interval, timeout);
    WaitOutcome(replies, elapsed, k, refreshId, interval, timeout);
  }

  /** Once a poll finds a terminal status, and no earlier poll ended the wait, the wait returns
      that very snapshot without error and polls no more. */
  lemma WaitTerminalShortCircuit(replies: seq<DescribeReply>, elapsed: seq<Duration>,
                                 refreshId: string, interval: Duration, timeout: Duration, n: nat)
    requires n < |replies| && n < |elapsed|
    requires forall j :: 0 <= j < n ==> !Stops(replies[j], elapsed[j], timeout)
    requires EndsInTerminal(replies[n])
    ensures Decides(replies, elapsed, 0, timeout)
    ensures Wait(replies, elapsed, 0, refreshId, interval, timeout).polls == n + 1
    ensures Wait(replies, elapsed, 0, refreshId, interval, timeout).outcome == Success(replies[n].instanceRefreshes[0])
  {
    StopsNowhereBetweenAll(replies, elapsed, 0, n, timeout);
    WaitStopsAt(replies, elapsed, 0, refreshId, interval, timeout, n);
  }

  /** The subset of the remote Auto Scaling API the controller uses. Each call logs its request;
      a start call answers with `startReply`, and the describe call numbered `i` (from 0) with
      reply `i` of the `describeReplies` script. */
  class AutoScalingApi {
    const startReply: StartReply
    const describeReplies: seq<DescribeReply>
    var startCalls: seq<StartInstanceRefreshInput>
    var describeCalls: seq<DescribeInstanceRefreshesInput>

    constructor (startReply: StartReply, describeReplies: seq<DescribeReply>)
      ensures this.startReply == startReply && this.describeReplies == describeReplies
      ensures startCalls == [] && describeCalls == []
    {
      this.startReply := startReply;
      this.describeReplies := describeReplies;
      startCalls := [];
      describeCalls := [];
    }

    method StartInstanceRefresh(input: StartInstanceRefreshInput) returns (reply: StartReply)
      modifies this`startCalls
      ensures reply == startReply
      ensures startCalls == old(startCalls) + [input]
    {
      reply := startReply;
      startCalls := startCalls + [input];
    }

    method DescribeInstanceRefreshes(input: DescribeInstanceRefreshesInput) returns (reply: DescribeReply)
      requires |describeCalls| < |describeReplies|
      modifies this`describeCalls
      ensures reply == describeReplies[|old(describeCalls)|]
      ensures describeCalls == old(describeCalls) + [input]
    {
      reply := describeReplies[|describeCalls|];
      describeCalls := describeCalls + [input];
    }
  }

  /** Starts and monitors instance refreshes through `api`; `sleeps` records every call made
      through the injectable sleep function. */
  class ASGRefresher {
    const api: AutoScalingApi
    /** The durations handed to the injected sleep function, in order. */
    var sleeps: seq<Duration>
    /** The snapshots handed to the progress callback of a wait, in order. */
    var notified: seq<InstanceRefresh>

    /** NewASGRefresher. */
    constructor (api: AutoScalingApi)
      ensures this.api == api && sleeps == [] && notified == []
    {
      this.api := api;
      sleeps := [];
      notified := [];
    }

    /** The progress callback passed to a wait. */
    method Notify(s: InstanceRefresh)
      modifies this`notified
      ensures notified == old(notified) + [s]
    {
      notified := notified + [s];
    }

    /** The injected sleep function. */
    method Sleep(d: Duration)
      modifies this`sleeps
      ensures sleeps == old(sleeps) + [d]
    {
      sleeps := sleeps + [d];
    }

    /** Sends exactly one start request, the one RequestFor describes, and returns the remote id
        with the caller's group name, or the wrapped remote error. */
    method StartRefresh(asgName: string, opts: RefreshOptions) returns (r: Result<StartResult, Error>)
      modifies api`startCalls
      ensures |api.startCalls| == |old(api.startCalls)| + 1
      ensures api.startCalls[..|old(api.startCalls)|] == old(api.startCalls)
      ensures RequestFor(api.startCalls[|api.startCalls| - 1], asgName, opts)
      ensures r == StartOutcome(api.startReply, asgName)
    {
      var prefs := RefreshPreferences(
        minHealthyPercentage := Some(WrapInt32(opts.minHealthyPercentage as int)),
        skipMatching := Some(opts.skipMatching),
        instanceWarmup := None,
        maxHealthyPercentage := None);
      if opts.instanceWarmup.Some? {
        prefs := prefs.(instanceWarmup := opts.instanceWarmup);
      }
      if opts.maxHealthyPercentage.Some? {
        prefs := prefs.(maxHealthyPercentage := opts.maxHealthyPercentage);
      }
      var reply := api.StartInstanceRefresh(StartInstanceRefreshInput(Some(asgName), RollingStrategy, Some(prefs)));
      r := StartOutcome(reply, asgName);
    }

    /** Sends one describe request for exactly one refresh id and reads the reply. */
    method DescribeRefresh(asgName: string, refreshId: string) returns (r: Result<Option<InstanceRefresh>, Error>)
      requires |api.describeCalls| < |api.describeReplies|
      modifies api`describeCalls
      ensures r == DescribeResult(api.describeReplies[|old(api.describeCalls)|])
      ensures api.describeCalls == old(api.describeCalls) + [DescribeInstanceRefreshesInput(Some(asgName), [refreshId])]
    {
      var reply := api.DescribeInstanceRefreshes(DescribeInstanceRefreshesInput(Some(asgName), [refreshId]));
      r := DescribeResult(reply);
    }

    /** One pass of the polling loop of WaitForRefresh, up to its sleep: describe the refresh,
        hand a present snapshot to the callback, read the clock, and decide whether the wait
        ends and with what result. The describe call numbered `n` gets reply `n` of the script
        and is followed by clock reading `elapsed[n]`. */
    method Poll(asgName: string, refreshId: string, timeout: Duration, hasCallback: bool,
                elapsed: seq<Duration>)
      returns (verdict: Option<Result<InstanceRefresh, Error>>)
      requires |api.describeCalls| < |api.describeReplies| && |api.describeCalls| < |elapsed|
      modifies api`describeCalls, this`notified
      ensures var n := |old(api.describeCalls)|;
        && verdict == PollVerdict(api.describeReplies[n], elapsed[n], refreshId, timeout)
        && api.describeCalls == old(api.describeCalls) + [DescribeInstanceRefreshesInput(Some(asgName), [refreshId])]
        && (hasCallback ==> notified == old(notified) + Observed(api.describeReplies[n]))
        && (!hasCallback ==> notified == old(notified))
    {
      var result := DescribeRefresh(asgName, refreshId);
      if result.Failure? {
        return Some(Failure(result.error));
      }
      var found := result.value;
      if found.Some? {
        if hasCallback {
          Notify(found.value);
        }
        if IsTerminal(found.value.status) {
          return Some(Success(found.value));
        }
      }
      if elapsed[|api.describeCalls| - 1] >= timeout {
        return Some(Failure(TimedOut(timeout, refreshId)));
      }
      return None;
    }

    /** One iteration of the polling loop of WaitForRefresh: one poll, followed by one sleep
        of `interval` when the poll does not end the wait. */
    method Step(asgName: string, refreshId: string, interval: Duration, timeout: Duration, hasCallback: bool,
                elapsed: seq<Duration>)
      returns (verdict: Option<Result<InstanceRefresh, Error>>)
      requires |api.describeCalls| < |api.describeReplies| && |api.describeCalls| < |elapsed|
      modifies api`describeCalls, this`notified, this`sleeps
      ensures var n := |old(api.describeCalls)|;
        && verdict == PollVerdict(api.describeReplies[n], elapsed[n], refreshId, timeout)
        && api.describeCalls == old(api.describeCalls) + [DescribeInstanceRefreshesInput(Some(asgName), [refreshId])]
        && (hasCallback ==> notified == old(notified) + Observed(api.describeReplies[n]))
        && (!hasCallback ==> notified == old(notified))
        && (verdict.Some? ==> sleeps == old(sleeps))
        && (verdict.None? ==> sleeps == old(sleeps) + [interval])
    {
      verdict := Poll(asgName, refreshId, timeout, hasCallback, elapsed);
      if verdict.None? {
        Sleep(interval);
      }
    }

    /** Polls until a terminal status, a describe error or the timeout. The wait starts after
        the describe calls already made; each of its polls gets the next reply of the script
        and then reads the clock reading with the same number. Calls, callbacks, sleeps and
        the result are those of `Wait` from that point. */
    method WaitForRefresh(asgName: string, refreshId: string, interval: Duration, timeout: Duration,
                          hasCallback: bool, elapsed: seq<Duration>)
      returns (r: Result<InstanceRefresh, Error>)
      requires Decides(api.describeReplies, elapsed, |api.describeCalls|, timeout)
      modifies this`sleeps, this`notified, api`describeCalls
      ensures var t := Wait(api.describeReplies, elapsed, |old(api.describeCalls)|, refreshId, interval, timeout);
        && r == t.outcome
        && api.describeCalls == old(api.describeCalls) + Repeat(DescribeInstanceRefreshesInput(Some(asgName), [refreshId]), t.polls)
        && sleeps == old(sleeps) + Repeat(interval, t.polls - 1)
        && (hasCallback ==> notified == old(notified) + Snapshots(api.describeReplies, |old(api.describeCalls)|,
                                                                  |old(api.describeCalls)| + t.polls))
        && (!hasCallback ==> notified == old(notified))
    {
      ghost var stop: nat :| |api.describeCalls| <= stop < |api.describeReplies| && stop < |elapsed| &&
                             Stops(api.describeReplies[stop], elapsed[stop], timeout);
      ghost var k: nat := 0;
      while true
        invariant |old(api.describeCalls)| + k <= stop
        invariant StopsNowhereBetween(api.describeReplies, elapsed, |old(api.describeCalls)|, |old(api.describeCalls)| + k, timeout)
        invariant api.describeCalls == old(api.describeCalls) + Repeat(DescribeInstanceRefreshesInput(Some(asgName), [refreshId]), k)
        invariant sleeps == old(sleeps) + Repeat(interval, k)
        invariant hasCallback ==> notified == old(notified) + Snapshots(api.describeReplies, |old(api.describeCalls)|, |old(api.describeCalls)| + k)
        invariant !hasCallback ==> notified == old(notified)
        decreases stop - k
      {
        label before:
        var verdict := Step(asgName, refreshId, interval, timeout, hasCallback, elapsed);
        RepeatStep(old(api.describeCalls), old@before(api.describeCalls), api.describeCalls,
                   DescribeInstanceRefreshesInput(Some(asgName), [refreshId]), k);
        if hasCallback {
          NotifiedStep(old(notified), old@before(notified), notified, api.describeReplies,
                       |old(api.describeCalls)|, |old(api.describeCalls)| + k);
        }
        if verdict.Some? {
          WaitStopsAt(api.describeReplies, elapsed, |old(api.describeCalls)|, refreshId, interval, timeout,
                      |old(api.describeCalls)| + k);
          return verdict.value;
        }
        RepeatStep(old(sleeps), old@before(sleeps), sleeps, interval, k);
        k := k + 1;
      }
    }
  }
}
