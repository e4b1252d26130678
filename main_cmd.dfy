/** The decisions the `start` and `check` commands make before and after they drive the
    refresher: where the group name and refresh id come from, the flag defaults read from the
    environment, the options handed to StartRefresh, the conversion of whole seconds to
    durations, and how the outcome of a wait becomes the command's error.

    The refresher factory is modelled by the refresher it would return and the error it may
    return instead; the flags are the values cobra hands to the command body. */
module Cli {
  import opened Wrappers
  import opened GoInts
  import opened Strconv
  import opened Refresh

  /** The process environment. */
  type Env = map<string, string>

  /** `os.Getenv`: an unset variable reads as "". */
  function Getenv(env: Env, key: string): string {
    if key in env then env[key] else ""
  }

  /** argOrEnv: positional argument `i` when the command line has one, even an empty one,
      and otherwise the environment variable `key`. */
  function ArgOrEnv(args: seq<string>, i: nat, env: Env, key: string): (v: string)
    ensures i < |args| ==> v == args[i]
    ensures |args| <= i && key in env ==> v == env[key]
    ensures |args| <= i && key !in env ==> v == ""
  {
    if i < |args| then args[i] else Getenv(env, key)
  }

  /** envIntOrDefault: the value of the variable `key` when it is set, non-empty and parses
      as a decimal integer; `def` when it is unset, empty or does not parse. */
  function EnvIntOrDefault(env: Env, key: string, def: int64): (n: int64)
    ensures key !in env ==> n == def
    ensures key in env && Atoi(env[key]).Some? ==> n == Atoi(env[key]).value
    ensures key in env && Atoi(env[key]).None? ==> n == def
  {
    var v := Getenv(env, key);
    if v != "" && Atoi(v).Some? then Atoi(v).value else def
  }

  /** A variable holding the decimal form of a number reads back as that number, whatever the
      default. */
  lemma EnvIntOrDefaultReadsDecimal(env: Env, key: string, def: int64, n: int64)
    requires key in env && env[key] == FormatInt(n)
    ensures EnvIntOrDefault(env, key, def) == n
  {
    AtoiFormatInt(n);
  }

  /** A variable with a character that is neither a digit nor a leading sign is ignored in
      favour of the default. */
  lemma EnvIntOrDefaultIgnoresGarbage(env: Env, key: string, def: int64, i: nat)
    requires key in env && i < |env[key]| && !IsDigit(env[key][i])
    requires i > 0 || (env[key][0] != '+' && env[key][0] != '-')
    ensures EnvIntOrDefault(env, key, def) == def
  {
    AtoiRejectsNonDigit(env[key], i);
  }

  /** Why a command body failed. */
  datatype CommandError =
    | MissingAsgName                 // "ASG_NAME argument or environment variable required"
    | MissingRefreshId               // "REFRESH_ID argument or INSTANCE_REFRESH_ID environment variable required"
    | FactoryFailed(cause: string)   // the refresher factory's error, returned as it came
    | RefreshFailed(error: Error)    // an error of the refresher, returned as it came
    | NonSuccessful                  // errNonSuccessful

  /** The values of the `start` flags as the command body sees them. `instanceWarmup` is
      `Some` exactly when the `--instance-warmup` flag was given on the command line. */
  datatype StartFlags = StartFlags(minHealthyPercentage: int64, instanceWarmup: Option<int64>, skipMatching: bool)

  /** The `start` flags when none is given: the minimum healthy percentage from
      MIN_HEALTHY_PERCENTAGE, else 90; no warm-up; skip-matching off. */
  function StartFlagDefaults(env: Env): (f: StartFlags)
    ensures f.instanceWarmup == None && !f.skipMatching
    ensures f.minHealthyPercentage == EnvIntOrDefault(env, "MIN_HEALTHY_PERCENTAGE", 90)
    ensures "MIN_HEALTHY_PERCENTAGE" !in env ==> f.minHealthyPercentage == 90
  {
    StartFlags(EnvIntOrDefault(env, "MIN_HEALTHY_PERCENTAGE", 90), None, false)
  }

  /** The values of the `check` flags, in whole seconds. */
  datatype CheckFlags = CheckFlags(interval: int64, timeout: int64)

  /** The `check` flags when none is given: CHECK_INTERVAL, else 30, and CHECK_TIMEOUT,
      else 3600. */
  function CheckFlagDefaults(env: Env): (f: CheckFlags)
    ensures f.interval == EnvIntOrDefault(env, "CHECK_INTERVAL", 30)
    ensures f.timeout == EnvIntOrDefault(env, "CHECK_TIMEOUT", 3600)
    ensures "CHECK_INTERVAL" !in env ==> f.interval == 30
    ensures "CHECK_TIMEOUT" !in env ==> f.timeout == 3600
  {
    CheckFlags(EnvIntOrDefault(env, "CHECK_INTERVAL", 30), EnvIntOrDefault(env, "CHECK_TIMEOUT", 3600))
  }

  /** `time.Duration(n) * time.Second`: a 64-bit product that wraps around. */
  function Seconds(n: int64): (d: Duration)
    ensures (d as int - n as int * 1_000_000_000) % 0x1_0000_0000_0000_0000 == 0
  {
    WrapInt64(n as int * 1_000_000_000)
  }

  /** Every count of seconds up to about 292 years converts exactly to nanoseconds. */
  lemma SecondsExact(n: int64)
    requires -9_223_372_036 <= n <= 9_223_372_036
    ensures Seconds(n) as int == n as int * 1_000_000_000
  {
    WrapInt64Fits(n as int * 1_000_000_000);
  }

  /** With no environment and no flags, `check` polls every 30 s for at most an hour. */
  lemma CheckDefaultsWithoutEnvironment()
    ensures Seconds(CheckFlagDefaults(map[]).interval) == 30_000_000_000
    ensures Seconds(CheckFlagDefaults(map[]).timeout) == 3_600_000_000_000
  {
    SecondsExact(30);
    SecondsExact(3600);
  }

  /** The options the `start` body hands to StartRefresh: the minimum healthy percentage and
      skip-matching from their flags, a warm-up only when the flag was given (cut to 32 bits by
      `int32(...)`), and never a maximum healthy percentage. */
  function StartOptions(flags: StartFlags): (opts: RefreshOptions)
    ensures opts.minHealthyPercentage == flags.minHealthyPercentage
    ensures opts.skipMatching == flags.skipMatching
    ensures opts.maxHealthyPercentage == None
    ensures opts.instanceWarmup.Some? <==> flags.instanceWarmup.Some?
    ensures flags.instanceWarmup.Some? && -0x8000_0000 <= flags.instanceWarmup.value as int < 0x8000_0000 ==>
              opts.instanceWarmup.value as int == flags.instanceWarmup.value as int
  {
    var warmup := if flags.instanceWarmup.None? then None else Some(WrapInt32(flags.instanceWarmup.value as int));
    RefreshOptions(flags.minHealthyPercentage, None, warmup, flags.skipMatching)
  }

  /** An error of the refresher, returned by the command body unchanged. */
  function Propagate<T>(r: Result<T, Error>): (c: Result<T, CommandError>)
    ensures r.Success? ==> c == Success(r.value)
    ensures r.Failure? ==> c == Failure(RefreshFailed(r.error))
  {
    match r
    case Success(v) => Success(v)
    case Failure(e) => Failure(RefreshFailed(e))
  }

  /** The body of `start ASG_NAME`: an empty name is refused before the factory is asked for a
      refresher, a factory error is returned as it came, and otherwise exactly one start call
      is made with the options the flags describe. The result is what `writeJSON` prints. */
  method StartCommand(refresher: ASGRefresher, factoryError: Option<string>, args: seq<string>,
                      env: Env, flags: StartFlags)
    returns (r: Result<StartResult, CommandError>)
    modifies refresher.api`startCalls
    ensures var asgName := ArgOrEnv(args, 0, env, "ASG_NAME");
      && (asgName == "" ==> r == Failure(MissingAsgName))
      && (asgName != "" && factoryError.Some? ==> r == Failure(FactoryFailed(factoryError.value)))
      && (asgName == "" || factoryError.Some? ==> refresher.api.startCalls == old(refresher.api.startCalls))
      && (asgName != "" && factoryError.None? ==>
            && |refresher.api.startCalls| == |old(refresher.api.startCalls)| + 1
            && refresher.api.startCalls[..|old(refresher.api.startCalls)|] == old(refresher.api.startCalls)
            && RequestFor(refresher.api.startCalls[|refresher.api.startCalls| - 1], asgName, StartOptions(flags))
            && r == Propagate(StartOutcome(refresher.api.startReply, asgName)))
  {
    var asgName := ArgOrEnv(args, 0, env, "ASG_NAME");
    if asgName == "" {
      return Failure(MissingAsgName);
    }
    if factoryError.Some? {
      return Failure(FactoryFailed(factoryError.value));
    }
    var opts := RefreshOptions(flags.minHealthyPercentage, None, None, flags.skipMatching);
    if flags.instanceWarmup.Some? {
      opts := opts.(instanceWarmup := Some(WrapInt32(flags.instanceWarmup.value as int)));
    }
    var result := refresher.StartRefresh(asgName, opts);
    return Propagate(result);
  }

  /** What the `check` body leaves behind: the snapshot `writeJSON` prints, if it gets that
      far, and the error it returns, if any. */
  datatype CheckOutcome = CheckOutcome(printed: Option<InstanceRefresh>, error: Option<CommandError>)

  /** How the `check` body maps the result of a wait: a wait error is returned unchanged and
      nothing is printed; a snapshot is printed, and the command fails with errNonSuccessful
      unless its status is exactly `Successful`. */
  function CheckVerdict(waited: Result<InstanceRefresh, Error>): (o: CheckOutcome)
    ensures o.error.None? <==> waited.Success? && waited.value.status == "Successful"
    ensures waited.Failure? ==> o.printed == None && o.error == Some(RefreshFailed(waited.error))
    ensures waited.Success? ==> o.printed == Some(waited.value)
    ensures waited.Success? && waited.value.status != "Successful" ==> o.error == Some(NonSuccessful)
  {
    match waited
    case Failure(e) => CheckOutcome(None, Some(RefreshFailed(e)))
    case Success(s) => CheckOutcome(Some(s), if s.status == "Successful" then None else Some(NonSuccessful))
  }

  /** A check over a script succeeds exactly when its last poll found the refresh `Successful`;
      every other terminal status, the rollbacks included, makes it fail with errNonSuccessful. */
  lemma CheckSucceedsIffSuccessful(replies: seq<DescribeReply>, elapsed: seq<Duration>, k: nat,
                                   refreshId: string, interval: Duration, timeout: Duration)
    requires Decides(replies, elapsed, k, timeout)
    ensures var t := Wait(replies, elapsed, k, refreshId, interval, timeout);
      var last := replies[k + t.polls - 1];
      && (CheckVerdict(t.outcome).error.None? <==>
            EndsInTerminal(last) && last.instanceRefreshes[0].status == "Successful")
      && (EndsInTerminal(last) && last.instanceRefreshes[0].status != "Successful" ==>
            CheckVerdict(t.outcome) == CheckOutcome(Some(last.instanceRefreshes[0]), Some(NonSuccessful)))
  {
    WaitOutcome(replies, elapsed, k, refreshId, interval, timeout);
  }

  /** The body of `check ASG_NAME REFRESH_ID`: an empty name, then an empty id, is refused
      before the factory is asked for a refresher; a factory error is returned as it came;
      otherwise the wait runs with the flags converted to durations and a callback on every
      snapshot, and its result is mapped by CheckVerdict. */
  method CheckCommand(refresher: ASGRefresher, factoryError: Option<string>, args: seq<string>,
                      env: Env, flags: CheckFlags, elapsed: seq<Duration>)
    returns (o: CheckOutcome)
    requires ArgOrEnv(args, 0, env, "ASG_NAME") != "" && ArgOrEnv(args, 1, env, "INSTANCE_REFRESH_ID") != "" &&
             factoryError.None? ==>
               Decides(refresher.api.describeReplies, elapsed, |refresher.api.describeCalls|, Seconds(flags.timeout))
    modifies refresher`sleeps, refresher`notified, refresher.api`describeCalls
    ensures var asgName := ArgOrEnv(args, 0, env, "ASG_NAME");
      var refreshId := ArgOrEnv(args, 1, env, "INSTANCE_REFRESH_ID");
      && (asgName == "" ==> o == CheckOutcome(None, Some(MissingAsgName)))
      && (asgName != "" && refreshId == "" ==> o == CheckOutcome(None, Some(MissingRefreshId)))
      && (asgName != "" && refreshId != "" && factoryError.Some? ==>
            o == CheckOutcome(None, Some(FactoryFailed(factoryError.value))))
      && (asgName == "" || refreshId == "" || factoryError.Some? ==>
            && refresher.api.describeCalls == old(refresher.api.describeCalls)
            && refresher.sleeps == old(refresher.sleeps)
            && refresher.notified == old(refresher.notified))
      && (asgName != "" && refreshId != "" && factoryError.None? ==>
            var t := Wait(refresher.api.describeReplies, elapsed, |old(refresher.api.describeCalls)|, refreshId,
                          Seconds(flags.interval), Seconds(flags.timeout));
            && o == CheckVerdict(t.outcome)
            && refresher.api.describeCalls ==
                 old(refresher.api.describeCalls) + Repeat(DescribeInstanceRefreshesInput(Some(asgName), [refreshId]), t.polls)
            && refresher.sleeps == old(refresher.sleeps) + Repeat(Seconds(flags.interval), t.polls - 1)
            && refresher.notified == old(refresher.notified) +
                 Snapshots(refresher.api.describeReplies, |old(refresher.api.describeCalls)|,
                           |old(refresher.api.describeCalls)| + t.polls))
  {
    var asgName := ArgOrEnv(args, 0, env, "ASG_NAME");
    var refreshId := ArgOrEnv(args, 1, env, "INSTANCE_REFRESH_ID");
    if asgName == "" {
      return CheckOutcome(None, Some(MissingAsgName));
    }
    if refreshId == "" {
      return CheckOutcome(None, Some(MissingRefreshId));
    }
    if factoryError.Some? {
      return CheckOutcome(None, Some(FactoryFailed(factoryError.value)));
    }
    var result := refresher.WaitForRefresh(asgName, refreshId, Seconds(flags.interval), Seconds(flags.timeout),
                                           true, elapsed);
    if result.Failure? {
      return CheckOutcome(None, Some(RefreshFailed(result.error)));
    }
    if result.value.status != "Successful" {
      return CheckOutcome(Some(result.value), Some(NonSuccessful));
    }
    return CheckOutcome(Some(result.value), None);
  }
}
