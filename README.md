# Instance-refresh lifecycle controller, modelled in Dafny

This project models the part of the AWS Auto Scaling Group refresh tool that starts a rolling
instance refresh and then watches it to the end:

- `ASGRefresher` builds the start request from the caller's options, reads the status of a
  refresh back, and polls it until it reaches a terminal status, the describe call fails, or a
  timeout passes. It calls a progress callback on every snapshot it finds and sleeps through an
  injectable sleep function between polls.
- The `start` and `check` command bodies resolve the group name and the refresh id from the
  arguments or the environment, and read the flag defaults from the environment. `start` builds
  the refresh options. `check` maps the end of a wait to the command's error.
- The older Python implementation builds the same request as a keyword-argument dictionary
  and reads the same responses.

The model has six modules:

- `Wrappers` holds `Option`, `Result` and a repeated-element sequence.
- `GoInts` holds Go's 32- and 64-bit integers and their wrapping conversions.
- `Strconv` holds `strconv.Atoi` and the decimal form it reads.
- `Refresh` models `refresh.go`.
- `Cli` models the command bodies in `main.go`.
- `PyCore` models `src/asg_refresh/core.py`.

The remote Auto Scaling API is an object whose replies come from a script and which logs every
request it receives. Describe call number `n` gets reply `n`. The clock is a sequence of elapsed
readings: reading `n` is the time since the wait began, taken right after describe call `n`.
The sleep function and the progress callback are logs of what they were handed.

The polling loop is specified by the recursive function `Refresh.Wait`, which takes the reply
script and the clock readings and returns the result and the number of polls made.
`ASGRefresher.WaitForRefresh` is a `while` loop proved against it:

- its result is the result of `Wait`;
- it makes one describe call per poll of `Wait`;
- it sleeps one time fewer than it polls;
- it hands the callback `Snapshots` of exactly the polls made.

The lemmas about `Wait` and `Snapshots` state what the loop promises.

The model follows main.go and refresh.go as written, and these behaviours of the code are easy to miss:

- The timeout error carries the configured timeout and the refresh id. It does not carry the
  elapsed time (refresh.go:119).
- The minimum healthy percentage is not checked against 0–100. It is passed through Go's
  wrapping `int32(...)` conversion.
- `start` defaults `--skip-matching` to false (main.go:117), and it has no
  `--max-healthy-percentage` flag (main.go:115-118). The tests at refresh_test.go:325-341 and
  refresh_test.go:367-383 expect otherwise, and the model states what the code does.

## Model

| member | source | states |
|---|---|---|
| Refresh.StartOutcome | refresh.go:71-78 | a start error gives no result and the error wrapped as a start failure; a success gives the remote id (`""` for a nil id) with the caller's group name unchanged |
| Refresh.ASGRefresher.StartRefresh | refresh.go:54-79 | exactly one start call is sent, with the group name, the rolling strategy, the minimum healthy percentage as `int32(...)` and skip-matching always present, and warm-up and maximum healthy percentage present exactly when supplied, with the supplied values; the result is read from the reply by StartOutcome |
| Refresh.DescribeResult | refresh.go:87-93 | a describe error gives the wrapped error; zero records give absent with no error; otherwise the first record |
| Refresh.ASGRefresher.DescribeRefresh | refresh.go:82-94 | exactly one describe call is sent, for the group and a one-element id list; the result is DescribeResult of the reply |
| Refresh.PollVerdict | refresh.go:106-120 | one poll ends the wait exactly when the describe call failed, the status is in the five-element terminal set of refresh.go:33-40, or the clock reads at least the timeout; an error is returned as it came, a terminal snapshot is returned as a success whatever its status, and otherwise the result is a timeout naming the configured timeout and the refresh id |
| Refresh.Wait | refresh.go:105-122 | the wait from a poll makes at least one poll and stays inside the script of replies and clock readings |
| Refresh.WaitEndsAtFirstStop | refresh.go:105-121 | the last poll made is the first one at which the wait may stop; every earlier poll found no record or a non-terminal status with time left |
| Refresh.WaitOutcome | refresh.go:106-119 | the result is read from the last poll: its describe error, its terminal snapshot with no error (`Failed` as much as `Successful`), or else a timeout after the clock reached the timeout |
| Refresh.SnapshotsAtMostOnePerPoll | refresh.go:110-113 | the callback is handed at most one snapshot per poll |
| Refresh.SnapshotsNoneWhenAbsent | refresh.go:107-113 | polls that failed or found no record hand the callback nothing |
| Refresh.WaitNotifiesBeforeReturning | refresh.go:110-116 | a wait that returns a terminal snapshot has handed that very snapshot to the callback last; a failed describe call hands it nothing |
| Refresh.WaitZeroTimeout | refresh.go:118-119 | a zero timeout still allows exactly one poll, hence no sleep |
| Refresh.WaitStopsAt | refresh.go:105-121 | the first poll at which the wait may stop decides the number of polls and the result |
| Refresh.WaitTerminalShortCircuit | refresh.go:114-116 | the first poll that finds a terminal status is the last poll, and its snapshot is the result |
| Refresh.ASGRefresher.Poll | refresh.go:106-120 | one pass of the loop makes one describe call, hands a found record to the callback when there is one, and returns PollVerdict of that call's reply and clock reading |
| Refresh.ASGRefresher.Step | refresh.go:106-121 | one iteration polls once and sleeps `interval` exactly when the poll does not end the wait |
| Refresh.ASGRefresher.WaitForRefresh | refresh.go:98-123 | the loop returns the result of Wait, makes one describe call per poll of Wait (all for the same group and id), sleeps `interval` one time fewer than it polls, and hands the callback the Snapshots of the polls made; a nil callback is never called |
| Refresh.ASGRefresher.Sleep | refresh.go:45 | the injected sleep function records each duration it is handed |
| Refresh.ASGRefresher.constructor | refresh.go:49-51 | a new refresher holds the given client and has not yet slept or called back |
| GoInts.WrapInt32 | refresh.go:56 | `int32(x)` differs from `x` by a multiple of 2^32 |
| GoInts.WrapInt32Fits | refresh.go:56 | a value that fits in 32 bits crosses `int32(...)` unchanged |
| GoInts.WrapInt32ChangesOutOfRange | refresh.go:56 | a value outside 32 bits is changed by `int32(...)` |
| GoInts.WrapInt64 | main.go:169-170 | 64-bit arithmetic differs from exact arithmetic by a multiple of 2^64 |
| Strconv.Atoi | main.go:205 | the text parses exactly when it is an optional sign followed by one or more digits whose signed value fits 64 bits, and then to that value, negative only after a `-` |
| Strconv.AtoiLeadingZero | main.go:205 | leading zeros are read past, with or without a sign |
| Strconv.AtoiPlusSign | main.go:205 | a leading `+` is accepted and does not change the value |
| Strconv.AtoiRejectsOutOfRange | main.go:205 | a decimal value beyond 64 bits is refused, positive or negative, so envIntOrDefault falls back to its default |
| Strconv.AtoiFormatInt | main.go:205 | every 64-bit integer written in decimal reads back as itself |
| Strconv.AtoiRejectsNonDigit | main.go:205 | text with a character that is neither a digit nor a leading sign does not parse |
| Cli.ArgOrEnv | main.go:195-200 | positional argument `i` when there is one, even an empty one; otherwise the environment variable, or `""` when it is unset |
| Cli.EnvIntOrDefault | main.go:203-210 | the parsed value when the variable is set and parses; the default when it is unset, empty or does not parse |
| Cli.EnvIntOrDefaultReadsDecimal | main.go:203-210 | a variable holding the decimal form of a number yields that number, whatever the default |
| Cli.EnvIntOrDefaultIgnoresGarbage | main.go:203-210 | a variable with a character that is neither a digit nor a leading sign yields the default |
| Cli.StartFlagDefaults | main.go:115-117 | without flags, `start` reads MIN_HEALTHY_PERCENTAGE through EnvIntOrDefault with default 90 (so 90 when it is unset), and uses no warm-up and skip-matching off |
| Cli.CheckFlagDefaults | main.go:188-189 | without flags, `check` reads CHECK_INTERVAL and CHECK_TIMEOUT through EnvIntOrDefault with defaults 30 and 3600 (so those values when unset) |
| Cli.Seconds | main.go:169-170 | whole seconds become nanoseconds modulo 2^64 |
| Cli.SecondsExact | main.go:169-170 | the conversion is exact for every count of seconds that fits a Duration |
| Cli.CheckDefaultsWithoutEnvironment | main.go:188-189 | with an empty environment, `check` polls every 30 s with a one-hour timeout |
| Cli.StartOptions | main.go:98-105 | the options carry the minimum healthy percentage and skip-matching from their flags, a warm-up exactly when the flag was given (unchanged when it fits 32 bits), and never a maximum healthy percentage |
| Cli.Propagate | main.go:107-110 | a refresher error is returned by the command unchanged |
| Cli.StartCommand | main.go:87-111 | an empty group name fails before the factory is asked and before any remote call; a factory error is returned and no call is made; otherwise exactly one start call, with the options StartOptions describes, and its outcome is returned |
| Cli.CheckVerdict | main.go:173-183 | a wait error is returned unchanged with nothing printed; a snapshot is printed, and the command fails with errNonSuccessful exactly when its status is not `Successful` |
| Cli.CheckSucceedsIffSuccessful | main.go:180-183 | `check` succeeds exactly when the last poll found the refresh `Successful`; every other terminal status, the rollbacks included, prints the snapshot and fails with errNonSuccessful |
| Cli.CheckCommand | main.go:142-184 | an empty group name, then an empty refresh id, fails before the factory is asked and before any remote call; a factory error is returned; otherwise the wait runs with the flags in seconds and a callback that sees every snapshot, and its result is mapped by CheckVerdict |
| PyCore.Preferences | src/asg_refresh/core.py:27-32 | the preferences hold exactly MinHealthyPercentage and SkipMatching with the option values, plus InstanceWarmup exactly when a warm-up is set; never MaxHealthyPercentage |
| PyCore.DefaultPreferences | src/asg_refresh/core.py:14-16 | the default options send a minimum healthy percentage of 90 and skip-matching off, and no warm-up |
| PyCore.StartReturn | src/asg_refresh/core.py:39-42 | a client error propagates; a response without an id raises KeyError; otherwise the result has exactly the remote id and the caller's group name |
| PyCore.First | src/asg_refresh/core.py:51 | Python's `v[0]` on a non-empty value: the first item of a list, the first character of a string, KeyError on a dictionary, TypeError on a number |
| PyCore.DescribeReturn | src/asg_refresh/core.py:50-52 | a client error propagates; a response without the list raises KeyError; an empty list gives `{}`; a non-empty list gives its first record |
| PyCore.ASGRefresh.StartRefresh | src/asg_refresh/core.py:25-42 | exactly one start call with the group name, the `Rolling` strategy and the Preferences dictionary; the result is StartReturn of the response |
| PyCore.ASGRefresh.DescribeRefresh | src/asg_refresh/core.py:44-52 | exactly one describe call with the group name and a one-element id list; the result is DescribeReturn of the response |
| PyCore.PreferencesAgreeWithGo | src/asg_refresh/core.py:27-32 | for the same options, with no maximum and a minimum that fits 32 bits, the Python preferences and the Go request carry the same minimum, the same skip-matching flag and the same warm-up, present on both sides or on neither |
| PyCore.DescribeAgreesWithGo | src/asg_refresh/core.py:50-52 | Python and Go read a describe reply alike: both fail on a client error, Python's `{}` is exactly Go's absent result, and otherwise both give the first record |

## Left out

- Building the AWS and boto3 clients (`defaultFactory`, the `ASGRefresh` constructor's client, AWS configuration and credentials) is left out. The remote API is a scripted object, and the factory is the refresher it would return plus the error it may return instead. The `--region` flag, which only reaches the factory, is left out with it.
- The cobra command tree, flag registration, argument-count checks and help text are left out. The command bodies receive the flag values. Each flag's value when not given, read from the environment through EnvIntOrDefault, is stated by StartFlagDefaults and CheckFlagDefaults.
- The click CLI of the Python implementation is left out.
- JSON encoding (`writeJSON`) is left out. The model records which value would be printed, not its text. A failing write is not modelled.
- The stderr progress line of the `check` callback and its formatting are left out. The callback is a log of the snapshots it is handed.
- `main`'s exit code and error printing are left out.
- The text of every error message is left out, including the float formatting of the timeout. Errors are constructors carrying the cause, or the configured timeout and the refresh id.
- The real clock and `time.Sleep` are left out. The clock is a script of elapsed readings since the wait began, and sleep is a log.
- Context cancellation is left out. A cancelled call reaches the model as an ordinary describe error in the script.
- Refresh.ASGRefresher.WaitForRefresh requires a script that holds some poll at which the wait ends. A script always exists once the clock passes the timeout, but the model does not capture a loop that never ends.
- PyCore.DescribeReturn states the result only for a list under InstanceRefreshes, the shape boto3 documents. Other values are modelled by First but not restated there.
- Python's `RefreshOptions` accepts any value in any field. The model types the fields as the annotations say.
