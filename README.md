# Datadog Jenkins plugin: node bootstrap and job completion metrics, in Dafny

This project models two pieces of the Datadog plugin for Jenkins that turn orchestrator
events into metrics.

**The compute-node listener** (`DatadogComputerListener`). When Jenkins is about to launch
an agent, the listener records the launch time under the node's name. When the node
comes online and a start is recorded, the listener computes the bootstrap time and
sends a `bootstrap` gauge in whole seconds, tagged `host:<hostname>`, through a
StatsD client. It creates that client on first use from the `host:port` daemon address.
The model is the class `ComputerListener.DatadogComputerListener`. Its fields are the
start table `computers`, the client field `client` (`None` for null) and `sent`, the
log of calls made through the client. `PreLaunch`, `LeaseStatsDClient` and
`OnOnline` change these fields in place.

The address parse is modelled with Java's own semantics in `JavaString`:
- `String.split(":")` drops trailing empty pieces, so `"localhost:".split(":")` has one piece.
- `Integer.parseInt` accepts a sign and checks the `int` range.
- `/` on `long` truncates toward zero (`JavaLong.Quot`).
- Concatenating a null hostname gives `"null"`.

When the address is malformed, the client stays null, and `onOnline` then throws a
`NullPointerException` at the gauge call. The model returns this as
`Outcome.NullPointerThrown`.

**Job completion** (`DatadogBuildListener.onCompleted`). Its source is not part of this
model. What is modelled is what the four `testOnCompleted*` tests assert about one
completion. `BuildListener.OnCompleted` maps a completed run to the calls sent on each
client. These calls are multisets: the test clients check that each call is present
and that nothing else was sent, not the order. The result is `None` on a channel the
tests do not fix for that run.

The tests fix two families of runs:
- A run with no result, an empty environment, an empty parent name, no job name, a
  duration of 0 ms and build number 0 sends nothing. These are the values of the
  test's run, whose unset fields are a mock's defaults.
- A successful run of a named job, with `HOSTNAME`, `NODE_NAME`, `BUILD_URL` and
  `GIT_BRANCH` set, carries the tags `[job, node, result, branch, host]` in that order.
  Without a StatsD client it sends `jenkins.job.duration` in seconds and
  `jenkins.job.status` OK. With a StatsD client it sends `completed` 1 and `leadtime`
  in seconds.

The model takes the tests' assertions as the specification of `onCompleted`.

The model follows the code as written, including:
- the start entry is never removed on `onOnline`, so a second `onOnline` measures again;
- a null client is dereferenced rather than skipped;
- the lease has no one-time-initialisation guard;
- the duration is neither clamped at zero nor floor-divided: Java's truncating division is used.

## Model

| member | source | states |
|---|---|---|
| JavaLong.Quot | src/main/java/org/datadog/jenkins/plugins/datadog/DatadogComputerListener.java:42 | Java `/` by a positive divisor: the remainder is smaller than the divisor and has the dividend's sign, and the quotient lies between 0 and the dividend |
| JavaLong.QuotUnique | src/main/java/org/datadog/jenkins/plugins/datadog/DatadogComputerListener.java:42 | any quotient meeting those remainder conditions equals `Quot`, so they define Java division completely |
| JavaLong.QuotNegate | src/main/java/org/datadog/jenkins/plugins/datadog/DatadogComputerListener.java:42 | unlike Euclidean division, Java's quotient of `-a` is minus the quotient of `a` (a negative duration truncates toward zero) |
| JavaString.ValueOf | src/main/java/org/datadog/jenkins/plugins/datadog/DatadogComputerListener.java:42 | string concatenation with a null reference gives `"null"`, otherwise the string itself |
| JavaString.IndexOf | src/main/java/org/datadog/jenkins/plugins/datadog/DatadogComputerListener.java:52 | the position of the first colon: it holds the colon and no colon comes before it |
| JavaString.Fields | src/main/java/org/datadog/jenkins/plugins/datadog/DatadogComputerListener.java:52-53 | the pieces `split` starts from: at least one, none holding the separator |
| JavaString.DropTrailingEmpty | src/main/java/org/datadog/jenkins/plugins/datadog/DatadogComputerListener.java:52-53 | `split` with limit 0 keeps a prefix of the pieces, ends on a non-empty piece, and drops only empty ones |
| JavaString.JoinFields | src/main/java/org/datadog/jenkins/plugins/datadog/DatadogComputerListener.java:52-53 | joining the pieces with the separator gives back the original string |
| JavaString.FieldsJoin | src/main/java/org/datadog/jenkins/plugins/datadog/DatadogComputerListener.java:52-53 | splitting a join of separator-free pieces gives back those pieces |
| JavaString.FieldsWithoutSep | src/main/java/org/datadog/jenkins/plugins/datadog/DatadogComputerListener.java:52-53 | a string without the separator is one piece |
| JavaString.FieldsAfterPrefix | src/main/java/org/datadog/jenkins/plugins/datadog/DatadogComputerListener.java:52-53 | a separator-free prefix followed by the separator is the first piece, and the rest splits on its own |
| JavaString.FieldsAtFirstSep | src/main/java/org/datadog/jenkins/plugins/datadog/DatadogComputerListener.java:52 | the first piece is the text before the first colon |
| JavaString.SplitKeepsNonEmpty | src/main/java/org/datadog/jenkins/plugins/datadog/DatadogComputerListener.java:52-53 | `split` keeps every piece up to a non-empty one unchanged |
| JavaString.Split | src/main/java/org/datadog/jenkins/plugins/datadog/DatadogComputerListener.java:52-53 | `split` with limit 0 returns a prefix of the pieces, and drops only empty pieces after it; the empty string gives `[""]`, and any other string a list that is empty or ends on a non-empty piece |
| JavaString.SplitEdgeCases | src/main/java/org/datadog/jenkins/plugins/datadog/DatadogComputerListener.java:52-53 | `"".split(":")` is `[""]`, `":".split(":")` is empty, and `"a:".split(":")` is `["a"]` |
| JavaString.SplitAddressExample | src/main/java/org/datadog/jenkins/plugins/datadog/DatadogComputerListener.java:52-53 | `"localhost:8125".split(":")` is `["localhost", "8125"]` |
| JavaString.ParseInt | src/main/java/org/datadog/jenkins/plugins/datadog/DatadogComputerListener.java:53 | `Integer.parseInt` succeeds only on a non-empty numeral other than a lone sign, and only with an `int` value |
| JavaString.ParseIntOfDecimal | src/main/java/org/datadog/jenkins/plugins/datadog/DatadogComputerListener.java:53 | `parseInt(Integer.toString(n)) == n` for every `int` |
| JavaString.ParseIntOfNumeral | src/main/java/org/datadog/jenkins/plugins/datadog/DatadogComputerListener.java:53 | on an optional sign followed by at least one digit, `parseInt` gives exactly the signed value when it is an `int` and throws when it is out of range |
| JavaString.ParseIntExamples | src/main/java/org/datadog/jenkins/plugins/datadog/DatadogComputerListener.java:53 | `parseInt` accepts `+8125` and `08125` as 8125, and `-0` as 0 |
| JavaString.ParseIntRangeEnds | src/main/java/org/datadog/jenkins/plugins/datadog/DatadogComputerListener.java:53 | `parseInt` accepts `-2147483648` and refuses `2147483648` |
| JavaString.DigitsValueOfNatDecimal | src/main/java/org/datadog/jenkins/plugins/datadog/DatadogComputerListener.java:53 | reading back the decimal numeral of a natural number gives that number |
| JavaString.NoColonInDecimal | src/main/java/org/datadog/jenkins/plugins/datadog/DatadogComputerListener.java:52-53 | a port numeral holds no colon, so it stays one piece of `host:port` |
| JavaString.ParseIntRejectsNonDigit | src/main/java/org/datadog/jenkins/plugins/datadog/DatadogComputerListener.java:53 | a non-digit after the optional sign makes `parseInt` fail |
| Metrics.Tag | src/main/java/org/datadog/jenkins/plugins/datadog/DatadogComputerListener.java:42 | the tag is the key, then a colon just after the key, then the value, and nothing else |
| Metrics.TagParts | src/main/java/org/datadog/jenkins/plugins/datadog/DatadogComputerListener.java:42 | reading a tag back splits it at its first colon into a colon-free key and a value that rebuild it |
| Metrics.TagRoundTrip | src/main/java/org/datadog/jenkins/plugins/datadog/DatadogComputerListener.java:42 | a tag built from a colon-free key reads back as that key and value |
| Metrics.Seconds | src/main/java/org/datadog/jenkins/plugins/datadog/DatadogComputerListener.java:42 | milliseconds to seconds by truncation: bounds on both sides for either sign, and the result stays a `long` |
| ComputerListener.ParseAddress | src/main/java/org/datadog/jenkins/plugins/datadog/DatadogComputerListener.java:52-53 | a parsed address comes from a non-null string with a colon, with a colon-free host and an `int` port |
| ComputerListener.ParseAddressCharacterized | src/main/java/org/datadog/jenkins/plugins/datadog/DatadogComputerListener.java:50-53 | the parse fails without a colon; otherwise the host is the text before the first colon and the port is the text up to the next colon, so dropping trailing empty pieces never changes the outcome |
| ComputerListener.AddressTextParts | src/main/java/org/datadog/jenkins/plugins/datadog/DatadogComputerListener.java:51-53 | in the daemon address `host:port` with a colon-free host, the text before the first colon is the host and the text after it is the port |
| ComputerListener.ParseAddressRoundTrip | src/main/java/org/datadog/jenkins/plugins/datadog/DatadogComputerListener.java:51-53 | `host:port` with a colon-free host and an `int` port parses to that host and port |
| ComputerListener.ParseAddressEmptyPort | src/main/java/org/datadog/jenkins/plugins/datadog/DatadogComputerListener.java:50-59 | an empty port, as in `localhost:`, is refused |
| ComputerListener.ParseAddressBadPort | src/main/java/org/datadog/jenkins/plugins/datadog/DatadogComputerListener.java:50-59 | a port piece that is not an `int` numeral is refused |
| ComputerListener.NewClient | src/main/java/org/datadog/jenkins/plugins/datadog/DatadogComputerListener.java:51-53 | a new handle exists exactly when the address parses and the transport opens; it has prefix `jenkins.agent` and the parsed host and port |
| ComputerListener.Leased | src/main/java/org/datadog/jenkins/plugins/datadog/DatadogComputerListener.java:51-56 | a client that is already set is kept |
| ComputerListener.LeaseFromAddress | src/main/java/org/datadog/jenkins/plugins/datadog/DatadogComputerListener.java:51-53 | with no client yet, `host:port` with a port in 0-65535 gives the handle `(jenkins.agent, host, port)` |
| ComputerListener.BootstrapGauge | src/main/java/org/datadog/jenkins/plugins/datadog/DatadogComputerListener.java:35-42 | the gauge is `bootstrap`, its value is the elapsed milliseconds truncated to whole seconds and is a `long`, and its one tag is `host:` plus the hostname or `null` |
| ComputerListener.BootstrapTagNamesHost | src/main/java/org/datadog/jenkins/plugins/datadog/DatadogComputerListener.java:41-42 | the gauge's tag reads back as key `host` with the hostname |
| ComputerListener.DatadogComputerListener.constructor | src/main/java/org/datadog/jenkins/plugins/datadog/DatadogComputerListener.java:21-22 | a new listener has an empty start table, no client and has sent nothing |
| ComputerListener.DatadogComputerListener.PreLaunch | src/main/java/org/datadog/jenkins/plugins/datadog/DatadogComputerListener.java:25-28 | the node's start is set to now, overwriting an earlier one; the client and the log are unchanged |
| ComputerListener.DatadogComputerListener.LeaseStatsDClient | src/main/java/org/datadog/jenkins/plugins/datadog/DatadogComputerListener.java:47-61 | the client is kept when set, otherwise created from the address or left null; the field is returned; the invariant that every sent call went through the current client is kept |
| ComputerListener.DatadogComputerListener.OnOnline | src/main/java/org/datadog/jenkins/plugins/datadog/DatadogComputerListener.java:31-45 | the start table never changes; with no start nothing is leased or sent; with a start the client is leased, and either one `bootstrap` gauge measured from the recorded start is appended or, with a null client, a `NullPointerException` escapes and nothing is sent |
| ComputerListener.DatadogComputerListener.AllSentThroughOneHandle | src/main/java/org/datadog/jenkins/plugins/datadog/DatadogComputerListener.java:40-60 | under the listener's invariant every call it has sent went through the same handle, the one its client field holds |
| ComputerListener.RepeatedOnline | src/main/java/org/datadog/jenkins/plugins/datadog/DatadogComputerListener.java:34-43 | two `onOnline` calls after one launch send two gauges from the same start through the same handle, even when the address changed in between |
| ComputerListener.RelaunchRestartsClock | src/main/java/org/datadog/jenkins/plugins/datadog/DatadogComputerListener.java:27-42 | a second launch replaces the start, and the gauge measures from it |
| ComputerListener.OnlineWithoutLaunch | src/main/java/org/datadog/jenkins/plugins/datadog/DatadogComputerListener.java:34-44 | `onOnline` for a node with no recorded launch returns normally, leases nothing and sends nothing |
| ComputerListener.OnlineWithMalformedAddress | src/main/java/org/datadog/jenkins/plugins/datadog/DatadogComputerListener.java:40-42 | with a malformed address `onOnline` throws a `NullPointerException` and sends nothing |
| ComputerListener.LeaseRetriesAfterFailure | src/main/java/org/datadog/jenkins/plugins/datadog/DatadogComputerListener.java:50-60 | a failed lease returns null, and a later lease with a well-formed address creates the client |
| ComputerListener.LeaseKeepsFirstClient | src/main/java/org/datadog/jenkins/plugins/datadog/DatadogComputerListener.java:48-60 | once a lease succeeds, every later lease returns the same handle, whatever address is configured |
| BuildListener.OnCompleted | src/test/java/org/datadog/jenkins/plugins/datadog/DatadogBuildListenerTest.java:96-106 | runs outside the tested families fix nothing; StatsD calls are sent only when a StatsD client exists, and API calls only for a successful run |
| BuildListener.FullRunTagsReadBack | src/test/java/org/datadog/jenkins/plugins/datadog/DatadogBuildListenerTest.java:98-103 | the five tags read back, in order, as `job:<parent>/<job>`, `node`, `result:SUCCESS`, `branch` and `host` with their values, so `BUILD_URL` gives no tag |
| BuildListener.FullRunCallsShareTags | src/test/java/org/datadog/jenkins/plugins/datadog/DatadogBuildListenerTest.java:103-105 | every call carries the same tag list, and the API host is the `HOSTNAME` variable |
| BuildListener.FullRunApiCalls | src/test/java/org/datadog/jenkins/plugins/datadog/DatadogBuildListenerTest.java:98-106 | without a StatsD client a full run sends nothing through StatsD and exactly two API calls: one `jenkins.job.duration` metric whose value v has `v*1000 <= ms < v*1000+1000`, and one `jenkins.job.status` check with status 0 |
| BuildListener.FullRunStatsdCalls | src/test/java/org/datadog/jenkins/plugins/datadog/DatadogBuildListenerTest.java:174-188 | with a StatsD client a full run sends exactly two StatsD calls: a `completed` count of 1 and a `leadtime` gauge whose value v has `v*1000 <= ms < v*1000+1000` |
| BuildListener.LeadtimeMatchesDuration | src/test/java/org/datadog/jenkins/plugins/datadog/DatadogBuildListenerTest.java:174-188 | the `leadtime` gauge has the value and tags of the `jenkins.job.duration` metric of the same run |
| BuildListener.TestRunIsFull | src/test/java/org/datadog/jenkins/plugins/datadog/DatadogBuildListenerTest.java:76-103 | the tests' run is in the full family, and its tags are the expected five strings |
| BuildListener.TestEnvironmentVariables | src/test/java/org/datadog/jenkins/plugins/datadog/DatadogBuildListenerTest.java:83-87 | the tests' environment sets exactly `HOSTNAME`, `NODE_NAME`, `BUILD_URL` and `GIT_BRANCH` |
| BuildListener.ExpectedTagsSpelled | src/test/java/org/datadog/jenkins/plugins/datadog/DatadogBuildListenerTest.java:98-103 | the tags built from the tests' names are the expected strings |
| BuildListener.OnCompletedWithNothing | src/test/java/org/datadog/jenkins/plugins/datadog/DatadogBuildListenerTest.java:44-67 | `testOnCompletedWithNothing`: no metric and no service check |
| BuildListener.OnCompletedWithEverything | src/test/java/org/datadog/jenkins/plugins/datadog/DatadogBuildListenerTest.java:70-108 | `testOnCompletedWithEverything`: `jenkins.job.duration` 123 and `jenkins.job.status` 0 on host `test-hostname-2` with the five tags, and nothing else |
| BuildListener.OnCompletedWithDurationAsZero | src/test/java/org/datadog/jenkins/plugins/datadog/DatadogBuildListenerTest.java:111-148 | `testOnCompletedWithDurationAsZero`: a 0 ms duration is still sent, as 0, with the same tags and status |
| BuildListener.OnCompletedSuccessWithStatsD | src/test/java/org/datadog/jenkins/plugins/datadog/DatadogBuildListenerTest.java:151-189 | `testOnCompletedSuccessWithStatsD`: exactly `completed` 1 and `leadtime` 1234 with the five tags |

## Left out

- `ConcurrentMetricCounters` (`model/ConcurrentMetricCounters.java`) is not modelled. It declares a static concurrent map behind a thread-local and has no operations.
- Concurrency is not modelled. The start table is an unsynchronised `HashMap` and the lease has no guard, so calls are modelled one at a time. The model adds no atomic initialisation that the code does not have.
- Logging is not modelled (`logger.fine`, `logger.warning` when the client is already set, and `logger.severe` for a swallowed exception).
- `System.currentTimeMillis()`, `descriptor.getHostname()` and `descriptor.getDaemonHost()` are parameters. Timestamps are non-negative `long` values.
- `NonBlockingStatsDClient` is not modelled. A handle is the record (prefix, host, port). Whether the library's constructor returns is the parameter `transportOk`, which covers an unknown host, a port outside 0-65535 and a socket failure. The prefix is kept on the handle rather than applied to the aspect names.
- UDP sending is not modelled. A `gauge` call appends to the listener's `sent` log, together with the handle it went through.
- `super.onOnline` is the base class's no-op and is left out.
- JavaString.ParseInt: accepts only ASCII digits. Java's `Character.digit` also accepts other Unicode decimal digits.
- `DatadogBuildListener` itself is not part of this model. Its tests' outcomes are modelled as two families of runs, and the following runs map to `None`:
  - runs outside the two families, such as a bare run with a job name or a non-zero duration, a missing single variable, a result other than SUCCESS, or a negative duration;
  - runs with any of the tracked-job, API-key or node-tagging gates closed;
  - the API channel of a run with a StatsD client, which `testOnCompletedSuccessWithStatsD` does not assert.
- BuildListener.IsFullRun: generalises the tests' one successful run (parent `ParentFullName`, job `JobName`, fixed variable values, durations 123000, 0 and 1234000 ms) to every non-empty parent, every job name, every value of the four variables and every non-negative `long` duration. The code's behaviour on these other values is assumed from the code path the tests exercise, not fixed by a test.
- BuildListener.CompletionTags: `DatadogUtilities.getHostname` is taken as the identity on the `HOSTNAME` variable. The tests stub it only for `test-hostname-2`.
- The build number is carried on the run but has no effect, because no test tag uses it.
- The wall-clock fallback for a zero duration is not modelled: the tests fix that a reported 0 is sent as 0.
