/**
 * What one job-run completion sends, as far as the listener's tests fix it. A completed
 * run is a record of what the tests hand the listener; the result says, per output
 * channel (the Datadog API client and the StatsD client), which calls are sent, as a
 * multiset because the test clients check each call's presence and that nothing else
 * was sent, not the order. A channel the tests do not fix for a run is `None`.
 */
module BuildListener {
  import opened Wrappers
  import opened JavaLong
  import opened Metrics

  datatype RunResult = Success | Unstable | Failure | NotBuilt | Aborted

  /** `Result.toString()`. */
  function ResultName(r: RunResult): string
  {
    match r
    case Success => "SUCCESS"
    case Unstable => "UNSTABLE"
    case Failure => "FAILURE"
    case NotBuilt => "NOT_BUILT"
    case Aborted => "ABORTED"
  }

  /** The configuration checks the listener consults: tracked job, API key present, node tagging. */
  datatype Gates = Gates(jobTracked: bool, apiKeySet: bool, tagNode: bool)

  /** A completed run as the listener sees it. */
  datatype CompletedRun = CompletedRun(
    gates: Gates,
    parentFullName: string,
    jobName: Option<string>,
    env: map<string, string>,
    result: Option<RunResult>,
    durationMs: int,
    number: int,
    statsdClient: bool)

  /** A call on the Datadog API client. */
  datatype ApiCall =
    | Metric(name: string, value: int, host: string, tags: seq<string>)
    | ServiceCheck(name: string, status: int, host: string, tags: seq<string>)

  /** The calls sent on each channel, where the tests fix them. */
  datatype Observed = Observed(api: Option<multiset<ApiCall>>, statsd: Option<multiset<StatsdCall>>)

  const DurationMetric := "jenkins.job.duration"
  const StatusCheck := "jenkins.job.status"
  /** The service-check status `OK`. */
  const StatusOk := 0

  /** The environment variables the tests set. */
  const TestedVariables := {"HOSTNAME", "NODE_NAME", "BUILD_URL", "GIT_BRANCH"}

  predicate GatesOpen(g: Gates) { g.jobTracked && g.apiKeySet && g.tagNode }

  /**
   * A run still without a result, with an empty environment, an empty parent name,
   * no job name, a duration of 0 ms and build number 0.
   */
  predicate IsBareRun(e: CompletedRun)
  {
    GatesOpen(e.gates) && e.result == None && e.env == map[] && e.parentFullName == ""
    && e.jobName == None && e.durationMs == 0 && e.number == 0 && !e.statsdClient
  }

  /** A successful run of a named job under a named parent, with every tested variable set. */
  predicate IsFullRun(e: CompletedRun)
  {
    GatesOpen(e.gates) && e.result == Some(Success) && e.parentFullName != ""
    && e.jobName.Some? && e.env.Keys == TestedVariables && 0 <= e.durationMs <= LongMax
  }

  /** The tags of a full run, in the order the tests expect them. */
  function CompletionTags(e: CompletedRun): seq<string>
    requires IsFullRun(e)
  {
    [ Tag("job", e.parentFullName + "/" + e.jobName.value),
      Tag("node", e.env["NODE_NAME"]),
      Tag("result", ResultName(e.result.value)),
      Tag("branch", e.env["GIT_BRANCH"]),
      Tag("host", e.env["HOSTNAME"]) ]
  }

  /** `onCompleted(run, listener)`: the calls sent, on the runs whose outcome the tests fix. */
  function OnCompleted(e: CompletedRun): (o: Observed)
    ensures !IsBareRun(e) && !IsFullRun(e) ==> o == Observed(None, None)
    ensures o.statsd.Some? && o.statsd.value != multiset{} ==> e.statsdClient
    ensures o.api.Some? && o.api.value != multiset{} ==> e.result == Some(Success)
  {
    if IsBareRun(e) then Observed(Some(multiset{}), Some(multiset{}))
    else if IsFullRun(e) then
      var tags := CompletionTags(e);
      var host := e.env["HOSTNAME"];
      var seconds := Seconds(e.durationMs);
      if e.statsdClient then
        Observed(None, Some(multiset{Count("completed", 1, tags), Gauge("leadtime", seconds, tags)}))
      else
        Observed(Some(multiset{Metric(DurationMetric, seconds, host, tags),
                               ServiceCheck(StatusCheck, StatusOk, host, tags)}),
                 Some(multiset{}))
    else Observed(None, None)
  }

  /**
   * The five tags of a full run, read back: job, node, result, branch and host, in that
   * order, each carrying the value it comes from; `BUILD_URL` gives no tag.
   */
  lemma FullRunTagsReadBack(e: CompletedRun)
    requires IsFullRun(e)
    ensures var t := CompletionTags(e);
      && |t| == 5
      && TagParts(t[0]) == Some(("job", e.parentFullName + "/" + e.jobName.value))
      && TagParts(t[1]) == Some(("node", e.env["NODE_NAME"]))
      && TagParts(t[2]) == Some(("result", "SUCCESS"))
      && TagParts(t[3]) == Some(("branch", e.env["GIT_BRANCH"]))
      && TagParts(t[4]) == Some(("host", e.env["HOSTNAME"]))
  {
    TagRoundTrip("job", e.parentFullName + "/" + e.jobName.value);
    TagRoundTrip("node", e.env["NODE_NAME"]);
    TagRoundTrip("result", "SUCCESS");
    TagRoundTrip("branch", e.env["GIT_BRANCH"]);
    TagRoundTrip("host", e.env["HOSTNAME"]);
  }

  /**
   * Every call a full run sends, on either channel, carries the same tag list, and each
   * API call names the `HOSTNAME` variable as its host.
   */
  lemma FullRunCallsShareTags(e: CompletedRun)
    requires IsFullRun(e)
    ensures var o := OnCompleted(e);
      && (forall c | o.api.Some? && c in o.api.value :: c.tags == CompletionTags(e) && c.host == e.env["HOSTNAME"])
      && (forall c | o.statsd.Some? && c in o.statsd.value :: c.tags == CompletionTags(e))
  {
  }

  /**
   * Without a StatsD client, a full run sends two API calls and nothing through StatsD:
   * one duration metric whose value is the run's duration in whole seconds, and one
   * status check with status OK.
   */
  lemma FullRunApiCalls(e: CompletedRun)
    requires IsFullRun(e) && !e.statsdClient
    ensures var o := OnCompleted(e);
      && o.statsd == Some(multiset{})
      && o.api.Some? && |o.api.value| == 2
      && (exists c :: c in o.api.value && c.Metric?)
      && (exists c :: c in o.api.value && c.ServiceCheck?)
      && forall c | c in o.api.value ::
           || (c.Metric? && c.name == DurationMetric
               && c.value * 1000 <= e.durationMs < c.value * 1000 + 1000)
           || (c.ServiceCheck? && c.name == StatusCheck && c.status == StatusOk)
  {
    var tags, host := CompletionTags(e), e.env["HOSTNAME"];
    assert Metric(DurationMetric, Seconds(e.durationMs), host, tags) in OnCompleted(e).api.value;
    assert ServiceCheck(StatusCheck, StatusOk, host, tags) in OnCompleted(e).api.value;
  }

  /**
   * With a StatsD client, a full run sends two StatsD calls: a `completed` count of one
   * and a `leadtime` gauge of the run's duration in whole seconds.
   */
  lemma FullRunStatsdCalls(e: CompletedRun)
    requires IsFullRun(e) && e.statsdClient
    ensures var o := OnCompleted(e);
      && o.statsd.Some? && |o.statsd.value| == 2
      && (exists c :: c in o.statsd.value && c.Count?)
      && (exists c :: c in o.statsd.value && c.Gauge?)
      && forall c | c in o.statsd.value ::
           || (c.Count? && c.aspect == "completed" && c.delta == 1)
           || (c.Gauge? && c.aspect == "leadtime"
               && c.value * 1000 <= e.durationMs < c.value * 1000 + 1000)
  {
    var tags := CompletionTags(e);
    assert Count("completed", 1, tags) in OnCompleted(e).statsd.value;
    assert Gauge("leadtime", Seconds(e.durationMs), tags) in OnCompleted(e).statsd.value;
  }

  /**
   * The StatsD `leadtime` gauge of a run reports the same seconds and tags as the
   * `jenkins.job.duration` metric the same run sends without a StatsD client.
   */
  lemma LeadtimeMatchesDuration(e: CompletedRun)
    requires IsFullRun(e)
    ensures var without := OnCompleted(e.(statsdClient := false));
            var with := OnCompleted(e.(statsdClient := true));
      forall m | without.api.Some? && m in without.api.value && m.Metric? ::
        with.statsd.Some? && Gauge("leadtime", m.value, m.tags) in with.statsd.value
  {
  }

  // The runs of the four completion tests.

  const AllOpen := Gates(true, true, true)

  const TestEnvironment := map["HOSTNAME" := "test-hostname-2", "NODE_NAME" := "test-node",
                               "BUILD_URL" := "http://build_url.com", "GIT_BRANCH" := "test-branch"]

  const ExpectedTags := ["job:ParentFullName/JobName", "node:test-node", "result:SUCCESS",
                         "branch:test-branch", "host:test-hostname-2"]

  function TestRun(durationMs: int, statsdClient: bool): CompletedRun
  {
    CompletedRun(AllOpen, "ParentFullName", Some("JobName"), TestEnvironment, Some(Success),
                 durationMs, 2, statsdClient)
  }

  lemma TestRunIsFull(durationMs: int, statsdClient: bool)
    requires 0 <= durationMs <= LongMax
    ensures IsFullRun(TestRun(durationMs, statsdClient))
    ensures CompletionTags(TestRun(durationMs, statsdClient)) == ExpectedTags
  {
    TestEnvironmentVariables();
    var e := TestRun(durationMs, statsdClient);
    assert e.env["NODE_NAME"] == "test-node" && e.env["GIT_BRANCH"] == "test-branch"
      && e.env["HOSTNAME"] == "test-hostname-2";
    ExpectedTagsSpelled();
  }

  lemma TestEnvironmentVariables()
    ensures TestEnvironment.Keys == TestedVariables
  {
  }

  lemma ExpectedTagsSpelled()
    ensures [Tag("job", "ParentFullName" + "/" + "JobName"), Tag("node", "test-node"),
             Tag("result", "SUCCESS"), Tag("branch", "test-branch"), Tag("host", "test-hostname-2")]
            == ExpectedTags
  {
    JobTagSpelled();
    NodeAndResultTagsSpelled();
    BranchAndHostTagsSpelled();
  }

  lemma JobTagSpelled()
    ensures Tag("job", "ParentFullName" + "/" + "JobName") == "job:ParentFullName/JobName"
  {
    assert "ParentFullName" + "/" + "JobName" == "ParentFullName/JobName";
  }

  lemma NodeAndResultTagsSpelled()
    ensures Tag("node", "test-node") == "node:test-node"
    ensures Tag("result", "SUCCESS") == "result:SUCCESS"
  {
  }

  lemma BranchAndHostTagsSpelled()
    ensures Tag("branch", "test-branch") == "branch:test-branch"
    ensures Tag("host", "test-hostname-2") == "host:test-hostname-2"
  {
  }

  /** No result, an empty environment and an empty parent: nothing is sent. */
  lemma OnCompletedWithNothing()
    ensures OnCompleted(CompletedRun(AllOpen, "", None, map[], None, 0, 0, false))
            == Observed(Some(multiset{}), Some(multiset{}))
  {
  }

  /** 123000 ms of a successful run: duration 123 and status OK, both with the five tags. */
  lemma OnCompletedWithEverything()
    ensures OnCompleted(TestRun(123000, false)) == Observed(
      Some(multiset{Metric("jenkins.job.duration", 123, "test-hostname-2", ExpectedTags),
                    ServiceCheck("jenkins.job.status", 0, "test-hostname-2", ExpectedTags)}),
      Some(multiset{}))
  {
    TestRunIsFull(123000, false);
  }

  /** A reported duration of 0 ms is still sent, as 0 seconds, with the same tags. */
  lemma OnCompletedWithDurationAsZero()
    ensures OnCompleted(TestRun(0, false)) == Observed(
      Some(multiset{Metric("jenkins.job.duration", 0, "test-hostname-2", ExpectedTags),
                    ServiceCheck("jenkins.job.status", 0, "test-hostname-2", ExpectedTags)}),
      Some(multiset{}))
  {
    TestRunIsFull(0, false);
  }

  /** With a StatsD client: exactly `completed` 1 and `leadtime` 1234, both with the five tags. */
  lemma OnCompletedSuccessWithStatsD()
    ensures OnCompleted(TestRun(1234000, true)).statsd == Some(multiset{
      Count("completed", 1, ExpectedTags), Gauge("leadtime", 1234, ExpectedTags)})
  {
    TestRunIsFull(1234000, true);
  }
}
