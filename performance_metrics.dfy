/** The records the dashboard's aggregators consume: one raw request outcome, and the
    timing part of a test configuration. Response times are exact reals (milliseconds);
    timestamps are integer milliseconds since the epoch. */
module PerfModel {
  import opened Wrappers

  datatype RequestMetric = RequestMetric(
    endpoint: string,
    httpMethod: string,
    statusCode: int,
    responseTime: real,
    timestamp: int,
    success: bool,
    errorMessage: Option<string>)

  /** `testEndTime` is optional; `duration` is in seconds. */
  datatype TestConfig = TestConfig(
    concurrentUsers: int,
    duration: int,
    testStartTime: int,
    testEndTime: Option<int>)

  /** `config.testEndTime || startTime + duration * 1000`: an absent or zero end time is
      replaced by the start plus the configured duration. */
  function EndTime(c: TestConfig): (t: int)
    ensures c.testEndTime.Some? && c.testEndTime.value != 0 ==> t == c.testEndTime.value
    ensures c.testEndTime.None? || c.testEndTime.value == 0 ==> t == c.testStartTime + c.duration * 1000
  {
    if c.testEndTime.Some? && c.testEndTime.value != 0 then c.testEndTime.value
    else c.testStartTime + c.duration * 1000
  }

  function EndpointOf(m: RequestMetric): string { m.endpoint }
  function ResponseTimeOf(m: RequestMetric): real { m.responseTime }
  function IsSuccess(m: RequestMetric): bool { m.success }
  function IsFailure(m: RequestMetric): bool { !m.success }

  /** `metrics.map(m => m.responseTime)` */
  function ResponseTimes(ms: seq<RequestMetric>): (ts: seq<real>)
    ensures |ts| == |ms| && forall i :: 0 <= i < |ms| ==> ts[i] == ms[i].responseTime
  {
    if ms == [] then [] else ResponseTimes(ms[..|ms| - 1]) + [ms[|ms| - 1].responseTime]
  }
}
