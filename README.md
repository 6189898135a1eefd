# A verified model of the tune-stress-api load-testing engine

tune-stress-api is a prototype "stress-test your API" product. Most of its code is pages, dashboards and chart widgets. Its logic is a schema-driven load-testing engine, written several times over in TypeScript, JavaScript and Python. This project models that engine in Dafny and proves what each part promises.

- **Schema catalog.** `OpenApi` covers `OpenAPIParser.ts`: a URL-keyed document cache, and the flattening of `paths` into one endpoint per (path, method). `SchemaParser` covers the Python `schema_parser.py`: the `openapi.json` URL, parameters, request body and response schema, and the two loops of `parse_endpoints`. Both visit methods in the order get, post, put, delete, patch. Both concatenate path-level and operation-level parameters without any de-duplication.
- **Data synthesis.** `Generators` covers the TypeScript side: the base generator's defaults, the factory's type dispatch, and the string, number, array and object generators. `RequestData` covers the request generator and its `method-path` cache. `PyDataGenerator` covers the Python generator and its path-keyed memo cache. Schemas are finite trees, so the recursion terminates structurally; the code has no depth guard. Random draws and Faker/uuid calls are nondeterministic choices carrying the shape the code relies on.
- **Traffic and metrics.**
  - `LoadTesting` covers `load_tester.py`: the three traffic patterns, the error mapping and the report.
  - `LoadTestJs` covers `loadTest.js`.
  - `MetricsService` covers `finalize_test_run` and the report-format check.
  - `MockData` covers `MockDataService.ts`: aggregation, percentiles and per-endpoint statistics.
  - `TestRunner` covers the stateful `TestService` of `src/utils/testService.ts`.
  - `ResponseTimeChart` and `ErrorDistributionChart` cover the bucketing done in the two chart components.
  - Averages are exact reals and quantiles are rationals. A JavaScript `NaN` or infinity from a division by zero is `None`.
- **Small serialisers, validators and state machines.**
  - `ReportExport` covers the CSV export.
  - `UserSchemas` covers the email regular expression and `TestResult.to_dict`.
  - `InteractionModes` covers the command-history cursor of the CLI panel.
  - `TestForm` covers the header editor and the empty-URL check.
  - `TestConfigModal` covers the endpoint-list editor and the duration text.

Shared helpers:
- `Wrappers` holds the result types;
- `Text` holds decimal rendering, `trim`, `join`, upper-casing and character counts;
- `Stats` holds sums, exact means, a stable sort by key and quantile indices;
- `Grouping` holds group-by-key counts;
- `JsonSchema` holds the schema and value datatypes of the TypeScript side;
- `PyJson` holds decoded JSON as Python sees it;
- `PerfModel` holds the dashboard's request records.

The model follows the source's own form:
- code that mutates fields is a `class` with `modifies` clauses: `OpenApiParser`, `RequestDataGenerator`, the Python `PyDataGenerator`, `TestService`, `LoadTester`, `LoadTest`, `TestRun` and `CommandLine`;
- loops are `while`/`for` loops with invariants, each proved against a specification function;
- pure code is functions and lemmas.

Some behaviours of the code worth knowing, which the model keeps:
- path-level and operation-level parameters are concatenated, with no de-duplication and no override;
- schema generation has no recursion depth limit;
- `TestService` has no traffic-pattern scheduler: each batch fires up to `concurrentUsers` identical requests;
- thrown requests are not counted in `loadTest.js`'s total;
- `testService.ts` computes its "average" from a `totalResponseTime` passed by value, so the value is not a mean.

## Model

| member | source | states |
|---|---|---|
| LoadTesting.MakeRequest | stressapi/core/load_tester.py:25-42 | the result is stamped with the start reading and its latency is end minus start; a raised exception gives status 500 with the exception text as error, a response gives its own status and no error |
| LoadTesting.FloorDiv | stressapi/core/load_tester.py:55 | Python's `//` rounds toward negative infinity: `q * b <= a < q * b + b` for a positive divisor, mirrored for a negative one |
| LoadTesting.Issued | stressapi/core/load_tester.py:44-51 | `n` requests one after another give `max(n, 0)` results, result `i` being request `i` |
| LoadTesting.UserResults | stressapi/core/load_tester.py:57-64 | one user task returns its `requests_per_user` results in issue order |
| LoadTesting.InterleavedLength | stressapi/core/load_tester.py:66-70 | the flattened gather holds `users * requests_per_user` results |
| LoadTesting.InterleavedAt | stressapi/core/load_tester.py:66-70 | result `j` of user `u` sits at position `u * requests_per_user + j`: tasks in creation order, each in issue order |
| LoadTesting.InterleavedAtMost | stressapi/core/load_tester.py:55-70 | the interleaved pattern never issues more than `num_requests` requests |
| LoadTesting.Uniform | stressapi/core/load_tester.py:78 | `random.uniform(a, b)` lies between `a` and `b` |
| LoadTesting.LoadTester.constructor | stressapi/core/load_tester.py:17-23 | the four settings are kept as given and there are no results yet |
| LoadTesting.LoadTester.SequentialTraffic | stressapi/core/load_tester.py:44-51 | the results are the `num_requests` requests in issue order, each followed by a pause of `request_interval` |
| LoadTesting.LoadTester.RandomTraffic | stressapi/core/load_tester.py:72-79 | the same results as the sequential pattern; the pause after each request is `uniform(0, 2 * request_interval)` and so lies in that range |
| LoadTesting.LoadTester.InterleavedTraffic | stressapi/core/load_tester.py:53-70 | zero users raise `ZeroDivisionError`; otherwise the flattened results of `concurrent_users` tasks of `num_requests // concurrent_users` requests |
| LoadTesting.LoadTester.RunTest | stressapi/core/load_tester.py:108-124 | a report is returned exactly for `sequential`, `random`, and `interleaved` with a non-zero user count; the chosen pattern's results replace the stored ones and the report is over them; an unknown pattern raises `ValueError` naming it and keeps the previous results; the settings never change |
| LoadTesting.Latencies | stressapi/core/load_tester.py:85 | the latencies of the results, position by position |
| LoadTesting.ReportOf | stressapi/core/load_tester.py:81-95 | no results give exactly the error entry; otherwise the total and the counts of 2xx statuses, of statuses from 400 and of results with an error |
| LoadTesting.OutcomeClassesPartition | stressapi/core/load_tester.py:92-93 | successes, failures and the remaining statuses partition the results |
| LoadTesting.ReportLatencyBounds | stressapi/core/load_tester.py:96-101 | min and max are latencies that bound every latency; the average is the exact mean; the 95th percentile is the element at index `floor(n * 95 / 100)` (below `n`) of the ascending copy, and so lies between min and max |
| LoadTesting.ReportStatusCodes | stressapi/core/load_tester.py:102-105 | one key per status that occurs, holding the number of results with that status; the counts add up to the total |
| LoadTesting.StatusCountAt | stressapi/core/load_tester.py:103 | the entry for a result's status counts the results with that status |
| LoadTestJs.HttpError | project/lib/loadTest.js:31 | the text pushed for a response that is not `ok` is `HTTP ` followed by the status in decimal |
| LoadTestJs.OkLatencies | project/lib/loadTest.js:26-28 | one latency per `ok` response, `ok` meaning a status from 200 to 299 |
| LoadTestJs.ErrorTexts | project/lib/loadTest.js:29-35 | one error text per failed attempt |
| LoadTestJs.ReplayCounts | project/lib/loadTest.js:19-37 | a run adds the answered attempts to the total, the `ok` ones to the successes with their latencies in order, and every other attempt to the failures with its text in order |
| LoadTestJs.AttemptClasses | project/lib/loadTest.js:21-36 | answered and thrown attempts partition the run, so do `ok` and failed ones, and every `ok` attempt was answered |
| LoadTestJs.ThrownNotCounted | project/lib/loadTest.js:25-35 | from fresh counters, successes plus failures exceed the total by exactly the number of thrown requests |
| LoadTestJs.RecordConsistent | project/lib/loadTest.js:19-37 | one request keeps one latency per success, one text per failure, and successes plus failures at least the total |
| LoadTestJs.LoadTest.constructor | project/lib/loadTest.js:5-17 | the configuration is copied and the counters start at zero with no latencies and no errors (`createLoadTest` at lines 68-70 calls this constructor) |
| LoadTestJs.LoadTest.MakeRequest | project/lib/loadTest.js:19-37 | an answered request raises the total; an `ok` one adds a success and its latency; a not-`ok` one adds a failure and `HTTP <status>`; a thrown one adds a failure and its message and leaves the total |
| LoadTestJs.LoadTest.Run | project/lib/loadTest.js:39-51 | the counters after one `makeRequest()` per attempt in order, and the report over them |
| LoadTestJs.Percent | project/lib/loadTest.js:59-61 | `(part / whole) * 100` is a number exactly when the whole is positive, and then it times the whole is `100 * part` |
| LoadTestJs.GenerateReport | project/lib/loadTest.js:53-65 | the total and the errors are copied; the average latency is the mean of the successful latencies and exists only when there is one; both rates are percentages of the total |
| LoadTestJs.ReportRates | project/lib/loadTest.js:59-61 | with consistent counters the success rate is between 0 and 100, the two rates add up to at least 100, and to exactly 100 only when no request threw |
| LoadTestJs.ReportLatencyBounds | project/lib/loadTest.js:54 | the average latency lies between the fastest and the slowest successful request |
| LoadTestJs.OnlyThrownHasNoRates | project/lib/loadTest.js:33-61 | a run whose only request threw has total zero and one failure, so its error rate is not a finite number |
| MetricsService.ResponseTimes | app/services/metrics_service.py:45 | the response times of the points, position by position |
| MetricsService.CpuUsages | app/services/metrics_service.py:58 | the CPU readings of the points, position by position |
| MetricsService.MemoryUsages | app/services/metrics_service.py:59 | the memory readings of the points, position by position |
| MetricsService.MeanOrNaN | app/services/metrics_service.py:52-59 | `np.mean` is the exact mean, and not a number for no samples |
| MetricsService.ErrorTexts | app/services/metrics_service.py:63-64 | one non-empty text per point whose error is truthy |
| MetricsService.ErrorTextsStep | app/services/metrics_service.py:63-65 | one more point adds its error text exactly when that text is truthy |
| MetricsService.TestRun.constructor | app/services/metrics_service.py:30-37 | the start time is the clock reading; every other column is unset and the counters are zero |
| MetricsService.CountErrors | app/services/metrics_service.py:62-66 | the loop builds the histogram of the truthy error texts |
| MetricsService.FinalizeTestRun | app/services/metrics_service.py:39-69 | end time, total, success and failure counts and mean latency are always written; with no points `max()` raises and nothing after it is written; otherwise max, min, resource means, duration `end - start` and the error histogram |
| MetricsService.WriteCounts | app/services/metrics_service.py:48-52 | the end time, the three counts and the mean latency are written and no other column |
| MetricsService.WriteAggregates | app/services/metrics_service.py:56-66 | the extrema, the resource means, the duration and the error histogram are written and no other column |
| MetricsService.SuccessAndFailureCoverAll | app/services/metrics_service.py:49-51 | every point is a success (below 400) or a failure: the two counts make up the total |
| MetricsService.LatencyOrder | app/services/metrics_service.py:52-57 | the minimum is at most the mean and the mean at most the maximum |
| MetricsService.ErrorHistogramTotal | app/services/metrics_service.py:62-66 | every key is a non-empty text with a positive count, and the counts add up to the points that carry an error |
| MetricsService.ReportFormatOf | app/services/metrics_service.py:78-109 | `json` and `csv` select their format, and every other format raises `ValueError: Unsupported format: <format>` |
| MockData.RandomInRange | src/services/MockDataService.ts:11-13 | `floor(r * (max - min + 1)) + min` lies in `[min, max]` |
| MockData.TimestampInRange | src/services/MockDataService.ts:16-18 | the timestamp lies in `[start, end)` when `end > start`, and between `end` and `start` otherwise |
| MockData.Random | src/services/MockDataService.ts:12-32 | a `Math.random()` draw lies in `[0, 1)` |
| MockData.MockMetric | src/services/MockDataService.ts:31-45 | a success has status 200 or 201, a time in [5, 500] and no message; a failure has status 400, 401, 403, 404 or 500, a time in [500, 2000] and the mock message; the timestamp lies in the window; endpoint and method come from the fixed lists |
| MockData.GenerateRequestMetrics | src/services/MockDataService.ts:21-47 | exactly `count` outcomes, each of the shape above over the test window |
| MockData.Ratio | src/services/MockDataService.ts:125 | a division is a number exactly when the divisor is not zero, and then the quotient times the divisor is the dividend |
| MockData.Percent | src/services/MockDataService.ts:118 | `part / whole * 100` is a number exactly when the whole is positive, and then its value times the whole is `part * 100` |
| MockData.Percentile | src/services/MockDataService.ts:120-122 | the element at `floor(n * q)` of the sorted list, undefined for an empty list |
| MockData.EndpointCountSplit | src/services/MockDataService.ts:100-105 | an endpoint's requests are its successes plus its failures |
| MockData.EndpointCountsSum | src/services/MockDataService.ts:90-105 | the per-endpoint request counts add up to the total |
| MockData.BumpIsStatsOf | src/services/MockDataService.ts:91-111 | one turn of the `forEach` on an endpoint's entry gives that endpoint's counts and mean over the list extended by the outcome |
| MockData.BumpAverage | src/services/MockDataService.ts:108-111 | the incremental average is the exact mean of the endpoint's response times |
| MockData.BumpMean | src/services/MockDataService.ts:109-111 | `(avg * (count - 1) + time) / count` on the mean of `count - 1` times is the mean with `time` appended |
| MockData.OtherEndpointsUnchanged | src/services/MockDataService.ts:90-112 | an outcome leaves every other endpoint's count and statistics as they were |
| MockData.TallyStep | src/services/MockDataService.ts:91-111 | one iteration keeps the loop state: an entry per endpoint seen, holding its statistics so far |
| MockData.TallyOutcome | src/services/MockDataService.ts:91-111 | the body of the `forEach` keeps that loop state over one more outcome |
| MockData.GroupByEndpoint | src/services/MockDataService.ts:82-112 | one entry per distinct endpoint, with its request, success and failure counts and the mean of its response times |
| MockData.TalliedIsGrouped | src/services/MockDataService.ts:90-112 | the state after every outcome is the grouping |
| MockData.SummariseTimes | src/services/MockDataService.ts:79-124 | over the ascending copy of the times: the exact mean (undefined for none), the three percentiles, the first and the last |
| MockData.ComputeAggregatedMetrics | src/services/MockDataService.ts:67-131 | the total, the `success` count and failures as the rest, the error rate as their percentage, the time statistics, the window with duration `(end - start) / 1000`, requests per second as total over duration, and the per-endpoint grouping |
| MockData.PercentilesOrdered | src/services/MockDataService.ts:79-124 | min <= p50 <= p90 <= p99 <= max, the average lies between min and max, and min and max bound every response time |
| MockData.ErrorRateBounds | src/services/MockDataService.ts:75-118 | successes plus failures are the total and the error rate lies in [0, 100] |
| PerfModel.EndTime | src/services/MockDataService.ts:72 | an absent or zero end time is replaced by the start plus the duration in milliseconds; any other end time is kept |
| PerfModel.ResponseTimes | src/services/MockDataService.ts:79 | the response times of the outcomes, position by position |
| ResponseTimeChart.BucketOf | src/components/ResponseTimeChart.tsx:41 | the bucket is the whole second holding the timestamp: a multiple of 1000 with `k <= timestamp < k + 1000` |
| ResponseTimeChart.BucketMonotone | src/components/ResponseTimeChart.tsx:41 | a later timestamp never falls in an earlier bucket |
| ResponseTimeChart.AddIsBucketFor | src/components/ResponseTimeChart.tsx:43-50 | the incremental update of a metric's bucket gives that bucket's count and exact mean over the list extended by the metric |
| ResponseTimeChart.AddAverage | src/components/ResponseTimeChart.tsx:48-50 | `(avg * count + time) / (count + 1)` on the mean of `count` times is the mean with `time` appended |
| ResponseTimeChart.OtherBucketsUnchanged | src/components/ResponseTimeChart.tsx:39-51 | a metric leaves every other bucket as it was |
| ResponseTimeChart.BucketStep | src/components/ResponseTimeChart.tsx:39-51 | one iteration keeps the loop state: a bucket per second seen, with its count and mean, keys in creation order |
| ResponseTimeChart.BucketByTime | src/components/ResponseTimeChart.tsx:37-51 | the loop fills one bucket per second with its count and mean, and records the buckets in creation order |
| ResponseTimeChart.BucketCountsSum | src/components/ResponseTimeChart.tsx:39-51 | every listed key has a bucket and the bucket counts add up to the number of metrics |
| ResponseTimeChart.SortedBucketsIncrease | src/components/ResponseTimeChart.tsx:34-54 | over time-sorted metrics the buckets are created in strictly increasing order |
| ResponseTimeChart.Timeline | src/components/ResponseTimeChart.tsx:33-59 | one point per bucket of the sorted copy, in creation order, at the bucket's start |
| ResponseTimeChart.ProcessDataByTime | src/components/ResponseTimeChart.tsx:33-59 | sorting a copy, bucketing it and listing the buckets gives the timeline |
| ResponseTimeChart.BucketedEntries | src/components/ResponseTimeChart.tsx:54-58 | the buckets listed in creation order are the distinct seconds, each holding its count and mean |
| ResponseTimeChart.TimelineMeans | src/components/ResponseTimeChart.tsx:48-57 | every point stands for at least one metric and carries the mean response time of its second |
| ResponseTimeChart.TimelineKeys | src/components/ResponseTimeChart.tsx:34-55 | points sit on whole seconds, strictly increasing, with one point for the second of every metric |
| ResponseTimeChart.MetricsOf | src/components/ResponseTimeChart.tsx:65-71 | the metrics of one endpoint in input order: as many as it has requests, with their response times |
| ResponseTimeChart.GroupStep | src/components/ResponseTimeChart.tsx:65-71 | one iteration keeps the loop state: a list per endpoint seen, its metrics in order, endpoints in creation order |
| ResponseTimeChart.GroupByEndpoint | src/components/ResponseTimeChart.tsx:63-71 | the loop groups the metrics per endpoint in input order, endpoints in creation order |
| ResponseTimeChart.EntriesFor | src/components/ResponseTimeChart.tsx:74-82 | one entry per given endpoint, in that order |
| ResponseTimeChart.DistinctCounted | src/components/ResponseTimeChart.tsx:65-71 | every endpoint that was grouped has at least one metric |
| ResponseTimeChart.Entries | src/components/ResponseTimeChart.tsx:74-82 | before sorting, one entry per endpoint in creation order with its count and mean |
| ResponseTimeChart.ProcessDataByEndpoint | src/components/ResponseTimeChart.tsx:61-84 | the entries sorted stably by descending request count |
| ResponseTimeChart.GroupedEntries | src/components/ResponseTimeChart.tsx:63-74 | the groups listed in creation order are the distinct endpoints, each holding its metrics, none empty |
| ResponseTimeChart.GroupEntry | src/components/ResponseTimeChart.tsx:75-81 | a group's total time over its length is its endpoint's mean response time, with its size as the count |
| ResponseTimeChart.EndpointEntriesOrdered | src/components/ResponseTimeChart.tsx:83 | the sorted entries are in descending request count |
| ResponseTimeChart.EndpointEntriesExact | src/components/ResponseTimeChart.tsx:74-83 | each sorted entry is its endpoint's count and mean response time |
| ResponseTimeChart.EndpointEntriesComplete | src/components/ResponseTimeChart.tsx:65-83 | one sorted entry per endpoint, and every endpoint of the input has one |
| ResponseTimeChart.EndpointCountsSum | src/components/ResponseTimeChart.tsx:74-83 | the request counts of the sorted entries add up to the number of metrics |
| ResponseTimeChart.CountsAlongKeys | src/components/ResponseTimeChart.tsx:81 | the counts of the entries for some endpoints add up to their group sizes |
| ErrorDistributionChart.ProcessStatusCodeData | src/components/ErrorDistributionChart.tsx:33-53 | the loop's three counters, listed in declaration order, are the three slices |
| ErrorDistributionChart.StatusDataTotal | src/components/ErrorDistributionChart.tsx:40-50 | the three slices plus the ungrouped statuses make up the whole list, so the slices never add up to more |
| ErrorDistributionChart.StatusDataShape | src/components/ErrorDistributionChart.tsx:34-52 | always three slices in the order 2xx, 4xx, 5xx, whatever the input |
| ErrorDistributionChart.ErrorStatuses | src/components/ErrorDistributionChart.tsx:60 | the codes the tally sees: one per response with a status of 400 or above |
| ErrorDistributionChart.ErrorStatusesStep | src/components/ErrorDistributionChart.tsx:59-66 | one more response adds its status exactly when it is 400 or above |
| ErrorDistributionChart.ErrorStatusCount | src/components/ErrorDistributionChart.tsx:60 | a code of 400 or above is tallied as often as it occurs, any lower code never |
| ErrorDistributionChart.ErrorCodeCounts | src/components/ErrorDistributionChart.tsx:57-66 | the record is the histogram of the error statuses |
| ErrorDistributionChart.ErrorCodeCountsExact | src/components/ErrorDistributionChart.tsx:57-66 | the keys are exactly the statuses of 400 and above that occur (600 and above included), each with its number of occurrences |
| ErrorDistributionChart.HistogramUnique | src/components/ErrorDistributionChart.tsx:57-66 | two histograms of the same codes are the same record |
| ErrorDistributionChart.FirstSightThenBump | src/components/ErrorDistributionChart.tsx:61-64 | initialising a missing entry to zero and adding one is one tally of the code |
| ErrorDistributionChart.CountErrorCodes | src/components/ErrorDistributionChart.tsx:57-66 | the loop builds that record |
| ErrorDistributionChart.KeysAscending | src/components/ErrorDistributionChart.tsx:68 | `Object.entries` lists integer keys once each, in ascending order |
| ErrorDistributionChart.ProcessErrorCodesData | src/components/ErrorDistributionChart.tsx:56-72 | the loop's record, listed, sorted by descending count and cut to five |
| ErrorDistributionChart.TopFiveSorted | src/components/ErrorDistributionChart.tsx:70-71 | at most five bars, all entries when there are fewer, in descending count |
| ErrorDistributionChart.TopFiveFrom | src/components/ErrorDistributionChart.tsx:70-71 | every bar is one of the entries |
| ErrorDistributionChart.TopFiveKeeps | src/components/ErrorDistributionChart.tsx:70-71 | an entry without a bar counts no more than any bar, and only when five bars are taken |
| ErrorDistributionChart.TopFiveEntries | src/components/ErrorDistributionChart.tsx:68-71 | each bar is a key of the record in decimal with its count |
| ErrorDistributionChart.TopFiveTop | src/components/ErrorDistributionChart.tsx:68-71 | a key without a bar counts no more than any key with one, and only when five bars are taken |
| ErrorDistributionChart.ErrorCodesDataOrdered | src/components/ErrorDistributionChart.tsx:68-71 | at most five bars, one per distinct error code when there are fewer, in descending count |
| ErrorDistributionChart.ErrorCodesDataExact | src/components/ErrorDistributionChart.tsx:57-71 | every bar is a status of 400 or above in decimal with its number of occurrences |
| ErrorDistributionChart.ErrorCodesDataTop | src/components/ErrorDistributionChart.tsx:57-71 | the bars are the most frequent error codes: one without a bar occurs no more often than any with one |
| TestRunner.Fresh | src/utils/testService.ts:27-40 | a new record has zero counts, average 0, minimum `Infinity`, maximum 0, rate 0, status running, no status codes and an empty time series (`simulateTest` builds the same record at lines 186-199) |
| TestRunner.MinBound | src/utils/testService.ts:110 | `Math.min` with `Infinity` as the start: the least of the bound and the latency (the same code recurs at line 237) |
| TestRunner.Max | src/utils/testService.ts:111 | `Math.max`: the greater of the two (the same code recurs at line 238) |
| TestRunner.Latencies | src/utils/testService.ts:120-124 | the latencies of a time series, position by position |
| TestRunner.LatenciesConcat | src/utils/testService.ts:120-124 | the latencies of two joined series are those of each, joined |
| TestRunner.ExtremaStep | src/utils/testService.ts:110-111 | folding one latency into min and max keeps them the least and greatest latency seen |
| TestRunner.ResponseKeepsTallies | src/utils/testService.ts:101-126 | a completed fetch keeps the bookkeeping with its status tallied and its latency folded in |
| TestRunner.ThrowKeepsTallies | src/utils/testService.ts:127-140 | a thrown fetch keeps the bookkeeping, tallying nothing and folding nothing in |
| TestRunner.TestService.constructor | src/utils/testService.ts:5-10 | no history, no active test and no abort controller |
| TestRunner.TestService.StartTest | src/utils/testService.ts:19-40 | a new abort controller and a fresh active test; the history is kept |
| TestRunner.TestService.MakeRequest | src/utils/testService.ts:85-142 | no active test does nothing; a response adds a request and a success, tallies the status, folds the latency into min and max, sets the average from the run's total and appends a point; a throw adds a request and a failure and a point with status 0; the bookkeeping is kept |
| TestRunner.TestService.RunBatch | src/utils/testService.ts:50-59 | at most `concurrentUsers` requests, each issued before the deadline; fewer only when aborted or past the deadline; the active test becomes `makeRequest`'s update folded over the issued requests in order (`AfterRequests`); history, abort flag and controller unchanged |
| TestRunner.AfterRequestsExtends | src/utils/testService.ts:85-142 | `n` requests of a batch add `n` to the total, split between successes (responses) and failures (throws), keep the earlier series and append one point per request in issue order, the status or 0 for a throw |
| TestRunner.TestService.FinalizeTest | src/utils/testService.ts:144-154 | with an active test: the rate over the elapsed seconds, status completed, a copy appended to the history and the abort controller dropped; otherwise nothing |
| TestRunner.TestService.CancelTest | src/utils/testService.ts:156-167 | without an abort controller nothing changes; with one the signal is aborted and an active test is marked failed with the cancel message, appended to the history and cleared |
| TestRunner.TestService.GetActiveTest | src/utils/testService.ts:169-171 | the active test |
| TestRunner.TestService.GetTestHistory | src/utils/testService.ts:173-175 | a copy of the history |
| TestRunner.TestService.ClearTestHistory | src/utils/testService.ts:177-179 | the history is emptied and nothing else changes |
| TestRunner.TestService.StartSimulation | src/utils/testService.ts:182-201 | a fresh active test whose average is the initial 0 |
| TestRunner.TestService.SimulateTick | src/utils/testService.ts:212-256 | between 1 and `concurrentUsers` new requests, each with a latency in [50, 499] and a status from the list; the successes are those whose status starts with `2`; the earlier series is kept and the average stays the exact mean |
| TestRunner.TestService.SimulateRequests | src/utils/testService.ts:219-249 | the inner loop adds `count` simulated requests and sums their latencies |
| TestRunner.TestService.SetAverage | src/utils/testService.ts:252-255 | only the average of the active test is replaced |
| TestRunner.TestService.RecordSimulated | src/utils/testService.ts:221-248 | one simulated request: a request, a success or failure by the leading `2`, min and max, the status tallied and a point appended |
| TestRunner.TestService.FinishSimulation | src/utils/testService.ts:262-272 | the rate, status completed, the copy appended to the history and returned, the active test cleared |
| TestRunner.Rate | src/utils/testService.ts:147-148 | the rate is a number exactly when time has passed, and then the rate times the elapsed seconds is the total (the same code recurs at lines 263-264) |
| TestRunner.TickAverage | src/utils/testService.ts:252-255 | the recomputed average is a number exactly when the previous one was and there are requests |
| TestRunner.TickAverageIs | src/utils/testService.ts:252-255 | the average is the value its formula evaluates to |
| TestRunner.SimulatedLatency | src/utils/testService.ts:221 | `floor(r * 450) + 50` lies in [50, 499] |
| TestRunner.SimulatedCode | src/utils/testService.ts:225 | the drawn status is one of the list |
| TestRunner.TickSoFarStep | src/utils/testService.ts:219-249 | one simulated request keeps the tick's loop state |
| TestRunner.TickStep | src/utils/testService.ts:244-248 | a new point adds its success and its latency to the tick's part of the series |
| TestRunner.TickMean | src/utils/testService.ts:252-255 | the formula on the previous mean gives the exact mean of all latencies so far |
| TestRunner.TickKeepsMean | src/utils/testService.ts:212-256 | a tick of at least one request starting from the mean keeps the exact mean |
| TestRunner.TickAverageExtends | src/utils/testService.ts:252-255 | the formula over the previous mean and the sum of the new latencies is the mean of both lists |
| OpenApi.MakeEndpoint | src/lib/OpenAPIParser.ts:47-53 | the record of a present operation: the path, the method upper-cased, the path-level parameters followed by the operation's with nothing dropped or merged, and the operation's request body and responses |
| OpenApi.PushMethodEndpoints | src/lib/OpenAPIParser.ts:41-54 | the inner loop appends one record per present method, in the order of the five methods |
| OpenApi.OpenApiParser.constructor | src/lib/OpenAPIParser.ts:13-14 | an empty cache and no document |
| OpenApi.OpenApiParser.FetchAndParseSpec | src/lib/OpenAPIParser.ts:16-29 | a cached URL selects its document without a request; otherwise the URL is requested once, and a success stores and caches the document while a failure raises `Failed to fetch OpenAPI spec: <error>` and changes nothing |
| OpenApi.OpenApiParser.GetEndpoints | src/lib/OpenAPIParser.ts:31-58 | no document raises `OpenAPI spec not loaded`; otherwise the flattening of its paths |
| OpenApi.MethodEndpointsSound | src/lib/OpenAPIParser.ts:43-53 | every record of a path item is that of one of the listed methods that is present |
| OpenApi.MethodEndpointsComplete | src/lib/OpenAPIParser.ts:43-53 | every listed method that is present yields its record |
| OpenApi.MethodEndpointsCount | src/lib/OpenAPIParser.ts:43-53 | a path item yields exactly one record per present listed method |
| OpenApi.EndpointsCount | src/lib/OpenAPIParser.ts:38-55 | one record per present (path, method); a falsy path item or one without the five methods contributes nothing |
| OpenApi.EndpointsSound | src/lib/OpenAPIParser.ts:38-55 | every record is that of a present method of some path |
| OpenApi.EndpointsComplete | src/lib/OpenAPIParser.ts:38-55 | every present method of every path yields its record |
| OpenApi.PathEndpointsOrder | src/lib/OpenAPIParser.ts:41-43 | within a path the records come in the order get, post, put, delete, patch |
| OpenApi.MethodEndpointsStep | src/lib/OpenAPIParser.ts:43-53 | one more method appends its record, if present |
| OpenApi.EndpointsAppend | src/lib/OpenAPIParser.ts:38 | paths are taken in document order: the records of joined path lists are joined |
| RequestData.GeneratedNames | src/lib/RequestDataGenerator.ts:33-42 | the parameter names that get a value: exactly those of parameters whose schema is present and not boolean |
| RequestData.RequestDataGenerator.constructor | src/lib/RequestDataGenerator.ts:13-18 | a new parser with no document and an empty cache |
| RequestData.RequestDataGenerator.Initialize | src/lib/RequestDataGenerator.ts:20-22 | loading the document behaves as the parser's `fetchAndParseSpec`, including its error text |
| RequestData.RequestDataGenerator.GenerateRequestData | src/lib/RequestDataGenerator.ts:24-66 | a cached key returns the cached request unchanged; otherwise a request that copies path and method, holds one conforming value per parameter with a schema and a conforming body exactly when the JSON media type has a schema, is stored under `method-path`; synthesis of supported schemas cannot fail; earlier entries are kept |
| RequestData.RequestDataGenerator.GenerateAllRequests | src/lib/RequestDataGenerator.ts:68-71 | no document raises `OpenAPI spec not loaded`; otherwise one request per endpoint, the `j`-th being the one cached for the `j`-th endpoint |
| RequestData.RequestDataGenerator.RepeatedRequestsAgree | src/lib/__tests__/RequestDataGenerator.test.ts:23-28 | two successive `generateAllRequests()` calls give the same requests, so in particular the same first request |
| RequestData.StoreFits | src/lib/RequestDataGenerator.ts:64 | storing a fitting request under a new key keeps every entry fitting and loses none |
| RequestData.KeepsTransitive | src/lib/RequestDataGenerator.ts:26-64 | entries once cached stay cached across calls |
| RequestData.AnswersKept | src/lib/RequestDataGenerator.ts:70 | the answers already given stay the cached ones as the cache grows |
| RequestData.AnswersExtend | src/lib/RequestDataGenerator.ts:70 | the request for the next endpoint is its cached one |
| RequestData.GenerateParameters | src/lib/RequestDataGenerator.ts:30-42 | the loop gives one value per parameter name with a schema, each conforming to a parameter of that name; it cannot fail when every such schema is supported |
| Generators.NewBaseGenerator | src/lib/generators/DataGenerator.ts:18-22 | the schema is kept; `required` is true only when given as true; `context` defaults to the empty record |
| Generators.CreateGenerator | src/lib/DataGeneratorFactory.ts:9-25 | `string` gives the string generator, `number` and `integer` the number generator, `array` and `object` theirs, over the constructed base; every other type raises `Unsupported schema type: <type>` |
| Generators.StringSourceFor | src/lib/generators/StringGenerator.ts:14-39 | a truthy pattern wins, then a listed format, then an enum, and a lorem sentence otherwise |
| Generators.IsoDatePart | src/lib/generators/StringGenerator.ts:22 | the part of an ISO timestamp before the first `T` is its ten-character calendar date |
| Generators.FakerAlphanumeric | src/lib/generators/StringGenerator.ts:15 | ten alphanumeric characters |
| Generators.FakerEmail | src/lib/generators/StringGenerator.ts:20 | a text holding an `@` |
| Generators.FakerRecentIso | src/lib/generators/StringGenerator.ts:22-24 | an ISO timestamp |
| Generators.UuidV4 | src/lib/generators/StringGenerator.ts:26 | a version 4 UUID in canonical form |
| Generators.GenerateString | src/lib/generators/StringGenerator.ts:10-41 | the string comes from the source the precedence selects and has that source's shape (an enum pick is one of the enum's values, a date has no `T`); it fails only for an empty enum |
| Generators.LowerBound | src/lib/generators/NumberGenerator.ts:8-11 | `minimum` as given or -1000, plus one when `exclusiveMinimum` is truthy |
| Generators.UpperBound | src/lib/generators/NumberGenerator.ts:9-12 | `maximum` as given or 1000, minus one when `exclusiveMaximum` is truthy |
| Generators.Ceil | src/lib/generators/NumberGenerator.ts:15 | the least integer not below `x` |
| Generators.FakerInt | src/lib/generators/NumberGenerator.ts:15 | an integer in [min, max], and an error exactly when no integer lies there |
| Generators.FakerFloat | src/lib/generators/NumberGenerator.ts:18 | `min` when the bounds meet, otherwise a multiple of 0.01 in [min, max]; an error exactly when there is none |
| Generators.GenerateNumber | src/lib/generators/NumberGenerator.ts:5-19 | a value exactly when the bounds admit one: an integer for `integer`, a hundredth otherwise, within the bounds |
| Generators.Synthesize | src/lib/DataGeneratorFactory.ts:9-25 | `createGenerator(options).generate()`: the value conforms to the schema, cannot fail for a supported schema, and an unknown type raises the factory's error |
| Generators.GenerateArray | src/lib/generators/ArrayGenerator.ts:5-26 | a missing or boolean `items` raises `Invalid array items schema`; otherwise the item count lies between `minItems || 1` and `maxItems || 5` (out-of-order bounds give the range its `Math.floor(Math.random() * (max - min + 1)) + min` then yields) and every item conforms to the items schema |
| Generators.PropertyNamesStep | src/lib/generators/ObjectGenerator.ts:11-12 | one more property adds its name exactly when its schema is not boolean |
| Generators.GenerateObject | src/lib/generators/ObjectGenerator.ts:6-24 | one key per non-boolean property whatever `required` says, each value conforming to its declaration; no properties give the empty record |
| Generators.GenerateProperty | src/lib/generators/ObjectGenerator.ts:12-20 | one pass of the loop: a property with a schema adds a conforming value under its name, a boolean one is skipped |
| JsonSchema.SchemaPropertyNames | src/lib/generators/ObjectGenerator.ts:8-12 | the names generated are exactly the declared properties whose schema is not a boolean |
| SchemaParser.OpenapiUrl | backend/api_tester/schema_parser.py:25 | the URL is the base with every trailing `/` stripped, followed by `/openapi.json` |
| SchemaParser.ParseParameter | backend/api_tester/schema_parser.py:37-43 | a parsed parameter takes its name, location and schema from `name`, `in` and `schema`, its type from the schema's `type` or `string`, and `required` from the object or false; a non-object raises TypeError and a missing name KeyError |
| SchemaParser.Chars | backend/api_tester/schema_parser.py:36 | iterating a string yields its characters one by one, in order |
| SchemaParser.AllParameters | backend/api_tester/schema_parser.py:34 | two parameter lists are concatenated, the path-level ones first; a `.get` on a non-dict fails |
| SchemaParser.ParseParameters | backend/api_tester/schema_parser.py:29-45 | the loop appends one parameter record per parameter object, in order, and raises the first error any of them raises |
| SchemaParser.ParseRequestBody | backend/api_tester/schema_parser.py:47-55 | no `requestBody` gives None; otherwise the `application/json` schema of its content when present, and None only when there is no `application/json` entry |
| SchemaParser.JsonSchemaOf | backend/api_tester/schema_parser.py:53-55 | the `schema` of the `application/json` entry when present; None only when the entry is absent |
| SchemaParser.ParseResponseSchema | backend/api_tester/schema_parser.py:57-64 | only response `200` is consulted: its `application/json` schema when present, None when absent |
| SchemaParser.OkResponseSchema | backend/api_tester/schema_parser.py:60-64 | the `application/json` schema of response `200`, None when that response or entry is missing |
| SchemaParser.AsOptionalDict | backend/api_tester/schema_parser.py:16-17 | an `Optional[Dict]` field accepts exactly a missing value, None or a dict, and keeps the dict |
| SchemaParser.EndpointFor | backend/api_tester/schema_parser.py:76-87 | a record carries the path, the upper-cased method and the parameters `parse_parameters` gives for that method; a request body it holds is the dict at `requestBody.content.application/json.schema` and a response schema the dict at `responses.200.content.application/json.schema`; an operation with no `requestBody` (no `responses`) key gets `None` there |
| SchemaParser.EndpointStep | backend/api_tester/schema_parser.py:76-87 | the body of the inner loop builds the record `EndpointFor` specifies |
| SchemaParser.ParseEndpoints | backend/api_tester/schema_parser.py:66-89 | the two loops give the records of the document's paths in order, each path's present methods in the order get, post, put, delete, patch, and stop at the first error |
| SchemaParser.ParsePath | backend/api_tester/schema_parser.py:72-87 | the inner loop gives the records of one path's present methods, in order |
| SchemaParser.PathEndpointsSnoc | backend/api_tester/schema_parser.py:72-74 | one more method is skipped when absent and appended as a record when present |
| SchemaParser.PathEndpointsPrefixError | backend/api_tester/schema_parser.py:72-87 | an error raised for an early method is the error of the whole path |
| SchemaParser.EndpointsOfSnoc | backend/api_tester/schema_parser.py:71 | one more path appends its records after those of the paths before it |
| SchemaParser.EndpointsOfPrefixError | backend/api_tester/schema_parser.py:71-87 | an error raised for an early path is the error of the whole document |
| SchemaParser.PathEndpointsShape | backend/api_tester/schema_parser.py:72-87 | a path yields one record per present method, in order, each with the path and the upper-cased method, and each exactly the record `EndpointFor` builds for that method |
| SchemaParser.PresentMethodsFrom | backend/api_tester/schema_parser.py:72 | every record's method is one of the five that are tried |
| SchemaParser.NoMethodsNoEndpoints | backend/api_tester/schema_parser.py:73-74 | a path item with none of the five methods contributes no record |
| SchemaParser.EndpointsCount | backend/api_tester/schema_parser.py:71-89 | the number of records is the number of present (path, method) pairs |
| PyDataGenerator.KeyKindOfSuffix | backend/api_tester/data_generator.py:70-93 | a cache key ends in the suffix of its kind and reading the suffix back gives that kind, so keys for different kinds at one path never collide |
| PyDataGenerator.NotSuffix | backend/api_tester/data_generator.py:71-92 | two suffixes that differ at some position from the end cannot both end one key |
| PyDataGenerator.SuffixEnds | backend/api_tester/data_generator.py:71-92 | a key built as `f"{path}_<suffix>"` ends in that suffix |
| PyDataGenerator.Draw | backend/api_tester/data_generator.py:71-93 | the library call behind each kind returns a value of that kind's shape: a string with `@`, an ISO date, a timestamp with a `T`, a UUID, a string for `uri` and `string`, an integer in 1..1000, a number in 1..1000, a boolean |
| PyDataGenerator.FakerEmail | backend/api_tester/data_generator.py:71 | `faker.email` gives a string with an `@` |
| PyDataGenerator.FakerDate | backend/api_tester/data_generator.py:73-74 | an ISO calendar date |
| PyDataGenerator.FakerDateTime | backend/api_tester/data_generator.py:76-77 | `faker.date_time().isoformat()` gives an ISO timestamp with a `T` |
| PyDataGenerator.Uuid4 | backend/api_tester/data_generator.py:79-80 | `str(uuid.uuid4())` is a canonical version 4 UUID |
| PyDataGenerator.PrimitiveKind | backend/api_tester/data_generator.py:70-95 | the format is tested before the type: each of `email`, `date`, `date-time`, `uuid`, `uri` selects its kind whatever the type; otherwise `string`, `integer`, `number`, `boolean` select theirs; no kind (and so `None`) exactly when neither names a generator |
| PyDataGenerator.ChildPath | backend/api_tester/data_generator.py:45 | the child path is the property name alone under the root and `path.name` below it |
| PyDataGenerator.ItemPath | backend/api_tester/data_generator.py:63 | the item path is the path followed by the index in decimal between brackets |
| PyDataGenerator.SetKey | backend/api_tester/data_generator.py:51 | `result[k] = v` makes `k` a key, keeps the existing keys in order and appends a new one at the end |
| PyDataGenerator.KeyIndex | backend/api_tester/data_generator.py:51 | the first entry holding a key, which assignment overwrites |
| PyDataGenerator.RequiredPresentStep | backend/api_tester/data_generator.py:44-51 | a pass of the object loop that keeps the earlier keys and sets a required property keeps every required property present |
| PyDataGenerator.PyDataGenerator.constructor | backend/api_tester/data_generator.py:9-11 | the factory starts with an empty cache |
| PyDataGenerator.PyDataGenerator.GetCachedValue | backend/api_tester/data_generator.py:13-17 | a cached key returns its value and calls nothing; a missing key calls the generator once and stores its value |
| PyDataGenerator.PyDataGenerator.GeneratePrimitive | backend/api_tester/data_generator.py:67-95 | the corrected generator: a value of the selected kind stored under `path + suffix`; the cached one, with the cache and the generator-call count unchanged, when present; otherwise exactly that one entry is added and the generator is called once; `None` with the cache untouched when no kind applies |
| PyDataGenerator.PyDataGenerator.GeneratePrimitiveAsWritten | backend/api_tester/data_generator.py:72-74 | as written, an uncached `date` field raises AttributeError and stores nothing; every other kind succeeds |
| PyDataGenerator.PyDataGenerator.RepeatedPrimitiveAgrees | backend/api_tester/data_generator.py:13-17 | two requests for the same primitive at the same path give the same value, because the cache key is built from the path (line 69) |
| PyDataGenerator.PyDataGenerator.GenerateData | backend/api_tester/data_generator.py:19-36 | over the corrected primitive generator of "## Findings" (as written, a `date` field raises): a non-dict schema raises, `$ref` gives the placeholder, and otherwise the value conforms to the schema; a supported schema never raises; cached values are kept |
| PyDataGenerator.PyDataGenerator.GenerateObject | backend/api_tester/data_generator.py:38-53 | over the corrected primitive generator of "## Findings": the keys are declared properties, every required one is present, each value conforms; a non-dict `properties` raises |
| PyDataGenerator.PyDataGenerator.GenerateProperty | backend/api_tester/data_generator.py:45-51 | one pass of the loop keeps the earlier keys, sets a required property, and raises when `required` does not support `in` |
| PyDataGenerator.PyDataGenerator.GenerateArray | backend/api_tester/data_generator.py:55-65 | over the corrected primitive generator of "## Findings": the length lies in [minItems, maxItems] (1 and 5 by default) and every item conforms to `items`; bounds out of order raise randint's ValueError |
| PyDataGenerator.SetKeyFits | backend/api_tester/data_generator.py:51 | setting a declared property to a conforming value keeps every entry declared and conforming |
| PyDataGenerator.SetKeyMembers | backend/api_tester/data_generator.py:51 | after `result[k] = v` every entry is the new one or an old one |
| PyDataGenerator.EmptySchemaGivesEmptyObject | backend/api_tester/data_generator.py:57 | the default `items` schema `{}` admits only `{}` |
| PyJson.Keys | backend/api_tester/schema_parser.py:71 | the keys of a dict in insertion order, one per entry |
| PyJson.Lookup | backend/api_tester/schema_parser.py:76 | `d[k]` finds a value exactly when `k` is a key, and the value is stored under it |
| PyJson.LookupSmaller | backend/api_tester/data_generator.py:51 | a value found in a dict is smaller than the dict |
| PyJson.GetOr | backend/api_tester/schema_parser.py:34 | `d.get(k, default)` is the stored value for a key and the default otherwise |
| PyJson.Subscript | backend/api_tester/schema_parser.py:38-42 | `x[k]` succeeds exactly on a dict holding `k`; a missing key raises KeyError naming it |
| PyJson.DictGet | backend/api_tester/schema_parser.py:52 | `x.get(k, default)` succeeds exactly on a dict |
| PyJson.Contains | backend/api_tester/data_generator.py:48 | `k in x` is a key test on a dict, a membership test on a list, a substring test on a string, and TypeError otherwise |
| PyJson.AtCons | backend/api_tester/schema_parser.py:61-63 | following a key path starts with one dict lookup |
| PyJson.AtAppend | backend/api_tester/schema_parser.py:61-63 | following one key path and then another is following their concatenation |
| UserSchemas.Span | schemas.py:10 | how far a greedy character-class run reaches: every character before it is in the class and the next one is not |
| UserSchemas.SpanUnique | schemas.py:10 | a run that stops at a character outside the class is the greedy one |
| UserSchemas.ScanSound | schemas.py:10 | an address the greedy scan accepts splits into local part, `@`, domain, dot and tail of the pattern's classes |
| UserSchemas.ScanComplete | schemas.py:10 | any split of the pattern's shape is the one the scan finds, so the scan accepts it |
| UserSchemas.ScanMatchesLanguage | schemas.py:10 | the scan accepts exactly the strings the pattern denotes |
| UserSchemas.MatchesIsEmail | schemas.py:10-11 | `email_pattern.match(email)` succeeds exactly for the pattern's strings, optionally followed by one line break, as Python's `$` reads |
| UserSchemas.AcceptedShape | schemas.py:10 | an accepted address holds exactly one `@` |
| UserSchemas.ShapedHasNoBreak | schemas.py:10 | no class of the pattern holds a line break |
| UserSchemas.AcceptedLineBreaks | schemas.py:10-11 | an accepted address has no line break except possibly as its last character |
| UserSchemas.ScanEndsInTail | schemas.py:10 | an address the scan accepts ends in a character of the tail's class |
| UserSchemas.TrailingLineBreakAccepted | schemas.py:10-11 | one trailing line break after an accepted address is accepted, two are not |
| UserSchemas.Examples | schemas.py:10-12 | `a@b.c` and `a@b.c\n` are accepted; `a@bc`, `@b.c` and `a@.c` are rejected |
| UserSchemas.ValidateEmail | schemas.py:8-13 | the address is returned exactly when the pattern matches it; otherwise `ValueError("Invalid email: <email>")` |
| UserSchemas.NewUserBase | schemas.py:16-22 | a `UserBase` is built exactly when its email validates, and otherwise the validation error is raised |
| UserSchemas.NewUserCreate | schemas.py:25-27 | a `UserCreate` runs the inherited check: built exactly when the email validates, with the same error otherwise |
| UserSchemas.ConstructedUsersHaveEmails | schemas.py:21-22 | every constructed user carries an address of the pattern's shape |
| UserSchemas.ToDictShape | schemas.py:159-162 | the same keys in the same order, every `datetime` replaced by its text, every other value kept |
| UserSchemas.ToDictIdempotent | schemas.py:161 | a dict without `datetime` values is returned unchanged, so converting twice is converting once |
| UserSchemas.Items | schemas.py:131-141 | `__dict__.items()` of a `TestResult` lists its ten fields in declaration order |
| UserSchemas.TestResultToDictValues | schemas.py:131-162 | `to_dict` turns the start time into its text and the end time into its text or `None`, and keeps the eight integer fields |
| InteractionModes.Initial | src/components/InteractionModes.tsx:11-17 | the first render has no history, cursor -1, the three welcome lines and nothing passed on |
| InteractionModes.CommandHandled | src/components/InteractionModes.tsx:47-52 | `handleCommand` appends the command to the history, resets the cursor to -1, prints `$ command` and an empty line and passes the command on |
| InteractionModes.KeyKeepsValid | src/components/InteractionModes.tsx:54-79 | every key keeps the cursor within -1 .. history length - 1, and the history and the commands passed on grow together |
| InteractionModes.EnterRecords | src/components/InteractionModes.tsx:55-60 | Enter on a blank input changes nothing; otherwise the trimmed command is recorded, printed and passed on and the box cleared |
| InteractionModes.ArrowsOnlyMoveCursor | src/components/InteractionModes.tsx:61-78 | the arrows never change the history, the output or the commands passed on |
| InteractionModes.ArrowsShowRecalled | src/components/InteractionModes.tsx:61-78 | ArrowUp moves one step back unless at the oldest command, ArrowDown one step forward, to an empty box from the newest, and nothing when not browsing; the box shows the entry the cursor lands on |
| InteractionModes.UpPresses | src/components/InteractionModes.tsx:61-67 | repeated ArrowUp presses keep the cursor in range |
| InteractionModes.UpPressesRecall | src/components/InteractionModes.tsx:61-67 | from a fresh cursor the k-th ArrowUp shows the k-th newest command, and presses beyond the oldest change nothing |
| InteractionModes.DownUndoesUp | src/components/InteractionModes.tsx:61-78 | ArrowDown after an ArrowUp that moved the cursor restores the cursor and the box |
| InteractionModes.UpAfterEnterShowsLast | src/components/InteractionModes.tsx:55-67 | right after a command is entered ArrowUp shows it |
| InteractionModes.CommandLine.constructor | src/components/InteractionModes.tsx:11-17 | the component starts in the first render's state |
| InteractionModes.CommandLine.Type | src/components/InteractionModes.tsx:56 | editing the box changes only its value |
| InteractionModes.CommandLine.HandleCommand | src/components/InteractionModes.tsx:47-52 | the state after `handleCommand` is the one `CommandHandled` describes |
| InteractionModes.CommandLine.HandleKeyDown | src/components/InteractionModes.tsx:54-79 | the state after a key is the one `OnKey` describes, and the cursor stays in range |
| TestForm.Initial | src/components/TestForm.tsx:22-32 | the first render has no headers in either record and empty header inputs |
| TestForm.Submit | src/components/TestForm.tsx:76-84 | an empty URL is rejected with `Please enter a valid URL`; any other URL submits the configuration as it stands |
| TestForm.HandlersKeepInSync | src/components/TestForm.tsx:34-74 | every handler keeps the configuration's headers and the displayed headers equal |
| TestForm.AddBlankHeaderIgnored | src/components/TestForm.tsx:55 | a header name that is blank after trimming changes nothing |
| TestForm.AddHeaderSets | src/components/TestForm.tsx:54-63 | a named header is set to the typed value under the untrimmed name, other headers and the rest of the configuration are kept, and the inputs are cleared |
| TestForm.RemoveHeaderDeletes | src/components/TestForm.tsx:65-74 | removal takes out exactly the given name from both records and keeps the other headers |
| TestForm.AddThenRemove | src/components/TestForm.tsx:54-74 | adding a new header and removing it again restores both records |
| TestForm.RunKeepsInSync | src/components/TestForm.tsx:22-74 | from the first render, any sequence of handler calls keeps the two header records equal |
| TestConfigModal.Initial | src/components/TestConfigModal.tsx:19-26 | the first render holds one `GET /users` endpoint, 50 workers, 30 seconds, the interleaved pattern and a rate limit of 100 |
| TestConfigModal.AddEndpoint | src/components/TestConfigModal.tsx:30-32 | the list grows by one blank `GET` endpoint at the end and keeps the others |
| TestConfigModal.ChangeEndpointOnly | src/components/TestConfigModal.tsx:34-38 | a change replaces one field of one entry; every other entry and field, the headers included, is kept |
| TestConfigModal.RemoveEndpointSlices | src/components/TestConfigModal.tsx:40-42 | the filter drops exactly the entry at `index` and keeps the others in order; an index outside the list drops nothing |
| TestConfigModal.RemoveEndpointLength | src/components/TestConfigModal.tsx:40-42 | removal shortens the list by one, entries before `index` stay and later ones move up one place |
| TestConfigModal.NeverEmpty | src/components/TestConfigModal.tsx:24-42 | since Remove is rendered only while there is more than one endpoint, the list is never empty (the Remove button's guard is at line 182) |
| TestConfigModal.SubmittedDuration | src/components/TestConfigModal.tsx:48 | the duration is sent as its decimal text followed by `s`, and its digits read back give the duration |
| TestConfigModal.SubmittedFields | src/components/TestConfigModal.tsx:50-57 | the other fields of the request are the modal's target URL, workers, pattern, rate limit and endpoints |
| ReportExport.Fields | src/services/ReportExportService.ts:16-23 | a row has six cells, in column order |
| ReportExport.RowTexts | src/services/ReportExportService.ts:15-23 | one row per raw request metric, in input order |
| ReportExport.ExportAsCsv | src/services/ReportExportService.ts:10-29 | the loop's text is the header line followed by each metric's row and a line break, in order |
| ReportExport.RowTextsStep | src/services/ReportExportService.ts:25 | one more metric appends its row and a line break |
| ReportExport.CsvStartsWithHeader | src/services/ReportExportService.ts:12 | the export begins with exactly the header line |
| ReportExport.LinesConcat | src/services/ReportExportService.ts:15-26 | the lines of two row lists are the lines of the first followed by those of the second |
| ReportExport.CsvConcat | src/services/ReportExportService.ts:15-26 | the export of `a + b` is that of `a` followed by the lines of `b`'s rows |
| ReportExport.CsvSingle | src/services/ReportExportService.ts:12-26 | a single metric gives the header, its row and a line break |
| ReportExport.CsvEndsWithNewline | src/services/ReportExportService.ts:12-25 | the export never ends in the middle of a line |
| ReportExport.JoinCountChar | src/services/ReportExportService.ts:23 | joining with a one-character separator adds exactly one separator between neighbouring parts |
| ReportExport.RowSeparators | src/services/ReportExportService.ts:16-23 | cells are neither quoted nor escaped: a row holds five separating commas beyond those of its cells and no line break beyond theirs |
| ReportExport.JoinOpens | src/services/ReportExportService.ts:23 | a join of two or more parts opens with the first part and the separator |
| ReportExport.RowBeginsWithEndpoint | src/services/ReportExportService.ts:17-23 | the endpoint cell opens the row verbatim, followed by a comma |
| ReportExport.LinesBreaks | src/services/ReportExportService.ts:25 | each row adds one line break of its own |
| ReportExport.CharsInNone | src/services/ReportExportService.ts:16-23 | cells without a character give rows without it |
| ReportExport.HeaderBreaks | src/services/ReportExportService.ts:12 | the header holds one line break |
| ReportExport.CsvLineBreaks | src/services/ReportExportService.ts:10-29 | the line breaks are the header's, one per metric and those inside cells |
| ReportExport.CsvLineCount | src/services/ReportExportService.ts:10-29 | with no line break in any cell, n metrics give exactly n + 1 lines |
| Text.NatToStringRoundTrip | src/components/TestConfigModal.tsx:48 | reading back the decimal digits of a number gives the number |
| Text.IntToString | src/components/TestConfigModal.tsx:48 | an integer's decimal text, with a minus sign for a negative one |
| Text.IntToStringInjective | src/services/ReportExportService.ts:19 | distinct integers render differently |
| Text.BoolToString | src/services/ReportExportService.ts:22 | a boolean renders as `true` or `false`, `true` exactly for true |
| Text.Trim | src/components/InteractionModes.tsx:56 | `trim()` is the slice of the input between a white-space prefix and a white-space suffix; it is empty exactly for an all-white-space string and otherwise neither starts nor ends with white space |
| Text.Join | src/services/ReportExportService.ts:23 | joining no parts gives the empty string and one part gives that part |
| Text.JoinAppend | src/services/ReportExportService.ts:23 | one more part is appended after the separator |
| Text.ToUpper | backend/api_tester/schema_parser.py:83 | upper-casing keeps the length and upper-cases each ASCII letter |
| Text.BeforeFirst | src/lib/generators/StringGenerator.ts:22 | `split(c)[0]` is the longest prefix without `c`, ended by `c` or by the end of the text |
| Text.StripTrailingSlashes | backend/api_tester/schema_parser.py:25 | `rstrip('/')` drops every trailing slash and nothing else |

## Left out

- I/O and frameworks. HTTP requests (`fetch`, `httpx`) are oracles: their outcomes and latencies are arguments. Clock readings (`Date.now()`, `datetime.utcnow()`) are parameters. The FastAPI, Express and React wiring, the toasts and navigation are not modelled.
- Concurrency. The asyncio tasks, `gather` and sleeps of `load_tester.py` are replaced by a given order of completion. The same goes for `Promise.allSettled`, the `setTimeout` rescheduling of `runBatch` and `AbortController` timing in `testService.ts`.
- The `runTest` catch path (`src/utils/testService.ts:74-82`) is not modelled, because no modelled step can reach it. `crypto.randomUUID()` runs before the `try` begins. Inside it, each `makeRequest` catches its own errors, and `Promise.allSettled` absorbs any rejection that escapes (an `activeTest` cleared during a pending fetch).
- `TestService.getInstance` is not modelled. The singleton is one `TestService` object.
- The wall-clock loop of `loadTest.js:39-51` is not modelled. `LoadTest.Run` replays a given list of attempts.
- Floating point. Response times, averages and rates are exact reals. `toFixed`, `round(..., 2)` and `faker.number.float`'s binary rounding are not modelled. The precision 0.01 is modelled as exact hundredths.
- numpy. `np.mean` is an exact mean. `np.percentile` (`app/services/metrics_service.py:53-55`) and its interpolation are not modelled.
- MetricsService.FinalizeTestRun: for a run with no points, the model raises the error of `max()`. The unmodelled `np.percentile` call comes earlier in the source and may raise first.
- LoadTesting.ReportOf: `int(n * 0.95)` over a binary float is modelled as `floor(n * 95 / 100)`. For some `n` the float product rounds differently.
- Faker, uuid and `cachetools.TTLCache`. Generated values are nondeterministic strings of the shape the code relies on, not the libraries' algorithms. The TTL cache is an unbounded map, with no expiry after an hour and no eviction past 1000 entries.
- Pydantic coercion. `EndpointParameter` and `EndpointInfo` fields accept exactly the JSON kinds they declare. Pydantic's lax coercions (for example `"yes"` to `True`) are not modelled.
- JSON objects. Object keys are a list in document order with first-match lookup. Duplicate keys, which a JSON decoder would merge, are not modelled.
- RequestData.RequestDataGenerator.GenerateRequestData: a cache hit is not claimed to match the asked-for endpoint's path. The key `method-path` can collide (method `A` with path `B-C` and method `A-B` with path `C`).
- PyDataGenerator.PyDataGenerator.GenerateArray: in the model, any `minItems` or `maxItems` that is not a JSON integer makes `random.randint` raise `TypeError`. Python also accepts booleans there, and integral floats before Python 3.12.
- TestRunner.TickAverage: its own contract states only when the average is a number. That it is the exact running mean is the content of `TestRunner.TickMean` and `TestRunner.TickKeepsMean`.
- ErrorDistributionChart.ErrorCodesDataOrdered: the order among codes with equal counts is not stated. It follows the stable sort over ascending codes.
- Rendering. These are parameters of the model:
  - JavaScript's rendering of a fractional number;
  - `Date.prototype.toISOString`;
  - `toLocaleString`;
  - Python's `str(datetime)`.
- Other exports and reporting. Pandas CSV and JSON rendering in `MetricsService.generate_report` is not modelled; only its format check is. Also not modelled:
  - `exportAsJSON` (`JSON.stringify`);
  - `generateReportSummary`;
  - the download helpers;
  - `generate_visualizations` (Plotly);
  - `record_metric` and the database session.
- OpenApi.OpenApiParser.GetEndpoints: the modelled document always has a `paths` list. A document with no `paths` key, on which `Object.entries(this.spec.paths)` (`src/lib/OpenAPIParser.ts:38`) throws a `TypeError`, is not represented; OpenAPI and the parser's type both require the key.
- RequestData.GenerateParameters: for two parameters with the same name, the model says only that the value fits one of them; the source's last write wins.
- Generators.GenerateObject / RequestData.GenerateParameters: the generated object is a map, so a property or parameter named `__proto__` becomes an own key. In the source, `result[key] = …` (`src/lib/generators/ObjectGenerator.ts:20`) and `parameters[param.name] = …` (`src/lib/RequestDataGenerator.ts:41`) on a plain `{}` call the prototype setter instead, and no such key is created. `RequestData.RequestDataGenerator.GenerateRequestData` inherits this.
- ResponseTimeChart.GroupByEndpoint: a JavaScript object literal is modelled as a map with no inherited keys. In the source, an endpoint named like an `Object.prototype` member (`constructor`, `__proto__`) finds an inherited value, so `.push` throws a `TypeError`; the model groups it like any other endpoint.
- MockData.GroupByEndpoint: the same map model. In the source, an endpoint named `__proto__` or `constructor` writes to the prototype chain and never appears in `Object.entries`; the model lists it. The mock endpoints are fixed `/api/...` paths, so only foreign data can hit this.
- Object entry order. `Object.entries` lists small integer keys (the status codes of `ErrorDistributionChart`) in ascending order, and the model follows that. It lists other keys (endpoints, millisecond bucket keys) in insertion order, and the model follows that too. Key orders beyond these two rules are not modelled.
- `MockDataService.generateSystemMetrics` (a `Math.exp` curve), `generateMockTestResult` and `getTestHistoryMock` are not modelled. They only assemble random display data.
- InteractionModes: the `console.log` capture and `handleModeChange` are not modelled. They are display and focus effects.
- TestForm: the setters for method, user count, duration and body are not modelled. They are one-field record updates. The order in which headers are displayed is not modelled either.
- TestForm.Submit: the toasts, the loading flag and the `simulateTest` call after a valid URL are not modelled.
- TestConfigModal.ChangeEndpointOnly: it requires a rendered index. The handler is only reachable from a rendered entry, and an index past the end (which JavaScript would fill as a sparse slot) is not modelled.
- TestConfigModal: the setters for target URL, workers, duration, pattern and rate limit are not modelled. The `runTest` request and its toasts are not modelled; only the request's fields are.

## Findings

| source | as written | input that shows it | evidently intended | confidence | as-written member | corrected member |
|---|---|---|---|---|---|---|
| backend/api_tester/data_generator.py:72-74 | the `date` generator calls `.isoformat()` on `faker.date()`, which already returns a `str` | a schema `{"type": "string", "format": "date"}` at an uncached path: `AttributeError` | an ISO calendar date `YYYY-MM-DD`, cached under `path_date` | not executed | PyDataGenerator.PyDataGenerator.GeneratePrimitiveAsWritten | PyDataGenerator.PyDataGenerator.GeneratePrimitive |
