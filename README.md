# Stream event processor: verified model

A Dafny model of `ddb_eventprocessor.js`, an AWS Lambda function that reads a batch
of Kinesis records carrying tweets, turns each one into a row
`{Username, Timestamp, Message}`, and writes the rows to a DynamoDB table with
`batchWrite`, retrying the items DynamoDB reports as unprocessed with
exponential backoff.

Modules:

- `Backoff` (backoff.dfy): the delay before a retry, `min(2^retries * 100, remaining - 200)`.
- `Timestamp` (timestamp.dfy): the rewrite `replace(/( \+)/, ' UTC$1')`, which inserts
  " UTC" before the first " +" of `created_at`.
- `Rows` (rows.dfy): tweets, rows, PutRequests and the table-keyed request map.
- `Driver` (driver.dfy): `writeItems`. `Drive` is the run of the recursive retry chain
  against a sequence of attempts (one backend response and one remaining-time reading
  per call), recording each submission, each delay and the final report.
  `WriteItems` is the same chain as a loop, proved equal to `Drive`.
- `Processor` (processor.dfy): `exports.handler` and `handleEvent`. The class
  `EventProcessor` holds the module-level `config` cache as an optional field.

Behaviour the code does not have, although a reader might expect it:

- There is no deadline guard. With less than 200 ms left the delay is negative and the
  retry is still scheduled (`Backoff.NegativeDelayWhenLate`).
- An empty request is still submitted. Nothing short-circuits it (`Driver.DriveShape`:
  the first submission is always the caller's map).
- The rewrite does not reject a timestamp without " +". It passes it on unchanged
  (`Timestamp.InsertUtc`). Only the date parse that follows can reject it.
- There is no cap on attempts. But the retry drops `context`, so as written a run makes
  at most two calls (see Findings).

## Model

| member | source | states |
|---|---|---|
| Backoff.Delay | ddb_eventprocessor.js:90 | the delay is at most `2^retries * 100`, at most `remaining - 200`, and equal to one of the two (their minimum) |
| Backoff.ExactBackoff | ddb_eventprocessor.js:90 | when `remaining - 200 >= 2^retries * 100` the delay is exactly `100 * 2^retries` |
| Backoff.BackoffDoubles | ddb_eventprocessor.js:90-91 | when neither delay is capped, the delay for `retries + 1` is twice that for `retries` |
| Backoff.NegativeDelayWhenLate | ddb_eventprocessor.js:90 | with under 200 ms left the delay is negative: no guard exists |
| Timestamp.FindSpacePlus | ddb_eventprocessor.js:69 | the match of `/( \+)/` is the first index where a space is followed by a plus; none means no such index exists |
| Rows.ToItem | ddb_eventprocessor.js:65-71 | a row exists exactly when `created_at`, with " UTC" inserted before its first " +" (or unchanged when it has none), renders as a date, and its Timestamp is that rendering; its Username is `user.name` and its Message is `text` |
| Timestamp.InsertUtc | ddb_eventprocessor.js:69 | with no " +" the string is unchanged; otherwise " UTC" is inserted right before the first " +", with prefix and suffix unchanged |
| Driver.Drive | ddb_eventprocessor.js:81-98 | the run of the retry chain against the given attempts; every run starts by submitting the caller's map with the caller's counter, even an empty map |
| Driver.Settle | ddb_eventprocessor.js:84-94 | the callback retries exactly when it has a context and the unprocessed map is non-empty; it succeeds exactly on an empty map, fails with the backend's error exactly on a call error, and loses the report whenever the context is missing |
| Driver.DriveShape | ddb_eventprocessor.js:81-98 | every run submits the caller's map first with the caller's counter (even an empty map), makes one delay between two calls, makes at most one call per attempt plus one, and is pending exactly when the attempts ran out |
| Driver.DriveStep | ddb_eventprocessor.js:82-91 | call k carries counter `retries + k`; if a call follows, attempt k settled as "retry", the next call submits exactly attempt k's unprocessed map, and the delay is the backoff for call k; a final answered call's callback decides the report |
| Driver.CallErrorEndsDriver | ddb_eventprocessor.js:84-86 | a call-level error at call k ends the run there: k+1 submissions, k delays, report `fail(err)` (or context lost on a retried call) |
| Driver.EmptyUnprocessedEndsDriver | ddb_eventprocessor.js:88-94 | an empty unprocessed map at call k ends the run there with `succeed` (or context lost on a retried call), nothing further scheduled |
| Driver.RetryCarriesOnlyUnprocessed | ddb_eventprocessor.js:88-91 | a non-empty unprocessed map at a call with its context causes exactly one further call, submitting exactly that map with `retries + 1`, after the backoff delay |
| Driver.WriteItems | ddb_eventprocessor.js:81-98 | the loop form of the retry chain, with the retry dropping `context`, produces exactly the run `Drive` describes |
| Driver.AsWrittenAtMostOneRetry | ddb_eventprocessor.js:91 | as written a run makes at most two calls, and a run with two calls never reports success or failure |
| Driver.RetryLosesContext | ddb_eventprocessor.js:91 | a partial failure followed by an accepted retry ends in a lost context as written, and in success when the retry passes the context on |
| Driver.IntendedConverges | ddb_eventprocessor.js:81-98 | when the retry passes the context on and the backend eventually returns an empty map with no call error before, the run succeeds after at most that many calls |
| Driver.IntendedBackoffExact | ddb_eventprocessor.js:90-91 | when the retry passes the context on and time is ample, retry k waits `100 * 2^(retries+k)` ms, twice the wait before it |
| Processor.EventProcessor.constructor | ddb_eventprocessor.js:21 | a fresh process starts with no cached configuration |
| Processor.EventProcessor.HandleEvent | ddb_eventprocessor.js:43-79 | without a configuration item the handler throws; a record whose date cannot be rendered aborts the whole batch at the first such record, before any write; otherwise one PutRequest per record, in record order, all under the single configured table name (the key "undefined" when the config has no `EventDataTable`), handed to the driver with counter 0 and the caller's context |
| Processor.EventProcessor.Handler | ddb_eventprocessor.js:23-41 | the configuration is fetched exactly when none is cached; a cached one is kept and used; a failed lookup reports `fail` and leaves the cache empty; a successful one caches the item and handles the event |
| Processor.ColdThenWarm | ddb_eventprocessor.js:24-37 | after a first invocation whose lookup returns an item, the next invocation does not fetch and uses the cached item |
| Processor.FailedFetchRetried | ddb_eventprocessor.js:31-36 | a lookup that fails or returns no item leaves the cache empty, so the next invocation fetches again |

## Findings

| source | as written | input that shows it | evidently intended | confidence | as-written member | corrected member |
|---|---|---|---|---|---|---|
| ddb_eventprocessor.js:91 | the retry calls `writeItems(data.UnprocessedItems, retries + 1)` without `context`, so its callback throws on `context.fail`, `context.succeed` or `context.getRemainingTimeInMillis` | first `batchWrite` returns a non-empty `UnprocessedItems`, the retried one returns an empty map | pass `context` to the retry, so the run reports success and further retries keep backing off | high, not executed | Driver.RetryLosesContext | Driver.IntendedConverges |

`Driver.AsWrittenAtMostOneRetry` shows the general consequence: as written, a run never
gets past its first retry. `Drive` with `PassesContext` is the corrected driver.
`Driver.IntendedConverges` and `Driver.IntendedBackoffExact` are proved about it.
`Processor` keeps the as-written driver (`WriteItems`), because it models the handler
as deployed.

## Left out

- The DynamoDB `DocumentClient` (`doc.get`, `doc.batchWrite`): network calls, replaced by the inputs `Fetch` and `Attempt.response`.
- Base64 decoding and `JSON.parse` of each record: library calls; the decoded fields `user.name`, `created_at` and `text` are the input `Tweet`. Malformed records, which throw there, are not modelled.
- `new Date(...).toISOString()`: JavaScript date parsing and printing, passed in as the function `render`. It gives an ISO-8601 string, or nothing where `toISOString` throws a RangeError. The model records that such a date aborts the batch before any write (`DateRejected`). It does not model which strings JavaScript accepts as dates, or what the runtime does with the uncaught exception.
- `setTimeout` and the asynchronous ordering of callbacks: the delay is recorded in the trace, not waited for; the timer's clamping of negative delays is not modelled.
- The Lambda `context`: only `succeed`, `fail` (the reports) and `getRemainingTimeInMillis` (the reading in each `Attempt`) are modelled. What the runtime does with the thrown TypeError is summarised as the report `ContextLost`.
- `console.log` output.
- Backoff.Delay: `Math.pow` works on doubles and overflows beyond 2^1023; the model uses unbounded integers.
- Concurrent invocations racing on the configuration cache: one invocation runs at a time here.
