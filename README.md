# Query dispatch, classification and summary of a query-service load tester

This project models the core of a load tester that sends read queries to a
query service and reports on them. The model covers these parts:

- **One query** (`Query`, from `run_query`). The model decides whether results
  are dropped and builds the HTTP request: either a lambda call or an ad-hoc SQL
  query. Under drop-results it rewrites the SQL. It classifies the response as
  `success`, `error`, `timeout`, `exhausted` or `invalid`, and for a success it
  derives the round-trip, server, queued, query and network times and the row
  count.
- **A query set** (`Dispatch`, from the serial and parallel executors and the
  older `run_queryset`). The parallel executors run every query; the serial
  one stops at the first query whose request cannot be built. Each result is
  written back at `query_num - 1`, so the output follows the query set's order
  whatever order the worker pool finishes in.
- **The summary** (`Summaries`, from `summarize_qs_results`). The latency sums
  cover successful queries only. There is one warning per error, timeout,
  exhausted query or success with no rows, and the set is `clean` when there
  are no warnings.
- **The run controller** (`RunControl`, from `testModes.py`). It selects the
  executor from `execution_mode`, masks the API key once the dispatch has
  returned, summarises, and then hands the results and the summary to the
  display and log collaborators. The requests each run sends are recorded in
  order, so the model shows that they carry the key as it was before masking.
  It also holds the protocol stripping of the
  server address done by the older `load_config`.

Both copies of the logic are modelled: the current one in `executors.py` and
`testModes.py`, and the older one in `rsload.py`. The query runner is written
once with a `Variant` parameter. In behaviour the copies differ in the default
name (`unnamed` against `(unnamed)`) and in the 429 branch. The two
summarisers differ in which results they warn on, and only the current one
has a `clean` field. The dictionary keys the copies write also differ; the
model names fields once and does not model the key spellings.

Inputs that come from outside the program are parameters:

- each query's HTTP exchange: the status, reason, text, `elapsed_time_ms`,
  `throttled_time_micros` and the length of `results`, plus the measured
  round trip in whole milliseconds;
- the order in which the worker pool finishes its tasks.

Python exceptions become `Raised(fault)` values. Only these paths raise:

- an empty lambda path (`qlURL[0]`);
- drop-results on blank SQL (`baseQuery[-1]`);
- an empty query set (`Pool(processes=0)`);
- a legacy query set without a name;
- summarising the `None` that an unknown mode returns;
- an executor handed the `queries` shape it does not read (`QuerySetShape`),
  which only the as-written reading `RunControl.QueriesAsWritten` produces.

Python's `round` applied to `x/1000` is `Common.RoundThousandths`: exact
rounding of the integer quotient, with ties going to the even integer.

Behaviour of the code worth noting:

- `query_ms` is `round(server_ms - throttled_micros/1000)`, rounded on its own.
  It is not `server_ms - queued_ms`, so query plus queued time can differ from
  the server time by one millisecond (`Query.QueryPlusQueuedNearServer`,
  `Query.QueryPlusQueuedMissesByOne`).
- A query that has both a lambda and SQL is not rejected: the lambda wins.
- `IterationsTestMode.run` runs exactly one cycle. The code has no loop.
- Masking the key is idempotent only for keys of four or more characters
  (`RunControl.MaskIdempotentIff`).

## Model

| member | source | states |
|---|---|---|
| `Common.RoundThousandths` | executors.py:88 | Python's `round(n/1000)`: the result is within half a unit of n/1000, and a tie goes to the even integer |
| `Common.RoundThousandthsUnique` | executors.py:88 | any integer strictly closer than half a unit to n/1000 is the rounded value |
| `Common.RoundThousandthsExact` | executors.py:88 | a whole number of thousandths rounds to itself |
| `Common.RStrip` | executors.py:51 | `str.rstrip()`: the result is a prefix, everything removed is whitespace, and the result does not end in whitespace |
| `Common.RStripEmptyIff` | executors.py:51-52 | stripping leaves nothing exactly when the text is all whitespace |
| `Common.RStripAppended` | executors.py:51 | whitespace appended to text that does not end in whitespace is exactly what stripping removes |
| `Query.DefaultName` | executors.py:21-24 | a query without a name is called `unnamed` by the current copy and `(unnamed)` by the older one (rsload.py:118-121) |
| `Query.DropOverride` | executors.py:12-17 | a target without overrides never drops results; when it does, the key `drop_results` is among the overrides |
| `Query.DropOverrideKeyOnly` | executors.py:12-17 | only the presence of `drop_results` counts: any value under it sets the override, and overrides without it, or none at all, do not |
| `Query.DropRequested` | executors.py:50 | drop-results is asked for exactly when the query's own flag or the target override is set |
| `Query.NormalisePath` | executors.py:31-33 | the lambda path starts with `/`, is the original path with at most one `/` added, and is unchanged exactly when it already starts with `/` |
| `Query.NormalisePathIdempotent` | executors.py:31-33 | normalising a normalised path changes nothing |
| `Query.Kept` | executors.py:51-53 | what the rewrite keeps is a prefix of the query and what it cuts off is whitespace, possibly after one `;`; it is the `rstrip`ped text less its final `;` when it ends in one, and the `rstrip`ped text otherwise |
| `Query.DropResultsSql` | executors.py:50-54 | blank SQL raises; any other query is sent as its kept prefix followed by the hint |
| `Query.DropResultsSqlOfTerminated` | executors.py:51-54 | any text followed by `;` and whitespace is sent as that text followed by the hint: `a ;` as `a ` plus the hint, `;` as the hint alone |
| `Query.DropResultsSqlOfStatement` | executors.py:51-54 | a statement that ends in neither whitespace nor `;`, followed by any whitespace, is sent as the statement followed by the hint |
| `Query.DropResultsSqlStripsOneSemicolon` | executors.py:52-53 | only one trailing `;` is removed: `t;;` is sent as `t;` followed by the hint |
| `Query.Prepare` | executors.py:29-73 | no call is made exactly when the query has neither a lambda nor SQL; it raises exactly on an empty lambda path (with `EmptyLambdaPath`) or on blank SQL under drop-results (with `BlankSqlUnderDropResults`); every request carries `ApiKey` plus the key and the JSON content type, and goes to `https://` plus the server |
| `Query.LambdaRequest` | executors.py:29-46 | a lambda wins over SQL; the URL is the server followed by the path with a leading `/`; the body carries the parameters; drop-results never changes a lambda request |
| `Query.SqlRequest` | executors.py:47-69 | SQL goes to the fixed queries path; the text sent is the rewrite under drop-results (per-query flag or target override) and the query's own text otherwise; the optional fields are copied unchanged |
| `Query.Classify` | executors.py:75-93 | each response gets one status: 408 timeout, 429 exhausted (current copy only), other non-200 error with `reason. text`, 200 success; a success records the measured round trip and the reported elapsed and throttled times, has `network + server == round trip`, query time Python's `round(server - throttled/1000)` with ties to even, and row count "dropped" exactly under the override, otherwise the length of `results` |
| `Query.LegacyClassifyAgrees` | rsload.py:172-188 | the older classifier agrees with the current one on every status but 429, which it reports as an error with `reason. text` |
| `Query.RunQuery` | executors.py:10-95 | the result carries the query number and the name or its default; it raises exactly when building the request raises; it is `invalid` exactly when the query has no body; otherwise its outcome is the copy's own classification of the response, with rows dropped exactly under the target override |
| `Query.InvalidWithoutBody` | executors.py:70-73 | a query with neither body is `invalid` with the fixed message |
| `Query.DroppedOnlyUnderOverride` | executors.py:90-93 | a success reports "dropped" exactly when the target override is present; a per-query drop flag still reports the number of rows |
| `Query.QueryPlusQueuedNearServer` | executors.py:86-88 | query time plus rounded queued time is within one millisecond of the server time |
| `Query.QueryPlusQueuedMissesByOne` | executors.py:86-88 | 101 ms elapsed with 500 us throttled gives 100 ms query and 0 ms queued, so the two miss the server time by one |
| `Query.TimingExample` | executors.py:84-89 | a 120 ms round trip with 100 ms elapsed and 5000 us throttled gives 5 queued, 95 query and 20 network |
| `Dispatch.Place` | executors.py:121-124 | writing each result at `query_num - 1` fills every slot when the numbers 1..n arrive once each in any order; slot i holds query i+1, and each arrival sits in its own slot |
| `Dispatch.CollectReturned` | executors.py:121-126 | gathering yields every result, in order, exactly when no task raised |
| `Dispatch.CollectRaised` | executors.py:121-122 | when tasks raise, gathering re-raises the fault of the first task in submission order that raised |
| `Dispatch.Dispatched` | executors.py:104-127 | the reference both executors meet: an empty set raises, and a returned set has one result per query with entry i numbered i+1 |
| `Dispatch.DispatchedIndexStable` | executors.py:104-127 | a dispatched set has one result per query, and entry i is query i's own result with `query_num == i+1` |
| `Dispatch.DispatchedRaises` | executors.py:104-124 | dispatch raises exactly when the set is empty or some request cannot be built, and then with the first such query's fault |
| `Dispatch.SentBy` | executors.py:42-68 | a query sends at most one request, exactly when its request can be built and it has a body, and that request is the one built |
| `Dispatch.SentInOrderCarriesKey` | executors.py:42-68 | every request sent for a set, in any order, carries `ApiKey` plus the target's key and goes to the target's server |
| `Dispatch.SentSeriallyInOrder` | executors.py:141-149 | the requests sent by running the first k queries one after another are those of the first k positions in set order |
| `Dispatch.RunPool` | executors.py:106-119 | whatever order the pool finishes its tasks in, slot i ends up holding query i+1's outcome, and the requests sent are those of the queries in the order they ran; each task is one call of the helper `RunTask`, kept to bound the loop's proof |
| `Dispatch.Reassemble` | executors.py:121-127 | results fetched in submission order and placed by query number are the collected results of the set |
| `Dispatch.Fetch` | executors.py:121-127 | once every task has finished, fetching in submission order yields the dispatched result |
| `Dispatch.RunParallel` | executors.py:102-127 | the parallel executor, for any pool completion order, returns exactly the dispatched result and sends every query's request in the order the pool runs them |
| `Dispatch.FirstFault` | executors.py:141-149 | the position of the first query whose request cannot be built, or the set's length when there is none: every query before it builds, and the one at it raises |
| `Dispatch.FirstFaultOfOutcomes` | executors.py:141-149 | when the outcomes return up to position x and raise at x, x is the first query whose request cannot be built |
| `Dispatch.RunUntilFault` | executors.py:141-149 | the serial loop collects the returned results in set order, stops with the fault of the first query that raises, and has sent exactly the requests of the queries it ran; each step is one call of the helper `SerialStep`, kept to bound the loop's proof |
| `Dispatch.RunSerial` | executors.py:135-160 | the serial executor returns exactly the dispatched result, stopping at the first query that raises; it sends the requests of the queries before that one, in set order, and nothing after |
| `Dispatch.RunQuerysetLegacy` | rsload.py:79-105 | the older run gives the dispatched results of the legacy classifier, tagged with the set's name; it raises when a query raises or the set has no name |
| `Summaries.SumAppend` | testModes.py:38-43 | the sum over two lists joined is the sum of their sums |
| `Summaries.SumOverSuccesses` | testModes.py:39-43 | every sum equals the sum over the successful results alone |
| `Summaries.NeedsWarning` | testModes.py:39-71 | an error always needs a warning, an invalid result never, a success exactly when it returned no rows, a timeout or exhausted query only in the current copy (rsload.py:237-250) |
| `Summaries.LegacyWarnsOnSubset` | rsload.py:237-250 | the older copy warns on a subset of what the current one warns on, and the results only the current one warns on are exactly the timeouts and exhausted queries |
| `Summaries.WarningFor` | testModes.py:44-71 | at most one warning per result; there is one exactly when the result needs one; it carries the result's number and name, and the message for its kind: `Errored with message: ` plus the error's message, `Query timed out`, `Resources exhausted`, or `Returned no rows` |
| `Summaries.WarningsAppend` | testModes.py:38-71 | warnings come in result order: the warnings of a prefix, then those of the rest |
| `Summaries.WarningOfResult` | testModes.py:44-71 | result i's own warning sits between the warnings of the results before it and those after it |
| `Summaries.NoWarningsIff` | testModes.py:37-79 | there are no warnings exactly when no result is an error, timeout, exhausted query or success with no rows |
| `Summaries.LegacyWarningsAgree` | rsload.py:231-259 | without timeouts or exhausted results, the older summariser warns exactly like the current one |
| `Summaries.EmptySummary` | testModes.py:35-37 | an empty result list sums to zero, has no warnings and is clean |
| `Summaries.Summarize` | testModes.py:34-80 | the four sums are those of the successful results; warnings are those of the results in order; `clean` holds exactly when no result needs a warning |
| `Summaries.SummarizeLegacy` | rsload.py:231-259 | the same sums; warnings only for errors and successes with no rows; no `clean` field |
| `Summaries.ThreeQueryExample` | testModes.py:38-71 | 10 rows, a timeout and 0 rows give two warnings (timeout, then no rows), a summary that is not clean, and all four sums taken over the first and third query only |
| `RunControl.SelectMode` | testModes.py:14-25 | a missing mode selects serial; "parallel" and "serial" select their executor; anything else selects none |
| `RunControl.RunQueryset` | testModes.py:12-27 | an unknown mode runs nothing and sends nothing; either known mode returns the dispatched result of the configured queries, read by the corrected `QueriesOf`, and sends what that mode's executor sends |
| `RunControl.SendsCarryKey` | testModes.py:12-27 | whatever the mode, every request `run_queryset` sends carries `ApiKey` plus the key of the target it was given and goes to that target's server |
| `RunControl.QueriesAsWritten` | executors.py:102-146 | the parallel executor raises on a bare list, and the serial one raises on a query set |
| `RunControl.NoShapeServesBothModes` | testModes.py:91 | for every shape of `config['queries']`, one of the two modes raises |
| `RunControl.QueriesOf` | testModes.py:91 | one query list read from either shape, and wherever an executor's own reading works it reads this list |
| `RunControl.LastFour` | testModes.py:31 | `key[-4:]`: the last four characters, or the whole key when it is shorter |
| `RunControl.Mask` | testModes.py:29-32 | six asterisks followed by the key's last four characters, or the whole key when it is shorter |
| `RunControl.MaskKeepsOnlyLastFour` | rsload.py:192-195 | two keys mask alike exactly when their last four characters agree: nothing else survives |
| `RunControl.MaskIdempotentIff` | testModes.py:31-32 | masking twice equals masking once exactly when the key has at least four characters |
| `RunControl.MaskExample` | testModes.py:31-32 | `abcd1234wxyz` masks to `******wxyz` |
| `RunControl.ProtocolsExclusive` | rsload.py:39-44 | no address starts with both `https://` and `http://`, so at most one prefix is removed |
| `RunControl.WithoutProtocol` | rsload.py:38-44 | a leading `https://` or `http://` is removed exactly; any other address is unchanged |
| `RunControl.WithoutProtocolRoundTrip` | rsload.py:38-44 | stripping undoes adding either protocol to a bare host |
| `RunControl.Config.ObfuscateApiKey` | testModes.py:29-32 | the key is replaced by its mask; the rest of the target and the queries are unchanged |
| `RunControl.Config.StripServerProtocol` | rsload.py:37-44 | the server address becomes its protocol-stripped form; nothing else changes |
| `RunControl.Handed` | testModes.py:94-99 | results then summary shown first when verbose, results then summary logged last when logging is on, four calls when both, and every call sees the same key |
| `RunControl.IterationsTestMode.Run` | testModes.py:90-99 | the requests sent are those of dispatching with the target as it was before the call, and every one carries `ApiKey` plus the unmasked key; a dispatch fault ends the cycle with the key unmasked; otherwise the key is masked before anything is summarised or handed on; an unknown mode raises after masking; a run returns the summary of the dispatched results, and every display and log call sees only the masked key |

## Left out

- HTTP calls (`requests.post`) and `time.perf_counter`: the response and the rounded round trip are inputs. A transport failure or a malformed success body is not modelled.
- `multiprocessing.Pool`: modelled as every task running to completion in a given order, and the requests of a parallel run are recorded in that order. Real concurrency, overlapping requests and process pickling are not modelled.
- Floating point: `round((end - start) * 1000)` is an input, and `throttled_time_micros` is an integer. So `round(throttled_time_micros)` is the identity, and `x/1000` is treated as exact for latency-sized values.
- Truthiness: a query's `drop_results` entry is modelled as a boolean. A target whose `overrides` is missing and one whose `overrides` is null are modelled alike, since the code treats them alike. An `execution_mode` that is present but null is not modelled: the code treats it as an unknown mode.
- `print` calls: the lambda drop-results notice and the unknown-mode message.
- Configuration loading: YAML, dotenv and argparse, and the discovery requests of `load_config` (rsload.py:47-70). Only its protocol stripping is modelled. A missing API key (`None`) is not modelled.
- Display and CSV output (display.py, output.py, and the display functions of rsload.py): they are modelled only as the handoffs the run controller makes.
- The older script's top-level sequence (rsload.py:294-301), which masks the key after dispatch and displays results before summarising, is not modelled as a method. Its parts are modelled.
- `QPSTestMode`: it has no behaviour of its own.
- RunControl.RunQueryset and RunControl.IterationsTestMode.Run dispatch the corrected reading `QueriesOf` of the `queries` entry, so they never raise the shape fault that the code as written raises in one of the two modes for every shape (see Findings; `QueriesAsWritten` models that).
- Result and summary dictionary keys (`round_trip_ms` against `round_trip_time_ms` and the like in rsload.py): the model names each field once, so key spellings are not modelled.

## Findings

| source | as written | input that shows it | evidently intended | confidence | as-written member | corrected member |
|---|---|---|---|---|---|---|
| executors.py:104-146 | `ParallelQSExecutor.run` reads `query_set['queries']`, but `SerialQSExecutor.run` reads `len(query_set)` and `query_set[x]`; testModes.py:91 passes the same `config['queries']` to whichever is selected | a bare list of queries under `execution_mode: parallel` (TypeError), or a query set under serial mode (KeyError); `RunControl.NoShapeServesBothModes` shows every shape fails one mode | both executors read the same query list from the same argument | medium, not executed | `RunControl.QueriesAsWritten` | `RunControl.QueriesOf` |
