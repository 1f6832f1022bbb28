# Matching client metrics decorator

This project models the metrics decorator that Cadence puts in front of the
matching-service client (`client/matching/metricClient.go`) and proves what
it promises its callers. The decorator wraps an inner client and a metrics
client. Each of its nine operations does the same steps in order:

1. It counts the request under the operation's own scope.
2. It starts a latency timer.
3. If the request names a task list, it runs the forwarding diagnostics.
4. It calls the inner client.
5. It stops the timer.
6. If the inner call returned an error, it counts a failure.
7. It returns what the inner client returned, unchanged.

The forwarding diagnostics (`emitForwardedFromStats`) have three outcomes:

- A forwarded request (non-empty `forwardedFrom`) increments the
  forwarded counter.
- A request that was not forwarded but whose task-list name starts with the
  reserved child-partition prefix increments the invalid-task-list-name
  counter.
- Anything else emits nothing.

How the model is built:

- `types.dfy` (`MatchingTypes`) keeps only what the decorator reads from a
  request. That is `forwardedFrom`, the task list and, for the two poll
  operations, the optional nested poll request. The rest of a request or
  response is an opaque `Body`. A nil Go `error` is `None`.
- `metrics.dfy` (`Metrics`) holds the scopes and metric kinds, the metrics
  client (`IncCounter`, `StartTimer`) and its stopwatch (`Stop`). They append
  events to one shared history, a `Recorder`. `Count` gives how often an
  event occurs in a history. For a counter increment, that is the value the
  counter reaches.
- `metric_client.dfy` (`Matching`) holds the decorator class `MetricClient`,
  whose nine methods follow the Go methods statement by statement, and
  `EmitForwardedFromStats`. The inner client is a stand-in class,
  `InnerClient`. It records each call in the same history, and its answer
  is an arbitrary fixed function of the history so far and of the call.
  `Protocol(prefix, call, reply)` is the specification: the exact events one
  decorated call adds. Each method's postcondition says that the history grew
  by exactly `Protocol`, around the inner client's own reply, and that the
  method returns that reply unchanged.
- `properties.dfy` (`MatchingProperties`) proves the decision table, the
  order and the counts of one call, that other scopes stay untouched, and
  the counters over any sequence of calls. `MatchingClientUse` shows what a
  caller can conclude from the method contracts alone, and that decorated
  calls made one after another record exactly a `Session`.

The latency timer is started before the forwarding diagnostics run
(`client/matching/metricClient.go:54-60`, `100-108`, `125-133`, `150-156`).
So the timed span includes the diagnostic counter increment, and
`ProtocolOrder` places that increment between the timer start and the inner
call.

## Model

| member | source | states |
|---|---|---|
| `Matching.MetricClient.constructor` | client/matching/metricClient.go:41-47 | the decorator keeps the inner client and the metrics client it was given, and both report into one history |
| `Matching.MetricClient.EmitForwardedFromStats` | client/matching/metricClient.go:236-249 | the history grows by exactly the increments of the forwarding decision table for the given scope, origin and task list |
| `Matching.ForwardingCounter` | client/matching/metricClient.go:236-248 | the outcome is nothing, the forwarded counter or the invalid-task-list-name counter, and nothing when the task list is nil |
| `Matching.MetricClient.AddActivityTask` | client/matching/metricClient.go:49-70 | history grows by the protocol (request, timer start, diagnostics on the request's task list, inner call, timer stop, failure iff error); the inner error is returned unchanged |
| `Matching.MetricClient.AddDecisionTask` | client/matching/metricClient.go:72-93 | same protocol under the add-decision scope, diagnostics on the request's task list; the inner error is returned unchanged |
| `Matching.MetricClient.PollForActivityTask` | client/matching/metricClient.go:95-118 | same protocol, diagnostics only when the nested poll request is present (outer `forwardedFrom`, nested task list); inner response and error returned unchanged |
| `Matching.MetricClient.PollForDecisionTask` | client/matching/metricClient.go:120-143 | as for PollForActivityTask, under the poll-for-decision scope |
| `Matching.MetricClient.QueryWorkflow` | client/matching/metricClient.go:145-166 | same protocol with diagnostics on the request's task list; inner response and error returned unchanged |
| `Matching.MetricClient.RespondQueryTaskCompleted` | client/matching/metricClient.go:168-183 | same protocol without diagnostics; the inner error is returned unchanged |
| `Matching.MetricClient.CancelOutstandingPoll` | client/matching/metricClient.go:185-200 | same protocol without diagnostics; the inner error is returned unchanged |
| `Matching.MetricClient.DescribeTaskList` | client/matching/metricClient.go:202-217 | same protocol without diagnostics; inner response and error returned unchanged |
| `Matching.MetricClient.ListTaskListPartitions` | client/matching/metricClient.go:219-234 | same protocol without diagnostics; inner response and error returned unchanged |
| `Metrics.MetricsClient.IncCounter` | client/matching/metricClient.go:53 | an increment appends one counted event for the scope and kind and changes nothing else |
| `Metrics.MetricsClient.StartTimer` | client/matching/metricClient.go:54 | starting a timer appends one timer-start event and returns a fresh stopwatch for that scope and kind |
| `Metrics.Stopwatch.Stop` | client/matching/metricClient.go:63 | stopping appends one timer-stop event for the stopwatch's scope and kind |
| `MatchingProperties.ScopesDistinct` | client/matching/metricClient.go:49-234 | two operations share a scope if and only if they are the same operation |
| `MatchingProperties.HasPrefixIsConcatenation` | client/matching/metricClient.go:240 | the child-partition test holds exactly when the name is the reserved prefix followed by some rest |
| `MatchingProperties.NoTaskListNoDiagnostics` | client/matching/metricClient.go:236-239 | with a nil task list nothing is emitted |
| `MatchingProperties.ForwardedCountedOnce` | client/matching/metricClient.go:240-243 | a non-empty `forwardedFrom` gives exactly one forwarded increment for the scope and no invalid-name increment, whatever the name |
| `MatchingProperties.ChildPartitionNameFlagged` | client/matching/metricClient.go:240-246 | an empty `forwardedFrom` and a reserved-prefix name give exactly one invalid-name increment and no forwarded increment |
| `MatchingProperties.OrdinaryNameSilent` | client/matching/metricClient.go:240-248 | an empty `forwardedFrom` and a name without the prefix emit nothing |
| `MatchingProperties.DiagnosticOutcomesExclusive` | client/matching/metricClient.go:236-249 | the diagnostics emit nothing, one forwarded increment or one invalid-name increment, and nothing else |
| `MatchingProperties.PollDiagnosedThroughNestedRequest` | client/matching/metricClient.go:102-108 | a poll is diagnosed as a request carrying the outer `forwardedFrom` and the nested poll request's task list |
| `MatchingProperties.ProtocolOrder` | client/matching/metricClient.go:53-69 | request count first, timer start second, at most one diagnostic event, then the inner call, immediately followed by the timer stop, and the failure count last when the call failed |
| `MatchingProperties.ProtocolScopes` | client/matching/metricClient.go:53-69 | every metric event of a call is under that call's scope, and the only inner call recorded is the call itself with its reply |
| `MatchingProperties.ProtocolCounts` | client/matching/metricClient.go:53-69 | a call adds exactly one request, one timer start, one timer stop, one failure iff the inner call failed, and the diagnostic increment its request selects |
| `MatchingProperties.OtherScopesUntouched` | client/matching/metricClient.go:49-234 | a call leaves every counter and timer of every other scope unchanged |
| `MatchingProperties.PlainOperationsEmitNoDiagnostics` | client/matching/metricClient.go:168-234 | RespondQueryTaskCompleted, CancelOutstandingPoll, DescribeTaskList and ListTaskListPartitions never emit a forwarded or invalid-name increment |
| `MatchingProperties.MissingPollRequestEmitsNoDiagnostics` | client/matching/metricClient.go:99-117 | a poll without a nested poll request emits exactly request, timer start, inner call, timer stop and, on error, failure |
| `MatchingProperties.PollForActivityChildPartitionExample` | client/matching/metricClient.go:95-118 | a successful, non-forwarded activity poll on a child-partition name counts one request, one invalid name, no forwarded and no failure |
| `MatchingProperties.SessionOfTwoCalls` | client/matching/metricClient.go:49-234 | two calls in a row record the first call's events followed by the second's, with nothing between or interleaved |
| `MatchingProperties.SessionCounters` | client/matching/metricClient.go:49-234 | over any sequence of calls, an operation's request counter equals its number of calls, its failure counter the number that failed, and its timer starts and stops once per call |

## Left out

- The yarpc transport, `context.Context` and the variadic call options are not modelled. The decorator passes them through without reading them.
- Timer durations and wall-clock time are not modelled. A timer is only its start and stop events.
- The metrics backend that aggregates counters is not modelled. `Count` over the history stands for a counter's value.
- The inner matching client's implementation is not part of this model. `InnerClient` stands in for it as an arbitrary function of the history and the call, and one generic `Invoke` replaces the nine interface methods.
- Request and response types keep only the fields the decorator reads. Everything else is an opaque string that is passed through.
- The value of `common.ReservedTaskListPrefix` is not part of this model. It is a constructor parameter of `MetricClient`; the worked example uses `/__cadence_sys/`.
- Panics from the inner call are not modelled. In Go they propagate before the timer stop and the failure count.
- Nil requests are not modelled. AddActivityTask, AddDecisionTask and QueryWorkflow read `request.TaskList` (`client/matching/metricClient.go:59`, `82`, `155`) and the two polls read `request.PollRequest` (`102`, `127`), so a nil request panics there. RespondQueryTaskCompleted, CancelOutstandingPoll, DescribeTaskList and ListTaskListPartitions never read the request and pass a nil one to the inner client untouched.
- `HasPrefix` compares the characters of the name and the prefix, while Go's `strings.HasPrefix` compares their bytes. The two tests agree on valid UTF-8 strings; names that are not valid UTF-8 are not modelled.
- Requests are values, so the decorator cannot mutate them. The Go code never mutates them either.
- Concurrent callers are not modelled. The decorator has no state of its own beyond its two collaborators.
- The compile-time interface assertion at `client/matching/metricClient.go:34` has no counterpart.
