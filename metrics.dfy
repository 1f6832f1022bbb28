/** The metrics sink the decorator reports to, reduced to what it observes:
    counter increments and the start and stop of latency timers. Durations and
    the backend that aggregates them are not modelled. */
module Metrics {
  import opened MatchingTypes

  /** The metric scopes of the matching client, one per operation. */
  datatype Scope =
    | MatchingClientAddActivityTaskScope
    | MatchingClientAddDecisionTaskScope
    | MatchingClientPollForActivityTaskScope
    | MatchingClientPollForDecisionTaskScope
    | MatchingClientQueryWorkflowScope
    | MatchingClientRespondQueryTaskCompletedScope
    | MatchingClientCancelOutstandingPollScope
    | MatchingClientDescribeTaskListScope
    | MatchingClientListTaskListPartitionsScope

  /** The metric kinds the decorator emits. */
  datatype MetricKind =
    | CadenceClientRequests
    | CadenceClientLatency
    | CadenceClientFailures
    | MatchingClientForwardedCounter
    | MatchingClientInvalidTaskListName

  /** One observable effect. `Delegated` records a call made to the inner
      client together with what it returned, so that the order of metric
      emissions relative to the inner call can be stated. */
  datatype Event =
    | Counted(scope: Scope, kind: MetricKind)
    | TimerStarted(scope: Scope, kind: MetricKind)
    | TimerStopped(scope: Scope, kind: MetricKind)
    | Delegated(call: Call, reply: Reply)

  /** The history of observable effects, shared by the metrics sink and the
      inner client. */
  class Recorder {
    var events: seq<Event>

    constructor ()
      ensures events == []
    {
      events := [];
    }
  }

  /** How many times `e` occurs in `events`; for a `Counted` event this is the
      value the backend's counter reaches. */
  function Count(events: seq<Event>, e: Event): (n: nat)
    ensures n <= |events|
    ensures n == 0 <==> e !in events
  {
    if events == [] then 0
    else (if events[0] == e then 1 else 0) + Count(events[1..], e)
  }

  lemma {:induction false} CountAppend(a: seq<Event>, b: seq<Event>, e: Event)
    ensures Count(a + b, e) == Count(a, e) + Count(b, e)
  {
    if a == [] {
      assert a + b == b;
    } else {
      assert (a + b)[1..] == a[1..] + b;
      CountAppend(a[1..], b, e);
    }
  }

  /** The metrics client: increments counters and starts timers. */
  class MetricsClient {
    const recorder: Recorder

    constructor (recorder: Recorder)
      ensures this.recorder == recorder
    {
      this.recorder := recorder;
    }

    method IncCounter(scope: Scope, kind: MetricKind)
      modifies recorder
      ensures recorder.events == old(recorder.events) + [Counted(scope, kind)]
    {
      recorder.events := recorder.events + [Counted(scope, kind)];
    }

    method StartTimer(scope: Scope, kind: MetricKind) returns (sw: Stopwatch)
      modifies recorder
      ensures fresh(sw)
      ensures sw.recorder == recorder && sw.scope == scope && sw.kind == kind
      ensures recorder.events == old(recorder.events) + [TimerStarted(scope, kind)]
    {
      recorder.events := recorder.events + [TimerStarted(scope, kind)];
      sw := new Stopwatch(recorder, scope, kind);
    }
  }

  /** A started timer; `Stop` records the end of the timed span. */
  class Stopwatch {
    const recorder: Recorder
    const scope: Scope
    const kind: MetricKind

    constructor (recorder: Recorder, scope: Scope, kind: MetricKind)
      ensures this.recorder == recorder && this.scope == scope && this.kind == kind
    {
      this.recorder := recorder;
      this.scope := scope;
      this.kind := kind;
    }

    method Stop()
      modifies recorder
      ensures recorder.events == old(recorder.events) + [TimerStopped(scope, kind)]
    {
      recorder.events := recorder.events + [TimerStopped(scope, kind)];
    }
  }
}
