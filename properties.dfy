/** What the decorator guarantees, stated on the events one call adds to the
    history (`Protocol`) and on the counters a sequence of calls produces. */
module MatchingProperties {
  import opened MatchingTypes
  import opened Metrics
  import opened Matching

  // ---- Scopes ----------------------------------------------------------

  /** Every operation reports under a scope of its own. */
  lemma ScopesDistinct(op: Operation, op': Operation)
    ensures ScopeOf(op) == ScopeOf(op') <==> op == op'
  {
  }

  // ---- The reserved-prefix test ----------------------------------------

  lemma HasPrefixIsConcatenation(s: string, prefix: string)
    ensures HasPrefix(s, prefix) <==> exists rest :: s == prefix + rest
  {
    if HasPrefix(s, prefix) {
      assert s == prefix + s[|prefix|..];
    }
  }

  // ---- emitForwardedFromStats -------------------------------------------

  /** Without a task list nothing is emitted. */
  lemma NoTaskListNoDiagnostics(scope: Scope, forwardedFrom: string, reservedPrefix: string)
    ensures DiagnosticEvents(scope, ForwardingCounter(forwardedFrom, None, reservedPrefix)) == []
  {
  }

  /** A forwarded request is counted once as forwarded, whatever its task
      list's name, and never as an invalid task-list name. */
  lemma ForwardedCountedOnce(scope: Scope, forwardedFrom: string, taskList: TaskList, reservedPrefix: string)
    requires forwardedFrom != ""
    ensures var events := DiagnosticEvents(scope, ForwardingCounter(forwardedFrom, Some(taskList), reservedPrefix));
      Count(events, Counted(scope, MatchingClientForwardedCounter)) == 1
      && forall sc :: Counted(sc, MatchingClientInvalidTaskListName) !in events
  {
  }

  /** A request that was not forwarded but names a child partition is counted
      once as an invalid task-list name and never as forwarded. */
  lemma ChildPartitionNameFlagged(scope: Scope, taskList: TaskList, reservedPrefix: string)
    requires HasPrefix(taskList.name, reservedPrefix)
    ensures var events := DiagnosticEvents(scope, ForwardingCounter("", Some(taskList), reservedPrefix));
      Count(events, Counted(scope, MatchingClientInvalidTaskListName)) == 1
      && forall sc :: Counted(sc, MatchingClientForwardedCounter) !in events
  {
  }

  /** A request that was not forwarded and names an ordinary task list emits
      nothing. */
  lemma OrdinaryNameSilent(scope: Scope, taskList: TaskList, reservedPrefix: string)
    requires !HasPrefix(taskList.name, reservedPrefix)
    ensures DiagnosticEvents(scope, ForwardingCounter("", Some(taskList), reservedPrefix)) == []
  {
  }

  /** The three outcomes exclude each other: at most one increment, under the
      given scope, and of one of the two diagnostic kinds. */
  lemma DiagnosticOutcomesExclusive(scope: Scope, forwardedFrom: string, taskList: Option<TaskList>, reservedPrefix: string)
    ensures var events := DiagnosticEvents(scope, ForwardingCounter(forwardedFrom, taskList, reservedPrefix));
      events == []
      || events == [Counted(scope, MatchingClientForwardedCounter)]
      || events == [Counted(scope, MatchingClientInvalidTaskListName)]
  {
  }

  /** A poll request is diagnosed exactly as a task-list request that carries
      the outer request's `forwardedFrom` and the nested poll request's task
      list. */
  lemma PollDiagnosedThroughNestedRequest(reservedPrefix: string, request: PollingRequest, poll: PollRequest)
    requires request.pollRequest == Some(poll)
    ensures DiagnosticFor(reservedPrefix, ForPoll(request))
      == DiagnosticFor(reservedPrefix, ForTaskList(TaskListRequest(request.forwardedFrom, poll.taskList, request.body)))
  {
  }

  // ---- One decorated call ----------------------------------------------

  /** The order of events: the request count, then the timer start, then the
      diagnostics (at most one event), then the inner call, immediately
      followed by the timer stop, and the failure count last if at all. */
  lemma ProtocolOrder(reservedPrefix: string, call: Call, reply: Reply)
    ensures var events := Protocol(reservedPrefix, call, reply);
      var s := ScopeOf(call.op);
      var j := |Opening(reservedPrefix, call)|;
      (j == 2 || j == 3)
      && |events| == (if reply.err == None then j + 2 else j + 3)
      && events[0] == Counted(s, CadenceClientRequests)
      && events[1] == TimerStarted(s, CadenceClientLatency)
      && events[2..j] == DiagnosticEvents(s, DiagnosticFor(reservedPrefix, call.request))
      && events[j] == Delegated(call, reply)
      && events[j + 1] == TimerStopped(s, CadenceClientLatency)
      && (reply.err != None ==> events[j + 2] == Counted(s, CadenceClientFailures))
  {
  }

  /** Every event of a call is under the call's own scope, and the only inner
      call is the call itself, with the reply it got. */
  lemma ProtocolScopes(reservedPrefix: string, call: Call, reply: Reply)
    ensures forall e :: e in Protocol(reservedPrefix, call, reply) && !e.Delegated? ==> e.scope == ScopeOf(call.op)
    ensures forall e :: e in Protocol(reservedPrefix, call, reply) && e.Delegated? ==> e == Delegated(call, reply)
  {
  }

  /** How a call moves the counters and timers of its own scope: one request,
      one timer started and stopped, one failure exactly when the inner call
      failed, and the diagnostic counter the request's shape selects. */
  lemma {:induction false} ProtocolCounts(history: seq<Event>, reservedPrefix: string, call: Call, reply: Reply)
    ensures var after := history + Protocol(reservedPrefix, call, reply);
      var s := ScopeOf(call.op);
      var diagnostic := DiagnosticFor(reservedPrefix, call.request);
      Count(after, Counted(s, CadenceClientRequests)) == Count(history, Counted(s, CadenceClientRequests)) + 1
      && Count(after, TimerStarted(s, CadenceClientLatency)) == Count(history, TimerStarted(s, CadenceClientLatency)) + 1
      && Count(after, TimerStopped(s, CadenceClientLatency)) == Count(history, TimerStopped(s, CadenceClientLatency)) + 1
      && Count(after, Counted(s, CadenceClientFailures))
         == Count(history, Counted(s, CadenceClientFailures)) + (if reply.err != None then 1 else 0)
      && Count(after, Counted(s, MatchingClientForwardedCounter))
         == Count(history, Counted(s, MatchingClientForwardedCounter)) + (if diagnostic == Some(MatchingClientForwardedCounter) then 1 else 0)
      && Count(after, Counted(s, MatchingClientInvalidTaskListName))
         == Count(history, Counted(s, MatchingClientInvalidTaskListName)) + (if diagnostic == Some(MatchingClientInvalidTaskListName) then 1 else 0)
  {
    var s := ScopeOf(call.op);
    var opening := [Counted(s, CadenceClientRequests), TimerStarted(s, CadenceClientLatency)];
    var diagnostics := DiagnosticEvents(s, DiagnosticFor(reservedPrefix, call.request));
    var closing := [Delegated(call, reply), TimerStopped(s, CadenceClientLatency)];
    var failures := if reply.err != None then [Counted(s, CadenceClientFailures)] else [];
    assert history + Protocol(reservedPrefix, call, reply) == history + opening + diagnostics + closing + failures;
    forall e
      ensures Count(history + opening + diagnostics + closing + failures, e)
        == Count(history, e) + Count(opening, e) + Count(diagnostics, e) + Count(closing, e) + Count(failures, e)
    {
      CountAppend(history + opening + diagnostics + closing, failures, e);
      CountAppend(history + opening + diagnostics, closing, e);
      CountAppend(history + opening, diagnostics, e);
      CountAppend(history, opening, e);
    }
  }

  /** A call leaves every other scope's counters and timers as they were. */
  lemma {:induction false} OtherScopesUntouched(history: seq<Event>, reservedPrefix: string, call: Call, reply: Reply, other: Scope, kind: MetricKind)
    requires other != ScopeOf(call.op)
    ensures Count(history + Protocol(reservedPrefix, call, reply), Counted(other, kind)) == Count(history, Counted(other, kind))
    ensures Count(history + Protocol(reservedPrefix, call, reply), TimerStarted(other, kind)) == Count(history, TimerStarted(other, kind))
    ensures Count(history + Protocol(reservedPrefix, call, reply), TimerStopped(other, kind)) == Count(history, TimerStopped(other, kind))
  {
    ProtocolScopes(reservedPrefix, call, reply);
    CountAppend(history, Protocol(reservedPrefix, call, reply), Counted(other, kind));
    CountAppend(history, Protocol(reservedPrefix, call, reply), TimerStarted(other, kind));
    CountAppend(history, Protocol(reservedPrefix, call, reply), TimerStopped(other, kind));
  }

  /** RespondQueryTaskCompleted, CancelOutstandingPoll, DescribeTaskList and
      ListTaskListPartitions never emit a diagnostic counter. */
  lemma PlainOperationsEmitNoDiagnostics(reservedPrefix: string, call: Call, reply: Reply)
    requires WellTyped(call)
    requires call.op == RespondQueryTaskCompleted || call.op == CancelOutstandingPoll
          || call.op == DescribeTaskList || call.op == ListTaskListPartitions
    ensures forall sc :: Counted(sc, MatchingClientForwardedCounter) !in Protocol(reservedPrefix, call, reply)
    ensures forall sc :: Counted(sc, MatchingClientInvalidTaskListName) !in Protocol(reservedPrefix, call, reply)
  {
  }

  /** A poll without a nested poll request skips the diagnostics altogether
      while the request, latency and failure metrics behave as for any call. */
  lemma MissingPollRequestEmitsNoDiagnostics(reservedPrefix: string, call: Call, reply: Reply)
    requires call.request.ForPoll? && call.request.pollingRequest.pollRequest == None
    ensures var s := ScopeOf(call.op);
      Protocol(reservedPrefix, call, reply)
      == [Counted(s, CadenceClientRequests), TimerStarted(s, CadenceClientLatency), Delegated(call, reply), TimerStopped(s, CadenceClientLatency)]
         + (if reply.err != None then [Counted(s, CadenceClientFailures)] else [])
  {
  }

  /** The worked example: a poll for an activity task, not forwarded, whose
      task list names a child partition, answered without error. */
  lemma PollForActivityChildPartitionExample(pollBody: Body, body: Body, response: Option<Body>)
    ensures var prefix := "/__cadence_sys/";
      var poll := PollRequest(Some(TaskList("/__cadence_sys/child-42")), pollBody);
      var call := Call(PollForActivityTask, ForPoll(PollingRequest("", Some(poll), body)));
      var events := Protocol(prefix, call, Reply(response, None));
      var s := MatchingClientPollForActivityTaskScope;
      Count(events, Counted(s, CadenceClientRequests)) == 1
      && Count(events, Counted(s, MatchingClientInvalidTaskListName)) == 1
      && Count(events, Counted(s, MatchingClientForwardedCounter)) == 0
      && Count(events, Counted(s, CadenceClientFailures)) == 0
  {
    var poll := PollRequest(Some(TaskList("/__cadence_sys/child-42")), pollBody);
    var call := Call(PollForActivityTask, ForPoll(PollingRequest("", Some(poll), body)));
    assert HasPrefix("/__cadence_sys/child-42", "/__cadence_sys/");
    assert DiagnosticFor("/__cadence_sys/", call.request) == Some(MatchingClientInvalidTaskListName);
    ProtocolCounts([], "/__cadence_sys/", call, Reply(response, None));
    assert [] + Protocol("/__cadence_sys/", call, Reply(response, None)) == Protocol("/__cadence_sys/", call, Reply(response, None));
  }

  // ---- A sequence of calls ----------------------------------------------

  /** The history a decorator produces for calls made one after another, each
      with the reply its inner call returned. */
  function Session(reservedPrefix: string, exchanges: seq<(Call, Reply)>): seq<Event>
  {
    if exchanges == [] then []
    else
      var last := exchanges[|exchanges| - 1];
      Session(reservedPrefix, exchanges[..|exchanges| - 1]) + Protocol(reservedPrefix, last.0, last.1)
  }

  /** How many of the exchanges called `op`. */
  function CallsTo(exchanges: seq<(Call, Reply)>, op: Operation): nat
  {
    if exchanges == [] then 0
    else CallsTo(exchanges[..|exchanges| - 1], op) + (if exchanges[|exchanges| - 1].0.op == op then 1 else 0)
  }

  /** How many of the exchanges called `op` and got an error back. */
  function FailedCallsTo(exchanges: seq<(Call, Reply)>, op: Operation): nat
  {
    if exchanges == [] then 0
    else
      var last := exchanges[|exchanges| - 1];
      FailedCallsTo(exchanges[..|exchanges| - 1], op) + (if last.0.op == op && last.1.err != None then 1 else 0)
  }

  /** Two calls in a row: the session is the first call's protocol followed
      by the second's. */
  lemma SessionOfTwoCalls(reservedPrefix: string, first: Call, firstReply: Reply, second: Call, secondReply: Reply)
    ensures Session(reservedPrefix, [(first, firstReply), (second, secondReply)])
      == Protocol(reservedPrefix, first, firstReply) + Protocol(reservedPrefix, second, secondReply)
  {
    var one := [(first, firstReply)];
    assert one[..0] == [];
    assert Session(reservedPrefix, one) == [] + Protocol(reservedPrefix, first, firstReply);
    var two := [(first, firstReply), (second, secondReply)];
    assert two[..1] == one;
  }

  /** Over any sequence of calls, an operation's request counter equals the
      number of calls to it, its failure counter the number of those that
      failed, and its latency timer is started and stopped once per call. */
  lemma {:induction false} SessionCounters(reservedPrefix: string, exchanges: seq<(Call, Reply)>, op: Operation)
    ensures var events := Session(reservedPrefix, exchanges);
      Count(events, Counted(ScopeOf(op), CadenceClientRequests)) == CallsTo(exchanges, op)
      && Count(events, Counted(ScopeOf(op), CadenceClientFailures)) == FailedCallsTo(exchanges, op)
      && Count(events, TimerStarted(ScopeOf(op), CadenceClientLatency)) == CallsTo(exchanges, op)
      && Count(events, TimerStopped(ScopeOf(op), CadenceClientLatency)) == CallsTo(exchanges, op)
  {
    if exchanges != [] {
      var earlier := exchanges[..|exchanges| - 1];
      var last := exchanges[|exchanges| - 1];
      SessionCounters(reservedPrefix, earlier, op);
      if last.0.op == op {
        ProtocolCounts(Session(reservedPrefix, earlier), reservedPrefix, last.0, last.1);
      } else {
        ScopesDistinct(op, last.0.op);
        OtherScopesUntouched(Session(reservedPrefix, earlier), reservedPrefix, last.0, last.1, ScopeOf(op), CadenceClientRequests);
        OtherScopesUntouched(Session(reservedPrefix, earlier), reservedPrefix, last.0, last.1, ScopeOf(op), CadenceClientFailures);
        OtherScopesUntouched(Session(reservedPrefix, earlier), reservedPrefix, last.0, last.1, ScopeOf(op), CadenceClientLatency);
      }
    }
  }
}

/** What a caller can conclude from the decorator's contracts alone: a failing
    AddActivityTask returns the inner client's error unchanged and leaves one
    request, one failure and one timed span under its scope. */
module MatchingClientUse {
  import opened MatchingTypes
  import opened Metrics
  import opened Matching
  import opened MatchingProperties

  method FailingAddActivityTask(request: TaskListRequest)
  {
    var recorder := new Recorder();
    var inner := new InnerClient(recorder, (history: seq<Event>, call: Call) => Reply(None, Some("service busy")));
    var metrics := new MetricsClient(recorder);
    var decorated := new MetricClient(inner, metrics, "/__cadence_sys/");
    var err := decorated.AddActivityTask(request);
    assert err == Some("service busy");
    var call := Call(AddActivityTask, ForTaskList(request));
    ProtocolCounts([], "/__cadence_sys/", call, Reply(None, Some("service busy")));
    assert [] + Protocol("/__cadence_sys/", call, Reply(None, Some("service busy"))) == recorder.events;
    var s := MatchingClientAddActivityTaskScope;
    assert Count(recorder.events, Counted(s, CadenceClientRequests)) == 1;
    assert Count(recorder.events, Counted(s, CadenceClientFailures)) == 1;
    assert Count(recorder.events, TimerStarted(s, CadenceClientLatency)) == 1;
    assert Count(recorder.events, TimerStopped(s, CadenceClientLatency)) == 1;
  }

  /** Decorated calls made one after another on a fresh history produce
      exactly the `Session` of those calls with the replies the inner client
      gave, so `SessionCounters` applies to what the decorator records. */
  method SuccessiveCallsFormASession(respond: (seq<Event>, Call) -> Reply, first: TaskListRequest, second: PollingRequest)
  {
    var recorder := new Recorder();
    var inner := new InnerClient(recorder, respond);
    var metrics := new MetricsClient(recorder);
    var decorated := new MetricClient(inner, metrics, "/__cadence_sys/");
    var call1 := Call(AddActivityTask, ForTaskList(first));
    var call2 := Call(PollForActivityTask, ForPoll(second));
    var err := decorated.AddActivityTask(first);
    ghost var reply1 := decorated.InnerReply([], call1);
    ghost var between := recorder.events;
    assert between == Protocol("/__cadence_sys/", call1, reply1);
    var response, err' := decorated.PollForActivityTask(second);
    ghost var reply2 := decorated.InnerReply(between, call2);
    assert recorder.events == between + Protocol("/__cadence_sys/", call2, reply2);
    ghost var exchanges := [(call1, reply1), (call2, reply2)];
    SessionOfTwoCalls("/__cadence_sys/", call1, reply1, call2, reply2);
    assert recorder.events == Session("/__cadence_sys/", exchanges);
    SessionCounters("/__cadence_sys/", exchanges, PollForActivityTask);
  }
}
