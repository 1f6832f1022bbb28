/** The metrics decorator of the matching client (client/matching/metricClient.go):
    every operation counts the request, times the inner call, runs the
    forwarding diagnostics where the request names a task list, counts a
    failure when the inner call returns an error, and hands back exactly what
    the inner client returned. */
module Matching {
  import opened MatchingTypes
  import opened Metrics

  /** The metric scope each operation reports under. */
  function ScopeOf(op: Operation): Scope
  {
    match op
    case AddActivityTask => MatchingClientAddActivityTaskScope
    case AddDecisionTask => MatchingClientAddDecisionTaskScope
    case PollForActivityTask => MatchingClientPollForActivityTaskScope
    case PollForDecisionTask => MatchingClientPollForDecisionTaskScope
    case QueryWorkflow => MatchingClientQueryWorkflowScope
    case RespondQueryTaskCompleted => MatchingClientRespondQueryTaskCompletedScope
    case CancelOutstandingPoll => MatchingClientCancelOutstandingPollScope
    case DescribeTaskList => MatchingClientDescribeTaskListScope
    case ListTaskListPartitions => MatchingClientListTaskListPartitionsScope
  }

  /** Go's `strings.HasPrefix`. */
  predicate HasPrefix(s: string, prefix: string)
  {
    |prefix| <= |s| && s[..|prefix|] == prefix
  }

  /** The decision table of `emitForwardedFromStats`: which diagnostic
      counter, if any, a request with this origin and task list increments. */
  function ForwardingCounter(forwardedFrom: string, taskList: Option<TaskList>, reservedPrefix: string): (k: Option<MetricKind>)
    ensures k == None || k == Some(MatchingClientForwardedCounter) || k == Some(MatchingClientInvalidTaskListName)
    ensures taskList == None ==> k == None
  {
    if taskList == None then None
    else if forwardedFrom != "" then Some(MatchingClientForwardedCounter)
    else if HasPrefix(taskList.value.name, reservedPrefix) then Some(MatchingClientInvalidTaskListName)
    else None
  }

  /** The diagnostic counter a request leads to: the task list is the
      request's own, or the nested poll request's when that is present, while
      `forwardedFrom` always comes from the outer request. */
  function DiagnosticFor(reservedPrefix: string, request: Request): Option<MetricKind>
  {
    match request
    case ForTaskList(r) => ForwardingCounter(r.forwardedFrom, r.taskList, reservedPrefix)
    case ForPoll(p) =>
      if p.pollRequest == None then None
      else ForwardingCounter(p.forwardedFrom, p.pollRequest.value.taskList, reservedPrefix)
    case Plain(_) => None
  }

  /** The increments a diagnostic outcome produces. */
  function DiagnosticEvents(scope: Scope, k: Option<MetricKind>): seq<Event>
  {
    if k == None then [] else [Counted(scope, k.value)]
  }

  /** What the decorator emits before handing the call to the inner client. */
  function Opening(reservedPrefix: string, call: Call): seq<Event>
  {
    var s := ScopeOf(call.op);
    [Counted(s, CadenceClientRequests), TimerStarted(s, CadenceClientLatency)]
      + DiagnosticEvents(s, DiagnosticFor(reservedPrefix, call.request))
  }

  /** The inner call and what the decorator emits once it has returned. */
  function Closing(call: Call, reply: Reply): seq<Event>
  {
    var s := ScopeOf(call.op);
    [Delegated(call, reply), TimerStopped(s, CadenceClientLatency)]
      + (if reply.err != None then [Counted(s, CadenceClientFailures)] else [])
  }

  /** Everything one decorated call adds to the history. */
  function Protocol(reservedPrefix: string, call: Call, reply: Reply): seq<Event>
  {
    Opening(reservedPrefix, call) + Closing(call, reply)
  }

  /** Stand-in for the wrapped matching client. Its answer is an arbitrary,
      fixed function of the history so far and of the call. */
  class InnerClient {
    const recorder: Recorder
    const respond: (seq<Event>, Call) -> Reply

    constructor (recorder: Recorder, respond: (seq<Event>, Call) -> Reply)
      ensures this.recorder == recorder && this.respond == respond
    {
      this.recorder := recorder;
      this.respond := respond;
    }

    method Invoke(call: Call) returns (reply: Reply)
      modifies recorder
      ensures reply == respond(old(recorder.events), call)
      ensures recorder.events == old(recorder.events) + [Delegated(call, reply)]
    {
      reply := respond(recorder.events, call);
      recorder.events := recorder.events + [Delegated(call, reply)];
    }
  }

  class MetricClient {
    const client: InnerClient
    const metricsClient: MetricsClient
    /** `common.ReservedTaskListPrefix`, the name prefix of child partitions. */
    const reservedPrefix: string

    /** Both collaborators report into the same history. */
    predicate Valid()
    {
      client.recorder == metricsClient.recorder
    }

    /** What the inner client answers when `call` reaches it after `history`. */
    function InnerReply(history: seq<Event>, call: Call): Reply
    {
      client.respond(history + Opening(reservedPrefix, call), call)
    }

    /** `call` was decorated: the history grew by exactly the protocol's
        events, around the inner client's own reply. */
    ghost predicate Decorated(history: seq<Event>, history': seq<Event>, call: Call)
    {
      history' == history + Protocol(reservedPrefix, call, InnerReply(history, call))
    }

    constructor (client: InnerClient, metricsClient: MetricsClient, reservedPrefix: string)
      requires client.recorder == metricsClient.recorder
      ensures Valid()
      ensures this.client == client && this.metricsClient == metricsClient
      ensures this.reservedPrefix == reservedPrefix
    {
      this.client := client;
      this.metricsClient := metricsClient;
      this.reservedPrefix := reservedPrefix;
    }

    method EmitForwardedFromStats(scope: Scope, forwardedFrom: string, taskList: Option<TaskList>)
      modifies metricsClient.recorder
      ensures metricsClient.recorder.events
        == old(metricsClient.recorder.events) + DiagnosticEvents(scope, ForwardingCounter(forwardedFrom, taskList, reservedPrefix))
    {
      if taskList == None {
        return;
      }
      var isChildPartition := HasPrefix(taskList.value.name, reservedPrefix);
      if forwardedFrom != "" {
        metricsClient.IncCounter(scope, MatchingClientForwardedCounter);
      } else if isChildPartition {
        metricsClient.IncCounter(scope, MatchingClientInvalidTaskListName);
      }
    }

    method AddActivityTask(request: TaskListRequest) returns (err: Option<ErrorValue>)
      requires Valid()
      modifies metricsClient.recorder
      ensures var call := Call(Operation.AddActivityTask, ForTaskList(request));
        Decorated(old(metricsClient.recorder.events), metricsClient.recorder.events, call)
        && err == InnerReply(old(metricsClient.recorder.events), call).err
    {
      ghost var history := metricsClient.recorder.events;
      var scope := MatchingClientAddActivityTaskScope;
      metricsClient.IncCounter(scope, CadenceClientRequests);
      var sw := metricsClient.StartTimer(scope, CadenceClientLatency);
      EmitForwardedFromStats(scope, request.forwardedFrom, request.taskList);
      var call := Call(Operation.AddActivityTask, ForTaskList(request));
      assert metricsClient.recorder.events == history + Opening(reservedPrefix, call);
      var reply := client.Invoke(call);
      sw.Stop();
      if reply.err != None {
        metricsClient.IncCounter(scope, CadenceClientFailures);
      }
      err := reply.err;
    }

    method AddDecisionTask(request: TaskListRequest) returns (err: Option<ErrorValue>)
      requires Valid()
      modifies metricsClient.recorder
      ensures var call := Call(Operation.AddDecisionTask, ForTaskList(request));
        Decorated(old(metricsClient.recorder.events), metricsClient.recorder.events, call)
        && err == InnerReply(old(metricsClient.recorder.events), call).err
    {
      ghost var history := metricsClient.recorder.events;
      var scope := MatchingClientAddDecisionTaskScope;
      metricsClient.IncCounter(scope, CadenceClientRequests);
      var sw := metricsClient.StartTimer(scope, CadenceClientLatency);
      EmitForwardedFromStats(scope, request.forwardedFrom, request.taskList);
      var call := Call(Operation.AddDecisionTask, ForTaskList(request));
      assert metricsClient.recorder.events == history + Opening(reservedPrefix, call);
      var reply := client.Invoke(call);
      sw.Stop();
      if reply.err != None {
        metricsClient.IncCounter(scope, CadenceClientFailures);
      }
      err := reply.err;
    }

    method PollForActivityTask(request: PollingRequest) returns (response: Option<Body>, err: Option<ErrorValue>)
      requires Valid()
      modifies metricsClient.recorder
      ensures var call := Call(Operation.PollForActivityTask, ForPoll(request));
        Decorated(old(metricsClient.recorder.events), metricsClient.recorder.events, call)
        && InnerReply(old(metricsClient.recorder.events), call) == Reply(response, err)
    {
      ghost var history := metricsClient.recorder.events;
      var scope := MatchingClientPollForActivityTaskScope;
      metricsClient.IncCounter(scope, CadenceClientRequests);
      var sw := metricsClient.StartTimer(scope, CadenceClientLatency);
      if request.pollRequest != None {
        EmitForwardedFromStats(scope, request.forwardedFrom, request.pollRequest.value.taskList);
      }
      var call := Call(Operation.PollForActivityTask, ForPoll(request));
      assert metricsClient.recorder.events == history + Opening(reservedPrefix, call);
      var reply := client.Invoke(call);
      sw.Stop();
      if reply.err != None {
        metricsClient.IncCounter(scope, CadenceClientFailures);
      }
      response, err := reply.response, reply.err;
    }

    method PollForDecisionTask(request: PollingRequest) returns (response: Option<Body>, err: Option<ErrorValue>)
      requires Valid()
      modifies metricsClient.recorder
      ensures var call := Call(Operation.PollForDecisionTask, ForPoll(request));
        Decorated(old(metricsClient.recorder.events), metricsClient.recorder.events, call)
        && InnerReply(old(metricsClient.recorder.events), call) == Reply(response, err)
    {
      ghost var history := metricsClient.recorder.events;
      var scope := MatchingClientPollForDecisionTaskScope;
      metricsClient.IncCounter(scope, CadenceClientRequests);
      var sw := metricsClient.StartTimer(scope, CadenceClientLatency);
      if request.pollRequest != None {
        EmitForwardedFromStats(scope, request.forwardedFrom, request.pollRequest.value.taskList);
      }
      var call := Call(Operation.PollForDecisionTask, ForPoll(request));
      assert metricsClient.recorder.events == history + Opening(reservedPrefix, call);
      var reply := client.Invoke(call);
      sw.Stop();
      if reply.err != None {
        metricsClient.IncCounter(scope, CadenceClientFailures);
      }
      response, err := reply.response, reply.err;
    }

    method QueryWorkflow(request: TaskListRequest) returns (response: Option<Body>, err: Option<ErrorValue>)
      requires Valid()
      modifies metricsClient.recorder
      ensures var call := Call(Operation.QueryWorkflow, ForTaskList(request));
        Decorated(old(metricsClient.recorder.events), metricsClient.recorder.events, call)
        && InnerReply(old(metricsClient.recorder.events), call) == Reply(response, err)
    {
      ghost var history := metricsClient.recorder.events;
      var scope := MatchingClientQueryWorkflowScope;
      metricsClient.IncCounter(scope, CadenceClientRequests);
      var sw := metricsClient.StartTimer(scope, CadenceClientLatency);
      EmitForwardedFromStats(scope, request.forwardedFrom, request.taskList);
      var call := Call(Operation.QueryWorkflow, ForTaskList(request));
      assert metricsClient.recorder.events == history + Opening(reservedPrefix, call);
      var reply := client.Invoke(call);
      sw.Stop();
      if reply.err != None {
        metricsClient.IncCounter(scope, CadenceClientFailures);
      }
      response, err := reply.response, reply.err;
    }

    method RespondQueryTaskCompleted(request: PlainRequest) returns (err: Option<ErrorValue>)
      requires Valid()
      modifies metricsClient.recorder
      ensures var call := Call(Operation.RespondQueryTaskCompleted, Plain(request));
        Decorated(old(metricsClient.recorder.events), metricsClient.recorder.events, call)
        && err == InnerReply(old(metricsClient.recorder.events), call).err
    {
      ghost var history := metricsClient.recorder.events;
      var scope := MatchingClientRespondQueryTaskCompletedScope;
      metricsClient.IncCounter(scope, CadenceClientRequests);
      var sw := metricsClient.StartTimer(scope, CadenceClientLatency);
      var call := Call(Operation.RespondQueryTaskCompleted, Plain(request));
      assert metricsClient.recorder.events == history + Opening(reservedPrefix, call);
      var reply := client.Invoke(call);
      sw.Stop();
      if reply.err != None {
        metricsClient.IncCounter(scope, CadenceClientFailures);
      }
      err := reply.err;
    }

    method CancelOutstandingPoll(request: PlainRequest) returns (err: Option<ErrorValue>)
      requires Valid()
      modifies metricsClient.recorder
      ensures var call := Call(Operation.CancelOutstandingPoll, Plain(request));
        Decorated(old(metricsClient.recorder.events), metricsClient.recorder.events, call)
        && err == InnerReply(old(metricsClient.recorder.events), call).err
    {
      ghost var history := metricsClient.recorder.events;
      var scope := MatchingClientCancelOutstandingPollScope;
      metricsClient.IncCounter(scope, CadenceClientRequests);
      var sw := metricsClient.StartTimer(scope, CadenceClientLatency);
      var call := Call(Operation.CancelOutstandingPoll, Plain(request));
      assert metricsClient.recorder.events == history + Opening(reservedPrefix, call);
      var reply := client.Invoke(call);
      sw.Stop();
      if reply.err != None {
        metricsClient.IncCounter(scope, CadenceClientFailures);
      }
      err := reply.err;
    }

    method DescribeTaskList(request: PlainRequest) returns (response: Option<Body>, err: Option<ErrorValue>)
      requires Valid()
      modifies metricsClient.recorder
      ensures var call := Call(Operation.DescribeTaskList, Plain(request));
        Decorated(old(metricsClient.recorder.events), metricsClient.recorder.events, call)
        && InnerReply(old(metricsClient.recorder.events), call) == Reply(response, err)
    {
      ghost var history := metricsClient.recorder.events;
      var scope := MatchingClientDescribeTaskListScope;
      metricsClient.IncCounter(scope, CadenceClientRequests);
      var sw := metricsClient.StartTimer(scope, CadenceClientLatency);
      var call := Call(Operation.DescribeTaskList, Plain(request));
      assert metricsClient.recorder.events == history + Opening(reservedPrefix, call);
      var reply := client.Invoke(call);
      sw.Stop();
      if reply.err != None {
        metricsClient.IncCounter(scope, CadenceClientFailures);
      }
      response, err := reply.response, reply.err;
    }

    method ListTaskListPartitions(request: PlainRequest) returns (response: Option<Body>, err: Option<ErrorValue>)
      requires Valid()
      modifies metricsClient.recorder
      ensures var call := Call(Operation.ListTaskListPartitions, Plain(request));
        Decorated(old(metricsClient.recorder.events), metricsClient.recorder.events, call)
        && InnerReply(old(metricsClient.recorder.events), call) == Reply(response, err)
    {
      ghost var history := metricsClient.recorder.events;
      var scope := MatchingClientListTaskListPartitionsScope;
      metricsClient.IncCounter(scope, CadenceClientRequests);
      var sw := metricsClient.StartTimer(scope, CadenceClientLatency);
      var call := Call(Operation.ListTaskListPartitions, Plain(request));
      assert metricsClient.recorder.events == history + Opening(reservedPrefix, call);
      var reply := client.Invoke(call);
      sw.Stop();
      if reply.err != None {
        metricsClient.IncCounter(scope, CadenceClientFailures);
      }
      response, err := reply.response, reply.err;
    }
  }
}
