/** The parts of the matching service's request and response types that the
    metrics decorator reads. Everything else a request or response carries is
    an opaque `Body` that is passed through unchanged. */
module MatchingTypes {

  datatype Option<+T> = None | Some(value: T)

  /** The remainder of a request or response, never inspected by the decorator. */
  type Body = string

  /** A non-nil Go `error`; `None` stands for a nil error. */
  type ErrorValue = string

  datatype TaskList = TaskList(name: string)

  /** The frontend poll request nested inside a matching poll request. */
  datatype PollRequest = PollRequest(taskList: Option<TaskList>, body: Body)

  /** AddActivityTask, AddDecisionTask and QueryWorkflow requests: the task list
      is a direct (optional) field of the request. */
  datatype TaskListRequest = TaskListRequest(forwardedFrom: string, taskList: Option<TaskList>, body: Body)

  /** PollForActivityTask and PollForDecisionTask requests: the task list is
      reached through an optional nested `PollRequest`. */
  datatype PollingRequest = PollingRequest(forwardedFrom: string, pollRequest: Option<PollRequest>, body: Body)

  /** Requests of the remaining operations, of which the decorator reads nothing. */
  datatype PlainRequest = PlainRequest(body: Body)

  datatype Request =
    | ForTaskList(taskListRequest: TaskListRequest)
    | ForPoll(pollingRequest: PollingRequest)
    | Plain(plainRequest: PlainRequest)

  /** The nine operations of the matching client. */
  datatype Operation =
    | AddActivityTask
    | AddDecisionTask
    | PollForActivityTask
    | PollForDecisionTask
    | QueryWorkflow
    | RespondQueryTaskCompleted
    | CancelOutstandingPoll
    | DescribeTaskList
    | ListTaskListPartitions

  /** One call of the inner client: the operation and its request. */
  datatype Call = Call(op: Operation, request: Request)

  /** A call whose request has the shape its operation's Go signature demands. */
  predicate WellTyped(call: Call)
  {
    match call.op
    case AddActivityTask | AddDecisionTask | QueryWorkflow => call.request.ForTaskList?
    case PollForActivityTask | PollForDecisionTask => call.request.ForPoll?
    case _ => call.request.Plain?
  }

  /** What the inner client returns: an optional response and an optional error. */
  datatype Reply = Reply(response: Option<Body>, err: Option<ErrorValue>)
}
