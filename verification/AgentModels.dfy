/** The values the agent loop works on: src/agent_runtime/{models,tracing}.py and runtime/{state,steps}.py. */
module AgentModels {
  import opened Wrappers

  datatype ToolCall = ToolCall(callId: string, toolName: string, arguments: string)

  datatype Rationale = Rationale(summary: string)

  datatype ToolError =
    | UnknownTool(message: string)
    | InvalidArguments
    | ToolExecutionFailed(message: string)

  datatype ToolResult =
    ToolResult(callId: string, toolName: string, ok: bool, output: Option<string>, error: Option<ToolError>)

  datatype AgentMessage = AgentMessage(
    role: string,
    content: Option<string>,
    toolCalls: Option<seq<ToolCall>>,
    toolResult: Option<ToolResult>,
    rationale: Option<Rationale>)

  datatype ToolAction = ToolAction(callId: string, toolName: string, arguments: string, rationale: Option<Rationale>)

  datatype ToolObservation =
    ToolObservation(callId: string, toolName: string, ok: bool, output: Option<string>, error: Option<ToolError>)

  datatype Reason = FinalAnswer | StepLimit | NonRetryableError | ProviderFailure

  datatype StopReason = StopReason(reason: Reason, message: Option<string>, step: nat)

  datatype AgentStep = AgentStep(
    step: nat,
    rationale: Option<Rationale>,
    action: Option<ToolAction>,
    observation: Option<ToolObservation>,
    stopReason: Option<StopReason>)

  datatype EventKind =
    | RunStarted(userInput: string)
    | SkillActivated(name: string)
    | RetrievalMelt
    | RetrievalSuccess
    | MaxStepsExceeded
    | ModelRequested(tokens: nat, dropped: nat, pruned: int)
    | ContextLostInMiddleWarning
    | ModelProviderFailed(error: string)
    | ModelResponded(message: AgentMessage)
    | RationaleRecorded(summary: string)
    | ToolCallReceived(call: ToolCall)
    | ToolActionCreated(toolName: string, callId: string)
    | ToolStarted(toolName: string, callId: string)
    | ToolTransientError(toolName: string, attempt: nat, error: string)
    | ToolSucceeded(toolName: string, callId: string)
    | ToolFailed(toolName: string, callId: string, detail: string)
    | ToolValidationFailed(failure: ToolError, callId: string)
    | ObservationRecorded(callId: string, ok: bool)
    | StepCompleted(callId: string, ok: bool)
    | StopReasonRecorded(reason: Reason)
    | RunCompleted(answer: Option<string>)

  datatype TraceEvent = TraceEvent(kind: EventKind, step: nat)

  datatype Status = Running | Completed | Failed | OutOfSteps

  class TraceRecorder {
    var events: seq<TraceEvent>

    constructor ()
      ensures events == []
    {
      events := [];
    }

    method Record(kind: EventKind, step: nat)
      modifies this
      ensures events == old(events) + [TraceEvent(kind, step)]
    {
      events := events + [TraceEvent(kind, step)];
    }
  }

  class AgentState {
    var messages: seq<AgentMessage>
    var stepCount: nat
    var status: Status
    var steps: seq<AgentStep>
    var traceEvents: seq<TraceEvent>
    var finalAnswer: Option<string>
    var stopReason: Option<Reason>

    constructor (first: AgentMessage)
      ensures messages == [first] && stepCount == 0 && status == Running && steps == [] && traceEvents == []
      ensures finalAnswer == None && stopReason == None
    {
      messages, stepCount, status, steps, traceEvents := [first], 0, Running, [], [];
      finalAnswer, stopReason := None, None;
    }
  }
}
