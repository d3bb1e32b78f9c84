/** Session events as the SDK streams them, seen through the fields that the two event folds read. */
module SessionEvents {
  import opened Optional

  type Args = map<string, string>

  datatype EventType =
    | UserMessage
    | MessageDelta | StreamingDelta | AssistantMessage
    | ToolStart | ToolComplete | ToolProgress
    | TurnStart | TurnEnd | IntentEvent
    | SubagentSelected | SubagentStarted | SubagentCompleted | SubagentFailed
    | SessionStart | SessionIdle | SessionError | SessionShutdown
    | UserInputRequested | ElicitationRequested | PlanExitRequested | PermissionRequested
    | UserInputCompleted | ElicitationCompleted | PlanExitCompleted | PermissionCompleted
    | UsageInfo | AssistantUsage
    | ReasoningDelta | Reasoning
    | SystemMessage | PendingModified | ModelChange | HqToolInvocation
    | OtherEvent(name: string)

  /** The wire name of an event type. */
  function TypeName(t: EventType): string {
    match t
    case UserMessage => "user.message"
    case MessageDelta => "assistant.message_delta"
    case StreamingDelta => "assistant.streaming_delta"
    case AssistantMessage => "assistant.message"
    case ToolStart => "tool.execution_start"
    case ToolComplete => "tool.execution_complete"
    case ToolProgress => "tool.execution_progress"
    case TurnStart => "assistant.turn_start"
    case TurnEnd => "assistant.turn_end"
    case IntentEvent => "assistant.intent"
    case SubagentSelected => "subagent.selected"
    case SubagentStarted => "subagent.started"
    case SubagentCompleted => "subagent.completed"
    case SubagentFailed => "subagent.failed"
    case SessionStart => "session.start"
    case SessionIdle => "session.idle"
    case SessionError => "session.error"
    case SessionShutdown => "session.shutdown"
    case UserInputRequested => "user_input.requested"
    case ElicitationRequested => "elicitation.requested"
    case PlanExitRequested => "exit_plan_mode.requested"
    case PermissionRequested => "permission.requested"
    case UserInputCompleted => "user_input.completed"
    case ElicitationCompleted => "elicitation.completed"
    case PlanExitCompleted => "exit_plan_mode.completed"
    case PermissionCompleted => "permission.completed"
    case UsageInfo => "session.usage_info"
    case AssistantUsage => "assistant.usage"
    case ReasoningDelta => "assistant.reasoning_delta"
    case Reasoning => "assistant.reasoning"
    case SystemMessage => "system.message"
    case PendingModified => "pending_messages.modified"
    case ModelChange => "session.model_change"
    case HqToolInvocation => "copilot:tool-invocation"
    case OtherEvent(name) => name
  }

  datatype BackgroundAgent = BackgroundAgent(agentId: string, agentType: Option<string>, description: Option<string>)
  datatype BackgroundShell = BackgroundShell(shellId: string, description: Option<string>)

  /** The data object of an event: every field may be missing. */
  datatype EventData = EventData(
    content: Option<string>, deltaContent: Option<string>, message: Option<string>, role: Option<string>,
    toolCallId: Option<string>, toolName: Option<string>, name: Option<string>,
    agentId: Option<string>, parentToolCallId: Option<string>,
    arguments: Option<Args>, success: Option<bool>, resultContent: Option<string>,
    agentName: Option<string>, agentDisplayName: Option<string>, displayName: Option<string>, error: Option<string>,
    progressMessage: Option<string>, progress: Option<string>, intent: Option<string>,
    requestId: Option<string>, question: Option<string>, choices: Option<seq<string>>,
    model: Option<string>, duration: Option<int>, inputTokens: Option<int>, outputTokens: Option<int>,
    initiator: Option<string>, currentTokens: Option<int>, totalTokens: Option<int>, tokenLimit: Option<int>,
    agents: Option<seq<BackgroundAgent>>, shells: Option<seq<BackgroundShell>>,
    tool: Option<string>, args: Option<Args>, toolArgs: Option<Args>)

  const NO_DATA := EventData(
    None, None, None, None, None, None, None, None, None, None, None, None, None, None, None, None, None, None, None,
    None, None, None, None, None, None, None, None, None, None, None, None, None, None, None, None)

  /** An event with its timestamp in epoch milliseconds. */
  datatype Event = Event(etype: EventType, data: EventData, ts: int, id: Option<string>)

  /** Decimal rendering of an integer, as in a template string. */
  function Decimal(n: int): string
    decreases n < 0, if n < 0 then -n else n
  {
    if n < 0 then "-" + Decimal(-n)
    else if n < 10 then ["0123456789"[n]]
    else Decimal(n / 10) + ["0123456789"[n % 10]]
  }
}
