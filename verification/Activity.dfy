/** The server's fold of a session's event stream into an activity state: phase, running tool calls,
    running subagents, waiting state (src/server/copilot-aggregator/aggregator.ts). */
module Activity {
  import opened Optional
  import opened SessionEvents

  datatype Phase = Idle | Thinking | InTool | InSubagent | Waiting | Failed
  datatype RunStatus = Running | Completed | RunFailed
  datatype SessionStatus = IdleStatus | ActiveStatus | ErrorStatus | EndedStatus

  datatype ToolCall = ToolCall(id: string, name: string, status: RunStatus, startedAt: int, progress: Option<string>)
  datatype RecentEvent = RecentEvent(etype: EventType, summary: string, timestamp: int)
  datatype Subagent = Subagent(
    id: string, name: string, displayName: string, status: RunStatus, startedAt: int,
    tools: seq<ToolCall>, recent: seq<RecentEvent>)
  datatype BackgroundTask = BackgroundTask(id: string, description: string)
  datatype WaitKind = UserInput | Elicitation | PlanExit | Permission
  datatype WaitingState = WaitingState(
    kind: WaitKind, requestId: string, question: Option<string>, choices: Option<seq<string>>,
    toolName: Option<string>, toolArgs: Option<Args>)
  datatype TokenUsage = TokenUsage(used: int, limit: Option<int>)

  datatype State = State(
    phase: Phase, intent: Option<string>, tools: seq<ToolCall>, subagents: seq<Subagent>,
    background: seq<BackgroundTask>, waiting: Option<WaitingState>, usage: Option<TokenUsage>, turnCount: int)

  const DEFAULT_ACTIVITY := State(Idle, None, [], [], [], None, None, 0)

  // ---- lookups and list updates ----

  predicate HasRunningTool(tools: seq<ToolCall>) {
    exists i :: 0 <= i < |tools| && tools[i].status == Running
  }

  predicate HasRunningSubagent(subs: seq<Subagent>) {
    exists i :: 0 <= i < |subs| && subs[i].status == Running
  }

  function DerivePhase(waiting: Option<WaitingState>, subs: seq<Subagent>, tools: seq<ToolCall>): Phase {
    if waiting.Some? then Waiting
    else if HasRunningSubagent(subs) then InSubagent
    else if HasRunningTool(tools) then InTool
    else Idle
  }

  /** Position of the first tool call with this id, or the length of the list. */
  function FindTool(tools: seq<ToolCall>, id: string): (i: nat)
    ensures i <= |tools| && (i < |tools| ==> tools[i].id == id)
    ensures forall j :: 0 <= j < i ==> tools[j].id != id
  {
    if tools == [] || tools[0].id == id then 0 else 1 + FindTool(tools[1..], id)
  }

  function FindSubagent(subs: seq<Subagent>, id: string): (i: nat)
    ensures i <= |subs| && (i < |subs| ==> subs[i].id == id)
    ensures forall j :: 0 <= j < i ==> subs[j].id != id
  {
    if subs == [] || subs[0].id == id then 0 else 1 + FindSubagent(subs[1..], id)
  }

  function RunningTools(tools: seq<ToolCall>): (r: seq<ToolCall>)
    ensures forall i :: 0 <= i < |r| ==> r[i].status == Running
  {
    if tools == [] then []
    else if tools[0].status == Running then [tools[0]] + RunningTools(tools[1..])
    else RunningTools(tools[1..])
  }

  function RunningSubagents(subs: seq<Subagent>): seq<Subagent> {
    if subs == [] then []
    else if subs[0].status == Running then [subs[0]] + RunningSubagents(subs[1..])
    else RunningSubagents(subs[1..])
  }

  /** The first call with the id is gone, and so is everything not running; the outcome leaves no trace in the list. */
  function CompleteTool(tools: seq<ToolCall>, id: string): seq<ToolCall> {
    if tools == [] then []
    else if tools[0].id == id then RunningTools(tools[1..])
    else if tools[0].status == Running then [tools[0]] + CompleteTool(tools[1..], id)
    else CompleteTool(tools[1..], id)
  }

  function SetProgress(tools: seq<ToolCall>, id: string, progress: string): seq<ToolCall> {
    var i := FindTool(tools, id);
    if i < |tools| then tools[i := tools[i].(progress := Some(progress))] else tools
  }

  /** The last nine recent events and the new one. */
  function Remember(recent: seq<RecentEvent>, e: RecentEvent): seq<RecentEvent> {
    (if |recent| <= 9 then recent else recent[|recent| - 9..]) + [e]
  }

  // ---- identifiers and defaults ----

  function StartedToolId(e: Event): string { e.data.toolCallId.GetOr("tool-" + Decimal(e.ts)) }
  function StartedToolName(e: Event): string { e.data.toolName.Or(e.data.name).GetOr("unknown") }
  function EndedToolId(e: Event): string { e.data.toolCallId.GetOr("") }
  function StartedSubagentId(e: Event): string { e.data.toolCallId.Or(e.data.agentId).GetOr("sub-" + Decimal(e.ts)) }
  function EndedSubagentId(e: Event): string { e.data.toolCallId.Or(e.data.agentId).GetOr("") }
  function Succeeded(e: Event): bool { e.data.success != Some(false) }

  function NewTool(e: Event): ToolCall { ToolCall(StartedToolId(e), StartedToolName(e), Running, e.ts, None) }

  function NewSubagent(e: Event): Subagent {
    var name := e.data.agentName.Or(e.data.name).GetOr("subagent");
    Subagent(StartedSubagentId(e), name, e.data.agentDisplayName.Or(e.data.displayName).GetOr(name), Running, e.ts,
             [], [RecentEvent(e.etype, "Started", e.ts)])
  }

  function AgentTasks(agents: seq<BackgroundAgent>): seq<BackgroundTask> {
    if agents == [] then []
    else [BackgroundTask(agents[0].agentId, agents[0].description.Or(agents[0].agentType).GetOr("Background agent"))]
         + AgentTasks(agents[1..])
  }

  function ShellTasks(shells: seq<BackgroundShell>): seq<BackgroundTask> {
    if shells == [] then []
    else [BackgroundTask(shells[0].shellId, shells[0].description.GetOr("Background shell"))] + ShellTasks(shells[1..])
  }

  function BackgroundTasks(d: EventData): seq<BackgroundTask> {
    AgentTasks(d.agents.GetOr([])) + ShellTasks(d.shells.GetOr([]))
  }

  function WaitFor(e: Event): WaitingState
    requires IsRequest(e.etype)
  {
    var d := e.data;
    var id := d.requestId.GetOr("");
    match e.etype
    case UserInputRequested => WaitingState(UserInput, id, d.question.Or(d.message), d.choices, None, None)
    case ElicitationRequested => WaitingState(Elicitation, id, d.question.Or(d.message), d.choices, None, None)
    case PlanExitRequested =>
      var question := "The agent wants to exit plan mode and begin executing. Approve?";
      WaitingState(PlanExit, id, Some(question), None, None, None)
    case PermissionRequested => WaitingState(Permission, id, None, None, d.toolName, d.toolArgs)
  }

  predicate IsRequest(t: EventType) {
    t.UserInputRequested? || t.ElicitationRequested? || t.PlanExitRequested? || t.PermissionRequested?
  }

  predicate IsAnswer(t: EventType) {
    t.UserInputCompleted? || t.ElicitationCompleted? || t.PlanExitCompleted? || t.PermissionCompleted?
  }

  predicate IsSubagentEnd(t: EventType) {
    t.SubagentCompleted? || t.SubagentFailed?
  }

  // ---- the step function ----

  function StartTool(a: State, e: Event): State {
    if Truthy(e.data.agentId) then
      var i := FindSubagent(a.subagents, e.data.agentId.value);
      var b := a.(phase := InSubagent);
      if i == |a.subagents| then b
      else
        var sub := a.subagents[i];
        var seen := RecentEvent(e.etype, "Running " + StartedToolName(e), e.ts);
        b.(subagents := a.subagents[i := sub.(tools := sub.tools + [NewTool(e)], recent := Remember(sub.recent, seen))])
    else a.(phase := InTool, tools := a.tools + [NewTool(e)])
  }

  function EndTool(a: State, e: Event): State {
    var b :=
      if Truthy(e.data.agentId) then
        var i := FindSubagent(a.subagents, e.data.agentId.value);
        if i == |a.subagents| then a
        else
          var sub := a.subagents[i];
          a.(subagents := a.subagents[i := sub.(tools := CompleteTool(sub.tools, EndedToolId(e)))])
      else a.(tools := CompleteTool(a.tools, EndedToolId(e)));
    b.(phase := DerivePhase(b.waiting, b.subagents, b.tools))
  }

  function ProgressTool(a: State, e: Event): State {
    var progress := e.data.progressMessage.Or(e.data.progress).GetOr("");
    if Truthy(e.data.agentId) then
      var i := FindSubagent(a.subagents, e.data.agentId.value);
      if i == |a.subagents| then a
      else
        var sub := a.subagents[i];
        a.(subagents := a.subagents[i := sub.(tools := SetProgress(sub.tools, EndedToolId(e), progress))])
    else a.(tools := SetProgress(a.tools, EndedToolId(e), progress))
  }

  /** The first subagent with the id is gone, and so is everything not running. */
  function EndIn(subs: seq<Subagent>, id: string): seq<Subagent> {
    if subs == [] then []
    else if subs[0].id == id then RunningSubagents(subs[1..])
    else if subs[0].status == Running then [subs[0]] + EndIn(subs[1..], id)
    else EndIn(subs[1..], id)
  }

  function EndSubagent(a: State, e: Event): State {
    var left := EndIn(a.subagents, EndedSubagentId(e));
    a.(subagents := left, phase := DerivePhase(a.waiting, left, a.tools))
  }

  function GoIdle(a: State, e: Event): State {
    var tasks := BackgroundTasks(e.data);
    a.(tools := [], waiting := None, intent := None, background := tasks,
       phase := if tasks == [] then Idle else InSubagent)
  }

  function NoteDelta(a: State, e: Event): State {
    if !Truthy(e.data.agentId) then a
    else
      var i := FindSubagent(a.subagents, e.data.agentId.value);
      if i == |a.subagents| then a
      else
        var sub := a.subagents[i];
        var seen := RecentEvent(e.etype, "Responding…", e.ts);
        a.(subagents := a.subagents[i := sub.(recent := Remember(sub.recent, seen))])
  }

  function PreviousLimit(a: State): Option<int> {
    if a.usage.Some? then a.usage.value.limit else None
  }

  function UpdateUsage(a: State, e: Event): State {
    if e.etype.UsageInfo? then
      var used := e.data.currentTokens.Or(e.data.totalTokens);
      if used.None? then a else a.(usage := Some(TokenUsage(used.value, e.data.tokenLimit.Or(PreviousLimit(a)))))
    else
      var total := e.data.inputTokens.GetOr(0) + e.data.outputTokens.GetOr(0);
      if total <= 0 then a else a.(usage := Some(TokenUsage(total, PreviousLimit(a))))
  }

  function Answered(a: State): State {
    a.(waiting := None, phase := DerivePhase(None, a.subagents, a.tools))
  }

  /** The effect of one event; a shutdown resets the activity. */
  function Step(a: State, e: Event): State {
    match e.etype
    case SessionShutdown => DEFAULT_ACTIVITY
    case TurnStart => a.(turnCount := a.turnCount + 1, phase := Thinking, tools := [])
    case TurnEnd => a.(phase := DerivePhase(a.waiting, a.subagents, a.tools))
    case IntentEvent => a.(intent := e.data.intent.Or(e.data.message))
    case ToolStart => StartTool(a, e)
    case ToolComplete => EndTool(a, e)
    case ToolProgress => ProgressTool(a, e)
    case SubagentStarted => a.(subagents := a.subagents + [NewSubagent(e)], phase := InSubagent)
    case SubagentCompleted => EndSubagent(a, e)
    case SubagentFailed => EndSubagent(a, e)
    case SessionIdle => GoIdle(a, e)
    case UserInputRequested => a.(waiting := Some(WaitFor(e)), phase := Waiting)
    case ElicitationRequested => a.(waiting := Some(WaitFor(e)), phase := Waiting)
    case PlanExitRequested => a.(waiting := Some(WaitFor(e)), phase := Waiting)
    case PermissionRequested => a.(waiting := Some(WaitFor(e)), phase := Waiting)
    case UserInputCompleted => Answered(a)
    case ElicitationCompleted => Answered(a)
    case PlanExitCompleted => Answered(a)
    case PermissionCompleted => Answered(a)
    case UsageInfo => UpdateUsage(a, e)
    case AssistantUsage => UpdateUsage(a, e)
    case MessageDelta => NoteDelta(a, e)
    case StreamingDelta => NoteDelta(a, e)
    case SessionError => a.(phase := Failed)
    case _ => a
  }

  /** The activity after a stream of events; a session is created with the default activity. */
  function Fold(events: seq<Event>): State {
    if events == [] then DEFAULT_ACTIVITY else Step(Fold(events[..|events| - 1]), events[|events| - 1])
  }

  function NextStatus(s: SessionStatus, t: EventType): SessionStatus {
    if t.SessionShutdown? then EndedStatus
    else if t.SessionIdle? || t.SessionStart? || t.AssistantMessage? then IdleStatus
    else if t.SessionError? then ErrorStatus
    else if t.UserMessage? || t.StreamingDelta? || t.MessageDelta? || t.ToolStart? then ActiveStatus
    else s
  }

  // ---- marking and filtering is removing ----

  /** Giving the first call with the id an outcome and keeping only running calls removes that call. */
  lemma {:induction false} MarkThenFilter(tools: seq<ToolCall>, id: string, outcome: RunStatus)
    requires outcome != Running
    ensures var i := FindTool(tools, id);
            RunningTools(if i < |tools| then tools[i := tools[i].(status := outcome)] else tools) ==
            CompleteTool(tools, id)
  {
    if tools != [] {
      var rest, i := tools[1..], FindTool(tools, id);
      if i == 0 {
        assert tools[0 := tools[0].(status := outcome)][1..] == rest;
      } else {
        MarkThenFilter(rest, id, outcome);
        assert FindTool(rest, id) == i - 1;
        assert i < |tools| ==>
            tools[i := tools[i].(status := outcome)][1..] == rest[i - 1 := rest[i - 1].(status := outcome)];
      }
    }
  }

  lemma {:induction false} MarkSubagentThenFilter(subs: seq<Subagent>, id: string, outcome: RunStatus)
    requires outcome != Running
    ensures var i := FindSubagent(subs, id);
            RunningSubagents(if i < |subs| then subs[i := subs[i].(status := outcome, tools := [])] else subs) ==
            EndIn(subs, id)
  {
    if subs != [] {
      var rest, i := subs[1..], FindSubagent(subs, id);
      if i == 0 {
        assert subs[0 := subs[0].(status := outcome, tools := [])][1..] == rest;
      } else {
        MarkSubagentThenFilter(rest, id, outcome);
        assert FindSubagent(rest, id) == i - 1;
        assert i < |subs| ==> subs[i := subs[i].(status := outcome, tools := [])][1..] ==
                              rest[i - 1 := rest[i - 1].(status := outcome, tools := [])];
      }
    }
  }

  // ---- the session object ----

  /** One tracked session.  The aggregator's map only dispatches events to the session they name. */
  class AggregatedSession {
    var status: SessionStatus
    var phase: Phase
    var intent: Option<string>
    var activeToolCalls: seq<ToolCall>
    var activeSubagents: seq<Subagent>
    var backgroundTasks: seq<BackgroundTask>
    var waitingState: Option<WaitingState>
    var tokenUsage: Option<TokenUsage>
    var turnCount: int

    ghost function View(): State
      reads this
    {
      State(phase, intent, activeToolCalls, activeSubagents, backgroundTasks, waitingState, tokenUsage, turnCount)
    }

    constructor ()
      ensures View() == DEFAULT_ACTIVITY && status == IdleStatus
    {
      status := IdleStatus;
      phase, intent, activeToolCalls, activeSubagents := Idle, None, [], [];
      backgroundTasks, waitingState, tokenUsage, turnCount := [], None, None, 0;
    }

    method ResetActivity()
      modifies this
      ensures View() == DEFAULT_ACTIVITY && status == old(status)
    {
      phase, intent, activeToolCalls, activeSubagents := Idle, None, [], [];
      backgroundTasks, waitingState, tokenUsage, turnCount := [], None, None, 0;
    }

    method HandleSessionEvent(e: Event)
      modifies this
      ensures View() == Step(old(View()), e)
      ensures status == NextStatus(old(status), e.etype)
    {
      if e.etype.SessionShutdown? {
        status := EndedStatus;
        ResetActivity();
        return;
      }
      if e.etype.SessionIdle? || e.etype.SessionStart? || e.etype.AssistantMessage? {
        status := IdleStatus;
      } else if e.etype.SessionError? {
        status := ErrorStatus;
      } else if e.etype.UserMessage? || e.etype.StreamingDelta? || e.etype.MessageDelta? || e.etype.ToolStart? {
        status := ActiveStatus;
      }
      UpdateActivity(e);
    }

    method UpdateActivity(e: Event)
      requires !e.etype.SessionShutdown?
      modifies this
      ensures View() == Step(old(View()), e) && status == old(status)
    {
      match e.etype
      case TurnStart =>
        turnCount := turnCount + 1;
        phase := Thinking;
        activeToolCalls := [];
      case TurnEnd => phase := DerivePhase(waitingState, activeSubagents, activeToolCalls);
      case IntentEvent => intent := e.data.intent.Or(e.data.message);
      case ToolStart => OnToolStart(e);
      case ToolComplete => OnToolComplete(e);
      case ToolProgress => OnToolProgress(e);
      case SubagentStarted =>
        activeSubagents := activeSubagents + [NewSubagent(e)];
        phase := InSubagent;
      case SubagentCompleted => OnSubagentEnd(e, Completed);
      case SubagentFailed => OnSubagentEnd(e, RunFailed);
      case SessionIdle => OnIdle(e);
      case UsageInfo => OnUsage(e);
      case AssistantUsage => OnUsage(e);
      case MessageDelta => OnDelta(e);
      case StreamingDelta => OnDelta(e);
      case SessionError => phase := Failed;
      case UserInputRequested => AwaitAnswer(e);
      case ElicitationRequested => AwaitAnswer(e);
      case PlanExitRequested => AwaitAnswer(e);
      case PermissionRequested => AwaitAnswer(e);
      case UserInputCompleted => OnAnswer();
      case ElicitationCompleted => OnAnswer();
      case PlanExitCompleted => OnAnswer();
      case PermissionCompleted => OnAnswer();
      case _ =>
    }

    method OnUsage(e: Event)
      requires e.etype.UsageInfo? || e.etype.AssistantUsage?
      modifies this
      ensures View() == UpdateUsage(old(View()), e) && status == old(status)
    {
      if e.etype.UsageInfo? {
        var used := e.data.currentTokens.Or(e.data.totalTokens);
        if used.Some? {
          tokenUsage := Some(TokenUsage(used.value,
            e.data.tokenLimit.Or(if tokenUsage.Some? then tokenUsage.value.limit else None)));
        }
      } else {
        var total := e.data.inputTokens.GetOr(0) + e.data.outputTokens.GetOr(0);
        if total > 0 {
          tokenUsage := Some(TokenUsage(total, if tokenUsage.Some? then tokenUsage.value.limit else None));
        }
      }
    }

    method AwaitAnswer(e: Event)
      requires IsRequest(e.etype)
      modifies this
      ensures View() == old(View()).(waiting := Some(WaitFor(e)), phase := Waiting) && status == old(status)
    {
      waitingState := Some(WaitFor(e));
      phase := Waiting;
    }

    method OnAnswer()
      modifies this
      ensures View() == Answered(old(View())) && status == old(status)
    {
      waitingState := None;
      phase := DerivePhase(waitingState, activeSubagents, activeToolCalls);
    }

    method OnToolStart(e: Event)
      requires e.etype.ToolStart?
      modifies this
      ensures View() == StartTool(old(View()), e) && status == old(status)
    {
      if Truthy(e.data.agentId) {
        var i := FindSubagent(activeSubagents, e.data.agentId.value);
        if i < |activeSubagents| {
          var sub := activeSubagents[i];
          sub := sub.(tools := sub.tools + [NewTool(e)]);
          sub := sub.(recent := Remember(sub.recent, RecentEvent(e.etype, "Running " + StartedToolName(e), e.ts)));
          activeSubagents := activeSubagents[i := sub];
        }
        phase := InSubagent;
      } else {
        activeToolCalls := activeToolCalls + [NewTool(e)];
        phase := InTool;
      }
    }

    method OnToolComplete(e: Event)
      requires e.etype.ToolComplete?
      modifies this
      ensures View() == EndTool(old(View()), e) && status == old(status)
    {
      if Truthy(e.data.agentId) {
        var i := FindSubagent(activeSubagents, e.data.agentId.value);
        if i < |activeSubagents| {
          var calls := MarkAndFilter(activeSubagents[i].tools, EndedToolId(e), Succeeded(e));
          activeSubagents := activeSubagents[i := activeSubagents[i].(tools := calls)];
        }
      } else {
        activeToolCalls := MarkAndFilter(activeToolCalls, EndedToolId(e), Succeeded(e));
      }
      phase := DerivePhase(waitingState, activeSubagents, activeToolCalls);
    }

    /** Sets the outcome of the first call with the id and keeps only running calls. */
    static method MarkAndFilter(calls: seq<ToolCall>, id: string, success: bool) returns (left: seq<ToolCall>)
      ensures left == CompleteTool(calls, id)
    {
      var idx := FindTool(calls, id);
      left := calls;
      MarkThenFilter(calls, id, if success then Completed else RunFailed);
      if idx < |calls| {
        left := left[idx := left[idx].(status := if success then Completed else RunFailed)];
      }
      left := RunningTools(left);
    }

    method OnToolProgress(e: Event)
      requires e.etype.ToolProgress?
      modifies this
      ensures View() == ProgressTool(old(View()), e) && status == old(status)
    {
      var progress := e.data.progressMessage.Or(e.data.progress).GetOr("");
      if Truthy(e.data.agentId) {
        var i := FindSubagent(activeSubagents, e.data.agentId.value);
        if i < |activeSubagents| {
          var sub := activeSubagents[i];
          activeSubagents := activeSubagents[i := sub.(tools := SetProgress(sub.tools, EndedToolId(e), progress))];
        }
      } else {
        activeToolCalls := SetProgress(activeToolCalls, EndedToolId(e), progress);
      }
    }

    method OnSubagentEnd(e: Event, outcome: RunStatus)
      requires IsSubagentEnd(e.etype) && outcome == (if e.etype.SubagentCompleted? then Completed else RunFailed)
      modifies this
      ensures View() == EndSubagent(old(View()), e) && status == old(status)
    {
      var i := FindSubagent(activeSubagents, EndedSubagentId(e));
      MarkSubagentThenFilter(activeSubagents, EndedSubagentId(e), outcome);
      if i < |activeSubagents| {
        activeSubagents := activeSubagents[i := activeSubagents[i].(status := outcome, tools := [])];
      }
      activeSubagents := RunningSubagents(activeSubagents);
      phase := DerivePhase(waitingState, activeSubagents, activeToolCalls);
    }

    method OnIdle(e: Event)
      requires e.etype.SessionIdle?
      modifies this
      ensures View() == GoIdle(old(View()), e) && status == old(status)
    {
      activeToolCalls := [];
      waitingState := None;
      intent := None;
      var tasks := CollectTasks(e.data.agents.GetOr([]), e.data.shells.GetOr([]));
      backgroundTasks := tasks;
      phase := if |tasks| > 0 then InSubagent else Idle;
    }

    static method CollectTasks(
      agents: seq<BackgroundAgent>, shells: seq<BackgroundShell>) returns (tasks: seq<BackgroundTask>)
      ensures tasks == AgentTasks(agents) + ShellTasks(shells)
    {
      tasks := [];
      for k := 0 to |agents|
        invariant tasks + AgentTasks(agents[k..]) == AgentTasks(agents)
      {
        var a := agents[k];
        var task := BackgroundTask(a.agentId, a.description.Or(a.agentType).GetOr("Background agent"));
        TaskRound(tasks, task, AgentTasks(agents[k + 1..]));
        tasks := tasks + [task];
      }
      for k := 0 to |shells|
        invariant tasks + ShellTasks(shells[k..]) == AgentTasks(agents) + ShellTasks(shells)
      {
        var s := shells[k];
        var task := BackgroundTask(s.shellId, s.description.GetOr("Background shell"));
        TaskRound(tasks, task, ShellTasks(shells[k + 1..]));
        tasks := tasks + [task];
      }
    }

    static lemma TaskRound(done: seq<BackgroundTask>, next: BackgroundTask, rest: seq<BackgroundTask>)
      ensures done + ([next] + rest) == done + [next] + rest
    {
    }

    method OnDelta(e: Event)
      modifies this
      ensures View() == NoteDelta(old(View()), e) && status == old(status)
    {
      if Truthy(e.data.agentId) {
        var i := FindSubagent(activeSubagents, e.data.agentId.value);
        if i < |activeSubagents| {
          var sub := activeSubagents[i];
          var seen := RecentEvent(e.etype, "Responding…", e.ts);
          activeSubagents := activeSubagents[i := sub.(recent := Remember(sub.recent, seen))];
        }
      }
    }
  }
}
