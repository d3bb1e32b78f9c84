/** The rest of the activity state against the history of events: phase, status, intent, background tasks, usage and
    turns, and what an event leaves in a subagent (src/server/copilot-aggregator/aggregator.ts). */
module ActivityHistory {
  import opened Optional
  import opened SessionEvents
  import opened EventFields
  import opened Activity
  import opened ActivityTheorems

  // ---- the phase ----

  /** Neither agents nor shells are reported. */
  predicate NoTasks(e: Event) {
    (e.data.agents.Some? ==> e.data.agents.value == []) && (e.data.shells.Some? ==> e.data.shells.value == [])
  }

  /** The phase that what is open amounts to: waiting before subagents before main tools. */
  ghost function OpenPhase(h: seq<Event>): Phase {
    if LastWait(h).Some? then Waiting
    else if Open(h, SubagentStart, SubagentClosed) != [] then InSubagent
    else if Open(h, MainStart, MainClosed) != [] then InTool
    else Idle
  }

  /** The phase according to the history alone: set by the last event that has a say. */
  ghost function PhaseOf(h: seq<Event>): Phase {
    if h == [] then Idle
    else
      var e := h[|h| - 1];
      if e.etype == SessionShutdown then Idle
      else if e.etype == TurnStart then Thinking
      else if e.etype == ToolStart then (if IsMainStart(e) then InTool else InSubagent)
      else if e.etype == SubagentStarted then InSubagent
      else if IsRequest(e.etype) then Waiting
      else if e.etype == SessionError then Failed
      else if e.etype == SessionIdle then (if NoTasks(e) then Idle else InSubagent)
      else if DerivesPhase(e.etype) then OpenPhase(h)
      else PhaseOf(h[..|h| - 1])
  }

  lemma DerivedFromLists(waiting: Option<WaitingState>, subs: seq<Subagent>, tools: seq<ToolCall>)
    requires AllRunning(tools) && AllFresh(subs)
    ensures DerivePhase(waiting, subs, tools) ==
            if waiting.Some? then Waiting else if subs != [] then InSubagent else if tools != [] then InTool else Idle
  {
    if tools != [] { assert tools[0].status == Running; }
    if subs != [] { assert SubagentFresh(subs[0]); }
  }

  lemma NoTasksExactly(e: Event)
    ensures BackgroundTasks(e.data) == [] <==> NoTasks(e)
  {
  }

  lemma OpenPhaseIsDerived(h: seq<Event>)
    requires DistinctMainTools(h) && CompletionsMatch(h) && DistinctSubagents(h)
    ensures DerivePhase(Fold(h).waiting, Fold(h).subagents, Fold(h).tools) == OpenPhase(h)
  {
    PhaseIsNeverStale(h);
    WaitingRefinesHistory(h);
    MainToolsRefineHistory(h);
    SubagentsRefineHistory(h);
    DerivedFromLists(Fold(h).waiting, Fold(h).subagents, Fold(h).tools);
  }

  lemma StepDerives(a: State, e: Event)
    requires DerivesPhase(e.etype)
    ensures Step(a, e).phase == DerivePhase(Step(a, e).waiting, Step(a, e).subagents, Step(a, e).tools)
  {
  }

  lemma StepSetsPhase(a: State, e: Event)
    requires !DerivesPhase(e.etype)
    ensures Step(a, e).phase ==
            if e.etype == SessionShutdown then Idle
            else if e.etype == TurnStart then Thinking
            else if e.etype == ToolStart then (if IsMainStart(e) then InTool else InSubagent)
            else if e.etype == SubagentStarted then InSubagent
            else if IsRequest(e.etype) then Waiting
            else if e.etype == SessionError then Failed
            else if e.etype == SessionIdle then (if NoTasks(e) then Idle else InSubagent)
            else a.phase
  {
    NoTasksExactly(e);
  }

  /** With distinct ids and matching attributions, the phase is what the history says. */
  lemma {:induction false} PhaseRefinesHistory(h: seq<Event>)
    requires DistinctMainTools(h) && CompletionsMatch(h) && DistinctSubagents(h)
    ensures Fold(h).phase == PhaseOf(h)
  {
    if h != [] {
      var before, e := h[..|h| - 1], h[|h| - 1];
      if DerivesPhase(e.etype) {
        StepDerives(Fold(before), e);
        OpenPhaseIsDerived(h);
      } else {
        assert forall i :: 0 <= i < |before| ==> before[i] == h[i];
        PhaseRefinesHistory(before);
        StepSetsPhase(Fold(before), e);
      }
    }
  }

  // ---- status, turns, intent, background tasks, usage ----

  /** The session status after a stream of events. */
  function StatusAfter(h: seq<Event>): SessionStatus {
    if h == [] then IdleStatus else NextStatus(StatusAfter(h[..|h| - 1]), h[|h| - 1].etype)
  }

  function StatusOf(h: seq<Event>): SessionStatus {
    if h == [] then IdleStatus
    else
      var t := h[|h| - 1].etype;
      if t == SessionShutdown then EndedStatus
      else if t in {SessionIdle, SessionStart, AssistantMessage} then IdleStatus
      else if t == SessionError then ErrorStatus
      else if t in {UserMessage, StreamingDelta, MessageDelta, ToolStart} then ActiveStatus
      else StatusOf(h[..|h| - 1])
  }

  lemma {:induction false} StatusRefinesHistory(h: seq<Event>)
    ensures StatusAfter(h) == StatusOf(h)
  {
    if h != [] { StatusRefinesHistory(h[..|h| - 1]); }
  }

  /** Turns started since the last shutdown. */
  function TurnsOf(h: seq<Event>): nat {
    if h == [] || h[|h| - 1].etype == SessionShutdown then 0
    else TurnsOf(h[..|h| - 1]) + if h[|h| - 1].etype == TurnStart then 1 else 0
  }

  /** What the last intent event said, unless the session went idle or was shut down since. */
  function IntentOf(h: seq<Event>): Option<string> {
    if h == [] then None
    else
      var e := h[|h| - 1];
      if e.etype == SessionIdle || e.etype == SessionShutdown then None
      else if e.etype == IntentEvent then (if e.data.intent.Some? then e.data.intent else e.data.message)
      else IntentOf(h[..|h| - 1])
  }

  function Reported<T>(items: Option<seq<T>>): seq<T> {
    match items
    case Some(list) => list
    case None => []
  }

  function AgentTask(a: BackgroundAgent): BackgroundTask {
    BackgroundTask(a.agentId, FirstOf(a.description, a.agentType, "Background agent"))
  }

  function ShellTask(s: BackgroundShell): BackgroundTask {
    BackgroundTask(s.shellId, FirstOf(s.description, None, "Background shell"))
  }

  /** The tasks are the agents, then the shells, of the last idle since the last shutdown, one for one. */
  ghost predicate AreTasksOf(tasks: seq<BackgroundTask>, agents: seq<BackgroundAgent>, shells: seq<BackgroundShell>) {
    && |tasks| == |agents| + |shells|
    && (forall i :: 0 <= i < |agents| ==> tasks[i] == AgentTask(agents[i]))
    && (forall i :: 0 <= i < |shells| ==> tasks[|agents| + i] == ShellTask(shells[i]))
  }

  ghost predicate TasksFollow(tasks: seq<BackgroundTask>, h: seq<Event>) {
    if h == [] || h[|h| - 1].etype == SessionShutdown then tasks == []
    else if h[|h| - 1].etype == SessionIdle then
      AreTasksOf(tasks, Reported(h[|h| - 1].data.agents), Reported(h[|h| - 1].data.shells))
    else TasksFollow(tasks, h[..|h| - 1])
  }

  lemma {:induction false} AgentTasksAre(agents: seq<BackgroundAgent>)
    ensures |AgentTasks(agents)| == |agents|
    ensures forall i :: 0 <= i < |agents| ==> AgentTasks(agents)[i] == AgentTask(agents[i])
  {
    if agents != [] { AgentTasksAre(agents[1..]); }
  }

  lemma {:induction false} ShellTasksAre(shells: seq<BackgroundShell>)
    ensures |ShellTasks(shells)| == |shells|
    ensures forall i :: 0 <= i < |shells| ==> ShellTasks(shells)[i] == ShellTask(shells[i])
  {
    if shells != [] { ShellTasksAre(shells[1..]); }
  }

  lemma BackgroundTasksAre(e: Event)
    ensures AreTasksOf(BackgroundTasks(e.data), Reported(e.data.agents), Reported(e.data.shells))
  {
    AgentTasksAre(Reported(e.data.agents));
    ShellTasksAre(Reported(e.data.shells));
  }

  function FirstNumber(a: Option<int>, b: Option<int>): Option<int> {
    if a.Some? then a else b
  }

  function Amount(a: Option<int>): int {
    if a.Some? then a.value else 0
  }

  /** The limit a usage record carries on. */
  function LimitOf(usage: Option<TokenUsage>): Option<int> {
    if usage.Some? then usage.value.limit else None
  }

  /** The last usage reported since the last shutdown; a limit is kept until another one is reported. */
  function UsageOf(h: seq<Event>): Option<TokenUsage> {
    if h == [] || h[|h| - 1].etype == SessionShutdown then None
    else
      var e, before := h[|h| - 1], UsageOf(h[..|h| - 1]);
      var tokens := Amount(e.data.inputTokens) + Amount(e.data.outputTokens);
      if e.etype == UsageInfo && FirstNumber(e.data.currentTokens, e.data.totalTokens).Some? then
        Some(TokenUsage(FirstNumber(e.data.currentTokens, e.data.totalTokens).value,
                        FirstNumber(e.data.tokenLimit, LimitOf(before))))
      else if e.etype == AssistantUsage && tokens > 0 then Some(TokenUsage(tokens, LimitOf(before)))
      else before
  }

  lemma StepOnPlainFields(a: State, e: Event)
    requires e.etype != SessionShutdown
    ensures Step(a, e).turnCount == a.turnCount + if e.etype == TurnStart then 1 else 0
    ensures Step(a, e).intent ==
            if e.etype == SessionIdle then None
            else if e.etype == IntentEvent then (if e.data.intent.Some? then e.data.intent else e.data.message)
            else a.intent
    ensures Step(a, e).background == if e.etype == SessionIdle then BackgroundTasks(e.data) else a.background
  {
  }

  lemma StepOnUsage(a: State, e: Event)
    requires e.etype != SessionShutdown
    ensures var tokens := Amount(e.data.inputTokens) + Amount(e.data.outputTokens);
            Step(a, e).usage ==
            if e.etype == UsageInfo && FirstNumber(e.data.currentTokens, e.data.totalTokens).Some? then
              Some(TokenUsage(FirstNumber(e.data.currentTokens, e.data.totalTokens).value,
                              FirstNumber(e.data.tokenLimit, LimitOf(a.usage))))
            else if e.etype == AssistantUsage && tokens > 0 then Some(TokenUsage(tokens, LimitOf(a.usage)))
            else a.usage
  {
    if e.etype != UsageInfo && e.etype != AssistantUsage { OthersKeepUsage(a, e); }
  }

  lemma OthersKeepUsage(a: State, e: Event)
    requires e.etype != SessionShutdown && e.etype != UsageInfo && e.etype != AssistantUsage
    ensures Step(a, e).usage == a.usage
  {
  }

  /** Turn count, intent, background tasks and usage are what the history says. */
  lemma {:induction false} FieldsRefineHistory(h: seq<Event>)
    ensures Fold(h).turnCount == TurnsOf(h) && Fold(h).intent == IntentOf(h) && Fold(h).usage == UsageOf(h)
    ensures TasksFollow(Fold(h).background, h)
  {
    if h != [] {
      var before, e := h[..|h| - 1], h[|h| - 1];
      FieldsRefineHistory(before);
      if e.etype != SessionShutdown {
        StepOnPlainFields(Fold(before), e);
        StepOnUsage(Fold(before), e);
        BackgroundTasksAre(e);
      }
    }
  }

  // ---- what an event leaves in a list ----

  /** `i` is the position of the first subagent with this id. */
  ghost predicate IsFirstSubagent(subs: seq<Subagent>, id: string, i: nat) {
    i < |subs| && subs[i].id == id && forall j :: 0 <= j < i ==> subs[j].id != id
  }

  ghost predicate IsFirstTool(tools: seq<ToolCall>, id: string, i: nat) {
    i < |tools| && tools[i].id == id && forall j :: 0 <= j < i ==> tools[j].id != id
  }

  function LastTen(events: seq<RecentEvent>): seq<RecentEvent> {
    if |events| <= 10 then events else events[|events| - 10..]
  }

  lemma RememberIsLastTen(recent: seq<RecentEvent>, e: RecentEvent)
    ensures Remember(recent, e) == LastTen(recent + [e])
  {
  }

  /** A subagent that starts is listed last, running, with its start as its first recent event. */
  lemma SubagentStartEffect(a: State, e: Event)
    requires e.etype == SubagentStarted
    ensures Step(a, e).subagents ==
            a.subagents +
            [Subagent(OpenedAgent(e), OpenedAgentName(e), OpenedAgentTitle(e), Running, e.ts, [],
                      [RecentEvent(SubagentStarted, "Started", e.ts)])]
  {
  }

  /** A main tool that starts is listed last, running, without progress. */
  lemma MainStartEffect(a: State, e: Event)
    requires IsMainStart(e)
    ensures Step(a, e).tools == a.tools + [ToolCall(OpenedCall(e), OpenedTool(e), Running, e.ts, None)]
  {
  }

  /** A tool that starts under a subagent is listed last under it, and remembered among its last ten events; nothing
      else in the lists changes. */
  lemma SubagentToolEffect(a: State, e: Event, i: nat)
    requires e.etype == ToolStart && Truthy(e.data.agentId) && IsFirstSubagent(a.subagents, e.data.agentId.value, i)
    ensures var sub := a.subagents[i];
            var seen := RecentEvent(ToolStart, "Running " + OpenedTool(e), e.ts);
            Step(a, e).subagents == a.subagents[i := sub.(
              tools := sub.tools + [ToolCall(OpenedCall(e), OpenedTool(e), Running, e.ts, None)],
              recent := LastTen(sub.recent + [seen]))]
    ensures Step(a, e).tools == a.tools
  {
    RememberIsLastTen(a.subagents[i].recent, RecentEvent(ToolStart, "Running " + OpenedTool(e), e.ts));
  }

  /** A delta of a subagent is remembered among its last ten events. */
  lemma DeltaEffect(a: State, e: Event, i: nat)
    requires (e.etype == MessageDelta || e.etype == StreamingDelta) && Truthy(e.data.agentId)
    requires IsFirstSubagent(a.subagents, e.data.agentId.value, i)
    ensures var sub := a.subagents[i];
            Step(a, e).subagents ==
            a.subagents[i := sub.(recent := LastTen(sub.recent + [RecentEvent(e.etype, "Responding…", e.ts)]))]
  {
    RememberIsLastTen(a.subagents[i].recent, RecentEvent(e.etype, "Responding…", e.ts));
  }

  /** Progress of a main tool replaces the progress text of the first tool with that id, and changes nothing else. */
  lemma MainProgressEffect(a: State, e: Event, i: nat)
    requires e.etype == ToolProgress && !Truthy(e.data.agentId) && IsFirstTool(a.tools, NamedCall(e), i)
    ensures Step(a, e) ==
            a.(tools := a.tools[i := a.tools[i].(
                 progress := Some(FirstOf(e.data.progressMessage, e.data.progress, "")))])
  {
  }

  /** Progress of a tool under a subagent, likewise. */
  lemma SubagentProgressEffect(a: State, e: Event, i: nat, j: nat)
    requires e.etype == ToolProgress && Truthy(e.data.agentId) && IsFirstSubagent(a.subagents, e.data.agentId.value, i)
    requires IsFirstTool(a.subagents[i].tools, NamedCall(e), j)
    ensures var sub := a.subagents[i];
            Step(a, e) ==
            a.(subagents := a.subagents[i := sub.(tools := sub.tools[j := sub.tools[j].(
                 progress := Some(FirstOf(e.data.progressMessage, e.data.progress, "")))])])
  {
  }
}
