/** What one event does to the conversation entries: nothing, or one of three changes
    (src/client/services/event-processor.ts). */
module EventEffects {
  import opened Optional
  import opened SessionEvents
  import opened ToolTags
  import opened EventProcessor
  import Text

  datatype Effect =
    | Nothing
    | Adds(owner: Option<string>, y: Entry)
    | Alters(callId: Option<string>, change: ContainerChange)
    | Completes(c: Completion)

  function Apply(r: Refs, e: Event, entries: seq<Entry>, effect: Effect): seq<Entry> {
    match effect
    case Nothing => entries
    case Adds(owner, y) => AddTo(entries, owner, y)
    case Alters(callId, change) => ChangeContainer(entries, callId, change)
    case Completes(c) => CompleteUnder(entries, Owner(r.subagentStack, e), c)
  }

  predicate IsTaskStart(e: Event) {
    e.etype.ToolStart? && ToolNameOf(e) == "task"
  }

  /** A completion that looks for an entry to settle: neither skipped nor the end of a `task`. */
  predicate Settles(r: Refs, e: Event) {
    e.etype.ToolComplete? && !SkippedCompletion(OriginalArgs(r.toolStarts, e), e) && !IsTaskCompletion(e)
  }

  /** How an event alters a container: which one, and to what. */
  predicate IsChangeOf(r: Refs, e: Event, callId: Option<string>, change: ContainerChange) {
    match e.etype
    case ToolComplete =>
      && e.data.toolName == Some("task") && callId == e.data.toolCallId
      && change == SetToolStatus(if e.data.success == Some(true) then ToolCompleted else ToolFailed)
    case AssistantUsage => callId == Owner(r.subagentStack, e) && change == SetUsage(e.data.model, e.data.duration)
    case SubagentStarted =>
      callId == e.data.toolCallId && change == SetStarted(e.data.agentDisplayName, e.data.agentName)
    case SubagentCompleted => callId == e.data.toolCallId && change == SetDone
    case SubagentFailed => callId == e.data.toolCallId && change == SetFailed(e.data.error)
    case _ => false
  }

  predicate IsAgentReport(t: EventType) {
    t.AssistantUsage? || t.SubagentStarted? || t.SubagentCompleted? || t.SubagentFailed?
  }

  /** An added entry goes to the event's owner or to top level, and nests nothing. Tool entries are added by starts,
      agent containers by starts of `task`, at top level, both with the call id of the start. Only completions that
      settle complete, never with the agent tag. */
  predicate IsEffectOf(r: Refs, e: Event, effect: Effect) {
    match effect
    case Nothing => !IsTaskStart(e) && !IsAgentReport(e.etype)
    case Adds(owner, y) =>
      && (owner.None? || owner == Owner(r.subagentStack, e)) && y.nested.None? && !IsAgentReport(e.etype)
      && (y.etype.ToolEntry? ==> e.etype.ToolStart? && y.toolCallId == e.data.toolCallId)
      && (y.tag == Some(Agent) <==> IsTaskStart(e))
      && (IsTaskStart(e) ==> owner.None? && y.toolCallId == e.data.toolCallId && IsNewContainer(y))
    case Alters(callId, change) => IsChangeOf(r, e, callId, change)
    case Completes(c) => Settles(r, e) && c.callId == e.data.toolCallId && c.tag != Some(Agent)
  }

  /** A container of which nothing has been reported yet. */
  predicate IsNewContainer(y: Entry) {
    y.toolStatus == Some(ToolRunning) && y.subagentStatus.None? && y.subagentModel.None? && y.subagentDuration.None?
  }

  /** The tag of a completion that reaches the entry lists is never the agent tag. */
  lemma CompletionIsNotAgent(f: Format, original: Option<ToolStartArgs>, e: Event)
    requires original.Some? ==> Truthy(e.data.toolCallId)
    requires !IsTaskCompletion(e)
    ensures CompletionOf(f, original, e).tag != Some(Agent)
  {
  }

  lemma StartEffect(f: Format, r: Refs, e: Event, entries: seq<Entry>) returns (effect: Effect)
    requires e.etype.ToolStart?
    ensures NextEntries(f, r, e, entries) == Apply(r, e, entries, effect) && IsEffectOf(r, e, effect)
  {
    var owner := Owner(r.subagentStack, e);
    effect :=
      if IsInfra(ToolNameOf(e)) then Nothing
      else if ToolNameOf(e) == "report_intent" then Adds(owner, IntentEntry(e))
      else Adds(if ToolNameOf(e) == "task" then None else owner, StartEntry(f, r.currentIntent, e));
  }

  lemma CompletionEffect(f: Format, r: Refs, e: Event, entries: seq<Entry>) returns (effect: Effect)
    requires e.etype.ToolComplete?
    ensures NextEntries(f, r, e, entries) == Apply(r, e, entries, effect) && IsEffectOf(r, e, effect)
  {
    var original := OriginalArgs(r.toolStarts, e);
    if SkippedCompletion(original, e) {
      effect := Nothing;
    } else if IsTaskCompletion(e) {
      effect := Alters(e.data.toolCallId, SetToolStatus(Outcome(e.data.success)));
    } else {
      CompletionIsNotAgent(f, original, e);
      effect := Completes(CompletionOf(f, original, e));
    }
  }

  lemma AgentEffect(f: Format, r: Refs, e: Event, entries: seq<Entry>) returns (effect: Effect)
    requires e.etype.AssistantMessage? || e.etype.AssistantUsage? || IsSubagentEvent(e.etype)
    ensures NextEntries(f, r, e, entries) == Apply(r, e, entries, effect) && IsEffectOf(r, e, effect)
  {
    var owner := Owner(r.subagentStack, e);
    effect := match e.etype
      case AssistantMessage =>
        if Text.Trim(e.data.content.GetOr("")) == "" || SuppressedEcho(f, r.subagentContent, e) then Nothing
        else Adds(owner, MessageEntry(MessageNotes(r.subagentNames, r.mainAgentName, r.lastUsage, e), e))
      case AssistantUsage => Alters(owner, SetUsage(e.data.model, e.data.duration))
      case SubagentStarted => Alters(e.data.toolCallId, SetStarted(e.data.agentDisplayName, e.data.agentName))
      case SubagentCompleted => Alters(e.data.toolCallId, SetDone)
      case SubagentFailed => Alters(e.data.toolCallId, SetFailed(e.data.error));
  }

  /** An entry that is no tool, no agent and nests nothing. */
  predicate IsPlainEntry(y: Entry) {
    !y.etype.ToolEntry? && y.tag != Some(Agent) && y.nested.None?
  }

  lemma PlainShowsPlain(f: Format, e: Event, entries: seq<Entry>)
    ensures var next := PlainEntries(f, e, entries);
            next == entries || exists y :: next == entries + [y] && IsPlainEntry(y)
  {
    var next := PlainEntries(f, e, entries);
    if next != entries { assert next == entries + [next[|entries|]]; }
  }

  lemma PlainEffect(f: Format, r: Refs, e: Event, entries: seq<Entry>) returns (effect: Effect)
    requires IsPlain(e.etype)
    ensures NextEntries(f, r, e, entries) == Apply(r, e, entries, effect) && IsEffectOf(r, e, effect)
  {
    PlainIsPlain(f, r, e, entries, Batch);
    PlainShowsPlain(f, e, entries);
    effect := Nothing;
    if PlainEntries(f, e, entries) != entries {
      var y :| PlainEntries(f, e, entries) == entries + [y] && IsPlainEntry(y);
      effect := Adds(None, y);
    }
  }

  /** Every event has such an effect. */
  lemma EffectOf(f: Format, r: Refs, e: Event, entries: seq<Entry>) returns (effect: Effect)
    ensures NextEntries(f, r, e, entries) == Apply(r, e, entries, effect) && IsEffectOf(r, e, effect)
  {
    if e.etype.ToolStart? {
      effect := StartEffect(f, r, e, entries);
    } else if e.etype.ToolComplete? {
      effect := CompletionEffect(f, r, e, entries);
    } else if e.etype.AssistantMessage? || e.etype.AssistantUsage? || IsSubagentEvent(e.etype) {
      effect := AgentEffect(f, r, e, entries);
    } else if IsPlain(e.etype) {
      effect := PlainEffect(f, r, e, entries);
    } else {
      effect := Nothing;
    }
  }
}
