/** The client's fold of session events into conversation entries, one level of nesting inside agent containers
    (src/client/services/event-processor.ts). */
module EventProcessor {
  import opened Optional
  import opened SessionEvents
  import opened ToolTags
  import Text

  /** Display formatting and dedup normalisation, about which nothing is assumed. */
  datatype Format = Format(
    event: (EventType, EventData) -> string,
    description: (string, Option<Args>) -> string,
    detail: (string, Option<Args>) -> Option<string>,
    normalize: string -> string)

  datatype Mode = Live | Batch

  datatype EntryType = UserEntry | AssistantEntry | ToolEntry | EventEntry | ErrorEntry | HqToolEntry
  datatype ToolStatus = ToolRunning | ToolCompleted | ToolFailed
  datatype ContainerStatus = ContainerRunning | ContainerDone | ContainerFailed
  datatype Usage = Usage(model: string, duration: int, inputTokens: int, outputTokens: int, initiator: string)

  /** One `...spread` into an entry's data object; later layers win. */
  datatype Layer =
    | Raw(data: EventData)
    | OriginalArguments(args: Args)
    | Note(key: string, value: Option<string>)
    | UsageNote(usage: Usage)

  datatype Entry = Entry(
    id: string, etype: EntryType, content: string, timestamp: int,
    toolName: Option<string>, toolStatus: Option<ToolStatus>, hqToolName: Option<string>, hqToolArgs: Option<Args>,
    eventType: Option<EventType>, eventData: seq<Layer>,
    toolCallId: Option<string>, tag: Option<Tag>,
    description: Option<string>, detail: Option<string>, result: Option<string>,
    nested: Option<seq<Entry>>, subagentStatus: Option<ContainerStatus>, subagentModel: Option<string>,
    subagentDuration: Option<int>, intentLabel: Option<string>)

  function NewEntry(id: string, etype: EntryType, content: string, ts: int): Entry {
    Entry(id, etype, content, ts, None, None, None, None, None, [],
          None, None, None, None, None, None, None, None, None, None)
  }

  datatype ToolStartArgs = ToolStartArgs(args: Args, infra: bool)
  datatype Partial = Partial(id: string, content: string)

  /** Cross-event state. */
  datatype Refs = Refs(
    toolStarts: map<string, ToolStartArgs>, subagentNames: map<string, string>, mainAgentName: Option<string>,
    subagentStack: seq<string>, currentIntent: Option<string>, subagentContent: set<string>,
    lastUsage: Option<Usage>, streaming: Option<Partial>, reasoning: Option<Partial>)

  const EMPTY_REFS := Refs(map[], map[], None, [], None, {}, None, None, None)

  // ---- entry lists ----

  predicate IsContainer(e: Entry, id: string) {
    e.toolCallId == Some(id) && e.tag == Some(Agent)
  }

  /** Position of the first container with this call id, or the length of the list. */
  function FindContainer(entries: seq<Entry>, id: string): (i: nat)
    ensures i <= |entries| && (i < |entries| ==> IsContainer(entries[i], id))
  {
    if entries == [] || IsContainer(entries[0], id) then 0 else 1 + FindContainer(entries[1..], id)
  }

  /** Appends inside the owner's container if there is one, else at top level. */
  function AddTo(entries: seq<Entry>, owner: Option<string>, x: Entry): seq<Entry> {
    if Truthy(owner) && FindContainer(entries, owner.value) < |entries| then
      var i := FindContainer(entries, owner.value);
      entries[i := entries[i].(nested := Some(entries[i].nested.GetOr([]) + [x]))]
    else entries + [x]
  }

  /** Position of the first tool entry with this call id, or the length of the list. */
  function FindToolEntry(entries: seq<Entry>, id: string): (i: nat)
    ensures i <= |entries|
  {
    if entries == [] || (entries[0].toolCallId == Some(id) && entries[0].etype.ToolEntry?) then 0
    else 1 + FindToolEntry(entries[1..], id)
  }

  /** Position of the last running tool entry, or -1. */
  function LastRunning(entries: seq<Entry>): (i: int)
    ensures -1 <= i < |entries|
  {
    if entries == [] then -1
    else
      var last := |entries| - 1;
      if entries[last].etype.ToolEntry? && entries[last].toolStatus == Some(ToolRunning) then last
      else LastRunning(entries[..last])
  }

  /** The entry a completion updates: the one with its call id, else the last running one, else -1. */
  function CompletionTarget(entries: seq<Entry>, callId: Option<string>): (i: int)
    ensures -1 <= i < |entries|
  {
    if Truthy(callId) && FindToolEntry(entries, callId.value) < |entries| then FindToolEntry(entries, callId.value)
    else LastRunning(entries)
  }

  function Outcome(success: Option<bool>): ToolStatus {
    if success == Some(true) then ToolCompleted else ToolFailed
  }

  /** What a completion event contributes, apart from the entry it lands on. */
  datatype Completion = Completion(
    callId: Option<string>, toolName: string, status: ToolStatus, result: string,
    tag: Option<Tag>, description: Option<string>, detail: Option<string>, data: seq<Layer>, ts: int)

  function Completed(x: Entry, c: Completion): Entry {
    x.(toolStatus := Some(c.status),
       content := if c.result != "" then c.result else x.content,
       result := Some(c.result),
       tag := if c.tag.Some? && x.tag.None? then c.tag else x.tag,
       description := if Truthy(c.description) && !Truthy(x.description) then c.description else x.description,
       detail := if Truthy(c.detail) && !Truthy(x.detail) then c.detail else x.detail,
       eventData := x.eventData + c.data)
  }

  function StandaloneCompletion(c: Completion): Entry {
    NewEntry("rt-toolcomplete-" + Decimal(c.ts), ToolEntry, c.result, c.ts)
      .(toolName := Some(c.toolName), toolStatus := Some(c.status), toolCallId := c.callId, tag := c.tag,
        description := c.description, detail := c.detail, result := Some(c.result), eventData := c.data)
  }

  function CompleteIn(entries: seq<Entry>, c: Completion): seq<Entry> {
    var i := CompletionTarget(entries, c.callId);
    if i >= 0 then entries[i := Completed(entries[i], c)] else entries + [StandaloneCompletion(c)]
  }

  function CompleteUnder(entries: seq<Entry>, owner: Option<string>, c: Completion): seq<Entry> {
    if Truthy(owner) && c.callId != owner && FindContainer(entries, owner.value) < |entries| then
      var i := FindContainer(entries, owner.value);
      entries[i := entries[i].(nested := Some(CompleteIn(entries[i].nested.GetOr([]), c)))]
    else CompleteIn(entries, c)
  }

  /** In-place changes of an agent container. */
  datatype ContainerChange =
    | SetToolStatus(status: ToolStatus)
    | SetUsage(model: Option<string>, duration: Option<int>)
    | SetStarted(displayName: Option<string>, name: Option<string>)
    | SetDone
    | SetFailed(error: Option<string>)

  function Changed(x: Entry, change: ContainerChange): Entry {
    match change
    case SetToolStatus(status) => x.(toolStatus := Some(status))
    case SetUsage(model, duration) =>
      x.(subagentModel := model,
         subagentDuration := if duration.Some? && duration.value != 0 then duration else x.subagentDuration)
    case SetStarted(displayName, name) =>
      x.(subagentStatus := Some(ContainerRunning), nested := Some(x.nested.GetOr([])),
         eventData := x.eventData + [Note("agentDisplayName", displayName), Note("agentName", name)])
    case SetDone => x.(subagentStatus := Some(ContainerDone))
    case SetFailed(error) =>
      x.(subagentStatus := Some(ContainerFailed), eventData := x.eventData + [Note("error", error)])
  }

  function ChangeContainer(entries: seq<Entry>, id: Option<string>, change: ContainerChange): seq<Entry> {
    if Truthy(id) && FindContainer(entries, id.value) < |entries| then
      var i := FindContainer(entries, id.value);
      entries[i := Changed(entries[i], change)]
    else entries
  }

  // ---- what each event reads ----

  function StackTop(stack: seq<string>): Option<string> {
    if stack == [] then None else Some(stack[|stack| - 1])
  }

  /** The explicit parent, else the innermost running subagent. */
  function Owner(stack: seq<string>, e: Event): Option<string> {
    e.data.parentToolCallId.Or(StackTop(stack))
  }

  predicate IsInfra(toolName: string) {
    toolName == "read_agent" || toolName == "write_agent" || toolName == "list_agents" || toolName == "stop_bash"
  }

  function ToolNameOf(e: Event): string { e.data.toolName.GetOr("tool") }

  function FormattedEntry(f: Format, e: Event): Entry {
    NewEntry("rt-evt-" + TypeName(e.etype) + "-" + Decimal(e.ts), EventEntry, f.event(e.etype, e.data), e.ts)
      .(eventType := Some(e.etype), eventData := [Raw(e.data)])
  }

  function ContentKeys(normalized: string): set<string> {
    {normalized} +
    (if |normalized| > 40 then {normalized[..40]} else {}) +
    (if |normalized| > 20 then {normalized[..20]} else {})
  }

  /** A main-agent message that repeats, or is contained in, something a subagent said. */
  predicate IsEcho(said: set<string>, normalized: string) {
    exists sub :: sub in said && (Text.Includes(normalized, sub) || Text.Includes(sub, normalized))
  }

  predicate SuppressedEcho(f: Format, said: set<string>, e: Event) {
    !Truthy(e.data.parentToolCallId) && IsEcho(said, f.normalize(e.data.content.GetOr("")))
  }

  function SubagentNote(names: map<string, string>, id: string): seq<Layer> {
    if id in names && names[id] != "" then [Note("subagentName", Some(names[id]))] else []
  }

  function UsageNotes(usage: Option<Usage>): seq<Layer> {
    if usage.Some? then [UsageNote(usage.value)] else []
  }

  function MessageNotes(
    names: map<string, string>, mainAgent: Option<string>, usage: Option<Usage>, e: Event): seq<Layer> {
    (if Truthy(e.data.parentToolCallId) then
       [Note("parentToolCallId", e.data.parentToolCallId)] + SubagentNote(names, e.data.parentToolCallId.value)
     else if Truthy(mainAgent) then [Note("agentName", mainAgent)] else []) + UsageNotes(usage)
  }

  function MessageEntry(notes: seq<Layer>, e: Event): Entry {
    NewEntry("rt-asst-" + Decimal(e.ts), AssistantEntry, Text.Trim(e.data.content.GetOr("")), e.ts).(eventData := notes)
  }

  function IntentEntry(e: Event): Entry {
    NewEntry("rt-intent-" + Decimal(e.ts), EventEntry, Arg(e.data.arguments, "intent").GetOr(""), e.ts)
      .(eventType := Some(OtherEvent("report_intent")), toolCallId := e.data.toolCallId, eventData := [Raw(e.data)])
  }

  function StartEntry(f: Format, intent: Option<string>, e: Event): Entry {
    var name := ToolNameOf(e);
    NewEntry("rt-tool-" + e.data.toolCallId.GetOr(Decimal(e.ts)), ToolEntry, name, e.ts)
      .(toolName := Some(name), toolStatus := Some(ToolRunning), toolCallId := e.data.toolCallId,
        tag := Some(ToolTag(name, e.data.arguments)), description := Some(f.description(name, e.data.arguments)),
        detail := f.detail(name, e.data.arguments), intentLabel := intent, eventData := [Raw(e.data)])
  }

  function OriginalArgs(starts: map<string, ToolStartArgs>, e: Event): Option<ToolStartArgs> {
    if Truthy(e.data.toolCallId) && e.data.toolCallId.value in starts then Some(starts[e.data.toolCallId.value])
    else None
  }

  /** Arguments recorded for an infrastructure tool are flagged; arguments that carry the flag themselves count too. */
  predicate Flagged(original: Option<ToolStartArgs>) {
    original.Some? && (original.value.infra || Truthy(Arg(Some(original.value.args), "_infraTool")))
  }

  /** Completions of infrastructure tools and of intent reports leave no trace. */
  predicate SkippedCompletion(original: Option<ToolStartArgs>, e: Event) {
    Flagged(original) || ToolNameOf(e) == "report_intent" || e.data.resultContent == Some("Intent logged")
  }

  predicate IsTaskCompletion(e: Event) {
    ToolNameOf(e) == "task" && Truthy(e.data.toolCallId)
  }

  function CompletionOf(f: Format, original: Option<ToolStartArgs>, e: Event): Completion {
    var name := ToolNameOf(e);
    var args := if original.Some? then Some(original.value.args) else None;
    Completion(e.data.toolCallId, name, Outcome(e.data.success), e.data.resultContent.GetOr(""),
               if args.Some? then Some(ToolTag(name, args)) else None,
               if args.Some? then Some(f.description(name, args)) else None,
               if args.Some? then f.detail(name, args) else None,
               [Raw(e.data)] + (if args.Some? then [OriginalArguments(args.value)] else []), e.ts)
  }

  function UsageOf(e: Event): Usage {
    Usage(e.data.model.GetOr(""), e.data.duration.GetOr(0), e.data.inputTokens.GetOr(0), e.data.outputTokens.GetOr(0),
          e.data.initiator.GetOr(""))
  }

  predicate IsSubagentEvent(t: EventType) {
    t.SubagentStarted? || t.SubagentCompleted? || t.SubagentFailed?
  }

  /** Everything that is about neither messages, tools, agents nor deltas. */
  predicate IsPlain(t: EventType) {
    && !t.AssistantMessage? && !t.ToolStart? && !t.ToolComplete? && !IsSubagentEvent(t)
    && !t.AssistantUsage? && !t.SubagentSelected? && !t.MessageDelta? && !t.ReasoningDelta?
  }

  // ---- effect on the entries ----

  function AddMessage(f: Format, r: Refs, e: Event, entries: seq<Entry>): seq<Entry> {
    if Text.Trim(e.data.content.GetOr("")) == "" || SuppressedEcho(f, r.subagentContent, e) then entries
    else
      var notes := MessageNotes(r.subagentNames, r.mainAgentName, r.lastUsage, e);
      AddTo(entries, Owner(r.subagentStack, e), MessageEntry(notes, e))
  }

  function StartToolEntry(f: Format, r: Refs, e: Event, entries: seq<Entry>): seq<Entry> {
    var name, owner := ToolNameOf(e), Owner(r.subagentStack, e);
    if IsInfra(name) then entries
    else if name == "report_intent" then AddTo(entries, owner, IntentEntry(e))
    else AddTo(entries, if name == "task" then None else owner, StartEntry(f, r.currentIntent, e))
  }

  function CompleteToolEntry(f: Format, r: Refs, e: Event, entries: seq<Entry>): seq<Entry> {
    var original := OriginalArgs(r.toolStarts, e);
    if SkippedCompletion(original, e) then entries
    else if IsTaskCompletion(e) then ChangeContainer(entries, e.data.toolCallId, SetToolStatus(Outcome(e.data.success)))
    else CompleteUnder(entries, Owner(r.subagentStack, e), CompletionOf(f, original, e))
  }

  /** One plain entry at top level, or nothing. */
  function PlainEntries(f: Format, e: Event, entries: seq<Entry>): seq<Entry> {
    match e.etype
    case UserMessage =>
      var content := Text.Trim(e.data.content.GetOr(""));
      if content == "" then entries
      else entries + [NewEntry("evt-user-" + Decimal(e.ts) + "-" + e.id.GetOr(""), UserEntry, content, e.ts)]
    case SessionIdle => entries
    case SessionError =>
      entries + [NewEntry("rt-error-" + Decimal(e.ts), ErrorEntry, e.data.message.GetOr("Session error"), e.ts)]
    case Reasoning =>
      entries + [NewEntry("rt-reasoning-" + Decimal(e.ts), EventEntry, e.data.content.GetOr(""), e.ts)
                 .(eventType := Some(Reasoning))]
    case PendingModified => entries
    case ModelChange => entries
    case HqToolInvocation =>
      entries + [NewEntry("rt-hqtool-" + Decimal(e.ts), HqToolEntry, "", e.ts)
                 .(hqToolName := e.data.tool, hqToolArgs := e.data.args)]
    case _ => entries + [FormattedEntry(f, e)]
  }

  function NextEntries(f: Format, r: Refs, e: Event, entries: seq<Entry>): seq<Entry> {
    match e.etype
    case AssistantMessage => AddMessage(f, r, e, entries)
    case ToolStart => StartToolEntry(f, r, e, entries)
    case ToolComplete => CompleteToolEntry(f, r, e, entries)
    case AssistantUsage => ChangeContainer(entries, Owner(r.subagentStack, e), SetUsage(e.data.model, e.data.duration))
    case SubagentStarted =>
      ChangeContainer(entries, e.data.toolCallId, SetStarted(e.data.agentDisplayName, e.data.agentName))
    case SubagentCompleted => ChangeContainer(entries, e.data.toolCallId, SetDone)
    case SubagentFailed => ChangeContainer(entries, e.data.toolCallId, SetFailed(e.data.error))
    case SubagentSelected => entries
    case MessageDelta => entries
    case ReasoningDelta => entries
    case _ => PlainEntries(f, e, entries)
  }

  // ---- effect on the cross-event state ----

  function Extend(p: Option<Partial>, id: string, delta: Option<string>): Option<Partial> {
    if p.None? then Some(Partial(id, delta.GetOr(""))) else Some(p.value.(content := p.value.content + delta.GetOr("")))
  }

  function AfterMessage(f: Format, r: Refs, e: Event): Refs {
    var s := r.(streaming := None, lastUsage := None, currentIntent := None);
    var normalized := f.normalize(e.data.content.GetOr(""));
    if Text.Trim(e.data.content.GetOr("")) == "" then s
    else if Truthy(e.data.parentToolCallId) then s.(subagentContent := r.subagentContent + ContentKeys(normalized))
    else if SuppressedEcho(f, r.subagentContent, e) then s.(subagentContent := {})
    else s
  }

  function AfterToolStart(r: Refs, e: Event): Refs {
    var name, id, args := ToolNameOf(e), e.data.toolCallId, e.data.arguments;
    var recorded := ToolStartArgs(args.GetOr(map[]), IsInfra(name));
    var started := if Truthy(id) then r.toolStarts[id.value := recorded] else r.toolStarts;
    var description := Arg(args, "description");
    r.(toolStarts := started,
       subagentNames := if name == "task" && Truthy(id) && Truthy(description)
                        then r.subagentNames[id.value := description.value] else r.subagentNames,
       currentIntent := if name == "report_intent" && Truthy(Arg(args, "intent")) then Arg(args, "intent")
                        else r.currentIntent)
  }

  function NotEqual(stack: seq<string>, id: string): (r: seq<string>)
    ensures forall x :: x in r <==> x in stack && x != id
  {
    if stack == [] then []
    else if stack[0] == id then NotEqual(stack[1..], id)
    else [stack[0]] + NotEqual(stack[1..], id)
  }

  function PopSubagent(r: Refs, id: Option<string>): Refs {
    if Truthy(id) then r.(subagentStack := NotEqual(r.subagentStack, id.value)) else r
  }

  /** Deltas accumulate in live mode and are skipped in batch mode. */
  function AfterDelta(r: Refs, e: Event, mode: Mode): Refs {
    if mode.Batch? then r
    else if e.etype.MessageDelta? then
      r.(streaming := Extend(r.streaming, "rt-stream-" + Decimal(e.ts), e.data.deltaContent))
    else r.(reasoning := Extend(r.reasoning, "rt-reasoning-" + Decimal(e.ts), e.data.deltaContent))
  }

  /** Nothing but the partial texts depends on the mode. */
  function NextRefs(f: Format, r: Refs, e: Event, mode: Mode): Refs {
    match e.etype
    case MessageDelta => AfterDelta(r, e, mode)
    case ReasoningDelta => AfterDelta(r, e, mode)
    case AssistantMessage => AfterMessage(f, r, e)
    case ToolStart => AfterToolStart(r, e)
    case Reasoning => r.(reasoning := None)
    case AssistantUsage => r.(lastUsage := Some(UsageOf(e)))
    case SubagentSelected => r.(mainAgentName := e.data.agentDisplayName.Or(e.data.agentName))
    case SubagentStarted =>
      if Truthy(e.data.toolCallId) then r.(subagentStack := r.subagentStack + [e.data.toolCallId.value]) else r
    case SubagentCompleted => PopSubagent(r, e.data.toolCallId)
    case SubagentFailed => PopSubagent(r, e.data.toolCallId)
    case _ => r
  }

  lemma PlainIsPlain(f: Format, r: Refs, e: Event, entries: seq<Entry>, mode: Mode)
    requires IsPlain(e.etype)
    ensures NextRefs(f, r, e, mode) == if e.etype.Reasoning? then r.(reasoning := None) else r
    ensures NextEntries(f, r, e, entries) == PlainEntries(f, e, entries)
  {
  }

  datatype State = State(refs: Refs, entries: seq<Entry>)

  function Step(f: Format, s: State, e: Event, mode: Mode): State {
    State(NextRefs(f, s.refs, e, mode), NextEntries(f, s.refs, e, s.entries))
  }

  function Fold(f: Format, s: State, events: seq<Event>, mode: Mode): State {
    if events == [] then s else Step(f, Fold(f, s, events[..|events| - 1], mode), events[|events| - 1], mode)
  }

  // ---- the processor ----

  class EventProcessorRefs {
    var toolStarts: map<string, ToolStartArgs>
    var subagentNames: map<string, string>
    var mainAgentName: Option<string>
    var subagentStack: seq<string>
    var currentIntent: Option<string>
    var subagentContent: set<string>
    var lastUsage: Option<Usage>
    var streaming: Option<Partial>
    var reasoning: Option<Partial>

    ghost function View(): Refs
      reads this
    {
      Refs(toolStarts, subagentNames, mainAgentName, subagentStack, currentIntent, subagentContent, lastUsage,
           streaming, reasoning)
    }

    constructor ()
      ensures View() == EMPTY_REFS
    {
      toolStarts, subagentNames, mainAgentName, subagentStack := map[], map[], None, [];
      currentIntent, subagentContent, lastUsage, streaming, reasoning := None, {}, None, None, None;
    }

    /** Handles one event: the state is updated in place and the new entry list returned. */
    method ProcessSessionEvent(f: Format, e: Event, entries: seq<Entry>, mode: Mode) returns (next: seq<Entry>)
      modifies this
      ensures View() == NextRefs(f, old(View()), e, mode)
      ensures next == NextEntries(f, old(View()), e, entries)
    {
      if e.etype.AssistantMessage? || e.etype.ToolStart? || e.etype.ToolComplete? {
        next := OnConversationEvent(f, e, entries, mode);
      } else if IsSubagentEvent(e.etype) {
        next := OnSubagentEvent(f, e, entries, mode);
      } else if e.etype.AssistantUsage? || e.etype.SubagentSelected? {
        next := OnMainAgentEvent(f, e, entries, mode);
      } else if e.etype.MessageDelta? || e.etype.ReasoningDelta? {
        next := OnDelta(f, e, entries, mode);
      } else {
        next := OnPlainEvent(f, e, entries, mode);
      }
    }

    method OnConversationEvent(f: Format, e: Event, entries: seq<Entry>, mode: Mode) returns (next: seq<Entry>)
      requires e.etype.AssistantMessage? || e.etype.ToolStart? || e.etype.ToolComplete?
      modifies this
      ensures View() == NextRefs(f, old(View()), e, mode)
      ensures next == NextEntries(f, old(View()), e, entries)
    {
      match e.etype
      case AssistantMessage => next := OnAssistantMessage(f, e, entries);
      case ToolStart => next := OnToolStart(f, e, entries);
      case ToolComplete => next := OnToolComplete(f, e, entries);
    }

    method OnMainAgentEvent(f: Format, e: Event, entries: seq<Entry>, mode: Mode) returns (next: seq<Entry>)
      requires e.etype.AssistantUsage? || e.etype.SubagentSelected?
      modifies this
      ensures View() == NextRefs(f, old(View()), e, mode)
      ensures next == NextEntries(f, old(View()), e, entries)
    {
      if e.etype.AssistantUsage? {
        lastUsage := Some(UsageOf(e));
        next := ChangeContainer(entries, Owner(subagentStack, e), SetUsage(e.data.model, e.data.duration));
      } else {
        mainAgentName := e.data.agentDisplayName.Or(e.data.agentName);
        next := entries;
      }
    }

    method OnSubagentEvent(f: Format, e: Event, entries: seq<Entry>, mode: Mode) returns (next: seq<Entry>)
      requires IsSubagentEvent(e.etype)
      modifies this
      ensures View() == NextRefs(f, old(View()), e, mode)
      ensures next == NextEntries(f, old(View()), e, entries)
    {
      match e.etype
      case SubagentStarted => next := OnSubagentStarted(e, entries);
      case SubagentCompleted => next := OnSubagentEnded(e, entries, SetDone);
      case SubagentFailed => next := OnSubagentEnded(e, entries, SetFailed(e.data.error));
    }

    /** Partial texts grow in live mode only. */
    method OnDelta(f: Format, e: Event, entries: seq<Entry>, mode: Mode) returns (next: seq<Entry>)
      requires e.etype.MessageDelta? || e.etype.ReasoningDelta?
      modifies this
      ensures View() == NextRefs(f, old(View()), e, mode)
      ensures next == NextEntries(f, old(View()), e, entries)
    {
      next := entries;
      if mode.Live? {
        if e.etype.MessageDelta? {
          streaming := Extend(streaming, "rt-stream-" + Decimal(e.ts), e.data.deltaContent);
        } else {
          reasoning := Extend(reasoning, "rt-reasoning-" + Decimal(e.ts), e.data.deltaContent);
        }
      }
    }

    /** The cases that show one plain entry, or nothing. */
    method OnPlainEvent(f: Format, e: Event, entries: seq<Entry>, mode: Mode) returns (next: seq<Entry>)
      requires IsPlain(e.etype)
      modifies this`reasoning
      ensures View() == NextRefs(f, old(View()), e, mode)
      ensures next == NextEntries(f, old(View()), e, entries)
    {
      PlainIsPlain(f, View(), e, entries, mode);
      if e.etype.Reasoning? {
        reasoning := None;
      }
      next := ShowPlain(f, e, entries);
    }

    static method ShowPlain(f: Format, e: Event, entries: seq<Entry>) returns (next: seq<Entry>)
      ensures next == PlainEntries(f, e, entries)
    {
      next := entries;
      match e.etype
      case UserMessage =>
        var content := e.data.content.GetOr("");
        if Text.Trim(content) != "" {
          var id := "evt-user-" + Decimal(e.ts) + "-" + e.id.GetOr("");
          next := next + [NewEntry(id, UserEntry, Text.Trim(content), e.ts)];
        }
      case SessionIdle =>
      case SessionError =>
        next := next + [NewEntry("rt-error-" + Decimal(e.ts), ErrorEntry, e.data.message.GetOr("Session error"), e.ts)];
      case Reasoning =>
        next := next + [NewEntry("rt-reasoning-" + Decimal(e.ts), EventEntry, e.data.content.GetOr(""), e.ts)
                        .(eventType := Some(Reasoning))];
      case PendingModified =>
      case ModelChange =>
      case HqToolInvocation =>
        next := next + [NewEntry("rt-hqtool-" + Decimal(e.ts), HqToolEntry, "", e.ts)
                        .(hqToolName := e.data.tool, hqToolArgs := e.data.args)];
      case _ => next := next + [FormattedEntry(f, e)];
    }

    method OnSubagentStarted(e: Event, entries: seq<Entry>) returns (next: seq<Entry>)
      modifies this`subagentStack
      ensures subagentStack ==
              if Truthy(e.data.toolCallId) then old(subagentStack) + [e.data.toolCallId.value] else old(subagentStack)
      ensures next ==
              ChangeContainer(entries, e.data.toolCallId, SetStarted(e.data.agentDisplayName, e.data.agentName))
    {
      next := entries;
      if Truthy(e.data.toolCallId) {
        subagentStack := subagentStack + [e.data.toolCallId.value];
        next := ChangeContainer(next, e.data.toolCallId, SetStarted(e.data.agentDisplayName, e.data.agentName));
      }
    }

    method OnSubagentEnded(e: Event, entries: seq<Entry>, change: ContainerChange) returns (next: seq<Entry>)
      modifies this`subagentStack
      ensures subagentStack ==
              if Truthy(e.data.toolCallId) then NotEqual(old(subagentStack), e.data.toolCallId.value)
              else old(subagentStack)
      ensures next == ChangeContainer(entries, e.data.toolCallId, change)
    {
      next := entries;
      if Truthy(e.data.toolCallId) {
        subagentStack := NotEqual(subagentStack, e.data.toolCallId.value);
        next := ChangeContainer(next, e.data.toolCallId, change);
      }
    }

    method OnAssistantMessage(f: Format, e: Event, entries: seq<Entry>) returns (next: seq<Entry>)
      requires e.etype.AssistantMessage?
      modifies this
      ensures View() == AfterMessage(f, old(View()), e)
      ensures next == AddMessage(f, old(View()), e, entries)
    {
      next := entries;
      streaming := None;
      var content := e.data.content.GetOr("");
      var usageMeta := lastUsage;
      lastUsage := None;
      currentIntent := None;
      if Text.Trim(content) == "" { return; }
      var isSubagentMsg := Truthy(e.data.parentToolCallId);
      var notes := [];
      if isSubagentMsg {
        notes := [Note("parentToolCallId", e.data.parentToolCallId)] +
          SubagentNote(subagentNames, e.data.parentToolCallId.value);
      } else if Truthy(mainAgentName) {
        notes := [Note("agentName", mainAgentName)];
      }
      notes := notes + UsageNotes(usageMeta);
      var normalized := f.normalize(content);
      if isSubagentMsg {
        subagentContent := subagentContent + ContentKeys(normalized);
      } else if IsEcho(subagentContent, normalized) {
        subagentContent := {};
        return;
      }
      next := AddTo(entries, Owner(subagentStack, e), MessageEntry(notes, e));
    }

    method OnToolStart(f: Format, e: Event, entries: seq<Entry>) returns (next: seq<Entry>)
      requires e.etype.ToolStart?
      modifies this
      ensures View() == AfterToolStart(old(View()), e)
      ensures next == StartToolEntry(f, old(View()), e, entries)
    {
      next := entries;
      var name, id, args := ToolNameOf(e), e.data.toolCallId, e.data.arguments;
      if IsInfra(name) {
        if Truthy(id) {
          toolStarts := toolStarts[id.value := ToolStartArgs(args.GetOr(map[]), true)];
        }
        return;
      }
      if Truthy(id) {
        toolStarts := toolStarts[id.value := ToolStartArgs(args.GetOr(map[]), false)];
      }
      if name == "task" && Truthy(id) && Truthy(Arg(args, "description")) {
        subagentNames := subagentNames[id.value := Arg(args, "description").value];
      }
      var owner := Owner(subagentStack, e);
      if name == "report_intent" {
        if Truthy(Arg(args, "intent")) {
          currentIntent := Arg(args, "intent");
        }
        next := AddTo(entries, owner, IntentEntry(e));
        return;
      }
      var entry := StartEntry(f, currentIntent, e);
      if Truthy(owner) && name != "task" {
        next := AddTo(entries, owner, entry);
      } else {
        next := entries + [entry];
      }
    }

    method OnToolComplete(f: Format, e: Event, entries: seq<Entry>) returns (next: seq<Entry>)
      requires e.etype.ToolComplete?
      ensures next == CompleteToolEntry(f, View(), e, entries)
    {
      var original := OriginalArgs(toolStarts, e);
      if Flagged(original) { return entries; }
      if ToolNameOf(e) == "report_intent" || e.data.resultContent == Some("Intent logged") { return entries; }
      if ToolNameOf(e) == "task" && Truthy(e.data.toolCallId) {
        return ChangeContainer(entries, e.data.toolCallId, SetToolStatus(Outcome(e.data.success)));
      }
      next := CompleteUnder(entries, Owner(subagentStack, e), CompletionOf(f, original, e));
    }
  }

  /** Replays a list of events in batch mode, starting from no entries. */
  method ProcessEventBatch(f: Format, events: seq<Event>, refs: EventProcessorRefs) returns (entries: seq<Entry>)
    modifies refs
    ensures State(refs.View(), entries) == Fold(f, State(old(refs.View()), []), events, Batch)
  {
    entries := [];
    for i := 0 to |events|
      invariant State(refs.View(), entries) == Fold(f, State(old(refs.View()), []), events[..i], Batch)
    {
      entries := refs.ProcessSessionEvent(f, events[i], entries, Batch);
      assert events[..i + 1][..i] == events[..i];
    }
    assert events[..|events|] == events;
  }
}
