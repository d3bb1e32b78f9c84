/** What the client shows for each event, stated on the event's fields and on the history before it
    (src/client/services/event-processor.ts). */
module EventEntries {
  import opened Optional
  import opened SessionEvents
  import opened ToolTags
  import opened EventProcessor
  import opened EventEffects
  import opened EventProcessorTheorems
  import opened EventRouting
  import opened EventHistory
  import Text

  /** An entry of which only these fields are set. */
  function Blank(id: string, etype: EntryType, content: string, ts: int): Entry {
    Entry(id := id, etype := etype, content := content, timestamp := ts,
          toolName := None, toolStatus := None, hqToolName := None, hqToolArgs := None, eventType := None,
            eventData := [],
          toolCallId := None, tag := None, description := None, detail := None, result := None, nested := None,
          subagentStatus := None, subagentModel := None, subagentDuration := None, intentLabel := None)
  }

  lemma PlayedSnoc(f: Format, h: seq<Event>, e: Event, mode: Mode)
    ensures Played(f, h + [e], mode) == Step(f, Played(f, h, mode), e, mode)
  {
    assert (h + [e])[..|h|] == h;
  }

  /** The entries before and after event `e` of history `h`. */
  function Before(f: Format, h: seq<Event>, mode: Mode): seq<Entry> {
    Played(f, h, mode).entries
  }

  function Next(f: Format, h: seq<Event>, e: Event, mode: Mode): seq<Entry> {
    Played(f, h + [e], mode).entries
  }

  lemma NextIs(f: Format, h: seq<Event>, e: Event, mode: Mode)
    ensures Next(f, h, e, mode) == NextEntries(f, Played(f, h, mode).refs, e, Before(f, h, mode))
  {
    PlayedSnoc(f, h, e, mode);
  }

  // ---- plain events ----

  /** The entry of an event that is about neither messages, tools, agents nor deltas; None when it shows nothing. */
  function PlainShown(f: Format, e: Event): Option<Entry> {
    match e.etype
    case UserMessage =>
      if IsBlank(e.data.content) then None
      else
        Some(Blank("evt-user-" + Decimal(e.ts) + "-" + TextOf(e.id), UserEntry, Text.Trim(TextOf(e.data.content)),
          e.ts))
    case SessionError =>
      Some(Blank("rt-error-" + Decimal(e.ts), ErrorEntry,
                 if e.data.message.Some? then e.data.message.value else "Session error", e.ts))
    case Reasoning =>
      Some(Blank("rt-reasoning-" + Decimal(e.ts), EventEntry, TextOf(e.data.content), e.ts)
           .(eventType := Some(Reasoning)))
    case HqToolInvocation =>
      Some(Blank("rt-hqtool-" + Decimal(e.ts), HqToolEntry, "", e.ts)
           .(hqToolName := e.data.tool, hqToolArgs := e.data.args))
    case SessionIdle => None
    case PendingModified => None
    case ModelChange => None
    case _ =>
      Some(Blank("rt-evt-" + TypeName(e.etype) + "-" + Decimal(e.ts), EventEntry, f.event(e.etype, e.data), e.ts)
           .(eventType := Some(e.etype), eventData := [Raw(e.data)]))
  }

  /** A plain event shows its entry at the end of the list: a user message unless it is blank, errors, reasoning, tool
      invocations of HQ, and every event without a case of its own. */
  lemma PlainEventShows(f: Format, h: seq<Event>, e: Event, mode: Mode)
    requires IsPlain(e.etype)
    ensures Next(f, h, e, mode) ==
            match PlainShown(f, e) { case Some(x) => Before(f, h, mode) + [x] case None => Before(f, h, mode) }
  {
    NextIs(f, h, e, mode);
    PlainIsPlain(f, Played(f, h, mode).refs, e, Before(f, h, mode), mode);
    PlainEntriesAre(f, e, Before(f, h, mode));
  }

  lemma PlainEntriesAre(f: Format, e: Event, entries: seq<Entry>)
    ensures PlainEntries(f, e, entries) ==
            match PlainShown(f, e) { case Some(x) => entries + [x] case None => entries }
  {
    TrimIsEmptyExactly(e.data.content);
  }

  /** Deltas, and the selection of an agent, show nothing. */
  lemma QuietEventShowsNothing(f: Format, h: seq<Event>, e: Event, mode: Mode)
    requires e.etype == MessageDelta || e.etype == ReasoningDelta || e.etype == SubagentSelected
    ensures Next(f, h, e, mode) == Before(f, h, mode)
  {
    NextIs(f, h, e, mode);
    QuietIs(f, Played(f, h, mode).refs, e, Before(f, h, mode));
  }

  lemma QuietIs(f: Format, r: Refs, e: Event, entries: seq<Entry>)
    requires e.etype == MessageDelta || e.etype == ReasoningDelta || e.etype == SubagentSelected
    ensures NextEntries(f, r, e, entries) == entries
  {
  }

  // ---- messages ----

  function OneNote(key: string, value: Option<string>): seq<Layer> {
    if TextOf(value) != "" then [Note(key, value)] else []
  }

  /** Who a message is from, and the usage reported for it. */
  function MessageData(h: seq<Event>, e: Event): seq<Layer> {
    (if TextOf(e.data.parentToolCallId) != "" then
       [Note("parentToolCallId", e.data.parentToolCallId)] +
       OneNote("subagentName", TaskName(h, TextOf(e.data.parentToolCallId)))
     else OneNote("agentName", SelectedName(h))) +
    (match ReportedUsage(h) { case Some(usage) => [UsageNote(usage)] case None => [] })
  }

  /** The message is blank, or it is the main agent's and repeats something a subagent said since the last
      repetition. */
  ghost predicate IsMessageHidden(f: Format, h: seq<Event>, e: Event) {
    || IsBlank(e.data.content)
    || (TextOf(e.data.parentToolCallId) == "" && Repeats(Said(f, h), f.normalize(TextOf(e.data.content))))
  }

  function MessageShown(h: seq<Event>, e: Event): Entry {
    Blank("rt-asst-" + Decimal(e.ts), AssistantEntry, Text.Trim(TextOf(e.data.content)), e.ts)
    .(eventData := MessageData(h, e))
  }

  lemma NotesAreData(f: Format, h: seq<Event>, e: Event, mode: Mode)
    ensures var r := Played(f, h, mode).refs;
            MessageNotes(r.subagentNames, r.mainAgentName, r.lastUsage, e) == MessageData(h, e)
  {
    RefsFollowHistory(f, h, mode, TextOf(e.data.parentToolCallId));
  }

  lemma HiddenExactly(f: Format, h: seq<Event>, e: Event, mode: Mode)
    ensures IsMessageHidden(f, h, e) <==>
            Text.Trim(e.data.content.GetOr("")) == "" || SuppressedEcho(f, Played(f, h, mode).refs.subagentContent, e)
  {
    TrimIsEmptyExactly(e.data.content);
    SaidFollowsHistory(f, h, mode);
    EchoExactly(Said(f, h), f.normalize(TextOf(e.data.content)));
  }

  /** A message is shown, trimmed, at the end of its owner's container, or at top level without one, unless it is
      hidden. */
  lemma MessageIsShown(f: Format, h: seq<Event>, e: Event, mode: Mode)
    requires e.etype == AssistantMessage
    ensures if IsMessageHidden(f, h, e) then Next(f, h, e, mode) == Before(f, h, mode)
            else Lands(Before(f, h, mode), Next(f, h, e, mode), OwnerOf(h, e), MessageShown(h, e))
  {
    NextIs(f, h, e, mode);
    HiddenExactly(f, h, e, mode);
    NotesAreData(f, h, e, mode);
    OwnerFollowsHistory(f, h, mode, e);
    AddToLands(Before(f, h, mode), OwnerOf(h, e), MessageShown(h, e));
  }

  // ---- tool starts ----

  function ShownName(e: Event): string {
    match e.data.toolName
    case Some(name) => name
    case None => "tool"
  }

  function IntentShown(e: Event): Entry {
    Blank("rt-intent-" + Decimal(e.ts), EventEntry, TextOf(ArgumentOf(e, "intent")), e.ts)
    .(eventType := Some(OtherEvent("report_intent")), toolCallId := e.data.toolCallId, eventData := [Raw(e.data)])
  }

  function ToolShown(f: Format, h: seq<Event>, e: Event): Entry {
    var id := match e.data.toolCallId { case Some(id) => id case None => Decimal(e.ts) };
    Blank("rt-tool-" + id, ToolEntry, ShownName(e), e.ts)
    .(toolName := Some(ShownName(e)), toolStatus := Some(ToolRunning), toolCallId := e.data.toolCallId,
      tag := Some(ToolTag(ShownName(e), e.data.arguments)),
        description := Some(f.description(ShownName(e), e.data.arguments)),
      detail := f.detail(ShownName(e), e.data.arguments), intentLabel := ReportedIntent(h), eventData := [Raw(e.data)])
  }

  lemma StartEntryIs(f: Format, h: seq<Event>, e: Event, mode: Mode)
    ensures StartEntry(f, Played(f, h, mode).refs.currentIntent, e) == ToolShown(f, h, e)
    ensures IntentEntry(e) == IntentShown(e)
  {
    RefsFollowHistory(f, h, mode, "");
  }

  lemma StartIs(f: Format, r: Refs, e: Event, entries: seq<Entry>)
    requires e.etype == ToolStart
    ensures NextEntries(f, r, e, entries) ==
            if IsHidden(e) then entries
            else if StartsTool(e, "report_intent") then AddTo(entries, Owner(r.subagentStack, e), IntentEntry(e))
            else if StartsTool(e, "task") then entries + [StartEntry(f, r.currentIntent, e)]
            else AddTo(entries, Owner(r.subagentStack, e), StartEntry(f, r.currentIntent, e))
  {
  }

  /** A tool start shows nothing for the four infrastructure tools, an intent for `report_intent`, a container at the
      end of the list for `task`, and otherwise a running tool; intents and tools go to their owner. */
  lemma ToolStartIsShown(f: Format, h: seq<Event>, e: Event, mode: Mode)
    requires e.etype == ToolStart
    ensures var entries, next := Before(f, h, mode), Next(f, h, e, mode);
            if IsHidden(e) then next == entries
            else if StartsTool(e, "report_intent") then Lands(entries, next, OwnerOf(h, e), IntentShown(e))
            else if StartsTool(e, "task") then next == entries + [ToolShown(f, h, e)]
            else Lands(entries, next, OwnerOf(h, e), ToolShown(f, h, e))
  {
    NextIs(f, h, e, mode);
    StartIs(f, Played(f, h, mode).refs, e, Before(f, h, mode));
    StartEntryIs(f, h, e, mode);
    OwnerFollowsHistory(f, h, mode, e);
    AddToLands(Before(f, h, mode), OwnerOf(h, e), IntentShown(e));
    AddToLands(Before(f, h, mode), OwnerOf(h, e), ToolShown(f, h, e));
  }

  // ---- completions ----

  /** What the start of the completed call recorded. */
  function StartOfCall(h: seq<Event>, e: Event): Option<ToolStartArgs> {
    StartedWith(h, TextOf(e.data.toolCallId))
  }

  /** A completion leaves no trace: its tool is an infrastructure tool or reports an intent. */
  predicate IsCompletionHidden(h: seq<Event>, e: Event) {
    || e.data.toolName == Some("report_intent") || e.data.resultContent == Some("Intent logged")
    || (match StartOfCall(h, e)
        case None => false
        case Some(start) => start.infra || ("_infraTool" in start.args && start.args["_infraTool"] != ""))
  }

  predicate EndsTask(e: Event) {
    e.data.toolName == Some("task") && TextOf(e.data.toolCallId) != ""
  }

  function StatusShown(e: Event): ToolStatus {
    if e.data.success == Some(true) then ToolCompleted else ToolFailed
  }

  /** A text that is there and not empty takes the place of one that is not. */
  function Filled(present: Option<string>, given: Option<string>): Option<string> {
    if TextOf(present) == "" && TextOf(given) != "" then given else present
  }

  /** The entry of a call with what its completion says. */
  function SettledShown(f: Format, h: seq<Event>, e: Event, x: Entry): Entry {
    var settled := x.(
      toolStatus := Some(StatusShown(e)),
      content := if TextOf(e.data.resultContent) != "" then TextOf(e.data.resultContent) else x.content,
      result := Some(TextOf(e.data.resultContent)));
    match StartOfCall(h, e)
    case None => settled.(eventData := x.eventData + [Raw(e.data)])
    case Some(start) =>
      settled.(
        tag := if x.tag.None? then Some(ToolTag(ShownName(e), Some(start.args))) else x.tag,
        description := Filled(x.description, Some(f.description(ShownName(e), Some(start.args)))),
        detail := Filled(x.detail, f.detail(ShownName(e), Some(start.args))),
        eventData := x.eventData + [Raw(e.data), OriginalArguments(start.args)])
  }

  /** A completion without an entry to settle. */
  function StandaloneShown(f: Format, h: seq<Event>, e: Event): Entry {
    var x := Blank("rt-toolcomplete-" + Decimal(e.ts), ToolEntry, TextOf(e.data.resultContent), e.ts)
      .(toolName := Some(ShownName(e)), toolStatus := Some(StatusShown(e)), toolCallId := e.data.toolCallId,
        result := Some(TextOf(e.data.resultContent)), eventData := [Raw(e.data)]);
    match StartOfCall(h, e)
    case None => x
    case Some(start) =>
      x.(tag := Some(ToolTag(ShownName(e), Some(start.args))),
         description := Some(f.description(ShownName(e), Some(start.args))),
         detail := f.detail(ShownName(e), Some(start.args)),
         eventData := [Raw(e.data), OriginalArguments(start.args)])
  }

  /** The place a completion looks in: its owner's container, or the top level. */
  function SearchedIn(f: Format, h: seq<Event>, e: Event, mode: Mode): (p: Option<nat>)
    ensures p.Some? ==> p.value < |Before(f, h, mode)|
  {
    if e.data.toolCallId == OwnerOf(h, e) then None else PlaceOf(Before(f, h, mode), OwnerOf(h, e))
  }

  /** `t` is the first entry of the call or, when there is none, the last running tool. */
  ghost predicate IsTarget(list: seq<Entry>, callId: Option<string>, t: nat) {
    t < |list| &&
    if Knows(list, callId) then
      IsCallEntry(list[t], callId.value) && forall j :: 0 <= j < t ==> !IsCallEntry(list[j], callId.value)
    else IsRunningTool(list[t]) && forall j :: t < j < |list| ==> !IsRunningTool(list[j])
  }

  lemma TargetExactly(list: seq<Entry>, callId: Option<string>)
    ensures var t := CompletionTarget(list, callId);
            if t >= 0 then IsTarget(list, callId, t) && (Knows(list, callId) || HasRunning(list))
            else !Knows(list, callId) && !HasRunning(list)
  {
    LastRunningIsLast(list);
    if Truthy(callId) { FindToolEntryIsFirst(list, callId.value); }
  }

  lemma CompletedIs(f: Format, h: seq<Event>, e: Event, x: Entry)
    ensures Completed(x, CompletionOf(f, StartOfCall(h, e), e)) == SettledShown(f, h, e, x)
  {
    assert [Raw(e.data)] + [] == [Raw(e.data)];
  }

  lemma StandaloneIs(f: Format, h: seq<Event>, e: Event)
    ensures StandaloneCompletion(CompletionOf(f, StartOfCall(h, e), e)) == StandaloneShown(f, h, e)
  {
    assert [Raw(e.data)] + [] == [Raw(e.data)];
  }

  lemma {:induction false} EmptyIdStartsNothing(h: seq<Event>)
    ensures StartedWith(h, "").None?
  {
    if h != [] { EmptyIdStartsNothing(h[..|h| - 1]); }
  }

  lemma OriginalIsStart(f: Format, h: seq<Event>, e: Event, mode: Mode)
    ensures OriginalArgs(Played(f, h, mode).refs.toolStarts, e) == StartOfCall(h, e)
  {
    RefsFollowHistory(f, h, mode, TextOf(e.data.toolCallId));
    EmptyIdStartsNothing(h);
  }

  lemma HiddenCompletionExactly(f: Format, h: seq<Event>, e: Event, mode: Mode)
    ensures IsCompletionHidden(h, e) <==> SkippedCompletion(OriginalArgs(Played(f, h, mode).refs.toolStarts, e), e)
  {
    OriginalIsStart(f, h, e, mode);
  }

  /** `next` is `entries` with the list at `p` replaced. */
  function WithList(entries: seq<Entry>, p: Option<nat>, list: seq<Entry>): seq<Entry>
    requires p.Some? ==> p.value < |entries|
  {
    if p.Some? then entries[p.value := entries[p.value].(nested := Some(list))] else list
  }

  /** What a settling completion makes of the list it looks in. */
  ghost predicate ListSettled(f: Format, h: seq<Event>, e: Event, list: seq<Entry>, next: seq<Entry>) {
    if Knows(list, e.data.toolCallId) || HasRunning(list) then
      exists t: nat :: IsTarget(list, e.data.toolCallId, t) && next == list[t := SettledShown(f, h, e, list[t])]
    else next == list + [StandaloneShown(f, h, e)]
  }

  lemma CompleteInIs(f: Format, h: seq<Event>, e: Event, list: seq<Entry>)
    ensures ListSettled(f, h, e, list, CompleteIn(list, CompletionOf(f, StartOfCall(h, e), e)))
  {
    var t := CompletionTarget(list, e.data.toolCallId);
    TargetExactly(list, e.data.toolCallId);
    if t >= 0 {
      CompletedIs(f, h, e, list[t]);
      assert IsTarget(list, e.data.toolCallId, t);
    } else {
      StandaloneIs(f, h, e);
    }
  }

  lemma SearchFollowsHistory(f: Format, h: seq<Event>, e: Event, mode: Mode)
    ensures SearchedPlace(Played(f, h, mode).refs, e, Before(f, h, mode)) == SearchedIn(f, h, e, mode)
  {
    OwnerFollowsHistory(f, h, mode, e);
  }

  lemma SearchSettles(r: Refs, e: Event, entries: seq<Entry>, c: Completion, p: Option<nat>)
    requires c.callId == e.data.toolCallId && p == SearchedPlace(r, e, entries)
    ensures CompleteUnder(entries, Owner(r.subagentStack, e), c) ==
            WithList(entries, p, CompleteIn(ListAt(entries, p), c))
  {
    SearchIsCompletion(r, e, entries, c);
  }

  lemma SettlesUnderOwner(f: Format, r: Refs, e: Event, entries: seq<Entry>, original: Option<ToolStartArgs>)
    requires e.etype == ToolComplete && original == OriginalArgs(r.toolStarts, e)
    requires !SkippedCompletion(original, e) && !EndsTask(e)
    ensures NextEntries(f, r, e, entries) ==
            CompleteUnder(entries, Owner(r.subagentStack, e), CompletionOf(f, original, e))
  {
  }

  lemma SettlingIs(f: Format, h: seq<Event>, e: Event, mode: Mode)
    requires e.etype == ToolComplete && !IsCompletionHidden(h, e) && !EndsTask(e)
    ensures var entries, p := Before(f, h, mode), SearchedIn(f, h, e, mode);
            var c := CompletionOf(f, StartOfCall(h, e), e);
            Next(f, h, e, mode) == WithList(entries, p, CompleteIn(ListAt(entries, p), c))
  {
    NextIs(f, h, e, mode);
    HiddenCompletionExactly(f, h, e, mode);
    SearchFollowsHistory(f, h, e, mode);
    OriginalIsStart(f, h, e, mode);
    var r, entries, original := Played(f, h, mode).refs, Before(f, h, mode), StartOfCall(h, e);
    SettlesUnderOwner(f, r, e, entries, original);
    SearchSettles(r, e, entries, CompletionOf(f, original, e), SearchedIn(f, h, e, mode));
  }

  /** A completion shows nothing when it is hidden. Otherwise, unless it ends a `task`, it settles one entry of the list
      it looks in, or is added there on its own. */
  lemma CompletionIsShown(f: Format, h: seq<Event>, e: Event, mode: Mode)
    requires e.etype == ToolComplete
    ensures IsCompletionHidden(h, e) ==> Next(f, h, e, mode) == Before(f, h, mode)
    ensures !IsCompletionHidden(h, e) && !EndsTask(e) ==>
            var entries, p := Before(f, h, mode), SearchedIn(f, h, e, mode);
            exists list :: ListSettled(f, h, e, ListAt(entries, p), list) &&
              Next(f, h, e, mode) == WithList(entries, p, list)
  {
    if IsCompletionHidden(h, e) {
      NextIs(f, h, e, mode);
      HiddenCompletionExactly(f, h, e, mode);
    } else if !EndsTask(e) {
      SettlingIs(f, h, e, mode);
      CompleteInIs(f, h, e, ListAt(Before(f, h, mode), SearchedIn(f, h, e, mode)));
    }
  }

  /** By the history: a completion changes an entry of another call if and only if it is neither hidden nor the end of a
      `task`, the list it looks in holds no entry of its call, and some tool there is running. */
  lemma MisfiresByHistoryExactly(f: Format, h: seq<Event>, e: Event, mode: Mode)
    requires e.etype == ToolComplete
    ensures var list := ListAt(Before(f, h, mode), SearchedIn(f, h, e, mode));
            Touches(Before(f, h, mode), Next(f, h, e, mode), e.data.toolCallId, false) <==>
            !IsCompletionHidden(h, e) && !EndsTask(e) && !Knows(list, e.data.toolCallId) && HasRunning(list)
  {
    CompletionMisfiresExactly(f, Played(f, h, mode), e, mode);
    PlayedSnoc(f, h, e, mode);
    SearchFollowsHistory(f, h, e, mode);
    HiddenCompletionExactly(f, h, e, mode);
  }

  // ---- agent containers ----

  /** `i` is the position of the first container of call `id`. */
  ghost predicate IsFirstAgent(entries: seq<Entry>, id: string, i: nat) {
    i < |entries| && IsAgentOf(entries[i], id) && forall j :: 0 <= j < i ==> !IsAgentOf(entries[j], id)
  }

  /** A container after what the event reports of it. */
  function Reported(x: Entry, e: Event): Entry {
    match e.etype
    case AssistantUsage =>
      x.(subagentModel := e.data.model,
         subagentDuration := if NumberOf(e.data.duration) != 0 then e.data.duration else x.subagentDuration)
    case SubagentStarted =>
      x.(subagentStatus := Some(ContainerRunning), nested := if x.nested.Some? then x.nested else Some([]),
         eventData := x.eventData +
           [Note("agentDisplayName", e.data.agentDisplayName), Note("agentName", e.data.agentName)])
    case SubagentCompleted => x.(subagentStatus := Some(ContainerDone))
    case SubagentFailed =>
      x.(subagentStatus := Some(ContainerFailed), eventData := x.eventData + [Note("error", e.data.error)])
    case ToolComplete => x.(toolStatus := Some(StatusShown(e)))
    case _ => x
  }

  /** The call whose container an event reports on. */
  function ReportsOn(h: seq<Event>, e: Event): Option<string> {
    if e.etype == AssistantUsage then OwnerOf(h, e) else e.data.toolCallId
  }

  lemma ReportOfRefs(f: Format, r: Refs, e: Event, entries: seq<Entry>, callId: Option<string>)
    returns (change: ContainerChange)
    requires || IsAgentReport(e.etype)
             || (e.etype == ToolComplete && !SkippedCompletion(OriginalArgs(r.toolStarts, e), e) && EndsTask(e))
    requires callId == if e.etype == AssistantUsage then Owner(r.subagentStack, e) else e.data.toolCallId
    ensures NextEntries(f, r, e, entries) == ChangeContainer(entries, callId, change)
    ensures forall x :: Changed(x, change) == Reported(x, e)
  {
    change := match e.etype
      case AssistantUsage => SetUsage(e.data.model, e.data.duration)
      case SubagentStarted => SetStarted(e.data.agentDisplayName, e.data.agentName)
      case SubagentCompleted => SetDone
      case SubagentFailed => SetFailed(e.data.error)
      case _ => SetToolStatus(StatusShown(e));
  }

  lemma ReportIs(f: Format, h: seq<Event>, e: Event, mode: Mode) returns (change: ContainerChange)
    requires IsAgentReport(e.etype) || (e.etype == ToolComplete && !IsCompletionHidden(h, e) && EndsTask(e))
    ensures Next(f, h, e, mode) == ChangeContainer(Before(f, h, mode), ReportsOn(h, e), change)
    ensures forall x :: Changed(x, change) == Reported(x, e)
  {
    NextIs(f, h, e, mode);
    OwnerFollowsHistory(f, h, mode, e);
    HiddenCompletionExactly(f, h, e, mode);
    change := ReportOfRefs(f, Played(f, h, mode).refs, e, Before(f, h, mode), ReportsOn(h, e));
  }

  /** Usage, the lifecycle of a subagent and the end of a `task` change the first container of the call they report on,
      and nothing else; without one they change nothing. */
  lemma ReportIsShown(f: Format, h: seq<Event>, e: Event, mode: Mode)
    requires IsAgentReport(e.etype) || (e.etype == ToolComplete && !IsCompletionHidden(h, e) && EndsTask(e))
    ensures var entries, next, id := Before(f, h, mode), Next(f, h, e, mode), TextOf(ReportsOn(h, e));
            && (id == "" || (forall j :: 0 <= j < |entries| ==> !IsAgentOf(entries[j], id)) ==> next == entries)
            && (forall i: nat :: id != "" && IsFirstAgent(entries, id, i) ==>
               next == entries[i := Reported(entries[i], e)])
  {
    var change := ReportIs(f, h, e, mode);
    var entries, id := Before(f, h, mode), TextOf(ReportsOn(h, e));
    FindContainerIsFirst(entries, id);
    forall i: nat | id != "" && IsFirstAgent(entries, id, i)
      ensures Next(f, h, e, mode) == entries[i := Reported(entries[i], e)]
    {
      FirstContainerIs(entries, id, i);
    }
  }

  /** A `task` with this call id has started. */
  predicate IsTaskBegun(h: seq<Event>, id: string) {
    h != [] &&
    ((StartsTool(h[|h| - 1], "task") && h[|h| - 1].data.toolCallId == Some(id)) || IsTaskBegun(h[..|h| - 1], id))
  }

  /** What was last reported of the subagent of call `id` since its task began. */
  function StatusOf(h: seq<Event>, id: string): Option<ContainerStatus> {
    if h == [] || !IsTaskBegun(h[..|h| - 1], id) then None
    else
      var e := h[|h| - 1];
      if Starts(e, id) then Some(ContainerRunning)
      else if Ends(e, id) then Some(if e.etype == SubagentCompleted then ContainerDone else ContainerFailed)
      else StatusOf(h[..|h| - 1], id)
  }

  /** The model last reported with usage of the subagent, and the last duration other than 0. */
  function ModelOf(h: seq<Event>, id: string): Option<string> {
    if h == [] || !IsTaskBegun(h[..|h| - 1], id) then None
    else
      var e, before := h[|h| - 1], h[..|h| - 1];
      if e.etype == AssistantUsage && id != "" && OwnerOf(before, e) ==
        Some(id) then e.data.model else ModelOf(before, id)
  }

  function DurationOf(h: seq<Event>, id: string): Option<int> {
    if h == [] || !IsTaskBegun(h[..|h| - 1], id) then None
    else
      var e, before := h[|h| - 1], h[..|h| - 1];
      if e.etype == AssistantUsage && id != "" && OwnerOf(before, e) == Some(id) && NumberOf(e.data.duration) != 0
      then e.data.duration else DurationOf(before, id)
  }

  ghost predicate IsReported(x: Entry, h: seq<Event>, id: string) {
    x.subagentStatus == StatusOf(h, id) && x.subagentModel == ModelOf(h, id) && x.subagentDuration == DurationOf(h, id)
  }

  ghost predicate SameReports(x: Entry, y: Entry) {
    x.subagentStatus == y.subagentStatus && x.subagentModel == y.subagentModel &&
      x.subagentDuration == y.subagentDuration
  }

  /** Adding and settling entries changes no report. */
  lemma EntriesKeepReports(r: Refs, e: Event, entries: seq<Entry>, effect: Effect, i: nat)
    requires i < |entries| && !effect.Alters?
    ensures i < |Apply(r, e, entries, effect)| && SameReports(entries[i], Apply(r, e, entries, effect)[i])
  {
  }

  lemma FirstAgentStays(before: seq<Entry>, after: seq<Entry>, id: string, i: nat)
    requires EntriesGrow(before, after) && IsFirstAgent(before, id, i)
    ensures IsFirstAgent(after, id, i)
  {
    assert forall j :: 0 <= j <= i ==> EntryGrows(before[j], after[j]);
  }

  lemma FirstAgentIsUnique(entries: seq<Entry>, id: string, i: nat, j: nat)
    requires IsFirstAgent(entries, id, i) && IsFirstAgent(entries, id, j)
    ensures i == j
  {
  }

  lemma NextGrows(f: Format, h: seq<Event>, e: Event, mode: Mode)
    ensures EntriesGrow(Before(f, h, mode), Next(f, h, e, mode))
  {
    NextIs(f, h, e, mode);
    StepGrows(f, Played(f, h, mode).refs, e, Before(f, h, mode));
  }

  /** The reports of a call before and after its task began. */
  lemma NothingReported(h: seq<Event>, e: Event, id: string)
    requires !IsTaskBegun(h, id)
    ensures StatusOf(h + [e], id).None? && ModelOf(h + [e], id).None? && DurationOf(h + [e], id).None?
  {
    assert (h + [e])[..|h|] == h;
  }

  lemma ReportsUnfold(h: seq<Event>, e: Event, id: string)
    requires IsTaskBegun(h, id)
    ensures StatusOf(h + [e], id) == (
              if Starts(e, id) then Some(ContainerRunning)
              else if Ends(e, id) then Some(if e.etype == SubagentCompleted then ContainerDone else ContainerFailed)
              else StatusOf(h, id))
    ensures var mine := e.etype == AssistantUsage && id != "" && OwnerOf(h, e) == Some(id);
            && ModelOf(h + [e], id) == (if mine then e.data.model else ModelOf(h, id))
            && DurationOf(h + [e], id) ==
               (if mine && NumberOf(e.data.duration) != 0 then e.data.duration else DurationOf(h, id))
  {
    assert (h + [e])[..|h|] == h;
  }

  lemma ReportedStep(h: seq<Event>, e: Event, id: string, x: Entry)
    requires IsTaskBegun(h, id) && IsReported(x, h, id) && IsAgentReport(e.etype)
    ensures IsReported(if id != "" && ReportsOn(h, e) == Some(id) then Reported(x, e) else x, h + [e], id)
  {
    ReportsUnfold(h, e, id);
  }

  lemma UnreportedStep(h: seq<Event>, e: Event, id: string, x: Entry, y: Entry)
    requires IsTaskBegun(h, id) && IsReported(x, h, id) && !IsAgentReport(e.etype) && SameReports(x, y)
    ensures IsReported(y, h + [e], id)
  {
    ReportsUnfold(h, e, id);
  }

  lemma OthersKeepReports(f: Format, h: seq<Event>, e: Event, mode: Mode, i: nat)
    requires !IsAgentReport(e.etype) && i < |Before(f, h, mode)|
    ensures i < |Next(f, h, e, mode)| && SameReports(Before(f, h, mode)[i], Next(f, h, e, mode)[i])
  {
    NextIs(f, h, e, mode);
    var entries, r := Before(f, h, mode), Played(f, h, mode).refs;
    var effect := EffectOf(f, r, e, entries);
    if effect.Alters? {
      OnlyToolStatusChanges(entries, effect.callId, StatusShown(e), i);
    } else {
      EntriesKeepReports(r, e, entries, effect, i);
    }
  }

  /** What one more event leaves in the first container of a call. */
  lemma ContainerStep(f: Format, h: seq<Event>, e: Event, mode: Mode, id: string, i: nat)
    requires IsFirstAgent(Before(f, h, mode), id, i) && IsReported(Before(f, h, mode)[i], h, id) && IsTaskBegun(h, id)
    ensures IsFirstAgent(Next(f, h, e, mode), id, i) && IsReported(Next(f, h, e, mode)[i], h + [e], id)
  {
    var entries, next := Before(f, h, mode), Next(f, h, e, mode);
    NextGrows(f, h, e, mode);
    FirstAgentStays(entries, next, id, i);
    if IsAgentReport(e.etype) {
      ReportOn(f, h, e, mode, id, i);
      ReportedStep(h, e, id, entries[i]);
    } else {
      OthersKeepReports(f, h, e, mode, i);
      UnreportedStep(h, e, id, entries[i], next[i]);
    }
  }

  lemma OnlyToolStatusChanges(entries: seq<Entry>, callId: Option<string>, status: ToolStatus, i: nat)
    requires i < |entries|
    ensures SameReports(entries[i], ChangeContainer(entries, callId, SetToolStatus(status))[i])
  {
  }

  lemma ReportOn(f: Format, h: seq<Event>, e: Event, mode: Mode, id: string, i: nat)
    requires IsAgentReport(e.etype) && IsFirstAgent(Before(f, h, mode), id, i)
    ensures i < |Next(f, h, e, mode)|
    ensures Next(f, h, e, mode)[i] ==
            if id != "" && ReportsOn(h, e) == Some(id) then Reported(Before(f, h, mode)[i], e) else Before(f, h,
              mode)[i]
  {
    ReportIsShown(f, h, e, mode);
    var entries, other := Before(f, h, mode), TextOf(ReportsOn(h, e));
    if other != "" && exists j :: 0 <= j < |entries| && IsAgentOf(entries[j], other) {
      FindContainerIsFirst(entries, other);
      var j := FindContainer(entries, other);
      assert IsFirstAgent(entries, other, j);
    }
  }

  lemma {:induction false} TaskBegunExactly(f: Format, h: seq<Event>, mode: Mode, id: string)
    ensures IsTaskBegun(h, id) <==> Some(id) in TaskStarts(h)
  {
    if h != [] { TaskBegunExactly(f, h[..|h| - 1], mode, id); }
  }

  lemma {:induction false} ContainersExactly(entries: seq<Entry>, id: string)
    ensures Some(id) in Containers(entries) <==> exists i :: 0 <= i < |entries| && IsAgentOf(entries[i], id)
  {
    if entries != [] {
      var last := |entries| - 1;
      ContainersExactly(entries[..last], id);
      if i :| 0 <= i < last && IsAgentOf(entries[..last][i], id) { assert IsAgentOf(entries[i], id); }
      if i :| 0 <= i < |entries| && IsAgentOf(entries[i], id) {
        if i < last { assert IsAgentOf(entries[..last][i], id); }
      }
    }
  }

  /** There is a container of a call exactly when a `task` with that call id has started. */
  lemma ContainerExists(f: Format, h: seq<Event>, mode: Mode, id: string)
    ensures IsTaskBegun(h, id) <==>
            exists i :: 0 <= i < |Before(f, h, mode)| && IsAgentOf(Before(f, h, mode)[i], id)
  {
    ContainersAreTaskStarts(f, EMPTY_REFS, h, mode);
    TaskBegunExactly(f, h, mode, id);
    ContainersExactly(Before(f, h, mode), id);
  }

  lemma TaskBegunSnoc(h: seq<Event>, e: Event, id: string)
    ensures IsTaskBegun(h + [e], id) <==>
            (StartsTool(e, "task") && e.data.toolCallId == Some(id)) || IsTaskBegun(h, id)
  {
    assert (h + [e])[..|h|] == h;
  }

  lemma ContainerMeansBegun(f: Format, h: seq<Event>, mode: Mode, id: string, i: nat)
    requires IsFirstAgent(Before(f, h, mode), id, i)
    ensures IsTaskBegun(h, id)
  {
    ContainerExists(f, h, mode, id);
    assert IsAgentOf(Before(f, h, mode)[i], id);
  }

  lemma NewContainerIsLast(f: Format, h: seq<Event>, e: Event, mode: Mode, id: string, i: nat)
    requires !IsTaskBegun(h, id) && IsFirstAgent(Next(f, h, e, mode), id, i)
    ensures StartsTool(e, "task") && Next(f, h, e, mode)[i] == ToolShown(f, h, e)
  {
    ContainerMeansBegun(f, h + [e], mode, id, i);
    TaskBegunSnoc(h, e, id);
    ContainerExists(f, h, mode, id);
    ToolStartIsShown(f, h, e, mode);
    assert forall j :: 0 <= j < |Before(f, h, mode)| ==> !IsAgentOf(Before(f, h, mode)[j], id);
  }

  /** The container that a `task` start adds has nothing reported. */
  lemma NewContainer(f: Format, h: seq<Event>, e: Event, mode: Mode, id: string, i: nat)
    requires !IsTaskBegun(h, id) && IsFirstAgent(Next(f, h, e, mode), id, i)
    ensures IsReported(Next(f, h, e, mode)[i], h + [e], id)
  {
    NothingReported(h, e, id);
    NewContainerIsLast(f, h, e, mode, id, i);
  }

  /** The first container of a call shows the status, model and duration last reported of its subagent. */
  lemma {:induction false} ContainerFollowsHistory(f: Format, h: seq<Event>, mode: Mode, id: string, i: nat)
    requires IsFirstAgent(Before(f, h, mode), id, i)
    ensures IsReported(Before(f, h, mode)[i], h, id)
  {
    ContainerExists(f, h, mode, id);
    var before, e := h[..|h| - 1], h[|h| - 1];
    assert h == before + [e];
    if IsTaskBegun(before, id) {
      var j := FirstAgentOf(f, before, mode, id);
      ContainerFollowsHistory(f, before, mode, id, j);
      ContainerStep(f, before, e, mode, id, j);
      FirstAgentIsUnique(Before(f, h, mode), id, i, j);
    } else {
      NewContainer(f, before, e, mode, id, i);
    }
  }

  lemma FirstAgentOf(f: Format, h: seq<Event>, mode: Mode, id: string) returns (i: nat)
    requires IsTaskBegun(h, id)
    ensures IsFirstAgent(Before(f, h, mode), id, i)
  {
    ContainerExists(f, h, mode, id);
    FindContainerIsFirst(Before(f, h, mode), id);
    i := FindContainer(Before(f, h, mode), id);
  }

  // ---- nested entries ----

  /** Besides the first container of its owner, no event changes the nested entries of anything. */
  lemma NestedEntriesFollowHistory(f: Format, h: seq<Event>, e: Event, mode: Mode)
    ensures var entries, next := Before(f, h, mode), Next(f, h, e, mode);
            && |entries| <= |next|
            && forall j :: 0 <= j < |entries| && !IsFirstAgent(entries, TextOf(OwnerOf(h, e)), j)
                 ==> NestedOf(next[j]) == NestedOf(entries[j])
  {
    var entries, id := Before(f, h, mode), TextOf(OwnerOf(h, e));
    NextIs(f, h, e, mode);
    OwnerFollowsHistory(f, h, mode, e);
    NestedEntriesGoToTheirOwner(f, Played(f, h, mode).refs, e, entries);
    FindContainerIsFirst(entries, id);
    var i := OwnerIndex(Played(f, h, mode).refs, e, entries);
    assert i < |entries| ==> IsFirstAgent(entries, id, i);
  }
}
