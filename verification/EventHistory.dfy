/** The client fold against the history of events: who owns an entry, and what the cross-event state remembers
    (src/client/services/event-processor.ts). */
module EventHistory {
  import opened Optional
  import opened SessionEvents
  import opened EventProcessor
  import opened EventProcessorTheorems
  import Text

  /** Entries and cross-event state after a stream of events, from nothing. */
  function Played(f: Format, h: seq<Event>, mode: Mode): State {
    Fold(f, State(EMPTY_REFS, []), h, mode)
  }

  // ---- the innermost running subagent ----

  /** The subagent that a lifecycle event names by its call. */
  predicate Starts(e: Event, id: string) {
    e.etype == SubagentStarted && e.data.toolCallId == Some(id) && id != ""
  }

  predicate Ends(e: Event, id: string) {
    (e.etype == SubagentCompleted || e.etype == SubagentFailed) && e.data.toolCallId == Some(id) && id != ""
  }

  /** The most recently started subagent that has not ended since, leaving out those in `ended`; None when there is
      none. */
  function InnermostBut(h: seq<Event>, ended: set<string>): Option<string> {
    if h == [] then None
    else
      var e, before := h[|h| - 1], h[..|h| - 1];
      match e.data.toolCallId
      case None => InnermostBut(before, ended)
      case Some(id) =>
        if Starts(e, id) && id !in ended then Some(id)
        else if Ends(e, id) then InnermostBut(before, ended + {id})
        else InnermostBut(before, ended)
  }

  function Innermost(h: seq<Event>): Option<string> {
    InnermostBut(h, {})
  }

  /** Whose entry an event makes: the parent it names or, without one, the innermost running subagent's. */
  function OwnerOf(h: seq<Event>, e: Event): Option<string> {
    match e.data.parentToolCallId
    case Some(parent) => Some(parent)
    case None => Innermost(h)
  }

  /** The last of a list that is not left out. */
  function LastBut(stack: seq<string>, ended: set<string>): Option<string> {
    if stack == [] then None
    else if stack[|stack| - 1] !in ended then Some(stack[|stack| - 1])
    else LastBut(stack[..|stack| - 1], ended)
  }

  lemma {:induction false} NotEqualSnoc(stack: seq<string>, x: string, id: string)
    ensures NotEqual(stack + [x], id) == NotEqual(stack, id) + if x == id then [] else [x]
  {
    if stack == [] {
      assert [] + [x] == [x];
    } else {
      assert (stack + [x])[1..] == stack[1..] + [x];
      NotEqualSnoc(stack[1..], x, id);
    }
  }

  lemma LastButSnoc(stack: seq<string>, x: string, ended: set<string>)
    ensures LastBut(stack + [x], ended) == if x !in ended then Some(x) else LastBut(stack, ended)
  {
    assert (stack + [x])[..|stack|] == stack;
  }

  lemma {:induction false} LastButNotEqual(stack: seq<string>, id: string, ended: set<string>)
    ensures LastBut(NotEqual(stack, id), ended) == LastBut(stack, ended + {id})
  {
    if stack != [] {
      var init, x := stack[..|stack| - 1], stack[|stack| - 1];
      assert stack == init + [x];
      LastButNotEqual(init, id, ended);
      NotEqualSnoc(init, x, id);
      LastButSnoc(init, x, ended + {id});
      if x != id { LastButSnoc(NotEqual(init, id), x, ended); } else { assert NotEqual(init, id) + [] ==
        NotEqual(init, id); }
    }
  }

  lemma StackStep(f: Format, r: Refs, e: Event, mode: Mode)
    ensures NextRefs(f, r, e, mode).subagentStack ==
            match e.data.toolCallId
            case None => r.subagentStack
            case Some(id) =>
              if Starts(e, id) then r.subagentStack + [id]
              else if Ends(e, id) then NotEqual(r.subagentStack, id)
              else r.subagentStack
  {
    if !IsSubagentEvent(e.etype) { StackKept(f, r, e, mode); }
  }

  lemma StackKept(f: Format, r: Refs, e: Event, mode: Mode)
    requires !IsSubagentEvent(e.etype)
    ensures NextRefs(f, r, e, mode).subagentStack == r.subagentStack
  {
  }

  lemma {:induction false} StackFollowsHistory(f: Format, h: seq<Event>, mode: Mode, ended: set<string>)
    ensures LastBut(Played(f, h, mode).refs.subagentStack, ended) == InnermostBut(h, ended)
  {
    if h != [] {
      var before, e := h[..|h| - 1], h[|h| - 1];
      var r := Played(f, before, mode).refs;
      StackStep(f, r, e, mode);
      StackFollowsHistory(f, before, mode, ended);
      match e.data.toolCallId
      case None =>
      case Some(id) =>
        if Starts(e, id) {
          LastButSnoc(r.subagentStack, id, ended);
        } else if Ends(e, id) {
          LastButNotEqual(r.subagentStack, id, ended);
          StackFollowsHistory(f, before, mode, ended + {id});
        }
    }
  }

  /** The owner that the fold routes by is the one the history names. */
  lemma OwnerFollowsHistory(f: Format, h: seq<Event>, mode: Mode, e: Event)
    ensures Owner(Played(f, h, mode).refs.subagentStack, e) == OwnerOf(h, e)
  {
    StackFollowsHistory(f, h, mode, {});
    var stack := Played(f, h, mode).refs.subagentStack;
    assert LastBut(stack, {}) == if stack == [] then None else Some(stack[|stack| - 1]);
  }

  // ---- what the cross-event state remembers ----

  /** The display name, else the name, of the last agent selected. */
  function SelectedName(h: seq<Event>): Option<string> {
    if h == [] then None
    else
      var e := h[|h| - 1];
      if e.etype == SubagentSelected then
        (if e.data.agentDisplayName.Some? then e.data.agentDisplayName else e.data.agentName)
      else SelectedName(h[..|h| - 1])
  }

  predicate StartsTool(e: Event, name: string) {
    e.etype == ToolStart && e.data.toolName == Some(name)
  }

  /** An argument of a tool call, unless it is missing or empty. */
  function ArgumentOf(e: Event, key: string): Option<string> {
    match e.data.arguments
    case None => None
    case Some(args) => if key in args && args[key] != "" then Some(args[key]) else None
  }

  /** The intent last reported since the last message. */
  function ReportedIntent(h: seq<Event>): Option<string> {
    if h == [] then None
    else
      var e := h[|h| - 1];
      if e.etype == AssistantMessage then None
      else if StartsTool(e, "report_intent") && ArgumentOf(e, "intent").Some? then ArgumentOf(e, "intent")
      else ReportedIntent(h[..|h| - 1])
  }

  function TextOf(o: Option<string>): string {
    match o
    case Some(s) => s
    case None => ""
  }

  function NumberOf(o: Option<int>): int {
    match o
    case Some(n) => n
    case None => 0
  }

  /** The usage last reported since the last message. */
  function ReportedUsage(h: seq<Event>): Option<Usage> {
    if h == [] then None
    else
      var e := h[|h| - 1];
      if e.etype == AssistantMessage then None
      else if e.etype == AssistantUsage then
        Some(Usage(TextOf(e.data.model), NumberOf(e.data.duration), NumberOf(e.data.inputTokens),
                   NumberOf(e.data.outputTokens), TextOf(e.data.initiator)))
      else ReportedUsage(h[..|h| - 1])
  }

  /** The description under which a `task` with this call id was last started. */
  function TaskName(h: seq<Event>, id: string): Option<string> {
    if h == [] then None
    else
      var e := h[|h| - 1];
      if StartsTool(e, "task") && id != "" && e.data.toolCallId == Some(id) && ArgumentOf(e, "description").Some?
      then ArgumentOf(e, "description")
      else TaskName(h[..|h| - 1], id)
  }

  /** The tools that are not shown. */
  predicate IsHidden(e: Event) {
    StartsTool(e, "read_agent") || StartsTool(e, "write_agent") || StartsTool(e, "list_agents") ||
      StartsTool(e, "stop_bash")
  }

  /** The arguments with which a call was last started, and whether its tool is one of those not shown. */
  function StartedWith(h: seq<Event>, id: string): Option<ToolStartArgs> {
    if h == [] then None
    else
      var e := h[|h| - 1];
      if e.etype == ToolStart && id != "" && e.data.toolCallId == Some(id) then
        Some(ToolStartArgs(match e.data.arguments { case Some(args) => args case None => map[] }, IsHidden(e)))
      else StartedWith(h[..|h| - 1], id)
  }

  function Found<T>(m: map<string, T>, key: string): Option<T> {
    if key in m then Some(m[key]) else None
  }

  /** Tool starts, messages and the rest change what is remembered as follows. */
  lemma ToolStartStep(r: Refs, e: Event, id: string)
    requires e.etype == ToolStart
    ensures var next := AfterToolStart(r, e);
            && next.mainAgentName == r.mainAgentName && next.lastUsage == r.lastUsage
            && next.currentIntent == (
                 if StartsTool(e, "report_intent") && ArgumentOf(e, "intent").Some? then ArgumentOf(e, "intent")
                 else r.currentIntent)
    ensures Found(AfterToolStart(r, e).subagentNames, id) ==
            if StartsTool(e, "task") && id != "" && e.data.toolCallId == Some(id) && ArgumentOf(e, "description").Some?
            then ArgumentOf(e, "description")
            else Found(r.subagentNames, id)
    ensures Found(AfterToolStart(r, e).toolStarts, id) ==
            if id != "" && e.data.toolCallId == Some(id) then
              Some(ToolStartArgs(match e.data.arguments { case Some(args) => args case None => map[] }, IsHidden(e)))
            else Found(r.toolStarts, id)
  {
  }

  lemma MessageStep(f: Format, r: Refs, e: Event)
    ensures var next := AfterMessage(f, r, e);
            && next.mainAgentName == r.mainAgentName && next.lastUsage == None && next.currentIntent == None
            && next.subagentNames == r.subagentNames && next.toolStarts == r.toolStarts
  {
  }

  lemma OtherStep(f: Format, r: Refs, e: Event, mode: Mode)
    requires e.etype != ToolStart && e.etype != AssistantMessage
    ensures var next := NextRefs(f, r, e, mode);
            && next.subagentNames == r.subagentNames && next.toolStarts == r.toolStarts
            && next.currentIntent == r.currentIntent
            && next.mainAgentName == (
                 if e.etype == SubagentSelected then
                   (if e.data.agentDisplayName.Some? then e.data.agentDisplayName else e.data.agentName)
                 else r.mainAgentName)
            && next.lastUsage == (
                 if e.etype == AssistantUsage then
                   Some(Usage(TextOf(e.data.model), NumberOf(e.data.duration), NumberOf(e.data.inputTokens),
                              NumberOf(e.data.outputTokens), TextOf(e.data.initiator)))
                 else r.lastUsage)
  {
  }

  /** What the fold remembers of agents, intents, usage, task names and arguments is what the history says. */
  lemma {:induction false} RefsFollowHistory(f: Format, h: seq<Event>, mode: Mode, id: string)
    ensures var r := Played(f, h, mode).refs;
            && r.mainAgentName == SelectedName(h) && r.currentIntent == ReportedIntent(h) &&
               r.lastUsage == ReportedUsage(h)
            && Found(r.subagentNames, id) == TaskName(h, id) && Found(r.toolStarts, id) == StartedWith(h, id)
  {
    if h != [] {
      var before, e := h[..|h| - 1], h[|h| - 1];
      var r := Played(f, before, mode).refs;
      RefsFollowHistory(f, before, mode, id);
      if e.etype == ToolStart {
        ToolStartStep(r, e, id);
      } else if e.etype == AssistantMessage {
        MessageStep(f, r, e);
      } else {
        OtherStep(f, r, e, mode);
      }
    }
  }

  // ---- what subagents said ----

  predicate OccursAt(t: string, s: string, i: nat) {
    i + |t| <= |s| && s[i..i + |t|] == t
  }

  /** `t` occurs somewhere in `s`. */
  ghost predicate Occurs(t: string, s: string) {
    exists i: nat :: OccursAt(t, s, i)
  }

  lemma OccursFirst(t: string, s: string)
    ensures OccursAt(t, s, 0) <==> t <= s
  {
  }

  lemma OccursLater(t: string, s: string, i: nat)
    requires s != ""
    ensures OccursAt(t, s, i + 1) <==> OccursAt(t, s[1..], i)
  {
    if i + 1 + |t| <= |s| { assert s[i + 1..i + 1 + |t|] == s[1..][i..i + |t|]; }
  }

  lemma {:induction false} IncludesExactly(s: string, t: string)
    ensures Text.Includes(s, t) <==> Occurs(t, s)
  {
    OccursFirst(t, s);
    if s == "" {
      assert forall i: nat :: OccursAt(t, s, i) ==> i == 0;
    } else {
      IncludesExactly(s[1..], t);
      if i: nat :| OccursAt(t, s[1..], i) { OccursLater(t, s, i); }
      if i: nat :| OccursAt(t, s, i) {
        if i > 0 { OccursLater(t, s, i - 1); }
      }
    }
  }

  /** A message repeats, or is part of, something said before. */
  ghost predicate Repeats(said: set<string>, normalized: string) {
    exists earlier :: earlier in said && (Occurs(earlier, normalized) || Occurs(normalized, earlier))
  }

  lemma EchoExactly(said: set<string>, normalized: string)
    ensures IsEcho(said, normalized) <==> Repeats(said, normalized)
  {
    forall earlier | earlier in said
      ensures Text.Includes(normalized, earlier) <==> Occurs(earlier, normalized)
      ensures Text.Includes(earlier, normalized) <==> Occurs(normalized, earlier)
    {
      IncludesExactly(normalized, earlier);
      IncludesExactly(earlier, normalized);
    }
  }

  /** The code points of white space and line ends (ECMA-262, sections 12.2 and 12.3). */
  predicate IsWhite(c: char) {
    var n := c as int;
    9 <= n <= 13 || n == 32 || n == 0xA0 || n == 0x1680 || 0x2000 <= n <= 0x200A || n == 0x2028 || n == 0x2029 ||
    n == 0x202F || n == 0x205F || n == 0x3000 || n == 0xFEFF
  }

  lemma SpacesAreWhite()
    ensures forall c: char :: Text.IsSpace(c) <==> IsWhite(c)
  {
  }

  predicate IsBlank(content: Option<string>) {
    forall i :: 0 <= i < |TextOf(content)| ==> IsWhite(TextOf(content)[i])
  }

  /** White space is trimmed from both ends, and nothing else. */
  ghost predicate IsTrimOf(trimmed: string, s: string) {
    exists i, j :: 0 <= i <= j <= |s| && IsInner(trimmed, s, i, j)
  }

  predicate IsInner(trimmed: string, s: string, i: nat, j: nat)
    requires i <= j <= |s|
  {
    && trimmed == s[i..j]
    && (forall k :: 0 <= k < i ==> IsWhite(s[k])) && (forall k :: j <= k < |s| ==> IsWhite(s[k]))
    && (trimmed != "" ==> !IsWhite(trimmed[0]) && !IsWhite(trimmed[|trimmed| - 1]))
  }

  lemma {:induction false} TrimStartIs(s: string) returns (i: nat)
    ensures i <= |s| && Text.TrimStart(s) == s[i..] && forall k :: 0 <= k < i ==> Text.IsSpace(s[k])
    ensures i < |s| ==> !Text.IsSpace(s[i])
  {
    if s != "" && Text.IsSpace(s[0]) {
      var j := TrimStartIs(s[1..]);
      i := j + 1;
      assert forall k :: 1 <= k < i ==> s[k] == s[1..][k - 1];
    } else {
      i := 0;
    }
  }

  lemma {:induction false} TrimEndIs(s: string) returns (j: nat)
    ensures j <= |s| && Text.TrimEnd(s) == s[..j] && forall k :: j <= k < |s| ==> Text.IsSpace(s[k])
    ensures j > 0 ==> !Text.IsSpace(s[j - 1])
  {
    if s != "" && Text.IsSpace(s[|s| - 1]) {
      j := TrimEndIs(s[..|s| - 1]);
      assert s[..|s| - 1][..j] == s[..j];
      assert forall k :: j <= k < |s| - 1 ==> s[k] == s[..|s| - 1][k];
    } else {
      j := |s|;
    }
  }

  lemma TrimIsInner(s: string)
    ensures IsTrimOf(Text.Trim(s), s)
  {
    SpacesAreWhite();
    var i := TrimStartIs(s);
    var j := TrimEndIs(s[i..]);
    assert s[i..][..j] == s[i..i + j];
    assert forall k :: i + j <= k < |s| ==> s[k] == s[i..][k - i];
    assert IsInner(Text.Trim(s), s, i, i + j);
  }

  lemma TrimIsEmptyExactly(content: Option<string>)
    ensures Text.Trim(TextOf(content)) == "" <==> IsBlank(content)
  {
    var s := TextOf(content);
    TrimIsInner(s);
    var i, j :| 0 <= i <= j <= |s| && IsInner(Text.Trim(s), s, i, j);
    if Text.Trim(s) != "" { assert !IsWhite(s[i]); }
  }

  /** What subagents said since the last echo: each message whole, and by its first 40 and 20 characters. */
  ghost function Said(f: Format, h: seq<Event>): set<string> {
    if h == [] then {}
    else
      var e, before := h[|h| - 1], Said(f, h[..|h| - 1]);
      var normalized := f.normalize(TextOf(e.data.content));
      if e.etype != AssistantMessage || IsBlank(e.data.content) then before
      else if TextOf(e.data.parentToolCallId) != "" then
        before + (if |normalized| > 40 then {normalized, normalized[..40], normalized[..20]}
                  else if |normalized| > 20 then {normalized, normalized[..20]}
                  else {normalized})
      else if Repeats(before, normalized) then {}
      else before
  }

  lemma SaidStep(f: Format, r: Refs, e: Event)
    ensures var normalized := f.normalize(TextOf(e.data.content));
            AfterMessage(f, r, e).subagentContent ==
            if IsBlank(e.data.content) then r.subagentContent
            else if TextOf(e.data.parentToolCallId) != "" then
              r.subagentContent + (if |normalized| > 40 then {normalized, normalized[..40], normalized[..20]}
                                   else if |normalized| > 20 then {normalized, normalized[..20]}
                                   else {normalized})
            else if Repeats(r.subagentContent, normalized) then {}
            else r.subagentContent
  {
    TrimIsEmptyExactly(e.data.content);
    EchoExactly(r.subagentContent, f.normalize(TextOf(e.data.content)));
  }

  lemma SaidKept(f: Format, r: Refs, e: Event, mode: Mode)
    requires e.etype != AssistantMessage
    ensures NextRefs(f, r, e, mode).subagentContent == r.subagentContent
  {
  }

  /** What is remembered of the subagents' messages is what the history says. */
  lemma {:induction false} SaidFollowsHistory(f: Format, h: seq<Event>, mode: Mode)
    ensures Played(f, h, mode).refs.subagentContent == Said(f, h)
  {
    if h != [] {
      var before, e := h[..|h| - 1], h[|h| - 1];
      SaidFollowsHistory(f, before, mode);
      if e.etype == AssistantMessage {
        SaidStep(f, Played(f, before, mode).refs, e);
      } else {
        SaidKept(f, Played(f, before, mode).refs, e, mode);
      }
    }
  }

  // ---- partial texts ----

  /** The partial message or reasoning: the deltas since the last final one put together, under an id that tells the
      time of the first of them. */
  function PartialOf(h: seq<Event>, delta: EventType, final: EventType, prefix: string): Option<Partial> {
    if h == [] then None
    else
      var e, before := h[|h| - 1], PartialOf(h[..|h| - 1], delta, final, prefix);
      if e.etype == final then None
      else if e.etype != delta then before
      else
        match before
        case None => Some(Partial(prefix + Decimal(e.ts), TextOf(e.data.deltaContent)))
        case Some(p) => Some(Partial(p.id, p.content + TextOf(e.data.deltaContent)))
  }

  lemma PartialKept(f: Format, r: Refs, e: Event)
    requires e.etype != MessageDelta && e.etype != ReasoningDelta
    ensures NextRefs(f, r, e, Live).streaming == if e.etype == AssistantMessage then None else r.streaming
    ensures NextRefs(f, r, e, Live).reasoning == if e.etype == Reasoning then None else r.reasoning
  {
  }

  lemma PartialGrows(f: Format, r: Refs, e: Event)
    requires e.etype == MessageDelta || e.etype == ReasoningDelta
    ensures NextRefs(f, r, e, Live).streaming ==
            if e.etype != MessageDelta then r.streaming
            else if r.streaming.None? then Some(Partial("rt-stream-" + Decimal(e.ts), TextOf(e.data.deltaContent)))
            else Some(Partial(r.streaming.value.id, r.streaming.value.content + TextOf(e.data.deltaContent)))
    ensures NextRefs(f, r, e, Live).reasoning ==
            if e.etype != ReasoningDelta then r.reasoning
            else if r.reasoning.None? then Some(Partial("rt-reasoning-" + Decimal(e.ts), TextOf(e.data.deltaContent)))
            else Some(Partial(r.reasoning.value.id, r.reasoning.value.content + TextOf(e.data.deltaContent)))
  {
  }

  /** In live mode the partial texts are the deltas since the last final message, or reasoning, in order. */
  lemma {:induction false} PartialsFollowHistory(f: Format, h: seq<Event>)
    ensures var r := Played(f, h, Live).refs;
            && r.streaming == PartialOf(h, MessageDelta, AssistantMessage, "rt-stream-")
            && r.reasoning == PartialOf(h, ReasoningDelta, Reasoning, "rt-reasoning-")
  {
    if h != [] {
      var r, e := Played(f, h[..|h| - 1], Live).refs, h[|h| - 1];
      PartialsFollowHistory(f, h[..|h| - 1]);
      if e.etype == MessageDelta || e.etype == ReasoningDelta {
        PartialGrows(f, r, e);
      } else {
        PartialKept(f, r, e);
      }
    }
  }
}
