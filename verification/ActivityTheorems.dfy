/** The activity state against the history of events: which tools and subagents are listed, and what each phase
    implies. */
module ActivityTheorems {
  import opened Optional
  import opened SessionEvents
  import opened EventFields
  import opened Activity

  // ---- what the history says is open ----

  function OptionSeq<I>(o: Option<I>): seq<I> {
    if o.Some? then [o.value] else []
  }

  /** Items opened by some event and not closed by any later one, in opening order. */
  ghost function Open<I>(h: seq<Event>, opens: Event -> Option<I>, closes: (Event, I) -> bool): seq<I> {
    if h == [] then []
    else
      var later := Open(h[1..], opens, closes);
      if opens(h[0]).Some? && !ClosedIn(h[1..], opens(h[0]).value, closes) then [opens(h[0]).value] + later else later
  }

  ghost predicate ClosedIn<I>(h: seq<Event>, x: I, closes: (Event, I) -> bool) {
    exists j :: 0 <= j < |h| && closes(h[j], x)
  }

  function Surviving<I>(items: seq<I>, e: Event, closes: (Event, I) -> bool): (r: seq<I>)
    ensures |r| <= |items|
  {
    if items == [] then []
    else if closes(e, items[0]) then Surviving(items[1..], e, closes)
    else [items[0]] + Surviving(items[1..], e, closes)
  }

  lemma ClosedInSnoc<I>(h: seq<Event>, e: Event, x: I, closes: (Event, I) -> bool)
    ensures ClosedIn(h + [e], x, closes) <==> ClosedIn(h, x, closes) || closes(e, x)
  {
    if ClosedIn(h, x, closes) {
      var j :| 0 <= j < |h| && closes(h[j], x);
      assert (h + [e])[j] == h[j];
    }
    if closes(e, x) { assert (h + [e])[|h|] == e; }
  }

  /** The history description, one event later. */
  lemma {:induction false} OpenSnoc<I>(h: seq<Event>, e: Event, opens: Event -> Option<I>, closes: (Event, I) -> bool)
    ensures Open(h + [e], opens, closes) == Surviving(Open(h, opens, closes), e, closes) + OptionSeq(opens(e))
  {
    if h == [] {
      assert (h + [e])[1..] == [];
    } else {
      var later := Open(h[1..], opens, closes);
      assert (h + [e])[1..] == h[1..] + [e];
      OpenSnoc(h[1..], e, opens, closes);
      if opens(h[0]).Some? {
        ClosedInSnoc(h[1..], e, opens(h[0]).value, closes);
        assert ([opens(h[0]).value] + later)[1..] == later;
      }
    }
  }

  lemma {:induction false} OpenWasOpened<I>(
    h: seq<Event>, opens: Event -> Option<I>, closes: (Event, I) -> bool, k: nat) returns (i: nat)
    requires k < |Open(h, opens, closes)|
    ensures i < |h| && opens(h[i]) == Some(Open(h, opens, closes)[k])
  {
    var first := opens(h[0]).Some? && !ClosedIn(h[1..], opens(h[0]).value, closes);
    if first && k == 0 {
      i := 0;
    } else {
      var j := OpenWasOpened(h[1..], opens, closes, if first then k - 1 else k);
      i := j + 1;
    }
  }

  lemma {:induction false} SurvivingAll<I>(items: seq<I>, e: Event, closes: (Event, I) -> bool)
    requires forall k :: 0 <= k < |items| ==> !closes(e, items[k])
    ensures Surviving(items, e, closes) == items
  {
    if items != [] { SurvivingAll(items[1..], e, closes); }
  }

  lemma {:induction false} SurvivingNone<I>(items: seq<I>, e: Event, closes: (Event, I) -> bool)
    requires forall k :: 0 <= k < |items| ==> closes(e, items[k])
    ensures Surviving(items, e, closes) == []
  {
    if items != [] { SurvivingNone(items[1..], e, closes); }
  }

  // ---- the invariant of every reachable activity ----

  ghost predicate AllRunning(tools: seq<ToolCall>) {
    forall i :: 0 <= i < |tools| ==> tools[i].status == Running
  }

  ghost predicate SubagentFresh(s: Subagent) {
    s.status == Running && AllRunning(s.tools) && |s.recent| <= 10
  }

  ghost predicate AllFresh(subs: seq<Subagent>) {
    forall i :: 0 <= i < |subs| ==> SubagentFresh(subs[i])
  }

  ghost predicate PhaseBacked(a: State) {
    && (a.phase == Waiting ==> a.waiting.Some?)
    && (a.phase == InTool ==> a.tools != [])
    && (a.phase == Idle ==> a.waiting.None? && a.tools == [])
    && (a.phase == Thinking ==> a.tools == [])
  }

  /** The phase is backed by the rest of the state, and only running work is listed. */
  ghost predicate PhaseIsFresh(a: State) {
    PhaseBacked(a) && AllRunning(a.tools) && AllFresh(a.subagents)
  }

  lemma DerivedPhaseIsFresh(a: State)
    requires AllRunning(a.tools) && AllFresh(a.subagents)
    ensures PhaseIsFresh(a.(phase := DerivePhase(a.waiting, a.subagents, a.tools)))
    ensures DerivePhase(a.waiting, a.subagents, a.tools) == Idle <==>
            a.waiting.None? && a.tools == [] && a.subagents == []
  {
    if a.tools != [] { assert a.tools[0].status == Running; }
    if a.subagents != [] { assert SubagentFresh(a.subagents[0]); }
  }

  /** Replacing one subagent by a fresh one. */
  lemma ReplacedSubagentFresh(subs: seq<Subagent>, i: nat, sub: Subagent)
    requires AllFresh(subs) && i < |subs| && SubagentFresh(sub)
    ensures AllFresh(subs[i := sub])
  {
  }

  lemma {:induction false} CompletedToolsRun(tools: seq<ToolCall>, id: string)
    ensures AllRunning(CompleteTool(tools, id))
  {
    if tools != [] { CompletedToolsRun(tools[1..], id); }
  }

  lemma ProgressKeepsRunning(tools: seq<ToolCall>, id: string, progress: string)
    requires AllRunning(tools)
    ensures AllRunning(SetProgress(tools, id, progress)) && |SetProgress(tools, id, progress)| == |tools|
  {
  }

  lemma StartsKeepWorkFresh(a: State, e: Event)
    requires AllRunning(a.tools) && AllFresh(a.subagents) && e.etype.ToolStart?
    ensures AllRunning(Step(a, e).tools) && AllFresh(Step(a, e).subagents)
  {
    if Truthy(e.data.agentId) {
      var i := FindSubagent(a.subagents, e.data.agentId.value);
      if i < |a.subagents| { ReplacedSubagentFresh(a.subagents, i, Step(a, e).subagents[i]); }
    }
  }

  lemma CompletionsKeepWorkFresh(a: State, e: Event)
    requires AllRunning(a.tools) && AllFresh(a.subagents) && e.etype.ToolComplete?
    ensures AllRunning(Step(a, e).tools) && AllFresh(Step(a, e).subagents)
  {
    if Truthy(e.data.agentId) {
      var i := FindSubagent(a.subagents, e.data.agentId.value);
      if i < |a.subagents| {
        CompletedToolsRun(a.subagents[i].tools, EndedToolId(e));
        ReplacedSubagentFresh(a.subagents, i, Step(a, e).subagents[i]);
      }
    } else {
      CompletedToolsRun(a.tools, EndedToolId(e));
    }
  }

  lemma ProgressKeepsWorkFresh(a: State, e: Event)
    requires AllRunning(a.tools) && AllFresh(a.subagents) && e.etype.ToolProgress?
    ensures AllRunning(Step(a, e).tools) && AllFresh(Step(a, e).subagents)
  {
    var id, progress := EndedToolId(e), e.data.progressMessage.Or(e.data.progress).GetOr("");
    if Truthy(e.data.agentId) {
      var i := FindSubagent(a.subagents, e.data.agentId.value);
      if i < |a.subagents| {
        ProgressKeepsRunning(a.subagents[i].tools, id, progress);
        ReplacedSubagentFresh(a.subagents, i, Step(a, e).subagents[i]);
      }
    } else {
      ProgressKeepsRunning(a.tools, id, progress);
    }
  }

  lemma FreshSubagentsRun(subs: seq<Subagent>)
    requires AllFresh(subs)
    ensures AllSubagentsRunning(subs)
  {
    assert forall k :: 0 <= k < |subs| ==> SubagentFresh(subs[k]);
  }

  lemma {:induction false} RemovalKeepsFresh(subs: seq<Subagent>, id: string)
    requires AllFresh(subs)
    ensures AllFresh(RemoveSubagent(subs, id))
  {
    if subs != [] && subs[0].id != id {
      assert SubagentFresh(subs[0]);
      RemovalKeepsFresh(subs[1..], id);
    }
  }

  lemma SubagentEventsKeepFresh(a: State, e: Event)
    requires AllFresh(a.subagents)
    requires e.etype.SubagentStarted? || IsSubagentEnd(e.etype) || e.etype.MessageDelta? || e.etype.StreamingDelta?
    ensures AllFresh(Step(a, e).subagents)
  {
    if IsSubagentEnd(e.etype) {
      FreshSubagentsRun(a.subagents);
      EndSubagentRemoves(a, e);
      RemovalKeepsFresh(a.subagents, NamedAgent(e));
    } else if !e.etype.SubagentStarted? && Truthy(e.data.agentId) {
      var i := FindSubagent(a.subagents, e.data.agentId.value);
      if i < |a.subagents| { ReplacedSubagentFresh(a.subagents, i, Step(a, e).subagents[i]); }
    }
  }

  /** Only running work stays listed, whatever the event. */
  lemma StepKeepsWorkFresh(a: State, e: Event)
    requires AllRunning(a.tools) && AllFresh(a.subagents)
    ensures AllRunning(Step(a, e).tools) && AllFresh(Step(a, e).subagents)
  {
    if e.etype.ToolStart? {
      StartsKeepWorkFresh(a, e);
    } else if e.etype.ToolComplete? {
      CompletionsKeepWorkFresh(a, e);
    } else if e.etype.ToolProgress? {
      ProgressKeepsWorkFresh(a, e);
    } else if e.etype.SubagentStarted? || IsSubagentEnd(e.etype) || e.etype.MessageDelta? || e.etype.StreamingDelta? {
      SubagentEventsKeepFresh(a, e);
    }
  }

  /** Events after which the phase is derived from the rest of the state. */
  predicate DerivesPhase(t: EventType) {
    t.TurnEnd? || t.ToolComplete? || IsSubagentEnd(t) || IsAnswer(t)
  }

  lemma StepKeepsPhaseFresh(a: State, e: Event)
    requires PhaseIsFresh(a)
    ensures PhaseIsFresh(Step(a, e))
  {
    StepKeepsWorkFresh(a, e);
    if DerivesPhase(e.etype) {
      DerivedPhaseIsFresh(Step(a, e));
    } else {
      SettledPhaseIsFresh(a, e);
    }
  }

  lemma SettledPhaseIsFresh(a: State, e: Event)
    requires PhaseIsFresh(a) && !DerivesPhase(e.etype)
    ensures PhaseBacked(Step(a, e))
  {
  }

  /** In every reachable activity: `waiting` has a waiting state, `tool` a running main tool, `idle` neither;
      every listed tool and subagent is running, and no subagent keeps more than ten recent events. */
  lemma {:induction false} PhaseIsNeverStale(events: seq<Event>)
    ensures PhaseIsFresh(Fold(events))
  {
    if events != [] {
      PhaseIsNeverStale(events[..|events| - 1]);
      StepKeepsPhaseFresh(Fold(events[..|events| - 1]), events[|events| - 1]);
    }
  }

  /** Idle with subagents still listed: the one thing the phase does not rule out. */
  ghost predicate IdleOverSubagents(a: State) {
    a.phase == Idle && a.subagents != []
  }

  /** It arises exactly when the SDK reports the session idle, without background tasks, while subagents are listed. */
  lemma IdleOverSubagentsExactly(a: State, e: Event)
    requires PhaseIsFresh(a) && !IdleOverSubagents(a)
    ensures IdleOverSubagents(Step(a, e)) <==>
            e.etype.SessionIdle? && BackgroundTasks(e.data) == [] && a.subagents != []
  {
    if DerivesPhase(e.etype) {
      StepKeepsWorkFresh(a, e);
      DerivedPhaseIsFresh(Step(a, e));
    }
  }

  lemma IdleOverSubagentsHappens()
    ensures var start := Event(SubagentStarted, NO_DATA.(toolCallId := Some("s")), 1, None);
            var idle := Event(SessionIdle, NO_DATA, 2, None);
            IdleOverSubagents(Fold([start, idle]))
  {
    var start := Event(SubagentStarted, NO_DATA.(toolCallId := Some("s")), 1, None);
    var idle := Event(SessionIdle, NO_DATA, 2, None);
    assert [start, idle][..1] == [start] && [start][..0] == [];
    PhaseIsNeverStale([start]);
    assert BackgroundTasks(idle.data) == [];
    assert Fold([start]) == Step(DEFAULT_ACTIVITY, start);
    IdleOverSubagentsExactly(Fold([start]), idle);
  }

  // ---- a waiting state behind another phase ----

  /** The session waits for the user, but its phase does not say so. */
  predicate WaitIsHidden(a: State) {
    a.waiting.Some? && a.phase != Waiting
  }

  /** Work that starts, or fails, while the session waits takes over the phase. */
  predicate TakesOverPhase(t: EventType) {
    t.TurnStart? || t.ToolStart? || t.SubagentStarted? || t.SessionError?
  }

  /** A new request, and whatever clears the wait or derives the phase anew, brings phase and wait together again. */
  predicate RevealsWait(t: EventType) {
    IsRequest(t) || t.SessionIdle? || t.SessionShutdown? || DerivesPhase(t)
  }

  /** A wait is hidden after an event exactly when there was one and the event takes over the phase, or it was hidden
      before and the event does not reveal it. */
  lemma WaitIsHiddenExactly(a: State, e: Event)
    ensures WaitIsHidden(Step(a, e)) <==>
            a.waiting.Some? && (TakesOverPhase(e.etype) || (a.phase != Waiting && !RevealsWait(e.etype)))
  {
    if TakesOverPhase(e.etype) {
      TakingOverHides(a, e);
    } else if RevealsWait(e.etype) {
      RevealingShows(a, e);
    } else {
      OthersKeepPhase(a, e);
    }
  }

  /** A tool that starts while the session waits for an answer. */
  lemma WaitIsHiddenHappens()
    ensures var ask := Event(UserInputRequested, NO_DATA, 1, None);
            var start := Event(ToolStart, NO_DATA.(toolCallId := Some("t")), 2, None);
            WaitIsHidden(Fold([ask, start])) && Fold([ask, start]).phase == InTool
  {
    var ask := Event(UserInputRequested, NO_DATA, 1, None);
    var start := Event(ToolStart, NO_DATA.(toolCallId := Some("t")), 2, None);
    assert [ask, start][..1] == [ask] && [ask][..0] == [];
    assert Fold([ask]) == Step(DEFAULT_ACTIVITY, ask);
  }

  lemma TakingOverHides(a: State, e: Event)
    requires TakesOverPhase(e.etype)
    ensures Step(a, e).phase != Waiting && Step(a, e).waiting == a.waiting
  {
  }

  lemma RevealingShows(a: State, e: Event)
    requires RevealsWait(e.etype)
    ensures !WaitIsHidden(Step(a, e))
  {
  }

  lemma OthersKeepPhase(a: State, e: Event)
    requires !TakesOverPhase(e.etype) && !RevealsWait(e.etype)
    ensures Step(a, e).phase == a.phase && Step(a, e).waiting == a.waiting
  {
  }

  // ---- the waiting state refines the history ----

  /** What a request asks for. */
  function Asked(e: Event): WaitingState {
    var id, question := FirstOf(e.data.requestId, None, ""),
      if e.data.question.Some? then e.data.question else e.data.message;
    if e.etype == UserInputRequested then WaitingState(UserInput, id, question, e.data.choices, None, None)
    else if e.etype == ElicitationRequested then WaitingState(Elicitation, id, question, e.data.choices, None, None)
    else if e.etype == PermissionRequested then WaitingState(Permission, id, None, None, e.data.toolName,
      e.data.toolArgs)
    else
      WaitingState(
        PlanExit, id, Some("The agent wants to exit plan mode and begin executing. Approve?"), None, None, None)
  }

  /** What the last request still asks for, unless an answer, an idle or a shutdown came since. */
  function LastWait(h: seq<Event>): Option<WaitingState> {
    if h == [] then None
    else
      var e := h[|h| - 1];
      if IsRequest(e.etype) then Some(Asked(e))
      else if IsAnswer(e.etype) || e.etype.SessionIdle? || e.etype.SessionShutdown? then None
      else LastWait(h[..|h| - 1])
  }

  lemma {:induction false} WaitingRefinesHistory(h: seq<Event>)
    ensures Fold(h).waiting == LastWait(h)
    ensures Fold(h).phase == Waiting ==> LastWait(h).Some?
    ensures Fold(h).phase == Idle ==> LastWait(h).None?
  {
    PhaseIsNeverStale(h);
    if h != [] {
      WaitingRefinesHistory(h[..|h| - 1]);
      WaitingStep(Fold(h[..|h| - 1]), h[|h| - 1]);
    }
  }

  lemma WaitingStep(a: State, e: Event)
    ensures Step(a, e).waiting ==
            if IsRequest(e.etype) then Some(Asked(e))
            else if IsAnswer(e.etype) || e.etype.SessionIdle? || e.etype.SessionShutdown? then None
            else a.waiting
  {
    if e.etype.ToolStart? || e.etype.ToolComplete? || e.etype.ToolProgress? {
      ToolEventsKeepWaiting(a, e);
    } else if IsSubagentEnd(e.etype) || e.etype.MessageDelta? || e.etype.StreamingDelta? {
      SubagentEventsKeepWaiting(a, e);
    } else if IsRequest(e.etype) {
      RequestsSetWaiting(a, e);
    } else {
      PlainEventsOnWaiting(a, e);
    }
  }

  lemma WaitForIsAsked(e: Event)
    requires IsRequest(e.etype)
    ensures WaitFor(e) == Asked(e)
  {
  }

  lemma RequestsSetWaiting(a: State, e: Event)
    requires IsRequest(e.etype)
    ensures Step(a, e).waiting == Some(Asked(e))
  {
    StepWaitsFor(a, e);
    WaitForIsAsked(e);
  }

  lemma StepWaitsFor(a: State, e: Event)
    requires IsRequest(e.etype)
    ensures Step(a, e).waiting == Some(WaitFor(e))
  {
    match e.etype
    case UserInputRequested =>
    case ElicitationRequested =>
    case PlanExitRequested =>
    case PermissionRequested =>
  }

  lemma ToolEventsKeepWaiting(a: State, e: Event)
    requires e.etype.ToolStart? || e.etype.ToolComplete? || e.etype.ToolProgress?
    ensures Step(a, e).waiting == a.waiting
  {
  }

  lemma SubagentEventsKeepWaiting(a: State, e: Event)
    requires IsSubagentEnd(e.etype) || e.etype.MessageDelta? || e.etype.StreamingDelta?
    ensures Step(a, e).waiting == a.waiting
  {
  }

  lemma PlainEventsOnWaiting(a: State, e: Event)
    requires !e.etype.ToolStart? && !e.etype.ToolComplete? && !e.etype.ToolProgress?
    requires !IsSubagentEnd(e.etype) && !e.etype.MessageDelta? && !e.etype.StreamingDelta? && !IsRequest(e.etype)
    ensures Step(a, e).waiting ==
            if IsAnswer(e.etype) || e.etype.SessionIdle? || e.etype.SessionShutdown? then None else a.waiting
  {
  }

  // ---- main tools refine the history ----

  datatype Started = Started(id: string, name: string, at: int)

  function StartedOf(tools: seq<ToolCall>): (r: seq<Started>)
    ensures |r| == |tools|
    ensures forall k :: 0 <= k < |r| ==> r[k] == Started(tools[k].id, tools[k].name, tools[k].startedAt)
  {
    if tools == [] then []
    else [Started(tools[0].id, tools[0].name, tools[0].startedAt)] + StartedOf(tools[1..])
  }

  /** A tool start that is not attributed to a subagent. */
  predicate IsMainStart(e: Event) {
    e.etype.ToolStart? && !Truthy(e.data.agentId)
  }

  function MainStart(e: Event): Option<Started> {
    if IsMainStart(e) then Some(Started(OpenedCall(e), OpenedTool(e), e.ts)) else None
  }

  predicate ClearsTools(t: EventType) {
    t.TurnStart? || t.SessionIdle? || t.SessionShutdown?
  }

  predicate MainClosed(e: Event, s: Started) {
    ClearsTools(e.etype) || (e.etype.ToolComplete? && NamedCall(e) == s.id)
  }

  ghost predicate DistinctMainTools(h: seq<Event>) {
    forall i, j :: 0 <= i < j < |h| && IsMainStart(h[i]) && IsMainStart(h[j])
      ==> OpenedCall(h[i]) != OpenedCall(h[j])
  }

  /** A completion of a main tool is not attributed to a subagent either. */
  ghost predicate CompletionsMatch(h: seq<Event>) {
    forall i, j :: 0 <= i < j < |h| && IsMainStart(h[i])
      && h[j].etype.ToolComplete? && NamedCall(h[j]) == OpenedCall(h[i])
      ==> !Truthy(h[j].data.agentId)
  }

  ghost predicate DistinctIds(s: seq<Started>) {
    forall i, j :: 0 <= i < j < |s| ==> s[i].id != s[j].id
  }

  lemma {:induction false} RunningToolsKeepsAll(tools: seq<ToolCall>)
    requires AllRunning(tools)
    ensures RunningTools(tools) == tools
  {
    if tools != [] { RunningToolsKeepsAll(tools[1..]); }
  }

  lemma DistinctTail(first: Started, rest: seq<Started>)
    requires DistinctIds([first] + rest)
    ensures DistinctIds(rest) && forall k :: 0 <= k < |rest| ==> rest[k].id != first.id
  {
    var all := [first] + rest;
    assert forall k :: 0 <= k < |rest| ==> all[k + 1] == rest[k];
    forall i, j | 0 <= i < j < |rest|
      ensures rest[i].id != rest[j].id
    {
      assert all[i + 1].id != all[j + 1].id;
    }
    forall k | 0 <= k < |rest|
      ensures rest[k].id != first.id
    {
      assert all[0].id != all[k + 1].id;
    }
  }

  lemma SurvivingCons<I>(first: I, rest: seq<I>, e: Event, closes: (Event, I) -> bool)
    ensures Surviving([first] + rest, e, closes) ==
            if closes(e, first) then Surviving(rest, e, closes) else [first] + Surviving(rest, e, closes)
  {
    assert ([first] + rest)[1..] == rest;
  }

  /** How a completion closes calls: those of its id, in whatever list it is attributed to. */
  ghost predicate ClosesById(closes: (Event, Started) -> bool, e: Event) {
    forall s :: closes(e, s) <==> s.id == NamedCall(e)
  }

  lemma OthersSurvive(rest: seq<ToolCall>, first: Started, e: Event, closes: (Event, Started) -> bool)
    requires ClosesById(closes, e) && first.id == NamedCall(e) && DistinctIds([first] + StartedOf(rest))
    ensures Surviving(StartedOf(rest), e, closes) == StartedOf(rest)
  {
    DistinctTail(first, StartedOf(rest));
    SurvivingAll(StartedOf(rest), e, closes);
  }

  /** Completing an id drops its call and nothing else. */
  lemma {:induction false} CompleteToolSurvivors(tools: seq<ToolCall>, e: Event, closes: (Event, Started) -> bool)
    requires AllRunning(tools) && DistinctIds(StartedOf(tools)) && ClosesById(closes, e)
    ensures StartedOf(CompleteTool(tools, NamedCall(e))) == Surviving(StartedOf(tools), e, closes)
  {
    if tools != [] {
      var first, rest := StartedOf(tools)[0], StartedOf(tools[1..]);
      SurvivingCons(first, rest, e, closes);
      RunningToolsKeepsAll(tools[1..]);
      if first.id == NamedCall(e) {
        OthersSurvive(tools[1..], first, e, closes);
      } else {
        DistinctTail(first, rest);
        CompleteToolSurvivors(tools[1..], e, closes);
        StartedOfCons(tools[0], CompleteTool(tools[1..], NamedCall(e)));
      }
    }
  }

  lemma StartedOfCons(first: ToolCall, rest: seq<ToolCall>)
    ensures StartedOf([first] + rest) == [Started(first.id, first.name, first.startedAt)] + StartedOf(rest)
  {
    assert ([first] + rest)[1..] == rest;
  }

  lemma {:induction false} OpenIdsDistinct(h: seq<Event>)
    requires DistinctMainTools(h)
    ensures DistinctIds(Open(h, MainStart, MainClosed))
  {
    if h != [] {
      var rest := h[1..];
      assert DistinctMainTools(rest) by {
        forall i, j | 0 <= i < j < |rest| && IsMainStart(rest[i]) && IsMainStart(rest[j])
          ensures OpenedCall(rest[i]) != OpenedCall(rest[j])
        {
          assert rest[i] == h[i + 1] && rest[j] == h[j + 1];
        }
      }
      OpenIdsDistinct(rest);
      var later := Open(rest, MainStart, MainClosed);
      if IsMainStart(h[0]) {
        forall k | 0 <= k < |later|
          ensures later[k].id != OpenedCall(h[0])
        {
          var i := OpenWasOpened(rest, MainStart, MainClosed, k);
          assert rest[i] == h[i + 1];
        }
      }
    }
  }

  /** An event that neither starts nor completes a main tool, nor clears the list, leaves the listed tools alone. */
  lemma OtherEventsKeepTools(a: State, e: Event)
    requires !ClearsTools(e.etype) && !IsMainStart(e)
    requires e.etype.ToolComplete? ==> Truthy(e.data.agentId)
    ensures StartedOf(Step(a, e).tools) == StartedOf(a.tools)
  {
  }

  /** The listed main tools are exactly the main tools started since the last turn start, idle or shutdown and
      not completed since, in start order. */
  lemma {:induction false} MainToolsRefineHistory(h: seq<Event>)
    requires DistinctMainTools(h) && CompletionsMatch(h)
    ensures StartedOf(Fold(h).tools) == Open(h, MainStart, MainClosed)
  {
    if h != [] {
      var before, e := h[..|h| - 1], h[|h| - 1];
      assert h == before + [e];
      assert forall i :: 0 <= i < |before| ==> before[i] == h[i];
      MainToolsRefineHistory(before);
      OpenSnoc(before, e, MainStart, MainClosed);
      PhaseIsNeverStale(before);
      OpenIdsDistinct(before);
      if !ClearsTools(e.etype) && (e.etype.ToolComplete? ==> Truthy(e.data.agentId)) { NotClosedElsewhere(h); }
      MainToolsStep(Fold(before), e);
    }
  }

  lemma StartedOfAppend(tools: seq<ToolCall>, t: ToolCall)
    ensures StartedOf(tools + [t]) == StartedOf(tools) + [Started(t.id, t.name, t.startedAt)]
  {
  }

  lemma StepOnMainTools(a: State, e: Event)
    ensures ClearsTools(e.etype) ==> Step(a, e).tools == []
    ensures IsMainStart(e) ==> Step(a, e).tools == a.tools + [NewTool(e)]
    ensures e.etype.ToolComplete? && !Truthy(e.data.agentId) ==>
            Step(a, e).tools == CompleteTool(a.tools, NamedCall(e))
  {
  }

  lemma MainToolsStep(a: State, e: Event)
    requires AllRunning(a.tools) && DistinctIds(StartedOf(a.tools))
    requires !ClearsTools(e.etype) && (e.etype.ToolComplete? ==> Truthy(e.data.agentId)) ==>
             forall k :: 0 <= k < |a.tools| ==> !MainClosed(e, StartedOf(a.tools)[k])
    ensures StartedOf(Step(a, e).tools) == Surviving(StartedOf(a.tools), e, MainClosed) + OptionSeq(MainStart(e))
  {
    StepOnMainTools(a, e);
    if ClearsTools(e.etype) {
      SurvivingNone(StartedOf(a.tools), e, MainClosed);
    } else if IsMainStart(e) {
      StartingTool(a.tools, e);
    } else {
      PlusNone(Surviving(StartedOf(a.tools), e, MainClosed));
      if e.etype.ToolComplete? && !Truthy(e.data.agentId) {
        assert ClosesById(MainClosed, e);
        CompleteToolSurvivors(a.tools, e, MainClosed);
      } else {
        OtherEventsKeepTools(a, e);
        SurvivingAll(StartedOf(a.tools), e, MainClosed);
      }
    }
  }

  lemma StartingTool(tools: seq<ToolCall>, e: Event)
    requires IsMainStart(e)
    ensures StartedOf(tools + [NewTool(e)]) == Surviving(StartedOf(tools), e, MainClosed) + OptionSeq(MainStart(e))
  {
    SurvivingAll(StartedOf(tools), e, MainClosed);
    StartedOfAppend(tools, NewTool(e));
  }

  lemma PlusNone<I>(s: seq<I>)
    ensures s + OptionSeq(None) == s
  {
  }

  lemma NotClosedElsewhere(h: seq<Event>)
    requires h != [] && CompletionsMatch(h)
    requires var e := h[|h| - 1]; !ClearsTools(e.etype) && (e.etype.ToolComplete? ==> Truthy(e.data.agentId))
    ensures var open := Open(h[..|h| - 1], MainStart, MainClosed);
            forall k :: 0 <= k < |open| ==> !MainClosed(h[|h| - 1], open[k])
  {
    var before, e := h[..|h| - 1], h[|h| - 1];
    var open := Open(before, MainStart, MainClosed);
    forall k | 0 <= k < |open|
      ensures !MainClosed(e, open[k])
    {
      var i := OpenWasOpened(before, MainStart, MainClosed, k);
      assert before[i] == h[i];
    }
  }

  // ---- subagents refine the history ----

  function SubagentsOf(subs: seq<Subagent>): (r: seq<Started>)
    ensures |r| == |subs|
    ensures forall k :: 0 <= k < |r| ==> r[k] == Started(subs[k].id, subs[k].name, subs[k].startedAt)
  {
    if subs == [] then []
    else [Started(subs[0].id, subs[0].name, subs[0].startedAt)] + SubagentsOf(subs[1..])
  }

  function SubagentStart(e: Event): Option<Started> {
    if e.etype.SubagentStarted? then Some(Started(OpenedAgent(e), OpenedAgentName(e), e.ts)) else None
  }

  predicate SubagentClosed(e: Event, s: Started) {
    e.etype.SessionShutdown? || (IsSubagentEnd(e.etype) && NamedAgent(e) == s.id)
  }

  ghost predicate DistinctSubagents(h: seq<Event>) {
    forall i, j :: 0 <= i < j < |h| && h[i].etype.SubagentStarted? && h[j].etype.SubagentStarted?
      ==> OpenedAgent(h[i]) != OpenedAgent(h[j])
  }

  ghost predicate AllSubagentsRunning(subs: seq<Subagent>) {
    forall i :: 0 <= i < |subs| ==> subs[i].status == Running
  }

  lemma {:induction false} RunningSubagentsKeepsAll(subs: seq<Subagent>)
    requires AllSubagentsRunning(subs)
    ensures RunningSubagents(subs) == subs
  {
    if subs != [] { RunningSubagentsKeepsAll(subs[1..]); }
  }

  function RemoveSubagent(subs: seq<Subagent>, id: string): seq<Subagent> {
    if subs == [] then [] else if subs[0].id == id then subs[1..] else [subs[0]] + RemoveSubagent(subs[1..], id)
  }

  /** While all are running, ending an id takes out the first subagent with that id and no other. */
  lemma {:induction false} EndInRemoves(subs: seq<Subagent>, id: string)
    requires AllSubagentsRunning(subs)
    ensures EndIn(subs, id) == RemoveSubagent(subs, id)
  {
    if subs != [] {
      RunningSubagentsKeepsAll(subs[1..]);
      EndInRemoves(subs[1..], id);
    }
  }

  lemma EndSubagentRemoves(a: State, e: Event)
    requires AllSubagentsRunning(a.subagents)
    ensures EndSubagent(a, e).subagents == RemoveSubagent(a.subagents, NamedAgent(e))
  {
    EndInRemoves(a.subagents, NamedAgent(e));
  }

  lemma {:induction false} RemovedSurvivors(subs: seq<Subagent>, e: Event)
    requires IsSubagentEnd(e.etype) && DistinctIds(SubagentsOf(subs))
    ensures SubagentsOf(RemoveSubagent(subs, NamedAgent(e))) == Surviving(SubagentsOf(subs), e, SubagentClosed)
  {
    if subs != [] {
      var rest := SubagentsOf(subs[1..]);
      DistinctTail(SubagentsOf(subs)[0], rest);
      SurvivingCons(SubagentsOf(subs)[0], rest, e, SubagentClosed);
      if subs[0].id == NamedAgent(e) {
        SurvivingAll(rest, e, SubagentClosed);
      } else {
        RemovedSurvivors(subs[1..], e);
        var left := RemoveSubagent(subs[1..], NamedAgent(e));
        assert ([subs[0]] + left)[1..] == left;
      }
    }
  }

  lemma {:induction false} OpenSubagentsDistinct(h: seq<Event>)
    requires DistinctSubagents(h)
    ensures DistinctIds(Open(h, SubagentStart, SubagentClosed))
  {
    if h != [] {
      var rest := h[1..];
      assert DistinctSubagents(rest) by {
        forall i, j | 0 <= i < j < |rest| && rest[i].etype.SubagentStarted? && rest[j].etype.SubagentStarted?
          ensures OpenedAgent(rest[i]) != OpenedAgent(rest[j])
        {
          assert rest[i] == h[i + 1] && rest[j] == h[j + 1];
        }
      }
      OpenSubagentsDistinct(rest);
      var later := Open(rest, SubagentStart, SubagentClosed);
      if h[0].etype.SubagentStarted? {
        forall k | 0 <= k < |later|
          ensures later[k].id != OpenedAgent(h[0])
        {
          var i := OpenWasOpened(rest, SubagentStart, SubagentClosed, k);
          assert rest[i] == h[i + 1];
        }
      }
    }
  }

  /** Tool calls, progress and deltas change a subagent in place but not which subagents are listed. */
  lemma OtherEventsKeepSubagents(a: State, e: Event)
    requires !e.etype.SubagentStarted? && !IsSubagentEnd(e.etype) && !e.etype.SessionShutdown?
    ensures SubagentsOf(Step(a, e).subagents) == SubagentsOf(a.subagents)
  {
    if e.etype.ToolStart? {
      StartKeepsNames(a, e);
    } else if e.etype.ToolComplete? {
      EndKeepsNames(a, e);
    } else if e.etype.ToolProgress? {
      ProgressKeepsNames(a, e);
    } else if e.etype.MessageDelta? || e.etype.StreamingDelta? {
      DeltaKeepsNames(a, e);
    } else {
      PlainEventsKeepSubagents(a, e);
    }
  }

  lemma PlainEventsKeepSubagents(a: State, e: Event)
    requires !e.etype.SubagentStarted? && !IsSubagentEnd(e.etype) && !e.etype.SessionShutdown?
    requires !e.etype.ToolStart? && !e.etype.ToolComplete? && !e.etype.ToolProgress?
    requires !e.etype.MessageDelta? && !e.etype.StreamingDelta?
    ensures Step(a, e).subagents == a.subagents
  {
  }

  lemma StartKeepsNames(a: State, e: Event)
    requires e.etype.ToolStart?
    ensures SubagentsOf(Step(a, e).subagents) == SubagentsOf(a.subagents)
  {
    if Truthy(e.data.agentId) {
      var i := FindSubagent(a.subagents, e.data.agentId.value);
      if i < |a.subagents| { ReplacementKeepsNames(a.subagents, i, Step(a, e).subagents[i]); }
    }
  }

  lemma EndKeepsNames(a: State, e: Event)
    requires e.etype.ToolComplete?
    ensures SubagentsOf(Step(a, e).subagents) == SubagentsOf(a.subagents)
  {
    if Truthy(e.data.agentId) {
      var i := FindSubagent(a.subagents, e.data.agentId.value);
      if i < |a.subagents| { ReplacementKeepsNames(a.subagents, i, Step(a, e).subagents[i]); }
    }
  }

  lemma ProgressKeepsNames(a: State, e: Event)
    requires e.etype.ToolProgress?
    ensures SubagentsOf(Step(a, e).subagents) == SubagentsOf(a.subagents)
  {
    if Truthy(e.data.agentId) {
      var i := FindSubagent(a.subagents, e.data.agentId.value);
      if i < |a.subagents| { ReplacementKeepsNames(a.subagents, i, Step(a, e).subagents[i]); }
    }
  }

  lemma DeltaKeepsNames(a: State, e: Event)
    requires e.etype.MessageDelta? || e.etype.StreamingDelta?
    ensures SubagentsOf(Step(a, e).subagents) == SubagentsOf(a.subagents)
  {
    if Truthy(e.data.agentId) {
      var i := FindSubagent(a.subagents, e.data.agentId.value);
      if i < |a.subagents| { ReplacementKeepsNames(a.subagents, i, Step(a, e).subagents[i]); }
    }
  }

  lemma ReplacementKeepsNames(subs: seq<Subagent>, i: nat, sub: Subagent)
    requires i < |subs| && sub.id == subs[i].id && sub.name == subs[i].name && sub.startedAt == subs[i].startedAt
    ensures SubagentsOf(subs[i := sub]) == SubagentsOf(subs)
  {
  }

  /** The listed subagents are exactly those started and neither completed nor failed since the last shutdown. */
  lemma {:induction false} SubagentsRefineHistory(h: seq<Event>)
    requires DistinctSubagents(h)
    ensures SubagentsOf(Fold(h).subagents) == Open(h, SubagentStart, SubagentClosed)
  {
    if h != [] {
      var before, e := h[..|h| - 1], h[|h| - 1];
      assert h == before + [e];
      assert forall i :: 0 <= i < |before| ==> before[i] == h[i];
      SubagentsRefineHistory(before);
      OpenSnoc(before, e, SubagentStart, SubagentClosed);
      OpenSubagentsDistinct(before);
      PhaseIsNeverStale(before);
      SubagentsStep(Fold(before), e);
    }
  }

  lemma StepOnSubagentEvents(a: State, e: Event)
    ensures e.etype.SubagentStarted? ==> Step(a, e).subagents == a.subagents + [NewSubagent(e)]
    ensures IsSubagentEnd(e.etype) ==> Step(a, e).subagents == EndSubagent(a, e).subagents
    ensures e.etype.SessionShutdown? ==> Step(a, e).subagents == []
  {
  }

  lemma SubagentsStep(a: State, e: Event)
    requires AllFresh(a.subagents) && DistinctIds(SubagentsOf(a.subagents))
    ensures SubagentsOf(Step(a, e).subagents) ==
            Surviving(SubagentsOf(a.subagents), e, SubagentClosed) + OptionSeq(SubagentStart(e))
  {
    StepOnSubagentEvents(a, e);
    if !e.etype.SubagentStarted? && !IsSubagentEnd(e.etype) && !e.etype.SessionShutdown? {
      OtherEventsKeepSubagents(a, e);
    }
    SubagentsNext(a, Step(a, e).subagents, e);
  }

  lemma SubagentsNext(a: State, next: seq<Subagent>, e: Event)
    requires AllFresh(a.subagents) && DistinctIds(SubagentsOf(a.subagents))
    requires e.etype.SubagentStarted? ==> next == a.subagents + [NewSubagent(e)]
    requires IsSubagentEnd(e.etype) ==> next == EndSubagent(a, e).subagents
    requires e.etype.SessionShutdown? ==> next == []
    requires !e.etype.SubagentStarted? && !IsSubagentEnd(e.etype) && !e.etype.SessionShutdown? ==>
             SubagentsOf(next) == SubagentsOf(a.subagents)
    ensures SubagentsOf(next) == Surviving(SubagentsOf(a.subagents), e, SubagentClosed) + OptionSeq(SubagentStart(e))
  {
    var items := SubagentsOf(a.subagents);
    if e.etype.SubagentStarted? {
      StartingSurvivors(a, e);
    } else {
      PlusNone(Surviving(items, e, SubagentClosed));
      if e.etype.SessionShutdown? {
        SurvivingNone(items, e, SubagentClosed);
      } else if IsSubagentEnd(e.etype) {
        EndingSurvivors(a, e);
      } else {
        SurvivingAll(items, e, SubagentClosed);
      }
    }
  }

  lemma StartingSurvivors(a: State, e: Event)
    requires e.etype.SubagentStarted?
    ensures SubagentsOf(a.subagents + [NewSubagent(e)]) ==
            Surviving(SubagentsOf(a.subagents), e, SubagentClosed) + OptionSeq(SubagentStart(e))
  {
    SurvivingAll(SubagentsOf(a.subagents), e, SubagentClosed);
    SubagentsOfAppend(a.subagents, NewSubagent(e));
  }

  lemma SubagentsOfAppend(subs: seq<Subagent>, sub: Subagent)
    ensures SubagentsOf(subs + [sub]) == SubagentsOf(subs) + [Started(sub.id, sub.name, sub.startedAt)]
  {
  }

  lemma EndingSurvivors(a: State, e: Event)
    requires AllFresh(a.subagents) && IsSubagentEnd(e.etype) && DistinctIds(SubagentsOf(a.subagents))
    ensures SubagentsOf(EndSubagent(a, e).subagents) == Surviving(SubagentsOf(a.subagents), e, SubagentClosed)
  {
    FreshSubagentsRun(a.subagents);
    EndSubagentRemoves(a, e);
    RemovedSurvivors(a.subagents, e);
  }
}
