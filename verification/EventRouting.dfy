/** Where the client fold puts an entry, and what becomes of a tool call from its start to its completion
    (src/client/services/event-processor.ts). */
module EventRouting {
  import opened Optional
  import opened SessionEvents
  import opened ToolTags
  import opened EventProcessor
  import opened EventEffects
  import opened EventProcessorTheorems
  import Text

  // ---- where an entry lands ----

  lemma {:induction false} FindContainerIsFirst(entries: seq<Entry>, id: string)
    ensures var i := FindContainer(entries, id); forall j :: 0 <= j < i ==> !IsContainer(entries[j], id)
  {
    if entries != [] && !IsContainer(entries[0], id) {
      FindContainerIsFirst(entries[1..], id);
      assert forall j :: 1 <= j < |entries| ==> entries[j] == entries[1..][j - 1];
    }
  }

  /** The first container of an id is the only position with a container and none before it. */
  lemma FirstContainerIs(entries: seq<Entry>, id: string, i: nat)
    requires i <= |entries| && (i < |entries| ==> IsContainer(entries[i], id))
    requires forall j :: 0 <= j < i ==> !IsContainer(entries[j], id)
    ensures FindContainer(entries, id) == i
  {
    FindContainerIsFirst(entries, id);
  }

  /** An agent container of this call. */
  predicate IsAgentOf(x: Entry, id: string) {
    x.tag == Some(Agent) && x.toolCallId == Some(id)
  }

  ghost predicate HasContainer(entries: seq<Entry>, owner: Option<string>) {
    Truthy(owner) && exists j :: 0 <= j < |entries| && IsAgentOf(entries[j], owner.value)
  }

  /** `next` is `entries` with `x` at the end of the nested entries of the owner's first container, or, when the owner
      has no container, at the end of the list. */
  ghost predicate Lands(entries: seq<Entry>, next: seq<Entry>, owner: Option<string>, x: Entry) {
    if HasContainer(entries, owner) then
      && |next| == |entries|
      && exists i :: 0 <= i < |entries| && LandsAt(entries, next, owner.value, x, i)
    else next == entries + [x]
  }

  ghost predicate LandsAt(entries: seq<Entry>, next: seq<Entry>, owner: string, x: Entry, i: nat)
    requires i < |entries| == |next|
  {
    && IsAgentOf(entries[i], owner) && (forall j :: 0 <= j < i ==> !IsAgentOf(entries[j], owner))
    && next[i] == entries[i].(nested := Some(NestedOf(entries[i]) + [x]))
    && (forall j :: 0 <= j < |entries| && j != i ==> next[j] == entries[j])
  }

  lemma AddToLands(entries: seq<Entry>, owner: Option<string>, x: Entry)
    ensures Lands(entries, AddTo(entries, owner, x), owner, x)
  {
    if Truthy(owner) {
      var i := FindContainer(entries, owner.value);
      FindContainerIsFirst(entries, owner.value);
      if i < |entries| { assert LandsAt(entries, AddTo(entries, owner, x), owner.value, x, i); }
    }
  }

  /** A main-agent message that echoes something a subagent said is not shown, and clears what was remembered; any other
      one is shown. So after an echo the next main-agent message is always shown. */
  lemma EchoIsDroppedOnce(f: Format, s: State, e: Event, again: Event, mode: Mode)
    requires e.etype.AssistantMessage? && Text.Trim(e.data.content.GetOr("")) != "" && !Truthy(e.data.parentToolCallId)
    requires again.etype.AssistantMessage? && Text.Trim(again.data.content.GetOr("")) != "" &&
             !Truthy(again.data.parentToolCallId)
    ensures var t := Step(f, s, e, mode);
            && (t.entries == s.entries <==> IsEcho(s.refs.subagentContent, f.normalize(e.data.content.GetOr(""))))
            && (t.entries == s.entries ==> t.refs.subagentContent == {} && Step(f, t, again, mode).entries != t.entries)
  {
    var t := Step(f, s, e, mode);
    AddToChanges(s.entries, Owner(s.refs.subagentStack, e),
      MessageEntry(MessageNotes(s.refs.subagentNames, s.refs.mainAgentName, s.refs.lastUsage, e), e));
    AddToChanges(t.entries, Owner(t.refs.subagentStack, again),
      MessageEntry(MessageNotes(t.refs.subagentNames, t.refs.mainAgentName, t.refs.lastUsage, again), again));
  }

  lemma AddToChanges(entries: seq<Entry>, owner: Option<string>, x: Entry)
    ensures AddTo(entries, owner, x) != entries
  {
    AddToLands(entries, owner, x);
    if HasContainer(entries, owner) {
      var i :| 0 <= i < |entries| && LandsAt(entries, AddTo(entries, owner, x), owner.value, x, i);
      assert AddTo(entries, owner, x)[i].nested != entries[i].nested;
    }
  }

  // ---- which entry a completion settles ----

  /** The container that an owner's entries go to; None is the top level. */
  function PlaceOf(entries: seq<Entry>, owner: Option<string>): (p: Option<nat>)
    ensures p.Some? ==> p.value < |entries|
  {
    if Truthy(owner) && FindContainer(entries, owner.value) < |entries| then Some(FindContainer(entries, owner.value))
    else None
  }

  function ListAt(entries: seq<Entry>, p: Option<nat>): seq<Entry>
    requires p.Some? ==> p.value < |entries|
  {
    if p.Some? then NestedOf(entries[p.value]) else entries
  }

  /** Where a completion looks for its call: at its owner's place, or at top level when it is the owner's own
      completion. */
  function SearchedPlace(r: Refs, e: Event, entries: seq<Entry>): (p: Option<nat>)
    ensures p.Some? ==> p.value < |entries|
  {
    var owner := Owner(r.subagentStack, e);
    if e.data.toolCallId == owner then None else PlaceOf(entries, owner)
  }

  function SearchedList(r: Refs, e: Event, entries: seq<Entry>): seq<Entry> {
    ListAt(entries, SearchedPlace(r, e, entries))
  }

  ghost predicate Knows(list: seq<Entry>, callId: Option<string>) {
    Truthy(callId) && exists j :: 0 <= j < |list| && IsCallEntry(list[j], callId.value)
  }

  ghost predicate HasRunning(list: seq<Entry>) {
    exists j :: 0 <= j < |list| && IsRunningTool(list[j])
  }

  /** The entry belongs to the completed call. */
  predicate IsOwn(x: Entry, callId: Option<string>) {
    Truthy(callId) && x.toolCallId == callId
  }

  /** The entry itself is changed; what is nested in it is not looked at. */
  predicate IsTouched(before: Entry, after: Entry) {
    before.(nested := None) != after.(nested := None)
  }

  ghost predicate TopTouched(entries: seq<Entry>, next: seq<Entry>, callId: Option<string>, own: bool, i: nat) {
    i < |entries| && i < |next| && IsOwn(entries[i], callId) == own && IsTouched(entries[i], next[i])
  }

  ghost predicate NestedTouched(
    entries: seq<Entry>, next: seq<Entry>, callId: Option<string>, own: bool, i: nat, j: nat) {
    i < |entries| && i < |next| && TopTouched(NestedOf(entries[i]), NestedOf(next[i]), callId, own, j)
  }

  /** Some entry of the completed call (`own`), or of another one, is changed, at top level or in a container. */
  ghost predicate Touches(entries: seq<Entry>, next: seq<Entry>, callId: Option<string>, own: bool) {
    || (exists i: nat :: TopTouched(entries, next, callId, own, i))
    || (exists i: nat, j: nat :: NestedTouched(entries, next, callId, own, i, j))
  }

  lemma CompletedIsTouched(x: Entry, c: Completion)
    requires c.data != []
    ensures IsTouched(x, Completed(x, c)) && NestedOf(Completed(x, c)) == NestedOf(x)
  {
    assert |x.eventData + c.data| > |x.eventData|;
  }

  /** Within the searched list. */
  lemma ListSettles(list: seq<Entry>, c: Completion)
    requires c.data != []
    ensures var next := CompleteIn(list, c);
            && ((exists i: nat :: TopTouched(list, next, c.callId, true, i)) <==> Knows(list, c.callId))
            && ((exists i: nat :: TopTouched(list, next, c.callId, false, i)) <==>
                !Knows(list, c.callId) && HasRunning(list))
  {
    var next, t := CompleteIn(list, c), CompletionTarget(list, c.callId);
    CompletionResolves(list, c);
    assert forall i: nat :: i < |list| && i != t ==> next[i] == list[i];
    if t >= 0 {
      CompletedIsTouched(list[t], c);
      assert TopTouched(list, next, c.callId, IsOwn(list[t], c.callId), t);
      if !Knows(list, c.callId) { FallbackRuns(list, c.callId); }
    }
  }

  lemma FallbackRuns(list: seq<Entry>, callId: Option<string>)
    requires !Knows(list, callId) && CompletionTarget(list, callId) >= 0
    ensures CompletionTarget(list, callId) == LastRunning(list) && IsRunningTool(list[LastRunning(list)])
  {
    LastRunningIsLast(list);
    if Truthy(callId) { FindToolEntryIsFirst(list, callId.value); }
  }

  lemma CompletionKeepsNested(list: seq<Entry>, c: Completion)
    ensures |CompleteIn(list, c)| >= |list|
    ensures forall i :: 0 <= i < |list| ==> NestedOf(CompleteIn(list, c)[i]) == NestedOf(list[i])
  {
  }

  lemma SameNestedTouchesNothing(entries: seq<Entry>, next: seq<Entry>, callId: Option<string>, own: bool)
    requires |next| >= |entries| && forall i :: 0 <= i < |entries| ==> NestedOf(next[i]) == NestedOf(entries[i])
    ensures forall i: nat, j: nat :: !NestedTouched(entries, next, callId, own, i, j)
  {
  }

  lemma OnlyNestedTouched(entries: seq<Entry>, p: nat, list: seq<Entry>, callId: Option<string>, own: bool)
    requires p < |entries|
    ensures var next := entries[p := entries[p].(nested := Some(list))];
            Touches(entries, next, callId, own) <==>
            exists j: nat :: TopTouched(NestedOf(entries[p]), list, callId, own, j)
  {
    var next := entries[p := entries[p].(nested := Some(list))];
    assert NestedOf(next[p]) == list;
    assert forall i: nat :: !TopTouched(entries, next, callId, own, i);
    assert forall i: nat, j: nat :: NestedTouched(entries, next, callId, own, i, j) ==> i == p;
    if j: nat :| TopTouched(NestedOf(entries[p]), list, callId, own, j) {
      assert NestedTouched(entries, next, callId, own, p, j);
    }
  }

  lemma SearchIsCompletion(r: Refs, e: Event, entries: seq<Entry>, c: Completion)
    requires c.callId == e.data.toolCallId
    ensures var p, list := SearchedPlace(r, e, entries), SearchedList(r, e, entries);
            CompleteUnder(entries, Owner(r.subagentStack, e), c) ==
            if p.Some? then entries[p.value := entries[p.value].(nested := Some(CompleteIn(list, c)))]
            else CompleteIn(entries, c)
  {
  }

  lemma SettlingTouches(r: Refs, e: Event, entries: seq<Entry>, c: Completion, own: bool)
    requires c.callId == e.data.toolCallId && c.data != []
    ensures var list := SearchedList(r, e, entries);
            Touches(entries, CompleteUnder(entries, Owner(r.subagentStack, e), c), c.callId, own) <==>
            if own then Knows(list, c.callId) else !Knows(list, c.callId) && HasRunning(list)
  {
    var p, list := SearchedPlace(r, e, entries), SearchedList(r, e, entries);
    SearchIsCompletion(r, e, entries, c);
    ListSettles(list, c);
    if p.Some? {
      OnlyNestedTouched(entries, p.value, CompleteIn(list, c), c.callId, own);
    } else {
      CompletionKeepsNested(entries, c);
      SameNestedTouchesNothing(entries, CompleteIn(entries, c), c.callId, own);
    }
  }

  lemma NothingTouched(entries: seq<Entry>, callId: Option<string>, own: bool)
    ensures !Touches(entries, entries, callId, own)
  {
  }

  lemma TaskTouchesOnlyItself(entries: seq<Entry>, callId: Option<string>, status: ToolStatus)
    ensures !Touches(entries, ChangeContainer(entries, callId, SetToolStatus(status)), callId, false)
  {
    var next := ChangeContainer(entries, callId, SetToolStatus(status));
    assert forall i: nat :: i < |entries| ==> next[i] == entries[i] || IsOwn(entries[i], callId);
    SameNestedTouchesNothing(entries, next, callId, false);
  }

  /** A completion changes an entry of another call if and only if it looks for an entry to settle, the list it looks in
      holds none of its call, and some tool there is still running. Its call may well be on an entry of another list. */
  lemma CompletionMisfiresExactly(f: Format, s: State, e: Event, mode: Mode)
    requires e.etype.ToolComplete?
    ensures var list := SearchedList(s.refs, e, s.entries);
            Touches(s.entries, Step(f, s, e, mode).entries, e.data.toolCallId, false) <==>
            Settles(s.refs, e) && !Knows(list, e.data.toolCallId) && HasRunning(list)
  {
    var original := OriginalArgs(s.refs.toolStarts, e);
    if SkippedCompletion(original, e) {
      NothingTouched(s.entries, e.data.toolCallId, false);
    } else if IsTaskCompletion(e) {
      TaskTouchesOnlyItself(s.entries, e.data.toolCallId, Outcome(e.data.success));
    } else {
      SettlingTouches(s.refs, e, s.entries, CompletionOf(f, original, e), false);
    }
  }

  /** It changes an entry of its own call if and only if the list it looks in holds one. */
  lemma OwnCallIsSettledExactly(f: Format, s: State, e: Event, mode: Mode)
    requires Settles(s.refs, e)
    ensures Touches(s.entries, Step(f, s, e, mode).entries, e.data.toolCallId, true) <==>
            Knows(SearchedList(s.refs, e, s.entries), e.data.toolCallId)
  {
    SettlingTouches(s.refs, e, s.entries, CompletionOf(f, OriginalArgs(s.refs.toolStarts, e), e), true);
  }

  // ---- five events in which a completion settles another call ----

  function StartOf(id: string, name: string): Event {
    Event(ToolStart, NO_DATA.(toolCallId := Some(id), toolName := Some(name)), 1, None)
  }

  const SUBAGENT_STARTS := Event(SubagentStarted, NO_DATA.(toolCallId := Some("s")), 2, None)
  const VIEW_ENDS := Event(ToolComplete, NO_DATA.(toolCallId := Some("x"), success := Some(true)), 3, None)

  /** A view is started, then a task, and inside the task another view. */
  const OPENING := [StartOf("x", "view"), StartOf("s", "task"), SUBAGENT_STARTS, StartOf("y", "view")]

  function After(f: Format, events: seq<Event>): State {
    Fold(f, State(EMPTY_REFS, []), events, Live)
  }

  lemma AfterSnoc(f: Format, events: seq<Event>, e: Event)
    ensures After(f, events + [e]) == Step(f, After(f, events), e, Live)
  {
    assert (events + [e])[..|events|] == events;
  }

  /** The outer view is shown, and its arguments are recorded. */
  ghost predicate ViewRuns(f: Format, s: State) {
    && |s.entries| >= 1 && s.entries[0] == StartEntry(f, None, StartOf("x", "view")) && s.refs.currentIntent == None
    && "x" in s.refs.toolStarts && s.refs.toolStarts["x"] == ToolStartArgs(map[], false)
  }

  lemma ViewStarts(f: Format)
    ensures var a := Step(f, State(EMPTY_REFS, []), StartOf("x", "view"), Live);
            ViewRuns(f, a) && |a.entries| == 1 && a.refs.subagentStack == []
  {
    assert [] + [StartEntry(f, None, StartOf("x", "view"))] == [StartEntry(f, None, StartOf("x", "view"))];
  }

  lemma OuterTaskStarts(f: Format, a: State)
    requires ViewRuns(f, a) && |a.entries| == 1 && a.refs.subagentStack == []
    ensures var b := Step(f, a, StartOf("s", "task"), Live);
            && ViewRuns(f, b) && |b.entries| == 2 && b.refs.subagentStack == []
            && b.entries[1] == StartEntry(f, None, StartOf("s", "task"))
  {
    TaskStartAppends(f, a.refs, StartOf("s", "task"), a.entries);
  }

  lemma SubagentStarts(f: Format, b: State)
    requires ViewRuns(f, b) && |b.entries| == 2 && b.refs.subagentStack == []
    requires b.entries[1] == StartEntry(f, None, StartOf("s", "task"))
    ensures var c := Step(f, b, SUBAGENT_STARTS, Live);
            && ViewRuns(f, c) && |c.entries| == 2 && c.refs.subagentStack == ["s"]
            && IsContainer(c.entries[1], "s") && NestedOf(c.entries[1]) == []
  {
    FirstContainerIs(b.entries, "s", 1);
    assert [] + ["s"] == ["s"];
  }

  lemma InnerViewIsAdded(f: Format, c: State)
    requires c.refs.subagentStack == ["s"] && c.refs.currentIntent == None
    ensures Step(f, c, StartOf("y", "view"), Live).entries ==
            AddTo(c.entries, Some("s"), StartEntry(f, None, StartOf("y", "view")))
  {
  }

  lemma InnerViewIsRecorded(f: Format, c: State)
    requires "x" in c.refs.toolStarts
    ensures var r := Step(f, c, StartOf("y", "view"), Live).refs;
            && r.subagentStack == c.refs.subagentStack && r.currentIntent == c.refs.currentIntent
            && "x" in r.toolStarts && r.toolStarts["x"] == c.refs.toolStarts["x"]
  {
  }

  lemma InnerViewStarts(f: Format, c: State)
    requires ViewRuns(f, c) && |c.entries| == 2 && c.refs.subagentStack == ["s"]
    requires IsContainer(c.entries[1], "s") && NestedOf(c.entries[1]) == []
    ensures IsOpened(f, Step(f, c, StartOf("y", "view"), Live))
  {
    InnerViewIsAdded(f, c);
    InnerViewIsRecorded(f, c);
    FirstContainerIs(c.entries, "s", 1);
    assert [] + [StartEntry(f, None, StartOf("y", "view"))] == [StartEntry(f, None, StartOf("y", "view"))];
  }

  ghost predicate IsOpened(f: Format, d: State) {
    && ViewRuns(f, d) && |d.entries| == 2 && d.refs.subagentStack == ["s"]
    && IsContainer(d.entries[1], "s") && NestedOf(d.entries[1]) == [StartEntry(f, None, StartOf("y", "view"))]
  }

  lemma AfterOpening(f: Format)
    ensures IsOpened(f, After(f, OPENING))
  {
    var x, s, y := StartOf("x", "view"), StartOf("s", "task"), StartOf("y", "view");
    assert [] + [x] == [x] && [x] + [s] == [x, s];
    assert [x, s] + [SUBAGENT_STARTS] == [x, s, SUBAGENT_STARTS] && [x, s, SUBAGENT_STARTS] + [y] == OPENING;
    AfterSnoc(f, [], x);
    AfterSnoc(f, [x], s);
    AfterSnoc(f, [x, s], SUBAGENT_STARTS);
    AfterSnoc(f, [x, s, SUBAGENT_STARTS], y);
    ViewStarts(f);
    OuterTaskStarts(f, After(f, [x]));
    SubagentStarts(f, After(f, [x, s]));
    InnerViewStarts(f, After(f, [x, s, SUBAGENT_STARTS]));
  }

  /** The completion of the outer view is looked up among the entries of the running subagent only. */
  lemma LooksInSubagent(f: Format, d: State)
    requires |d.entries| == 2 && IsContainer(d.entries[1], "s") && !IsContainer(d.entries[0], "s")
    requires d.refs.subagentStack == ["s"]
    ensures SearchedPlace(d.refs, VIEW_ENDS, d.entries) == Some(1)
  {
    FirstContainerIs(d.entries, "s", 1);
  }

  lemma MisfireIn(y: Entry, c: Completion)
    requires IsRunningTool(y) && Truthy(c.callId) && !IsCallEntry(y, c.callId.value)
    ensures CompleteIn([y], c) == [Completed(y, c)]
  {
    assert LastRunning([y]) == 0;
    assert [y][0 := Completed(y, c)] == [Completed(y, c)];
  }

  lemma ViewEnds(f: Format, d: State, y: Entry)
    requires |d.entries| == 2 && IsContainer(d.entries[1], "s") && !IsContainer(d.entries[0], "s")
    requires d.refs.subagentStack == ["s"] && NestedOf(d.entries[1]) == [y] && IsRunningTool(y) && !IsCallEntry(y, "x")
    requires "x" in d.refs.toolStarts && d.refs.toolStarts["x"] == ToolStartArgs(map[], false)
    ensures var c := CompletionOf(f, Some(ToolStartArgs(map[], false)), VIEW_ENDS);
            Step(f, d, VIEW_ENDS, Live).entries ==
            d.entries[1 := d.entries[1].(nested := Some([Completed(y, c)]))]
    ensures Settles(d.refs, VIEW_ENDS)
  {
    var c := CompletionOf(f, Some(ToolStartArgs(map[], false)), VIEW_ENDS);
    LooksInSubagent(f, d);
    SearchIsCompletion(d.refs, VIEW_ENDS, d.entries, c);
    MisfireIn(y, c);
  }

  /** The inner view is settled, the outer one is not. */
  ghost predicate IsMisfired(d: State, e: State) {
    && |d.entries| == |e.entries| == 2
    && IsCallEntry(d.entries[0], "x") && e.entries[0] == d.entries[0] && IsRunningTool(e.entries[0])
    && |NestedOf(e.entries[1])| == 1 && IsCallEntry(NestedOf(e.entries[1])[0], "y")
    && NestedOf(e.entries[1])[0].toolStatus == Some(ToolCompleted)
  }

  lemma OpenedMisfires(f: Format, d: State)
    requires IsOpened(f, d)
    ensures IsMisfired(d, Step(f, d, VIEW_ENDS, Live))
    ensures Touches(d.entries, Step(f, d, VIEW_ENDS, Live).entries, Some("x"), false)
  {
    var y := StartEntry(f, None, StartOf("y", "view"));
    ViewEnds(f, d, y);
    LooksInSubagent(f, d);
    CompletionMisfiresExactly(f, d, VIEW_ENDS, Live);
    var list := SearchedList(d.refs, VIEW_ENDS, d.entries);
    assert list == [y] && IsRunningTool(list[0]) && !IsCallEntry(list[0], "x");
  }

  /** When the outer view completes, the inner one is settled with its result and the outer one keeps running, although
      it is on an entry: an entry of another call is changed. */
  lemma CompletionCanMisfire(f: Format)
    ensures IsMisfired(After(f, OPENING), After(f, OPENING + [VIEW_ENDS]))
    ensures Touches(After(f, OPENING).entries, After(f, OPENING + [VIEW_ENDS]).entries, Some("x"), false)
  {
    AfterOpening(f);
    AfterSnoc(f, OPENING, VIEW_ENDS);
    OpenedMisfires(f, After(f, OPENING));
  }

  // ---- a tool call from start to completion ----

  /** A container keeps its place whatever happens, so an owner with a container keeps its list. */
  lemma PlaceStays(before: seq<Entry>, after: seq<Entry>, owner: Option<string>)
    requires EntriesGrow(before, after) && PlaceOf(before, owner).Some?
    ensures PlaceOf(after, owner) == PlaceOf(before, owner)
  {
    var i, id := PlaceOf(before, owner).value, owner.value;
    FindContainerIsFirst(before, id);
    assert forall j :: 0 <= j < |before| ==> EntryGrows(before[j], after[j]);
    FirstContainerIs(after, id, i);
  }

  /** An ordinary tool: shown, and not an agent container. */
  predicate IsOrdinary(name: string) {
    !IsInfra(name) && name != "report_intent" && name != "task"
  }

  predicate StartsCall(e: Event) {
    && e.etype.ToolStart? && Truthy(e.data.toolCallId)
    && IsOrdinary(ToolNameOf(e)) && !Truthy(Arg(e.data.arguments, "_infraTool"))
  }

  /** A completion of the call; it may leave out the tool name. */
  predicate EndsCall(e: Event, id: string) {
    && e.etype.ToolComplete? && e.data.toolCallId == Some(id)
    && ToolNameOf(e) != "report_intent" && ToolNameOf(e) != "task" && e.data.resultContent != Some("Intent logged")
  }

  /** The completion would settle, for want of an entry of its own, the entry of call `id`: the last one running. */
  ghost predicate Picks(r: Refs, e: Event, entries: seq<Entry>, id: string) {
    var list := SearchedList(r, e, entries);
    && Settles(r, e) && !Knows(list, e.data.toolCallId)
    && LastRunning(list) >= 0 && IsCallEntry(list[LastRunning(list)], id)
  }

  /** The event neither starts nor completes the call, nor picks it in place of another. */
  ghost predicate LeavesCall(r: Refs, e: Event, entries: seq<Entry>, id: string) {
    (e.etype.ToolStart? || e.etype.ToolComplete? ==> e.data.toolCallId != Some(id)) && !Picks(r, e, entries, id)
  }

  ghost predicate Undisturbed(f: Format, s: State, events: seq<Event>, id: string, mode: Mode) {
    forall k :: 0 <= k < |events| ==>
      var t := Fold(f, s, events[..k], mode); LeavesCall(t.refs, events[k], t.entries, id)
  }

  /** `x` is at index `q` of the list at `p`, and the only entry of call `id` there. */
  ghost predicate OnlyCallAt(entries: seq<Entry>, p: Option<nat>, q: nat, x: Entry, id: string) {
    && (p.Some? ==> p.value < |entries|) && q < |ListAt(entries, p)| && ListAt(entries, p)[q] == x
    && (forall j :: 0 <= j < |ListAt(entries, p)| && j != q ==> !IsCallEntry(ListAt(entries, p)[j], id))
  }

  /** Index `q` is untouched and no entry of call `id` is added. */
  ghost predicate ListKeeps(list: seq<Entry>, next: seq<Entry>, q: nat, id: string) {
    && q < |list| <= |next| && next[q] == list[q]
    && (forall j :: 0 <= j < |next| && IsCallEntry(next[j], id) ==> j < |list| && IsCallEntry(list[j], id))
  }

  lemma KeepsOnlyCall(entries: seq<Entry>, next: seq<Entry>, p: Option<nat>, q: nat, x: Entry, id: string)
    requires OnlyCallAt(entries, p, q, x, id) && (p.Some? ==> p.value < |next|)
    requires ListKeeps(ListAt(entries, p), ListAt(next, p), q, id)
    ensures OnlyCallAt(next, p, q, x, id)
  {
  }

  /** A list at top level: growth in place, at containers only, and at the end. */
  lemma AddToKeeps(entries: seq<Entry>, owner: Option<string>, y: Entry, p: Option<nat>, q: nat, id: string)
    requires (p.Some? ==> p.value < |entries|) && q < |ListAt(entries, p)|
    requires !IsCallEntry(y, id) && (p.None? ==> entries[q].tag != Some(Agent))
    ensures ListKeeps(ListAt(entries, p), ListAt(AddTo(entries, owner, y), p), q, id)
  {
  }

  lemma ChangeKeeps(
    entries: seq<Entry>, callId: Option<string>, change: ContainerChange, p: Option<nat>, q: nat, id: string)
    requires (p.Some? ==> p.value < |entries|) && q < |ListAt(entries, p)|
    requires p.None? ==> entries[q].tag != Some(Agent)
    ensures ListKeeps(ListAt(entries, p), ListAt(ChangeContainer(entries, callId, change), p), q, id)
  {
  }

  lemma CompleteInKeeps(list: seq<Entry>, c: Completion, q: nat, id: string)
    requires q < |list| && IsCallEntry(list[q], id) && c.callId != Some(id)
    requires !Knows(list, c.callId) && LastRunning(list) >= 0 ==> !IsCallEntry(list[LastRunning(list)], id)
    ensures ListKeeps(list, CompleteIn(list, c), q, id)
  {
    if Truthy(c.callId) { FindToolEntryIsFirst(list, c.callId.value); }
    var t := CompletionTarget(list, c.callId);
    assert t != q;
  }

  lemma CompleteUnderKeeps(
    r: Refs, e: Event, entries: seq<Entry>, c: Completion, p: Option<nat>, q: nat, id: string)
    requires (p.Some? ==> p.value < |entries|) && q < |ListAt(entries, p)| && IsCallEntry(ListAt(entries, p)[q], id)
    requires p.None? ==> entries[q].tag != Some(Agent)
    requires c.callId == e.data.toolCallId != Some(id)
    requires var list := SearchedList(r, e, entries);
             !Knows(list, c.callId) && LastRunning(list) >= 0 ==> !IsCallEntry(list[LastRunning(list)], id)
    ensures ListKeeps(ListAt(entries, p), ListAt(CompleteUnder(entries, Owner(r.subagentStack, e), c), p), q, id)
  {
    var u, list := SearchedPlace(r, e, entries), SearchedList(r, e, entries);
    SearchIsCompletion(r, e, entries, c);
    if u == p {
      CompleteInKeeps(list, c, q, id);
    } else if u.None? {
      CompletionKeepsNested(entries, c);
    } else {
      var i := u.value;
      assert IsContainer(entries[i], Owner(r.subagentStack, e).value);
    }
  }

  /** An effect that leaves the call alone leaves its entry alone. */
  lemma EffectKeepsCall(
    r: Refs, e: Event, entries: seq<Entry>, effect: Effect, p: Option<nat>, q: nat, x: Entry, id: string)
    requires OnlyCallAt(entries, p, q, x, id) && IsCallEntry(x, id) && x.tag != Some(Agent)
    requires IsEffectOf(r, e, effect) && LeavesCall(r, e, entries, id)
    ensures OnlyCallAt(Apply(r, e, entries, effect), p, q, x, id)
  {
    match effect
    case Nothing =>
    case Adds(owner, y) =>
      AddToKeeps(entries, owner, y, p, q, id);
      KeepsOnlyCall(entries, AddTo(entries, owner, y), p, q, x, id);
    case Alters(callId, change) =>
      ChangeKeeps(entries, callId, change, p, q, id);
      KeepsOnlyCall(entries, ChangeContainer(entries, callId, change), p, q, x, id);
    case Completes(c) =>
      CompleteUnderKeeps(r, e, entries, c, p, q, id);
      KeepsOnlyCall(entries, CompleteUnder(entries, Owner(r.subagentStack, e), c), p, q, x, id);
  }

  /** An event that leaves the call alone leaves its entry alone. */
  lemma StepKeepsCall(f: Format, r: Refs, e: Event, entries: seq<Entry>, p: Option<nat>, q: nat, x: Entry, id: string)
    requires OnlyCallAt(entries, p, q, x, id) && IsCallEntry(x, id) && x.tag != Some(Agent)
    requires LeavesCall(r, e, entries, id)
    ensures OnlyCallAt(NextEntries(f, r, e, entries), p, q, x, id)
  {
    var effect := EffectOf(f, r, e, entries);
    EffectKeepsCall(r, e, entries, effect, p, q, x, id);
  }

  lemma StepKeepsArguments(f: Format, r: Refs, e: Event, id: string, mode: Mode)
    requires id in r.toolStarts && (e.etype.ToolStart? ==> e.data.toolCallId != Some(id))
    ensures var next := NextRefs(f, r, e, mode); id in next.toolStarts && next.toolStarts[id] == r.toolStarts[id]
  {
  }

  lemma UndisturbedBefore(f: Format, s: State, events: seq<Event>, id: string, mode: Mode)
    requires events != [] && Undisturbed(f, s, events, id, mode)
    ensures Undisturbed(f, s, events[..|events| - 1], id, mode)
    ensures var t := Fold(f, s, events[..|events| - 1], mode);
            LeavesCall(t.refs, events[|events| - 1], t.entries, id)
  {
    var before := events[..|events| - 1];
    assert forall k :: 0 <= k < |before| ==> before[k] == events[k] && before[..k] == events[..k];
  }

  /** The call's entry is where it was put, and its arguments are recorded. */
  ghost predicate CallRuns(t: State, p: Option<nat>, q: nat, x: Entry, id: string, recorded: ToolStartArgs) {
    OnlyCallAt(t.entries, p, q, x, id) && id in t.refs.toolStarts && t.refs.toolStarts[id] == recorded
  }

  lemma StepKeepsRunning(
    f: Format, t: State, e: Event, mode: Mode, p: Option<nat>, q: nat, x: Entry, id: string, recorded: ToolStartArgs)
    requires CallRuns(t, p, q, x, id, recorded) && IsCallEntry(x, id) && x.tag != Some(Agent)
    requires LeavesCall(t.refs, e, t.entries, id)
    ensures CallRuns(Step(f, t, e, mode), p, q, x, id, recorded)
  {
    StepKeepsCall(f, t.refs, e, t.entries, p, q, x, id);
    StepKeepsArguments(f, t.refs, e, id, mode);
  }

  lemma {:induction false} RunKeepsCall(
    f: Format, s: State, events: seq<Event>, mode: Mode, p: Option<nat>, q: nat, x: Entry, id: string,
    recorded: ToolStartArgs)
    requires CallRuns(s, p, q, x, id, recorded) && IsCallEntry(x, id) && x.tag != Some(Agent)
    requires Undisturbed(f, s, events, id, mode)
    ensures CallRuns(Fold(f, s, events, mode), p, q, x, id, recorded)
  {
    if events != [] {
      var before, e := events[..|events| - 1], events[|events| - 1];
      UndisturbedBefore(f, s, events, id, mode);
      RunKeepsCall(f, s, before, mode, p, q, x, id, recorded);
      StepKeepsRunning(f, Fold(f, s, before, mode), e, mode, p, q, x, id, recorded);
    }
  }

  /** The entry that a finished call leaves behind. */
  ghost predicate IsFinishedCall(intent: Option<string>, begin: Event, end: Event, x: Entry) {
    && x.etype == ToolEntry && x.toolCallId == begin.data.toolCallId && x.toolName == Some(ToolNameOf(begin))
    && x.timestamp == begin.ts && x.intentLabel == intent
    && (x.toolStatus == Some(ToolCompleted) <==> end.data.success == Some(true))
    && (x.toolStatus == Some(ToolFailed) <==> end.data.success != Some(true))
    && x.result == Some(end.data.resultContent.GetOr(""))
    && x.content == (if Truthy(end.data.resultContent) then end.data.resultContent.value else ToolNameOf(begin))
    && x.tag == Some(ToolTag(ToolNameOf(begin), begin.data.arguments))
    && x.eventData == [Raw(begin.data), Raw(end.data), OriginalArguments(begin.data.arguments.GetOr(map[]))]
    && IsLeaf(x)
  }

  lemma FinishedEntry(f: Format, intent: Option<string>, begin: Event, end: Event) returns (x: Entry)
    requires StartsCall(begin) && EndsCall(end, begin.data.toolCallId.value)
    ensures x == Completed(StartEntry(f, intent, begin),
                           CompletionOf(f, Some(ToolStartArgs(begin.data.arguments.GetOr(map[]), false)), end))
    ensures IsFinishedCall(intent, begin, end, x)
  {
    var c := CompletionOf(f, Some(ToolStartArgs(begin.data.arguments.GetOr(map[]), false)), end);
    x := Completed(StartEntry(f, intent, begin), c);
    assert [Raw(begin.data)] + c.data ==
           [Raw(begin.data), Raw(end.data), OriginalArguments(begin.data.arguments.GetOr(map[]))];
  }

  /** The entries with `x` put at index `q` of the list at `p`. */
  function Replaced(entries: seq<Entry>, p: Option<nat>, q: nat, x: Entry): seq<Entry>
    requires (p.Some? ==> p.value < |entries|) && q < |ListAt(entries, p)|
  {
    if p.None? then entries[q := x]
    else entries[p.value := entries[p.value].(nested := Some(NestedOf(entries[p.value])[q := x]))]
  }

  lemma OnlyCallIsFound(list: seq<Entry>, q: nat, id: string)
    requires q < |list| && IsCallEntry(list[q], id)
    requires forall j :: 0 <= j < |list| && j != q ==> !IsCallEntry(list[j], id)
    ensures FindToolEntry(list, id) == q
  {
    FindToolEntryIsFirst(list, id);
  }

  /** A completion that looks where the entry of its call is settles exactly that entry. */
  lemma SettlesOnlyCall(r: Refs, e: Event, entries: seq<Entry>, c: Completion, q: nat, x: Entry, id: string)
    requires c.callId == e.data.toolCallId == Some(id) && id != "" && IsCallEntry(x, id)
    requires OnlyCallAt(entries, SearchedPlace(r, e, entries), q, x, id)
    ensures CompleteUnder(entries, Owner(r.subagentStack, e), c) ==
            Replaced(entries, SearchedPlace(r, e, entries), q, Completed(x, c))
  {
    SearchIsCompletion(r, e, entries, c);
    OnlyCallIsFound(SearchedList(r, e, entries), q, id);
  }

  /** The start of a call whose id is new to its owner's list puts its entry at the end of that list. */
  lemma StartPlacesCall(f: Format, s: State, begin: Event, mode: Mode)
    requires StartsCall(begin)
    requires var list := ListAt(s.entries, PlaceOf(s.entries, Owner(s.refs.subagentStack, begin)));
             forall j :: 0 <= j < |list| ==> !IsCallEntry(list[j], begin.data.toolCallId.value)
    ensures var p := PlaceOf(s.entries, Owner(s.refs.subagentStack, begin));
            var id, t := begin.data.toolCallId.value, Step(f, s, begin, mode);
            && OnlyCallAt(t.entries, p, |ListAt(s.entries, p)|, StartEntry(f, s.refs.currentIntent, begin), id)
            && id in t.refs.toolStarts
            && t.refs.toolStarts[id] == ToolStartArgs(begin.data.arguments.GetOr(map[]), false)
  {
    var owner, x := Owner(s.refs.subagentStack, begin), StartEntry(f, s.refs.currentIntent, begin);
    assert Step(f, s, begin, mode).entries == AddTo(s.entries, owner, x);
  }

  /** A call whose id is new to its owner's list is settled in place: whatever happens between its start and its
      completion, as long as nothing starts, completes or picks this call and the completion looks where the start put
      it, the completion changes that one entry and nothing else, to the outcome and result of the completion with the
      arguments of the start. */
  lemma FinishedCallLands(
    f: Format, s: State, begin: Event, between: seq<Event>, end: Event, mode: Mode) returns (x: Entry)
    requires StartsCall(begin) && EndsCall(end, begin.data.toolCallId.value)
    requires var list := ListAt(s.entries, PlaceOf(s.entries, Owner(s.refs.subagentStack, begin)));
             forall j :: 0 <= j < |list| ==> !IsCallEntry(list[j], begin.data.toolCallId.value)
    requires Undisturbed(f, Step(f, s, begin, mode), between, begin.data.toolCallId.value, mode)
    requires var t := Fold(f, Step(f, s, begin, mode), between, mode);
             SearchedPlace(t.refs, end, t.entries) == PlaceOf(s.entries, Owner(s.refs.subagentStack, begin))
    ensures IsFinishedCall(s.refs.currentIntent, begin, end, x)
    ensures var p := PlaceOf(s.entries, Owner(s.refs.subagentStack, begin));
            var q, t := |ListAt(s.entries, p)|, Fold(f, Step(f, s, begin, mode), between, mode);
            && OnlyCallAt(t.entries, p, q, StartEntry(f, s.refs.currentIntent, begin), begin.data.toolCallId.value)
            && Step(f, t, end, mode).entries == Replaced(t.entries, p, q, x)
  {
    var id, started := begin.data.toolCallId.value, StartEntry(f, s.refs.currentIntent, begin);
    var p := PlaceOf(s.entries, Owner(s.refs.subagentStack, begin));
    StartPlacesCall(f, s, begin, mode);
    RunKeepsCall(f, Step(f, s, begin, mode), between, mode, p, |ListAt(s.entries, p)|, started, id,
      ToolStartArgs(begin.data.arguments.GetOr(map[]), false));
    x := FinishedEntry(f, s.refs.currentIntent, begin, end);
    EndSettlesCall(f, Fold(f, Step(f, s, begin, mode), between, mode), begin, end, mode, |ListAt(s.entries, p)|,
      started);
  }

  lemma EndSettlesCall(f: Format, t: State, begin: Event, end: Event, mode: Mode, q: nat, started: Entry)
    requires StartsCall(begin) && EndsCall(end, begin.data.toolCallId.value)
    requires var id := begin.data.toolCallId.value;
             && OnlyCallAt(t.entries, SearchedPlace(t.refs, end, t.entries), q, started, id) && IsCallEntry(started, id)
             && id in t.refs.toolStarts
             && t.refs.toolStarts[id] == ToolStartArgs(begin.data.arguments.GetOr(map[]), false)
    ensures var c := CompletionOf(f, Some(ToolStartArgs(begin.data.arguments.GetOr(map[]), false)), end);
            Step(f, t, end, mode).entries ==
            Replaced(t.entries, SearchedPlace(t.refs, end, t.entries), q, Completed(started, c))
  {
    var original := OriginalArgs(t.refs.toolStarts, end);
    assert original == Some(ToolStartArgs(begin.data.arguments.GetOr(map[]), false)) && Settles(t.refs, end);
    SettlesOnlyCall(t.refs, end, t.entries, CompletionOf(f, original, end), q, started, begin.data.toolCallId.value);
  }
}
