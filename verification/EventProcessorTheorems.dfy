/** What the client fold guarantees: replay agrees with live processing, entries only grow,
    and agent containers are the task starts, never nested. */
module EventProcessorTheorems {
  import opened Optional
  import opened SessionEvents
  import opened ToolTags
  import opened EventProcessor
  import opened EventEffects

  // ---- live and batch processing agree ----

  /** Everything but the partial texts that deltas build up. */
  function Core(r: Refs): Refs {
    r.(streaming := None, reasoning := None)
  }

  ghost predicate SameUpToPartials(a: State, b: State) {
    a.entries == b.entries && Core(a.refs) == Core(b.refs)
  }

  lemma CoreDecidesEntries(f: Format, a: Refs, b: Refs, e: Event, entries: seq<Entry>)
    requires Core(a) == Core(b)
    ensures NextEntries(f, a, e, entries) == NextEntries(f, b, e, entries)
  {
    assert a.toolStarts == Core(a).toolStarts && a.subagentNames == Core(a).subagentNames;
    assert a.mainAgentName == Core(a).mainAgentName && a.subagentStack == Core(a).subagentStack;
    assert a.currentIntent == Core(a).currentIntent && a.subagentContent == Core(a).subagentContent;
    assert a.lastUsage == Core(a).lastUsage;
  }

  lemma CoreDecidesCore(f: Format, a: Refs, b: Refs, e: Event, m: Mode, n: Mode)
    requires Core(a) == Core(b)
    ensures Core(NextRefs(f, a, e, m)) == Core(NextRefs(f, b, e, n))
  {
    if e.etype.AssistantMessage? {
      CoreAfterMessage(f, a, e);
      CoreAfterMessage(f, b, e);
    } else if e.etype.ToolStart? {
      CoreAfterToolStart(a, e);
      CoreAfterToolStart(b, e);
    } else if e.etype.MessageDelta? || e.etype.ReasoningDelta? || e.etype.Reasoning? {
      CoreAfterPartials(f, a, e, m);
      CoreAfterPartials(f, b, e, n);
    } else {
      CoreAfterOther(f, a, e, m);
      CoreAfterOther(f, b, e, n);
    }
  }

  lemma CoreAfterPartials(f: Format, r: Refs, e: Event, m: Mode)
    requires e.etype.MessageDelta? || e.etype.ReasoningDelta? || e.etype.Reasoning?
    ensures Core(NextRefs(f, r, e, m)) == Core(r)
  {
  }

  lemma CoreAfterMessage(f: Format, r: Refs, e: Event)
    ensures Core(AfterMessage(f, r, e)) == AfterMessage(f, Core(r), e)
  {
  }

  lemma CoreAfterToolStart(r: Refs, e: Event)
    ensures Core(AfterToolStart(r, e)) == AfterToolStart(Core(r), e)
  {
  }

  lemma CoreAfterOther(f: Format, r: Refs, e: Event, m: Mode)
    requires !e.etype.AssistantMessage? && !e.etype.ToolStart?
    requires !e.etype.MessageDelta? && !e.etype.ReasoningDelta? && !e.etype.Reasoning?
    ensures Core(NextRefs(f, r, e, m)) == NextRefs(f, Core(r), e, Batch)
  {
  }

  /** From equal state, live and batch processing of the same events give the same entries, and the same
      cross-event state except for the partial texts. */
  lemma {:induction false} LiveAndBatchAgree(f: Format, a: State, b: State, events: seq<Event>)
    requires SameUpToPartials(a, b)
    ensures SameUpToPartials(Fold(f, a, events, Live), Fold(f, b, events, Batch))
  {
    if events != [] {
      var before, e := events[..|events| - 1], events[|events| - 1];
      LiveAndBatchAgree(f, a, b, before);
      var x, y := Fold(f, a, before, Live), Fold(f, b, before, Batch);
      CoreDecidesEntries(f, x.refs, y.refs, e, x.entries);
      CoreDecidesCore(f, x.refs, y.refs, e, Live, Batch);
    }
  }

  predicate IsDelta(e: Event) {
    e.etype.MessageDelta? || e.etype.ReasoningDelta?
  }

  function WithoutDeltas(events: seq<Event>): seq<Event> {
    if events == [] then []
    else
      var kept := WithoutDeltas(events[..|events| - 1]);
      if IsDelta(events[|events| - 1]) then kept else kept + [events[|events| - 1]]
  }

  /** Deleting every delta from the stream changes no entry, in either mode. */
  lemma {:induction false} DeltasAddNothing(f: Format, s: State, events: seq<Event>, mode: Mode)
    ensures SameUpToPartials(Fold(f, s, events, mode), Fold(f, s, WithoutDeltas(events), mode))
  {
    if events != [] {
      var before, e := events[..|events| - 1], events[|events| - 1];
      DeltasAddNothing(f, s, before, mode);
      var x, y := Fold(f, s, before, mode), Fold(f, s, WithoutDeltas(before), mode);
      if !IsDelta(e) {
        var kept := WithoutDeltas(before) + [e];
        assert kept[..|kept| - 1] == WithoutDeltas(before);
        CoreDecidesEntries(f, x.refs, y.refs, e, x.entries);
        CoreDecidesCore(f, x.refs, y.refs, e, mode, mode);
      }
    }
  }

  // ---- entries only grow ----

  function Ids(entries: seq<Entry>): (ids: seq<string>)
    ensures |ids| == |entries| && forall i :: 0 <= i < |ids| ==> ids[i] == entries[i].id
  {
    seq(|entries|, i requires 0 <= i < |entries| => entries[i].id)
  }

  function NestedOf(x: Entry): seq<Entry> {
    x.nested.GetOr([])
  }

  /** The same entry later on: identity and kind are kept, and nested entries are only appended. */
  ghost predicate EntryGrows(a: Entry, b: Entry) {
    && a.id == b.id && a.etype == b.etype && a.toolCallId == b.toolCallId
    && (a.tag == Some(Agent) <==> b.tag == Some(Agent))
    && Ids(NestedOf(a)) <= Ids(NestedOf(b))
  }

  ghost predicate EntriesGrow(before: seq<Entry>, after: seq<Entry>) {
    |before| <= |after| && forall i :: 0 <= i < |before| ==> EntryGrows(before[i], after[i])
  }

  lemma ReplacedGrows(entries: seq<Entry>, i: nat, x: Entry)
    requires i < |entries| && EntryGrows(entries[i], x)
    ensures EntriesGrow(entries, entries[i := x])
  {
  }

  lemma AppendGrows(entries: seq<Entry>, x: Entry)
    ensures EntriesGrow(entries, entries + [x]) && Ids(entries) <= Ids(entries + [x])
  {
  }

  lemma AddToGrows(entries: seq<Entry>, owner: Option<string>, x: Entry)
    ensures EntriesGrow(entries, AddTo(entries, owner, x))
  {
    AppendGrows(entries, x);
    if Truthy(owner) && FindContainer(entries, owner.value) < |entries| {
      var i := FindContainer(entries, owner.value);
      AppendGrows(NestedOf(entries[i]), x);
      ReplacedGrows(entries, i, AddTo(entries, owner, x)[i]);
    }
  }

  lemma CompleteInGrows(entries: seq<Entry>, c: Completion)
    requires c.tag != Some(Agent)
    ensures EntriesGrow(entries, CompleteIn(entries, c)) && Ids(entries) <= Ids(CompleteIn(entries, c))
  {
    var i := CompletionTarget(entries, c.callId);
    if i >= 0 {
      ReplacedGrows(entries, i, Completed(entries[i], c));
      assert Ids(entries) == Ids(CompleteIn(entries, c));
    } else {
      AppendGrows(entries, StandaloneCompletion(c));
    }
  }

  lemma CompleteUnderGrows(entries: seq<Entry>, owner: Option<string>, c: Completion)
    requires c.tag != Some(Agent)
    ensures EntriesGrow(entries, CompleteUnder(entries, owner, c))
  {
    CompleteInGrows(entries, c);
    if Truthy(owner) && c.callId != owner && FindContainer(entries, owner.value) < |entries| {
      var i := FindContainer(entries, owner.value);
      CompleteInGrows(NestedOf(entries[i]), c);
      ReplacedGrows(entries, i, CompleteUnder(entries, owner, c)[i]);
    }
  }

  lemma ChangeGrows(entries: seq<Entry>, id: Option<string>, change: ContainerChange)
    ensures EntriesGrow(entries, ChangeContainer(entries, id, change))
  {
    if Truthy(id) && FindContainer(entries, id.value) < |entries| {
      var i := FindContainer(entries, id.value);
      ReplacedGrows(entries, i, Changed(entries[i], change));
    }
  }

  /** Every event keeps the top-level entries, in order, and each container's nested entries, as prefixes. */
  lemma StepGrows(f: Format, r: Refs, e: Event, entries: seq<Entry>)
    ensures EntriesGrow(entries, NextEntries(f, r, e, entries))
  {
    var effect := EffectOf(f, r, e, entries);
    match effect
    case Nothing =>
    case Adds(owner, y) => AddToGrows(entries, owner, y);
    case Alters(callId, change) => ChangeGrows(entries, callId, change);
    case Completes(c) => CompleteUnderGrows(entries, Owner(r.subagentStack, e), c);
  }

  lemma GrowthIsTransitive(a: seq<Entry>, b: seq<Entry>, c: seq<Entry>)
    requires EntriesGrow(a, b) && EntriesGrow(b, c)
    ensures EntriesGrow(a, c)
  {
    forall i | 0 <= i < |a|
      ensures EntryGrows(a[i], c[i])
    {
      assert EntryGrows(a[i], b[i]) && EntryGrows(b[i], c[i]);
    }
  }

  /** Over any run no entry disappears, moves or changes identity. */
  lemma {:induction false} EntriesOnlyGrow(f: Format, s: State, events: seq<Event>, mode: Mode)
    ensures EntriesGrow(s.entries, Fold(f, s, events, mode).entries)
    ensures Ids(s.entries) <= Ids(Fold(f, s, events, mode).entries)
  {
    if events != [] {
      var before := events[..|events| - 1];
      EntriesOnlyGrow(f, s, before, mode);
      var x := Fold(f, s, before, mode);
      StepGrows(f, x.refs, events[|events| - 1], x.entries);
      GrowthIsTransitive(s.entries, x.entries, Fold(f, s, events, mode).entries);
    }
    assert forall i :: 0 <= i < |s.entries| ==> EntryGrows(s.entries[i], Fold(f, s, events, mode).entries[i]);
  }

  // ---- containers are one level deep ----

  ghost predicate IsLeaf(x: Entry) {
    x.nested.None? && x.tag != Some(Agent)
  }

  ghost predicate AllLeaves(entries: seq<Entry>) {
    forall i :: 0 <= i < |entries| ==> IsLeaf(entries[i])
  }

  /** Only agent containers hold nested entries, and those are leaves that are no agents themselves. */
  ghost predicate IsShallow(x: Entry) {
    (x.nested.Some? ==> x.tag == Some(Agent)) && AllLeaves(NestedOf(x))
  }

  ghost predicate OneLevelDeep(entries: seq<Entry>) {
    forall i :: 0 <= i < |entries| ==> IsShallow(entries[i])
  }

  lemma AddToShallow(entries: seq<Entry>, owner: Option<string>, x: Entry)
    requires OneLevelDeep(entries) && x.nested.None? && (Truthy(owner) ==> IsLeaf(x))
    ensures OneLevelDeep(AddTo(entries, owner, x))
  {
    if Truthy(owner) && FindContainer(entries, owner.value) < |entries| {
      var i := FindContainer(entries, owner.value);
      assert IsShallow(entries[i]);
      assert AllLeaves(NestedOf(entries[i]) + [x]);
      assert IsShallow(AddTo(entries, owner, x)[i]);
    } else {
      assert IsShallow(x);
    }
  }

  lemma CompletedLeaf(x: Entry, c: Completion)
    requires c.tag != Some(Agent)
    ensures IsLeaf(x) ==> IsLeaf(Completed(x, c))
    ensures IsShallow(x) ==> IsShallow(Completed(x, c))
  {
  }

  lemma CompleteInShallow(entries: seq<Entry>, c: Completion)
    requires c.tag != Some(Agent)
    ensures AllLeaves(entries) ==> AllLeaves(CompleteIn(entries, c))
    ensures OneLevelDeep(entries) ==> OneLevelDeep(CompleteIn(entries, c))
  {
    var i := CompletionTarget(entries, c.callId);
    if i >= 0 {
      CompletedLeaf(entries[i], c);
      if OneLevelDeep(entries) { assert IsShallow(entries[i]); }
      if AllLeaves(entries) { assert IsLeaf(entries[i]); }
    } else {
      assert IsLeaf(StandaloneCompletion(c)) && IsShallow(StandaloneCompletion(c));
    }
  }

  lemma CompleteUnderShallow(entries: seq<Entry>, owner: Option<string>, c: Completion)
    requires c.tag != Some(Agent) && OneLevelDeep(entries)
    ensures OneLevelDeep(CompleteUnder(entries, owner, c))
  {
    CompleteInShallow(entries, c);
    if Truthy(owner) && c.callId != owner && FindContainer(entries, owner.value) < |entries| {
      var i := FindContainer(entries, owner.value);
      assert IsShallow(entries[i]);
      CompleteInShallow(NestedOf(entries[i]), c);
      assert IsShallow(CompleteUnder(entries, owner, c)[i]);
    }
  }

  lemma ChangeShallow(entries: seq<Entry>, id: Option<string>, change: ContainerChange)
    requires OneLevelDeep(entries)
    ensures OneLevelDeep(ChangeContainer(entries, id, change))
  {
    if Truthy(id) && FindContainer(entries, id.value) < |entries| {
      var i := FindContainer(entries, id.value);
      assert IsShallow(entries[i]);
      assert IsShallow(Changed(entries[i], change));
    }
  }

  lemma StepShallow(f: Format, r: Refs, e: Event, entries: seq<Entry>)
    requires OneLevelDeep(entries)
    ensures OneLevelDeep(NextEntries(f, r, e, entries))
  {
    var effect := EffectOf(f, r, e, entries);
    match effect
    case Nothing =>
    case Adds(owner, y) => AddToShallow(entries, owner, y);
    case Alters(callId, change) => ChangeShallow(entries, callId, change);
    case Completes(c) => CompleteUnderShallow(entries, Owner(r.subagentStack, e), c);
  }

  /** Whatever the stream, nested entries never hold entries of their own and are never agent containers. */
  lemma {:induction false} ContainersAreOneLevelDeep(f: Format, s: State, events: seq<Event>, mode: Mode)
    requires OneLevelDeep(s.entries)
    ensures OneLevelDeep(Fold(f, s, events, mode).entries)
  {
    if events != [] {
      ContainersAreOneLevelDeep(f, s, events[..|events| - 1], mode);
      var x := Fold(f, s, events[..|events| - 1], mode);
      StepShallow(f, x.refs, events[|events| - 1], x.entries);
    }
  }

  // ---- agent containers are the task starts ----

  /** Call ids of the top-level agent containers, in order. */
  function Containers(entries: seq<Entry>): seq<Option<string>> {
    if entries == [] then []
    else
      var last := |entries| - 1;
      Containers(entries[..last]) + (if entries[last].tag == Some(Agent) then [entries[last].toolCallId] else [])
  }

  function TaskStarts(events: seq<Event>): seq<Option<string>> {
    if events == [] then []
    else
      var e := events[|events| - 1];
      TaskStarts(events[..|events| - 1]) +
      (if IsTaskStart(e) then [e.data.toolCallId] else [])
  }

  /** Growth in place keeps the containers. */
  lemma {:induction false} GrowthKeepsContainers(a: seq<Entry>, b: seq<Entry>)
    requires |a| == |b| && EntriesGrow(a, b)
    ensures Containers(a) == Containers(b)
  {
    if a != [] {
      var last := |a| - 1;
      assert EntryGrows(a[last], b[last]);
      assert EntriesGrow(a[..last], b[..last]) by {
        assert forall i :: 0 <= i < last ==> EntryGrows(a[i], b[i]);
      }
      GrowthKeepsContainers(a[..last], b[..last]);
    }
  }

  lemma AppendContainers(entries: seq<Entry>, x: Entry)
    ensures Containers(entries + [x]) == Containers(entries) + if x.tag == Some(Agent) then [x.toolCallId] else []
  {
    assert (entries + [x])[..|entries|] == entries;
  }

  /** The list keeps its length, or one entry that is no agent container is appended. */
  ghost predicate AddsNoContainer(entries: seq<Entry>, next: seq<Entry>) {
    |next| == |entries| ||
    (|next| == |entries| + 1 && next[..|entries|] == entries && next[|entries|].tag != Some(Agent))
  }

  lemma EffectAddsNoContainer(r: Refs, e: Event, entries: seq<Entry>, effect: Effect)
    requires IsEffectOf(r, e, effect) && !IsTaskStart(e)
    ensures AddsNoContainer(entries, Apply(r, e, entries, effect))
  {
  }

  lemma NoContainerAdded(entries: seq<Entry>, next: seq<Entry>)
    requires AddsNoContainer(entries, next) && EntriesGrow(entries, next)
    ensures Containers(next) == Containers(entries)
  {
    if |next| == |entries| {
      GrowthKeepsContainers(entries, next);
    } else {
      AppendContainers(entries, next[|entries|]);
      assert next == entries + [next[|entries|]];
    }
  }

  lemma TaskStartAppends(f: Format, r: Refs, e: Event, entries: seq<Entry>)
    requires IsTaskStart(e)
    ensures NextEntries(f, r, e, entries) == entries + [StartEntry(f, r.currentIntent, e)]
    ensures var x := StartEntry(f, r.currentIntent, e); x.tag == Some(Agent) && x.toolCallId == e.data.toolCallId
  {
  }

  /** At most one top-level entry is added per event; it is a container exactly for a task start. */
  lemma StepContainers(f: Format, r: Refs, e: Event, entries: seq<Entry>)
    ensures Containers(NextEntries(f, r, e, entries)) ==
            Containers(entries) + if IsTaskStart(e) then [e.data.toolCallId] else []
  {
    var effect := EffectOf(f, r, e, entries);
    if IsTaskStart(e) {
      AppendContainers(entries, effect.y);
    } else {
      EffectAddsNoContainer(r, e, entries, effect);
      StepGrows(f, r, e, entries);
      NoContainerAdded(entries, NextEntries(f, r, e, entries));
    }
  }

  /** From an empty list, the agent containers are exactly the task starts of the stream, in order, all at top level. */
  lemma {:induction false} ContainersAreTaskStarts(f: Format, r: Refs, events: seq<Event>, mode: Mode)
    ensures Containers(Fold(f, State(r, []), events, mode).entries) == TaskStarts(events)
  {
    if events != [] {
      ContainersAreTaskStarts(f, r, events[..|events| - 1], mode);
      var x := Fold(f, State(r, []), events[..|events| - 1], mode);
      StepContainers(f, x.refs, events[|events| - 1], x.entries);
    }
  }

  // ---- nested entries land in their owner's container ----

  /** The nested entries of every entry but `i` are untouched. */
  ghost predicate OnlyFills(entries: seq<Entry>, next: seq<Entry>, i: nat) {
    |entries| <= |next| && forall j :: 0 <= j < |entries| && j != i ==> NestedOf(next[j]) == NestedOf(entries[j])
  }

  function OwnerIndex(r: Refs, e: Event, entries: seq<Entry>): nat {
    var owner := Owner(r.subagentStack, e);
    if Truthy(owner) then FindContainer(entries, owner.value) else |entries|
  }

  lemma CompleteUnderFills(entries: seq<Entry>, owner: Option<string>, c: Completion)
    ensures OnlyFills(entries, CompleteUnder(entries, owner, c),
                      if Truthy(owner) then FindContainer(entries, owner.value) else |entries|)
  {
  }

  /** An event changes the nested entries of no container but its owner's: the explicit parent's or,
      without one, that of the innermost running subagent. */
  lemma NestedEntriesGoToTheirOwner(f: Format, r: Refs, e: Event, entries: seq<Entry>)
    ensures OnlyFills(entries, NextEntries(f, r, e, entries), OwnerIndex(r, e, entries))
  {
    var effect := EffectOf(f, r, e, entries);
    if effect.Completes? { CompleteUnderFills(entries, Owner(r.subagentStack, e), effect.c); }
  }

  // ---- which entry a completion resolves ----

  ghost predicate IsCallEntry(x: Entry, id: string) {
    x.toolCallId == Some(id) && x.etype.ToolEntry?
  }

  ghost predicate IsRunningTool(x: Entry) {
    x.etype.ToolEntry? && x.toolStatus == Some(ToolRunning)
  }

  lemma {:induction false} FindToolEntryIsFirst(entries: seq<Entry>, id: string)
    ensures var i := FindToolEntry(entries, id);
            && (i < |entries| ==> IsCallEntry(entries[i], id))
            && (forall j :: 0 <= j < i ==> !IsCallEntry(entries[j], id))
  {
    if entries != [] && !IsCallEntry(entries[0], id) {
      FindToolEntryIsFirst(entries[1..], id);
      forall j | 0 <= j < FindToolEntry(entries, id)
        ensures !IsCallEntry(entries[j], id)
      {
        if j > 0 { assert entries[j] == entries[1..][j - 1]; }
      }
    }
  }

  lemma {:induction false} LastRunningIsLast(entries: seq<Entry>)
    ensures var i := LastRunning(entries);
            && (i >= 0 ==> IsRunningTool(entries[i]))
            && (forall j :: i < j < |entries| ==> !IsRunningTool(entries[j]))
  {
    if entries != [] && !IsRunningTool(entries[|entries| - 1]) {
      LastRunningIsLast(entries[..|entries| - 1]);
      forall j | LastRunning(entries) < j < |entries|
        ensures !IsRunningTool(entries[j])
      {
        if j < |entries| - 1 { assert entries[j] == entries[..|entries| - 1][j]; }
      }
    }
  }

  /** A completion with a known call id resolves the first entry with that id.  It resolves an entry that is not its own
      exactly when its id is on no tool entry while some tool is still running: then the last running one is taken. */
  lemma CompletionResolves(entries: seq<Entry>, c: Completion)
    ensures var known := Truthy(c.callId) && exists j :: 0 <= j < |entries| && IsCallEntry(entries[j], c.callId.value);
            var running := exists j :: 0 <= j < |entries| && IsRunningTool(entries[j]);
            var i := CompletionTarget(entries, c.callId);
            && (known ==> i >= 0 && IsCallEntry(entries[i], c.callId.value))
            && (i >= 0 && !(Truthy(c.callId) && IsCallEntry(entries[i], c.callId.value)) <==> !known && running)
            && (i < 0 <==> !known && !running)
    ensures var i, next := CompletionTarget(entries, c.callId), CompleteIn(entries, c);
            && (i >= 0 ==>
                 |next| == |entries| && next[i].toolStatus == Some(c.status) && next[i].result == Some(c.result))
            && (i < 0 ==> |next| == |entries| + 1 && next[|entries|].toolStatus == Some(c.status))
            && (forall j :: 0 <= j < |entries| && j != i ==> next[j] == entries[j])
  {
    LastRunningIsLast(entries);
    if Truthy(c.callId) { FindToolEntryIsFirst(entries, c.callId.value); }
  }

  /** The lookup a start and its completion share: right after a start under the same owner, whose call id was not yet
      on a tool entry there, the completion resolves the entry just added and no other. */
  lemma StartThenComplete(entries: seq<Entry>, x: Entry, c: Completion)
    requires Truthy(c.callId) && IsCallEntry(x, c.callId.value)
    requires forall j :: 0 <= j < |entries| ==> !IsCallEntry(entries[j], c.callId.value)
    ensures CompleteIn(entries + [x], c) == entries + [Completed(x, c)]
  {
    FindToolEntryIsFirst(entries + [x], c.callId.value);
    var i := FindToolEntry(entries + [x], c.callId.value);
    assert forall j :: 0 <= j < |entries| ==> (entries + [x])[j] == entries[j];
    assert IsCallEntry((entries + [x])[|entries|], c.callId.value);
    assert (entries + [x])[|entries| := Completed(x, c)] == entries + [Completed(x, c)];
  }
}
