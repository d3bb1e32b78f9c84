/** The tools listed under a subagent against the history of events (src/server/copilot-aggregator/aggregator.ts). */
module SubagentTools {
  import opened Optional
  import opened SessionEvents
  import opened EventFields
  import opened Activity
  import opened ActivityTheorems

  /** What a tool start attributed to subagent `x` opens. */
  ghost function StartsUnder(x: string): Event -> Option<Started> {
    (e: Event) =>
      if e.etype.ToolStart? && IsUnder(e, x) then Some(Started(OpenedCall(e), OpenedTool(e), e.ts)) else None
  }

  /** What a tool completion attributed to subagent `x` closes. */
  ghost function EndsUnder(x: string): (Event, Started) -> bool {
    (e: Event, s: Started) => e.etype.ToolComplete? && IsUnder(e, x) && NamedCall(e) == s.id
  }

  predicate StartsAgent(e: Event, x: string) {
    e.etype.SubagentStarted? && OpenedAgent(e) == x
  }

  /** The events since subagent `x` was last started. */
  function Since(h: seq<Event>, x: string): seq<Event> {
    if h == [] then []
    else if StartsAgent(h[|h| - 1], x) then []
    else Since(h[..|h| - 1], x) + [h[|h| - 1]]
  }

  /** The tools started under `x` since it started and not completed under it since, in start order. */
  ghost function OpenUnder(h: seq<Event>, x: string): seq<Started> {
    Open(Since(h, x), StartsUnder(x), EndsUnder(x))
  }

  ghost predicate DistinctUnder(h: seq<Event>, x: string) {
    forall i, j :: 0 <= i < j < |h| && StartsUnder(x)(h[i]).Some? && StartsUnder(x)(h[j]).Some?
      ==> OpenedCall(h[i]) != OpenedCall(h[j])
  }

  ghost predicate Refines(sub: Subagent, h: seq<Event>) {
    StartedOf(sub.tools) == OpenUnder(h, sub.id)
  }

  ghost predicate AllRefine(subs: seq<Subagent>, h: seq<Event>) {
    forall k :: 0 <= k < |subs| ==> Refines(subs[k], h)
  }

  // ---- the history, one event later ----

  lemma OpenUnderSnoc(h: seq<Event>, e: Event, x: string)
    ensures OpenUnder(h + [e], x) ==
            if StartsAgent(e, x) then []
            else Surviving(OpenUnder(h, x), e, EndsUnder(x)) + OptionSeq(StartsUnder(x)(e))
  {
    assert (h + [e])[..|h|] == h;
    if !StartsAgent(e, x) { OpenSnoc(Since(h, x), e, StartsUnder(x), EndsUnder(x)); }
  }

  /** Neither a tool event of `x` nor its start. */
  predicate IsNeutral(e: Event, x: string) {
    !StartsAgent(e, x) && !(IsUnder(e, x) && (e.etype.ToolStart? || e.etype.ToolComplete?))
  }

  lemma NeutralKeepsOpen(h: seq<Event>, e: Event, x: string)
    requires IsNeutral(e, x)
    ensures OpenUnder(h + [e], x) == OpenUnder(h, x)
  {
    OpenUnderSnoc(h, e, x);
    SurvivingAll(OpenUnder(h, x), e, EndsUnder(x));
    PlusNone(OpenUnder(h, x));
  }

  lemma StartAddsOpen(h: seq<Event>, e: Event, x: string)
    requires e.etype.ToolStart? && IsUnder(e, x)
    ensures OpenUnder(h + [e], x) == OpenUnder(h, x) + [Started(OpenedCall(e), OpenedTool(e), e.ts)]
  {
    OpenUnderSnoc(h, e, x);
    SurvivingAll(OpenUnder(h, x), e, EndsUnder(x));
  }

  lemma EndClosesOpen(h: seq<Event>, e: Event, x: string)
    requires e.etype.ToolComplete? && IsUnder(e, x)
    ensures OpenUnder(h + [e], x) == Surviving(OpenUnder(h, x), e, EndsUnder(x))
  {
    OpenUnderSnoc(h, e, x);
    PlusNone(Surviving(OpenUnder(h, x), e, EndsUnder(x)));
  }

  lemma {:induction false} SinceIsSuffix(h: seq<Event>, x: string)
    ensures |Since(h, x)| <= |h| && Since(h, x) == h[|h| - |Since(h, x)|..]
  {
    if h != [] && !StartsAgent(h[|h| - 1], x) {
      SinceIsSuffix(h[..|h| - 1], x);
    }
  }

  lemma SuffixIsDistinct(h: seq<Event>, from: nat, x: string)
    requires from <= |h| && DistinctUnder(h, x)
    ensures DistinctUnder(h[from..], x)
  {
    var rest := h[from..];
    forall i, j | 0 <= i < j < |rest| && StartsUnder(x)(rest[i]).Some? && StartsUnder(x)(rest[j]).Some?
      ensures OpenedCall(rest[i]) != OpenedCall(rest[j])
    {
      assert rest[i] == h[from + i] && rest[j] == h[from + j];
    }
  }

  lemma {:induction false} OpenIsDistinct(h: seq<Event>, x: string)
    requires DistinctUnder(h, x)
    ensures DistinctIds(Open(h, StartsUnder(x), EndsUnder(x)))
  {
    if h != [] {
      var rest := h[1..];
      var later := Open(rest, StartsUnder(x), EndsUnder(x));
      SuffixIsDistinct(h, 1, x);
      OpenIsDistinct(rest, x);
      if StartsUnder(x)(h[0]).Some? {
        forall k | 0 <= k < |later|
          ensures later[k].id != OpenedCall(h[0])
        {
          var i := OpenWasOpened(rest, StartsUnder(x), EndsUnder(x), k);
          assert rest[i] == h[i + 1];
        }
      }
    }
  }

  lemma OpenUnderIsDistinct(h: seq<Event>, x: string)
    requires DistinctUnder(h, x)
    ensures DistinctIds(OpenUnder(h, x))
  {
    SinceIsSuffix(h, x);
    SuffixIsDistinct(h, |h| - |Since(h, x)|, x);
    OpenIsDistinct(Since(h, x), x);
  }

  // ---- one subagent after one event ----

  /** The tool list of the subagent an event is attributed to. */
  function ToolsAfter(tools: seq<ToolCall>, e: Event): seq<ToolCall> {
    if e.etype.ToolStart? then tools + [NewTool(e)] else CompleteTool(tools, NamedCall(e))
  }

  lemma AttributedRefines(sub: Subagent, h: seq<Event>, e: Event)
    requires Refines(sub, h) && DistinctUnder(h, sub.id) && AllRunning(sub.tools)
    requires IsUnder(e, sub.id) && (e.etype.ToolStart? || e.etype.ToolComplete?)
    ensures StartedOf(ToolsAfter(sub.tools, e)) == OpenUnder(h + [e], sub.id)
  {
    if e.etype.ToolStart? {
      StartAddsOpen(h, e, sub.id);
      StartedOfAppend(sub.tools, NewTool(e));
    } else {
      EndClosesOpen(h, e, sub.id);
      OpenUnderIsDistinct(h, sub.id);
      assert ClosesById(EndsUnder(sub.id), e);
      CompleteToolSurvivors(sub.tools, e, EndsUnder(sub.id));
    }
  }

  lemma NeutralRefines(sub: Subagent, next: Subagent, h: seq<Event>, e: Event)
    requires Refines(sub, h) && IsNeutral(e, sub.id) && next.id == sub.id &&
             StartedOf(next.tools) == StartedOf(sub.tools)
    ensures Refines(next, h + [e])
  {
    NeutralKeepsOpen(h, e, sub.id);
  }

  // ---- all subagents after one event ----

  ghost predicate AllNeutral(subs: seq<Subagent>, e: Event) {
    forall k :: 0 <= k < |subs| ==> IsNeutral(e, subs[k].id)
  }

  lemma AllNeutralRefine(subs: seq<Subagent>, h: seq<Event>, e: Event)
    requires AllRefine(subs, h) && AllNeutral(subs, e)
    ensures AllRefine(subs, h + [e])
  {
    forall k | 0 <= k < |subs|
      ensures Refines(subs[k], h + [e])
    {
      NeutralRefines(subs[k], subs[k], h, e);
    }
  }

  ghost predicate DistinctSubs(subs: seq<Subagent>) {
    forall i, j :: 0 <= i < j < |subs| ==> subs[i].id != subs[j].id
  }

  lemma DistinctFromHistory(subs: seq<Subagent>)
    requires DistinctIds(SubagentsOf(subs))
    ensures DistinctSubs(subs)
  {
    forall i, j | 0 <= i < j < |subs|
      ensures subs[i].id != subs[j].id
    {
      assert SubagentsOf(subs)[i].id != SubagentsOf(subs)[j].id;
    }
  }

  /** One subagent is replaced, for an event that is neutral for the others. */
  lemma OneReplacedRefines(subs: seq<Subagent>, i: nat, next: Subagent, h: seq<Event>, e: Event)
    requires AllRefine(subs, h) && i < |subs| && Refines(next, h + [e])
    requires forall k :: 0 <= k < |subs| && k != i ==> IsNeutral(e, subs[k].id)
    ensures AllRefine(subs[i := next], h + [e])
  {
    var after := subs[i := next];
    forall k | 0 <= k < |after|
      ensures Refines(after[k], h + [e])
    {
      if k != i { NeutralRefines(subs[k], subs[k], h, e); }
    }
  }

  lemma NotUnderOthers(subs: seq<Subagent>, e: Event, i: nat)
    requires DistinctSubs(subs) && i < |subs| && IsUnder(e, subs[i].id) && !e.etype.SubagentStarted?
    ensures forall k :: 0 <= k < |subs| && k != i ==> IsNeutral(e, subs[k].id)
  {
  }

  lemma ToolEventRefines(a: State, h: seq<Event>, e: Event)
    requires AllRefine(a.subagents, h) && AllFresh(a.subagents) && DistinctSubs(a.subagents)
    requires e.etype.ToolStart? || e.etype.ToolComplete?
    requires forall x :: DistinctUnder(h, x)
    ensures AllRefine(Step(a, e).subagents, h + [e])
  {
    if Truthy(e.data.agentId) && FindSubagent(a.subagents, e.data.agentId.value) < |a.subagents| {
      var i := FindSubagent(a.subagents, e.data.agentId.value);
      var sub := a.subagents[i];
      assert SubagentFresh(sub) && Refines(sub, h);
      AttributedRefines(sub, h, e);
      NotUnderOthers(a.subagents, e, i);
      ReplacedByTools(a, e, i);
      OneReplacedRefines(a.subagents, i, Step(a, e).subagents[i], h, e);
    } else {
      UnlistedToolEvent(a, e);
      AllNeutralRefine(a.subagents, h, e);
    }
  }

  lemma ReplacedByTools(a: State, e: Event, i: nat)
    requires e.etype.ToolStart? || e.etype.ToolComplete?
    requires Truthy(e.data.agentId) && i == FindSubagent(a.subagents, e.data.agentId.value) < |a.subagents|
    ensures |Step(a, e).subagents| == |a.subagents|
    ensures Step(a, e).subagents == a.subagents[i := Step(a, e).subagents[i]]
    ensures var next := Step(a, e).subagents[i];
            next.id == a.subagents[i].id && next.tools == ToolsAfter(a.subagents[i].tools, e)
  {
  }

  lemma UnlistedToolEvent(a: State, e: Event)
    requires e.etype.ToolStart? || e.etype.ToolComplete?
    requires Truthy(e.data.agentId) ==> FindSubagent(a.subagents, e.data.agentId.value) == |a.subagents|
    ensures Step(a, e).subagents == a.subagents && AllNeutral(a.subagents, e)
  {
  }

  lemma StartedSubagentRefines(subs: seq<Subagent>, h: seq<Event>, e: Event)
    requires AllRefine(subs, h) && e.etype.SubagentStarted?
    requires forall k :: 0 <= k < |subs| ==> subs[k].id != OpenedAgent(e)
    ensures AllRefine(subs + [NewSubagent(e)], h + [e])
  {
    AllNeutralRefine(subs, h, e);
    OpenUnderSnoc(h, e, OpenedAgent(e));
    assert Refines(NewSubagent(e), h + [e]);
  }

  lemma {:induction false} RemovalRefines(subs: seq<Subagent>, id: string, h: seq<Event>)
    requires AllRefine(subs, h)
    ensures AllRefine(RemoveSubagent(subs, id), h)
  {
    if subs != [] && subs[0].id != id {
      assert Refines(subs[0], h);
      RemovalRefines(subs[1..], id, h);
    }
  }

  lemma EndedSubagentRefines(a: State, h: seq<Event>, e: Event)
    requires AllRefine(a.subagents, h) && AllFresh(a.subagents) && IsSubagentEnd(e.etype)
    ensures AllRefine(Step(a, e).subagents, h + [e])
  {
    AllNeutralRefine(a.subagents, h, e);
    FreshSubagentsRun(a.subagents);
    StepOnSubagentEvents(a, e);
    EndSubagentRemoves(a, e);
    RemovalRefines(a.subagents, NamedAgent(e), h + [e]);
  }

  /** Progress and deltas leave every list of started tools alone. */
  ghost predicate SameTools(subs: seq<Subagent>, next: seq<Subagent>) {
    |next| == |subs| && forall k :: 0 <= k < |subs| ==>
      next[k].id == subs[k].id && StartedOf(next[k].tools) == StartedOf(subs[k].tools)
  }

  lemma QuietEventKeepsTools(a: State, e: Event)
    requires e.etype.ToolProgress? || e.etype.MessageDelta? || e.etype.StreamingDelta?
    ensures SameTools(a.subagents, Step(a, e).subagents)
  {
    if e.etype.ToolProgress? && Truthy(e.data.agentId) {
      var i := FindSubagent(a.subagents, e.data.agentId.value);
      if i < |a.subagents| {
        var progress := e.data.progressMessage.Or(e.data.progress).GetOr("");
        ProgressKeepsStarted(a.subagents[i].tools, NamedCall(e), progress);
      }
    }
  }

  lemma ProgressKeepsStarted(tools: seq<ToolCall>, id: string, progress: string)
    ensures StartedOf(SetProgress(tools, id, progress)) == StartedOf(tools)
  {
  }

  lemma QuietEventRefines(subs: seq<Subagent>, next: seq<Subagent>, h: seq<Event>, e: Event)
    requires AllRefine(subs, h) && AllNeutral(subs, e) && SameTools(subs, next)
    ensures AllRefine(next, h + [e])
  {
    forall k | 0 <= k < |next|
      ensures Refines(next[k], h + [e])
    {
      NeutralRefines(subs[k], next[k], h, e);
    }
  }

  lemma StepRefines(a: State, h: seq<Event>, e: Event)
    requires AllRefine(a.subagents, h) && AllFresh(a.subagents) && DistinctSubs(a.subagents)
    requires forall x :: DistinctUnder(h, x)
    requires e.etype.SubagentStarted? ==> forall k :: 0 <= k < |a.subagents| ==>
             a.subagents[k].id != OpenedAgent(e)
    ensures AllRefine(Step(a, e).subagents, h + [e])
  {
    if e.etype.ToolStart? || e.etype.ToolComplete? {
      ToolEventRefines(a, h, e);
    } else if e.etype.SubagentStarted? {
      StepOnSubagentEvents(a, e);
      StartedSubagentRefines(a.subagents, h, e);
    } else if IsSubagentEnd(e.etype) {
      EndedSubagentRefines(a, h, e);
    } else if e.etype.SessionShutdown? {
      StepOnSubagentEvents(a, e);
    } else if e.etype.ToolProgress? || e.etype.MessageDelta? || e.etype.StreamingDelta? {
      QuietEventKeepsTools(a, e);
      QuietEventRefines(a.subagents, Step(a, e).subagents, h, e);
    } else {
      PlainEventsKeepSubagents(a, e);
      AllNeutralRefine(a.subagents, h, e);
    }
  }

  /** A subagent that is started is not listed yet, when starts are distinct. */
  lemma StartIsNew(h: seq<Event>, e: Event)
    requires DistinctSubagents(h + [e]) && e.etype.SubagentStarted? && DistinctSubagents(h)
    ensures var subs := Fold(h).subagents; forall k :: 0 <= k < |subs| ==> subs[k].id != OpenedAgent(e)
  {
    SubagentsRefineHistory(h);
    var subs, all := Fold(h).subagents, h + [e];
    forall k | 0 <= k < |subs|
      ensures subs[k].id != OpenedAgent(e)
    {
      var i := OpenWasOpened(h, SubagentStart, SubagentClosed, k);
      assert all[i] == h[i] && all[|h|] == e;
      assert SubagentsOf(subs)[k].id == subs[k].id;
    }
  }

  /** With distinct subagents, and distinct tools under each, the tools listed under a subagent are exactly those
      started under it since it started and not completed under it since, in start order. */
  lemma {:induction false} SubagentToolsRefineHistory(h: seq<Event>)
    requires DistinctSubagents(h) && forall x :: DistinctUnder(h, x)
    ensures AllRefine(Fold(h).subagents, h)
  {
    if h != [] {
      var before, e := h[..|h| - 1], h[|h| - 1];
      assert h == before + [e];
      assert forall i :: 0 <= i < |before| ==> before[i] == h[i];
      forall x
        ensures DistinctUnder(before, x)
      {
        assert DistinctUnder(h, x);
      }
      SubagentToolsRefineHistory(before);
      PhaseIsNeverStale(before);
      SubagentsRefineHistory(before);
      OpenSubagentsDistinct(before);
      DistinctFromHistory(Fold(before).subagents);
      if e.etype.SubagentStarted? { StartIsNew(before, e); }
      StepRefines(Fold(before), before, e);
    }
  }
}
