/** The server's and the client's folds agree on which subagents are running. */
module SubagentAgreement {
  import opened Optional
  import opened SessionEvents
  import opened EventFields
  import A = Activity
  import T = ActivityTheorems
  import P = EventProcessor

  /** Ids of the server's listed subagents, in order. */
  function ServerIds(subs: seq<A.Subagent>): (ids: seq<string>)
    ensures |ids| == |subs| && forall k :: 0 <= k < |ids| ==> ids[k] == subs[k].id
  {
    if subs == [] then [] else [subs[0].id] + ServerIds(subs[1..])
  }

  predicate IsLifecycle(e: Event) {
    e.etype.SubagentStarted? || A.IsSubagentEnd(e.etype)
  }

  function CountOf(ids: seq<string>, id: string): nat {
    if ids == [] then 0 else (if ids[0] == id then 1 else 0) + CountOf(ids[1..], id)
  }

  function RemoveFirst(ids: seq<string>, id: string): seq<string> {
    if ids == [] then [] else if ids[0] == id then ids[1..] else [ids[0]] + RemoveFirst(ids[1..], id)
  }

  lemma {:induction false} RemovalsDiffer(ids: seq<string>, id: string)
    ensures RemoveFirst(ids, id) == P.NotEqual(ids, id) <==> CountOf(ids, id) <= 1
    ensures |P.NotEqual(ids, id)| == |ids| - CountOf(ids, id)
    ensures CountOf(ids, id) == 0 ==> P.NotEqual(ids, id) == ids
  {
    if ids != [] {
      RemovalsDiffer(ids[1..], id);
      if ids[0] != id {
        var a, b := RemoveFirst(ids[1..], id), P.NotEqual(ids[1..], id);
        assert ([ids[0]] + a)[1..] == a && ([ids[0]] + b)[1..] == b;
      }
    }
  }

  lemma {:induction false} RemovedIds(subs: seq<A.Subagent>, id: string)
    ensures ServerIds(T.RemoveSubagent(subs, id)) == RemoveFirst(ServerIds(subs), id)
  {
    if subs != [] {
      var rest := ServerIds(subs[1..]);
      assert ([subs[0].id] + rest)[1..] == rest;
      if subs[0].id != id {
        RemovedIds(subs[1..], id);
        var left := T.RemoveSubagent(subs[1..], id);
        assert ([subs[0]] + left)[1..] == left;
      }
    }
  }

  /** The server's list after one event. */
  lemma ServerStep(a: A.State, e: Event)
    requires T.AllFresh(a.subagents)
    ensures ServerIds(A.Step(a, e).subagents) ==
            if e.etype.SubagentStarted? then ServerIds(a.subagents) + [OpenedAgent(e)]
            else if A.IsSubagentEnd(e.etype) then RemoveFirst(ServerIds(a.subagents), NamedAgent(e))
            else if e.etype.SessionShutdown? then []
            else ServerIds(a.subagents)
  {
    T.StepOnSubagentEvents(a, e);
    if A.IsSubagentEnd(e.etype) {
      ServerEnds(a, e);
    } else if !e.etype.SubagentStarted? && !e.etype.SessionShutdown? {
      T.OtherEventsKeepSubagents(a, e);
      IdsFollow(a.subagents, A.Step(a, e).subagents);
    }
  }

  lemma ServerEnds(a: A.State, e: Event)
    requires T.AllFresh(a.subagents) && A.IsSubagentEnd(e.etype)
    ensures ServerIds(A.EndSubagent(a, e).subagents) == RemoveFirst(ServerIds(a.subagents), NamedAgent(e))
  {
    T.FreshSubagentsRun(a.subagents);
    T.EndSubagentRemoves(a, e);
    RemovedIds(a.subagents, NamedAgent(e));
  }

  lemma IdsFollow(a: seq<A.Subagent>, b: seq<A.Subagent>)
    requires T.SubagentsOf(a) == T.SubagentsOf(b)
    ensures ServerIds(a) == ServerIds(b)
  {
    forall k | 0 <= k < |a|
      ensures ServerIds(a)[k] == ServerIds(b)[k]
    {
      assert T.SubagentsOf(a)[k].id == T.SubagentsOf(b)[k].id;
    }
  }

  /** The client's stack after one event: events without a call id leave it alone. */
  lemma ClientStep(f: P.Format, r: P.Refs, e: Event, mode: P.Mode)
    ensures P.NextRefs(f, r, e, mode).subagentStack ==
            if !IsLifecycle(e) || !Truthy(e.data.toolCallId) then r.subagentStack
            else if e.etype.SubagentStarted? then r.subagentStack + [e.data.toolCallId.value]
            else P.NotEqual(r.subagentStack, e.data.toolCallId.value)
  {
    if !IsLifecycle(e) { OthersKeepStack(f, r, e, mode); }
  }

  lemma OthersKeepStack(f: P.Format, r: P.Refs, e: Event, mode: P.Mode)
    requires !IsLifecycle(e)
    ensures P.NextRefs(f, r, e, mode).subagentStack == r.subagentStack
  {
  }

  /** The two folds treat the event alike, seen from the ids that are running before it: a start names its call, an end
      names a call listed at most once or, without a call id, names nothing listed, and a shutdown finds nothing
      running. */
  predicate TreatedAlike(stack: seq<string>, e: Event) {
    if e.etype.SubagentStarted? then Truthy(e.data.toolCallId)
    else if A.IsSubagentEnd(e.etype) then
      if Truthy(e.data.toolCallId) then CountOf(stack, e.data.toolCallId.value) <= 1
      else NamedAgent(e) !in stack
    else e.etype.SessionShutdown? ==> stack == []
  }

  lemma {:induction false} RemoveAbsent(ids: seq<string>, id: string)
    ensures RemoveFirst(ids, id) == ids <==> id !in ids
    ensures |RemoveFirst(ids, id)| == if id in ids then |ids| - 1 else |ids|
  {
    if ids != [] && ids[0] != id {
      RemoveAbsent(ids[1..], id);
      assert ids == [ids[0]] + ids[1..];
    }
  }

  /** From agreement, any event leads to agreement if and only if the two folds treat it alike. */
  lemma AgreementIsKeptExactly(f: P.Format, a: A.State, r: P.Refs, e: Event, mode: P.Mode)
    requires T.AllFresh(a.subagents) && ServerIds(a.subagents) == r.subagentStack
    ensures ServerIds(A.Step(a, e).subagents) == P.NextRefs(f, r, e, mode).subagentStack <==>
            TreatedAlike(r.subagentStack, e)
  {
    ServerStep(a, e);
    ClientStep(f, r, e, mode);
    if e.etype.SubagentStarted? {
      assert |r.subagentStack + [OpenedAgent(e)]| != |r.subagentStack|;
    } else if A.IsSubagentEnd(e.etype) {
      RemoveAbsent(r.subagentStack, NamedAgent(e));
      if Truthy(e.data.toolCallId) { RemovalsDiffer(r.subagentStack, e.data.toolCallId.value); }
    }
  }

  // ---- runs that end in disagreement ----

  function Named(etype: EventType, id: string): Event { Event(etype, NO_DATA.(toolCallId := Some(id)), 1, None) }

  /** Server and client after a stream, each from its empty state. */
  ghost predicate AgreeAfter(f: P.Format, h: seq<Event>) {
    ServerIds(A.Fold(h).subagents) == P.Fold(f, P.State(P.EMPTY_REFS, []), h, P.Live).refs.subagentStack
  }

  lemma AgreeSnoc(f: P.Format, h: seq<Event>, e: Event)
    requires AgreeAfter(f, h)
    ensures AgreeAfter(f, h + [e]) <==>
            TreatedAlike(P.Fold(f, P.State(P.EMPTY_REFS, []), h, P.Live).refs.subagentStack, e)
    ensures P.Fold(f, P.State(P.EMPTY_REFS, []), h + [e], P.Live).refs.subagentStack ==
            P.NextRefs(f, P.Fold(f, P.State(P.EMPTY_REFS, []), h, P.Live).refs, e, P.Live).subagentStack
  {
    assert (h + [e])[..|h|] == h;
    T.PhaseIsNeverStale(h);
    AgreementIsKeptExactly(f, A.Fold(h), P.Fold(f, P.State(P.EMPTY_REFS, []), h, P.Live).refs, e, P.Live);
  }

  lemma AfterOneStart(f: P.Format)
    ensures var start := Named(SubagentStarted, "s");
            AgreeAfter(f, [start]) &&
            P.Fold(f, P.State(P.EMPTY_REFS, []), [start], P.Live).refs.subagentStack == ["s"]
  {
    var start := Named(SubagentStarted, "s");
    assert [] + [start] == [start];
    AgreeSnoc(f, [], start);
    ClientStep(f, P.EMPTY_REFS, start, P.Live);
  }

  lemma AfterTwoStarts(f: P.Format)
    ensures var start := Named(SubagentStarted, "s");
            AgreeAfter(f, [start, start]) &&
            P.Fold(f, P.State(P.EMPTY_REFS, []), [start, start], P.Live).refs.subagentStack == ["s", "s"]
  {
    var start := Named(SubagentStarted, "s");
    AfterOneStart(f);
    assert [start] + [start] == [start, start];
    AgreeSnoc(f, [start], start);
    ClientStep(f, P.Fold(f, P.State(P.EMPTY_REFS, []), [start], P.Live).refs, start, P.Live);
  }

  /** One call started twice and ended once: the server still lists it, the client does not. */
  lemma DoubleStartDisagrees(f: P.Format)
    ensures !AgreeAfter(f, [Named(SubagentStarted, "s"), Named(SubagentStarted, "s"), Named(SubagentCompleted, "s")])
  {
    var start, end := Named(SubagentStarted, "s"), Named(SubagentCompleted, "s");
    AfterTwoStarts(f);
    assert CountOf(["s", "s"], "s") == 1 + CountOf(["s", "s"][1..], "s");
    assert [start, start] + [end] == [start, start, end];
    AgreeSnoc(f, [start, start], end);
  }

  /** A shutdown over a running subagent: only the server forgets it. */
  lemma ShutdownDisagrees(f: P.Format)
    ensures !AgreeAfter(f, [Named(SubagentStarted, "s"), Event(SessionShutdown, NO_DATA, 2, None)])
  {
    var start, shutdown := Named(SubagentStarted, "s"), Event(SessionShutdown, NO_DATA, 2, None);
    AfterOneStart(f);
    assert [start] + [shutdown] == [start, shutdown];
    AgreeSnoc(f, [start], shutdown);
  }

  /** A start that names an agent but no call: only the server lists it. */
  lemma UnnamedStartDisagrees(f: P.Format)
    ensures !AgreeAfter(f, [Event(SubagentStarted, NO_DATA.(agentId := Some("a")), 1, None)])
  {
    var unnamed := Event(SubagentStarted, NO_DATA.(agentId := Some("a")), 1, None);
    assert [] + [unnamed] == [unnamed];
    AgreeSnoc(f, [], unnamed);
  }

  /** The two folds give a completed tool the same outcome exactly when the event says whether it succeeded: a missing
      `success` is a success on the server and a failure on the client. */
  lemma OutcomesAgreeExactly(e: Event)
    ensures (A.Succeeded(e) <==> P.Outcome(e.data.success) == P.ToolCompleted) <==> e.data.success.Some?
  {
    match e.data.success
    case None =>
    case Some(success) => assert e.data.success == Some(true) || e.data.success == Some(false);
  }

  lemma MissingSuccessDisagrees()
    ensures var e := Event(ToolComplete, NO_DATA.(toolCallId := Some("t")), 1, None);
            A.Succeeded(e) && P.Outcome(e.data.success) == P.ToolFailed
  {
    var e := Event(ToolComplete, NO_DATA.(toolCallId := Some("t")), 1, None);
    OutcomesAgreeExactly(e);
  }

  // ---- agreement over a whole stream ----

  ghost predicate DistinctStarts(h: seq<Event>) {
    forall i, j :: 0 <= i < j < |h| && h[i].etype.SubagentStarted? && h[j].etype.SubagentStarted?
      ==> h[i].data.toolCallId != h[j].data.toolCallId
  }

  /** Subagent events name their call, as the SDK sends them, and the session is not shut down. */
  ghost predicate AllNamed(h: seq<Event>) {
    forall i :: 0 <= i < |h| ==> (IsLifecycle(h[i]) ==> Truthy(h[i].data.toolCallId)) && !h[i].etype.SessionShutdown?
  }

  ghost predicate StartedIn(h: seq<Event>, id: string) {
    exists i :: 0 <= i < |h| && h[i].etype.SubagentStarted? && h[i].data.toolCallId == Some(id)
  }

  lemma {:induction false} CountAppend(ids: seq<string>, x: string, id: string)
    ensures CountOf(ids + [x], id) == CountOf(ids, id) + if x == id then 1 else 0
  {
    if ids == [] {
      assert [] + [x] == [x];
    } else {
      assert (ids + [x])[1..] == ids[1..] + [x];
      CountAppend(ids[1..], x, id);
    }
  }

  lemma {:induction false} CountAfterRemoval(ids: seq<string>, gone: string, id: string)
    ensures CountOf(P.NotEqual(ids, gone), id) <= CountOf(ids, id)
  {
    if ids != [] {
      CountAfterRemoval(ids[1..], gone, id);
      var rest := P.NotEqual(ids[1..], gone);
      assert ([ids[0]] + rest)[1..] == rest;
    }
  }

  /** What a stream with distinct starts leaves on the client's stack: only started ids, each at most once. */
  lemma {:induction false} StackIsDistinct(f: P.Format, h: seq<Event>, mode: P.Mode, id: string)
    requires DistinctStarts(h) && AllNamed(h)
    ensures CountOf(P.Fold(f, P.State(P.EMPTY_REFS, []), h, mode).refs.subagentStack, id) <=
            if StartedIn(h, id) then 1 else 0
  {
    if h != [] {
      var before, e := h[..|h| - 1], h[|h| - 1];
      assert forall i :: 0 <= i < |before| ==> before[i] == h[i];
      StackIsDistinct(f, before, mode, id);
      var r := P.Fold(f, P.State(P.EMPTY_REFS, []), before, mode).refs;
      ClientStep(f, r, e, mode);
      StartedGrows(h, id);
      if e.etype.SubagentStarted? {
        CountAppend(r.subagentStack, e.data.toolCallId.value, id);
      } else if A.IsSubagentEnd(e.etype) {
        CountAfterRemoval(r.subagentStack, e.data.toolCallId.value, id);
      }
    }
  }

  lemma StartedGrows(h: seq<Event>, id: string)
    requires h != [] && DistinctStarts(h) && AllNamed(h)
    ensures var before, e := h[..|h| - 1], h[|h| - 1];
            && (StartedIn(before, id) ==> StartedIn(h, id))
            && (e.etype.SubagentStarted? && e.data.toolCallId.value == id ==>
                 StartedIn(h, id) && !StartedIn(before, id))
  {
    var before, e := h[..|h| - 1], h[|h| - 1];
    if StartedIn(before, id) {
      var i :| 0 <= i < |before| && before[i].etype.SubagentStarted? && before[i].data.toolCallId == Some(id);
      assert h[i] == before[i];
    }
    assert IsLifecycle(e) ==> Truthy(e.data.toolCallId);
  }

  /** Over one stream with distinct subagent calls and no shutdown, the server's running subagents and the client's
      stack are the same ids in the same order after every event. */
  lemma {:induction false} FoldsAgreeOnSubagents(f: P.Format, h: seq<Event>, mode: P.Mode)
    requires DistinctStarts(h) && AllNamed(h)
    ensures ServerIds(A.Fold(h).subagents) == P.Fold(f, P.State(P.EMPTY_REFS, []), h, mode).refs.subagentStack
  {
    if h != [] {
      var before, e := h[..|h| - 1], h[|h| - 1];
      assert forall i :: 0 <= i < |before| ==> before[i] == h[i];
      FoldsAgreeOnSubagents(f, before, mode);
      T.PhaseIsNeverStale(before);
      assert (IsLifecycle(e) ==> Truthy(e.data.toolCallId)) && !e.etype.SessionShutdown?;
      if A.IsSubagentEnd(e.etype) { StackIsDistinct(f, before, mode, e.data.toolCallId.value); }
      AgreementIsKeptExactly(f, A.Fold(before), P.Fold(f, P.State(P.EMPTY_REFS, []), before, mode).refs, e, mode);
    }
  }
}
