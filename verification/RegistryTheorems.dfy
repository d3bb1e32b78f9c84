/** The daemon registry over every run: it mirrors the emitted lifecycle events, superseded sockets do no harm,
    and silent daemons are dropped within a bound while beating ones never are. */
module RegistryTheorems {
  import opened Optional
  import opened Sequences
  import opened DaemonRegistry

  // ---- single operations ----

  lemma {:induction false} ExpireAllWellFormed(s: State, ids: seq<string>)
    requires WellFormed(s)
    ensures WellFormed(ExpireAll(s, ids))
    decreases |ids|
  {
    if ids != [] {
      ExpireWellFormed(s, ids[0]);
      ExpireAllWellFormed(Expire(s, ids[0]), ids[1..]);
    }
  }

  lemma StepWellFormed(s: State, op: Op)
    requires WellFormed(s)
    ensures WellFormed(Step(s, op))
  {
    match op
    case Register(ws, id, now) => RegisterWellFormed(s, ws, id, now);
    case Heartbeat(id, now) => if id in s.daemons { assert RecordHeartbeat(s, id, now).daemons.Keys == s.daemons.Keys; }
    case Gone(ws, _) =>
      var owner := OwnerOf(s.daemons, s.order, ws);
      if owner.Some? { UnregisterWellFormed(s.(owners := s.owners - {ws}), owner.value); }
    case Check(now) => ExpireAllWellFormed(s, OverdueIds(s.daemons, s.order, now));
  }

  lemma {:induction false} ExpireAllRemoves(s: State, ids: seq<string>, id: string)
    ensures id in ExpireAll(s, ids).daemons <==> id in s.daemons && id !in ids
    ensures id in ExpireAll(s, ids).daemons ==> ExpireAll(s, ids).daemons[id] == s.daemons[id]
    decreases |ids|
  {
    if ids != [] { ExpireAllRemoves(Expire(s, ids[0]), ids[1..], id); }
  }

  /** A check removes exactly the overdue daemons and touches no other. */
  lemma CheckRemovesExactlyOverdue(s: State, now: int, id: string)
    requires WellFormed(s)
    ensures var t := Step(s, Check(now));
            && (id in t.daemons <==> id in s.daemons && !Overdue(s.daemons[id], now))
            && (id in t.daemons ==> t.daemons[id] == s.daemons[id])
            && (id in OverdueIds(s.daemons, s.order, now) <==> id in s.daemons && Overdue(s.daemons[id], now))
  {
    ExpireAllRemoves(s, OverdueIds(s.daemons, s.order, now), id);
    if id in s.daemons { assert id in Elems(s.order); }
  }

  // ---- the registry mirrors the lifecycle events ----

  /** Whether the last lifecycle event of a daemon was `connected`. */
  function LastConnected(events: seq<Lifecycle>, id: string): bool {
    if events == [] then false
    else
      var last := events[|events| - 1];
      if last.id == id then last.DaemonConnected? else LastConnected(events[..|events| - 1], id)
  }

  /** A daemon is reported disconnected only when its last event was `connected`: exactly once per removal. */
  ghost predicate DisconnectsOnce(events: seq<Lifecycle>) {
    forall i :: 0 <= i < |events| && events[i].DaemonDisconnected? ==> LastConnected(events[..i], events[i].id)
  }

  ghost predicate Mirrors(s: State) {
    && WellFormed(s)
    && (forall id :: id in s.daemons <==> LastConnected(s.emitted, id))
    && DisconnectsOnce(s.emitted)
  }

  lemma EventAppended(events: seq<Lifecycle>, e: Lifecycle)
    ensures forall id ::
              LastConnected(events + [e], id) == if e.id == id then e.DaemonConnected? else LastConnected(events, id)
    ensures DisconnectsOnce(events) && (e.DaemonDisconnected? ==> LastConnected(events, e.id)) ==>
            DisconnectsOnce(events + [e])
  {
    var more := events + [e];
    assert more[..|more| - 1] == events;
    if DisconnectsOnce(events) && (e.DaemonDisconnected? ==> LastConnected(events, e.id)) {
      forall i | 0 <= i < |more| && more[i].DaemonDisconnected?
        ensures LastConnected(more[..i], more[i].id)
      {
        assert more[..i] == events[..i];
        if i == |events| { assert events[..i] == events; }
      }
    }
  }

  lemma UnregisterMirrors(s: State, id: string)
    requires Mirrors(s)
    ensures Mirrors(Unregister(s, id))
  {
    UnregisterWellFormed(s, id);
    EventAppended(s.emitted, DaemonDisconnected(id));
  }

  lemma {:induction false} ExpireAllMirrors(s: State, ids: seq<string>)
    requires Mirrors(s)
    ensures Mirrors(ExpireAll(s, ids))
    decreases |ids|
  {
    if ids != [] {
      if ids[0] in s.daemons { UnregisterMirrors(s.(closing := s.closing + [s.daemons[ids[0]].ws]), ids[0]); }
      ExpireAllMirrors(Expire(s, ids[0]), ids[1..]);
    }
  }

  lemma StepMirrors(s: State, op: Op)
    requires Mirrors(s)
    ensures Mirrors(Step(s, op))
  {
    match op
    case Register(ws, id, now) =>
      RegisterWellFormed(s, ws, id, now);
      EventAppended(s.emitted, DaemonConnected(id));
    case Heartbeat(id, now) => if id in s.daemons { assert RecordHeartbeat(s, id, now).daemons.Keys == s.daemons.Keys; }
    case Gone(ws, _) =>
      var owner := OwnerOf(s.daemons, s.order, ws);
      if owner.Some? { UnregisterMirrors(s.(owners := s.owners - {ws}), owner.value); }
    case Check(now) => ExpireAllMirrors(s, OverdueIds(s.daemons, s.order, now));
  }

  /** A daemon is in the registry if and only if its last lifecycle event was `daemon:connected`, and every
      `daemon:disconnected` follows a `daemon:connected` of the same daemon. */
  lemma {:induction false} RegistryMirrorsEvents(ops: seq<Op>)
    ensures Mirrors(Run(INITIAL, ops))
  {
    if ops != [] {
      RegistryMirrorsEvents(ops[..|ops| - 1]);
      StepMirrors(Run(INITIAL, ops[..|ops| - 1]), ops[|ops| - 1]);
    }
  }

  // ---- superseded sockets ----

  /** A socket's end removes no daemon that is registered on another socket. */
  lemma OtherSocketsAreSafe(s: State, ws: int, now: int, id: string)
    requires id in s.daemons && s.daemons[id].ws != ws
    ensures var t := Step(s, Gone(ws, now)); id in t.daemons && t.daemons[id] == s.daemons[id]
  {
  }

  ghost predicate OwnsOne(s: State, ws: int) {
    forall a, b :: a in s.daemons && b in s.daemons && s.daemons[a].ws == ws && s.daemons[b].ws == ws ==> a == b
  }

  ghost predicate Cleared(s: State, ws: int) {
    forall id :: id in s.daemons ==> s.daemons[id].ws != ws
  }

  /** The end of a socket leaves no daemon registered on it exactly when it held at most one registration. */
  lemma GoneClearsExactly(s: State, ws: int, now: int)
    requires WellFormed(s)
    ensures Cleared(Step(s, Gone(ws, now)), ws) <==> OwnsOne(s, ws)
  {
    var owner := OwnerOf(s.daemons, s.order, ws);
    var t := Step(s, Gone(ws, now));
    assert forall id :: id in s.daemons ==> id in Elems(s.order);
    if Cleared(t, ws) {
      forall a, b | a in s.daemons && b in s.daemons && s.daemons[a].ws == ws && s.daemons[b].ws == ws
        ensures a == b
      {
        assert a !in t.daemons && b !in t.daemons;
      }
    }
    if OwnsOne(s, ws) {
      forall id | id in t.daemons
        ensures t.daemons[id].ws != ws
      {
        assert t.daemons[id].ws == ws ==> owner == Some(id);
      }
    }
  }

  const TWO_IDS := map["a" := Tracked(1, 0, 0), "b" := Tracked(1, 0, 0)]

  lemma EndOfTwo(s: State)
    requires s.order == ["a", "b"] && s.daemons == TWO_IDS
    ensures var t := Step(s, Gone(1, 0)); t.daemons == map["b" := Tracked(1, 0, 0)]
  {
    assert OwnerOf(s.daemons, s.order, 1) == Some("a");
    assert TWO_IDS - {"a"} == map["b" := Tracked(1, 0, 0)];
  }

  lemma TwoIdsRun()
    ensures var s := Run(INITIAL, [Register(1, "a", 0), Register(1, "b", 0)]);
            s.order == ["a", "b"] && s.daemons == TWO_IDS
  {
    var a, b := Register(1, "a", 0), Register(1, "b", 0);
    RunSnoc(INITIAL, [], a);
    RunSnoc(INITIAL, [a], b);
    assert [] + [a] == [a] && [a] + [b] == [a, b];
    TwoIdsRegistered();
  }

  /** Two ids registered on one socket: when it ends, one of them stays registered on it. */
  lemma TwoIdsLeaveOne()
    ensures var s := Run(INITIAL, [Register(1, "a", 0), Register(1, "b", 0), Gone(1, 0)]);
            "a" !in s.daemons && "b" in s.daemons && s.daemons["b"].ws == 1 && !Cleared(s, 1)
  {
    var two := [Register(1, "a", 0), Register(1, "b", 0)];
    TwoIdsRun();
    EndOfTwo(Run(INITIAL, two));
    RunSnoc(INITIAL, two, Gone(1, 0));
    assert two + [Gone(1, 0)] == [Register(1, "a", 0), Register(1, "b", 0), Gone(1, 0)];
  }

  lemma RunSnoc(s: State, ops: seq<Op>, op: Op)
    ensures Run(s, ops + [op]) == Step(Run(s, ops), op)
  {
    assert (ops + [op])[..|ops|] == ops;
  }

  lemma TwoIdsRegistered()
    ensures var s := Step(Step(INITIAL, Register(1, "a", 0)), Register(1, "b", 0));
            s.order == ["a", "b"] && s.daemons == TWO_IDS
  {
    var first := DoRegister(INITIAL, 1, "a", 0);
    assert INITIAL.order + ["a"] == ["a"] && first.order == ["a"];
    assert first.daemons == map["a" := Tracked(1, 0, 0)];
    assert ["a"] + ["b"] == ["a", "b"];
  }

  /** Error and close both firing: after the first, the second changes no registration and emits nothing. */
  lemma SecondEndIsHarmless(s: State, ws: int, now: int, later: int)
    requires WellFormed(s) && OwnsOne(s, ws)
    ensures var t := Step(s, Gone(ws, now));
            var u := Step(t, Gone(ws, later));
            u.daemons == t.daemons && u.order == t.order && u.emitted == t.emitted
  {
    GoneClearsExactly(s, ws, now);
    var t := Step(s, Gone(ws, now));
    assert OwnerOf(t.daemons, t.order, ws).None?;
  }

  /** Each socket registers one project id only. */
  ghost predicate OneIdPerSocket(ops: seq<Op>) {
    forall i, j :: 0 <= i < j < |ops| && ops[i].Register? && ops[j].Register? && ops[i].ws == ops[j].ws
      ==> ops[i].id == ops[j].id
  }

  ghost predicate RegisteredIn(ops: seq<Op>, id: string, ws: int) {
    exists i :: 0 <= i < |ops| && ops[i].Register? && ops[i].id == id && ops[i].ws == ws
  }

  /** What is known of one daemon according to the history alone: its last registration and what was heard of it since,
      until the socket of that registration ended or a check found it overdue. */
  function LiveDaemon(ops: seq<Op>, id: string): Option<Tracked> {
    if ops == [] then None
    else
      var before := LiveDaemon(ops[..|ops| - 1], id);
      match ops[|ops| - 1]
      case Register(ws, i, now) => if i == id then Some(Tracked(ws, now, now)) else before
      case Heartbeat(i, now) => if i == id && before.Some? then Some(before.value.(lastHeartbeat := now)) else before
      case Gone(ws, _) => if before.Some? && before.value.ws == ws then None else before
      case Check(now) => if before.Some? && now - before.value.lastHeartbeat > 45_000 then None else before
  }

  ghost predicate FollowsHistory(s: State, ops: seq<Op>) {
    && (forall id :: TrackedIn(s, id) == LiveDaemon(ops, id))
    && (forall id :: id in s.daemons ==> RegisteredIn(ops, id, s.daemons[id].ws))
  }

  lemma RegisteredGrows(ops: seq<Op>, id: string, ws: int)
    requires ops != []
    ensures RegisteredIn(ops[..|ops| - 1], id, ws) ==> RegisteredIn(ops, id, ws)
    ensures var last := ops[|ops| - 1]; last.Register? && last.id == id && last.ws == ws ==> RegisteredIn(ops, id, ws)
  {
    var before := ops[..|ops| - 1];
    if RegisteredIn(before, id, ws) {
      var i :| 0 <= i < |before| && before[i].Register? && before[i].id == id && before[i].ws == ws;
      assert ops[i] == before[i];
    }
  }

  lemma SocketsOwnOne(s: State, ops: seq<Op>, ws: int)
    requires FollowsHistory(s, ops) && OneIdPerSocket(ops)
    ensures OwnsOne(s, ws)
  {
    forall a, b | a in s.daemons && b in s.daemons && s.daemons[a].ws == ws && s.daemons[b].ws == ws
      ensures a == b
    {
      var i :| 0 <= i < |ops| && ops[i].Register? && ops[i].id == a && ops[i].ws == ws;
      var j :| 0 <= j < |ops| && ops[j].Register? && ops[j].id == b && ops[j].ws == ws;
      if i < j { assert ops[i].id == ops[j].id; } else if j < i { assert ops[j].id == ops[i].id; }
    }
  }

  /** When each socket registers one id, the registry holds for every daemon exactly what that daemon's own history
      says: the end of a superseded socket changes nothing, and the end of the current one, or a timeout, removes that
      daemon alone. */
  lemma {:induction false} SupersededSocketsAreHarmless(ops: seq<Op>)
    requires OneIdPerSocket(ops)
    ensures FollowsHistory(Run(INITIAL, ops), ops)
  {
    if ops != [] {
      var before, last := ops[..|ops| - 1], ops[|ops| - 1];
      assert forall i :: 0 <= i < |before| ==> before[i] == ops[i];
      SupersededSocketsAreHarmless(before);
      RegistryMirrorsEvents(before);
      var s, t := Run(INITIAL, before), Run(INITIAL, ops);
      if last.Gone? {
        SocketsOwnOne(s, before, last.ws);
        GoneClearsExactly(s, last.ws, last.now);
      }
      forall id
        ensures TrackedIn(t, id) == LiveDaemon(ops, id)
        ensures id in t.daemons ==> RegisteredIn(ops, id, t.daemons[id].ws)
      {
        HistoryStep(s, ops, id);
      }
    }
  }

  lemma HistoryStep(s: State, ops: seq<Op>, id: string)
    requires ops != [] && WellFormed(s) && FollowsHistory(s, ops[..|ops| - 1])
    requires var last := ops[|ops| - 1]; last.Gone? ==> Cleared(Step(s, last), last.ws)
    ensures var t := Step(s, ops[|ops| - 1]);
            && TrackedIn(t, id) == LiveDaemon(ops, id)
            && (id in t.daemons ==> RegisteredIn(ops, id, t.daemons[id].ws))
  {
    var last := ops[|ops| - 1];
    var t := Step(s, last);
    assert TrackedIn(s, id) == LiveDaemon(ops[..|ops| - 1], id);
    if id in s.daemons { RegisteredGrows(ops, id, s.daemons[id].ws); }
    if last.Register? { RegisteredGrows(ops, last.id, last.ws); }
    if last.Gone? && id in s.daemons && s.daemons[id].ws == last.ws { assert id !in t.daemons; }
    if last.Check? { CheckRemovesExactlyOverdue(s, last.now, id); }
  }

  // ---- heartbeat timing ----

  /** Nothing is heard of the daemon, and its socket does not end, during these operations. */
  ghost predicate Silent(ops: seq<Op>, id: string, ws: int) {
    forall i :: 0 <= i < |ops| ==>
      match ops[i]
      case Register(_, k, _) => k != id
      case Heartbeat(k, _) => k != id
      case Gone(w, _) => w != ws
      case Check(_) => true
  }

  /** Checks run every 45000 ms after the one at `last`, and none that is due by `horizon` is missing. */
  ghost predicate ChecksOnTime(ops: seq<Op>, last: int, horizon: int) {
    if ops == [] then horizon < last + HEARTBEAT_TIMEOUT_MS
    else if ops[0].Check? then ops[0].now == last + HEARTBEAT_TIMEOUT_MS && ChecksOnTime(ops[1..], ops[0].now, horizon)
    else ChecksOnTime(ops[1..], last, horizon)
  }

  /** Operations applied front to back. */
  function RunFrom(s: State, ops: seq<Op>): State
    decreases |ops|
  {
    if ops == [] then s else RunFrom(Step(s, ops[0]), ops[1..])
  }

  lemma SilentStep(s: State, op: Op, id: string, ws: int)
    requires WellFormed(s) && id in s.daemons && s.daemons[id].ws == ws && Silent([op], id, ws)
    ensures WellFormed(Step(s, op))
    ensures var t := Step(s, op);
            && (id in t.daemons <==> !(op.Check? && op.now - s.daemons[id].lastHeartbeat > HEARTBEAT_TIMEOUT_MS))
            && (id in t.daemons ==> t.daemons[id] == s.daemons[id])
  {
    assert Silent([op], id, ws) && [op][0] == op;
    StepWellFormed(s, op);
    if op.Check? { CheckRemovesExactlyOverdue(s, op.now, id); }
  }

  /** The `i`-th operation is the check, at a time in (t + 45000, t + 90000], that removes the daemon. */
  ghost predicate DroppedAt(s: State, ops: seq<Op>, id: string, t: int, i: nat) {
    && i < |ops| && ops[i].Check?
    && t + HEARTBEAT_TIMEOUT_MS < ops[i].now <= t + 2 * HEARTBEAT_TIMEOUT_MS
    && id in RunFrom(s, ops[..i]).daemons && id !in RunFrom(s, ops[..i + 1]).daemons
  }

  lemma RunFromUnfold(s: State, ops: seq<Op>, i: nat)
    requires ops != [] && i <= |ops[1..]|
    ensures RunFrom(s, ops[..i + 1]) == RunFrom(Step(s, ops[0]), ops[1..][..i])
  {
    assert ops[..i + 1][1..] == ops[1..][..i];
  }

  /** A daemon silent since `t` is unregistered, by a check at some time in (t + 45000, t + 90000]. */
  lemma {:induction false} SilentIsDropped(s: State, ops: seq<Op>, id: string, last: int, horizon: int)
    requires WellFormed(s) && id in s.daemons && Silent(ops, id, s.daemons[id].ws)
    requires last <= s.daemons[id].lastHeartbeat + HEARTBEAT_TIMEOUT_MS
    requires horizon >= s.daemons[id].lastHeartbeat + 2 * HEARTBEAT_TIMEOUT_MS
    requires ChecksOnTime(ops, last, horizon)
    ensures exists i: nat :: DroppedAt(s, ops, id, s.daemons[id].lastHeartbeat, i)
    decreases |ops|
  {
    var t, op := s.daemons[id].lastHeartbeat, ops[0];
    assert Silent([op], id, s.daemons[id].ws);
    SilentStep(s, op, id, s.daemons[id].ws);
    RunFromUnfold(s, ops, 0);
    if op.Check? && op.now - t > HEARTBEAT_TIMEOUT_MS {
      assert ops[..0] == [] && ops[1..][..0] == [];
      assert DroppedAt(s, ops, id, t, 0);
    } else {
      var rest := ops[1..];
      assert forall i :: 0 <= i < |rest| ==> rest[i] == ops[i + 1];
      SilentIsDropped(Step(s, op), rest, id, if op.Check? then op.now else last, horizon);
      var i: nat :| DroppedAt(Step(s, op), rest, id, t, i);
      RunFromUnfold(s, ops, i);
      RunFromUnfold(s, ops, i + 1);
      assert DroppedAt(s, ops, id, t, i + 1);
    }
  }

  /** No operation happens more than 45000 ms after the daemon was last heard of, first at `beat` and then by each
      heartbeat or registration of its own. */
  ghost predicate GapsWithinTimeout(ops: seq<Op>, id: string, beat: int) {
    if ops == [] then true
    else
      && ops[0].now - beat <= HEARTBEAT_TIMEOUT_MS
      && GapsWithinTimeout(ops[1..], id,
           if (ops[0].Heartbeat? && ops[0].id == id) || (ops[0].Register? && ops[0].id == id) then ops[0].now else beat)
  }

  /** The daemon's socket does not end: it stays on the one it last registered on. */
  ghost predicate NeverGone(ops: seq<Op>, id: string, ws: int) {
    if ops == [] then true
    else
      && !(ops[0].Gone? && ops[0].ws == ws)
      && NeverGone(ops[1..], id, if ops[0].Register? && ops[0].id == id then ops[0].ws else ws)
  }

  /** A daemon whose heartbeat gaps never exceed 45000 ms is never dropped, whatever the checks. */
  lemma {:induction false} BeatingIsNeverDropped(s: State, ops: seq<Op>, id: string)
    requires WellFormed(s) && id in s.daemons
    requires GapsWithinTimeout(ops, id, s.daemons[id].lastHeartbeat) && NeverGone(ops, id, s.daemons[id].ws)
    ensures id in RunFrom(s, ops).daemons
    decreases |ops|
  {
    if ops != [] {
      StepWellFormed(s, ops[0]);
      if ops[0].Check? { CheckRemovesExactlyOverdue(s, ops[0].now, id); }
      BeatingIsNeverDropped(Step(s, ops[0]), ops[1..], id);
    }
  }

  // ---- heartbeats on a schedule ----

  /** How often a client sends heartbeats (src/shared/constants.ts). */
  const HEARTBEAT_INTERVAL_MS := 15_000

  /** The time of the k-th heartbeat after `base`. */
  function BeatAt(base: int, k: nat): int {
    base + HEARTBEAT_INTERVAL_MS * k
  }

  /** The last heartbeat received is the k-th of a schedule that begins when the daemon is registered. Of three
      heartbeats in a row at least one is received: the next one is at most the third after it, and nothing else happens
      later than that. */
  ghost predicate LosesAtMostTwo(ops: seq<Op>, id: string, base: int, k: nat) {
    if ops == [] then true
    else if ops[0].Register? && ops[0].id == id then
      ops[0].now <= BeatAt(base, k + 3) && LosesAtMostTwo(ops[1..], id, ops[0].now, 0)
    else if ops[0].Heartbeat? && ops[0].id == id then
      exists next: nat ::
        k < next <= k + 3 && ops[0].now == BeatAt(base, next) && LosesAtMostTwo(ops[1..], id, base, next)
    else
      ops[0].now <= BeatAt(base, k + 3) && LosesAtMostTwo(ops[1..], id, base, k)
  }

  lemma {:induction false} TwoLostFitTimeout(ops: seq<Op>, id: string, base: int, k: nat)
    requires LosesAtMostTwo(ops, id, base, k)
    ensures GapsWithinTimeout(ops, id, BeatAt(base, k))
  {
    if ops != [] {
      if ops[0].Register? && ops[0].id == id {
        TwoLostFitTimeout(ops[1..], id, ops[0].now, 0);
      } else if ops[0].Heartbeat? && ops[0].id == id {
        var next: nat :|
          k < next <= k + 3 && ops[0].now == BeatAt(base, next) && LosesAtMostTwo(ops[1..], id, base, next);
        TwoLostFitTimeout(ops[1..], id, base, next);
      } else {
        TwoLostFitTimeout(ops[1..], id, base, k);
      }
    }
  }

  /** A daemon that sends a heartbeat every 15000 ms is never dropped as long as no three in a row are lost. */
  lemma TwoLostBeatsAreTolerated(s: State, ops: seq<Op>, id: string)
    requires WellFormed(s) && id in s.daemons && NeverGone(ops, id, s.daemons[id].ws)
    requires LosesAtMostTwo(ops, id, s.daemons[id].lastHeartbeat, 0)
    ensures id in RunFrom(s, ops).daemons
  {
    TwoLostFitTimeout(ops, id, s.daemons[id].lastHeartbeat, 0);
    BeatingIsNeverDropped(s, ops, id);
  }

  /** Three are too many: a check right after the third lost one drops the daemon. */
  lemma ThreeLostBeatsAreNot(s: State, id: string)
    requires WellFormed(s) && id in s.daemons
    ensures id !in Step(s, Check(BeatAt(s.daemons[id].lastHeartbeat, 3) + 1)).daemons
  {
    CheckRemovesExactlyOverdue(s, BeatAt(s.daemons[id].lastHeartbeat, 3) + 1, id);
  }
}
