/** HQ's registry of connected daemons and the WebSocket handler that feeds it, from the point where a socket is
    authenticated (src/server/daemon-registry/registry.ts, src/server/daemon-registry/handler.ts). */
module DaemonRegistry {
  import opened Optional
  import opened Sequences

  const HEARTBEAT_TIMEOUT_MS := 45_000

  /** A registered daemon: its socket and when it connected and was last heard of. */
  datatype Tracked = Tracked(ws: int, connectedAt: int, lastHeartbeat: int)

  datatype Lifecycle = DaemonConnected(id: string) | DaemonDisconnected(id: string)

  /** `order` is the insertion order of the registry's map; `emitted` the lifecycle events so far; `closing` the sockets
      the registry asked to close. */
  datatype State = State(
    daemons: map<string, Tracked>, order: seq<string>, owners: map<int, string>,
    emitted: seq<Lifecycle>, closing: seq<int>)

  const INITIAL := State(map[], [], map[], [], [])

  datatype Op =
    | Register(ws: int, id: string, now: int)
    | Heartbeat(id: string, now: int)
    | Gone(ws: int, now: int)
    | Check(now: int)

  function DoRegister(s: State, ws: int, id: string, now: int): State {
    State(s.daemons[id := Tracked(ws, now, now)],
          if id in s.daemons then s.order else s.order + [id],
          s.owners[ws := id],
          s.emitted + [DaemonConnected(id)],
          if id in s.daemons && s.daemons[id].ws != ws then s.closing + [s.daemons[id].ws] else s.closing)
  }

  function Unregister(s: State, id: string): State {
    if id !in s.daemons then s
    else s.(daemons := s.daemons - {id},
            order := Without(s.order, {id}),
            emitted := s.emitted + [DaemonDisconnected(id)])
  }

  function RecordHeartbeat(s: State, id: string, now: int): State {
    if id in s.daemons then s.(daemons := s.daemons[id := s.daemons[id].(lastHeartbeat := now)]) else s
  }

  /** The first registered daemon on this socket, in insertion order. */
  function OwnerOf(daemons: map<string, Tracked>, order: seq<string>, ws: int): (o: Option<string>)
    ensures o.Some? ==> o.value in order && o.value in daemons && daemons[o.value].ws == ws
    ensures o.None? ==> forall id :: id in order && id in daemons ==> daemons[id].ws != ws
  {
    if order == [] then None
    else if order[0] in daemons && daemons[order[0]].ws == ws then Some(order[0])
    else OwnerOf(daemons, order[1..], ws)
  }

  /** A socket's close or error: the first daemon it owns is unregistered. */
  function OnGone(s: State, ws: int): State {
    var t := s.(owners := s.owners - {ws});
    var owner := OwnerOf(s.daemons, s.order, ws);
    if owner.Some? then Unregister(t, owner.value) else t
  }

  predicate Overdue(d: Tracked, now: int) {
    now - d.lastHeartbeat > HEARTBEAT_TIMEOUT_MS
  }

  /** The overdue daemons, in the map's order. */
  function OverdueIds(daemons: map<string, Tracked>, order: seq<string>, now: int): (ids: seq<string>)
    ensures forall id :: id in ids <==> id in order && id in daemons && Overdue(daemons[id], now)
  {
    if order == [] then []
    else if order[0] in daemons && Overdue(daemons[order[0]], now) then
      [order[0]] + OverdueIds(daemons, order[1..], now)
    else OverdueIds(daemons, order[1..], now)
  }

  /** Closes the socket of a daemon and unregisters it. */
  function Expire(s: State, id: string): State {
    if id in s.daemons then Unregister(s.(closing := s.closing + [s.daemons[id].ws]), id) else s
  }

  function ExpireAll(s: State, ids: seq<string>): State
    decreases |ids|
  {
    if ids == [] then s else ExpireAll(Expire(s, ids[0]), ids[1..])
  }

  function CheckAll(s: State, now: int): State {
    ExpireAll(s, OverdueIds(s.daemons, s.order, now))
  }

  function Step(s: State, op: Op): State {
    match op
    case Register(ws, id, now) => DoRegister(s, ws, id, now)
    case Heartbeat(id, now) => RecordHeartbeat(s, id, now)
    case Gone(ws, _) => OnGone(s, ws)
    case Check(now) => CheckAll(s, now)
  }

  function Run(s: State, ops: seq<Op>): State {
    if ops == [] then s else Step(Run(s, ops[..|ops| - 1]), ops[|ops| - 1])
  }

  // ---- what every operation keeps ----

  /** The insertion order lists the registered daemons, each once. */
  ghost predicate WellFormed(s: State) {
    NoDup(s.order) && Elems(s.order) == s.daemons.Keys
  }

  lemma UnregisterWellFormed(s: State, id: string)
    requires WellFormed(s)
    ensures WellFormed(Unregister(s, id))
  {
    WithoutKeepsNoDup(s.order, {id});
    assert Elems(Without(s.order, {id})) == s.daemons.Keys - {id};
  }

  lemma RegisterWellFormed(s: State, ws: int, id: string, now: int)
    requires WellFormed(s)
    ensures WellFormed(DoRegister(s, ws, id, now))
  {
    if id !in s.daemons {
      assert id !in Elems(s.order);
      NoDupAppend(s.order, id);
      assert Elems(s.order + [id]) == Elems(s.order) + {id};
    }
  }

  lemma ExpireWellFormed(s: State, id: string)
    requires WellFormed(s)
    ensures WellFormed(Expire(s, id))
    ensures id in s.daemons ==> Expire(s, id).daemons == s.daemons - {id}
  {
    if id in s.daemons { UnregisterWellFormed(s.(closing := s.closing + [s.daemons[id].ws]), id); }
  }

  lemma {:induction false} ExpireAllSnoc(s: State, ids: seq<string>, id: string)
    ensures ExpireAll(s, ids + [id]) == Expire(ExpireAll(s, ids), id)
    decreases |ids|
  {
    if ids == [] {
      assert [] + [id] == [id] && [id][1..] == [];
    } else {
      assert (ids + [id])[1..] == ids[1..] + [id];
      ExpireAllSnoc(Expire(s, ids[0]), ids[1..], id);
    }
  }

  lemma {:induction false} NoDupAfter<T>(s: seq<T>, i: nat)
    requires NoDup(s) && i < |s|
    ensures forall j :: i < j < |s| ==> s[j] != s[i]
  {
    if i > 0 {
      NoDupAfter(s[1..], i - 1);
      assert forall j :: i < j < |s| ==> s[j] == s[1..][j - 1];
    } else {
      assert forall j :: 0 < j < |s| ==> s[j] in s[1..];
    }
  }

  // ---- the registry object ----

  class Registry {
    var daemons: map<string, Tracked>
    var order: seq<string>
    var emitted: seq<Lifecycle>
    var closing: seq<int>

    constructor ()
      ensures Valid() && daemons == map[] && order == [] && emitted == [] && closing == []
    {
      daemons, order, emitted, closing := map[], [], [], [];
    }

    ghost predicate Valid()
      reads this
    {
      WellFormed(View(map[]))
    }

    /** The registry as part of a state whose socket owners are `owners`. */
    ghost function View(owners: map<int, string>): State
      reads this
    {
      State(daemons, order, owners, emitted, closing)
    }

    method RegisterDaemon(id: string, ws: int, now: int)
      requires Valid()
      modifies this
      ensures Valid()
      ensures forall owners :: View(owners) == DoRegister(old(View(owners)), ws, id, now).(owners := owners)
    {
      RegisterWellFormed(View(map[]), ws, id, now);
      if id in daemons && daemons[id].ws != ws {
        closing := closing + [daemons[id].ws];
      }
      if id !in daemons {
        order := order + [id];
      }
      daemons := daemons[id := Tracked(ws, now, now)];
      emitted := emitted + [DaemonConnected(id)];
    }

    method UnregisterDaemon(id: string) returns (existed: bool)
      requires Valid()
      modifies this
      ensures Valid()
      ensures existed <==> id in old(daemons)
      ensures forall owners :: View(owners) == Unregister(old(View(owners)), id)
    {
      existed := id in daemons;
      UnregisterWellFormed(View(map[]), id);
      if existed {
        daemons := daemons - {id};
        order := Without(order, {id});
        emitted := emitted + [DaemonDisconnected(id)];
      }
    }

    method BeatHeartbeat(id: string, now: int)
      requires Valid()
      modifies this
      ensures Valid()
      ensures forall owners :: View(owners) == RecordHeartbeat(old(View(owners)), id, now)
    {
      if id in daemons {
        daemons := daemons[id := daemons[id].(lastHeartbeat := now)];
        assert daemons.Keys == old(daemons).Keys;
      }
    }

    /** Drops every overdue daemon, in the map's order, and returns their ids. */
    method CheckHeartbeats(now: int) returns (timedOut: seq<string>)
      requires Valid()
      modifies this
      ensures Valid() && timedOut == OverdueIds(old(daemons), old(order), now)
      ensures forall owners :: View(owners) == CheckAll(old(View(owners)), now)
    {
      timedOut := ExpireOverdue(now);
      forall owners
        ensures View(owners) == CheckAll(old(View(owners)), now)
      {
        OwnersAreFramed(old(View(map[])), timedOut, owners);
        assert old(View(map[])).(owners := owners) == old(View(owners));
      }
    }

    /** The scan of the map; a daemon found overdue is closed and unregistered on the spot. */
    method ExpireOverdue(now: int) returns (timedOut: seq<string>)
      requires Valid()
      modifies this
      ensures Valid() && timedOut == OverdueIds(old(daemons), old(order), now)
      ensures View(map[]) == ExpireAll(old(View(map[])), timedOut)
    {
      timedOut := [];
      ghost var before := View(map[]);
      var ids := order;
      ScanStarts(before, now);
      for i := 0 to |ids|
        invariant ScannedTo(before, i, now, timedOut, View(map[]))
      {
        var id := ids[i];
        ScanContinues(before, i, now, timedOut, View(map[]));
        if Overdue(daemons[id], now) {
          timedOut := timedOut + [id];
          CloseAndUnregister(id);
        }
      }
      ScanEnds(before, now, timedOut, View(map[]));
    }

    method CloseAndUnregister(id: string)
      requires Valid() && id in daemons
      modifies this
      ensures Valid() && View(map[]) == Expire(old(View(map[])), id) && daemons == old(daemons) - {id}
    {
      closing := closing + [daemons[id].ws];
      var _ := UnregisterDaemon(id);
    }
  }

  /** The scan has passed the first `i` daemons, found and expired `found`, and left the others as they were. */
  ghost predicate ScannedTo(before: State, i: nat, now: int, found: seq<string>, s: State) {
    && i <= |before.order| && WellFormed(s) && s == ExpireAll(before, found)
    && found + OverdueIds(before.daemons, before.order[i..], now) == OverdueIds(before.daemons, before.order, now)
    && (forall j :: i <= j < |before.order| ==> TrackedIn(s, before.order[j]) == TrackedIn(before, before.order[j]))
  }

  function TrackedIn(s: State, id: string): Option<Tracked> {
    if id in s.daemons then Some(s.daemons[id]) else None
  }

  lemma ScanStarts(before: State, now: int)
    requires WellFormed(before)
    ensures ScannedTo(before, 0, now, [], before)
  {
    assert before.order[0..] == before.order;
    assert [] + OverdueIds(before.daemons, before.order, now) == OverdueIds(before.daemons, before.order, now);
  }

  lemma ScanContinues(before: State, i: nat, now: int, found: seq<string>, s: State)
    requires WellFormed(before) && i < |before.order| && ScannedTo(before, i, now, found, s)
    ensures before.order[i] in s.daemons
    ensures var id := before.order[i];
            if Overdue(s.daemons[id], now) then ScannedTo(before, i + 1, now, found + [id], Expire(s, id))
            else ScannedTo(before, i + 1, now, found, s)
  {
    var id := before.order[i];
    assert id in Elems(before.order);
    assert TrackedIn(s, id) == TrackedIn(before, id);
    NoDupAfter(before.order, i);
    OverdueNext(before.daemons, before.order, i, now, found);
    ExpireAllSnoc(before, found, id);
    ExpireWellFormed(s, id);
  }

  lemma ScanEnds(before: State, now: int, found: seq<string>, s: State)
    requires ScannedTo(before, |before.order|, now, found, s)
    ensures WellFormed(s) && found == OverdueIds(before.daemons, before.order, now) && s == ExpireAll(before, found)
  {
    assert found + [] == found;
  }

  lemma OverdueNext(daemons: map<string, Tracked>, order: seq<string>, i: nat, now: int, found: seq<string>)
    requires i < |order| && order[i] in daemons
    ensures found + OverdueIds(daemons, order[i..], now) ==
            (if Overdue(daemons[order[i]], now) then found + [order[i]] else found) +
            OverdueIds(daemons, order[i + 1..], now)
  {
    assert order[i..][1..] == order[i + 1..];
  }

  /** Expiring daemons neither reads nor changes the socket owners. */
  lemma {:induction false} OwnersAreFramed(s: State, ids: seq<string>, owners: map<int, string>)
    ensures ExpireAll(s.(owners := owners), ids) == ExpireAll(s, ids).(owners := owners)
    decreases |ids|
  {
    if ids != [] {
      OwnersAreFramed(Expire(s, ids[0]), ids[1..], owners);
      assert Expire(s.(owners := owners), ids[0]) == Expire(s, ids[0]).(owners := owners);
    }
  }

  class DaemonWsHandler {
    var wsToDaemonId: map<int, string>
    const registry: Registry

    ghost function View(): State
      reads this, registry
    {
      registry.View(wsToDaemonId)
    }

    constructor (registry: Registry)
      ensures this.registry == registry && wsToDaemonId == map[]
    {
      this.registry := registry;
      wsToDaemonId := map[];
    }

    method DispatchRegister(ws: int, projectId: string, now: int)
      requires registry.Valid()
      modifies this, registry
      ensures registry.Valid()
      ensures View() == Step(old(View()), Op.Register(ws, projectId, now))
    {
      wsToDaemonId := wsToDaemonId[ws := projectId];
      registry.RegisterDaemon(projectId, ws, now);
      assert View() == DoRegister(old(registry.View(wsToDaemonId[ws := projectId])), ws, projectId, now);
    }

    method DispatchHeartbeat(projectId: string, now: int)
      requires registry.Valid()
      modifies registry
      ensures registry.Valid()
      ensures View() == Step(old(View()), Op.Heartbeat(projectId, now))
    {
      registry.BeatHeartbeat(projectId, now);
    }

    /** Close or error of a socket, after authentication. */
    method HandleDisconnect(ws: int, now: int)
      requires registry.Valid()
      modifies this, registry
      ensures registry.Valid()
      ensures View() == Step(old(View()), Op.Gone(ws, now))
    {
      wsToDaemonId := wsToDaemonId - {ws};
      var owner := FindOwner(ws);
      if owner.Some? {
        var _ := registry.UnregisterDaemon(owner.value);
      }
    }

    method FindOwner(ws: int) returns (owner: Option<string>)
      ensures owner == OwnerOf(registry.daemons, registry.order, ws)
    {
      var order := registry.order;
      for i := 0 to |order|
        invariant OwnerOf(registry.daemons, order, ws) == OwnerOf(registry.daemons, order[i..], ws)
      {
        assert order[i..][1..] == order[i + 1..];
        if order[i] in registry.daemons && registry.daemons[order[i]].ws == ws {
          return Some(order[i]);
        }
      }
      return None;
    }
  }
}
