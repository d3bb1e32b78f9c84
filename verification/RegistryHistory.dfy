/** The daemon registry told by the operations alone: what is announced, which sockets are closed, and which id each
    socket last registered. */
module RegistryHistory {
  import opened Optional
  import opened Sequences
  import opened DaemonRegistry
  import opened RegistryTheorems

  // ---- what one operation announces and closes ----

  /** Nothing was heard of the daemon for more than 45 seconds. */
  predicate IsSilent(s: State, id: string, now: int) {
    id in s.daemons && now - s.daemons[id].lastHeartbeat > 45_000
  }

  predicate IsOn(s: State, id: string, ws: int) {
    id in s.daemons && s.daemons[id].ws == ws
  }

  /** One socket for each of the daemons. */
  ghost predicate AreSocketsOf(s: State, ids: seq<string>, sockets: seq<int>) {
    |sockets| == |ids| && forall i :: 0 <= i < |ids| ==> IsOn(s, ids[i], sockets[i])
  }

  ghost predicate AreDisconnects(ids: seq<string>, events: seq<Lifecycle>) {
    |events| == |ids| && forall i :: 0 <= i < |ids| ==> events[i] == DaemonDisconnected(ids[i])
  }

  /** These daemons are taken out, their sockets closed and their disconnection announced, in this order. */
  ghost predicate Expires(s: State, t: State, ids: seq<string>) {
    && s.closing <= t.closing && AreSocketsOf(s, ids, t.closing[|s.closing|..])
    && s.emitted <= t.emitted && AreDisconnects(ids, t.emitted[|s.emitted|..])
    && t.owners == s.owners
  }

  /** The daemon taken out by the end of a socket: the first one registered on it. */
  ghost predicate IsFirstOn(s: State, ws: int, i: nat) {
    i < |s.order| && IsOn(s, s.order[i], ws) && forall j :: 0 <= j < i ==> !IsOn(s, s.order[j], ws)
  }

  /** A registration is announced and closes the socket it supersedes, if any; the end of a socket is announced for the
      first daemon registered on it; a check closes and announces the silent daemons in the order of the map; a
      heartbeat does neither. */
  ghost predicate Announces(s: State, t: State, op: Op) {
    match op
    case Register(ws, id, _) =>
      && t.emitted == s.emitted + [DaemonConnected(id)]
      && t.closing == s.closing + if id in s.daemons && s.daemons[id].ws != ws then [s.daemons[id].ws] else []
    case Heartbeat(_, _) => t.emitted == s.emitted && t.closing == s.closing
    case Gone(ws, _) =>
      && t.closing == s.closing
      && if (exists id :: IsOn(s, id, ws)) then
           exists i: nat :: IsFirstOn(s, ws, i) && t.emitted == s.emitted + [DaemonDisconnected(s.order[i])]
         else t.emitted == s.emitted
    case Check(now) => Expires(s, t, Silent(s, now))
  }

  /** The silent daemons in the order of the map. */
  ghost function Silent(s: State, now: int): seq<string> {
    Without(s.order, set id | id in s.order && !IsSilent(s, id, now))
  }

  lemma {:induction false} OverdueIsWithout(s: State, order: seq<string>, now: int, loud: set<string>)
    requires forall id :: id in order ==> (id in loud <==> !IsSilent(s, id, now))
    ensures OverdueIds(s.daemons, order, now) == Without(order, loud)
  {
    if order != [] {
      assert forall id :: id in order[1..] ==> id in order;
      OverdueIsWithout(s, order[1..], now, loud);
    }
  }

  lemma ExpireAnnounces(s: State, id: string)
    requires id in s.daemons
    ensures Expire(s, id).closing == s.closing + [s.daemons[id].ws]
    ensures Expire(s, id).emitted == s.emitted + [DaemonDisconnected(id)]
    ensures Expire(s, id).owners == s.owners && Expire(s, id).daemons == s.daemons - {id}
  {
  }

  lemma {:induction false} ExpireAllAnnounces(s: State, ids: seq<string>)
    requires NoDup(ids) && forall id :: id in ids ==> id in s.daemons
    ensures Expires(s, ExpireAll(s, ids), ids)
    decreases |ids|
  {
    if ids != [] {
      var id, rest := ids[0], ids[1..];
      var t := Expire(s, id);
      ExpireAnnounces(s, id);
      assert forall k :: k in rest ==> k in ids && k != id;
      ExpireAllAnnounces(t, rest);
      ExpiresCons(s, t, ExpireAll(t, rest), id, rest);
      assert ids == [id] + rest;
    }
  }

  lemma ExpiresCons(s: State, t: State, u: State, id: string, rest: seq<string>)
    requires id in s.daemons && t.daemons == s.daemons - {id} && t.owners == s.owners
    requires t.closing == s.closing + [s.daemons[id].ws] && t.emitted == s.emitted + [DaemonDisconnected(id)]
    requires Expires(t, u, rest)
    ensures Expires(s, u, [id] + rest)
  {
    assert u.closing[|s.closing|..] == [s.daemons[id].ws] + u.closing[|t.closing|..];
    assert u.emitted[|s.emitted|..] == [DaemonDisconnected(id)] + u.emitted[|t.emitted|..];
    assert forall i :: 0 <= i < |rest| ==> IsOn(t, rest[i], u.closing[|t.closing|..][i]);
  }

  lemma {:induction false} OwnerIsFirst(s: State, ws: int, from: nat)
    requires from <= |s.order| && forall j :: 0 <= j < from ==> !IsOn(s, s.order[j], ws)
    ensures var o := OwnerOf(s.daemons, s.order[from..], ws);
            match o
            case Some(id) => exists i: nat :: IsFirstOn(s, ws, i) && s.order[i] == id
            case None => forall j :: 0 <= j < |s.order| ==> !IsOn(s, s.order[j], ws)
    decreases |s.order| - from
  {
    if from < |s.order| {
      assert s.order[from..][0] == s.order[from] && s.order[from..][1..] == s.order[from + 1..];
      if IsOn(s, s.order[from], ws) {
        assert IsFirstOn(s, ws, from);
      } else {
        OwnerIsFirst(s, ws, from + 1);
      }
    }
  }

  lemma GoneAnnounces(s: State, ws: int, now: int)
    requires WellFormed(s)
    ensures Announces(s, Step(s, Gone(ws, now)), Gone(ws, now))
  {
    OwnerIsFirst(s, ws, 0);
    assert s.order[0..] == s.order;
    forall id | IsOn(s, id, ws)
      ensures exists j :: 0 <= j < |s.order| && s.order[j] == id
    {
      assert id in Elems(s.order);
    }
  }

  lemma CheckAnnounces(s: State, now: int)
    requires WellFormed(s)
    ensures Announces(s, Step(s, Check(now)), Check(now))
  {
    var loud := set id | id in s.order && !IsSilent(s, id, now);
    OverdueIsWithout(s, s.order, now, loud);
    WithoutKeepsNoDup(s.order, loud);
    ExpireAllAnnounces(s, OverdueIds(s.daemons, s.order, now));
  }

  /** After any operations whatever, the next one announces and closes exactly that. */
  lemma EveryOpAnnounces(ops: seq<Op>, op: Op)
    ensures Announces(Run(INITIAL, ops), Run(INITIAL, ops + [op]), op)
  {
    RegistryMirrorsEvents(ops);
    RunSnoc(INITIAL, ops, op);
    match op
    case Gone(ws, now) => GoneAnnounces(Run(INITIAL, ops), ws, now);
    case Check(now) => CheckAnnounces(Run(INITIAL, ops), now);
    case _ =>
  }

  /** When each socket registers one id, a registration closes exactly the socket on which that daemon's history has it
      registered, if it is another one. */
  lemma SupersededSocketIsClosed(ops: seq<Op>, ws: int, id: string, now: int)
    requires OneIdPerSocket(ops)
    ensures Run(INITIAL, ops + [Register(ws, id, now)]).closing ==
            Run(INITIAL, ops).closing +
            match LiveDaemon(ops, id)
            case Some(d) => if d.ws != ws then [d.ws] else []
            case None => []
  {
    SupersededSocketsAreHarmless(ops);
    EveryOpAnnounces(ops, Register(ws, id, now));
    assert TrackedIn(Run(INITIAL, ops), id) == LiveDaemon(ops, id);
  }

  lemma {:induction false} ExpireAllOrder(s: State, ids: seq<string>)
    ensures ExpireAll(s, ids).order == Without(s.order, set id | id in ids && id in s.daemons)
    decreases |ids|
  {
    if ids == [] {
      assert (set id | id in ids && id in s.daemons) == {};
      WithoutNothing(s.order, {});
    } else {
      var id, rest := ids[0], ids[1..];
      var t := Expire(s, id);
      ExpireAllOrder(t, rest);
      var later := set k | k in rest && k in t.daemons;
      var all := set k | k in ids && k in s.daemons;
      if id in s.daemons {
        WithoutTwice(s.order, {id}, later);
        assert all == {id} + later;
      } else {
        assert all == later;
      }
    }
  }

  /** The map lists daemons in the order in which they came to be registered: one that registers anew comes last, one
      that registers again keeps its place, and one that goes is taken out. */
  lemma OrderFollowsHistory(ops: seq<Op>, op: Op)
    ensures var s, t := Run(INITIAL, ops), Run(INITIAL, ops + [op]);
            t.order == if op.Register? then (if op.id in s.daemons then s.order else s.order + [op.id])
                       else Without(s.order, s.daemons.Keys - t.daemons.Keys)
  {
    RegistryMirrorsEvents(ops);
    RunSnoc(INITIAL, ops, op);
    if !op.Register? { OrderStep(Run(INITIAL, ops), op); }
  }

  lemma OrderStep(s: State, op: Op)
    requires WellFormed(s) && !op.Register?
    ensures Step(s, op).order == Without(s.order, s.daemons.Keys - Step(s, op).daemons.Keys)
  {
    var gone := s.daemons.Keys - Step(s, op).daemons.Keys;
    match op
    case Heartbeat(id, now) => assert gone == {}; WithoutNothing(s.order, {});
    case Gone(ws, _) =>
      var owner := OwnerOf(s.daemons, s.order, ws);
      if owner.Some? { assert gone == {owner.value}; } else { assert gone == {}; WithoutNothing(s.order, {}); }
    case Check(now) =>
      var ids := OverdueIds(s.daemons, s.order, now);
      ExpireAllOrder(s, ids);
      forall id ensures id in gone <==> id in ids && id in s.daemons { ExpireAllRemoves(s, ids, id); }
      assert gone == set id | id in ids && id in s.daemons;
  }

  // ---- socket owners ----

  /** The id that a socket last registered, until it ends. */
  function RegisteredOn(ops: seq<Op>, ws: int): Option<string> {
    if ops == [] then None
    else
      match ops[|ops| - 1]
      case Register(w, id, _) => if w == ws then Some(id) else RegisteredOn(ops[..|ops| - 1], ws)
      case Gone(w, _) => if w == ws then None else RegisteredOn(ops[..|ops| - 1], ws)
      case _ => RegisteredOn(ops[..|ops| - 1], ws)
  }

  /** The handler knows for every socket the id it last registered, until the socket ends. */
  lemma {:induction false} OwnersFollowHistory(ops: seq<Op>, ws: int)
    ensures var owners := Run(INITIAL, ops).owners;
            RegisteredOn(ops, ws) == if ws in owners then Some(owners[ws]) else None
  {
    if ops != [] {
      var before, op := ops[..|ops| - 1], ops[|ops| - 1];
      OwnersFollowHistory(before, ws);
      RegistryMirrorsEvents(before);
      if op.Check? { CheckAnnounces(Run(INITIAL, before), op.now); }
    }
  }
}
